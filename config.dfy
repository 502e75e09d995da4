/**
 * The configuration tree of package restfulx (config.go). Every field is a
 * plain value; the Go zero value of a string is "" and of a slice is nil,
 * which this model writes as the empty sequence.
 */
module Config {

  /** One tag of the OpenAPI document as configured (OpenapiTagConfig). */
  datatype TagConfig = TagConfig(name: string, description: string)

  /** Where the Swagger UI bundle and the descriptor are served (OpenapiUIConfig). */
  datatype UIConfig = UIConfig(
    url: string,
    api: string,
    dist: string,
    entrypoint: string,
    external: string)

  /** The anonymous Contact struct inside OpenAPIConfig.Spec. */
  datatype ContactConfig = ContactConfig(name: string, email: string, url: string)

  /** The anonymous License struct inside OpenAPIConfig.Spec. */
  datatype LicenseConfig = LicenseConfig(name: string, url: string)

  /** The anonymous Spec struct of OpenAPIConfig: the Info Object's source. */
  datatype SpecConfig = SpecConfig(
    title: string,
    description: string,
    contact: ContactConfig,
    license: LicenseConfig,
    version: string)

  /** OpenAPIConfig. The field `schemas` keeps the source's spelling. */
  datatype OpenAPIConfig = OpenAPIConfig(
    enabled: bool,
    host: string,
    basePath: string,
    schemas: seq<string>,
    auth: string,
    spec: SpecConfig,
    tags: seq<TagConfig>,
    ui: UIConfig)

  /** ServerConfig: one entry of RestfulConfig.Servers. */
  datatype ServerConfig = ServerConfig(
    name: string,
    addr: string,
    description: string,
    openAPI: OpenAPIConfig)

  /** RestfulConfig: the module's whole configuration. */
  datatype RestfulConfig = RestfulConfig(openAPI: OpenAPIConfig, servers: seq<ServerConfig>)
}
