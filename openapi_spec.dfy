/**
 * The part of the OpenAPI 2.0 (Swagger 2.0) document object that the
 * post-build hook touches, plus a few fields it must leave alone. The Go
 * type is spec.Swagger of github.com/go-openapi/spec, a struct handed to
 * the hook by pointer and updated in place, hence a class here.
 */
module OpenAPISpec {

  import opened Wrappers

  /** The Contact Object. */
  datatype ContactInfo = ContactInfo(name: string, email: string, url: string)

  /** The License Object. */
  datatype License = License(name: string, url: string)

  /** The Info Object; `contact` and `license` are pointers in Go, so they may be absent. */
  datatype Info = Info(
    title: string,
    description: string,
    termsOfService: string,
    contact: Option<ContactInfo>,
    license: Option<License>,
    version: string)

  /** The External Documentation Object a tag may point to. */
  datatype ExternalDocs = ExternalDocs(description: string, url: string)

  /** The Tag Object. */
  datatype Tag = Tag(name: string, description: string, externalDocs: Option<ExternalDocs>)

  /** An Operation Object, reduced to its identity and its tag list. */
  datatype Operation = Operation(operationId: string, tags: seq<string>)

  /** A Path Item Object: operations keyed by HTTP method. */
  datatype PathItem = PathItem(operations: map<string, Operation>)

  /** A Schema Object of the definitions section, reduced to its type and description. */
  datatype Schema = Schema(schemaType: string, description: string)

  /** A Security Scheme Object. */
  datatype SecurityScheme = SecurityScheme(schemeType: string, name: string, location: string)

  /** The Swagger Object. */
  class Swagger {
    var swagger: string
    var consumes: seq<string>
    var produces: seq<string>
    var schemes: seq<string>
    var info: Option<Info>
    var host: string
    var basePath: string
    var paths: map<string, PathItem>
    var definitions: map<string, Schema>
    var securityDefinitions: map<string, SecurityScheme>
    var security: seq<map<string, seq<string>>>
    var tags: seq<Tag>
  }
}
