# restfulx: OpenAPI descriptor hook and route tagging

A model of package `restfulx`, the go-restful integration module of the
chassix framework. Its logic is two routines of `restful.go`:

- the **post-build hook** (the closure returned by
  `newPostBuildOpenAPIObjectFunc`), which go-restful-openapi calls on the
  freshly built OpenAPI 2.0 (Swagger 2.0) document. It overwrites the Swagger
  Object's `host`, `basePath` and `schemes`, replaces the Info Object (title,
  description, contact, license, version) and replaces the tag list, all
  from the `openapi` section of the configuration;
- **`AddMetaDataTags`**, which walks the routes of a web service and, in
  each route's metadata map, sets or extends the entry under the key
  `KeyOpenAPITags`.

Files:

- `wrappers.dfy` (module `Wrappers`): `Option`, for Go's nil pointers and nil maps.
- `config.dfy` (module `Config`): the configuration tree of `config.go` as datatypes.
- `openapi_spec.dfy` (module `OpenAPISpec`): the Swagger Object as a class with
  explicit fields, and its Info, Contact, License and Tag Objects as datatypes.
- `route.dfy` (module `RestfulRoute`): a go-restful route and its dynamically
  typed metadata values (`Nil`, a `[]string`, or any other type).
- `restful.dfy` (module `Restfulx`): the two routines and their properties.

The source reads a package-level configuration singleton; the model passes
the configuration as an explicit parameter. The hook reads only its
`openapi` section, never a server entry.

Tag lists are concatenated, duplicates kept, so a second call with the
same tags appends them again.

## Model

| member | source | states |
|---|---|---|
| `Restfulx.PostBuildOpenAPIObject` | restful.go:26-58 | Host, BasePath and Schemes equal the configured host, base path and schemas; the Info Object is always present with title, description, version, contact (name, email, URL) and license (name, URL) copied verbatim, contact and license present even when empty, and no field of the previous Info surviving; the tag list has the configured tags' length and order with the same names and descriptions; swagger version, consumes, produces, paths, definitions, security definitions and security are unchanged |
| `Restfulx.SpecTags` | restful.go:50-56 | the converted tag list has exactly as many elements as the configured tags, element i carries configured tag i's name and description and no external docs; an empty configuration gives an empty list |
| `Restfulx.ConvertTags` | restful.go:50-56 | the append loop builds exactly `SpecTags` of the configured tags |
| `Restfulx.TagRoute` | restful.go:84-97 | for one route: method, path and operation are kept and every metadata key other than `KeyOpenAPITags` keeps its presence and value; a nil map or an absent or nil entry ends with the key bound to exactly `tags`; a `[]string` entry becomes existing ++ tags; an entry of any other type leaves the route exactly as it was |
| `Restfulx.AddMetaDataTags` | restful.go:82-98 | the routes array is updated in place; it keeps its length and order, and every route becomes its `TagRoute` |
| `Restfulx.TagRouteAccumulates` | restful.go:89-93 | tagging with t1 and then t2 equals tagging once with t1 ++ t2: lists are concatenated, never merged as sets |
| `Restfulx.TagRouteNotIdempotent` | restful.go:89-93 | on a route whose entry is not of some other type, tagging twice with the same non-empty tags differs from tagging once |
| `Restfulx.UserResourceWebservice` | exmaples/main.go:40-49 | the example's user route, registered without metadata and tagged with ["User"], ends with metadata holding exactly ["User"] under the key |

## Left out

- `Serve` (restful.go:61-79): it registers the descriptor service and a static file server with go-restful and net/http and starts the listener, all I/O and foreign calls. It also reads `config.Server.Port`, which `RestfulConfig` does not declare.
- `init` (restful.go:15-20): module registration with the chassix framework. Logging through logx is left out too.
- The value of `KeyOpenAPITags` comes from go-restful-openapi; the model uses `"openapi.tags"`, and no property depends on the text.
- How go-restful-openapi builds the document before calling the hook (paths, definitions, operations from routes) is not part of this model; those fields are only carried, so that "unchanged" can be stated.
- The Swagger Object is reduced to the fields listed in `openapi_spec.dfy`; its other fields (id, parameters, responses, external docs, extensions) behave like the unchanged ones.
- Go distinguishes a nil slice from an empty one (`schemes` and `tags` are nil when nothing is configured); both are the empty sequence here.
- `ws.Routes()` may return a copy of the web service's route slice or share it, and several routes share the backing array of the `tags` slice; both are runtime details of go-restful and Go. The routes are one array updated in place and tag lists are values.
- Metadata maps are modelled as per-route values. A Go map is shared by reference, so two routes built from one route builder hold the same map, and tagging an absent key on both yields `tags ++ tags` in Go; the model gives `tags` to each and does not capture such sharing.
- YAML loading of the configuration (struct tags in config.go) and the package-level configuration variable.
