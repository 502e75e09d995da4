/**
 * The slice of a go-restful Route that AddMetaDataTags reads and writes.
 * Route.Metadata is a map[string]interface{} that may be nil; the values are
 * dynamically typed, and the only type the tag code tells apart is []string.
 */
module RestfulRoute {

  import opened Wrappers

  /** A metadata value: the nil interface, a []string, or a value of any other dynamic type. */
  datatype MetaValue = Nil | StrList(strs: seq<string>) | Other(dynamicType: string)

  type Metadata = map<string, MetaValue>

  /** A route: its method and path, and its metadata map (None is Go's nil map). */
  datatype Route = Route(httpMethod: string, path: string, operation: string, metadata: Option<Metadata>)

  /** The metadata map of `r` as Go indexes it: a nil map reads as empty. */
  function Entries(r: Route): Metadata
  {
    if r.metadata.Some? then r.metadata.value else map[]
  }

  /** `m[key]` in Go: a missing key yields the zero value of interface{}, nil. */
  function Lookup(m: Metadata, key: string): MetaValue
  {
    if key in m then m[key] else Nil
  }
}
