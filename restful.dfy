/**
 * The logic of restful.go: the hook that fills the descriptor's metadata
 * from the configuration once go-restful-openapi has built it, and the
 * helper that attaches tags to every route of a web service.
 *
 * The source reads a package-level configuration singleton; here the
 * configuration is an explicit parameter.
 */
module Restfulx {

  import opened Wrappers
  import opened Config
  import opened OpenAPISpec
  import opened RestfulRoute

  /**
   * The metadata key under which go-restful-openapi looks for a route's
   * tags (restfulSpec.KeyOpenAPITags). No property below depends on its text.
   */
  const KeyOpenAPITags: string := "openapi.tags"

  /** One configured tag as a Tag Object; the hook sets no external docs. */
  function SpecTag(c: TagConfig): Tag
  {
    Tag(c.name, c.description, None)
  }

  /**
   * The tag list the hook builds: one Tag Object per configured tag, in the
   * configured order, carrying its name and description and nothing else.
   * Written as the source builds it, by appending.
   */
  function SpecTags(cs: seq<TagConfig>): (ts: seq<Tag>)
    ensures |ts| == |cs|
    ensures forall i :: 0 <= i < |cs| ==>
      ts[i].name == cs[i].name && ts[i].description == cs[i].description && ts[i].externalDocs == None
  {
    if cs == [] then [] else SpecTags(cs[..|cs| - 1]) + [SpecTag(cs[|cs| - 1])]
  }

  /** The `for ... range config.Tags` loop of the hook, appending to `nTags`. */
  method ConvertTags(cs: seq<TagConfig>) returns (nTags: seq<Tag>)
    ensures nTags == SpecTags(cs)
  {
    nTags := [];
    for i := 0 to |cs|
      invariant nTags == SpecTags(cs[..i])
    {
      assert cs[..i + 1][..i] == cs[..i];
      nTags := nTags + [SpecTag(cs[i])];
    }
    assert cs[..|cs|] == cs;
  }

  /**
   * The post-build hook (the closure returned by newPostBuildOpenAPIObjectFunc).
   * It overwrites host, base path, schemes, the whole Info Object and the
   * tag list from `config.openAPI`, and leaves every other field alone. The
   * per-server entries of the configuration play no part.
   */
  method PostBuildOpenAPIObject(config: RestfulConfig, swo: Swagger)
    modifies swo
    ensures swo.host == config.openAPI.host
    ensures swo.basePath == config.openAPI.basePath
    ensures swo.schemes == config.openAPI.schemas
    ensures swo.info.Some?
    ensures swo.info.value.title == config.openAPI.spec.title
    ensures swo.info.value.description == config.openAPI.spec.description
    ensures swo.info.value.version == config.openAPI.spec.version
    ensures swo.info.value.contact ==
      Some(ContactInfo(config.openAPI.spec.contact.name, config.openAPI.spec.contact.email, config.openAPI.spec.contact.url))
    ensures swo.info.value.license ==
      Some(License(config.openAPI.spec.license.name, config.openAPI.spec.license.url))
    // A fresh Info Object replaces the old one: nothing of it survives.
    ensures swo.info.value.termsOfService == ""
    ensures swo.tags == SpecTags(config.openAPI.tags)
    ensures |swo.tags| == |config.openAPI.tags|
    ensures forall i :: 0 <= i < |swo.tags| ==>
      swo.tags[i].name == config.openAPI.tags[i].name && swo.tags[i].description == config.openAPI.tags[i].description
    ensures swo.swagger == old(swo.swagger)
    ensures swo.consumes == old(swo.consumes) && swo.produces == old(swo.produces)
    ensures swo.paths == old(swo.paths) && swo.definitions == old(swo.definitions)
    ensures swo.securityDefinitions == old(swo.securityDefinitions) && swo.security == old(swo.security)
  {
    var cfg := config.openAPI;
    swo.host := cfg.host;
    swo.basePath := cfg.basePath;
    swo.schemes := cfg.schemas;
    swo.info := Some(Info(
      cfg.spec.title,
      cfg.spec.description,
      "",
      Some(ContactInfo(cfg.spec.contact.name, cfg.spec.contact.email, cfg.spec.contact.url)),
      Some(License(cfg.spec.license.name, cfg.spec.license.url)),
      cfg.spec.version));
    var nTags := ConvertTags(cfg.tags);
    swo.tags := nTags;
  }

  /**
   * What AddMetaDataTags does to one route. A nil map becomes a map; an
   * absent or nil entry becomes `tags`; a []string entry gets `tags`
   * appended, duplicates kept; an entry of any other type leaves the route
   * exactly as it was. No other key and no other field changes.
   */
  function TagRoute(r: Route, tags: seq<string>): (t: Route)
    ensures t.httpMethod == r.httpMethod && t.path == r.path && t.operation == r.operation
    ensures Entries(t) - {KeyOpenAPITags} == Entries(r) - {KeyOpenAPITags}
    ensures Lookup(Entries(r), KeyOpenAPITags).Other? ==> t == r
    ensures !Lookup(Entries(r), KeyOpenAPITags).Other? ==>
      t.metadata.Some? && KeyOpenAPITags in t.metadata.value
    ensures Lookup(Entries(r), KeyOpenAPITags).Nil? ==>
      Lookup(Entries(t), KeyOpenAPITags) == StrList(tags)
    ensures Lookup(Entries(r), KeyOpenAPITags).StrList? ==>
      Lookup(Entries(t), KeyOpenAPITags) == StrList(Lookup(Entries(r), KeyOpenAPITags).strs + tags)
  {
    var m := Entries(r);
    match Lookup(m, KeyOpenAPITags)
    case Nil => r.(metadata := Some(m[KeyOpenAPITags := StrList(tags)]))
    case StrList(existing) => r.(metadata := Some(m[KeyOpenAPITags := StrList(existing + tags)]))
    case Other(_) => r
  }

  /**
   * AddMetaDataTags over the routes of a web service, updated in place: the
   * number and order of routes are kept and each route becomes its TagRoute.
   */
  method AddMetaDataTags(routes: array<Route>, tags: seq<string>)
    modifies routes
    ensures forall i :: 0 <= i < routes.Length ==> routes[i] == TagRoute(old(routes[i]), tags)
  {
    for i := 0 to routes.Length
      invariant forall k :: 0 <= k < i ==> routes[k] == TagRoute(old(routes[k]), tags)
      invariant forall k :: i <= k < routes.Length ==> routes[k] == old(routes[k])
    {
      if routes[i].metadata.None? {
        routes[i] := routes[i].(metadata := Some(map[]));
      }
      var md := routes[i].metadata.value;
      var routeTags := Lookup(md, KeyOpenAPITags);
      if routeTags != Nil {
        if routeTags.StrList? {
          var existedTags := routeTags.strs + tags;
          routes[i] := routes[i].(metadata := Some(md[KeyOpenAPITags := StrList(existedTags)]));
        }
        continue;
      }
      routes[i] := routes[i].(metadata := Some(md[KeyOpenAPITags := StrList(tags)]));
    }
  }

  /** Two calls add up: tagging with `t1` then `t2` is tagging once with `t1 + t2`. */
  lemma TagRouteAccumulates(r: Route, t1: seq<string>, t2: seq<string>)
    ensures TagRoute(TagRoute(r, t1), t2) == TagRoute(r, t1 + t2)
  {
    var m := Entries(r);
    match Lookup(m, KeyOpenAPITags)
    case Nil =>
      assert m[KeyOpenAPITags := StrList(t1)][KeyOpenAPITags := StrList(t1 + t2)]
        == m[KeyOpenAPITags := StrList(t1 + t2)];
    case StrList(existing) =>
      assert existing + t1 + t2 == existing + (t1 + t2);
      assert m[KeyOpenAPITags := StrList(existing + t1)][KeyOpenAPITags := StrList(existing + t1 + t2)]
        == m[KeyOpenAPITags := StrList(existing + (t1 + t2))];
    case Other(_) =>
  }

  /**
   * Tagging is not idempotent: on any route whose entry is not of another
   * type, a second call with the same non-empty tags appends them again.
   */
  lemma TagRouteNotIdempotent(r: Route, tags: seq<string>)
    requires tags != []
    requires !Lookup(Entries(r), KeyOpenAPITags).Other?
    ensures TagRoute(TagRoute(r, tags), tags) != TagRoute(r, tags)
  {
    var once := TagRoute(r, tags);
    assert |Lookup(Entries(TagRoute(once, tags)), KeyOpenAPITags).strs|
      > |Lookup(Entries(once), KeyOpenAPITags).strs|;
  }

  /**
   * The example program's user web service: one route, registered without
   * metadata, then tagged with ["User"]; the route ends with exactly that
   * list under the key.
   */
  method UserResourceWebservice() returns (routes: array<Route>)
    ensures fresh(routes) && routes.Length == 1
    ensures routes[0].path == "/api/v1/users/{user_id}"
    ensures routes[0].metadata == Some(map[KeyOpenAPITags := StrList(["User"])])
  {
    routes := new Route[1][Route("GET", "/api/v1/users/{user_id}", "getUser", None)];
    AddMetaDataTags(routes, ["User"]);
  }
}
