/**
 * The response to a request for a route service binding
 * (GetServiceInstanceRouteBindingResponse) and its builder. The builder
 * accumulates parameters through parameters(key, value) and
 * parameters(map) calls and sets the metadata and the route service URL;
 * build() copies its state into a response.
 */
module RouteBindingResponse {
  import opened JavaLang
  import opened MapUpdates
  import AppBindingResponse

  /** The response: parameters and metadata (from the superclass) and the route service URL. */
  datatype Response = Response(parameters: map<string, Object>, metadata: Nullable<AppBindingResponse.BindingMetadata>, routeServiceUrl: Nullable<string>)

  /** Structural equality over every field, those of the superclass included. */
  predicate Equals(a: Response, b: Response)
  {
    a.parameters == b.parameters && a.metadata == b.metadata && a.routeServiceUrl == b.routeServiceUrl
  }

  lemma EqualsIsStructural(a: Response, b: Response)
    ensures Equals(a, b) <==> a == b
  {
  }

  /**
   * After a chain of parameters(..) calls on a fresh builder, the parameters
   * hold one entry per distinct key mentioned, each with the value of the
   * last call that mentioned it.
   */
  lemma {:induction false} ParametersAfterCalls(us: seq<Update<string, Object>>)
    ensures ApplyUpdates(map[], us).Keys == MentionedKeys(us)
    ensures |ApplyUpdates(map[], us)| == |MentionedKeys(us)|
    ensures forall k :: k in ApplyUpdates(map[], us) ==> LastAssigned(us, k) == Some(ApplyUpdates(map[], us)[k])
  {
    var m := ApplyUpdates(map[], us);
    ApplyUpdatesKeys(map[], us);
    assert m.Keys == MentionedKeys(us);
    forall k | k in m
      ensures LastAssigned(us, k) == Some(m[k])
    {
      ApplyUpdatesLookup(map[], us, k);
    }
  }

  /** The builder object. */
  class Builder {
    var parameters: map<string, Object>
    var metadata: Nullable<AppBindingResponse.BindingMetadata>
    var routeServiceUrl: Nullable<string>

    /** builder(): no parameters, null metadata and null route service URL. */
    constructor ()
      ensures parameters == map[] && metadata == Null && routeServiceUrl == Null
    {
      parameters := map[];
      metadata := Null;
      routeServiceUrl := Null;
    }

    /** parameters(key, value): adds or overwrites one parameter. */
    method PutParameter(key: string, value: Object) returns (self: Builder)
      modifies this
      ensures self == this
      ensures parameters == ApplyUpdate(old(parameters), Put(key, value))
      ensures parameters.Keys == old(parameters).Keys + {key} && parameters[key] == value
      ensures forall k :: k in old(parameters) && k != key ==> parameters[k] == old(parameters)[k]
      ensures metadata == old(metadata) && routeServiceUrl == old(routeServiceUrl)
    {
      parameters := parameters[key := value];
      self := this;
    }

    /** parameters(Map): merges every entry into the parameters. */
    method AddParameters(entries: map<string, Object>) returns (self: Builder)
      modifies this
      ensures self == this
      ensures parameters == ApplyUpdate(old(parameters), PutAll(entries))
      ensures parameters.Keys == old(parameters).Keys + entries.Keys
      ensures forall k :: k in entries ==> parameters[k] == entries[k]
      ensures forall k :: k in old(parameters) && k !in entries ==> parameters[k] == old(parameters)[k]
      ensures metadata == old(metadata) && routeServiceUrl == old(routeServiceUrl)
    {
      parameters := parameters + entries;
      self := this;
    }

    /** metadata(..) */
    method SetMetadata(meta: Nullable<AppBindingResponse.BindingMetadata>) returns (self: Builder)
      modifies this
      ensures self == this
      ensures metadata == meta && parameters == old(parameters) && routeServiceUrl == old(routeServiceUrl)
    {
      metadata := meta;
      self := this;
    }

    /** routeServiceUrl(..) */
    method SetRouteServiceUrl(url: Nullable<string>) returns (self: Builder)
      modifies this
      ensures self == this
      ensures routeServiceUrl == url && parameters == old(parameters) && metadata == old(metadata)
    {
      routeServiceUrl := url;
      self := this;
    }

    /** build(): the response carries the builder's parameters, metadata and route service URL unchanged. */
    method Build() returns (r: Response)
      ensures r.parameters == parameters && r.metadata == metadata && r.routeServiceUrl == routeServiceUrl
    {
      r := Response(parameters, metadata, routeServiceUrl);
    }
  }

  /** A builder given nothing builds a response with no parameters, no metadata and no route service URL. */
  method BuildWithDefaults() returns (r: Response)
    ensures |r.parameters| == 0 && r.metadata == Null && r.routeServiceUrl == Null
  {
    var b := new Builder();
    r := b.Build();
  }

  /**
   * Three single parameters and a map of two more distinct keys give five
   * parameters, each holding the value supplied, whatever its type; the
   * metadata and route service URL are carried over unchanged.
   */
  method BuildWithValues() returns (r: Response)
    ensures |r.parameters| == 5
    ensures r.parameters == map["field1" := JString("value1"), "field2" := JInteger(2), "field3" := JBoolean(true),
                                "field4" := JString("value4"), "field5" := JString("value5")]
    ensures r.metadata == NonNull(AppBindingResponse.BindingMetadata(NonNull("2019-12-31T23:59:59.0Z")))
    ensures r.routeServiceUrl == NonNull("https://routes.app.local")
  {
    var b := new Builder();
    var _ := b.PutParameter("field1", JString("value1"));
    var _ := b.PutParameter("field2", JInteger(2));
    var _ := b.PutParameter("field3", JBoolean(true));
    var extra := map["field4" := JString("value4"), "field5" := JString("value5")];
    ghost var before := b.parameters;
    var _ := b.AddParameters(extra);
    assert b.parameters == before["field4" := JString("value4")]["field5" := JString("value5")];
    var _ := b.SetMetadata(NonNull(AppBindingResponse.BindingMetadata(NonNull("2019-12-31T23:59:59.0Z"))));
    var _ := b.SetRouteServiceUrl(NonNull("https://routes.app.local"));
    r := b.Build();
  }
}
