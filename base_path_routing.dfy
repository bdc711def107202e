/**
 * How a broker with no base path configured decides whether a request path
 * prefix reaches it: the empty prefix is found with no platform id, a prefix
 * of one segment is found and that segment is the platform id, and a prefix
 * of two or more segments is not found.
 */
module EmptyBasePathRouting {
  import opened JavaLang

  /** Whether the broker answers under a prefix, and the platform id it reads from it. */
  datatype Outcome = Found(platformId: Nullable<string>) | NotFound

  /** Splits a path on '/', keeping empty segments: "" gives [""], "a/b" gives ["a", "b"]. */
  function Split(s: string): (segs: seq<string>)
    ensures |segs| >= 1
    ensures forall i :: 0 <= i < |segs| ==> '/' !in segs[i]
    decreases |s|
  {
    if s == [] then [""]
    else
      var rest := Split(s[1..]);
      if s[0] == '/' then [""] + rest else [[s[0]] + rest[0]] + rest[1..]
  }

  /** Joins segments with '/' between them. */
  function Join(segs: seq<string>): string
    requires |segs| >= 1
    decreases |segs|
  {
    if |segs| == 1 then segs[0] else segs[0] + "/" + Join(segs[1..])
  }

  lemma {:induction false} SplitWithoutSlash(a: string)
    requires '/' !in a
    ensures Split(a) == [a]
    decreases |a|
  {
    if a != [] {
      SplitWithoutSlash(a[1..]);
      assert [a[0]] + a[1..] == a;
    }
  }

  lemma {:induction false} SplitAtFirstSlash(a: string, t: string)
    requires '/' !in a
    ensures Split(a + "/" + t) == [a] + Split(t)
    decreases |a|
  {
    if a == [] {
      assert (a + "/" + t)[1..] == t;
    } else {
      SplitAtFirstSlash(a[1..], t);
      assert (a + "/" + t)[1..] == a[1..] + "/" + t;
      assert [a[0]] + a[1..] == a;
    }
  }

  /** Joining segments that hold no '/' and splitting again gives the segments back. */
  lemma {:induction false} SplitJoin(segs: seq<string>)
    requires |segs| >= 1
    requires forall i :: 0 <= i < |segs| ==> '/' !in segs[i]
    ensures Split(Join(segs)) == segs
    decreases |segs|
  {
    if |segs| == 1 {
      SplitWithoutSlash(segs[0]);
    } else {
      SplitJoin(segs[1..]);
      SplitAtFirstSlash(segs[0], Join(segs[1..]));
    }
  }

  /** Splitting a path and joining the segments gives the path back. */
  lemma {:induction false} JoinSplit(s: string)
    ensures Join(Split(s)) == s
    decreases |s|
  {
    if s != [] {
      var rest := Split(s[1..]);
      JoinSplit(s[1..]);
      if s[0] == '/' {
        assert Split(s) == [""] + rest;
        assert ([""] + rest)[1..] == rest;
      } else {
        var segs := [[s[0]] + rest[0]] + rest[1..];
        assert Split(s) == segs;
        if |rest| > 1 {
          assert segs[1..] == rest[1..];
        }
      }
    }
  }

  /**
   * The routing decision for a prefix when no base path is configured. The
   * empty prefix is found without a platform id; a prefix "/" + id, with id
   * non-empty and free of '/', is found with that platform id; every other
   * prefix is not found.
   */
  function Route(prefix: string): (o: Outcome)
    ensures o == Found(Null) <==> prefix == ""
    ensures o.Found? && o.platformId.NonNull? ==>
              var id := o.platformId.value; id != "" && '/' !in id && prefix == "/" + id
  {
    if prefix == "" then Found(Null)
    else if prefix[0] != '/' then NotFound
    else
      var segs := Split(prefix[1..]);
      if |segs| == 1 && segs[0] != "" then
        JoinSplit(prefix[1..]);
        assert prefix == [prefix[0]] + prefix[1..];
        Found(NonNull(segs[0]))
      else NotFound
  }

  /** The platform id as the broker reports it: a missing one reads "null". */
  function PlatformIdText(o: Outcome): string
    requires o.Found?
  {
    Render(o.platformId)
  }

  /** Any single non-empty segment is found, and it is the platform id. */
  lemma SingleSegmentIsPlatformId(id: string)
    requires id != "" && '/' !in id
    ensures Route("/" + id) == Found(NonNull(id))
    ensures PlatformIdText(Route("/" + id)) == id
  {
    assert ("/" + id)[1..] == id;
    SplitWithoutSlash(id);
  }

  /**
   * For a prefix built from non-empty segments, the prefix is found exactly
   * when it has one segment, and then that segment is the platform id.
   */
  lemma {:induction false} FoundIffAtMostOneSegment(segs: seq<string>)
    requires |segs| >= 1
    requires forall i :: 0 <= i < |segs| ==> segs[i] != "" && '/' !in segs[i]
    ensures Route("/" + Join(segs)).Found? <==> |segs| == 1
    ensures |segs| == 1 ==> Route("/" + Join(segs)) == Found(NonNull(segs[0]))
  {
    assert ("/" + Join(segs))[1..] == Join(segs);
    SplitJoin(segs);
  }

  /** "" is found, with no platform id. */
  lemma EmptyPrefixFound()
    ensures Route("") == Found(Null) && PlatformIdText(Route("")) == "null"
  {
  }

  /** "/123" is found, with platform id "123". */
  lemma PlatformIdPrefixFound()
    ensures Route("/123") == Found(NonNull("123")) && PlatformIdText(Route("/123")) == "123"
  {
    SingleSegmentIsPlatformId("123");
  }

  /** "/api/broker", "/api/broker/123" and "/api/broker/123/456" are not found. */
  lemma MultiSegmentPrefixesNotFound()
    ensures Route("/api/broker") == NotFound
    ensures Route("/api/broker/123") == NotFound
    ensures Route("/api/broker/123/456") == NotFound
  {
    NotFoundExample(["api", "broker"]);
    NotFoundExample(["api", "broker", "123"]);
    NotFoundExample(["api", "broker", "123", "456"]);
    assert Join(["api", "broker"]) == "api/broker";
    assert Join(["api", "broker", "123"]) == "api/broker/123";
    assert Join(["api", "broker", "123", "456"]) == "api/broker/123/456";
  }

  lemma NotFoundExample(segs: seq<string>)
    requires |segs| >= 2
    requires forall i :: 0 <= i < |segs| ==> segs[i] != "" && '/' !in segs[i]
    ensures Route("/" + Join(segs)) == NotFound
  {
    FoundIffAtMostOneSegment(segs);
  }
}
