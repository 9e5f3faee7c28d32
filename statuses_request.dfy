/**
 * `StatusesRequest` (src/requests/statuses.rs): the options of a statuses
 * listing, set by by-value setters and written as a query string.
 */
module StatusesRequests {
  import opened Wrappers
  import opened Strings
  import opened Records
  import opened QueryString

  datatype StatusesRequest = StatusesRequest(
    onlyMedia: bool,
    excludeReplies: bool,
    pinned: bool,
    maxId: Option<string>,
    sinceId: Option<string>,
    limit: Option<nat>,
    minId: Option<string>,
    excludeReblogs: bool)

  /** `new()`, the all-default request. */
  function New(): (r: StatusesRequest)
    ensures !r.onlyMedia && !r.excludeReplies && !r.pinned && !r.excludeReblogs
    ensures r.maxId.None? && r.sinceId.None? && r.limit.None? && r.minId.None?
  {
    StatusesRequest(false, false, false, None, None, None, None, false)
  }

  function OnlyMedia(r: StatusesRequest): (s: StatusesRequest)
    ensures s.onlyMedia && s.(onlyMedia := r.onlyMedia) == r
  {
    r.(onlyMedia := true)
  }

  function ExcludeReblogs(r: StatusesRequest): (s: StatusesRequest)
    ensures s.excludeReblogs && s.(excludeReblogs := r.excludeReblogs) == r
  {
    r.(excludeReblogs := true)
  }

  function ExcludeReplies(r: StatusesRequest): (s: StatusesRequest)
    ensures s.excludeReplies && s.(excludeReplies := r.excludeReplies) == r
  {
    r.(excludeReplies := true)
  }

  function Pinned(r: StatusesRequest): (s: StatusesRequest)
    ensures s.pinned && s.(pinned := r.pinned) == r
  {
    r.(pinned := true)
  }

  function MaxId(r: StatusesRequest, id: string): (s: StatusesRequest)
    ensures s.maxId == Some(id) && s.(maxId := r.maxId) == r
  {
    r.(maxId := Some(id))
  }

  function SinceId(r: StatusesRequest, id: string): (s: StatusesRequest)
    ensures s.sinceId == Some(id) && s.(sinceId := r.sinceId) == r
  {
    r.(sinceId := Some(id))
  }

  function Limit(r: StatusesRequest, n: nat): (s: StatusesRequest)
    ensures s.limit == Some(n) && s.(limit := r.limit) == r
  {
    r.(limit := Some(n))
  }

  function MinId(r: StatusesRequest, id: string): (s: StatusesRequest)
    ensures s.minId == Some(id) && s.(minId := r.minId) == r
  {
    r.(minId := Some(id))
  }

  /** `Into<Option<StatusesRequest>>` for a borrowed request: a field-by-field copy. */
  function IntoOption(r: StatusesRequest): (o: Option<StatusesRequest>)
    ensures o == Some(r)
  {
    Some(StatusesRequest(r.onlyMedia, r.excludeReplies, r.pinned, r.maxId, r.sinceId, r.limit, r.minId, r.excludeReblogs))
  }

  /** The keys, in the order the fields are declared. */
  const Keys: seq<string> :=
    ["only_media", "exclude_replies", "pinned", "max_id", "since_id", "limit", "min_id", "exclude_reblogs"]

  /** The serialised fields, in declaration order. */
  function Fields(r: StatusesRequest): (fs: seq<Field<string>>)
    ensures FieldKeys(fs) == Keys
  {
    [ Flag("only_media", r.onlyMedia),
      Flag("exclude_replies", r.excludeReplies),
      Flag("pinned", r.pinned),
      Text("max_id", r.maxId),
      Text("since_id", r.sinceId),
      Number("limit", r.limit),
      Text("min_id", r.minId),
      Flag("exclude_reblogs", r.excludeReblogs) ]
  }

  /** The text after the `?`. */
  function Query(r: StatusesRequest): string
  {
    Encode(Present(Fields(r)))
  }

  /** `to_querystring`: the query, behind a leading `?`. */
  function ToQueryString(r: StatusesRequest): (s: string)
    ensures |s| > 0 && s[0] == '?'
    ensures s[1..] == Query(r)
  {
    "?" + Query(r)
  }

  /** Whatever the setters did, the keys written keep the declaration order. */
  lemma KeysInDeclarationOrder(r: StatusesRequest)
    ensures IsSubsequence(PairKeys(Present(Fields(r))), Keys)
  {
    PresentKeysInOrder(Fields(r));
  }

  /** The identifiers are written as they are, which is exact for unreserved text. */
  predicate PlainIds(r: StatusesRequest)
  {
    (r.maxId.Some? ==> Unreserved(r.maxId.value)) &&
    (r.sinceId.Some? ==> Unreserved(r.sinceId.value)) &&
    (r.minId.Some? ==> Unreserved(r.minId.value))
  }

  /** The request a query string describes; a missing key means the default. */
  function FromQuery(q: string): StatusesRequest
  {
    var ps := Decode(q);
    StatusesRequest(
      FlagValue(Lookup(ps, "only_media")),
      FlagValue(Lookup(ps, "exclude_replies")),
      FlagValue(Lookup(ps, "pinned")),
      Lookup(ps, "max_id"),
      Lookup(ps, "since_id"),
      NumberValue(Lookup(ps, "limit")),
      Lookup(ps, "min_id"),
      FlagValue(Lookup(ps, "exclude_reblogs")))
  }

  lemma KeysDistinct()
    ensures forall i, j :: 0 <= i < j < |Keys| ==> Keys[i] != Keys[j]
  {
    assert Keys[2][0] != Keys[3][0] && Keys[2][0] != Keys[6][0] && Keys[3][1] != Keys[6][1];
    assert Keys[1][10] != Keys[7][10];
  }

  lemma KeysUnreserved()
    ensures forall i :: 0 <= i < |Keys| ==> Unreserved(Keys[i])
  {
  }

  /** The fields are written exactly, under distinct keys. */
  lemma FieldsWritable(r: StatusesRequest)
    requires PlainIds(r)
    ensures DistinctKeys(Fields(r)) && Writable(Fields(r))
  {
    var fs := Fields(r);
    KeysDistinct();
    KeysUnreserved();
    if r.limit.Some? {
      NatToStringUnreserved(r.limit.value);
    }
    assert Unreserved("1");
    forall i | 0 <= i < |fs|
      ensures Unreserved(fs[i].key) && (fs[i].value.Some? ==> Unreserved(fs[i].value.value))
    {
      assert fs[i].key == Keys[i];
    }
  }

  /**
   * Each key in the query carries its field: a flag appears as `1` exactly
   * when it is set, and an option appears exactly when it is `Some`.
   */
  lemma QueryCarriesFields(r: StatusesRequest, i: nat)
    requires PlainIds(r)
    requires i < |Keys|
    ensures Lookup(Decode(Query(r)), Keys[i]) == Fields(r)[i].value
  {
    FieldsWritable(r);
    DecodeWritten(Fields(r), i);
  }

  /** Reading the query back gives the request: nothing is lost or confused. */
  lemma QueryRoundTrip(r: StatusesRequest)
    requires PlainIds(r)
    ensures FromQuery(Query(r)) == r
  {
    QueryCarriesFields(r, 0);
    QueryCarriesFields(r, 1);
    QueryCarriesFields(r, 2);
    QueryCarriesFields(r, 3);
    QueryCarriesFields(r, 4);
    QueryCarriesFields(r, 5);
    QueryCarriesFields(r, 6);
    QueryCarriesFields(r, 7);
    NumberRoundTrip("limit", r.limit);
  }

  /** A request with only `pinned` and a limit set writes those two, `pinned` first. */
  lemma PinnedLimitPairs(r: StatusesRequest, n: nat)
    requires !r.onlyMedia && !r.excludeReplies && r.pinned && r.limit == Some(n) && !r.excludeReblogs
    requires r.maxId.None? && r.sinceId.None? && r.minId.None?
    ensures Present(Fields(r)) == [Pair("pinned", "1"), Pair("limit", NatToString(n))]
  {
    var fs := Fields(r);
    var l := [Pair("limit", NatToString(n))];
    assert fs[8..] == [];
    PresentStep(fs, 7);
    assert Present(fs[7..]) == [];
    PresentStep(fs, 6);
    assert Present(fs[6..]) == [];
    PresentStep(fs, 5);
    assert Present(fs[5..]) == l;
    PresentStep(fs, 4);
    assert Present(fs[4..]) == l;
    PresentStep(fs, 3);
    assert Present(fs[3..]) == l;
    PresentStep(fs, 2);
    assert Present(fs[2..]) == [Pair("pinned", "1")] + l;
    PresentStep(fs, 1);
    assert Present(fs[1..]) == [Pair("pinned", "1")] + l;
    PresentStep(fs, 0);
    assert fs[0..] == fs;
  }

  /** What `new().limit(10).pinned()` writes. */
  lemma DocExamplePairs()
    ensures Present(Fields(Pinned(Limit(New(), 10)))) == [Pair("pinned", "1"), Pair("limit", "10")]
  {
    PinnedLimitPairs(Pinned(Limit(New(), 10)), 10);
    assert NatToString(10) == "10";
  }

  /** A request whose query is `q` is written as `?` followed by `q`. */
  lemma Marked(r: StatusesRequest, q: string, s: string)
    requires Query(r) == q
    requires "?" + q == s
    ensures ToQueryString(r) == s
  {
  }

  /** The documented example: `new().limit(10).pinned()` gives `?pinned=1&limit=10`. */
  lemma DocExample()
    ensures ToQueryString(Pinned(Limit(New(), 10))) == "?pinned=1&limit=10"
  {
    assert "pinned" + "=" + "1" + "&" + "limit" + "=" + "10" == "pinned=1&limit=10";
    assert "?" + "pinned=1&limit=10" == "?pinned=1&limit=10";
    DocExamplePairs();
    EncodeTwoAs(Pair("pinned", "1"), Pair("limit", "10"), "pinned=1&limit=10");
    Marked(Pinned(Limit(New(), 10)), "pinned=1&limit=10", "?pinned=1&limit=10");
  }

  /** A request with only `only_media` and `exclude_replies` set writes those two, in declaration order. */
  lemma MediaRepliesPairs(r: StatusesRequest)
    requires r.onlyMedia && r.excludeReplies && !r.pinned && r.limit.None? && !r.excludeReblogs
    requires r.maxId.None? && r.sinceId.None? && r.minId.None?
    ensures Present(Fields(r)) == [Pair("only_media", "1"), Pair("exclude_replies", "1")]
  {
    var fs := Fields(r);
    assert fs[8..] == [];
    PresentStep(fs, 7);
    assert Present(fs[7..]) == [];
    PresentStep(fs, 6);
    assert Present(fs[6..]) == [];
    PresentStep(fs, 5);
    assert Present(fs[5..]) == [];
    PresentStep(fs, 4);
    assert Present(fs[4..]) == [];
    PresentStep(fs, 3);
    assert Present(fs[3..]) == [];
    PresentStep(fs, 2);
    assert Present(fs[2..]) == [];
    PresentStep(fs, 1);
    assert Present(fs[1..]) == [Pair("exclude_replies", "1")];
    PresentStep(fs, 0);
    assert fs[0..] == fs;
  }

  /** Such a request, whatever its origin, is written as `?only_media=1&exclude_replies=1`. */
  lemma MediaRepliesQuery(r: StatusesRequest)
    requires r.onlyMedia && r.excludeReplies && !r.pinned && r.limit.None? && !r.excludeReblogs
    requires r.maxId.None? && r.sinceId.None? && r.minId.None?
    ensures ToQueryString(r) == "?only_media=1&exclude_replies=1"
  {
    assert "?" + ("only_media" + "=" + "1" + "&" + "exclude_replies" + "=" + "1") == "?only_media=1&exclude_replies=1";
    MediaRepliesPairs(r);
    EncodeTwo(Pair("only_media", "1"), Pair("exclude_replies", "1"));
  }

  /** `only_media` and `exclude_replies` set different fields, so their order does not matter. */
  lemma OnlyMediaExcludeRepliesCommute(r: StatusesRequest)
    ensures ExcludeReplies(OnlyMedia(r)) == OnlyMedia(ExcludeReplies(r))
  {
  }

  /** `exclude_replies().only_media()` gives `?only_media=1&exclude_replies=1`. */
  lemma OrderExample()
    ensures ToQueryString(OnlyMedia(ExcludeReplies(New()))) == "?only_media=1&exclude_replies=1"
  {
    MediaRepliesQuery(OnlyMedia(ExcludeReplies(New())));
  }

  /** The tests' order case: the two setters in either order give `?only_media=1&exclude_replies=1`. */
  lemma SetterOrderIrrelevant()
    ensures ToQueryString(OnlyMedia(ExcludeReplies(New()))) == "?only_media=1&exclude_replies=1"
    ensures ToQueryString(ExcludeReplies(OnlyMedia(New()))) == "?only_media=1&exclude_replies=1"
  {
    OrderExample();
    OnlyMediaExcludeRepliesCommute(New());
  }
}
