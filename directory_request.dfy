/**
 * `DirectoryRequest` (src/requests/directory.rs): the options of a profile
 * directory listing, written as a query string without a leading `?`.
 */
module DirectoryRequests {
  import opened Wrappers
  import opened Strings
  import opened Records
  import opened QueryString

  datatype DirectoryRequest = DirectoryRequest(
    offset: Option<nat>,
    limit: Option<nat>,
    order: Option<string>,
    local: bool)

  /** `new()`, the all-default request. */
  function New(): (r: DirectoryRequest)
    ensures r.offset.None? && r.limit.None? && r.order.None? && !r.local
  {
    DirectoryRequest(None, None, None, false)
  }

  function Offset(r: DirectoryRequest, n: nat): (s: DirectoryRequest)
    ensures s.offset == Some(n) && s.(offset := r.offset) == r
  {
    r.(offset := Some(n))
  }

  function Limit(r: DirectoryRequest, n: nat): (s: DirectoryRequest)
    ensures s.limit == Some(n) && s.(limit := r.limit) == r
  {
    r.(limit := Some(n))
  }

  function Order(r: DirectoryRequest, order: string): (s: DirectoryRequest)
    ensures s.order == Some(order) && s.(order := r.order) == r
  {
    r.(order := Some(order))
  }

  function Local(r: DirectoryRequest): (s: DirectoryRequest)
    ensures s.local && s.(local := r.local) == r
  {
    r.(local := true)
  }

  /** The keys, in the order the fields are declared. */
  const Keys: seq<string> := ["offset", "limit", "order", "local"]

  /** The serialised fields, in declaration order; a `None` option is skipped. */
  function Fields(r: DirectoryRequest): (fs: seq<Field<string>>)
    ensures FieldKeys(fs) == Keys
  {
    [ Number("offset", r.offset),
      Number("limit", r.limit),
      Text("order", r.order),
      Flag("local", r.local) ]
  }

  /** `to_querystring`: the pairs alone, with no `?` in front. */
  function ToQueryString(r: DirectoryRequest): (s: string)
    ensures s == "" <==> Present(Fields(r)) == []
    ensures |s| > 0 ==> s[0] != '?'
  {
    var ps := Present(Fields(r));
    var s := Encode(ps);
    assert ps != [] ==> s != "" && s[0] != '?' by {
      if ps != [] {
        EncodeCons(ps[0], ps[1..]);
        assert [ps[0]] + ps[1..] == ps;
        KeysUnreserved();
        PresentKeyDeclared(Fields(r), ps[0].key);
        UnreservedHasNoDelimiter(ps[0].key);
      }
    }
    s
  }

  lemma KeysDistinct()
    ensures forall i, j :: 0 <= i < j < |Keys| ==> Keys[i] != Keys[j]
  {
    assert Keys[1][1] != Keys[3][1];
    assert Keys[2][0] != Keys[1][0];
  }

  lemma KeysUnreserved()
    ensures forall i :: 0 <= i < |Keys| ==> Unreserved(Keys[i]) && |Keys[i]| > 0
  {
  }

  /** Every written key is one of the declared keys. */
  lemma PresentKeyDeclared(fs: seq<Field<string>>, k: string)
    requires exists j :: 0 <= j < |Present(fs)| && Present(fs)[j].key == k
    ensures exists i :: 0 <= i < |fs| && fs[i].key == k
  {
    if forall i :: 0 <= i < |fs| ==> fs[i].key != k {
      LookupUndeclared(fs, k);
      assert false;
    }
  }

  /** Keys appear in declaration order whatever the setters did. */
  lemma KeysInDeclarationOrder(r: DirectoryRequest)
    ensures IsSubsequence(PairKeys(Present(Fields(r))), Keys)
  {
    PresentKeysInOrder(Fields(r));
  }

  predicate PlainOrder(r: DirectoryRequest)
  {
    r.order.Some? ==> Unreserved(r.order.value)
  }

  lemma FieldsWritable(r: DirectoryRequest)
    requires PlainOrder(r)
    ensures DistinctKeys(Fields(r)) && Writable(Fields(r))
  {
    var fs := Fields(r);
    KeysDistinct();
    KeysUnreserved();
    if r.offset.Some? {
      NatToStringUnreserved(r.offset.value);
    }
    if r.limit.Some? {
      NatToStringUnreserved(r.limit.value);
    }
    assert Unreserved("1");
    forall i | 0 <= i < |fs|
      ensures Unreserved(fs[i].key) && (fs[i].value.Some? ==> Unreserved(fs[i].value.value))
    {
      assert fs[i].key == Keys[i];
    }
  }

  /** The request a query string describes; a missing key means the default. */
  function FromQuery(q: string): DirectoryRequest
  {
    var ps := Decode(q);
    DirectoryRequest(
      NumberValue(Lookup(ps, "offset")),
      NumberValue(Lookup(ps, "limit")),
      Lookup(ps, "order"),
      FlagValue(Lookup(ps, "local")))
  }

  /** Reading the query back gives the request. */
  lemma QueryRoundTrip(r: DirectoryRequest)
    requires PlainOrder(r)
    ensures FromQuery(ToQueryString(r)) == r
  {
    FieldsWritable(r);
    DecodeWritten(Fields(r), 0);
    DecodeWritten(Fields(r), 1);
    DecodeWritten(Fields(r), 2);
    DecodeWritten(Fields(r), 3);
    NumberRoundTrip("offset", r.offset);
    NumberRoundTrip("limit", r.limit);
  }

  /** The documented example: `new().limit(10)` gives `limit=10`. */
  lemma DocExample()
    ensures ToQueryString(Limit(New(), 10)) == "limit=10"
  {
    var fs := Fields(Limit(New(), 10));
    assert NatToString(10) == "10";
    assert fs[4..] == [];
    PresentStep(fs, 3);
    PresentStep(fs, 2);
    PresentStep(fs, 1);
    PresentStep(fs, 0);
    assert fs[0..] == fs;
    assert Present(fs) == [Pair("limit", "10")];
    EncodeCons(Pair("limit", "10"), []);
    assert [Pair("limit", "10")] + [] == [Pair("limit", "10")];
    assert "limit" + "=" + "10" == "limit=10";
  }
}
