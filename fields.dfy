/**
 * Records written field by field: each declared field has a key and an
 * optional value, fields whose value is `None` are skipped, and the rest
 * keep their declaration order. Both the query strings and the JSON bodies
 * of the client are written this way.
 */
module Records {
  import opened Wrappers

  datatype Pair<V> = Pair(key: string, value: V)

  /** One declared field: its key and its text, `None` when it is skipped. */
  datatype Field<V> = Field(key: string, value: Option<V>)

  /** The fields that are written, in declaration order. */
  function Present<V>(fs: seq<Field<V>>): (ps: seq<Pair<V>>)
    ensures |ps| <= |fs|
    decreases |fs|
  {
    if |fs| == 0 then []
    else (if fs[0].value.Some? then [Pair(fs[0].key, fs[0].value.value)] else []) + Present(fs[1..])
  }

  function FieldKeys<V>(fs: seq<Field<V>>): (ks: seq<string>)
    ensures |ks| == |fs| && forall i :: 0 <= i < |fs| ==> ks[i] == fs[i].key
  {
    seq(|fs|, i requires 0 <= i < |fs| => fs[i].key)
  }

  function PairKeys<V>(ps: seq<Pair<V>>): (ks: seq<string>)
    ensures |ks| == |ps| && forall i :: 0 <= i < |ps| ==> ks[i] == ps[i].key
  {
    seq(|ps|, i requires 0 <= i < |ps| => ps[i].key)
  }

  /** `a` is `b` with some elements removed, the rest kept in order. */
  predicate IsSubsequence(a: seq<string>, b: seq<string>)
    decreases |b|
  {
    if |a| == 0 then true
    else if |b| == 0 then false
    else if a[0] == b[0] then IsSubsequence(a[1..], b[1..])
    else IsSubsequence(a, b[1..])
  }

  /** Dropping the first element of a subsequence leaves a subsequence. */
  lemma {:induction false} SubsequenceTail(a: seq<string>, b: seq<string>)
    requires |a| > 0 && IsSubsequence(a, b)
    ensures IsSubsequence(a[1..], b)
    decreases |b|
  {
    if |a| > 1 {
      if a[0] == b[0] {
        SubsequenceTail(a[1..], b[1..]);
        assert a[1..][1..] == a[2..];
      } else {
        SubsequenceTail(a, b[1..]);
        if a[1] == b[0] {
          SubsequenceTail(a[1..], b[1..]);
          assert a[1..][1..] == a[2..];
        }
      }
    }
  }

  /** Written keys keep the declaration order, whatever was left out. */
  lemma {:induction false} PresentKeysInOrder<V>(fs: seq<Field<V>>)
    ensures IsSubsequence(PairKeys(Present(fs)), FieldKeys(fs))
    decreases |fs|
  {
    if |fs| > 0 {
      PresentKeysInOrder(fs[1..]);
      var b := FieldKeys(fs);
      assert b[1..] == FieldKeys(fs[1..]);
      if fs[0].value.Some? {
        assert PairKeys(Present(fs))[1..] == PairKeys(Present(fs[1..]));
      } else {
        var a := PairKeys(Present(fs[1..]));
        assert PairKeys(Present(fs)) == a;
        if |a| > 0 && a[0] == b[0] {
          SubsequenceTail(a, b[1..]);
        }
      }
    }
  }

  /** The value of the first pair with key `k`. */
  function Lookup<V>(ps: seq<Pair<V>>, k: string): (r: Option<V>)
    ensures r.Some? <==> exists i :: 0 <= i < |ps| && ps[i].key == k
    decreases |ps|
  {
    if |ps| == 0 then None
    else if ps[0].key == k then Some(ps[0].value)
    else
      var r := Lookup(ps[1..], k);
      assert r.Some? ==> exists i :: 0 <= i < |ps| && ps[i].key == k by {
        if r.Some? {
          var j :| 0 <= j < |ps[1..]| && ps[1..][j].key == k;
          assert ps[j + 1].key == k;
        }
      }
      assert (exists i :: 0 <= i < |ps| && ps[i].key == k) ==> r.Some? by {
        if exists i :: 0 <= i < |ps| && ps[i].key == k {
          var i :| 0 <= i < |ps| && ps[i].key == k;
          assert i != 0;
          assert ps[1..][i - 1].key == k;
        }
      }
      r
  }

  predicate DistinctKeys<V>(fs: seq<Field<V>>)
  {
    forall i, j :: 0 <= i < j < |fs| ==> fs[i].key != fs[j].key
  }

  /** Looking a declared key up in what was written gives back that field's value. */
  lemma {:induction false} LookupPresent<V>(fs: seq<Field<V>>, i: nat)
    requires DistinctKeys(fs)
    requires i < |fs|
    ensures Lookup(Present(fs), fs[i].key) == fs[i].value
    decreases |fs|
  {
    var head := if fs[0].value.Some? then [Pair(fs[0].key, fs[0].value.value)] else [];
    assert Present(fs) == head + Present(fs[1..]);
    if i == 0 {
      if fs[0].value.None? {
        assert Present(fs) == Present(fs[1..]);
        forall m | 0 <= m < |fs[1..]|
          ensures fs[1..][m].key != fs[0].key
        {
          assert fs[1..][m] == fs[m + 1];
        }
        LookupUndeclared(fs[1..], fs[0].key);
      }
    } else {
      var rest := fs[1..];
      assert DistinctKeys(rest) by {
        forall a, b | 0 <= a < b < |rest|
          ensures rest[a].key != rest[b].key
        {
          assert rest[a] == fs[a + 1] && rest[b] == fs[b + 1];
        }
      }
      LookupPresent(rest, i - 1);
      assert rest[i - 1] == fs[i];
      assert fs[0].key != fs[i].key;
      var ps := Present(fs);
      if fs[0].value.Some? {
        assert ps[0].key == fs[0].key;
        assert ps[1..] == Present(rest);
        assert Lookup(ps, fs[i].key) == Lookup(ps[1..], fs[i].key);
      } else {
        assert ps == Present(rest);
      }
    }
  }

  /** A key no field declares is never written. */
  lemma {:induction false} LookupUndeclared<V>(fs: seq<Field<V>>, k: string)
    requires forall m :: 0 <= m < |fs| ==> fs[m].key != k
    ensures Lookup(Present(fs), k) == None
    decreases |fs|
  {
    if |fs| > 0 {
      LookupUndeclared(fs[1..], k);
      if fs[0].value.Some? {
        assert Present(fs)[1..] == Present(fs[1..]);
      }
    }
  }

  /** In pairs with distinct keys, each key finds its own pair. */
  lemma {:induction false} LookupAt<V>(ps: seq<Pair<V>>, i: nat)
    requires forall a, b :: 0 <= a < b < |ps| ==> ps[a].key != ps[b].key
    requires i < |ps|
    ensures Lookup(ps, ps[i].key) == Some(ps[i].value)
    decreases |ps|
  {
    if i > 0 {
      assert ps[0].key != ps[i].key;
      assert ps[1..][i - 1] == ps[i];
      LookupAt(ps[1..], i - 1);
    }
  }

  /** `Present` one field at a time. */
  lemma PresentStep<V>(fs: seq<Field<V>>, k: nat)
    requires k < |fs|
    ensures Present(fs[k..]) ==
      (if fs[k].value.Some? then [Pair(fs[k].key, fs[k].value.value)] else []) + Present(fs[k + 1..])
  {
    assert fs[k..][1..] == fs[k + 1..];
  }

}
