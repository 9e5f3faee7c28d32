/**
 * The `key=value&key=value` form that serde_qs produces for the request
 * builders, and a decoder for it. A request type lists its fields in
 * declaration order as `Field`s; a field whose value is `None` is skipped.
 */
module QueryString {
  import opened Wrappers
  import opened Strings
  import opened Records

  /** `key=value`. */
  function Render(p: Pair<string>): string
  {
    p.key + "=" + p.value
  }

  /** The pairs written `key=value`, joined with `&`. */
  function Encode(ps: seq<Pair<string>>): string
  {
    Join(seq(|ps|, i requires 0 <= i < |ps| => Render(ps[i])), '&')
  }

  /** Splits one `key=value` at its first `=`; with no `=` the whole text is the key. */
  function ParsePair(f: string): Pair<string>
    decreases |f|
  {
    if |f| == 0 then Pair("", "")
    else if f[0] == '=' then Pair("", f[1..])
    else
      var p := ParsePair(f[1..]);
      Pair([f[0]] + p.key, p.value)
  }

  /** The pairs of a query string; the empty string has none. */
  function Decode(s: string): seq<Pair<string>>
  {
    if s == "" then []
    else
      var parts := Split(s, '&');
      seq(|parts|, i requires 0 <= i < |parts| => ParsePair(parts[i]))
  }

  /** A pair the encoding keeps apart from its neighbours. */
  predicate Separable(p: Pair<string>)
  {
    '&' !in p.key && '=' !in p.key && '&' !in p.value
  }

  lemma {:induction false} ParseRender(p: Pair<string>)
    requires '=' !in p.key
    ensures ParsePair(Render(p)) == p
    decreases |p.key|
  {
    if |p.key| == 0 {
      assert Render(p) == "=" + p.value;
      assert Render(p)[1..] == p.value;
    } else {
      var f := Render(p);
      assert f[0] == p.key[0];
      assert f[1..] == Render(Pair(p.key[1..], p.value));
      ParseRender(Pair(p.key[1..], p.value));
      assert [p.key[0]] + p.key[1..] == p.key;
    }
  }

  /** Decoding undoes encoding. */
  lemma DecodeEncode(ps: seq<Pair<string>>)
    requires forall i :: 0 <= i < |ps| ==> Separable(ps[i])
    ensures Decode(Encode(ps)) == ps
  {
    var parts := seq(|ps|, i requires 0 <= i < |ps| => Render(ps[i]));
    if |ps| > 0 {
      forall i | 0 <= i < |parts|
        ensures '&' !in parts[i]
      {
        assert parts[i] == ps[i].key + "=" + ps[i].value;
      }
      SplitJoin(parts, '&');
      if |ps| == 1 {
        assert Encode(ps) == Render(ps[0]);
      } else {
        assert Encode(ps) == parts[0] + ['&'] + Join(parts[1..], '&');
      }
      assert Encode(ps) != "" by {
        assert |Render(ps[0])| > 0;
      }
      forall i | 0 <= i < |ps|
        ensures ParsePair(parts[i]) == ps[i]
      {
        ParseRender(ps[i]);
      }
    }
  }

  /** A value serde_qs writes unchanged: letters, digits and `-._`. */
  predicate Unreserved(s: string)
  {
    forall i :: 0 <= i < |s| ==>
      ('a' <= s[i] <= 'z') || ('A' <= s[i] <= 'Z') || ('0' <= s[i] <= '9') ||
      s[i] == '-' || s[i] == '.' || s[i] == '_'
  }

  lemma UnreservedHasNoDelimiter(s: string)
    requires Unreserved(s)
    ensures '&' !in s && '=' !in s && '?' !in s
  {
    forall i | 0 <= i < |s|
      ensures s[i] != '&' && s[i] != '=' && s[i] != '?'
    {
    }
  }

  /** Decimal text is unreserved. */
  lemma NatToStringUnreserved(n: nat)
    ensures Unreserved(NatToString(n))
  {
  }

  /**
   * A `bool` field written through `bool_qs_serialize`: skipped when false,
   * written as `1` when true.
   */
  function Flag(key: string, b: bool): (f: Field<string>)
    ensures f.key == key
    ensures f.value.Some? <==> b
    ensures b ==> f.value == Some("1")
  {
    Field(key, if b then Some("1") else None)
  }

  /** An optional text field, skipped when `None`. */
  function Text(key: string, v: Option<string>): Field<string>
  {
    Field(key, v)
  }

  /** An optional number field, skipped when `None`, written in decimal. */
  function Number(key: string, v: Option<nat>): (f: Field<string>)
    ensures f.key == key
    ensures f.value.Some? <==> v.Some?
  {
    Field(key, if v.Some? then Some(NatToString(v.value)) else None)
  }

  /** Reads back a flag: present means set. */
  function FlagValue(v: Option<string>): bool
  {
    v == Some("1")
  }

  /** Reads back a number. */
  function NumberValue(v: Option<string>): Option<nat>
  {
    if v.None? then None else ParseNat(v.value)
  }

  lemma FlagRoundTrip(key: string, b: bool)
    ensures FlagValue(Flag(key, b).value) == b
  {
  }

  lemma NumberRoundTrip(key: string, v: Option<nat>)
    ensures NumberValue(Number(key, v).value) == v
  {
    if v.Some? {
      ParseNatToString(v.value);
    }
  }

  /** Every value written is unreserved text, so the encoding keeps the pairs apart. */
  predicate Writable(fs: seq<Field<string>>)
  {
    forall i :: 0 <= i < |fs| ==>
      Unreserved(fs[i].key) && (fs[i].value.Some? ==> Unreserved(fs[i].value.value))
  }

  lemma {:induction false} WritableSeparable(fs: seq<Field<string>>)
    requires Writable(fs)
    ensures forall i :: 0 <= i < |Present(fs)| ==> Separable(Present(fs)[i])
    decreases |fs|
  {
    if |fs| > 0 {
      assert Writable(fs[1..]) by {
        forall i | 0 <= i < |fs[1..]|
          ensures Unreserved(fs[1..][i].key) && (fs[1..][i].value.Some? ==> Unreserved(fs[1..][i].value.value))
        {
          assert fs[1..][i] == fs[i + 1];
        }
      }
      WritableSeparable(fs[1..]);
      UnreservedHasNoDelimiter(fs[0].key);
      if fs[0].value.Some? {
        UnreservedHasNoDelimiter(fs[0].value.value);
        assert Present(fs)[1..] == Present(fs[1..]);
      }
    }
  }

  /** Decoding what was written gives back, for every declared key, the field's value. */
  lemma DecodeWritten(fs: seq<Field<string>>, i: nat)
    requires DistinctKeys(fs) && Writable(fs)
    requires i < |fs|
    ensures Lookup(Decode(Encode(Present(fs))), fs[i].key) == fs[i].value
  {
    WritableSeparable(fs);
    DecodeEncode(Present(fs));
    LookupPresent(fs, i);
  }

  /** `Encode` one pair at a time. */
  lemma EncodeCons(p: Pair<string>, ps: seq<Pair<string>>)
    ensures Encode([p] + ps) == Render(p) + (if |ps| == 0 then "" else "&" + Encode(ps))
  {
    var parts := seq(|[p] + ps|, i requires 0 <= i < |[p] + ps| => Render(([p] + ps)[i]));
    assert parts[1..] == seq(|ps|, i requires 0 <= i < |ps| => Render(ps[i]));
  }

  /** Marking the first key with `?` keeps every pair separable. */
  lemma MarkKeepsSeparable(p: Pair<string>, rest: seq<Pair<string>>)
    requires forall i :: 0 <= i < |[p] + rest| ==> Separable(([p] + rest)[i])
    ensures forall i :: 0 <= i < |[Pair("?" + p.key, p.value)] + rest| ==> Separable(([Pair("?" + p.key, p.value)] + rest)[i])
  {
    assert Separable(([p] + rest)[0]);
    forall i | 1 <= i < |[p] + rest|
      ensures ([Pair("?" + p.key, p.value)] + rest)[i] == ([p] + rest)[i]
    {
    }
  }

  /** `Encode` one pair at a time, from the end. */
  lemma {:induction false} EncodeSnoc(ps: seq<Pair<string>>, p: Pair<string>)
    requires |ps| > 0
    ensures Encode(ps + [p]) == Encode(ps) + "&" + Render(p)
    decreases |ps|
  {
    var q, tail := ps[0], ps[1..];
    assert ps + [p] == [q] + (tail + [p]);
    assert ps == [q] + tail;
    EncodeCons(q, tail + [p]);
    EncodeCons(q, tail);
    if |tail| == 0 {
      assert tail + [p] == [p] + [];
      EncodeCons(p, []);
    } else {
      EncodeSnoc(tail, p);
    }
  }

  /** The first pair written out behind `pre` is `pre` and its encoding. */
  lemma WriteFirst(pre: string, p: Pair<string>)
    ensures pre + p.key + "=" + p.value == pre + Encode([p])
  {
    assert [p] == [p] + [];
    EncodeCons(p, []);
  }

  /** One more pair written out after pairs already encoded behind `pre`. */
  lemma WriteNext(pre: string, ps: seq<Pair<string>>, p: Pair<string>)
    requires |ps| > 0
    ensures pre + Encode(ps) + "&" + p.key + "=" + p.value == pre + Encode(ps + [p])
  {
    EncodeSnoc(ps, p);
  }

  /** A `?` written in front of the encoded pairs becomes part of the first key. */
  lemma MarkJoinsFirstKey(p: Pair<string>, ps: seq<Pair<string>>)
    ensures "?" + Encode([p] + ps) == Encode([Pair("?" + p.key, p.value)] + ps)
  {
    EncodeCons(p, ps);
    EncodeCons(Pair("?" + p.key, p.value), ps);
    assert "?" + Render(p) == Render(Pair("?" + p.key, p.value));
  }

  /** Two pairs written out, for a caller that already knows the text they make. */
  lemma EncodeTwoAs(p: Pair<string>, q: Pair<string>, s: string)
    requires p.key + "=" + p.value + "&" + q.key + "=" + q.value == s
    ensures Encode([p, q]) == s
  {
    EncodeTwo(p, q);
  }

  lemma EncodeTwo(p: Pair<string>, q: Pair<string>)
    ensures Encode([p, q]) == p.key + "=" + p.value + "&" + q.key + "=" + q.value
  {
    EncodeCons(p, [q]);
    assert [p] + [q] == [p, q];
    EncodeCons(q, []);
    assert [q] + [] == [q];
  }
}
