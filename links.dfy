/**
 * `get_links` (src/page.rs and src/async/page.rs): the `prev` and `next`
 * URLs of a response, read from its `Link` header (RFC 8288, section 3).
 * URL parsing belongs to the `url` crate and is passed in as `parse`.
 */
module LinkHeaders {
  import opened Wrappers
  import opened Errors
  import opened Http

  type UrlParser = string -> Result<Url, ForeignError>

  /** The pair `get_links` returns. */
  datatype Links = Links(prev: Option<Url>, next: Option<Url>)

  const NoLinks := Links(None, None)

  predicate Carries(v: LinkValue, r: Rel)
  {
    v.rel.Some? && r in v.rel.value
  }

  /** A link-value that sets a slot. */
  predicate Recognised(v: LinkValue)
  {
    Carries(v, Next) || Carries(v, Prev)
  }

  /** A link-value that sets a slot but whose URL does not parse. */
  predicate Bad(v: LinkValue, parse: UrlParser)
  {
    Recognised(v) && parse(v.link).Failure?
  }

  /** One turn of the loop: `next` is looked at before `prev`. */
  function Step(acc: Links, v: LinkValue, parse: UrlParser): Result<Links, Error>
  {
    if v.rel.None? then Success(acc)
    else
      var afterNext :=
        if Next in v.rel.value then
          match parse(v.link)
          case Failure(e) => Failure(Error.Url(e))
          case Success(u) => Success(acc.(next := Some(u)))
        else Success(acc);
      match afterNext
      case Failure(e) => Failure(e)
      case Success(a) =>
        if Prev in v.rel.value then
          match parse(v.link)
          case Failure(e) => Failure(Error.Url(e))
          case Success(u) => Success(a.(prev := Some(u)))
        else Success(a)
  }

  /** The loop over the link-values, from `acc`, stopping at the first error. */
  function ScanFrom(acc: Links, vs: seq<LinkValue>, parse: UrlParser): Result<Links, Error>
    decreases |vs|
  {
    if |vs| == 0 then Success(acc)
    else
      match Step(acc, vs[0], parse)
      case Failure(e) => Failure(e)
      case Success(a) => ScanFrom(a, vs[1..], parse)
  }

  /** The links of a tokenised header. */
  function FieldLinks(f: LinkField, parse: UrlParser): Result<Links, Error>
  {
    match f
    case Unparsable(e) => Failure(HeaderParseError(e))
    case Tokens(vs) => ScanFrom(NoLinks, vs, parse)
  }

  /** The links of a blocking response's header. */
  function LinksOf(h: LinkHeader, parse: UrlParser): (r: Result<Links, Error>)
    ensures h.Absent? ==> r == Success(NoLinks)
    ensures h.NotText? ==> r == Failure(HeaderStrError(h.textError))
    ensures h.Text? && h.field.Unparsable? ==> r == Failure(HeaderParseError(h.field.parseError))
  {
    match h
    case Absent => Success(NoLinks)
    case NotText(e) => Failure(HeaderStrError(e))
    case Text(f) => FieldLinks(f, parse)
  }

  /** The links of an asynchronous response's header. */
  function AsyncLinksOf(h: Option<LinkField>, parse: UrlParser): (r: Result<Links, Error>)
    ensures h.None? ==> r == Success(NoLinks)
    ensures h.Some? && h.value.Unparsable? ==> r == Failure(HeaderParseError(h.value.parseError))
  {
    match h
    case None => Success(NoLinks)
    case Some(f) => FieldLinks(f, parse)
  }

  /** Both clients read a header that is text in the same way. */
  lemma AsyncAgreesWithBlocking(h: Option<LinkField>, parse: UrlParser)
    ensures AsyncLinksOf(h, parse) == LinksOf(if h.None? then Absent else Text(h.value), parse)
  {
  }

  /** The loop of `get_links`, shared by both clients. */
  method ScanValues(vs: seq<LinkValue>, parse: UrlParser) returns (r: Result<Links, Error>)
    ensures r == ScanFrom(NoLinks, vs, parse)
  {
    var prev: Option<Url> := None;
    var next: Option<Url> := None;
    var i := 0;
    while i < |vs|
      invariant 0 <= i <= |vs|
      invariant ScanFrom(Links(prev, next), vs[i..], parse) == ScanFrom(NoLinks, vs, parse)
    {
      var value := vs[i];
      assert vs[i..][1..] == vs[i + 1..];
      if value.rel.Some? {
        var relations := value.rel.value;
        if Next in relations {
          var u := parse(value.link);
          if u.Failure? {
            return Failure(Error.Url(u.error));
          }
          next := Some(u.value);
        }
        if Prev in relations {
          var u := parse(value.link);
          if u.Failure? {
            return Failure(Error.Url(u.error));
          }
          prev := Some(u.value);
        }
      }
      i := i + 1;
    }
    return Success(Links(prev, next));
  }

  /** `get_links` of the blocking client. */
  method GetLinks(h: LinkHeader, parse: UrlParser) returns (r: Result<Links, Error>)
    ensures r == LinksOf(h, parse)
  {
    match h {
      case Absent =>
        r := Success(NoLinks);
      case NotText(e) =>
        r := Failure(HeaderStrError(e));
      case Text(Unparsable(e)) =>
        r := Failure(HeaderParseError(e));
      case Text(Tokens(vs)) =>
        r := ScanValues(vs, parse);
    }
  }

  /** `get_links` of the asynchronous client, whose header is always text. */
  method AsyncGetLinks(h: Option<LinkField>, parse: UrlParser) returns (r: Result<Links, Error>)
    ensures r == AsyncLinksOf(h, parse)
  {
    match h {
      case None =>
        r := Success(NoLinks);
      case Some(Unparsable(e)) =>
        r := Failure(HeaderParseError(e));
      case Some(Tokens(vs)) =>
        r := ScanValues(vs, parse);
    }
  }

  /** The index of the last link-value carrying `r`, or -1. */
  function LastWith(vs: seq<LinkValue>, r: Rel): (k: int)
    ensures -1 <= k < |vs|
    ensures k >= 0 ==> Carries(vs[k], r)
    ensures forall j :: k < j < |vs| ==> !Carries(vs[j], r)
    decreases |vs|
  {
    if |vs| == 0 then -1
    else
      var k := LastWith(vs[1..], r);
      assert forall j :: k + 1 < j < |vs| ==> vs[j] == vs[1..][j - 1];
      if k >= 0 then k + 1
      else if Carries(vs[0], r) then 0
      else -1
  }

  /** The index of the first link-value that sets a slot with a URL that does not parse, or -1. */
  function FirstBad(vs: seq<LinkValue>, parse: UrlParser): (k: int)
    ensures -1 <= k < |vs|
    ensures k >= 0 ==> Bad(vs[k], parse)
    ensures forall j :: 0 <= j < |vs| && (k < 0 || j < k) ==> !Bad(vs[j], parse)
    decreases |vs|
  {
    if |vs| == 0 then -1
    else if Bad(vs[0], parse) then 0
    else
      var k := FirstBad(vs[1..], parse);
      assert forall j :: 0 < j < |vs| ==> vs[j] == vs[1..][j - 1];
      if k >= 0 then k + 1 else -1
  }

  /**
   * What the loop yields, said without the loop: it fails exactly when some
   * value that sets a slot has a URL that does not parse, with the error of
   * the first such value; otherwise each slot holds the URL of the last
   * value carrying its relation, and keeps its starting value when none does.
   */
  lemma {:induction false} ScanOutcome(acc: Links, vs: seq<LinkValue>, parse: UrlParser)
    ensures ScanFrom(acc, vs, parse).Failure? <==> FirstBad(vs, parse) >= 0
    ensures FirstBad(vs, parse) >= 0 ==>
      ScanFrom(acc, vs, parse).error == Error.Url(parse(vs[FirstBad(vs, parse)].link).error)
    ensures FirstBad(vs, parse) < 0 && LastWith(vs, Next) >= 0 ==>
      ScanFrom(acc, vs, parse).value.next == Some(parse(vs[LastWith(vs, Next)].link).value)
    ensures FirstBad(vs, parse) < 0 && LastWith(vs, Next) < 0 ==>
      ScanFrom(acc, vs, parse).value.next == acc.next
    ensures FirstBad(vs, parse) < 0 && LastWith(vs, Prev) >= 0 ==>
      ScanFrom(acc, vs, parse).value.prev == Some(parse(vs[LastWith(vs, Prev)].link).value)
    ensures FirstBad(vs, parse) < 0 && LastWith(vs, Prev) < 0 ==>
      ScanFrom(acc, vs, parse).value.prev == acc.prev
    decreases |vs|
  {
    if |vs| > 0 {
      var v := vs[0];
      var tail := vs[1..];
      if Bad(v, parse) {
        assert FirstBad(vs, parse) == 0;
      } else {
        var a := Step(acc, v, parse).value;
        ScanOutcome(a, tail, parse);
        var kb := FirstBad(tail, parse);
        assert FirstBad(vs, parse) == (if kb >= 0 then kb + 1 else -1);
        if kb >= 0 {
          assert vs[kb + 1] == tail[kb];
        }
        var kn := LastWith(tail, Next);
        var kp := LastWith(tail, Prev);
        if kn >= 0 {
          assert vs[kn + 1] == tail[kn];
        }
        if kp >= 0 {
          assert vs[kp + 1] == tail[kp];
        }
      }
    }
  }

  /** Link-values that set no slot can be added anywhere without changing the outcome. */
  lemma {:induction false} UnrecognisedIgnored(acc: Links, a: seq<LinkValue>, v: LinkValue, b: seq<LinkValue>, parse: UrlParser)
    requires !Recognised(v)
    ensures ScanFrom(acc, a + [v] + b, parse) == ScanFrom(acc, a + b, parse)
    decreases |a|
  {
    if |a| == 0 {
      assert ([v] + b)[1..] == b;
      assert a + [v] + b == [v] + b;
      assert a + b == b;
    } else {
      assert (a + [v] + b)[0] == a[0];
      assert (a + [v] + b)[1..] == a[1..] + [v] + b;
      assert (a + b)[0] == a[0];
      assert (a + b)[1..] == a[1..] + b;
      match Step(acc, a[0], parse)
      case Failure(_) =>
      case Success(s) =>
        UnrecognisedIgnored(s, a[1..], v, b, parse);
    }
  }

  /**
   * A last value carrying both relations, with a URL that parses, sets both
   * slots to that URL.
   */
  lemma BothRelations(vs: seq<LinkValue>, link: string, rels: seq<Rel>, parse: UrlParser)
    requires Next in rels && Prev in rels
    requires parse(link).Success?
    requires ScanFrom(NoLinks, vs, parse).Success?
    ensures ScanFrom(NoLinks, vs + [LinkValue(link, Some(rels))], parse)
         == Success(Links(Some(parse(link).value), Some(parse(link).value)))
  {
    var ws := vs + [LinkValue(link, Some(rels))];
    ScanOutcome(NoLinks, vs, parse);
    ScanOutcome(NoLinks, ws, parse);
    assert FirstBad(ws, parse) < 0 by {
      forall j | 0 <= j < |ws|
        ensures !Bad(ws[j], parse)
      {
        if j < |vs| {
          assert ws[j] == vs[j];
        }
      }
    }
    assert Carries(ws[|ws| - 1], Next) && Carries(ws[|ws| - 1], Prev);
  }
}
