/**
 * The pagination cursor of the blocking client (src/page.rs): a page holds
 * the URLs of the next and previous pages, taken from the `Link` header of
 * the last response, and fetches them on demand. `Page` borrows the client
 * and `OwnedPage` holds its own copy; both have the same cursor.
 */
module Pages {
  import opened Wrappers
  import opened Errors
  import opened Http
  import opened LinkHeaders
  import opened Decoding

  datatype Direction = ToNext | ToPrev

  /** The two slots of a page. */
  datatype Cursor = Cursor(next: Option<Url>, prev: Option<Url>)

  function Slot(c: Cursor, d: Direction): Option<Url>
  {
    if d == ToNext then c.next else c.prev
  }

  /** The cursor with the slot for `d` taken out. */
  function Take(c: Cursor, d: Direction): (t: Cursor)
    ensures Slot(t, d) == None
    ensures d == ToNext ==> t.prev == c.prev
    ensures d == ToPrev ==> t.next == c.next
  {
    if d == ToNext then c.(next := None) else c.(prev := None)
  }

  /** The cursor a response's links give. */
  function Linked(l: Links): Cursor
  {
    Cursor(l.next, l.prev)
  }

  /** Sends a GET of a URL with the client's token; the transport is not modelled. */
  type Sender<T> = Url -> Result<Response<T>, Error>

  /** A turn of the cursor: the new cursor, what the call returns and the URL it fetched, if any. */
  datatype Turn<T> = Turn(cursor: Cursor, result: Result<Option<seq<T>>, Error>, sent: Option<Url>)

  /** `next_page` and `prev_page`. */
  function PageTurn<T>(c: Cursor, d: Direction, send: Sender<Option<seq<T>>>, parse: UrlParser): (t: Turn<T>)
    ensures t.sent == Slot(c, d)
    ensures Slot(c, d).None? ==> t == Turn(c, Success(None), None)
  {
    match Slot(c, d)
    case None => Turn(c, Success(None), None)
    case Some(url) =>
      match send(url)
      case Failure(e) => Turn(Take(c, d), Failure(e), Some(url))
      case Success(resp) =>
        match LinksOf(resp.link, parse)
        case Failure(e) => Turn(Take(c, d), Failure(e), Some(url))
        case Success(l) => Turn(Linked(l), Deserialise(resp), Some(url))
  }

  /**
   * A turn that fails before the response's links are read leaves its own
   * slot empty and the other slot as it was.
   */
  lemma FailedTurnTakesSlot<T>(c: Cursor, d: Direction, send: Sender<Option<seq<T>>>, parse: UrlParser)
    requires Slot(c, d).Some?
    requires send(Slot(c, d).value).Failure? || LinksOf(send(Slot(c, d).value).value.link, parse).Failure?
    ensures PageTurn(c, d, send, parse).cursor == Take(c, d)
    ensures PageTurn(c, d, send, parse).result.Failure?
  {
  }

  /**
   * Once a response's links are read, both slots come from them, so the
   * slot of the other direction is overwritten too and the old cursor no
   * longer matters; the call then returns the decoded body, success or not.
   */
  lemma LinkedTurnOverwrites<T>(c1: Cursor, c2: Cursor, d: Direction, send: Sender<Option<seq<T>>>, parse: UrlParser)
    requires Slot(c1, d).Some? && Slot(c1, d) == Slot(c2, d)
    requires send(Slot(c1, d).value).Success?
    requires LinksOf(send(Slot(c1, d).value).value.link, parse).Success?
    ensures PageTurn(c1, d, send, parse) == PageTurn(c2, d, send, parse)
    ensures PageTurn(c1, d, send, parse).cursor == Linked(LinksOf(send(Slot(c1, d).value).value.link, parse).value)
    ensures PageTurn(c1, d, send, parse).result == Deserialise(send(Slot(c1, d).value).value)
  {
  }

  /** A response without a `Link` header ends the pagination in both directions. */
  lemma NoHeaderEnds<T>(c: Cursor, d: Direction, send: Sender<Option<seq<T>>>, parse: UrlParser)
    requires Slot(c, d).Some?
    requires send(Slot(c, d).value).Success? && send(Slot(c, d).value).value.link.Absent?
    ensures PageTurn(c, d, send, parse).cursor == Cursor(None, None)
  {
  }

  /** Turns applied one after another; the results and the URLs fetched, in order. */
  function Run<T>(c: Cursor, ds: seq<Direction>, send: Sender<Option<seq<T>>>, parse: UrlParser): (Cursor, seq<Result<Option<seq<T>>, Error>>, seq<Url>)
    decreases |ds|
  {
    if |ds| == 0 then (c, [], [])
    else
      var t := PageTurn(c, ds[0], send, parse);
      var rest := Run(t.cursor, ds[1..], send, parse);
      (rest.0, [t.result] + rest.1, (if t.sent.Some? then [t.sent.value] else []) + rest.2)
  }

  /** An exhausted cursor stays exhausted: every later turn returns `Ok(None)` and fetches nothing. */
  lemma {:induction false} ExhaustedIsTerminal<T>(ds: seq<Direction>, send: Sender<Option<seq<T>>>, parse: UrlParser)
    ensures Run(Cursor(None, None), ds, send, parse).0 == Cursor(None, None)
    ensures Run(Cursor(None, None), ds, send, parse).2 == []
    ensures forall i :: 0 <= i < |Run(Cursor(None, None), ds, send, parse).1| ==>
      Run(Cursor(None, None), ds, send, parse).1[i] == Success(None)
    ensures |Run(Cursor(None, None), ds, send, parse).1| == |ds|
    decreases |ds|
  {
    if |ds| > 0 {
      ExhaustedIsTerminal(ds[1..], send, parse);
      var rest := Run(Cursor(None, None), ds[1..], send, parse);
      var t := PageTurn(Cursor(None, None), ds[0], send, parse);
      assert t == Turn(Cursor(None, None), Success(None), None);
      assert [] + rest.2 == rest.2;
      assert Run(Cursor(None, None), ds, send, parse) == (rest.0, [Success(None)] + rest.1, rest.2);
    }
  }

  /** `Page::new`: the links are read before the body is decoded. */
  function NewPage<T>(resp: Response<seq<T>>, parse: UrlParser): (r: Result<(Cursor, seq<T>), Error>)
    ensures LinksOf(resp.link, parse).Failure? ==> r == Failure(LinksOf(resp.link, parse).error)
    ensures r.Success? <==> LinksOf(resp.link, parse).Success? && Deserialise(resp).Success?
    ensures r.Success? ==>
      r.value == (Linked(LinksOf(resp.link, parse).value), Deserialise(resp).value)
  {
    match LinksOf(resp.link, parse)
    case Failure(e) => Failure(e)
    case Success(l) =>
      match Deserialise(resp)
      case Failure(e) => Failure(e)
      case Success(items) => Success((Linked(l), items))
  }

  /** A page of results and its cursor. `owned` tells an `OwnedPage` from a `Page` that borrows the client. */
  class Page<T> {
    var next: Option<Url>
    var prev: Option<Url>
    var initialItems: seq<T>
    const owned: bool
    /** The URLs this page has fetched, in order. */
    ghost var fetched: seq<Url>

    function Position(): Cursor
      reads this
    {
      Cursor(next, prev)
    }

    constructor Make(c: Cursor, items: seq<T>, owned: bool)
      ensures Position() == c && initialItems == items && this.owned == owned && fetched == []
    {
      next := c.next;
      prev := c.prev;
      initialItems := items;
      this.owned := owned;
      fetched := [];
    }

    /** `Page::new`. */
    static method New(resp: Response<seq<T>>, parse: UrlParser) returns (r: Result<Page<T>, Error>)
      ensures NewPage(resp, parse).Failure? ==> r == Failure(NewPage(resp, parse).error)
      ensures NewPage(resp, parse).Success? ==>
        r.Success? && fresh(r.value) && !r.value.owned && r.value.fetched == [] &&
        (r.value.Position(), r.value.initialItems) == NewPage(resp, parse).value
    {
      var links := GetLinks(resp.link, parse);
      if links.Failure? {
        return Failure(links.error);
      }
      var items := Deserialise(resp);
      if items.Failure? {
        return Failure(items.error);
      }
      var page := new Page.Make(Linked(links.value), items.value, false);
      return Success(page);
    }

    /** `OwnedPage::from`, through `into_owned`: the cursor and the items are copied as they are. */
    method IntoOwned() returns (o: Page<T>)
      requires !owned
      ensures fresh(o) && o.owned
      ensures o.Position() == Position() && o.initialItems == initialItems
    {
      o := new Page.Make(Position(), initialItems, true);
    }

    /** The body of `next_page` and `prev_page`. */
    method Advance(d: Direction, send: Sender<Option<seq<T>>>, parse: UrlParser) returns (r: Result<Option<seq<T>>, Error>)
      modifies this
      ensures var t := PageTurn(old(Position()), d, send, parse);
        Position() == t.cursor && r == t.result &&
        fetched == old(fetched) + (if t.sent.Some? then [t.sent.value] else [])
      ensures initialItems == old(initialItems)
    {
      var url: Url;
      if d == ToNext {
        if next.None? {
          return Success(None);
        }
        url := next.value;
        next := None;
      } else {
        if prev.None? {
          return Success(None);
        }
        url := prev.value;
        prev := None;
      }
      fetched := fetched + [url];
      var response := send(url);
      if response.Failure? {
        return Failure(response.error);
      }
      var links := GetLinks(response.value.link, parse);
      if links.Failure? {
        return Failure(links.error);
      }
      next := links.value.next;
      prev := links.value.prev;
      r := Deserialise(response.value);
    }

    /** `next_page`. */
    method NextPage(send: Sender<Option<seq<T>>>, parse: UrlParser) returns (r: Result<Option<seq<T>>, Error>)
      modifies this
      ensures var t := PageTurn(old(Position()), ToNext, send, parse);
        Position() == t.cursor && r == t.result &&
        fetched == old(fetched) + (if t.sent.Some? then [t.sent.value] else [])
      ensures initialItems == old(initialItems)
    {
      r := Advance(ToNext, send, parse);
    }

    /** `prev_page`. */
    method PrevPage(send: Sender<Option<seq<T>>>, parse: UrlParser) returns (r: Result<Option<seq<T>>, Error>)
      modifies this
      ensures var t := PageTurn(old(Position()), ToPrev, send, parse);
        Position() == t.cursor && r == t.result &&
        fetched == old(fetched) + (if t.sent.Some? then [t.sent.value] else [])
      ensures initialItems == old(initialItems)
    {
      r := Advance(ToPrev, send, parse);
    }
  }
}
