/**
 * The pagination cursor of the asynchronous client (src/async/page.rs).
 * Its slots hold whole requests rather than URLs. Authentication and the
 * transport are passed in as `auth` and `fetch`.
 */
module AsyncPages {
  import opened Wrappers
  import opened Errors
  import opened Http
  import opened LinkHeaders
  import opened Decoding

  datatype Direction = ToNext | ToPrev

  /** The two slots of a page. */
  datatype Cursor = Cursor(next: Option<Request>, prev: Option<Request>)

  function Slot(c: Cursor, d: Direction): Option<Request>
  {
    if d == ToNext then c.next else c.prev
  }

  /** The cursor with the slot for `d` taken out. */
  function Take(c: Cursor, d: Direction): (t: Cursor)
    ensures Slot(t, d) == None
    ensures d == ToNext ==> t.prev == c.prev
    ensures d == ToPrev ==> t.next == c.next
  {
    if d == ToNext then c.(next := None) else c.(prev := None)
  }

  /** `Authenticate::authenticate`: may change the request, or fail. */
  type Authenticator = Request -> Result<Request, Error>

  /** `client::fetch`: the transport. */
  type Fetcher<T> = Request -> Result<AsyncResponse<T>, Error>

  /** A GET of each URL present, for both directions. */
  function FillLinks(l: Links): (c: Cursor)
    ensures UrlsOf(c) == l
    ensures c.next.Some? ==> c.next.value.verb == Get
    ensures c.prev.Some? ==> c.prev.value.verb == Get
  {
    Cursor(
      if l.next.Some? then Some(Request(Get, l.next.value)) else None,
      if l.prev.Some? then Some(Request(Get, l.prev.value)) else None)
  }

  /** The URLs a cursor's requests are for. */
  function UrlsOf(c: Cursor): Links
  {
    Links(
      if c.prev.Some? then Some(c.prev.value.url) else None,
      if c.next.Some? then Some(c.next.value.url) else None)
  }

  /** The new cursor, what the call returns, and the request handed to the transport, if any. */
  datatype Turn<T> = Turn(cursor: Cursor, result: Result<Option<seq<T>>, Error>, sent: Option<Request>)

  /** `send`, from the cursor `c` whose slot has already been taken. */
  function SendOutcome<T>(c: Cursor, req: Request, auth: Authenticator, fetch: Fetcher<Option<seq<T>>>, parse: UrlParser): Turn<T>
  {
    match auth(req)
    case Failure(e) => Turn(c, Failure(e), None)
    case Success(authed) =>
      match fetch(authed)
      case Failure(e) => Turn(c, Failure(e), Some(authed))
      case Success(resp) =>
        match AsyncLinksOf(resp.link, parse)
        case Failure(e) => Turn(c, Failure(e), Some(authed))
        case Success(l) => Turn(FillLinks(l), AsyncDeserialize(resp), Some(authed))
  }

  /** `next_page` and `prev_page`. */
  function PageTurn<T>(c: Cursor, d: Direction, auth: Authenticator, fetch: Fetcher<Option<seq<T>>>, parse: UrlParser): (t: Turn<T>)
    ensures Slot(c, d).None? ==> t == Turn(c, Success(None), None)
    ensures Slot(c, d).Some? && t.sent.Some? ==> auth(Slot(c, d).value) == Success(t.sent.value)
  {
    match Slot(c, d)
    case None => Turn(c, Success(None), None)
    case Some(req) => SendOutcome(Take(c, d), req, auth, fetch, parse)
  }

  /** A new page: the first request waits in `next`, and `prev` is empty. */
  function Fresh(first: Request): Cursor
  {
    Cursor(Some(first), None)
  }

  /** Going back from a new page returns `Ok(None)` and sends nothing. */
  lemma FreshHasNoPrev<T>(first: Request, auth: Authenticator, fetch: Fetcher<Option<seq<T>>>, parse: UrlParser)
    ensures PageTurn(Fresh(first), ToPrev, auth, fetch, parse) == Turn(Fresh(first), Success(None), None)
  {
  }

  /**
   * The slot is taken before anything is sent: a turn that fails before the
   * links are read leaves its own slot empty and the other as it was.
   */
  lemma FailedTurnTakesSlot<T>(c: Cursor, d: Direction, auth: Authenticator, fetch: Fetcher<Option<seq<T>>>, parse: UrlParser)
    requires Slot(c, d).Some?
    requires var a := auth(Slot(c, d).value);
      a.Failure? || fetch(a.value).Failure? || AsyncLinksOf(fetch(a.value).value.link, parse).Failure?
    ensures PageTurn(c, d, auth, fetch, parse).cursor == Take(c, d)
    ensures PageTurn(c, d, auth, fetch, parse).result.Failure?
  {
  }

  /**
   * The links are stored before the body is decoded: when they are read,
   * the cursor has moved on whether or not decoding then succeeds.
   */
  lemma LinksStoredBeforeDecoding<T>(c: Cursor, d: Direction, auth: Authenticator, fetch: Fetcher<Option<seq<T>>>, parse: UrlParser)
    requires Slot(c, d).Some?
    requires auth(Slot(c, d).value).Success?
    requires var f := fetch(auth(Slot(c, d).value).value);
      f.Success? && AsyncLinksOf(f.value.link, parse).Success?
    ensures var resp := fetch(auth(Slot(c, d).value).value).value;
      UrlsOf(PageTurn(c, d, auth, fetch, parse).cursor) == AsyncLinksOf(resp.link, parse).value &&
      PageTurn(c, d, auth, fetch, parse).result == AsyncDeserialize(resp)
  {
  }

  /** An exhausted cursor stays exhausted in either direction. */
  lemma ExhaustedIsTerminal<T>(d: Direction, auth: Authenticator, fetch: Fetcher<Option<seq<T>>>, parse: UrlParser)
    ensures PageTurn(Cursor(None, None), d, auth, fetch, parse) == Turn(Cursor(None, None), Success(None), None)
  {
  }

  class Page<T> {
    var next: Option<Request>
    var prev: Option<Request>
    /** The requests this page has handed to the transport, in order. */
    ghost var sent: seq<Request>

    function Position(): Cursor
      reads this
    {
      Cursor(next, prev)
    }

    /** `Page::new`: nothing is sent yet. */
    constructor (first: Request)
      ensures Position() == Fresh(first) && sent == []
    {
      next := Some(first);
      prev := None;
      sent := [];
    }

    /** `next_page`. */
    method NextPage(auth: Authenticator, fetch: Fetcher<Option<seq<T>>>, parse: UrlParser) returns (r: Result<Option<seq<T>>, Error>)
      modifies this
      ensures var t := PageTurn(old(Position()), ToNext, auth, fetch, parse);
        Position() == t.cursor && r == t.result &&
        sent == old(sent) + (if t.sent.Some? then [t.sent.value] else [])
    {
      if next.None? {
        return Success(None);
      }
      var req := next.value;
      next := None;
      r := Send(req, auth, fetch, parse);
    }

    /** `prev_page`. */
    method PrevPage(auth: Authenticator, fetch: Fetcher<Option<seq<T>>>, parse: UrlParser) returns (r: Result<Option<seq<T>>, Error>)
      modifies this
      ensures var t := PageTurn(old(Position()), ToPrev, auth, fetch, parse);
        Position() == t.cursor && r == t.result &&
        sent == old(sent) + (if t.sent.Some? then [t.sent.value] else [])
    {
      if prev.None? {
        return Success(None);
      }
      var req := prev.value;
      prev := None;
      r := Send(req, auth, fetch, parse);
    }

    /** `send`: authenticate, fetch, store the links, then decode. */
    method Send(req: Request, auth: Authenticator, fetch: Fetcher<Option<seq<T>>>, parse: UrlParser) returns (r: Result<Option<seq<T>>, Error>)
      modifies this
      ensures var t := SendOutcome(old(Position()), req, auth, fetch, parse);
        Position() == t.cursor && r == t.result &&
        sent == old(sent) + (if t.sent.Some? then [t.sent.value] else [])
    {
      var authed := auth(req);
      if authed.Failure? {
        return Failure(authed.error);
      }
      sent := sent + [authed.value];
      var response := fetch(authed.value);
      if response.Failure? {
        return Failure(response.error);
      }
      var filled := FillLinksFromResp(response.value, parse);
      if filled.Failure? {
        return Failure(filled.error);
      }
      r := AsyncDeserialize(response.value);
    }

    /** `fill_links_from_resp`: on success both slots are replaced; on failure neither changes. */
    method FillLinksFromResp<U>(resp: AsyncResponse<U>, parse: UrlParser) returns (r: Result<(), Error>)
      modifies this
      ensures var l := AsyncLinksOf(resp.link, parse);
        (l.Success? ==> r == Success(()) && Position() == FillLinks(l.value)) &&
        (l.Failure? ==> r == Failure(l.error) && Position() == old(Position()))
      ensures sent == old(sent)
    {
      var links := AsyncGetLinks(resp.link, parse);
      if links.Failure? {
        return Failure(links.error);
      }
      prev := if links.value.prev.Some? then Some(Request(Get, links.value.prev.value)) else None;
      next := if links.value.next.Some? then Some(Request(Get, links.value.next.value)) else None;
      r := Success(());
    }
  }
}
