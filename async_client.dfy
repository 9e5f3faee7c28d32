/**
 * The asynchronous client of src/async/mod.rs: the URLs it composes, the
 * pages it hands out, and the calls that send at once. URL resolution
 * (`Url::parse`, `Url::join`), authentication and the transport are
 * parameters.
 */
module AsyncClients {
  import opened Wrappers
  import opened Records
  import opened Strings
  import opened QueryString
  import opened Errors
  import opened Http
  import opened LinkHeaders
  import opened Decoding
  import opened AsyncPages
  import StatusesRequests
  import DirectoryRequests

  /** `Url::join`: resolves a relative reference against a base URL. */
  type Joiner = (Url, string) -> Result<Url, ForeignError>

  /** `Client<Unauthenticated>`: the parsed base URL. */
  datatype Client = Client(baseUrl: Url)

  /** `Client::new`: the base URL must parse. */
  function New(base: string, parse: UrlParser): (r: Result<Client, Error>)
    ensures parse(base).Success? ==> r == Success(Client.Client(parse(base).value))
    ensures parse(base).Failure? ==> r == Failure(Error.Url(parse(base).error))
  {
    match parse(base)
    case Success(u) => Success(Client.Client(u))
    case Failure(e) => Failure(From(FromUrl(e)))
  }

  /** A path joined onto the base URL; a join failure is a `Url` error. */
  function Endpoint(c: Client, path: string, join: Joiner): (r: Result<Url, Error>)
    ensures join(c.baseUrl, path).Failure? <==> r.Failure?
    ensures r.Failure? ==> r.error == Error.Url(join(c.baseUrl, path).error)
    ensures r.Success? ==> r.value == join(c.baseUrl, path).value
  {
    match join(c.baseUrl, path)
    case Success(u) => Success(u)
    case Failure(e) => Failure(From(FromUrl(e)))
  }

  /**
   * `Url::set_query(Some(q))`: the URL gets a `?` followed by `q`, whatever
   * `q` starts with.
   */
  function SetQuery(u: Url, q: string): (v: Url)
    ensures v.location == u.location && v.query == Some(q)
    ensures v.Href() == u.location + "?" + q
  {
    u.(query := Some(q))
  }

  /**
   * The query a timeline request sets, as written: the statuses request's
   * `to_querystring`, which already begins with `?`.
   */
  function TimelineQueryAsWritten(opts: StatusesRequests.StatusesRequest): string
  {
    StatusesRequests.ToQueryString(opts)
  }

  /**
   * The first request of a timeline, as written: a GET of the joined URL,
   * whose query, when options are given, is their `to_querystring` with its
   * own leading `?`.
   */
  function TimelineRequestAsWritten(c: Client, path: string, opts: Option<StatusesRequests.StatusesRequest>, join: Joiner): (r: Result<Request, Error>)
    ensures r.Failure? <==> join(c.baseUrl, path).Failure?
    ensures r.Failure? ==> r.error == Error.Url(join(c.baseUrl, path).error)
    ensures r.Success? ==> r.value.verb == Get && r.value.url.location == join(c.baseUrl, path).value.location
    ensures r.Success? && opts.None? ==> r.value.url == join(c.baseUrl, path).value
    ensures r.Success? && opts.Some? ==> r.value.url.query == Some("?" + StatusesRequests.Query(opts.value))
  {
    match Endpoint(c, path, join)
    case Failure(e) => Failure(e)
    case Success(u) =>
      Success(Request(Get, if opts.Some? then SetQuery(u, TimelineQueryAsWritten(opts.value)) else u))
  }

  /** As written, a timeline URL with options carries `??` in front of the query. */
  lemma TimelineDoubleMarkAsWritten(c: Client, path: string, opts: StatusesRequests.StatusesRequest, join: Joiner)
    requires join(c.baseUrl, path).Success?
    ensures var r := TimelineRequestAsWritten(c, path, Some(opts), join);
      r.Success? && r.value.url.Href() == join(c.baseUrl, path).value.location + "??" + StatusesRequests.Query(opts)
  {
    var loc := join(c.baseUrl, path).value.location;
    var q := StatusesRequests.Query(opts);
    assert StatusesRequests.ToQueryString(opts) == "?" + q;
    assert loc + "?" + ("?" + q) == loc + "??" + q;
  }

  /**
   * As written, whenever `pinned` is the first key the options write (neither
   * `only_media` nor `exclude_replies` is set), the `?` that `set_query` adds
   * joins it: the first key reads as `?pinned`, so the server sees no
   * `pinned` and the page is not restricted to pinned statuses.
   */
  lemma PinnedFirstLostAsWritten(opts: StatusesRequests.StatusesRequest)
    requires opts.pinned && !opts.onlyMedia && !opts.excludeReplies
    requires StatusesRequests.PlainIds(opts)
    ensures !StatusesRequests.FromQuery(TimelineQueryAsWritten(opts)).pinned
  {
    var fs := StatusesRequests.Fields(opts);
    var m := Pair("?pinned", "1");
    var rest := Present(fs[3..]);
    PinnedFirstDecodedAsWritten(opts);
    StatusesRequests.KeysDistinct();
    forall j | 0 <= j < |fs[3..]|
      ensures fs[3..][j].key != "pinned"
    {
      assert fs[3..][j].key == StatusesRequests.Keys[j + 3];
    }
    LookupUndeclared(fs[3..], "pinned");
    assert m.key != "pinned" by {
      assert |m.key| != |"pinned"|;
    }
    assert ([m] + rest)[1..] == rest;
  }

  /** The pairs a server reads from such options as written: `?pinned`, then the rest. */
  lemma PinnedFirstDecodedAsWritten(opts: StatusesRequests.StatusesRequest)
    requires opts.pinned && !opts.onlyMedia && !opts.excludeReplies
    requires StatusesRequests.PlainIds(opts)
    ensures Decode(TimelineQueryAsWritten(opts)) == [Pair("?pinned", "1")] + Present(StatusesRequests.Fields(opts)[3..])
  {
    var fs := StatusesRequests.Fields(opts);
    var p := Pair("pinned", "1");
    var rest := Present(fs[3..]);
    PinnedFirstPresent(opts);
    StatusesRequests.FieldsWritable(opts);
    WritableSeparable(fs);
    MarkKeepsSeparable(p, rest);
    MarkJoinsFirstKey(p, rest);
    var m := Pair("?" + p.key, p.value);
    assert m == Pair("?pinned", "1");
    DecodeEncode([m] + rest);
  }

  /** Such options write `pinned` first. */
  lemma PinnedFirstPresent(opts: StatusesRequests.StatusesRequest)
    requires opts.pinned && !opts.onlyMedia && !opts.excludeReplies
    ensures Present(StatusesRequests.Fields(opts)) == [Pair("pinned", "1")] + Present(StatusesRequests.Fields(opts)[3..])
  {
    var fs := StatusesRequests.Fields(opts);
    PresentStep(fs, 0);
    PresentStep(fs, 1);
    PresentStep(fs, 2);
    assert fs[0..] == fs;
  }

  /** As written, the documented options `limit(10).pinned()` lose `pinned` on the way to the server. */
  lemma PinnedLostAsWritten()
    ensures var opts := StatusesRequests.Pinned(StatusesRequests.Limit(StatusesRequests.New(), 10));
      opts.pinned && !StatusesRequests.FromQuery(TimelineQueryAsWritten(opts)).pinned
  {
    PinnedFirstLostAsWritten(StatusesRequests.Pinned(StatusesRequests.Limit(StatusesRequests.New(), 10)));
  }

  /** The corrected query of a timeline request: the statuses request's query, without the `?` that `set_query` adds. */
  function TimelineQuery(opts: StatusesRequests.StatusesRequest): (q: string)
    ensures "?" + q == StatusesRequests.ToQueryString(opts)
  {
    StatusesRequests.ToQueryString(opts)[1..]
  }

  /** The corrected first request of a timeline: a GET of the joined URL, with the options' query after a single `?`. */
  function TimelineRequest(c: Client, path: string, opts: Option<StatusesRequests.StatusesRequest>, join: Joiner): (r: Result<Request, Error>)
    ensures r.Failure? <==> join(c.baseUrl, path).Failure?
    ensures r.Success? ==> r.value.verb == Get && r.value.url.location == join(c.baseUrl, path).value.location
    ensures r.Success? && opts.None? ==> r.value.url == join(c.baseUrl, path).value
    ensures r.Success? && opts.Some? ==> r.value.url.query == Some(StatusesRequests.Query(opts.value))
  {
    match Endpoint(c, path, join)
    case Failure(e) => Failure(e)
    case Success(u) =>
      Success(Request(Get, if opts.Some? then SetQuery(u, TimelineQuery(opts.value)) else u))
  }

  /** The corrected timeline's query reads back as the options that were given. */
  lemma TimelineQueryRoundTrip(c: Client, path: string, opts: StatusesRequests.StatusesRequest, join: Joiner)
    requires join(c.baseUrl, path).Success?
    requires StatusesRequests.PlainIds(opts)
    ensures var r := TimelineRequest(c, path, Some(opts), join);
      r.Success? && r.value.url.Href() == join(c.baseUrl, path).value.location + "?" + StatusesRequests.Query(opts) &&
      StatusesRequests.FromQuery(r.value.url.query.value) == opts
  {
    StatusesRequests.QueryRoundTrip(opts);
  }

  /** A fresh page whose first request is `first`, or the error that kept it from being built. */
  method StartPage<T>(first: Result<Request, Error>) returns (r: Result<Page<T>, Error>)
    ensures first.Failure? ==> r == Failure(first.error)
    ensures first.Success? ==>
      (r.Success? && fresh(r.value) && r.value.Position() == Fresh(first.value) && r.value.sent == [])
  {
    if first.Failure? {
      return Failure(first.error);
    }
    var page := new Page<T>(first.value);
    return Success(page);
  }

  /** `public_timeline`: nothing is sent; the page starts at the request as written, `??` and all. */
  method PublicTimeline<T>(c: Client, opts: Option<StatusesRequests.StatusesRequest>, join: Joiner) returns (r: Result<Page<T>, Error>)
    ensures var first := TimelineRequestAsWritten(c, "api/v1/timelines/public", opts, join);
      (first.Failure? ==> r == Failure(first.error)) &&
      (first.Success? ==> r.Success? && fresh(r.value) && r.value.Position() == Fresh(first.value) && r.value.sent == [])
  {
    r := StartPage(TimelineRequestAsWritten(c, "api/v1/timelines/public", opts, join));
  }

  /** `hashtag_timeline`. */
  method HashtagTimeline<T>(c: Client, tag: string, opts: Option<StatusesRequests.StatusesRequest>, join: Joiner) returns (r: Result<Page<T>, Error>)
    ensures var first := TimelineRequestAsWritten(c, "api/v1/timelines/tag/" + tag, opts, join);
      (first.Failure? ==> r == Failure(first.error)) &&
      (first.Success? ==> r.Success? && fresh(r.value) && r.value.Position() == Fresh(first.value) && r.value.sent == [])
  {
    r := StartPage(TimelineRequestAsWritten(c, "api/v1/timelines/tag/" + tag, opts, join));
  }

  /** `account_statuses`. */
  method AccountStatuses<T>(c: Client, id: string, opts: Option<StatusesRequests.StatusesRequest>, join: Joiner) returns (r: Result<Page<T>, Error>)
    ensures var first := TimelineRequestAsWritten(c, "api/v1/accounts/" + id + "/statuses", opts, join);
      (first.Failure? ==> r == Failure(first.error)) &&
      (first.Success? ==> r.Success? && fresh(r.value) && r.value.Position() == Fresh(first.value) && r.value.sent == [])
  {
    r := StartPage(TimelineRequestAsWritten(c, "api/v1/accounts/" + id + "/statuses", opts, join));
  }

  /** `reblogged_by`. */
  method RebloggedBy<T>(c: Client, id: string, join: Joiner) returns (r: Result<Page<T>, Error>)
    ensures var first := TimelineRequestAsWritten(c, "api/v1/statuses/" + id + "/reblogged_by", None, join);
      (first.Failure? ==> r == Failure(first.error)) &&
      (first.Success? ==> r.Success? && fresh(r.value) && r.value.Position() == Fresh(first.value) && r.value.sent == [])
  {
    r := StartPage(TimelineRequestAsWritten(c, "api/v1/statuses/" + id + "/reblogged_by", None, join));
  }

  /** `favourited_by`. */
  method FavouritedBy<T>(c: Client, id: string, join: Joiner) returns (r: Result<Page<T>, Error>)
    ensures var first := TimelineRequestAsWritten(c, "api/v1/statuses/" + id + "/favourited_by", None, join);
      (first.Failure? ==> r == Failure(first.error)) &&
      (first.Success? ==> r.Success? && fresh(r.value) && r.value.Position() == Fresh(first.value) && r.value.sent == [])
  {
    r := StartPage(TimelineRequestAsWritten(c, "api/v1/statuses/" + id + "/favourited_by", None, join));
  }

  /** `send` of the client: authenticate, then fetch. */
  function Send<T>(req: Request, auth: Authenticator, fetch: Fetcher<T>): (r: Result<AsyncResponse<T>, Error>)
    ensures auth(req).Failure? ==> r == Failure(auth(req).error)
    ensures auth(req).Success? ==> r == fetch(auth(req).value)
  {
    match auth(req)
    case Failure(e) => Failure(e)
    case Success(signed) => fetch(signed)
  }

  /** Sends a GET of a URL and decodes the reply with `deserialize`. */
  function GetAndDecode<T>(u: Result<Url, Error>, auth: Authenticator, fetch: Fetcher<T>): (r: Result<T, Error>)
    ensures u.Failure? ==> r == Failure(u.error)
    ensures u.Success? && Send(Request(Get, u.value), auth, fetch).Failure? ==> r == Failure(Send(Request(Get, u.value), auth, fetch).error)
    ensures u.Success? && Send(Request(Get, u.value), auth, fetch).Success? ==> r == AsyncDeserialize(Send(Request(Get, u.value), auth, fetch).value)
  {
    match u
    case Failure(e) => Failure(e)
    case Success(url) =>
      match Send(Request(Get, url), auth, fetch)
      case Failure(e) => Failure(e)
      case Success(resp) => AsyncDeserialize(resp)
  }

  /**
   * The single-resource GETs (`status`, `context`, `card`, `account`,
   * `poll`, `instance`, `peers`, `activity`, `custom_emojis`): the path
   * joined onto the base, sent, and decoded by `deserialize`.
   */
  function Resource<T>(c: Client, path: string, join: Joiner, auth: Authenticator, fetch: Fetcher<T>): (r: Result<T, Error>)
    ensures join(c.baseUrl, path).Failure? ==> r == Failure(Error.Url(join(c.baseUrl, path).error))
    ensures join(c.baseUrl, path).Success? ==> r == GetAndDecode(Success(join(c.baseUrl, path).value), auth, fetch)
  {
    GetAndDecode(Endpoint(c, path, join), auth, fetch)
  }

  /** The directory URL: the options' query string, which has no leading `?`, as the query. */
  function DirectoryUrl(c: Client, opts: Option<DirectoryRequests.DirectoryRequest>, join: Joiner): (r: Result<Url, Error>)
    ensures r.Failure? <==> join(c.baseUrl, "api/v1/directory").Failure?
    ensures r.Failure? ==> r.error == Error.Url(join(c.baseUrl, "api/v1/directory").error)
    ensures r.Success? && opts.Some? ==> r.value.query == Some(DirectoryRequests.ToQueryString(opts.value))
  {
    match Endpoint(c, "api/v1/directory", join)
    case Failure(e) => Failure(e)
    case Success(u) => Success(if opts.Some? then SetQuery(u, DirectoryRequests.ToQueryString(opts.value)) else u)
  }

  /** The directory's query reads back as the options that were given, behind a single `?`. */
  lemma DirectoryQueryRoundTrip(c: Client, opts: DirectoryRequests.DirectoryRequest, join: Joiner)
    requires join(c.baseUrl, "api/v1/directory").Success?
    requires DirectoryRequests.PlainOrder(opts)
    ensures var r := DirectoryUrl(c, Some(opts), join);
      r.Success? && DirectoryRequests.FromQuery(r.value.query.value) == opts
  {
    DirectoryRequests.QueryRoundTrip(opts);
  }

  /** `directory`: one GET of the directory URL, decoded by `deserialize`; a join failure sends nothing. */
  function Directory<T>(c: Client, opts: Option<DirectoryRequests.DirectoryRequest>, join: Joiner, auth: Authenticator, fetch: Fetcher<T>): (r: Result<T, Error>)
    ensures DirectoryUrl(c, opts, join).Failure? ==> r == Failure(Error.Url(join(c.baseUrl, "api/v1/directory").error))
    ensures DirectoryUrl(c, opts, join).Success? ==>
      var sent := Send(Request(Get, DirectoryUrl(c, opts, join).value), auth, fetch);
      (sent.Failure? ==> r == Failure(sent.error)) && (sent.Success? ==> r == AsyncDeserialize(sent.value))
  {
    GetAndDecode(DirectoryUrl(c, opts, join), auth, fetch)
  }

  /** The query `trends` sets, as written: `?limit=<n>`, so the URL carries `??`. */
  function TrendsQueryAsWritten(limit: nat): string
  {
    "?limit=" + NatToString(limit)
  }

  /** The trends URL as written: with a limit, `??limit=<n>` follows the joined location. */
  function TrendsUrlAsWritten(c: Client, limit: Option<nat>, join: Joiner): (r: Result<Url, Error>)
    ensures r.Failure? <==> join(c.baseUrl, "api/v1/trends").Failure?
    ensures r.Failure? ==> r.error == Error.Url(join(c.baseUrl, "api/v1/trends").error)
    ensures r.Success? && limit.None? ==> r.value == join(c.baseUrl, "api/v1/trends").value
    ensures r.Success? && limit.Some? ==>
      r.value.location == join(c.baseUrl, "api/v1/trends").value.location &&
      r.value.query == Some("?limit=" + NatToString(limit.value))
  {
    match Endpoint(c, "api/v1/trends", join)
    case Failure(e) => Failure(e)
    case Success(u) => Success(if limit.Some? then SetQuery(u, TrendsQueryAsWritten(limit.value)) else u)
  }

  /** As written, the limit is sent under the key `?limit`, so a server reading `limit` finds none. */
  lemma TrendsLimitLostAsWritten(c: Client, n: nat, join: Joiner)
    requires join(c.baseUrl, "api/v1/trends").Success?
    ensures var r := TrendsUrlAsWritten(c, Some(n), join);
      r.Success? && r.value.Href() == join(c.baseUrl, "api/v1/trends").value.location + "??limit=" + NatToString(n) &&
      Lookup(Decode(r.value.query.value), "limit") == None
  {
    TrendsDecodedAsWritten(n);
    TrendsDoubleMark(join(c.baseUrl, "api/v1/trends").value.location, NatToString(n));
    assert "?limit" != "limit" by {
      assert |"?limit"| != |"limit"|;
    }
  }

  /** The single pair a server reads from the trends query as written. */
  lemma TrendsDecodedAsWritten(n: nat)
    ensures Decode(TrendsQueryAsWritten(n)) == [Pair("?limit", NatToString(n))]
  {
    NatToStringUnreserved(n);
    UnreservedHasNoDelimiter(NatToString(n));
    var p := Pair("?limit", NatToString(n));
    assert Render(p) == TrendsQueryAsWritten(n);
    assert Separable(p);
    DecodeEncode([p]);
  }

  /** `set_query` in front of the trends query as written gives `??`. */
  lemma TrendsDoubleMark(loc: string, digits: string)
    ensures loc + "?" + ("?limit=" + digits) == loc + "??limit=" + digits
  {
    assert "?" + "?limit=" == "??limit=";
  }

  /** The query `trends` sets: `limit=<n>`, behind the `?` that `set_query` adds. */
  function TrendsQuery(limit: nat): string
  {
    Encode(Present([Number("limit", Some(limit))]))
  }

  /** The corrected trends URL: `limit=<n>` after the single `?` that `set_query` adds. */
  function TrendsUrl(c: Client, limit: Option<nat>, join: Joiner): (r: Result<Url, Error>)
    ensures r.Failure? <==> join(c.baseUrl, "api/v1/trends").Failure?
    ensures r.Success? && limit.None? ==> r.value == join(c.baseUrl, "api/v1/trends").value
    ensures r.Success? && limit.Some? ==> r.value.Href() == join(c.baseUrl, "api/v1/trends").value.location + "?" + TrendsQuery(limit.value)
  {
    match Endpoint(c, "api/v1/trends", join)
    case Failure(e) => Failure(e)
    case Success(u) => Success(if limit.Some? then SetQuery(u, TrendsQuery(limit.value)) else u)
  }

  /** The limit reads back from the trends query under the key `limit`. */
  lemma TrendsQueryRoundTrip(n: nat)
    ensures TrendsQuery(n) == "limit=" + NatToString(n)
    ensures NumberValue(Lookup(Decode(TrendsQuery(n)), "limit")) == Some(n)
  {
    var fs := [Number("limit", Some(n))];
    NatToStringUnreserved(n);
    assert Writable(fs);
    DecodeWritten(fs, 0);
    NumberRoundTrip("limit", Some(n));
    assert Present(fs) == [Pair("limit", NatToString(n))];
    assert Encode([Pair("limit", NatToString(n))]) == "limit" + "=" + NatToString(n);
  }

  /** `trends`: one GET of the trends URL as written, decoded by `deserialize`; a join failure sends nothing. */
  function Trends<T>(c: Client, limit: Option<nat>, join: Joiner, auth: Authenticator, fetch: Fetcher<T>): (r: Result<T, Error>)
    ensures TrendsUrlAsWritten(c, limit, join).Failure? ==> r == Failure(Error.Url(join(c.baseUrl, "api/v1/trends").error))
    ensures TrendsUrlAsWritten(c, limit, join).Success? ==>
      var sent := Send(Request(Get, TrendsUrlAsWritten(c, limit, join).value), auth, fetch);
      (sent.Failure? ==> r == Failure(sent.error)) && (sent.Success? ==> r == AsyncDeserialize(sent.value))
  {
    GetAndDecode(TrendsUrlAsWritten(c, limit, join), auth, fetch)
  }
}
