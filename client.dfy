/**
 * The blocking client of src/lib.rs: the instance data it is built from,
 * the URLs it composes and the status checks of the calls that send a body.
 * The transport itself is a parameter: a sender from the call the client
 * makes to the response it gets back, or the transport's error.
 */
module Clients {
  import opened Wrappers
  import opened Strings
  import opened Records
  import opened QueryString
  import opened HttpStatus
  import opened Errors
  import opened Http
  import opened Decoding
  import StatusesRequests
  import FilterRequests
  import UpdateCredentials

  /** `Data`: what the client knows about its instance and its grant. */
  datatype Data = Data(base: string, clientId: string, clientSecret: string, redirect: string, token: string)

  /** The reqwest client handle: the default one, or one the caller configured. */
  datatype HttpClient = DefaultClient | ConfiguredClient(name: string)

  /** `Mastodon`: a client handle and the instance data. */
  datatype Mastodon = Mastodon(client: HttpClient, data: Data)

  /** `route`: the base URL followed directly by the path. */
  function Route(base: string, path: string): (url: string)
    ensures |url| == |base| + |path|
    ensures url[..|base|] == base && url[|base|..] == path
  {
    base + path
  }

  const RelationshipsPath: string := "/api/v1/accounts/relationships"

  /** The query pairs of a relationships lookup: `id` for a single account, `id[]` for each of several. */
  function IdPairs(ids: seq<string>): (ps: seq<Pair<string>>)
    ensures |ps| == |ids|
    ensures forall i :: 0 <= i < |ids| ==> ps[i].value == ids[i]
  {
    if |ids| == 1 then [Pair("id", ids[0])] else ArrayPairs(ids)
  }

  /** One `id[]` pair per id, in order. */
  function ArrayPairs(ids: seq<string>): (ps: seq<Pair<string>>)
    ensures |ps| == |ids|
    ensures forall i :: 0 <= i < |ids| ==> ps[i] == Pair("id[]", ids[i])
  {
    seq(|ids|, i requires 0 <= i < |ids| => Pair("id[]", ids[i]))
  }

  /** The relationships URL: no query for no ids, otherwise the id pairs after one `?`. */
  function RelationshipsUrl(base: string, ids: seq<string>): string
  {
    Route(base, RelationshipsPath) + (if |ids| == 0 then "" else "?" + Encode(IdPairs(ids)))
  }

  /** `id[]=<id>&` for each id in turn: what the loop of `relationships` appends. */
  function Appended(ids: seq<string>): string
    decreases |ids|
  {
    if |ids| == 0 then "" else Appended(ids[..|ids| - 1]) + "id[]" + "=" + ids[|ids| - 1] + "&"
  }

  /** The loop's text is the `&`-joined `id[]` pairs with one `&` too many. */
  lemma {:induction false} AppendedIsEncodedPairs(ids: seq<string>)
    requires |ids| >= 1
    ensures Appended(ids) == Encode(ArrayPairs(ids)) + "&"
    decreases |ids|
  {
    var front, x := ids[..|ids| - 1], ids[|ids| - 1];
    assert ids == front + [x];
    if |ids| == 1 {
      AppendedFirst(x);
    } else {
      AppendedIsEncodedPairs(front);
      AppendedStep(front, x);
    }
  }

  /** One id: its pair and a `&`. */
  lemma AppendedFirst(x: string)
    ensures Appended([x]) == Encode(ArrayPairs([x])) + "&"
  {
    var p := Pair("id[]", x);
    assert [x][..0] == [];
    assert ArrayPairs([x]) == [p] + [];
    EncodeCons(p, []);
    Regroup("", "id[]", "=", x, "&");
  }

  /** The pairs of `front + [x]` are those of `front` and one more `id[]` pair. */
  lemma ArrayPairsSnoc(front: seq<string>, x: string)
    ensures ArrayPairs(front + [x]) == ArrayPairs(front) + [Pair("id[]", x)]
  {
  }

  /** The loop's text for one more id. */
  lemma AppendedSnoc(front: seq<string>, x: string)
    ensures Appended(front + [x]) == Appended(front) + "id[]" + "=" + x + "&"
  {
    assert (front + [x])[..|front|] == front;
  }

  /** The three pushes of one loop turn extend the text by that id. */
  lemma AppendedWritten(start: string, front: seq<string>, x: string)
    ensures start + Appended(front) + "id[]=" + x + "&" == start + Appended(front + [x])
  {
    AppendedSnoc(front, x);
    var a := start + Appended(front);
    assert "id[]=" == "id[]" + "=";
    Regroup(a, "id[]", "=", x, "&");
  }

  /** One more id: its pair follows the `&` the loop already wrote. */
  lemma AppendedStep(front: seq<string>, x: string)
    requires |front| >= 1
    requires Appended(front) == Encode(ArrayPairs(front)) + "&"
    ensures Appended(front + [x]) == Encode(ArrayPairs(front + [x])) + "&"
  {
    var ps, p := ArrayPairs(front), Pair("id[]", x);
    AppendedSnoc(front, x);
    ArrayPairsSnoc(front, x);
    EncodeSnoc(ps, p);
    Regroup(Encode(ps) + "&", "id[]", "=", x, "&");
  }

  /** Dropping the loop's last character leaves the relationships URL, for no ids as for several. */
  lemma PopGivesUrl(base: string, ids: seq<string>)
    requires |ids| != 1
    ensures var t := Route(base, RelationshipsPath + "?") + Appended(ids);
      |t| > 0 && t[..|t| - 1] == RelationshipsUrl(base, ids)
  {
    var r := Route(base, RelationshipsPath);
    assert Route(base, RelationshipsPath + "?") == r + "?";
    if |ids| == 0 {
      DropLast(r, "?");
    } else {
      AppendedIsEncodedPairs(ids);
      assert IdPairs(ids) == ArrayPairs(ids);
      var e := Encode(ArrayPairs(ids));
      assert r + "?" + (e + "&") == (r + "?" + e) + "&";
      DropLast(r + "?" + e, "&");
    }
  }

  /** A one-character suffix dropped again. */
  lemma DropLast(a: string, c: string)
    requires |c| == 1
    ensures (a + c)[..|a + c| - 1] == a
  {
  }

  /** Concatenation regrouped around a middle run of three pieces. */
  lemma Regroup(a: string, b: string, c: string, d: string, e: string)
    ensures a + b + c + d + e == a + (b + c + d) + e
  {
  }

  /** `relationships`: append `id=` once, or `id[]=…&` per id followed by a `pop`. */
  method Relationships(base: string, ids: seq<string>) returns (url: string)
    ensures url == RelationshipsUrl(base, ids)
  {
    url := Route(base, RelationshipsPath + "?");
    if |ids| == 1 {
      url := url + "id=";
      url := url + ids[0];
      assert Encode(IdPairs(ids)) == "id=" + ids[0];
    } else {
      var start := url;
      for i := 0 to |ids|
        invariant url == start + Appended(ids[..i])
      {
        AppendedWritten(start, ids[..i], ids[i]);
        assert ids[..i] + [ids[i]] == ids[..i + 1];
        url := url + "id[]=";
        url := url + ids[i];
        url := url + "&";
      }
      assert ids[..|ids|] == ids;
      PopGivesUrl(base, ids);
      // `String::pop`: the last character goes, the `?` itself when there are no ids.
      url := url[..|url| - 1];
    }
  }

  /** The ids a relationships query names, read back from its pairs. */
  function ReadIds(ps: seq<Pair<string>>): seq<string>
  {
    seq(|ps|, i requires 0 <= i < |ps| => ps[i].value)
  }

  /** Every id is recovered, in order, from the query the URL carries. */
  lemma RelationshipsIdsRoundTrip(base: string, ids: seq<string>)
    requires forall i :: 0 <= i < |ids| ==> '&' !in ids[i]
    requires |ids| > 0
    ensures RelationshipsUrl(base, ids) == base + RelationshipsPath + "?" + Encode(IdPairs(ids))
    ensures ReadIds(Decode(Encode(IdPairs(ids)))) == ids
  {
    DecodeEncode(IdPairs(ids));
  }

  /** The three shapes: one id as `?id=`, none without a `?`, several as `id[]` pairs. */
  lemma RelationshipsShapes(base: string, x: string, y: string)
    ensures RelationshipsUrl(base, [x]) == base + "/api/v1/accounts/relationships?id=" + x
    ensures RelationshipsUrl(base, []) == base + "/api/v1/accounts/relationships"
    ensures RelationshipsUrl(base, [x, y]) == base + "/api/v1/accounts/relationships?id[]=" + x + "&id[]=" + y
  {
    RelationshipsOneId(base, x);
    RelationshipsTwoIds(base, x, y);
  }

  lemma RelationshipsOneId(base: string, x: string)
    ensures RelationshipsUrl(base, [x]) == base + "/api/v1/accounts/relationships?id=" + x
  {
    assert Encode([Pair("id", x)]) == "id" + "=" + x;
    assert RelationshipsPath + "?" + "id" + "=" == "/api/v1/accounts/relationships?id=";
  }

  lemma RelationshipsTwoIds(base: string, x: string, y: string)
    ensures RelationshipsUrl(base, [x, y]) == base + "/api/v1/accounts/relationships?id[]=" + x + "&id[]=" + y
  {
    assert IdPairs([x, y]) == [Pair("id[]", x), Pair("id[]", y)];
    EncodeTwo(Pair("id[]", x), Pair("id[]", y));
    var lead, sep := "/api/v1/accounts/relationships?id[]=", "&id[]=";
    assert lead == RelationshipsPath + "?" + "id[]" + "=";
    assert sep == "&" + "id[]" + "=";
    TwoPairsRegrouped(base, RelationshipsPath, "id[]", x, y, lead, sep);
  }

  /** Two `key=value` pairs after a path and `?`, regrouped around the literal runs between the values. */
  lemma TwoPairsRegrouped(base: string, path: string, k: string, x: string, y: string, lead: string, sep: string)
    requires lead == path + "?" + k + "=" && sep == "&" + k + "="
    ensures base + path + ("?" + (k + "=" + x + "&" + k + "=" + y)) == base + lead + x + sep + y
  {
  }

  /** `get_tagged_timeline`: the tag's timeline, with `?local=1` exactly when asked for. */
  function TaggedTimelineUrl(base: string, hashtag: string, local: bool): (url: string)
    ensures |url| >= |base| && url[..|base|] == base
    ensures |url| == |base| + |TagPath| + |hashtag| + (if local then |"?local=1"| else 0)
  {
    Route(base, TagPath + hashtag + (if local then "?local=1" else ""))
  }

  const TagPath: string := "/api/v1/timelines/tag/"

  /** Unless base or tag hold one, a `?` in the URL means exactly that `local` was asked for; its query reads back as `local=1`. */
  lemma TaggedTimelineQuery(base: string, hashtag: string, local: bool)
    requires '?' !in base && '?' !in hashtag
    ensures '?' in TaggedTimelineUrl(base, hashtag, local) <==> local
    ensures local ==> (TaggedTimelineUrl(base, hashtag, local) ==
      base + "/api/v1/timelines/tag/" + hashtag + "?" + Encode(Present([Flag("local", true)])))
  {
    var url := TaggedTimelineUrl(base, hashtag, local);
    var stem := base + "/api/v1/timelines/tag/" + hashtag;
    assert '?' !in "/api/v1/timelines/tag/";
    assert '?' !in stem;
    if local {
      assert url == stem + "?local=1";
      assert url[|stem|] == '?';
      assert Present([Flag("local", true)]) == [Pair("local", "1")];
      assert Encode([Pair("local", "1")]) == "local=1";
    } else {
      assert url == stem;
    }
  }

  /** `statuses`: the account's statuses, with the request's query string appended as is. */
  function AccountStatusesUrl(base: string, id: string, request: Option<StatusesRequests.StatusesRequest>): (url: string)
    ensures request.None? ==> url == base + "/api/v1/accounts/" + id + "/statuses"
    ensures request.Some? ==> url == base + "/api/v1/accounts/" + id + "/statuses" + "?" + StatusesRequests.Query(request.value)
  {
    base + "/api/v1/accounts/" + id + "/statuses" +
      (if request.Some? then StatusesRequests.ToQueryString(request.value) else "")
  }

  /** `MastodonBuilder`: collects a client handle and the data before building a client. */
  class MastodonBuilder {
    var client: Option<HttpClient>
    var data: Option<Data>

    constructor ()
      ensures client.None? && data.None?
    {
      client := None;
      data := None;
    }

    method Client(c: HttpClient)
      modifies this
      ensures client == Some(c) && data == old(data)
    {
      client := Some(c);
    }

    method Data(d: Data)
      modifies this
      ensures data == Some(d) && client == old(client)
    {
      data := Some(d);
    }

    /** `build`: fails without data; otherwise keeps it, with a default handle if none was given. */
    function Build(): (r: Result<Mastodon, Error>)
      reads this
      ensures data.None? <==> r == Failure(MissingField("missing field 'data'"))
      ensures r.Success? ==> r.value.data == data.value
      ensures r.Success? ==> r.value.client == (if client.Some? then client.value else DefaultClient)
    {
      if data.None? then Failure(MissingField("missing field 'data'"))
      else Success(Mastodon(if client.Some? then client.value else DefaultClient, data.value))
    }
  }

  /** `From<Data> for Mastodon`: the build cannot fail once the data is set. */
  method FromData(d: Data) returns (m: Mastodon)
    ensures m == Mastodon(DefaultClient, d)
  {
    var builder := new MastodonBuilder();
    builder.Data(d);
    var built := builder.Build();
    m := built.value;
  }

  /** What a call carries in its body. */
  datatype Payload = NoBody | FilterBody(filter: FilterRequests.AddFilterRequest) | CredentialsBody(credentials: UpdateCredentials.Credentials)

  /** A call as `send` hands it to the transport: with the token as bearer authorisation. */
  datatype Call = Call(verb: Method, url: string, bearer: string, body: Payload)

  /** The transport: the response to a call, or its error. */
  type Transport<T> = Call -> Result<Response<T>, Error>

  /** Sends a call and checks the status before decoding, as the body-sending calls do. */
  function SendChecked<T>(call: Call, send: Transport<T>): (r: Result<T, Error>)
    ensures send(call).Failure? ==> r == Failure(send(call).error)
    ensures send(call).Success? && IsClientError(send(call).value.status) ==> r == Failure(Client(send(call).value.status))
    ensures send(call).Success? && IsServerError(send(call).value.status) ==> r == Failure(Server(send(call).value.status))
    ensures send(call).Success? && !IsClientError(send(call).value.status) && !IsServerError(send(call).value.status) ==>
      r == Deserialise(send(call).value)
  {
    match send(call)
    case Failure(e) => Failure(e)
    case Success(resp) => CheckedDeserialise(resp)
  }

  /** `add_filter`: POST the filter to `/api/v1/filters`. */
  function AddFilter<T>(m: Mastodon, request: FilterRequests.AddFilterRequest, send: Transport<T>): (r: Result<T, Error>)
    ensures r == SendChecked(Call(Post, m.data.base + "/api/v1/filters", m.data.token, FilterBody(request)), send)
  {
    SendChecked(Call(Post, Route(m.data.base, "/api/v1/filters"), m.data.token, FilterBody(request)), send)
  }

  /** `update_filter`: PUT the filter to `/api/v1/filters/<id>`. */
  function UpdateFilter<T>(m: Mastodon, id: string, request: FilterRequests.AddFilterRequest, send: Transport<T>): (r: Result<T, Error>)
    ensures r == SendChecked(Call(Put, m.data.base + ("/api/v1/filters/" + id), m.data.token, FilterBody(request)), send)
  {
    SendChecked(Call(Put, Route(m.data.base, "/api/v1/filters/" + id), m.data.token, FilterBody(request)), send)
  }

  /**
   * `update_credentials`: build the credentials with `build` as written (so
   * the header sent is the avatar), then PATCH them to
   * `/api/v1/accounts/update_credentials`.
   */
  function UpdateCredentialsCall<T>(m: Mastodon, builder: UpdateCredentials.UpdateCredsRequest, send: Transport<T>): (r: Result<T, Error>)
    ensures r == SendChecked(Call(Patch, m.data.base + "/api/v1/accounts/update_credentials", m.data.token,
      CredentialsBody(UpdateCredentials.BuildAsWritten(builder).value)), send)
  {
    match UpdateCredentials.BuildAsWritten(builder)
    case Failure(e) => Failure(e)
    case Success(changes) =>
      SendChecked(Call(Patch, Route(m.data.base, "/api/v1/accounts/update_credentials"), m.data.token, CredentialsBody(changes)), send)
  }
}
