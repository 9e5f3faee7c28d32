/**
 * Registering an application and completing the OAuth flow
 * (src/registration.rs). The two network calls, the app registration POST
 * and the token POST, are parameters; what is modelled is the URLs they are
 * sent to and the records built from their replies.
 */
module Registrations {
  import opened Wrappers
  import opened Records
  import opened QueryString
  import opened Errors
  import opened Apps
  import opened Scopes
  import opened Clients

  /** The reply to the app registration; `redirect_uri` may be absent. */
  datatype OAuthReply = OAuthReply(clientId: string, clientSecret: string, redirectUri: Option<string>)

  /** `default_redirect_uri`: the out-of-band URI. */
  function DefaultRedirectUri(): (s: string)
    ensures s == OutOfBandRedirect
  {
    "urn:ietf:wg:oauth:2.0:oob"
  }

  /** The redirect URI a reply stands for, the default filling a missing one. */
  function RedirectOf(reply: OAuthReply): (s: string)
    ensures reply.redirectUri.Some? ==> s == reply.redirectUri.value
    ensures reply.redirectUri.None? ==> s == OutOfBandRedirect
  {
    if reply.redirectUri.Some? then reply.redirectUri.value else DefaultRedirectUri()
  }

  /** A registration in progress against the instance at `base`. */
  datatype Registration = Registration(base: string, client: HttpClient)

  /** `Registration::new`: a fresh default HTTP client. */
  function New(base: string): (r: Registration)
    ensures r.base == base && r.client == DefaultClient
  {
    Registration(base, DefaultClient)
  }

  /** A registered application, ready for the authorisation step. */
  datatype Registered = Registered(
    base: string,
    client: HttpClient,
    clientId: string,
    clientSecret: string,
    redirect: string,
    scopes: Scope)

  /** The app registration POST: the form of the app, sent to a URL; the reply or the error. */
  type Registrar = (string, App) -> Result<OAuthReply, Error>

  /** Where apps are registered. */
  function AppsUrl(base: string): (url: string)
    ensures url == base + "/api/v1/apps"
  {
    base + "/api/v1/apps"
  }

  /**
   * `register`: the app must convert, then the server must reply; the
   * registered record keeps the base and client, takes id, secret and
   * redirect from the reply and the scopes from the app.
   */
  function Register(reg: Registration, app: Result<App, Error>, post: Registrar): (r: Result<Registered, Error>)
    ensures app.Failure? ==> r == Failure(app.error)
    ensures app.Success? && post(AppsUrl(reg.base), app.value).Failure? ==>
      r == Failure(post(AppsUrl(reg.base), app.value).error)
    ensures r.Success? ==>
      var reply := post(AppsUrl(reg.base), app.value).value;
      r.value.base == reg.base && r.value.client == reg.client &&
      r.value.clientId == reply.clientId && r.value.clientSecret == reply.clientSecret &&
      r.value.redirect == RedirectOf(reply) && r.value.scopes == app.value.Scopes()
  {
    match app
    case Failure(e) => Failure(e)
    case Success(a) =>
      match post(AppsUrl(reg.base), a)
      case Failure(e) => Failure(e)
      case Success(reply) =>
        Success(Registered(reg.base, reg.client, reply.clientId, reply.clientSecret, RedirectOf(reply), a.Scopes()))
  }

  /** A reply without a redirect URI registers the out-of-band one. */
  lemma RegisterDefaultsRedirect(reg: Registration, a: App, post: Registrar)
    requires post(AppsUrl(reg.base), a).Success? && post(AppsUrl(reg.base), a).value.redirectUri.None?
    ensures Register(reg, Success(a), post).Success?
    ensures Register(reg, Success(a), post).value.redirect == "urn:ietf:wg:oauth:2.0:oob"
  {
  }

  /**
   * `authorize_url`: the text the format string produces, its literal text
   * written in pieces split at the parameter boundaries.
   */
  function AuthorizeUrl(r: Registered): (url: Result<string, Error>)
    ensures url.Success?
  {
    Success(r.base + "/oauth/authorize" + "?" + "client_id" + "=" + r.clientId + "&" + "redirect_uri" + "=" + r.redirect +
      "&" + "scope" + "=" + Display(r.scopes) + "&" + "response_type" + "=" + "code")
  }

  /** The authorisation request's parameters, in the order they are written (section 4.1.1 of RFC 6749). */
  function AuthorizePairs(r: Registered): (ps: seq<Pair<string>>)
    ensures PairKeys(ps) == ["client_id", "redirect_uri", "scope", "response_type"]
  {
    [Pair("client_id", r.clientId), Pair("redirect_uri", r.redirect),
     Pair("scope", Display(r.scopes)), Pair("response_type", "code")]
  }

  /** Values the format string can carry without changing the query's structure. */
  predicate Plain(s: string)
  {
    '&' !in s
  }

  /** The scope display never contains `&`. */
  lemma DisplayPlain(s: Scope)
    ensures Plain(Display(s))
  {
  }

  /** The authorisation URL is the endpoint, a `?` and the four parameters encoded in order. */
  lemma AuthorizeUrlQuery(r: Registered)
    ensures AuthorizeUrl(r).value == r.base + "/oauth/authorize" + "?" + Encode(AuthorizePairs(r))
  {
    var ps := AuthorizePairs(r);
    var pre := r.base + "/oauth/authorize" + "?";
    WriteFirst(pre, ps[0]);
    assert [ps[0]] == ps[..1];
    WriteNext(pre, ps[..1], ps[1]);
    assert ps[..1] + [ps[1]] == ps[..2];
    WriteNext(pre, ps[..2], ps[2]);
    assert ps[..2] + [ps[2]] == ps[..3];
    WriteNext(pre, ps[..3], ps[3]);
    assert ps[..3] + [ps[3]] == ps;
  }

  /**
   * When the id and redirect hold no `&`, a reader of the authorisation
   * query gets back exactly the four parameters, in order.
   */
  lemma AuthorizeQueryRoundTrip(r: Registered)
    requires Plain(r.clientId) && Plain(r.redirect)
    ensures Decode(Encode(AuthorizePairs(r))) == AuthorizePairs(r)
  {
    DisplayPlain(r.scopes);
    assert '&' !in "client_id" && '=' !in "client_id" && '&' !in "redirect_uri" && '=' !in "redirect_uri";
    assert '&' !in "scope" && '=' !in "scope" && '&' !in "response_type" && '=' !in "response_type";
    assert '&' !in "code";
    DecodeEncode(AuthorizePairs(r));
  }

  /**
   * `complete`'s token URL: the text the format string produces, its literal
   * text written in pieces split at the parameter boundaries.
   */
  function TokenUrl(r: Registered, code: string): (url: string)
    ensures |url| >= |r.base| && url[..|r.base|] == r.base
    ensures |url| >= |r.redirect| && url[|url| - |r.redirect|..] == r.redirect
  {
    r.base + "/oauth/token" + "?" + "client_id" + "=" + r.clientId + "&" + "client_secret" + "=" + r.clientSecret +
      "&" + "code" + "=" + code + "&" + "grant_type" + "=" + "authorization_code" + "&" + "redirect_uri" + "=" + r.redirect
  }

  /** The token request's parameters, in the order they are written (section 4.1.3 of RFC 6749, plus the client credentials). */
  function TokenPairs(r: Registered, code: string): (ps: seq<Pair<string>>)
    ensures PairKeys(ps) == ["client_id", "client_secret", "code", "grant_type", "redirect_uri"]
  {
    [Pair("client_id", r.clientId), Pair("client_secret", r.clientSecret), Pair("code", code),
     Pair("grant_type", "authorization_code"), Pair("redirect_uri", r.redirect)]
  }

  /** The token URL is the endpoint, a `?` and the five parameters encoded in order, `grant_type` always `authorization_code`. */
  lemma TokenUrlQuery(r: Registered, code: string)
    ensures TokenUrl(r, code) == r.base + "/oauth/token" + "?" + Encode(TokenPairs(r, code))
  {
    var ps := TokenPairs(r, code);
    var pre := r.base + "/oauth/token" + "?";
    WriteFirst(pre, ps[0]);
    assert [ps[0]] == ps[..1];
    WriteNext(pre, ps[..1], ps[1]);
    assert ps[..1] + [ps[1]] == ps[..2];
    WriteNext(pre, ps[..2], ps[2]);
    assert ps[..2] + [ps[2]] == ps[..3];
    WriteNext(pre, ps[..3], ps[3]);
    assert ps[..3] + [ps[3]] == ps[..4];
    WriteNext(pre, ps[..4], ps[4]);
    assert ps[..4] + [ps[4]] == ps;
  }

  /** When the values hold no `&`, a reader of the token query gets back exactly the five parameters, in order. */
  lemma TokenQueryRoundTrip(r: Registered, code: string)
    requires Plain(r.clientId) && Plain(r.clientSecret) && Plain(code) && Plain(r.redirect)
    ensures Decode(Encode(TokenPairs(r, code))) == TokenPairs(r, code)
  {
    assert '&' !in "client_id" && '=' !in "client_id" && '&' !in "client_secret" && '=' !in "client_secret";
    assert '&' !in "code" && '=' !in "code" && '&' !in "redirect_uri" && '=' !in "redirect_uri";
    assert '&' !in "grant_type" && '=' !in "grant_type" && '&' !in "authorization_code";
    DecodeEncode(TokenPairs(r, code));
  }

  /** The token POST: the access token, or the error. */
  type TokenEndpoint = string -> Result<string, Error>

  /**
   * `complete`: asks for a token at the token URL; the client is built
   * from the registered base, id, secret and redirect and the returned
   * token, on the registration's HTTP client.
   */
  method Complete(r: Registered, code: string, post: TokenEndpoint) returns (m: Result<Mastodon, Error>)
    ensures post(TokenUrl(r, code)).Failure? ==> m == Failure(post(TokenUrl(r, code)).error)
    ensures post(TokenUrl(r, code)).Success? ==>
      m == Success(Mastodon(r.client, Data(r.base, r.clientId, r.clientSecret, r.redirect, post(TokenUrl(r, code)).value)))
  {
    var token := post(TokenUrl(r, code));
    if token.Failure? {
      return Failure(token.error);
    }
    var data := Data(r.base, r.clientId, r.clientSecret, r.redirect, token.value);
    var builder := new MastodonBuilder();
    builder.Client(r.client);
    builder.Data(data);
    m := builder.Build();
  }
}
