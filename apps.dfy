/**
 * `App` and `AppBuilder` (src/apps.rs): the application a client registers
 * with an instance. The builder's setters assign its fields in place; `build`
 * fills the defaults and insists on a client name.
 */
module Apps {
  import opened Wrappers
  import opened Errors
  import opened Scopes

  /** The redirect URI that asks the server to show the code instead of redirecting. */
  const OutOfBandRedirect: string := "urn:ietf:wg:oauth:2.0:oob"

  datatype App = App(clientName: string, redirectUris: string, scopes: Scope, website: Option<string>)
  {
    /** `App::scopes`. */
    function Scopes(): (s: Scope)
      ensures s == scopes
    {
      scopes
    }
  }

  class AppBuilder {
    var clientName: Option<string>
    var redirectUris: Option<string>
    var scopes: Option<Scope>
    var website: Option<string>

    /** `AppBuilder::new`: nothing set. */
    constructor ()
      ensures clientName.None? && redirectUris.None? && scopes.None? && website.None?
    {
      clientName := None;
      redirectUris := None;
      scopes := None;
      website := None;
    }

    method ClientName(name: string)
      modifies this
      ensures clientName == Some(name)
      ensures redirectUris == old(redirectUris) && scopes == old(scopes) && website == old(website)
    {
      clientName := Some(name);
    }

    method RedirectUris(uris: string)
      modifies this
      ensures redirectUris == Some(uris)
      ensures clientName == old(clientName) && scopes == old(scopes) && website == old(website)
    {
      redirectUris := Some(uris);
    }

    method SetScopes(s: Scope)
      modifies this
      ensures scopes == Some(s)
      ensures clientName == old(clientName) && redirectUris == old(redirectUris) && website == old(website)
    {
      scopes := Some(s);
    }

    method Website(site: string)
      modifies this
      ensures website == Some(site)
      ensures clientName == old(clientName) && redirectUris == old(redirectUris) && scopes == old(scopes)
    {
      website := Some(site);
    }

    /**
     * `AppBuilder::build`: fails without a client name; otherwise the redirect
     * URI defaults to the out-of-band one and the scope to `Read`, and the
     * website is passed through.
     */
    function Build(): (r: Result<App, Error>)
      reads this
      ensures clientName.None? <==> r == Failure(MissingField("client_name"))
      ensures r.Success? ==> r.value.clientName == clientName.value
      ensures r.Success? ==> r.value.redirectUris == (if redirectUris.Some? then redirectUris.value else OutOfBandRedirect)
      ensures r.Success? ==> r.value.scopes == (if scopes.Some? then scopes.value else Default())
      ensures r.Success? ==> r.value.website == website
    {
      if clientName.None? then Failure(MissingField("client_name"))
      else
        Success(App(
          clientName.value,
          if redirectUris.Some? then redirectUris.value else OutOfBandRedirect,
          if scopes.Some? then scopes.value else Read,
          website))
    }
  }

  /** The documented use: only a client name, so every default applies. */
  method DocExample() returns (r: Result<App, Error>)
    ensures r == Success(App("elefren_test", OutOfBandRedirect, Read, None))
  {
    var builder := new AppBuilder();
    builder.ClientName("elefren_test");
    r := builder.Build();
  }

  /** Setting a field twice keeps the second value. */
  method LastCallWins(first: string, second: string) returns (r: Result<App, Error>)
    ensures r.Success? && r.value.clientName == second
  {
    var builder := new AppBuilder();
    builder.ClientName(first);
    builder.ClientName(second);
    r := builder.Build();
  }
}
