/**
 * Push-subscription requests (src/requests/push.rs): `AddPushRequest`,
 * `UpdatePushRequest`, and the forms their `build` produces.
 */
module PushRequests {
  import opened Wrappers
  import opened Errors

  /** The subscription's public key and authentication secret. */
  datatype Keys = Keys(p256dh: string, auth: string)

  /** Which notifications to push; `None` means not stated. */
  datatype Alerts = Alerts(follow: Option<bool>, favourite: Option<bool>, reblog: Option<bool>, mention: Option<bool>)

  const NoAlerts := Alerts(None, None, None, None)

  /** `Keys::new`. */
  function NewKeys(p256dh: string, auth: string): (k: Keys)
    ensures k.p256dh == p256dh && k.auth == auth
  {
    Keys(p256dh, auth)
  }

  datatype AddPushRequest = AddPushRequest(
    endpoint: string,
    p256dh: string,
    auth: string,
    follow: Option<bool>,
    favourite: Option<bool>,
    reblog: Option<bool>,
    mention: Option<bool>)

  /** `AddPushRequest::new`: the endpoint and both keys, and no flag. */
  function NewAdd(endpoint: string, keys: Keys): (r: AddPushRequest)
    ensures r.endpoint == endpoint && r.p256dh == keys.p256dh && r.auth == keys.auth
    ensures !AddFlagsPresent(r)
  {
    AddPushRequest(endpoint, keys.p256dh, keys.auth, None, None, None, None)
  }

  function Follow(r: AddPushRequest): (s: AddPushRequest)
    ensures s.follow == Some(true) && s.(follow := r.follow) == r
  {
    r.(follow := Some(true))
  }

  function Favourite(r: AddPushRequest): (s: AddPushRequest)
    ensures s.favourite == Some(true) && s.(favourite := r.favourite) == r
  {
    r.(favourite := Some(true))
  }

  function Reblog(r: AddPushRequest): (s: AddPushRequest)
    ensures s.reblog == Some(true) && s.(reblog := r.reblog) == r
  {
    r.(reblog := Some(true))
  }

  function Mention(r: AddPushRequest): (s: AddPushRequest)
    ensures s.mention == Some(true) && s.(mention := r.mention) == r
  {
    r.(mention := Some(true))
  }

  /** `flags_present`. */
  predicate AddFlagsPresent(r: AddPushRequest)
  {
    r.follow.Some? || r.favourite.Some? || r.reblog.Some? || r.mention.Some?
  }

  /** The four flags of a request, as alerts. */
  function AddAlerts(r: AddPushRequest): Alerts
  {
    Alerts(r.follow, r.favourite, r.reblog, r.mention)
  }

  datatype Subscription = Subscription(endpoint: string, keys: Keys)
  datatype AddData = AddData(alerts: Option<Alerts>)
  /** `add_subscription::Form`. */
  datatype AddForm = AddForm(subscription: Subscription, data: Option<AddData>)

  /**
   * `AddPushRequest::build`: always succeeds; the subscription carries the
   * endpoint and keys, and a data block is present exactly when some flag is.
   */
  function BuildAdd(r: AddPushRequest): (f: Result<AddForm, Error>)
    ensures f.Success?
    ensures f.value.subscription == Subscription(r.endpoint, Keys(r.p256dh, r.auth))
    ensures f.value.data.None? <==> !AddFlagsPresent(r)
    ensures f.value.data.Some? ==> f.value.data.value.alerts == Some(AddAlerts(r))
  {
    var form := AddForm(Subscription(r.endpoint, Keys(r.p256dh, r.auth)), None);
    if AddFlagsPresent(r) then
      var alerts := NoAlerts
        .(follow := if r.follow.Some? then Some(r.follow.value) else NoAlerts.follow)
        .(favourite := if r.favourite.Some? then Some(r.favourite.value) else NoAlerts.favourite)
        .(reblog := if r.reblog.Some? then Some(r.reblog.value) else NoAlerts.reblog)
        .(mention := if r.mention.Some? then Some(r.mention.value) else NoAlerts.mention);
      Success(form.(data := Some(AddData(Some(alerts)))))
    else Success(form)
  }

  /** The request a form was built from. */
  function AddRequestOf(f: AddForm): AddPushRequest
  {
    var a := if f.data.Some? && f.data.value.alerts.Some? then f.data.value.alerts.value else NoAlerts;
    AddPushRequest(f.subscription.endpoint, f.subscription.keys.p256dh, f.subscription.keys.auth,
                   a.follow, a.favourite, a.reblog, a.mention)
  }

  /** Building loses nothing: the form gives back the request. */
  lemma BuildAddRoundTrip(r: AddPushRequest)
    ensures AddRequestOf(BuildAdd(r).value) == r
  {
  }

  /** The test with `follow().reblog()`. */
  lemma BuildAddExample()
    ensures var r := Reblog(Follow(NewAdd("https://example.com/push/endpoint", NewKeys("anetohias===", "oeatssah="))));
      BuildAdd(r) == Success(AddForm(
        Subscription("https://example.com/push/endpoint", Keys("anetohias===", "oeatssah=")),
        Some(AddData(Some(Alerts(Some(true), None, Some(true), None))))))
  {
  }

  datatype UpdatePushRequest = UpdatePushRequest(
    id: string,
    follow: Option<bool>,
    favourite: Option<bool>,
    reblog: Option<bool>,
    mention: Option<bool>)

  /** `UpdatePushRequest::new`: the id, and no flag. */
  function NewUpdate(id: string): (r: UpdatePushRequest)
    ensures r.id == id && !UpdateFlagsPresent(r)
  {
    UpdatePushRequest(id, None, None, None, None)
  }

  function UpdateFollow(r: UpdatePushRequest, b: bool): (s: UpdatePushRequest)
    ensures s.follow == Some(b) && s.(follow := r.follow) == r
  {
    r.(follow := Some(b))
  }

  function UpdateFavourite(r: UpdatePushRequest, b: bool): (s: UpdatePushRequest)
    ensures s.favourite == Some(b) && s.(favourite := r.favourite) == r
  {
    r.(favourite := Some(b))
  }

  function UpdateReblog(r: UpdatePushRequest, b: bool): (s: UpdatePushRequest)
    ensures s.reblog == Some(b) && s.(reblog := r.reblog) == r
  {
    r.(reblog := Some(b))
  }

  function UpdateMention(r: UpdatePushRequest, b: bool): (s: UpdatePushRequest)
    ensures s.mention == Some(b) && s.(mention := r.mention) == r
  {
    r.(mention := Some(b))
  }

  /** `flags_present`. */
  predicate UpdateFlagsPresent(r: UpdatePushRequest)
  {
    r.follow.Some? || r.favourite.Some? || r.reblog.Some? || r.mention.Some?
  }

  function UpdateAlerts(r: UpdatePushRequest): Alerts
  {
    Alerts(r.follow, r.favourite, r.reblog, r.mention)
  }

  datatype UpdateData = UpdateData(alerts: Option<Alerts>)
  /** `update_data::Form`. */
  datatype UpdateForm = UpdateForm(id: string, data: UpdateData)

  /**
   * `UpdatePushRequest::build`: the id, and alerts exactly when some flag
   * is present, a flag set to `false` included.
   */
  function BuildUpdate(r: UpdatePushRequest): (f: UpdateForm)
    ensures f.id == r.id
    ensures f.data.alerts.None? <==> !UpdateFlagsPresent(r)
    ensures f.data.alerts.Some? ==> f.data.alerts.value == UpdateAlerts(r)
  {
    var form := UpdateForm(r.id, UpdateData(None));
    if UpdateFlagsPresent(r) then
      var alerts := NoAlerts
        .(follow := if r.follow.Some? then Some(r.follow.value) else NoAlerts.follow)
        .(favourite := if r.favourite.Some? then Some(r.favourite.value) else NoAlerts.favourite)
        .(reblog := if r.reblog.Some? then Some(r.reblog.value) else NoAlerts.reblog)
        .(mention := if r.mention.Some? then Some(r.mention.value) else NoAlerts.mention);
      form.(data := UpdateData(Some(alerts)))
    else form
  }

  /** The request a form was built from. */
  function UpdateRequestOf(f: UpdateForm): UpdatePushRequest
  {
    var a := if f.data.alerts.Some? then f.data.alerts.value else NoAlerts;
    UpdatePushRequest(f.id, a.follow, a.favourite, a.reblog, a.mention)
  }

  lemma BuildUpdateRoundTrip(r: UpdatePushRequest)
    ensures UpdateRequestOf(BuildUpdate(r)) == r
  {
  }

  /** The test with `favourite(false)`: a false flag still produces alerts. */
  lemma BuildUpdateExample()
    ensures BuildUpdate(UpdateFavourite(NewUpdate("some-id"), false))
         == UpdateForm("some-id", UpdateData(Some(Alerts(None, Some(false), None, None))))
  {
  }
}
