/**
 * `StatusBuilder` and `Visibility` (src/status_builder.rs): a new status
 * and the JSON body it is posted as.
 */
module StatusBuilders {
  import opened Wrappers
  import opened Records
  import opened JsonValues

  datatype Visibility = Direct | Private | Unlisted | Public

  /** `Visibility::default()`. */
  function DefaultVisibility(): (v: Visibility)
    ensures v == Public
  {
    Public
  }

  /** The serde name of a visibility: its variant name in lower case. */
  function VisibilityName(v: Visibility): string
  {
    match v
    case Direct => "direct"
    case Private => "private"
    case Unlisted => "unlisted"
    case Public => "public"
  }

  /** Reads a visibility back from its name. */
  function ParseVisibility(s: string): (r: Option<Visibility>)
    ensures r.Some? ==> VisibilityName(r.value) == s
  {
    if s == "direct" then Some(Direct)
    else if s == "private" then Some(Private)
    else if s == "unlisted" then Some(Unlisted)
    else if s == "public" then Some(Public)
    else None
  }

  /** Every name reads back as its visibility, so the four names are distinct. */
  lemma VisibilityNameRoundTrip(v: Visibility)
    ensures ParseVisibility(VisibilityName(v)) == Some(v)
  {
  }

  datatype StatusBuilder = StatusBuilder(
    status: string,
    inReplyToId: Option<nat>,
    mediaIds: Option<seq<nat>>,
    sensitive: Option<bool>,
    spoilerText: Option<string>,
    visibility: Option<Visibility>)

  /** `StatusBuilder::new`: the text, and every optional field unset. */
  function New(status: string): (b: StatusBuilder)
    ensures b.status == status
    ensures b.inReplyToId.None? && b.mediaIds.None? && b.sensitive.None?
    ensures b.spoilerText.None? && b.visibility.None?
  {
    StatusBuilder(status, None, None, None, None, None)
  }

  /** The declared fields in order; only `status` is never skipped. */
  function Declared(b: StatusBuilder): (fs: seq<Field<Value>>)
    ensures FieldKeys(fs) == Keys
  {
    [ Field("status", Some(Str(b.status))),
      Field("in_reply_to_id", if b.inReplyToId.Some? then Some(Number(b.inReplyToId.value)) else None),
      Field("media_ids", if b.mediaIds.Some? then Some(Numbers(b.mediaIds.value)) else None),
      Field("sensitive", if b.sensitive.Some? then Some(Bool(b.sensitive.value)) else None),
      Field("spoiler_text", if b.spoilerText.Some? then Some(Str(b.spoilerText.value)) else None),
      Field("visibility", if b.visibility.Some? then Some(Str(VisibilityName(b.visibility.value))) else None) ]
  }

  const Keys: seq<string> := ["status", "in_reply_to_id", "media_ids", "sensitive", "spoiler_text", "visibility"]

  lemma KeysDistinct()
    ensures forall i, j :: 0 <= i < j < |Keys| ==> Keys[i] != Keys[j]
  {
    assert Keys[0][1] != Keys[3][1];
  }

  /** The JSON body: the declared fields that are set, in declaration order. */
  function ToJson(b: StatusBuilder): (o: Object)
    ensures |o| >= 1 && o[0] == Pair("status", Str(b.status))
  {
    Present(Declared(b))
  }

  /**
   * Each optional field is a member exactly when it is set, with its value;
   * an unset field is left out rather than written as `null`.
   */
  lemma ToJsonCarriesFields(b: StatusBuilder, i: nat)
    requires i < |Keys|
    ensures Lookup(ToJson(b), Keys[i]) == Declared(b)[i].value
  {
    KeysDistinct();
    LookupPresent(Declared(b), i);
  }

  /** Reads a body back: `status` must be a string; other members of the wrong shape count as unset. */
  function FromJson(o: Object): (r: Option<StatusBuilder>)
    ensures r.Some? <==> Lookup(o, "status").Some? && Lookup(o, "status").value.Str?
  {
    match Lookup<Value>(o, "status")
    case Some(Str(s)) =>
      Some(StatusBuilder(
        s,
        match Lookup<Value>(o, "in_reply_to_id") case Some(Number(n)) => Some(n) case _ => None,
        match Lookup<Value>(o, "media_ids") case Some(Numbers(ns)) => Some(ns) case _ => None,
        match Lookup<Value>(o, "sensitive") case Some(Bool(x)) => Some(x) case _ => None,
        match Lookup<Value>(o, "spoiler_text") case Some(Str(t)) => Some(t) case _ => None,
        match Lookup<Value>(o, "visibility") case Some(Str(v)) => ParseVisibility(v) case _ => None))
    case _ => None
  }

  /** Reading the body back gives the builder. */
  lemma JsonRoundTrip(b: StatusBuilder)
    ensures FromJson(ToJson(b)) == Some(b)
  {
    ToJsonCarriesFields(b, 0);
    ToJsonCarriesFields(b, 1);
    ToJsonCarriesFields(b, 2);
    ToJsonCarriesFields(b, 3);
    ToJsonCarriesFields(b, 4);
    ToJsonCarriesFields(b, 5);
    if b.visibility.Some? {
      VisibilityNameRoundTrip(b.visibility.value);
    }
  }

  /** Members are written in declaration order, whichever are left out. */
  lemma KeysInDeclarationOrder(b: StatusBuilder)
    ensures IsSubsequence(PairKeys(ToJson(b)), Keys)
  {
    PresentKeysInOrder(Declared(b));
  }

  /** A fresh builder's body holds the text alone. */
  lemma NewWritesOnlyStatus(text: string)
    ensures ToJson(New(text)) == [Pair("status", Str(text))]
  {
    var fs := Declared(New(text));
    PresentStep(fs, 5);
    assert fs[6..] == [];
    PresentStep(fs, 4);
    PresentStep(fs, 3);
    PresentStep(fs, 2);
    PresentStep(fs, 1);
    PresentStep(fs, 0);
    assert fs[0..] == fs;
  }
}
