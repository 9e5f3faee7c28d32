/**
 * `AddFilterRequest` (src/requests/filter.rs): the body of a new keyword
 * filter. Unlike the status builder it writes every member, unset ones as
 * `null`, and its expiry as a whole number of seconds.
 */
module FilterRequests {
  import opened Wrappers
  import opened Records
  import opened JsonValues

  /**
   * Where a filter applies. The enum lives in src/entities/filter.rs, which
   * is not part of this model; its serde names are the variant names in
   * lower case, as the request's own serialisation example shows for `home`.
   */
  datatype FilterContext = Home | Notifications | Public | Thread

  function ContextName(c: FilterContext): string
  {
    match c
    case Home => "home"
    case Notifications => "notifications"
    case Public => "public"
    case Thread => "thread"
  }

  function ParseContext(s: string): (r: Option<FilterContext>)
    ensures r.Some? ==> ContextName(r.value) == s
  {
    if s == "home" then Some(Home)
    else if s == "notifications" then Some(Notifications)
    else if s == "public" then Some(Public)
    else if s == "thread" then Some(Thread)
    else None
  }

  /** Every context name reads back as its context. */
  lemma ContextNameRoundTrip(c: FilterContext)
    ensures ParseContext(ContextName(c)) == Some(c)
  {
  }

  const NanosPerSecond: nat := 1_000_000_000

  /** A `std::time::Duration`, as its total number of nanoseconds. */
  datatype Duration = Duration(nanos: nat)

  /** `Duration::from_secs`. */
  function FromSecs(secs: nat): (d: Duration)
    ensures d.nanos % NanosPerSecond == 0 && d.nanos / NanosPerSecond == secs
  {
    Duration(secs * NanosPerSecond)
  }

  /** `Duration::as_secs`: the whole seconds, the sub-second part dropped. */
  function AsSecs(d: Duration): (secs: nat)
    ensures secs * NanosPerSecond <= d.nanos < (secs + 1) * NanosPerSecond
  {
    d.nanos / NanosPerSecond
  }

  datatype AddFilterRequest = AddFilterRequest(
    phrase: string,
    context: FilterContext,
    irreversible: Option<bool>,
    wholeWord: Option<bool>,
    expiresIn: Option<Duration>)

  /** `AddFilterRequest::new`: phrase and context, nothing else set. */
  function New(phrase: string, context: FilterContext): (r: AddFilterRequest)
    ensures r.phrase == phrase && r.context == context
    ensures r.irreversible.None? && r.wholeWord.None? && r.expiresIn.None?
  {
    AddFilterRequest(phrase, context, None, None, None)
  }

  function Irreversible(r: AddFilterRequest): (s: AddFilterRequest)
    ensures s.irreversible == Some(true) && s.(irreversible := r.irreversible) == r
  {
    r.(irreversible := Some(true))
  }

  function WholeWord(r: AddFilterRequest): (s: AddFilterRequest)
    ensures s.wholeWord == Some(true) && s.(wholeWord := r.wholeWord) == r
  {
    r.(wholeWord := Some(true))
  }

  function ExpiresIn(r: AddFilterRequest, d: Duration): (s: AddFilterRequest)
    ensures s.expiresIn == Some(d) && s.(expiresIn := r.expiresIn) == r
  {
    r.(expiresIn := Some(d))
  }

  /** `serialize_duration::ser`: whole seconds, or `null` when unset. */
  function SerializeDuration(d: Option<Duration>): (v: Value)
    ensures d.None? <==> v == Null
    ensures d.Some? ==> v.Number? && v.n * NanosPerSecond <= d.value.nanos < (v.n + 1) * NanosPerSecond
  {
    match d
    case None => Null
    case Some(x) => Number(AsSecs(x))
  }

  /** An optional boolean as serde writes it: `null` when unset. */
  function OptionalBool(b: Option<bool>): (v: Value)
    ensures b.None? <==> v == Null
    ensures b.Some? ==> v == Bool(b.value)
  {
    if b.Some? then Bool(b.value) else Null
  }

  const Keys: seq<string> := ["phrase", "context", "irreversible", "whole_word", "expires_in"]

  lemma KeysDistinct()
    ensures forall i, j :: 0 <= i < j < |Keys| ==> Keys[i] != Keys[j]
  {
    assert Keys[0][0] != Keys[1][0] && Keys[0][0] != Keys[2][0];
    assert Keys[3][0] != Keys[4][0] && Keys[1][0] != Keys[4][0];
  }

  /** The JSON body: all five members, in declaration order. */
  function ToJson(r: AddFilterRequest): (o: Object)
    ensures PairKeys(o) == Keys
  {
    [ Pair("phrase", Str(r.phrase)),
      Pair("context", Str(ContextName(r.context))),
      Pair("irreversible", OptionalBool(r.irreversible)),
      Pair("whole_word", OptionalBool(r.wholeWord)),
      Pair("expires_in", SerializeDuration(r.expiresIn)) ]
  }

  /** An optional boolean read back: `null` is unset. */
  function ReadBool(v: Option<Value>): Option<bool>
  {
    match v
    case Some(Bool(b)) => Some(b)
    case _ => None
  }

  /** An expiry read back: a number of seconds, or unset. */
  function ReadDuration(v: Option<Value>): Option<Duration>
  {
    match v
    case Some(Number(n)) => Some(FromSecs(n))
    case _ => None
  }

  /** Reads a body back; a phrase and a known context are required. */
  function FromJson(o: Object): (r: Option<AddFilterRequest>)
    ensures r.Some? ==> Lookup(o, "phrase") == Some(Str(r.value.phrase))
    ensures r.Some? ==> Lookup(o, "context") == Some(Str(ContextName(r.value.context)))
  {
    match (Lookup<Value>(o, "phrase"), Lookup<Value>(o, "context"))
    case (Some(Str(p)), Some(Str(c))) =>
      var context := ParseContext(c);
      if context.None? then None
      else
        Some(AddFilterRequest(
          p, context.value,
          ReadBool(Lookup(o, "irreversible")),
          ReadBool(Lookup(o, "whole_word")),
          ReadDuration(Lookup(o, "expires_in"))))
    case _ => None
  }

  /** The request with its expiry cut down to whole seconds. */
  function WholeSeconds(r: AddFilterRequest): (s: AddFilterRequest)
    ensures s.(expiresIn := r.expiresIn) == r
    ensures r.expiresIn.None? <==> s.expiresIn.None?
    ensures s.expiresIn.Some? ==> s.expiresIn.value.nanos <= r.expiresIn.value.nanos < s.expiresIn.value.nanos + NanosPerSecond
  {
    if r.expiresIn.Some? then r.(expiresIn := Some(FromSecs(AsSecs(r.expiresIn.value)))) else r
  }

  /** Reading a body back gives the request, except for the sub-second part of its expiry. */
  lemma JsonRoundTrip(r: AddFilterRequest)
    ensures FromJson(ToJson(r)) == Some(WholeSeconds(r))
  {
    JsonMembers(r);
    ContextNameRoundTrip(r.context);
    assert ReadBool(Some(OptionalBool(r.irreversible))) == r.irreversible;
    assert ReadBool(Some(OptionalBool(r.wholeWord))) == r.wholeWord;
    ReadExpiry(r.expiresIn);
  }

  /** The expiry read back: its whole seconds, or unset. */
  lemma ReadExpiry(d: Option<Duration>)
    ensures ReadDuration(Some(SerializeDuration(d))) == (if d.Some? then Some(FromSecs(AsSecs(d.value))) else None)
  {
  }

  /** Each member of the body is found under its key. */
  lemma JsonMembers(r: AddFilterRequest)
    ensures Lookup(ToJson(r), "phrase") == Some(Str(r.phrase))
    ensures Lookup(ToJson(r), "context") == Some(Str(ContextName(r.context)))
    ensures Lookup(ToJson(r), "irreversible") == Some(OptionalBool(r.irreversible))
    ensures Lookup(ToJson(r), "whole_word") == Some(OptionalBool(r.wholeWord))
    ensures Lookup(ToJson(r), "expires_in") == Some(SerializeDuration(r.expiresIn))
  {
    var o := ToJson(r);
    assert forall a, b :: 0 <= a < b < |o| ==> o[a].key != o[b].key by {
      KeysDistinct();
    }
    LookupAt(o, 0);
    LookupAt(o, 1);
    LookupAt(o, 2);
    LookupAt(o, 3);
    LookupAt(o, 4);
  }

  /** An expiry survives the round trip exactly when it is a whole number of seconds. */
  lemma JsonRoundTripExact(r: AddFilterRequest)
    ensures FromJson(ToJson(r)) == Some(r) <==> (r.expiresIn.Some? ==> r.expiresIn.value.nanos % NanosPerSecond == 0)
  {
    JsonRoundTrip(r);
  }

  /** `new("foo", Home).expires_in(300 s)` writes both flags as `null` and the expiry as 300. */
  lemma SerializeExample()
    ensures ToJson(ExpiresIn(New("foo", Home), FromSecs(300))) ==
      [ Pair("phrase", Str("foo")), Pair("context", Str("home")), Pair("irreversible", Null),
        Pair("whole_word", Null), Pair("expires_in", Number(300)) ]
  {
  }

  /** A duration of 300.5 s is written as 300, like one of exactly 300 s. */
  lemma SubSecondDropped()
    ensures SerializeDuration(Some(Duration(300 * NanosPerSecond + 500_000_000))) == Number(300)
  {
  }
}
