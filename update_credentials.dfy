/**
 * `UpdateCredsRequest` (src/requests/update_credentials.rs): the builder
 * passed to `update_credentials`, and the `Credentials` record it builds.
 * `Credentials`, `UpdateSource` and `MetadataField` are defined in a version
 * of src/entities/account.rs that is not part of this model; their fields
 * are the ones `build` fills in.
 */
module UpdateCredentials {
  import opened Wrappers
  import opened Errors
  import opened StatusBuilders

  /** One profile metadata entry, a name and a value. */
  datatype MetadataField = MetadataField(name: string, value: string)

  /** A file system path, as text. */
  type Path = string

  datatype UpdateCredsRequest = UpdateCredsRequest(
    displayName: Option<string>,
    note: Option<string>,
    avatar: Option<Path>,
    header: Option<Path>,
    fieldAttributes: seq<MetadataField>,
    privacy: Option<Visibility>,
    sensitive: Option<bool>)

  datatype UpdateSource = UpdateSource(privacy: Option<Visibility>, sensitive: Option<bool>)

  datatype Credentials = Credentials(
    displayName: Option<string>,
    note: Option<string>,
    avatar: Option<Path>,
    header: Option<Path>,
    source: Option<UpdateSource>,
    fieldsAttributes: seq<MetadataField>)

  /** `UpdateCredsRequest::new`: the derived default, nothing set. */
  function New(): (r: UpdateCredsRequest)
    ensures r.displayName.None? && r.note.None? && r.avatar.None? && r.header.None?
    ensures r.fieldAttributes == [] && r.privacy.None? && r.sensitive.None?
  {
    UpdateCredsRequest(None, None, None, None, [], None, None)
  }

  function DisplayName(r: UpdateCredsRequest, name: string): (s: UpdateCredsRequest)
    ensures s.displayName == Some(name) && s.(displayName := r.displayName) == r
  {
    r.(displayName := Some(name))
  }

  function Note(r: UpdateCredsRequest, note: string): (s: UpdateCredsRequest)
    ensures s.note == Some(note) && s.(note := r.note) == r
  {
    r.(note := Some(note))
  }

  function Avatar(r: UpdateCredsRequest, path: Path): (s: UpdateCredsRequest)
    ensures s.avatar == Some(path) && s.(avatar := r.avatar) == r
  {
    r.(avatar := Some(path))
  }

  function Header(r: UpdateCredsRequest, path: Path): (s: UpdateCredsRequest)
    ensures s.header == Some(path) && s.(header := r.header) == r
  {
    r.(header := Some(path))
  }

  function Privacy(r: UpdateCredsRequest, v: Visibility): (s: UpdateCredsRequest)
    ensures s.privacy == Some(v) && s.(privacy := r.privacy) == r
  {
    r.(privacy := Some(v))
  }

  function Sensitive(r: UpdateCredsRequest, b: bool): (s: UpdateCredsRequest)
    ensures s.sensitive == Some(b) && s.(sensitive := r.sensitive) == r
  {
    r.(sensitive := Some(b))
  }

  /** `field_attribute`: one more entry at the end, the earlier ones kept in order. */
  function FieldAttribute(r: UpdateCredsRequest, name: string, value: string): (s: UpdateCredsRequest)
    ensures |s.fieldAttributes| == |r.fieldAttributes| + 1
    ensures s.fieldAttributes[..|r.fieldAttributes|] == r.fieldAttributes
    ensures s.fieldAttributes[|r.fieldAttributes|] == MetadataField(name, value)
    ensures s.(fieldAttributes := r.fieldAttributes) == r
  {
    r.(fieldAttributes := r.fieldAttributes + [MetadataField(name, value)])
  }

  /** `field_attribute` called once per entry, in order. */
  function FieldAttributes(r: UpdateCredsRequest, entries: seq<MetadataField>): UpdateCredsRequest
    decreases |entries|
  {
    if |entries| == 0 then r
    else FieldAttributes(FieldAttribute(r, entries[0].name, entries[0].value), entries[1..])
  }

  /** Successive `field_attribute` calls keep their entries in call order after the existing ones. */
  lemma {:induction false} FieldAttributesInOrder(r: UpdateCredsRequest, entries: seq<MetadataField>)
    ensures FieldAttributes(r, entries).fieldAttributes == r.fieldAttributes + entries
    ensures FieldAttributes(r, entries).(fieldAttributes := r.fieldAttributes) == r
    decreases |entries|
  {
    if |entries| > 0 {
      var s := FieldAttribute(r, entries[0].name, entries[0].value);
      FieldAttributesInOrder(s, entries[1..]);
      assert s.fieldAttributes + entries[1..] == r.fieldAttributes + entries;
    }
  }

  /** `build` as written: the credentials' header is taken from `avatar`. */
  function BuildAsWritten(r: UpdateCredsRequest): (c: Result<Credentials, Error>)
    ensures c.Success?
    ensures c.value.displayName == r.displayName && c.value.note == r.note
    ensures c.value.avatar == r.avatar && c.value.header == r.avatar
    ensures c.value.source == Some(UpdateSource(r.privacy, r.sensitive))
    ensures c.value.fieldsAttributes == r.fieldAttributes
  {
    Success(Credentials(r.displayName, r.note, r.avatar, r.avatar, Some(UpdateSource(r.privacy, r.sensitive)), r.fieldAttributes))
  }

  /** A header set on its own is dropped by the written `build`, which loses it to the unset avatar. */
  lemma HeaderDroppedAsWritten()
    ensures Header(New(), "/path/to/header.png").header == Some("/path/to/header.png")
    ensures BuildAsWritten(Header(New(), "/path/to/header.png")).value.header == None
  {
  }

  /** `build` with the header taken from `header`. */
  function Build(r: UpdateCredsRequest): (c: Result<Credentials, Error>)
    ensures c.Success?
    ensures c.value.displayName == r.displayName && c.value.note == r.note
    ensures c.value.avatar == r.avatar && c.value.header == r.header
    ensures c.value.source == Some(UpdateSource(r.privacy, r.sensitive))
    ensures c.value.fieldsAttributes == r.fieldAttributes
  {
    Success(Credentials(r.displayName, r.note, r.avatar, r.header, Some(UpdateSource(r.privacy, r.sensitive)), r.fieldAttributes))
  }

  /** The request a set of credentials was built from. */
  function RequestOf(c: Credentials): UpdateCredsRequest
  {
    var privacy := if c.source.Some? then c.source.value.privacy else None;
    var sensitive := if c.source.Some? then c.source.value.sensitive else None;
    UpdateCredsRequest(c.displayName, c.note, c.avatar, c.header, c.fieldsAttributes, privacy, sensitive)
  }

  /** Nothing the request holds is lost by `build`: it can be read back from the credentials. */
  lemma BuildRoundTrip(r: UpdateCredsRequest)
    ensures RequestOf(Build(r).value) == r
  {
  }

  /** Two requests build the same credentials only when they are the same request. */
  lemma BuildInjective(r: UpdateCredsRequest, s: UpdateCredsRequest)
    ensures Build(r) == Build(s) <==> r == s
  {
    BuildRoundTrip(r);
    BuildRoundTrip(s);
  }

  /** The written `build` maps two different requests to the same credentials. */
  lemma BuildAsWrittenNotInjective()
    ensures Header(New(), "/h.png") != New()
    ensures BuildAsWritten(Header(New(), "/h.png")) == BuildAsWritten(New())
  {
  }

  /**
   * The tests' build case: name and note set, an empty source block, nothing
   * else. With no avatar and no header, the corrected build agrees.
   */
  lemma BuildExample()
    ensures BuildAsWritten(Note(DisplayName(New(), "test"), "a note")) ==
      Success(Credentials(Some("test"), Some("a note"), None, None, Some(UpdateSource(None, None)), []))
    ensures Build(Note(DisplayName(New(), "test"), "a note")) == BuildAsWritten(Note(DisplayName(New(), "test"), "a note"))
  {
  }
}
