/**
 * Two pieces of src/entities/account.rs: the lenient boolean decoder used
 * for `Source::sensitive`, and the multipart form `CredentialsBuilder`
 * writes for a profile update.
 */
module Accounts {
  import opened Wrappers
  import opened Records
  import opened Errors
  import opened JsonValues

  /**
   * `string_or_bool`: a JSON boolean as is, or exactly the text `"true"` or
   * `"false"`. Anything else is the deserializer's error: another string is
   * an invalid value, and a value of another JSON type matches neither arm of
   * the untagged `BoolOrString`.
   */
  function StringOrBool(v: Value): (r: Result<bool, ForeignError>)
    ensures v.Bool? ==> r == Success(v.b)
    ensures v.Str? ==> (r.Success? <==> v.s == "true" || v.s == "false")
    ensures v.Str? && r.Success? ==> (r.value <==> v.s == "true")
    ensures !v.Bool? && !v.Str? ==> r.Failure?
  {
    match v
    case Bool(b) => Success(b)
    case Str(s) =>
      if s == "true" then Success(true)
      else if s == "false" then Success(false)
      else Failure(ForeignError("invalid value: string \"" + s + "\", expected true or false"))
    case _ => Failure(ForeignError("data did not match any variant of untagged enum BoolOrString"))
  }

  /** What the server may send for a boolean that `StringOrBool` accepts. */
  function Encodings(b: bool): seq<Value>
  {
    [Bool(b), Str(if b then "true" else "false")]
  }

  /** Accepted inputs are exactly the two encodings of a boolean, and each decodes to its boolean. */
  lemma StringOrBoolAccepts(v: Value, b: bool)
    ensures StringOrBool(v) == Success(b) <==> v in Encodings(b)
  {
  }

  /** Case matters: `"True"` is refused. */
  lemma StringOrBoolCaseSensitive()
    ensures StringOrBool(Str("True")).Failure? && StringOrBool(Str("FALSE")).Failure?
  {
    assert "True"[0] != "true"[0];
    assert "FALSE"[0] != "false"[0];
  }

  type Path = string

  /** The four optional inputs of a profile update form. */
  datatype CredentialsBuilder = CredentialsBuilder(
    displayName: Option<string>,
    note: Option<string>,
    avatar: Option<Path>,
    header: Option<Path>)

  /** How a field goes into the form: as text, or as the file at a path. */
  datatype Entry = TextEntry(text: string) | FileEntry(path: Path)

  datatype PartContent = TextPart(text: string) | FilePart(path: Path, contents: string)

  /** One part of a multipart form, named after its field. */
  datatype Part = Part(name: string, content: PartContent)

  /** Reads a file: its contents or the I/O error. */
  type FileOpener = Path -> Result<string, ForeignError>

  /** The `add_to_form!` field list, in its order; display name and note as text, avatar and header as files. */
  function Declared(b: CredentialsBuilder): (fs: seq<Field<Entry>>)
    ensures FieldKeys(fs) == ["display_name", "note", "avatar", "header"]
  {
    [ Field("display_name", if b.displayName.Some? then Some(TextEntry(b.displayName.value)) else None),
      Field("note", if b.note.Some? then Some(TextEntry(b.note.value)) else None),
      Field("avatar", if b.avatar.Some? then Some(FileEntry(b.avatar.value)) else None),
      Field("header", if b.header.Some? then Some(FileEntry(b.header.value)) else None) ]
  }

  /** The part a present entry adds, or the I/O error opening its file. */
  function AddPart(name: string, e: Entry, open: FileOpener): Result<Part, Error>
  {
    match e
    case TextEntry(t) => Success(Part(name, TextPart(t)))
    case FileEntry(p) =>
      match open(p)
      case Success(c) => Success(Part(name, FilePart(p, c)))
      case Failure(err) => Failure(From(FromIo(err)))
  }

  /** The form the fields produce, one part per present field; the first file that cannot be read stops it. */
  function Form(fs: seq<Field<Entry>>, open: FileOpener): Result<seq<Part>, Error>
    decreases |fs|
  {
    if |fs| == 0 then Success([])
    else if fs[0].value.None? then Form(fs[1..], open)
    else
      match AddPart(fs[0].key, fs[0].value.value, open)
      case Failure(err) => Failure(err)
      case Success(p) =>
        match Form(fs[1..], open)
        case Failure(err) => Failure(err)
        case Success(ps) => Success([p] + ps)
  }

  function PartNames(ps: seq<Part>): (ns: seq<string>)
    ensures |ns| == |ps| && forall i :: 0 <= i < |ps| ==> ns[i] == ps[i].name
  {
    seq(|ps|, i requires 0 <= i < |ps| => ps[i].name)
  }

  /** A field whose file cannot be read. */
  predicate Unreadable(f: Field<Entry>, open: FileOpener)
  {
    f.value.Some? && f.value.value.FileEntry? && open(f.value.value.path).Failure?
  }

  /** The form is built exactly when no present file is unreadable. */
  lemma {:induction false} FormSucceeds(fs: seq<Field<Entry>>, open: FileOpener)
    ensures Form(fs, open).Success? <==> forall i :: 0 <= i < |fs| ==> !Unreadable(fs[i], open)
    decreases |fs|
  {
    if |fs| > 0 {
      var rest := fs[1..];
      FormSucceeds(rest, open);
      assert forall i :: 1 <= i < |fs| ==> rest[i - 1] == fs[i];
      if fs[0].value.Some? {
        assert AddPart(fs[0].key, fs[0].value.value, open).Failure? <==> Unreadable(fs[0], open);
      }
    }
  }

  /** A built form holds, in order, the part each present field adds. */
  lemma {:induction false} FormParts(fs: seq<Field<Entry>>, open: FileOpener)
    requires Form(fs, open).Success?
    ensures |Form(fs, open).value| == |Present(fs)|
    ensures forall i :: 0 <= i < |Present(fs)| ==>
      AddPart(Present(fs)[i].key, Present(fs)[i].value, open) == Success(Form(fs, open).value[i])
    decreases |fs|
  {
    if |fs| > 0 {
      var rest := fs[1..];
      if fs[0].value.None? {
        assert Present(fs) == Present(rest);
        FormParts(rest, open);
      } else {
        var p := AddPart(fs[0].key, fs[0].value.value, open).value;
        FormParts(rest, open);
        assert Form(fs, open).value == [p] + Form(rest, open).value;
        assert Present(fs) == [Pair(fs[0].key, fs[0].value.value)] + Present(rest);
      }
    }
  }

  /**
   * The form is built exactly when every present file can be read; it then
   * has one part per present field, named after it, in field order. Text
   * fields carry their text and file fields their path and contents.
   */
  lemma FormShape(fs: seq<Field<Entry>>, open: FileOpener)
    ensures Form(fs, open).Success? <==> forall i :: 0 <= i < |fs| ==> !Unreadable(fs[i], open)
    ensures Form(fs, open).Success? ==> PartNames(Form(fs, open).value) == PairKeys(Present(fs))
    ensures Form(fs, open).Success? ==> forall i :: 0 <= i < |Form(fs, open).value| ==>
      AddPart(Present(fs)[i].key, Present(fs)[i].value, open) == Success(Form(fs, open).value[i])
  {
    FormSucceeds(fs, open);
    if Form(fs, open).Success? {
      FormParts(fs, open);
    }
  }

  /** When the form fails, it fails with the I/O error of the first unreadable file. */
  lemma {:induction false} FormFailsAtFirstUnreadable(fs: seq<Field<Entry>>, open: FileOpener, k: nat)
    requires k < |fs| && Unreadable(fs[k], open)
    requires forall i :: 0 <= i < k ==> !Unreadable(fs[i], open)
    ensures Form(fs, open) == Failure(Io(open(fs[k].value.value.path).error))
    decreases |fs|
  {
    if k > 0 {
      assert fs[1..][k - 1] == fs[k];
      assert forall i :: 0 <= i < k - 1 ==> fs[1..][i] == fs[i + 1];
      FormFailsAtFirstUnreadable(fs[1..], open, k - 1);
    }
  }

  /**
   * Whichever of the four inputs are given, the form is built when their
   * files can be read, and its parts are the given inputs in field order.
   */
  lemma FormOfReadableFiles(b: CredentialsBuilder, open: FileOpener)
    requires b.avatar.Some? ==> open(b.avatar.value).Success?
    requires b.header.Some? ==> open(b.header.value).Success?
    ensures Form(Declared(b), open).Success?
    ensures PartNames(Form(Declared(b), open).value) == PairKeys(Present(Declared(b)))
  {
    FormShape(Declared(b), open);
  }

  /** The parts already added, in front of what the remaining fields give. */
  function After(form: seq<Part>, rest: Result<seq<Part>, Error>): Result<seq<Part>, Error>
  {
    if rest.Success? then Success(form + rest.value) else rest
  }

  /** `Form` one field at a time, behind the parts already added. */
  lemma AfterStep(form: seq<Part>, fs: seq<Field<Entry>>, k: nat, open: FileOpener)
    requires k < |fs|
    ensures After(form, Form(fs[k..], open)) ==
      if fs[k].value.None? then After(form, Form(fs[k + 1..], open))
      else match AddPart(fs[k].key, fs[k].value.value, open)
        case Failure(err) => Failure(err)
        case Success(p) => After(form + [p], Form(fs[k + 1..], open))
  {
    assert fs[k..][1..] == fs[k + 1..];
    var rest := Form(fs[k + 1..], open);
    if fs[k].value.Some? && AddPart(fs[k].key, fs[k].value.value, open).Success? && rest.Success? {
      var p := AddPart(fs[k].key, fs[k].value.value, open).value;
      assert form + ([p] + rest.value) == form + [p] + rest.value;
    }
  }

  /**
   * One `add_to_form!` arm: a text field adds its text, a file field opens
   * its file and adds it, an absent field adds nothing. What is left of
   * the form is unchanged by the step.
   */
  method AddToForm(fs: seq<Field<Entry>>, k: nat, form: seq<Part>, open: FileOpener) returns (r: Result<seq<Part>, Error>)
    requires k < |fs|
    ensures r.Failure? ==> r == After(form, Form(fs[k..], open))
    ensures r.Success? ==> After(r.value, Form(fs[k + 1..], open)) == After(form, Form(fs[k..], open))
  {
    AfterStep(form, fs, k, open);
    if fs[k].value.None? {
      return Success(form);
    }
    match fs[k].value.value
    case TextEntry(t) =>
      r := Success(form + [Part(fs[k].key, TextPart(t))]);
    case FileEntry(path) =>
      var file := open(path);
      if file.Failure? {
        return Failure(Io(file.error));
      }
      r := Success(form + [Part(fs[k].key, FilePart(path, file.value))]);
  }

  /** `CredentialsBuilder::into_form`: the `add_to_form!` expansion, field by field. */
  method IntoForm(b: CredentialsBuilder, open: FileOpener) returns (r: Result<seq<Part>, Error>)
    ensures r == Form(Declared(b), open)
  {
    var fs := Declared(b);
    assert fs[0..] == fs;
    var whole := Form(fs, open);
    assert whole.Success? ==> [] + whole.value == whole.value;
    assert whole == After([], Form(fs[0..], open));
    r := AddToForm(fs, 0, [], open);
    if r.Failure? {
      return;
    }
    r := AddToForm(fs, 1, r.value, open);
    if r.Failure? {
      return;
    }
    r := AddToForm(fs, 2, r.value, open);
    if r.Failure? {
      return;
    }
    r := AddToForm(fs, 3, r.value, open);
    if r.Failure? {
      return;
    }
    assert fs[4..] == [] && r.value + [] == r.value;
  }
}
