/**
 * `Scopes` (src/scopes.rs): the permission scope an application asks for.
 * src/apps.rs:100-151 declares the same enum, with the same serde names,
 * display table and default; one definition serves both here.
 */
module Scopes {
  import opened Wrappers

  datatype Scope = All | Follow | Read | ReadFollow | ReadWrite | Write | WriteFollow

  /** The permission words a scope grants, in the order its names list them. */
  function Words(s: Scope): (ws: seq<string>)
    ensures 1 <= |ws| <= 3
  {
    match s
    case All => ["read", "write", "follow"]
    case Follow => ["follow"]
    case Read => ["read"]
    case ReadFollow => ["read", "follow"]
    case ReadWrite => ["read", "write"]
    case Write => ["write"]
    case WriteFollow => ["write", "follow"]
  }

  /** The serde rename: the words separated by single spaces. */
  function SerdeName(s: Scope): string
  {
    match s
    case All => "read write follow"
    case Follow => "follow"
    case Read => "read"
    case ReadFollow => "read follow"
    case ReadWrite => "read write"
    case Write => "write"
    case WriteFollow => "write follow"
  }

  /** `Display`: the table the client puts into URLs. */
  function Display(s: Scope): string
  {
    match s
    case All => "read%20write%20follow"
    case Follow => "follow"
    case Read => "read"
    case ReadFollow => "read%20follow"
    case ReadWrite => "read%20write"
    case Write => "write"
    case WriteFollow => "write%20follow"
  }

  /** `Scopes::default()`. */
  function Default(): (s: Scope)
    ensures s == Read
  {
    Read
  }

  /** Each space written as `%20`, everything else kept. */
  function EncodeSpaces(s: string): string
    decreases |s|
  {
    if |s| == 0 then ""
    else (if s[0] == ' ' then "%20" else [s[0]]) + EncodeSpaces(s[1..])
  }

  lemma {:induction false} EncodeSpacesAppend(a: string, b: string)
    ensures EncodeSpaces(a + b) == EncodeSpaces(a) + EncodeSpaces(b)
    decreases |a|
  {
    if |a| == 0 {
      assert a + b == b;
    } else {
      assert (a + b)[1..] == a[1..] + b;
      EncodeSpacesAppend(a[1..], b);
    }
  }

  lemma {:induction false} EncodeSpacesNoSpace(s: string)
    requires ' ' !in s
    ensures EncodeSpaces(s) == s
    decreases |s|
  {
    if |s| > 0 {
      assert ' ' !in s[1..];
      EncodeSpacesNoSpace(s[1..]);
      assert [s[0]] + s[1..] == s;
    }
  }

  /** The words joined by `sep`. */
  function JoinWords(ws: seq<string>, sep: string): string
    decreases |ws|
  {
    if |ws| == 0 then ""
    else if |ws| == 1 then ws[0]
    else ws[0] + sep + JoinWords(ws[1..], sep)
  }

  /** Encoding the spaces of space-joined words joins them with `%20`. */
  lemma {:induction false} EncodeJoinedWords(ws: seq<string>)
    requires forall i :: 0 <= i < |ws| ==> ' ' !in ws[i]
    ensures EncodeSpaces(JoinWords(ws, " ")) == JoinWords(ws, "%20")
    decreases |ws|
  {
    if |ws| == 1 {
      EncodeSpacesNoSpace(ws[0]);
    } else if |ws| > 1 {
      EncodeJoinedWords(ws[1..]);
      EncodeSpacesAppend(ws[0] + " ", JoinWords(ws[1..], " "));
      EncodeSpacesAppend(ws[0], " ");
      EncodeSpacesNoSpace(ws[0]);
      assert EncodeSpaces(" ") == "%20";
    }
  }

  /** Both tables are the scope's words: joined by a space for serde, by `%20` for display. */
  lemma NamesAreJoinedWords(s: Scope)
    ensures SerdeName(s) == JoinWords(Words(s), " ")
    ensures Display(s) == JoinWords(Words(s), "%20")
  {
    match s
    case All => AllJoined();
    case ReadFollow => ReadFollowJoined();
    case ReadWrite => ReadWriteJoined();
    case WriteFollow => WriteFollowJoined();
    case _ =>
  }

  lemma JoinTwo(a: string, b: string, sep: string)
    ensures JoinWords([a, b], sep) == a + sep + b
  {
    assert [a, b][1..] == [b];
  }

  lemma ReadFollowJoined()
    ensures SerdeName(ReadFollow) == JoinWords(Words(ReadFollow), " ")
    ensures Display(ReadFollow) == JoinWords(Words(ReadFollow), "%20")
  {
    JoinTwo("read", "follow", " ");
    JoinTwo("read", "follow", "%20");
    assert "read" + " " + "follow" == "read follow";
    assert "read" + "%20" + "follow" == "read%20follow";
  }

  lemma ReadWriteJoined()
    ensures SerdeName(ReadWrite) == JoinWords(Words(ReadWrite), " ")
    ensures Display(ReadWrite) == JoinWords(Words(ReadWrite), "%20")
  {
    JoinTwo("read", "write", " ");
    JoinTwo("read", "write", "%20");
    assert "read" + " " + "write" == "read write";
    assert "read" + "%20" + "write" == "read%20write";
  }

  lemma WriteFollowJoined()
    ensures SerdeName(WriteFollow) == JoinWords(Words(WriteFollow), " ")
    ensures Display(WriteFollow) == JoinWords(Words(WriteFollow), "%20")
  {
    JoinTwo("write", "follow", " ");
    JoinTwo("write", "follow", "%20");
    assert "write" + " " + "follow" == "write follow";
    assert "write" + "%20" + "follow" == "write%20follow";
  }

  lemma JoinThree(a: string, b: string, c: string, sep: string)
    ensures JoinWords([a, b, c], sep) == a + sep + (b + sep + c)
  {
    assert [a, b, c][1..] == [b, c];
    JoinTwo(b, c, sep);
  }

  /** `All`: three words. */
  lemma AllJoined()
    ensures SerdeName(All) == JoinWords(Words(All), " ")
    ensures Display(All) == JoinWords(Words(All), "%20")
  {
    JoinThree("read", "write", "follow", " ");
    JoinThree("read", "write", "follow", "%20");
    assert "read" + " " + ("write" + " " + "follow") == "read write follow";
    assert "read" + "%20" + ("write" + "%20" + "follow") == "read%20write%20follow";
  }

  /** The display string is the serde name with every space written as `%20`. */
  lemma DisplayEncodesSerdeName(s: Scope)
    ensures Display(s) == EncodeSpaces(SerdeName(s))
  {
    NamesAreJoinedWords(s);
    var ws := Words(s);
    assert forall i :: 0 <= i < |ws| ==> ' ' !in ws[i];
    EncodeJoinedWords(ws);
  }

  /** Reads a scope back from its display string. */
  function ParseDisplay(t: string): (r: Option<Scope>)
    ensures r.Some? ==> Display(r.value) == t
  {
    if t == "read%20write%20follow" then Some(All)
    else if t == "follow" then Some(Follow)
    else if t == "read" then Some(Read)
    else if t == "read%20follow" then Some(ReadFollow)
    else if t == "read%20write" then Some(ReadWrite)
    else if t == "write" then Some(Write)
    else if t == "write%20follow" then Some(WriteFollow)
    else None
  }

  /** Every display string reads back as its scope. */
  lemma ParseDisplayRoundTrip(s: Scope)
    ensures ParseDisplay(Display(s)) == Some(s)
  {
  }

  /** The seven display strings are pairwise distinct. */
  lemma DisplayDistinct(s: Scope, t: Scope)
    ensures Display(s) == Display(t) <==> s == t
  {
    ParseDisplayRoundTrip(s);
    ParseDisplayRoundTrip(t);
  }
}
