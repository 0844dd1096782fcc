/** Attribute path names (src/response.cc).

    A path is a list of attribute names.  `JoinAttrPath` prints it the way Nix
    prints attribute names, and the printed name is the key under which the
    collector files a job.  The program never parses the name back; here a
    decoder is defined for the proof only, and shown to invert the printer, so
    that two different paths can never share a key. */
module AttrPath {

  predicate IsAlpha(c: char) { 'a' <= c <= 'z' || 'A' <= c <= 'Z' }

  predicate IsIdentifierStart(c: char) { IsAlpha(c) || c == '_' }

  predicate IsIdentifierChar(c: char) {
    IsAlpha(c) || '0' <= c <= '9' || c == '_' || c == '\'' || c == '-'
  }

  predicate IsPlainIdentifier(s: string) {
    && s != ""
    && IsIdentifierStart(s[0])
    && forall i | 0 <= i < |s| :: IsIdentifierChar(s[i])
  }

  predicate NeedsEscape(c: char) { c == '"' || c == '\\' || c == '$' }

  function Escape(s: string): string {
    if s == "" then ""
    else (if NeedsEscape(s[0]) then "\\" else "") + [s[0]] + Escape(s[1..])
  }

  function ShowElement(s: string): string {
    if IsPlainIdentifier(s) then s else "\"" + (Escape(s) + "\"")
  }

  function Join(path: seq<string>): string
    decreases |path|, 0
  {
    if path == [] then "" else ShowElement(path[0]) + JoinRest(path[1..])
  }

  /** What is printed for the names that follow an earlier one. */
  function JoinRest(path: seq<string>): string
    decreases |path|, 1
  {
    if path == [] then "" else "." + Join(path)
  }

  /** The quoted form of one name, character by character. */
  method AppendQuoted(before: string, part: string) returns (joined: string)
    ensures joined == before + ("\"" + (Escape(part) + "\""))
  {
    joined := before + "\"";
    for k := 0 to |part|
      invariant joined + Escape(part[k..]) == before + "\"" + Escape(part)
    {
      assert part[k..][1..] == part[k + 1..];
      ghost var sofar := joined;
      var c := part[k];
      if c == '"' || c == '\\' || c == '$' {
        joined := joined + "\\";
      }
      joined := joined + [c];
      assert joined + Escape(part[k + 1..]) == sofar + Escape(part[k..]);
    }
    assert joined + "" == joined;
    joined := joined + "\"";
    Regroup(before, "\"", Escape(part), "\"");
  }

  method AppendElement(before: string, part: string) returns (joined: string)
    ensures joined == before + ShowElement(part)
  {
    if IsPlainIdentifier(part) {
      joined := before + part;
    } else {
      joined := AppendQuoted(before, part);
    }
  }

  lemma Regroup(sofar: string, sep: string, element: string, rest: string)
    ensures sofar + sep + element + rest == sofar + (sep + (element + rest))
  {}

  lemma RegroupDots(a: string, b: string, c: string)
    ensures a + ("." + (b + "." + c)) == a + ("." + b) + "." + c
  {}

  /** What is still to be printed when `n` names are. */
  function Pending(path: seq<string>, n: nat): string
    requires n <= |path|
  {
    if n == 0 then Join(path) else JoinRest(path[n..])
  }

  lemma PendingStep(path: seq<string>, n: nat, sofar: string)
    requires n < |path|
    ensures sofar + (if n == 0 then "" else ".") + ShowElement(path[n]) + Pending(path, n + 1)
         == sofar + Pending(path, n)
  {
    assert path[n..][1..] == path[n + 1..];
    var sep := if n == 0 then "" else ".";
    Regroup(sofar, sep, ShowElement(path[n]), JoinRest(path[n + 1..]));
    assert Join(path[n..]) == ShowElement(path[n]) + JoinRest(path[n + 1..]);
    assert Pending(path, n) == sep + Join(path[n..]) by {
      assert path[0..] == path;
    }
  }

  method JoinAttrPath(path: seq<string>) returns (joined: string)
    ensures joined == Join(path)
    ensures path == [] ==> joined == ""
    ensures |path| == 1 ==> ShownAsIs(path[0], joined) || ShownInQuotes(path[0], joined)
  {
    joined := "";
    var first := true;
    for n := 0 to |path|
      invariant first <==> n == 0
      invariant joined + Pending(path, n) == Join(path)
    {
      PendingStep(path, n, joined);
      if !first {
        joined := joined + ".";
      }
      first := false;
      joined := AppendElement(joined, path[n]);
    }
    if |path| == 1 {
      assert path == [path[0]];
      OneName(path[0]);
    }
  }

  // ---- What a name looks like --------------------------------------------

  /** A name of letters, digits, `_`, `'` and `-` that starts with a letter or `_`. */
  predicate NeedsNoQuotes(name: string) {
    && name != ""
    && ('a' <= name[0] <= 'z' || 'A' <= name[0] <= 'Z' || name[0] == '_')
    && forall i | 0 <= i < |name| ::
         || 'a' <= name[i] <= 'z' || 'A' <= name[i] <= 'Z' || '0' <= name[i] <= '9'
         || name[i] == '_' || name[i] == '\'' || name[i] == '-'
  }

  /** How many quotes, backslashes and dollars `s` has. */
  function Specials(s: string): nat {
    if s == "" then 0
    else (if s[0] == '"' || s[0] == '\\' || s[0] == '$' then 1 else 0) + Specials(s[1..])
  }

  /** In `body` the character at `i` of `name` stands behind one backslash for each quote,
      backslash and dollar up to it, one of them its own if it is such a character. */
  predicate StandsAt(name: string, body: string, i: nat)
    requires i < |name|
  {
    var at := i + Specials(name[..i + 1]);
    && at < |body| && body[at] == name[i]
    && (name[i] == '"' || name[i] == '\\' || name[i] == '$' ==> at > 0 && body[at - 1] == '\\')
  }

  /** `body` is `name` with a backslash before each quote, backslash and dollar. */
  predicate Escapes(name: string, body: string) {
    |body| == |name| + Specials(name) && forall i | 0 <= i < |name| :: StandsAt(name, body, i)
  }

  predicate ShownAsIs(name: string, shown: string) {
    NeedsNoQuotes(name) && shown == name
  }

  ghost predicate ShownInQuotes(name: string, shown: string) {
    !NeedsNoQuotes(name) && exists body :: shown == "\"" + (body + "\"") && Escapes(name, body)
  }

  /** How the first character is printed. */
  function EscapedHead(s: string): string
    requires s != ""
  {
    (if NeedsEscape(s[0]) then "\\" else "") + [s[0]]
  }

  lemma EscapedFirst(s: string)
    requires s != ""
    ensures Escape(s) == EscapedHead(s) + Escape(s[1..])
    ensures |EscapedHead(s)| == 1 + Specials(s[..1])
  {
    assert s[..1] == [s[0]] && [s[0]][1..] == "";
  }

  lemma SpecialsFirst(s: string, i: nat)
    requires 0 < i < |s|
    ensures Specials(s[..i + 1]) == Specials(s[..1]) + Specials(s[1..][..i])
  {
    assert s[..1] == [s[0]] && [s[0]][1..] == "";
    assert s[..i + 1][1..] == s[1..][..i];
  }

  lemma StandsLater(s: string, i: nat)
    requires 0 < i < |s| && StandsAt(s[1..], Escape(s[1..]), i - 1)
    ensures StandsAt(s, Escape(s), i)
  {
    hide Escape, Specials, EscapedHead;
    EscapedFirst(s);
    SpecialsFirst(s, i);
    var c := s[i];
    var head, tail, at := EscapedHead(s), Escape(s[1..]), i - 1 + Specials(s[1..][..i]);
    assert i - 1 + 1 == i && s[1..][i - 1] == c;
    var special := c == '"' || c == '\\' || c == '$';
    assert at < |tail| && tail[at] == c && (special ==> at > 0 && tail[at - 1] == '\\');
    Shifted(head, tail, c, special, at);
    assert |head| + at == i + Specials(s[..i + 1]);
  }

  lemma Shifted(head: string, tail: string, c: char, special: bool, at: nat)
    requires at < |tail| && tail[at] == c && (special ==> at > 0 && tail[at - 1] == '\\')
    ensures |head| + at < |head + tail| && (head + tail)[|head| + at] == c
    ensures special ==> |head| + at > 0 && (head + tail)[|head| + at - 1] == '\\'
  {}

  lemma StandsFirst(s: string)
    requires s != ""
    ensures StandsAt(s, Escape(s), 0)
  {
    assert s[..1] == [s[0]] && [s[0]][1..] == "";
  }

  lemma {:induction false} EscapeEscapes(s: string)
    ensures Escapes(s, Escape(s))
  {
    if s != "" {
      EscapeEscapes(s[1..]);
      hide StandsAt;
      StandsFirst(s);
      forall i | 0 < i < |s|
        ensures StandsAt(s, Escape(s), i)
      {
        StandsLater(s, i);
      }
    }
  }

  /** A name alone is printed as it is if and only if it needs no quotes, and
      otherwise in quotes, escaped. */
  lemma OneName(name: string)
    ensures Join([name]) == name <==> NeedsNoQuotes(name)
    ensures ShownAsIs(name, Join([name])) || ShownInQuotes(name, Join([name]))
  {
    assert Join([name]) == ShowElement(name) + "";
    EscapeEscapes(name);
    if !NeedsNoQuotes(name) {
      assert Join([name]) == "\"" + (Escape(name) + "\"");
    }
  }

  /** Names are separated by single dots, and nothing else is added. */
  lemma {:induction false} JoinedByDots(p: seq<string>, q: seq<string>)
    requires p != [] && q != []
    ensures Join(p + q) == Join(p) + "." + Join(q)
  {
    var rest := p[1..];
    assert (p + q)[1..] == rest + q && (p + q)[0] == p[0];
    assert Join(p + q) == ShowElement(p[0]) + JoinRest(rest + q);
    if rest == [] {
      assert Join(p) == ShowElement(p[0]) + "" && rest + q == q;
    } else {
      JoinedByDots(rest, q);
      hide Join, ShowElement;
      RegroupDots(ShowElement(p[0]), Join(rest), Join(q));
    }
  }

  // ---- The decoder ----------------------------------------------------

  function ReadPlain(s: string): (r: (string, string))
    ensures |r.1| <= |s|
  {
    if s == "" || s[0] == '.' then ("", s)
    else var (e, rest) := ReadPlain(s[1..]); ([s[0]] + e, rest)
  }

  function ReadQuoted(s: string): (r: (string, string))
    ensures |r.1| <= |s|
  {
    if s == "" then ("", "")
    else if s[0] == '"' then ("", s[1..])
    else if s[0] == '\\' && |s| > 1 then
      var (e, rest) := ReadQuoted(s[2..]); ([s[1]] + e, rest)
    else
      var (e, rest) := ReadQuoted(s[1..]); ([s[0]] + e, rest)
  }

  function ReadElement(s: string): (r: (string, string))
    ensures |r.1| <= |s|
  {
    if s != "" && s[0] == '"' then ReadQuoted(s[1..]) else ReadPlain(s)
  }

  function ReadElements(s: string): seq<string>
    decreases |s|
  {
    var (e, rest) := ReadElement(s);
    if rest == "" then [e] else [e] + ReadElements(rest[1..])
  }

  function Decode(s: string): seq<string> {
    if s == "" then [] else ReadElements(s)
  }

  lemma {:induction false} ReadPlainShown(s: string, rest: string)
    requires forall i | 0 <= i < |s| :: s[i] != '.'
    requires rest == "" || rest[0] == '.'
    ensures ReadPlain(s + rest) == (s, rest)
  {
    if s == "" {
      assert s + rest == rest;
    } else {
      assert (s + rest)[0] == s[0] && (s + rest)[1..] == s[1..] + rest;
      assert s == [s[0]] + s[1..];
      ReadPlainShown(s[1..], rest);
    }
  }

  lemma {:induction false} ReadQuotedShown(s: string, rest: string)
    ensures ReadQuoted(Escape(s) + "\"" + rest) == (s, rest)
  {
    var shown := Escape(s) + "\"" + rest;
    if s == "" {
      assert shown == "\"" + rest;
      assert shown[1..] == rest;
    } else {
      ReadQuotedShown(s[1..], rest);
      assert s == [s[0]] + s[1..];
      var tail := Escape(s[1..]) + "\"" + rest;
      if NeedsEscape(s[0]) {
        assert shown == "\\" + [s[0]] + tail;
        assert shown[2..] == tail;
      } else {
        assert shown == [s[0]] + tail;
        assert shown[1..] == tail;
      }
    }
  }

  lemma QuotedShape(body: string, rest: string)
    ensures ("\"" + body + rest)[0] == '"'
    ensures ("\"" + body + rest)[1..] == body + rest
  {}

  lemma ReadElementShown(s: string, rest: string)
    requires rest == "" || rest[0] == '.'
    ensures ShowElement(s) != ""
    ensures ReadElement(ShowElement(s) + rest) == (s, rest)
  {
    var shown := ShowElement(s) + rest;
    if IsPlainIdentifier(s) {
      ReadPlainShown(s, rest);
      assert shown[0] == s[0];
    } else {
      ReadQuotedShown(s, rest);
      QuotedShape(Escape(s) + "\"", rest);
    }
  }

  lemma {:induction false} ReadElementsShown(path: seq<string>)
    requires path != []
    ensures ReadElements(Join(path)) == path
  {
    var rest := JoinRest(path[1..]);
    assert path == [path[0]] + path[1..];
    ReadElementShown(path[0], rest);
    if |path| > 1 {
      assert rest[1..] == Join(path[1..]);
      ReadElementsShown(path[1..]);
    }
  }

  /** Printing loses nothing: every list of names, with empty names, dots,
      quotes, backslashes and dollars included, is recovered by `Decode`. */
  lemma DecodeJoin(path: seq<string>)
    ensures Decode(Join(path)) == path
  {
    if path != [] {
      ReadElementsShown(path);
      ReadElementShown(path[0], JoinRest(path[1..]));
    }
  }

  /** Different paths are printed differently, so no job is filed under
      another job's key. */
  lemma JoinInjective(p: seq<string>, q: seq<string>)
    ensures Join(p) == Join(q) <==> p == q
  {
    DecodeJoin(p);
    DecodeJoin(q);
  }
}
