/** How a launcher names the program to run: the runtime version string,
    the interpreter arguments for an `App`, and the quote escaping applied
    before those arguments are pasted into C++ source. */
module Command {
  import opened Wrappers
  import opened Text
  import opened Config

  /** `_PY_VERSION`: `python<major>.<minor>` of the running interpreter. */
  function PyVersion(major: nat, minor: nat): string {
    "python" + NatToString(major) + "." + NatToString(minor)
  }

  /** Distinct interpreter versions give distinct version strings. */
  lemma PyVersionInjective(major: nat, minor: nat, major': nat, minor': nat)
    requires PyVersion(major, minor) == PyVersion(major', minor')
    ensures major == major' && minor == minor'
  {
    var x, y := NatToString(major), NatToString(minor);
    var x', y' := NatToString(major'), NatToString(minor');
    var v := PyVersion(major, minor);
    assert v[6..] == x + "." + y;
    assert v[6..] == x' + "." + y';
    var u := v[6..];
    assert u == x + "." + y && u == x' + "." + y';
    assert u[|x|] == '.' && u[|x'|] == '.';
    assert forall k :: 0 <= k < |x| ==> u[k] == x[k];
    assert forall k :: 0 <= k < |x'| ==> u[k] == x'[k];
    assert |x| == |x'|;
    assert x == u[..|x|] == x';
    assert y == u[|x| + 1..] == y';
    NatToStringInjective(major, major');
    NatToStringInjective(minor, minor');
  }

  /** `_get_cmd`: the interpreter arguments that start `app`. With an entry
      point the module's callable is imported and its return value becomes
      the exit status; without one the module is run as `__main__`. */
  function GetCmd(app: App): string {
    match app.entry
    case Some(e) => "-c \"from " + (app.path + (" import " + (e + ("; exit(" + e + "())\""))))
    case None => "-m " + app.path
  }

  /** Reads interpreter arguments of either form back into a module path
      and optional entry point. */
  function ParseCmd(cmd: string): Option<(string, Option<string>)> {
    if StartsWith(cmd, "-m ") then Some((cmd[3..], None))
    else if StartsWith(cmd, "-c \"from ") then ParseImport(cmd[9..])
    else None
  }

  /** Reads `<path> import <entry>; exit(<entry>())"`. */
  function ParseImport(rest: string): Option<(string, Option<string>)> {
    if ' ' !in rest then None
    else
      var i := IndexOf(rest, ' ');
      if !StartsWith(rest[i..], " import ") then None
      else
        match ParseEntry(rest[i + 8..])
        case None => None
        case Some(e) => Some((rest[..i], Some(e)))
  }

  /** Reads `<entry>; exit(<entry>())"`. */
  function ParseEntry(tail: string): Option<string> {
    if ';' !in tail then None
    else
      var j := IndexOf(tail, ';');
      if tail[j..] == "; exit(" + tail[..j] + "())\"" then Some(tail[..j]) else None
  }

  /** The two forms are told apart by their first two characters: `-c`
      exactly when an entry point is set. */
  lemma GetCmdForm(app: App)
    ensures StartsWith(GetCmd(app), "-c \"from ") <==> app.entry.Some?
    ensures StartsWith(GetCmd(app), "-m ") <==> app.entry.None?
  {
    var c := GetCmd(app);
    assert c[1] == (if app.entry.Some? then 'c' else 'm');
    if app.entry.Some? {
      assert c[..9] == "-c \"from ";
    } else {
      assert c[..3] == "-m ";
    }
  }

  /** The command names the module and entry point it was built from: both
      can be read back, provided the module path has no space and the entry
      point no semicolon (true of dotted Python names). */
  lemma ParseGetCmd(app: App)
    requires ' ' !in app.path
    requires app.entry.Some? ==> ';' !in app.entry.value
    ensures ParseCmd(GetCmd(app)) == Some((app.path, app.entry))
  {
    GetCmdForm(app);
    match app.entry
    case None =>
      assert GetCmd(app)[3..] == app.path;
    case Some(e) =>
      ParseImportForm(app.path, e);
  }

  lemma ParseImportForm(path: string, e: string)
    requires ' ' !in path && ';' !in e
    ensures ParseCmd("-c \"from " + (path + (" import " + (e + ("; exit(" + e + "())\""))))) == Some((path, Some(e)))
  {
    var rest := path + (" import " + (e + ("; exit(" + e + "())\"")));
    var c := "-c \"from " + rest;
    assert c[1] == 'c';
    assert c[..9] == "-c \"from ";
    assert c[9..] == rest;
    assert !StartsWith(c, "-m ");
    ParseImportOf(path, e);
    assert ParseImport(rest) == Some((path, Some(e)));
    assert ParseCmd(c) == ParseImport(rest);
  }

  lemma ParseImportOf(path: string, e: string)
    requires ' ' !in path && ';' !in e
    ensures ParseImport(path + (" import " + (e + ("; exit(" + e + "())\"")))) == Some((path, Some(e)))
  {
    var after := " import " + (e + ("; exit(" + e + "())\""));
    var rest := path + after;
    IndexOfAppend(path, after, ' ');
    assert rest[..|path|] == path && rest[|path|..] == after;
    assert after[..8] == " import ";
    assert rest[|path| + 8..] == e + ("; exit(" + e + "())\"");
    ParseEntryOf(e);
  }

  lemma ParseEntryOf(e: string)
    requires ';' !in e
    ensures ParseEntry(e + ("; exit(" + e + "())\"")) == Some(e)
  {
    var fin := "; exit(" + e + "())\"";
    IndexOfAppend(e, fin, ';');
    var tail := e + fin;
    assert tail[..|e|] == e && tail[|e|..] == fin;
  }

  /** Different apps with plain names give different commands. */
  lemma GetCmdInjective(a: App, b: App)
    requires ' ' !in a.path && ' ' !in b.path
    requires a.entry.Some? ==> ';' !in a.entry.value
    requires b.entry.Some? ==> ';' !in b.entry.value
    requires GetCmd(a) == GetCmd(b)
    ensures a.path == b.path && a.entry == b.entry
  {
    ParseGetCmd(a);
    ParseGetCmd(b);
  }

  /** `re.sub(r'"', '\\"', cmd)`: a backslash before every double quote. */
  function EscapeQuotes(s: string): (r: string)
    ensures |r| == |s| + multiset(s)['"']
    ensures forall i :: 0 <= i < |r| && r[i] == '"' ==> i > 0 && r[i - 1] == '\\'
    ensures |r| > 0 ==> r[0] != '"'
  {
    if |s| == 0 then ""
    else
      assert s == [s[0]] + s[1..];
      var rest := EscapeQuotes(s[1..]);
      if s[0] == '"' then "\\\"" + rest else [s[0]] + rest
  }

  /** Deletes each backslash that stands before a double quote: how a C++
      compiler reads `\"` in a string literal. */
  function DropQuoteEscapes(s: string): string
    decreases |s|
  {
    if |s| >= 2 && s[0] == '\\' && s[1] == '"' then "\"" + DropQuoteEscapes(s[2..])
    else if |s| == 0 then ""
    else [s[0]] + DropQuoteEscapes(s[1..])
  }

  lemma DropAfterEscapedQuote(rest: string)
    ensures DropQuoteEscapes("\\\"" + rest) == "\"" + DropQuoteEscapes(rest)
  {
    assert ("\\\"" + rest)[2..] == rest;
  }

  lemma DropAfterPlain(ch: char, rest: string)
    requires ch != '"'
    requires ch == '\\' && |rest| > 0 ==> rest[0] != '"'
    ensures DropQuoteEscapes([ch] + rest) == [ch] + DropQuoteEscapes(rest)
  {
    assert ([ch] + rest)[1..] == rest;
  }

  /** Deleting the inserted backslashes gives back the original command:
      every other character is left as it was. */
  lemma {:induction false} EscapeRoundTrip(s: string)
    ensures DropQuoteEscapes(EscapeQuotes(s)) == s
  {
    if |s| > 0 {
      EscapeRoundTrip(s[1..]);
      var rest := EscapeQuotes(s[1..]);
      if s[0] == '"' {
        assert EscapeQuotes(s) == "\\\"" + rest;
        DropAfterEscapedQuote(rest);
      } else {
        assert EscapeQuotes(s) == [s[0]] + rest;
        DropAfterPlain(s[0], rest);
      }
      assert s == [s[0]] + s[1..];
    }
  }

  /** Escaping changes nothing exactly when there is no quote to escape. */
  lemma EscapeIdentity(s: string)
    ensures EscapeQuotes(s) == s <==> '"' !in s
  {
    if '"' in s {
      assert multiset(s)['"'] > 0;
    } else {
      assert multiset(s)['"'] == 0;
      NoQuoteUnchanged(s);
    }
  }

  lemma {:induction false} NoQuoteUnchanged(s: string)
    requires '"' !in s
    ensures EscapeQuotes(s) == s
  {
    if |s| > 0 {
      assert EscapeQuotes(s) == [s[0]] + EscapeQuotes(s[1..]);
      assert EscapeQuotes(s[1..]) == s[1..] by {
        assert '"' !in s[1..];
        NoQuoteUnchanged(s[1..]);
      }
      assert s == [s[0]] + s[1..];
    }
  }

  /** The character a simple escape sequence `\c` stands for in a C++
      string literal; `None` for the octal, hexadecimal and universal-name
      escapes, which are not modelled, and for unknown ones. */
  function SimpleEscape(c: char): (r: Option<char>)
    ensures r == Some(c) <==> c in "\\\"'?"
  {
    if c == '\\' || c == '"' || c == '\'' || c == '?' then Some(c)
    else if c == 'n' then Some('\n')
    else if c == 't' then Some('\t')
    else if c == 'r' then Some('\r')
    else if c == 'a' then Some(7 as char)
    else if c == 'b' then Some(8 as char)
    else if c == 'f' then Some(12 as char)
    else if c == 'v' then Some(11 as char)
    else None
  }

  /** The characters the body of a C++ string literal stands for, with its
      escapes decoded; `None` when the text cannot be the body of one
      literal (a bare double quote ends it, a raw line break is not
      allowed, an escape is dangling or not modelled). */
  function CppLiteral(s: string): Option<string>
    decreases |s|
  {
    if |s| == 0 then Some("")
    else if s[0] == '"' || s[0] == '\n' then None
    else if s[0] == '\\' then
      if |s| < 2 || SimpleEscape(s[1]).None? then None
      else
        match CppLiteral(s[2..])
        case Some(t) => Some([SimpleEscape(s[1]).value] + t)
        case None => None
    else
      match CppLiteral(s[1..])
      case Some(t) => Some([s[0]] + t)
      case None => None
  }

  /** A command with no backslash and no line break, quote-escaped, is the
      body of a C++ string literal that stands for exactly that command. */
  lemma {:induction false} EscapedLiteralReadsBack(s: string)
    requires '\\' !in s && '\n' !in s
    ensures CppLiteral(EscapeQuotes(s)) == Some(s)
  {
    if |s| > 0 {
      assert '\\' !in s[1..] && '\n' !in s[1..];
      EscapedLiteralReadsBack(s[1..]);
      var rest := EscapeQuotes(s[1..]);
      if s[0] == '"' {
        assert EscapeQuotes(s) == "\\\"" + rest;
        QuoteDecodes(rest);
      } else {
        assert EscapeQuotes(s) == [s[0]] + rest;
        PlainDecodes(s[0], rest);
      }
      assert s == [s[0]] + s[1..];
    }
  }

  /** An escaped quote followed by literal text. */
  lemma QuoteDecodes(t: string)
    requires CppLiteral(t).Some?
    ensures CppLiteral("\\\"" + t) == Some("\"" + CppLiteral(t).value)
  {
    var r := "\\\"" + t;
    assert r[0] == '\\' && r[1] == '"' && r[2..] == t;
  }

  /** A plain character followed by literal text. */
  lemma PlainDecodes(c: char, t: string)
    requires c != '"' && c != '\n' && c != '\\' && CppLiteral(t).Some?
    ensures CppLiteral([c] + t) == Some([c] + CppLiteral(t).value)
  {
    assert ([c] + t)[1..] == t;
  }

  /** Escaping only the quotes is not enough for a command holding a
      backslash: the compiler reads the two characters `\n` as one line
      break. */
  lemma BackslashMisread()
    ensures var s := ['\\', 'n'];
            EscapeQuotes(s) == s && CppLiteral(s) == Some(['\n']) && CppLiteral(s) != Some(s)
  {
    var s := ['\\', 'n'];
    NoQuoteUnchanged(s);
    assert s[0] == '\\' && SimpleEscape(s[1]) == Some('\n');
    assert CppLiteral(s[2..]) == Some([]);
    assert CppLiteral(s) == Some(['\n'] + []);
    assert ['\n'] + [] == ['\n'];
  }

  /** Every backslash of `r` is followed by a double quote. */
  predicate OnlyQuoteEscapes(r: string) {
    forall i :: 0 <= i < |r| && r[i] == '\\' ==> i + 1 < |r| && r[i + 1] == '"'
  }

  /** In a command without backslashes, every backslash of the escaped text
      starts a `\"` pair, so a C++ string literal holding it contains no
      other escape. */
  lemma {:induction false} EscapedOnlyQuoteEscapes(s: string)
    requires '\\' !in s
    ensures OnlyQuoteEscapes(EscapeQuotes(s))
  {
    if |s| > 0 {
      assert '\\' !in s[1..];
      EscapedOnlyQuoteEscapes(s[1..]);
      var rest := EscapeQuotes(s[1..]);
      var r := EscapeQuotes(s);
      var k := if s[0] == '"' then 2 else 1;
      assert r == r[..k] + rest;
      assert forall i :: 0 <= i < k && r[i] == '\\' ==> i + 1 < |r| && r[i + 1] == '"';
      forall i | k <= i < |r| && r[i] == '\\'
        ensures i + 1 < |r| && r[i + 1] == '"'
      {
        assert r[i] == rest[i - k] == '\\';
        assert i - k + 1 < |rest| && rest[i - k + 1] == '"';
        assert r[i + 1] == rest[i - k + 1];
      }
    }
  }
}
