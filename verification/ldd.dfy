/** The pure part of `_copy_linux_required_libs`: reading `ldd` output into
    the list of shared libraries to copy. The exit status of `ldd` is never
    looked at; only its standard output matters. */
module Ldd {
  import opened Wrappers
  import opened Text
  import opened Paths

  predicate IsAlnum(c: char) { IsUpper(c) || IsLower(c) || IsDigit(c) }

  /** `[a-zA-Z._0-9/\-+]`, the characters of the library name. */
  predicate IsNameChar(c: char) {
    IsAlnum(c) || c == '.' || c == '_' || c == '/' || c == '-' || c == '+'
  }

  /** `[a-zA-Z._0-9\-/\\]`, the characters of the resolved path as the
      pattern is written: no `+`. */
  predicate IsPathCharAsWritten(c: char) {
    IsAlnum(c) || c == '.' || c == '_' || c == '-' || c == '/' || c == '\\'
  }

  /** A path character; `plus` says whether `+` is one. */
  predicate IsPathChar(c: char, plus: bool) {
    IsPathCharAsWritten(c) || (plus && c == '+')
  }

  predicate IsHexDigit(c: char) { IsDigit(c) || 'a' <= c <= 'f' }

  predicate AllName(s: string) { forall i :: 0 <= i < |s| ==> IsNameChar(s[i]) }

  predicate AllHex(s: string) { forall i :: 0 <= i < |s| ==> IsHexDigit(s[i]) }

  predicate AllPath(s: string, plus: bool) { forall i :: 0 <= i < |s| ==> IsPathChar(s[i], plus) }

  /** The text of a line `name => path (0xhex)`. */
  function LibLine(name: string, path: string, hex: string): string {
    name + (" => " + (path + HexTail(hex)))
  }

  function HexTail(hex: string): string {
    " (0x" + (hex + ")")
  }

  /** `line` is matched in full by `LIB_RE` (with or without `+` among the
      path characters), capturing `path`. */
  ghost predicate IsLibLine(line: string, path: string, plus: bool) {
    exists name, hex :: IsLibLineParts(line, name, path, hex, plus)
  }

  predicate IsLibLineParts(line: string, name: string, path: string, hex: string, plus: bool) {
    && |name| > 0 && AllName(name)
    && |path| > 0 && AllPath(path, plus)
    && |hex| > 0 && AllHex(hex)
    && line == LibLine(name, path, hex)
  }

  /** Cuts `s` before its first space. */
  function CutAtSpace(s: string): (r: Option<(string, string)>)
    ensures r.Some? ==> r.value.0 + r.value.1 == s && ' ' !in r.value.0
                        && |r.value.1| > 0 && r.value.1[0] == ' '
    ensures r.None? <==> ' ' !in s
  {
    if ' ' !in s then None
    else
      var i := IndexOf(s, ' ');
      assert s == s[..i] + s[i..];
      Some((s[..i], s[i..]))
  }

  lemma CutAtSpaceOf(a: string, b: string)
    requires ' ' !in a && |b| > 0 && b[0] == ' '
    ensures CutAtSpace(a + b) == Some((a, b))
  {
    IndexOfAppend(a, b, ' ');
    assert (a + b)[..|a|] == a && (a + b)[|a|..] == b;
  }

  /** `(0xhex)` with at least one hex digit. */
  predicate IsHexTail(tail: string) {
    && |tail| >= 6 && tail[..4] == " (0x" && tail[|tail| - 1] == ')'
    && AllHex(tail[4..|tail| - 1])
  }

  /** The part after ` => `: the path up to the next space, then the
      address. */
  function MatchPath(after: string, plus: bool): Option<string> {
    match CutAtSpace(after)
    case None => None
    case Some((path, tail)) =>
      if |path| > 0 && AllPath(path, plus) && IsHexTail(tail) then Some(path) else None
  }

  /** `LIB_RE.fullmatch(line)` and its `filename` group. Neither character
      class holds a space, so the name ends at the first space and the path
      at the next one. */
  function MatchWith(line: string, plus: bool): Option<string> {
    match CutAtSpace(line)
    case None => None
    case Some((name, rest)) =>
      if |name| > 0 && AllName(name) && |rest| >= 4 && rest[..4] == " => "
      then MatchPath(rest[4..], plus)
      else None
  }

  /** The matcher exactly as the pattern is written. */
  function MatchAsWritten(line: string): Option<string> {
    MatchWith(line, false)
  }

  /** The matcher with `+` allowed in paths, used by the corrected
      `ParseLdd`. */
  function MatchLibLine(line: string): Option<string> {
    MatchWith(line, true)
  }

  /** A matched address tail is `HexTail` of its digits. */
  lemma HexTailOf(tail: string)
    requires IsHexTail(tail)
    ensures tail == HexTail(tail[4..|tail| - 1])
  {
    assert tail == tail[..4] + (tail[4..|tail| - 1] + tail[|tail| - 1..]);
  }

  /** A path capture comes from a path followed by an address tail. */
  lemma MatchPathSound(after: string, plus: bool) returns (hex: string)
    requires MatchPath(after, plus).Some?
    ensures var path := MatchPath(after, plus).value;
            |hex| > 0 && AllHex(hex) && |path| > 0 && AllPath(path, plus) && after == path + HexTail(hex)
  {
    var cut := CutAtSpace(after).value;
    assert MatchPath(after, plus) == Some(cut.0) && IsHexTail(cut.1);
    hex := cut.1[4..|cut.1| - 1];
    HexTailOf(cut.1);
  }

  /** A capture comes from a full match of the pattern. */
  lemma MatchSound(line: string, plus: bool)
    requires MatchWith(line, plus).Some?
    ensures IsLibLine(line, MatchWith(line, plus).value, plus)
  {
    var (name, rest) := CutAtSpace(line).value;
    var after := rest[4..];
    assert rest == " => " + after;
    var hex := MatchPathSound(after, plus);
    var path := MatchPath(after, plus).value;
    assert IsLibLineParts(line, name, path, hex, plus);
  }

  lemma MatchPathComplete(path: string, hex: string, plus: bool)
    requires |path| > 0 && AllPath(path, plus) && |hex| > 0 && AllHex(hex)
    ensures MatchPath(path + HexTail(hex), plus) == Some(path)
  {
    assert ' ' !in path by {
      forall k | 0 <= k < |path| ensures path[k] != ' ' {
        assert IsPathChar(path[k], plus);
      }
    }
    var tail := HexTail(hex);
    CutAtSpaceOf(path, tail);
    assert tail[..4] == " (0x" && tail[4..|tail| - 1] == hex;
  }

  /** Every full match is found, with its path captured. */
  lemma MatchComplete(line: string, name: string, path: string, hex: string, plus: bool)
    requires IsLibLineParts(line, name, path, hex, plus)
    ensures MatchWith(line, plus) == Some(path)
  {
    var after := path + HexTail(hex);
    var rest := " => " + after;
    assert ' ' !in name by {
      forall k | 0 <= k < |name| ensures name[k] != ' ' {
        assert IsNameChar(name[k]);
      }
    }
    CutAtSpaceOf(name, rest);
    assert rest[..4] == " => " && rest[4..] == after;
    MatchPathComplete(path, hex, plus);
  }

  /** Whatever the pattern as written matches is matched, with the same
      capture, once `+` is admitted. */
  lemma AsWrittenIsStricter(line: string)
    requires MatchAsWritten(line).Some?
    ensures MatchLibLine(line) == MatchAsWritten(line)
  {
    MatchSound(line, false);
    var path := MatchAsWritten(line).value;
    var name, hex :| IsLibLineParts(line, name, path, hex, false);
    MatchComplete(line, name, path, hex, true);
  }

  /** `libstdc++` resolves to a path with `+` in it: the pattern as written
      drops the line, so the library is never copied. */
  lemma PlusPathDroppedAsWritten()
    ensures MatchAsWritten(LibLine("libstdc++.so.6", "/usr/lib/libstdc++.so.6", "7f0000000000")) == None
    ensures MatchLibLine(LibLine("libstdc++.so.6", "/usr/lib/libstdc++.so.6", "7f0000000000"))
            == Some("/usr/lib/libstdc++.so.6")
  {
    var name, path, hex := "libstdc++.so.6", "/usr/lib/libstdc++.so.6", "7f0000000000";
    LibstdcxxClasses();
    MatchComplete(LibLine(name, path, hex), name, path, hex, true);
    assert MatchPath(path + HexTail(hex), false) == None by {
      MatchPathComplete(path, hex, true);
      CutAtSpaceOf(path, HexTail(hex));
    }
    var rest := " => " + (path + HexTail(hex));
    assert ' ' !in name;
    CutAtSpaceOf(name, rest);
    assert rest[4..] == path + HexTail(hex);
  }

  /** The character classes of the `libstdc++` example: every class
      accepts its part, except the path class as written. */
  lemma LibstdcxxClasses()
    ensures AllName("libstdc++.so.6")
    ensures AllPath("/usr/lib/libstdc++.so.6", true)
    ensures !AllPath("/usr/lib/libstdc++.so.6", false)
    ensures AllHex("7f0000000000")
    ensures ' ' !in "/usr/lib/libstdc++.so.6"
  {
    var name, path, hex := "libstdc++.so.6", "/usr/lib/libstdc++.so.6", "7f0000000000";
    assert AllName(name) by {
      forall k | 0 <= k < |name| ensures IsNameChar(name[k]) { }
    }
    assert AllPath(path, true) by {
      forall k | 0 <= k < |path| ensures IsPathChar(path[k], true) { }
    }
    assert AllHex(hex) by {
      forall k | 0 <= k < |hex| ensures IsHexDigit(hex[k]) { }
    }
    assert !IsPathChar(path[17], false);
  }

  /** A line without ` => `, such as the vDSO entry, is never matched. */
  lemma MatchNeedsArrow(line: string)
    requires MatchLibLine(line).Some?
    ensures Contains(line, " => ")
  {
    MatchSound(line, true);
    var path := MatchLibLine(line).value;
    var name, hex :| IsLibLineParts(line, name, path, hex, true);
    PartsHaveArrow(line, name, path, hex);
  }

  lemma PartsHaveArrow(line: string, name: string, path: string, hex: string)
    requires line == LibLine(name, path, hex)
    ensures Contains(line, " => ")
  {
    var rest := " => " + (path + HexTail(hex));
    assert line == name + rest;
    assert line[|name|..|name| + 4] == rest[..4];
    assert OccursAt(line, " => ", |name|);
  }

  /** A library `ldd` resolved: the file name it is copied under and the
      path it is copied from. */
  datatype Resolved = Resolved(name: string, path: string)

  /** The library a single line names: one when its stripped text matches
      the pattern (with or without `+` among the path characters) in full,
      none otherwise. */
  function LineLibs(line: string, plus: bool): (r: seq<Resolved>)
    ensures |r| <= 1
    ensures |r| == 1 <==> MatchWith(Strip(line), plus).Some?
    ensures |r| == 1 ==> r[0].path == MatchWith(Strip(line), plus).value
                         && r[0].name == Basename(Posix, r[0].path)
  {
    match MatchWith(Strip(line), plus)
    case Some(f) => [Resolved(Basename(Posix, f), f)]
    case None => []
  }

  /** A line the pattern as written accepts yields the same library once
      `+` is admitted in paths. */
  lemma LineLibsAsWrittenStricter(line: string)
    requires |LineLibs(line, false)| == 1
    ensures LineLibs(line, true) == LineLibs(line, false)
  {
    AsWrittenIsStricter(Strip(line));
  }

  /** What `per` finds in successive lines, in order. */
  function Collect(lines: seq<string>, per: string -> seq<Resolved>): seq<Resolved> {
    if |lines| == 0 then [] else per(lines[0]) + Collect(lines[1..], per)
  }

  /** The libraries found in `ldd` output, in the order of its lines. */
  function ParseLddWith(stdout: string, plus: bool): seq<Resolved> {
    Collect(Text.Split(stdout, '\n'), line => LineLibs(line, plus))
  }

  /** The loop of `_copy_linux_required_libs` with `LIB_RE` as written. */
  function ParseLddAsWritten(stdout: string): seq<Resolved> {
    ParseLddWith(stdout, false)
  }

  /** The same loop with `+` admitted in resolved paths. */
  function ParseLdd(stdout: string): seq<Resolved> {
    ParseLddWith(stdout, true)
  }

  /** A single line yields its library when its stripped text matches, and
      nothing otherwise. */
  lemma ParseLddLine(line: string, plus: bool)
    requires '\n' !in line
    ensures ParseLddWith(line, plus) == LineLibs(line, plus)
  {
    var per := l => LineLibs(l, plus);
    assert Text.Split(line, '\n') == [line];
    assert [line][1..] == [];
    assert Collect([line], per) == per(line) + Collect([], per);
  }

  /** Output is read line by line: the libraries of `a` then those of `b`. */
  lemma ParseLddAppend(a: string, b: string, plus: bool)
    requires '\n' !in a
    ensures ParseLddWith(a + "\n" + b, plus) == ParseLddWith(a, plus) + ParseLddWith(b, plus)
  {
    var per := l => LineLibs(l, plus);
    SplitAppend(a, b, '\n');
    assert a + "\n" + b == a + ['\n'] + b;
    var ls := [a] + Text.Split(b, '\n');
    assert ls[0] == a && ls[1..] == Text.Split(b, '\n');
    assert ParseLddWith(a + "\n" + b, plus) == per(a) + ParseLddWith(b, plus);
    ParseLddLine(a, plus);
  }

  /** The `libstdc++` line of `ldd` output: the loop as written copies
      nothing for it, the corrected one copies `libstdc++.so.6` from its
      resolved path. */
  lemma LibstdcxxDroppedAsWritten()
    ensures var line := LibLine("libstdc++.so.6", "/usr/lib/libstdc++.so.6", "7f0000000000");
            && ParseLddAsWritten(line) == []
            && ParseLdd(line) == [Resolved("libstdc++.so.6", "/usr/lib/libstdc++.so.6")]
  {
    var line := LibLine("libstdc++.so.6", "/usr/lib/libstdc++.so.6", "7f0000000000");
    LibstdcxxLine();
    PlusPathDroppedAsWritten();
    ParseLddLine(line, false);
    ParseLddLine(line, true);
  }

  /** The `libstdc++` line is one line, already stripped, and its path's
      base name is the library name. */
  lemma LibstdcxxLine()
    ensures var line := LibLine("libstdc++.so.6", "/usr/lib/libstdc++.so.6", "7f0000000000");
            '\n' !in line && Strip(line) == line
    ensures Basename(Posix, "/usr/lib/libstdc++.so.6") == "libstdc++.so.6"
  {
    var line := LibLine("libstdc++.so.6", "/usr/lib/libstdc++.so.6", "7f0000000000");
    LibstdcxxLineEnds();
    StripUnspaced(line);
    LibstdcxxBasename();
  }

  /** The `libstdc++` line has no line break and no white space at its ends. */
  lemma LibstdcxxLineEnds()
    ensures var line := LibLine("libstdc++.so.6", "/usr/lib/libstdc++.so.6", "7f0000000000");
            && '\n' !in line && |line| > 0
            && !IsSpace(line[0]) && !IsSpace(line[|line| - 1])
  {
    var line := LibLine("libstdc++.so.6", "/usr/lib/libstdc++.so.6", "7f0000000000");
    assert line[0] == 'l' && line[|line| - 1] == ')';
    assert '\n' !in "libstdc++.so.6" && '\n' !in "/usr/lib/libstdc++.so.6" && '\n' !in "7f0000000000";
  }

  /** The base name of the resolved `libstdc++` path. */
  lemma LibstdcxxBasename()
    ensures Basename(Posix, "/usr/lib/libstdc++.so.6") == "libstdc++.so.6"
  {
    assert NoSep(Posix, "libstdc++.so.6");
    assert Join(Posix, "/usr/lib", "libstdc++.so.6") == "/usr/lib/libstdc++.so.6";
    BasenameOfJoin(Posix, "/usr/lib", "libstdc++.so.6");
  }

  /** Everything collected was found in one of the lines; for `ParseLdd`,
      each library comes from one line naming it in full. */
  lemma {:induction false} CollectOrigin(lines: seq<string>, per: string -> seq<Resolved>, k: nat)
    requires k < |Collect(lines, per)|
    ensures exists i :: 0 <= i < |lines| && Collect(lines, per)[k] in per(lines[i])
  {
    var first := per(lines[0]);
    var tail := Collect(lines[1..], per);
    assert Collect(lines, per) == first + tail;
    if k < |first| {
      assert Collect(lines, per)[k] == first[k];
    } else {
      assert Collect(lines, per)[k] == tail[k - |first|];
      CollectOrigin(lines[1..], per, k - |first|);
      var i :| 0 <= i < |lines[1..]| && tail[k - |first|] in per(lines[1..][i]);
      assert lines[1..][i] == lines[i + 1];
    }
  }
}
