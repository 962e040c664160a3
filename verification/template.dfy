/** The template renderer: `re.sub("@@[A-Z]+@@", lambda x: replacements[x.group(0)], text)`
    applied line by line. Text is read as a sequence of pieces, each a
    placeholder token or one literal character; rendering replaces each
    token by its value and copies every other character. */
module Template {
  import opened Wrappers
  import opened Errors
  import opened Text

  /** A string matched in full by `@@[A-Z]+@@`. */
  predicate IsToken(t: string) {
    && |t| >= 5
    && t[..2] == "@@"
    && t[|t| - 2..] == "@@"
    && forall k :: 2 <= k < |t| - 2 ==> IsUpper(t[k])
  }

  /** Length of the run of upper-case letters at the start of `s`. */
  function UpperRun(s: string): (n: nat)
    ensures n <= |s|
    ensures forall k :: 0 <= k < n ==> IsUpper(s[k])
    ensures n < |s| ==> !IsUpper(s[n])
  {
    if |s| > 0 && IsUpper(s[0]) then 1 + UpperRun(s[1..]) else 0
  }

  /** Length of the match of the placeholder pattern at the start of `s`,
      or 0 when no match starts there. */
  function TokenLen(s: string): (n: nat)
    ensures n == 0 || (n <= |s| && IsToken(s[..n]))
  {
    if StartsWith(s, "@@") then
      var k := UpperRun(s[2..]);
      if k > 0 && StartsWith(s[2 + k..], "@@") then
        assert s[..k + 4][..2] == "@@";
        assert s[..k + 4][k + 2..] == s[2 + k..][..2];
        k + 4
      else 0
    else 0
  }

  /** The match at the start of `s` is the only token that is a prefix of
      `s`: tokens never extend one another. */
  lemma TokenLenComplete(s: string, j: nat)
    requires 0 < j <= |s| && IsToken(s[..j])
    ensures TokenLen(s) == j
  {
    var t := s[..j];
    assert s[..2] == t[..2];
    var k := UpperRun(s[2..]);
    forall i | 0 <= i < j - 4
      ensures IsUpper(s[2..][i])
    {
      assert s[2..][i] == t[i + 2];
    }
    assert s[2..][j - 4] == t[j - 2] == '@';
    assert k == j - 4;
    assert s[2 + k..][..2] == t[j - 2..];
  }

  /** No character of a token is a line break. */
  lemma TokenHasNoNewline(t: string, i: int)
    requires IsToken(t) && 0 <= i < |t|
    ensures t[i] != '\n'
  {
    if i < 2 {
      assert t[i] == t[..2][i];
    } else if i >= |t| - 2 {
      assert t[i] == t[|t| - 2..][i - (|t| - 2)];
    }
  }

  datatype Piece = Lit(c: char) | Tok(name: string)

  /** Reads `s` from the left: a token wherever one starts, otherwise one
      literal character, resuming after whatever was read. */
  function Scan(s: string): seq<Piece>
    decreases |s|
  {
    if |s| == 0 then []
    else
      var n := TokenLen(s);
      if n > 0 then [Tok(s[..n])] + Scan(s[n..]) else [Lit(s[0])] + Scan(s[1..])
  }

  /** The text one piece spells. */
  function Spell(p: Piece): string {
    match p
    case Lit(c) => [c]
    case Tok(t) => t
  }

  /** The text a sequence of pieces spells. */
  function Unparse(ps: seq<Piece>): string {
    if |ps| == 0 then "" else Spell(ps[0]) + Unparse(ps[1..])
  }

  lemma UnparseCons(p: Piece, ps: seq<Piece>)
    ensures Unparse([p] + ps) == Spell(p) + Unparse(ps)
  {
    assert ([p] + ps)[1..] == ps;
  }

  /** A piece spelling the first `k` characters, then pieces spelling the
      rest, spell the whole text. */
  lemma SpellThenRest(s: string, k: nat, p: Piece, qs: seq<Piece>)
    requires k <= |s| && Spell(p) == s[..k] && Unparse(qs) == s[k..]
    ensures Unparse([p] + qs) == s
  {
    UnparseCons(p, qs);
    assert s[..k] + s[k..] == s;
  }

  /** No token is a prefix of `s`. */
  predicate NoTokenAtStart(s: string) {
    forall j :: 0 < j <= |s| ==> !IsToken(s[..j])
  }

  /** `ps` is a left-to-right reading of `s` that takes a token wherever one
      starts and a single literal character only where none does: the
      leftmost, non-overlapping matching of `re.sub`. */
  predicate Reads(ps: seq<Piece>, s: string)
    decreases |ps|
  {
    if |ps| == 0 then |s| == 0
    else match ps[0]
      case Tok(t) => IsToken(t) && StartsWith(s, t) && Reads(ps[1..], s[|t|..])
      case Lit(c) => |s| > 0 && s[0] == c && NoTokenAtStart(s) && Reads(ps[1..], s[1..])
  }

  /** `Scan` is exactly the leftmost non-overlapping reading, and the only one. */
  lemma {:induction false} ScanIsTheReading(ps: seq<Piece>, s: string)
    ensures Reads(ps, s) <==> ps == Scan(s)
    decreases |s|
  {
    if |s| == 0 {
      if |ps| > 0 {
        match ps[0]
        case Tok(t) =>
        case Lit(c) =>
      }
    } else {
      var n := TokenLen(s);
      if n > 0 {
        if Reads(ps, s) {
          match ps[0]
          case Tok(t) =>
            assert s[..|t|] == t;
            TokenLenComplete(s, |t|);
            ScanIsTheReading(ps[1..], s[|t|..]);
          case Lit(c) =>
            assert false;
        }
        if ps == Scan(s) {
          assert ps[0] == Tok(s[..n]) && ps[1..] == Scan(s[n..]);
          ScanIsTheReading(ps[1..], s[n..]);
        }
      } else {
        if Reads(ps, s) {
          match ps[0]
          case Tok(t) =>
            assert s[..|t|] == t;
            TokenLenComplete(s, |t|);
            assert false;
          case Lit(c) =>
            ScanIsTheReading(ps[1..], s[1..]);
        }
        if ps == Scan(s) {
          assert ps[0] == Lit(s[0]) && ps[1..] == Scan(s[1..]);
          forall j | 0 < j <= |s|
            ensures !IsToken(s[..j])
          {
            if IsToken(s[..j]) {
              TokenLenComplete(s, j);
            }
          }
          ScanIsTheReading(ps[1..], s[1..]);
        }
      }
    }
  }

  /** Reading a text and spelling the pieces gives the text back. */
  lemma {:induction false} ScanRoundTrip(s: string)
    ensures Unparse(Scan(s)) == s
    decreases |s|
  {
    if |s| > 0 {
      var k := ScanStep(s);
      ScanRoundTrip(s[k..]);
      SpellThenRest(s, k, Scan(s)[0], Scan(s[k..]));
    }
  }

  /** The first piece of a non-empty text spells its first `k` characters,
      and the reading resumes after them. */
  lemma ScanStep(s: string) returns (k: nat)
    requires |s| > 0
    ensures 0 < k <= |s|
    ensures |Scan(s)| > 0 && Scan(s) == [Scan(s)[0]] + Scan(s[k..])
    ensures Spell(Scan(s)[0]) == s[..k]
  {
    var n := TokenLen(s);
    k := if n > 0 then n else 1;
  }

  /** The placeholder names occurring among `ps`. */
  function TokensOf(ps: seq<Piece>): set<string> {
    set k | 0 <= k < |ps| && ps[k].Tok? :: ps[k].name
  }

  /** The placeholder tokens `re.sub` finds in `s`. */
  function Tokens(s: string): set<string> {
    TokensOf(Scan(s))
  }

  /** Replaces each token by its value, leftmost missing key first. */
  function RenderPieces(ps: seq<Piece>, m: map<string, string>): Result<string, Error> {
    if |ps| == 0 then Success("")
    else match ps[0]
      case Lit(c) =>
        var rest :- RenderPieces(ps[1..], m);
        Success([c] + rest)
      case Tok(t) =>
        if t !in m then Failure(MissingKey(t))
        else
          var rest :- RenderPieces(ps[1..], m);
          Success(m[t] + rest)
  }

  /** The whole-text substitution. */
  function Render(s: string, m: map<string, string>): Result<string, Error> {
    RenderPieces(Scan(s), m)
  }

  lemma TokensOfCons(p: Piece, ps: seq<Piece>)
    ensures TokensOf([p] + ps) == (if p.Tok? then {p.name} else {}) + TokensOf(ps)
  {
    var qs := [p] + ps;
    forall t | t in TokensOf(qs)
      ensures t in (if p.Tok? then {p.name} else {}) + TokensOf(ps)
    {
      var k :| 0 <= k < |qs| && qs[k].Tok? && qs[k].name == t;
      if k > 0 {
        assert ps[k - 1] == qs[k];
      }
    }
    forall t | t in TokensOf(ps)
      ensures t in TokensOf(qs)
    {
      var k :| 0 <= k < |ps| && ps[k].Tok? && ps[k].name == t;
      assert qs[k + 1] == ps[k];
    }
    if p.Tok? {
      assert qs[0] == p;
    }
  }

  lemma {:induction false} RenderPiecesOutcome(ps: seq<Piece>, m: map<string, string>)
    ensures RenderPieces(ps, m).Success? <==> TokensOf(ps) <= m.Keys
    ensures RenderPieces(ps, m).Failure? ==>
              exists t :: t in TokensOf(ps) && t !in m && RenderPieces(ps, m).error == MissingKey(t)
  {
    if |ps| > 0 {
      assert ps == [ps[0]] + ps[1..];
      TokensOfCons(ps[0], ps[1..]);
      RenderPiecesOutcome(ps[1..], m);
    }
  }

  /** Rendering succeeds exactly when every token of the text has a value;
      a failure names one of the tokens that lack one. */
  lemma RenderOutcome(s: string, m: map<string, string>)
    ensures Render(s, m).Success? <==> Tokens(s) <= m.Keys
    ensures Render(s, m).Failure? ==>
              exists t :: t in Tokens(s) && t !in m && Render(s, m).error == MissingKey(t)
  {
    RenderPiecesOutcome(Scan(s), m);
  }

  lemma {:induction false} RenderPiecesIdentity(ps: seq<Piece>, m: map<string, string>)
    requires forall t :: t in TokensOf(ps) ==> t in m && m[t] == t
    ensures RenderPieces(ps, m) == Success(Unparse(ps))
  {
    if |ps| > 0 {
      assert ps == [ps[0]] + ps[1..];
      TokensOfCons(ps[0], ps[1..]);
      RenderPiecesIdentity(ps[1..], m);
    }
  }

  /** Everything except the tokens is copied verbatim: with each token mapped
      to itself the output is the input. */
  lemma RenderCopiesText(s: string, m: map<string, string>)
    requires forall t :: t in Tokens(s) ==> t in m && m[t] == t
    ensures Render(s, m) == Success(s)
  {
    RenderPiecesIdentity(Scan(s), m);
    ScanRoundTrip(s);
  }

  /** Text without tokens renders to itself under any map. */
  lemma RenderPlainText(s: string, m: map<string, string>)
    requires Tokens(s) == {}
    ensures Render(s, m) == Success(s)
  {
    RenderCopiesText(s, m);
  }

  lemma {:induction false} RenderPiecesAgree(ps: seq<Piece>, m: map<string, string>, m': map<string, string>)
    requires forall t :: t in TokensOf(ps) ==> (t in m <==> t in m') && (t in m ==> m[t] == m'[t])
    ensures RenderPieces(ps, m) == RenderPieces(ps, m')
  {
    if |ps| > 0 {
      assert ps == [ps[0]] + ps[1..];
      TokensOfCons(ps[0], ps[1..]);
      RenderPiecesAgree(ps[1..], m, m');
    }
  }

  /** Keys that never occur as tokens of the text have no effect. */
  lemma RenderIgnoresUnusedKeys(s: string, m: map<string, string>, m': map<string, string>)
    requires forall t :: t in Tokens(s) ==> (t in m <==> t in m') && (t in m ==> m[t] == m'[t])
    ensures Render(s, m) == Render(s, m')
  {
    RenderPiecesAgree(Scan(s), m, m');
  }

  /** A lone token renders to its value, which is inserted as it is and not
      scanned again, whatever tokens it contains. */
  lemma RenderToken(t: string, m: map<string, string>)
    requires IsToken(t) && t in m
    ensures Render(t, m) == Success(m[t])
  {
    TokenLenComplete(t, |t|);
    assert t[..|t|] == t;
    assert t[|t|..] == "";
    assert Scan("") == [];
    assert Scan(t) == [Tok(t)];
    assert RenderPieces([Tok(t)][1..], m) == Success("");
    assert m[t] + "" == m[t];
  }

  /** Token matching at the start of `a + b` only sees `a` when `a` ends in a
      line break. */
  lemma TokenLenBeforeNewline(a: string, b: string)
    requires |a| > 0 && a[|a| - 1] == '\n'
    ensures TokenLen(a + b) == TokenLen(a) && TokenLen(a) < |a|
  {
    var s := a + b;
    var k := TokenLen(a);
    if k > 0 {
      if k == |a| {
        TokenHasNoNewline(a[..k], k - 1);
      }
      assert s[..k] == a[..k];
      TokenLenComplete(s, k);
    }
    var n := TokenLen(s);
    if n > 0 {
      if n >= |a| {
        assert s[..n][|a| - 1] == '\n';
        TokenHasNoNewline(s[..n], |a| - 1);
      }
      assert s[..n] == a[..n];
      TokenLenComplete(a, n);
    }
  }

  /** Scanning never crosses a line break: a text ending in one scans
      independently of what follows. */
  lemma {:induction false} ScanAppendLine(a: string, b: string)
    requires |a| > 0 && a[|a| - 1] == '\n'
    ensures Scan(a + b) == Scan(a) + Scan(b)
    decreases |a|
  {
    var s := a + b;
    TokenLenBeforeNewline(a, b);
    var n := TokenLen(a);
    if n > 0 {
      assert s[..n] == a[..n];
      assert s[n..] == a[n..] + b;
      ScanAppendLine(a[n..], b);
    } else if |a| == 1 {
      assert s[1..] == b;
      assert a[1..] == [];
    } else {
      assert s[1..] == a[1..] + b;
      ScanAppendLine(a[1..], b);
    }
  }

  /** Sequencing of two renderings: the first failure wins, otherwise the
      outputs are joined. */
  function Then(a: Result<string, Error>, b: Result<string, Error>): Result<string, Error> {
    if a.Failure? then a else if b.Failure? then b else Success(a.value + b.value)
  }

  lemma {:induction false} RenderPiecesAppend(ps: seq<Piece>, qs: seq<Piece>, m: map<string, string>)
    ensures RenderPieces(ps + qs, m) == Then(RenderPieces(ps, m), RenderPieces(qs, m))
  {
    if |ps| == 0 {
      assert ps + qs == qs;
      var b := RenderPieces(qs, m);
      if b.Success? {
        assert "" + b.value == b.value;
      }
    } else {
      var pq := ps + qs;
      assert pq[0] == ps[0] && pq[1..] == ps[1..] + qs;
      RenderPiecesAppend(ps[1..], qs, m);
      var a := RenderPieces(ps[1..], m);
      var b := RenderPieces(qs, m);
      match ps[0]
      case Lit(c) =>
        if a.Success? && b.Success? {
          assert [c] + (a.value + b.value) == ([c] + a.value) + b.value;
        }
      case Tok(k) =>
        if k in m && a.Success? && b.Success? {
          assert m[k] + (a.value + b.value) == (m[k] + a.value) + b.value;
        }
    }
  }

  /** Rendering a text that ends in a line break and then what follows is
      rendering the two and joining the results. */
  lemma RenderAppendLine(a: string, b: string, m: map<string, string>)
    requires |a| > 0 && a[|a| - 1] == '\n'
    ensures Render(a + b, m) == Then(Render(a, m), Render(b, m))
  {
    ScanAppendLine(a, b);
    RenderPiecesAppend(Scan(a), Scan(b), m);
  }

  /** The first line of `s` as `for line in file` yields it: up to and
      including the first line break, or all of `s`. */
  function FirstLine(s: string): (line: string)
    requires |s| > 0
    ensures 0 < |line| <= |s| && line == s[..|line|]
    ensures '\n' !in line[..|line| - 1]
    ensures line[|line| - 1] == '\n' || line == s
  {
    if '\n' in s then s[..IndexOf(s, '\n') + 1] else s
  }

  /** What a line-by-line rendering leaves behind: the text written so far,
      how much of the template it covers, and the error that stopped it. */
  datatype Partial = Partial(written: string, consumed: nat, err: Option<Error>)

  /** `_do_replace`'s loop: renders and writes one line at a time, stopping
      at the first line whose rendering raises. */
  function RenderByLines(s: string, m: map<string, string>): Partial
    decreases |s|
  {
    if |s| == 0 then Partial("", 0, None)
    else
      var line := FirstLine(s);
      match Render(line, m)
      case Failure(e) => Partial("", 0, Some(e))
      case Success(r) =>
        var rest := RenderByLines(s[|line|..], m);
        Partial(r + rest.written, |line| + rest.consumed, rest.err)
  }

  /** What line-by-line rendering promises about its partial result `p`. */
  predicate AgreesWithRender(s: string, m: map<string, string>, p: Partial) {
    && p.consumed <= |s|
    && (p.err.None? ==> p.consumed == |s| && Render(s, m) == Success(p.written))
    && (p.err.Some? ==>
          && Render(s, m) == Failure(p.err.value)
          && Render(s[..p.consumed], m) == Success(p.written)
          && p.consumed < |s|
          && (p.consumed == 0 || s[p.consumed - 1] == '\n'))
  }

  /** Line-by-line rendering agrees with whole-text rendering: on success it
      writes the whole rendering; on failure it raises the same error after
      writing the rendering of the complete lines before the failing one. */
  lemma {:induction false} RenderByLinesAgrees(s: string, m: map<string, string>)
    ensures AgreesWithRender(s, m, RenderByLines(s, m))
    decreases |s|
  {
    if |s| == 0 {
      assert Scan(s) == [];
    } else if FirstLine(s) == s {
      LastLineAgrees(s, m);
    } else {
      var line := FirstLine(s);
      RenderByLinesAgrees(s[|line|..], m);
      LineStepAgrees(s, m);
    }
  }

  lemma LastLineAgrees(s: string, m: map<string, string>)
    requires |s| > 0 && FirstLine(s) == s
    ensures AgreesWithRender(s, m, RenderByLines(s, m))
  {
    assert s[|s|..] == [];
    assert s[..0] == "";
    assert Scan("") == [];
    var p := RenderByLines(s, m);
    assert RenderByLines(s[|s|..], m) == Partial("", 0, None);
    match Render(s, m)
    case Failure(e) =>
      assert p == Partial("", 0, Some(e));
    case Success(r) =>
      assert p == Partial(r + "", |s|, None);
      assert r + "" == r;
  }

  lemma LineStepAgrees(s: string, m: map<string, string>)
    requires |s| > 0 && FirstLine(s) != s
    requires AgreesWithRender(s[|FirstLine(s)|..], m, RenderByLines(s[|FirstLine(s)|..], m))
    ensures AgreesWithRender(s, m, RenderByLines(s, m))
  {
    var line := FirstLine(s);
    var rest := s[|line|..];
    RenderByLinesStep(s, m);
    StepAgrees(s, line, rest, m, Render(line, m), RenderByLines(rest, m), RenderByLines(s, m));
  }

  /** One turn of the loop: the first line, then the rest. */
  lemma RenderByLinesStep(s: string, m: map<string, string>)
    requires |s| > 0
    ensures var line := FirstLine(s);
            var rl := Render(line, m);
            var q := RenderByLines(s[|line|..], m);
            RenderByLines(s, m) ==
              if rl.Failure? then Partial("", 0, Some(rl.error))
              else Partial(rl.value + q.written, |line| + q.consumed, q.err)
  {
  }

  lemma StepAgrees(s: string, line: string, rest: string, m: map<string, string>,
                   rl: Result<string, Error>, q: Partial, p: Partial)
    requires s == line + rest && |line| > 0 && line[|line| - 1] == '\n'
    requires rl == Render(line, m)
    requires AgreesWithRender(rest, m, q)
    requires p == if rl.Failure? then Partial("", 0, Some(rl.error))
                  else Partial(rl.value + q.written, |line| + q.consumed, q.err)
    ensures AgreesWithRender(s, m, p)
  {
    RenderAppendLine(line, rest, m);
    if rl.Failure? {
      assert s[..0] == "";
      assert Scan("") == [];
    } else if q.err.Some? {
      assert s[..p.consumed] == line + rest[..q.consumed];
      RenderAppendLine(line, rest[..q.consumed], m);
    }
  }
}
