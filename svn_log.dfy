/** Reading `svn log -v -q` output, as PluginListService does it: the two line
    recognisers of the diff path, the loop that carries the last values they
    matched, and the HEAD revision read from the second output line. */
module SvnLog {
  import opened Wrappers
  import opened Text
  import opened Php

  /** A revision argument of `svn log -r FROM:TO`. */
  datatype RevSpec = Rev(n: int) | Head

  /** The `-r` range of an `svn log` query. */
  datatype LogQuery = LogQuery(from: RevSpec, to: RevSpec)

  /** Revision `r` lies in the range a query asks for (HEAD is no bound). */
  predicate Covers(q: LogQuery, r: int) {
    && (match q.from case Rev(n) => n <= r case Head => false)
    && (match q.to case Rev(n) => r <= n case Head => true)
  }

  /** The query of the diff path: every revision after the last one recorded,
      up to HEAD, and no other. */
  function DiffQuery(lastRevision: int): (q: LogQuery)
    ensures forall r :: Covers(q, r) <==> lastRevision < r
    ensures q.to == Head
  {
    LogQuery(Rev(lastRevision + 1), Head)
  }

  // ---------------------------------------------------------------------
  // The action-marker line: `#^   [ADMR] /([A-z]+)/#`
  // ---------------------------------------------------------------------

  predicate IsActionCode(c: char) {
    c == 'A' || c == 'D' || c == 'M' || c == 'R'
  }

  /** The captured name when `line` matches `^   [ADMR] /([A-z]+)/`. The
      capture then goes through `trim()`, which is the identity here: no
      character of `[A-z]` is whitespace. */
  function ActionMarker(line: string): Option<string> {
    if |line| >= 6 && line[..3] == "   " && IsActionCode(line[3]) && line[4] == ' ' && line[5] == '/' then
      var n := Span(line, 6, AsciiAtoz);
      if n > 0 && 6 + n < |line| && line[6 + n] == '/' then Some(line[6..6 + n]) else None
    else None
  }

  /** The shape of a line the action-marker pattern accepts. */
  function ActionLine(code: char, name: string, rest: string): string {
    "   " + [code] + " /" + name + "/" + rest
  }

  predicate IsActionName(name: string) {
    |name| > 0 && forall i :: 0 <= i < |name| ==> InClass(name[i], AsciiAtoz)
  }

  /** Every line of that shape is recognised, with its name captured. */
  lemma ActionMarkerComplete(code: char, name: string, rest: string)
    requires IsActionCode(code) && IsActionName(name)
    ensures ActionMarker(ActionLine(code, name, rest)) == Some(name)
  {
    var line := ActionLine(code, name, rest);
    assert line[..3] == "   ";
    assert line[6..6 + |name|] == name;
    assert line[6 + |name|] == '/';
    SpanExact(line, 6, |name|, AsciiAtoz);
  }

  /** ... and only lines of that shape are: the other half of the
      characterisation. */
  lemma ActionMarkerSound(line: string)
    requires ActionMarker(line).Some?
    ensures var name := ActionMarker(line).value;
      && IsActionCode(line[3]) && IsActionName(name)
      && line == ActionLine(line[3], name, line[7 + |name|..])
  {
    var name := ActionMarker(line).value;
    assert line[..3] == "   ";
    assert line == line[..3] + [line[3]] + line[4..6] + line[6..6 + |name|] + [line[6 + |name|]] + line[7 + |name|..];
  }

  /** A hyphen ends the `[A-z]` run without the closing slash, so a plugin
      whose slug holds one is never reported by the diff. */
  lemma HyphenatedSlugNotMatched()
    ensures ActionMarker("   M /my-plugin/trunk/readme.txt") == None
  {
    var line := "   M /my-plugin/trunk/readme.txt";
    assert line[6] == 'm' && line[7] == 'y' && line[8] == '-';
    SpanExact(line, 6, 2, AsciiAtoz);
  }

  /** A digit ends the run in the same way. */
  lemma SlugWithDigitNotMatched()
    ensures ActionMarker("   A /plugin2/trunk/readme.txt") == None
  {
    var line := "   A /plugin2/trunk/readme.txt";
    assert line[6] == 'p' && line[7] == 'l' && line[8] == 'u' && line[9] == 'g' && line[10] == 'i' && line[11] == 'n';
    assert line[12] == '2';
    SpanExact(line, 6, 6, AsciiAtoz);
  }

  // ---------------------------------------------------------------------
  // The revision header: `#^r([0-9]+) \|#`
  // ---------------------------------------------------------------------

  /** The revision number when `line` matches `^r([0-9]+) \|`, after PHP's
      `(int)` cast of the digits. */
  function RevisionHeader(line: string): Option<int> {
    if |line| >= 1 && line[0] == 'r' then
      var n := Span(line, 1, Digit);
      if n > 0 && 3 + n <= |line| && line[1 + n] == ' ' && line[2 + n] == '|' then Some(IntCast(line[1..1 + n]))
      else None
    else None
  }

  /** The header line svn prints for revision `n`. */
  function HeaderLine(n: nat, rest: string): string {
    "r" + Decimal(n) + " |" + rest
  }

  /** Every header line is recognised, with its revision number read back. */
  lemma {:induction false} RevisionHeaderComplete(n: nat, rest: string)
    requires n <= IntMax
    ensures RevisionHeader(HeaderLine(n, rest)) == Some(n)
  {
    var d := Decimal(n);
    var line := HeaderLine(n, rest);
    assert line[1..1 + |d|] == d;
    assert line[1 + |d|] == ' ';
    SpanExact(line, 1, |d|, Digit);
    DigitsValueOfDecimal(n);
  }

  /** ... and every line it recognises is one: `r`, a non-empty run of
      digits, " |", then anything, with the digits' value read back. */
  lemma RevisionHeaderSound(line: string)
    requires RevisionHeader(line).Some?
    ensures exists d, rest :: AllDigits(d) && |d| > 0 && line == "r" + d + " |" + rest && RevisionHeader(line) == Some(IntCast(d))
  {
    var n := Span(line, 1, Digit);
    var d := line[1..1 + n];
    var rest := line[3 + n..];
    assert line == "r" + d + " |" + rest;
  }

  /** No line is both an action marker and a revision header, so the order of
      the two `preg_match` calls in the loop body does not matter: each line
      updates at most one of `$plugin` and `$revision` (see Step). */
  lemma MarkersAndHeadersAreDisjoint(line: string)
    ensures !(ActionMarker(line).Some? && RevisionHeader(line).Some?)
  {
    if ActionMarker(line).Some? {
      assert line[..3] == "   " && line[0] == ' ';
    }
  }

  // ---------------------------------------------------------------------
  // The parse loop of the diff path
  // ---------------------------------------------------------------------

  /** What the loop carries between lines: the last action-marker name and
      the last revision number seen (None while `$plugin` or `$revision` is
      still unassigned). */
  datatype ParseState = ParseState(plugin: Option<string>, revision: Option<int>)

  const Unassigned := ParseState(None, None)

  /** One iteration of the loop. */
  function Step(st: ParseState, line: string): ParseState {
    var name := ActionMarker(line);
    var rev := RevisionHeader(line);
    ParseState(if name.Some? then name else st.plugin, if rev.Some? then rev else st.revision)
  }

  /** The loop over `lines`, started in `st`. */
  function Run(st: ParseState, lines: seq<string>): ParseState
    decreases |lines|
  {
    if lines == [] then st else Step(Run(st, lines[..|lines| - 1]), lines[|lines| - 1])
  }

  /** The loop as the source writes it. */
  method ParseLog(lines: seq<string>) returns (st: ParseState)
    ensures st == Run(Unassigned, lines)
  {
    st := Unassigned;
    for i := 0 to |lines|
      invariant st == Run(Unassigned, lines[..i])
    {
      var name := ActionMarker(lines[i]);
      if name.Some? {
        st := st.(plugin := name);
      }
      var rev := RevisionHeader(lines[i]);
      if rev.Some? {
        st := st.(revision := rev);
      }
      assert lines[..i + 1][..i] == lines[..i];
    }
    assert lines[..|lines|] == lines;
  }

  /** After the loop, `plugin` holds the name of the last action-marker line. */
  lemma {:induction false} LastMarkerWins(st: ParseState, lines: seq<string>, i: nat)
    requires i < |lines| && ActionMarker(lines[i]).Some?
    requires forall j :: i < j < |lines| ==> ActionMarker(lines[j]).None?
    ensures Run(st, lines).plugin == ActionMarker(lines[i])
    decreases |lines|
  {
    if i < |lines| - 1 {
      var prefix := lines[..|lines| - 1];
      assert prefix[i] == lines[i];
      LastMarkerWins(st, prefix, i);
    }
  }

  /** Without any action-marker line, `plugin` keeps its value. */
  lemma {:induction false} NoMarkerKeepsPlugin(st: ParseState, lines: seq<string>)
    requires forall j :: 0 <= j < |lines| ==> ActionMarker(lines[j]).None?
    ensures Run(st, lines).plugin == st.plugin
    decreases |lines|
  {
    if lines != [] {
      NoMarkerKeepsPlugin(st, lines[..|lines| - 1]);
    }
  }

  /** After the loop, `revision` holds the number of the last header line. */
  lemma {:induction false} LastHeaderWins(st: ParseState, lines: seq<string>, i: nat)
    requires i < |lines| && RevisionHeader(lines[i]).Some?
    requires forall j :: i < j < |lines| ==> RevisionHeader(lines[j]).None?
    ensures Run(st, lines).revision == RevisionHeader(lines[i])
    decreases |lines|
  {
    if i < |lines| - 1 {
      var prefix := lines[..|lines| - 1];
      assert prefix[i] == lines[i];
      LastHeaderWins(st, prefix, i);
    }
  }

  /** Without any header line, `revision` keeps its value. */
  lemma {:induction false} NoHeaderKeepsRevision(st: ParseState, lines: seq<string>)
    requires forall j :: 0 <= j < |lines| ==> RevisionHeader(lines[j]).None?
    ensures Run(st, lines).revision == st.revision
    decreases |lines|
  {
    if lines != [] {
      NoHeaderKeepsRevision(st, lines[..|lines| - 1]);
    }
  }

  /** Lines that match neither pattern change nothing. */
  lemma {:induction false} UnmatchedLinesChangeNothing(st: ParseState, lines: seq<string>, noise: seq<string>)
    requires forall j :: 0 <= j < |noise| ==> ActionMarker(noise[j]).None? && RevisionHeader(noise[j]).None?
    ensures Run(st, lines + noise) == Run(st, lines)
    decreases |noise|
  {
    if noise != [] {
      var shorter := noise[..|noise| - 1];
      assert (lines + noise)[..|lines + noise| - 1] == lines + shorter;
      UnmatchedLinesChangeNothing(st, lines, shorter);
    } else {
      assert lines + noise == lines;
    }
  }

  // ---------------------------------------------------------------------
  // The HEAD revision: `preg_match('/([0-9]+) \|/', $output[1], $matches)`
  // ---------------------------------------------------------------------

  /** The leftmost match of the unanchored `([0-9]+) \|` in `line[i..]`. */
  function FindRevision(line: string, i: nat): (r: Option<int>)
    requires i <= |line|
    ensures r.Some? ==> 0 <= r.value <= IntMax
    decreases |line| - i
  {
    if i == |line| then None
    else
      var n := Span(line, i, Digit);
      if n > 0 && i + n + 2 <= |line| && line[i + n] == ' ' && line[i + n + 1] == '|' then Some(IntCast(line[i..i + n]))
      else FindRevision(line, i + 1)
  }

  /** `(int) $matches[1]` for the second output line: the first number
      followed by " |", and 0 when there is none (the emptied `$matches`
      reads as null, and `(int) null` is 0). Without a second line
      `$output[1]` is null, which `preg_match` refuses under strict types:
      None, a TypeError. */
  function HeadRevision(lines: seq<string>): (r: Option<int>)
    ensures r.None? <==> |lines| < 2
    ensures r.Some? ==> 0 <= r.value <= IntMax
    ensures |lines| >= 2 && FindRevision(lines[1], 0).None? ==> r == Some(0)
  {
    if |lines| < 2 then None
    else match FindRevision(lines[1], 0)
      case Some(n) => Some(n)
      case None => Some(0)
  }

  /** `([0-9]+) \|` matches `line` at position `k` with group `d`: a
      non-empty run of digits starting at `k`, then " |". */
  predicate MatchAt(line: string, k: nat, d: string) {
    && |d| > 0 && AllDigits(d)
    && k + |d| + 2 <= |line|
    && line[k..k + |d| + 2] == d + " |"
  }

  /** No match starts at a position in `[i, j)`. */
  ghost predicate NoMatchBetween(line: string, i: nat, j: nat) {
    forall k: nat, d: string :: i <= k < j ==> !MatchAt(line, k, d)
  }

  /** At a given position the group is the whole run of digits there, so a
      match at `k` is decided by `Span`. */
  lemma MatchAtSpan(line: string, k: nat, d: string)
    requires k <= |line|
    ensures MatchAt(line, k, d) <==>
      var n := Span(line, k, Digit);
      n > 0 && k + n + 2 <= |line| && line[k + n] == ' ' && line[k + n + 1] == '|' && d == line[k..k + n]
  {
    if MatchAt(line, k, d) {
      forall j | k <= j < k + |d| ensures InClass(line[j], Digit) {
        assert line[j] == line[k..k + |d| + 2][j - k] == d[j - k];
      }
      assert line[k + |d|] == line[k..k + |d| + 2][|d|] == ' ';
      assert line[k + |d| + 1] == line[k..k + |d| + 2][|d| + 1] == '|';
      SpanExact(line, k, |d|, Digit);
      assert d == line[k..k + |d| + 2][..|d|] == line[k..k + |d|];
    }
    var n := Span(line, k, Digit);
    if n > 0 && k + n + 2 <= |line| && line[k + n] == ' ' && line[k + n + 1] == '|' && d == line[k..k + n] {
      assert line[k..k + |d| + 2] == d + " |";
    }
  }

  /** `FindRevision` returns the group of the leftmost match from `i`. */
  lemma {:induction false} FindRevisionComplete(line: string, i: nat, k: nat, d: string)
    requires i <= k
    requires MatchAt(line, k, d)
    requires NoMatchBetween(line, i, k)
    ensures FindRevision(line, i) == Some(IntCast(d))
    decreases k - i
  {
    MatchAtSpan(line, i, line[i..i + Span(line, i, Digit)]);
    if i < k {
      assert !MatchAt(line, i, line[i..i + Span(line, i, Digit)]);
      FindRevisionComplete(line, i + 1, k, d);
    } else {
      MatchAtSpan(line, k, d);
    }
  }

  /** With no match from `i` on, `FindRevision` finds nothing. */
  lemma {:induction false} FindRevisionNone(line: string, i: nat)
    requires i <= |line|
    requires NoMatchBetween(line, i, |line|)
    ensures FindRevision(line, i).None?
    decreases |line| - i
  {
    if i < |line| {
      MatchAtSpan(line, i, line[i..i + Span(line, i, Digit)]);
      assert !MatchAt(line, i, line[i..i + Span(line, i, Digit)]);
      FindRevisionNone(line, i + 1);
    }
  }

  /** ... and what it finds is such a leftmost match, read by `(int)`. */
  lemma {:induction false} FindRevisionSound(line: string, i: nat)
    requires i <= |line|
    requires FindRevision(line, i).Some?
    ensures exists k: nat, d :: i <= k && MatchAt(line, k, d) && NoMatchBetween(line, i, k) && FindRevision(line, i) == Some(IntCast(d))
    decreases |line| - i
  {
    var d := line[i..i + Span(line, i, Digit)];
    MatchAtSpan(line, i, d);
    if MatchAt(line, i, d) {
      assert NoMatchBetween(line, i, i);
    } else {
      FindRevisionSound(line, i + 1);
      var k: nat, e :| i + 1 <= k && MatchAt(line, k, e) && NoMatchBetween(line, i + 1, k) && FindRevision(line, i + 1) == Some(IntCast(e));
      forall k': nat, d': string | i <= k' < k ensures !MatchAt(line, k', d') {
        if k' == i {
          MatchAtSpan(line, i, d');
        }
      }
      assert NoMatchBetween(line, i, k);
    }
  }

  /** What the HEAD-revision read gives for any output of two or more lines:
      the group of the leftmost match on the second line, read by `(int)`,
      or 0 when that line holds no match. */
  lemma HeadRevisionReads(lines: seq<string>, k: nat, d: string)
    ensures |lines| >= 2 && NoMatchBetween(lines[1], 0, |lines[1]|) ==> HeadRevision(lines) == Some(0)
    ensures |lines| >= 2 && MatchAt(lines[1], k, d) && NoMatchBetween(lines[1], 0, k) ==> HeadRevision(lines) == Some(IntCast(d))
  {
    if |lines| >= 2 {
      if NoMatchBetween(lines[1], 0, |lines[1]|) {
        FindRevisionNone(lines[1], 0);
      }
      if MatchAt(lines[1], k, d) && NoMatchBetween(lines[1], 0, k) {
        FindRevisionComplete(lines[1], 0, k, d);
      }
    }
  }

  /** For the output svn prints (a dashed separator, then the header of the
      revision), the HEAD revision is that revision's number. */
  lemma HeadRevisionOfSvnOutput(separator: string, n: nat, rest: string, more: seq<string>)
    requires n <= IntMax
    ensures HeadRevision([separator, HeaderLine(n, rest)] + more) == Some(n)
  {
    var line := HeaderLine(n, rest);
    var d := Decimal(n);
    assert line[0] == 'r' && !InClass(line[0], Digit);
    assert Span(line, 0, Digit) == 0;
    assert line[1..1 + |d|] == d;
    assert line[1 + |d|] == ' ';
    SpanExact(line, 1, |d|, Digit);
    DigitsValueOfDecimal(n);
    assert FindRevision(line, 1) == Some(n);
    assert ([separator, line] + more)[1] == line;
  }
}
