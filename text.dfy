/** String helpers shared by the line recognisers: character classes and the
    greedy runs a regular expression's `[...]+` consumes, decimal digits, and
    PHP's `explode(PHP_EOL, ...)` line splitting. */
module Text {

  /** The character classes the recognised patterns use. */
  datatype CharClass =
    | AsciiAtoz   // `[A-z]`: every code point from 'A' (65) to 'z' (122), so also [ \ ] ^ _ and `
    | Digit       // `[0-9]`
    | NotSlash    // `[^/]`

  predicate InClass(c: char, k: CharClass) {
    match k
    case AsciiAtoz => 'A' <= c <= 'z'
    case Digit => '0' <= c <= '9'
    case NotSlash => c != '/'
  }

  /** Length of the longest run of characters of class `k` starting at `s[i]`:
      what a greedy `k+` consumes before the pattern goes on. */
  function Span(s: string, i: nat, k: CharClass): (n: nat)
    requires i <= |s|
    ensures i + n <= |s|
    ensures forall j :: i <= j < i + n ==> InClass(s[j], k)
    ensures i + n == |s| || !InClass(s[i + n], k)
    decreases |s| - i
  {
    if i < |s| && InClass(s[i], k) then 1 + Span(s, i + 1, k) else 0
  }

  /** A run that is all of class `k` and is not followed by one more such
      character is exactly what `Span` measures. */
  lemma SpanExact(s: string, i: nat, n: nat, k: CharClass)
    requires i + n <= |s|
    requires forall j :: i <= j < i + n ==> InClass(s[j], k)
    requires i + n == |s| || !InClass(s[i + n], k)
    ensures Span(s, i, k) == n
  {
  }

  /** `s` split after its longest prefix of class `k`: what a greedy `k+`
      consumes at the start of `s`, and what is left for the rest of the
      pattern. */
  function Split(s: string, k: CharClass): (r: (string, string))
    ensures r.0 + r.1 == s
    ensures forall i :: 0 <= i < |r.0| ==> InClass(r.0[i], k)
    ensures r.1 == [] || !InClass(r.1[0], k)
  {
    var n := Span(s, 0, k);
    assert s[..n] + s[n..] == s;
    (s[..n], s[n..])
  }

  /** A run of class `k` followed by a character outside it is split off
      exactly. */
  lemma SplitOfRun(s: string, q: string, k: CharClass)
    requires forall i :: 0 <= i < |s| ==> InClass(s[i], k)
    requires q == [] || !InClass(q[0], k)
    ensures Split(s + q, k) == (s, q)
  {
    var t := s + q;
    if q != [] {
      assert t[|s|] == q[0];
    }
    SpanExact(t, 0, |s|, k);
    assert t[..|s|] == s;
    assert t[|s|..] == q;
  }

  predicate AllDigits(s: string) {
    forall i :: 0 <= i < |s| ==> InClass(s[i], Digit)
  }

  function DigitChar(d: nat): (c: char)
    requires d < 10
    ensures InClass(c, Digit)
  {
    ('0' as int + d) as char
  }

  /** The decimal notation of `n`, without leading zeros. */
  function Decimal(n: nat): (s: string)
    ensures |s| > 0 && AllDigits(s)
  {
    if n < 10 then [DigitChar(n)] else Decimal(n / 10) + [DigitChar(n % 10)]
  }

  /** The number a string of decimal digits denotes. */
  function DigitsValue(s: string): nat
    requires AllDigits(s)
  {
    if s == [] then 0 else 10 * DigitsValue(s[..|s| - 1]) + (s[|s| - 1] as int - '0' as int)
  }

  /** Reading back the decimal notation of a number gives the number. */
  lemma {:induction false} DigitsValueOfDecimal(n: nat)
    ensures DigitsValue(Decimal(n)) == n
  {
    if n >= 10 {
      var s := Decimal(n);
      assert s[..|s| - 1] == Decimal(n / 10);
      DigitsValueOfDecimal(n / 10);
    }
  }

  /** `explode("\n", s)`: the pieces of `s` between newlines; never empty, and
      `""` gives `[""]`. */
  function Lines(s: string): (r: seq<string>)
    ensures |r| >= 1
    ensures forall i :: 0 <= i < |r| ==> '\n' !in r[i]
  {
    if s == [] then [""]
    else
      var rest := Lines(s[1..]);
      if s[0] == '\n' then [""] + rest else [[s[0]] + rest[0]] + rest[1..]
  }

  /** `implode("\n", ls)`. */
  function Join(ls: seq<string>): string
    requires |ls| >= 1
    decreases |ls|
  {
    if |ls| == 1 then ls[0] else ls[0] + "\n" + Join(ls[1..])
  }

  /** Splitting and re-joining gives back the text. */
  lemma {:induction false} JoinLines(s: string)
    ensures Join(Lines(s)) == s
  {
    if s != [] {
      var rest := Lines(s[1..]);
      JoinLines(s[1..]);
      if s[0] == '\n' {
        assert ([""] + rest)[1..] == rest;
      } else if |rest| == 1 {
        assert Lines(s) == [[s[0]] + rest[0]];
      } else {
        var r := Lines(s);
        assert r[1..] == rest[1..];
        assert Join(rest) == rest[0] + "\n" + Join(rest[1..]);
      }
    }
  }

  /** A newline-free prefix is glued to the first line of what follows it. */
  lemma {:induction false} LinesOfPrefixed(a: string, t: string)
    requires '\n' !in a
    ensures Lines(a + t) == [a + Lines(t)[0]] + Lines(t)[1..]
  {
    if a != [] {
      assert (a + t)[1..] == a[1..] + t;
      LinesOfPrefixed(a[1..], t);
      assert [a[0]] + (a[1..] + Lines(t)[0]) == a + Lines(t)[0];
    } else {
      assert a + t == t;
      assert a + Lines(t)[0] == Lines(t)[0];
      assert Lines(t) == [Lines(t)[0]] + Lines(t)[1..];
    }
  }

  /** Joining newline-free lines and splitting again gives back the lines. */
  lemma {:induction false} LinesJoin(ls: seq<string>)
    requires |ls| >= 1
    requires forall i :: 0 <= i < |ls| ==> '\n' !in ls[i]
    ensures Lines(Join(ls)) == ls
    decreases |ls|
  {
    if |ls| == 1 {
      LinesOfPrefixed(ls[0], "");
      assert ls[0] + "" == ls[0];
    } else {
      var t := "\n" + Join(ls[1..]);
      LinesJoin(ls[1..]);
      assert t[1..] == Join(ls[1..]);
      assert Lines(t) == [""] + ls[1..];
      LinesOfPrefixed(ls[0], t);
      assert ls[0] + t == Join(ls);
      assert ls[0] + "" == ls[0];
    }
  }
}
