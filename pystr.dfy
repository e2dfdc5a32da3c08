/** The parts of Python's `str` and text-file behaviour that the executors
    rely on: `isspace`, `strip`, `startswith`/`endswith`, `split` on one
    separator, `replace(c, "")`, `readline`/`readlines`, `str(int)` and the
    ordering `<` on strings. */
module PyStr {

  /** `c.isspace()`: the characters Python treats as whitespace. */
  predicate IsSpace(c: char) {
    var n := c as int;
    n == 0x20 || 0x09 <= n <= 0x0D || 0x1C <= n <= 0x1F || n == 0x85 || n == 0xA0
    || n == 0x1680 || 0x2000 <= n <= 0x200A || n == 0x2028 || n == 0x2029
    || n == 0x202F || n == 0x205F || n == 0x3000
  }

  predicate AllSpace(s: string) {
    forall k | 0 <= k < |s| :: IsSpace(s[k])
  }

  /** Neither the first nor the last character is whitespace. */
  predicate Trimmed(s: string) {
    s == [] || (!IsSpace(s[0]) && !IsSpace(s[|s| - 1]))
  }

  /** `s.startswith(prefix)` */
  predicate StartsWith(s: string, prefix: string) {
    prefix <= s
  }

  /** `s.endswith(suffix)` */
  predicate EndsWith(s: string, suffix: string) {
    |suffix| <= |s| && s[|s| - |suffix|..] == suffix
  }

  /** `s.lstrip()` */
  function StripStart(s: string): string {
    if s != [] && IsSpace(s[0]) then StripStart(s[1..]) else s
  }

  /** `s.rstrip()` */
  function StripEnd(s: string): string {
    if s != [] && IsSpace(s[|s| - 1]) then StripEnd(s[..|s| - 1]) else s
  }

  /** `lstrip` drops exactly the leading whitespace. */
  lemma {:induction false} StripStartDropsLeadingSpace(s: string)
    ensures var r := StripStart(s);
      |r| <= |s| && r == s[|s| - |r|..] && AllSpace(s[..|s| - |r|]) && (r == [] || !IsSpace(r[0]))
  {
    if s != [] && IsSpace(s[0]) {
      StripStartDropsLeadingSpace(s[1..]);
      var r := StripStart(s);
      assert s[..|s| - |r|] == [s[0]] + s[1..][..|s| - 1 - |r|];
    }
  }

  /** `rstrip` drops exactly the trailing whitespace. */
  lemma {:induction false} StripEndDropsTrailingSpace(s: string)
    ensures var r := StripEnd(s);
      |r| <= |s| && r == s[..|r|] && AllSpace(s[|r|..]) && (r == [] || !IsSpace(r[|r| - 1]))
  {
    if s != [] && IsSpace(s[|s| - 1]) {
      StripEndDropsTrailingSpace(s[..|s| - 1]);
      var r := StripEnd(s);
      assert s[|r|..] == s[..|s| - 1][|r|..] + [s[|s| - 1]];
    }
  }

  /** `s.strip()` */
  function Strip(s: string): string {
    StripEnd(StripStart(s))
  }

  /** `strip` keeps the part of `s` between its leading and its trailing
      whitespace, and that part neither starts nor ends with whitespace. */
  lemma StripIsTrim(s: string)
    ensures Trimmed(Strip(s))
    ensures exists i, j :: 0 <= i <= j <= |s| && Strip(s) == s[i..j] && AllSpace(s[..i]) && AllSpace(s[j..])
  {
    var x := StripStart(s);
    var r := StripEnd(x);
    StripStartDropsLeadingSpace(s);
    StripEndDropsTrailingSpace(x);
    var i, j := |s| - |x|, |s| - |x| + |r|;
    assert r == s[i..j] && s[j..] == x[|r|..];
  }

  /** `f.readline().strip()` never holds a newline: the only newline
      `readline` can return is its last character, which `strip` drops. */
  lemma {:induction false} StrippedLineHasNoNewline(s: string)
    ensures '\n' !in Strip(ReadLine(s))
  {
    var line := ReadLine(s);
    var x := StripStart(line);
    var r := StripEnd(x);
    StripStartDropsLeadingSpace(line);
    StripEndDropsTrailingSpace(x);
    forall k | 0 <= k < |r|
      ensures r[k] != '\n'
    {
      var at := |line| - |x| + k;
      assert r[k] == line[at];
      if k == |r| - 1 {
        assert !IsSpace(r[k]) && IsSpace('\n');
      } else {
        assert at < |line| - 1;
      }
    }
  }

  /** `sep.join(pieces)` for a one-character separator. */
  function Join(pieces: seq<string>, sep: char): string
    requires |pieces| >= 1
  {
    if |pieces| == 1 then pieces[0] else pieces[0] + [sep] + Join(pieces[1..], sep)
  }

  /** `s.split(sep)` with an explicit one-character separator: every
      separator ends a piece, so adjacent separators give empty pieces. */
  function Split(s: string, sep: char): (r: seq<string>)
    ensures |r| >= 1
    ensures forall k | 0 <= k < |r| :: sep !in r[k]
    ensures Join(r, sep) == s
  {
    if s == [] then [[]]
    else
      var rest := Split(s[1..], sep);
      if s[0] == sep then
        assert s == [sep] + s[1..];
        [[]] + rest
      else
        var r := [[s[0]] + rest[0]] + rest[1..];
        assert r[1..] == rest[1..];
        r
  }

  /** A string without the separator is a single piece. */
  lemma {:induction false} SplitWithoutSeparator(a: string, sep: char)
    requires sep !in a
    ensures Split(a, sep) == [a]
  {
    if a != [] {
      SplitWithoutSeparator(a[1..], sep);
      assert [a[0]] + a[1..] == a;
    }
  }

  /** Splitting after a separator-free head yields the head, then the
      pieces of the rest. */
  lemma {:induction false} SplitAfterHead(a: string, b: string, sep: char)
    requires sep !in a
    ensures Split(a + [sep] + b, sep) == [a] + Split(b, sep)
  {
    var s := a + [sep] + b;
    if a == [] {
      assert s[1..] == b;
    } else {
      assert s[1..] == a[1..] + [sep] + b;
      SplitAfterHead(a[1..], b, sep);
      assert [a[0]] + a[1..] == a;
    }
  }

  /** `split` undoes `join` when no piece holds the separator. */
  lemma {:induction false} SplitJoin(pieces: seq<string>, sep: char)
    requires |pieces| >= 1
    requires forall k | 0 <= k < |pieces| :: sep !in pieces[k]
    ensures Split(Join(pieces, sep), sep) == pieces
  {
    if |pieces| == 1 {
      SplitWithoutSeparator(pieces[0], sep);
    } else {
      SplitJoin(pieces[1..], sep);
      SplitAfterHead(pieces[0], Join(pieces[1..], sep), sep);
    }
  }

  /** Joining peels off the last piece. */
  lemma {:induction false} JoinLast(pieces: seq<string>, sep: char)
    requires |pieces| >= 2
    ensures Join(pieces, sep) == Join(pieces[..|pieces| - 1], sep) + [sep] + pieces[|pieces| - 1]
  {
    if |pieces| > 2 {
      JoinLast(pieces[1..], sep);
      assert pieces[1..][..|pieces| - 2] == pieces[..|pieces| - 1][1..];
    }
  }

  /** `s.split(sep)[-1]` */
  function LastPiece(s: string, sep: char): string {
    var pieces := Split(s, sep);
    pieces[|pieces| - 1]
  }

  /** The last piece is what follows the last separator, or all of `s` when
      it has no separator. */
  lemma LastPieceIsTail(s: string, sep: char)
    ensures var t := LastPiece(s, sep);
      sep !in t && EndsWith(s, t) && (|t| == |s| || s[|s| - |t| - 1] == sep)
    ensures sep !in s ==> LastPiece(s, sep) == s
  {
    var pieces := Split(s, sep);
    var t := pieces[|pieces| - 1];
    if |pieces| >= 2 {
      JoinLast(pieces, sep);
      var head := Join(pieces[..|pieces| - 1], sep);
      assert s == head + [sep] + t;
      assert s[|s| - |t|..] == t;
    }
    if sep !in s {
      SplitWithoutSeparator(s, sep);
    }
  }

  /** `s.replace(c, "")` */
  function RemoveChar(s: string, c: char): string {
    if s == [] then []
    else (if s[0] == c then [] else [s[0]]) + RemoveChar(s[1..], c)
  }

  /** Every occurrence of `c` is removed and every other character kept as
      often as it occurs; a text without `c` is unchanged. */
  lemma {:induction false} RemoveCharCounts(s: string, c: char)
    ensures multiset(RemoveChar(s, c)) == multiset(s)[c := 0]
    ensures c !in s ==> RemoveChar(s, c) == s
  {
    if s != [] {
      RemoveCharCounts(s[1..], c);
      assert s == [s[0]] + s[1..];
      assert multiset(s) == multiset{s[0]} + multiset(s[1..]);
    }
  }

  /** Removing `c` works piece by piece, keeping the order of what is
      left: from a concatenation it removes from each part. */
  lemma {:induction false} RemoveCharAppend(a: string, b: string, c: char)
    ensures RemoveChar(a + b, c) == RemoveChar(a, c) + RemoveChar(b, c)
  {
    if a == [] {
      assert a + b == b;
    } else {
      RemoveCharAppend(a[1..], b, c);
      var ab := a + b;
      assert ab[0] == a[0] && ab[1..] == a[1..] + b;
      var h := if a[0] == c then [] else [a[0]];
      calc {
        RemoveChar(ab, c);
        h + RemoveChar(a[1..] + b, c);
        h + (RemoveChar(a[1..], c) + RemoveChar(b, c));
        (h + RemoveChar(a[1..], c)) + RemoveChar(b, c);
        RemoveChar(a, c) + RemoveChar(b, c);
      }
    }
  }

  /** A single character is dropped exactly when it is `c`. */
  lemma RemoveCharOne(x: char, c: char)
    ensures RemoveChar([x], c) == if x == c then [] else [x]
  {
    assert [x][1..] == [];
  }

  /** `f.readline()` at the start of a text whose content is `s`: everything
      up to and including the first newline, or all of `s` without one. */
  function ReadLine(s: string): (r: string)
    ensures r <= s
    ensures s != [] ==> r != []
    ensures forall k | 0 <= k < |r| - 1 :: r[k] != '\n'
    ensures r == s || (|r| > 0 && r[|r| - 1] == '\n')
  {
    if s == [] then []
    else if s[0] == '\n' then "\n"
    else [s[0]] + ReadLine(s[1..])
  }

  function Concat(lines: seq<string>): string {
    if lines == [] then [] else lines[0] + Concat(lines[1..])
  }

  /** `f.readlines()` (and iteration `for line in f`): the lines of `s`, each
      keeping its newline; together they are exactly `s`. */
  function ReadLines(s: string): (r: seq<string>)
    ensures Concat(r) == s
    ensures forall k | 0 <= k < |r| :: r[k] != []
    ensures forall k | 0 <= k < |r| - 1 :: r[k][|r[k]| - 1] == '\n'
    decreases |s|
  {
    if s == [] then []
    else
      var line := ReadLine(s);
      assert s == line + s[|line|..];
      [line] + ReadLines(s[|line|..])
  }

  /** A line `readline` returns is its own first line. */
  lemma {:induction false} ReadLineOfLine(s: string)
    ensures ReadLine(ReadLine(s)) == ReadLine(s)
  {
    if s != [] && s[0] != '\n' {
      ReadLineOfLine(s[1..]);
      assert ([s[0]] + ReadLine(s[1..]))[1..] == ReadLine(s[1..]);
    }
  }

  /** Each line `readlines` returns is a line `readline` would return. */
  lemma {:induction false} ReadLinesAreLines(s: string, k: int)
    requires 0 <= k < |ReadLines(s)|
    ensures ReadLine(ReadLines(s)[k]) == ReadLines(s)[k]
    decreases |s|
  {
    var line := ReadLine(s);
    if k == 0 {
      ReadLineOfLine(s);
    } else {
      ReadLinesAreLines(s[|line|..], k - 1);
    }
  }

  function DigitChar(d: nat): char
    requires d < 10
  {
    "0123456789"[d]
  }

  /** The decimal digits of `n`, without leading zeros. */
  function NatDigits(n: nat): string {
    if n < 10 then [DigitChar(n)] else NatDigits(n / 10) + [DigitChar(n % 10)]
  }

  /** The digits are decimal digits, and only zero starts with `0`. */
  lemma {:induction false} NatDigitsShape(n: nat)
    ensures NatDigits(n) != [] && forall k | 0 <= k < |NatDigits(n)| :: '0' <= NatDigits(n)[k] <= '9'
    ensures NatDigits(n)[0] == '0' <==> n == 0
    ensures |NatDigits(n)| == 1 || NatDigits(n)[0] != '0'
  {
    if n >= 10 {
      NatDigitsShape(n / 10);
      assert NatDigits(n)[0] == NatDigits(n / 10)[0];
    }
  }

  /** `str(n)` for a Python `int`. */
  function DecimalString(n: int): string {
    if n < 0 then "-" + NatDigits(-n) else NatDigits(n)
  }

  /** `int(s)` for a string of decimal digits with an optional minus sign. */
  function ParseDigits(s: string): int {
    if s == [] then 0 else 10 * ParseDigits(s[..|s| - 1]) + (s[|s| - 1] as int - '0' as int)
  }

  function ParseDecimal(s: string): int {
    if s != [] && s[0] == '-' then -ParseDigits(s[1..]) else ParseDigits(s)
  }

  lemma {:induction false} NatDigitsRoundTrip(n: nat)
    ensures ParseDigits(NatDigits(n)) == n
  {
    if n >= 10 {
      NatDigitsRoundTrip(n / 10);
      var s := NatDigits(n);
      assert s[..|s| - 1] == NatDigits(n / 10);
    }
  }

  /** `int(str(n)) == n`: the decimal text of an integer denotes it. */
  lemma {:induction false} DecimalRoundTrip(n: int)
    ensures ParseDecimal(DecimalString(n)) == n
  {
    if n < 0 {
      assert DecimalString(n) == "-" + NatDigits(-n);
      NegativeRoundTrip(-n);
    } else {
      assert DecimalString(n) == NatDigits(n);
      NonNegativeRoundTrip(n);
    }
  }

  lemma {:induction false} NonNegativeRoundTrip(m: nat)
    ensures ParseDecimal(NatDigits(m)) == m
  {
    NatDigitsShape(m);
    NatDigitsRoundTrip(m);
  }

  lemma {:induction false} NegativeRoundTrip(m: nat)
    ensures ParseDecimal("-" + NatDigits(m)) == -(m as int)
  {
    var s := "-" + NatDigits(m);
    assert s[0] == '-';
    assert s[1..] == NatDigits(m);
    NatDigitsRoundTrip(m);
  }

  /** Only zero is written "0". */
  lemma {:induction false} DecimalZero(n: int)
    ensures DecimalString(n) == "0" <==> n == 0
  {
    if n < 0 {
      assert DecimalString(n)[0] == '-';
    } else {
      NatDigitsShape(n);
    }
  }

  /** `a < b` on Python strings: lexicographic by code point, a proper
      prefix coming first. */
  predicate StrLt(a: string, b: string) {
    if a == [] then b != []
    else b != [] && (a[0] < b[0] || (a[0] == b[0] && StrLt(a[1..], b[1..])))
  }

  /** `k` is the first position where `a` and `b` differ, and `a` has the
      smaller character there. */
  predicate SmallerAt(a: string, b: string, k: nat) {
    k < |a| && k < |b| && a[..k] == b[..k] && a[k] < b[k]
  }

  /** The ordering agrees with its textbook definition: `a` is a proper
      prefix of `b`, or at the first difference `a` has the smaller
      character. */
  lemma StrLtIsLexicographic(a: string, b: string)
    ensures StrLt(a, b) <==> (|a| < |b| && a == b[..|a|]) || exists k: nat :: SmallerAt(a, b, k)
  {
    if StrLt(a, b) {
      StrLtHasWitness(a, b);
    }
    if |a| < |b| && a == b[..|a|] {
      ProperPrefixIsLess(a, b);
    }
    if k: nat :| SmallerAt(a, b, k) {
      SmallerAtIsLess(a, b, k);
    }
  }

  lemma {:induction false} StrLtHasWitness(a: string, b: string)
    requires StrLt(a, b)
    ensures (|a| < |b| && a == b[..|a|]) || exists k: nat :: SmallerAt(a, b, k)
  {
    if a == [] {
    } else if a[0] < b[0] {
      assert SmallerAt(a, b, 0);
    } else {
      StrLtHasWitness(a[1..], b[1..]);
      if |a| - 1 < |b| - 1 && a[1..] == b[1..][..|a| - 1] {
        assert a == [a[0]] + a[1..] && b[..|a|] == [b[0]] + b[1..][..|a| - 1];
      } else {
        var k: nat :| SmallerAt(a[1..], b[1..], k);
        assert a[..k + 1] == [a[0]] + a[1..][..k] && b[..k + 1] == [b[0]] + b[1..][..k];
        assert SmallerAt(a, b, k + 1);
      }
    }
  }

  lemma {:induction false} ProperPrefixIsLess(a: string, b: string)
    requires |a| < |b| && a == b[..|a|]
    ensures StrLt(a, b)
  {
    if a != [] {
      assert a[0] == b[0];
      assert a[1..] == b[1..][..|a| - 1];
      ProperPrefixIsLess(a[1..], b[1..]);
    }
  }

  lemma {:induction false} SmallerAtIsLess(a: string, b: string, k: nat)
    requires SmallerAt(a, b, k)
    ensures StrLt(a, b)
  {
    if k > 0 {
      assert a[0] == a[..k][0] == b[..k][0] == b[0];
      assert a[1..][..k - 1] == a[..k][1..] && b[1..][..k - 1] == b[..k][1..];
      SmallerAtIsLess(a[1..], b[1..], k - 1);
    }
  }

  lemma {:induction false} StrLtIrreflexive(a: string)
    ensures !StrLt(a, a)
  {
    if a != [] {
      StrLtIrreflexive(a[1..]);
    }
  }

  lemma {:induction false} StrLtTransitive(a: string, b: string, c: string)
    requires StrLt(a, b) && StrLt(b, c)
    ensures StrLt(a, c)
  {
    if a != [] && a[0] == b[0] && b[0] == c[0] {
      StrLtTransitive(a[1..], b[1..], c[1..]);
    }
  }

  lemma {:induction false} StrLtTotal(a: string, b: string)
    requires a != b
    ensures StrLt(a, b) || StrLt(b, a)
  {
    if a != [] && b != [] && a[0] == b[0] {
      assert a == [a[0]] + a[1..] && b == [b[0]] + b[1..];
      StrLtTotal(a[1..], b[1..]);
    }
  }
}
