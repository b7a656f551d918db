/** Python string operations on ASCII text, and positional numerals. */
module Text {
  import opened Common

  // ---------------------------------------------------------------- whitespace

  /** `str.isspace` for the characters below U+0100. */
  predicate IsSpace(c: char) {
    || c == ' ' || '\t' <= c <= '\r' || '\U{1c}' <= c <= '\U{1f}' || c == '\U{85}' || c == '\U{a0}'
  }

  lemma SpaceSet(c: char)
    ensures IsSpace(c) <==> c in " \t\n\U{b}\U{c}\r\U{1c}\U{1d}\U{1e}\U{1f}\U{85}\U{a0}"
  {
  }

  function TrimLeft(s: string): (r: string)
    ensures |r| <= |s|
    ensures r == "" || !IsSpace(r[0])
  {
    if s != "" && IsSpace(s[0]) then TrimLeft(s[1..]) else s
  }

  function TrimRight(s: string): (r: string)
    ensures |r| <= |s| && r == s[..|r|]
    ensures r == "" || !IsSpace(r[|r| - 1])
  {
    if s != "" && IsSpace(s[|s| - 1]) then TrimRight(s[..|s| - 1]) else s
  }

  function Strip(s: string): string {
    TrimRight(TrimLeft(s))
  }

  predicate AllSpace(s: string) {
    forall i :: 0 <= i < |s| ==> IsSpace(s[i])
  }

  /** Text that `strip` leaves alone. */
  predicate Bare(s: string) {
    s == "" || (!IsSpace(s[0]) && !IsSpace(s[|s| - 1]))
  }

  /** Stripping removes the padding and nothing else. */
  lemma {:induction false} StripPadded(left: string, s: string, right: string)
    requires AllSpace(left) && Bare(s) && AllSpace(right)
    ensures Strip(left + s + right) == s
  {
    TrimLeftPadded(left, s + right);
    assert left + (s + right) == left + s + right;
    if s == "" {
      assert s + right == right;
      TrimLeftPadded(right, "");
      assert right + "" == right;
    } else {
      assert TrimLeft(s + right) == s + right;
      TrimRightPadded(s, right);
    }
  }

  lemma {:induction false} TrimLeftPadded(left: string, s: string)
    requires AllSpace(left)
    ensures TrimLeft(left + s) == TrimLeft(s)
  {
    if left == "" {
      assert left + s == s;
    } else {
      assert (left + s)[1..] == left[1..] + s;
      TrimLeftPadded(left[1..], s);
    }
  }

  lemma {:induction false} TrimRightPadded(s: string, right: string)
    requires AllSpace(right) && s != "" && !IsSpace(s[|s| - 1])
    ensures TrimRight(s + right) == s
  {
    if right == "" {
      assert s + right == s;
    } else {
      assert (s + right)[..|s + right| - 1] == s + right[..|right| - 1];
      TrimRightPadded(s, right[..|right| - 1]);
    }
  }

  lemma StripBare(s: string)
    requires Bare(s)
    ensures Strip(s) == s
  {
    StripPadded("", s, "");
    assert "" + s + "" == s;
  }

  // ---------------------------------------------------------------- searching

  function IndexOf(s: string, c: char): (i: nat)
    ensures i <= |s|
    ensures forall k :: 0 <= k < i ==> s[k] != c
    ensures i < |s| ==> s[i] == c
  {
    if s == "" || s[0] == c then 0 else 1 + IndexOf(s[1..], c)
  }

  /** `s.partition(c)`: what precedes the first `c` and what follows it. */
  function Before(s: string, c: char): string {
    s[..IndexOf(s, c)]
  }

  function After(s: string, c: char): string {
    if IndexOf(s, c) < |s| then s[IndexOf(s, c) + 1..] else ""
  }

  lemma PartitionAt(k: string, c: char, v: string)
    requires c !in k
    ensures IndexOf(k + [c] + v, c) == |k|
    ensures Before(k + [c] + v, c) == k && After(k + [c] + v, c) == v
    ensures c in k + [c] + v
  {
    var s := k + [c] + v;
    assert s[|k|] == c;
    assert forall i :: 0 <= i < |k| ==> s[i] == k[i];
    var i := IndexOf(s, c);
    assert i == |k|;
  }

  predicate StartsWith(s: string, prefix: string) {
    |prefix| <= |s| && s[..|prefix|] == prefix
  }

  // ---------------------------------------------------------------- lines

  /** The pieces of `s` between its line breaks, the last one included when it is empty. */
  function LinesAt(s: string, isBreak: char -> bool): (ls: seq<string>)
    ensures ls != []
  {
    if s == "" then [""]
    else if isBreak(s[0]) then [""] + LinesAt(s[1..], isBreak)
    else
      var rest := LinesAt(s[1..], isBreak);
      [[s[0]] + rest[0]] + rest[1..]
  }

  predicate Unbroken(s: string, isBreak: char -> bool) {
    forall i :: 0 <= i < |s| ==> !isBreak(s[i])
  }

  lemma {:induction false} LineFirst(line: string, end: char, rest: string, isBreak: char -> bool)
    requires isBreak(end) && Unbroken(line, isBreak)
    ensures LinesAt(line + [end] + rest, isBreak) == [line] + LinesAt(rest, isBreak)
  {
    var s := line + [end] + rest;
    if line == "" {
      assert s[0] == end && s[1..] == rest;
    } else {
      assert s[0] == line[0] && s[1..] == line[1..] + [end] + rest;
      LineFirst(line[1..], end, rest, isBreak);
      assert [line[0]] + line[1..] == line;
    }
  }

  lemma {:induction false} LineOnly(line: string, isBreak: char -> bool)
    requires Unbroken(line, isBreak)
    ensures LinesAt(line, isBreak) == [line]
  {
    if line != "" {
      LineOnly(line[1..], isBreak);
      assert [line[0]] + line[1..] == line;
    }
  }

  // ---------------------------------------------------------------- numerals

  /** The digits of bases 10 and 16, upper case as `%X` writes them. */
  function DigitChar(d: nat): (c: char)
    requires d < 16
    ensures DigitValue(c) == Some(d)
    ensures c != '\n' && c != '\r' && c != '-' && c != ';' && c != '_' && c != '+' && !IsSpace(c)
    ensures c == '0' <==> d == 0
  {
    if d < 10 then (d + '0' as int) as char else (d - 10 + 'A' as int) as char
  }

  function DigitValue(c: char): (r: Option<nat>)
    ensures r.Some? ==> r.value < 16
  {
    if '0' <= c <= '9' then Some(c as int - '0' as int)
    else if 'A' <= c <= 'F' then Some(c as int - 'A' as int + 10)
    else if 'a' <= c <= 'f' then Some(c as int - 'a' as int + 10)
    else None
  }

  lemma Product(q: int, base: nat)
    requires 2 <= base
    ensures q <= 0 ==> q * base <= 0
    ensures 0 <= q ==> q * 2 <= q * base
  {
    if 0 <= q {
      assert q * base == q * 2 + q * (base - 2);
    }
  }

  lemma Division(n: nat, base: nat)
    requires 2 <= base <= n
    ensures 1 <= n / base < n && n % base < base && n / base * base + n % base == n
  {
    var q, r := n / base, n % base;
    assert n == q * base + r;
    Product(q, base);
  }

  function Numeral(n: nat, base: nat): (s: string)
    requires 2 <= base <= 16
    ensures s != ""
    ensures s[0] == '0' <==> n == 0
    ensures AllDigits(s, base)
  {
    if n < base then [DigitChar(n)]
    else
      Division(n, base);
      Numeral(n / base, base) + [DigitChar(n % base)]
  }

  predicate AllDigits(s: string, base: nat) {
    forall i :: 0 <= i < |s| ==> DigitValue(s[i]).Some? && DigitValue(s[i]).value < base
  }

  function Value(s: string, base: nat): nat
    requires AllDigits(s, base)
  {
    if s == "" then 0 else Value(s[..|s| - 1], base) * base + DigitValue(s[|s| - 1]).value
  }

  /** Reading a numeral gives back the number it was printed from. */
  lemma {:induction false} NumeralValue(n: nat, base: nat)
    requires 2 <= base <= 16
    ensures Value(Numeral(n, base), base) == n
  {
    if n < base {
      assert [DigitChar(n)][..0] == "";
    } else {
      Division(n, base);
      var s := Numeral(n / base, base);
      NumeralValue(n / base, base);
      assert (s + [DigitChar(n % base)])[..|s|] == s;
    }
  }

  lemma NumeralInjective(m: nat, n: nat, base: nat)
    requires 2 <= base <= 16 && Numeral(m, base) == Numeral(n, base)
    ensures m == n
  {
    NumeralValue(m, base);
    NumeralValue(n, base);
  }

  /** A numeral is made of digits only. */
  lemma {:induction false} NumeralPlain(n: nat, base: nat, c: char)
    requires 2 <= base <= 16 && DigitValue(c).None?
    ensures c !in Numeral(n, base)
  {
  }

  /** The digits themselves, lower case included; nothing else is one. */
  lemma DigitTable()
    ensures forall d :: 0 <= d < 16 ==>
      DigitValue("0123456789abcdef"[d]) == Some(d) && DigitValue("0123456789ABCDEF"[d]) == Some(d)
    ensures forall c: char :: c !in "0123456789abcdef" && c !in "0123456789ABCDEF" ==> DigitValue(c).None?
  {
    var lower, upper := "0123456789abcdef", "0123456789ABCDEF";
    forall c: char | DigitValue(c).Some? ensures c in lower || c in upper {
      var d := DigitValue(c).value;
      assert c == lower[d] || c == upper[d];
    }
  }

  lemma DigitsWritten(d: nat)
    requires d < 16
    ensures DigitChar(d) == "0123456789ABCDEF"[d]
  {
  }

  /** Leading zeros do not count. */
  lemma {:induction false} LeadingZero(s: string, base: nat)
    requires 2 <= base <= 16 && AllDigits(s, base)
    ensures AllDigits("0" + s, base) && Value("0" + s, base) == Value(s, base)
  {
    var t := "0" + s;
    if s == "" {
      assert t[..0] == "" && t == "0";
    } else {
      assert t[..|t| - 1] == "0" + s[..|s| - 1];
      LeadingZero(s[..|s| - 1], base);
    }
  }

  // ---------------------------------------------------------------- numbers with underscores

  predicate IsDigitOf(c: char, base: nat) {
    DigitValue(c).Some? && DigitValue(c).value < base
  }

  /** Digits, with single underscores allowed between two of them, as `int()` and `float()` read them. */
  predicate DigitRun(s: string, base: nat) {
    s != "" && IsDigitOf(s[0], base) && (|s| > 1 ==> DigitRun(if s[1] == '_' then s[2..] else s[1..], base))
  }

  function RunDigits(s: string, base: nat): (r: string)
    requires DigitRun(s, base)
    ensures r != "" && AllDigits(r, base)
  {
    if |s| == 1 then s else [s[0]] + RunDigits(if s[1] == '_' then s[2..] else s[1..], base)
  }

  function RunValue(s: string, base: nat): nat
    requires DigitRun(s, base)
  {
    Value(RunDigits(s, base), base)
  }

  /** The same, said of the whole text at once. */
  ghost predicate Spaced(s: string, base: nat) {
    && s != "" && IsDigitOf(s[0], base) && IsDigitOf(s[|s| - 1], base)
    && (forall i :: 0 <= i < |s| ==> IsDigitOf(s[i], base) || s[i] == '_')
    && (forall i, j :: 0 <= i < j < |s| && s[i] == '_' && s[j] == '_' ==> i + 1 < j)
  }

  lemma {:induction false} RunIff(s: string, base: nat)
    requires base <= 16
    ensures DigitRun(s, base) <==> Spaced(s, base)
  {
    if s != "" && IsDigitOf(s[0], base) && |s| > 1 {
      var k := if s[1] == '_' then 2 else 1;
      var rest := s[k..];
      RunIff(rest, base);
      assert forall i :: 0 <= i < |rest| ==> rest[i] == s[i + k];
      assert forall i :: k <= i < |s| ==> s[i] == rest[i - k];
      assert !IsDigitOf('_', base);
      if rest != "" {
        assert rest[|rest| - 1] == s[|s| - 1];
      }
    }
  }

  /** Digits alone are such a text and stand for themselves. */
  lemma {:induction false} PlainRun(s: string, base: nat)
    requires s != "" && AllDigits(s, base)
    ensures DigitRun(s, base) && RunDigits(s, base) == s
  {
    if |s| > 1 {
      assert AllDigits(s[1..], base);
      PlainRun(s[1..], base);
      assert [s[0]] + s[1..] == s;
    }
  }

  /** Two of them side by side. */
  lemma {:induction false} RunsJoin(a: string, b: string, base: nat)
    requires DigitRun(a, base) && DigitRun(b, base)
    ensures DigitRun(a + b, base) && RunDigits(a + b, base) == RunDigits(a, base) + RunDigits(b, base)
  {
    if |a| == 1 {
      assert (a + b)[1..] == b;
    } else {
      var k := if a[1] == '_' then 2 else 1;
      RunsJoin(a[k..], b, base);
      assert (a + b)[k..] == a[k..] + b;
      var x, y := RunDigits(a[k..], base), RunDigits(b, base);
      assert [a[0]] + (x + y) == [a[0]] + x + y;
    }
  }

  /** An underscore between two of them changes nothing. */
  lemma {:induction false} UnderscoreBetween(a: string, b: string, base: nat)
    requires DigitRun(a, base) && DigitRun(b, base)
    ensures DigitRun(a + "_" + b, base) && RunDigits(a + "_" + b, base) == RunDigits(a, base) + RunDigits(b, base)
  {
    if |a| == 1 {
      assert (a + "_" + b)[2..] == b;
    } else {
      var k := if a[1] == '_' then 2 else 1;
      UnderscoreBetween(a[k..], b, base);
      assert (a + "_" + b)[k..] == a[k..] + "_" + b;
      var x, y := RunDigits(a[k..], base), RunDigits(b, base);
      assert [a[0]] + (x + y) == [a[0]] + x + y;
    }
  }
}
