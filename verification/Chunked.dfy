/**
 Chunked transfer coding (section 7.1 of RFC 9112) as this repository writes it
 (`chunk` of fake_worker.py, `sse` of whale.py) and reads it (`_iter_chunks` of
 router.py).  A byte is the character with its code.
 */
module Chunked {
  import opened Common
  import opened Text

  type Bytes = string

  const CRLF := "\r\n"
  const LAST := "0\r\n\r\n"

  // ---------------------------------------------------------------- writing

  function Chunk(data: Bytes): Bytes {
    Numeral(|data|, 16) + CRLF + data + CRLF
  }

  function EncodeAll(cs: seq<Bytes>): Bytes {
    if cs == [] then "" else Chunk(cs[0]) + EncodeAll(cs[1..])
  }

  // ---------------------------------------------------------------- reading a size

  /** What `bytes.strip` removes. */
  predicate IsBlank(c: char) {
    c == ' ' || '\t' <= c <= '\r'
  }

  function TrimStart(s: Bytes): Bytes {
    if s != "" && IsBlank(s[0]) then TrimStart(s[1..]) else s
  }

  function TrimEnd(s: Bytes): Bytes {
    if s != "" && IsBlank(s[|s| - 1]) then TrimEnd(s[..|s| - 1]) else s
  }

  function Trim(s: Bytes): Bytes {
    TrimEnd(TrimStart(s))
  }

  function DropPrefix(s: Bytes): Bytes {
    if |s| >= 2 && s[0] == '0' && (s[1] == 'x' || s[1] == 'X') then
      if |s| >= 3 && s[2] == '_' then s[3..] else s[2..]
    else s
  }

  /** `int(s, 16)`; None is the `ValueError`. */
  function ParseHex(s: Bytes): Option<int> {
    var t := Trim(s);
    var negative := t != "" && t[0] == '-';
    var signed := t != "" && (t[0] == '-' || t[0] == '+');
    var digits := DropPrefix(if signed then t[1..] else t);
    if !DigitRun(digits, 16) then None
    else
      var n: int := RunValue(digits, 16);
      Some(if negative then -n else n)
  }

  /** `int(size_line.strip().split(b";")[0], 16)`. */
  function SizeOf(line: Bytes): Option<int> {
    ParseHex(Before(Trim(line), ';'))
  }

  // ---------------------------------------------------------------- reading a body

  /** How much `readline` takes: up to and with the next line feed, or all there is. */
  function LineLength(s: Bytes): (n: nat)
    ensures n <= |s| && (s != "" ==> n > 0)
  {
    var i := IndexOf(s, '\n');
    if i < |s| then i + 1 else i
  }

  /** How the iteration ends: normally, in an error the router catches, or in one it does not (a negative size). */
  datatype Ending = Finished | Dropped | Incomplete | Uncaught

  /** What `_iter_chunks` yields from a connection that delivers `s` and then closes. */
  function Decode(s: Bytes): (r: (seq<Bytes>, Ending))
    decreases |s|
  {
    if s == "" then ([], Dropped)
    else
      var n := LineLength(s);
      match SizeOf(s[..n])
      case None => ([], Dropped)
      case Some(size) =>
        if size == 0 then ([], Finished)
        else if size < 0 then ([], Uncaught)
        else if |s| - n < size then ([], Incomplete)
        else
          var data := s[n..n + size];
          var rest := s[n + size..];
          var (more, ending) := Decode(rest[LineLength(rest)..]);
          ([data] + more, ending)
  }

  lemma DecodeMore(s: Bytes, n: nat, size: int)
    requires s != "" && n == LineLength(s) && SizeOf(s[..n]) == Some(size) && 0 < size <= |s| - n
    ensures var rest := s[n + size..];
            Decode(s) == ([s[n..n + size]] + Decode(rest[LineLength(rest)..]).0, Decode(rest[LineLength(rest)..]).1)
  {
    hide SizeOf, LineLength;
  }

  /** One more chunk after those already yielded. */
  lemma YieldOne(chunks: seq<Bytes>, left: Bytes, size: int)
    requires left != "" && SizeOf(left[..LineLength(left)]) == Some(size) && 0 < size <= |left| - LineLength(left)
    ensures var n := LineLength(left);
      var rest := left[n + size..];
      var next := Decode(rest[LineLength(rest)..]);
      (chunks + Decode(left).0, Decode(left).1) == ((chunks + [left[n..n + size]]) + next.0, next.1)
  {
    hide SizeOf, LineLength;
    var n := LineLength(left);
    DecodeMore(left, n, size);
    var rest := left[n + size..];
    var more := Decode(rest[LineLength(rest)..]).0;
    assert chunks + ([left[n..n + size]] + more) == (chunks + [left[n..n + size]]) + more;
  }

  /** What decoding says when no further chunk can be read. */
  lemma YieldNone(chunks: seq<Bytes>, left: Bytes)
    requires Decode(left).0 == []
    ensures chunks + Decode(left).0 == chunks
  {
    hide Decode;
  }

  method IterChunks(s: Bytes) returns (chunks: seq<Bytes>, ending: Ending)
    ensures (chunks, ending) == Decode(s)
  {
    hide SizeOf, LineLength;
    chunks := [];
    var pos := 0;
    assert s[0..] == s && [] + Decode(s).0 == Decode(s).0;
    while true
      invariant 0 <= pos <= |s|
      invariant Decode(s) == (chunks + Decode(s[pos..]).0, Decode(s[pos..]).1)
      decreases |s| - pos
    {
      var left := s[pos..];
      if Decode(left).0 == [] {
        YieldNone(chunks, left);
      }
      if left == "" {
        return chunks, Dropped;
      }
      var n := LineLength(left);
      var size := SizeOf(left[..n]);
      if size.None? {
        return chunks, Dropped;
      }
      if size.value == 0 {
        return chunks, Finished;
      }
      if size.value < 0 {
        return chunks, Uncaught;
      }
      if |left| - n < size.value {
        return chunks, Incomplete;
      }
      var data := left[n..n + size.value];
      var rest := left[n + size.value..];
      var m := LineLength(rest);
      hide Decode;
      YieldOne(chunks, left, size.value);
      assert rest[m..] == s[pos + n + size.value + m..];
      chunks := chunks + [data];
      pos := pos + n + size.value + m;
    }
  }

  // ---------------------------------------------------------------- sizes read back

  lemma {:induction false} LeadingDigit(s: Bytes)
    requires s != "" && AllDigits(s, 16) && s[0] != '0'
    ensures Value(s, 16) > 0
  {
    if |s| == 1 {
      assert s[..0] == "";
    } else {
      LeadingDigit(s[..|s| - 1]);
    }
  }

  lemma {:induction false} TrimTail(s: Bytes, tail: Bytes)
    requires s != "" && !IsBlank(s[0]) && !IsBlank(s[|s| - 1])
    requires forall i :: 0 <= i < |tail| ==> IsBlank(tail[i])
    ensures Trim(s + tail) == s
  {
    if tail == "" {
      assert s + tail == s;
    } else {
      assert (s + tail)[..|s + tail| - 1] == s + tail[..|tail| - 1];
      TrimTail(s, tail[..|tail| - 1]);
    }
  }

  /** A size line, whole or cut short after its first digit, reads as a positive number. */
  lemma SizeLine(digits: Bytes, tail: Bytes)
    requires digits != "" && AllDigits(digits, 16) && digits[0] != '0'
    requires tail == "" || tail == "\r" || tail == CRLF
    ensures SizeOf(digits + tail) == Some(Value(digits, 16)) && Value(digits, 16) > 0
  {
    TrimTail(digits, tail);
    assert digits + "" == digits;
    TrimTail(digits, "");
    NoExtension(digits);
    LeadingDigit(digits);
    hide Trim, Before;
    HexDigits(digits);
  }

  lemma NoExtension(digits: Bytes)
    requires AllDigits(digits, 16)
    ensures Before(digits, ';') == digits
  {
    assert ';' !in digits;
    var i := IndexOf(digits, ';');
    assert digits[..|digits|] == digits;
  }

  lemma HexDigits(digits: Bytes)
    requires digits != "" && AllDigits(digits, 16) && digits[0] != '0' && Trim(digits) == digits
    ensures ParseHex(digits) == Some(Value(digits, 16))
  {
    hide Trim;
    PlainRun(digits, 16);
  }

  lemma LineOf(line: Bytes, rest: Bytes)
    requires '\n' !in line
    ensures LineLength(line + "\n" + rest) == |line| + 1
    ensures LineLength(line) == |line|
  {
    PartitionAt(line, '\n', rest);
  }

  // ---------------------------------------------------------------- round trip and truncation

  predicate NonEmpty(cs: seq<Bytes>) {
    forall i :: 0 <= i < |cs| ==> cs[i] != ""
  }

  /** The number of chunks whose data lies within the first `n` bytes of the coding. */
  function Whole(cs: seq<Bytes>, n: int): (m: nat)
    ensures m <= |cs|
  {
    if cs == [] then 0
    else
      var head := |Numeral(|cs[0]|, 16)| + 2;
      if n < head + |cs[0]| then 0 else 1 + Whole(cs[1..], n - |Chunk(cs[0])|)
  }

  /** One chunk at the front of a stream. */
  lemma DecodeChunk(data: Bytes, rest: Bytes)
    requires data != ""
    ensures Decode(Numeral(|data|, 16) + CRLF + data + rest)
         == ([data] + Decode(rest[LineLength(rest)..]).0, Decode(rest[LineLength(rest)..]).1)
  {
    hide SizeOf, Numeral, Value, LineLength;
    var digits := Numeral(|data|, 16);
    NumeralPlain(|data|, 16, '\n');
    NumeralValue(|data|, 16);
    SizeLine(digits, CRLF);
    var s := digits + CRLF + data + rest;
    assert s == (digits + "\r") + "\n" + (data + rest);
    LineOf(digits + "\r", data + rest);
    assert s[..|digits| + 2] == digits + CRLF;
    assert s[|digits| + 2..][..|data|] == data;
    assert s[|digits| + 2..|digits| + 2 + |data|] == data;
    assert s[|digits| + 2 + |data|..] == rest;
  }

  lemma DecodeLast(n: nat)
    requires 0 < n <= |LAST|
    ensures Decode(LAST[..n]) == ([], Finished)
  {
    hide SizeOf;
    var s := LAST[..n];
    if n <= 2 {
      ZeroLine(if n == 1 then "" else "\r");
      assert s == "0" + (if n == 1 then "" else "\r");
      LineOf(s, "");
      assert s[..n] == s;
    } else {
      ZeroLine(CRLF);
      assert s == "0\r" + "\n" + LAST[3..n];
      LineOf("0\r", LAST[3..n]);
      assert s[..3] == "0" + CRLF;
    }
  }

  lemma ZeroLine(tail: Bytes)
    requires tail == "" || tail == "\r" || tail == CRLF
    ensures SizeOf("0" + tail) == Some(0)
  {
    TrimTail("0", tail);
    TrimTail("0", "");
    assert "0" + "" == "0";
    assert Before("0", ';') == "0";
    PlainRun("0", 16);
    assert "0"[..0] == "";
  }

  /** A stream cut inside the first chunk's size line or data yields nothing and fails. */
  lemma DecodeCut(data: Bytes, rest: Bytes, n: nat)
    requires data != "" && n < |Numeral(|data|, 16)| + 2 + |data|
    ensures var r := Decode((Numeral(|data|, 16) + CRLF + data + rest)[..n]);
            r.0 == [] && (r.1 == Dropped || r.1 == Incomplete)
  {
    hide SizeOf, Numeral, Value, LineLength;
    var digits := Numeral(|data|, 16);
    var s := digits + CRLF + data + rest;
    var cut := s[..n];
    NumeralPlain(|data|, 16, '\n');
    NumeralValue(|data|, 16);
    if n == 0 {
      assert cut == "";
    } else if n <= |digits| {
      assert cut == digits[..n] + "";
      SizeLine(digits[..n], "");
      LineOf(cut, "");
      assert cut[..n] == cut;
    } else if n == |digits| + 1 {
      assert cut == digits + "\r";
      SizeLine(digits, "\r");
      LineOf(cut, "");
      assert cut[..n] == cut;
    } else {
      var part := cut[|digits| + 2..];
      assert cut == (digits + "\r") + "\n" + part;
      LineOf(digits + "\r", part);
      SizeLine(digits, CRLF);
      assert cut[..|digits| + 2] == digits + CRLF;
    }
  }

  /**
   The decoder on the first `n` bytes of a complete stream: it yields exactly the chunks
   whose data has arrived, and it ends normally if and only if the cut comes after the
   final `0`.  In particular (n = everything) it inverts the coding.
   */
  lemma {:induction false} DecodePrefix(cs: seq<Bytes>, n: nat)
    requires NonEmpty(cs) && n <= |EncodeAll(cs) + LAST|
    ensures Decode((EncodeAll(cs) + LAST)[..n]).0 == cs[..Whole(cs, n)]
    ensures Decode((EncodeAll(cs) + LAST)[..n]).1.Finished? <==> n > |EncodeAll(cs)|
    ensures !Decode((EncodeAll(cs) + LAST)[..n]).1.Uncaught?
    decreases |cs|
  {
    hide Decode, SizeOf, Numeral, LineLength;
    var full := EncodeAll(cs) + LAST;
    if cs == [] {
      assert full == LAST;
      if n > 0 {
        DecodeLast(n);
      } else {
        DecodeNothing();
        assert full[..n] == "";
      }
    } else {
      var digits := Numeral(|cs[0]|, 16);
      var tail := EncodeAll(cs[1..]) + LAST;
      var body := |digits| + 2 + |cs[0]|;
      assert full == digits + CRLF + cs[0] + (CRLF + tail);
      if n < body {
        DecodeCut(cs[0], CRLF + tail, n);
        assert body <= |EncodeAll(cs)|;
      } else {
        var rest := (CRLF + tail)[..n - body];
        assert full[..n] == digits + CRLF + cs[0] + rest;
        DecodeChunk(cs[0], rest);
        AfterData(tail, n - body);
        if n < body + 2 {
          DecodeNothing();
          DecodeShort(cs, n);
        } else {
          assert n - |Chunk(cs[0])| == n - body - 2;
          DecodePrefix(cs[1..], n - body - 2);
          assert [cs[0]] + cs[1..][..Whole(cs[1..], n - body - 2)] == cs[..Whole(cs, n)];
        }
      }
    }
  }

  lemma DecodeNothing()
    ensures Decode("") == ([], Dropped)
  {
  }

  lemma DecodeShort(cs: seq<Bytes>, n: nat)
    requires cs != [] && NonEmpty(cs)
    requires |Numeral(|cs[0]|, 16)| + 2 + |cs[0]| <= n < |Chunk(cs[0])|
    ensures Whole(cs, n) == 1 && n <= |EncodeAll(cs)|
  {
    hide Numeral;
    assert Whole(cs[1..], n - |Chunk(cs[0])|) == 0;
  }

  /** The line end after the data is skipped, as much of it as has arrived. */
  lemma AfterData(tail: Bytes, k: nat)
    requires k <= |CRLF + tail|
    ensures var rest := (CRLF + tail)[..k];
            rest[LineLength(rest)..] == if k < 2 then "" else tail[..k - 2]
  {
    var rest := (CRLF + tail)[..k];
    if k == 0 {
      assert rest == "";
    } else if k == 1 {
      assert rest == "\r";
      LineOf(rest, "");
    } else {
      assert rest == "\r" + "\n" + tail[..k - 2];
      LineOf("\r", tail[..k - 2]);
    }
  }

  lemma RoundTrip(cs: seq<Bytes>)
    requires NonEmpty(cs)
    ensures Decode(EncodeAll(cs) + LAST) == (cs, Finished)
  {
    hide Decode;
    var full := EncodeAll(cs) + LAST;
    DecodePrefix(cs, |full|);
    assert full[..|full|] == full;
    WholeOfAll(cs, |full|);
    assert cs[..|cs|] == cs;
  }

  lemma {:induction false} WholeOfAll(cs: seq<Bytes>, n: nat)
    requires n >= |EncodeAll(cs)|
    ensures Whole(cs, n) == |cs|
  {
    if cs != [] {
      assert |EncodeAll(cs)| == |Chunk(cs[0])| + |EncodeAll(cs[1..])|;
      assert |Chunk(cs[0])| == |Numeral(|cs[0]|, 16)| + 2 + |cs[0]| + 2;
      WholeOfAll(cs[1..], n - |Chunk(cs[0])|);
    }
  }

  lemma {:induction false} EncodeConcat(a: seq<Bytes>, b: seq<Bytes>)
    ensures EncodeAll(a + b) == EncodeAll(a) + EncodeAll(b)
  {
    if a == [] {
      assert a + b == b;
    } else {
      assert (a + b)[1..] == a[1..] + b;
      EncodeConcat(a[1..], b);
    }
  }

  /** Encoded chunks at the front of any stream are yielded, and decoding goes on behind them. */
  lemma OneInFront(data: Bytes, more: Bytes)
    requires data != ""
    ensures Decode(Numeral(|data|, 16) + CRLF + data + (CRLF + more)) == ([data] + Decode(more).0, Decode(more).1)
  {
    hide Decode, Numeral;
    AfterData(more, |CRLF + more|);
    assert (CRLF + more)[..|CRLF + more|] == CRLF + more && more[..|more|] == more;
    DecodeChunk(data, CRLF + more);
  }

  lemma ChunkInFront(cs: seq<Bytes>, rest: Bytes)
    requires cs != []
    ensures EncodeAll(cs) + rest == Numeral(|cs[0]|, 16) + CRLF + cs[0] + (CRLF + (EncodeAll(cs[1..]) + rest))
  {
    hide Numeral;
    var head, more := Numeral(|cs[0]|, 16) + CRLF + cs[0], EncodeAll(cs[1..]);
    assert EncodeAll(cs) == head + CRLF + more;
    assert head + CRLF + more + rest == head + (CRLF + (more + rest));
  }

  lemma {:induction false} DecodeInFront(cs: seq<Bytes>, rest: Bytes)
    requires NonEmpty(cs)
    ensures Decode(EncodeAll(cs) + rest) == (cs + Decode(rest).0, Decode(rest).1)
  {
    hide Decode, Numeral;
    if cs == [] {
      assert EncodeAll(cs) + rest == rest && cs + Decode(rest).0 == Decode(rest).0;
    } else {
      DecodeInFront(cs[1..], rest);
      ChunkInFront(cs, rest);
      OneInFront(cs[0], EncodeAll(cs[1..]) + rest);
      assert cs + Decode(rest).0 == [cs[0]] + (cs[1..] + Decode(rest).0);
    }
  }

  /** Decoding ends at the terminator, whatever follows it. */
  lemma TerminatorEnds(rest: Bytes)
    ensures Decode(LAST + rest) == ([], Finished)
  {
    hide SizeOf;
    ZeroLine(CRLF);
    var s := LAST + rest;
    assert s == "0\r" + "\n" + (CRLF + rest);
    LineOf("0\r", CRLF + rest);
    assert s[..3] == "0" + CRLF;
  }

  /** A negative size, anywhere between chunks, ends the iteration in an error the router does not catch. */
  lemma NegativeSizeEscapes(cs: seq<Bytes>, rest: Bytes)
    requires NonEmpty(cs)
    ensures Decode(EncodeAll(cs) + ("-1\r\n" + rest)) == (cs, Uncaught)
  {
    hide Decode, EncodeAll;
    DecodeInFront(cs, "-1\r\n" + rest);
    MinusLine(rest);
    assert cs + [] == cs;
  }

  lemma MinusLine(rest: Bytes)
    ensures Decode("-1\r\n" + rest) == ([], Uncaught)
  {
    MinusOne();
    hide SizeOf;
    var s := "-1\r\n" + rest;
    assert s == "-1\r" + "\n" + rest;
    LineOf("-1\r", rest);
    assert s[..4] == "-1" + CRLF;
  }

  lemma MinusOne()
    ensures SizeOf("-1" + CRLF) == Some(-1)
  {
    TrimTail("-1", CRLF);
    TrimTail("-1", "");
    assert "-1" + "" == "-1";
    assert Before("-1", ';') == "-1";
    assert "-1"[1..] == "1";
    PlainRun("1", 16);
    assert "1"[..0] == "";
  }

  // ---------------------------------------------------------------- the size lines other servers write

  predicate Blanks(s: Bytes) {
    forall i :: 0 <= i < |s| ==> IsBlank(s[i])
  }

  lemma {:induction false} TrimHead(pad: Bytes, s: Bytes)
    requires Blanks(pad) && s != "" && !IsBlank(s[0])
    ensures TrimStart(pad + s) == s
  {
    if pad == "" {
      assert pad + s == s;
    } else {
      assert (pad + s)[1..] == pad[1..] + s;
      TrimHead(pad[1..], s);
    }
  }

  lemma {:induction false} TrimEndDrops(s: Bytes, pad: Bytes)
    requires Blanks(pad)
    ensures TrimEnd(s + pad) == TrimEnd(s)
  {
    if pad == "" {
      assert s + pad == s;
    } else {
      assert (s + pad)[..|s + pad| - 1] == s + pad[..|pad| - 1];
      TrimEndDrops(s, pad[..|pad| - 1]);
    }
  }

  lemma {:induction false} TrimEndKeeps(s: Bytes, rest: Bytes)
    requires s != "" && !IsBlank(s[|s| - 1])
    ensures s <= TrimEnd(s + rest)
  {
    if rest == "" {
      assert s + rest == s;
    } else {
      assert (s + rest)[..|s + rest| - 1] == s + rest[..|rest| - 1];
      TrimEndKeeps(s, rest[..|rest| - 1]);
      assert s <= s + rest;
    }
  }

  ghost predicate Framed(text: Bytes) {
    text != "" && !IsBlank(text[0]) && !IsBlank(text[|text| - 1]) && ';' !in text
  }

  lemma TrimFramed(text: Bytes, gap: Bytes)
    requires Framed(text) && Blanks(gap)
    ensures Trim(text + gap) == text && Trim(text) == text
  {
    hide Trim;
    TrimTail(text, gap);
    TrimTail(text, "");
    assert text + "" == text;
  }

  lemma ParseTrimmed(s: Bytes, text: Bytes)
    requires Trim(s) == text && Trim(text) == text
    ensures ParseHex(s) == ParseHex(text)
  {
    hide Trim, DigitRun, RunValue, DropPrefix;
  }

  /** What is looked at of a size line: the text before the first semicolon, without blanks around it. */
  lemma SizeText(pad: Bytes, text: Bytes, gap: Bytes, rest: Bytes)
    requires Blanks(pad) && Blanks(gap) && (rest == "" || rest[0] == ';') && Framed(text)
    ensures SizeOf(pad + text + gap + rest) == ParseHex(text)
  {
    hide TrimStart, TrimEnd, ParseHex, Before, Blanks;
    var s := text + gap + rest;
    assert pad + text + gap + rest == pad + s;
    TrimHead(pad, s);
    if rest == "" {
      assert s == text + gap;
      PlainText(text, gap);
    } else {
      ExtendedText(text, gap, rest);
      TrimFramed(text, gap);
      ParseTrimmed(text + gap, text);
    }
  }

  lemma PlainText(text: Bytes, gap: Bytes)
    requires Blanks(gap) && Framed(text)
    ensures TrimEnd(text + gap) == text && Before(text, ';') == text
  {
    TrimEndDrops(text, gap);
    assert TrimEnd(text) == text;
    hide TrimEnd;
    NoSemicolon(text);
  }

  lemma ExtendedText(text: Bytes, gap: Bytes, rest: Bytes)
    requires Blanks(gap) && Framed(text) && rest != "" && rest[0] == ';'
    ensures Before(TrimEnd(text + gap + rest), ';') == text + gap
  {
    var s := text + gap + rest;
    assert s == (text + gap + ";") + rest[1..];
    TrimEndKeeps(text + gap + ";", rest[1..]);
    hide TrimEnd, Before;
    var t := TrimEnd(s);
    assert t == (text + gap) + [';'] + t[|text + gap| + 1..];
    assert ';' !in text + gap by {
      assert forall i :: 0 <= i < |gap| ==> gap[i] != ';';
    }
    PartitionAt(text + gap, ';', t[|text + gap| + 1..]);
  }

  lemma NoSemicolon(text: Bytes)
    requires ';' !in text
    ensures Before(text, ';') == text
  {
    var i := IndexOf(text, ';');
  }

  /**
   Every form of size a server may send: blanks around it, a sign, "0x", digits of either
   case with underscores and leading zeros, and an extension behind a semicolon.
   */
  lemma SizeForms(pad: Bytes, sign: Bytes, prefix: Bytes, digits: Bytes, gap: Bytes, rest: Bytes)
    requires Blanks(pad) && Blanks(gap) && (rest == "" || rest[0] == ';')
    requires (sign == "" || sign == "+" || sign == "-") && (prefix == "" || prefix == "0x" || prefix == "0X")
    requires DigitRun(digits, 16)
    ensures var n: int := RunValue(digits, 16);
      SizeOf(pad + (sign + prefix + digits) + gap + rest) == Some(if sign == "-" then -n else n)
  {
    hide ParseHex, SizeOf, DigitRun, RunValue, Blanks;
    FormIsFramed(sign, prefix, digits);
    SignedForm(sign, prefix, digits);
    SizeText(pad, sign + prefix + digits, gap, rest);
  }

  lemma FormIsFramed(sign: Bytes, prefix: Bytes, digits: Bytes)
    requires (sign == "" || sign == "+" || sign == "-") && (prefix == "" || prefix == "0x" || prefix == "0X")
    requires DigitRun(digits, 16)
    ensures Framed(sign + prefix + digits)
  {
    RunIsPlain(digits);
    hide DigitRun;
    var text := sign + prefix + digits;
    assert text[|text| - 1] == digits[|digits| - 1];
    assert forall i :: 0 <= i < |text| ==> text[i] in sign || text[i] in prefix || text[i] in digits;
  }

  lemma RunIsPlain(digits: Bytes)
    requires DigitRun(digits, 16)
    ensures digits != "" && forall i :: 0 <= i < |digits| ==> !IsBlank(digits[i]) && digits[i] !in ";xX-+"
  {
    RunIff(digits, 16);
    hide DigitRun;
  }

  lemma SignedForm(sign: Bytes, prefix: Bytes, digits: Bytes)
    requires (sign == "" || sign == "+" || sign == "-") && (prefix == "" || prefix == "0x" || prefix == "0X")
    requires DigitRun(digits, 16)
    ensures var n: int := RunValue(digits, 16); ParseHex(sign + prefix + digits) == Some(if sign == "-" then -n else n)
  {
    hide Trim, DigitRun, RunValue, DropPrefix;
    FormIsFramed(sign, prefix, digits);
    TrimFramed(sign + prefix + digits, "");
    PrefixDropped(prefix, digits);
    var text, body := sign + prefix + digits, prefix + digits;
    if sign == "" {
      assert text == body;
      RunIsPlain(digits);
      assert text[0] == if prefix == "" then digits[0] else '0';
    } else {
      assert text[1..] == body && text[0] == sign[0];
    }
  }

  lemma PrefixDropped(prefix: Bytes, digits: Bytes)
    requires DigitRun(digits, 16) && (prefix == "" || prefix == "0x" || prefix == "0X")
    ensures DropPrefix(prefix + digits) == digits
  {
    RunIsPlain(digits);
    hide DigitRun;
    var t := prefix + digits;
    if prefix == "" {
      assert t == digits;
    } else {
      assert t[2..] == digits;
    }
  }

  /** A size line without digits, or with anything else in them, is refused, and the connection counts as dropped. */
  lemma BadSizeDrops(pad: Bytes, text: Bytes, gap: Bytes, rest: Bytes, more: Bytes)
    requires Blanks(pad) && Blanks(gap) && (rest == "" || rest[0] == ';')
    requires Framed(text)
    requires exists i :: 0 <= i < |text| && !IsDigitOf(text[i], 16) && text[i] !in "_+-xX"
    requires '\n' !in pad + text + gap + rest
    ensures SizeOf(pad + text + gap + rest + "\n").None?
    ensures Decode(pad + text + gap + rest + "\n" + more) == ([], Dropped)
  {
    var line := pad + text + gap + rest;
    if rest == "" {
      assert line + "\n" == pad + text + (gap + "\n") + rest;
      SizeText(pad, text, gap + "\n", rest);
    } else {
      assert line + "\n" == pad + text + gap + (rest + "\n");
      SizeText(pad, text, gap, rest + "\n");
    }
    OddIsRefused(text);
    LineOf(line, more);
    hide SizeOf;
    assert (line + "\n" + more)[..|line| + 1] == line + "\n";
  }

  lemma OddIsRefused(text: Bytes)
    requires Framed(text)
    requires exists i :: 0 <= i < |text| && !IsDigitOf(text[i], 16) && text[i] !in "_+-xX"
    ensures ParseHex(text).None?
  {
    TrimFramed(text, "");
    hide Trim;
    var i :| 0 <= i < |text| && !IsDigitOf(text[i], 16) && text[i] !in "_+-xX";
    var signed := text[0] == '-' || text[0] == '+';
    var body := if signed then text[1..] else text;
    var k := if signed then i - 1 else i;
    assert body[k] == text[i];
    var digits := DropPrefix(body);
    var m := |body| - |digits|;
    assert digits == body[m..] && forall j :: 0 <= j < m ==> body[j] in "0_xX";
    assert IsDigitOf('0', 16);
    assert digits[k - m] == text[i];
    RunIff(digits, 16);
    hide DigitRun, DropPrefix;
  }

  /**
   One chunk whatever its size line is: as many bytes as it says are yielded, the rest of
   the line they end on is thrown away whatever it holds, and reading goes on behind it.
   */
  lemma AnyChunk(line: Bytes, data: Bytes, junk: Bytes, rest: Bytes)
    requires '\n' !in line && '\n' !in junk && data != "" && SizeOf(line + "\n") == Some(|data|)
    ensures Decode(line + "\n" + (data + (junk + "\n" + rest))) == ([data] + Decode(rest).0, Decode(rest).1)
  {
    hide SizeOf, LineLength, Decode;
    var behind := junk + "\n" + rest;
    var s := line + "\n" + (data + behind);
    LineOf(line, data + behind);
    LineOf(junk, rest);
    HeadOf(line + "\n", data + behind);
    HeadOf(data, behind);
    HeadOf(junk + "\n", rest);
    SliceOf(s, |line| + 1, data, behind);
    DecodeMore(s, |line| + 1, |data|);
  }

  lemma SliceOf(s: Bytes, n: nat, data: Bytes, behind: Bytes)
    requires n <= |s| && s[n..] == data + behind
    ensures n + |data| <= |s| && s[n..n + |data|] == data && s[n + |data|..] == behind
  {
    assert s[n..][..|data|] == s[n..n + |data|] && s[n..][|data|..] == s[n + |data|..];
  }

  /** A size of zero ends the body there, whatever follows, and too few bytes end it as incomplete. */
  lemma ChunkStops(line: Bytes, rest: Bytes)
    requires '\n' !in line && SizeOf(line + "\n").Some?
    ensures SizeOf(line + "\n") == Some(0) ==> Decode(line + "\n" + rest) == ([], Finished)
    ensures SizeOf(line + "\n").value > |rest| ==> Decode(line + "\n" + rest) == ([], Incomplete)
  {
    hide SizeOf, LineLength, Decode;
    LineOf(line, rest);
    HeadOf(line + "\n", rest);
    DecodeStops(line + "\n" + rest, |line| + 1, SizeOf(line + "\n").value);
  }

  lemma TwentySix()
    ensures Numeral(26, 16) == "1A"
  {
    assert Numeral(26, 16) == Numeral(1, 16) + [DigitChar(10)];
    assert Numeral(1, 16) == [DigitChar(1)];
    assert DigitChar(1) == '1' && DigitChar(10) == 'A';
  }

  /** What is written for one chunk, character for character. */
  lemma ChunkSpelled(data: Bytes)
    requires |data| == 26
    ensures Chunk(data) == "1A" + "\r\n" + data + "\r\n"
  {
    hide Numeral;
    TwentySix();
  }

  lemma LastSpelled()
    ensures LAST == "0\r\n\r\n"
  {
  }

  lemma HeadOf(head: Bytes, tail: Bytes)
    ensures (head + tail)[..|head|] == head && (head + tail)[|head|..] == tail
  {
  }

  lemma DecodeStops(s: Bytes, n: nat, size: int)
    requires s != "" && n == LineLength(s) && SizeOf(s[..n]) == Some(size)
    ensures size == 0 ==> Decode(s) == ([], Finished)
    ensures size > |s| - n ==> Decode(s) == ([], Incomplete)
  {
    hide SizeOf, LineLength;
  }
}
