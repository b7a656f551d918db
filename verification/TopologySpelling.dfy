/**
 What one scalar of the YAML subset means, said of the text as a whole: the spellings of
 null, of the booleans, of integers and floats, the two kinds of quotes, and any other text.
 */
module TopologySpelling {
  import opened Common
  import opened Text
  import opened Topology

  // ---------------------------------------------------------------- the spellings

  /** `text` is `word`, any of its letters in upper case. */
  predicate IsWord(text: string, word: string) {
    |text| == |word| && forall i :: 0 <= i < |word| ==>
      text[i] == word[i] || ('a' <= word[i] <= 'z' && text[i] as int == word[i] as int - 32)
  }

  predicate IsSign(sign: string) {
    sign == "" || sign == "+" || sign == "-"
  }

  ghost predicate SpellsInt(t: string, sign: string, digits: string, n: int) {
    && t == sign + digits && IsSign(sign) && DigitRun(digits, 10)
    && n == if sign == "-" then -(RunValue(digits, 10) as int) else RunValue(digits, 10)
  }

  ghost predicate IntSpelling(t: string, n: int) {
    exists sign, digits :: SpellsInt(t, sign, digits, n)
  }

  predicate PointForm(m: string, a: string, b: string) {
    m == a + "." + b && (a == "" || DigitRun(a, 10)) && (b == "" || DigitRun(b, 10)) && (a != "" || b != "")
  }

  ghost predicate MantissaForm(m: string) {
    DigitRun(m, 10) || exists a, b :: PointForm(m, a, b)
  }

  predicate ExponentOf(e: string, c: char, sign: string, digits: string) {
    e == [c] + sign + digits && (c == 'e' || c == 'E') && IsSign(sign) && DigitRun(digits, 10)
  }

  ghost predicate ExponentForm(e: string) {
    exists c, sign, digits :: ExponentOf(e, c, sign, digits)
  }

  ghost predicate FloatParts(t: string, sign: string, m: string, e: string) {
    && t == sign + m + e && IsSign(sign)
    && (|| (e == "" && (IsWord(m, "inf") || IsWord(m, "infinity") || IsWord(m, "nan")))
        || (MantissaForm(m) && (e == "" || ExponentForm(e))))
  }

  ghost predicate FloatForm(t: string) {
    exists sign, m, e :: FloatParts(t, sign, m, e)
  }

  predicate QuotedWith(t: string, q: char, s: string) {
    (q == '"' || q == '\'') && t == [q] + s + [q]
  }

  ghost predicate Quotes(t: string, s: string) {
    exists q :: QuotedWith(t, q, s)
  }

  /** Text without quotes that is none of the other spellings. */
  ghost predicate PlainText(t: string) {
    && t != "" && t != "~" && !IsWord(t, "null")
    && !IsWord(t, "true") && !IsWord(t, "yes") && !IsWord(t, "false") && !IsWord(t, "no")
    && (forall s :: !Quotes(t, s)) && (forall n :: !IntSpelling(t, n)) && !FloatForm(t)
  }

  ghost predicate Spells(t: string, v: Value) {
    match v
    case Null => t == "" || t == "~" || IsWord(t, "null")
    case Bool(b) => if b then IsWord(t, "true") || IsWord(t, "yes") else IsWord(t, "false") || IsWord(t, "no")
    case Int(n) => IntSpelling(t, n)
    case Float(x) => x == t && FloatForm(t) && forall n :: !IntSpelling(t, n)
    case Str(s) => Quotes(t, s) || (s == t && PlainText(t))
    case _ => false
  }

  // ---------------------------------------------------------------- words

  lemma LowerIsWord(text: string, word: string)
    requires forall i :: 0 <= i < |word| ==> 'a' <= word[i] <= 'z'
    ensures Lower(text) == word <==> IsWord(text, word)
  {
    if |text| == |word| {
      assert forall i :: 0 <= i < |word| ==>
        (LowerChar(text[i]) == word[i] <==> text[i] == word[i] || text[i] as int == word[i] as int - 32);
    }
  }

  lemma Words(t: string)
    ensures Lower(t) == "null" <==> IsWord(t, "null")
    ensures Lower(t) == "true" <==> IsWord(t, "true")
    ensures Lower(t) == "yes" <==> IsWord(t, "yes")
    ensures Lower(t) == "false" <==> IsWord(t, "false")
    ensures Lower(t) == "no" <==> IsWord(t, "no")
  {
    hide IsWord, Lower;
    LowerIsWord(t, "null");
    LowerIsWord(t, "true");
    LowerIsWord(t, "yes");
    LowerIsWord(t, "false");
    LowerIsWord(t, "no");
  }

  lemma NumberWords(t: string)
    ensures Lower(t) == "inf" <==> IsWord(t, "inf")
    ensures Lower(t) == "infinity" <==> IsWord(t, "infinity")
    ensures Lower(t) == "nan" <==> IsWord(t, "nan")
  {
    hide IsWord, Lower;
    LowerIsWord(t, "inf");
    LowerIsWord(t, "infinity");
    LowerIsWord(t, "nan");
  }

  // ---------------------------------------------------------------- integers

  predicate IsDecimal(c: char) {
    '0' <= c <= '9'
  }

  lemma DecimalDigits()
    ensures forall c: char :: IsDigitOf(c, 10) <==> IsDecimal(c)
  {
  }

  lemma RunChars(s: string)
    requires DigitRun(s, 10)
    ensures s != "" && IsDecimal(s[0]) && forall i :: 0 <= i < |s| ==> IsDecimal(s[i]) || s[i] == '_'
  {
    RunIff(s, 10);
    DecimalDigits();
    hide DigitRun, IsDigitOf;
  }

  lemma UnsignedOf(sign: string, body: string)
    requires IsSign(sign) && body != "" && (sign == "" ==> body[0] != '+' && body[0] != '-')
    ensures Unsigned(sign + body) == body && (sign + body)[0] == if sign == "" then body[0] else sign[0]
  {
    var t := sign + body;
    if sign == "" {
      assert t == body;
    } else {
      assert t[1..] == body;
    }
  }

  lemma SignOf(t: string) returns (sign: string)
    requires t != ""
    ensures IsSign(sign) && t == sign + Unsigned(t) && (sign == "-" <==> t[0] == '-')
  {
    if t == Unsigned(t) {
      sign := "";
      assert t == sign + t;
    } else {
      sign := [t[0]];
      assert t == [t[0]] + t[1..];
    }
  }

  lemma IntIff(t: string, n: int)
    ensures IsInt(t) && IntValue(t) == n <==> IntSpelling(t, n)
  {
    if IsInt(t) {
      var sign := SignOf(t);
      assert SpellsInt(t, sign, Unsigned(t), IntValue(t));
    }
    if IntSpelling(t, n) {
      var sign, digits :| SpellsInt(t, sign, digits, n);
      RunChars(digits);
      UnsignedOf(sign, digits);
    }
  }

  // ---------------------------------------------------------------- floats

  /** Lowering changes letters only. */
  lemma LowerNumeric(s: string)
    ensures (forall i :: 0 <= i < |s| ==> !('a' <= Lower(s)[i] <= 'z')) ==> Lower(s) == s
    ensures (forall i :: 0 <= i < |s| ==> !('A' <= s[i] <= 'Z')) ==> Lower(s) == s
  {
    if forall i :: 0 <= i < |s| ==> !('a' <= Lower(s)[i] <= 'z') {
      forall i | 0 <= i < |s| ensures Lower(s)[i] == s[i] {
        assert Lower(s)[i] == LowerChar(s[i]);
      }
    }
  }

  lemma LowerConcat(a: string, b: string)
    ensures Lower(a + b) == Lower(a) + Lower(b)
  {
    var x, y := Lower(a + b), Lower(a) + Lower(b);
    assert |x| == |y| && forall i :: 0 <= i < |x| ==> x[i] == y[i];
  }

  predicate IsNumeric(c: char) {
    IsDecimal(c) || c == '_' || c == '.'
  }

  lemma WhereThePointIs(m: string)
    ensures DigitRun(m, 10) ==> '.' !in m
    ensures forall a, b :: PointForm(m, a, b) ==> '.' in m
  {
    if DigitRun(m, 10) {
      RunChars(m);
    }
    forall a, b | PointForm(m, a, b) ensures '.' in m {
      assert m[|a|] == '.';
    }
  }

  lemma MantissaIff(m: string)
    ensures IsMantissa(m) <==> MantissaForm(m)
    ensures IsMantissa(m) ==> m != "" && (IsDecimal(m[0]) || m[0] == '.') && forall i :: 0 <= i < |m| ==> IsNumeric(m[i])
  {
    WhereThePointIs(m);
    hide DigitRun;
    if '.' in m {
      var a, b := Before(m, '.'), After(m, '.');
      assert m == a + "." + b;
      if IsMantissa(m) {
        assert PointForm(m, a, b);
        PointChars(m, a, b);
      }
      if MantissaForm(m) {
        var x, y :| PointForm(m, x, y);
        PointParts(m, x, y);
      }
    } else if DigitRun(m, 10) {
      RunChars(m);
    }
  }

  lemma PointChars(m: string, a: string, b: string)
    requires PointForm(m, a, b)
    ensures m != "" && (IsDecimal(m[0]) || m[0] == '.') && forall i :: 0 <= i < |m| ==> IsNumeric(m[i])
  {
    if a != "" {
      RunChars(a);
    }
    if b != "" {
      RunChars(b);
    }
    hide DigitRun;
    assert forall i :: 0 <= i < |a| ==> m[i] == a[i];
    assert forall i :: 0 <= i < |b| ==> m[|a| + 1 + i] == b[i];
    assert m[|a|] == '.';
  }

  lemma PointParts(m: string, a: string, b: string)
    requires PointForm(m, a, b)
    ensures Before(m, '.') == a && After(m, '.') == b
  {
    if a != "" {
      RunChars(a);
    }
    assert m == a + ['.'] + b;
    PartitionAt(a, '.', b);
  }

  lemma ExponentMeans(rest: string)
    ensures DigitRun(Unsigned(rest), 10) ==>
      exists sign, digits :: IsSign(sign) && DigitRun(digits, 10) && rest == sign + digits
    ensures forall sign, digits :: IsSign(sign) && DigitRun(digits, 10) && rest == sign + digits ==>
      DigitRun(Unsigned(rest), 10) && Lower(rest) == rest
    ensures DigitRun(Unsigned(Lower(rest)), 10) ==> Lower(rest) == rest
  {
    if DigitRun(Unsigned(rest), 10) && rest != "" {
      var sign := SignOf(rest);
    }
    hide DigitRun, Lower, Unsigned;
    forall sign, digits | IsSign(sign) && DigitRun(digits, 10) && rest == sign + digits
      ensures DigitRun(Unsigned(rest), 10) && Lower(rest) == rest
    {
      SignedRun(sign, digits);
    }
    if DigitRun(Unsigned(Lower(rest)), 10) {
      UnsignedRun(rest);
    }
  }

  lemma SignedRun(sign: string, digits: string)
    requires IsSign(sign) && DigitRun(digits, 10)
    ensures DigitRun(Unsigned(sign + digits), 10) && Lower(sign + digits) == sign + digits
  {
    RunChars(digits);
    hide DigitRun;
    UnsignedOf(sign, digits);
    LowerNumeric(sign + digits);
  }

  lemma UnsignedRun(rest: string)
    requires DigitRun(Unsigned(Lower(rest)), 10)
    ensures Lower(rest) == rest
  {
    RunChars(Unsigned(Lower(rest)));
    hide DigitRun;
    LowerNumeric(rest);
    var low := Lower(rest);
    assert low == Unsigned(low) || low == [low[0]] + Unsigned(low);
  }

  /** Behind the sign: what `float()` accepts, in terms of a mantissa and an exponent. */
  lemma BodyIff(body: string)
    requires body != ""
    ensures var u := Lower(body);
      IsMantissa(Before(u, 'e')) && ('e' in u ==> DigitRun(Unsigned(After(u, 'e')), 10))
      <==> exists m, e :: body == m + e && MantissaForm(m) && (e == "" || ExponentForm(e))
  {
    var u := Lower(body);
    if IsMantissa(Before(u, 'e')) && ('e' in u ==> DigitRun(Unsigned(After(u, 'e')), 10)) {
      BodySplits(body);
    }
    if exists m, e :: body == m + e && MantissaForm(m) && (e == "" || ExponentForm(e)) {
      var m, e :| body == m + e && MantissaForm(m) && (e == "" || ExponentForm(e));
      BodyJoins(m, e);
    }
  }

  lemma BodySplits(body: string)
    requires var u := Lower(body); IsMantissa(Before(u, 'e')) && ('e' in u ==> DigitRun(Unsigned(After(u, 'e')), 10))
    ensures exists m, e :: body == m + e && MantissaForm(m) && (e == "" || ExponentForm(e))
  {
    hide IsMantissa, MantissaForm, DigitRun, Lower, ExponentForm, Before, After;
    var m, e := CutAtE(body);
    MantissaIff(Lower(m));
    LowerNumeric(m);
    if e != "" {
      ExponentSplits(e);
    }
  }

  lemma LowerCut(body: string, k: nat)
    requires k <= |body|
    ensures Lower(body[..k]) == Lower(body)[..k] && Lower(body[k..]) == Lower(body)[k..]
  {
    LowerConcat(body[..k], body[k..]);
    assert body == body[..k] + body[k..];
    hide Lower;
    var x, y := Lower(body[..k]), Lower(body[k..]);
    assert (x + y)[..k] == x && (x + y)[k..] == y;
  }

  lemma CutAtE(body: string) returns (m: string, e: string)
    ensures body == m + e && Lower(m) == Before(Lower(body), 'e') && (e == "" <==> 'e' !in Lower(body))
    ensures e != "" ==> LowerChar(e[0]) == 'e' && Lower(e[1..]) == After(Lower(body), 'e')
  {
    hide Lower, IndexOf;
    var k := IndexOf(Lower(body), 'e');
    m, e := body[..k], body[k..];
    LowerCut(body, k);
    if e != "" {
      TailLowered(e);
      AfterCut(Lower(body), k);
    }
  }

  lemma AfterCut(u: string, k: nat)
    requires k < |u|
    ensures u[k..][1..] == u[k + 1..] && u[k..][0] == u[k]
  {
  }

  lemma TailLowered(e: string)
    requires e != ""
    ensures Lower(e[1..]) == Lower(e)[1..]
  {
  }

  lemma ExponentSplits(e: string)
    requires e != "" && LowerChar(e[0]) == 'e' && DigitRun(Unsigned(Lower(e[1..])), 10)
    ensures ExponentForm(e)
  {
    hide DigitRun, Lower;
    ExponentMeans(e[1..]);
    var sign, digits :| IsSign(sign) && DigitRun(digits, 10) && e[1..] == sign + digits;
    assert e == [e[0]] + sign + digits;
    assert ExponentOf(e, e[0], sign, digits);
  }

  lemma BodyJoins(m: string, e: string)
    requires MantissaForm(m) && (e == "" || ExponentForm(e))
    ensures var u := Lower(m + e); IsMantissa(Before(u, 'e')) && ('e' in u ==> DigitRun(Unsigned(After(u, 'e')), 10))
  {
    hide IsMantissa, MantissaForm, DigitRun, Lower, ExponentForm, Unsigned, Before, After;
    MantissaLowered(m);
    LowerConcat(m, e);
    if e == "" {
      assert m + e == m;
      NoLetterE(m);
    } else {
      var rest := ExponentJoins(e);
      assert Lower(m + e) == m + ['e'] + rest;
      PartitionAt(m, 'e', rest);
    }
  }

  lemma MantissaLowered(m: string)
    requires MantissaForm(m)
    ensures IsMantissa(m) && Lower(m) == m && 'e' !in m
  {
    hide IsMantissa, MantissaForm;
    MantissaIff(m);
    LowerNumeric(m);
  }

  lemma NoLetterE(m: string)
    requires 'e' !in m
    ensures Before(m, 'e') == m
  {
    var i := IndexOf(m, 'e');
    assert m[..|m|] == m;
  }

  lemma ExponentJoins(e: string) returns (rest: string)
    requires ExponentForm(e)
    ensures Lower(e) == ['e'] + rest && DigitRun(Unsigned(rest), 10)
  {
    var c, sign, digits :| ExponentOf(e, c, sign, digits);
    rest := sign + digits;
    hide DigitRun;
    assert e == [c] + rest;
    LowerConcat([c], rest);
    assert Lower([c]) == ['e'];
    ExponentMeans(rest);
  }

  predicate NumberWord(body: string) {
    IsWord(body, "inf") || IsWord(body, "infinity") || IsWord(body, "nan")
  }

  lemma FloatIff(t: string)
    ensures IsFloat(t) <==> FloatForm(t)
  {
    hide IsFloat, FloatForm;
    if IsFloat(t) {
      FloatSplits(t);
    }
    if FloatForm(t) {
      FloatJoins(t);
    }
  }

  lemma FloatSplits(t: string)
    requires IsFloat(t)
    ensures FloatForm(t)
  {
    NonEmptyFloat(t);
    var sign := SignOf(t);
    var body := Unsigned(t);
    NumberWords(body);
    hide IsMantissa, MantissaForm, ExponentForm, IsWord, Lower, Before, After, DigitRun, Unsigned;
    if NumberWord(body) {
      WordIsFloat(sign, body);
    } else {
      BodyIff(body);
      BodyIsFloat(sign, body);
    }
  }

  lemma BodyIsFloat(sign: string, body: string)
    requires IsSign(sign) && exists m, e :: body == m + e && MantissaForm(m) && (e == "" || ExponentForm(e))
    ensures FloatForm(sign + body)
  {
    hide MantissaForm, ExponentForm, IsWord;
    var m, e :| body == m + e && MantissaForm(m) && (e == "" || ExponentForm(e));
    assert sign + (m + e) == sign + m + e;
    assert FloatParts(sign + body, sign, m, e);
  }

  lemma WordIsFloat(sign: string, body: string)
    requires IsSign(sign) && NumberWord(body)
    ensures FloatForm(sign + body)
  {
    hide IsWord, MantissaForm;
    assert sign + body == sign + body + "";
    assert FloatParts(sign + body, sign, body, "");
  }

  lemma FloatJoins(t: string)
    requires FloatForm(t)
    ensures IsFloat(t)
  {
    var sign, m, e :| FloatParts(t, sign, m, e);
    hide IsMantissa, MantissaForm, ExponentForm, IsWord, Lower, Before, After, DigitRun;
    var body := m + e;
    assert t == sign + body;
    PartsStart(m, e);
    UnsignedOf(sign, body);
    NumberWords(body);
    if e == "" && NumberWord(m) {
      assert body == m;
    } else {
      BodyIff(body);
    }
  }

  lemma NonEmptyFloat(t: string)
    requires IsFloat(t)
    ensures t != "" && Unsigned(t) != ""
  {
    EmptyIsNoFloat();
  }

  lemma EmptyIsNoFloat()
    ensures Lower("") == "" && Before("", 'e') == "" && !IsMantissa("")
  {
  }

  lemma PartsStart(m: string, e: string)
    requires (e == "" && (IsWord(m, "inf") || IsWord(m, "infinity") || IsWord(m, "nan")))
      || (MantissaForm(m) && (e == "" || ExponentForm(e)))
    ensures m != "" && m[0] != '+' && m[0] != '-' && (m + e)[0] == m[0]
  {
    if MantissaForm(m) {
      MantissaIff(m);
    }
  }

  // ---------------------------------------------------------------- the whole table

  lemma QuotesIff(t: string)
    ensures IsQuoted(t) <==> exists s :: Quotes(t, s)
    ensures IsQuoted(t) ==> forall s :: Quotes(t, s) <==> s == t[1..|t| - 1]
  {
    if IsQuoted(t) {
      var s := t[1..|t| - 1];
      assert t == [t[0]] + s + [t[0]];
      assert QuotedWith(t, t[0], s) && Quotes(t, s);
    }
    forall s | Quotes(t, s) ensures IsQuoted(t) && s == t[1..|t| - 1] {
      var q :| QuotedWith(t, q, s);
      assert t[0] == q && t[|t| - 1] == q && t[1..|t| - 1] == s;
    }
  }

  predicate NumberStart(c: char) {
    IsDecimal(c) || c == '.' || c == '+' || c == '-'
  }

  lemma IntStarts(t: string)
    requires IsInt(t)
    ensures t != "" && NumberStart(t[0])
  {
    RunChars(Unsigned(t));
  }

  lemma FloatStarts(t: string)
    requires IsFloat(t)
    ensures t != "" && (NumberStart(t[0]) || Lower(t) == "inf" || Lower(t) == "infinity" || Lower(t) == "nan")
  {
    var u := Lower(Unsigned(t));
    if t == Unsigned(t) && u != "inf" && u != "infinity" && u != "nan" {
      MantissaIff(Before(u, 'e'));
      assert u[0] == Before(u, 'e')[0];
      assert u[0] == LowerChar(t[0]);
    }
  }

  /** A text that starts like a number, or is a number's word, is none of the others. */
  lemma StartsLikeNumber(t: string)
    requires t != "" && (NumberStart(t[0]) || Lower(t) == "inf" || Lower(t) == "infinity" || Lower(t) == "nan")
    ensures t != "~" && !IsQuoted(t) && Lower(t) != "null" && Lower(t) != "true" && Lower(t) != "yes"
      && Lower(t) != "false" && Lower(t) != "no"
  {
    assert Lower(t)[0] == LowerChar(t[0]);
  }

  lemma QuoteIsNoWord(t: string)
    requires IsQuoted(t)
    ensures t != "~" && Lower(t) != "null" && Lower(t) != "true" && Lower(t) != "yes" && Lower(t) != "false" && Lower(t) != "no"
  {
    assert Lower(t)[0] == LowerChar(t[0]);
  }

  /** No text is of two kinds, but for integers being floats too. */
  lemma KindsExclude(t: string)
    ensures IsInt(t) || IsFloat(t) ==> t != "" && t != "~" && !IsQuoted(t)
    ensures IsInt(t) || IsFloat(t) || IsQuoted(t) ==>
      Lower(t) != "null" && Lower(t) != "true" && Lower(t) != "yes" && Lower(t) != "false" && Lower(t) != "no"
    ensures IsQuoted(t) ==> t != "" && t != "~"
  {
    hide Lower, IsInt, IsFloat;
    if IsInt(t) {
      IntStarts(t);
      StartsLikeNumber(t);
    }
    if IsFloat(t) {
      FloatStarts(t);
      StartsLikeNumber(t);
    }
    if IsQuoted(t) {
      QuoteIsNoWord(t);
    }
  }

  /** For every text at all: it reads as a value if and only if, stripped, it is one of that value's spellings. */
  lemma ScalarIff(tok: string, v: Value)
    ensures Scalar(tok) == v <==> Spells(Strip(tok), v)
  {
    var t := Strip(tok);
    hide Strip, Lower, IsInt, IsFloat, IsQuoted, IntValue, IsWord, IntSpelling, FloatForm, Quotes;
    Words(t);
    KindsExclude(t);
    QuotesIff(t);
    FloatIff(t);
    forall n ensures IntSpelling(t, n) <==> IsInt(t) && IntValue(t) == n {
      IntIff(t, n);
    }
    if IsInt(t) {
      assert IntSpelling(t, IntValue(t));
    }
    EmptyIsNoWord();
  }

  lemma EmptyIsNoWord()
    ensures forall w: string :: IsWord("", w) ==> w == ""
    ensures forall w: string :: IsWord("~", w) ==> w == "~"
  {
  }

  /** An ordinary word, such as a role or a provider's name, reads as itself. */
  lemma WordsRead(t: string)
    requires t != "" && ('a' <= t[0] <= 'z' || 'A' <= t[0] <= 'Z')
    requires forall w :: w in {"null", "true", "yes", "false", "no", "inf", "infinity", "nan"} ==> !IsWord(t, w)
    ensures Spells(t, Str(t))
  {
    hide Lower, IsWord, IsInt, IsFloat, IntValue;
    NumberWords(t);
    if IsInt(t) {
      IntStarts(t);
    }
    if IsFloat(t) {
      FloatStarts(t);
    }
    FloatIff(t);
    QuotesIff(t);
    forall n ensures !IntSpelling(t, n) {
      IntIff(t, n);
    }
  }
}
