/**
 Documents of the supported subset as they may be written: a tree whose leaves carry any
 spelling of their value, and the lines it is printed on.
 */
module TopologyPrint {
  import opened Common
  import opened Text
  import opened Topology
  import opened TopologySpelling

  // ---------------------------------------------------------------- written documents

  /** A leaf is a value and one of its spellings; an empty text is a key with nothing behind it. */
  datatype Tree = Leaf(value: Value, text: string) | Branch(twigs: seq<Twig>) | Row(trees: seq<Tree>)

  /** A key, and how many columns more than one a block below it is indented. */
  datatype Twig = Twig(key: string, gap: nat, tree: Tree)

  /** What the document says. */
  function Meaning(t: Tree): Value
    decreases t, 1
  {
    match t
    case Leaf(v, _) => v
    case Branch(ts) => Map(Entries(ts))
    case Row(xs) => List(Meanings(xs))
  }

  function Entries(ts: seq<Twig>): (es: seq<Entry>)
    ensures |es| == |ts| && forall i :: 0 <= i < |ts| ==> es[i].key == ts[i].key
    decreases ts, 0
  {
    if ts == [] then [] else [Entry(ts[0].key, Meaning(ts[0].tree))] + Entries(ts[1..])
  }

  function Meanings(xs: seq<Tree>): (vs: seq<Value>)
    ensures |vs| == |xs|
    decreases xs, 0
  {
    if xs == [] then [] else [Meaning(xs[0])] + Meanings(xs[1..])
  }

  predicate OneLine(s: string) {
    Unbroken(s, IsBreak)
  }

  /** A key that survives: no colon, comment sign or line break, no space at its ends, and not read as a dash. */
  predicate GoodKey(k: string) {
    k != "" && Bare(k) && ':' !in k && '#' !in k && OneLine(k) && !IsDash(k)
  }

  /** What the text of a scalar must be like for the line structure to survive. */
  predicate Plain(t: string) {
    t != "" && Bare(t) && '#' !in t && OneLine(t)
  }

  /** In a list the text may not hold a colon, which would make the item a mapping. */
  ghost predicate GoodLeaf(t: Tree, inList: bool) {
    t.Leaf? && Plain(t.text) && Spells(t.text, t.value) && (inList ==> ':' !in t.text)
  }

  predicate EmptyLeaf(t: Tree) {
    t == Leaf(Null, "")
  }

  ghost predicate DistinctKeys(d: seq<Entry>) {
    forall i, j :: 0 <= i < j < |d| ==> d[i].key != d[j].key
  }

  /** A document of the subset: non-empty mappings and lists, list items scalars or mappings. */
  ghost predicate Written(t: Tree)
    decreases t
  {
    match t
    case Leaf(_, _) => false
    case Branch(ts) =>
      && ts != [] && DistinctKeys(Entries(ts))
      && forall w :: w in ts ==> GoodKey(w.key) && (EmptyLeaf(w.tree) || GoodLeaf(w.tree, false) || Written(w.tree))
    case Row(xs) =>
      xs != [] && forall x :: x in xs ==> GoodLeaf(x, true) || (x.Branch? && Written(x) && FirstIsClear(x))
  }

  /**
   With further keys behind it, an item's first key may not stand empty, as they would be read as
   its value, and a block below it must be deeper than they are.
   */
  predicate FirstIsClear(x: Tree)
    requires x.Branch?
  {
    |x.twigs| > 1 ==> !EmptyLeaf(x.twigs[0].tree) && (!x.twigs[0].tree.Leaf? ==> x.twigs[0].gap >= 2)
  }

  // ---------------------------------------------------------------- the lines

  function TwigText(w: Twig): string {
    if w.tree.Leaf? && w.tree.text != "" then w.key + ": " + w.tree.text else w.key + ":"
  }

  /** The lines of one key and of the block below it. */
  function TwigLines(w: Twig, indent: nat): seq<Line>
    decreases w, 2
  {
    [Line(indent, TwigText(w))] + if w.tree.Leaf? then [] else PrintBlock(w.tree, indent + 1 + w.gap)
  }

  function PrintBlock(t: Tree, indent: nat): seq<Line>
    requires !t.Leaf?
    decreases t, 1
  {
    match t
    case Branch(ts) => PrintTwigs(ts, indent)
    case Row(xs) => PrintItems(xs, indent)
  }

  /** `key: value`, or `key:` and the nested block. */
  function PrintTwigs(ts: seq<Twig>, indent: nat): seq<Line>
    decreases ts, 0
  {
    if ts == [] then [] else TwigLines(ts[0], indent) + PrintTwigs(ts[1..], indent)
  }

  /** A mapping item starts on the dash line, its further keys two columns deeper. */
  function PrintItem(x: Tree, indent: nat): seq<Line>
    decreases x, 0
  {
    match x
    case Leaf(_, text) => [Line(indent, "- " + text)]
    case Branch(ts) => if ts == [] then [] else FirstLines(ts[0], indent) + PrintTwigs(ts[1..], indent + 2)
    case Row(_) => []
  }

  function FirstLines(w: Twig, indent: nat): seq<Line>
    decreases w, 2
  {
    [Line(indent, "- " + TwigText(w))] + if w.tree.Leaf? then [] else PrintBlock(w.tree, indent + 1 + w.gap)
  }

  function PrintItems(xs: seq<Tree>, indent: nat): seq<Line>
    decreases xs, 0
  {
    if xs == [] then [] else PrintItem(xs[0], indent) + PrintItems(xs[1..], indent)
  }

  // ---------------------------------------------------------------- reading a leaf

  lemma StripPlain(t: string)
    requires Plain(t)
    ensures Strip(t) == t
  {
    StripBare(t);
  }

  /** Every spelling of a value reads as that value. */
  lemma LeafBack(t: Tree, inList: bool)
    requires GoodLeaf(t, inList)
    ensures Scalar(t.text) == t.value
  {
    hide Scalar, Spells, Strip;
    StripPlain(t.text);
    ScalarIff(t.text, t.value);
  }

  // ---------------------------------------------------------------- every value can be written

  function IntText(n: int): string {
    if n < 0 then "-" + Numeral(-n, 10) else Numeral(n, 10)
  }

  /** One spelling for each scalar; a float is its text. */
  function ScalarText(v: Value): string {
    match v
    case Null => "null"
    case Bool(b) => if b then "true" else "false"
    case Int(n) => IntText(n)
    case Float(t) => t
    case Str(s) => "\"" + s + "\""
    case _ => ""
  }

  ghost predicate GoodScalar(v: Value, inList: bool) {
    match v
    case Null => true
    case Bool(_) => true
    case Int(_) => true
    case Float(t) => FloatForm(t) && forall n :: !IntSpelling(t, n)
    case Str(s) => '#' !in s && OneLine(s) && (inList ==> ':' !in s)
    case _ => false
  }

  ghost predicate Supported(v: Value)
    decreases v
  {
    match v
    case Map(d) => d != [] && DistinctKeys(d) && forall e :: e in d ==> GoodKey(e.key) && (GoodScalar(e.value, false) || Supported(e.value))
    case List(items) => items != [] && forall x :: x in items ==> GoodScalar(x, true) || (x.Map? && Supported(x))
    case _ => false
  }

  /** The canonical way to write a value, four columns a level. */
  function Canonical(v: Value): Tree
    decreases v, 1
  {
    match v
    case Map(d) => Branch(CanonicalTwigs(d))
    case List(items) => Row(CanonicalRow(items))
    case _ => Leaf(v, ScalarText(v))
  }

  function CanonicalTwigs(d: seq<Entry>): (ts: seq<Twig>)
    ensures |ts| == |d| && forall i :: 0 <= i < |d| ==> ts[i].key == d[i].key
    decreases d, 0
  {
    if d == [] then [] else [Twig(d[0].key, 3, Canonical(d[0].value))] + CanonicalTwigs(d[1..])
  }

  function CanonicalRow(items: seq<Value>): seq<Tree>
    decreases items, 0
  {
    if items == [] then [] else [Canonical(items[0])] + CanonicalRow(items[1..])
  }

  lemma NumeralRun(m: nat)
    ensures DigitRun(Numeral(m, 10), 10) && RunValue(Numeral(m, 10), 10) == m
  {
    var digits := Numeral(m, 10);
    hide Numeral, DigitRun, RunDigits;
    PlainRun(digits, 10);
    NumeralValue(m, 10);
  }

  lemma SignedInt(sign: string, digits: string, n: int)
    requires IsSign(sign) && DigitRun(digits, 10) && n == if sign == "-" then -(RunValue(digits, 10) as int) else RunValue(digits, 10)
    ensures Plain(sign + digits) && ':' !in sign + digits && IntSpelling(sign + digits, n)
  {
    hide DigitRun, RunValue, Plain, NumberText;
    assert SpellsInt(sign + digits, sign, digits, n);
    RunIsPlain(digits);
    SignedIsPlain(sign, digits);
  }

  lemma IntSpelled(n: int)
    ensures Plain(IntText(n)) && ':' !in IntText(n) && IntSpelling(IntText(n), n)
  {
    hide Numeral, DigitRun, RunValue, Plain, IntSpelling;
    var m: nat := if n < 0 then -n else n;
    NumeralRun(m);
    SignedInt(if n < 0 then "-" else "", Numeral(m, 10), n);
    assert "" + Numeral(m, 10) == Numeral(m, 10);
  }

  ghost predicate NumberText(t: string) {
    t != "" && forall i :: 0 <= i < |t| ==> IsNumberChar(t[i])
  }

  predicate IsNumberChar(c: char) {
    IsNumeric(c) || c == '+' || c == '-' || 'a' <= c <= 'z' || 'A' <= c <= 'Z'
  }

  lemma NumberIsPlain(t: string)
    requires NumberText(t)
    ensures Plain(t) && ':' !in t
  {
  }

  lemma RunIsPlain(digits: string)
    requires DigitRun(digits, 10)
    ensures NumberText(digits)
  {
    RunChars(digits);
  }

  lemma SignedIsPlain(sign: string, body: string)
    requires IsSign(sign) && NumberText(body)
    ensures NumberText(sign + body) && Plain(sign + body) && ':' !in sign + body
  {
    var t := sign + body;
    assert forall i :: 0 <= i < |t| ==> t[i] in sign || t[i] in body;
    NumberIsPlain(t);
  }

  lemma WordIsNumberText(m: string)
    requires IsWord(m, "inf") || IsWord(m, "infinity") || IsWord(m, "nan")
    ensures NumberText(m)
  {
  }

  lemma FloatIsPlain(t: string)
    requires FloatForm(t)
    ensures Plain(t) && ':' !in t
  {
    var sign, m, e :| FloatParts(t, sign, m, e);
    hide MantissaForm, ExponentForm, IsWord, Plain, NumberText;
    assert t == sign + (m + e);
    if e == "" && (IsWord(m, "inf") || IsWord(m, "infinity") || IsWord(m, "nan")) {
      WordIsNumberText(m);
      assert m + e == m;
    } else {
      MantissaIsNumberText(m);
      if e == "" {
        assert m + e == m;
      } else {
        ExponentIsNumberText(e);
        BothAreNumberText(m, e);
      }
    }
    SignedIsPlain(sign, m + e);
  }

  lemma MantissaIsNumberText(m: string)
    requires MantissaForm(m)
    ensures NumberText(m)
  {
    MantissaIff(m);
  }

  lemma ExponentIsNumberText(e: string)
    requires ExponentForm(e)
    ensures NumberText(e)
  {
    var c, sign, digits :| ExponentOf(e, c, sign, digits);
    RunIsPlain(digits);
    assert forall i :: 0 <= i < |e| ==> e[i] == c || e[i] in sign || e[i] in digits;
  }

  lemma BothAreNumberText(m: string, e: string)
    requires NumberText(m) && NumberText(e)
    ensures NumberText(m + e)
  {
  }

  lemma QuotedIsSpelled(s: string)
    requires '#' !in s && OneLine(s)
    ensures var t := "\"" + s + "\""; Plain(t) && Quotes(t, s) && (':' in t ==> ':' in s)
  {
    var t := "\"" + s + "\"";
    assert QuotedWith(t, '"', s);
    assert t[0] == '"' && t[|t| - 1] == '"';
  }

  lemma WordsAreSpelled()
    ensures Plain("null") && ':' !in "null" && IsWord("null", "null")
    ensures Plain("true") && ':' !in "true" && IsWord("true", "true")
    ensures Plain("false") && ':' !in "false" && IsWord("false", "false")
  {
  }

  lemma ScalarIsWritten(v: Value, inList: bool)
    requires GoodScalar(v, inList)
    ensures !v.Map? && !v.List? && GoodLeaf(Canonical(v), inList)
  {
    hide Plain, IsWord, FloatForm, IntSpelling, Quotes, IntText;
    match v {
      case Null => WordsAreSpelled();
      case Bool(_) => WordsAreSpelled();
      case Int(n) => IntSpelled(n);
      case Float(t) => FloatIsPlain(t);
      case Str(s) => QuotedIsSpelled(s);
    }
  }

  /** Every supported value is what some written document says. */
  lemma {:induction false} CanonicalIsWritten(v: Value)
    requires Supported(v)
    ensures Written(Canonical(v)) && Meaning(Canonical(v)) == v && Canonical(v).Branch? == v.Map? && !Canonical(v).Leaf?
    decreases v, 1
  {
    hide GoodScalar, GoodLeaf, GoodKey, DistinctKeys;
    match v {
      case Map(d) =>
        TwigsAreWritten(d);
        assert DistinctKeys(Entries(CanonicalTwigs(d)));
      case List(items) => RowIsWritten(items);
    }
  }

  ghost predicate GoodTwig(w: Twig) {
    GoodKey(w.key) && (EmptyLeaf(w.tree) || GoodLeaf(w.tree, false) || Written(w.tree))
  }

  ghost predicate GoodItem(x: Tree) {
    GoodLeaf(x, true) || (x.Branch? && Written(x) && FirstIsClear(x))
  }

  lemma {:induction false} TwigsAreWritten(d: seq<Entry>)
    requires forall e :: e in d ==> GoodKey(e.key) && (GoodScalar(e.value, false) || Supported(e.value))
    ensures Entries(CanonicalTwigs(d)) == d && forall w :: w in CanonicalTwigs(d) ==> GoodTwig(w) && !EmptyLeaf(w.tree)
    decreases d, 0
  {
    hide GoodScalar, GoodKey, Supported, GoodLeaf, Written, ScalarText;
    if d != [] {
      var e := d[0];
      assert e in d;
      TwigsAreWritten(d[1..]);
      var first, rest := Twig(e.key, 3, Canonical(e.value)), CanonicalTwigs(d[1..]);
      assert ([first] + rest)[0] == first && ([first] + rest)[1..] == rest;
      ValueIsWritten(e.value, false);
      assert [e] + d[1..] == d;
    }
  }

  lemma {:induction false} ValueIsWritten(v: Value, inList: bool)
    requires GoodScalar(v, inList) || Supported(v)
    ensures GoodLeaf(Canonical(v), inList) || Written(Canonical(v))
    ensures Meaning(Canonical(v)) == v && !EmptyLeaf(Canonical(v))
    decreases v, 2
  {
    if GoodScalar(v, inList) {
      ScalarIsWritten(v, inList);
      hide GoodScalar, Spells;
    } else {
      CanonicalIsWritten(v);
    }
  }

  lemma {:induction false} RowIsWritten(items: seq<Value>)
    requires forall x :: x in items ==> GoodScalar(x, true) || (x.Map? && Supported(x))
    ensures Meanings(CanonicalRow(items)) == items && |CanonicalRow(items)| == |items|
    ensures forall x :: x in CanonicalRow(items) ==> GoodItem(x)
    decreases items, 0
  {
    hide GoodScalar, Supported, GoodLeaf, Written, ScalarText;
    if items != [] {
      var x := items[0];
      assert x in items;
      RowIsWritten(items[1..]);
      var rest := CanonicalRow(items[1..]);
      assert ([Canonical(x)] + rest)[0] == Canonical(x) && ([Canonical(x)] + rest)[1..] == rest;
      ItemIsWritten(x);
      assert [x] + items[1..] == items;
    }
  }

  lemma {:induction false} ItemIsWritten(x: Value)
    requires GoodScalar(x, true) || (x.Map? && Supported(x))
    ensures GoodItem(Canonical(x)) && Meaning(Canonical(x)) == x
    decreases x, 2
  {
    if GoodScalar(x, true) {
      ScalarIsWritten(x, true);
      hide GoodScalar, GoodLeaf;
    } else {
      CanonicalIsWritten(x);
      hide Written, GoodKey, GoodScalar;
      if x.entries != [] {
        FirstIsValue(x);
      }
    }
  }

  lemma {:induction false} FirstIsValue(x: Value)
    requires x.Map? && Supported(x) && x.entries != []
    ensures !EmptyLeaf(CanonicalTwigs(x.entries)[0].tree)
    decreases x, 1
  {
    assert x.entries[0] in x.entries;
    hide GoodKey;
    ValueIsWritten(x.entries[0].value, false);
  }
}
