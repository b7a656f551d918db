/** Parsing a printed document gives back exactly what it says, however its scalars are spelled. */
module TopologyRoundTrip {
  import opened Common
  import opened Text
  import opened Topology
  import opened TopologySpelling
  import opened TopologyPrint

  // ---------------------------------------------------------------- the text of one line

  lemma DashIs(text: string)
    ensures IsDash(text) <==> |text| >= 2 && text[0] == '-' && text[1] == ' '
  {
    if |text| >= 2 && text[0] == '-' && text[1] == ' ' {
      assert text[..2] == "- ";
    }
    if IsDash(text) {
      assert text[..2][0] == '-' && text[..2][1] == ' ';
    }
  }

  lemma NoDash(k: string, rest: string)
    requires k != "" && !IsDash(k) && rest != "" && rest[0] != ' '
    ensures !IsDash(k + rest)
  {
    var text := k + rest;
    DashIs(text);
    DashIs(k);
    hide IsDash;
    assert text[0] == k[0] && text[1] == if |k| >= 2 then k[1] else rest[0];
  }

  /** A key, a separator and a text make a line that cleaning leaves alone. */
  lemma Glued(k: string, mid: string, t: string)
    requires GoodKey(k) && '#' !in mid && OneLine(mid) && (Plain(t) || (t == "" && mid != "" && !IsSpace(mid[|mid| - 1])))
    ensures Plain(k + mid + t)
  {
    var text := k + mid + t;
    hide IsDash, IsSpace, IsBreak;
    assert text[0] == k[0] && text[|text| - 1] == if t == "" then mid[|mid| - 1] else t[|t| - 1];
  }

  lemma KeyLine(k: string, t: string)
    requires GoodKey(k) && Plain(t)
    ensures var text := k + ": " + t;
      && Before(text, ':') == k && After(text, ':') == " " + t && ':' in text
      && Strip(k) == k && Strip(" " + t) == t && !IsDash(text) && Plain(text)
  {
    var text := k + ": " + t;
    assert text == k + [':'] + (" " + t);
    assert text == k + (": " + t);
    Glued(k, ": ", t);
    hide IndexOf, Strip, OneLine, IsDash, Before, After;
    PartitionAt(k, ':', " " + t);
    StripBare(k);
    StripPadded(" ", t, "");
    assert " " + t + "" == " " + t;
    NoDash(k, ": " + t);
  }

  lemma KeyOnly(k: string)
    requires GoodKey(k)
    ensures var text := k + ":";
      && Before(text, ':') == k && After(text, ':') == "" && ':' in text
      && Strip(k) == k && Strip("") == "" && !IsDash(text) && Plain(text)
  {
    var text := k + ":";
    assert text == k + [':'] + "" && text == k + ":" + "";
    Glued(k, ":", "");
    StripBare("");
    hide IndexOf, Strip, OneLine, IsDash, Before, After;
    PartitionAt(k, ':', "");
    StripBare(k);
    NoDash(k, ":");
  }

  lemma DashLine(body: string)
    requires Plain(body)
    ensures IsDash("- " + body) && Strip(("- " + body)[2..]) == body && Plain("- " + body)
  {
    var text := "- " + body;
    assert text[2..] == body;
    StripBare(body);
    hide Strip;
    assert text[|text| - 1] == body[|body| - 1];
  }

  lemma ScalarPadded(t: string)
    requires Plain(t)
    ensures Scalar(" " + t) == Scalar(t)
  {
    hide Strip, Lower, IsInt, IsFloat, IsQuoted, IntValue, OneLine;
    StripPadded(" ", t, "");
    assert " " + t + "" == " " + t;
    StripBare(t);
  }

  // ---------------------------------------------------------------- one step of each loop

  lemma MapScalarStep(lines: seq<Line>, i: nat, indent: nat, d: seq<Entry>, k: string, t: string)
    requires i < |lines| && lines[i] == Line(indent, k + ": " + t) && GoodKey(k) && Plain(t)
    ensures MapFrom(lines, i, indent, d) == MapFrom(lines, i + 1, indent, Put(d, k, Scalar(t)))
  {
    KeyLine(k, t);
    hide Strip, Before, After, Scalar, Put, IsDash, ParseBlock, IsExtent, GoodKey;
  }

  lemma MapBlockStep(lines: seq<Line>, i: nat, indent: nat, d: seq<Entry>, k: string)
    requires i < |lines| && lines[i] == Line(indent, k + ":") && GoodKey(k)
    requires Deeper(lines, i, indent) && ParseBlock(lines, i + 1).Ok?
    ensures var (v, j) := ParseBlock(lines, i + 1).value; MapFrom(lines, i, indent, d) == MapFrom(lines, j, indent, Put(d, k, v))
  {
    KeyOnly(k);
    hide Strip, Before, After, Scalar, Put, IsDash, ParseBlock, IsExtent, GoodKey;
  }

  lemma MapEmptyStep(lines: seq<Line>, i: nat, indent: nat, d: seq<Entry>, k: string)
    requires i < |lines| && lines[i] == Line(indent, k + ":") && GoodKey(k) && !Deeper(lines, i, indent)
    ensures MapFrom(lines, i, indent, d) == MapFrom(lines, i + 1, indent, Put(d, k, Null))
  {
    KeyOnly(k);
    hide Strip, Before, After, Scalar, Put, IsDash, ParseBlock, IsExtent, GoodKey;
  }

  lemma ChildEmptyStep(lines: seq<Line>, i: nat, child: nat, item: seq<Entry>, k: string)
    requires i < |lines| && lines[i] == Line(child, k + ":") && GoodKey(k) && !Deeper(lines, i, child)
    ensures ChildrenFrom(lines, i, child, item) == ChildrenFrom(lines, i + 1, child, Put(item, k, Null))
  {
    KeyOnly(k);
    NothingIsNull();
    hide Strip, Before, After, Scalar, Put, IsDash, ParseBlock, IsExtent, GoodKey;
  }

  lemma NothingIsNull()
    ensures Scalar("") == Null
  {
    StripBare("");
  }

  lemma FirstEmpty(lines: seq<Line>, i: nat, indent: nat, k: string)
    requires i < |lines| && GoodKey(k) && !Deeper(lines, i, indent)
    ensures FirstEntry(lines, i, indent, k + ":") == Ok((Entry(k, Null), i + 1))
  {
    KeyOnly(k);
    hide Strip, Before, After, Scalar, IsDash, ParseBlock, IsExtent, GoodKey;
  }

  lemma ChildScalarStep(lines: seq<Line>, i: nat, child: nat, item: seq<Entry>, k: string, t: string)
    requires i < |lines| && lines[i] == Line(child, k + ": " + t) && GoodKey(k) && Plain(t)
    ensures ChildrenFrom(lines, i, child, item) == ChildrenFrom(lines, i + 1, child, Put(item, k, Scalar(t)))
  {
    KeyLine(k, t);
    ScalarPadded(t);
    hide Strip, Before, After, Scalar, Put, IsDash, ParseBlock, IsExtent, GoodKey;
  }

  lemma ChildBlockStep(lines: seq<Line>, i: nat, child: nat, item: seq<Entry>, k: string)
    requires i < |lines| && lines[i] == Line(child, k + ":") && GoodKey(k)
    requires Deeper(lines, i, child) && ParseBlock(lines, i + 1).Ok?
    ensures var (v, j) := ParseBlock(lines, i + 1).value; ChildrenFrom(lines, i, child, item) == ChildrenFrom(lines, j, child, Put(item, k, v))
  {
    KeyOnly(k);
    hide Strip, Before, After, Scalar, Put, IsDash, ParseBlock, IsExtent, GoodKey;
  }

  lemma FirstScalar(lines: seq<Line>, i: nat, indent: nat, k: string, t: string)
    requires i < |lines| && GoodKey(k) && Plain(t)
    ensures FirstEntry(lines, i, indent, k + ": " + t) == Ok((Entry(k, Scalar(t)), i + 1))
  {
    KeyLine(k, t);
    ScalarPadded(t);
    hide Strip, Before, After, Scalar, IsDash, ParseBlock, IsExtent, GoodKey;
  }

  lemma FirstBlock(lines: seq<Line>, i: nat, indent: nat, k: string)
    requires i < |lines| && GoodKey(k) && Deeper(lines, i, indent) && ParseBlock(lines, i + 1).Ok?
    ensures var (v, j) := ParseBlock(lines, i + 1).value; FirstEntry(lines, i, indent, k + ":") == Ok((Entry(k, v), j))
  {
    KeyOnly(k);
    hide Strip, Before, After, Scalar, IsDash, ParseBlock, IsExtent, GoodKey;
  }

  lemma ListScalarStep(lines: seq<Line>, i: nat, indent: nat, items: seq<Value>, t: string)
    requires i < |lines| && lines[i] == Line(indent, "- " + t) && Plain(t) && ':' !in t
    ensures ListFrom(lines, i, indent, items) == ListFrom(lines, i + 1, indent, items + [Scalar(t)])
  {
    DashLine(t);
    hide Strip, Scalar, IsDash, FirstEntry, ChildrenFrom, IsExtent;
  }

  lemma ListMapStep(lines: seq<Line>, i: nat, indent: nat, items: seq<Value>, body: string, first: Entry, j: nat, entries: seq<Entry>, k: nat)
    requires i < |lines| && lines[i] == Line(indent, "- " + body) && Plain(body) && ':' in body
    requires FirstEntry(lines, i, indent, body) == Ok((first, j)) && j <= |lines|
    requires ChildrenFrom(lines, j, indent + 2, [first]) == Ok((entries, k)) && k <= |lines|
    ensures ListFrom(lines, i, indent, items) == ListFrom(lines, k, indent, items + [Map(entries)])
  {
    DashLine(body);
    hide Strip, Scalar, IsDash, FirstEntry, ChildrenFrom, IsExtent;
  }

  // ---------------------------------------------------------------- where a printing lies

  predicate At(lines: seq<Line>, i: nat, part: seq<Line>) {
    i + |part| <= |lines| && lines[i..i + |part|] == part
  }

  /** The printing that stops before `j` is followed by nothing as deep as `indent`. */
  predicate Ends(lines: seq<Line>, j: nat, indent: nat) {
    j <= |lines| && (j < |lines| ==> lines[j].indent < indent)
  }

  lemma AtSplit(lines: seq<Line>, i: nat, a: seq<Line>, b: seq<Line>)
    requires At(lines, i, a + b)
    ensures At(lines, i, a) && At(lines, i + |a|, b)
    ensures a != [] ==> i < |lines| && lines[i] == a[0]
  {
    assert (a + b)[..|a|] == a && (a + b)[|a|..] == b;
    assert lines[i..i + |a + b|][..|a|] == lines[i..i + |a|];
    assert lines[i..i + |a + b|][|a|..] == lines[i + |a|..i + |a| + |b|];
    if a != [] {
      assert a[0] == lines[i..i + |a|][0];
    }
  }

  lemma TwigLine(w: Twig)
    requires GoodTwig(w)
    ensures Plain(TwigText(w)) && ':' in TwigText(w) && !IsDash(TwigText(w))
  {
    hide GoodKey, Strip, IsDash, Written, Spells, Plain, GoodLeaf;
    LeafIsPlain(w.tree);
    if w.tree.Leaf? && w.tree.text != "" {
      KeyLine(w.key, w.tree.text);
    } else {
      KeyOnly(w.key);
    }
  }

  lemma LeafIsPlain(t: Tree)
    requires GoodLeaf(t, false) || EmptyLeaf(t) || Written(t)
    ensures t.Leaf? && t.text != "" ==> Plain(t.text) && GoodLeaf(t, false)
    ensures t.Leaf? && t.text == "" ==> t.value == Null
    ensures !t.Leaf? ==> Written(t)
  {
    hide Spells;
  }

  lemma TwigsStart(ts: seq<Twig>, indent: nat)
    requires ts != [] && GoodTwig(ts[0])
    ensures PrintTwigs(ts, indent) != []
    ensures PrintTwigs(ts, indent)[0].indent == indent && !IsDash(PrintTwigs(ts, indent)[0].text)
  {
    TwigLine(ts[0]);
    hide IsDash, TwigText, GoodTwig;
  }

  lemma ItemStart(x: Tree, indent: nat)
    requires GoodItem(x)
    ensures PrintItem(x, indent) != []
    ensures PrintItem(x, indent)[0].indent == indent && IsDash(PrintItem(x, indent)[0].text)
  {
    hide TwigText, Spells, GoodKey, IsDash, PrintTwigs, PrintBlock;
    DashIs(PrintItem(x, indent)[0].text);
  }

  lemma ItemsStart(xs: seq<Tree>, indent: nat)
    requires xs != [] && GoodItem(xs[0])
    ensures PrintItems(xs, indent) != []
    ensures PrintItems(xs, indent)[0].indent == indent && IsDash(PrintItems(xs, indent)[0].text)
  {
    ItemStart(xs[0], indent);
    hide PrintItem, GoodItem, IsDash;
  }

  lemma BlockStart(t: Tree, indent: nat)
    requires Written(t)
    ensures PrintBlock(t, indent) != [] && PrintBlock(t, indent)[0].indent == indent
    ensures IsDash(PrintBlock(t, indent)[0].text) <==> t.Row?
  {
    hide IsDash, PrintTwigs, PrintItems;
    match t {
      case Branch(ts) =>
        assert ts[0] in ts;
        TwigsStart(ts, indent);
      case Row(xs) =>
        assert xs[0] in xs;
        ItemsStart(xs, indent);
    }
  }

  // ---------------------------------------------------------------- the inverse, over lines

  lemma {:induction false} BlockBack(lines: seq<Line>, i: nat, t: Tree, indent: nat)
    requires Written(t) && At(lines, i, PrintBlock(t, indent)) && Ends(lines, i + |PrintBlock(t, indent)|, indent)
    ensures i < |lines| && lines[i].indent == indent
    ensures ParseBlock(lines, i) == Ok((Meaning(t), i + |PrintBlock(t, indent)|))
    decreases t, 1
  {
    BlockStart(t, indent);
    HereIs(lines, i, PrintBlock(t, indent));
    hide IsDash, At, Ends, MapFrom, ListFrom, PrintTwigs, PrintItems, IsExtent, Written, GoodTwig, GoodItem, DistinctKeys;
    hide Entries, Meanings;
    match t {
      case Branch(ts) =>
        BranchIsGood(t);
        assert [] + Entries(ts) == Entries(ts);
        TwigsBack(lines, i, [], ts, indent);
      case Row(xs) =>
        RowIsGood(t);
        assert [] + Meanings(xs) == Meanings(xs);
        ItemsBack(lines, i, [], xs, indent);
    }
  }

  lemma BranchIsGood(t: Tree)
    requires t.Branch? && Written(t)
    ensures t.twigs != [] && DistinctKeys(Entries(t.twigs))
    ensures forall w :: w in t.twigs ==> GoodTwig(w)
    ensures forall w :: w in t.twigs[1..] ==> GoodTwig(w)
  {
  }

  lemma RowIsGood(t: Tree)
    requires t.Row? && Written(t)
    ensures t.trees != [] && forall x :: x in t.trees ==> GoodItem(x)
  {
  }

  lemma PutNew(done: seq<Entry>, rest: seq<Entry>)
    requires rest != [] && DistinctKeys(done + rest)
    ensures Put(done, rest[0].key, rest[0].value) == done + [rest[0]]
    ensures done + [rest[0]] + rest[1..] == done + rest
  {
    var all := done + rest;
    assert all[|done|] == rest[0];
    forall e | e in done ensures e.key != rest[0].key {
      var k :| 0 <= k < |done| && done[k] == e;
      assert all[k] == e;
    }
    hide Put;
  }

  /** What comes after a printing at a shallower indent ends it. */
  lemma TailEnds(lines: seq<Line>, j: nat, tail: seq<Line>, deep: nat)
    requires At(lines, j, tail) && (tail == [] ==> Ends(lines, j, deep))
    requires tail != [] ==> tail[0].indent < deep
    ensures Ends(lines, j, deep)
  {
    if tail != [] {
      assert lines[j..j + |tail|][0] == lines[j];
    }
  }

  /** A block nested under a key reads back. */
  lemma {:induction false} NestedBack(lines: seq<Line>, i: nat, head: Line, t: Tree, deep: nat)
    requires Written(t) && head.indent < deep && At(lines, i, [head] + PrintBlock(t, deep))
    requires Ends(lines, i + 1 + |PrintBlock(t, deep)|, deep)
    ensures i < |lines| && lines[i] == head && Deeper(lines, i, head.indent)
    ensures ParseBlock(lines, i + 1) == Ok((Meaning(t), i + 1 + |PrintBlock(t, deep)|))
    decreases t, 2
  {
    assert !t.Leaf?;
    hide PrintBlock, ParseBlock, Written, Meaning;
    AtSplit(lines, i, [head], PrintBlock(t, deep));
    hide At;
    BlockBack(lines, i + 1, t, deep);
  }

  lemma HereIs(lines: seq<Line>, i: nat, here: seq<Line>)
    requires At(lines, i, here) && here != []
    ensures i < |lines| && lines[i] == here[0]
  {
    assert lines[i..i + |here|][0] == lines[i];
  }

  lemma NotDeeper(lines: seq<Line>, i: nat, indent: nat)
    requires i < |lines| && Ends(lines, i + 1, indent + 1)
    ensures !Deeper(lines, i, indent)
  {
  }

  /** The printing of `ts` that stops before `j` cannot be read on: its last key has a value, or nothing deeper follows. */
  predicate Stands(lines: seq<Line>, j: nat, indent: nat, ts: seq<Twig>) {
    j <= |lines| && (ts == [] || (ts[|ts| - 1].tree.Leaf? && ts[|ts| - 1].tree.text != "") || Ends(lines, j, indent + 1))
  }

  /** One key of a mapping is read, whatever comes behind. */
  lemma {:induction false} TwigRead(lines: seq<Line>, i: nat, done: seq<Entry>, w: Twig, indent: nat)
    requires GoodTwig(w) && At(lines, i, TwigLines(w, indent))
    requires Stands(lines, i + |TwigLines(w, indent)|, indent, [w])
    ensures MapFrom(lines, i, indent, done)
      == MapFrom(lines, i + |TwigLines(w, indent)|, indent, Put(done, w.key, Meaning(w.tree)))
    decreases w, 3
  {
    hide MapFrom, ParseBlock, PrintBlock, GoodKey, Plain, Scalar, Put, At, Deeper, Written, Spells;
    LeafIsPlain(w.tree);
    HereIs(lines, i, TwigLines(w, indent));
    if !w.tree.Leaf? {
      NestedBack(lines, i, Line(indent, w.key + ":"), w.tree, indent + 1 + w.gap);
      MapBlockStep(lines, i, indent, done, w.key);
    } else if w.tree.text != "" {
      LeafBack(w.tree, false);
      MapScalarStep(lines, i, indent, done, w.key, w.tree.text);
    } else {
      NotDeeper(lines, i, indent);
      MapEmptyStep(lines, i, indent, done, w.key);
    }
  }

  lemma TwigsStep(ts: seq<Twig>, indent: nat)
    requires ts != []
    ensures PrintTwigs(ts, indent) == TwigLines(ts[0], indent) + PrintTwigs(ts[1..], indent)
    ensures Entries(ts) != [] && Entries(ts)[0] == Entry(ts[0].key, Meaning(ts[0].tree)) && Entries(ts)[1..] == Entries(ts[1..])
  {
    hide TwigLines, Meaning;
  }

  /** So is any list of keys, up to where it stands. */
  lemma {:induction false} TwigsRead(lines: seq<Line>, i: nat, done: seq<Entry>, rest: seq<Twig>, indent: nat)
    requires At(lines, i, PrintTwigs(rest, indent)) && Stands(lines, i + |PrintTwigs(rest, indent)|, indent, rest)
    requires DistinctKeys(done + Entries(rest)) && forall w :: w in rest ==> GoodTwig(w)
    ensures i + |PrintTwigs(rest, indent)| <= |lines|
    ensures MapFrom(lines, i, indent, done) == MapFrom(lines, i + |PrintTwigs(rest, indent)|, indent, done + Entries(rest))
    decreases rest, 2
  {
    hide MapFrom, TwigLines, GoodTwig, Put, DistinctKeys, At, Meaning, IsExtent;
    if rest == [] {
      assert done + Entries(rest) == done;
    } else {
      assert rest[0] in rest;
      hide PrintTwigs, Entries, Stands;
      FirstTwigRead(lines, i, done, rest, indent);
      TwigsStep(rest, indent);
      TwigsRead(lines, i + |TwigLines(rest[0], indent)|, done + [Entries(rest)[0]], rest[1..], indent);
    }
  }

  lemma {:induction false} FirstTwigRead(lines: seq<Line>, i: nat, done: seq<Entry>, rest: seq<Twig>, indent: nat)
    requires rest != [] && At(lines, i, PrintTwigs(rest, indent)) && Stands(lines, i + |PrintTwigs(rest, indent)|, indent, rest)
    requires DistinctKeys(done + Entries(rest)) && forall w :: w in rest ==> GoodTwig(w)
    ensures var j := i + |TwigLines(rest[0], indent)|;
      && At(lines, j, PrintTwigs(rest[1..], indent)) && j + |PrintTwigs(rest[1..], indent)| == i + |PrintTwigs(rest, indent)| <= |lines|
      && Stands(lines, j + |PrintTwigs(rest[1..], indent)|, indent, rest[1..])
      && DistinctKeys(done + [Entries(rest)[0]] + Entries(rest[1..]))
      && done + [Entries(rest)[0]] + Entries(rest[1..]) == done + Entries(rest)
      && MapFrom(lines, i, indent, done) == MapFrom(lines, j, indent, done + [Entries(rest)[0]])
    decreases rest, 1
  {
    hide MapFrom, TwigLines, GoodTwig, Put, DistinctKeys, At, Meaning, PrintTwigs, Entries, IsExtent;
    assert rest[0] in rest;
    TwigsStep(rest, indent);
    PutNew(done, Entries(rest));
    var here := TwigLines(rest[0], indent);
    AtSplit(lines, i, here, PrintTwigs(rest[1..], indent));
    OneStands(lines, i + |here|, indent, rest);
    TwigRead(lines, i, done, rest[0], indent);
  }

  lemma OneStands(lines: seq<Line>, j: nat, indent: nat, ts: seq<Twig>)
    requires ts != [] && At(lines, j, PrintTwigs(ts[1..], indent)) && forall w :: w in ts ==> GoodTwig(w)
    requires Stands(lines, j + |PrintTwigs(ts[1..], indent)|, indent, ts)
    ensures Stands(lines, j, indent, [ts[0]]) && Stands(lines, j + |PrintTwigs(ts[1..], indent)|, indent, ts[1..])
  {
    if ts[1..] != [] {
      assert ts[1] in ts;
      TwigsStart(ts[1..], indent);
      hide PrintTwigs, GoodTwig;
      TailEnds(lines, j, PrintTwigs(ts[1..], indent), indent + 1);
    }
  }

  lemma {:induction false} TwigsBack(lines: seq<Line>, i: nat, done: seq<Entry>, rest: seq<Twig>, indent: nat)
    requires At(lines, i, PrintTwigs(rest, indent)) && Ends(lines, i + |PrintTwigs(rest, indent)|, indent)
    requires DistinctKeys(done + Entries(rest)) && forall w :: w in rest ==> GoodTwig(w)
    ensures MapFrom(lines, i, indent, done) == Ok((done + Entries(rest), i + |PrintTwigs(rest, indent)|))
    decreases rest, 3
  {
    hide MapFrom, PrintTwigs, GoodTwig, DistinctKeys, At;
    TwigsRead(lines, i, done, rest, indent);
    NothingMore(lines, i + |PrintTwigs(rest, indent)|, indent, done + Entries(rest));
  }

  lemma NothingMore(lines: seq<Line>, i: nat, indent: nat, done: seq<Entry>)
    requires Ends(lines, i, indent)
    ensures MapFrom(lines, i, indent, done) == Ok((done, i))
  {
  }

  lemma {:induction false} ChildRead(lines: seq<Line>, i: nat, done: seq<Entry>, w: Twig, child: nat)
    requires GoodTwig(w) && At(lines, i, TwigLines(w, child))
    requires Stands(lines, i + |TwigLines(w, child)|, child, [w])
    ensures ChildrenFrom(lines, i, child, done)
      == ChildrenFrom(lines, i + |TwigLines(w, child)|, child, Put(done, w.key, Meaning(w.tree)))
    decreases w, 3
  {
    hide ChildrenFrom, ParseBlock, PrintBlock, GoodKey, Plain, Scalar, Put, At, Deeper, Written, Spells;
    LeafIsPlain(w.tree);
    HereIs(lines, i, TwigLines(w, child));
    if !w.tree.Leaf? {
      NestedBack(lines, i, Line(child, w.key + ":"), w.tree, child + 1 + w.gap);
      ChildBlockStep(lines, i, child, done, w.key);
    } else if w.tree.text != "" {
      LeafBack(w.tree, false);
      ChildScalarStep(lines, i, child, done, w.key, w.tree.text);
    } else {
      NotDeeper(lines, i, child);
      ChildEmptyStep(lines, i, child, done, w.key);
    }
  }

  /** The item's further keys are read like those of a mapping. */
  lemma {:induction false} ChildrenRead(lines: seq<Line>, i: nat, done: seq<Entry>, rest: seq<Twig>, child: nat)
    requires At(lines, i, PrintTwigs(rest, child)) && Stands(lines, i + |PrintTwigs(rest, child)|, child, rest)
    requires DistinctKeys(done + Entries(rest)) && forall w :: w in rest ==> GoodTwig(w)
    ensures i + |PrintTwigs(rest, child)| <= |lines|
    ensures ChildrenFrom(lines, i, child, done) == ChildrenFrom(lines, i + |PrintTwigs(rest, child)|, child, done + Entries(rest))
    decreases rest, 2
  {
    hide ChildrenFrom, TwigLines, GoodTwig, Put, DistinctKeys, At, Meaning, AllDeep;
    if rest == [] {
      assert done + Entries(rest) == done;
    } else {
      assert rest[0] in rest;
      hide PrintTwigs, Entries, Stands;
      FirstChildRead(lines, i, done, rest, child);
      TwigsStep(rest, child);
      ChildrenRead(lines, i + |TwigLines(rest[0], child)|, done + [Entries(rest)[0]], rest[1..], child);
    }
  }

  lemma {:induction false} FirstChildRead(lines: seq<Line>, i: nat, done: seq<Entry>, rest: seq<Twig>, child: nat)
    requires rest != [] && At(lines, i, PrintTwigs(rest, child)) && Stands(lines, i + |PrintTwigs(rest, child)|, child, rest)
    requires DistinctKeys(done + Entries(rest)) && forall w :: w in rest ==> GoodTwig(w)
    ensures var j := i + |TwigLines(rest[0], child)|;
      && At(lines, j, PrintTwigs(rest[1..], child)) && j + |PrintTwigs(rest[1..], child)| == i + |PrintTwigs(rest, child)| <= |lines|
      && Stands(lines, j + |PrintTwigs(rest[1..], child)|, child, rest[1..])
      && DistinctKeys(done + [Entries(rest)[0]] + Entries(rest[1..]))
      && done + [Entries(rest)[0]] + Entries(rest[1..]) == done + Entries(rest)
      && ChildrenFrom(lines, i, child, done) == ChildrenFrom(lines, j, child, done + [Entries(rest)[0]])
    decreases rest, 1
  {
    hide ChildrenFrom, TwigLines, GoodTwig, Put, DistinctKeys, At, Meaning, PrintTwigs, Entries, AllDeep;
    assert rest[0] in rest;
    TwigsStep(rest, child);
    PutNew(done, Entries(rest));
    var here := TwigLines(rest[0], child);
    AtSplit(lines, i, here, PrintTwigs(rest[1..], child));
    OneStands(lines, i + |here|, child, rest);
    ChildRead(lines, i, done, rest[0], child);
  }

  lemma ChildrenStop(lines: seq<Line>, i: nat, child: nat, done: seq<Entry>)
    requires i <= |lines| && (i < |lines| ==> EndsItem(lines[i], child))
    ensures ChildrenFrom(lines, i, child, done) == Ok((done, i))
  {
  }

  predicate HasValue(w: Twig) {
    w.tree.Leaf? && w.tree.text != ""
  }

  /** After a scalar an item can stop anywhere; after a key with a value, where no further key of the item follows. */
  predicate ItemStands(lines: seq<Line>, j: nat, indent: nat, x: Tree) {
    && j <= |lines|
    && (|| !x.Branch? || Ends(lines, j, indent + 1)
        || (x.twigs != [] && HasValue(x.twigs[|x.twigs| - 1]) && (j < |lines| ==> EndsItem(lines[j], indent + 2))))
  }

  predicate RowStands(lines: seq<Line>, j: nat, indent: nat, xs: seq<Tree>) {
    j <= |lines| && (xs == [] || ItemStands(lines, j, indent, xs[|xs| - 1]))
  }

  lemma {:induction false} ItemsRead(lines: seq<Line>, i: nat, done: seq<Value>, rest: seq<Tree>, indent: nat)
    requires At(lines, i, PrintItems(rest, indent)) && RowStands(lines, i + |PrintItems(rest, indent)|, indent, rest)
    requires forall x :: x in rest ==> GoodItem(x)
    ensures i + |PrintItems(rest, indent)| <= |lines|
    ensures ListFrom(lines, i, indent, done) == ListFrom(lines, i + |PrintItems(rest, indent)|, indent, done + Meanings(rest))
    decreases rest, 0
  {
    hide PrintItem, GoodItem, At, ListFrom;
    if rest == [] {
      assert done + Meanings(rest) == done;
    } else {
      var x, tail := rest[0], PrintItems(rest[1..], indent);
      assert x in rest;
      var here := PrintItem(x, indent);
      AtSplit(lines, i, here, tail);
      OneItemStands(lines, i + |here|, indent, rest);
      ItemBack(lines, i, done, x, indent);
      ItemsRead(lines, i + |here|, done + [Meaning(x)], rest[1..], indent);
      assert done + [Meaning(x)] + Meanings(rest[1..]) == done + Meanings(rest);
    }
  }

  lemma OneItemStands(lines: seq<Line>, j: nat, indent: nat, xs: seq<Tree>)
    requires xs != [] && At(lines, j, PrintItems(xs[1..], indent)) && forall x :: x in xs ==> GoodItem(x)
    requires RowStands(lines, j + |PrintItems(xs[1..], indent)|, indent, xs)
    ensures RowStands(lines, j, indent, [xs[0]]) && RowStands(lines, j + |PrintItems(xs[1..], indent)|, indent, xs[1..])
  {
    if xs[1..] != [] {
      assert xs[1] in xs;
      ItemsStart(xs[1..], indent);
      hide PrintItems, GoodItem;
      TailEnds(lines, j, PrintItems(xs[1..], indent), indent + 1);
    }
  }

  lemma {:induction false} ItemsBack(lines: seq<Line>, i: nat, done: seq<Value>, rest: seq<Tree>, indent: nat)
    requires At(lines, i, PrintItems(rest, indent)) && Ends(lines, i + |PrintItems(rest, indent)|, indent)
    requires forall x :: x in rest ==> GoodItem(x)
    ensures ListFrom(lines, i, indent, done) == Ok((done + Meanings(rest), i + |PrintItems(rest, indent)|))
    decreases rest, 1
  {
    hide ListFrom, PrintItems, GoodItem, At;
    ItemsRead(lines, i, done, rest, indent);
    NoMoreItems(lines, i + |PrintItems(rest, indent)|, indent, done + Meanings(rest));
  }

  lemma NoMoreItems(lines: seq<Line>, i: nat, indent: nat, done: seq<Value>)
    requires Ends(lines, i, indent)
    ensures ListFrom(lines, i, indent, done) == Ok((done, i))
  {
  }

  lemma {:induction false} ItemBack(lines: seq<Line>, i: nat, done: seq<Value>, x: Tree, indent: nat)
    requires GoodItem(x) && At(lines, i, PrintItem(x, indent)) && RowStands(lines, i + |PrintItem(x, indent)|, indent, [x])
    ensures ListFrom(lines, i, indent, done) == ListFrom(lines, i + |PrintItem(x, indent)|, indent, done + [Meaning(x)])
    decreases x, 4
  {
    hide ListFrom, At, Scalar, Spells, Plain, Written;
    if x.Leaf? {
      LeafBack(x, true);
      HereIs(lines, i, [Line(indent, "- " + x.text)]);
      ListScalarStep(lines, i, indent, done, x.text);
    } else {
      MapItemBack(lines, i, done, x, indent);
    }
  }

  lemma {:induction false} MapItemBack(lines: seq<Line>, i: nat, done: seq<Value>, x: Tree, indent: nat)
    requires x.Branch? && Written(x) && FirstIsClear(x)
    requires At(lines, i, PrintItem(x, indent)) && ItemStands(lines, i + |PrintItem(x, indent)|, indent, x)
    ensures ListFrom(lines, i, indent, done) == ListFrom(lines, i + |PrintItem(x, indent)|, indent, done + [Meaning(x)])
    decreases x, 3
  {
    hide ListFrom, ChildrenFrom, FirstEntry, At, GoodTwig, PrintBlock, Plain, Written, TwigText, FirstLines, PrintTwigs, IsDash,
      IsExtent, AllDeep, ItemStands, Stands;
    BranchIsGood(x);
    var w, rest := x.twigs[0], x.twigs[1..];
    assert w in x.twigs;
    ItemStep(x, indent);
    hide PrintItem, Entries, DistinctKeys, FirstIsClear;
    var here, tail := FirstLines(w, indent), PrintTwigs(rest, indent + 2);
    AtSplit(lines, i, here, tail);
    ItemPart(lines, i + |here|, x, indent);
    FirstBack(lines, i, w, indent);
    var first := Entry(w.key, Meaning(w.tree));
    ChildrenRead(lines, i + |here|, [first], rest, indent + 2);
    ChildrenStop(lines, i + |here| + |tail|, indent + 2, Entries(x.twigs));
    TwigLine(w);
    FirstLine(lines, i, w, indent);
    ListMapStep(lines, i, indent, done, TwigText(w), first, i + |here|, Entries(x.twigs), i + |here| + |tail|);
  }

  lemma ItemStep(x: Tree, indent: nat)
    requires x.Branch? && x.twigs != []
    ensures PrintItem(x, indent) == FirstLines(x.twigs[0], indent) + PrintTwigs(x.twigs[1..], indent + 2)
    ensures [Entry(x.twigs[0].key, Meaning(x.twigs[0].tree))] + Entries(x.twigs[1..]) == Entries(x.twigs)
    ensures Meaning(x) == Map(Entries(x.twigs))
  {
    hide FirstLines, PrintTwigs;
  }

  lemma FirstLine(lines: seq<Line>, i: nat, w: Twig, indent: nat)
    requires At(lines, i, FirstLines(w, indent))
    ensures i < |lines| && lines[i] == Line(indent, "- " + TwigText(w))
  {
    HereIs(lines, i, FirstLines(w, indent));
  }

  /** Where the first key of an item and its further keys stop. */
  lemma ItemPart(lines: seq<Line>, j: nat, x: Tree, indent: nat)
    requires x.Branch? && x.twigs != [] && FirstIsClear(x) && forall w :: w in x.twigs[1..] ==> GoodTwig(w)
    requires At(lines, j, PrintTwigs(x.twigs[1..], indent + 2))
    requires ItemStands(lines, j + |PrintTwigs(x.twigs[1..], indent + 2)|, indent, x)
    ensures var end := j + |PrintTwigs(x.twigs[1..], indent + 2)|;
      Stands(lines, end, indent + 2, x.twigs[1..]) && (end < |lines| ==> EndsItem(lines[end], indent + 2))
    ensures x.twigs[0].tree.Leaf? || Ends(lines, j, indent + 1 + x.twigs[0].gap)
    ensures EmptyLeaf(x.twigs[0].tree) ==> Ends(lines, j, indent + 1)
  {
    var rest := x.twigs[1..];
    if rest != [] {
      assert rest[0] in rest;
      TwigsStart(rest, indent + 2);
      hide PrintTwigs, GoodTwig;
      TailEnds(lines, j, PrintTwigs(rest, indent + 2), if x.twigs[0].gap >= 2 then indent + 1 + x.twigs[0].gap else indent + 3);
    }
  }

  lemma {:induction false} FirstBack(lines: seq<Line>, i: nat, w: Twig, indent: nat)
    requires GoodTwig(w) && At(lines, i, FirstLines(w, indent))
    requires w.tree.Leaf? || Ends(lines, i + |FirstLines(w, indent)|, indent + 1 + w.gap)
    requires EmptyLeaf(w.tree) ==> Ends(lines, i + |FirstLines(w, indent)|, indent + 1)
    ensures i < |lines| && FirstEntry(lines, i, indent, TwigText(w)) == Ok((Entry(w.key, Meaning(w.tree)), i + |FirstLines(w, indent)|))
    decreases w, 3
  {
    hide FirstEntry, At, GoodKey, PrintBlock, Plain, Written, Spells, Scalar, ParseBlock, GoodLeaf;
    LeafIsPlain(w.tree);
    if w.tree.Leaf? {
      FirstLeafBack(lines, i, w, indent);
    } else {
      assert TwigText(w) == w.key + ":";
      NestedBack(lines, i, Line(indent, "- " + TwigText(w)), w.tree, indent + 1 + w.gap);
      FirstBlock(lines, i, indent, w.key);
    }
  }

  lemma FirstLeafBack(lines: seq<Line>, i: nat, w: Twig, indent: nat)
    requires w.tree.Leaf? && GoodTwig(w) && At(lines, i, FirstLines(w, indent))
    requires w.tree.text == "" ==> Ends(lines, i + 1, indent + 1)
    ensures i < |lines| && FirstEntry(lines, i, indent, TwigText(w)) == Ok((Entry(w.key, w.tree.value), i + 1))
  {
    hide FirstEntry, At, GoodKey, Plain, Written, Spells, Scalar, ParseBlock, GoodLeaf;
    LeafIsPlain(w.tree);
    HereIs(lines, i, FirstLines(w, indent));
    if w.tree.text != "" {
      LeafBack(w.tree, false);
      FirstScalar(lines, i, indent, w.key, w.tree.text);
    } else {
      NotDeeper(lines, i, indent);
      FirstEmpty(lines, i, indent, w.key);
    }
  }

  /** Over lines: parsing a printed document gives back what it says and stops exactly at its end. */
  lemma LinesRoundTrip(t: Tree, indent: nat)
    requires Written(t)
    ensures PrintBlock(t, indent) != []
    ensures ParseBlock(PrintBlock(t, indent), 0) == Ok((Meaning(t), |PrintBlock(t, indent)|))
  {
    var lines := PrintBlock(t, indent);
    assert lines[0..0 + |lines|] == lines;
    BlockBack(lines, 0, t, indent);
  }

  // ---------------------------------------------------------------- what is refused

  /**
   Behind the keys of a mapping, the last of which has a value on its line: a deeper line
   is an unexpected indent, and one at the same indent without a colon is no entry.
   */
  lemma MappingRefuses(ts: seq<Twig>, indent: nat, line: Line, rest: seq<Line>)
    requires Written(Branch(ts)) && ts[|ts| - 1].tree.Leaf? && ts[|ts| - 1].tree.text != ""
    ensures PrintTwigs(ts, indent) != []
    ensures line.indent > indent ==> ParseBlock(PrintTwigs(ts, indent) + [line] + rest, 0) == Err(Indent(line.text))
    ensures line.indent == indent && ':' !in line.text ==>
      ParseBlock(PrintTwigs(ts, indent) + [line] + rest, 0) == Err(NoKey(line.text))
  {
    hide PrintTwigs, GoodTwig, Written, DistinctKeys, IsDash, MapFrom, ListFrom, Entries;
    var part := PrintTwigs(ts, indent);
    var lines := part + [line] + rest;
    BranchIsGood(Branch(ts));
    assert ts[0] in ts;
    TwigsStart(ts, indent);
    assert lines[0..0 + |part|] == part && lines[|part|] == line && lines[0] == part[0];
    assert [] + Entries(ts) == Entries(ts);
    assert At(lines, 0, part);
    TwigsRead(lines, 0, [], ts, indent);
    OneBadLine(lines, |part|, indent, Entries(ts));
  }

  lemma OneBadLine(lines: seq<Line>, i: nat, indent: nat, d: seq<Entry>)
    requires i < |lines|
    ensures lines[i].indent > indent ==> MapFrom(lines, i, indent, d) == Err(Indent(lines[i].text))
    ensures lines[i].indent == indent && ':' !in lines[i].text ==> MapFrom(lines, i, indent, d) == Err(NoKey(lines[i].text))
  {
  }

  /**
   Behind the items of a list a deeper line is an unexpected indent: after a scalar item at any
   depth, after a mapping whose last key has a value unless the line is one more key of it.
   */
  lemma ListRefuses(xs: seq<Tree>, indent: nat, line: Line, rest: seq<Line>)
    requires Written(Row(xs)) && line.indent > indent
    requires var x := xs[|xs| - 1];
      x.Branch? ==> x.twigs != [] && HasValue(x.twigs[|x.twigs| - 1]) && (line.indent != indent + 2 || StartsWith(line.text, "- "))
    ensures PrintItems(xs, indent) != []
    ensures ParseBlock(PrintItems(xs, indent) + [line] + rest, 0) == Err(ListIndent(line.text))
  {
    hide PrintItems, GoodItem, Written, MapFrom, ListFrom, Meanings;
    var part := PrintItems(xs, indent);
    var lines := part + [line] + rest;
    RowIsGood(Row(xs));
    assert xs[0] in xs;
    ItemsStart(xs, indent);
    assert lines[0..0 + |part|] == part && lines[|part|] == line && lines[0] == part[0];
    assert [] + Meanings(xs) == Meanings(xs);
    assert At(lines, 0, part);
    ItemsRead(lines, 0, [], xs, indent);
    BadItem(lines, |part|, indent, Meanings(xs));
  }

  lemma BadItem(lines: seq<Line>, i: nat, indent: nat, items: seq<Value>)
    requires i < |lines| && lines[i].indent > indent
    ensures ListFrom(lines, i, indent, items) == Err(ListIndent(lines[i].text))
  {
  }

  /** A further key of an item needs no colon: it is null, or what is below it. */
  lemma BareChild(lines: seq<Line>, i: nat, child: nat, item: seq<Entry>, k: string)
    requires i < |lines| && lines[i] == Line(child, k) && Plain(k) && ':' !in k && !StartsWith(k, "- ")
    ensures i + 1 == |lines| || lines[i + 1].indent <= child ==>
      ChildrenFrom(lines, i, child, item) == ChildrenFrom(lines, i + 1, child, Put(item, k, Null))
    ensures i + 1 < |lines| && lines[i + 1].indent > child && ParseBlock(lines, i + 1).Ok? ==>
      var (v, j) := ParseBlock(lines, i + 1).value;
      ChildrenFrom(lines, i, child, item) == ChildrenFrom(lines, j, child, Put(item, k, v))
  {
    NoColon(k);
    NothingIsNull();
    hide Strip, Before, After, Scalar, Put, ParseBlock, IsExtent, Plain;
  }

  lemma NoColon(k: string)
    requires Plain(k) && ':' !in k
    ensures Strip(Before(k, ':')) == k && After(k, ':') == "" && Strip("") == ""
  {
    var i := IndexOf(k, ':');
    assert k[..|k|] == k;
    StripPlain(k);
    StripBare("");
  }
}
