/**
 The same inverse over characters: a file that spreads the printed lines among comments and
 blank lines, with any line ends, is loaded as what the document says.
 */
module TopologyText {
  import opened Common
  import opened Text
  import opened Topology
  import opened TopologySpelling
  import opened TopologyPrint
  import opened TopologyRoundTrip

  // ---------------------------------------------------------------- files

  function Spaces(n: nat): (s: string)
    ensures |s| == n && forall i :: 0 <= i < n ==> s[i] == ' '
  {
    if n == 0 then "" else " " + Spaces(n - 1)
  }

  /** A line of a file and what ends it: nothing but space and a comment, or text with the same behind it. */
  datatype RawLine = Filler(text: string, end: string) | Content(line: Line, tail: string, end: string)

  function RawText(r: RawLine): string {
    match r
    case Filler(text, _) => text
    case Content(line, tail, _) => Spaces(line.indent) + line.text + tail
  }

  function RenderFile(rs: seq<RawLine>): string {
    if rs == [] then "" else RawText(rs[0]) + rs[0].end + RenderFile(rs[1..])
  }

  /** Space, and a comment if there is a comment sign. */
  predicate Ignored(s: string) {
    OneLine(s) && exists k :: 0 <= k <= |s| && AllSpace(s[..k]) && (k < |s| ==> s[k] == '#')
  }

  predicate IsEnd(end: string) {
    end != "" && forall i :: 0 <= i < |end| ==> IsBreak(end[i])
  }

  predicate GoodRaw(r: RawLine) {
    match r
    case Filler(text, _) => Ignored(text)
    case Content(line, tail, _) => Plain(line.text) && Ignored(tail)
  }

  /** Only the last line of a file may lack its end. */
  predicate GoodFile(rs: seq<RawLine>) {
    && (forall i :: 0 <= i < |rs| ==> GoodRaw(rs[i]))
    && (forall i :: 0 <= i < |rs| ==> IsEnd(rs[i].end) || (i == |rs| - 1 && rs[i].end == ""))
  }

  function ContentLines(rs: seq<RawLine>): seq<Line> {
    if rs == [] then []
    else (if rs[0].Content? then [rs[0].line] else []) + ContentLines(rs[1..])
  }

  /** The first thing that is neither space nor comment starts the file like JSON, no comment before it. */
  predicate OpensJson(rs: seq<RawLine>) {
    && rs != []
    && match rs[0]
      case Filler(text, _) => '#' !in text && OpensJson(rs[1..])
      case Content(line, _, _) => line.text != "" && (line.text[0] == '{' || line.text[0] == '[')
  }

  lemma BreakSet(c: char)
    ensures IsBreak(c) <==> c in "\n\U{b}\U{c}\r\U{1c}\U{1d}\U{1e}\U{85}"
  {
  }

  // ---------------------------------------------------------------- one line

  lemma SpaceHasNoSign(s: string)
    requires AllSpace(s)
    ensures '#' !in s
  {
    assert forall i :: 0 <= i < |s| ==> IsSpace(s[i]);
  }

  /** The comment is cut away. */
  lemma CutAt(s: string) returns (pad: string)
    requires Ignored(s)
    ensures AllSpace(pad) && Before(s, '#') == pad
  {
    var k :| 0 <= k <= |s| && AllSpace(s[..k]) && (k < |s| ==> s[k] == '#');
    pad := s[..k];
    SpaceHasNoSign(pad);
    var i := IndexOf(s, '#');
    assert forall j :: 0 <= j < k ==> s[j] == pad[j];
    assert i == k;
  }

  lemma BeforeBehind(a: string, b: string)
    requires '#' !in a
    ensures Before(a + b, '#') == a + Before(b, '#')
  {
    var i, j := IndexOf(a + b, '#'), IndexOf(b, '#');
    assert forall k :: 0 <= k < |b| ==> (a + b)[|a| + k] == b[k];
    assert forall k :: 0 <= k < |a| ==> (a + b)[k] == a[k];
    if j < |b| {
      assert (a + b)[|a| + j] == '#';
    }
    if i < |a + b| && i >= |a| {
      assert b[i - |a|] == '#';
    }
    assert i == |a| + j;
    assert (a + b)[..|a| + j] == a + b[..j];
  }

  /** A filler says nothing. */
  lemma FillerIsBlank(s: string)
    requires Ignored(s)
    ensures Strip(Before(s, '#')) == ""
  {
    var pad := CutAt(s);
    hide Before;
    StripPadded(pad, "", "");
    assert pad + "" + "" == pad;
  }

  /** An indented plain text with anything ignored behind it is cleaned into its indent and itself. */
  lemma CleanOne(n: nat, text: string, tail: string)
    requires Plain(text) && Ignored(tail)
    ensures var cut := Before(Spaces(n) + text + tail, '#'); Strip(cut) == text && IndentOf(cut) == Ok(n)
  {
    var pad := CutAt(tail);
    BeforeBehind(Spaces(n) + text, tail);
    StripPadded(Spaces(n), text, pad);
    IndentIs(n, text, pad);
  }

  lemma IndentIs(n: nat, text: string, pad: string)
    requires text != "" && !IsSpace(text[0])
    ensures IndentOf(Spaces(n) + text + pad) == Ok(n)
  {
    var cut := Spaces(n) + (text + pad);
    assert cut == Spaces(n) + text + pad;
    TrimLeftPadded(Spaces(n), text + pad);
    assert TrimLeft(text + pad) == text + pad;
    hide Spaces, TrimLeft;
    assert cut[..n] == Spaces(n);
    assert cut[n] == text[0];
    var k := LeadingSpaces(cut);
    assert k == n;
  }

  // ---------------------------------------------------------------- lines of a file

  lemma AfterFiller(s: string, raw: seq<string>)
    requires Ignored(s)
    ensures CleanLines([s] + raw) == CleanLines(raw)
  {
    FillerIsBlank(s);
    hide Before, Strip, IndentOf;
    assert ([s] + raw)[1..] == raw;
  }

  lemma AfterContent(line: Line, tail: string, raw: seq<string>)
    requires Plain(line.text) && Ignored(tail)
    ensures CleanLines([Spaces(line.indent) + line.text + tail] + raw) == Prefixed([line], CleanLines(raw))
  {
    CleanOne(line.indent, line.text, tail);
    var s := Spaces(line.indent) + line.text + tail;
    hide Before, Strip, IndentOf, Spaces;
    assert ([s] + raw)[1..] == raw;
  }

  lemma AfterRaw(r: RawLine, raw: seq<string>)
    requires GoodRaw(r)
    ensures CleanLines([RawText(r)] + raw) == Prefixed(ContentLines([r]), CleanLines(raw))
  {
    hide Plain, Ignored, CleanLines, Spaces, Prefixed;
    assert [r][1..] == [];
    match r {
      case Filler(text, _) =>
        AfterFiller(text, raw);
        assert ContentLines([r]) == [] + ContentLines([]);
        PrefixNothing(CleanLines(raw));
      case Content(line, tail, _) =>
        AfterContent(line, tail, raw);
        assert ContentLines([r]) == [line] + [] == [line];
    }
  }

  lemma RawIsOneLine(r: RawLine)
    requires GoodRaw(r)
    ensures OneLine(RawText(r))
  {
    if r.Content? {
      var a, b, c := Spaces(r.line.indent), r.line.text, r.tail;
      assert OneLine(a) && OneLine(b) && OneLine(c);
      assert forall i :: 0 <= i < |a + b + c| ==> (a + b + c)[i] in a || (a + b + c)[i] in b || (a + b + c)[i] in c;
    }
  }

  /** Extra line breaks only make blank lines. */
  lemma {:induction false} SkipBreaks(end: string, rest: string)
    requires end == "" || IsEnd(end)
    ensures CleanLines(SplitLines(end + rest)) == CleanLines(SplitLines(rest))
  {
    if end == "" {
      assert end + rest == rest;
    } else {
      hide CleanLines, IsBreak, SplitLines;
      SkipBreaks(end[1..], rest);
      BlankFirst(end[0], end[1..] + rest);
      FirstOf(end, rest);
    }
  }

  lemma FirstOf(end: string, rest: string)
    requires end != ""
    ensures [end[0]] + (end[1..] + rest) == end + rest
  {
  }

  lemma BlankFirst(end: char, rest: string)
    requires IsBreak(end)
    ensures CleanLines(SplitLines([end] + rest)) == CleanLines(SplitLines(rest))
  {
    hide CleanLines;
    LineFirst("", end, rest, IsBreak);
    assert "" + [end] + rest == [end] + rest;
    assert AllSpace(""[..0]);
    AfterFiller("", SplitLines(rest));
  }

  /** A line in front of a file. */
  lemma CleanFront(r: RawLine, rest: string)
    requires GoodRaw(r) && IsEnd(r.end)
    ensures Clean(RawText(r) + r.end + rest) == Prefixed(ContentLines([r]), Clean(rest))
  {
    var text, end := RawText(r), r.end;
    RawIsOneLine(r);
    assert text + end + rest == text + [end[0]] + (end[1..] + rest);
    LineFirst(text, end[0], end[1..] + rest, IsBreak);
    SkipBreaks(end[1..], rest);
    AfterRaw(r, SplitLines(end[1..] + rest));
    hide RawText, SplitLines, ContentLines, GoodRaw;
  }

  lemma CleanLast(r: RawLine)
    requires GoodRaw(r)
    ensures Clean(RawText(r)) == Ok(ContentLines([r]))
  {
    RawIsOneLine(r);
    LineOnly(RawText(r), IsBreak);
    AfterRaw(r, []);
    assert [RawText(r)] + [] == [RawText(r)];
    assert CleanLines([]) == Ok([]);
    assert ContentLines([r]) + [] == ContentLines([r]);
  }

  lemma NothingToClean()
    ensures Clean("") == Ok([])
  {
    assert Strip("") == "" by {
      StripBare("");
    }
    assert SplitLines("") == [""];
    assert [""][1..] == [];
  }

  lemma FirstContent(r: RawLine, rs: seq<RawLine>)
    ensures ContentLines([r] + rs) == ContentLines([r]) + ContentLines(rs)
  {
    assert [r][1..] == [] && ([r] + rs)[1..] == rs;
  }

  lemma FirstRendered(r: RawLine, rs: seq<RawLine>)
    ensures RenderFile([r] + rs) == RawText(r) + r.end + RenderFile(rs)
  {
    assert ([r] + rs)[1..] == rs;
  }

  lemma RestIsGood(r: RawLine, rs: seq<RawLine>)
    requires GoodFile([r] + rs)
    ensures GoodRaw(r) && GoodFile(rs) && (IsEnd(r.end) || (r.end == "" && rs == []))
  {
    var all := [r] + rs;
    assert all[0] == r;
    hide GoodRaw, IsEnd;
    assert forall i :: 0 <= i < |rs| ==> rs[i] == all[i + 1];
  }

  /** Cleaning keeps exactly the lines with content, in order. */
  lemma {:induction false} CleanFile(rs: seq<RawLine>)
    requires GoodFile(rs)
    ensures Clean(RenderFile(rs)) == Ok(ContentLines(rs))
  {
    if rs == [] {
      NothingToClean();
    } else {
      var r := rs[0];
      hide Clean, RawText, GoodRaw, GoodFile, IsEnd, RenderFile, ContentLines;
      assert [r] + rs[1..] == rs;
      RestIsGood(r, rs[1..]);
      FirstContent(r, rs[1..]);
      FirstRendered(r, rs[1..]);
      CleanFile(rs[1..]);
      if r.end == "" {
        NothingRendered();
        assert RawText(r) + "" + "" == RawText(r);
        CleanLast(r);
      } else {
        CleanFront(r, RenderFile(rs[1..]));
      }
    }
  }

  lemma NothingRendered()
    ensures RenderFile([]) == "" && ContentLines([]) == []
  {
  }

  /** A tab among the spaces in front of a line is refused, whatever follows the line. */
  lemma {:induction false} TabsRefused(rs: seq<RawLine>, lead: string, body: string, rest: string)
    requires GoodFile(rs) && forall r :: r in rs ==> r.end != ""
    requires AllSpace(lead) && '\t' in lead && OneLine(lead + body) && body != "" && !IsSpace(body[0]) && body[0] != '#'
    requires rest == "" || IsBreak(rest[0])
    ensures Clean(RenderFile(rs) + lead + body + rest) == Err(Tabs(lead + Before(body, '#')))
  {
    hide Plain, Ignored, RawText, Clean, Before, OneLine;
    if rs == [] {
      assert "" + lead + body + rest == lead + body + rest;
      TabLine(lead, body, rest);
    } else {
      var r, more := rs[0], RenderFile(rs[1..]) + lead + body + rest;
      assert r in rs && forall q :: q in rs[1..] ==> q in rs;
      TabsRefused(rs[1..], lead, body, rest);
      CleanFront(r, more);
      assert RenderFile(rs) + lead + body + rest == RawText(r) + r.end + more;
    }
  }

  lemma TabLine(lead: string, body: string, rest: string)
    requires AllSpace(lead) && '\t' in lead && OneLine(lead + body) && body != "" && !IsSpace(body[0]) && body[0] != '#'
    requires rest == "" || IsBreak(rest[0])
    ensures Clean(lead + body + rest) == Err(Tabs(lead + Before(body, '#')))
  {
    var line := lead + body;
    if rest == "" {
      LineOnly(line, IsBreak);
      assert line + rest == line;
    } else {
      LineFirst(line, rest[0], rest[1..], IsBreak);
      assert line + [rest[0]] + rest[1..] == line + rest;
    }
    TabCut(lead, body);
    hide Before, OneLine, IndentOf, Strip;
  }

  lemma TabCut(lead: string, body: string)
    requires AllSpace(lead) && '\t' in lead && body != "" && !IsSpace(body[0]) && body[0] != '#'
    ensures var cut := lead + Before(body, '#');
      Before(lead + body, '#') == cut && Strip(cut) != "" && IndentOf(cut) == Err(Tabs(cut))
  {
    SpaceHasNoSign(lead);
    BeforeBehind(lead, body);
    var first := Before(body, '#');
    assert first != "" && first[0] == body[0];
    var cut := lead + first;
    TrimLeftPadded(lead, first);
    assert TrimLeft(first) == first;
    assert cut[..|lead|] == lead;
    hide Before;
    NotBlank(first);
  }

  lemma NotBlank(s: string)
    requires s != "" && !IsSpace(s[0])
    ensures TrimRight(s) != ""
  {
    if |s| > 1 {
      assert s[..|s| - 1][0] == s[0];
    } else {
      assert TrimRight(s) == s;
    }
  }

  // ---------------------------------------------------------------- JSON

  lemma {:induction false} JsonIff(rs: seq<RawLine>)
    requires GoodFile(rs)
    ensures LooksLikeJson(RenderFile(rs)) <==> OpensJson(rs)
  {
    hide Plain, Ignored, Spaces, TrimLeft;
    if rs == [] {
      assert TrimLeft("") == "";
    } else {
      var r, rest := rs[0], RenderFile(rs[1..]);
      match r {
        case Filler(text, end) =>
          if '#' in text {
            CommentFirst(text, end + rest);
            assert text + end + rest == text + (end + rest);
          } else {
            FillerIsSpace(text);
            BreaksAreSpace(text, end);
            TrimLeftPadded(text + end, rest);
            JsonIff(rs[1..]);
          }
        case Content(line, tail, end) =>
          ContentFirst(line, tail + end + rest);
          assert Spaces(line.indent) + line.text + tail + end + rest == Spaces(line.indent) + (line.text + (tail + end + rest));
      }
    }
  }

  lemma FillerIsSpace(text: string)
    requires Ignored(text) && '#' !in text
    ensures AllSpace(text)
  {
    var k :| 0 <= k <= |text| && AllSpace(text[..k]) && (k < |text| ==> text[k] == '#');
    assert text[..k] == text;
  }

  lemma BreaksAreSpace(text: string, end: string)
    requires AllSpace(text) && (end == "" || IsEnd(end))
    ensures AllSpace(text + end)
  {
    forall i | 0 <= i < |text + end| ensures IsSpace((text + end)[i]) {
      if i >= |text| {
        assert IsBreak(end[i - |text|]);
      }
    }
  }

  lemma CommentFirst(text: string, rest: string)
    requires Ignored(text) && '#' in text
    ensures TrimLeft(text + rest) != "" && TrimLeft(text + rest)[0] == '#'
  {
    var j :| 0 <= j <= |text| && AllSpace(text[..j]) && (j < |text| ==> text[j] == '#');
    var k := IndexOf(text, '#');
    assert forall i :: 0 <= i < k ==> text[i] == text[..j][i];
    var more := text[k..] + rest;
    assert text + rest == text[..k] + more;
    TrimLeftPadded(text[..k], more);
    assert TrimLeft(more) == more;
  }

  lemma ContentFirst(line: Line, rest: string)
    requires Plain(line.text)
    ensures var s := TrimLeft(Spaces(line.indent) + (line.text + rest)); line.text != "" && s != "" && s[0] == line.text[0]
  {
    var more := line.text + rest;
    TrimLeftPadded(Spaces(line.indent), more);
    assert TrimLeft(more) == more;
  }

  // ---------------------------------------------------------------- documents

  function Parsed(block: Result<(Value, nat), Error>): Document {
    match block
    case Err(e) => Refused(e)
    case Ok((v, _)) => Yaml(v)
  }

  /** What loading a file comes to, whatever its comments, blank lines and line ends are. */
  lemma FileIs(rs: seq<RawLine>)
    requires GoodFile(rs)
    ensures OpensJson(rs) ==> ParseYamlSubset(RenderFile(rs)) == Json(RenderFile(rs))
    ensures !OpensJson(rs) && ContentLines(rs) == [] ==> ParseYamlSubset(RenderFile(rs)) == Yaml(Map([]))
    ensures !OpensJson(rs) && ContentLines(rs) != [] ==> ParseYamlSubset(RenderFile(rs)) == Parsed(ParseBlock(ContentLines(rs), 0))
  {
    hide Clean, ParseBlock, RenderFile, GoodFile, LooksLikeJson, OpensJson, ContentLines;
    CleanFile(rs);
    JsonIff(rs);
  }

  /**
   Over characters: a file that holds the lines of a written document, at any indent, among any
   comments and blank lines, is loaded as exactly what the document says.
   */
  lemma DocumentRoundTrip(t: Tree, indent: nat, rs: seq<RawLine>)
    requires Written(t) && GoodFile(rs) && ContentLines(rs) == PrintBlock(t, indent)
    ensures ParseYamlSubset(RenderFile(rs)) == if OpensJson(rs) then Json(RenderFile(rs)) else Yaml(Meaning(t))
  {
    hide ParseBlock, PrintBlock, RenderFile, GoodFile, OpensJson, ContentLines, ParseYamlSubset, Written, Meaning;
    LinesRoundTrip(t, indent);
    FileIs(rs);
  }

  /** Every line of a written document is fit for a file. */
  ghost predicate PlainLines(lines: seq<Line>) {
    forall l :: l in lines ==> Plain(l.text)
  }

  lemma {:induction false} BlockIsPlain(t: Tree, indent: nat)
    requires Written(t)
    ensures PlainLines(PrintBlock(t, indent))
    decreases t, 1
  {
    hide Plain, PrintTwigs, PrintItems, GoodTwig, GoodItem;
    match t {
      case Branch(ts) =>
        BranchIsGood(t);
        TwigsArePlain(ts, indent);
      case Row(xs) =>
        RowIsGood(t);
        ItemsArePlain(xs, indent);
    }
  }

  lemma {:induction false} TwigsArePlain(ts: seq<Twig>, indent: nat)
    requires forall w :: w in ts ==> GoodTwig(w)
    ensures PlainLines(PrintTwigs(ts, indent))
    decreases ts, 0
  {
    hide Plain, TwigText, PrintBlock, GoodKey, GoodLeaf, Written;
    if ts != [] {
      var w := ts[0];
      assert w in ts;
      TwigLine(w);
      LeafIsPlain(w.tree);
      if !w.tree.Leaf? {
        BlockIsPlain(w.tree, indent + 1 + w.gap);
      }
      TwigsArePlain(ts[1..], indent);
    }
  }

  lemma {:induction false} ItemsArePlain(xs: seq<Tree>, indent: nat)
    requires forall x :: x in xs ==> GoodItem(x)
    ensures PlainLines(PrintItems(xs, indent))
    decreases xs, 0
  {
    hide Plain, PrintItem, GoodItem;
    if xs != [] {
      assert xs[0] in xs;
      ItemIsPlain(xs[0], indent);
      ItemsArePlain(xs[1..], indent);
    }
  }

  lemma {:induction false} ItemIsPlain(x: Tree, indent: nat)
    requires GoodItem(x)
    ensures PlainLines(PrintItem(x, indent))
    decreases x, 2
  {
    hide Plain, PrintBlock, PrintTwigs, GoodTwig, TwigText, Written, Spells;
    if x.Leaf? {
      DashLine(x.text);
    } else {
      BranchIsGood(x);
      var w := x.twigs[0];
      assert w in x.twigs;
      TwigLine(w);
      DashLine(TwigText(w));
      FirstIsPlain(w, indent);
      TwigsArePlain(x.twigs[1..], indent + 2);
    }
  }

  lemma {:induction false} FirstIsPlain(w: Twig, indent: nat)
    requires GoodTwig(w) && Plain("- " + TwigText(w))
    ensures PlainLines(FirstLines(w, indent))
    decreases w, 1
  {
    hide Plain, PrintBlock, TwigText, GoodKey, GoodLeaf, Written;
    LeafIsPlain(w.tree);
    if !w.tree.Leaf? {
      BlockIsPlain(w.tree, indent + 1 + w.gap);
    }
  }

  /** The lines and nothing else. */
  function Bald(lines: seq<Line>): (rs: seq<RawLine>)
    ensures |rs| == |lines| && forall i :: 0 <= i < |lines| ==> rs[i] == Content(lines[i], "", "\n")
  {
    if lines == [] then [] else [Content(lines[0], "", "\n")] + Bald(lines[1..])
  }

  lemma {:induction false} BaldLines(lines: seq<Line>)
    ensures ContentLines(Bald(lines)) == lines
  {
    if lines != [] {
      BaldLines(lines[1..]);
      assert [lines[0]] + lines[1..] == lines;
    }
  }

  lemma BaldIsGood(lines: seq<Line>)
    requires PlainLines(lines)
    ensures GoodFile(Bald(lines))
  {
    assert Ignored("") by {
      assert AllSpace(""[..0]);
    }
    forall i | 0 <= i < |lines| ensures GoodRaw(Bald(lines)[i]) && IsEnd(Bald(lines)[i].end) {
      assert lines[i] in lines;
    }
  }

  /** So for every value of the subset there is a file that says it: its canonical printing. */
  lemma ValueRoundTrip(v: Value, indent: nat)
    requires Supported(v)
    ensures var rs := Bald(PrintBlock(Canonical(v), indent));
      GoodFile(rs) && ParseYamlSubset(RenderFile(rs)) == if OpensJson(rs) then Json(RenderFile(rs)) else Yaml(v)
  {
    hide ParseYamlSubset, RenderFile, GoodFile, OpensJson, PrintBlock, Canonical, Supported, Written, Meaning, ContentLines;
    CanonicalIsWritten(v);
    var t := Canonical(v);
    BlockIsPlain(t, indent);
    BaldIsGood(PrintBlock(t, indent));
    BaldLines(PrintBlock(t, indent));
    DocumentRoundTrip(t, indent, Bald(PrintBlock(t, indent)));
  }
}
