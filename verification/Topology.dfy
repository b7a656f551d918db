/**
 orchestrator/topology.py: the indentation-sensitive YAML subset.  The recursive
 functions say what is parsed; the methods are the source's loops.
 */
module Topology {
  import opened Common
  import opened Text

  // ---------------------------------------------------------------- values

  /**
   A float is kept as its text.  A mapping keeps Python's dictionary order: a repeated
   key keeps its place and takes the new value.
   */
  datatype Value =
    | Null
    | Bool(b: bool)
    | Int(n: int)
    | Float(text: string)
    | Str(s: string)
    | Map(entries: seq<Entry>)
    | List(items: seq<Value>)

  datatype Entry = Entry(key: string, value: Value)

  function Put(d: seq<Entry>, key: string, value: Value): (r: seq<Entry>)
    ensures (forall e :: e in d ==> e.key != key) ==> r == d + [Entry(key, value)]
  {
    if d == [] then [Entry(key, value)]
    else if d[0].key == key then [Entry(key, value)] + d[1..]
    else [d[0]] + Put(d[1..], key, value)
  }

  /** A repeated key keeps its place and takes the new value. */
  lemma {:induction false} PutReplaces(d: seq<Entry>, k: nat, value: Value)
    requires k < |d| && forall j :: 0 <= j < k ==> d[j].key != d[k].key
    ensures Put(d, d[k].key, value) == d[k := Entry(d[k].key, value)]
  {
    if k > 0 {
      PutReplaces(d[1..], k - 1, value);
    }
  }

  // ---------------------------------------------------------------- scalars

  function LowerChar(c: char): char {
    if 'A' <= c <= 'Z' then (c as int + 32) as char else c
  }

  function Lower(s: string): (r: string)
    ensures |r| == |s| && forall i :: 0 <= i < |s| ==> r[i] == LowerChar(s[i])
  {
    if s == "" then "" else [LowerChar(s[0])] + Lower(s[1..])
  }

  function Unsigned(t: string): string {
    if t != "" && (t[0] == '+' || t[0] == '-') then t[1..] else t
  }

  /** The texts `int()` accepts. */
  predicate IsInt(t: string) {
    DigitRun(Unsigned(t), 10)
  }

  function IntValue(t: string): int
    requires IsInt(t)
  {
    var n: int := RunValue(Unsigned(t), 10);
    if t[0] == '-' then -n else n
  }

  predicate IsMantissa(m: string) {
    if '.' in m then
      var (whole, part) := (Before(m, '.'), After(m, '.'));
      (whole == "" || DigitRun(whole, 10)) && (part == "" || DigitRun(part, 10)) && (whole != "" || part != "")
    else DigitRun(m, 10)
  }

  /** The texts `float()` accepts. */
  predicate IsFloat(t: string) {
    var u := Lower(Unsigned(t));
    || u == "inf" || u == "infinity" || u == "nan"
    || (IsMantissa(Before(u, 'e')) && ('e' in u ==> DigitRun(Unsigned(After(u, 'e')), 10)))
  }

  predicate IsQuoted(t: string) {
    |t| >= 2 && (t[0] == '"' || t[0] == '\'') && t[|t| - 1] == t[0]
  }

  function Scalar(tok: string): Value {
    var t := Strip(tok);
    var low := Lower(t);
    if t == "" || t == "~" || low == "null" then Null
    else if IsQuoted(t) then Str(t[1..|t| - 1])
    else if low == "true" || low == "yes" then Bool(true)
    else if low == "false" || low == "no" then Bool(false)
    else if IsInt(t) then Int(IntValue(t))
    else if IsFloat(t) then Float(t)
    else Str(t)
  }

  // ---------------------------------------------------------------- lines

  datatype Line = Line(indent: nat, text: string)

  datatype Error = Tabs(line: string) | Indent(text: string) | NoKey(text: string) | ListIndent(text: string)

  /** The characters `splitlines` breaks at, below U+0100.  A "\r\n" shows as one more blank line, which is skipped. */
  predicate IsBreak(c: char) {
    '\n' <= c <= '\r' || '\U{1c}' <= c <= '\U{1e}' || c == '\U{85}'
  }

  function SplitLines(s: string): seq<string> {
    LinesAt(s, IsBreak)
  }

  function LeadingSpaces(line: string): (n: nat)
    ensures n <= |line| && forall i :: 0 <= i < n ==> line[i] == ' '
    ensures n < |line| ==> line[n] != ' '
  {
    if line != "" && line[0] == ' ' then 1 + LeadingSpaces(line[1..]) else 0
  }

  /** `_indent`. */
  function IndentOf(line: string): Result<nat, Error> {
    if '\t' in line[..|line| - |TrimLeft(line)|] then Err(Tabs(line)) else Ok(LeadingSpaces(line))
  }

  /** `_clean`: comments and blank lines go, the others become an indent and a stripped text. */
  function CleanLines(raw: seq<string>): Result<seq<Line>, Error> {
    if raw == [] then Ok([])
    else
      var line := Before(raw[0], '#');
      if Strip(line) == "" then CleanLines(raw[1..])
      else
        match IndentOf(line)
        case Err(e) => Err(e)
        case Ok(n) =>
          match CleanLines(raw[1..])
          case Err(e) => Err(e)
          case Ok(rest) => Ok([Line(n, Strip(line))] + rest)
  }

  function Clean(raw: string): Result<seq<Line>, Error> {
    CleanLines(SplitLines(raw))
  }

  // ---------------------------------------------------------------- blocks

  predicate IsDash(text: string) {
    StartsWith(text, "- ")
  }

  predicate Deeper(lines: seq<Line>, i: nat, indent: nat) {
    i + 1 < |lines| && lines[i + 1].indent > indent
  }

  /** A line that ends the block that began at `indent`. */
  predicate EndsBlock(line: Line, indent: nat, isList: bool) {
    line.indent < indent || (isList && line.indent == indent && !IsDash(line.text))
  }

  /** `[i..j)` is the longest run of lines none of which ends the block. */
  predicate IsExtent(lines: seq<Line>, i: nat, j: nat, indent: nat, isList: bool) {
    && i <= j <= |lines|
    && (forall k :: i <= k < j ==> !EndsBlock(lines[k], indent, isList))
    && (j < |lines| ==> EndsBlock(lines[j], indent, isList))
  }

  /** `_parse_block`; the index returned is past the whole block, and past nothing else. */
  function ParseBlock(lines: seq<Line>, i: nat): (r: Result<(Value, nat), Error>)
    requires i < |lines|
    ensures r.Ok? ==> i < r.value.1 && IsExtent(lines, i, r.value.1, lines[i].indent, IsDash(lines[i].text))
    decreases |lines| - i, 2
  {
    var indent := lines[i].indent;
    if IsDash(lines[i].text) then
      match ListFrom(lines, i, indent, [])
      case Err(e) => Err(e)
      case Ok((items, j)) => Ok((List(items), j))
    else
      match MapFrom(lines, i, indent, [])
      case Err(e) => Err(e)
      case Ok((entries, j)) => Ok((Map(entries), j))
  }

  /** `_parse_map` from line `i` on, with `d` read so far. */
  function MapFrom(lines: seq<Line>, i: nat, indent: nat, d: seq<Entry>): (r: Result<(seq<Entry>, nat), Error>)
    requires i <= |lines|
    ensures r.Ok? ==> IsExtent(lines, i, r.value.1, indent, false)
    decreases |lines| - i, 1
  {
    if i == |lines| || lines[i].indent < indent then Ok((d, i))
    else
      var text := lines[i].text;
      if lines[i].indent > indent then Err(Indent(text))
      else if ':' !in text then Err(NoKey(text))
      else
        var key, rest := Strip(Before(text, ':')), Strip(After(text, ':'));
        if rest != "" then MapFrom(lines, i + 1, indent, Put(d, key, Scalar(rest)))
        else if !Deeper(lines, i, indent) then MapFrom(lines, i + 1, indent, Put(d, key, Null))
        else
          match ParseBlock(lines, i + 1)
          case Err(e) => Err(e)
          case Ok((v, j)) => MapFrom(lines, j, indent, Put(d, key, v))
  }

  predicate AllDeep(lines: seq<Line>, i: nat, j: nat, indent: nat) {
    i <= j <= |lines| && forall k :: i <= k < j ==> lines[k].indent >= indent
  }

  /** The lines of one item belong to the list's extent. */
  lemma ItemExtends(lines: seq<Line>, i: nat, j: nat, k: nat, indent: nat)
    requires i < j <= k <= |lines| && lines[i].indent == indent && IsDash(lines[i].text)
    requires AllDeep(lines, i + 1, j, indent + 1) && AllDeep(lines, j, k, indent + 2)
    ensures forall e :: IsExtent(lines, k, e, indent, true) ==> IsExtent(lines, i, e, indent, true)
  {
    hide IsDash;
  }

  /** `_parse_list` from line `i` on. */
  function ListFrom(lines: seq<Line>, i: nat, indent: nat, items: seq<Value>): (r: Result<(seq<Value>, nat), Error>)
    requires i <= |lines|
    ensures r.Ok? ==> IsExtent(lines, i, r.value.1, indent, true)
    decreases |lines| - i, 1
  {
    if i == |lines| || lines[i].indent < indent then Ok((items, i))
    else if lines[i].indent > indent then Err(ListIndent(lines[i].text))
    else if !IsDash(lines[i].text) then Ok((items, i))
    else
      var body := Strip(lines[i].text[2..]);
      if ':' !in body then ListFrom(lines, i + 1, indent, items + [Scalar(body)])
      else
        match FirstEntry(lines, i, indent, body)
        case Err(e) => Err(e)
        case Ok((first, j)) =>
          match ChildrenFrom(lines, j, indent + 2, [first])
          case Err(e) => Err(e)
          case Ok((entries, k)) =>
            ItemExtends(lines, i, j, k, indent);
            ListFrom(lines, k, indent, items + [Map(entries)])
  }

  /** The key on the dash line and its value. */
  function FirstEntry(lines: seq<Line>, i: nat, indent: nat, body: string): (r: Result<(Entry, nat), Error>)
    requires i < |lines|
    ensures r.Ok? ==> i < r.value.1 && AllDeep(lines, i + 1, r.value.1, indent + 1)
    decreases |lines| - i, 0
  {
    var key, rest := Strip(Before(body, ':')), After(body, ':');
    if Strip(rest) != "" then Ok((Entry(key, Scalar(rest)), i + 1))
    else if !Deeper(lines, i, indent) then Ok((Entry(key, Null), i + 1))
    else
      match ParseBlock(lines, i + 1)
      case Err(e) => Err(e)
      case Ok((v, j)) => Ok((Entry(key, v), j))
  }

  /** A line that is not one of the item's further keys. */
  predicate EndsItem(line: Line, child: nat) {
    line.indent != child || IsDash(line.text)
  }

  /** The item's further keys, two columns deeper than the dash; one without a colon reads as null. */
  function ChildrenFrom(lines: seq<Line>, i: nat, child: nat, item: seq<Entry>): (r: Result<(seq<Entry>, nat), Error>)
    requires i <= |lines|
    ensures r.Ok? ==> AllDeep(lines, i, r.value.1, child)
    ensures r.Ok? && r.value.1 < |lines| ==> EndsItem(lines[r.value.1], child)
    decreases |lines| - i, 0
  {
    if i == |lines| || EndsItem(lines[i], child) then Ok((item, i))
    else
      var text := lines[i].text;
      var key, rest := Strip(Before(text, ':')), After(text, ':');
      if Strip(rest) == "" && Deeper(lines, i, child) then
        match ParseBlock(lines, i + 1)
        case Err(e) => Err(e)
        case Ok((v, j)) => ChildrenFrom(lines, j, child, Put(item, key, v))
      else ChildrenFrom(lines, i + 1, child, Put(item, key, Scalar(rest)))
  }

  // ---------------------------------------------------------------- documents

  /** A JSON document is left to the JSON reader. */
  datatype Document = Json(text: string) | Yaml(value: Value) | Refused(error: Error)

  predicate LooksLikeJson(raw: string) {
    var s := TrimLeft(raw);
    s != "" && (s[0] == '{' || s[0] == '[')
  }

  function ParseYamlSubset(raw: string): Document {
    if LooksLikeJson(raw) then Json(raw)
    else
      match Clean(raw)
      case Err(e) => Refused(e)
      case Ok(lines) =>
        if lines == [] then Yaml(Map([]))
        else
          match ParseBlock(lines, 0)
          case Err(e) => Refused(e)
          case Ok((v, _)) => Yaml(v)
  }

  // ---------------------------------------------------------------- the loops of the source

  function Prefixed(done: seq<Line>, rest: Result<seq<Line>, Error>): Result<seq<Line>, Error> {
    match rest
    case Err(e) => Err(e)
    case Ok(lines) => Ok(done + lines)
  }

  lemma PrefixNothing(rest: Result<seq<Line>, Error>)
    ensures Prefixed([], rest) == rest
  {
    if rest.Ok? {
      assert [] + rest.value == rest.value;
    }
  }

  lemma PrefixMore(done: seq<Line>, line: Line, rest: Result<seq<Line>, Error>)
    ensures Prefixed(done + [line], rest) == Prefixed(done, Prefixed([line], rest))
  {
    if rest.Ok? {
      assert done + [line] + rest.value == done + ([line] + rest.value);
    }
  }

  method CleanLoop(raw: string) returns (out: Result<seq<Line>, Error>)
    ensures out == Clean(raw)
  {
    var lines := SplitLines(raw);
    var cleaned: seq<Line> := [];
    var i := 0;
    hide Strip, Before, IndentOf;
    assert lines[0..] == lines;
    PrefixNothing(CleanLines(lines));
    while i < |lines|
      invariant 0 <= i <= |lines|
      invariant Clean(raw) == Prefixed(cleaned, CleanLines(lines[i..]))
    {
      var line := Before(lines[i], '#');
      if Strip(line) != "" {
        var n := IndentOf(line);
        if n.Err? {
          return Err(n.error);
        }
        PrefixMore(cleaned, Line(n.value, Strip(line)), CleanLines(lines[i + 1..]));
        cleaned := cleaned + [Line(n.value, Strip(line))];
      }
      i := i + 1;
    }
    assert cleaned + [] == cleaned;
    return Ok(cleaned);
  }

  method BlockLoop(lines: seq<Line>, i: nat) returns (r: Result<(Value, nat), Error>)
    requires i < |lines|
    ensures r == ParseBlock(lines, i)
    decreases |lines| - i, 2
  {
    if IsDash(lines[i].text) {
      var items := ListLoop(lines, i, lines[i].indent);
      return match items case Err(e) => Err(e) case Ok((v, j)) => Ok((List(v), j));
    }
    var entries := MapLoop(lines, i, lines[i].indent);
    return match entries case Err(e) => Err(e) case Ok((d, j)) => Ok((Map(d), j));
  }

  method MapLoop(lines: seq<Line>, start: nat, indent: nat) returns (r: Result<(seq<Entry>, nat), Error>)
    requires start < |lines|
    ensures r == MapFrom(lines, start, indent, [])
    decreases |lines| - start, 1
  {
    hide Strip, Before, After, Scalar, Put, IsDash, ParseBlock;
    var d: seq<Entry> := [];
    var i := start;
    while i < |lines|
      invariant start <= i <= |lines|
      invariant MapFrom(lines, start, indent, []) == MapFrom(lines, i, indent, d)
    {
      if lines[i].indent < indent {
        break;
      }
      var text := lines[i].text;
      if lines[i].indent > indent {
        return Err(Indent(text));
      }
      if ':' !in text {
        return Err(NoKey(text));
      }
      var key, rest := Strip(Before(text, ':')), Strip(After(text, ':'));
      if rest == "" {
        if i + 1 < |lines| && lines[i + 1].indent > indent {
          var block := BlockLoop(lines, i + 1);
          if block.Err? {
            return Err(block.error);
          }
          d, i := Put(d, key, block.value.0), block.value.1;
          continue;
        }
        d := Put(d, key, Null);
        i := i + 1;
      } else {
        d := Put(d, key, Scalar(rest));
        i := i + 1;
      }
    }
    return Ok((d, i));
  }

  method ListLoop(lines: seq<Line>, start: nat, indent: nat) returns (r: Result<(seq<Value>, nat), Error>)
    requires start < |lines|
    ensures r == ListFrom(lines, start, indent, [])
    decreases |lines| - start, 1
  {
    hide Strip, Scalar, FirstEntry, ChildrenFrom, IsExtent;
    var items: seq<Value> := [];
    var i := start;
    while i < |lines|
      invariant start <= i <= |lines|
      invariant ListFrom(lines, start, indent, []) == ListFrom(lines, i, indent, items)
    {
      if lines[i].indent < indent {
        break;
      }
      if lines[i].indent > indent {
        return Err(ListIndent(lines[i].text));
      }
      if !IsDash(lines[i].text) {
        break;
      }
      var body := Strip(lines[i].text[2..]);
      if ':' in body {
        var item := ItemLoop(lines, i, indent, body);
        if item.Err? {
          return Err(item.error);
        }
        items, i := items + [Map(item.value.0)], item.value.1;
      } else {
        items := items + [Scalar(body)];
        i := i + 1;
      }
    }
    return Ok((items, i));
  }

  /** One mapping item: the key on the dash line, then the keys below it. */
  method ItemLoop(lines: seq<Line>, start: nat, indent: nat, body: string) returns (r: Result<(seq<Entry>, nat), Error>)
    requires start < |lines|
    ensures r == match FirstEntry(lines, start, indent, body)
      case Err(e) => Err(e)
      case Ok((first, j)) => ChildrenFrom(lines, j, indent + 2, [first])
    decreases |lines| - start, 0, 1
  {
    hide Strip, Before, After, Scalar, ParseBlock, ChildrenFrom;
    var key, rest := Strip(Before(body, ':')), After(body, ':');
    var first, i := Entry(key, Null), start + 1;
    if Strip(rest) == "" {
      if start + 1 < |lines| && lines[start + 1].indent > indent {
        var block := BlockLoop(lines, start + 1);
        if block.Err? {
          return Err(block.error);
        }
        first, i := Entry(key, block.value.0), block.value.1;
      }
    } else {
      first := Entry(key, Scalar(rest));
    }
    r := ChildrenLoop(lines, i, indent + 2, [first]);
  }

  method ChildrenLoop(lines: seq<Line>, start: nat, child: nat, first: seq<Entry>) returns (r: Result<(seq<Entry>, nat), Error>)
    requires start <= |lines|
    ensures r == ChildrenFrom(lines, start, child, first)
    decreases |lines| - start, 0, 0
  {
    hide Strip, Before, After, Scalar, ParseBlock, Put, IsDash;
    var item, i := first, start;
    while i < |lines| && lines[i].indent == child && !IsDash(lines[i].text)
      invariant start <= i <= |lines|
      invariant ChildrenFrom(lines, start, child, first) == ChildrenFrom(lines, i, child, item)
    {
      var text := lines[i].text;
      var key, rest := Strip(Before(text, ':')), After(text, ':');
      if Strip(rest) == "" && i + 1 < |lines| && lines[i + 1].indent > child {
        var block := BlockLoop(lines, i + 1);
        if block.Err? {
          return Err(block.error);
        }
        item, i := Put(item, key, block.value.0), block.value.1;
      } else {
        item := Put(item, key, Scalar(rest));
        i := i + 1;
      }
    }
    return Ok((item, i));
  }

  method Load(raw: string) returns (doc: Document)
    ensures doc == ParseYamlSubset(raw)
  {
    if LooksLikeJson(raw) {
      return Json(raw);
    }
    var lines := CleanLoop(raw);
    if lines.Err? {
      return Refused(lines.error);
    }
    if lines.value == [] {
      return Yaml(Map([]));
    }
    var block := BlockLoop(lines.value, 0);
    return match block case Err(e) => Refused(e) case Ok((v, _)) => Yaml(v);
  }
}
