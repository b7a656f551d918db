/**
 The pool-map file: `RealWiring` and `FakeWiring` of orchestrator/wiring.py write it,
 `RealWiring._read` and `_load_pool_file` of tier1_dns.py read it.
 */
module PoolMap {
  import opened Common
  import opened Text

  // ---------------------------------------------------------------- sorted keys

  /** Python's order on strings. */
  predicate LexLe(a: string, b: string) {
    a == "" || (b != "" && (a[0] < b[0] || (a[0] == b[0] && LexLe(a[1..], b[1..]))))
  }

  lemma {:induction false} LexTotal(a: string, b: string)
    ensures LexLe(a, b) || LexLe(b, a)
  {
    if a != "" && b != "" && a[0] == b[0] {
      LexTotal(a[1..], b[1..]);
    }
  }

  lemma {:induction false} LexAntisymmetric(a: string, b: string)
    requires LexLe(a, b) && LexLe(b, a)
    ensures a == b
  {
    if a != "" {
      LexAntisymmetric(a[1..], b[1..]);
      assert a == [a[0]] + a[1..] && b == [b[0]] + b[1..];
    }
  }

  lemma {:induction false} LexTransitive(a: string, b: string, c: string)
    requires LexLe(a, b) && LexLe(b, c)
    ensures LexLe(a, c)
  {
    if a != "" && a[0] == b[0] && b[0] == c[0] {
      LexTransitive(a[1..], b[1..], c[1..]);
    }
  }

  /** The same order, said of the texts as a whole. */
  lemma {:induction false} LexIff(a: string, b: string)
    ensures LexLe(a, b) <==> a <= b || exists i :: 0 <= i < |a| && i < |b| && a[..i] == b[..i] && a[i] < b[i]
  {
    if a != "" && b != "" {
      if a[0] == b[0] {
        LexIff(a[1..], b[1..]);
        if i: nat :| i < |a[1..]| && i < |b[1..]| && a[1..][..i] == b[1..][..i] && a[1..][i] < b[1..][i] {
          assert a[..i + 1] == [a[0]] + a[1..][..i] && b[..i + 1] == [b[0]] + b[1..][..i];
        }
        if i :| 0 < i < |a| && i < |b| && a[..i] == b[..i] && a[i] < b[i] {
          assert a[1..][..i - 1] == a[..i][1..] && b[1..][..i - 1] == b[..i][1..];
          assert a[1..][i - 1] < b[1..][i - 1];
        }
      } else if a[0] < b[0] {
        assert a[..0] == b[..0];
      } else {
        assert forall i :: 0 < i < |a| && i < |b| ==> a[..i][0] == a[0] && b[..i][0] == b[0];
      }
    }
  }

  predicate IsLeast(k: string, keys: set<string>) {
    k in keys && forall x :: x in keys ==> LexLe(k, x)
  }

  lemma {:induction false} LeastExists(keys: set<string>)
    requires keys != {}
    ensures exists k :: IsLeast(k, keys)
  {
    var k :| k in keys;
    var rest := keys - {k};
    LexTotal(k, k);
    if rest == {} {
      assert keys == {k};
      assert IsLeast(k, keys);
    } else {
      LeastExists(rest);
      var m :| IsLeast(m, rest);
      LexTotal(k, m);
      if LexLe(k, m) {
        forall x | x in keys ensures LexLe(k, x) {
          if x != k {
            LexTransitive(k, m, x);
          }
        }
        assert IsLeast(k, keys);
      } else {
        assert IsLeast(m, keys);
      }
    }
  }

  ghost function Sorted(keys: set<string>): (order: seq<string>)
    ensures |order| == |keys| && forall k :: k in order <==> k in keys
    ensures forall i, j :: 0 <= i < j < |order| ==> order[i] != order[j]
  {
    if keys == {} then []
    else
      LeastExists(keys);
      var k :| IsLeast(k, keys);
      [k] + Sorted(keys - {k})
  }

  lemma LeastIsFirst(k: string, keys: set<string>)
    requires IsLeast(k, keys)
    ensures Sorted(keys) == [k] + Sorted(keys - {k})
  {
    LeastExists(keys);
    var m :| IsLeast(m, keys) && Sorted(keys) == [m] + Sorted(keys - {m});
    LexAntisymmetric(k, m);
  }

  ghost predicate Ascending(order: seq<string>) {
    forall i, j :: 0 <= i < j < |order| ==> LexLe(order[i], order[j])
  }

  lemma LeastInFront(k: string, order: seq<string>)
    requires Ascending(order) && forall x :: x in order ==> LexLe(k, x)
    ensures Ascending([k] + order)
  {
    hide LexLe;
    var longer := [k] + order;
    forall i, j | 0 <= i < j < |longer| ensures LexLe(longer[i], longer[j]) {
      assert longer[j] == order[j - 1] && order[j - 1] in order;
    }
  }

  lemma {:induction false} SortedAscends(keys: set<string>)
    ensures Ascending(Sorted(keys))
  {
    hide LexLe, Ascending;
    if keys == {} {
      NothingAscends();
    } else {
      LeastExists(keys);
      var k :| IsLeast(k, keys);
      LeastIsFirst(k, keys);
      hide Sorted;
      SortedAscends(keys - {k});
      LeastInFront(k, Sorted(keys - {k}));
    }
  }

  lemma NothingAscends()
    ensures Sorted({}) == [] && Ascending([])
  {
  }

  // ---------------------------------------------------------------- writing

  /** `"%s" % ip`. */
  function AddressText(a: Option<string>): string {
    match a
    case None => "None"
    case Some(ip) => ip
  }

  function EntryLine(name: string, a: Option<string>): string {
    name + "=" + AddressText(a) + "\n"
  }

  function Entries(order: seq<string>, pools: map<string, Option<string>>): string
    requires forall k :: k in order ==> k in pools
  {
    if order == [] then "" else EntryLine(order[0], pools[order[0]]) + Entries(order[1..], pools)
  }

  /** The comment line of `RealWiring.apply`, after its '#'; `FakeWiring.apply` writes none. */
  const REAL_HEADER := " dynamic orchestrated" + " pools (managed by gpuha)" + " - do not edit by hand"

  ghost function FileText(header: Option<string>, pools: map<string, Option<string>>): string {
    (if header.None? then "" else "#" + header.value + "\n") + Entries(Sorted(pools.Keys), pools)
  }

  // ---------------------------------------------------------------- reading

  predicate IsNewline(c: char) {
    c == '\n' || c == '\r'
  }

  /** The lines of a text file.  A "\r\n" ending shows as one more empty line, which the readers skip. */
  function Lines(s: string): seq<string> {
    LinesAt(s, IsNewline)
  }

  /** The body of both readers' loops. */
  function ReadLine(line: string, pools: map<string, string>): map<string, string> {
    var t := Strip(line);
    if t != "" && t[0] != '#' && '=' in t then pools[Strip(Before(t, '=')) := Strip(After(t, '='))] else pools
  }

  function ReadLines(lines: seq<string>, pools: map<string, string>): map<string, string>
    decreases |lines|
  {
    if lines == [] then pools else ReadLines(lines[1..], ReadLine(lines[0], pools))
  }

  /** A missing file reads as no pools. */
  function ReadText(file: Option<string>): map<string, string> {
    match file
    case None => map[]
    case Some(text) => ReadLines(Lines(text), map[])
  }

  method ReadPoolMap(file: Option<string>) returns (pools: map<string, string>)
    ensures pools == ReadText(file)
  {
    pools := map[];
    if file.Some? {
      var lines := Lines(file.value);
      var i := 0;
      while i < |lines|
        invariant 0 <= i <= |lines|
        invariant ReadLines(lines[i..], pools) == ReadText(file)
      {
        var t := Strip(lines[i]);
        if t != "" && t[0] != '#' && '=' in t {
          pools := pools[Strip(Before(t, '=')) := Strip(After(t, '='))];
        }
        i := i + 1;
      }
    }
  }

  // ---------------------------------------------------------------- round trip

  predicate OneLine(s: string) {
    Unbroken(s, IsNewline)
  }

  predicate GoodName(k: string) {
    Bare(k) && (k != "" ==> k[0] != '#') && '=' !in k && OneLine(k)
  }

  predicate GoodAddress(a: Option<string>) {
    a.Some? ==> Bare(a.value) && OneLine(a.value)
  }

  ghost predicate GoodPools(pools: map<string, Option<string>>) {
    forall k :: k in pools ==> GoodName(k) && GoodAddress(pools[k])
  }

  /** What a wiring that starts from the file holds in memory. */
  function Entered(read: map<string, string>): map<string, Option<string>> {
    map k | k in read :: Some(read[k])
  }

  function Texts(pools: map<string, Option<string>>): map<string, string> {
    map k | k in pools :: AddressText(pools[k])
  }

  lemma LinesOfLine(line: string, rest: string)
    requires OneLine(line)
    ensures Lines(line + "\n" + rest) == [line] + Lines(rest)
  {
    LineFirst(line, '\n', rest, IsNewline);
  }

  lemma EntryIsBare(k: string, v: string)
    requires GoodName(k) && Bare(v) && OneLine(v)
    ensures Bare(k + "=" + v) && OneLine(k + "=" + v) && (k + "=" + v)[0] != '#'
  {
    var t := k + "=" + v;
    assert t[0] == (if k == "" then '=' else k[0]) && !IsSpace('=');
    assert t[|t| - 1] == if v == "" then '=' else v[|v| - 1];
  }

  lemma ReadEntry(k: string, a: Option<string>, pools: map<string, string>)
    requires GoodName(k) && GoodAddress(a)
    ensures ReadLine(k + "=" + AddressText(a), pools) == pools[k := AddressText(a)]
    ensures OneLine(k + "=" + AddressText(a))
  {
    hide Strip, IndexOf, Before, After, OneLine, IsSpace;
    var v := AddressText(a);
    assert Bare(v) && OneLine(v) by {
      NoneIsPlain();
    }
    EntryIsBare(k, v);
    StripBare(k + "=" + v);
    PartitionAt(k, '=', v);
    StripBare(k);
    StripBare(v);
  }

  lemma NoneIsPlain()
    ensures Bare("None") && OneLine("None")
  {
  }

  lemma {:induction false} ReadEntries(order: seq<string>, pools: map<string, Option<string>>, acc: map<string, string>)
    requires GoodPools(pools) && forall k :: k in order ==> k in pools
    ensures ReadLines(Lines(Entries(order, pools)), acc) == acc + (map k | k in order :: AddressText(pools[k]))
  {
    hide Strip, Before, After, ReadLine, OneLine, GoodName, GoodAddress, AddressText;
    if order == [] {
      assert Lines("") == [""];
      ReadBlank(acc);
      assert ReadLines([""], acc) == ReadLines([], ReadLine("", acc));
    } else {
      var k := order[0];
      var line := k + "=" + AddressText(pools[k]);
      ReadEntry(k, pools[k], acc);
      var rest := Entries(order[1..], pools);
      assert Entries(order, pools) == line + "\n" + rest;
      hide Entries;
      LinesOfLine(line, rest);
      var acc' := acc[k := AddressText(pools[k])];
      assert ([line] + Lines(rest))[1..] == Lines(rest);
      hide Lines;
      ReadEntries(order[1..], pools, acc');
      OneEntryMore(order, pools, acc);
    }
  }

  lemma OneEntryMore(order: seq<string>, pools: map<string, Option<string>>, acc: map<string, string>)
    requires order != [] && forall k :: k in order ==> k in pools
    ensures acc[order[0] := AddressText(pools[order[0]])] + (map x | x in order[1..] :: AddressText(pools[x]))
      == acc + (map x | x in order :: AddressText(pools[x]))
  {
    hide AddressText;
  }

  lemma ReadBlank(acc: map<string, string>)
    ensures ReadLine("", acc) == acc
  {
  }

  /** A line that starts with '#' is skipped. */
  lemma ReadComment(comment: string, text: string, acc: map<string, string>)
    requires OneLine(comment)
    ensures ReadLines(Lines("#" + comment + "\n" + text), acc) == ReadLines(Lines(text), acc)
  {
    hide Before, After;
    var line := "#" + comment;
    LinesOfLine(line, text);
    assert ([line] + Lines(text))[1..] == Lines(text);
    assert TrimLeft(line) == line;
    TrimRightKeepsHead(line);
  }

  lemma {:induction false} TrimRightKeepsHead(s: string)
    requires s != "" && !IsSpace(s[0])
    ensures TrimRight(s) != "" && TrimRight(s)[0] == s[0]
  {
    if IsSpace(s[|s| - 1]) {
      TrimRightKeepsHead(s[..|s| - 1]);
    }
  }

  /** Both readers recover exactly the map that either wiring wrote. */
  lemma FileRoundTrip(header: Option<string>, pools: map<string, Option<string>>)
    requires GoodPools(pools) && (header.Some? ==> OneLine(header.value))
    ensures ReadText(Some(FileText(header, pools))) == Texts(pools)
    ensures ReadText(Some(FileText(header, pools))).Keys == pools.Keys
    ensures forall k :: k in pools ==>
      ReadText(Some(FileText(header, pools)))[k] == if pools[k].None? then "None" else pools[k].value
  {
    NoneIsSpelled(pools);
    hide ReadLines, Lines, AddressText, Entries, GoodName, GoodAddress, OneLine, Sorted;
    var order := Sorted(pools.Keys);
    ReadEntries(order, pools, map[]);
    TextsInOrder(pools);
    hide Texts, GoodPools;
    ReadHeader(header, Entries(order, pools));
  }

  lemma NoneIsSpelled(pools: map<string, Option<string>>)
    ensures Texts(pools).Keys == pools.Keys
    ensures forall k :: k in pools ==> Texts(pools)[k] == if pools[k].None? then "None" else pools[k].value
  {
  }

  /** The file of one pool, character for character. */
  lemma OnePoolFile(name: string, ip: string)
    ensures var pools: map<string, Option<string>> := map[name := Some(ip)];
      && FileText(Some(REAL_HEADER), pools)
         == "#" + (" dynamic orchestrated" + " pools (managed by gpuha)" + " - do not edit by hand") + "\n" + name + "=" + ip + "\n"
      && FileText(None, pools) == name + "=" + ip + "\n"
  {
    var pools: map<string, Option<string>> := map[name := Some(ip)];
    LexTotal(name, name);
    assert IsLeast(name, {name});
    LeastIsFirst(name, {name});
    assert pools.Keys == {name} && {name} - {name} == {};
    assert Sorted({name}) == [name] + Sorted({});
    hide Sorted;
    var none: set<string> := {};
    NoKeys();
    OneEntry(name, ip, pools);
    assert "#" + REAL_HEADER + "\n" + (name + "=" + ip + "\n") == "#" + REAL_HEADER + "\n" + name + "=" + ip + "\n";
    assert "" + (name + "=" + ip + "\n") == name + "=" + ip + "\n";
  }

  lemma NoKeys()
    ensures Sorted({}) == []
  {
  }

  lemma OneEntry(name: string, ip: string, pools: map<string, Option<string>>)
    requires name in pools && pools[name] == Some(ip)
    ensures Entries([name], pools) == name + "=" + ip + "\n"
  {
    assert [name][1..] == [];
    assert Entries([name], pools) == EntryLine(name, pools[name]) + "";
  }

  /** Space around the name, the sign and the address is ignored. */
  lemma PaddedEntry(a: string, k: string, b: string, c: string, v: string, d: string, pools: map<string, string>)
    requires GoodName(k) && k != "" && Bare(v) && v != "" && AllSpace(a) && AllSpace(b) && AllSpace(c) && AllSpace(d)
    ensures ReadLine(a + k + b + "=" + c + v + d, pools) == pools[k := v]
  {
    var before, after := k + b, c + v;
    SpaceHasNoSign(b);
    var t := before + ['='] + after;
    assert a + k + b + "=" + c + v + d == a + t + d;
    assert t[0] == k[0] && t[|t| - 1] == v[|v| - 1];
    hide Strip, IndexOf, Before, After, AllSpace, OneLine, IsSpace;
    StripPadded("", k, b);
    assert "" + k + b == before;
    StripPadded(c, v, "");
    assert c + v + "" == after;
    StripPadded(a, t, d);
    EntryParts(a + t + d, before, after, pools);
  }

  lemma EntryParts(line: string, before: string, after: string, pools: map<string, string>)
    requires Strip(line) == before + ['='] + after && '=' !in before && before != "" && before[0] != '#'
    ensures ReadLine(line, pools) == pools[Strip(before) := Strip(after)]
  {
    hide Strip, IndexOf, Before, After;
    PartitionAt(before, '=', after);
  }

  lemma SpaceHasNoSign(s: string)
    requires AllSpace(s)
    ensures '=' !in s
  {
    assert forall i :: 0 <= i < |s| ==> IsSpace(s[i]);
  }

  /** A line without an equals sign is no entry. */
  lemma NoEntryLine(line: string, pools: map<string, string>)
    requires '=' !in line
    ensures ReadLine(line, pools) == pools
  {
    StripKeeps(line);
  }

  lemma NewlineSet(c: char)
    ensures IsNewline(c) <==> c in "\n\r"
  {
  }

  lemma TextsInOrder(pools: map<string, Option<string>>)
    ensures map[] + (map k | k in Sorted(pools.Keys) :: AddressText(pools[k])) == Texts(pools)
  {
    hide Sorted, AddressText;
  }

  lemma ReadHeader(header: Option<string>, text: string)
    requires header.Some? ==> OneLine(header.value)
    ensures ReadLines(Lines((if header.None? then "" else "#" + header.value + "\n") + text), map[]) == ReadLines(Lines(text), map[])
  {
    hide ReadLines, Lines, OneLine;
    if header.None? {
      assert "" + text == text;
    } else {
      ReadComment(header.value, text, map[]);
    }
  }

  lemma RealHeaderIsOneLine()
    ensures OneLine(REAL_HEADER)
  {
    assert OneLine(" dynamic orchestrated");
    assert OneLine(" pools (managed by gpuha)");
    assert OneLine(" - do not edit by hand");
  }

  // ---------------------------------------------------------------- whatever was read can be written back

  lemma {:induction false} TrimmedPart(s: string)
    ensures forall i :: 0 <= i < |TrimLeft(s)| ==> TrimLeft(s)[i] in s
    ensures s != "" && !IsSpace(s[0]) ==> TrimLeft(s) == s
  {
    if s != "" && IsSpace(s[0]) {
      TrimmedPart(s[1..]);
    }
  }

  /** Stripping keeps characters only, and leaves no space at the ends. */
  lemma StripKeeps(s: string)
    ensures Bare(Strip(s)) && forall i :: 0 <= i < |Strip(s)| ==> Strip(s)[i] in s
    ensures s != "" && !IsSpace(s[0]) ==> Strip(s) != "" && Strip(s)[0] == s[0]
  {
    TrimmedPart(s);
    var t := TrimLeft(s);
    if t != "" {
      TrimRightKeepsHead(t);
    }
  }

  lemma {:induction false} LinesAreLines(s: string)
    ensures forall i :: 0 <= i < |Lines(s)| ==> OneLine(Lines(s)[i])
  {
    if s != "" {
      LinesAreLines(s[1..]);
      var rest := Lines(s[1..]);
      if !IsNewline(s[0]) {
        assert Lines(s)[0] == [s[0]] + rest[0];
      }
    }
  }

  ghost predicate GoodTexts(read: map<string, string>) {
    forall k :: k in read ==> GoodName(k) && Bare(read[k]) && OneLine(read[k])
  }

  lemma ReadLineIsGood(line: string, pools: map<string, string>)
    requires OneLine(line) && GoodTexts(pools)
    ensures GoodTexts(ReadLine(line, pools))
  {
    var t := Strip(line);
    StripKeeps(line);
    if t != "" && t[0] != '#' && '=' in t {
      hide Strip, IsNewline, IndexOf, Bare, StartsWith;
      assert OneLine(t);
      EntryIsGood(t);
    }
  }

  lemma EntryIsGood(t: string)
    requires t != "" && t[0] != '#' && OneLine(t) && !IsSpace(t[0])
    ensures var k, v := Strip(Before(t, '=')), Strip(After(t, '=')); GoodName(k) && Bare(v) && OneLine(v)
  {
    var before, after := Before(t, '='), After(t, '=');
    assert forall i :: 0 <= i < |before| ==> before[i] == t[i];
    assert forall i :: 0 <= i < |after| ==> after[i] in t;
    hide IsNewline, IndexOf, Before, After, Bare, Strip, IsSpace;
    StripKeeps(before);
    StripKeeps(after);
    assert OneLine(Strip(before)) && OneLine(Strip(after));
    assert '=' !in Strip(before);
  }

  lemma {:induction false} ReadLinesAreGood(lines: seq<string>, pools: map<string, string>)
    requires (forall i :: 0 <= i < |lines| ==> OneLine(lines[i])) && GoodTexts(pools)
    ensures GoodTexts(ReadLines(lines, pools))
    decreases |lines|
  {
    hide GoodTexts, ReadLine, OneLine;
    if lines != [] {
      ReadLineIsGood(lines[0], pools);
      ReadLinesAreGood(lines[1..], ReadLine(lines[0], pools));
    }
  }

  /** A wiring can write back whatever it has read, from any file at all. */
  lemma EnteredIsGood(file: Option<string>)
    ensures GoodPools(Entered(ReadText(file))) && Texts(Entered(ReadText(file))) == ReadText(file)
  {
    hide GoodName, OneLine, Bare, Lines, ReadLines;
    if file.Some? {
      LinesAreLines(file.value);
      ReadLinesAreGood(Lines(file.value), map[]);
    }
  }
}
