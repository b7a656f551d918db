/**
 What `parse_yaml_subset` never looks at: it discards the index `_parse_block` returns,
 so the lines from the first one that ends the top-level block on play no part.
 */
module TopologyTail {
  import opened Common
  import opened Text
  import opened Topology

  /** Nothing at or after line `k` belongs to a block at this indent. */
  predicate Cut(lines: seq<Line>, k: nat, indent: nat, isList: bool) {
    k < |lines| ==> EndsBlock(lines[k], indent, isList)
  }

  lemma {:induction false} BlockIgnores(lines: seq<Line>, i: nat, k: nat)
    requires i < k <= |lines| && Cut(lines, k, lines[i].indent, IsDash(lines[i].text))
    ensures ParseBlock(lines, i) == ParseBlock(lines[..k], i)
    decreases |lines| - i, 2
  {
    hide IsDash;
    if IsDash(lines[i].text) {
      ListIgnores(lines, i, k, lines[i].indent, []);
    } else {
      MapIgnores(lines, i, k, lines[i].indent, []);
    }
  }

  lemma {:induction false} MapIgnores(lines: seq<Line>, i: nat, k: nat, indent: nat, d: seq<Entry>)
    requires i <= k <= |lines| && Cut(lines, k, indent, false)
    ensures MapFrom(lines, i, indent, d) == MapFrom(lines[..k], i, indent, d)
    decreases |lines| - i, 1
  {
    hide Strip, Before, After, Scalar, Put, IsDash, ParseBlock, IsExtent;
    if i < k && lines[i].indent == indent && ':' in lines[i].text {
      var key, rest := Strip(Before(lines[i].text, ':')), Strip(After(lines[i].text, ':'));
      if rest != "" {
        MapIgnores(lines, i + 1, k, indent, Put(d, key, Scalar(rest)));
      } else if !Deeper(lines, i, indent) {
        MapIgnores(lines, i + 1, k, indent, Put(d, key, Null));
      } else {
        BlockIgnores(lines, i + 1, k);
        var block := ParseBlock(lines, i + 1);
        if block.Ok? {
          ExtentBefore(lines, i + 1, k);
          MapIgnores(lines, block.value.1, k, indent, Put(d, key, block.value.0));
        }
      }
    }
  }

  lemma {:induction false} ListIgnores(lines: seq<Line>, i: nat, k: nat, indent: nat, items: seq<Value>)
    requires i <= k <= |lines| && Cut(lines, k, indent, true)
    ensures ListFrom(lines, i, indent, items) == ListFrom(lines[..k], i, indent, items)
    decreases |lines| - i, 1
  {
    hide Strip, Scalar, IsExtent, FirstEntry, ChildrenFrom;
    if i < k && lines[i].indent == indent && IsDash(lines[i].text) {
      var body := Strip(lines[i].text[2..]);
      if ':' !in body {
        ListIgnores(lines, i + 1, k, indent, items + [Scalar(body)]);
      } else {
        FirstIgnores(lines, i, k, indent, body);
        var first := FirstEntry(lines, i, indent, body);
        if first.Ok? {
          ChildrenIgnore(lines, first.value.1, k, indent + 2, [first.value.0]);
          var children := ChildrenFrom(lines, first.value.1, indent + 2, [first.value.0]);
          if children.Ok? {
            ListIgnores(lines, children.value.1, k, indent, items + [Map(children.value.0)]);
          }
        }
      }
    }
  }

  lemma {:induction false} FirstIgnores(lines: seq<Line>, i: nat, k: nat, indent: nat, body: string)
    requires i < k <= |lines| && (k < |lines| ==> lines[k].indent <= indent)
    ensures FirstEntry(lines, i, indent, body) == FirstEntry(lines[..k], i, indent, body)
    ensures FirstEntry(lines, i, indent, body).Ok? ==> FirstEntry(lines, i, indent, body).value.1 <= k
    decreases |lines| - i, 0
  {
    hide Strip, Before, After, Scalar, IsDash, ParseBlock, IsExtent;
    if Strip(After(body, ':')) == "" && Deeper(lines, i, indent) {
      BlockIgnores(lines, i + 1, k);
      ExtentBefore(lines, i + 1, k);
    }
  }

  lemma {:induction false} ChildrenIgnore(lines: seq<Line>, i: nat, k: nat, child: nat, item: seq<Entry>)
    requires i <= k <= |lines| && (k < |lines| ==> lines[k].indent < child)
    ensures ChildrenFrom(lines, i, child, item) == ChildrenFrom(lines[..k], i, child, item)
    ensures ChildrenFrom(lines, i, child, item).Ok? ==> ChildrenFrom(lines, i, child, item).value.1 <= k
    decreases |lines| - i, 0
  {
    hide Strip, Before, After, Scalar, Put, IsDash, ParseBlock, IsExtent;
    if i < k && lines[i].indent == child && !IsDash(lines[i].text) {
      var key, rest := Strip(Before(lines[i].text, ':')), After(lines[i].text, ':');
      if Strip(rest) == "" && Deeper(lines, i, child) {
        BlockIgnores(lines, i + 1, k);
        var block := ParseBlock(lines, i + 1);
        if block.Ok? {
          ExtentBefore(lines, i + 1, k);
          ChildrenIgnore(lines, block.value.1, k, child, Put(item, key, block.value.0));
        }
      } else {
        ChildrenIgnore(lines, i + 1, k, child, Put(item, key, Scalar(rest)));
      }
    }
  }

  /** A block stops at the cut. */
  lemma ExtentBefore(lines: seq<Line>, i: nat, k: nat)
    requires i < k <= |lines| && (k < |lines| ==> lines[k].indent < lines[i].indent)
    ensures ParseBlock(lines, i).Ok? ==> i < ParseBlock(lines, i).value.1 <= k
  {
    hide ParseBlock, IsDash;
  }

  /**
   A document whose line `k` ends the top-level block is read as if it stopped before
   that line: the rest is neither returned nor checked.
   */
  lemma TailIsIgnored(lines: seq<Line>, k: nat)
    requires 0 < k < |lines| && EndsBlock(lines[k], lines[0].indent, IsDash(lines[0].text))
    ensures ParseBlock(lines, 0) == ParseBlock(lines[..k], 0)
  {
    BlockIgnores(lines, 0, k);
  }

  /** And only such a document loses lines: the parse is complete exactly when no line ends the top-level block. */
  lemma CompleteIff(lines: seq<Line>)
    requires lines != [] && ParseBlock(lines, 0).Ok?
    ensures ParseBlock(lines, 0).value.1 == |lines| <==>
      forall k :: 0 <= k < |lines| ==> !EndsBlock(lines[k], lines[0].indent, IsDash(lines[0].text))
  {
    hide ParseBlock;
  }
}
