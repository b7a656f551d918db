/** telemetry.py: the sequence-filtered ingest both tiers share, and its loss accounting. */
module Telemetry {
  import opened Common

  const FRAME_VERSION := 1

  /** `number` is the frame's `seq` field. */
  datatype Frame = Frame(
    node: string, backend: string, number: int,
    vram: real, ttft: real, queue: int, price: real)

  /**
   A received datagram: not JSON, JSON but no object, or an object with its `v` field and,
   when every required field is there, the frame.
   */
  datatype Datagram = NotJson | NotObject | Json(version: Option<int>, frame: Option<Frame>)

  /** `from_bytes`: a `ValueError`, which `ingest` swallows, or another exception, which it lets through. */
  datatype Parsed = Good(frame: Frame) | Malformed | Misfit

  function FromBytes(d: Datagram): Parsed {
    match d
    case NotJson => Malformed
    case NotObject => Misfit
    case Json(version, frame) =>
      if version.None? || version.value > FRAME_VERSION then Malformed
      else if frame.None? then Misfit
      else Good(frame.value)
  }

  datatype NodeView = NodeView(frame: Frame, received: real, lastSeq: int)

  datatype Ingested = Ingested(nodes: map<string, NodeView>, dropped: map<string, int>)

  function Dropped(s: Ingested, node: string): int {
    if node in s.dropped then s.dropped[node] else 0
  }

  /** The effect of one well-formed frame. */
  function Accept(s: Ingested, f: Frame, now: real): Ingested {
    if f.node !in s.nodes then s.(nodes := s.nodes[f.node := NodeView(f, now, f.number)])
    else
      var last := s.nodes[f.node].lastSeq;
      if f.number <= last then s
      else
        var gap := f.number - last - 1;
        Ingested(s.nodes[f.node := NodeView(f, now, f.number)],
                 if gap > 0 then s.dropped[f.node := Dropped(s, f.node) + gap] else s.dropped)
  }

  /** `return None`, `return prev` or `return view`, or the exception. */
  datatype Reply = Nothing | Seen(view: NodeView) | Raised

  class TelemetryIngest {
    var nodes: map<string, NodeView>
    var dropped: map<string, int>

    function View(): Ingested
      reads this
    {
      Ingested(nodes, dropped)
    }

    constructor ()
      ensures View() == Ingested(map[], map[])
    {
      nodes, dropped := map[], map[];
    }

    method Ingest(d: Datagram, now: real) returns (r: Reply)
      modifies this
      ensures d.Json? && d.version.Some? && d.version.value <= 1 && d.frame.Some? ==>
        && View() == Accept(old(View()), d.frame.value, now)
        && d.frame.value.node in nodes && r == Seen(nodes[d.frame.value.node])
      ensures d.NotJson? || (d.Json? && (d.version.None? || d.version.value > 1)) ==>
        View() == old(View()) && r == Nothing
      ensures d.NotObject? || (d.Json? && d.version.Some? && d.version.value <= 1 && d.frame.None?) ==>
        View() == old(View()) && r == Raised
    {
      var p := FromBytes(d);
      if !p.Good? {
        return if p.Misfit? then Raised else Nothing;
      }
      var frame := p.frame;
      if frame.node in nodes {
        var prev := nodes[frame.node];
        var gap := frame.number - prev.lastSeq - 1;
        if gap > 0 {
          dropped := dropped[frame.node := (if frame.node in dropped then dropped[frame.node] else 0) + gap];
        }
        if frame.number <= prev.lastSeq {
          return Seen(prev);
        }
      }
      nodes := nodes[frame.node := NodeView(frame, now, frame.number)];
      return Seen(nodes[frame.node]);
    }
  }

  // ---------------------------------------------------------------- freshness

  predicate IsFresh(v: NodeView, now: real, maxAge: real) {
    now - v.received <= maxAge
  }

  function FreshBackends(s: Ingested, now: real, maxAge: real): set<string> {
    set n | n in s.nodes && IsFresh(s.nodes[n], now, maxAge) :: s.nodes[n].frame.backend
  }

  // ---------------------------------------------------------------- accounting over a stream

  datatype Arrival = Arrival(frame: Frame, now: real)

  function RunFrames(fs: seq<Arrival>): Ingested {
    if fs == [] then Ingested(map[], map[])
    else Accept(RunFrames(fs[..|fs| - 1]), fs[|fs| - 1].frame, fs[|fs| - 1].now)
  }

  /** Arrival `i` is of this node and carries a larger number than every earlier one of the node. */
  ghost predicate IsRecord(fs: seq<Arrival>, node: string, i: nat)
    requires i < |fs|
  {
    fs[i].frame.node == node && forall j :: 0 <= j < i && fs[j].frame.node == node ==> fs[j].frame.number < fs[i].frame.number
  }

  ghost predicate Heard(fs: seq<Arrival>, node: string) {
    exists i :: 0 <= i < |fs| && fs[i].frame.node == node
  }

  /** The numbers accepted from a node: those of its strict running maxima. */
  ghost function Numbers(fs: seq<Arrival>, node: string): set<int> {
    set i | 0 <= i < |fs| && IsRecord(fs, node, i) :: fs[i].frame.number
  }

  /** The number of the node's first arrival. */
  function First(fs: seq<Arrival>, node: string): int {
    if fs == [] then 0 else if fs[0].frame.node == node then fs[0].frame.number else First(fs[1..], node)
  }

  function Range(lo: int, hi: int): (qs: set<int>)
    ensures forall q :: q in qs <==> lo <= q <= hi
    ensures lo <= hi + 1 ==> |qs| == hi - lo + 1
    decreases hi - lo
  {
    if lo <= hi then Range(lo, hi - 1) + {hi} else {}
  }

  /** The ingest keeps exactly the node's last strict running maximum, and when that one arrived. */
  ghost predicate KeepsLastRecord(fs: seq<Arrival>, node: string, v: NodeView) {
    exists i :: 0 <= i < |fs| && IsRecord(fs, node, i) && v == NodeView(fs[i].frame, fs[i].now, fs[i].frame.number)
      && forall j :: 0 <= j < |fs| && fs[j].frame.node == node ==> fs[j].frame.number <= fs[i].frame.number
  }

  lemma RecordsOfPrefix(fs: seq<Arrival>, node: string)
    requires fs != []
    ensures forall i :: 0 <= i < |fs| - 1 ==> (IsRecord(fs[..|fs| - 1], node, i) <==> IsRecord(fs, node, i))
  {
    var init := fs[..|fs| - 1];
    forall i | 0 <= i < |init| ensures IsRecord(init, node, i) <==> IsRecord(fs, node, i) {
      assert forall j :: 0 <= j <= i ==> init[j] == fs[j];
    }
  }

  lemma NumbersGrow(fs: seq<Arrival>, node: string)
    requires fs != []
    ensures Numbers(fs, node) == Numbers(fs[..|fs| - 1], node)
      + (if IsRecord(fs, node, |fs| - 1) then {fs[|fs| - 1].frame.number} else {})
  {
    RecordsOfPrefix(fs, node);
    var init := fs[..|fs| - 1];
    forall q | q in Numbers(fs, node)
      ensures q in Numbers(init, node) || (IsRecord(fs, node, |fs| - 1) && q == fs[|fs| - 1].frame.number)
    {
      var i :| 0 <= i < |fs| && IsRecord(fs, node, i) && q == fs[i].frame.number;
      assert i < |init| ==> IsRecord(init, node, i);
    }
    forall q | q in Numbers(init, node) ensures q in Numbers(fs, node) {
      var i :| 0 <= i < |init| && IsRecord(init, node, i) && q == init[i].frame.number;
      assert IsRecord(fs, node, i);
    }
  }

  lemma {:induction false} FirstOfPrefix(fs: seq<Arrival>, node: string)
    requires fs != [] && Heard(fs[..|fs| - 1], node)
    ensures First(fs, node) == First(fs[..|fs| - 1], node)
  {
    var init := fs[..|fs| - 1];
    if fs[0].frame.node != node {
      var i :| 0 <= i < |init| && init[i].frame.node == node;
      assert fs[1..][..|fs[1..]| - 1] == init[1..];
      assert init[1..][i - 1].frame.node == node;
      FirstOfPrefix(fs[1..], node);
    }
  }

  lemma {:induction false} FirstOfSuffix(fs: seq<Arrival>, node: string)
    requires fs != [] && fs[|fs| - 1].frame.node == node && !Heard(fs[..|fs| - 1], node)
    ensures First(fs, node) == fs[|fs| - 1].frame.number
  {
    if |fs| > 1 {
      var init := fs[..|fs| - 1];
      assert init[0].frame.node != node;
      assert fs[1..][..|fs[1..]| - 1] == init[1..];
      forall i | 0 <= i < |init[1..]| ensures init[1..][i].frame.node != node {
        assert init[i + 1].frame.node != node;
      }
      FirstOfSuffix(fs[1..], node);
    }
  }

  lemma KeepOld(fs: seq<Arrival>, node: string, v: NodeView)
    requires fs != [] && KeepsLastRecord(fs[..|fs| - 1], node, v)
    requires !(fs[|fs| - 1].frame.node == node && fs[|fs| - 1].frame.number > v.lastSeq)
    ensures KeepsLastRecord(fs, node, v)
  {
    var init := fs[..|fs| - 1];
    RecordsOfPrefix(fs, node);
    hide IsRecord;
    var i :| 0 <= i < |init| && IsRecord(init, node, i) && v == NodeView(init[i].frame, init[i].now, init[i].frame.number)
      && forall j :: 0 <= j < |init| && init[j].frame.node == node ==> init[j].frame.number <= init[i].frame.number;
    forall j | 0 <= j < |fs| && fs[j].frame.node == node ensures fs[j].frame.number <= fs[i].frame.number {
      if j < |init| {
        assert init[j] == fs[j];
      }
    }
    assert IsRecord(fs, node, i) && fs[i] == init[i];
  }

  lemma KeepNew(fs: seq<Arrival>, node: string)
    requires fs != [] && fs[|fs| - 1].frame.node == node && IsRecord(fs, node, |fs| - 1)
    ensures KeepsLastRecord(fs, node, NodeView(fs[|fs| - 1].frame, fs[|fs| - 1].now, fs[|fs| - 1].frame.number))
  {
  }

  lemma HeardOfPrefix(fs: seq<Arrival>, node: string)
    requires fs != []
    ensures Heard(fs, node) <==> Heard(fs[..|fs| - 1], node) || fs[|fs| - 1].frame.node == node
    ensures !Heard(fs[..|fs| - 1], node) && fs[|fs| - 1].frame.node == node ==> IsRecord(fs, node, |fs| - 1)
  {
    var init := fs[..|fs| - 1];
    assert forall j :: 0 <= j < |init| ==> init[j] == fs[j];
    if Heard(init, node) {
      var k :| 0 <= k < |init| && init[k].frame.node == node;
      assert fs[k].frame.node == node;
    }
  }

  lemma {:induction false} ViewIsLastRecord(fs: seq<Arrival>, node: string)
    ensures node in RunFrames(fs).nodes <==> Heard(fs, node)
    ensures node in RunFrames(fs).nodes ==> KeepsLastRecord(fs, node, RunFrames(fs).nodes[node])
  {
    if fs != [] {
      hide IsRecord, KeepsLastRecord, Heard;
      var init := fs[..|fs| - 1];
      var last := fs[|fs| - 1];
      ViewIsLastRecord(init, node);
      HeardOfPrefix(fs, node);
      if Heard(init, node) {
        BeatsAll(fs, node);
        var v := RunFrames(init).nodes[node];
        if last.frame.node == node && last.frame.number > v.lastSeq {
          KeepNew(fs, node);
        } else {
          KeepOld(fs, node, v);
        }
      } else if last.frame.node == node {
        KeepNew(fs, node);
      }
    }
  }

  lemma SplitCount(range: set<int>, part: set<int>)
    requires part <= range
    ensures |part| + |range - part| == |range|
  {
    assert range == part + (range - part);
  }

  /**
   Loss accounting over any stream with loss, duplication and reordering: what was
   accepted and what was counted as dropped make up the whole range from the first to
   the last number, and `dropped` counts exactly the numbers never accepted.
   */
  lemma {:induction false} Accounting(fs: seq<Arrival>, node: string)
    requires Heard(fs, node)
    ensures node in RunFrames(fs).nodes
    ensures Balanced(fs, node, RunFrames(fs).nodes[node].lastSeq)
    ensures |Numbers(fs, node)| + Dropped(RunFrames(fs), node) == RunFrames(fs).nodes[node].lastSeq - First(fs, node) + 1
    decreases |fs|
  {
    assert fs != [];
    hide IsRecord, KeepsLastRecord, Numbers, Heard;
    var init := fs[..|fs| - 1];
    HeardOfPrefix(fs, node);
    ViewIsLastRecord(fs, node);
    ViewIsLastRecord(init, node);
    if Heard(init, node) {
      Accounting(init, node);
      FirstOfPrefix(fs, node);
      LastArrival(fs, node);
    } else {
      FirstOfSuffix(fs, node);
      NothingBefore(fs, node);
    }
    SplitCount(Range(First(fs, node), RunFrames(fs).nodes[node].lastSeq), Numbers(fs, node));
  }

  /** The accepted numbers lie between the first and the last one, and the others in between are counted as dropped. */
  ghost predicate Balanced(fs: seq<Arrival>, node: string, last: int) {
    && First(fs, node) <= last && last in Numbers(fs, node)
    && Numbers(fs, node) <= Range(First(fs, node), last)
    && Dropped(RunFrames(fs), node) == |Range(First(fs, node), last) - Numbers(fs, node)|
  }

  lemma NothingBefore(fs: seq<Arrival>, node: string)
    requires fs != [] && fs[|fs| - 1].frame.node == node && !Heard(fs[..|fs| - 1], node)
    requires node !in RunFrames(fs[..|fs| - 1]).nodes && First(fs, node) == fs[|fs| - 1].frame.number
    ensures Balanced(fs, node, fs[|fs| - 1].frame.number)
  {
    var init := fs[..|fs| - 1];
    NumbersGrow(fs, node);
    NoDrops(init, node);
    HeardOfPrefix(fs, node);
    assert Numbers(init, node) == {};
    var x := fs[|fs| - 1].frame.number;
    assert Range(x, x) - {x} == {};
  }

  lemma {:induction false} NoDrops(fs: seq<Arrival>, node: string)
    requires node !in RunFrames(fs).nodes
    ensures node !in RunFrames(fs).dropped
  {
    if fs != [] {
      NoDrops(fs[..|fs| - 1], node);
    }
  }

  lemma LastArrival(fs: seq<Arrival>, node: string)
    requires fs != [] && node in RunFrames(fs[..|fs| - 1]).nodes && node in RunFrames(fs).nodes
    requires KeepsLastRecord(fs[..|fs| - 1], node, RunFrames(fs[..|fs| - 1]).nodes[node])
    requires First(fs, node) == First(fs[..|fs| - 1], node)
    requires Balanced(fs[..|fs| - 1], node, RunFrames(fs[..|fs| - 1]).nodes[node].lastSeq)
    ensures Balanced(fs, node, RunFrames(fs).nodes[node].lastSeq)
  {
    hide IsRecord, KeepsLastRecord, Numbers, Range;
    var init := fs[..|fs| - 1];
    var f := fs[|fs| - 1].frame;
    var last := RunFrames(init).nodes[node].lastSeq;
    NumbersGrow(fs, node);
    BeatsAll(fs, node);
    if f.node == node && f.number > last {
      NewGap(First(fs, node), last, f.number, Numbers(init, node));
    }
  }

  /** A new highest number accounts for itself and adds the numbers it skipped to those missing. */
  lemma NewGap(lo: int, last: int, x: int, seen: set<int>)
    requires lo <= last < x && seen <= Range(lo, last)
    ensures seen + {x} <= Range(lo, x)
    ensures |Range(lo, x) - (seen + {x})| == |Range(lo, last) - seen| + (x - last - 1)
  {
    hide Range;
    var lost, gap, missing := Range(lo, last) - seen, Range(last + 1, x - 1), Range(lo, x) - (seen + {x});
    assert lost !! gap;
    forall q ensures q in missing <==> q in lost + gap {
    }
    assert missing == lost + gap;
  }

  /** The last arrival is a record exactly when it beats the view. */
  lemma BeatsAll(fs: seq<Arrival>, node: string)
    requires fs != [] && node in RunFrames(fs[..|fs| - 1]).nodes
    requires KeepsLastRecord(fs[..|fs| - 1], node, RunFrames(fs[..|fs| - 1]).nodes[node])
    ensures IsRecord(fs, node, |fs| - 1) <==>
      fs[|fs| - 1].frame.node == node && fs[|fs| - 1].frame.number > RunFrames(fs[..|fs| - 1]).nodes[node].lastSeq
  {
    var init := fs[..|fs| - 1];
    assert forall j :: 0 <= j < |init| ==> init[j] == fs[j];
  }

  /** A duplicate or late frame changes nothing at all, so it renews nobody's freshness. */
  lemma LateFramesAreIgnored(fs: seq<Arrival>, late: Arrival, j: nat)
    requires j < |fs| && fs[j].frame.node == late.frame.node && late.frame.number <= fs[j].frame.number
    ensures RunFrames(fs + [late]) == RunFrames(fs)
  {
    assert (fs + [late])[..|fs + [late]| - 1] == fs;
    ViewIsLastRecord(fs, late.frame.node);
  }

  // ---------------------------------------------------------------- a stream of datagrams

  datatype Received = Received(datagram: Datagram, now: real)

  /** The frames of a stream: those of version at most 1 that are complete. */
  function Arrivals(ds: seq<Received>): seq<Arrival> {
    if ds == [] then []
    else
      var d := ds[|ds| - 1].datagram;
      Arrivals(ds[..|ds| - 1])
      + if d.Json? && d.version.Some? && d.version.value <= 1 && d.frame.Some?
        then [Arrival(d.frame.value, ds[|ds| - 1].now)] else []
  }

  /** The receiving loop: an exception is logged by the caller and the loop goes on. */
  method IngestAll(ingest: TelemetryIngest, ds: seq<Received>)
    requires ingest.View() == Ingested(map[], map[])
    modifies ingest
    ensures ingest.View() == RunFrames(Arrivals(ds))
  {
    var i := 0;
    while i < |ds|
      invariant 0 <= i <= |ds| && ingest.View() == RunFrames(Arrivals(ds[..i]))
    {
      var _ := ingest.Ingest(ds[i].datagram, ds[i].now);
      assert ds[..i + 1][..i] == ds[..i];
      ArrivalsGrow(ds[..i + 1]);
      i := i + 1;
    }
    assert ds[..i] == ds;
  }

  lemma ArrivalsGrow(ds: seq<Received>)
    requires ds != []
    ensures var d := ds[|ds| - 1].datagram;
      RunFrames(Arrivals(ds)) ==
        if d.Json? && d.version.Some? && d.version.value <= 1 && d.frame.Some?
        then Accept(RunFrames(Arrivals(ds[..|ds| - 1])), d.frame.value, ds[|ds| - 1].now)
        else RunFrames(Arrivals(ds[..|ds| - 1]))
  {
    hide Accept;
    var before, all := Arrivals(ds[..|ds| - 1]), Arrivals(ds);
    if all != before {
      assert all[..|all| - 1] == before;
    }
  }

  /**
   Accounting and freshness over any stream of datagrams: a node is known exactly when a
   complete frame of a supported version came from it, its view is the last strict running
   maximum of those, and accepted and dropped make up the range from first to last number.
   */
  lemma DatagramAccounting(ds: seq<Received>, node: string)
    ensures node in RunFrames(Arrivals(ds)).nodes <==>
      exists i :: 0 <= i < |Arrivals(ds)| && Arrivals(ds)[i].frame.node == node
    ensures node in RunFrames(Arrivals(ds)).nodes ==>
      && KeepsLastRecord(Arrivals(ds), node, RunFrames(Arrivals(ds)).nodes[node])
      && |Numbers(Arrivals(ds), node)| + Dropped(RunFrames(Arrivals(ds)), node)
         == RunFrames(Arrivals(ds)).nodes[node].lastSeq - First(Arrivals(ds), node) + 1
  {
    hide KeepsLastRecord, Numbers, First;
    ViewIsLastRecord(Arrivals(ds), node);
    if Heard(Arrivals(ds), node) {
      Accounting(Arrivals(ds), node);
    }
  }
}
