/**
 "Silence = death" across both tiers: the router's selector, fed from its ingest by
 `sync_from_ingest`, and the DNS tier with its own ingest, over any run of frames,
 synchronisations, breaker trips and time.
 */
module Liveness {
  import opened Common
  import opened Telemetry
  import Selection
  import Tier1

  /**
   `log` is every frame delivered to the router's ingest with its arrival time, and
   `trips` when each breaker was last tripped.
   */
  datatype World = World(
    cfg: Selection.Config, now: real, router: Ingested, tier1: Ingested,
    workers: map<string, Selection.Worker>, log: seq<Arrival>, trips: map<string, real>)

  /** `Worker(id=wid, last_seen=0.0)` (router.py:26). */
  function NewWorker(id: string): Selection.Worker {
    Selection.Worker(id, 0.0, 100.0, 0, 1.0, 0.0, 0.0)
  }

  function Boot(cfg: Selection.Config, backends: set<string>, start: real): World {
    World(cfg, start, Ingested(map[], map[]), Ingested(map[], map[]), map id | id in backends :: NewWorker(id), [], map[])
  }

  datatype Happening =
    | Tick(dt: real)
    | Delivered(frame: Frame, toRouter: bool, toTier1: bool)
    | Sync
    | Trip(id: string)

  /** What `sync_from_ingest` copies from a view into a worker. */
  function Copied(w: Selection.Worker, v: NodeView): Selection.Worker {
    w.(vram := v.frame.vram, ttft := v.frame.ttft, queue := v.frame.queue, price := v.frame.price, lastSeen := v.received)
  }

  /** The worker's metrics and its time are those of the frame. */
  predicate Shows(w: Selection.Worker, f: Frame, received: real) {
    w.vram == f.vram && w.ttft == f.ttft && w.queue == f.queue && w.price == f.price && w.lastSeen == received
  }

  function Synced(workers: map<string, Selection.Worker>, nodes: map<string, NodeView>): map<string, Selection.Worker> {
    map id | id in workers :: if id in nodes then Copied(workers[id], nodes[id]) else workers[id]
  }

  function Next(w: World, h: Happening): World {
    match h
    case Tick(dt) => if dt >= 0.0 then w.(now := w.now + dt) else w
    case Delivered(f, toRouter, toTier1) =>
      var w1 := if toRouter then w.(router := Accept(w.router, f, w.now), log := w.log + [Arrival.Arrival(f, w.now)]) else w;
      if toTier1 then w1.(tier1 := Accept(w1.tier1, f, w1.now)) else w1
    case Sync => w.(workers := Synced(w.workers, w.router.nodes))
    case Trip(id) =>
      if id in w.workers then
        w.(workers := w.workers[id := w.workers[id].(brokenUntil := w.now + w.cfg.breakerCooldown)],
           trips := w.trips[id := w.now])
      else w
  }

  function RunAll(w: World, hs: seq<Happening>): World
    decreases |hs|
  {
    if hs == [] then w else RunAll(Next(w, hs[0]), hs[1..])
  }

  /** One pass of the loop at router.py:77-84 on the selector object; every backend has a worker from the start. */
  method SyncOnce(selector: Selection.WorkerSelector, nodes: map<string, NodeView>)
    requires selector.Valid()
    modifies selector
    ensures selector.Valid() && selector.workers == Synced(old(selector.workers), nodes)
    ensures selector.workers.Keys == old(selector.workers).Keys
    ensures forall id :: id in selector.workers ==>
      && selector.workers[id].id == old(selector.workers)[id].id
      && selector.workers[id].brokenUntil == old(selector.workers)[id].brokenUntil
      && (id !in nodes ==> selector.workers[id] == old(selector.workers)[id])
      && (id in nodes ==> Shows(selector.workers[id], nodes[id].frame, nodes[id].received))
  {
    ghost var before := selector.workers;
    var left := nodes.Keys;
    while left != {}
      invariant left <= nodes.Keys && selector.Valid() && selector.workers.Keys == before.Keys
      invariant forall id :: id in before ==>
        selector.workers[id] == if id in nodes && id !in left then Copied(before[id], nodes[id]) else before[id]
      decreases |left|
    {
      var id :| id in left;
      left := left - {id};
      if id in selector.workers {
        var f := nodes[id].frame;
        selector.UpdateTelemetry(id, f.vram, f.ttft, f.queue, f.price, nodes[id].received);
      }
    }
  }

  // ---------------------------------------------------------------- what every run keeps

  /** Some accepted frame of the node arrived at time `t`. */
  ghost predicate AcceptedAt(log: seq<Arrival>, node: string, t: real) {
    exists i :: 0 <= i < |log| && IsRecord(log, node, i) && log[i].now == t
  }

  ghost predicate Ordered(log: seq<Arrival>, now: real) {
    && (forall i, j :: 0 <= i < j < |log| ==> log[i].now <= log[j].now)
    && (forall i :: 0 <= i < |log| ==> log[i].now <= now)
  }

  ghost predicate SeenWhenAccepted(log: seq<Arrival>, w: Selection.Worker) {
    w.lastSeen == 0.0 || AcceptedAt(log, w.id, w.lastSeen)
  }

  ghost predicate BrokenSince(w: World, id: string)
    requires id in w.workers
  {
    w.workers[id].brokenUntil == if id in w.trips then w.trips[id] + w.cfg.breakerCooldown else 0.0
  }

  ghost predicate Keeps(w: World) {
    && w.router == RunFrames(w.log)
    && Ordered(w.log, w.now)
    && (forall id :: id in w.workers ==> w.workers[id].id == id)
    && (forall id :: id in w.workers ==> SeenWhenAccepted(w.log, w.workers[id]))
    && (forall id :: id in w.workers ==> BrokenSince(w, id))
    && (forall id :: id in w.trips ==> w.trips[id] <= w.now)
  }

  lemma AcceptedStays(log: seq<Arrival>, a: Arrival, node: string, t: real)
    requires AcceptedAt(log, node, t)
    ensures AcceptedAt(log + [a], node, t)
  {
    var longer := log + [a];
    assert longer[..|longer| - 1] == log;
    RecordsOfPrefix(longer, node);
    var i :| 0 <= i < |log| && IsRecord(log, node, i) && log[i].now == t;
    assert IsRecord(longer, node, i);
  }

  lemma ViewWasAccepted(log: seq<Arrival>, node: string)
    requires node in RunFrames(log).nodes
    ensures AcceptedAt(log, node, RunFrames(log).nodes[node].received)
  {
    ViewIsLastRecord(log, node);
  }

  lemma TickKeeps(w: World, dt: real)
    requires Keeps(w) && dt >= 0.0
    ensures Keeps(w.(now := w.now + dt))
  {
    hide SeenWhenAccepted, BrokenSince;
    SameBreakers(w, w.(now := w.now + dt));
  }

  lemma SameBreakers(w: World, w': World)
    requires w'.cfg == w.cfg && w'.trips == w.trips
    ensures forall id :: id in w.workers && id in w'.workers && w'.workers[id].brokenUntil == w.workers[id].brokenUntil
              ==> (BrokenSince(w, id) <==> BrokenSince(w', id))
  {
  }

  lemma LoggedKeeps(w: World, f: Frame)
    requires Keeps(w)
    ensures Keeps(w.(router := Accept(w.router, f, w.now), log := w.log + [Arrival.Arrival(f, w.now)]))
  {
    var a := Arrival.Arrival(f, w.now);
    var w' := w.(router := Accept(w.router, f, w.now), log := w.log + [a]);
    hide AcceptedAt, BrokenSince, Accept;
    assert (w.log + [a])[..|w.log + [a]| - 1] == w.log;
    assert w'.router == RunFrames(w'.log);
    SameBreakers(w, w');
    forall id | id in w.workers ensures SeenWhenAccepted(w'.log, w'.workers[id]) {
      assert SeenWhenAccepted(w.log, w.workers[id]);
      if w.workers[id].lastSeen != 0.0 {
        AcceptedStays(w.log, a, id, w.workers[id].lastSeen);
      }
    }
  }

  lemma SyncKeeps(w: World)
    requires Keeps(w)
    ensures Keeps(w.(workers := Synced(w.workers, w.router.nodes)))
  {
    var w' := w.(workers := Synced(w.workers, w.router.nodes));
    hide AcceptedAt, BrokenSince, Ordered;
    SameBreakers(w, w');
    forall id | id in w'.workers ensures SeenWhenAccepted(w.log, w'.workers[id]) {
      assert SeenWhenAccepted(w.log, w.workers[id]);
      if id in w.router.nodes {
        ViewWasAccepted(w.log, id);
      }
    }
  }

  lemma TripKeeps(w: World, id: string)
    requires Keeps(w) && id in w.workers
    ensures Keeps(Next(w, Trip(id)))
  {
    hide AcceptedAt, Ordered;
    var w' := Next(w, Trip(id));
    forall x | x in w'.workers ensures SeenWhenAccepted(w.log, w'.workers[x]) && BrokenSince(w', x) {
      assert SeenWhenAccepted(w.log, w.workers[x]) && BrokenSince(w, x);
    }
  }

  lemma Tier1DoesNotMatter(w: World, s: Ingested)
    requires Keeps(w)
    ensures Keeps(w.(tier1 := s))
  {
    hide SeenWhenAccepted, Ordered;
    SameBreakers(w, w.(tier1 := s));
  }

  lemma NextKeeps(w: World, h: Happening)
    requires Keeps(w)
    ensures Keeps(Next(w, h))
  {
    hide Keeps;
    match h {
      case Tick(dt) =>
        if dt >= 0.0 {
          TickKeeps(w, dt);
        }
      case Delivered(f, toRouter, toTier1) =>
        var w1 := if toRouter then w.(router := Accept(w.router, f, w.now), log := w.log + [Arrival.Arrival(f, w.now)]) else w;
        if toRouter {
          LoggedKeeps(w, f);
        }
        if toTier1 {
          Tier1DoesNotMatter(w1, Accept(w1.tier1, f, w1.now));
        }
      case Sync => SyncKeeps(w);
      case Trip(id) =>
        if id in w.workers {
          TripKeeps(w, id);
        }
    }
  }

  lemma {:induction false} RunKeeps(w: World, hs: seq<Happening>)
    requires Keeps(w)
    ensures Keeps(RunAll(w, hs))
    decreases |hs|
  {
    hide Keeps;
    if hs != [] {
      NextKeeps(w, hs[0]);
      RunKeeps(Next(w, hs[0]), hs[1..]);
    }
  }

  lemma {:induction false} ConfigStays(w: World, hs: seq<Happening>)
    ensures RunAll(w, hs).cfg == w.cfg && RunAll(w, hs).workers.Keys == w.workers.Keys
    decreases |hs|
  {
    if hs != [] {
      ConfigStays(Next(w, hs[0]), hs[1..]);
    }
  }

  /** The record with the highest number among the node's frames. */
  ghost predicate IsLast(log: seq<Arrival>, node: string, k: int) {
    && 0 <= k < |log| && IsRecord(log, node, k)
    && forall j :: 0 <= j < |log| && log[j].frame.node == node ==> log[j].frame.number <= log[k].frame.number
  }

  /**
   Over all runs: after a synchronisation a worker shows, metric by metric, the last record
   among its node's frames, and the worker of a node never heard from is as it was.
   */
  lemma SyncedShowsLastRecord(cfg: Selection.Config, backends: set<string>, start: real, hs: seq<Happening>, id: string)
    requires id in backends
    ensures var w := RunAll(Boot(cfg, backends, start), hs);
      var w' := Next(w, Sync);
      && id in w.workers && id in w'.workers
      && w'.workers[id].brokenUntil == w.workers[id].brokenUntil
      && (!Heard(w.log, id) ==> w'.workers[id] == w.workers[id])
      && (Heard(w.log, id) ==> exists k :: IsLast(w.log, id, k) && Shows(w'.workers[id], w.log[k].frame, w.log[k].now))
  {
    var w := RunAll(Boot(cfg, backends, start), hs);
    BootKeeps(cfg, backends, start);
    RunKeeps(Boot(cfg, backends, start), hs);
    ConfigStays(Boot(cfg, backends, start), hs);
    hide Keeps, IsRecord, Heard, Ordered, RunAll;
    KeepsFacts(w);
    assert w.workers.Keys == backends;
    ViewIsLastRecord(w.log, id);
    if Heard(w.log, id) {
      var v := w.router.nodes[id];
      var k :| 0 <= k < |w.log| && IsRecord(w.log, id, k) && v == NodeView(w.log[k].frame, w.log[k].now, w.log[k].frame.number)
        && forall j :: 0 <= j < |w.log| && w.log[j].frame.node == id ==> w.log[j].frame.number <= w.log[k].frame.number;
      assert IsLast(w.log, id, k);
    }
  }

  /** A worker known from nothing but its name has the defaults of the source and scores by them. */
  lemma UnheardScore(cfg: Selection.Config, backends: set<string>, start: real, id: string)
    requires id in backends
    ensures var w := Boot(cfg, backends, start).workers[id];
      w.id == id && w.lastSeen == 0.0 && w.brokenUntil == 0.0 && Selection.Score(Selection.DEFAULTS, w) == 0.9675
  {
    var w := NewWorker(id);
    hide Selection.Score;
    Selection.DefaultScore(w, 0.95, 1.0, 1.0, 0.8);
  }

  // ---------------------------------------------------------------- the router tier

  ghost predicate Eligible(w: World, id: string) {
    id in w.workers && Selection.IsEligible(w.cfg, w.workers[id], w.now)
  }

  /**
   Over all runs: once the clock has passed the freshness window, an eligible worker had
   an accepted frame within that window and its last breaker trip is a cooldown ago.
   */
  lemma EligibleMeansHeard(cfg: Selection.Config, backends: set<string>, start: real, hs: seq<Happening>, id: string)
    requires Eligible(RunAll(Boot(cfg, backends, start), hs), id)
    requires RunAll(Boot(cfg, backends, start), hs).now > cfg.telemetryFresh
    ensures var w := RunAll(Boot(cfg, backends, start), hs);
      && (exists t :: AcceptedAt(w.log, id, t) && w.now - cfg.telemetryFresh <= t <= w.now)
      && (id in w.trips ==> w.trips[id] + cfg.breakerCooldown <= w.now)
  {
    RunKeeps(Boot(cfg, backends, start), hs);
    ConfigStays(Boot(cfg, backends, start), hs);
    var w := RunAll(Boot(cfg, backends, start), hs);
    assert SeenWhenAccepted(w.log, w.workers[id]) && BrokenSince(w, id);
    assert AcceptedAt(w.log, id, w.workers[id].lastSeen);
  }

  /**
   Why the clock must have passed the window: a worker that was never heard from carries
   `last_seen=0.0`, so it is eligible exactly while the clock is within the window of zero.
   */
  lemma UnheardEligibleIff(cfg: Selection.Config, backends: set<string>, start: real, hs: seq<Happening>, id: string)
    requires id in backends && !Heard(RunAll(Boot(cfg, backends, start), hs).log, id)
    ensures var w := RunAll(Boot(cfg, backends, start), hs);
      Eligible(w, id) <==>
        w.now <= cfg.telemetryFresh && (if id in w.trips then w.trips[id] + cfg.breakerCooldown else 0.0) <= w.now
  {
    RunKeeps(Boot(cfg, backends, start), hs);
    ConfigStays(Boot(cfg, backends, start), hs);
    var w := RunAll(Boot(cfg, backends, start), hs);
    assert id in w.workers;
    assert SeenWhenAccepted(w.log, w.workers[id]) && BrokenSince(w, id);
    AcceptedIsHeard(w.log, id);
  }

  lemma AcceptedIsHeard(log: seq<Arrival>, node: string)
    ensures forall t :: AcceptedAt(log, node, t) ==> Heard(log, node)
  {
  }

  /** A run that starts at clock 1 and hears nothing has an eligible worker: silence is not yet death. */
  lemma SilentButEligible()
    ensures var w := RunAll(Boot(Selection.DEFAULTS, {"w1"}, 1.0), []);
      Eligible(w, "w1") && w.log == []
  {
  }

  // ---------------------------------------------------------------- both tiers

  predicate ToBoth(h: Happening) {
    h.Delivered? ==> h.toRouter == h.toTier1
  }

  lemma {:induction false} SameDelivery(w: World, hs: seq<Happening>)
    requires w.router == w.tier1 && forall i :: 0 <= i < |hs| ==> ToBoth(hs[i])
    ensures RunAll(w, hs).router == RunAll(w, hs).tier1
    decreases |hs|
  {
    if hs != [] {
      assert ToBoth(hs[0]);
      SameDelivery(Next(w, hs[0]), hs[1..]);
    }
  }

  /** The node's view is at least as recent as any frame ever accepted from it. */
  lemma ViewIsLatest(log: seq<Arrival>, now: real, node: string, t: real)
    requires Ordered(log, now) && AcceptedAt(log, node, t)
    ensures node in RunFrames(log).nodes && t <= RunFrames(log).nodes[node].received <= now
  {
    ViewIsLastRecord(log, node);
    var i :| 0 <= i < |log| && IsRecord(log, node, i) && log[i].now == t;
    assert log[i].frame.node == node;
    assert Heard(log, node);
    var v := RunFrames(log).nodes[node];
    var k :| 0 <= k < |log| && IsRecord(log, node, k) && v == NodeView(log[k].frame, log[k].now, log[k].frame.number)
      && forall j :: 0 <= j < |log| && log[j].frame.node == node ==> log[j].frame.number <= log[k].frame.number;
    assert log[i].frame.number <= log[k].frame.number;
    assert forall j :: i < j < |log| ==> log[i].now <= log[j].now;
  }

  /**
   The tiers agree: if both ingests were delivered the same frames, then whenever the
   router would still use a worker, the pool it last reported is in the DNS answer (whose
   window is the wider one), and the answer is not the failsafe.
   */
  lemma EligibleIsInAnswer(cfg: Selection.Config, backends: set<string>, start: real, hs: seq<Happening>, id: string,
                           order: seq<string>, window: real)
    requires forall i :: 0 <= i < |hs| ==> ToBoth(hs[i])
    requires Eligible(RunAll(Boot(cfg, backends, start), hs), id)
    requires cfg.telemetryFresh < RunAll(Boot(cfg, backends, start), hs).now && cfg.telemetryFresh <= window
    ensures var w := RunAll(Boot(cfg, backends, start), hs);
      && id in w.tier1.nodes
      && (w.tier1.nodes[id].frame.backend in order ==>
            var (pools, failsafe) := Tier1.CurrentPools(order, w.tier1, w.now, window);
            !failsafe && w.tier1.nodes[id].frame.backend in pools)
  {
    hide Keeps, Ordered, Eligible;
    var w := RunAll(Boot(cfg, backends, start), hs);
    EligibleMeansHeard(cfg, backends, start, hs, id);
    BootKeeps(cfg, backends, start);
    RunKeeps(Boot(cfg, backends, start), hs);
    SameDelivery(Boot(cfg, backends, start), hs);
    KeepsFacts(w);
    var t :| AcceptedAt(w.log, id, t) && w.now - cfg.telemetryFresh <= t <= w.now;
    ViewIsLatest(w.log, w.now, id, t);
    var b := w.tier1.nodes[id].frame.backend;
    assert b in FreshBackends(w.tier1, w.now, window);
    if b in order {
      assert b in Tier1.Members(order, FreshBackends(w.tier1, w.now, window));
    }
  }

  lemma BootKeeps(cfg: Selection.Config, backends: set<string>, start: real)
    ensures Keeps(Boot(cfg, backends, start))
  {
  }

  lemma KeepsFacts(w: World)
    requires Keeps(w)
    ensures w.router == RunFrames(w.log) && Ordered(w.log, w.now)
  {
  }
}
