/** What the invariant of concurrent bring-up comes to: crash safety, durability, confluence, progress. */
module BringUpTheorems {
  import opened Common
  import opened RunRecord
  import opened BringUp
  import opened BringUpInvariant

  // ---------------------------------------------------------------- crash safety

  /** Between `acquire` and the return of the `add_resource` call for handle `w`. */
  predicate InWindow(t: Thread, w: nat) {
    t.stage.Recording? && DoneRecords(t) <= w < |t.handles|
  }

  /** Worker `id.w` has its place in the list, and the file reaches that far. */
  predicate Recorded(s: Sys, id: Id) {
    && s.disk.Some? && id.pool in s.threads
    && id.w < |s.threads[id.pool].pos| && s.threads[id.pool].pos[id.w] < |s.disk.value.resources|
  }

  /**
   The teardown-first guarantee (state.py:1-3, orchestrator/README.md:9-11) and its exact
   limit: whatever crashes, a resource the provider holds for this run is on disk as
   something `down` will destroy if and only if the flushed list reaches its place; that
   is so for all but those whose thread was still recording them.
   */
  lemma CrashLosesNothing(c: Config, cloud0: map<Id, CloudRecord>, s: Sys, id: Id)
    requires WellFormed(c) && FreshRun(c, cloud0) && Reachable(c, cloud0, s)
    requires id in s.cloud && s.cloud[id].run == c.run
    ensures s.disk.Some? && id.pool in s.threads
    ensures ActiveOn(s.disk.value.resources, id) <==> Recorded(s, id)
    ensures HasId(s.disk.value.resources, id) <==> Recorded(s, id)
    ensures !InWindow(s.threads[id.pool], id.w) ==> Recorded(s, id)
  {
    hide Reachable, Locking, Verdicts, Results, Counting, LastWriter, Pools, PoolsFrom;
    ReachableInv(c, cloud0, s);
    var t := s.threads[id.pool];
    var rs := s.disk.value.resources;
    assert Handled(c, id.pool, t) && Staged(t);
    if !InWindow(t, id.w) {
      assert id.w < DoneRecords(t);
    }
    if Recorded(s, id) {
      var j := t.pos[id.w];
      assert Copied(s, rs, j) && PlacedAt(c, s, j);
    }
    forall j | 0 <= j < |rs| && rs[j].id == id ensures Recorded(s, id) {
      assert Copied(s, rs, j) && PlacedAt(c, s, j);
    }
  }

  /** In every configuration with a worker to create, a crash can lose it: right after `acquire` it is not on disk. */
  lemma LossHappens(c: Config, cloud0: map<Id, CloudRecord>, p: string, addrs: seq<string>) returns (s: Sys)
    requires WellFormed(c) && FreshRun(c, cloud0) && p in c.specs && c.specs[p].acquired.Granted?
    requires |addrs| == |c.specs[p].acquired.fates| > 0
    ensures Reachable(c, cloud0, s)
    ensures Id(p, c.run, 0) in s.cloud && s.cloud[Id(p, c.run, 0)].run == c.run
    ensures s.disk.Some? && !HasId(s.disk.value.resources, Id(p, c.run, 0))
  {
    var s0 := Init(c, cloud0);
    var s1 := Apply(c, s0, Persist);
    var s2 := Apply(c, s1, Initialise);
    var s3 := Apply(c, s2, Spawn(p));
    s := Apply(c, s3, Acquire(p, addrs));
    hide Apply, Enabled;
    var steps := [Persist, Initialise, Spawn(p), Acquire(p, addrs)];
    assert Runs(c, s, [], s);
    assert steps[3..][1..] == [] && steps[2..][1..] == steps[3..] && steps[1..][1..] == steps[2..];
    assert Runs(c, s3, steps[3..], s);
    assert Runs(c, s2, steps[2..], s);
    assert Runs(c, s1, steps[1..], s);
    assert Runs(c, s0, steps, s);
  }

  /** Every resource of the run carries the tag and the run id that `reap` looks for. */
  lemma RunIsTagged(c: Config, cloud0: map<Id, CloudRecord>, s: Sys, id: Id)
    requires WellFormed(c) && FreshRun(c, cloud0) && Reachable(c, cloud0, s) && id in s.cloud
    ensures s.cloud[id].run == c.run ==>
      id.pool in c.specs && s.cloud[id] == CloudRecord(c.specs[id.pool].provider, "gpuha-managed=" + c.run, c.run)
    ensures s.cloud[id].run == c.run <==> id !in cloud0
  {
    hide Reachable, Threads, Results, Starting, Placed, Positions, Pools, Disk, Locking, Counting, LastWriter;
    ReachableInv(c, cloud0, s);
  }

  lemma OthersAreKept(c: Config, cloud0: map<Id, CloudRecord>, s: Sys)
    requires WellFormed(c) && FreshRun(c, cloud0) && Reachable(c, cloud0, s)
    ensures forall id :: id in cloud0 ==> id in s.cloud && s.cloud[id] == cloud0[id]
  {
    hide Reachable, Threads, Results, Starting, Placed, Positions, Pools, Disk, Locking, Counting, LastWriter;
    ReachableInv(c, cloud0, s);
  }

  /** The run file exists before the first resource does (engine.py:33). */
  lemma PersistedBeforeCreate(c: Config, cloud0: map<Id, CloudRecord>, s: Sys)
    requires WellFormed(c) && FreshRun(c, cloud0) && Reachable(c, cloud0, s) && s.disk.None?
    ensures s.cloud == cloud0
  {
    hide Reachable, Locking, Verdicts, Results, Counting, LastWriter, Pools, PoolsFrom, Placed, Positions;
    ReachableInv(c, cloud0, s);
  }

  /** Nothing is on disk that the provider was not asked for. */
  lemma DiskRecordsAreReal(c: Config, cloud0: map<Id, CloudRecord>, s: Sys, j: nat)
    requires WellFormed(c) && FreshRun(c, cloud0) && Reachable(c, cloud0, s)
    requires s.disk.Some? && j < |s.disk.value.resources|
    ensures s.disk.value.resources[j].id in s.cloud && s.cloud[s.disk.value.resources[j].id].run == c.run
    ensures s.cloud[s.disk.value.resources[j].id].provider == s.disk.value.resources[j].provider
  {
    hide Reachable, Locking, Verdicts, Results, Counting, LastWriter, Pools, PoolsFrom, PoolsCover;
    ReachableInv(c, cloud0, s);
    assert Copied(s, s.disk.value.resources, j) && PlacedAt(c, s, j);
    var t := s.threads[s.mem.resources[j].id.pool];
    assert Handled(c, s.mem.resources[j].id.pool, t);
  }

  // ---------------------------------------------------------------- durability

  /** On disk, ids and events are prefixes of those in memory, although no snapshot is atomic. */
  lemma DiskIsPrefix(c: Config, cloud0: map<Id, CloudRecord>, s: Sys)
    requires WellFormed(c) && FreshRun(c, cloud0) && Reachable(c, cloud0, s) && s.disk.Some?
    ensures s.disk.value.events <= s.mem.events
    ensures |s.disk.value.resources| <= |s.mem.resources|
    ensures forall j :: 0 <= j < |s.disk.value.resources| ==> s.disk.value.resources[j].id == s.mem.resources[j].id
  {
    hide Reachable, Locking, Verdicts, Results, Counting, LastWriter, Pools, PoolsFrom, PoolsCover, Placed, Positions, Cloud;
    ReachableInv(c, cloud0, s);
    forall j | 0 <= j < |s.disk.value.resources|
      ensures s.disk.value.resources[j].id == s.mem.resources[j].id
    {
      assert Copied(s, s.disk.value.resources, j);
    }
  }

  /**
   Whatever a mutator that has returned did is on disk, also while the same thread is
   inside its next one: each added handle, in the state the thread last finished giving it
   or, at most, the one it is just giving; the published pool; and the flushed events.
   */
  lemma ReturnedMutatorsAreDurable(c: Config, cloud0: map<Id, CloudRecord>, s: Sys, p: string)
    requires WellFormed(c) && FreshRun(c, cloud0) && Reachable(c, cloud0, s) && p in s.threads
    ensures p in c.specs && DoneRecords(s.threads[p]) <= |s.threads[p].pos| <= |s.threads[p].handles|
    ensures s.disk.None? ==> s.threads[p] == NewThread()
    ensures s.disk.Some? ==> s.threads[p].flushed <= |s.disk.value.events|
    ensures s.disk.Some? ==> forall w :: 0 <= w < DoneRecords(s.threads[p]) ==>
      var (j, h) := (s.threads[p].pos[w], s.threads[p].handles[w]);
      && j < |s.disk.value.resources| && h.id == Id(p, c.run, w)
      && (|| s.disk.value.resources[j] == h.(state := StateAt(DoneMarks(s.threads[p]), w))
          || s.disk.value.resources[j] == h.(state := StateAt(s.threads[p].marks, w)))
    ensures s.disk.Some? && DonePublish(s.threads[p]) ==>
      && c.specs[p].backend in s.disk.value.pools
      && s.disk.value.pools[c.specs[p].backend] == FirstAddress(s.threads[p].handles)
  {
    hide Reachable, Locking, Verdicts, Results, LastWriter, Pools, PoolsFrom, Cloud, FirstAddress;
    ReachableInv(c, cloud0, s);
    var t := s.threads[p];
    assert Handled(c, p, t) && Staged(t);
    if s.disk.Some? {
      var d := s.disk.value.resources;
      forall w | 0 <= w < DoneRecords(t)
        ensures t.pos[w] < |d| && t.handles[w].id == Id(p, c.run, w)
        ensures d[t.pos[w]] == t.handles[w].(state := StateAt(DoneMarks(t), w)) || d[t.pos[w]] == t.handles[w].(state := StateAt(t.marks, w))
      {
        assert Copied(s, d, t.pos[w]) && PlacedAt(c, s, t.pos[w]);
      }
    }
  }

  /** Between two mutators there is no such latitude: the disk has exactly what the thread did. */
  lemma IdleThreadsAreOnDisk(c: Config, cloud0: map<Id, CloudRecord>, s: Sys, p: string, w: nat)
    requires WellFormed(c) && FreshRun(c, cloud0) && Reachable(c, cloud0, s)
    requires p in s.threads && s.threads[p].save.Idle? && w < |s.threads[p].pos|
    ensures s.disk.Some? && w < |s.threads[p].handles| && s.threads[p].pos[w] < |s.disk.value.resources|
    ensures s.disk.value.resources[s.threads[p].pos[w]] == s.threads[p].handles[w].(state := StateAt(s.threads[p].marks, w))
    ensures s.threads[p].logged <= |s.disk.value.events|
  {
    hide Reachable, Locking, Results, LastWriter, Pools, PoolsFrom, Cloud, FirstAddress;
    ReturnedMutatorsAreDurable(c, cloud0, s, p);
    ReachableInv(c, cloud0, s);
    hide Placed, Positions, Disk, Verdicts;
    assert Handled(c, p, s.threads[p]) && Staged(s.threads[p]);
  }

  /** No flush ever takes a recorded id or event off the disk again. */
  lemma DiskOnlyGrows(c: Config, cloud0: map<Id, CloudRecord>, s: Sys, step: Step)
    requires WellFormed(c) && FreshRun(c, cloud0) && Reachable(c, cloud0, s) && Enabled(c, s, step) && s.disk.Some?
    ensures s.threads.Keys == c.specs.Keys
    ensures var s' := Apply(c, s, step);
      && s'.disk.Some?
      && s.disk.value.events <= s'.disk.value.events
      && |s.disk.value.resources| <= |s'.disk.value.resources|
      && forall j :: 0 <= j < |s.disk.value.resources| ==> s'.disk.value.resources[j].id == s.disk.value.resources[j].id
  {
    hide Reachable, Verdicts, Results, Counting, LastWriter, Pools, Positions, Cloud, PoolsFrom, PoolsCover;
    ReachableInv(c, cloud0, s);
    if step.Write? {
      var v := s.threads[step.p].save;
      assert Snapshot(c, s, step.p);
      forall j | 0 <= j < |s.disk.value.resources| ensures j < |v.res| && v.res[j].id == s.disk.value.resources[j].id {
        assert Copied(s, s.disk.value.resources, j) && Copied(s, v.res, j);
      }
    }
  }

  // ---------------------------------------------------------------- after the join

  predicate AllFinished(s: Sys) {
    s.main.Spawning? && forall p :: p in s.threads ==> s.threads[p].stage.Finished?
  }

  /** What the main thread finds after joining, whatever the interleaving was. */
  ghost predicate Joined(c: Config, rec: Record, results: map<string, Outcome>) {
    && results.Keys == c.specs.Keys
    && (forall p :: p in c.specs ==> VerdictOf(results[p]) == Expected(c.specs[p]))
    && DistinctIds(rec.resources)
    && (forall b :: b in rec.pools ==> exists p :: ServesAs(c, results, p, b, rec.pools[b]))
    && (forall p :: p in c.specs ==> IsServed(c, rec, results, p))
    && (forall j :: 0 <= j < |rec.resources| ==> RecordedFor(c, rec.resources[j]))
    && (forall p, w: nat :: p in c.specs && c.specs[p].acquired.Granted? && w < |c.specs[p].acquired.fates| ==>
          HasId(rec.resources, Id(p, c.run, w)))
  }

  /** A pool that came up is wired, with its first non-empty address. */
  ghost predicate IsServed(c: Config, rec: Record, results: map<string, Outcome>, p: string)
    requires p in c.specs && p in results
  {
    results[p].PoolOk? ==>
      && c.specs[p].backend in rec.pools && rec.pools[c.specs[p].backend] == results[p].addr
      && IsFirstAddress(rec.resources, p, results[p].addr)
  }

  /** `a` is the address of the pool's first worker that has a non-empty one. */
  ghost predicate IsFirstAddress(rs: seq<Resource>, p: string, a: Option<string>) {
    match a
    case None => forall j :: 0 <= j < |rs| ==> rs[j].id.pool != p
    case Some(ip) =>
      if ip == "" then forall j :: 0 <= j < |rs| && rs[j].id.pool == p ==> rs[j].addr == ""
      else exists j :: 0 <= j < |rs| && rs[j].id.pool == p && rs[j].addr == ip && NoneBefore(rs, p, rs[j].id.w)
  }

  ghost predicate NoneBefore(rs: seq<Resource>, p: string, w: nat) {
    forall k :: 0 <= k < |rs| && rs[k].id.pool == p && rs[k].id.w < w ==> rs[k].addr == ""
  }

  ghost predicate ServesAs(c: Config, results: map<string, Outcome>, p: string, b: string, a: Option<string>) {
    p in c.specs && p in results && results[p] == PoolOk(a) && c.specs[p].backend == b
  }

  /** A recorded handle belongs to a granted pool and is in the state that pool's fates lead to. */
  ghost predicate RecordedFor(c: Config, r: Resource) {
    && r.id.run == c.run && r.id.pool in c.specs
    && var spec := c.specs[r.id.pool];
       && spec.acquired.Granted? && r.id.w < |spec.acquired.fates|
       && r.provider == spec.provider
       && r.state == StateAt(GoodCalls(spec.acquired.fates), r.id.w)
  }

  /** How many of the bootstrap and verify calls of one pool succeed before the first that fails. */
  function GoodCalls(fates: seq<Fate>): (n: nat)
    ensures n <= 2 * |fates|
    ensures n == 2 * |fates| <==> AllGood(fates)
    ensures forall w :: 0 <= w < |fates| ==> (2 * w < n ==> fates[w].boots) && (2 * w + 1 < n ==> fates[w].passes)
    ensures n < 2 * |fates| ==> FailsAt(fates, n)
  {
    if fates == [] then 0
    else
      var before := GoodCalls(fates[..|fates| - 1]);
      assert forall w :: 0 <= w < |fates| - 1 ==> fates[w] == fates[..|fates| - 1][w];
      if before < 2 * (|fates| - 1) then before
      else if !fates[|fates| - 1].boots then before
      else if !fates[|fates| - 1].passes then before + 1
      else before + 2
  }

  /** The calls a finished thread made are exactly those its specification lets through. */
  lemma MarksAreGoodCalls(c: Config, p: string, t: Thread)
    requires LocalOk(c, p, t) && t.stage.Finished? && c.specs[p].acquired.Granted?
    ensures t.marks == GoodCalls(c.specs[p].acquired.fates)
  {
    var fates := c.specs[p].acquired.fates;
    var n := GoodCalls(fates);
    assert t.stage.o.PoolOk? || t.stage.o.Errored?;
    assert 2 * (t.marks / 2) <= t.marks && 2 * (n / 2) <= n;
  }

  lemma JoinedRecord(c: Config, cloud0: map<Id, CloudRecord>, s: Sys, j: nat)
    requires Inv(c, cloud0, s) && AllFinished(s) && j < |s.mem.resources|
    ensures RecordedFor(c, s.mem.resources[j])
  {
    hide Locking, Verdicts, Results, Counting, LastWriter, Pools, Positions, Cloud, Disk, Staged, GoodCalls;
    assert PlacedAt(c, s, j);
    var p := s.mem.resources[j].id.pool;
    assert Handled(c, p, s.threads[p]);
    MarksAreGoodCalls(c, p, s.threads[p]);
  }

  lemma JoinedIds(c: Config, cloud0: map<Id, CloudRecord>, s: Sys)
    requires Inv(c, cloud0, s) && AllFinished(s)
    ensures DistinctIds(s.mem.resources)
    ensures forall p, w: nat :: p in c.specs && c.specs[p].acquired.Granted? && w < |c.specs[p].acquired.fates| ==>
      HasId(s.mem.resources, Id(p, c.run, w))
  {
    hide Locking, Verdicts, Results, Counting, LastWriter, Pools, Cloud, Disk;
    forall i, j | 0 <= i < j < |s.mem.resources| ensures s.mem.resources[i].id != s.mem.resources[j].id {
      assert PlacedAt(c, s, i) && PlacedAt(c, s, j);
    }
    forall p, w: nat | p in c.specs && c.specs[p].acquired.Granted? && w < |c.specs[p].acquired.fates|
      ensures HasId(s.mem.resources, Id(p, c.run, w))
    {
      var t := s.threads[p];
      assert Handled(c, p, t) && Staged(t);
      assert s.mem.resources[t.pos[w]].id == Id(p, c.run, w);
    }
  }

  lemma JoinedResults(c: Config, cloud0: map<Id, CloudRecord>, s: Sys)
    requires Inv(c, cloud0, s) && AllFinished(s)
    ensures s.results.Keys == c.specs.Keys
    ensures forall p :: p in c.specs ==> VerdictOf(s.results[p]) == Expected(c.specs[p])
    ensures forall p :: p in c.specs ==>
      (s.threads[p].published <==> s.results[p].PoolOk?)
      && (s.results[p].PoolOk? ==> s.results[p].addr == FirstAddress(s.threads[p].handles))
  {
    hide Locking, Counting, LastWriter, Pools, Cloud, Disk, Placed, Positions, Handled, Staged, Verdicts, Expected, FirstAddress;
    forall p | p in c.specs
      ensures p in s.results && VerdictOf(s.results[p]) == Expected(c.specs[p])
      ensures s.threads[p].published <==> s.results[p].PoolOk?
      ensures s.results[p].PoolOk? ==> s.results[p].addr == FirstAddress(s.threads[p].handles)
    {
      assert s.threads[p].stage.Finished?;
      FinishedResult(c, p, s.threads[p]);
    }
  }

  lemma FinishedResult(c: Config, p: string, t: Thread)
    requires p in c.specs && t.stage.Finished? && Handled(c, p, t) && Staged(t) && Verdicts(c, p, t)
    ensures VerdictOf(t.stage.o) == Expected(c.specs[p]) && (t.published <==> t.stage.o.PoolOk?)
    ensures t.stage.o.PoolOk? ==> t.stage.o.addr == FirstAddress(t.handles)
  {
    hide Handled, SeenGood, Expected, FirstAddress;
  }

  lemma JoinedPools(c: Config, cloud0: map<Id, CloudRecord>, s: Sys)
    requires Inv(c, cloud0, s) && AllFinished(s)
    ensures forall b :: b in s.mem.pools ==> exists p :: ServesAs(c, s.results, p, b, s.mem.pools[b])
    ensures s.results.Keys == c.specs.Keys
    ensures forall p :: p in c.specs && s.results[p].PoolOk? ==>
      c.specs[p].backend in s.mem.pools && s.mem.pools[c.specs[p].backend] == s.results[p].addr
  {
    hide Locking, Counting, LastWriter, Cloud, Disk, Placed, Positions, Handled, Staged, Verdicts, FirstAddress, Results;
    JoinedResults(c, cloud0, s);
    forall b | b in s.mem.pools ensures exists p :: ServesAs(c, s.results, p, b, s.mem.pools[b]) {
      var p :| WiredBy(c, s, p, b, s.mem.pools[b]);
      assert ServesAs(c, s.results, p, b, s.mem.pools[b]);
    }
  }

  lemma KeysOfThreads(c: Config, cloud0: map<Id, CloudRecord>, s: Sys)
    requires Inv(c, cloud0, s)
    ensures s.threads.Keys == c.specs.Keys
  {
  }

  lemma JoinedAddress(c: Config, cloud0: map<Id, CloudRecord>, s: Sys, p: string)
    requires Inv(c, cloud0, s) && AllFinished(s) && p in s.threads && s.threads[p].published
    ensures IsFirstAddress(s.mem.resources, p, FirstAddress(s.threads[p].handles))
  {
    hide Locking, Counting, LastWriter, Cloud, Disk, Pools, Verdicts, Results, FirstAddress;
    var rs := s.mem.resources;
    var hs := s.threads[p].handles;
    assert Handled(c, p, s.threads[p]) && Staged(s.threads[p]);
    forall j | 0 <= j < |rs| && rs[j].id.pool == p ensures rs[j].id.w < |hs| && rs[j].addr == hs[rs[j].id.w].addr {
      assert PlacedAt(c, s, j);
    }
    var a := FirstAddress(hs);
    if a.Some? && a.value != "" {
      var k :| 0 <= k < |hs| && hs[k].addr == a.value && forall i :: 0 <= i < k ==> hs[i].addr == "";
      var j := s.threads[p].pos[k];
      assert rs[j].id == Id(p, c.run, k);
      assert NoneBefore(rs, p, k);
    }
  }

  /**
   Every interleaving joins in the state its specifications determine: verdicts, wired
   backends, resource ids and resource states are functions of the configuration alone
   (engine.py:37-38, "a pool's failure must never abort siblings").
   */
  lemma BringUpIsConfluent(c: Config, cloud0: map<Id, CloudRecord>, s: Sys)
    requires WellFormed(c) && FreshRun(c, cloud0) && Reachable(c, cloud0, s) && AllFinished(s)
    ensures Joined(c, s.mem, s.results)
  {
    hide Reachable, Inv, AllFinished, ServesAs, RecordedFor, DistinctIds, HasId, IsFirstAddress;
    ReachableInv(c, cloud0, s);
    JoinedResults(c, cloud0, s);
    forall p | p in c.specs && s.results[p].PoolOk? ensures IsFirstAddress(s.mem.resources, p, s.results[p].addr) {
      KeysOfThreads(c, cloud0, s);
      JoinedAddress(c, cloud0, s, p);
    }
    JoinedPools(c, cloud0, s);
    JoinedIds(c, cloud0, s);
    forall j | 0 <= j < |s.mem.resources| ensures RecordedFor(c, s.mem.resources[j]) {
      JoinedRecord(c, cloud0, s, j);
    }
  }

  /** `rs` holds the same resource in the same state, perhaps at another address. */
  ghost predicate Listed(rs: seq<Resource>, r: Resource) {
    exists j :: 0 <= j < |rs| && rs[j].(addr := r.addr) == r
  }

  /** Two interleavings of the same bring-up, on whatever clouds, agree on everything but addresses and list order. */
  lemma InterleavingsAgree(c: Config, rec1: Record, results1: map<string, Outcome>,
                           rec2: Record, results2: map<string, Outcome>)
    requires WellFormed(c) && Joined(c, rec1, results1) && Joined(c, rec2, results2)
    ensures forall p :: p in c.specs ==> VerdictOf(results1[p]) == VerdictOf(results2[p])
    ensures rec1.pools.Keys == rec2.pools.Keys
    ensures forall i :: 0 <= i < |rec1.resources| ==> Listed(rec2.resources, rec1.resources[i])
    ensures |rec1.resources| == |rec2.resources|
  {
    PoolsAgree(c, rec1, results1, rec2, results2);
    PoolsAgree(c, rec2, results2, rec1, results1);
    ResourcesAgree(c, rec1, results1, rec2, results2);
    ResourcesAgree(c, rec2, results2, rec1, results1);
    SameIdSets(rec1.resources, rec2.resources);
  }

  lemma PoolsAgree(c: Config, rec1: Record, results1: map<string, Outcome>, rec2: Record, results2: map<string, Outcome>)
    requires Joined(c, rec1, results1) && Joined(c, rec2, results2)
    ensures rec1.pools.Keys <= rec2.pools.Keys
  {
    hide DistinctIds, HasId, RecordedFor, IsFirstAddress;
    forall b | b in rec1.pools ensures b in rec2.pools {
      var p :| ServesAs(c, results1, p, b, rec1.pools[b]);
      assert VerdictOf(results1[p]) == VerdictOf(results2[p]);
      assert IsServed(c, rec2, results2, p);
    }
  }

  lemma ResourcesAgree(c: Config, rec1: Record, results1: map<string, Outcome>, rec2: Record, results2: map<string, Outcome>)
    requires Joined(c, rec1, results1) && Joined(c, rec2, results2)
    ensures forall i :: 0 <= i < |rec1.resources| ==> Listed(rec2.resources, rec1.resources[i])
    ensures forall i :: 0 <= i < |rec1.resources| ==> HasId(rec2.resources, rec1.resources[i].id)
  {
    hide DistinctIds, ServesAs, GoodCalls, IsFirstAddress;
    forall i | 0 <= i < |rec1.resources|
      ensures HasId(rec2.resources, rec1.resources[i].id)
      ensures Listed(rec2.resources, rec1.resources[i])
    {
      var r := rec1.resources[i];
      assert RecordedFor(c, r);
      assert HasId(rec2.resources, Id(r.id.pool, c.run, r.id.w));
      var j :| 0 <= j < |rec2.resources| && rec2.resources[j].id == r.id;
      assert RecordedFor(c, rec2.resources[j]);
      assert rec2.resources[j].(addr := r.addr) == r;
    }
  }

  ghost function IdSet(rs: seq<Resource>): set<Id> {
    set j | 0 <= j < |rs| :: rs[j].id
  }

  lemma {:induction false} IdSetSize(rs: seq<Resource>)
    requires DistinctIds(rs)
    ensures |IdSet(rs)| == |rs|
  {
    if rs != [] {
      var init := rs[..|rs| - 1];
      var last := rs[|rs| - 1];
      IdSetSize(init);
      assert IdSet(rs) == IdSet(init) + {last.id} by {
        forall id | id in IdSet(rs) ensures id in IdSet(init) + {last.id} {
          var j :| 0 <= j < |rs| && rs[j].id == id;
          assert j < |init| ==> init[j].id == id;
        }
        forall id | id in IdSet(init) ensures id in IdSet(rs) {
          var j :| 0 <= j < |init| && init[j].id == id;
          assert rs[j].id == id;
        }
      }
      assert last.id !in IdSet(init);
    }
  }

  lemma SameIdSets(rs1: seq<Resource>, rs2: seq<Resource>)
    requires DistinctIds(rs1) && DistinctIds(rs2)
    requires forall i :: 0 <= i < |rs1| ==> HasId(rs2, rs1[i].id)
    requires forall i :: 0 <= i < |rs2| ==> HasId(rs1, rs2[i].id)
    ensures |rs1| == |rs2|
  {
    IdSetSize(rs1);
    IdSetSize(rs2);
    assert IdSet(rs1) == IdSet(rs2);
  }

  /** Isolation: a pool's verdict is settled by its own specification, whatever its siblings do. */
  lemma SiblingsDoNotMatter(c1: Config, c2: Config, p: string,
                            rec1: Record, results1: map<string, Outcome>, rec2: Record, results2: map<string, Outcome>)
    requires Joined(c1, rec1, results1) && Joined(c2, rec2, results2)
    requires p in c1.specs && p in c2.specs && c1.specs[p].acquired == c2.specs[p].acquired
    ensures VerdictOf(results1[p]) == VerdictOf(results2[p])
  {
    hide DistinctIds, HasId, RecordedFor, ServesAs, IsFirstAddress;
    assert VerdictOf(results1[p]) == Expected(c1.specs[p]);
  }

  /** When the threads have been joined the file holds exactly what memory holds. */
  lemma JoinedDiskIsMemory(c: Config, cloud0: map<Id, CloudRecord>, s: Sys)
    requires WellFormed(c) && FreshRun(c, cloud0) && Reachable(c, cloud0, s) && AllFinished(s)
    ensures s.disk == Some(s.mem)
  {
    hide Reachable, Inv;
    ReachableInv(c, cloud0, s);
    JoinedEvents(c, cloud0, s);
    JoinedResources(c, cloud0, s);
    JoinedDiskPools(c, cloud0, s);
  }

  lemma JoinedEvents(c: Config, cloud0: map<Id, CloudRecord>, s: Sys)
    requires Inv(c, cloud0, s) && AllFinished(s)
    ensures s.disk.Some? && s.disk.value.events == s.mem.events && s.disk.value.status == s.mem.status
  {
    hide Locking, Pools, Cloud, Placed, Positions, Handled, Verdicts, FirstAddress, Results, CopyOf, Covers, PoolsFrom,
      PoolsCover;
    if |s.mem.events| > 1 {
      var q :| q in s.threads && s.threads[q].logged == |s.mem.events|;
      assert s.threads[q].flushed <= |s.disk.value.events|;
    }
  }

  lemma JoinedResources(c: Config, cloud0: map<Id, CloudRecord>, s: Sys)
    requires Inv(c, cloud0, s) && AllFinished(s)
    ensures s.disk.Some? && s.disk.value.resources == s.mem.resources
  {
    hide Locking, Pools, Cloud, Positions, Handled, Verdicts, FirstAddress, Results, PoolsFrom, PoolsCover, Counting,
      LastWriter;
    var d := s.disk.value.resources;
    forall j | 0 <= j < |s.mem.resources| ensures j < |d| && d[j] == s.mem.resources[j] {
      assert PlacedAt(c, s, j);
      var r := s.mem.resources[j];
      assert s.threads[r.id.pool].stage.Finished?;
      assert r.id.w < DoneRecords(s.threads[r.id.pool]);
      assert Copied(s, d, j);
    }
    assert |d| <= |s.mem.resources|;
    if s.mem.resources != [] {
      var last := s.mem.resources[|s.mem.resources| - 1];
      assert |s.mem.resources| - 1 < |d|;
    }
  }

  lemma JoinedDiskPools(c: Config, cloud0: map<Id, CloudRecord>, s: Sys)
    requires Inv(c, cloud0, s) && AllFinished(s)
    ensures s.disk.Some? && s.disk.value.pools == s.mem.pools
  {
    hide Locking, Cloud, Placed, Positions, Handled, Verdicts, FirstAddress, Results, CopyOf, Covers, Counting, LastWriter;
    var d := s.disk.value.pools;
    forall b | b in d ensures b in s.mem.pools && s.mem.pools[b] == d[b] {
      var p :| WiredBy(c, s, p, b, d[b]);
      assert PoolsCover(c, s, s.mem.pools, p);
    }
    forall b | b in s.mem.pools ensures b in d {
      var p :| WiredBy(c, s, p, b, s.mem.pools[b]);
      assert DonePublish(s.threads[p]);
      assert PoolsCover(c, s, d, p);
    }
  }

  // ---------------------------------------------------------------- progress

  /** Some thread can always move: the flush lock never leaves everyone waiting. */
  lemma NoDeadlock(c: Config, cloud0: map<Id, CloudRecord>, s: Sys)
    requires WellFormed(c) && FreshRun(c, cloud0) && Reachable(c, cloud0, s) && !AllFinished(s)
    ensures exists step :: Enabled(c, s, step)
  {
    hide Reachable, Pools, Cloud, Placed, Positions, Verdicts, Results, Counting, LastWriter, Disk;
    ReachableInv(c, cloud0, s);
    if s.main.New? {
      assert Enabled(c, s, Persist);
    } else if s.main.Saved? {
      assert Enabled(c, s, Initialise);
    } else if s.lock.Some? {
      var h := s.lock.value;
      assert Snapshot(c, s, h);
      var v := s.threads[h].save;
      if |v.res| < v.n { assert Enabled(c, s, ReadOne(h)); }
      else if v.pools.None? { assert Enabled(c, s, ReadPools(h)); }
      else if v.events.None? { assert Enabled(c, s, ReadEvents(h)); }
      else { assert Enabled(c, s, Write(h)); }
    } else {
      var p :| p in s.threads && !s.threads[p].stage.Finished?;
      FreeThreadMoves(c, s, p);
    }
  }

  lemma FreeThreadMoves(c: Config, s: Sys, p: string)
    requires s.main.Spawning? && s.lock.None? && p in s.threads && !s.threads[p].stage.Finished?
    requires LocalOk(c, p, s.threads[p]) && !s.threads[p].save.Reading?
    ensures exists step :: Enabled(c, s, step)
  {
    hide Verdicts;
    var t := s.threads[p];
    if t.save.Logging? { assert Enabled(c, s, Append(p)); }
    else if t.save.Waiting? { assert Enabled(c, s, Lock(p)); }
    else if IsMutator(t.stage) { assert Enabled(c, s, Mutate(p)); }
    else {
      match t.stage {
        case Unborn => assert Enabled(c, s, Spawn(p));
        case Acquiring =>
          var addrs: seq<string> :=
            if c.specs[p].acquired.Granted? then seq(|c.specs[p].acquired.fates|, _ => "") else [];
          assert Enabled(c, s, Acquire(p, addrs));
        case Booting => assert Enabled(c, s, Boot(p));
        case Checking => assert Enabled(c, s, Check(p));
        case Reporting(_) => assert Enabled(c, s, Report(p));
      }
    }
  }

  function Workers(spec: Spec): nat {
    match spec.acquired
    case Granted(fates) => |fates|
    case _ => 0
  }

  /** Mutators and adapter calls a thread has still to make. */
  function CallsLeft(spec: Spec, t: Thread): int {
    var n := Workers(spec);
    match t.stage
    case Unborn => 6 + 5 * n
    case Acquiring => 5 + 5 * n
    case Recording => 4 + 5 * n - DoneRecords(t)
    case Booting => 4 + 2 * (2 * n - DoneMarks(t))
    case MarkingBoot => 3 + 2 * (2 * n - DoneMarks(t))
    case Checking => 4 + 2 * (2 * n - DoneMarks(t))
    case MarkingOk => 3 + 2 * (2 * n - DoneMarks(t))
    case Publishing => 2
    case Failing(_) => 2
    case Reporting(_) => 1
    case Finished(_) => 0
  }

  function PhasesLeft(t: Thread): nat {
    match t.save
    case Idle => 3
    case Logging(_) => 2
    case Waiting => 1
    case Reading(_, _, _, _) => 0
  }

  function ReadsLeft(t: Thread): int {
    match t.save
    case Reading(n, res, pools, events) =>
      n - |res| + (if pools.None? then 1 else 0) + (if events.None? then 1 else 0)
    case _ => 0
  }

  /** Lexicographic descent on (calls, phases, reads), none of them negative afterwards. */
  ghost predicate Descends(spec: Spec, t: Thread, t': Thread) {
    && CallsLeft(spec, t') >= 0 && ReadsLeft(t') >= 0
    && (|| CallsLeft(spec, t') < CallsLeft(spec, t)
        || (CallsLeft(spec, t') == CallsLeft(spec, t) && PhasesLeft(t') < PhasesLeft(t))
        || (CallsLeft(spec, t') == CallsLeft(spec, t) && PhasesLeft(t') == PhasesLeft(t) && ReadsLeft(t') < ReadsLeft(t)))
  }

  /** Every step of a thread brings that thread down and leaves the others where they are, so no run is infinite. */
  lemma StepsDescend(c: Config, cloud0: map<Id, CloudRecord>, s: Sys, step: Step)
    requires WellFormed(c) && FreshRun(c, cloud0) && Reachable(c, cloud0, s) && Enabled(c, s, step)
    requires !step.Persist? && !step.Initialise?
    ensures s.threads.Keys == c.specs.Keys && step.p in s.threads
    ensures var s' := Apply(c, s, step);
      && s'.threads == s.threads[step.p := s'.threads[step.p]]
      && Descends(c.specs[step.p], s.threads[step.p], s'.threads[step.p])
  {
    hide Reachable, Pools, Cloud, Placed, Positions, Verdicts, Results, Counting, LastWriter, Disk, Handled, Staged, Descends;
    ReachableInv(c, cloud0, s);
    var t := s.threads[step.p];
    if t.save.Reading? {
      assert Snapshot(c, s, step.p);
    }
    assert Verdicts(c, step.p, t);
    LocalDescent(c, s, step);
  }

  lemma LocalDescent(c: Config, s: Sys, step: Step)
    requires s.threads.Keys == c.specs.Keys && Enabled(c, s, step) && !step.Persist? && !step.Initialise?
    requires LocalOk(c, step.p, s.threads[step.p])
    requires s.threads[step.p].save.Reading? ==>
      |s.threads[step.p].save.res| <= s.threads[step.p].save.n
      && (s.threads[step.p].save.events.Some? ==> s.threads[step.p].save.pools.Some?)
    ensures s.threads.Keys == c.specs.Keys
    ensures Descends(c.specs[step.p], s.threads[step.p], Apply(c, s, step).threads[step.p])
  {
    hide SeenGood, Concludes, LocalOk, Apply, Descends;
    if s.threads[step.p].save.Idle? {
      WorkDescends(c, s, step);
    } else {
      FlushDescends(c, s, step);
    }
  }

  lemma WorkDescends(c: Config, s: Sys, step: Step)
    requires s.threads.Keys == c.specs.Keys && Enabled(c, s, step) && !step.Persist? && !step.Initialise?
    requires LocalOk(c, step.p, s.threads[step.p]) && s.threads[step.p].save.Idle?
    ensures Descends(c.specs[step.p], s.threads[step.p], Apply(c, s, step).threads[step.p])
  {
    hide SeenGood, Concludes, FirstAddress, CloudWith, MutateEvent, MutateMem, Handles;
  }

  lemma FlushDescends(c: Config, s: Sys, step: Step)
    requires s.threads.Keys == c.specs.Keys && Enabled(c, s, step) && !step.Persist? && !step.Initialise?
    requires LocalOk(c, step.p, s.threads[step.p]) && !s.threads[step.p].save.Idle?
    requires s.threads[step.p].save.Reading? ==>
      |s.threads[step.p].save.res| <= s.threads[step.p].save.n
      && (s.threads[step.p].save.events.Some? ==> s.threads[step.p].save.pools.Some?)
    ensures Descends(c.specs[step.p], s.threads[step.p], Apply(c, s, step).threads[step.p])
  {
    hide SeenGood, Concludes, FirstAddress, CloudWith, MutateEvent, MutateMem, Handles;
  }

  /**
   Quorum facts of engine.py:79-97: a wired backend belongs to a pool all of whose
   workers were recorded and verified, and it is wired with that pool's first
   non-empty address.
   */
  lemma WiredMeansVerified(c: Config, rec: Record, results: map<string, Outcome>, b: string)
    returns (p: string)
    requires WellFormed(c) && Joined(c, rec, results) && b in rec.pools
    ensures p in c.specs && c.specs[p].backend == b && results[p] == PoolOk(rec.pools[b])
    ensures IsFirstAddress(rec.resources, p, rec.pools[b])
    ensures c.specs[p].acquired.Granted?
    ensures forall w: nat :: w < |c.specs[p].acquired.fates| ==> HasId(rec.resources, Id(p, c.run, w))
    ensures forall j :: 0 <= j < |rec.resources| && rec.resources[j].id.pool == p ==> rec.resources[j].state == Verified
  {
    hide DistinctIds, HasId, IsFirstAddress;
    p :| ServesAs(c, results, p, b, rec.pools[b]);
    assert VerdictOf(results[p]) == Expected(c.specs[p]);
    assert IsServed(c, rec, results, p);
    forall j | 0 <= j < |rec.resources| && rec.resources[j].id.pool == p ensures rec.resources[j].state == Verified {
      assert RecordedFor(c, rec.resources[j]);
    }
  }

  /** What a crashed run leaves on disk still has pairwise different ids. */
  lemma DiskIdsDistinct(c: Config, cloud0: map<Id, CloudRecord>, s: Sys)
    requires WellFormed(c) && FreshRun(c, cloud0) && Reachable(c, cloud0, s) && s.disk.Some?
    ensures DistinctIds(s.disk.value.resources)
  {
    hide Reachable, Locking, Verdicts, Results, Counting, LastWriter, Pools, PoolsFrom, PoolsCover, Cloud;
    ReachableInv(c, cloud0, s);
    var d := s.disk.value.resources;
    forall i, j | 0 <= i < j < |d| ensures d[i].id != d[j].id {
      assert Copied(s, d, i) && Copied(s, d, j) && PlacedAt(c, s, i) && PlacedAt(c, s, j);
    }
  }
}
