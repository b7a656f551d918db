/** The invariant of the bring-up system and its preservation by every step. */
module BringUpInvariant {
  import opened Common
  import opened RunRecord
  import opened BringUp

  // ---------------------------------------------------------------- what a thread has completed

  /** Handles whose `add_resource` has returned. */
  function DoneRecords(t: Thread): nat {
    if t.stage.Recording? && !t.save.Idle? && |t.pos| > 0 then |t.pos| - 1 else |t.pos|
  }

  /** State changes whose `update_resource` has returned. */
  function DoneMarks(t: Thread): nat {
    if (t.stage.MarkingBoot? || t.stage.MarkingOk?) && !t.save.Idle? && t.marks > 0 then t.marks - 1 else t.marks
  }

  predicate DonePublish(t: Thread) {
    t.published && !t.stage.Publishing?
  }

  // ---------------------------------------------------------------- one thread on its own

  predicate AllGood(fates: seq<Fate>) {
    forall w :: 0 <= w < |fates| ==> fates[w].boots && fates[w].passes
  }

  /** What the pool's own specification says its bring-up comes to. */
  datatype Verdict = Serves | Lacks | Breaks

  function Expected(spec: Spec): Verdict {
    match spec.acquired
    case NoCapacity => Lacks
    case Refused => Breaks
    case Granted(fates) => if AllGood(fates) then Serves else Breaks
  }

  function VerdictOf(o: Outcome): Verdict {
    match o
    case PoolOk(_) => Serves
    case OutOfCapacity => Lacks
    case Errored => Breaks
  }

  ghost predicate Handled(c: Config, p: string, t: Thread) {
    && p in c.specs
    && (t.handles != [] ==> c.specs[p].acquired.Granted?)
    && (forall w :: 0 <= w < |t.handles| ==>
          && t.handles[w].id == Id(p, c.run, w) && t.handles[w].provider == c.specs[p].provider
          && t.handles[w].state.Created?)
    && |t.pos| <= |t.handles|
    && t.marks <= 2 * |t.pos|
    && (t.stage.Unborn? || t.stage.Acquiring? ==> t.handles == [] && t.save.Idle?)
    && (!t.stage.Unborn? && !t.stage.Acquiring? && c.specs[p].acquired.Granted? ==>
          |t.handles| == |c.specs[p].acquired.fates|)
  }

  /** Every fate the thread has seen so far was good. */
  ghost predicate SeenGood(c: Config, p: string, t: Thread)
    requires p in c.specs
  {
    c.specs[p].acquired.Granted? ==>
      var fates := c.specs[p].acquired.fates;
      forall w :: 0 <= w < |fates| ==> (2 * w < t.marks ==> fates[w].boots) && (2 * w + 1 < t.marks ==> fates[w].passes)
  }

  predicate Staged(t: Thread) {
    match t.stage
    case Unborn => !t.published && t.save.Idle?
    case Acquiring => !t.published && t.save.Idle?
    case Recording =>
      !t.published && t.marks == 0 && (if t.save.Idle? then |t.pos| < |t.handles| else |t.pos| > 0)
    case Booting =>
      !t.published && t.save.Idle? && |t.pos| == |t.handles| && t.marks % 2 == 0 && t.marks < 2 * |t.handles|
    case MarkingBoot =>
      !t.published && |t.pos| == |t.handles|
      && (if t.save.Idle? then t.marks % 2 == 0 && t.marks < 2 * |t.handles| else t.marks % 2 == 1)
    case Checking => !t.published && t.save.Idle? && |t.pos| == |t.handles| && t.marks % 2 == 1
    case MarkingOk =>
      !t.published && |t.pos| == |t.handles| && (if t.save.Idle? then t.marks % 2 == 1 else t.marks % 2 == 0 && t.marks > 0)
    case Publishing => |t.pos| == |t.handles| && t.marks == 2 * |t.handles| && (t.published <==> !t.save.Idle?)
    case Failing(o) => !t.published && |t.pos| == |t.handles| && !o.PoolOk?
    case Reporting(o) => t.save.Idle? && Settled(t, o)
    case Finished(o) => t.save.Idle? && Settled(t, o)
  }

  predicate Settled(t: Thread, o: Outcome) {
    && |t.pos| == |t.handles|
    && (t.published <==> o.PoolOk?)
    && (o.PoolOk? ==> o.addr == FirstAddress(t.handles) && t.marks == 2 * |t.handles|)
  }

  predicate Granting(stage: Stage) {
    || stage.Recording? || stage.Booting? || stage.MarkingBoot?
    || stage.Checking? || stage.MarkingOk? || stage.Publishing?
  }

  /** The call that would come after `marks` good ones fails. */
  predicate FailsAt(fates: seq<Fate>, marks: nat) {
    && marks / 2 < |fates|
    && (if marks % 2 == 0 then !fates[marks / 2].boots else !fates[marks / 2].passes)
  }

  predicate Concludes(spec: Spec, t: Thread)
    requires t.stage.Failing? || t.stage.Reporting? || t.stage.Finished?
  {
    && VerdictOf(t.stage.o) == Expected(spec)
    && (t.stage.o.Errored? && spec.acquired.Granted? ==> FailsAt(spec.acquired.fates, t.marks))
  }

  /** The outcome a thread is heading for is the one its specification determines. */
  ghost predicate Verdicts(c: Config, p: string, t: Thread)
    requires p in c.specs
  {
    && SeenGood(c, p, t)
    && (t.stage.MarkingBoot? && t.save.Idle? ==> Succeeds(c, p, t, true))
    && (t.stage.MarkingOk? && t.save.Idle? ==> Succeeds(c, p, t, false))
    && (Granting(t.stage) ==> c.specs[p].acquired.Granted?)
    && (t.stage.Failing? || t.stage.Reporting? || t.stage.Finished? ==> Concludes(c.specs[p], t))
  }

  ghost predicate Threads(c: Config, s: Sys) {
    && s.threads.Keys == c.specs.Keys
    && forall p :: p in s.threads ==>
         Handled(c, p, s.threads[p]) && Staged(s.threads[p]) && Verdicts(c, p, s.threads[p])
  }

  ghost predicate Results(s: Sys) {
    && (forall p :: p in s.results ==> p in s.threads && s.threads[p].stage == Finished(s.results[p]))
    && (forall p :: p in s.threads && s.threads[p].stage.Finished? ==> p in s.results)
  }

  // ---------------------------------------------------------------- memory

  ghost predicate Placed(c: Config, s: Sys) {
    forall j :: 0 <= j < |s.mem.resources| ==> PlacedAt(c, s, j)
  }

  /** Entry `j` of the list is the handle some thread put there, in the state that thread last gave it. */
  ghost predicate PlacedAt(c: Config, s: Sys, j: nat)
    requires j < |s.mem.resources|
  {
    var r := s.mem.resources[j];
    && r.id.run == c.run
    && r.id.pool in s.threads
    && var t := s.threads[r.id.pool];
       && |t.pos| <= |t.handles|
       && r.id.w < |t.pos|
       && t.pos[r.id.w] == j
       && r == t.handles[r.id.w].(state := StateAt(t.marks, r.id.w))
  }

  ghost predicate Positions(c: Config, s: Sys) {
    forall p, w :: p in s.threads && 0 <= w < |s.threads[p].pos| ==>
      var j := s.threads[p].pos[w];
      j < |s.mem.resources| && s.mem.resources[j].id == Id(p, c.run, w)
  }

  /** Some thread that has run `set_pool` wired exactly this entry. */
  ghost predicate WiredBy(c: Config, s: Sys, p: string, b: string, a: Option<string>) {
    && p in s.threads && p in c.specs && s.threads[p].published
    && c.specs[p].backend == b && FirstAddress(s.threads[p].handles) == a
  }

  ghost predicate PoolsFrom(c: Config, s: Sys, pools: map<string, Option<string>>) {
    forall b :: b in pools ==> exists p :: WiredBy(c, s, p, b, pools[b])
  }

  ghost predicate PoolsCover(c: Config, s: Sys, pools: map<string, Option<string>>, p: string) {
    p in c.specs && p in s.threads &&
    c.specs[p].backend in pools && pools[c.specs[p].backend] == FirstAddress(s.threads[p].handles)
  }

  ghost predicate Pools(c: Config, s: Sys) {
    && PoolsFrom(c, s, s.mem.pools)
    && forall p :: p in s.threads && s.threads[p].published ==> PoolsCover(c, s, s.mem.pools, p)
  }

  // ---------------------------------------------------------------- disk and snapshots

  /** `res[j]` was copied from entry `j` of the list no earlier than its owner's last completed change. */
  ghost predicate Copied(s: Sys, res: seq<Resource>, j: nat)
    requires j < |res|
  {
    && j < |s.mem.resources|
    && var r := s.mem.resources[j];
       && r.id.pool in s.threads
       && var t := s.threads[r.id.pool];
          || res[j] == r
          || res[j] == r.(state := StateAt(DoneMarks(t), r.id.w))
  }

  ghost predicate CopyOf(s: Sys, res: seq<Resource>) {
    |res| <= |s.mem.resources| && forall j :: 0 <= j < |res| ==> Copied(s, res, j)
  }

  /** The first `n` entries of the list include everything whose `add_resource` has returned. */
  ghost predicate Covers(s: Sys, n: nat) {
    forall p, w :: p in s.threads && 0 <= w < DoneRecords(s.threads[p]) ==> s.threads[p].pos[w] < n
  }

  ghost predicate Disk(c: Config, s: Sys) {
    if s.disk.None? then
      && s.mem == NewRecord() && s.main.New?
    else
      var d := s.disk.value;
      && !s.main.New?
      && d.status == s.mem.status
      && CopyOf(s, d.resources)
      && Covers(s, |d.resources|)
      && PoolsFrom(c, s, d.pools)
      && (forall p :: p in s.threads && DonePublish(s.threads[p]) ==> PoolsCover(c, s, d.pools, p))
      && d.events <= s.mem.events
      && (forall p :: p in s.threads ==> s.threads[p].flushed <= |d.events|)
  }

  /** The snapshot being taken by the thread that holds the lock. */
  ghost predicate Snapshot(c: Config, s: Sys, h: string)
    requires h in s.threads && s.threads[h].save.Reading?
  {
    var v := s.threads[h].save;
    && |v.res| <= v.n <= |s.mem.resources|
    && (s.disk.Some? ==> |s.disk.value.resources| <= v.n)
    && CopyOf(s, v.res)
    && Covers(s, v.n)
    && (forall w :: 0 <= w < |s.threads[h].pos| ==> s.threads[h].pos[w] < v.n)
    && (forall j :: 0 <= j < |v.res| && v.res[j].id.pool == h ==> v.res[j] == s.mem.resources[j])
    && (v.pools.Some? ==>
          && |v.res| == v.n
          && PoolsFrom(c, s, v.pools.value)
          && (forall p :: p in s.threads && (DonePublish(s.threads[p]) || (p == h && s.threads[p].published)) ==>
                PoolsCover(c, s, v.pools.value, p)))
    && (v.events.Some? ==>
          && v.pools.Some?
          && v.events.value <= s.mem.events
          && s.threads[h].logged <= |v.events.value|
          && (s.disk.Some? ==> |s.disk.value.events| <= |v.events.value|))
  }

  ghost predicate Locking(c: Config, s: Sys) {
    && (s.lock.Some? ==> s.lock.value in s.threads && s.threads[s.lock.value].save.Reading?)
    && (forall p :: p in s.threads && s.threads[p].save.Reading? ==> s.lock == Some(p) && Snapshot(c, s, p))
  }

  ghost predicate Counting(s: Sys) {
    forall p :: p in s.threads ==>
      && s.threads[p].flushed <= s.threads[p].logged <= |s.mem.events|
      && (s.threads[p].save.Idle? || s.threads[p].save.Logging? ==> s.threads[p].flushed == s.threads[p].logged)
  }

  /** The last event in memory is the start-up event or some thread's latest one. */
  ghost predicate LastWriter(s: Sys) {
    |s.mem.events| <= 1 || exists p :: p in s.threads && s.threads[p].logged == |s.mem.events|
  }

  // ---------------------------------------------------------------- provider

  ghost predicate Cloud(c: Config, cloud0: map<Id, CloudRecord>, s: Sys) {
    && (forall id :: id in s.cloud && s.cloud[id].run == c.run ==>
          && id.run == c.run && id.pool in s.threads && id.w < |s.threads[id.pool].handles|
          && id.pool in c.specs
          && s.cloud[id] == CloudRecord(c.specs[id.pool].provider, TagFor(c.run), c.run))
    && (forall p, w :: p in s.threads && 0 <= w < |s.threads[p].handles| ==>
          Id(p, c.run, w) in s.cloud && s.cloud[Id(p, c.run, w)].run == c.run)
    && (forall id :: id in cloud0 ==> id in s.cloud && s.cloud[id] == cloud0[id])
    && (forall id :: id in s.cloud && id !in cloud0 ==> s.cloud[id].run == c.run)
  }

  /** Before the run file exists every thread is still to be started. */
  ghost predicate Starting(s: Sys) {
    && (!s.main.Spawning? ==> (forall p :: p in s.threads ==> s.threads[p] == NewThread())
                              && s.mem.resources == [] && s.mem.pools == map[] && s.mem.events == [])
    && (s.main.Spawning? ==> |s.mem.events| >= 1 && s.disk.Some? && |s.disk.value.events| >= 1)
    && (s.main.Saved? ==> s.disk.Some?)
    && s.mem.status == Initializing
  }

  ghost predicate Inv(c: Config, cloud0: map<Id, CloudRecord>, s: Sys) {
    && WellFormed(c) && FreshRun(c, cloud0)
    && Threads(c, s) && Results(s) && Starting(s)
    && Placed(c, s) && Positions(c, s) && Pools(c, s)
    && Disk(c, s) && Locking(c, s) && Counting(s) && LastWriter(s)
    && Cloud(c, cloud0, s)
  }

  lemma InitInv(c: Config, cloud0: map<Id, CloudRecord>)
    requires WellFormed(c) && FreshRun(c, cloud0)
    ensures Inv(c, cloud0, Init(c, cloud0))
  {
  }

  lemma PersistKeeps(c: Config, cloud0: map<Id, CloudRecord>, s: Sys)
    requires Inv(c, cloud0, s) && Enabled(c, s, Persist)
    ensures s.threads.Keys == c.specs.Keys && Inv(c, cloud0, Apply(c, s, Persist))
  {
    hide Verdicts, Handled;
  }

  lemma InitialiseKeeps(c: Config, cloud0: map<Id, CloudRecord>, s: Sys)
    requires Inv(c, cloud0, s) && Enabled(c, s, Initialise)
    ensures s.threads.Keys == c.specs.Keys && Inv(c, cloud0, Apply(c, s, Initialise))
  {
    hide Verdicts, Handled;
  }

  // ---------------------------------------------------------------- steps that leave the work done alone

  /** Between `s` and `s'` no thread changes what it has recorded, marked or published. */
  ghost predicate SameWork(s: Sys, s': Sys) {
    && s'.threads.Keys == s.threads.Keys
    && s'.mem.resources == s.mem.resources
    && forall q :: q in s.threads ==> SameDeeds(s.threads[q], s'.threads[q])
  }

  ghost predicate SameDeeds(t: Thread, t': Thread) {
    && t'.pos == t.pos && t'.marks == t.marks && t'.published == t.published
    && (t'.handles == t.handles || (t.pos == [] && !t.published))
    && DoneRecords(t') == DoneRecords(t) && DoneMarks(t') == DoneMarks(t) && DonePublish(t') == DonePublish(t)
  }

  lemma SamePlaces(c: Config, s: Sys, s': Sys)
    requires SameWork(s, s') && Placed(c, s) && Positions(c, s)
    ensures Placed(c, s') && Positions(c, s')
  {
    forall j | 0 <= j < |s'.mem.resources| ensures PlacedAt(c, s', j) {
      assert PlacedAt(c, s, j);
      assert SameDeeds(s.threads[s.mem.resources[j].id.pool], s'.threads[s.mem.resources[j].id.pool]);
    }
    forall p, w | p in s'.threads && 0 <= w < |s'.threads[p].pos|
      ensures var j := s'.threads[p].pos[w];
              j < |s'.mem.resources| && s'.mem.resources[j].id == Id(p, c.run, w)
    {
      assert SameDeeds(s.threads[p], s'.threads[p]);
    }
  }

  lemma SameCopy(s: Sys, s': Sys, res: seq<Resource>)
    requires SameWork(s, s') && CopyOf(s, res)
    ensures CopyOf(s', res)
  {
    forall j | 0 <= j < |res| ensures Copied(s', res, j) {
      assert Copied(s, res, j);
      assert SameDeeds(s.threads[s.mem.resources[j].id.pool], s'.threads[s.mem.resources[j].id.pool]);
    }
  }

  lemma SameCover(s: Sys, s': Sys, n: nat)
    requires SameWork(s, s') && Covers(s, n)
    ensures Covers(s', n)
  {
    forall p, w | p in s'.threads && 0 <= w < DoneRecords(s'.threads[p]) ensures s'.threads[p].pos[w] < n {
      assert SameDeeds(s.threads[p], s'.threads[p]);
    }
  }

  lemma SamePools(c: Config, s: Sys, s': Sys, pools: map<string, Option<string>>)
    requires SameWork(s, s') && PoolsFrom(c, s, pools)
    ensures PoolsFrom(c, s', pools)
    ensures forall p :: p in s.threads && s.threads[p].published && PoolsCover(c, s, pools, p) ==> PoolsCover(c, s', pools, p)
  {
    forall b | b in pools ensures exists p :: WiredBy(c, s', p, b, pools[b]) {
      var p :| WiredBy(c, s, p, b, pools[b]);
      assert SameDeeds(s.threads[p], s'.threads[p]);
      assert WiredBy(c, s', p, b, pools[b]);
    }
    forall p | p in s.threads && s.threads[p].published && PoolsCover(c, s, pools, p)
      ensures PoolsCover(c, s', pools, p)
    {
      assert SameDeeds(s.threads[p], s'.threads[p]);
    }
  }

  lemma SamePoolsInMemory(c: Config, s: Sys, s': Sys)
    requires SameWork(s, s') && Pools(c, s) && s'.mem.pools == s.mem.pools
    ensures Pools(c, s')
  {
    SamePools(c, s, s', s.mem.pools);
    forall p | p in s'.threads && s'.threads[p].published ensures PoolsCover(c, s', s'.mem.pools, p) {
      assert SameDeeds(s.threads[p], s'.threads[p]);
    }
  }

  /** No flush completes and the event list only grows. */
  ghost predicate NoFlush(s: Sys, s': Sys) {
    && s'.main == s.main && s'.disk == s.disk && s'.mem.status == s.mem.status && s.mem.events <= s'.mem.events
    && s'.threads.Keys == s.threads.Keys
    && forall q :: q in s.threads ==> s'.threads[q].flushed == s.threads[q].flushed
  }

  lemma SameDisk(c: Config, s: Sys, s': Sys)
    requires SameWork(s, s') && NoFlush(s, s') && Disk(c, s) && s.disk.Some?
    ensures Disk(c, s')
  {
    var d := s.disk.value;
    SameCopy(s, s', d.resources);
    SameCover(s, s', |d.resources|);
    SamePools(c, s, s', d.pools);
    forall p | p in s'.threads && DonePublish(s'.threads[p]) ensures PoolsCover(c, s', d.pools, p) {
      assert SameDeeds(s.threads[p], s'.threads[p]);
    }
  }

  /** The holder's snapshot survives a step of any thread that leaves the work done alone. */
  lemma SameSnapshot(c: Config, s: Sys, s': Sys, h: string)
    requires SameWork(s, s') && NoFlush(s, s')
    requires h in s.threads && s.threads[h].save.Reading? && Snapshot(c, s, h)
    requires s'.threads[h].save == s.threads[h].save && s'.threads[h].logged == s.threads[h].logged
    ensures Snapshot(c, s', h)
  {
    var v := s.threads[h].save;
    assert SameDeeds(s.threads[h], s'.threads[h]);
    SameCopy(s, s', v.res);
    SameCover(s, s', v.n);
    if v.pools.Some? {
      SamePools(c, s, s', v.pools.value);
      forall p | p in s'.threads && (DonePublish(s'.threads[p]) || (p == h && s'.threads[p].published))
        ensures PoolsCover(c, s', v.pools.value, p)
      {
        assert SameDeeds(s.threads[p], s'.threads[p]);
      }
    }
  }

  // ---------------------------------------------------------------- one thread's own step

  ghost predicate LocalOk(c: Config, p: string, t: Thread) {
    Handled(c, p, t) && Staged(t) && Verdicts(c, p, t)
  }

  lemma AcquireLocal(c: Config, p: string, t: Thread, addrs: seq<string>)
    requires LocalOk(c, p, t) && t.stage.Acquiring?
    requires c.specs[p].acquired.Granted? ==> |addrs| == |c.specs[p].acquired.fates|
    ensures LocalOk(c, p, AcquireThread(c, p, t, addrs))
  {
  }

  lemma BootLocal(c: Config, p: string, t: Thread)
    requires LocalOk(c, p, t) && t.stage.Booting?
    ensures t.save.Idle?
    ensures LocalOk(c, p, t.(stage := if Succeeds(c, p, t, true) then MarkingBoot else Failing(Errored)))
  {
    assert c.specs[p].acquired.Granted?;
    var fates := c.specs[p].acquired.fates;
    if !Succeeds(c, p, t, true) {
      assert !fates[t.marks / 2].boots;
    }
  }

  lemma CheckLocal(c: Config, p: string, t: Thread, listed: bool)
    requires LocalOk(c, p, t) && t.stage.Checking? && listed
    ensures t.save.Idle?
    ensures LocalOk(c, p, t.(stage := if Succeeds(c, p, t, false) && listed then MarkingOk else Failing(Errored)))
  {
    assert c.specs[p].acquired.Granted?;
    var fates := c.specs[p].acquired.fates;
    if !Succeeds(c, p, t, false) {
      assert !fates[t.marks / 2].passes;
    }
  }

  lemma MutateLocal(c: Config, p: string, t: Thread, mem: Record)
    requires LocalOk(c, p, t) && IsMutator(t.stage) && t.save.Idle?
    ensures LocalOk(c, p, MutateThread(c, p, t, mem))
  {
    var t' := MutateThread(c, p, t, mem);
    assert SeenGood(c, p, t') by {
      if c.specs[p].acquired.Granted? {
        var fates := c.specs[p].acquired.fates;
        forall w | 0 <= w < |fates|
          ensures (2 * w < t'.marks ==> fates[w].boots) && (2 * w + 1 < t'.marks ==> fates[w].passes)
        {
        }
      }
    }
  }

  /** A flush in progress: the stage stays, only the save field moves. */
  lemma SavingLocal(c: Config, p: string, t: Thread, t': Thread)
    requires LocalOk(c, p, t) && !t.save.Idle? && !t'.save.Idle?
    requires t'.stage == t.stage && t'.handles == t.handles && t'.pos == t.pos && t'.marks == t.marks
    requires t'.published == t.published
    ensures LocalOk(c, p, t') && !t.stage.Finished? && !t.stage.Unborn?
  {
  }

  lemma WriteLocal(c: Config, p: string, t: Thread, t': Thread)
    requires LocalOk(c, p, t) && !t.save.Idle?
    requires t' == t.(save := Idle, stage := AfterFlush(t), flushed := t.logged)
    ensures LocalOk(c, p, t')
  {
    if t.stage.Publishing? {
      assert AllGood(c.specs[p].acquired.fates);
    }
  }

  lemma ThreadsFrame(c: Config, s: Sys, s': Sys, p: string)
    requires Threads(c, s) && p in s.threads && p in s'.threads && LocalOk(c, p, s'.threads[p])
    requires s'.threads == s.threads[p := s'.threads[p]]
    ensures Threads(c, s')
  {
  }

  // ---------------------------------------------------------------- every step but Mutate and Write

  /** A step of thread `p` that neither does work nor completes a flush, and that keeps or takes the lock. */
  ghost predicate Passive(s: Sys, s': Sys, p: string) {
    && p in s.threads && p in s'.threads && s'.threads == s.threads[p := s'.threads[p]]
    && SameWork(s, s') && NoFlush(s, s') && s'.mem.pools == s.mem.pools
    && var t, t' := s.threads[p], s'.threads[p];
       && (t.save.Reading? ==> t'.save.Reading?)
       && (t'.save.Reading? && !t.save.Reading? ==> s.lock.None?)
       && s'.lock == (if t'.save.Reading? then Some(p) else s.lock)
  }

  lemma PassiveLocking(c: Config, s: Sys, s': Sys, p: string)
    requires Locking(c, s) && Passive(s, s', p)
    requires s'.threads[p].save.Reading? ==> Snapshot(c, s', p)
    ensures Locking(c, s')
  {
    forall q | q in s'.threads && s'.threads[q].save.Reading? ensures s'.lock == Some(q) && Snapshot(c, s', q) {
      if q != p {
        assert s'.threads[q] == s.threads[q];
        SameSnapshot(c, s, s', q);
      }
    }
  }

  lemma PassiveKeeps(c: Config, cloud0: map<Id, CloudRecord>, s: Sys, s': Sys, p: string)
    requires Inv(c, cloud0, s) && s.main.Spawning? && Passive(s, s', p)
    requires LocalOk(c, p, s'.threads[p])
    requires s'.threads[p].save.Reading? ==> Snapshot(c, s', p)
    requires Results(s') && Counting(s') && LastWriter(s') && Cloud(c, cloud0, s')
    ensures Inv(c, cloud0, s')
  {
    ThreadsFrame(c, s, s', p);
    SamePlaces(c, s, s');
    SamePoolsInMemory(c, s, s');
    SameDisk(c, s, s');
    PassiveLocking(c, s, s', p);
    assert Starting(s');
  }

  /** Only thread `p` moves, and neither its handles nor its event counts. */
  ghost predicate SameCounts(s: Sys, s': Sys, p: string) {
    && p in s.threads && p in s'.threads && s'.threads == s.threads[p := s'.threads[p]]
    && s'.mem.events == s.mem.events
    && s'.threads[p].handles == s.threads[p].handles
    && s'.threads[p].logged == s.threads[p].logged
    && s'.threads[p].flushed == s.threads[p].flushed
    && (s'.threads[p].save.Idle? || s'.threads[p].save.Logging? ==>
          s.threads[p].save.Idle? || s.threads[p].save.Logging?)
  }

  lemma CountsKept(c: Config, cloud0: map<Id, CloudRecord>, s: Sys, s': Sys, p: string)
    requires SameCounts(s, s', p)
    ensures Counting(s) ==> Counting(s')
    ensures LastWriter(s) ==> LastWriter(s')
    ensures Cloud(c, cloud0, s) && s'.cloud == s.cloud ==> Cloud(c, cloud0, s')
  {
    if LastWriter(s) && |s.mem.events| > 1 {
      var q :| q in s.threads && s.threads[q].logged == |s.mem.events|;
      assert s'.threads[q].logged == |s'.mem.events|;
    }
  }

  /** A step that only moves the stage of a thread between mutators. */
  lemma StageKeeps(c: Config, cloud0: map<Id, CloudRecord>, s: Sys, s': Sys, p: string)
    requires Inv(c, cloud0, s) && s.main.Spawning? && p in s.threads && p in s'.threads
    requires s.threads[p].save.Idle?
    requires s' == s.(threads := s.threads[p := s.threads[p].(stage := s'.threads[p].stage)], results := s'.results)
    requires LocalOk(c, p, s'.threads[p]) && Results(s')
    requires DoneRecords(s'.threads[p]) == DoneRecords(s.threads[p])
    requires DonePublish(s'.threads[p]) == DonePublish(s.threads[p])
    ensures Inv(c, cloud0, s')
  {
    hide Placed, Positions, Pools, Disk, Locking, Handled, Staged, Verdicts, Snapshot, Threads, Starting, Counting, LastWriter,
      Cloud, Results;
    CountsKept(c, cloud0, s, s', p);
    assert SameDeeds(s.threads[p], s'.threads[p]);
    assert Passive(s, s', p);
    PassiveKeeps(c, cloud0, s, s', p);
  }

  lemma LocalFacts(c: Config, cloud0: map<Id, CloudRecord>, s: Sys, p: string)
    requires Inv(c, cloud0, s) && p in s.threads
    ensures s.threads.Keys == c.specs.Keys && LocalOk(c, p, s.threads[p])
    ensures !s.threads[p].stage.Unborn? ==> s.main.Spawning?
  {
    hide Placed, Positions, Pools, Disk, Locking, Handled, Staged, Verdicts, Snapshot, Counting, LastWriter, Cloud;
  }

  lemma StageLocal(c: Config, p: string, t: Thread, stage: Stage)
    requires LocalOk(c, p, t)
    requires (t.stage.Unborn? && stage.Acquiring?) || (t.stage.Reporting? && stage == Finished(t.stage.o))
    ensures LocalOk(c, p, t.(stage := stage)) && t.save.Idle?
    ensures DonePublish(t.(stage := stage)) == DonePublish(t)
  {
  }

  lemma ResultsKept(s: Sys, s': Sys, p: string)
    requires Results(s) && p in s.threads && p in s'.threads && s'.threads == s.threads[p := s'.threads[p]]
    requires !s.threads[p].stage.Finished? && !s'.threads[p].stage.Finished? && s'.results == s.results
    ensures Results(s')
  {
  }

  lemma SpawnKeeps(c: Config, cloud0: map<Id, CloudRecord>, s: Sys, p: string)
    requires Inv(c, cloud0, s) && Enabled(c, s, Spawn(p))
    ensures s.threads.Keys == c.specs.Keys && Inv(c, cloud0, Apply(c, s, Spawn(p)))
  {
    hide Placed, Positions, Pools, Disk, Locking, Handled, Staged, Verdicts, Snapshot, Threads, Starting, Counting, LastWriter, Cloud;
    LocalFacts(c, cloud0, s, p);
    StageLocal(c, p, s.threads[p], Acquiring);
    var s' := Apply(c, s, Spawn(p));
    ResultsKept(s, s', p);
    StageKeeps(c, cloud0, s, s', p);
  }

  lemma BootKeeps(c: Config, cloud0: map<Id, CloudRecord>, s: Sys, p: string)
    requires Inv(c, cloud0, s) && Enabled(c, s, Boot(p))
    ensures s.threads.Keys == c.specs.Keys && Inv(c, cloud0, Apply(c, s, Boot(p)))
  {
    hide Placed, Positions, Pools, Disk, Locking, Handled, Staged, Verdicts, Snapshot, Threads, Starting, Counting, LastWriter, Cloud;
    LocalFacts(c, cloud0, s, p);
    BootLocal(c, p, s.threads[p]);
    var s' := Apply(c, s, Boot(p));
    ResultsKept(s, s', p);
    StageKeeps(c, cloud0, s, s', p);
  }

  /** `verify` asks the provider, which still lists the handle being verified. */
  lemma StillListed(c: Config, cloud0: map<Id, CloudRecord>, s: Sys, p: string)
    requires Inv(c, cloud0, s) && p in s.threads && s.threads[p].stage.Checking?
    ensures Id(p, c.run, s.threads[p].marks / 2) in s.cloud
  {
    hide Placed, Positions, Pools, Disk, Locking, Verdicts, Snapshot, Counting, LastWriter;
    assert Handled(c, p, s.threads[p]) && Staged(s.threads[p]);
  }

  lemma CheckKeeps(c: Config, cloud0: map<Id, CloudRecord>, s: Sys, p: string)
    requires Inv(c, cloud0, s) && Enabled(c, s, Check(p))
    ensures s.threads.Keys == c.specs.Keys && Inv(c, cloud0, Apply(c, s, Check(p)))
  {
    hide Placed, Positions, Pools, Disk, Locking, Handled, Staged, Verdicts, Snapshot, Threads, Starting, Counting, LastWriter, Cloud;
    LocalFacts(c, cloud0, s, p);
    StillListed(c, cloud0, s, p);
    CheckLocal(c, p, s.threads[p], true);
    var s' := Apply(c, s, Check(p));
    ResultsKept(s, s', p);
    StageKeeps(c, cloud0, s, s', p);
  }

  lemma ResultReported(s: Sys, s': Sys, p: string, o: Outcome)
    requires Results(s) && p in s.threads && s'.threads == s.threads[p := s.threads[p].(stage := Finished(o))]
    requires !s.threads[p].stage.Finished? && s'.results == s.results[p := o]
    ensures Results(s')
  {
  }

  lemma ReportKeeps(c: Config, cloud0: map<Id, CloudRecord>, s: Sys, p: string)
    requires Inv(c, cloud0, s) && Enabled(c, s, Report(p))
    ensures s.threads.Keys == c.specs.Keys && Inv(c, cloud0, Apply(c, s, Report(p)))
  {
    hide Placed, Positions, Pools, Disk, Locking, Handled, Staged, Verdicts, Snapshot, Threads, Starting, Counting, LastWriter,
      Cloud, Results;
    LocalFacts(c, cloud0, s, p);
    var s' := Apply(c, s, Report(p));
    StageLocal(c, p, s.threads[p], Finished(s.threads[p].stage.o));
    ResultReported(s, s', p, s.threads[p].stage.o);
    StageKeeps(c, cloud0, s, s', p);
  }

  lemma NoneTaken(c: Config, cloud0: map<Id, CloudRecord>)
    requires FreshRun(c, cloud0)
    ensures forall id :: id in cloud0 ==> id.run != c.run && cloud0[id].run != c.run
  {
  }

  lemma GrantedCloud(c: Config, cloud0: map<Id, CloudRecord>, s: Sys, s': Sys, p: string, n: nat)
    requires Cloud(c, cloud0, s) && s.threads.Keys == c.specs.Keys && p in s.threads && p in s'.threads
    requires forall id :: id in cloud0 ==> id.run != c.run && cloud0[id].run != c.run
    requires s'.cloud == CloudWith(c, p, n, s.cloud)
    requires s'.threads == s.threads[p := s'.threads[p]] && s.threads[p].handles == [] && |s'.threads[p].handles| == n
    ensures Cloud(c, cloud0, s')
  {
    hide CloudWith;
  }

  lemma AcquireCloud(c: Config, cloud0: map<Id, CloudRecord>, s: Sys, p: string, addrs: seq<string>)
    requires Cloud(c, cloud0, s) && FreshRun(c, cloud0) && s.threads.Keys == c.specs.Keys
    requires Enabled(c, s, Acquire(p, addrs)) && s.threads[p].handles == []
    ensures Cloud(c, cloud0, Apply(c, s, Acquire(p, addrs)))
  {
    hide FreshRun, Cloud, CloudWith;
    var s' := Apply(c, s, Acquire(p, addrs));
    if c.specs[p].acquired.Granted? {
      NoneTaken(c, cloud0);
      GrantedCloud(c, cloud0, s, s', p, |addrs|);
    } else {
      CloudKept(c, cloud0, s, s', p);
    }
  }

  lemma AcquireKeeps(c: Config, cloud0: map<Id, CloudRecord>, s: Sys, p: string, addrs: seq<string>)
    requires Inv(c, cloud0, s) && Enabled(c, s, Acquire(p, addrs))
    ensures s.threads.Keys == c.specs.Keys && Inv(c, cloud0, Apply(c, s, Acquire(p, addrs)))
  {
    hide Placed, Positions, Pools, Disk, Locking, Handled, Staged, Verdicts, Snapshot, Threads, Starting, Cloud, Counting,
      LastWriter, CloudWith;
    LocalFacts(c, cloud0, s, p);
    var s' := Apply(c, s, Acquire(p, addrs));
    AcquireLocal(c, p, s.threads[p], addrs);
    AcquireDeeds(c, p, s.threads[p], addrs);
    AcquirePassive(c, s, s', p, addrs);
    AcquireCloud(c, cloud0, s, p, addrs);
    ResultsKept(s, s', p);
    AcquireCounts(s, s', p);
    PassiveKeeps(c, cloud0, s, s', p);
  }

  lemma AcquirePassive(c: Config, s: Sys, s': Sys, p: string, addrs: seq<string>)
    requires s.threads.Keys == c.specs.Keys && Enabled(c, s, Acquire(p, addrs)) && s' == Apply(c, s, Acquire(p, addrs))
    requires SameDeeds(s.threads[p], s'.threads[p]) && s'.threads[p].save == s.threads[p].save == Idle
    requires s'.threads[p].flushed == s.threads[p].flushed
    ensures Passive(s, s', p)
  {
    hide CloudWith, Handles, AcquireThread;
  }

  lemma AcquireDeeds(c: Config, p: string, t: Thread, addrs: seq<string>)
    requires LocalOk(c, p, t) && t.stage.Acquiring?
    ensures t.save.Idle? && t.handles == [] && SameDeeds(t, AcquireThread(c, p, t, addrs))
    ensures AcquireThread(c, p, t, addrs).save == t.save
    ensures AcquireThread(c, p, t, addrs).logged == t.logged && AcquireThread(c, p, t, addrs).flushed == t.flushed
    ensures !AcquireThread(c, p, t, addrs).stage.Finished?
  {
  }

  lemma AcquireCounts(s: Sys, s': Sys, p: string)
    requires Counting(s) && LastWriter(s)
    requires p in s.threads && p in s'.threads && s'.threads == s.threads[p := s'.threads[p]] && s'.mem == s.mem
    requires s'.threads[p].logged == s.threads[p].logged && s'.threads[p].flushed == s.threads[p].flushed
    requires s.threads[p].save.Idle?
    ensures Counting(s') && LastWriter(s')
  {
    if |s.mem.events| > 1 {
      var q :| q in s.threads && s.threads[q].logged == |s.mem.events|;
      assert s'.threads[q].logged == |s'.mem.events|;
    }
  }

  lemma CloudKept(c: Config, cloud0: map<Id, CloudRecord>, s: Sys, s': Sys, p: string)
    requires Cloud(c, cloud0, s) && p in s.threads && p in s'.threads && s'.cloud == s.cloud
    requires s'.threads == s.threads[p := s'.threads[p]] && s'.threads[p].handles == s.threads[p].handles
    ensures Cloud(c, cloud0, s')
  {
  }

  /** A step inside a flush: `save`, and perhaps `logged`, is all that changes in the thread. */
  lemma SavingKeeps(c: Config, cloud0: map<Id, CloudRecord>, s: Sys, s': Sys, p: string)
    requires Inv(c, cloud0, s) && p in s.threads && p in s'.threads
    requires !s.threads[p].save.Idle? && !s'.threads[p].save.Idle?
    requires s' == s.(threads := s.threads[p := s.threads[p].(save := s'.threads[p].save, logged := s'.threads[p].logged)],
                      mem := s.mem.(events := s'.mem.events), lock := s'.lock)
    requires Passive(s, s', p)
    requires s'.threads[p].save.Reading? ==> Snapshot(c, s', p)
    requires Counting(s') && LastWriter(s')
    ensures Inv(c, cloud0, s')
  {
    hide Placed, Positions, Pools, Disk, Locking, Handled, Staged, Verdicts, Snapshot, Threads, Starting, Counting,
      LastWriter, Passive, Cloud;
    LocalFacts(c, cloud0, s, p);
    SavingLocal(c, p, s.threads[p], s'.threads[p]);
    CloudKept(c, cloud0, s, s', p);
    ResultsKept(s, s', p);
    PassiveKeeps(c, cloud0, s, s', p);
  }

  lemma AppendKeeps(c: Config, cloud0: map<Id, CloudRecord>, s: Sys, p: string)
    requires Inv(c, cloud0, s) && Enabled(c, s, Append(p))
    ensures s.threads.Keys == c.specs.Keys && Inv(c, cloud0, Apply(c, s, Append(p)))
  {
    hide Placed, Positions, Pools, Disk, Locking, Handled, Staged, Verdicts, Snapshot, Threads, Starting, Cloud, Counting, LastWriter;
    LocalFacts(c, cloud0, s, p);
    AppendCounts(c, cloud0, s, p);
    var s' := Apply(c, s, Append(p));
    AppendPassive(c, s, p);
    hide Passive, Results, SameDeeds, LocalOk;
    SavingKeeps(c, cloud0, s, s', p);
  }

  lemma AppendPassive(c: Config, s: Sys, p: string)
    requires s.threads.Keys == c.specs.Keys && Enabled(c, s, Append(p))
    ensures Passive(s, Apply(c, s, Append(p)), p)
  {
    assert SameDeeds(s.threads[p], Apply(c, s, Append(p)).threads[p]);
  }

  lemma AppendCounts(c: Config, cloud0: map<Id, CloudRecord>, s: Sys, p: string)
    requires Inv(c, cloud0, s) && Enabled(c, s, Append(p))
    ensures Counting(Apply(c, s, Append(p))) && LastWriter(Apply(c, s, Append(p)))
  {
    hide Placed, Positions, Pools, Disk, Locking, Handled, Staged, Verdicts, Snapshot, Starting, Cloud, Results;
    var s' := Apply(c, s, Append(p));
    assert s'.threads[p].logged == |s'.mem.events|;
  }

  /** A step that reads, or prepares to read, one more part of the snapshot. */
  lemma ReadingKeeps(c: Config, cloud0: map<Id, CloudRecord>, s: Sys, s': Sys, p: string)
    requires Inv(c, cloud0, s) && p in s.threads && p in s'.threads
    requires (s.threads[p].save.Waiting? && s.lock.None?) || s.threads[p].save.Reading?
    requires s' == s.(threads := s.threads[p := s.threads[p].(save := s'.threads[p].save)], lock := Some(p))
    requires s'.threads[p].save.Reading? && Snapshot(c, s', p)
    ensures Inv(c, cloud0, s')
  {
    hide Placed, Positions, Pools, Disk, Handled, Staged, Verdicts, Snapshot, Threads, Starting, Counting, LastWriter, Cloud;
    CountsKept(c, cloud0, s, s', p);
    assert SameDeeds(s.threads[p], s'.threads[p]);
    assert Passive(s, s', p);
    SavingKeeps(c, cloud0, s, s', p);
  }

  lemma LockSnapshot(c: Config, s: Sys, s': Sys, p: string)
    requires Positions(c, s) && Disk(c, s) && p in s.threads && p in s'.threads
    requires s' == s.(threads := s.threads[p := s.threads[p].(save := Reading(|s.mem.resources|, [], None, None))], lock := Some(p))
    requires s.threads[p].save.Waiting?
    ensures Snapshot(c, s', p)
  {
  }

  lemma LockKeeps(c: Config, cloud0: map<Id, CloudRecord>, s: Sys, p: string)
    requires Inv(c, cloud0, s) && Enabled(c, s, Lock(p))
    ensures s.threads.Keys == c.specs.Keys && Inv(c, cloud0, Apply(c, s, Lock(p)))
  {
    hide Placed, Positions, Pools, Disk, Locking, Handled, Staged, Verdicts, Snapshot, Threads, Starting, Counting, LastWriter, Cloud;
    LocalFacts(c, cloud0, s, p);
    var s' := Apply(c, s, Lock(p));
    LockSnapshot(c, s, s', p);
    ReadingKeeps(c, cloud0, s, s', p);
  }

  /** What the holder has already read stays good while it reads on. */
  lemma OwnSnapshot(c: Config, cloud0: map<Id, CloudRecord>, s: Sys, s': Sys, p: string)
    requires Inv(c, cloud0, s) && p in s.threads && p in s'.threads && s.threads[p].save.Reading?
    requires s' == s.(threads := s.threads[p := s.threads[p].(save := s'.threads[p].save)])
    requires s'.threads[p].save.Reading?
    ensures s.lock == Some(p) && Snapshot(c, s, p) && SameWork(s, s')
    ensures CopyOf(s', s.threads[p].save.res) && Covers(s', s.threads[p].save.n)
    ensures Placed(c, s') && Positions(c, s') && Pools(c, s')
  {
    hide Placed, Positions, Pools, Disk, Handled, Staged, Verdicts, Threads, Starting, Counting, LastWriter, Cloud;
    assert SameDeeds(s.threads[p], s'.threads[p]);
    SameCopy(s, s', s.threads[p].save.res);
    SameCover(s, s', s.threads[p].save.n);
    SamePlaces(c, s, s');
    SamePoolsInMemory(c, s, s');
  }

  lemma CopyOneMore(s: Sys, res: seq<Resource>)
    requires CopyOf(s, res) && |res| < |s.mem.resources| && s.mem.resources[|res|].id.pool in s.threads
    ensures CopyOf(s, res + [s.mem.resources[|res|]])
  {
    var res' := res + [s.mem.resources[|res|]];
    forall j | 0 <= j < |res'| ensures Copied(s, res', j) {
      if j < |res| {
        assert Copied(s, res, j);
      }
    }
  }

  lemma ReadOneSnapshot(c: Config, s: Sys, s': Sys, p: string)
    requires s.threads.Keys == c.specs.Keys && Enabled(c, s, ReadOne(p)) && s' == Apply(c, s, ReadOne(p))
    requires Snapshot(c, s, p) && Covers(s', s.threads[p].save.n) && CopyOf(s', s'.threads[p].save.res)
    ensures Snapshot(c, s', p)
  {
    hide Covers, CopyOf, PoolsFrom, PoolsCover;
  }

  lemma ReadOneKeeps(c: Config, cloud0: map<Id, CloudRecord>, s: Sys, p: string)
    requires Inv(c, cloud0, s) && Enabled(c, s, ReadOne(p))
    ensures s.threads.Keys == c.specs.Keys && Inv(c, cloud0, Apply(c, s, ReadOne(p)))
  {
    hide Pools, Disk, Locking, Handled, Staged, Verdicts, Threads, Starting, Counting, LastWriter, Cloud, Positions, CopyOf,
      Covers, Snapshot;
    LocalFacts(c, cloud0, s, p);
    var s' := Apply(c, s, ReadOne(p));
    OwnSnapshot(c, cloud0, s, s', p);
    assert PlacedAt(c, s', |s.threads[p].save.res|);
    CopyOneMore(s', s.threads[p].save.res);
    ReadOneSnapshot(c, s, s', p);
    ReadingKeeps(c, cloud0, s, s', p);
  }

  lemma ReadPoolsKeeps(c: Config, cloud0: map<Id, CloudRecord>, s: Sys, p: string)
    requires Inv(c, cloud0, s) && Enabled(c, s, ReadPools(p))
    ensures s.threads.Keys == c.specs.Keys && Inv(c, cloud0, Apply(c, s, ReadPools(p)))
  {
    hide Placed, Disk, Locking, Handled, Staged, Verdicts, Threads, Starting, Counting, LastWriter, Cloud, Positions, CopyOf, Covers;
    LocalFacts(c, cloud0, s, p);
    var s' := Apply(c, s, ReadPools(p));
    OwnSnapshot(c, cloud0, s, s', p);
    assert s'.threads[p].save.events.None?;
    assert PoolsFrom(c, s', s'.threads[p].save.pools.value);
    assert forall q :: q in s'.threads && s'.threads[q].published ==> PoolsCover(c, s', s'.mem.pools, q);
    assert Snapshot(c, s', p);
    ReadingKeeps(c, cloud0, s, s', p);
  }

  lemma ReadEventsSnapshot(c: Config, s: Sys, s': Sys, p: string)
    requires s.threads.Keys == c.specs.Keys && Enabled(c, s, ReadEvents(p)) && s' == Apply(c, s, ReadEvents(p))
    requires Snapshot(c, s, p) && Covers(s', s.threads[p].save.n) && CopyOf(s', s.threads[p].save.res)
    requires PoolsFrom(c, s', s.threads[p].save.pools.value) && Disk(c, s) && Counting(s)
    requires forall q :: q in s.threads && s.threads[q].published && PoolsCover(c, s, s.threads[p].save.pools.value, q) ==>
      PoolsCover(c, s', s.threads[p].save.pools.value, q)
    ensures Snapshot(c, s', p)
  {
    hide Covers, CopyOf, PoolsFrom, PoolsCover;
  }

  lemma ReadEventsKeeps(c: Config, cloud0: map<Id, CloudRecord>, s: Sys, p: string)
    requires Inv(c, cloud0, s) && Enabled(c, s, ReadEvents(p))
    ensures s.threads.Keys == c.specs.Keys && Inv(c, cloud0, Apply(c, s, ReadEvents(p)))
  {
    hide Placed, Locking, Handled, Staged, Verdicts, Threads, Starting, LastWriter, Cloud, Positions, Pools, CopyOf, Covers,
      Snapshot, Disk, Counting;
    LocalFacts(c, cloud0, s, p);
    var s' := Apply(c, s, ReadEvents(p));
    OwnSnapshot(c, cloud0, s, s', p);
    assert PoolsFrom(c, s, s.threads[p].save.pools.value) by {
      OwnPools(c, s, p);
    }
    SamePools(c, s, s', s.threads[p].save.pools.value);
    ReadEventsSnapshot(c, s, s', p);
    ReadingKeeps(c, cloud0, s, s', p);
  }

  lemma OwnPools(c: Config, s: Sys, p: string)
    requires p in s.threads && s.threads[p].save.Reading? && Snapshot(c, s, p) && s.threads[p].save.pools.Some?
    ensures PoolsFrom(c, s, s.threads[p].save.pools.value)
  {
  }

  // ---------------------------------------------------------------- Mutate

  /** Thread `p` has changed memory in one mutator; nothing has been logged or flushed yet. */
  ghost predicate Worked(s: Sys, s': Sys, p: string) {
    && p in s.threads && p in s'.threads && s'.threads == s.threads[p := s'.threads[p]]
    && s' == s.(threads := s'.threads, mem := s.mem.(resources := s'.mem.resources, pools := s'.mem.pools))
    && |s.mem.resources| <= |s'.mem.resources|
    && (forall j :: 0 <= j < |s.mem.resources| && s.mem.resources[j].id.pool != p ==>
          s'.mem.resources[j] == s.mem.resources[j])
    && var t, t' := s.threads[p], s'.threads[p];
       && t.save.Idle? && t'.save.Logging? && t'.stage == t.stage && t'.handles == t.handles
       && t.pos <= t'.pos && (t.published ==> t'.published)
       && t'.logged == t.logged && t'.flushed == t.flushed
       && DoneRecords(t) <= |t.pos|
       && DoneRecords(t') == DoneRecords(t) && DonePublish(t') == DonePublish(t)
  }

  lemma WorkedCovers(s: Sys, s': Sys, p: string, n: nat)
    requires Worked(s, s', p) && Covers(s, n)
    ensures Covers(s', n)
  {
  }

  lemma WorkedPools(c: Config, s: Sys, s': Sys, p: string, pools: map<string, Option<string>>)
    requires Worked(s, s', p) && PoolsFrom(c, s, pools)
    ensures PoolsFrom(c, s', pools)
    ensures forall q :: PoolsCover(c, s, pools, q) ==> PoolsCover(c, s', pools, q)
  {
    forall b | b in pools ensures exists q :: WiredBy(c, s', q, b, pools[b]) {
      var q :| WiredBy(c, s, q, b, pools[b]);
      assert WiredBy(c, s', q, b, pools[b]);
    }
  }

  lemma WorkedDisk(c: Config, s: Sys, s': Sys, p: string)
    requires Worked(s, s', p) && Disk(c, s) && s.disk.Some?
    requires CopyOf(s, s.disk.value.resources) ==> CopyOf(s', s.disk.value.resources)
    ensures Disk(c, s')
  {
    hide CopyOf, Covers, PoolsFrom, PoolsCover;
    WorkedCovers(s, s', p, |s.disk.value.resources|);
    WorkedPools(c, s, s', p, s.disk.value.pools);
  }

  lemma WorkedSnapshot(c: Config, s: Sys, s': Sys, p: string, h: string)
    requires Worked(s, s', p) && h != p && h in s.threads && s.threads[h].save.Reading? && Snapshot(c, s, h)
    requires CopyOf(s, s.threads[h].save.res) ==> CopyOf(s', s.threads[h].save.res)
    ensures Snapshot(c, s', h)
  {
    hide Covers, PoolsFrom, PoolsCover, DoneRecords;
    var v := s.threads[h].save;
    WorkedCovers(s, s', p, v.n);
    if v.pools.Some? {
      WorkedPools(c, s, s', p, v.pools.value);
    }
    forall j | 0 <= j < |v.res| && v.res[j].id.pool == h ensures v.res[j] == s'.mem.resources[j] {
      assert Copied(s, v.res, j);
    }
  }

  lemma WorkedLocking(c: Config, s: Sys, s': Sys, p: string)
    requires Worked(s, s', p) && Locking(c, s)
    requires forall res :: CopyOf(s, res) ==> CopyOf(s', res)
    ensures Locking(c, s')
  {
    hide CopyOf, Covers, PoolsFrom, PoolsCover, DoneRecords, DonePublish;
    forall q | q in s'.threads && s'.threads[q].save.Reading? ensures s'.lock == Some(q) && Snapshot(c, s', q) {
      assert s'.threads[q] == s.threads[q];
      WorkedSnapshot(c, s, s', p, q);
    }
  }

  lemma WorkedKeeps(c: Config, cloud0: map<Id, CloudRecord>, s: Sys, s': Sys, p: string)
    requires Inv(c, cloud0, s) && Worked(s, s', p) && s.main.Spawning? && !s.threads[p].stage.Finished?
    requires LocalOk(c, p, s'.threads[p]) && Placed(c, s') && Positions(c, s') && Pools(c, s')
    requires forall res :: CopyOf(s, res) ==> CopyOf(s', res)
    ensures Inv(c, cloud0, s')
  {
    assert Starting(s') && s.disk.Some? by {
      hide Placed, Positions, Pools, Disk, Locking, Handled, Staged, Verdicts, Threads, Cloud;
    }
    hide Placed, Positions, Pools, Disk, Locking, Handled, Staged, Verdicts, CopyOf, Counting, LastWriter, Cloud, Starting;
    ThreadsFrame(c, s, s', p);
    ResultsKept(s, s', p);
    WorkedDisk(c, s, s', p);
    WorkedLocking(c, s, s', p);
    CountsKept(c, cloud0, s, s', p);
  }

  lemma MutatesLocally(c: Config, cloud0: map<Id, CloudRecord>, s: Sys, p: string)
    requires Inv(c, cloud0, s) && Enabled(c, s, Mutate(p))
    ensures s.threads.Keys == c.specs.Keys && s.main.Spawning?
    ensures LocalOk(c, p, s.threads[p]) && LocalOk(c, p, MutateThread(c, p, s.threads[p], s.mem))
  {
    hide Placed, Positions, Pools, Disk, Locking, Handled, Staged, Verdicts, Snapshot, Threads, Starting, Counting, LastWriter, Cloud;
    LocalFacts(c, cloud0, s, p);
    MutateLocal(c, p, s.threads[p], s.mem);
  }

  lemma RecordPlaces(c: Config, s: Sys, s': Sys, p: string)
    requires s.threads.Keys == c.specs.Keys && Enabled(c, s, Mutate(p)) && s' == Apply(c, s, Mutate(p))
    requires s.threads[p].stage.Recording? && LocalOk(c, p, s.threads[p])
    requires Placed(c, s) && Positions(c, s)
    ensures Placed(c, s') && Positions(c, s')
  {
    hide Verdicts, MutateEvent;
    var n := |s.mem.resources|;
    forall j | 0 <= j < n + 1 ensures PlacedAt(c, s', j) {
      if j < n {
        assert PlacedAt(c, s, j);
      }
    }
  }

  lemma RecordCopies(s: Sys, s': Sys, res: seq<Resource>)
    requires CopyOf(s, res) && s.mem.resources <= s'.mem.resources && s'.threads.Keys == s.threads.Keys
    requires forall q :: q in s.threads ==> DoneMarks(s'.threads[q]) == DoneMarks(s.threads[q])
    ensures CopyOf(s', res)
  {
    forall j | 0 <= j < |res| ensures Copied(s', res, j) {
      assert Copied(s, res, j);
    }
  }

  lemma RecordWorks(c: Config, s: Sys, s': Sys, p: string)
    requires s.threads.Keys == c.specs.Keys && Enabled(c, s, Mutate(p)) && s' == Apply(c, s, Mutate(p))
    requires s.threads[p].stage.Recording? && LocalOk(c, p, s.threads[p])
    ensures Worked(s, s', p) && s.mem.resources <= s'.mem.resources && s'.mem.pools == s.mem.pools
    ensures forall q :: q in s.threads ==> DoneMarks(s'.threads[q]) == DoneMarks(s.threads[q])
  {
    hide Verdicts, MutateEvent;
  }

  lemma WorkedSamePools(c: Config, s: Sys, s': Sys, p: string)
    requires Worked(s, s', p) && Pools(c, s) && s'.mem.pools == s.mem.pools
    requires s'.threads[p].published == s.threads[p].published
    ensures Pools(c, s')
  {
    hide DoneRecords, DonePublish, PoolsFrom, PoolsCover;
    WorkedPools(c, s, s', p, s.mem.pools);
  }

  lemma RecordKeeps(c: Config, cloud0: map<Id, CloudRecord>, s: Sys, p: string)
    requires Inv(c, cloud0, s) && Enabled(c, s, Mutate(p)) && s.threads[p].stage.Recording?
    ensures s.threads.Keys == c.specs.Keys && Inv(c, cloud0, Apply(c, s, Mutate(p)))
  {
    hide Placed, Positions, Pools, Disk, Locking, Handled, Staged, Verdicts, Threads, Starting, Counting, LastWriter, Cloud,
      CopyOf, Worked, DoneMarks, MutateEvent, MutateMem;
    MutatesLocally(c, cloud0, s, p);
    var s' := Apply(c, s, Mutate(p));
    RecordPlaces(c, s, s', p);
    RecordWorks(c, s, s', p);
    WorkedSamePools(c, s, s', p);
    forall res | CopyOf(s, res) ensures CopyOf(s', res) {
      RecordCopies(s, s', res);
    }
    WorkedKeeps(c, cloud0, s, s', p);
  }

  /** The record's list after `update_resource` on the current handle of thread `p`. */
  lemma MarkPlaces(c: Config, s: Sys, s': Sys, p: string)
    requires s.threads.Keys == c.specs.Keys && Enabled(c, s, Mutate(p)) && s' == Apply(c, s, Mutate(p))
    requires (s.threads[p].stage.MarkingBoot? || s.threads[p].stage.MarkingOk?) && LocalOk(c, p, s.threads[p])
    requires Placed(c, s) && Positions(c, s)
    ensures Placed(c, s') && Positions(c, s')
  {
    MarkPositions(c, s, s', p);
    hide Verdicts, MutateEvent, Positions, Staged;
    forall j | 0 <= j < |s'.mem.resources| ensures PlacedAt(c, s', j) {
      assert PlacedAt(c, s, j);
    }
  }

  lemma MarkPositions(c: Config, s: Sys, s': Sys, p: string)
    requires s.threads.Keys == c.specs.Keys && Enabled(c, s, Mutate(p)) && s' == Apply(c, s, Mutate(p))
    requires (s.threads[p].stage.MarkingBoot? || s.threads[p].stage.MarkingOk?) && LocalOk(c, p, s.threads[p])
    requires Positions(c, s)
    ensures Positions(c, s')
  {
    hide Verdicts, MutateEvent, Staged;
  }

  lemma MarkCopies(c: Config, s: Sys, s': Sys, p: string, res: seq<Resource>)
    requires s.threads.Keys == c.specs.Keys && Enabled(c, s, Mutate(p)) && s' == Apply(c, s, Mutate(p))
    requires s.threads[p].stage.MarkingBoot? || s.threads[p].stage.MarkingOk?
    requires Staged(s.threads[p]) && Placed(c, s) && CopyOf(s, res)
    ensures CopyOf(s', res)
  {
    hide MutateEvent;
    forall j | 0 <= j < |res| ensures Copied(s', res, j) {
      assert Copied(s, res, j);
      assert PlacedAt(c, s, j);
      assert PlacedAt(c, s, j) ==> s.mem.resources[j].state == StateAt(s.threads[s.mem.resources[j].id.pool].marks, s.mem.resources[j].id.w);
    }
  }

  lemma MarkWorks(c: Config, s: Sys, s': Sys, p: string)
    requires s.threads.Keys == c.specs.Keys && Enabled(c, s, Mutate(p)) && s' == Apply(c, s, Mutate(p))
    requires s.threads[p].stage.MarkingBoot? || s.threads[p].stage.MarkingOk?
    ensures Worked(s, s', p) && s'.mem.pools == s.mem.pools && s'.threads[p].published == s.threads[p].published
  {
    hide MutateEvent;
  }

  lemma MarkKeeps(c: Config, cloud0: map<Id, CloudRecord>, s: Sys, p: string)
    requires Inv(c, cloud0, s) && Enabled(c, s, Mutate(p))
    requires s.threads[p].stage.MarkingBoot? || s.threads[p].stage.MarkingOk?
    ensures s.threads.Keys == c.specs.Keys && Inv(c, cloud0, Apply(c, s, Mutate(p)))
  {
    hide Placed, Positions, Pools, Disk, Locking, Handled, Staged, Verdicts, Threads, Starting, Counting, LastWriter, Cloud,
      CopyOf, Worked, DoneMarks, MutateEvent, MutateMem;
    MutatesLocally(c, cloud0, s, p);
    var s' := Apply(c, s, Mutate(p));
    MarkPlaces(c, s, s', p);
    MarkWorks(c, s, s', p);
    WorkedSamePools(c, s, s', p);
    forall res | CopyOf(s, res) ensures CopyOf(s', res) {
      MarkCopies(c, s, s', p, res);
    }
    WorkedKeeps(c, cloud0, s, s', p);
  }

  lemma PublishWorks(c: Config, s: Sys, s': Sys, p: string)
    requires s.threads.Keys == c.specs.Keys && Enabled(c, s, Mutate(p)) && s' == Apply(c, s, Mutate(p))
    requires s.threads[p].stage.Publishing? && Staged(s.threads[p])
    ensures Worked(s, s', p) && s'.mem.resources == s.mem.resources && s'.threads[p].published
    ensures s'.threads[p].pos == s.threads[p].pos && s'.threads[p].marks == s.threads[p].marks
    ensures s'.mem.pools == s.mem.pools[c.specs[p].backend := FirstAddress(s.threads[p].handles)]
    ensures forall q :: q in s.threads ==> DoneMarks(s'.threads[q]) == DoneMarks(s.threads[q])
  {
    hide MutateEvent, FirstAddress;
  }

  lemma PublishPools(c: Config, s: Sys, s': Sys, p: string)
    requires WellFormed(c) && s.threads.Keys == c.specs.Keys && Worked(s, s', p) && Pools(c, s)
    requires s'.mem.pools == s.mem.pools[c.specs[p].backend := FirstAddress(s.threads[p].handles)]
    requires s'.threads[p].published
    ensures Pools(c, s')
  {
    hide DoneRecords, DonePublish, FirstAddress;
    WorkedPools(c, s, s', p, s.mem.pools);
    var pools := s'.mem.pools;
    assert WiredBy(c, s', p, c.specs[p].backend, pools[c.specs[p].backend]);
    forall b | b in pools ensures exists q :: WiredBy(c, s', q, b, pools[b]) {
      if b != c.specs[p].backend {
        var q :| WiredBy(c, s', q, b, s.mem.pools[b]);
        assert WiredBy(c, s', q, b, pools[b]);
      }
    }
  }

  lemma PublishPlaces(c: Config, s: Sys, s': Sys, p: string)
    requires Worked(s, s', p) && s'.mem.resources == s.mem.resources
    requires s'.threads[p].pos == s.threads[p].pos && s'.threads[p].marks == s.threads[p].marks
    requires Placed(c, s) && Positions(c, s)
    ensures Placed(c, s') && Positions(c, s')
  {
    hide DoneRecords, DonePublish;
    forall j | 0 <= j < |s'.mem.resources| ensures PlacedAt(c, s', j) {
      assert PlacedAt(c, s, j);
    }
  }

  lemma PublishKeeps(c: Config, cloud0: map<Id, CloudRecord>, s: Sys, p: string)
    requires Inv(c, cloud0, s) && Enabled(c, s, Mutate(p)) && s.threads[p].stage.Publishing?
    ensures s.threads.Keys == c.specs.Keys && Inv(c, cloud0, Apply(c, s, Mutate(p)))
  {
    hide Placed, Positions, Pools, Disk, Locking, Handled, Staged, Verdicts, Threads, Starting, Counting, LastWriter, Cloud,
      CopyOf, Worked, DoneMarks, MutateEvent, MutateMem, FirstAddress;
    MutatesLocally(c, cloud0, s, p);
    var s' := Apply(c, s, Mutate(p));
    PublishWorks(c, s, s', p);
    PublishPlaces(c, s, s', p);
    PublishPools(c, s, s', p);
    forall res | CopyOf(s, res) ensures CopyOf(s', res) {
      RecordCopies(s, s', res);
    }
    WorkedKeeps(c, cloud0, s, s', p);
  }

  /** The failure branches log an event and change no other field. */
  lemma FailKeeps(c: Config, cloud0: map<Id, CloudRecord>, s: Sys, p: string)
    requires Inv(c, cloud0, s) && Enabled(c, s, Mutate(p)) && s.threads[p].stage.Failing?
    ensures s.threads.Keys == c.specs.Keys && Inv(c, cloud0, Apply(c, s, Mutate(p)))
  {
    hide Placed, Positions, Pools, Disk, Locking, Handled, Staged, Verdicts, Snapshot, Threads, Starting, Counting, LastWriter,
      Cloud, Results;
    MutatesLocally(c, cloud0, s, p);
    var s' := Apply(c, s, Mutate(p));
    CountsKept(c, cloud0, s, s', p);
    ResultsKept(s, s', p);
    assert SameDeeds(s.threads[p], s'.threads[p]);
    assert Passive(s, s', p);
    PassiveKeeps(c, cloud0, s, s', p);
  }

  lemma MutateKeeps(c: Config, cloud0: map<Id, CloudRecord>, s: Sys, p: string)
    requires Inv(c, cloud0, s) && Enabled(c, s, Mutate(p))
    ensures s.threads.Keys == c.specs.Keys && Inv(c, cloud0, Apply(c, s, Mutate(p)))
  {
    hide Inv, Apply;
    match s.threads[p].stage {
      case Recording => RecordKeeps(c, cloud0, s, p);
      case MarkingBoot => MarkKeeps(c, cloud0, s, p);
      case MarkingOk => MarkKeeps(c, cloud0, s, p);
      case Publishing => PublishKeeps(c, cloud0, s, p);
      case Failing(_) => FailKeeps(c, cloud0, s, p);
    }
  }

  // ---------------------------------------------------------------- Write

  /** The holder replaces the file and releases the lock. */
  ghost predicate Flushed(c: Config, s: Sys, s': Sys, p: string) {
    && s.threads.Keys == c.specs.Keys && Enabled(c, s, Write(p)) && s' == Apply(c, s, Write(p))
  }

  lemma FlushPlaces(c: Config, s: Sys, s': Sys, p: string)
    requires Flushed(c, s, s', p) && Placed(c, s) && Positions(c, s)
    ensures Placed(c, s') && Positions(c, s')
  {
    hide AfterFlush;
    forall j | 0 <= j < |s'.mem.resources| ensures PlacedAt(c, s', j) {
      assert PlacedAt(c, s, j);
    }
  }

  lemma FlushPools(c: Config, s: Sys, s': Sys, p: string, pools: map<string, Option<string>>)
    requires Flushed(c, s, s', p) && PoolsFrom(c, s, pools)
    ensures PoolsFrom(c, s', pools)
    ensures forall q :: PoolsCover(c, s, pools, q) ==> PoolsCover(c, s', pools, q)
  {
    hide AfterFlush, FirstAddress;
    forall b | b in pools ensures exists q :: WiredBy(c, s', q, b, pools[b]) {
      var q :| WiredBy(c, s, q, b, pools[b]);
      assert WiredBy(c, s', q, b, pools[b]);
    }
  }

  lemma FlushCopy(c: Config, s: Sys, s': Sys, p: string)
    requires Flushed(c, s, s', p) && Snapshot(c, s, p)
    ensures CopyOf(s', s.threads[p].save.res) && Covers(s', |s.threads[p].save.res|)
  {
    hide AfterFlush, PoolsFrom, PoolsCover;
    var res := s.threads[p].save.res;
    forall j | 0 <= j < |res| ensures Copied(s', res, j) {
      assert Copied(s, res, j);
    }
  }

  lemma FlushDisk(c: Config, s: Sys, s': Sys, p: string)
    requires Flushed(c, s, s', p) && Snapshot(c, s, p) && Disk(c, s) && s.disk.Some?
    ensures Disk(c, s') && |s.disk.value.events| <= |s'.disk.value.events|
  {
    hide AfterFlush, PoolsFrom, PoolsCover, CopyOf, Covers, DoneRecords, FirstAddress;
    FlushCopy(c, s, s', p);
    FlushPools(c, s, s', p, s.threads[p].save.pools.value);
    assert forall q :: q in s'.threads && DonePublish(s'.threads[q]) ==>
      DonePublish(s.threads[q]) || (q == p && s.threads[q].published);
  }

  lemma FlushRest(c: Config, cloud0: map<Id, CloudRecord>, s: Sys, s': Sys, p: string)
    requires Flushed(c, s, s', p) && s.lock == Some(p)
    requires forall q :: q in s.threads && s.threads[q].save.Reading? ==> s.lock == Some(q)
    requires Counting(s) && LastWriter(s) && Cloud(c, cloud0, s)
    ensures Locking(c, s') && Counting(s') && LastWriter(s') && Cloud(c, cloud0, s')
  {
    FlushCounts(c, s, s', p);
    CloudKept(c, cloud0, s, s', p);
    hide AfterFlush, Counting, LastWriter, Cloud, Snapshot;
  }

  lemma FlushCounts(c: Config, s: Sys, s': Sys, p: string)
    requires Flushed(c, s, s', p) && Counting(s) && LastWriter(s)
    ensures Counting(s') && LastWriter(s')
  {
    hide AfterFlush;
    if |s.mem.events| > 1 {
      var q :| q in s.threads && s.threads[q].logged == |s.mem.events|;
      assert s'.threads[q].logged == |s'.mem.events|;
    }
  }

  lemma AfterFlushRuns(t: Thread)
    requires Staged(t) && !t.save.Idle?
    ensures !t.stage.Finished? && !t.stage.Unborn? && !AfterFlush(t).Finished?
  {
  }

  lemma HolderFacts(c: Config, cloud0: map<Id, CloudRecord>, s: Sys, p: string)
    requires Inv(c, cloud0, s) && p in s.threads && s.threads[p].save.Reading?
    ensures s.lock == Some(p) && Snapshot(c, s, p) && s.main.Spawning? && s.disk.Some? && |s.disk.value.events| >= 1
    ensures forall q :: q in s.threads && s.threads[q].save.Reading? ==> s.lock == Some(q)
    ensures LocalOk(c, p, s.threads[p]) && s.threads.Keys == c.specs.Keys
  {
    hide Placed, Positions, Pools, Disk, Handled, Verdicts, Snapshot, Counting, LastWriter, Cloud;
  }

  lemma WriteKeeps(c: Config, cloud0: map<Id, CloudRecord>, s: Sys, p: string)
    requires Inv(c, cloud0, s) && Enabled(c, s, Write(p))
    ensures s.threads.Keys == c.specs.Keys && Inv(c, cloud0, Apply(c, s, Write(p)))
  {
    hide Placed, Positions, Disk, Locking, Handled, Staged, Verdicts, Snapshot, Threads, Counting, LastWriter,
      Cloud, Results, AfterFlush, PoolsFrom, PoolsCover;
    HolderFacts(c, cloud0, s, p);
    var s' := Apply(c, s, Write(p));
    var t := s.threads[p];
    WriteLocal(c, p, t, s'.threads[p]);
    AfterFlushRuns(t);
    ThreadsFrame(c, s, s', p);
    ResultsKept(s, s', p);
    FlushPlaces(c, s, s', p);
    FlushPools(c, s, s', p, s.mem.pools);
    FlushDisk(c, s, s', p);
    FlushRest(c, cloud0, s, s', p);
  }

  // ---------------------------------------------------------------- every step, every run

  lemma StepKeeps(c: Config, cloud0: map<Id, CloudRecord>, s: Sys, step: Step)
    requires Inv(c, cloud0, s) && Enabled(c, s, step)
    ensures s.threads.Keys == c.specs.Keys && Inv(c, cloud0, Apply(c, s, step))
  {
    hide Inv, Apply, Enabled;
    match step {
      case Persist => PersistKeeps(c, cloud0, s);
      case Initialise => InitialiseKeeps(c, cloud0, s);
      case Spawn(p) => SpawnKeeps(c, cloud0, s, p);
      case Acquire(p, addrs) => AcquireKeeps(c, cloud0, s, p, addrs);
      case Boot(p) => BootKeeps(c, cloud0, s, p);
      case Check(p) => CheckKeeps(c, cloud0, s, p);
      case Mutate(p) => MutateKeeps(c, cloud0, s, p);
      case Append(p) => AppendKeeps(c, cloud0, s, p);
      case Lock(p) => LockKeeps(c, cloud0, s, p);
      case ReadOne(p) => ReadOneKeeps(c, cloud0, s, p);
      case ReadPools(p) => ReadPoolsKeeps(c, cloud0, s, p);
      case ReadEvents(p) => ReadEventsKeeps(c, cloud0, s, p);
      case Write(p) => WriteKeeps(c, cloud0, s, p);
      case Report(p) => ReportKeeps(c, cloud0, s, p);
    }
  }

  lemma {:induction false} RunKeeps(c: Config, cloud0: map<Id, CloudRecord>, s: Sys, steps: seq<Step>, s': Sys)
    requires Inv(c, cloud0, s) && Runs(c, s, steps, s')
    ensures Inv(c, cloud0, s')
    decreases |steps|
  {
    hide Inv, Apply, Enabled;
    if steps != [] {
      StepKeeps(c, cloud0, s, steps[0]);
      RunKeeps(c, cloud0, Apply(c, s, steps[0]), steps[1..], s');
    }
  }

  lemma ReachableInv(c: Config, cloud0: map<Id, CloudRecord>, s: Sys)
    requires WellFormed(c) && FreshRun(c, cloud0) && Reachable(c, cloud0, s)
    ensures Inv(c, cloud0, s)
  {
    hide Inv, Runs;
    InitInv(c, cloud0);
    var steps :| Runs(c, Init(c, cloud0), steps, s);
    RunKeeps(c, cloud0, Init(c, cloud0), steps, s);
  }
}
