/**
 Concurrent bring-up (orchestrator/engine.py:29-78): one thread per pool, all of
 them sharing one `RunState` whose every mutator ends in a flush to disk.

 A state of the system is the record in memory, the record on disk, the provider's
 own list of resources, the flush lock and one program counter per thread.  A step
 is one thread's next atomic action, so a run is any interleaving, and the state
 after any step is also what a crash at that moment leaves behind (the memory part
 and the threads are then lost).  `RunState` mutators are not atomic: the field is
 changed, then the event is appended, then the lock is taken, then `to_dict` reads
 the resources one at a time, the pools and the events, and only then is the file
 replaced.
 */
module BringUp {
  import opened Common
  import opened RunRecord

  // ---------------------------------------------------------------- configuration

  /** What the provider will do with one worker: does `bootstrap` return, does `verify` say yes. */
  datatype Fate = Fate(boots: bool, passes: bool)

  datatype Acquired = Granted(fates: seq<Fate>) | NoCapacity | Refused

  /** One pool of the topology, and the outcome of every adapter call made for it. */
  datatype Spec = Spec(backend: string, provider: string, acquired: Acquired)

  datatype Config = Config(run: string, specs: map<string, Spec>)

  ghost predicate WellFormed(c: Config) {
    forall p, q :: p in c.specs && q in c.specs && p != q ==> c.specs[p].backend != c.specs[q].backend
  }

  /** The provider's record of one resource, tagged at creation. */
  datatype CloudRecord = CloudRecord(provider: string, tag: string, run: string)

  function TagFor(run: string): string {
    "gpuha-managed=" + run
  }

  // ---------------------------------------------------------------- threads

  datatype Outcome = PoolOk(addr: Option<string>) | OutOfCapacity | Errored

  datatype Stage =
    | Unborn
    | Acquiring
    | Recording          // add_resource for handle |pos|
    | Booting            // adapter.bootstrap for handle marks/2
    | MarkingBoot        // update_resource(state="bootstrapped")
    | Checking           // adapter.verify
    | MarkingOk          // update_resource(state="verified")
    | Publishing         // set_pool
    | Failing(o: Outcome)    // event("CAPACITY-OUT ...") or event("POOL-FAILED ...")
    | Reporting(o: Outcome)  // results[pool.name] = ...
    | Finished(o: Outcome)

  /** How far the mutator in progress has come. */
  datatype Save =
    | Idle
    | Logging(e: Event)  // field changed, event not yet appended
    | Waiting            // event appended, lock not yet held
    | Reading(n: nat, res: seq<Resource>, pools: Option<map<string, Option<string>>>, events: Option<seq<Event>>)

  /**
   `pos[w]` is where handle `w` stands in the record's list, `marks` how many state
   changes the thread has made to its handles, `logged` the length of the event list
   just after the thread's latest append, and `flushed` that length at its latest
   completed flush.
   */
  datatype Thread = Thread(
    stage: Stage, save: Save, handles: seq<Resource>,
    pos: seq<nat>, marks: nat, published: bool, logged: nat, flushed: nat)

  datatype Main = New | Saved | Spawning

  datatype Sys = Sys(
    main: Main,
    mem: Record,
    disk: Option<Record>,
    cloud: map<Id, CloudRecord>,
    threads: map<string, Thread>,
    results: map<string, Outcome>,
    lock: Option<string>)

  function NewThread(): Thread {
    Thread(Unborn, Idle, [], [], 0, false, 0, 0)
  }

  function Init(c: Config, cloud: map<Id, CloudRecord>): Sys {
    Sys(New, NewRecord(), None, cloud, map p | p in c.specs :: NewThread(), map[], None)
  }

  /** No resource of this run exists before the run starts, and none of its ids is taken. */
  ghost predicate FreshRun(c: Config, cloud: map<Id, CloudRecord>) {
    forall id :: id in cloud ==> id.run != c.run && cloud[id].run != c.run
  }

  // ---------------------------------------------------------------- steps

  datatype Step =
    | Persist
    | Initialise
    | Spawn(p: string)
    | Acquire(p: string, addrs: seq<string>)
    | Boot(p: string)
    | Check(p: string)
    | Mutate(p: string)
    | Append(p: string)
    | Lock(p: string)
    | ReadOne(p: string)
    | ReadPools(p: string)
    | ReadEvents(p: string)
    | Write(p: string)
    | Report(p: string)

  /** The state of handle `w` once the thread has made `marks` changes. */
  function StateAt(marks: nat, w: nat): ResourceState {
    if 2 * w + 2 <= marks then Verified else if 2 * w + 1 == marks then Bootstrapped else Created
  }

  predicate IsMutator(stage: Stage) {
    stage.Recording? || stage.MarkingBoot? || stage.MarkingOk? || stage.Publishing? || stage.Failing?
  }

  predicate Enabled(c: Config, s: Sys, step: Step) {
    match step
    case Persist => s.main.New?
    case Initialise => s.main.Saved?
    case Spawn(p) => s.main.Spawning? && p in s.threads && s.threads[p].stage.Unborn?
    case Acquire(p, addrs) =>
      && p in c.specs && p in s.threads && s.threads[p].stage.Acquiring?
      && (c.specs[p].acquired.Granted? ==> |addrs| == |c.specs[p].acquired.fates|)
    case Boot(p) => p in s.threads && s.threads[p].stage.Booting?
    case Check(p) => p in s.threads && s.threads[p].stage.Checking?
    case Mutate(p) => p in s.threads && IsMutator(s.threads[p].stage) && s.threads[p].save.Idle?
    case Append(p) => p in s.threads && s.threads[p].save.Logging?
    case Lock(p) => p in s.threads && s.threads[p].save.Waiting? && s.lock.None?
    case ReadOne(p) =>
      p in s.threads && s.threads[p].save.Reading? && |s.threads[p].save.res| < s.threads[p].save.n
      && |s.threads[p].save.res| < |s.mem.resources|
    case ReadPools(p) =>
      p in s.threads && s.threads[p].save.Reading? && |s.threads[p].save.res| == s.threads[p].save.n
      && s.threads[p].save.pools.None?
    case ReadEvents(p) =>
      p in s.threads && s.threads[p].save.Reading? && s.threads[p].save.pools.Some? && s.threads[p].save.events.None?
    case Write(p) =>
      p in s.threads && s.threads[p].save.Reading? && s.threads[p].save.pools.Some? && s.threads[p].save.events.Some?
    case Report(p) => p in s.threads && s.threads[p].stage.Reporting?
  }

  /** The handles of a granted acquire, each carrying its own id. */
  function Handles(c: Config, p: string, addrs: seq<string>): (hs: seq<Resource>)
    requires p in c.specs
    ensures |hs| == |addrs|
    ensures forall w :: 0 <= w < |hs| ==> hs[w] == Resource(Id(p, c.run, w), c.specs[p].provider, addrs[w], Created)
  {
    seq(|addrs|, w requires 0 <= w < |addrs| => Resource(Id(p, c.run, w), c.specs[p].provider, addrs[w], Created))
  }

  /** The fake provider's `acquire`: one tagged entry per worker, all other entries kept. */
  function CloudWith(c: Config, p: string, n: nat, cloud: map<Id, CloudRecord>): (r: map<Id, CloudRecord>)
    requires p in c.specs
    ensures forall id :: id in r <==> id in cloud || (id.pool == p && id.run == c.run && id.w < n)
    ensures forall id :: id in r ==>
      r[id] == (if id.pool == p && id.run == c.run && id.w < n
                then CloudRecord(c.specs[p].provider, TagFor(c.run), c.run) else cloud[id])
  {
    if n == 0 then cloud
    else CloudWith(c, p, n - 1, cloud)[Id(p, c.run, n - 1) := CloudRecord(c.specs[p].provider, TagFor(c.run), c.run)]
  }

  function AfterRecording(t: Thread): Stage {
    if |t.pos| < |t.handles| then Recording else NextHandle(t)
  }

  function NextHandle(t: Thread): Stage {
    if t.marks / 2 < |t.handles| then Booting else Publishing
  }

  function AfterFlush(t: Thread): Stage {
    match t.stage
    case Recording => AfterRecording(t)
    case MarkingBoot => Checking
    case MarkingOk => NextHandle(t)
    case Publishing => Reporting(PoolOk(FirstAddress(t.handles)))
    case Failing(o) => Reporting(o)
    case other => other
  }

  function AcquireThread(c: Config, p: string, t: Thread, addrs: seq<string>): Thread
    requires p in c.specs
  {
    match c.specs[p].acquired
    case NoCapacity => t.(stage := Failing(OutOfCapacity))
    case Refused => t.(stage := Failing(Errored))
    case Granted(_) => t.(handles := Handles(c, p, addrs), stage := if addrs == [] then Publishing else Recording)
  }

  function MutateMem(c: Config, p: string, t: Thread, mem: Record): Record
    requires p in c.specs
  {
    match t.stage
    case Recording => if |t.pos| < |t.handles| then mem.(resources := mem.resources + [t.handles[|t.pos|]]) else mem
    case MarkingBoot => mem.(resources := Marked(mem.resources, Id(p, c.run, t.marks / 2), Bootstrapped))
    case MarkingOk => mem.(resources := Marked(mem.resources, Id(p, c.run, t.marks / 2), Verified))
    case Publishing => mem.(pools := mem.pools[c.specs[p].backend := FirstAddress(t.handles)])
    case _ => mem
  }

  function MutateEvent(c: Config, p: string, t: Thread): Event
    requires p in c.specs
  {
    match t.stage
    case Recording => ResourceCreated(Id(p, c.run, |t.pos|))
    case MarkingBoot => ResourceUpdated(Id(p, c.run, t.marks / 2), Bootstrapped)
    case MarkingOk => ResourceUpdated(Id(p, c.run, t.marks / 2), Verified)
    case Publishing => PoolWired(c.specs[p].backend, FirstAddress(t.handles))
    case Failing(o) => if o.OutOfCapacity? then CapacityOut(p) else PoolFailed(p)
    case _ => PoolFailed(p)
  }

  function MutateThread(c: Config, p: string, t: Thread, mem: Record): Thread
    requires p in c.specs
  {
    var t1 := t.(save := Logging(MutateEvent(c, p, t)));
    match t.stage
    case Recording => t1.(pos := t.pos + [|mem.resources|])
    case MarkingBoot => t1.(marks := t.marks + 1)
    case MarkingOk => t1.(marks := t.marks + 1)
    case Publishing => t1.(published := true)
    case _ => t1
  }

  /** Both adapter calls of the loop body: does this one succeed for the current handle? */
  predicate Succeeds(c: Config, p: string, t: Thread, booting: bool)
    requires p in c.specs
  {
    && c.specs[p].acquired.Granted?
    && t.marks / 2 < |c.specs[p].acquired.fates|
    && (if booting then c.specs[p].acquired.fates[t.marks / 2].boots else c.specs[p].acquired.fates[t.marks / 2].passes)
  }

  function Apply(c: Config, s: Sys, step: Step): Sys
    requires s.threads.Keys == c.specs.Keys && Enabled(c, s, step)
  {
    match step
    case Persist => s.(main := Saved, disk := Some(s.mem))
    case Initialise =>
      var mem := WithStatus(s.mem, Initializing);
      s.(main := Spawning, mem := mem, disk := Some(mem))
    case Spawn(p) => s.(threads := s.threads[p := s.threads[p].(stage := Acquiring)])
    case Acquire(p, addrs) =>
      s.(threads := s.threads[p := AcquireThread(c, p, s.threads[p], addrs)],
         cloud := if c.specs[p].acquired.Granted? then CloudWith(c, p, |addrs|, s.cloud) else s.cloud)
    case Boot(p) =>
      var t := s.threads[p];
      s.(threads := s.threads[p := t.(stage := if Succeeds(c, p, t, true) then MarkingBoot else Failing(Errored))])
    case Check(p) =>
      var t := s.threads[p];
      s.(threads := s.threads[p := t.(stage :=
        if Succeeds(c, p, t, false) && Id(p, c.run, t.marks / 2) in s.cloud then MarkingOk else Failing(Errored))])
    case Mutate(p) =>
      var t := s.threads[p];
      s.(threads := s.threads[p := MutateThread(c, p, t, s.mem)], mem := MutateMem(c, p, t, s.mem))
    case Append(p) =>
      var t := s.threads[p];
      s.(threads := s.threads[p := t.(save := Waiting, logged := |s.mem.events| + 1)], mem := Logged(s.mem, t.save.e))
    case Lock(p) =>
      s.(threads := s.threads[p := s.threads[p].(save := Reading(|s.mem.resources|, [], None, None))], lock := Some(p))
    case ReadOne(p) =>
      var t := s.threads[p];
      s.(threads := s.threads[p := t.(save := t.save.(res := t.save.res + [s.mem.resources[|t.save.res|]]))])
    case ReadPools(p) =>
      var t := s.threads[p];
      s.(threads := s.threads[p := t.(save := t.save.(pools := Some(s.mem.pools)))])
    case ReadEvents(p) =>
      var t := s.threads[p];
      s.(threads := s.threads[p := t.(save := t.save.(events := Some(s.mem.events)))])
    case Write(p) =>
      var t := s.threads[p];
      s.(threads := s.threads[p := t.(save := Idle, stage := AfterFlush(t), flushed := t.logged)],
         disk := Some(Record(s.mem.status, t.save.res, t.save.pools.value, t.save.events.value)),
         lock := None)
    case Report(p) =>
      var t := s.threads[p];
      s.(threads := s.threads[p := t.(stage := Finished(t.stage.o))], results := s.results[p := t.stage.o])
  }

  /** `steps` is a run of the system from `s` to `s'`. */
  ghost predicate Runs(c: Config, s: Sys, steps: seq<Step>, s': Sys)
    decreases |steps|
  {
    if steps == [] then s' == s
    else
      && s.threads.Keys == c.specs.Keys
      && Enabled(c, s, steps[0])
      && Runs(c, Apply(c, s, steps[0]), steps[1..], s')
  }

  ghost predicate Reachable(c: Config, cloud: map<Id, CloudRecord>, s: Sys) {
    exists steps :: Runs(c, Init(c, cloud), steps, s)
  }
}
