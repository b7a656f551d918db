/**
 The audit log under concurrency: whatever the interleaving, the events about one pool are,
 in order, exactly the story of what its thread has done.
 */
module BringUpAudit {
  import opened Common
  import opened RunRecord
  import opened BringUp
  import opened BringUpInvariant
  import opened BringUpTheorems

  // ---------------------------------------------------------------- stories

  /** The handles 0 to n - 1 were created, in this order. */
  function Creations(p: string, run: string, n: nat): (es: seq<Event>)
    ensures |es| == n
  {
    seq(n, w requires 0 <= w < n => ResourceCreated(Id(p, run, w)))
  }

  /** Every second change verifies the handle that the one before it had bootstrapped. */
  function Changes(p: string, run: string, n: nat): (es: seq<Event>)
    ensures |es| == n
  {
    seq(n, m requires 0 <= m < n => ResourceUpdated(Id(p, run, m / 2), if m % 2 == 0 then Bootstrapped else Verified))
  }

  /** The last event of a pool, by its outcome. */
  function Ending(c: Config, p: string, o: Outcome): Event
    requires p in c.specs
  {
    match o
    case PoolOk(addr) => PoolWired(c.specs[p].backend, addr)
    case OutOfCapacity => CapacityOut(p)
    case Errored => PoolFailed(p)
  }

  function Story(c: Config, p: string, created: nat, changed: nat, end: Option<Event>): seq<Event> {
    Creations(p, c.run, created) + Changes(p, c.run, changed) + if end.Some? then [end.value] else []
  }

  /** The whole story of a pool that ended in `o` after `hs` handles and `changed` state changes. */
  function WholeStory(c: Config, p: string, created: nat, changed: nat, o: Outcome): seq<Event>
    requires p in c.specs
  {
    Story(c, p, created, changed, Some(Ending(c, p, o)))
  }

  /** The event is about this pool. */
  predicate About(c: Config, p: string, e: Event)
    requires p in c.specs
  {
    match e
    case ResourceCreated(id) => id.pool == p
    case ResourceUpdated(id, _) => id.pool == p
    case PoolWired(b, _) => b == c.specs[p].backend
    case CapacityOut(q) => q == p
    case PoolFailed(q) => q == p
    case _ => false
  }

  /** The events about one pool, in log order. */
  function Own(c: Config, p: string, events: seq<Event>): seq<Event>
    requires p in c.specs
  {
    if events == [] then []
    else Own(c, p, events[..|events| - 1]) + if About(c, p, events[|events| - 1]) then [events[|events| - 1]] else []
  }

  lemma OwnMore(c: Config, p: string, events: seq<Event>, e: Event)
    requires p in c.specs
    ensures Own(c, p, events + [e]) == Own(c, p, events) + if About(c, p, e) then [e] else []
  {
    assert (events + [e])[..|events + [e]| - 1] == events;
  }

  lemma {:induction false} OwnOfPrefix(c: Config, p: string, part: seq<Event>, events: seq<Event>)
    requires p in c.specs && part <= events
    ensures Own(c, p, part) <= Own(c, p, events)
  {
    if |part| < |events| {
      OwnOfPrefix(c, p, part, events[..|events| - 1]);
    } else {
      assert part == events;
    }
  }

  // ---------------------------------------------------------------- what the log says of a thread

  /** The field is changed but the event is not in the log yet. */
  predicate Pending(t: Thread) {
    t.save.Logging?
  }

  function CreatedSoFar(t: Thread): nat {
    if t.stage.Recording? && Pending(t) && |t.pos| > 0 then |t.pos| - 1 else |t.pos|
  }

  function ChangedSoFar(t: Thread): nat {
    if (t.stage.MarkingBoot? || t.stage.MarkingOk?) && Pending(t) && t.marks > 0 then t.marks - 1 else t.marks
  }

  function EndSoFar(c: Config, p: string, t: Thread): Option<Event>
    requires p in c.specs
  {
    match t.stage
    case Publishing => if t.published && !Pending(t) then Some(PoolWired(c.specs[p].backend, FirstAddress(t.handles))) else None
    case Failing(o) => if t.save.Idle? || Pending(t) then None else Some(Ending(c, p, o))
    case Reporting(o) => Some(Ending(c, p, o))
    case Finished(o) => Some(Ending(c, p, o))
    case _ => None
  }

  function Told(c: Config, p: string, t: Thread): seq<Event>
    requires p in c.specs
  {
    Story(c, p, CreatedSoFar(t), ChangedSoFar(t), EndSoFar(c, p, t))
  }

  /** The event about to be appended describes the change just made. */
  predicate SaysWhatWasDone(c: Config, p: string, t: Thread)
    requires p in c.specs
  {
    t.save.Logging? ==>
      match t.stage
      case Recording => |t.pos| > 0 && t.save.e == ResourceCreated(Id(p, c.run, |t.pos| - 1))
      case MarkingBoot => t.marks > 0 && t.save.e == ResourceUpdated(Id(p, c.run, (t.marks - 1) / 2), Bootstrapped)
      case MarkingOk => t.marks > 0 && t.save.e == ResourceUpdated(Id(p, c.run, (t.marks - 1) / 2), Verified)
      case Publishing => t.save.e == PoolWired(c.specs[p].backend, FirstAddress(t.handles))
      case Failing(o) => t.save.e == Ending(c, p, o)
      case _ => false
  }

  ghost predicate ToldOf(c: Config, s: Sys, p: string)
    requires p in c.specs && p in s.threads
  {
    Own(c, p, s.mem.events) == Told(c, p, s.threads[p]) && SaysWhatWasDone(c, p, s.threads[p])
  }

  /** The first event is the start of the run and every other one is about some pool. */
  ghost predicate NothingElse(c: Config, events: seq<Event>) {
    forall k :: 0 <= k < |events| ==>
      if k == 0 then events[k] == StatusTo(Initializing) else exists p :: p in c.specs && About(c, p, events[k])
  }

  ghost predicate Audit(c: Config, s: Sys) {
    && s.threads.Keys == c.specs.Keys
    && (forall p :: p in c.specs ==> ToldOf(c, s, p))
    && NothingElse(c, s.mem.events) && (s.main.Spawning? ==> s.mem.events != [])
  }

  // ---------------------------------------------------------------- steps of one thread

  /** A thread's step that is no append tells nothing new. */
  predicate SameStory(c: Config, p: string, t: Thread, t': Thread)
    requires p in c.specs
  {
    && CreatedSoFar(t') == CreatedSoFar(t) && ChangedSoFar(t') == ChangedSoFar(t)
    && EndSoFar(c, p, t') == EndSoFar(c, p, t) && SaysWhatWasDone(c, p, t')
  }

  lemma AcquireTells(c: Config, p: string, t: Thread, addrs: seq<string>)
    requires LocalOk(c, p, t) && t.stage.Acquiring?
    ensures SameStory(c, p, t, AcquireThread(c, p, t, addrs))
  {
  }

  lemma MutateTells(c: Config, p: string, t: Thread, mem: Record)
    requires LocalOk(c, p, t) && IsMutator(t.stage) && t.save.Idle?
    ensures SameStory(c, p, t, MutateThread(c, p, t, mem))
  {
    hide FirstAddress, Verdicts;
  }

  lemma WriteTells(c: Config, p: string, t: Thread, t': Thread)
    requires LocalOk(c, p, t) && t.save.Reading? && t' == t.(save := Idle, stage := AfterFlush(t), flushed := t.logged)
    ensures SameStory(c, p, t, t')
  {
    hide FirstAddress, Verdicts;
  }

  lemma StageTells(c: Config, p: string, t: Thread, stage: Stage)
    requires LocalOk(c, p, t)
    requires (t.stage.Unborn? && stage.Acquiring?) || (t.stage.Reporting? && stage == Finished(t.stage.o))
      || (t.stage.Booting? && (stage.MarkingBoot? || stage.Failing?)) || (t.stage.Checking? && (stage.MarkingOk? || stage.Failing?))
    ensures SameStory(c, p, t, t.(stage := stage))
  {
    hide FirstAddress, Verdicts;
  }

  /** Between the append and the flush. */
  lemma SavingTells(c: Config, p: string, t: Thread, save: Save)
    requires p in c.specs && (t.save.Waiting? || t.save.Reading?) && save.Reading?
    ensures SameStory(c, p, t, t.(save := save))
  {
    hide FirstAddress;
  }

  /** An append tells exactly its event. */
  lemma AppendTells(c: Config, p: string, t: Thread, t': Thread)
    requires LocalOk(c, p, t) && SaysWhatWasDone(c, p, t) && t.save.Logging? && t'.save.Waiting? && t' == t.(save := t'.save, logged := t'.logged)
    ensures Told(c, p, t') == Told(c, p, t) + [t.save.e] && SaysWhatWasDone(c, p, t')
    ensures About(c, p, t.save.e)
    ensures WellFormed(c) ==> forall q :: q in c.specs && q != p ==> !About(c, q, t.save.e)
  {
    hide FirstAddress, Verdicts;
    var e := t.save.e;
    match t.stage {
      case Recording =>
        assert Creations(p, c.run, |t.pos|) == Creations(p, c.run, |t.pos| - 1) + [e];
      case MarkingBoot =>
        assert Changes(p, c.run, t.marks) == Changes(p, c.run, t.marks - 1) + [e];
      case MarkingOk =>
        assert Changes(p, c.run, t.marks) == Changes(p, c.run, t.marks - 1) + [e];
      case _ =>
    }
  }

  // ---------------------------------------------------------------- steps of the system

  lemma OtherwiseSame(c: Config, s: Sys, s': Sys, p: string)
    requires Audit(c, s) && p in c.specs && p in s'.threads && s'.threads == s.threads[p := s'.threads[p]]
    requires s'.mem.events == s.mem.events && s'.main == s.main
    requires SameStory(c, p, s.threads[p], s'.threads[p])
    ensures Audit(c, s')
  {
    hide Own, Story, SaysWhatWasDone, EndSoFar, CreatedSoFar, ChangedSoFar, NothingElse;
    forall q | q in c.specs ensures ToldOf(c, s', q) {
      assert ToldOf(c, s, q);
    }
  }

  lemma AppendAudits(c: Config, s: Sys, p: string)
    requires WellFormed(c) && Audit(c, s) && p in s.threads && s.threads[p].save.Logging? && LocalOk(c, p, s.threads[p])
    requires s.main.Spawning?
    ensures Audit(c, Apply(c, s, Append(p)))
  {
    hide Own, Told, SaysWhatWasDone, LocalOk, WellFormed, About;
    var s' := Apply(c, s, Append(p));
    var e := s.threads[p].save.e;
    assert ToldOf(c, s, p);
    AppendTells(c, p, s.threads[p], s'.threads[p]);
    forall q | q in c.specs ensures ToldOf(c, s', q) {
      assert ToldOf(c, s, q);
      OwnMore(c, q, s.mem.events, e);
      assert q != p ==> Own(c, q, s.mem.events) + [] == Own(c, q, s.mem.events);
    }
  }

  lemma PersistAudits(c: Config, s: Sys)
    requires Audit(c, s) && s.main.New?
    ensures Audit(c, Apply(c, s, Persist))
  {
    hide Own, Told, SaysWhatWasDone, NothingElse;
    forall p | p in c.specs ensures ToldOf(c, Apply(c, s, Persist), p) {
      assert ToldOf(c, s, p);
    }
  }

  lemma InitialiseAudits(c: Config, s: Sys)
    requires Audit(c, s) && s.main.Saved? && s.mem.events == []
    ensures Audit(c, Apply(c, s, Initialise))
  {
    hide Told, SaysWhatWasDone;
    forall p | p in c.specs ensures ToldOf(c, Apply(c, s, Initialise), p) {
      assert ToldOf(c, s, p);
      OwnMore(c, p, [], StatusTo(Initializing));
      assert [] + [StatusTo(Initializing)] == [StatusTo(Initializing)];
    }
  }

  lemma StepAudits(c: Config, cloud0: map<Id, CloudRecord>, s: Sys, step: Step)
    requires Inv(c, cloud0, s) && Enabled(c, s, step) && Audit(c, s)
    ensures s.threads.Keys == c.specs.Keys && Audit(c, Apply(c, s, step))
  {
    hide Inv, ToldOf, NothingElse, LocalOk, SameStory, MutateThread, AcquireThread, AfterFlush, WellFormed, FreshRun;
    match step {
      case Persist =>
        PersistAudits(c, s);
      case Initialise =>
        BeforeSpawning(c, cloud0, s);
        InitialiseAudits(c, s);
      case Append(p) =>
        LocalFacts(c, cloud0, s, p);
        BeforeSpawning(c, cloud0, s);
        IsBorn(c, p, s.threads[p]);
        AppendAudits(c, s, p);
      case Acquire(p, addrs) =>
        LocalFacts(c, cloud0, s, p);
        AcquireTells(c, p, s.threads[p], addrs);
        OtherwiseSame(c, s, Apply(c, s, step), p);
      case Mutate(p) =>
        LocalFacts(c, cloud0, s, p);
        MutateTells(c, p, s.threads[p], s.mem);
        MutateKeepsLog(c, p, s.threads[p], s.mem);
        OtherwiseSame(c, s, Apply(c, s, step), p);
      case Write(p) =>
        LocalFacts(c, cloud0, s, p);
        WriteTells(c, p, s.threads[p], Apply(c, s, step).threads[p]);
        OtherwiseSame(c, s, Apply(c, s, step), p);
      case Lock(p) =>
        SavingTells(c, p, s.threads[p], Apply(c, s, step).threads[p].save);
        OtherwiseSame(c, s, Apply(c, s, step), p);
      case ReadOne(p) =>
        SavingTells(c, p, s.threads[p], Apply(c, s, step).threads[p].save);
        OtherwiseSame(c, s, Apply(c, s, step), p);
      case ReadPools(p) =>
        SavingTells(c, p, s.threads[p], Apply(c, s, step).threads[p].save);
        OtherwiseSame(c, s, Apply(c, s, step), p);
      case ReadEvents(p) =>
        SavingTells(c, p, s.threads[p], Apply(c, s, step).threads[p].save);
        OtherwiseSame(c, s, Apply(c, s, step), p);
      case _ =>
        LocalFacts(c, cloud0, s, step.p);
        StageTells(c, step.p, s.threads[step.p], Apply(c, s, step).threads[step.p].stage);
        OtherwiseSame(c, s, Apply(c, s, step), step.p);
    }
  }

  lemma IsBorn(c: Config, p: string, t: Thread)
    requires LocalOk(c, p, t) && !t.save.Idle?
    ensures !t.stage.Unborn?
  {
  }

  lemma MutateKeepsLog(c: Config, p: string, t: Thread, mem: Record)
    requires p in c.specs
    ensures MutateMem(c, p, t, mem).events == mem.events
  {
  }

  lemma BeforeSpawning(c: Config, cloud0: map<Id, CloudRecord>, s: Sys)
    requires Inv(c, cloud0, s)
    ensures WellFormed(c) && (!s.main.Spawning? ==> s.mem.events == [])
  {
    hide Placed, Positions, Pools, Disk, Locking, Threads, Counting, LastWriter, Cloud, Results;
  }

  lemma {:induction false} RunAudits(c: Config, cloud0: map<Id, CloudRecord>, s: Sys, steps: seq<Step>, s': Sys)
    requires Inv(c, cloud0, s) && Audit(c, s) && Runs(c, s, steps, s')
    ensures Audit(c, s')
    decreases |steps|
  {
    hide Inv, Apply, Enabled, Audit;
    if steps != [] {
      StepKeeps(c, cloud0, s, steps[0]);
      StepAudits(c, cloud0, s, steps[0]);
      RunAudits(c, cloud0, Apply(c, s, steps[0]), steps[1..], s');
    }
  }

  lemma InitAudits(c: Config, cloud: map<Id, CloudRecord>)
    ensures Audit(c, Init(c, cloud))
  {
  }

  // ---------------------------------------------------------------- theorems

  /**
   In every reachable state the events about a pool are exactly the story of its thread, each
   event appended describes the change made just before, and the log holds nothing else.
   */
  lemma LogTellsTheStory(c: Config, cloud0: map<Id, CloudRecord>, s: Sys, p: string)
    requires WellFormed(c) && FreshRun(c, cloud0) && Reachable(c, cloud0, s) && p in c.specs
    ensures p in s.threads && Own(c, p, s.mem.events) == Told(c, p, s.threads[p])
    ensures SaysWhatWasDone(c, p, s.threads[p]) && NothingElse(c, s.mem.events)
  {
    hide Inv, Runs, Own, Told, SaysWhatWasDone, NothingElse;
    InitInv(c, cloud0);
    InitAudits(c, cloud0);
    var steps :| Runs(c, Init(c, cloud0), steps, s);
    RunAudits(c, cloud0, Init(c, cloud0), steps, s);
    assert ToldOf(c, s, p);
  }

  /** What a crash leaves in the file is a beginning of that story. */
  lemma FileTellsABeginning(c: Config, cloud0: map<Id, CloudRecord>, s: Sys, p: string)
    requires WellFormed(c) && FreshRun(c, cloud0) && Reachable(c, cloud0, s) && p in c.specs && s.disk.Some?
    ensures p in s.threads && Own(c, p, s.disk.value.events) <= Told(c, p, s.threads[p])
  {
    hide Reachable, Own, Told, WellFormed, FreshRun, SaysWhatWasDone, NothingElse;
    LogTellsTheStory(c, cloud0, s, p);
    DiskIsPrefix(c, cloud0, s);
    OwnOfPrefix(c, p, s.disk.value.events, s.mem.events);
  }

  /**
   After the join the whole story follows from the specification: every handle created, every
   successful call recorded in order up to the first that failed, and the outcome last.
   */
  lemma JoinedStory(c: Config, cloud0: map<Id, CloudRecord>, s: Sys, p: string)
    requires WellFormed(c) && FreshRun(c, cloud0) && Reachable(c, cloud0, s) && AllFinished(s) && p in c.specs
    ensures p in s.results && VerdictOf(s.results[p]) == Expected(c.specs[p])
    ensures Own(c, p, s.mem.events) ==
      match c.specs[p].acquired
      case Granted(fates) => WholeStory(c, p, |fates|, GoodCalls(fates), s.results[p])
      case _ => WholeStory(c, p, 0, 0, s.results[p])
  {
    hide Reachable, Own, WellFormed, FreshRun, NothingElse, SaysWhatWasDone, GoodCalls, Inv, Joined;
    LogTellsTheStory(c, cloud0, s, p);
    ReachableInv(c, cloud0, s);
    LocalFacts(c, cloud0, s, p);
    BringUpIsConfluent(c, cloud0, s);
    OutcomeOf(c, cloud0, s, p);
    FinishedStory(c, p, s.threads[p]);
  }

  lemma OutcomeOf(c: Config, cloud0: map<Id, CloudRecord>, s: Sys, p: string)
    requires Inv(c, cloud0, s) && AllFinished(s) && p in c.specs
    ensures p in s.threads && s.threads[p].stage.Finished? && p in s.results && s.threads[p].stage == Finished(s.results[p])
    ensures VerdictOf(s.results[p]) == Expected(c.specs[p])
  {
    hide Placed, Positions, Pools, Disk, Locking, Counting, LastWriter, Cloud, Starting;
    assert s.threads[p].stage.Finished?;
  }

  lemma FinishedStory(c: Config, p: string, t: Thread)
    requires LocalOk(c, p, t) && t.stage.Finished?
    ensures Told(c, p, t) ==
      match c.specs[p].acquired
      case Granted(fates) => WholeStory(c, p, |fates|, GoodCalls(fates), t.stage.o)
      case _ => WholeStory(c, p, 0, 0, t.stage.o)
  {
    hide GoodCalls, FirstAddress, Story;
    if c.specs[p].acquired.Granted? {
      MarksAreGoodCalls(c, p, t);
    }
  }
}
