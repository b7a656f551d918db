/**
 The `Orchestrator` of orchestrator/engine.py on its own objects: the serial bring-up of
 one pool, what `up` does after the join, `down`, `_teardown_all` and `reap`.
 */
module Engine {
  import opened Common
  import opened RunRecord
  import opened RunStateObject
  import opened PoolMap
  import opened WiringObject
  import opened BringUp
  import opened BringUpInvariant
  import opened BringUpTheorems
  import opened Provider
  import opened History

  // ---------------------------------------------------------------- what a crash may leave

  /**
   The run being watched: what the provider held before it, the providers it uses, and
   the ids that a crash inside an acquire window has already lost.
   */
  datatype Scope = Scope(run: string, before: map<Id, CloudRecord>, providers: set<string>, lost: set<Id>)

  /** The provider's entry is one this run made. */
  predicate IsOurs(scope: Scope, rec: CloudRecord) {
    rec.run == scope.run && rec.tag == TagFor(scope.run) && rec.provider in scope.providers
  }

  /**
   What the provider held before is untouched, what it holds besides is this run's and,
   unless lost, on disk as something `down` will destroy; and nothing else is on disk.
   */
  ghost predicate Safe(scope: Scope, d: Durable) {
    && d.disk.Some? && DistinctIds(d.disk.value.resources)
    && (forall j :: 0 <= j < |d.disk.value.resources| ==> d.disk.value.resources[j].id !in scope.before)
    && (forall id :: id in scope.before ==> id in d.held && d.held[id] == scope.before[id] && d.held[id].run != scope.run)
    && (forall id :: id in d.held && id !in scope.before ==>
          IsOurs(scope, d.held[id]) && (id in scope.lost || ActiveOn(d.disk.value.resources, id)))
  }

  /** Everything durable that was added to the past since `start` is safe. */
  ghost predicate Kept(scope: Scope, start: seq<Durable>, past: seq<Durable>) {
    start <= past && forall k :: |start| <= k < |past| ==> Safe(scope, past[k])
  }

  function ScopeOf(c: Config, before: map<Id, CloudRecord>, lost: set<Id>): Scope {
    Scope(c.run, before, set p | p in c.specs :: c.specs[p].provider, lost)
  }

  /** The ids the provider holds for the run that the file does not list yet. */
  ghost function LostIn(cloud0: map<Id, CloudRecord>, s: Sys): set<Id> {
    set id | id in s.cloud && id !in cloud0 && !Recorded(s, id)
  }

  /** Every crash of the bring-up leaves something safe. */
  lemma CrashIsSafe(c: Config, cloud0: map<Id, CloudRecord>, s: Sys, file: Option<string>)
    requires WellFormed(c) && FreshRun(c, cloud0) && Reachable(c, cloud0, s) && s.disk.Some?
    ensures Safe(ScopeOf(c, cloud0, LostIn(cloud0, s)), Durable(s.disk, s.cloud, file))
  {
    hide Reachable, WellFormed, InWindow, ActiveOn, Recorded;
    DiskIdsDistinct(c, cloud0, s);
    OthersAreKept(c, cloud0, s);
    var rs := s.disk.value.resources;
    forall j | 0 <= j < |rs| ensures rs[j].id !in cloud0 {
      DiskRecordsAreReal(c, cloud0, s, j);
    }
    forall id | id in s.cloud && id !in cloud0
      ensures IsOurs(ScopeOf(c, cloud0, LostIn(cloud0, s)), s.cloud[id]) && (id in LostIn(cloud0, s) || ActiveOn(rs, id))
    {
      RunIsTagged(c, cloud0, s, id);
      CrashLosesNothing(c, cloud0, s, id);
    }
  }

  /** After the join no thread is between `acquire` and `add_resource` any more. */
  lemma JoinedIsSafe(c: Config, cloud0: map<Id, CloudRecord>, s: Sys, file: Option<string>)
    requires WellFormed(c) && FreshRun(c, cloud0) && Reachable(c, cloud0, s) && AllFinished(s)
    ensures s.disk == Some(s.mem) && Safe(ScopeOf(c, cloud0, {}), Durable(s.disk, s.cloud, file))
  {
    hide Reachable, WellFormed, Safe, Recorded;
    JoinedDiskIsMemory(c, cloud0, s);
    CrashIsSafe(c, cloud0, s, file);
    forall id | id in s.cloud && id !in cloud0 ensures Recorded(s, id) {
      RunIsTagged(c, cloud0, s, id);
      CrashLosesNothing(c, cloud0, s, id);
    }
    assert LostIn(cloud0, s) == {};
  }

  lemma NothingYet(scope: Scope, start: seq<Durable>)
    ensures Kept(scope, start, start)
  {
  }

  /** One more safe durable state. */
  lemma OneMoreState(scope: Scope, start: seq<Durable>, past: seq<Durable>, d: Durable)
    requires Kept(scope, start, past) && Safe(scope, d)
    ensures Kept(scope, start, past + [d])
  {
  }

  lemma ThenMore(scope: Scope, start: seq<Durable>, past: seq<Durable>, more: seq<Durable>)
    requires Kept(scope, start, past) && Kept(scope, past, more)
    ensures Kept(scope, start, more)
  {
  }

  /** A flush that leaves the resources as they were. */
  lemma SafeFlush(scope: Scope, start: seq<Durable>, past: seq<Durable>, rec: Record)
    requires past != [] && Kept(scope, start, past) && Safe(scope, Last(past))
    requires rec.resources == Last(past).disk.value.resources
    ensures Kept(scope, start, WithDisk(past, rec)) && Safe(scope, Last(WithDisk(past, rec)))
  {
    hide DistinctIds, ActiveOn;
    OneMoreState(scope, start, past, Last(past).(disk := Some(rec)));
  }

  lemma SafeFile(scope: Scope, start: seq<Durable>, past: seq<Durable>, text: string)
    requires past != [] && Kept(scope, start, past) && Safe(scope, Last(past))
    ensures Kept(scope, start, WithFile(past, text)) && Safe(scope, Last(WithFile(past, text)))
  {
    hide DistinctIds, ActiveOn;
    OneMoreState(scope, start, past, Last(past).(file := Some(text)));
  }

  /** Destroying something listed as active, or failing to. */
  lemma SafeTeardown(scope: Scope, start: seq<Durable>, past: seq<Durable>, id: Id, gone: bool)
    requires past != [] && Kept(scope, start, past) && Safe(scope, Last(past))
    requires ActiveOn(Last(past).disk.value.resources, id)
    ensures var held := if gone then Without(Last(past).held, {id}) else Last(past).held;
      Kept(scope, start, WithHeld(past, held)) && Safe(scope, Last(WithHeld(past, held)))
  {
    hide DistinctIds;
    var held := if gone then Without(Last(past).held, {id}) else Last(past).held;
    OneMoreState(scope, start, past, Last(past).(held := held));
  }

  /** Striking off what the provider no longer holds: the order `teardown`, then record, matters here. */
  lemma SafeMark(scope: Scope, start: seq<Durable>, past: seq<Durable>, id: Id, rec: Record)
    requires past != [] && Kept(scope, start, past) && Safe(scope, Last(past))
    requires rec.resources == Marked(Last(past).disk.value.resources, id, TornDown) && id !in Last(past).held
    ensures Kept(scope, start, WithDisk(past, rec)) && Safe(scope, Last(WithDisk(past, rec)))
  {
    OthersStayActive(Last(past).disk.value.resources, id);
    hide ActiveOn;
    OneMoreState(scope, start, past, Last(past).(disk := Some(rec)));
  }

  /** The three objects write to one journal, whose latest entry is their durable part. */
  ghost predicate InStep(st: RunState, cloud: Cloud, wiring: Wiring)
    reads st, cloud, wiring, st.journal
  {
    && cloud.journal == st.journal && wiring.journal == st.journal
    && st.Flushed()
    && Last(st.journal.past) == Durable(st.disk, cloud.held, wiring.file)
  }

  // ---------------------------------------------------------------- teardown

  /** Every active handle whose teardown returned is `torn_down`; every other handle is as before. */
  function AfterTeardown(rs: seq<Resource>, faults: map<Id, Fault>): (out: seq<Resource>)
    ensures |out| == |rs|
    ensures forall j :: 0 <= j < |rs| ==>
      out[j] == if FaultOf(faults, rs[j].id).Fine? then rs[j].(state := TornDown) else rs[j]
  {
    seq(|rs|, j requires 0 <= j < |rs| =>
      if FaultOf(faults, rs[j].id).Fine? then rs[j].(state := TornDown) else rs[j])
  }

  /** Every active handle is gone at the provider, unless its teardown raised before it let go. */
  function CloudAfter(held: map<Id, CloudRecord>, rs: seq<Resource>, faults: map<Id, Fault>): (out: map<Id, CloudRecord>)
    ensures forall id :: id in out <==>
      id in held && (!ActiveOn(rs, id) || FaultOf(faults, id).RaisesBefore?)
    ensures forall id :: id in out ==> out[id] == held[id]
  {
    map id | id in held && ((forall j :: 0 <= j < |rs| && rs[j].id == id ==> rs[j].state == TornDown)
                            || FaultOf(faults, id).RaisesBefore?) :: held[id]
  }

  function IdsOf(rs: seq<Resource>): seq<Id> {
    seq(|rs|, j requires 0 <= j < |rs| => rs[j].id)
  }

  /** What `_teardown_all` logs: one event for each active handle, in list order. */
  function TeardownEvents(active: seq<Resource>, faults: map<Id, Fault>): (es: seq<Event>)
    ensures |es| == |active|
  {
    seq(|active|, j requires 0 <= j < |active| =>
      if FaultOf(faults, active[j].id).Fine? then ResourceUpdated(active[j].id, TornDown) else TeardownError(active[j].id))
  }

  lemma OneMoreEvent(active: seq<Resource>, i: nat, faults: map<Id, Fault>)
    requires i < |active|
    ensures TeardownEvents(active[..i + 1], faults) == TeardownEvents(active[..i], faults)
      + [if FaultOf(faults, active[i].id).Fine? then ResourceUpdated(active[i].id, TornDown) else TeardownError(active[i].id)]
  {
  }

  /** One of the first `n` handles has this id, and its teardown got as far as the provider. */
  ghost predicate Released(active: seq<Resource>, n: nat, faults: map<Id, Fault>, id: Id)
    requires n <= |active|
  {
    exists k :: 0 <= k < n && active[k].id == id && !FaultOf(faults, id).RaisesBefore?
  }

  /** The list after the first `n` active handles have been dealt with. */
  ghost predicate DealtWith(rs: seq<Resource>, now: seq<Resource>, active: seq<Resource>, n: nat, faults: map<Id, Fault>)
    requires n <= |active|
  {
    && |now| == |rs|
    && forall j :: 0 <= j < |rs| ==>
         now[j] == if rs[j] in active[..n] && FaultOf(faults, rs[j].id).Fine? then rs[j].(state := TornDown) else rs[j]
  }

  lemma NextIsActive(rs: seq<Resource>, now: seq<Resource>, active: seq<Resource>, n: nat, faults: map<Id, Fault>) returns (k: nat)
    requires n < |active| && DistinctIds(rs) && active == Active(rs) && DealtWith(rs, now, active, n, faults)
    ensures k < |rs| == |now| && rs[k] == active[n] == now[k] && active[n].state != TornDown
    ensures active[n] !in active[..n]
  {
    hide Active;
    var r := active[n];
    assert r in active;
    k :| 0 <= k < |rs| && rs[k] == r;
    assert forall i :: 0 <= i < n ==> active[i].id != r.id;
    assert r !in active[..n];
  }

  lemma SameIds(rs: seq<Resource>, now: seq<Resource>, active: seq<Resource>, n: nat, faults: map<Id, Fault>)
    requires n <= |active| && DistinctIds(rs) && DealtWith(rs, now, active, n, faults)
    ensures DistinctIds(now) && forall j :: 0 <= j < |rs| ==> now[j].id == rs[j].id
  {
    forall j | 0 <= j < |rs| ensures now[j].id == rs[j].id {
      assert now[j] == rs[j] || now[j] == rs[j].(state := TornDown);
    }
  }

  lemma DealWithNext(rs: seq<Resource>, now: seq<Resource>, active: seq<Resource>, n: nat, faults: map<Id, Fault>)
    requires n < |active| && DistinctIds(rs) && active == Active(rs) && DealtWith(rs, now, active, n, faults)
    ensures DistinctIds(now) && HasId(now, active[n].id) && ActiveOn(now, active[n].id)
    ensures DealtWith(rs, if FaultOf(faults, active[n].id).Fine? then Marked(now, active[n].id, TornDown) else now,
                      active, n + 1, faults)
  {
    hide Active, DistinctIds, DealtWith;
    var k := NextIsActive(rs, now, active, n, faults);
    SameIds(rs, now, active, n, faults);
    MarkNext(rs, now, active, n, faults, k);
  }

  lemma MarkNext(rs: seq<Resource>, now: seq<Resource>, active: seq<Resource>, n: nat, faults: map<Id, Fault>, k: nat)
    requires n < |active| && DistinctIds(rs) && DealtWith(rs, now, active, n, faults)
    requires k < |rs| && rs[k] == active[n] && active[n] !in active[..n]
    requires forall j :: 0 <= j < |rs| ==> now[j].id == rs[j].id
    ensures DealtWith(rs, if FaultOf(faults, active[n].id).Fine? then Marked(now, active[n].id, TornDown) else now,
                      active, n + 1, faults)
  {
    var r := active[n];
    assert active[..n + 1] == active[..n] + [r];
    forall j | 0 <= j < |rs| ensures rs[j] in active[..n + 1] <==> rs[j] in active[..n] || j == k {
      if rs[j] == r {
        assert j == k;
      }
    }
    forall j | 0 <= j < |rs| && j != k ensures rs[j].id != r.id {
    }
  }

  lemma DealtWithAll(rs: seq<Resource>, now: seq<Resource>, faults: map<Id, Fault>)
    requires DealtWith(rs, now, Active(rs), |Active(rs)|, faults)
    ensures now == AfterTeardown(rs, faults)
  {
    assert Active(rs)[..|Active(rs)|] == Active(rs);
    forall j | 0 <= j < |rs| ensures now[j] == AfterTeardown(rs, faults)[j] {
      assert rs[j] in Active(rs) <==> rs[j].state != TornDown;
    }
  }

  lemma ReleaseNext(active: seq<Resource>, n: nat, faults: map<Id, Fault>)
    requires n < |active|
    ensures forall id :: Released(active, n + 1, faults, id) <==>
      Released(active, n, faults, id) || (id == active[n].id && !FaultOf(faults, id).RaisesBefore?)
  {
  }

  lemma ReleasedAll(rs: seq<Resource>, faults: map<Id, Fault>, id: Id)
    ensures Released(Active(rs), |Active(rs)|, faults, id) <==> ActiveOn(rs, id) && !FaultOf(faults, id).RaisesBefore?
  {
    if ActiveOn(rs, id) {
      var j :| 0 <= j < |rs| && rs[j].id == id && rs[j].state != TornDown;
      assert rs[j] in Active(rs);
    }
  }

  /** The body of the loop at engine.py:137-145. */
  method TeardownOne(st: RunState, cloud: Cloud, wiring: Wiring, id: Id, fault: Fault, ghost scope: Scope)
    requires InStep(st, cloud, wiring) && Safe(scope, Last(st.journal.past))
    requires ActiveOn(st.resources, id)
    modifies st`resources, st`events, st`disk, cloud`held, cloud`calls, st.journal
    ensures InStep(st, cloud, wiring)
    ensures st.resources == if fault.Fine? then Marked(old(st.resources), id, TornDown) else old(st.resources)
    ensures st.events == old(st.events) + [if fault.Fine? then ResourceUpdated(id, TornDown) else TeardownError(id)]
    ensures cloud.held == if fault.RaisesBefore? then old(cloud.held) else Without(old(cloud.held), {id})
    ensures cloud.calls == old(cloud.calls) + [id]
    ensures |st.journal.past| == |old(st.journal.past)| + 2
    ensures Kept(scope, old(st.journal.past), st.journal.past) && Safe(scope, Last(st.journal.past))
  {
    hide Safe, Kept, ActiveOn;
    ghost var start := st.journal.past;
    NothingYet(scope, start);
    SafeIsDistinct(scope, Last(start));
    ActiveIsListed(st.resources, id);
    var ok := cloud.Teardown(id, fault);
    SafeTeardown(scope, start, start, id, !fault.RaisesBefore?);
    ghost var between := st.journal.past;
    if ok {
      var found := st.UpdateResource(id, TornDown);
      SafeMark(scope, start, between, id, st.View());
    } else {
      st.Log(TeardownError(id));
      SafeFlush(scope, start, between, st.View());
    }
  }

  lemma SafeIsDistinct(scope: Scope, d: Durable)
    requires Safe(scope, d)
    ensures d.disk.Some? && DistinctIds(d.disk.value.resources)
  {
  }

  lemma ActiveIsListed(rs: seq<Resource>, id: Id)
    requires ActiveOn(rs, id)
    ensures HasId(rs, id)
  {
  }

  lemma OthersStayActive(rs: seq<Resource>, id: Id)
    ensures forall other :: other != id && ActiveOn(rs, other) ==> ActiveOn(Marked(rs, id, TornDown), other)
  {
    forall other | other != id && ActiveOn(rs, other) ensures ActiveOn(Marked(rs, id, TornDown), other) {
      var j :| 0 <= j < |rs| && rs[j].id == other && rs[j].state != TornDown;
      assert Marked(rs, id, TornDown)[j] == rs[j];
    }
  }

  /**
   `_teardown_all`.  Each active handle costs one provider call and one flush, and the run
   stays recoverable after each of them.
   */
  method TeardownAll(st: RunState, cloud: Cloud, wiring: Wiring, faults: map<Id, Fault>, ghost scope: Scope)
    requires InStep(st, cloud, wiring) && Safe(scope, Last(st.journal.past))
    modifies st`resources, st`events, st`disk, cloud`held, cloud`calls, st.journal
    ensures InStep(st, cloud, wiring)
    ensures st.resources == AfterTeardown(old(st.resources), faults)
    ensures st.events == old(st.events) + TeardownEvents(Active(old(st.resources)), faults)
    ensures cloud.held == CloudAfter(old(cloud.held), old(st.resources), faults)
    ensures cloud.calls == old(cloud.calls) + IdsOf(Active(old(st.resources)))
    ensures |st.journal.past| == |old(st.journal.past)| + 2 * |Active(old(st.resources))|
    ensures Kept(scope, old(st.journal.past), st.journal.past) && Safe(scope, Last(st.journal.past))
  {
    hide Safe, Kept, DealtWith, Released, DistinctIds, HasId, ActiveOn, Active, IdsOf, TeardownEvents;
    ghost var rs, held, start := st.resources, cloud.held, st.journal.past;
    NothingYet(scope, start);
    SafeIsDistinct(scope, Last(start));
    var active := Active(st.resources);
    NothingDealtWith(rs, active, faults);
    NoIds();
    var i := 0;
    while i < |active|
      invariant 0 <= i <= |active| && InStep(st, cloud, wiring)
      invariant DealtWith(rs, st.resources, active, i, faults)
      invariant forall id :: id in cloud.held <==> id in held && !Released(active, i, faults, id)
      invariant forall id :: id in cloud.held ==> cloud.held[id] == held[id]
      invariant st.events == old(st.events) + TeardownEvents(active[..i], faults)
      invariant cloud.calls == old(cloud.calls) + IdsOf(active[..i])
      invariant |st.journal.past| == |start| + 2 * i
      invariant Kept(scope, start, st.journal.past) && Safe(scope, Last(st.journal.past))
    {
      var id := active[i].id;
      DealWithNext(rs, st.resources, active, i, faults);
      ReleaseNext(active, i, faults);
      ghost var past := st.journal.past;
      TeardownOne(st, cloud, wiring, id, FaultOf(faults, id), scope);
      ThenMore(scope, start, past, st.journal.past);
      OneMoreId(active, i);
      OneMoreEvent(active, i, faults);
      i := i + 1;
    }
    assert active[..i] == active;
    DealtWithAll(rs, st.resources, faults);
    HeldAfter(held, cloud.held, rs, faults);
  }

  lemma NoIds()
    ensures IdsOf([]) == []
    ensures forall faults :: TeardownEvents([], faults) == []
  {
  }

  lemma OneMoreId(active: seq<Resource>, i: nat)
    requires i < |active|
    ensures IdsOf(active[..i + 1]) == IdsOf(active[..i]) + [active[i].id]
  {
  }

  lemma HeldAfter(held: map<Id, CloudRecord>, now: map<Id, CloudRecord>, rs: seq<Resource>, faults: map<Id, Fault>)
    requires forall id :: id in now <==> id in held && !Released(Active(rs), |Active(rs)|, faults, id)
    requires forall id :: id in now ==> now[id] == held[id]
    ensures now == CloudAfter(held, rs, faults)
  {
    hide Released, ActiveOn;
    forall x: Id {
      ReleasedAll(rs, faults, x);
    }
  }

  lemma NothingDealtWith(rs: seq<Resource>, active: seq<Resource>, faults: map<Id, Fault>)
    ensures DealtWith(rs, rs, active, 0, faults)
    ensures forall id :: !Released(active, 0, faults, id)
  {
  }

  /** No teardown of a listed handle raises. */
  predicate NoFaults(rs: seq<Resource>, faults: map<Id, Fault>) {
    forall j :: 0 <= j < |rs| ==> FaultOf(faults, rs[j].id).Fine?
  }

  /**
   From anything safe, destroying what is on disk, without a failure, leaves what the
   provider held before the run and what a crash had lost, and nothing else.
   */
  lemma DownFromSafe(scope: Scope, d: Durable, faults: map<Id, Fault>)
    requires Safe(scope, d) && NoFaults(d.disk.value.resources, faults)
    ensures var rest := CloudAfter(d.held, d.disk.value.resources, faults);
      && (forall id :: id in rest <==> id in scope.before || (id in d.held && !ActiveOn(d.disk.value.resources, id)))
      && (forall id :: id in rest ==> id in scope.before || id in scope.lost)
      && (forall id :: id in scope.before ==> id in rest && rest[id] == scope.before[id])
    ensures scope.lost == {} ==> CloudAfter(d.held, d.disk.value.resources, faults) == scope.before
  {
    hide CloudAfter, DistinctIds;
    var rs := d.disk.value.resources;
    forall id | ActiveOn(rs, id) ensures FaultOf(faults, id).Fine? && id !in scope.before {
      var j :| 0 <= j < |rs| && rs[j].id == id && rs[j].state != TornDown;
    }
    hide ActiveOn, FaultOf;
  }

  // ---------------------------------------------------------------- down

  /**
   `down`.  False stands for the exception of a failed service restart, after which the
   status is still `aborting` although everything before it has been done.
   */
  method TakeDown(st: RunState, cloud: Cloud, wiring: Wiring, faults: map<Id, Fault>, restartFails: bool, ghost scope: Scope)
    returns (ok: bool, ghost names: seq<string>)
    requires InStep(st, cloud, wiring) && Safe(scope, Last(st.journal.past))
    modifies st`status, st`resources, st`pools, st`events, st`disk, cloud`held, cloud`calls, wiring`pools, wiring`file, st.journal
    ensures InStep(st, cloud, wiring)
    ensures ok == !restartFails && st.status == (if ok then Down else Aborting)
    ensures st.resources == AfterTeardown(old(st.resources), faults) && st.pools == map[]
    ensures Lists(names, old(st.pools).Keys)
    ensures st.events == old(st.events) + [StatusTo(Aborting)] + TeardownEvents(Active(old(st.resources)), faults)
      + UnwireEvents(names) + if ok then [StatusTo(Down)] else []
    ensures cloud.held == CloudAfter(old(cloud.held), old(st.resources), faults)
    ensures cloud.calls == old(cloud.calls) + IdsOf(Active(old(st.resources)))
    ensures wiring.pools == old(wiring.pools) - old(st.pools).Keys
    ensures wiring.file == Some(FileText(wiring.header, wiring.pools))
    ensures |st.journal.past| == |old(st.journal.past)| + 2 * |Active(old(st.resources))| + |old(st.pools)| + (if ok then 3 else 2)
    ensures Kept(scope, old(st.journal.past), st.journal.past) && Safe(scope, Last(st.journal.past))
  {
    hide Safe, Kept, DistinctIds, ActiveOn, Active, IdsOf, AfterTeardown, CloudAfter, FileText, TeardownEvents, UnwireEvents, Lists;
    ghost var start := st.journal.past;
    NothingYet(scope, start);
    st.SetStatus(Aborting);
    SafeFlush(scope, start, start, st.View());
    ghost var past := st.journal.past;
    TeardownAll(st, cloud, wiring, faults, scope);
    ThenMore(scope, start, past, st.journal.past);
    past := st.journal.past;
    names := UnwirePools(st, cloud, wiring, scope);
    ThenMore(scope, start, past, st.journal.past);
    past := st.journal.past;
    ok := wiring.Apply(restartFails);
    SafeFile(scope, start, past, wiring.file.value);
    if ok {
      past := st.journal.past;
      st.SetStatus(Down);
      SafeFlush(scope, start, past, st.View());
    }
  }

  /** Every element once. */
  ghost predicate Lists(names: seq<string>, keys: set<string>) {
    Distinct(names) && forall k :: k in names <==> k in keys
  }

  function UnwireEvents(names: seq<string>): (es: seq<Event>)
    ensures |es| == |names| && forall i :: 0 <= i < |names| ==> es[i] == PoolUnwired(names[i])
  {
    seq(|names|, i requires 0 <= i < |names| => PoolUnwired(names[i]))
  }

  lemma ListsMore(order: seq<string>, gone: set<string>, name: string)
    requires Lists(order, gone) && name !in gone
    ensures Lists(order + [name], gone + {name})
    ensures UnwireEvents(order + [name]) == UnwireEvents(order) + [PoolUnwired(name)]
  {
  }

  lemma NothingListed()
    ensures Lists([], {}) && UnwireEvents([]) == []
  {
  }

  /** The body of that loop. */
  method UnwireOne(st: RunState, cloud: Cloud, wiring: Wiring, name: string, ghost scope: Scope)
    requires InStep(st, cloud, wiring) && Safe(scope, Last(st.journal.past))
    modifies st`pools, st`events, st`disk, wiring`pools, st.journal
    ensures InStep(st, cloud, wiring) && st.pools == old(st.pools) - {name} && wiring.pools == old(wiring.pools) - {name}
    ensures st.events == old(st.events) + [PoolUnwired(name)]
    ensures |st.journal.past| == |old(st.journal.past)| + 1
    ensures Kept(scope, old(st.journal.past), st.journal.past) && Safe(scope, Last(st.journal.past))
  {
    hide Safe, Kept;
    ghost var start := st.journal.past;
    NothingYet(scope, start);
    wiring.RemovePool(name);
    st.UnsetPool(name);
    SafeFlush(scope, start, start, st.View());
  }

  /** The pools still to be unwired are `names`; the others are gone from both maps, logged in `order`. */
  ghost predicate Unwired(listed: map<string, Option<string>>, wired: map<string, Option<string>>, log: seq<Event>,
                          names: set<string>, order: seq<string>,
                          pools: map<string, Option<string>>, now: map<string, Option<string>>, events: seq<Event>) {
    var gone := listed.Keys - names;
    && names <= listed.Keys && Lists(order, gone)
    && pools == listed - gone && now == wired - gone && events == log + UnwireEvents(order)
  }

  lemma UnwireNext(listed: map<string, Option<string>>, wired: map<string, Option<string>>, log: seq<Event>,
                   names: set<string>, order: seq<string>,
                   pools: map<string, Option<string>>, now: map<string, Option<string>>, events: seq<Event>, name: string)
    requires Unwired(listed, wired, log, names, order, pools, now, events) && name in names
    ensures Unwired(listed, wired, log, names - {name}, order + [name], pools - {name}, now - {name}, events + [PoolUnwired(name)])
  {
    hide Lists, UnwireEvents;
    var gone := listed.Keys - names;
    assert listed.Keys - (names - {name}) == gone + {name};
    ListsMore(order, gone, name);
    RemoveTwice(listed, gone, name);
    RemoveTwice(wired, gone, name);
  }

  lemma UnwireEnds(listed: map<string, Option<string>>, wired: map<string, Option<string>>, log: seq<Event>)
    ensures Unwired(listed, wired, log, listed.Keys, [], listed, wired, log)
    ensures forall order, pools, now, events :: Unwired(listed, wired, log, {}, order, pools, now, events) ==>
      Lists(order, listed.Keys) && pools == map[] && now == wired - listed.Keys && events == log + UnwireEvents(order)
  {
    hide Lists, UnwireEvents;
    NothingListed();
    var none: set<string> := {};
    assert listed.Keys - listed.Keys == none && listed - none == listed && wired - none == wired;
    assert listed.Keys - none == listed.Keys && listed - listed.Keys == map[];
  }

  /** The loop at engine.py:128-130. */
  method UnwirePools(st: RunState, cloud: Cloud, wiring: Wiring, ghost scope: Scope) returns (ghost order: seq<string>)
    requires InStep(st, cloud, wiring) && Safe(scope, Last(st.journal.past))
    modifies st`pools, st`events, st`disk, wiring`pools, st.journal
    ensures InStep(st, cloud, wiring) && st.pools == map[]
    ensures Lists(order, old(st.pools).Keys) && st.events == old(st.events) + UnwireEvents(order)
    ensures wiring.pools == old(wiring.pools) - old(st.pools).Keys
    ensures |st.journal.past| == |old(st.journal.past)| + |old(st.pools)|
    ensures Kept(scope, old(st.journal.past), st.journal.past) && Safe(scope, Last(st.journal.past))
  {
    hide Safe, Kept, Unwired, Lists, UnwireEvents;
    ghost var start := st.journal.past;
    NothingYet(scope, start);
    ghost var wired, listed, log := wiring.pools, st.pools, st.events;
    UnwireEnds(listed, wired, log);
    order := [];
    var names := st.pools.Keys;
    while names != {}
      invariant InStep(st, cloud, wiring)
      invariant Unwired(listed, wired, log, names, order, st.pools, wiring.pools, st.events)
      invariant |st.journal.past| + |names| == |start| + |listed|
      invariant Kept(scope, start, st.journal.past) && Safe(scope, Last(st.journal.past))
      decreases |names|
    {
      var name :| name in names;
      ghost var past := st.journal.past;
      UnwireNext(listed, wired, log, names, order, st.pools, wiring.pools, st.events, name);
      UnwireOne(st, cloud, wiring, name, scope);
      ThenMore(scope, start, past, st.journal.past);
      names := names - {name};
      order := order + [name];
    }
  }

  lemma RemoveTwice(m: map<string, Option<string>>, gone: set<string>, name: string)
    ensures m - gone - {name} == m - (gone + {name})
  {
  }

  // ---------------------------------------------------------------- up, after the join

  ghost function OkPools(results: map<string, Outcome>): set<string> {
    set p | p in results && results[p].PoolOk?
  }

  /** `sum(1 for r in results.values() if r[0] == "ok")`. */
  method CountOk(results: map<string, Outcome>) returns (n: nat)
    ensures n == |OkPools(results)|
  {
    n := 0;
    var left := results.Keys;
    ghost var good := OkPools(results);
    NoneCounted(good, left);
    while left != {}
      invariant left <= results.Keys && n == |good - left|
      decreases |left|
    {
      var p :| p in left;
      CountNext(good, left, p);
      left := left - {p};
      if results[p].PoolOk? {
        n := n + 1;
      }
    }
    assert good - left == good;
  }

  lemma NoneCounted(good: set<string>, left: set<string>)
    requires good <= left
    ensures |good - left| == 0
  {
    assert good - left == {};
  }

  lemma CountNext(good: set<string>, left: set<string>, p: string)
    requires p in left
    ensures |good - (left - {p})| == |good - left| + if p in good then 1 else 0
  {
    var rest := good - left;
    if p in good {
      assert good - (left - {p}) == rest + {p};
    } else {
      assert good - (left - {p}) == rest;
    }
  }

  /** The optional `verify_fabric` callback. */
  datatype Fabric = NoCheck | Passes | Fails | Raises

  /**
   `up` from the quorum count on.  `raised` is true when it ends in an exception.  A
   fabric that fails its check is torn down but stays in the pool map.
   */
  method FinishUp(minPools: int, st: RunState, results: map<string, Outcome>, cloud: Cloud, wiring: Wiring,
                  faults: map<Id, Fault>, restartFails: bool, fabric: Fabric, ghost scope: Scope)
    returns (raised: bool)
    requires InStep(st, cloud, wiring) && Safe(scope, Last(st.journal.past))
    modifies st`status, st`resources, st`events, st`disk, cloud`held, cloud`calls, wiring`pools, wiring`file, st.journal
    ensures InStep(st, cloud, wiring)
    ensures raised <==> |OkPools(results)| < minPools || restartFails || fabric.Fails? || fabric.Raises?
    ensures !raised ==>
      && st.status == Up && st.resources == old(st.resources)
      && cloud.held == old(cloud.held) && cloud.calls == old(cloud.calls)
    ensures raised ==>
      && st.status == Failed && st.resources == AfterTeardown(old(st.resources), faults)
      && cloud.held == CloudAfter(old(cloud.held), old(st.resources), faults)
      && cloud.calls == old(cloud.calls) + IdsOf(Active(old(st.resources)))
    ensures st.events == old(st.events)
      + FinishEvents(minPools <= |OkPools(results)|, restartFails, fabric, Active(old(st.resources)), faults)
    ensures |OkPools(results)| < minPools ==> wiring.pools == old(wiring.pools) && wiring.file == old(wiring.file)
    ensures minPools <= |OkPools(results)| ==>
      wiring.pools == old(wiring.pools) + old(st.pools) && wiring.file == Some(FileText(wiring.header, wiring.pools))
    ensures Kept(scope, old(st.journal.past), st.journal.past) && Safe(scope, Last(st.journal.past))
  {
    hide Safe, Kept, DistinctIds, ActiveOn, Active, IdsOf, AfterTeardown, CloudAfter, FileText, OkPools, AbortEvents, FinishEvents;
    FinishLog(st.events, minPools <= |OkPools(results)|, restartFails, fabric, Active(st.resources), faults);
    ghost var start := st.journal.past;
    NothingYet(scope, start);
    ghost var past := start;
    var acquired := CountOk(results);
    if acquired < minPools {
      Abort(st, cloud, wiring, faults, scope);
      past := st.journal.past;
      st.Log(UpFailure);
      SafeFlush(scope, start, past, st.View());
      return true;
    }
    WirePools(st, wiring);
    var applied := wiring.Apply(restartFails);
    SafeFile(scope, start, past, wiring.file.value);
    if applied {
      past := st.journal.past;
      st.Log(Tier1Wired);
      SafeFlush(scope, start, past, st.View());
      if fabric.Passes? || fabric.Fails? {
        past := st.journal.past;
        st.Log(FabricVerified(fabric.Passes?));
        SafeFlush(scope, start, past, st.View());
      }
      if fabric.NoCheck? || fabric.Passes? {
        past := st.journal.past;
        st.SetStatus(Up);
        SafeFlush(scope, start, past, st.View());
        return false;
      }
      if fabric.Fails? {
        past := st.journal.past;
        Abort(st, cloud, wiring, faults, scope);
        ThenMore(scope, start, past, st.journal.past);
        past := st.journal.past;
        st.Log(UpFailure);
        SafeFlush(scope, start, past, st.View());
        return true;
      }
    }
    past := st.journal.past;
    st.Log(UpFailure);
    SafeFlush(scope, start, past, st.View());
    past := st.journal.past;
    Abort(st, cloud, wiring, faults, scope);
    ThenMore(scope, start, past, st.journal.past);
    raised := true;
  }

  /** `for name, ip in st.pools.items(): self.wiring.add_pool(name, ip)`. */
  method WirePools(st: RunState, wiring: Wiring)
    modifies wiring`pools
    ensures wiring.pools == old(wiring.pools) + st.pools
  {
    var left := st.pools.Keys;
    while left != {}
      invariant left <= st.pools.Keys
      invariant wiring.pools == old(wiring.pools) + (st.pools - left)
      decreases |left|
    {
      var name :| name in left;
      wiring.AddPool(name, st.pools[name]);
      left := left - {name};
    }
  }

  function AbortEvents(active: seq<Resource>, faults: map<Id, Fault>): seq<Event> {
    [StatusTo(Aborting)] + TeardownEvents(active, faults) + [StatusTo(Failed)]
  }

  /**
   What `up` logs behind the join.  A missed quorum and a failed fabric check abort before
   the failure is logged, an exception out of the wiring or the check after it.
   */
  function FinishEvents(enough: bool, restartFails: bool, fabric: Fabric, active: seq<Resource>, faults: map<Id, Fault>): seq<Event> {
    if !enough then AbortEvents(active, faults) + [UpFailure]
    else if restartFails then [UpFailure] + AbortEvents(active, faults)
    else
      match fabric
      case NoCheck => [Tier1Wired, StatusTo(Up)]
      case Passes => [Tier1Wired, FabricVerified(true), StatusTo(Up)]
      case Fails => [Tier1Wired, FabricVerified(false)] + AbortEvents(active, faults) + [UpFailure]
      case Raises => [Tier1Wired, UpFailure] + AbortEvents(active, faults)
  }

  lemma FinishLog(log: seq<Event>, enough: bool, restartFails: bool, fabric: Fabric, active: seq<Resource>, faults: map<Id, Fault>)
    ensures var abort := AbortEvents(active, faults);
      log + FinishEvents(enough, restartFails, fabric, active, faults) ==
        if !enough then log + abort + [UpFailure]
        else if restartFails then log + [UpFailure] + abort
        else match fabric
          case NoCheck => log + [Tier1Wired] + [StatusTo(Up)]
          case Passes => log + [Tier1Wired] + [FabricVerified(true)] + [StatusTo(Up)]
          case Fails => log + [Tier1Wired] + [FabricVerified(false)] + abort + [UpFailure]
          case Raises => log + [Tier1Wired] + [UpFailure] + abort
  {
    hide AbortEvents;
  }

  /** Status `aborting`, teardown, status `failed`. */
  method Abort(st: RunState, cloud: Cloud, wiring: Wiring, faults: map<Id, Fault>, ghost scope: Scope)
    requires InStep(st, cloud, wiring) && Safe(scope, Last(st.journal.past))
    modifies st`status, st`resources, st`events, st`disk, cloud`held, cloud`calls, st.journal
    ensures InStep(st, cloud, wiring)
    ensures st.status == Failed && st.resources == AfterTeardown(old(st.resources), faults)
    ensures cloud.held == CloudAfter(old(cloud.held), old(st.resources), faults)
    ensures cloud.calls == old(cloud.calls) + IdsOf(Active(old(st.resources)))
    ensures st.events == old(st.events) + AbortEvents(Active(old(st.resources)), faults)
    ensures |st.journal.past| == |old(st.journal.past)| + 2 * |Active(old(st.resources))| + 2
    ensures Kept(scope, old(st.journal.past), st.journal.past) && Safe(scope, Last(st.journal.past))
  {
    hide Safe, Kept, DistinctIds, ActiveOn, Active, IdsOf, AfterTeardown, CloudAfter, TeardownEvents;
    ghost var start := st.journal.past;
    NothingYet(scope, start);
    st.SetStatus(Aborting);
    SafeFlush(scope, start, start, st.View());
    ghost var past := st.journal.past;
    TeardownAll(st, cloud, wiring, faults, scope);
    ThenMore(scope, start, past, st.journal.past);
    past := st.journal.past;
    st.SetStatus(Failed);
    SafeFlush(scope, start, past, st.View());
  }
}
