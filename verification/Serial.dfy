/**
 `up` as one thread of control: the body of `_bring_up` on the shared objects, the
 `GPUHA_SERIAL` loop over the pools (engine.py:71-75), and the whole of `up`.
 */
module SerialUp {
  import opened Common
  import opened RunRecord
  import opened RunStateObject
  import opened WiringObject
  import opened PoolMap
  import opened BringUp
  import opened BringUpInvariant
  import opened BringUpTheorems
  import opened BringUpAudit
  import opened Provider
  import opened Engine
  import opened History

  /** The handles of one pool after `marks` state changes. */
  function WithMarks(hs: seq<Resource>, marks: nat): (out: seq<Resource>)
    ensures |out| == |hs|
    ensures forall w :: 0 <= w < |hs| ==> out[w] == hs[w].(state := StateAt(marks, w))
  {
    seq(|hs|, w requires 0 <= w < |hs| => hs[w].(state := StateAt(marks, w)))
  }

  ghost predicate FreshPool(c: Config, p: string, rs: seq<Resource>) {
    forall j :: 0 <= j < |rs| ==> rs[j].id.run == c.run && rs[j].id.pool != p
  }

  ghost predicate OwnHandles(c: Config, p: string, hs: seq<Resource>)
    requires p in c.specs
  {
    forall w :: 0 <= w < |hs| ==> hs[w] == Resource(Id(p, c.run, w), c.specs[p].provider, hs[w].addr, Created)
  }

  lemma ListStaysDistinct(c: Config, p: string, rs: seq<Resource>, hs: seq<Resource>, marks: nat)
    requires p in c.specs && DistinctIds(rs) && FreshPool(c, p, rs) && OwnHandles(c, p, hs)
    ensures DistinctIds(rs + WithMarks(hs, marks))
    ensures forall w :: 0 <= w < |hs| ==> HasId(rs + WithMarks(hs, marks), hs[w].id)
  {
    var all := rs + WithMarks(hs, marks);
    forall w | 0 <= w < |hs| ensures HasId(all, hs[w].id) {
      assert all[|rs| + w].id == hs[w].id;
    }
  }

  /** `update_resource` on the handle whose turn it is. */
  lemma OneMoreMark(c: Config, p: string, rs: seq<Resource>, hs: seq<Resource>, marks: nat)
    requires p in c.specs && FreshPool(c, p, rs) && OwnHandles(c, p, hs) && marks / 2 < |hs|
    ensures Marked(rs + WithMarks(hs, marks), Id(p, c.run, marks / 2), StateAt(marks + 1, marks / 2))
         == rs + WithMarks(hs, marks + 1)
  {
    var all := rs + WithMarks(hs, marks);
    var id := Id(p, c.run, marks / 2);
    var out := Marked(all, id, StateAt(marks + 1, marks / 2));
    forall j | 0 <= j < |all| ensures out[j] == (rs + WithMarks(hs, marks + 1))[j] {
      if j >= |rs| {
        assert all[j].id == Id(p, c.run, j - |rs|);
      }
    }
  }

  /** The bootstrap and verify calls so far were good, so `GoodCalls` is at least their number. */
  lemma GoodSoFar(fates: seq<Fate>, marks: nat)
    requires marks <= 2 * |fates|
    requires forall w :: 0 <= w < |fates| ==> (2 * w < marks ==> fates[w].boots) && (2 * w + 1 < marks ==> fates[w].passes)
    ensures marks <= GoodCalls(fates)
    ensures FailsAt(fates, marks) ==> marks == GoodCalls(fates)
  {
    var n := GoodCalls(fates);
    assert 2 * (n / 2) <= n && 2 * (marks / 2) <= marks;
  }

  /** The state changes that a pool's own specification lets through. */
  function ChangesMade(spec: Spec): nat {
    if spec.acquired.Granted? then GoodCalls(spec.acquired.fates) else 0
  }

  /** The handles the loop at engine.py:53 gets to: all, or those up to the one whose call fails. */
  function Reached(spec: Spec): nat {
    if !spec.acquired.Granted? then 0
    else if AllGood(spec.acquired.fates) then |spec.acquired.fates|
    else GoodCalls(spec.acquired.fates) / 2 + 1
  }

  function AddressesOf(hs: seq<Resource>): (r: seq<string>)
    ensures |r| == |hs| && forall w :: 0 <= w < |hs| ==> r[w] == hs[w].addr
  {
    seq(|hs|, w requires 0 <= w < |hs| => hs[w].addr)
  }

  lemma OneMoreNote(hs: seq<Resource>, k: nat)
    requires k < |hs|
    ensures AddressesOf(hs[..k + 1]) == AddressesOf(hs[..k]) + [hs[k].addr]
  {
  }

  /** What one pool's bring-up leaves in the record. */
  ghost predicate PoolBroughtUp(c: Config, p: string, before: Record, after: Record, hs: seq<Resource>, o: Outcome)
    requires p in c.specs
  {
    && OwnHandles(c, p, hs)
    && VerdictOf(o) == Expected(c.specs[p])
    && after.status == before.status
    && after.events == before.events + WholeStory(c, p, |hs|, ChangesMade(c.specs[p]), o)
    && after.pools == (if o.PoolOk? then before.pools[c.specs[p].backend := o.addr] else before.pools)
    && (o.PoolOk? ==> o.addr == FirstAddress(hs))
    && match c.specs[p].acquired
       case Granted(fates) =>
         |hs| == |fates| && after.resources == before.resources + WithMarks(hs, GoodCalls(fates))
       case _ => hs == [] && after.resources == before.resources
  }

  /** The loop at engine.py:50-51. */
  method RecordHandles(c: Config, p: string, st: RunState, hs: seq<Resource>)
    requires p in c.specs && OwnHandles(c, p, hs) && st.Flushed()
    modifies st`resources, st`events, st`disk, st.journal
    ensures st.Flushed() && st.resources == old(st.resources) + WithMarks(hs, 0)
    ensures st.events == old(st.events) + Creations(p, c.run, |hs|)
    ensures Last(st.journal.past) == Last(old(st.journal.past)).(disk := st.disk)
  {
    var k := 0;
    while k < |hs|
      invariant 0 <= k <= |hs| && st.Flushed()
      invariant st.resources == old(st.resources) + WithMarks(hs, 0)[..k]
      invariant st.events == old(st.events) + Creations(p, c.run, k)
      invariant Last(st.journal.past) == Last(old(st.journal.past)).(disk := st.disk)
    {
      assert Creations(p, c.run, k + 1) == Creations(p, c.run, k) + [ResourceCreated(hs[k].id)];
      assert WithMarks(hs, 0)[..k + 1] == WithMarks(hs, 0)[..k] + [WithMarks(hs, 0)[k]];
      st.AddResource(hs[k]);
      k := k + 1;
    }
    assert WithMarks(hs, 0)[..k] == WithMarks(hs, 0);
  }

  /** `st.update_resource(h.id, state=...)` for the handle whose turn it is. */
  method Mark(c: Config, p: string, st: RunState, hs: seq<Resource>, w: nat, state: ResourceState,
              ghost rs: seq<Resource>, ghost marks: nat)
    requires p in c.specs && OwnHandles(c, p, hs) && DistinctIds(rs) && FreshPool(c, p, rs)
    requires w == marks / 2 < |hs| && state == StateAt(marks + 1, w)
    requires st.resources == rs + WithMarks(hs, marks) && st.Flushed()
    modifies st`resources, st`events, st`disk, st.journal
    ensures st.resources == rs + WithMarks(hs, marks + 1) && st.Flushed()
    ensures st.events == old(st.events) + [ResourceUpdated(Id(p, c.run, w), state)]
    ensures Last(st.journal.past) == Last(old(st.journal.past)).(disk := st.disk)
  {
    hide FreshPool;
    ListStaysDistinct(c, p, rs, hs, marks);
    OneMoreMark(c, p, rs, hs, marks);
    var found := st.UpdateResource(hs[w].id, state);
  }

  /** How many of the two calls for one handle succeed. */
  function GoodHere(fate: Fate): nat {
    if !fate.boots then 0 else if !fate.passes then 1 else 2
  }

  /** The loop body at engine.py:54-60 for handle `k`; false when it raises. */
  method CommissionOne(c: Config, p: string, st: RunState, cloud: Cloud, wiring: Wiring, hs: seq<Resource>, k: nat,
                       ghost rs: seq<Resource>, ghost log: seq<Event>)
    returns (ok: bool)
    requires p in c.specs && c.specs[p].acquired.Granted? && k < |hs| == |c.specs[p].acquired.fates|
    requires OwnHandles(c, p, hs) && DistinctIds(rs) && FreshPool(c, p, rs)
    requires st.resources == rs + WithMarks(hs, 2 * k) && InStep(st, cloud, wiring) && hs[k].id in cloud.held
    requires st.events == log + Changes(p, c.run, 2 * k)
    modifies st`resources, st`events, st`disk, st.journal, wiring`firewallNotes
    ensures st.resources == rs + WithMarks(hs, 2 * k + GoodHere(c.specs[p].acquired.fates[k]))
    ensures InStep(st, cloud, wiring) && wiring.firewallNotes == old(wiring.firewallNotes) + [hs[k].addr]
    ensures st.events == log + Changes(p, c.run, 2 * k + GoodHere(c.specs[p].acquired.fates[k]))
    ensures ok <==> GoodHere(c.specs[p].acquired.fates[k]) == 2
  {
    hide DistinctIds, FreshPool, OwnHandles, WithMarks;
    NextChanges(p, c.run, k);
    wiring.FirewallNote(hs[k].addr);
    if !c.specs[p].acquired.fates[k].boots {
      return false;
    }
    Mark(c, p, st, hs, k, Bootstrapped, rs, 2 * k);
    var listed := cloud.Verify(hs[k].id);
    if !(c.specs[p].acquired.fates[k].passes && listed) {
      return false;
    }
    Mark(c, p, st, hs, k, Verified, rs, 2 * k + 1);
    ok := true;
  }

  lemma NextChanges(p: string, run: string, k: nat)
    ensures Changes(p, run, 2 * k + 1) == Changes(p, run, 2 * k) + [ResourceUpdated(Id(p, run, k), Bootstrapped)]
    ensures Changes(p, run, 2 * k + 2) == Changes(p, run, 2 * k + 1) + [ResourceUpdated(Id(p, run, k), Verified)]
  {
  }

  lemma NothingDone(p: string, run: string, hs: seq<Resource>, notes: seq<string>)
    ensures Changes(p, run, 0) == [] && notes + AddressesOf(hs[..0]) == notes
  {
  }

  lemma StoppedHere(fates: seq<Fate>, k: nat)
    requires k < |fates| && forall w :: 0 <= w < k ==> fates[w].boots && fates[w].passes
    requires GoodHere(fates[k]) < 2
    ensures GoodCalls(fates) == 2 * k + GoodHere(fates[k]) && GoodCalls(fates) / 2 == k && !AllGood(fates)
  {
    GoodSoFar(fates, 2 * k + GoodHere(fates[k]));
  }

  lemma NextAddress(hs: seq<Resource>, k: nat)
    requires k < |hs|
    ensures var ip := FirstAddress(hs[..k]);
      FirstAddress(hs[..k + 1]) == if ip.Some? && ip.value != "" then ip else Some(hs[k].addr)
  {
    assert hs[..k + 1][..k] == hs[..k];
  }

  /** The loop at engine.py:53-61.  `ok` is false when it is left by an exception. */
  method Commission(c: Config, p: string, st: RunState, cloud: Cloud, wiring: Wiring, hs: seq<Resource>,
                    ghost rs: seq<Resource>, ghost log: seq<Event>)
    returns (ok: bool, ip: Option<string>)
    requires p in c.specs && c.specs[p].acquired.Granted? && |hs| == |c.specs[p].acquired.fates|
    requires OwnHandles(c, p, hs) && DistinctIds(rs) && FreshPool(c, p, rs)
    requires st.resources == rs + WithMarks(hs, 0) && InStep(st, cloud, wiring) && st.events == log
    requires forall w :: 0 <= w < |hs| ==> hs[w].id in cloud.held
    modifies st`resources, st`events, st`disk, st.journal, wiring`firewallNotes
    ensures st.resources == rs + WithMarks(hs, GoodCalls(c.specs[p].acquired.fates))
    ensures InStep(st, cloud, wiring) && st.events == log + Changes(p, c.run, GoodCalls(c.specs[p].acquired.fates))
    ensures Reached(c.specs[p]) <= |hs|
    ensures wiring.firewallNotes == old(wiring.firewallNotes) + AddressesOf(hs[..Reached(c.specs[p])])
    ensures ok <==> AllGood(c.specs[p].acquired.fates)
    ensures ok ==> ip == FirstAddress(hs)
  {
    hide DistinctIds, FreshPool, OwnHandles, WithMarks, GoodCalls, FirstAddress, Changes, AddressesOf;
    NothingDone(p, c.run, hs, wiring.firewallNotes);
    var fates := c.specs[p].acquired.fates;
    ip := None;
    var k := 0;
    while k < |hs|
      invariant 0 <= k <= |hs| && InStep(st, cloud, wiring)
      invariant st.resources == rs + WithMarks(hs, 2 * k)
      invariant st.events == log + Changes(p, c.run, 2 * k)
      invariant wiring.firewallNotes == old(wiring.firewallNotes) + AddressesOf(hs[..k])
      invariant forall w :: 0 <= w < k ==> fates[w].boots && fates[w].passes
      invariant ip == FirstAddress(hs[..k])
    {
      OneMoreNote(hs, k);
      var good := CommissionOne(c, p, st, cloud, wiring, hs, k, rs, log);
      if !good {
        StoppedHere(fates, k);
        return false, ip;
      }
      NextAddress(hs, k);
      ip := if ip.Some? && ip.value != "" then ip else Some(hs[k].addr);
      k := k + 1;
    }
    assert hs[..k] == hs;
    GoodSoFar(fates, 2 * k);
    ok := true;
  }

  lemma NothingGranted(c: Config, p: string, before: Record, after: Record, o: Outcome)
    requires p in c.specs && !c.specs[p].acquired.Granted?
    requires o == if c.specs[p].acquired.NoCapacity? then OutOfCapacity else Errored
    requires after.resources == before.resources && after.pools == before.pools && after.status == before.status
    requires after.events == before.events + [Ending(c, p, o)]
    ensures PoolBroughtUp(c, p, before, after, [], o)
  {
  }

  lemma GrantedAndTried(c: Config, p: string, before: Record, after: Record, hs: seq<Resource>, o: Outcome)
    requires p in c.specs && c.specs[p].acquired.Granted? && OwnHandles(c, p, hs) && |hs| == |c.specs[p].acquired.fates|
    requires if AllGood(c.specs[p].acquired.fates) then o == PoolOk(FirstAddress(hs)) else o == Errored
    requires after.resources == before.resources + WithMarks(hs, GoodCalls(c.specs[p].acquired.fates))
    requires after.pools == if o.PoolOk? then before.pools[c.specs[p].backend := o.addr] else before.pools
    requires after.status == before.status
    requires after.events == before.events + Creations(p, c.run, |hs|)
                           + Changes(p, c.run, GoodCalls(c.specs[p].acquired.fates)) + [Ending(c, p, o)]
    ensures PoolBroughtUp(c, p, before, after, hs, o)
  {
    hide WithMarks, GoodCalls, AllGood, FirstAddress, OwnHandles, Creations, Changes, Ending;
  }

  lemma NoNotes(c: Config, p: string, notes: seq<string>)
    requires p in c.specs
    ensures !c.specs[p].acquired.Granted? ==> Reached(c.specs[p]) == 0 && notes + AddressesOf([][..0]) == notes
  {
    var none: seq<Resource> := [];
    assert none[..0] == [];
  }

  /** The body of `_bring_up` for one pool, with no other thread about. */
  method BringUpPool(c: Config, p: string, st: RunState, cloud: Cloud, wiring: Wiring)
    returns (o: Outcome, ghost hs: seq<Resource>)
    requires p in c.specs && DistinctIds(st.resources) && FreshPool(c, p, st.resources) && InStep(st, cloud, wiring)
    modifies st`resources, st`pools, st`events, st`disk, cloud`held, st.journal, wiring`firewallNotes
    ensures PoolBroughtUp(c, p, old(st.View()), st.View(), hs, o) && InStep(st, cloud, wiring)
    ensures cloud.held == CloudWith(c, p, |hs|, old(cloud.held))
    ensures Reached(c.specs[p]) <= |hs|
    ensures wiring.firewallNotes == old(wiring.firewallNotes) + AddressesOf(hs[..Reached(c.specs[p])])
  {
    hide DistinctIds, FreshPool, WithMarks, GoodCalls, AllGood, CloudWith, FirstAddress, PoolBroughtUp, Creations, Changes,
      AddressesOf, Reached;
    NoNotes(c, p, wiring.firewallNotes);
    hs := [];
    ghost var rs, before := st.resources, st.View();
    var got := cloud.Acquire(c, p);
    if got.None? {
      if c.specs[p].acquired.NoCapacity? {
        st.Log(CapacityOut(p));
        NothingGranted(c, p, before, st.View(), OutOfCapacity);
        return OutOfCapacity, hs;
      }
      st.Log(PoolFailed(p));
      NothingGranted(c, p, before, st.View(), Errored);
      return Errored, hs;
    }
    hs := got.value;
    RecordHandles(c, p, st, got.value);
    ghost var log := st.events;
    var ok, ip := Commission(c, p, st, cloud, wiring, got.value, rs, log);
    if !ok {
      st.Log(PoolFailed(p));
      GrantedAndTried(c, p, before, st.View(), hs, Errored);
      return Errored, hs;
    }
    st.SetPool(c.specs[p].backend, ip);
    GrantedAndTried(c, p, before, st.View(), hs, PoolOk(ip));
    return PoolOk(ip), hs;
  }

  // ---------------------------------------------------------------- all pools, one after the other

  function Sub(c: Config, done: set<string>): Config {
    Config(c.run, map p | p in c.specs && p in done :: c.specs[p])
  }

  lemma JoinIds(c: Config, done: set<string>, p: string, before: Record, results: map<string, Outcome>,
                after: Record, hs: seq<Resource>, o: Outcome)
    requires p in c.specs && p !in done
    requires Joined(Sub(c, done), before, results) && PoolBroughtUp(c, p, before, after, hs, o)
    ensures FreshPool(c, p, before.resources) && DistinctIds(after.resources)
    ensures before.resources <= after.resources
    ensures forall j :: 0 <= j < |after.resources| ==> RecordedFor(Sub(c, done + {p}), after.resources[j])
  {
    hide IsFirstAddress, ServesAs, HasId, FirstAddress;
    forall j | 0 <= j < |before.resources|
      ensures before.resources[j].id.run == c.run && before.resources[j].id.pool != p
      ensures RecordedFor(Sub(c, done + {p}), before.resources[j])
    {
      assert RecordedFor(Sub(c, done), before.resources[j]);
    }
    if c.specs[p].acquired.Granted? {
      ListStaysDistinct(c, p, before.resources, hs, GoodCalls(c.specs[p].acquired.fates));
    }
  }

  lemma JoinHasIds(c: Config, done: set<string>, p: string, before: Record, results: map<string, Outcome>,
                   after: Record, hs: seq<Resource>, o: Outcome)
    requires p in c.specs && p !in done
    requires Joined(Sub(c, done), before, results) && PoolBroughtUp(c, p, before, after, hs, o)
    requires before.resources <= after.resources
    ensures forall q, w: nat ::
      q in Sub(c, done + {p}).specs && c.specs[q].acquired.Granted? && w < |c.specs[q].acquired.fates| ==>
        HasId(after.resources, Id(q, c.run, w))
  {
    hide IsFirstAddress, ServesAs, DistinctIds, RecordedFor, FirstAddress, GoodCalls;
    forall q, w: nat | q in Sub(c, done + {p}).specs && c.specs[q].acquired.Granted? && w < |c.specs[q].acquired.fates|
      ensures HasId(after.resources, Id(q, c.run, w))
    {
      if q == p {
        assert after.resources[|before.resources| + w].id == Id(p, c.run, w);
      } else {
        assert HasId(before.resources, Id(q, c.run, w));
        var j :| 0 <= j < |before.resources| && before.resources[j].id == Id(q, c.run, w);
        assert after.resources[j].id == Id(q, c.run, w);
      }
    }
  }

  lemma JoinOldAddress(c: Config, p: string, before: seq<Resource>, hs: seq<Resource>, marks: nat, q: string, a: Option<string>)
    requires p in c.specs && q != p && OwnHandles(c, p, hs) && IsFirstAddress(before, q, a)
    ensures IsFirstAddress(before + WithMarks(hs, marks), q, a)
  {
    var after := before + WithMarks(hs, marks);
    assert forall j :: |before| <= j < |after| ==> after[j].id.pool == p;
    if a.Some? && a.value != "" {
      var j :| 0 <= j < |before| && before[j].id.pool == q && before[j].addr == a.value && NoneBefore(before, q, before[j].id.w);
      assert after[j] == before[j];
      assert NoneBefore(after, q, after[j].id.w);
    }
  }

  lemma JoinNewAddress(c: Config, p: string, before: seq<Resource>, hs: seq<Resource>, marks: nat)
    requires p in c.specs && OwnHandles(c, p, hs) && FreshPool(c, p, before)
    ensures IsFirstAddress(before + WithMarks(hs, marks), p, FirstAddress(hs))
  {
    hide FirstAddress;
    var after := before + WithMarks(hs, marks);
    var a := FirstAddress(hs);
    assert forall j :: |before| <= j < |after| ==> after[j].addr == hs[j - |before|].addr && after[j].id.w == j - |before|;
    if a.Some? && a.value != "" {
      var k :| 0 <= k < |hs| && hs[k].addr == a.value && forall i :: 0 <= i < k ==> hs[i].addr == "";
      assert after[|before| + k].addr == a.value;
      assert NoneBefore(after, p, k);
    }
  }

  lemma PoolsOfOne(c: Config, p: string, before: Record, after: Record, hs: seq<Resource>, o: Outcome)
    requires p in c.specs && PoolBroughtUp(c, p, before, after, hs, o)
    ensures after.pools == if o.PoolOk? then before.pools[c.specs[p].backend := o.addr] else before.pools
  {
  }

  lemma PoolsOfJoin(c: Config, rec: Record, results: map<string, Outcome>)
    requires Joined(c, rec, results)
    ensures results.Keys == c.specs.Keys
    ensures forall b :: b in rec.pools ==> exists q :: ServesAs(c, results, q, b, rec.pools[b])
  {
  }

  lemma ServesNow(c: Config, done: set<string>, results: map<string, Outcome>, p: string, o: Outcome)
    requires p in c.specs && o.PoolOk?
    ensures ServesAs(Sub(c, done + {p}), results[p := o], p, c.specs[p].backend, o.addr)
  {
  }

  lemma ServesStill(c: Config, done: set<string>, results: map<string, Outcome>, p: string, o: Outcome,
                    q: string, b: string, a: Option<string>)
    requires p !in done && ServesAs(Sub(c, done), results, q, b, a)
    ensures ServesAs(Sub(c, done + {p}), results[p := o], q, b, a)
  {
  }

  lemma JoinPools(c: Config, done: set<string>, p: string, before: Record, results: map<string, Outcome>,
                  after: Record, hs: seq<Resource>, o: Outcome, c': Config, results': map<string, Outcome>)
    requires WellFormed(c) && p in c.specs && p !in done && c' == Sub(c, done + {p}) && results' == results[p := o]
    requires Joined(Sub(c, done), before, results) && PoolBroughtUp(c, p, before, after, hs, o)
    ensures forall b :: b in after.pools ==> exists q :: ServesAs(c', results', q, b, after.pools[b])
  {
    PoolsOfOne(c, p, before, after, hs, o);
    PoolsOfJoin(Sub(c, done), before, results);
    hide Joined, PoolBroughtUp, ServesAs, Sub, WellFormed;
    forall b | b in after.pools ensures exists q :: ServesAs(c', results', q, b, after.pools[b]) {
      if o.PoolOk? && b == c.specs[p].backend {
        ServesNow(c, done, results, p, o);
      } else {
        var q :| ServesAs(Sub(c, done), results, q, b, before.pools[b]);
        ServesStill(c, done, results, p, o, q, b, before.pools[b]);
        assert ServesAs(c', results', q, b, after.pools[b]);
      }
    }
  }

  lemma JoinServedOld(c: Config, done: set<string>, p: string, before: Record, results: map<string, Outcome>,
                      after: Record, hs: seq<Resource>, o: Outcome, q: string)
    requires WellFormed(c) && p in c.specs && p !in done && q in c.specs && q in done
    requires Joined(Sub(c, done), before, results) && PoolBroughtUp(c, p, before, after, hs, o)
    ensures IsServed(Sub(c, done + {p}), after, results[p := o], q)
  {
    hide DistinctIds, RecordedFor, HasId, IsFirstAddress, OwnHandles, WithMarks, FirstAddress, GoodCalls, ServesAs;
    assert IsServed(Sub(c, done), before, results, q);
    if results[q].PoolOk? && c.specs[p].acquired.Granted? {
      JoinOldAddress(c, p, before.resources, hs, GoodCalls(c.specs[p].acquired.fates), q, results[q].addr);
    }
  }

  lemma JoinServedNew(c: Config, done: set<string>, p: string, before: Record, results: map<string, Outcome>,
                      after: Record, hs: seq<Resource>, o: Outcome)
    requires p in c.specs && p !in done && p !in results && FreshPool(c, p, before.resources)
    requires PoolBroughtUp(c, p, before, after, hs, o)
    ensures IsServed(Sub(c, done + {p}), after, results[p := o], p)
  {
    hide IsFirstAddress, OwnHandles, FreshPool, WithMarks, FirstAddress, GoodCalls;
    if c.specs[p].acquired.Granted? {
      JoinNewAddress(c, p, before.resources, hs, GoodCalls(c.specs[p].acquired.fates));
    }
  }

  lemma JoinServed(c: Config, done: set<string>, p: string, before: Record, results: map<string, Outcome>,
                   after: Record, hs: seq<Resource>, o: Outcome, c': Config, results': map<string, Outcome>)
    requires WellFormed(c) && p in c.specs && p !in done && c' == Sub(c, done + {p}) && results' == results[p := o]
    requires Joined(Sub(c, done), before, results) && PoolBroughtUp(c, p, before, after, hs, o)
    requires FreshPool(c, p, before.resources)
    ensures results'.Keys == c'.specs.Keys
    ensures forall q :: q in c'.specs ==> IsServed(c', after, results', q) && VerdictOf(results'[q]) == Expected(c'.specs[q])
  {
    assert results.Keys == Sub(c, done).specs.Keys && forall q :: q in results ==> VerdictOf(results[q]) == Expected(c.specs[q]);
    hide DistinctIds, RecordedFor, HasId, IsServed, OwnHandles, FreshPool, WithMarks, ServesAs, FirstAddress, GoodCalls,
      Expected, Joined;
    forall q | q in c'.specs ensures IsServed(c', after, results', q) && VerdictOf(results'[q]) == Expected(c'.specs[q]) {
      if q == p {
        JoinServedNew(c, done, p, before, results, after, hs, o);
      } else {
        JoinServedOld(c, done, p, before, results, after, hs, o, q);
      }
    }
  }

  /** Bringing up one more pool extends what a join of the pools so far would have found. */
  lemma JoinOneMore(c: Config, done: set<string>, p: string, before: Record, results: map<string, Outcome>,
                    after: Record, hs: seq<Resource>, o: Outcome, c': Config)
    requires WellFormed(c) && p in c.specs && p !in done && c' == Sub(c, done + {p})
    requires Joined(Sub(c, done), before, results) && PoolBroughtUp(c, p, before, after, hs, o)
    ensures Joined(c', after, results[p := o])
  {
    hide DistinctIds, RecordedFor, HasId, IsServed, FreshPool, PoolBroughtUp, ServesAs, Expected;
    JoinIds(c, done, p, before, results, after, hs, o);
    JoinHasIds(c, done, p, before, results, after, hs, o);
    JoinPools(c, done, p, before, results, after, hs, o, c', results[p := o]);
    JoinServed(c, done, p, before, results, after, hs, o, c', results[p := o]);
  }

  /** The provider holds what it held before and, besides, what this run has recorded. */
  ghost predicate HeldIsListed(c: Config, before: map<Id, CloudRecord>, held: map<Id, CloudRecord>, rs: seq<Resource>) {
    && (forall id :: id in before ==> id in held && held[id] == before[id])
    && (forall id :: id in held && id !in before ==>
          && id.pool in c.specs && held[id] == CloudRecord(c.specs[id.pool].provider, TagFor(c.run), c.run)
          && HasId(rs, id))
  }

  lemma HeldStaysListed(c: Config, p: string, cloud0: map<Id, CloudRecord>, held: map<Id, CloudRecord>,
                        before: Record, after: Record, hs: seq<Resource>, o: Outcome)
    requires p in c.specs && FreshRun(c, cloud0)
    requires HeldIsListed(c, cloud0, held, before.resources) && PoolBroughtUp(c, p, before, after, hs, o)
    ensures HeldIsListed(c, cloud0, CloudWith(c, p, |hs|, held), after.resources)
  {
    RecordGrows(c, p, before, after, hs, o);
    forall id: Id | HasId(before.resources, id) ensures HasId(after.resources, id) {
      ListedLonger(before.resources, after.resources, id);
    }
    HeldGrows(c, p, cloud0, held, |hs|, before.resources, after.resources);
  }

  lemma HeldGrows(c: Config, p: string, cloud0: map<Id, CloudRecord>, held: map<Id, CloudRecord>, n: nat,
                  before: seq<Resource>, after: seq<Resource>)
    requires p in c.specs && FreshRun(c, cloud0) && HeldIsListed(c, cloud0, held, before)
    requires forall id :: HasId(before, id) ==> HasId(after, id)
    requires forall w: nat :: w < n ==> HasId(after, Id(p, c.run, w))
    ensures HeldIsListed(c, cloud0, CloudWith(c, p, n, held), after)
  {
    hide CloudWith, HasId;
    var held' := CloudWith(c, p, n, held);
    forall id | id in held' && id !in cloud0 ensures HasId(after, id) {
      if id.pool == p && id.run == c.run && id.w < n {
        assert id == Id(p, c.run, id.w);
      }
    }
  }

  lemma RecordGrows(c: Config, p: string, before: Record, after: Record, hs: seq<Resource>, o: Outcome)
    requires p in c.specs && PoolBroughtUp(c, p, before, after, hs, o)
    ensures before.resources <= after.resources
    ensures forall w: nat :: w < |hs| ==> HasId(after.resources, Id(p, c.run, w))
  {
    hide FirstAddress, GoodCalls, Expected, HasId;
    forall w: nat | w < |hs| ensures HasId(after.resources, Id(p, c.run, w)) {
      Listing(after.resources, Id(p, c.run, w), |before.resources| + w);
    }
  }

  lemma Listing(rs: seq<Resource>, id: Id, j: nat)
    requires j < |rs| && rs[j].id == id
    ensures HasId(rs, id)
  {
  }

  lemma ListedLonger(rs: seq<Resource>, longer: seq<Resource>, id: Id)
    requires rs <= longer && HasId(rs, id)
    ensures HasId(longer, id)
  {
    var j :| 0 <= j < |rs| && rs[j].id == id;
    assert longer[j].id == id;
  }

  lemma ListedIsSafe(c: Config, cloud0: map<Id, CloudRecord>, held: map<Id, CloudRecord>, rec: Record,
                     results: map<string, Outcome>, file: Option<string>)
    requires FreshRun(c, cloud0) && Joined(c, rec, results) && HeldIsListed(c, cloud0, held, rec.resources)
    ensures Safe(ScopeOf(c, cloud0, {}), Durable(Some(rec), held, file))
  {
    hide IsFirstAddress, ServesAs, DistinctIds, GoodCalls;
    forall j | 0 <= j < |rec.resources| ensures rec.resources[j].id !in cloud0 {
      assert RecordedFor(c, rec.resources[j]);
    }
    forall id | id in held && id !in cloud0 ensures ActiveOn(rec.resources, id) {
      var j :| 0 <= j < |rec.resources| && rec.resources[j].id == id;
      assert RecordedFor(c, rec.resources[j]);
    }
  }

  /** How many handles the pool's `acquire` returns. */
  function HandlesOf(spec: Spec): nat {
    if spec.acquired.Granted? then |spec.acquired.fates| else 0
  }

  /** The stories of the pools, one behind the other. */
  function SerialLog(c: Config, names: seq<string>, results: map<string, Outcome>): seq<Event>
    requires forall p :: p in names ==> p in c.specs && p in results
  {
    if names == [] then []
    else
      var p := names[|names| - 1];
      SerialLog(c, names[..|names| - 1], results)
        + WholeStory(c, p, HandlesOf(c.specs[p]), ChangesMade(c.specs[p]), results[p])
  }

  lemma {:induction false} SameLog(c: Config, names: seq<string>, results: map<string, Outcome>, results': map<string, Outcome>)
    requires forall p :: p in names ==> p in c.specs && p in results && p in results' && results'[p] == results[p]
    ensures SerialLog(c, names, results) == SerialLog(c, names, results')
  {
    if names != [] {
      assert names[|names| - 1] in names;
      SameLog(c, names[..|names| - 1], results, results');
    }
  }

  lemma EventsOf(c: Config, p: string, before: Record, after: Record, hs: seq<Resource>, o: Outcome)
    requires p in c.specs && PoolBroughtUp(c, p, before, after, hs, o)
    ensures after.events == before.events + WholeStory(c, p, HandlesOf(c.specs[p]), ChangesMade(c.specs[p]), o)
  {
    hide WholeStory, GoodCalls, OwnHandles, Expected, FirstAddress, WithMarks;
  }

  lemma LogGrows(c: Config, names: seq<string>, p: string, results: map<string, Outcome>, before: Record, after: Record,
                 hs: seq<Resource>, o: Outcome, log: seq<Event>)
    requires p in c.specs && p !in names && PoolBroughtUp(c, p, before, after, hs, o)
    requires forall q :: q in names ==> q in c.specs && q in results
    requires before.events == log + SerialLog(c, names, results)
    ensures forall q :: q in names + [p] ==> q in c.specs && q in results[p := o]
    ensures after.events == log + SerialLog(c, names + [p], results[p := o])
  {
    EventsOf(c, p, before, after, hs, o);
    hide WholeStory, PoolBroughtUp, HandlesOf, ChangesMade, SerialLog;
    SameLog(c, names, results, results[p := o]);
    LogMore(c, names, p, results[p := o]);
    Regroup(log, SerialLog(c, names, results), WholeStory(c, p, HandlesOf(c.specs[p]), ChangesMade(c.specs[p]), o));
  }

  lemma Regroup(a: seq<Event>, b: seq<Event>, d: seq<Event>)
    ensures a + b + d == a + (b + d)
  {
  }

  lemma LogMore(c: Config, names: seq<string>, p: string, results: map<string, Outcome>)
    requires forall q :: q in names + [p] ==> q in c.specs && q in results
    ensures (forall q :: q in names ==> q in c.specs && q in results) && p in c.specs && p in results
    ensures SerialLog(c, names + [p], results)
      == SerialLog(c, names, results) + WholeStory(c, p, HandlesOf(c.specs[p]), ChangesMade(c.specs[p]), results[p])
  {
    hide WholeStory, HandlesOf, ChangesMade;
    assert (names + [p])[..|names + [p]| - 1] == names;
    assert p in names + [p];
  }

  /** No handle got past `created` before its address was noted. */
  ghost predicate NotedFirst(rs: seq<Resource>, notes: seq<string>) {
    forall j :: 0 <= j < |rs| && rs[j].state != Created ==> rs[j].addr in notes
  }

  lemma NotesGrow(c: Config, p: string, before: Record, after: Record, hs: seq<Resource>, o: Outcome, notes: seq<string>)
    requires p in c.specs && PoolBroughtUp(c, p, before, after, hs, o) && Reached(c.specs[p]) <= |hs|
    requires NotedFirst(before.resources, notes)
    ensures NotedFirst(after.resources, notes + AddressesOf(hs[..Reached(c.specs[p])]))
  {
    hide FirstAddress, Expected, WholeStory;
    var n := Reached(c.specs[p]);
    var more := notes + AddressesOf(hs[..n]);
    forall j | 0 <= j < |after.resources| && after.resources[j].state != Created ensures after.resources[j].addr in more {
      if j < |before.resources| {
        assert after.resources[j] == before.resources[j];
      } else {
        var w := j - |before.resources|;
        assert after.resources[j].addr == hs[w].addr;
        assert w < n && AddressesOf(hs[..n])[w] == hs[w].addr;
      }
    }
  }

  /** The serial loop: threads started and joined one at a time. */
  method BringUpAll(c: Config, names: seq<string>, st: RunState, cloud: Cloud, wiring: Wiring)
    returns (results: map<string, Outcome>)
    requires WellFormed(c) && Distinct(names) && (forall p :: p in names <==> p in c.specs)
    requires InStep(st, cloud, wiring) && st.resources == [] && st.pools == map[] && FreshRun(c, cloud.held)
    modifies st`resources, st`pools, st`events, st`disk, cloud`held, st.journal, wiring`firewallNotes
    ensures Joined(c, st.View(), results) && InStep(st, cloud, wiring) && st.status == old(st.status)
    ensures (forall p :: p in names ==> p in results) && st.events == old(st.events) + SerialLog(c, names, results)
    ensures old(wiring.firewallNotes) <= wiring.firewallNotes && NotedFirst(st.resources, wiring.firewallNotes)
    ensures Safe(ScopeOf(c, old(cloud.held), {}), Last(st.journal.past))
  {
    hide Joined, WellFormed, FreshRun, HeldIsListed, PoolBroughtUp, Safe, DistinctIds, FreshPool, CloudWith, NotedFirst,
      SerialLog, AddressesOf, Reached;
    results := map[];
    ghost var done: set<string> := {};
    ghost var cloud0 := cloud.held;
    NothingJoined(c, st.View(), cloud.held);
    NothingLogged(c, st.events, wiring.firewallNotes);
    var i := 0;
    while i < |names|
      invariant 0 <= i <= |names| && done == set p | p in names[..i]
      invariant Joined(Sub(c, done), st.View(), results) && InStep(st, cloud, wiring) && st.status == old(st.status)
      invariant HeldIsListed(c, cloud0, cloud.held, st.resources)
      invariant forall p :: p in names[..i] ==> p in results
      invariant st.events == old(st.events) + SerialLog(c, names[..i], results)
      invariant old(wiring.firewallNotes) <= wiring.firewallNotes && NotedFirst(st.resources, wiring.firewallNotes)
    {
      var p := names[i];
      assert p !in names[..i];
      ReadyForNext(c, done, p, st.View(), results);
      ghost var before, held, notes := st.View(), cloud.held, wiring.firewallNotes;
      var o; ghost var hs;
      o, hs := BringUpPool(c, p, st, cloud, wiring);
      JoinOneMore(c, done, p, before, results, st.View(), hs, o, Sub(c, done + {p}));
      HeldStaysListed(c, p, cloud0, held, before, st.View(), hs, o);
      StatusKept(c, p, before, st.View(), hs, o);
      LogGrows(c, names[..i], p, results, before, st.View(), hs, o, old(st.events));
      NotesGrow(c, p, before, st.View(), hs, o, notes);
      results := results[p := o];
      assert names[..i + 1] == names[..i] + [p];
      done := done + {p};
      i := i + 1;
    }
    assert names[..i] == names;
    assert Sub(c, done) == c;
    ListedIsSafe(c, cloud0, cloud.held, st.View(), results, wiring.file);
  }

  lemma NothingLogged(c: Config, log: seq<Event>, notes: seq<string>)
    ensures log + SerialLog(c, [], map[]) == log && NotedFirst([], notes)
  {
  }

  lemma NothingJoined(c: Config, rec: Record, held: map<Id, CloudRecord>)
    requires rec.resources == [] && rec.pools == map[]
    ensures Joined(Sub(c, {}), rec, map[]) && HeldIsListed(c, held, held, [])
  {
  }

  lemma ReadyForNext(c: Config, done: set<string>, p: string, rec: Record, results: map<string, Outcome>)
    requires p in c.specs && p !in done && Joined(Sub(c, done), rec, results)
    ensures DistinctIds(rec.resources) && FreshPool(c, p, rec.resources)
  {
    forall j | 0 <= j < |rec.resources| ensures rec.resources[j].id.run == c.run && rec.resources[j].id.pool != p {
      assert RecordedFor(Sub(c, done), rec.resources[j]);
    }
  }

  lemma StatusKept(c: Config, p: string, before: Record, after: Record, hs: seq<Resource>, o: Outcome)
    requires p in c.specs && PoolBroughtUp(c, p, before, after, hs, o)
    ensures after.status == before.status
  {
  }

  lemma JoinedDistinct(c: Config, rec: Record, results: map<string, Outcome>)
    requires Joined(c, rec, results)
    ensures DistinctIds(rec.resources)
  {
  }

  /** The whole of `up` under `GPUHA_SERIAL`. */
  method Up(c: Config, names: seq<string>, minPools: int, cloud: Cloud, wiring: Wiring,
            faults: map<Id, Fault>, restartFails: bool, fabric: Fabric)
    returns (st: RunState, raised: bool, results: map<string, Outcome>, ghost joined: Record)
    requires WellFormed(c) && Distinct(names) && (forall p :: p in names <==> p in c.specs)
    requires FreshRun(c, cloud.held) && cloud.journal == wiring.journal && cloud.journal.past != []
    requires Last(cloud.journal.past) == Durable(None, cloud.held, wiring.file)
    modifies cloud, wiring, cloud.journal
    ensures fresh(st) && InStep(st, cloud, wiring) && Joined(c, joined, results) && st.pools == joined.pools
    ensures raised <==> |OkPools(results)| < minPools || restartFails || fabric.Fails? || fabric.Raises?
    ensures st.status == if raised then Failed else RunRecord.Up
    ensures st.resources == if raised then AfterTeardown(joined.resources, faults) else joined.resources
    ensures (forall p :: p in names ==> p in results) && st.events == [StatusTo(Initializing)] + SerialLog(c, names, results)
      + FinishEvents(minPools <= |OkPools(results)|, restartFails, fabric, Active(joined.resources), faults)
    ensures Safe(ScopeOf(c, old(cloud.held), {}), Last(st.journal.past))
    ensures raised && NoFaults(joined.resources, faults) ==> cloud.held == old(cloud.held)
    ensures wiring.pools == if |OkPools(results)| < minPools then old(wiring.pools) else old(wiring.pools) + joined.pools
  {
    hide Joined, WellFormed, FreshRun, Distinct, OkPools, DistinctIds, Safe, Kept, NoFaults, AfterTeardown, CloudAfter, Active,
      SerialLog, FinishEvents;
    ghost var scope := ScopeOf(c, cloud.held, {});
    st := new RunState(cloud.journal);
    st.Save();
    st.SetStatus(Initializing);
    results := BringUpAll(c, names, st, cloud, wiring);
    joined := st.View();
    ghost var d := Last(st.journal.past);
    if NoFaults(joined.resources, faults) {
      DownFromSafe(scope, d, faults);
    }
    raised := FinishUp(minPools, st, results, cloud, wiring, faults, restartFails, fabric, scope);
  }
}
