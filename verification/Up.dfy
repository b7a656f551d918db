/** `up` as a whole, after any interleaving of the bring-up threads. */
module ConcurrentUp {
  import opened Common
  import opened RunRecord
  import opened RunStateObject
  import opened WiringObject
  import opened PoolMap
  import opened BringUp
  import opened BringUpInvariant
  import opened BringUpTheorems
  import opened Provider
  import opened Engine
  import opened History
  import opened Recovery

  /** Backend `b` is wired for a pool that came up: every worker of it recorded and verified, the first non-empty address published. */
  ghost predicate Serving(c: Config, rec: Record, results: map<string, Outcome>, b: string, p: string)
    requires b in rec.pools
  {
    && ServesAs(c, results, p, b, rec.pools[b])
    && c.specs[p].acquired.Granted?
    && IsFirstAddress(rec.resources, p, rec.pools[b])
    && (forall w: nat :: w < |c.specs[p].acquired.fates| ==> HasId(rec.resources, Id(p, c.run, w)))
    && (forall j :: 0 <= j < |rec.resources| && rec.resources[j].id.pool == p ==> rec.resources[j].state == Verified)
  }

  lemma AllServing(c: Config, rec: Record, results: map<string, Outcome>)
    requires WellFormed(c) && Joined(c, rec, results)
    ensures forall b :: b in rec.pools ==> exists p :: Serving(c, rec, results, b, p)
  {
    hide WellFormed, IsFirstAddress, HasId, DistinctIds, IsServed, RecordedFor, Expected;
    forall b | b in rec.pools ensures exists p :: Serving(c, rec, results, b, p) {
      var p := WiredMeansVerified(c, rec, results, b);
      assert Serving(c, rec, results, b, p);
    }
  }

  /** Whoever comes next, `reap` or `down` with the run file, brings the provider back to where it was. */
  ghost predicate Recoverable(c: Config, cloud0: map<Id, CloudRecord>, d: Durable) {
    && d.disk.Some?
    && CloudAfter(d.held, d.disk.value.resources, map[]) == cloud0
    && forall providers: seq<string> :: (forall p :: p in c.specs ==> c.specs[p].provider in providers) ==>
         AfterReap(d.held, providers, {}, Some(c.run)) == cloud0
  }

  lemma SafeIsRecoverable(c: Config, cloud0: map<Id, CloudRecord>, d: Durable)
    requires Safe(ScopeOf(c, cloud0, {}), d)
    ensures Recoverable(c, cloud0, d)
  {
    hide Safe, CloudAfter, AfterReap;
    var scope := ScopeOf(c, cloud0, {});
    SafeIsDistinct(scope, d);
    DownFromSafe(scope, d, map[]);
    forall providers: seq<string> | forall p :: p in c.specs ==> c.specs[p].provider in providers
      ensures AfterReap(d.held, providers, {}, Some(c.run)) == cloud0
    {
      ReapFromSafe(scope, d, providers);
    }
  }

  lemma KeptIsRecoverable(c: Config, cloud0: map<Id, CloudRecord>, start: seq<Durable>, past: seq<Durable>)
    requires Kept(ScopeOf(c, cloud0, {}), start, past)
    ensures start <= past && forall k :: |start| <= k < |past| ==> Recoverable(c, cloud0, past[k])
  {
    hide Safe, Recoverable;
    forall k | |start| <= k < |past| ensures Recoverable(c, cloud0, past[k]) {
      SafeIsRecoverable(c, cloud0, past[k]);
    }
  }

  /** The record matters to a join only through its resources and its pools. */
  lemma JoinedTransfers(c: Config, rec: Record, rec': Record, results: map<string, Outcome>)
    requires Joined(c, rec, results) && rec'.resources == rec.resources && rec'.pools == rec.pools
    ensures Joined(c, rec', results)
  {
    hide DistinctIds, HasId, IsFirstAddress, RecordedFor, ServesAs, Expected;
  }

  /**
   The outcome of `up` when its threads have been joined in whatever state some
   interleaving led to.  `up` means quorum, and every wired backend fully verified; an
   exception means that, unless a teardown fails too, every provider is exactly as before.
   The pool map is changed whenever the quorum was met, even when the fabric then fails.
   A crash at any moment on the way leaves a state from which `reap` as well as `down`
   restore every provider.
   */
  method UpAfterJoin(c: Config, minPools: int, results: map<string, Outcome>, st: RunState, cloud: Cloud, wiring: Wiring,
                     faults: map<Id, Fault>, restartFails: bool, fabric: Fabric,
                     ghost cloud0: map<Id, CloudRecord>, ghost s: Sys)
    returns (raised: bool)
    requires WellFormed(c) && FreshRun(c, cloud0) && Reachable(c, cloud0, s) && AllFinished(s)
    requires InStep(st, cloud, wiring) && st.View() == s.mem && cloud.held == s.cloud && results == s.results
    modifies st`status, st`resources, st`events, st`disk, cloud`held, cloud`calls, wiring`pools, wiring`file, st.journal
    ensures raised <==> |OkPools(results)| < minPools || restartFails || fabric.Fails? || fabric.Raises?
    ensures InStep(st, cloud, wiring) && st.status == if raised then Failed else Status.Up
    ensures !raised ==>
      && cloud.held == s.cloud && wiring.pools == old(wiring.pools) + st.pools
      && forall b :: b in st.pools ==> exists p :: Serving(c, st.View(), results, b, p)
    ensures raised ==> Active(st.resources) == Failures(Active(s.mem.resources), faults)
    ensures raised && NoFaults(s.mem.resources, faults) ==> cloud.held == cloud0 && Active(st.resources) == []
    ensures wiring.pools == if |OkPools(results)| < minPools then old(wiring.pools) else old(wiring.pools) + s.mem.pools
    ensures raised ==> cloud.calls == old(cloud.calls) + IdsOf(Active(s.mem.resources))
    ensures old(st.journal.past) <= st.journal.past
    ensures forall k :: |old(st.journal.past)| <= k < |st.journal.past| ==> Recoverable(c, cloud0, st.journal.past[k])
  {
    hide WellFormed, FreshRun, Reachable, AllFinished, Joined, DistinctIds, Safe, Kept, Recoverable, Active, IdsOf, OkPools,
      AfterTeardown, CloudAfter, Serving, NoFaults;
    ghost var start := st.journal.past;
    BringUpIsConfluent(c, cloud0, s);
    JoinedIsSafe(c, cloud0, s, wiring.file);
    if NoFaults(s.mem.resources, faults) {
      DownFromSafe(ScopeOf(c, cloud0, {}), Last(start), faults);
      SecondDownIsIdle(s.mem.resources, s.cloud, faults, map[]);
    }
    RetriesExactlyTheFailures(s.mem.resources, faults);
    raised := FinishUp(minPools, st, results, cloud, wiring, faults, restartFails, fabric, ScopeOf(c, cloud0, {}));
    KeptIsRecoverable(c, cloud0, start, st.journal.past);
    if !raised {
      JoinedTransfers(c, s.mem, st.View(), results);
      AllServing(c, st.View(), results);
    }
  }
}
