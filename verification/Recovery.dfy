/** After a crash: what `down` and `reap` bring the provider back to, from any reachable state. */
module Recovery {
  import opened Common
  import opened RunRecord
  import opened RunStateObject
  import opened Text
  import opened PoolMap
  import opened BringUp
  import opened BringUpInvariant
  import opened BringUpTheorems
  import opened Provider
  import opened Engine
  import opened History
  import opened WiringObject

  // ---------------------------------------------------------------- reap

  /** Some provider that answered was asked for `rec`. */
  ghost predicate Reaped(rec: CloudRecord, providers: seq<string>, unreachable: set<string>, run: Option<string>) {
    rec.provider in providers && rec.provider !in unreachable && Reaps(rec, rec.provider, run)
  }

  /** What the provider still holds after `reap`. */
  ghost function AfterReap(held: map<Id, CloudRecord>, providers: seq<string>, unreachable: set<string>, run: Option<string>)
    : (rest: map<Id, CloudRecord>)
    ensures forall id :: id in rest ==> id in held && rest[id] == held[id]
  {
    map id | id in held && !Reaped(held[id], providers, unreachable, run) :: held[id]
  }

  /** `killed[prov]` is exactly what `prov` held for the run, without repetition. */
  ghost predicate KilledAt(held: map<Id, CloudRecord>, prov: string, run: Option<string>, ids: seq<Id>) {
    && Distinct(ids)
    && forall id :: id in ids <==> id in held && Reaps(held[id], prov, run)
  }

  /** `reap` over the listed providers; one that raises is skipped and the rest go on. */
  method ReapAll(cloud: Cloud, providers: seq<string>, unreachable: set<string>, run: Option<string>)
    returns (killed: map<string, seq<Id>>)
    requires Distinct(providers) && cloud.journal.past != [] && Last(cloud.journal.past).held == cloud.held
    modifies cloud`held, cloud.journal
    ensures cloud.journal.past != []
    ensures Last(cloud.journal.past) == Last(old(cloud.journal.past)).(held := cloud.held)
    ensures cloud.held == AfterReap(old(cloud.held), providers, unreachable, run)
    ensures forall prov :: prov in killed ==> prov in providers && prov !in unreachable && killed[prov] != []
    ensures forall prov :: prov in killed ==> KilledAt(old(cloud.held), prov, run, killed[prov])
    ensures forall id :: id in old(cloud.held) && id !in cloud.held ==>
      old(cloud.held)[id].provider in killed && id in killed[old(cloud.held)[id].provider]
  {
    hide KilledAt, AfterReap;
    NobodyAsked(cloud.held, unreachable, run);
    ghost var held := cloud.held;
    killed := map[];
    var i := 0;
    while i < |providers|
      invariant 0 <= i <= |providers|
      invariant cloud.journal.past != []
      invariant Last(cloud.journal.past) == Last(old(cloud.journal.past)).(held := cloud.held)
      invariant cloud.held == AfterReap(held, providers[..i], unreachable, run)
      invariant forall prov :: prov in killed ==> prov in providers[..i] && prov !in unreachable && killed[prov] != []
      invariant forall prov :: prov in killed ==> KilledAt(held, prov, run, killed[prov])
      invariant forall id :: id in held && id !in cloud.held ==>
        held[id].provider in killed && id in killed[held[id].provider]
    {
      var prov := providers[i];
      assert providers[..i + 1] == providers[..i] + [prov];
      assert prov !in providers[..i];
      if prov !in unreachable {
        ghost var before := cloud.held;
        var ids := cloud.Reap(prov, run);
        FirstTime(held, before, providers[..i], prov, unreachable, run, ids);
        OneMoreAsked(held, before, cloud.held, providers[..i], prov, unreachable, run);
        OnlyItsOwn(prov, run);
        if ids != [] {
          killed := killed[prov := ids];
        }
      } else {
        OneMoreSkipped(held, providers[..i], prov, unreachable, run);
      }
      i := i + 1;
    }
    assert providers[..i] == providers;
  }

  /** What `reap` means, entry by entry: of the answering providers asked, everything tagged, of the run asked for or of every run. */
  lemma ReapRemoves(held: map<Id, CloudRecord>, providers: seq<string>, unreachable: set<string>, run: Option<string>)
    ensures forall id :: id in held ==>
      (id !in AfterReap(held, providers, unreachable, run) <==>
        && held[id].provider in providers && held[id].provider !in unreachable
        && "gpuha-managed=" <= held[id].tag && (run.Some? ==> held[id].run == run.value))
  {
    forall id | id in held ensures StartsWith(held[id].tag, "gpuha-managed=") <==> "gpuha-managed=" <= held[id].tag {
      var prefix, tag := "gpuha-managed=", held[id].tag;
      if StartsWith(tag, prefix) {
        assert tag[..|prefix|] == prefix;
      }
    }
    hide StartsWith;
  }

  /** The ids `reap` returns for a provider, entry by entry. */
  lemma KilledMeans(held: map<Id, CloudRecord>, prov: string, run: Option<string>, ids: seq<Id>)
    requires KilledAt(held, prov, run, ids)
    ensures Distinct(ids)
    ensures forall id :: id in ids <==>
      id in held && held[id].provider == prov && "gpuha-managed=" <= held[id].tag && (run.Some? ==> held[id].run == run.value)
  {
    ReapRemoves(held, [prov], {}, run);
    hide StartsWith;
  }

  /** `reap` of every run: nothing tagged is left where it was asked, everything untagged stays. */
  method ReapEverything(cloud: Cloud, providers: seq<string>, unreachable: set<string>)
    returns (killed: map<string, seq<Id>>)
    requires Distinct(providers) && cloud.journal.past != [] && Last(cloud.journal.past).held == cloud.held
    modifies cloud`held, cloud.journal
    ensures forall id :: id in old(cloud.held) ==>
      (id in cloud.held <==>
        !(&& old(cloud.held)[id].provider in providers && old(cloud.held)[id].provider !in unreachable
          && "gpuha-managed=" <= old(cloud.held)[id].tag))
    ensures forall id :: id in cloud.held ==> id in old(cloud.held) && cloud.held[id] == old(cloud.held)[id]
    ensures forall prov :: prov in killed ==> Distinct(killed[prov])
    ensures forall prov, id :: prov in killed ==>
      (id in killed[prov] <==>
        id in old(cloud.held) && old(cloud.held)[id].provider == prov && "gpuha-managed=" <= old(cloud.held)[id].tag)
    ensures forall id :: id in old(cloud.held) && id !in cloud.held ==> old(cloud.held)[id].provider in killed
  {
    hide KilledAt, AfterReap, Distinct;
    ghost var held := cloud.held;
    killed := ReapAll(cloud, providers, unreachable, None);
    ReapRemoves(held, providers, unreachable, None);
    forall prov | prov in killed
      ensures Distinct(killed[prov])
      ensures forall id :: id in killed[prov] <==> id in held && held[id].provider == prov && "gpuha-managed=" <= held[id].tag
    {
      KilledMeans(held, prov, None, killed[prov]);
    }
  }

  lemma NobodyAsked(held: map<Id, CloudRecord>, unreachable: set<string>, run: Option<string>)
    ensures AfterReap(held, [], unreachable, run) == held
  {
  }

  lemma OneMoreAsked(held: map<Id, CloudRecord>, before: map<Id, CloudRecord>, now: map<Id, CloudRecord>,
                     asked: seq<string>, prov: string, unreachable: set<string>, run: Option<string>)
    requires before == AfterReap(held, asked, unreachable, run) && prov !in unreachable
    requires forall id :: id in now <==> id in before && !Reaps(before[id], prov, run)
    requires forall id :: id in now ==> now[id] == before[id]
    ensures now == AfterReap(held, asked + [prov], unreachable, run)
  {
    hide Reaps;
    assert forall id :: id in held ==> Reaps(held[id], prov, run) ==> held[id].provider == prov by {
      OnlyItsOwn(prov, run);
    }
  }

  lemma OnlyItsOwn(prov: string, run: Option<string>)
    ensures forall rec :: Reaps(rec, prov, run) ==> rec.provider == prov
  {
  }

  lemma OneMoreSkipped(held: map<Id, CloudRecord>, asked: seq<string>, prov: string, unreachable: set<string>, run: Option<string>)
    requires prov in unreachable
    ensures AfterReap(held, asked + [prov], unreachable, run) == AfterReap(held, asked, unreachable, run)
  {
  }

  /** A provider asked for the first time still holds all it ever held for the run. */
  lemma FirstTime(held: map<Id, CloudRecord>, before: map<Id, CloudRecord>, asked: seq<string>, prov: string,
                  unreachable: set<string>, run: Option<string>, ids: seq<Id>)
    requires before == AfterReap(held, asked, unreachable, run) && prov !in asked && Distinct(ids)
    requires forall id :: id in ids <==> id in before && Reaps(before[id], prov, run)
    ensures KilledAt(held, prov, run, ids)
  {
  }

  lemma TagIsRecognised(run: string)
    ensures StartsWith(TagFor(run), "gpuha-managed=")
  {
    var prefix := "gpuha-managed=";
    assert TagFor(run)[..|prefix|] == prefix;
  }

  /** From anything safe, `reap` of the run leaves exactly what was there before it, with no help from the run file. */
  lemma ReapFromSafe(scope: Scope, d: Durable, providers: seq<string>)
    requires Safe(scope, d) && forall prov :: prov in scope.providers ==> prov in providers
    ensures AfterReap(d.held, providers, {}, Some(scope.run)) == scope.before
  {
    hide ActiveOn, DistinctIds;
    TagIsRecognised(scope.run);
  }

  /**
   The backstop during bring-up: crash anywhere, then `reap` of the run over the
   topology's providers leaves every provider exactly as it was before `up`.
   */
  lemma ReapUndoesAnyCrash(c: Config, cloud0: map<Id, CloudRecord>, s: Sys, providers: seq<string>)
    requires WellFormed(c) && FreshRun(c, cloud0) && Reachable(c, cloud0, s)
    requires forall p :: p in c.specs ==> c.specs[p].provider in providers
    ensures AfterReap(s.cloud, providers, {}, Some(c.run)) == cloud0
  {
    hide Reachable, WellFormed, Safe;
    if s.disk.Some? {
      CrashIsSafe(c, cloud0, s, None);
      ReapFromSafe(ScopeOf(c, cloud0, LostIn(cloud0, s)), Durable(s.disk, s.cloud, None), providers);
    } else {
      PersistedBeforeCreate(c, cloud0, s);
    }
  }

  // ---------------------------------------------------------------- down after a crash

  /**
   `down` from a run file left by a crash of the bring-up: what remains at the provider is
   what was there before and exactly those ids the file did not list yet.
   */
  lemma DownAfterCrash(c: Config, cloud0: map<Id, CloudRecord>, s: Sys, faults: map<Id, Fault>, id: Id)
    requires WellFormed(c) && FreshRun(c, cloud0) && Reachable(c, cloud0, s) && s.disk.Some?
    requires NoFaults(s.disk.value.resources, faults)
    ensures id in CloudAfter(s.cloud, s.disk.value.resources, faults) <==> id in cloud0 || id in LostIn(cloud0, s)
    ensures id in LostIn(cloud0, s) ==> id.pool in s.threads && InWindow(s.threads[id.pool], id.w)
  {
    hide Reachable, WellFormed, ActiveOn, InWindow, Safe, CloudAfter, NoFaults, Recorded;
    CrashIsSafe(c, cloud0, s, None);
    DownFromSafe(ScopeOf(c, cloud0, LostIn(cloud0, s)), Durable(s.disk, s.cloud, None), faults);
    if id in s.cloud && id !in cloud0 {
      RunIsTagged(c, cloud0, s, id);
      CrashLosesNothing(c, cloud0, s, id);
    }
  }

  /** From anything safe, `down` leaves what was there before the run exactly as it was, whatever fails. */
  lemma DownSparesOthers(scope: Scope, d: Durable, faults: map<Id, Fault>, id: Id)
    requires Safe(scope, d) && id in scope.before
    ensures id in CloudAfter(d.held, d.disk.value.resources, faults)
    ensures CloudAfter(d.held, d.disk.value.resources, faults)[id] == scope.before[id]
  {
    hide DistinctIds;
  }

  // ---------------------------------------------------------------- idempotence of down

  /** The handles a repeated `down` works on are exactly those whose teardown raised. */
  lemma {:induction false} RetriesExactlyTheFailures(rs: seq<Resource>, faults: map<Id, Fault>)
    ensures Active(AfterTeardown(rs, faults)) == Failures(Active(rs), faults)
  {
    if rs != [] {
      var out := AfterTeardown(rs, faults);
      assert out[1..] == AfterTeardown(rs[1..], faults);
      RetriesExactlyTheFailures(rs[1..], faults);
      var r := rs[0];
      var rest := Active(rs[1..]);
      if r.state != TornDown {
        assert Active(rs) == [r] + rest;
        assert ([r] + rest)[0] == r && ([r] + rest)[1..] == rest;
      }
    }
  }

  function Failures(rs: seq<Resource>, faults: map<Id, Fault>): seq<Resource> {
    if rs == [] then []
    else (if FaultOf(faults, rs[0].id).Fine? then [] else [rs[0]]) + Failures(rs[1..], faults)
  }

  lemma {:induction false} NoFailures(rs: seq<Resource>, faults: map<Id, Fault>)
    requires NoFaults(rs, faults)
    ensures Failures(rs, faults) == []
  {
    if rs != [] {
      NoFailures(rs[1..], faults);
    }
  }

  /** After a `down` without failures another one finds nothing to do at the provider or in the record. */
  lemma SecondDownIsIdle(rs: seq<Resource>, held: map<Id, CloudRecord>, faults: map<Id, Fault>, later: map<Id, Fault>)
    requires NoFaults(rs, faults)
    ensures Active(AfterTeardown(rs, faults)) == []
    ensures AfterTeardown(AfterTeardown(rs, faults), later) == AfterTeardown(rs, faults)
    ensures CloudAfter(held, AfterTeardown(rs, faults), later) == held
  {
    hide FaultOf;
    var out := AfterTeardown(rs, faults);
    assert forall j :: 0 <= j < |out| ==> out[j].state == TornDown;
    RetriesExactlyTheFailures(rs, faults);
    forall j | 0 <= j < |Active(rs)| ensures Active(rs)[j] in rs {
      assert Active(rs)[j] in Active(rs);
    }
    NoFailures(Active(rs), faults);
    assert forall id :: !ActiveOn(out, id);
    assert AfterTeardown(out, later) == out;
  }

  // ---------------------------------------------------------------- down as a process of its own

  lemma WithoutKeys(file: Option<string>, keys: set<string>)
    ensures var pools := Entered(ReadText(file)) - keys;
      GoodPools(pools) && ReadText(Some(FileText(Some(REAL_HEADER), pools))) == ReadText(file) - keys
    ensures Entered(ReadText(file) - keys) == Entered(ReadText(file)) - keys
  {
    hide ReadText, FileText, GoodName, GoodAddress, OneLine;
    var pools := Entered(ReadText(file)) - keys;
    EnteredIsGood(file);
    RealHeaderIsOneLine();
    FileRoundTrip(Some(REAL_HEADER), pools);
    assert Texts(pools) == Texts(Entered(ReadText(file))) - keys;
  }

  lemma AllKept(scope: Scope, d: Durable, past: seq<Durable>)
    requires Safe(scope, d) && Kept(scope, [d], past)
    ensures past != [] && past[0] == d && forall k :: 0 <= k < |past| ==> Safe(scope, past[k])
  {
    hide Safe;
    assert past[..1] == [d];
  }

  /**
   `gpuha down` (orchestrator/cli.py:120-129) in a process of its own, from whatever a
   crash left: the record is loaded and the pool map read anew.  Every durable state on
   the way is again one that `down` can start from.
   */
  method DownFrom(d: Durable, faults: map<Id, Fault>, restartFails: bool, ghost scope: Scope)
    returns (j: Journal, ok: bool)
    requires Safe(scope, d)
    ensures fresh(j) && ok == !restartFails
    ensures j.past != [] && j.past[0] == d && forall k :: 0 <= k < |j.past| ==> Safe(scope, j.past[k])
    ensures Last(j.past).disk.Some? && Last(j.past).disk.value.pools == map[]
    ensures Last(j.past).disk.value.status == if ok then Down else Aborting
    ensures Last(j.past).disk.value.resources == AfterTeardown(d.disk.value.resources, faults)
    ensures Last(j.past).held == CloudAfter(d.held, d.disk.value.resources, faults)
    ensures Last(j.past).file
      == Some(FileText(Some(REAL_HEADER), Entered(ReadText(d.file)) - d.disk.value.pools.Keys))
    ensures ReadText(Last(j.past).file) == ReadText(d.file) - d.disk.value.pools.Keys
  {
    hide Safe, Kept, AfterTeardown, CloudAfter, FileText, ReadText;
    SafeIsDistinct(scope, d);
    j := new Journal(d);
    var st := new RunState.Load(d.disk.value, j);
    var cloud := new Cloud(d.held, j);
    var wiring := new Wiring.Open(d.file, j);
    ghost var order;
    ok, order := TakeDown(st, cloud, wiring, faults, restartFails, scope);
    AllKept(scope, d, j.past);
    WithoutKeys(d.file, d.disk.value.pools.Keys);
  }

  /** One `down` and how many of its durable writes it gets through before it crashes. */
  datatype Attempt = Attempt(faults: map<Id, Fault>, restartFails: bool, writes: nat)

  /**
   However often `down` is tried, with whatever failures, and wherever each try crashes,
   `reap` of the run still leaves exactly what the provider held before it.
   */
  method CrashedDowns(start: Durable, attempts: seq<Attempt>, providers: seq<string>, ghost scope: Scope)
    returns (d: Durable)
    requires Safe(scope, start) && forall prov :: prov in scope.providers ==> prov in providers
    ensures Safe(scope, d)
    ensures AfterReap(d.held, providers, {}, Some(scope.run)) == scope.before
  {
    hide Safe;
    d := start;
    for i := 0 to |attempts|
      invariant Safe(scope, d)
    {
      var j, _ := DownFrom(d, attempts[i].faults, attempts[i].restartFails, scope);
      d := if attempts[i].writes < |j.past| then j.past[attempts[i].writes] else Last(j.past);
    }
    ReapFromSafe(scope, d, providers);
  }

  /** After a `down` without failed teardowns another one changes neither provider nor handles, pools or pool-map file. */
  method DownTwice(d: Durable, faults: map<Id, Fault>, restartFails: bool, laterFaults: map<Id, Fault>, laterFails: bool,
                   ghost scope: Scope)
    returns (first: Durable, second: Durable)
    requires Safe(scope, d) && NoFaults(d.disk.value.resources, faults)
    ensures first.disk.Some? && second.disk.Some?
    ensures second.held == first.held && second.file == first.file
    ensures second.disk.value.resources == first.disk.value.resources && second.disk.value.pools == first.disk.value.pools == map[]
    ensures scope.lost == {} ==> first.held == scope.before
  {
    hide Safe, NoFaults, AfterTeardown, CloudAfter, FileText, ReadText, DistinctIds;
    SafeIsDistinct(scope, d);
    DownFromSafe(scope, d, faults);
    var j, _ := DownFrom(d, faults, restartFails, scope);
    first := Last(j.past);
    var later, _ := DownFrom(first, laterFaults, laterFails, scope);
    second := Last(later.past);
    SecondDownIsIdle(d.disk.value.resources, first.held, faults, laterFaults);
    WithoutKeys(d.file, d.disk.value.pools.Keys);
    var once := Entered(ReadText(d.file)) - d.disk.value.pools.Keys;
    assert Entered(ReadText(first.file)) == once;
    var none: map<string, Option<string>> := map[];
    assert once - none.Keys == once;
  }

  // ---------------------------------------------------------------- the pool map over up and down

  lemma MinusKeys(m: map<string, string>, keys: set<string>)
    ensures m - keys == m <==> m.Keys !! keys
  {
    if m - keys == m {
      assert (m - keys).Keys == m.Keys - keys;
    }
  }

  lemma WiredFile(file: Option<string>, wired: map<string, Option<string>>)
    requires GoodPools(wired)
    ensures var pools := Entered(ReadText(file)) + wired;
      ReadText(Some(FileText(Some(REAL_HEADER), pools))) == ReadText(file) + Texts(wired)
  {
    hide ReadText, FileText, GoodName, GoodAddress, OneLine;
    EnteredIsGood(file);
    RealHeaderIsOneLine();
    FileRoundTrip(Some(REAL_HEADER), Entered(ReadText(file)) + wired);
    assert Texts(Entered(ReadText(file)) + wired) == Texts(Entered(ReadText(file))) + Texts(wired);
  }

  /**
   The pool-map file over `up` (from the quorum on) and a later `down` in a process of its
   own, whatever the file held before and however either ends: while the run is wired it
   reads as the original map with the run's pools over it, and afterwards as the original
   one without the run's backends; so it is restored if and only if none of them was in it.
   */
  method UpThenDown(minPools: int, st: RunState, results: map<string, Outcome>, cloud: Cloud, faults: map<Id, Fault>,
                    restartFails: bool, fabric: Fabric, laterFaults: map<Id, Fault>, laterFails: bool, ghost scope: Scope)
    returns (raised: bool, j: Journal)
    requires cloud.journal == st.journal && st.Flushed() && Last(st.journal.past).held == cloud.held
    requires Safe(scope, Last(st.journal.past)) && GoodPools(st.pools)
    modifies st`status, st`resources, st`events, st`disk, cloud`held, cloud`calls, st.journal
    ensures fresh(j) && j.past != [] && st.journal.past != []
    ensures ReadText(Last(st.journal.past).file) ==
      if |OkPools(results)| < minPools then ReadText(old(Last(st.journal.past).file))
      else ReadText(old(Last(st.journal.past).file)) + Texts(st.pools)
    ensures ReadText(Last(j.past).file) == ReadText(old(Last(st.journal.past).file)) - st.pools.Keys
    ensures ReadText(Last(j.past).file) == ReadText(old(Last(st.journal.past).file))
      <==> ReadText(old(Last(st.journal.past).file)).Keys !! st.pools.Keys
  {
    hide Safe, Kept, GoodPools, AfterTeardown, CloudAfter, FileText, ReadText, OkPools, DistinctIds;
    ghost var file0 := Last(st.journal.past).file;
    var wiring := new Wiring.Open(Last(st.journal.past).file, st.journal);
    raised := FinishUp(minPools, st, results, cloud, wiring, faults, restartFails, fabric, scope);
    WiredFile(file0, st.pools);
    var ok;
    j, ok := DownFrom(Last(st.journal.past), laterFaults, laterFails, scope);
    MinusKeys(ReadText(file0), st.pools.Keys);
  }

  /** A run that shares backend "b" with the map it finds: after `up` and `down` the original entry is gone. */
  method SharedBackendIsLost() returns (before: Option<string>, after: Option<string>)
    ensures ReadText(before) == map["b" := "192.0.2.1"] && ReadText(after) == map[]
  {
    var pools: map<string, Option<string>> := map["b" := Some("192.0.2.1")];
    var wired: map<string, Option<string>> := map["b" := Some("192.0.2.2")];
    hide GoodPools, ReadText, FileText, Safe, Texts, Entered, OneLine;
    NamesAndAddresses(pools, wired);
    NoFile();
    var record := Record(Initializing, [], wired, []);
    var j := new Journal(Durable(Some(record), map[], None));
    var other := new Wiring.Open(None, j);
    other.AddPool("b", Some("192.0.2.1"));
    var _ := other.Apply(false);
    before := other.file;
    RealHeaderIsOneLine();
    FileRoundTrip(Some(REAL_HEADER), pools);
    ghost var scope := Scope("r", map[], {}, {});
    NothingThere(scope, record, before);
    var st := new RunState.Load(record, j);
    var cloud := new Cloud(map[], j);
    var raised, later := UpThenDown(0, st, map[], cloud, map[], false, NoCheck, map[], false, scope);
    after := Last(later.past).file;
    assert map["b" := "192.0.2.1"] - {"b"} == map[];
  }

  lemma NoFile()
    ensures Entered(ReadText(None)) == map[]
  {
  }

  lemma NamesAndAddresses(pools: map<string, Option<string>>, wired: map<string, Option<string>>)
    requires pools == map["b" := Some("192.0.2.1")] && wired == map["b" := Some("192.0.2.2")]
    ensures GoodPools(pools) && GoodPools(wired) && Texts(pools) == map["b" := "192.0.2.1"]
  {
    hide Bare, OneLine;
    PlainAddress("192.0.2.1");
    PlainAddress("192.0.2.2");
    PlainAddress("b");
  }

  lemma NothingThere(scope: Scope, rec: Record, file: Option<string>)
    requires rec.resources == [] && scope.before == map[]
    ensures Safe(scope, Durable(Some(rec), map[], file))
  {
  }

  lemma PlainAddress(s: string)
    requires forall i :: 0 <= i < |s| ==> '.' <= s[i] <= '9' || s[i] == 'b'
    ensures Bare(s) && OneLine(s) && '=' !in s && (s != "" ==> s[0] != '#')
  {
  }
}
