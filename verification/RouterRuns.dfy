/** Many requests at once: the counters they share, and the handler as the loops it is written in. */
module RouterRuns {
  import opened Common
  import opened Chunked
  import opened Router

  // ---------------------------------------------------------------- any interleaving of requests

  datatype Sys = Sys(shared: Shared, reqs: map<nat, Request>)

  datatype Act = Arrival(id: nat, plan: seq<string>, ups: seq<Upstream>) | Resumption(id: nat, e: Event)

  function Start(): Sys {
    Sys(Shared(Stats(0, 0, 0, 0, 0), map[]), map[])
  }

  ghost predicate AllKeep(s: Sys) {
    forall id :: id in s.reqs ==> Keeps(s.reqs[id])
  }

  ghost predicate Possible(s: Sys, act: Act) {
    match act
    case Arrival(id, plan, ups) => id !in s.reqs && Planned(plan, ups)
    case Resumption(id, e) => id in s.reqs && e.delay >= 0.0
  }

  ghost function Do(s: Sys, act: Act): Sys
    requires AllKeep(s) && Possible(s, act)
  {
    match act
    case Arrival(id, plan, ups) =>
      var (r, sh) := Arrive(s.shared, plan, ups);
      Sys(sh, s.reqs[id := r])
    case Resumption(id, e) =>
      var (r, sh) := Resume(s.reqs[id], s.shared, e);
      Sys(sh, s.reqs[id := r])
  }

  lemma DoKeeps(s: Sys, act: Act)
    requires AllKeep(s) && Possible(s, act)
    ensures AllKeep(Do(s, act))
  {
    hide Keeps, Resume, Arrive;
    match act {
      case Arrival(_, plan, ups) => ArriveKeeps(s.shared, plan, ups);
      case Resumption(id, e) => ResumeKeeps(s.reqs[id], s.shared, e);
    }
  }

  ghost predicate Runs(s: Sys, acts: seq<Act>, s': Sys)
    decreases |acts|
  {
    if acts == [] then s' == s
    else AllKeep(s) && Possible(s, acts[0]) && Runs(Do(s, acts[0]), acts[1..], s')
  }

  // ---------------------------------------------------------------- counters

  /** Which counter a request has been counted in, if any. */
  function TallyOf(r: Request): Option<How> {
    match r.pc
    case DrainAbort => Some(FailFast)
    case DrainNone => Some(NoCapacity)
    case Closed(how) => Some(how)
    case _ => None
  }

  ghost function With(reqs: map<nat, Request>, tally: Option<How>): set<nat> {
    set id | id in reqs && TallyOf(reqs[id]) == tally
  }

  /** One pair per attempt that was started after an earlier one of the same request. */
  ghost function Retries(reqs: map<nat, Request>): set<(nat, nat)> {
    set id, k | id in reqs && k in Later(reqs[id].started) :: (id, k)
  }

  /** The numbers from 1 up to `started`, exclusive. */
  function Later(started: nat): (ks: set<nat>)
    ensures forall k :: k in ks <==> 1 <= k < started
  {
    if started <= 1 then {} else Later(started - 1) + {started - 1}
  }

  ghost predicate Conserved(s: Sys) {
    var st := s.shared.stats;
    && st.requests == |s.reqs|
    && st.ok == |With(s.reqs, Some(Served))|
    && st.midstream == |With(s.reqs, Some(FailFast))|
    && st.noCapacity == |With(s.reqs, Some(NoCapacity))|
    && st.failovers == |Retries(s.reqs)|
  }

  /** One more in `how` exactly when the request enters that tally. */
  function Gain(before: Option<How>, after: Option<How>, how: How): nat {
    if after == Some(how) && before != Some(how) then 1 else 0
  }

  ghost predicate Counts(st: Stats, st': Stats, before: Option<How>, after: Option<How>, retries: int) {
    && st'.requests == st.requests
    && st'.ok == st.ok + Gain(before, after, Served)
    && st'.midstream == st.midstream + Gain(before, after, FailFast)
    && st'.noCapacity == st.noCapacity + Gain(before, after, NoCapacity)
    && st'.failovers == st.failovers + retries
  }

  lemma ResumeCounts(r: Request, sh: Shared, e: Event)
    requires Keeps(r)
    ensures var (r', sh') := Resume(r, sh, e);
      && Counts(sh.stats, sh'.stats, TallyOf(r), TallyOf(r'), r'.started - r.started)
      && r.started <= r'.started <= r.started + 1
      && (TallyOf(r).Some? ==> TallyOf(r') == TallyOf(r))
      && (r'.started > r.started ==> r.started >= 1)
  {
    hide BodyOf, Stream, Tail, Lasts, WaitBound;
  }

  lemma WithUpdated(reqs: map<nat, Request>, id: nat, r: Request, how: How)
    requires id in reqs && (TallyOf(reqs[id]) == Some(how) ==> TallyOf(r) == Some(how))
    ensures |With(reqs[id := r], Some(how))| == |With(reqs, Some(how))| + Gain(TallyOf(reqs[id]), TallyOf(r), how)
  {
    var before, after := With(reqs, Some(how)), With(reqs[id := r], Some(how));
    if Gain(TallyOf(reqs[id]), TallyOf(r), how) == 1 {
      assert after == before + {id} && id !in before;
    } else {
      assert after == before;
    }
  }

  lemma IsRetry(reqs: map<nat, Request>, x: (nat, nat))
    ensures x in Retries(reqs) <==> x.0 in reqs && 1 <= x.1 < reqs[x.0].started
  {
    hide Later;
    assert x == (x.0, x.1);
  }

  lemma RetriesUpdated(reqs: map<nat, Request>, id: nat, r: Request)
    requires id in reqs && reqs[id].started <= r.started <= reqs[id].started + 1
    requires r.started > reqs[id].started ==> reqs[id].started >= 1
    ensures |Retries(reqs[id := r])| == |Retries(reqs)| + r.started - reqs[id].started
  {
    hide Later;
    var before, after := Retries(reqs), Retries(reqs[id := r]);
    var k := reqs[id].started;
    forall x ensures x in after <==> x in before || (x == (id, k) && r.started > k) {
      IsRetry(reqs, x);
      IsRetry(reqs[id := r], x);
    }
    IsRetry(reqs, (id, k));
    hide Retries;
    if r.started > k {
      assert after == before + {(id, k)};
    } else {
      assert after == before;
    }
  }

  lemma WithAdded(reqs: map<nat, Request>, id: nat, r: Request, how: How)
    requires id !in reqs
    ensures |With(reqs[id := r], Some(how))| == |With(reqs, Some(how))| + Gain(None, TallyOf(r), how)
  {
    hide TallyOf;
    var before, after := With(reqs, Some(how)), With(reqs[id := r], Some(how));
    assert forall x :: x in after <==> x in before || (x == id && TallyOf(r) == Some(how));
    assert id !in before;
    hide With;
    if TallyOf(r) == Some(how) {
      assert after == before + {id};
    } else {
      assert after == before;
    }
  }

  lemma RetriesAdded(reqs: map<nat, Request>, id: nat, r: Request)
    requires id !in reqs && r.started <= 1
    ensures Retries(reqs[id := r]) == Retries(reqs)
  {
    assert Later(r.started) == {};
  }

  lemma ArrivalCounts(s: Sys, id: nat, plan: seq<string>, ups: seq<Upstream>)
    requires AllKeep(s) && Conserved(s) && Possible(s, Arrival(id, plan, ups))
    ensures Conserved(Do(s, Arrival(id, plan, ups)))
  {
    hide Keeps, With, Retries;
    var s' := Do(s, Arrival(id, plan, ups));
    var r := s'.reqs[id];
    WithAdded(s.reqs, id, r, Served);
    WithAdded(s.reqs, id, r, FailFast);
    WithAdded(s.reqs, id, r, NoCapacity);
    RetriesAdded(s.reqs, id, r);
    assert s'.reqs.Keys == s.reqs.Keys + {id};
  }

  lemma ResumptionCounts(s: Sys, id: nat, e: Event)
    requires AllKeep(s) && Conserved(s) && Possible(s, Resumption(id, e))
    ensures Conserved(Do(s, Resumption(id, e)))
  {
    hide Keeps, Resume, With, Retries, Gain, TallyOf;
    var s' := Do(s, Resumption(id, e));
    var r := s'.reqs[id];
    ResumeCounts(s.reqs[id], s.shared, e);
    WithUpdated(s.reqs, id, r, Served);
    WithUpdated(s.reqs, id, r, FailFast);
    WithUpdated(s.reqs, id, r, NoCapacity);
    RetriesUpdated(s.reqs, id, r);
    assert s'.reqs.Keys == s.reqs.Keys;
  }

  lemma {:induction false} RunConserves(s: Sys, acts: seq<Act>, s': Sys)
    requires AllKeep(s) && Conserved(s) && Runs(s, acts, s')
    ensures AllKeep(s') && Conserved(s')
    decreases |acts|
  {
    hide Conserved, AllKeep, Do, Possible;
    if acts != [] {
      DoKeeps(s, acts[0]);
      match acts[0] {
        case Arrival(id, plan, ups) => ArrivalCounts(s, id, plan, ups);
        case Resumption(id, e) => ResumptionCounts(s, id, e);
      }
      RunConserves(Do(s, acts[0]), acts[1..], s');
    }
  }

  /**
   Counter conservation over any interleaving of any requests: every request is in
   exactly one counter, still pending, or was ended by the outer handler, which counts
   nothing (router.py:173-175); and `failovers` is the number of attempts started after
   an earlier one.
   */
  lemma CountersConserved(acts: seq<Act>, s: Sys)
    requires Runs(Start(), acts, s)
    ensures s.shared.stats.requests
         == s.shared.stats.ok + s.shared.stats.midstream + s.shared.stats.noCapacity
            + |With(s.reqs, Some(Escaped))| + |With(s.reqs, None)|
    ensures s.shared.stats.failovers == |Retries(s.reqs)|
    ensures forall id :: id in s.reqs ==> Keeps(s.reqs[id])
  {
    hide Runs, Keeps, TallyOf;
    assert s.reqs == s.reqs && With(map[], Some(Served)) == {} && With(map[], Some(FailFast)) == {};
    assert With(map[], Some(NoCapacity)) == {} && Retries(map[]) == {};
    RunConserves(Start(), acts, s);
    Partition(s.reqs);
  }

  lemma Partition(reqs: map<nat, Request>)
    ensures |reqs| == |With(reqs, Some(Served))| + |With(reqs, Some(FailFast))| + |With(reqs, Some(NoCapacity))|
                      + |With(reqs, Some(Escaped))| + |With(reqs, None)|
  {
    hide TallyOf;
    var a, b, c := With(reqs, Some(Served)), With(reqs, Some(FailFast)), With(reqs, Some(NoCapacity));
    var d, e := With(reqs, Some(Escaped)), With(reqs, None);
    assert a !! b && a + b !! c && a + b + c !! d && a + b + c + d !! e;
    forall id | id in reqs ensures id in a + b + c + d + e {
      match TallyOf(reqs[id]) {
        case None => assert id in e;
        case Some(Served) => assert id in a;
        case Some(FailFast) => assert id in b;
        case Some(NoCapacity) => assert id in c;
        case Some(Escaped) => assert id in d;
      }
    }
    assert reqs.Keys == a + b + c + d + e;
  }
}
