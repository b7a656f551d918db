/** `Router.handle` as the loops it is written in, on a router object, for one request at a time. */
module Handler {
  import opened Common
  import opened Chunked
  import opened Router

  /** The state after the answers `es`, starting from `r`: the specification of the handler's run. */
  lemma OneEvent(r: Request, sh: Shared, es: seq<Event>, i: nat)
    requires Keeps(r) && i < |es|
    ensures Keeps(Resume(r, sh, es[i]).0)
    ensures ResumeAll(r, sh, es[i..]) == ResumeAll(Resume(r, sh, es[i]).0, Resume(r, sh, es[i]).1, es[i + 1..])
  {
    hide Keeps, Resume;
    ResumeKeeps(r, sh, es[i]);
    assert es[i..][0] == es[i] && es[i..][1..] == es[i + 1..];
  }

  lemma {:induction false} ClosedStays(r: Request, sh: Shared, es: seq<Event>)
    requires Keeps(r) && r.pc.Closed?
    ensures ResumeAll(r, sh, es) == (r, sh)
    decreases |es|
  {
    hide Keeps;
    if es != [] {
      ClosedStays(r, sh, es[1..]);
    }
  }

  lemma OutOfEvents(r: Request, sh: Shared, es: seq<Event>)
    requires Keeps(r)
    ensures ResumeAll(r, sh, es[|es|..]) == (r, sh)
  {
    hide Keeps;
    assert es[|es|..] == [];
  }

  class RouterObject {
    var stats: Stats
    var broken: map<string, real>

    constructor ()
      ensures View() == Shared(Stats(0, 0, 0, 0, 0), map[])
    {
      stats, broken := Stats(0, 0, 0, 0, 0), map[];
    }

    function View(): Shared
      reads this
    {
      Shared(stats, broken)
    }

    /** `selector.trip_breaker`. */
    method TripBreaker(worker: string, at: real)
      modifies this`broken
      ensures View() == Trip(old(View()), worker, at)
    {
      broken := broken[worker := at + BREAKER_COOLDOWN];
    }

    /** An attempt given up before the first token: trip the breaker, count a failover unless it was the last. */
    method GiveUp(r: Request, at: real) returns (next: Request)
      requires r.attempt < |r.plan|
      modifies this
      ensures (next, View()) == NextAttempt(r, old(View()), at)
    {
      TripBreaker(r.plan[r.attempt], at);
      if r.attempt + 1 < |r.plan| {
        stats := stats.(failovers := stats.failovers + 1);
        next := r.(attempt := r.attempt + 1, started := r.started + 1, next := 0, pc := Opening);
      } else {
        stats := stats.(noCapacity := stats.noCapacity + 1);
        next := r.(pc := DrainNone, sent := r.sent + [Unavailable]);
      }
    }

    /** The `except` clause of the attempt loop. */
    method Except(r: Request, at: real) returns (next: Request)
      requires r.attempt < |r.plan|
      modifies this
      ensures (next, View()) == Caught(r, old(View()), at)
    {
      if r.committed {
        stats := stats.(midstream := stats.midstream + 1);
        TripBreaker(r.plan[r.attempt], at);
        next := r.(pc := DrainAbort, sent := r.sent + [Last]);
      } else {
        next := GiveUp(r, at);
      }
    }

    /**
     The `while True` loop over one upstream's body.  It is left when the attempt is over
     or when there is no further answer from the environment.
     */
    method Relay(r0: Request, es: seq<Event>, i0: nat) returns (r: Request, i: nat)
      requires Keeps(r0) && r0.pc.Reading? && i0 <= |es|
      modifies this
      ensures i0 <= i <= |es| && Keeps(r)
      ensures ResumeAll(r0, old(View()), es[i0..]) == ResumeAll(r, View(), es[i..])
      ensures i == |es| || (!r.pc.Reading? && !r.pc.DrainPiece? && !r.pc.DrainEnd?)
    {
      hide Keeps, Resume, BodyOf, NextAttempt, Caught;
      r, i := r0, i0;
      while i < |es| && (r.pc.Reading? || r.pc.DrainPiece? || r.pc.DrainEnd?)
        invariant i0 <= i <= |es| && Keeps(r)
        invariant ResumeAll(r0, old(View()), es[i0..]) == ResumeAll(r, View(), es[i..])
        decreases |es| - i
      {
        OneEvent(r, View(), es, i);
        r := RelayStep(r, es[i]);
        i := i + 1;
      }
    }

    /** One turn of that loop: a read, or the drain after a write. */
    method RelayStep(r: Request, e: Event) returns (next: Request)
      requires Keeps(r) && (r.pc.Reading? || r.pc.DrainPiece? || r.pc.DrainEnd?)
      modifies this
      ensures (next, View()) == Resume(r, old(View()), e)
    {
      hide BodyOf, NextAttempt, Caught, Stream, WaitBound, Tail;
      if r.pc.Reading? {
        var w := Waiting(r, e);
        var (pieces, ending) := BodyOf(r.ups[r.attempt].body);
        if !r.committed && e.delay > PRE_TOKEN_DEADLINE {
          next := Except(w, e.at);
        } else if r.next < |pieces| {
          var head := if r.committed then [] else [Head(r.plan[r.attempt], r.attempt)];
          next := w.(committed := true, next := r.next + 1, pc := DrainPiece, sent := r.sent + head + [Piece(pieces[r.next])]);
        } else if ending.Finished? {
          next := w.(pc := DrainEnd, sent := r.sent + [Last]);
        } else if ending.Uncaught? {
          next := w.(pc := Closed(Escaped));
        } else {
          next := Except(w, e.at);
        }
      } else if e.drained.DrainCrashed? {
        next := r.(pc := Closed(Escaped));
      } else if r.pc.DrainPiece? {
        if e.drained.Written? {
          next := r.(pc := Reading);
        } else {
          next := Except(r, e.at);
        }
      } else if e.drained.Written? {
        stats := stats.(ok := stats.ok + 1);
        next := r.(pc := Closed(Served));
      } else {
        next := Except(if r.committed then r.(ended := true) else r.(stray := r.stray + 1), e.at);
      }
    }

    /** One pass of the attempt loop's `try`, from the connect to the end of the attempt. */
    method Attempt(r0: Request, es: seq<Event>, i0: nat) returns (r: Request, i: nat)
      requires Keeps(r0) && r0.pc.Opening? && i0 < |es|
      modifies this
      ensures i0 < i <= |es| && Keeps(r)
      ensures ResumeAll(r0, old(View()), es[i0..]) == ResumeAll(r, View(), es[i..])
      ensures i == |es| || (!r.pc.Reading? && !r.pc.DrainPiece? && !r.pc.DrainEnd?)
    {
      hide Keeps, Resume, BodyOf;
      var e := es[i0];
      OneEvent(r0, View(), es, i0);
      r := Connect(r0, e);
      i := i0 + 1;
      if r.pc.Reading? {
        r, i := Relay(r, es, i);
      }
    }

    /** `await wait_for(self._open_upstream(...))` and the status check. */
    method Connect(r: Request, e: Event) returns (next: Request)
      requires Keeps(r) && r.pc.Opening?
      modifies this
      ensures (next, View()) == Resume(r, old(View()), e)
      ensures !next.pc.DrainPiece? && !next.pc.DrainEnd?
    {
      hide BodyOf, Stream, WaitBound, Tail;
      var w := Waiting(r, e);
      var answer := r.ups[r.attempt].answer;
      if e.delay > PRE_TOKEN_DEADLINE || answer.ConnectionFailed? {
        next := Except(w, e.at);
      } else if answer.OpenCrashed? {
        next := w.(pc := Closed(Escaped));
      } else if answer.status != 200 {
        next := GiveUp(w, e.at);
      } else {
        next := w.(pc := Reading, next := 0);
      }
    }

    /**
     The handler on one request.  What it does to the client, to the counters and to the
     breakers is what the state machine does on the same answers, which may run out while
     the request is still in flight.
     */
    method Handle(plan: seq<string>, ups: seq<Upstream>, es: seq<Event>) returns (r: Request)
      requires Planned(plan, ups)
      modifies this
      ensures Keeps(Arrive(old(View()), plan, ups).0)
      ensures (r, View()) == ResumeAll(Arrive(old(View()), plan, ups).0, Arrive(old(View()), plan, ups).1, es)
    {
      hide Keeps, Resume, BodyOf;
      ArriveKeeps(View(), plan, ups);
      ghost var first, shared := Arrive(View(), plan, ups).0, Arrive(View(), plan, ups).1;
      stats := stats.(requests := stats.requests + 1);
      if plan == [] {
        stats := stats.(noCapacity := stats.noCapacity + 1);
        r := Request(plan, ups, 0, 0, false, 0, DrainNone, [Unavailable], 0, false, 0.0);
      } else {
        r := Request(plan, ups, 0, 1, false, 0, Opening, [], 0, false, 0.0);
      }
      var i := 0;
      assert es[0..] == es;
      while i < |es| && r.pc.Opening?
        invariant 0 <= i <= |es| && Keeps(r)
        invariant ResumeAll(first, shared, es) == ResumeAll(r, View(), es[i..])
        invariant i == |es| || (!r.pc.Reading? && !r.pc.DrainPiece? && !r.pc.DrainEnd?)
        decreases |es| - i
      {
        r, i := Attempt(r, es, i);
      }
      if i < |es| && (r.pc.DrainAbort? || r.pc.DrainNone?) {
        OneEvent(r, View(), es, i);
        r := FinalDrain(r, es[i]);
        i := i + 1;
      }
      if i < |es| {
        ClosedStays(r, View(), es[i..]);
      } else {
        OutOfEvents(r, View(), es);
      }
    }

    /** The last `drain()`, whose failure is ignored. */
    method FinalDrain(r: Request, e: Event) returns (next: Request)
      requires Keeps(r) && (r.pc.DrainAbort? || r.pc.DrainNone?)
      ensures (next, View()) == Resume(r, View(), e) && next.pc.Closed?
    {
      hide BodyOf, Stream, WaitBound, Tail;
      next := r.(pc := Closed(if r.pc.DrainAbort? then FailFast else NoCapacity));
    }
  }
}
