/**
 The provider's side: what `FakeAdapter` of orchestrator/adapters/fake.py keeps in its
 cloud file, one entry per resource, for all providers of a topology together.
 */
module Provider {
  import opened Common
  import opened RunRecord
  import opened Text
  import opened BringUp
  import opened History

  /** What an adapter's `teardown` call comes to; the fake provider is always `Fine`. */
  datatype Fault = Fine | RaisesBefore | RaisesAfter

  function FaultOf(faults: map<Id, Fault>, id: Id): Fault {
    if id in faults then faults[id] else Fine
  }

  /** What `reap` matches: the tag, and the run unless every run is meant. */
  predicate Reaps(rec: CloudRecord, provider: string, run: Option<string>) {
    rec.provider == provider && StartsWith(rec.tag, "gpuha-managed=") && (run.None? || rec.run == run.value)
  }

  function Without(held: map<Id, CloudRecord>, ids: set<Id>): map<Id, CloudRecord> {
    held - ids
  }

  /** The id as the fake provider spells it: "fake-%s-%s-%d". */
  function IdText(id: Id): string {
    "fake-" + id.pool + "-" + Last6(id.run) + "-" + Numeral(id.w, 10)
  }

  function Last6(run: string): string {
    if |run| >= 6 then run[|run| - 6..] else run
  }

  /** Within a run the spelling tells pools and workers apart, even for pool names that contain dashes and digits. */
  lemma IdTextInjective(a: Id, b: Id)
    requires a.run == b.run && IdText(a) == IdText(b)
    ensures a == b
  {
    var s := Last6(a.run);
    var x, y := Numeral(a.w, 10), Numeral(b.w, 10);
    NumeralPlain(a.w, 10, '-');
    NumeralPlain(b.w, 10, '-');
    var t := IdText(a);
    assert t == ("fake-" + a.pool + "-" + s) + "-" + x;
    assert t == ("fake-" + b.pool + "-" + s) + "-" + y;
    SameTail("fake-" + a.pool + "-" + s, x, "fake-" + b.pool + "-" + s, y);
    NumeralInjective(a.w, b.w, 10);
    var tail := "-" + s;
    assert "fake-" + a.pool + "-" + s == "fake-" + a.pool + tail;
    assert "fake-" + b.pool + "-" + s == "fake-" + b.pool + tail;
    assert |a.pool| == |b.pool|;
    assert a.pool == t[5..5 + |a.pool|] && b.pool == t[5..5 + |b.pool|];
  }

  /** "10.99.%d.%d": the entries held so far, wrapped, and the worker counted from one. */
  function FakeAddress(entries: nat, w: nat): string {
    "10.99." + Numeral(entries % 256, 10) + "." + Numeral(w + 1, 10)
  }

  lemma FakeAddressSpelled()
    ensures FakeAddress(263, 1) == "10.99.7.2" && FakeAddress(255, 0) == "10.99.255.1"
  {
    assert Numeral(255, 10) == "255" by {
      assert Numeral(25, 10) == "25";
    }
  }

  /** The spelling itself, for a pool "east" of a run whose id ends in "a1b2c3". */
  lemma IdTextSpelled()
    ensures IdText(Id("east", "20260704-a1b2c3", 0)) == "fake-east-a1b2c3-0"
  {
    assert Last6("20260704-a1b2c3") == "a1b2c3";
    assert Numeral(0, 10) == "0";
  }

  /** No dash of `p + "-" + x` stands after the one in the middle. */
  lemma LastDash(p: string, x: string, i: nat)
    requires '-' !in x && i < |p + "-" + x| && (p + "-" + x)[i] == '-'
    ensures i <= |p|
  {
    assert forall k :: 0 <= k < |x| ==> (p + "-" + x)[|p| + 1 + k] == x[k];
    assert forall k :: |p| < k < |p + "-" + x| ==> (p + "-" + x)[k] in x;
  }

  /** A string splits at its last dash in one way. */
  lemma SameTail(p: string, x: string, q: string, y: string)
    requires p + "-" + x == q + "-" + y && '-' !in x && '-' !in y
    ensures p == q && x == y
  {
    var s := p + "-" + x;
    LastDash(p, x, |q|);
    LastDash(q, y, |p|);
    assert p == s[..|p|] && x == s[|p| + 1..] && y == s[|q| + 1..] && q == s[..|q|];
  }

  lemma NothingAcquired(c: Config, p: string, held: map<Id, CloudRecord>)
    requires p in c.specs
    ensures CloudWith(c, p, 0, held) == held
  {
  }

  lemma OneMoreAcquired(c: Config, p: string, w: nat, held: map<Id, CloudRecord>)
    requires p in c.specs
    ensures CloudWith(c, p, w + 1, held)
      == CloudWith(c, p, w, held)[Id(p, c.run, w) := CloudRecord(c.specs[p].provider, TagFor(c.run), c.run)]
  {
  }

  /** How much the provider holds when it creates worker `w`. */
  function HeldBy(c: Config, p: string, w: nat, before: map<Id, CloudRecord>): nat
    requires p in c.specs
  {
    |CloudWith(c, p, w, before)|
  }

  /** The handles of workers 0 to |out| - 1; each address counts what the provider held by then. */
  ghost predicate AreHandles(c: Config, p: string, before: map<Id, CloudRecord>, out: seq<Resource>)
    requires p in c.specs
  {
    forall w :: 0 <= w < |out| ==>
      && out[w].addr == FakeAddress(HeldBy(c, p, w, before), w)
      && out[w] == Resource(Id(p, c.run, w), c.specs[p].provider, out[w].addr, Created)
  }

  lemma NoHandles(c: Config, p: string, before: map<Id, CloudRecord>)
    requires p in c.specs
    ensures AreHandles(c, p, before, [])
  {
  }

  lemma OneMoreHandle(c: Config, p: string, before: map<Id, CloudRecord>, out: seq<Resource>, ip: string)
    requires p in c.specs && AreHandles(c, p, before, out) && ip == FakeAddress(HeldBy(c, p, |out|, before), |out|)
    ensures AreHandles(c, p, before, out + [Resource(Id(p, c.run, |out|), c.specs[p].provider, ip, Created)])
  {
    hide FakeAddress, HeldBy;
  }

  class Cloud {
    var held: map<Id, CloudRecord>

    /** Every id `teardown` has been called with, oldest first. */
    var calls: seq<Id>

    const journal: Journal

    constructor (held: map<Id, CloudRecord>, journal: Journal)
      ensures this.held == held && calls == [] && this.journal == journal
    {
      this.held, calls, this.journal := held, [], journal;
    }

    /**
     `acquire` of the fake provider: all workers of one pool or, on an injected fault,
     none.  The address counts the entries held so far.
     */
    method Acquire(c: Config, p: string) returns (handles: Option<seq<Resource>>)
      requires p in c.specs && journal.past != []
      modifies this`held, journal
      ensures journal.past == if handles.Some? then WithHeld(old(journal.past), held) else old(journal.past)
      ensures handles.Some? <==> c.specs[p].acquired.Granted?
      ensures handles.None? ==> held == old(held)
      ensures handles.Some? ==>
        var n := |c.specs[p].acquired.fates|;
        && |handles.value| == n
        && held == CloudWith(c, p, n, old(held)) && AreHandles(c, p, old(held), handles.value)
    {
      hide FakeAddress, CloudWith, AreHandles;
      if !c.specs[p].acquired.Granted? {
        return None;
      }
      NothingAcquired(c, p, held);
      var n := |c.specs[p].acquired.fates|;
      var out: seq<Resource> := [];
      NoHandles(c, p, held);
      var w := 0;
      while w < n
        invariant 0 <= w <= n && |out| == w
        invariant held == CloudWith(c, p, w, old(held)) && journal.past == old(journal.past)
        invariant AreHandles(c, p, old(held), out)
      {
        var ip := FakeAddress(|held|, w);
        OneMoreAcquired(c, p, w, old(held));
        OneMoreHandle(c, p, old(held), out, ip);
        held := held[Id(p, c.run, w) := CloudRecord(c.specs[p].provider, TagFor(c.run), c.run)];
        out := out + [Resource(Id(p, c.run, w), c.specs[p].provider, ip, Created)];
        w := w + 1;
      }
      journal.past := WithHeld(journal.past, held);
      return Some(out);
    }

    method Verify(id: Id) returns (listed: bool)
      ensures listed <==> id in held
    {
      listed := id in held;
    }

    /** False when the call raises; it may raise before or after the provider has let go of the resource. */
    method Teardown(id: Id, fault: Fault) returns (ok: bool)
      requires journal.past != []
      modifies this`held, this`calls, journal
      ensures journal.past == WithHeld(old(journal.past), held)
      ensures ok <==> fault.Fine?
      ensures held == if fault.RaisesBefore? then old(held) else Without(old(held), {id})
      ensures calls == old(calls) + [id]
    {
      calls := calls + [id];
      if !fault.RaisesBefore? {
        held := held - {id};
      }
      journal.past := WithHeld(journal.past, held);
      return fault.Fine?;
    }

    /** `reap`: exactly the matching entries go, and exactly their ids are returned. */
    method Reap(provider: string, run: Option<string>) returns (killed: seq<Id>)
      requires journal.past != []
      modifies this`held, journal
      ensures journal.past == WithHeld(old(journal.past), held)
      ensures forall id :: id in killed <==> id in old(held) && Reaps(old(held)[id], provider, run)
      ensures forall i, j :: 0 <= i < j < |killed| ==> killed[i] != killed[j]
      ensures forall id :: id in held <==> id in old(held) && !Reaps(old(held)[id], provider, run)
      ensures forall id :: id in old(held) ==>
        (id in killed <==>
          && old(held)[id].provider == provider && "gpuha-managed=" <= old(held)[id].tag
          && (run.Some? ==> old(held)[id].run == run.value))
      ensures forall id :: id in held ==> held[id] == old(held)[id]
    {
      killed := [];
      var keys := held.Keys;
      while keys != {}
        invariant keys <= held.Keys && journal.past == old(journal.past)
        invariant forall id :: id in held ==> id in old(held) && held[id] == old(held)[id]
        invariant forall id :: id in old(held) && id !in held ==> id in killed
        invariant forall id :: id in killed ==> id in old(held) && id !in held && Reaps(old(held)[id], provider, run)
        invariant forall id :: id in held && id !in keys ==> !Reaps(held[id], provider, run)
        invariant forall i, j :: 0 <= i < j < |killed| ==> killed[i] != killed[j]
        decreases |keys|
      {
        var id :| id in keys;
        keys := keys - {id};
        if Reaps(held[id], provider, run) {
          held := held - {id};
          killed := killed + [id];
        }
      }
      journal.past := WithHeld(journal.past, held);
    }
  }
}
