/** The answering side of tier1_dns.py: which pools are in the answer, and the reply to a query. */
module Tier1 {
  import opened Common
  import opened Telemetry
  import Dns

  // ---------------------------------------------------------------- the answer set

  /** `[b for b in self.pool_map if b in fresh]`. */
  function Members(order: seq<string>, live: set<string>): (pools: seq<string>)
    ensures forall b :: b in pools <==> b in order && b in live
  {
    if order == [] then [] else (if order[0] in live then [order[0]] else []) + Members(order[1..], live)
  }

  /** `current_pools`: the fresh pools, or every pool when none is. */
  function CurrentPools(order: seq<string>, s: Ingested, now: real, window: real): (seq<string>, bool) {
    var pools := Members(order, FreshBackends(s, now, window));
    if pools == [] then (order, true) else (pools, false)
  }

  function Addresses(pools: seq<string>, addresses: map<string, string>): seq<string>
    requires forall b :: b in pools ==> b in addresses
  {
    if pools == [] then [] else [addresses[pools[0]]] + Addresses(pools[1..], addresses)
  }

  /** `answer_ips`: in failsafe a configured whale answers alone. */
  function AnswerIps(pools: seq<string>, failsafe: bool, addresses: map<string, string>, whale: Option<string>): seq<string>
    requires forall b :: b in pools ==> b in addresses
  {
    if failsafe && whale.Some? && whale.value != "" then [whale.value] else Addresses(pools, addresses)
  }

  /** Failsafe is entered exactly when no configured pool has a node within the window. */
  lemma FailsafeIff(order: seq<string>, s: Ingested, now: real, window: real)
    ensures CurrentPools(order, s, now, window).1 <==>
      forall n :: n in s.nodes && s.nodes[n].frame.backend in order ==> now - s.nodes[n].received > window
  {
    var live := FreshBackends(s, now, window);
    MembersEmptyIff(order, live);
    forall n | n in s.nodes && now - s.nodes[n].received <= window ensures s.nodes[n].frame.backend in live {
      assert IsFresh(s.nodes[n], now, window);
    }
  }

  lemma {:induction false} MembersEmptyIff(order: seq<string>, live: set<string>)
    ensures Members(order, live) == [] <==> forall b :: b in live ==> b !in order
  {
    var pools := Members(order, live);
    if pools != [] {
      assert pools[0] in pools;
    }
  }

  /** The answer is never empty when a pool is configured. */
  lemma NeverEmpty(order: seq<string>, s: Ingested, now: real, window: real,
                   addresses: map<string, string>, whale: Option<string>)
    requires order != [] && forall b :: b in order ==> b in addresses
    ensures var (pools, failsafe) := CurrentPools(order, s, now, window);
      pools != [] && AnswerIps(pools, failsafe, addresses, whale) != []
  {
  }

  /** With no accepted frame in between, pools only leave the answer, and failsafe is not left again. */
  lemma SilenceOnlyShrinks(order: seq<string>, s: Ingested, now: real, later: real, window: real)
    requires now <= later
    ensures var (pools, failsafe) := CurrentPools(order, s, now, window);
      var (pools', failsafe') := CurrentPools(order, s, later, window);
      && (failsafe ==> failsafe')
      && (!failsafe' ==> forall b :: b in pools' ==> b in pools)
  {
    var early, late := FreshBackends(s, now, window), FreshBackends(s, later, window);
    forall b | b in late ensures b in early {
      var n :| n in s.nodes && IsFresh(s.nodes[n], later, window) && s.nodes[n].frame.backend == b;
      assert IsFresh(s.nodes[n], now, window);
    }
    var pools, pools' := Members(order, early), Members(order, late);
    assert forall b :: b in pools' ==> b in pools;
    assert pools' != [] ==> pools'[0] in pools';
  }

  /** Some node of the pool was heard within the window. */
  ghost predicate HasFreshNode(s: Ingested, b: string, now: real, window: real) {
    exists n :: n in s.nodes && s.nodes[n].frame.backend == b && now - s.nodes[n].received <= window
  }

  lemma FreshIff(s: Ingested, b: string, now: real, window: real)
    ensures b in FreshBackends(s, now, window) <==> HasFreshNode(s, b, now, window)
  {
    if HasFreshNode(s, b, now, window) {
      var n :| n in s.nodes && s.nodes[n].frame.backend == b && now - s.nodes[n].received <= window;
      assert IsFresh(s.nodes[n], now, window);
    }
  }

  /** `at` lists, in increasing order, exactly the positions of `order` whose pool is live. */
  ghost predicate Picks(order: seq<string>, live: set<string>, at: seq<int>) {
    && (forall i :: 0 <= i < |at| ==> 0 <= at[i] < |order| && order[at[i]] in live)
    && (forall i, j :: 0 <= i < j < |at| ==> at[i] < at[j])
    && (forall k :: 0 <= k < |order| && order[k] in live ==> k in at)
  }

  function Positions(order: seq<string>, live: set<string>, k: nat): (at: seq<int>)
    requires k <= |order|
    ensures forall p :: p in at <==> k <= p < |order| && order[p] in live
    ensures forall i, j :: 0 <= i < j < |at| ==> at[i] < at[j]
    decreases |order| - k
  {
    if k == |order| then []
    else
      var rest := Positions(order, live, k + 1);
      assert forall j :: 0 <= j < |rest| ==> rest[j] in rest;
      (if order[k] in live then [k] else []) + rest
  }

  lemma {:induction false} MembersAt(order: seq<string>, live: set<string>, k: nat)
    requires k <= |order|
    ensures var at := Positions(order, live, k);
      && |Members(order[k..], live)| == |at|
      && forall i :: 0 <= i < |at| ==> at[i] in at && Members(order[k..], live)[i] == order[at[i]]
    decreases |order| - k
  {
    if k < |order| {
      MembersAt(order, live, k + 1);
      assert order[k..][0] == order[k] && order[k..][1..] == order[k + 1..];
      hide Positions;
      var at, more := Positions(order, live, k), Positions(order, live, k + 1);
      PositionsStep(order, live, k);
    }
  }

  lemma PositionsStep(order: seq<string>, live: set<string>, k: nat)
    requires k < |order|
    ensures Positions(order, live, k) == (if order[k] in live then [k] else []) + Positions(order, live, k + 1)
  {
  }

  lemma PositionsPick(order: seq<string>, live: set<string>)
    ensures Picks(order, live, Positions(order, live, 0))
  {
    var at := Positions(order, live, 0);
    hide Positions;
    forall i | 0 <= i < |at| ensures 0 <= at[i] < |order| && order[at[i]] in live {
      assert at[i] in at;
    }
  }

  lemma {:induction false} AddressesAt(pools: seq<string>, addresses: map<string, string>)
    requires forall b :: b in pools ==> b in addresses
    ensures |Addresses(pools, addresses)| == |pools|
    ensures forall i :: 0 <= i < |pools| ==> Addresses(pools, addresses)[i] == addresses[pools[i]]
  {
    if pools != [] {
      AddressesAt(pools[1..], addresses);
    }
  }

  /** The configured pools with a node heard within the window. */
  ghost function LivePools(order: seq<string>, s: Ingested, now: real, window: real): set<string> {
    set b | b in order && HasFreshNode(s, b, now, window)
  }

  /** `pools` are the live ones among `order`, in that order. */
  ghost predicate Selected(order: seq<string>, live: set<string>, pools: seq<string>, at: seq<int>) {
    Picks(order, live, at) && |pools| == |at| && forall i :: 0 <= i < |at| ==> pools[i] == order[at[i]]
  }

  /** The pools answered for: the live ones in the configured order, or all of them if none is. */
  lemma PoolsAre(order: seq<string>, s: Ingested, now: real, window: real)
    ensures var live := LivePools(order, s, now, window);
      var (pools, failsafe) := CurrentPools(order, s, now, window);
      if live == {} then failsafe && pools == order
      else !failsafe && exists at: seq<int> :: Selected(order, live, pools, at)
  {
    var heard := FreshBackends(s, now, window);
    var live := LivePools(order, s, now, window);
    forall b ensures b in heard <==> HasFreshNode(s, b, now, window) {
      FreshIff(s, b, now, window);
    }
    hide HasFreshNode, FreshBackends;
    SameMembers(order, heard, live);
    MembersEmptyIff(order, live);
    PositionsPick(order, live);
    MembersAt(order, live, 0);
    assert order[0..] == order;
    hide Picks, Positions;
    if live != {} {
      var b :| b in live;
      assert b in order;
      assert Selected(order, live, Members(order, live), Positions(order, live, 0));
    }
  }

  lemma {:induction false} SameMembers(order: seq<string>, a: set<string>, b: set<string>)
    requires forall x :: x in order ==> (x in a <==> x in b)
    ensures Members(order, a) == Members(order, b)
  {
    if order != [] {
      assert order[0] in order;
      SameMembers(order[1..], a, b);
    }
  }

  /**
   The addresses answered: those of the live pools in the configured order; when there is
   none, the whale's alone, or without a whale those of every pool.
   */
  lemma AnswerIs(order: seq<string>, s: Ingested, now: real, window: real,
                 addresses: map<string, string>, whale: Option<string>)
    requires forall b :: b in order ==> b in addresses
    ensures var (pools, failsafe) := CurrentPools(order, s, now, window);
      var ips := AnswerIps(pools, failsafe, addresses, whale);
      var live := LivePools(order, s, now, window);
      if live == {} && whale.Some? && whale.value != "" then ips == [whale.value]
      else
        && (live == {} ==> pools == order)
        && (live != {} ==> exists at: seq<int> :: Selected(order, live, pools, at))
        && |ips| == |pools| && forall i :: 0 <= i < |ips| ==> ips[i] == addresses[pools[i]]
  {
    PoolsAre(order, s, now, window);
    var (pools, failsafe) := CurrentPools(order, s, now, window);
    AddressesAt(pools, addresses);
    hide CurrentPools, LivePools, Selected;
  }

  // ---------------------------------------------------------------- the responder

  /** `handle`: no reply to a runt, an exception the loop logs, or a reply. */
  datatype Handled = Ignored | Failed | Reply(bytes: Dns.Bytes)

  /** `socket.inet_aton`, which may refuse an address. */
  type Aton = string -> Option<Dns.Quad>

  function Quads(ips: seq<string>, aton: Aton): (r: Option<seq<Dns.Quad>>)
    ensures r.Some? ==> |r.value| == |ips| && forall i :: 0 <= i < |ips| ==> aton(ips[i]) == Some(r.value[i])
    ensures r.None? ==> exists i :: 0 <= i < |ips| && aton(ips[i]).None?
  {
    if ips == [] then Some([])
    else
      match aton(ips[0])
      case None => None
      case Some(q) =>
        match Quads(ips[1..], aton)
        case None => None
        case Some(rest) => Some([q] + rest)
  }

  predicate CompleteQuestion(data: Dns.Bytes) {
    && |data| >= 12 && Dns.ParseLabels(data, 12).Ok?
    && Dns.ParseLabels(data, 12).value.1 + 4 <= |data|
  }

  function QueryType(data: Dns.Bytes): int
    requires CompleteQuestion(data)
  {
    Dns.Word(data, Dns.ParseLabels(data, 12).value.1)
  }

  class Responder {
    const order: seq<string>
    const addresses: map<string, string>
    const window: real
    const whale: Option<string>
    const ingest: TelemetryIngest
    var lastAnswer: Option<(seq<string>, bool)>
    var transitions: nat

    ghost predicate Valid() {
      Distinct(order) && forall b :: b in order <==> b in addresses
    }

    constructor (order: seq<string>, addresses: map<string, string>, window: real, whale: Option<string>, ingest: TelemetryIngest)
      requires Distinct(order) && forall b :: b in order <==> b in addresses
      ensures Valid() && this.order == order && this.addresses == addresses && this.window == window
      ensures this.whale == whale && this.ingest == ingest && lastAnswer == None && transitions == 0
    {
      this.order, this.addresses, this.window, this.whale, this.ingest := order, addresses, window, whale, ingest;
      lastAnswer, transitions := None, 0;
    }

    /** `note_transition`: one log line per change of the answer set. */
    method NoteTransition(pools: seq<string>, failsafe: bool)
      modifies this
      ensures lastAnswer == Some((pools, failsafe))
      ensures transitions == old(transitions) + (if old(lastAnswer) == Some((pools, failsafe)) then 0 else 1)
    {
      if lastAnswer != Some((pools, failsafe)) {
        transitions := transitions + 1;
        lastAnswer := Some((pools, failsafe));
      }
    }

    /** The IPs an A query is answered with at `now`. */
    function Answer(now: real): seq<string>
      requires Valid()
      reads ingest
    {
      var (pools, failsafe) := CurrentPools(order, ingest.View(), now, window);
      AnswerIps(pools, failsafe, addresses, whale)
    }

    method Handle(data: Dns.Bytes, now: real, aton: Aton) returns (r: Handled)
      requires Valid()
      modifies this
      ensures r.Ignored? <==> |data| < 12
      ensures |data| >= 12 && !CompleteQuestion(data) ==> r == Failed
      ensures CompleteQuestion(data) && QueryType(data) != 1 ==>
        Dns.BuildResponse(data, [], 4).Ok? && r == Reply(Dns.BuildResponse(data, [], 4).value)
      ensures CompleteQuestion(data) && QueryType(data) == 1 ==>
        && lastAnswer == Some(CurrentPools(order, ingest.View(), now, window))
        && r == (var quads := Quads(Answer(now), aton);
                 if quads.None? || |quads.value| >= 65536 then Failed
                 else Reply(Dns.BuildResponse(data, quads.value, 0).value))
      ensures !(CompleteQuestion(data) && QueryType(data) == 1) ==> lastAnswer == old(lastAnswer)
    {
      if |data| < 12 {
        return Ignored;
      }
      var name := Dns.ParseQname(data, 12);
      if name.Err? || name.value.1 + 4 > |data| {
        return Failed;
      }
      if Dns.Word(data, name.value.1) != 1 {
        var out := Dns.BuildResponseLoop(data, [], 4);
        return Reply(out.value);
      }
      var (pools, failsafe) := CurrentPools(order, ingest.View(), now, window);
      NoteTransition(pools, failsafe);
      var quads := Quads(AnswerIps(pools, failsafe, addresses, whale), aton);
      if quads.None? || |quads.value| >= 65536 {
        return Failed;
      }
      var out := Dns.BuildResponseLoop(data, quads.value, 0);
      return Reply(out.value);
    }
  }

  /** What a resolver reads in the reply to an A query: its own question and one record per answered address. */
  lemma ReplyReadsBack(data: Dns.Bytes, ips: seq<string>, aton: Aton)
    requires CompleteQuestion(data) && Quads(ips, aton).Some? && |ips| < 65536
    ensures Dns.BuildResponse(data, Quads(ips, aton).value, 0).Ok?
    ensures var message := Dns.ReadMessage(Dns.BuildResponse(data, Quads(ips, aton).value, 0).value);
      && message.Some? && message.value.id == Dns.Word(data, 0) && message.value.rcode == 0
      && message.value.question == data[12..Dns.ParseLabels(data, 12).value.1 + 4]
      && |message.value.answers| == |ips|
      && forall i :: 0 <= i < |ips| ==>
           && message.value.answers[i].owner == Dns.JoinLabels(Dns.ParseLabels(data, 12).value.0)
           && Some(message.value.answers[i].rdata) == aton(ips[i])
  {
    hide Dns.ReadMessage, Dns.BuildResponse, Dns.ParseLabels, Dns.JoinLabels;
    Dns.ResponseReadsBack(data, Quads(ips, aton).value, 0);
  }
}
