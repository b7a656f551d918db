/**
 The run record of orchestrator/state.py as a value: what `RunState` holds in
 memory and what its JSON file holds on disk.  Each function below is the effect
 of one mutator; the class in RunState.dfy performs it in place, and the
 interleaving model in BringUp.dfy performs it in smaller steps.
 */
module RunRecord {
  import opened Common

  /** Provider-native id of worker `w` of a pool: the fields the fake provider formats into one string. */
  datatype Id = Id(pool: string, run: string, w: nat)

  datatype ResourceState = Created | Bootstrapped | Verified | TornDown

  datatype Resource = Resource(id: Id, provider: string, addr: string, state: ResourceState)

  datatype Status = Initializing | Up | Aborting | Down | Failed

  /** The audit log's messages, without their wording and time stamps. */
  datatype Event =
    | StatusTo(status: Status)
    | ResourceCreated(id: Id)
    | ResourceUpdated(id: Id, state: ResourceState)
    | PoolWired(name: string, addr: Option<string>)
    | PoolUnwired(name: string)
    | CapacityOut(pool: string)
    | PoolFailed(pool: string)
    | Tier1Wired
    | FabricVerified(ok: bool)
    | UpFailure
    | TeardownError(id: Id)

  datatype Record = Record(
    status: Status,
    resources: seq<Resource>,
    pools: map<string, Option<string>>,
    events: seq<Event>)

  function NewRecord(): Record {
    Record(Initializing, [], map[], [])
  }

  function Logged(r: Record, e: Event): Record {
    r.(events := r.events + [e])
  }

  function WithStatus(r: Record, s: Status): Record {
    Logged(r.(status := s), StatusTo(s))
  }

  /** The resource with the given id moves to `state`; nothing else changes. */
  function Marked(rs: seq<Resource>, id: Id, state: ResourceState): (out: seq<Resource>)
    ensures |out| == |rs|
    ensures forall j :: 0 <= j < |rs| ==> out[j] == if rs[j].id == id then rs[j].(state := state) else rs[j]
  {
    seq(|rs|, j requires 0 <= j < |rs| => if rs[j].id == id then rs[j].(state := state) else rs[j])
  }

  ghost predicate DistinctIds(rs: seq<Resource>) {
    forall i, j :: 0 <= i < j < |rs| ==> rs[i].id != rs[j].id
  }

  ghost predicate HasId(rs: seq<Resource>, id: Id) {
    exists j :: 0 <= j < |rs| && rs[j].id == id
  }

  /** The list has `id` as something `down` will destroy. */
  ghost predicate ActiveOn(rs: seq<Resource>, id: Id) {
    exists j :: 0 <= j < |rs| && rs[j].id == id && rs[j].state != TornDown
  }

  /** `handles[0].public_ip or handles[1].public_ip or ...` as the loop at engine.py:52-61 folds it. */
  function FirstAddress(handles: seq<Resource>): (r: Option<string>)
    ensures r.None? <==> handles == []
    ensures r.Some? && r.value != "" ==>
      exists k :: 0 <= k < |handles| && handles[k].addr == r.value && forall j :: 0 <= j < k ==> handles[j].addr == ""
    ensures r == Some("") ==> forall k :: 0 <= k < |handles| ==> handles[k].addr == ""
  {
    if handles == [] then None
    else
      var init := handles[..|handles| - 1];
      assert forall k :: 0 <= k < |init| ==> init[k] == handles[k];
      var before := FirstAddress(init);
      if before.Some? && before.value != "" then before else Some(handles[|handles| - 1].addr)
  }
}
