/** The `RunState` object of orchestrator/state.py: fields changed in place, every mutator flushed. */
module RunStateObject {
  import opened Common
  import opened RunRecord
  import opened History

  /** The handles `active_resources` returns, in list order. */
  function Active(rs: seq<Resource>): (out: seq<Resource>)
    ensures forall r :: r in out <==> r in rs && r.state != TornDown
    ensures DistinctIds(rs) ==> DistinctIds(out)
  {
    if rs == [] then []
    else
      var rest := Active(rs[1..]);
      if rs[0].state != TornDown then [rs[0]] + rest else rest
  }

  class RunState {
    var status: Status
    var resources: seq<Resource>
    var pools: map<string, Option<string>>
    var events: seq<Event>

    /** The run's JSON file, decoded. */
    var disk: Option<Record>

    const journal: Journal

    function View(): Record
      reads this
    {
      Record(status, resources, pools, events)
    }

    ghost predicate Synced()
      reads this
    {
      disk == Some(View())
    }

    /** The latest durable state has exactly this run file. */
    ghost predicate Flushed()
      reads this, journal
    {
      Synced() && journal.past != [] && Last(journal.past).disk == disk
    }

    constructor (journal: Journal)
      ensures View() == NewRecord() && disk == None && this.journal == journal
    {
      this.journal := journal;
      status, resources, pools, events, disk := Initializing, [], map[], [], None;
    }

    /** `load`: a later process starts from what the file holds. */
    constructor Load(file: Record, journal: Journal)
      ensures View() == file && Synced() && this.journal == journal
    {
      this.journal := journal;
      status, resources, pools, events := file.status, file.resources, file.pools, file.events;
      disk := Some(file);
    }

    method Save()
      requires journal.past != []
      modifies this`disk, journal
      ensures Synced() && journal.past == WithDisk(old(journal.past), View())
    {
      disk := Some(Record(status, resources, pools, events));
      journal.past := WithDisk(journal.past, disk.value);
    }

    method Log(e: Event)
      requires journal.past != []
      modifies this`events, this`disk, journal
      ensures View() == Logged(old(View()), e) && Synced()
      ensures journal.past == WithDisk(old(journal.past), View())
    {
      events := events + [e];
      Save();
    }

    method SetStatus(s: Status)
      requires journal.past != []
      modifies this`status, this`events, this`disk, journal
      ensures View() == WithStatus(old(View()), s) && Synced()
      ensures journal.past == WithDisk(old(journal.past), View())
    {
      status := s;
      Log(StatusTo(s));
    }

    method AddResource(h: Resource)
      requires journal.past != []
      modifies this`resources, this`events, this`disk, journal
      ensures View() == Logged(old(View()).(resources := old(resources) + [h]), ResourceCreated(h.id)) && Synced()
      ensures journal.past == WithDisk(old(journal.past), View())
    {
      resources := resources + [h];
      Log(ResourceCreated(h.id));
    }

    /** False stands for the `KeyError` at state.py:119, raised before anything is written. */
    method UpdateResource(id: Id, state: ResourceState) returns (found: bool)
      requires DistinctIds(resources) && journal.past != []
      modifies this`resources, this`events, this`disk, journal
      ensures found <==> HasId(old(resources), id)
      ensures found ==>
        && View() == Logged(old(View()).(resources := Marked(old(resources), id, state)), ResourceUpdated(id, state))
        && Synced() && journal.past == WithDisk(old(journal.past), View())
      ensures !found ==> View() == old(View()) && disk == old(disk) && journal.past == old(journal.past)
    {
      var i := 0;
      while i < |resources|
        invariant 0 <= i <= |resources|
        invariant View() == old(View()) && disk == old(disk) && journal.past == old(journal.past)
        invariant forall k :: 0 <= k < i ==> resources[k].id != id
      {
        if resources[i].id == id {
          resources := resources[i := resources[i].(state := state)];
          assert resources == Marked(old(resources), id, state);
          Log(ResourceUpdated(id, state));
          return true;
        }
        i := i + 1;
      }
      return false;
    }

    method SetPool(name: string, addr: Option<string>)
      requires journal.past != []
      modifies this`pools, this`events, this`disk, journal
      ensures View() == Logged(old(View()).(pools := old(pools)[name := addr]), PoolWired(name, addr)) && Synced()
      ensures journal.past == WithDisk(old(journal.past), View())
    {
      pools := pools[name := addr];
      Log(PoolWired(name, addr));
    }

    method UnsetPool(name: string)
      requires journal.past != []
      modifies this`pools, this`events, this`disk, journal
      ensures View() == Logged(old(View()).(pools := old(pools) - {name}), PoolUnwired(name)) && Synced()
      ensures journal.past == WithDisk(old(journal.past), View())
    {
      pools := pools - {name};
      Log(PoolUnwired(name));
    }
  }
}
