/** What survives a crash, and every version of it there has been. */
module History {
  import opened Common
  import opened RunRecord
  import opened BringUp

  /** The run file, the provider's own list and the pool-map file. */
  datatype Durable = Durable(disk: Option<Record>, held: map<Id, CloudRecord>, file: Option<string>)

  function Last(past: seq<Durable>): Durable
    requires past != []
  {
    past[|past| - 1]
  }

  function WithDisk(past: seq<Durable>, rec: Record): seq<Durable>
    requires past != []
  {
    past + [Last(past).(disk := Some(rec))]
  }

  function WithHeld(past: seq<Durable>, held: map<Id, CloudRecord>): seq<Durable>
    requires past != []
  {
    past + [Last(past).(held := held)]
  }

  function WithFile(past: seq<Durable>, text: string): seq<Durable>
    requires past != []
  {
    past + [Last(past).(file := Some(text))]
  }

  /**
   The durable states so far, oldest first.  The objects that write the run file, call the
   provider or write the pool map share one journal and append to it as they do so, hence
   a crash at any moment leaves one of its entries.
   */
  class Journal {
    var past: seq<Durable>

    constructor (d: Durable)
      ensures past == [d]
    {
      past := [d];
    }
  }
}
