/** The `Wiring` objects of orchestrator/wiring.py: the pool map in memory and the file Tier-1 reads. */
module WiringObject {
  import opened Common
  import opened Text
  import opened PoolMap
  import opened History

  lemma NoEntries(text: string, pools: map<string, Option<string>>)
    ensures text + Entries(Sorted({}), pools) == text
  {
    assert Sorted({}) == [];
  }

  lemma NextEntry(text: string, k: string, keys: set<string>, pools: map<string, Option<string>>)
    requires IsLeast(k, keys) && keys <= pools.Keys
    ensures text + Entries(Sorted(keys), pools) == (text + EntryLine(k, pools[k])) + Entries(Sorted(keys - {k}), pools)
  {
    hide LexLe, EntryLine, IsLeast, Sorted;
    LeastIsFirst(k, keys);
    var rest := Sorted(keys - {k});
    assert ([k] + rest)[1..] == rest;
  }

  class Wiring {
    /** The comment line of the file, if this wiring writes one. */
    const header: Option<string>
    var pools: map<string, Option<string>>
    var file: Option<string>
    var firewallNotes: seq<string>

    const journal: Journal

    /** `RealWiring.__init__`: start from whatever the file already lists. */
    constructor Open(file: Option<string>, journal: Journal)
      ensures header == Some(REAL_HEADER) && this.file == file && firewallNotes == [] && this.journal == journal
      ensures pools == Entered(ReadText(file))
    {
      header, this.file, firewallNotes, this.journal := Some(REAL_HEADER), file, [], journal;
      pools := map[];
      new;
      var read := ReadPoolMap(file);
      pools := map k | k in read :: Some(read[k]);
    }

    /** `FakeWiring.__init__`: the file is not read. */
    constructor Offline(file: Option<string>, journal: Journal)
      ensures header == None && this.file == file && firewallNotes == [] && this.journal == journal && pools == map[]
    {
      header, this.file, firewallNotes, this.journal := None, file, [], journal;
      pools := map[];
    }

    method AddPool(name: string, addr: Option<string>)
      modifies this`pools
      ensures pools == old(pools)[name := addr]
    {
      pools := pools[name := addr];
    }

    method RemovePool(name: string)
      modifies this`pools
      ensures pools == old(pools) - {name}
    {
      pools := pools - {name};
    }

    /** The file is replaced first; restarting the service may then fail and raise. */
    method Apply(restartFails: bool) returns (ok: bool)
      requires journal.past != []
      modifies this`file, journal
      ensures file == Some(FileText(header, pools)) && ok == !restartFails
      ensures journal.past == WithFile(old(journal.past), file.value)
    {
      hide EntryLine, Sorted, Entries;
      var text := if header.None? then "" else "#" + header.value + "\n";
      var keys := pools.Keys;
      while keys != {}
        invariant keys <= pools.Keys && journal.past == old(journal.past)
        invariant text + Entries(Sorted(keys), pools) == FileText(header, pools)
        decreases |keys|
      {
        LeastExists(keys);
        var k :| IsLeast(k, keys);
        NextEntry(text, k, keys, pools);
        text := text + EntryLine(k, pools[k]);
        keys := keys - {k};
      }
      NoEntries(text, pools);
      file := Some(text);
      journal.past := WithFile(journal.past, text);
      return !restartFails;
    }

    method FirewallNote(addr: string)
      modifies this`firewallNotes
      ensures firewallNotes == old(firewallNotes) + [addr]
    {
      firewallNotes := firewallNotes + [addr];
    }
  }
}
