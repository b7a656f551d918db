# Proofs about gpuha

A Dafny model of the GPU HA control plane and data path, with proofs of what its
components promise. `dafny verify dfyconfig.toml` checks everything.

| files | what they model |
|---|---|
| `BringUp`, `BringUpInv`, `BringUpTheorems`, `BringUpAudit` | concurrent bring-up as an interleaved step system over memory, disk, cloud, flush lock and one program counter per pool thread; a crash may come after any step |
| `RunRecord`, `RunState`, `Cloud`, `Wiring`, `PoolMap`, `History` | the run file, the fake provider, the pool map and its file format; the journal of durable states that the three objects append to as they write |
| `Engine`, `Serial`, `Up`, `Recovery` | the orchestrator on those objects: serial bring-up, quorum, wiring, abort, `down`, `reap`, and what they undo |
| `Topology`, `TopologyTail`, `TopologySpelling`, `TopologyPrint`, `TopologyRoundTrip`, `TopologyText` | the YAML-subset parser, what it ignores, the spellings of its scalars, documents as they may be written, and the proof that loading one gives back what it says |
| `Router`, `RouterRuns`, `Handler`, `Chunked` | one request as a state machine, any number of them interleaved, the handler as its loops, chunked framing |
| `Telemetry`, `Selection`, `Tier1`, `Dns`, `Liveness` | the ingest, the worker choice, the DNS tier and its wire form, and both tiers together |
| `Whale` | the streamed last-resort reply |
| `Common`, `Text` | options and results; stripping, partitioning and numerals |

Each imperative component has a specification function or a state machine, methods
in the source's own form proved equal to it, and lemmas about it over all inputs or
all runs. What is assumed: pool names and their backends are pairwise different, file
writes and the lock succeed, and each adapter call's outcome belongs to the pool it is
made for. Adapter calls, upstreams, clients, clocks and random draws are otherwise
arbitrary.

What the proofs say about the code where its documentation says something else or
nothing:

- orchestrator/README.md:9-11 promises that a crash leaves a teardownable record. A
  resource is on disk exactly when the flushed list reaches its place; right after
  `acquire` it never is (`CrashLosesNothing`, `LossHappens`). For those only `reap` is
  left, and `reap` does suffice (`ReapUndoesAnyCrash`).
- A fabric that fails its check is torn down, but its pools stay in the pool map
  (engine.py:95-108; `FinishUp`, `UpAfterJoin`).
- `down` gives the pool-map file back if and only if none of the run's backends was in
  it before, whatever else it held (`UpThenDown`, `SharedBackendIsLost`).
- A 200 with an empty body is counted `ok`, and the client gets a terminator without a
  head (`OkWithoutHead`, `OkWithoutHeadHappens`). A body shorter than its Content-Length
  ends normally (`ShortBodyEndsNormally`).
- A client that goes away while something is drained to it trips the worker's breaker;
  it counts as `midstream_failfast` if a chunk had been forwarded, otherwise the next
  attempt starts with a stray terminator on the wire (`GoneClientTripsWorker`).
- A negative chunk size, an unreadable Content-Length or another exception outside the
  caught set ends a request in router.py:173-175 with no counter (`EscapesIff`,
  `UncaughtBodies`).
- Workers start with `last_seen=0.0`, so a silent worker is eligible while the clock is
  within the window of zero; exactly then (`UnheardEligibleIff`).
- `parse_yaml_subset` drops, unread, everything from the first line that ends its
  top-level block (`TailIsIgnored`, `CompleteIff`).

## Model

| member | source | states |
|---|---|---|
| Topology.Put | orchestrator/topology.py:80-85 | Assigning a new key to a dictionary appends it. |
| Topology.PutReplaces | orchestrator/topology.py:80-85 | Assigning a key again keeps its place and changes only its value. |
| Topology.ParseBlock | orchestrator/topology.py:58-61 | A successful parse returns an index strictly past its start, and the lines consumed are exactly the longest run that does not end the block: none of them is shallower (or, in a list, an undashed line at the same indent) and the next one is. |
| Topology.MapFrom | orchestrator/topology.py:64-87 | A successful mapping loop consumes exactly the run of lines at or below its indent. |
| Topology.ListFrom | orchestrator/topology.py:90-127 | A successful list loop consumes exactly the run of lines up to the first shallower line or undashed line at its own indent. |
| Topology.CleanLoop | orchestrator/topology.py:47-55 | The loop over `splitlines` drops comments and blank lines, rejects tabs in indentation, and keeps the other lines in order with indent and stripped text, as the recursive `Clean` says. |
| Topology.BlockLoop | orchestrator/topology.py:58-61 | The dispatch on a dash computes `ParseBlock`. |
| Topology.MapLoop | orchestrator/topology.py:64-87 | The `while` loop over `i` and `d` computes `MapFrom`, errors included. |
| Topology.ListLoop | orchestrator/topology.py:90-127 | The `while` loop over `i` and `items` computes `ListFrom`, errors included. |
| Topology.ItemLoop | orchestrator/topology.py:101-123 | One mapping item, first key and children, comes out as the two specification functions say. |
| Topology.ChildrenLoop | orchestrator/topology.py:114-122 | The inner `while` loop computes `ChildrenFrom`. |
| Topology.Load | orchestrator/topology.py:130-138 | The whole loader: JSON is handed on, an empty document is an empty mapping, otherwise the first block, its end index discarded. |
| TopologyTail.BlockIgnores | orchestrator/topology.py:58-61 | For a block anywhere in the document, lines from the one that ends it on have no influence on value, index or error. |
| TopologyTail.TailIsIgnored | orchestrator/topology.py:130-138 | A document with a line that ends the top-level block is read exactly as if it stopped before that line, malformed lines included. |
| TopologyTail.CompleteIff | orchestrator/topology.py:130-138 | A successful top-level parse covers every line if and only if no line ends the top-level block. |
| TopologySpelling.ScalarIff | orchestrator/topology.py:19-38 | For every text and value: `_scalar` returns that value if and only if the stripped text is one of its spellings, given as an independent table (words of null and the booleans in any case, signed digit runs with underscores, the grammar of `float()`, two kinds of quotes, and any other text as itself). |
| TopologySpelling.WordsRead | orchestrator/topology.py:19-38 | A bare word that starts with a letter and is none of the eight special words, as every role and provider of a topology, reads as itself. |
| TopologyPrint.LeafBack | orchestrator/topology.py:19-38 | Whatever spelling a document uses for a scalar, it reads back as the value meant. |
| TopologyPrint.CanonicalIsWritten | orchestrator/topology.py:1-10 | Every value of the subset has a written document that says it. |
| TopologyRoundTrip.BlockBack | orchestrator/topology.py:58-127 | Wherever a printed block stands among other lines, parsing at its first line gives back what it says and stops exactly behind it. |
| TopologyRoundTrip.TwigsRead | orchestrator/topology.py:64-87 | The keys of a mapping are read, with any spelling, nested blocks at any deeper indent and keys without a value, whatever comes behind the last one. |
| TopologyRoundTrip.TwigsBack | orchestrator/topology.py:64-87 | The mapping loop inverts the printing of any list of distinct good keys, after any entries already read. |
| TopologyRoundTrip.BareChild | orchestrator/topology.py:114-122 | A further key of an item needs no colon: it becomes null, or what is below it. |
| TopologyRoundTrip.MappingRefuses | orchestrator/topology.py:64-73 | Behind the keys of a mapping a deeper line is refused as an unexpected indent, and a line at its indent without a colon as no entry, each with its text. |
| TopologyRoundTrip.ListRefuses | orchestrator/topology.py:90-99 | Behind the items of a list a deeper line is refused, after a mapping item unless it is one more key of it. |
| TopologyRoundTrip.ItemsBack | orchestrator/topology.py:90-127 | The list loop inverts the printing of any list of scalars and mappings. |
| TopologyRoundTrip.MapItemBack | orchestrator/topology.py:101-123 | A mapping item is inverted under the child-indent rule: further keys exactly two columns deeper than the dash, a block under the first key anywhere deeper than they are. |
| TopologyRoundTrip.LinesRoundTrip | orchestrator/topology.py:58-127 | Over lines: for every written document at any indent, parsing returns exactly what it says and consumes all of it. |
| TopologyText.CleanFile | orchestrator/topology.py:41-55 | Cleaning any file of content lines, comments, blank lines and any line ends keeps exactly the content lines, in order. |
| TopologyText.TabsRefused | orchestrator/topology.py:41-44 | Behind any good lines, a tab in the indentation of a line is refused with that line, whatever follows. |
| TopologyText.JsonIff | orchestrator/topology.py:130-133 | A file is taken for JSON if and only if its first thing that is not space opens with a brace or bracket, no comment before it. |
| TopologyText.FileIs | orchestrator/topology.py:130-138 | What loading comes to on any file of good lines: JSON whole, an empty mapping for comments alone, otherwise the first block or its error. |
| TopologyText.DocumentRoundTrip | orchestrator/topology.py:130-138 | Over characters: a file that spreads a written document, in any spelling and indentation, among comments and blank lines is loaded as exactly what the document says. |
| TopologyText.ValueRoundTrip | orchestrator/topology.py:130-138 | For every value of the subset, loading its canonical file gives back exactly that value. |
| BringUp.CloudWith | orchestrator/adapters/fake.py:51-66 | An acquire adds exactly one tagged entry per worker and leaves every other entry alone. |
| RunRecord.FirstAddress | orchestrator/engine.py:52-61 | `ip = ip or h.public_ip` folds to the first non-empty address, to the empty one if all are, to `None` without handles. |
| BringUpInvariant.InitInv | orchestrator/engine.py:29-40 | The invariant of concurrent bring-up holds before `up` starts. |
| BringUpInvariant.StepKeeps | orchestrator/engine.py:40-67 | Each of the fourteen atomic steps of any thread, down to reading one list element for a snapshot, keeps the invariant. |
| BringUpInvariant.ReachableInv | orchestrator/engine.py:29-78 | The invariant holds in every state any interleaving can reach. |
| BringUpTheorems.CrashLosesNothing | orchestrator/engine.py:33-51 | At every moment of every interleaving a resource tagged with the run is on disk, as something `down` will destroy, if and only if the flushed list reaches its place; only a thread between `acquire` and the end of its `add_resource` call can have one that is not. |
| BringUpTheorems.LossHappens | orchestrator/engine.py:45-51 | For every configuration with a worker to create there is a reachable state in which the provider holds it and the file does not list it. |
| BringUpTheorems.RunIsTagged | orchestrator/adapters/fake.py:56-60 | In every reachable state of the bring-up a resource carries the run's tag, id and provider exactly when this run created it. |
| BringUpTheorems.OthersAreKept | orchestrator/adapters/fake.py:51-66 | No step of the bring-up touches a resource that was there before. |
| BringUpTheorems.PersistedBeforeCreate | orchestrator/engine.py:33 | While the run file does not exist the provider holds exactly what it held before. |
| BringUpTheorems.DiskRecordsAreReal | orchestrator/state.py:66-81 | Every resource on disk is one the provider holds for this run, at the recorded provider. |
| BringUpTheorems.DiskIsPrefix | orchestrator/state.py:55-81 | On disk, resource ids and events are prefixes of those in memory, though a snapshot reads its fields one at a time. |
| BringUpTheorems.ReturnedMutatorsAreDurable | orchestrator/state.py:100-131 | In every reachable state, also while the thread is inside its next mutator, what its returned mutators did is on disk: every added handle in the state last given to it or the one just being given, the published pool, the flushed events. |
| BringUpTheorems.IdleThreadsAreOnDisk | orchestrator/state.py:100-131 | Outside a mutator the disk has a thread's handles in exactly the state it gave them. |
| BringUpTheorems.DiskOnlyGrows | orchestrator/state.py:70-81 | No step takes a recorded id or event off the disk again or changes its position. |
| BringUpTheorems.GoodCalls | orchestrator/engine.py:53-61 | The number of bootstrap and verify calls that succeed before the first failure, characterised by the fates alone. |
| BringUpTheorems.BringUpIsConfluent | orchestrator/engine.py:37-79 | Every interleaving joins with the verdicts, wired backends, ids and states its specifications determine. |
| BringUpTheorems.InterleavingsAgree | orchestrator/engine.py:69-79 | Two joins of the same configuration agree on verdicts, wired backends, resources and states, up to order and addresses. |
| BringUpTheorems.SiblingsDoNotMatter | orchestrator/engine.py:37-38 | A pool's verdict is the same in any two topologies that agree on that pool. |
| BringUpTheorems.JoinedDiskIsMemory | orchestrator/state.py:66-81 | After the join the file holds exactly what memory holds. |
| BringUpTheorems.WiredMeansVerified | orchestrator/engine.py:50-63 | A wired backend belongs to a pool that came up, with all its workers recorded and verified and its first non-empty address. |
| BringUpTheorems.DiskIdsDistinct | orchestrator/state.py:108-110 | What a crash leaves on disk never lists an id twice. |
| BringUpTheorems.NoDeadlock | orchestrator/state.py:66-68 | Until all threads have finished some step is possible: the flush lock never leaves everyone waiting. |
| BringUpTheorems.StepsDescend | orchestrator/engine.py:40-67 | Every step moves its own thread down a well-founded measure and no other, so no run is infinite. |
| BringUpAudit.LogTellsTheStory | orchestrator/state.py:100-131 | In every state any interleaving can reach, the events about a pool are, in order, exactly what its thread has done, the event about to be appended describes the change just made, and the log holds nothing else but the start of the run. |
| BringUpAudit.FileTellsABeginning | orchestrator/state.py:66-81 | The events about a pool that a crash leaves in the file are a beginning of that story. |
| BringUpAudit.JoinedStory | orchestrator/engine.py:40-67 | After the join a pool's whole audit trail follows from its specification: all handles created, every successful call in order up to the first that failed, and the outcome last. |
| Provider.IdTextInjective | orchestrator/adapters/fake.py:54 | Within a run the id text tells pools and workers apart, for all pool names. |
| Provider.Cloud.Acquire | orchestrator/adapters/fake.py:44-66 | All workers of the pool are created and returned, each with the address its number and the provider's count give it, or none is and the cloud is unchanged. |
| Provider.Cloud.Teardown | orchestrator/adapters/fake.py:79-84 | Exactly that id goes, and every call is remembered; a failing call may come before or after. |
| Provider.Cloud.Reap | orchestrator/adapters/fake.py:86-97 | Of this provider exactly the entries whose tag starts with `gpuha-managed=`, of the run asked for or of every run, go, and exactly their ids are returned, each once. |
| RunStateObject.Active | orchestrator/state.py:133-134 | Exactly the resources not torn down, still pairwise different. |
| RunStateObject.RunState.constructor | orchestrator/state.py:40-49 | A new run is empty and not yet on disk. |
| RunStateObject.RunState.Load | orchestrator/state.py:83-94 | A later process starts from exactly what the file holds. |
| RunStateObject.RunState.Save | orchestrator/state.py:66-81 | The file is exactly the object's four fields. |
| RunStateObject.RunState.Log | orchestrator/state.py:100-102 | Appends one event, changes nothing else, and flushes. |
| RunStateObject.RunState.SetStatus | orchestrator/state.py:104-106 | Sets the status with its event, and flushes. |
| RunStateObject.RunState.AddResource | orchestrator/state.py:108-110 | Appends the handle with its event, and flushes. |
| RunStateObject.RunState.UpdateResource | orchestrator/state.py:112-119 | Marks exactly the resource with the id and flushes, or, when there is none, raises with memory and file unchanged. |
| RunStateObject.RunState.SetPool | orchestrator/state.py:125-127 | Maps the backend with its event, and flushes. |
| RunStateObject.RunState.UnsetPool | orchestrator/state.py:129-131 | Unmaps the backend with its event, and flushes. |
| SerialUp.RecordHandles | orchestrator/engine.py:50-51 | All handles are appended in order, each with its event, the file in step. |
| SerialUp.CommissionOne | orchestrator/engine.py:54-60 | One handle's firewall note comes first; bootstrap and verify leave it in the state, and the log with the events, its fate determines; success means both worked. |
| SerialUp.Commission | orchestrator/engine.py:52-61 | The loop over handles stops at the first failure with exactly the successful calls recorded and logged and exactly the handles it got to noted; on success the address is the first non-empty one. |
| SerialUp.BringUpPool | orchestrator/engine.py:40-67 | The thread body run alone leaves the record and the audit trail its specification determines, the provider with exactly the pool's workers more, and one firewall note per handle it got to. |
| SerialUp.BringUpAll | orchestrator/engine.py:69-75 | The `GPUHA_SERIAL` order ends in the same `Joined` state as every interleaving with the pools' stories one behind the other, nothing held for the run is unrecorded, and no handle got past `created` before its address was noted. |
| SerialUp.Up | orchestrator/engine.py:29-123 | The whole of a serial `up`: exact condition for raising, final status, resources, pool map and audit trail, and after a raise without teardown failures nothing of the run is left at any provider. |
| Engine.CrashIsSafe | orchestrator/engine.py:33-78 | Every crash of the bring-up leaves something safe: the rest of the provider untouched, and everything of the run on disk as active except exactly the ids the file does not list yet. |
| Engine.JoinedIsSafe | orchestrator/engine.py:76-79 | After the join the file equals memory and nothing at all is lost. |
| Engine.SafeMark | orchestrator/engine.py:140-141 | Striking a handle off the record keeps the run recoverable because the provider no longer holds it by then. |
| Engine.DownFromSafe | orchestrator/engine.py:136-145 | From anything safe a faultless teardown leaves what was there before and what a crash had lost, nothing else, and exactly the former when nothing was lost. |
| Engine.CloudAfter | orchestrator/engine.py:136-145 | Exactly the active handles are gone, except those whose teardown raised before letting go. |
| Engine.TeardownOne | orchestrator/engine.py:137-145 | One provider call, one event and one flush, and the durable state after each of the two is recoverable. |
| Engine.TeardownAll | orchestrator/engine.py:136-145 | Each active handle is torn down exactly once, failures are skipped, each with its event in list order; there are exactly two durable states per handle, and each of them is recoverable. |
| Engine.TakeDown | orchestrator/engine.py:125-134 | `down`: every active handle tried once, every pool unwired and the map file rewritten; the exact audit trail and number of durable states passed through, each recoverable; a failed restart leaves status `aborting`. |
| Engine.UnwirePools | orchestrator/engine.py:128-130 | Exactly the run's backends leave the pool map and the record, with one recoverable durable state each. |
| Engine.CountOk | orchestrator/engine.py:79 | The number of pools that came up. |
| Engine.FinishUp | orchestrator/engine.py:79-123 | From the quorum on: it raises exactly on missed quorum, failed restart or failed fabric; then teardown ran exactly once and status is `failed`; a fabric failure leaves the pools wired; the audit trail is exact, with the failure logged behind or before the abort; every durable state on the way is recoverable. |
| Engine.WirePools | orchestrator/engine.py:95-96 | The run's pools are merged into the wiring's, its own entries winning. |
| Engine.Abort | orchestrator/engine.py:116-121 | `aborting`, then teardown exactly once, then `failed`, in the record and in the log, every durable state on the way recoverable. |
| ConcurrentUp.AllServing | orchestrator/engine.py:50-63 | In a joined state every wired backend is served by a pool with all handles recorded and verified and its first non-empty address. |
| ConcurrentUp.SafeIsRecoverable | orchestrator/engine.py:125-164 | From a safe durable state with nothing lost, `reap` as well as a faultless `down` give back exactly the cloud from before the run. |
| ConcurrentUp.UpAfterJoin | orchestrator/engine.py:76-123 | `up` after any interleaving: status `up` means quorum and every wired backend verified; an exception means one teardown of each active handle and, when no listed one fails, every provider exactly as before; a crash at any moment on the way is undone by `reap` and by `down`. |
| Recovery.ReapAll | orchestrator/engine.py:147-164 | `reap` empties the reachable providers of exactly the run's tagged resources, skips the others, and returns exactly the ids removed, by provider. |
| Recovery.ReapRemoves | orchestrator/engine.py:147-164 | Entry by entry: of the answering providers asked, an entry goes if and only if its tag starts with `gpuha-managed=` and it is of the run asked for, or any run when none is. |
| Recovery.ReapEverything | orchestrator/cli.py:144-152 | `reap --all`: of every answering provider exactly the tagged entries go, whatever their run, exactly their ids are returned, and untagged entries stay. |
| Recovery.ReapFromSafe | orchestrator/engine.py:147-164 | From anything safe, hence after a crash at any moment of bring-up, wiring, abort or `down`, `reap` of the run gives back exactly what was there before it. |
| Recovery.ReapUndoesAnyCrash | orchestrator/engine.py:147-164 | After a crash at any reachable state of the bring-up, also before the run file exists, `reap` over the topology's providers gives back exactly the cloud from before `up`. |
| Recovery.DownAfterCrash | orchestrator/engine.py:125-134 | A faultless `down` from a crashed bring-up's file leaves a resource if and only if it was there before or the file did not list it yet. |
| Recovery.DownSparesOthers | orchestrator/engine.py:136-145 | From anything safe `down` leaves every resource from before the run exactly as it was, whatever fails. |
| Recovery.RetriesExactlyTheFailures | orchestrator/engine.py:137-145 | A repeated `down` works on exactly the handles whose teardown raised, in order. |
| Recovery.SecondDownIsIdle | orchestrator/engine.py:136-145 | After a teardown without failures another one changes neither handles nor cloud. |
| Recovery.DownFrom | orchestrator/cli.py:120-128 | `gpuha down` as a process of its own, from anything safe: exact outcome for status, record, provider and pool-map file, and every durable state on the way is again one to start from. |
| Recovery.CrashedDowns | orchestrator/engine.py:125-164 | However often `down` is tried and wherever each try crashes, `reap` still gives back exactly what was there before the run. |
| Recovery.DownTwice | orchestrator/engine.py:125-134 | After a `down` without failures another one, in a process of its own, changes neither provider nor handles, pools or pool-map file. |
| Recovery.UpThenDown | orchestrator/engine.py:95-131 | Over `up` and a later `down` that rereads the file, for every original file: while wired it reads as the original map with the run's pools over it, afterwards as the original without the run's backends; it is restored if and only if none of them was in it. |
| Recovery.SharedBackendIsLost | orchestrator/engine.py:95-131 | A run on a map that already lists its backend: after `up` and `down` the entry is gone. |
| PoolMap.Sorted | orchestrator/wiring.py:63 | `sorted` lists every key exactly once, least first. |
| PoolMap.SortedAscends | orchestrator/wiring.py:63 | The order is ascending. |
| PoolMap.LexIff | orchestrator/wiring.py:63 | The order is that of Python strings: a prefix, or smaller at the first difference. |
| PoolMap.ReadPoolMap | orchestrator/wiring.py:45-53 | The reading loop, the same in tier1_dns.py:19-33, computes `ReadText`. |
| PoolMap.FileRoundTrip | orchestrator/wiring.py:45-65 | Both readers recover exactly the map either wiring wrote, for well-formed names and addresses; a missing address reads as `None` written out. |
| PoolMap.OnePoolFile | orchestrator/wiring.py:24-31 | The file of one pool, character for character, with the comment line and without. |
| PoolMap.PaddedEntry | orchestrator/wiring.py:49-52 | Space around the name, the sign and the address is ignored. |
| PoolMap.NoEntryLine | orchestrator/wiring.py:50 | A line without an equals sign changes nothing. |
| PoolMap.EnteredIsGood | orchestrator/wiring.py:45-53 | Whatever is read, from any file at all, can be written back and read again unchanged. |
| PoolMap.RealHeaderIsOneLine | orchestrator/wiring.py:62 | The comment line written is one line, so the round trip applies to it. |
| WiringObject.Wiring.Open | orchestrator/wiring.py:40-53 | A wiring starts from exactly what the file lists. |
| WiringObject.Wiring.Offline | orchestrator/wiring.py:18-22 | The offline wiring starts empty whatever the file lists. |
| WiringObject.Wiring.AddPool | orchestrator/wiring.py:55 | One entry is set. |
| WiringObject.Wiring.RemovePool | orchestrator/wiring.py:56 | One entry is removed, if there. |
| WiringObject.Wiring.Apply | orchestrator/wiring.py:58-66 | The file becomes the sorted text of the whole map, before a restart that may fail. |
| WiringObject.Wiring.FirewallNote | orchestrator/wiring.py:34-35 | Exactly one address is noted. |
| Chunked.IterChunks | router.py:63-73 | The reading loop yields exactly what `Decode` says and ends as it says, on any bytes. |
| Text.NumeralValue | fake_worker.py:58 | Reading the hexadecimal (or decimal) text of a number gives back the number. |
| Chunked.DecodeChunk | fake_worker.py:58 | Decoding an encoded non-empty chunk yields it and goes on exactly behind it. |
| Chunked.SizeLine | router.py:67 | A size line, whole or cut after its first digit, parses as a positive number: no cut of it reads as the end. |
| Chunked.RoundTrip | fake_worker.py:58 | Decoding the encoding of any list of non-empty chunks gives back the list and ends normally. |
| Chunked.DecodePrefix | router.py:63-73 | On every byte prefix of an encoding the decoder yields exactly the chunks that are whole in it, and it ends normally if and only if the final size line's zero is there. |
| Chunked.DecodeInFront | router.py:63-73 | Encoded chunks in front of any bytes are yielded, and decoding goes on behind them. |
| Chunked.NegativeSizeEscapes | router.py:67-71 | A negative size after any chunks ends the iteration, behind exactly those chunks, in an error the router does not catch. |
| Chunked.SizeForms | router.py:67-68 | Every form of size line is read as its number: blanks around it, a sign, `0x`, hexadecimal digits of either case with underscores and leading zeros, an extension behind a semicolon. |
| Chunked.BadSizeDrops | router.py:67-68 | A size line with any other character in its number ends the iteration as a dropped connection. |
| Chunked.AnyChunk | router.py:63-73 | Whatever form a size line has, exactly as many bytes as it says are yielded, the rest of the line they end on is thrown away, and reading goes on behind it. |
| Chunked.ChunkStops | router.py:63-73 | A size of zero ends the body there, whatever follows; fewer bytes than the size says end it as incomplete. |
| Chunked.ChunkSpelled | fake_worker.py:58 | A chunk of 26 bytes, character for character: upper-case hexadecimal and carriage returns. |
| Text.RunIff | router.py:67 | The digit runs of `int()`, said of the whole text: digits at both ends, nothing but digits and single underscores between. |
| Router.ReadLengthBody | router.py:54-61 | The Content-Length loop yields and ends as `LengthPieces` and `LengthEnding` say, a read that raises included. |
| Router.ShortBodyEndsNormally | router.py:54-61 | A Content-Length body yields min(declared, available) bytes and, if the socket then closes, ends normally in either case. |
| Router.LengthContents | router.py:54-61 | What a Content-Length body yields is exactly the first `declared` of the bytes that came, in order. |
| Router.LengthPiecesAre | router.py:54-61 | Each piece is what one read returned, only the last perhaps cut; the socket's own ending shows if and only if bytes are missing. |
| Router.EmptyReadEnds | router.py:59-60 | An empty read ends the body normally, whatever would come after it. |
| Router.ResumeKeeps | router.py:117-172 | Every resumption, whatever upstream, client and clock do, keeps the request invariant. |
| Router.LatchHolds | router.py:117-164 | Once `committed` is set, one resumption keeps it set, starts no attempt and only appends to what was sent. |
| Router.NoAttemptAfterFirstToken | router.py:117-164 | Over any rest of a run, no attempt starts after a chunk is forwarded. |
| Router.FirstTokenContract | router.py:117-175 | At every moment, also after an exception has ended the request, the payload sent is a prefix of one single worker's chunks, that worker had answered 200, and at most one head was sent, naming that worker. |
| Router.ConnectOutcome | router.py:118-129 | Connecting: a 200 within four seconds, and nothing else, is read from; any other status, a failed connection or a later answer sends nothing, trips exactly that worker for five seconds, and starts the next attempt as a failover or ends without capacity. |
| Router.ReadOutcome | router.py:130-164 | Reading: a piece is forwarded, behind one head naming worker and attempt if it is the first; before the first piece four seconds or a caught error give the attempt up, after it a caught error ends the stream with a terminator, one trip and one mid-stream failure. |
| Router.DrainOutcome | router.py:150-152 | A drain that succeeds goes on reading or ends the request as served and counted `ok`, and changes nothing else. |
| Router.OkWithoutHead | router.py:134-152 | A request counted `ok` got no head if and only if its last upstream's body yielded nothing; then only terminators were written. |
| Router.OkWithoutHeadHappens | router.py:134-152 | Such a run: one worker, 200, Content-Length 0; counted `ok` with only a terminator sent. |
| Router.EscapesIff | router.py:126-175 | Exactly when one resumption lets an exception out to the outer handler, by connect, body ending or drain; nothing is counted then. |
| Router.UncaughtBodies | router.py:55-69 | A negative size after any chunks, and a Content-Length that is no number, are such body endings. |
| Router.GoneClientTripsWorker | router.py:150-164 | A client gone during a drain trips the worker's breaker; it counts as mid-stream if and only if a chunk had been forwarded, else the next attempt starts or the request is out of capacity. |
| Router.ClientDecodesAPrefix | router.py:150-161 | However a stream that had begun stands or ended, what follows its head decodes to exactly the chunks forwarded, a prefix of one worker's, with a normal end if and only if a terminator was written; every served or cut-off stream has one. |
| Router.PreTokenBound | router.py:118-164 | Waiting on upstreams before the first chunk or before giving up is at most twice the deadline per planned attempt, 24 s for three. |
| RouterRuns.RunConserves | router.py:95-175 | Any interleaving of arrivals and resumptions keeps each counter equal to the number of requests in that tally. |
| RouterRuns.CountersConserved | router.py:28 | Over any interleaving: requests = ok + midstream_failfast + no_capacity + in flight + ended by the outer handler, and failovers = attempts started after an earlier one. |
| Handler.RouterObject.constructor | router.py:28 | All counters start at zero. |
| Handler.RouterObject.TripBreaker | selection.py:72-75 | The worker is broken until a cooldown from now, no other worker changes. |
| Handler.RouterObject.Relay | router.py:134-152 | The loop over one upstream's body does exactly the state machine's resumptions. |
| Handler.RouterObject.Attempt | router.py:118-164 | One pass of the attempt loop is exactly the resumptions it consumes. |
| Handler.RouterObject.Handle | router.py:95-175 | The handler, with its nested loops, does to client, counters and breakers exactly what the state machine does on the same answers. |
| Selection.ScoreInUnitInterval | selection.py:53-62 | For non-negative metrics a score lies in [0,1]. |
| Selection.ScoreIsMonotone | selection.py:53-62 | A worker no worse in any metric never scores lower. |
| Selection.TtftCounts | selection.py:53-62 | Two workers that differ in time to first token only, within its reference, differ in score by that weight times the difference over the reference, over the total weight. |
| Selection.VramCounts | selection.py:53-62 | The same for used memory and its own weight. |
| Selection.QueueCounts | selection.py:53-62 | The same for queue depth and its own weight and reference. |
| Selection.PriceCounts | selection.py:53-62 | The same for price and its own weight and reference. |
| Selection.BeyondReference | selection.py:55-58 | Past its reference a metric counts as the reference itself. |
| Selection.WorstScoresZero | selection.py:53-62 | A worker at or past every reference scores nothing, and so does any worker when the weights sum to zero. |
| Selection.FastBeatsRoomy | selection.py:6-17 | With the shipped settings a slow worker with free memory scores 0.55, a fast one with full memory 0.65, and the fast one ranks first. |
| Selection.RankedIsStable | selection.py:68 | The ranking is a permutation of the pool and keeps its order among equal scores. |
| Selection.RankBounds | selection.py:68-69 | At most k workers score strictly higher than the one ranked at position k. |
| Selection.WorkerSelector.constructor | selection.py:32-35 | A selector starts without workers. |
| Selection.WorkerSelector.Upsert | selection.py:36 | Exactly that worker is set. |
| Selection.WorkerSelector.UpdateTelemetry | selection.py:37-45 | A known worker takes the metrics and the time and keeps its breaker; an unknown one changes nothing. |
| Selection.WorkerSelector.TripBreaker | selection.py:72-75 | A known worker is broken until a cooldown from now; nothing else changes. |
| Selection.WorkerSelector.Eligible | selection.py:46-52 | Exactly the fresh workers with an untripped breaker, each once. |
| Selection.WorkerSelector.Select | selection.py:63-71 | None exactly when nobody is left; otherwise an untried eligible worker outranked by fewer than `top_n` of those left. |
| Selection.WorkerSelector.SelectWithRetryPlan | selection.py:76-83 | Whatever the draws: distinct workers eligible at one instant, min(max_attempts, eligible) of them, position i outranked by fewer than i + top_n. |
| Telemetry.TelemetryIngest.constructor | telemetry.py:49-51 | An ingest starts empty. |
| Telemetry.TelemetryIngest.Ingest | telemetry.py:53-68 | On the datagram itself: JSON with a version of at most 1 and every field changes the view as the frame says and returns the node's view; no JSON, or a missing or larger version, returns nothing; a known version with a missing field raises; both change nothing. |
| Telemetry.ViewIsLastRecord | telemetry.py:59-68 | Over any stream a node has a view exactly when it was heard, and the view is its last strict running maximum with that one's arrival time. |
| Telemetry.Accounting | telemetry.py:59-67 | Over any stream with loss, duplication and reordering: accepted + dropped = last - first + 1, and `dropped` counts exactly the numbers in between never accepted. |
| Telemetry.IngestAll | tier1_dns.py:81-89 | The receiving loop over any datagrams, bad ones included, leaves what the good frames among them leave. |
| Telemetry.DatagramAccounting | telemetry.py:53-68 | Accounting and last record over any stream of datagrams: a node is known exactly when a complete frame of a supported version came from it. |
| Telemetry.LateFramesAreIgnored | telemetry.py:64-65 | A duplicate or late frame changes nothing, so it renews nobody's freshness. |
| Tier1.Members | tier1_dns.py:92-93 | Exactly the configured pools that are fresh. |
| Tier1.PoolsAre | tier1_dns.py:91-97 | The pools answered for are those with a node heard within the window, in the configured order, or all of them in failsafe when there is none. |
| Tier1.AnswerIs | tier1_dns.py:99-104 | The addresses answered are exactly those pools' own, in that order; in failsafe a configured whale answers alone. |
| Tier1.FailsafeIff | tier1_dns.py:91-97 | Failsafe is entered if and only if no node of any configured pool is within the window. |
| Tier1.NeverEmpty | tier1_dns.py:91-104 | With a pool configured, neither the pools nor the addresses answered are ever empty. |
| Tier1.SilenceOnlyShrinks | tier1_dns.py:91-97 | With no accepted frame the answer only shrinks until failsafe, which is then not left. |
| Tier1.Quads | tier1_dns.py:152 | Every address is converted in order, or some address is refused. |
| Tier1.Responder.constructor | tier1_dns.py:73-79 | A responder starts with no previous answer. |
| Tier1.Responder.NoteTransition | tier1_dns.py:106-119 | A change of the answer set is noted exactly once. |
| Tier1.Responder.Handle | tier1_dns.py:143-153 | A runt is ignored, a broken question fails, a non-A question is refused, and an A question gets the current answer set, with the transition noted. |
| Tier1.ReplyReadsBack | tier1_dns.py:143-153 | A resolver reads in the reply its own id and question and one A record per answered address, in order, owned by the name asked. |
| Liveness.SyncOnce | router.py:75-84 | One pass copies exactly the known nodes' views into their workers, whatever the iteration order. |
| Liveness.SyncedShowsLastRecord | router.py:75-84 | Over any run: after a synchronisation each worker shows, metric by metric, its node's last record, and one never heard from is as it was. |
| Liveness.UnheardScore | selection.py:19-27 | A worker known from nothing but its name scores 0.9675 by the defaults. |
| Liveness.RunKeeps | router.py:75-85 | Over any run of time, frames, synchronisations and trips the ingest, workers and breakers stay tied to what was delivered and when. |
| Liveness.EligibleMeansHeard | selection.py:46-52 | Once the clock is past the window, an eligible worker had an accepted frame within it and is past its breaker cooldown. |
| Liveness.UnheardEligibleIff | router.py:26 | A worker never heard from is eligible if and only if the clock itself is still within the window of zero and its breaker allows. |
| Liveness.SilentButEligible | router.py:26 | A concrete run, started at clock 1, in which a silent worker is eligible. |
| Liveness.EligibleIsInAnswer | tier1_dns.py:91-97 | Given the same frames to both ingests, the pool of every eligible worker is in the DNS answer, which is then not the failsafe. |
| Dns.ParseQname | tier1_dns.py:46-57 | The loop terminates on any bytes and rejects exactly overruns and pointers, as `ParseLabels` says. |
| Dns.ParseInvertsEncode | tier1_dns.py:46-57 | Parsing inverts the label encoding of section 3.1 of RFC 1035, wherever in the message the name stands. |
| Dns.ParsedIsEncoded | tier1_dns.py:46-57 | Conversely, whatever parses is the encoding of labels of 1 to 63 bytes. |
| Dns.ParseFails | tier1_dns.py:46-57 | Behind any whole labels a byte of 64 or more is refused as compression, and a name that is cut off as an overrun. |
| Dns.SplitInvertsJoin | tier1_dns.py:57 | Labels that hold no dot can be told from the joined name. |
| Dns.BuildResponseLoop | tier1_dns.py:60-69 | The answer loop computes `BuildResponse`, errors included. |
| Dns.ResponseReadsBack | tier1_dns.py:60-69 | An independent reader (sections 4.1.1 to 4.1.4 of RFC 1035) finds the query's id and RD bit, an authoritative answer with every other flag, the opcode and the other two counts zero, the code, the question byte for byte and exactly the given A records, each pointer resolving to the question name. |
| Whale.JoinSplit | whale.py:89-92 | Splitting at spaces and joining with them gives back every message. |
| Whale.SplitJoin | whale.py:89-92 | Words without spaces come back from their join, so the split is the one between spaces. |
| Whale.PiecesAre | whale.py:89-92 | Piece k holds exactly the words from k steps on to the next, with a space in front unless it is the first, in steps of a sixth of the words and at least one. |
| Whale.PiecesSpellMessage | whale.py:89-92 | The pieces cut by `step` concatenate to the message. |
| Whale.AtMostEleven | whale.py:90-91 | No message needs more than 11 pieces, and up to eleven words need one each. |
| Whale.BuildSse | whale.py:79-99 | The loop builds exactly the chunk encoding of the events' data lines, terminator included. |
| Whale.StreamReadsBack | whale.py:79-81 | An independent event-stream reader recovers exactly the events. |
| Whale.StreamSaysMessage | whale.py:79-99 | For every message: de-chunking ends normally, the events are the assistant's role, content alone and the reason for stopping, in this order, and the content deltas spell the message. |

## Left out

- Topology.Load: JSON documents are handed on unread, because the JSON reader is a library; text is limited to characters below U+0100.
- TopologySpelling.ScalarIff: floats are kept as their text, so equality of the values of two float texts is not modelled; nor is the interpreter's limit on the digits of an integer.
- Provider.Cloud.Acquire: an acquire that creates some workers and then raises is not modelled, because the fake provider cannot do it.
- Provider.Cloud.Verify: the `bootstrapped` field that `bootstrap` adds to a cloud entry is not modelled; nothing reads it.
- WiringObject.Wiring.FirewallNote: the offline wiring's list of notes is modelled; the count of `apply` calls and the real wiring's printed notice are not, and the concurrent bring-up does not keep the list.
- PoolMap.FileRoundTrip: names with an `=` or a leading `#` and addresses with surrounding spaces are excluded, because the file format cannot hold them.
- Chunked.IterChunks: the stream reader's line length limit is not modelled.
- Handler.RouterObject.Handle: request parsing, the statistics page, the 404 branch and the text of heads and 503 bodies are not modelled; the answer of the environment at each `await` is a parameter.
- Router.ReadLengthBody: each element of the script is what one `read` returns, cut to what was asked for.
- Selection.ScoreInUnitInterval: scores are exact reals, so floating-point rounding is not modelled.
- Selection.WorkerSelector.Select: the draw is any of the top workers; its probabilities are not modelled.
- Telemetry.TelemetryIngest.Ingest: JSON decoding is a parameter of the datagram, and so are the values of its fields.
- Tier1.Responder.Handle: the pool map is fixed during a query; the log line of a transition is a counter.
- Whale.StreamSaysMessage: JSON writing is any injective function whose output has no line feed.
- `load_topology`: its field defaults and `int()` coercions are each settled by one expression.
- Provider adapters other than the fake one, the command line, the dead man's switch, the emitters and the deployment scripts: wrappers over services that cannot be seen, and plumbing.
- `RunState.drop_resource` and `list_runs`: the orchestrator does not call them.
- SIGHUP reload racing a query, duplicate pool names or backends, and several orchestrators writing one pool map: the code promises nothing there.
- `FakeWorker` request handling and the whale's dispatch between its buffers: each property is settled by reading one branch.
