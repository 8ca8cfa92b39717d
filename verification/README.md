# Provenance-graph ingestion, modelled in Dafny

The repository turns kernel audit traces (CADETS and ClearScope records) into a
provenance graph: processes, files, sockets and pipes are nodes, and information
flows, forks and execs are the relationships between them. The graph is streamed
to a Neo4j database or exported as CSV files. The code exists in three
generations that do not compile against each other:

- a C++ library;
- an older Rust library (`libopus.rust`);
- the current Rust crate (`src`), together with its data library (`modules/pvm-data`).

Each generation is modelled on its own terms, one Dafny module per source
component. Every operation is a pure step from a state and an input to a new
state, plus the operations it emits or the error it stops with.

- **C++ engine.**
  - `CppNode`, `CppDbTr` and `CppPvmCache` model the node, the operation records and the UUID cache. The cache's 32-bit id counter wraps, and its start value is a parameter.
  - `CppPvm` models the per-event step.
  - `CppTrace` models the SAX trace reader as a fold over a token sequence. Its quirks are kept: the stale field selection, the field mask that is never cleared, and the rejection of nested values. Keys dispatch on their UTF-8 byte length, and a string value is cut at its first NUL.
- **Older Rust library.**
  - `V1PvmCache` and `V1Parse` model the cache and the per-event step.
  - `Uuid` is the hexadecimal codec for the 8-4-4-4-12 form of section 3 of RFC 4122.
  - `InvBloom` is the inverse Bloom filter, with the hash as a parameter.
  - `ValueAsV1` holds the truncating value projections.
- **Counting script.**
  - `ProcCount` is the standalone Python counting loop.
  - `EngineAgreement` proves that one C++ engine step, seen through the map from UUID to thin flag, is one script step.
- **Current crate.**
  - `CheckingStore` is the three-state loan map.
  - `IngestPvmCache` is the process cache built on the loan map.
  - `IngestPvm` is the graph builder. It covers id allocation, flow de-duplication, edit-session open sets and first-name-wins naming.
  - `IngestParse`, `Cadets` and `Clearscope` are the trace dispatchers. They are modelled as the sequence of builder actions they make.
  - `BiStore` is the bidirectional relation.
  - `MetaStore` is the versioned metadata store.
  - `NodeTypes`, `PvmDataNode`, `Data` and `ValueAs` hold the node kinds and the value codecs, over the database value `DbValue`.
  - `Neo4jGlue` encodes nodes for the database and decodes them back.
  - `ViewPending`, `Neo4jView`, `PersistView` and `PersistLoop` model the batching views.
  - `CsvView` is the CSV export. Its quoting follows rule 7 of section 2 of RFC 4180.
  - `NumText` models the decimal and octal renderings written into metadata.

Some of the code's behaviour is easy to misread. The model follows the code as written:

- **Fork of a known child (C++).** The C++ fork of an already known child keeps the child's thin flag; only the command line is replaced. The Rust fork sets the flag again.
- **Older persistence loop.** `src/ingest/persist.rs` flushes and commits on the very first event, because its thresholds count from zero.
- **Write-session end.** In `src/ingest/pvm.rs`, `sinkend` records its flow when the actor was *not* in the file's open set.
- **UUID text of 73 characters.** The older library reads such a text as a pair. It panics when fewer than 32 characters remain after removing the dashes, or when the first 32 parse and fewer than 33 remain. When the first 32 characters do not parse, the result is the parse error.

Several decoders and constructors appear in more than one file with the same code, and each is modelled once:
- the generic-node decoder in `src/data.rs` and `src/data/gen_node.rs`;
- the edge codec in `src/data.rs`, `src/data/mod.rs` and `src/data/edge.rs`;
- the process and socket constructors and the socket class reader in `src/data/node_types/` and `modules/pvm-data/src/node_types/`.
The table cites the first copy.

## Model

| member | source | states |
|---|---|---|
| CppNode.SetCmdline | libopus.cpp/src/include/opus/internal/node.h:32 | setting the command line changes only the command line; id and thin flag are kept |
| CppNode.SetThin | libopus.cpp/src/include/opus/internal/node.h:33 | setting the thin flag changes only the flag; id and command line are kept |
| CppNode.EditsKeepId | libopus.cpp/src/include/opus/internal/node.h:17-34 | no sequence of setter calls changes a node's id (there is no id setter), and the command line is the last one written |
| CppDbTr.NarrowPid | libopus.cpp/src/include/opus/internal/db_tr.h:21-51 | the unsigned trace pid becomes the signed 32-bit field: unchanged below 2^31, otherwise shifted down by 2^32 |
| CppDbTr.NarrowPidRoundTrip | libopus.cpp/src/include/opus/internal/db_tr.h:21-51 | narrowing loses nothing: reading the signed pid back as unsigned gives the trace's value |
| CppDbTr.NarrowPidInjective | libopus.cpp/src/include/opus/internal/db_tr.h:21-51 | distinct unsigned pids stay distinct after narrowing |
| CppDbTr.MkCreateNode | libopus.cpp/src/include/opus/internal/db_tr.h:18-30 | a create-node record carries exactly the id, UUID, (narrowed) pid and command line it was built from |
| CppDbTr.MkUpdateNode | libopus.cpp/src/include/opus/internal/db_tr.h:49-58 | an update-node record carries the id, (narrowed) pid and command line, and no UUID |
| CppPvmCache.Empty | libopus.cpp/src/include/opus/internal/pvm_cache.h:20-22 | a new cache binds no UUID and its counter holds the given start value |
| CppPvmCache.Bump | libopus.cpp/src/include/opus/internal/pvm_cache.h:22 | the atomic counter's increment adds one, wrapping from the largest 32-bit value to the smallest |
| CppPvmCache.Add | libopus.cpp/src/lib/pvm_cache.cpp:15-19 | the new node's id is the counter before the increment, the counter moves on, the UUID is (re)bound to the new node and every other binding is kept |
| CppPvmCache.Check | libopus.cpp/src/lib/pvm_cache.cpp:21-28 | a bound UUID returns its node and changes nothing; an unbound one is added as a thin node with the given command line and reported as inserted |
| CppPvmCache.Release | libopus.cpp/src/lib/pvm.cpp:64 | releasing forgets only that UUID's binding; the counter and the other bindings are kept |
| CppPvmCache.EmptyValid | libopus.cpp/src/include/opus/internal/pvm_cache.h:20-22 | a new cache satisfies the id invariant: every bound id lies below the counter and ids are distinct |
| CppPvmCache.AddValid | libopus.cpp/src/lib/pvm_cache.cpp:15-19 | while the counter does not wrap, add keeps the invariant and its id was never handed out to a bound node |
| CppPvmCache.CheckValid | libopus.cpp/src/lib/pvm_cache.cpp:21-28 | while the counter does not wrap, check keeps the id invariant |
| CppPvmCache.ReleaseValid | libopus.cpp/src/lib/pvm.cpp:64 | releasing a UUID keeps the id invariant |
| CppPvmCache.CheckTwice | libopus.cpp/src/lib/pvm_cache.cpp:21-28 | two consecutive checks of one UUID return the same node, and the second inserts nothing |
| CppPvmCache.AddThenCheck | libopus.cpp/src/lib/pvm_cache.cpp:15-28 | after add, a check of that UUID returns the added node, with the command line and thin flag given to add |
| CppPvmCache.AddIdsIncrease | libopus.cpp/src/lib/pvm_cache.cpp:16 | the ids of successive adds strictly increase while the counter does not wrap |
| CppPvmCache.ReplaceValid | libopus.cpp/src/lib/pvm.cpp:30-55 | editing a bound node in place without touching its id keeps the id invariant |
| CppPvm.Subject | libopus.cpp/src/lib/pvm.cpp:20-27 | the subject is checked first: a known subject changes nothing and emits nothing; a new one is added as a thin node named by exec and announced by one create-node record |
| CppPvm.ForkStep | libopus.cpp/src/lib/pvm.cpp:45-62 | a fork emits exactly two records, the child's create or update and then the parent-to-child "child" relationship |
| CppPvm.Parse | libopus.cpp/src/lib/pvm.cpp:17-66 | no trace record emits more than three operations |
| CppPvm.NewSubjectFirst | libopus.cpp/src/lib/pvm.cpp:20-27 | for a new subject the first record is its create-node with the counter's id, the subject UUID, the pid and the exec name |
| CppPvm.ExecveThin | libopus.cpp/src/lib/pvm.cpp:28-34 | execve of a thin process rewrites that node in place (command line, thin cleared), allocates no id and emits exactly one update |
| CppPvm.ExecveNotThin | libopus.cpp/src/lib/pvm.cpp:35-44 | execve of a non-thin process binds the UUID to a new node with a fresh id and emits its create-node and then a "next" relationship from the old id |
| CppPvm.ForkNewChild | libopus.cpp/src/lib/pvm.cpp:47-62 | a fork of a new child adds it as thin with the parent's command line, announces it with the return value as pid, then links it |
| CppPvm.ForkKnownChild | libopus.cpp/src/lib/pvm.cpp:47-62 | a fork of a known child only sets its command line to the parent's (thin flag untouched), emits an update, then links it |
| CppPvm.ForkEndsWithChildEdge | libopus.cpp/src/lib/pvm.cpp:60-62 | every fork or vfork ends with a "child" relationship |
| CppPvm.ExitReleases | libopus.cpp/src/lib/pvm.cpp:63-65 | exit unbinds the subject and emits nothing beyond the subject's own announcement |
| CppPvm.OtherEventsOnlyRegister | libopus.cpp/src/lib/pvm.cpp:20-66 | any other event, pdfork included, only registers the subject and emits at most one record |
| CppPvm.ParseValid | libopus.cpp/src/lib/pvm.cpp:17-66 | a step keeps the cache's id invariant while the counter stays clear of wrapping |
| CppTrace.BitIsSingle | libopus.cpp/src/include/opus/internal/trace.h:20-43 | every field constant is a single bit |
| CppTrace.BitsOfDistinctIndices | libopus.cpp/src/include/opus/internal/trace.h:20-43 | distinct fields have disjoint bits, from EVENT at bit 0 to RETVAL at bit 21 |
| CppTrace.BitDecodes | libopus.cpp/src/include/opus/internal/trace.h:20-43 | each field's enumerator value names that field back, so no two fields share a value |
| CppTrace.RequiredMaskIsRequiredFields | libopus.cpp/src/include/opus/internal/trace.h:51-52 | a field's bit is in the required mask exactly when the field is one of event, time, pid, ppid, tid, uid, subjprocuuid, subjthruuid, retval |
| CppTrace.KeyDispatchRecognisesFieldNames | libopus.cpp/src/lib/trace.cpp:44-192 | the key dispatch selects every member by its own name except address, which no key selects; "port" selects ppid; "cpu_id" has a handled length but selects nothing |
| CppTrace.OnStartObject | libopus.cpp/src/lib/trace.cpp:17-27 | an object starts only between records, with a zeroed record and the state moved to between-keys; in any other state the call fails and nothing changes |
| CppTrace.OnEndObject | libopus.cpp/src/lib/trace.cpp:29-42 | it succeeds iff every required bit is set and the state is between-keys; success appends the record, keeps the mask and waits for the next object; with a required bit missing nothing changes and the call fails |
| CppTrace.AddressSelectsNothing | libopus.cpp/src/lib/trace.cpp:142-148 | the seven-byte key "address" selects nothing, since the seven-byte case takes only a key starting with c |
| CppTrace.NoKeySelectsAddress | libopus.cpp/src/lib/trace.cpp:44-192 | no key at all selects the address member |
| CppTrace.NameSelects | libopus.cpp/src/lib/trace.cpp:44-192 | every member but address is selected by its own name, with exactly its bit |
| CppTrace.ForeignKeys | libopus.cpp/src/lib/trace.cpp:44-192 | "port" selects ppid, since the four-byte case compares only its first byte, and "cpu_id" has a handled length but selects nothing |
| CppTrace.MultiByteKeyKeepsSelection | libopus.cpp/src/lib/trace.cpp:44-192 | a one-character key of two UTF-8 bytes falls in the two-byte case, matches nothing and keeps the previous selection |
| CppTrace.OnKey | libopus.cpp/src/lib/trace.cpp:44-192 | a key is accepted only between keys; the dispatch is on the key's UTF-8 byte length; a recognised key selects its member and adds exactly its bit; a handled length with no match keeps the previous selection; any other length makes the value ignored |
| CppTrace.OnString | libopus.cpp/src/lib/trace.cpp:195-251 | an ignored value is skipped; an expected value succeeds iff a string member is selected, and then that member holds the text up to its first NUL, as assigning a C string does; a non-string target is undefined; the mask and output never change |
| CppTrace.CString | libopus.cpp/src/lib/trace.cpp:242 | the stored text is the longest NUL-free prefix of the value: it is the value itself when that has no NUL, and otherwise stops just before the first NUL |
| CppTrace.NulTruncates | libopus.cpp/src/lib/trace.cpp:195-244 | the string "a", NUL, "b" stored into host leaves host as "a" |
| CppTrace.OnNumber | libopus.cpp/src/lib/trace.cpp:253-369 | an ignored number is skipped; a number the selected member does not take is dropped and still accepted; object-level states refuse numbers; the mask and output never change |
| CppTrace.DefaultRejects | libopus.cpp/src/include/opus/internal/trace.h:99 | null, boolean, double and array tokens fail at once and change nothing |
| CppTrace.NestedObjectRejected | libopus.cpp/src/lib/trace.cpp:17-27 | an object as a member's value fails the parse |
| CppTrace.IgnoredValueLeavesRecord | libopus.cpp/src/lib/trace.cpp:246-366 | a value skipped after an unhandled key leaves the record and mask as they were and returns to between-keys |
| CppTrace.TimeRouting | libopus.cpp/src/lib/trace.cpp:253-369 | the time member stores unsigned and (reinterpreted) signed 64-bit values and ignores 32-bit ones |
| CppTrace.U32Routing | libopus.cpp/src/lib/trace.cpp:253-369 | the other members ignore 64-bit values; 32-bit values go to pid, ppid, tid, uid, fd, flags and retval, the signed ones through a cast |
| CppTrace.CastRoundTrip | libopus.cpp/src/lib/trace.cpp:332-362 | the signed-to-unsigned cast used for signed 32-bit values loses nothing |
| CppTrace.StepKeepsMask | libopus.cpp/src/lib/trace.cpp:17-369 | no callback removes a bit from the mask |
| CppTrace.RunKeepsMask | libopus.cpp/src/lib/trace.cpp:17-42 | the mask is never cleared: over any token stream every bit set before is still set afterwards |
| CppTrace.RequiredStaysSatisfied | libopus.cpp/src/lib/trace.cpp:29-42 | once the required bits are set, every later object ends successfully whatever members it carries |
| CppTrace.RunConcat | libopus.cpp/src/lib/trace.cpp:17-369 | feeding two token sequences one after the other is feeding their concatenation, stopping at the first failure |
| CppTrace.StringMember | libopus.cpp/src/lib/trace.cpp:44-244 | a recognised string key followed by a string stores the text up to its first NUL and adds exactly that member's bit |
| CppTrace.U32Member | libopus.cpp/src/lib/trace.cpp:294-330 | a recognised 32-bit key followed by an unsigned value stores it and adds exactly that member's bit |
| CppTrace.TimeMember | libopus.cpp/src/lib/trace.cpp:253-272 | the time key followed by an unsigned 64-bit value stores it and adds the time bit |
| CppTrace.EntryStep | libopus.cpp/src/lib/trace.cpp:44-369 | one well-typed member stores its value (a string up to its first NUL) and adds its bit |
| CppTrace.RunEntries | libopus.cpp/src/lib/trace.cpp:44-369 | a sequence of well-typed members is all accepted: the mask gains exactly their bits and the record holds their values (strings up to their first NUL), later ones overwriting earlier ones |
| CppTrace.ParseObject | libopus.cpp/src/lib/trace.cpp:17-42 | one object read by a fresh handler succeeds exactly when its members cover the required fields, and then yields one record holding its values (strings up to their first NUL) over the zeroed record |
| CppTrace.BitsAreDistinctSingleBits | libopus.cpp/src/include/opus/internal/trace.h:20-43 | every field constant is a single bit and no two share one, so the mask records each field independently |
| V1PvmCache.New | libopus.rust/src/ingest/pvm_cache.rs:18-23 | a new cache binds nothing and its counter is 0 |
| V1PvmCache.Add | libopus.rust/src/ingest/pvm_cache.rs:25-32 | the UUID is bound to a node whose id is the counter (as a signed 64-bit value) and the counter moves on; other bindings are kept |
| V1PvmCache.Check | libopus.rust/src/ingest/pvm_cache.rs:34-41 | it answers true exactly when the UUID was unbound, and then has added a thin node with the command line; otherwise nothing changes |
| V1PvmCache.Get | libopus.rust/src/ingest/pvm_cache.rs:43-45 | the bound node, and a panic exactly when the UUID is unbound |
| V1PvmCache.Set | libopus.rust/src/ingest/pvm_cache.rs:47-51 | on a bound UUID only that node's command line and thin flag change, its id and every other binding are kept; an unbound UUID panics |
| V1PvmCache.NewValid | libopus.rust/src/ingest/pvm_cache.rs:18-23 | a new cache satisfies the id invariant (ids distinct and below the counter) |
| V1PvmCache.AddValid | libopus.rust/src/ingest/pvm_cache.rs:25-32 | add keeps the id invariant while the counter is below 2^63 |
| V1PvmCache.CheckValid | libopus.rust/src/ingest/pvm_cache.rs:34-41 | check keeps the id invariant while the counter is below 2^63 |
| V1PvmCache.SetValid | libopus.rust/src/ingest/pvm_cache.rs:47-51 | set keeps the id invariant |
| V1PvmCache.CheckThenGet | libopus.rust/src/ingest/pvm_cache.rs:34-45 | after a check the UUID can be fetched without a panic, and a second check changes nothing and answers false |
| V1Parse.Finish | libopus.rust/src/ingest/parse.rs:13-79 | the sends are kept, and the result is the closed-queue error exactly when something was sent to a closed queue |
| V1Parse.ParseTrace | libopus.rust/src/ingest/parse.rs:7-80 | no record sends more than three operations |
| V1Parse.MissingExecRefused | libopus.rust/src/ingest/parse.rs:12 | a record without exec fails with "event missing exec" before the cache changes or anything is sent |
| V1Parse.NewSubjectFirst | libopus.rust/src/ingest/parse.rs:14-23 | for a new subject the first send is its create-node with the counter's id, the UUID, the pid and exec |
| V1Parse.ExecveMissingCmdline | libopus.rust/src/ingest/parse.rs:27 | execve without cmdline fails, after the subject's create-node was sent exactly when the subject was new |
| V1Parse.ExecveThin | libopus.rust/src/ingest/parse.rs:28-34 | execve of a thin process sets its command line and clears thin in place, sending exactly one update |
| V1Parse.ExecveNotThin | libopus.rust/src/ingest/parse.rs:35-49 | execve of a non-thin process adds a node with a fresh id and sends its create-node and a "next" relationship from the old id |
| V1Parse.ForkKnownChild | libopus.rust/src/ingest/parse.rs:51-75 | a fork of a known child resets it to the parent's command line with thin set again, sends an update and then the "child" relationship |
| V1Parse.ForkNewChild | libopus.rust/src/ingest/parse.rs:51-75 | a fork of a new child sends its create-node (pid from retval, the parent's command line) and then the "child" relationship |
| V1Parse.ForkEndsWithChildEdge | libopus.rust/src/ingest/parse.rs:51-76 | a fork without ret_objuuid1 fails; any other fork ends with the "child" relationship |
| V1Parse.OtherEvents | libopus.rust/src/ingest/parse.rs:25-77 | every other event, exit included, only checks the subject and sends at most its create-node |
| V1Parse.ParseValid | libopus.rust/src/ingest/parse.rs:7-80 | a step keeps the cache's id invariant while the counter is far from 2^63 |
| ProcCount.Sight | proccount/proccount.py:14-16 | an unseen UUID is recorded as thin and counted; a seen one changes nothing |
| ProcCount.StepRecord | proccount/proccount.py:13-26 | a processed record adds one to the event count and forgets no UUID; a failed one names a key the record lacks |
| ProcCount.StepKeepsBound | proccount/proccount.py:13-26 | one record keeps the process count at least the number of UUIDs recorded |
| ProcCount.RunKeepsBound | proccount/proccount.py:13-30 | over a whole run the process count stays at least the number of unique UUIDs, and every record is counted once |
| ProcCount.FirstSighting | proccount/proccount.py:14-26 | a first sighting of a subject records it as thin and counts it |
| ProcCount.ExecveCounting | proccount/proccount.py:17-21 | execve of a thin subject flips it to non-thin without counting; of a non-thin subject it counts a new process |
| ProcCount.ForkCounting | proccount/proccount.py:22-25 | a fork with an unseen child records it as thin and counts it; a seen child changes only the event count |
| EngineAgreement.SubjectAgrees | proccount/proccount.py:14-16 | the script's first branch and the C++ engine's subject check keep the same thin map and count the same new process node |
| EngineAgreement.ExecveAgrees | proccount/proccount.py:17-21 | the script's execve branch and the engine's execve step keep the same thin map, and the script counts exactly the nodes the engine creates |
| EngineAgreement.ForkAgrees | proccount/proccount.py:22-25 | the script's fork branch and the engine's fork step keep the same thin map and count the same created nodes |
| EngineAgreement.StepAgrees | proccount/proccount.py:13-26 | one engine step (exit aside) matches one script step: same thin map, count grown by the number of create-node operations |
| EngineAgreement.RunAgrees | proccount/proccount.py:13-30 | over a trace without exits the script succeeds, ends with the engine's thin map, counts exactly the process nodes the engine created, and counts every event |
| CheckingStore.New | src/checking_store.rs:30-35 | a new store holds nothing and no loan is outstanding |
| CheckingStore.Insert | src/checking_store.rs:45-59 | inserting succeeds exactly when the key is absent or at home, and then stores the value at home; over a loaned or awaiting-drop entry it panics with the matching message |
| CheckingStore.Remove | src/checking_store.rs:60-75 | it answers true exactly when the key was contained (at home or loaned); afterwards the key is not contained; a value at home is deleted, a loaned one awaits drop, every other entry and the loan count are kept |
| CheckingStore.Take | src/ingest/pvm.rs:64-76 | a checkout followed by unwrap, as both process caches do it: it succeeds exactly when the value is at home and lends it; a missing key is the unwrap panic, and a key that is lent or awaiting its drop is the store's own loaned or awaiting-drop panic |
| CheckingStore.LentBounded | src/checking_store.rs:76-96 | when every key lies below n, at most n values are out on loan, so the loan counter is far from wrapping |
| CheckingStore.Checkout | src/checking_store.rs:76-96 | a value at home is lent out in a guard and the loan count grows by one; a missing key gives no guard and no change; a loaned or awaiting-drop key panics with the matching message |
| CheckingStore.Checkin | src/checking_store.rs:97-112 | returning succeeds exactly for a lent key and lowers the loan count: a loaned entry gets the returned value at home, an awaiting-drop one is deleted; a key at home or unknown panics with the matching message |
| CheckingStore.DropGuard | src/checking_store.rs:138-149 | dropping a guard checks its (possibly edited) value back in: the key is no longer lent, it stays contained exactly when it was, and then holds the guard's value |
| CheckingStore.DropStore | src/checking_store.rs:115-127 | dropping the store succeeds exactly when no loan is outstanding, and otherwise panics with the count |
| CheckingStore.NewValid | src/checking_store.rs:30-35 | a new store satisfies the invariant that the loan count equals the number of lent entries |
| CheckingStore.InsertValid | src/checking_store.rs:45-59 | insert keeps the loan-count invariant |
| CheckingStore.RemoveValid | src/checking_store.rs:60-75 | remove keeps the loan-count invariant |
| CheckingStore.CheckoutValid | src/checking_store.rs:76-96 | checkout keeps the loan-count invariant while the counter cannot wrap |
| CheckingStore.CheckinValid | src/checking_store.rs:97-112 | checkin keeps the loan-count invariant |
| CheckingStore.DropStoreIffNoLoans | src/checking_store.rs:115-127 | under the invariant the store can be dropped exactly when every entry is at home |
| CheckingStore.GuardRoundTrip | src/checking_store.rs:176-202 | a checkout followed by the guard's drop puts the edited value home and brings the loan count back to where it was |
| CheckingStore.RemoveWhileLoaned | src/checking_store.rs:60-112 | removing a loaned value reports true, and returning the loan then deletes it and restores the loan count |
| CheckingStore.RemoveIdempotent | src/checking_store.rs:262-271 | a second removal of the same key reports false and changes nothing |
| CheckingStore.InsertThenCheckout | src/checking_store.rs:45-96 | an inserted value is contained and a checkout hands back exactly that value |
| IngestPvmCache.New | src/ingest/pvm_cache.rs:20-26 | a new cache binds no UUID, stores no node, has no loan outstanding and its counter is 0 |
| IngestPvmCache.Add | src/ingest/pvm_cache.rs:28-40 | the new node's id is the counter, the counter moves on, the UUID is bound to the id and the node is stored and handed back checked out; on a valid cache it cannot fail |
| IngestPvmCache.Check | src/ingest/pvm_cache.rs:42-51 | an unknown UUID is added as a thin node and reported true; a known one reports false, allocates no id, and lends out its bound node, failing exactly when that node is not at home |
| IngestPvmCache.Release | src/ingest/pvm_cache.rs:53-55 | releasing removes only the UUID's binding; the stored node and the counter are kept |
| IngestPvmCache.Checkin | src/ingest/pvm_cache.rs:61-63 | returning a guard succeeds exactly for a lent id, keeps the bindings and counter, and puts a loaned node home with the guard's value |
| IngestPvmCache.NewValid | src/ingest/pvm_cache.rs:20-26 | a new cache satisfies the invariant: bound ids are stored, stored ids lie below the counter, and the store's own invariant holds |
| IngestPvmCache.AddValid | src/ingest/pvm_cache.rs:28-40 | add keeps the invariant while the counter is clear of 2^63 |
| IngestPvmCache.AddIdFresh | src/ingest/pvm_cache.rs:29 | a new node's id is the counter and was never stored before, so ids are not reused |
| IngestPvmCache.CheckValid | src/ingest/pvm_cache.rs:42-51 | a successful check keeps the invariant while the counter is clear of 2^63 |
| IngestPvmCache.CheckWhileLoanedPanics | src/ingest/pvm_cache.rs:48 | checking a UUID whose node is still checked out panics in the store |
| IngestPvmCache.ReleaseValid | src/ingest/pvm_cache.rs:53-55 | release keeps the invariant |
| IngestPvmCache.CheckinValid | src/ingest/pvm_cache.rs:61-63 | a successful checkin keeps the invariant |
| IngestPvmCache.CheckCheckinCheck | src/ingest/pvm_cache.rs:42-63 | checking a known UUID, returning the guard and checking again gives the same node |
| IngestPvm.New | src/ingest/pvm.rs:26-36 | a new builder binds nothing, stores nothing, has recorded no flow and has no open session, with the counter at 0 |
| IngestPvm.Build | src/ingest/pvm.rs:59 | a node built for an init carries the given id and UUID |
| IngestPvm.Add | src/ingest/pvm.rs:54-67 | the id is the counter, which moves on; the UUID is rebound to it; the new node is announced by one create-node and handed back checked out; flows and sessions are kept; on a valid builder it cannot fail |
| IngestPvm.Declare | src/ingest/pvm.rs:69-78 | an unknown UUID is added; a known one lends its present node, allocates no id, rebinds nothing and emits nothing |
| IngestPvm.Drop | src/ingest/pvm.rs:64-76 | dropping a guard succeeds exactly when its id is lent, and changes no binding, counter, flow or session |
| IngestPvm.Release | src/ingest/pvm.rs:38-42 | releasing unbinds the UUID and removes its node; an unknown UUID changes nothing |
| IngestPvm.Inf | src/ingest/pvm.rs:44-52 | the (source, destination) pair is recorded, and a relationship is emitted exactly when the pair was new |
| IngestPvm.Source | src/ingest/pvm.rs:80-82 | reading records a flow from the entity to the actor, emitting at most that one relationship and touching no node |
| IngestPvm.Sink | src/ingest/pvm.rs:84-100 | writing a non-file records a flow actor to entity; writing a file makes a new file version with the same UUID and name, announces it, links old to new, rebinds the UUID and records the flow to the new version |
| IngestPvm.SinkStart | src/ingest/pvm.rs:102-127 | on a file it opens an edit session whose writers are the actor alone; on an edit session it fails exactly when the session is unknown, else adds the actor and emits nothing when it was already a writer; anything else gets the flow directly |
| IngestPvm.SinkEnd | src/ingest/pvm.rs:129-148 | only edit sessions react, an unknown one being the unwrap panic; the actor leaves the writers, and the flow is recorded when it was not one of them; when writers remain nothing else changes; when none remain the UUID is rebound to a new file version |
| IngestPvm.Name | src/ingest/pvm.rs:150-166 | only an unnamed file or edit session takes the name and is re-announced; every other node is left alone and nothing is emitted |
| IngestPvm.NewValid | src/ingest/pvm.rs:26-36 | a new builder satisfies the invariant: bound ids are stored, stored ids lie below the counter, and the store's own invariant holds |
| IngestPvm.AddFreshId | src/ingest/pvm.rs:58 | ids are never reused: a new id is the counter, is not in the store and exceeds every bound id |
| IngestPvm.AddRemovesPrevious | src/ingest/pvm.rs:60-62 | after add the node the UUID named before is no longer contained in the store |
| IngestPvm.AddValid | src/ingest/pvm.rs:54-67 | add keeps the invariant while the counter is clear of 2^63 |
| IngestPvm.DropValid | src/ingest/pvm.rs:64-76 | dropping a guard keeps the invariant |
| IngestPvm.ReleaseValid | src/ingest/pvm.rs:38-42 | release keeps the invariant |
| IngestPvm.InfOnce | src/ingest/pvm.rs:44-52 | a flow emitted once is never emitted again for the same pair, whatever its tag |
| IngestPvm.VersionValid | src/ingest/pvm.rs:87-145 | making a new version of a node succeeds, keeps the invariant and returns the new node home |
| IngestPvm.SinkStartFileValid | src/ingest/pvm.rs:104-115 | opening a session on a file keeps the invariant, allocates one id, rebinds the UUID to the session and makes the actor the only writer |
| IngestPvm.SinkEndLastWriter | src/ingest/pvm.rs:129-148 | the last writer leaving closes the session into a new file version linked from it, keeping the invariant |
| IngestPvm.NameFirstWins | src/ingest/pvm.rs:150-166 | once a non-empty name is set, naming again changes nothing and emits nothing |
| BiStore.New | src/bi_store.rs:14-15 | a new store has no pairs in either direction |
| BiStore.Insert | src/bi_store.rs:23-35 | afterwards (a, b) is paired on both sides; the answer is true exactly when b was not already among a's partners; every other pair is unchanged |
| BiStore.Remove | src/bi_store.rs:37-46 | afterwards (a, b) is unpaired on both sides; the answer is true exactly when b was among a's partners; every other pair is unchanged |
| BiStore.IsEmptyIffNoPartner | src/bi_store.rs:48-54 | is_empty(a) holds exactly when a has no partner, whether a was never inserted or all its pairs were removed |
| BiStore.RevIter | src/bi_store.rs:56-58 | the reverse view of b panics exactly when b was never inserted, and otherwise is exactly the left keys recorded with b |
| BiStore.NewConsistent | src/bi_store.rs:14-15 | a new store satisfies the symmetry invariant: b is a forward partner of a exactly when a is a reverse partner of b |
| BiStore.InsertConsistent | src/bi_store.rs:23-35 | insert keeps the symmetry invariant |
| BiStore.RemoveConsistent | src/bi_store.rs:37-46 | remove keeps the symmetry invariant |
| BiStore.RevIterExact | src/bi_store.rs:56-58 | on a symmetric store, the reverse view of b is exactly the keys whose forward partners include b |
| BiStore.InsertTwice | src/bi_store.rs:23-35 | inserting a pair that is already there answers false |
| BiStore.InsertThenRemove | src/bi_store.rs:23-46 | removing a just-inserted pair answers true and leaves the pair gone |
| BiStore.RegularUse | src/bi_store.rs:66-79 | inserting (1,1) and (1,2) answers true, inserting (1,2) again answers false, and 2's reverse view holds 1 alone |
| MetaStore.New | modules/pvm-data/src/meta_store.rs:16-21 | a new store has no keys and no times |
| MetaStore.Cur | modules/pvm-data/src/meta_store.rs:78-84 | a key has a current value exactly when it is stored with a non-empty history |
| MetaStore.IndexOf | modules/pvm-data/src/meta_store.rs:62 | the position found is the first occurrence of the time, and none is found exactly when the time is not listed |
| MetaStore.TimeIndex | modules/pvm-data/src/meta_store.rs:61-69 | a listed time keeps the list and gives its position; an unlisted one is appended and gets the last position |
| MetaStore.Append | modules/pvm-data/src/meta_store.rs:70-75 | one entry is appended to the key's history; a new key takes the given heritable flag, an existing key keeps its own; other keys are untouched |
| MetaStore.Update | modules/pvm-data/src/meta_store.rs:47-76 | updating with the current value changes nothing; otherwise the key's current value becomes the given one; no other key's current value changes |
| MetaStore.UpdateAsWritten | modules/pvm-data/src/meta_store.rs:61-69 | the update with the offset narrowed to a byte as the store keeps it: same no-op and same resulting current value |
| MetaStore.LatestTime | modules/pvm-data/src/meta_store.rs:94-100 | a key has a latest time only when it has a current value |
| MetaStore.Snapshot | modules/pvm-data/src/meta_store.rs:23-39 | a snapshot lists only the given time and keeps exactly the heritable keys, each with its current value alone at offset 0; it panics exactly when a heritable key has no history |
| MetaStore.IterLatest | modules/pvm-data/src/meta_store.rs:94-100 | the latest view covers every key, with its current value, the time that value was stamped with, and its heritable flag |
| MetaStore.HistItems | modules/pvm-data/src/meta_store.rs:86-92 | a history's items carry the key and its values in order |
| MetaStore.NewValid | modules/pvm-data/src/meta_store.rs:16-21 | a new store satisfies the invariant: non-empty histories, offsets inside the time list, no time listed twice |
| MetaStore.UpdateAppendsOne | modules/pvm-data/src/meta_store.rs:61-76 | an update that is not a no-op appends exactly one entry, stamped with the given time, keeps an existing key's heritable flag, gives a new key the given flag, and leaves other keys alone |
| MetaStore.UpdateValid | modules/pvm-data/src/meta_store.rs:47-76 | updating keeps the invariant: histories stay non-empty, offsets stay in range and the time list stays duplicate-free |
| MetaStore.UpdateLatestTime | modules/pvm-data/src/meta_store.rs:61-69 | with a full-width offset, the latest entry's offset reads back the time it was given |
| MetaStore.AsWrittenOffsetWraps | modules/pvm-data/src/meta_store.rs:63-66 | with 256 distinct times listed, a value stamped with a new time gets offset 0 and reads back the first time instead |
| MetaStore.ReplayCur | modules/pvm-data/src/meta_store.rs:41-45 | replaying items through update leaves each key at the last value the items give it, or where it was |
| MetaStore.HistItemsLast | modules/pvm-data/src/meta_store.rs:86-92 | a history's items end with the history's latest value for that key and mention no other key |
| MetaStore.ItemsLast | modules/pvm-data/src/meta_store.rs:86-92 | the items of a store's keys end, for each key, with its current value |
| MetaStore.ItemsOk | modules/pvm-data/src/meta_store.rs:86-92 | in a valid store every offset is in range, so iterating never panics |
| MetaStore.MergeCur | modules/pvm-data/src/meta_store.rs:41-45 | merging a valid store, in any key order, succeeds and leaves every key it holds at that store's current value and every other key as it was |
| MetaStore.IterLatestValid | modules/pvm-data/src/meta_store.rs:94-100 | the unwrap in the latest view cannot fail on a valid store |
| MetaStore.SnapshotValid | modules/pvm-data/src/meta_store.rs:23-39 | a valid store's snapshot succeeds and is valid |
| Uuid.HexValue | libopus.rust/src/uuid.rs:59 | a hexadecimal digit of either case has a value below 16 |
| Uuid.FromStrRadix16 | libopus.rust/src/uuid.rs:59-66 | an empty string is the empty-input error; a string without a leading '+' is read digit by digit |
| Uuid.FromStr | libopus.rust/src/uuid.rs:55-73 | any length other than 36 or 73 is the formatting error with the input quoted; a 36-character success is a single value and a 73-character success a pair |
| Uuid.HexDigit | libopus.rust/src/uuid.rs:80 | a written digit reads back as its value and is never a dash, a plus or a colon |
| Uuid.Hex | libopus.rust/src/uuid.rs:80 | the zero-padded rendering has exactly the requested width and contains no dash or colon |
| Uuid.SingleString | libopus.rust/src/uuid.rs:79-90 | the 8-4-4-4-12 form of a single value is 36 characters long |
| Uuid.ToString | libopus.rust/src/uuid.rs:76-101 | a single value is written in 36 characters and a pair in 73 |
| Uuid.Zero | libopus.rust/src/uuid.rs:47-49 | zero is the single value 0 |
| Uuid.DigitsOfHex | libopus.rust/src/uuid.rs:59-80 | the zero-padded digits of a value that fits read back as that value |
| Uuid.ParseHexOfHex | libopus.rust/src/uuid.rs:59-80 | the 32-digit rendering of any 128-bit value parses back to it |
| Uuid.StripSingle | libopus.rust/src/uuid.rs:59-90 | removing the dashes from a single form leaves its 32 digits |
| Uuid.StripGroups | libopus.rust/src/uuid.rs:83-89 | the 8-4-4-4-12 grouping is undone by removing dashes |
| Uuid.RoundTrip | libopus.rust/src/uuid.rs:55-101 | reading back what Display writes gives the same UUID, for single values and pairs |
| Uuid.NonHexRejected | libopus.rust/src/uuid.rs:22-59 | a 36-character string whose stripped form holds a non-digit is a parse error |
| Uuid.DigitsStopAtNonDigit | libopus.rust/src/uuid.rs:59-66 | a digit string containing a non-digit is refused |
| Uuid.DashesPanic | libopus.rust/src/uuid.rs:62-67 | 73 dashes strip to nothing, so slicing the stripped string panics |
| InvBloom.New | libopus.rust/src/invbloom.rs:19-25 | a new filter holds 0 in every one of its 256 slots |
| InvBloom.Check | libopus.rust/src/invbloom.rs:27-36 | the hash is stored in slot hash mod 256, the answer is true exactly when that slot held this very hash, and every other slot is unchanged |
| InvBloom.CheckTwice | libopus.rust/src/invbloom.rs:27-36 | checking the same string twice in a row answers true the second time |
| InvBloom.FreshFilter | libopus.rust/src/invbloom.rs:19-36 | on a new filter the answer is true exactly when the hash is 0 |
| InvBloom.SeenMeansSameHash | libopus.rust/src/invbloom.rs:27-36 | a string reported seen right after another in the same slot has the same hash as that one |
| ValueAs.AsString | src/value_as.rs:19-24 | the projection succeeds exactly on a String value and returns its text |
| ValueAs.AsInt | src/value_as.rs:26-31 | the integer projection succeeds exactly on an Integer that fits the target type's range, and returns it unchanged |
| ValueAs.AsBool | src/value_as.rs:33-38 | the projection succeeds exactly on a Boolean value and returns it |
| ValueAs.AsVec | src/value_as.rs:40-45 | the projection succeeds exactly on a List value and returns its elements |
| ValueAs.AsMap | src/value_as.rs:47-52 | the projection succeeds exactly on a Map value and returns its entries |
| ValueAs.AsUuid5 | src/value_as.rs:54-59 | the projection succeeds exactly on a String that parses as a UUID, and returns the parsed UUID; a String on which the parser panics is that panic, not `None`, because `.ok()` only converts an error |
| ValueAs.IntRoundTrip | src/value_as.rs:26-31 | every 64-bit signed integer written as a value reads back as itself |
| ValueAs.Uuid5RoundTrip | src/value_as.rs:54-59 | a UUID written as its string reads back as that UUID |
| ValueAs.DashesPanic | src/value_as.rs:54-59 | 73 dashes make the UUID parser panic, and the projection passes the panic on instead of returning `None` |
| ValueAs.UnsignedRejectsNegative | src/value_as.rs:26-31 | reading a negative integer as unsigned fails rather than wrapping |
| ValueAsV1.AsString | libopus.rust/src/value_as.rs:13-18 | the projection succeeds exactly on a String value and returns its text |
| ValueAsV1.AsI64 | libopus.rust/src/value_as.rs:20-25 | the projection succeeds exactly on an Integer value and returns it |
| ValueAsV1.AsU64 | libopus.rust/src/value_as.rs:27-32 | the projection succeeds exactly on an Integer, reinterpreting a negative one as itself plus 2^64 |
| ValueAsV1.AsI32 | libopus.rust/src/value_as.rs:34-39 | the projection succeeds exactly on an Integer and keeps its low 32 bits, which is the value itself when it fits |
| ValueAsV1.AsBool | libopus.rust/src/value_as.rs:41-46 | the projection succeeds exactly on a Boolean value and returns it |
| ValueAsV1.AsVecRef | libopus.rust/src/value_as.rs:48-53 | the projection succeeds exactly on a List value and returns its elements |
| ValueAsV1.U64Reinterpret | libopus.rust/src/value_as.rs:27-32 | reinterpreting as unsigned and back as signed recovers the integer |
| ValueAsV1.I32Truncates | libopus.rust/src/value_as.rs:34-39 | truncation is not injective: 2^32 and 0 both read as 0 |
| Data.LabelStrings | src/data.rs:46-52 | the labels are read as strings exactly when every label is a String, keeping their order; otherwise the unwrap panics |
| Data.LabelValues | src/data.rs:138-140 | labels are written as a list of String values, one per label, in order |
| Data.GenNodeFromDb | src/data.rs:30-65 | a non-structure, a wrong signature and a wrong field count give their own errors; decoding succeeds exactly on signature 0x4E with three fields (non-negative integer id, list of string labels, property map), and returns those three parts |
| Data.GenNodeRoundTrip | src/data.rs:30-68 | any node written in the database's layout decodes to itself, and decomposes to exactly its id, labels and properties |
| Data.NonStringLabelPanics | src/data.rs:51 | a label that is not a String panics |
| Data.ProcessFromProps | src/data.rs:101-124 | reading succeeds exactly when db_id, uuid, cmdline, pid and thin are present and well typed; a bad db_id is reported first; with a good db_id, a uuid on which the parser panics is that panic, the only panic it can return; the result carries the values read |
| Data.ProcessToDb | src/data.rs:128-136 | a process node is written with exactly the keys db_id, uuid, cmdline, pid and thin |
| Data.ProcessRoundTrip | src/data.rs:101-136 | what to_db writes, from_props reads back as the same process node |
| Data.MultiNodeFromDb | src/data.rs:89-98 | a generic-node failure is passed on; a node without the "Process" label is the no-known-type error; a success is the process node read from the properties |
| Data.EdgeToDb | src/data.rs:153-166 | an edge is written as a map of exactly its destination id and its class, "child" or "next" |
| Data.EdgeFromDb | src/data.rs:168-196 | a non-structure is the not-an-edge error; a wrong signature or field count fails the assertion; decoding succeeds exactly when field 2 is an integer and field 4 a map whose class is "child" or "next", and returns that destination and class |
| Data.EdgeRoundTrip | src/data.rs:153-196 | a relationship whose property map is an edge's encoding, with its destination in field 2, decodes to that edge |
| Data.UnknownClassRejected | src/data.rs:188-192 | a class other than "child" or "next" is the invalid-class error, not a panic |
| NodeTypes.ProcessNew | src/data/node_types/process.rs:28-48 | a process built with an init copies its pid, command line and thin flag; without one it has an empty command line, pid 0 and thin set; id and UUID are the ones given |
| NodeTypes.SocketNew | src/data/node_types/socket.rs:117-139 | a socket built with an init copies class, path, ip and port; without one it is Unknown with empty path and ip and port 0; id and UUID are the ones given |
| NodeTypes.FileNew | src/data/node_types/file.rs:30-39 | a file takes the given name, or the empty name by default |
| NodeTypes.EditSessionNew | src/data/node_types/editsession.rs:30-39 | an edit session takes the given name, or the empty name by default |
| NodeTypes.PipeNew | src/data/node_types/pipe.rs:30-39 | a pipe takes the given descriptor, or -1 by default |
| NodeTypes.PttyNew | modules/pvm-data/src/node_types/ptty.rs:30-39 | a terminal takes the given name, or the empty name by default |
| NodeTypes.ProcessInitRoundTrip | src/data/node_types/process.rs:19-55 | a process rebuilt from its id, UUID and its own fields is the same process, so the getters return the constructor's id and UUID |
| NodeTypes.SocketInitRoundTrip | modules/pvm-data/src/node_types/socket.rs:39-77 | a socket rebuilt from its id, UUID and its own fields is the same socket |
| NodeTypes.ClassFromInt | src/data/node_types/socket.rs:31-38 | an integer names a socket class exactly when it is 0, 1 or 2 |
| NodeTypes.ClassCodec | src/data/node_types/socket.rs:7-38 | reading an integer as a class gives c exactly when the integer is c's discriminant, so writing a class and reading it back loses nothing |
| NodeTypes.SocketProps | src/data/node_types/socket.rs:76-82 | a socket's properties are exactly uuid, class, path, ip and port, with the class as its discriminant, and never the id |
| NodeTypes.SocketFromProps | src/data/node_types/socket.rs:41-69 | reading succeeds exactly when db_id, uuid, class (a known discriminant), path, ip and port are present and well typed; a missing db_id is reported first; with a good db_id, a uuid on which the parser panics is that panic, the only panic it can return |
| NodeTypes.SocketPropsRoundTrip | src/data/node_types/socket.rs:41-82 | a socket's written properties, with its id added, read back as the same socket |
| NodeTypes.SocketPropsNeedId | src/data/node_types/socket.rs:43-82 | without the id the written properties are refused at the first check |
| NodeTypes.SocketDenumerate | src/data/node_types/socket.rs:97-112 | viewing a node as a socket succeeds exactly on a socket, returning it, and panics on any other kind |
| PvmDataNode.TypeNameInjective | modules/pvm-data/src/node_types.rs:74-89 | distinct roles display differently, so the displayed name identifies the role |
| PvmDataNode.ConcreteEqLaws | modules/pvm-data/src/node_types.rs:16-26 | name-only equality is reflexive, symmetric and transitive, agrees with the hash, and ignores the role and the property table |
| PvmDataNode.DataNew | modules/pvm-data/src/node_types.rs:107-134 | construction succeeds exactly when an edit-session or store-container role meets a store type, or any other role meets a type of that same role; otherwise it panics naming both; a success carries the role, type, id and UUID, and an empty metadata store by default |
| PvmDataNode.DebugStr | modules/pvm-data/src/node_types.rs:114-124 | the type name in the panic text is written between quotes, and a character is written as something other than itself exactly when it is a quote, backslash, tab, carriage return, newline or NUL |
| PvmDataNode.DebugPlain | modules/pvm-data/src/node_types.rs:114-124 | a name with none of those characters appears between quotes unchanged |
| PvmDataNode.DebugEscapesQuote | modules/pvm-data/src/node_types.rs:114-124 | a quote inside the name is escaped with a backslash, so it cannot end the quoted name early |
| PvmDataNode.AdmittedRoles | modules/pvm-data/src/node_types.rs:114-126 | a store type admits exactly the store, edit-session and store-container roles; an edit-session or store-container type admits none; any other type admits only its own role |
| PvmDataNode.Generate | modules/pvm-data/src/node_types.rs:170-177 | a generated name node keeps the id, and is a path node exactly when the name is a path |
| PvmDataNode.GenerateRoundTrip | modules/pvm-data/src/node_types.rs:161-177 | generation keeps the payload: the node's name is the one it was generated from, and get_db_id returns the given id |
| PvmDataNode.GetDbId | modules/pvm-data/src/node_types.rs:34-41 | a graph node's id is its data node's id or its name node's id |
| Neo4jGlue.IntoUuid | src/neo4j_glue/mod.rs:28-35 | a UUID is read only from a String value, through the external parser; any other value gives none |
| Neo4jGlue.IntoId | src/neo4j_glue/mod.rs:65-72 | an id is read exactly from an Integer value, unchanged |
| Neo4jGlue.OpValInjective | src/neo4j_glue/mod.rs:49-59 | the five operations are written as five distinct strings |
| Neo4jGlue.Labels | src/neo4j_glue/mod.rs:84-100 | every node is labelled "Node" first; a data node adds exactly its kind, a name node "Name" and its form |
| Neo4jGlue.DataProps | src/neo4j_glue/mod.rs:101-119 | a data node's properties always include its UUID as text, and never db_id |
| Neo4jGlue.ToDb | src/neo4j_glue/mod.rs:77-81 | a node is written with its id, its labels and its properties plus "db_id" set to its id, overriding any property of that name |
| Neo4jGlue.RelToDb | src/neo4j_glue/mod.rs:133-152 | a flow relationship is written with its id and a map of exactly src, dst, type "INF" and a property map of exactly db_id, pvm_op, generating_call and byte_count |
| Neo4jGlue.Field | src/neo4j_glue/mod.rs:164-171 | a property read succeeds exactly when the key is present and its value casts, returning the cast value; otherwise it gives that property's message |
| Neo4jGlue.ProcessInitFrom | src/neo4j_glue/mod.rs:228-245 | a process's init record is read exactly when cmdline, pid and thin are present and well typed |
| Neo4jGlue.SocketInitFrom | src/neo4j_glue/mod.rs:247-268 | a socket's init record is read exactly when class (a known discriminant), path, ip and a 16-bit port are present and well typed |
| Neo4jGlue.FirstLabel | src/neo4j_glue/mod.rs:173-186 | the kind chosen is the first of Process, File, EditSession, Socket, Pipe, Ptty found among the labels, and none exactly when no kind label is present |
| Neo4jGlue.BuildKind | src/neo4j_glue/mod.rs:173-184 | a node built for a chosen kind carries the id and UUID read and is of that kind |
| Neo4jGlue.KindFrom | src/neo4j_glue/mod.rs:173-187 | a node built from the labels is of the first kind found; with no kind label it is the no-known-type error |
| Neo4jGlue.FromNode | src/neo4j_glue/mod.rs:164-189 | db_id is the first property checked; a success carries the db_id and the UUID read, and is of the first kind found among the labels |
| Neo4jGlue.FromValue | src/neo4j_glue/mod.rs:160-189 | the driver's node decoding runs first and its error is returned as is; after it the db_id check comes first, and a success carries the db_id and is of the first kind found among the labels |
| Neo4jGlue.LabelsSelectKind | src/neo4j_glue/mod.rs:84-186 | the labels a data node is written with select its own kind |
| Neo4jGlue.BuildProcess | src/neo4j_glue/mod.rs:108-245 | the properties written for a process are read back as its cmdline, pid and thin flag |
| Neo4jGlue.SocketWritten | src/neo4j_glue/mod.rs:111-114 | a socket is written with its class as its discriminant, its path, ip and port |
| Neo4jGlue.SocketRead | src/neo4j_glue/mod.rs:247-268 | a map holding a socket's four fields, the class as its discriminant, reads back as that socket's init record |
| Neo4jGlue.BuildSocket | src/neo4j_glue/mod.rs:111-268 | the properties written for a socket are read back as the same socket |
| Neo4jGlue.BuildRoundTrip | src/neo4j_glue/mod.rs:101-280 | for every kind, the properties written rebuild the node's own fields |
| Neo4jGlue.ValueRoundTrip | src/neo4j_glue/mod.rs:77-189 | a value the driver decodes to the labels and properties written for a data node reads back as that node, provided the UUID parser reads back what the renderer wrote |
| Neo4jGlue.DataRoundTrip | src/neo4j_glue/mod.rs:77-189 | every data node written decodes back to itself, provided the UUID parser reads back what the renderer wrote |
| Neo4jGlue.UnknownKindRejected | src/neo4j_glue/mod.rs:185-187 | a node with a valid id and UUID but no kind label is the no-known-type error |
| ViewPending.AddNode | src/neo4j_glue/neo4j_view.rs:177-179 | buffering a creation adds its id, holding exactly its labels and properties, and leaves every other pending creation as it was |
| ViewPending.UpdateNode | src/neo4j_glue/neo4j_view.rs:180-188 | an update is absorbed (nothing handed back) exactly when a creation of that id is pending, and then replaces only that creation's properties; otherwise the buffer is unchanged and the properties are handed back |
| ViewPending.CreateThenUpdate | src/neo4j_glue/neo4j_view.rs:177-188 | a creation followed by an update of the same id equals one creation carrying the updated properties, with nothing handed back |
| ViewPending.UpdatePending | src/neo4j_glue/neo4j_view.rs:215-222 | a relationship update is absorbed exactly when a creation of that id is pending, replacing only that entry; otherwise the data is handed back and nothing changes |
| ViewPending.AddUpdate | src/neo4j_glue/neo4j_view.rs:244-270 | an update buffer keeps the latest value per id, changes no other id, and reports new exactly when the id was not pending |
| ViewPending.AddUpdateTwice | src/neo4j_glue/neo4j_view.rs:244-246 | two updates of one id leave only the second value and count as new at most once |
| ViewPending.Pace | src/neo4j_glue/neo4j_view.rs:122-132 | a flush happens exactly when the write count exceeds (batches + 1) times 1000 and a commit exactly when it exceeds (transactions + 1) times 100000, each advancing its own counter by one |
| ViewPending.PaceKeepsPaced | src/neo4j_glue/neo4j_view.rs:122-132 | with at most one more write per event, the write count never runs more than one past the next batch boundary |
| Neo4jView.StartInv | src/neo4j_glue/neo4j_view.rs:55-64 | the empty buffers and zero counters satisfy the view's invariant |
| Neo4jView.Buffer | src/neo4j_glue/neo4j_view.rs:89-121 | creations always count one write; an update counts exactly when it is neither absorbed by a pending creation nor replaces a pending update; each event lands in its own buffer, and the relationship-update statistics grow as the source counts them |
| Neo4jView.Step | src/neo4j_glue/neo4j_view.rs:87-133 | one event sends at most one flush and one commit, each matched by its counter; a flush sends exactly what was pending and empties the buffers |
| Neo4jView.StepKeepsInv | src/neo4j_glue/neo4j_view.rs:87-133 | the invariant is kept, so a flush never sends more than 1001 buffered writes |
| Neo4jView.Run | src/neo4j_glue/neo4j_view.rs:87-133 | over a stream, the flushes and commits sent match the counters, and the write count grows by at most one per event |
| Neo4jView.Process | src/neo4j_glue/neo4j_view.rs:87-144 | after the final flush and commit nothing is pending, there is one more flush than counted batches, the stream ends with a flush then a commit, and the relationship-update statistics are ordered base >= into-nodes >= executed |
| Neo4jView.CreateThenUpdateOneWrite | src/neo4j_glue/neo4j_view.rs:89-109 | a node created then updated before the next flush is one pending creation with the updated properties, counted once |
| Neo4jView.UpdatesCoalesce | src/neo4j_glue/neo4j_view.rs:102-246 | two updates of a node with no pending creation are one pending update with the last value, counted once |
| PersistView.Labels | src/ingest/persist/neo4j_view.rs:48 | a label list is sent as a list of the same strings in the same order |
| PersistView.RelRecord | src/ingest/persist/neo4j_view.rs:51-55 | a relationship is sent with its properties plus src, dst and type from the event, overriding properties of those names and keeping all others |
| PersistView.StartInv | src/ingest/persist/neo4j_view.rs:36-42 | the empty buffers and zero counters satisfy the view's invariant |
| PersistView.Buffer | src/ingest/persist/neo4j_view.rs:44-163 | every event counts one write except an update absorbed by a pending creation; relationships and unabsorbed updates are appended in arrival order |
| PersistView.Step | src/ingest/persist/neo4j_view.rs:43-75 | one event sends at most one flush and one commit, each matched by its counter; a flush sends exactly what was pending and empties the buffers |
| PersistView.StepKeepsInv | src/ingest/persist/neo4j_view.rs:43-75 | the invariant is kept, so a flush never sends more than 1001 buffered writes |
| PersistView.Run | src/ingest/persist/neo4j_view.rs:43-75 | over a stream, the flushes and commits sent match the counters, and the write count grows by at most one per event |
| PersistView.Process | src/ingest/persist/neo4j_view.rs:35-85 | after the final flush and commit nothing is pending, there is one more flush than counted batches, and the stream ends with a flush then a commit |
| PersistView.UpdatesNotCoalesced | src/ingest/persist/neo4j_view.rs:58-163 | two updates of a node with no pending creation are both kept, in order, and both counted |
| PersistLoop.StartInv | src/ingest/persist.rs:93-98 | the empty buffers and zero counters satisfy the loop's invariant |
| PersistLoop.Buffer | src/ingest/persist.rs:112-127 | every event counts one write except an update absorbed by a pending creation; relationships and unabsorbed updates are appended in arrival order |
| PersistLoop.Pace | src/ingest/persist.rs:128-137 | a flush happens exactly when the write count has reached queries times 1000, a commit exactly when it exceeds transactions times 100000 |
| PersistLoop.Step | src/ingest/persist.rs:111-138 | one event sends at most one flush and one commit, each matched by its counter; a flush sends exactly what was pending and empties the buffers |
| PersistLoop.StepKeepsInv | src/ingest/persist.rs:111-138 | the invariant is kept; a flush sends at most 1000 writes, and every flush after the first fires exactly when the write count reaches a multiple of 1000 |
| PersistLoop.FirstEventFlushesAndCommits | src/ingest/persist.rs:128-137 | from the start, the first event is flushed on its own and committed at once |
| PersistLoop.Run | src/ingest/persist.rs:111-138 | over a stream, the flushes and commits sent match the counters, and the write count grows by at most one per event |
| PersistLoop.Process | src/ingest/persist.rs:92-149 | after the final flush and commit nothing is pending, flushes and commits match their counters, and a non-empty stream has at least two of each |
| CsvView.UnescapeEscape | src/neo4j_glue/csv_view.rs:62-64 | doubling every double quote loses nothing: un-doubling gives the original text back |
| CsvView.EscapeUnescape | src/neo4j_glue/csv_view.rs:62-64 | every body that un-doubles is exactly the doubling of what it reads as, so the encoding has one form per text |
| CsvView.WriteStr | src/neo4j_glue/csv_view.rs:62-64 | a quoted field is written as a comma, an opening quote, the body and a closing quote |
| CsvView.WriteStrRoundTrip | src/neo4j_glue/csv_view.rs:62-64 | a quoted field reads back as the original text |
| CsvView.WriteStrInjective | src/neo4j_glue/csv_view.rs:62-64 | two texts are written as the same field exactly when they are equal |
| CsvView.FormatU64 | src/neo4j_glue/csv_view.rs:251-257 | an id is written as the signed 64-bit integer with the same bits: unchanged below 2^63, less 2^64 from there |
| CsvView.FormatU64RoundTrip | src/neo4j_glue/csv_view.rs:251-257 | reading the signed value's bits as unsigned gives the id back |
| CsvView.FName | src/neo4j_glue/csv_view.rs:264-281 | every node is written to a file whose name ends in ".csv" |
| CsvView.FNameRoundTrip | src/neo4j_glue/csv_view.rs:264-281 | a node's file name reads back as its kind and, for data and context nodes, its type name |
| CsvView.SameFileSameClass | src/neo4j_glue/csv_view.rs:264-281 | two nodes share a file exactly when they have the same kind and type name |
| CsvView.Lab | src/neo4j_glue/csv_view.rs:283-299 | every node's label list starts with "Node;" |
| CsvView.LabelsFollowFiles | src/neo4j_glue/csv_view.rs:264-299 | all nodes of one file carry the same labels, and data nodes carry the same labels exactly when they have the same role |
| CsvView.RelFilesByKind | src/neo4j_glue/csv_view.rs:302-316 | two relationships share a file exactly when they are of the same kind, and exactly when they carry the same type column |
| CsvView.Collect | src/neo4j_glue/csv_view.rs:98-113 | every kept item arrived in the stream and sits under its own file and id |
| CsvView.LastWriteWins | src/neo4j_glue/csv_view.rs:98-113 | an item with no later item of the same file and id is the one kept: the last version wins |
| CsvView.CollectCovers | src/neo4j_glue/csv_view.rs:98-113 | every item that arrived is represented in its file under its id |
| CsvView.RowFitsHeader | src/neo4j_glue/csv_view.rs:170-245 | every node's record has exactly one field per column of the header its kind selects, starting with its id and labels |
| CsvView.RelRowFitsHeader | src/neo4j_glue/csv_view.rs:143-167 | every relationship's record has exactly one field per column of the header its kind selects |
| CsvView.Body | src/neo4j_glue/csv_view.rs:195-243 | a file's body holds one record per node, first the first node's, and no header line |
| CsvView.NodeFile | src/neo4j_glue/csv_view.rs:167-245 | a node file is empty exactly when its table is; otherwise it opens with the header the first node selects, followed by its record, and carries exactly one record per node and no other header |
| CsvView.RelFile | src/neo4j_glue/csv_view.rs:140-167 | a relationship file is the header its first record selects, then one record per relationship in table order |
| NumText.Render | src/trace/cadets.rs:197 | a rendering has at least one digit of the base and no leading zero |
| NumText.ParseNat | src/trace/cadets.rs:382 | a text reads as a number exactly when it is a non-empty run of digits of the base |
| NumText.Decimal | src/trace/cadets.rs:197 | a signed integer's text starts with '-' exactly when it is negative |
| NumText.EvalRender | src/trace/cadets.rs:197 | the value of a rendering is the number rendered |
| NumText.RenderRoundTrip | src/trace/cadets.rs:197 | parsing a rendering gives the number back |
| NumText.RenderInjective | src/trace/cadets.rs:197 | two numbers render the same exactly when they are equal |
| NumText.DecimalRoundTrip | src/trace/cadets.rs:197 | decimal text of any integer, negative included, reads back as that integer |
| NumText.OctalRoundTrip | src/trace/cadets.rs:382 | a mode written in octal reads back as the mode |
| NumText.OctalDigitsOnly | src/trace/cadets.rs:382 | octal text holds only the digits 0 to 7 |
| PvmCalls.Field | src/ingest/parse.rs:10-26 | a required trace field gives its value exactly when present; when absent the parse stops with MissingField naming the event and the field, keeping the calls already made |
| Cadets.OptSockName | src/trace/cadets.rs:149-158 | a socket's name is its path when upath1 is present, else its network address when a port is present (the address then being required), else none |
| Cadets.SockName | src/trace/cadets.rs:160-169 | a required socket name succeeds exactly when a path or a port with an address is present; with neither it is MissingField "upath1, port" |
| Cadets.Exec | src/trace/cadets.rs:171-189 | execve needs cmdline, arg_objuuid1, upath1, arg_objuuid2 and upath2, failing on the first missing in that order before any call; on success the binary and the loader are named by their paths, the subject's cmdline is set, and the only flows are the two reads from binary and loader |
| Cadets.Fork | src/trace/cadets.rs:191-200 | fork needs ret_objuuid1; the child is declared, inherits the parent's metadata at the event time, gets the return value as its pid, and data flows from the parent into it and nowhere else |
| Cadets.Open | src/trace/cadets.rs:207-215 | an open that returned no object records nothing; one that did fails exactly when upath1 is missing, otherwise declares the file and names it by its path |
| Cadets.Transfer | src/trace/cadets.rs:217-241 | read and write need arg_objuuid1; the file is named exactly when fdpath is present and not "<unknown>", and the one flow is the read or write-session start carrying the return value as byte count |
| Cadets.Close | src/trace/cadets.rs:243-249 | close never fails; with an object it ends the subject's write session on it and records no other flow |
| Cadets.DeclareOne | src/trace/cadets.rs:251-425 | socket, listen and posix_openpt declare exactly one object from the field they read, failing with that field's name when it is absent |
| Cadets.Bind | src/trace/cadets.rs:263-284 | bind and connect need arg_objuuid1; the socket is declared before its name is read, so a missing name stops after the declaration |
| Cadets.Accept | src/trace/cadets.rs:270-277 | accept succeeds exactly when both sockets and a name are present; it declares the listening socket, then the accepted one, and names the accepted one |
| Cadets.MmapFlows | src/trace/cadets.rs:292-306 | a write session starts exactly for a writable mapping that is not private, and a read is recorded exactly for a readable mapping; no other flow |
| Cadets.Mmap | src/trace/cadets.rs:286-308 | mmap needs arg_objuuid1 and records exactly the flows its protection and sharing flags call for |
| Cadets.Pair | src/trace/cadets.rs:310-326 | socketpair and pipe need both returned ends, declare both and end by connecting them, with no flow |
| Cadets.Message | src/trace/cadets.rs:328-366 | send and receive need arg_objuuid1 and a well-formed optional name; the socket is named exactly with the name the record carries, and the one flow carries the return value as byte count |
| Cadets.Chdir | src/trace/cadets.rs:368-375 | chdir needs arg_objuuid1 and names the directory exactly by upath1 when present |
| Cadets.Chmod | src/trace/cadets.rs:377-386 | chmod needs arg_objuuid1, upath1 and mode in that order; it sets the mode as octal text that reads back as the mode, names the file and records the subject's write |
| Cadets.Chown | src/trace/cadets.rs:388-399 | chown needs arg_objuuid1, upath1, arg_uid and arg_gid in that order; it sets owner uid and gid as decimal text that reads back, names the file and records the subject's write |
| Cadets.Fchmod | src/trace/cadets.rs:401-408 | fchmod needs arg_objuuid1 and mode; it sets the octal mode and starts a write session, with no name |
| Cadets.Fchown | src/trace/cadets.rs:410-419 | fchown needs arg_objuuid1, arg_uid and arg_gid; it sets owner uid and gid and starts a write session, with no name |
| Cadets.Link | src/trace/cadets.rs:427-435 | link needs arg_objuuid1, upath1 and upath2, and leaves the file named by exactly both paths |
| Cadets.Rename | src/trace/cadets.rs:437-449 | rename needs arg_objuuid1, upath1 and upath2; the source loses its old path, a file being overwritten loses the new path, and the source then takes it |
| Cadets.Unlink | src/trace/cadets.rs:451-457 | unlink needs arg_objuuid1 and upath1 and removes exactly that path from the file |
| Cadets.SetId | src/trace/cadets.rs:473-499 | an identity of the subject is set to the value given, as decimal text, unless the value is -1 |
| Cadets.SetAll | src/trace/cadets.rs:459-513 | setuid, setgid, seteuid and setegid need their field and set every listed identity to it unconditionally |
| Cadets.SetRe | src/trace/cadets.rs:473-525 | setreuid and setregid need both fields and set real then effective identity, each exactly when not -1 |
| Cadets.SetRes | src/trace/cadets.rs:485-541 | setresuid and setresgid need all three fields and set real, effective and saved identity, each exactly when not -1 |
| Cadets.Setlogin | src/trace/cadets.rs:543-547 | setlogin needs login and sets exactly the subject's login_name |
| Cadets.SubjectMeta | src/trace/cadets.rs:552-554 | the subject's initial metadata holds the executable as cmdline and the pid as text |
| Cadets.ParseAudit | src/trace/cadets.rs:549-606 | every record starts with the context and subject declaration; an unknown event is noted as unparsed with no error, dup2 does nothing more, and a known handler never notes an unparsed event |
| Cadets.Parse | src/trace/cadets.rs:673-678 | an FBT record makes no call; an audit record starts with its prologue, and an unknown event name is not an error |
| Cadets.UnparsedIffUnknown | src/trace/cadets.rs:556-604 | a record is noted as unparsed exactly when no handler knows its event name |
| Cadets.SubjectSeeded | src/trace/cadets.rs:549-555 | every record first sets the context and declares its subject with the executable as a heritable cmdline and its pid, readable back as the record's pid, as not heritable |
| Clearscope.Init | src/trace/clearscope.rs:471-478 | the six concrete types are registered, each once, with distinct names |
| Clearscope.MkUuid | src/trace/clearscope.rs:54-56 | a 32-bit id becomes the uuid of the same value, below 2^32 |
| Clearscope.MkUuidInjective | src/trace/clearscope.rs:54-56 | two ids give the same uuid exactly when they are equal |
| Clearscope.Objects | src/trace/clearscope.rs:226-245 | an event's objects are exactly its predicates other than the program itself, the second one only when it differs from the first, so there are at most two and they differ |
| Clearscope.ParseEvent | src/trace/clearscope.rs:224-266 | an event first declares its program, and makes only declarations and flows |
| Clearscope.EventDeclares | src/trace/clearscope.rs:225-245 | an event declares as objects exactly the ones it involves, all without metadata |
| Clearscope.EventFlows | src/trace/clearscope.rs:246-264 | a source event records a read of every involved object by the program and a sink event a write to each; a plain event records no flow, and no flow carries a byte count |
| Clearscope.EventNoSelfFlow | src/trace/clearscope.rs:226-264 | an event never records a flow between the program and itself |
| Clearscope.EventCallsDistinct | src/trace/clearscope.rs:236-245 | an event makes no call twice, even when both predicates name the same object |
| Clearscope.ParseProgram | src/trace/clearscope.rs:288-296 | a program definition declares the program and then sets, in order, host_uuid, pname, pid, ppid, uid and start_time on it |
| Clearscope.ProgramKeysAreProps | src/trace/clearscope.rs:288-296 | the keys a program definition sets are exactly the program type's properties |
| Clearscope.ProgramMetaRoundTrip | src/trace/clearscope.rs:290-295 | each value set reads back as its field: the host as the hyphenated uuid of its id, the numbers as decimal |
| Clearscope.ProvUuid | src/trace/clearscope.rs:314 | a link's object uuid is its signed type id reinterpreted as unsigned 32-bit |
| Clearscope.ParseProv | src/trace/clearscope.rs:312-326 | a link declares the program and, as a file, the object keyed by the type id, then records one flow between them in the link's direction |
| Clearscope.ProvIgnoresId | src/trace/clearscope.rs:312-326 | the link's own id does not affect what it records |
| Clearscope.LocalPort | src/trace/clearscope.rs:404 | a network object's port is the recorded port truncated to 16 bits: unchanged in range, congruent modulo 2^16 otherwise |
| Clearscope.PortWraps | src/trace/clearscope.rs:404 | port 65616 is named as 80 and port -1 as 65535 |
| Clearscope.ParseProvType | src/trace/clearscope.rs:380-418 | a general or packet-socket object records nothing; a file is declared, named by its path and given permissions, file type and size when known; a network object is named by address and 16-bit port and given its protocol; a pipe gets its unique id; a binder its kind |
| Clearscope.Parse | src/trace/clearscope.rs:480-492 | no message stops with an error; the five ignored messages make no call; every other message that records something starts with a declaration |
| Clearscope.ProgramWellTyped | src/trace/clearscope.rs:288-296 | a program definition declares only registered types and sets only properties of the type declared, on the node declared |
| Clearscope.ProvTypeWellTyped | src/trace/clearscope.rs:380-418 | a provenance type declares only registered types and sets only properties of the type declared, on the node declared |
| Clearscope.EventWellTyped | src/trace/clearscope.rs:224-266 | an event declares only registered types and sets no metadata |
| Clearscope.ParseWellTyped | src/trace/clearscope.rs:480-492 | every message declares only registered types and sets only properties of its first declared node's type |
| IngestParse.NewNodeDefaults | src/data/node_types/process.rs:40-46 | a process declared with no initial fields has an empty command line, pid 0 and is thin; a socket has unknown class, empty path and ip and port 0 |
| IngestParse.Need | src/ingest/parse.rs:10-26 | a required trace field gives its value exactly when present; when absent the handler stops with MissingField naming the event and the field, in the state already reached |
| IngestParse.Emit | src/ingest/parse.rs:10-26 | recording builder actions only appends them, leaving the nodes and the checked-out set as they were |
| IngestParse.Declare | src/ingest/pvm.rs:69-78 | declaring succeeds exactly when the uuid is not already checked out; a known uuid yields its current node and records nothing, an unknown one adds a node with the initial fields; either way the node is now checked out and no other node changes |
| IngestParse.DeclareIgnoresInit | src/ingest/pvm.rs:73-77 | a known uuid's declaration does not depend on the initial fields offered |
| IngestParse.Exec | src/ingest/parse.rs:47-83 | exec needs cmdline, arg_objuuid1, upath1, arg_objuuid2 and upath2 in that order; it names the binary and the linker; a thin subject is completed in place with the new command line, any other process gets a new version fed by the old one; both then read binary and linker |
| IngestParse.ExecFiles | src/ingest/parse.rs:54-58 | exec's files are declared and named; this fails exactly when either is already checked out or they are the same, and changes no existing node |
| IngestParse.ExecProcess | src/ingest/parse.rs:60-81 | a subject that is not a process panics; a thin one is rewritten in place, a fat one gets a new version recorded as fed by the old one, each followed by the binary and linker reads |
| IngestParse.Fork | src/ingest/parse.rs:85-99 | fork needs ret_objuuid1; the child becomes a thin process with the return value as pid and the parent's command line, fed by the parent; it panics when either is not a process |
| IngestParse.Exit | src/ingest/parse.rs:101-104 | exit makes the builder forget the subject's node and changes no other |
| IngestParse.Added | src/ingest/pvm.rs:73-77 | a declaration adds a node exactly when the uuid is unknown, and then only that one |
| IngestParse.DeclareThen | src/ingest/pvm.rs:69-78 | declaring then acting succeeds exactly when the uuid is free, records the addition if any then the actions, and changes no other node |
| IngestParse.Open | src/ingest/parse.rs:106-114 | an open with no returned object does nothing; one with an object needs upath1, declares the file and names it |
| IngestParse.TransferActs | src/ingest/parse.rs:116-156 | read and write name the file exactly when fdpath is resolved, and end with the read or write-session flow carrying the return value as an unsigned 64-bit byte count |
| IngestParse.Transfer | src/ingest/parse.rs:116-156 | read and write need arg_objuuid1 and succeed exactly when the file can be declared |
| IngestParse.Close | src/ingest/parse.rs:158-164 | close without an object does nothing; with one it declares the file and ends the subject's write session on it |
| IngestParse.DeclareOne | src/ingest/parse.rs:166-356 | socket, listen and posix_openpt need their uuid field and only declare that node |
| IngestParse.Chdir | src/ingest/parse.rs:311-318 | chdir needs arg_objuuid1, declares the directory and names it exactly when upath1 is present |
| IngestParse.Chmod | src/ingest/parse.rs:320-336 | chmod and chown need arg_objuuid1 and upath1, name the file and record the subject's write |
| IngestParse.Fchmod | src/ingest/parse.rs:338-350 | fchmod and fchown need arg_objuuid1 and start the subject's write session on the file |
| IngestParse.MmapActs | src/ingest/parse.rs:229-246 | mmap names the file exactly when fdpath is present (even unresolved), starts a write session exactly for a shared writable mapping and records a read exactly for a readable one |
| IngestParse.Mmap | src/ingest/parse.rs:227-249 | mmap needs arg_objuuid1 and succeeds exactly when the file can be declared |
| IngestParse.SocketAddr | src/ingest/parse.rs:28-45 | only a socket of unknown class is addressed: by upath1 as a Unix socket, else by port and the then required address as an internet socket; it reports whether it changed the socket and otherwise changes nothing |
| IngestParse.AddressSticky | src/ingest/parse.rs:29-30 | a socket whose class is known is never changed by addressing |
| IngestParse.SockActs | src/ingest/parse.rs:180-307 | a socket operation rewrites the socket's properties exactly when its address changed, and records exactly the message flow asked for, last |
| IngestParse.AddrThen | src/ingest/parse.rs:178-309 | after declaring, a socket operation fails exactly when an unaddressed socket gets a port without an address |
| IngestParse.SockCore | src/ingest/parse.rs:178-309 | a socket operation panics when the socket is checked out, fails on a port without address, and otherwise records the declaration, the address change and the flow |
| IngestParse.SockOp | src/ingest/parse.rs:178-309 | bind, connect, send and receive need arg_objuuid1 and then behave as the socket operation on it |
| IngestParse.Accept | src/ingest/parse.rs:187-216 | accept needs arg_objuuid1 and ret_objuuid1; a port without address fails; a new accepted socket is created already addressed by the peer's path or address; neither socket stays checked out, so the listening and returned socket may be the same |
| IngestParse.AcceptedSocket | src/ingest/parse.rs:191-214 | the accepted socket is a Unix socket on upath1, else an internet socket on the address and port, else unaddressed |
| IngestParse.SocketPair | src/ingest/parse.rs:251-258 | socketpair needs both returned uuids, succeeds exactly when both distinct sockets can be declared, and ends by connecting them |
| IngestParse.PipePair | src/ingest/parse.rs:260-269 | pipe needs ret_objuuid1, ret_fd1, ret_objuuid2 and ret_fd2 in that order; new ends get their descriptors, and they are connected |
| IngestParse.LookupFinds | src/ingest/parse.rs:369-405 | an event name selects a handler exactly when some entry of the dispatch table carries it |
| IngestParse.LookupFirst | src/ingest/parse.rs:369-405 | the first table entry carrying a name decides its handler |
| IngestParse.Seed | src/ingest/parse.rs:361-368 | the subject is declared first, as a thin process with the record's pid and executable when new; it is then the only node checked out |
| IngestParse.SeedDeclares | src/ingest/parse.rs:361-368 | the seeding step is exactly the builder's declaration of the subject from a state with nothing checked out |
| IngestParse.ParseTrace | src/ingest/parse.rs:358-410 | an FBT record changes nothing; an unknown event name is remembered as unparsed without error, dup2 does nothing after the subject; only exit can remove a node; a known handler's outcome is its result, with its effects kept on error |
| IngestParse.HandleSteps | src/ingest/parse.rs:47-401 | every handler but exit only extends the state, whether it finishes or fails: nodes stay, guards are only taken and actions only appended; exit forgets the subject and appends its release; dup2 changes nothing |
| IngestParse.KeepsSeed | src/ingest/parse.rs:361-368 | declaring the subject keeps every node the builder had |
| IngestParse.ExecThinInPlace | src/ingest/parse.rs:60-68 | exec of a process first seen at that record completes its thin node in place, with no new version |
| IngestParse.ExecFatVersions | src/ingest/parse.rs:69-81 | exec of a fat process adds a new version fed by the old one, the binary and the linker |
| IngestParse.ForkChild | src/ingest/parse.rs:85-99 | a child new to the builder is a thin process with the fork's return value as pid and the parent's command line, fed by the parent |
| IngestParse.ReadOfSubjectPanics | src/ingest/parse.rs:116-119 | a read whose file is the subject itself panics, because the subject is already checked out |
| IngestParse.ExitForgets | src/ingest/parse.rs:101-104 | exit forgets the subject's node whatever it was, makes no other change and ends with the release |

## Left out

- The ring channel between the parser and the engine (`libopus.cpp/src/include/utils/ring.h`) is left out. Its purpose is lock-free concurrency, which a sequential model cannot express.
- Database I/O is not modelled.
  - This covers Cypher and Bolt execution, transactions, index creation and the `execute` bodies of the views.
  - A flush is modelled as the batch it would send, and a commit as a marker in the output.
  - `libopus.cpp/src/lib/db_tr.cpp`, `src/neo_wrap.rs` and the query modules are not part of this model.
- Threads, pools, barriers, channels and the view coordinator are not modelled. A channel send is an element of the emitted sequence. In the older library, whether the worker's queue is still open is a parameter.
- The FFI, the CLI, configuration, OS probing and the C headers are not modelled. They are I/O around the core.
- Profiling, clocks and timing macros are left out. Times are opaque values compared only for equality.
- Cypher text rendering is left out. Its output depends on hash-map iteration order.
- Serde-derived records and `Display` formatting are left out, because they hold no hand-written logic. The records appear as Dafny datatypes of their fields.
- External components appear as parameters or as concrete stand-ins.
  - The JSON tokenizer's output is a token sequence.
  - The hasher is a function parameter.
  - The `uuid` crate's parser and renderer are function parameters.
  - `u128::from_str_radix(_, 16)` is a concrete hex-digit parse.
- Floating-point database values are not modelled.
- The CSV archive, the hydration script and the text of unquoted numbers are not modelled. A CSV record is its list of fields, and the iteration order of a file's table is a parameter.
- IngestParse: several builder reactions are recorded only as actions and not carried out.
  - The builder's reaction to each call is not modelled. This covers versioning, the flow cache, database writes and `prop_rel`.
  - `prop_node`, `prop_rel` and `connect` are not defined in `src/ingest/pvm.rs`.
  - `src/ingest/parse.rs:125` expects a relationship back from `source`, which returns nothing.
- IngestParse: a guard bound to a name is released when its handler returns, and the model keeps it checked out until the record ends. The unbound guards of socket, listen, accept and posix_openpt (src/ingest/parse.rs:168, 174, 190-214 and 354) are released at the end of their own statement. Accept models this by checking both sockets back in at once. In socket, listen and posix_openpt nothing follows the declaration, so keeping that guard until the record ends changes nothing.
- Uuid.FromStr: lengths and slices count characters. The source counts bytes, so the two agree on ASCII text only. Non-ASCII input is not modelled; there, slicing at a byte that is not a character boundary would panic.
- CsvView.Row: a context node carries one content per field of its type. The panic of `c.cont[f]` (src/neo4j_glue/csv_view.rs:212) when a field is missing is not modelled.
- PvmDataNode.DebugStr: escapes the quote, the backslash, tab, carriage return, newline and NUL. The `\u{…}` escapes Rust's `Debug` writes for other non-printable characters are not modelled.
- IngestParse.TransferActs: the flow carries the return value, reinterpreted as an unsigned 64-bit integer, as its byte count. The source adds it to the relationship's existing count, which can overflow; that sum is not modelled, because the relationship is the builder's.
- IngestParse: the text of a panic (the `Debug` form of the store's error) is reduced to the error value.
- IngestParse: a trace uuid is keyed as a single 128-bit value. The pair form of the uuid type never arises from a trace field.
- Clearscope.Parse: the `?` after each metadata call is not modelled, so no message stops with an error. The builder's `meta` is not part of this model.
- Clearscope: a binder's kind is carried as the text of its `Debug` form, which is computed outside the model. The fields of network objects other than address, port and protocol are never read by the source and are not modelled.
- CppPvm.Parse: its contract only bounds the number of operations. What each event emits is stated by the per-event lemmas (`CppPvm.ExecveThin`, `CppPvm.ForkNewChild` and the others).
- Data.ProcessToDb: its contract states the property keys only. Their contents are stated by `Data.ProcessRoundTrip`.

## Findings

| source | as written | input that shows it | evidently intended | confidence | as-written member | corrected member |
|---|---|---|---|---|---|---|
| modules/pvm-data/src/meta_store.rs:63-66 | the offset of a value's time is narrowed to a `u8`, so the 257th distinct time gets offset 0 | a store that already lists 256 distinct times, updated with a new value at a new time | the offset finds the time it was given, whatever the number of times listed | not executed | MetaStore.AsWrittenOffsetWraps | MetaStore.UpdateLatestTime |
