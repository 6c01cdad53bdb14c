# Verified model of the work tracker's packet system

An event-sourced packet tracker, from its shared log up to the file it publishes. Any number of
trackers cache one append-only log; commands are compare-and-set batches of events; drafts become
packets; packets supersede one another; an exporter reads them while others write; a publisher keeps
one public file fresh; a reader holds verified copies and derives one snapshot, which three levels of
views count. The model follows the Go sources module by module. Objects that change (stores, tracker,
importer, workspace, publisher, reader) are classes with the source's fields and methods; each method
is proved against a specification, and the specifications carry the lemmas about whole runs.

`dafny verify dfyconfig.toml` checks everything with Dafny 4.11.

## How to read it

| module | file | source |
|---|---|---|
| Basics, PacketTypes | Basics.dfy, PacketTypes.dfy | shared values, the byte order on strings, sorting; packet/types.go |
| Lifecycle | Lifecycle.dfy | `applyEvent` and what every replay keeps |
| EventLog, EventStore | EventLog.dfy, EventStore.dfy | the log as a value; packet/store.go |
| TrackerCache, Tracking | TrackerCache.dfy, Tracker.dfy | packet/tracker.go |
| Commands, Supersession, Protocol | Commands.dfy, Supersession.dfy, Protocol.dfy | what commands do to the log; chains; interleavings |
| FirestoreStore, FirestoreRuns | Firestore.dfy, FirestoreRuns.dfy | eventstore/firestore.go, and trackers running over it |
| RepositoryReplay | RepositoryReplay.dfy | repositorypacket/load.go |
| PacketExport, RecordJson, PacketFile | PacketExport.dfy, RecordJson.dfy, PacketFile.dfy | packetexport/export.go: records, their JSON, the file |
| Publishing | Publisher.dfy | packetpublisher/publisher.go |
| Reading, Tenants | Reader.dfy, Tenants.dfy | runtimeexport/reader.go; tenant/directory.go |
| CanonicalJson, CanonicalProofs, CanonicalPrinter, Envelopes | CanonicalJson.dfy, CanonicalProofs.dfy, CanonicalPrinter.dfy, Envelope.dfy | contract/envelope.go |
| StructJson | StructJson.dfy | how encoding/json writes and reads a struct |
| PacketNames, Authoring, AuthoringRuns | PacketNames.dfy, Workspace.dfy, AuthoringRuns.dfy | authoring/workspace.go |
| Views | Views.dfy | surface/view.go |

Four ideas connect the modules.

- *The log decides.* `Commands.Admits` says, in terms of the log alone, when a command succeeds.
  Each command of the `Tracker` class is a refresh and a second half whose contract, `Commands.Ran`,
  is the very step `Protocol` interleaves. `Protocol.StaleCommandsAreCurrent` shows that a command run
  from any stale cache either fails or is one the log admits, so invariants proved for admitted
  commands hold over every interleaving.
- *Loads are multisets.* Refreshing is specified on the multiset of records a store returns, so it
  does not depend on their order, and a tracker computes the same over either store.
- *A load has moments.* `TrackerCache.Glimpsed` lets each packet of a refresh be read at its own
  moment. The in-memory store's loads are the atomic case (`Protocol.AtomicIsRefresh`); Firestore sends
  one query per packet.
- *Printing has a continuation.* `CanonicalJson.Print(v, k)` is the text of `v` followed by `k`. The
  prefix lemma says where reading stops, and unambiguity and round trips follow.

Inputs the program takes from outside are parameters: clocks, event ids, draft ids, the outcome of
each request and of each release, the evidence files that exist, the tenant rule, float
formatting, reading and writing RFC 3339 times, the provenance patterns and the digest. JSON text is read as sections 2 to 7 of RFC 8259 have it.

## Where the natural statement is false

- `docs/technical-specification.md:299` lets any state become `blocked`. In the code `blocked` and
  `done` have no exit (packet/tracker.go:662-673), and the model follows the code.
- Parent and replacement links pair up in the log and in a full snapshot, not in the cache of a
  tracker that refreshed one packet: `Protocol.CachedLinksMayBeOneSided`. `Protocol.CachedLinksPair` is
  the exact condition.
- A Firestore append that expects a packet to be absent and writes nothing for it leaves a counter of
  zero, which every later read of that packet's counter refuses: `FirestoreStore.ZeroCounterWritten` is
  such a batch, `FirestoreStore.PoisonedPacketIsLost` what becomes of the packet, and
  `FirestoreStore.SoundExactlyWhenWritten` the exact condition. `FirestoreStore.StoresAgree` shows that
  no tracker sends such a batch, and `FirestoreRuns.FirestoreSimulates` that trackers never notice.
- `Renew` remembers what it observed before it releases, so a failed release is not simply retried by
  the next check: `Publishing.FailedAndNotRetried` is a history in which it is not.
  `Publishing.FailedReleaseRetried` and `Publishing.ChangedCopyReleased` say exactly when a later check
  releases, over the same copy and over a changed one; `Publishing.FailedStaysQuiet` and
  `Publishing.RetriedOnceDue` say it of whole runs.
- `VerifyIntegrity` judges one nanosecond before the expiry, and `Verify` refuses the zero time, so a
  text that expires one nanosecond after the zero time verifies before its expiry and yet fails the
  integrity check: `Envelopes.IntegrityIsVerifyAtSomeInstant`.
- `Tracker.Supersede` does not compare tenants; only the workspace keeps a chain in one tenant:
  `AuthoringRuns.CrossTenantWitness`, the exact condition `AuthoringRuns.TrackersCrossTenants`, and
  `AuthoringRuns.ChainsStayInScope`.
- A draft id that is not fresh overwrites an issued draft, and nothing else loses one:
  `AuthoringRuns.OnlyReusedIDsForget`.

## Model

| member | source | states |
|---|---|---|
| Lifecycle.ApplyKeepsLawful | packet/tracker.go:511-637 | every event `applyEvent` accepts keeps a packet lawful: evidence exactly when done and never blank, closures with a matching reason, links never to itself, and the version bounded |
| Lifecycle.ReplayLawful | packet/tracker.go:511-637 | replaying any stream that replays gives a lawful packet whose version is the length of the stream and whose id is that of its first event |
| Lifecycle.VersionBound | packet/tracker.go:511-637 | a version is at most the number of comments plus six |
| Lifecycle.FoldFrozen | packet/tracker.go:511-637 | tenant, body and parent never change after issue, comments only grow, `done` and `blocked` have no exit, and a closed packet takes nothing but comments |
| Lifecycle.FoldConcat | packet/tracker.go:511-637 | replay composes: folding a stream and then more events is folding both at once, errors included |
| Lifecycle.ReplayPrefix | packet/tracker.go:511-637 | every beginning of a stream that replays also replays |
| EventStore.ValidateAppend | packet/store.go:97-122 | accepts exactly the batches whose records own their events and continue, in order, the expected version of a packet that was named |
| EventStore.MemoryEventStore.Load | packet/store.go:42-62 | returns the records of the named packets, or all of them, in log order |
| EventStore.MemoryEventStore.VersionsCurrent | packet/store.go:68-73 | says whether every expected version is the length of that packet's stream |
| EventStore.MemoryEventStore.EventIDsFresh | packet/store.go:77-87 | says whether the batch uses each event id once and none that the log uses |
| EventStore.MemoryEventStore.Append | packet/store.go:64-95 | takes all of a batch or none of it, exactly when versions are current, positions follow and event ids are new; a conflict is reported exactly when a version is not current; the log stays contiguous from 1 with unique ids |
| EventLog.AcceptKeepsStoreLog | packet/store.go:64-122 | a log with contiguous streams and unique ids keeps both when it takes an accepted batch |
| EventLog.RepresentsUnique | packet/tracker.go:334-414 | a multiset of records determines the streams it groups into, so the order of loading cannot matter |
| EventLog.OnlyRepresents | packet/store.go:42-62 | what a load returns groups into exactly the named streams of the log |
| TrackerCache.LoadKeepsCoherent | packet/tracker.go:334-414 | a projection that agrees with replaying its streams still does after a partial or full refresh |
| TrackerCache.NextRecord | packet/tracker.go:362-371 | in sorted order the next record of an acceptable load always extends its own stream by one |
| TrackerCache.GoodRecord | packet/tracker.go:362-388 | no check of the refresh loop refuses a record of an acceptable load |
| TrackerCache.LogLoadable | packet/tracker.go:334-414 | over a sound log a refresh fails only for an empty id or for a stream that does not replay |
| TrackerCache.RefreshStaysBehind | packet/tracker.go:389-413 | after a refresh the named streams are the log's and no cached stream says more than the log |
| TrackerCache.GlimpseLoadable | packet/tracker.go:334-414 | a refresh whose packets were read at different moments of a growing, replaying log is acceptable |
| TrackerCache.GlimpseStaysBehind | packet/tracker.go:389-413 | such a refresh leaves every cached stream behind the log and as far as it was or further |
| TrackerCache.GrowthKeepsBehind | packet/tracker.go:334-414 | a cache behind the log stays behind it while others append |
| TrackerCache.BatchAccepted | packet/tracker.go:490-497 | the store takes a folded batch exactly when the versions the cache saw are current and its event ids are unused |
| TrackerCache.ExtendedCoherent | packet/tracker.go:499-508 | streams extended by a folded batch replay, own their events and use each id once |
| TrackerCache.CommitStaysBehind | packet/tracker.go:499-508 | after a successful append every touched cached stream equals the log's |
| TrackerCache.FreshBatch | packet/tracker.go:453-509 | when the touched streams are up to date, only the log decides whether a batch can be committed |
| Tracking.Gather | packet/tracker.go:362-388 | the refresh loop over sorted records succeeds exactly when, per packet, versions are 1..n once each, ids are unique, events belong to their packets and each stream replays |
| Tracking.FoldBatch | packet/tracker.go:460-489 | folding a batch on private copies succeeds exactly when each touched stream continued by its events replays and every event id is new |
| Tracking.ExtendStreams | packet/tracker.go:499-504 | the committed events extend the cached streams and ids, each in its own stream, in order |
| Tracking.Tracker.constructor | packet/tracker.go:55-66 | a new tracker has an empty, ready cache, which agrees with replay |
| Tracking.Tracker.Install | packet/tracker.go:334-414 | installs a load in any order exactly when it is acceptable, otherwise changes nothing; the cache agrees with replay either way |
| Tracking.Tracker.RefreshLocked | packet/tracker.go:334-414 | the named streams become the log's, or nothing changes at all |
| Tracking.Tracker.DropProjection | packet/tracker.go:317-324 | drops what is derived and keeps the streams |
| Tracking.Tracker.RebuildProjection | packet/tracker.go:327-332 | succeeds exactly when the whole log replays, and then every stream is the log's |
| Tracking.Tracker.PrepareLocked | packet/tracker.go:416-428 | a tracker without a projection refuses; otherwise a refresh of the named packets |
| Tracking.Tracker.CurrentLocked | packet/tracker.go:430-443 | returns the replayed packet exactly at the expected version; a conflict is reported exactly when the versions differ |
| Tracking.Tracker.AppendLocked | packet/tracker.go:453-509 | compare and set: succeeds exactly when the batch folds and the store takes it, and then log and cache grow by the same events; a failure appends nothing and at most catches up on the touched streams |
| Tracking.Tracker.PrepareNamed | packet/tracker.go:416-421 | a command's refresh: the packets it names become the log's, or the tracker refuses |
| Tracking.Tracker.AppendCommand | packet/tracker.go:453-509 | appends a command's batch from a cache of any age: it reaches the log exactly when it folds and the store still has the versions the cache saw; else nothing is appended |
| Tracking.Tracker.IssuePrepared | packet/tracker.go:84-104 | issue after its refresh, others having appended since or not: its own checks, its own batch, exactly the step the protocol interleaves |
| Tracking.Tracker.TakePrepared | packet/tracker.go:115-140 | the same for take, whose two events are one mutation |
| Tracking.Tracker.AddCommentPrepared | packet/tracker.go:149-165 | the same for comments |
| Tracking.Tracker.TransitionPrepared | packet/tracker.go:176-206 | the same for transitions, with the close when the target is done |
| Tracking.Tracker.SupersedePrepared | packet/tracker.go:217-261 | the same for supersession: three events over two streams as one mutation, returning both packets |
| Tracking.RanFresh | packet/tracker.go:453-509 | a command that nobody interrupts does exactly what the log admits |
| Tracking.Tracker.Issue | packet/tracker.go:77-104 | refresh and issue uninterrupted: succeeds exactly when the log admits it, appends exactly its batch or nothing, returns the replayed packet |
| Tracking.Tracker.Take | packet/tracker.go:108-140 | the same for take |
| Tracking.Tracker.AddComment | packet/tracker.go:143-165 | the same for comments |
| Tracking.Tracker.Transition | packet/tracker.go:169-206 | the same for transitions |
| Tracking.Tracker.Supersede | packet/tracker.go:210-261 | the same for supersession, returning both replayed packets |
| Tracking.Tracker.Packet | packet/tracker.go:264-276 | returns the replayed packet exactly when the log has one under that id |
| Tracking.Tracker.Packets | packet/tracker.go:279-294 | returns every packet of the log once, sorted by id, each the replay of its stream |
| Tracking.Tracker.History | packet/tracker.go:297-314 | returns the log's stream, also while the projection is dropped |
| Commands.IssueAdmitted | packet/tracker.go:77-104 | exactly when the log admits an issue, and the packet it makes |
| Commands.TakeAdmitted | packet/tracker.go:108-140 | exactly when it admits a take: existing at the expected version, not started, untaken, open; and what that leaves |
| Commands.CommentAdmitted | packet/tracker.go:143-165 | exactly when it admits a comment: the text is not blank; closed packets included |
| Commands.TransitionAdmitted | packet/tracker.go:169-206 | exactly when it admits a transition: open, legal, evidence exactly for done; and what that leaves |
| Commands.SupersedeAdmitted | packet/tracker.go:210-261 | exactly when it admits a supersession: open parent, unused replacement id, willing directory; and both packets afterwards. Tenants are not compared |
| Commands.AppendedReplays | packet/tracker.go:453-509 | a log whose streams all replay still does after a batch that folds onto it |
| Supersession.AdmittedKeepsInvariant | packet/tracker.go:77-261 | every admitted command keeps the whole log invariant: contiguous replaying streams, settled packets, paired links, parents born first |
| Supersession.NamedSettled | packet/tracker.go:77-261 | no command leaves a packet half way: done status and done closure together, replacement link and superseded closure together, taken never not started |
| Supersession.LinkedPairKept | packet/tracker.go:590-603 | a packet names a parent exactly when that parent names it as its replacement, so neither has two |
| Supersession.ParentFirstKept | packet/tracker.go:236-256 | a parent's issue event lies strictly earlier in the log than its replacement's |
| Supersession.ChainEnds | packet/tracker.go:208-261 | following replacements from any packet passes issued packets only, links both ways, and ends at one nothing replaces |
| Supersession.ChainRises | packet/tracker.go:208-261 | each packet on a chain is born later than all before it, so none occurs twice |
| Supersession.ChainsDisjoint | packet/tracker.go:208-261 | chains never merge: packets with one end lie on one chain |
| Protocol.StaleCommandsAreCurrent | packet/tracker.go:453-509 | a command that succeeds from however stale a cache is one the log itself admits, and changes the log exactly as an up-to-date tracker would |
| Protocol.StepKeepsSafe | packet/tracker.go:334-509 | every step of any tracker keeps the log invariant, every cache coherent and behind the log, and the log append-only |
| Protocol.RunsAreSafe | packet/tracker.go:334-509 | all of that in every state of every interleaving of joins, refreshes, drops and commands |
| Protocol.LogOnlyGrows | packet/store.go:64-95 | over any run the log is only appended to |
| Protocol.CachesOnlyGrow | packet/tracker.go:334-509 | no tracker ever unreads an event: over any run its cached streams only grow, whichever refreshes and commands it runs |
| Protocol.OneWinner | packet/tracker.go:430-443 | of all commands in a run that name one packet at one expected version, by any trackers, at most one ever appends; commands that would make the packet compete at version zero, as an issue or as the replacement of any parent |
| Protocol.WinnersAreCurrent | packet/tracker.go:499-508 | after a success the tracker's named streams are exactly the store's, and replay |
| Protocol.IssuedStaysFrozen | packet/tracker.go:511-637 | from issue on, tenant, body and parent are fixed for the rest of any run; once closed only comments and version grow |
| Protocol.PacketsAreSettled | packet/tracker.go:108-261 | in every state of every run every packet is settled and within its version bound |
| Protocol.CachedLinksPair | packet/tracker.go:398-409 | for every cache behind the log: its links pair up exactly when each replacement link it holds leads to a cached packet and each cached replacement's parent is cached up to its supersession |
| Protocol.CachedLinksMayBeOneSided | packet/tracker.go:398-409 | a tracker that loaded only a superseded packet is one whose links do not: it holds a link to a replacement it does not hold |
| FirestoreStore.DocumentRoundTrip | eventstore/firestore.go:231-289 | a record with complete metadata survives its document form |
| FirestoreStore.EncodeAppend | eventstore/firestore.go:185-229 | accepts exactly positioned batches with complete metadata and unused ids within the batch; one document per record, one final version per expected packet |
| FirestoreStore.Firestore.Append | eventstore/firestore.go:133-183 | takes a batch exactly when the in-memory store would, if its metadata is complete and no expected counter is zero on record; documents and counters then stand for the longer log |
| FirestoreStore.Firestore.Load | eventstore/firestore.go:90-131 | returns the log's records in some order, the same multiset the in-memory store returns |
| FirestoreStore.StoresAgree | eventstore/firestore.go:133-229 | for every batch a tracker can fold, a sound Firestore accepts exactly what the in-memory store accepts, and stays sound |
| FirestoreStore.RefreshOverEither | packet/tracker.go:334-414 | a refresh over any permutation of the records fails for the same reasons and installs the same streams |
| FirestoreStore.SoundExactlyWhenWritten | eventstore/firestore.go:133-183 | the counters an accepted append leaves are all readable again exactly when each packet expected absent got at least one record |
| FirestoreStore.ZeroCounterWritten | eventstore/firestore.go:185-229 | a concrete batch that expects two packets absent and issues one: accepted, and the other is left with a counter of zero |
| FirestoreStore.PoisonStays | eventstore/firestore.go:291-303 | a counter of zero stays zero whatever is appended afterwards |
| FirestoreStore.PoisonedPacketIsLost | eventstore/firestore.go:291-303 | from then on, over any later appends, no batch that names the packet is taken at any version, while the in-memory store over the same log would take its first event |
| FirestoreRuns.LoadsAlike | eventstore/firestore.go:90-131 | whatever order the decoded documents come back in, they are the records the in-memory store loads |
| FirestoreRuns.RefreshesAlike | eventstore/firestore.go:103-118 | a refresh that sends one query per packet, each answered at a moment of its own while others append, is a refresh over the log: each named stream a prefix of it, none shorter than before |
| FirestoreRuns.CommitsAlike | eventstore/firestore.go:133-183 | the transaction goes through, judged by documents and counters alone, exactly when the log accepts the batch with complete metadata and no counter in it is zero |
| FirestoreRuns.StepsAlike | eventstore/firestore.go:90-229 | every step of any tracker over documents and counters is the same step over the in-memory log, and the documents still stand for it |
| FirestoreRuns.FirestoreSimulates | eventstore/firestore.go:90-229 | every run of any number of trackers over Firestore, loads torn between queries included, is step for step a run over the in-memory log with the same caches |
| FirestoreRuns.ReadsStayFrozen | packet/tracker.go:511-637 | so a packet read over Firestore stays as issued, and once closed takes only comments, in whatever tracker reads it at that version or a later one |
| RepositoryReplay.CheckLinks | repositorypacket/load.go:151-173 | the two loops over the table, in any order, accept exactly tables in which every parent is superseded with one replacement and every superseded packet has one |
| RepositoryReplay.Importer.IssueRoot | repositorypacket/load.go:188-193 | issues a packet without a parent |
| RepositoryReplay.Importer.IssueReplacement | repositorypacket/load.go:194-207 | supersedes an issued parent by its one replacement |
| RepositoryReplay.Importer.IssueChain | repositorypacket/load.go:178-212 | terminates because fewer packets remain unvisited; issues a packet after all its ancestors; fails only if the table has a circle |
| RepositoryReplay.Importer.IssueAll | repositorypacket/load.go:213-217 | issues every packet of the table or finds a circle |
| RepositoryReplay.Importer.ApplyStatus | repositorypacket/load.go:219-251 | brings one packet to its declared status; only missing evidence stops it |
| RepositoryReplay.Importer.ApplyAll | repositorypacket/load.go:219-251 | succeeds exactly when every done packet has its evidence file |
| RepositoryReplay.IssuedIsAcyclic | repositorypacket/load.go:178-212 | a table all of whose packets were issued has no circle |
| RepositoryReplay.Replay | repositorypacket/load.go:150-253 | succeeds exactly when the table is acyclic, linked as declared and has its evidence; the tracker then holds the table's packets and no others, linked and shaped (1, 2, 3, 3 or 5 events) as declared |
| PacketExport.TornRecord | packetexport/export.go:104-118 | a projection from one load and a history from a later one pass the version check exactly when the record is the earlier log's own |
| PacketExport.Records | packetexport/export.go:104-118 | while others append between the loads, the records that pass the version check are one consistent cut of the log at the call; it fails only without a projection or over a log that does not replay |
| PacketExport.CutIsOne | packetexport/export.go:104-118 | a log has one such cut in which every record passes |
| PacketExport.Reconcile | packetexport/export.go:138-151 | each id of either source once, the second source winning |
| PacketExport.SortRecords | packetexport/export.go:154-160 | the payload lists the same records, sorted by id |
| PacketExport.ListingUnique | packetexport/export.go:154-160 | a set of records has one sorted listing |
| PacketExport.ListsBack | packetexport/export.go:239-260 | a decoded payload indexes back to the map it was listed from |
| StructJson.DecimalReads | packetexport/export.go:36 | a decimal reads back as its number |
| StructJson.StructReads | packetexport/export.go:27-84 | the canonical form of a struct, its keys sorted, reads back field by field: a null leaves a text as it was and sets a pointer or slice to nil |
| StructJson.ItemsRead | packetexport/export.go:242 | a list decodes item by item, or not at all if one item does not |
| RecordJson.EventReads | packetexport/export.go:70-84 | the canonical form of any history event, absent fields absent, decodes to that event |
| RecordJson.RecordReads | packetexport/export.go:27-44 | the canonical form of any record, nil pointers and slices as null, decodes to that record exactly when its version fits 64 bits |
| PacketFile.RecordsReadBack | packetexport/export.go:239-246 | the canonical print of any records is valid JSON and decodes to those records, unless a version does not fit |
| PacketFile.MadeExactly | packetexport/export.go:177-187 | a file is made of any records exactly at a set time and from a source that validates |
| PacketFile.FileReadsBack | packetexport/export.go:177-207 | a file made of any records verifies, at every nonzero instant before its expiry and for a merge at any age, to exactly those records with their digest if they are publishable, and otherwise to nothing |
| PacketFile.AcceptedRepublishes | packetexport/export.go:201-260 | the records read from any intact file, whoever wrote it, make a file that holds those records again |
| PacketFile.PayloadsApart | packetexport/export.go:239-260 | different payloads of valid records have different canonical bytes |
| PacketFile.FilesAreLawful | packetpublisher/publisher.go:186-220 | the codec the publisher uses is what its proofs rely on |
| Publishing.Publisher.Build | packetpublisher/publisher.go:186-220 | a build that comes out is a file that verifies to the sorted union of live, repository and app with app over repository over live, its app records one cut of the log and the log's own; over a replaying log it comes out exactly when the repository file is intact and every record of the union is valid |
| Publishing.Publisher.Release | packetpublisher/publisher.go:222-231 | replaces the public file and remembers the release, or neither |
| Publishing.Publisher.Publish | packetpublisher/publisher.go:79-93 | releases exactly such a file, cut included, exactly when the live file is intact, it can be built and the release goes through; otherwise changes neither file nor memory; the publisher can publish again |
| Publishing.Publisher.Renew | packetpublisher/publisher.go:103-139 | what a check concludes, what it remembers (observed before releasing) and which file it publishes, on every path; whatever it builds is such a union over one cut of the log; the publisher can check again |
| Publishing.Publisher.New | packetpublisher/publisher.go:64-74 | makes a publisher over the real codec exactly when the source validates |
| Publishing.RenewIsTurn | packetpublisher/publisher.go:103-139 | whatever a renewal check concludes is a turn of a history, and it fails as a turn exactly when its release does |
| Publishing.RebuildIsSame | packetpublisher/publisher.go:186-220 | building over its own file, decoded again, with an unchanged log and repository gives the same payload and digest, and at the same instant the same bytes |
| Publishing.StableUntilDue | packetpublisher/publisher.go:103-139 | once a build is live, checks over an unchanged log and repository release nothing before it is due |
| Publishing.FailedReleaseRetried | packetpublisher/publisher.go:116-138 | over the same live copy a failed release is decided on again exactly when the copy is due, and checks are quiet until then |
| Publishing.ChangedCopyReleased | packetpublisher/publisher.go:116-138 | over a changed copy, exactly when a check releases |
| Publishing.FailedStaysQuiet | packetpublisher/publisher.go:116-138 | over runs: after a failed release checks do nothing while the live copy stays the same and is not due, whatever else happens |
| Publishing.RetriedOnceDue | packetpublisher/publisher.go:116-138 | over runs: the check that finds that copy due does try the payload again, if nothing was announced in between |
| Publishing.FailedAndNotRetried | packetpublisher/publisher.go:116-138 | a concrete history over intact files of two different payloads in which a release fails and the next check, which could release, does nothing |
| Publishing.CheckLeavesYoung | packetpublisher/publisher.go:103-139 | however old the copy it judged by, a check whose release does not fail leaves the public file younger than the renewal age |
| Publishing.NeverExpired | packetpublisher/publisher.go:103-139 | with checks that do not fail no further apart than the freshness bound less the renewal age, the public file is never expired from the first of them on, whatever failed turns and announcements lie between |
| Publishing.RepeatsAreApart | packetpublisher/publisher.go:128-133 | two consecutive releases of one payload over one live copy, the second by a check, are at least the renewal age apart |
| Reading.Reader.Derive | runtimeexport/reader.go:264-312 | the next snapshot and which fetched copies are turned away, for every combination of outcomes |
| Reading.Reader.Refresh | runtimeexport/reader.go:240-340 | verifies each response, swaps in exactly the accepted copies, keeps the others, derives the snapshot, and succeeds exactly when everything was taken bar an absent first packet export |
| Reading.Reader.VerifiedCopy | runtimeexport/reader.go:470-485 | a held copy before its expiry, else missing or stale |
| Reading.Reader.IntactCopy | runtimeexport/reader.go:491-508 | the tracker's own export at any age, and no authority |
| Reading.Reader.Ready | runtimeexport/reader.go:440-465 | fresh authorities, and packets held or found absent |
| Reading.Reader.Start | runtimeexport/reader.go:210-220 | success exactly when ready after one refresh; at any clock after the zero time it leaves a snapshot, on a fresh reader and on one that has run |
| Reading.DirectoryBuilds | runtimeexport/reader.go:408-437 | a directory that verified at any instant builds an empty snapshot, and was verified before its expiry; the exception is one that expires one nanosecond after the zero time |
| Reading.ChecksAreLawful | runtimeexport/reader.go:408-437 | the real verification and the two snapshot builders are what the reader relies on |
| Reading.OnlyIDsTurnAway | runtimeexport/reader.go:276-290 | in every run a copy that verified is turned away exactly when the packets it would be shown with have an id that names no task |
| Reading.ServedWhenHeld | runtimeexport/reader.go:276-312 | in every run, whenever a directory is held and packets are held or were just found absent, there is a snapshot of exactly the held copies |
| Reading.SnapshotKept | runtimeexport/reader.go:264-330 | the snapshot a refresh leaves is the one the copies it leaves build |
| Reading.RunMatches | runtimeexport/reader.go:240-340 | in every state of every run the snapshot is full over exactly the held copies, empty over the held directory while no packets are held, or absent |
| Reading.HeldForGood | runtimeexport/reader.go:318-330 | a copy once held is held for good, whatever fetches bring |
| Reading.SnapshotForGood | runtimeexport/reader.go:264-330 | once packets and directory are held there is a full snapshot of the held copies ever after |
| CanonicalPrinter.EncodeCanonical | contract/envelope.go:211-264 | the recursive loops append exactly the canonical text of any value to any buffer, and fail exactly on a number without a finite float |
| CanonicalPrinter.Canonicalize | contract/envelope.go:105-120 | canonicalizing any text is reading one value and printing its canonical form, or an error |
| CanonicalPrinter.CanonicalizedPrint | contract/envelope.go:96-102 | canonicalizing the plain marshalled text of a value gives its canonical bytes |
| CanonicalProofs.ReadPrinted | contract/envelope.go:211-264 | the prefix lemma: printed text of any value before a delimiter reads back as that value and stops at the delimiter |
| CanonicalProofs.ReadIsWellFormed | contract/envelope.go:105-120 | whatever text is read, the value has valid numbers and no repeated keys |
| CanonicalProofs.CanonIsTidy | contract/envelope.go:211-280 | the canonical form is sorted at every depth with normalized numbers |
| CanonicalProofs.TidyIsCanon | contract/envelope.go:211-280 | a canonical value is its own canonical form |
| CanonicalProofs.ReprintIsIdentity | contract/envelope.go:105-120 | reading canonical bytes gives the canonical value, and printing it gives the same bytes |
| CanonicalProofs.SameIffCanon | contract/envelope.go:211-280 | values agree up to key order and number writing exactly when their canonical forms are equal |
| CanonicalProofs.SameBytesIffSameValue | contract/envelope.go:211-280 | two values give the same bytes exactly when they agree up to recursive key order and number normalization |
| Envelopes.BuildsExactly | contract/envelope.go:63-87 | build succeeds exactly with a schema, a time, valid provenance and a printable payload |
| Envelopes.SerializedReadsBack | contract/envelope.go:90-102 | a serialized envelope decodes to its own six fields |
| Envelopes.BuiltIsAccepted | contract/envelope.go:141-205 | verify accepts what build and serialize make at every nonzero instant before expiry, calls it stale from then on, and never otherwise; integrity accepts it at any age unless it is judged at the zero time |
| Envelopes.AcceptedStaysAccepted | contract/envelope.go:141-187 | what verify returns for any accepted text serializes to a text it accepts with the same result |
| Envelopes.ExpiryAgrees | contract/envelope.go:193-205 | the lenient reading of the expiry agrees with the strict reading of the envelope |
| Envelopes.IntegrityIsVerifyAtSomeInstant | contract/envelope.go:193-205 | integrity accepts exactly what verify accepts at some instant, with the same result, except a text that expires one nanosecond after the zero time |
| Envelopes.DigestNamesPayload | contract/envelope.go:171-179 | accepted texts carry one digest exactly when their payloads are the same value, for an injective digest |
| PacketNames.ScopeIsNamed | authoring/workspace.go:300-309 | the prefix test accepts exactly the initiative and epic that the view's pattern reads from the id |
| Authoring.Workspace.Create | authoring/workspace.go:132-153 | stores a new draft exactly for a named principal and one consistent scope |
| Authoring.Workspace.CreateSupersession | authoring/workspace.go:156-187 | stores a replacement draft exactly when the parent exists in the caller's tenant and in the same scope under another id; the parent does not change |
| Authoring.Workspace.EditableDraft | authoring/workspace.go:285-291 | finds a draft exactly for its owner, unissued, at the expected version |
| Authoring.Workspace.Edit | authoring/workspace.go:190-216 | replaces the editable fields exactly when owned, unissued, unchanged since read and in scope |
| Authoring.Workspace.Issue | authoring/workspace.go:219-263 | turns one complete draft into one packet exactly when checks pass and the log admits the command, or changes nothing |
| Authoring.Workspace.Packet | authoring/workspace.go:273-281 | shows a packet to its own tenant only |
| AuthoringRuns.IssuesExactly | authoring/workspace.go:219-263 | a sound draft is issued exactly when its id is unused, the tenant willing and, for a replacement, the parent open and unchanged |
| AuthoringRuns.ActKeepsSound | authoring/workspace.go:132-263 | every act of any workspace, failed or not, keeps drafts and packets in step, given fresh draft ids |
| AuthoringRuns.RunsAreSound | authoring/workspace.go:132-263 | so in every state of every run |
| AuthoringRuns.IssuedDraftsStay | authoring/workspace.go:190-216 | an issued draft never changes again |
| AuthoringRuns.IssuedDraftsAreRecorded | authoring/workspace.go:240-262 | its id, tenant, body and parent are those of the packet's issue event, and no other draft of any workspace issued that packet |
| AuthoringRuns.ChainsStayInScope | authoring/workspace.go:156-187 | every supersession chain stays in one tenant, one initiative and one epic |
| AuthoringRuns.TrackersCrossTenants | packet/tracker.go:210-261 | a supersession keeps its chain in scope exactly when tenant, initiative and epic are its parent's; a tracker compares none of them |
| AuthoringRuns.SupersededAcrossTenants | packet/tracker.go:210-261 | a tracker admits a supersession into any other willing tenant, and the result is out of scope |
| AuthoringRuns.CrossTenantWitness | packet/tracker.go:210-261 | for any two packet names of one epic and any two tenants, a log and an admitted command |
| AuthoringRuns.OnlyReusedIDsForget | authoring/workspace.go:132-153 | an issued draft is lost exactly when a new draft in its workspace takes its id |
| Views.IndexPackets | surface/view.go:142-150 | indexes an export exactly when every id names a task, under the scope the workspace's prefix test accepts |
| Views.UnclaimedIsTakeable | surface/view.go:367-370 | for every reachable packet: unclaimed exactly when a take at its current version by a named actor succeeds |
| Views.TenantPackets | surface/view.go:244-262 | the tenant's own packets in order, or the first reason there may be none |
| Views.NotFoundOrIsolated | surface/view.go:351-361 | isolation exactly when the address names another tenant's packet |
| Views.CountInitiatives | surface/view.go:269-282 | the counting loop tallies each initiative and collects its epics |
| Views.Initiatives | surface/view.go:264-289 | each initiative of the tenant once, sorted, with its counts and number of epics |
| Views.Initiative | surface/view.go:291-318 | each epic of an initiative once, sorted, with its counts; found exactly when the tenant has a packet there |
| Views.Epic | surface/view.go:320-336 | exactly the summaries of the epic's packets, ordered by id |
| Views.PacketRecord | surface/view.go:338-349 | the tenant's own record under that address, or the exact refusal |
| Views.PartsAddUp | surface/view.go:264-318 | counting a scope and summing the counts of its parts, each once, is the same |
| Views.EpicCardMatchesPage | surface/view.go:291-336 | an epic's card counts exactly what its page lists |
| Views.InitiativeCardMatchesPage | surface/view.go:264-318 | an initiative's card has as many epics as its page and the sums of their counts |
| Views.InitiativesCountTenant | surface/view.go:264-289 | all initiative cards together count the tenant's packets and no other tenant's |

## Left out

- RepositoryReplay.Replay: the table is taken as read; parsing specifications from files is I/O and plain text handling.
- Tracking.Tracker.Issue: event ids and times come in as stamps, so a failing id source is not modelled; the same holds for the other commands.
- Tracking.Tracker.Install: the loop that copies gathered streams over the targets is one map update; the maps hold immutable sequences, so aliasing and defensive copies do not arise.
- FirestoreStore.Firestore.Append: a transaction is atomic; retries, timeouts with an unknown commit, gRPC and the base64 path encoding (taken as injective) are not modelled.
- FirestoreStore.DocumentRoundTrip: a payload is a record of fields, not JSON text; invalid UTF-8 and time formatting inside payloads are not modelled.
- PacketExport.Records: what others append between loads is an arbitrary sequence of store appends, before each history.
- RecordJson.RecordReads: an object that names one field twice, exactly or up to case, is read by its last value; Go merges two nested objects or slices instead. What is printed names each field once.
- PacketFile.FileReadsBack: it asks that the clock is not before the zero time and can read back the two times it writes, which Go's RFC 3339 form does for years up to 9999; Publishing.Publisher.Build asks the same.
- Publishing.Publisher.Build: the release message is not modelled.
- Publishing.NeverExpired: it is stated for one publisher; a process that restarts, and so forgets what it observed and released, is not a turn of a history.
- Reading.Reader.Refresh: a response is a body or a kind of trouble; HTTP, redirects, media types and size limits are not modelled, nor is the background ticker.
- FirestoreRuns.FirestoreSimulates: the catch-up after a refused append is answered at that same moment; at a later one it is a refresh step of its own.
- CanonicalProofs.ReadPrinted: characters are Unicode scalar values; byte encoding, invalid UTF-8 and the decoder's limit on nesting depth are not modelled.
- CanonicalPrinter.EncodeCanonical: parsing and formatting one float is a parameter that is idempotent and yields valid numbers.
- Envelopes.BuiltIsAccepted: it asks that the clock can read back the two times it writes, which Go's RFC 3339 form does for years 0 to 9999.
- Envelopes.SerializedReadsBack: an object that repeats one key exactly is read as its last value; Go merges two `source` objects instead. Keys that differ in case are matched as Go does.
- Authoring.Workspace.Issue: one `now` serves both the scope check and the tracker; a failing draft id source is not modelled.
- Views.TenantPackets: the directory status shown with each view (ages, seconds past expiry) is not modelled.
- Versions are natural numbers; a log of 2^63 events, where Firestore's counter ends, is not modelled. The 64-bit bound on a published version is.
- Events are values; a nil event in a batch is not modelled.
- Goroutines and locks: one tracker's lock makes its own operations sequential; other trackers act between a command's refresh and its append, which is why each command's second half has a contract over a stale cache.
- The Hosting upload protocol: publishing replaces the public file whole or leaves it.
- The tenant rule drawn from a parsed directory, the Firebase verifier, agent credentials, HTTP routes and the front end: simple guards or plumbing, with no property that spans them.
- Error texts and which of several errors is reported first, except where a contract says so: the two stores check in different orders.
