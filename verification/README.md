# WeaveFTPd: a verified model

WeaveFTPd is a distributed FTP daemon written in Go: a master answers FTP clients and keeps a
virtual file system, slaves hold the files. This project models, in Dafny, the parts of it whose
correctness rests on more than one piece of code at a time, and proves what they promise.

* `PostHookQueue.dfy`: the per-release post-hook queues. Producers, consumers, the idle timer and
  the shared mutex are interleaved step by step; the theorems hold for every schedule, across
  queues that are reaped and created again for the same directory.
* `PathReservations.dfy`, `TransferGuard.dfy`, `LatencyMetrics.dfy`: path reservations of STOR and
  RETR, the published transfer fields, the active gauges and the lock-free latency maximum, for any
  number of sessions and aborting threads.
* `Credits.dfy`, `NukeLedger.dfy`: 64-bit credit arithmetic and the ledger of nukes, failed nukes and unnukes.
* `DataChannel.dfy`: PRET, PASV, CPSV, PORT, PROT, SSCN, the listings, STOR, RETR and ABOR over the
  session fields, for the proxy and the passthrough implementation.
* `AclRequirement.dfy`, `AclPatterns.dfy`, `AclEngine.dfy`: the requirement parser, printer, cache
  and decision; brace expansion, compilation and matching of rule paths; the order of rules.
* `Relocation.dfy`: the copy-all-then-delete relocation of a path between two slaves.
* `SfvRescan.dfy`, `RescanJobs.dfy`: reconciliation of a release with its SFV file, and the job
  output that several readers follow.
* `Passwd.dfy`, `AuthCache.dfy`: the passwd file as a map, and the login cache.
* `XDupe.dfy`, `RaceStats.dfy`: the packing of X-DUPE lines and the race statistics.
* `Folds.dfy`, `MapSums.dfy`, `Options.dfy`, `Text.dfy`, `TextLists.dfy`, `TextOrder.dfy`, `Paths.dfy`:
  sums, options, strings and paths.

Objects whose methods update fields are classes here. Each of their methods is proved equal to a
function of the old state, and the theorems are about all runs of those functions. Concurrency is
modelled as interleaved atomic steps: one critical section, one channel operation or one atomic
operation each. Whatever comes from outside (sockets, slaves, the disk, the database, timers) is a
parameter of the step or of the run, so that every theorem holds for all outcomes.

Where the code and its own documentation disagree the model follows the code. `README.md:634-637`
says private paths are checked after the action rules; the code checks them first (remarks at the
end of `AclEngine.dfy`). PRET promises that a listing
will be served by the master, but CPSV in passthrough mode prepares a slave
(`DataChannel.ListingNeedsTheMaster`).

Some properties one would expect are false of the code. Each has an input that shows it and the
exact condition under which the code meets it: an unnuke can mint credits when the stored record is
empty, and lose some at the top of the 64-bit range (`NukeLedger.UnnukeWorth`); a relocation loses a
file when the source delete takes effect but reports failure, or when the file's size was not
recorded and its copy is short (`Relocation.LostExactlyWhen`); passthrough and proxy encrypt
differently after a PROT between set-up and transfer (`DataChannel.EncryptionAgreesWhen`); the active
gauge can read -1 (`TransferGuard.GaugeNegativeWhen`); names that start with `#` turn passwd lines
into comments and back (`Passwd.StepRefines`); a zero-byte file is not removed by the option for bad
files (`SfvRescan.SecondScanFindsNoBad`); when the final report of one end of a copy does not come, it is
the other end that is told to give up (`Relocation.ToldAreOwing`).

Hypotheses the theorems state, by module:

* AclPatterns, AclEngine: `path.Match` is a parameter of which only its answer for the pattern `/` is
  used (`GlobOk`); rule paths contain no NUL character. The product form speaks of whitespace-free,
  non-nested patterns with a non-empty alternative per group (`WellFormed`).
* AclRequirement: the legacy fragment is `Legacy`.
* NukeLedger: over runs, what the daemon needs of its surroundings is `WellServed`, and the ordinary
  changes keep a user's total within 64 bits (`StaysInRange`).
* DataChannel: PRET names a command and PORT an address (`Sensible`); an abort can be addressed to a slave
  transfer that has an index and a name (`Addressable`).
* Relocation: a copy reported successful wrote a beginning of the source file and reported its size
  (`Trusted`, `HonestSizes`); a recorded positive size is the file's size (`TrueSize`). The entries
  move without loss when the destination is vacant and not below the source (`Vacant`), and a failed
  copy leaves the destination as it was when it held nothing there and the clean-up worked.
* SfvRescan: names are distinct and none is another's marker (`Separate`); in the second scan the
  content of files has not changed.
* Passwd: user lines are unique and unindented (`Good`); an added hash is one field of one line
  (`OpOk`); the login digest is free of collisions.
* RescanJobs: the list handed to the de-duplication is sorted.

## Model

| member | source | states |
|---|---|---|
| PostHookQueue.Conservation | internal/core/commands.go:2590-2650 | In every interleaving, per directory: what was ever enqueued equals, as a multiset, what finished, what is executing, what is in the channel and what a producer still holds before its send. |
| PostHookQueue.NeverStranded | internal/core/commands.go:2600-2650 | A queue object that has a task, a running consumer or a producer that found it is still the registered queue of its directory and its consumer is alive, so reaping strands nothing. |
| PostHookQueue.OneConsumerPerKey | internal/core/commands.go:2609-2615 | At most one consumer is alive per directory, across reaped and recreated queues. |
| PostHookQueue.StartsInSendOrder | internal/core/commands.go:2615-2650 | Tasks of a directory finish and start as prefixes of the order their sends completed, one at a time, across queue generations. |
| PostHookQueue.ProgramOrder | internal/core/commands.go:2606-2620 | One producer's tasks for a directory start in the order of its own calls. |
| PostHookQueue.NoStepIsRefused | internal/core/commands.go:2606-2644 | The guards of the model never block a step the code would take, a send waits exactly while 128 tasks are in the channel, and the registered test of the reap condition always succeeds. |
| PostHookQueue.PendingTestIsNeeded | internal/core/commands.go:2640-2643 | A schedule in which the other two reap tests pass while a producer has found the queue and not sent: the pending count is what saves its task. |
| PostHookQueue.NoDeadlock | internal/core/commands.go:2606-2648 | While any task is unfinished some step other than a timer or a new enqueue is possible, also with a full channel and blocked senders. |
| PostHookQueue.QuietRunsAreShort | internal/core/commands.go:2606-2648 | Every such step lowers a measure, so without timers and new tasks a run has at most that many steps. |
| PostHookQueue.StoppedMeansDone | internal/core/commands.go:2606-2648 | Where no such step is left, everything enqueued has finished, once, in send order. |
| PostHookQueue.StoppedIsAtRest | internal/core/commands.go:2606-2648 | There every producer has returned too, and the mutex is free. |
| PostHookQueue.IdleQueueIsReaped | internal/core/commands.go:2635-2648 | Reaping happens: when the timer of a selecting, empty queue fires and no producer has found the queue, the length and pending tests that follow take the key out of the registry and end the consumer, and change no other key or queue. |
| PostHookQueue.NextEnqueueStartsAfresh | internal/core/commands.go:2606-2613 | The next enqueue of a directory that is not registered makes a new queue object with one pending slot and a live consumer, and registers it. |
| PostHookQueue.RestEmptiesTheRegistry | internal/core/commands.go:2635-2648 | Once all is at rest, every run without new enqueues in which each live queue is served as far as the pending test ends with an empty registry and no consumer. |
| PostHookQueue.Runtime.FindAndReserve | internal/core/commands.go:2606-2614 | The first critical section: find or create the queue, take a pending slot; equal to the atomic step of the model. |
| PostHookQueue.Runtime.TestPendingAndReap | internal/core/commands.go:2640-2646 | The last reap test: deletes the registration and exits only at pending 0; equal to the atomic step of the model. |
| PathReservations.Reservations.ReserveUploadPath | internal/core/session_registry.go:52-64 | An upload is reserved exactly when the path is neither upload-reserved nor download-counted, and is not "." or "/". |
| PathReservations.Reservations.ReleaseUploadPath | internal/core/session_registry.go:66-74 | Removes the reservation and nothing else. |
| PathReservations.Reservations.ReserveDownloadPath | internal/core/session_registry.go:87-99 | A download is counted exactly when the path is not upload-reserved. |
| PathReservations.Reservations.ReleaseDownloadPath | internal/core/session_registry.go:101-113 | Counts one holder out and removes the key at the last. |
| PathReservations.ReleaseUndoes | internal/core/session_registry.go:52-113 | A release undoes the reservation before it; a reservation that is not allowed, and a release of "." or "/", change nothing. |
| TransferGuard.MapsCountHolders | internal/core/session_registry.go:52-113 | Over all interleavings of STOR, RETR and aborts: a path is upload-reserved exactly when one session holds it, its download count is the number of holders, and it is never in both maps. |
| TransferGuard.Admission | internal/core/session_registry.go:52-99 | In every reached state a download of a path is admitted exactly when no session holds the path for upload, and an upload exactly when no session holds it at all, the path being neither "." nor "/"; a refused session changes nothing. |
| TransferGuard.SessionFinishes | internal/core/commands.go:1605-1609 | From any state a session is idle again after at most seven steps of its own, without touching other sessions. |
| TransferGuard.EverythingCanBeReleased | internal/core/session_registry.go:66-113 | From every reached state the sessions can all finish, and both maps are then empty: nothing stays reserved for good. |
| TransferGuard.UploaderIsAlone | internal/core/commands.go:1605-1609 | No other session holds a path, in either direction, while one uploads it. |
| TransferGuard.SeenMeansReserved | internal/core/commands.go:2849-2895 | A session visible as transferring a path holds its reservation, so the scan over sessions and the maps agree. |
| TransferGuard.NothingHeldNothingReserved | internal/core/session_registry.go:66-113 | When no session holds anything both maps are empty. |
| TransferGuard.GaugeEquation | internal/core/session_bandwidth.go:24-87 | The active gauge is the sessions seen transferring, less begins not yet counted, plus ends not yet counted, for any interleaving of explicit, deferred and abort-driven endTransfer calls. |
| TransferGuard.EveryBeginEndsOnce | internal/core/session_abort.go:9-50 | At rest every TransferBegin has had exactly one TransferEnd and the gauge reads zero. |
| TransferGuard.GaugeNegativeWhen | internal/core/session_bandwidth.go:28-37 | The gauge reads below zero exactly while transfers cleared by an abort before they were counted in outnumber those counted in and still published together with those cleared but not yet counted out. |
| TransferGuard.GentleGaugeIsNatural | internal/core/session_bandwidth.go:28-37 | In a run where no abort clears a session between its publishing and its counting in, the gauge is never negative. |
| TransferGuard.GaugeCanDipBelowZero | internal/core/session_bandwidth.go:28-37 | A schedule in which it reads -1. |
| TransferGuard.TransferFields.EndTransfer | internal/core/session_bandwidth.go:65-87 | Clears the fields and reports the direction to count out exactly on the first call after a begin. |
| LatencyMetrics.MaxNeverFalls | internal/metrics/metrics.go:39-52 | In every interleaving of lock-free Observe calls the maximum never goes down. |
| LatencyMetrics.QuiescentTotals | internal/metrics/metrics.go:39-52 | When all calls have returned the maximum is the largest observation, and count and sum have lost no update. |
| LatencyMetrics.CallsAlwaysReturn | internal/metrics/metrics.go:44-51 | However n calls are interleaved the compare-and-swap loops end within 4n(n+1) operations. |
| LatencyMetrics.Latency.Observe | internal/metrics/metrics.go:39-52 | Alone, one call counts one, adds the clamped duration and raises the maximum. |
| Credits.Penalty | internal/core/nuke_helpers.go:164-178 | The penalty is min(bytes*ratio*multiplier, MaxInt64) for positive inputs and 0 otherwise; no intermediate product leaves int64. |
| Credits.SaturatingAdd | internal/core/nuke_helpers.go:180-188 | Adding a positive amount gives min(sum, MaxInt64); other amounts are ignored. |
| Credits.ClampRemoval | internal/core/nuke_helpers.go:190-198 | A removal is never negative, never takes a non-negative balance below zero, and is the whole penalty when the balance covers it. |
| NukeLedger.RefundUndoesDock | internal/core/nuke_helpers.go:207-245 | Refunding a record restores the credits exactly, and the lifetime statistics too inside their ranges. |
| NukeLedger.NukeTakes | internal/core/nuke_helpers.go:200-223 | For every user, balance, upload, ratio and multiplier: SITE NUKE takes min(credits, min(bytes*ratio*multiplier, MaxInt64)) where all are positive and the account can be saved, and nothing otherwise; files rise by one and bytes by the upload, and users without an upload keep their accounts. |
| NukeLedger.NukeRecords | internal/core/site_nuke.go:365-391 | The entry it appends records for each docked user exactly that amount and those bytes, with the path, the multiplier and the time. |
| NukeLedger.FailedNukeChangesNothing | internal/core/nuke_helpers.go:299-305 | When the rename fails and the accounts can be written back, the ledger is as it was. |
| NukeLedger.UnnukePaysRecords | internal/core/nuke_helpers.go:228-247 | An unnuke that finds records pays each recorded user the recorded amount, up to MaxInt64, and nobody else. |
| NukeLedger.UnnukeRecomputes | internal/core/nuke_helpers.go:253-277 | Without records it pays min(bytes*ratio*multiplier, MaxInt64) at the stored multiplier, or 1 where none is stored. |
| NukeLedger.NukeDesk.ApplyNukeCredits | internal/core/nuke_helpers.go:200-223 | For every iteration order of the user map: the accounts docked, the records stored, and the total, which is min(sum of removals, MaxInt64). |
| NukeLedger.NukeDesk.ApplyUnnukeCredits | internal/core/nuke_helpers.go:228-247 | For every iteration order: each recorded user refunded, and the saturating total. |
| NukeLedger.NukeDesk.ApplyUnnukeCreditsRecompute | internal/core/nuke_helpers.go:253-277 | The fallback pays the recomputed penalty at the stored multiplier or 1, for every iteration order. |
| NukeLedger.FindActive | internal/core/nuke_db.go:153-170 | The newest active entry whose current or original path matches, the later row among equal times, or none. |
| NukeLedger.FoundByEitherPath | internal/core/nuke_db.go:153-170 | An entry is found under its original path and under its present one. |
| NukeLedger.CloseChangesOne | internal/core/nuke_db.go:172-228 | Closing changes the status of that one entry and nothing else in the history. |
| NukeLedger.RestoreUndoesNukedPath | internal/core/site_nuke.go:437-437 | Unnuking the path a nuke produced gives back the original path, and the reverse. |
| NukeLedger.NukeWorth | internal/core/nuke_helpers.go:291-318 | A nuke, also one whose rename fails, keeps credits plus recorded credits of a user exactly when it is recorded, or undone, or took nothing. |
| NukeLedger.UnnukeWorth | internal/core/site_nuke.go:419-459 | An unnuke keeps them exactly when it can pay, without saturating, what the entry it closes holds; whether or not the history could be read or updated. |
| NukeLedger.WellServedIsSound | internal/core/site_nuke.go:349-461 | A nuke that is recorded or undone, and an unnuke that finds an active entry with records, can write every recorded account and close the entry, conserve the credits of every user whose total fits 64 bits. |
| NukeLedger.RunWorth | internal/core/site_nuke.go:349-461 | Credit conservation over whole runs of such commands, deletions and ordinary changes: what a user owns changes by the ordinary changes alone and stays in range, so no refund saturates, as long as the ordinary changes alone would not lift it out of range. |
| NukeLedger.RefundCanSaturate | internal/core/nuke_helpers.go:180-188 | That bound is needed: credits earned while a nuke holds the rest are cut off at the top when it is undone. |
| NukeLedger.NothingHeldMeansPaidBack | internal/core/site_nuke.go:349-461 | After such a run, once no entry holds credits of a user, only the ordinary changes remain. |
| NukeLedger.NukeThenUnnuke | internal/core/site_nuke.go:365-459 | Nuke, ordinary changes, unnuke: the path returns, one closed entry is added, and the credits are those of the ordinary changes alone exactly when the unnuke is sound. |
| NukeLedger.EmptyRecordMintsCredits | internal/core/site_nuke.go:441-450 | Where it fails: a nuke that could save no account stores an empty record, and the unnuke then pays a recomputed amount nobody lost. |
| NukeLedger.NukeDesk.SiteNuke | internal/core/site_nuke.go:349-401 | Credits are taken before the rename, returned if it fails, and recorded after it; the new ledger is that of the model command. |
| NukeLedger.NukeDesk.SiteUnnuke | internal/core/site_nuke.go:403-461 | The entry is read before the rename, credits are paid after it, and the entry is closed last; the new ledger is that of the model command. |
| DataChannel.AtMostOneChannel | internal/core/commands.go:158-244 | For every command sequence at most one of ActiveAddr, DataListen and PassthruSlave is set, and an open listener's nextDataTLSClientMode is true exactly when CPSV opened it. |
| DataChannel.NoStaleIndex | internal/core/session_prepare.go:22-60 | For every command sequence PassthruXferIdx is set only together with its slave, and PORT leaves nothing of a passive set-up. |
| DataChannel.TransferConsumes | internal/core/session_prepare.go:5-60 | After STOR, RETR or a listing nothing is prepared, the offset is 0, and the connection or abort that happened is the one the promised channel calls for. |
| DataChannel.SettledOnce | internal/core/commands.go:1758-1768 | A slave transfer prepared when such a command begins is never settled twice, and is settled exactly when it was handed over or carries an index and a name an abort can use. |
| DataChannel.NeverSettledTwice | internal/core/session_prepare.go:5-21 | Over whole runs a prepared slave transfer is handed over or aborted at most as often as it was prepared. |
| DataChannel.AllAccountedFor | internal/core/session_prepare.go:5-60 | And as an equation: every slave transfer with an index and a name that was prepared has been handed over or aborted, or is the current one, or was dropped by an ABOR or by a PASV or CPSV that set up anew, each exactly once; the drops are counted on the commands. |
| DataChannel.KeptOrSettled | internal/core/session_prepare.go:5-60 | Step by step: any other command leaves a prepared slave transfer as the current one and says nothing, or ends it with exactly one message to its slave; PRET and PORT among them. |
| DataChannel.RoleIsPromised | internal/core/session.go:282-309 | Over every command sequence each data connection, proxied or passed through, takes the TLS role the commands promise: client after CPSV, server after PASV, and for PORT client exactly when SSCN is on. |
| DataChannel.PlanIsPromised | internal/core/commands.go:918-1035 | It is protected as the session is now, unless a prepared slave makes it: then as the session was at its PASV or CPSV; and which of the two it is, is read off the commands. |
| DataChannel.RunIsExpected | internal/core/commands.go:918-1035 | The session fields refine an abstract protocol that does not know about passthrough and keeps only the promised channel, the protection at its set-up, the modes and the PRET command. |
| DataChannel.ProxyAndPassthroughAgree | internal/core/commands.go:1686-1768 | Two sessions that differ only in passthrough, given the same commands, take the same TLS role in whatever connection the next transfer opens. |
| DataChannel.EncryptionAgreesWhen | internal/core/commands.go:105-133 | The passthrough and the proxying session protect the connection of the next transfer alike exactly when no slave was prepared for it, or the protection in force at its PASV or CPSV is the protection now, whatever PROT commands came between. |
| DataChannel.EncryptionCanDiffer | internal/core/session.go:282-298 | A sequence after which passthrough encrypts and the proxy does not. |
| DataChannel.ListingNeedsTheMaster | internal/core/transfer_list_target.go:61-73 | A listing promised by PRET, with everything in its favour, opens a connection exactly when it was not set up by CPSV in passthrough. |
| DataChannel.ListingCanBeRefused | internal/core/commands.go:158-244 | A command sequence that reaches that case. |
| DataChannel.Session.GetRawDataConn | internal/core/session.go:235-280 | Uses up the listener or the PORT address, whichever is set, and remembers which. |
| DataChannel.Session.UpgradeDataTLS | internal/core/session.go:282-309 | The proxy's choice of TLS role and encryption from the fields. |
| DataChannel.Session.HandlePasv | internal/core/commands.go:918-1006 | The new fields and slave commands of PASV on every path, failures included. |
| DataChannel.Session.HandleCpsv | internal/core/commands.go:158-244 | The same for CPSV. |
| DataChannel.Session.HandlePort | internal/core/commands.go:1008-1035 | The same for PORT. |
| DataChannel.Session.HandlePret | internal/core/commands.go:873-907 | The same for PRET. |
| DataChannel.Session.HandleListing | internal/core/commands.go:1111-1149 | The same for the listings, up to the transfer. |
| DataChannel.Session.HandleStor | internal/core/commands.go:1506-1788 | The same for STOR up to the transfer and its deferred clean-up. |
| DataChannel.Session.HandleRetr | internal/core/commands.go:1997-2188 | The same for RETR. |
| AclRequirement.ParseRequirementScalar | internal/acl/acl.go:193-246 | The token loop with its early returns computes the parse function. |
| AclRequirement.ShortcutsAgree | internal/acl/acl.go:194-206 | For every text the early returns give what the token loop alone would give. |
| AclRequirement.RoundTrip | internal/acl/acl.go:508-548 | For requirements in the legacy fragment, parsing the printed text gives the same fields exactly when the requirement is a bare Nobody, or is not Nobody and says something. |
| AclRequirement.SameDecision | internal/acl/acl.go:707-795 | For the whole fragment the printed and parsed requirement decides alike for every user. |
| AclRequirement.TextDecides | internal/acl/acl.go:193-246 | For every text and user, read off the words: nobody if one is "!*"; else the users no "!@" word names up to case, in no "!=" group, carrying no "!" flag and every plain flag, in some "=" group if one is named, and named by some "@" word if there is one. |
| AclRequirement.StructureDecides | internal/acl/acl.go:707-795 | For every structured requirement: what its lists ask for in the same sense, one of its any_flags, all of its all_groups, all of its all_of and one of its any_of. |
| AclRequirement.BracesDeny | internal/acl/acl.go:519-545 | Outside it, once any_flags, all_groups or a nested group was printed, the parsed text refuses every user without a brace in the flags. |
| AclRequirement.AnyFlagsAreLost | internal/acl/acl.go:519-521 | So an any_flags requirement and its text can disagree about a user. |
| AclRequirement.RequirementCache.CheckRequired | internal/acl/acl.go:697-705 | The memoized check answers as a fresh parse of the text would (and so as TextDecides says), whatever the cache holds, and keeps the cache correct. |
| AclPatterns.GroupShrinks | internal/acl/acl.go:550-579 | The measure of brace expansion: prefix, one alternative and suffix together hold fewer opening braces than the pattern. |
| AclPatterns.Expand | internal/acl/acl.go:550-582 | Brace expansion terminates, with the number of opening braces as measure, and never returns an empty list, for any pattern. |
| AclPatterns.ExpandIsProduct | internal/acl/acl.go:550-582 | For whitespace-free, non-nested patterns with a non-empty alternative per group, expansion is exactly the left-to-right Cartesian product. |
| AclPatterns.CompileRulePaths | internal/acl/acl.go:599-616 | The loop with its seen map computes the compiled, de-duplicated list. |
| AclPatterns.CompiledFrom | internal/acl/acl.go:599-616 | Every compiled path comes from an expansion. |
| AclPatterns.CompiledTo | internal/acl/acl.go:599-616 | Every expansion is represented by a compiled path with its key. |
| AclPatterns.CompiledOnce | internal/acl/acl.go:608-613 | No key is compiled twice. |
| AclPatterns.SameKeySameCover | internal/acl/acl.go:608-613 | Paths with one key cover the same paths, although the key leaves out the trailing-slash flag. |
| AclPatterns.RuleMatchesPath | internal/acl/acl.go:686-693 | The loop answers whether some compiled path covers the path. |
| AclPatterns.RuleMatchesIffExpansion | internal/acl/acl.go:646-693 | A rule covers a path exactly when some expansion matches it or is a star-free ancestor of it. |
| AclPatterns.OneStar | internal/acl/acl.go:662-681 | A pattern with one star matches a path by it exactly when the path starts with the text before the star and ends with the text after it. |
| AclPatterns.OtherStars | internal/acl/acl.go:662-667 | A pattern matches in this way only if it has exactly one star. |
| AclPatterns.BelowMeans | internal/acl/acl.go:686-693 | A parent covers a path exactly when it is named, has no star, and its components are the first components of the path. |
| AclPatterns.RuleMatchesIffProduct | internal/acl/acl.go:937-943 | The same stated over the Cartesian product of the rule as written. |
| Paths.CleanShape | internal/acl/acl.go:642-644 | A cleaned path is never empty, ends in a slash only when it is the root, and has no characters of its own. |
| Paths.CleanNormal | internal/acl/acl.go:642-644 | A cleaned absolute path is the root followed by components none of which is empty, "." or "..", and cleaning it again changes nothing. |
| Paths.CleanForgets | internal/acl/acl.go:642-644 | Empty and "." components are nothing, and a component followed by ".." is nothing. |
| AclEngine.TextChangesNothing | internal/acl/acl.go:844-877 | Writing any legacy requirements of a rule set as text changes no decision, for every user, action and path. |
| AclEngine.PrepareKeeps | internal/acl/acl.go:584-597 | Preparing a rule at load changes neither the paths it covers nor the users it admits. |
| AclEngine.PrivateDecides | internal/acl/acl.go:852-861 | A remark on the order in the code: once a private rule covers the path no other rule type is consulted. |
| AclEngine.DocumentedOrderDiffers | README.md:634-637 | A remark on the documentation: its order (action rules before private paths) gives another decision exactly when both kinds of rule cover the path and disagree about the user. |
| AclEngine.PrivateRefuses | internal/acl/acl.go:852-861 | Such a case: everyone may act anywhere, the root is private to a group, and an outsider is refused. |
| AclEngine.Engine.Decide | internal/acl/acl.go:844-877 | The engine, through its cache and loops, computes the decision of the model. |
| AclEngine.FirstRuleDecides | internal/acl/acl.go:844-877 | The first private rule that covers the path decides; failing that the first rule of the kind the action belongs to, letter case aside; failing that flag 1. |
| Relocation.Bridge.CollectRelocateFiles | internal/master/bridge.go:1445-1480 | Exactly the recorded files of the source, once each, with destination path and recorded size. |
| Relocation.Bridge.DirsBelow | internal/master/bridge.go:1417-1443 | Every recorded directory of the source is created under the destination, once, the top one first, and no other. |
| Relocation.NothingForgotten | internal/master/bridge.go:1417-1480 | Below a directory every recorded file is copied and every recorded directory made at its place below the destination, and nothing else; a file is copied alone. |
| Relocation.Bridge.CopyFileBetweenSlaves | internal/master/bridge.go:1581-1656 | One copy through listen, connect, send, receive, both acknowledgements and both reports: which ends are told to abort at each stage, and acceptance when all succeed and, for a known size, the final size equals it. |
| Relocation.EndsTold | internal/master/bridge.go:1581-1650 | For every stage a copy can stop at: each end that accepted its transfer and has not reported is told to give up once, and no other; but when a final report does not come, the other end is told instead. |
| Relocation.ToldAreOwing | internal/master/bridge.go:1635-1644 | So the ends told are the ends that still owe a report exactly when no wait for a final report failed. |
| Relocation.Bridge.RelocateAcrossSlaves | internal/master/bridge.go:1389-1407 | The copy-all-then-delete loops with their clean-ups issue the commands of the model, in order. |
| Relocation.Bridge.RelocatePathToSlave | internal/master/bridge.go:1321-1364 | The same with the checks before and the change of the virtual file system after. |
| Relocation.DeleteComesLast | internal/master/bridge.go:1394-1404 | When the source delete is issued the source is as it was at the start and every recorded file has been copied, with its recorded size if that is known and sizes are reported truthfully. |
| Relocation.SuccessOrder | internal/master/bridge.go:1389-1408 | A successful relocation issues the directories, the copies and one source delete, in this order, and nothing else. |
| Relocation.SuccessMakesDirs | internal/master/bridge.go:1389-1395 | After success the directories asked for are at the destination, and no others are new. |
| Relocation.NothingAttempted | internal/master/bridge.go:1321-1340 | Nothing is done for a path that is not recorded or belongs to no slave, while its slave is away, or without a usable destination. |
| Relocation.FailureCleansUp | internal/master/bridge.go:1396-1406 | A failed one ends with a delete at the destination, unless a directory could not be made. |
| Relocation.OnlySuccessMovesEntries | internal/master/bridge.go:1349-1353 | Any error leaves the virtual file system as it was; success moves the entries; and success happens exactly when every step passed. |
| Relocation.CopyIsWhole | internal/master/bridge.go:1651-1655 | When every copy passed, what stands at the destination is the whole file, by the size test, unless it is a short copy of a file without a recorded size. |
| Relocation.LostExactlyWhen | internal/master/bridge.go:1396-1406 | A recorded file is lost exactly when every step passed, the source delete took it, and its copy is short under an unrecorded size, or the delete reported failure all the same and the clean-up took the copy. Slaves are trusted only to write a beginning of the file and to report its size. |
| Relocation.TimeoutLosesFile | internal/master/bridge.go:1403-1406 | A run in which the delete takes effect, reports failure, and the file is lost. |
| Relocation.UnknownSizeLosesFile | internal/master/bridge.go:1652-1654 | A run that reports success and loses a file recorded with size 0. |
| Relocation.SuccessMovesFiles | internal/master/bridge.go:1389-1408 | After success the source holds nothing below the path, and the destination holds a file whole exactly when it is not a short copy under an unrecorded size. |
| Relocation.FailedCopyRollsBack | internal/master/bridge.go:1396-1401 | A failure before the source delete leaves the source alone and, with an effective clean-up and an absent destination, the destination as it was. |
| Relocation.MoveIsRename | internal/master/bridge.go:1453-1477 | The path rewrite keeps every entry's place below the moved path, touches nothing else and invents nothing. |
| Relocation.MoveBack | internal/master/bridge.go:1353-1353 | Moving there and back restores the whole virtual file system, so the rewrite is a bijection. |
| SfvRescan.Release.ReconcileEntry | internal/core/site_rescan.go:474-564 | One turn of the loop: the entry's class, the repaired directory and the result, on every branch. |
| SfvRescan.Release.ReconcileReleaseSFVEntries | internal/core/site_rescan.go:472-566 | The loop computes the model's outcome for the whole SFV. |
| SfvRescan.ResultMatchesClasses | internal/core/site_rescan.go:472-566 | Every entry is in exactly one of OK, missing, bad, offline and failed; lists hold the names of their class in order and counts match them. |
| SfvRescan.ClassByAnswer | internal/core/site_rescan.go:478-530 | Which class: OK when the listed checksum is read, missing without a record or a file, offline and failed as the slave says, bad for any other checksum except a zero on a file that is not empty, which counts as failed; a recorded checksum is read only when the scan is not forced. |
| SfvRescan.BadIsRemovedWhen | internal/core/site_rescan.go:530-556 | A bad file is gone exactly when the option for its kind is on; a missing or bad entry has its "-MISSING" marker and an OK one has none, as far as the slave obeys. |
| SfvRescan.ForcedForgetsRecords | internal/core/site_rescan.go:478-490 | A forced scan gives the same result whatever checksums are recorded. |
| SfvRescan.EachEntryIsNoted | internal/core/site_rescan.go:478-564 | The notes of the scan name each entry for exactly what happened to it: unwritten marker, missing checksum, kept empty file, failed delete. |
| SfvRescan.EachEntrySettles | internal/core/site_rescan.go:478-564 | For separate names every entry is judged on the directory as it was at the start, and ends as that class says: OK present with the listed CRC and no marker, missing absent with a marker, bad marked and removed or kept, others untouched; outcomes of failed writes and deletes included. |
| SfvRescan.SecondScan | internal/core/site_rescan.go:472-566 | A second forced scan gives each entry its first class, except that a removed bad file is missing. |
| SfvRescan.SecondScanFindsNoBad | internal/core/site_rescan.go:521-553 | It reports zero bad exactly when the first removed every bad file; a zero-byte file is removed under the zero-byte option alone, whatever the option for bad files says. |
| SfvRescan.EmptyFileStaysBad | internal/core/site_rescan.go:521-553 | A first scan with deletion of bad files on that leaves such a file, so that the second scan finds it bad again. |
| SfvRescan.SecondScanTotals | internal/core/site_rescan.go:547-553 | With both deletions on, it reports zero bad and as missing the first scan's missing plus bad, and nothing else changes. |
| RescanJobs.EachLineOnce | internal/core/site_rescan.go:152-182 | However appends and snapshots of many readers interleave, each reader has received every line from the start, in order and once, up to its own mark. |
| RescanJobs.SnapshotCatchesUp | internal/core/site_rescan.go:164-182 | A snapshot brings its reader up to everything appended so far and gives other readers nothing. |
| RescanJobs.RescanJob.SnapshotUnread | internal/core/site_rescan.go:164-182 | Hands out the unread lines and moves the reader's mark. |
| RescanJobs.DedupeSortedPaths | internal/core/site_rescan.go:678-692 | Compacts the array in place to the de-duplicated list. |
| RescanJobs.DedupeIsSet | internal/core/site_rescan.go:678-692 | On sorted paths that list is the set of the non-empty ones, each once. |
| Passwd.FileRefinesMap | internal/core/passwd.go:382-528 | After any run of adds, removes and renames on a file with unique, unindented user lines, the text loads as the map after the same edits, and stays of that kind, when each edit meets the exact condition below. |
| Passwd.PlainNamesRefine | internal/core/passwd.go:382-528 | Every run whose added and renamed names do not start with # meets it. |
| Passwd.StepRefines | internal/core/passwd.go:382-554 | One edit keeps the file of that kind, for all names; and it is the edit of the map, with the same success or failure, exactly when no name in it turns a user line into a comment or a comment into a user line. A remove always is. |
| Passwd.AddKeeps | internal/core/passwd.go:400-421 | Adding puts the user with the new hash into the loaded map, or nothing if the name makes a comment, and keeps uniqueness. |
| Passwd.RemoveKeeps | internal/core/passwd.go:480-487 | Removing takes exactly that user out. |
| Passwd.RenameKeeps | internal/core/passwd.go:521-547 | For all names: a rename succeeds exactly when a line of the old name is there and none of the new one; the line goes over with its hash, as a user line or a comment by each name. |
| Passwd.RenameHidesUser | internal/core/passwd.go:529-544 | A rename to a name that starts with # reports success and takes the user out of the loaded map. |
| Passwd.RenameRevivesComment | internal/core/passwd.go:529-544 | A rename from such a name makes a commented-out line a user. |
| Passwd.CommentsAndUsersMix | internal/core/passwd.go:498-554 | Both happen, on one-line files. |
| Passwd.FormatRecord | internal/core/passwd.go:430-457 | A formatted line reads back as the given user and hash, whatever line it replaces, or as a comment by its name. |
| Passwd.HashChangeKeepsFields | internal/core/passwd.go:400-457 | A changed hash leaves fields 2 to 6 of the user's line as they were where they are not blank, and puts the defaults elsewhere; the line stays where it is, a new one comes last. |
| Passwd.NewLineFollows | internal/core/passwd.go:412-421 | A new user's line takes the place of the blank lines at the end of the file. |
| Passwd.RenameKeepsFields | internal/core/passwd.go:530-544 | A rename changes the first field of the line and no other. |
| Passwd.AddLeavesOthers | internal/core/passwd.go:401-421 | Adding leaves other users' lines, and comments, untouched and in order. |
| Passwd.RemoveLeavesOthers | internal/core/passwd.go:480-487 | Removing does too. |
| Passwd.RenameLeavesOthers | internal/core/passwd.go:530-544 | Renaming does too. |
| Passwd.AddedUserLoads | internal/user/user.go:231-242 | An added user is loaded exactly when the name does not start with #, which name checking allows but the reader takes for a comment. |
| Passwd.LoadPasswdFile | internal/core/passwd.go:58-69 | The reading loop computes the map of the text. |
| Passwd.PasswdFile.AddUser | internal/core/passwd.go:382-428 | The editing loops of add produce the text of the model. |
| Passwd.PasswdFile.RemoveUser | internal/core/passwd.go:460-495 | Those of remove do. |
| Passwd.PasswdFile.RenameUser | internal/core/passwd.go:498-554 | Those of rename do. |
| AuthCache.Logins.VerifyPasswordCached | internal/core/passwd.go:139-158 | The login cache never answers differently from the full check, also after the stored hash has changed, and leaves the check out exactly when the same password passed it against the same hash less than 60 seconds ago. |
| XDupe.PackLines | internal/core/commands.go:2673-2698 | The packing loop computes the model's lines, none longer than 67 bytes for any names. |
| XDupe.PackIsGreedy | internal/core/commands.go:2673-2698 | The lines are exactly the greedy groups of the short names, and each long name cut. |
| XDupe.PackedLines | internal/core/commands.go:2673-2698 | For space-free names, splitting the packed lines on spaces gives the names of at most 66 bytes back in order; longer names appear cut to 65; no packed line could have taken the first name of the next. |
| XDupe.FewestLines | internal/core/commands.go:2680-2692 | No in-order packing under the code's length test has fewer lines. |
| XDupe.OneLine | internal/core/commands.go:2712-2727 | Mode 4 gives the longest prefix of the names that fits 1010 bytes, for any names. |
| RaceStats.ZipDirRaceStats | internal/core/zipscript_runtime.go:157-219 | One line per owner of timed payload files with its files, bytes, time and first group, the stated percentage, in the stated order; and the payload totals. |
| RaceStats.RaceGroupsFromUsers | internal/core/zipscript_runtime.go:221-254 | One line per group with its users' sums, the percentage, in the stated order. |
| RaceStats.UsersInOrder | internal/core/zipscript_runtime.go:209-217 | Of two users' lines the earlier has no fewer files, then no fewer bytes, then not the later name, letter case aside. |
| RaceStats.GroupsInOrder | internal/core/zipscript_runtime.go:244-252 | Of two groups' lines the earlier has no fewer bytes, then no fewer files, then not the later name. |
| RaceStats.PercentMeans | internal/core/zipscript_runtime.go:197-203 | percent*base <= files*100 < (percent+1)*base, or zero without a base. |
| RaceStats.OneMoreFile | internal/core/zipscript_runtime.go:161-193 | What one more file changes: the payload totals if it is a payload file, and if it was timed its owner's files, bytes, time and, if it is the first, group. |
| RaceStats.TallyConserves | internal/core/zipscript_runtime.go:157-254 | A tally with one row per key adds up to the rows it was made from. |
| RaceStats.UsersAddUp | internal/core/zipscript_runtime.go:194-210 | Users' files and bytes add up to the timed payload files, and percentages to at most 100 while the base counts all of these; they are no more than the payload files. |
| RaceStats.GroupsAddUp | internal/core/zipscript_runtime.go:221-246 | Groups' files and bytes add up to the users', and percentages to at most 100 while the total counts all the users' files or is not known. |

## Left out

- ABOR and a repeated PASV or CPSV drop an earlier slave transfer without a word to its slave; `DataChannel.AllAccountedFor` counts them, and what the slave does with a listener nobody uses is not modelled.
- `vfs.go`, slave selection, the race database, remerge and the zipscript package: used through small contracts; parents that the virtual file system creates for a relocated path are not modelled.
- SQLite, JSON, YAML, bcrypt, SHA-256 and file-system calls: the nuke history is a list of entries, encoding of nukee records is the identity, the password check and its digest are parameters.
- Each SITE NUKE and SITE UNNUKE is one step: two handlers working on one directory at the same time are not modelled, nor is the local-mode handler that works on a real directory.
- Relocation.Bridge.RelocatePathToSlave: does not include the race database, the release state and the status markers that are brought up to date after success, because they belong to components that are not part of this model.
- Relocation: concurrent changes of the virtual file system during the copies, the sorted order in which files are copied (any order is covered), relocation within one slave, and paths that are not already cleaned.
- SFV reconciliation: uploads in flight for a listed file, file names with more than one path component, the report callback, zip post-processing and media information.
- `expandRescanTargets`: only the de-duplication of its result is modelled.
- ACL role resolution, the YAML reader, `CanPerformRuleOnly` and `MatchesRulePath`: decisions start from resolved requirements.
- Case folding and trimming outside ASCII letters, and `path.Match` beyond the answer stated above.
- Latency: wrap-around of the 64-bit count and sum, and a Snapshot taken while calls are under way.
- Reserved paths and directory keys are taken as already cleaned, as the code leaves them before it uses the maps.
- Transfer statistics other than the active gauges (bytes, speeds), and limits on the number of sessions of a user or group.
- Timers and deadlines: a timer may fire at any step; nothing is claimed about real time.
- X-DUPE modes 2 and 3, speeds in race statistics, 64-bit wrap-around of race byte totals, banners, help texts and log lines: easy or cosmetic.
- `sort.Slice` in the race statistics is modelled by ordered insertion; the order among names that differ only in case is therefore one of those the library may produce.
- Passwd: lines longer than the scanner's buffer, the file cache keyed by modification time, and hashes that contain a colon or a newline.
- Importers, the setup tool, the HTTP API, configuration loading and simple SITE field editors: plumbing.
