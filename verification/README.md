# Guarded one-shot mutations: a Dafny model

The repository changes live systems — Cloudflare workers, routes, redirect rules and tunnel ingress, a
deploy registry on disk — with scripts that read, check, write once and read again. This project models
the scripts whose correctness depends on state, order, crashes or hostile input, and proves what they
are for. `dafny verify dfyconfig.toml` checks everything.

| part | files | what is modelled |
|---|---|---|
| durable step journal and report deployment | `Journal`, `Ledger`, `Report`, `ReportHonest` | journal records written by interleaved processes that die and machines that lose power; the in-memory ledger; the upload, deploy, four-route client |
| stats worker deployment | `StatsWorker`, `StatsFields`, `Transport`, `Deploy`, `DeployCloud`, `DeployFlags`, `Recovery`, `DeployReplay`, `RecoveryHonest`, `DeployExample`, `DeployInterleaved`, `DeployWindow`, `DeployTwice`, `Runtime`, `ZoneBinding`, `ZoneHonest` | the budgeted transport and its three clients, first against a provider that answers anything, then against an honest one that loses requests or replies, by one operator or several |
| redirect writer | `RedirectRules`, `RedirectWrite`, `RedirectRun`, `RedirectMeaning`, `RedirectFields` | inventory, analysis, plan, the transport's own validator, post-verification, first-match meaning |
| tunnel ingress | `Json`, `Ingress`, `IngressMeaning`, `TunnelRun` | the two table transformers, first-match meaning, the one-PUT client |
| origin collector | `OriginReader`, `OriginChunking`, `OriginHeads`, `Catalog`, `Collector` | the bounded request reader under every chunking, the catalog cache, the slot-limited thread pool |
| lane admission | `Sorting`, `Lanes`, `LaneRecords`, `LaneDecisions`, `LaneRuns`, `LaneExample` | record normalisation, active lanes, verdicts, runs of admissions and changes |
| registry adoption | `Adoption`, `AdoptionRun` | file operations with volatile and durable effects, in the script's order |
| smaller analyses | `WorkerRoutes`, `Aggregates` | Worker route interception, reconciliation of counter tables |

Objects whose methods update fields are classes (`OfflineDurableGate`, `SingleDispatchLedger`, `Adapter`,
`CloudflareTransport`, `TrustedZoneBindingAdapter`, `FixedZoneRedirectWriteTransport`, `Connection`, `Cache`,
`Host`, `Progress`); their methods are proved against specification functions, and the lemmas about those
functions carry the results. Providers, file systems, clocks and schedulers are values that say how every
call ends, universally quantified.

## What the code does where its documentation or its shape suggests otherwise

- **One approval, several operators.** The provider has no conditional write. Runs one after the other spend their
  approval (`DeployReplay.ApprovalsPayOnce`). Interleaved runs can use it twice exactly when two of them stand together
  between the first GET of their second read and the effect of their upload (`DeployWindow.AnotherUploadIff`,
  `DeployWindow.TwoUploadsIff`, `DeployWindow.OneAtATimeUploadsOnce`; a run that does so is
  `DeployTwice.ApprovalCanPayTwice`). At most one of them succeeds (`DeployInterleaved.AtMostOneSucceeds`), and the
  version it reports stays live exactly when no other is then about to deploy (`DeployWindow.ReportedStaysLiveIff`).
- **Order of report routes.** The report deployment compares the listed routes with the order in which they were added,
  so a provider that lists them otherwise stops it with nothing lost (`ReportHonest.FinishesIffNothingLost`).
- **Namespace ids.** Each read of the report deployment checks the two rate limiter ids, and none compares them with an
  earlier read: two reads of a finished run are equal but for the added route if and only if the ids are
  (`Report.OnlyTheRouteIsAdded`), and any other good pair of ids in one read lets the run finish all the same
  (`Report.NamespacesMayChange`).
- **Port zero.** Of the two ingress transformers one accepts a fallback on port zero (`IngressMeaning.FallbackIs`).
- **Compatibility flags.** The protocol sends them sorted and then compares them with the order they had. This never
  shows, because the transport refuses every version with flags (`DeployFlags.FlagsAreUnreadable`); an adapter that
  reported them would make it show (`DeployFlags.CoreSucceedsIffFlagsSorted`).
- **Journal and power loss.** A writer killed between its write and its fsync leaves a record the next call
  accepts, and a power loss can then remove that record from under its successor
  (`Journal.KilledWriterBreaksChain`). `Journal.PowerLossChains` gives the exact condition; a single orderly writer
  meets it (`Journal.OrderlyRunsSurvivePowerLoss`). That a step is reserved once, durably, holds without conditions.
- **Head limit.** The reader compares the bytes read so far with the limit before the blank line is complete, so
  heads of the last three lengths within the limit pass or fail with the chunking (`OriginChunking.ChunkingDecides`);
  so do bytes sent behind a request (`OriginChunking.TrailingBytesDepend`).
- **Lane capacity.** Admission keeps the worker limit; a waiting source lane that resumes while all workers are taken
  exceeds it, and nothing else does (`LaneRuns.StepCapacity`, `LaneRuns.CapacityOverRuns`,
  `LaneExample.ResumptionExceedsLimit`).
- **Finished lanes.** Readmitting an issue whose finished record is still listed is allowed and makes every later
  classification stop; no other admission does (`LaneRuns.AdmissionStallsIff`).
- **Redirect validator.** With one legacy rule present it would also let the addition of another through; the planned
  write is never that one (`RedirectRun.OnlyThePlanIff`, `RedirectRun.PlanIsPermitted`).
- **Redirect room.** An honest run ends in a stop after its write when the new rule or ruleset is one too many for the
  inventory, or makes it too long to be digested (`RedirectMeaning.HonestRunPasses`,
  `RedirectMeaning.FullZoneStopsAfterWrite`).
- **Pool slots.** A handler whose `close` raises never gives its slot back (`Collector.PoolAtRest`, `Collector.LeakHappens`).

## Model

| member | source | states |
|---|---|---|
| Shapes.ShapesAre | scripts/ausmalwiese_report_worker_trusted_operator.py:57-58 | digests are 64 hexadecimal characters, ids 32 of them or five hyphenated groups |
| Journal.OfflineDurableGate.Read | scripts/ausmalwiese_report_trusted_transport.py:288-311 | a record is read back exactly when it is 65 bytes, a digest and a newline, and the digest is returned |
| Journal.OfflineDurableGate.CreateOnce | scripts/ausmalwiese_report_trusted_transport.py:313-331 | exclusive creation: an existing name changes nothing, a short write leaves a torn record, success leaves a synced and linked one |
| Journal.OfflineDurableGate.Reserve | scripts/ausmalwiese_report_trusted_transport.py:333-345 | succeeds exactly when the proof named for the step before is the recorded one, byte for byte, the step's name is free and all 65 bytes are written; then one durable record has come and nothing else has changed; the whole outcome is `Outcome` |
| Journal.OfflineDurableGate.MarkVerified | scripts/ausmalwiese_report_trusted_transport.py:347-354 | succeeds exactly when the envelope named is the one recorded for the step, byte for byte, the name is free and all bytes are written; then one durable record has come; the whole outcome is `Outcome` |
| Journal.CallAlone | scripts/ausmalwiese_report_trusted_transport.py:288-354 | a method call is the run of its atomic system calls without interruption, short writes included |
| Journal.NextKeeps | scripts/ausmalwiese_report_trusted_transport.py:313-331 | every step, also a death or a power loss, keeps: one writer per file, returned calls durable and unrepeated |
| Journal.ReservedAtMostOnce | scripts/ausmalwiese_report_trusted_transport.py:333-345 | in every interleaving with deaths, restarts and power losses no step is reserved twice, and a returned reservation stays on disk, complete and durable |
| Journal.NextChains | scripts/ausmalwiese_report_trusted_transport.py:333-354 | while there is power, every record keeps a complete predecessor, for any number of concurrent processes |
| Journal.ReservedImpliesEarlier | scripts/ausmalwiese_report_trusted_transport.py:333-354 | in every run without power loss a reserved record, even a torn one, implies complete reserved and verified records of every earlier step |
| Journal.ReturnedHadEvidence | scripts/ausmalwiese_report_trusted_transport.py:333-354 | in every run without power loss, a returned reservation named the proof that the step before has on disk, and a returned verification the envelope its own step has |
| Journal.TornStays | scripts/ausmalwiese_report_trusted_transport.py:300-331 | an abandoned torn record never changes |
| Journal.TornBlocks | scripts/ausmalwiese_report_trusted_transport.py:288-354 | an abandoned torn record blocks its own and every later record and call in every continuation |
| Journal.PowerLossChains | scripts/ausmalwiese_report_trusted_transport.py:313-331 | every outcome of a power loss is chained if and only if every presupposed record is durable in bytes and entry |
| Journal.OrderlyRunsSurvivePowerLoss | scripts/ausmalwiese_report_trusted_transport.py:313-354 | with one writer at a time, not killed between writing and publishing, the journal stays chained through any number of power losses |
| Journal.KilledWriterBreaksChain | scripts/ausmalwiese_report_trusted_transport.py:313-331 | a concrete run: writer killed before fsync, next call, power loss, chain broken |
| Ledger.SingleDispatchLedger.Reserve | scripts/ausmalwiese_report_protected_adapter.py:213-221 | exactly the next step's target is accepted, and only unfrozen; the state advances by one or stays |
| Ledger.SameAnswers | scripts/ausmalwiese_report_protected_adapter.py:200-224 | ledger and journal accept and refuse the same attempts in every sequence of them |
| Ledger.AttemptCompletes | scripts/ausmalwiese_report_trusted_transport.py:333-354 | one journal attempt with the right proofs succeeds exactly for the next step and completes it |
| Ledger.PrefixAccepted | scripts/ausmalwiese_report_protected_adapter.py:207-224 | a sequence of steps in the fixed order is accepted throughout |
| Ledger.FrozenRefuses | scripts/ausmalwiese_report_protected_adapter.py:213-224 | once frozen the ledger refuses every sequence of attempts |
| Report.AddRoutes | scripts/ausmalwiese_report_worker_trusted_operator.py:271-301 | the route loop makes exactly the calls the plan allows after the answers given |
| Report.FutureProtocol | scripts/ausmalwiese_report_worker_trusted_operator.py:219-301 | for any adapter the calls are the plan up to and including the first badly answered one; success exactly when all fourteen are answered well; the stop code tells which was not |
| Report.WritesAreReservable | scripts/ausmalwiese_report_worker_trusted_operator.py:219-301 | the writes of any run are a prefix of the journal's steps and the ledger accepts them all; all six exactly when the last route was tried |
| Report.FinishedRunSawEachRoute | scripts/ausmalwiese_report_worker_trusted_operator.py:271-301 | success means routes grew by exactly one each time under one version and deployment, all else as first read |
| Report.FinishedRunBefore | scripts/ausmalwiese_report_worker_trusted_operator.py:131-264 | in the members of the reads: success means no worker twice, then the uploaded version with the reviewed code, bindings and limits, not active |
| Report.FinishedRunAfter | scripts/ausmalwiese_report_worker_trusted_operator.py:131-301 | in the members of the reads: success means that from the deployment on all traffic was on the uploaded, latest version with the reviewed code under the deployment named, serving the first routes in order |
| Report.OnlyTheRouteIsAdded | scripts/ausmalwiese_report_worker_trusted_operator.py:271-297 | from one read of a finished run to the next nothing but the one route is added, if and only if the namespace ids stayed |
| Report.NamespacesMayChange | scripts/ausmalwiese_report_worker_trusted_operator.py:179-188 | any other good pair of namespace ids in one read lets the run finish all the same |
| ReportHonest.FinishesIffNothingLost | scripts/ausmalwiese_report_worker_trusted_operator.py:131-301 | against a provider that does what it is asked, with requests and replies that may be lost and routes listed in any order, the approved run finishes if and only if every read is answered, every write delivered, and the routes are listed in the order added |
| ReportHonest.OnlyTheLastIsInDoubt | scripts/ausmalwiese_report_worker_trusted_operator.py:219-301 | however a run ends, all its writes but the last have taken effect, so the site is at one of two known points |
| Transport.CloudflareTransport.ReadSnapshot | scripts/ausmalwiese_stats_worker_runtime_v1.py:771-812 | at most ten GETs, eight or ten when it succeeds, never beyond the budget; with ten left the result is exactly what can be read: no GET failed, both versions known, latest and active equal unless allowed |
| Transport.ReadableIsValid | scripts/ausmalwiese_stats_worker_runtime_v1.py:548-739 | what the transport lets through (one date, no flags, known database and rate limiter, the candidate's handlers) satisfies the protocol's own validation |
| StatsFields.ReadIff | scripts/ausmalwiese_stats_worker_runtime_v1.py:548-812 | in the members: a read comes through if and only if none of its eight or ten GETs failed and target, bindings, the two known fingerprints, date, flags and handlers are those reviewed |
| StatsFields.ValidIff | scripts/ausmalwiese_stats_worker_exact_deploy.py:137-192 | in the members: which snapshots the protocol's own validation accepts |
| Transport.CloudflareTransport.GetPairs | scripts/ausmalwiese_stats_worker_runtime_v1.py:741-769 | the per-zone and per-version loops make their GETs up to the first that fails, and fail only for that or the budget |
| Transport.CloudflareTransport.UploadVersionOnce | scripts/ausmalwiese_stats_worker_runtime_v1.py:364-391 | at most one upload, none by a recovery transport |
| Transport.CloudflareTransport.DeployVersionOnce | scripts/ausmalwiese_stats_worker_runtime_v1.py:364-391 | at most one deployment, after an upload or by a recovery transport |
| Deploy.FutureRunOnce | scripts/ausmalwiese_stats_worker_exact_deploy.py:239-316 | for any provider the calls are `Calls`; success exactly when all six are answered well; the stop code tells which was not and ends in `_STOP` exactly when the upload was dispatched; at most 40 GETs |
| Deploy.DispatchedOnce | scripts/ausmalwiese_stats_worker_exact_deploy.py:280-312 | the one upload and the one deployment stand at their places; the deployment is of a version a read has confirmed |
| Deploy.SuccessFrame | scripts/ausmalwiese_stats_worker_exact_deploy.py:194-237 | success means the last snapshot equals the first but for version ids, deployment id and code digests |
| StatsFields.ApprovedIff | scripts/ausmalwiese_stats_worker_exact_deploy.py:249-261 | the one approval, but for its digest, that lets a run begin |
| StatsFields.RequestIs | scripts/ausmalwiese_stats_worker_exact_deploy.py:202-215 | the upload inherits all seven bindings and asks for the live date and flags, sorted |
| StatsFields.UploadRests | scripts/ausmalwiese_stats_worker_exact_deploy.py:262-282 | in the members: the upload is made if and only if two equal reads show a sound worker with its latest version live and the approved digest |
| StatsFields.DeploymentRests | scripts/ausmalwiese_stats_worker_exact_deploy.py:226-298 | in the members: the deployment is made if and only if the upload was read back as the latest version with the reviewed code and all else as before |
| StatsFields.SuccessRests | scripts/ausmalwiese_stats_worker_exact_deploy.py:235-316 | in the members: success if and only if the uploaded version was read back live under a new deployment id the provider named, with all else as before |
| DeployCloud.RunSucceedsIff | scripts/ausmalwiese_stats_worker_exact_deploy.py:239-316 | through the transport, a run in which nothing is lost succeeds if and only if it is approved for the state as it is, that state can be read with its latest version active, and the provider finds the reviewed handlers in the upload |
| DeployCloud.UploadCanBeRead | scripts/ausmalwiese_stats_worker_runtime_v1.py:548-686 | after the upload the worker can be read exactly when the provider finds the two handlers in the candidate |
| DeployFlags.CoreSucceedsIffFlagsSorted | scripts/ausmalwiese_stats_worker_exact_deploy.py:202-237 | of the protocol alone, with an adapter that reports flags: it succeeds if and only if they were sorted |
| DeployFlags.FlagsAreUnreadable | scripts/ausmalwiese_stats_worker_runtime_v1.py:662-669 | the transport of this runtime reads no version that has flags |
| DeployCloud.SuccessActivatesCandidate | scripts/ausmalwiese_stats_worker_exact_deploy.py:239-316 | at an honest provider success leaves the candidate active with bindings, configuration and routes of the version before, older versions untouched |
| DeployExample.RunSucceeds | scripts/ausmalwiese_stats_worker_exact_deploy.py:239-316 | a concrete worker that meets the condition of `DeployCloud.RunSucceedsIff`: the run succeeds |
| DeployExample.LostReplyNeedsRecovery | scripts/ausmalwiese_stats_worker_exact_deploy.py:280-295 | a concrete worker: the upload's reply is lost, the same run again stops before any write, an approved recovery deploys the version |
| DeployReplay.SpentStays | scripts/ausmalwiese_stats_worker_exact_deploy.py:262-278 | once an applied write has spent an approval, no run of either kind makes it usable again |
| DeployReplay.SpentBlocks | scripts/ausmalwiese_stats_worker_exact_deploy.py:262-278 | a spent approval lets no write take effect |
| DeployReplay.ApprovalsPayOnce | scripts/ausmalwiese_stats_worker_exact_deploy.py:239-316 | over any number of deployment and recovery runs with lost requests or replies, at most one upload, one deployment and one recovery deployment take effect |
| DeployInterleaved.JudgedAsByTheProtocol | scripts/ausmalwiese_stats_worker_exact_deploy.py:262-312 | each operator goes on after a read exactly when the protocol, given the same answers, counts one more call as answered well |
| DeployInterleaved.NextKeeps | scripts/ausmalwiese_stats_worker_exact_deploy.py:262-316 | every step of any operator keeps: uploaded ids and turns are each run's own, and no run past its second read uploaded after one that is sure |
| DeployInterleaved.AtMostOneSucceeds | scripts/ausmalwiese_stats_worker_exact_deploy.py:239-316 | for any number of interleaved runs under one approval, with lost requests and replies and snapshots read in two parts, at most one succeeds |
| DeployWindow.AnotherUploadIff | scripts/ausmalwiese_stats_worker_exact_deploy.py:262-300 | in every reachable state with an upload done, another can take effect if and only if some run is about to upload or took the approved latest version in its second read and will be |
| DeployWindow.TwoUploadsIff | scripts/ausmalwiese_stats_worker_exact_deploy.py:262-300 | the runs now between that GET and their upload can make two uploads between them if and only if they are two or more |
| DeployWindow.OneAtATimeUploadsOnce | scripts/ausmalwiese_stats_worker_exact_deploy.py:262-300 | in every run from the start in which no two stand there together at most one upload takes effect |
| DeployWindow.ReportedStaysLiveIff | scripts/ausmalwiese_stats_worker_exact_deploy.py:297-316 | the version of a run that succeeded stays live, whatever comes, if and only if it is live and no other run is past its second read and about to deploy |
| DeployWindow.ReportedIsLive | scripts/ausmalwiese_stats_worker_exact_deploy.py:304-312 | when a run succeeds its version is live |
| DeployTwice.ApprovalCanPayTwice | scripts/ausmalwiese_stats_worker_exact_deploy.py:262-316 | from every state from which a run alone succeeds an explicit interleaving uploads and deploys twice and leaves live another version than the one reported |
| Recovery.DeployExisting | scripts/ausmalwiese_stats_worker_runtime_v1.py:962-1014 | at most one deployment of the uploaded version; success exactly when all four calls are answered well; the code tells which was not and admits an unknown outcome exactly when the deployment was dispatched |
| StatsFields.RecoveryRests | scripts/ausmalwiese_stats_worker_runtime_v1.py:912-970 | in the members: a recovery deploys if and only if two equal reads with the approved digest show the candidate uploaded, not live, and different in its code alone |
| StatsFields.RecoveredRests | scripts/ausmalwiese_stats_worker_runtime_v1.py:971-1006 | in the members: it succeeds if and only if that version was read back live under a new id the provider named, with all else as before |
| RecoveryHonest.RecoverySucceedsIff | scripts/ausmalwiese_stats_worker_runtime_v1.py:912-1014 | a recovery in which nothing is lost succeeds if and only if it is approved for the state as it is, with the candidate uploaded, not active, and otherwise equal |
| RecoveryHonest.UploadedIsRecoverable | scripts/ausmalwiese_stats_worker_runtime_v1.py:912-1014 | whatever became of the rest of a run, an upload that took effect can be recovered from |
| Runtime.CheckState | scripts/ausmalwiese_stats_worker_runtime_v1.py:889-959 | the preflights pass exactly on two equal acceptable snapshots, yield their digest and write nothing |
| Runtime.Run | scripts/ausmalwiese_stats_worker_runtime_v1.py:1017-1126 | exit 0 if and only if the preflight's two reads are readable, equal and acceptable, or the mode's writes were made and confirmed; otherwise 3 exactly for bad arguments and for a preflight or a recovery that wrote nothing, and 4 in every other case; no mode uses more than 40 of 48 reads |
| ZoneBinding.TrustedZoneBindingAdapter.VerifiedZoneId | scripts/ausmalwiese_stats_zone_binding_adapter_v1.py:68-90 | accepted exactly the one active, allowlisted zone |
| ZoneBinding.ApplyOnce | scripts/ausmalwiese_stats_zone_binding_v1.py:104-167 | budgets stay within `deploys <= uploads <= 1`; it writes exactly when lookups, reads and approval agree, succeeds exactly when both writes were confirmed |
| StatsFields.CorrectionApprovedIff | scripts/ausmalwiese_stats_zone_binding_v1.py:104-118 | the one approval, but for its version and digest, that lets a correction begin |
| StatsFields.CorrectionIs | scripts/ausmalwiese_stats_zone_binding_v1.py:122-134 | the correction sends the zone tag as text and inherits every other binding |
| StatsFields.CorrectionRests | scripts/ausmalwiese_stats_zone_binding_v1.py:37-62 | in the members: the correction uploads if and only if both lookups give the allowlisted active zone and two equal, approved reads show the reviewed code live under another zone tag |
| StatsFields.CorrectedRests | scripts/ausmalwiese_stats_zone_binding_v1.py:81-150 | in the members: it deploys if and only if the upload was read back with the one tag replaced and all else as before |
| ZoneBinding.PreservedMeansRetagged | scripts/ausmalwiese_stats_zone_binding_v1.py:74-79 | the name-by-name check holds exactly of the bindings with the one tag replaced |
| ZoneBinding.ZoneFrame | scripts/ausmalwiese_stats_zone_binding_v1.py:81-167 | success means the snapshots differ only in version ids, deployment id and the zone tag's fingerprint |
| ZoneHonest.CorrectionSucceedsIff | scripts/ausmalwiese_stats_zone_binding_v1.py:37-167 | through the transport, a correction in which nothing is lost succeeds if and only if both lookups give the zone, the state can be corrected, the approval is for it, and the provider finds the reviewed handlers |
| RedirectRules.WhereHolds | scripts/ausmalwiese_redirect_inventory.py:151-180 | the recorded positions are exactly those of the rules of that scope |
| RedirectRules.CountRules | scripts/ausmalwiese_redirect_inventory.py:151-180 | the scan yields every position list and count, or refuses exactly when an `enabled` is not a boolean |
| RedirectRules.Inspect | scripts/ausmalwiese_redirect_inventory.py:36-191 | an inventory is accepted exactly when zone, ruleset list and entry point are complete, agree, and are not too long to be digested |
| RedirectWrite.CountsMeanUnambiguous | scripts/ausmalwiese_redirect_write_v1.py:148-165 | the two counts are empty exactly when every rule, enabled or not, is an anchored host equality |
| RedirectWrite.Analyze | scripts/ausmalwiese_redirect_write_v1.py:148-209 | analysable states are exactly the unambiguous ones with at most one, identified legacy rule; result as specified |
| RedirectWrite.FixedZoneRedirectWriteTransport.ReadPhase | scripts/ausmalwiese_redirect_write_v1.py:401-444 | passes on usable entry point replies and remembers id and legacy rule ids |
| RedirectWrite.FixedZoneRedirectWriteTransport.WriteOnce | scripts/ausmalwiese_redirect_write_v1.py:446-539 | at most one write, only a permitted one, and only what was asked |
| RedirectRun.RunOnce | scripts/ausmalwiese_redirect_write_v1.py:325-369 | exactly the planned write is sent, from the approved baseline alone; a pass exactly when the second inventory confirms it; otherwise the code of the first check that fails |
| RedirectRun.PermitsExactly | scripts/ausmalwiese_redirect_write_v1.py:446-487 | the exact set of writes the transport permits in each remembered state: no other method, path or body |
| RedirectRun.OnlyThePlanIff | scripts/ausmalwiese_redirect_write_v1.py:446-487 | the planned write is the only one permitted if and only if no legacy rule is remembered |
| RedirectRun.AdditionAlsoPermitted | scripts/ausmalwiese_redirect_write_v1.py:446-487 | a concrete state whose plan is the update and in which the addition would be permitted too |
| RedirectRun.PlanIsPermitted | scripts/ausmalwiese_redirect_write_v1.py:243-276 | every plan of an analysed state is permitted by the separately derived state |
| RedirectMeaning.PassMeans | scripts/ausmalwiese_redirect_write_v1.py:279-369 | whenever a run passes, the legacy host gets the permanent redirect on every path and every other host what it got before |
| RedirectMeaning.PassRedirects | scripts/ausmalwiese_redirect_write_v1.py:43-57 | whenever a run passes, clients of the old host are answered 301 with the new host's address of the same path and query, all others as before |
| RedirectFields.InspectedIff | scripts/ausmalwiese_redirect_inventory.py:61-191 | in the members: which replies make an inventory; the list must name the entry point once and no other, or none where it is absent |
| RedirectFields.RuleIs | scripts/ausmalwiese_redirect_write_v1.py:43-66 | the rule and the ruleset that are written, member by member |
| RedirectFields.PlanIs | scripts/ausmalwiese_redirect_write_v1.py:243-276 | verb, address and body of the one planned write in each analysed state |
| RedirectFields.PassConfirms | scripts/ausmalwiese_redirect_write_v1.py:279-322 | a pass has confirmed one enabled legacy rule with the reviewed members, the same ruleset and rule ids, all other rules as before, and a change of the inventory exactly when something was written |
| RedirectMeaning.OtherHostsSeeUnrelated | scripts/ausmalwiese_redirect_write_v1.py:166-178 | first match for any other host is decided by the unrelated rules alone |
| RedirectMeaning.PatchKeepsUnrelated | scripts/ausmalwiese_redirect_write_v1.py:243-276 | the update reaches the one legacy rule and leaves the rest and its order |
| RedirectMeaning.HonestRunPasses | scripts/ausmalwiese_redirect_write_v1.py:325-369 | at an honest provider the run passes from every analysable zone if and only if there is room for the new rule or ruleset and the inventory after the write is not too long; the next run finds nothing to do |
| RedirectMeaning.FullZoneStopsAfterWrite | scripts/ausmalwiese_redirect_inventory.py:36-46 | a zone whose inventory is as long as it may be has the rule written and then fails the second inventory |
| Ingress.HostInstalled | scripts/ausmalwiese_goatcounter_simple_route_v1.py:46-62 | the position bookkeeping decides whether a host's rules are its fallback alone or its entry and then the fallback |
| Ingress.Prepare | scripts/ausmalwiese_goatcounter_simple_route_v1.py:27-75 | desired config and `changed`, or the code of the first failing check, as `Refusal` and `Desired` say |
| IngressMeaning.PreparedMeans | scripts/ausmalwiese_goatcounter_simple_route_v1.py:27-75 | for every accepted config, host and path the prepared table routes by the same rule as before, except the two hosts on the one path, which reach the new backend |
| IngressMeaning.PreparedReaches | scripts/ausmalwiese_goatcounter_simple_route_v1.py:10-75 | after preparing, `/count` of the public hosts reaches port 9194 under the counter's own name, `/api/pageview` port 9193 under the host asked for, and every other request what it reached before |
| IngressMeaning.AcceptsIff | scripts/ausmalwiese_goatcounter_simple_route_v1.py:27-66 | in the members: which configs are accepted |
| IngressMeaning.FallbackIs | scripts/ausmalwiese_goatcounter_simple_route_v1.py:52-57 | in the members: which fallbacks are accepted, an address of the machine itself with a port other than the two |
| IngressMeaning.PreparedTwice | scripts/ausmalwiese_goatcounter_simple_route_v1.py:64-75 | preparing again is accepted and changes nothing; `changed` is true exactly when the config differs |
| IngressMeaning.OtherRefuses | scripts/ausmalwiese_goatcounter_tunnel_v1.py:52-65 | neither transformer accepts the other's output |
| IngressMeaning.ErasingRestores | scripts/ausmalwiese_goatcounter_tunnel_v1.py:68-77 | taking out the entries gives back the original config |
| IngressMeaning.InsertedOnHost | scripts/ausmalwiese_goatcounter_tunnel_v1.py:71-77 | rewriting puts one entry right before a public host's fallback among that host's rules |
| IngressMeaning.FirstOnHostDecides | scripts/ausmalwiese_goatcounter_simple_route_v1.py:37-44 | after the hostname checks nothing but a public host's own rules can decide its requests |
| IngressMeaning.FallbackIsNoEntry | scripts/ausmalwiese_goatcounter_tunnel_v1.py:55-61 | an accepted fallback is never one of the two entry services under either of their names |
| IngressMeaning.PlainIsAccepted | scripts/ausmalwiese_goatcounter_simple_route_v1.py:27-63 | the table of two fallbacks is accepted by both transformers |
| IngressMeaning.WildcardRouterHonours | scripts/ausmalwiese_goatcounter_simple_route_v1.py:43-44 | the assumptions about router and glob are met by wildcard hostnames and shell-style matching |
| TunnelRun.Run | scripts/ausmalwiese_goatcounter_tunnel_v1.py:110-136 | the PUT is sent exactly when approved, needed and unchanged since the first read; its outcome is verified or left for reconciliation; without a write the report or the stop code is exactly that of the first check that fails |
| TunnelRun.ReportedPresentRoutes | scripts/ausmalwiese_goatcounter_tunnel_v1.py:126-135 | a verified write sends the exact path to port 9193 under the host asked for and routes all else as the approved config did |
| OriginReader.ReadHeaders | scripts/ausmalwiese_goatcounter_origin_v1.py:140-151 | result and rest are those of `HeadRun`; never more than limit + 25 bytes taken, no receive of size zero, and it terminates |
| OriginReader.CheckFields | scripts/ausmalwiese_goatcounter_origin_v1.py:160-168 | the dictionary comparison accepts exactly four different expected headers with their values |
| OriginReader.ReadMessage | scripts/ausmalwiese_goatcounter_origin_v1.py:154-178 | result and rest are those of `MessageRun`; bounded and without empty receives |
| OriginReader.AcceptedIsCanonical | scripts/ausmalwiese_goatcounter_origin_v1.py:154-178 | under every chunking an accepted id came in exactly one canonical request, and nothing behind it was taken |
| OriginChunking.EveryChunkingAccepted | scripts/ausmalwiese_goatcounter_origin_v1.py:140-178 | every timely chunking of a canonical message with head at most limit - 3 is accepted with its id |
| OriginChunking.ChunkingDecides | scripts/ausmalwiese_goatcounter_origin_v1.py:142-149 | all chunkings pass if and only if the head is at most limit - 3; some chunking passes if and only if it is at most the limit |
| OriginChunking.TrailingBytesDepend | scripts/ausmalwiese_goatcounter_origin_v1.py:169-177 | a request with bytes behind it passes in one chunking and fails in another |
| OriginChunking.FindInMessage | scripts/ausmalwiese_goatcounter_origin_v1.py:142-150 | in any part of a message the blank line is behind the head or not found yet |
| OriginHeads.AcceptedHeads | scripts/ausmalwiese_goatcounter_origin_v1.py:157-168 | the accepted heads are exactly the request line with the four headers in any order, letter case and blanks |
| OriginHeads.UsualHead | scripts/ausmalwiese_goatcounter_origin_v1.py:35-36 | the head a client usually writes, capitals and blanks included, is accepted |
| OriginHeads.HeadsOfEveryLength | scripts/ausmalwiese_goatcounter_origin_v1.py:157-168 | there are accepted heads of every length from 133 on, so every case of the limit arises |
| Catalog.VisibleIds | scripts/ausmalwiese_goatcounter_origin_v1.py:79-97 | accepts exactly lists of entries with different string ids and yields the published ids |
| Catalog.PublishedMeans | scripts/ausmalwiese_goatcounter_origin_v1.py:85-96 | in the members of the JSON: an id is published if and only if an entry of that seven-digit id is neither hidden nor made invisible and every page of it, or itself without pages, has a preview and a print |
| Catalog.PublishedPageIds | scripts/ausmalwiese_goatcounter_pageview_adapter_v1.py:92-106 | the same ids from the same catalogs, or both refuse |
| Catalog.Renderable | scripts/ausmalwiese_goatcounter_pageview_adapter_v1.py:72-89 | the page loop with early returns is the collector's condition on pages |
| Catalog.Cache.Get | scripts/ausmalwiese_goatcounter_origin_v1.py:112-130 | if status determines content, always the ids of the file as it is; a failed read or parse leaves nothing cached |
| Collector.PoolIsKept | scripts/ausmalwiese_goatcounter_origin_v1.py:220-262 | from the start, in every interleaving: free and held slots make up four; nobody is closed, given a slot, made to return it or forwarded more than once; only the trusted peer, and only an id read from it and found in the catalog |
| Collector.ForwardedIff | scripts/ausmalwiese_goatcounter_origin_v1.py:227-240 | from the start, at rest: an id was forwarded for a connection, once, if and only if it was read from it and the catalog read for it had that id |
| Collector.RunsAreShort | scripts/ausmalwiese_goatcounter_origin_v1.py:227-262 | a run has at most nine steps for each accepted connection |
| Collector.PoolAtRest | scripts/ausmalwiese_goatcounter_origin_v1.py:227-262 | from the start, at rest: every accepted connection is closed once with its slot returned once, and the slots missing are as many as closes that raised |
| Collector.LeakHappens | scripts/ausmalwiese_goatcounter_origin_v1.py:238-240 | a concrete run in which a raising close costs a slot |
| Lanes.ReconstructActiveLanes | scripts/auto-run-lane-eligibility.py:41-48 | the sorted active lanes, or the stop of the first refused or repeated record |
| LaneRecords.NormalLanesAre | scripts/auto-run-lane-eligibility.py:19-38 | normalisation yields exactly the well-formed lanes (ordered keys, conflict evidence, LIVE authority exactly for LIVE_EXCLUSIVE, waiting state) and yields each from itself |
| Lanes.Classify | scripts/auto-run-lane-eligibility.py:50-70 | the verdict with its blockers is that of `Decide`, which `LaneDecisions.VerdictIs` tells by what is active |
| LaneDecisions.VerdictIs | scripts/auto-run-lane-eligibility.py:50-70 | told by what is active: the decision is the first hindrance in the fixed order, and the blockers are exactly what it names, sorted |
| Lanes.IdentityInjective | scripts/auto-run-lane-eligibility.py:40 | equal identities mean the same issue of the same repository |
| LaneRuns.ScannedIs | scripts/auto-run-lane-eligibility.py:41-47 | records are accepted exactly when each is and no two are of one issue |
| LaneRuns.ClassifyForgetsOrder | scripts/auto-run-lane-eligibility.py:41-70 | acceptance and verdict do not depend on the order of the records |
| LaneRuns.SharedAre | scripts/auto-run-lane-eligibility.py:57-61 | the conflict blockers are exactly the shared keys, each with the lane holding it |
| LaneRuns.AdmittedIs | scripts/auto-run-lane-eligibility.py:52-70 | admitted exactly when nothing active hinders it and, for source lanes, a worker is free |
| LaneRuns.RemovalKeepsAdmission | scripts/auto-run-lane-eligibility.py:50-70 | taking away a record never turns an admission into a queue or a refusal |
| LaneRuns.RunsFromNothingAreSafe | scripts/auto-run-lane-eligibility.py:50-70 | in every run from no records the lanes that go on are of different issues, share no conflict key, and at most one is LIVE_EXCLUSIVE |
| LaneRuns.RunsAreSafe | scripts/auto-run-lane-eligibility.py:50-70 | the same from any records that are so |
| LaneRuns.StepCapacity | scripts/auto-run-lane-eligibility.py:67-70 | a step leads beyond the worker limit if and only if it resumes a lane while all workers are taken |
| LaneRuns.CapacityOverRuns | scripts/auto-run-lane-eligibility.py:67-70 | a run stays within the limit throughout if and only if every resumption finds a worker free |
| LaneRuns.CapacityFromNothing | scripts/auto-run-lane-eligibility.py:67-70 | the same for every run from no records |
| LaneRuns.AdmissionStallsIff | scripts/auto-run-lane-eligibility.py:41-55 | after an admission a valid candidate can be classified if and only if no listed record is of the admitted issue; only a finished one can be |
| LaneExample.ResumptionExceedsLimit | scripts/auto-run-lane-eligibility.py:67-70 | a concrete run under the policy on file: five admissions, one resumption, five workers under a limit of four |
| LaneRuns.ReadmissionStalls | scripts/auto-run-lane-eligibility.py:41-55 | admitting an issue again beside its finished record makes every later classification stop |
| LaneExample.ReadmissionHappens | scripts/auto-run-lane-eligibility.py:41-55 | a concrete finished issue is admitted again, and then no candidate can be classified |
| AdoptionRun.WriteStage | scripts/adopt-simple-deploy-hermes-v1.py:254-278 | succeeds exactly when the name is free, every call is done and every write makes progress; success leaves the whole content settled under the stage name, and whatever happens every state on the way is safe and the counters are true |
| AdoptionRun.PublishAll | scripts/adopt-simple-deploy-hermes-v1.py:312-357 | from two staged files: every state safe, success means adopted for good and comes exactly when all nine calls are done and the compared files are the same |
| AdoptionRun.Apply | scripts/adopt-simple-deploy-hermes-v1.py:292-363 | in every state passed, now and after a power loss, the registry is old or new, the compose file complete or absent, the new registry never without it; counters equal the mutations done; it ends adopted if and only if the compared files are the same, every call is done and every write makes progress |
| AdoptionRun.AllDoneIsEnough | scripts/adopt-simple-deploy-hermes-v1.py:254-357 | when nothing fails, one call for each byte and fifteen more are enough |
| AdoptionRun.ReplaceSafeIff | scripts/adopt-simple-deploy-hermes-v1.py:324-340 | replacing the registry is safe if and only if the compose file's entry is durable |
| AdoptionRun.LinkSafeIff | scripts/adopt-simple-deploy-hermes-v1.py:272-318 | linking the staged file is safe if and only if its bytes are settled |
| WorkerRoutes.VerdictIsRight | scripts/ausmalwiese_goatcounter_simple_evidence_v1.py:24-63 | a definite verdict is true if and only if some scheme, public host and query make `/count` match the route |
| WorkerRoutes.UnderstoodIsDefinite | scripts/ausmalwiese_goatcounter_simple_evidence_v1.py:32-53 | every pattern of the understood grammar is read back as written and gets a definite verdict |
| WorkerRoutes.HostOkIff | scripts/ausmalwiese_goatcounter_simple_evidence_v1.py:36-46 | the understood hosts are two or more labels with a star, or a star and a dot, in front or not |
| WorkerRoutes.PathMeans | scripts/ausmalwiese_goatcounter_simple_evidence_v1.py:54-62 | the path test covers exactly the patterns that can match the path, with or without a query |
| Aggregates.Gather | scripts/ausmalwiese_goatcounter_offline_privacy_probe_v1.py:356-364 | a table is gathered exactly when all rows are in scope and no hour or day comes twice |
| Aggregates.Regroup | scripts/ausmalwiese_goatcounter_offline_privacy_probe_v1.py:392-396 | the in-place loop yields for each day with a count the 24 counts of its hours |
| Aggregates.InspectAggregates | scripts/ausmalwiese_goatcounter_offline_privacy_probe_v1.py:351-475 | passes if and only if reference, daily and three dimension tables repeat the hourly counts, blank, and these make up the expected views |
| Aggregates.RowsAre | scripts/ausmalwiese_goatcounter_offline_privacy_probe_v1.py:351-475 | row by row: a passing fixture holds the hourly counts of one path, the same under the one blank reference, and for each day the views of its hours under no language, location or screen size |
| Aggregates.RegroupingAddsUp | scripts/ausmalwiese_goatcounter_offline_privacy_probe_v1.py:392-427 | regrouping hours into days keeps their sum |
| Aggregates.EveryTableAddsUp | scripts/ausmalwiese_goatcounter_offline_privacy_probe_v1.py:351-475 | in a passing fixture every table adds up to the expected views |

## Left out

- HTTP, TLS, sockets, response sizes and encodings, JSON parsing: a call is answered with a decoded value or fails.
- Hash internals: a digest is a function; replay and redirect completeness assume it injective. Regular expressions
  for dates and flags are spelled out, the decoding of a host-equality expression is a constructor of `Expression`.
- Python's `True == 1` in redirect rules, and floats equal to integers: rule members are typed values. Lane records do
  model it.
- Letters outside ASCII in hostnames: `lower()` is modelled on ASCII.
- File ownership, modes, symbolic links and parent directories; `fchown` and `fchmod` only as calls that can fail.
- Deadlines: a receive may find the deadline passed at any time; the clock itself is not modelled.
- Journal.ReservedImpliesEarlier, Journal.TornBlocks: for runs without power loss; with it the exact condition is `Journal.PowerLossChains`.
- Journal.ReturnedHadEvidence: the record named may be gone after a power loss, under the same condition.
- AdoptionRun.Apply: one writer; a concurrent change of the registry is not modelled, its checks are.
- Ledger.SameAnswers: every verification is completed with matching digests, as the in-memory ledger has none.
- Collector.PoolIsKept: an exception while closing in the accepting loop, which would end that loop, is not modelled.
- Catalog.Cache.Get: the lock is what makes one call at a time; concurrent calls are not modelled.
- DeployInterleaved.AtMostOneSucceeds: recovery runs beside the deployments are not interleaved with them, and every run shows the same approval.
- ZoneHonest.CorrectionSucceedsIff: runs in which something is lost; for those `ZoneBinding.ApplyOnce` says what was dispatched.
- RedirectMeaning.HonestRunPasses: the length of the inventory's text is any function of it.
- Lanes.Classify: a value that cannot be put in a set raises `TypeError` in Python and is one more refusal here; the policy is any policy, not only the one on file. The migration of legacy controllers is left out.
- TunnelRun.Run: looking up the tunnel is part of the first answer; digests are of the whole snapshot.
- Aggregates.InspectAggregates: the schema, site, user and token checks before it; which ten characters are a date is a parameter; stop codes of the three gathering loops are named uniformly.
- Runtime.Run: the command line is one flag for whether its bindings and confirmations are right.
- Provisioners, subprocesses, SQLite access, report rendering, readiness classifiers, contract comparisons: constant
  comparisons or plumbing.
