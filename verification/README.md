# Verification of the local voice harness

Dafny models of the parts of the harness whose correctness rests on protocols and invariants rather than on any
one function, and proofs of what those parts promise. Each model follows the branches, constants and error cases
of the code it cites.

- **Configuration activation** (`ActivationJournal`, `ActivationSafety`, `ActivationRuns`, `ActivationSightings`,
  `ActivationReading`, `ActivationExecutor`): the durable journal of a configuration change, the executor that
  restarts services and validates a voice under the user's consent, and its compensating rollback.
  `ActivationExecutor.World` is the executor as code over the journal and the configuration file; it can be killed
  between any two steps, and the user and the daemon act between any two steps. Each of its steps extends a run of
  the state machine in `ActivationRuns`, over whose runs the theorems are proved. `ConfigCommit` is the
  compare-and-set the rollback relies on.
- **Outbox** (`OutboxStore`, `OutboxDrain`): leased execution of external effects with a dispatch fence.
- **Delivery of results** (`DeliveryLease`, `AnnouncementDrain`): leases on job results, and the announcement
  drain over them.
- **Recorder ownership** (`RecorderProtocol`, `RecorderLock`): two ownership files behind one lock, pid reuse, and a
  cancel that drops the lock in the middle.
- **Ticket targets and merges** (`SpokenNumbers`, `TicketTargets`, `TicketExtraction`, `TicketMerge`).
- **Vocabulary** (`Vocabulary`, `VocabularyStore`): alias resolution and the alias store.
- **Streams and connections** (`VadCapture`, `StreamAssembly`, `HttpPool`).

`Prelude` and `AsciiText` hold shared datatypes and string operations. A process that may be killed returns a
`Step`; an exception is `Raise`, without its message. Where several processes or threads share state, a pure
module has the events and the theorems over all their interleavings, and a class has the code, which may only take
enabled events; its `Interfere` methods let everybody else take any number of steps.

`dafny verify dfyconfig.toml` checks the whole project.

Three promises hold only under a condition, which is proved with them. A configuration change that raises has left
everything as it was, unless only the listing of services afterwards failed (`ConfigCommit.Directory.Commit`). A
response marked complete by `readline` with limit 0 need not be read to the end (`HttpPool.EndIsHonest`,
`HttpPool.ZeroLimitFools`). A cardinal that is a multiple of a hundred absorbs a following "and" with a number below a
hundred (`SpokenNumbers.AndIsAbsorbed`). And a delivered result can be delivered again once a new one is prepared
(`DeliveryLease.AcknowledgementsAdvance`): "at most once" is per prepared result.

## Model

| member | source | states |
|---|---|---|
| ActivationRuns.CallsHappenAtMostOnce | src/local_voice_harness/config_activation.py:458-526 | in every run of executions, crashes, user steps and edits, each restart call (per record, phase and service) and each voice validation happens at most once |
| ActivationRuns.WritesAreBounded | src/local_voice_harness/config_activation.py:486-603 | however often an execution is killed and restarted, the executor writes the journal of a record with n targets at most 4n + 6 times, digest refreshes apart, and of those there are no more than executions started |
| ActivationRuns.RefreshedOncePerExecution | src/local_voice_harness/config_activation.py:1161-1190 | between any two digest refreshes of a record another execution of it starts, and one started before the first: a single execution refreshes at most once |
| ActivationRuns.NoCallWithoutConsent | src/local_voice_harness/config_activation.py:416-442 | every restart and every validation is preceded, in its run, by the user's acceptance of that very record |
| ActivationRuns.ThirdVoiceStays | src/local_voice_harness/config_activation.py:849-945 | until the user edits the configuration or asks for another activation, no number of executions, crashes and rollbacks does more to it than put the old voice in the place of the new one, everything else kept; any other voice, once stored, stays |
| ActivationRuns.VerdictsAreSound | src/local_voice_harness/config_activation.py:1256-1318 | a voice record never ends partial; a success has both messages delivered, one evidenced restart per target in target order, a validated voice, and the configuration that was stored at the record's last read event, made on these very outcomes, held the new voice or had the expected digest; a report of full restoration has evidence for every service, the stored configuration at its last read event had the rollback's digest, and a configuration with that digest and the old voice was stored before |
| ActivationRuns.ReadingsAreReal | src/local_voice_harness/config_activation.py:1256-1262 | the reading a verdict rests on is what was stored at the record's last read event of the run |
| ActivationRuns.RollbackDigestIsReal | src/local_voice_harness/config_activation.py:872-945 | the digest a rollback restores services to is that of a configuration that was stored, during the run, with the old voice in it |
| ActivationRuns.ExpectedDigestIsReal | src/local_voice_harness/config_activation.py:1161-1190 | the digest services are expected to show is the offered one, or that of a configuration that was stored, during the run, with the new voice in it |
| ActivationRuns.HistoryCounts | src/local_voice_harness/config_activation.py:361-372 | the counters the invariant speaks of are the numbers of call, write, start and digest-refresh events in the run |
| ActivationRuns.NextKeepsInv | src/local_voice_harness/config_activation.py:416-638 | each step of the daemon, the user, the executor or a crash keeps the ledger, consent, budget and evidence invariant |
| ActivationSafety.RankFalls | src/local_voice_harness/config_activation.py:486-603 | every executor write except the digest refresh strictly lowers one rank over status, restored flag, pending and unattempted outcomes; the refresh leaves it |
| ActivationSafety.ApplyKeepsTerms | src/local_voice_harness/config_activation.py:361-372 | no transition rewrites identity, targets, key or values, and a record that began to roll back can only fail |
| ActivationSafety.CallKeepsSafe | src/local_voice_harness/config_activation.py:458-526 | a call whose attempt is already journaled, and which was not made before, keeps the invariant: write-ahead suffices |
| ActivationSafety.SuccessIsSound | src/local_voice_harness/config_activation.py:772-845 | a journal entry SUCCEEDED proves delivery, acceptance, for every target an installed, active service with changed identity and the expected digest or voice, and a matching reading made when the outcomes stood as they stand now; that readings are of the stored configuration is `ActivationRuns.ReadingsAreReal` |
| ActivationReading.EveryJournalReadsBack | src/local_voice_harness/config_activation.py:212-286 | after any run the stored record passes every identity, target, outcome and digest check of the reader, so no crash leaves a journal the next execution rejects |
| ActivationSightings.RestartsWereObserved | src/local_voice_harness/config_activation.py:787-845 | in every run, an outcome recorded as restarted had its service looked at twice for that record: before its restart was attempted, and later, with the attempt in the journal, when it was active under another identity and showed what was expected; except that a rollback leaves alone a service it found running with the restored configuration |
| ActivationSightings.SightingsAreReal | src/local_voice_harness/config_activation.py:787-845 | a snapshot an outcome may be based on was taken by an event of the run, on the journal as it then stood |
| ActivationExecutor.World.CreateOffer | src/local_voice_harness/config_activation.py:374-414 | an offer is published exactly when none is unacknowledged, with duplicate targets removed and every outcome fresh |
| ActivationExecutor.World.UserStep | src/local_voice_harness/config_activation.py:361-372 | the store applies a guarded transition only to the record with that identity and otherwise changes nothing |
| ActivationExecutor.World.Write | src/local_voice_harness/config_activation.py:335-372 | an executor write leaves exactly the transition's record in the journal, and arms the call it announces |
| ActivationExecutor.World.ObserveRestart | src/local_voice_harness/config_activation.py:787-845 | an outcome is recorded as restarted only on an observation that proves it, and the observation was made on the record as it stands in the journal |
| ActivationExecutor.World.RestartAll | src/local_voice_harness/config_activation.py:1216-1255 | the forward loop leaves no outcome pending, whatever it found half done, and changes nothing else in the record |
| ActivationExecutor.World.ValidateVoice | src/local_voice_harness/config_activation.py:1125-1182 | at most one call is added, the provider's for this record, even if the execution is killed; the record goes on as validated only with exactly that call made and its attempt in the journal, and otherwise rolls back |
| ActivationExecutor.World.RefreshVoiceDigest | src/local_voice_harness/config_activation.py:1161-1190 | the configuration is read once more: with another voice stored the record rolls back, otherwise it expects the digest of what was read |
| ActivationExecutor.World.RestoreConfig | src/local_voice_harness/config_activation.py:859-945 | the rollback's first half ends with a failed record, or with the record settled on the digest of a configuration just read with the old voice in it |
| ActivationExecutor.World.ExecuteRollback | src/local_voice_harness/config_activation.py:859-1026 | a rollback, from any state a crash can leave, ends as FAILED |
| ActivationExecutor.World.Classify | src/local_voice_harness/config_activation.py:1256-1318 | a record that is not about a voice ends SUCCEEDED exactly if all outcomes are restarted and the configuration just read has the expected digest, otherwise PARTIAL exactly if any is restarted, otherwise FAILED; a voice record succeeds only with all restarted and the new voice just read, and otherwise has failed |
| ActivationExecutor.World.Execute | src/local_voice_harness/config_activation.py:1055-1318 | executing or reconciling a record keeps every step inside a run of the protocol, and what it returns is final and is what the journal holds |
| ActivationExecutor.World.Live | src/local_voice_harness/config_activation.py:1029-1052 | any number of executions, each killed anywhere, with user and daemon steps in between, is a run the theorems speak of |
| ConfigCommit.Directory.Commit | src/local_voice_harness/config_management.py:726-764 | a change is committed exactly if the expected values still hold, every assignment applies and the result is accepted; otherwise values and files, the moved legacy file included, are as before; a backup never overwrites a file; the caller sees an exception exactly if nothing was committed or the services to restart could not be listed afterwards, and in the latter case the change stands |
| ConfigCommit.Directory.BackupName | src/local_voice_harness/config_management.py:767-773 | the backup name is the first one not taken |
| ConfigCommit.ApplyChangesOnlyItsKeys | src/local_voice_harness/config_management.py:695-711 | an assignment changes its own key to its last parsed value and no other |
| OutboxStore.FenceIsFinal | src/local_voice_harness/cursor/outbox.py:1-8 | once an effect's dispatch fence is committed no later claim, crash or reap hands it to a handler again |
| OutboxStore.ClaimsAreBounded | src/local_voice_harness/cursor/sqlite_store.py:1477-1543 | over every run an effect is claimed at most eight times |
| OutboxStore.ReleaseIsBeforeFence | src/local_voice_harness/cursor/store.py:2996-3033 | a release takes effect only while the fence is open |
| OutboxStore.RetryAfterFenceIsUnknown | src/local_voice_harness/cursor/store.py:2924-2994 | a retry the holder asks for ends as unknown exactly if the fence is committed, and opens the effect again exactly if it is not and attempts are left |
| OutboxStore.ReapRecovers | src/local_voice_harness/cursor/store.py:3035-3089 | a reap leaves live leases alone; an effect with an expired one becomes unknown behind its fence, failed when its attempts are used up, and is otherwise due again exactly from the retry delay on |
| OutboxStore.SettledIsFinal | src/local_voice_harness/cursor/sqlite_store.py:1618-1677 | the row of a settled effect never changes again, whatever late holders, drains and reaps do |
| OutboxStore.LostAfterFenceIsUnknown | src/local_voice_harness/cursor/store.py:3035-3089 | an effect whose holder is gone behind the fence is, once reaped, unknown in every continuation, and not attempted again |
| OutboxStore.NextKeeps | src/local_voice_harness/cursor/store.py:2825-3089 | every table transaction keeps rows, leases and fences consistent, one running effect per concurrency key |
| OutboxStore.AttemptsCountClaims | src/local_voice_harness/cursor/sqlite_store.py:1477-1543 | the attempts column counts exactly the claims of the run |
| OutboxDrain.Outbox.Handle | src/local_voice_harness/cursor/outbox.py:55-64 | a handler can mark, raise or die, but settles no lease |
| OutboxDrain.Outbox.Settle | src/local_voice_harness/cursor/outbox.py:88-118 | a handled lease is settled once: by one observation, or by one release that took effect |
| OutboxDrain.Outbox.Drain | src/local_voice_harness/cursor/outbox.py:67-119 | a drain claims at most its limit of pairwise distinct effects of its kinds, and when it returns each was settled exactly once, under any interference and with the time read anew at each transaction |
| DeliveryLease.AtMostOneLive | src/local_voice_harness/cursor/delivery.py:46-110 | at any time of any run at most one daemon holds a live lease on a job's result |
| DeliveryLease.AcknowledgesExactlyWhileLive | src/local_voice_harness/cursor/delivery.py:113-163 | the store accepts an acknowledgement or a renewal exactly if the token's own lease is live and, for the former, the acknowledgement may follow the current one; with a clock reading behind the store's, nothing that is over by that reading and everything that is live by the store's |
| DeliveryLease.ClaimWaitsForHolder | src/local_voice_harness/cursor/delivery.py:72-85 | no claim, foreground or not, takes a result from a live holder, not even with a clock reading that is behind |
| DeliveryLease.SecondClaimNeedsReopening | src/local_voice_harness/cursor/delivery.py:56-110 | in every run, a job that was claimed is claimed again only after a new result was prepared, or the first claim was used, or some claim read a time 300 seconds past it |
| DeliveryLease.AcknowledgementsAdvance | src/local_voice_harness/cursor/lifecycle.py:270-298 | of one result each acknowledgement happens at most once, in the order deferred, desktop, spoken: a result is delivered at most once until a new one is prepared |
| DeliveryLease.DeadTokensStayDead | src/local_voice_harness/cursor/delivery.py:113-140 | a token that was released, used or replaced, or has expired by its own daemon's clock, never renews or acknowledges again, in every continuation |
| DeliveryLease.LostTokensStayLost | src/local_voice_harness/cursor/delivery.py:113-240 | a token another claim has replaced never has an effect again, whatever time anyone reads |
| DeliveryLease.NextKeeps | src/local_voice_harness/cursor/lifecycle.py:383-480 | every delivery transition keeps the job's lease and the holders' view of it in agreement |
| AnnouncementDrain.Store.ClaimJob | src/local_voice_harness/cursor/delivery.py:72-104 | one job is claimed exactly if it is due, by a token of its own, and no other job changes |
| AnnouncementDrain.Store.ClaimNext | src/local_voice_harness/cursor/delivery.py:56-110 | the claim goes to the earliest due job in completion order, none exactly if no job is due; with other daemons at work what is returned is the claim just made in the run |
| AnnouncementDrain.Store.PendingDeliveries | src/local_voice_harness/cursor/delivery.py:261-275 | exactly the first `limit` due jobs are claimed, in order, each once, all others untouched; with other daemons, the user and new results at work, still at most `limit`, and one job twice only if in between a new result was prepared for it or a claim read a time 300 seconds past its first; a limit that is not positive raises |
| AnnouncementDrain.ClaimedOncePerResult | src/local_voice_harness/cursor/delivery.py:261-275 | the claims of one batch are of distinct jobs but for that exception, whatever the run they were made in |
| AnnouncementDrain.Store.Apply | src/local_voice_harness/cursor/announcements.py:240-264 | one claim is kept for speech, or, whatever others did before, its token is used once: acknowledged as shown or deferred, or released for a later retry, as the policy says; the result says whether the store accepted the acknowledgement |
| AnnouncementDrain.Store.Drain | src/local_voice_harness/cursor/announcements.py:267-318 | whatever other daemons, the user and new results do meanwhile, a drain claims at most eight jobs, each once per result, judges each as it was when claimed, uses each token exactly once or, for speech, not at all, and lists it by what the store accepted; undisturbed, it handles the first eight due jobs and changes no other; without the drain lock nothing happens |
| AnnouncementDrain.OnlyRefusedDeferralsAreUnlisted | src/local_voice_harness/cursor/announcements.py:289-318 | every claim of a drain is in one result list, except exactly a deferral the store refused, which is in none |
| AnnouncementDrain.DrainSettlesItsClaims | src/local_voice_harness/cursor/announcements.py:267-318 | what a drain handled is no longer due, whether its notifications succeeded or failed |
| AnnouncementDrain.DrainingRunsDry | src/local_voice_harness/cursor/announcements.py:156-170 | repeated drains at one time and policy lower the number of due jobs by eight until none is left, and no job is handled twice |
| AnnouncementDrain.QuietHoursWrap | src/local_voice_harness/cursor/announcements.py:106-121 | quiet hours are the times whose distance after the start, around the clock, is less than the window's |
| AnnouncementDrain.ActionComesFirst | src/local_voice_harness/cursor/announcements.py:124-147 | whatever lets a less important announcement through lets a more important one through in the same way; a snooze mutes the others |
| RecorderProtocol.NeverBothLive | src/local_voice_harness/recorder.py:442-521 | over all interleavings with pid reuse, the manual and dictation ownership files never both name a live recorder |
| RecorderProtocol.LiveRecorderKeepsItsAudio | src/local_voice_harness/recorder.py:548-587 | while a recorder lives and does not end its own recording, nobody removes or replaces its record, or deletes or takes its audio |
| RecorderProtocol.GenerationsAreKept | src/local_voice_harness/recorder.py:153-172 | a handed-off recording with sound in it is never dropped or altered by any of these operations |
| RecorderProtocol.NextKeeps | src/local_voice_harness/recorder.py:237-285 | every lawful step keeps pids, identities and ownership files consistent |
| RecorderLock.Microphone.OwnedPidfd | src/local_voice_harness/recorder.py:237-285 | no owner only if the file is gone, an owner only if the file names the very process the pidfd holds, and a live owner is never overlooked, although pids are reused between any two reads |
| RecorderLock.Microphone.OwnedLegacy | src/local_voice_harness/recorder.py:255-277 | a file in the old format is upgraded to the process it meant, or forgotten |
| RecorderLock.Microphone.HandOff | src/local_voice_harness/recorder.py:153-172 | the recording moves whole to a new generation, or is dropped when it has no more than a header |
| RecorderLock.Microphone.Start | src/local_voice_harness/recorder.py:442-521 | a start leaves the present owner alone, or records a newly spawned recorder while the other file names nobody |
| RecorderLock.Microphone.Claim | src/local_voice_harness/recorder.py:337-355 | a claim records exactly the claiming process, while the other file names nobody |
| RecorderLock.Microphone.Stop | src/local_voice_harness/recorder.py:524-545 | after a stop the recorder is gone, its file cleared and its sound in a new generation |
| RecorderLock.Microphone.TakeOver | src/local_voice_harness/recorder.py:175-181 | a recording is handed off only when no owner is recorded |
| RecorderLock.Microphone.WriteGeneration | src/local_voice_harness/recorder.py:216-234 | a written generation appears only while neither file has an owner |
| RecorderLock.Microphone.Complete | src/local_voice_harness/recorder.py:358-380 | only the recorded owner, in its own mode and not cancelled, completes its recording |
| RecorderLock.Microphone.EndCancel | src/local_voice_harness/recorder.py:572-587 | the second half of a cancel clears the file only if it is gone or still names the cancelled recorder, and leaves anybody else's alone |
| RecorderLock.Microphone.Cancel | src/local_voice_harness/recorder.py:548-587 | a successful cancel means that the recorder live at the call is gone, whatever happened while the lock was dropped |
| SpokenNumbers.SpokenNumberAt | src/local_voice_harness/ticket_targets.py:115-199 | the loop computes the scan of the grammar, in both modes |
| SpokenNumbers.CardinalRoundTrip | src/local_voice_harness/ticket_targets.py:115-199 | every cardinal below a million, hyphenated or not, with or without "and" after hundred or thousand, parses to its value, ending at its last word |
| SpokenNumbers.AndIsAbsorbed | src/local_voice_harness/ticket_targets.py:115-199 | an "and" and a number below a hundred that follow a multiple of a hundred are read as part of it: the exact exception to the round trip in lists |
| SpokenNumbers.SpokenNumberInRange | src/local_voice_harness/ticket_targets.py:131-199 | every result is at most 1,000,009 |
| SpokenNumbers.RangeIsAttained | src/local_voice_harness/ticket_targets.py:131-199 | and that bound is attained |
| SpokenNumbers.GroupedModeExtends | src/local_voice_harness/ticket_targets.py:131-199 | whatever the standard mode reads the digit-grouped mode reads alike |
| SpokenNumbers.GroupedPairs | src/local_voice_harness/ticket_targets.py:131-199 | a spoken pair AB CD is 100 AB + CD in digit-grouped mode and nothing in standard mode |
| TicketTargets.ScanScoped | src/local_voice_harness/ticket_targets.py:228-321 | the nested loops return, prefix by prefix, the elements of each list as far as its separators lead |
| TicketTargets.RangesCountInFull | src/local_voice_harness/ticket_targets.py:250-296 | a range v..w counts the distance of v and w + 1 requests accepted or not, is accepted exactly if it ascends from a positive number over at most 25, and then names v, ..., w in order |
| TicketTargets.RequestsAddUp | src/local_voice_harness/ticket_targets.py:228-321 | the lists of an utterance together request what each of them requests |
| TicketExtraction.Extract | src/local_voice_harness/ticket_targets.py:466-552 | collecting, suppressing overlaps, counting, ordering and removing duplicates, loop by loop |
| TicketExtraction.SpecificReadingsWin | src/local_voice_harness/ticket_targets.py:474-534 | every GitHub match is a candidate, a Linear match exactly if it meets no GitHub match, no bare repository and no earlier Linear candidate, a scoped item exactly if it meets none of those; the candidates are in that order, and the requests are those of the candidates alone, a rejected range in full |
| TicketExtraction.ExtractionConservesRequests | src/local_voice_harness/ticket_targets.py:466-552 | references are in order of position, unique by folded identity, at most as many as requested, empty exactly if nothing was requested, and stand for every candidate found |
| TicketExtraction.SortIsStable | src/local_voice_harness/ticket_targets.py:536-536 | ordering keeps every candidate and the order of candidates at one position |
| TicketExtraction.FirstByKeyStandsForAll | src/local_voice_harness/ticket_targets.py:537-551 | of candidates with one key the first is kept |
| TicketExtraction.NamedTicketsAreDistinct | src/local_voice_harness/ticket_targets.py:611-642 | resolved tickets are identified, pairwise distinct, and each was spoken or is the focused one |
| TicketExtraction.NamedTicketsAreComplete | src/local_voice_harness/ticket_targets.py:611-642 | no identified ticket that was spoken is lost, nor the focused one if it is asked for |
| TicketExtraction.ResolveNamed | src/local_voice_harness/ticket_targets.py:611-642 | the loop with its set of seen identities names every identified ticket that was spoken, and the focused one if asked for, each exactly once |
| TicketMerge.MergeNeverClosesItsSurvivor | src/local_voice_harness/ticket_merge.py:120-226 | an admitted merge has two to eight tickets of one provider and one GitHub repository, the survivor among them; its payload decodes to exactly the others in order, none equal to the survivor even ignoring case |
| TicketMerge.ClosingRoundTrip | src/local_voice_harness/ticket_merge.py:261-291 | decoding undoes encoding exactly for one to eight tickets in normal form |
| TicketMerge.TicketRoundTrip | src/local_voice_harness/ticket_merge.py:417-463 | the validator returns a ticket unchanged exactly if it is in normal form |
| TicketMerge.ClosingFromIsNormal | src/local_voice_harness/ticket_merge.py:403-414 | a trusted reference becomes a closing ticket in normal form under its own identity, repository and number |
| TicketMerge.SurvivorIsAmong | src/local_voice_harness/ticket_merge.py:170-193 | the survivor is one of the tickets, and the one named after "into" if one was named |
| Vocabulary.Resolve | src/local_voice_harness/vocabulary.py:479-500 | the substitution is the left-to-right reading, with the target looked up by the normalized match |
| Vocabulary.LongestHit | src/local_voice_harness/vocabulary.py:490-496 | the alternation sorted by length finds the longest phrase standing at a place as whole words, or none exactly if none stands there |
| Vocabulary.MatchNormalizes | src/local_voice_harness/vocabulary.py:497-499 | the text a phrase matched, in any case and spacing, normalizes back to that phrase, so the look-up cannot fail or find another |
| Vocabulary.MatchesNest | src/local_voice_harness/vocabulary.py:490-496 | phrases that stand at one place are prefixes of each other |
| Vocabulary.PiecesCover | src/local_voice_harness/vocabulary.py:479-500 | the copied and replaced pieces are the original text in order: nothing is lost and no inserted target is read again |
| Vocabulary.OrderDoesNotMatter | src/local_voice_harness/vocabulary.py:479-500 | resolution does not depend on the order in which aliases are stored |
| Vocabulary.NormalizedIsPhrase | src/local_voice_harness/vocabulary.py:132-138 | normalizing gives lower-case words with single spaces between them |
| VocabularyStore.Parse | src/local_voice_harness/vocabulary.py:563-599 | a document is rejected exactly if an entry is unreadable or one phrase has two targets; otherwise phrases are unique and every entry resolves to its target |
| VocabularyStore.Store.Add | src/local_voice_harness/vocabulary.py:752-791 | adding sets one phrase in the phrase table, unless it conflicts and is not forced |
| VocabularyStore.Store.Remove | src/local_voice_harness/vocabulary.py:816-831 | removing takes one known phrase out of the table |
| VocabularyStore.Store.Import | src/local_voice_harness/vocabulary.py:926-972 | a backup replaces the table or overrides it phrase by phrase, all or nothing |
| VadCapture.Capture | src/local_voice_harness/vad.py:146-188 | what is written is one contiguous block from the first run of speech to the first end; without an end there is no such block, and the part written so far starts at the first run |
| VadCapture.BlockIsBounded | src/local_voice_harness/vad.py:174-188 | the block is unique, and no longer than the start run or the maximum duration in frames, rounded up |
| StreamAssembly.Chunker.Feed | src/local_voice_harness/llm_transport.py:98-116 | fed text is, in order and up to blanks, what was emitted, what is held and what is buffered; without early emission nothing is emitted; a refusal ends the chunker |
| StreamAssembly.Chunker.Flush | src/local_voice_harness/llm_transport.py:118-129 | a flush empties the chunker, and what was emitted in all is what was fed, up to blanks |
| StreamAssembly.StreamedMessage | src/local_voice_harness/llm_transport.py:137-241 | content is the concatenation of the deltas taken in, all before the end mark unless cancelled; tool calls are listed by index; with late emission a message with a tool call emitted no text |
| StreamAssembly.ArgumentsAreOwnFragments | src/local_voice_harness/llm_transport.py:190-216 | a tool call's arguments are the concatenation of its own index's fragments in order |
| StreamAssembly.InterleavingDoesNotMatter | src/local_voice_harness/llm_transport.py:190-216 | a tool call is what its own fragments alone would give, however they are interleaved with others |
| HttpPool.ExactlyOnePlace | src/local_voice_harness/http_pool.py:14-48 | in every interleaving a connection is in exactly one place: one idle slot of its own key, one request, one open response, or shut |
| HttpPool.ReusedUnderOwnKey | src/local_voice_harness/http_pool.py:30-43 | a checkout reuses only a connection opened for its key, with nothing of an earlier response left on it |
| HttpPool.GivenBackOnlyWhenRead | src/local_voice_harness/http_pool.py:107-118 | a close returns the connection only if its response was read to the end and does not end it, as section 9.3 of RFC 9112 requires |
| HttpPool.EndIsHonest | src/local_voice_harness/http_pool.py:70-80 | a read that marks a response complete left nothing unread, exactly unless it was a readline with limit 0 before the end |
| HttpPool.ZeroLimitFools | src/local_voice_harness/http_pool.py:76-80 | such a call does return a connection to the pool with a response still on it |
| HttpPool.NobodyFooled | src/local_voice_harness/http_pool.py:76-80 | without such calls it never happens |
| HttpPool.Pool.Open | src/local_voice_harness/http_pool.py:125-164 | an opened response is on a connection of its own key that is nowhere else, whatever other threads do meanwhile |
| HttpPool.Pool.Read | src/local_voice_harness/http_pool.py:70-74 | a read takes what it returns off the wire and completes the response exactly by the amount rule, undisturbed by other threads |
| HttpPool.Pool.Close | src/local_voice_harness/http_pool.py:107-118 | a close happens once and sends the connection back to its key's idle list, or shuts it |
| HttpPool.Pool.Clear | src/local_voice_harness/http_pool.py:17-23 | clearing shuts exactly the idle connections and forgets them, and leaves requests under way and open responses alone |

## Left out

- Texts of messages, records and exceptions, except the one report that claims a full restoration; timestamps of the journal.
- Durability of `fsync` and rename: an atomic replace is one step.
- JSON text of journals and payloads: what is written is read back as the same value.
- SHA-256: a digest is an arbitrary function of the configuration.
- `next_delivery` and the rendering of activation messages: tables over the record.
- `fail_worker` and the daemon's `begin_rollback` take place only while no call of an execution is pending; arbitrary callers of `finish` are not modelled.
- Freshness of uuid4 tokens and identifiers is assumed in the form of an unused value.
- The wall clock: times are arbitrary readings, which may be behind those the store has seen; only `DeliveryLease.DeadTokensStayDead` relies on a clock, that of the token's own daemon, not going back.
- `recover_outbox` is a reap followed by a drain, both events of every outbox run; consuming results is not modelled.
- The policy of a drain, its time of day and snooze included, and the eligibility callback of a batch stay the same throughout; that the undisturbed drain is completely determined is proved for one clock reading.
- Writes to a job's delivery fields that bypass the delivery transitions (the provisioning merge and question resets), and validation of other job fields.
- Time zones: the local time of day is a parameter of the announcement policy.
- `abandon_current_recording` removes the audio path unconditionally and is not part of the recorder claims; `retry_generation`, `request_vad_stop` and the activity queries only read or signal.
- A recorder process spawned by a starter that is killed before recording it: the recorder claims are about recorded owners.
- File modes, owners and directories of the runtime state.
- Regular expressions and Unicode case rules: matches are given as spans and lexer functions, text is ASCII.
- TicketTargets.ScanScoped: numbers, separators and list continuations come from a lexer; the spoken numbers it stands for are proved separately in `SpokenNumbers`.
- `resolve_named_ticket`, drafting and applying a merge, and the snapshot encoding.
- Replacements and pronunciations of the vocabulary, which repeat the alias store field by field; provider ownership of alias targets is given.
- Sorting of the saved document by phrase: no reader can tell, by `Vocabulary.OrderDoesNotMatter`.
- The speech detector and the microphone process: frames come with their verdict, and the stream ends where the list does.
- The content filter inside the text callback: the chunker is proved up to what it hands to the callback.
- Where `_TextChunker` cuts chunks: only that nothing is lost, reordered or repeated.
- HTTP framing: the library's `read` and `readline` are given by how much they return; exceptions while reading leave the response incomplete.
- Key normalization and the field registry of the configuration: an assignment's parser is a parameter.
