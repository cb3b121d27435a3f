# potent, verified

potent sits between agents and their tool servers and keeps the same tool call from
running twice: it fingerprints a call, looks for a live earlier answer, lets one of several
concurrent duplicates through, and keeps an audit log of what it did.  This project models
that machinery in Dafny and proves what it guarantees, over every input and every
interleaving.  `dafny verify dfyconfig.toml` checks everything.

How the files fit together:

- `KeyOrder`, `Strings`, `Outcomes`: byte order of strings, hex and splitting, options.
- `Canonical`, `Normalizer`, `Fingerprint`, `Eval`: from arguments to a fingerprint.  The
  canonical printer is shown uniquely decodable against a reader written for the purpose;
  transform lists are shown equal to a three-part summary; the evaluation harness, which
  normalises shared records in place, is shown to score as if it had fresh copies.
- `Store`: the memory map and the Bolt bucket against one map that never forgets.
- `Embed`, `Search`: hashed n-gram vectors over the reals and the best-match scan.
- `Policy`, `PolicyParser`, `PolicyText`: merging, templates, the line parser with its block stack,
  and what each line of a policy file means.
- `Coalescing`: the leader and waiter protocol on its own.  `Pipeline` is `Apply` as a step
  system of any number of calls; `PipelineRuns` shows that each of its steps is a step of the
  protocol or does not concern it, and keeps one invariant; `PipelineLaws` draws the
  conclusions and `PipelineSharing` says exactly when a duplicate forwards again or waits for
  another call; `PipelineOutcomes` says what callers are told, who gets past the gates and what is
  cached and recorded, in terms of outcomes and configuration alone.  `Gateway` holds `Lookup` and `Cache`, which the stdio transport calls.
- `Stdio`, `StdioRuns`, `StdioFrames`, `StdioTimeouts`, `StdioStore`: the two pumps and the sweeper of the MCP
  stdio proxy, and the proxy together with its store.
- `EndToEnd`: the fingerprints put into the pipeline and the stdio proxy.
- `S3Batch`, `Traceparent`: the batching audit sink and the W3C trace header.

How to read a step system: `Next` performs one atomic step (a critical section, a store
operation, a channel close), `IsRun` strings steps together, and lemmas quantify over all runs
from a start state.  SHA-256, the FNV hash, the embedder, number parsing and the Unicode tables
are parameters; a lemma that needs a fact about one of them says so in a `requires`.

Where code and prose disagree the model follows the code.  docs/architecture.md names BLAKE3,
the code hashes with SHA-256.  The comment on `releaseLeader` says that later siblings hit the
cache; that holds exactly of siblings that have not yet missed in the store
(`PipelineSharing.ForwardsAgainIff`).

## Model

| member | source | states |
|---|---|---|
| `Coalescing.Coalescer.AcquireLeader` | internal/pipeline/pipeline.go:451-460 | the first caller of a hash becomes leader of a new open handle; later ones get the handle already in the map, which is left alone |
| `Coalescing.Coalescer.Publish` | internal/pipeline/pipeline.go:499-527 | writes result and error of the leader's handle for each of the three endings and touches no other handle |
| `Coalescing.Coalescer.ReleaseLeader` | internal/pipeline/pipeline.go:464-471 | removes the map entry only if it is still this handle, then closes the handle |
| `Coalescing.Coalescer.Resume` | internal/pipeline/pipeline.go:477-494 | a waiter returns the leader's error, or the leader's result relabelled as a coalesced replay, or its own cancellation |
| `Coalescing.NextInv` | internal/pipeline/pipeline.go:436-494 | every step of every call keeps the protocol invariant: handle contents mirror the stage of their owner, the map holds exactly the handles of calls between acquiring and removing, waiters hang on handles of their own hash |
| `Coalescing.OneForwardPerHash` | internal/pipeline/pipeline.go:350-359 | two calls with one hash that are both between acquiring and removing are the same call |
| `Coalescing.ClosedIffReleased` | internal/pipeline/pipeline.go:464-471 | a handle has been closed once if its owner released it and never otherwise, also after an error or a panic |
| `Coalescing.ClosedIsFrozen` | internal/pipeline/pipeline.go:436-446 | no step changes a handle after it is closed |
| `Coalescing.OnlyLeaderRemoves` | internal/pipeline/pipeline.go:464-471 | a map entry disappears or changes only by the removal step of the call that put it there |
| `Coalescing.WaiterHearsItsLeader` | internal/pipeline/pipeline.go:477-494 | every waiter that was not cancelled returns exactly what a released leader of the same hash ended with, or that leader's failure |
| `Coalescing.NeverStuck` | internal/pipeline/pipeline.go:436-494 | a call that is not done can step, or waits on a handle whose owner can |
| `Coalescing.RunKeeps` | internal/pipeline/pipeline.go:436-494 | over every run the invariant holds, closed handles keep their contents to the end, and each step uses up bounded work |
| `Coalescing.EveryRunSettles` | internal/pipeline/pipeline.go:436-494 | n calls take at most 4n protocol steps; a run that cannot go on has answered every call, closed every handle exactly once and emptied the map |
| `PipelineRuns.Refines` | internal/pipeline/pipeline.go:281-366 | each step of `Apply` is a step of the leader and waiter protocol or leaves table and roles unchanged |
| `PipelineRuns.ActPc` | internal/pipeline/pipeline.go:281-366 | each step keeps what the stages say: who may be forwarding, replaying or blocked under which policy, and that results carried along were delivered by upstream |
| `PipelineRuns.ActStore` | internal/pipeline/pipeline.go:402-418 | each step keeps every stored entry traceable to a 2xx delivery for its own tool, under its own key, with the tool's time to live |
| `PipelineRuns.ActBooks` | internal/pipeline/pipeline.go:607-635 | each step adds to the audit log and to the list of upstream invocations exactly the difference between the two stages |
| `PipelineRuns.LookupOk` | internal/pipeline/pipeline.go:538-544 | an exact hit was written for some call from a 2xx delivery of its tool and lies under the caller's key |
| `PipelineRuns.FoundOk` | internal/pipeline/pipeline.go:553-560 | a semantic hit lies under the prefix of the caller's tool and scores at or above the threshold |
| `PipelineRuns.EveryRunKeepsInv` | internal/pipeline/pipeline.go:281-366 | all of the above in every state of every run of any number of calls, whatever their tools and fingerprints |
| `PipelineLaws.OneForwardPerFingerprint` | internal/pipeline/pipeline.go:350-359 | in every reachable state at most one strict or cache forward per fingerprint is running |
| `PipelineLaws.WaiterReturnsLeadersOutcome` | internal/pipeline/pipeline.go:351-355 | a finished, not cancelled waiter returned its leader's outcome; a shared body was delivered by upstream for the leader's tool |
| `PipelineOutcomes.EndingIsOutcome` | internal/pipeline/pipeline.go:499-527 | over every run a forward ends with upstream's own outcome: the delivered status and body under the call's fingerprint or none in off mode, the error with its text, or the panic; only a panicking Put replaces it, a failing one does not |
| `PipelineOutcomes.WaiterHearsUpstream` | internal/pipeline/pipeline.go:477-494 | a waiter that was not cancelled returns what upstream said to its leader: the delivery as a coalesced replay, or the error or panic |
| `PipelineOutcomes.GatesHold` | internal/pipeline/pipeline.go:281-307 | over every run, outside off mode a caller missing from a non-empty list is only ever forbidden, and nobody else is; off is only forwarded; a limit refuses only where one is set; a body is rejected exactly if it cannot be analysed |
| `PipelineOutcomes.ExitsByMode` | internal/pipeline/pipeline.go:321-364 | which mode can end how: only strict with confirmation blocks, only strict without it and cache replay, lead or wait, the others forward directly |
| `PipelineOutcomes.ReadDecides` | internal/pipeline/pipeline.go:529-551 | a read that finds a live entry blocks or replays by the policy; one that finds none leads to a search exactly with an embedder, a positive threshold and an intent |
| `PipelineOutcomes.PutFollowsSuccess` | internal/pipeline/pipeline.go:511-521 | over every run a Put follows a delivery to that call with a status from 200 to 299, in strict or cache mode |
| `PipelineOutcomes.SuccessIsPut` | internal/pipeline/pipeline.go:511-521 | and a strict or cache call that gets such a delivery does a Put before it ends |
| `PipelineOutcomes.PutIsFresh` | internal/pipeline/pipeline.go:402-418 | a Put leaves under the call's key an entry created now and never replayed, and no other change |
| `PipelineOutcomes.CountingCounts` | internal/pipeline/pipeline.go:324-328 | counting a replay adds one to the replayed entry's counter and changes nothing else |
| `PipelineOutcomes.RecordSays` | internal/pipeline/pipeline.go:607-635 | every finished call that is neither off nor rejected has left exactly one record: its tool and mode, the decision and kind of match, the entry's fingerprint for blocks and replays, none for refusals, its own otherwise |
| `PipelineOutcomes.AnythingCanHappen` | internal/pipeline/pipeline.go:281-527 | the surroundings are free at every stage: the limiter, the store, upstream, the Put and cancellation may each go either way |
| `PipelineOutcomes.SurroundingsAct` | internal/store/bolt.go:51-97 | time may advance, compaction leaves exactly the live entries, any key may be deleted |
| `PipelineLaws.HitIsOwnTool` | internal/store/store.go:81 | a hit is of the caller's own tool if tool names are NUL-free; with NUL-free fingerprints, which hex digests are, an exact hit always is, and a semantic one is or belongs to a tool that continues the caller's name with a NUL |
| `PipelineLaws.ReplayComesFromUpstream` | internal/pipeline/pipeline.go:321-334 | a replay from the store repeats the status of an earlier 2xx delivery for the entry's tool, the caller's own up to NULs in names, and its body, or the acknowledgement exactly where the body is empty or the tool asks for acknowledgements; never under strict with confirmation |
| `PipelineLaws.SemanticReplayIsSimilar` | internal/pipeline/pipeline.go:553-560 | a semantic replay answers with an entry cached for a call whose intent has cosine at or above the threshold with the caller's, of the caller's tool if tool names are NUL-free |
| `PipelineLaws.StoredEntryIs` | internal/pipeline/pipeline.go:402-418 | what a stored entry holds, field by field: the request of some call of its tool unless the policy redacts it, the body of a 2xx delivery for its tool unless the policy asks for acknowledgements, that status, the tool's time to live, the embedding of the call's intent |
| `PipelineLaws.ForwardFollowsOwnMiss` | internal/pipeline/pipeline.go:529-561 | a strict or cache call that forwards or waits read the store itself at an identified step of the run, and that read failed or found no live entry |
| `PipelineLaws.NoForwardWithinTtl` | internal/pipeline/pipeline.go:511-521 | after a cached success no call with the same tool and fingerprint that reads the store later forwards or waits while the time to live lasts, whatever else runs in between, absent deletes, failing reads and key collisions between tools |
| `PipelineLaws.NulFreeKeysAreDistinct` | internal/store/store.go:81 | there are no such collisions if fingerprints, or tool names, are NUL-free |
| `PipelineSharing.ForwardsAgainIff` | internal/pipeline/pipeline.go:511-521 | at the moment a success is cached, a duplicate can still come to forward within the time to live, with a working store and no deletes, if and only if it has already missed |
| `PipelineSharing.BothMissFromStart` | internal/pipeline/pipeline.go:311-351 | such a moment is reached from the start for any two identical strict or cache calls |
| `PipelineSharing.LateSiblingForwardsAgain` | internal/pipeline/pipeline.go:462-471 | so "one forward ever" fails: from the start there is a run in which both forward, the second with a live entry in the store |
| `PipelineSharing.WaitsIff` | internal/pipeline/pipeline.go:451-460 | a call that missed waits if and only if some call with its fingerprint, of whatever tool and policy, is between acquiring and leaving the map, and waits for that one |
| `PipelineSharing.WaiterReturnsStrangersBody` | internal/pipeline/pipeline.go:477-494 | for any two calls with one fingerprint there is a run from the start in which the second returns the body delivered for the first one's tool |
| `PipelineSharing.SharesIff` | internal/pipeline/pipeline.go:350-355 | over runs from the start, one call can be answered with the response to another if and only if they are two calls that pass their gates in strict or cache mode with one fingerprint |
| `PipelineSharing.IsolationFailsIff` | internal/pipeline/pipeline.go:451-460 | so across tools exactly when the tools differ and the fingerprints do not |
| `PipelineSharing.ConfirmationBypassedIff` | internal/pipeline/pipeline.go:483-490 | and a call that requires confirmation can be handed another's response exactly when some other passing call has its fingerprint |
| `PipelineSharing.IsolationFailsForWaiters` | internal/pipeline/pipeline.go:483-490 | a concrete system: two tools, the second requiring confirmation and acknowledgements, whose caller receives the first tool's response |
| `PipelineSharing.NulToolIsReplayed` | internal/pipeline/pipeline.go:563-591 | a run from the start in which a semantic replay serves the response of a tool whose name continues the caller's with a NUL |
| `PipelineLaws.CallsAreFinite` | internal/pipeline/pipeline.go:281-366 | every step of a call uses up bounded work |
| `PipelineLaws.EveryCallEnds` | internal/pipeline/pipeline.go:281-366 | n calls take at most 11n steps, however they interleave, and when no call can step all are done |
| `PipelineLaws.SomeoneCanMove` | internal/pipeline/pipeline.go:281-366 | a call that is not done can move without being cancelled, or waits for a leader that can |
| `PipelineLaws.ForwardRecordsBalance` | internal/pipeline/pipeline.go:345-364 | at quiescence: "forward" records plus off-mode calls = upstream invocations plus waiters whose leader failed or who were cancelled |
| `PipelineLaws.ReplayRecordsBalance` | internal/pipeline/pipeline.go:321-355 | at quiescence: "replay" records = replays from the store plus served waiters |
| `PipelineLaws.OneRecordPerCall` | internal/pipeline/pipeline.go:281-366 | every call leaves exactly one record, none in off mode or with a rejected body, and invokes upstream at most once |
| `Gateway.Gateway.Decide` | internal/pipeline/pipeline.go:529-561 | exact hit, else best semantic hit, else forward; strict with confirmation blocks; a forward after a successful scan means no live entry reached the threshold |
| `Gateway.Gateway.Lookup` | internal/pipeline/pipeline.go:188-245 | what a lookup returns and leaves in the store; forbidden, with status 403 and the store untouched, exactly when a non-empty list lacks the caller outside off mode; one audit record with tool, mode, decision, kind and fingerprint unless off or rejected |
| `Gateway.Gateway.Cache` | internal/pipeline/pipeline.go:251-274 | stores exactly the successes of strict and cache tools |
| `Gateway.DecidesLikeApply` | internal/pipeline/pipeline.go:529-561 | the split lookup and the stepwise `Apply` reach the same decision and the same store |
| `Gateway.CachedIsReplayed` | internal/pipeline/pipeline.go:251-274 | a cached answer is replayed, same status and bytes or acknowledgement, exactly until its time to live is over, or blocked where confirmation is required |
| `Stdio.StdioHandler.Dispatch` | internal/mcp/stdio.go:187-205 | a call whose hash is in flight is queued, any other becomes a pending leader and is forwarded |
| `Stdio.StdioHandler.TakePending` | internal/mcp/stdio.go:233-241 | a response takes its pending call out and nothing else |
| `Stdio.StdioHandler.CollectWaiters` | internal/mcp/stdio.go:249-262 | all waiters of the hash are handed over and the hash leaves the map |
| `Stdio.StdioHandler.ExpireCall` | internal/mcp/stdio.go:298-312 | an overdue leader is dropped with its hash; leader and waiters are to be notified |
| `Stdio.StdioHandler.ExpireAt` | internal/mcp/stdio.go:292-325 | the sweep expires exactly the overdue leaders, in whatever order the map yields them |
| `StdioRuns.NextOwned` | internal/mcp/stdio.go:187-262 | each step of either pump or the sweeper keeps one owner per in-flight hash |
| `StdioRuns.NextConserves` | internal/mcp/stdio.go:187-325 | each step keeps every request in exactly one place |
| `StdioRuns.EveryRunIsGood` | internal/mcp/stdio.go:187-325 | in every interleaving with ids used once pending hashes are distinct and in flight, each in-flight hash is owned by one pending leader or the response being cached, and no request is lost or doubled |
| `StdioRuns.WaiterAnsweredOnce` | internal/mcp/stdio.go:192-199 | over every run a queued request is still queued, in hand, or answered: exactly one of these, exactly once, under its own id |
| `StdioRuns.QuiescentRunSettlesAll` | internal/mcp/stdio.go:209-228 | with nothing pending or in hand every request was settled by one frame and the in-flight map is empty |
| `StdioRuns.SweepEmpties` | internal/mcp/stdio.go:292-325 | a sweep past all deadlines leaves nothing pending and in flight only the response being cached, so it empties both maps if there is none |
| `StdioTimeouts.SweepKeepsIff` | internal/mcp/stdio.go:298-312 | a sweep leaves a pending call, its hash and that hash's waiters if and only if the call has no deadline or the sweep is not later than it |
| `StdioTimeouts.TimeoutsAreDue` | internal/mcp/stdio.go:298-320 | over every run a timeout error goes only to a leader whose own deadline some sweep of the run came after, or to a request that came with that leader's hash |
| `StdioTimeouts.AnythingCanHappen` | internal/mcp/stdio.go:209-300 | any request may come under a new id, the child may send any frame with an id, a sweep may come at any time |
| `StdioRuns.EnqueueKeepsOwnershipIff` | internal/mcp/stdio.go:187-205 | whether or not a response is being cached, dispatch keeps ownership if and only if it does not overwrite a pending leader by reusing its id |
| `StdioRuns.OrphanStays` | internal/mcp/stdio.go:187-205 | a hash without owner stays in flight forever, through every run |
| `StdioFrames.ReuseOrphans` | internal/mcp/stdio.go:201-202 | overwriting a pending leader, by a reused id or a second frame without one, leaves its hash in flight without owner |
| `StdioFrames.CallIsStranded` | internal/mcp/stdio.go:192-199 | a call that comes with such a hash is queued behind nobody |
| `StdioFrames.StrandedForever` | internal/mcp/stdio.go:187-325 | over every run such a request stays queued and no frame ever settles it |
| `StdioFrames.FramesPerRequest` | internal/mcp/stdio.go:209-228 | over every run the frames naming a request are at most one that settles it and those the child sent while nobody waited |
| `StdioFrames.EchoesAreResponses` | internal/mcp/stdio.go:216-219 | every response of the child becomes exactly one frame of its own |
| `StdioFrames.NoDeadlineNoTimeout` | internal/mcp/stdio.go:299 | every frame for a leader without a deadline is a response of the child |
| `StdioFrames.LeaderMayHearTwice` | internal/mcp/stdio.go:217-219 | a child that answers after the timeout is heard: the leader's client gets two frames |
| `StdioFrames.LeaderHearsTwiceIff` | internal/mcp/stdio.go:187-225 | a leader whose child answers at most once can get two frames if and only if its request has an id and a deadline |
| `StdioFrames.CopiedIff` | internal/mcp/stdio.go:192-223 | a response can be copied to another request if and only if both came under one hash and the leader has an id, whatever their tools and arguments |
| `StdioFrames.EverythingCanSettle` | internal/mcp/stdio.go:209-325 | from every reachable state whose pending calls have deadlines, the proxy alone can come to a state in which every request is settled exactly once |
| `StdioStore.SentAgainIff` | internal/mcp/stdio.go:170-205 | when a response is cached, a duplicate can still be sent to the child within the time to live, with a working store and no deletes, if and only if the client pump has looked it up, missed, and not yet dispatched it |
| `StdioStore.NotSentWhileKept` | internal/mcp/stdio.go:170-254 | a request that is not about to be dispatched is not sent while an entry for its key lives, whatever the pumps and the sweeper do |
| `StdioStore.SentAreLeaders` | internal/mcp/stdio.go:187-205 | over every run what was sent to the child is what was dispatched and not queued behind a leader |
| `StdioStore.LateFromStart` | internal/mcp/stdio.go:170-241 | such a moment is reached from the start for any two requests of one tool and fingerprint |
| `StdioStore.CachedEntryIs` | internal/mcp/stdio.go:243-245 | what a cached response leaves in the store, field by field, with status 200 and request and response withheld where the policy says so |
| `StdioStore.NothingCached` | internal/pipeline/pipeline.go:251-256 | nothing is cached for other modes or when the Put fails |
| `StdioStore.LookingUp` | internal/mcp/stdio.go:170-186 | any new request may be looked up, and a working read may miss exactly if the mode is neither strict nor cache or no live entry is under the key |
| `Canonical.RoundTrip` | internal/fingerprint/fingerprint.go:21-62 | reading back the canonical text of any nested value, followed by anything a value may be followed by, gives that value and that rest |
| `Canonical.EscapeRoundTrip` | internal/fingerprint/fingerprint.go:21-62 | every character's escape reads back as that character (section 7 of RFC 8259, as encoding/json writes it) |
| `Canonical.EscapesAre` | internal/fingerprint/fingerprint.go:21-62 | which characters are escaped and how, as encoding/json does it |
| `Canonical.TwoMembers` | internal/fingerprint/fingerprint.go:24-44 | members come in ascending byte order of keys without white space |
| `Canonical.CanonInjective` | internal/fingerprint/fingerprint.go:21-62 | equal canonical bytes if and only if equal values |
| `Canonical.CanonPrefixFree` | internal/fingerprint/fingerprint.go:21-62 | no canonical text continues another at a delimiter |
| `Canonical.Canonicalize` | internal/fingerprint/fingerprint.go:21-62 | the buffer loops produce the canonical text whatever order map iteration yields |
| `Fingerprint.SamePreimageIff` | internal/pipeline/pipeline.go:646-678 | two bodies have the same pre-image if and only if they agree, after normalisation, on every field the policy looks at |
| `Fingerprint.SameFingerprintIff` | internal/fingerprint/fingerprint.go:12-19 | the same of the fingerprints, for a collision-free hash |
| `Fingerprint.RetryKeepsFingerprint` | internal/pipeline/pipeline.go:656-660 | under a list that names "collapse_whitespace" and whose last case transform is "lowercase", respacing and recasing the field keeps the fingerprint |
| `EndToEnd.RetryIsNotForwarded` | internal/pipeline/pipeline.go:281-366 | once an answer is cached, a later call of the tool whose arguments agree field by field after normalisation is neither forwarded nor made to wait within the time to live |
| `EndToEnd.NoBodyIsEmptyObject` | internal/pipeline/pipeline.go:648-651 | a call without a body has the fingerprint of the empty object |
| `EndToEnd.EmptyHashIff` | internal/pipeline/pipeline.go:188-213 | a lookup can dispatch a call without a fingerprint if and only if its tool is off, its caller is not allowed or the tool has a rate limit |
| `EndToEnd.CopyAnswersSameArguments` | internal/mcp/stdio.go:220-223 | over every stdio run a response copied under a non-empty hash answers arguments whose normalised, selected fields are the leader's |
| `EndToEnd.StrangersShareEmptyHash` | internal/mcp/stdio.go:187-202 | two requests, of any tools and arguments, can share a response under the empty hash if and only if both can be dispatched without a fingerprint |
| `EndToEnd.FingerprintDispatchIff` | internal/pipeline/pipeline.go:188-243 | a lookup can dispatch a request under its fingerprint if and only if its tool is not off and its caller is allowed |
| `EndToEnd.ToolsShareFingerprintIff` | internal/mcp/stdio.go:192-202 | two requests, of one tool or two, can share a response under their fingerprint if and only if both can be dispatched under it and their normalised, selected arguments are the same |
| `Fingerprint.NormalizeFields` | internal/pipeline/pipeline.go:656-660 | the normalisation loop gives the same map in any iteration order |
| `Fingerprint.SelectFields` | internal/pipeline/pipeline.go:662-671 | the selection loop keeps exactly the listed fields that are present, or all for an empty list |
| `Fingerprint.Analyse` | internal/pipeline/pipeline.go:646-678 | the whole path from body to pre-image; an absent body counts as the empty object |
| `Fingerprint.NormalizedTwice` | internal/eval/analyse.go:21-51 | normalising a record again changes nothing |
| `Normalizer.Reduction` | internal/normalizer/normalizer.go:17-25 | every transform list equals its last case mapping, whether it trims and whether it collapses |
| `Normalizer.NamedTransforms` | internal/normalizer/normalizer.go:10-25 | for every text: "collapse_whitespace" joins the words with single spaces, "trim" removes exactly the white space at both ends, the case names map each character, any other name does nothing |
| `Normalizer.TrimIsExact` | internal/normalizer/normalizer.go:11 | trimming removes the leading and trailing white space and nothing else |
| `Normalizer.WordsSplit` | internal/normalizer/normalizer.go:27-42 | the words of a text without reference to how they are found: white space separates, a text without any is one word |
| `Normalizer.SummaryOfNames` | internal/normalizer/normalizer.go:10-25 | the summary of a list read off its names |
| `Normalizer.ReductionIff` | internal/normalizer/normalizer.go:10-25 | a text reduces under every list if and only if its characters obey the case laws |
| `Normalizer.Idempotent` | internal/normalizer/normalizer.go:17-25 | applying a list twice is applying it once |
| `Normalizer.AsciiLaws` | internal/normalizer/normalizer.go:10-15 | ASCII tables satisfy every law assumed of tables |
| `Normalizer.CollapsedIsJoin` | internal/normalizer/normalizer.go:27-42 | collapsing is joining the words with single spaces |
| `Normalizer.CollapseIffSameWords` | internal/normalizer/normalizer.go:27-42 | two texts collapse alike if and only if they have the same words |
| `Normalizer.CollapseWhitespace` | internal/normalizer/normalizer.go:27-42 | the builder loop with its flag computes the collapsed text |
| `Normalizer.Apply` | internal/normalizer/normalizer.go:17-25 | the loop over names; unknown names do nothing |
| `Eval.Dataset.Analyse` | internal/eval/analyse.go:21-51 | the record's own arguments are overwritten by their normal form and nothing else changes |
| `Eval.Dataset.ScorePair` | internal/eval/eval.go:195-221 | one pair is scored and both records are left normalised |
| `Eval.Dataset.ScoreAll` | internal/eval/eval.go:227-240 | whatever the order of pairs, the scores are the scores of fresh copies |
| `Eval.Dataset.ScoreNext` | internal/eval/eval.go:227-240 | one turn: records seen before score as they did when fresh |
| `Eval.BuildPairs` | internal/eval/eval.go:137-157 | exactly the unordered pairs of records of one tool, each once |
| `Store.RunsAgree` | internal/store/store.go:85-179 | over every operation sequence with a monotone clock memory, Bolt and the map that never forgets give the same answers |
| `Store.GarbageIsInvisible` | internal/store/bolt.go:51-97 | compaction or a lazy delete at any moment changes no later answer |
| `Store.PresenceVerdictIff` | internal/store/store.go:123-179 | the verdicts of Delete and IncrementReplay agree between equally live stores if and only if both or neither hold a dead entry there |
| `Store.KeyInjective` | internal/store/store.go:81 | for NUL-free tools joined keys are equal if and only if tools and hashes are |
| `Store.PrefixSelectsTool` | internal/store/store.go:160-162 | a key carries a tool's prefix if and only if it is that tool's |
| `Store.PrefixSelectsExactly` | internal/store/store.go:138-162 | for NUL-free fingerprints a scan's prefix selects the keys of its tool and of tools that continue its name with a NUL, and no others |
| `Store.KeyInjectiveByHash` | internal/store/store.go:81 | for NUL-free fingerprints the joined key is injective whatever the tools |
| `Store.ScanIsByTool` | internal/store/store.go:138-158 | a scan of a table of NUL-free tools sees exactly the live entries of its tool |
| `Store.RunsScanByTool` | internal/store/store.go:85-179 | so does every scan at every point of every run that puts only such tools |
| `Store.PutIsFound` | internal/store/store.go:40-45 | a stored entry is found exactly until its time to live is over, for ever without one, and a Put touches no other key |
| `Store.CounterCounts` | internal/store/store.go:166-179 | over every run the counter of a living, undisturbed entry grows by one with every count of its key, and nothing else of it changes |
| `Store.ScansVisitTheSame` | internal/store/bolt.go:186-208 | any two complete scans visit the same entries, those of the live map |
| `Store.Memory.Get` | internal/store/store.go:85-102 | the live entry or not found, dropping an expired one |
| `Store.Memory.Put` | internal/store/store.go:105-119 | stamps and stores, or refuses an empty tool or hash |
| `Store.Memory.Delete` | internal/store/store.go:123-135 | removes the key or reports it missing |
| `Store.Memory.IncrementReplay` | internal/store/store.go:166-179 | counts one replay of that entry and changes no other |
| `Store.Memory.Scan` | internal/store/store.go:138-158 | the filter over map iteration is a scan: each live entry of the prefix once, stopping when the visitor declines |
| `Store.Bolt.Get` | internal/store/bolt.go:124-147 | the same contract as the memory store |
| `Store.Bolt.Compact` | internal/store/bolt.go:51-97 | leaves exactly the live entries and counts the removed ones |
| `Store.Bolt.Scan` | internal/store/bolt.go:186-208 | seeking and walking while the prefix holds is a scan, in key order |
| `KeyOrder.PrefixContiguous` | internal/store/bolt.go:186-220 | nothing without the prefix sorts between the prefix and a key that has it |
| `KeyOrder.FirstDifference` | internal/fingerprint/fingerprint.go:25-29 | keys are ordered by their first difference, a proper prefix first |
| `Embed.EvenBucketFixesSign` | internal/embed/embed.go:98-111 | for an even dimension the bucket alone decides the sign |
| `Embed.NeverCancelsIffEven` | internal/embed/embed.go:52-90 | contributions never cancel, for any text and hash, if and only if the dimension is even |
| `Embed.VectorsAreUnitAndAligned` | internal/embed/embed.go:52-90 | for an even dimension every embedding has length one and lies in one orthant |
| `Embed.CauchySchwarz` | internal/embed/embed.go:147-164 | the squared dot product is at most the product of the squared lengths, for all real vectors of equal dimension |
| `Embed.CosineBounded` | internal/embed/embed.go:147-164 | the similarity lies in [-1, 1] |
| `Embed.SimilarityRange` | internal/embed/embed.go:52-164 | any two embeddings have similarity in [0, 1] |
| `Embed.CountsAreNet` | internal/embed/embed.go:71-77 | a component before scaling is the number of n-grams hashed there with an odd hash less those with an even one |
| `Embed.LogScaling` | internal/embed/embed.go:79-89 | counts are damped by the logarithm of one more than their size and keep their sign |
| `Embed.CosineIs` | internal/embed/embed.go:147-164 | the similarity times both lengths is the dot product; zero vectors give zero, unequal or empty ones none |
| `Embed.ComputeCosine` | internal/embed/embed.go:147-164 | the accumulator loop computes the cosine, zero vectors and mismatches included |
| `Embed.Embed` | internal/embed/embed.go:52-90 | blank text is an error, otherwise the vector of the lower-cased, collapsed text |
| `Embed.L2Normalize` | internal/embed/embed.go:130-142 | in place, the unit vector, or a zero vector left alone |
| `Embed.CollapseSpaces` | internal/embed/embed.go:113-128 | the builder loop without the final trim |
| `Embed.CollapseOfTrimmed` | internal/embed/embed.go:113-128 | on trimmed text it agrees with the normalizer's collapse |
| `Search.SemanticSearch` | internal/pipeline/pipeline.go:563-591 | over any scan order the result is an entry of the tool with the greatest qualifying score, or none qualifies |
| `Search.FoundIffReached` | internal/pipeline/pipeline.go:550-591 | for a positive threshold a match is found if and only if some live entry reaches it, and the score is the maximum whatever the order |
| `Policy.ExpandToItself` | internal/policy/policy.go:93-113 | substituting each token for itself gives the template back |
| `Policy.CheckCaller` | internal/policy/policy.go:76-86 | the loop admits everybody on an empty list and otherwise exactly the callers on it |
| `Policy.DefaultsFillIn` | internal/policy/policy.go:128-146 | a tool keeps every setting it makes; mode, time to live and threshold are taken from the defaults exactly where it is silent |
| `Policy.ExplicitSettingsWin` | internal/policy/policy.go:135-146 | a tool that sets all three is blind to the defaults |
| `Policy.AcknowledgementSays` | internal/policy/policy.go:93-113 | "$tool" stands for the tool and "$hash" for the fingerprint, and what the default says |
| `Policy.TemplatePieces` | internal/policy/policy.go:93-113 | a template has fixed pieces and expansion only fills the token pieces: inserted text is never expanded again |
| `Policy.SynthesizeReplay` | internal/policy/policy.go:93-113 | the byte loop computes the single-pass expansion of the template or its default |
| `PolicyParser.StepValid` | internal/policy/loader.go:60-124 | every accepted line keeps strictly increasing indents, a legal block shape, and tool frames that name existing tools |
| `PolicyParser.EveryPrefixIsValid` | internal/policy/loader.go:53-127 | so at every line of every file |
| `PolicyParser.LineTouchesInnermost` | internal/policy/loader.go:129-202 | an accepted line changes the policy of its innermost block and no other |
| `PolicyParser.PolicyIsFoldOfItsLines` | internal/policy/loader.go:53-202 | every parsed policy is the fold of the lines addressed to it, and a tool exists if and only if a line addressed it |
| `PolicyText.SettingLine` | internal/policy/loader.go:141-186 | a line `key: value` in a tool or in the defaults is accepted if and only if the key is known and the value can be read, and then changes exactly that setting of that policy |
| `PolicyText.NestedLine` | internal/policy/loader.go:86-119 | the same inside `normalize:` and `rate_limit:` |
| `PolicyText.SplitTrims` | internal/policy/loader.go:231-237 | the first colon separates, and blanks around key and value do not matter |
| `PolicyText.PolicyReadsBack` | internal/policy/loader.go:53-202 | any printable policy printed as the block of a tool and parsed gives that tool exactly that policy and changes nothing else |
| `PolicyText.ListReadsBack` | internal/policy/loader.go:260-281 | printing a list of plain elements and reading it gives the list |
| `PolicyText.QuotesDrop` | internal/policy/loader.go:286-293 | one matching pair of quotes is dropped |
| `PolicyText.Sections` | internal/policy/loader.go:73-77 | the two sections open at the left margin and close everything before them |
| `PolicyText.BlankLine` | internal/policy/loader.go:60-64 | white space and comments change nothing |
| `PolicyParser.DefaultsHaveNoNestedBlocks` | internal/policy/loader.go:129-140 | no file gives the defaults transforms or a rate limit, and every line accepted in such a block under defaults edits the tool with the empty name |
| `PolicyParser.LeadingSpaces` | internal/policy/loader.go:219-229 | counts the leading spaces |
| `PolicyParser.ParseInlineList` | internal/policy/loader.go:260-281 | the elements of an inline list, unquoted, empty ones dropped |
| `PolicyParser.Parser.Pop` | internal/policy/loader.go:68-71 | closes exactly the blocks at or beyond the indent |
| `PolicyParser.Parser.ReadLine` | internal/policy/loader.go:60-124 | one turn of the line loop |
| `PolicyParser.Parser.Parse` | internal/policy/loader.go:53-127 | the parsed configuration with a legal stack, or the first bad line and its fault |
| `S3Batch.NothingLost` | internal/audit/s3.go:152-202 | over every event sequence the uploaded batches followed by the buffer are the encoded records in order, none split |
| `S3Batch.EveryBatchIsBounded` | internal/audit/s3.go:182-202 | between events the buffer is under the limit; each batch is non-empty, was under the limit before its last record, and its stamp is the first record's arrival unless a record failed to encode into the empty buffer before |
| `S3Batch.CloseUploadsAll` | internal/audit/s3.go:160-180 | closing hands over everything |
| `S3Batch.StaleStamp` | internal/audit/s3.go:188-198 | a record that fails to encode into an empty buffer leaves its arrival time behind, and a tick does not clear it |
| `S3Batch.FailureMisdatesNextBatch` | internal/audit/s3.go:188-195 | a failed record dates the next batch, however much later that starts |
| `S3Batch.BodiesInOrder` | internal/audit/s3.go:160-180 | the uploaded bodies concatenated are the text of the uploaded records |
| `S3Batch.BodyIsLines` | internal/audit/s3.go:155-172 | a body split at line feeds gives back its records' lines |
| `S3Batch.Sink.Flush` | internal/audit/s3.go:160-179 | nothing for an empty buffer, otherwise one upload and a clean buffer and stamp |
| `S3Batch.Sink.Handle` | internal/audit/s3.go:182-202 | one turn of the select loop |
| `S3Batch.Sink.Loop` | internal/audit/s3.go:152-202 | the whole life of the sink: all bodies together are all records that could be encoded |
| `Traceparent.RoundTrip` | internal/tracing/traceparent.go:44-88 | parsing the printed header of a valid context gives the context back |
| `Traceparent.ParseIff` | internal/tracing/traceparent.go:71-88 | a header is read as c if and only if c is valid and the trimmed header spells c with two hex flag digits of either case |
| `Traceparent.Reprint` | internal/tracing/traceparent.go:71-88 | an accepted header prints back as itself, trimmed, up to the case of the flag digits |
| `Traceparent.CheckValid` | internal/tracing/traceparent.go:51-64 | the loop accepts exactly 32 and 16 lower-case hex digits, neither all zero |
| `Traceparent.IdDigits` | internal/tracing/traceparent.go:58-62 | ids have the sixteen lower-case hex digits and no others |

## Left out

- Shadow mode, metrics, tracing middleware, logging, flags and configuration of processes.
- The HTTP proxy, MCP over HTTP, the admin interface (beyond deleting entries), authentication and OIDC.
- The Postgres store and the embedding codec; the HTTP embedder.
- The token bucket: whether the limiter allows a call is a free choice at each gate.
- SHA-256, FNV, JSON decoding and float formatting: parameters or abstract tokens. Number tokens are assumed to consist of the characters a JSON number may have.
- Floating-point rounding in embeddings and scores: vectors are over the reals, and the similarity reported beside a match is not modelled.
- `Coalescing.Coalescer.ReleaseLeader`: removal and close are one method here; the step systems keep them apart.
- `Pipeline` merges an audit write with the neighbouring local step of the same call, reads the clock for an entry's creation and for its Put at the same moment, and lets store and pipeline share one clock.
- Panics other than those of upstream and of Put. In particular a panic of the metrics or audit write between a leader's election and the call of upstream (pipeline.go:357-358, before `runLeader` installs its recovery) is not representable; it would leave the handle open and its waiters waiting until they are cancelled.
- The two-phase lazy deletes and compaction of the stores are atomic operations, and Bolt's Put, Delete and IncrementReplay, which do what the memory store does, are not repeated; malformed Bolt values, which are skipped, do not occur.
- Saturation of very long time differences, and wrap-around of a duration given in days or weeks.
- The error path of `canonicalize`, which JSON values decoded from a body cannot reach.
- `buildIntent`: the intent of a call is part of what `analyse` returns; it is not injective and nothing is claimed of it.
- The metrics and threshold search of the evaluation harness: only which pairs are formed and how they are scored.
- Reading the policy file and the range checks of `Validate`.
- Object keys in S3: batches carry the time stamp from which the key is built; that two batches may share a key is outside the model.
- Writing frames: a frame to the client is identified by its id and its kind; replacing the id in the leader's frame is taken as given.
- Random generation of trace and span ids.
