# Relay proofs

A Dafny model of an OpenAI-compatible relay and proofs about it. The relay walks a plan of egresses per request
and moves to another one only when it can prove that nothing of the request left; it schedules egresses with
smooth weighted round robin whose state survives reloads; it keeps process-wide health, pin and slot counts; and
it translates streams and requests between Chat Completions and the Responses API.

Check everything with `dafny verify dfyconfig.toml`.

## How the project is laid out

Code that changes fields is a class whose methods are proved equal to a step function on the abstract state
(`ensures View() == Step(old(View()), ...)`); the theorems are about every run of those step functions.

- Scheduling: `Config`, `Fingerprint`, `SmoothWeights`, `Scheduler`, and `Planning` for what one plan is, member by
  member.
- Failover: `Provenance`, `Client`, `Verdicts` (what a call's verdict says of its script), `Limiter`, `Evidence`,
  `Executor`, `Failover`, `Stopping` (when a request goes on), `Ledger` (what its rows tell), and `Concurrency` for
  many requests at once. The transport is an arbitrary function from hop number to reported events and outcome
  (`Client.World`); other requests' limiter calls are arbitrary sequences in between (`Executor.Around`).
- Process-wide state: `Health`, `Server`.
- Bytes and relaying: `LineScanner`, `Passthrough`.
- Stream translation: `ChatToResponses` and `ResponsesToChat` are the two machines; `StreamMonitor` defines an
  event stream in order by positions; `StreamLifecycle`, `StreamMessages`, `StreamReasoning`, `ToolArguments`, `StreamWords`,
  `CallLog`, `StreamClosing` and `StreamLanding` are about the first machine's runs, `ChatOutput` about the second's;
  `Pipeline` feeds any of its logs to the
  second machine, and `Composition` puts the two together. What of a stream reaches the call machinery is read off the
  chunks by `StreamWords.Beats`: per chunk the call fragments and the finish, both dropped if the chunk is cut short
  inside a thinking block.
- Request translation: `RequestTranslation`, `RequestShape` (which messages and items come out, one by one) and
  `RequestRoundTrip` (what they say).

## Premises

- A write reported on a hop is stored on the hop and on the call before the record is read
  (`Provenance.DialTrace.Record`). Events may arrive late, on a hop already left.
- A redirect that the standard library follows by itself answers a request it has written
  (`Client.AnswersFollowWrites`).
- Slots: whether an egress is capped does not change while requests that use it are running (`Concurrency.Fits`).
  Without it, `Concurrency.StepAccountsIff` and `Concurrency.RunAccountedIff` say exactly which steps and runs keep
  the counts right, and `Concurrency.MixedCapsUndercount` is a run that does not.
- Plan entries are distinct, as `Scheduler.PlanIsPermutation` proves of every plan.
- Chat chunks through both stream machines. What comes out as text, which calls are started, and the one finish need
  no premise. Arguments need ids that stay the same for a call and differ between calls (`Composition.OwnIds`), and
  nothing else: `Composition.IndexesCarry`, `CallsArrive`, `OwnArgumentsIff` and `ArgumentsSurviveIff` take streams
  with calls that have no name and with calls after the finish. `CallsKeepArguments` is their case of calls named
  whenever they are closed, `NamelessDisplace`, `OwnArgumentsOnceIff` and `StraddleIff` of call fragments that all
  precede the finish.
- Synthesized call ids are not empty (`RequestRoundTrip.Minting`).

## Where the code does less than one might expect

- Content inside an open thinking block ends a chunk: its tool calls and its finish are not looked at
  (`ToolArguments.ThinkingSwallows`). `ToolArguments.SwallowsIff` says from the tags and the state when that is so.
- A message told more after it was closed is done with less than its whole text; `StreamMessages.DoneTextIsWholeIff`
  says exactly when it is done with all of it.
- Reasoning first opened after the completion is done only if an end tag comes later: the flush of a completed stream
  closes nothing (`StreamReasoning.ReasoningIs`). Reasoning after its closing is in no done text.
- A call announced after a finishing chunk is still sent, so the one finish may say `stop` ahead of it
  (`Composition.FinishBeforeCall`). `Composition.FinishIff` says what the finish does speak for: the fragments up to
  the first finishing chunk.
- A call that has an id but no name is closed anyway, and its whole arguments go to the index of the call announced
  last, or to index 0 if there is none yet. The first closing that lands on an index fills it unless something was
  streamed there before. So the arguments of a nameless call may come out as those of another call or be dropped
  (`Composition.NamelessCallMisdelivers`), or be glued in front of those of a call announced later
  (`Composition.NamelessCallIsGlued`). `Composition.CallsArrive` says what every started call arrives with, and
  `Composition.OwnArgumentsIff` exactly when that is its own.
- `Composition.ArgumentsSurviveIff` says exactly when all of a call's arguments come out and nothing else. With all
  calls named and all fragments before the finish, that is so if and only if they do not straddle the arrival of id
  and name (`Composition.StraddleIff`, example `Composition.StraddlingLosesArguments`).
- A request round trip keeps the first system or developer text only, and drops messages of other roles
  (`RequestRoundTrip.DroppedMessages`). `RequestRoundTrip.RoundTripNormalizes` says what comes out of every
  conversation, and `RequestRoundTrip.RoundTripIff` exactly when its transcript is unchanged.

## Model

| member | source | states |
|---|---|---|
| Fingerprint.Build | internal/routing/routing.go:301-328 | the builder loop renders the fingerprint |
| Fingerprint.FingerprintIdentifiesShape | internal/routing/routing.go:301-328 | two validated routes have equal fingerprints if and only if id, strategy (unset being round robin), members and, when weighted, weights are equal |
| Fingerprint.TaggedInjective | internal/routing/routing.go:301-328 | NUL-separated control-free fields can be read back in only one way |
| Fingerprint.DecimalInjective | internal/routing/routing.go:301-328 | decimal renderings of different counts and weights differ |
| SmoothWeights.RunRound | internal/routing/routing.go:157-178 | the selection loop raises every member, picks the first maximum and charges it the pool's total |
| SmoothWeights.RoundConserves | internal/routing/routing.go:157-178 | a round keeps the sum of running weights over any member list containing the pool, and adds entries for pool members only |
| SmoothWeights.RoundsInvariant | internal/routing/routing.go:157-178 | from fresh state, each running weight is n times the weight minus total times the number of rounds led, above minus total, and all sum to 0 |
| SmoothWeights.LeadershipQuota | internal/routing/routing.go:157-178 | after any n rounds a member has led fewer than n*w/W + 1 times, and at least n*w/W minus the number of other members |
| SmoothWeights.WholeCycles | internal/routing/routing.go:157-178 | after every W rounds a member has led exactly its weight per cycle and every running weight is 0 again |
| Scheduler.Scheduler.Resolve | internal/routing/routing.go:232-256 | returns and stores the state for a snapshot: reused on a match, detached for a superseded snapshot, fresh otherwise |
| Scheduler.Schedulable | internal/routing/routing.go:142-148 | the loop collects exactly the heads of positive weight, in order |
| Scheduler.Drop | internal/routing/routing.go:376-384 | the list without one id |
| Scheduler.Scheduler.Plan | internal/routing/routing.go:129-186 | the plan and the new table are those of the step function all scheduler theorems are about |
| Scheduler.Scheduler.PruneRoutes | internal/routing/routing.go:340-351 | exactly the routes outside the keep set are dropped, and counted |
| Scheduler.PlanIsPermutation | internal/routing/routing.go:129-186 | a plan is empty if the heads are empty or none has weight under the weighted strategy, otherwise a duplicate-free permutation of the heads; a weighted plan's head has positive weight |
| Scheduler.FrontIsPermutation | internal/routing/routing.go:376-384 | moving one member to the front and keeping the rest in order loses and repeats nothing |
| Scheduler.MatchMeansShape | internal/routing/routing.go:232-256 | state found by fingerprint belongs to the asking route's own members and weights |
| Scheduler.StepKeepsTable | internal/routing/routing.go:129-186 | one plan or prune keeps: running weights sum to 0 and only positive-weight members have one |
| Scheduler.EveryRunKeepsTable | internal/routing/routing.go:129-186 | the same over every sequence of plans, reloads, eligibility changes and prunes |
| Scheduler.PlansAgainstOwnShape | internal/routing/routing.go:232-256 | after any such run, whatever snapshot plans next is handed state of its own shape |
| Scheduler.TagNeverDecreases | internal/routing/routing.go:232-256 | between prunes a route's generation tag neither decreases nor disappears |
| Scheduler.StaleSnapshotWritesNothing | internal/routing/routing.go:232-256 | an older snapshot of another shape leaves the table unchanged and still gets a full plan, the one fresh state gives |
| Scheduler.ReloadContinuity | internal/routing/routing.go:232-256 | amid any plans of other routes and any prunes that keep the route, reloads and edits that keep the fingerprint (unset to round_robin among them) give its requests the same plans as one snapshot throughout, for the same eligible heads |
| Scheduler.PlansAreRounds | internal/routing/routing.go:157-178 | for a route without state, or with state of another shape that no newer snapshot left, n weighted plans over unchanged heads are n rounds of the smooth algorithm from nothing |
| Scheduler.WeightedShares | internal/routing/routing.go:157-178 | for such a route, quota and whole-cycle exactness of the scheduler's own plans; a weight-0 head never leads |
| Scheduler.RoundRobinTurns | internal/routing/routing.go:177-185 | unless a newer snapshot of another shape holds the place, any len(heads) consecutive round-robin plans over unchanged heads are led by each head exactly once |
| Planning.NewShapeReplaces | internal/routing/routing.go:232-256 | a servable plan leaves an entry of its own shape if and only if no newer snapshot of another shape holds the place; an entry of that shape keeps its tag, any other is replaced by what a plan over no state leaves, under this generation; nobody else's entry changes |
| Planning.PlanEmptyIff | internal/routing/routing.go:129-156 | a plan is empty, and the table untouched, if and only if there are no heads or, weighted, none of positive weight |
| Planning.PrunedStartsOver | internal/routing/routing.go:340-351 | a pruned route starts over whatever snapshot plans next, and a kept one goes on where it stood |
| Planning.RoundRobinPlanIs | internal/routing/routing.go:177-185 | a round-robin plan has heads[(cursor + j) % n] at every j, and the cursor moves by one |
| Planning.WeightedPlanIs | internal/routing/routing.go:157-178 | a weighted plan puts the head of highest running weight plus own weight first, the earliest of equals, and the other heads behind it in their order |
| Planning.WeightedPlanLeaves | internal/routing/routing.go:157-178 | after a weighted plan every head's running weight has grown by its own weight, the leader's is less what all heads weigh together, and nobody else's changed |
| Provenance.DialTrace.Record | internal/upstream/provenance.go:569-630 | each reported event changes the hop's record as specified; a write also marks the call, nothing else does |
| Provenance.DialTrace.Provenance | internal/upstream/provenance.go:641-697 | phase and request state as the attribution function gives them |
| Provenance.CallTrace.NoteResponse | internal/upstream/provenance.go:509-517 | the call is marked as answered and nothing else changes |
| Provenance.NotSentIff | internal/upstream/provenance.go:641-697 | given that a hop's write marks the call, a failure reads not_sent if and only if its hop dialed and nothing of the call was written or answered |
| Client.RunHop | internal/upstream/client.go:424-427 | a hop has a fresh record bound to the call's, and earlier records change only by late reports |
| Client.JudgeHop | internal/upstream/client.go:459-507 | when a hop ends the call and how; a redirect marks the call before anything else is decided |
| Client.FollowHops | internal/upstream/client.go:418-531 | with any number of redirects already followed, the loop ends with the records and verdict of the recursive walk |
| Client.RunAttempt | internal/upstream/client.go:405-531 | the walk of a fresh call, after at most 20 redirects |
| Client.DoClassified | internal/upstream/client.go:266-341 | the classified result of a whole call |
| Client.WalkFacts | internal/upstream/client.go:405-531 | along every walk the records say what the environment did: the call is transmitted if and only if some hop wrote, and answered if a failing walk got a response |
| Client.ReplaySafeIff | internal/upstream/provenance.go:269-272 | a call is replay-safe if and only if it failed in transport under a live caller, its last hop dialed, and no hop wrote a byte or got a response |
| Client.NeverReplayedOnceSent | internal/upstream/provenance.go:478-500 | a replay-safe failure implies no hop wrote and no hop was answered |
| Verdicts.HopsAre | internal/upstream/client.go:418-531 | a call goes through the hops answered by a redirect that may be followed, up to the first that is not, or the twenty-first |
| Verdicts.LiveIff | internal/upstream/client.go:302-341 | a call is live if and only if its last hop's outcome is a response below 400 that is not a refused redirect; origin and state follow the path |
| Verdicts.AnswerFails | internal/upstream/failure.go:177-187 | any other answer fails with its own status, as Upstream429 if and only if that is 429, Upstream5xx if and only if it is 500 or above, a client error otherwise; origin and state follow the path |
| Verdicts.TransportFails | internal/upstream/provenance.go:478-487 | a call without an answer of its own fails as a 502, of the client if and only if that gave up, and otherwise with the class the error tells |
| Verdicts.PhaseIs | internal/upstream/provenance.go:641-697 | a transport failure is placed nowhere if the last hop began no dial, in the phase last entered if the dial did not end, and after that by the error if the hop was writing |
| Verdicts.StateIs | internal/upstream/provenance.go:641-697 | it admits a response if and only if some hop got one, and nothing sent if and only if the last hop dialed, no hop wrote and none was answered |
| Verdicts.BlamedIff | internal/upstream/provenance.go:343-358 | an egress is marked if and only if a live caller's last hop broke off dialing in a phase performed against the egress itself |
| Limiter.Limiter.Acquire | internal/upstream/limits.go:30-43 | takes a slot below the cap, refuses at it, counts nothing when uncapped |
| Limiter.Limiter.Release | internal/upstream/limits.go:45-51 | decrements a positive count, capped or not |
| Limiter.Limiter.Peek | internal/upstream/limits.go:20-28 | answers what an acquire would answer, without reserving |
| Evidence.Recorder.Append | internal/upstream/evidence.go:178-190 | appends below the cap of 16 rows, counts a drop at it |
| Evidence.Recorder.Annotate | internal/upstream/evidence.go:205-219 | names every row from the start row on and no earlier one |
| Evidence.Recorder.Decide | internal/upstream/fallback.go:364-374 | stamps the last row if the attempt owns it, otherwise no row |
| Evidence.Recorder.Correct | internal/upstream/evidence.go:226-236 | rewrites one row's decision, or nothing when out of range |
| Executor.PlanSelector.Next | internal/routing/intent.go:141-156 | yields the next entry that is not the excluded one and moves past it |
| Executor.SlotReleaseBody.Close | internal/upstream/fallback.go:115-125 | every close closes the body; the slot is freed once, after a close of the body, however many follow |
| Executor.Execution.TakeOffer | internal/upstream/fallback.go:183-222 | selection, the three skips and the slot, as the atomic offer step; `Stopping.StopsExactly` says which entries are skipped and when the request goes on |
| Executor.Execution.RecordDial | internal/upstream/fallback.go:230-287 | the failed dial's row is appended, named and stamped, or dropped whole at the cap; the index returned is that row's or none |
| Executor.Execution.TakeFailure | internal/upstream/fallback.go:272-303 | after a failure: stop with this verdict, or go on with the row remembered |
| Executor.Execution.TakeVerdict | internal/upstream/fallback.go:230-303 | a live response keeps its slot, a failure frees it first |
| Executor.Execution.Execute | internal/upstream/fallback.go:145-346 | the loop refines the step-by-step run, whatever other requests do to the limiter in between |
| Failover.OfferKeeps | internal/upstream/fallback.go:183-222 | every offer keeps the failover invariant or ends the request in order |
| Failover.SettleKeeps | internal/upstream/fallback.go:230-303 | every verdict keeps the failover invariant or ends the request in order |
| Failover.DriveKeeps | internal/upstream/fallback.go:145-346 | every run of the loop ends, with the invariant of an ended request |
| Failover.AtMostOnceTransmission | internal/upstream/fallback.go:272-295 | for every plan and transport: no call but the last wrote a request byte on any hop or got a response |
| Failover.DialsEachEgressOnce | internal/upstream/fallback.go:67-72 | a request dials distinct egresses in plan order, at most Budget of them |
| Failover.TruthfulDecisions | internal/upstream/fallback.go:281-346 | a recorded failed dial reads fallback if and only if a later egress was dialed and stop if and only if none was; each row names its own attempt; skips carry no decision |
| Failover.ReturnedVerdict | internal/upstream/fallback.go:305-346 | the returned verdict is the last dial's own, a success with its origin and state if live; the made-up error appears if and only if nothing was dialed |
| Stopping.NextIndexIs | internal/routing/intent.go:141-156 | the selector passes over entries of the excluded egress only and stops at the first other |
| Stopping.StopsExactly | internal/upstream/fallback.go:183-303 | of every run, in plan order: an entry is skipped if and only if it is unknown, did not build, or was at its cap, and dialed otherwise; another entry follows if and only if fallback is on and the entry was skipped, or failed replay-safe with dials left, and the plan is not used up |
| Stopping.EndsForAReason | internal/upstream/fallback.go:216-346 | without fallback at most one entry is taken; a request that does not end live used up its plan, or was skipped with fallback off, or its last dial is not replay-safe, or it made max_attempts dials (one if fallback is off or max_attempts below one) |
| Ledger.RowsTellTheLog | internal/upstream/evidence.go:178-236 | the rows of an ended request are its log entry by entry, up to 16 and the rest counted: each skip with its reason, each failed dial with its attempt, failure, health and fallback decision, none for a live answer; its health marks are those its dials call for |
| Concurrency.StepAccountsIff | internal/upstream/limits.go:30-51 | from an accounted state, a step of any request keeps every counter equal to its counted holders if and only if it is not a release by an uncounted holder of an egress with a positive count |
| Concurrency.RunAccountedIff | internal/upstream/limits.go:30-51 | a run is accounted all along if and only if none of its steps is such a release |
| Concurrency.StepConserves | internal/upstream/fallback.go:214-303 | with caps of fixed sign no step is such a release, and every step keeps counts, bound and body order |
| Concurrency.SlotsAreConserved | internal/upstream/limits.go:30-51 | in every reachable state a capped counter is the number of requests holding a slot, never above the cap, and bounds the open connections |
| Concurrency.MixedCapsUndercount | internal/upstream/limits.go:30-51 | a reachable state in which two capped requests hold an egress whose cap and count are both 1 |
| Health.Registry.Pin | internal/health/health.go:109-118 | each key's count rises by its occurrences |
| Health.Registry.Release | internal/health/health.go:119-134 | each key's count falls again, entries at 0 removed |
| Health.Registry.Reclaim | internal/health/health.go:139-154 | exactly the states neither active nor pinned are dropped, and counted |
| Health.Registry.Observe | internal/health/health.go:181-205 | one observation changes one identity as the step function says, under an enabled policy only |
| Health.Registry.Healthy | internal/health/health.go:212-223 | false exactly for a known identity in cooldown under an enabled policy |
| Health.DeadlineHasArming | internal/health/health.go:181-205 | a deadline is the time plus cooldown of some arming observation, with no success or arming since: failures in cooldown never move it |
| Health.StreakSince | internal/health/health.go:181-205 | the streak is the number of counted failures since the last success or arming |
| Health.ArmingsAreSeparated | internal/health/health.go:181-205 | two armings without a success between them are at least the threshold of counted failures apart |
| Health.LaterArmingIsPast | internal/health/health.go:181-205 | a later arming happens only after the earlier cooldown ran out |
| Health.CoolingIff | internal/health/health.go:181-223 | an identity is cooling if and only if its history has an arming not cleared by a success and not run out |
| Health.FedIsAfter | internal/health/health.go:181-205 | with many identities mixed, each one's state is a function of its own history |
| Health.HealthyIff | internal/health/health.go:212-223 | schedulable if and only if the policy is off or that history has no cooldown in force |
| Health.RecordedIff | internal/health/health.go:181-189 | a policy that is off or has no positive threshold records nothing, any other records every observation, for its own identity only |
| Health.ThresholdFailuresArm | internal/health/health.go:190-205 | failures in a row from a clean state arm the cooldown with the threshold-th and not before |
| Server.RouteHeads | internal/router/server.go:201-226 | the heads are exactly the eligible members, without repeats, in route order |
| Server.KeepSets | internal/router/server.go:165-184 | signatures and keys of exactly the egresses some route lists, and all route ids |
| Server.Server.OnGeneration | internal/router/server.go:133-156 | a snapshot newer than any serviced prunes clients, health and routes to its keep sets; any other changes nothing |
| Server.PinsAreExact | internal/health/health.go:109-154 | in every reachable state a key's count equals its unreleased holds, and maintenance ran at strictly increasing generations |
| Server.StepSparesPinned | internal/health/health.go:139-154 | no step drops the state of a key some request holds |
| Server.PinnedSurvives | internal/router/handler.go:357-382 | nothing a request pinned is reclaimed before its release, under every interleaving |
| Server.StateIsSince | internal/health/health.go:139-205 | in every run a key's streak and deadline are those of its observations since its last reclaim |
| Server.PinnedRemembers | internal/router/handler.go:357-382 | while a request holds a key, that history loses nothing and gains every observation |
| Server.ServedHealthyIff | internal/health/health.go:212-223 | in every reachable state, with time flowing, an identity is schedulable if and only if the policy is off or no cooldown armed since its last reclaim is in force |
| Server.MaintenanceIsGuarded | internal/router/server.go:133-156 | a stale snapshot changes nothing, an active key is never reclaimed, and what survives is active or held |
| Server.EligibleIff | internal/router/server.go:201-226 | in every reachable state an egress is eligible if and only if it is enabled, streams if it must, serves the model, takes the body, has a slot free if capped, and no cooldown armed in its history is in force |
| LineScanner.ScanLines | internal/upstream/client.go:790-834 | for every cutting into reads: the lines and tail of the whole body; after a read error the complete lines and no tail |
| LineScanner.Drain | internal/upstream/client.go:799-811 | delivers every complete line of a segment and keeps the rest |
| LineScanner.Extend | internal/upstream/client.go:790-834 | splitting can stop anywhere and resume from the unfinished segment |
| LineScanner.Rejoin | internal/upstream/client.go:847-877 | lines and tail joined again are the body |
| LineScanner.SplitIsUnique | internal/upstream/client.go:847-877 | it is the only split into newline-free pieces |
| LineScanner.NoNewlineInside | internal/upstream/client.go:847-877 | no line and no tail holds a newline |
| Passthrough.Relay.EmitResponsesDone | internal/relay/passthrough.go:392-409 | failed frame if no terminal was seen, then the sentinel if none was sent |
| Passthrough.Relay.ProcessLine | internal/relay/passthrough.go:167-342 | one line's effect on flags and output, for the Responses format |
| Passthrough.Relay.ProcessTail | internal/relay/passthrough.go:356-374 | a sentinel tail goes through the same synthesis, any other is forwarded |
| Passthrough.Relay.Flush | internal/relay/passthrough.go:419-441 | the flush's effect on flags and output |
| Passthrough.AfterLines | internal/relay/passthrough.go:167-193 | after any lines: done if and only if a sentinel line came; the failed frame is out if and only if that happened with no terminal chunk before it |
| Passthrough.StreamTerminates | internal/relay/passthrough.go:356-441 | every stream gets exactly one sentinel; the failed frame at most once, before it, if and only if no terminal chunk came before the first sentinel or the flush |
| Passthrough.StreamIs | internal/relay/passthrough.go:167-441 | every stream frame by frame: the lines that are no data, scalars, or iterable chunks with something to say, in order and once each, then a tail that is no sentinel; the failed frame, if due, and the sentinel stand in front of whatever follows the first sentinel line, or last |
| Passthrough.FinalizedIff | internal/relay/passthrough.go:335-342 | before the flush a stream is finalized if and only if a terminal chunk was forwarded |
| Passthrough.FlushTwice | internal/relay/passthrough.go:419-441 | a second flush writes nothing |
| ChatToResponses.Translator.ConvertChunk | internal/translate/stream_chat2resp.go:416-539 | one chunk changes the accumulator as the step function says and returns exactly the events that adds |
| ChatToResponses.Translator.ConvertEnd | internal/translate/stream_chat2resp.go:388-404 | the flush closes what is open, once |
| ChatToResponses.Translator.EmitToolCall | internal/translate/stream_chat2resp.go:243-310 | one fragment: learn, announce, collect |
| ChatToResponses.FindIsFirst | internal/translate/stream_chat2resp.go:482-499 | a tag is found if and only if it occurs, at its first occurrence |
| StreamMonitor.AcceptedIsInOrder | internal/translate/stream_chat2resp.go:74-78 | a log the running check accepts is in order by positions |
| StreamMonitor.OnceMeansOnce | internal/translate/stream_chat2resp.go:155-222 | in an ordered log no two positions hold the same once-only event |
| StreamLifecycle.ConvertKeeps | internal/translate/stream_chat2resp.go:416-539 | after every chunk the accumulator knows exactly what a checker of its output knows, without complaint |
| StreamLifecycle.StreamIsInOrder | internal/translate/stream_chat2resp.go:155-222 | for every chunk sequence: numbers 1..n, items before parts before deltas, nothing once-only twice, done texts equal to the deltas before them |
| StreamLifecycle.CompletesOnce | internal/translate/stream_chat2resp.go:369-404 | a flushed stream has exactly one completion, and a second flush emits nothing |
| StreamMessages.DoneTextIs | internal/translate/stream_chat2resp.go:190-222 | for every stream, a message told anything is opened once, item and part, and done once, text, part and item, each with exactly what it was told up to the chunk that closes it, or the flush; without a closing it is not done |
| StreamMessages.DoneTextIsWholeIff | internal/translate/stream_chat2resp.go:155-222 | that is its whole text if and only if it is told nothing after its closing |
| StreamMessages.RunNote | internal/translate/stream_chat2resp.go:155-222 | the same after every chunk of the stream |
| StreamReasoning.ConvertTale | internal/translate/stream_chat2resp.go:416-539 | one chunk opens the response and the reasoning, adds what it thinks, and closes on an end tag or a finish, as its reasoning, tags and finish tell |
| StreamReasoning.ReasoningSoFar | internal/translate/stream_chat2resp.go:80-145 | after every chunk of every stream: the response and its reasoning are opened once, and done once, text, part and item, with all that was thought up to the first end tag or finish after the opening, and not done without one |
| StreamReasoning.DoneBeforeCompleted | internal/translate/stream_chat2resp.go:527-536 | reasoning opened by the completion is done exactly once before it |
| StreamReasoning.ReasoningIs | internal/translate/stream_chat2resp.go:388-404 | the same for whole flushed streams; reasoning opened after the completion is done if and only if an end tag follows |
| StreamReasoning.CompletedComesLast | internal/translate/stream_chat2resp.go:369-404 | the completion is the last event of the first chunk that finishes, or of the flush |
| ToolArguments.EarlyThenLate | internal/translate/stream_chat2resp.go:243-310 | a call's fragments are those before id and name were known, then those after |
| ToolArguments.ConvertKeepsArgs | internal/translate/stream_chat2resp.go:243-367 | every chunk keeps, per call: announced if and only if id and name arrived, buffer equal to all fragments, deltas equal to the late ones |
| ToolArguments.ArgumentsAreComplete | internal/translate/stream_chat2resp.go:312-367 | for every interleaving: streamed deltas are all fragments minus exactly the early prefix; done arguments are all fragments received before closing, "{}" for none |
| ToolArguments.SwallowsIff | internal/translate/stream_chat2resp.go:482-504 | a chunk is cut short if and only if a thinking block is open or opened by it, is not closed by it, and content is left besides the start tag |
| ToolArguments.FragmentsReceived | internal/translate/stream_chat2resp.go:482-517 | a chunk's fragments all count unless it is cut short, then none does |
| ToolArguments.FinishTaken | internal/translate/stream_chat2resp.go:501-536 | a chunk completes the response if and only if it finishes and is not cut short |
| ToolArguments.ThinkingSwallows | internal/translate/stream_chat2resp.go:501-504 | a chunk cut short leaves calls and completion as they were |
| ResponsesToChat.Translator.AddItem | internal/translate/stream_resp2chat.go:125-167 | a call gets the next index, a call seen before the one it has |
| ResponsesToChat.Translator.FinishItem | internal/translate/stream_resp2chat.go:195-237 | whole arguments are sent if none were sent for that index |
| ResponsesToChat.Translator.ConvertEvent | internal/translate/stream_resp2chat.go:85-330 | one event changes the state as the step function says and returns exactly the chunk that adds |
| ResponsesToChat.Translator.End | internal/translate/stream_resp2chat.go:85-91 | the flush finishes a started stream that has no finish |
| ResponsesToChat.ChatStreamIsSound | internal/translate/stream_resp2chat.go:125-318 | for every event sequence: dense indices in order of first announcement, whole arguments only as an index's first argument output, at most one finish, exactly one after flushing a started stream |
| ResponsesToChat.StartsFollowOrder | internal/translate/stream_resp2chat.go:125-169 | every start chunk carries its call's place in that order, a repeat the same place again |
| ChatOutput.KeysAre | internal/translate/stream_resp2chat.go:125-167 | a call goes by the first of its item's, its event's and its own id that is not blank, or by a made-up one |
| ChatOutput.OutputIs | internal/translate/stream_resp2chat.go:85-330 | for every event sequence, each event is answered as its own content and the events before it call for: words, starts and argument indexes by order of first announcement, whole arguments if the index carries none, one ending |
| ChatOutput.EndsAs | internal/translate/stream_resp2chat.go:270-318 | the one ending is the error of the first failure that has one if no completion precedes it, else a finish that says tool_calls if and only if a call was announced before |
| StreamWords.ConvertWords | internal/translate/stream_chat2resp.go:476-508 | any chunk says its reasoning and then its content, thought or said as the tags and the open block tell, and is cut short exactly as they tell |
| StreamWords.RunWords | internal/translate/stream_chat2resp.go:476-517 | in every run the thinking flag, the words and the fragments received are those read off the chunks |
| CallLog.RunGood | internal/translate/stream_chat2resp.go:243-367 | in every reachable state the log announces the calls whose id and name have arrived, in that order, and each call's own events carry its late fragments, with its whole buffer first if there were none when it was closed |
| CallLog.RunNamed | internal/translate/stream_chat2resp.go:257-287 | if the ids received are the calls' own, every event about a call carries its id |
| StreamClosing.CloseAllFrame | internal/translate/stream_chat2resp.go:527-536 | a closing closes exactly the calls with an id not closed before, with the fragments there are, and completes once |
| StreamClosing.EndedClosing | internal/translate/stream_chat2resp.go:388-404 | which calls a flushed stream has closed, by which chunk and with which fragments, and what its completion says of calls |
| StreamClosing.FlushClosesAll | internal/translate/stream_chat2resp.go:388-404 | if no finish counts, the flush closes exactly the calls with an id, each with all its fragments |
| StreamLanding.CloseAllLands | internal/translate/stream_resp2chat.go:195-237 | in any state, a closing leaves at each Chat index what was there, or else the whole arguments of the least call that lands on it |
| StreamLanding.EndedArriving | internal/translate/stream_resp2chat.go:169-237 | for every stream, what lands on each Chat index is a fold over its chunks: late fragments as they come, and at each closing the least landing call's whole arguments if the index is empty |
| StreamLanding.ArrivingIs | internal/translate/stream_resp2chat.go:195-237 | in closed form: the whole arguments brought by the first closing that lands there, unless a late fragment was there first, then all late fragments of the index's call |
| Pipeline.PipeIsRun | internal/translate/stream_resp2chat.go:85-330 | the fold the theorems use is a run of the second machine on the wired events |
| Pipeline.WordsPass | internal/translate/stream_resp2chat.go:110-119 | text and reasoning deltas of any log come out of the second machine unchanged and in order |
| Pipeline.FinishPasses | internal/translate/stream_resp2chat.go:56-81 | for any log, the finishes that come out are decided by the first completion: tool_calls if and only if a call was announced before it |
| Pipeline.StartsPass | internal/translate/stream_resp2chat.go:125-167 | for any log, the same calls are started, with id and name, in order, each with the index it is remembered under |
| Pipeline.CallsPass | internal/translate/stream_resp2chat.go:169-237 | for any log with its calls' own distinct ids, closings of unannounced calls included, each Chat index carries exactly what lands on it |
| Pipeline.LandedIsDelivered | internal/translate/stream_resp2chat.go:169-237 | if every event follows its call's announcement, each place carries its own call's arguments and no other index any |
| Composition.FinishesOnce | internal/translate/stream_resp2chat.go:64-91 | every stream comes out of both machines with exactly one finish |
| Composition.TaggedWordsSurvive | internal/translate/stream_chat2resp.go:476-508 | what any stream says, its think tags read, comes out of both machines in order |
| Composition.WordsSurvive | internal/translate/stream_chat2resp.go:476-508 | text and reasoning of an untagged stream come out as they are, in order |
| Composition.FinishIff | internal/translate/stream_resp2chat.go:56-81 | for every stream the finish says tool_calls if and only if some call's id and name arrived by the first chunk whose finish counts, or at all if none does |
| Composition.StartsSurvive | internal/translate/stream_resp2chat.go:125-167 | the calls of any stream come out with id and name, in the order both were known |
| Composition.FinishBeforeCall | internal/translate/stream_chat2resp.go:510-536 | two chunks, the first finishing, the second announcing a call: the call comes out started and the finish says stop |
| Composition.IndexesCarry | internal/translate/stream_resp2chat.go:125-237 | with stable distinct ids, each Chat index carries the fold over the chunks, and a started call's index is its place in the order of arrival |
| Composition.CallsArrive | internal/translate/stream_resp2chat.go:169-237 | with stable distinct ids and no other premise, what every started call arrives with: the arguments the first closing on its index brings, if nothing was streamed for it by then, and its late fragments |
| Composition.OwnArgumentsIff | internal/translate/stream_resp2chat.go:195-237 | a started call arrives with its own arguments if and only if that closing finds its index empty exactly when its own closing does, and then brings arguments equal to its own |
| Composition.CallsKeepArguments | internal/translate/stream_resp2chat.go:169-237 | the case of calls named whenever they are closed: each arrives with its late fragments, everything received until its closing first if there was no late one by then, "{}" for nothing |
| Composition.ArgumentsSurviveIff | internal/translate/stream_resp2chat.go:195-237 | with stable distinct ids and no other premise, all of a call's arguments and nothing else arrive if and only if nothing came before id and name and no closing found its index empty, or the closing that did brought exactly what came before |
| Composition.NamelessDisplace | internal/translate/stream_chat2resp.go:312-367 | with all call fragments before the finish: what every started call arrives with, nameless calls included, and what every other index carries |
| Composition.OwnArgumentsOnceIff | internal/translate/stream_resp2chat.go:195-237 | with all call fragments before the finish: if and only if the call is not the last to arrive, or something was streamed for it, or no nameless call has a smaller index, or the least nameless call has the same arguments |
| Composition.StraddleIff | internal/translate/stream_resp2chat.go:221-237 | without nameless calls and with all call fragments before the finish, all arguments arrive if and only if none came before id and name were known, or none after |
| Composition.StraddlingLosesArguments | internal/translate/stream_chat2resp.go:290-310 | two chunks around the arrival of id and name: only the second one's arguments come out |
| Composition.NamelessCallMisdelivers | internal/translate/stream_chat2resp.go:312-367 | one chunk with a named and a nameless call: the nameless call's arguments come out as the named call's if nothing was streamed for that, and nowhere otherwise |
| Composition.NamelessCallIsGlued | internal/translate/stream_chat2resp.go:312-367 | a nameless call closed by a finishing chunk and a call announced after it: the latter arrives with both calls' arguments, one after the other |
| RequestTranslation.ChatToResponses | internal/translate/req_resp2chat.go:446-558 | the message loop produces the items and instructions of the step function |
| RequestTranslation.ResponsesToChat | internal/translate/req_resp2chat.go:32-248 | the item loop, with its pending assistant message and reasoning, produces the messages of the step function, or passes a body without input on |
| RequestShape.PlainSays | internal/cloak/cloak.go:389-405 | a plain input is one user message with that text, a blank one says "...", and no input or the empty text passes the body on |
| RequestShape.BackIs | internal/translate/req_resp2chat.go:60-248 | for every list of items: one message per message item and per result, and one assistant message for all calls between two of those, in order; an assistant message carries the reasoning since earlier reasoning was used up, line by line, with the last encrypted content, and no other message carries any |
| RequestShape.MessageBecomes | internal/translate/req_resp2chat.go:446-556 | one message adds its reasoning unless blank, then one message item with its parts one for one, output parts for the assistant, then only calls; a tool's message one result, a system message and one of another role nothing |
| RequestShape.TrimIs | internal/translate/req_resp2chat.go:534-541 | trimming cuts the white space off both ends and nothing else |
| RequestShape.NamesAre | internal/cloak/cloak.go:307-317 | ids are cut to 64 or made up, names trimmed and cut to 128 |
| RequestShape.InstructionsAreLines | internal/translate/req_resp2chat.go:626-651 | instructions in blocks are their texts that are not empty, one per line |
| RequestShape.OutputIsJoined | internal/cloak/cloak.go:346-372 | a result in blocks is their texts, and the JSON of the others, joined in order |
| RequestRoundTrip.BackSaysTheItems | internal/translate/req_resp2chat.go:90-248 | for items of every kind and role, the instructions come out first and then every text, image, call and result, in order |
| RequestRoundTrip.ForthNormalizes | internal/translate/req_resp2chat.go:446-558 | the items say the conversation's normal form, without briefings and other roles |
| RequestRoundTrip.MintedInOrder | internal/cloak/cloak.go:307-317 | one id is made up for each named call and each result without one, in their order |
| RequestRoundTrip.ForthBriefs | internal/translate/req_resp2chat.go:449-458 | the instructions are the first system or developer text |
| RequestRoundTrip.ForthSent | internal/translate/req_resp2chat.go:460-556 | something is sent if and only if the normal form says something or an assistant message carries reasoning |
| RequestRoundTrip.CutNameStays | internal/translate/req_resp2chat.go:534-541 | a trimmed and cut name is still a name to the way back |
| RequestRoundTrip.RoundTripNormalizes | internal/translate/req_resp2chat.go:90-248 | for every conversation the round trip says the first briefing unless blank, then the normal form of the rest in order (names trimmed and cut to 128, nameless calls, later briefings and other roles dropped, ids cut to 64 or made up, invalid arguments "{}", image detail "auto"), or the placeholder when nothing is left and no reasoning is carried |
| RequestRoundTrip.NormalsIff | internal/cloak/cloak.go:307-341 | the normal form is the original if and only if every element is within those limits |
| RequestRoundTrip.RoundTripIff | internal/translate/req_resp2chat.go:446-558 | the round trip keeps the whole transcript in order if and only if a briefing comes first, once and not blank or not at all, every other element is within those limits, no other role speaks, and there is text, a call, a result or reasoning to send |
| RequestRoundTrip.DroppedMessages | internal/translate/req_resp2chat.go:449-458 | a second system message and one of another role leave no trace |

## Left out

- Health.HealthyIff: histories without a reclaim in between, because `Server.ServedHealthyIff` states the same with reclaims.
- Custom tools, their wrapping and their names, in the stream and request translators.
- JSON parsing and JavaScript coercion: chunks, events, messages and items are typed values; JSON validity and rendering are function parameters.
- Response ids, model names, timestamps and usage in translated chunks.
- Tool declarations, sampling options and the other top-level request fields; content blocks of unknown type.
- Reasoning through both request translators at once: `RequestShape.MessageBecomes` and `RequestShape.BackIs` say where each of them puts it, and the round-trip theorems leave it aside.
- Unicode: strings are byte strings, and trimming removes ASCII white space only.
- Redirect details after a hop is judged: method and body changes, header stripping; the host comparison is the environment's verdict.
- Sockets, TLS, proxy handshakes: a dial is an abstract sequence of phases.
- Runs without a recorder, limiter or health registry; occupancy figures and timings in rows.
- Overflow of the round-robin cursor and of counters.
- Stall timers and cancellation while scanning lines; a callback that returns an error.
- Write errors, usage accounting and the Chat format in the passthrough relay.
- Closing of pruned clients' connections; the client cache is the set of its signatures.
- Route matching, configuration loading and validation: the model starts from a validated snapshot.
- Aggregation of streams into one JSON answer, logging, headers and the other endpoints.
