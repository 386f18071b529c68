# Iulita: verified models

This project models the parts of the assistant whose correctness depends on state, on interleaving or on a
provider that may answer anything, and proves what they keep. Everything the code calls but does not decide
(the model, skill bodies, the database, the encryptor, translated texts) is a parameter: the theorems hold for
every behaviour of it. Check everything with `dafny verify dfyconfig.toml`.

| files | subject |
|---|---|
| Utf8, Unicode, Presentation, Characters | splitting a reply by UTF-16 length, on Go's byte-level reading of text; the decoder as the inverse of the UTF-8 form, and the pieces told in characters |
| Options | the type of a value that may be missing |
| SharedBudget, AgentTools, AgentRunner | sub-agents in parallel against one token counter: a step machine over all interleavings, the tools a sub-agent may run, and the runner's code proved to be runs of the machine |
| Tools, McpEvidence, Ledger, Approvals, TurnLog, TurnSpec, TurnRules, TurnProofs, TurnFollows, Turn, Evidence, Unbacked | one message through the agentic loop: history rules, a specification function, a second account of it by what may follow a history, its invariants, the code, and what an answer proves and does not prove |
| Consent, Session | consent across overlapping messages and chats, as a step machine over the approval store; the code that handles a message, proved to be a run of it |
| Compression | replacing older messages by a summary, in memory and in the store |
| RateLimiter, InjectionQueue | the sliding-window limiter with its in-place compaction; the steer and follow-up queues |
| Settings, ModelLatch, ConfigStore, Credentials | configuration overrides, the one-way latch on model settings as a step machine, the store whose methods are runs of it, secrets resolved through two stores, and their migration |
| SlackCapability | the capability that follows the running Slack instances |
| LegacyRouting | legacy routing against the model policy drafted from it |

Code that updates state is written as methods over classes and arrays, each proved to compute a
specification function; the theorems are about those functions. Code that runs concurrently is a step machine
at the granularity of its locks and atomic operations. A provider name or a hint that the program compares
with literals is a constructor; any other text is `Unknown` or `Custom`.

## Where the code and its own documentation differ

The models follow the code. Each difference comes with the exact condition under which code and documentation
agree, for all inputs, and with an input or a run on which they do not.

- The comment at internal/agent/runner.go:145-149 bounds the overrun of the shared budget by (agents - 1) calls.
  The exact worst case is one token less than one call per agent, so the bound holds for all runs exactly if a
  call costs at most one token or the turn limit bites first (`SharedBudget.DocumentedOverrun`,
  `OverrunIsExceeded`).
- internal/assistant/mcp_grounding.go:130-131 promises that metadata and claimed calls cannot prove an
  invocation. Calls and results are matched by id alone (line 136), and a repeated call is answered from the
  ledger with IsError false even if the remembered attempt failed (internal/assistant/assistant.go:768-776).
  Whatever the provider answers, a final text is backed by a real execution exactly for the three invocations
  and for actions on a connection (`Unbacked.EvidenceIsReal`): for another dispatcher, two calls under one id
  let it borrow the other's success. With distinct ids it is backed exactly for every dispatcher asked for by
  name (`Unbacked.EvidenceIsRealWithDistinctIds`), because dispatchers opt out of the ledger
  (internal/skill/mcp/skill.go:119-120; `Unbacked.TheOptOutIsNeeded`); a general "invocation" or "metadata" is
  met by calling a tool that does not exist twice.
- Line 32 of the repository's README.md promises to summarise old messages. A turn reads the 50 newest rows and
  summarises half of them, but the store deletes every row up to the last one summarised: rows before the 50
  vanish unsummarised (`Compression.ReadingLimitLosesRows`, `FiftyOneRowsLoseOne`).
- The comment at internal/assistant/assistant.go:1331 says steer still has priority in the combined select. A
  follow-up overtakes exactly the steer messages accepted since the steer queue was last seen empty, and no
  message is overtaken twice (`InjectionQueue.FollowUpOvertakes`, `OneFollowUpCanOvertake`,
  `OvertakenAtMostOnce`).
- The comment at internal/credential/store.go:117-119 says that the migration moves only keys that have an
  override and no credential. It also copies values of the base configuration and replaces credentials that
  cannot be read (`Credentials.CommentHolds`, `BaseValueIsCopied`, `UnreadableIsReplaced`). Names under
  `ssh.identity.` are moved to where they can never be read back, so they fall back to the base configuration
  (`Credentials.MigrationRevertsIdentities`, `AnIdentityIsLost`), and a second migration moves them again
  (`Credentials.SecondMigration`, `AnIdentityMovesAgain`).
- The draft of a model policy promises that every custom hint keeps its target (cmd/iulita/models.go:108-109).
  It does unless the target is a Claude without a model (`LegacyRouting.HintsKeepTheirProvider`,
  `AnOrdinaryHintMoves`). A route for the empty hint captures every request without one, with or without a
  hint in its message (`BareRequests`, `ABareRequestMoves`, `MessageHints`, `AMessageHintMoves`), a route hint that
  names a role hides the one in the message (`BothHints`, `AHiddenMessageHintMoves`), a draft does not classify
  (`BareRequests`, `AClassifiedRequestMoves`), "background" turns from an ordinary hint into a role (`BackgroundHint`,
  `TheBackgroundHintMoves`), an unset light provider means Claude Haiku to one side and the default to the other
  (`LightTasks`, `LightTasksMove`), and without Claude image requests have no profile (`VisionTasks`,
  `ImagesAreLost`).

## Model

| member | source | states |
|---|---|---|
| Utf8.DecodeRune | internal/channel/presentation.go:45 | reading one rune takes at least one byte and no more than there are; only four-byte runes lie beyond U+FFFF |
| Unicode.DecodesWhatWasEncoded | internal/channel/presentation.go:45 | every Unicode character reads back from its UTF-8 form as itself, with the length of that form, whatever follows it |
| Unicode.MalformedIsOneByte | internal/channel/presentation.go:45 | a text that starts with no character's UTF-8 form yields U+FFFD and one byte |
| Unicode.Utf16ReadsBack | internal/channel/presentation.go:46-49 | a rune is counted as many units as its UTF-16 form has, and that form reads back (section 2.1 of RFC 2781) |
| Unicode.UnitsAreUtf16 | internal/channel/presentation.go:45-54 | the units counted for a text are the length of its UTF-16 form |
| Unicode.BoundariesAreRunes | internal/channel/presentation.go:45-54 | the offsets at which a text may be cut are exactly the ends of its first characters |
| Utf8.UnitsSplit | internal/channel/presentation.go:45-54 | cutting at a rune boundary neither loses nor creates UTF-16 units (RFC 2781, section 2.1) |
| Utf8.BoundaryShift | internal/channel/presentation.go:45-54 | boundaries of a suffix cut at a boundary are the boundaries of the whole text |
| Presentation.VerbatimChunks | internal/channel/presentation.go:39-57 | lossless, non-empty, on rune boundaries, within the limit, and no other delivery has fewer pieces; nothing below a limit of two |
| Presentation.FilledStaysAhead | internal/channel/presentation.go:45-54 | each greedy cut lies at least as far along as the same cut of any other delivery |
| Presentation.FilledIsOptimal | internal/channel/presentation.go:45-54 | no delivery within the limit has fewer pieces than a filled one |
| Presentation.FilledWastesLittle | internal/channel/presentation.go:45-54 | every piece but the last has at least the limit minus one units |
| Characters.PiecesAreCharacters | internal/channel/presentation.go:36-57 | the pieces of well-formed text are runs of its characters, in order, none empty, each within the limit in UTF-16 |
| Characters.CharactersArePieces | internal/channel/presentation.go:36-57 | conversely, every such split of the characters is a delivery |
| Characters.FewestRuns | internal/channel/presentation.go:36-57 | so greedy pieces are the fewest runs into which the characters can be split |
| SharedBudget.StepInv | internal/agent/runner.go:137-207 | every step of every agent keeps the accounts: counter, reserved calls, permits and calls |
| SharedBudget.SpendBound | internal/agent/runner.go:145-207 | over every interleaving total spend stays within the budget plus one call per agent minus one token, and within the turn limits |
| SharedBudget.WorstCaseAttained | internal/agent/runner.go:145-207 | for every job some complete run spends exactly that much |
| SharedBudget.DocumentedOverrun | internal/agent/runner.go:145-149 | the documented overrun of (agents - 1) calls covers all runs if and only if calls cost at most one token or the turn limit bites first |
| SharedBudget.NoCallOnceSpent | internal/agent/runner.go:150-153 | once the counter is at or below zero it stays there and no model call starts |
| SharedBudget.QuiescentAccounts | internal/agent/orchestrator.go:74-145 | at the end the counter is the budget minus all reported tokens, results carry their own ids, all slots are back, calls fit the limits |
| SharedBudget.AfterDeduct | internal/agent/runner.go:199-227 | the counter left by the subtraction decides: spent, then finished if no tools were asked for, then another turn |
| SharedBudget.AfterCheck | internal/agent/runner.go:137-153 | turn limit, context and counter decide in that order, and a call starts exactly if none of them stops it |
| SharedBudget.ExhaustionIsReported | internal/agent/runner.go:150-207 | at every moment of every run some agent has ended with a spent budget if and only if the budget is spent |
| SharedBudget.SemaphoreNeverBlocks | internal/agent/orchestrator.go:52-92 | specs are clamped first, so acquiring the semaphore never blocks |
| AgentRunner.RunAgent | internal/agent/runner.go:64-244 | under any interference of the others the loop is a run of the shared system and reports exactly its agent's turns, tokens and ending; the ending is that of the counter, context, turn limit or last answer it stopped at; its output comes from the last answer, and each round sent back answers the calls of its turn in order |
| SharedBudget.OverrunIsExceeded | internal/agent/runner.go:145-149 | a job and a run that spend beyond the documented overrun |
| AgentTools.BuildTools | internal/agent/runner.go:247-300 | a sub-agent is offered exactly the enabled skills that a model can call, that need no approval, are not kept to the main conversation, do not delegate, and are on the allowlist if there is one |
| AgentTools.NamesInOrder | internal/agent/runner.go:255-297 | tools are offered in the order of the skills |
| AgentTools.ExecuteTool | internal/agent/runner.go:306-372 | a body runs only for an offered, registered tool; the answer has the call's id and is an error unless the body ran and succeeded |
| AgentTools.ExecuteTools | internal/agent/runner.go:229-232 | every call of a round has its answer, in order |
| AgentTools.ApprovalIsNotBypassed | internal/agent/runner.go:276-281 | whatever name the model calls, a sub-agent runs no tool that needs approval, delegates or is not allowed |
| AgentRunner.CheckHead | internal/agent/runner.go:137-153 | the tests at the loop head in the code's order, as one step of the shared system; exactly when each of them stops the loop |
| AgentRunner.Charge | internal/agent/runner.go:162-227 | reporting and subtracting tokens are two steps between which others may run; the counter they leave decides between a spent budget, a final answer and another turn |
| AgentRunner.Summarise | internal/agent/orchestrator.go:147-155 | counts the successes and sums the tokens |
| AgentRunner.ReportedTotal | internal/agent/orchestrator.go:147-155 | the reported total is what the counter lost and never exceeds the worst case |
| McpEvidence.RequirementMet | internal/assistant/mcp_grounding.go:132-152 | the three nested scans decide whether some result of some call of an exchange meets the requirement |
| McpEvidence.BoundarySilent | internal/assistant/mcp_grounding.go:194-239 | a watched result lets the turn go on if and only if it succeeded and, for an invocation, said something |
| McpEvidence.BoundaryTells | internal/assistant/mcp_grounding.go:198-217 | the text reported for a failed operation, by its code |
| McpEvidence.UnfinishedIsUnconfirmed | internal/assistant/mcp_grounding.go:221-234 | an invocation that did not succeed is reported as waiting for consent or as unconfirmed |
| McpEvidence.PassedBoundaryIsEvidence | internal/assistant/mcp_grounding.go:132-152 | such a result is evidence in every list of exchanges that holds it |
| Ledger.ExplorationLedger.Record | internal/assistant/ledger.go:31-40 | appends the call and its result |
| Ledger.ExplorationLedger.RecordNonCacheable | internal/assistant/ledger.go:45-54 | appends an entry that no later call can match |
| Ledger.ExplorationLedger.IsDuplicate | internal/assistant/ledger.go:59-70 | the scan returns the first matching entry, none for an empty input |
| Ledger.FindAppend | internal/assistant/ledger.go:59-70 | an entry never changes what an earlier one answers |
| Approvals.ApprovalStore.Set | internal/assistant/approvals.go:30-34 | a newer request replaces the chat's older one and touches no other chat |
| Approvals.ApprovalStore.Take | internal/assistant/approvals.go:36-44 | hands a request out at most once |
| TurnLog.AttemptedOnce | internal/assistant/assistant.go:758-777 | a cacheable call with an input is attempted at most once in a turn |
| TurnLog.ReplaysTheAttempt | internal/assistant/assistant.go:768-776 | a replay returns the content of the one earlier attempt; separate operations are never replayed |
| TurnLog.SeparateIsNeverFound | internal/assistant/ledger.go:42-54 | an operation whose repetitions are separate leaves nothing that a later call could find |
| TurnLog.NothingFollows | internal/assistant/assistant.go:814-847 | after a pending, terminal or stopped attempt no model call, tool or replay follows |
| TurnLog.TerminalStandsAlone | internal/assistant/assistant.go:732-745 | a terminal tool is alone in its batch, attempted at most once, and the last step |
| TurnLog.TaintConfines | internal/assistant/assistant.go:873-876 | after remote output only the diagnostics set runs |
| TurnLog.RunsOnlyUngated | internal/assistant/assistant.go:892-911 | in a turn no body runs that needs consent |
| TurnRules.OnlyOneTurn | internal/assistant/assistant.go:562-1042 | the rules for what may follow a history leave at most one turn for every model, every skills and every demand |
| TurnRules.FailsOnlyWhenStuck | internal/assistant/assistant.go:649-660 | by these rules a turn fails for its provider only if the last call failed for another reason than its size, or was too large right after a compression |
| TurnRules.OverflowIsRetried | internal/assistant/assistant.go:649-657 | an overflow that does not come right after a compression is followed by one, and by another call |
| TurnRules.OutcomesReachTheTurn | internal/assistant/assistant.go:873-1042 | attempt number m of a turn reports outcome m: its text or failure text, its failure and its taint if the body ran, the gate's own text if not |
| TurnRules.RemoteOutputConfines | internal/assistant/assistant.go:873-876 | after a body returned remote output only the diagnostics set runs |
| TurnFollows.PlayFollows | internal/assistant/assistant.go:562-871 | the loop is a turn by these rules, and its exchanges are those of its history |
| TurnFollows.TheTurn | internal/assistant/assistant.go:562-871 | a history and an outcome are a turn by the rules if and only if they are those of the loop |
| TurnFollows.BatchFollows | internal/assistant/assistant.go:747-856 | a batch goes on by the rules until it is stored or stops by them |
| TurnFollows.AnOverflowIsRecovered | internal/assistant/assistant.go:649-657 | a first overflow followed by a text ends in that text |
| TurnProofs.AttemptIsLegit | internal/assistant/assistant.go:873-1042 | an attempt is executed, refused or put to the user as its gate prescribes, and reports the text, failure and taint that its body returned |
| TurnProofs.CallOk | internal/assistant/assistant.go:758-847 | one call keeps the history rules, or ends the turn for a reason its last event shows |
| TurnProofs.BatchOk | internal/assistant/assistant.go:758-856 | a batch stores one result per call, in order, under its id, or ends the turn and stores nothing |
| TurnProofs.EveryTurn | internal/assistant/assistant.go:562-871 | for any model and skills: the rules hold, at most 20 main calls and 10 compressions happen, every stored exchange has one result per call in order under its id, a model-written answer met every demand in this turn, a provider failure comes after a retry if the context was too large, every other exit is an error or a fixed text |
| Turn.ExecuteSkill | internal/assistant/assistant.go:873-1042 | the body runs, or consent is asked for, exactly when the four gates say so; what the body returned is what is reported; a request is stored exactly when consent is needed |
| Turn.DoCall | internal/assistant/assistant.go:758-847 | one call computes its specification; the guard against a second terminal attempt is unreachable |
| Turn.RunBatch | internal/assistant/assistant.go:747-856 | a batch computes its specification and keeps ledger and history in step |
| Turn.RejectBatch | internal/assistant/assistant.go:732-745 | a mixed batch is refused as a whole, one error result per call |
| Turn.ConcludeText | internal/assistant/assistant.go:713-730 | an answer without calls is accepted, retried once or refused by the two requirements |
| Turn.Exhaust | internal/assistant/assistant.go:854-871 | the exit after the last iteration |
| Turn.HandleTurn | internal/assistant/assistant.go:562-871 | the loop, with its repeated iteration, terminates and is the one turn the rules allow, with the exchanges of its history; the approval store changes only by a call that ends it waiting for consent |
| Evidence.SuccessRan | internal/assistant/assistant.go:873-1042 | a successful result means the body ran |
| Evidence.RequiredToolRan | internal/assistant/assistant.go:825-827 | a final text after a forced tool: its body ran without error in this turn |
| Evidence.WatchedIsBacked | internal/assistant/mcp_grounding.go:191-239 | with a watched requirement a final text is backed by a real execution |
| Evidence.NotReplayed | internal/skill/mcp/skill.go:119-120 | a result without error of a dispatcher that opts out of the ledger comes from a body that ran |
| Evidence.NamedIsBacked | internal/assistant/mcp_grounding.go:132-152 | with distinct ids every dispatcher a message asked for by name is backed by a real execution |
| Unbacked.FooledByRepetition | internal/assistant/assistant.go:768-776 | a failing call that the ledger may replay, and whose replay meets the requirement, gets the text accepted without any success |
| Unbacked.UnknownToolIsEvidence | internal/assistant/assistant.go:758-777 | with the connections tool available and distinct ids, an unspecified requirement is met by calling a tool that does not exist twice |
| Unbacked.TheOptOutIsNeeded | internal/skill/mcp/skill.go:119-120 | a usable dispatcher that did not opt out would be met by failing twice |
| Unbacked.SharedIdIsEvidence | internal/assistant/mcp_grounding.go:134-141 | two calls under one id let a failed dispatcher borrow the success of another tool |
| Unbacked.EvidenceIsReal | internal/assistant/mcp_grounding.go:47-152 | for any provider and every requirement a message can have, evidence is real in every turn if and only if the requirement is an invocation by name or an action on a connection |
| Unbacked.EvidenceIsRealWithDistinctIds | internal/assistant/mcp_grounding.go:47-152 | with distinct ids it is real if and only if the requirement names a dispatcher |
| Consent.ConcludingAllowed | internal/assistant/assistant.go:229-247 | a message tries the stored call, drops it or runs a turn only where the request it took, the reply and the caller's role say so |
| Consent.EveryRun | internal/assistant/assistant.go:229-247 | however messages overlap, within a chat or across chats, the history obeys the rules, the store holds exactly the open requests, and every message is under way or has come to something |
| Consent.EveryMessageIsServed | internal/assistant/assistant.go:229-247 | once a message is no longer under way it has come to exactly one thing: an affirmative reply to an open request by a caller who may approve has run the stored call, any other definite reply has dropped it, anything else has run its turn |
| Consent.ConsentHasRequest | internal/assistant/approvals.go:30-44 | each approved run matches an earlier request of its chat with the same call, by an affirmative reply that is the first message of the chat after it and from a caller who may approve |
| Consent.ConsentIsSpentOnce | internal/assistant/approvals.go:36-44 | two runs that one request authorises are the same run, however messages overlap |
| Consent.TurnsRunOnlyUngated | internal/assistant/assistant.go:892-911 | inside turns, bodies that need consent never run |
| Consent.OverlappingMessages | internal/assistant/assistant.go:229-247 | all of this over every run from an empty store, with messages still in flight: approved runs have their request, no request is spent twice, no finished message is unserved |
| Session.HandleMessage | internal/assistant/assistant.go:229-247 | an affirmative reply by a caller who may approve runs the stored call, any other definite reply drops it, an unrelated message runs a turn of its own; handling a message is a run of the machine |
| Session.HandleAll | internal/assistant/assistant.go:172-247 | any sequence of messages, one after another, is a run of the machine in which all are served |
| Compression.CompressIfNeeded | internal/assistant/compression.go:23-104 | the exact cases of success and failure; a failure or a blank summary leaves history and rows alone, a success puts heading and summary before the newer half in both, and memory goes on mirroring the rows |
| Compression.TranscriptHolds | internal/assistant/compression.go:49-53 | the model is shown the role and content of every message it is to summarise, in order |
| Compression.FullMeans | internal/assistant/compression.go:29-32 | the threshold: four fifths of the window, less than one token short |
| Compression.ForceCompressRequest | internal/assistant/compression.go:108-120 | whatever happens the request carries all but the newest message |
| Compression.CompressNow | internal/assistant/compression.go:124-145 | the reported count is exactly what happened, although only lengths are compared |
| Compression.Store.ReplaceMessagesWithSummary | internal/storage/sqlite/messages_summary.go:15-31 | the transaction on the rows, or nothing |
| Compression.SplitHasRow | internal/assistant/compression.go:85 | the row number handed to the store is always a real one, and the result is the newer rows behind the summary |
| Compression.ReplacedMirrors | internal/assistant/compression.go:90-96 | replacing the same front in memory and in the rows keeps them alike |
| Compression.ReadingLimitLosesRows | internal/assistant/assistant.go:308-324 | every deleted row was summarised if and only if the read was not cut off by its limit |
| Compression.FiftyOneRowsLoseOne | internal/assistant/assistant.go:31 | with 51 rows and the turn's reading limit one is deleted unsummarised |
| Compression.SqueezeHalves | internal/assistant/compression.go:47-96 | what lies above two messages is halved, rounding up, and the two newest stay |
| Compression.FixedPoint | internal/assistant/compression.go:124-145 | repeated compression ends at the latest summary and the two newest messages after exactly ceil(log2(n - 2)) rounds |
| RateLimiter.Compact | internal/assistant/assistant.go:1431-1437 | filtering a slice into its own array equals filtering the old list |
| RateLimiter.Append | internal/assistant/assistant.go:1442 | appends in place or in a new array |
| RateLimiter.Limiter.Allow | internal/assistant/assistant.go:1425-1444 | decides and remembers as the run so far prescribes, for every user, although slices share arrays with their past |
| RateLimiter.DropsNothingThatCounts | internal/assistant/assistant.go:1431-1437 | what compaction drops can never matter again |
| RateLimiter.NothingExpiredIsRemembered | internal/assistant/assistant.go:1431-1442 | a limited call forgets what has expired, and a granted one is remembered |
| RateLimiter.FullMemory | internal/assistant/assistant.go:1425-1444 | with a clock that does not go back it decides as a limiter that forgets nothing |
| RateLimiter.GrantsAreSpaced | internal/assistant/assistant.go:1425-1444 | a grant and the one `limit` places before are a whole window apart |
| RateLimiter.WindowsHoldTheLimit | internal/assistant/assistant.go:1410-1444 | no half-open window holds more grants than the limit, in any run |
| RateLimiter.ClosedWindowsHoldTwice | internal/assistant/assistant.go:1434 | a window with its end holds at most twice the limit |
| RateLimiter.ClosedWindowsCanHoldTwice | internal/assistant/assistant.go:1434 | for every limit some run has that many |
| RateLimiter.UsersAreIndependent | internal/assistant/assistant.go:1432-1442 | a user's grants do not depend on other users |
| InjectionQueue.StepKeepsInv | internal/assistant/assistant.go:1292-1370 | every step of producers, cancellation and loop keeps queues and rules |
| InjectionQueue.EveryRun | internal/assistant/assistant.go:1292-1370 | in every schedule what was accepted is what was dispatched, in order, followed by what is queued; queues stay within their capacity |
| InjectionQueue.OvertakenAtMostOnce | internal/assistant/assistant.go:1318-1342 | at most one follow-up is dispatched while a given steer message waits |
| InjectionQueue.FollowUpOvertakes | internal/assistant/assistant.go:1318-1341 | a follow-up overtakes exactly the steer messages accepted since the steer queue was last seen empty |
| InjectionQueue.OneFollowUpCanOvertake | internal/assistant/assistant.go:1331-1341 | a run in which one does |
| InjectionQueue.OneFollowUpAfterCancel | internal/assistant/assistant.go:1318-1342 | after cancellation at most one more follow-up is dispatched |
| InjectionQueue.StopLeavesNoSteer | internal/assistant/assistant.go:1353-1370 | when the loop returns no accepted steer message is left, and nothing is dispatched afterwards |
| InjectionQueue.LoopIsNeverStuck | internal/assistant/assistant.go:1318-1370 | the loop has a step to take unless it has returned or waits with nothing queued and nothing cancelled |
| InjectionQueue.LoopServes | internal/assistant/assistant.go:1318-1370 | left alone, whatever it chooses, after a bounded number of steps it has served all steer messages, and the follow-ups too unless it was cancelled |
| Settings.ModelsKeysAlwaysProtected | internal/config/store.go:557-576 | model settings are protected with or without the latch |
| Settings.OverrideWins | internal/config/store.go:117-169 | an override that can be read wins over the base configuration, any other counts for nothing |
| ConfigStore.Store.DoSet | internal/config/store.go:410-465 | a stored value reads back, secrets are encrypted where possible, a failure changes nothing, memory equals the table |
| ConfigStore.Store.Set | internal/config/store.go:395-408 | when a runtime write is accepted, and the order of its refusals; on its own it is a run of the latch machine |
| ConfigStore.Store.SetForImport | internal/config/store.go:382-392 | imports may also write keys that need a restart; a run of the latch machine |
| ConfigStore.Store.Delete | internal/config/store.go:468-488 | afterwards the key reads as the base configuration has it; a run of the latch machine |
| ConfigStore.Store.SetModelPolicyManaged | internal/config/store.go:548-554 | sets the latch and nothing else; a run of the latch machine |
| ModelLatch.StepKeepsInv | internal/config/store.go:382-488 | no writer past its check is ever on a protected key |
| ModelLatch.ProtectedKeysAreFrozen | internal/config/store.go:382-488 | from the moment a key is protected no interleaving changes its row or cache entry |
| ModelLatch.WriterAlone | internal/config/store.go:382-488 | a writer on its own: a protected key or a failed save changes nothing, any other write reaches rows and cache |
| ModelLatch.LatchCloses | internal/config/store.go:546-576 | once the latch has taken effect the keys of the model policy stay as they are |
| ModelLatch.ModelsKeysAreNeverWritten | internal/config/store.go:561-563 | model settings are never written by a legacy writer |
| ModelLatch.TheLockIsNeeded | internal/config/store.go:549-550 | without the exclusive lock a checked writer can write after the latch has returned |
| Credentials.CacheKeysDiffer | internal/credential/store.go:518-523 | two credentials never share a cache entry |
| Credentials.CredentialStore.Set | internal/credential/store.go:178-265 | when a credential is stored and what memory and table then hold |
| Credentials.MigrateFromConfigOverrides | internal/credential/store.go:120-161 | the loop over both stores computes the specified migration, whichever steps fail |
| Credentials.MigrateOne | internal/credential/store.go:122-157 | one key of it |
| Credentials.SealedReadsBack | internal/credential/store.go:567-581 | what was stored is what is read |
| Credentials.Precedence | internal/credential/store.go:527-565 | environment, keyring, credential and configuration in that order, empty values not counting, identities never |
| Credentials.EnvironmentDecides | internal/credential/store.go:538-542 | a secret set in the environment has that value whatever the stores hold |
| Credentials.SecretsComeFirst | internal/config/store.go:178-197 | a secret is read where it resolves before any override, any other key from the configuration alone |
| Credentials.KindsByName | internal/credential/store.go:164-175 | which part of a key decides its kind |
| Credentials.OverrideGoes | internal/credential/store.go:151-155 | an override is removed exactly if it was moved, is not protected and could be deleted |
| Credentials.ProtectedOverridesStay | internal/credential/store.go:120-161 | a migration never removes an override of a protected model setting |
| Credentials.OthersUntouched | internal/credential/store.go:120-161 | a key's migration changes no other key |
| Credentials.MovedResolvesAlike | internal/credential/store.go:527-565 | a moved secret resolves to itself, through environment, keyring, credential and configuration |
| Credentials.MigrationPreservesSecrets | internal/credential/store.go:117-161 | no effective value changes outside `ssh.identity.`, whichever steps fail |
| Credentials.IdentityKeysRevertToBase | internal/credential/store.go:527-530 | exactly when migrating an identity key changes its effective value |
| Credentials.MigrationRevertsIdentities | internal/credential/store.go:120-161 | the same over a whole migration, whichever steps fail |
| Credentials.AnIdentityIsLost | internal/credential/store.go:120-161 | an identity whose only value is an override is gone afterwards |
| Credentials.CommentHolds | internal/credential/store.go:117-119 | exactly when the migration of a key keeps to its comment |
| Credentials.BaseValueIsCopied | internal/credential/store.go:129-133 | a base value becomes a credential |
| Credentials.UnreadableIsReplaced | internal/credential/store.go:123-126 | a credential that cannot be opened is overwritten |
| Credentials.IdleRun | internal/credential/store.go:122-132 | a migration with nothing to move changes nothing |
| Credentials.WantedAfterwards | internal/credential/store.go:122-132 | a secret that was stored is not wanted again |
| Credentials.AnIdentityMovesAgain | internal/credential/store.go:123-132 | an identity in the base configuration is moved by every run |
| Credentials.SecondMigration | internal/credential/store.go:117-161 | after a run that stored all it wanted a second one is idle if and only if no identity key still reads a value |
| SlackCapability.Manager.RecomputeSlackWrite | internal/channelmgr/slack_poster.go:71-88 | the scan with its early exit tells the callback whether some running instance can post; a run of the machine |
| SlackCapability.Manager.SetSlackWriteCapability | internal/channelmgr/slack_poster.go:60-65 | a new callback learns the current state |
| SlackCapability.Manager.StartInstance | internal/channelmgr/manager.go:816-819 | a started instance is counted |
| SlackCapability.Manager.StopInstance | internal/channelmgr/manager.go:446-458 | a stopped instance is not, and for an unknown one nothing changes and nobody is told; a run of the machine |
| SlackCapability.Manager.Exited | internal/channelmgr/manager.go:831-834 | nor is one whose goroutine ended |
| SlackCapability.StepKeepsInv | internal/channelmgr/slack_poster.go:67-88 | either a recompute is still to read the state, or the one under way carries it, or the callback knows it |
| SlackCapability.Converges | internal/channelmgr/slack_poster.go:67-88 | over every interleaving, when no recompute is owed the callback was last told the truth |
| SlackCapability.ChangeAlone | internal/channelmgr/slack_poster.go:60-88 | a change with its recompute, uninterrupted, is a run of the machine |
| SlackCapability.TheLockIsNeeded | internal/channelmgr/slack_poster.go:68-70 | without the lock an older snapshot can be delivered last |
| SlackCapability.RecomputesDrain | internal/channelmgr/slack_poster.go:71-88 | every step of a recompute does some of the work owed |
| SlackCapability.NeverStuck | internal/channelmgr/slack_poster.go:71-88 | until none is left a step is possible |
| LegacyRouting.BuildProviders | cmd/iulita/main.go:681-782 | each provider is there when it is configured and calls the account, model and limit of its configuration; the chain starts at the first of them and goes on to the fallbacks in order, whatever the wrappers |
| LegacyRouting.FillProviders | cmd/iulita/main.go:801-828 | every available provider under its own name |
| LegacyRouting.AddRoutes | cmd/iulita/main.go:829-833 | the last available route of a hint wins |
| LegacyRouting.RoutingBlock | cmd/iulita/main.go:799-870 | light, vision, custom and default requests go where the configuration says |
| LegacyRouting.InactiveRouting | cmd/iulita/main.go:784-799 | skipping the routing block makes no difference to where requests go |
| LegacyRouting.AddReserved | cmd/iulita/main.go:834-857 | the light and vision routes stand over the others |
| LegacyRouting.StartupRouting | cmd/iulita/main.go:678-889 | the whole of startup, with or without query classification, answers every request as specified, by the account, model and limit of the provider's configuration |
| LegacyRouting.DraftProfiles | cmd/iulita/models.go:113-153 | one admissible profile for each provider with a model, each with the connection, the model and the capped limit configured for its name, or none for an unknown DeepSeek model |
| LegacyRouting.DraftHints | cmd/iulita/models.go:178-190 | the hints of the draft and its complex role |
| LegacyRouting.LegacyModelSettings | cmd/iulita/models.go:110-196 | a draft exists exactly when specified, its profiles call what is configured for their names, and its policy resolves every request as specified |
| LegacyRouting.ProfilesCallAlike | cmd/iulita/models.go:113-128 | a profile calls the account startup called under its name; exactly when model and output limit are the same too |
| LegacyRouting.SameNameSameCall | cmd/iulita/models.go:108-109 | a request that keeps its provider's name keeps the account and, unless DeepSeek's model is an old alias, the model that answers it |
| LegacyRouting.LastRouteWins | cmd/iulita/main.go:829-833 | of the routes that serve a hint the last one decides |
| LegacyRouting.UnservedHint | cmd/iulita/main.go:811-828 | a hint no route serves goes where the program sends it itself |
| LegacyRouting.FirstIsPreferred | cmd/iulita/models.go:155-163 | the order of preference among providers |
| LegacyRouting.ConfiguredDefaultWins | cmd/iulita/main.go:861-869 | the configured default comes before that order, if it is available |
| LegacyRouting.HintsKeepTheirProvider | cmd/iulita/models.go:108-109 | every ordinary hint keeps its provider if and only if that is not a Claude without a model |
| LegacyRouting.MessageHints | internal/llm/profiles.go:188-216 | when a hint in the message keeps its provider, for every hint and configuration |
| LegacyRouting.BothHints | internal/llm/profiles.go:188-216 | when a request with a route hint and a hint in its message does |
| LegacyRouting.BareRequests | internal/llm/profiles.go:188-192 | when a request without a hint keeps its provider, whatever a classifier finds it to be |
| LegacyRouting.BackgroundHint | internal/llm/profiles.go:200-201 | when the hint "background" does |
| LegacyRouting.LightTasks | cmd/iulita/main.go:2477-2487 | when light tasks do |
| LegacyRouting.VisionTasks | cmd/iulita/main.go:2492-2499 | when image requests do |
| LegacyRouting.AnOrdinaryHintMoves | cmd/iulita/models.go:114-116 | a configuration whose ordinary hints move |
| LegacyRouting.ABareRequestMoves | cmd/iulita/models.go:183-185 | one whose requests without a hint move |
| LegacyRouting.AMessageHintMoves | internal/llm/router.go:97-110 | one whose hints in messages move |
| LegacyRouting.AHiddenMessageHintMoves | internal/llm/profiles.go:200-202 | one whose hints in messages are hidden by a role hint |
| LegacyRouting.AClassifiedRequestMoves | internal/llm/classifier.go:24-40 | one whose classified requests move |
| LegacyRouting.TheBackgroundHintMoves | cmd/iulita/models.go:165-172 | one whose background hint moves |
| LegacyRouting.LightTasksMove | cmd/iulita/models.go:168-172 | one whose light tasks move |
| LegacyRouting.ImagesAreLost | cmd/iulita/models.go:173-178 | one whose images have no profile |
| LegacyRouting.JobsRunWhereChecked | internal/dashboard/agentjob_handlers.go:185-270 | a job the dashboard accepts runs on the profile it was checked against; of the hints the router would serve it refuses exactly the unknown ones and those whose connection or revision is not ready |

## Left out

- AgentRunner.OtherAgents: stands for the other goroutines; its contract allows any legal steps of theirs, and only the contract is used.
- LegacyRouting.JobsRunWhereChecked: the hints a dashboard accepts before there is a model policy are not modelled.
- Turn.HandleTurn: prompts, streaming, hints, timeouts and status events are not modelled; longer error texts are abbreviated.
- Session.HandleMessage: attachments, locale, the wording that counts as a reply and the text that reports an approved run are not modelled; how a text reads as a reply is a parameter.
- Compression.Store.ReplaceMessagesWithSummary: owners, dates and the full-text index of a row are not modelled; no message is saved between the read and the replacement.
- LegacyRouting.StartupRouting: what a classifier finds a message to be is a parameter, as are the attachments that keep it from being asked.
- ConfigStore.Store.Set: the tables of core and restart-only keys are parameters.
- Credentials.MigrateFromConfigOverrides: both stores are wired to each other, as at startup; audit entries and events are not modelled.
- Integers are unbounded: overflow of 64-bit token counts is not modelled.
- What a required tool or MCP requirement a message has is a parameter; the trigger matching that decides it is not modelled.
- Real time and contexts: a clock that does not go back, and a cancel event.
- The restart of a Slack instance that did not stop in time: `running` is not claimed to match live goroutines.
- Overlapping writes of the same configuration or credential key: the code does not lock across table and cache.
- Cost tracking, tickets, validators, path helpers, HTTP handlers, OAuth, the dashboard and the mobile client: they would only add easy members.
