# NineDeploy: a verified model of its stateful cores

NineDeploy is a self-hosted deployment panel with node agents, CI runners, a
command line and a desktop app. Its promises to operators rest on a few small
stateful cores: a migrator that must survive crashes, an agent that must not run
a request twice, a log that must arrive once and in order. This project models
those cores a module or a few each and proves what they promise, over every input and
every run.

Code that works by changing things step by step is modelled as classes and
methods over mutable fields or as loops with invariants; each method's
postcondition ties the new state to a pure step function, and the theorems are
proved about every sequence of such steps. Pure code is modelled as functions.
The outside world (disk, network, sockets, clocks, the database engine) appears
as parameters: every theorem holds for all of their behaviours, including
failures and crashes, unless a row below says what it assumes.

| module | models | its main theorems |
|---|---|---|
| `Migrator` | the schema migrator | `ApplyMigrationAtomically`, `RunMigrations`, `EveryBootIsSafe` |
| `NonceCache` | the agent's durable replay cache | `NoReplay`, `BusyIsDeserved`, `FreshRequestRuns`, `FileRoundTrip` |
| `Collector` | the agent's bounded output collector | `Output.Answer`, `AnswerIsDetermined` |
| `Workspace` | the symlink walk and the Dockerfile choice | `AssertPathInWorkspace`, `AcceptedStaysLexical`, `SettlesIff` |
| `TerminalChannel` | the node terminal channel and its bridge | `EveryRunIsProper`, `PausedExactlyOnDemand`, `ClosedIff`, `NothingIsWithheld` |
| `LogShipping` | the CI runner's log protocol, runner and panel | `StoredOnceInOrder`, `PostedInOrder`, `CompleteIff` |
| `LogLoss` | what that protocol loses | `ShortOutageLosesNothing`, `SufficeIff`, `LossEndsTheLog` |
| `LineFramer` | the command line's stdin framer | `KthPromptGetsKthLine`, `Framer.HandleData`, `Framer.Put` |
| `HiddenPrompt` | the hidden prompt's key decoder | `CutsAgree`, `BackspaceUndoesCharacter`, `KeepsPromiseIffNoLeak`, `PromptExceedsByLeaks` |
| `Autoscale` | the replica arithmetic | `SettlesInOneStep`, `LeastSufficient`, `Monotone` |
| `TransactionQueue` | the queue of database transactions | `OneAtATime`, `BeginsInTurn`, `NobodyIsBlocked` |
| `TokenRefresh` | the single-flight token refresh | `CallersShareTheFlight`, `SavedNeverResent`, `CanRefreshIffNoAnswerLost` |
| `ShellLine` | the copy-paste `docker run` line | `ShellReadsIntendedArgv`, `EnvironmentIff` |
| `ChangelogLines` | a line of the changelog, and the joining of wrapped ones | `KindIff`, `OnlyMarkersGo`, `SquashIsItsWords` |
| `Changelog` | the changelog parser | `NothingIsLost`, `ItemsAreDetermined`, `ReleaseReadsItsText` |
| `ChangelogTexts` | its taglines and the texts of its items | `ReleaseSaysItsLines` |
| `DemandLogger` | the wake catcher's rate limiter | `AtMostTwentyPerSecond`, `SpacingHoldsIff`, `LineIffDue` |
| `NavigationGuard` | the desktop app's navigation rules | `EveryDecision`, `ReturnEndsSignIn` |
| `JsText`, `Optional` | JavaScript string operations and the optional value the others share | `SplitResumes` |

## Where code and documentation part

- The panel's log endpoint documents that a gap in the chunk numbers is refused
  "so the runner resends in order" (apps/server/src/lib/ci.ts:342-346), but the
  runner takes the refusal as final (apps/server/src/ciRunner.ts:192-195). An
  outage that leaves every chunk one of its 150 tries loses nothing, as the runner
  promises (apps/server/src/ciRunner.ts:187): `LogLoss.ShortOutageLosesNothing`.
  A longer one may lose a chunk, and then the stored log ends there for good although
  the job goes on: `LogLoss.LossEndsTheLog`, `LogLoss.LossHappens`. A bound
  on the tries a run needs guarantees a complete log exactly when it is below 150:
  `LogLoss.SufficeIff`.
- A hidden prompt means to swallow the whole sequence of a function key, `ESC O`
  and a letter included (apps/cli/src/prompts.ts:160-174), but only `ESC O` is
  dropped and the letter is stored; the C1 controls U+0080 to U+009F are stored
  too, and so is the letter of the Linux console's `ESC [ [ A`. At every moment of
  typing the prompt holds what it should exactly when no such key came before
  Enter: `HiddenPrompt.KeepsPromiseIffNoLeak`, with the inputs of
  `HiddenPrompt.FunctionKeyLeaks`, `HiddenPrompt.ConsoleKeyLeaks` and
  `HiddenPrompt.C1Leaks`. At Enter the value has as many characters too many as
  leaks stand: `HiddenPrompt.PromptExceedsByLeaks`. Enter and Ctrl-C are obeyed exactly when the
  keys do not end in a CSI sequence without its final byte, which swallows both:
  `HiddenPrompt.EnterIsObeyedIff`.
- When the input ends while a hidden prompt is open, a line still pending in the
  framer, or an ordinary prompt that still waits, is not served. The framer is
  left as it should be exactly when neither exists: `LineFramer.Framer.EndWhileHidden`,
  `LineFramer.PartialLineIsLost`, `LineFramer.WaiterIsLost`.
- A refresh whose answer is lost after the server rotated the token leaves a spent
  token in the config file. The server refuses it from then on
  (apps/server/src/lib/sessions.ts:82-92), although the session stays valid, so
  that no later refresh succeeds and only a new sign-in helps. With no refresh in
  flight a new token can still be had exactly when that did not happen:
  `TokenRefresh.CanRefreshIffNoAnswerLost`, `TokenRefresh.LostAnswerSticks`,
  `TokenRefresh.LostAnswerHappens`.
- A failed migration names its statement by its number among the statements not
  skipped. That is its number in the migration's file exactly when no statement
  before it met an existing object: `Migrator.NamedNumberIsFileNumberIff`,
  `Migrator.NamedNumberDiffers`.
- The wake catcher's one line per token and second holds for at most 1024 tokens,
  the size of its table, and for no more: `DemandLogger.SpacingHoldsIff`.

The symlink walk alone settles where a path leads exactly when the path never enters
a place off the way to the root or to its goal (`Workspace.SettlesIff`); with a `..`
it may (`Workspace.DotDotEscapes`), which is why every operand passes a validator that
refuses such paths before the walk (apps/server/src/agentOps/operands.ts:12-14).

## Model

| member | source | states |
|---|---|---|
| `Migrator.Client.Migrate` | packages/db/src/migrate.ts:111-117 | the client's batch call: all statements and the journal row or none, the failing statement named, or a failure that only loses the answer of the commit |
| `Migrator.SkipReplay` | packages/db/src/migrate.ts:119-124 | the reference, one statement after the other with existing objects skipped; where it is stuck, the statement and the number skipped before it are within the list |
| `Migrator.BatchMeaning` | packages/db/src/migrate.ts:132-139 | a migration's batch played to its end is its statements in order and one journal row after them, and fails where they fail |
| `Migrator.Commits` | packages/db/src/migrate.ts:138-140 | a call that commits, after any number of retries, leaves exactly the skip-replay and one journal row, and the retries so far are the skipped statements |
| `Migrator.DropsOne` | packages/db/src/migrate.ts:144-149 | a call that meets an existing object leaves the database as it was and settles every statement up to that one |
| `Migrator.Fails` | packages/db/src/migrate.ts:150-156 | a call that fails for good changes nothing or only lost the answer of its commit, and a named statement is the one the skip-replay fails at |
| `Migrator.ApplyMigrationAtomically` | packages/db/src/migrate.ts:127-158 | the loop ends; success is exactly the skip-replay plus one journal row, with one call per skipped statement and one more; a failure changes nothing unless the answer of a commit was lost, and a named statement is the one the skip-replay fails at |
| `Migrator.NamedNumberIsFileNumberIff` | packages/db/src/migrate.ts:144-150 | the statement number in the error is the file's own if and only if playing the statements plainly meets the fault before any existing object |
| `Migrator.NamedNumberDiffers` | packages/db/src/migrate.ts:146-150 | a migration whose second statement fails and is named as the first |
| `Migrator.ApplyToleratingExistingObjects` | packages/db/src/migrate.ts:77-105 | a tolerant boot, finished or failed anywhere, leaves some number of the migrations above the high-water mark fully applied in order, all of them when it returns; with no outside failure it returns exactly when the replay succeeds |
| `Migrator.WholeBatchMeaning` | packages/db/src/migrate.ts:166-176 | the ordinary single batch agrees with the one-by-one replay whenever it does not meet an existing object |
| `Migrator.RunMigrations` | packages/db/src/migrate.ts:170-182 | a boot through both paths leaves what a replay of some number of migrations leaves, all of them when it returns |
| `Migrator.ResumeGoesOn` | packages/db/src/migrate.ts:87-93 | resuming from the newest journalled time is the same as going on where the journalled prefix ends |
| `Migrator.BootKeepsConsistent` | packages/db/src/migrate.ts:77-105 | one boot of any release keeps the journal a prefix of the migration list and the schema the skip-replay of exactly that prefix, and never shortens the journal |
| `Migrator.EveryBootIsSafe` | packages/db/src/migrate.ts:77-105 | the same over any sequence of boots, crashes, errors and release changes; a boot that returned has journalled all the migrations of its release |
| `Migrator.NoneJournalledTwice` | packages/db/src/migrate.ts:87-103 | the journal's times strictly increase, so no migration is in it twice |
| `Migrator.JournalNamesMigrations` | packages/db/src/migrate.ts:132-139 | row i of the journal has the hash and the time of migration i |
| `NonceCache.LineRoundTrip` | apps/server/src/agent.ts:1616-1619 | a written cache line is read back as the same nonce and expiry, and is one line |
| `NonceCache.FileRoundTrip` | apps/server/src/agent.ts:1583-1611 | a rendered cache file is read back as exactly its entries, in order |
| `NonceCache.RenderAppend` | apps/server/src/agent.ts:1616-1619 | appending one line to the file is appending one entry to the cache |
| `NonceCache.Agent.Admit` | apps/server/src/agent.ts:1681-1710 | the nonce check in place: purge, replay and capacity refusals, write ahead or compact, and refuse when the write fails; it is the step whose answers the theorems below give in terms of the requests that came |
| `NonceCache.Agent.LoadSeenNonces` | apps/server/src/agent.ts:1583-1599 | the reload loop with its cap, the rewrite, and the refusal to start |
| `NonceCache.Agent.Purge` | apps/server/src/agent.ts:1687-1688 | walking the map once leaves exactly the unexpired entries, in order |
| `NonceCache.RestoreReadsEntries` | apps/server/src/agent.ts:1587-1593 | reloading the text of a rendered file is restoring its entries one by one |
| `NonceCache.RestoreKeepsLive` | apps/server/src/agent.ts:1587-1593 | as long as the file's live entries came from a map within the bound, the reload cap drops none of them |
| `NonceCache.RequestKeepsSound` | apps/server/src/agent.ts:1681-1710 | after any request with any disk failure the live entries of the file stand in the map; an executed nonce is in the file and was not live before |
| `NonceCache.RestartKeepsSound` | apps/server/src/agent.ts:1583-1611 | a restart with any disk failure keeps that and loses no live entry |
| `NonceCache.EventKeepsSound` | apps/server/src/agent.ts:1681-1710 | one event of a run keeps the write-ahead invariant: whatever ran within the window is in the file |
| `NonceCache.RunIsSound` | apps/server/src/agent.ts:1583-1619 | so does every run from a fresh node |
| `NonceCache.NoReplay` | apps/server/src/agent.ts:1681-1710 | over every run of requests, failed writes, compactions, crashes and restarts with a clock that does not go back, two executions of one nonce are at least twice the allowed skew apart |
| `NonceCache.MapStems` | apps/server/src/agent.ts:1696-1697 | every entry of the map stems from a request for its nonce one window before it expires |
| `NonceCache.RefusalIsDeserved` | apps/server/src/agent.ts:1689-1691 | a request is refused as a replay only if its nonce did arrive less than a window ago |
| `NonceCache.UpAfterGoodStart` | apps/server/src/agent.ts:1581-1599 | an agent serves requests exactly when its last start restored the cache and rewrote it |
| `NonceCache.LiveAreRecent` | apps/server/src/agent.ts:1687-1697 | over every run, the live entries of the map are different nonces of requests less than a window ago |
| `NonceCache.BusyIsDeserved` | apps/server/src/agent.ts:1692-1695 | a request is put off only if at least 20,000 different nonces came within the window |
| `NonceCache.FreshRequestRuns` | apps/server/src/agent.ts:1681-1710 | a well-formed request to an agent that started runs, if its nonce did not come within the window and fewer than 20,000 others did; without a working disk it is refused as unavailable |
| `NonceCache.ReplayIsRefused` | apps/server/src/agent.ts:1689-1691 | a nonce that ran within the window is refused as a replay, across any restarts and failures in between |
| `NonceCache.DownOrMalformed` | apps/server/src/agent.ts:1682-1686 | an agent that did not start answers nothing, and a request without a nonce is refused before anything else |
| `NonceCache.FileStaysSmall` | apps/server/src/agent.ts:1613-1614 | while writes succeed, the file never holds more than the map's bound and one compaction interval |
| `Collector.CutIsUnique` | apps/server/src/agent.ts:1723-1725 | for any stream of lines exactly one number of omitted lines leaves the longest end within the limit, or the last line alone |
| `Collector.Output.Collect` | apps/server/src/agent.ts:1729-1742 | each call adds its line to the stream while the kept lines stay that end and the blanked prefix stays below 65,536 |
| `Collector.Output.DropOldest` | apps/server/src/agent.ts:1732-1736 | one turn of the dropping loop drops one line, and only one that had to go |
| `Collector.Output.Compact` | apps/server/src/agent.ts:1737-1741 | the batch compaction removes exactly the blanked prefix and moves its count |
| `Collector.Output.Answer` | apps/server/src/agent.ts:1766-1768 | the answer is that end of the stream, behind a header with the exact number of omitted lines when there are any |
| `Collector.AnswerIsDetermined` | apps/server/src/agent.ts:1729-1768 | the answer depends on the stream alone, not on when compaction happened, and ends with the last line |
| `Collector.AnswerTellsOmitted` | apps/server/src/agent.ts:1766-1768 | an answer is the whole stream, or its header's digits are the number of lines missing at the stream's front |
| `Collector.DroppedStaysDropped` | apps/server/src/agent.ts:1732-1736 | a line dropped early would have to be dropped later too, so dropping as the output comes in is right |
| `Workspace.NormalizeWithoutDotDot` | apps/server/src/agent.ts:157-158 | resolving a path without `..` is appending its names to the root |
| `Workspace.AssertPathInWorkspace` | apps/server/src/agent.ts:155-176 | the walk accepts a path exactly when it resolves inside the root and no existing prefix of it is a symlink |
| `Workspace.FollowLinkFree` | apps/server/src/agent.ts:145-153 | a path with no link on its lexical way either runs into something missing or reaches the lexical place |
| `Workspace.AcceptedStaysLexical` | apps/server/src/agent.ts:155-176 | over every tree with symlinks, an accepted path without `..` never leaves its plain place under the root, however many links the system would follow |
| `Workspace.SettlesIff` | apps/server/src/agent.ts:155-176 | for every path inside the root: over all trees with symlinks, acceptance settles where the path leads if and only if the path never enters a place off the way to the root or to its goal |
| `Workspace.StrayEscapesWalk` | apps/server/src/agent.ts:162-174 | otherwise a tree in which the walk accepts the path and a link it does not see takes it elsewhere |
| `Workspace.DotDotEscapes` | apps/server/src/agent.ts:155-176 | a tree and a path with `..` that passes the walk and leads out of the workspace |
| `Workspace.NodeDockerfile` | apps/server/src/agent.ts:187-195 | the returned path passed the walk; it is the one under the context exactly when that is valid, exists, and the repo-relative one does not |
| `Workspace.UnderContextResolves` | apps/server/src/agent.ts:191 | the candidate under the context resolves to the Dockerfile's own path, taken from where the context resolves |
| `Workspace.ValidPathGoesDown` | apps/server/src/agentOps/operands.ts:12-14 | a valid operand resolves to names below where it starts |
| `Workspace.UnderContextIsPath` | apps/server/src/agent.ts:191-192 | of two valid operands the candidate under the context is valid too |
| `Workspace.BuiltFileIsInside` | apps/server/src/agent.ts:187-195 | a Dockerfile that passed and exists is the plain file under the workspace |
| `TerminalChannel.StepKeeps` | apps/server/src/agent.ts:1076-1177 | every event in every state keeps the flags and the history of a channel in agreement |
| `TerminalChannel.EveryRunIsProper` | apps/server/src/agent.ts:1076-1177 | over every run of events: attached at most once, killed exactly once when closed and never before, and no output or input before the first frame that authenticated |
| `TerminalChannel.ClosedForGood` | apps/server/src/agent.ts:877-887 | a closed channel stays closed |
| `TerminalChannel.PausedExactlyOnDemand` | apps/server/src/agent.ts:1109-1172 | over every sequence of events: while the channel is open its process is left paused exactly when the panel's last pause or resume frame through the bridge was a pause, or output of the authenticated channel went over the mark and no drain tick ended that; the drain timer runs exactly in the second case |
| `TerminalChannel.ClosedIff` | apps/server/src/agent.ts:1033-1177 | a channel is closed exactly when an event that ends it came in its time: shutdown, the hard cap, a deadline, a failed bridge, a refused, closing or unexpected frame, the end of process or socket |
| `TerminalChannel.NothingIsWithheld` | apps/server/src/agent.ts:1114-1153 | an open channel has sent each output after authentication while its socket was there, and written each data frame, once |
| `TerminalChannel.ExitIsReported` | apps/server/src/agent.ts:1130-1133 | the end of the process is reported exactly to a panel that authenticated and is still connected |
| `TerminalChannel.TimersEndIt` | apps/server/src/agent.ts:1033-1038 | whatever happened before, the pending, authentication and hard-cap deadlines each close the channel |
| `TerminalChannel.Channel.CloseTerminalChannel` | apps/server/src/agent.ts:877-887 | closing is idempotent, stops the timers and kills the process |
| `TerminalChannel.Channel.Connect` | apps/server/src/agent.ts:1820-1832 | a socket is accepted exactly when the channel is pending, which uses it up |
| `TerminalChannel.Channel.OnMessage` | apps/server/src/agent.ts:1136-1150 | a frame is refused, or authenticates the channel if it is the first that opens, and is then obeyed |
| `TerminalChannel.Channel.Obey` | apps/server/src/agent.ts:1151-1173 | what each kind of frame does; `PausedExactlyOnDemand`, `ClosedIff` and `NothingIsWithheld` say it over the frames of a run |
| `TerminalChannel.Channel.ApplyPause` | apps/server/src/agent.ts:1109-1112 | pause or resume as the two flags say |
| `TerminalChannel.Channel.OnOutput` | apps/server/src/agent.ts:1114-1129 | output is sent and may start back-pressure |
| `TerminalChannel.Channel.OnDrainTick` | apps/server/src/agent.ts:1120-1126 | the interval ends back-pressure once the socket drained or closed |
| `TerminalChannel.Channel.OnEnd` | apps/server/src/agent.ts:1130-1133 | the end of the process sends the exit frame and shuts the channel |
| `TerminalChannel.Channel.BridgeTerminalChannel` | apps/server/src/agent.ts:1103-1107 | the bridge starts with its authentication deadline |
| `TerminalChannel.Channel.OnAuthTimeout` | apps/server/src/agent.ts:1103-1105 | the deadline shuts a channel nobody authenticated |
| `LogShipping.StepKeeps` | apps/server/src/ciRunner.ts:180-215 | every step of runner, network and panel, with any number of handlers between their read and their write, keeps the protocol's invariant |
| `LogShipping.StoredOnceInOrder` | apps/server/src/lib/ci.ts:347-366 | under any loss, delay and repetition the stored log is the text of the first chunks, each once and in order: all of it up to 8,388,608 characters, and of a longer one that many and the notice of the cut, which is missing exactly when some chunk ended right at the limit |
| `LogShipping.DeliveredIsAnswered` | apps/server/src/lib/ci.ts:347-350 | a chunk that reaches a running attempt under its lease is acknowledged if it is stored already, and refused as a conflict beyond the next one |
| `LogShipping.NextIsStored` | apps/server/src/lib/ci.ts:351-366 | the next one is stored and acknowledged, if its handler gets to its end |
| `LogShipping.DeliveredWithoutLease` | apps/server/src/lib/ci.ts:313-320 | without the lease it is refused as unauthorized and changes nothing |
| `LogShipping.SupersededIsSilent` | apps/server/src/ciRunner.ts:188-196 | and a runner that was told so posts nothing more |
| `LogShipping.RunnerGoesOn` | apps/server/src/ciRunner.ts:187-202 | with a chunk to ship the runner posts it again until 150 posts or being superseded, and then moves on; it is never stuck |
| `LogShipping.AnswerEndsAttempts` | apps/server/src/ciRunner.ts:190-200 | an answer ends a chunk's attempts unless it is a failure that may pass |
| `LogShipping.WrittenIsShipped` | apps/server/src/ciRunner.ts:203-215 | a write ships exactly when the pending text reaches 64 KiB, and a flush or the end ships everything written |
| `LogShipping.PostedInOrder` | apps/server/src/ciRunner.ts:184-202 | chunk n + 1 is never posted before the attempts of chunk n ended, chunk numbers are posted in order, and none more than 150 times |
| `LogShipping.AcknowledgedIsStored` | packages/schemas/src/ci.ts:131-137 | an acknowledged chunk is stored with all before it; if the last one of a finished run is, the stored log is everything written |
| `LogShipping.CompleteIff` | apps/server/src/ciRunner.ts:287-290 | the log of a finished run within the size limit is complete exactly when its last chunk was stored |
| `LogLoss.ShortOutageLosesNothing` | apps/server/src/ciRunner.ts:187-202 | while attempt and lease go on, every chunk whose attempts have ended is stored if neither it nor a chunk before it needed all of its 150 tries, under any loss, delay and repetition |
| `LogLoss.LossNeedsAllTries` | apps/server/src/ciRunner.ts:187-202 | a chunk lost while attempt and lease go on means that all 150 tries of it or of a chunk before it were used |
| `LogLoss.SufficeIff` | apps/server/src/ciRunner.ts:187-202 | for runs under their lease whose attempts have ended, needing at most n posts of any chunk guarantees a complete log if and only if n is below 150 |
| `LogLoss.StoredChunkMayConflict` | apps/server/src/lib/ci.ts:355-359 | two handlers that read the row together: one stores the chunk, the other answers with a conflict |
| `LogLoss.CompleteIffNothingLost` | apps/server/src/lib/ci.ts:347-366 | once nothing is under way, the log is everything written exactly when no chunk was lost at any moment, so that nothing is made up for later |
| `LogLoss.LostStaysLost` | apps/server/src/ciRunner.ts:188-200 | a chunk whose attempts ended unstored is never stored later |
| `LogLoss.LossEndsTheLog` | apps/server/src/lib/ci.ts:342-350 | and then no later chunk is either, because the gap is refused and the refusal is final |
| `LogLoss.LossHappens` | apps/server/src/ciRunner.ts:187-200 | a run to its end in which an outage of 150 tries loses the first chunk while attempt and lease go on |
| `LogShipping.Shipper.Write` | apps/server/src/ciRunner.ts:203-209 | writing is the buffer step of the protocol: nothing is lost or reordered between the pending text and the chunks, and less than a chunk stays pending |
| `LogShipping.Shipper.Ship` | apps/server/src/ciRunner.ts:184-186 | the pending text becomes the protocol's next chunk |
| `LogShipping.Shipper.Flush` | apps/server/src/ciRunner.ts:210-215 | flushing is the protocol's, after which the chunks together are everything written |
| `LineFramer.KthPromptGetsKthLine` | apps/cli/src/prompts.ts:53-58 | whatever the cuts, the k-th prompt has the k-th line of the stream split on CR?LF; past the last line it has its default after the end and waits before it, which only an ordinary prompt does; while one waits no line is queued |
| `LineFramer.PlainGetsText` | apps/cli/src/prompts.ts:115-117 | white space around a text resolves to the text, and alone to the default |
| `LineFramer.ResolvedIff` | apps/cli/src/prompts.ts:115-144 | a hidden prompt gets the line itself; an ordinary one its default for a line of white space and else the part between the white space at its ends |
| `LineFramer.Receive` | apps/cli/src/prompts.ts:35-41 | splitting the kept tail with the new chunk continues the splitting of the whole stream, wherever it was cut |
| `LineFramer.Close` | apps/cli/src/prompts.ts:43-51 | at the end an unfinished line counts and nobody waits any longer |
| `LineFramer.AskOne` | apps/cli/src/prompts.ts:111-149 | a new prompt is answered at once from the queue or after the end, and an ordinary one waits otherwise |
| `LineFramer.FlushServes` | apps/cli/src/prompts.ts:53-58 | flushing serves prompts in order until lines or prompts run out |
| `LineFramer.AnswersOnlyGrow` | apps/cli/src/prompts.ts:35-58 | more text, more prompts or the end only add answers |
| `LineFramer.Framer.HandleData` | apps/cli/src/prompts.ts:35-41 | keeps the framer at what the whole stream and the prompts so far determine: the k-th prompt has the k-th line |
| `LineFramer.Framer.HandleEnd` | apps/cli/src/prompts.ts:43-51 | the same at the end of input, where every further prompt gets its default |
| `LineFramer.Framer.FlushLineWaiters` | apps/cli/src/prompts.ts:53-58 | the waiter loop is the flush of the specification |
| `LineFramer.Framer.Put` | apps/cli/src/prompts.ts:111-149 | an ordinary prompt, or a hidden one that finds a queued line or the end of the stream, keeps the framer there; no hidden prompt ever waits for a line |
| `LineFramer.Framer.EndWhileHidden` | apps/cli/src/prompts.ts:219-234 | the end of input under a hidden prompt leaves the framer right exactly when no partial line is pending and no prompt waits |
| `LineFramer.PartialLineIsLost` | apps/cli/src/prompts.ts:219-234 | for every last line without its newline: when it ends under a hidden prompt it is held back, and the framer is not what the stream determines |
| `LineFramer.WaiterIsLost` | apps/cli/src/prompts.ts:219-234 | an ordinary prompt that waits at that moment is left waiting |
| `HiddenPrompt.DecodeResumes` | apps/cli/src/prompts.ts:160-166 | decoding goes on across a cut, inside an escape sequence too, as if there were none |
| `HiddenPrompt.DecoderReadsKeys` | apps/cli/src/prompts.ts:166-217 | the character-by-character decoder agrees with a reference that reads whole keys by looking ahead and keeps the last byte of every function key and every C1 control, and no other part of a key |
| `HiddenPrompt.ValueIsClean` | apps/cli/src/prompts.ts:207-216 | no control character below space and no DEL is in a value; C1 controls are not excluded |
| `HiddenPrompt.ReferenceHoldsNoControl` | apps/cli/src/prompts.ts:160-174 | what whole keys mean holds no control character at all |
| `HiddenPrompt.KeepsPromiseIffNoLeak` | apps/cli/src/prompts.ts:160-217 | for every input, the decoder stands where whole keys would at every moment of typing if and only if no `ESC O` or `ESC [ [` key with its byte and no C1 control is pressed before Enter |
| `HiddenPrompt.AgreesIffNoSurplus` | apps/cli/src/prompts.ts:166-217 | at the end of any input the two agree exactly when no leaked character stands, counting those that backspaces removed once nothing else was left |
| `HiddenPrompt.FunctionKeyLeaks` | apps/cli/src/prompts.ts:169-178 | `ESC O P` and Enter resolve `P` where nothing was typed |
| `HiddenPrompt.C1Leaks` | apps/cli/src/prompts.ts:213-216 | U+009B and Enter resolve U+009B |
| `HiddenPrompt.ConsoleKeyLeaks` | apps/cli/src/prompts.ts:180-184 | `ESC [ [ A` and Enter resolve `A` |
| `HiddenPrompt.InCsiIffOpen` | apps/cli/src/prompts.ts:176-184 | the decoder is inside a CSI sequence exactly when the keys so far end in one without its final byte |
| `HiddenPrompt.EnterIsObeyedIff` | apps/cli/src/prompts.ts:180-206 | while a prompt is open, Enter resolves it and Ctrl-C ends the process unless the keys so far end in such a sequence, which then swallows both |
| `HiddenPrompt.LeakMayBeErased` | apps/cli/src/prompts.ts:207-216 | a leak that a backspace removed from an otherwise empty value is not in the value at Enter |
| `HiddenPrompt.OneMoreChunk` | apps/cli/src/prompts.ts:88-95 | one more chunk takes the listener to what the longer input determines |
| `HiddenPrompt.ChunksDoNotMatter` | apps/cli/src/prompts.ts:166-218 | value, handed-on text and carried line-feed flag depend on the input alone |
| `HiddenPrompt.CutsAgree` | apps/cli/src/prompts.ts:166-218 | two ways of cutting one input into non-empty chunks give the same values and the same text for the framer, between CR and LF too |
| `HiddenPrompt.NextPromptSkipsLf` | apps/cli/src/prompts.ts:199-200 | a prompt ended by a carriage return alone leaves the next one a line feed to skip |
| `HiddenPrompt.PromptReadsKeys` | apps/cli/src/prompts.ts:88-218 | what any prompt resolves, a following one too, is what the decoder's keys make of its input, in whatever chunks they come; what a character and a backspace do to the value is `CharacterIsAppended` and `BackspaceUndoesCharacter` |
| `HiddenPrompt.TypedGoesOn` | apps/cli/src/prompts.ts:160-168 | what was typed goes on from where the decoder stands |
| `HiddenPrompt.CharacterIsAppended` | apps/cli/src/prompts.ts:213-216 | between keys, a character goes to the end of the value |
| `HiddenPrompt.BackspaceUndoesCharacter` | apps/cli/src/prompts.ts:207-212 | after any typing, a character and either backspace leave everything as if neither had been typed |
| `HiddenPrompt.BackspaceInEmptyValue` | apps/cli/src/prompts.ts:207-212 | in an empty value a backspace does nothing |
| `HiddenPrompt.PlainTextIsValue` | apps/cli/src/prompts.ts:187-216 | plain text and Enter resolve that text, and what is behind Enter is kept |
| `HiddenPrompt.LineBreakIsOneEnter` | apps/cli/src/prompts.ts:188-200 | LF, CR and CRLF are each one Enter, CRLF also when cut between two chunks, and exactly what follows goes to the framer |
| `HiddenPrompt.PromptExceedsByLeaks` | apps/cli/src/prompts.ts:160-218 | against whole keys, the resolved value is longer by exactly the leaks that stand at Enter, and is theirs, free of control characters, exactly when none does |
| `HiddenPrompt.Listener.OnData` | apps/cli/src/prompts.ts:88-95 | a chunk goes to the hidden prompt or to the framer, never both |
| `HiddenPrompt.Listener.HiddenWaiter` | apps/cli/src/prompts.ts:166-218 | the keystroke loop over one chunk |
| `HiddenPrompt.Feed` | apps/cli/src/prompts.ts:88-95 | the wired handler over a whole stream: what the listener hands on goes to the framer, which ends up framing that one text |
| `HiddenPrompt.CutsFrameAlike` | apps/cli/src/prompts.ts:88-95 | two ways of cutting keys and the paste behind them leave the framer's prompts with the same lines |
| `Autoscale.SettlesInOneStep` | packages/schemas/src/autoscale.ts:93-98 | with the load held constant the first answer, from any count, is within the bounds and is the last |
| `Autoscale.LeastSufficient` | packages/schemas/src/autoscale.ts:89-98 | outside the tolerance it is the least count within the bounds that brings each container to the target, or the maximum |
| `Autoscale.BandHolds` | packages/schemas/src/autoscale.ts:25-26 | inside the tolerance nothing changes, within the bounds |
| `Autoscale.NeverFarOver` | packages/schemas/src/autoscale.ts:89-98 | after a step no container is more than a tenth over the target, unless the maximum runs |
| `Autoscale.Monotone` | packages/schemas/src/autoscale.ts:93-98 | a higher value never asks for fewer containers |
| `TransactionQueue.StepKeeps` | packages/db/src/client.ts:92-98 | every call, microtask and settling keeps the queue's invariant |
| `TransactionQueue.CallIsQueued` | packages/db/src/client.ts:94-98 | a call adds one run, unsettled and not begun, and touches nothing else |
| `TransactionQueue.BeginsInTurn` | packages/db/src/client.ts:94-97 | once all calls before it have settled, a call has begun or begins within two steps |
| `TransactionQueue.EndsWithItsOutcome` | packages/db/src/client.ts:95-97 | a begun call settles with whatever its own transaction comes to |
| `TransactionQueue.OneAtATime` | packages/db/src/client.ts:87-98 | the connection sees begin 0, end 0, begin 1, end 1 and so on, in call order, each end with its own caller's outcome |
| `TransactionQueue.AtMostOneActive` | packages/db/src/client.ts:87-98 | at most one transaction is between begin and settle |
| `TransactionQueue.NobodyIsBlocked` | packages/db/src/client.ts:94-98 | after any commits and rejections the first unsettled call always has an enabled next step |
| `TransactionQueue.SettledInCallOrder` | packages/db/src/client.ts:94-98 | no call is skipped: one settles only after all before it |
| `TransactionQueue.OutcomesStand` | packages/db/src/client.ts:94-98 | an outcome never changes |
| `TransactionQueue.Database.Transaction` | packages/db/src/client.ts:94-98 | the replaced method chains behind the current tail and replaces it |
| `TokenRefresh.RunKeeps` | apps/cli/src/client.ts:39-70 | every interleaving of callers, server and answers keeps the token bookkeeping; the server rotates its newest token and refuses any other without a write |
| `TokenRefresh.OneRefreshShared` | apps/cli/src/client.ts:58-70 | at most one refresh is outstanding, and callers that joined the same one get the same result |
| `TokenRefresh.CallersJoin` | apps/cli/src/client.ts:63-70 | every caller that meets a 401 waits for the open flight, or for a new one with the saved token if none is open; while signed in nobody is turned away |
| `TokenRefresh.CallersShareTheFlight` | apps/cli/src/client.ts:63-81 | at any later time a caller still waits for the flight it joined, or has that flight's result and the token saved when it went on, after a success a newer one than was sent |
| `TokenRefresh.FlightsEnd` | apps/cli/src/client.ts:66-70 | a flight in progress can end, and then every caller of it can go on |
| `TokenRefresh.SavedNeverResent` | apps/cli/src/client.ts:39-70 | a token whose exchange was saved is never sent again, by callers between the save and the reset neither |
| `TokenRefresh.SpentIsSentIffAnswerLost` | apps/cli/src/client.ts:39-56 | the config holds a spent token exactly when the answer to its exchange was lost |
| `TokenRefresh.LostAnswerSticks` | apps/cli/src/client.ts:39-56 | once that holds with no refresh in flight, no later refresh succeeds and the config never changes, in any continuation |
| `TokenRefresh.NextRefreshSucceeds` | apps/cli/src/client.ts:39-56 | otherwise the next refresh can succeed and be saved |
| `TokenRefresh.CanRefreshIffNoAnswerLost` | apps/cli/src/client.ts:39-70 | with no refresh in flight, a new token can still be had if and only if no answer to the saved token's exchange was lost |
| `TokenRefresh.LostAnswerHappens` | apps/cli/src/client.ts:52-55 | a run in which the answer is lost while the session stays valid |
| `TokenRefresh.Session.RefreshAccessToken` | apps/cli/src/client.ts:63-70 | joins the flight there is, sends the saved token when there is none, and does nothing without a token |
| `ShellLine.EscapedIsRead` | packages/schemas/src/agentCommand.ts:47-49 | inside double quotes the escaped text is read as the text itself, whatever it holds |
| `ShellLine.ValueIsRead` | packages/schemas/src/agentCommand.ts:43-49 | a printed value, bare or quoted, is read as the value |
| `ShellLine.EntryReadsAsItself` | packages/schemas/src/agentCommand.ts:67-70 | a printed environment entry is one word, `NAME=value` verbatim |
| `ShellLine.JoinedIsRead` | packages/schemas/src/agentCommand.ts:60-73 | words joined by blanks are read as those words |
| `ShellLine.ShellReadsIntendedArgv` | packages/schemas/src/agentCommand.ts:51-74 | for all environment values, and a tag and bind address without shell characters, token recognition and quote removal give back exactly the arguments meant, as one command with no expansion |
| `ShellLine.ArgvCarriesOptions` | packages/schemas/src/agentCommand.ts:60-73 | which of the arguments carry the options: the published port behind `-p`, each environment entry behind its own `-e`, the tag behind the image's name |
| `ShellLine.PublishedMeans` | packages/schemas/src/agentCommand.ts:63 | the published port is the address, if one is given, then the host's port, then the container's |
| `ShellLine.EnvironmentIff` | packages/schemas/src/agentCommand.ts:52-59 | an entry `NAME=value` is in the environment exactly when the options ask for that name with that value |
| `ShellLine.PrintAgentDockerRun` | packages/schemas/src/agentCommand.ts:51-74 | the printer, pushing the entries one by one, prints such a line |
| `ChangelogLines.SquashKeepsInk` | old_website/src/changelog.ts:27-37 | joining wrapped lines keeps every character that is not white space, in order, and leaves no stray white space |
| `ChangelogLines.SquashKeepsWords` | old_website/src/changelog.ts:27-37 | the words of joined lines stay apart, but for a word split at a hyphen before a lower-case letter, which closes up |
| `ChangelogLines.SquashIsItsWords` | old_website/src/changelog.ts:29-37 | the joined text is exactly those words with one blank between any two |
| `ChangelogLines.Squash` | old_website/src/changelog.ts:29-37 | the joining loop |
| `ChangelogLines.ReleaseHeadingIsRead` | old_website/src/changelog.ts:25 | a release heading, its version in brackets and its date behind a dash, gives back both, with any white space around the dash and anything behind the date |
| `ChangelogLines.UndatedHeadingIsRead` | old_website/src/changelog.ts:25 | without a dash, or without a word behind it, the date is empty |
| `ChangelogLines.VersionIff` | old_website/src/changelog.ts:70-83 | a line is a release heading exactly when it is `## [`, a version without a closing bracket, and `]` |
| `ChangelogLines.MarkersAreRead` | old_website/src/changelog.ts:85-116 | for every text: behind `- ` or `* ` it is a bullet, behind `### ` a heading, behind `>` a quote, and white space is a blank line, behind `---` a rule |
| `ChangelogLines.KindIff` | old_website/src/changelog.ts:85-120 | conversely, what each kind says about the line itself: a blank line shows nothing, a rule nothing but `---`, a heading `###` and its title, a text no marker at all |
| `ChangelogLines.OnlyMarkersGo` | old_website/src/changelog.ts:85-120 | what the page takes from any line is what the line visibly shows: its ink without the marker at its front |
| `Changelog.LineTracks` | old_website/src/changelog.ts:70-121 | every line keeps the parser in step with the outline of the lines so far; only the open item or quote stands between them |
| `Changelog.ReleaseFlushed` | old_website/src/changelog.ts:49-58 | a flush puts the open item at the end of the last group and touches nothing else |
| `Changelog.QuoteStaysOpen` | old_website/src/changelog.ts:60-68 | a closed quote becomes the tagline or goes to the open item, in its place |
| `Changelog.NothingIsLost` | old_website/src/changelog.ts:39-122 | in every document each release holds, under each heading, exactly the ink (the characters that are not white space) of its lines in document order; an item begins at a bullet, behind a rule, at a quote and at a line after a blank one that no bullet takes in by its indentation, or first in its group or behind the tagline, and nowhere else |
| `Changelog.ItemsAreDetermined` | old_website/src/changelog.ts:39-122 | the ink of a group and these places leave no choice: how many items there are and what each shows |
| `Changelog.ReadsInDocumentOrder` | old_website/src/changelog.ts:39-122 | tagline and items together show the ink of the release's lines in document order |
| `Changelog.SectionsAreLines` | old_website/src/changelog.ts:70-83 | the outline's sections are the lines between one version heading and the next |
| `Changelog.ReleaseReadsItsLines` | old_website/src/changelog.ts:39-122 | in every document the tagline and the items of each release, in order, show exactly the ink of the lines between its version heading and the next one |
| `Changelog.ReleaseReadsItsText` | old_website/src/changelog.ts:39-122 | in every text each release shows exactly what its raw lines visibly show between its heading and the next line that heads a release, and has that heading's version and date |
| `ChangelogTexts.ReleaseSaysItsLines` | old_website/src/changelog.ts:39-122 | in every release the tagline is the words of the quote that comes before anything else its section shows, and empty if none does, and each item is the words of whole consecutive lines of the section |
| `ChangelogTexts.EveryReleaseIsAt` | old_website/src/changelog.ts:70-83 | which is about every release of the document |
| `ChangelogTexts.AllAreSaid` | old_website/src/changelog.ts:70-122 | what a line keeps of the release being read, and its closing gives it, holds of every release of a document |
| `Changelog.DroppedIffOnlyTagline` | old_website/src/changelog.ts:123-124 | a release has no item exactly when its lines show nothing but a tagline |
| `Changelog.ParseChangelog` | old_website/src/changelog.ts:39-125 | the page's releases are exactly those of the document with an item, once each and in its order; each shows what its raw lines visibly show and is laid out as its outline says |
| `Changelog.Parser.Flush` | old_website/src/changelog.ts:49-58 | the closure that ends an item |
| `Changelog.Parser.CloseQuote` | old_website/src/changelog.ts:60-68 | the closure that ends a quote |
| `Changelog.Parser.ReadLine` | old_website/src/changelog.ts:70-99 | one turn of the line loop |
| `Changelog.Parser.ReadContent` | old_website/src/changelog.ts:101-120 | its second half: headings, rules, bullets and text |
| `DemandLogger.Logger.Demand` | apps/server/src/wakeCatcher.ts:54-62 | one request: the two limits, the eviction of the oldest key, the line |
| `DemandLogger.PutThenGet` | apps/server/src/wakeCatcher.ts:51-60 | setting a key changes that key alone and grows the table only for a new one |
| `DemandLogger.AtMostTwentyPerSecond` | apps/server/src/wakeCatcher.ts:56-58 | with a clock that does not go back, no second of the clock has more than 20 lines |
| `DemandLogger.AtMostFortyInAnyWindow` | apps/server/src/wakeCatcher.ts:56-58 | hence no window of a second has more than 40 |
| `DemandLogger.TableIsBounded` | apps/server/src/wakeCatcher.ts:59-60 | the table never holds more than 1024 tokens |
| `DemandLogger.TableIsTrue` | apps/server/src/wakeCatcher.ts:59-60 | an entry is always the last line of its token |
| `DemandLogger.TableRemembersAll` | apps/server/src/wakeCatcher.ts:59-60 | up to 1024 tokens the table knows the last line of each |
| `DemandLogger.SpacedWhileRemembered` | apps/server/src/wakeCatcher.ts:55 | and the lines of each are a second apart |
| `DemandLogger.SpacingHoldsIff` | apps/server/src/wakeCatcher.ts:49-60 | that promise holds for n tokens exactly when n is at most 1024 |
| `DemandLogger.DenialIsDeserved` | apps/server/src/wakeCatcher.ts:55-57 | a request gets no line only for a line of its token less than a second before, or for 20 lines in its second |
| `DemandLogger.LineIffDue` | apps/server/src/wakeCatcher.ts:54-61 | up to 1024 tokens, a request gets a line exactly when neither is the case |
| `NavigationGuard.Guard.Decide` | desktop/src/policy.ts:54-64 | one decision and what it does to the time limit |
| `NavigationGuard.Guard.Arrived` | desktop/src/policy.ts:66-70 | an arrival on an ordinary panel page ends the sign-in |
| `NavigationGuard.LimitMeansSignIn` | desktop/src/policy.ts:72-74 | a limit in the future means a sign-in navigation less than ten minutes ago with no ordinary panel page since |
| `NavigationGuard.SignInMeansLimit` | desktop/src/policy.ts:57-58 | conversely, with a clock that does not go back |
| `NavigationGuard.ForeignNeedsSignIn` | desktop/src/policy.ts:31-39 | whatever the clock does, a foreign page is shown only over https, not by a panel page's own navigation, and within such a sign-in |
| `NavigationGuard.ForeignAllowedIff` | desktop/src/policy.ts:54-64 | with a clock that does not go back, exactly then |
| `NavigationGuard.EveryDecision` | desktop/src/policy.ts:54-64 | every decision: what does not parse is blocked, a page of the panel shown, a foreign one shown during a sign-in, and of the rest web addresses without credentials go to the browser and all else nowhere |
| `NavigationGuard.AbandonedSignInEnds` | desktop/src/policy.ts:11-12 | without a panel sign-in in the last ten minutes no foreign page is shown, whatever the provider's pages did |
| `NavigationGuard.ReturnEndsSignIn` | desktop/src/policy.ts:66-70 | after coming back to the panel the next foreign page needs a new sign-in |
| `JsText.SplitResumes` | apps/cli/src/prompts.ts:36-38 | splitting on CR?LF can be resumed from the unfinished last piece |
| `JsText.SplitOffLine` | apps/cli/src/prompts.ts:36-38 | a line ended by a line feed, with no carriage return before it, is split off whole |
| `JsText.SplitOffCrLf` | apps/cli/src/prompts.ts:36-38 | so is one ended by both, and a carriage return elsewhere stays in its line |

## Left out

- Text: characters beyond the basic plane count as one; `Number()` is modelled for decimal digits only, and the error text of a failed migration for its statement number and text.
- `Migrator.ApplyMigrationAtomically`: the matching of "already exists" in an error's text is the engine's classification of a statement, and transactions, foreign keys and the client's internals are its all-or-nothing batch.
- `Migrator.RunMigrations`: journal times are positive, as a migration folder's are; finding the folder and reading its files is not modelled.
- `NonceCache.NoReplay`: a write or a rename is atomic, so a line is written whole or not at all; opening a sealed request, its time stamp check and the panel's answers are not modelled; plaintext requests carry no nonce.
- `NonceCache.Agent.Admit`: the map is a list of entries in insertion order; an agent configured without a nonce file is not modelled.
- `Collector.Output.Collect`: lines are strings measured in characters, as the code measures them.
- `Workspace.AssertPathInWorkspace`: the file-system root and a root reached through links are not roots here, and errors other than a missing component do not come up in a tree; what changes between the walk and the build is not modelled.
- `Workspace.DotDotEscapes`: shows the walk alone; the operand validator refuses the path before it.
- `TerminalChannel.EveryRunIsProper`: frames open or are refused, without the cipher; the limit of open terminals, the helper sweep and the sizes of terminals are not modelled; the end of a process is not reported while its watcher is being registered.
- `TerminalChannel.Channel.BridgeTerminalChannel`: the asynchronous loading of the cipher is the step between attaching and this one.
- `LogShipping.StoredOnceInOrder`: one byte per character, so a cut never falls inside one; the two-second pauses, heartbeats and the stopping of the container are left out, and files and rows of the panel change together.
- `LogShipping.Shipper.Flush`: the timer is this call at any time.
- `LineFramer.Framer.Put`: an attached stream stays attached; the printing of prompts is left out.
- `LineFramer.Framer.EndWhileHidden`: the value resolved is the hidden prompt's own and is in `HiddenPrompt`.
- `HiddenPrompt.ChunksDoNotMatter`: starts with no partial line pending in the framer; with one, the text handed on joins it.
- `HiddenPrompt.KeepsPromiseIffNoLeak`: keys are the CSI sequences of ECMA-48, `ESC O` and the Linux console's `ESC [ [` with one printable byte, and `ESC` with one printable character; string sequences such as OSC are not keys, and a control byte behind `ESC O` belongs to no key.
- `HiddenPrompt.Listener.OnData`: raw mode and echoed stars are left out.
- `Autoscale.SettlesInOneStep`: arithmetic is over the reals, without rounding; waiting times and schedules are left out, and the cap of 10 replicas is not needed.
- `TransactionQueue.NobodyIsBlocked`: a callback does not call `db.transaction` itself, which would wait for its own end.
- `TokenRefresh.OneRefreshShared`: one process, and a session that is not revoked and does not expire; the retry of the original request and the paths that are never refreshed are left out.
- `ShellLine.ShellReadsIntendedArgv`: interactive history expansion of `!` inside double quotes, which POSIX does not have, is left out; the parts of the fixed front are joined word by word.
- `Changelog.Parser.ReadLine`: releases and groups are values at the end of their lists instead of shared objects, and the open group is the release's last one.
- `DemandLogger.Logger.Demand`: a token is a number, and the line's text is left out.
- `NavigationGuard.Guard.Decide`: an address is parsed already; what the parser makes of a string is not modelled.
- Website pages, command registration, request schemas, stores and argument builders of the agent's operations: they would only add easy members.
- The deploy engine, CI leases and sleep transitions: only their tables are declared in the files modelled here.
