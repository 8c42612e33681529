# dclaw: verified models of the daemon's hard parts

dclaw is a daemon that runs agents in containers, and a client that talks to it over a Unix
socket. This project models the parts of it where many things happen at once or where any
step may fail, and proves what they promise:

- **Chat send** (`ChatStore`, `ChatProtocol`, `ChatSystem`, `ChatTheorems`, `ChatReplies`,
  `ChatAnswers`, `ChatWitnesses`, `ChatDaemon`, `ChatClient`). Any number of handlers share one
  table whose only synchronisation is a unique `message_id`. They are interleaved with history appends, agents created, updated
  and deleted, the passing of time, and daemon crashes.
- **Log streaming** (`LogPipeline`, `LogCauses`, `LogTheorems`, `LogBlocking`, `LogDaemon`,
  `LogClient`). Three stages joined by bounded channels that close one by one, with nondeterministic selects.
- **Audit log rotation** (`AuditDir`, `AuditLog`, `AuditBounds`). A chain of files shifted
  by renames, each of which may fail or be the last thing the process does.
- **Path policy** (`PathStrings`, `PathResolve`, `PathTrails`, `PathPolicy`, `PathDefaults`,
  `PathMemo`, `PathProcess`). Cleaning, symbolic links, case-folding containment, the denylist, the memo
  of the allow-root under concurrent callers, and re-validation of an open handle.
- **Shared RPC client** (`RpcPairing`, `RpcOutcomes`, `RpcClient`). Callers that share one connection
  whose responses carry ids nobody compares.
- **Environment** (`EnvTrip`, `EnvCompose`) from `--env-file`, `--env` and the shell to the
  daemon's map.
- **Status reconciler** (`Reconciler`).

`Basics` holds the option type and two small things that several of these use.

## How it is modelled

The concurrent parts are transition systems: a state, an `Action` type, `Enabled` and
`Apply`, and runs as sequences of actions (`Legal`, `After`). The theorems speak of all runs.
The code itself is imperative: methods over a class that holds the shared state, with
arbitrary moves of everybody else between any two operations. Each operation is one action of
the system, so the theorems about runs hold for the code; the `ensures` of `ChatDaemon.Handle`,
`LogDaemon.Handle`, `RpcClient.RPCClient.Call` and `PathProcess.Process.OpenSafe` are
obtained that way. The audit log is a class over a directory class whose operations fail, crash
or work as they please. The environment functions and the reconciler are loops proved
against functions, about which the properties are then lemmas.

What code and theorems are both stated with is told a second time where it decides anything,
without naming the function that computes it: a handler's answer by the signals it was given
(`ChatAnswers`), the ending of a stream by the errors that occurred (`LogCauses`), a rotation slot
by slot in terms of MaxFiles (`AuditLog.UpByOne`), the place of a path by a trail of single steps
(`PathTrails`), the end of a call by what happened to it and by what the daemon wrote
(`RpcOutcomes`), a text by its parts (`PathStrings.CompsStep`, `EnvCompose.FirstLineThenRest`).

Choices that matter when comparing with the source:

- Chat: row ids and agent ids are numbers drawn in increasing order, as ULIDs are, and the
  clock does not run backwards. `message_id` is unique in the whole table and rows go with
  their agent (`internal/store/migrations/0003_chat_history.sql:5-10`). Texts built by
  formatting are kept as what they are made of. An insert may commit and still report a
  failure. Claims about execution are keyed by agent row id and message id. A daemon crash
  is a step of the system; the imperative code covers the runs up to it.
- A duplicate that finds replies sends what the original sent exactly when the original's
  insert of its reply was answered well and only handlers wrote what was found
  (`ChatReplies.ReplayMatchesOriginal`). Both halves of the condition can fail:
  agent.chat.history.append may store another reply (`internal/daemon/router.go:340`,
  `ChatWitnesses.AppendedReplyDiffers`), and an insert may store the reply and report a failure
  (`ChatWitnesses.UnreportedReplyDiffers`).
- An ack does not mean that the sender's message is in its agent's history: any row of any
  agent with that message_id sends the handler into the replay (`internal/daemon/chat.go:75`).
  `ChatReplies.AckMeansMessage` says when it is, `ChatWitnesses.AckWithoutMessage` shows a run
  in which it is not. For the statement the answer NameTaken carries the row that was met; the
  handler makes no use of it.
- Logs: the error of the demultiplexer is dropped (`internal/sandbox/docker.go:386`), so a Docker
  stream that breaks, or carries an error of the Docker daemon, looks like its end: the client
  is told done after a truncated log, and what there was of a line that broke off is sent as a
  line (`LogTheorems.BrokenStreamIsDone`). A break may come at any line and anywhere in it; it is
  taken to come when the scanner has got that far, since it shows no earlier. `Stream` looks
  the agent up a second time (`internal/daemon/logs.go:38-44`); if the container is gone by then
  the client is told done after no line (`LogTheorems.MissingContainerIsDone`).
  `LogTheorems.DoneMeansEverything` has both in its exact condition.
  `LogTheorems.CancelledDoneIsEarly` shows for every container why cancellation has to be
  excluded: the error is suppressed at `internal/daemon/logs.go:129`. After a failed send nobody
  reads what Stream passes on, and its context is the daemon's (`internal/daemon/server.go:96`):
  `LogBlocking` says exactly when it stays blocked.
- Audit: the comments of `internal/audit/audit.go:202-206` speak of removing slot MaxFiles;
  the code removes slot MaxFiles-1, and so does the model. The comment at lines 147-151 says
  a failed rotation leaves the existing file intact; the code may have moved files by then and
  has closed the log, so every later call is refused until a restart. `AuditLog.LogAndCompare`
  says exactly when the files, and when audit.log alone, are left as they were, by how far the
  rotation came; in `AuditLog.ReopenFails` audit.log is no longer there. What is kept stays a
  gapless end of the history exactly under the condition of `AuditLog.DecideContiguousIff`;
  `AuditLog.LoweringMaxFilesLeavesAGap` is an input where it does not. A record cut short by a
  failing write counts as an entry.
- Paths: a char is one byte, folding and white space are those of ASCII, and Unicode
  normalisation is an arbitrary function of the host. Resolution follows at most 255 links.
  Validating an accepted path in normal form again accepts it unless it holds a forbidden
  byte or is too long: those checks come before links are followed
  (`internal/paths/policy.go:210-235`), and `PathPolicy.AcceptedOnlyOnce` is such a path. What a
  path that is not its own normal form needs is in `PathPolicy.AcceptedAgain`. The denylist keeps
  paths out of denied places, not denied places out of them: a trusted /run may be mounted with
  the Docker socket in it (`PathDefaults.AcceptedHoldsSocket`). The memo is not
  refreshed when files change (`PathMemo.MemoOutlivesChange`).
- RPC: a failed write or read is remembered by the encoder or decoder, as in Go's
  encoding/json; a value that fails to marshal or has the wrong type is not. Nothing resets a
  connection that has failed but Close (`RpcPairing.OnlyCloseHelps`). The pairing is that of
  section 5 of the JSON-RPC 2.0 Specification.
- Environment: a bare `KEY` in `--env` blocks inheritance from the shell but sets nothing
  (`internal/cli/agent.go:441-444`), while the daemon would give it the empty value. The comment
  at `internal/cli/agent.go:466` says values of the file are trimmed; the code keeps white space
  after the '=' (`EnvCompose.ValueIsTrimmedIff`). The comment
  at `internal/cli/agent.go:523-525` says shell values are prepended; the code appends them,
  which makes no difference since their keys are not named.
- Time, randomness, Docker's answers, the database's failures and the network are
  nondeterministic choices or parameters.

## Model

| member | source | states |
|---|---|---|
| ChatStore.SortedOfHolds | internal/store/repo.go:309-336 | a listing holds exactly the agent's rows, each once, strictly ordered by timestamp, sequence and id |
| ChatStore.LimitIsPrefix | internal/store/repo.go:316-320 | a positive limit gives exactly a prefix of the full list, any other limit the full list |
| ChatStore.OrderOfListing | internal/store/repo.go:314 | of two rows listed the first is not younger; if equally old it has not the greater sequence; if that is equal too, it was drawn first |
| ChatStore.StoredIff | internal/store/repo.go:294-305 | a row is stored exactly if its agent exists and neither its id nor its message_id is taken, and NameTaken is the answer exactly if the message_id is |
| ChatStore.WithoutHolds | internal/store/migrations/0003_chat_history.sql:6 | deleting an agent takes its rows and no others |
| ChatProtocol.AdvanceHolds | internal/daemon/chat.go:43-225 | every step of a handler keeps what ties its position to what it has stored and sent |
| ChatProtocol.RepliesHolds | internal/daemon/chat.go:250-262 | persistedReplies gives exactly the agent's rows that answer the message, in list order |
| ChatSystem.StepKeeps | internal/daemon/chat.go:43-308 | a step of any handler keeps the invariant of the shared table, all handlers and all execs |
| ChatSystem.AppendKeeps | internal/daemon/router.go:319-356 | so does a history append by anyone |
| ChatSystem.RemoveKeeps | internal/store/repo.go:135-147 | so does deleting an agent, cascade included |
| ChatSystem.CrashKeeps | internal/daemon/chat.go:74-132 | so does a crash that ends every running handler |
| ChatSystem.RunKeeps | internal/daemon/server.go:84-101 | hence every interleaving of them does |
| ChatTheorems.AtMostOneExec | internal/daemon/chat.go:74-132 | in every run an exec starts at most once per agent row id and message_id, in the handler that stored the user row, after storing it |
| ChatTheorems.OneReply | internal/daemon/chat.go:264-278 | a message has at most one stored reply when only handlers write replies |
| ChatTheorems.ReplyComesFromWinner | internal/daemon/chat.go:105-173 | a reply written by a handler was written by the one that stored the user message |
| ChatTheorems.ChunkIsReply | internal/daemon/chat.go:211-223 | a chunk with a message_id is the whole answer after the ack and is read off the one stored reply |
| ChatTheorems.StoredReplyIsSentAlike | internal/daemon/chat.go:177-262 | where only handlers write replies, any two handlers of one message that send a stored reply send the same envelopes, whether they wrote it, found it or waited for it |
| ChatReplies.ReplayMatchesOriginal | internal/daemon/chat.go:177-278 | a finished duplicate that found replies has sent exactly what the finished original sent, if and only if the original's reply insert was answered well and only handlers wrote the rows found |
| ChatReplies.ReplayIsTransparent | internal/daemon/chat.go:177-278 | where only handlers write replies: if and only if the original's reply insert was answered well |
| ChatWitnesses.AppendedReplyDiffers | internal/daemon/router.go:340-349 | a run in which a reply is appended first: the duplicate finds that one reply and sends it, the original sends another |
| ChatWitnesses.UnreportedReplyDiffers | internal/daemon/chat.go:266-276 | a run without appends in which the reply was stored but reported as failed: the original sends an error without id, the duplicate the reply |
| ChatTheorems.ReplayShowsWhatIsStored | internal/daemon/chat.go:198-224 | a finished duplicate that found replies has sent an ack and all of them, one chunk each, in list order |
| ChatTheorems.VisibleIsStored | internal/daemon/chat.go:264-308 | a chunk with an id was stored with the same role, text and parent, a chunk without one has role error; the winner's user row is stored; an ack implies some stored row with that message_id |
| ChatReplies.AckMeansMessage | internal/daemon/chat.go:73-89 | before a handler acked, its insert was answered, and at that moment its agent's history held the message if and only if the handler had stored it or the row it met is a user row of the same agent |
| ChatWitnesses.AckWithoutMessage | internal/daemon/chat.go:74-77 | a run in which the message_id is held by another agent: acked, and no message of the sender was ever stored |
| ChatTheorems.TraceHasOneShape | internal/daemon/chat.go:43-225 | a finished handler with working sends has sent one error response, or an ack and chunks of which exactly the last is final; any other a prefix of that |
| ChatTheorems.StepsApproachEnd | internal/daemon/chat.go:227-248 | every step but a fruitless poll brings a handler nearer its end |
| ChatTheorems.NeverStuck | internal/daemon/chat.go:43-225 | an unfinished handler can always go on without a send failing, whatever the others did |
| ChatTheorems.UserListsBeforeReply | internal/daemon/chat.go:287-296 | a user row lists before its reply, with equal seconds and equal sequence numbers too |
| ChatTheorems.TurnsListInOrder | internal/store/repo.go:314 | what one turn drew before a later request arrived lists before everything of the later turn |
| ChatAnswers.AnswerFollowsNotes | internal/daemon/chat.go:49-175 | what a finished handler has sent follows from what it was told, in every run: which error response; after the ack the reply that the state of the container and the end of its exec call for, role and text, or that it could not be stored; all replies found; or that none came |
| ChatAnswers.ExecOnlyIfRunning | internal/daemon/chat.go:109-132 | an exec is started only by a handler whose own look at its agent's container answered "running" |
| ChatAnswers.AdvanceNotes | internal/daemon/chat.go:43-225 | each step keeps what ties the position of a handler to what it has been told |
| ChatAnswers.RowsHoldTheTurn | internal/daemon/chat.go:280-308 | the rows of a handler hold, field by field, what was asked and, with the message as parent, what was answered |
| ChatAnswers.AppendedRowsAreGiven | internal/daemon/router.go:319-356 | a row no handler wrote holds, field by field, what some history append was given |
| ChatDaemon.Handle | internal/daemon/chat.go:43-175 | the code follows the protocol step by step between any moves of others, ends, and with working sends has sent a complete answer, the one that the signals it was given call for |
| ChatDaemon.ReplayDuplicate | internal/daemon/chat.go:177-225 | the loser's branch, with its waiting loop, ends as the protocol says |
| ChatDaemon.WaitForReplies | internal/daemon/chat.go:227-248 | returns replies that were read from the store, or nothing and the error chunk to send |
| ChatDaemon.PersistReply | internal/daemon/chat.go:264-308 | the chunk comes back with the id stored, or turned into an error without id |
| ChatClient.ChatSend | internal/client/rpc.go:647-701 | delivers the chunks up to the first final one and stops there, or reports a broken stream |
| ChatClient.ClientReadsAnswer | internal/client/rpc.go:647-701 | on the trace of a finished handler it leaves nothing unread, and its i-th event is the chunk of envelope i+1 |
| LogPipeline.ProducerConserves | internal/sandbox/docker.go:389-396 | no step of the producer loses, repeats or reorders a line |
| LogPipeline.BreakKeeps | internal/sandbox/docker.go:385-388 | a break of the Docker stream changes only what is still to scan, and loses exactly the last lines but for a beginning of the first of them |
| LogPipeline.StreamerConserves | internal/daemon/logs.go:46-73 | nor does a step of Stream |
| LogPipeline.HandlerConserves | internal/daemon/logs.go:135-177 | nor does a step of Handle |
| LogPipeline.ActionKeeps | internal/daemon/logs.go:37-178 | every step keeps conservation and what ties the three stages and their four channels together |
| LogCauses.ErrorsHaveACause | internal/daemon/logs.go:127-157 | the client is told an error only with the text of one that the second lookup, Docker or the scanner gave in this run |
| LogCauses.DoneHasNoCause | internal/daemon/logs.go:125-142 | while the context lives, done is said only in runs in which the lookup did not fail and neither Docker nor the scanner gave an error |
| LogCauses.StepCaused | internal/daemon/logs.go:37-178 | each step keeps every error on its way tied to the event that gave it |
| LogTheorems.LinesAreConserved | internal/daemon/logs.go:37-74 | in every reachable state sent, in hand, in channels and unread together are the container's lines in order, after a break those before it and the torn one; what was sent is a prefix of that |
| LogTheorems.PrefixUnlessTorn | internal/sandbox/docker.go:385-396 | what was sent is a prefix of the container's lines, if and only if no torn line was sent |
| LogTheorems.TerminalNoteIsLast | internal/daemon/logs.go:137-160 | at most one terminal note, and nothing after it |
| LogTheorems.DoneMeansEverything | internal/daemon/logs.go:125-142 | while the context lives, done means that no error was met, and that all lines were sent, if and only if the second lookup did not answer that there is no container and the stream did not break off before the end, or there was no line |
| LogTheorems.BrokenStreamIsDone | internal/sandbox/docker.go:385-388 | for every container with a line, and every beginning of its first line, a run, not cancelled, in which the stream breaks there: done after that beginning |
| LogTheorems.DoneLeavesTheRest | internal/daemon/logs.go:125-142 | cancelled or not, when done is said the rest is upstream of Handle; all lines were sent if and only if nothing is there and no break cost anything |
| LogTheorems.MissingContainerIsDone | internal/daemon/logs.go:38-44 | for every container a run, not cancelled, whose second lookup finds none: done after no line |
| LogTheorems.CancelledDoneIsEarly | internal/daemon/logs.go:129-132 | for every container a cancelled run in which done is announced though no line was sent |
| LogTheorems.StepsLowerMeasure | internal/daemon/logs.go:136-178 | every step but a cancellation lowers one measure of the whole pipeline |
| LogTheorems.NeverStuck | internal/daemon/logs.go:144-177 | no reachable state in which Handle waits is stuck |
| LogTheorems.StreamsEndCorrectly | internal/daemon/logs.go:125-178 | with a living context and working sends every schedule has at most 6n+18 steps and ends in exactly one terminal note: an error that was met, with its text, after a prefix of what the scanner gets; or, no error having been met, done after all of it, or after nothing when the second lookup found no container |
| LogDaemon.Handle | internal/daemon/logs.go:135-178 | the select loop ends whatever the other stages do, having sent a prefix of what the scanner gets and at most one terminal note; an error note names an error that was met; with done under a living context none was met and all lines were sent, under the condition of DoneMeansEverything |
| LogDaemon.Stream | internal/daemon/logs.go:37-74 | a failed lookup comes back as it is, any other error is that of the cancelled context or one that Docker or the scanner gave; returning none means that none was given and, the context alive and a container found, that all the scanner got is with Handle or sent |
| LogBlocking.StillIff | internal/daemon/logs.go:60-64 | after Handle has returned, under a living context, nothing can move if and only if both goroutines are over or Stream has a line for the full channel that nobody reads |
| LogBlocking.BlockedIff | internal/daemon/logs.go:60-64 | after a failed send and without errors upstream, Stream ends up blocked if and only if more than 128 lines were left to it |
| LogBlocking.StreamStaysBlocked | internal/daemon/server.go:96 | for every container with two lines more than the channel holds, a run that leaves Stream blocked until the context ends |
| LogClient.LogsStream | internal/client/rpc.go:498-553 | delivers exactly the lines before the terminal note, in order, and its error if it is one |
| AuditDir.ShiftedSlot | internal/audit/audit.go:234-260 | what the rename loop amounts to slot by slot, after any number of its steps |
| AuditDir.ShiftKeepsOrder | internal/audit/audit.go:242-254 | reading from the highest slot down stays in history order however far the loop gets |
| AuditDir.ShiftDropsOldestSlot | internal/audit/audit.go:234-237 | the records of slot MaxFiles-1 and no others are dropped, and nothing new appears |
| AuditDir.ShiftContiguousIff | internal/audit/audit.go:230-260 | a rotation leaves no gap exactly when the removed slot was empty or nothing is left above it |
| AuditDir.ShiftIntactIff | internal/audit/audit.go:147-151 | a rotation that stopped has changed nothing exactly when it never began or passed no file |
| AuditDir.ActiveIntactIff | internal/audit/audit.go:256-260 | audit.log is where it was with what it held exactly while its own rename is still to come |
| AuditDir.ReadBackIsSuffix | internal/audit/audit.go:62-66 | a gapless directory read from the highest slot down is exactly an end of the history |
| AuditLog.MidRotationKeepsSuffix | internal/audit/audit.go:216-276 | every directory an interrupted rotation may leave is gapless and within the file limit |
| AuditLog.LogOutcomeKeepsSuffix | internal/audit/audit.go:152-198 | so is everything one LogDecision may leave, wherever it fails or dies |
| AuditLog.Logger.RotateLocked | internal/audit/audit.go:216-276 | the rename loop over failing operations leaves one of the directories of a rotation and never renames onto a file; finished, each file within MaxFiles has moved up by one, audit.log is empty, and exactly the records of the last slot within the limit are gone |
| AuditLog.Logger.LogDecision | internal/audit/audit.go:152-198 | which errors leave what, and how far a failed rotation came; on success the record is appended to audit.log if it fits MaxSize, and else stands alone in it, every file within MaxFiles having moved up by one |
| AuditLog.DecideSlots | internal/audit/audit.go:182-276 | where a record lands and what it moves, slot by slot, in terms of MaxSize and MaxFiles themselves |
| AuditLog.RotationDrops | internal/audit/audit.go:225-270 | a finished rotation costs exactly the records of slot MaxFiles-1, or those of audit.log if MaxFiles is below 2 |
| AuditDir.SizeConcat | internal/audit/audit.go:187 | the size of a file is the bytes of its writes together |
| AuditLog.LogAndCompare | internal/audit/audit.go:147-151 | after a failed rotation the files are intact if and only if nothing was removed or there was nothing to move, audit.log if and only if its rename had not come |
| AuditLog.ReopenFails | internal/audit/audit.go:256-273 | every log that must rotate and cannot be reopened: audit.log is gone after the failure, to audit.log.1 or with a single file for good |
| AuditLog.RunDaemons | internal/audit/audit.go:95-276 | over any sequence of starts, calls, shutdowns and kills: a gapless end of the history as long as the file limit is never lowered, and history order whatever the limits |
| AuditLog.DecideContiguousIff | internal/audit/audit.go:182-197 | one call leaves no gap exactly when it does not rotate, or the removed slot is empty, or nothing is above it |
| AuditLog.LoweringMaxFilesLeavesAGap | internal/audit/audit.go:225-237 | an input with a lowered limit where a newer record is dropped and an older one kept |
| AuditBounds.DecideFills | internal/audit/audit.go:187-197 | a call keeps neighbouring files too large to be one, and drops only from a full chain |
| AuditBounds.DroppingKeepsEnough | internal/audit/audit.go:182-197 | once a record was dropped at least floor(MaxFiles/2)*(MaxSize+1) bytes are kept; without a size limit none is ever dropped |
| AuditBounds.LogStaysBounded | internal/audit/audit.go:177-197 | only slots below MaxFiles (or audit.log alone if that is less), each file within MaxSize or one record alone, so at most MaxFiles*max(MaxSize, longest record) in all |
| AuditBounds.LogAll | internal/audit/audit.go:152-198 | the logger, from an empty directory without faults, arrives at the directory those bounds speak of, and so keeps to them itself |
| PathStrings.CleanAbs | internal/paths/policy.go:231 | cleaning an absolute path renders its components and is idempotent |
| PathStrings.CompsStep | internal/paths/policy.go:231 | the components of an absolute path: none of the root; a further name adds itself, an empty one or a dot nothing, two dots take the last one back |
| PathStrings.EqualFoldIff | internal/paths/policy.go:353-355 | texts are equal under folding exactly if they are of one length and differ at most in the case of ASCII letters |
| PathStrings.UnderFoldIsStrictContainment | internal/paths/policy.go:375-391 | isUnderFold is strict case-folding containment of components, false for "/" |
| PathStrings.RootOrUnderFoldIsContainment | internal/paths/policy.go:312-326 | isRootOrUnderFold is containment of components, so a sibling with the same prefix never matches |
| PathStrings.PathEqualFoldIsEqualComps | internal/paths/policy.go:353-355 | pathEqualFold is equality of components, case aside |
| PathResolve.WalkIsLinkFree | internal/paths/policy.go:241 | what resolution arrives at has no link left in it |
| PathTrails.WalkIsReach | internal/paths/policy.go:241 | resolution finds a place exactly if a trail of steps with at most 255 links leads there: a link read in the directory that holds it or, absolute, from the root, ".." going up from the place reached |
| PathTrails.EvalSymlinksResolves | internal/paths/policy.go:237-244 | EvalSymlinks answers exactly with the clean absolute name of the place to which such a trail leads |
| PathTrails.OnePlace | internal/paths/policy.go:237-244 | a path leads to one place at most |
| PathResolve.EvalSymlinksFixes | internal/paths/policy.go:237-244 | it is clean and absolute, and resolving it again changes nothing |
| PathPolicy.FirstBadByteIsFirst | internal/paths/policy.go:331-347 | an error names the first forbidden byte and its kind; none means there is none |
| PathPolicy.DenylistIsCoverage | internal/paths/policy.go:267-274 | the denylist loop refuses exactly the entries and what lies below them |
| PathPolicy.DenialNamesFirst | internal/paths/policy.go:267-274 | a refusal names the first entry that covers the path, exact match told from descendant |
| PathPolicy.AcceptedUnderRoot | internal/paths/policy.go:276-307 | whatever root the memo gave: acceptance is exactly a well-spelled text that leads to a place permitted under that root |
| PathPolicy.AcceptedExactly | internal/paths/policy.go:205-308 | Validate accepts exactly the well-spelled texts whose clean form leads to a place that is not the Docker Desktop socket, that no entry covers and that is trusted or below the place the allow-root leads to, and it returns the name of that place |
| PathPolicy.RootOfIs | internal/paths/policy.go:36-57 | the allow-root comes to a name exactly if its clean form, below the working directory if it is relative, leads to the place of that name |
| PathPolicy.RefusalsAreForCause | internal/paths/policy.go:205-308 | a refusal is for the first rule broken, in the order empty, forbidden byte, relative, too long, unresolved, socket, denylist, allow-root, and says what is wrong |
| PathPolicy.SocketIff | internal/paths/policy.go:357-370 | the Docker Desktop socket is told by a directory and an ending of the name, case aside |
| PathPolicy.AcceptedIsSound | internal/paths/policy.go:183-204 | an accepted path is clean, absolute, free of links and permitted |
| PathDefaults.DefaultsKeepOut | internal/paths/policy.go:129-146 | with the default denylist no accepted path, trusted or not, is the root or in any of the listed places |
| PathDefaults.DeniedBelowIff | internal/paths/policy.go:101-113 | a listed place lies below an accepted path if and only if that is /run or /private, case aside |
| PathDefaults.AcceptedHoldsSocket | internal/paths/policy.go:101-113 | a trusted /run is accepted, and the Docker socket of the denylist is in it |
| PathPolicy.AcceptedAgain | internal/paths/opensafe.go:47-51 | an accepted path is accepted again as itself exactly when it is well spelled and its normal form leads to it |
| PathPolicy.NormalPathAcceptedAgain | internal/paths/opensafe.go:47-51 | if it is its own normal form: exactly when it has no forbidden byte and is not too long |
| PathPolicy.AcceptedOnlyOnce | internal/paths/policy.go:210-241 | a link to a name with a newline: accepted through the link, refused by name |
| PathPolicy.LinkFreeOpens | internal/paths/opensafe.go:31-39 | a path without links opens as itself when it is a directory and not at all otherwise |
| PathPolicy.OpensByName | internal/paths/opensafe.go:31-39 | what opens under a last name is the directory of that very name in the place the names before it lead to |
| PathPolicy.OpensFollowed | internal/paths/opensafe.go:31-39 | a path that ends in dots or a slash opens the directory it leads to |
| PathPolicy.OpenedAsAccepted | internal/paths/opensafe.go:30-57 | on unchanged files a validated directory opens and is reported under the very name accepted |
| PathPolicy.HandleIsWhatIsJudged | internal/paths/opensafe.go:47-55 | whatever was swapped in before the open, the handle's name is accepted as itself exactly if it is well spelled, its normal form leads to it, and the directory held open is itself permitted |
| PathPolicy.NormalHandleIsJudged | internal/paths/opensafe.go:47-55 | a name that is its own normal form is accepted only as itself, and exactly if it is well spelled and the directory held open is permitted |
| PathMemo.EntriesNeverChange | internal/paths/policy.go:53-56 | a memo entry, once stored, never changes |
| PathMemo.EntriesWereResolved | internal/paths/policy.go:45-52 | failures never enter the memo: each entry is what its key resolved to at some moment of the run |
| PathMemo.EveryoneIsToldTheSame | internal/paths/policy.go:36-57 | all successful lookups of a key, over the whole run, return one value |
| PathMemo.MemoIsTransparent | internal/paths/policy.go:13-31 | while files stay as they are every answer is what resolving afresh gives |
| PathMemo.MemoOutlivesChange | internal/paths/policy.go:24-27 | for any key, any root it had and any files afterwards, a run in which the last caller is told the old root |
| PathMemo.ToldRootsJudgeAlike | internal/paths/policy.go:286-305 | then Validate with the memo is Validate without it |
| PathProcess.CheckForbiddenRunes | internal/paths/policy.go:331-347 | the index loop finds the first forbidden byte |
| PathProcess.Process.CanonicalizeAllowRoot | internal/paths/policy.go:36-57 | between any moves of other callers: a stored value wins, an answer is what the memo holds, failures change nothing; on unchanged files it is exactly the name of the place the allow-root leads to |
| PathProcess.Process.Validate | internal/paths/policy.go:205-308 | the pipeline with its loops and the memo: what it accepts is well spelled, leads to the path returned in the files it looked at, and is permitted under the root the memo holds; on unchanged files it accepts exactly what AcceptedExactly says |
| PathProcess.Process.OpenSafe | internal/paths/opensafe.go:30-58 | a descriptor stays open only with a path the policy accepted after the open, and every failing step closes it; if files are still from the open on, a normal path returned is the name of the directory held open, and that is permitted under the root the memo holds |
| PathProcess.Process.OpenWorkspace | internal/daemon/lifecycle.go:77-100 | on unchanged files the directory mounted is the one validated |
| RpcPairing.StepKeeps | internal/client/rpc.go:43-143 | on a working connection exactly the lock holder's request is under way |
| RpcPairing.EveryCallGetsItsOwn | internal/client/rpc.go:121-143 | over any interleaving of callers, closes, redials and faults, every response returned answers the caller's own request and bears its id |
| RpcPairing.CallsReturnInOrder | internal/client/rpc.go:115-117 | returned ids are distinct and increase |
| RpcPairing.HandshakeComesFirst | internal/daemon/server.go:112-121 | the daemon never finds anything but a handshake in front of a connection |
| RpcPairing.OnlyCloseHelps | internal/client/rpc.go:48-50 | once a write or read has failed on a connection in use, no call returns a response until Close |
| RpcOutcomes.BrokenUntilClosed | internal/client/rpc.go:48-50 | from the first failed write or read on, until Close, the client stays connected and no call returns a response |
| RpcOutcomes.ArrivalIsReturned | internal/client/rpc.go:132-142 | a response that arrives on a decoder that has not failed ends the call it answers and is what that call returns |
| RpcOutcomes.AnswersAreTheDaemons | internal/daemon/server.go:154-159 | whatever a call returns the daemon wrote in this run in answer to that request: its payload, and whether it is an error |
| RpcOutcomes.HandshakeIsAccepted | internal/daemon/server.go:114-137 | no call goes out on a connection before the client has read that its handshake was accepted, and none is served before the daemon has accepted it |
| RpcOutcomes.EveryCallIsAnswered | internal/client/rpc.go:121-143 | while nothing fails and no new call comes, all end, each caller having had a response to a request with its own body, no two the same one |
| RpcOutcomes.WellRunsAreHealthy | internal/client/rpc.go:45-68 | every state of a run without failures is one from which that holds |
| RpcPairing.NeverStuck | internal/client/rpc.go:121-143 | while anyone is in a call someone can move, faults aside |
| RpcPairing.SmoothStepsLower | internal/daemon/server.go:143-160 | every step that goes well lowers one measure of callers and connection |
| RpcPairing.CallsEnd | internal/client/rpc.go:121-143 | so without new calls everything ends after a bounded number of such steps, with every caller returned |
| RpcPairing.RepliedFlows | internal/daemon/server.go:143-160 | the serving loop answers the one request in hand, so nothing under way is lost, doubled or reordered |
| RpcClient.RPCClient.Dial | internal/client/rpc.go:45-68 | connects and greets under the lock, or finds that done, or leaves with an error, and that only for a failure met since its start |
| RpcClient.RPCClient.Call | internal/client/rpc.go:121-143 | what it returns the daemon wrote in answer to a request with the body it was given, under that request's id; it returns without a response only if since its start the daemon was unreachable for it, its handshake or request could not be sent, or no welcome or response could be read |
| EnvTrip.ToMapIsLastValue | internal/cli/agent.go:410-421 | kvSliceToMap holds for each key the last KEY=VAL value |
| EnvTrip.LastEntryDecides | internal/daemon/lifecycle.go:396-407 | both maps hold for a key what the last entry that gives it a value says, bare keys counting for the daemon alone |
| EnvTrip.KvSliceToMap | internal/cli/agent.go:410-421 | the nested loop computes that map |
| EnvTrip.MapToKVList | internal/client/rpc.go:383-392 | lists each entry of the map once and nothing else, in some order |
| EnvTrip.ParseKVList | internal/daemon/lifecycle.go:396-407 | the loop computes the map of all entries, a bare key having the empty value |
| EnvTrip.RoundTripExactly | internal/daemon/lifecycle.go:396-407 | for every order of listing the daemon gets the client's map back, exactly when no key holds '=' |
| EnvCompose.ParseDotenv | internal/cli/agent.go:469-504 | the scanner loop, with its line numbers and its errors |
| EnvCompose.FirstLineThenRest | internal/cli/agent.go:478-483 | a file is its first line, without a carriage return at its end, and then the rest, as long as the line is shorter than 65536 bytes |
| EnvCompose.LineSays | internal/cli/agent.go:488-498 | KEY=VAL in white space says just that: the key trimmed, the value as it stands |
| EnvCompose.TrimSpaceTakes | internal/cli/agent.go:483 | trimming takes white space off both ends and nothing else |
| EnvCompose.ErrorIsFirstComplaint | internal/cli/agent.go:480-503 | an error of the file is that of the first line with which something is wrong, under that line's number |
| EnvCompose.NoComplaintNoError | internal/cli/agent.go:480-503 | and where nothing is wrong with any line there is none |
| EnvCompose.LineErrorMeans | internal/cli/agent.go:484-494 | a line is refused exactly if, trimmed, it is no comment and has no '=' at all, or begins with one |
| EnvCompose.FilePairsAreClean | internal/cli/agent.go:483-499 | a file yields only pairs with non-empty keys without surrounding white space |
| EnvCompose.ValueIsTrimmedIff | internal/cli/agent.go:466-498 | a value of the file is trimmed exactly when no white space follows its '=' |
| EnvCompose.MergeShellEnv | internal/cli/agent.go:431-460 | the entries as given, then the well-known keys nobody named, in order |
| EnvCompose.NamedMeans | internal/cli/agent.go:432-453 | a key is named by an entry that is that key alone or begins with it and an equals sign |
| EnvCompose.Precedence | internal/cli/agent.go:506-529 | for every key the explicit value, else the file's, else the shell's for a well-known key that no entry names |
| EnvCompose.ComposeEnv | internal/cli/agent.go:517-529 | the composed map is that for every key, or the file's error |
| EnvCompose.SendEnv | internal/daemon/lifecycle.go:116 | and that map arrives at the daemon unchanged |
| Reconciler.StatusReconciler.ReconcileOnce | internal/daemon/reconciler.go:80-139 | a row is written only if unsettled, then with its due status and the time of the write and nothing else new, whatever fails; all of them if nothing does |
| Reconciler.StatusReconciler.ReconcileTwice | internal/daemon/reconciler.go:80-139 | after one pass every row has its due status, the table changed only where it had not, and the second pass writes nothing |
| Reconciler.SettledMeans | internal/daemon/reconciler.go:87-120 | a row is settled if it has no container or is just created, or says what Docker says of its container, "dead" of one Docker does not know |
| Reconciler.LiveStatusTable | internal/sandbox/docker.go:308-332 | the first flag set is the status, a non-zero exit code means exited, else Docker's own word |

## Left out

- The terminal interface, command wiring, `doctor` and `init`, table and JSON printing: user interface, easy members only.
- Docker, SQLite, migrations, sockets, JSON, TOML, SHA-256 and Unicode tables: foreign code, present as atomic steps and parameters.
- Configuration resolution, PID files, provider selection in the agent image: short decision ladders.
- Concurrent agent create, update and delete: rows are written by name from an earlier read, so stale writes are possible and no atomicity is claimed; the reconciler is modelled without a second writer.
- `DeleteChatHistoryForAgent`: has no production caller and would free used message ids.
- `agentLogsFollowPoll`: its one-line comparison supports no claim of exact delivery.
- Full Unicode folding and Windows paths: the byte-slice comparisons are aligned only where folding keeps lengths.
- ChatDaemon.Handle: `polls` bounds the number of looks at the store, standing for the waiting time of `internal/daemon/chat.go:228`.
- LogDaemon.Stream: `looks` bounds how often it looks at its channels, since its return depends on the container and on Handle; when it never returns is said in LogBlocking.
- PathMemo.MemoIsTransparent: resolving a root is one step here; files changing half-way through one resolution are not modelled.
- PathProcess.Process.OpenSafe: while files go on changing after the open, the name the kernel reports is arbitrary and nothing is claimed of it beyond what the policy then says.
- RpcClient.RPCClient.Call: a call that still waits for the lock or the daemon is returned as under way; contexts and deadlines do not reach `call`.
