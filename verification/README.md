# A resumable terminal, verified

A browser terminal talks to a gateway over a WebSocket that may drop at any moment; the gateway keeps
the shell, and a later connection continues it. This project models that protocol in Dafny, both
halves and the network between them, and proves what it is for: output that is shown exactly once and
in order across any number of drops, input that reaches the shell in order and never on the wrong
connection, shells that are never orphaned, and bounded memory and retries on both sides. Two
self-contained pieces of the same repository are verified as well: the indentation normaliser and the
instruction encoder of the remote-desktop tunnel.

`dafny verify dfyconfig.toml` checks everything.

## How it is built

Code that works by changing things in place is a class whose methods follow the handlers statement by
statement. Each method's contract says that the new state is a function of the old one, and the
functions are the steps of a state machine over which the run-level theorems are proved: the next
message is delivered, the link goes silent, a socket closes, a timer fires, a queued callback runs,
an authorization settles. Nothing is assumed about the order of these steps beyond what the code and
its platform guarantee (in-order delivery per socket, run-to-completion handlers, promise reactions
in the order they were registered).

Beside these theorems the effect of every operation is stated on its fields, without naming the function
that computes it: what a replay starts with, whose shell a claim hands over, when queued input may wait,
when a retry is armed, when a paused shell goes on.

| file | what it models |
|---|---|
| `Bytes.dfy`, `Utf8.dfy`, `Utf16.dfy` | bytes and chunks; well-formed UTF-8 (section 4 of RFC 3629); strings as the browser holds them and their encoding |
| `ShellHistory.dfy` | what a reconnect is replayed: the plan, the safe start, the replay of a plain output stream |
| `ShellSessions.dfy` | one shell with its chunked history, and the registry of shells that may be continued, in place |
| `Lifecycle.dfy` | the gateway's connections and shells: claim, authorize, attach, detach, end, in any interleaving |
| `OutputResume.dfy` | terminals, sockets and shells together: offsets on both sides, replays, gaps |
| `FlowControl.dfy` | output acknowledgements, pausing and resuming |
| `InputSender.dfy` | the browser's input queue, window and timers |
| `MessagePipeline.dfy`, `InputPath.dfy`, `PtySize.dfy` | one connection: the gateway's message handling with its early buffer and asynchronous authorization; input order and the last resize |
| `TerminalInput.dfy` | terminals, their connections and the gateway together: whose keystrokes reach a shell, and in which order |
| `MixedInput.dfy` | what overlapping claims do to a shell's input |
| `GatewayOutput.dfy` | `Lifecycle` and `OutputResume` are two views of one gateway: every handler of the one is a run of the other |
| `InputBudget.dfy`, `CommonBudget.dfy` | the browser's window against the gateway's input limits, for one connection and for all of them together |
| `TerminalConnection.dfy` | the browser's attempts, retries, heartbeat and disposal |
| `NormalizeIndent.dfy` | the indentation normaliser |
| `GuacamoleInstruction.dfy` | the tunnel's instruction encoding and its held frame answers |

## Where the code does not do what it says

Each of these is a lemma with a concrete input or run, next to a lemma that says exactly when the code
does meet the promise.

- An output offset of sixteen digits is read as no offset, so a browser behind the detach point of a
  shell that printed 10^15 bytes silently misses output (`HugeOffsetLosesOutput`, a run; exactly when:
  `ReplayExactIff`).
- Claiming a shell and attaching to it are separated by an awaited authorization. Two overlapping
  claims, or the late close of a connection that had bailed out, leave a shell that one connection
  still holds detached or held twice (`OverlappingClaimsOrphan`, `LateCloseOrphans`; exactly when:
  `StepPlacesIffOrderly`). Two that hold it both write, and the shell reads their keystrokes mixed
  (`OverlappingClaimsMixInput`; never in orderly runs: `NoInputCrossesConnections`; from any state of one
  by an overlapping claim of an open socket: `OverlappingClaimMixes`).
- The early buffer holds sixteen messages. Messages that come while the first authorization is awaited
  are both handled and buffered, so a seventeenth resize loses to the sixteenth
  (`SeventeenthEarlyResizeIsLost`; exactly when: `EarlyLastResizeIff`).
- The heartbeat deadline starts an attempt although the connection waits for the user, as long as the
  socket is still open (`HeartbeatIgnoresTheWait`; exactly when: `WaitingStartsIff`).
- The browser's window and the gateway's limits for one connection fit with one ack timeout, not with two: then
  eighteen chunks are refused without any resize (`ThreeWindowsAreTooMuch`; exactly when: `RefusalIff`,
  `NoRefusalIff`).
- The limit for all connections together fits 95 full windows, so 48 of the 64 connections that the gateway admits
  get input refused when each had a single ack timeout, and 64 when 32 of them had one
  (`FullWindowsAreTooMany`; exactly when: `TimeoutsIff`, `RefusalIff`).
- Lines that end in CR LF vote on a file's style but are never rewritten, so a file may stay mixed
  after any number of passes (`CrlfStaysMixed`; exactly when: `StaysMixedIff`).
- Rewriting tabs as spaces moves a line whose tabs were not aligned (`MisalignedTabMoves`; exactly when:
  `LineKeepsColumnIff`).

## Model

| member | source | states |
|---|---|---|
| ShellHistory.PlanPartitionsOutput | src/ssh-ws-proxy.ts:666-675 | for every offset and detach point, each byte so far is either one the browser has or one that is replayed, never both and never neither, exactly when the plan is not truncated |
| ShellHistory.SafeReplayStart | src/ssh-ws-proxy.ts:698-707 | of the first 4096 bytes: behind the first line feed if there is one, else at the first escape, else behind the bytes that continue a character and no further |
| ShellHistory.ReplayIsExact | src/ssh-ws-proxy.ts:658-689 | a replay is a suffix of everything printed; truncated exactly when the history lost the first byte the browser lacks, otherwise starting at that byte; a truncated one gives up at most 4096 bytes |
| ShellHistory.TruncatedReplayIsClean | src/ssh-ws-proxy.ts:677-689 | every truncated replay starts at such a clean cut of the last 256 KiB |
| ShellHistory.ReplayStartsWhereAsked | src/ssh-ws-proxy.ts:666-675 | while the history holds it, a replay starts at the offset the browser gives, else at the detach point; with neither nothing is replayed; beyond the end nothing is; a start the history lost is announced as truncated |
| ShellHistory.SafeStartOnCharacter | src/ssh-ws-proxy.ts:691-707 | a full window of a well-formed UTF-8 stream, cut at the safe start, begins with a whole character |
| ShellHistory.TruncatedReplayStartsOnCharacter | src/ssh-ws-proxy.ts:678-707 | if the output is the beginning of a well-formed stream, every truncated replay starts on a character boundary |
| ShellSessions.ShellSession.constructor | src/ssh-ws-proxy.ts:861-883 | a new shell has printed nothing, is attached to nobody and is live |
| ShellSessions.ShellSession.TrimHistory | src/ssh-ws-proxy.ts:643-655 | the trim loop ends, also with empty chunks, and leaves the chunks a suffix of the output that starts where the last 256 KiB do |
| ShellSessions.ShellSession.RecordShellOutput | src/ssh-ws-proxy.ts:637-656 | the chunked history refines the plain stream: of a live keep-alive shell it holds exactly the last 256 KiB of all output, at the right offset |
| ShellSessions.ShellSession.ShellReplay | src/ssh-ws-proxy.ts:677-689 | from the chunks, the replay of the plain stream: a suffix of all output, and when truncated one that starts at a clean cut |
| ShellSessions.ShellSession.SetShellPaused | src/ssh-ws-proxy.ts:554-559 | the flag is as told; the stream, once there is one, is paused or resumed exactly when the flag changes |
| ShellSessions.ShellRegistry.DeleteDetached | src/ssh-ws-proxy.ts:548-552 | taking a shell out of the detached ones lowers its user's count, and no count stays at zero |
| ShellSessions.ShellRegistry.EndShellSession | src/ssh-ws-proxy.ts:577-595 | ending a shell takes it out of both maps, disarms its timer, empties its history, keeps its output record, and names the connection that is told, if any |
| ShellSessions.ShellRegistry.KeepDetached | src/ssh-ws-proxy.ts:607-616 | a kept shell is counted once, unpaused, marked with its output end, and its TTL timer is armed |
| ShellSessions.ShellRegistry.DetachShellSession | src/ssh-ws-proxy.ts:598-617 | exactly a live keep-alive shell with a stream, on a gateway that keeps shells and has room under both caps, is kept: detached, unpaused, marked with its output end, its timer armed; any other is over |
| ShellSessions.ShellRegistry.ClaimShellSession | src/ssh-ws-proxy.ts:624-635 | a claim hands over a live resumable shell of the same user, server and endpoint, unattached and undetached; the owner's claim of such a shell succeeds, any other returns null and changes nothing |
| ShellSessions.ShellRegistry.AttachShellSession | src/ssh-ws-proxy.ts:1192-1218 | the shell is attached, has no detach point, is resumable if keep-alive, and is unpaused if it is resumed |
| Lifecycle.EndKeepsRegistry | src/ssh-ws-proxy.ts:577-595 | ending a shell keeps the registry consistent |
| Lifecycle.DetachKeepsRegistry | src/ssh-ws-proxy.ts:597-617 | detaching a shell keeps the registry consistent, caps included |
| Lifecycle.ClaimKeepsRegistry | src/ssh-ws-proxy.ts:619-635 | claiming a shell keeps the registry consistent |
| Lifecycle.AttachKeepsMembers | src/ssh-ws-proxy.ts:1190-1195 | attaching to a live shell keeps the registry consistent |
| Lifecycle.UndetachCounts | src/ssh-ws-proxy.ts:548-552 | removing a detached shell keeps every user's count exact, without zero entries |
| Lifecycle.DetachCounts | src/ssh-ws-proxy.ts:601-613 | adding a detached shell when there is room keeps the counts exact and the caps |
| Lifecycle.StepKeepsRegistry | src/ssh-ws-proxy.ts:895-1219 | every handler keeps the registry consistent |
| Lifecycle.RegistryConsistentInEveryRun | src/ssh-ws-proxy.ts:542-552 | in every interleaving: detached shells are resumable ones, live, keep-alive, with a stream and an armed TTL timer; per-user counts are exact with no zero entry; at most 32 detached, 4 per user |
| Lifecycle.EndedNeverReturns | src/ssh-ws-proxy.ts:578-588 | an ended shell stays ended and never enters either map again |
| Lifecycle.NobodyGetsAnothersShell | src/ssh-ws-proxy.ts:624-635 | in every run each connection's shell belongs to the user who connected, and runs on the server and endpoint the connection is for |
| Lifecycle.ClaimedIff | src/ssh-ws-proxy.ts:624-635 | a keep-alive connection to a gateway that keeps shells gets the shell it asks for if and only if that shell can be resumed and has the caller's user, server and endpoint |
| Lifecycle.ConnectDecides | src/ssh-ws-proxy.ts:860-1192 | an open socket gets the claimed shell, taken from the connection that had it, or a new one; a closed one gives the claimed shell back, or leaves nothing |
| Lifecycle.AllowedDecides | src/ssh-ws-proxy.ts:1193-1218 | an allowed connection of a live shell attaches, resets the detach point and unpauses what it resumes; one that is late attaches to nothing |
| Lifecycle.EndingEvents | src/ssh-ws-proxy.ts:904-918 | a refused authorization, an end message and an invalid message end the shell for good and stop the connection |
| Lifecycle.LeavingEvents | src/ssh-ws-proxy.ts:919-925 | a closed socket, a full queue and an unavailable check stop the connection; its shell then waits, readable from its output end on, or is over, exactly by the guard |
| Lifecycle.GoneIsOver | src/ssh-ws-proxy.ts:577-595 | when the SSH side goes away the shell is over and its connection is stopped |
| Lifecycle.OnlyDetachedExpire | src/ssh-ws-proxy.ts:614-616 | the TTL ends detached shells and no others |
| Lifecycle.OutputEvents | src/ssh-ws-proxy.ts:554-559 | a backlog pauses the shell its connection is fed from, a drained queue resumes it, an open stream counts output |
| Lifecycle.GoodSessionGoesOn | src/ssh-ws-proxy.ts:926-965 | a check that still allows, or that comes before the first one settled, changes nothing |
| Lifecycle.StoppedIsSilent | src/ssh-ws-proxy.ts:895-925 | nothing of a stopped connection has an effect |
| Lifecycle.OverlappingClaimOrphans | src/ssh-ws-proxy.ts:860-1192 | a claim of a shell that another connection is being authorized for always orphans it, unless giving it back ends it |
| Lifecycle.StrangerLetsGoOrphans | src/ssh-ws-proxy.ts:1165-1182 | a connection that bailed and lets go later always orphans a shell another connection holds, unless letting go ends it |
| Lifecycle.StepPlacesIffOrderly | src/ssh-ws-proxy.ts:860-1219 | from a state without orphans a handler makes none if and only if it claims no shell in another connection's authorization interval and is not the late letting-go of a bailed connection whose shell is held again |
| Lifecycle.NoOrphansInOrderlyRuns | src/ssh-ws-proxy.ts:1165-1219 | in every state of every orderly run each live shell is held by exactly one connection (attached or being authorized) or waits detached, unpaused, with its TTL timer armed |
| Lifecycle.AuthorizationSettles | src/ssh-ws-proxy.ts:926-965 | every authorization ends with the shell attached to that connection, waiting detached, or ended; a refusal ends it |
| Lifecycle.OpeningRun | src/ssh-ws-proxy.ts:1043-1060 | from the empty gateway, a browser opens a keep-alive shell and is attached to it |
| Lifecycle.LateCloseOrphans | src/ssh-ws-proxy.ts:1165-1182 | from there, four steps after which the shell is detached although a connection holds it |
| Lifecycle.OverlappingClaimsOrphan | src/ssh-ws-proxy.ts:860-1183 | from there, three steps after which two connections hold one shell |
| OutputResume.OutputFollower.constructor | src/components/ssh-terminal-connection.ts:149-153 | a page that loads with a remembered shell has none of its output yet |
| OutputResume.OutputFollower.OutputReceived | src/components/ssh-terminal-connection.ts:328-338 | output is written, and counted, once |
| OutputResume.OutputFollower.SessionReceived | src/components/ssh-terminal-connection.ts:357-375 | counting goes on at the announced offset; a new shell starts a new record, another offset is a gap |
| OutputResume.OutputFollower.ClosedReceived | src/components/ssh-terminal-connection.ts:384-395 | after a deliberate end the shell is no longer asked for |
| OutputResume.OutputFollower.ResumeRequest | src/components/ssh-terminal-connection.ts:280-290 | a reconnect asks for the remembered shell, and for the bytes after the ones it has |
| OutputResume.DialAsks | src/components/ssh-terminal-connection.ts:282-290 | a dialed socket asks for the remembered shell and the byte behind those the terminal has, when the terminal keeps its shell and remembers one |
| OutputResume.AcceptResumes | src/ssh-ws-proxy.ts:624-635 | a socket that asks for a live, started, keep-alive shell gets it, and the socket attached until then is closed |
| OutputResume.AcceptOpens | src/ssh-ws-proxy.ts:860-883 | any other socket gets a new shell of its own, kept when the socket asks for that |
| OutputResume.AttachTells | src/ssh-ws-proxy.ts:1030-1042 | a resumed socket is told the shell, that it is resumed, whether it is kept and where its output goes on, and then gets all output from there |
| OutputResume.ReplayOverflowDetaches | src/ssh-ws-proxy.ts:975-983 | a replay that does not fit the send queue is announced but not sent, the socket is closed and the shell detached where its output ends |
| OutputResume.OpenTells | src/ssh-ws-proxy.ts:1056-1061 | a new shell is announced to the socket it was opened for, as new and from its first byte |
| OutputResume.OverflowDetaches | src/ssh-ws-proxy.ts:975-983 | output that does not fit the send queue stays in the shell, which is detached at the end of that output; nothing of it is sent |
| OutputResume.EndTells | src/ssh-ws-proxy.ts:577-595 | an ending is announced once, behind everything sent, and closes the socket |
| OutputResume.SessionFaithful | src/components/ssh-terminal-connection.ts:357-363 | a fair session message leaves a record that is the shell's output up to its offset, except for announced gaps |
| OutputResume.ReplayContinues | src/ssh-ws-proxy.ts:1190-1219 | announcement and replay of a resumed connection continue exactly what its terminal has, or announce the gap, up to the end of the output |
| OutputResume.PrintPosted | src/ssh-ws-proxy.ts:709-714 | output posted to an attached connection continues what is on its way |
| OutputResume.StepKeeps | src/ssh-ws-proxy.ts:860-1219 | every step of gateway, network and terminals keeps all records and everything on the wire in line with the shells' output |
| OutputResume.FaithfulWithoutGaps | src/components/ssh-terminal-connection.ts:328-338 | a record without gaps is the output's beginning, byte for byte |
| OutputResume.ExactlyOnce | src/ssh-ws-proxy.ts:637-689 | in every run across any drops, resumes, take-overs and silent links: what a terminal wrote for its shell is the shell's output up to receivedBytes, in order and without a repeat, except for announced gaps of output that the history had dropped when they were announced |
| OutputResume.NothingHeldBack | src/ssh-ws-proxy.ts:1212-1219 | an attached terminal with nothing on its way has its shell's whole output |
| OutputResume.ReplayExactIff | src/ssh-ws-proxy.ts:857-859 | the replay is exact if and only if the offset has at most fifteen digits, or the fall-back happens to be where the browser is |
| OutputResume.HugeOffsetSkipsOutput | src/ssh-ws-proxy.ts:857-859 | a sixteen-digit offset loses output without an announcement |
| OutputResume.HugeOffsetLosesOutput | src/ssh-ws-proxy.ts:857-859 | a run in which a terminal that shows 10^15 bytes of its shell misses the next five, and its resumed connection moves it past them without announcing a gap |
| GatewayOutput.StepShows | src/ssh-ws-proxy.ts:577-635 | every handler of `Lifecycle` is a run of the world of `OutputResume` that ends in the matching state: the same shells, attachments, detach points and output lengths |
| GatewayOutput.JointIsRun | src/ssh-ws-proxy.ts:860-1219 | so every interleaving of gateway handlers and browsers is a run of that world |
| GatewayOutput.GatewayShowsExactlyOnce | src/ssh-ws-proxy.ts:637-689 | in every such interleaving each terminal shows its shell's output once and in order up to announced gaps, and of every live shell the gateway's byte count is the length of that output |
| FlowControl.OutputMeter.SendOutput | src/ssh-ws-proxy.ts:975-987 | output that fits the send queues is sent, counts once acks are enabled, and pauses the shell past a megabyte; output that does not fit drops the connection for good |
| FlowControl.OutputMeter.OnOutputAck | src/ssh-ws-proxy.ts:1112-1119 | the first ack enables counting; an ack lowers the count, never below zero; a stopped connection ignores it |
| FlowControl.OutputMeter.OnDrainTick | src/ssh-ws-proxy.ts:1198-1206 | a paused shell resumes if and only if the queue drained and acks are off, the count is below 256 KiB, or acks stalled; only a stall writes the count off, to zero |
| FlowControl.OutputAcker.FlushOutputAck | src/components/ssh-terminal-connection.ts:299-304 | what is pending is acknowledged once, or dropped with the socket |
| FlowControl.OutputAcker.AcknowledgeOutput | src/components/ssh-terminal-connection.ts:305-309 | rendered bytes go out at 32 KiB, or wait for the armed timer |
| FlowControl.UnrenderedIsBounded | src/ssh-ws-proxy.ts:966-987 | in every run, standard error and late reads of a paused shell included: the gateway's count U and the true amount outstanding O satisfy U <= O <= U + (sent before the first ack) + (written off by stalls); the browser never has more to render than a megabyte, one chunk, those amounts and what slipped through since the pause |
| FlowControl.PausedShellResumes | src/ssh-ws-proxy.ts:1198-1206 | from every reachable state, once what is on its way arrived and was acknowledged, the next tick resumes the shell without the stall rule |
| FlowControl.StallReleases | src/ssh-ws-proxy.ts:1198-1206 | from every state, a tick after a stall and a drained queue resumes the shell; what is written off is the count, exactly when that is 256 KiB or more |
| FlowControl.TickResumesIff | src/ssh-ws-proxy.ts:1198-1206 | a tick without a stall resumes a paused shell if and only if the queue drained and acks are off or the count is below 256 KiB, and writes nothing off |
| FlowControl.UndrainedTickDoesNothing | src/ssh-ws-proxy.ts:1199 | a tick with a long queue changes nothing |
| FlowControl.PrintPausesIff | src/ssh-ws-proxy.ts:984-986 | output pauses a running shell if and only if the socket queue is long, or acks are on and more than a megabyte is unacknowledged with it |
| InputSender.InputSender.constructor | src/components/ssh-terminal-input.ts:15-29 | a new sender satisfies the accounting invariant |
| InputSender.InputSender.Schedule | src/components/ssh-terminal-input.ts:31-33 | the retry timer is armed unless the sender is disposed |
| InputSender.InputSender.ArmAckTimer | src/components/ssh-terminal-input.ts:43-53 | the ack timer is armed exactly when something is in flight |
| InputSender.InputSender.TakeChunk | src/components/ssh-terminal-input.ts:54-71 | a chunk is exactly the first min(limit, pending) bytes, the rest stays queued, the head is never fully consumed |
| InputSender.Join | src/components/ssh-terminal-input.ts:66-70 | the parts of a chunk are concatenated in order |
| InputSender.InputSender.Transmit | src/components/ssh-terminal-input.ts:72-78 | a chunk goes on the wire once; a socket that throws ends the sender and sends nothing |
| InputSender.InputSender.SendNext | src/components/ssh-terminal-input.ts:90-97 | the next chunk is on the wire under the next id and left the queue |
| InputSender.InputSender.SendInWindow | src/components/ssh-terminal-input.ts:90-97 | one more chunk goes out, numbered next: all that is pending, unless a chunk or the rest of the window is less |
| InputSender.InputSender.FlushLegacy | src/components/ssh-terminal-input.ts:81-89 | one frame of the first 3 KiB pending goes out if the timer is not armed and the socket keeps up; the timer is armed exactly when the socket is backed up or bytes remain |
| InputSender.InputSender.FlushWindow | src/components/ssh-terminal-input.ts:90-97 | afterwards nothing is queued, or the window is full, or the socket is backed up: input never waits for anything else; pending input that fits one frame goes out as that frame; every new chunk but the last is full |
| InputSender.InputSender.Flush | src/components/ssh-terminal-input.ts:79-99 | after a flush the wire plus the queue is still what was accepted, at most 4 MiB are queued, the window holds at most 16 chunks and 64 KiB with contiguous ids; an open, announced, acknowledging connection holds input back only for a full window or a backed-up socket, and the retry timer is armed only for a backed-up socket or a legacy rest |
| InputSender.InputSender.Enqueue | src/components/ssh-terminal-input.ts:110-121 | text is accepted in full or refused in full: exactly when the sender lives and the queue stays within 4 MiB; typed on an idle connection, up to 12 KiB that fit the window are the next frame, under the next id |
| InputSender.InputSender.Connected | src/components/ssh-terminal-input.ts:122 | until the gateway announced the shell nothing is on the wire (the invariant); from here on what was queued goes out, in order |
| InputSender.InputSender.Acknowledge | src/components/ssh-terminal-input.ts:123-129 | an ack releases exactly the chunks up to its id; one for chunks an ack timeout gave up on changes nothing |
| InputSender.InputSender.AckTimeout | src/components/ssh-terminal-input.ts:46-51 | the window is released, queued input goes out, nothing is sent again |
| InputSender.InputSender.RetryTimeout | src/components/ssh-terminal-input.ts:31-33 | the retry timer flushes; without acknowledgements the next 3 KiB go out |
| InputSender.InputSender.Dispose | src/components/ssh-terminal-input.ts:100-108 | a disposed sender has nothing queued, nothing in flight and no timer |
| Utf16.EncodeIsNotShorter | src/components/ssh-terminal-input.ts:112-116 | encoding never takes fewer bytes than the text has units, so the early length check refuses nothing the byte check would accept |
| Utf16.EncodeIsWellFormed | src/components/ssh-terminal-input.ts:115 | whatever the text, lone surrogates included, its encoding is well-formed UTF-8 |
| Utf16.DecodeInvertsEncode | src/components/ssh-terminal-input.ts:115 | for every text, its encoding decoded is the text, with U+FFFD for each surrogate that has no partner |
| MessagePipeline.GatewayConnection.BufferEarlyMessage | src/ssh-ws-proxy.ts:754-758 | messages are kept in order, and never more than sixteen |
| MessagePipeline.GatewayConnection.EnsureAuthorized | src/ssh-ws-proxy.ts:926-965 | a message waits for the check under way, reacts at once after a recent one, or starts one |
| MessagePipeline.GatewayConnection.OnMessage | src/ssh-ws-proxy.ts:1094-1163 | an end or an invalid message stops the connection and ends the shell; input and resizes react at once when the authorization is recent and none is awaited, else after the check; the listener is the step of the run theorems |
| MessagePipeline.GatewayConnection.AuthorizationSettles | src/ssh-ws-proxy.ts:926-965 | reactions run in the order their messages came; a refusal ends the shell, an unavailable check only stops the connection; the first allowance makes the connection live and announces a stream that is there |
| MessagePipeline.GatewayConnection.ReleaseEarly | src/ssh-ws-proxy.ts:1207-1211 | early messages are handed over in order, before any reaction runs |
| MessagePipeline.GatewayConnection.RunNextCallback | src/ssh-ws-proxy.ts:1137-1155 | allowed input on a live connection is written, or stops the connection when the shell cannot keep up; an allowed resize is kept and sizes an open PTY; nothing else happens |
| MessagePipeline.GatewayConnection.OnShellOpened | src/ssh-ws-proxy.ts:1045-1060 | an opened shell of a live connection gets the latest window, else the requested one, and is announced unless the connection stopped |
| InputPath.StepOrdered | src/ssh-ws-proxy.ts:1094-1163 | every event keeps: what was written, then what is queued, then what is on the wire, is what was sent |
| InputPath.BrowserEvents | src/components/ssh-terminal-input.ts:66-99 | the browser sends accepted input only once it was told of the shell, in order; nothing gets on a cut link |
| InputPath.ArrivalEvents | src/ssh-ws-proxy.ts:754-758 | a message goes to the buffer of sixteen before the connection is live, and to the listener once that is there |
| InputPath.CheckEvents | src/ssh-ws-proxy.ts:1183-1192 | listening starts the first check, a live connection is checked again, a stop is for good |
| InputPath.ShellEvents | src/ssh-ws-proxy.ts:1045-1060 | the shell is requested once, with the window of that moment, and sized and announced when it opens |
| InputPath.ShellGetsPrefixOfInput | src/components/ssh-terminal-input.ts:55-131 | in every run, through windowing, loss, authorization delays and disposal, the bytes written to the shell are a prefix of the accepted input |
| InputPath.SettledInputIsAllWritten | src/ssh-ws-proxy.ts:1127-1159 | while the connection lives nothing sent is lost: with empty queues the shell has all of it |
| InputPath.FramesAreSends | src/components/ssh-terminal-input.ts:72-98 | every list of frames the sender can put on the wire is a run of this link |
| InputPath.WritesOnlyWhenLive | src/ssh-ws-proxy.ts:1137-1150 | only a reaction of a connection that is attached, not stopped and whose shell lives writes to the shell |
| TerminalInput.OnGatewayOk | src/ssh-ws-proxy.ts:860-1219 | claims, authorizations, attachments and ends keep every pipeline in step with its connection and add to a shell's attach order at most the connection that attached |
| TerminalInput.OnLinkOk | src/ssh-ws-proxy.ts:1094-1163 | at any event of one connection only the one that attached last to its shell writes |
| TerminalInput.NoInputCrossesConnections | src/components/ssh-terminal-connection.ts:189-202 | in every orderly run of terminals, connections and shells, through drops, resumes and take-overs: what was written to a shell is, in the order of attachment, a prefix of what each attached connection accepted, each counted once |
| TerminalInput.OlderNeverWritesAgain | src/ssh-ws-proxy.ts:624-634 | once a later connection attached to a shell, an earlier one never writes to it again |
| TerminalInput.EveryKeystrokeHasOneConnection | src/components/ssh-terminal-connection.ts:455-458 | what a terminal accepted is, in the order of dialing, what its connections accepted; it types into the last one only |
| TerminalInput.DroppedSenderIsDone | src/components/ssh-terminal-connection.ts:189-202 | a connection its terminal dropped or replaced accepts and sends nothing any more, whatever happens |
| MixedInput.Flush | src/ssh-ws-proxy.ts:1127-1163 | from every state of an attached connection that nothing cuts or ends there is a way on by which all its sender accepted reaches the shell |
| MixedInput.OverlappingClaimMixes | src/ssh-ws-proxy.ts:860-1192 | from any state of an orderly run: when an open socket claims a shell that another connection, having claimed it, is being authorized for, both terminals keep their connection and no ending message is under way, the run can go on so that both attach and the shell reads any text of the older, then of the newer, then of the older again |
| MixedInput.OverlappingClaimsMixInput | src/ssh-ws-proxy.ts:860-1192 | such a run from the empty gateway: the shell reads 1, 2, 3, of which one connection wrote 1 and 3 |
| PtySize.LastResizeWins | src/ssh-ws-proxy.ts:1043-1060 | in every run whose early buffer did not overflow, once queues are empty the PTY has the last size the browser sent |
| PtySize.EarlyOutcome | src/ssh-ws-proxy.ts:1208-1211 | which size early resizes, pings and acks leave on its way to the PTY, handled twice and out of order, for any number of them and any moment at which the second listener comes |
| PtySize.DrainedPty | src/ssh-ws-proxy.ts:1137-1154 | once the queued reactions ran and the shell is there, its PTY has the size that was on its way |
| PtySize.EarlyLastResizeIff | src/ssh-ws-proxy.ts:754-758 | the PTY ends up with the last early resize if and only if the buffer dropped no resize or dropping it did not matter; with at most sixteen messages it always does |
| PtySize.SeventeenthEarlyResizeIsLost | src/ssh-ws-proxy.ts:754-758 | sixteen resizes to one size and a seventeenth to another: the PTY ends up with the first size |
| InputBudget.MessageBytesBound | src/components/ssh-terminal-input.ts:72-74 | with base64 growth and JSON framing an input message of up to 12 KiB takes at most 64 KiB, a resize at most 40 bytes |
| InputBudget.MessageBytesIsLength | src/components/ssh-terminal-input.ts:72-74 | the size of a message is the length of its JSON text |
| InputBudget.UnwrittenBound | src/components/ssh-terminal-input.ts:90-97 | unwritten input is at most one window, and one more for each ack timeout |
| InputBudget.NextMessageBound | src/ssh-ws-proxy.ts:1127 | what would be pending with the next message, in slots and in bytes, after any number of ack timeouts |
| InputBudget.ArrivalIff | src/ssh-ws-proxy.ts:1127 | a message is taken if and only if with it 64 messages, 256 KiB and 8 MiB over all connections are not exceeded |
| InputBudget.SendsWithinLimits | src/components/ssh-terminal-input.ts:90-97 | the sender sends exactly what its window of 16 chunks and 64 KiB allows, the browser grids of at most 500 by 1000 |
| InputBudget.WrittenIsAcknowledged | src/ssh-ws-proxy.ts:1145-1155 | the first pending input is the one written, and each is acknowledged once, in order |
| InputBudget.ThreeWindowsAreTooMuch | src/ssh-ws-proxy.ts:1127 | a run with two ack timeouts, no resize and no other connection in which the gateway refuses the eighteenth chunk |
| InputBudget.TooManyAreRefused | src/ssh-ws-proxy.ts:1127 | a run in which 49 resizes beside a full window are refused, and one in which 33 after an ack timeout are |
| InputBudget.NoRefusalIff | src/ssh-ws-proxy.ts:1127-1159 | without resizes, and while the other connections leave this one 256 KiB of the common 8 MiB: no run with exactly n ack timeouts is refused if and only if n <= 1, for every n the browser's ids allow |
| CommonBudget.LimitsHoldInEveryRun | src/ssh-ws-proxy.ts:1127-1159 | in every run of any number of connections, whatever browsers send: each has at most 64 messages and 256 KiB pending, all together at most 8 MiB |
| CommonBudget.WindowNeverTripsLimits | src/ssh-ws-proxy.ts:1127-1159 | in every run of k connections, at every state in which each had at most n ack timeouts, all together at most m, and each has at most r resizes under way: the gateway accepts every connection's next message, by its slots, its own and the common bytes, if n <= 1, r + 16 (n + 1) <= 64 and the k + m windows and the resizes fit 8 MiB |
| CommonBudget.OthersLeaveRoom | src/ssh-ws-proxy.ts:1127 | in every run of up to 32 connections the others leave each one its own 256 KiB of the common limit |
| CommonBudget.FullWindowsAreTooMany | src/ssh-ws-proxy.ts:1127 | a run in which k connections send a full window each, and m of them a second one after an ack timeout, has a message refused once that is 96 windows; no resize is sent |
| CommonBudget.TimeoutsIff | src/ssh-ws-proxy.ts:1127-1159 | for all k and m: no run of k connections with at most one ack timeout each, at most m in all, and no resize has a message refused if and only if k + min(k, m) <= 95 |
| CommonBudget.RefusalIff | src/ssh-ws-proxy.ts:1127-1159 | for up to 64 connections k and all n and r: no run in which each has at most n ack timeouts and r resizes under way has a message refused if and only if n <= 1, r + 16 (n + 1) <= 64, and k <= 47 when n = 1 |
| InputBudget.WindowIsSends | src/components/ssh-terminal-input.ts:90-97 | whatever extends the sender's window within its limits was sent by the steps of this model |
| InputBudget.AckReleases | src/components/ssh-terminal-input.ts:123-129 | for an ack both halves release the same chunks |
| InputBudget.Enqueue | src/components/ssh-terminal-input.ts:110-121 | what a live sender sends when text is accepted is a run of this model that ends in the sender's chunks and window |
| InputBudget.Connect | src/components/ssh-terminal-input.ts:122 | so is what it sends when the shell is announced |
| InputBudget.Retry | src/components/ssh-terminal-input.ts:31-33 | so is what it sends when the retry timer fires |
| InputBudget.Acknowledge | src/components/ssh-terminal-input.ts:123-129 | so is what it sends when an ack arrives, after the same release |
| InputBudget.AckTimeout | src/components/ssh-terminal-input.ts:46-51 | so is what it sends after an ack timeout |
| TerminalConnection.BrowserConnection.OnEvent | src/components/ssh-terminal-connection.ts:166-471 | whatever happens, the handlers do to the variables what the state machine does, and keep one attempt at a time that is never stuck |
| TerminalConnection.AttemptsBegin | src/components/ssh-terminal-connection.ts:239-260 | a reconnect, a wake without a socket and an unanswered heartbeat begin an attempt with a fresh retry window; a due retry begins one in the same window, an early one none |
| TerminalConnection.TokenDecides | src/components/ssh-terminal-connection.ts:262-293 | a token opens the socket, a failed request is retried, a missing token or session waits for the user |
| TerminalConnection.MessageShows | src/components/ssh-terminal-connection.ts:322-396 | every message disarms the deadline; an announcement connects, ends the outage and starts the heartbeat; an error or an end is shown and decides whether the user is asked |
| TerminalConnection.CloseDecides | src/components/ssh-terminal-connection.ts:399-416 | a closed socket is shown as the gateway said, else as a drop or a failure; then the user is asked, or within three minutes of the outage a retry is armed 1, 2, 4, 8 or 15 seconds later, or it is over |
| TerminalConnection.DropIsRetriedInEveryRun | src/components/ssh-terminal-connection.ts:210-230 | in every run a connected terminal counts no outage, and when its socket drops it tries again one second later, unless the user has to decide |
| TerminalConnection.ProbesOnce | src/components/ssh-terminal-connection.ts:239-243 | a wake or a tick of a connection with a socket arms the deadline once, only where the gateway answers pings and the socket is open |
| TerminalConnection.DisposeStopsAll | src/components/ssh-terminal-connection.ts:421-426 | disposal drops the socket, the retry and the heartbeat and shows nothing |
| TerminalConnection.StepSingle | src/components/ssh-terminal-connection.ts:190-276 | every event keeps one attempt at a time |
| TerminalConnection.SingleAttemptInEveryRun | src/components/ssh-terminal-connection.ts:190-276 | in every run the one socket that is listened to belongs to the current attempt, and a socket, an awaited token and an armed retry exclude each other |
| TerminalConnection.SupersededIsSilent | src/components/ssh-terminal-connection.ts:322-323 | events of superseded attempts change nothing |
| TerminalConnection.DisposedForGood | src/components/ssh-terminal-connection.ts:421-426 | after disposal no socket is opened, no state emitted, no attempt started, whatever happens |
| TerminalConnection.WaitingStartsIff | src/components/ssh-terminal-connection.ts:239-253 | while the user has to decide, an event starts an attempt if and only if it is the user's reconnect or the deadline of the socket still open |
| TerminalConnection.HeartbeatIgnoresTheWait | src/components/ssh-terminal-connection.ts:239-253 | a run from the start after which the connection waits for the user and the deadline starts attempt 2 |
| TerminalConnection.WaitsForUser | src/components/ssh-terminal-connection.ts:433-454 | with the socket closed, only the user's reconnect starts another attempt, in every run |
| TerminalConnection.SettleNeverStuck | src/components/ssh-terminal-connection.ts:210-230 | a settled attempt leaves a retry armed, a wait for the user, or an outage past the window |
| TerminalConnection.NeverStuckInEveryRun | src/components/ssh-terminal-connection.ts:210-293 | in every run a started connection without a socket or an awaited token has a retry armed, waits for the user, or gave up after the window |
| TerminalConnection.WakeStartsIff | src/components/ssh-terminal-connection.ts:440-454 | a wake starts an attempt if and only if nothing is under way and the user does not have to decide |
| TerminalConnection.DelaysTable | src/components/ssh-terminal-connection.ts:43-44 | how long the first n delays take together |
| TerminalConnection.StepPaced | src/components/ssh-terminal-connection.ts:210-230 | each scheduled retry is due no earlier than the delays before it allow |
| TerminalConnection.RetriesAreBounded | src/components/ssh-terminal-connection.ts:210-230 | left to itself, whatever fails however often, an outage schedules at most fifteen retries |
| TerminalConnection.FifteenRetriesHappen | src/components/ssh-terminal-connection.ts:210-230 | fifteen are reached, so the bound is exact |
| NormalizeIndent.JoinOfSplit | scripts/normalize-indent.ts:52-107 | joining the lines of a text gives the text |
| NormalizeIndent.SplitOfJoin | scripts/normalize-indent.ts:52-107 | splitting joined lines gives the lines |
| NormalizeIndent.CountVotes | scripts/normalize-indent.ts:61-74 | the loop counts the tab lines, the space lines, and the space lines of every width |
| NormalizeIndent.VotesIff | scripts/normalize-indent.ts:63 | a line has a vote if and only if `^([ \t]+)\S` matches it, and the match is its indentation |
| NormalizeIndent.RewritableIff | scripts/normalize-indent.ts:83-84 | a line may be rewritten if and only if `^([ \t]+)(\S.*)?$` matches it with its second group; any other stays as it is |
| NormalizeIndent.StyleIsMajority | scripts/normalize-indent.ts:75-79 | a file is left alone unless both styles occur; the style is tabs if and only if tab-indented lines are no fewer; the width is four if and only if every space-indented line is indented by a multiple of four |
| NormalizeIndent.TabForm | scripts/normalize-indent.ts:87-100 | in the tab style a line becomes tabs and fewer spaces than a tab is wide, up to the column it had |
| NormalizeIndent.SpaceForm | scripts/normalize-indent.ts:102-104 | in the space style a line gets one space for each space and a width of spaces for each tab |
| NormalizeIndent.ChangedIsCounted | scripts/normalize-indent.ts:80-107 | the count is the number of lines that differ |
| NormalizeIndent.IndentWidth | scripts/normalize-indent.ts:78-79 | two if some space indentation is not a multiple of four, else four |
| NormalizeIndent.TabIndentOf | scripts/normalize-indent.ts:90-98 | the character loop computes the tabs and spaces of the column the indentation reaches with tab stops |
| NormalizeIndent.RewriteOne | scripts/normalize-indent.ts:83-105 | which lines are rewritten, and how |
| NormalizeIndent.RewriteLines | scripts/normalize-indent.ts:80-106 | unprotected lines are rewritten, and the changed ones are counted exactly |
| NormalizeIndent.NormaliseText | scripts/normalize-indent.ts:51-108 | nothing for a file that is not mixed, else its lines rewritten in the winning style |
| NormalizeIndent.RewriteLineKeepsContent | scripts/normalize-indent.ts:83-105 | everything after the indentation stays, and so does whether the line votes and may be rewritten |
| NormalizeIndent.LineKeepsColumnIff | scripts/normalize-indent.ts:87-103 | no rewritten line moves left; it keeps its column if and only if the style is tabs or its own tabs were aligned |
| NormalizeIndent.MisalignedTabMoves | scripts/normalize-indent.ts:102-103 | a file whose first line moves from column 2 to column 3 |
| NormalizeIndent.SpaceIndentKeepsColumnIff | scripts/normalize-indent.ts:102-103 | replacing tabs by spaces reaches the same column if and only if every tab started at a tab stop |
| NormalizeIndent.CountsAfter | scripts/normalize-indent.ts:61-106 | a pass never costs the winning style a vote and never gives the losing one any |
| NormalizeIndent.SecondPassChangesNothing | scripts/normalize-indent.ts:61-106 | a second vote finds no mix, or the same style, and nothing left to rewrite |
| NormalizeIndent.Idempotent | scripts/normalize-indent.ts:51-108 | normalising twice is normalising once, although style and width are voted on again |
| NormalizeIndent.OnePassIsEnough | scripts/normalize-indent.ts:51-108 | any number of passes gives what one pass gives |
| NormalizeIndent.ContentPreserved | scripts/normalize-indent.ts:51-108 | number of lines, protected lines and everything after each indentation are unchanged |
| NormalizeIndent.ChangedIff | scripts/normalize-indent.ts:80-107 | no line is counted as changed exactly when the text is the same |
| NormalizeIndent.StaysMixedIff | scripts/normalize-indent.ts:1-8 | a pass leaves a file mixed if and only if a line of the losing style cannot be rewritten or is too narrow for a tab |
| NormalizeIndent.CrlfStaysMixed | scripts/normalize-indent.ts:83-84 | a CR LF file that is mixed after any number of passes |
| GuacamoleInstruction.ElementDecoded | src/components/rdp-tunnel.ts:134-137 | an element's text is found by its length in characters, whatever it contains, surrogates included |
| GuacamoleInstruction.DecodeInvertsEncode | src/components/rdp-tunnel.ts:131-138 | every text decodes to given elements and a rest exactly when it is their encoding followed by that rest |
| GuacamoleInstruction.UniquelyDecodable | src/components/rdp-tunnel.ts:131-138 | of non-empty lists, one encoding is a prefix of another only if the lists are equal |
| GuacamoleInstruction.StreamIsUnique | src/components/rdp-tunnel.ts:131-138 | a stream of instructions determines them without frame boundaries |
| GuacamoleInstruction.SyncOnTheWire | src/components/rdp-tunnel.ts:132-138 | a frame answer is `4.sync,` with the length of the time, a dot, the time and a semicolon |
| GuacamoleInstruction.PairOnTheWire | src/components/rdp-tunnel.ts:134-137 | a surrogate pair counts as one character |
| GuacamoleInstruction.TunnelSender.SendMessage | src/components/rdp-tunnel.ts:131-138 | the frame answer of a hidden desktop is held, only the latest one; everything else goes out, and the stream stays the encoding of what was sent |
| GuacamoleInstruction.TunnelSender.ReleaseSync | src/components/rdp-tunnel.ts:52-57 | shown again, the held answer goes out once |

## Left out

- The SSH client, the WebSocket library, the terminal widget, the database, session tokens and
  cryptography: their outcomes are steps that may happen or not (allowed, refused, unavailable; a
  socket closes; a stream opens, prints or goes away).
- Unauthenticated places, origin and handshake checks, per-user connection counts, audit logging and SSH
  configuration: decided before a shell is claimed, and without effect on it afterwards.
- Base64 and JSON are taken as lossless; only the size of their output is modelled, in `InputBudget`.
- Clocks: timers are steps that may fire at any time, except in the retry bound, which counts
  milliseconds of a clock that does not run backwards. The idle timer is one of the ways a shell ends.
- Texts of messages and the numbers of pings, and what the page shows; of the browser's connection state only
  the status, the retry and the wait for the user.
- Mouse-echo detection, terminal modes, font sizes and quick keys: tables and single decisions of the
  page.
- Aliasing of byte arrays: a chunk is a value, so a view into a larger buffer and its copy are the same.
- OutputResume.StepKeeps: shells are claimed only once they started, because their unguessable id is
  announced only then.
- OutputResume.ExactlyOnce: for outputs below 10^15 bytes, beyond which the code does not have the property
  (`ReplayExactIff`).
- OutputResume.SessionFaithful: same bound, for the same reason.
- GatewayOutput.GatewayShowsExactlyOnce: same bound; for gateways that keep shells (a TTL above 0), and for claims of shells whose
  id was announced. Which closing message a browser gets is not part of the matching state.
- ShellSessions.ShellSession.RecordShellOutput: of an ended shell only the byte count is kept in step, because
  ending clears the history but not its start.
- ShellHistory.ReplayIsExact: clients that send no offset continue from the detach point; what such a client had
  received by then is not modelled.
- InputSender.InputSender.Acknowledge: an id that JSON reads as infinity is not modelled; it releases
  everything, like any id above the last one.
- InputBudget.NoRefusalIff: while the others leave a connection its share of the common limit (`CommonBudget` drops that), and
  up to 15 ack timeouts short of 2^53 chunks, where the browser's numbering ends.
- CommonBudget.RefusalIff: k counts a dropped connection until nothing of it is pending, while the gateway admits a new one
  as soon as it is gone; a resize that the early buffer hands over again counts as another resize.
- CommonBudget.WindowNeverTripsLimits: same counting.
- InputBudget.Enqueue: what a sender sends in the very call in which its socket throws is not followed further.
- TerminalInput.NoInputCrossesConnections: for orderly runs; in others two connections hold one shell at once
  (`StepPlacesIffOrderly`), and both may write (`OverlappingClaimMixes`).
- MessagePipeline.GatewayConnection.OnMessage: pings and output acknowledgements are one message that changes nothing here; their
  own rate limit ends the connection like an invalid message.
- NormalizeIndent.NormaliseText: which lines are protected comes from the TypeScript parser and is a parameter, the same for
  both passes.
- Reading and writing files, and the command line of the normaliser.
- The rest of the tunnel: tickets, ping bookkeeping, timeouts and the Guacamole parser.
- Everything else in the repository: pages, dashboards, audit scripts, seeds and deployment.
