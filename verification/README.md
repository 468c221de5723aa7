# Verified model of the Tokilake AI gateway

This project models the stateful core of the gateway in Dafny and proves what it guarantees over every input, every
run and every interleaving. Code that changes state step by step is modelled by classes and methods whose `ensures`
tie the new state to a function of the old one; concurrent code is modelled by its single steps, and a run is any
sequence of steps of any of the goroutines involved, where a step that cannot happen changes nothing. Main results are
lemmas over all runs. Where a property does not hold of the code as written, the project keeps the code, shows a run
that breaks it, and proves exactly when it holds.

| file | what it models |
|---|---|
| `ControlPlane.dfy` | the control protocol: the gateway's read loop for arbitrary input, then worker and gateway joined by FIFO channels |
| `SessionTable.dfy` | the session manager's namespace, channel and in-flight tables |
| `TunnelRequest.dfy` | caller, context watcher and body pump of tunnelled requests, and the compare-and-swap limiter they share |
| `TunnelStream.dfy`, `WebsocketConn.dfy` | a response body from local reads to frames, lines, byte pieces and the gateway's pipe |
| `Basics.dfy` | types shared by several modules |
| `PathMerge.dfy`, `Text.dfy` | merging a target's base path with a request path |
| `RateLimiter.dfy` | the in-memory sliding-window limiter against a specification over the whole history |
| `ChannelIndex.dfy`, `Channels.dfy`, `ChannelTexts.dfy` | the channel index, cooldowns, and the choice by priority tier and weight; then the same from the channels' own texts |
| `Relay.dfy` | the retry loop with its skip list, primary and backup groups |
| `QuotaBatch.dfy` | the batched quota writer against the direct one |
| `BatchInsert.dfy` | the bisecting bulk insert against row-by-row insertion |
| `Payment.dfy` | payment callbacks under the double-checked lock map, with orders being closed |
| `PrivateGroup.dfy`, `PrivateGroupAccess.dfy` | private groups, grants and invite codes; then who may do what with a group |

## What does not hold of the code, and exactly when it does

- The limiter forgets accepts that a longer window still needs. It meets the specification on all runs if and only if
  no sweeper was started or every duration is at most the expiration plus one second
  (`RateLimiter.RefinesExactlyWhen`). A limit of 0 acts as 1.
- Payment locks are keyed by the gateway number while orders are looked up by the trade number. Each order is credited
  at most once in every interleaving if and only if no two callbacks of a payable order carry different gateway numbers
  (`Payment.AtMostOnceExactlyWhen`).
- A failed flush loses its delta. For any set of updates that may fail, every interleaving that flushes everything
  leaves the rows of the direct code if and only if no update in the set is of an existing row
  (`QuotaBatch.BatchedEqualsDirectExactlyWhen`).
- Storing a cooldown leaves an existing entry alone, whether expired or live. A failure cools a channel throughout its
  period if and only if there is no entry for it or that entry lasts at least as long
  (`Channels.FailureCoolsExactlyWhen`).
- A second claim strands the session's earlier namespace entry. A claim keeps the table sound if and only if there is
  no such entry (`SessionTable.ClaimKeepsExactlyWhen`). A release removes a session that binds a channel from the tables
  if and only if the channel is not 0 (`SessionTable.ReleaseClearsExactlyWhen`).
- A slot is not released when writing the request fails, so the counter is the requests in progress plus those
  (`TunnelRequest.Accounting`). Slots are counted and given back by the limit of the moment, so this holds in every run
  if and only if all limits in use are positive (`TunnelRequest.AccountingExactlyWhen`). The counter stays at zero or
  above in every run if and only if a positive limit can never follow one that is not positive
  (`TunnelRequest.NonNegativeExactlyWhen`). Heartbeats and model syncs only install positive limits, so the limit that
  is not positive can only be the one a registration installs.
- An admin grant to a group's owner turns the owner's row into a member's row. The owner keeps access in every
  continuation in which nobody asks for the deletion or such a grant if and only if the row is still an owner's row, not
  revoked and without an end, and no such request is waiting to be written
  (`PrivateGroup.OwnerKeepsAccessExactlyWhen`).
- A status change reads a code's row and later writes the whole row. A code's count is the number of its created
  redemptions, throughout a run, if and only if no save writes a row read before a redemption of the code
  (`PrivateGroup.UsesCountedExactlyWhen`); otherwise a code of one use can create two grants
  (`PrivateGroup.StaleSaveBreaksBudget`).
- Checks and writes of most private-group requests are separate statements, and a rename writes the whole row as it was
  read, so one that is saved after a deletion makes the group live again. After a deletion the grants stay revoked and
  the codes disabled, in every continuation that saves no rename of another group, if and only if no save of the group
  under a free slug, grant, new code or enabling of a code that passed its checks before is waiting to be written
  (`PrivateGroup.DeletionIsAbsorbingExactlyWhen`); nobody can use the group if and only if no such save is waiting
  (`PrivateGroup.DeletedIsUnusableExactlyWhen`). Renames of other groups can only matter to a save whose slug another
  row has: it goes through once a live holder is renamed (`PrivateGroup.BlockedSaveGoesThrough`), and never if no save of
  the group waits or only saves that deleted groups in the same position block (`PrivateGroup.DeletedIsNeverUsable`,
  `PrivateGroup.DeletionIsAbsorbing`).
- The gateway closes a response's pipe with the error that ended the stream, and closing a pipe with io.EOF is a plain
  end of file. A reader that sees a plain end of file has the whole of a body that ended well, at whatever byte the
  stream ends, if and only if the stream does not end with io.EOF or there is no body to lose and no error to report
  (`TunnelStream.CleanMeansWholeExactlyWhen`).

## Model

| member | source | states |
|---|---|---|
| `ControlPlane.GatewaySession.HandleMessage` | tokilake-core/gateway.go:115-299 | one message: the new session, the call out, the reply and whether the loop ends, as `Handle` and `Trace` give them |
| `ControlPlane.GatewaySession.ServeControlStream` | tokilake-core/gateway.go:115-299 | the read loop's final session and whole event log are those of `Serve` |
| `ControlPlane.TraceAccepted` | tokilake-core/gateway.go:115-299 | handling one message is accepted by the protocol monitor and leaves the monitor in step with the session |
| `ControlPlane.ServeAccepted` | tokilake-core/gateway.go:115-299 | for every message sequence the log is accepted: every handled request gets exactly one reply, with its own request id, before the next message is read |
| `ControlPlane.OrderOfCalls` | tokilake-core/gateway.go:115-299 | in an accepted log calls follow authentication, heartbeats and syncs follow a successful registration, and no registration follows one |
| `ControlPlane.ErrorReplyIsLast` | tokilake-core/gateway.go:321-330 | in an accepted log an error reply is the last event |
| `ControlPlane.RegistryCalls` | tokilake-core/gateway.go:115-299 | the same order of registry calls for every input to the loop of a fresh session |
| `ControlPlane.HandshakeSucceeds` | tokiame/client.go:450-512 | a handshake request that is due either makes the expected call and is acknowledged or fails for the callee's own reasons |
| `ControlPlane.SteadySucceeds` | tokiame/client.go:602-636 | heartbeats of a synced worker are acknowledged or fail for the registry's own reasons |
| `ControlPlane.AckMeansDone` | tokiame/client.go:514-549 | the acknowledgement the worker waits for arrives only after the gateway made the call of that stage |
| `ControlPlane.DeliverKeepsInv` | tokilake-core/gateway.go:115-299 | the gateway handling the next message keeps the invariant of the joined system |
| `ControlPlane.ReceiveKeepsInv` | tokiame/client.go:514-598 | the worker receiving the next message keeps the invariant of the joined system |
| `ControlPlane.StepKeepsInv` | tokiame/client.go:311-349 | every step of worker, gateway or channels keeps the invariant of the joined system |
| `ControlPlane.RunKeepsInv` | tokiame/client.go:311-349 | so does every run |
| `ControlPlane.ProtocolHolds` | tokiame/client.go:311-349 | in every run over WebSocket or QUIC the successful calls come in the expected order, the gateway never answers not_authenticated, not_registered, already_completed or payload_missing, and a worker in its heartbeat loop has been registered and synced |
| `ControlPlane.RefusedExactlyWhen` | tokilake-core/gateway.go:115-299 | which messages in which session state get not_authenticated, not_registered, already_completed and unsupported_message_type, each exactly; a refusal leaves the session as it is, and only acks and errors go unanswered |
| `ControlPlane.HandshakeCompletes` | tokiame/client.go:450-512 | a worker that is let through ends in its heartbeat loop, registered under the id it was given, after exactly the calls of its transport |
| `ControlPlane.BeatIsAnswered` | tokiame/client.go:602-636 | in every reachable state a running worker's heartbeat reaches the registry and is acknowledged, or fails with heartbeat_failed and ends the session |
| `SessionTable.SessionManager.NewGatewaySession` | tokilake-core/session_manager.go:96-107 | a session with an unused id and empty fields is added, nothing else changes |
| `SessionTable.SessionManager.ClaimNamespace` | tokilake-core/session_manager.go:109-120 | fails without a change exactly when another session holds the namespace, and otherwise gives it to the session |
| `SessionTable.SessionManager.BindChannel` | tokilake-core/session_manager.go:122-137 | the table after binding, including the unconditional removal of the previous channel's entry |
| `SessionTable.SessionManager.Release` | tokilake-core/session_manager.go:139-154 | the session's own entries and requests go, and exactly those requests are cancelled |
| `SessionTable.SessionManager.TrackRequest` | tokilake-core/session_manager.go:170-177 | the request is tracked unless its id is empty |
| `SessionTable.SessionManager.RemoveRequest` | tokilake-core/session_manager.go:179-186 | the request is no longer tracked |
| `SessionTable.SessionManager.CancelRequestsForSession` | tokilake-core/session_manager.go:198-211 | exactly the session's requests are cancelled and removed |
| `SessionTable.ClaimKeepsExactlyWhen` | tokilake-core/session_manager.go:109-120 | a claim keeps "entry implies session field" if and only if it strands no earlier namespace entry |
| `SessionTable.BindKeepsMatch` | tokilake-core/session_manager.go:122-137 | binding a non-zero channel keeps "entry implies session field" |
| `SessionTable.ZeroChannelIsNeverReleased` | tokilake-core/session_manager.go:139-154 | after binding channel 0 the release leaves an entry of the session behind |
| `SessionTable.UnlistClears` | tokilake-core/session_manager.go:139-154 | the locked half of release leaves no entry of the session and brings back none of another released session |
| `SessionTable.StepKeepsInv` | tokilake-core/session_manager.go:109-211 | every operation keeps the table invariant, and a session being released stays out of the tables |
| `SessionTable.HeldNamespaceStaysHeld` | tokilake-core/session_manager.go:109-154 | in every run a held namespace is never given to another session before its holder begins a release |
| `SessionTable.ReleaseClearsExactlyWhen` | tokilake-core/session_manager.go:122-154 | after binding a channel, a release leaves no entry of the session if and only if the channel is not 0 |
| `SessionTable.RunKeepsInv` | tokilake-core/gateway.go:174-193 | in every run where sessions claim one namespace and bind non-zero channels, each entry at key k points to a session whose field is k |
| `SessionTable.ReleaseLeavesNothing` | tokilake-core/session_manager.go:139-154 | right after the cancel step of a release no table entry and no tracked request refers to the session |
| `SessionTable.ClaimSucceedsExactlyWhen` | tokilake-core/session_manager.go:109-120 | a session gets a namespace exactly when it is free or its own, and then holds it; otherwise nothing changes |
| `SessionTable.BoundChannelIsFound` | tokilake-core/session_manager.go:122-137 | after binding, the channel leads to the session, the session's previous channel leads nowhere, and every other channel where it led before |
| `SessionTable.ReleasedCanBeClaimed` | tokilake-core/session_manager.go:109-154 | once its holder has begun a release, another session can claim the namespace |
| `SessionTable.TrackedUntilRemoved` | tokilake-core/session_manager.go:170-211 | in every run a tracked request is found until it is removed, tracked anew or cancelled with its own session |
| `SessionTable.TrackThenRemove` | tokilake-core/session_manager.go:170-186 | tracking enters the request under its session, and removing it restores the table |
| `SessionTable.EmptyIdIsNeverTracked` | tokilake-core/session_manager.go:170-177 | in every run a request without an id is not tracked |
| `TunnelRequest.CleanupKeepsInv` | tokilake-core/roundtrip.go:84-95 | each step of the once-guarded cleanup keeps its invariant, and its last step has released once, untracked and closed `completed` before |
| `TunnelRequest.RequestStepKeepsInv` | tokilake-core/roundtrip.go:45-178 | every step of caller, watcher or pump keeps the request's invariant |
| `TunnelRequest.RequestStepCounts` | tokilake-core/session_manager.go:47-66 | with a positive limit the shared counter moves exactly with the request's slot, and grows only by a swap from the value read |
| `TunnelRequest.ReadyBelowLimit` | tokilake-core/session_manager.go:47-60 | a caller about to swap has read a value below the limit |
| `TunnelRequest.RunCounts` | tokilake-core/session_manager.go:47-66 | over every interleaving with positive limits the counter is the sum of the slots |
| `TunnelRequest.Accounting` | tokilake-core/roundtrip.go:45-123 | over every such interleaving the counter equals the requests in progress plus those that ended in the write-failure branch |
| `TunnelRequest.AccountingExactlyWhen` | tokilake-core/session_manager.go:47-66 | with limits from a given set the accounting holds in every run if and only if the first limit and all of the set are positive |
| `TunnelRequest.RunBounded` | tokilake-core/session_manager.go:47-66 | with a fixed limit every interleaving keeps the counter at or below it |
| `TunnelRequest.LimitHolds` | tokilake-core/session_manager.go:47-66 | with a fixed positive limit the counter is between 0 and the limit in every run |
| `TunnelRequest.RefusedOnlyWhenFull` | tokilake-core/session_manager.go:47-60 | with a fixed limit, a request is refused in a run only if the limit is positive and at some earlier point of the run all its slots were taken |
| `TunnelRequest.EveryoneFits` | tokilake-core/session_manager.go:47-60 | with no more requests than slots none is refused in any interleaving |
| `TunnelRequest.GetsIn` | tokilake-core/roundtrip.go:45-123 | a request alone takes one slot and is tracked, watched, answered and pumped |
| `TunnelRequest.GetsOut` | tokilake-core/roundtrip.go:84-95 | when its pump has ended the slot is free, the request untracked and the watcher told |
| `TunnelRequest.EachRequest` | tokilake-core/roundtrip.go:84-140 | in every run a request has released exactly once when its call has returned and no pump runs, and not before; it sends at most one cancel_request and only when its context was cancelled from outside, and once finished is no longer tracked |
| `TunnelRequest.CancelIsSent` | tokilake-core/roundtrip.go:125-140 | a watched, incomplete request whose context ends from outside gets exactly one cancel_request sent |
| `TunnelRequest.SessionEndCancels` | tokilake-core/session_manager.go:198-211 | the end of a session untracks its tracked requests and ends their contexts, so that watched, incomplete ones get their cancel_request; counter and other requests stay |
| `TunnelRequest.RetuneBreaks` | tokilake-onehub/registry.go:104-106 | from any limit that is not positive, a request in progress while the limit turns positive leaves the counter at -1 |
| `TunnelRequest.NeverPositiveAgain` | tokilake-core/session_manager.go:47-66 | once no positive limit can come, the counter never falls below zero, whatever slots were taken before |
| `TunnelRequest.NonNegativeExactlyWhen` | tokilake-core/session_manager.go:47-66 | with limits from a given set the counter stays at zero or above in every run if and only if a positive limit can never follow one that is not positive |
| `TunnelStream.FrameWriter.WriteResponse` | tokilake-core/tunnel_stream.go:111-125 | sends the frame's line, or fails having sent the part of it that the stream still took |
| `TunnelStream.FrameWriter.WriteBody` | tokiame/client_data.go:252-310 | the read loop sends the encoding of the local reads' frames up to the byte where the stream breaks, and succeeds if all of it fits |
| `TunnelStream.FrameWriter.WriteHTTPResponse` | tokiame/client_data.go:252-310 | the same for header and body together; success means that the body ended well and was sent whole |
| `TunnelStream.EncodeConcat` | tokilake-core/tunnel_stream.go:111-125 | encoding frames in two parts and joining the bytes is encoding them all |
| `TunnelStream.FrameReader.ReadLine` | tokilake-core/tunnel_stream.go:94-109 | however the stream is cut, a read takes exactly the bytes up to the next newline |
| `TunnelStream.FrameReader.ReadResponse` | tokilake-core/tunnel_stream.go:94-109 | skips blank lines and decodes the next one; what it returns and leaves depends only on the bytes, not on their cut; the stream's own error comes out unwrapped, a decoding error does not |
| `TunnelStream.NextOfEncoded` | tokilake-core/tunnel_stream.go:94-125 | reading what was written gives the frame back and leaves the rest |
| `TunnelStream.PumpTunnelBody` | tokilake-core/roundtrip.go:142-178 | the bytes the pipe's reader gets and the end it sees are `Pumped` of the first frame, the remaining bytes and the error the stream ends with |
| `TunnelStream.ReceiveResponse` | tokilake-core/roundtrip.go:97-123 | status, expanded headers and pumped body as the reader sees it, or the error of the first frame |
| `TunnelStream.ExpandHeaders` | tokilake-core/roundtrip.go:215-224 | exactly the headers whose name and value are not blank |
| `TunnelStream.DrainPlays` | tokilake-core/roundtrip.go:142-178 | pumping the encoded frames is playing the frames |
| `TunnelStream.PlayBody` | tokilake-core/roundtrip.go:142-178 | playing a body's frames delivers its bytes and its ending |
| `TunnelStream.BodyArrives` | tokiame/client_data.go:252-310 | for every body, every cut into local reads and every cut of the stream the pipe delivers exactly that body and closes cleanly, or after a failed read exactly the bytes read before and then the error |
| `TunnelStream.PartialIsPrefix` | tokilake-core/roundtrip.go:142-178 | playing fewer frames, or to a reader that leaves, delivers a prefix, and a clean end that is not the stream's io.EOF only with everything |
| `TunnelStream.CutPlays` | tokilake-core/tunnel_stream.go:94-109 | a stream cut at any byte is pumped as some of its first frames |
| `TunnelStream.StrictPrefixIsCut` | tokilake-core/roundtrip.go:156-161 | before the last frame of a body a reader that stays sees the stream's own end, whatever it has got |
| `TunnelStream.CutDelivers` | tokilake-core/roundtrip.go:97-178 | at whatever byte the stream is cut the reader gets a prefix of the body, and without io.EOF a plain end of file only after the whole of a body that ended well |
| `TunnelStream.HeaderOnlyLooksComplete` | tokilake-core/roundtrip.go:158-160 | for every response, a stream that ends with io.EOF right after the header looks complete and empty |
| `TunnelStream.CleanMeansWholeExactlyWhen` | tokilake-core/roundtrip.go:142-178 | at whatever byte the stream ends, a plain end of file means a whole body that ended well, if and only if the stream does not end with io.EOF or there is no body to lose and no error to report |
| `TunnelStream.GarbageIsNoticed` | tokilake-core/roundtrip.go:97-178 | a line that is no frame gives no response in place of the first frame, and later exactly the chunks before it and then a failure, never a clean end |
| `TunnelStream.ErrorIsNoResponse` | tokilake-core/roundtrip.go:97-123 | a first frame that reports an error gives no response |
| `TunnelStream.HeadersArrive` | tokilake-core/roundtrip.go:215-224 | exactly the headers whose name and value both hold something besides white space arrive, unchanged |
| `WebsocketConn.WebsocketStreamConn.Read` | tokilake-core/ws_conn.go:20-43 | returns the next unread bytes, at most the size asked for, skipping messages that are not binary and empty ones, and fails only at the end |
| `WebsocketConn.WebsocketStreamConn.Write` | tokilake-core/ws_conn.go:45-63 | the outgoing payload grows by the data, as one binary message |
| `WebsocketConn.WebsocketStreamConn.ReadAll` | tokilake-core/ws_conn.go:20-43 | reads of any positive sizes give exactly the unread stream |
| `WebsocketConn.BoundariesInvisible` | tokilake-core/ws_conn.go:20-63 | the stream read back is the concatenation of the writes |
| `PathMerge.SplitURLPathSegments` | tokiame/client_data.go:363-381 | the trimmed, non-empty segments of a path |
| `PathMerge.PathSegmentsEqual` | tokiame/client_data.go:383-393 | true if and only if the segment lists are equal |
| `PathMerge.MergeTargetPath` | tokiame/client_data.go:331-361 | the merged path of `MergedPath`, including the cases where a side has no segments |
| `PathMerge.FindOverlap` | tokiame/client_data.go:345-352 | the downward search finds the overlap |
| `PathMerge.OverlapIsLongest` | tokiame/client_data.go:345-352 | the overlap is the longest suffix of the base that is a prefix of the request |
| `PathMerge.MergedCovers` | tokiame/client_data.go:331-361 | the base is a prefix and the request a suffix of the merged segments |
| `PathMerge.MergedIsShortest` | tokiame/client_data.go:331-361 | it is the shortest such list, and the only one of that length |
| `PathMerge.MergedIsIdempotent` | tokiame/client_data.go:331-361 | merging the same request segments again changes nothing |
| `PathMerge.SplitOfPath` | tokiame/client_data.go:363-381 | splitting a joined path gives its segments back |
| `PathMerge.MergedSegments` | tokiame/client_data.go:331-381 | splitting the merged path gives the merged segments |
| `PathMerge.MergedPathIsIdempotent` | tokiame/client_data.go:331-361 | merging the same request path again changes nothing |
| `Text.SplitOfJoin` | tokiame/client_data.go:363-381 | splitting at a separator undoes joining with it |
| `Text.TrimOfPadded` | tokiame/client_data.go:363-381 | trimming takes away exactly the white space put around a text |
| `RateLimiter.InMemoryRateLimiter.Request` | common/rate-limit.go:45-70 | the answer and the new store are `Admits` and `AfterRequest` |
| `RateLimiter.InMemoryRateLimiter.ClearExpiredItems` | common/rate-limit.go:28-42 | exactly the queues whose newest entry is older than the expiration go |
| `RateLimiter.SameDecision` | common/rate-limit.go:45-70 | the truncated queue decides as the full history does |
| `RateLimiter.RequestKeepsRelated` | common/rate-limit.go:45-70 | a request keeps queue and history in their relation |
| `RateLimiter.SweepKeepsRelated` | common/rate-limit.go:14-42 | a sweep, where one runs at all, drops only accepts that no window reaches, if durations are at most expiration + 1 |
| `RateLimiter.RefinesFrom` | common/rate-limit.go:28-70 | from related states every run of requests and sweeps is answered alike and ends related |
| `RateLimiter.Refines` | middleware/rate-limit.go:19-36 | a request is accepted if and only if fewer than the limit of its key's accepts lie in the window, over every interleaving with sweeps; any limit + 1 consecutive accepts span at least the duration |
| `RateLimiter.LongDurationBreaks` | common/rate-limit.go:28-42 | for every positive expiration and longer duration a run that the limiter answers wrongly |
| `RateLimiter.RefinesExactlyWhen` | common/rate-limit.go:14-70 | the limiter meets its specification on all runs if and only if the expiration is not positive, so no sweeper runs, or no duration exceeds expiration + 1 |
| `ChannelIndex.SortTiers` | model/balancer.go:323-336 | the lists of a bucket in strictly decreasing order of their priorities |
| `ChannelIndex.AddGroups` | model/balancer.go:277-313 | the nested loops file one entry per listed group and model |
| `ChannelIndex.BuildRule` | model/balancer.go:316-339 | a group has a model exactly when a bucket exists, with that bucket's tiers |
| `ChannelIndex.AddAllHolds` | model/balancer.go:293-300 | a bucket's list is the ids of its entries in row order |
| `ChannelIndex.AddAllPairs` | model/balancer.go:293-311 | pairs, wildcards and model groups come from the entries and nothing else |
| `ChannelIndex.TiersAreCorrect` | model/balancer.go:250-355 | tiers have strictly decreasing priorities and none is empty; an id occurs in a tier once per listing by rows of that id and priority; a priority without a tier has no listings |
| `ChannelIndex.ChannelStandsInItsTier` | model/balancer.go:250-355 | with one row per id, a channel occurs in the tier of its own priority, listings of the group times listings of the model times, and in no other tier, and an unknown id nowhere |
| `ChannelIndex.IndexIsCorrect` | model/balancer.go:250-355 | a group has a model if and only if some row lists both and if and only if ModelGroup holds true for them; Match is exactly the listed models ending in "*" |
| `Channels.ChannelsHold` | model/balancer.go:266-275 | each row is filed under its id, enabled and unchanged but for a weight of 0, which becomes 1; nothing else is filed |
| `Channels.ChannelsChooser.Load` | model/balancer.go:250-355 | rebuilds channels, rules, wildcards and model groups from the rows as `ChannelsOf` and `IndexOf` say, which `ChannelsHold`, `ChannelTexts.IndexFollowsTexts` and `ChannelTexts.TiersFollowTexts` tie to the rows' own texts |
| `Channels.ChannelsChooser.SetCooldowns` | model/balancer.go:68-83 | the answer, and the cooldowns after LoadOrStore |
| `Channels.ChannelsChooser.CleanupExpiredCooldowns` | model/balancer.go:96-104 | the loop drops exactly the expired entries, and no cooldown question at that time or later changes its answer |
| `Channels.ChannelsChooser.ChangeStatus` | model/balancer.go:106-132 | the same channels stay known, a known one is enabled or disabled and otherwise unchanged, and no other changes |
| `Channels.DeadlineIsFixed` | model/balancer.go:68-104 | an entry keeps its deadline through every run of failures and clean-ups until a clean-up at or after it |
| `Channels.CoolingAfterFailure` | model/balancer.go:68-94 | after a failure the channel cools at a time of the period if and only if there was no entry or its deadline is later |
| `Channels.FailureCoolsExactlyWhen` | model/balancer.go:68-94 | a failure cools the channel throughout its period, whatever fails or is cleaned up meanwhile, if and only if there was no entry or its deadline is at or after the period's end |
| `Channels.ExpiredEntryIsKept` | model/balancer.go:81-82 | two failures after which the channel is not cooling, and the same with a clean-up between, after which it is |
| `Channels.LiveEntryIsNotExtended` | model/balancer.go:76-79 | two failures of which the second, during the first's period, adds nothing |
| `Channels.EligibleOfHolds` | model/balancer.go:137-162 | the valid entries of a tier are its eligible channels, and there are none exactly when no id is eligible |
| `Channels.ChannelsChooser.Candidates` | model/balancer.go:135-162 | the eligible choices of the tier, in order and with repetitions, and their total weight |
| `Channels.DrawFrom` | model/balancer.go:172-181 | the loop returns the channel that the draw picks, and never falls through |
| `Channels.ChannelsChooser.Balancer` | model/balancer.go:134-182 | nothing exactly when no id of the tier is eligible, otherwise the channel a draw below the total weight picks; the final nil is unreachable |
| `Channels.ChannelsChooser.Next` | model/balancer.go:184-212 | the three errors, each exactly when it applies, and otherwise a channel of the first tier with an eligible one |
| `Channels.PickIsTotal` | model/balancer.go:172-181 | every draw below the total weight picks one of the entries |
| `Channels.DrawsFromFront` | model/balancer.go:172-179 | the first entry takes exactly as many draws as its weight and leaves the others to the rest |
| `Channels.DrawsAreWeighted` | model/balancer.go:172-179 | of the total-weight draws exactly weight times occurrences pick a channel |
| `Channels.EligibleOccurrences` | model/balancer.go:137-162 | an eligible channel occurs among the valid entries as often as its id is listed in the tier |
| `Channels.TierDraws` | model/balancer.go:134-182 | within a tier exactly weight times listings of the draws pick an eligible channel |
| `Channels.ChosenIsEligible` | model/balancer.go:200-211 | a choice succeeds if and only if some tier has an eligible channel; the channel is eligible and listed in the first such tier |
| `Channels.ChannelsChooser.LookupPrefersExact` | model/balancer.go:191-198 | a model that the group lists is looked up as it is; otherwise the first wildcard that matches it decides, and no other |
| `Channels.FirstMatchIs` | common/utils/helper.go:326-333 | the wildcard found is the first that is a prefix of the name once its trailing stars are gone, or none |
| `ChannelTexts.IndexFollowsTexts` | model/balancer.go:250-355 | a group has a model if and only if one channel's group text and model text, cut at commas and trimmed, mention them |
| `ChannelTexts.TiersFollowTexts` | model/balancer.go:250-355 | a channel stands in the tier of its priority mentions of the group times mentions of the model times, in no other tier, and no other id stands anywhere |
| `ChannelTexts.IndexFollowsNames` | model/balancer.go:250-355 | for rows whose texts join names with commas: a group has a model if and only if one row lists both |
| `ChannelTexts.TiersFollowNames` | model/balancer.go:250-355 | for such rows: a channel stands in the tier of its priority as often as it lists the group times as often as it lists the model, and in no other |
| `ChannelTexts.HighestPriorityIsChosen` | model/balancer.go:134-212 | a choice is a usable channel whose texts list group and model, none such has a higher priority, and there is none exactly when no listed channel is usable |
| `Relay.RelayContext.EligibleIsNotSkipped` | relay/common.go:258-261 | an eligible channel is not in the skip list |
| `Relay.RelayContext.FiltersMean` | relay/common.go:249-271 | a channel is filtered out exactly when it is only for chat, in the skip list, of a type not allowed, or does not stream the model, each where the request asks for it |
| `Relay.ContainsIs` | relay/common.go:581-594 | a text contains another exactly when that stands somewhere in it |
| `Relay.GoesOnExactlyWhen` | relay/common.go:547-594 | the loop goes on exactly after a remote failure of an unpinned request whose status is none of 400, 408, 504, 524 and 2xx, or which is a 400 whose message blames the channel |
| `Relay.PassingStatuses` | relay/common.go:547-579 | 429, 307, 401, 403 and the server errors but 504 and 524 are passed on to another channel; 408, 504, 524 and 2xx never are |
| `Relay.RelayContext.TryWithGroups` | relay/common.go:194-220 | a channel exactly when the primary group serves, or a different backup group serves and has a ratio; the backup mark is set as soon as the backup group serves |
| `Relay.RelayContext.SetProvider` | relay/common.go:114-163 | a provider exactly when the named channel exists or a group yields an eligible one, and the model mapping succeeds |
| `Relay.RelayContext.ShouldCooldowns` | relay/main.go:143-160 | the channel joins the skip list, and a rate-limited one is put on cooldown under the mapped model |
| `Relay.IsNew` | relay/main.go:69-93 | an eligible channel outside the skip list extends the attempts without repetition |
| `Relay.Retry` | relay/main.go:71-84 | after any change to the index, the next attempt is a new channel or there is no provider left |
| `Relay.RetryLoop` | relay/main.go:66-93 | attempts stay distinct and eligible, stop at the budget, and follow retryable failures only |
| `Relay.Relay` | relay/main.go:40-102 | in one call no channel is tried twice or from the initial skip list, there are at most 1 + RetryTimes attempts, each eligible when chosen and each but the last a failure whose status or message lets another channel be tried; the answer is the last reply's or a timeout; after such a failure it gives up only when late, out of budget or out of providers; a pinned request gets its named channel and one attempt |
| `QuotaBatch.QuotaWriter.AddNewRecord` | model/utils.go:68-76 | the delta is added to what the store holds for the id |
| `QuotaBatch.QuotaWriter.Run` | model/user.go:466-540 | each operation refuses negative quotas and otherwise either records its deltas or updates the rows |
| `QuotaBatch.QuotaWriter.PostConsumeTokenQuotaWithInfo` | model/token.go:465-488 | settles the user and, unless unlimited, the token by the signed quota, directly or through the stores |
| `QuotaBatch.QuotaWriter.FlushKind` | model/utils.go:85-106 | every row of the kind grows by what the swapped-out store holds for it, token sums stay |
| `QuotaBatch.QuotaWriter.BatchUpdate` | model/utils.go:78-108 | after a quiet flush the stores are empty and each column has grown by its stored delta |
| `QuotaBatch.TotalOfPermutation` | model/utils.go:68-108 | the sum of deltas does not depend on their order |
| `QuotaBatch.DirectAllAdds` | model/token.go:362-404 | the direct code moves each column by the sum of the requested deltas and keeps token remain + used |
| `QuotaBatch.DirectAllRows` | model/user.go:466-540 | after any operations each row of a user, token and channel in plain sums: quota by grants less charges, used quota by uses, request count by their number, token used by what remain lost |
| `QuotaBatch.StepBalances` | model/utils.go:68-108 | every record, swap and per-key write step conserves row + swapped-out rest + live store + lost updates |
| `QuotaBatch.RunBalances` | model/utils.go:68-108 | over every interleaving that sum is the initial value plus the requested deltas, for each kind and id, and token remain + used is constant |
| `QuotaBatch.FlushedEqualsDirect` | model/channel.go:362-375 | once flushed, the rows miss exactly the lost updates against the direct code, in any order of the operations |
| `QuotaBatch.LosesOnlyIn` | model/utils.go:86-104 | only updates that may fail are ever lost |
| `QuotaBatch.BatchedEqualsDirect` | model/utils.go:68-108 | with succeeding updates every interleaving that flushes everything leaves the rows of the direct code |
| `QuotaBatch.FailureBreaks` | model/utils.go:82-104 | for every existing row a run whose only failure is its update, and which ends flushed with other rows than the direct code |
| `QuotaBatch.BatchedEqualsDirectExactlyWhen` | model/utils.go:68-108 | for any set of updates that may fail, all flushed runs equal the direct code if and only if none of them is of an existing row |
| `BatchInsert.Db.BatchInsertWithRetry` | model/utils.go:126-156 | the table of row-by-row insertion skipping failures, the first error, and at most 1 + 2·b·⌈log2 n⌉ statements for n rows with b skipped |
| `BatchInsert.Db.BatchInsert` | model/utils.go:110-122 | the same table for the whole list in chunks of 200, with the bound on statements |
| `BatchInsert.HalvingsIsCeilingOfLog2` | model/utils.go:143-149 | the halvings of n are the least k with 2^k at least n |
| `BatchInsert.CreateAgrees` | model/utils.go:131-137 | an atomic insert succeeds exactly when row-by-row insertion skips nothing, with the same table and first error |
| `BatchInsert.AppendSplits` | model/utils.go:143-149 | inserting two halves one after the other is inserting the whole |
| `BatchInsert.SplitsBound` | model/utils.go:143-149 | the statements of two halves stay within the bound of the whole |
| `Payment.StepKeepsLockInv` | controller/order.go:103-128 | every step keeps one mutex per key and its holder in the critical section |
| `Payment.MutualExclusion` | controller/order.go:108-128 | in every run no two callbacks with the same gateway number are in the critical section |
| `Payment.SuccessIsFinal` | controller/order.go:130-179 | over every run a success order stays a success order |
| `Payment.StepKeepsOnce` | controller/order.go:130-179 | with one gateway number per trade number every step keeps "paid at most once" inductive |
| `Payment.RunPaysOnce` | controller/order.go:130-179 | and so does every run |
| `Payment.BalanceIsCredits` | controller/order.go:160-175 | a user's balance is the start plus the credits, in every run |
| `Payment.CreditsAreTheOrders` | controller/order.go:130-179 | in every run orders keep their user and quota, and every credit goes to the user of its order with the quota of its order |
| `Payment.LastCallCredits` | controller/order.go:160-175 | in every run the last successful call of a callback adds exactly its order's credit to its user's balance, and nothing for a negative quota |
| `Payment.CallbackSettles` | controller/order.go:130-179 | an undisturbed callback ends with the order a success under its gateway number, the user credited once and no lock held |
| `Payment.SweepClosesOldOrders` | model/order.go:37-41 | a sweep closes exactly the pending orders older than three hours and changes nothing else |
| `Payment.ClashBreaks` | controller/order.go:143-160 | two gateway numbers for one payable order give a run that credits it twice |
| `Payment.AtMostOnceExactlyWhen` | controller/order.go:103-179 | every interleaving of callbacks and closing sweeps credits each order at most once if and only if there is no such pair |
| `PrivateGroup.Store.ValidateSlug` | service/private_group.go:29-58 | accepts exactly well-formed slugs that neither a system group nor another live row has |
| `PrivateGroup.Store.PrepareCreate` | service/private_group.go:69-80 | a creation gets to the write exactly with an acceptable slug |
| `PrivateGroup.Store.PrepareRename` | service/private_group.go:82-119 | gets to the write exactly as `Prepare` says; who that is, `PrivateGroupAccess.OthersLeaveGroup` and `PrivateGroupAccess.RenameTakesEffect` state |
| `PrivateGroup.Store.PrepareDelete` | service/private_group.go:121-147 | gets to the write exactly as `Prepare` says; who that is, `PrivateGroupAccess.OthersLeaveGroup` and `PrivateGroupAccess.DeleteTakesEffect` state |
| `PrivateGroup.Store.PrepareCode` | service/private_group.go:163-188 | a positive budget, a future end and a live group of the actor lead to an unused, enabled code; `PrivateGroupAccess.OthersLeaveGroup` and `PrivateGroupAccess.CodeLetsIn` state for whom |
| `PrivateGroup.Store.ReadForStatus` | service/private_group.go:206-212 | the row read for a status change, which must belong to the group |
| `PrivateGroup.Store.ReadForRevoke` | service/private_group.go:269-278 | an owner's row and a revoked one are refused |
| `PrivateGroup.Store.PrepareGrant` | service/private_group.go:286-297 | a live group and a future end lead to a member's grant, whoever holds the row |
| `PrivateGroup.Store.CreateGroup` | model/private_group.go:300-322 | adds the group and its owner's grant unless any row has the slug, deleted ones included |
| `PrivateGroup.Store.UpdateSlug` | model/private_group.go:324-330 | unless another row has the slug, writes the row as it was read, live and with the new slug, even if it was deleted since |
| `PrivateGroup.Store.DeleteGroup` | model/private_group.go:332-357 | afterwards every grant of the group is revoked, every code of it disabled, and the row deleted under its slug |
| `PrivateGroup.Store.CreateInviteCode` | model/private_group.go:359-372 | adds the code unless its hash exists |
| `PrivateGroup.Store.UpdateCodeStatus` | model/private_group.go:391-397 | writes the whole row as it was read, count included, with the new status, and no other row |
| `PrivateGroup.Store.RevokeGrant` | model/private_group.go:476-485 | a row not yet revoked is revoked, so the user is not in the group at any time |
| `PrivateGroup.Store.UpsertGrant` | model/private_group.go:512-548 | rewrites the pair's row or adds one, and that is the row found afterwards |
| `PrivateGroup.Store.RedeemCode` | model/private_group.go:399-460 | each refusal, the "already in" answer without a use, and otherwise one grant and one use, disabling a used-up code |
| `PrivateGroup.UpsertKeepsUnique` | model/private_group.go:512-548 | an upsert keeps at most one row per group and user, and members stay members |
| `PrivateGroup.WriteKeepsInv` | model/private_group.go:300-548 | every write keeps unique grants, unique slugs and budgets, removes no row, and changes no group's owner and no code's group, hash or budget |
| `PrivateGroup.StepKeepsInv` | service/private_group.go:69-298 | every step of every request keeps this and what the waiting tasks rely on |
| `PrivateGroup.RunKeepsInv` | service/private_group.go:69-298 | so does every interleaving |
| `PrivateGroup.AdvanceCounts` | model/private_group.go:391-397 | a step of a task keeps the counts right if and only if it is not a stale save, and a stale save makes the count wrong |
| `PrivateGroup.UsesCountedExactlyWhen` | model/private_group.go:391-460 | in every run from empty tables a code's count is its created redemptions after every prefix if and only if no save writes a row read before a redemption of the code |
| `PrivateGroup.InviteBudget` | model/private_group.go:399-460 | in every run a code's count stays within its budget and a group and user have at most one row; without a stale save no more grants are created than the budget |
| `PrivateGroup.StaleSaveBreaksBudget` | model/private_group.go:391-397 | a status change read before and saved after a redemption lets a code of one use create a second grant |
| `PrivateGroup.BudgetIsExceeded` | model/private_group.go:391-460 | a run from empty tables in which that happens |
| `PrivateGroup.DeletionBuries` | model/private_group.go:332-357 | a deletion leaves all grants revoked and all codes disabled |
| `PrivateGroup.StepKeepsDeleted` | model/private_group.go:324-357 | without a save of the group that is free to go through, a step that saves no other rename leaves it deleted and frees no save |
| `PrivateGroup.RunKeepsDeleted` | model/private_group.go:324-357 | so does every such run |
| `PrivateGroup.StepKeepsBuried` | service/private_group.go:163-298 | with nothing waiting for a deleted group, no step of any request revives a grant or code of it |
| `PrivateGroup.SaveRevives` | model/private_group.go:324-330 | a waiting save under a free slug makes the group live again, and an admin grant after it lets a user in |
| `PrivateGroup.PendingRevives` | service/private_group.go:163-298 | anything that waits to bring the row, a grant or a code back does so |
| `PrivateGroup.DeletionIsAbsorbingExactlyWhen` | service/private_group.go:121-153 | after a deletion the grants stay revoked and the codes disabled, in every continuation that saves no rename of another group, if and only if nothing of that kind is waiting |
| `PrivateGroup.DeletionIsAbsorbing` | service/private_group.go:121-153 | in every continuation whatever, if the group's waiting saves are blocked by deleted groups in the same position, or there are none, and nothing else of it waits |
| `PrivateGroup.CanUseIsListed` | model/private_group.go:204-226 | a user can use a group if and only if its slug is among the user's private groups |
| `PrivateGroup.DeletedIsUnusableExactlyWhen` | service/private_group.go:332-351 | nobody can use a deleted group, under whatever slug, in every continuation that saves no rename of another group, if and only if no save of it under a free slug is waiting |
| `PrivateGroup.DeletedIsNeverUsable` | service/private_group.go:332-351 | in every continuation whatever, a group without waiting saves, or with saves that deleted groups in the same position block, stays deleted and its slug usable only where the system groups themselves offer it |
| `PrivateGroup.BlockedSaveGoesThrough` | service/private_group.go:82-119 | a save blocked by a live group goes through after a rename of that group |
| `PrivateGroup.CreationGivesOwner` | model/private_group.go:300-322 | a new group's owner holds an owner's row |
| `PrivateGroup.StepKeepsOwner` | service/private_group.go:256-284 | no step other than a deletion or an admin grant to the owner touches the owner's row |
| `PrivateGroup.ShutOut` | service/private_group.go:256-284 | an owner without an owner's row can be left without access by requests that neither delete nor grant |
| `PrivateGroup.PendingShutsOut` | service/private_group.go:286-298 | so can one for whom a deletion or a grant waits to be written |
| `PrivateGroup.MembershipDemotesOwner` | model/private_group.go:537-544 | an admin grant to the owner makes the row a member's |
| `PrivateGroup.OwnerKeepsAccessExactlyWhen` | service/private_group.go:256-298 | the owner keeps access in all continuations without such requests if and only if the row is an owner's, live and endless, and none of them waits |
| `PrivateGroupAccess.OthersLeaveGroup` | service/private_group.go:82-284 | with nothing about the group waiting, every run in which no admin and not the user with its owner's positive id asks about it leaves its row and slug as they are and adds no code |
| `PrivateGroupAccess.OthersLeaveMembers` | service/private_group.go:82-298 | if such a run also redeems no code of the group and has no admin grant to it, its grants, its codes and everybody's access stay as they are |
| `PrivateGroupAccess.DeleteTakesEffect` | service/private_group.go:121-147 | the owner's or an admin's request to delete a live, unreferenced group deletes it with its grants and codes, whatever happens before the write |
| `PrivateGroupAccess.RenameTakesEffect` | service/private_group.go:82-119 | their request to rename it to a free slug changes the slug and nothing else |
| `PrivateGroupAccess.CreateTakesEffect` | service/private_group.go:69-80 | a creation with a free slug adds the live group with its owner in it at every time |
| `PrivateGroupAccess.CodeLetsIn` | service/private_group.go:163-188 | a code they create is stored unused, and whoever redeems it in time without being in the group can use it from then on |
| `PrivateGroupAccess.StatusTakesEffect` | service/private_group.go:190-218 | their status change sets that of the group's code and nothing else, and nothing for a code of another group |
| `PrivateGroupAccess.RevokeTakesEffect` | service/private_group.go:256-284 | their revocation shuts a member out at every time and leaves an owner's row alone |
| `PrivateGroupAccess.AdminLetsIn` | service/private_group.go:286-298 | an admin's grant lets the user in at exactly the times up to its end |
| `PrivateGroupAccess.RefusedWritesNothing` | service/private_group.go:69-298 | requests about referenced or dead groups, for taken or system slugs, without uses or with a past end never write anything |
| `PrivateGroupAccess.RedeemsExactlyWhen` | model/private_group.go:399-460 | a redemption creates its grant and counts one use exactly when the code is enabled, in time, not used up and of a live group and the user has no grant that is neither revoked nor past its end; otherwise nothing changes |
| `PrivateGroupAccess.SlugShape` | service/private_group.go:15-58 | a slug is acceptable exactly with 3 to 64 lower-case letters, digits and dashes that are not a reserved word |

## Left out

- Transports: smux, QUIC, gorilla websocket, TLS and dialing are taken as reliable ordered byte streams; messages that are not binary are skipped as the code does.
- JSON: any encoding that decodes back and is one non-empty line without outer white space; only the ASCII part of Unicode white space is modelled for lines.
- RegisterWorker, UpdateHeartbeat, SyncModels: the registry's bodies are represented by success or failure; a success of the first leaves a non-zero worker id.
- Request ids are taken as fresh, so collisions in the in-flight table are not modelled.
- Clocks: a call of `Next` reads one time for all its channels; heartbeat and read deadlines are steps that may stop a party at any point.
- Integer width: the limiter's conversion to int32 is modelled, but quotas, weights, priorities and timestamps are unbounded integers.
- Index text: the cooldown key is the pair of id and model instead of its printed form.
- TunnelStream.ExpandHeaders: header names are kept as they are; their canonical spelling, which can merge two names, is not modelled.
- Channels.ChannelsChooser.Balancer: the random number is any draw below the total weight; how `rand.Intn` is distributed is not modelled.
- Relay.Relay: token counting, quota pre-consumption, streaming and the provider adapters are the reply of an attempt; other goroutines act on the chooser between attempts.
- QuotaBatch.QuotaWriter.BatchUpdate: one flush with succeeding updates and no concurrent recorder; interleaving and failing updates are in `RunBalances`.
- GORM's `Save` is taken to write a row as it was read: by an update, or, when the update matches no row because the row is soft-deleted, by an insert that replaces it.
- PrivateGroup.DeletionIsAbsorbingExactlyWhen, PrivateGroup.DeletedIsUnusableExactlyWhen: the exact conditions are for continuations that save no rename of another group; whether a save blocked by another row can ever go through depends on spare slugs, of which there are only finitely many.
- Private groups: transactions are taken as serializable. Normalising and hashing of code texts, normalising of slugs and the references by tokens and channels are inputs; created and updated times are not kept.
- Payment amounts, fees and the gateway's own notification check are inputs of a callback.
- Redis caches and the Redis limiter, OAuth, WebAuthn, e-mail, Telegram, metrics, routers, statistics, pricing tables and migrations are outside the model.
- Video and multipart request rewriting in the worker is outside the model.
