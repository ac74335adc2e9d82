# rtcd in Dafny

rtcd is a WebRTC media server: clients open sessions, sessions belong to calls, calls to groups. Around its media
stack it runs shutdown protocols, a negotiation loop, a simulcast controller, windowed estimators and a few tables
that several goroutines share. This project models those parts and proves what they keep, over every run.

| file | models |
|---|---|
| `WsServer.dfy`, `ServiceClient.dfy` | who may close which channel, for the WebSocket server and the service client |
| `Registry.dfy`, `Teardown.dfy`, `TeardownRuns.dfy` | the session index under atomic operations; closing sessions lock by lock |
| `Session.dfy`, `Negotiation.dfy` | one session's peer connection and tracks; the goroutine that serves it |
| `Simulcast.dfy`, `LevelControl.dfy`, `Limiter.dfy` | deciding, queueing and serving a level switch; the backoff between switches; the limiter in front |
| `Screen.dfy` | who presents in a call |
| `RateMonitor.dfy`, `Stat.dfy`, `Vad.dfy` | ring buffers against "recompute over the last N" |
| `MultiConn.dfy` | several sockets behind one: buffer ownership and order |
| `Auth.dfy`, `PortMap.dfy`, `Reconnect.dfy` | tokens, port override parsing, the reconnect budget |
| `Wrappers.dfy`, `Runs.dfy`, `Modular.dfy` | option types; runs and reachability; facts about remainders |

Concurrent protocols are step relations: each step is one critical section, channel operation or call out, and a
theorem quantifies over every sequence of enabled steps. Code that updates an object is a class whose methods are
proved equal to a specification function of the old state; the theorems about runs are about those functions.
Fields that are histories only (what was sent, which calls were made) are marked as such.

Time is an integer given to each step. Store, limiter, hash, random choices, the network and the peer connection
are inputs whose values range over everything they could do. The iteration order of a map is an input too. The
peer connection is a signaling state, a table of senders and a free choice of outcomes; it may refuse a description
that the state machine of section 3.2 of RFC 8829 allows, and it may turn out closed at any call.

Some statements that one might expect of the code are false of it. Each has its failing runs or inputs and its exact
condition, proved both ways:

- A registration lets some later run of the WebSocket server send on a closed channel if and only if it finds its
  connection ID taken while the server is open; apart from that, a handler can come to do so if and only if its
  upgrade, or the report of its failed upgrade, is still before it.
- An outside `Connect` does the same to the service client if and only if a reconnect is pending.
- A registration breaks the session index if and only if it goes through for an ID live in another call.
- An add breaks the agreement of a session's tracks if and only if it is left half done.
- An own offer is attempted in a state that does not allow it if and only if a remote offer was left unanswered or
  the peer has closed.
- The second half of a login breaks the token cache if and only if its client was unregistered in between.
- A port map is taken for a single port if and only if its text starts with a number beyond 64 bits.
- Level changes are logarithmic in time only up to the last one decided at the low level; after it they are linear,
  and can be.

## Model

| member | source | states |
|---|---|---|
| `WsServer.HandshakeIsSafe` | service/ws/server.go:86-187 | In every interleaving of handlers, `Close` and `Send` in which no `addConn` finds its ID taken while the server is open (an ID may recur once its holder is gone): each channel is closed at most once, `Send` never writes to a closed channel, no handler past the upgrade sends on a closed `receiveCh`, its messages are a prefix of open, data*, close, and the whole of it once it is done |
| `WsServer.CloseOutlivesSenders` | service/ws/server.go:86-104 | When the `Close` that did the work has returned, both channels are closed once and no handler can still send |
| `WsServer.HandlerRelays` | service/ws/server.go:162-186 | Over every run the payloads a handler relayed are exactly those it read off its connection, in order |
| `WsServer.SendsFollow` | service/ws/server.go:63-77 | Over every run what was put on `sendCh` is exactly the messages of the `Send` calls that found room before `Close` was called |
| `WsServer.RunInv` | service/ws/server.go:86-187 | The handshake invariant after every such run: whoever may still send is registered, and is among those a waiting `Close` waits for |
| `WsServer.HandlerKeepsRegistry` | service/ws/conn.go:34-55 | Every handler step keeps the connection map exact for handlers between `addConn` and `removeConn` |
| `WsServer.HandlerKeepsHandshake` | service/ws/server.go:139-187 | A handler step never makes a sender appear once the flag is set |
| `WsServer.CloserKeepsHandshake` | service/ws/server.go:86-104 | Flag, snapshot, wait and closing keep the handshake invariant and single ownership of the closing |
| `WsServer.PcFitsTrace` | service/ws/server.go:139-187 | The control flow of a handler, deferred calls included, only ever extends its messages within the conversation shape |
| `WsServer.HandshakeBreaksIff` | service/ws/server.go:139-148 | The exact condition: a registration opens the way to a send on the closed channel if and only if it finds its ID taken while the server is open |
| `WsServer.CollisionBreaksHandshake` | service/ws/server.go:139-148 | From every state of the invariant, a colliding registration has a continuation, free of further collisions, in which that handler sends on the closed channel |
| `WsServer.AddConnKeepsRegistryIff` | service/ws/conn.go:34-45 | A registration keeps the connection map right if and only if it does not collide |
| `WsServer.SharedConnIdBreaksHandshake` | service/ws/conn.go:34-55 | Such a run exists from the start: two handlers under one ID |
| `WsServer.LateReportIff` | service/ws/server.go:86-137 | The exact condition for the late message of a failed upgrade: from any state of the invariant, open or closing, a handler can come to send on the closed channel if and only if it has done so, has not arrived yet, or has its upgrade or the report of its failure before it |
| `WsServer.FailedUpgradeMaySendLate` | service/ws/server.go:132-137 | So it can happen from the start, for any handler, with no collision anywhere |
| `WsServer.CloseCanFinish` | service/ws/server.go:86-104 | From every state of the invariant closing can be finished: every handler it waits for can get done, and no newcomer has to move |
| `ServiceClient.ClosingIsSafe` | service/client.go:254-354 | In every interleaving with no outside `Connect` during a pending reconnect: both channels are closed at most once, nothing is sent on a closed one, at most one `msgReader` lives, and the two closing sites exclude each other |
| `ServiceClient.CloseLeavesNothing` | service/client.go:254-279 | A `Close` that returns without error has closed both channels once and left no reader or forwarder behind |
| `ServiceClient.CloseCanFinish` | service/client.go:254-279 | From every state of the invariant with a connection, `Close` can be called and can finish: every goroutine it waits for can end, and both channels get closed |
| `ServiceClient.ConnectionCanBeRestored` | service/client.go:192-203 | A lost connection can be restored: its reader ends up with the right to reconnect, and a retry that gets through leaves the client connected with one reader |
| `ServiceClient.RunInv` | service/client.go:167-354 | The ownership invariant (wait group, connection, right to reconnect, right to close) after every disciplined run |
| `ServiceClient.ConnectKeepsInv` | service/client.go:167-213 | A `Connect` outside a pending reconnect keeps the ownership invariant |
| `ServiceClient.ReaderKeepsOwner` | service/client.go:192-203 | Every step of a reader goroutine, reconnect loop included, keeps a single owner |
| `ServiceClient.CloserKeepsInv` | service/client.go:254-279 | Every step of a `Close` call keeps the ownership invariant |
| `ServiceClient.ClosingBreaksIff` | service/client.go:167-213 | The exact condition: an outside `Connect` that goes through opens the way to a send on a closed channel if and only if a reconnect is pending |
| `ServiceClient.OutsideConnectBreaksClosing` | service/client.go:325-345 | From every state of the invariant, an outside `Connect` during a pending reconnect has a disciplined continuation to a send on the closed `receiveCh` |
| `ServiceClient.ConnectKeepsInvIff` | service/client.go:167-213 | A `Connect` that goes through keeps the ownership invariant if and only if no reconnect is pending |
| `ServiceClient.UndisciplinedClosingFails` | service/client.go:325-345 | Such a run exists from the start |
| `TeardownRuns.TeardownIsSafe` | service/rtc/sfu.go:708-769 | Any number of concurrent `CloseSession` calls, lock by lock: no lookup fails, no channel is closed twice, no callback runs twice, and a goroutine inside its own `CloseSession` has closed its `doneCh` |
| `TeardownRuns.TeardownIsComplete` | service/rtc/sfu.go:708-769 | When all calls have returned: each session taken was closed exactly once with its callback run exactly once, the others are untouched, and the index holds exactly the remaining sessions, calls and groups |
| `TeardownRuns.NeverStuck` | service/rtc/sfu.go:739-762 | While a call has not returned, some call or the negotiation goroutine it waits for can move |
| `TeardownRuns.RunsAreBounded` | service/rtc/sfu.go:708-769 | Every run has at most as many steps as there was work at its start, not counting calls that find nothing to close |
| `TeardownRuns.StepWorksOff` | service/rtc/sfu.go:708-769 | Every step of every goroutine leaves less work, except a call that finds nothing to close |
| `TeardownRuns.TeardownEnds` | service/rtc/sfu.go:708-769 | Every run can be finished by closers and negotiation goroutines alone, and then every call has returned |
| `TeardownRuns.RunInv` | service/rtc/sfu.go:708-769 | The teardown invariant after every interleaving |
| `Teardown.DeleteMemberKeepsInv` | service/rtc/sfu.go:739-744 | Deleting a member leaves an empty call only in the hands of the one closer that will delete it |
| `Teardown.DropCallKeepsInv` | service/rtc/sfu.go:744-747 | Deleting an emptied call leaves an empty group only in the hands of the one closer that will delete it |
| `Teardown.DropGroupKeepsInv` | service/rtc/sfu.go:747-751 | Deleting an emptied group keeps every other lookup valid |
| `Teardown.CallOwnKeepsInv` | service/rtc/session.go:140-162 | A negotiation goroutine that fails closes `doneCh` first and may then tear its own session down |
| `Teardown.NegKeepsInv` | service/rtc/session.go:123-177 | Every path of the negotiation goroutine closes `doneCh` exactly once |
| `Registry.Server.constructor` | service/rtc/server.go:49-73 | A new server holds nothing |
| `Registry.Server.AddSession` | service/rtc/session.go:77-121 | Registration creates missing levels, refuses an invalid config, a missing peer connection and an ID live in that call, and leaves gauge and drain alone |
| `Registry.Server.InitSession` | service/rtc/sfu.go:194-258 | An init counts before it registers, and refuses exactly an invalid config, a failed setup or a live session |
| `Registry.Server.CloseSession` | service/rtc/sfu.go:708-754 | Closing takes the session out of both structures, drops emptied levels, uncounts, and closes the drain channel on the last one |
| `Registry.Server.Stop` | service/rtc/server.go:159-169 | A drain channel is armed exactly if sessions are left |
| `Registry.RunInv` | service/rtc/sfu.go:194-257 | After every run of atomic operations in which no registration goes through for an ID live in another call: both structures agree, nothing reachable is empty, the gauge is live sessions plus failed inits, drain is sound |
| `Registry.InitKeepsInvIff` | service/rtc/session.go:77-121 | Registration keeps the invariant if and only if the ID is not live in another call |
| `Registry.CloseKeepsInv` | service/rtc/sfu.go:708-754 | Closing always keeps the invariant, and its three lookups succeed |
| `Registry.DrainClosesWhenEmptied` | service/rtc/sfu.go:709-719 | An armed drain channel is closed by exactly the operation that empties the server, and none is closed otherwise |
| `Registry.StopIsReleasedIff` | service/rtc/server.go:159-173 | Over every run a stop with sessions left is released if and only if the server empties before another stop takes its place; after a second stop it waits for good |
| `Registry.StopArms` | service/rtc/server.go:161-169 | A stop with sessions left arms a channel of its own |
| `Registry.SessionsFollow` | service/rtc/session.go:112-118 | Over every run the sessions listed are exactly those whose registration went through and that were not closed since, each with the config of that registration |
| `Registry.CloseUndoesInit` | service/rtc/sfu.go:708-754 | Round trip: closing a just registered session restores index, flat map and gauge |
| `Registry.RemoveUndoesInsert` | service/rtc/sfu.go:739-753 | Round trip on the nested index alone |
| `Registry.InsertKeepsAgree` | service/rtc/session.go:86-118 | A fresh ID keeps index and flat map in agreement |
| `Registry.RemoveKeepsAgree` | service/rtc/sfu.go:739-753 | Deleting a listed session keeps them in agreement |
| `Registry.LiveAfterRemove` | service/rtc/sfu.go:743-751 | Exactly the one session leaves the index, whatever levels were dropped |
| `Registry.CloseKeepsGauge` | service/rtc/sfu.go:724 | The gauge stays live sessions plus failed inits |
| `Registry.InitKeepsGauge` | service/rtc/sfu.go:199 | The gauge stays live sessions plus failed inits |
| `Registry.ReuseBreaksAgreement` | service/rtc/session.go:116-118 | Counterexample: a live ID registered again in another call breaks the agreement |
| `Session.Session.constructor` | service/rtc/call.go:39-56 | A new session starts stable, with no track, and in agreement |
| `Session.Session.SendOffer` | service/rtc/session.go:355-377 | Refines the offer step: the description is applied first, and a message goes out only if every part succeeded |
| `Session.Session.AddTrack` | service/rtc/session.go:380-464 | Refines the add of `AddFollows`, with its early refusals, its wait and its deferred rollback |
| `Session.Session.RemoveTrack` | service/rtc/session.go:467-521 | Refines the removal of `RemoveFollows`, whose search stops at the first sender that holds the track |
| `Session.Session.HandleOffer` | service/rtc/session.go:524-564 | Refines the answering of `SignalFollows` |
| `Session.Session.FindSender` | service/rtc/session.go:480-488 | The search loop finds the first listed sender of the track, if any |
| `Session.AddKeepsAgreementIff` | service/rtc/session.go:380-464 | An add keeps senders, `rxTracks`, gauge and screen sender in agreement if and only if it is not left half done (cut off by closing, or its rollback failed) |
| `Session.AddFollows` | service/rtc/session.go:380-464 | An add from its inputs alone: when it is refused, when it succeeds, and what senders, received tracks, gauge, screen sender and outbox are when it was completed, cut off, failed and rolled back, or failed for good |
| `Session.RemoveFollows` | service/rtc/session.go:467-521 | A removal from its inputs alone: when it is refused, when it succeeds, what becomes of the tracks, and that its offer goes out if each part of it succeeds |
| `Session.RenegotiationFollows` | service/rtc/session.go:437-463 | A renegotiation is done if and only if its offer went out and an answer was accepted, cut off if and only if the session or the answers closed while it waited, and has failed otherwise, by timeout above all |
| `Session.SignalFollows` | service/rtc/session.go:524-564 | A remote offer from its inputs alone: ignored on a conflict, answered if and only if every part succeeds |
| `Session.RemoveKeepsAgreement` | service/rtc/session.go:467-521 | A removal always keeps the agreement, however its negotiation ends |
| `Session.RemoveUndoesAdd` | service/rtc/session.go:467-499 | A removal undoes a completed add |
| `Session.HolderIsTheOne` | service/rtc/session.go:480-488 | Under the agreement the sender found does not depend on the order of the senders, and exists exactly for a received track |
| `Session.AtMostOneVideo` | service/rtc/session.go:405-408 | Under the agreement at most one received track is video, and then the gauge says one |
| `Session.RolledBackAgrees` | service/rtc/session.go:418-433 | A rollback restores the agreement |
| `Session.AddedOkAgrees` | service/rtc/session.go:441-455 | A completed add extends the agreement |
| `Session.RenegotiatedKeepsTracks` | service/rtc/session.go:501-521 | Sending an offer and waiting for the answer touches no track |
| `Negotiation.NegotiationIsLegal` | service/rtc/sfu.go:814-858 | Over every run: a remote offer is applied only in the stable state, a remote answer only while an own offer is outstanding, an own answer only to an applied offer (section 3.2 of RFC 8829), or the peer had closed |
| `Negotiation.AnswersReturnToSender` | service/rtc/server.go:356-381 | Over every run: an answer goes out on the channel its offer came in on, no offer is answered twice, answers keep the order of offers, own offers use the session's channel |
| `Negotiation.OfferAnsweredIff` | service/rtc/session.go:524-555 | Over every run an offer is answered if and only if it was taken in the stable state with every part of the answer succeeding |
| `Negotiation.TakenOfferFollows` | service/rtc/sfu.go:846-855 | Over every run taking an offer sends the answer to that offer, on its channel, or nothing, and only a failed first offer ends the session |
| `Negotiation.ArrivalIsTakenInIff` | service/rtc/server.go:364-369 | Over every run an offer that arrives is taken in if and only if fewer than twenty are waiting |
| `Negotiation.TrackActionFollows` | service/rtc/sfu.go:814-845 | Over every run with no half-done add: a track is received after an add exactly if it was completed, not after a removal, and own offers go out exactly if each part succeeds |
| `Negotiation.WedgedForGood` | service/rtc/session.go:524-564 | Once an offer was applied but not answered, or the peer closed, no later event makes the session send an offer or an answer again |
| `Negotiation.TracksAgree` | service/rtc/sfu.go:814-845 | Over every run of offers, adds and removals in which no add is left half done, the track agreement holds between events |
| `Negotiation.RunInv` | service/rtc/sfu.go:814-858 | Legality, routing and a cleared `makingOffer` after every event |
| `Negotiation.StepKeepsInv` | service/rtc/sfu.go:814-858 | Each event of the loop keeps that invariant |
| `Negotiation.TakeOfferRouted` | service/rtc/sfu.go:846-855 | Taking an offer off the queue answers that offer and no other |
| `Negotiation.RenegotiatedLegal` | service/rtc/session.go:437-463 | An answer is only ever applied after the own offer was accepted |
| `Negotiation.SignalLegal` | service/rtc/session.go:524-541 | Offer and answer are applied in the states that allow them |
| `Negotiation.OwnOfferLegalIff` | service/rtc/session.go:355-364 | An own offer is attempted in any state; the state allows it if and only if no remote offer is left unanswered and the peer has not closed |
| `Simulcast.HandleSenderBitrateChange` | service/rtc/simulcast.go:154-244 | A report means remove(current) was queued before add(next), whatever others did in between; without a report nothing was queued, or the removal alone because the queue then was full |
| `Simulcast.DecisionIsSound` | service/rtc/simulcast.go:154-218 | A switch goes to another level of the same codec, never down while the estimate or the loss rate carries the source, and up only if the estimate does |
| `Simulcast.DecisionIsComplete` | service/rtc/simulcast.go:189-218 | With both levels measured and the other on offer, a switch is decided if and only if the estimates call for it |
| `Simulcast.LevelIsMonotone` | service/rtc/simulcast.go:41-47 | More bandwidth never lowers the level and a heavier source never raises it |
| `Simulcast.ReportedSwitchLands` | service/rtc/sfu.go:814-845 | Serving the queue of a reported switch in order, with no other video action and no failure, ends with exactly one video track, the next one, filed under the reported level |
| `Simulcast.VideoAddLands` | service/rtc/session.go:405-408 | An add of a video track is refused as already set if and only if one is shown; otherwise it lands |
| `Simulcast.VideoRemoveClears` | service/rtc/session.go:490-499 | Removing the shown track clears the place even if the renegotiation fails; removing another video track changes nothing |
| `Simulcast.HarmlessKeepsCurrent` | service/rtc/sfu.go:814-858 | Offers and audio actions, however they end, leave the shown video track alone |
| `Simulcast.AgreementShows` | service/rtc/session.go:448-455 | Under the agreement the screen sender's track is the only video track |
| `Simulcast.ServingRefines` | service/rtc/sfu.go:814-858 | Serving any queue of video and audio actions, mixed with remote offers, refines a one-place reference: an add lands if the place is free, the removal of the track in place frees it |
| `Simulcast.ReportedIsWhole` | service/rtc/simulcast.go:229-243 | What was taken off the queue between the two sends plus what is on it after a report is the whole switch, behind what was pending |
| `Simulcast.HalfSwitchLosesTheScreen` | service/rtc/simulcast.go:236-241 | A switch whose second half found the queue full is unreported and, once served, leaves the session with no video track |
| `LevelControl.Controller.constructor` | service/rtc/simulcast.go:77-81 | The controller starts at the low level with a backoff of ten seconds |
| `LevelControl.Controller.RateChange` | service/rtc/simulcast.go:83-136 | Refines the handler step; a switch is tried, and its actions queued, exactly if it is due by the history; the target bitrate is set on an upgrade only, to the rate of the new source |
| `LevelControl.LowChangesWait` | service/rtc/simulcast.go:107-134 | Over every run, a change decided at the low level comes at least the current backoff after the previous one, and the backoff has grown by half per change |
| `LevelControl.CallChangesIff` | service/rtc/simulcast.go:83-136 | Over every run a call changes the level if and only if a switch is decided and there was no change yet, or the backoff is over, or the last change was not to the low level and both rates fell; the rates compared are those of the call before, or the rate of the source switched to |
| `LevelControl.ChangesAreLogarithmic` | service/rtc/simulcast.go:77-136 | In every run, the changes up to any one decided at the low level are at most 2 * log2 of the time they took, in units of ten seconds, plus two |
| `LevelControl.AllChangesAreBounded` | service/rtc/simulcast.go:57-136 | In every run that the limiter lets through, the number of all changes is at most logarithmic in the time up to the last one decided at the low level, plus one per second after that, plus a constant |
| `LevelControl.ChangesAreLimited` | service/rtc/simulcast.go:62-75 | In every run that the limiter lets through, whatever the levels, at most eight changes at one instant and one more for each second |
| `LevelControl.TrailingChangesCanBeLinear` | service/rtc/simulcast.go:83-136 | The second part of the bound is needed: with the controller at the high level and the receiver back at the low track, switches that the code decides and calls that the limiter admits can give a change every second |
| `Limiter.CallsAreSpaced` | service/rtc/simulcast.go:62-75 | The limiter of one per second with a burst of four and the queue of four let through at most eight handler calls at one instant and one more for each second |
| `Limiter.SteadyRun` | service/rtc/simulcast.go:62-75 | A rate every second, taken at once, is never held up |
| `Limiter.EightAtOnce` | service/rtc/simulcast.go:62-75 | The bound is reached: with the queue full and the limiter rested, eight calls can come at once |
| `LevelControl.AlternatingChangesAreLogarithmic` | service/rtc/simulcast.go:77-136 | Where the levels alternate, the number of all changes is at most twice the logarithm of the time between the first and the last |
| `LevelControl.ChangesSpread` | service/rtc/simulcast.go:107-134 | In every run, the time from the first change to any later one covers the backoff of every change in between that was decided at the low level |
| `LevelControl.AlternatingChangesSpread` | service/rtc/simulcast.go:107-134 | Where the levels alternate, the change number 2k comes at least 10 s * (2^(k+1) - 2) after the first |
| `LevelControl.BackoffIsPaidFor` | service/rtc/simulcast.go:116-120 | In every run, while one of the last two changes was decided at the low level, the backoff is at most nine quarters of the time since the first change, or of its initial value |
| `LevelControl.BackoffDoubles` | service/rtc/simulcast.go:120 | Two growths by half with integer division at least double the backoff |
| `LevelControl.RunInv` | service/rtc/simulcast.go:83-136 | Level, backoff and last change are those of the change history |
| `RateMonitor.NewRateMonitor` | service/rtc/rate.go:27-41 | Exactly the positive sampling sizes are accepted |
| `RateMonitor.RateMonitor.constructor` | service/rtc/rate.go:36-40 | A new monitor has an empty history |
| `RateMonitor.RateMonitor.PushSample` | service/rtc/rate.go:43-61 | Ring, write index and fill flag keep representing the window of the whole history |
| `RateMonitor.RateMonitor.GetSamplesDuration` | service/rtc/rate.go:63-79 | The span of the window, read off the ring |
| `RateMonitor.RateMonitor.GetRate` | service/rtc/rate.go:81-106 | -1 until filled; then the age of the oldest recent sample and the rounded bit rate over exactly the recent samples, for an age of zero what the platform makes of an infinity or a NaN |
| `RateMonitor.SumRecent` | service/rtc/rate.go:91-101 | The loop sums exactly the samples from the newest old enough one on |
| `RateMonitor.RecentIsShortest` | service/rtc/rate.go:93-101 | The samples summed are the shortest suffix whose oldest is at least the sampling size old, or all |
| `RateMonitor.WindowSlides` | service/rtc/rate.go:59-60 | Once filled, the window keeps its length and each push drops the oldest |
| `RateMonitor.FillPointBounds` | service/rtc/rate.go:50-57 | The window fills the first time its span reaches twice the sampling size |
| `RateMonitor.RingStep` | service/rtc/rate.go:59-60 | Overwriting the slot under the write index keeps the ring equal to the last samples |
| `RateMonitor.RingDuration` | service/rtc/rate.go:70-79 | The two slots read are the newest and the oldest sample |
| `RateMonitor.RoundIsNearest` | service/rtc/rate.go:103 | The rate is rounded to nearest, ties away from zero |
| `RateMonitor.BitRateIsNearest` | service/rtc/rate.go:103 | The bit rate is the nearest integer to eight times the bytes per second |
| `Stat.SumOf` | service/rtc/stat/stat.go:14-20 | The loop computes the sum |
| `Stat.Avg` | service/rtc/stat/stat.go:22-28 | The mean rounded to nearest, always within 8 bits |
| `Stat.StdDev` | service/rtc/stat/stat.go:30-42 | The rounded sample deviation where it fits 8 bits; around the mean it always does and is at most 180 |
| `Stat.MeanIsRounded` | service/rtc/stat/stat.go:22-28 | The mean is the only integer within half a step of the exact quotient |
| `Stat.MeanInRange` | service/rtc/stat/stat.go:22-28 | The mean lies between the smallest and the largest sample |
| `Stat.DevIsBounded` | service/rtc/stat/stat.go:30-42 | With the rounded mean and the n-1 divisor the deviation is at most 180, for every sequence of at least two samples |
| `Stat.DevBoundIsTight` | service/rtc/stat/stat.go:30-42 | The bound is reached |
| `Stat.RootUnique` | service/rtc/stat/stat.go:41 | The rounded root is determined by its two inequalities |
| `Vad.NewMonitor` | service/rtc/vad/vad.go:59-93 | A monitor is made exactly for a valid config and a callback |
| `Vad.Monitor.constructor` | service/rtc/vad/vad.go:88-92 | A new monitor agrees with the empty reference |
| `Vad.Monitor.PushAudioLevel` | service/rtc/vad/vad.go:95-127 | Refines the reference that recomputes mean and deviation over the last N levels, callbacks included; for N = 1 the deviation is what the platform makes of a NaN |
| `Vad.Monitor.Reset` | service/rtc/vad/vad.go:129-135 | Refines the reference reset, which reports false |
| `Vad.RunIsSound` | service/rtc/vad/vad.go:111-135 | Over every run: the state is the last value emitted, true never comes twice in a row, a push-emitted false comes at least the activation duration after its true |
| `Vad.PushFollows` | service/rtc/vad/vad.go:95-127 | A push over every run: nothing for the first N levels; then true if the last event is not true and the deviation of the last N levels is above the activation threshold, false if it is true, the deviation is below the deactivation threshold and the duration is over, and nothing otherwise |
| `Vad.DeviationIsRounded` | service/rtc/vad/vad.go:108-109 | That deviation is the rounded sample deviation around the rounded mean |
| `Vad.ResetFollows` | service/rtc/vad/vad.go:129-135 | A reset always reports false and forgets all levels |
| `Vad.RunLevels` | service/rtc/vad/vad.go:95-99 | The reference holds exactly the levels since the last reset, and the first N emit nothing |
| `Vad.RingStep` | service/rtc/vad/vad.go:101-106 | Overwriting under the write index slides the window by one |
| `Vad.RotationKeepsStats` | service/rtc/vad/vad.go:108-109 | Mean and deviation do not depend on where the ring starts |
| `Screen.Call.constructor` | service/rtc/session.go:102-107 | A new call is empty |
| `Screen.Call.Join` | service/rtc/call.go:32-60 | A session joins unless its ID is present |
| `Screen.Call.SetScreenSession` | service/rtc/call.go:68-76 | The slot is taken only if it was free |
| `Screen.Call.ScreenOn` | service/rtc/server.go:243-258 | The stream ID is stored, then the slot tried |
| `Screen.Call.ClearScreenState` | service/rtc/call.go:86-120 | The same end state for every iteration order, although the loop resets the slot it compares with |
| `Screen.Call.Leave` | service/rtc/call.go:125-226 | A leaving presenter frees the slot and every other member's screen sender; every other member queues the removal of the video tracks it held from whoever left and lets go of the audio tracks unless that fails, whatever orders the two loops take |
| `Screen.PresenterIsLive` | service/rtc/call.go:68-120 | Over every run the presenter is nobody or a live member |
| `Screen.PresenterFollows` | service/rtc/server.go:243-262 | Over every run a screen-on by a member takes the place if it is free, the presenter's own screen-off or departure frees it, and nothing else changes it |
| `Screen.MembersFollow` | service/rtc/call.go:32-60 | Over every run the members are those who joined and did not leave since |
| `Screen.PresenterHandover` | service/rtc/call.go:86-120 | Over every run the presenter changes only through nobody, only by its own screen-off or leaving; it then shares nothing and no other member keeps a screen sender; after a screen-off each of them has the removal of the track it was shown at the end of its queue, or the queue was full |
| `Screen.CleanUp` | service/rtc/call.go:204-223 | The loop over a member's senders queues gone video tracks and lets go of gone audio tracks unless that fails |
| `Screen.DepartureIsCleanedUp` | service/rtc/call.go:147-225 | After a departure every other member has queued the removals of its video tracks, in sender order and as many as fit, holds its audio tracks only through senders that would not let go, and is otherwise as before |
| `Screen.RunQueuesFit` | service/rtc/session.go:27 | Over every run no track queue exceeds its size |
| `MultiConn.BuffersAreOwned` | service/rtc/multi_conn.go:62-103 | In every interleaving no buffer is in two places, results close only after all readers stopped, nothing is sent afterwards |
| `MultiConn.CloseCanFinish` | service/rtc/multi_conn.go:62-103 | From every reachable state `Close` can be called and can finish: no reader is ever in the way |
| `MultiConn.HeldCanBeDelivered` | service/rtc/multi_conn.go:62-86 | From every reachable state a datagram that a reader holds can reach the caller, whatever is in the way, with its length, address and error |
| `MultiConn.DeliveryIsFaithful` | service/rtc/multi_conn.go:62-86 | Results are delivered in the order sent, each socket's in its own order, unaltered up to the caller's room, with their length, address and error; nothing is missing but what is under way and at most one datagram per socket dropped on close |
| `MultiConn.ReaderConservesPlaces` | service/rtc/multi_conn.go:62-79 | Only a fresh buffer adds a place and only a reader stopping with one in hand drops it |
| `MultiConn.OthersConservePlaces` | service/rtc/multi_conn.go:81-86 | Receiving, copying and putting back only move buffers |
| `MultiConn.HandIsExclusive` | service/rtc/multi_conn.go:66-67 | A buffer being read into is nowhere else |
| `MultiConn.ReadKeepsIntact` | service/rtc/multi_conn.go:66-67 | A read overwrites nobody's result |
| `MultiConn.StepKeepsFifo` | service/rtc/multi_conn.go:68-86 | Delivered, in hand and queued results are together what was sent, in order |
| `MultiConn.RunInv` | service/rtc/multi_conn.go:36-103 | Ownership, contents, order and shutdown after every run |
| `MultiConn.RoundRobinIsFair` | service/rtc/multi_conn.go:88-92 | Over any run of writes two sockets' counts differ by at most one |
| `MultiConn.PicksClosedForm` | service/rtc/multi_conn.go:88-92 | The count of a socket as a difference of rounded quotients |
| `Auth.NewSessionCache` | service/auth/session_cache.go:21-40 | Exactly the positive lifetimes are accepted |
| `Auth.SessionCache.constructor` | service/auth/session_cache.go:35-40 | A new cache is empty |
| `Auth.SessionCache.Get` | service/auth/session_cache.go:42-56 | A live token is returned, an expired one removed |
| `Auth.SessionCache.DeleteFirst` | service/auth/session_cache.go:89-96 | The early return removes one token of the client, and all of them when each client has at most one, in any iteration order |
| `Auth.SessionCache.Put` | service/auth/session_cache.go:58-81 | The new token replaces the client's old one; one token per client is kept |
| `Auth.NewService` | service/auth/service.go:30-42 | A service is made exactly if there is a store and a session cache |
| `Auth.Service.Authenticate` | service/auth/service.go:44-60 | Accepts exactly the stored key of a known client |
| `Auth.Service.Register` | service/auth/service.go:62-91 | Stores the key of a new client, and refuses short keys and known clients |
| `Auth.Service.Unregister` | service/auth/service.go:93-107 | Removes the client and its token |
| `Auth.Service.Login` | service/auth/service.go:109-121 | Caches the new token of an authenticated client |
| `Auth.LookupMatchesHistory` | service/auth/session_cache.go:42-56 | A lookup returns a client if and only if the token is from its latest login, it was not unregistered since, and the token has not expired |
| `Auth.LoginFollows` | service/auth/service.go:109-121 | A login over every run: with the key of the latest accepted registration and no failure the token is cached in place of the client's old one and nothing else changes; otherwise nothing changes |
| `Auth.WrongKeyIsRefused` | service/auth/service.go:44-60 | With any other key than the stored one a login changes nothing |
| `Auth.StoreMatchesHistory` | service/auth/service.go:62-107 | The store holds exactly the keys of the registrations accepted and not undone |
| `Auth.RegistrationStartsClean` | service/auth/service.go:62-91 | A registration starts without any valid login, so every returned client logged in after it |
| `Auth.CachingKeepsInvIff` | service/auth/service.go:109-121 | The second half of a login keeps the cache right if and only if the client is still registered by then |
| `Auth.SplitLoginOutlivesClient` | service/auth/service.go:93-121 | An `Unregister` between the halves of a login leaves a valid token with nobody registered, which then serves a new registration |
| `Auth.RunCacheInv` | service/auth/session_cache.go:58-96 | Over every run at most one token per client, every cached client in the store |
| `Auth.CachedIsGranted` | service/auth/session_cache.go:58-81 | Whatever is cached is its client's latest login |
| `Auth.GrantedIsCached` | service/auth/session_cache.go:42-56 | A latest login no longer cached has expired |
| `Auth.FirstHitIsAll` | service/auth/session_cache.go:89-96 | Why the early return is complete |
| `PortMap.ParseMap` | service/rtc/config.go:270-308 | The loop computes the specified parse, its error cases included |
| `PortMap.IsValid` | service/rtc/config.go:310-331 | Accepts exactly the empty text, a port number from 80 to 49151, and pairs without repeated address or port that do not start with a number too large for 64 bits |
| `PortMap.DispatchIsValid` | service/rtc/config.go:319-328 | The dispatch on the single port accepts exactly those texts |
| `PortMap.ParseOfPrint` | service/rtc/config.go:270-308 | Any non-empty map with distinct ports and plain keys, printed in any order, parses back to itself |
| `PortMap.PrintOfParseIff` | service/rtc/config.go:270-308 | A text that parses, printed back in its own order, is the text itself if and only if every port is written canonically |
| `PortMap.ParseIsInjective` | service/rtc/config.go:270-308 | A parsed map is injective with one entry per comma field |
| `PortMap.AddAllSucceedsIff` | service/rtc/config.go:284-305 | The loop succeeds if and only if every field is a pair and no address or port repeats |
| `PortMap.AddAllResult` | service/rtc/config.go:284-305 | What a successful loop returns |
| `PortMap.MapReadAsPortIff` | service/rtc/config.go:310-324 | A string that parses as a map has a non-zero single port if and only if it starts with a number too large for 64 bits |
| `PortMap.LargeAddressIsReadAsPort` | service/rtc/config.go:262-268 | Counterexample family: such strings exist, so the dispatch is ambiguous for them |
| `PortMap.AtoiOfItoa` | service/rtc/config.go:290-293 | Printing and parsing a 64-bit port round-trips |
| `PortMap.SplitOfJoin` | service/rtc/config.go:279 | Splitting undoes joining |
| `Reconnect.Client.constructor` | client/client.go:132-141 | A new client has no connection ID and no wait |
| `Reconnect.Client.HandleHello` | client/websocket.go:107-132 | The first hello sets the original ID, later ones reset the reconnect state |
| `Reconnect.Client.HandleDisconnect` | client/websocket.go:340-363 | Give up after the timeout, else wait longer than last time |
| `Reconnect.AttemptsFitTimeout` | client/websocket.go:344-358 | Between resets, whatever the jitter, the k-th wait is at least k seconds and the k-th attempt happens only if k(k-1)/2 seconds fit in the timeout |
| `Reconnect.RetriesFollow` | client/websocket.go:340-363 | Over every run a disconnect is retried exactly if it is the first since the last reset or within the timeout of the first; the k-th retry waits k seconds and all jitters so far; a hello after the first resets |
| `Reconnect.AttemptsAreBounded` | client/websocket.go:344-358 | For any timeout the number of attempts is bounded by its square root |
| `Reconnect.DefaultTimeoutAllowsEight` | client/websocket.go:344-358 | At most 8 attempts in 30 seconds |
| `Reconnect.OriginalIdIsStable` | client/websocket.go:117-119 | Once set, the original connection ID never changes |
| `Reconnect.RunInv` | client/websocket.go:340-363 | Waits, interval and elapsed time after every run |

## Left out

- The media stack: ICE, DTLS, SDP content, RTP and RTCP, codecs, the bandwidth estimator; also packet forwarding and the limiting of picture-loss requests.
- msgpack, zlib and JSON encodings, HTTP handlers, metrics registration, logging, configuration files other than the port override.
- bcrypt, HMAC and random IDs: a key's hash is modelled by the key, a token by a given number.
- Registration interleaved with closing at lock level: the locks are dropped between levels there, so `Registry` covers atomic operations and `Teardown` covers closers only.
- A screen-on racing with a close, for the same reason.
- In `Teardown` the nested maps appear as sets of places, and the cleanup of tracks on departure is not part of the steps; `Screen` has it.
- Screen.Call.Leave: the senders of the departed session itself are not modelled, as it is gone afterwards.
- The out-track gauge across a peer's departure or an add cut off by closing; `Session.AddKeepsAgreementIff` says exactly when an add leaves it wrong.
- The contents of the answer queue: whichever answer a waiting add or removal takes, the peer may accept or refuse it.
- Session.Session.HandleOffer: the peer connection exists, since registration refuses a session without one; the branch for a missing one is not modelled.
- `getSimulcastLevelForRate`, which picks a receiver's first level.
- Simulcast.LevelIsMonotone: the tolerance of nine tenths in 32-bit floating point is any monotone function.
- LevelControl.AlternatingChangesAreLogarithmic: is about runs whose levels alternate; `AllChangesAreBounded` is the bound for every run. Wrap-around of a 64-bit duration is not modelled.
- Reading two estimator statistics as floating-point numbers before comparing them to zero: the sign is that of the integers.
- RateMonitor.RateMonitor.GetRate: floating-point rounding inside the quotient is not modelled.
- Stat.StdDev: floating-point square root and division are exact here, and out-of-range conversions are reported as missing.
- Vad.Monitor.PushAudioLevel: what converting a NaN to 8 bits yields, for a window of one level, is an input.
- MultiConn.DeliveryIsFaithful: there is one consumer and one `Close`; the nil buffer that a read after closing puts into the pool is not counted, as no reader is left to take it.
- MultiConn.RoundRobinIsFair: without wrap-around of the 64-bit write counter.
- Auth.LookupMatchesHistory: logins, lookups with the removal of an expired token, and store calls are atomic here; the source holds no lock between the halves of a login, and `CachingKeepsInvIff` says when that matters.
- The queue-emptying loops of the client and of the WebSocket client.
