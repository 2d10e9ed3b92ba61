# A model of the GlobalProtect service

GlobalProtect-openconnect runs a privileged service, `gpservice`, that owns the
VPN connection on behalf of desktop clients. This project models its concurrent
core and proves what that core keeps, over every interleaving. Each region held
under a mutex, each channel operation and each atomic store is one step of a
state machine. Every theorem about a run quantifies over all step sequences.

- `Lifecycle*`, `VpnTask`, `Completion`: the admission record, the queue of
  capacity 4, reservations with their drop, the single actor, the connection
  worker, and the waiters for an attempt's completion.
- `Registry`, `Handshake*`, `SessionRegistry`: sessions, reconnect handshakes and
  the attachments that own non-tunnel attempts.
- `Dispatch`, `DispatchWitness`: registry and lifecycle composed as the request
  dispatcher composes them.
- `Replica`, `WsServer`, `Replies`: the VPN state replicated over bounded queues,
  and the request and reply bookkeeping of one connection.
- `Hip`, `Utf8`: chunked report upload and preview on UTF-8 text (section 3 of
  RFC 3629).
- `Monitor*`, `CommandPipe`: tunnel observation and the native command pipe.
- `Credentials`: the desktop credential channel.
- `Diagnostics*`, `ShellQuote`: the report parser and printer, and shell quoting
  (sections 2.2.1 and 2.2.2 of the POSIX.1-2017 Shell Command Language).

Objects of the source are classes. Their methods are proved to make the
transitions of the value-level models, and the theorems are about those. The
lifecycle actor and the server context also carry the invariants themselves.

## Where the code does less than one might expect

- Cancelling only an attempt's token can still be followed by one Connected
  publication, exactly when the actor is already past its token check.
- A worker that dies without reporting its end keeps the shutting-down actor from
  ever leaving. Shutdown can complete exactly while that has not happened.
- An incomplete, uncancelled non-tunnel attempt loses its record exactly when
  another non-tunnel attempt is reserved for its session. That can happen between
  the release of its admission and the store of its completion flag.
- A failed cancel write on the command pipe is not repeated.
- A preview reply dropped on a full queue leaves its request id pending for ever.
  Every other pending request can still be answered.

## What is assumed

- Mutexes are not poisoned and at least one VPN-state receiver exists.
- Identifiers drawn at random are fresh; the clock does not go back. The two
  clock reads of `issue` are one instant.
- The worker may send any event other than a start, about any issued attempt, and
  sends its own end last. It may also die at any point.
- `reserve_connection` holds the sessions lock while it takes the admissions lock
  twice: to reserve, and to obtain the drain it records. The model makes this one
  step. Lifecycle steps that run in between neither read nor write the session's
  record, so they commute with the write of it. The theorems of `Dispatch` hold
  whenever the sessions lock is free.
- A takeover is committed only after its generation was announced.

## Model

| member | source | states |
|---|---|---|
| `LifecycleTheorems.UniqueOwnership` | apps/gpservice/src/vpn_task.rs:280-361 | In every reachable state the admitted attempt has exactly one owner (an undropped reservation, one queued start, or the actor running or holding it) and every other attempt has none. |
| `LifecycleTheorems.StartFindsItsAdmission` | apps/gpservice/src/vpn_task.rs:581-640 | When the actor works on an attempt that attempt is the admission; a start never replaces a running attempt and meets no unjoined worker. |
| `LifecycleTheorems.BlindTakeIsOwn` | apps/gpservice/src/vpn_task.rs:749-774 | The unnamed take of the current admission on reconnect takes the ending attempt's own and completes exactly that one. |
| `LifecycleTheorems.ReservationRetainsAdmission` | apps/gpservice/src/vpn_task.rs:280-295 | A reservation that has not released always finds its own admission, so obtaining its drain cannot panic. |
| `LifecycleTheorems.IncompleteExactly` | apps/gpservice/src/vpn_task.rs:217-232 | An issued attempt is incomplete if and only if it is admitted or between the release of its admission and the store of its flag. |
| `LifecycleTheorems.CompletionMeansDrained` | apps/gpservice/src/vpn_task.rs:129-153 | Once an attempt's completion flag is set it has no owner and no worker, in every later state. |
| `LifecycleTheorems.OneWorker` | apps/gpservice/src/vpn_task.rs:732-739 | At most one connection worker is unjoined, and it is the admitted attempt's. |
| `LifecycleTheorems.StopIsConsistent` | apps/gpservice/src/vpn_task.rs:109-127 | A stop is requested if and only if the phase is Stopping; it implies the token fired, and closing implies a stop. |
| `LifecycleTheorems.DisconnectIsNeverLost` | apps/gpservice/src/vpn_task.rs:109-145 | After either form of disconnect no run ever publishes Connected for an attempt issued before it, whatever is queued and even if the stop event found the queue full. |
| `LifecycleTheorems.ShutdownIsNeverLost` | apps/gpservice/src/vpn_task.rs:176-184 | The same for every attempt once admission is closed. |
| `LifecycleTheorems.ScopedCancelSilencesExactly` | apps/gpservice/src/vpn_task.rs:655-730 | Firing only the token silences an attempt for ever if and only if the actor is not already past its token check for it with no stop requested. |
| `LifecycleWitnesses.PastCheckIsReachable` | apps/gpservice/src/vpn_task.rs:659-675 | That window exists: a run reaches a fired token with the announcement still to come. |
| `LifecycleTickets.TicketIsPublished` | apps/gpservice/src/vpn_task.rs:758-771 | A stored ticket means no admission and exactly that ReconnectRequired published; with no admission the published state is Disconnected, Failed or ReconnectRequired. |
| `LifecycleTickets.RedeemedOnce` | apps/gpservice/src/vpn_task.rs:65-72 | Over any run a reconnect ticket is redeemed at most once. |
| `LifecycleTickets.NotRedeemedAfterDisconnect` | apps/gpservice/src/vpn_task.rs:109-115 | No ticket of an earlier attempt is redeemed after a disconnect, in any continuation. |
| `LifecycleTickets.NotRedeemedAfterReservation` | apps/gpservice/src/vpn_task.rs:65-81 | Any successful reservation voids every ticket of earlier attempts for ever. |
| `LifecycleShutdown.ParkedIsWoken` | apps/gpservice/src/vpn_task.rs:353-361 | While shutting down the actor waits on an empty queue only if a reservation not fully dropped or a worker able to write remains. |
| `LifecycleExit.ShutdownCompletesExactly` | apps/gpservice/src/vpn_task.rs:485-518 | From any reachable state of a shutdown some run exits the loop if and only if no worker has died without reporting its end. |
| `LifecycleExit.CrashedNeverExits` | apps/gpservice/src/vpn_task.rs:732-739 | Once a worker has died silently no run, whatever its steps, exits the loop. |
| `LifecycleShutdown.ShutdownAdvancesExactly` | apps/gpservice/src/vpn_task.rs:489-497 | Step by step: during shutdown the service can take a step of its own unless it is parked with nothing queued or reserved and a dead worker. |
| `LifecycleShutdown.ShutdownTerminates` | apps/gpservice/src/vpn_task.rs:485-518 | After admission closes the number of draining steps in any run is bounded by a rank plus a constant per worker report. |
| `LifecycleShutdown.ExitIsFinal` | apps/gpservice/src/vpn_task.rs:515-517 | When the loop has exited no owner, worker, queued start or admission exists, and none appears in any continuation. |
| `LifecycleWitnesses.StrandedIsReachable` | apps/gpservice/src/vpn_task.rs:494-497 | A run in which a worker dies silently and the shutting-down actor parks; no continuation exits. |
| `LifecycleInvariant.StepKeeps` | apps/gpservice/src/vpn_task.rs:47-361 | Every step of every thread (client, dropping reservation, actor, worker) keeps the ownership, control and channel invariants. |
| `LifecycleOutcomes.EndPublishesWhatWasReported` | apps/gpservice/src/vpn_task.rs:732-786 | In every run, the publication that follows the join is read off the events the actor received: the ticket if and only if the worker asked for a reconnect while active, the token has not fired and the session it was started for still exists; else Failed if and only if a failure was reported while active; else Disconnected. |
| `LifecycleOutcomes.JoinedDecides` | apps/gpservice/src/vpn_task.rs:739-776 | Behind the join the reconnect branch is taken if and only if those conditions hold of the received events; otherwise the attempt settles. |
| `LifecycleOutcomes.SettlingPublishes` | apps/gpservice/src/vpn_task.rs:775-786 | A settling attempt publishes Failed if a failure was received while it was active, else Disconnected, under any interleaving. |
| `LifecycleOutcomes.RequeueingPublishes` | apps/gpservice/src/vpn_task.rs:749-774 | The reconnect branch publishes and stores the ticket of the session the attempt was started for, or publishes Disconnected if its token fired meanwhile. |
| `LifecycleAnswers.ReserveAnswersExactly` | apps/gpservice/src/vpn_task.rs:51-88 | A reservation is refused as unavailable exactly after closing, as busy exactly while some attempt has an owner, as stale exactly for another ticket than the stored one; otherwise it gets an unused number. |
| `LifecycleAnswers.CommitAnswersExactly` | apps/gpservice/src/vpn_task.rs:300-350 | A commit is refused exactly after closing, after its token fired, or on a full queue, in that order, and never as superseded; otherwise its start is queued last. |
| `LifecycleAnswers.DisconnectAnswers` | apps/gpservice/src/vpn_task.rs:109-127 | A disconnect with no owned attempt publishes Disconnected at once; otherwise it stops the owned attempt and queues the stop event if there is room. |
| `LifecycleAnswers.HandlingPublishes` | apps/gpservice/src/vpn_task.rs:530-716 | What handling a stop, an establishment, a member change or a suspension publishes, from which attempt runs and whether its token fired. |
| `LifecycleAnswers.StartAlwaysRuns` | apps/gpservice/src/vpn_task.rs:581-640 | A queued start always runs a worker under its own token; cancelled before, it is announced to nobody, otherwise it is announced as connecting. |
| `Completion.ReturnMeansDrained` | apps/gpservice/src/vpn_task.rs:259-277 | A wait on an attempt returns only when the attempt has no owner and no worker, and it has none in any later state. |
| `Completion.DisconnectWaitsForTheAdmission` | apps/gpservice/src/vpn_task.rs:129-144 | A waiting disconnect awaits exactly the admitted attempt, which is still incomplete then. |
| `Completion.NoWaiterIsLost` | apps/gpservice/src/vpn_task.rs:146-152 | No waiter sleeps past the notification of its attempt: it has returned or can move. |
| `Completion.WaiterReturnsSoon` | apps/gpservice/src/vpn_task.rs:230-231 | Each move of such a waiter shortens what remains, so it returns after at most three. |
| `LifecycleHandle.Handle.ReserveConnect` | apps/gpservice/src/vpn_task.rs:51-88 | In place, exactly the model's transition for reserving: refusals in order, the ticket consumed, the next number admitted in phase Preparing. |
| `LifecycleHandle.Handle.RequestDisconnect` | apps/gpservice/src/vpn_task.rs:109-127 | In place, exactly the model's transition for disconnecting: ticket dropped, token fired, phase Stopping, stop event offered to the queue, or Disconnected published when idle. |
| `LifecycleHandle.Handle.BeginDisconnectAndWait` | apps/gpservice/src/vpn_task.rs:129-144 | In place, exactly the model's transition for the locked part of a waiting disconnect and the attempt whose completion it awaits. |
| `LifecycleHandle.Handle.CloseAdmission` | apps/gpservice/src/vpn_task.rs:176-184 | In place, exactly the model's transition for closing admission and stopping whatever is admitted. |
| `LifecycleHandle.Handle.ActivateAttempt` | apps/gpservice/src/vpn_task.rs:201-215 | In place, exactly the model's transition for activation, refused for another attempt, a stop, a fired token or a phase other than Pending. |
| `LifecycleHandle.Handle.ClearAttempt` | apps/gpservice/src/vpn_task.rs:217-229 | In place, exactly the model's transition for releasing the admission only if it is the named attempt's. |
| `LifecycleHandle.Handle.Commit` | apps/gpservice/src/vpn_task.rs:300-350 | In place, exactly the model's transition for queueing the start atomically with phase Pending, with every refusal in order. |
| `LifecycleHandle.Handle.PublishConnected` | apps/gpservice/src/vpn_task.rs:718-730 | In place, exactly the model's transition for publishing Connected only for the active, unstopped admission. |
| `LifecycleHandle.Handle.PublishMembers` | apps/gpservice/src/vpn_task.rs:699-716 | In place, exactly the model's transition for publishing members, keeping details already published. |
| `LifecycleHandle.Handle.TakeForReconnect` | apps/gpservice/src/vpn_task.rs:753-774 | In place, exactly the model's transition for the reconnect branch at the end of an attempt. |
| `LifecycleHandle.Handle.DropReservation` | apps/gpservice/src/vpn_task.rs:353-361 | In place, exactly the model's transition for the three regions of dropping a reservation in order. |
| `VpnTask.Actor.Receive` | apps/gpservice/src/vpn_task.rs:530-579 | The actor's handling of one dequeued event up to its first access to shared state, as the model's dispatch. |
| `VpnTask.Actor.Act` | apps/gpservice/src/vpn_task.rs:581-786 | Each later region of the actor, as the model's step from that program counter; what those steps publish is pinned by `LifecycleOutcomes` and `LifecycleAnswers`. |
| `VpnTask.Actor.HandleNext` | apps/gpservice/src/vpn_task.rs:499-503 | On the object: taking an event is a step of the machine and keeps its whole invariant. |
| `VpnTask.Actor.Step` | apps/gpservice/src/vpn_task.rs:581-786 | On the object: each region is a step of the machine, keeps its whole invariant and leaves less to drain. |
| `VpnTask.Actor.Proceed` | apps/gpservice/src/vpn_task.rs:489-513 | On the object: from any state of the invariant the loop reaches its next wait, or exits with nothing admitted, active or unjoined. |
| `SessionRegistry.SessionRegistry.RetainUnexpired` | apps/gpservice/src/session_registry.rs:226-233 | The pruning loop keeps exactly the sessions that are not expired pending ones. |
| `SessionRegistry.SessionRegistry.CountPending` | apps/gpservice/src/session_registry.rs:234-237 | The counting loop returns the number of pending sessions. |
| `SessionRegistry.SessionRegistry.Issue` | apps/gpservice/src/session_registry.rs:223-274 | Pruning, the limit of sixteen, then a fresh pending record; every error path. |
| `SessionRegistry.SessionRegistry.BeginHandshake` | apps/gpservice/src/session_registry.rs:293-351 | The permit issued, or the refusal, with the token stored at the observed generation. |
| `SessionRegistry.SessionRegistry.PrepareAttach` | apps/gpservice/src/session_registry.rs:353-372 | The generation announced, or the refusal. |
| `SessionRegistry.SessionRegistry.CommitAttach` | apps/gpservice/src/session_registry.rs:374-408 | The compare-and-swap, the drains it cancels and the connection it replaces, including the overflow branch; which connection that is, is `HandshakeAnswers.TakeoverAnswersTheReplaced`. |
| `SessionRegistry.SessionRegistry.CancelHandshake` | apps/gpservice/src/session_registry.rs:410-430 | Dropping a permit undoes its own handshake only. |
| `SessionRegistry.SessionRegistry.ReserveConnection` | apps/gpservice/src/session_registry.rs:107-139 | Whether the lifecycle is asked, and the record kept of a granted non-tunnel attempt. |
| `SessionRegistry.SessionRegistry.StopNonTunnelAttachment` | apps/gpservice/src/session_registry.rs:171-191 | The scoped stop: the attachment closed, the matching drain cancelled and returned. |
| `SessionRegistry.SessionRegistry.DisconnectIfCurrent` | apps/gpservice/src/session_registry.rs:565-588 | Detaching at the current generation and cancelling that generation's attempt. |
| `SessionRegistry.SessionRegistry.Revoke` | apps/gpservice/src/session_registry.rs:590-608 | Removing a session, cancelling its attempt, and the connection to close. |
| `Handshake.OneOutstandingPermit` | apps/gpservice/src/session_registry.rs:293-351 | Each session has at most one outstanding permit, and it matches the stored token and generation. |
| `Handshake.AnnouncedGenerationIsInstalled` | apps/gpservice/src/session_registry.rs:353-408 | Whatever happened between announcing and committing, a successful commit installs exactly the announced generation and the connection. |
| `Handshake.CommitSucceedsExactly` | apps/gpservice/src/session_registry.rs:374-407 | A commit succeeds if and only if the compare holds and the generation can still grow, which is when announcing succeeds. |
| `Handshake.CommittedDropIsNoop` | apps/gpservice/src/session_registry.rs:611-617 | Dropping a permit that attached changes nothing, in every later state. |
| `Handshake.FailedHandshakeIsLocal` | apps/gpservice/src/session_registry.rs:410-430 | Dropping any permit leaves every other session, and an attached connection, untouched. |
| `Handshake.GenerationsNeverDecrease` | apps/gpservice/src/session_registry.rs:386-404 | A session is never reissued and never goes back a generation, over any run. |
| `Handshake.AttachStrictlyIncreases` | apps/gpservice/src/session_registry.rs:393-404 | After a successful attach the generation is strictly larger in every continuation. |
| `Handshake.PendingIsBounded` | apps/gpservice/src/session_registry.rs:234-240 | At most sixteen credentials ever wait for their first attach. |
| `HandshakeAnswers.TakeoverAnswersTheReplaced` | apps/gpservice/src/session_registry.rs:393-405 | A successful attach answers exactly the connection the session's latest earlier attach installed, or nothing if there was none or it was lost since. |
| `HandshakeAnswers.RevocationAnswersTheAttached` | apps/gpservice/src/session_registry.rs:590-608 | A revocation hands back the connection the history of attaches, losses and revocations leaves attached, or nothing; so did every one before it. |
| `HandshakeAnswers.AttachmentsAreConserved` | apps/gpservice/src/session_registry.rs:374-608 | Every connection ever attached is still attached, was lost, or was handed back once to be closed. |
| `HandshakeAnswers.BeginAnswersExactly` | apps/gpservice/src/session_registry.rs:293-351 | A handshake is refused exactly for another instance, for an unknown session, another version or a credential not attached in time, and while another permit of the session is outstanding; otherwise its permit observes how often the session was attached. |
| `HandshakeAnswers.IssueAnswersExactly` | apps/gpservice/src/session_registry.rs:223-274 | An issue is refused exactly while sixteen unexpired credentials wait, or when none could be drawn. |
| `HandshakeAnswers.FreshCredentialAttaches` | apps/gpservice/src/session_registry.rs:223-408 | A fresh credential presented within the activation time goes through handshake and attach to generation 1, and nobody is replaced. |
| `HandshakeAnswers.CommitAnswersExactly` | apps/gpservice/src/session_registry.rs:374-408 | A permit commits if and only if its session stands, it has not attached before and the generation can grow; each refusal exactly otherwise. |
| `Dispatch.LiveWorkIsAnchored` | apps/gpservice/src/request_dispatcher.rs:129-148 | Every admitted, uncancelled non-tunnel attempt is the one its session records, and the session is attached at the attempt's generation through its connection, not stopped. |
| `Dispatch.IncompleteWork` | apps/gpservice/src/session_registry.rs:123-137 | An incomplete, uncancelled non-tunnel attempt is anchored in that sense if and only if no later non-tunnel attempt was reserved for its session. |
| `Dispatch.SupersededIsCompleting` | apps/gpservice/src/vpn_task.rs:217-232 | Such an attempt is admitted, and then anchored, or the actor is about to store its completion flag. |
| `DispatchWitness.UnrecordedIsReachable` | apps/gpservice/src/vpn_task.rs:226-231 | A run into that window: a second connect takes the record over while the first attempt is still incomplete. |
| `Dispatch.NothingSurvives` | apps/gpservice/src/session_registry.rs:171-191 | Once an attachment is over, no non-tunnel attempt reserved on it is live in any later state. |
| `Dispatch.EndingIsOver` | apps/gpservice/src/session_registry.rs:374-408 | Replacement, disconnection, scoped stop and revocation each make the attachment they end over. |
| `Dispatch.CancellationIsScoped` | apps/gpservice/src/session_registry.rs:565-609 | The registry never cancels a tunnel attempt. Each section cancels only work anchored on the attachment it names: the stopped connection, the disconnected generation, the generation the committing permit observed, or the revoked session's own. A stop naming an old attachment never cancels a successor. |
| `Dispatch.CommitNeedsAttachment` | apps/gpservice/src/session_registry.rs:141-169 | A non-tunnel start is queued only from an attachment still current, open and not stopped. |
| `Dispatch.CommitRunsExactly` | apps/gpservice/src/session_registry.rs:141-169 | A prepared start is committed if and only if the lifecycle commits it and, for non-tunnel work, its attachment is unchanged, open and not stopped; for a tunnel, the session is active. |
| `Dispatch.AttachedMayConnect` | apps/gpservice/src/session_registry.rs:107-139 | A client on an open attachment nobody asked to stop (a tunnel request: on any open attachment) gets whatever the lifecycle grants, under a new number; the session then records exactly granted non-tunnel work and forgets only completed work. |
| `Dispatch.StopAnswersWithTheDrain` | apps/gpservice/src/session_registry.rs:171-191 | A scoped stop answers exactly for the open attachment at that generation, with the drain of the only work live on the named connection, which it has cancelled. |
| `Dispatch.StepKeeps` | apps/gpservice/src/request_dispatcher.rs:104-186 | Every interleaved step of registry and lifecycle keeps both invariants. |
| `Hip.UploadIsConcatenation` | apps/gpservice/src/session_registry.rs:462-482 | In every run the upload buffer is the in-order concatenation of the chunks accepted since the request that opened it, within 48 KiB, under the id that request drew. |
| `Hip.ReportIsWhatWasAccepted` | apps/gpservice/src/session_registry.rs:483-490 | The stored report is exactly what was accepted for the latest storing request, validated and within the limit, and there is one if and only if some request stored one. |
| `Hip.ChunksAreInOrder` | apps/gpservice/src/session_registry.rs:472-479 | Each accepted chunk came from an active session, was at most 8 KiB, started where the text received so far ended and named the open upload. |
| `Hip.ProgressIsTheOpenUpload` | apps/gpservice/src/session_registry.rs:468-482 | In every run a progress answer names the id drawn by the request that opened the upload. |
| `Hip.AnswersExactly` | apps/gpservice/src/session_registry.rs:449-491 | After every run, from the log of calls and answers alone: a chunk is accepted if and only if it opens an upload or continues the open one where it ends, within both limits; it is stored if and only if it also completes a valid report; unauthorized if and only if the session is not active. |
| `Hip.UploadIsTheOpenOne` | apps/gpservice/src/session_registry.rs:462-490 | The upload held is the one last opened, unless a chunk that continued it completed it or overran the limit. |
| `Hip.UploadSucceeds` | apps/gpservice/src/ws_connection.rs:413-439 | The loop of a client that sends chunk after chunk under the id it was answered stores the whole text. |
| `Hip.WholeUploadSucceeds` | apps/gpservice/src/session_registry.rs:449-491 | From any record, every valid text within 48 KiB, cut into chunks within 8 KiB, ends up stored as the report. |
| `Hip.ReadingIsLossless` | apps/gpservice/src/session_registry.rs:515-536 | Reading from any boundary and advancing by what came back terminates, reproduces the rest and yields no empty chunk before the end. |
| `Hip.ChunksAreText` | apps/gpservice/src/session_registry.rs:531-535 | Every chunk read is at most 16 KiB and the encoding of whole characters of the document. |
| `Hip.PreviewIsReproduced` | apps/gpservice/src/session_registry.rs:504-536 | From offset 0 the whole document comes back. |
| `Hip.Record.AppendChunk` | apps/gpservice/src/session_registry.rs:449-491 | In place, the model's answer and new state for an upload request on every path; which answer that is, is `Hip.AnswersExactly`. |
| `Hip.Record.PreviewChunk` | apps/gpservice/src/session_registry.rs:515-536 | The back-off loop: refused exactly for a wrong id or an offset past the end or inside a character; otherwise up to the largest boundary within the limit. |
| `Utf8.DecodeUndoesEncode` | apps/gpclient/src/diagnostics.rs:85 | Lossy decoding of any well-formed text is the text itself. |
| `Utf8.BoundaryIsBetween` | apps/gpservice/src/session_registry.rs:528-534 | A character boundary always lies between two characters of the text (its converse is `Utf8.BetweenIsBoundary`). |
| `Utf8.ReadsExactly` | apps/gpclient/src/diagnostics.rs:85 | A character is read from the front of the input exactly when its encoding comes next. |
| `Utf8.ReplacesMaximally` | apps/gpclient/src/diagnostics.rs:85 | Where none comes next, one replacement character stands for the longest stretch that starts some encoding, or for a single byte. |
| `Replica.ReplicaRefinesServer` | apps/gpservice/src/ws_server.rs:110-226 | For a registered connection, replaying any non-empty part of what it was sent gives the state the events up to the last revision in it had set. |
| `Replica.NoGaps` | apps/gpwidget/src/daemon/ws_client.rs:217-240 | No client, registered or not, ever meets a revision gap or a second attach message. |
| `Replica.DrainedIsCurrent` | apps/gpservice/src/ws_server.rs:191-226 | A registered connection that has read everything holds the state of the latest VPN-state event at the current revision; its queue is within capacity. |
| `Replica.ServerHoldsLastSet` | apps/gpservice/src/ws_server.rs:191-209 | In every run the server holds what the latest VPN-state event said, or the first state, at the revision that counts the events. |
| `Replica.OpenClientIsCurrent` | apps/gpservice/src/ws_server.rs:204-226 | A client that is neither closing nor gone and was not removed, refused or replaced misses nothing: what it was sent replays to the state of the latest VPN-state event. |
| `Replica.ResyncRestores` | apps/gpservice/src/ws_server.rs:174-182 | A resync that finds room brings any client, registered or not, to the current revision and state. |
| `Replica.TakeoverReplaces` | apps/gpservice/src/ws_server.rs:144-152 | A granted takeover commits the candidate and removes the replaced connection, which gets no event in any continuation. |
| `Replica.RefusedLeaves` | apps/gpservice/src/ws_server.rs:144-160 | A candidate the registry refuses is never committed and gets no event in any continuation. |
| `Replica.MissedNeverCommits` | apps/gpservice/src/ws_server.rs:131-160 | A candidate that missed an event never commits a takeover, not even after a later snapshot. |
| `Replica.CommitIsCurrent` | apps/gpservice/src/ws_server.rs:137-152 | A takeover is granted only to a candidate that was sent everything. |
| `WsServer.Context.PrepareConnection` | apps/gpservice/src/ws_server.rs:110-129 | Registering with the attach message first in the queue. |
| `WsServer.Context.CommitConnection` | apps/gpservice/src/ws_server.rs:131-160 | Refusing unregistered or closed candidates, the swap, the removal on failure. |
| `WsServer.Context.RemoveClosedConnections` | apps/gpservice/src/ws_server.rs:168-172 | The retaining loop keeps exactly the open connections. |
| `WsServer.Context.SendSnapshot` | apps/gpservice/src/ws_server.rs:174-182 | A snapshot at the current revision, or a refusal when the queue is full. |
| `WsServer.Context.SendEvent` | apps/gpservice/src/ws_server.rs:191-226 | The state, revision, deliveries and closures of one event, including exhaustion of the revision; the state over runs is `Replica.ServerHoldsLastSet`. |
| `WsServer.Context.RetainReached` | apps/gpservice/src/ws_server.rs:211-224 | The sending loop reaches exactly the connections with room, and closes and forgets the others. |
| `Replies.AtMostOneReply` | apps/gpservice/src/ws_connection.rs:396-403 | No request id is answered more often than it was accepted; each acceptance is answered, withdrawn or still pending. |
| `Replies.QueuedRepliesArePending` | apps/gpservice/src/ws_connection.rs:165-175 | Queued replies are distinct, all pending, and produced by nobody else. |
| `Replies.UnknownReplyIsUnreachable` | apps/gpservice/src/ws_connection.rs:166-169 | The branch that closes on a reply to no pending request is never taken; at most 64 requests are pending. |
| `Replies.RequestAnswersExactly` | apps/gpservice/src/ws_connection.rs:396-585 | In every run a request is accepted if and only if its session is current, fewer than 64 are accepted and not yet answered or withdrawn, and its id is not among those; when the connection ends, closes or queues the reply, by kind of request and room in the queue. |
| `Replies.PendingIsOutstanding` | apps/gpservice/src/ws_connection.rs:165-175 | The pending ids are exactly those accepted more often than answered and withdrawn, and as many. |
| `Replies.AnswerableExactly` | apps/gpservice/src/ws_connection.rs:579-584 | While the loop runs a pending request can still be answered in some run if and only if its producer has not ended without a reply. |
| `Replies.LostStaysPending` | apps/gpservice/src/hip_preview.rs:98-99 | A request whose reply was dropped stays pending and unanswered in every continuation. |
| `Replies.FullQueueLosesPreview` | apps/gpservice/src/hip_preview.rs:98-99 | A run that fills the queue with events while a preview finishes; its request is never answered. |
| `Replies.PendingIsOnItsWay` | apps/gpservice/src/hip_preview.rs:81-100 | A pending request has a queued reply, a running producer or a producer that ended without one. |
| `Replies.Connection.HandleRequest` | apps/gpservice/src/ws_connection.rs:396-585 | In place, the model's step for each kind of request: replies made at once, the two treatments of a full queue, previews and spawned dispatches. |
| `Replies.Connection.TakeCommand` | apps/gpservice/src/ws_connection.rs:156-177 | In place, the model's step for one dequeued command. |
| `Replies.Connection.FinishPreview` | apps/gpservice/src/hip_preview.rs:98-99 | In place, the end of a preview worker, whose reply may be dropped. |
| `Monitor.FreshIsFenced` | crates/gptunnel/src/monitor.rs:253-281 | In every run fresh statistics imply collection on, a connected active transport, and a sample answering a request of the current generation and state sequence. |
| `Monitor.SequencesOrder` | crates/gptunnel/src/monitor.rs:87-95 | The statistics sequence equals the global sequence and is at least the state sequence. |
| `Monitor.SequenceIdentifies` | crates/gptunnel/src/monitor.rs:110-146 | The sequence never falls, and while it stands still nothing a subscriber sees changes. |
| `Monitor.ClockNeverGoesBack` | crates/gptunnel/src/monitor.rs:97-104 | Elapsed milliseconds never decrease, across any reconnects. |
| `Monitor.EndIsFinal` | crates/gptunnel/src/monitor.rs:166-184 | After the end no event, toggle or request changes anything and the clock is frozen. |
| `Monitor.EstablishingMeansNotStarted` | crates/gptunnel/src/monitor.rs:201-227 | Before the end the phase is Establishing if and only if the clock has not started, and then it reads 0. |
| `Monitor.ClockStartsOnce` | crates/gptunnel/src/monitor.rs:201-202 | The clock counts from the first Established, through every reconnect. |
| `MonitorHistory.ShowsWhatWasReported` | crates/gptunnel/src/monitor.rs:181-251 | Until the end, in every run: the phase follows from the link events, transport and configuration are the last reported, the revision counts configuration changes, collection is as last switched and the generation counts its switches. All of it is read off the list of events. |
| `MonitorHistory.ShowsTheEnd` | crates/gptunnel/src/monitor.rs:166-177 | After an end: ended, no transport, no collection, statistics over. |
| `MonitorHistory.OffExactly` | crates/gptunnel/src/monitor.rs:130-164 | Statistics read as over if and only if an end was reported, and as disabled if and only if collection is off before it. |
| `MonitorHistory.SampleIsTheReply` | crates/gptunnel/src/monitor.rs:253-281 | The retained sample changes exactly when a reply answers the pending request, and is then that reply, stamped with moment and state. |
| `MonitorHistory.ChangeUnsettles` | crates/gptunnel/src/monitor.rs:130-146 | When the observed state changes while collection is on, statistics wait on an active tunnel without a sample and are stale otherwise. |
| `MonitorHistory.UnansweredIsStale` | crates/gptunnel/src/monitor.rs:398-407 | A request unanswered for four seconds makes the statistics stale when the sampler next looks. |
| `MonitorHistory.RequestIsStamped` | crates/gptunnel/src/monitor.rs:408-416 | An issued request remembers the generation, state sequence and moment it is for. |
| `MonitorHistory.RefusedIsStale` | crates/gptunnel/src/monitor.rs:408-429 | A refused request is remembered and makes the statistics stale; one not issued changes nothing. |
| `Monitor.Observer.ApplyEvent` | crates/gptunnel/src/monitor.rs:181-251 | In place, the model's transition for one event, every field included; what it shows over runs is `MonitorHistory.ShowsWhatWasReported`. |
| `Monitor.Observer.ReceiveStatistics` | crates/gptunnel/src/monitor.rs:253-281 | In place, the model's transition for this operation, every field included. |
| `Monitor.Observer.End` | crates/gptunnel/src/monitor.rs:166-177 | In place, the model's transition for this operation, every field included. |
| `Monitor.Observer.SetEnabled` | crates/gptunnel/src/monitor.rs:148-164 | In place, the model's transition for this operation, every field included. |
| `Monitor.Observer.AskForSample` | crates/gptunnel/src/monitor.rs:389-429 | In place, the model's transition for this operation, every field included. |
| `CommandPipe.CancelIsDelivered` | crates/openconnect/src/vpn.rs:115-125 | After a cancel the attachment open now was told of it, at attach or by the command, if and only if its own command write did not fail. |
| `CommandPipe.CancelIsWrittenOnce` | crates/openconnect/src/vpn.rs:115-125 | The cancel command is written at most once. |
| `CommandPipe.AttachReportsExactly` | crates/openconnect/src/vpn.rs:81-85 | An attach reports a cancel if and only if one was called before it. |
| `CommandPipe.WritesAreToTheOpenPipe` | crates/openconnect/src/vpn.rs:87-91 | Every command goes to the attachment open at that moment, so none follows a detach. |
| `CommandPipe.NoStatisticsAfterCancel` | crates/openconnect/src/vpn.rs:93-97 | No statistics command follows a cancel. |
| `CommandPipe.OneOutstandingCommand` | crates/openconnect/src/vpn.rs:93-113 | Between two statistics commands on one attachment there is an answer. |
| `CommandPipe.RequestAnswersExactly` | crates/openconnect/src/vpn.rs:93-109 | A statistics request is issued exactly when a pipe is open, no cancel was called, nothing is unanswered and the write succeeded; an error exactly when that write failed; otherwise nothing is written. |
| `CommandPipe.CancelAnswersExactly` | crates/openconnect/src/vpn.rs:115-125 | A cancel fails exactly when it is the first, a pipe is open and its write fails. |
| `CommandPipe.FailedWriteIsNotRepeated` | crates/openconnect/src/vpn.rs:117-123 | A failed cancel write is not repeated: an attachment can stay open without hearing of it. |
| `CommandPipe.Cancellation.RequestStatistics` | crates/openconnect/src/vpn.rs:93-109 | In place, the model's transition, answer and write. |
| `CommandPipe.Cancellation.Cancel` | crates/openconnect/src/vpn.rs:115-125 | In place, the model's transition, answer and write. |
| `Credentials.Serve` | apps/gpservice/src/desktop_client.rs:59-116 | For every script of waits and failures the log is the protocol's; at every wait the issued, unrevoked credentials are the one in force and the pending one; every way out has revoked all, none twice; rendering recovery is granted once. |
| `Credentials.RunExchange` | apps/gpservice/src/desktop_client.rs:73-98 | The inner loop: switches begun, committed and abandoned as the control bytes say, the books balanced at each wait. |
| `Credentials.SwitchDoesWhatItSays` | apps/gpservice/src/desktop_client.rs:81-95 | From any wait for a byte: begin and commit (bytes 2, 3) put the newly issued credential in force, begin and cancel (2, 4) leave the old one; one is issued and nothing is left pending. |
| `Credentials.EndingDoesWhatItSays` | apps/gpservice/src/desktop_client.rs:96-114 | From any wait for a byte: how bytes 0 and 1, end of input, a cancellation and a failure end or renew the channel. |
| `Credentials.OutOfTurnFails` | apps/gpservice/src/desktop_client.rs:82-95 | A second begin, or a commit or cancel with nothing pending, ends the channel in failure. |
| `Credentials.UnknownByteFails` | apps/gpservice/src/desktop_client.rs:113 | Any byte above 5 ends the channel in failure. |
| `Credentials.InstallerIsAnswered` | apps/gpservice/src/desktop_client.rs:78-80 | The installer query is answered and leaves place and credentials as they were. |
| `Credentials.InterruptionDoesWhatItSays` | apps/gpservice/src/desktop_client.rs:68-75 | A failed issue or write ends the channel in failure; a cancellation during a write ends it well. |
| `Diagnostics.ReprintedIsSame` | apps/gpclient/src/diagnostics.rs:77-162 | For every input that parses, printing the report and parsing it again gives the same report. |
| `Diagnostics.ParseUndoesText` | apps/gpclient/src/diagnostics.rs:144-162 | Parsing undoes printing on every report with the listed fields and clean values of at most 512 bytes. |
| `Diagnostics.ParseRange` | apps/gpclient/src/diagnostics.rs:116-141 | Those are exactly the reports parsing can return. |
| `DiagnosticsExact.ParsesExactly` | apps/gpclient/src/diagnostics.rs:77-142 | An input parses to a report if and only if its non-empty lines are twenty-eight records with distinct names, the schema and every field, and the report is what they say. |
| `DiagnosticsExact.NormalizedExactly` | apps/gpclient/src/diagnostics.rs:116-125 | The normalised value is the longest prefix, controls blanked, that fits in 512 bytes. |
| `DiagnosticsExact.LinesAreTheInput` | apps/gpclient/src/diagnostics.rs:84 | Splitting at newlines loses nothing and no line holds one. |
| `Diagnostics.ParseReport` | apps/gpclient/src/diagnostics.rs:77-142 | The record loop computes the specified parse, with each error. |
| `Diagnostics.ParseLine` | apps/gpclient/src/diagnostics.rs:85-135 | One record: lossy decoding, framing, limits, status, schema, duplicates. |
| `Diagnostics.Normalize` | apps/gpclient/src/diagnostics.rs:117-125 | The normalising loop: controls to blanks, as many characters as fit in 512 bytes. |
| `Diagnostics.PrintReport` | apps/gpclient/src/diagnostics.rs:144-162 | The printing loop computes the specified text. |
| `ShellQuote.QuotingIsOneWord` | crates/openconnect/src/vpn.rs:674-676 | Tokenising the quoted path by the escape and single-quote rules yields exactly one word, the path. |
| `ShellQuote.QuotingComposes` | crates/openconnect/src/vpn.rs:674-676 | In front of further words it is still one word and they are read as they would be alone. |
| `ShellQuote.QuotingIsInjective` | crates/openconnect/src/vpn.rs:674-676 | Different paths quote differently. |

## Left out

- The transport: Noise, WebSocket framing, JSON, heartbeats and socket I/O.
- Tunnel telemetry to clients, the tunnel binding and the statistics watch cells.
- `fit_snapshot_message` and truncation of tunnel configurations; a refused preparation, which changes nothing, is not a step.
- HIP report generation and validation: the validator is an arbitrary predicate.
- The submitted-report copy a session keeps, and its one-megabyte limit.
- The gateway sessions and identity resources a start carries.
- Exhaustion of attempt numbers and of the monitor's 64-bit sequence, generation and configuration counters, where the code overflows or panics; the models count without bound. Registry generations and replica revisions do have their 64-bit limit.
- Real time: expiry compares abstract instants, and the sampling interval and its wake-ups are not modelled.
- Whether a native statistics reply belongs to the request the monitor has pending: any reply answers it, as in the code.
- GUI installation, approvals, scripts, device anchors and file permissions.
- The remaining requests of the dispatcher and the validation of connect requests.
- Command-line flow, authentication, browser launching and presentation.
- Replica.ReplicaRefinesServer: is about the VPN state only, because a snapshot overlays newer tunnel state.
- ShellQuote.QuotingIsOneWord: the tokenizer knows no expansions; it rejects unquoted characters with other meanings instead of interpreting them.
- Replies.Connection.HandleRequest: the content of replies is not modelled.
