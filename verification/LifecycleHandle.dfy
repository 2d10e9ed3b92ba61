/**
 `LifecycleHandle` and `ConnectReservation` as the objects they are: fields
 updated in place under the mutex. Every method is proved to make exactly the
 transition of the `Lifecycle` model named in its postcondition.
 */
module LifecycleHandle {
  import opened Basics
  import L = Lifecycle

  class Handle {
    var closed: bool
    var nextAttempt: L.Attempt
    var current: Option<L.Admission>
    var restart: Option<L.Ticket>
    var cancelled: set<L.Attempt>
    var completed: set<L.Attempt>
    var queue: seq<L.Event>
    var slots: nat
    var gone: bool
    var sent: seq<L.VpnState>

    function View(): L.Shared
      reads this
    {
      L.Shared(closed, nextAttempt, current, restart, cancelled, completed, queue, slots, gone, sent)
    }

    constructor ()
      ensures View() == L.INITIAL_SHARED
    {
      closed, nextAttempt, current, restart := false, 0, None, None;
      cancelled, completed, queue, slots, gone := {}, {}, [], 0, false;
      sent := [L.Disconnected];
    }

    method TrySend(e: L.Event) returns (ok: bool)
      modifies this`queue
      ensures ok == L.HasRoom(old(View()))
      ensures View() == L.TrySend(old(View()), e)
    {
      ok := !gone && |queue| + slots < L.QUEUE_CAPACITY;
      if ok { queue := queue + [e]; }
    }

    method SendState(v: L.VpnState)
      modifies this`sent
      ensures View() == L.Publish(old(View()), v)
    {
      sent := sent + [v];
    }

    method ReserveConnect(ticket: Option<L.Ticket>) returns (grant: L.Grant)
      modifies this
      ensures (View(), grant) == L.ReserveConnect(old(View()), ticket)
    {
      if closed { return L.Refused(L.Unavailable); }
      if current.Some? { return L.Refused(L.Busy); }
      if ticket.Some? && restart != ticket { return L.Refused(L.StaleTicket); }
      restart := None;
      var attempt := nextAttempt;
      nextAttempt := nextAttempt + 1;
      current := Some(L.Admission(attempt, L.Preparing, false));
      grant := L.Granted(attempt);
    }

    method RequestDisconnect()
      modifies this
      ensures View() == L.RequestDisconnect(old(View()))
    {
      restart := None;
      match current {
        case None => SendState(L.Disconnected);
        case Some(admission) =>
          if admission.stopRequested { return; }
          cancelled := cancelled + {admission.attempt};
          current := Some(L.Admission(admission.attempt, L.Stopping, true));
          var _ := TrySend(L.Stop(admission.attempt));
      }
    }

    /** `disconnect_and_wait` up to its first wait: the attempt whose completion it then waits for. */
    method BeginDisconnectAndWait() returns (awaited: Option<L.Attempt>)
      modifies this
      ensures (View(), awaited) == L.BeginDisconnectAndWait(old(View()))
    {
      match current {
        case None => return None;
        case Some(admission) =>
          if !admission.stopRequested {
            var _ := TrySend(L.Stop(admission.attempt));
            cancelled := cancelled + {admission.attempt};
            current := Some(L.Admission(admission.attempt, L.Stopping, true));
          }
          awaited := Some(admission.attempt);
      }
    }

    method CloseAdmission()
      modifies this
      ensures View() == L.CloseAdmission(old(View()))
    {
      closed := true;
      match current {
        case None =>
        case Some(admission) =>
          current := Some(L.Admission(admission.attempt, L.Stopping, true));
          cancelled := cancelled + {admission.attempt};
      }
    }

    method ActivateAttempt(attempt: L.Attempt) returns (activated: bool)
      modifies this`current
      ensures (View(), activated) == L.ActivateAttempt(old(View()), attempt)
    {
      match current {
        case None => return false;
        case Some(admission) =>
          if admission.attempt != attempt || admission.stopRequested || attempt in cancelled ||
             admission.phase != L.Pending {
            return false;
          }
          current := Some(admission.(phase := L.Active));
          activated := true;
      }
    }

    /** The locked part of `clear_attempt`; the caller stores the completion flag after unlocking. */
    method ClearAttempt(attempt: L.Attempt) returns (found: bool)
      modifies this`current
      ensures (View(), found) == L.ClearAttempt(old(View()), attempt)
    {
      match current {
        case None => return false;
        case Some(admission) =>
          if admission.attempt != attempt { return false; }
          current := None;
          found := true;
      }
    }

    method StoreCompleted(attempt: L.Attempt)
      modifies this`completed
      ensures View() == L.StoreCompleted(old(View()), attempt)
    {
      completed := completed + {attempt};
    }

    method Commit(attempt: L.Attempt, session: Option<L.SessionId>) returns (result: L.CommitResult)
      modifies this
      ensures (View(), result) == L.CommitReservation(old(View()), attempt, session)
    {
      if closed { return L.TaskUnavailable; }
      match current {
        case None => return L.Superseded;
        case Some(admission) =>
          if admission.attempt != attempt { return L.Superseded; }
          if admission.stopRequested || attempt in cancelled { return L.PreparationCancelled; }
          if gone { return L.TaskUnavailable; }
          var ok := TrySend(L.Start(attempt, session));
          if !ok { return L.QueueFull; }
          current := Some(admission.(phase := L.Pending));
          result := L.Accepted;
      }
    }

    method PublishConnected(attempt: L.Attempt)
      modifies this`sent
      ensures View() == L.PublishConnected(old(View()), attempt)
    {
      match current {
        case None =>
        case Some(admission) =>
          if admission.attempt == attempt && admission.phase == L.Active && !admission.stopRequested {
            SendState(L.Connected(attempt));
          }
      }
    }

    method PublishMembers(attempt: L.Attempt)
      modifies this`sent
      ensures View() == L.PublishMembers(old(View()), attempt)
    {
      if current.None? || current.value.attempt != attempt || current.value.stopRequested { return; }
      var published := L.Published(View());
      SendState(L.Connected(if published.Connected? then published.attempt else attempt));
    }

    method TakeForReconnect(attempt: L.Attempt, owner: L.SessionId)
      modifies this
      ensures View() == L.TakeForReconnect(old(View()), attempt, owner)
    {
      match current {
        case None =>
        case Some(admission) =>
          current := None;
          if admission.attempt !in cancelled && !admission.stopRequested {
            restart := Some(L.Ticket(attempt, owner));
            SendState(L.ReconnectRequired(L.Ticket(attempt, owner)));
          } else {
            SendState(L.Disconnected);
          }
          StoreCompleted(admission.attempt);
      }
    }

    /** `Drop for ConnectReservation` run without interference: four `Release` steps of the model. */
    method DropReservation(attempt: L.Attempt)
      modifies this
      ensures
        var cancelled := L.CancelToken(old(View()), attempt);
        var (cleared, found) := L.ClearAttempt(cancelled, attempt);
        var stored := if found then L.StoreCompleted(cleared, attempt) else cleared;
        View() == L.TrySend(stored, L.PreparationReleased)
    {
      cancelled := cancelled + {attempt};
      var found := ClearAttempt(attempt);
      if found { StoreCompleted(attempt); }
      var _ := TrySend(L.PreparationReleased);
    }
  }
}
