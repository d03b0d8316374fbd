/**
 * The provider's booking manager: it loads the provider's appointments and
 * lets the provider cancel or complete a confirmed one, patching the loaded
 * list in place of a refetch.
 */
module ManageBookings {
  import opened JsValues
  import opened Entities

  const Cancelled: string := "cancelled"
  const Completed: string := "completed"

  const CancelledMessage: string := "Appointment cancelled."
  const CancelFailedMessage: string := "Failed to cancel appointment."
  const CompletedMessage: string := "Appointment marked as completed."
  const CompleteFailedMessage: string := "Failed to update appointment."

  /**
   * `prev.map((a) => (a.id === id ? { ...a, status } : a))`: every
   * appointment with the target id gets the new status; nothing else changes.
   */
  function SetStatus(items: seq<Appointment>, id: int, status: string): (r: seq<Appointment>)
    ensures |r| == |items|
    ensures forall i :: 0 <= i < |items| ==>
              r[i] == if items[i].id == id then items[i].(status := status) else items[i]
    decreases |items|
  {
    if items == [] then []
    else
      var head := if items[0].id == id then items[0].(status := status) else items[0];
      [head] + SetStatus(items[1..], id, status)
  }

  /** The patch keeps every appointment's id, so the order of the list is that of its ids. */
  lemma SetStatusKeepsIds(items: seq<Appointment>, id: int, status: string)
    ensures forall i :: 0 <= i < |items| ==> SetStatus(items, id, status)[i].id == items[i].id
    ensures forall i :: 0 <= i < |items| && items[i].id == id ==> SetStatus(items, id, status)[i].status == status
  {
  }

  /** Only the status field changes: every other field of every appointment is kept. */
  lemma SetStatusOnlyTouchesStatus(items: seq<Appointment>, id: int, status: string)
    ensures forall i :: 0 <= i < |items| ==>
              SetStatus(items, id, status)[i].(status := items[i].status) == items[i]
  {
  }

  /** Patching twice with the same status is patching once; cancelling a cancelled appointment keeps it cancelled. */
  lemma SetStatusIdempotent(items: seq<Appointment>, id: int, status: string)
    ensures SetStatus(SetStatus(items, id, status), id, status) == SetStatus(items, id, status)
  {
  }

  /** An id that no appointment has leaves the list as it is. */
  lemma SetStatusUnknownId(items: seq<Appointment>, id: int, status: string)
    requires forall i :: 0 <= i < |items| ==> items[i].id != id
    ensures SetStatus(items, id, status) == items
  {
  }

  /** The Cancel and Complete buttons are shown only for a confirmed appointment. */
  predicate ActionsOffered(a: Appointment)
  {
    a.status == Confirmed
  }

  /** After a cancel or complete is applied, the target appointments offer no further action. */
  lemma NoActionsAfterPatch(items: seq<Appointment>, id: int, status: string)
    requires status in {Cancelled, Completed}
    ensures forall i :: 0 <= i < |items| && items[i].id == id ==> !ActionsOffered(SetStatus(items, id, status)[i])
    ensures forall i :: 0 <= i < |items| && items[i].id != id ==>
              ActionsOffered(SetStatus(items, id, status)[i]) == ActionsOffered(items[i])
  {
  }

  class BookingsView {
    var appointments: seq<Appointment>
    var loading: bool
    var actionMessage: string

    constructor ()
      ensures appointments == [] && loading && actionMessage == ""
    {
      appointments := [];
      loading := true;
      actionMessage := "";
    }

    /**
     * The load effect. Without a provider id nothing is requested and the
     * view keeps loading; otherwise the list is replaced only by a reply whose
     * `status` is "ok", and loading ends whatever the outcome.
     */
    method Load(user: UserValue, reply: Fetched<ListBody<Appointment>>) returns (requested: bool)
      requires StatusOk(reply) ==> reply.body.value.items.Some?
      modifies this
      ensures requested == HasProviderId(user)
      ensures !requested ==> appointments == old(appointments) && loading == old(loading)
      ensures requested ==> !loading
      ensures requested && StatusOk(reply) ==> appointments == reply.body.value.items.value
      ensures requested && !StatusOk(reply) ==> appointments == old(appointments)
      ensures actionMessage == old(actionMessage)
    {
      if !HasProviderId(user) {
        return false;
      }
      requested := true;
      if StatusOk(reply) {
        appointments := reply.body.value.items.value;
      }
      loading := false;
    }

    /** `cancelAppointment(id)`: a reply with `res.ok` patches the list; anything else only sets the failure message. */
    method Cancel(id: int, reply: Fetched<()>)
      modifies this
      ensures HttpOk(reply) ==> appointments == SetStatus(old(appointments), id, Cancelled)
      ensures HttpOk(reply) ==> actionMessage == CancelledMessage
      ensures !HttpOk(reply) ==> appointments == old(appointments) && actionMessage == CancelFailedMessage
      ensures loading == old(loading)
    {
      if !HttpOk(reply) {
        actionMessage := CancelFailedMessage;
        return;
      }
      actionMessage := CancelledMessage;
      appointments := SetStatus(appointments, id, Cancelled);
    }

    /** `completeAppointment(id)`: as Cancel, with the status "completed". */
    method Complete(id: int, reply: Fetched<()>)
      modifies this
      ensures HttpOk(reply) ==> appointments == SetStatus(old(appointments), id, Completed)
      ensures HttpOk(reply) ==> actionMessage == CompletedMessage
      ensures !HttpOk(reply) ==> appointments == old(appointments) && actionMessage == CompleteFailedMessage
      ensures loading == old(loading)
    {
      if !HttpOk(reply) {
        actionMessage := CompleteFailedMessage;
        return;
      }
      actionMessage := CompletedMessage;
      appointments := SetStatus(appointments, id, Completed);
    }
  }
}
