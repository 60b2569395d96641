/** The ticket record, the creation payload and the field merge performed by update_ticket. */
module Tickets {
  import opened Wrappers

  /** Ticket ids are random UUIDs; the model only compares them, so they are numbered. */
  type Id = nat

  const MAX_TITLE_LENGTH := 200
  const MAX_DESCRIPTION_LENGTH := 4000

  const PROCESSING: string := "processing"
  const DONE: string := "done"
  const ERROR: string := "error"

  /** The body of a creation request. */
  datatype TicketCreate = TicketCreate(title: string, description: string)

  /** The length bounds the request model enforces before the creation handler runs. */
  predicate ValidPayload(p: TicketCreate) {
    && 1 <= |p.title| <= MAX_TITLE_LENGTH
    && 1 <= |p.description| <= MAX_DESCRIPTION_LENGTH
  }

  /** A stored ticket. Timestamps are readings of a logical clock. */
  datatype Ticket = Ticket(
    id: Id,
    title: string,
    description: string,
    status: string,
    summary: Option<string>,
    suggestedReply: Option<string>,
    createdAt: nat,
    updatedAt: nat,
    error: Option<string>)

  /** The keyword arguments of update_ticket; None means "not supplied". */
  datatype Patch = Patch(
    status: Option<string>,
    summary: Option<string>,
    suggestedReply: Option<string>,
    error: Option<string>)

  /** The patch applied by mark_ticket_error. */
  function ErrorPatch(message: string): Patch {
    Patch(Some(ERROR), None, None, Some(message))
  }

  /** A status argument replaces the stored one only when it is truthy, that is present and non-empty. */
  predicate Truthy(s: Option<string>) {
    s.Some? && s.value != ""
  }

  /**
   * The record update_ticket stores: a copy of `t` in which a supplied field wins, every other
   * field is kept, and the update time is `now`.
   */
  function Merge(t: Ticket, p: Patch, now: nat): (r: Ticket)
    // identity and creation data are never touched
    ensures r.id == t.id && r.title == t.title && r.description == t.description
    ensures r.createdAt == t.createdAt
    ensures r.updatedAt == now
    // the status changes only for a non-empty status argument, and then takes it
    ensures Truthy(p.status) ==> r.status == p.status.value
    ensures !Truthy(p.status) ==> r.status == t.status
    // an optional field changes only when an argument is supplied (even an empty string)
    ensures r.summary == (if p.summary.Some? then p.summary else t.summary)
    ensures r.suggestedReply == (if p.suggestedReply.Some? then p.suggestedReply else t.suggestedReply)
    // an error, once set, is never cleared
    ensures t.error.Some? ==> r.error.Some?
    ensures r.error == (if p.error.Some? then p.error else t.error)
  {
    t.(status := if Truthy(p.status) then p.status.value else t.status,
       summary := if p.summary.Some? then p.summary else t.summary,
       suggestedReply := if p.suggestedReply.Some? then p.suggestedReply else t.suggestedReply,
       updatedAt := now,
       error := if p.error.Some? then p.error else t.error)
  }

  /**
   * Applying the same patch twice with the same clock reading is the same as applying it once.
   * This is a property of the merge alone: update_ticket takes a new reading on every call, so
   * two calls with the same arguments store different update times.
   */
  lemma MergeIdempotent(t: Ticket, p: Patch, now: nat)
    ensures Merge(Merge(t, p, now), p, now) == Merge(t, p, now)
  {
  }

  /** The ticket table after update_ticket: an unknown id is a no-op, and no other ticket changes. */
  function Updated(tickets: map<Id, Ticket>, id: Id, p: Patch, now: nat): (r: map<Id, Ticket>)
    ensures r.Keys == tickets.Keys
    ensures forall k :: k in tickets && k != id ==> r[k] == tickets[k]
    ensures id in tickets ==> r[id] == Merge(tickets[id], p, now)
  {
    if id in tickets then tickets[id := Merge(tickets[id], p, now)] else tickets
  }

  /**
   * The table invariant: `order` lists every stored id exactly once (the dictionary's insertion
   * order), every record is stored under its own id, and no timestamp is ahead of the clock.
   */
  ghost predicate WellFormed(tickets: map<Id, Ticket>, order: seq<Id>, clock: nat) {
    && (forall i, j :: 0 <= i < j < |order| ==> order[i] != order[j])
    && (forall i :: 0 <= i < |order| ==> order[i] in tickets)
    && (forall id :: id in tickets ==> id in order)
    && (forall id :: id in tickets ==>
          tickets[id].id == id && tickets[id].createdAt <= tickets[id].updatedAt <= clock)
  }

  /** The records of `ids`, looked up in `tickets`, in the order of `ids`. */
  function InOrder(ids: seq<Id>, tickets: map<Id, Ticket>): (r: seq<Ticket>)
    requires forall i :: 0 <= i < |ids| ==> ids[i] in tickets
    ensures |r| == |ids|
    ensures forall i :: 0 <= i < |ids| ==> r[i] == tickets[ids[i]]
  {
    if ids == [] then [] else [tickets[ids[0]]] + InOrder(ids[1..], tickets)
  }

  /** Listing a well-formed table yields every stored record exactly once, in insertion order. */
  lemma ListingIsExact(tickets: map<Id, Ticket>, order: seq<Id>, clock: nat)
    requires WellFormed(tickets, order, clock)
    ensures var r := InOrder(order, tickets);
      && (forall i :: 0 <= i < |r| ==> r[i].id == order[i] && r[i].id in tickets && tickets[r[i].id] == r[i])
      && (forall i, j :: 0 <= i < j < |r| ==> r[i].id != r[j].id)
      && (forall id :: id in tickets ==> exists i :: 0 <= i < |r| && r[i] == tickets[id])
  {
    var r := InOrder(order, tickets);
    forall id | id in tickets
      ensures exists i :: 0 <= i < |r| && r[i] == tickets[id]
    {
      var i :| 0 <= i < |order| && order[i] == id;
      assert r[i] == tickets[id];
    }
  }

  /**
   * Inserting a record under a fresh id at the end of the order keeps the table well formed, and
   * the listing gains exactly that record, at the end.
   */
  lemma InsertKeepsWellFormed(tickets: map<Id, Ticket>, order: seq<Id>, clock: nat, t: Ticket, clock': nat)
    requires WellFormed(tickets, order, clock)
    requires t.id !in tickets && t.createdAt <= t.updatedAt <= clock' && clock <= clock'
    ensures WellFormed(tickets[t.id := t], order + [t.id], clock')
    ensures InOrder(order + [t.id], tickets[t.id := t]) == InOrder(order, tickets) + [t]
  {
    InsertWellFormed(tickets, order, clock, t, clock');
    InOrderAppend(order, tickets, t);
  }

  lemma InsertWellFormed(tickets: map<Id, Ticket>, order: seq<Id>, clock: nat, t: Ticket, clock': nat)
    requires WellFormed(tickets, order, clock)
    requires t.id !in tickets && t.createdAt <= t.updatedAt <= clock' && clock <= clock'
    ensures WellFormed(tickets[t.id := t], order + [t.id], clock')
  {
    var tickets', order' := tickets[t.id := t], order + [t.id];
    forall i, j | 0 <= i < j < |order'| ensures order'[i] != order'[j] {
      assert order'[i] == order[i] && order[i] in tickets;
    }
    forall i | 0 <= i < |order'| ensures order'[i] in tickets' {
      if i < |order| {
        assert order'[i] == order[i];
      }
    }
    forall id | id in tickets' ensures id in order' {
      if id != t.id {
        var k :| 0 <= k < |order| && order[k] == id;
        assert order'[k] == id;
      } else {
        assert order'[|order|] == id;
      }
    }
  }

  /** Listing after the insertion is the old listing followed by the new record. */
  lemma InOrderAppend(order: seq<Id>, tickets: map<Id, Ticket>, t: Ticket)
    requires forall i :: 0 <= i < |order| ==> order[i] in tickets && order[i] != t.id
    ensures InOrder(order + [t.id], tickets[t.id := t]) == InOrder(order, tickets) + [t]
  {
    var listed, expected := InOrder(order + [t.id], tickets[t.id := t]), InOrder(order, tickets) + [t];
    assert |listed| == |expected|;
    forall i | 0 <= i < |listed| ensures listed[i] == expected[i] {
      if i < |order| {
        assert (order + [t.id])[i] == order[i];
      }
    }
  }

  /** An update of a well-formed table stamped with a later clock reading keeps it well formed. */
  lemma UpdateKeepsWellFormed(tickets: map<Id, Ticket>, order: seq<Id>, clock: nat, id: Id, p: Patch)
    requires WellFormed(tickets, order, clock)
    ensures WellFormed(Updated(tickets, id, p, clock + 1), order, clock + 1)
    ensures forall i :: 0 <= i < |order| ==> InOrder(order, Updated(tickets, id, p, clock + 1))[i].id == InOrder(order, tickets)[i].id
  {
  }
}
