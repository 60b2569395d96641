/**
 * The in-memory triage service: the ticket table in creation order, the listener registry, the
 * messages each listener has received, and the request handlers and background job that use them.
 * Every operation runs as one atomic step, so the locks of the service play no part here.
 */
module Triage {
  import opened Wrappers
  import opened Tickets
  import opened Events
  import opened Generation
  import opened Fanout

  /** An HTTP error response: status code and detail text. */
  datatype HttpError = HttpError(statusCode: nat, detail: string)

  const MISSING_KEY_DETAIL: string := "OPENAI_API_KEY is not set"
  const NOT_FOUND_DETAIL: string := "Ticket not found"

  /** The WebSocket close code for an unknown ticket (policy violation). */
  const POLICY_VIOLATION: nat := 1008

  /** How a WebSocket subscription starts: closed at once, or accepted with the record read at connect time. */
  datatype Handshake = Closed(code: nat) | Accepted(snapshot: Ticket)

  class TriageService {
    /** Whether the API key is configured; a model client exists exactly then. */
    const apiKeySet: bool

    var tickets: map<Id, Ticket>
    /** The ids in insertion order, which is the iteration order of the ticket dictionary. */
    var order: seq<Id>
    var connections: Registry
    /** The messages each connection has been sent successfully, oldest first. */
    var delivered: Logs
    /** The logical clock standing for the wall clock; each reading advances it. */
    var clock: nat
    /** Every message broadcast so far, whether or not anyone received it. */
    ghost var trace: seq<Event>

    ghost predicate Valid()
      reads this
    {
      && WellFormed(tickets, order, clock)
      && forall t :: t in connections ==> t in tickets
    }

    constructor (apiKeySet: bool)
      ensures Valid()
      ensures this.apiKeySet == apiKeySet
      ensures tickets == map[] && order == [] && connections == map[] && delivered == map[]
      ensures clock == 0 && trace == []
    {
      this.apiKeySet := apiKeySet;
      tickets, order, connections, delivered := map[], [], map[], map[];
      clock, trace := 0, [];
    }

    /** GET /tickets: every stored record exactly once, in creation order. */
    function ListTickets(): (r: seq<Ticket>)
      reads this
      requires Valid()
      ensures |r| == |order|
      ensures forall i :: 0 <= i < |r| ==> r[i].id == order[i] && r[i].id in tickets && tickets[r[i].id] == r[i]
      ensures forall i, j :: 0 <= i < j < |r| ==> r[i].id != r[j].id
      ensures forall id :: id in tickets ==> exists i :: 0 <= i < |r| && r[i] == tickets[id]
    {
      ListingIsExact(tickets, order, clock);
      InOrder(order, tickets)
    }

    /** GET /tickets/{id}: the stored record, or 404 for an unknown id. */
    function GetTicket(id: Id): (r: Result<Ticket, HttpError>)
      reads this
      ensures r.Ok? <==> id in tickets
      ensures r.Ok? ==> r.value == tickets[id]
      ensures r.Err? ==> r.error == HttpError(404, NOT_FOUND_DETAIL)
    {
      if id in tickets then Ok(tickets[id]) else Err(HttpError(404, NOT_FOUND_DETAIL))
    }

    /**
     * POST /tickets. `newId` is the freshly generated UUID. Without an API key it answers 400 and
     * stores nothing; otherwise it stores and returns a new "processing" ticket, after all the
     * existing ones. The job is started separately, with ProcessTicket.
     */
    method CreateTicket(payload: TicketCreate, newId: Id) returns (r: Result<Ticket, HttpError>)
      requires Valid()
      requires ValidPayload(payload)
      requires newId !in tickets
      modifies this`tickets, this`order, this`clock
      ensures Valid()
      ensures !apiKeySet ==>
        && r == Err(HttpError(400, MISSING_KEY_DETAIL))
        && tickets == old(tickets) && order == old(order) && clock == old(clock)
      ensures apiKeySet ==>
        && r.Ok?
        && r.value == Ticket(newId, payload.title, payload.description, PROCESSING, None, None, clock, clock, None)
        && clock == old(clock) + 1
        && tickets == old(tickets)[newId := r.value]
        && order == old(order) + [newId]
        && InOrder(order, tickets) == InOrder(old(order), old(tickets)) + [r.value]
      ensures connections == old(connections) && delivered == old(delivered) && trace == old(trace)
    {
      if !apiKeySet {
        return Err(HttpError(400, MISSING_KEY_DETAIL));
      }
      var ticket := InsertTicket(payload, newId);
      r := Ok(ticket);
    }

    /**
     * The insertion step of POST /tickets: read the clock once, build a "processing" record with
     * no summary, reply or error whose creation and update times are that reading, and store it
     * under `newId` after every existing ticket.
     */
    method InsertTicket(payload: TicketCreate, newId: Id) returns (ticket: Ticket)
      requires Valid()
      requires newId !in tickets
      modifies this`tickets, this`order, this`clock
      ensures Valid()
      ensures ticket == Ticket(newId, payload.title, payload.description, PROCESSING, None, None, clock, clock, None)
      ensures clock == old(clock) + 1
      ensures tickets == old(tickets)[newId := ticket]
      ensures order == old(order) + [newId]
      ensures InOrder(order, tickets) == InOrder(old(order), old(tickets)) + [ticket]
    {
      clock := clock + 1;
      var now := clock;
      ticket := Ticket(newId, payload.title, payload.description, PROCESSING, None, None, now, now, None);
      InsertKeepsWellFormed(tickets, order, old(clock), ticket, now);
      tickets := tickets[newId := ticket];
      order := order + [newId];
    }

    /**
     * update_ticket: merge the supplied fields into the stored record and stamp it with a new
     * clock reading; an unknown id changes nothing. The ticket keeps its place in the listing.
     */
    method UpdateTicket(id: Id, p: Patch)
      requires Valid()
      modifies this`tickets, this`clock
      ensures Valid()
      ensures clock == (if id in old(tickets) then old(clock) + 1 else old(clock))
      ensures tickets == Updated(old(tickets), id, p, clock)
      ensures id in old(tickets) ==> tickets[id].updatedAt > old(tickets)[id].updatedAt
      ensures order == old(order)
      ensures connections == old(connections) && delivered == old(delivered) && trace == old(trace)
    {
      if id !in tickets {
        return;
      }
      var updated := tickets[id];
      UpdateKeepsWellFormed(tickets, order, clock, id, p);
      clock := clock + 1;
      updated := Merge(updated, p, clock);
      tickets := tickets[id := updated];
    }

    /**
     * broadcast: send `msg` to every listener registered for the ticket when the call starts;
     * the sends to the connections in `failing` raise, and those connections are then discarded
     * from the ticket's set. A failed send does not stop the others.
     */
    method Broadcast(id: Id, msg: Event, failing: set<ListenerId>)
      requires Valid()
      modifies this`connections, this`delivered, this`trace
      ensures Valid()
      ensures Delivered(delivered, old(delivered), Registered(old(connections), id) - failing, msg)
      ensures connections == Prune(old(connections), id, failing)
      ensures trace == old(trace) + [msg]
      ensures tickets == old(tickets) && order == old(order) && clock == old(clock)
    {
      trace := trace + [msg];
      var listeners := Registered(connections, id);
      var dead := SendAll(listeners, msg, failing);
      if dead != [] {
        assert id in connections by {
          assert dead[0] in listeners;
        }
        assert dead[0] in listeners * failing;
        assert Prune(connections, id, failing) == connections[id := listeners - failing];
        DiscardAll(id, dead);
        assert connections[id] == listeners - failing;
      } else {
        assert forall x :: x !in listeners * failing;
        assert listeners * failing == {};
      }
    }

    /** The send loop of broadcast: try every listener; collect, in order, those whose send raised. */
    method SendAll(listeners: set<ListenerId>, msg: Event, failing: set<ListenerId>) returns (dead: seq<ListenerId>)
      modifies this`delivered
      ensures Delivered(delivered, old(delivered), listeners - failing, msg)
      ensures forall j :: 0 <= j < |dead| ==> dead[j] in listeners * failing
      ensures forall x :: x in listeners * failing ==> x in dead
    {
      var pending := listeners;
      dead := [];
      while pending != {}
        invariant pending <= listeners
        invariant Delivered(delivered, old(delivered), (listeners - pending) - failing, msg)
        invariant forall j :: 0 <= j < |dead| ==> dead[j] in listeners * failing
        invariant forall x :: x in (listeners - pending) * failing ==> x in dead
        decreases pending
      {
        var ws :| ws in pending;
        if ws in failing {
          dead := dead + [ws];
        } else {
          delivered := delivered[ws := LogOf(delivered, ws) + [msg]];
        }
        pending := pending - {ws};
      }
    }

    /** The clean-up of broadcast: discard every collected connection from the ticket's set. */
    method DiscardAll(id: Id, dead: seq<ListenerId>)
      requires id in connections
      modifies this`connections
      ensures id in connections && connections == old(connections)[id := connections[id]]
      ensures forall x :: x in connections[id] <==> x in old(connections)[id] && x !in dead
    {
      var i := 0;
      ghost var removed: set<ListenerId> := {};
      assert connections[id] - removed == connections[id];
      RewriteUnchanged(connections, id, connections[id] - removed);
      while i < |dead|
        invariant 0 <= i <= |dead|
        invariant removed == set j | 0 <= j < i :: dead[j]
        invariant connections == old(connections)[id := old(connections)[id] - removed]
      {
        assert Registered(connections, id) - {dead[i]} == old(connections)[id] - (removed + {dead[i]});
        connections := connections[id := Registered(connections, id) - {dead[i]}];
        assert (set j | 0 <= j < i + 1 :: dead[j]) == removed + {dead[i]};
        removed := removed + {dead[i]};
        i := i + 1;
      }
      forall x | x in dead ensures x in removed {
        var j :| 0 <= j < |dead| && dead[j] == x;
      }
    }

    /** broadcast_status: broadcast a status message for the ticket. */
    method BroadcastStatus(id: Id, status: string, error: Option<string>, failing: set<ListenerId>)
      requires Valid()
      modifies this`connections, this`delivered, this`trace
      ensures Valid()
      ensures Delivered(delivered, old(delivered), Registered(old(connections), id) - failing, Status(id, status, error))
      ensures connections == Prune(old(connections), id, failing)
      ensures trace == old(trace) + [Status(id, status, error)]
      ensures tickets == old(tickets) && order == old(order) && clock == old(clock)
    {
      Broadcast(id, Status(id, status, error), failing);
    }

    /**
     * mark_ticket_error: set the ticket to "error" with `error` (a no-op for an unknown id), then
     * broadcast status(error) carrying the same text.
     */
    method MarkTicketError(id: Id, error: string, failing: set<ListenerId>)
      requires Valid()
      modifies this
      ensures Valid()
      ensures clock == (if id in old(tickets) then old(clock) + 1 else old(clock))
      ensures tickets == Updated(old(tickets), id, ErrorPatch(error), clock)
      ensures id in tickets ==> tickets[id].status == ERROR && tickets[id].error == Some(error)
      ensures Delivered(delivered, old(delivered), Registered(old(connections), id) - failing, Status(id, ERROR, Some(error)))
      ensures connections == Prune(old(connections), id, failing)
      ensures trace == old(trace) + [Status(id, ERROR, Some(error))]
      ensures order == old(order)
    {
      UpdateTicket(id, ErrorPatch(error));
      BroadcastStatus(id, ERROR, Some(error), failing);
    }

    /**
     * process_ticket, run once to completion. The model stream delivered `chunks` and then ended
     * as `end`; `parse` is JSON decoding; connection `l` fails on the broadcasts of this run from
     * number `failAt[l]` (counting from 0) on. The run broadcasts exactly the messages of the
     * specification Job, applies its update to the ticket, and leaves every listener of the
     * ticket with the prefix of those messages it could receive.
     */
    method ProcessTicket(id: Id, chunks: seq<Chunk>, end: StreamEnd, parse: Parser, failAt: map<ListenerId, nat>)
      requires Valid()
      modifies this
      ensures Valid()
      ensures var run := Job(id, apiKeySet, id in old(tickets), chunks, end, parse);
        && trace == old(trace) + run.events
        && FannedOut(connections, delivered, id, old(connections), old(delivered), failAt, run.events)
        && tickets == (if run.patch.Some? then Updated(old(tickets), id, run.patch.value, clock) else old(tickets))
      ensures clock == (if id in old(tickets) then old(clock) + 1 else old(clock))
      ensures order == old(order)
    {
      ghost var conns0, logs0 := connections, delivered;
      FanOutStart(conns0, logs0, id, failAt);
      if !apiKeySet {
        FailRun(id, MISSING_KEY_ERROR, failAt, 0, conns0, logs0, []);
        assert Job(id, apiKeySet, id in old(tickets), chunks, end, parse) == Fail(id, [], MISSING_KEY_ERROR);
        return;
      }
      if id !in tickets {
        assert Job(id, apiKeySet, id in old(tickets), chunks, end, parse) == Outcome([], None);
        return;
      }
      StreamAndSettle(id, chunks, end, parse, failAt);
      assert Job(id, apiKeySet, id in old(tickets), chunks, end, parse)
          == Settle(id, [Status(id, PROCESSING, None)] + Tokens(id, Pieces(chunks)), end, Buffer(chunks), parse);
    }

    /**
     * process_ticket once the client exists and the ticket is found: broadcast status(processing),
     * stream the tokens and settle the run.
     */
    method StreamAndSettle(id: Id, chunks: seq<Chunk>, end: StreamEnd, parse: Parser, failAt: map<ListenerId, nat>)
      requires Valid()
      requires id in tickets
      modifies this
      ensures Valid()
      ensures var run := Settle(id, [Status(id, PROCESSING, None)] + Tokens(id, Pieces(chunks)), end, Buffer(chunks), parse);
        && run.patch.Some?
        && trace == old(trace) + run.events
        && FannedOut(connections, delivered, id, old(connections), old(delivered), failAt, run.events)
        && tickets == Updated(old(tickets), id, run.patch.value, clock)
      ensures clock == old(clock) + 1
      ensures order == old(order)
    {
      ghost var conns0, logs0 := connections, delivered;
      FanOutStart(conns0, logs0, id, failAt);
      EmitFannedOut(id, Status(id, PROCESSING, None), failAt, 0, conns0, logs0, []);
      ghost var sent: seq<Event> := [Status(id, PROCESSING, None)];
      assert [] + sent == sent;
      ghost var trace1 := trace;
      var buffer, count := StreamTokens(id, chunks, failAt, 1, conns0, logs0, sent);
      ghost var streamed := sent + Tokens(id, Pieces(chunks));
      assert trace == old(trace) + streamed by {
        assert trace1 == old(trace) + sent;
        assert trace == trace1 + Tokens(id, Pieces(chunks));
      }
      FinishRun(id, buffer, count, end, parse, failAt, conns0, logs0, streamed, old(trace));
    }

    /**
     * The end of process_ticket after the streaming loop: the run so far broadcast the `count`
     * messages `sent` (on top of the earlier log `trace0`) and buffered `buffer`. It settles as
     * the specification Settle says.
     */
    method FinishRun(id: Id, buffer: string, count: nat, end: StreamEnd, parse: Parser, failAt: map<ListenerId, nat>,
                     ghost conns0: Registry, ghost logs0: Logs, ghost sent: seq<Event>, ghost trace0: seq<Event>)
      requires Valid()
      requires id in tickets
      requires count == |sent|
      requires trace == trace0 + sent
      requires FannedOut(connections, delivered, id, conns0, logs0, failAt, sent)
      modifies this
      ensures Valid()
      ensures var run := Settle(id, sent, end, buffer, parse);
        && run.patch.Some?
        && trace == trace0 + run.events
        && FannedOut(connections, delivered, id, conns0, logs0, failAt, run.events)
        && tickets == Updated(old(tickets), id, run.patch.value, clock)
      ensures clock == old(clock) + 1
      ensures order == old(order)
    {
      if end.Raised? {
        FailRun(id, LlmError(end.reason), failAt, count, conns0, logs0, sent);
        return;
      }
      var parsed := parse(buffer);
      if parsed.None? {
        FailRun(id, PARSE_ERROR, failAt, count, conns0, logs0, sent);
        return;
      }
      CompleteRun(id, SummaryOf(parsed.value), ReplyOf(parsed.value), failAt, count, conns0, logs0, sent);
    }

    /**
     * The success path of process_ticket: store the extracted values with status "done", then
     * broadcast complete and status(done) as the next two messages of a run that sent `sent`.
     */
    method CompleteRun(id: Id, summary: string, reply: string, failAt: map<ListenerId, nat>, count: nat,
                       ghost conns0: Registry, ghost logs0: Logs, ghost sent: seq<Event>)
      requires Valid()
      requires id in tickets
      requires count == |sent|
      requires FannedOut(connections, delivered, id, conns0, logs0, failAt, sent)
      modifies this
      ensures Valid()
      ensures clock == old(clock) + 1
      ensures tickets == Updated(old(tickets), id, Patch(Some(DONE), Some(summary), Some(reply), None), clock)
      ensures FannedOut(connections, delivered, id, conns0, logs0, failAt,
                        sent + [Complete(id, summary, reply), Status(id, DONE, None)])
      ensures trace == old(trace) + [Complete(id, summary, reply), Status(id, DONE, None)]
      ensures order == old(order)
    {
      UpdateTicket(id, Patch(Some(DONE), Some(summary), Some(reply), None));
      EmitFannedOut(id, Complete(id, summary, reply), failAt, count, conns0, logs0, sent);
      EmitFannedOut(id, Status(id, DONE, None), failAt, count + 1, conns0, logs0, sent + [Complete(id, summary, reply)]);
      assert sent + [Complete(id, summary, reply)] + [Status(id, DONE, None)]
          == sent + [Complete(id, summary, reply), Status(id, DONE, None)];
    }

    /**
     * mark_ticket_error as the `count + 1`-th broadcast of a run that sent `sent` so far.
     */
    method FailRun(id: Id, error: string, failAt: map<ListenerId, nat>, count: nat,
                   ghost conns0: Registry, ghost logs0: Logs, ghost sent: seq<Event>)
      requires Valid()
      requires count == |sent|
      requires FannedOut(connections, delivered, id, conns0, logs0, failAt, sent)
      modifies this
      ensures Valid()
      ensures clock == (if id in old(tickets) then old(clock) + 1 else old(clock))
      ensures tickets == Updated(old(tickets), id, ErrorPatch(error), clock)
      ensures FannedOut(connections, delivered, id, conns0, logs0, failAt, sent + [Status(id, ERROR, Some(error))])
      ensures trace == old(trace) + [Status(id, ERROR, Some(error))]
      ensures order == old(order)
    {
      ghost var c, d := connections, delivered;
      MarkTicketError(id, error, BrokenBy(failAt, count + 1));
      FanOutStep(c, d, id, conns0, logs0, failAt, sent, Status(id, ERROR, Some(error)), delivered);
    }

    /**
     * The streaming loop of process_ticket: every non-empty piece is appended to the buffer and
     * broadcast as a token, in arrival order. `start` messages of the run precede the loop;
     * returns the buffer and the number of messages the run has broadcast after it.
     */
    method StreamTokens(id: Id, chunks: seq<Chunk>, failAt: map<ListenerId, nat>, start: nat,
                        ghost conns0: Registry, ghost logs0: Logs, ghost sent0: seq<Event>)
      returns (buffer: string, count: nat)
      requires Valid()
      requires start == |sent0|
      requires FannedOut(connections, delivered, id, conns0, logs0, failAt, sent0)
      modifies this`connections, this`delivered, this`trace
      ensures Valid()
      ensures buffer == Buffer(chunks)
      ensures count == |sent0| + |Pieces(chunks)|
      ensures trace == old(trace) + Tokens(id, Pieces(chunks))
      ensures FannedOut(connections, delivered, id, conns0, logs0, failAt, sent0 + Tokens(id, Pieces(chunks)))
      ensures tickets == old(tickets) && order == old(order) && clock == old(clock)
    {
      count := start;
      buffer := "";
      var i := 0;
      assert chunks[..0] == [];
      while i < |chunks|
        invariant 0 <= i <= |chunks|
        invariant Valid()
        invariant buffer == Buffer(chunks[..i])
        invariant count == |sent0| + |Pieces(chunks[..i])|
        invariant trace == old(trace) + Tokens(id, Pieces(chunks[..i]))
        invariant FannedOut(connections, delivered, id, conns0, logs0, failAt, sent0 + Tokens(id, Pieces(chunks[..i])))
      {
        buffer, count := StreamChunk(id, chunks, i, failAt, buffer, count, conns0, logs0, sent0, old(trace));
        i := i + 1;
      }
      assert chunks[..i] == chunks;
    }

    /**
     * One pass of the streaming loop: chunk `i` adds its text to the buffer and, when that text
     * is non-empty, is broadcast as a token.
     */
    method StreamChunk(id: Id, chunks: seq<Chunk>, i: nat, failAt: map<ListenerId, nat>,
                       buffer: string, count: nat,
                       ghost conns0: Registry, ghost logs0: Logs, ghost sent0: seq<Event>,
                       ghost trace0: seq<Event>)
      returns (buffer': string, count': nat)
      requires i < |chunks|
      requires Valid()
      requires buffer == Buffer(chunks[..i])
      requires count == |sent0| + |Pieces(chunks[..i])|
      requires trace == trace0 + Tokens(id, Pieces(chunks[..i]))
      requires FannedOut(connections, delivered, id, conns0, logs0, failAt, sent0 + Tokens(id, Pieces(chunks[..i])))
      modifies this`connections, this`delivered, this`trace
      ensures Valid()
      ensures buffer' == Buffer(chunks[..i + 1])
      ensures count' == |sent0| + |Pieces(chunks[..i + 1])|
      ensures trace == trace0 + Tokens(id, Pieces(chunks[..i + 1]))
      ensures FannedOut(connections, delivered, id, conns0, logs0, failAt, sent0 + Tokens(id, Pieces(chunks[..i + 1])))
      ensures tickets == old(tickets) && order == old(order) && clock == old(clock)
    {
      var piece := Piece(chunks[i]);
      StreamStep(id, chunks, i);
      ghost var before, after := Tokens(id, Pieces(chunks[..i])), Tokens(id, Pieces(chunks[..i + 1]));
      assert |before| == |Pieces(chunks[..i])| && |after| == |Pieces(chunks[..i + 1])|;
      buffer', count' := buffer, count;
      if piece != "" {
        assert after == before + [Token(id, piece)];
        assert sent0 + after == (sent0 + before) + [Token(id, piece)];
        assert trace0 + after == (trace0 + before) + [Token(id, piece)];
        buffer' := buffer + piece;
        EmitFannedOut(id, Token(id, piece), failAt, count, conns0, logs0, sent0 + before);
        count' := count + 1;
      } else {
        assert after == before;
      }
    }

    /**
     * One broadcast of a run, seen against the run's start: the `count` messages already sent
     * are `sent`, and the listeners whose send of message `count + 1` raises are dropped.
     */
    method EmitFannedOut(id: Id, msg: Event, failAt: map<ListenerId, nat>, count: nat,
                         ghost conns0: Registry, ghost logs0: Logs, ghost sent: seq<Event>)
      requires Valid()
      requires count == |sent|
      requires FannedOut(connections, delivered, id, conns0, logs0, failAt, sent)
      modifies this`connections, this`delivered, this`trace
      ensures Valid()
      ensures FannedOut(connections, delivered, id, conns0, logs0, failAt, sent + [msg])
      ensures trace == old(trace) + [msg]
      ensures tickets == old(tickets) && order == old(order) && clock == old(clock)
    {
      ghost var c, d := connections, delivered;
      Broadcast(id, msg, BrokenBy(failAt, count + 1));
      FanOutStep(c, d, id, conns0, logs0, failAt, sent, msg, delivered);
    }

    /**
     * The connect half of the WebSocket handler. An unknown ticket is closed with 1008 and never
     * registered. Otherwise the connection is registered for the ticket and sent a snapshot of
     * the record read at connect time; when that send raises (`snapshotFails`) the handler ends
     * with the exception and the connection stays registered.
     */
    method OpenStream(id: Id, l: ListenerId, snapshotFails: bool) returns (h: Handshake)
      requires Valid()
      modifies this
      ensures Valid()
      ensures id !in tickets ==>
        h == Closed(POLICY_VIOLATION) && connections == old(connections) && delivered == old(delivered)
      ensures id in tickets ==>
        && h == Accepted(tickets[id])
        && connections == old(connections)[id := Registered(old(connections), id) + {l}]
        && Delivered(delivered, old(delivered), if snapshotFails then {} else {l}, Snapshot(id, tickets[id]))
      ensures tickets == old(tickets) && order == old(order) && clock == old(clock) && trace == old(trace)
    {
      if id !in tickets {
        return Closed(POLICY_VIOLATION);
      }
      var ticket := tickets[id];
      connections := connections[id := Registered(connections, id) + {l}];
      if !snapshotFails {
        delivered := delivered[l := LogOf(delivered, l) + [Snapshot(id, ticket)]];
      }
      return Accepted(ticket);
    }

    /**
     * The disconnect half of the WebSocket handler, reached when receiving raises after a
     * successful connect: the connection is discarded from the ticket's set. Discarding a
     * connection that is not there changes no set.
     */
    method CloseStream(id: Id, l: ListenerId)
      requires Valid()
      requires id in tickets
      modifies this
      ensures Valid()
      ensures connections == Discard(old(connections), id, l)
      ensures forall t :: Registered(connections, t) ==
                (if t == id then Registered(old(connections), t) - {l} else Registered(old(connections), t))
      ensures tickets == old(tickets) && order == old(order) && clock == old(clock)
      ensures delivered == old(delivered) && trace == old(trace)
    {
      connections := Discard(connections, id, l);
    }
  }
}
