# AI ticket triage core, modelled in Dafny

This project models the in-memory core of the "AI Ticket Triage API" backend
(`backend/main.py`): a ticket table changed in place, a registry of WebSocket listeners
per ticket with best-effort fan-out, and the background job that streams a language
model's answer to the listeners token by token and then stores the extracted summary and
suggested reply (or an error) in the ticket.

Modules:

- `Wrappers` (`wrappers.dfy`): `Option` (Python's `None`) and `Result`.
- `Tickets` (`tickets.dfy`): the `Ticket` and `TicketCreate` records, the keyword arguments
  of `update_ticket` as a `Patch`, the field merge `Merge`, the table update `Updated`, and
  the table invariant `WellFormed` (an insertion-order list of ids, one per stored ticket).
- `Events` (`events.dfy`): the four WebSocket messages (`snapshot`, `status`, `token`,
  `complete`) as one datatype, and the text a client rebuilds from the token messages.
- `Fanout` (`fanout.dfy`): the registry `ticket id -> set of listeners`, what one broadcast
  does to it (`Prune`), `discard` (`Discard`), and `FannedOut`, the state after a whole
  job run in which each connection fails from some broadcast on.
- `Generation` (`generation.dfy`): `process_ticket` as a specification function `Job`:
  from the streamed chunks, how the stream ended and what JSON decoding makes of the
  buffer, the messages the job broadcasts and the update it applies.
- `Triage` (`triage.dfy`): the class `TriageService` holding the ticket table, the
  creation order, the registry, each listener's received messages and a logical clock;
  its methods are the request handlers, `update_ticket`, `broadcast`, `mark_ticket_error`
  and `process_ticket`, each proved against the functions above.

Modelling choices:

- Ticket ids (UUIDs) are `nat`s; `create_ticket` takes the new id as a parameter that must
  not be in the table yet. `utc_now()` is a logical clock that advances on every reading.
- Whether `OPENAI_API_KEY` is set is the constant `apiKeySet` of the service; the model
  client exists exactly when it is set.
- The model stream is a sequence of chunks (`delta.content`, possibly absent) plus how it
  ended: `Finished`, or `Raised(reason)` after the chunks it delivered. JSON decoding is a
  parameter `parse: string -> Option<map<string, string>>`, `None` meaning a decode error.
- Which sends raise is a parameter: `Broadcast` takes the set of failing connections; a
  job run takes `failAt`, where connection `l` accepts the first `failAt[l]` messages of
  the run and fails on every later one.
- Every operation is one atomic step: the two `asyncio` locks play no part, and
  `process_ticket` is called explicitly after `create_ticket`.
- The code, not a cleaner design, is followed: a ticket is created with status
  `"processing"` (not `"new"`); the listing is in insertion order (not newest first);
  nothing stops a later update from changing a finished ticket (`RerunIsNotGuarded`);
  without an API key the creation handler answers 400, and the job, if run, marks the
  ticket as an error without ever broadcasting `processing`.

## Model

| member | source | states |
|---|---|---|
| Tickets.Merge | backend/main.py:192-201 | the merged record keeps id, title, description and creation time; its update time is the new clock reading; status is replaced only by a non-empty status; summary, reply and error are replaced only when supplied, so an existing error is never cleared |
| Tickets.MergeIdempotent | backend/main.py:192-201 | a property of the merge alone: applying the same update twice with the same clock reading gives the same record as applying it once; update_ticket itself is not idempotent, since every call takes a new reading and so a later update time |
| Tickets.ValidPayload | backend/main.py:37-39 | no contract of its own: the length bounds of the request body (title 1 to 200, description 1 to 4000 characters); required by CreateTicket |
| Tickets.Updated | backend/main.py:188-202 | the table keeps its keys; an unknown id changes nothing; the known id gets the merged record and every other ticket is unchanged |
| Tickets.InOrder | backend/main.py:233 | the listing has one record per id of the order, each the stored record of that id |
| Tickets.ListingIsExact | backend/main.py:230-233 | listing a well-formed table yields every stored ticket exactly once, in insertion order |
| Tickets.InsertKeepsWellFormed | backend/main.py:223-224 | inserting a record under a fresh id keeps the table well formed and appends exactly that record to the listing |
| Tickets.InsertWellFormed | backend/main.py:223-224 | inserting a record under a fresh id, at the end of the order, keeps every id listed exactly once and every timestamp within the clock |
| Tickets.InOrderAppend | backend/main.py:224 | the listing after inserting a fresh id is the old listing followed by the new record |
| Tickets.UpdateKeepsWellFormed | backend/main.py:202 | reassigning an existing key keeps the table well formed and does not reorder the listing |
| Events.TokenTextAppend | backend/main.py:130-142 | the token text of two runs of messages one after the other is the concatenation of their token texts |
| Events.TokenTextPrefix | backend/main.py:130-142 | a listener that received only the first messages of a run has rebuilt a prefix of the run's token text |
| Fanout.Prune | backend/main.py:77-80 | after the clean-up the ticket's set is the old set minus the failed connections, no other ticket's set changes, and nothing is written when no registered send failed |
| Fanout.Discard | backend/main.py:270-275 | discarding a connection removes it from that ticket's set only |
| Fanout.DiscardIdempotent | backend/main.py:270-275 | discarding twice is discarding once, and discarding an absent connection leaves the registry as it was |
| Fanout.FanOutStep | backend/main.py:66-80 | one more broadcast, with the run's failing connections, keeps the run's fan-out state exact |
| Fanout.FannedOutListener | backend/main.py:66-80 | after a run a listener registered at its start is still registered exactly when its sends never failed, and then received every message; a listener that failed received exactly the first failAt[l] messages of the run; in any case it received a prefix of them |
| Generation.Pieces | backend/main.py:131-134 | the pieces broadcast as tokens are non-empty and no more than the chunks |
| Generation.BufferIsRawText | backend/main.py:132-134 | skipping empty pieces does not change the buffer: it is the whole streamed text |
| Generation.PiecesSnoc | backend/main.py:130-134 | a further chunk appends its piece to the buffer, and to the tokens when non-empty |
| Generation.Buffer | backend/main.py:121-134 | no contract of its own: the content buffer, the concatenation of the non-empty pieces; stated by BufferIsRawText, PiecesSnoc and SuccessfulRun (whose tokens spell the buffer that is parsed) |
| Generation.Tokens | backend/main.py:135-142 | no contract of its own: one token message per piece, in order; stated by TokenTextOfTokens, TokensSnoc and StreamTokens |
| Generation.Fail | backend/main.py:175-177 | no contract of its own: the messages and update of mark_ticket_error at the end of a run (status error with the text, after what was streamed); stated by FailedRun and RunWithoutClientOrTicket |
| Generation.LlmError | backend/main.py:144 | no contract of its own: the error text "LLM error: " followed by the exception text; stated by FailedRun |
| Fanout.Registered | backend/main.py:70 | no contract of its own: a ticket's listener set, empty when the registry has no entry; stated by Prune and Broadcast |
| Generation.Piece | backend/main.py:132 | no contract of its own: `delta.content or ""`; its effect on the buffer is stated by BufferIsRawText and PiecesSnoc |
| Generation.SummaryOf | backend/main.py:153 | no contract of its own: `parsed.get("summary") or ""`; stated by ExtractionFallbacks |
| Generation.ReplyOf | backend/main.py:154 | no contract of its own: `parsed.get("suggested_reply") or parsed.get("reply") or ""`; stated by ExtractionFallbacks |
| Generation.Job | backend/main.py:95-172 | no contract of its own: the messages and the update of one run of process_ticket; its behaviour is stated by SuccessfulRun, FailedRun, RunWithoutClientOrTicket, PartialStreamIsPrefix and RunSettlesFreshTicket, and ProcessTicket is proved equal to it |
| Generation.Settle | backend/main.py:143-172 | no contract of its own: the end of a run after the stream (error on a raise or a parse failure, otherwise complete and done); stated by SuccessfulRun and FailedRun |
| Tickets.ErrorPatch | backend/main.py:176 | no contract of its own: the arguments mark_ticket_error passes to update_ticket (status "error" and the error text); stated by FailedRun and MarkTicketError |
| Generation.TokenTextOfTokens | backend/main.py:135-142 | the token messages of the pieces spell out their concatenation |
| Generation.StreamStep | backend/main.py:130-142 | the effect on buffer and token messages of receiving chunk i after the chunks before it |
| Generation.ExtractionFallbacks | backend/main.py:153-154 | summary is the parsed "summary" if non-empty, else ""; the reply is "suggested_reply" if non-empty, else "reply" if non-empty, else "" |
| Generation.SuccessfulRun | backend/main.py:106-172 | a successful run broadcasts status(processing), one token per non-empty chunk in order, complete with the extracted values, then status(done); the tokens spell the parsed buffer; the update sets "done" with both values and leaves the error alone |
| Generation.FailedRun | backend/main.py:143-151 | a raising stream or an unparsable buffer ends the run with status(error) carrying the same text stored as the ticket's error; no complete is broadcast and the tokens already sent spell the buffer |
| Generation.RunWithoutClientOrTicket | backend/main.py:97-104 | without a client the run only marks the missing key, with no processing message; with a client but no such ticket it broadcasts nothing and changes nothing |
| Generation.PartialStreamIsPrefix | backend/main.py:130-151 | whatever the ending, the tokens among any prefix of the run's messages spell a prefix of the buffer |
| Generation.RunSettlesFreshTicket | backend/main.py:153-177 | a run on a freshly created ticket leaves it "done" with summary and reply, or "error" with an error, never both and never neither |
| Generation.RerunIsNotGuarded | backend/main.py:175-202 | a failing rerun turns a "done" ticket into "error" and keeps its summary: no transition guard exists |
| Triage.TriageService.constructor | backend/main.py:54-57 | the service starts with no tickets, no listeners and no messages |
| Triage.TriageService.ListTickets | backend/main.py:230-233 | every stored ticket exactly once, in creation order |
| Triage.TriageService.GetTicket | backend/main.py:236-242 | the stored record for a known id, 404 "Ticket not found" otherwise |
| Triage.TriageService.CreateTicket | backend/main.py:205-227 | without an API key, 400 and nothing stored; otherwise exactly one new "processing" ticket with no summary, reply or error and equal creation and update times, appended to the listing, other tickets unchanged |
| Triage.TriageService.InsertTicket | backend/main.py:210-224 | one clock reading becomes both timestamps of a "processing" record with no summary, reply or error, stored under the fresh id after every existing ticket; the table stays well formed |
| Triage.TriageService.UpdateTicket | backend/main.py:180-202 | the table becomes the merged table stamped with a new clock reading (later than the old update time); an unknown id changes nothing; the listing order and the registry are kept |
| Triage.TriageService.Broadcast | backend/main.py:66-80 | every listener registered at the start that does not fail receives the message, whatever failed before it; the ticket's set loses exactly the failed listeners; other tickets' sets and the table are unchanged |
| Triage.TriageService.SendAll | backend/main.py:71-76 | the send loop delivers to every non-failing listener and collects exactly the failing ones |
| Triage.TriageService.DiscardAll | backend/main.py:77-80 | the ticket's set afterwards is the old set minus the collected connections; nothing else changes |
| Triage.TriageService.BroadcastStatus | backend/main.py:83-92 | broadcasts a status message carrying the ticket id, status and optional error |
| Triage.TriageService.MarkTicketError | backend/main.py:175-177 | the ticket becomes "error" with that text, then status(error) with the same text is broadcast |
| Triage.TriageService.ProcessTicket | backend/main.py:95-172 | the run broadcasts exactly the messages of Job, applies its update, and leaves each listener of the ticket with the prefix of them it could receive |
| Triage.TriageService.StreamAndSettle | backend/main.py:106-172 | with a client and a known ticket: processing, the streamed tokens, then the settlement, with the update applied |
| Triage.TriageService.StreamTokens | backend/main.py:121-142 | the streaming loop returns the buffer of all chunks and broadcasts one token per non-empty piece, in order |
| Triage.TriageService.StreamChunk | backend/main.py:130-142 | one chunk extends the buffer by its piece and is broadcast as a token when non-empty |
| Triage.TriageService.FinishRun | backend/main.py:143-172 | after the stream: a raise or a parse failure marks the error; otherwise the extracted values complete the run |
| Triage.TriageService.CompleteRun | backend/main.py:156-172 | stores "done" with summary and reply, then broadcasts complete and status(done) |
| Triage.TriageService.FailRun | backend/main.py:143-151 | marks the error as the next broadcast of the run |
| Triage.TriageService.EmitFannedOut | backend/main.py:135-142 | one broadcast of a run keeps the run's fan-out state exact |
| Triage.TriageService.OpenStream | backend/main.py:245-265 | an unknown id is closed with 1008 and not registered; a known id is registered and sent a snapshot of the record read at connect time |
| Triage.TriageService.CloseStream | backend/main.py:267-275 | on disconnect or error the connection is discarded from the ticket's set; other sets stay |

## Left out

- FastAPI routing, the CORS middleware and `HTTPException`: errors are a `Result` with an
  `HttpError(statusCode, detail)`.
- Loading the configuration (`load_dotenv`, `os.getenv`): API-key presence is a boolean;
  the model name is not modelled.
- The OpenAI call, the prompt text and the model parameters: replaced by the chunk
  sequence and its ending.
- `json.dumps`, `json.loads` and `jsonable_encoder`: messages are a datatype, decoding a
  parameter. Decoded documents are maps from strings to strings: a document that is not a
  JSON object (on which `parsed.get` would raise outside any handler) and non-string
  member values are not modelled.
- `uuid4` and `datetime`: a fresh-id precondition and a `nat` clock.
- `asyncio` locks, `BackgroundTasks` scheduling and interleaving of concurrent requests:
  every operation is one sequential step.
- The `receive_text` loop of the WebSocket handler: only its ending (disconnect or error)
  is modelled, by `CloseStream`.
- Pydantic validation of the request body: `CreateTicket` requires a title of 1 to 200
  and a description of 1 to 4000 characters; the 422 answer for other bodies is produced
  before the handler runs and is not modelled.
- Triage.TriageService.CloseStream: requires the ticket to exist (the `defaultdict` would
  create an empty set for any id); a connection is only ever registered for a known
  ticket, and tickets are never removed, so the handler never reaches it otherwise.
- Triage.TriageService.OpenStream: when sending the snapshot raises, the handler ends
  with that exception and the connection stays registered; the model records this with a
  `snapshotFails` flag and does not model the exception.
