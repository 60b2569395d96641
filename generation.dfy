/**
 * The generation job of process_ticket as a specification: from the chunks the model stream
 * delivered, how it ended, and what JSON parsing makes of the buffer, the messages the job
 * broadcasts and the update it applies to the ticket.
 */
module Generation {
  import opened Wrappers
  import opened Tickets
  import opened Events

  /** The text of one streamed delta; the provider may send a delta without content. */
  type Chunk = Option<string>

  /** How the model stream ended after the chunks it delivered: normally, or by raising. */
  datatype StreamEnd = Finished | Raised(reason: string)

  /** A parsed JSON object whose member values are strings. */
  type Document = map<string, string>

  /** JSON decoding of the buffer; None stands for a decode error. */
  type Parser = string -> Option<Document>

  const MISSING_KEY_ERROR: string := "Missing OPENAI_API_KEY"
  const PARSE_ERROR: string := "Could not parse LLM JSON response"

  function LlmError(reason: string): string {
    "LLM error: " + reason
  }

  /** `delta.content or ""`. */
  function Piece(c: Chunk): string {
    c.GetOr("")
  }

  /** The pieces that are broadcast as tokens: the non-empty ones, in arrival order. */
  function Pieces(cs: seq<Chunk>): (ps: seq<string>)
    ensures |ps| <= |cs|
    ensures forall i :: 0 <= i < |ps| ==> ps[i] != ""
  {
    if cs == [] then [] else (if Piece(cs[0]) != "" then [Piece(cs[0])] else []) + Pieces(cs[1..])
  }

  function Concat(ps: seq<string>): string {
    if ps == [] then "" else ps[0] + Concat(ps[1..])
  }

  /** The content buffer the job accumulates and then parses. */
  function Buffer(cs: seq<Chunk>): string {
    Concat(Pieces(cs))
  }

  /** Every piece concatenated, the empty ones included. */
  function RawText(cs: seq<Chunk>): string {
    if cs == [] then "" else Piece(cs[0]) + RawText(cs[1..])
  }

  lemma {:induction false} ConcatAppend(a: seq<string>, b: seq<string>)
    ensures Concat(a + b) == Concat(a) + Concat(b)
  {
    if a == [] {
      assert a + b == b;
    } else {
      assert (a + b)[1..] == a[1..] + b;
      ConcatAppend(a[1..], b);
    }
  }

  /** Skipping the empty pieces does not change the buffer: it is the whole streamed text. */
  lemma {:induction false} BufferIsRawText(cs: seq<Chunk>)
    ensures Buffer(cs) == RawText(cs)
  {
    if cs != [] {
      BufferIsRawText(cs[1..]);
      var head := if Piece(cs[0]) != "" then [Piece(cs[0])] else [];
      ConcatAppend(head, Pieces(cs[1..]));
    }
  }

  /** Receiving one more chunk appends its piece to the tokens (if non-empty) and to the buffer. */
  lemma {:induction false} PiecesSnoc(cs: seq<Chunk>, c: Chunk)
    ensures Pieces(cs + [c]) == Pieces(cs) + (if Piece(c) != "" then [Piece(c)] else [])
    ensures Buffer(cs + [c]) == Buffer(cs) + Piece(c)
  {
    var last := if Piece(c) != "" then [Piece(c)] else [];
    if cs == [] {
      assert cs + [c] == [c];
      assert Pieces([c]) == last + Pieces([]);
    } else {
      assert (cs + [c])[1..] == cs[1..] + [c];
      PiecesSnoc(cs[1..], c);
      var head := if Piece(cs[0]) != "" then [Piece(cs[0])] else [];
      assert Pieces(cs + [c]) == head + (Pieces(cs[1..]) + last);
    }
    ConcatAppend(Pieces(cs), last);
  }

  /** One token event per piece, in order. */
  function Tokens(id: Id, ps: seq<string>): seq<Event> {
    seq(|ps|, i requires 0 <= i < |ps| => Token(id, ps[i]))
  }

  lemma TokensSnoc(id: Id, ps: seq<string>, p: string)
    ensures Tokens(id, ps + [p]) == Tokens(id, ps) + [Token(id, p)]
  {
  }

  lemma {:induction false} TokenTextOfTokens(id: Id, ps: seq<string>)
    ensures TokenText(Tokens(id, ps)) == Concat(ps)
  {
    if ps != [] {
      TokenTextOfTokens(id, ps[1..]);
      assert Tokens(id, ps)[1..] == Tokens(id, ps[1..]);
    }
  }

  /** The effect on buffer and tokens of streaming chunk `i` after the ones before it. */
  lemma StreamStep(id: Id, chunks: seq<Chunk>, i: nat)
    requires i < |chunks|
    ensures Buffer(chunks[..i + 1]) == Buffer(chunks[..i]) + Piece(chunks[i])
    ensures Tokens(id, Pieces(chunks[..i + 1])) ==
      Tokens(id, Pieces(chunks[..i])) + (if Piece(chunks[i]) != "" then [Token(id, Piece(chunks[i]))] else [])
  {
    assert chunks[..i + 1] == chunks[..i] + [chunks[i]];
    PiecesSnoc(chunks[..i], chunks[i]);
    TokensSnoc(id, Pieces(chunks[..i]), Piece(chunks[i]));
  }

  /** Python's `a or b` for an optional string `a`: `a` when it is present and non-empty, else `b`. */
  function OrElse(a: Option<string>, b: string): string {
    if Truthy(a) then a.value else b
  }

  /** `parsed.get(key)`. */
  function Get(doc: Document, key: string): Option<string> {
    if key in doc then Some(doc[key]) else None
  }

  /** `parsed.get("summary") or ""`. */
  function SummaryOf(doc: Document): string {
    OrElse(Get(doc, "summary"), "")
  }

  /** `parsed.get("suggested_reply") or parsed.get("reply") or ""`. */
  function ReplyOf(doc: Document): string {
    OrElse(Get(doc, "suggested_reply"), OrElse(Get(doc, "reply"), ""))
  }

  /** The fallbacks of the result extraction. */
  lemma ExtractionFallbacks(doc: Document)
    ensures SummaryOf(doc) == (if "summary" in doc then doc["summary"] else "")
    ensures "suggested_reply" in doc && doc["suggested_reply"] != "" ==>
      ReplyOf(doc) == doc["suggested_reply"]
    ensures ("suggested_reply" !in doc || doc["suggested_reply"] == "") ==>
      ReplyOf(doc) == (if "reply" in doc then doc["reply"] else "")
    ensures ReplyOf(doc) == "" <==>
      ("suggested_reply" !in doc || doc["suggested_reply"] == "") && ("reply" !in doc || doc["reply"] == "")
  {
  }

  /** What one run of the job broadcasts, in order, and the update it asks for (None: no update). */
  datatype Outcome = Outcome(events: seq<Event>, patch: Option<Patch>)

  /** The ending of mark_ticket_error: set the error, then broadcast status(error) with the same text. */
  function Fail(id: Id, streamed: seq<Event>, message: string): Outcome {
    Outcome(streamed + [Status(id, ERROR, Some(message))], Some(ErrorPatch(message)))
  }

  /**
   * The job run of process_ticket. `clientReady` is whether a model client exists (the API key is
   * set) and `known` whether the ticket is in the table when the job starts.
   */
  function Job(id: Id, clientReady: bool, known: bool, chunks: seq<Chunk>, end: StreamEnd, parse: Parser): Outcome {
    if !clientReady then Fail(id, [], MISSING_KEY_ERROR)
    else if !known then Outcome([], None)
    else
      Settle(id, [Status(id, PROCESSING, None)] + Tokens(id, Pieces(chunks)), end, Buffer(chunks), parse)
  }

  /**
   * The end of a job run once the stream is over: `streamed` is what was broadcast so far and
   * `text` the buffer. A raised stream or an unparsable buffer fails the run; otherwise the
   * extracted values are broadcast and stored with status "done".
   */
  function Settle(id: Id, streamed: seq<Event>, end: StreamEnd, text: string, parse: Parser): Outcome {
    if end.Raised? then Fail(id, streamed, LlmError(end.reason))
    else match parse(text)
      case None => Fail(id, streamed, PARSE_ERROR)
      case Some(doc) =>
        var summary, reply := SummaryOf(doc), ReplyOf(doc);
        Outcome(streamed + [Complete(id, summary, reply), Status(id, DONE, None)],
                Some(Patch(Some(DONE), Some(summary), Some(reply), None)))
  }

  /**
   * A successful run broadcasts status(processing), one token per non-empty chunk in arrival
   * order, complete with the extracted values and status(done); its tokens spell out exactly the
   * buffer that was parsed, and the ticket becomes "done" with the extracted values and its error
   * left as it was.
   */
  lemma {:induction false} SuccessfulRun(id: Id, chunks: seq<Chunk>, parse: Parser, doc: Document)
    requires parse(Buffer(chunks)) == Some(doc)
    ensures var r := Job(id, true, true, chunks, Finished, parse);
      var ps := Pieces(chunks);
      && |r.events| == |ps| + 3
      && r.events[0] == Status(id, PROCESSING, None)
      && (forall i :: 0 <= i < |ps| ==> r.events[i + 1] == Token(id, ps[i]))
      && r.events[|ps| + 1] == Complete(id, SummaryOf(doc), ReplyOf(doc))
      && r.events[|ps| + 2] == Status(id, DONE, None)
      && TokenText(r.events) == Buffer(chunks)
      && r.patch == Some(Patch(Some(DONE), Some(SummaryOf(doc)), Some(ReplyOf(doc)), None))
  {
    var ps := Pieces(chunks);
    var head := [Status(id, PROCESSING, None)];
    var tail := [Complete(id, SummaryOf(doc), ReplyOf(doc)), Status(id, DONE, None)];
    TokenTextAppend(head, Tokens(id, ps));
    TokenTextAppend(head + Tokens(id, ps), tail);
    TokenTextOfTokens(id, ps);
    assert TokenText(tail) == "" by {
      var last := [Status(id, DONE, None)];
      assert tail[1..] == last && last[1..] == [];
      assert TokenText(last) == "" + TokenText([]);
    }
  }

  /**
   * A run whose stream raises or whose buffer does not parse ends with status(error) carrying the
   * same text the ticket's error is set to; it never broadcasts complete, and the tokens streamed
   * before the failure still spell out the buffer.
   */
  lemma {:induction false} FailedRun(id: Id, chunks: seq<Chunk>, end: StreamEnd, parse: Parser)
    requires end.Raised? || parse(Buffer(chunks)).None?
    ensures var r := Job(id, true, true, chunks, end, parse);
      var message := if end.Raised? then LlmError(end.reason) else PARSE_ERROR;
      && |r.events| == |Pieces(chunks)| + 2
      && r.events[0] == Status(id, PROCESSING, None)
      && r.events[|r.events| - 1] == Status(id, ERROR, Some(message))
      && r.patch == Some(Patch(Some(ERROR), None, None, Some(message)))
      && (forall i :: 0 <= i < |r.events| ==> !r.events[i].Complete?)
      && TokenText(r.events) == Buffer(chunks)
  {
    var ps := Pieces(chunks);
    var head := [Status(id, PROCESSING, None)];
    var message := if end.Raised? then LlmError(end.reason) else PARSE_ERROR;
    TokenTextAppend(head, Tokens(id, ps));
    TokenTextAppend(head + Tokens(id, ps), [Status(id, ERROR, Some(message))]);
    TokenTextOfTokens(id, ps);
  }

  /**
   * Without a model client the run only reports the missing key (never status(processing)); with
   * a client but no such ticket it broadcasts nothing and changes nothing.
   */
  lemma RunWithoutClientOrTicket(id: Id, known: bool, chunks: seq<Chunk>, end: StreamEnd, parse: Parser)
    ensures Job(id, false, known, chunks, end, parse)
      == Outcome([Status(id, ERROR, Some(MISSING_KEY_ERROR))], Some(ErrorPatch(MISSING_KEY_ERROR)))
    ensures Job(id, true, false, chunks, end, parse) == Outcome([], None)
  {
  }

  /** Whatever the ending, the tokens a listener saw before being dropped spell a prefix of the buffer. */
  lemma PartialStreamIsPrefix(id: Id, chunks: seq<Chunk>, end: StreamEnd, parse: Parser, k: nat)
    requires k <= |Job(id, true, true, chunks, end, parse).events|
    ensures TokenText(Job(id, true, true, chunks, end, parse).events[..k]) <= Buffer(chunks)
  {
    var r := Job(id, true, true, chunks, end, parse);
    if end.Raised? || parse(Buffer(chunks)).None? {
      FailedRun(id, chunks, end, parse);
    } else {
      SuccessfulRun(id, chunks, parse, parse(Buffer(chunks)).value);
    }
    TokenTextPrefix(r.events, k);
  }

  /**
   * Run once on a freshly created ticket, a job with a client leaves the ticket terminal with
   * exactly one of "summary and reply" and "error".
   */
  lemma RunSettlesFreshTicket(t: Ticket, id: Id, chunks: seq<Chunk>, end: StreamEnd, parse: Parser, now: nat)
    requires t.summary == None && t.suggestedReply == None && t.error == None
    ensures var r := Job(id, true, true, chunks, end, parse);
      && r.patch.Some?
      && var u := Merge(t, r.patch.value, now);
      && (u.status == DONE || u.status == ERROR)
      && (u.status == DONE <==> u.summary.Some? && u.suggestedReply.Some?)
      && (u.status == ERROR <==> u.error.Some?)
      && (u.summary.Some? <==> u.suggestedReply.Some?)
  {
  }

  /**
   * Nothing refuses a second run on a finished ticket: a failing rerun turns a "done" ticket into
   * "error" while its summary and reply stay.
   */
  lemma RerunIsNotGuarded(t: Ticket, id: Id, chunks: seq<Chunk>, reason: string, parse: Parser, now: nat)
    requires t.status == DONE && t.summary.Some? && t.suggestedReply.Some?
    ensures var u := Merge(t, Job(id, true, true, chunks, Raised(reason), parse).patch.value, now);
      u.status == ERROR && u.error == Some(LlmError(reason)) && u.summary == t.summary
  {
  }
}
