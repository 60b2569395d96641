/** The messages pushed to WebSocket listeners, as a closed union instead of JSON objects. */
module Events {
  import opened Wrappers
  import opened Tickets

  datatype Event =
    | Snapshot(ticketId: Id, ticket: Ticket)
    | Status(ticketId: Id, status: string, error: Option<string>)
    | Token(ticketId: Id, token: string)
    | Complete(ticketId: Id, summary: string, suggestedReply: string)

  /** The text a client rebuilds by concatenating, in order, the payloads of the token events it saw. */
  function TokenText(es: seq<Event>): string {
    if es == [] then "" else (if es[0].Token? then es[0].token else "") + TokenText(es[1..])
  }

  lemma {:induction false} TokenTextAppend(a: seq<Event>, b: seq<Event>)
    ensures TokenText(a + b) == TokenText(a) + TokenText(b)
  {
    if a == [] {
      assert a + b == b;
    } else {
      assert (a + b)[1..] == a[1..] + b;
      TokenTextAppend(a[1..], b);
    }
  }

  /** Whoever saw only the first `k` events has rebuilt a prefix of the full token text. */
  lemma TokenTextPrefix(es: seq<Event>, k: nat)
    requires k <= |es|
    ensures TokenText(es[..k]) <= TokenText(es)
  {
    assert es == es[..k] + es[k..];
    TokenTextAppend(es[..k], es[k..]);
  }
}
