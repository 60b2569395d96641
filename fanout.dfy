/**
 * The listener registry (ticket id to the set of connected listeners) and what broadcasting does
 * to it and to each listener's received messages.
 */
module Fanout {
  import opened Tickets
  import opened Events

  /** The identity of one WebSocket connection. */
  type ListenerId = nat

  /** The registry; a missing entry reads as the empty set, as with a defaultdict. */
  type Registry = map<Id, set<ListenerId>>

  /** The messages each connection has received so far, oldest first. */
  type Logs = map<ListenerId, seq<Event>>

  function Registered(conns: Registry, id: Id): set<ListenerId> {
    if id in conns then conns[id] else {}
  }

  function LogOf(logs: Logs, l: ListenerId): seq<Event> {
    if l in logs then logs[l] else []
  }

  /**
   * The clean-up step of broadcast: the registered listeners whose send failed are discarded from
   * the ticket's set, which is written back only when there was at least one of them.
   */
  function Prune(conns: Registry, id: Id, failing: set<ListenerId>): (r: Registry)
    ensures Registered(r, id) == Registered(conns, id) - failing
    ensures forall t :: t != id ==> Registered(r, t) == Registered(conns, t)
    ensures r.Keys == conns.Keys
    ensures Registered(conns, id) * failing == {} ==> r == conns
  {
    DisjointMinus(Registered(conns, id), failing);
    if Registered(conns, id) * failing != {} then conns[id := conns[id] - failing] else conns
  }

  /** Writing back a ticket's own set leaves the registry as it was. */
  lemma RewriteUnchanged(conns: Registry, id: Id, s: set<ListenerId>)
    requires id in conns && s == conns[id]
    ensures conns[id := s] == conns
  {
    var r := conns[id := s];
    assert r.Keys == conns.Keys;
    forall k | k in r ensures r[k] == conns[k] {
    }
  }

  lemma DisjointMinus(a: set<ListenerId>, b: set<ListenerId>)
    ensures a * b == {} ==> a - b == a
  {
    if a * b == {} {
      forall x | x in a ensures x !in b {
        assert x !in a * b;
      }
    }
  }

  /**
   * `connections[id].discard(l)` on the defaultdict: the ticket's set loses `l` (and is created
   * empty if missing); every other ticket's set stays.
   */
  function Discard(conns: Registry, id: Id, l: ListenerId): (r: Registry)
    ensures Registered(r, id) == Registered(conns, id) - {l} && l !in Registered(r, id)
    ensures forall t :: t != id ==> Registered(r, t) == Registered(conns, t)
    ensures r.Keys == conns.Keys + {id}
  {
    conns[id := Registered(conns, id) - {l}]
  }

  /** Discarding is idempotent, and discarding a listener that is not registered changes nothing. */
  lemma DiscardIdempotent(conns: Registry, id: Id, l: ListenerId)
    ensures Discard(Discard(conns, id, l), id, l) == Discard(conns, id, l)
    ensures id in conns && l !in conns[id] ==> Discard(conns, id, l) == conns
  {
    var once := Discard(conns, id, l);
    assert Registered(once, id) - {l} == Registered(once, id);
    RewriteUnchanged(once, id, Registered(once, id));
    if id in conns && l !in conns[id] {
      assert conns[id] - {l} == conns[id];
      RewriteUnchanged(conns, id, conns[id]);
    }
  }

  /** `after` is `before` with `msg` appended to the messages of exactly the listeners in `targets`. */
  ghost predicate Delivered(after: Logs, before: Logs, targets: set<ListenerId>, msg: Event) {
    forall l :: LogOf(after, l) == if l in targets then LogOf(before, l) + [msg] else LogOf(before, l)
  }

  /**
   * The connections that have failed by the `k`-th broadcast of a run: connection `l` accepts the
   * first `failAt[l]` messages of the run and fails on every later one.
   */
  function BrokenBy(failAt: map<ListenerId, nat>, k: nat): set<ListenerId> {
    set l | l in failAt && failAt[l] < k
  }

  /** How many of the first `n` messages of a run connection `l` receives. */
  function Reach(failAt: map<ListenerId, nat>, l: ListenerId, n: nat): nat {
    if l in failAt && failAt[l] < n then failAt[l] else n
  }

  /**
   * The state after a run has broadcast `sent` to ticket `id`, starting from registry `conns0` and
   * logs `logs0`: the listeners that failed have been discarded from the ticket's set, every
   * listener registered at the start received the messages up to its failure, and no other
   * listener's messages changed.
   */
  ghost predicate FannedOut(conns: Registry, logs: Logs, id: Id, conns0: Registry, logs0: Logs,
                            failAt: map<ListenerId, nat>, sent: seq<Event>)
  {
    && conns == (if id in conns0 then conns0[id := conns0[id] - BrokenBy(failAt, |sent|)] else conns0)
    && forall l :: LogOf(logs, l) ==
         if l in Registered(conns0, id) then LogOf(logs0, l) + sent[..Reach(failAt, l, |sent|)]
         else LogOf(logs0, l)
  }

  lemma FanOutStart(conns0: Registry, logs0: Logs, id: Id, failAt: map<ListenerId, nat>)
    ensures FannedOut(conns0, logs0, id, conns0, logs0, failAt, [])
  {
    if id in conns0 {
      assert conns0[id] - BrokenBy(failAt, 0) == conns0[id];
      assert conns0[id := conns0[id]] == conns0;
    }
  }

  /**
   * One more broadcast, in which the connections that fail on this message are the ones the
   * run's failure pattern says, keeps the run's fan-out state up to date.
   */
  lemma FanOutStep(conns: Registry, logs: Logs, id: Id, conns0: Registry, logs0: Logs,
                   failAt: map<ListenerId, nat>, sent: seq<Event>, msg: Event, logs': Logs)
    requires FannedOut(conns, logs, id, conns0, logs0, failAt, sent)
    requires Delivered(logs', logs, Registered(conns, id) - BrokenBy(failAt, |sent| + 1), msg)
    ensures FannedOut(Prune(conns, id, BrokenBy(failAt, |sent| + 1)), logs', id, conns0, logs0, failAt, sent + [msg])
  {
    RegistryStep(conns, id, conns0, failAt, |sent|);
    LogsStep(conns, logs, id, conns0, logs0, failAt, sent, msg, logs');
  }

  lemma RegistryStep(conns: Registry, id: Id, conns0: Registry, failAt: map<ListenerId, nat>, n: nat)
    requires conns == (if id in conns0 then conns0[id := conns0[id] - BrokenBy(failAt, n)] else conns0)
    ensures Prune(conns, id, BrokenBy(failAt, n + 1))
      == (if id in conns0 then conns0[id := conns0[id] - BrokenBy(failAt, n + 1)] else conns0)
    ensures Registered(conns, id) - BrokenBy(failAt, n + 1) == Registered(conns0, id) - BrokenBy(failAt, n + 1)
  {
    var before, failing := BrokenBy(failAt, n), BrokenBy(failAt, n + 1);
    assert before <= failing;
    if id in conns0 {
      var x := conns0[id];
      assert (x - before) - failing == x - failing;
      DisjointMinus(x - before, failing);
      if (x - before) * failing == {} {
        assert x - before == x - failing;
        assert Prune(conns, id, failing) == conns;
      } else {
        assert Prune(conns, id, failing) == conns[id := (x - before) - failing];
      }
    }
  }

  lemma LogsStep(conns: Registry, logs: Logs, id: Id, conns0: Registry, logs0: Logs,
                 failAt: map<ListenerId, nat>, sent: seq<Event>, msg: Event, logs': Logs)
    requires FannedOut(conns, logs, id, conns0, logs0, failAt, sent)
    requires Delivered(logs', logs, Registered(conns, id) - BrokenBy(failAt, |sent| + 1), msg)
    ensures forall l :: LogOf(logs', l) ==
              if l in Registered(conns0, id) then LogOf(logs0, l) + (sent + [msg])[..Reach(failAt, l, |sent| + 1)]
              else LogOf(logs0, l)
  {
    var n := |sent|;
    var sent' := sent + [msg];
    var failing := BrokenBy(failAt, n + 1);
    RegistryStep(conns, id, conns0, failAt, n);
    forall l
      ensures LogOf(logs', l) ==
        if l in Registered(conns0, id) then LogOf(logs0, l) + sent'[..Reach(failAt, l, n + 1)]
        else LogOf(logs0, l)
    {
      var targets := Registered(conns, id) - failing;
      assert LogOf(logs', l) == if l in targets then LogOf(logs, l) + [msg] else LogOf(logs, l);
      if l in Registered(conns0, id) {
        assert LogOf(logs, l) == LogOf(logs0, l) + sent[..Reach(failAt, l, n)];
        if l in failing {
          var j := failAt[l];
          assert j <= n;
          assert Reach(failAt, l, n) == j && Reach(failAt, l, n + 1) == j;
          assert l !in targets;
          assert sent'[..j] == sent[..j];
        } else {
          assert Reach(failAt, l, n) == n && Reach(failAt, l, n + 1) == n + 1;
          assert l in targets;
          assert sent'[..n + 1] == sent[..n] + [msg];
        }
      } else {
        assert LogOf(logs, l) == LogOf(logs0, l);
        assert l !in targets;
      }
    }
  }

  /**
   * After a run, a listener registered at its start is still registered exactly when it never
   * failed, and then it received every message of the run; in any case it received a prefix of
   * them, after what it had before.
   */
  lemma FannedOutListener(conns: Registry, logs: Logs, id: Id, conns0: Registry, logs0: Logs,
                          failAt: map<ListenerId, nat>, sent: seq<Event>, l: ListenerId)
    requires FannedOut(conns, logs, id, conns0, logs0, failAt, sent)
    requires l in Registered(conns0, id)
    ensures l in Registered(conns, id) <==> !(l in failAt && failAt[l] < |sent|)
    ensures l in Registered(conns, id) ==> LogOf(logs, l) == LogOf(logs0, l) + sent
    ensures l in failAt && failAt[l] < |sent| ==> LogOf(logs, l) == LogOf(logs0, l) + sent[..failAt[l]]
    ensures LogOf(logs0, l) <= LogOf(logs, l)
    ensures LogOf(logs, l)[|LogOf(logs0, l)|..] <= sent
  {
    var k := Reach(failAt, l, |sent|);
    assert LogOf(logs, l) == LogOf(logs0, l) + sent[..k];
    assert LogOf(logs, l)[|LogOf(logs0, l)|..] == sent[..k];
  }
}
