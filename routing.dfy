/**
 * The push pattern every phase helper repeats: walk the joined participants in insertion
 * order, look up each one's connection by `socketId`, and send to it only when the
 * connection is still registered (ts-fserver/dist/server.js:209-213, 635-650, 659-676, ...).
 */
module Routing {
  import opened Types

  /** `send` to connection `c` for each message, if `connections.get(c)` finds it. */
  function SendTo(conns: map<ConnId, Connection>, c: ConnId, ms: seq<ServerMsg>): (r: Outbox)
    ensures c in conns ==> |r| == |ms| && forall i :: 0 <= i < |ms| ==> r[i] == (c, ms[i])
    ensures c !in conns ==> r == []
  {
    if c in conns then seq(|ms|, i requires 0 <= i < |ms| => (c, ms[i])) else []
  }

  /** The messages pushed by `ps.forEach(p => { if live, send msgs(p) })`. */
  function Fanout(conns: map<ConnId, Connection>, ps: seq<Participant>, msgs: Participant -> seq<ServerMsg>): Outbox
    decreases |ps|
  {
    if ps == [] then []
    else Fanout(conns, ps[..|ps| - 1], msgs) + SendTo(conns, ps[|ps| - 1].socketId, msgs(ps[|ps| - 1]))
  }

  /** The same message to every live participant. */
  function Broadcast(conns: map<ConnId, Connection>, ps: seq<Participant>, m: ServerMsg): Outbox {
    Fanout(conns, ps, p => [m])
  }

  /** What connection `c` receives from an outbox, in order. */
  function InboxOf(out: Outbox, c: ConnId): (r: seq<ServerMsg>)
    ensures |r| <= |out|
  {
    if out == [] then []
    else InboxOf(out[..|out| - 1], c) + (if out[|out| - 1].0 == c then [out[|out| - 1].1] else [])
  }

  lemma {:induction false} InboxOfAppend(a: Outbox, b: Outbox, c: ConnId)
    ensures InboxOf(a + b, c) == InboxOf(a, c) + InboxOf(b, c)
    decreases |b|
  {
    if b == [] {
      assert a + b == a;
    } else {
      var b' := b[..|b| - 1];
      InboxOfAppend(a, b', c);
      assert (a + b)[..|a + b| - 1] == a + b';
    }
  }

  lemma {:induction false} InboxOfSendTo(conns: map<ConnId, Connection>, d: ConnId, ms: seq<ServerMsg>, c: ConnId)
    ensures InboxOf(SendTo(conns, d, ms), c) == if d == c && d in conns then ms else []
    decreases |ms|
  {
    if ms != [] && d in conns {
      var ms' := ms[..|ms| - 1];
      InboxOfSendTo(conns, d, ms', c);
      assert SendTo(conns, d, ms)[..|ms| - 1] == SendTo(conns, d, ms');
    }
  }

  /**
   * Every pushed message goes to the live connection of some participant, and is one of the
   * messages meant for that participant; conversely each live participant gets all of its own.
   */
  lemma {:induction false} FanoutDelivers(conns: map<ConnId, Connection>, ps: seq<Participant>, msgs: Participant -> seq<ServerMsg>, c: ConnId, m: ServerMsg)
    ensures (c, m) in Fanout(conns, ps, msgs) <==>
      c in conns && exists i :: 0 <= i < |ps| && ps[i].socketId == c && m in msgs(ps[i])
    decreases |ps|
  {
    if ps != [] {
      var ps' := ps[..|ps| - 1];
      var last := ps[|ps| - 1];
      FanoutDelivers(conns, ps', msgs, c, m);
      if (c, m) in SendTo(conns, last.socketId, msgs(last)) {
        var k :| 0 <= k < |msgs(last)| && SendTo(conns, last.socketId, msgs(last))[k] == (c, m);
        assert ps[|ps| - 1].socketId == c && m in msgs(ps[|ps| - 1]);
      }
      if c in conns && last.socketId == c && m in msgs(last) {
        var k :| 0 <= k < |msgs(last)| && msgs(last)[k] == m;
        assert SendTo(conns, last.socketId, msgs(last))[k] == (c, m);
      }
      forall i | 0 <= i < |ps| - 1 ensures ps'[i] == ps[i] { }
    }
  }

  /** No other participant in `ps` shares the connection of `ps[i]`. */
  predicate AloneOn(ps: seq<Participant>, i: nat)
    requires i < |ps|
  {
    forall j :: 0 <= j < |ps| && j != i ==> ps[j].socketId != ps[i].socketId
  }

  /**
   * A live participant that is the only one bound to its connection receives exactly the
   * messages meant for it, in order.
   */
  lemma {:induction false} FanoutToSoleHolder(conns: map<ConnId, Connection>, ps: seq<Participant>, msgs: Participant -> seq<ServerMsg>, i: nat)
    requires i < |ps| && ps[i].socketId in conns && AloneOn(ps, i)
    ensures InboxOf(Fanout(conns, ps, msgs), ps[i].socketId) == msgs(ps[i])
    decreases |ps|
  {
    var c := ps[i].socketId;
    var ps' := ps[..|ps| - 1];
    var last := ps[|ps| - 1];
    InboxOfAppend(Fanout(conns, ps', msgs), SendTo(conns, last.socketId, msgs(last)), c);
    InboxOfSendTo(conns, last.socketId, msgs(last), c);
    if i < |ps| - 1 {
      FanoutToSoleHolder(conns, ps', msgs, i);
    } else {
      NoneForOthers(conns, ps', msgs, c);
    }
  }

  lemma {:induction false} NoneForOthers(conns: map<ConnId, Connection>, ps: seq<Participant>, msgs: Participant -> seq<ServerMsg>, c: ConnId)
    requires forall j :: 0 <= j < |ps| ==> ps[j].socketId != c
    ensures InboxOf(Fanout(conns, ps, msgs), c) == []
    decreases |ps|
  {
    if ps != [] {
      var ps' := ps[..|ps| - 1];
      var last := ps[|ps| - 1];
      InboxOfAppend(Fanout(conns, ps', msgs), SendTo(conns, last.socketId, msgs(last)), c);
      InboxOfSendTo(conns, last.socketId, msgs(last), c);
      NoneForOthers(conns, ps', msgs, c);
    }
  }
}
