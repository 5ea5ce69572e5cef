/**
 * What the DKG handlers promise, stated over the functions of module Dkg.
 */
module DkgProperties {
  import opened Wrappers
  import opened JsMaps
  import opened Types
  import opened Engine
  import opened Routing
  import opened Sessions
  import opened Dkg
  import HexIds

  /** `conn` is bound to the participant at index `i` in join order, and its key is usable. */
  predicate IsSender(s: DkgSession, conn: ConnId, i: nat) {
    FindBySocket(Members(s), conn) == Some(i) && Truthy(Members(s)[i].pubKeyProp)
  }

  // ------------------------------------------------------------------------------------------
  // Join
  // ------------------------------------------------------------------------------------------

  /** A join is refused, with the session untouched, when the caller is not logged in or no roster key matches. */
  lemma JoinRefusals(s: DkgSession, caller: Connection, conns: map<ConnId, Connection>, conn: ConnId, sid: SessionId)
    ensures !LoggedIn(caller) ==> Join(s, caller, conns, conn, sid) == (s, [(conn, Error(NotLoggedIn))])
    ensures LoggedIn(caller) && FindRosterEntry(s.participantsPubs, caller.publicKey.value).None? ==>
      Join(s, caller, conns, conn, sid) == (s, [(conn, Error(KeyNotAuthorized))])
  {
  }

  /**
   * A successful join binds the first matching roster slot to the caller's connection; the
   * set of joined slots grows by that slot only, so re-joining a slot overwrites it in place.
   */
  lemma {:induction false} JoinBindsSlot(s: DkgSession, caller: Connection, conns: map<ConnId, Connection>, conn: ConnId, sid: SessionId, i: nat)
    requires LoggedIn(caller) && FindRosterEntry(s.participantsPubs, caller.publicKey.value) == Some(i)
    ensures var r := Join(s, caller, conns, conn, sid).0;
      var suid := s.participantsPubs[i].0;
      && r.joined.items.Keys == s.joined.items.Keys + {suid}
      && r.joined.items[suid].socketId == conn
      && r.joined.items[suid].pubKeyProp == s.participantsPubs[i].1
      && Size(r.joined) == if suid in s.joined.items then Size(s.joined) else Size(s.joined) + 1
  {
    var s1 := Bind(s, i, conn);
    var suid := s.participantsPubs[i].0;
    assert s1.joined.items[suid].socketId == conn;
    if Size(s1.joined) == s1.maxSigners {
      assert Join(s, caller, conns, conn, sid).0 == StartRound1(s1);
    }
  }

  /** Joining keeps every joined slot inside the roster, so the count never exceeds the roster's distinct slots. */
  lemma {:induction false} JoinStaysWithinRoster(s: DkgSession, caller: Connection, conns: map<ConnId, Connection>, conn: ConnId, sid: SessionId)
    requires JoinedFromRoster(s.joined, s.participantsPubs)
    ensures JoinedFromRoster(Join(s, caller, conns, conn, sid).0.joined, s.participantsPubs)
    ensures Size(Join(s, caller, conns, conn, sid).0.joined) <= |RosterUids(s.participantsPubs)|
    ensures Join(s, caller, conns, conn, sid).0.id == s.id
    ensures Join(s, caller, conns, conn, sid).0.participantsPubs == s.participantsPubs
    ensures Join(s, caller, conns, conn, sid).0.finalGroupKey == s.finalGroupKey
  {
    var r := Join(s, caller, conns, conn, sid).0;
    if LoggedIn(caller) && FindRosterEntry(s.participantsPubs, caller.publicKey.value).Some? {
      var i := FindRosterEntry(s.participantsPubs, caller.publicKey.value).value;
      var s1 := Bind(s, i, conn);
      assert s.participantsPubs[i].0 in RosterUids(s.participantsPubs);
      assert JoinedFromRoster(s1.joined, s.participantsPubs);
      if Size(s1.joined) == s1.maxSigners {
        assert r == StartRound1(s1);
      }
    }
    JoinedWithinRoster(r.joined, s.participantsPubs);
  }

  /**
   * A successful join that brings the joined count to `max_signers` moves the session to
   * Round1 and gives every participant the identifier derived from its slot. The guard is an
   * equality on the size, so a re-join once the count is reached fires Round 1 again, in
   * whatever state the session was. A join that leaves the count elsewhere keeps the state
   * and sends only the JoinedAs note and the join broadcast.
   */
  lemma {:induction false} JoinFiresRound1(s: DkgSession, caller: Connection, conns: map<ConnId, Connection>, conn: ConnId, sid: SessionId, i: nat)
    requires LoggedIn(caller) && FindRosterEntry(s.participantsPubs, caller.publicKey.value) == Some(i)
    ensures var r := Join(s, caller, conns, conn, sid);
      var notes := [(conn, Info(JoinedAs(sid, s.participantsPubs[i].0)))]
                   + Broadcast(conns, Members(Bind(s, i, conn)), Info(ParticipantJoined(s.participantsPubs[i].0, sid)));
      && (Size(Bind(s, i, conn).joined) == s.maxSigners ==>
            && r.0.state == DkgState.Round1
            && (forall k :: k in r.0.joined.items ==> r.0.joined.items[k].frostIdHex == Some(HexIds.UidToIdHex(r.0.joined.items[k].uid)))
            && r.1 == notes + Round1Start(conns, Bind(s, i, conn)).1)
      && (Size(Bind(s, i, conn).joined) != s.maxSigners ==>
            r.0 == Bind(s, i, conn) && r.0.state == s.state && r.1 == notes)
  {
    var s1 := Bind(s, i, conn);
    if Size(s1.joined) == s.maxSigners {
      assert Join(s, caller, conns, conn, sid).0 == StartRound1(s1);
    }
  }

  /** Re-joining a slot of a full session fires Round 1 again, even after the session finalized. */
  lemma RejoinRestartsRound1(s: DkgSession, caller: Connection, conns: map<ConnId, Connection>, conn: ConnId, sid: SessionId, i: nat)
    requires LoggedIn(caller) && FindRosterEntry(s.participantsPubs, caller.publicKey.value) == Some(i)
    requires s.participantsPubs[i].0 in s.joined.items && Size(s.joined) == s.maxSigners
    ensures Join(s, caller, conns, conn, sid).0.state == DkgState.Round1
  {
    JoinFiresRound1(s, caller, conns, conn, sid, i);
  }

  /** After Round 1 starts, participants in distinct slots hold distinct identifiers. */
  lemma {:induction false} Round1IdsDistinct(s: DkgSession, a: int, b: int)
    requires JoinedFromRoster(s.joined, s.participantsPubs)
    requires a in s.joined.items && b in s.joined.items && a != b
    ensures StartRound1(s).joined.items[a].frostIdHex != StartRound1(s).joined.items[b].frostIdHex
  {
    var r := StartRound1(s);
    if r.joined.items[a].frostIdHex == r.joined.items[b].frostIdHex {
      HexIds.IdHexInjective(a, b);
    }
  }

  /** A participant that is alone on its connection receives its own identifier and the shared roster. */
  lemma {:induction false} ReadyRound1Personal(conns: map<ConnId, Connection>, s: DkgSession, i: nat)
    requires i < Size(s.joined) && Members(s)[i].socketId in conns && AloneOn(Members(s), i)
    ensures var (s', out) := Round1Start(conns, s);
      InboxOf(out, Members(s)[i].socketId) ==
        [ReadyRound1(s.id, s.groupId, s.minSigners, s.maxSigners, Roster(Members(s')), HexIds.UidToIdHex(Members(s)[i].uid))]
  {
    var s' := StartRound1(s);
    var ps := Members(s');
    assert forall j :: 0 <= j < |ps| ==> ps[j] == WithRoundOneId(Members(s)[j]);
    FanoutToSoleHolder(conns, ps, ReadyRound1For(s', Roster(ps)), i);
  }

  // ------------------------------------------------------------------------------------------
  // Round 1
  // ------------------------------------------------------------------------------------------

  /**
   * A Round1Submit whose verification fails or throws leaves the stored packages and the
   * state as they were, but the sender's identifier has already been overwritten.
   */
  lemma Round1RefusedKeepsPackages(s: DkgSession, conns: map<ConnId, Connection>, conn: ConnId, sid: SessionId,
                                   idHex: Hex, pkgHex: Hex, sigHex: Hex, e: Engine, i: nat)
    requires IsSender(s, conn, i)
    requires CheckSig(e, Members(s)[i].pubKeyProp, e.authPayloadRound1(sid, idHex, pkgHex), sigHex) != Accepted
    ensures var (r, out) := Dkg.Round1Submit(s, conns, conn, sid, idHex, pkgHex, sigHex, e);
      && r.round1Packages == s.round1Packages
      && r.state == s.state
      && r.joined.items[s.joined.order[i]].frostIdHex == Some(idHex)
      && |out| == 1 && out[0].0 == conn && out[0].1.Error?
  {
  }

  /**
   * Round1Submit only rewrites the sender's own slot, keeping its uid, so the joined slots
   * stay the roster slots they were.
   */
  lemma {:induction false} Round1SubmitKeepsRoster(s: DkgSession, conns: map<ConnId, Connection>, conn: ConnId, sid: SessionId,
                                                  idHex: Hex, pkgHex: Hex, sigHex: Hex, e: Engine)
    requires JoinedFromRoster(s.joined, s.participantsPubs)
    ensures var r := Dkg.Round1Submit(s, conns, conn, sid, idHex, pkgHex, sigHex, e).0;
      && r.id == s.id && r.participantsPubs == s.participantsPubs
      && r.joined.order == s.joined.order
      && r.finalGroupKey == s.finalGroupKey
      && JoinedFromRoster(r.joined, s.participantsPubs)
  {
    var ps := Members(s);
    match FindBySocket(ps, conn)
    case None =>
    case Some(i) =>
      var p := ps[i];
      var k := s.joined.order[i];
      assert k in s.joined.items by { assert k in (set j | 0 <= j < |s.joined.order| :: s.joined.order[j]); }
      assert p.uid == k;
      var s1 := s.(joined := Set(s.joined, k, p.(frostIdHex := Some(idHex))));
      assert JoinedFromRoster(s1.joined, s.participantsPubs);
      if Truthy(p.pubKeyProp) && CheckSig(e, p.pubKeyProp, e.authPayloadRound1(sid, idHex, pkgHex), sigHex) == Accepted {
        var s2 := s1.(round1Packages := Set(s1.round1Packages, idHex, Round1Package(pkgHex, sigHex)));
        if Size(s2.round1Packages) == s2.maxSigners {
          assert Dkg.Round1Submit(s, conns, conn, sid, idHex, pkgHex, sigHex, e).0.joined == s1.joined;
        }
      }
  }

  /** Round2Submit leaves the joined participants, the roster, the id and the group key alone. */
  lemma Round2KeepsParticipants(s: DkgSession, conns: map<ConnId, Connection>, conn: ConnId, sid: SessionId,
                                idHex: Hex, pairs: seq<Pair>, e: Engine)
    ensures var r := Dkg.Round2Submit(s, conns, conn, sid, idHex, pairs, e).0;
      && r.id == s.id && r.participantsPubs == s.participantsPubs && r.joined == s.joined
      && r.finalGroupKey == s.finalGroupKey
  {
  }

  /** FinalizeSubmit leaves the joined participants, the roster and the id alone. */
  lemma FinalizeKeepsParticipants(s: DkgSession, conns: map<ConnId, Connection>, conn: ConnId, sid: SessionId,
                                  idHex: Hex, vk: Hex, sig: Hex, e: Engine)
    ensures var r := Finalize(s, conns, conn, sid, idHex, vk, sig, e).0;
      r.id == s.id && r.participantsPubs == s.participantsPubs && r.joined == s.joined
  {
  }

  /** An accepted package is stored under its identifier; a resubmission replaces it without growing the map. */
  lemma {:induction false} Round1KeyedById(s: DkgSession, conns: map<ConnId, Connection>, conn: ConnId, sid: SessionId,
                                          idHex: Hex, pkgHex: Hex, sigHex: Hex, e: Engine, i: nat)
    requires IsSender(s, conn, i)
    requires CheckSig(e, Members(s)[i].pubKeyProp, e.authPayloadRound1(sid, idHex, pkgHex), sigHex) == Accepted
    ensures var r := Dkg.Round1Submit(s, conns, conn, sid, idHex, pkgHex, sigHex, e).0;
      && r.round1Packages.items == s.round1Packages.items[idHex := Round1Package(pkgHex, sigHex)]
      && Size(r.round1Packages) == if idHex in s.round1Packages.items then Size(s.round1Packages) else Size(s.round1Packages) + 1
  {
    var p := Members(s)[i];
    var s1 := s.(joined := Set(s.joined, s.joined.order[i], p.(frostIdHex := Some(idHex))));
    var s2 := s1.(round1Packages := Set(s1.round1Packages, idHex, Round1Package(pkgHex, sigHex)));
    if Size(s2.round1Packages) == s2.maxSigners {
      assert Dkg.Round1Submit(s, conns, conn, sid, idHex, pkgHex, sigHex, e).0 == s2.(state := DkgState.Round2);
    }
  }

  /**
   * `finishDKGRound1` moves the session to Round2 and pushes only the shared Round1All list
   * and ReadyRound2; a participant alone on its connection gets exactly those two, in order.
   */
  lemma {:induction false} Round1FinishDelivers(conns: map<ConnId, Connection>, s: DkgSession)
    ensures var (r, out) := Round1Finish(conns, s);
      && r.state == DkgState.Round2 && r.round1Packages == s.round1Packages && r.joined == s.joined
      && (forall k :: 0 <= k < |out| ==>
            out[k].1 == Round1All(s.id, Round1List(s.round1Packages)) || out[k].1 == ReadyRound2(s.id, []))
      && (forall j :: 0 <= j < Size(s.joined) && Members(s)[j].socketId in conns && AloneOn(Members(s), j) ==>
            InboxOf(out, Members(s)[j].socketId) == [Round1All(s.id, Round1List(s.round1Packages)), ReadyRound2(s.id, [])])
  {
    var (r, out) := Round1Finish(conns, s);
    assert Members(r) == Members(s);
    var f := Round1AllFor(s.id, Round1List(s.round1Packages));
    forall k | 0 <= k < |out|
      ensures out[k].1 == Round1All(s.id, Round1List(s.round1Packages)) || out[k].1 == ReadyRound2(s.id, [])
    {
      assert out[k] in out;
      FanoutDelivers(conns, Members(s), f, out[k].0, out[k].1);
    }
    forall j | 0 <= j < Size(s.joined) && Members(s)[j].socketId in conns && AloneOn(Members(s), j)
      ensures InboxOf(out, Members(s)[j].socketId) == [Round1All(s.id, Round1List(s.round1Packages)), ReadyRound2(s.id, [])]
    {
      FanoutToSoleHolder(conns, Members(s), f, j);
    }
  }

  /**
   * When the accepted package brings the count to `max_signers`, the session moves to Round2
   * and every message pushed is the one shared Round1All list or a ReadyRound2; a participant
   * alone on its connection gets exactly Round1All then ReadyRound2.
   */
  lemma {:induction false} Round1Completes(s: DkgSession, conns: map<ConnId, Connection>, conn: ConnId, sid: SessionId,
                                          idHex: Hex, pkgHex: Hex, sigHex: Hex, e: Engine, i: nat)
    requires IsSender(s, conn, i)
    requires CheckSig(e, Members(s)[i].pubKeyProp, e.authPayloadRound1(sid, idHex, pkgHex), sigHex) == Accepted
    ensures var (r, out) := Dkg.Round1Submit(s, conns, conn, sid, idHex, pkgHex, sigHex, e);
      var full := Size(Set(s.round1Packages, idHex, Round1Package(pkgHex, sigHex))) == s.maxSigners;
      && (full ==>
            && r.state == DkgState.Round2
            && (forall k :: 0 <= k < |out| ==>
                  out[k].1 == Round1All(s.id, Round1List(r.round1Packages)) || out[k].1 == ReadyRound2(s.id, []))
            && (forall j :: 0 <= j < Size(r.joined) && Members(r)[j].socketId in conns && AloneOn(Members(r), j) ==>
                  InboxOf(out, Members(r)[j].socketId) == [Round1All(s.id, Round1List(r.round1Packages)), ReadyRound2(s.id, [])]))
      && (!full ==> r.state == s.state && out == [])
  {
    var p := Members(s)[i];
    var s1 := s.(joined := Set(s.joined, s.joined.order[i], p.(frostIdHex := Some(idHex))));
    var s2 := s1.(round1Packages := Set(s1.round1Packages, idHex, Round1Package(pkgHex, sigHex)));
    if Size(s2.round1Packages) == s.maxSigners {
      assert Dkg.Round1Submit(s, conns, conn, sid, idHex, pkgHex, sigHex, e) == Round1Finish(conns, s2);
      Round1FinishDelivers(conns, s2);
      var r := Round1Finish(conns, s2).0;
      assert r.round1Packages == s2.round1Packages && r.joined == s2.joined;
      assert Members(r) == Members(s2) && s2.id == s.id;
    }
  }

  // ------------------------------------------------------------------------------------------
  // Round 2
  // ------------------------------------------------------------------------------------------

  lemma {:induction false} SumLengthsUntouched(items: map<Hex, seq<Round2Package>>, keys: seq<Hex>, k: Hex, v: seq<Round2Package>)
    requires forall i :: 0 <= i < |keys| ==> keys[i] in items
    requires k !in keys
    ensures SumLengths(items[k := v], keys) == SumLengths(items, keys)
  {
    if keys != [] {
      SumLengthsUntouched(items, keys[..|keys| - 1], k, v);
    }
  }

  lemma {:induction false} SumLengthsUpdate(items: map<Hex, seq<Round2Package>>, keys: seq<Hex>, k: Hex, v: seq<Round2Package>)
    requires forall i :: 0 <= i < |keys| ==> keys[i] in items
    requires forall i, j :: 0 <= i < j < |keys| ==> keys[i] != keys[j]
    requires k in keys
    ensures SumLengths(items[k := v], keys) + |items[k]| == SumLengths(items, keys) + |v|
  {
    var n := |keys|;
    var front := keys[..n - 1];
    if keys[n - 1] == k {
      assert k !in front by {
        forall t | 0 <= t < |front| ensures front[t] != k { assert keys[t] != keys[n - 1]; }
      }
      SumLengthsUntouched(items, front, k, v);
    } else {
      assert k in front by {
        var t :| 0 <= t < n && keys[t] == k;
        assert front[t] == k;
      }
      SumLengthsUpdate(items, front, k, v);
    }
  }

  /** Every push adds exactly one to the total, whether the recipient's list existed or not. */
  lemma {:induction false} PushAddsOne(m: Inboxes, recipient: Hex, x: Round2Package)
    ensures TotalPackages(Push(m, recipient, x)) == TotalPackages(m) + 1
  {
    var v := Get(m, recipient).GetOr([]) + [x];
    if recipient in m.items {
      SumLengthsUpdate(m.items, m.order, recipient, v);
    } else {
      var r := Push(m, recipient, x);
      assert r.order[..|r.order| - 1] == m.order;
      SumLengthsUntouched(m.items, m.order, recipient, v);
    }
  }

  /** Pushing `n` pairs adds `n` to the total. */
  lemma {:induction false} PushAllCount(m: Inboxes, idHex: Hex, pairs: seq<Pair>)
    ensures TotalPackages(PushAll(m, idHex, pairs)) == TotalPackages(m) + |pairs|
    decreases |pairs|
  {
    if pairs != [] {
      PushAddsOne(m, pairs[0].0, Entry(idHex, pairs[0]));
      PushAllCount(Push(m, pairs[0].0, Entry(idHex, pairs[0])), idHex, pairs[1..]);
    }
  }

  /** How many pairs, from the front, pass verification. */
  function AcceptedPrefix(e: Engine, sid: SessionId, idHex: Hex, pk: PubKey, pairs: seq<Pair>): (n: nat)
    ensures n <= |pairs|
    ensures forall t :: 0 <= t < n ==> PairCheck(e, sid, idHex, pk, pairs[t]) == Accepted
    ensures n < |pairs| ==> PairCheck(e, sid, idHex, pk, pairs[n]) != Accepted
  {
    if pairs == [] || PairCheck(e, sid, idHex, pk, pairs[0]) != Accepted then 0
    else 1 + AcceptedPrefix(e, sid, idHex, pk, pairs[1..])
  }

  /** One accepted pair: it is pushed, and the walk goes on with the rest. */
  lemma DistributeAcceptedStep(m: Inboxes, e: Engine, sid: SessionId, idHex: Hex, pk: PubKey, pairs: seq<Pair>)
    requires pairs != [] && PairCheck(e, sid, idHex, pk, pairs[0]) == Accepted
    ensures Distribute(m, e, sid, idHex, pk, pairs)
         == Distribute(Push(m, pairs[0].0, Entry(idHex, pairs[0])), e, sid, idHex, pk, pairs[1..])
    ensures AcceptedPrefix(e, sid, idHex, pk, pairs) == 1 + AcceptedPrefix(e, sid, idHex, pk, pairs[1..])
  {
  }

  /** Pushing a non-empty prefix is pushing its first pair, then the rest of the prefix. */
  lemma PushAllPrefixStep(m: Inboxes, idHex: Hex, pairs: seq<Pair>, n: nat)
    requires 0 < n <= |pairs|
    ensures PushAll(m, idHex, pairs[..n]) == PushAll(Push(m, pairs[0].0, Entry(idHex, pairs[0])), idHex, pairs[1..][..n - 1])
  {
    var taken := pairs[..n];
    assert taken[0] == pairs[0] && taken[1..] == pairs[1..][..n - 1];
  }

  /**
   * Round-2 pairs are verified in order and each accepted one is recorded at once: the
   * result is the inboxes with the accepted prefix pushed, and the first failing pair's
   * error, if any; the pairs before it stay recorded.
   */
  lemma {:induction false} DistributeOutcome(m: Inboxes, e: Engine, sid: SessionId, idHex: Hex, pk: PubKey, pairs: seq<Pair>)
    ensures Distribute(m, e, sid, idHex, pk, pairs).0 == PushAll(m, idHex, pairs[..AcceptedPrefix(e, sid, idHex, pk, pairs)])
    ensures var n := AcceptedPrefix(e, sid, idHex, pk, pairs);
      Distribute(m, e, sid, idHex, pk, pairs).1 ==
        if n == |pairs| then None
        else if PairCheck(e, sid, idHex, pk, pairs[n]) == Threw then Some(VerificationError)
        else Some(InvalidSignatureInPackage)
    decreases |pairs|
  {
    if pairs != [] && PairCheck(e, sid, idHex, pk, pairs[0]) == Accepted {
      var m' := Push(m, pairs[0].0, Entry(idHex, pairs[0]));
      DistributeOutcome(m', e, sid, idHex, pk, pairs[1..]);
      DistributeAcceptedStep(m, e, sid, idHex, pk, pairs);
      var n := AcceptedPrefix(e, sid, idHex, pk, pairs);
      PushAllPrefixStep(m, idHex, pairs, n);
      if n < |pairs| {
        assert pairs[n] == pairs[1..][n - 1];
      }
    } else {
      assert pairs[..0] == [];
    }
  }

  /** An accepted Round2Submit adds one entry per pair; a refused one adds one per pair before the failure. */
  lemma DistributeCount(m: Inboxes, e: Engine, sid: SessionId, idHex: Hex, pk: PubKey, pairs: seq<Pair>)
    ensures TotalPackages(Distribute(m, e, sid, idHex, pk, pairs).0) == TotalPackages(m) + AcceptedPrefix(e, sid, idHex, pk, pairs)
  {
    DistributeOutcome(m, e, sid, idHex, pk, pairs);
    PushAllCount(m, idHex, pairs[..AcceptedPrefix(e, sid, idHex, pk, pairs)]);
  }

  /**
   * The round-2 barrier is a raw count: with N = 2, two packages pushed to one recipient
   * complete the round although the other recipient's inbox is empty.
   */
  lemma BarrierIgnoresSpread(x: Round2Package, y: Round2Package)
    ensures var m := Push(Push(Empty(), "a", x), "a", y);
      TotalPackages(m) == 2 * (2 - 1) && Get(m, "b").None?
  {
    PushAddsOne(Empty(), "a", x);
    PushAddsOne(Push(Empty(), "a", x), "a", y);
  }

  /**
   * The round-2 barrier, for every submission from a joined participant: the inboxes grow by
   * the verified prefix of the pairs; a failing pair answers the sender with its error; when
   * every pair verifies, the round finishes exactly when the stored total reaches
   * `max_signers * (max_signers - 1)`, however the packages are spread over the recipients,
   * and otherwise nothing is sent.
   */
  lemma {:induction false} Round2Completes(s: DkgSession, conns: map<ConnId, Connection>, conn: ConnId, sid: SessionId,
                                          idHex: Hex, pairs: seq<Pair>, e: Engine, i: nat)
    requires IsSender(s, conn, i)
    ensures var pk := Members(s)[i].pubKeyProp;
      var n := AcceptedPrefix(e, sid, idHex, pk, pairs);
      var total := TotalPackages(s.round2Packages) + n;
      var r := Dkg.Round2Submit(s, conns, conn, sid, idHex, pairs, e).0;
      var out := Dkg.Round2Submit(s, conns, conn, sid, idHex, pairs, e).1;
      && r == s.(round2Packages := Distribute(s.round2Packages, e, sid, idHex, pk, pairs).0)
      && TotalPackages(r.round2Packages) == total
      && (n < |pairs| ==> |out| == 1 && out[0].0 == conn && out[0].1.Error?)
      && (n == |pairs| && total == ExpectedPackages(s.maxSigners) ==> out == Round2Finish(conns, r))
      && (n == |pairs| && total != ExpectedPackages(s.maxSigners) ==> out == [])
  {
    var pk := Members(s)[i].pubKeyProp;
    var d := Distribute(s.round2Packages, e, sid, idHex, pk, pairs);
    DistributeOutcome(s.round2Packages, e, sid, idHex, pk, pairs);
    DistributeCount(s.round2Packages, e, sid, idHex, pk, pairs);
    assert d.1.None? <==> AcceptedPrefix(e, sid, idHex, pk, pairs) == |pairs|;
  }

  /**
   * Every Round2All is sent to the connection of a participant that has an identifier, and
   * carries exactly the list stored under that identifier (or an empty list).
   */
  lemma {:induction false} Round2DeliveryOwnInbox(conns: map<ConnId, Connection>, s: DkgSession, k: nat)
    requires k < |Round2Finish(conns, s)|
    ensures var (c, m) := Round2Finish(conns, s)[k];
      && c in conns
      && (exists j :: 0 <= j < Size(s.joined) && Members(s)[j].socketId == c && Present(Members(s)[j].frostIdHex) &&
            m == Round2All(s.id, Get(s.round2Packages, Members(s)[j].frostIdHex.value).GetOr([])))
  {
    var out := Round2Finish(conns, s);
    assert out[k] in out;
    FanoutDelivers(conns, Members(s), Round2AllFor(s), out[k].0, out[k].1);
  }

  /** A participant with no identifier, alone on its connection, receives nothing at Round 2 finish. */
  lemma NoIdNoRound2(conns: map<ConnId, Connection>, s: DkgSession, j: nat)
    requires j < Size(s.joined) && !Present(Members(s)[j].frostIdHex) && Members(s)[j].socketId in conns
    requires AloneOn(Members(s), j)
    ensures InboxOf(Round2Finish(conns, s), Members(s)[j].socketId) == []
  {
    FanoutToSoleHolder(conns, Members(s), Round2AllFor(s), j);
  }

  /** A live participant with an identifier, alone on its connection, receives exactly its own inbox at Round 2 finish. */
  lemma Round2ReachesEachId(conns: map<ConnId, Connection>, s: DkgSession, j: nat)
    requires j < Size(s.joined) && Present(Members(s)[j].frostIdHex) && Members(s)[j].socketId in conns
    requires AloneOn(Members(s), j)
    ensures InboxOf(Round2Finish(conns, s), Members(s)[j].socketId)
         == [Round2All(s.id, Get(s.round2Packages, Members(s)[j].frostIdHex.value).GetOr([]))]
  {
    FanoutToSoleHolder(conns, Members(s), Round2AllFor(s), j);
  }

  // ------------------------------------------------------------------------------------------
  // Finalize
  // ------------------------------------------------------------------------------------------

  /** Once the group key is set (to a non-empty string), no finalize changes it. */
  lemma FinalizeKeepsKey(s: DkgSession, conns: map<ConnId, Connection>, conn: ConnId, sid: SessionId,
                         idHex: Hex, vk: Hex, sig: Hex, e: Engine)
    requires Present(s.finalGroupKey)
    ensures Finalize(s, conns, conn, sid, idHex, vk, sig, e).0.finalGroupKey == s.finalGroupKey
  {
  }

  /** An accepted finalize carried the session's group key: afterwards the key is exactly the one submitted. */
  lemma FinalizeAcceptedCarriesKey(s: DkgSession, conns: map<ConnId, Connection>, conn: ConnId, sid: SessionId,
                                   idHex: Hex, vk: Hex, sig: Hex, e: Engine, i: nat)
    requires IsSender(s, conn, i) && FinalizeFault(s, Members(s)[i], e, sid, idHex, vk, sig).None?
    ensures Finalize(s, conns, conn, sid, idHex, vk, sig, e).0.finalGroupKey == Some(vk)
    ensures Present(s.finalGroupKey) ==> s.finalGroupKey.value == vk
  {
  }

  /** The identifier check applies only when the participant has a (non-empty) identifier. */
  lemma IdentifierCheckNeedsId(s: DkgSession, p: Participant, e: Engine, sid: SessionId, idHex: Hex, vk: Hex, sig: Hex)
    ensures FinalizeFault(s, p, e, sid, idHex, vk, sig) == Some(IdentifierMismatch) <==>
      CheckSig(e, p.pubKeyProp, e.authPayloadFinalize(sid, idHex, vk), sig) == Accepted &&
      Present(p.frostIdHex) && p.frostIdHex.value != idHex
  {
  }

  /**
   * An accepted finalize adds the sender's uid to a set, so a repeat does not count twice; the
   * session becomes Finalized exactly when the set's size equals `max_signers`, and before
   * that only the sender is acknowledged.
   */
  lemma {:induction false} FinalizeBarrier(s: DkgSession, conns: map<ConnId, Connection>, conn: ConnId, sid: SessionId,
                                          idHex: Hex, vk: Hex, sig: Hex, e: Engine, i: nat)
    requires IsSender(s, conn, i) && FinalizeFault(s, Members(s)[i], e, sid, idHex, vk, sig).None?
    ensures var (r, out) := Finalize(s, conns, conn, sid, idHex, vk, sig, e);
      var done := s.finalizedUids.GetOr({}) + {Members(s)[i].uid};
      && r.finalizedUids == Some(done)
      && (Members(s)[i].uid in s.finalizedUids.GetOr({}) ==> |done| == |s.finalizedUids.GetOr({})|)
      && (|done| == s.maxSigners ==> r.state == DkgState.Finalized && out == Broadcast(conns, Members(r), ServerMsg.Finalized(sid, vk)))
      && (|done| != s.maxSigners ==> r.state == s.state && out == [(conn, ServerMsg.Finalized(sid, vk))])
  {
    var done := s.finalizedUids.GetOr({}) + {Members(s)[i].uid};
    if Members(s)[i].uid in s.finalizedUids.GetOr({}) {
      assert done == s.finalizedUids.GetOr({});
    }
  }

  /** Two accepted finalizes in a row, the first with a non-empty key, carry the same key. */
  lemma {:induction false} FinalizersAgree(s: DkgSession, conns: map<ConnId, Connection>,
                                          c1: ConnId, i1: nat, id1: Hex, vk1: Hex, sig1: Hex,
                                          c2: ConnId, i2: nat, id2: Hex, vk2: Hex, sig2: Hex,
                                          sid: SessionId, e: Engine)
    requires vk1 != ""
    requires IsSender(s, c1, i1) && FinalizeFault(s, Members(s)[i1], e, sid, id1, vk1, sig1).None?
    requires var s1 := Finalize(s, conns, c1, sid, id1, vk1, sig1, e).0;
      IsSender(s1, c2, i2) && FinalizeFault(s1, Members(s1)[i2], e, sid, id2, vk2, sig2).None?
    ensures vk2 == vk1
  {
    var s1 := Finalize(s, conns, c1, sid, id1, vk1, sig1, e).0;
    FinalizeAcceptedCarriesKey(s, conns, c1, sid, id1, vk1, sig1, e, i1);
    FinalizeAcceptedCarriesKey(s1, conns, c2, sid, id2, vk2, sig2, e, i2);
  }

  /** An empty first key does not lock the session: a later finalize with any key is accepted on that count. */
  lemma EmptyKeyDoesNotLock(s: DkgSession, p: Participant, e: Engine, sid: SessionId, idHex: Hex, vk: Hex, sig: Hex)
    requires s.finalGroupKey == Some("")
    ensures FinalizeFault(s, p, e, sid, idHex, vk, sig) != Some(GroupKeyMismatch)
  {
  }

  // ------------------------------------------------------------------------------------------
  // Listing
  // ------------------------------------------------------------------------------------------

  /** The pending list holds the summary of every session neither Finalized nor Failed, and nothing else. */
  lemma {:induction false} PendingListMembers(ss: seq<DkgSession>, x: DkgSummary)
    ensures x in PendingList(ss) <==> exists i :: 0 <= i < |ss| && IsPending(ss[i]) && x == Summary(ss[i])
  {
    if ss != [] {
      var front := ss[..|ss| - 1];
      PendingListMembers(front, x);
      assert forall i :: 0 <= i < |front| ==> front[i] == ss[i];
    }
  }
}
