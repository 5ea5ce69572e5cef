/**
 * What the signing handlers promise, stated over the functions of module Signing.
 */
module SigningProperties {
  import opened Wrappers
  import opened JsMaps
  import opened Types
  import opened Engine
  import opened Routing
  import opened Sessions
  import opened Signing

  /** `conn` is bound to the signer at index `i` in join order, and its key is usable. */
  predicate IsSender(s: SignSession, conn: ConnId, i: nat) {
    FindBySocket(Members(s), conn) == Some(i) && Truthy(Members(s)[i].pubKeyProp)
  }

  // ------------------------------------------------------------------------------------------
  // Join and Round 1 start
  // ------------------------------------------------------------------------------------------

  /** A join is refused, with the session untouched, when the caller is not logged in or is not on the roster. */
  lemma JoinRefusals(s: SignSession, caller: Connection, conns: map<ConnId, Connection>, conn: ConnId, sid: SessionId, signerId: Hex, share: Hex)
    ensures !LoggedIn(caller) ==> Join(s, caller, conns, conn, sid, signerId, share) == (s, [(conn, Error(NotLoggedIn))])
    ensures LoggedIn(caller) && FindRosterEntry(s.participantsPubs, caller.publicKey.value).None? ==>
      Join(s, caller, conns, conn, sid, signerId, share) == (s, [(conn, Error(KeyNotInSigningRoster))])
  {
  }

  /** A successful join keeps the signer's identifier and verifying share for round-2 aggregation. */
  lemma {:induction false} JoinKeepsSignerData(s: SignSession, caller: Connection, conns: map<ConnId, Connection>, conn: ConnId, sid: SessionId,
                                              signerId: Hex, share: Hex, i: nat)
    requires LoggedIn(caller) && FindRosterEntry(s.participantsPubs, caller.publicKey.value) == Some(i)
    ensures var r := Join(s, caller, conns, conn, sid, signerId, share).0;
      var suid := s.participantsPubs[i].0;
      && r.joined.items.Keys == s.joined.items.Keys + {suid}
      && r.joined.items[suid] == Participant(suid, conn, s.participantsPubs[i].1, None, Some(signerId), Some(share))
  {
    var s1 := Bind(s, i, conn, signerId, share);
    if Size(s1.joined) == Expected(s1) {
      assert Join(s, caller, conns, conn, sid, signerId, share).0.joined == s1.joined;
    }
  }

  /** Joining keeps every joined slot inside the roster; no signing step changes the session's id or roster. */
  lemma {:induction false} JoinStaysWithinRoster(s: SignSession, caller: Connection, conns: map<ConnId, Connection>, conn: ConnId, sid: SessionId,
                                                signerId: Hex, share: Hex)
    requires JoinedFromRoster(s.joined, s.participantsPubs)
    ensures var r := Join(s, caller, conns, conn, sid, signerId, share).0;
      && r.id == s.id && r.participantsPubs == s.participantsPubs
      && JoinedFromRoster(r.joined, s.participantsPubs)
      && Size(r.joined) <= |RosterUids(s.participantsPubs)|
  {
    var r := Join(s, caller, conns, conn, sid, signerId, share).0;
    if LoggedIn(caller) && FindRosterEntry(s.participantsPubs, caller.publicKey.value).Some? {
      var i := FindRosterEntry(s.participantsPubs, caller.publicKey.value).value;
      var s1 := Bind(s, i, conn, signerId, share);
      assert s.participantsPubs[i].0 in RosterUids(s.participantsPubs);
      assert JoinedFromRoster(s1.joined, s.participantsPubs);
      assert r.joined == s1.joined;
    }
    JoinedWithinRoster(r.joined, s.participantsPubs);
  }

  /** Finishing either round leaves the joined signers, the roster and the id alone. */
  lemma FinishesKeepParticipants(conns: map<ConnId, Connection>, s: SignSession, e: Engine)
    ensures var r := Signing.Round1Finish(conns, s, e).0;
      r.id == s.id && r.participantsPubs == s.participantsPubs && r.joined == s.joined
    ensures var r := Signing.Round2Finish(conns, s, e).0;
      r.id == s.id && r.participantsPubs == s.participantsPubs && r.joined == s.joined
  {
  }

  /** The commitment submission leaves the joined signers, the roster and the id alone. */
  lemma {:induction false} Round1KeepsParticipants(s: SignSession, conns: map<ConnId, Connection>, conn: ConnId, sid: SessionId,
                                                  idHex: Hex, commitment: Hex, sig: Hex, e: Engine)
    ensures var r := Signing.Round1Submit(s, conns, conn, sid, idHex, commitment, sig, e).0;
      r.id == s.id && r.participantsPubs == s.participantsPubs && r.joined == s.joined
  {
    var ps := Members(s);
    match FindBySocket(ps, conn)
    case None =>
    case Some(i) =>
      var p := ps[i];
      if Truthy(p.pubKeyProp) && CheckSig(e, p.pubKeyProp, e.authPayloadSignR1(sid, s.groupId, idHex, commitment), sig) == Accepted {
        var s1 := s.(round1Commitments := Set(s.round1Commitments, idHex, Commitment(commitment, sig)));
        if Size(s1.round1Commitments) == Expected(s1) {
          FinishesKeepParticipants(conns, s1, e);
        }
      }
  }

  /** The share submission leaves the joined signers, the roster and the id alone. */
  lemma {:induction false} Round2KeepsParticipants(s: SignSession, conns: map<ConnId, Connection>, conn: ConnId, sid: SessionId,
                                                  idHex: Hex, share: Hex, sig: Hex, e: Engine)
    ensures var r := Signing.Round2Submit(s, conns, conn, sid, idHex, share, sig, e).0;
      r.id == s.id && r.participantsPubs == s.participantsPubs && r.joined == s.joined
  {
    var ps := Members(s);
    match FindBySocket(ps, conn)
    case None =>
    case Some(i) =>
      var p := ps[i];
      if Truthy(p.pubKeyProp) && CheckSig(e, p.pubKeyProp, e.authPayloadSignR2(sid, s.groupId, idHex, share, s.messageHex), sig) == Accepted {
        var s1 := s.(round2Shares := Set(s.round2Shares, idHex, Share(share, sig)));
        if Size(s1.round2Shares) == Expected(s1) {
          FinishesKeepParticipants(conns, s1, e);
        }
      }
  }

  /**
   * A join that brings the joined count to the configured list's length starts Round 1: every
   * live signer gets the same SignReadyRound1, whose participant count is that length and
   * whose digest is the session's message digest. A join that leaves the count elsewhere
   * keeps the state and sends only the join broadcast.
   */
  lemma {:induction false} JoinFiresRound1(s: SignSession, caller: Connection, conns: map<ConnId, Connection>, conn: ConnId, sid: SessionId,
                                          signerId: Hex, share: Hex, i: nat)
    requires LoggedIn(caller) && FindRosterEntry(s.participantsPubs, caller.publicKey.value) == Some(i)
    ensures var (r, out) := Join(s, caller, conns, conn, sid, signerId, share);
      var s1 := Bind(s, i, conn, signerId, share);
      var note := Info(ParticipantJoined(s.participantsPubs[i].0, sid));
      var ready := SignReadyRound1(s.id, s.groupId, s.threshold, |s.participantsConfig|, SignRoster(Members(r)), s.messageHex);
      && (Size(s1.joined) == |s.participantsConfig| ==>
            && r.state == SignState.Round1
            && (forall k :: 0 <= k < |out| ==> out[k].1 == note || out[k].1 == ready)
            && (forall j :: 0 <= j < Size(r.joined) && Members(r)[j].socketId in conns && AloneOn(Members(r), j) ==>
                  InboxOf(out, Members(r)[j].socketId) == [note, ready]))
      && (Size(s1.joined) != |s.participantsConfig| ==>
            r == s1 && r.state == s.state && out == Broadcast(conns, Members(s1), note))
  {
    var s1 := Bind(s, i, conn, signerId, share);
    if Size(s1.joined) == |s.participantsConfig| {
      var r := Join(s, caller, conns, conn, sid, signerId, share).0;
      assert r == s1.(state := SignState.Round1);
      assert Members(r) == Members(s1);
      TwoBroadcasts(conns, Members(r), Info(ParticipantJoined(s.participantsPubs[i].0, sid)), SignReadyFor(r, SignRoster(Members(r))));
    }
  }

  /** Two broadcasts in a row: only those two messages, and a signer alone on its connection gets both, in order. */
  lemma {:induction false} TwoBroadcasts(conns: map<ConnId, Connection>, ps: seq<Participant>, m1: ServerMsg, m2: ServerMsg)
    ensures var out := Broadcast(conns, ps, m1) + Broadcast(conns, ps, m2);
      && (forall k :: 0 <= k < |out| ==> out[k].1 == m1 || out[k].1 == m2)
      && (forall j :: 0 <= j < |ps| && ps[j].socketId in conns && AloneOn(ps, j) ==> InboxOf(out, ps[j].socketId) == [m1, m2])
  {
    var a := Broadcast(conns, ps, m1);
    var b := Broadcast(conns, ps, m2);
    var out := a + b;
    forall k | 0 <= k < |out| ensures out[k].1 == m1 || out[k].1 == m2 {
      if k < |a| {
        assert a[k] in a;
        FanoutDelivers(conns, ps, (p: Participant) => [m1], a[k].0, a[k].1);
      } else {
        assert b[k - |a|] in b;
        FanoutDelivers(conns, ps, (p: Participant) => [m2], b[k - |a|].0, b[k - |a|].1);
      }
    }
    forall j | 0 <= j < |ps| && ps[j].socketId in conns && AloneOn(ps, j)
      ensures InboxOf(out, ps[j].socketId) == [m1, m2]
    {
      FanoutToSoleHolder(conns, ps, (p: Participant) => [m1], j);
      FanoutToSoleHolder(conns, ps, (p: Participant) => [m2], j);
      InboxOfAppend(a, b, ps[j].socketId);
    }
  }

  /** The signing roster holds exactly the signers that supplied an identifier, each with that identifier. */
  lemma {:induction false} SignRosterMembers(ps: seq<Participant>, line: RosterLine)
    ensures line in SignRoster(ps) <==>
      exists i :: 0 <= i < |ps| && Present(ps[i].signerIdHex) && line == (ps[i].uid, ps[i].signerIdHex.value, ps[i].pubKeyProp)
  {
    if ps != [] {
      var front := ps[..|ps| - 1];
      SignRosterMembers(front, line);
      assert forall i :: 0 <= i < |front| ==> front[i] == ps[i];
    }
  }

  /** A signer without an identifier is left off the roster but still receives SignReadyRound1. */
  lemma {:induction false} UnidentifiedSignerStillNotified(conns: map<ConnId, Connection>, s: SignSession, j: nat)
    requires j < Size(s.joined) && Members(s)[j].socketId in conns && AloneOn(Members(s), j)
    ensures var (r, out) := Round1Start(conns, s);
      InboxOf(out, Members(s)[j].socketId) == [SignReadyFor(r, SignRoster(Members(s)))]
  {
    var (r, out) := Round1Start(conns, s);
    assert Members(r) == Members(s);
    FanoutToSoleHolder(conns, Members(s), (p: Participant) => [SignReadyFor(r, SignRoster(Members(s)))], j);
  }

  /**
   * The ready guard is an equality on the joined count, so re-joining a slot of a completed
   * session starts Round 1 again and the session is listed as pending once more.
   */
  lemma RejoinReopensCompletedSession(s: SignSession, caller: Connection, conns: map<ConnId, Connection>, conn: ConnId, sid: SessionId,
                                      signerId: Hex, share: Hex, i: nat)
    requires s.state == SignState.Complete
    requires LoggedIn(caller) && FindRosterEntry(s.participantsPubs, caller.publicKey.value) == Some(i)
    requires s.participantsPubs[i].0 in s.joined.items && Size(s.joined) == |s.participantsConfig|
    ensures var r := Join(s, caller, conns, conn, sid, signerId, share).0;
      r.state == SignState.Round1 && IsPending(r) && r.finalSignature == s.finalSignature
  {
    JoinFiresRound1(s, caller, conns, conn, sid, signerId, share, i);
  }

  // ------------------------------------------------------------------------------------------
  // Round 1
  // ------------------------------------------------------------------------------------------

  /** A commitment whose verification fails or throws changes nothing and answers the sender only. */
  lemma Round1Refused(s: SignSession, conns: map<ConnId, Connection>, conn: ConnId, sid: SessionId,
                      idHex: Hex, commitment: Hex, sig: Hex, e: Engine, i: nat)
    requires IsSender(s, conn, i)
    requires CheckSig(e, Members(s)[i].pubKeyProp, e.authPayloadSignR1(sid, s.groupId, idHex, commitment), sig) != Accepted
    ensures var (r, out) := Signing.Round1Submit(s, conns, conn, sid, idHex, commitment, sig, e);
      r == s && |out| == 1 && out[0].0 == conn &&
      out[0].1 == Error(if CheckSig(e, Members(s)[i].pubKeyProp, e.authPayloadSignR1(sid, s.groupId, idHex, commitment), sig) == Threw
                        then VerificationError else InvalidSignature)
  {
  }

  /** An accepted commitment is stored under its identifier; a resubmission replaces it. */
  lemma {:induction false} Round1KeyedById(s: SignSession, conns: map<ConnId, Connection>, conn: ConnId, sid: SessionId,
                                          idHex: Hex, commitment: Hex, sig: Hex, e: Engine, i: nat)
    requires IsSender(s, conn, i)
    requires CheckSig(e, Members(s)[i].pubKeyProp, e.authPayloadSignR1(sid, s.groupId, idHex, commitment), sig) == Accepted
    ensures var r := Signing.Round1Submit(s, conns, conn, sid, idHex, commitment, sig, e).0;
      && r.round1Commitments.items == s.round1Commitments.items[idHex := Commitment(commitment, sig)]
      && Size(r.round1Commitments) == if idHex in s.round1Commitments.items then Size(s.round1Commitments) else Size(s.round1Commitments) + 1
  {
    var s1 := s.(round1Commitments := Set(s.round1Commitments, idHex, Commitment(commitment, sig)));
    if Size(s1.round1Commitments) == Expected(s1) {
      assert Signing.Round1Submit(s, conns, conn, sid, idHex, commitment, sig, e) == Signing.Round1Finish(conns, s1, e);
    }
  }

  /**
   * The commitment barrier: an accepted commitment is stored, and when it brings the number
   * of stored commitments to the length of the configured participant list the submission is
   * exactly the Round 1 finish on the updated session; below that length the updated session
   * is kept and nothing is sent.
   */
  lemma {:induction false} Round1Completes(s: SignSession, conns: map<ConnId, Connection>, conn: ConnId, sid: SessionId,
                                          idHex: Hex, commitment: Hex, sig: Hex, e: Engine, i: nat)
    requires IsSender(s, conn, i)
    requires CheckSig(e, Members(s)[i].pubKeyProp, e.authPayloadSignR1(sid, s.groupId, idHex, commitment), sig) == Accepted
    ensures var s1 := s.(round1Commitments := Set(s.round1Commitments, idHex, Commitment(commitment, sig)));
      var r := Signing.Round1Submit(s, conns, conn, sid, idHex, commitment, sig, e).0;
      var out := Signing.Round1Submit(s, conns, conn, sid, idHex, commitment, sig, e).1;
      && (Size(s1.round1Commitments) == |s.participantsConfig| ==>
            r == Signing.Round1Finish(conns, s1, e).0 && out == Signing.Round1Finish(conns, s1, e).1 &&
            r.state == SignState.Round2)
      && (Size(s1.round1Commitments) != |s.participantsConfig| ==> r == s1 && out == [])
  {
    var s1 := s.(round1Commitments := Set(s.round1Commitments, idHex, Commitment(commitment, sig)));
    assert Expected(s1) == |s.participantsConfig|;
  }

  /**
   * Finishing Round 1 always moves the session to Round2. A computed package is stored and
   * is the only message a live signer gets; a failure leaves no package and every live
   * signer gets the aggregation error.
   */
  lemma {:induction false} Round1FinishOutcome(conns: map<ConnId, Connection>, s: SignSession, e: Engine, j: nat)
    requires j < Size(s.joined) && Members(s)[j].socketId in conns && AloneOn(Members(s), j)
    ensures var (r, out) := Signing.Round1Finish(conns, s, e);
      var result := e.computeSigningPackage(MapToObj(s.round1Commitments, (c: Commitment) => c.commitment), s.messageHex);
      && r.state == SignState.Round2
      && r.round1Commitments == s.round1Commitments
      && (result.Success? ==>
            r.signingPackage == Some(result.value) &&
            InboxOf(out, Members(s)[j].socketId) == [SignSigningPackage(s.id, result.value)])
      && (result.Failure? ==>
            r.signingPackage == s.signingPackage &&
            InboxOf(out, Members(s)[j].socketId) == [Error(SignRound1AggregationFailed(result.error))])
  {
    var (r, out) := Signing.Round1Finish(conns, s, e);
    var result := e.computeSigningPackage(MapToObj(s.round1Commitments, (c: Commitment) => c.commitment), s.messageHex);
    var s1 := s.(state := SignState.Round2);
    assert Members(s1) == Members(s);
    if result.Success? {
      FanoutToSoleHolder(conns, Members(s), (p: Participant) => [SignSigningPackage(s.id, result.value)], j);
    } else {
      FanoutToSoleHolder(conns, Members(s), (p: Participant) => [Error(SignRound1AggregationFailed(result.error))], j);
    }
  }

  // ------------------------------------------------------------------------------------------
  // Round 2
  // ------------------------------------------------------------------------------------------

  /** The verifying share kept for an identifier is the one of the last joined signer carrying that identifier. */
  lemma {:induction false} VerifyingShareOfLast(ps: seq<Participant>, i: nat)
    requires i < |ps| && Present(ps[i].signerIdHex) && Present(ps[i].verifyingShare)
    requires forall j :: i < j < |ps| && Present(ps[j].signerIdHex) && Present(ps[j].verifyingShare) ==> ps[j].signerIdHex != ps[i].signerIdHex
    ensures VerifyingShares(ps).items[ps[i].signerIdHex.value] == ps[i].verifyingShare.value
  {
    var front := ps[..|ps| - 1];
    var last := ps[|ps| - 1];
    var k := ps[i].signerIdHex.value;
    var before := VerifyingShares(front);
    assert VerifyingShares(ps) == if Present(last.signerIdHex) && Present(last.verifyingShare)
      then Set(before, last.signerIdHex.value, last.verifyingShare.value) else before;
    if i < |ps| - 1 {
      assert front[i] == ps[i];
      forall j | i < j < |front| && Present(front[j].signerIdHex) && Present(front[j].verifyingShare)
        ensures front[j].signerIdHex != front[i].signerIdHex
      {
        assert front[j] == ps[j];
      }
      VerifyingShareOfLast(front, i);
      assert before.items[k] == ps[i].verifyingShare.value;
    }
  }

  /** A share whose verification fails or throws changes nothing and answers the sender only. */
  lemma Round2Refused(s: SignSession, conns: map<ConnId, Connection>, conn: ConnId, sid: SessionId,
                      idHex: Hex, share: Hex, sig: Hex, e: Engine, i: nat)
    requires IsSender(s, conn, i)
    requires CheckSig(e, Members(s)[i].pubKeyProp, e.authPayloadSignR2(sid, s.groupId, idHex, share, s.messageHex), sig) != Accepted
    ensures var (r, out) := Signing.Round2Submit(s, conns, conn, sid, idHex, share, sig, e);
      r == s && |out| == 1 && out[0].0 == conn && out[0].1.Error?
  {
  }

  /** An accepted share is stored under its identifier; a resubmission replaces it. */
  lemma {:induction false} Round2KeyedById(s: SignSession, conns: map<ConnId, Connection>, conn: ConnId, sid: SessionId,
                                          idHex: Hex, share: Hex, sig: Hex, e: Engine, i: nat)
    requires IsSender(s, conn, i)
    requires CheckSig(e, Members(s)[i].pubKeyProp, e.authPayloadSignR2(sid, s.groupId, idHex, share, s.messageHex), sig) == Accepted
    ensures var r := Signing.Round2Submit(s, conns, conn, sid, idHex, share, sig, e).0;
      r.round2Shares.items == s.round2Shares.items[idHex := Share(share, sig)]
  {
    var s1 := s.(round2Shares := Set(s.round2Shares, idHex, Share(share, sig)));
    if Size(s1.round2Shares) == Expected(s1) {
      assert Signing.Round2Submit(s, conns, conn, sid, idHex, share, sig, e) == Signing.Round2Finish(conns, s1, e);
    }
  }

  /**
   * Finishing Round 2: without a signing package, or when aggregation fails, the session is
   * unchanged (it stays in Round2) and every live signer gets the error; otherwise the
   * session is Complete with the aggregated signature, and every live signer gets it with the
   * message digest and the decomposed components.
   */
  lemma {:induction false} Round2FinishOutcome(conns: map<ConnId, Connection>, s: SignSession, e: Engine, j: nat)
    requires j < Size(s.joined) && Members(s)[j].socketId in conns && AloneOn(Members(s), j)
    ensures var (r, out) := Signing.Round2Finish(conns, s, e);
      var inbox := InboxOf(out, Members(s)[j].socketId);
      && (!Present(s.signingPackage) ==> r == s && inbox == [Error(SignatureAggregationFailed("Missing signing package"))])
      && (Present(s.signingPackage) ==>
            var result := e.aggregateSignatures(s.signingPackage.value, MapToObj(s.round2Shares, (x: Share) => x.share),
                                                VerifyingShares(Members(s)), s.groupVkSec1Hex);
            && (result.Failure? ==> r == s && inbox == [Error(SignatureAggregationFailed(result.error))])
            && (result.Success? ==>
                  var a := result.value;
                  && r == s.(finalSignature := Some(a.signatureBincodeHex), state := SignState.Complete)
                  && inbox == [SignatureReady(s.id, a.signatureBincodeHex, s.messageHex, a.rx, a.ry, a.s, a.px, a.py)]))
  {
    var ps := Members(s);
    if !Present(s.signingPackage) {
      FanoutToSoleHolder(conns, ps, (p: Participant) => [Error(SignatureAggregationFailed("Missing signing package"))], j);
    } else {
      var result := e.aggregateSignatures(s.signingPackage.value, MapToObj(s.round2Shares, (x: Share) => x.share),
                                          VerifyingShares(ps), s.groupVkSec1Hex);
      if result.Failure? {
        FanoutToSoleHolder(conns, ps, (p: Participant) => [Error(SignatureAggregationFailed(result.error))], j);
      } else {
        var a := result.value;
        var r := s.(finalSignature := Some(a.signatureBincodeHex), state := SignState.Complete);
        assert Members(r) == ps;
        FanoutToSoleHolder(conns, ps, (p: Participant) => [SignatureReady(s.id, a.signatureBincodeHex, s.messageHex, a.rx, a.ry, a.s, a.px, a.py)], j);
      }
    }
  }

  /**
   * The share barrier: an accepted share is stored, and when it brings the number of stored
   * shares to the length of the configured participant list the submission is exactly the
   * Round 2 finish (aggregation) on the updated session; below that length the updated
   * session is kept and nothing is sent.
   */
  lemma {:induction false} Round2Completes(s: SignSession, conns: map<ConnId, Connection>, conn: ConnId, sid: SessionId,
                                          idHex: Hex, share: Hex, sig: Hex, e: Engine, i: nat)
    requires IsSender(s, conn, i)
    requires CheckSig(e, Members(s)[i].pubKeyProp, e.authPayloadSignR2(sid, s.groupId, idHex, share, s.messageHex), sig) == Accepted
    ensures var s1 := s.(round2Shares := Set(s.round2Shares, idHex, Share(share, sig)));
      var r := Signing.Round2Submit(s, conns, conn, sid, idHex, share, sig, e).0;
      var out := Signing.Round2Submit(s, conns, conn, sid, idHex, share, sig, e).1;
      && (Size(s1.round2Shares) == |s.participantsConfig| ==>
            r == Signing.Round2Finish(conns, s1, e).0 && out == Signing.Round2Finish(conns, s1, e).1)
      && (Size(s1.round2Shares) != |s.participantsConfig| ==> r == s1 && out == [])
  {
    var s1 := s.(round2Shares := Set(s.round2Shares, idHex, Share(share, sig)));
    assert Expected(s1) == |s.participantsConfig|;
  }

  /** Round 2 submission sets the final signature only together with the Complete state. */
  lemma {:induction false} SignatureOnlyWhenComplete(s: SignSession, conns: map<ConnId, Connection>, conn: ConnId, sid: SessionId,
                                                    idHex: Hex, share: Hex, sig: Hex, e: Engine)
    ensures var r := Signing.Round2Submit(s, conns, conn, sid, idHex, share, sig, e).0;
      r.finalSignature != s.finalSignature ==> r.state == SignState.Complete
  {
    var ps := Members(s);
    var r := Signing.Round2Submit(s, conns, conn, sid, idHex, share, sig, e).0;
    match FindBySocket(ps, conn)
    case None =>
    case Some(i) =>
      var p := ps[i];
      if Truthy(p.pubKeyProp) && CheckSig(e, p.pubKeyProp, e.authPayloadSignR2(sid, s.groupId, idHex, share, s.messageHex), sig) == Accepted {
        var s1 := s.(round2Shares := Set(s.round2Shares, idHex, Share(share, sig)));
        if Size(s1.round2Shares) == Expected(s1) {
          assert r == Signing.Round2Finish(conns, s1, e).0;
        }
      }
  }

  // ------------------------------------------------------------------------------------------
  // Listing
  // ------------------------------------------------------------------------------------------

  /** The pending list holds the summary of every session neither Complete nor Failed, and nothing else. */
  lemma {:induction false} PendingListMembers(ss: seq<SignSession>, x: SignSummary)
    ensures x in PendingList(ss) <==> exists i :: 0 <= i < |ss| && IsPending(ss[i]) && x == Summary(ss[i])
  {
    if ss != [] {
      var front := ss[..|ss| - 1];
      PendingListMembers(front, x);
      assert forall i :: 0 <= i < |front| ==> front[i] == ss[i];
    }
  }
}
