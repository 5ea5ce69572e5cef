/**
 * The threshold-signing session machine inside one session record: join with the signer's
 * identifier and verifying share, Round 1 start with the roster of identified signers,
 * commitment collection and signing-package computation, share collection and signature
 * aggregation (ts-fserver/dist/server.js:431-458, 481-602, 696-823). Each function gives the
 * new session value and the messages pushed; `Server.FServer` runs the same steps.
 */
module Signing {
  import opened Wrappers
  import opened JsMaps
  import opened Types
  import opened Engine
  import opened Routing
  import opened Sessions

  /** AnnounceSignSession: the new record is Pending, with nobody joined and no round data. */
  function NewSession(id: SessionId, creator: ConnId, groupId: string, threshold: int, participants: seq<int>,
                      pubs: seq<RosterEntry>, message: string, messageHex: Hex, groupVk: Hex): (r: SignSession)
    ensures r.id == id && r.state == SignState.Pending
    ensures Size(r.joined) == 0 && Size(r.round1Commitments) == 0 && Size(r.round2Shares) == 0
    ensures r.signingPackage.None? && r.finalSignature.None?
    ensures r.participantsConfig == participants && r.participantsPubs == pubs
    ensures r.messageHex == messageHex && r.groupVkSec1Hex == groupVk
  {
    SignSession(id, creator, groupId, threshold, participants, pubs, message, messageHex, groupVk,
                Empty(), SignState.Pending, Empty(), Empty(), None, None)
  }

  /** The joined signers in join order. */
  function Members(s: SignSession): seq<Participant> {
    Values(s.joined)
  }

  /** The number of signers the session waits for at every barrier: the configured participant list's length. */
  function Expected(s: SignSession): nat {
    |s.participantsConfig|
  }

  // ------------------------------------------------------------------------------------------
  // Join and Round 1 start
  // ------------------------------------------------------------------------------------------

  /** `joined_participants.set(suid, {...})` for roster entry `i`, keeping the signer's identifier and share. */
  function Bind(s: SignSession, i: nat, conn: ConnId, signerId: Hex, share: Hex): SignSession
    requires i < |s.participantsPubs|
  {
    var (suid, pk) := s.participantsPubs[i];
    s.(joined := Set(s.joined, suid, Participant(suid, conn, pk, None, Some(signerId), Some(share))))
  }

  /** The `[uid, signer_id_hex, pubKeyProp]` lines of the signers that supplied an identifier, in join order. */
  function SignRoster(ps: seq<Participant>): (r: seq<RosterLine>)
    ensures |r| <= |ps|
  {
    if ps == [] then []
    else
      var p := ps[|ps| - 1];
      SignRoster(ps[..|ps| - 1]) + if Present(p.signerIdHex) then [(p.uid, p.signerIdHex.value, p.pubKeyProp)] else []
  }

  function SignReadyFor(s: SignSession, roster: seq<RosterLine>): ServerMsg {
    SignReadyRound1(s.id, s.groupId, s.threshold, Expected(s), roster, s.messageHex)
  }

  /** `startSignRound1`: Round1, and the same SignReadyRound1 to every live signer. */
  function Round1Start(conns: map<ConnId, Connection>, s: SignSession): (SignSession, Outbox) {
    var s' := s.(state := SignState.Round1);
    (s', Broadcast(conns, Members(s'), SignReadyFor(s', SignRoster(Members(s')))))
  }

  /** JoinSignSession on an existing session, for the caller on connection `conn`. */
  function Join(s: SignSession, caller: Connection, conns: map<ConnId, Connection>, conn: ConnId, sid: SessionId,
                signerId: Hex, share: Hex): (SignSession, Outbox) {
    if !LoggedIn(caller) then (s, [(conn, Error(NotLoggedIn))])
    else match FindRosterEntry(s.participantsPubs, caller.publicKey.value)
      case None => (s, [(conn, Error(KeyNotInSigningRoster))])
      case Some(i) =>
        var suid := s.participantsPubs[i].0;
        var s1 := Bind(s, i, conn, signerId, share);
        var notes := Broadcast(conns, Members(s1), Info(ParticipantJoined(suid, sid)));
        if Size(s1.joined) == Expected(s1) then
          var (s2, ready) := Round1Start(conns, s1);
          (s2, notes + ready)
        else (s1, notes)
  }

  // ------------------------------------------------------------------------------------------
  // Round 1: commitments and the signing package
  // ------------------------------------------------------------------------------------------

  /**
   * `finishSignRound1`: the state moves to Round2 first; then the signing package is computed
   * from the commitments, stored and broadcast, or the failure is broadcast.
   */
  function Round1Finish(conns: map<ConnId, Connection>, s: SignSession, e: Engine): (SignSession, Outbox) {
    var s1 := s.(state := SignState.Round2);
    match e.computeSigningPackage(MapToObj(s.round1Commitments, (c: Commitment) => c.commitment), s.messageHex)
    case Success(pkg) => (s1.(signingPackage := Some(pkg)), Broadcast(conns, Members(s1), SignSigningPackage(s.id, pkg)))
    case Failure(why) => (s1, Broadcast(conns, Members(s1), Error(SignRound1AggregationFailed(why))))
  }

  /** SignRound1Submit on an existing session. */
  function Round1Submit(s: SignSession, conns: map<ConnId, Connection>, conn: ConnId, sid: SessionId,
                        idHex: Hex, commitment: Hex, sig: Hex, e: Engine): (SignSession, Outbox) {
    var ps := Members(s);
    match FindBySocket(ps, conn)
    case None => (s, [(conn, Error(Unauthorized))])
    case Some(i) =>
      var p := ps[i];
      if !Truthy(p.pubKeyProp) then (s, [(conn, Error(Unauthorized))])
      else match CheckSig(e, p.pubKeyProp, e.authPayloadSignR1(sid, s.groupId, idHex, commitment), sig)
        case Threw => (s, [(conn, Error(VerificationError))])
        case Rejected => (s, [(conn, Error(InvalidSignature))])
        case Accepted =>
          var s1 := s.(round1Commitments := Set(s.round1Commitments, idHex, Commitment(commitment, sig)));
          if Size(s1.round1Commitments) == Expected(s1) then Round1Finish(conns, s1, e) else (s1, [])
  }

  // ------------------------------------------------------------------------------------------
  // Round 2: shares and aggregation
  // ------------------------------------------------------------------------------------------

  /**
   * The `vsharesObj` object built from the joined signers: one entry per signer identifier of
   * a signer that supplied both an identifier and a share; a later signer with the same
   * identifier overwrites the earlier value in place.
   */
  function VerifyingShares(ps: seq<Participant>): (r: JsMap<Hex, Hex>)
    ensures forall k :: k in r.items <==> exists i :: 0 <= i < |ps| && Present(ps[i].signerIdHex) && Present(ps[i].verifyingShare) && ps[i].signerIdHex.value == k
  {
    if ps == [] then Empty()
    else
      var front := ps[..|ps| - 1];
      var p := ps[|ps| - 1];
      var m := VerifyingShares(front);
      assert forall i :: 0 <= i < |front| ==> front[i] == ps[i];
      if Present(p.signerIdHex) && Present(p.verifyingShare) then Set(m, p.signerIdHex.value, p.verifyingShare.value) else m
  }

  /** `finishSignRound2`: aggregate and broadcast the signature, or broadcast why it failed. */
  function Round2Finish(conns: map<ConnId, Connection>, s: SignSession, e: Engine): (SignSession, Outbox) {
    var ps := Members(s);
    if !Present(s.signingPackage) then (s, Broadcast(conns, ps, Error(SignatureAggregationFailed("Missing signing package"))))
    else
      var shares := MapToObj(s.round2Shares, (x: Share) => x.share);
      match e.aggregateSignatures(s.signingPackage.value, shares, VerifyingShares(ps), s.groupVkSec1Hex)
      case Failure(why) => (s, Broadcast(conns, ps, Error(SignatureAggregationFailed(why))))
      case Success(a) =>
        var s1 := s.(finalSignature := Some(a.signatureBincodeHex), state := SignState.Complete);
        (s1, Broadcast(conns, Members(s1), SignatureReady(s.id, a.signatureBincodeHex, s.messageHex, a.rx, a.ry, a.s, a.px, a.py)))
  }

  /** SignRound2Submit on an existing session. */
  function Round2Submit(s: SignSession, conns: map<ConnId, Connection>, conn: ConnId, sid: SessionId,
                        idHex: Hex, share: Hex, sig: Hex, e: Engine): (SignSession, Outbox) {
    var ps := Members(s);
    match FindBySocket(ps, conn)
    case None => (s, [(conn, Error(Unauthorized))])
    case Some(i) =>
      var p := ps[i];
      if !Truthy(p.pubKeyProp) then (s, [(conn, Error(Unauthorized))])
      else match CheckSig(e, p.pubKeyProp, e.authPayloadSignR2(sid, s.groupId, idHex, share, s.messageHex), sig)
        case Threw => (s, [(conn, Error(VerificationError))])
        case Rejected => (s, [(conn, Error(InvalidSignature))])
        case Accepted =>
          var s1 := s.(round2Shares := Set(s.round2Shares, idHex, Share(share, sig)));
          if Size(s1.round2Shares) == Expected(s1) then Round2Finish(conns, s1, e) else (s1, [])
  }

  // ------------------------------------------------------------------------------------------
  // Listing
  // ------------------------------------------------------------------------------------------

  predicate IsPending(s: SignSession) {
    s.state != SignState.Complete && s.state != SignState.Failed
  }

  /** The PendingSigningSessions entry: the record's public fields and `[uid, key]` per joined signer. */
  function Summary(s: SignSession): (r: SignSummary)
    ensures r.session == s.id && r.status == s.state && |r.joined| == Size(s.joined)
  {
    var ps := Members(s);
    SignSummary(s.id, s.groupId, s.threshold, s.participantsConfig, s.participantsPubs, s.message, s.messageHex,
                s.state, seq(|ps|, i requires 0 <= i < |ps| => (ps[i].uid, KeyOf(ps[i].pubKeyProp))))
  }

  /** `filter(not Complete and not Failed).map(summary)` over the stored sessions, in creation order. */
  function PendingList(ss: seq<SignSession>): (r: seq<SignSummary>)
    ensures |r| <= |ss|
  {
    if ss == [] then []
    else PendingList(ss[..|ss| - 1]) + if IsPending(ss[|ss| - 1]) then [Summary(ss[|ss| - 1])] else []
  }
}
