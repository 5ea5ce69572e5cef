/**
 * The DKG session machine as it runs inside one session record: join and the roster check,
 * Round 1 start (deterministic identifiers), Round 1 submit and finish, Round 2 submit with
 * its count-based barrier and per-recipient delivery, and Finalize
 * (ts-fserver/dist/server.js:162-427, 608-694). Each function gives the new session value and
 * the messages pushed; `Server.FServer` runs the same steps on its stored sessions.
 */
module Dkg {
  import opened Wrappers
  import opened JsMaps
  import opened Types
  import opened Engine
  import opened Routing
  import opened Sessions
  import HexIds

  /** AnnounceDKGSession: the new record is Pending, with nobody joined and no round data. */
  function NewSession(id: SessionId, creator: ConnId, minSigners: int, maxSigners: int, groupId: string,
                      participants: seq<int>, pubs: seq<RosterEntry>): (r: DkgSession)
    ensures r.id == id && r.state == DkgState.Pending
    ensures Size(r.joined) == 0 && Size(r.round1Packages) == 0 && Size(r.round2Packages) == 0
    ensures r.finalGroupKey.None? && r.finalizedUids.None?
    ensures r.participantsPubs == pubs && r.maxSigners == maxSigners
  {
    DkgSession(id, creator, minSigners, maxSigners, groupId, participants, pubs,
               Empty(), DkgState.Pending, Empty(), Empty(), None, None)
  }

  /** The joined participants in join order. */
  function Members(s: DkgSession): seq<Participant> {
    Values(s.joined)
  }

  // ------------------------------------------------------------------------------------------
  // Join and Round 1 start
  // ------------------------------------------------------------------------------------------

  /** `joined_participants.set(suid, { uid: suid, socketId, pubKeyProp })` for roster entry `i`. */
  function Bind(s: DkgSession, i: nat, conn: ConnId): DkgSession
    requires i < |s.participantsPubs|
  {
    var (suid, pk) := s.participantsPubs[i];
    s.(joined := Set(s.joined, suid, Participant(suid, conn, pk, None, None, None)))
  }

  function WithRoundOneId(p: Participant): Participant {
    p.(frostIdHex := Some(HexIds.UidToIdHex(p.uid)))
  }

  /** `startDKGRound1`'s state change: Round1, and each participant's identifier from its uid. */
  function StartRound1(s: DkgSession): (r: DkgSession)
    ensures r.state == DkgState.Round1
    ensures r.joined.order == s.joined.order
    ensures forall k :: k in s.joined.items ==> r.joined.items[k] == WithRoundOneId(s.joined.items[k])
  {
    s.(state := DkgState.Round1, joined := MapToObj(s.joined, WithRoundOneId))
  }

  function IdOf(p: Participant): Hex {
    p.frostIdHex.GetOr("")
  }

  /** The `[uid, id_hex, pubKeyProp]` roster every participant receives with ReadyRound1. */
  function Roster(ps: seq<Participant>): (r: seq<RosterLine>)
    ensures |r| == |ps|
    ensures forall i :: 0 <= i < |ps| ==> r[i] == (ps[i].uid, IdOf(ps[i]), ps[i].pubKeyProp)
  {
    seq(|ps|, i requires 0 <= i < |ps| => (ps[i].uid, IdOf(ps[i]), ps[i].pubKeyProp))
  }

  function ReadyRound1For(s: DkgSession, roster: seq<RosterLine>): Participant -> seq<ServerMsg> {
    (p: Participant) => [ReadyRound1(s.id, s.groupId, s.minSigners, s.maxSigners, roster, IdOf(p))]
  }

  /** Round 1 start: the new session and the personalised ReadyRound1 messages. */
  function Round1Start(conns: map<ConnId, Connection>, s: DkgSession): (DkgSession, Outbox) {
    var s' := StartRound1(s);
    (s', Fanout(conns, Members(s'), ReadyRound1For(s', Roster(Members(s')))))
  }

  /** JoinDKGSession on an existing session, for the caller on connection `conn`. */
  function Join(s: DkgSession, caller: Connection, conns: map<ConnId, Connection>, conn: ConnId, sid: SessionId): (DkgSession, Outbox) {
    if !LoggedIn(caller) then (s, [(conn, Error(NotLoggedIn))])
    else match FindRosterEntry(s.participantsPubs, caller.publicKey.value)
      case None => (s, [(conn, Error(KeyNotAuthorized))])
      case Some(i) =>
        var suid := s.participantsPubs[i].0;
        var s1 := Bind(s, i, conn);
        var notes := [(conn, Info(JoinedAs(sid, suid)))] + Broadcast(conns, Members(s1), Info(ParticipantJoined(suid, sid)));
        if Size(s1.joined) == s1.maxSigners then
          var (s2, ready) := Round1Start(conns, s1);
          (s2, notes + ready)
        else (s1, notes)
  }

  // ------------------------------------------------------------------------------------------
  // Round 1
  // ------------------------------------------------------------------------------------------

  /** `[id_hex, pkg, sig]` for each stored package, in submission order. */
  function Round1List(m: JsMap<Hex, Round1Package>): (r: seq<(Hex, Hex, Hex)>)
    ensures |r| == Size(m)
    ensures forall i :: 0 <= i < |r| ==> r[i] == (m.order[i], m.items[m.order[i]].pkg, m.items[m.order[i]].sig)
  {
    seq(|m.order|, i requires 0 <= i < |m.order| => (m.order[i], m.items[m.order[i]].pkg, m.items[m.order[i]].sig))
  }

  function Round1AllFor(id: SessionId, pkgs: seq<(Hex, Hex, Hex)>): Participant -> seq<ServerMsg> {
    (p: Participant) => [Round1All(id, pkgs), ReadyRound2(id, [])]
  }

  /** `finishDKGRound1`: Round2, and Round1All followed by ReadyRound2 to every live participant. */
  function Round1Finish(conns: map<ConnId, Connection>, s: DkgSession): (DkgSession, Outbox) {
    var s' := s.(state := DkgState.Round2);
    (s', Fanout(conns, Members(s'), Round1AllFor(s.id, Round1List(s.round1Packages))))
  }

  /** Round1Submit on an existing session. The sender's identifier is recorded before the check. */
  function Round1Submit(s: DkgSession, conns: map<ConnId, Connection>, conn: ConnId, sid: SessionId,
                        idHex: Hex, pkgHex: Hex, sigHex: Hex, e: Engine): (DkgSession, Outbox) {
    var ps := Members(s);
    match FindBySocket(ps, conn)
    case None => (s, [(conn, Error(NotParticipantOrNotLoggedIn))])
    case Some(i) =>
      var p := ps[i];
      if !Truthy(p.pubKeyProp) then (s, [(conn, Error(NotParticipantOrNotLoggedIn))])
      else
        var s1 := s.(joined := Set(s.joined, s.joined.order[i], p.(frostIdHex := Some(idHex))));
        match CheckSig(e, p.pubKeyProp, e.authPayloadRound1(sid, idHex, pkgHex), sigHex)
        case Threw => (s1, [(conn, Error(VerificationFailed))])
        case Rejected => (s1, [(conn, Error(InvalidSignature))])
        case Accepted =>
          var s2 := s1.(round1Packages := Set(s1.round1Packages, idHex, Round1Package(pkgHex, sigHex)));
          if Size(s2.round1Packages) == s2.maxSigners then Round1Finish(conns, s2) else (s2, [])
  }

  // ------------------------------------------------------------------------------------------
  // Round 2
  // ------------------------------------------------------------------------------------------

  type Inboxes = JsMap<Hex, seq<Round2Package>>
  type Pair = (Hex, EncryptedPayload, Hex)

  /** The three payload fields the round-2 signature covers; a raw string stands for all of it. */
  function AuthFields(x: EncryptedPayload): (Hex, Hex, Hex) {
    match x
    case RawHex(h) => (h, "", "")
    case Sealed(eph, nonce, ct) => (KeyOf(eph), nonce, ct)
  }

  /** Create the recipient's list if missing, then push onto it. */
  function Push(m: Inboxes, recipient: Hex, x: Round2Package): (r: Inboxes)
    ensures r.items.Keys == m.items.Keys + {recipient}
    ensures r.items[recipient] == Get(m, recipient).GetOr([]) + [x]
    ensures forall k :: k in m.items && k != recipient ==> r.items[k] == m.items[k]
  {
    Set(m, recipient, Get(m, recipient).GetOr([]) + [x])
  }

  function PairCheck(e: Engine, sid: SessionId, idHex: Hex, pk: PubKey, pair: Pair): Check {
    var (eph, nonce, ct) := AuthFields(pair.1);
    CheckSig(e, pk, e.authPayloadRound2(sid, idHex, pair.0, eph, nonce, ct), pair.2)
  }

  function Entry(idHex: Hex, pair: Pair): Round2Package {
    Round2Package(idHex, pair.1, pair.2)
  }

  /** The `for...of` over the submitted pairs: verify, then push; the first failure stops it. */
  function Distribute(m: Inboxes, e: Engine, sid: SessionId, idHex: Hex, pk: PubKey, pairs: seq<Pair>): (Inboxes, Option<Fault>)
    decreases |pairs|
  {
    if pairs == [] then (m, None)
    else match PairCheck(e, sid, idHex, pk, pairs[0])
      case Threw => (m, Some(VerificationError))
      case Rejected => (m, Some(InvalidSignatureInPackage))
      case Accepted => Distribute(Push(m, pairs[0].0, Entry(idHex, pairs[0])), e, sid, idHex, pk, pairs[1..])
  }

  /** Pushing every pair in order, with no verification. */
  function PushAll(m: Inboxes, idHex: Hex, pairs: seq<Pair>): Inboxes
    decreases |pairs|
  {
    if pairs == [] then m else PushAll(Push(m, pairs[0].0, Entry(idHex, pairs[0])), idHex, pairs[1..])
  }

  /** Sum of the list lengths under `keys`. */
  function SumLengths(items: map<Hex, seq<Round2Package>>, keys: seq<Hex>): nat
    requires forall i :: 0 <= i < |keys| ==> keys[i] in items
  {
    if keys == [] then 0 else SumLengths(items, keys[..|keys| - 1]) + |items[keys[|keys| - 1]]|
  }

  /** `round2_packages.forEach(list => totalPackages += list.length)`. */
  function TotalPackages(m: Inboxes): nat {
    SumLengths(m.items, m.order)
  }

  function Round2AllFor(s: DkgSession): Participant -> seq<ServerMsg> {
    (p: Participant) => if Present(p.frostIdHex) then [Round2All(s.id, Get(s.round2Packages, p.frostIdHex.value).GetOr([]))] else []
  }

  /** `finishDKGRound2`: each live participant with an identifier gets its own inbox. */
  function Round2Finish(conns: map<ConnId, Connection>, s: DkgSession): Outbox {
    Fanout(conns, Members(s), Round2AllFor(s))
  }

  /** Round 2 is complete when every participant has sent one package to every other one. */
  function ExpectedPackages(maxSigners: int): int {
    maxSigners * (maxSigners - 1)
  }

  /** Round2Submit on an existing session. */
  function Round2Submit(s: DkgSession, conns: map<ConnId, Connection>, conn: ConnId, sid: SessionId,
                        idHex: Hex, pairs: seq<Pair>, e: Engine): (DkgSession, Outbox) {
    var ps := Members(s);
    match FindBySocket(ps, conn)
    case None => (s, [(conn, Error(Unauthorized))])
    case Some(i) =>
      var p := ps[i];
      if !Truthy(p.pubKeyProp) then (s, [(conn, Error(Unauthorized))])
      else
        var (inbox, fault) := Distribute(s.round2Packages, e, sid, idHex, p.pubKeyProp, pairs);
        var s1 := s.(round2Packages := inbox);
        if fault.Some? then (s1, [(conn, Error(fault.value))])
        else if TotalPackages(inbox) == ExpectedPackages(s.maxSigners) then (s1, Round2Finish(conns, s1))
        else (s1, [])
  }

  // ------------------------------------------------------------------------------------------
  // Finalize
  // ------------------------------------------------------------------------------------------

  /** Why FinalizeSubmit from participant `p` is refused, in the order the handler checks. */
  function FinalizeFault(s: DkgSession, p: Participant, e: Engine, sid: SessionId, idHex: Hex, vk: Hex, sig: Hex): Option<Fault> {
    match CheckSig(e, p.pubKeyProp, e.authPayloadFinalize(sid, idHex, vk), sig)
    case Threw => Some(VerificationError)
    case Rejected => Some(InvalidSignature)
    case Accepted =>
      if Present(p.frostIdHex) && p.frostIdHex.value != idHex then Some(IdentifierMismatch)
      else if Present(s.finalGroupKey) && s.finalGroupKey.value != vk then Some(GroupKeyMismatch)
      else None
  }

  /** The accepted finalize: the key is set if unset, and the sender's uid joins the finalized set. */
  function RecordFinalize(s: DkgSession, uid: int, vk: Hex): DkgSession {
    s.(finalGroupKey := if Present(s.finalGroupKey) then s.finalGroupKey else Some(vk),
       finalizedUids := Some(s.finalizedUids.GetOr({}) + {uid}))
  }

  /** FinalizeSubmit on an existing session. */
  function Finalize(s: DkgSession, conns: map<ConnId, Connection>, conn: ConnId, sid: SessionId,
                    idHex: Hex, vk: Hex, sig: Hex, e: Engine): (DkgSession, Outbox) {
    var ps := Members(s);
    match FindBySocket(ps, conn)
    case None => (s, [(conn, Error(Unauthorized))])
    case Some(i) =>
      var p := ps[i];
      if !Truthy(p.pubKeyProp) then (s, [(conn, Error(Unauthorized))])
      else match FinalizeFault(s, p, e, sid, idHex, vk, sig)
        case Some(f) => (s, [(conn, Error(f))])
        case None =>
          var s1 := RecordFinalize(s, p.uid, vk);
          if |s1.finalizedUids.value| == s.maxSigners then
            (s1.(state := DkgState.Finalized), Broadcast(conns, Members(s1), ServerMsg.Finalized(sid, vk)))
          else (s1, [(conn, ServerMsg.Finalized(sid, vk))])
  }

  // ------------------------------------------------------------------------------------------
  // Listing
  // ------------------------------------------------------------------------------------------

  predicate IsPending(s: DkgSession) {
    s.state != DkgState.Finalized && s.state != DkgState.Failed
  }

  /** The PendingDKGSessions entry: the record's public fields and the joined uids in join order. */
  function Summary(s: DkgSession): (r: DkgSummary)
    ensures r.session == s.id && r.joined == s.joined.order
  {
    DkgSummary(s.id, s.groupId, s.minSigners, s.maxSigners, s.participantsConfig, s.participantsPubs, s.joined.order)
  }

  /** `filter(not Finalized and not Failed).map(summary)` over the stored sessions, in creation order. */
  function PendingList(ss: seq<DkgSession>): (r: seq<DkgSummary>)
    ensures |r| <= |ss|
  {
    if ss == [] then []
    else PendingList(ss[..|ss| - 1]) + if IsPending(ss[|ss| - 1]) then [Summary(ss[|ss| - 1])] else []
  }
}
