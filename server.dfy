/**
 * The coordinator object `FServer` (ts-fserver/dist/server.js:48-824): its registry of
 * connections, its two session stores, and one method per message kind. Each method runs
 * the handler's steps in place on the stored records, with the source's loops, and is
 * proved to leave exactly the state and outbox that the matching function of modules Auth,
 * Dkg and Signing describes.
 */
module Server {
  import opened Wrappers
  import opened JsMaps
  import opened Types
  import opened Engine
  import opened Routing
  import opened Sessions
  import Auth
  import Dkg
  import Signing
  import HexIds
  import DkgProperties
  import SigningProperties

  /** A stored DKG record sits under its own id, and its joined slots are roster slots. */
  ghost predicate DkgSound(sid: SessionId, s: DkgSession) {
    s.id == sid && JoinedFromRoster(s.joined, s.participantsPubs)
  }

  /** A stored signing record sits under its own id, and its joined slots are roster slots. */
  ghost predicate SignSound(sid: SessionId, s: SignSession) {
    s.id == sid && JoinedFromRoster(s.joined, s.participantsPubs)
  }

  /** Every stored DKG record is sound. */
  ghost predicate AllDkgSound(m: JsMap<SessionId, DkgSession>) {
    forall sid :: sid in m.items ==> DkgSound(sid, m.items[sid])
  }

  /** Every stored signing record is sound. */
  ghost predicate AllSignSound(m: JsMap<SessionId, SignSession>) {
    forall sid :: sid in m.items ==> SignSound(sid, m.items[sid])
  }

  /** Writing a sound record back keeps the DKG store sound. */
  lemma StoreDkg(m: JsMap<SessionId, DkgSession>, sid: SessionId, s: DkgSession)
    requires AllDkgSound(m) && DkgSound(sid, s)
    ensures AllDkgSound(Set(m, sid, s))
  {
  }

  /** Writing a sound record back keeps the signing store sound. */
  lemma StoreSign(m: JsMap<SessionId, SignSession>, sid: SessionId, s: SignSession)
    requires AllSignSound(m) && SignSound(sid, s)
    ensures AllSignSound(Set(m, sid, s))
  {
  }

  lemma JoinDkgSound(s: DkgSession, caller: Connection, conns: map<ConnId, Connection>, conn: ConnId, sid: SessionId)
    requires DkgSound(sid, s)
    ensures DkgSound(sid, Dkg.Join(s, caller, conns, conn, sid).0)
  {
    DkgProperties.JoinStaysWithinRoster(s, caller, conns, conn, sid);
  }

  lemma Round1DkgSound(s: DkgSession, conns: map<ConnId, Connection>, conn: ConnId, sid: SessionId,
                       idHex: Hex, pkgHex: Hex, sigHex: Hex, e: Engine)
    requires DkgSound(sid, s)
    ensures DkgSound(sid, Dkg.Round1Submit(s, conns, conn, sid, idHex, pkgHex, sigHex, e).0)
  {
    DkgProperties.Round1SubmitKeepsRoster(s, conns, conn, sid, idHex, pkgHex, sigHex, e);
  }

  lemma Round2DkgSound(s: DkgSession, conns: map<ConnId, Connection>, conn: ConnId, sid: SessionId,
                       idHex: Hex, pairs: seq<Dkg.Pair>, e: Engine)
    requires DkgSound(sid, s)
    ensures DkgSound(sid, Dkg.Round2Submit(s, conns, conn, sid, idHex, pairs, e).0)
  {
    DkgProperties.Round2KeepsParticipants(s, conns, conn, sid, idHex, pairs, e);
  }

  lemma FinalizeDkgSound(s: DkgSession, conns: map<ConnId, Connection>, conn: ConnId, sid: SessionId,
                         idHex: Hex, vk: Hex, sig: Hex, e: Engine)
    requires DkgSound(sid, s)
    ensures DkgSound(sid, Dkg.Finalize(s, conns, conn, sid, idHex, vk, sig, e).0)
  {
    DkgProperties.FinalizeKeepsParticipants(s, conns, conn, sid, idHex, vk, sig, e);
  }

  lemma JoinSignSound(s: SignSession, caller: Connection, conns: map<ConnId, Connection>, conn: ConnId, sid: SessionId,
                      signerId: Hex, share: Hex)
    requires SignSound(sid, s)
    ensures SignSound(sid, Signing.Join(s, caller, conns, conn, sid, signerId, share).0)
  {
    SigningProperties.JoinStaysWithinRoster(s, caller, conns, conn, sid, signerId, share);
  }

  lemma Round1SignSound(s: SignSession, conns: map<ConnId, Connection>, conn: ConnId, sid: SessionId,
                        idHex: Hex, commitment: Hex, sig: Hex, e: Engine)
    requires SignSound(sid, s)
    ensures SignSound(sid, Signing.Round1Submit(s, conns, conn, sid, idHex, commitment, sig, e).0)
  {
    SigningProperties.Round1KeepsParticipants(s, conns, conn, sid, idHex, commitment, sig, e);
  }

  lemma Round2SignSound(s: SignSession, conns: map<ConnId, Connection>, conn: ConnId, sid: SessionId,
                        idHex: Hex, share: Hex, sig: Hex, e: Engine)
    requires SignSound(sid, s)
    ensures SignSound(sid, Signing.Round2Submit(s, conns, conn, sid, idHex, share, sig, e).0)
  {
    SigningProperties.Round2KeepsParticipants(s, conns, conn, sid, idHex, share, sig, e);
  }

  /**
   * Part way through the first `forEach` of `startDKGRound1`: the participants under the first
   * `i` listed keys carry their identifiers, the others are as they were.
   */
  ghost predicate IdsAssignedUpTo(m: JsMap<int, Participant>, joined: JsMap<int, Participant>, i: nat) {
    && i <= |m.order|
    && joined.order == m.order
    && joined.items.Keys == m.items.Keys
    && forall k :: k in m.items ==>
         joined.items[k] == if k in m.order[..i] then Dkg.WithRoundOneId(m.items[k]) else m.items[k]
  }

  /** One step of that loop keeps the predicate, one key further on. */
  lemma RoundOneIdStep(m: JsMap<int, Participant>, joined: JsMap<int, Participant>, i: nat)
    requires IdsAssignedUpTo(m, joined, i) && i < |m.order|
    ensures m.order[i] in m.items && m.order[i] in joined.items
    ensures joined.items[m.order[i]] == m.items[m.order[i]]
    ensures IdsAssignedUpTo(m, Set(joined, m.order[i], Dkg.WithRoundOneId(joined.items[m.order[i]])), i + 1)
  {
    var k := m.order[i];
    KeysListed(m);
    assert k !in m.order[..i];
    assert m.order[..i + 1] == m.order[..i] + [k];
  }

  /** A map whose every listed value carries its uid-derived identifier is `mapToObj` of the original. */
  lemma RoundOneIdsAssigned(m: JsMap<int, Participant>, joined: JsMap<int, Participant>)
    requires IdsAssignedUpTo(m, joined, |m.order|)
    ensures joined == MapToObj(m, Dkg.WithRoundOneId)
  {
    assert m.order[..|m.order|] == m.order;
    var target := MapToObj(m, Dkg.WithRoundOneId);
    forall k | k in target.items ensures joined.items[k] == target.items[k] {
    }
    assert joined.items == target.items;
  }

  /** The roster line for a participant once its identifier is set from its uid. */
  function RoundOneLine(p: Participant): RosterLine {
    (p.uid, HexIds.UidToIdHex(p.uid), p.pubKeyProp)
  }

  /** The first `i` roster lines are those of the first `i` participants. */
  ghost predicate RosterUpTo(roster: seq<RosterLine>, ps: seq<Participant>, i: nat) {
    && i <= |ps| && |roster| == i
    && forall j :: 0 <= j < i ==> roster[j] == RoundOneLine(ps[j])
  }

  /** Appending the next participant's line extends the roster by one. */
  lemma RosterStep(roster: seq<RosterLine>, ps: seq<Participant>, i: nat, line: RosterLine)
    requires RosterUpTo(roster, ps, i) && i < |ps| && line == RoundOneLine(ps[i])
    ensures RosterUpTo(roster + [line], ps, i + 1)
  {
    var r := roster + [line];
    forall j | 0 <= j < i + 1
      ensures r[j] == RoundOneLine(ps[j])
    {
      if j < i {
        assert r[j] == roster[j];
      } else {
        assert r[j] == line;
      }
    }
  }

  /** The roster collected line by line is the roster of the updated participants. */
  lemma RoundOneRosterCollected(m: JsMap<int, Participant>, joined: JsMap<int, Participant>, roster: seq<RosterLine>)
    requires joined == MapToObj(m, Dkg.WithRoundOneId)
    requires RosterUpTo(roster, Values(m), |m.order|)
    ensures roster == Dkg.Roster(Values(joined))
  {
    KeysListed(m);
    var ps := Values(joined);
    forall j | 0 <= j < |ps| ensures roster[j] == (ps[j].uid, Dkg.IdOf(ps[j]), ps[j].pubKeyProp) {
      assert ps[j] == Dkg.WithRoundOneId(m.items[m.order[j]]);
    }
  }

  /** The coordinator: its connections, its session stores, and one handler per message kind. */
  class FServer {
    /** The crypto engine every verification and aggregation goes through. */
    const engine: Engine
    var connections: map<ConnId, Connection>
    var dkgSessions: JsMap<SessionId, DkgSession>
    var signSessions: JsMap<SessionId, SignSession>
    /** Archives that the list handlers read; no handler ever stores into them. */
    var completedDKGSessions: JsMap<SessionId, DkgSession>
    var completedSignSessions: JsMap<SessionId, SignSession>

    ghost predicate Valid()
      reads this
    {
      && completedDKGSessions.order == [] && completedSignSessions.order == []
      && AllDkgSound(dkgSessions) && AllSignSound(signSessions)
    }

    constructor(e: Engine)
      ensures Valid()
      ensures engine == e && connections == map[]
      ensures dkgSessions == Empty() && signSessions == Empty()
    {
      engine := e;
      connections := map[];
      dkgSessions := Empty();
      signSessions := Empty();
      completedDKGSessions := Empty();
      completedSignSessions := Empty();
    }

    // ----------------------------------------------------------------------------------------
    // Connections
    // ----------------------------------------------------------------------------------------

    /** `handleConnection`: register the new connection, unauthenticated, under its fresh id. */
    method HandleConnection(connId: ConnId)
      requires Valid()
      modifies this
      ensures Valid()
      ensures connections == old(connections)[connId := Connection(None, None)]
      ensures dkgSessions == old(dkgSessions) && signSessions == old(signSessions)
    {
      connections := connections[connId := Connection(None, None)];
    }

    /** `handleDisconnect`: drop the connection; sessions keep the participants bound to it. */
    method HandleDisconnect(connId: ConnId)
      requires Valid()
      modifies this
      ensures Valid()
      ensures connections == old(connections) - {connId}
      ensures dkgSessions == old(dkgSessions) && signSessions == old(signSessions)
    {
      connections := connections - {connId};
    }

    /** Writes a DKG record back under its id, as the handlers' in-place updates do. */
    method PutDkg(sid: SessionId, s: DkgSession)
      requires Valid() && DkgSound(sid, s)
      modifies this
      ensures Valid()
      ensures dkgSessions == Set(old(dkgSessions), sid, s)
      ensures connections == old(connections) && signSessions == old(signSessions)
    {
      StoreDkg(dkgSessions, sid, s);
      dkgSessions := Set(dkgSessions, sid, s);
    }

    /** Writes a signing record back under its id. */
    method PutSign(sid: SessionId, s: SignSession)
      requires Valid() && SignSound(sid, s)
      modifies this
      ensures Valid()
      ensures signSessions == Set(old(signSessions), sid, s)
      ensures connections == old(connections) && dkgSessions == old(dkgSessions)
    {
      StoreSign(signSessions, sid, s);
      signSessions := Set(signSessions, sid, s);
    }

    /** The `forEach` over participants that sends to each one still registered. */
    method SendEach(ps: seq<Participant>, msgs: Participant -> seq<ServerMsg>) returns (out: Outbox)
      ensures out == Fanout(connections, ps, msgs)
    {
      out := [];
      var i := 0;
      while i < |ps|
        invariant 0 <= i <= |ps|
        invariant out == Fanout(connections, ps[..i], msgs)
      {
        var p := ps[i];
        if p.socketId in connections {
          out := out + SendTo(connections, p.socketId, msgs(p));
        }
        assert ps[..i + 1][..i] == ps[..i];
        i := i + 1;
      }
      assert ps[..i] == ps;
    }

    // ----------------------------------------------------------------------------------------
    // Authentication
    // ----------------------------------------------------------------------------------------

    method RequestChallenge(conn: ConnId, token: string) returns (out: Outbox)
      requires Valid() && conn in connections
      modifies this
      ensures Valid()
      ensures connections == old(connections)[conn := Auth.IssueChallenge(old(connections)[conn], token)]
      ensures dkgSessions == old(dkgSessions) && signSessions == old(signSessions)
      ensures out == [(conn, Challenge(token))]
    {
      var socket := connections[conn];
      socket := socket.(challenge := Some(token));
      connections := connections[conn := socket];
      out := [(conn, Challenge(token))];
    }

    method Login(conn: ConnId, challenge: string, pk: PubKey, sig: Hex, token: string) returns (out: Outbox)
      requires Valid() && conn in connections
      modifies this
      ensures Valid()
      ensures var (c', reply) := Auth.Login(old(connections)[conn], engine, challenge, pk, sig, token);
        connections == old(connections)[conn := c'] && out == [(conn, reply)]
      ensures dkgSessions == old(dkgSessions) && signSessions == old(signSessions)
    {
      var socket := connections[conn];
      var reply: ServerMsg;
      if socket.challenge != Some(challenge) {
        reply := Error(InvalidChallenge);
      } else {
        var challengeHex := engine.challengeHex(challenge);
        if challengeHex.None? {
          reply := Error(InvalidChallengeFormat);
        } else {
          var valid := engine.verifySignature(pk, challengeHex.value, sig);
          if valid.None? {
            reply := Error(VerificationError);
          } else if !valid.value {
            reply := Error(SignatureVerificationFailed);
          } else {
            var pubKeyStr := KeyOf(pk);
            socket := socket.(publicKey := Some(pubKeyStr));
            reply := LoginOk(pubKeyStr, 0, token);
          }
        }
      }
      connections := connections[conn := socket];
      out := [(conn, reply)];
    }

    method Logout(conn: ConnId) returns (out: Outbox)
      requires Valid() && conn in connections
      modifies this
      ensures Valid()
      ensures connections == old(connections)[conn := Auth.Logout(old(connections)[conn])]
      ensures dkgSessions == old(dkgSessions) && signSessions == old(signSessions)
      ensures out == [(conn, Info(LoggedOut))]
    {
      var socket := connections[conn];
      socket := socket.(publicKey := None, challenge := None);
      connections := connections[conn := socket];
      out := [(conn, Info(LoggedOut))];
    }

    // ----------------------------------------------------------------------------------------
    // DKG sessions
    // ----------------------------------------------------------------------------------------

    method AnnounceDKGSession(conn: ConnId, token: string, minSigners: int, maxSigners: int, groupId: string,
                              participants: seq<int>, pubs: seq<RosterEntry>) returns (out: Outbox)
      requires Valid() && conn in connections
      modifies this
      ensures Valid()
      ensures dkgSessions == Set(old(dkgSessions), token, Dkg.NewSession(token, conn, minSigners, maxSigners, groupId, participants, pubs))
      ensures connections == old(connections) && signSessions == old(signSessions)
      ensures out == [(conn, DKGSessionCreated(token))]
    {
      var session := DkgSession(token, conn, minSigners, maxSigners, groupId, participants, pubs,
                                Empty(), DkgState.Pending, Empty(), Empty(), None, None);
      dkgSessions := Set(dkgSessions, token, session);
      out := [(conn, DKGSessionCreated(token))];
    }

    method JoinDKGSession(conn: ConnId, sid: SessionId) returns (out: Outbox)
      requires Valid() && conn in connections
      modifies this
      ensures Valid()
      ensures connections == old(connections) && signSessions == old(signSessions)
      ensures sid !in old(dkgSessions).items ==> dkgSessions == old(dkgSessions) && out == [(conn, Error(SessionNotFound))]
      ensures sid in old(dkgSessions).items ==>
        var r := Dkg.Join(old(dkgSessions).items[sid], old(connections)[conn], old(connections), conn, sid);
        dkgSessions == Set(old(dkgSessions), sid, r.0) && out == r.1
    {
      var found := Get(dkgSessions, sid);
      if found.None? {
        return [(conn, Error(SessionNotFound))];
      }
      var s;
      s, out := JoinDkgStep(found.value, conn, sid);
      JoinDkgSound(found.value, connections[conn], connections, conn, sid);
      PutDkg(sid, s);
    }

    /** The body of the JoinDKGSession handler once the session is found. */
    method JoinDkgStep(s: DkgSession, conn: ConnId, sid: SessionId) returns (s': DkgSession, out: Outbox)
      requires conn in connections
      ensures s' == Dkg.Join(s, connections[conn], connections, conn, sid).0
      ensures out == Dkg.Join(s, connections[conn], connections, conn, sid).1
    {
      s' := s;
      var socket := connections[conn];
      if !LoggedIn(socket) {
        out := [(conn, Error(NotLoggedIn))];
      } else {
        var entry := FindRosterEntry(s.participantsPubs, socket.publicKey.value);
        if entry.None? {
          out := [(conn, Error(KeyNotAuthorized))];
        } else {
          var (suid, pk) := s.participantsPubs[entry.value];
          s' := s.(joined := Set(s.joined, suid, Participant(suid, conn, pk, None, None, None)));
          out := [(conn, Info(JoinedAs(sid, suid)))];
          var notes := SendEach(Values(s'.joined), (p: Participant) => [Info(ParticipantJoined(suid, sid))]);
          out := out + notes;
          if Size(s'.joined) == s'.maxSigners {
            var ready;
            s', ready := StartDkgRound1(s');
            out := out + ready;
          }
        }
      }
    }
    /** `startDKGRound1`: Round1, identifiers from the uids, the roster, and each one's ReadyRound1. */
    method StartDkgRound1(s: DkgSession) returns (s': DkgSession, out: Outbox)
      ensures s' == Dkg.Round1Start(connections, s).0
      ensures out == Dkg.Round1Start(connections, s).1
    {
      var joined, roster := AssignRoundOneIds(s.joined);
      s' := s.(state := DkgState.Round1, joined := joined);
      out := SendEach(Values(s'.joined), Dkg.ReadyRound1For(s', roster));
    }

    /** The first `forEach` of `startDKGRound1`: set each identifier from the uid and collect the roster. */
    method AssignRoundOneIds(m: JsMap<int, Participant>) returns (joined: JsMap<int, Participant>, roster: seq<RosterLine>)
      ensures joined == MapToObj(m, Dkg.WithRoundOneId)
      ensures roster == Dkg.Roster(Values(joined))
    {
      var order := m.order;
      ghost var ps := Values(m);
      joined := m;
      roster := [];
      var i := 0;
      while i < |order|
        invariant 0 <= i <= |order|
        invariant IdsAssignedUpTo(m, joined, i)
        invariant RosterUpTo(roster, ps, i)
      {
        var k := order[i];
        RoundOneIdStep(m, joined, i);
        var p := joined.items[k];
        var idHex := HexIds.UidToIdHex(p.uid);
        p := p.(frostIdHex := Some(idHex));
        joined := Set(joined, k, p);
        RosterStep(roster, ps, i, (p.uid, idHex, p.pubKeyProp));
        roster := roster + [(p.uid, idHex, p.pubKeyProp)];
        i := i + 1;
      }
      RoundOneIdsAssigned(m, joined);
      RoundOneRosterCollected(m, joined, roster);
    }

    method ListPendingDKGSessions(conn: ConnId) returns (out: Outbox)
      ensures out == [(conn, PendingDKGSessions(Dkg.PendingList(Values(dkgSessions))))]
    {
      out := [(conn, PendingDKGSessions(Dkg.PendingList(Values(dkgSessions))))];
    }

    /** Refused before login; otherwise the archive, which is always empty, so the list is empty. */
    method ListCompletedDKGSessions(conn: ConnId) returns (out: Outbox)
      requires Valid() && conn in connections
      ensures out == [(conn, if LoggedIn(connections[conn]) then CompletedDKGSessions([]) else Error(MustLoginFirst))]
    {
      var socket := connections[conn];
      if !LoggedIn(socket) {
        out := [(conn, Error(MustLoginFirst))];
      } else {
        var archived := Values(completedDKGSessions);
        out := [(conn, CompletedDKGSessions(archived))];
      }
    }

    method Round1Submit(conn: ConnId, sid: SessionId, idHex: Hex, pkgHex: Hex, sigHex: Hex) returns (out: Outbox)
      requires Valid() && conn in connections
      modifies this
      ensures Valid()
      ensures connections == old(connections) && signSessions == old(signSessions)
      ensures sid !in old(dkgSessions).items ==> dkgSessions == old(dkgSessions) && out == []
      ensures sid in old(dkgSessions).items ==>
        var r := Dkg.Round1Submit(old(dkgSessions).items[sid], old(connections), conn, sid, idHex, pkgHex, sigHex, engine);
        dkgSessions == Set(old(dkgSessions), sid, r.0) && out == r.1
    {
      var found := Get(dkgSessions, sid);
      if found.None? {
        return [];
      }
      var s;
      s, out := Round1Step(found.value, conn, sid, idHex, pkgHex, sigHex);
      Round1DkgSound(found.value, connections, conn, sid, idHex, pkgHex, sigHex, engine);
      PutDkg(sid, s);
    }

    /** The body of the Round1Submit handler once the session is found. */
    method Round1Step(s: DkgSession, conn: ConnId, sid: SessionId, idHex: Hex, pkgHex: Hex, sigHex: Hex)
      returns (s': DkgSession, out: Outbox)
      ensures s' == Dkg.Round1Submit(s, connections, conn, sid, idHex, pkgHex, sigHex, engine).0
      ensures out == Dkg.Round1Submit(s, connections, conn, sid, idHex, pkgHex, sigHex, engine).1
    {
      s' := s;
      var ps := Values(s.joined);
      var at := FindBySocket(ps, conn);
      if at.None? || !Truthy(ps[at.value].pubKeyProp) {
        out := [(conn, Error(NotParticipantOrNotLoggedIn))];
      } else {
        var p := ps[at.value].(frostIdHex := Some(idHex));
        s' := s'.(joined := Set(s'.joined, s'.joined.order[at.value], p));
        var check := CheckSig(engine, p.pubKeyProp, engine.authPayloadRound1(sid, idHex, pkgHex), sigHex);
        if check == Threw {
          out := [(conn, Error(VerificationFailed))];
        } else if check == Rejected {
          out := [(conn, Error(InvalidSignature))];
        } else {
          s' := s'.(round1Packages := Set(s'.round1Packages, idHex, Round1Package(pkgHex, sigHex)));
          if Size(s'.round1Packages) == s'.maxSigners {
            s', out := FinishDkgRound1(s');
          } else {
            out := [];
          }
        }
      }
    }
    /** `finishDKGRound1`: Round2, the package list in submission order, and Round1All + ReadyRound2 to each. */
    method FinishDkgRound1(s: DkgSession) returns (s': DkgSession, out: Outbox)
      ensures s' == Dkg.Round1Finish(connections, s).0
      ensures out == Dkg.Round1Finish(connections, s).1
    {
      s' := s.(state := DkgState.Round2);
      var order := s.round1Packages.order;
      KeysListed(s.round1Packages);
      var packages: seq<(Hex, Hex, Hex)> := [];
      var i := 0;
      while i < |order|
        invariant 0 <= i <= |order|
        invariant |packages| == i
        invariant forall j :: 0 <= j < i ==>
          packages[j] == (order[j], s.round1Packages.items[order[j]].pkg, s.round1Packages.items[order[j]].sig)
      {
        var v := s.round1Packages.items[order[i]];
        packages := packages + [(order[i], v.pkg, v.sig)];
        i := i + 1;
      }
      assert packages == Dkg.Round1List(s.round1Packages);
      out := SendEach(Values(s'.joined), Dkg.Round1AllFor(s.id, packages));
    }

    method Round2Submit(conn: ConnId, sid: SessionId, idHex: Hex, pairs: seq<Dkg.Pair>) returns (out: Outbox)
      requires Valid() && conn in connections
      modifies this
      ensures Valid()
      ensures connections == old(connections) && signSessions == old(signSessions)
      ensures sid !in old(dkgSessions).items ==> dkgSessions == old(dkgSessions) && out == []
      ensures sid in old(dkgSessions).items ==>
        var r := Dkg.Round2Submit(old(dkgSessions).items[sid], old(connections), conn, sid, idHex, pairs, engine);
        dkgSessions == Set(old(dkgSessions), sid, r.0) && out == r.1
    {
      var found := Get(dkgSessions, sid);
      if found.None? {
        return [];
      }
      var s;
      s, out := Round2Step(found.value, conn, sid, idHex, pairs);
      Round2DkgSound(found.value, connections, conn, sid, idHex, pairs, engine);
      PutDkg(sid, s);
    }

    /** The body of the Round2Submit handler once the session is found. */
    method Round2Step(s: DkgSession, conn: ConnId, sid: SessionId, idHex: Hex, pairs: seq<Dkg.Pair>)
      returns (s': DkgSession, out: Outbox)
      ensures s' == Dkg.Round2Submit(s, connections, conn, sid, idHex, pairs, engine).0
      ensures out == Dkg.Round2Submit(s, connections, conn, sid, idHex, pairs, engine).1
    {
      s' := s;
      var ps := Values(s.joined);
      var at := FindBySocket(ps, conn);
      if at.None? || !Truthy(ps[at.value].pubKeyProp) {
        out := [(conn, Error(Unauthorized))];
      } else {
        var sender := ps[at.value];
        var inbox, fault := DistributePairs(s.round2Packages, sid, idHex, sender.pubKeyProp, pairs);
        s' := s.(round2Packages := inbox);
        if fault.Some? {
          out := [(conn, Error(fault.value))];
        } else {
          var total := CountPackages(inbox);
          if total == Dkg.ExpectedPackages(s.maxSigners) {
            out := SendEach(Values(s'.joined), Dkg.Round2AllFor(s'));
          } else {
            out := [];
          }
        }
      }
    }
    /** The `for...of` over the submitted pairs: verify each, push it, and stop at the first failure. */
    method DistributePairs(m: Dkg.Inboxes, sid: SessionId, idHex: Hex, pk: PubKey, pairs: seq<Dkg.Pair>)
      returns (m': Dkg.Inboxes, fault: Option<Fault>)
      ensures m' == Dkg.Distribute(m, engine, sid, idHex, pk, pairs).0
      ensures fault == Dkg.Distribute(m, engine, sid, idHex, pk, pairs).1
    {
      m' := m;
      var i := 0;
      while i < |pairs|
        invariant 0 <= i <= |pairs|
        invariant Dkg.Distribute(m, engine, sid, idHex, pk, pairs) == Dkg.Distribute(m', engine, sid, idHex, pk, pairs[i..])
      {
        var (recipient, payload, sig) := pairs[i];
        var (eph, nonce, ct) := Dkg.AuthFields(payload);
        var check := CheckSig(engine, pk, engine.authPayloadRound2(sid, idHex, recipient, eph, nonce, ct), sig);
        assert check == Dkg.PairCheck(engine, sid, idHex, pk, pairs[i..][0]);
        if check == Threw {
          return m', Some(VerificationError);
        } else if check == Rejected {
          return m', Some(InvalidSignatureInPackage);
        }
        DkgProperties.DistributeAcceptedStep(m', engine, sid, idHex, pk, pairs[i..]);
        assert pairs[i..][1..] == pairs[i + 1..];
        m' := PushPackage(m', recipient, Round2Package(idHex, payload, sig));
        i := i + 1;
      }
      fault := None;
    }

    /** Creates the recipient's list if it is missing, then appends the package to it. */
    static method PushPackage(m: Dkg.Inboxes, recipient: Hex, x: Round2Package) returns (m': Dkg.Inboxes)
      ensures m' == Dkg.Push(m, recipient, x)
    {
      m' := m;
      if recipient !in m'.items {
        m' := Set(m', recipient, []);
      }
      m' := Set(m', recipient, m'.items[recipient] + [x]);
    }

    /** `round2_packages.forEach(list => totalPackages += list.length)`. */
    method CountPackages(m: Dkg.Inboxes) returns (total: nat)
      ensures total == Dkg.TotalPackages(m)
    {
      KeysListed(m);
      total := 0;
      var i := 0;
      while i < |m.order|
        invariant 0 <= i <= |m.order|
        invariant total == Dkg.SumLengths(m.items, m.order[..i])
      {
        total := total + |m.items[m.order[i]]|;
        assert m.order[..i + 1][..i] == m.order[..i];
        i := i + 1;
      }
      assert m.order[..i] == m.order;
    }

    method FinalizeSubmit(conn: ConnId, sid: SessionId, idHex: Hex, vk: Hex, sig: Hex) returns (out: Outbox)
      requires Valid() && conn in connections
      modifies this
      ensures Valid()
      ensures connections == old(connections) && signSessions == old(signSessions)
      ensures sid !in old(dkgSessions).items ==> dkgSessions == old(dkgSessions) && out == []
      ensures sid in old(dkgSessions).items ==>
        var r := Dkg.Finalize(old(dkgSessions).items[sid], old(connections), conn, sid, idHex, vk, sig, engine);
        dkgSessions == Set(old(dkgSessions), sid, r.0) && out == r.1
    {
      var found := Get(dkgSessions, sid);
      if found.None? {
        return [];
      }
      var s;
      s, out := FinalizeStep(found.value, conn, sid, idHex, vk, sig);
      FinalizeDkgSound(found.value, connections, conn, sid, idHex, vk, sig, engine);
      PutDkg(sid, s);
    }

    /** The body of the FinalizeSubmit handler once the session is found. */
    method FinalizeStep(s: DkgSession, conn: ConnId, sid: SessionId, idHex: Hex, vk: Hex, sig: Hex)
      returns (s': DkgSession, out: Outbox)
      ensures s' == Dkg.Finalize(s, connections, conn, sid, idHex, vk, sig, engine).0
      ensures out == Dkg.Finalize(s, connections, conn, sid, idHex, vk, sig, engine).1
    {
      s' := s;
      var ps := Values(s.joined);
      var at := FindBySocket(ps, conn);
      if at.None? || !Truthy(ps[at.value].pubKeyProp) {
        out := [(conn, Error(Unauthorized))];
      } else {
        var p := ps[at.value];
        var check := CheckSig(engine, p.pubKeyProp, engine.authPayloadFinalize(sid, idHex, vk), sig);
        if check == Threw {
          out := [(conn, Error(VerificationError))];
        } else if check == Rejected {
          out := [(conn, Error(InvalidSignature))];
        } else if Present(p.frostIdHex) && p.frostIdHex.value != idHex {
          out := [(conn, Error(IdentifierMismatch))];
        } else if Present(s'.finalGroupKey) && s'.finalGroupKey.value != vk {
          out := [(conn, Error(GroupKeyMismatch))];
        } else {
          if !Present(s'.finalGroupKey) {
            s' := s'.(finalGroupKey := Some(vk));
          }
          if s'.finalizedUids.None? {
            s' := s'.(finalizedUids := Some({}));
          }
          s' := s'.(finalizedUids := Some(s'.finalizedUids.value + {p.uid}));
          if |s'.finalizedUids.value| == s'.maxSigners {
            s' := s'.(state := DkgState.Finalized);
            out := SendEach(Values(s'.joined), (q: Participant) => [ServerMsg.Finalized(sid, vk)]);
          } else {
            out := [(conn, ServerMsg.Finalized(sid, vk))];
          }
        }
      }
    }
    // ----------------------------------------------------------------------------------------
    // Signing sessions
    // ----------------------------------------------------------------------------------------

    method AnnounceSignSession(conn: ConnId, token: string, groupId: string, threshold: int, participants: seq<int>,
                               pubs: seq<RosterEntry>, message: string, messageHex: Hex, groupVk: Hex) returns (out: Outbox)
      requires Valid() && conn in connections
      modifies this
      ensures Valid()
      ensures signSessions ==
        Set(old(signSessions), token, Signing.NewSession(token, conn, groupId, threshold, participants, pubs, message, messageHex, groupVk))
      ensures connections == old(connections) && dkgSessions == old(dkgSessions)
      ensures out == [(conn, SignSessionCreated(token))]
    {
      var session := SignSession(token, conn, groupId, threshold, participants, pubs, message, messageHex, groupVk,
                                 Empty(), SignState.Pending, Empty(), Empty(), None, None);
      signSessions := Set(signSessions, token, session);
      out := [(conn, SignSessionCreated(token))];
    }

    method ListPendingSigningSessions(conn: ConnId) returns (out: Outbox)
      ensures out == [(conn, PendingSigningSessions(Signing.PendingList(Values(signSessions))))]
    {
      out := [(conn, PendingSigningSessions(Signing.PendingList(Values(signSessions))))];
    }

    /** Refused before login; otherwise the archive, which is always empty, so the list is empty. */
    method ListCompletedSigningSessions(conn: ConnId) returns (out: Outbox)
      requires Valid() && conn in connections
      ensures out == [(conn, if LoggedIn(connections[conn]) then CompletedSigningSessions([]) else Error(MustLoginFirst))]
    {
      var socket := connections[conn];
      if !LoggedIn(socket) {
        out := [(conn, Error(MustLoginFirst))];
      } else {
        var archived := Values(completedSignSessions);
        out := [(conn, CompletedSigningSessions(archived))];
      }
    }

    method JoinSignSession(conn: ConnId, sid: SessionId, signerId: Hex, share: Hex) returns (out: Outbox)
      requires Valid() && conn in connections
      modifies this
      ensures Valid()
      ensures connections == old(connections) && dkgSessions == old(dkgSessions)
      ensures sid !in old(signSessions).items ==> signSessions == old(signSessions) && out == [(conn, Error(SigningSessionNotFound))]
      ensures sid in old(signSessions).items ==>
        var r := Signing.Join(old(signSessions).items[sid], old(connections)[conn], old(connections), conn, sid, signerId, share);
        signSessions == Set(old(signSessions), sid, r.0) && out == r.1
    {
      var found := Get(signSessions, sid);
      if found.None? {
        return [(conn, Error(SigningSessionNotFound))];
      }
      var s;
      s, out := JoinSignStep(found.value, conn, sid, signerId, share);
      JoinSignSound(found.value, connections[conn], connections, conn, sid, signerId, share);
      PutSign(sid, s);
    }

    /** The body of the JoinSignSession handler once the session is found. */
    method JoinSignStep(s: SignSession, conn: ConnId, sid: SessionId, signerId: Hex, share: Hex) returns (s': SignSession, out: Outbox)
      requires conn in connections
      ensures s' == Signing.Join(s, connections[conn], connections, conn, sid, signerId, share).0
      ensures out == Signing.Join(s, connections[conn], connections, conn, sid, signerId, share).1
    {
      s' := s;
      var socket := connections[conn];
      if !LoggedIn(socket) {
        out := [(conn, Error(NotLoggedIn))];
      } else {
        var entry := FindRosterEntry(s.participantsPubs, socket.publicKey.value);
        if entry.None? {
          out := [(conn, Error(KeyNotInSigningRoster))];
        } else {
          var (suid, pk) := s.participantsPubs[entry.value];
          s' := s.(joined := Set(s.joined, suid, Participant(suid, conn, pk, None, Some(signerId), Some(share))));
          out := SendEach(Values(s'.joined), (p: Participant) => [Info(ParticipantJoined(suid, sid))]);
          if Size(s'.joined) == |s'.participantsConfig| {
            var ready;
            s', ready := StartSignRound1(s');
            out := out + ready;
          }
        }
      }
    }
    /** `startSignRound1`: Round1, the roster of identified signers, and one SignReadyRound1 to each. */
    method StartSignRound1(s: SignSession) returns (s': SignSession, out: Outbox)
      ensures s' == Signing.Round1Start(connections, s).0
      ensures out == Signing.Round1Start(connections, s).1
    {
      s' := s.(state := SignState.Round1);
      var ps := Values(s'.joined);
      var roster: seq<RosterLine> := [];
      var i := 0;
      while i < |ps|
        invariant 0 <= i <= |ps|
        invariant roster == Signing.SignRoster(ps[..i])
      {
        var p := ps[i];
        if Present(p.signerIdHex) {
          roster := roster + [(p.uid, p.signerIdHex.value, p.pubKeyProp)];
        }
        assert ps[..i + 1][..i] == ps[..i];
        i := i + 1;
      }
      assert ps[..i] == ps;
      out := SendEach(ps, (p: Participant) => [Signing.SignReadyFor(s', roster)]);
    }

    method SignRound1Submit(conn: ConnId, sid: SessionId, idHex: Hex, commitment: Hex, sig: Hex) returns (out: Outbox)
      requires Valid() && conn in connections
      modifies this
      ensures Valid()
      ensures connections == old(connections) && dkgSessions == old(dkgSessions)
      ensures sid !in old(signSessions).items ==> signSessions == old(signSessions) && out == []
      ensures sid in old(signSessions).items ==>
        var r := Signing.Round1Submit(old(signSessions).items[sid], old(connections), conn, sid, idHex, commitment, sig, engine);
        signSessions == Set(old(signSessions), sid, r.0) && out == r.1
    {
      var found := Get(signSessions, sid);
      if found.None? {
        return [];
      }
      var s;
      s, out := SignRound1Step(found.value, conn, sid, idHex, commitment, sig);
      Round1SignSound(found.value, connections, conn, sid, idHex, commitment, sig, engine);
      PutSign(sid, s);
    }

    /** The body of the SignRound1Submit handler once the session is found. */
    method SignRound1Step(s: SignSession, conn: ConnId, sid: SessionId, idHex: Hex, commitment: Hex, sig: Hex)
      returns (s': SignSession, out: Outbox)
      ensures s' == Signing.Round1Submit(s, connections, conn, sid, idHex, commitment, sig, engine).0
      ensures out == Signing.Round1Submit(s, connections, conn, sid, idHex, commitment, sig, engine).1
    {
      s' := s;
      var ps := Values(s.joined);
      var at := FindBySocket(ps, conn);
      if at.None? || !Truthy(ps[at.value].pubKeyProp) {
        out := [(conn, Error(Unauthorized))];
      } else {
        var p := ps[at.value];
        var check := CheckSig(engine, p.pubKeyProp, engine.authPayloadSignR1(sid, s.groupId, idHex, commitment), sig);
        if check == Rejected {
          out := [(conn, Error(InvalidSignature))];
        } else if check == Threw {
          out := [(conn, Error(VerificationError))];
        } else {
          s' := s.(round1Commitments := Set(s.round1Commitments, idHex, Commitment(commitment, sig)));
          if Size(s'.round1Commitments) == |s'.participantsConfig| {
            s', out := FinishSignRound1(s');
          } else {
            out := [];
          }
        }
      }
    }
    /** `finishSignRound1`: Round2, then the signing package from the commitments, or the failure, to each. */
    method FinishSignRound1(s: SignSession) returns (s': SignSession, out: Outbox)
      ensures s' == Signing.Round1Finish(connections, s, engine).0
      ensures out == Signing.Round1Finish(connections, s, engine).1
    {
      s' := s.(state := SignState.Round2);
      var commitments := MapToObjLoop(s.round1Commitments, (c: Commitment) => c.commitment);
      var result := engine.computeSigningPackage(commitments, s.messageHex);
      if result.Success? {
        s' := s'.(signingPackage := Some(result.value));
        out := SendEach(Values(s'.joined), (p: Participant) => [SignSigningPackage(s.id, result.value)]);
      } else {
        out := SendEach(Values(s'.joined), (p: Participant) => [Error(SignRound1AggregationFailed(result.error))]);
      }
    }

    method SignRound2Submit(conn: ConnId, sid: SessionId, idHex: Hex, share: Hex, sig: Hex) returns (out: Outbox)
      requires Valid() && conn in connections
      modifies this
      ensures Valid()
      ensures connections == old(connections) && dkgSessions == old(dkgSessions)
      ensures sid !in old(signSessions).items ==> signSessions == old(signSessions) && out == []
      ensures sid in old(signSessions).items ==>
        var r := Signing.Round2Submit(old(signSessions).items[sid], old(connections), conn, sid, idHex, share, sig, engine);
        signSessions == Set(old(signSessions), sid, r.0) && out == r.1
    {
      var found := Get(signSessions, sid);
      if found.None? {
        return [];
      }
      var s;
      s, out := SignRound2Step(found.value, conn, sid, idHex, share, sig);
      Round2SignSound(found.value, connections, conn, sid, idHex, share, sig, engine);
      PutSign(sid, s);
    }

    /** The body of the SignRound2Submit handler once the session is found. */
    method SignRound2Step(s: SignSession, conn: ConnId, sid: SessionId, idHex: Hex, share: Hex, sig: Hex)
      returns (s': SignSession, out: Outbox)
      ensures s' == Signing.Round2Submit(s, connections, conn, sid, idHex, share, sig, engine).0
      ensures out == Signing.Round2Submit(s, connections, conn, sid, idHex, share, sig, engine).1
    {
      s' := s;
      var ps := Values(s.joined);
      var at := FindBySocket(ps, conn);
      if at.None? || !Truthy(ps[at.value].pubKeyProp) {
        out := [(conn, Error(Unauthorized))];
      } else {
        var p := ps[at.value];
        var check := CheckSig(engine, p.pubKeyProp, engine.authPayloadSignR2(sid, s.groupId, idHex, share, s.messageHex), sig);
        if check == Rejected {
          out := [(conn, Error(InvalidSignature))];
        } else if check == Threw {
          out := [(conn, Error(VerificationError))];
        } else {
          s' := s.(round2Shares := Set(s.round2Shares, idHex, Share(share, sig)));
          if Size(s'.round2Shares) == |s'.participantsConfig| {
            s', out := FinishSignRound2(s');
          } else {
            out := [];
          }
        }
      }
    }
    /** `finishSignRound2`: aggregate with the shares and the verifying shares, then broadcast the outcome. */
    method FinishSignRound2(s: SignSession) returns (s': SignSession, out: Outbox)
      ensures s' == Signing.Round2Finish(connections, s, engine).0
      ensures out == Signing.Round2Finish(connections, s, engine).1
    {
      var shares := MapToObjLoop(s.round2Shares, (x: Share) => x.share);
      var ps := Values(s.joined);
      var vshares := CollectVerifyingShares(ps);
      s' := s;
      if !Present(s.signingPackage) {
        out := SendEach(ps, (p: Participant) => [Error(SignatureAggregationFailed("Missing signing package"))]);
      } else {
        var result := engine.aggregateSignatures(s.signingPackage.value, shares, vshares, s.groupVkSec1Hex);
        if result.Failure? {
          out := SendEach(ps, (p: Participant) => [Error(SignatureAggregationFailed(result.error))]);
        } else {
          var a := result.value;
          s' := s.(finalSignature := Some(a.signatureBincodeHex), state := SignState.Complete);
          out := SendEach(Values(s'.joined),
                          (p: Participant) => [SignatureReady(s.id, a.signatureBincodeHex, s.messageHex, a.rx, a.ry, a.s, a.px, a.py)]);
        }
      }
    }

    /** The `forEach` of `finishSignRound2` that collects each signer's verifying share under its identifier. */
    static method CollectVerifyingShares(ps: seq<Participant>) returns (vshares: JsMap<Hex, Hex>)
      ensures vshares == Signing.VerifyingShares(ps)
    {
      vshares := Empty();
      var i := 0;
      while i < |ps|
        invariant 0 <= i <= |ps|
        invariant vshares == Signing.VerifyingShares(ps[..i])
      {
        var p := ps[i];
        if Present(p.signerIdHex) && Present(p.verifyingShare) {
          vshares := Set(vshares, p.signerIdHex.value, p.verifyingShare.value);
        }
        assert ps[..i + 1][..i] == ps[..i];
        i := i + 1;
      }
      assert ps[..i] == ps;
    }

    // ----------------------------------------------------------------------------------------
    // Dispatch
    // ----------------------------------------------------------------------------------------

    /**
     * `handleMessage`: route by tag; an unknown tag does nothing. `token` is the fresh UUID
     * the handler draws, where it draws one. No message adds or drops a connection.
     */
    method HandleMessage(conn: ConnId, msg: ClientMsg, token: string) returns (out: Outbox)
      requires Valid() && conn in connections
      modifies this
      ensures Valid()
      ensures connections.Keys == old(connections).Keys
      ensures msg.Unrecognized? ==>
        out == [] && connections == old(connections) && dkgSessions == old(dkgSessions) && signSessions == old(signSessions)
    {
      match msg
      case RequestChallenge =>
        out := this.RequestChallenge(conn, token);
      case Login(challenge, pk, sig) =>
        out := this.Login(conn, challenge, pk, sig, token);
      case Logout =>
        out := this.Logout(conn);
      case AnnounceDKGSession(minSigners, maxSigners, groupId, participants, pubs) =>
        out := this.AnnounceDKGSession(conn, token, minSigners, maxSigners, groupId, participants, pubs);
      case JoinDKGSession(sid) =>
        out := this.JoinDKGSession(conn, sid);
      case ListPendingDKGSessions =>
        out := this.ListPendingDKGSessions(conn);
      case ListCompletedDKGSessions =>
        out := this.ListCompletedDKGSessions(conn);
      case ListPendingSigningSessions =>
        out := this.ListPendingSigningSessions(conn);
      case ListCompletedSigningSessions =>
        out := this.ListCompletedSigningSessions(conn);
      case Round1Submit(sid, idHex, pkgHex, sig) =>
        out := this.Round1Submit(conn, sid, idHex, pkgHex, sig);
      case Round2Submit(sid, idHex, pairs) =>
        out := this.Round2Submit(conn, sid, idHex, pairs);
      case FinalizeSubmit(sid, idHex, vk, sig) =>
        out := this.FinalizeSubmit(conn, sid, idHex, vk, sig);
      case AnnounceSignSession(groupId, threshold, participants, pubs, vk, message, messageHex) =>
        out := this.AnnounceSignSession(conn, token, groupId, threshold, participants, pubs, message, messageHex, vk);
      case JoinSignSession(sid, signerId, share) =>
        out := this.JoinSignSession(conn, sid, signerId, share);
      case SignRound1Submit(sid, idHex, commitment, sig) =>
        out := this.SignRound1Submit(conn, sid, idHex, commitment, sig);
      case SignRound2Submit(sid, idHex, share, sig) =>
        out := this.SignRound2Submit(conn, sid, idHex, share, sig);
      case Unrecognized(_) =>
        out := [];
    }
  }
}
