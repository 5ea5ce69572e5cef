/**
 * The coordinator's data: roster keys, encrypted round-2 payloads, the client and server
 * message unions, participants and the two kinds of session record
 * (packages/ts/ts-fserver/src/types.ts), plus the per-connection authentication state.
 */
module Types {
  import opened Wrappers
  import opened JsMaps

  type ConnId = string
  type SessionId = string
  type Hex = string

  datatype KeyType = Secp256k1 | EdwardsOnBls12381

  /** `RosterPublicKey`: a tagged key object, or a bare key string kept for older clients. */
  datatype PubKey = Tagged(kind: KeyType, key: string) | Bare(key: string)

  /** `typeof k === 'string' ? k : k.key` (ts-fserver/dist/server.js:197, 137-140). */
  function KeyOf(pk: PubKey): (r: string)
    ensures pk.Bare? ==> r == pk.key
    ensures pk.Tagged? ==> r == pk.key
  {
    match pk
    case Tagged(_, k) => k
    case Bare(k) => k
  }

  /** JavaScript truthiness of a key: only the empty bare string is falsy; an object never is. */
  predicate Truthy(pk: PubKey) {
    !(pk.Bare? && pk.key == "")
  }

  /** JavaScript truthiness of an optional string field: set and non-empty. */
  predicate Present(s: Option<string>) {
    s.Some? && s.value != ""
  }

  /** `EncryptedPayload`, or the raw hex string some test clients send instead. */
  datatype EncryptedPayload =
    | Sealed(ephemeralPublicKey: PubKey, nonce: Hex, ciphertext: Hex)
    | RawHex(hex: Hex)

  /** The per-connection state on the socket object: issued challenge and verified key. */
  datatype Connection = Connection(challenge: Option<string>, publicKey: Option<string>)

  /** `!socket.publicKey` is false. */
  predicate LoggedIn(c: Connection) {
    Present(c.publicKey)
  }

  /**
   * `Participant`, with the signing-only `signer_id_hex` and `verifying_share` as optional
   * fields (a signing session stores `Participant & { signer_id_hex?, verifying_share? }`).
   */
  datatype Participant = Participant(
    uid: int,
    socketId: ConnId,
    pubKeyProp: PubKey,
    frostIdHex: Option<Hex>,
    signerIdHex: Option<Hex>,
    verifyingShare: Option<Hex>)

  datatype DkgState = Pending | Round1 | Round2 | Finalized | Failed
  datatype SignState = Pending | Round1 | Round2 | Complete | Failed

  datatype Round1Package = Round1Package(pkg: Hex, sig: Hex)
  /** One entry of a recipient's round-2 inbox: `[from_id_hex, payload, sig_hex]`. */
  datatype Round2Package = Round2Package(sender: Hex, payload: EncryptedPayload, sig: Hex)
  datatype Commitment = Commitment(commitment: Hex, sig: Hex)
  datatype Share = Share(share: Hex, sig: Hex)

  type RosterEntry = (int, PubKey)

  datatype DkgSession = DkgSession(
    id: SessionId,
    creatorSocketId: ConnId,
    minSigners: int,
    maxSigners: int,
    groupId: string,
    participantsConfig: seq<int>,
    participantsPubs: seq<RosterEntry>,
    joined: JsMap<int, Participant>,
    state: DkgState,
    round1Packages: JsMap<Hex, Round1Package>,
    round2Packages: JsMap<Hex, seq<Round2Package>>,
    finalGroupKey: Option<Hex>,
    finalizedUids: Option<set<int>>)

  datatype SignSession = SignSession(
    id: SessionId,
    creatorSocketId: ConnId,
    groupId: string,
    threshold: int,
    participantsConfig: seq<int>,
    participantsPubs: seq<RosterEntry>,
    message: string,
    messageHex: Hex,
    groupVkSec1Hex: Hex,
    joined: JsMap<int, Participant>,
    state: SignState,
    round1Commitments: JsMap<Hex, Commitment>,
    round2Shares: JsMap<Hex, Share>,
    signingPackage: Option<Hex>,
    finalSignature: Option<Hex>)

  /** `ClientMsg`: the sixteen tags, and any other tag, which the handler's switch ignores. */
  datatype ClientMsg =
    | AnnounceDKGSession(minSigners: int, maxSigners: int, groupId: string, participants: seq<int>, participantsPubs: seq<RosterEntry>)
    | RequestChallenge
    | Login(challenge: string, publicKey: PubKey, signatureHex: Hex)
    | Logout
    | JoinDKGSession(session: SessionId)
    | ListPendingDKGSessions
    | ListCompletedDKGSessions
    | ListPendingSigningSessions
    | ListCompletedSigningSessions
    | Round1Submit(session: SessionId, idHex: Hex, pkgBincodeHex: Hex, signatureHex: Hex)
    | Round2Submit(session: SessionId, idHex: Hex, pkgsCipher: seq<(Hex, EncryptedPayload, Hex)>)
    | FinalizeSubmit(session: SessionId, idHex: Hex, groupVkSec1Hex: Hex, signatureHex: Hex)
    | AnnounceSignSession(groupId: string, threshold: int, participants: seq<int>, participantsPubs: seq<RosterEntry>, groupVkSec1Hex: Hex, message: string, messageHex: Hex)
    | JoinSignSession(session: SessionId, signerIdBincodeHex: Hex, verifyingShareBincodeHex: Hex)
    | SignRound1Submit(session: SessionId, idHex: Hex, commitmentsBincodeHex: Hex, signatureHex: Hex)
    | SignRound2Submit(session: SessionId, idHex: Hex, signatureShareBincodeHex: Hex, signatureHex: Hex)
    | Unrecognized(tag: string)

  /** The reasons carried by `Error` messages, one per message text the server sends. */
  datatype Fault =
    | InvalidChallenge
    | InvalidChallengeFormat
    | SignatureVerificationFailed
    | VerificationError
    | SessionNotFound
    | NotLoggedIn
    | KeyNotAuthorized
    | MustLoginFirst
    | NotParticipantOrNotLoggedIn
    | InvalidSignature
    | VerificationFailed
    | Unauthorized
    | InvalidSignatureInPackage
    | IdentifierMismatch
    | GroupKeyMismatch
    | SigningSessionNotFound
    | KeyNotInSigningRoster
    | SignRound1AggregationFailed(reason: string)
    | SignatureAggregationFailed(reason: string)
  {
    function Text(): string {
      match this
      case InvalidChallenge => "Invalid challenge"
      case InvalidChallengeFormat => "Invalid challenge format"
      case SignatureVerificationFailed => "Signature verification failed"
      case VerificationError => "Verification error"
      case SessionNotFound => "Session not found"
      case NotLoggedIn => "Not logged in"
      case KeyNotAuthorized => "Public key not authorized for this session"
      case MustLoginFirst => "Must login first"
      case NotParticipantOrNotLoggedIn => "Not a participant or not logged in"
      case InvalidSignature => "Invalid signature"
      case VerificationFailed => "Verification failed"
      case Unauthorized => "Unauthorized"
      case InvalidSignatureInPackage => "Invalid signature in package"
      case IdentifierMismatch => "Identifier mismatch"
      case GroupKeyMismatch => "Group key mismatch"
      case SigningSessionNotFound => "Signing session not found"
      case KeyNotInSigningRoster => "Public key not in signing roster"
      case SignRound1AggregationFailed(r) => "Signing Round 1 aggregation failed: " + r
      case SignatureAggregationFailed(r) => "Signature aggregation failed: " + r
    }
  }

  /** The texts of `Info` messages. */
  datatype Note =
    | LoggedOut
    | JoinedAs(session: SessionId, suid: int)
    | ParticipantJoined(suid: int, session: SessionId)

  /** The `PendingDKGSessions` entry for one session (its creation time is not modelled). */
  datatype DkgSummary = DkgSummary(
    session: SessionId, groupId: string, minSigners: int, maxSigners: int,
    participants: seq<int>, participantsPubs: seq<RosterEntry>, joined: seq<int>)

  /** The `PendingSigningSessions` entry for one session. */
  datatype SignSummary = SignSummary(
    session: SessionId, groupId: string, threshold: int,
    participants: seq<int>, participantsPubs: seq<RosterEntry>,
    message: string, messageHex: Hex, status: SignState, joined: seq<(int, string)>)

  /** `[uid, id_hex, pubKeyProp]`. */
  type RosterLine = (int, Hex, PubKey)

  /** `ServerMsg`: the tags the coordinator sends. */
  datatype ServerMsg =
    | Error(fault: Fault)
    | Info(note: Note)
    | Challenge(challenge: string)
    | LoginOk(principal: string, suid: int, accessToken: string)
    | DKGSessionCreated(session: SessionId)
    | PendingDKGSessions(dkgSessions: seq<DkgSummary>)
    | CompletedDKGSessions(completedDkg: seq<DkgSession>)
    | ReadyRound1(session: SessionId, groupId: string, minSigners: int, maxSigners: int, roster: seq<RosterLine>, idHex: Hex)
    | Round1All(session: SessionId, packages: seq<(Hex, Hex, Hex)>)
    | ReadyRound2(session: SessionId, participants: seq<Hex>)
    | Round2All(session: SessionId, inbox: seq<Round2Package>)
    | Finalized(session: SessionId, groupVkSec1Hex: Hex)
    | SignSessionCreated(session: SessionId)
    | PendingSigningSessions(signSessions: seq<SignSummary>)
    | CompletedSigningSessions(completedSign: seq<SignSession>)
    | SignReadyRound1(session: SessionId, groupId: string, threshold: int, participantCount: int, roster: seq<RosterLine>, msgKeccak32Hex: Hex)
    | SignSigningPackage(session: SessionId, signingPackageBincodeHex: Hex)
    | SignatureReady(session: SessionId, signatureBincodeHex: Hex, message: Hex, rx: Hex, ry: Hex, s: Hex, px: Hex, py: Hex)

  /** Messages pushed during one handler run, in order, each with its target connection. */
  type Outbox = seq<(ConnId, ServerMsg)>
}
