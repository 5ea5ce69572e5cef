/**
 * Connection authentication: RequestChallenge, Login and Logout
 * (ts-fserver/dist/server.js:100-158). The state lives on the socket object: the issued
 * challenge and, after a successful login, the key string.
 */
module Auth {
  import opened Wrappers
  import opened Types
  import Engine

  /** RequestChallenge: stores the new token on the connection and nothing else. */
  function IssueChallenge(c: Connection, token: string): (r: Connection)
    ensures r.challenge == Some(token)
    ensures r.publicKey == c.publicKey
  {
    c.(challenge := Some(token))
  }

  /**
   * Login: the claimed challenge must be the one stored on this connection, must parse as a
   * UUID, and the signature over its bytes must verify; only then is the key string bound.
   * The stored challenge is not consumed.
   */
  function Login(c: Connection, e: Engine.Engine, challenge: string, pk: PubKey, sig: Hex, token: string): (r: (Connection, ServerMsg))
    ensures r.1.LoginOk? <==>
      && c.challenge == Some(challenge)
      && e.challengeHex(challenge).Some?
      && e.verifySignature(pk, e.challengeHex(challenge).value, sig) == Some(true)
    ensures r.1.LoginOk? ==> r.0 == c.(publicKey := Some(KeyOf(pk))) && r.1.principal == KeyOf(pk)
    ensures !r.1.LoginOk? ==> r.0 == c && r.1.Error?
  {
    if c.challenge != Some(challenge) then (c, Error(InvalidChallenge))
    else match e.challengeHex(challenge)
      case None => (c, Error(InvalidChallengeFormat))
      case Some(hex) =>
        match e.verifySignature(pk, hex, sig)
        case None => (c, Error(VerificationError))
        case Some(ok) =>
          if !ok then (c, Error(SignatureVerificationFailed))
          else (c.(publicKey := Some(KeyOf(pk))), LoginOk(KeyOf(pk), 0, token))
  }

  /** Logout: both authentication fields are cleared, whatever they held. */
  function Logout(c: Connection): (r: Connection)
    ensures r.publicKey.None? && r.challenge.None?
    ensures !LoggedIn(r)
  {
    Connection(None, None)
  }

  /** A login with a challenge other than the stored one is refused and changes nothing. */
  lemma LoginForeignChallenge(c: Connection, e: Engine.Engine, challenge: string, pk: PubKey, sig: Hex, token: string)
    requires c.challenge != Some(challenge)
    ensures Login(c, e, challenge, pk, sig, token) == (c, Error(InvalidChallenge))
  {
  }

  /** The challenge survives a successful login, so the same signed challenge logs in again. */
  lemma {:induction false} ChallengeReusable(c: Connection, e: Engine.Engine, challenge: string, pk: PubKey, sig: Hex, t1: string, t2: string)
    requires Login(c, e, challenge, pk, sig, t1).1.LoginOk?
    ensures Login(Login(c, e, challenge, pk, sig, t1).0, e, challenge, pk, sig, t2).1.LoginOk?
  {
    var c1 := Login(c, e, challenge, pk, sig, t1).0;
    assert c1.challenge == c.challenge;
  }

  /** Logging out twice is the same as logging out once. */
  lemma LogoutIdempotent(c: Connection)
    ensures Logout(Logout(c)) == Logout(c)
  {
  }
}
