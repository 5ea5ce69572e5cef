/**
 * The cryptographic engine behind the `wasm.*` calls (signature verification, authentication
 * payload hashing, FROST signing-package and signature aggregation). Its behaviour is not
 * modelled: the coordinator is parameterised by any set of total functions. A call that
 * throws is `None` or `Failure(message)`.
 */
module Engine {
  import opened Wrappers
  import opened JsMaps
  import opened Types

  /** The JSON `aggregate_signatures` returns once parsed. */
  datatype Aggregate = Aggregate(signatureBincodeHex: Hex, rx: Hex, ry: Hex, s: Hex, px: Hex, py: Hex)

  datatype Engine = Engine(
    /** `Buffer.from(uuid.parse(challenge)).toString('hex')`; `None` when it is not a UUID. */
    challengeHex: string -> Option<Hex>,
    verifySignature: (PubKey, Hex, Hex) -> Option<bool>,
    authPayloadRound1: (SessionId, Hex, Hex) -> Option<Hex>,
    authPayloadRound2: (SessionId, Hex, Hex, Hex, Hex, Hex) -> Option<Hex>,
    authPayloadFinalize: (SessionId, Hex, Hex) -> Option<Hex>,
    authPayloadSignR1: (SessionId, string, Hex, Hex) -> Option<Hex>,
    authPayloadSignR2: (SessionId, string, Hex, Hex, Hex) -> Option<Hex>,
    computeSigningPackage: (JsMap<Hex, Hex>, Hex) -> Result<Hex, string>,
    aggregateSignatures: (Hex, JsMap<Hex, Hex>, JsMap<Hex, Hex>, Hex) -> Result<Aggregate, string>)

  /** How a guarded `verify_signature(pk, payload, sig)` inside `try { } catch { }` ends. */
  datatype Check = Accepted | Rejected | Threw

  /** Runs the payload derivation and the verification; a throw in either is `Threw`. */
  function CheckSig(e: Engine, pk: PubKey, payload: Option<Hex>, sig: Hex): (r: Check)
    ensures r == Accepted <==> payload.Some? && e.verifySignature(pk, payload.value, sig) == Some(true)
    ensures r == Threw <==> payload.None? || e.verifySignature(pk, payload.value, sig).None?
  {
    match payload
    case None => Threw
    case Some(p) =>
      match e.verifySignature(pk, p, sig)
      case None => Threw
      case Some(ok) => if ok then Accepted else Rejected
  }
}
