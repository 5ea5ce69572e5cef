# FROST ceremony coordinator — a Dafny model

This project models `FServer`, the WebSocket coordinator that runs FROST threshold-signature
ceremonies (`ts-fserver/dist/server.js`, with the record shapes of
`packages/ts/ts-fserver/src/types.ts`). The coordinator does three things, and the model covers
all three:

- **Login.** `RequestChallenge` stores a fresh token on the connection. `Login` checks the
  claimed challenge against it, checks a signature over the challenge bytes, and binds the
  caller's key string. `Logout` clears both fields.
- **The DKG session machine.**
  - Announce creates the session record.
  - Join checks the roster key under the `toLowerCase().replace('0x', '')` normalisation.
    A join that fills the session starts Round 1, which gives each participant the
    deterministic identifier `BigInt(uid).toString(16).padStart(64, '0')`.
  - Round 1 collects packages keyed by identifier.
  - Round 2 verifies pairs one by one into per-recipient inboxes, up to a count-based barrier
    of N×(N−1). It then sends each participant its own inbox.
  - Finalize agrees on the group key and counts finalizers in a set.
- **The signing session machine.**
  - Announce creates the session record.
  - Join keeps the signer identifier and verifying share.
  - The join, commitment and share barriers compare against the configured participant count.
  - Round 1 computes the signing package, and Round 2 aggregates the signature.

## Layout

- **Values and maps.**
  - `JsMaps` is the JavaScript `Map`: insertion-ordered, where `set` on a present key keeps
    its position. It also holds `mapToObj`.
  - `Types` holds the records and the message unions.
  - `Engine` holds the `wasm.*` calls as arbitrary total functions. A throw becomes `None` or
    `Failure`.
- **Pure helpers.** `HexIds` holds the identifier derivation and its inverse. `RosterKeys` holds
  the key normalisation.
- **Shared plumbing.** `Routing` holds the "send to every live participant" pattern, and the
  inbox a connection receives from an outbox. `Sessions` holds the roster lookup and the
  sender lookup.
- **What a handler does.**
  - `Auth`, `Dkg` and `Signing` are functions. Each gives one handler's new session (or
    connection) and the messages it pushes, with every branch and error of the source.
  - `DkgProperties` and `SigningProperties` hold the lemmas about those functions.
- **The coordinator.** `Server.FServer` is the coordinator class. Its fields are the connection
  registry, the two session stores and the two never-written archives. It has one method per
  message tag and per phase helper.
  - The methods update the stores in place and run the source's `forEach` / `for…of` loops as
    `while` loops.
  - Each method is proved to produce exactly the state and outbox of the matching function.
  - The class invariant `Valid` holds throughout. It says that every stored session sits under
    its own id, that its joined slots are roster slots, and that the archives stay empty.

A handler's output is an outbox, `seq<(ConnId, ServerMsg)>`, in send order. A message to a
connection id that is no longer registered is skipped, as `connections.get(...)` finding
nothing is in the source.

## Behaviour of the code that the model keeps

These points describe the code as it is written.

- **The challenge is not single-use.** `Login` never clears `socket.challenge`, so the same
  signed challenge logs in again (`Auth.ChallengeReusable`).
- **Round-2 failures keep earlier entries.** A failing pair in `Round2Submit` stops the loop,
  but the pairs accepted before it stay in their recipients' inboxes, and they count toward the
  barrier (`DkgProperties.DistributeOutcome`, `DkgProperties.DistributeCount`,
  `DkgProperties.Round2Completes`).
- **A failed signing Round 1 still advances.** When computing the signing package fails, the
  session is still in `Round2`, because the state is set before the computation. A failed
  aggregation in signing Round 2 leaves the state where it was
  (`SigningProperties.Round1FinishOutcome`, `SigningProperties.Round2FinishOutcome`).
- **Finalize counts distinct finalizers.** The session becomes `Finalized` when the number of
  distinct finalizer uids equals `max_signers`; a repeated finalize from the same uid does not
  add to that count (`DkgProperties.FinalizeBarrier`).
- **An empty group key does not lock.** An empty first group key is falsy, so it does not lock
  the session's key (`DkgProperties.EmptyKeyDoesNotLock`). A non-empty one does
  (`DkgProperties.FinalizeKeepsKey`, `DkgProperties.FinalizersAgree`).
- **A re-join of a full session restarts Round 1.** The ready checks are `===` on the joined
  count, and a re-join overwrites its slot in place. So re-joining a full session fires Round 1
  again, even after the session was finalized or completed
  (`DkgProperties.RejoinRestartsRound1`, `SigningProperties.RejoinReopensCompletedSession`).
- **The identifier is recorded before verification.** `Round1Submit` records the submitted
  identifier on the sender before verifying the signature, so a refused package still
  overwrites it (`DkgProperties.Round1RefusedKeepsPackages`).
- **The key normalisation removes the first "0x" anywhere.** It removes the first "0x"
  wherever it occurs, not only a prefix (`RosterKeys.InnerZeroXRemoved`,
  `RosterKeys.OnlyFirstZeroXRemoved`).
- **The Round-2 barrier counts entries, not recipients.** The barrier counts entries over all
  recipients. Two packages to one recipient meet N×(N−1) = 2 for N = 2 while the other
  recipient has none (`DkgProperties.BarrierIgnoresSpread`).

## Model

| member | source | states |
|---|---|---|
| JsMaps.Get | ts-fserver/dist/server.js:186 | `Map.get` finds a value exactly for a present key, and it is that key's value |
| JsMaps.Set | ts-fserver/dist/server.js:206 | `Map.set` stores the value; a present key keeps its place in the order, a new key is appended |
| JsMaps.Values | ts-fserver/dist/server.js:263 | `Array.from(map.values())` lists one value per key, in insertion order |
| JsMaps.MapToObj | ts-fserver/dist/server.js:41-47 | `mapToObj` keeps the keys and their order and applies the extractor to every value |
| JsMaps.MapToObjLoop | ts-fserver/dist/server.js:41-47 | the `forEach` loop that builds the object yields exactly `MapToObj` |
| JsMaps.KeysListed | ts-fserver/dist/server.js:43 | every key walked by `forEach` has a value, and every key with a value is walked |
| JsMaps.SizeIsKeyCount | ts-fserver/dist/server.js:216 | `size` is the number of distinct keys held |
| JsMaps.SetPresentKeepsSize | ts-fserver/dist/server.js:206 | setting a present key leaves `size` unchanged |
| JsMaps.SetNewGrowsByOne | ts-fserver/dist/server.js:206 | setting a new key grows `size` by one |
| Types.KeyOf | packages/ts/ts-fserver/src/types.ts:1-4 | the key string of a roster key is its `key` field for the tagged form and the string itself for the bare form |
| Auth.IssueChallenge | ts-fserver/dist/server.js:100-105 | the new token becomes the stored challenge and the bound key is untouched |
| Auth.Login | ts-fserver/dist/server.js:106-151 | LoginOk if and only if the challenge is the stored one, parses as a UUID and its signature verifies; then the key string is bound and is the principal; otherwise the connection is unchanged and the answer is an Error |
| Auth.Logout | ts-fserver/dist/server.js:152-158 | both authentication fields are cleared, so the connection is no longer logged in |
| Auth.LoginForeignChallenge | ts-fserver/dist/server.js:108-111 | a challenge other than the stored one is refused with "Invalid challenge" and changes nothing |
| Auth.ChallengeReusable | ts-fserver/dist/server.js:106-151 | after a successful login the same challenge and signature log in again |
| Auth.LogoutIdempotent | ts-fserver/dist/server.js:152-158 | logging out twice equals logging out once |
| Engine.CheckSig | ts-fserver/dist/server.js:269-282 | a guarded verification is Accepted exactly when the payload is derived and the signature verifies, and Threw exactly when either call throws |
| HexIds.Zeros | ts-fserver/dist/server.js:632 | the padding is `k` characters, all '0' |
| HexIds.PadStartZeros | ts-fserver/dist/server.js:632 | `padStart(w, '0')` has length max(len, w) and is zeros followed by the original string |
| HexIds.UidToIdHex | ts-fserver/dist/server.js:631-632 | the identifier is at least 64 characters long |
| HexIds.NatToHexValue | ts-fserver/dist/server.js:631 | `toString(16)` of a non-negative number consists of hex digits whose value is that number |
| HexIds.LeadingZerosKeepValue | ts-fserver/dist/server.js:632 | zero padding does not change a hex string's value |
| HexIds.IdHexRoundTrip | ts-fserver/dist/server.js:631-632 | parsing the identifier gives back the uid, for every integer uid |
| HexIds.IdHexInjective | ts-fserver/dist/server.js:631-632 | distinct uids get distinct identifiers |
| HexIds.IdHexWidthExact | ts-fserver/dist/server.js:631-632 | every uid whose hex form fits in 32 bytes gets an identifier of exactly 64 characters |
| HexIds.IdHexIsLowercaseHex | ts-fserver/dist/server.js:631-632 | a non-negative uid gets only lowercase hex digits |
| HexIds.FirstSlotsIds | ts-fserver/test/signing_test.ts:168 | slots 1 and 2 get 63 zeros followed by "1" and "2", the identifiers the test client derives on its side |
| HexIds.BigIntToHex | ts-fserver/dist/server.js:631 | reference definition of `BigInt(uid).toString(16)`: lowercase hex digits, with a leading '-' for a negative uid (its value is `HexIds.NatToHexValue`) |
| RosterKeys.Lower | ts-fserver/dist/server.js:199 | `toLowerCase` keeps the length and lowers every ASCII letter |
| RosterKeys.IndexOf0x | ts-fserver/dist/server.js:199 | the result is the first position of "0x", or none when there is no "0x" |
| RosterKeys.RemoveFirst0x | ts-fserver/dist/server.js:199 | `replace('0x', '')` cuts out the first "0x" only, and leaves a string without one unchanged |
| RosterKeys.PrefixAndCaseInsensitive | ts-fserver/dist/server.js:196-200 | a hex key written bare, with "0x" or with "0X", in any case, normalises to its lowercase form |
| RosterKeys.InnerZeroXRemoved | ts-fserver/dist/server.js:199 | an inner "0X" is removed too ("AB0XCD" becomes "abcd") |
| RosterKeys.OnlyFirstZeroXRemoved | ts-fserver/dist/server.js:199 | a second "0x" stays ("0x0xab" becomes "0xab") |
| RosterKeys.NormalizeKey | ts-fserver/dist/server.js:196-200 | reference definition of the roster key normalisation: lowercase, then remove the first "0x" (its behaviour is the three lemmas above) |
| Routing.SendTo | ts-fserver/dist/server.js:209-213 | a registered connection gets each message in order; an unregistered one gets nothing |
| Routing.InboxOfAppend | ts-fserver/dist/server.js:209-213 | what a connection receives from two successive sends is the concatenation |
| Routing.InboxOfSendTo | ts-fserver/dist/server.js:209-213 | a connection receives a send's messages if and only if the send targets it and it is registered |
| Routing.FanoutDelivers | ts-fserver/dist/server.js:635-650 | a `forEach` send pushes a message to a connection if and only if the connection is registered and some participant on it is meant to get that message |
| Routing.FanoutToSoleHolder | ts-fserver/dist/server.js:635-650 | a live participant alone on its connection receives exactly its own messages, in order |
| Routing.NoneForOthers | ts-fserver/dist/server.js:209-213 | a connection no participant is bound to receives nothing |
| Routing.Fanout | ts-fserver/dist/server.js:635-650 | reference definition of a `joined_participants.forEach` send: each participant, in join order, gets its own messages on its connection when that connection is registered (its behaviour is `Routing.FanoutDelivers`) |
| Routing.Broadcast | ts-fserver/dist/server.js:209-213 | reference definition of a broadcast: `Fanout` with the same one message for every participant |
| Sessions.FindRosterEntry | ts-fserver/dist/server.js:196-204 | `participants_pubs.find` returns the first entry whose normalised key matches, or none when no entry matches |
| Sessions.FindBySocket | ts-fserver/dist/server.js:263 | the sender search returns the first joined participant bound to the connection, or none |
| Sessions.JoinedWithinRoster | ts-fserver/dist/server.js:206 | when joined slots are roster slots, the joined count is at most the number of distinct roster uids |
| Dkg.NewSession | ts-fserver/dist/server.js:162-183 | a new DKG record is Pending under its id, with no one joined, no round data and no group key |
| Dkg.StartRound1 | ts-fserver/dist/server.js:608-634 | Round 1 start moves to Round1, keeps the join order and gives each participant `UidToIdHex(uid)` |
| Dkg.Roster | ts-fserver/dist/server.js:627-634 | the ReadyRound1 roster has one `[uid, id_hex, key]` line per participant, in join order |
| Dkg.Round1List | ts-fserver/dist/server.js:655-658 | the Round1All list has one `[id_hex, pkg, sig]` triple per stored package, in submission order |
| Dkg.Push | ts-fserver/dist/server.js:331-334 | the recipient's list is created when missing and grows by the entry; other lists are untouched |
| Dkg.Summary | ts-fserver/dist/server.js:225-234 | a pending entry carries the session id and the joined uids in join order |
| Dkg.PendingList | ts-fserver/dist/server.js:223-224 | the pending list is no longer than the store |
| Dkg.Join | ts-fserver/dist/server.js:191-219 | reference definition of a join: the login and roster checks, the slot write, the join notes, and Round 1 start when the count equals `max_signers` (its properties are the DkgProperties.Join… lemmas) |
| Dkg.Round1Start | ts-fserver/dist/server.js:608-651 | reference definition of `startDKGRound1`: `StartRound1` on the record, and a personalised ReadyRound1 to each live participant |
| Dkg.Round1Submit | ts-fserver/dist/server.js:263-288 | reference definition of a Round 1 submission: sender check, identifier write before the check, verification, store under the identifier, and the `max_signers` barrier |
| Dkg.Round1Finish | ts-fserver/dist/server.js:652-677 | reference definition of `finishDKGRound1`: Round2, and Round1All then ReadyRound2 to each live participant |
| Dkg.Distribute | ts-fserver/dist/server.js:301-335 | reference definition of the pair loop: verify each pair in order, push it to its recipient, stop at the first failure with its error |
| Dkg.Round2Submit | ts-fserver/dist/server.js:295-355 | reference definition of a Round 2 submission: sender check, the pair loop, the error answer, and the N×(N−1) count barrier |
| Dkg.Round2Finish | ts-fserver/dist/server.js:678-694 | reference definition of `finishDKGRound2`: each live participant with an identifier gets the inbox stored under it |
| Dkg.FinalizeFault | ts-fserver/dist/server.js:367-393 | reference definition of the finalize refusals, in the handler's order: verification error, invalid signature, identifier mismatch, group key mismatch |
| Dkg.RecordFinalize | ts-fserver/dist/server.js:394-402 | reference definition of an accepted finalize's record update: the key is set if unset, the sender's uid joins the finalized set |
| Dkg.Finalize | ts-fserver/dist/server.js:362-426 | reference definition of a finalize: sender check, `FinalizeFault`, `RecordFinalize`, and the `max_signers` barrier with broadcast or acknowledgement |
| DkgProperties.JoinRefusals | ts-fserver/dist/server.js:191-204 | a caller who is not logged in, or whose key matches no roster key, is refused and the session is unchanged |
| DkgProperties.JoinBindsSlot | ts-fserver/dist/server.js:205-206 | a join binds the matched slot to the caller's connection and roster key; a re-join overwrites the slot without growing the count |
| DkgProperties.JoinStaysWithinRoster | ts-fserver/dist/server.js:205-206 | joining keeps every joined slot a roster slot, so the count never exceeds the distinct roster uids; id, roster and group key unchanged |
| DkgProperties.JoinFiresRound1 | ts-fserver/dist/server.js:207-219 | a join that fills the session moves it to Round1, gives each participant its derived identifier, and sends the join notes and then ReadyRound1; a join that does not fill it keeps the state and sends only the JoinedAs note and the join broadcast |
| DkgProperties.RejoinRestartsRound1 | ts-fserver/dist/server.js:216-219 | re-joining a slot of a full session, in any state, puts it back in Round1 |
| DkgProperties.Round1IdsDistinct | ts-fserver/dist/server.js:628-634 | after Round 1 starts, participants in distinct slots hold distinct identifiers |
| DkgProperties.ReadyRound1Personal | ts-fserver/dist/server.js:635-650 | a live participant alone on its connection gets one ReadyRound1 with the shared roster and its own identifier |
| DkgProperties.Round1RefusedKeepsPackages | ts-fserver/dist/server.js:268-282 | a refused or throwing verification stores no package and keeps the state, yet the sender's identifier is already overwritten; only the sender gets an Error |
| DkgProperties.Round1SubmitKeepsRoster | ts-fserver/dist/server.js:263-288 | Round1Submit keeps the id, roster, join order and group key, and the joined slots stay roster slots |
| DkgProperties.Round1KeyedById | ts-fserver/dist/server.js:283 | an accepted package is stored under its identifier; a resubmission replaces it without growing the count |
| DkgProperties.Round1FinishDelivers | ts-fserver/dist/server.js:652-677 | finishing Round 1 moves to Round2; every message is Round1All or ReadyRound2; a live participant alone on its connection gets exactly those two, in that order |
| DkgProperties.Round1Completes | ts-fserver/dist/server.js:283-287 | the accepted package that brings the count to `max_signers` triggers that finish; below `max_signers` the state is kept and nothing is sent |
| DkgProperties.Round2KeepsParticipants | ts-fserver/dist/server.js:290-356 | Round2Submit leaves the joined participants, the roster, the id and the group key alone |
| DkgProperties.PushAddsOne | ts-fserver/dist/server.js:331-334 | every push adds exactly one to the total package count |
| DkgProperties.PushAllCount | ts-fserver/dist/server.js:301-335 | pushing n pairs adds n to the total |
| DkgProperties.SumLengthsUntouched | ts-fserver/dist/server.js:350-351 | changing a list that is not summed leaves the sum unchanged |
| DkgProperties.SumLengthsUpdate | ts-fserver/dist/server.js:350-351 | replacing one summed list changes the sum by the difference in length |
| DkgProperties.AcceptedPrefix | ts-fserver/dist/server.js:301-330 | the pairs before the returned position verify, and the pair at it (if any) does not |
| DkgProperties.DistributeAcceptedStep | ts-fserver/dist/server.js:320-334 | an accepted first pair is pushed and the loop goes on with the rest |
| DkgProperties.PushAllPrefixStep | ts-fserver/dist/server.js:331-334 | pushing a prefix is pushing its first pair, then the rest of the prefix |
| DkgProperties.DistributeOutcome | ts-fserver/dist/server.js:301-335 | the loop pushes exactly the verified prefix of the pairs, in order; the fault is none, "Verification error" for a throw or "Invalid signature in package" for a rejection at the first failing pair |
| DkgProperties.DistributeCount | ts-fserver/dist/server.js:301-352 | the total grows by exactly the verified prefix's length, whether or not the submission fails |
| DkgProperties.Round2Completes | ts-fserver/dist/server.js:301-355 | for every submission from a joined participant: the record gains exactly the loop's inboxes and the total grows by the verified prefix; a failing pair answers the sender with an Error; when all pairs verify, the round finishes exactly when the old total plus the pair count is `max_signers × (max_signers − 1)`, whatever the spread over recipients, and otherwise nothing is sent |
| DkgProperties.BarrierIgnoresSpread | ts-fserver/dist/server.js:349-354 | two packages to one recipient meet the N×(N−1) count for N = 2 while another recipient has none |
| DkgProperties.Round2DeliveryOwnInbox | ts-fserver/dist/server.js:678-694 | every Round2All goes to a live participant with an identifier and carries the inbox stored under that identifier, or an empty list |
| DkgProperties.NoIdNoRound2 | ts-fserver/dist/server.js:682-683 | a participant without an identifier receives nothing at Round 2 finish |
| DkgProperties.Round2ReachesEachId | ts-fserver/dist/server.js:680-692 | a live participant with an identifier, alone on its connection, receives exactly one Round2All carrying the list stored under its identifier (or an empty list) |
| DkgProperties.FinalizeKeepsParticipants | ts-fserver/dist/server.js:357-427 | FinalizeSubmit leaves the joined participants, the roster and the id alone |
| DkgProperties.FinalizeKeepsKey | ts-fserver/dist/server.js:387-397 | once the group key is set to a non-empty string, no finalize changes it |
| DkgProperties.FinalizeAcceptedCarriesKey | ts-fserver/dist/server.js:387-397 | an accepted finalize carried the agreed key, and afterwards the key is exactly the one submitted |
| DkgProperties.FinalizersAgree | ts-fserver/dist/server.js:387-397 | two accepted finalizes in a row, the first with a non-empty key, carry the same key |
| DkgProperties.IdentifierCheckNeedsId | ts-fserver/dist/server.js:381-385 | "Identifier mismatch" is answered if and only if the signature verified and the participant has an identifier different from the claimed one |
| DkgProperties.EmptyKeyDoesNotLock | ts-fserver/dist/server.js:387-397 | an empty stored key never yields "Group key mismatch" |
| DkgProperties.FinalizeBarrier | ts-fserver/dist/server.js:398-425 | the sender's uid joins the finalized set (a repeat does not grow it); at size `max_signers` the state is Finalized and everyone live is told, otherwise only the sender is acknowledged and the state is kept |
| DkgProperties.PendingListMembers | ts-fserver/dist/server.js:222-237 | the pending list holds the summary of each session that is neither Finalized nor Failed, and nothing else |
| Signing.NewSession | ts-fserver/dist/server.js:431-458 | a new signing record is Pending under its id, with no one joined, no round data, no package and no signature |
| Signing.SignRoster | ts-fserver/dist/server.js:698-710 | the signing roster is no longer than the joined list |
| Signing.VerifyingShares | ts-fserver/dist/server.js:768-781 | `vsharesObj` has a key exactly for each signer identifier of a signer that gave both an identifier and a share |
| Signing.Summary | ts-fserver/dist/server.js:462-477 | a pending entry carries the session id, its status and one `[uid, key]` per joined signer |
| Signing.PendingList | ts-fserver/dist/server.js:460-461 | the pending list is no longer than the store |
| Signing.Join | ts-fserver/dist/server.js:505-545 | reference definition of a signing join: the login and roster checks, the slot write with signer id and share, the join note, and Round 1 start when the count equals the configured list's length |
| Signing.Round1Start | ts-fserver/dist/server.js:696-727 | reference definition of `startSignRound1`: Round1, and the same SignReadyRound1 with the signing roster to each live signer |
| Signing.Round1Submit | ts-fserver/dist/server.js:552-573 | reference definition of a commitment submission: sender check, verification, store under the identifier, and the barrier |
| Signing.Round1Finish | ts-fserver/dist/server.js:728-762 | reference definition of `finishSignRound1`: Round2 first, then the signing package stored and broadcast, or the failure broadcast |
| Signing.Round2Submit | ts-fserver/dist/server.js:580-601 | reference definition of a share submission: sender check, verification, store under the identifier, and the barrier |
| Signing.Round2Finish | ts-fserver/dist/server.js:763-823 | reference definition of `finishSignRound2`: the missing-package error, or aggregation with the error or Complete and SignatureReady broadcast |
| SigningProperties.JoinRefusals | ts-fserver/dist/server.js:505-517 | a caller who is not logged in, or who is not on the signing roster, is refused and the session is unchanged |
| SigningProperties.JoinKeepsSignerData | ts-fserver/dist/server.js:518-525 | a join binds the matched slot with the signer identifier and verifying share it supplied |
| SigningProperties.JoinStaysWithinRoster | ts-fserver/dist/server.js:518-525 | joining keeps every joined slot a roster slot, so the count never exceeds the distinct roster uids |
| SigningProperties.JoinFiresRound1 | ts-fserver/dist/server.js:528-544 | a join that brings the count to the configured list's length moves to Round1; a live signer alone on its connection gets the join note and then SignReadyRound1 with that count and the message digest; a join that does not reach that length keeps the state and sends only the join broadcast |
| SigningProperties.TwoBroadcasts | ts-fserver/dist/server.js:711-726 | two broadcasts in a row send only those two messages, and a live signer alone on its connection gets both, in order |
| SigningProperties.SignRosterMembers | ts-fserver/dist/server.js:698-710 | the signing roster holds exactly the signers that gave an identifier, each with that identifier |
| SigningProperties.UnidentifiedSignerStillNotified | ts-fserver/dist/server.js:705-726 | a signer without an identifier is left off the roster but still gets SignReadyRound1 |
| SigningProperties.RejoinReopensCompletedSession | ts-fserver/dist/server.js:542-544 | re-joining a slot of a completed full session moves it back to Round1, so it is listed as pending again |
| SigningProperties.Round1Refused | ts-fserver/dist/server.js:557-568 | a commitment whose verification fails or throws changes nothing, and only the sender gets the matching Error |
| SigningProperties.Round1KeyedById | ts-fserver/dist/server.js:569 | an accepted commitment is stored under its identifier; a resubmission replaces it without growing the count |
| SigningProperties.Round1KeepsParticipants | ts-fserver/dist/server.js:547-574 | SignRound1Submit leaves the joined signers, the roster and the id alone |
| SigningProperties.FinishesKeepParticipants | ts-fserver/dist/server.js:728-823 | both finish steps leave the joined signers, the roster and the id alone |
| SigningProperties.Round1Completes | ts-fserver/dist/server.js:569-572 | an accepted commitment that brings the stored count to the configured list's length makes the submission exactly the Round 1 finish on the updated record (state Round2); below that length the updated record is kept and nothing is sent |
| SigningProperties.Round1FinishOutcome | ts-fserver/dist/server.js:728-762 | finishing Round 1 always moves to Round2; a computed package is stored and is the one message a live signer gets; on failure no package is stored and every live signer gets the aggregation Error |
| SigningProperties.VerifyingShareOfLast | ts-fserver/dist/server.js:769-772 | the share kept for an identifier is that of the last joined signer carrying it |
| SigningProperties.Round2Refused | ts-fserver/dist/server.js:585-596 | a share whose verification fails or throws changes nothing, and only the sender gets an Error |
| SigningProperties.Round2KeyedById | ts-fserver/dist/server.js:597 | an accepted share is stored under its identifier, replacing an earlier one |
| SigningProperties.Round2KeepsParticipants | ts-fserver/dist/server.js:575-602 | SignRound2Submit leaves the joined signers, the roster and the id alone |
| SigningProperties.Round2Completes | ts-fserver/dist/server.js:597-600 | an accepted share that brings the stored count to the configured list's length makes the submission exactly the Round 2 finish on the updated record; below that length the updated record is kept and nothing is sent |
| SigningProperties.Round2FinishOutcome | ts-fserver/dist/server.js:763-823 | with no signing package, or on aggregation failure, the session is unchanged and every live signer gets the Error; on success the session is Complete with the signature, and every live signer gets SignatureReady with the digest and the components |
| SigningProperties.SignatureOnlyWhenComplete | ts-fserver/dist/server.js:784-789 | a share submission sets the final signature only together with the Complete state |
| SigningProperties.PendingListMembers | ts-fserver/dist/server.js:459-480 | the pending list holds the summary of each session that is neither Complete nor Failed, and nothing else |
| Server.StoreDkg | ts-fserver/dist/server.js:180 | writing a sound record back under its id keeps every stored DKG record sound |
| Server.StoreSign | ts-fserver/dist/server.js:450 | writing a sound record back under its id keeps every stored signing record sound |
| Server.JoinDkgSound | ts-fserver/dist/server.js:205-206 | a DKG join keeps the record under its id with its joined slots inside the roster |
| Server.Round1DkgSound | ts-fserver/dist/server.js:268 | Round1Submit keeps the record sound |
| Server.Round2DkgSound | ts-fserver/dist/server.js:331-334 | Round2Submit keeps the record sound |
| Server.FinalizeDkgSound | ts-fserver/dist/server.js:396-406 | FinalizeSubmit keeps the record sound |
| Server.JoinSignSound | ts-fserver/dist/server.js:518-525 | a signing join keeps the record sound |
| Server.Round1SignSound | ts-fserver/dist/server.js:569 | SignRound1Submit keeps the record sound |
| Server.Round2SignSound | ts-fserver/dist/server.js:597 | SignRound2Submit keeps the record sound |
| Server.RoundOneIdStep | ts-fserver/dist/server.js:628-632 | one iteration of the identifier loop assigns the next participant's identifier and touches no other |
| Server.RoundOneIdsAssigned | ts-fserver/dist/server.js:628-634 | after the loop every participant holds its derived identifier, in the same order |
| Server.RosterStep | ts-fserver/dist/server.js:633 | each `roster.push` appends the line of the participant just visited |
| Server.RoundOneRosterCollected | ts-fserver/dist/server.js:627-634 | the roster pushed line by line is the ReadyRound1 roster of the updated participants |
| Server.FServer.constructor | ts-fserver/dist/server.js:49-60 | the coordinator starts with no connections and empty stores and archives |
| Server.FServer.HandleConnection | ts-fserver/dist/server.js:61-64 | a new connection is registered unauthenticated; the stores are unchanged |
| Server.FServer.HandleDisconnect | ts-fserver/dist/server.js:80-84 | the connection is removed and the sessions persist |
| Server.FServer.PutDkg | ts-fserver/dist/server.js:180 | writing a DKG record back keeps the invariant and changes only that store entry |
| Server.FServer.PutSign | ts-fserver/dist/server.js:450 | writing a signing record back keeps the invariant and changes only that store entry |
| Server.FServer.SendEach | ts-fserver/dist/server.js:635-650 | the `forEach` send loop pushes exactly the fan-out of the per-participant messages |
| Server.FServer.RequestChallenge | ts-fserver/dist/server.js:100-105 | the token is stored on the connection and sent back as Challenge |
| Server.FServer.Login | ts-fserver/dist/server.js:106-151 | the connection and the reply are those of `Auth.Login`, and nothing else changes |
| Server.FServer.Logout | ts-fserver/dist/server.js:152-158 | the authentication fields are cleared and the caller is told "Logged out" |
| Server.FServer.AnnounceDKGSession | ts-fserver/dist/server.js:162-183 | a new Pending record is stored under the fresh id and the id is sent back |
| Server.FServer.JoinDKGSession | ts-fserver/dist/server.js:184-221 | "Session not found" for a missing session; otherwise the stored record and the outbox are those of `Dkg.Join` |
| Server.FServer.JoinDkgStep | ts-fserver/dist/server.js:191-219 | the join's checks, slot write, notes and barrier give the record and messages of `Dkg.Join` |
| Server.FServer.StartDkgRound1 | ts-fserver/dist/server.js:608-651 | `startDKGRound1` gives the record and messages of `Dkg.Round1Start` |
| Server.FServer.AssignRoundOneIds | ts-fserver/dist/server.js:627-634 | the loop leaves every participant with its derived identifier and collects the roster of the updated participants |
| Server.FServer.ListPendingDKGSessions | ts-fserver/dist/server.js:222-237 | only the caller is answered, with the pending list of the stored sessions in creation order |
| Server.FServer.ListCompletedDKGSessions | ts-fserver/dist/server.js:238-254 | "Must login first" before login; otherwise an empty list, since the archive is never written |
| Server.FServer.Round1Submit | ts-fserver/dist/server.js:258-289 | a missing session is ignored silently; otherwise the stored record and the outbox are those of `Dkg.Round1Submit` |
| Server.FServer.Round1Step | ts-fserver/dist/server.js:263-288 | the sender search, identifier write, verification, store and barrier give `Dkg.Round1Submit` |
| Server.FServer.FinishDkgRound1 | ts-fserver/dist/server.js:652-677 | `finishDKGRound1` gives the record and messages of `Dkg.Round1Finish` |
| Server.FServer.Round2Submit | ts-fserver/dist/server.js:290-356 | a missing session is ignored silently; otherwise the stored record and the outbox are those of `Dkg.Round2Submit` |
| Server.FServer.Round2Step | ts-fserver/dist/server.js:295-355 | the sender check, the pair loop, the count and the barrier give `Dkg.Round2Submit` |
| Server.FServer.DistributePairs | ts-fserver/dist/server.js:301-335 | the `for…of` loop over the pairs yields the inboxes and fault of `Dkg.Distribute` |
| Server.FServer.PushPackage | ts-fserver/dist/server.js:331-334 | creating the list when missing and pushing onto it is `Dkg.Push` |
| Server.FServer.CountPackages | ts-fserver/dist/server.js:350-351 | the `totalPackages +=` loop yields the total package count |
| Server.FServer.FinalizeSubmit | ts-fserver/dist/server.js:357-427 | a missing session is ignored silently; otherwise the stored record and the outbox are those of `Dkg.Finalize` |
| Server.FServer.FinalizeStep | ts-fserver/dist/server.js:362-426 | the sender check, verification, identifier and key checks, the finalized set and the barrier give `Dkg.Finalize` |
| Server.FServer.AnnounceSignSession | ts-fserver/dist/server.js:431-458 | a new Pending signing record is stored under the fresh id and the id is sent back |
| Server.FServer.ListPendingSigningSessions | ts-fserver/dist/server.js:459-480 | only the caller is answered, with the pending list of the stored signing sessions |
| Server.FServer.ListCompletedSigningSessions | ts-fserver/dist/server.js:481-497 | "Must login first" before login; otherwise an empty list |
| Server.FServer.JoinSignSession | ts-fserver/dist/server.js:498-546 | "Signing session not found" for a missing session; otherwise the record and the outbox are those of `Signing.Join` |
| Server.FServer.JoinSignStep | ts-fserver/dist/server.js:505-545 | the join's checks, slot write, notes and barrier give `Signing.Join` |
| Server.FServer.StartSignRound1 | ts-fserver/dist/server.js:696-727 | `startSignRound1`, with its roster loop that skips unidentified signers, gives `Signing.Round1Start` |
| Server.FServer.SignRound1Submit | ts-fserver/dist/server.js:547-574 | a missing session is ignored silently; otherwise the record and the outbox are those of `Signing.Round1Submit` |
| Server.FServer.SignRound1Step | ts-fserver/dist/server.js:552-573 | the sender check, verification, store and barrier give `Signing.Round1Submit` |
| Server.FServer.FinishSignRound1 | ts-fserver/dist/server.js:728-762 | `finishSignRound1` gives `Signing.Round1Finish` |
| Server.FServer.SignRound2Submit | ts-fserver/dist/server.js:575-602 | a missing session is ignored silently; otherwise the record and the outbox are those of `Signing.Round2Submit` |
| Server.FServer.SignRound2Step | ts-fserver/dist/server.js:580-601 | the sender check, verification, store and barrier give `Signing.Round2Submit` |
| Server.FServer.FinishSignRound2 | ts-fserver/dist/server.js:763-823 | `finishSignRound2` gives `Signing.Round2Finish` |
| Server.FServer.CollectVerifyingShares | ts-fserver/dist/server.js:768-781 | the `vsharesObj` loop yields `Signing.VerifyingShares` |
| Server.FServer.HandleMessage | ts-fserver/dist/server.js:93-604 | every message keeps the invariant and the set of connections; an unknown tag is ignored |

## Left out

- WebSocket transport: the server construction, the JSON parse with drop-on-error, and `send`'s
  `readyState` check (ts-fserver/dist/server.js:57-59, 66-78, 85-89) are not modelled. A send
  is an outbox entry, and any registered connection receives it.
- `uuid.v4` is a `token` parameter of the handlers that draw one. `uuid.parse` of the
  challenge is the engine's `challengeHex`. Every `wasm.*` call is an arbitrary total function
  of the engine, so the FROST cryptography itself is not modelled.
- `created_at`, `Date.now()` and the ISO date strings of the pending lists are left out, and
  so is all `console` logging.
- The `participants_pubs.some(... JSON.stringify(...).includes(...))` filter of the completed
  lists is not modelled. It runs over archives that no handler writes, so the model proves the
  answer is always an empty list.
- Integer-like object keys: a JavaScript object lists integer-like keys (such as "12") in
  numeric order before the others, while `JsMaps.MapToObj` keeps insertion order for every key.
  The objects built from identifiers are handed to the engine, which is not modelled, so the
  order does not affect any modelled behaviour.
- `BigInt(p.uid)` throws for a non-integer uid. The model's uids are integers.
- `toLowerCase` is modelled on ASCII letters only. Other Unicode case mappings are not
  modelled.
- Payloads whose fields have the wrong JavaScript type, such as a roster entry without a key
  or a non-string identifier, are not modelled. They would throw outside the handlers'
  `try` blocks.
- A participant's `pubKeyProp` is always the roster entry's key. The optional, absent key of
  the `Participant` interface is only reachable through such a malformed roster.
- `broadcastUserList` is empty in the source and is not modelled. So are the `ServerMsg`
  tags that the server never sends (SessionAborted, NewDKGSession, SignRound1All and the
  like), and the `Failed` state, which no handler sets.
- `Server.FServer.HandleMessage`: its own contract states only that the invariant holds, that
  no connection is added or dropped, and that an unknown tag is ignored. Each branch's effect
  is the contract of the handler method it calls.
- `Dkg.PendingList`, `Signing.PendingList` and `Signing.SignRoster`: their own contracts state
  only a length bound. Their contents are characterised by `DkgProperties.PendingListMembers`,
  `SigningProperties.PendingListMembers` and `SigningProperties.SignRosterMembers`.
- `HexIds.UidToIdHex`: its own contract states only the minimum length. Its exact width,
  injectivity and round trip are the lemmas beside it.
