# Party 1 of two-party GG18 ECDSA: key assembly and derivation bookkeeping

This project models Party 1 (`MasterKey1`) of the kms-secp256k1 two-party
threshold ECDSA scheme built on GG18. The source file is
`src/ecdsa/two_party_gg18/party1.rs`. The model covers:

- the four key-generation messages and `set_master_key`;
- the rotation messages and `rotate_master_key`;
- BIP32 child derivation (`get_child`);
- the signing messages that only wrap their input.

The cryptography lives in libraries that are not part of this model: curv,
multi-party-ecdsa's GG18 `Keys`, Paillier and the `hd_key` helper. What can be
stated and proved without them is the bookkeeping:

- which entry of each two-element vector is kept and which is sent;
- how the joint public key Q is formed;
- what a master key stores;
- when rotation aborts;
- how the child commitment vector is rebuilt;
- which fields a derivation changes.

Files:

- `curve.dfy` (module `Curve`): the secp256k1 group, with each point written
  as its discrete logarithm. Points are integers mod the curve order N. G = 1,
  point addition is addition mod N, and G·k is k.
- `primitives.dfy` (module `Primitives`): the library records party1.rs reads
  or builds. It also holds `Library`, a record of functions, one per library
  entry point the file calls. The operations receive a `Library` and never
  look inside it, so each library call is an uninterpreted function.
  Randomness (fresh shares, Paillier key pairs, blinding factors) is part of
  what those functions return.
- `two_party_gg18.dfy` (module `TwoPartyGg18`): the message envelopes,
  `MasterKeyPublic`, `MasterKey1`, and the joint-key invariant
  `JointKeyConsistent`. The invariant says Q is the sum of the two parties'
  commitments to their constant terms.
- `party1.dfy` (module `Party1`): the operations of `impl MasterKey1`.
  `get_child` is a method with a loop that mirrors the commitment iterator.
  It is proved equal to the specification function `Child`.
- `party1_properties.dfy` (module `Party1Properties`): the phases chained the
  way a caller drives them (`KeyGenRun`, `RotationRun`), with lemmas about
  complete runs.

Failures. In the source a failed check (`expect`, `assert_eq!`, `unwrap`)
panics. In the model each one is an `Err`:

- `InvalidKey`: commitment or Paillier-key proof rejected;
- `InvalidVss`: VSS share rejected;
- `BadDlogProof`: dlog proof rejected;
- `RotationMismatch`: the rotation gate failed;
- `MissingCommitment`: in `get_child`, either the own commitment vector is
  empty (the index `commitments[0]` and the first `next().unwrap()`, lines
  435-437) or the iterator over it runs out (`next().unwrap()`, line 443).

An index into a vector that an earlier phase built with two entries
(`y_vec[1]`, built by message 3; `vss_scheme_vec[1]`, built by message 4
and stored by `set_master_key`) is a `requires` instead. `secret_shares[1]`
in message 3 is different: `secret_shares` is returned in message 3 itself,
by the library's `distribute` call (lines 82-88). The predicate
`DistributesShares` assumes that this call, when it succeeds, returns at
least two shares. It is a `requires` of both third messages, and
`KeyGenSharesReady` and `RotationSharesReady` pass it on to every
key-generation and rotation lemma.

Throughout, "Party 1" is the party this file implements (`MasterKey1`). In
the vectors of `MasterKeyPublic`, index 0 is Party 1's own entry and index 1
the counterparty's. `key_gen_fourth_message` stores
`[party1_message3.vss_scheme, party2_message3.vss_scheme]` (line 112).

Where the code goes beyond, or differs from, the protocol as usually stated,
the model follows the code:

- Rotation message 3 panics on a mismatch. The model returns `RotationMismatch`.
- `get_child` lets Party 1 absorb the tweak f_l. It adds f_l to Party 1's
  own private share (`update_private_key(f_l, f_l)`, line 459) and shifts
  entry 0 of Party 1's own commitment vector, which is index 0 by line 112.
  So Q' = Q + G·f_l stays equal to the sum of the two first commitments.
- The own child commitment vector has as many entries as the counterparty's
  vector (`vss_scheme_vec[1]`), not as the own vector. An empty counterparty
  vector gives an empty child vector, and the shifted commitment is dropped.
  A counterparty vector longer than the own vector makes the iterator run out.

## Model

| member | source | states |
|---|---|---|
| `Party1.KeyGenFirstMessage` | src/ecdsa/two_party_gg18/party1.rs:49-58 | a zero `u` gives a fresh random share and any other `u` gives a share built from `u`, with party index 1 in both cases; the message and the decommitment are the library's commitment pair for those keys |
| `Party1.KeyGenSecondMessage` | src/ecdsa/two_party_gg18/party1.rs:60-62 | message 2 carries the decommitment unchanged |
| `Party1.KeyGenThirdMessage` | src/ecdsa/two_party_gg18/party1.rs:64-99 | it fails with InvalidKey exactly when the library rejects the decommitments and broadcasts, which are passed own entry first; otherwise message 3 carries the VSS scheme and share 1, Party 1 keeps share 0, and the y-vector and Paillier vector are [own, counterparty's] |
| `Party1.KeyGenFourthMessage` | src/ecdsa/two_party_gg18/party1.rs:101-126 | it fails with InvalidVss exactly when the VSS check rejects the kept share 0 with the counterparty's share, and the own scheme with the counterparty's scheme; otherwise message 4 carries the dlog proof, and the VSS vector is [own scheme, counterparty's scheme] |
| `Party1.SetMasterKey` | src/ecdsa/two_party_gg18/party1.rs:128-160 | it fails with BadDlogProof exactly when the two dlog proofs do not verify against the y-vector; otherwise Q = y_vec[0] + y_vec[1], and the VSS vector, Paillier vector and chain code are stored unchanged |
| `Party1.SignFourthMessage` | src/ecdsa/two_party_gg18/party1.rs:235-237 | sign message 4 carries the nonce decommitment unchanged |
| `Party1.SignSixthMessage` | src/ecdsa/two_party_gg18/party1.rs:283-291 | sign message 6 carries the phase-5A decommitment and the homomorphic-ElGamal proof unchanged |
| `Party1.SignEighthMessage` | src/ecdsa/two_party_gg18/party1.rs:314-316 | sign message 8 carries the phase-5D decommitment unchanged |
| `Party1.RotationFirstMessage` | src/ecdsa/two_party_gg18/party1.rs:357-365 | the new keys are the current private share refreshed by the rotation factor, with party index 1, and the message commits to them |
| `Party1.RotationSecondMessage` | src/ecdsa/two_party_gg18/party1.rs:367-369 | rotation message 2 carries the decommitment unchanged |
| `Party1.RotationThirdMessage` | src/ecdsa/two_party_gg18/party1.rs:371-389 | it aborts with RotationMismatch if and only if the new own y_i plus the counterparty's new y_i differs from the current Q; otherwise its result is that of key-generation message 3 on the same inputs |
| `Party1.RotationFourthMessage` | src/ecdsa/two_party_gg18/party1.rs:391-405 | rotation message 4 is key-generation message 4 on the same inputs |
| `Party1.RotateMasterKey` | src/ecdsa/two_party_gg18/party1.rs:407-427 | the result is `set_master_key` called with the current chain code, so a rotated key keeps its chain code |
| `Party1.GetChild` | src/ecdsa/two_party_gg18/party1.rs:429-467 | it succeeds if and only if the own (index 0) commitment vector is non-empty and at least as long as the counterparty's (index 1). On success: the own new vector is as long as the counterparty's, entry 0 is the old entry 0 plus G·f_l, and every later entry is copied. The own VSS parameters, the counterparty's VSS and the Paillier keys are kept. Q, the chain code and the private share come from hd_key's outputs. The loop equals the specification `Child` |
| `Party1Properties.KeyGenRunAssembles` | src/ecdsa/two_party_gg18/party1.rs:64-160 | a completed key generation holds Q = own y_i + counterparty's revealed y_i, the VSS schemes and Paillier keys in party order, and the given chain code; the VSS check accepted the kept share 0 with the counterparty's share |
| `Party1Properties.KeyGenRunFailures` | src/ecdsa/two_party_gg18/party1.rs:82-144 | key generation fails with InvalidKey exactly when the commitment check rejects, and it fails only with InvalidKey, InvalidVss or BadDlogProof |
| `Party1Properties.KeyGenEstablishesJointKey` | src/ecdsa/two_party_gg18/party1.rs:112-150 | if the VSS check compares each commitment[0] with the matching y_i, a completed key generation gives Q = C_0[0] + C_1[0] |
| `Party1Properties.RotationPreservesPublicKey` | src/ecdsa/two_party_gg18/party1.rs:371-427 | a completed rotation keeps Q and the chain code |
| `Party1Properties.RotationRejectsDrift` | src/ecdsa/two_party_gg18/party1.rs:379-388 | a rotation ends in RotationMismatch if and only if the refreshed public shares do not add up to Q |
| `Party1Properties.RotationReestablishesJointKey` | src/ecdsa/two_party_gg18/party1.rs:391-427 | under the same VSS check, a rotated key satisfies Q = C_0[0] + C_1[0] again |
| `Party1Properties.RotationGateAcceptsOneShare` | src/ecdsa/two_party_gg18/party1.rs:380-381 | for Party 1's own refreshed share y_1, the gate accepts exactly one counterparty share, Q - y_1 |
| `Party1Properties.ChildPreservesJointKey` | src/ecdsa/two_party_gg18/party1.rs:429-457 | if hd_key's child key is Q + G·f_l, a child of a key with Q = C_0[0] + C_1[0] keeps that invariant |
| `Party1Properties.ChildOfConsistentKey` | src/ecdsa/two_party_gg18/party1.rs:435-446 | for a consistent key, derivation fails if and only if the counterparty's (index 1) commitment vector is longer than the own (index 0) vector |

## Left out

- Library internals are not modelled: commitments and decommitments, the Paillier key proof, Feldman VSS sharing and checking, the dlog proof, `Keys::create`, `create_from`, `set_private`, `refresh_private_key`, `update_private_key`, `hd_key` and `bytes_compressed_to_big_int`. Their code cannot be seen, so each one is an uninterpreted function in `Library`. Three facts about them are stated as hypotheses of the members that use them, not proved: `distribute` returns at least two shares when it succeeds (`DistributesShares`), the VSS check compares commitment[0] with y_i (`VssGateChecksPublicShares`), and `hd_key` adds G·f_l (`HdKeyAddsTweak`).
- Randomness is not modelled as a distribution. A fresh share, Paillier key pair or blinding factor is whatever the `Library` functions return for that run.
- `key_gen_zero_message_transform` (the bridge from Lindell 2017 keys) is not modelled. Its input type and its MtA call belong to the Lindell 2017 module, which is not part of this model.
- `sign_first_message`, `sign_second_message`, `sign_third_message`, `sign_fifth_message`, `sign_seventh_message`, `sign_ninth_message` and `output_signature` are not modelled. They consist of Paillier MtA, range proofs, delta/sigma arithmetic, the phase-4 and phase-5 computations of R and s_i, and ECDSA verification, all inside the library.
- The ECDSA correctness, unforgeability and forward-secrecy properties are not stated, because they depend on the cryptography left out above.
- Counterparty (Party 2) code is not modelled. Its messages are inputs, so agreement of both parties on Q is not stated. The model states that Party 1's Q is the sum of the two revealed public shares.
- Serialization (serde derives) and the `Clone` calls have no counterpart, because values are immutable here.
