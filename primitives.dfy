/**
 * The external collaborators of Party 1: the GG18 multi-party ECDSA library
 * (key shares, Feldman VSS, the dlog proof of knowledge), curv, Paillier and
 * the HD-derivation helper.
 *
 * Only the records that party1.rs reads or builds are given, with the fields
 * it touches plus the ones that identify them. The library's code is not part
 * of this model: each entry point that party1.rs calls is a field of
 * `Library`, a function that the operations receive and never look inside.
 * Randomness drawn by the library (fresh key shares, Paillier key pairs,
 * blinding factors) is folded into these functions: one `Library` value
 * stands for the library's answers in one protocol run.
 */
module Primitives {
  import opened Curve

  datatype Option<T> = None | Some(value: T)

  /** Paillier public key, given by its modulus. */
  datatype EncryptionKey = EncryptionKey(n: nat)

  /** Paillier private key, given by the factors of the modulus. */
  datatype DecryptionKey = DecryptionKey(p: nat, q: nat)

  /** gg18 `Parameters`. */
  datatype Parameters = Parameters(threshold: nat, shareCount: nat)

  /** curv `ShamirSecretSharing`, the parameters stored inside a Feldman VSS. */
  datatype ShamirSecretSharing = ShamirSecretSharing(threshold: nat, shareCount: nat)

  /** curv `VerifiableSS`: Feldman commitments to the coefficients of a sharing polynomial. */
  datatype VerifiableSS = VerifiableSS(parameters: ShamirSecretSharing, commitments: seq<Point>)

  /** gg18 `Keys`: one party's key-generation material. */
  datatype Keys = Keys(u_i: Scalar, y_i: Point, dk: DecryptionKey, ek: EncryptionKey, partyIndex: nat)

  /** zk-paillier's non-interactive proof that a Paillier key is well formed. */
  datatype NiCorrectKeyProof = NiCorrectKeyProof(sigma: seq<int>)

  /** gg18 `KeyGenBroadcastMessage1`: Paillier key, hash commitment to y_i, key proof. */
  datatype KeyGenBroadcastMessage1 = KeyGenBroadcastMessage1(e: EncryptionKey, com: int, correctKeyProof: NiCorrectKeyProof)

  /** gg18 `KeyGenDecommitMessage1`: the opening of the commitment. */
  datatype KeyGenDecommitMessage1 = KeyGenDecommitMessage1(blindFactor: int, y_i: Point)

  /** gg18 `SharedKeys`: the joint public key and this party's combined share x_i. */
  datatype SharedKeys = SharedKeys(y: Point, x_i: Scalar)

  /** curv `DLogProof`: Schnorr proof of knowledge of log_G(pk). */
  datatype DLogProof = DLogProof(pk: Point, pkTRandCommitment: Point, challengeResponse: Scalar)

  /** gg18 `PartyPrivate`: the long-term private material. */
  datatype PartyPrivate = PartyPrivate(u_i: Scalar, x_i: Scalar, dk: DecryptionKey)

  /** gg18 `SignDecommitPhase1`: opening of the commitment to g^gamma_i. */
  datatype SignDecommitPhase1 = SignDecommitPhase1(blindFactor: int, gGammaI: Point)

  /** gg18 `Phase5ADecom1`. */
  datatype Phase5ADecom1 = Phase5ADecom1(vI: Point, aI: Point, bI: Point, blindFactor: int)

  /** curv `HomoELGamalProof`. */
  datatype HomoElGamalProof = HomoElGamalProof(t: Point, a3: Point, z1: Scalar, z2: Scalar)

  /** gg18 `Phase5DDecom2`. */
  datatype Phase5DDecom2 = Phase5DDecom2(uI: Point, tI: Point, blindFactor: int)

  /** The rotation crate's coin-flip result: the shared randomisation factor. */
  datatype Rotation = Rotation(rotation: Scalar)

  /** What `phase1_verify_com_phase3_verify_correct_key_phase2_distribute` returns on success. */
  datatype Distribution = Distribution(vssScheme: VerifiableSS, secretShares: seq<Scalar>, index: nat)

  /** The library entry points party1.rs calls. */
  datatype Library = Library(
    // Keys::create(index): a fresh random share
    create: nat -> Keys,
    // Keys::create_from(u, index)
    createFrom: (Scalar, nat) -> Keys,
    // Keys::phase1_broadcast_phase3_proof_of_correct_key
    broadcast: Keys -> (KeyGenBroadcastMessage1, KeyGenDecommitMessage1),
    // Keys::phase1_verify_com_phase3_verify_correct_key_phase2_distribute(self, params, decoms, bcs)
    distribute: (Keys, Parameters, seq<KeyGenDecommitMessage1>, seq<KeyGenBroadcastMessage1>) -> Option<Distribution>,
    // Keys::phase2_verify_vss_construct_keypair_phase3_pok_dlog(self, params, y_vec, shares, vss_vec, index)
    constructKeypair: (Keys, Parameters, seq<Point>, seq<Scalar>, seq<VerifiableSS>, nat) -> Option<(SharedKeys, DLogProof)>,
    // Keys::verify_dlog_proofs(params, proofs, y_vec)
    verifyDlogProofs: (Parameters, seq<DLogProof>, seq<Point>) -> bool,
    // PartyPrivate::set_private(keys, shared_keys)
    setPrivate: (Keys, SharedKeys) -> PartyPrivate,
    // PartyPrivate::refresh_private_key(self, factor, index)
    refreshPrivateKey: (PartyPrivate, Scalar, nat) -> Keys,
    // PartyPrivate::update_private_key(self, factor_u_i, factor_x_i)
    updatePrivateKey: (PartyPrivate, Scalar, Scalar) -> PartyPrivate,
    // hd_key(path, q, chain_code) == (child public key, tweak f_l, new chain code point)
    hdKey: (seq<int>, Point, int) -> (Point, Scalar, Point),
    // GE::bytes_compressed_to_big_int
    bytesCompressedToBigInt: Point -> int
  )

  /**
   * What the VSS gate of `phase2_verify_vss_construct_keypair_phase3_pok_dlog`
   * checks before it accepts: each party's Feldman commitment to the constant
   * term is that party's public share y_i.
   */
  ghost predicate VssGateChecksPublicShares(lib: Library)
  {
    forall keys: Keys, params: Parameters, yVec: seq<Point>, shares: seq<Scalar>, vssVec: seq<VerifiableSS>, index: nat ::
      lib.constructKeypair(keys, params, yVec, shares, vssVec, index).Some? ==>
        |yVec| == |vssVec| &&
        forall i :: 0 <= i < |vssVec| ==> |vssVec[i].commitments| > 0 && vssVec[i].commitments[0] == yVec[i]
  }

  /** Non-hardened BIP32 step of `hd_key`: the child key is the parent key plus G·f_l. */
  ghost predicate HdKeyAddsTweak(lib: Library)
  {
    forall path: seq<int>, q: Point, chainCode: int ::
      lib.hdKey(path, q, chainCode).0 == Add(q, Mul(Generator(), lib.hdKey(path, q, chainCode).1))
  }
}
