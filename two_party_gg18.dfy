/**
 * The message envelopes and the long-term key of the two-party GG18 protocol,
 * as party1.rs builds and reads them. Every message is an immutable value
 * that wraps the library artefact it carries.
 */
module TwoPartyGg18 {
  import opened Curve
  import opened Primitives

  datatype KeyGenMessage1 = KeyGenMessage1(bc_i: KeyGenBroadcastMessage1)
  datatype KeyGenMessage2 = KeyGenMessage2(decom_i: KeyGenDecommitMessage1)
  datatype KeyGenMessage3 = KeyGenMessage3(vssScheme: VerifiableSS, secretShare: Scalar)
  datatype KeyGenMessage4 = KeyGenMessage4(dlogProof: DLogProof)

  datatype SignMessage4 = SignMessage4(decommit: SignDecommitPhase1)
  datatype SignMessage6 = SignMessage6(phase5aDecom: Phase5ADecom1, helgamalProof: HomoElGamalProof)
  datatype SignMessage8 = SignMessage8(phase5dDecom2: Phase5DDecom2)

  /**
   * The joint public key: Q, one Feldman commitment vector per party
   * (index 0 is this party's, index 1 the counterparty's) and the two
   * parties' Paillier keys in the same order.
   */
  datatype MasterKeyPublic = MasterKeyPublic(q: Point, vssSchemeVec: seq<VerifiableSS>, paillierKeyVec: seq<EncryptionKey>)

  /** Party 1's long-term key: public part, private share and BIP32 chain code. */
  datatype MasterKey1 = MasterKey1(public: MasterKeyPublic, private: PartyPrivate, chainCode: int)

  /**
   * The invariant the joint public key is meant to keep: Q is the sum of the
   * two parties' commitments to their constant terms.
   */
  predicate JointKeyConsistent(pk: MasterKeyPublic)
  {
    |pk.vssSchemeVec| >= 2 &&
    |pk.vssSchemeVec[0].commitments| > 0 &&
    |pk.vssSchemeVec[1].commitments| > 0 &&
    pk.q == Add(pk.vssSchemeVec[0].commitments[0], pk.vssSchemeVec[1].commitments[0])
  }
}
