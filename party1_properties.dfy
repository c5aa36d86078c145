/**
 * Properties of Party 1's phases taken together: what a complete key
 * generation or rotation produces, and how child derivation keeps the
 * joint public key consistent with the commitment vectors.
 *
 * `KeyGenRun` and `RotationRun` chain the phases the way a caller drives
 * them, with the counterparty's messages as inputs.
 */
module Party1Properties {
  import opened Curve
  import opened Primitives
  import opened TwoPartyGg18
  import opened Party1

  /** Whether message 3 of a key generation started from `u` can read its two shares. */
  predicate KeyGenSharesReady(lib: Library, u: Scalar, p2m1: KeyGenMessage1, p2m2: KeyGenMessage2)
  {
    var first := KeyGenFirstMessage(lib, u);
    DistributesShares(lib, first.keys, first.message1, p2m1, KeyGenSecondMessage(first.decom), p2m2)
  }

  /** Key generation from message 1 to `set_master_key`, aborting at the first failed phase. */
  ghost function KeyGenRun(lib: Library, u: Scalar, p2m1: KeyGenMessage1, p2m2: KeyGenMessage2,
                           p2m3: KeyGenMessage3, p2m4: KeyGenMessage4, chainCode: int): Result<MasterKey1>
    requires KeyGenSharesReady(lib, u, p2m1, p2m2)
  {
    var first := KeyGenFirstMessage(lib, u);
    var p1m2 := KeyGenSecondMessage(first.decom);
    match KeyGenThirdMessage(lib, first.keys, first.message1, p2m1, p1m2, p2m2)
    case Err(e) => Err(e)
    case Ok(third) =>
      match KeyGenFourthMessage(lib, first.keys, third.message3, p2m3, third.ssShare0, third.yVec)
      case Err(e) => Err(e)
      case Ok(fourth) =>
        SetMasterKey(lib, fourth.message4, p2m4, third.yVec, first.keys, fourth.sharedKeys,
                     fourth.vssVec, third.paillierEncVec, chainCode)
  }

  /**
   * A completed key generation holds Q = y_1 + y_2 (Party 1's own share and the
   * counterparty's revealed share), the two VSS schemes in party order, the
   * two Paillier keys in party order and the given chain code; the VSS gate
   * was passed on the share Party 1 kept and the share the counterparty sent.
   */
  lemma KeyGenRunAssembles(lib: Library, u: Scalar, p2m1: KeyGenMessage1, p2m2: KeyGenMessage2,
                                              p2m3: KeyGenMessage3, p2m4: KeyGenMessage4, chainCode: int)
    requires KeyGenSharesReady(lib, u, p2m1, p2m2)
    ensures var r := KeyGenRun(lib, u, p2m1, p2m2, p2m3, p2m4, chainCode);
      var first := KeyGenFirstMessage(lib, u);
      var d := lib.distribute(first.keys, Params, [first.decom, p2m2.decom_i], [first.message1.bc_i, p2m1.bc_i]);
      r.Ok? ==>
        d.Some? &&
        r.value.public.q == Add(first.keys.y_i, p2m2.decom_i.y_i) &&
        r.value.public.vssSchemeVec == [d.value.vssScheme, p2m3.vssScheme] &&
        r.value.public.paillierKeyVec == [first.message1.bc_i.e, p2m1.bc_i.e] &&
        r.value.chainCode == chainCode &&
        lib.constructKeypair(first.keys, Params, [first.keys.y_i, p2m2.decom_i.y_i],
                             [d.value.secretShares[0], p2m3.secretShare],
                             [d.value.vssScheme, p2m3.vssScheme], PartyIndex).Some?
  {
  }

  /** Key generation aborts only at its three verification gates, each with its own error. */
  lemma KeyGenRunFailures(lib: Library, u: Scalar, p2m1: KeyGenMessage1, p2m2: KeyGenMessage2,
                                             p2m3: KeyGenMessage3, p2m4: KeyGenMessage4, chainCode: int)
    requires KeyGenSharesReady(lib, u, p2m1, p2m2)
    ensures var r := KeyGenRun(lib, u, p2m1, p2m2, p2m3, p2m4, chainCode);
      var first := KeyGenFirstMessage(lib, u);
      var d := lib.distribute(first.keys, Params, [first.decom, p2m2.decom_i], [first.message1.bc_i, p2m1.bc_i]);
      (r == Err(InvalidKey) <==> d.None?) &&
      (r.Err? ==> r.error == InvalidKey || r.error == InvalidVss || r.error == BadDlogProof)
  {
  }

  /** If the library's VSS gate checks the public shares, key generation yields a consistent joint key. */
  lemma KeyGenEstablishesJointKey(lib: Library, u: Scalar, p2m1: KeyGenMessage1, p2m2: KeyGenMessage2,
                                                     p2m3: KeyGenMessage3, p2m4: KeyGenMessage4, chainCode: int)
    requires KeyGenSharesReady(lib, u, p2m1, p2m2)
    requires VssGateChecksPublicShares(lib)
    ensures var r := KeyGenRun(lib, u, p2m1, p2m2, p2m3, p2m4, chainCode);
      r.Ok? ==> JointKeyConsistent(r.value.public)
  {
  }

  // ---------------------------------------------------------------------
  // Rotation

  /** Whether rotation message 3 can read its two shares. */
  predicate RotationSharesReady(lib: Library, mk: MasterKey1, cf: Rotation, p2m1: KeyGenMessage1, p2m2: KeyGenMessage2)
  {
    var first := RotationFirstMessage(lib, mk, cf);
    DistributesShares(lib, first.keys, first.message1, p2m1, RotationSecondMessage(first.decom), p2m2)
  }

  /** Rotation from message 1 to `rotate_master_key`, aborting at the first failed phase. */
  ghost function RotationRun(lib: Library, mk: MasterKey1, cf: Rotation, p2m1: KeyGenMessage1, p2m2: KeyGenMessage2,
                             p2m3: KeyGenMessage3, p2m4: KeyGenMessage4): Result<MasterKey1>
    requires RotationSharesReady(lib, mk, cf, p2m1, p2m2)
  {
    var first := RotationFirstMessage(lib, mk, cf);
    var p1m2 := RotationSecondMessage(first.decom);
    match RotationThirdMessage(lib, mk, first.keys, first.message1, p2m1, p1m2, p2m2)
    case Err(e) => Err(e)
    case Ok(third) =>
      match RotationFourthMessage(lib, first.keys, third.message3, p2m3, third.ssShare0, third.yVec)
      case Err(e) => Err(e)
      case Ok(fourth) =>
        RotateMasterKey(lib, mk, fourth.message4, p2m4, third.yVec, first.keys, fourth.sharedKeys,
                        fourth.vssVec, third.paillierEncVec)
  }

  /** A completed rotation keeps the joint public key Q and the chain code. */
  lemma RotationPreservesPublicKey(lib: Library, mk: MasterKey1, cf: Rotation, p2m1: KeyGenMessage1,
                                                      p2m2: KeyGenMessage2, p2m3: KeyGenMessage3, p2m4: KeyGenMessage4)
    requires RotationSharesReady(lib, mk, cf, p2m1, p2m2)
    ensures var r := RotationRun(lib, mk, cf, p2m1, p2m2, p2m3, p2m4);
      r.Ok? ==> r.value.public.q == mk.public.q && r.value.chainCode == mk.chainCode
  {
  }

  /** Rotation aborts with RotationMismatch exactly when the refreshed public shares drift from Q. */
  lemma RotationRejectsDrift(lib: Library, mk: MasterKey1, cf: Rotation, p2m1: KeyGenMessage1,
                                                p2m2: KeyGenMessage2, p2m3: KeyGenMessage3, p2m4: KeyGenMessage4)
    requires RotationSharesReady(lib, mk, cf, p2m1, p2m2)
    ensures var r := RotationRun(lib, mk, cf, p2m1, p2m2, p2m3, p2m4);
      var first := RotationFirstMessage(lib, mk, cf);
      r == Err(RotationMismatch) <==> Add(first.keys.y_i, p2m2.decom_i.y_i) != mk.public.q
  {
  }

  /** If the library's VSS gate checks the public shares, the rotated key is consistent again. */
  lemma RotationReestablishesJointKey(lib: Library, mk: MasterKey1, cf: Rotation, p2m1: KeyGenMessage1,
                                                         p2m2: KeyGenMessage2, p2m3: KeyGenMessage3, p2m4: KeyGenMessage4)
    requires RotationSharesReady(lib, mk, cf, p2m1, p2m2)
    requires VssGateChecksPublicShares(lib)
    ensures var r := RotationRun(lib, mk, cf, p2m1, p2m2, p2m3, p2m4);
      r.Ok? ==> JointKeyConsistent(r.value.public)
  {
  }

  /**
   * For a given refreshed own share y_1, the rotation gate lets through
   * exactly one counterparty share: Q - y_1.
   */
  lemma RotationGateAcceptsOneShare(lib: Library, mk: MasterKey1, partyKeys: Keys,
                                                       p1m1: KeyGenMessage1, p2m1: KeyGenMessage1,
                                                       p1m2: KeyGenMessage2, p2m2: KeyGenMessage2)
    requires DistributesShares(lib, partyKeys, p1m1, p2m1, p1m2, p2m2)
    ensures RotationThirdMessage(lib, mk, partyKeys, p1m1, p2m1, p1m2, p2m2) != Err(RotationMismatch) <==>
              p2m2.decom_i.y_i == Add(mk.public.q, Neg(partyKeys.y_i))
  {
    AddSolvedBy(partyKeys.y_i, p2m2.decom_i.y_i, mk.public.q);
  }

  // ---------------------------------------------------------------------
  // Child derivation

  /**
   * If hd_key adds G·f_l to Q, a child of a consistent key is consistent:
   * shifting the own (index 0) first commitment by the same G·f_l keeps
   * Q' = C_0[0] + C_1[0].
   */
  lemma ChildPreservesJointKey(lib: Library, mk: MasterKey1, locationInHir: seq<int>)
    requires HdKeyAddsTweak(lib)
    requires JointKeyConsistent(mk.public)
    ensures var r := Child(lib, mk, locationInHir);
      r.Ok? ==> JointKeyConsistent(r.value.public)
  {
  }

  /** A consistent key has a child unless its own (index 0) vector is shorter than the counterparty's (index 1). */
  lemma ChildOfConsistentKey(lib: Library, mk: MasterKey1, locationInHir: seq<int>)
    requires JointKeyConsistent(mk.public)
    ensures Child(lib, mk, locationInHir).Ok? <==>
              |mk.public.vssSchemeVec[1].commitments| <= |mk.public.vssSchemeVec[0].commitments|
  {
  }
}
