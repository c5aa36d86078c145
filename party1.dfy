/**
 * Party 1's side of two-party GG18 ECDSA (`impl MasterKey1` in
 * src/ecdsa/two_party_gg18/party1.rs): the key-generation phases, the
 * rotation phases, BIP32 child derivation and the message wrappers.
 *
 * Library calls go through `lib: Library`. A failed library verification,
 * which the source turns into a panic with `expect` or `assert_eq!`, is an
 * `Err` here.
 */
module Party1 {
  import opened Curve
  import opened Primitives
  import opened TwoPartyGg18

  /** Why a phase aborts. */
  datatype Error =
    | InvalidKey         // commitment or Paillier-key proof rejected ("invalid key")
    | InvalidVss         // counterparty's VSS share rejected ("invalid vss")
    | BadDlogProof       // proof of knowledge of a public share rejected ("bad dlog proof")
    | RotationMismatch   // refreshed public shares do not add up to Q
    | MissingCommitment  // own commitment vector empty, or shorter than the counterparty's, during derivation

  datatype Result<T> = Ok(value: T) | Err(error: Error)

  /** Threshold 1 of 2: both shares are needed to sign. */
  const Params: Parameters := Parameters(1, 2)

  /** Party 1's index in the key-generation library calls. */
  const PartyIndex: nat := 1

  /** Output of the first key-generation (or rotation) message. */
  datatype FirstMessage = FirstMessage(message1: KeyGenMessage1, keys: Keys, decom: KeyGenDecommitMessage1)

  /** Output of the third message: what is sent, the share kept, and the y and Paillier vectors. */
  datatype ThirdMessage = ThirdMessage(message3: KeyGenMessage3, ssShare0: Scalar, yVec: seq<Point>, paillierEncVec: seq<EncryptionKey>)

  /** Output of the fourth message. */
  datatype FourthMessage = FourthMessage(message4: KeyGenMessage4, sharedKeys: SharedKeys, vssVec: seq<VerifiableSS>)

  // ---------------------------------------------------------------------
  // Key generation

  /**
   * Message 1. A zero `u` asks the library for a fresh random share;
   * any other `u` becomes the secret share. Party index 1 either way.
   */
  function KeyGenFirstMessage(lib: Library, u: Scalar): (r: FirstMessage)
    ensures u == 0 ==> r.keys == lib.create(PartyIndex)
    ensures u != 0 ==> r.keys == lib.createFrom(u, PartyIndex)
    ensures r.message1.bc_i == lib.broadcast(r.keys).0 && r.decom == lib.broadcast(r.keys).1
  {
    var partyKeys := if u == 0 then lib.create(PartyIndex) else lib.createFrom(u, PartyIndex);
    var (bc_i, decom_i) := lib.broadcast(partyKeys);
    FirstMessage(KeyGenMessage1(bc_i), partyKeys, decom_i)
  }

  /** Message 2 reveals the decommitment unchanged. */
  function KeyGenSecondMessage(decom: KeyGenDecommitMessage1): (m: KeyGenMessage2)
    ensures m.decom_i == decom
  {
    KeyGenMessage2(decom)
  }

  /**
   * The library hands back one secret share per party (share_count of
   * them); message 3 reads the first two.
   */
  predicate DistributesShares(lib: Library, partyKeys: Keys, p1m1: KeyGenMessage1, p2m1: KeyGenMessage1,
                              p1m2: KeyGenMessage2, p2m2: KeyGenMessage2)
  {
    var d := lib.distribute(partyKeys, Params, [p1m2.decom_i, p2m2.decom_i], [p1m1.bc_i, p2m1.bc_i]);
    d.Some? ==> |d.value.secretShares| >= 2
  }

  /**
   * Message 3. Verifies both parties' commitments and key proofs (own entry
   * first), shares Party 1's own secret, sends the counterparty share index 1 and
   * keeps share index 0.
   */
  function KeyGenThirdMessage(lib: Library, partyKeys: Keys, p1m1: KeyGenMessage1, p2m1: KeyGenMessage1,
                              p1m2: KeyGenMessage2, p2m2: KeyGenMessage2): (r: Result<ThirdMessage>)
    requires DistributesShares(lib, partyKeys, p1m1, p2m1, p1m2, p2m2)
    ensures var d := lib.distribute(partyKeys, Params, [p1m2.decom_i, p2m2.decom_i], [p1m1.bc_i, p2m1.bc_i]);
      (r.Err? <==> d.None?) && (r.Err? ==> r.error == InvalidKey) &&
      (r.Ok? ==> r.value.message3 == KeyGenMessage3(d.value.vssScheme, d.value.secretShares[1]) &&
                 r.value.ssShare0 == d.value.secretShares[0])
    ensures r.Ok? ==> r.value.yVec == [partyKeys.y_i, p2m2.decom_i.y_i]
    ensures r.Ok? ==> r.value.paillierEncVec == [p1m1.bc_i.e, p2m1.bc_i.e]
  {
    var ySlice := [partyKeys.y_i, p2m2.decom_i.y_i];
    var decomSlice := [p1m2.decom_i, p2m2.decom_i];
    var bc1Slice := [p1m1.bc_i, p2m1.bc_i];
    var paillierEncSlice := [p1m1.bc_i.e, p2m1.bc_i.e];
    match lib.distribute(partyKeys, Params, decomSlice, bc1Slice)
    case None => Err(InvalidKey)
    case Some(d) =>
      Ok(ThirdMessage(KeyGenMessage3(d.vssScheme, d.secretShares[1]), d.secretShares[0], ySlice, paillierEncSlice))
  }

  /**
   * Message 4. Checks the two VSS schemes (own first) against the y-vector
   * and the two shares Party 1 holds, builds the combined key share and a
   * dlog proof of it.
   */
  function KeyGenFourthMessage(lib: Library, partyKeys: Keys, p1m3: KeyGenMessage3, p2m3: KeyGenMessage3,
                               ssShare0: Scalar, yVec: seq<Point>): (r: Result<FourthMessage>)
    ensures var c := lib.constructKeypair(partyKeys, Params, yVec, [ssShare0, p2m3.secretShare],
                                          [p1m3.vssScheme, p2m3.vssScheme], PartyIndex);
      (r.Err? <==> c.None?) && (r.Err? ==> r.error == InvalidVss) &&
      (r.Ok? ==> r.value.message4 == KeyGenMessage4(c.value.1) && r.value.sharedKeys == c.value.0)
    ensures r.Ok? ==> r.value.vssVec == [p1m3.vssScheme, p2m3.vssScheme]
  {
    var vssSlice := [p1m3.vssScheme, p2m3.vssScheme];
    var ssSlice := [ssShare0, p2m3.secretShare];
    match lib.constructKeypair(partyKeys, Params, yVec, ssSlice, vssSlice, PartyIndex)
    case None => Err(InvalidVss)
    case Some((sharedKeys, dlogProof)) => Ok(FourthMessage(KeyGenMessage4(dlogProof), sharedKeys, vssSlice))
  }

  /**
   * Final assembly. Both dlog proofs must verify against the y-vector; then
   * Q = y_vec[0] + y_vec[1], and the VSS and Paillier vectors and the chain
   * code are stored as given.
   */
  function SetMasterKey(lib: Library, p1m4: KeyGenMessage4, p2m4: KeyGenMessage4, yVec: seq<Point>,
                        partyKeys: Keys, sharedKeys: SharedKeys, vssVec: seq<VerifiableSS>,
                        paillierEncVec: seq<EncryptionKey>, chainCode: int): (r: Result<MasterKey1>)
    requires |yVec| >= 2
    ensures r.Err? <==> !lib.verifyDlogProofs(Params, [p1m4.dlogProof, p2m4.dlogProof], yVec)
    ensures r.Err? ==> r.error == BadDlogProof
    ensures r.Ok? ==> r.value.public.q == Add(yVec[0], yVec[1])
    ensures r.Ok? ==> r.value.public.vssSchemeVec == vssVec && r.value.public.paillierKeyVec == paillierEncVec
    ensures r.Ok? ==> r.value.private == lib.setPrivate(partyKeys, sharedKeys) && r.value.chainCode == chainCode
  {
    var dlogProof := [p1m4.dlogProof, p2m4.dlogProof];
    if !lib.verifyDlogProofs(Params, dlogProof, yVec) then
      Err(BadDlogProof)
    else
      var masterKeyPublic := MasterKeyPublic(Add(yVec[0], yVec[1]), vssVec, paillierEncVec);
      Ok(MasterKey1(masterKeyPublic, lib.setPrivate(partyKeys, sharedKeys), chainCode))
  }

  // ---------------------------------------------------------------------
  // Signing: the messages that only wrap what an earlier phase produced

  function SignFourthMessage(decommit: SignDecommitPhase1): (m: SignMessage4)
    ensures m.decommit == decommit
  {
    SignMessage4(decommit)
  }

  function SignSixthMessage(phase5aDecom: Phase5ADecom1, helgamalProof: HomoElGamalProof): (m: SignMessage6)
    ensures m.phase5aDecom == phase5aDecom && m.helgamalProof == helgamalProof
  {
    SignMessage6(phase5aDecom, helgamalProof)
  }

  function SignEighthMessage(phase5dDecom2: Phase5DDecom2): (m: SignMessage8)
    ensures m.phase5dDecom2 == phase5dDecom2
  {
    SignMessage8(phase5dDecom2)
  }

  // ---------------------------------------------------------------------
  // Rotation

  /** Rotation message 1: a key share refreshed by the shared factor, party index 1. */
  function RotationFirstMessage(lib: Library, mk: MasterKey1, cf: Rotation): (r: FirstMessage)
    ensures r.keys == lib.refreshPrivateKey(mk.private, cf.rotation, PartyIndex)
    ensures r.message1.bc_i == lib.broadcast(r.keys).0 && r.decom == lib.broadcast(r.keys).1
  {
    var partyKeys := lib.refreshPrivateKey(mk.private, cf.rotation, PartyIndex);
    var (bc_i, decom_i) := lib.broadcast(partyKeys);
    FirstMessage(KeyGenMessage1(bc_i), partyKeys, decom_i)
  }

  function RotationSecondMessage(decom: KeyGenDecommitMessage1): (m: KeyGenMessage2)
    ensures m.decom_i == decom
  {
    KeyGenMessage2(decom)
  }

  /**
   * Rotation message 3: aborts unless the two refreshed public shares still
   * add up to the current Q, and is otherwise key-generation message 3.
   */
  function RotationThirdMessage(lib: Library, mk: MasterKey1, partyKeys: Keys, p1m1: KeyGenMessage1,
                                p2m1: KeyGenMessage1, p1m2: KeyGenMessage2, p2m2: KeyGenMessage2): (r: Result<ThirdMessage>)
    requires DistributesShares(lib, partyKeys, p1m1, p2m1, p1m2, p2m2)
    ensures r == Err(RotationMismatch) <==> Add(partyKeys.y_i, p2m2.decom_i.y_i) != mk.public.q
    ensures Add(partyKeys.y_i, p2m2.decom_i.y_i) == mk.public.q ==>
              r == KeyGenThirdMessage(lib, partyKeys, p1m1, p2m1, p1m2, p2m2)
  {
    var ySumNew := Add(partyKeys.y_i, p2m2.decom_i.y_i);
    if ySumNew != mk.public.q then
      Err(RotationMismatch)
    else
      KeyGenThirdMessage(lib, partyKeys, p1m1, p2m1, p1m2, p2m2)
  }

  /** Rotation message 4 is key-generation message 4. */
  function RotationFourthMessage(lib: Library, partyKeys: Keys, p1m3: KeyGenMessage3, p2m3: KeyGenMessage3,
                                 ssShare0: Scalar, yVec: seq<Point>): (r: Result<FourthMessage>)
    ensures r == KeyGenFourthMessage(lib, partyKeys, p1m3, p2m3, ssShare0, yVec)
  {
    KeyGenFourthMessage(lib, partyKeys, p1m3, p2m3, ssShare0, yVec)
  }

  /** Assembles the rotated key; the chain code is the current key's. */
  function RotateMasterKey(lib: Library, mk: MasterKey1, p1m4: KeyGenMessage4, p2m4: KeyGenMessage4,
                           yVec: seq<Point>, partyKeys: Keys, sharedKeys: SharedKeys,
                           vssVec: seq<VerifiableSS>, paillierEncVec: seq<EncryptionKey>): (r: Result<MasterKey1>)
    requires |yVec| >= 2
    ensures r == SetMasterKey(lib, p1m4, p2m4, yVec, partyKeys, sharedKeys, vssVec, paillierEncVec, mk.chainCode)
    ensures r.Ok? ==> r.value.chainCode == mk.chainCode
  {
    SetMasterKey(lib, p1m4, p2m4, yVec, partyKeys, sharedKeys, vssVec, paillierEncVec, mk.chainCode)
  }

  // ---------------------------------------------------------------------
  // Child derivation

  /**
   * The own (index 0) commitment vector of the child key, `n` long: the first
   * commitment shifted by G·fl, the others copied.
   */
  ghost function ChildCommitments(c0: seq<Point>, n: nat, fl: Scalar): seq<Point>
    requires 0 < |c0| && n <= |c0|
  {
    seq(n, i requires 0 <= i < n => if i == 0 then Add(c0[0], Mul(Generator(), fl)) else c0[i])
  }

  /** The child key `get_child` derives, or the panic it runs into. */
  ghost function Child(lib: Library, mk: MasterKey1, locationInHir: seq<int>): Result<MasterKey1>
    requires |mk.public.vssSchemeVec| >= 2
  {
    var (publicKeyNewChild, flNew, ccNew) := lib.hdKey(locationInHir, mk.public.q, mk.chainCode);
    var vss0 := mk.public.vssSchemeVec[0];
    var vss1 := mk.public.vssSchemeVec[1];
    if |vss0.commitments| == 0 || |vss0.commitments| < |vss1.commitments| then
      Err(MissingCommitment)
    else
      var newVss := VerifiableSS(vss0.parameters, ChildCommitments(vss0.commitments, |vss1.commitments|, flNew));
      var masterKeyPublic := MasterKeyPublic(publicKeyNewChild, [newVss, vss1], mk.public.paillierKeyVec);
      Ok(MasterKey1(masterKeyPublic, lib.updatePrivateKey(mk.private, flNew, flNew), lib.bytesCompressedToBigInt(ccNew)))
  }

  /**
   * BIP32 child derivation. The tweak f_l is absorbed by Party 1 itself: its
   * own VSS commitment vector (index 0, the one key generation stored first)
   * has its first commitment shifted by G·f_l, and its private share is
   * updated by f_l. The remaining own commitments are read off an iterator
   * over the old vector, as many as the counterparty's vector (index 1) is
   * long. The counterparty's vector and the Paillier keys are kept; Q and the
   * chain code are replaced by hd_key's.
   */
  method GetChild(lib: Library, mk: MasterKey1, locationInHir: seq<int>) returns (r: Result<MasterKey1>)
    requires |mk.public.vssSchemeVec| >= 2
    ensures r == Child(lib, mk, locationInHir)
    ensures var c0, c1 := mk.public.vssSchemeVec[0].commitments, mk.public.vssSchemeVec[1].commitments;
      r.Ok? <==> 0 < |c0| && |c1| <= |c0|
    ensures r.Ok? ==>
      var hd := lib.hdKey(locationInHir, mk.public.q, mk.chainCode);
      var c0, c1 := mk.public.vssSchemeVec[0].commitments, mk.public.vssSchemeVec[1].commitments;
      var newVssVec := r.value.public.vssSchemeVec;
      |newVssVec| == 2 &&
      newVssVec[0].parameters == mk.public.vssSchemeVec[0].parameters &&
      |newVssVec[0].commitments| == |c1| &&
      (0 < |c1| ==> newVssVec[0].commitments[0] == Add(c0[0], Mul(Generator(), hd.1))) &&
      (forall i :: 0 < i < |c1| ==> newVssVec[0].commitments[i] == c0[i]) &&
      newVssVec[1] == mk.public.vssSchemeVec[1]
    ensures r.Ok? ==>
      var hd := lib.hdKey(locationInHir, mk.public.q, mk.chainCode);
      r.value.public.q == hd.0 &&
      r.value.public.paillierKeyVec == mk.public.paillierKeyVec &&
      r.value.private == lib.updatePrivateKey(mk.private, hd.1, hd.1) &&
      r.value.chainCode == lib.bytesCompressedToBigInt(hd.2)
  {
    var (publicKeyNewChild, flNew, ccNew) := lib.hdKey(locationInHir, mk.public.q, mk.chainCode);
    var g := Generator();
    var vss0 := mk.public.vssSchemeVec[0];
    var vss1 := mk.public.vssSchemeVec[1];
    if |vss0.commitments| == 0 {
      return Err(MissingCommitment);
    }
    var comZeroNew := Add(vss0.commitments[0], Mul(g, flNew));
    // position of the iterator over the own commitments, after skipping the first
    var next := 1;
    var comVecNew: seq<Point> := [];
    var i := 0;
    while i < |vss1.commitments|
      invariant 0 <= i <= |vss1.commitments|
      invariant next == if i == 0 then 1 else i
      invariant next <= |vss0.commitments|
      invariant |comVecNew| == i
      invariant forall k :: 0 <= k < i ==> comVecNew[k] == if k == 0 then comZeroNew else vss0.commitments[k]
    {
      if i == 0 {
        comVecNew := comVecNew + [comZeroNew];
      } else {
        if next == |vss0.commitments| {
          return Err(MissingCommitment);
        }
        comVecNew := comVecNew + [vss0.commitments[next]];
        next := next + 1;
      }
      i := i + 1;
    }
    assert comVecNew == ChildCommitments(vss0.commitments, |vss1.commitments|, flNew);
    var newVss := VerifiableSS(vss0.parameters, comVecNew);
    var masterKeyPublic := MasterKeyPublic(publicKeyNewChild, [newVss, vss1], mk.public.paillierKeyVec);
    var masterKeyPrivate := lib.updatePrivateKey(mk.private, flNew, flNew);
    r := Ok(MasterKey1(masterKeyPublic, masterKeyPrivate, lib.bytesCompressedToBigInt(ccNew)));
  }
}
