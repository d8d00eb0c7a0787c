/** The sender's side of a leg (`senderAffirmLeg`), and the affirmation protocol end to end. */
module SenderAffirmation {
  import opened Wrappers
  import opened Sequences
  import opened ProofServer
  import opened LegVerification
  import opened LegTheorems

  datatype AssetAuditors = AssetAuditors(asset: string, auditors: seq<string>)

  /** A leg of a confidential transaction; its id is its index among the legs. */
  datatype Leg = Leg(sender: string, receiver: string, assetAuditors: seq<AssetAuditors>)

  datatype ConfidentialProof = ConfidentialProof(asset: string, proof: Proof)

  datatype SenderError = InvalidLegId | AssetNotInLeg | ServiceFailed

  ghost predicate Listed(leg: Leg, asset: string) {
    exists a :: a in leg.assetAuditors && a.asset == asset
  }

  ghost predicate IsFirstListed(leg: Leg, asset: string, i: int) {
    && 0 <= i < |leg.assetAuditors| && leg.assetAuditors[i].asset == asset
    && forall j :: 0 <= j < i ==> leg.assetAuditors[j].asset != asset
  }

  /** The leg's first entry for the asset. */
  function AssetAuditorOf(leg: Leg, asset: string): (r: Option<AssetAuditors>)
    ensures r.Some? <==> Listed(leg, asset)
    ensures r.Some? ==> exists i :: IsFirstListed(leg, asset, i) && leg.assetAuditors[i] == r.value
  {
    var i := FindIndex(leg.assetAuditors, (a: AssetAuditors) => a.asset == asset);
    assert i >= 0 ==> IsFirstListed(leg, asset, i);
    if i < 0 then None else Some(leg.assetAuditors[i])
  }

  function AuditorsOf(leg: Leg, asset: string): seq<string> {
    var found := AssetAuditorOf(leg, asset);
    if found.Some? then found.value.auditors else []
  }

  /**
   A submitted proof is for the requested asset and binds the requested amount, the leg's receiver, the
   auditors the leg first lists for that asset, and the sender's encrypted balance of it.
   */
  ghost predicate Proves(leg: Leg, balance: (string, string) -> string, a: LegAmount, p: ConfidentialProof) {
    && p.asset == a.confidentialAsset
    && p.proof.sender == leg.sender
    && p.proof.info.amount == a.amount
    && p.proof.info.receiver == leg.receiver
    && p.proof.info.encryptedBalance == balance(leg.sender, a.confidentialAsset)
    && exists i :: IsFirstListed(leg, a.confidentialAsset, i) && p.proof.info.auditors == leg.assetAuditors[i].auditors
  }

  /** The proof that stands for one requested amount: amount, receiver and ordered auditors bound together. */
  function ProofFor(leg: Leg, balance: (string, string) -> string, a: LegAmount): ConfidentialProof {
    ConfidentialProof(a.confidentialAsset,
                      Proof(leg.sender, SenderInfo(a.amount, AuditorsOf(leg, a.confidentialAsset), leg.receiver,
                                                   balance(leg.sender, a.confidentialAsset))))
  }

  lemma ProofForProves(leg: Leg, balance: (string, string) -> string, a: LegAmount)
    requires Listed(leg, a.confidentialAsset)
    ensures Proves(leg, balance, a, ProofFor(leg, balance, a))
  {
    var found := AssetAuditorOf(leg, a.confidentialAsset);
    var i :| IsFirstListed(leg, a.confidentialAsset, i) && leg.assetAuditors[i] == found.value;
  }

  ghost predicate Obstructed(leg: Leg, legAmounts: seq<LegAmount>, failing: set<nat>, j: nat)
    requires j < |legAmounts|
  {
    !Listed(leg, legAmounts[j].confidentialAsset) || j in failing
  }

  lemma AllProved(leg: Leg, legAmounts: seq<LegAmount>, balance: (string, string) -> string, failing: set<nat>,
                  proofs: seq<ConfidentialProof>)
    requires |proofs| == |legAmounts| && forall k: nat :: k < |legAmounts| ==> !Obstructed(leg, legAmounts, failing, k)
    requires forall k :: 0 <= k < |legAmounts| ==> proofs[k] == ProofFor(leg, balance, legAmounts[k])
    ensures forall k :: 0 <= k < |legAmounts| ==> Proves(leg, balance, legAmounts[k], proofs[k])
  {
    forall k | 0 <= k < |legAmounts| ensures Proves(leg, balance, legAmounts[k], proofs[k]) {
      assert !Obstructed(leg, legAmounts, failing, k);
      ProofForProves(leg, balance, legAmounts[k]);
    }
  }

  /**
   `senderAffirmLeg` up to its submission: a success carries the submitted proofs. `failing` holds
   the positions whose balance fetch or proof generation is rejected.
   */
  method SenderAffirmLeg(legs: seq<Leg>, legId: nat, legAmounts: seq<LegAmount>,
                         balance: (string, string) -> string, failing: set<nat>)
    returns (r: Result<seq<ConfidentialProof>, SenderError>)
    ensures legId >= |legs| ==> r == Failure(InvalidLegId)
    ensures r.Success? <==>
      legId < |legs| && forall j: nat :: j < |legAmounts| ==> !Obstructed(legs[legId], legAmounts, failing, j)
    ensures r.Success? ==>
      && |r.value| == |legAmounts|
      && forall j :: 0 <= j < |legAmounts| ==> r.value[j] == ProofFor(legs[legId], balance, legAmounts[j])
    ensures r.Success? ==> forall j :: 0 <= j < |legAmounts| ==>
      Proves(legs[legId], balance, legAmounts[j], r.value[j])
    ensures r.Failure? && legId < |legs| ==>
      exists j: nat :: j < |legAmounts| && Obstructed(legs[legId], legAmounts, failing, j)
        && (forall k: nat :: k < j ==> !Obstructed(legs[legId], legAmounts, failing, k))
        && r.error == if Listed(legs[legId], legAmounts[j].confidentialAsset) then ServiceFailed else AssetNotInLeg
  {
    if legId >= |legs| {
      return Failure(InvalidLegId);
    }
    var leg := legs[legId];
    var proofs: seq<ConfidentialProof> := [];
    var j: nat := 0;
    while j < |legAmounts|
      invariant 0 <= j <= |legAmounts| && |proofs| == j
      invariant forall k: nat :: k < j ==> !Obstructed(leg, legAmounts, failing, k)
      invariant forall k :: 0 <= k < j ==> proofs[k] == ProofFor(leg, balance, legAmounts[k])
    {
      var legAmount := legAmounts[j];
      var assetAuditor := AssetAuditorOf(leg, legAmount.confidentialAsset);
      if assetAuditor.None? {
        assert Obstructed(leg, legAmounts, failing, j);
        return Failure(AssetNotInLeg);
      }
      if j in failing {
        assert Obstructed(leg, legAmounts, failing, j);
        return Failure(ServiceFailed);
      }
      var encryptedBalance := balance(leg.sender, legAmount.confidentialAsset);
      var proof := GenerateSenderProof(leg.sender,
        SenderInfo(legAmount.amount, assetAuditor.value.auditors, leg.receiver, encryptedBalance));
      proofs := proofs + [ConfidentialProof(legAmount.confidentialAsset, proof)];
      j := j + 1;
    }
    AllProved(leg, legAmounts, balance, failing, proofs);
    return Success(proofs);
  }

  /** The chain's view of an affirmed leg: the submitted proofs beside the leg's own auditor lists. */
  function Proved(leg: Leg, legId: nat, proofs: seq<ConfidentialProof>): SenderProofs {
    SenderProofs(legId, leg.sender, leg.receiver,
                 Map(proofs, (p: ConfidentialProof) => AssetProof(p.asset, AuditorsOf(leg, p.asset), p.proof)))
  }

  function AffirmedLeg(leg: Leg, legId: nat, legAmounts: seq<LegAmount>, balance: (string, string) -> string): SenderProofs {
    Proved(leg, legId, Map(legAmounts, a => ProofFor(leg, balance, a)))
  }

  /** The receiver, or a key that audits every asset the sender listed. */
  ghost predicate Entitled(leg: Leg, legAmounts: seq<LegAmount>, key: string) {
    key == leg.receiver || forall a :: a in legAmounts ==> key in AuditorsOf(leg, a.confidentialAsset)
  }

  /** An auditor's least index in the leg's list is its own slot in the proof, so it opens what it audits. */
  lemma OwnSlot(leg: Leg, legId: nat, legAmounts: seq<LegAmount>, balance: (string, string) -> string, key: string)
    ensures OpensAll(AffirmedLeg(leg, legId, legAmounts, balance), key) <==> Entitled(leg, legAmounts, key)
  {
    var proved := AffirmedLeg(leg, legId, legAmounts, balance);
    forall i | 0 <= i < |legAmounts|
      ensures legAmounts[i] in legAmounts && proved.proofs[i] in proved.proofs
      ensures Opens(proved, key, proved.proofs[i])
         <==> key == leg.receiver || key in AuditorsOf(leg, legAmounts[i].confidentialAsset)
    {
    }
  }

  ghost predicate DistinctRequests(legAmounts: seq<LegAmount>) {
    forall i, j :: 0 <= i < j < |legAmounts| ==> legAmounts[i].confidentialAsset != legAmounts[j].confidentialAsset
  }

  /** The proofs bind the amounts the sender gave, asset by asset. */
  lemma AffirmedAmounts(leg: Leg, legId: nat, legAmounts: seq<LegAmount>, balance: (string, string) -> string)
    ensures var proved := AffirmedLeg(leg, legId, legAmounts, balance);
      BoundAmounts(proved) == legAmounts && (DistinctAssets(proved) <==> DistinctRequests(legAmounts))
  {
    var proved := AffirmedLeg(leg, legId, legAmounts, balance);
    assert forall i :: 0 <= i < |legAmounts| ==> proved.proofs[i].assetId == legAmounts[i].confidentialAsset;
  }

  /**
   End to end: once the sender has affirmed a leg with distinct assets, `verifyAndAffirmLeg`
   affirms for a key exactly when the key is entitled to every amount and the expected amounts
   are, in any order, the amounts the sender gave.
   */
  lemma EndToEnd(leg: Leg, legId: nat, legAmounts: seq<LegAmount>, balance: (string, string) -> string,
                 key: string, expected: seq<LegAmount>)
    requires DistinctRequests(legAmounts)
    ensures Accepts(AffirmedLeg(leg, legId, legAmounts, balance), key, expected)
       <==> Entitled(leg, legAmounts, key) && IsPermutation(legAmounts, expected)
  {
    var proved := AffirmedLeg(leg, legId, legAmounts, balance);
    OwnSlot(leg, legId, legAmounts, balance, key);
    AffirmedAmounts(leg, legId, legAmounts, balance);
    if Accepts(proved, key, expected) {
      AcceptsMeaning(proved, key, expected);
      AcceptanceIsSound(proved, key, expected);
    }
    if OpensAll(proved, key) && IsPermutation(legAmounts, expected) {
      AcceptanceIsComplete(proved, key, expected);
    }
  }

  /**
   The exact condition: after the sender's affirmation the checks accept precisely the permutations of
   the sender's amounts if and only if the key is entitled to them and no asset was sent twice.
   */
  lemma EndToEndExact(leg: Leg, legId: nat, legAmounts: seq<LegAmount>, balance: (string, string) -> string, key: string)
    ensures (forall expected ::
              Accepts(AffirmedLeg(leg, legId, legAmounts, balance), key, expected) <==> IsPermutation(legAmounts, expected))
       <==> Entitled(leg, legAmounts, key) && DistinctRequests(legAmounts)
  {
    var proved := AffirmedLeg(leg, legId, legAmounts, balance);
    OwnSlot(leg, legId, legAmounts, balance, key);
    ExactIffDistinctAndOpen(proved, key);
    AffirmedAmounts(leg, legId, legAmounts, balance);
  }

  /**
   The two operations in sequence, over every completion order: the receiver's or auditor's call
   submits an affirmation exactly in the cases `EndToEnd` names, if the proof server answers.
   `others` are the legs of the transaction that were proved before this one.
   */
  method AffirmThenVerify(legs: seq<Leg>, legId: nat, legAmounts: seq<LegAmount>, balance: (string, string) -> string,
                          senderFailing: set<nat>, others: seq<SenderProofs>, params: VerifyAndAffirm, failing: set<nat>)
    returns (sent: bool, r: Result<Affirmation, LegError>)
    requires DistinctRequests(legAmounts)
    requires params.legId == legId && forall l :: l in others ==> l.legId != legId
    ensures sent <==>
      legId < |legs| && forall j: nat :: j < |legAmounts| ==> !Obstructed(legs[legId], legAmounts, senderFailing, j)
    ensures !sent ==> r == Failure(LegNotProven)
    ensures sent ==>
      (r.Success? <==>
        && !SomeRequestFails(AffirmedLeg(legs[legId], legId, legAmounts, balance), params.publicKey, failing)
        && Entitled(legs[legId], legAmounts, params.publicKey)
        && IsPermutation(legAmounts, params.expectedAmounts))
    ensures r.Success? ==> r.value == Affirmation(legId, params.party)
  {
    var submitted := SenderAffirmLeg(legs, legId, legAmounts, balance, senderFailing);
    sent := submitted.Success?;
    var proved := others;
    if sent {
      assert submitted.value == Map(legAmounts, a => ProofFor(legs[legId], balance, a));
      var provedLeg := Proved(legs[legId], legId, submitted.value);
      proved := others + [provedLeg];
      assert provedLeg in proved;
      EndToEnd(legs[legId], legId, legAmounts, balance, params.publicKey, params.expectedAmounts);
    }
    r := VerifyAndAffirmLeg(proved, params, failing);
  }
}
