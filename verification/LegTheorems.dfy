/** What an affirmation by `verifyAndAffirmLeg` guarantees, and exactly when. */
module LegTheorems {
  import opened Wrappers
  import opened Sequences
  import opened ProofServer
  import opened LegVerification

  /** The asset amounts the sender's proofs bind. */
  function BoundAmounts(leg: SenderProofs): seq<LegAmount> {
    Map(leg.proofs, (p: AssetProof) => LegAmount(p.assetId, p.proof.info.amount))
  }

  ghost predicate DistinctAssets(leg: SenderProofs) {
    forall i, j :: 0 <= i < j < |leg.proofs| ==> leg.proofs[i].assetId != leg.proofs[j].assetId
  }

  ghost predicate OpensAll(leg: SenderProofs, key: string) {
    forall p :: p in leg.proofs ==> Opens(leg, key, p)
  }

  ghost predicate Accepts(leg: SenderProofs, key: string, expected: seq<LegAmount>) {
    LegVerdict(leg, key, expected) == None
  }

  lemma ResultValid(leg: SenderProofs, key: string, expected: Option<seq<LegAmount>>, p: AssetProof)
    ensures var r := ResultFor(leg, key, expected, p);
      var amount := ExpectedAmount(expected, p.assetId);
      && r.assetId == p.assetId
      && (!Failed(r) <==> Opens(leg, key, p) && (amount == None || amount == Some(p.proof.info.amount)))
      && (!Failed(r) ==> r.amountDecrypted)
  {
  }

  /** Every result is some proof's, and every proof has its result. */
  lemma ResultMembers(leg: SenderProofs, key: string, expected: Option<seq<LegAmount>>)
    ensures var results := ResultsFor(leg, key, expected);
      && (forall r :: r in results ==> exists p :: p in leg.proofs && r == ResultFor(leg, key, expected, p))
      && (forall p :: p in leg.proofs ==> ResultFor(leg, key, expected, p) in results)
  {
    var results := ResultsFor(leg, key, expected);
    forall r | r in results ensures exists p :: p in leg.proofs && r == ResultFor(leg, key, expected, p) {
      var i :| 0 <= i < |results| && results[i] == r;
      assert leg.proofs[i] in leg.proofs && r == ResultFor(leg, key, expected, leg.proofs[i]);
    }
    forall p | p in leg.proofs ensures ResultFor(leg, key, expected, p) in results {
      var i :| 0 <= i < |leg.proofs| && leg.proofs[i] == p;
      assert results[i] == ResultFor(leg, key, expected, p);
    }
  }

  /** No result failed exactly when the key opens every proof and no given amount is wrong. */
  lemma NoneFailedMeaning(leg: SenderProofs, key: string, expected: Option<seq<LegAmount>>)
    ensures (forall r :: r in ResultsFor(leg, key, expected) ==> !Failed(r)) <==>
      forall p :: p in leg.proofs ==>
        Opens(leg, key, p) && ExpectedAmount(expected, p.assetId) in {None, Some(p.proof.info.amount)}
  {
    ResultMembers(leg, key, expected);
    forall p ensures !Failed(ResultFor(leg, key, expected, p)) <==>
      Opens(leg, key, p) && ExpectedAmount(expected, p.assetId) in {None, Some(p.proof.info.amount)}
    {
      ResultValid(leg, key, expected, p);
    }
  }

  /** The proof stands against verification: the key does not open it, or the given amount is wrong. */
  ghost predicate Refuted(leg: SenderProofs, key: string, expected: seq<LegAmount>, p: AssetProof) {
    !Opens(leg, key, p) || ExpectedAmount(Some(expected), p.assetId) !in {None, Some(p.proof.info.amount)}
  }

  /** Which check turns a leg down, stated on the leg itself. */
  lemma VerdictMeaning(leg: SenderProofs, key: string, expected: seq<LegAmount>)
    ensures LegVerdict(leg, key, expected) ==
      if exists p :: p in leg.proofs && Refuted(leg, key, expected, p) then Some(InvalidLegs)
      else if |leg.proofs| != |expected| then Some(AmountCountMismatch(|expected|, |leg.proofs|))
      else if exists p :: p in leg.proofs && ExpectedAmount(Some(expected), p.assetId).None? then Some(AssetMismatch)
      else None
  {
    var results := ResultsFor(leg, key, Some(expected));
    var isDecrypted := (r: VerifiedProof) => r.amountDecrypted;
    FilterNone(results, Failed);
    NoneFailedMeaning(leg, key, Some(expected));
    if Filter(results, Failed) == [] {
      forall r | r in results ensures isDecrypted(r) {
        assert !Failed(r);
        ResultMembers(leg, key, Some(expected));
        var p :| p in leg.proofs && r == ResultFor(leg, key, Some(expected), p);
        ResultValid(leg, key, Some(expected), p);
      }
      FilterAll(results, isDecrypted);
      AllExpectedMeaning(leg, key, expected);
    }
  }

  /** The three checks, stated on the leg itself. */
  lemma AcceptsMeaning(leg: SenderProofs, key: string, expected: seq<LegAmount>)
    ensures Accepts(leg, key, expected) <==>
      && OpensAll(leg, key)
      && |leg.proofs| == |expected|
      && forall p :: p in leg.proofs ==> ExpectedAmount(Some(expected), p.assetId) == Some(p.proof.info.amount)
  {
    VerdictMeaning(leg, key, expected);
    if Accepts(leg, key, expected) {
      forall p | p in leg.proofs
        ensures Opens(leg, key, p) && ExpectedAmount(Some(expected), p.assetId) == Some(p.proof.info.amount)
      {
        assert !Refuted(leg, key, expected, p);
      }
    }
  }

  lemma AllExpectedMeaning(leg: SenderProofs, key: string, expected: seq<LegAmount>)
    ensures Filter(ResultsFor(leg, key, Some(expected)), (r: VerifiedProof) => !Expects(expected, r.assetId)) == [] <==>
      forall p :: p in leg.proofs ==> ExpectedAmount(Some(expected), p.assetId).Some?
  {
    FilterNone(ResultsFor(leg, key, Some(expected)), (r: VerifiedProof) => !Expects(expected, r.assetId));
    ResultMembers(leg, key, Some(expected));
    forall p: AssetProof
      ensures Expects(expected, ResultFor(leg, key, Some(expected), p).assetId)
         <==> ExpectedAmount(Some(expected), p.assetId).Some?
    {
      ResultValid(leg, key, Some(expected), p);
    }
  }

  lemma BoundAmountsDistinct(leg: SenderProofs)
    requires DistinctAssets(leg)
    ensures Distinct(BoundAmounts(leg))
  {
    var bound := BoundAmounts(leg);
    forall i, j | 0 <= i < j < |bound| ensures bound[i] != bound[j] {
      assert bound[i].confidentialAsset == leg.proofs[i].assetId && bound[j].confidentialAsset == leg.proofs[j].assetId;
    }
  }

  /**
   Pigeonhole soundness: on a leg with distinct assets the equal-length and one-directional
   inclusion checks suffice. Every proof was decrypted, was verified against a non-null amount the
   caller gave, and the caller's list is duplicate-free and in bijection with the leg.
   */
  lemma AcceptanceIsSound(leg: SenderProofs, key: string, expected: seq<LegAmount>)
    requires DistinctAssets(leg) && Accepts(leg, key, expected)
    ensures forall p :: p in leg.proofs ==>
      && Opens(leg, key, p)
      && ResultFor(leg, key, Some(expected), p).amountDecrypted
      && ExpectedAmount(Some(expected), p.assetId) == Some(p.proof.info.amount)
    ensures IsPermutation(BoundAmounts(leg), expected)
    ensures Distinct(expected)
    ensures forall i, j :: 0 <= i < j < |expected| ==> expected[i].confidentialAsset != expected[j].confidentialAsset
  {
    AcceptsMeaning(leg, key, expected);
    BoundAmountsDistinct(leg);
    var bound := BoundAmounts(leg);
    forall a | a in bound ensures a in expected {
      var i :| 0 <= i < |bound| && bound[i] == a;
      assert leg.proofs[i] in leg.proofs;
    }
    Pigeonhole(bound, expected);
    PermutationDistinct(leg, expected);
  }

  /** A permutation of amounts for distinct assets repeats no asset either. */
  lemma PermutationDistinct(leg: SenderProofs, expected: seq<LegAmount>)
    requires DistinctAssets(leg) && IsPermutation(BoundAmounts(leg), expected)
    ensures Distinct(expected)
    ensures forall i, j :: 0 <= i < j < |expected| ==> expected[i].confidentialAsset != expected[j].confidentialAsset
  {
    var bound := BoundAmounts(leg);
    BoundAmountsDistinct(leg);
    forall a ensures multiset(expected)[a] <= 1 {
      DistinctCounts(bound, a);
    }
    CountsDistinct(expected);
    forall i, j | 0 <= i < j < |expected| ensures expected[i].confidentialAsset != expected[j].confidentialAsset {
      var k := PositionOf(bound, expected, i);
      var l := PositionOf(bound, expected, j);
      assert leg.proofs[k].assetId == bound[k].confidentialAsset && leg.proofs[l].assetId == bound[l].confidentialAsset;
    }
  }

  lemma PositionOf(bound: seq<LegAmount>, expected: seq<LegAmount>, i: nat) returns (k: nat)
    requires IsPermutation(bound, expected) && i < |expected|
    ensures k < |bound| && bound[k] == expected[i]
  {
    assert expected[i] in multiset(expected);
    assert expected[i] in multiset(bound);
    k :| 0 <= k < |bound| && bound[k] == expected[i];
  }

  lemma AcceptanceIsComplete(leg: SenderProofs, key: string, expected: seq<LegAmount>)
    requires DistinctAssets(leg) && OpensAll(leg, key) && IsPermutation(BoundAmounts(leg), expected)
    ensures Accepts(leg, key, expected)
  {
    var bound := BoundAmounts(leg);
    PermutationLength(bound, expected);
    forall p | p in leg.proofs ensures ExpectedAmount(Some(expected), p.assetId) == Some(p.proof.info.amount) {
      var i :| 0 <= i < |leg.proofs| && leg.proofs[i] == p;
      var j := PositionOf(expected, bound, i);
      var found := ExpectedAmount(Some(expected), p.assetId);
      assert found.Some?;
      var f :| IsFirstFor(expected, p.assetId, f) && expected[f].amount == found.value;
      var k := PositionOf(bound, expected, f);
      assert leg.proofs[k].assetId == bound[k].confidentialAsset;
    }
    AcceptsMeaning(leg, key, expected);
  }

  /**
   Exactness: the check accepts precisely the permutations of the amounts the proofs bind if and
   only if the key opens every proof and no asset occurs twice in the leg.
   */
  lemma ExactIffDistinctAndOpen(leg: SenderProofs, key: string)
    ensures (forall expected :: Accepts(leg, key, expected) <==> IsPermutation(BoundAmounts(leg), expected))
       <==> OpensAll(leg, key) && DistinctAssets(leg)
  {
    if OpensAll(leg, key) && DistinctAssets(leg) {
      forall expected ensures Accepts(leg, key, expected) <==> IsPermutation(BoundAmounts(leg), expected) {
        if Accepts(leg, key, expected) {
          AcceptanceIsSound(leg, key, expected);
        }
        if IsPermutation(BoundAmounts(leg), expected) {
          AcceptanceIsComplete(leg, key, expected);
        }
      }
    } else if !OpensAll(leg, key) {
      AcceptsMeaning(leg, key, BoundAmounts(leg));
      assert IsPermutation(BoundAmounts(leg), BoundAmounts(leg));
    } else {
      var i, j :| 0 <= i < j < |leg.proofs| && leg.proofs[i].assetId == leg.proofs[j].assetId;
      var expected := DuplicateAssetCounterexample(leg, key, i, j);
    }
  }

  /** Changing the amount of a repeated asset's later entry goes unnoticed. */
  lemma LaterEntryIgnored(leg: SenderProofs, key: string, i: nat, j: nat, expected: seq<LegAmount>)
    requires OpensAll(leg, key) && i < j < |leg.proofs| && leg.proofs[i].assetId == leg.proofs[j].assetId
    requires forall k, l :: 0 <= k < |leg.proofs| && 0 <= l < |leg.proofs| ==>
      leg.proofs[k].assetId == leg.proofs[l].assetId ==>
      leg.proofs[k].proof.info.amount == leg.proofs[l].proof.info.amount
    requires |expected| == |leg.proofs| && expected[j].confidentialAsset == leg.proofs[j].assetId
    requires forall k :: 0 <= k < |expected| && k != j ==> expected[k] == BoundAmounts(leg)[k]
    ensures Accepts(leg, key, expected)
  {
    forall p | p in leg.proofs ensures ExpectedAmount(Some(expected), p.assetId) == Some(p.proof.info.amount) {
      var k :| 0 <= k < |leg.proofs| && leg.proofs[k] == p;
      assert expected[k].confidentialAsset == p.assetId && expected[k] in expected;
      var found := ExpectedAmount(Some(expected), p.assetId);
      assert found.Some?;
      var f :| IsFirstFor(expected, p.assetId, f) && expected[f].amount == found.value;
      assert expected[i].confidentialAsset == expected[j].confidentialAsset;
      assert f != j;
      assert leg.proofs[f].assetId == p.assetId;
    }
    AcceptsMeaning(leg, key, expected);
  }

  /** A repeated asset always admits a list on which the check and the intended meaning differ. */
  lemma DuplicateAssetCounterexample(leg: SenderProofs, key: string, i: nat, j: nat) returns (expected: seq<LegAmount>)
    requires OpensAll(leg, key) && i < j < |leg.proofs| && leg.proofs[i].assetId == leg.proofs[j].assetId
    ensures !(Accepts(leg, key, expected) <==> IsPermutation(BoundAmounts(leg), expected))
  {
    var bound := BoundAmounts(leg);
    if k, l :| 0 <= k < |leg.proofs| && 0 <= l < |leg.proofs| && leg.proofs[k].assetId == leg.proofs[l].assetId
               && leg.proofs[k].proof.info.amount != leg.proofs[l].proof.info.amount {
      // one asset with two amounts: the true list is turned down
      expected := bound;
      AcceptsMeaning(leg, key, expected);
      assert leg.proofs[k] in leg.proofs && leg.proofs[l] in leg.proofs;
    } else {
      // one asset twice with one amount: the later entry is never looked at
      expected := bound[j := bound[j].(amount := bound[j].amount + 1)];
      LaterEntryIgnored(leg, key, i, j, expected);
      assert expected[j] in multiset(expected);
      assert expected[j] !in multiset(bound);
    }
  }
}
