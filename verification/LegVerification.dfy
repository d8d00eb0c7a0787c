/**
 Decrypting the proofs of a confidential transaction leg and deciding whether to affirm it
 (`decryptLeg`, `verifyAndAffirmLeg` and `verifyTransactionAmounts`).
 */
module LegVerification {
  import opened Wrappers
  import opened Sequences
  import opened ProofServer

  datatype AssetProof = AssetProof(assetId: string, auditors: seq<string>, proof: Proof)

  /** A leg whose sender has submitted proofs, as the chain reports it. */
  datatype SenderProofs = SenderProofs(legId: nat, sender: string, receiver: string, proofs: seq<AssetProof>)

  datatype UnprovenAsset = UnprovenAsset(assetId: string, auditors: seq<string>)

  datatype PendingLeg = PendingLeg(legId: nat, receiver: string, proofs: seq<UnprovenAsset>)

  datatype LegAmount = LegAmount(confidentialAsset: string, amount: int)

  datatype LegAmounts = LegAmounts(legId: nat, expectedAmounts: seq<LegAmount>)

  datatype VerifiedProof = VerifiedProof(
    isProved: bool, isAuditor: bool, isReceiver: bool, amountDecrypted: bool,
    legId: nat, assetId: string, amount: Option<int>, isValid: Option<bool>, errMsg: Option<string>)

  datatype DecryptRequest =
    | ReceiverRequest(account: string, proof: Proof, amount: Option<int>, assetId: string, legId: nat, isAuditor: bool)
    | AuditorRequest(account: string, proof: Proof, auditorId: nat, amount: Option<int>, assetId: string, legId: nat,
                     isAuditor: bool)

  datatype Party = Receiver | Mediator

  datatype VerifyAndAffirm = VerifyAndAffirm(legId: nat, publicKey: string, expectedAmounts: seq<LegAmount>, party: Party)

  /** The arguments `observerAffirmLeg` submits. */
  datatype Affirmation = Affirmation(legId: nat, party: Party)

  datatype LegError =
    | LegNotProven
    | ProofServerFailed
    | InvalidLegs
    | AmountCountMismatch(expected: nat, decrypted: nat)
    | AssetMismatch

  // ----- the per-proof specification of `decryptLeg` -----

  function AuditorIndex(auditors: seq<string>, key: string): (i: int)
    ensures -1 <= i < |auditors|
    ensures i >= 0 <==> key in auditors
    ensures i >= 0 ==> auditors[i] == key && key !in auditors[..i]
  {
    FindIndex(auditors, k => k == key)
  }

  ghost predicate IsFirstFor(expected: seq<LegAmount>, assetId: string, i: int) {
    && 0 <= i < |expected| && expected[i].confidentialAsset == assetId
    && forall j :: 0 <= j < i ==> expected[j].confidentialAsset != assetId
  }

  function ExpectedAmount(expected: Option<seq<LegAmount>>, assetId: string): (r: Option<int>)
    ensures r.Some? ==> expected.Some? && LegAmount(assetId, r.value) in expected.value
    ensures expected.Some? && r.None? ==> forall e :: e in expected.value ==> e.confidentialAsset != assetId
    ensures r.Some? ==> exists i :: IsFirstFor(expected.value, assetId, i) && expected.value[i].amount == r.value
  {
    if expected.None? then None
    else
      var i := FindIndex(expected.value, (e: LegAmount) => e.confidentialAsset == assetId);
      assert i >= 0 ==> IsFirstFor(expected.value, assetId, i);
      if i < 0 then None else Some(expected.value[i].amount)
  }

  predicate Decryptable(leg: SenderProofs, key: string, p: AssetProof) {
    leg.receiver == key || key in p.auditors
  }

  function Decrypted(v: Verification, isAuditor: bool, isReceiver: bool, legId: nat, assetId: string): VerifiedProof {
    VerifiedProof(true, isAuditor, isReceiver, true, legId, assetId, v.amount, Some(v.isValid), v.errMsg)
  }

  function Skipped(legId: nat, assetId: string): VerifiedProof {
    VerifiedProof(true, false, false, false, legId, assetId, None, None, None)
  }

  /** What `decryptLeg` reports about one asset proof. The receiver's view wins over an auditor's. */
  function ResultFor(leg: SenderProofs, key: string, expected: Option<seq<LegAmount>>, p: AssetProof): VerifiedProof {
    var amount := ExpectedAmount(expected, p.assetId);
    if leg.receiver == key then
      Decrypted(VerifySenderProofAsReceiver(key, p.proof, amount), key in p.auditors, true, leg.legId, p.assetId)
    else if key in p.auditors then
      Decrypted(VerifySenderProofAsAuditor(key, p.proof, AuditorIndex(p.auditors, key), amount), true, false,
                leg.legId, p.assetId)
    else
      Skipped(leg.legId, p.assetId)
  }

  function ResultsFor(leg: SenderProofs, key: string, expected: Option<seq<LegAmount>>): seq<VerifiedProof> {
    Map(leg.proofs, p => ResultFor(leg, key, expected, p))
  }

  /** The key stands where the leg says it does: receiver of the proof, or its least auditor position. */
  predicate Opens(leg: SenderProofs, key: string, p: AssetProof) {
    if leg.receiver == key then p.proof.info.receiver == key
    else
      var i := AuditorIndex(p.auditors, key);
      0 <= i < |p.proof.info.auditors| && p.proof.info.auditors[i] == key
  }

  /** What a report says about a proof, field by field: whose view it is, the amount bound, and the judgement. */
  ghost predicate Reports(leg: SenderProofs, key: string, expected: Option<seq<LegAmount>>, p: AssetProof, r: VerifiedProof) {
    var given, bound := ExpectedAmount(expected, p.assetId), Some(p.proof.info.amount);
    && r.isProved && r.legId == leg.legId && r.assetId == p.assetId
    && (r.isReceiver <==> leg.receiver == key)
    && (r.isAuditor <==> key in p.auditors)
    && (r.amountDecrypted <==> leg.receiver == key || key in p.auditors)
    && r.amount == (if Opens(leg, key, p) then bound else None)
    && r.isValid == (if r.amountDecrypted then Some(Opens(leg, key, p) && (given == None || given == bound)) else None)
    && (r.errMsg.Some? <==> r.isValid == Some(false))
  }

  ghost predicate ReportsAll(leg: SenderProofs, key: string, expected: Option<seq<LegAmount>>, rs: seq<VerifiedProof>) {
    |rs| == |leg.proofs| && forall i :: 0 <= i < |rs| ==> Reports(leg, key, expected, leg.proofs[i], rs[i])
  }

  lemma ResultReports(leg: SenderProofs, key: string, expected: Option<seq<LegAmount>>, p: AssetProof)
    ensures Reports(leg, key, expected, p, ResultFor(leg, key, expected, p))
  {
  }

  lemma ResultsReport(leg: SenderProofs, key: string, expected: Option<seq<LegAmount>>)
    ensures ReportsAll(leg, key, expected, ResultsFor(leg, key, expected))
  {
    forall i | 0 <= i < |leg.proofs|
      ensures Reports(leg, key, expected, leg.proofs[i], ResultsFor(leg, key, expected)[i])
    {
      ResultReports(leg, key, expected, leg.proofs[i]);
    }
  }

  /** The results are, in any order, one report for each proof. */
  ghost predicate Reported(leg: SenderProofs, key: string, expected: Option<seq<LegAmount>>, results: multiset<VerifiedProof>) {
    exists rs :: ReportsAll(leg, key, expected, rs) && multiset(rs) == results
  }

  lemma ResultsReported(leg: SenderProofs, key: string, expected: Option<seq<LegAmount>>)
    ensures Reported(leg, key, expected, multiset(ResultsFor(leg, key, expected)))
  {
    ResultsReport(leg, key, expected);
  }

  /** How many of the first `n` proofs the key can open. */
  function RequestsAmong(leg: SenderProofs, key: string, n: nat): nat
    requires n <= |leg.proofs|
  {
    if n == 0 then 0 else RequestsAmong(leg, key, n - 1) + if Decryptable(leg, key, leg.proofs[n - 1]) then 1 else 0
  }

  function RequestCount(leg: SenderProofs, key: string): nat {
    RequestsAmong(leg, key, |leg.proofs|)
  }

  /** There is one request for each proof the key receives or audits. */
  lemma RequestCountMeaning(leg: SenderProofs, key: string)
    ensures RequestCount(leg, key) ==
      |Filter(leg.proofs, (p: AssetProof) => leg.receiver == key || key in p.auditors)|
  {
    RequestsAmongMeaning(leg, key, |leg.proofs|);
    assert leg.proofs[..|leg.proofs|] == leg.proofs;
  }

  lemma {:induction false} RequestsAmongMeaning(leg: SenderProofs, key: string, n: nat)
    requires n <= |leg.proofs|
    ensures RequestsAmong(leg, key, n) ==
      |Filter(leg.proofs[..n], (p: AssetProof) => leg.receiver == key || key in p.auditors)|
  {
    if n > 0 {
      var asked := (p: AssetProof) => leg.receiver == key || key in p.auditors;
      RequestsAmongMeaning(leg, key, n - 1);
      FilterAppend(leg.proofs[..n - 1], [leg.proofs[n - 1]], asked);
      assert leg.proofs[..n] == leg.proofs[..n - 1] + [leg.proofs[n - 1]];
      assert Filter([leg.proofs[n - 1]], asked) == if asked(leg.proofs[n - 1]) then [leg.proofs[n - 1]] else [];
    }
  }

  /** Some verification request of the leg, identified by its position, gets no answer from the server. */
  ghost predicate SomeRequestFails(leg: SenderProofs, key: string, failing: set<nat>) {
    exists k :: k in failing && k < RequestCount(leg, key)
  }

  function Answer(req: DecryptRequest): VerifiedProof {
    match req
    case ReceiverRequest(account, proof, amount, assetId, legId, isAuditor) =>
      Decrypted(VerifySenderProofAsReceiver(account, proof, amount), isAuditor, true, legId, assetId)
    case AuditorRequest(account, proof, auditorId, amount, assetId, legId, isAuditor) =>
      Decrypted(VerifySenderProofAsAuditor(account, proof, auditorId, amount), isAuditor, false, legId, assetId)
  }

  function AnswersAt(requests: seq<DecryptRequest>, positions: seq<nat>): seq<VerifiedProof>
    requires forall j :: 0 <= j < |positions| ==> positions[j] < |requests|
  {
    seq(|positions|, i requires 0 <= i < |positions| => Answer(requests[positions[i]]))
  }

  lemma AnswersRemoveAt(requests: seq<DecryptRequest>, positions: seq<nat>, i: nat)
    requires i < |positions| && forall j :: 0 <= j < |positions| ==> positions[j] < |requests|
    ensures multiset(AnswersAt(requests, positions))
         == multiset(AnswersAt(requests, positions[..i] + positions[i + 1..])) + multiset{Answer(requests[positions[i]])}
  {
    var answers := AnswersAt(requests, positions);
    RemoveAt(answers, i);
    assert answers[..i] + answers[i + 1..] == AnswersAt(requests, positions[..i] + positions[i + 1..]);
  }

  /** The results of the first `n` proofs, in any order. */
  function ResultsAmong(leg: SenderProofs, key: string, expected: Option<seq<LegAmount>>, n: nat): multiset<VerifiedProof>
    requires n <= |leg.proofs|
  {
    if n == 0 then multiset{}
    else ResultsAmong(leg, key, expected, n - 1) + multiset{ResultFor(leg, key, expected, leg.proofs[n - 1])}
  }

  lemma {:induction false} ResultsAmongAll(leg: SenderProofs, key: string, expected: Option<seq<LegAmount>>, n: nat)
    requires n <= |leg.proofs|
    ensures ResultsAmong(leg, key, expected, n) == multiset(ResultsFor(leg, key, expected)[..n])
  {
    if n > 0 {
      var results := ResultsFor(leg, key, expected);
      ResultsAmongAll(leg, key, expected, n - 1);
      TakeOneMore(results, n);
      assert results[n - 1] == ResultFor(leg, key, expected, leg.proofs[n - 1]);
    }
  }

  /**
   The first half of `decryptLeg`: classify every asset proof. Proofs the key cannot open are
   answered at once, the others become verification requests.
   */
  method ClassifyProofs(leg: SenderProofs, publicKey: string, expectedAmounts: Option<seq<LegAmount>>)
    returns (response: seq<VerifiedProof>, decryptRequests: seq<DecryptRequest>)
    ensures |decryptRequests| == RequestCount(leg, publicKey)
    ensures multiset(response) + multiset(Map(decryptRequests, Answer)) == multiset(ResultsFor(leg, publicKey, expectedAmounts))
    ensures Reported(leg, publicKey, expectedAmounts, multiset(response) + multiset(Map(decryptRequests, Answer)))
  {
    response, decryptRequests := [], [];
    ghost var answers: seq<VerifiedProof> := [];
    var isReceiver := leg.receiver == publicKey;
    var i := 0;
    while i < |leg.proofs|
      invariant 0 <= i <= |leg.proofs|
      invariant |answers| == |decryptRequests| == RequestsAmong(leg, publicKey, i)
      invariant forall k :: 0 <= k < |answers| ==> answers[k] == Answer(decryptRequests[k])
      invariant multiset(response) + multiset(answers) == ResultsAmong(leg, publicKey, expectedAmounts, i)
    {
      var assetProof := leg.proofs[i];
      ghost var result := ResultFor(leg, publicKey, expectedAmounts, assetProof);
      PushOneSide(response, answers, result);
      var auditorIndex := AuditorIndex(assetProof.auditors, publicKey);
      var isAuditor := auditorIndex >= 0;
      var expectedAmount := ExpectedAmount(expectedAmounts, assetProof.assetId);
      if isReceiver {
        var req := ReceiverRequest(publicKey, assetProof.proof, expectedAmount, assetProof.assetId, leg.legId, isAuditor);
        assert Answer(req) == result;
        decryptRequests := decryptRequests + [req];
        answers := answers + [result];
      } else if isAuditor {
        var req :=
          AuditorRequest(publicKey, assetProof.proof, auditorIndex, expectedAmount, assetProof.assetId, leg.legId, isAuditor);
        assert Answer(req) == result;
        decryptRequests := decryptRequests + [req];
        answers := answers + [result];
      } else {
        var skipped := Skipped(leg.legId, assetProof.assetId);
        assert skipped == result;
        response := response + [skipped];
      }
      i := i + 1;
    }
    ResultsAmongAll(leg, publicKey, expectedAmounts, i);
    assert ResultsFor(leg, publicKey, expectedAmounts)[..i] == ResultsFor(leg, publicKey, expectedAmounts);
    assert answers == Map(decryptRequests, Answer);
    ResultsReported(leg, publicKey, expectedAmounts);
  }

  function Positions(n: nat): (r: seq<nat>)
    ensures |r| == n && forall k :: 0 <= k < n ==> r[k] == k
    ensures forall k: nat :: k < n ==> k in r
  {
    if n == 0 then [] else Positions(n - 1) + [n - 1]
  }

  lemma StillOutstanding(positions: seq<nat>, next: nat)
    requires next < |positions|
    ensures forall k :: k in positions ==> k == positions[next] || k in positions[..next] + positions[next + 1..]
  {
    assert positions == positions[..next] + [positions[next]] + positions[next + 1..];
  }

  /**
   The second half of `decryptLeg`. The verifications run concurrently and each pushes its result when
   it completes: the loop lets any outstanding request complete next, so the contract holds for every
   completion order. `failing` holds the positions of the requests whose call is rejected; the first
   of them to complete rejects the whole `Promise.all`.
   */
  method CompleteRequests(skipped: seq<VerifiedProof>, decryptRequests: seq<DecryptRequest>, failing: set<nat>)
    returns (r: Result<seq<VerifiedProof>, LegError>)
    ensures r.Failure? <==> exists k :: k in failing && k < |decryptRequests|
    ensures r.Failure? ==> r.error == ProofServerFailed
    ensures r.Success? ==> multiset(r.value) == multiset(skipped) + multiset(Map(decryptRequests, Answer))
  {
    var response := skipped;
    var outstanding: seq<nat> := Positions(|decryptRequests|);
    assert AnswersAt(decryptRequests, outstanding) == Map(decryptRequests, Answer);
    while outstanding != []
      invariant forall j :: 0 <= j < |outstanding| ==> outstanding[j] < |decryptRequests|
      invariant forall k: nat :: k < |decryptRequests| && k in failing ==> k in outstanding
      invariant multiset(response) + multiset(AnswersAt(decryptRequests, outstanding))
             == multiset(skipped) + multiset(Map(decryptRequests, Answer))
      decreases |outstanding|
    {
      var next :| 0 <= next < |outstanding|;
      var completed := outstanding[next];
      if completed in failing {
        return Failure(ProofServerFailed);
      }
      AnswersRemoveAt(decryptRequests, outstanding, next);
      StillOutstanding(outstanding, next);
      response := response + [Answer(decryptRequests[completed])];
      outstanding := outstanding[..next] + outstanding[next + 1..];
    }
    return Success(response);
  }

  /** `decryptLeg` */
  method DecryptLeg(leg: SenderProofs, publicKey: string, expectedAmounts: Option<seq<LegAmount>>, failing: set<nat>)
    returns (r: Result<seq<VerifiedProof>, LegError>)
    ensures r.Failure? <==> SomeRequestFails(leg, publicKey, failing)
    ensures r.Failure? ==> r.error == ProofServerFailed
    ensures r.Success? ==> IsPermutation(r.value, ResultsFor(leg, publicKey, expectedAmounts))
    ensures r.Success? ==> Reported(leg, publicKey, expectedAmounts, multiset(r.value))
  {
    var response, decryptRequests := ClassifyProofs(leg, publicKey, expectedAmounts);
    r := CompleteRequests(response, decryptRequests, failing);
  }

  // ----- the decision of `verifyAndAffirmLeg` -----

  predicate Failed(r: VerifiedProof) {
    r.isValid != Some(true)
  }

  predicate Expects(expected: seq<LegAmount>, assetId: string) {
    exists e :: e in expected && e.confidentialAsset == assetId
  }

  /** The checks in the order the code makes them; `None` lets the affirmation through. */
  function Verdict(results: seq<VerifiedProof>, expected: seq<LegAmount>): Option<LegError> {
    if Filter(results, Failed) != [] then Some(InvalidLegs)
    else
      var decrypted := Filter(results, (r: VerifiedProof) => r.amountDecrypted);
      if |decrypted| != |expected| then Some(AmountCountMismatch(|expected|, |decrypted|))
      else if Filter(decrypted, (r: VerifiedProof) => !Expects(expected, r.assetId)) != [] then Some(AssetMismatch)
      else None
  }

  /** The verdict on a leg, computed from the per-proof specification. */
  function LegVerdict(leg: SenderProofs, key: string, expected: seq<LegAmount>): Option<LegError> {
    Verdict(ResultsFor(leg, key, Some(expected)), expected)
  }

  /** Completion order never changes the decision, nor which error is raised. */
  lemma VerdictOrderIndependent(a: seq<VerifiedProof>, b: seq<VerifiedProof>, expected: seq<LegAmount>)
    requires IsPermutation(a, b)
    ensures Verdict(a, expected) == Verdict(b, expected)
  {
    var isDecrypted := (r: VerifiedProof) => r.amountDecrypted;
    var unexpected := (r: VerifiedProof) => !Expects(expected, r.assetId);
    FilterPermutation(a, b, Failed);
    PermutationLength(Filter(a, Failed), Filter(b, Failed));
    FilterPermutation(a, b, isDecrypted);
    var da, db := Filter(a, isDecrypted), Filter(b, isDecrypted);
    PermutationLength(da, db);
    FilterPermutation(da, db, unexpected);
    PermutationLength(Filter(da, unexpected), Filter(db, unexpected));
  }

  ghost predicate IsFirstLeg(proved: seq<SenderProofs>, legId: nat, i: int) {
    && 0 <= i < |proved| && proved[i].legId == legId
    && forall j :: 0 <= j < i ==> proved[j].legId != legId
  }

  function ProvedLeg(proved: seq<SenderProofs>, legId: nat): (r: Option<SenderProofs>)
    ensures r.None? <==> forall l :: l in proved ==> l.legId != legId
    ensures r.Some? ==> exists i :: IsFirstLeg(proved, legId, i) && proved[i] == r.value
  {
    var i := FindIndex(proved, (l: SenderProofs) => l.legId == legId);
    assert i >= 0 ==> IsFirstLeg(proved, legId, i);
    if i < 0 then None else Some(proved[i])
  }

  /**
   `verifyAndAffirmLeg`: for every completion order, a success is an affirmation submitted for the
   requested leg and party, and the outcome is the one the order-free verdict calls for.
   */
  method VerifyAndAffirmLeg(proved: seq<SenderProofs>, params: VerifyAndAffirm, failing: set<nat>)
    returns (r: Result<Affirmation, LegError>)
    ensures var leg := ProvedLeg(proved, params.legId);
      if leg.None? then r == Failure(LegNotProven)
      else if SomeRequestFails(leg.value, params.publicKey, failing) then r == Failure(ProofServerFailed)
      else
        var verdict := LegVerdict(leg.value, params.publicKey, params.expectedAmounts);
        r == if verdict.Some? then Failure(verdict.value) else Success(Affirmation(params.legId, params.party))
  {
    var provedLeg := ProvedLeg(proved, params.legId);
    if provedLeg.None? {
      return Failure(LegNotProven);
    }
    var results := DecryptLeg(provedLeg.value, params.publicKey, Some(params.expectedAmounts), failing);
    if results.Failure? {
      return Failure(results.error);
    }
    var verdict := Verdict(results.value, params.expectedAmounts);
    VerdictOrderIndependent(results.value, ResultsFor(provedLeg.value, params.publicKey, Some(params.expectedAmounts)),
                            params.expectedAmounts);
    if verdict.Some? {
      return Failure(verdict.value);
    }
    return Success(Affirmation(params.legId, params.party));
  }

  // ----- `verifyTransactionAmounts` -----

  function Unproven(leg: PendingLeg, key: string, p: UnprovenAsset): VerifiedProof {
    VerifiedProof(false, key in p.auditors, leg.receiver == key, false, leg.legId, p.assetId, None, None, None)
  }

  /** One entry per asset of every pending leg, in leg order and proof order. */
  function UnprovenEntries(pending: seq<PendingLeg>, key: string): seq<VerifiedProof> {
    if pending == [] then []
    else
      var leg := pending[|pending| - 1];
      UnprovenEntries(pending[..|pending| - 1], key) + Map(leg.proofs, p => Unproven(leg, key, p))
  }

  ghost predicate IsFirstEntry(legAmounts: seq<LegAmounts>, legId: nat, i: int) {
    && 0 <= i < |legAmounts| && legAmounts[i].legId == legId
    && forall j :: 0 <= j < i ==> legAmounts[j].legId != legId
  }

  /** The amounts given for a leg: those of its first entry. */
  function AmountsForLeg(legAmounts: Option<seq<LegAmounts>>, legId: nat): (r: Option<seq<LegAmount>>)
    ensures r.None? <==> legAmounts.None? || forall l :: l in legAmounts.value ==> l.legId != legId
    ensures r.Some? ==>
      exists i :: IsFirstEntry(legAmounts.value, legId, i) && legAmounts.value[i].expectedAmounts == r.value
  {
    if legAmounts.None? then None
    else
      var i := FindIndex(legAmounts.value, (l: LegAmounts) => l.legId == legId);
      assert i >= 0 ==> IsFirstEntry(legAmounts.value, legId, i);
      if i < 0 then None else Some(legAmounts.value[i].expectedAmounts)
  }

  /** What is said of an asset of a leg that has not been proved: only who asks. */
  ghost predicate ReportsPending(leg: PendingLeg, key: string, p: UnprovenAsset, r: VerifiedProof) {
    && !r.isProved && !r.amountDecrypted && r.legId == leg.legId && r.assetId == p.assetId
    && (r.isReceiver <==> leg.receiver == key)
    && (r.isAuditor <==> key in p.auditors)
    && r.amount.None? && r.isValid.None? && r.errMsg.None?
  }

  /** One list of reports for each pending leg, one report for each of its assets. */
  ghost predicate PendingReports(pending: seq<PendingLeg>, key: string, rs: seq<seq<VerifiedProof>>) {
    && |rs| == |pending|
    && (forall i :: 0 <= i < |rs| ==> |rs[i]| == |pending[i].proofs|)
    && (forall i, j :: 0 <= i < |rs| && 0 <= j < |rs[i]| ==>
          ReportsPending(pending[i], key, pending[i].proofs[j], rs[i][j]))
  }

  /** One list of reports for each proved leg, compared with the amounts given for that leg. */
  ghost predicate ProvedReports(proved: seq<SenderProofs>, key: string, legAmounts: Option<seq<LegAmounts>>,
                                rs: seq<seq<VerifiedProof>>) {
    && |rs| == |proved|
    && forall i :: 0 <= i < |rs| ==> ReportsAll(proved[i], key, AmountsForLeg(legAmounts, proved[i].legId), rs[i])
  }

  lemma {:induction false} UnprovenReported(pending: seq<PendingLeg>, key: string) returns (rs: seq<seq<VerifiedProof>>)
    ensures PendingReports(pending, key, rs) && Flatten(rs) == UnprovenEntries(pending, key)
  {
    rs := [];
    if pending != [] {
      var n := |pending| - 1;
      var front := UnprovenReported(pending[..n], key);
      rs := front + [Map(pending[n].proofs, p => Unproven(pending[n], key, p))];
      assert rs[..n] == front;
    }
  }

  lemma {:induction false} ProvedReported(proved: seq<SenderProofs>, key: string, legAmounts: Option<seq<LegAmounts>>)
    returns (rs: seq<seq<VerifiedProof>>)
    ensures ProvedReports(proved, key, legAmounts, rs) && Flatten(rs) == ProvedEntries(proved, key, legAmounts)
  {
    rs := [];
    if proved != [] {
      var n := |proved| - 1;
      var front := ProvedReported(proved[..n], key, legAmounts);
      var amounts := AmountsForLeg(legAmounts, proved[n].legId);
      ResultsReport(proved[n], key, amounts);
      rs := front + [ResultsFor(proved[n], key, amounts)];
      assert rs[..n] == front;
    }
  }

  /** One entry per asset proof of every proved leg. */
  function ProvedEntries(proved: seq<SenderProofs>, key: string, legAmounts: Option<seq<LegAmounts>>): seq<VerifiedProof> {
    if proved == [] then []
    else
      var leg := proved[|proved| - 1];
      ProvedEntries(proved[..|proved| - 1], key, legAmounts) + ResultsFor(leg, key, AmountsForLeg(legAmounts, leg.legId))
  }

  const LEG_ID: VerifiedProof -> nat := (r: VerifiedProof) => r.legId

  /** The entries for the legs whose sender has not affirmed yet, in leg order and proof order. */
  method ListUnproven(pending: seq<PendingLeg>, publicKey: string) returns (unProvenResponses: seq<VerifiedProof>)
    ensures unProvenResponses == UnprovenEntries(pending, publicKey)
    ensures exists entries :: PendingReports(pending, publicKey, entries) && unProvenResponses == Flatten(entries)
  {
    unProvenResponses := [];
    var i := 0;
    while i < |pending|
      invariant 0 <= i <= |pending|
      invariant unProvenResponses == UnprovenEntries(pending[..i], publicKey)
    {
      var value := pending[i];
      var isReceiver := value.receiver == publicKey;
      ghost var before, entries := unProvenResponses, Map(value.proofs, p => Unproven(value, publicKey, p));
      var j := 0;
      while j < |value.proofs|
        invariant 0 <= j <= |value.proofs|
        invariant unProvenResponses == before + entries[..j]
      {
        var assetProof := value.proofs[j];
        var isAuditor := publicKey in assetProof.auditors;
        unProvenResponses := unProvenResponses
          + [VerifiedProof(false, isAuditor, isReceiver, false, value.legId, assetProof.assetId, None, None, None)];
        j := j + 1;
      }
      assert pending[..i + 1][..i] == pending[..i];
      i := i + 1;
    }
    assert pending[..i] == pending;
    ghost var reports := UnprovenReported(pending, publicKey);
  }

  ghost predicate LegFails(proved: seq<SenderProofs>, key: string, failing: seq<set<nat>>, i: nat)
    requires |failing| == |proved|
  {
    i < |proved| && SomeRequestFails(proved[i], key, failing[i])
  }

  /** Decrypts the proved legs; each leg's results stay together, at the leg's position. */
  method DecryptLegs(proved: seq<SenderProofs>, publicKey: string, legAmounts: Option<seq<LegAmounts>>, failing: seq<set<nat>>)
    returns (r: Result<seq<VerifiedProof>, LegError>)
    requires |failing| == |proved|
    ensures r.Failure? <==> exists i :: LegFails(proved, publicKey, failing, i)
    ensures r.Success? ==> IsPermutation(r.value, ProvedEntries(proved, publicKey, legAmounts))
    ensures r.Success? ==>
      exists reports :: ProvedReports(proved, publicKey, legAmounts, reports) && IsPermutation(r.value, Flatten(reports))
  {
    var flat: seq<VerifiedProof> := [];
    var i := 0;
    while i < |proved|
      invariant 0 <= i <= |proved|
      invariant forall k: nat :: k < i ==> !LegFails(proved, publicKey, failing, k)
      invariant IsPermutation(flat, ProvedEntries(proved[..i], publicKey, legAmounts))
    {
      var leg := proved[i];
      var results := DecryptLeg(leg, publicKey, AmountsForLeg(legAmounts, leg.legId), failing[i]);
      assert LegFails(proved, publicKey, failing, i) <==> results.Failure?;
      if results.Failure? {
        return Failure(results.error);
      }
      ghost var entries := ProvedEntries(proved[..i], publicKey, legAmounts);
      ghost var legEntries := ResultsFor(leg, publicKey, AmountsForLeg(legAmounts, leg.legId));
      assert proved[..i + 1][..i] == proved[..i];
      assert ProvedEntries(proved[..i + 1], publicKey, legAmounts) == entries + legEntries;
      AppendPermutations(flat, entries, results.value, legEntries);
      flat := flat + results.value;
      i := i + 1;
    }
    assert proved[..i] == proved;
    ghost var reports := ProvedReported(proved, publicKey, legAmounts);
    return Success(flat);
  }

  /** `verifyTransactionAmounts`; `failing[i]` holds the failing request positions of `proved[i]`. */
  method VerifyTransactionAmounts(
    pending: seq<PendingLeg>, proved: seq<SenderProofs>, publicKey: string, legAmounts: Option<seq<LegAmounts>>,
    failing: seq<set<nat>>)
    returns (r: Result<seq<VerifiedProof>, LegError>)
    requires |failing| == |proved|
    ensures r.Failure? <==> exists i :: LegFails(proved, publicKey, failing, i)
    ensures r.Success? ==>
      IsPermutation(r.value, UnprovenEntries(pending, publicKey) + ProvedEntries(proved, publicKey, legAmounts))
    ensures r.Success? ==>
      exists entries, reports ::
        && PendingReports(pending, publicKey, entries) && ProvedReports(proved, publicKey, legAmounts, reports)
        && IsPermutation(r.value, Flatten(entries) + Flatten(reports))
    ensures r.Success? ==> SortedBy(r.value, LEG_ID)
    ensures r.Success? ==>
      exists decrypted ::
        && IsPermutation(decrypted, ProvedEntries(proved, publicKey, legAmounts))
        && OnlyStableSort(r.value, UnprovenEntries(pending, publicKey) + decrypted, LEG_ID)
    ensures r.Success? ==>
      forall k: nat :: Class(UnprovenEntries(pending, publicKey), LEG_ID, k) <= Class(r.value, LEG_ID, k)
  {
    var unProvenResponses := ListUnproven(pending, publicKey);
    var decrypted := DecryptLegs(proved, publicKey, legAmounts, failing);
    if decrypted.Failure? {
      return Failure(decrypted.error);
    }
    var decryptedResponses := decrypted.value;
    ghost var entries := UnprovenReported(pending, publicKey);
    ghost var reports := ProvedReported(proved, publicKey, legAmounts);
    var out := StableSort(unProvenResponses + decryptedResponses, LEG_ID);
    StableSortCorrect(unProvenResponses + decryptedResponses, LEG_ID);
    StableSortDetermined(unProvenResponses + decryptedResponses, LEG_ID);
    forall k: nat ensures Class(unProvenResponses, LEG_ID, k) <= Class(out, LEG_ID, k) {
      ClassAppend(unProvenResponses, decryptedResponses, LEG_ID, k);
    }
    return Success(out);
  }
}
