/**
 `moveFunds`: nested `Promise.all` gathering. Requests complete in any order, each filling its own
 slot; the submission happens when every slot is full.
 */
module MoveFunds {
  import opened Wrappers
  import opened Sequences
  import opened ProofServer
  import LegVerification

  datatype FundMove = FundMove(from: string, to: string, assetMoves: seq<LegVerification.LegAmount>)

  datatype Account = Account(publicKey: string)

  datatype Asset = Asset(id: string)

  datatype MoveProof = MoveProof(asset: Asset, amount: int, proof: Proof)

  datatype MoveFundsParams = MoveFundsParams(from: Account, to: Account, proofs: seq<MoveProof>)

  /** What the looked-up services answer. */
  datatype Services = Services(
    account: string -> Account, balance: (string, string) -> string, asset: string -> Asset, auditors: Asset -> seq<Account>)

  // ----- what should be submitted -----

  function ExpectedProof(sv: Services, m: FundMove, a: LegVerification.LegAmount): MoveProof {
    var asset := sv.asset(a.confidentialAsset);
    MoveProof(asset, a.amount,
              Proof(sv.account(m.from).publicKey,
                    SenderInfo(a.amount, Map(sv.auditors(asset), (x: Account) => x.publicKey),
                               sv.account(m.to).publicKey, sv.balance(m.from, a.confidentialAsset))))
  }

  function ExpectedMove(sv: Services, m: FundMove): MoveFundsParams {
    MoveFundsParams(sv.account(m.from), sv.account(m.to), Map(m.assetMoves, a => ExpectedProof(sv, m, a)))
  }

  // ----- the requests and their slots -----

  /** The slots of one `getProof` call. */
  datatype ProofTask = ProofTask(
    balance: Option<string>, asset: Option<Asset>, auditors: Option<seq<Account>>, proof: Option<Proof>)

  /** The slots of one `fundMoveToMoveFundsParams` call. */
  datatype MoveTask = MoveTask(from: Option<Account>, to: Option<Account>, proofs: seq<ProofTask>)

  datatype Request =
    | FindFrom(i: nat)
    | FindTo(i: nat)
    | GetBalance(i: nat, j: nat)
    | FindAsset(i: nat, j: nat)
    | GetAuditors(i: nat, j: nat)
    | GenerateProof(i: nat, j: nat)

  datatype Action = Completed(req: Request) | Failed(req: Request)

  datatype State = State(tasks: seq<MoveTask>, failed: set<Request>, submits: seq<seq<MoveFundsParams>>)

  predicate Shaped(moves: seq<FundMove>, tasks: seq<MoveTask>) {
    |tasks| == |moves| && forall i :: 0 <= i < |moves| ==> |tasks[i].proofs| == |moves[i].assetMoves|
  }

  predicate HasSlot(tasks: seq<MoveTask>, req: Request) {
    req.i < |tasks| && (req.FindFrom? || req.FindTo? || req.j < |tasks[req.i].proofs|)
  }

  /** Everything the request waits for has arrived. */
  predicate Started(tasks: seq<MoveTask>, req: Request)
    requires HasSlot(tasks, req)
  {
    var t := tasks[req.i];
    match req
    case FindFrom(_) => true
    case FindTo(_) => true
    case GetBalance(_, _) => t.from.Some? && t.to.Some?
    case FindAsset(_, _) => t.from.Some? && t.to.Some?
    case GetAuditors(_, j) => t.proofs[j].balance.Some? && t.proofs[j].asset.Some?
    case GenerateProof(_, j) =>
      && t.from.Some? && t.to.Some?
      && t.proofs[j].balance.Some? && t.proofs[j].asset.Some? && t.proofs[j].auditors.Some?
  }

  predicate Filled(tasks: seq<MoveTask>, req: Request)
    requires HasSlot(tasks, req)
  {
    var t := tasks[req.i];
    match req
    case FindFrom(_) => t.from.Some?
    case FindTo(_) => t.to.Some?
    case GetBalance(_, j) => t.proofs[j].balance.Some?
    case FindAsset(_, j) => t.proofs[j].asset.Some?
    case GetAuditors(_, j) => t.proofs[j].auditors.Some?
    case GenerateProof(_, j) => t.proofs[j].proof.Some?
  }

  predicate Outstanding(s: State, req: Request) {
    HasSlot(s.tasks, req) && Started(s.tasks, req) && !Filled(s.tasks, req) && req !in s.failed
  }

  /** The answer to a request lands in the request's own slot. */
  function Fill(sv: Services, moves: seq<FundMove>, tasks: seq<MoveTask>, req: Request): seq<MoveTask>
    requires Shaped(moves, tasks) && HasSlot(tasks, req) && Started(tasks, req)
  {
    var t, m := tasks[req.i], moves[req.i];
    tasks[req.i := match req
      case FindFrom(_) => t.(from := Some(sv.account(m.from)))
      case FindTo(_) => t.(to := Some(sv.account(m.to)))
      case GetBalance(_, j) =>
        t.(proofs := t.proofs[j := t.proofs[j].(balance := Some(sv.balance(m.from, m.assetMoves[j].confidentialAsset)))])
      case FindAsset(_, j) =>
        t.(proofs := t.proofs[j := t.proofs[j].(asset := Some(sv.asset(m.assetMoves[j].confidentialAsset)))])
      case GetAuditors(_, j) =>
        t.(proofs := t.proofs[j := t.proofs[j].(auditors := Some(sv.auditors(t.proofs[j].asset.value)))])
      case GenerateProof(_, j) =>
        var p := t.proofs[j];
        t.(proofs := t.proofs[j := p.(proof := Some(GenerateSenderProof(t.from.value.publicKey,
          SenderInfo(m.assetMoves[j].amount, Map(p.auditors.value, (x: Account) => x.publicKey),
                     t.to.value.publicKey, p.balance.value))))])]
  }

  predicate Done(t: MoveTask) {
    t.from.Some? && t.to.Some? && forall j :: 0 <= j < |t.proofs| ==> t.proofs[j].asset.Some? && t.proofs[j].proof.Some?
  }

  predicate AllDone(tasks: seq<MoveTask>) {
    forall i :: 0 <= i < |tasks| ==> Done(tasks[i])
  }

  /** The arrays `Promise.all` delivers: slot by slot, whatever the completion order was. */
  function Gather(moves: seq<FundMove>, tasks: seq<MoveTask>): seq<MoveFundsParams>
    requires Shaped(moves, tasks) && AllDone(tasks)
  {
    seq(|moves|, i requires 0 <= i < |moves| =>
      MoveFundsParams(tasks[i].from.value, tasks[i].to.value,
        seq(|moves[i].assetMoves|, j requires 0 <= j < |moves[i].assetMoves| =>
          MoveProof(tasks[i].proofs[j].asset.value, moves[i].assetMoves[j].amount, tasks[i].proofs[j].proof.value))))
  }

  /** The submission that follows the completion of the last slot. */
  function Settle(moves: seq<FundMove>, before: seq<MoveTask>, s: State): State
    requires Shaped(moves, s.tasks)
  {
    if AllDone(s.tasks) && !AllDone(before) then s.(submits := s.submits + [Gather(moves, s.tasks)]) else s
  }

  const EMPTY := ProofTask(None, None, None, None)

  function Init(moves: seq<FundMove>): State {
    var tasks := Map(moves, (m: FundMove) => MoveTask(None, None, Map(m.assetMoves, _ => EMPTY)));
    State(tasks, {}, if moves == [] then [[]] else [])
  }

  function Step(sv: Services, moves: seq<FundMove>, s: State, a: Action): State
    requires Shaped(moves, s.tasks) && Outstanding(s, a.req)
  {
    match a
    case Completed(req) => Settle(moves, s.tasks, s.(tasks := Fill(sv, moves, s.tasks, req)))
    case Failed(req) => s.(failed := s.failed + {req})
  }

  predicate Valid(sv: Services, moves: seq<FundMove>, acts: seq<Action>)
    decreases |acts|, 0
  {
    acts == [] ||
    (Valid(sv, moves, acts[..|acts| - 1]) && Outstanding(Run(sv, moves, acts[..|acts| - 1]), acts[|acts| - 1].req))
  }

  function Run(sv: Services, moves: seq<FundMove>, acts: seq<Action>): (s: State)
    requires Valid(sv, moves, acts)
    ensures Shaped(moves, s.tasks)
    decreases |acts|, 1
  {
    if acts == [] then Init(moves) else Step(sv, moves, Run(sv, moves, acts[..|acts| - 1]), acts[|acts| - 1])
  }

  // ----- alignment -----

  /** Every full slot of a `getProof` call holds the answer for its own asset move. */
  predicate ProofTaskOk(sv: Services, m: FundMove, a: LegVerification.LegAmount, t: ProofTask) {
    && (t.balance.Some? ==> t.balance.value == sv.balance(m.from, a.confidentialAsset))
    && (t.asset.Some? ==> t.asset.value == sv.asset(a.confidentialAsset))
    && (t.auditors.Some? ==> t.auditors.value == sv.auditors(sv.asset(a.confidentialAsset)))
    && (t.proof.Some? ==> t.proof.value == ExpectedProof(sv, m, a).proof)
  }

  predicate MoveTaskOk(sv: Services, m: FundMove, t: MoveTask) {
    && (t.from.Some? ==> t.from.value == sv.account(m.from))
    && (t.to.Some? ==> t.to.value == sv.account(m.to))
    && |t.proofs| == |m.assetMoves|
    && forall j :: 0 <= j < |t.proofs| ==> ProofTaskOk(sv, m, m.assetMoves[j], t.proofs[j])
  }

  predicate TasksOk(sv: Services, moves: seq<FundMove>, tasks: seq<MoveTask>) {
    |tasks| == |moves| && forall i :: 0 <= i < |moves| ==> MoveTaskOk(sv, moves[i], tasks[i])
  }

  lemma FillKeepsOk(sv: Services, moves: seq<FundMove>, tasks: seq<MoveTask>, req: Request)
    requires TasksOk(sv, moves, tasks) && Shaped(moves, tasks) && HasSlot(tasks, req) && Started(tasks, req)
    ensures TasksOk(sv, moves, Fill(sv, moves, tasks, req))
  {
    var t, m, after := tasks[req.i], moves[req.i], Fill(sv, moves, tasks, req);
    assert MoveTaskOk(sv, m, t);
    if !req.FindFrom? && !req.FindTo? {
      assert ProofTaskOk(sv, m, m.assetMoves[req.j], t.proofs[req.j]);
      assert ProofTaskOk(sv, m, m.assetMoves[req.j], after[req.i].proofs[req.j]);
    }
    assert MoveTaskOk(sv, m, after[req.i]);
  }

  lemma GatherExpected(sv: Services, moves: seq<FundMove>, tasks: seq<MoveTask>)
    requires TasksOk(sv, moves, tasks) && Shaped(moves, tasks) && AllDone(tasks)
    ensures Gather(moves, tasks) == Map(moves, m => ExpectedMove(sv, m))
  {
    forall i | 0 <= i < |moves| ensures Gather(moves, tasks)[i] == ExpectedMove(sv, moves[i]) {
      assert MoveTaskOk(sv, moves[i], tasks[i]) && Done(tasks[i]);
      forall j | 0 <= j < |moves[i].assetMoves|
        ensures Gather(moves, tasks)[i].proofs[j] == ExpectedProof(sv, moves[i], moves[i].assetMoves[j])
      {
        assert ProofTaskOk(sv, moves[i], moves[i].assetMoves[j], tasks[i].proofs[j]);
      }
    }
  }

  /**
   Alignment, for every completion order and every pattern of failures: nothing is submitted until
   every slot is full, and what is then submitted, once, is position by position the proof for its
   own asset move.
   */
  lemma {:induction false} SubmitsAligned(sv: Services, moves: seq<FundMove>, acts: seq<Action>)
    requires Valid(sv, moves, acts)
    ensures var s := Run(sv, moves, acts);
      && TasksOk(sv, moves, s.tasks)
      && s.submits == if AllDone(s.tasks) then [Map(moves, m => ExpectedMove(sv, m))] else []
    decreases |acts|
  {
    if acts == [] {
      var s := Init(moves);
      if moves != [] {
        assert !Done(s.tasks[0]);
      }
    } else {
      var front, a := acts[..|acts| - 1], acts[|acts| - 1];
      SubmitsAligned(sv, moves, front);
      var s := Run(sv, moves, front);
      if a.Completed? {
        FillKeepsOk(sv, moves, s.tasks, a.req);
        var after := Fill(sv, moves, s.tasks, a.req);
        if AllDone(after) {
          GatherExpected(sv, moves, after);
        }
        if AllDone(s.tasks) {
          FillKeepsDone(sv, moves, s.tasks, a.req);
        }
      }
    }
  }

  lemma FillKeepsDone(sv: Services, moves: seq<FundMove>, tasks: seq<MoveTask>, req: Request)
    requires Shaped(moves, tasks) && HasSlot(tasks, req) && Started(tasks, req) && AllDone(tasks)
    ensures AllDone(Fill(sv, moves, tasks, req))
  {
    assert Done(tasks[req.i]);
  }

  // ----- what is submitted, field by field -----

  /** The proof moves the amount of that asset from the first account to the second, with the asset's own auditors. */
  predicate MovesAmount(sv: Services, m: FundMove, a: LegVerification.LegAmount, p: MoveProof) {
    var auditors := sv.auditors(sv.asset(a.confidentialAsset));
    && p.asset == sv.asset(a.confidentialAsset) && p.amount == a.amount
    && p.proof.sender == sv.account(m.from).publicKey
    && p.proof.info.receiver == sv.account(m.to).publicKey
    && p.proof.info.amount == a.amount
    && p.proof.info.encryptedBalance == sv.balance(m.from, a.confidentialAsset)
    && |p.proof.info.auditors| == |auditors|
    && forall k :: 0 <= k < |auditors| ==> p.proof.info.auditors[k] == auditors[k].publicKey
  }

  predicate MovesFunds(sv: Services, m: FundMove, params: MoveFundsParams) {
    && params.from == sv.account(m.from) && params.to == sv.account(m.to)
    && |params.proofs| == |m.assetMoves|
    && forall j :: 0 <= j < |params.proofs| ==> MovesAmount(sv, m, m.assetMoves[j], params.proofs[j])
  }

  /** Whatever is submitted moves, position by position, what was asked for. */
  lemma SubmissionMoves(sv: Services, moves: seq<FundMove>, acts: seq<Action>)
    requires Valid(sv, moves, acts)
    ensures forall k :: 0 <= k < |Run(sv, moves, acts).submits| ==>
      var submitted := Run(sv, moves, acts).submits[k];
      |submitted| == |moves| && forall i :: 0 <= i < |moves| ==> MovesFunds(sv, moves[i], submitted[i])
  {
    SubmitsAligned(sv, moves, acts);
    forall i | 0 <= i < |moves| ensures MovesFunds(sv, moves[i], ExpectedMove(sv, moves[i])) {
      var m := moves[i];
      forall j | 0 <= j < |m.assetMoves|
        ensures MovesAmount(sv, m, m.assetMoves[j], ExpectedMove(sv, m).proofs[j])
      {
        assert ExpectedMove(sv, m).proofs[j] == ExpectedProof(sv, m, m.assetMoves[j]);
      }
    }
  }

  // ----- what waits for what -----

  /** What has been answered when a request can be. */
  predicate Awaited(req: Request, answered: Request) {
    match req
    case FindFrom(_) => false
    case FindTo(_) => false
    case GetBalance(i, _) => answered == FindFrom(i) || answered == FindTo(i)
    case FindAsset(i, _) => answered == FindFrom(i) || answered == FindTo(i)
    case GetAuditors(i, j) => answered == GetBalance(i, j) || answered == FindAsset(i, j)
    case GenerateProof(i, j) => answered == GetAuditors(i, j)
  }

  /** A slot is full exactly when its own request has been answered. */
  lemma {:induction false} FilledHistory(sv: Services, moves: seq<FundMove>, acts: seq<Action>, req: Request)
    requires Valid(sv, moves, acts)
    ensures HasSlot(Run(sv, moves, acts).tasks, req) && Filled(Run(sv, moves, acts).tasks, req) <==> Completed(req) in acts
    decreases |acts|
  {
    if acts != [] {
      var front, a := acts[..|acts| - 1], acts[|acts| - 1];
      assert acts == front + [a];
      FilledHistory(sv, moves, front, req);
      StepFilled(sv, moves, Run(sv, moves, front), a, req);
    }
  }

  lemma StepFilled(sv: Services, moves: seq<FundMove>, s: State, a: Action, req: Request)
    requires Shaped(moves, s.tasks) && Outstanding(s, a.req)
    ensures var after := Step(sv, moves, s, a).tasks;
      HasSlot(after, req) && Filled(after, req) <==> a == Completed(req) || (HasSlot(s.tasks, req) && Filled(s.tasks, req))
  {
    if a.Completed? {
      FillSlots(sv, moves, s.tasks, a.req, req);
      if a.req != req && HasSlot(s.tasks, req) {
        FillOnlyOwn(sv, moves, s.tasks, a.req, req);
      }
    }
  }

  lemma {:induction false} FailedHistory(sv: Services, moves: seq<FundMove>, acts: seq<Action>, req: Request)
    requires Valid(sv, moves, acts)
    ensures req in Run(sv, moves, acts).failed <==> Failed(req) in acts
    decreases |acts|
  {
    if acts != [] {
      assert acts == acts[..|acts| - 1] + [acts[|acts| - 1]];
      FailedHistory(sv, moves, acts[..|acts| - 1], req);
    }
  }

  /** Filling a slot fills it, and makes no other slot. */
  lemma FillSlots(sv: Services, moves: seq<FundMove>, tasks: seq<MoveTask>, req: Request, other: Request)
    requires Shaped(moves, tasks) && HasSlot(tasks, req) && Started(tasks, req)
    ensures HasSlot(Fill(sv, moves, tasks, req), other) <==> HasSlot(tasks, other)
    ensures HasSlot(Fill(sv, moves, tasks, req), req) && Filled(Fill(sv, moves, tasks, req), req)
  {
  }

  /** In every run each request is answered or fails once, after everything it waits for has been answered. */
  lemma RequestsWait(sv: Services, moves: seq<FundMove>, acts: seq<Action>, k: nat)
    requires Valid(sv, moves, acts) && k < |acts|
    ensures forall answered :: Awaited(acts[k].req, answered) ==> Completed(answered) in acts[..k]
    ensures Completed(acts[k].req) !in acts[..k] && Failed(acts[k].req) !in acts[..k]
  {
    RunPrefix(sv, moves, acts, k);
    var req := acts[k].req;
    FilledHistory(sv, moves, acts[..k], req);
    FailedHistory(sv, moves, acts[..k], req);
    forall answered | Awaited(req, answered) ensures Completed(answered) in acts[..k] {
      FilledHistory(sv, moves, acts[..k], answered);
    }
  }

  lemma {:induction false} RunPrefix(sv: Services, moves: seq<FundMove>, acts: seq<Action>, k: nat)
    requires Valid(sv, moves, acts) && k < |acts|
    ensures Valid(sv, moves, acts[..k]) && Outstanding(Run(sv, moves, acts[..k]), acts[k].req)
    decreases |acts|
  {
    if k < |acts| - 1 {
      RunPrefix(sv, moves, acts[..|acts| - 1], k);
      assert acts[..|acts| - 1][..k] == acts[..k];
    }
  }

  // ----- exactly one submission -----

  /** A proof is generated only after its auditors, and these only after its balance and asset. */
  predicate InOrder(t: ProofTask) {
    (t.proof.Some? ==> t.auditors.Some?) && (t.auditors.Some? ==> t.balance.Some? && t.asset.Some?)
  }

  ghost predicate FailuresHold(s: State) {
    && (forall i, j :: 0 <= i < |s.tasks| && 0 <= j < |s.tasks[i].proofs| ==> InOrder(s.tasks[i].proofs[j]))
    && (forall req :: req in s.failed ==> HasSlot(s.tasks, req) && !Filled(s.tasks, req))
  }

  lemma FillKeepsOrder(sv: Services, moves: seq<FundMove>, tasks: seq<MoveTask>, req: Request)
    requires Shaped(moves, tasks) && HasSlot(tasks, req) && Started(tasks, req)
    requires forall i, j :: 0 <= i < |tasks| && 0 <= j < |tasks[i].proofs| ==> InOrder(tasks[i].proofs[j])
    ensures var after := Fill(sv, moves, tasks, req);
      forall i, j :: 0 <= i < |after| && 0 <= j < |after[i].proofs| ==> InOrder(after[i].proofs[j])
  {
    var after := Fill(sv, moves, tasks, req);
    forall i, j | 0 <= i < |after| && 0 <= j < |after[i].proofs| ensures InOrder(after[i].proofs[j]) {
      assert InOrder(tasks[i].proofs[j]);
    }
  }

  /** Filling one slot fills no other. */
  lemma FillOnlyOwn(sv: Services, moves: seq<FundMove>, tasks: seq<MoveTask>, req: Request, other: Request)
    requires Shaped(moves, tasks) && HasSlot(tasks, req) && Started(tasks, req) && HasSlot(tasks, other) && other != req
    ensures HasSlot(Fill(sv, moves, tasks, req), other)
    ensures Filled(Fill(sv, moves, tasks, req), other) <==> Filled(tasks, other)
  {
  }

  lemma StepKeepsFailures(sv: Services, moves: seq<FundMove>, s: State, a: Action)
    requires Shaped(moves, s.tasks) && Outstanding(s, a.req) && FailuresHold(s)
    ensures FailuresHold(Step(sv, moves, s, a))
  {
    if a.Completed? {
      FillKeepsOrder(sv, moves, s.tasks, a.req);
      forall req | req in s.failed
        ensures HasSlot(Fill(sv, moves, s.tasks, a.req), req) && !Filled(Fill(sv, moves, s.tasks, a.req), req)
      {
        FillOnlyOwn(sv, moves, s.tasks, a.req, req);
      }
    }
  }

  lemma {:induction false} RunKeepsFailures(sv: Services, moves: seq<FundMove>, acts: seq<Action>)
    requires Valid(sv, moves, acts)
    ensures FailuresHold(Run(sv, moves, acts))
    decreases |acts|
  {
    if acts != [] {
      RunKeepsFailures(sv, moves, acts[..|acts| - 1]);
      StepKeepsFailures(sv, moves, Run(sv, moves, acts[..|acts| - 1]), acts[|acts| - 1]);
    }
  }

  /** A failed request leaves its slot, or one that waits for it, empty for ever. */
  lemma FailureBlocks(s: State, req: Request)
    requires FailuresHold(s) && req in s.failed
    ensures !AllDone(s.tasks)
  {
    if !req.FindFrom? && !req.FindTo? {
      assert InOrder(s.tasks[req.i].proofs[req.j]);
    }
    assert !Done(s.tasks[req.i]);
  }

  lemma QuietIsDone(s: State)
    requires s.failed == {} && forall req :: !Outstanding(s, req)
    ensures AllDone(s.tasks)
  {
    forall i | 0 <= i < |s.tasks| ensures Done(s.tasks[i]) {
      var t := s.tasks[i];
      assert !Outstanding(s, FindFrom(i)) && !Outstanding(s, FindTo(i));
      forall j | 0 <= j < |t.proofs| ensures t.proofs[j].asset.Some? && t.proofs[j].proof.Some? {
        assert !Outstanding(s, GetBalance(i, j)) && !Outstanding(s, FindAsset(i, j));
        assert !Outstanding(s, GetAuditors(i, j)) && !Outstanding(s, GenerateProof(i, j));
      }
    }
  }

  /**
   Once nothing is outstanding there has been exactly one submission, the aligned one, if no request
   failed, and none if any did; and a failure at any time rules a submission out.
   */
  lemma OneSubmitUnlessFailed(sv: Services, moves: seq<FundMove>, acts: seq<Action>)
    requires Valid(sv, moves, acts)
    ensures var s := Run(sv, moves, acts);
      && (s.failed != {} ==> s.submits == [])
      && (s.failed == {} && (forall req :: !Outstanding(s, req)) ==>
            s.submits == [Map(moves, m => ExpectedMove(sv, m))])
  {
    var s := Run(sv, moves, acts);
    SubmitsAligned(sv, moves, acts);
    RunKeepsFailures(sv, moves, acts);
    if req :| req in s.failed {
      FailureBlocks(s, req);
    }
    if s.failed == {} && forall req :: !Outstanding(s, req) {
      QuietIsDone(s);
    }
  }
}
