/**
 Executing a procedure: `submit`, `prepareProcedure` and `processTransaction`. The methods compute
 results and effects; each is proved to follow the async program of its control flow, from which
 it is computed which errors are mapped and which escape.
 */
module SubmitPath {
  import opened Wrappers
  import opened Sequences
  import opened SdkErrors
  import opened PromiseFlow

  datatype ProcessMode = Submit | SubmitWithCallback | DryRun | Offline | AMQP

  datatype Kind = Single | Batch | Unsupported

  /** A prepared procedure and how its calls will turn out. */
  datatype Procedure = Procedure(
    supportsSubsidy: Result<bool, Thrown>,
    totalFees: Result<int, Thrown>,
    run: Result<string, Thrown>,
    feesRejectFirst: bool, // which rejection wins when fees and run both reject
    signablePayload: Result<string, Thrown>,
    multiSig: bool,
    kind: Kind)

  /** How the collaborators of one `submit` call answer; `prepare(n)` is the n-th preparation of the procedure. */
  datatype Environment = Environment(
    methodLength: nat,
    signingAccount: Result<string, Thrown>,
    prepare: nat -> Result<Procedure, Thrown>,
    createSubscription: Result<nat, Thrown>,
    updateSubscription: Result<nat, Thrown>,
    assemblePayload: Result<string, Thrown>,
    beginTransaction: Result<string, Thrown>)

  datatype Argument = MethodArgs | Options

  datatype Effect =
    | Prepared(n: nat, arguments: seq<Argument>)
    | FeesRequested(n: nat)
    | RunStarted(n: nat)
    | PayloadRequested(n: nat)
    | ListenerAdded(n: nat)
    | OfflineBegun(n: nat)

  datatype Outcome =
    | Notification(subscription: nat)
    | Receipt(receipt: string)
    | DryRunResult(multiSig: bool)
    | OfflineResult(payload: string)
    | DirectResult(result: string, single: bool)

  const UNSUPPORTED := App(AppInternal("Unsupported transaction details received"))

  /** The number of `run()` calls in a log of effects. */
  function Runs(log: seq<Effect>): nat {
    |Filter(log, (e: Effect) => e.RunStarted?)|
  }

  function FailureOf<T>(r: Result<T, Thrown>): seq<Thrown> {
    if r.Failure? then [r.error] else []
  }

  /** The rejection `Promise.all` reports for the fees and, when submitting, the run. */
  function Race(p: Procedure, mode: ProcessMode): seq<Thrown> {
    if mode == Submit && p.run.Failure? && !(p.totalFees.Failure? && p.feesRejectFirst) then [p.run.error]
    else FailureOf(p.totalFees)
  }

  /** What can go wrong in `processTransaction`, in the order it would come up. */
  function ProcessFaults(env: Environment, mode: ProcessMode): seq<Thrown> {
    if env.prepare(1).Failure? then [env.prepare(1).error]
    else
      var p := env.prepare(1).value;
      FailureOf(p.supportsSubsidy) + Race(p, mode) + LastFaults(p, mode)
  }

  function LastFaults(p: Procedure, mode: ProcessMode): seq<Thrown> {
    if mode == DryRun then []
    else if mode == Offline then FailureOf(p.signablePayload)
    else if p.kind.Unsupported? then [UNSUPPORTED] else []
  }

  /** A procedure method that takes no arguments gets the options alone. */
  function ArgumentsFor(env: Environment): seq<Argument> {
    if env.methodLength == 0 then [Options] else [MethodArgs, Options]
  }

  // ----- the control flow, as async programs -----

  const DONE: Program<Effect> := Call([], [])

  function PrepareProgram(env: Environment, n: nat): Program<Effect> {
    Catching(Call([Prepared(n, ArgumentsFor(env))], FailureOf(env.prepare(n))))
  }

  function LastProgram(p: Procedure, mode: ProcessMode): Program<Effect> {
    if mode == DryRun then DONE
    else if mode == Offline then Call([PayloadRequested(1)], FailureOf(p.signablePayload))
    else Call([], if p.kind.Unsupported? then [UNSUPPORTED] else [])
  }

  function FeesAndRun(p: Procedure, mode: ProcessMode): Program<Effect> {
    Together(Call([FeesRequested(1)], FailureOf(p.totalFees)),
             if mode == Submit then Call([RunStarted(1)], FailureOf(p.run)) else DONE, p.feesRejectFirst)
  }

  function PricedProgram(p: Procedure, mode: ProcessMode): Program<Effect> {
    Then(FeesAndRun(p, mode), LastProgram(p, mode))
  }

  function PreparedProgram(p: Procedure, mode: ProcessMode): Program<Effect> {
    Then(Call([], FailureOf(p.supportsSubsidy)), PricedProgram(p, mode))
  }

  function TryProgram(env: Environment, mode: ProcessMode): Program<Effect> {
    Then(PrepareProgram(env, 1), if env.prepare(1).Success? then PreparedProgram(env.prepare(1).value, mode) else DONE)
  }

  function SubscribedProgram(env: Environment): Program<Effect> {
    Then(Call([], FailureOf(env.updateSubscription)), Call([RunStarted(0)], FailureOf(env.assemblePayload)))
  }

  function CallbackProgram(env: Environment): Program<Effect> {
    Then(Call([ListenerAdded(0)], FailureOf(env.createSubscription)), SubscribedProgram(env))
  }

  function ReturnedProgram(env: Environment, mode: ProcessMode): Program<Effect> {
    if mode == SubmitWithCallback then CallbackProgram(env)
    else if mode == AMQP then Call([OfflineBegun(0)], FailureOf(env.beginTransaction))
    else Catching(TryProgram(env, mode))
  }

  function SubmitProgram(env: Environment, mode: ProcessMode): Program<Effect> {
    Then(Call([], FailureOf(env.signingAccount)), Returning(PrepareProgram(env, 0), ReturnedProgram(env, mode)))
  }

  /** The call did what the program does, and rejected exactly as it does. */
  ghost predicate Follows<T>(r: Result<T, Thrown>, log: seq<Effect>, p: Program<Effect>) {
    && log == Eval(p).log
    && Eval(p).rejected.Some? == r.Failure?
    && (r.Failure? ==> Eval(p).rejected.value.error == r.error)
  }

  // ----- the calls -----

  /** `prepareProcedure` */
  method PrepareProcedure(env: Environment, n: nat) returns (r: Result<Procedure, Thrown>, log: seq<Effect>)
    ensures r == if env.prepare(n).Success? then env.prepare(n) else Failure(Rethrow(env.prepare(n).error, None))
    ensures r.Failure? ==> MapsTo(env.prepare(n).error, None, r.error.e)
    ensures log == [Prepared(n, ArgumentsFor(env))] && Options in log[0].arguments
    ensures MethodArgs in log[0].arguments <==> env.methodLength != 0
    ensures Follows(r, log, PrepareProgram(env, n))
  {
    if env.methodLength == 0 {
      log := [Prepared(n, [Options])];
    } else {
      log := [Prepared(n, [MethodArgs, Options])];
    }
    match env.prepare(n) {
      case Success(procedure) => r := Success(procedure);
      case Failure(error) =>
        ErrorTable(error, None);
        r := Failure(Rethrow(error, None));
    }
  }

  /** What a procedure whose steps all went well answers. */
  predicate Answers(p: Procedure, mode: ProcessMode, outcome: Outcome) {
    && (mode == DryRun ==> outcome == DryRunResult(p.multiSig))
    && (mode == Offline ==> p.signablePayload.Success? && outcome == OfflineResult(p.signablePayload.value))
    && (mode == Submit ==> p.run.Success? && outcome == DirectResult(p.run.value, p.kind.Single?))
  }

  predicate ProcessSucceeds(env: Environment, mode: ProcessMode, outcome: Outcome) {
    env.prepare(1).Success? && Answers(env.prepare(1).value, mode, outcome)
  }

  /** The last step of `processTransaction`: `result` is what the run gave, if there was one. */
  method FinishProcess(procedure: Procedure, mode: ProcessMode, result: string)
    returns (r: Result<Outcome, Thrown>, log: seq<Effect>)
    requires mode == Submit ==> procedure.run == Success(result)
    ensures Follows(r, log, LastProgram(procedure, mode))
    ensures r.Success? ==> Answers(procedure, mode, r.value)
  {
    log := [];
    if mode == DryRun {
      return Success(DryRunResult(procedure.multiSig)), log;
    }
    if mode == Offline {
      log := [PayloadRequested(1)];
      if procedure.signablePayload.Failure? {
        return Failure(procedure.signablePayload.error), log;
      }
      return Success(OfflineResult(procedure.signablePayload.value)), log;
    }
    if procedure.kind.Unsupported? {
      return Failure(UNSUPPORTED), log;
    }
    return Success(DirectResult(result, procedure.kind.Single?)), log;
  }

  /** `Promise.all` of the fees and, when submitting, the run; then the last step. */
  method PriceAndRun(procedure: Procedure, mode: ProcessMode) returns (r: Result<Outcome, Thrown>, log: seq<Effect>)
    ensures Follows(r, log, PricedProgram(procedure, mode))
    ensures r.Success? ==> Answers(procedure, mode, r.value)
  {
    FeesEval(procedure, mode);
    log := [FeesRequested(1)];
    if mode == Submit {
      log := log + [RunStarted(1)];
    }
    if procedure.totalFees.Failure? && (mode != Submit || procedure.run.Success? || procedure.feesRejectFirst) {
      return Failure(procedure.totalFees.error), log;
    }
    if mode == Submit && procedure.run.Failure? {
      return Failure(procedure.run.error), log;
    }
    var more;
    r, more := FinishProcess(procedure, mode, if mode == Submit then procedure.run.value else "");
    log := log + more;
  }

  /** The body of the `try` in `processTransaction`. */
  method TryProcess(env: Environment, mode: ProcessMode) returns (r: Result<Outcome, Thrown>, log: seq<Effect>)
    ensures Follows(r, log, TryProgram(env, mode))
    ensures r.Success? ==> ProcessSucceeds(env, mode, r.value)
  {
    var prepared;
    prepared, log := PrepareProcedure(env, 1);
    if prepared.Failure? {
      return Failure(prepared.error), log;
    }
    var procedure := prepared.value;
    assert Eval(PrepareProgram(env, 1)) == Completion(log, None);
    PreparedEval(procedure, mode);
    if procedure.supportsSubsidy.Failure? {
      return Failure(procedure.supportsSubsidy.error), log;
    }
    var more;
    r, more := PriceAndRun(procedure, mode);
    log := log + more;
  }

  lemma FeesEval(p: Procedure, mode: ProcessMode)
    ensures Eval(FeesAndRun(p, mode)) ==
      Completion([FeesRequested(1)] + (if mode == Submit then [RunStarted(1)] else []), First(Race(p, mode)))
  {
    var run := if mode == Submit then Call([RunStarted(1)], FailureOf(p.run)) else DONE;
    assert Eval(run) == Completion(if mode == Submit then [RunStarted(1)] else [],
                                   if mode == Submit then First(FailureOf(p.run)) else None);
  }

  lemma PreparedEval(p: Procedure, mode: ProcessMode)
    ensures var fees, priced, all := Eval(FeesAndRun(p, mode)), Eval(PricedProgram(p, mode)), Eval(PreparedProgram(p, mode));
      && fees.log == [FeesRequested(1)] + (if mode == Submit then [RunStarted(1)] else [])
      && fees.rejected == First(Race(p, mode))
      && priced.log == fees.log
           + (if fees.rejected.None? && mode == Offline then [PayloadRequested(1)] else [])
      && priced.rejected == First(Race(p, mode) + LastFaults(p, mode))
      && all.log == (if p.supportsSubsidy.Failure? then [] else priced.log)
      && all.rejected == First(FailureOf(p.supportsSubsidy) + Race(p, mode) + LastFaults(p, mode))
  {
    FeesEval(p, mode);
    assert Eval(LastProgram(p, mode)) ==
      Completion(if mode == Offline then [PayloadRequested(1)] else [], First(LastFaults(p, mode)));
  }

  /** What `processTransaction` does and how it can fail. */
  lemma TryEval(env: Environment, mode: ProcessMode)
    ensures var c := Eval(TryProgram(env, mode));
      && c.rejected.Some? == (ProcessFaults(env, mode) != [])
      && (c.rejected.Some? ==> c.rejected.value.original == ProcessFaults(env, mode)[0])
      && c.log == [Prepared(1, ArgumentsFor(env))]
           + if env.prepare(1).Success? then Eval(PreparedProgram(env.prepare(1).value, mode)).log else []
  {
    assert Eval(PrepareProgram(env, 1)) ==
      Completion([Prepared(1, ArgumentsFor(env))], Caught(First(FailureOf(env.prepare(1)))));
    if env.prepare(1).Success? {
      PreparedEval(env.prepare(1).value, mode);
    }
  }

  /** Only a prepared procedure runs: once, if submitting gets that far. */
  lemma PreparedLog(p: Procedure, mode: ProcessMode)
    ensures var log := Eval(PreparedProgram(p, mode)).log;
      && Runs(log) == (if mode == Submit && p.supportsSubsidy.Success? then 1 else 0)
      && forall e :: e in log ==> !e.Prepared? && (e.RunStarted? ==> e == RunStarted(1))
  {
    PreparedEval(p, mode);
    if p.supportsSubsidy.Success? {
      var fees: seq<Effect> := [FeesRequested(1)];
      var run: seq<Effect> := if mode == Submit then [RunStarted(1)] else [];
      var last: seq<Effect> := if Race(p, mode) == [] && mode == Offline then [PayloadRequested(1)] else [];
      RunsAppend(fees, run);
      RunsAppend(fees + run, last);
      RunsShort(fees);
      RunsShort(run);
      RunsShort(last);
      assert Eval(PreparedProgram(p, mode)).log == fees + run + last;
    }
  }

  lemma ProcessLog(env: Environment, mode: ProcessMode)
    ensures var log := Eval(TryProgram(env, mode)).log;
      && Runs(log) ==
           (if mode == Submit && env.prepare(1).Success? && env.prepare(1).value.supportsSubsidy.Success? then 1 else 0)
      && (forall e :: e in log && e.RunStarted? ==> e == RunStarted(1))
      && Prepared(1, ArgumentsFor(env)) in log
      && (forall e :: e in log && e.Prepared? ==> e == Prepared(1, ArgumentsFor(env)))
  {
    TryEval(env, mode);
    var before := [Prepared(1, ArgumentsFor(env))];
    var after := if env.prepare(1).Success? then Eval(PreparedProgram(env.prepare(1).value, mode)).log else [];
    RunsShort(before);
    RunsAppend(before, after);
    if env.prepare(1).Success? {
      PreparedLog(env.prepare(1).value, mode);
    } else {
      RunsShort(after);
    }
    assert before[0] in before + after;
  }

  lemma RunsAppend(before: seq<Effect>, after: seq<Effect>)
    ensures Runs(before + after) == Runs(before) + Runs(after)
  {
    FilterAppend(before, after, (e: Effect) => e.RunStarted?);
  }

  lemma RunsShort(log: seq<Effect>)
    requires |log| <= 1
    ensures Runs(log) == if log != [] && log[0].RunStarted? then 1 else 0
  {
    if log != [] {
      assert log == [log[0]];
      assert Filter([log[0]], (e: Effect) => e.RunStarted?) == if log[0].RunStarted? then [log[0]] else [];
    }
  }

  /** Nothing has failed when the response is assembled, from a transaction of an unknown kind. */
  predicate ReachesUnsupported(env: Environment, mode: ProcessMode) {
    && env.prepare(1).Success? && mode != DryRun && mode != Offline
    && var p := env.prepare(1).value;
    && p.kind.Unsupported? && p.supportsSubsidy.Success? && p.totalFees.Success? && (mode == Submit ==> p.run.Success?)
  }

  /** `processTransaction`: the body's errors go through its own catch. */
  method ProcessTransaction(env: Environment, mode: ProcessMode) returns (r: Result<Outcome, Thrown>, log: seq<Effect>)
    ensures Follows(r, log, Catching(TryProgram(env, mode)))
    ensures r.Success? ==> ProcessSucceeds(env, mode, r.value)
    ensures r.Failure? <==> ProcessFaults(env, mode) != []
    ensures r.Failure? ==>
      r.error == Rethrow(ProcessFaults(env, mode)[0], None) && MapsTo(ProcessFaults(env, mode)[0], None, r.error.e)
    ensures ReachesUnsupported(env, mode) ==> r.Failure? && r.error.e.AppInternal?
    ensures Runs(log) ==
      if mode == Submit && env.prepare(1).Success? && env.prepare(1).value.supportsSubsidy.Success? then 1 else 0
    ensures forall e :: e in log && e.RunStarted? ==> e == RunStarted(1)
    ensures Prepared(1, ArgumentsFor(env)) in log && forall e :: e in log && e.Prepared? ==> e == Prepared(1, ArgumentsFor(env))
  {
    r, log := TryProcess(env, mode);
    if r.Failure? {
      r := Failure(Rethrow(r.error, None));
    }
    ProcessLog(env, mode);
    TryEval(env, mode);
    MappedOnce(Catching(TryProgram(env, mode)));
    if ProcessFaults(env, mode) != [] {
      ErrorTable(ProcessFaults(env, mode)[0], None);
    }
  }

  /** What can go wrong in `submitAndSubscribe` apart from the run itself, whose rejection is only logged. */
  function CallbackFaults(env: Environment): seq<Thrown> {
    FailureOf(env.createSubscription) + FailureOf(env.updateSubscription) + FailureOf(env.assemblePayload)
  }

  lemma CallbackEval(env: Environment)
    ensures var subscribed, all := Eval(SubscribedProgram(env)), Eval(CallbackProgram(env));
      && subscribed.log == (if env.updateSubscription.Success? then [RunStarted(0)] else [])
      && subscribed.rejected == First(FailureOf(env.updateSubscription) + FailureOf(env.assemblePayload))
      && all.log == [ListenerAdded(0)] + (if env.createSubscription.Success? then subscribed.log else [])
      && all.rejected == First(CallbackFaults(env))
  {
  }

  /** The first instance runs once both subscription calls have succeeded. */
  lemma CallbackLog(env: Environment)
    ensures var log := Eval(CallbackProgram(env)).log;
      && Runs(log) == (if env.createSubscription.Success? && env.updateSubscription.Success? then 1 else 0)
      && forall e :: e in log ==> !e.Prepared? && (e.RunStarted? ==> e == RunStarted(0))
  {
    CallbackEval(env);
    var listened, subscribed: seq<Effect> := [ListenerAdded(0)], Eval(SubscribedProgram(env)).log;
    RunsShort(listened);
    RunsShort(subscribed);
    RunsAppend(listened, subscribed);
  }

  /** `submitAndSubscribe` on the first prepared instance. */
  method SubmitAndSubscribe(env: Environment) returns (r: Result<Outcome, Thrown>, log: seq<Effect>)
    ensures Follows(r, log, CallbackProgram(env))
    ensures r.Failure? <==> CallbackFaults(env) != []
    ensures r.Failure? ==> r.error == CallbackFaults(env)[0]
    ensures r.Success? ==> r.value == Notification(env.createSubscription.value)
    ensures Runs(log) == if env.createSubscription.Success? && env.updateSubscription.Success? then 1 else 0
    ensures forall e :: e in log && e.RunStarted? ==> e == RunStarted(0)
    ensures forall e :: e in log ==> !e.Prepared?
  {
    CallbackEval(env);
    CallbackLog(env);
    log := [ListenerAdded(0)];
    if env.createSubscription.Failure? {
      return Failure(env.createSubscription.error), log;
    }
    if env.updateSubscription.Failure? {
      return Failure(env.updateSubscription.error), log;
    }
    log := log + [RunStarted(0)];
    if env.assemblePayload.Failure? {
      return Failure(env.assemblePayload.error), log;
    }
    return Success(Notification(env.createSubscription.value)), log;
  }

  /** When a submission calls `run()`: exactly here, and then exactly once. */
  predicate ShouldRun(env: Environment, mode: ProcessMode) {
    && env.signingAccount.Success? && env.prepare(0).Success?
    && match mode
       case Submit => env.prepare(1).Success? && env.prepare(1).value.supportsSubsidy.Success?
       case SubmitWithCallback => env.createSubscription.Success? && env.updateSubscription.Success?
       case _ => false
  }

  /** Where the error a caller of `submit` sees comes from, and whether it crossed a catch on its way. */
  datatype Fault = NoFault | Mapped(original: Thrown) | Escaped(original: Thrown)

  function FaultOf(faults: seq<Thrown>, mapped: bool): Fault {
    if faults == [] then NoFault else if mapped then Mapped(faults[0]) else Escaped(faults[0])
  }

  function SubmitFault(env: Environment, mode: ProcessMode): Fault {
    if env.signingAccount.Failure? then Escaped(env.signingAccount.error)
    else if env.prepare(0).Failure? then Mapped(env.prepare(0).error)
    else if mode == SubmitWithCallback then FaultOf(CallbackFaults(env), false)
    else if mode == AMQP then FaultOf(FailureOf(env.beginTransaction), false)
    else FaultOf(ProcessFaults(env, mode), true)
  }

  /** Which errors are mapped and which escape is what the control flow makes of them. */
  lemma SubmitFaultComputed(env: Environment, mode: ProcessMode)
    ensures var rejected := Eval(SubmitProgram(env, mode)).rejected;
      match SubmitFault(env, mode)
      case NoFault => rejected.None?
      case Mapped(original) => rejected.Some? && rejected.value.original == original && rejected.value.crossings > 0
      case Escaped(original) => rejected.Some? && rejected.value.original == original && rejected.value.crossings == 0
  {
    ReturnedEval(env, mode);
    TryEval(env, mode);
    assert Eval(PrepareProgram(env, 0)).rejected == Caught(First(FailureOf(env.prepare(0))));
  }

  lemma ReturnedEval(env: Environment, mode: ProcessMode)
    ensures Eval(ReturnedProgram(env, mode)).rejected ==
      if mode == SubmitWithCallback then First(CallbackFaults(env))
      else if mode == AMQP then First(FailureOf(env.beginTransaction))
      else Caught(Eval(TryProgram(env, mode)).rejected)
  {
    CallbackEval(env);
  }

  /** The effects of a submission. */
  lemma SubmitEval(env: Environment, mode: ProcessMode)
    ensures Eval(SubmitProgram(env, mode)).log ==
      if env.signingAccount.Failure? then []
      else [Prepared(0, ArgumentsFor(env))]
           + if env.prepare(0).Failure? then [] else Eval(ReturnedProgram(env, mode)).log
  {
    assert Eval(PrepareProgram(env, 0)) ==
      Completion([Prepared(0, ArgumentsFor(env))], Caught(First(FailureOf(env.prepare(0)))));
  }

  /** The fault as the caller sees it: mapped as the error table says, or as it was thrown. */
  ghost predicate Surfaces(fault: Fault, r: Result<Outcome, Thrown>) {
    match fault
    case NoFault => r.Success?
    case Mapped(original) =>
      r == Failure(App(HandleSdkError(original, None).e)) && MapsTo(original, None, r.error.e)
    case Escaped(original) => r == Failure(original)
  }

  lemma FaultSurfaces(env: Environment, mode: ProcessMode, r: Result<Outcome, Thrown>, log: seq<Effect>)
    requires Follows(r, log, SubmitProgram(env, mode))
    ensures Surfaces(SubmitFault(env, mode), r)
  {
    SubmitFaultComputed(env, mode);
    MappedOnce(SubmitProgram(env, mode));
    match SubmitFault(env, mode)
    case Mapped(original) => ErrorTable(original, None);
    case _ =>
  }

  /** The answer of a submission without any fault. */
  predicate SubmitSucceeds(env: Environment, mode: ProcessMode, outcome: Outcome) {
    if mode == SubmitWithCallback then
      env.createSubscription.Success? && outcome == Notification(env.createSubscription.value)
    else if mode == AMQP then env.beginTransaction.Success? && outcome == Receipt(env.beginTransaction.value)
    else ProcessSucceeds(env, mode, outcome)
  }

  lemma ReturnedLog(env: Environment, mode: ProcessMode)
    requires env.signingAccount.Success? && env.prepare(0).Success?
    ensures var log := Eval(ReturnedProgram(env, mode)).log;
      && Runs(log) == (if ShouldRun(env, mode) then 1 else 0)
      && (forall e :: e in log && e.Prepared? ==> e == Prepared(1, ArgumentsFor(env)))
      && forall e :: e in log && e.RunStarted? ==>
           if mode == SubmitWithCallback then e == RunStarted(0)
           else e == RunStarted(1) && Prepared(1, ArgumentsFor(env)) in log
  {
    if mode == SubmitWithCallback {
      CallbackLog(env);
    } else if mode == AMQP {
      RunsShort([OfflineBegun(0)]);
    } else {
      ProcessLog(env, mode);
    }
  }

  /** At most one run, of an instance that has been prepared; at most two preparations, with the same arguments. */
  lemma SubmitLog(env: Environment, mode: ProcessMode)
    ensures var log := Eval(SubmitProgram(env, mode)).log;
      && Runs(log) == (if ShouldRun(env, mode) then 1 else 0)
      && (forall e :: e in log && e.RunStarted? ==>
            e == RunStarted(if mode == SubmitWithCallback then 0 else 1) && Prepared(e.n, ArgumentsFor(env)) in log)
      && forall e :: e in log && e.Prepared? ==> e.n <= 1 && e.arguments == ArgumentsFor(env)
  {
    SubmitEval(env, mode);
    var first := [Prepared(0, ArgumentsFor(env))];
    RunsShort(first);
    RunsShort([]);
    if env.signingAccount.Success? && env.prepare(0).Success? {
      var more := Eval(ReturnedProgram(env, mode)).log;
      ReturnedLog(env, mode);
      RunsAppend(first, more);
      assert forall e :: e in first + more <==> e in first || e in more;
      assert first[0] in first;
    } else {
      assert first + [] == first;
    }
  }

  /** What `submit` returns without awaiting it. */
  method SubmitPrepared(env: Environment, mode: ProcessMode) returns (r: Result<Outcome, Thrown>, log: seq<Effect>)
    requires env.signingAccount.Success? && env.prepare(0).Success?
    ensures Follows(r, log, ReturnedProgram(env, mode))
    ensures r.Success? ==> SubmitSucceeds(env, mode, r.value)
  {
    if mode == SubmitWithCallback {
      r, log := SubmitAndSubscribe(env);
    } else if mode == AMQP {
      log := [OfflineBegun(0)];
      r := match env.beginTransaction case Success(receipt) => Success(Receipt(receipt)) case Failure(e) => Failure(e);
    } else {
      r, log := ProcessTransaction(env, mode);
    }
  }

  /** The body of `submit`. */
  method SubmitCall(env: Environment, mode: ProcessMode) returns (r: Result<Outcome, Thrown>, log: seq<Effect>)
    ensures Follows(r, log, SubmitProgram(env, mode))
    ensures r.Success? ==> SubmitSucceeds(env, mode, r.value)
  {
    SubmitEval(env, mode);
    log := [];
    if env.signingAccount.Failure? {
      return Failure(env.signingAccount.error), log;
    }
    var first;
    first, log := PrepareProcedure(env, 0);
    if first.Failure? {
      return Failure(Rethrow(first.error, None)), log;
    }
    var more;
    r, more := SubmitPrepared(env, mode);
    log := log + more;
  }

  /**
   `submit`: the procedure may be prepared twice but runs at most once, in no other mode than the two
   that submit; an error that crosses several catches arrives as one application of
   `handleSdkError` to the original.
   */
  method SubmitTransaction(env: Environment, mode: ProcessMode) returns (r: Result<Outcome, Thrown>, log: seq<Effect>)
    ensures Follows(r, log, SubmitProgram(env, mode))
    ensures r.Success? ==> SubmitSucceeds(env, mode, r.value)
    ensures Runs(log) == if ShouldRun(env, mode) then 1 else 0
    ensures forall e :: e in log && e.RunStarted? ==>
      e == RunStarted(if mode == SubmitWithCallback then 0 else 1) && Prepared(e.n, ArgumentsFor(env)) in log
    ensures forall e :: e in log && e.Prepared? ==> e.n <= 1 && e.arguments == ArgumentsFor(env)
    ensures Surfaces(SubmitFault(env, mode), r)
  {
    SubmitLog(env, mode);
    r, log := SubmitCall(env, mode);
    FaultSurfaces(env, mode, r, log);
  }
}
