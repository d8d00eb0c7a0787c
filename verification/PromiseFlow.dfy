/**
 How a rejection travels through nested async code: awaited steps, `Promise.all`, catches that
 throw `handleSdkError`, and promises that a `try` returns without awaiting them.
 */
module PromiseFlow {
  import opened Wrappers
  import opened SdkErrors

  datatype Program<E> =
    | Call(effects: seq<E>, faults: seq<Thrown>)               // one call: what it does, and its rejection, if any
    | Then(first: Program, next: Program)                      // `await first; next`
    | Together(left: Program, right: Program, leftFirst: bool) // `Promise.all`: the earlier rejection wins
    | Catching(body: Program)                                  // `try { await body } catch (e) { throw handleSdkError(e) }`
    | Returning(body: Program, returned: Program)              // the same, but `try { await body; return returned }`

  /** A rejection as the caller sees it, where it came from, and how many catches it went through. */
  datatype Rejection = Rejection(error: Thrown, original: Thrown, crossings: nat)

  datatype Completion<E> = Completion(log: seq<E>, rejected: Option<Rejection>)

  /** A fresh rejection with the first of the faults. */
  function First(faults: seq<Thrown>): Option<Rejection> {
    if faults == [] then None else Some(Rejection(faults[0], faults[0], 0))
  }

  function Caught(rejected: Option<Rejection>): Option<Rejection> {
    match rejected
    case None => None
    case Some(r) => Some(Rejection(Rethrow(r.error, None), r.original, r.crossings + 1))
  }

  function Eval<E>(p: Program<E>): Completion<E> {
    match p
    case Call(effects, faults) => Completion(effects, First(faults))
    case Then(first, next) =>
      var f, n := Eval(first), Eval(next);
      if f.rejected.Some? then f else Completion(f.log + n.log, n.rejected)
    case Together(left, right, leftFirst) =>
      var l, r := Eval(left), Eval(right);
      Completion(l.log + r.log, if l.rejected.Some? && (leftFirst || r.rejected.None?) then l.rejected else r.rejected)
    case Catching(body) =>
      var b := Eval(body);
      Completion(b.log, Caught(b.rejected))
    case Returning(body, returned) =>
      var b, r := Eval(body), Eval(returned);
      if b.rejected.Some? then Completion(b.log, Caught(b.rejected)) else Completion(b.log + r.log, r.rejected)
  }

  /** In any program an error arrives as it was thrown, or mapped once, whatever it went through. */
  lemma {:induction false} MappedOnce<E>(p: Program<E>)
    ensures var rejected := Eval(p).rejected;
      rejected.Some? ==>
        rejected.value.error ==
          if rejected.value.crossings == 0 then rejected.value.original else Rethrow(rejected.value.original, None)
  {
    match p
    case Call(_, _) =>
    case Then(first, next) => MappedOnce(first); MappedOnce(next);
    case Together(left, right, _) => MappedOnce(left); MappedOnce(right);
    case Catching(body) => MappedOnce(body);
    case Returning(body, returned) => MappedOnce(body); MappedOnce(returned);
  }
}
