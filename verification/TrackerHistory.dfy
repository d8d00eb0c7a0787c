/** What the actions of a run say by themselves, and how the state records it. */
module TrackerHistory {
  import opened Wrappers
  import opened Sequences
  import opened Decimals
  import opened TransactionPayloads
  import opened TransactionTracker
  import opened TrackerInvariant

  // ----- runs -----

  lemma ValidSnoc(acts: seq<Action>, a: Action)
    requires Valid(acts) && Enabled(Run(acts), a)
    ensures Valid(acts + [a]) && Run(acts + [a]) == Step(Run(acts), a)
  {
    assert (acts + [a])[..|acts|] == acts;
  }

  lemma {:induction false} ValidPrefix(acts: seq<Action>, k: nat)
    requires Valid(acts) && k <= |acts|
    ensures Valid(acts[..k])
    decreases |acts|
  {
    if k < |acts| {
      ValidPrefix(acts[..|acts| - 1], k);
      assert acts[..|acts| - 1][..k] == acts[..k];
    } else {
      assert acts[..k] == acts;
    }
  }

  lemma StepPrefix(acts: seq<Action>, k: nat)
    requires Valid(acts) && k < |acts|
    ensures Valid(acts[..k]) && Enabled(Run(acts[..k]), acts[k])
    ensures Valid(acts[..k + 1]) && Run(acts[..k + 1]) == Step(Run(acts[..k]), acts[k])
  {
    ValidPrefix(acts, k);
    ValidPrefix(acts, k + 1);
    assert acts[..k + 1][..k] == acts[..k] && acts[..k + 1][k] == acts[k];
  }

  // ----- one step -----

  /** The handler has seen its createEvent succeed. */
  predicate EventDone(stage: Stage) {
    stage.Reported? || stage.EntryMissing? || Cleaning(stage)
  }

  ghost predicate SameCall(before: Handler, after: Handler) {
    before.id == after.id && before.status == after.status && before.seen == after.seen
  }

  predicate Notifies(a: Action) {
    a.Register? || a.NonceSet? || a.Notify?
  }

  predicate MovesHandler(a: Action) {
    a.EventCreated? || a.EventFailed? || a.SubscriptionsFound? || a.FindFailed? || a.MarkedDone? || a.MarkFailed?
  }

  /** The id an action's notifications are for. */
  function NotifiedId(s: State, a: Action): nat
    requires Notifies(a)
  {
    if a.Register? then s.currentId + 1 else a.id
  }

  /** The transaction as each of the action's notifications shows it. */
  function Snapshots(a: Action): seq<Transaction> {
    match a
    case Register(_, early) => early
    case NonceSet(_, early) => early
    case Notify(_, tx) => [tx]
    case _ => []
  }

  /** Where an action leaves the handler it moves. */
  function NextStage(s: State, a: Action): Stage
    requires MovesHandler(a) && a.h < |s.world.handlers|
  {
    var handler := s.world.handlers[a.h];
    match a
    case EventCreated(_) =>
      if !Ended(handler.status) then Reported
      else if handler.id in s.transactionStore then Finding else EntryMissing
    case EventFailed(_) => EventLost
    case SubscriptionsFound(_) => Marking(FindAll(s.world.subscriptions, Decimal(handler.id)))
    case MarkedDone(_) => Cleaned
    case _ => CleanupLost
  }

  /** `w'` is `w` with one handler moved along; calls, responses, transactions and events are the same. */
  predicate Moves(w: World, w': World, h: nat, stage: Stage) {
    && h < |w.handlers| && w'.handlers == w.handlers[h := w.handlers[h].(stage := stage)]
    && w'.calls == w.calls && w'.responses == w.responses
    && w'.transactions == w.transactions && w'.events == w.events
  }

  lemma ResumedMoves(s: State, h: nat)
    requires Enabled(s, EventCreated(h))
    ensures Moves(s.world, Step(s, EventCreated(h)).world, h, NextStage(s, EventCreated(h)))
  {
  }

  lemma MoveFrame(s: State, a: Action)
    requires MovesHandler(a) && Enabled(s, a)
    ensures a.h < |s.world.handlers| && Moves(s.world, Step(s, a).world, a.h, NextStage(s, a))
  {
    if a.EventCreated? {
      ResumedMoves(s, a.h);
    }
  }

  /** An action adds fresh handlers of one id, moves one handler along, or leaves the handlers alone. */
  lemma StepEffect(s: State, a: Action)
    requires Enabled(s, a)
    ensures var hs, hs' := s.world.handlers, Step(s, a).world.handlers;
      if Notifies(a) then ExtendsHandlers(hs, hs', NotifiedId(s, a), Snapshots(a))
      else if MovesHandler(a) then a.h < |hs| && hs' == hs[a.h := hs[a.h].(stage := NextStage(s, a))]
      else hs' == hs
  {
    if MovesHandler(a) {
      MoveFrame(s, a);
    } else if a.Register? {
      NotifiedAllExtends(Listed(s, a.tx).world, s.currentId + 1, a.early);
    } else if a.NonceSet? {
      NotifiedAllExtends(NonceUpdated(s.world, a.id, s.world.calls[a.id].sub), a.id, a.early);
    } else if a.Notify? {
      NotifiedExtends(s.world, a.id, a.tx);
    }
  }

  /** What registering changes besides transactions, handlers and events. */
  lemma RegisterFrame(s: State, tx: Transaction, early: seq<Transaction>)
    ensures var w, w' := s.world, Step(s, Register(tx, early)).world;
      && w'.calls == w.calls[s.currentId + 1 := CreatingSubscription]
      && w'.subscriptions == w.subscriptions && w'.responses == w.responses
  {
    NotifiedAllExtends(Listed(s, tx).world, s.currentId + 1, early);
  }

  /** What setting the nonce and starting the run changes besides transactions, handlers and events. */
  lemma NonceSetFrame(s: State, id: nat, early: seq<Transaction>)
    requires Enabled(s, NonceSet(id, early))
    ensures var w, w', sub := s.world, Step(s, NonceSet(id, early)).world, s.world.calls[id].sub;
      && w'.calls == w.calls[id := Started(sub)]
      && w'.subscriptions == w.subscriptions[sub := w.subscriptions[sub].(nextNonce := 1)]
      && id in w'.transactions
      && w'.responses ==
           if Assemblable(w'.transactions[id])
           then w.responses[id := Response(sub, Decimal(id), PayloadOf(w'.transactions[id]), 0)] else w.responses
  {
    var nonced := NonceUpdated(s.world, id, s.world.calls[id].sub);
    NotifiedAllExtends(nonced, id, early);
  }

  /** Any other action gives no response, and settles no call that has been settled. */
  lemma OtherFrame(s: State, a: Action)
    requires Enabled(s, a) && !a.Register? && !a.NonceSet?
    ensures var w, w' := s.world, Step(s, a).world;
      && w'.responses == w.responses
      && forall id :: id in w.calls && (w.calls[id].Started? || w.calls[id].Abandoned?) ==>
           id in w'.calls && w'.calls[id] == w.calls[id]
  {
    if MovesHandler(a) {
      MoveFrame(s, a);
    }
  }

  lemma ExtendedAt(before: seq<Handler>, after: seq<Handler>, id: nat, txs: seq<Transaction>, h: nat)
    requires ExtendsHandlers(before, after, id, txs) && h < |after|
    ensures if h < |before| then after[h] == before[h] else FreshHandler(after[h], id, txs[h - |before|])
  {
    if h < |before| {
      assert after[..|before|][h] == before[h];
    }
  }

  /** One step keeps every handler's call, and completes only the event it names. */
  lemma StepHandlers(s: State, a: Action, h: nat)
    requires Enabled(s, a)
    ensures var hs, hs' := s.world.handlers, Step(s, a).world.handlers;
      && (h < |hs| ==>
            && h < |hs'| && SameCall(hs[h], hs'[h])
            && (EventDone(hs'[h].stage) <==> EventDone(hs[h].stage) || a == EventCreated(h)))
      && (|hs| <= h < |hs'| ==> !EventDone(hs'[h].stage))
  {
    StepEffect(s, a);
    if Notifies(a) && h < |Step(s, a).world.handlers| {
      ExtendedAt(s.world.handlers, Step(s, a).world.handlers, NotifiedId(s, a), Snapshots(a), h);
    }
  }

  /** A handler's stage tells whether its createEvent has succeeded in the run. */
  lemma {:induction false} EventHistory(acts: seq<Action>, h: nat)
    requires Valid(acts)
    ensures EventCreated(h) in acts <==> h < |Run(acts).world.handlers| && EventDone(Run(acts).world.handlers[h].stage)
    decreases |acts|
  {
    if acts != [] {
      var front, last := acts[..|acts| - 1], acts[|acts| - 1];
      EventHistory(front, h);
      StepHandlers(Run(front), last, h);
      assert acts == front + [last];
    }
  }

  // ----- the notifications of a run -----

  function NotificationsOf(id: nat, txs: seq<Transaction>): seq<Notification> {
    Map(txs, tx => Notification(id, tx))
  }

  function Registrations(acts: seq<Action>): nat {
    if acts == [] then 0 else Registrations(acts[..|acts| - 1]) + if acts[|acts| - 1].Register? then 1 else 0
  }

  /** The notifications a run gives, in order. The n-th registration is for id n. */
  function Given(acts: seq<Action>): seq<Notification> {
    if acts == [] then []
    else
      var a := acts[|acts| - 1];
      Given(acts[..|acts| - 1]) + match a
        case Register(_, early) => NotificationsOf(Registrations(acts), early)
        case NonceSet(id, early) => NotificationsOf(id, early)
        case Notify(id, tx) => [Notification(id, tx)]
        case _ => []
  }

  lemma StepCounts(s: State, a: Action)
    requires Enabled(s, a)
    ensures Step(s, a).currentId == s.currentId + if a.Register? then 1 else 0
  {
  }

  /** The n-th registration takes id n. */
  lemma {:induction false} IdsCountRegistrations(acts: seq<Action>)
    requires Valid(acts)
    ensures Run(acts).currentId == Registrations(acts)
    decreases |acts|
  {
    if acts != [] {
      IdsCountRegistrations(acts[..|acts| - 1]);
      StepCounts(Run(acts[..|acts| - 1]), acts[|acts| - 1]);
    }
  }

  /** A notifying action adds one handler for each of its snapshots; no other action adds or drops one. */
  lemma StepTold(s: State, a: Action)
    requires Enabled(s, a)
    ensures Told(Step(s, a).world.handlers)
         == Told(s.world.handlers) + if Notifies(a) then NotificationsOf(NotifiedId(s, a), Snapshots(a)) else []
  {
    var hs, hs' := s.world.handlers, Step(s, a).world.handlers;
    StepEffect(s, a);
    if Notifies(a) {
      forall h | 0 <= h < |hs'|
        ensures Told(hs')[h] == (Told(hs) + NotificationsOf(NotifiedId(s, a), Snapshots(a)))[h]
      {
        ExtendedAt(hs, hs', NotifiedId(s, a), Snapshots(a), h);
      }
    } else if MovesHandler(a) {
      ToldStage(hs, a.h, NextStage(s, a));
    }
  }

  lemma GivenStep(acts: seq<Action>)
    requires acts != []
    ensures var front, a := acts[..|acts| - 1], acts[|acts| - 1];
      Given(acts) == Given(front)
        + if Notifies(a) then NotificationsOf(if a.Register? then Registrations(front) + 1 else a.id, Snapshots(a)) else []
  {
    var a := acts[|acts| - 1];
    if a.Notify? {
      assert NotificationsOf(a.id, Snapshots(a)) == [Notification(a.id, a.tx)];
    }
  }

  /** Every notification given in a run is handled, once and in order, and no other is. */
  lemma {:induction false} NotificationsHandled(acts: seq<Action>)
    requires Valid(acts)
    ensures Told(Run(acts).world.handlers) == Given(acts)
    decreases |acts|
  {
    if acts != [] {
      var front, a := acts[..|acts| - 1], acts[|acts| - 1];
      NotificationsHandled(front);
      IdsCountRegistrations(front);
      StepTold(Run(front), a);
      GivenStep(acts);
    }
  }

  /** A handler's id, saved status and snapshot are those of the notification it was called for. */
  lemma HandlerGiven(acts: seq<Action>, h: nat)
    requires Valid(acts)
    ensures |Run(acts).world.handlers| == |Given(acts)|
    ensures h < |Given(acts)| ==>
      var handler, n := Run(acts).world.handlers[h], Given(acts)[h];
      handler.id == n.id && handler.seen == n.tx && handler.status == n.tx.status
  {
    NotificationsHandled(acts);
    RunInv(acts);
    if h < |Given(acts)| {
      assert Told(Run(acts).world.handlers)[h] == Given(acts)[h];
      var s := Run(acts);
      assert HandlerOk(s.world.calls.Keys, s.transactionStore.Keys, s.world.handlers[h]);
    }
  }

  // ----- the transactions of a run -----

  function LastOr(tx: Transaction, txs: seq<Transaction>): Transaction {
    if txs == [] then tx else txs[|txs| - 1]
  }

  /** The transaction as the run's actions last showed it; `None` before its registration. */
  function Latest(acts: seq<Action>, id: nat): Option<Transaction> {
    if acts == [] then None
    else
      var earlier := Latest(acts[..|acts| - 1], id);
      match acts[|acts| - 1]
      case Register(tx, early) => if id == Registrations(acts) then Some(LastOr(tx, early)) else earlier
      case NonceSet(i, early) => if i == id && early != [] then Some(early[|early| - 1]) else earlier
      case Notify(i, tx) => if i == id then Some(tx) else earlier
      case Mutate(i, tx) => if i == id then Some(tx) else earlier
      case _ => earlier
  }

  function At(transactions: map<nat, Transaction>, id: nat): Option<Transaction> {
    if id in transactions then Some(transactions[id]) else None
  }

  /** What an action leaves in place of the transactions. */
  function Shown(s: State, a: Action): map<nat, Transaction> {
    var before := s.world.transactions;
    match a
    case Register(tx, early) => before[s.currentId + 1 := LastOr(tx, early)]
    case NonceSet(id, early) => if early == [] then before else before[id := early[|early| - 1]]
    case Notify(id, tx) => before[id := tx]
    case Mutate(id, tx) => before[id := tx]
    case _ => before
  }

  lemma StepTransactions(s: State, a: Action)
    requires Enabled(s, a)
    ensures Step(s, a).world.transactions == Shown(s, a)
  {
    if MovesHandler(a) {
      MoveFrame(s, a);
    } else if a.Register? {
      NotifiedAllExtends(Listed(s, a.tx).world, s.currentId + 1, a.early);
    } else if a.NonceSet? {
      NotifiedAllExtends(NonceUpdated(s.world, a.id, s.world.calls[a.id].sub), a.id, a.early);
    }
  }

  lemma {:induction false} TransactionsAreLatest(acts: seq<Action>, id: nat)
    requires Valid(acts)
    ensures At(Run(acts).world.transactions, id) == Latest(acts, id)
    decreases |acts|
  {
    if acts != [] {
      var front, a := acts[..|acts| - 1], acts[|acts| - 1];
      TransactionsAreLatest(front, id);
      IdsCountRegistrations(front);
      StepTransactions(Run(front), a);
    }
  }
}
