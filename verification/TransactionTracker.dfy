/**
 The webhook transaction tracker as a state machine. Each action is one atomic segment of
 `submitAndSubscribe`, `handleTransactionStatusChange` or `markSubsAsDone` between two awaits, or a
 step of the SDK or of another service; every interleaving of actions is a run.
 */
module TransactionTracker {
  import opened Decimals
  import opened TransactionPayloads

  /** A value of `transactionStore`; `unsub` names the SDK listener its callback removes. */
  datatype Entry = Entry(id: nat, unsub: nat)

  datatype SubscriptionStatus = Active | Done | Other

  datatype EventType = TransactionUpdate | OtherEvent

  /** A stored subscription. `createdFor` is history: the transaction it was created for. */
  datatype Subscription = Subscription(
    eventType: EventType, scope: string, status: SubscriptionStatus, expired: bool, nextNonce: nat, createdFor: nat)

  datatype Event = Event(scope: string, payload: Payload)

  datatype Response = Response(subscriptionId: nat, scope: string, payload: Payload, nonce: nat)

  /** Where a `submitAndSubscribe` call stands. */
  datatype Call =
    | CreatingSubscription
    | SettingNonce(sub: nat)
    | Started(sub: nat)
    | Abandoned

  /** Where a `handleTransactionStatusChange` call stands. */
  datatype Stage =
    | NoPayload              // assembling the payload threw: logged
    | Creating               // awaiting createEvent
    | EventLost              // createEvent failed: logged
    | Reported               // event created, status not terminal
    | EntryMissing           // event created, status terminal, entry already gone: logged
    | Finding                // unsubscribed and removed, awaiting findAll
    | Marking(subs: set<nat>) // awaiting batchMarkAsDone
    | Cleaned
    | CleanupLost            // findAll or batchMarkAsDone failed: logged

  /** `status` is the variable the handler saved; `seen` is history: the transaction as it was then. */
  datatype Handler = Handler(id: nat, status: Status, stage: Stage, seen: Transaction)

  /** Everything around the service's own fields. */
  datatype World = World(
    transactions: map<nat, Transaction>,   // the SDK's transaction objects
    listening: set<nat>,                   // SDK listeners in place
    unsubCalls: seq<nat>,                  // unsubCallback executions, in order
    calls: map<nat, Call>,
    responses: map<nat, Response>,
    subscriptions: map<nat, Subscription>,
    handlers: seq<Handler>,                // in notification order
    events: seq<Event>)                    // createEvent calls, in order

  datatype State = State(currentId: nat, transactionStore: map<nat, Entry>, world: World)

  const INIT := State(0, map[], World(map[], {}, [], map[], map[], map[], [], []))

  datatype Action =
    | Register(tx: Transaction, early: seq<Transaction>)
    | SubscriptionCreated(id: nat, sub: nat)
    | SubscriptionFailed(id: nat)
    | NonceSet(id: nat, early: seq<Transaction>)
    | NonceFailed(id: nat)
    | Notify(id: nat, tx: Transaction)
    | Mutate(id: nat, tx: Transaction)
    | EventCreated(h: nat)
    | EventFailed(h: nat)
    | SubscriptionsFound(h: nat)
    | FindFailed(h: nat)
    | MarkedDone(h: nat)
    | MarkFailed(h: nat)
    | SubscriptionChanged(sub: nat, status: SubscriptionStatus, expired: bool, nextNonce: nat)
    | ForeignSubscription(sub: nat, scope: string, status: SubscriptionStatus)

  /** The synchronous prefix of `handleTransactionStatusChange`, on a transaction the SDK has just updated. */
  function Notified(w: World, id: nat, tx: Transaction): World {
    var w := w.(transactions := w.transactions[id := tx]);
    if Assemblable(tx) then
      w.(handlers := w.handlers + [Handler(id, tx.status, Creating, tx)],
         events := w.events + [Event(Decimal(id), PayloadOf(tx))])
    else
      w.(handlers := w.handlers + [Handler(id, tx.status, NoPayload, tx)])
  }

  function NotifiedAll(w: World, id: nat, txs: seq<Transaction>): (r: World)
    ensures id in w.transactions ==> id in r.transactions
  {
    if txs == [] then w else Notified(NotifiedAll(w, id, txs[..|txs| - 1]), id, txs[|txs| - 1])
  }

  /** `findAll` for the active, unexpired subscriptions to one scope. */
  function FindAll(subscriptions: map<nat, Subscription>, scope: string): set<nat> {
    set sub | sub in subscriptions && subscriptions[sub].eventType == TransactionUpdate
              && subscriptions[sub].scope == scope && subscriptions[sub].status == Active && !subscriptions[sub].expired
  }

  function BatchMarkAsDone(subscriptions: map<nat, Subscription>, subs: set<nat>): map<nat, Subscription> {
    map sub | sub in subscriptions ::
      if sub in subs then subscriptions[sub].(status := Done) else subscriptions[sub]
  }

  predicate AtStage(s: State, h: nat, stage: Stage) {
    h < |s.world.handlers| && s.world.handlers[h].stage == stage
  }

  /** SDK status changes reach an id only through its listener and, but for registration, after `run()` has started. */
  predicate Enabled(s: State, a: Action) {
    var w := s.world;
    match a
    case Register(_, _) => true
    case SubscriptionCreated(id, sub) => id in w.calls && w.calls[id] == CreatingSubscription && sub !in w.subscriptions
    case SubscriptionFailed(id) => id in w.calls && w.calls[id] == CreatingSubscription
    case NonceSet(id, early) =>
      && id in w.calls && w.calls[id].SettingNonce? && w.calls[id].sub in w.subscriptions && id in w.transactions
      && (early != [] ==> id in w.listening)
    case NonceFailed(id) => id in w.calls && w.calls[id].SettingNonce?
    case Notify(id, _) => id in w.calls && w.calls[id].Started? && id in w.listening
    case Mutate(id, _) => id in w.calls && w.calls[id].Started?
    case EventCreated(h) => AtStage(s, h, Creating)
    case EventFailed(h) => AtStage(s, h, Creating)
    case SubscriptionsFound(h) => AtStage(s, h, Finding)
    case FindFailed(h) => AtStage(s, h, Finding)
    case MarkedDone(h) => h < |w.handlers| && w.handlers[h].stage.Marking?
    case MarkFailed(h) => h < |w.handlers| && w.handlers[h].stage.Marking?
    case SubscriptionChanged(sub, _, _, nextNonce) =>
      sub in w.subscriptions && w.subscriptions[sub].nextNonce <= nextNonce
    case ForeignSubscription(sub, _, _) => sub !in w.subscriptions
  }

  function SetStage(w: World, h: nat, stage: Stage): World
    requires h < |w.handlers|
  {
    w.(handlers := w.handlers[h := w.handlers[h].(stage := stage)])
  }

  /** `handleTransactionStatusChange` after its createEvent has succeeded. */
  function Resumed(s: State, h: nat): State
    requires h < |s.world.handlers|
  {
    var id := s.world.handlers[h].id;
    if !Terminal(s.world.handlers[h].status) then s.(world := SetStage(s.world, h, Reported))
    else if id !in s.transactionStore then s.(world := SetStage(s.world, h, EntryMissing))
    else
      var unsub := s.transactionStore[id].unsub;
      s.(transactionStore := s.transactionStore - {id},
         world := SetStage(s.world, h, Finding).(
           listening := s.world.listening - {unsub},
           unsubCalls := s.world.unsubCalls + [unsub]))
  }

  /** The nonce is set, and the call goes on to `run()`. */
  function NonceUpdated(w: World, id: nat, sub: nat): World
    requires sub in w.subscriptions
  {
    w.(subscriptions := w.subscriptions[sub := w.subscriptions[sub].(nextNonce := 1)], calls := w.calls[id := Started(sub)])
  }

  /** `run()` starts, its synchronous part may notify, and the initial response is assembled. */
  function RunStarted(w: World, id: nat, sub: nat, early: seq<Transaction>): World
    requires id in w.transactions && sub in w.subscriptions
  {
    var w := NotifiedAll(NonceUpdated(w, id, sub), id, early);
    if Assemblable(w.transactions[id]) then
      w.(responses := w.responses[id := Response(sub, Decimal(id), PayloadOf(w.transactions[id]), 0)])
    else w
  }

  /** The state once the listener is in place and the store updated, before any early notification. */
  function Listed(s: State, tx: Transaction): State {
    var w, id := s.world, s.currentId + 1;
    State(id, s.transactionStore[id := Entry(id, id)],
          w.(transactions := w.transactions[id := tx], listening := w.listening + {id},
             calls := w.calls[id := CreatingSubscription]))
  }

  function Step(s: State, a: Action): State
    requires Enabled(s, a)
  {
    var w := s.world;
    match a
    case Register(tx, early) =>
      var l := Listed(s, tx);
      l.(world := NotifiedAll(l.world, l.currentId, early))
    case SubscriptionCreated(id, sub) =>
      s.(world := w.(subscriptions := w.subscriptions[sub :=
                       Subscription(TransactionUpdate, Decimal(id), Active, false, 0, id)],
                     calls := w.calls[id := SettingNonce(sub)]))
    case SubscriptionFailed(id) => s.(world := w.(calls := w.calls[id := Abandoned]))
    case NonceSet(id, early) => s.(world := RunStarted(w, id, w.calls[id].sub, early))
    case NonceFailed(id) => s.(world := w.(calls := w.calls[id := Abandoned]))
    case Notify(id, tx) => s.(world := Notified(w, id, tx))
    case Mutate(id, tx) => s.(world := w.(transactions := w.transactions[id := tx]))
    case EventCreated(h) => Resumed(s, h)
    case EventFailed(h) => s.(world := SetStage(w, h, EventLost))
    case SubscriptionsFound(h) =>
      s.(world := SetStage(w, h, Marking(FindAll(w.subscriptions, Decimal(w.handlers[h].id)))))
    case FindFailed(h) => s.(world := SetStage(w, h, CleanupLost))
    case MarkedDone(h) =>
      s.(world := SetStage(w, h, Cleaned).(
           subscriptions := BatchMarkAsDone(w.subscriptions, w.handlers[h].stage.subs)))
    case MarkFailed(h) => s.(world := SetStage(w, h, CleanupLost))
    case SubscriptionChanged(sub, status, expired, nextNonce) =>
      s.(world := w.(subscriptions := w.subscriptions[sub :=
           w.subscriptions[sub].(status := status, expired := expired, nextNonce := nextNonce)]))
    case ForeignSubscription(sub, scope, status) =>
      s.(world := w.(subscriptions := w.subscriptions[sub := Subscription(OtherEvent, scope, status, false, 0, 0)]))
  }

  // ----- runs -----

  predicate Valid(acts: seq<Action>)
    decreases |acts|, 0
  {
    acts == [] || (Valid(acts[..|acts| - 1]) && Enabled(Run(acts[..|acts| - 1]), acts[|acts| - 1]))
  }

  /** The state after a run. */
  function Run(acts: seq<Action>): State
    requires Valid(acts)
    decreases |acts|, 1
  {
    if acts == [] then INIT else Step(Run(acts[..|acts| - 1]), acts[|acts| - 1])
  }
}
