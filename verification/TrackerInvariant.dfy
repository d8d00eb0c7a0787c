/** The inductive invariant of the transaction tracker, kept by every action. */
module TrackerInvariant {
  import opened Sequences
  import opened Decimals
  import opened TransactionPayloads
  import opened TransactionTracker

  /** The registered ids are exactly 1 to `currentId`. */
  ghost predicate IdsInUse(s: State) {
    && (forall id :: id in s.world.calls <==> 1 <= id <= s.currentId)
    && s.world.transactions.Keys == s.world.calls.Keys
  }

  /**
   An id is in the store exactly when its listener is in place, and its unsubCallback has run
   exactly when it was registered and is not in place any more; no unsubCallback runs twice.
   */
  ghost predicate StoreMatchesListeners(s: State) {
    && s.transactionStore.Keys == s.world.listening
    && (forall id :: id in s.transactionStore ==> id in s.world.calls && s.transactionStore[id] == Entry(id, id))
    && (forall id :: id in s.world.unsubCalls <==> id in s.world.calls && id !in s.world.listening)
    && Distinct(s.world.unsubCalls)
  }

  /** The handler has removed its id's entry. */
  predicate Cleaning(stage: Stage) {
    stage.Finding? || stage.Marking? || stage.Cleaned? || stage.CleanupLost?
  }

  /** A handler's saved status, its stage and the store agree. */
  predicate HandlerOk(ids: set<nat>, stored: set<nat>, h: Handler) {
    && h.id in ids
    && h.status == h.seen.status
    && (h.stage.NoPayload? <==> !Assemblable(h.seen))
    && (Cleaning(h.stage) || h.stage.EntryMissing? ==> Ended(h.status) && h.id !in stored)
    && (h.stage.Reported? ==> !Ended(h.status))
  }

  ghost predicate HandlersOk(ids: set<nat>, stored: set<nat>, handlers: seq<Handler>) {
    forall h :: 0 <= h < |handlers| ==> HandlerOk(ids, stored, handlers[h])
  }

  ghost predicate RemovedBy(handlers: seq<Handler>, id: nat, h: nat) {
    h < |handlers| && handlers[h].id == id && Cleaning(handlers[h].stage)
  }

  ghost predicate MissingAreRemoved(ids: set<nat>, stored: set<nat>, handlers: seq<Handler>) {
    forall id :: id in ids && id !in stored ==> exists h :: RemovedBy(handlers, id, h)
  }

  ghost predicate OneRemover(handlers: seq<Handler>) {
    forall id, g, h :: RemovedBy(handlers, id, g) && RemovedBy(handlers, id, h) ==> g == h
  }

  /** A call of the listener: the transaction's id, and the transaction as it was then. */
  datatype Notification = Notification(id: nat, tx: Transaction)

  /** What the handlers have been told. */
  function Told(handlers: seq<Handler>): (r: seq<Notification>)
    ensures |r| == |handlers|
    ensures forall h :: 0 <= h < |handlers| ==> r[h] == Notification(handlers[h].id, handlers[h].seen)
  {
    Map(handlers, (h: Handler) => Notification(h.id, h.seen))
  }

  /** The createEvent calls that notifications make: one each, unless assembling the payload throws. */
  function EventsFor(told: seq<Notification>): seq<Event> {
    if told == [] then []
    else
      var n := told[|told| - 1];
      EventsFor(told[..|told| - 1]) + if Assemblable(n.tx) then [Event(Decimal(n.id), PayloadOf(n.tx))] else []
  }

  ghost predicate SubscribedFor(subscriptions: map<nat, Subscription>, sub: nat, id: nat) {
    && sub in subscriptions
    && subscriptions[sub].eventType == TransactionUpdate && subscriptions[sub].createdFor == id
    && subscriptions[sub].scope == Decimal(id)
  }

  ghost predicate Scoped(subscriptions: map<nat, Subscription>) {
    forall sub :: sub in subscriptions && subscriptions[sub].eventType == TransactionUpdate ==>
      SubscribedFor(subscriptions, sub, subscriptions[sub].createdFor)
  }

  /** Once `run()` has started, the subscription exists and nonce 0 is reserved. */
  ghost predicate CallOk(subscriptions: map<nat, Subscription>, id: nat, call: Call) {
    match call
    case SettingNonce(sub) => SubscribedFor(subscriptions, sub, id)
    case Started(sub) => SubscribedFor(subscriptions, sub, id) && subscriptions[sub].nextNonce >= 1
    case _ => true
  }

  ghost predicate CallsOk(subscriptions: map<nat, Subscription>, calls: map<nat, Call>) {
    forall id :: id in calls ==> CallOk(subscriptions, id, calls[id])
  }

  /** Only subscriptions of its own transaction are about to be marked by a handler. */
  ghost predicate MarksOk(subscriptions: map<nat, Subscription>, h: Handler) {
    h.stage.Marking? ==> forall sub :: sub in h.stage.subs ==> SubscribedFor(subscriptions, sub, h.id)
  }

  ghost predicate AllMarksOk(subscriptions: map<nat, Subscription>, handlers: seq<Handler>) {
    forall h :: 0 <= h < |handlers| ==> MarksOk(subscriptions, handlers[h])
  }

  ghost predicate Inv(s: State) {
    var w := s.world;
    && IdsInUse(s)
    && StoreMatchesListeners(s)
    && HandlersOk(w.calls.Keys, s.transactionStore.Keys, w.handlers)
    && MissingAreRemoved(w.calls.Keys, s.transactionStore.Keys, w.handlers)
    && OneRemover(w.handlers)
    && w.events == EventsFor(Told(w.handlers))
    && Scoped(w.subscriptions)
    && CallsOk(w.subscriptions, w.calls)
    && AllMarksOk(w.subscriptions, w.handlers)
  }

  // ----- notifications -----

  predicate FreshHandler(h: Handler, id: nat, tx: Transaction) {
    h == Handler(id, tx.status, if Assemblable(tx) then Creating else NoPayload, tx)
  }

  /** One handler has been added for each snapshot, in order, with the status of its own snapshot. */
  ghost predicate ExtendsHandlers(before: seq<Handler>, after: seq<Handler>, id: nat, txs: seq<Transaction>) {
    && |after| == |before| + |txs| && after[..|before|] == before
    && (forall h :: |before| <= h < |after| ==> FreshHandler(after[h], id, txs[h - |before|]))
  }

  /** `r` is `w` after the synchronous notifications `txs` of one id: their handlers and events, and nothing else. */
  ghost predicate Extends(w: World, r: World, id: nat, txs: seq<Transaction>) {
    && r == w.(transactions := r.transactions, handlers := r.handlers, events := r.events)
    && ExtendsHandlers(w.handlers, r.handlers, id, txs)
    && (w.events == EventsFor(Told(w.handlers)) ==> r.events == EventsFor(Told(r.handlers)))
  }

  lemma NotifiedExtends(w: World, id: nat, tx: Transaction)
    ensures Extends(w, Notified(w, id, tx), id, [tx])
    ensures Notified(w, id, tx).transactions == w.transactions[id := tx]
  {
    var r, h := Notified(w, id, tx), Handler(id, tx.status, if Assemblable(tx) then Creating else NoPayload, tx);
    assert r.handlers == w.handlers + [h] && h == r.handlers[|w.handlers|];
    ToldSnoc(w.handlers, h);
  }

  lemma ToldSnoc(handlers: seq<Handler>, h: Handler)
    ensures EventsFor(Told(handlers + [h]))
         == EventsFor(Told(handlers)) + if Assemblable(h.seen) then [Event(Decimal(h.id), PayloadOf(h.seen))] else []
  {
    assert Told(handlers + [h]) == Told(handlers) + [Notification(h.id, h.seen)];
    EventsSnoc(Told(handlers), Notification(h.id, h.seen));
  }

  lemma EventsSnoc(told: seq<Notification>, n: Notification)
    ensures EventsFor(told + [n])
         == EventsFor(told) + if Assemblable(n.tx) then [Event(Decimal(n.id), PayloadOf(n.tx))] else []
  {
    assert (told + [n])[..|told|] == told;
  }

  lemma {:induction false} NotifiedAllExtends(w: World, id: nat, txs: seq<Transaction>)
    ensures Extends(w, NotifiedAll(w, id, txs), id, txs)
    ensures NotifiedAll(w, id, txs).transactions ==
      if txs == [] then w.transactions else w.transactions[id := txs[|txs| - 1]]
  {
    if txs != [] {
      var n := |txs| - 1;
      var before, r := NotifiedAll(w, id, txs[..n]), NotifiedAll(w, id, txs);
      NotifiedAllExtends(w, id, txs[..n]);
      NotifiedExtends(before, id, txs[n]);
      assert r.handlers[..|w.handlers|] == r.handlers[..|before.handlers|][..|w.handlers|];
      forall h | |w.handlers| <= h < |r.handlers| ensures FreshHandler(r.handlers[h], id, txs[h - |w.handlers|]) {
        if h < |before.handlers| {
          assert r.handlers[h] == before.handlers[h];
          assert txs[..n][h - |w.handlers|] == txs[h - |w.handlers|];
        }
      }
    }
  }

  /** New handlers of one id disturb nothing the invariant says about handlers. */
  lemma ExtendedHandlers(ids: set<nat>, stored: set<nat>, subscriptions: map<nat, Subscription>,
                         before: seq<Handler>, after: seq<Handler>, id: nat, txs: seq<Transaction>)
    requires HandlersOk(ids, stored, before) && MissingAreRemoved(ids, stored, before) && OneRemover(before)
    requires AllMarksOk(subscriptions, before)
    requires id in ids && ExtendsHandlers(before, after, id, txs)
    ensures HandlersOk(ids, stored, after) && MissingAreRemoved(ids, stored, after) && OneRemover(after)
    ensures AllMarksOk(subscriptions, after)
  {
    forall h | 0 <= h < |after|
      ensures if h < |before| then after[h] == before[h] else FreshHandler(after[h], id, txs[h - |before|])
    {
      if h < |before| {
        assert after[..|before|][h] == before[h];
      }
    }
    forall id, h: nat ensures RemovedBy(after, id, h) <==> RemovedBy(before, id, h) {
    }
    forall id | id in ids && id !in stored ensures exists h :: RemovedBy(after, id, h) {
      var h :| RemovedBy(before, id, h);
      assert RemovedBy(after, id, h);
    }
  }

  // ----- stages -----

  /** Moving a handler along changes nothing it has been told. */
  lemma ToldStage(handlers: seq<Handler>, h: nat, stage: Stage)
    requires h < |handlers|
    ensures Told(handlers[h := handlers[h].(stage := stage)]) == Told(handlers)
  {
  }

  /** Moving a handler along, within the removing stages or outside them. */
  lemma StageChange(ids: set<nat>, stored: set<nat>, subscriptions: map<nat, Subscription>,
                    handlers: seq<Handler>, h: nat, stage: Stage)
    requires HandlersOk(ids, stored, handlers) && MissingAreRemoved(ids, stored, handlers) && OneRemover(handlers)
    requires AllMarksOk(subscriptions, handlers)
    requires h < |handlers| && (Cleaning(stage) <==> Cleaning(handlers[h].stage))
    requires HandlerOk(ids, stored, handlers[h].(stage := stage)) && MarksOk(subscriptions, handlers[h].(stage := stage))
    ensures var after := handlers[h := handlers[h].(stage := stage)];
      && HandlersOk(ids, stored, after) && MissingAreRemoved(ids, stored, after) && OneRemover(after)
      && AllMarksOk(subscriptions, after)
      && Told(after) == Told(handlers)
  {
    var after := handlers[h := handlers[h].(stage := stage)];
    ToldStage(handlers, h, stage);
    forall id, g: nat ensures RemovedBy(after, id, g) <==> RemovedBy(handlers, id, g) {
    }
    forall id | id in ids && id !in stored ensures exists g :: RemovedBy(after, id, g) {
      var g :| RemovedBy(handlers, id, g);
      assert RemovedBy(after, id, g);
    }
  }

  lemma StageKeepsInv(s: State, h: nat, stage: Stage)
    requires Inv(s) && h < |s.world.handlers|
    requires Cleaning(stage) <==> Cleaning(s.world.handlers[h].stage)
    requires HandlerOk(s.world.calls.Keys, s.transactionStore.Keys, s.world.handlers[h].(stage := stage))
    requires MarksOk(s.world.subscriptions, s.world.handlers[h].(stage := stage))
    ensures Inv(s.(world := SetStage(s.world, h, stage)))
  {
    StageChange(s.world.calls.Keys, s.transactionStore.Keys, s.world.subscriptions, s.world.handlers, h, stage);
  }

  // ----- every action keeps the invariant -----

  lemma ListedKeepsInv(s: State, tx: Transaction)
    requires Inv(s)
    ensures Inv(Listed(s, tx))
  {
    var w, id, l := s.world, s.currentId + 1, Listed(s, tx);
    assert l.world.calls.Keys == w.calls.Keys + {id} && l.transactionStore.Keys == s.transactionStore.Keys + {id};
    assert id !in w.calls;
    assert StoreMatchesListeners(l);
    forall h | 0 <= h < |w.handlers| ensures HandlerOk(l.world.calls.Keys, l.transactionStore.Keys, w.handlers[h]) {
      assert HandlerOk(w.calls.Keys, s.transactionStore.Keys, w.handlers[h]);
    }
    forall i | i in l.world.calls && i !in l.transactionStore ensures exists h :: RemovedBy(w.handlers, i, h) {
      assert i in w.calls && i !in s.transactionStore;
    }
    forall i | i in l.world.calls ensures CallOk(w.subscriptions, i, l.world.calls[i]) {
      assert i != id ==> CallOk(w.subscriptions, i, w.calls[i]);
    }
  }

  lemma RegisterKeepsInv(s: State, tx: Transaction, early: seq<Transaction>)
    requires Inv(s)
    ensures Inv(Step(s, Register(tx, early)))
  {
    ListedKeepsInv(s, tx);
    NotifyKeepsInv(Listed(s, tx), s.currentId + 1, early);
  }

  lemma NotifyKeepsInv(s: State, id: nat, early: seq<Transaction>)
    requires Inv(s) && id in s.world.calls
    ensures Inv(s.(world := NotifiedAll(s.world, id, early)))
  {
    var w, w' := s.world, NotifiedAll(s.world, id, early);
    NotifiedAllExtends(w, id, early);
    assert w'.transactions.Keys == w.transactions.Keys;
    ExtendedHandlers(w.calls.Keys, s.transactionStore.Keys, w.subscriptions, w.handlers, w'.handlers, id, early);
  }

  /** Updates that keep every subscription's type, owner and scope, and never lower a nonce. */
  lemma SubscriptionsKeepInv(s: State, subscriptions: map<nat, Subscription>)
    requires Inv(s)
    requires Scoped(subscriptions)
    requires forall sub :: sub in s.world.subscriptions ==>
      && sub in subscriptions
      && subscriptions[sub].eventType == s.world.subscriptions[sub].eventType
      && subscriptions[sub].createdFor == s.world.subscriptions[sub].createdFor
      && subscriptions[sub].scope == s.world.subscriptions[sub].scope
      && subscriptions[sub].nextNonce >= s.world.subscriptions[sub].nextNonce
    ensures Inv(s.(world := s.world.(subscriptions := subscriptions)))
  {
    var w := s.world;
    forall sub, id: nat | SubscribedFor(w.subscriptions, sub, id) ensures SubscribedFor(subscriptions, sub, id) {
    }
    forall id | id in w.calls ensures CallOk(subscriptions, id, w.calls[id]) {
      assert CallOk(w.subscriptions, id, w.calls[id]);
    }
    forall h | 0 <= h < |w.handlers| ensures MarksOk(subscriptions, w.handlers[h]) {
      assert MarksOk(w.subscriptions, w.handlers[h]);
    }
  }

  lemma CallKeepsInv(s: State, id: nat, call: Call)
    requires Inv(s) && id in s.world.calls && CallOk(s.world.subscriptions, id, call)
    ensures Inv(s.(world := s.world.(calls := s.world.calls[id := call])))
  {
    var calls := s.world.calls[id := call];
    assert calls.Keys == s.world.calls.Keys;
  }

  lemma ResumeKeepsInv(s: State, h: nat)
    requires Inv(s) && AtStage(s, h, Creating)
    ensures Inv(Resumed(s, h))
  {
    var handler := s.world.handlers[h];
    if Ended(handler.status) && handler.id in s.transactionStore {
      RemovalKeepsInv(s, h);
    } else {
      var stage := if Ended(handler.status) then EntryMissing else Reported;
      assert HandlerOk(s.world.calls.Keys, s.transactionStore.Keys, handler);
      StageKeepsInv(s, h, stage);
      assert Resumed(s, h) == s.(world := SetStage(s.world, h, stage));
    }
  }

  /** The one step that unsubscribes: the listener, the store and the account of removals change together. */
  lemma RemovalKeepsInv(s: State, h: nat)
    requires Inv(s) && AtStage(s, h, Creating)
    requires Ended(s.world.handlers[h].status) && s.world.handlers[h].id in s.transactionStore
    ensures Inv(Resumed(s, h))
  {
    var w, s' := s.world, Resumed(s, h);
    ToldStage(w.handlers, h, Finding);
    RemovalStore(s, w.handlers[h].id);
    RemovalHandlers(w.calls.Keys, s.transactionStore.Keys, w.handlers, h);
    forall g | 0 <= g < |w.handlers| ensures MarksOk(w.subscriptions, s'.world.handlers[g]) {
      assert MarksOk(w.subscriptions, w.handlers[g]);
    }
    assert s'.transactionStore.Keys == s.transactionStore.Keys - {w.handlers[h].id};
  }

  lemma RemovalStore(s: State, id: nat)
    requires StoreMatchesListeners(s) && id in s.transactionStore
    ensures var unsub := s.transactionStore[id].unsub;
      StoreMatchesListeners(s.(transactionStore := s.transactionStore - {id},
        world := s.world.(listening := s.world.listening - {unsub}, unsubCalls := s.world.unsubCalls + [unsub])))
  {
  }

  lemma RemovalHandlers(ids: set<nat>, stored: set<nat>, handlers: seq<Handler>, h: nat)
    requires HandlersOk(ids, stored, handlers) && MissingAreRemoved(ids, stored, handlers) && OneRemover(handlers)
    requires h < |handlers| && handlers[h].stage.Creating? && Ended(handlers[h].status) && handlers[h].id in stored
    ensures var after := handlers[h := handlers[h].(stage := Finding)];
      && HandlersOk(ids, stored - {handlers[h].id}, after)
      && MissingAreRemoved(ids, stored - {handlers[h].id}, after)
      && OneRemover(after)
  {
    var id, after := handlers[h].id, handlers[h := handlers[h].(stage := Finding)];
    forall g | 0 <= g < |handlers| ensures HandlerOk(ids, stored - {id}, after[g]) {
      assert HandlerOk(ids, stored, handlers[g]);
    }
    forall i, g: nat ensures RemovedBy(after, i, g) <==> RemovedBy(handlers, i, g) || (i == id && g == h) {
    }
    forall g: nat ensures !RemovedBy(handlers, id, g) {
      assert g < |handlers| ==> HandlerOk(ids, stored, handlers[g]);
    }
    forall i | i in ids && i !in stored - {id} ensures exists g :: RemovedBy(after, i, g) {
      if i == id {
        assert RemovedBy(after, i, h);
      } else {
        var g :| RemovedBy(handlers, i, g);
        assert RemovedBy(after, i, g);
      }
    }
  }

  lemma SubscriptionCreatedKeepsInv(s: State, id: nat, sub: nat)
    requires Inv(s) && Enabled(s, SubscriptionCreated(id, sub))
    ensures Inv(Step(s, SubscriptionCreated(id, sub)))
  {
    var subscriptions := Step(s, SubscriptionCreated(id, sub)).world.subscriptions;
    SubscriptionsKeepInv(s, subscriptions);
    CallKeepsInv(s.(world := s.world.(subscriptions := subscriptions)), id, SettingNonce(sub));
  }

  lemma NonceSetKeepsInv(s: State, id: nat, early: seq<Transaction>)
    requires Inv(s) && Enabled(s, NonceSet(id, early))
    ensures Inv(Step(s, NonceSet(id, early)))
  {
    var w := s.world;
    var sub := w.calls[id].sub;
    assert CallOk(w.subscriptions, id, w.calls[id]);
    NonceRaised(s, id, sub);
    NotifyKeepsInv(s.(world := NonceUpdated(w, id, sub)), id, early);
  }

  /** Only the call itself refers to its subscription's nonce, so setting it to 1 lowers no promise. */
  lemma NonceKeepsCalls(subscriptions: map<nat, Subscription>, calls: map<nat, Call>, id: nat, sub: nat)
    requires CallsOk(subscriptions, calls) && id in calls && SubscribedFor(subscriptions, sub, id)
    ensures CallsOk(subscriptions[sub := subscriptions[sub].(nextNonce := 1)], calls[id := Started(sub)])
  {
    var nonced := subscriptions[sub := subscriptions[sub].(nextNonce := 1)];
    forall i | i in calls ensures CallOk(nonced, i, calls[id := Started(sub)][i]) {
      assert CallOk(subscriptions, i, calls[i]);
    }
  }

  lemma NonceRaised(s: State, id: nat, sub: nat)
    requires Inv(s) && id in s.world.calls && s.world.calls[id] == SettingNonce(sub)
    ensures sub in s.world.subscriptions && Inv(s.(world := NonceUpdated(s.world, id, sub)))
  {
    var w := s.world;
    assert CallOk(w.subscriptions, id, w.calls[id]);
    var nonced := w.subscriptions[sub := w.subscriptions[sub].(nextNonce := 1)];
    NonceKeepsCalls(w.subscriptions, w.calls, id, sub);
    assert w.calls[id := Started(sub)].Keys == w.calls.Keys;
    forall other, i: nat | SubscribedFor(w.subscriptions, other, i) ensures SubscribedFor(nonced, other, i) {
    }
    forall h | 0 <= h < |w.handlers| ensures MarksOk(nonced, w.handlers[h]) {
      assert MarksOk(w.subscriptions, w.handlers[h]);
    }
  }

  /** The active, unexpired subscriptions created for a transaction. */
  ghost function ActiveFor(subscriptions: map<nat, Subscription>, id: nat): set<nat> {
    set sub | sub in subscriptions && subscriptions[sub].eventType == TransactionUpdate
              && subscriptions[sub].createdFor == id && subscriptions[sub].status == Active && !subscriptions[sub].expired
  }

  /**
   In a reachable state `findAll` returns exactly the active, unexpired subscriptions created for the
   transaction: decimal scopes of different ids never meet.
   */
  lemma FindAllExact(subscriptions: map<nat, Subscription>, id: nat)
    requires Scoped(subscriptions)
    ensures FindAll(subscriptions, Decimal(id)) == ActiveFor(subscriptions, id)
    ensures forall sub :: sub in FindAll(subscriptions, Decimal(id)) ==> SubscribedFor(subscriptions, sub, id)
  {
    forall sub | sub in subscriptions && subscriptions[sub].eventType == TransactionUpdate
      ensures subscriptions[sub].scope == Decimal(id) <==> subscriptions[sub].createdFor == id
    {
      assert SubscribedFor(subscriptions, sub, subscriptions[sub].createdFor);
      if subscriptions[sub].scope == Decimal(id) {
        DecimalInjective(id, subscriptions[sub].createdFor);
      }
    }
  }

  lemma MarkingKeepsScopes(subscriptions: map<nat, Subscription>, subs: set<nat>)
    requires Scoped(subscriptions)
    ensures Scoped(BatchMarkAsDone(subscriptions, subs))
  {
    var marked := BatchMarkAsDone(subscriptions, subs);
    forall sub | sub in marked && marked[sub].eventType == TransactionUpdate
      ensures SubscribedFor(marked, sub, marked[sub].createdFor)
    {
      assert SubscribedFor(subscriptions, sub, subscriptions[sub].createdFor);
    }
  }

  lemma MarkingKeepsInv(s: State, subs: set<nat>)
    requires Inv(s)
    ensures Inv(s.(world := s.world.(subscriptions := BatchMarkAsDone(s.world.subscriptions, subs))))
  {
    MarkingKeepsScopes(s.world.subscriptions, subs);
    SubscriptionsKeepInv(s, BatchMarkAsDone(s.world.subscriptions, subs));
  }

  lemma CleanedKeepsInv(s: State, h: nat)
    requires Inv(s) && h < |s.world.handlers| && s.world.handlers[h].stage.Marking?
    ensures Inv(s.(world := SetStage(s.world, h, Cleaned)))
  {
    assert HandlerOk(s.world.calls.Keys, s.transactionStore.Keys, s.world.handlers[h]);
    StageKeepsInv(s, h, Cleaned);
  }

  lemma MarkedDoneKeepsInv(s: State, h: nat)
    requires Inv(s) && Enabled(s, MarkedDone(h))
    ensures Inv(Step(s, MarkedDone(h)))
  {
    var subs, cleaned := s.world.handlers[h].stage.subs, s.(world := SetStage(s.world, h, Cleaned));
    CleanedKeepsInv(s, h);
    MarkingKeepsInv(cleaned, subs);
    assert Step(s, MarkedDone(h)) ==
      cleaned.(world := cleaned.world.(subscriptions := BatchMarkAsDone(cleaned.world.subscriptions, subs)));
  }

  lemma HandlerMoveKeepsInv(s: State, h: nat, stage: Stage)
    requires Inv(s) && h < |s.world.handlers|
    requires var was := s.world.handlers[h].stage;
      || (was == Creating && stage == EventLost)
      || (was == Finding && stage == Marking(FindAll(s.world.subscriptions, Decimal(s.world.handlers[h].id))))
      || ((was == Finding || was.Marking?) && stage == CleanupLost)
    ensures Inv(s.(world := SetStage(s.world, h, stage)))
  {
    var handler := s.world.handlers[h];
    assert HandlerOk(s.world.calls.Keys, s.transactionStore.Keys, handler);
    FindAllExact(s.world.subscriptions, handler.id);
    StageKeepsInv(s, h, stage);
  }

  lemma MutateKeepsInv(s: State, id: nat, tx: Transaction)
    requires Inv(s) && Enabled(s, Mutate(id, tx))
    ensures Inv(Step(s, Mutate(id, tx)))
  {
    assert s.world.transactions[id := tx].Keys == s.world.transactions.Keys;
  }

  lemma NotifiedAllOne(w: World, id: nat, tx: Transaction)
    ensures NotifiedAll(w, id, [tx]) == Notified(w, id, tx)
  {
    assert [tx][..0] == [] && NotifiedAll(w, id, []) == w;
  }

  lemma NotifyStepKeepsInv(s: State, id: nat, tx: Transaction)
    requires Inv(s) && Enabled(s, Notify(id, tx))
    ensures Inv(Step(s, Notify(id, tx)))
  {
    NotifiedAllOne(s.world, id, tx);
    NotifyKeepsInv(s, id, [tx]);
  }

  lemma StepKeepsInv(s: State, a: Action)
    requires Inv(s) && Enabled(s, a)
    ensures Inv(Step(s, a))
  {
    match a
    case Register(tx, early) => RegisterKeepsInv(s, tx, early);
    case SubscriptionCreated(id, sub) => SubscriptionCreatedKeepsInv(s, id, sub);
    case SubscriptionFailed(id) => CallKeepsInv(s, id, Abandoned);
    case NonceSet(id, early) => NonceSetKeepsInv(s, id, early);
    case NonceFailed(id) => CallKeepsInv(s, id, Abandoned);
    case Notify(id, tx) => NotifyStepKeepsInv(s, id, tx);
    case Mutate(id, tx) => MutateKeepsInv(s, id, tx);
    case EventCreated(h) => ResumeKeepsInv(s, h);
    case EventFailed(h) => HandlerMoveKeepsInv(s, h, EventLost);
    case SubscriptionsFound(h) =>
      HandlerMoveKeepsInv(s, h, Marking(FindAll(s.world.subscriptions, Decimal(s.world.handlers[h].id))));
    case FindFailed(h) => HandlerMoveKeepsInv(s, h, CleanupLost);
    case MarkedDone(h) => MarkedDoneKeepsInv(s, h);
    case MarkFailed(h) => HandlerMoveKeepsInv(s, h, CleanupLost);
    case SubscriptionChanged(sub, _, _, _) => SubscriptionsKeepInv(s, Step(s, a).world.subscriptions);
    case ForeignSubscription(sub, _, _) => SubscriptionsKeepInv(s, Step(s, a).world.subscriptions);
  }

  /** Every reachable state satisfies the invariant. */
  lemma {:induction false} RunInv(acts: seq<Action>)
    requires Valid(acts)
    ensures Inv(Run(acts))
    decreases |acts|
  {
    if acts != [] {
      RunInv(acts[..|acts| - 1]);
      StepKeepsInv(Run(acts[..|acts| - 1]), acts[|acts| - 1]);
    }
  }
}
