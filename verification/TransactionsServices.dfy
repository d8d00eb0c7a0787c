/** The service itself: its two fields, and its methods cut at their awaits. */
module TransactionsServices {
  import opened Wrappers
  import opened Sequences
  import opened Decimals
  import opened TransactionPayloads
  import opened TransactionTracker
  import opened TrackerInvariant
  import opened TrackerHistory
  import opened TrackerTheorems

  /**
   `history` lists the actions the object has gone through. Every method that ends at an await adds
   one action to it and keeps `Valid`, so whatever holds of all runs holds of every object.
   */
  class TransactionsService {
    var transactionStore: map<nat, Entry>
    var currentId: nat
    var world: World // the SDK, the events and subscriptions services, and the calls waiting on them
    ghost var history: seq<Action>

    function Snapshot(): State
      reads `transactionStore, `currentId, `world
    {
      State(currentId, transactionStore, world)
    }

    /** The object is in the state its history leads to. */
    ghost predicate Valid()
      reads this
    {
      TransactionTracker.Valid(history) && Snapshot() == Run(history)
    }

    /** The object has taken the action, and nothing else has happened to it. */
    twostate predicate Took(a: Action)
      reads this
    {
      && old(Valid()) && Enabled(old(Snapshot()), a)
      && Snapshot() == Step(old(Snapshot()), a)
      && Valid() && history == old(history) + [a]
    }

    /**
     What an object's fields tell at any time: an id is stored exactly when it was registered and not
     unsubscribed, its listener is in place exactly then, no unsubCallback has run twice, and a
     registered id is gone exactly when a terminal notification of it had its event created.
     */
    lemma StoreAgrees()
      requires Valid()
      ensures forall id: nat :: id in transactionStore <==> 1 <= id <= currentId && id !in world.unsubCalls
      ensures world.listening == transactionStore.Keys && Distinct(world.unsubCalls)
      ensures forall id :: 1 <= id <= currentId ==>
        (id !in transactionStore <==> exists h :: TerminalEvent(history, id, h))
    {
      StoreSafety(history);
      forall id | 1 <= id <= currentId
        ensures id !in transactionStore <==> exists h :: TerminalEvent(history, id, h)
      {
        CleanupExact(history, id);
      }
    }

    constructor ()
      ensures Valid() && history == []
      ensures transactionStore == map[] && currentId == 0
    {
      transactionStore, currentId := map[], 0;
      world := World(map[], {}, [], map[], map[], map[], [], []);
      history := [];
    }

    ghost method Record(a: Action)
      requires TransactionTracker.Valid(history) && Enabled(Run(history), a) && Snapshot() == Step(Run(history), a)
      modifies `history
      ensures Valid() && history == old(history) + [a]
    {
      ValidSnoc(history, a);
      history := history + [a];
    }

    /** `submitAndSubscribe` up to its call of `createSubscription`. */
    method SubmitAndSubscribe(transaction: Transaction, early: seq<Transaction>) returns (id: nat)
      requires Valid()
      modifies this
      ensures Took(Register(transaction, early))
      ensures id == old(currentId) + 1 && Unused(old(Snapshot()), id)
      ensures Told(world.handlers) == Told(old(world).handlers) + NotificationsOf(id, early)
    {
      ghost var before := Snapshot();
      id := AddListener(transaction, early);
      world := world.(calls := world.calls[id := CreatingSubscription]);
      RegisteredAfterwards(before, transaction, early);
      IdsNeverReused(history, Register(transaction, early));
      StepTold(before, Register(transaction, early));
      Record(Register(transaction, early));
    }

    /** `addListener`: `onStatusChange` may call back before it returns, and so before the entry is stored. */
    method AddListener(transaction: Transaction, early: seq<Transaction>) returns (id: nat)
      modifies `currentId, `transactionStore, `world
      ensures id == currentId == old(currentId) + 1
      ensures transactionStore == old(transactionStore)[id := Entry(id, id)]
      ensures world == NotifiedAll(old(world).(transactions := old(world).transactions[id := transaction],
                                               listening := old(world).listening + {id}), id, early)
    {
      currentId := currentId + 1;
      id := currentId;
      world := world.(transactions := world.transactions[id := transaction], listening := world.listening + {id});
      var unsub := id;
      NotifyEarly(id, early);
      transactionStore := transactionStore[id := Entry(id, unsub)];
    }

    /** The SDK's synchronous callbacks, one after another. */
    method NotifyEarly(id: nat, early: seq<Transaction>)
      modifies `world
      ensures world == NotifiedAll(old(world), id, early)
    {
      var i := 0;
      while i < |early|
        invariant 0 <= i <= |early|
        invariant world == NotifiedAll(old(world), id, early[..i])
      {
        assert early[..i + 1][..i] == early[..i];
        HandleTransactionStatusChange(id, early[i]);
        i := i + 1;
      }
      assert early[..i] == early;
    }

    /** `submitAndSubscribe` when `createSubscription` settles; `None` is a rejection. */
    method ResumeCreateSubscription(id: nat, subscription: Option<nat>)
      requires Valid()
      requires id in world.calls && world.calls[id] == CreatingSubscription
      requires subscription.Some? ==> subscription.value !in world.subscriptions
      modifies `world, `history
      ensures Took(if subscription.Some? then SubscriptionCreated(id, subscription.value) else SubscriptionFailed(id))
      ensures subscription.Some? ==>
        forall sub :: Receives(world.subscriptions, sub, Decimal(id)) <==> sub == subscription.value
      ensures subscription.Some? ==> FindAll(world.subscriptions, Decimal(id)) == {subscription.value}
    {
      if subscription.None? {
        world := world.(calls := world.calls[id := Abandoned]);
        Record(SubscriptionFailed(id));
      } else {
        var sub := subscription.value;
        var created := Subscription(TransactionUpdate, Decimal(id), Active, false, 0, id);
        world := world.(subscriptions := world.subscriptions[sub := created],
                        calls := world.calls[id := SettingNonce(sub)]);
        Record(SubscriptionCreated(id, sub));
        OnlySubscription(history, id, sub);
        assert forall other :: other in FindAll(world.subscriptions, Decimal(id)) ==>
          Receives(world.subscriptions, other, Decimal(id));
        assert sub in FindAll(world.subscriptions, Decimal(id));
      }
    }

    /** `submitAndSubscribe` when `updateSubscription` settles: run, then answer. */
    method ResumeUpdateSubscription(id: nat, ok: bool, early: seq<Transaction>)
      requires Valid()
      requires Enabled(Snapshot(), if ok then NonceSet(id, early) else NonceFailed(id))
      modifies `world, `history
      ensures Took(if ok then NonceSet(id, early) else NonceFailed(id))
      ensures ok ==> NonceTaken(world, id)
      ensures Told(world.handlers) == Told(old(world).handlers) + if ok then NotificationsOf(id, early) else []
    {
      if !ok {
        world := world.(calls := world.calls[id := Abandoned]);
        Record(NonceFailed(id));
        return;
      }
      var sub := world.calls[id].sub;
      world := world.(subscriptions := world.subscriptions[sub := world.subscriptions[sub].(nextNonce := 1)],
                      calls := world.calls[id := Started(sub)]);
      NotifyEarly(id, early);
      var payload := AssemblePayload(world.transactions[id]);
      if payload.Success? {
        world := world.(responses := world.responses[id := Response(sub, Decimal(id), payload.value, 0)]);
      }
      NonceSetFrame(Run(history), id, early);
      StepTold(Run(history), NonceSet(id, early));
      Record(NonceSet(id, early));
      StartedNonce(history, id);
    }

    /** The SDK calls the listener of a running transaction. */
    method OnStatusChange(id: nat, transaction: Transaction)
      requires Valid() && Enabled(Snapshot(), Notify(id, transaction))
      modifies `world, `history
      ensures Took(Notify(id, transaction))
      ensures NonceTaken(world, id)
      ensures Told(world.handlers) == Told(old(world).handlers) + [Notification(id, transaction)]
    {
      HandleTransactionStatusChange(id, transaction);
      Record(Notify(id, transaction));
      StartedNonce(history, id);
    }

    /** `handleTransactionStatusChange` up to its await of `createEvent`. */
    method HandleTransactionStatusChange(id: nat, transaction: Transaction)
      modifies `world
      ensures world == Notified(old(world), id, transaction)
      ensures Told(world.handlers) == Told(old(world).handlers) + [Notification(id, transaction)]
      ensures world.handlers[|old(world).handlers|].status == transaction.status
      ensures world.events == old(world).events
        + if Assemblable(transaction) then [Event(Decimal(id), PayloadOf(transaction))] else []
    {
      world := world.(transactions := world.transactions[id := transaction]);
      var status := transaction.status;
      var payload := AssemblePayload(transaction);
      if payload.Failure? {
        world := world.(handlers := world.handlers + [Handler(id, status, NoPayload, transaction)]);
      } else {
        world := world.(handlers := world.handlers + [Handler(id, status, Creating, transaction)],
                        events := world.events + [Event(Decimal(id), payload.value)]);
      }
    }

    /**
     `handleTransactionStatusChange` when `createEvent` settles. Exactly the first terminal success
     for an id takes its entry out; nothing else changes the store.
     */
    method ResumeCreateEvent(h: nat, ok: bool)
      requires Valid() && AtStage(Snapshot(), h, Creating)
      modifies this
      ensures Took(if ok then EventCreated(h) else EventFailed(h))
      ensures var handler := old(world).handlers[h];
        if ok && Ended(handler.status) && !exists g :: TerminalEvent(old(history), handler.id, g)
        then handler.id in old(transactionStore) && transactionStore == old(transactionStore) - {handler.id}
        else transactionStore == old(transactionStore)
    {
      if !ok {
        world := SetStage(world, h, EventLost);
        Record(EventFailed(h));
        return;
      }
      var id, status := world.handlers[h].id, world.handlers[h].status;
      if Ended(status) {
        TerminalResume(history, h);
      }
      if status !in [Aborted, Failed, Rejected, Succeeded] {
        world := SetStage(world, h, Reported);
      } else if id !in transactionStore {
        world := SetStage(world, h, EntryMissing);
      } else {
        var txData := transactionStore[id];
        world := world.(listening := world.listening - {txData.unsub}, unsubCalls := world.unsubCalls + [txData.unsub]);
        transactionStore := transactionStore - {id};
        world := SetStage(world, h, Finding);
      }
      Record(EventCreated(h));
    }

    /** `markSubsAsDone` when `findAll` settles: what it found was created for the finished transaction. */
    method ResumeFindAll(h: nat, ok: bool)
      requires Valid() && AtStage(Snapshot(), h, Finding)
      modifies `world, `history
      ensures Took(if ok then SubscriptionsFound(h) else FindFailed(h))
      ensures ok ==> AtStage(Snapshot(), h, Marking(ActiveFor(old(world).subscriptions, old(world).handlers[h].id)))
    {
      if ok {
        var affected := FindAll(world.subscriptions, Decimal(world.handlers[h].id));
        FoundIsOwn(history, world.handlers[h].id);
        world := SetStage(world, h, Marking(affected));
        Record(SubscriptionsFound(h));
      } else {
        world := SetStage(world, h, CleanupLost);
        Record(FindFailed(h));
      }
    }

    /**
     `markSubsAsDone` when `batchMarkAsDone` settles. Only subscriptions of the finished transaction
     change, and no handler has marked subscriptions of that transaction before.
     */
    method ResumeBatchMarkAsDone(h: nat, ok: bool)
      requires Valid() && h < |world.handlers| && world.handlers[h].stage.Marking?
      modifies `world, `history
      ensures Took(if ok then MarkedDone(h) else MarkFailed(h))
      ensures if ok
        then OnlyMarks(old(world).subscriptions, world.subscriptions, old(world).handlers[h].id)
             && NotMarkedBefore(old(history), old(world).handlers, old(world).handlers[h].id)
        else world.subscriptions == old(world).subscriptions
    {
      if ok {
        MarksOwn(history, h);
        var marked := BatchMarkAsDone(world.subscriptions, world.handlers[h].stage.subs);
        world := SetStage(world, h, Cleaned);
        world := world.(subscriptions := marked);
        Record(MarkedDone(h));
      } else {
        world := SetStage(world, h, CleanupLost);
        Record(MarkFailed(h));
      }
    }

    /** A step of the SDK or of another service. */
    method OutsideStep(a: Action)
      requires Valid() && Enabled(Snapshot(), a)
      requires a.Mutate? || a.SubscriptionChanged? || a.ForeignSubscription?
      modifies `world, `history
      ensures Took(a)
      ensures a.Mutate? ==> world.transactions == old(world).transactions[a.id := a.tx]
      ensures a.SubscriptionChanged? ==> world.subscriptions == old(world).subscriptions[a.sub :=
        old(world).subscriptions[a.sub].(status := a.status, expired := a.expired, nextNonce := a.nextNonce)]
      ensures a.ForeignSubscription? ==>
        forall sub :: sub in world.subscriptions && world.subscriptions[sub].eventType == TransactionUpdate ==>
          sub in old(world).subscriptions && world.subscriptions[sub] == old(world).subscriptions[sub]
    {
      world := Step(Snapshot(), a).world;
      Record(a);
    }
  }

  /** Nonce 0 is taken in every subscription that receives the id's events. */
  ghost predicate NonceTaken(w: World, id: nat) {
    forall sub :: Receives(w.subscriptions, sub, Decimal(id)) ==> w.subscriptions[sub].nextNonce >= 1
  }

  lemma StartedNonce(acts: seq<Action>, id: nat)
    requires TransactionTracker.Valid(acts) && id in Run(acts).world.calls && Run(acts).world.calls[id].Started?
    ensures NonceTaken(Run(acts).world, id)
  {
    RunInv(acts);
    OwnersRegistered(acts);
    ScopeReserved(Run(acts), id);
  }

  lemma OnlySubscription(acts: seq<Action>, id: nat, sub: nat)
    requires TransactionTracker.Valid(acts) && id in Run(acts).world.calls && Run(acts).world.calls[id] == SettingNonce(sub)
    ensures forall other :: Receives(Run(acts).world.subscriptions, other, Decimal(id)) <==> other == sub
  {
    RunInv(acts);
    OwnersRegistered(acts);
    var w := Run(acts).world;
    assert CallOk(w.subscriptions, id, w.calls[id]);
    forall other | Receives(w.subscriptions, other, Decimal(id)) ensures other == sub {
      var owner := w.subscriptions[other].createdFor;
      assert SubscribedFor(w.subscriptions, other, owner) && OwnerOk(w.calls, other, owner);
      DecimalInjective(id, owner);
    }
  }

  lemma FoundIsOwn(acts: seq<Action>, id: nat)
    requires TransactionTracker.Valid(acts)
    ensures FindAll(Run(acts).world.subscriptions, Decimal(id)) == ActiveFor(Run(acts).world.subscriptions, id)
  {
    RunInv(acts);
    FindAllExact(Run(acts).world.subscriptions, id);
  }

  /** The update leaves every subscription alone, or marks it done if it was created for the transaction. */
  ghost predicate OnlyMarks(before: map<nat, Subscription>, after: map<nat, Subscription>, id: nat) {
    && after.Keys == before.Keys
    && forall sub :: sub in before && after[sub] != before[sub] ==>
         SubscribedFor(before, sub, id) && after[sub] == before[sub].(status := Done)
  }

  ghost predicate NotMarkedBefore(acts: seq<Action>, handlers: seq<Handler>, id: nat) {
    forall g: nat :: MarkedDone(g) in acts ==> g < |handlers| && handlers[g].id != id
  }

  lemma MarksOwn(acts: seq<Action>, h: nat)
    requires TransactionTracker.Valid(acts) && Enabled(Run(acts), MarkedDone(h))
    ensures var w := Run(acts).world;
      && OnlyMarks(w.subscriptions, BatchMarkAsDone(w.subscriptions, w.handlers[h].stage.subs), w.handlers[h].id)
      && NotMarkedBefore(acts, w.handlers, w.handlers[h].id)
  {
    RunInv(acts);
    assert MarksOk(Run(acts).world.subscriptions, Run(acts).world.handlers[h]);
    forall g: nat | MarkedDone(g) in acts
      ensures g < |Run(acts).world.handlers| && Run(acts).world.handlers[g].id != Run(acts).world.handlers[h].id
    {
      MarkedAtMostOnce(acts, g, h);
    }
  }

  /** Adding the pending call before the early notifications or after them comes to the same. */
  lemma RegisteredAfterwards(s: State, tx: Transaction, early: seq<Transaction>)
    ensures var id, w := s.currentId + 1, s.world;
      var listening := w.(transactions := w.transactions[id := tx], listening := w.listening + {id});
      var notified := NotifiedAll(listening, id, early);
      Step(s, Register(tx, early)) ==
        State(id, s.transactionStore[id := Entry(id, id)], notified.(calls := notified.calls[id := CreatingSubscription]))
  {
    var id, w, listed := s.currentId + 1, s.world, Listed(s, tx).world;
    var before := listed.(calls := w.calls);
    NotifiedAllExtends(before, id, early);
    NotifiedAllCalls(before, id, early, listed.calls);
    assert before.(calls := listed.calls) == listed;
  }

  /** Notifications do not look at the pending calls. */
  lemma {:induction false} NotifiedAllCalls(w: World, id: nat, txs: seq<Transaction>, calls: map<nat, Call>)
    ensures NotifiedAll(w.(calls := calls), id, txs) == NotifiedAll(w, id, txs).(calls := calls)
  {
    if txs != [] {
      NotifiedAllCalls(w, id, txs[..|txs| - 1], calls);
    }
  }
}
