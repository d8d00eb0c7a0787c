/** What every run of the transaction tracker guarantees. */
module TrackerTheorems {
  import opened Sequences
  import opened Decimals
  import opened TransactionPayloads
  import opened TransactionTracker
  import opened TrackerInvariant
  import opened TrackerHistory

  /**
   Interleaving safety. After any run an id is in the store exactly when it has been registered and
   not unsubscribed, its listener is in place exactly then, no unsubCallback has run twice, and
   no two handlers of one id clean up.
   */
  lemma StoreSafety(acts: seq<Action>)
    requires Valid(acts)
    ensures var s := Run(acts);
      && (forall id: nat :: id in s.transactionStore <==> 1 <= id <= s.currentId && id !in s.world.unsubCalls)
      && s.world.listening == s.transactionStore.Keys
      && Distinct(s.world.unsubCalls)
      && (forall id, g, h :: RemovedBy(s.world.handlers, id, g) && RemovedBy(s.world.handlers, id, h) ==> g == h)
  {
    RunInv(acts);
  }

  // ----- cleanup -----

  /** The `h`-th notification of the run showed `id` in a final status, and its createEvent succeeded. */
  ghost predicate TerminalEvent(acts: seq<Action>, id: nat, h: nat) {
    EventCreated(h) in acts && h < |Given(acts)| && Given(acts)[h].id == id && Ended(Given(acts)[h].tx.status)
  }

  /**
   Exact cleanup: after any run a registered id has been removed if and only if some terminal
   notification of it had its createEvent succeed.
   */
  lemma CleanupExact(acts: seq<Action>, id: nat)
    requires Valid(acts) && 1 <= id <= Run(acts).currentId
    ensures id !in Run(acts).transactionStore <==> exists h :: TerminalEvent(acts, id, h)
  {
    RunInv(acts);
    if id !in Run(acts).transactionStore {
      RemovedHasEvent(acts, id);
    }
    if h :| TerminalEvent(acts, id, h) {
      EventHistory(acts, h);
      HandlerSound(acts, h);
      HandlerGiven(acts, h);
    }
  }

  lemma HandlerSound(acts: seq<Action>, h: nat)
    requires Valid(acts) && h < |Run(acts).world.handlers|
    ensures var s := Run(acts);
      HandlerOk(s.world.calls.Keys, s.transactionStore.Keys, s.world.handlers[h])
  {
    RunInv(acts);
  }

  lemma RemovedHasEvent(acts: seq<Action>, id: nat)
    requires Valid(acts) && id in Run(acts).world.calls && id !in Run(acts).transactionStore
    ensures exists h :: TerminalEvent(acts, id, h)
  {
    RunInv(acts);
    var h :| RemovedBy(Run(acts).world.handlers, id, h);
    EventHistory(acts, h);
    HandlerSound(acts, h);
    HandlerGiven(acts, h);
    assert TerminalEvent(acts, id, h);
  }

  /**
   The first terminal handler to resume finds its entry: it unsubscribes, removes exactly that id and
   starts the cleanup. Any later one changes nothing but its own ending, in the logged catch.
   */
  lemma TerminalResume(acts: seq<Action>, h: nat)
    requires Valid(acts) && Enabled(Run(acts), EventCreated(h)) && Ended(Run(acts).world.handlers[h].status)
    ensures var s, s' := Run(acts), Step(Run(acts), EventCreated(h));
      var id := s.world.handlers[h].id;
      if exists g :: TerminalEvent(acts, id, g) then
        s' == s.(world := SetStage(s.world, h, EntryMissing))
      else
        && id in s.transactionStore
        && s'.transactionStore == s.transactionStore - {id}
        && s'.world == SetStage(s.world, h, Finding).(
             listening := s.world.listening - {id}, unsubCalls := s.world.unsubCalls + [id])
  {
    RunInv(acts);
    HandlerSound(acts, h);
    CleanupExact(acts, Run(acts).world.handlers[h].id);
  }

  // ----- ids -----

  lemma {:induction false} IdsGrow(acts: seq<Action>, k: nat)
    requires Valid(acts) && k <= |acts|
    ensures Valid(acts[..k]) && Run(acts[..k]).currentId <= Run(acts).currentId
    decreases |acts| - k
  {
    ValidPrefix(acts, k);
    if k < |acts| {
      StepPrefix(acts, k);
      IdsGrow(acts, k + 1);
    } else {
      assert acts[..k] == acts;
    }
  }

  /** No call, entry, handler, unsubscription or subscription carries the number. */
  ghost predicate Unused(s: State, id: nat) {
    && id !in s.world.calls && id !in s.transactionStore && id !in s.world.unsubCalls
    && (forall h :: 0 <= h < |s.world.handlers| ==> s.world.handlers[h].id != id)
    && (forall sub :: sub in s.world.subscriptions && s.world.subscriptions[sub].eventType == TransactionUpdate ==>
          s.world.subscriptions[sub].scope != Decimal(id))
  }

  lemma NextIdUnused(acts: seq<Action>)
    requires Valid(acts)
    ensures Unused(Run(acts), Run(acts).currentId + 1)
  {
    RunInv(acts);
    OwnersRegistered(acts);
    var s, id := Run(acts), Run(acts).currentId + 1;
    forall h | 0 <= h < |s.world.handlers| ensures s.world.handlers[h].id != id {
      HandlerSound(acts, h);
    }
    forall sub | sub in s.world.subscriptions && s.world.subscriptions[sub].eventType == TransactionUpdate
      ensures s.world.subscriptions[sub].scope != Decimal(id)
    {
      var owner := s.world.subscriptions[sub].createdFor;
      assert SubscribedFor(s.world.subscriptions, sub, owner) && OwnerOk(s.world.calls, sub, owner);
      if Decimal(owner) == Decimal(id) {
        DecimalInjective(owner, id);
      }
    }
  }

  /** Ids strictly increase over a run. */
  lemma IdsIncrease(acts: seq<Action>, i: nat, j: nat)
    requires Valid(acts) && i < j < |acts| && acts[j].Register?
    ensures Valid(acts[..i + 1]) && Valid(acts[..j + 1])
    ensures Run(acts[..i + 1]).currentId < Run(acts[..j + 1]).currentId
  {
    StepPrefix(acts, j);
    RegisterTakesNext(Run(acts[..j]), acts[j]);
    EarlierIdsBelow(acts, i + 1, j);
  }

  lemma EarlierIdsBelow(acts: seq<Action>, k: nat, j: nat)
    requires Valid(acts) && k <= j <= |acts|
    ensures Valid(acts[..k]) && Valid(acts[..j]) && Run(acts[..k]).currentId <= Run(acts[..j]).currentId
  {
    ValidPrefix(acts, j);
    assert acts[..j][..k] == acts[..k];
    IdsGrow(acts[..j], k);
  }

  /** Ids are never reused: nothing has carried the number a registration takes. */
  lemma IdsNeverReused(acts: seq<Action>, a: Action)
    requires Valid(acts) && a.Register?
    ensures Unused(Run(acts), Step(Run(acts), a).currentId)
  {
    NextIdUnused(acts);
    RegisterTakesNext(Run(acts), a);
  }

  lemma RegisterTakesNext(s: State, a: Action)
    requires a.Register?
    ensures Step(s, a).currentId == s.currentId + 1
  {
  }

  /** A subscription belongs to the call that created it, and to no other subscription's call. */
  ghost predicate OwnerOk(calls: map<nat, Call>, sub: nat, owner: nat) {
    owner in calls && (calls[owner] == SettingNonce(sub) || calls[owner] == Started(sub) || calls[owner] == Abandoned)
  }

  ghost predicate OwnersOk(w: World) {
    forall sub :: sub in w.subscriptions && w.subscriptions[sub].eventType == TransactionUpdate ==>
      OwnerOk(w.calls, sub, w.subscriptions[sub].createdFor)
  }

  lemma {:induction false} OwnersRegistered(acts: seq<Action>)
    requires Valid(acts)
    ensures OwnersOk(Run(acts).world)
    decreases |acts|
  {
    if acts != [] {
      var front, a := acts[..|acts| - 1], acts[|acts| - 1];
      RunInv(front);
      OwnersRegistered(front);
      StepKeepsOwners(Run(front), a);
    }
  }

  lemma StepKeepsOwners(s: State, a: Action)
    requires IdsInUse(s) && Enabled(s, a) && OwnersOk(s.world)
    ensures OwnersOk(Step(s, a).world)
  {
    if a.Register? {
      RegisterKeepsOwners(s, a);
    } else if a.NonceSet? {
      NonceSetKeepsOwners(s, a);
    }
  }

  lemma RegisterKeepsOwners(s: State, a: Action)
    requires IdsInUse(s) && a.Register? && OwnersOk(s.world)
    ensures OwnersOk(Step(s, a).world)
  {
    RegisterFrame(s, a.tx, a.early);
  }

  lemma NonceSetKeepsOwners(s: State, a: Action)
    requires a.NonceSet? && Enabled(s, a) && OwnersOk(s.world)
    ensures OwnersOk(Step(s, a).world)
  {
    NonceSetFrame(s, a.id, a.early);
  }

  // ----- scopes and nonces -----

  /** What a handler is about to mark is what `findAll` returned to it, at a step of its own. */
  lemma {:induction false} MarksWereFound(acts: seq<Action>, h: nat) returns (k: nat)
    requires Valid(acts) && h < |Run(acts).world.handlers| && Run(acts).world.handlers[h].stage.Marking?
    ensures k < |acts| && Valid(acts[..k]) && acts[k] == SubscriptionsFound(h)
    ensures h < |Run(acts[..k]).world.handlers| && Run(acts[..k]).world.handlers[h].id == Run(acts).world.handlers[h].id
    ensures Run(acts).world.handlers[h].stage.subs
         == FindAll(Run(acts[..k]).world.subscriptions, Decimal(Run(acts).world.handlers[h].id))
    decreases |acts|
  {
    var front, a := acts[..|acts| - 1], acts[|acts| - 1];
    StepHandlers(Run(front), a, h);
    if a == SubscriptionsFound(h) {
      k := |acts| - 1;
    } else {
      StepKeepsMarking(Run(front), a, h);
      k := MarksWereFound(front, h);
      assert front[..k] == acts[..k];
    }
  }

  lemma StepKeepsMarking(s: State, a: Action, h: nat)
    requires Enabled(s, a) && a != SubscriptionsFound(h)
    requires h < |Step(s, a).world.handlers| && Step(s, a).world.handlers[h].stage.Marking?
    ensures h < |s.world.handlers| && s.world.handlers[h] == Step(s, a).world.handlers[h]
  {
    StepEffect(s, a);
    if Notifies(a) {
      ExtendedAt(s.world.handlers, Step(s, a).world.handlers, NotifiedId(s, a), Snapshots(a), h);
    }
  }

  /**
   Scope isolation: whenever a run marks subscriptions done, the ones it changes were created for
   the finished transaction and were active and unexpired when they were looked up, and every
   such subscription is done afterwards.
   */
  lemma ScopeIsolation(acts: seq<Action>, h: nat) returns (k: nat)
    requires Valid(acts) && Enabled(Run(acts), MarkedDone(h))
    ensures k < |acts| && Valid(acts[..k]) && acts[k] == SubscriptionsFound(h)
    ensures var id, found := Run(acts).world.handlers[h].id, Run(acts[..k]).world.subscriptions;
      var before, after := Run(acts).world.subscriptions, Step(Run(acts), MarkedDone(h)).world.subscriptions;
      && after.Keys == before.Keys
      && forall sub :: sub in before ==>
           after[sub] == if sub in ActiveFor(found, id) then before[sub].(status := Done) else before[sub]
  {
    k := MarksWereFound(acts, h);
    RunInv(acts[..k]);
    FindAllExact(Run(acts[..k]).world.subscriptions, Run(acts).world.handlers[h].id);
  }

  /** A handler has finished its cleanup exactly when its subscriptions have been marked in the run. */
  lemma {:induction false} MarkedHistory(acts: seq<Action>, h: nat)
    requires Valid(acts)
    ensures MarkedDone(h) in acts <==> h < |Run(acts).world.handlers| && Run(acts).world.handlers[h].stage == Cleaned
    decreases |acts|
  {
    if acts != [] {
      var front, a := acts[..|acts| - 1], acts[|acts| - 1];
      assert acts == front + [a];
      MarkedHistory(front, h);
      StepCleaned(Run(front), a, h);
    }
  }

  lemma StepCleaned(s: State, a: Action, h: nat)
    requires Enabled(s, a)
    ensures var hs, hs' := s.world.handlers, Step(s, a).world.handlers;
      h < |hs'| && hs'[h].stage == Cleaned <==> a == MarkedDone(h) || (h < |hs| && hs[h].stage == Cleaned)
  {
    StepEffect(s, a);
    if Notifies(a) && h < |Step(s, a).world.handlers| {
      ExtendedAt(s.world.handlers, Step(s, a).world.handlers, NotifiedId(s, a), Snapshots(a), h);
    }
  }

  /** Over a whole run the subscriptions of one transaction are marked done at most once. */
  lemma MarkedAtMostOnce(acts: seq<Action>, g: nat, h: nat)
    requires Valid(acts) && Enabled(Run(acts), MarkedDone(h)) && MarkedDone(g) in acts
    ensures g < |Run(acts).world.handlers| && Run(acts).world.handlers[g].id != Run(acts).world.handlers[h].id
  {
    RunInv(acts);
    MarkedHistory(acts, g);
    var hs := Run(acts).world.handlers;
    assert RemovedBy(hs, hs[g].id, g) && RemovedBy(hs, hs[h].id, h);
  }

  /** Events of the scope are delivered to the subscription. */
  ghost predicate Receives(subscriptions: map<nat, Subscription>, sub: nat, scope: string) {
    sub in subscriptions && subscriptions[sub].eventType == TransactionUpdate && subscriptions[sub].scope == scope
  }

  /**
   Nonce reservation: nonce 0 belongs to the initial response alone. Whenever an action creates an
   event, every subscription the event can be delivered to has had its nonce raised by then. Outside
   a registration there is such a subscription, the one of the id's own call.
   */
  lemma NonceReserved(acts: seq<Action>, a: Action, e: nat) returns (id: nat)
    requires Valid(acts) && Enabled(Run(acts), a)
    requires |Run(acts).world.events| <= e < |Step(Run(acts), a).world.events|
    ensures var w := Step(Run(acts), a).world;
      && w.events[e].scope == Decimal(id)
      && (forall sub :: Receives(w.subscriptions, sub, w.events[e].scope) ==> w.subscriptions[sub].nextNonce >= 1)
      && (!a.Register? ==> id in w.calls && w.calls[id].Started? && SubscribedFor(w.subscriptions, w.calls[id].sub, id))
  {
    var s, s' := Run(acts), Step(Run(acts), a);
    RunInv(acts);
    OwnersRegistered(acts);
    StepKeepsInv(s, a);
    StepKeepsOwners(s, a);
    NewEvent(s, a, e);
    id := NotifiedId(s, a);
    assert CallOk(s'.world.subscriptions, id, s'.world.calls[id]);
    ScopeReserved(s', id);
  }

  /** The call an event is created for has its nonce set, or is still registering. */
  lemma NewEvent(s: State, a: Action, e: nat)
    requires Inv(s) && Enabled(s, a) && |s.world.events| <= e < |Step(s, a).world.events|
    ensures Notifies(a)
    ensures var w, id := Step(s, a).world, NotifiedId(s, a);
      && w.events[e].scope == Decimal(id) && id in w.calls
      && if a.Register? then w.calls[id] == CreatingSubscription else w.calls[id].Started?
  {
    StepEvents(s, a);
    if a.Register? {
      RegisterFrame(s, a.tx, a.early);
      NotifiedEvents(Listed(s, a.tx).world, s.currentId + 1, a.early, e);
    } else if a.NonceSet? {
      NewNonceSetEvent(s, a, e);
    }
  }

  lemma NewNonceSetEvent(s: State, a: Action, e: nat)
    requires a.NonceSet? && Enabled(s, a) && |s.world.events| <= e < |Step(s, a).world.events|
    ensures var w := Step(s, a).world; w.events[e].scope == Decimal(a.id) && a.id in w.calls && w.calls[a.id].Started?
  {
    NonceSetFrame(s, a.id, a.early);
    NotifiedEvents(NonceUpdated(s.world, a.id, s.world.calls[a.id].sub), a.id, a.early, e);
  }

  /** A subscription of the id's scope can only be the call's own. */
  lemma ScopeReserved(s: State, id: nat)
    requires Inv(s) && OwnersOk(s.world) && id in s.world.calls
    requires s.world.calls[id] == CreatingSubscription || s.world.calls[id].Started?
    ensures forall sub :: Receives(s.world.subscriptions, sub, Decimal(id)) ==> s.world.subscriptions[sub].nextNonce >= 1
  {
    var w := s.world;
    assert CallOk(w.subscriptions, id, w.calls[id]);
    forall sub | Receives(w.subscriptions, sub, Decimal(id)) ensures w.subscriptions[sub].nextNonce >= 1
    {
      var owner := w.subscriptions[sub].createdFor;
      assert SubscribedFor(w.subscriptions, sub, owner) && OwnerOk(w.calls, sub, owner);
      DecimalInjective(id, owner);
    }
  }

  /** Only notifications create events. */
  lemma StepEvents(s: State, a: Action)
    requires Enabled(s, a)
    ensures !Notifies(a) ==> Step(s, a).world.events == s.world.events
  {
  }

  lemma {:induction false} NotifiedEvents(w: World, id: nat, txs: seq<Transaction>, e: nat)
    requires |w.events| <= e < |NotifiedAll(w, id, txs).events|
    ensures NotifiedAll(w, id, txs).events[e].scope == Decimal(id)
  {
    var n := |txs| - 1;
    if e < |NotifiedAll(w, id, txs[..n]).events| {
      NotifiedEvents(w, id, txs[..n], e);
    }
  }

  /** A stored response is the initial one of its call, for the call's own subscription and scope. */
  ghost predicate ResponsesOk(w: World) {
    forall id :: id in w.responses ==>
      && w.responses[id].nonce == 0 && w.responses[id].scope == Decimal(id)
      && id in w.calls && w.calls[id] == Started(w.responses[id].subscriptionId)
  }

  lemma {:induction false} ResponsesReserved(acts: seq<Action>)
    requires Valid(acts)
    ensures ResponsesOk(Run(acts).world)
    decreases |acts|
  {
    if acts != [] {
      var front, a := acts[..|acts| - 1], acts[|acts| - 1];
      RunInv(front);
      ResponsesReserved(front);
      StepKeepsResponses(Run(front), a);
    }
  }

  lemma StepKeepsResponses(s: State, a: Action)
    requires IdsInUse(s) && Enabled(s, a) && ResponsesOk(s.world)
    ensures ResponsesOk(Step(s, a).world)
  {
    if a.Register? {
      RegisterKeepsResponses(s, a);
    } else if a.NonceSet? {
      NonceSetKeepsResponses(s, a);
    } else {
      OtherFrame(s, a);
    }
  }

  lemma RegisterKeepsResponses(s: State, a: Action)
    requires IdsInUse(s) && a.Register? && ResponsesOk(s.world)
    ensures ResponsesOk(Step(s, a).world)
  {
    RegisterFrame(s, a.tx, a.early);
  }

  lemma NonceSetKeepsResponses(s: State, a: Action)
    requires a.NonceSet? && Enabled(s, a) && ResponsesOk(s.world)
    ensures ResponsesOk(Step(s, a).world)
  {
    NonceSetFrame(s, a.id, a.early);
  }

  /**
   The answer of `submitAndSubscribe`: it is given when its nonce is set, if the payload can be
   assembled, it shows the transaction as it was last seen by then, and it stays.
   */
  lemma {:induction false} ResponseShown(acts: seq<Action>, k: nat, id: nat)
    requires Valid(acts) && k < |acts| && acts[k].NonceSet? && acts[k].id == id
    ensures var responses, latest := Run(acts).world.responses, Latest(acts[..k + 1], id);
      && latest.Some?
      && (id in responses <==> Assemblable(latest.value))
      && (id in responses ==> responses[id].payload == PayloadOf(latest.value))
    decreases |acts|
  {
    var front, a := acts[..|acts| - 1], acts[|acts| - 1];
    if k == |front| {
      assert acts[..k + 1] == acts;
      ResponsesReserved(front);
      NonceSetFrame(Run(front), id, a.early);
      TransactionsAreLatest(acts, id);
    } else {
      assert front[..k + 1] == acts[..k + 1];
      ResponseShown(front, k, id);
      RunInv(front);
      StartedStays(front, k, id);
      ResponseKept(Run(front), a, id);
    }
  }

  lemma {:induction false} StartedStays(acts: seq<Action>, k: nat, id: nat)
    requires Valid(acts) && k < |acts| && acts[k].NonceSet? && acts[k].id == id
    ensures id in Run(acts).world.calls && Run(acts).world.calls[id].Started?
    decreases |acts|
  {
    var front, a := acts[..|acts| - 1], acts[|acts| - 1];
    if k == |front| {
      NonceSetFrame(Run(front), id, a.early);
    } else {
      RunInv(front);
      StartedStays(front, k, id);
      ResponseKept(Run(front), a, id);
    }
  }

  lemma ResponseKept(s: State, a: Action, id: nat)
    requires IdsInUse(s) && Enabled(s, a) && id in s.world.calls && s.world.calls[id].Started?
    ensures var w, w' := s.world, Step(s, a).world;
      && id in w'.calls && w'.calls[id].Started?
      && (id in w'.responses <==> id in w.responses)
      && (id in w.responses ==> w'.responses[id] == w.responses[id])
  {
    if a.Register? {
      RegisterFrame(s, a.tx, a.early);
    } else if a.NonceSet? {
      NonceSetFrame(s, a.id, a.early);
    } else {
      OtherFrame(s, a);
    }
  }

  // ----- snapshots -----

  /**
   Snapshot coherence: the createEvent calls of one scope are those the notifications of its id call
   for, in order, each with the status the notification's handler saved and later decides on.
   */
  lemma EventsInOrder(acts: seq<Action>, id: nat)
    requires Valid(acts)
    ensures var w := Run(acts).world;
      && Filter(w.events, (e: Event) => e.scope == Decimal(id))
         == EventsFor(Filter(Given(acts), (n: Notification) => n.id == id))
      && |w.handlers| == |Given(acts)|
      && forall h :: 0 <= h < |w.handlers| && Assemblable(Given(acts)[h].tx) ==>
           PayloadOf(Given(acts)[h].tx)[FStatus] == StatusDatum(w.handlers[h].status)
  {
    RunInv(acts);
    NotificationsHandled(acts);
    var w := Run(acts).world;
    EventsOfScope(Given(acts), id);
    forall h | 0 <= h < |w.handlers| && Assemblable(Given(acts)[h].tx)
      ensures PayloadOf(Given(acts)[h].tx)[FStatus] == StatusDatum(w.handlers[h].status)
    {
      HandlerGiven(acts, h);
    }
  }

  lemma {:induction false} EventsOfScope(told: seq<Notification>, id: nat)
    ensures Filter(EventsFor(told), (e: Event) => e.scope == Decimal(id))
         == EventsFor(Filter(told, (n: Notification) => n.id == id))
  {
    if told != [] {
      var k := |told| - 1;
      var front, n := told[..k], told[k];
      var inScope, ofId := (e: Event) => e.scope == Decimal(id), (n: Notification) => n.id == id;
      var made := if Assemblable(n.tx) then [Event(Decimal(n.id), PayloadOf(n.tx))] else [];
      EventsOfScope(front, id);
      FilterAppend(EventsFor(front), made, inScope);
      FilterAppend(front, [n], ofId);
      assert told == front + [n];
      if n.id == id {
        assert Filter([n], ofId) == [n];
        assert Filter(made, inScope) == made;
        EventsSnoc(Filter(front, ofId), n);
      } else {
        if Decimal(n.id) == Decimal(id) {
          DecimalInjective(n.id, id);
        }
        assert Filter([n], ofId) == [];
        assert Filter(made, inScope) == [];
        assert Filter(front, ofId) + [] == Filter(front, ofId);
      }
    }
  }

  ghost predicate AllAssemblable(told: seq<Notification>, id: nat) {
    forall k :: 0 <= k < |told| && told[k].id == id ==> Assemblable(told[k].tx)
  }

  /** Every notification of an id makes its own createEvent call if and only if each payload can be assembled. */
  lemma OneEventEach(acts: seq<Action>, id: nat)
    requires Valid(acts)
    ensures |Filter(Run(acts).world.events, (e: Event) => e.scope == Decimal(id))|
         == |Filter(Given(acts), (n: Notification) => n.id == id)|
      <==> AllAssemblable(Given(acts), id)
  {
    EventsInOrder(acts, id);
    EventsCounted(Given(acts), id);
  }

  lemma {:induction false} EventsCounted(told: seq<Notification>, id: nat)
    ensures var ofId := Filter(told, (n: Notification) => n.id == id);
      |EventsFor(ofId)| <= |ofId| && (|EventsFor(ofId)| == |ofId| <==> AllAssemblable(told, id))
  {
    if told != [] {
      var k := |told| - 1;
      var front, n := told[..k], told[k];
      var ofId := (n: Notification) => n.id == id;
      EventsCounted(front, id);
      FilterAppend(front, [n], ofId);
      assert told == front + [n];
      assert AllAssemblable(told, id) <==> AllAssemblable(front, id) && (n.id == id ==> Assemblable(n.tx));
      if n.id == id {
        assert Filter([n], ofId) == [n];
        EventsSnoc(Filter(front, ofId), n);
      } else {
        assert Filter([n], ofId) == [];
        assert Filter(front, ofId) + [] == Filter(front, ofId);
      }
    }
  }

  /** Only a notification whose payload could be assembled ever cleans up. */
  lemma CleanupNeedsPayload(acts: seq<Action>, id: nat, h: nat)
    requires Valid(acts) && TerminalEvent(acts, id, h)
    ensures Assemblable(Given(acts)[h].tx)
  {
    EventHistory(acts, h);
    HandlerSound(acts, h);
    HandlerGiven(acts, h);
  }

  /** A transaction runs and fails, and the SDK reports no block number. */
  function LostFailure(tx: Transaction, failed: Transaction): seq<Action> {
    [Register(tx, []), SubscriptionCreated(1, 0), NonceSet(1, []), Notify(1, failed)]
  }

  /** The input that shows a terminal notification cleaning nothing up. */
  lemma LostFailureLeaks(tx: Transaction, failed: Transaction)
    requires failed.status == Failed && failed.blockNumber.None?
    ensures var acts := LostFailure(tx, failed);
      && Valid(acts)
      && Run(acts).world.handlers == [Handler(1, Failed, NoPayload, failed)]
      && Run(acts).world.events == [] && 1 in Run(acts).transactionStore
  {
    var acts := LostFailure(tx, failed);
    ValidSnoc([], acts[0]);
    assert [] + [acts[0]] == acts[..1];
    ValidSnoc(acts[..1], acts[1]);
    assert acts[..1] + [acts[1]] == acts[..2];
    ValidSnoc(acts[..2], acts[2]);
    assert acts[..2] + [acts[2]] == acts[..3];
    ValidSnoc(acts[..3], acts[3]);
    assert acts[..3] + [acts[3]] == acts;
  }

  /** What a handler saved when it was called stays as it was for the rest of the run, whatever the SDK mutates. */
  lemma {:induction false} SavedStatusKept(acts: seq<Action>, k: nat, h: nat)
    requires Valid(acts) && k <= |acts| && Valid(acts[..k]) && h < |Run(acts[..k]).world.handlers|
    ensures h < |Run(acts).world.handlers| && SameCall(Run(acts[..k]).world.handlers[h], Run(acts).world.handlers[h])
    decreases |acts|
  {
    if k < |acts| {
      var front, a := acts[..|acts| - 1], acts[|acts| - 1];
      assert front[..k] == acts[..k];
      SavedStatusKept(front, k, h);
      StepHandlers(Run(front), a, h);
    } else {
      assert acts[..k] == acts;
    }
  }

  /** The SDK may mutate a transaction while an event is being created: the handler's decision is the same. */
  lemma MutationCommutes(s: State, h: nat, id: nat, tx: Transaction)
    requires Enabled(s, EventCreated(h)) && Enabled(s, Mutate(id, tx))
    ensures var m := Step(s, Mutate(id, tx));
      && Enabled(m, EventCreated(h)) && Enabled(Step(s, EventCreated(h)), Mutate(id, tx))
      && Step(m, EventCreated(h)) == Step(Step(s, EventCreated(h)), Mutate(id, tx))
  {
  }

  // ----- what became of a call -----

  /** The call was given up: creating or updating its subscription failed. */
  predicate GivenUp(acts: seq<Action>, id: nat) {
    SubscriptionFailed(id) in acts || NonceFailed(id) in acts
  }

  ghost predicate RunStartedFor(acts: seq<Action>, id: nat) {
    exists k :: 0 <= k < |acts| && acts[k].NonceSet? && acts[k].id == id
  }

  ghost predicate CallIs(s: State, id: nat, abandoned: bool) {
    id in s.world.calls && if abandoned then s.world.calls[id] == Abandoned else s.world.calls[id].Started?
  }

  /** A call is abandoned exactly when a subscription call of its id failed, and has started exactly when its nonce was set. */
  lemma {:induction false} CallHistory(acts: seq<Action>, id: nat)
    requires Valid(acts)
    ensures CallIs(Run(acts), id, true) <==> GivenUp(acts, id)
    ensures CallIs(Run(acts), id, false) <==> RunStartedFor(acts, id)
    decreases |acts|
  {
    if acts != [] {
      var front, a := acts[..|acts| - 1], acts[|acts| - 1];
      assert acts == front + [a];
      CallHistory(front, id);
      RunInv(front);
      StepCall(Run(front), a, id);
      RunStartedSnoc(front, a, id);
      GivenUpSnoc(front, a, id);
    }
  }

  lemma GivenUpSnoc(acts: seq<Action>, a: Action, id: nat)
    ensures GivenUp(acts + [a], id) <==> GivenUp(acts, id) || a == SubscriptionFailed(id) || a == NonceFailed(id)
  {
  }

  lemma RunStartedSnoc(acts: seq<Action>, a: Action, id: nat)
    ensures RunStartedFor(acts + [a], id) <==> RunStartedFor(acts, id) || (a.NonceSet? && a.id == id)
  {
    if k :| 0 <= k < |acts| && acts[k].NonceSet? && acts[k].id == id {
      assert (acts + [a])[k] == acts[k];
    }
    if a.NonceSet? && a.id == id {
      assert (acts + [a])[|acts|] == a;
    }
  }

  lemma StepCall(s: State, a: Action, id: nat)
    requires IdsInUse(s) && Enabled(s, a)
    ensures CallIs(Step(s, a), id, true) <==>
      CallIs(s, id, true) || a == SubscriptionFailed(id) || a == NonceFailed(id)
    ensures CallIs(Step(s, a), id, false) <==> CallIs(s, id, false) || (a.NonceSet? && a.id == id)
  {
    if a.Register? {
      RegisterFrame(s, a.tx, a.early);
    } else if a.NonceSet? {
      NonceSetFrame(s, a.id, a.early);
    } else if MovesHandler(a) {
      MoveFrame(s, a);
    }
  }

  // ----- what is never cleaned up -----

  ghost predicate NoTerminalInFlight(s: State, id: nat) {
    forall h :: 0 <= h < |s.world.handlers| && s.world.handlers[h].id == id && s.world.handlers[h].stage.Creating? ==>
      !Ended(s.world.handlers[h].status)
  }

  ghost predicate Stranded(s: State, id: nat) {
    && id in s.world.calls && s.world.calls[id] == Abandoned && id in s.transactionStore && NoTerminalInFlight(s, id)
  }

  /**
   When creating or updating its subscription fails, a transaction never runs, and unless a terminal
   status was already being reported its entry and listener stay for ever.
   */
  lemma {:induction false} StrandedForever(acts: seq<Action>, k: nat, id: nat)
    requires Valid(acts) && k <= |acts| && Valid(acts[..k]) && Stranded(Run(acts[..k]), id)
    ensures Stranded(Run(acts), id)
    decreases |acts|
  {
    if k < |acts| {
      var front, a := acts[..|acts| - 1], acts[|acts| - 1];
      assert front[..k] == acts[..k];
      StrandedForever(front, k, id);
      RunInv(front);
      StepKeepsStranded(Run(front), a, id);
    } else {
      assert acts[..k] == acts;
    }
  }

  /** The entry and its listener are in place after the run. */
  ghost predicate Kept(acts: seq<Action>, id: nat) {
    Valid(acts) ==> id in Run(acts).transactionStore && id in Run(acts).world.listening
  }

  /**
   The exact condition: an abandoned transaction's entry and listener stay in every continuation if
   and only if no terminal status of it is being reported.
   */
  lemma StrandedExact(acts: seq<Action>, id: nat)
    requires Valid(acts) && id in Run(acts).world.calls && Run(acts).world.calls[id] == Abandoned
    requires id in Run(acts).transactionStore
    ensures NoTerminalInFlight(Run(acts), id) <==> forall more: seq<Action> :: Kept(acts + more, id)
  {
    if NoTerminalInFlight(Run(acts), id) {
      forall more: seq<Action> ensures Kept(acts + more, id) {
        if Valid(acts + more) {
          assert (acts + more)[..|acts|] == acts;
          StrandedForever(acts + more, |acts|, id);
          RunInv(acts + more);
        }
      }
    } else {
      var h :| 0 <= h < |Run(acts).world.handlers| && Run(acts).world.handlers[h].id == id
        && Run(acts).world.handlers[h].stage.Creating? && Ended(Run(acts).world.handlers[h].status);
      RunInv(acts);
      ValidSnoc(acts, EventCreated(h));
      assert !Kept(acts + [EventCreated(h)], id);
    }
  }

  /** A run after which a transaction's entry and listener stay for ever: its first subscription call fails. */
  lemma StrandedRun(tx: Transaction, more: seq<Action>)
    ensures var acts := [Register(tx, []), SubscriptionFailed(1)];
      && Valid(acts) && Stranded(Run(acts), 1) && Kept(acts + more, 1)
  {
    var acts := [Register(tx, []), SubscriptionFailed(1)];
    ValidSnoc([], acts[0]);
    assert [] + [acts[0]] == acts[..1];
    ValidSnoc(acts[..1], acts[1]);
    assert acts[..1] + [acts[1]] == acts;
    StrandedExact(acts, 1);
  }

  lemma StepKeepsStranded(s: State, a: Action, id: nat)
    requires Inv(s) && Enabled(s, a) && Stranded(s, id)
    ensures Stranded(Step(s, a), id)
  {
    StrandedEntryKept(s, a, id);
    StepEffect(s, a);
    var s' := Step(s, a);
    var hs, hs' := s.world.handlers, s'.world.handlers;
    forall h | 0 <= h < |hs'| && hs'[h].id == id && hs'[h].stage.Creating? ensures !Ended(hs'[h].status) {
      if Notifies(a) {
        ExtendedAt(hs, hs', NotifiedId(s, a), Snapshots(a), h);
      }
      assert hs'[h] == hs[h];
    }
  }

  /** The call stays abandoned, so nothing notifies the id, and no handler can remove its entry. */
  lemma StrandedEntryKept(s: State, a: Action, id: nat)
    requires Inv(s) && Enabled(s, a) && Stranded(s, id)
    ensures id in Step(s, a).world.calls && Step(s, a).world.calls[id] == Abandoned
    ensures id in Step(s, a).transactionStore
    ensures Notifies(a) ==> NotifiedId(s, a) != id
  {
    if a.EventCreated? && s.world.handlers[a.h].id == id {
      assert !Ended(s.world.handlers[a.h].status);
    }
    StrandedCallKept(s, a, id);
  }

  lemma StrandedCallKept(s: State, a: Action, id: nat)
    requires IdsInUse(s) && Enabled(s, a) && id in s.world.calls && s.world.calls[id] == Abandoned
    ensures id in Step(s, a).world.calls && Step(s, a).world.calls[id] == Abandoned
  {
    if a.Register? {
      RegisterFrame(s, a.tx, a.early);
    } else if a.NonceSet? {
      NonceSetFrame(s, a.id, a.early);
    } else {
      OtherFrame(s, a);
    }
  }
}
