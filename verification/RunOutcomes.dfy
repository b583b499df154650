/** What the steps of a run leave behind, and where every published change comes from. */
module RunOutcomes {
  import opened Wrappers
  import opened Statuses
  import opened Tables
  import opened Settlement
  import opened SettlementSafety
  import opened Outcomes

  lemma RunSound(states: seq<State>, actions: seq<Action>, i: nat)
    requires Run(states, actions) && i < |states|
    ensures Inv(states[i]) && Sound(states[i].t)
  {
    hide Inv, Run, Sound;
    RunInv(states, actions, i);
    SoundTables(states[i]);
  }

  // ---- what a step leaves -----------------------------------------------

  /** When a request persists, its payment and attempt stand as the provider answered:
      under its reference and with the status its word names, or unknown and unpublished
      when it did not answer. */
  lemma PersistSettles(states: seq<State>, actions: seq<Action>, i: nat)
    requires Run(states, actions) && i < |actions| && actions[i].Persist?
    ensures actions[i].r in states[i].requests && states[i].requests[actions[i].r].Answered?
    ensures
      var q := states[i].requests[actions[i].r];
      match q.answer
      case Response(reference, word) =>
        Stands(states[i + 1].t, q.txId, q.attId, PaymentStatus(word), reference, actions[i].now)
      case Failure => Stands(states[i + 1].t, q.txId, q.attId, Unknown, "", actions[i].now)
  {
    RunNext(states, actions, i);
    RunSound(states, actions, i);
    PersistStepSettles(states[i], actions[i], states[i + 1]);
  }

  lemma PersistStepSettles(s: State, a: Action, s': State)
    requires Inv(s) && Next(s, a, s') && a.Persist?
    ensures
      var q := s.requests[a.r];
      match q.answer
      case Response(reference, word) => Stands(s'.t, q.txId, q.attId, PaymentStatus(word), reference, a.now)
      case Failure => Stands(s'.t, q.txId, q.attId, Unknown, "", a.now)
  {
    hide Inv, PersistPayment, Stands, Sound;
    var q := s.requests[a.r];
    OwnedRow(s, a.r);
    UntouchedPair(s.t, q.txId, q.attId);
    match q.answer {
      case Response(reference, word) => PersistResponse(s.t, q.txId, q.attId, reference, word, a.now);
      case Failure => PersistFailure(s.t, q.txId, q.attId, a.now);
    }
  }

  lemma UntouchedPair(t: Tables, txId: Id, attId: Id)
    requires Sound(t) && Untouched(t, txId, attId)
    ensures txId in t.txs && attId in t.attempts
    ensures t.txs[txId].providerReference == t.attempts[attId].providerReference == ""
  {
    UntouchedUnpublished(t, txId, attId);
    hide Path, RowOk, OneAttempt, OneKey, Walked;
  }

  ghost predicate Steps(states: seq<State>, actions: seq<Action>) {
    |states| == |actions| + 1 && forall i :: 0 <= i < |actions| ==> Next(states[i], actions[i], states[i + 1])
  }

  /** From every state with the identifiers, the key and the reference free, a request can
      run to its end: its payment is created, sent, and stands as the provider answered,
      and the request is told of it. */
  lemma RequestCompletes(s: State, r: nat, p: Payment, txId: Id, attId: Id, answer: Answer, created: int, now: int)
      returns (states: seq<State>)
    requires r !in s.requests && Free(s.t, p, txId, attId)
    ensures |states| == 7 && states[0] == s
    ensures Steps(states, [Arrive(r, p, txId, attId), Find(r, None), Insert(r, created, true), Call(r),
                           Return(r, answer), Persist(r, now, true)])
    ensures states[6].replies == s.replies + [Reply(p.app, p.key, p.hash, Some(txId))]
    ensures states[6].t.txs.Keys == s.t.txs.Keys + {txId} && states[6].t.txs[txId].payment == p
    ensures
      match answer
      case Response(reference, word) => Stands(states[6].t, txId, attId, PaymentStatus(word), reference, now)
      case Failure => Stands(states[6].t, txId, attId, Unknown, "", now)
  {
    hide InsertPayment, PersistPayment, Stands, PaymentStatus, Next;
    CreatedThenSettled(s.t, p, txId, attId, answer, created, now);
    var s1, s2, s3 := CreateSteps(s, r, p, txId, attId, created);
    var s4, s5, s6 := SendSteps(s3, r, p, txId, attId, answer, now);
    states := [s, s1, s2, s3, s4, s5, s6];
  }

  lemma CreateSteps(s: State, r: nat, p: Payment, txId: Id, attId: Id, created: int)
      returns (s1: State, s2: State, s3: State)
    requires r !in s.requests && InsertPayment(s.t, p, txId, attId, created).Ok?
    requires forall x :: x in s.t.txs && s.t.txs[x].payment.app == p.app ==> s.t.txs[x].payment.key != p.key
    ensures Next(s, Arrive(r, p, txId, attId), s1)
    ensures Next(s1, Find(r, None), s2)
    ensures Next(s2, Insert(r, created, true), s3)
    ensures
      s3 == s.(t := InsertPayment(s.t, p, txId, attId, created).value,
               requests := s.requests[r := Inserted(p, txId, attId)])
  {
    hide InsertPayment, LatestForReference, LatestForTransaction, Due;
    s1 := s.(requests := s.requests[r := Arrived(p, txId, attId)]);
    s2 := s1.(requests := s1.requests[r := Ready(p, txId, attId)]);
    s3 := s2.(t := InsertPayment(s.t, p, txId, attId, created).value,
              requests := s2.requests[r := Inserted(p, txId, attId)]);
  }

  lemma SendSteps(s3: State, r: nat, p: Payment, txId: Id, attId: Id, answer: Answer, now: int)
      returns (s4: State, s5: State, s6: State)
    requires r in s3.requests && s3.requests[r] == Inserted(p, txId, attId)
    requires PersistPayment(s3.t, txId, attId, Processing, answer, now).Ok?
    ensures Next(s3, Call(r), s4)
    ensures Next(s4, Return(r, answer), s5)
    ensures Next(s5, Persist(r, now, true), s6)
    ensures s6.t == PersistPayment(s3.t, txId, attId, Processing, answer, now).value
    ensures s6.replies == s3.replies + [Reply(p.app, p.key, p.hash, Some(txId))]
  {
    hide PersistPayment, LatestForReference, LatestForTransaction, Due;
    s4 := s3.(requests := s3.requests[r := Calling(p, txId, attId)], calls := s3.calls + multiset{txId});
    s5 := s4.(requests := s4.requests[r := Answered(p, txId, attId, answer)]);
    var t' := PersistPayment(s3.t, txId, attId, Processing, answer, now).value;
    s6 := Finish(s5.(t := t'), r, p, Some(txId));
  }

  lemma CreatedThenSettled(t: Tables, p: Payment, txId: Id, attId: Id, answer: Answer, created: int, now: int)
    requires Free(t, p, txId, attId)
    ensures InsertPayment(t, p, txId, attId, created).Ok?
    ensures
      var inserted := InsertPayment(t, p, txId, attId, created).value;
      var persisted := PersistPayment(inserted, txId, attId, Processing, answer, now);
      persisted.Ok? && persisted.value.txs.Keys == t.txs.Keys + {txId} && persisted.value.txs[txId].payment == p
      && match answer
         case Response(reference, word) => Stands(persisted.value, txId, attId, PaymentStatus(word), reference, now)
         case Failure => Stands(persisted.value, txId, attId, Unknown, "", now)
  {
    InsertExact(t, p, txId, attId, created);
    hide PersistPayment, Stands, PaymentStatus, Conflicts;
    var inserted := InsertPayment(t, p, txId, attId, created).value;
    match answer {
      case Response(reference, word) => PersistResponse(inserted, txId, attId, reference, word, now);
      case Failure => PersistFailure(inserted, txId, attId, now);
    }
  }

  /** A recorded poll leaves a payment that is still live, and its attempt, with the
      status the provider's word names; a deferred one leaves it unknown and its attempt
      as it was. A payment that has settled meanwhile is left alone. */
  lemma PollSettles(states: seq<State>, actions: seq<Action>, i: nat, x: Id)
    requires Run(states, actions) && i < |actions| && (actions[i].Poll? || actions[i].Defer?)
    requires actions[i].w in states[i].workers && states[i].workers[actions[i].w] == Polling(x)
    ensures x in states[i].t.txs && x in states[i + 1].t.txs
    ensures
      var t, t', a := states[i].t, states[i + 1].t, actions[i];
      if Terminal(t.txs[x].status) then t' == t
      else if a.Poll? then
        Counted(t.txs[x], t'.txs[x], PaymentStatus(a.word), a.now) && Reported(t, t', x, PaymentStatus(a.word), a.now)
      else Counted(t.txs[x], t'.txs[x], Unknown, a.now) && t'.attempts == t.attempts
  {
    hide *;
    RunNext(states, actions, i);
    RunSound(states, actions, i);
    PollStepSettles(states[i], actions[i], states[i + 1], x);
  }

  lemma RunNext(states: seq<State>, actions: seq<Action>, i: nat)
    requires Run(states, actions) && i < |actions|
    ensures |states| == |actions| + 1 && Next(states[i], actions[i], states[i + 1])
  {
  }

  lemma PollStepSettles(s: State, a: Action, s': State, x: Id)
    requires Inv(s) && Next(s, a, s') && (a.Poll? || a.Defer?) && a.w in s.workers && s.workers[a.w] == Polling(x)
    ensures x in s.t.txs && x in s'.t.txs
    ensures
      if Terminal(s.t.txs[x].status) then s'.t == s.t
      else if a.Poll? then
        Counted(s.t.txs[x], s'.t.txs[x], PaymentStatus(a.word), a.now)
        && Reported(s.t, s'.t, x, PaymentStatus(a.word), a.now)
      else Counted(s.t.txs[x], s'.t.txs[x], Unknown, a.now) && s'.t.attempts == s.t.attempts
  {
    hide Inv, Sound, RecordPoll, DeferPoll, LatestForTransaction, Terminal, Counted, Reported, PaymentStatus;
    WorkFacts(s, a.w);
    if Terminal(s.t.txs[x].status) {
      LateStep(s, a, s', x);
    } else if a.Poll? {
      PollOutcome(s.t, x, a.word, a.pick, a.now);
    } else {
      DeferOutcome(s.t, x, a.now);
    }
  }

  lemma LateStep(s: State, a: Action, s': State, x: Id)
    requires Next(s, a, s') && (a.Poll? || a.Defer?) && a.w in s.workers && s.workers[a.w] == Polling(x)
    requires x in s.t.txs && Terminal(s.t.txs[x].status)
    ensures s'.t == s.t
  {
    hide LatestForTransaction;
  }

  /** A worker selects exactly the live, published payments whose time has come. */
  lemma SelectExact(states: seq<State>, actions: seq<Action>, i: nat, w: nat, x: Id, now: int)
    requires Run(states, actions) && i < |states| && w !in states[i].workers && x in states[i].t.txs
    ensures
      var row := states[i].t.txs[x];
      Next(states[i], Select(w, x, now), states[i].(workers := states[i].workers[w := Polling(x)]))
      <==> row.status != Succeeded && row.status != Failed && row.status != Cancelled && row.status != Expired
           && row.providerReference != "" && row.nextPoll.Some? && row.nextPoll.value <= now
  {
    ReachableRow(states, actions, i, x);
    RowReached(states, actions, i, x);
    hide Run, Path, Walk;
    DueExact(states[i].t.txs[x], now);
  }

  /** When a worker takes up a stored event: it waits while its reference names no
      attempt; else, if its payment accepts it, it settles the payment, its attempt and
      itself; else nothing changes, and the worker's pass ends. */
  lemma ReapplySettles(states: seq<State>, actions: seq<Action>, i: nat)
    requires Run(states, actions) && i < |actions| && actions[i].Reapply?
    ensures
      var s, s', a := states[i], states[i + 1], actions[i];
      a.w in s.workers && s.workers[a.w].Reading? && s.workers[a.w].batch != [] && s.workers[a.w].batch[0] in s.t.events
      && var r, rest := s.workers[a.w].batch[0], s.workers[a.w].batch[1..];
      Settles(s.t, s'.t, r, s.t.events[r].event, a.pick, a.now)
      && s'.workers == if Rejected(s.t, s.t.events[r].event, a.pick) then s.workers - {a.w}
                       else s.workers[a.w := Reading(rest)]
  {
    hide *;
    RunNext(states, actions, i);
    RunSound(states, actions, i);
    ReapplyStepSettles(states[i], actions[i], states[i + 1]);
  }

  /** The event names an attempt, and its payment does not accept it. */
  predicate Rejected(t: Tables, e: Event, pick: Option<Id>) {
    pick.Some? && pick.value in t.attempts && t.attempts[pick.value].txId in t.txs
    && !Accepts(t.txs[t.attempts[pick.value].txId], e)
  }

  /** What becomes of a stored event, the attempt it names and that attempt's payment. */
  ghost predicate Settles(t: Tables, t': Tables, r: Id, e: Event, pick: Option<Id>, now: int) {
    if pick.None? || Rejected(t, e, pick) then t' == t
    else
      pick.value in t.attempts
      && var x := t.attempts[pick.value].txId;
      Stands(t', x, pick.value, FromText(e.status), e.providerReference, now)
      && r in t'.events && t'.events[r] == EventRow(e, true, Some(x))
  }

  lemma StoredSettles(t: Tables, r: Id, e: Event, pick: Option<Id>, now: int)
    requires Sound(t) && LatestForReference(t, e.account, e.providerReference, pick)
    requires r in t.events && t.events[r].event == e
    ensures Settles(t, After(t, ApplyWebhook(t, r, e, pick, now)), r, e, pick, now)
    ensures Rejected(t, e, pick) <==> ApplyWebhook(t, r, e, pick, now) == Err(Refused)
    ensures pick.Some? && !Rejected(t, e, pick) ==> ApplyWebhook(t, r, e, pick, now).Ok?
  {
    hide Sound, ApplyWebhook, Stands, FromText, Accepts;
    if pick.None? {
      ApplyWaits(t, r, e, now);
    } else {
      ApplyExact(t, r, e, pick, now);
      if ApplyWebhook(t, r, e, pick, now).Ok? {
        ApplyOutcome(t, r, e, pick, now);
      }
    }
  }

  lemma ReapplyStepSettles(s: State, a: Action, s': State)
    requires Sound(s.t) && Next(s, a, s') && a.Reapply?
    ensures
      a.w in s.workers && s.workers[a.w].Reading? && s.workers[a.w].batch != [] && s.workers[a.w].batch[0] in s.t.events
      && var r, rest := s.workers[a.w].batch[0], s.workers[a.w].batch[1..];
      Settles(s.t, s'.t, r, s.t.events[r].event, a.pick, a.now)
      && s'.workers == if Rejected(s.t, s.t.events[r].event, a.pick) then s.workers - {a.w}
                       else s.workers[a.w := Reading(rest)]
  {
    hide Sound, ApplyWebhook, LatestForReference, Settles, Rejected;
    var r := s.workers[a.w].batch[0];
    StoredSettles(s.t, r, s.t.events[r].event, a.pick, a.now);
  }

  /** A delivery the account has not had before is stored unless its payment does not
      accept it, and settles what it names as a stored event does; one it has had
      changes nothing. */
  lemma DeliverSettles(states: seq<State>, actions: seq<Action>, i: nat)
    requires Run(states, actions) && i < |actions| && actions[i].Deliver? && actions[i].rowId !in states[i].t.events
    ensures
      var t, t', a := states[i].t, states[i + 1].t, actions[i];
      var stored := t.(events := t.events[a.rowId := EventRow(a.e, false, None)]);
      if exists r :: r in t.events && t.events[r].event.account == a.e.account
                     && DedupeKey(t.events[r].event) == DedupeKey(a.e)
      then t' == t
      else if Rejected(t, a.e, a.pick) then t' == t
      else Settles(stored, t', a.rowId, a.e, a.pick, a.now)
  {
    hide *;
    RunNext(states, actions, i);
    RunInv(states, actions, i);
    DeliverStepSettles(states[i], actions[i], states[i + 1]);
  }

  lemma DeliverStepSettles(s: State, a: Action, s': State)
    requires Inv(s) && Next(s, a, s') && a.Deliver? && a.rowId !in s.t.events
    ensures
      var stored := s.t.(events := s.t.events[a.rowId := EventRow(a.e, false, None)]);
      if exists r :: r in s.t.events && s.t.events[r].event.account == a.e.account
                     && DedupeKey(s.t.events[r].event) == DedupeKey(a.e)
      then s'.t == s.t
      else if Rejected(s.t, a.e, a.pick) then s'.t == s.t
      else Settles(stored, s'.t, a.rowId, a.e, a.pick, a.now)
  {
    hide Inv, Sound, ApplyWebhook, HandleWebhook, LatestForReference, Settles, DedupeKey, Accepts;
    SoundTables(s);
    if r :| r in s.t.events && s.t.events[r].event.account == a.e.account
            && DedupeKey(s.t.events[r].event) == DedupeKey(a.e) {
      HandleRepeated(s.t, a.rowId, a.e, a.pick, a.now, r);
    } else {
      var stored := s.t.(events := s.t.events[a.rowId := EventRow(a.e, false, None)]);
      HandleExact(s.t, a.rowId, a.e, a.pick, a.now);
      StoredSound(s.t, a.rowId, a.e);
      StoredSettles(stored, a.rowId, a.e, a.pick, a.now);
    }
  }

  // ---- processed events -------------------------------------------------

  ghost predicate ProcessedKept(t: Tables, t': Tables) {
    forall r :: r in t.events && t.events[r].processed ==> r in t'.events && t'.events[r].processed
  }

  lemma ApplyKeepsProcessed(t: Tables, rowId: Id, e: Event, pick: Option<Id>, now: int)
    requires LatestForReference(t, e.account, e.providerReference, pick)
    ensures ProcessedKept(t, After(t, ApplyWebhook(t, rowId, e, pick, now)))
  {
    hide Matches, Transition, FromText, LatestForReference, WebhookTx, WebhookAttempt, NotedChange;
  }

  lemma StepKeepsProcessed(s: State, a: Action, s': State)
    requires Next(s, a, s')
    ensures ProcessedKept(s.t, s'.t)
  {
    if a.Deliver? {
      DeliverKeepsProcessed(s, a, s');
    } else if a.Reapply? {
      hide ApplyWebhook, LatestForReference, ProcessedKept;
      var r := s.workers[a.w].batch[0];
      ApplyKeepsProcessed(s.t, r, s.t.events[r].event, a.pick, a.now);
    } else {
      EventsLeft(s, a, s');
    }
  }

  lemma EventsLeft(s: State, a: Action, s': State)
    requires Next(s, a, s') && !a.Deliver? && !a.Reapply?
    ensures s'.t.events == s.t.events
  {
    hide LatestForReference, LatestForTransaction, FindsByKey, Conflicts, Transition, Due,
         PersistedTx, PersistedAttempt, PolledTx, PolledAttempt, DeferredTx, NotedChange, NewTx, NewAttempt;
  }

  lemma DeliverKeepsProcessed(s: State, a: Action, s': State)
    requires Next(s, a, s') && a.Deliver?
    ensures ProcessedKept(s.t, s'.t)
  {
    hide ApplyWebhook, LatestForReference, Stored;
    if !Stored(s.t, a.e) && a.rowId !in s.t.events {
      StoredQuery(s.t, a.rowId, a.e, a.pick);
      ApplyKeepsProcessed(StoreEvent(s.t, a.rowId, a.e), a.rowId, a.e, a.pick, a.now);
    }
  }

  /** A processed event is never taken up again: no later pass fetches it. */
  lemma {:induction false} ProcessedForGood(states: seq<State>, actions: seq<Action>, i: nat, j: nat, r: Id)
    requires Run(states, actions) && i <= j < |states| && r in states[i].t.events && states[i].t.events[r].processed
    ensures r in states[j].t.events && states[j].t.events[r].processed
    ensures j < |actions| && actions[j].Fetch? ==> r !in actions[j].batch
    decreases j
  {
    hide Next, ProcessedKept;
    if i < j {
      ProcessedForGood(states, actions, i, j - 1, r);
      StepKeepsProcessed(states[j - 1], actions[j - 1], states[j]);
      KeptAt(states[j - 1].t, states[j].t, r);
    }
    if j < |actions| && actions[j].Fetch? {
      FetchesPending(states[j], actions[j], states[j + 1], r);
    }
  }

  lemma KeptAt(t: Tables, t': Tables, r: Id)
    requires ProcessedKept(t, t') && r in t.events && t.events[r].processed
    ensures r in t'.events && t'.events[r].processed
  {
  }

  lemma FetchesPending(s: State, a: Action, s': State, r: Id)
    requires Next(s, a, s') && a.Fetch? && r in s.t.events && s.t.events[r].processed
    ensures r !in a.batch
  {
  }

  // ---- where changes come from ------------------------------------------

  /** The request for this payment persists what the provider answered, and the change is
      to just that: the status its word names, or unknown. */
  predicate PersistedBy(s: State, a: Action, c: Change) {
    a.Persist? && a.r in s.requests && s.requests[a.r].Answered? && s.requests[a.r].txId == c.txId
    && c.previous == Pending
    && c.status == match s.requests[a.r].answer case Failure => Unknown case Response(_, word) => PaymentStatus(word)
  }

  /** A worker that holds this payment records a poll, and the change is to the status
      the provider's word names; or it defers one, and the change is to unknown. */
  predicate PolledBy(s: State, a: Action, c: Change) {
    (a.Poll? || a.Defer?) && a.w in s.workers && s.workers[a.w] == Polling(c.txId)
    && c.status == if a.Poll? then PaymentStatus(a.word) else Unknown
  }

  ghost predicate MadeBy(s: State, a: Action, c: Change) {
    match c.source
    case Request => PersistedBy(s, a, c)
    case Reconciliation => PolledBy(s, a, c)
    case Webhook => a.Deliver? || a.Reapply?
  }

  lemma NewChange(s: State, a: Action, s': State, k: nat)
    requires Inv(s) && Next(s, a, s') && |s.t.changes| <= k < |s'.t.changes|
    ensures MadeBy(s, a, s'.t.changes[k])
  {
    hide Inv, Sound, Counted, Reported, Stands, OnlyRows;
    if a.Persist? {
      hide PersistPayment;
      var q := s.requests[a.r];
      OwnedRow(s, a.r);
      UntouchedPair(s.t, q.txId, q.attId);
      match q.answer {
        case Response(reference, word) => PersistResponse(s.t, q.txId, q.attId, reference, word, a.now);
        case Failure => PersistFailure(s.t, q.txId, q.attId, a.now);
      }
    } else if a.Poll? || a.Defer? {
      PollChange(s, a, s', k);
    } else {
      NoChange(s, a, s');
    }
  }

  lemma PollChange(s: State, a: Action, s': State, k: nat)
    requires Inv(s) && Next(s, a, s') && (a.Poll? || a.Defer?) && |s.t.changes| <= k < |s'.t.changes|
    ensures MadeBy(s, a, s'.t.changes[k])
  {
    hide Inv, Sound, Counted, Reported, OnlyRows, RecordPoll, DeferPoll, LatestForTransaction, Terminal;
    WorkFacts(s, a.w);
    var x := s.workers[a.w].txId;
    if Terminal(s.t.txs[x].status) {
      LateStep(s, a, s', x);
    } else if a.Poll? {
      PollOutcome(s.t, x, a.word, a.pick, a.now);
    } else {
      DeferOutcome(s.t, x, a.now);
    }
  }

  lemma NoChange(s: State, a: Action, s': State)
    requires Next(s, a, s') && !a.Persist? && !a.Poll? && !a.Defer?
    ensures !a.Deliver? && !a.Reapply? ==> s'.t.changes == s.t.changes
    ensures forall k :: |s.t.changes| <= k < |s'.t.changes| ==> s'.t.changes[k].source == Webhook
  {
    hide LatestForReference, FindsByKey, Conflicts, Transition, Due, Stored, Matches, FromText, WebhookTx,
         WebhookAttempt;
  }

  /** In every run, every change was made by a step of its own kind: a persist of what the
      provider answered the request, a recorded or deferred poll of that payment, or a
      delivery. */
  lemma {:induction false} ChangesMade(states: seq<State>, actions: seq<Action>, i: nat, k: nat) returns (j: nat)
    requires Run(states, actions) && i < |states| && k < |states[i].t.changes|
    ensures j < i && |states[j].t.changes| <= k && MadeBy(states[j], actions[j], states[i].t.changes[k])
  {
    hide Inv, Next, MadeBy, Stable;
    j := i - 1;
    RunInv(states, actions, j);
    RunStable(states, actions, j, i);
    ChangesPrefix(states[j].t, states[i].t);
    if k < |states[j].t.changes| {
      j := ChangesMade(states, actions, j, k);
    } else {
      NewChange(states[j], actions[j], states[i], k);
    }
  }

  lemma ChangesPrefix(t: Tables, t': Tables)
    requires Stable(t, t')
    ensures t.changes <= t'.changes
  {
  }

  /** A request's answer is one the provider returned for it. */
  lemma {:induction false} AnswerReturned(states: seq<State>, actions: seq<Action>, j: nat, r: nat) returns (l: nat)
    requires Run(states, actions) && j < |states| && r in states[j].requests && states[j].requests[r].Answered?
    ensures
      var q := states[j].requests[r];
      l < j && actions[l] == Return(r, q.answer)
      && r in states[l].requests && states[l].requests[r] == Calling(q.p, q.txId, q.attId)
  {
    hide Next;
    l := j - 1;
    if r in states[l].requests && states[l].requests[r] == states[j].requests[r] {
      l := AnswerReturned(states, actions, l, r);
    } else {
      BecameAnswered(states[l], actions[l], states[j], r);
    }
  }

  lemma BecameAnswered(s: State, a: Action, s': State, r: nat)
    requires Next(s, a, s') && r in s'.requests && s'.requests[r].Answered?
    requires !(r in s.requests && s.requests[r] == s'.requests[r])
    ensures
      var q := s'.requests[r];
      a == Return(r, q.answer) && r in s.requests && s.requests[r] == Calling(q.p, q.txId, q.attId)
  {
    hide After, PersistPayment, InsertPayment, RecordPoll, DeferPoll, HandleWebhook, ApplyWebhook,
         LatestForReference, LatestForTransaction, FindsByKey, Replay, Due;
  }

  /** Every change a request made is to what the provider returned for that request. */
  lemma RequestChangesAnswered(states: seq<State>, actions: seq<Action>, i: nat, k: nat) returns (l: nat, j: nat)
    requires Run(states, actions) && i < |states| && k < |states[i].t.changes|
    requires states[i].t.changes[k].source == Request
    ensures l < j < i && actions[l].Return? && actions[j].Persist? && actions[l].r == actions[j].r
    ensures
      var c := states[i].t.changes[k];
      actions[l].r in states[l].requests && states[l].requests[actions[l].r].Calling?
      && states[l].requests[actions[l].r].txId == c.txId
      && c.status == match actions[l].answer case Failure => Unknown case Response(_, word) => PaymentStatus(word)
  {
    j := ChangesMade(states, actions, i, k);
    l := AnswerReturned(states, actions, j, actions[j].r);
  }
}
