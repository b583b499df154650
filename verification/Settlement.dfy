/** The three writers of a payment, interleaved: requests, webhook deliveries and
    the reconciliation worker, any number of each, stopping anywhere.

    A step is one database transaction, one query, or one exchange with a provider.
    What a process remembers between its steps is part of the state. */
module Settlement {
  import opened Wrappers
  import opened Statuses
  import opened Tables

  /** Where a create request stands. `txId` and `attId` are the identifiers it drew. */
  datatype Phase =
    | Arrived(p: Payment, txId: Id, attId: Id)
    | Ready(p: Payment, txId: Id, attId: Id)
    | Rechecking(p: Payment)
    | Inserted(p: Payment, txId: Id, attId: Id)
    | Calling(p: Payment, txId: Id, attId: Id)
    | Answered(p: Payment, txId: Id, attId: Id, answer: Answer)

  /** What a worker carries from a query to its next transaction. */
  datatype Work = Polling(txId: Id) | Reading(batch: seq<Id>)

  /** What a create request was told: the transaction it names, or an error. */
  datatype Reply = Reply(app: string, key: string, hash: string, txId: Option<Id>)

  datatype State = State(
    t: Tables,
    requests: map<nat, Phase>,
    workers: map<nat, Work>,
    calls: multiset<Id>,
    replies: seq<Reply>)

  const INITIAL := State(EMPTY, map[], map[], multiset{}, [])

  datatype Action =
    | Arrive(r: nat, p: Payment, txId: Id, attId: Id)
    | Refuse(r: nat)
    | Find(r: nat, found: Option<Id>)
    | Insert(r: nat, now: int, reported: bool)
    | InsertFails(r: nat)
    | Recheck(r: nat, found: Option<Id>)
    | Call(r: nat)
    | Return(r: nat, answer: Answer)
    | Persist(r: nat, now: int, reported: bool)
    | PersistFails(r: nat)
    | Crash(r: nat)
    | Deliver(rowId: Id, e: Event, pick: Option<Id>, now: int)
    | Select(w: nat, txId: Id, now: int)
    | Poll(w: nat, word: string, pick: Option<Id>, now: int)
    | Defer(w: nat, now: int)
    | Fetch(w: nat, batch: seq<Id>)
    | Reapply(w: nat, pick: Option<Id>, now: int)
    | Stop(w: nat)

  function Finish(s: State, r: nat, p: Payment, told: Option<Id>): State {
    s.(requests := s.requests - {r}, replies := s.replies + [Reply(p.app, p.key, p.hash, told)])
  }

  predicate Next(s: State, a: Action, s': State) {
    match a
    case Arrive(r, p, txId, attId) =>
      r !in s.requests && s' == s.(requests := s.requests[r := Arrived(p, txId, attId)])
    case Refuse(r) =>
      r in s.requests && (s.requests[r].Arrived? || s.requests[r].Ready?)
      && s' == Finish(s, r, s.requests[r].p, None)
    case Find(r, found) =>
      r in s.requests && s.requests[r].Arrived?
      && var q := s.requests[r];
      FindsByKey(s.t, q.p.app, q.p.key, found)
      && s' == (match found
                case Some(x) => Finish(s, r, q.p, Replay(s.t, x, q.p.hash))
                case None => s.(requests := s.requests[r := Ready(q.p, q.txId, q.attId)]))
    case Insert(r, now, reported) =>
      r in s.requests && s.requests[r].Ready?
      && var q := s.requests[r];
      var inserted := InsertPayment(s.t, q.p, q.txId, q.attId, now);
      inserted.Ok?
      && s' == s.(t := inserted.value,
                  requests := s.requests[r := if reported then Inserted(q.p, q.txId, q.attId) else Rechecking(q.p)])
    case InsertFails(r) =>
      r in s.requests && s.requests[r].Ready?
      && s' == s.(requests := s.requests[r := Rechecking(s.requests[r].p)])
    case Recheck(r, found) =>
      r in s.requests && s.requests[r].Rechecking?
      && var q := s.requests[r];
      FindsByKey(s.t, q.p.app, q.p.key, found)
      && s' == Finish(s, r, q.p, match found case Some(x) => Replay(s.t, x, q.p.hash) case None => None)
    case Call(r) =>
      r in s.requests && s.requests[r].Inserted?
      && var q := s.requests[r];
      s' == s.(requests := s.requests[r := Calling(q.p, q.txId, q.attId)], calls := s.calls + multiset{q.txId})
    case Return(r, answer) =>
      r in s.requests && s.requests[r].Calling?
      && var q := s.requests[r];
      s' == s.(requests := s.requests[r := Answered(q.p, q.txId, q.attId, answer)])
    case Persist(r, now, reported) =>
      r in s.requests && s.requests[r].Answered?
      && var q := s.requests[r];
      var persisted := PersistPayment(s.t, q.txId, q.attId, Processing, q.answer, now);
      persisted.Ok?
      && s' == Finish(s.(t := persisted.value), r, q.p, if reported then Some(q.txId) else None)
    case PersistFails(r) =>
      r in s.requests && s.requests[r].Answered? && s' == Finish(s, r, s.requests[r].p, None)
    case Crash(r) =>
      r in s.requests && s' == s.(requests := s.requests - {r})
    case Deliver(rowId, e, pick, now) =>
      e.providerReference != ""
      && LatestForReference(s.t, e.account, e.providerReference, pick)
      && s' == s.(t := After(s.t, HandleWebhook(s.t, rowId, e, pick, now)))
    case Select(w, txId, now) =>
      w !in s.workers && txId in s.t.txs && Due(s.t.txs[txId], now)
      && s' == s.(workers := s.workers[w := Polling(txId)])
    case Poll(w, word, pick, now) =>
      w in s.workers && s.workers[w].Polling?
      && var txId := s.workers[w].txId;
      (txId in s.t.txs ==> LatestForTransaction(s.t, txId, s.t.txs[txId].payment.account, pick))
      && s' == s.(t := After(s.t, RecordPoll(s.t, txId, word, pick, now)), workers := s.workers - {w})
    case Defer(w, now) =>
      w in s.workers && s.workers[w].Polling?
      && s' == s.(t := After(s.t, DeferPoll(s.t, s.workers[w].txId, now)), workers := s.workers - {w})
    case Fetch(w, batch) =>
      w !in s.workers
      && (forall i :: 0 <= i < |batch| ==> batch[i] in s.t.events && !s.t.events[batch[i]].processed)
      && s' == s.(workers := s.workers[w := Reading(batch)])
    case Reapply(w, pick, now) =>
      w in s.workers && s.workers[w].Reading? && s.workers[w].batch != []
      && var batch := s.workers[w].batch;
      batch[0] in s.t.events
      && var e := s.t.events[batch[0]].event;
      LatestForReference(s.t, e.account, e.providerReference, pick)
      && var applied := ApplyWebhook(s.t, batch[0], e, pick, now);
      s' == s.(t := After(s.t, applied),
               workers := if applied == Err(Refused) then s.workers - {w}
                          else s.workers[w := Reading(batch[1..])])
    case Stop(w) =>
      w in s.workers && s' == s.(workers := s.workers - {w})
  }

  // ---- how tables may move ----------------------------------------------

  /** What no step ever undoes: rows stay, their payment columns never change, a
      terminal status is final, a published reference is final, events stay as
      stored, and the change log only grows. */
  ghost predicate Stable(t: Tables, t': Tables) {
    (forall x :: x in t.txs ==>
      x in t'.txs
      && t'.txs[x].payment == t.txs[x].payment
      && (Terminal(t.txs[x].status) ==> t'.txs[x].status == t.txs[x].status)
      && (t.txs[x].providerReference != "" ==> t'.txs[x].providerReference == t.txs[x].providerReference))
    && (forall r :: r in t.events ==> r in t'.events && t'.events[r].event == t.events[r].event)
    && t.changes <= t'.changes
  }

  ghost predicate SameRows(t: Tables, t': Tables, x: Id) {
    x in t.txs && x in t'.txs
    && t'.txs[x] == t.txs[x]
    && Path(t'.changes, x) == Path(t.changes, x)
    && (forall a :: a in t.attempts && t.attempts[a].txId == x ==> a in t'.attempts && t'.attempts[a] == t.attempts[a])
  }

  /** Payments whose reference is not published stay as they are, except the named one. */
  ghost predicate Gentle(t: Tables, t': Tables, except: Option<Id>) {
    forall x :: x in t.txs && t.txs[x].providerReference == "" && except != Some(x) ==> SameRows(t, t', x)
  }

  lemma SameTables(t: Tables)
    ensures Stable(t, t) && Gentle(t, t, None)
  {
  }

  lemma MovedGentle(t: Tables, txId: Id, attId: Id, row: TxRow, attempt: AttemptRow, noted: seq<Change>)
    requires txId in t.txs && attId in t.attempts && t.attempts[attId].txId == txId
    requires row.payment == t.txs[txId].payment
    requires Terminal(t.txs[txId].status) ==> row.status == t.txs[txId].status
    requires t.txs[txId].providerReference != "" ==> row.providerReference == t.txs[txId].providerReference
    requires |noted| <= 1 && (noted != [] ==> noted[0].txId == txId)
    ensures Stable(t, Moved(t, txId, attId, row, attempt, noted))
    ensures Gentle(t, Moved(t, txId, attId, row, attempt, noted), Some(txId))
  {
    hide Path;
    var t' := Moved(t, txId, attId, row, attempt, noted);
    forall x | x in t.txs && x != txId
      ensures SameRows(t, t', x)
    {
      PathAppend(t.changes, noted, x);
    }
  }

  lemma GentleIfPublished(t: Tables, t': Tables, txId: Id)
    requires txId in t.txs && t.txs[txId].providerReference != ""
    requires Gentle(t, t', Some(txId))
    ensures Gentle(t, t', None)
  {
  }

  lemma InsertMoves(t: Tables, p: Payment, txId: Id, attId: Id, now: int)
    requires Sound(t) && InsertPayment(t, p, txId, attId, now).Ok?
    ensures var t' := InsertPayment(t, p, txId, attId, now).value;
      Stable(t, t') && Gentle(t, t', None) && Untouched(t', txId, attId)
  {
    hide Path, RowOk, PairOk, OneAttempt, OneKey, Addressed;
  }

  lemma PersistMoves(t: Tables, txId: Id, attId: Id, answer: Answer, now: int)
    requires Sound(t) && Untouched(t, txId, attId)
    ensures PersistPayment(t, txId, attId, Processing, answer, now).Ok?
    ensures var t' := PersistPayment(t, txId, attId, Processing, answer, now).value;
      Sound(t') && Stable(t, t') && Gentle(t, t', Some(txId))
  {
    hide Path, Walk, PairOk, OneAttempt, PaymentStatus;
    PersistTarget(answer);
    PersistSound(t, txId, attId, answer, now);
    assert RowOk(t.txs[txId], []);
    var status := Target(answer);
    MovedGentle(t, txId, attId, PersistedTx(t.txs[txId], status, answer, now),
                PersistedAttempt(t.attempts[attId], status, answer, now), [Change(Request, txId, Pending, status)]);
  }

  lemma EventsMove(t: Tables, t1: Tables, t': Tables)
    requires Stable(t, t1) && Gentle(t, t1, None)
    requires t' == t1.(events := t'.events)
    requires forall r :: r in t.events ==> r in t'.events && t'.events[r].event == t.events[r].event
    ensures Stable(t, t') && Gentle(t, t', None)
  {
  }

  lemma WebhookMoves(t: Tables, rowId: Id, e: Event, pick: Option<Id>, now: int)
    requires Sound(t) && e.providerReference != ""
    requires LatestForReference(t, e.account, e.providerReference, pick)
    ensures var t' := After(t, ApplyWebhook(t, rowId, e, pick, now));
      Sound(t') && Stable(t, t') && Gentle(t, t', None)
  {
    hide FromText, Path, RowOk, Matches, OneAttempt, Sound;
    var result := ApplyWebhook(t, rowId, e, pick, now);
    if result.Ok? {
      WebhookSound(t, rowId, e, pick, now);
      if pick.Some? && t.attempts[pick.value].txId in t.txs {
        var attId := pick.value;
        var txId := t.attempts[attId].txId;
        var row := t.txs[txId];
        PickedPublished(t, attId);
        var status := Transition(row.status, FromText(e.status)).value;
        var row', attempt' := WebhookTx(row, status, e.providerReference, now),
                              WebhookAttempt(t.attempts[attId], status, e.providerReference, now);
        var noted := NotedChange(Webhook, txId, row.status, status);
        MovedGentle(t, txId, attId, row', attempt', noted);
        var t1 := Moved(t, txId, attId, row', attempt', noted);
        GentleIfPublished(t, t1, txId);
        EventsMove(t, t1, result.value);
      }
    }
  }

  /** An attempt found by a reference is one whose transaction carries it too. */
  lemma PickedPublished(t: Tables, attId: Id)
    requires Sound(t) && attId in t.attempts
    ensures t.attempts[attId].txId in t.txs
    ensures t.txs[t.attempts[attId].txId].providerReference == t.attempts[attId].providerReference
  {
  }

  lemma HandleMoves(t: Tables, rowId: Id, e: Event, pick: Option<Id>, now: int)
    requires Sound(t) && e.providerReference != ""
    requires LatestForReference(t, e.account, e.providerReference, pick)
    ensures var t' := After(t, HandleWebhook(t, rowId, e, pick, now));
      Sound(t') && Stable(t, t') && Gentle(t, t', None)
  {
    SameTables(t);
    hide ApplyWebhook, Sound, Stable, Gentle, Matches, Stored, LatestForReference;
    if !Stored(t, e) && rowId !in t.events {
      NewEventMoves(t, rowId, e, pick, now);
    }
  }

  lemma NewEventMoves(t: Tables, rowId: Id, e: Event, pick: Option<Id>, now: int)
    requires Sound(t) && e.providerReference != "" && rowId !in t.events
    requires LatestForReference(t, e.account, e.providerReference, pick)
    ensures var t' := After(t, ApplyWebhook(StoreEvent(t, rowId, e), rowId, e, pick, now));
      Sound(t') && Stable(t, t') && Gentle(t, t', None)
  {
    hide ApplyWebhook, Sound, Stable, Gentle, LatestForReference;
    var stored := StoreEvent(t, rowId, e);
    StoredSound(t, rowId, e);
    StoredQuery(t, rowId, e, pick);
    WebhookMoves(stored, rowId, e, pick, now);
    SameRowsStored(t, stored, After(stored, ApplyWebhook(stored, rowId, e, pick, now)));
    SameTables(t);
  }

  lemma StoredQuery(t: Tables, rowId: Id, e: Event, pick: Option<Id>)
    requires LatestForReference(t, e.account, e.providerReference, pick)
    ensures LatestForReference(StoreEvent(t, rowId, e), e.account, e.providerReference, pick)
  {
  }

  lemma StoredSound(t: Tables, rowId: Id, e: Event)
    requires Sound(t) && e.providerReference != ""
    ensures Sound(StoreEvent(t, rowId, e))
  {
    EventsSound(t, StoreEvent(t, rowId, e).events);
  }

  lemma SameRowsStored(t: Tables, stored: Tables, t': Tables)
    requires stored.txs == t.txs && stored.attempts == t.attempts && stored.changes == t.changes
    requires forall r :: r in t.events ==> r in stored.events && stored.events[r].event == t.events[r].event
    requires Stable(stored, t') && Gentle(stored, t', None)
    ensures Stable(t, t') && Gentle(t, t', None)
  {
  }

  lemma PollMoves(t: Tables, txId: Id, word: string, pick: Option<Id>, now: int)
    requires Sound(t) && txId in t.txs && t.txs[txId].providerReference != ""
    requires LatestForTransaction(t, txId, t.txs[txId].payment.account, pick)
    ensures var t' := After(t, RecordPoll(t, txId, word, pick, now));
      Sound(t') && Stable(t, t') && Gentle(t, t', None)
  {
    hide PaymentStatus, Path, RowOk, OneAttempt, Sound, Backoff;
    PollSound(t, txId, word, pick, now);
    var row := t.txs[txId];
    if !Terminal(row.status) {
      var status := Transition(row.status, PaymentStatus(word)).value;
      var row', attempt' := PolledTx(row, status, now), PolledAttempt(t.attempts[pick.value], status, now);
      var noted := NotedChange(Reconciliation, txId, row.status, status);
      MovedGentle(t, txId, pick.value, row', attempt', noted);
      GentleIfPublished(t, Moved(t, txId, pick.value, row', attempt', noted), txId);
    }
  }

  lemma DeferMoves(t: Tables, txId: Id, now: int)
    requires Sound(t) && txId in t.txs && t.txs[txId].providerReference != ""
    ensures var t' := After(t, DeferPoll(t, txId, now));
      Sound(t') && Stable(t, t') && Gentle(t, t', None)
  {
    hide Path, RowOk, Backoff, Linked, OneKey, Walked, Addressed;
    DeferSound(t, txId, now);
    assert HasAttempt(t, txId);
    var a :| a in t.attempts && t.attempts[a].txId == txId;
    var row, t' := t.txs[txId], After(t, DeferPoll(t, txId, now));
    if !Terminal(row.status) {
      var noted := NotedChange(Reconciliation, txId, row.status, Unknown);
      MovedGentle(t, txId, a, t'.txs[txId], t.attempts[a], noted);
      assert t.attempts[a := t.attempts[a]] == t.attempts;
      assert t' == Moved(t, txId, a, t'.txs[txId], t.attempts[a], noted);
      GentleIfPublished(t, t', txId);
    }
  }
}
