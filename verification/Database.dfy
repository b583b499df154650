/** The services over the stored tables, written as the steps they take. Each
    database transaction is proved to do what its function in `Tables` says. */
module Database {
  import opened Wrappers
  import opened Statuses
  import opened Tables
  import opened Settlement
  import opened Outcomes
  import Text

  /** A row as a service holds it in memory. */
  class Transaction {
    const id: Id
    const row: TxRow
    var status: Status

    constructor (id: Id, row: TxRow)
      ensures this.id == id && this.row == row && status == row.status
    {
      this.id := id;
      this.row := row;
      status := row.status;
    }

    /** Advances the status, or refuses and leaves it. */
    method Transition(next: Status) returns (ok: bool)
      modifies this
      ensures ok == Statuses.Transition(old(status), next).Some?
      ensures status == if ok then Statuses.Transition(old(status), next).value else old(status)
    {
      var current := status;
      if current == Absent {
        current := Pending;
      }
      if current == next {
        return true;
      }
      var valid := false;
      match current {
        case Pending => valid := next == Processing || Terminal(next) || next == Unknown;
        case Processing => valid := Terminal(next) || next == Unknown;
        case Unknown => valid := next == Processing || Terminal(next);
        case _ =>
      }
      if !valid {
        return false;
      }
      status := next;
      return true;
    }
  }

  /** Columns an update names; the others keep their value. */
  datatype TxUpdates = TxUpdates(
    status: Option<Status>, providerReference: Option<string>, nextPoll: Option<Option<int>>,
    polledAt: Option<int>, countPoll: bool)

  datatype AttemptUpdates = AttemptUpdates(
    status: Option<Status>, providerReference: Option<string>, completedAt: Option<int>)

  const NO_TX_UPDATES := TxUpdates(None, None, None, None, false)
  const NO_ATTEMPT_UPDATES := AttemptUpdates(None, None, None)

  function Or<T>(update: Option<T>, current: T): T {
    match update case Some(v) => v case None => current
  }

  function UpdatedTx(row: TxRow, u: TxUpdates): TxRow {
    TxRow(row.payment, Or(u.status, row.status), Or(u.providerReference, row.providerReference),
          if u.countPoll then row.polls + 1 else row.polls,
          if u.polledAt.Some? then u.polledAt else row.polledAt,
          Or(u.nextPoll, row.nextPoll))
  }

  function UpdatedAttempt(row: AttemptRow, u: AttemptUpdates): AttemptRow {
    row.(status := Or(u.status, row.status),
         providerReference := Or(u.providerReference, row.providerReference),
         completedAt := if u.completedAt.Some? then u.completedAt else row.completedAt)
  }

  class Store {
    var txs: map<Id, TxRow>
    var attempts: map<Id, AttemptRow>
    var events: map<Id, EventRow>
    var changes: seq<Change>

    function Contents(): Tables
      reads this
    {
      Tables(txs, attempts, events, changes)
    }

    constructor ()
      ensures Contents() == EMPTY
    {
      txs, attempts, events, changes := map[], map[], map[], [];
    }

    // ---- repositories ---------------------------------------------------

    /** The tables become `saved`: an abandoned transaction, or the commits of others. */
    method Restore(saved: Tables)
      modifies this
      ensures Contents() == saved
    {
      txs, attempts, events, changes := saved.txs, saved.attempts, saved.events, saved.changes;
    }

    method ByIdempotencyKey(app: string, key: string) returns (found: Option<Id>)
      ensures FindsByKey(Contents(), app, key, found)
    {
      var rest := txs.Keys;
      while rest != {}
        invariant rest <= txs.Keys
        invariant forall x :: x in txs.Keys - rest ==> !(txs[x].payment.app == app && txs[x].payment.key == key)
        decreases |rest|
      {
        var x :| x in rest;
        if txs[x].payment.app == app && txs[x].payment.key == key {
          return Some(x);
        }
        rest := rest - {x};
      }
      return None;
    }

    method LatestForReferenceRow(account: string, reference: string) returns (pick: Option<Id>)
      ensures LatestForReference(Contents(), account, reference, pick)
      ensures
        match pick
        case None =>
          forall a :: a in attempts && attempts[a].account == account ==> attempts[a].providerReference != reference
        case Some(p) =>
          p in attempts && attempts[p].account == account && attempts[p].providerReference == reference
          && forall a :: (a in attempts && attempts[a].account == account && attempts[a].providerReference == reference)
               ==> attempts[a].createdAt <= attempts[p].createdAt
    {
      var rest := attempts.Keys;
      pick := None;
      while rest != {}
        invariant rest <= attempts.Keys
        invariant pick.Some? ==> pick.value in attempts && Carries(attempts[pick.value], account, reference)
        invariant forall a :: a in attempts.Keys - rest && Carries(attempts[a], account, reference) ==>
                    pick.Some? && attempts[a].createdAt <= attempts[pick.value].createdAt
        decreases |rest|
      {
        var a :| a in rest;
        if Carries(attempts[a], account, reference)
           && (pick.None? || attempts[pick.value].createdAt < attempts[a].createdAt) {
          pick := Some(a);
        }
        rest := rest - {a};
      }
    }

    method LatestForTransactionRow(txId: Id, account: string) returns (pick: Option<Id>)
      ensures LatestForTransaction(Contents(), txId, account, pick)
      ensures
        match pick
        case None =>
          forall a :: a in attempts && attempts[a].txId == txId ==> attempts[a].account != account
        case Some(p) =>
          p in attempts && attempts[p].txId == txId && attempts[p].account == account
          && forall a :: a in attempts && attempts[a].txId == txId && attempts[a].account == account ==>
               attempts[a].createdAt <= attempts[p].createdAt
    {
      var rest := attempts.Keys;
      pick := None;
      while rest != {}
        invariant rest <= attempts.Keys
        invariant pick.Some? ==> pick.value in attempts && Serves(attempts[pick.value], txId, account)
        invariant forall a :: a in attempts.Keys - rest && Serves(attempts[a], txId, account) ==>
                    pick.Some? && attempts[a].createdAt <= attempts[pick.value].createdAt
        decreases |rest|
      {
        var a :| a in rest;
        if Serves(attempts[a], txId, account)
           && (pick.None? || attempts[pick.value].createdAt < attempts[a].createdAt) {
          pick := Some(a);
        }
        rest := rest - {a};
      }
    }

    method Oldest(ids: set<Id>) returns (oldest: Id)
      requires ids != {} && ids <= txs.Keys
      ensures oldest in ids
      ensures forall x :: x in ids ==> txs[oldest].payment.createdAt <= txs[x].payment.createdAt
    {
      oldest :| oldest in ids;
      var rest := ids - {oldest};
      while rest != {}
        invariant rest <= ids && oldest in ids
        invariant forall x :: x in ids - rest ==> txs[oldest].payment.createdAt <= txs[x].payment.createdAt
        decreases |rest|
      {
        var x :| x in rest;
        if txs[x].payment.createdAt < txs[oldest].payment.createdAt {
          oldest := x;
        }
        rest := rest - {x};
      }
    }

    /** The oldest rows whose time has come, oldest first: up to `limit` of them, and all
        when they are fewer. */
    method DueForReconciliation(now: int, limit: nat) returns (rows: seq<Id>)
      ensures OldestDue(txs, now, limit, rows)
    {
      var rest := set x | x in txs && Due(txs[x], now);
      rows := [];
      NoneOlder(txs, now, rest);
      hide *;
      while rest != {} && |rows| < limit
        invariant |rows| <= limit && rest <= txs.Keys
        invariant OldestFirst(txs, now, rows, rest)
        decreases |rest|
      {
        var x := Oldest(rest);
        OneOlder(txs, now, rows, rest, x);
        rest := rest - {x};
        rows := rows + [x];
      }
      AllOlder(txs, now, limit, rows, rest);
    }

    /** Unprocessed events with what is stored of them: up to `limit`, and all when they
        are fewer. */
    method PendingEvents(limit: nat) returns (batch: seq<(Id, Event)>)
      ensures |batch| <= limit
      ensures forall i :: 0 <= i < |batch| ==>
        batch[i].0 in events && events[batch[i].0] == EventRow(batch[i].1, false, events[batch[i].0].txId)
      ensures forall i, j :: 0 <= i < j < |batch| ==> batch[i].0 != batch[j].0
      ensures |batch| < limit ==>
        forall r :: r in events && !events[r].processed ==> (r, events[r].event) in batch
    {
      var rest := events.Keys;
      batch := [];
      while rest != {} && |batch| < limit
        invariant rest <= events.Keys && |batch| <= limit
        invariant forall i :: 0 <= i < |batch| ==>
          batch[i].0 in events && events[batch[i].0] == EventRow(batch[i].1, false, events[batch[i].0].txId)
        invariant forall i :: 0 <= i < |batch| ==> batch[i].0 !in rest
        invariant forall i, j :: 0 <= i < j < |batch| ==> batch[i].0 != batch[j].0
        invariant forall r :: r in events.Keys - rest && !events[r].processed ==> (r, events[r].event) in batch
        decreases |rest|
      {
        var r :| r in rest;
        rest := rest - {r};
        if !events[r].processed {
          batch := batch + [(r, events[r].event)];
        }
      }
    }

    method LockForUpdate(id: Id) returns (tx: Transaction?)
      ensures tx == null <==> id !in txs
      ensures tx != null ==> fresh(tx) && tx.id == id && tx.row == txs[id] && tx.status == txs[id].status
    {
      if id !in txs {
        return null;
      }
      tx := new Transaction(id, txs[id]);
    }

    method UpdateTx(id: Id, u: TxUpdates) returns (ok: bool)
      modifies this`txs
      ensures ok == (id in old(txs))
      ensures txs == if ok then old(txs)[id := UpdatedTx(old(txs)[id], u)] else old(txs)
    {
      ok := id in txs;
      if ok {
        txs := txs[id := UpdatedTx(txs[id], u)];
      }
    }

    method UpdateFromStatus(id: Id, previous: Status, u: TxUpdates) returns (applied: bool)
      modifies this`txs
      ensures applied == (id in old(txs) && old(txs)[id].status == previous)
      ensures txs == if applied then old(txs)[id := UpdatedTx(old(txs)[id], u)] else old(txs)
    {
      applied := id in txs && txs[id].status == previous;
      if applied {
        txs := txs[id := UpdatedTx(txs[id], u)];
      }
    }

    method UpdateAttempt(id: Id, u: AttemptUpdates) returns (ok: bool)
      modifies this`attempts
      ensures ok == (id in old(attempts))
      ensures attempts == if ok then old(attempts)[id := UpdatedAttempt(old(attempts)[id], u)] else old(attempts)
    {
      ok := id in attempts;
      if ok {
        attempts := attempts[id := UpdatedAttempt(attempts[id], u)];
      }
    }

    method MarkProcessed(id: Id, txId: Id) returns (ok: bool)
      modifies this`events
      ensures ok == (id in old(events))
      ensures events == if ok then old(events)[id := old(events)[id].(processed := true, txId := Some(txId))]
                        else old(events)
    {
      ok := id in events;
      if ok {
        events := events[id := events[id].(processed := true, txId := Some(txId))];
      }
    }

    // ---- requests -------------------------------------------------------

    /** The transaction and its first attempt, written together or not at all. */
    method InsertRows(p: Payment, txId: Id, attId: Id, now: int) returns (ok: bool)
      modifies this
      ensures ok == InsertPayment(old(Contents()), p, txId, attId, now).Ok?
      ensures Contents() == After(old(Contents()), InsertPayment(old(Contents()), p, txId, attId, now))
    {
      ok := !Conflicts(Contents(), txId, p) && attId !in attempts;
      if ok {
        txs := txs[txId := NewTx(p)];
        attempts := attempts[attId := NewAttempt(p, txId, now)];
      }
    }

    /** Writes the provider's answer from the request's own copy of the row. */
    method Persist(tx: Transaction, attId: Id, answer: Answer, now: int) returns (ok: bool)
      modifies this, tx
      ensures
        var r := PersistPayment(old(Contents()), tx.id, attId, old(tx.status), answer, now);
        ok == r.Ok? && Contents() == After(old(Contents()), r)
    {
      ghost var before := Contents();
      var attemptUpdates := NO_ATTEMPT_UPDATES;
      var txUpdates := NO_TX_UPDATES.(nextPoll := Some(None));
      if answer.Failure? {
        ok := tx.Transition(Unknown);
        if !ok { return; }
        attemptUpdates := attemptUpdates.(status := Some(tx.status));
        txUpdates := txUpdates.(status := Some(tx.status));
      } else {
        ok := tx.Transition(PaymentStatus(answer.word));
        if !ok { return; }
        attemptUpdates := attemptUpdates.(status := Some(tx.status), providerReference := Some(answer.reference));
        txUpdates := txUpdates.(status := Some(tx.status), providerReference := Some(answer.reference));
      }
      if Terminal(tx.status) {
        attemptUpdates := attemptUpdates.(completedAt := Some(now));
      } else {
        txUpdates := txUpdates.(nextPoll := Some(Some(now + MINUTE)));
      }
      var saved := Contents();
      ok := UpdateAttempt(attId, attemptUpdates);
      if ok {
        ok := UpdateTx(tx.id, txUpdates);
      }
      if !ok {
        Restore(saved);
        return;
      }
      changes := changes + [Change(Request, tx.id, Pending, tx.status)];
    }

    /** A whole create request. A repeated key is answered from the stored row. Otherwise
        the request may be refused before anything is written; `meanwhile` is what others
        have made of the tables by then, or by the insert. A refused insert is looked up
        again. An accepted one is sent to the provider, and `later` is what others have
        made of the tables by the time the answer is persisted. */
    method Create(p: Payment, txId: Id, attId: Id, refused: bool, meanwhile: Tables, inserted: int,
                  answer: Answer, later: Tables, now: int)
      returns (told: Option<Id>)
      modifies this
      ensures
        var t, insert := old(Contents()), InsertPayment(meanwhile, p, txId, attId, inserted);
        if HasKey(t, p) then Contents() == t && ToldOf(t, p, told)
        else if refused then Contents() == meanwhile && told == None
        else if insert.Err? then
          Contents() == meanwhile && (if HasKey(meanwhile, p) then ToldOf(meanwhile, p, told) else told == None)
        else
          var persisted := PersistPayment(later, txId, attId, Processing, answer, now);
          Contents() == After(later, persisted) && told == if persisted.Ok? then Some(txId) else None
      ensures
        !refused && !HasKey(old(Contents()), p) && Free(meanwhile, p, txId, attId)
        && Held(later, p, txId, attId) ==>
        told == Some(txId)
        && match answer
           case Response(reference, word) => Stands(Contents(), txId, attId, PaymentStatus(word), reference, now)
           case Failure => Stands(Contents(), txId, attId, Unknown, "", now)
    {
      hide PersistPayment, InsertPayment, Free, Held, Stands;
      if Free(meanwhile, p, txId, attId) && Held(later, p, txId, attId) {
        FirstSucceeds(meanwhile, p, txId, attId, inserted, answer, later, now);
      }
      var found := ByIdempotencyKey(p.app, p.key);
      if found.Some? {
        return Replay(Contents(), found.value, p.hash);
      }
      Restore(meanwhile);
      if refused {
        return None;
      }
      var ok := InsertRows(p, txId, attId, inserted);
      if !ok {
        found := ByIdempotencyKey(p.app, p.key);
        if found.None? {
          return None;
        }
        return Replay(Contents(), found.value, p.hash);
      }
      var tx := new Transaction(txId, NewTx(p));
      Restore(later);
      ok := Persist(tx, attId, answer, now);
      return if ok then Some(txId) else None;
    }

    // ---- webhooks -------------------------------------------------------

    /** Whether an event contradicts the payment in nothing it states. */
    method ValidateWebhook(e: Event, p: Payment) returns (valid: bool)
      ensures valid == Matches(e, p)
    {
      hide Text.EqualFold;
      if (e.amount.Some? && e.amount.value != p.amount)
         || (e.currency != "" && !Text.EqualFold(e.currency, p.currency))
         || (e.country != "" && !Text.EqualFold(e.country, p.country))
         || (e.externalReference != "" && e.externalReference != p.reference)
         || (e.customerAccount != "" && e.customerAccount != p.customerAccount)
      {
        return false;
      }
      return true;
    }

    /** The body of a delivery's transaction. On an error its writes are not kept:
        the caller rolls them back. */
    method Apply(rowId: Id, e: Event, now: int) returns (failed: Option<Error>, pick: Option<Id>)
      modifies this
      ensures LatestForReference(old(Contents()), e.account, e.providerReference, pick)
      ensures
        match ApplyWebhook(old(Contents()), rowId, e, pick, now)
        case Ok(t) => failed == None && Contents() == t
        case Err(error) => failed == Some(error)
    {
      pick := LatestForReferenceRow(e.account, e.providerReference);
      if pick.None? {
        return None, pick;
      }
      var tx := LockForUpdate(attempts[pick.value].txId);
      if tx == null {
        return None, pick;
      }
      var valid := ValidateWebhook(e, tx.row.payment);
      if !valid {
        return Some(Refused), pick;
      }
      var previous := tx.status;
      var ok := tx.Transition(FromText(e.status));
      if !ok {
        return Some(Refused), pick;
      }
      var txUpdates := NO_TX_UPDATES.(status := Some(tx.status), providerReference := Some(e.providerReference),
                                      nextPoll := Some(None));
      if !Terminal(tx.status) {
        txUpdates := txUpdates.(nextPoll := Some(Some(now + MINUTE)));
      }
      ok := UpdateTx(tx.id, txUpdates);
      var attemptUpdates := NO_ATTEMPT_UPDATES.(status := Some(tx.status),
                                                providerReference := Some(e.providerReference));
      if Terminal(tx.status) {
        attemptUpdates := attemptUpdates.(completedAt := Some(now));
      }
      ok := UpdateAttempt(pick.value, attemptUpdates);
      ok := MarkProcessed(rowId, tx.id);
      if !ok {
        return Some(NotFound), pick;
      }
      if previous != tx.status {
        changes := changes + [Change(Webhook, tx.id, previous, tx.status)];
      }
      return None, pick;
    }

    /** One delivery, as the adapter reported it. */
    method Handle(reported: Event, rowId: Id, now: int) returns (ok: bool, pick: Option<Id>)
      modifies this
      ensures
        match Verified(reported)
        case None => !ok && Contents() == old(Contents())
        case Some(e) =>
          LatestForReference(old(Contents()), e.account, e.providerReference, pick)
          && ok == HandleWebhook(old(Contents()), rowId, e, pick, now).Ok?
          && Contents() == After(old(Contents()), HandleWebhook(old(Contents()), rowId, e, pick, now))
    {
      pick := None;
      if reported.providerReference == "" {
        return false, pick;
      }
      var e := reported.(currency := Text.ToUpper(reported.currency), country := Text.ToUpper(reported.country));
      var saved := Contents();
      if Stored(saved, e) {
        pick := LatestForReferenceRow(e.account, e.providerReference);
        return true, pick;
      }
      if rowId in events {
        pick := LatestForReferenceRow(e.account, e.providerReference);
        return false, pick;
      }
      events := events[rowId := EventRow(e, false, None)];
      var failed;
      failed, pick := Apply(rowId, e, now);
      if failed.Some? {
        Restore(saved);
      }
      return failed.None?, pick;
    }

    /** Retries events read from storage one transaction at a time, passing over those
        whose row is gone and ending at the first refusal. `turns` tells what was tried. */
    method ReprocessPending(batch: seq<(Id, Event)>, clock: nat -> int) returns (ok: bool, turns: seq<Turn>)
      modifies this
      ensures Pass(old(Contents()), turns)
      ensures (Contents(), ok) == Reprocess(old(Contents()), turns)
      ensures |turns| <= |batch| && (ok ==> |turns| == |batch|)
      ensures forall i :: 0 <= i < |turns| ==>
        (turns[i].rowId, turns[i].event) == batch[i] && turns[i].now == clock(i)
    {
      turns := [];
      NoTurns(Contents());
      hide Pass, Reprocess, ApplyWebhook;
      for i := 0 to |batch|
        invariant |turns| == i
        invariant forall k :: 0 <= k < i ==> (turns[k].rowId, turns[k].event) == batch[k] && turns[k].now == clock(k)
        invariant Pass(old(Contents()), turns) && Reprocess(old(Contents()), turns) == (Contents(), true)
      {
        var saved := Contents();
        var failed, pick := Apply(batch[i].0, batch[i].1, clock(i));
        var turn := Turn(batch[i].0, batch[i].1, pick, clock(i));
        PassExtends(old(Contents()), turns, turn);
        turns := turns + [turn];
        if failed.Some? {
          Restore(saved);
          if failed != Some(NotFound) {
            assert failed.value == Refused;
            return false, turns;
          }
        }
      }
      return true, turns;
    }

    // ---- reconciliation -------------------------------------------------

    /** Records what the provider answered about a selected row. */
    method Reconcile(txId: Id, word: string, now: int) returns (ok: bool, pick: Option<Id>)
      modifies this
      ensures txId in old(txs) ==> LatestForTransaction(old(Contents()), txId, old(txs)[txId].payment.account, pick)
      ensures ok == RecordPoll(old(Contents()), txId, word, pick, now).Ok?
      ensures Contents() == After(old(Contents()), RecordPoll(old(Contents()), txId, word, pick, now))
    {
      hide PaymentStatus, Backoff, LatestForTransaction;
      pick := None;
      var saved := Contents();
      var tx := LockForUpdate(txId);
      if tx == null {
        return false, pick;
      }
      pick := LatestForTransactionRow(txId, tx.row.payment.account);
      if Terminal(tx.status) {
        return true, pick;
      }
      var previous := tx.status;
      ok := tx.Transition(PaymentStatus(word));
      if !ok {
        return false, pick;
      }
      var updates := NO_TX_UPDATES.(status := Some(tx.status), polledAt := Some(now), countPoll := true,
                                    nextPoll := Some(None));
      if !Terminal(tx.status) {
        updates := updates.(nextPoll := Some(Some(now + Backoff(tx.row.polls + 1))));
      }
      var applied := UpdateFromStatus(txId, previous, updates);
      if pick.None? {
        Restore(saved);
        return false, pick;
      }
      var attemptUpdates := NO_ATTEMPT_UPDATES.(status := Some(tx.status));
      if Terminal(tx.status) {
        attemptUpdates := attemptUpdates.(completedAt := Some(now));
      }
      ok := UpdateAttempt(pick.value, attemptUpdates);
      if previous != tx.status {
        changes := changes + [Change(Reconciliation, txId, previous, tx.status)];
      }
    }

    /** Records that the provider could not be asked about a selected row. The caller is
        told of the cause, or of why that could not be recorded. */
    method DeferRetry(txId: Id, cause: Error, now: int) returns (error: Error)
      modifies this
      ensures error == match DeferPoll(old(Contents()), txId, now) case Ok(_) => cause case Err(e) => e
      ensures Contents() == After(old(Contents()), DeferPoll(old(Contents()), txId, now))
    {
      var tx := LockForUpdate(txId);
      if tx == null {
        return NotFound;
      }
      if Terminal(tx.status) {
        return cause;
      }
      var previous := tx.status;
      var ok := tx.Transition(Unknown);
      if !ok {
        return Refused;
      }
      var applied := UpdateFromStatus(txId, previous, NO_TX_UPDATES.(
        status := Some(tx.status), polledAt := Some(now), countPoll := true,
        nextPoll := Some(Some(now + Backoff(tx.row.polls + 1)))));
      if previous != tx.status {
        changes := changes + [Change(Reconciliation, txId, previous, tx.status)];
      }
      return cause;
    }

    /** One selected row: polled when the provider answered, deferred when it did not. An
        error comes back exactly when it did not. */
    method ReconcileRow(txId: Id, answer: Result<string>, now: int) returns (error: Option<Error>)
      requires Sound(Contents()) && Pollable(Contents(), txId)
      modifies this
      ensures error == match answer case Ok(_) => None case Err(cause) => Some(cause)
      ensures Sound(Contents()) && Stable(old(Contents()), Contents()) && Gentle(old(Contents()), Contents(), None)
      ensures OthersKept(old(Contents()), Contents(), txId)
      ensures PolledAs(old(Contents()), Contents(), txId, answer, now)
    {
      ghost var t := Contents();
      hide Sound, Stable, Gentle, RecordPoll, DeferPoll, LatestForTransaction, Terminal, OthersKept, PolledAs;
      if answer.Ok? {
        var ok, pick := Reconcile(txId, answer.value, now);
        PollSound(t, txId, answer.value, pick, now);
        PollMoves(t, txId, answer.value, pick, now);
        PollTold(t, txId, answer.value, pick, now);
        return None;
      }
      var told := DeferRetry(txId, answer.error, now);
      DeferSound(t, txId, now);
      DeferMoves(t, txId, now);
      DeferTold(t, txId, answer.error, now);
      return Some(told);
    }

    /** One pass of the worker: the oldest due rows, then the pending webhooks. `polled` is
        what the tables were in between. By then each row has the status its provider's
        word names, or is unknown where the provider did not answer, and every other row
        is as it was; what follows is a pass over stored events. The pass reports an error
        exactly when some provider did not answer or a pending webhook was refused. Nothing
        settled comes undone, and no unpublished payment is touched. */
    method RunOnce(limit: nat, selected: int, answers: Id -> Result<string>, clock: nat -> int, sweep: nat -> int)
        returns (ok: bool, rows: seq<Id>, swept: bool, ghost polled: Tables, turns: seq<Turn>)
      requires Sound(Contents())
      modifies this
      ensures OldestDue(old(txs), selected, if limit < 1 then 100 else limit, rows)
      ensures ok <==> swept && forall i :: 0 <= i < |rows| ==> answers(rows[i]).Ok?
      ensures forall i :: 0 <= i < |rows| ==>
        PolledAs(old(Contents()), polled, rows[i], answers(rows[i]), clock(i))
      ensures forall x :: x in old(txs) && x !in rows ==> KeptAs(old(Contents()), polled, x)
      ensures Pass(polled, turns) && (Contents(), swept) == Reprocess(polled, turns)
      ensures Sweeps(polled, turns, if limit < 1 then 100 else limit, swept)
      ensures forall i :: 0 <= i < |rows| ==>
        rows[i] in old(txs) && rows[i] in txs && txs[rows[i]].polls == old(txs)[rows[i]].polls + 1
      ensures Sound(Contents()) && Stable(old(Contents()), Contents()) && Gentle(old(Contents()), Contents(), None)
    {
      hide Sound, Stable, Gentle, Pass, Reprocess, OldestDue, PolledUpTo, PolledAs, KeptAs, OthersKept, Pollable,
           PollsKept, Sweeps, Due;
      var size := if limit < 1 then 100 else limit;
      rows := DueForReconciliation(selected, size);
      ok := true;
      ghost var start := Contents();
      SameTables(start);
      NothingPolled(start, selected, size, rows, answers, clock);
      for i := 0 to |rows|
        invariant Sound(Contents()) && Stable(start, Contents()) && Gentle(start, Contents(), None)
        invariant ok <==> forall k :: 0 <= k < i ==> answers(rows[k]).Ok?
        invariant PolledUpTo(start, Contents(), rows, i, answers, clock)
      {
        ghost var before := Contents();
        NextRow(start, before, rows, i, answers, clock);
        var error := ReconcileRow(rows[i], answers(rows[i]), clock(i));
        ok := ok && error.None?;
        Moves2(start, before, Contents());
        OneMorePolled(start, before, Contents(), rows, i, answers, clock);
      }
      polled := Contents();
      AllPolled(start, polled, rows, answers, clock);
      var batch := PendingEvents(size);
      swept, turns := ReprocessPending(batch, sweep);
      Addressed2(polled, batch);
      BatchSweeps(polled, batch, turns, size, swept, sweep);
      PassMoves(polled, turns);
      Moves2(start, polled, Contents());
      PollsLeft(start, polled, Contents(), rows, answers, clock);
      ok := ok && swept;
    }
  }

  /** The due rows but for `rest`, each once and oldest first, and none younger than any
      in the rest. */
  predicate OldestFirst(txs: map<Id, TxRow>, now: int, rows: seq<Id>, rest: set<Id>) {
    (forall x :: x in rest ==> x in txs && Due(txs[x], now))
    && (forall i :: 0 <= i < |rows| ==> rows[i] in txs && Due(txs[rows[i]], now) && rows[i] !in rest)
    && (forall x :: x in txs && Due(txs[x], now) && x !in rest ==> x in rows)
    && (forall i, j :: 0 <= i < j < |rows| ==> rows[i] != rows[j])
    && (forall i, j :: 0 <= i < j < |rows| ==> txs[rows[i]].payment.createdAt <= txs[rows[j]].payment.createdAt)
    && forall i, x :: 0 <= i < |rows| && x in rest ==> txs[rows[i]].payment.createdAt <= txs[x].payment.createdAt
  }

  /** Up to `limit` distinct due rows, oldest first; none that is left out is older, and
      none is left out below the limit. */
  ghost predicate OldestDue(txs: map<Id, TxRow>, now: int, limit: nat, rows: seq<Id>) {
    |rows| <= limit
    && (forall i :: 0 <= i < |rows| ==> rows[i] in txs && Due(txs[rows[i]], now))
    && (forall i, j :: 0 <= i < j < |rows| ==> rows[i] != rows[j])
    && (forall i, j :: 0 <= i < j < |rows| ==> txs[rows[i]].payment.createdAt <= txs[rows[j]].payment.createdAt)
    && (forall i, x :: 0 <= i < |rows| && x in txs && Due(txs[x], now) && x !in rows ==>
          txs[rows[i]].payment.createdAt <= txs[x].payment.createdAt)
    && (|rows| < limit ==> forall x :: x in txs && Due(txs[x], now) ==> x in rows)
  }

  lemma NoneOlder(txs: map<Id, TxRow>, now: int, rest: set<Id>)
    requires forall x :: x in rest <==> x in txs && Due(txs[x], now)
    ensures OldestFirst(txs, now, [], rest)
  {
  }

  lemma OneOlder(txs: map<Id, TxRow>, now: int, rows: seq<Id>, rest: set<Id>, x: Id)
    requires OldestFirst(txs, now, rows, rest) && x in rest && rest <= txs.Keys
    requires forall y :: y in rest ==> txs[x].payment.createdAt <= txs[y].payment.createdAt
    ensures OldestFirst(txs, now, rows + [x], rest - {x})
  {
    hide Due;
    var rows' := rows + [x];
    assert rows'[|rows|] == x && forall i :: 0 <= i < |rows| ==> rows'[i] == rows[i];
    forall y | y in txs && Due(txs[y], now) && y !in rest - {x}
      ensures y in rows'
    {
      assert y != x ==> y in rows;
    }
  }

  lemma AllOlder(txs: map<Id, TxRow>, now: int, limit: nat, rows: seq<Id>, rest: set<Id>)
    requires OldestFirst(txs, now, rows, rest) && |rows| <= limit && (rest == {} || |rows| == limit)
    ensures OldestDue(txs, now, limit, rows)
  {
    hide Due;
  }

  /** A row of the payment's application and key. */
  predicate HasKey(t: Tables, p: Payment) {
    exists x :: x in t.txs && SameKey(t.txs[x].payment, p)
  }

  /** A request whose key is taken is told of a transaction made by the same request, or
      of nothing because a different request made one. */
  predicate ToldOf(t: Tables, p: Payment, told: Option<Id>) {
    if told.Some?
    then told.value in t.txs && SameKey(t.txs[told.value].payment, p) && t.txs[told.value].payment.hash == p.hash
    else exists x :: x in t.txs && SameKey(t.txs[x].payment, p) && t.txs[x].payment.hash != p.hash
  }

  /** The request's own rows are still as it inserted them. */
  predicate Held(t: Tables, p: Payment, txId: Id, attId: Id) {
    txId in t.txs && t.txs[txId] == TxRow(p, Processing, "", 0, None, None)
    && attId in t.attempts && t.attempts[attId].txId == txId && t.attempts[attId].status == Processing
    && t.attempts[attId].providerReference == "" && t.attempts[attId].completedAt == None
  }

  lemma FirstSucceeds(meanwhile: Tables, p: Payment, txId: Id, attId: Id, inserted: int, answer: Answer,
                      later: Tables, now: int)
    requires Free(meanwhile, p, txId, attId) && Held(later, p, txId, attId)
    ensures InsertPayment(meanwhile, p, txId, attId, inserted).Ok?
    ensures
      var persisted := PersistPayment(later, txId, attId, Processing, answer, now);
      persisted.Ok?
      && match answer
         case Response(reference, word) => Stands(persisted.value, txId, attId, PaymentStatus(word), reference, now)
         case Failure => Stands(persisted.value, txId, attId, Unknown, "", now)
  {
    hide PersistPayment, InsertPayment, Stands, PaymentStatus;
    InsertExact(meanwhile, p, txId, attId, inserted);
    match answer {
      case Response(reference, word) => PersistResponse(later, txId, attId, reference, word, now);
      case Failure => PersistFailure(later, txId, attId, now);
    }
  }

  /** The payment and its attempts, as they were. */
  ghost predicate KeptAs(t: Tables, t': Tables, x: Id) {
    x in t.txs && x in t'.txs && t'.txs[x] == t.txs[x]
    && forall a :: a in t.attempts && t.attempts[a].txId == x ==> a in t'.attempts && t'.attempts[a] == t.attempts[a]
  }

  ghost predicate OthersKept(t: Tables, t': Tables, txId: Id) {
    forall x :: x in t.txs && x != txId ==> KeptAs(t, t', x)
  }

  /** The payment as its poll left it: with its attempts at the status the provider's
      word names, or unknown with its attempts as they were. */
  ghost predicate PolledAs(t: Tables, t': Tables, x: Id, answer: Result<string>, now: int) {
    x in t.txs && x in t'.txs
    && match answer
       case Ok(word) =>
         Counted(t.txs[x], t'.txs[x], PaymentStatus(word), now) && Reported(t, t', x, PaymentStatus(word), now)
       case Err(_) =>
         Counted(t.txs[x], t'.txs[x], Unknown, now)
         && forall a :: a in t.attempts && t.attempts[a].txId == x ==>
              a in t'.attempts && t'.attempts[a] == t.attempts[a]
  }

  lemma PollTold(t: Tables, x: Id, word: string, pick: Option<Id>, now: int)
    requires Sound(t) && x in t.txs && t.txs[x].providerReference != "" && !Terminal(t.txs[x].status)
    requires LatestForTransaction(t, x, t.txs[x].payment.account, pick)
    ensures
      var t' := After(t, RecordPoll(t, x, word, pick, now));
      OthersKept(t, t', x) && PolledAs(t, t', x, Ok(word), now)
  {
    hide Sound, RecordPoll, LatestForTransaction, Terminal, PaymentStatus, Counted, Reported, LogsMove, Transition;
    PollOutcome(t, x, word, pick, now);
    PollFacts(t, x, word, pick, now);
  }

  lemma DeferTold(t: Tables, x: Id, cause: Error, now: int)
    requires Sound(t) && x in t.txs && t.txs[x].providerReference != "" && !Terminal(t.txs[x].status)
    ensures
      var t' := After(t, DeferPoll(t, x, now));
      OthersKept(t, t', x) && PolledAs(t, t', x, Err(cause), now)
  {
    hide Sound, DeferPoll, Terminal, Counted, LogsMove;
    DeferOutcome(t, x, now);
  }

  /** The first `i` rows as their polls left them, and everything else as at the start. */
  ghost predicate PolledUpTo(start: Tables, t: Tables, rows: seq<Id>, i: nat, answers: Id -> Result<string>,
                             clock: nat -> int)
    requires i <= |rows|
  {
    (forall j, k :: 0 <= j < k < |rows| ==> rows[j] != rows[k])
    && (forall k :: 0 <= k < |rows| ==> Pollable(start, rows[k]))
    && (forall k :: 0 <= k < i ==> PolledAs(start, t, rows[k], answers(rows[k]), clock(k)))
    && forall x :: x in start.txs && x !in rows[..i] ==> KeptAs(start, t, x)
  }

  predicate Pollable(t: Tables, x: Id) {
    x in t.txs && t.txs[x].providerReference != "" && !Terminal(t.txs[x].status)
  }

  lemma NothingPolled(t: Tables, selected: int, limit: nat, rows: seq<Id>, answers: Id -> Result<string>,
                      clock: nat -> int)
    requires OldestDue(t.txs, selected, limit, rows)
    ensures PolledUpTo(t, t, rows, 0, answers, clock)
  {
  }

  lemma NextRow(start: Tables, t: Tables, rows: seq<Id>, i: nat, answers: Id -> Result<string>, clock: nat -> int)
    requires i < |rows| && PolledUpTo(start, t, rows, i, answers, clock)
    ensures Pollable(t, rows[i])
  {
    hide Terminal, PolledAs;
    assert rows[i] !in rows[..i];
    assert KeptAs(start, t, rows[i]);
  }

  lemma OneMorePolled(start: Tables, t: Tables, t': Tables, rows: seq<Id>, i: nat, answers: Id -> Result<string>,
                      clock: nat -> int)
    requires i < |rows| && PolledUpTo(start, t, rows, i, answers, clock)
    requires OthersKept(t, t', rows[i]) && PolledAs(t, t', rows[i], answers(rows[i]), clock(i))
    ensures PolledUpTo(start, t', rows, i + 1, answers, clock)
  {
    hide PolledAs, KeptAs, Terminal;
    assert rows[..i + 1] == rows[..i] + [rows[i]];
    assert rows[i] !in rows[..i];
    assert KeptAs(start, t, rows[i]);
    PolledFromStart(start, t, t', rows[i], answers(rows[i]), clock(i));
    forall k | 0 <= k < i
      ensures PolledAs(start, t', rows[k], answers(rows[k]), clock(k))
    {
      PolledStays(start, t, t', rows[k], rows[i], answers(rows[k]), clock(k));
    }
    forall x | x in start.txs && x !in rows[..i + 1]
      ensures KeptAs(start, t', x)
    {
      KeptTwice(start, t, t', x, rows[i]);
    }
  }

  lemma PolledFromStart(start: Tables, t: Tables, t': Tables, x: Id, answer: Result<string>, now: int)
    requires KeptAs(start, t, x) && PolledAs(t, t', x, answer, now)
    ensures PolledAs(start, t', x, answer, now)
  {
  }

  lemma PolledStays(start: Tables, t: Tables, t': Tables, x: Id, y: Id, answer: Result<string>, now: int)
    requires PolledAs(start, t, x, answer, now) && OthersKept(t, t', y) && x != y
    ensures PolledAs(start, t', x, answer, now)
  {
    assert KeptAs(t, t', x);
  }

  lemma KeptTwice(start: Tables, t: Tables, t': Tables, x: Id, y: Id)
    requires KeptAs(start, t, x) && OthersKept(t, t', y) && x != y
    ensures KeptAs(start, t', x)
  {
    assert KeptAs(t, t', x);
  }

  lemma AllPolled(start: Tables, t: Tables, rows: seq<Id>, answers: Id -> Result<string>, clock: nat -> int)
    requires PolledUpTo(start, t, rows, |rows|, answers, clock)
    ensures forall i :: 0 <= i < |rows| ==> PolledAs(start, t, rows[i], answers(rows[i]), clock(i))
    ensures forall x :: x in start.txs && x !in rows ==> KeptAs(start, t, x)
  {
    assert rows[..|rows|] == rows;
  }

  lemma PollsLeft(start: Tables, polled: Tables, t: Tables, rows: seq<Id>, answers: Id -> Result<string>,
                  clock: nat -> int)
    requires forall i :: 0 <= i < |rows| ==> PolledAs(start, polled, rows[i], answers(rows[i]), clock(i))
    requires PollsKept(polled, t)
    ensures forall i :: 0 <= i < |rows| ==>
      rows[i] in start.txs && rows[i] in t.txs && t.txs[rows[i]].polls == start.txs[rows[i]].polls + 1
  {
  }

  /** The turns were taken at distinct pending events with what was stored of them: at most
      `limit`, and at every pending one when they are fewer and none was refused. */
  ghost predicate Sweeps(t: Tables, turns: seq<Turn>, limit: nat, swept: bool) {
    |turns| <= limit
    && (forall i :: 0 <= i < |turns| ==>
          turns[i].rowId in t.events && !t.events[turns[i].rowId].processed
          && t.events[turns[i].rowId].event == turns[i].event)
    && (forall i, j :: 0 <= i < j < |turns| ==> turns[i].rowId != turns[j].rowId)
    && (swept && |turns| < limit ==>
          forall r :: r in t.events && !t.events[r].processed ==> exists i :: 0 <= i < |turns| && turns[i].rowId == r)
  }

  lemma BatchSweeps(t: Tables, batch: seq<(Id, Event)>, turns: seq<Turn>, limit: nat, swept: bool, sweep: nat -> int)
    requires |turns| <= |batch| <= limit && (swept ==> |turns| == |batch|)
    requires forall i :: 0 <= i < |turns| ==>
      (turns[i].rowId, turns[i].event) == batch[i] && turns[i].now == sweep(i)
    requires forall i :: 0 <= i < |batch| ==>
      batch[i].0 in t.events && t.events[batch[i].0] == EventRow(batch[i].1, false, t.events[batch[i].0].txId)
    requires forall i, j :: 0 <= i < j < |batch| ==> batch[i].0 != batch[j].0
    requires |batch| < limit ==> forall r :: r in t.events && !t.events[r].processed ==> (r, t.events[r].event) in batch
    ensures Sweeps(t, turns, limit, swept)
  {
    if swept && |turns| < limit {
      forall r | r in t.events && !t.events[r].processed
        ensures exists i :: 0 <= i < |turns| && turns[i].rowId == r
      {
        assert (r, t.events[r].event) in batch;
        var i :| 0 <= i < |batch| && batch[i] == (r, t.events[r].event);
        assert turns[i].rowId == r;
      }
    }
  }

  lemma Addressed2(t: Tables, batch: seq<(Id, Event)>)
    requires Sound(t) && forall i :: 0 <= i < |batch| ==>
      batch[i].0 in t.events && t.events[batch[i].0] == EventRow(batch[i].1, false, t.events[batch[i].0].txId)
    ensures forall i :: 0 <= i < |batch| ==> batch[i].1.providerReference != ""
  {
    hide Linked, OneAttempt, OneKey, Walked;
  }

  ghost predicate PollsKept(t: Tables, t': Tables) {
    forall x :: x in t.txs ==> x in t'.txs && t'.txs[x].polls == t.txs[x].polls
  }

  lemma ApplyKeepsPolls(t: Tables, turn: Turn)
    requires ValidTurn(t, turn)
    ensures PollsKept(t, After(t, TakeTurn(t, turn)))
  {
    hide Matches, Transition, FromText, LatestForReference;
  }

  /** A pass over events with a reference keeps the tables sound, undoes nothing settled,
      touches no unpublished payment and counts no poll. */
  lemma {:induction false} PassMoves(t: Tables, turns: seq<Turn>)
    requires Sound(t) && Pass(t, turns) && forall i :: 0 <= i < |turns| ==> turns[i].event.providerReference != ""
    ensures
      var t' := Reprocess(t, turns).0;
      Sound(t') && Stable(t, t') && Gentle(t, t', None) && PollsKept(t, t')
    decreases |turns|
  {
    hide Sound, Stable, Gentle, ApplyWebhook, LatestForReference;
    SameTables(t);
    if turns != [] {
      var turn := turns[0];
      var u := After(t, TakeTurn(t, turn));
      WebhookMoves(t, turn.rowId, turn.event, turn.pick, turn.now);
      ApplyKeepsPolls(t, turn);
      if TakeTurn(t, turn) != Err(Refused) {
        PassMoves(u, turns[1..]);
        Moves2(t, u, Reprocess(u, turns[1..]).0);
      }
    }
  }

  lemma Moves2(t: Tables, u: Tables, v: Tables)
    requires Stable(t, u) && Stable(u, v) && Gentle(t, u, None) && Gentle(u, v, None)
    ensures Stable(t, v) && Gentle(t, v, None)
  {
  }

  lemma NoTurns(t: Tables)
    ensures Pass(t, []) && Reprocess(t, []) == (t, true)
  {
  }

  /** A pass that went through can take one more turn. */
  lemma {:induction false} PassExtends(t: Tables, turns: seq<Turn>, turn: Turn)
    requires Pass(t, turns) && Reprocess(t, turns).1 && ValidTurn(Reprocess(t, turns).0, turn)
    ensures Pass(t, turns + [turn])
    ensures Reprocess(t, turns + [turn]) ==
      var u := Reprocess(t, turns).0;
      var r := TakeTurn(u, turn);
      (After(u, r), r != Err(Refused))
    decreases |turns|
  {
    hide ApplyWebhook, LatestForReference;
    if turns == [] {
      assert [turn][1..] == [];
    } else {
      assert (turns + [turn])[1..] == turns[1..] + [turn];
      PassExtends(After(t, TakeTurn(t, turns[0])), turns[1..], turn);
    }
  }
}
