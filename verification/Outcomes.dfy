/** What each database transaction leaves behind, told column by column: what a stored
    payment looks like, what an answer, a poll, a deferral and a webhook write, and when
    each of them is refused. Times are nanoseconds. */
module Outcomes {
  import opened Wrappers
  import opened Statuses
  import opened Tables
  import Text

  // ---- creating ---------------------------------------------------------

  /** Both identifiers are free, and no row of the application has the key or the
      reference. */
  predicate Free(t: Tables, p: Payment, txId: Id, attId: Id) {
    txId !in t.txs && attId !in t.attempts
    && forall x :: x in t.txs && t.txs[x].payment.app == p.app ==>
         t.txs[x].payment.key != p.key && t.txs[x].payment.reference != p.reference
  }

  /** An insert goes through exactly when all of these are free; then both rows are there,
      live and unpublished, and nothing else has changed. */
  lemma InsertExact(t: Tables, p: Payment, txId: Id, attId: Id, now: int)
    ensures InsertPayment(t, p, txId, attId, now).Ok? <==> Free(t, p, txId, attId)
    ensures InsertPayment(t, p, txId, attId, now).Ok? ==>
      var t' := InsertPayment(t, p, txId, attId, now).value;
      t' == Tables(t.txs[txId := TxRow(p, Processing, "", 0, None, None)],
                   t.attempts[attId := AttemptRow(txId, p.account, Processing, "", None, now)], t.events, t.changes)
  {
  }

  // ---- persisting -------------------------------------------------------

  ghost predicate OnlyRows(t: Tables, t': Tables, txId: Id, attId: Id) {
    t'.txs.Keys == t.txs.Keys && t'.attempts.Keys == t.attempts.Keys
    && (forall x :: x in t.txs && x != txId ==> t'.txs[x] == t.txs[x])
    && (forall a :: a in t.attempts && a != attId ==> t'.attempts[a] == t.attempts[a])
  }

  /** When both rows stand at `status`, under `reference`, as of `now`: a settled attempt
      is completed and its transaction is not polled again; a live one is polled a
      minute later. */
  ghost predicate Stands(t: Tables, txId: Id, attId: Id, status: Status, reference: string, now: int) {
    txId in t.txs && attId in t.attempts
    && t.txs[txId].status == status && t.attempts[attId].status == status
    && t.txs[txId].providerReference == reference && t.attempts[attId].providerReference == reference
    && if status == Succeeded || status == Failed || status == Cancelled || status == Expired
       then t.txs[txId].nextPoll == None && t.attempts[attId].completedAt == Some(now)
       else t.txs[txId].nextPoll == Some(now + 60_000_000_000)
  }

  /** A persisted response leaves both rows with its reference and the status its word
      names. */
  lemma PersistResponse(t: Tables, txId: Id, attId: Id, reference: string, word: string, now: int)
    requires txId in t.txs && attId in t.attempts
    ensures
      var result := PersistPayment(t, txId, attId, Processing, Response(reference, word), now);
      result.Ok? && OnlyRows(t, result.value, txId, attId)
      && Stands(result.value, txId, attId, PaymentStatus(word), reference, now)
      && result.value.txs[txId].payment == t.txs[txId].payment
      && result.value.attempts[attId].txId == t.attempts[attId].txId
      && result.value.attempts[attId].account == t.attempts[attId].account
      && result.value.events == t.events
      && result.value.changes == t.changes + [Change(Request, txId, Pending, PaymentStatus(word))]
  {
    hide PaymentStatus;
    var status := PaymentStatus(word);
    assert Normalized(status);
  }

  /** An error, or no response, leaves both rows unknown, under the reference they had. */
  lemma PersistFailure(t: Tables, txId: Id, attId: Id, now: int)
    requires txId in t.txs && attId in t.attempts
    requires t.txs[txId].providerReference == t.attempts[attId].providerReference
    ensures
      var result := PersistPayment(t, txId, attId, Processing, Failure, now);
      result.Ok? && OnlyRows(t, result.value, txId, attId)
      && Stands(result.value, txId, attId, Unknown, t.txs[txId].providerReference, now)
      && result.value.txs[txId].payment == t.txs[txId].payment
      && result.value.attempts[attId].completedAt == t.attempts[attId].completedAt
      && result.value.events == t.events
      && result.value.changes == t.changes + [Change(Request, txId, Pending, Unknown)]
  {
  }

  /** From then on a webhook with the reference finds an attempt: this one, when no other
      attempt of the account carries it. */
  lemma ResponseFindable(t: Tables, txId: Id, attId: Id, reference: string, word: string, now: int)
    requires txId in t.txs && attId in t.attempts && t.attempts[attId].account == t.txs[txId].payment.account
    ensures
      var t' := After(t, PersistPayment(t, txId, attId, Processing, Response(reference, word), now));
      var account := t.txs[txId].payment.account;
      (forall pick :: LatestForReference(t', account, reference, pick) ==> pick.Some?)
      && ((forall a :: a in t.attempts && a != attId && t.attempts[a].account == account ==>
             t.attempts[a].providerReference != reference)
          ==> forall pick :: LatestForReference(t', account, reference, pick) ==> pick == Some(attId))
  {
    hide Stands;
    PersistResponse(t, txId, attId, reference, word, now);
    hide PersistPayment;
    var t' := After(t, PersistPayment(t, txId, attId, Processing, Response(reference, word), now));
    assert t'.attempts[attId].providerReference == reference by {
      StandsCarries(t', txId, attId, PaymentStatus(word), reference, now);
    }
    assert Carries(t'.attempts[attId], t.txs[txId].payment.account, reference);
  }

  lemma StandsCarries(t: Tables, txId: Id, attId: Id, status: Status, reference: string, now: int)
    requires Stands(t, txId, attId, status, reference, now)
    ensures attId in t.attempts && t.attempts[attId].providerReference == reference
  {
  }

  // ---- polling ----------------------------------------------------------

  /** The pause before poll n + 1, in minutes: doubling up to half an hour and two. */
  lemma BackoffExact(n: nat)
    requires n >= 1
    ensures
      Backoff(n)
      == 60_000_000_000 * if n == 1 then 1 else if n == 2 then 2 else if n == 3 then 4 else if n == 4 then 8
                          else if n == 5 then 16 else 32
  {
    assert Power2(5) == 32;
  }

  /** A row is selected exactly when it is live, published, and its time has come. */
  lemma DueExact(row: TxRow, now: int)
    requires Normalized(row.status)
    ensures
      Due(row, now)
      <==> row.status != Succeeded && row.status != Failed && row.status != Cancelled && row.status != Expired
           && row.providerReference != "" && (row.nextPoll.Some? ==> row.nextPoll.value <= now)
  {
  }

  /** The row as it is after its next poll, recorded or deferred, left it at `status`. */
  ghost predicate Counted(row: TxRow, row': TxRow, status: Status, now: int) {
    row'.status == status && row'.payment == row.payment && row'.providerReference == row.providerReference
    && row'.polls == row.polls + 1 && row'.polledAt == Some(now)
    && row'.nextPoll == if status == Succeeded || status == Failed || status == Cancelled || status == Expired
                        then None else Some(now + Backoff(row.polls + 1))
  }

  ghost predicate LogsMove(t: Tables, t': Tables, source: Source, x: Id, status: Status)
    requires x in t.txs
  {
    t'.events == t.events
    && t'.changes == t.changes + if t.txs[x].status == status then [] else [Change(source, x, t.txs[x].status, status)]
  }

  ghost predicate Reported(t: Tables, t': Tables, x: Id, status: Status, now: int) {
    forall a :: a in t.attempts && t.attempts[a].txId == x ==>
      a in t'.attempts && t'.attempts[a].txId == x && t'.attempts[a].status == status
      && t'.attempts[a].providerReference == t.attempts[a].providerReference
      && ((status == Succeeded || status == Failed || status == Cancelled || status == Expired) ==>
            t'.attempts[a].completedAt == Some(now))
  }

  /** A poll of a live, published payment leaves it and its attempt with the status the
      provider's word names. */
  lemma PollOutcome(t: Tables, x: Id, word: string, pick: Option<Id>, now: int)
    requires Sound(t) && x in t.txs && t.txs[x].providerReference != "" && !Terminal(t.txs[x].status)
    requires LatestForTransaction(t, x, t.txs[x].payment.account, pick)
    ensures
      var result, status := RecordPoll(t, x, word, pick, now), PaymentStatus(word);
      result.Ok? && pick.Some? && OnlyRows(t, result.value, x, pick.value)
      && LogsMove(t, result.value, Reconciliation, x, status)
      && Counted(t.txs[x], result.value.txs[x], status, now) && Reported(t, result.value, x, status, now)
  {
    hide *;
    PollFacts(t, x, word, pick, now);
    PollWrites(t, x, word, pick.value, now);
    TheAttemptOnly(t, x, pick.value);
    PollReports(t, x, word, pick.value, now);
  }

  lemma PollFacts(t: Tables, x: Id, word: string, pick: Option<Id>, now: int)
    requires Sound(t) && x in t.txs && t.txs[x].providerReference != "" && !Terminal(t.txs[x].status)
    requires LatestForTransaction(t, x, t.txs[x].payment.account, pick)
    ensures pick.Some? && pick.value in t.attempts && t.attempts[pick.value].txId == x
    ensures Transition(t.txs[x].status, PaymentStatus(word)) == Some(PaymentStatus(word))
  {
    hide PaymentStatus, Path, Walk, Sound;
    var a := TheAttempt(t, x);
    assert Serves(t.attempts[a], x, t.txs[x].payment.account);
    TheRow(t, x);
    LiveTakesNormalized(t.txs[x].status, PaymentStatus(word));
  }

  lemma PollWrites(t: Tables, x: Id, word: string, a: Id, now: int)
    requires x in t.txs && !Terminal(t.txs[x].status) && a in t.attempts
    requires LatestForTransaction(t, x, t.txs[x].payment.account, Some(a))
    requires Transition(t.txs[x].status, PaymentStatus(word)) == Some(PaymentStatus(word))
    ensures
      var result, status := RecordPoll(t, x, word, Some(a), now), PaymentStatus(word);
      result.Ok? && OnlyRows(t, result.value, x, a) && LogsMove(t, result.value, Reconciliation, x, status)
      && Counted(t.txs[x], result.value.txs[x], status, now)
  {
    hide PaymentStatus, Backoff, LatestForTransaction, Transition;
  }

  lemma PollReports(t: Tables, x: Id, word: string, a: Id, now: int)
    requires x in t.txs && !Terminal(t.txs[x].status) && a in t.attempts
    requires LatestForTransaction(t, x, t.txs[x].payment.account, Some(a))
    requires Transition(t.txs[x].status, PaymentStatus(word)) == Some(PaymentStatus(word))
    requires forall b :: b in t.attempts && t.attempts[b].txId == x ==> b == a
    ensures
      var result := RecordPoll(t, x, word, Some(a), now);
      result.Ok? && Reported(t, result.value, x, PaymentStatus(word), now)
  {
    hide PaymentStatus, Backoff, LatestForTransaction, Transition;
  }

  lemma TheAttemptOnly(t: Tables, x: Id, a: Id)
    requires Sound(t) && x in t.txs && a in t.attempts && t.attempts[a].txId == x
    ensures forall b :: b in t.attempts && t.attempts[b].txId == x ==> b == a
  {
    hide Sound;
    var c := TheAttempt(t, x);
  }

  /** A deferral leaves the payment unknown and every attempt as it was. */
  lemma DeferOutcome(t: Tables, x: Id, now: int)
    requires Sound(t) && x in t.txs && t.txs[x].providerReference != "" && !Terminal(t.txs[x].status)
    ensures
      var result := DeferPoll(t, x, now);
      result.Ok? && result.value.attempts == t.attempts && LogsMove(t, result.value, Reconciliation, x, Unknown)
      && Counted(t.txs[x], result.value.txs[x], Unknown, now)
      && result.value.txs.Keys == t.txs.Keys && forall y :: y in t.txs && y != x ==> result.value.txs[y] == t.txs[y]
  {
    hide *;
    TheRow(t, x);
    LiveMoves(t.txs[x].status, Unknown);
    DeferWrites(t, x, now);
  }

  lemma LiveMoves(status: Status, next: Status)
    requires Normalized(status) && !Terminal(status) && (next.Unknown? || next.Processing?)
    ensures Transition(status, next) == Some(next)
  {
  }

  lemma DeferWrites(t: Tables, x: Id, now: int)
    requires x in t.txs && !Terminal(t.txs[x].status) && Transition(t.txs[x].status, Unknown) == Some(Unknown)
    ensures
      var result := DeferPoll(t, x, now);
      result.Ok? && result.value.attempts == t.attempts && LogsMove(t, result.value, Reconciliation, x, Unknown)
      && Counted(t.txs[x], result.value.txs[x], Unknown, now)
      && result.value.txs.Keys == t.txs.Keys && forall y :: y in t.txs && y != x ==> result.value.txs[y] == t.txs[y]
  {
    hide Backoff, Transition;
  }

  /** An answer that comes after the payment has settled changes nothing. */
  lemma PollTooLate(t: Tables, x: Id, word: string, pick: Option<Id>, now: int)
    requires x in t.txs && Terminal(t.txs[x].status)
    requires LatestForTransaction(t, x, t.txs[x].payment.account, pick)
    ensures RecordPoll(t, x, word, pick, now) == Ok(t) && DeferPoll(t, x, now) == Ok(t)
  {
  }

  // ---- webhooks ---------------------------------------------------------

  /** The event contradicts the payment in nothing it states, and its status is the
      payment's or one the graph lets it move to. */
  predicate Accepts(row: TxRow, e: Event) {
    (e.amount == None || e.amount == Some(row.payment.amount))
    && (e.currency == "" || Text.EqualFold(e.currency, row.payment.currency))
    && (e.country == "" || Text.EqualFold(e.country, row.payment.country))
    && (e.externalReference == "" || e.externalReference == row.payment.reference)
    && (e.customerAccount == "" || e.customerAccount == row.payment.customerAccount)
    && (FromText(e.status) == row.status || Edge(row.status, FromText(e.status)))
  }

  /** An event whose reference names an attempt is applied exactly when its payment
      accepts it, and otherwise refused. */
  lemma ApplyExact(t: Tables, rowId: Id, e: Event, pick: Option<Id>, now: int)
    requires Sound(t) && LatestForReference(t, e.account, e.providerReference, pick)
    requires pick.Some? && rowId in t.events
    ensures
      t.attempts[pick.value].txId in t.txs
      && var result := ApplyWebhook(t, rowId, e, pick, now);
      (result.Ok? <==> Accepts(t.txs[t.attempts[pick.value].txId], e)) && (result.Err? ==> result == Err(Refused))
  {
    hide *;
    PickedThere(t, e, pick);
    PickedRow(t, pick.value);
    ApplyDecides(t, rowId, e, pick, now);
  }

  lemma PickedThere(t: Tables, e: Event, pick: Option<Id>)
    requires LatestForReference(t, e.account, e.providerReference, pick) && pick.Some?
    ensures pick.value in t.attempts
  {
  }

  lemma ApplyDecides(t: Tables, rowId: Id, e: Event, pick: Option<Id>, now: int)
    requires LatestForReference(t, e.account, e.providerReference, pick)
    requires pick.Some? && pick.value in t.attempts && t.attempts[pick.value].txId in t.txs && rowId in t.events
    requires t.txs[t.attempts[pick.value].txId].status != Absent
    ensures
      var result := ApplyWebhook(t, rowId, e, pick, now);
      (result.Ok? <==> Accepts(t.txs[t.attempts[pick.value].txId], e)) && (result.Err? ==> result == Err(Refused))
  {
    hide FromText, Edge, Text.EqualFold, LatestForReference, WebhookTx, WebhookAttempt, NotedChange;
  }

  lemma PickedRow(t: Tables, attId: Id)
    requires Sound(t) && attId in t.attempts
    ensures t.attempts[attId].txId in t.txs && Normalized(t.txs[t.attempts[attId].txId].status)
    ensures t.txs[t.attempts[attId].txId].status != Absent
  {
    hide Path, Walk, PairOk, OneAttempt;
  }

  /** An applied event leaves both rows with its status and reference, and is marked as
      processed for that payment. */
  lemma ApplyOutcome(t: Tables, rowId: Id, e: Event, pick: Option<Id>, now: int)
    requires Sound(t) && LatestForReference(t, e.account, e.providerReference, pick)
    requires pick.Some? && pick.value in t.attempts && rowId in t.events && ApplyWebhook(t, rowId, e, pick, now).Ok?
    ensures
      var t', attId := ApplyWebhook(t, rowId, e, pick, now).value, pick.value;
      var x := t.attempts[attId].txId;
      x in t.txs && OnlyRows(t, t', x, attId) && Stands(t', x, attId, FromText(e.status), e.providerReference, now)
      && t'.txs[x].payment == t.txs[x].payment && t'.txs[x].polls == t.txs[x].polls
      && t'.events == t.events[rowId := EventRow(t.events[rowId].event, true, Some(x))]
      && t'.changes == t.changes + if t.txs[x].status == FromText(e.status) then []
                                   else [Change(Webhook, x, t.txs[x].status, FromText(e.status))]
  {
    hide *;
    PickedRow(t, pick.value);
    ApplyWrites(t, rowId, e, pick, now);
  }

  lemma ApplyWrites(t: Tables, rowId: Id, e: Event, pick: Option<Id>, now: int)
    requires LatestForReference(t, e.account, e.providerReference, pick)
    requires pick.Some? && pick.value in t.attempts && t.attempts[pick.value].txId in t.txs && rowId in t.events
    requires t.txs[t.attempts[pick.value].txId].status != Absent && ApplyWebhook(t, rowId, e, pick, now).Ok?
    ensures
      var t', attId := ApplyWebhook(t, rowId, e, pick, now).value, pick.value;
      var x := t.attempts[attId].txId;
      OnlyRows(t, t', x, attId) && Stands(t', x, attId, FromText(e.status), e.providerReference, now)
      && t'.txs[x].payment == t.txs[x].payment && t'.txs[x].polls == t.txs[x].polls
      && t'.events == t.events[rowId := EventRow(t.events[rowId].event, true, Some(x))]
      && t'.changes == t.changes + if t.txs[x].status == FromText(e.status) then []
                                   else [Change(Webhook, x, t.txs[x].status, FromText(e.status))]
  {
    hide FromText, Edge, Matches, LatestForReference;
  }

  /** An event whose reference names no attempt waits. */
  lemma ApplyWaits(t: Tables, rowId: Id, e: Event, now: int)
    requires LatestForReference(t, e.account, e.providerReference, None)
    ensures ApplyWebhook(t, rowId, e, None, now) == Ok(t)
  {
  }

  /** A delivery of an event the account has none of with that key: stored unprocessed
      when its reference names nothing, and otherwise applied as a stored event is, or
      refused without being stored. */
  lemma HandleExact(t: Tables, rowId: Id, e: Event, pick: Option<Id>, now: int)
    requires LatestForReference(t, e.account, e.providerReference, pick) && rowId !in t.events
    requires forall r :: r in t.events && t.events[r].event.account == e.account ==>
      DedupeKey(t.events[r].event) != DedupeKey(e)
    ensures
      var stored := t.(events := t.events[rowId := EventRow(e, false, None)]);
      LatestForReference(stored, e.account, e.providerReference, pick)
      && HandleWebhook(t, rowId, e, pick, now) == ApplyWebhook(stored, rowId, e, pick, now)
      && (pick == None ==> HandleWebhook(t, rowId, e, pick, now) == Ok(stored))
  {
    hide DedupeKey;
  }

  /** A delivery the account has an event with the same key of changes nothing. */
  lemma HandleRepeated(t: Tables, rowId: Id, e: Event, pick: Option<Id>, now: int, r: Id)
    requires LatestForReference(t, e.account, e.providerReference, pick)
    requires r in t.events && t.events[r].event.account == e.account && DedupeKey(t.events[r].event) == DedupeKey(e)
    ensures HandleWebhook(t, rowId, e, pick, now) == Ok(t)
  {
    hide DedupeKey;
  }

  /** What verification lets through: an event with a reference, its codes in capitals. */
  lemma VerifiedExact(e: Event)
    ensures Verified(e).Some? <==> e.providerReference != ""
    ensures Verified(e).Some? ==>
      var v := Verified(e).value;
      v == Event(e.account, e.providerReference, e.eventType, e.status, e.externalReference, e.amount,
                 Text.ToUpper(e.currency), Text.ToUpper(e.country), e.customerAccount)
  {
  }
}
