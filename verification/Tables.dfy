/** The payment tables, and what each database transaction does to them.

    Every function here is one transaction: it yields the tables after commit, or
    the error after which everything is rolled back. Times are nanoseconds. Where
    a query may return any of several rows, the row it returned is a parameter. */
module Tables {
  import opened Wrappers
  import opened Statuses
  import Text

  /** A fresh row identifier. Only whether two are equal matters. */
  type Id = nat

  const MINUTE: int := 60_000_000_000

  // ---- rows -------------------------------------------------------------

  /** The columns of a transaction that are written once, when it is created. */
  datatype Payment = Payment(
    app: string, key: string, reference: string, hash: string,
    service: string, paymentMethod: string, amount: int, currency: string, country: string,
    account: string, customerAccount: string, providerFee: int, platformFee: int, createdAt: int)

  datatype TxRow = TxRow(
    payment: Payment,
    status: Status,
    providerReference: string,
    polls: nat,
    polledAt: Option<int>,
    nextPoll: Option<int>)

  datatype AttemptRow = AttemptRow(
    txId: Id,
    account: string,
    status: Status,
    providerReference: string,
    completedAt: Option<int>,
    createdAt: int)

  /** A provider callback; its status is still the adapter's text. */
  datatype Event = Event(
    account: string, providerReference: string, eventType: string, status: string,
    externalReference: string, amount: Option<int>, currency: string, country: string,
    customerAccount: string)

  datatype EventRow = EventRow(event: Event, processed: bool, txId: Option<Id>)

  datatype Source = Request | Webhook | Reconciliation

  /** A published status change. The log holds them in commit order. */
  datatype Change = Change(source: Source, txId: Id, previous: Status, status: Status)

  datatype Tables = Tables(
    txs: map<Id, TxRow>,
    attempts: map<Id, AttemptRow>,
    events: map<Id, EventRow>,
    changes: seq<Change>)

  const EMPTY := Tables(map[], map[], map[], [])

  // ---- creating and first settling a payment ----------------------------

  /** Some unique index refuses the row. */
  predicate Conflicts(t: Tables, txId: Id, p: Payment) {
    txId in t.txs
    || exists x :: x in t.txs && t.txs[x].payment.app == p.app
                   && (t.txs[x].payment.key == p.key || t.txs[x].payment.reference == p.reference)
  }

  function NewTx(p: Payment): TxRow {
    TxRow(p, Processing, "", 0, None, None)
  }

  function NewAttempt(p: Payment, txId: Id, now: int): AttemptRow {
    AttemptRow(txId, p.account, Processing, "", None, now)
  }

  function InsertPayment(t: Tables, p: Payment, txId: Id, attId: Id, now: int): Result<Tables> {
    if Conflicts(t, txId, p) || attId in t.attempts then Err(Refused)
    else Ok(t.(txs := t.txs[txId := NewTx(p)],
               attempts := t.attempts[attId := NewAttempt(p, txId, now)]))
  }

  predicate FindsByKey(t: Tables, app: string, key: string, found: Option<Id>) {
    match found
    case Some(x) => x in t.txs && t.txs[x].payment.app == app && t.txs[x].payment.key == key
    case None => forall x :: x in t.txs ==> !(t.txs[x].payment.app == app && t.txs[x].payment.key == key)
  }

  /** What came back from the provider: an error or no response at all, or a
      response with its reference and its own word for the status. */
  datatype Answer = Failure | Response(reference: string, word: string)

  function Target(answer: Answer): Status {
    match answer case Failure => Unknown case Response(_, word) => PaymentStatus(word)
  }

  function CompletedBy(status: Status, before: Option<int>, now: int): Option<int> {
    if Terminal(status) then Some(now) else before
  }

  function PollAfter(status: Status, at: int): Option<int> {
    if Terminal(status) then None else Some(at)
  }

  function PersistedTx(row: TxRow, status: Status, answer: Answer, now: int): TxRow {
    row.(status := status,
         providerReference := if answer.Response? then answer.reference else row.providerReference,
         nextPoll := PollAfter(status, now + MINUTE))
  }

  function PersistedAttempt(row: AttemptRow, status: Status, answer: Answer, now: int): AttemptRow {
    row.(status := status,
         providerReference := if answer.Response? then answer.reference else row.providerReference,
         completedAt := CompletedBy(status, row.completedAt, now))
  }

  /** Writes the provider's answer over whatever the rows hold: `memory` is the
      status of the request's own copy, not of the stored row. */
  function PersistPayment(t: Tables, txId: Id, attId: Id, memory: Status, answer: Answer, now: int): Result<Tables> {
    match Transition(memory, Target(answer))
    case None => Err(Refused)
    case Some(status) =>
      if attId !in t.attempts || txId !in t.txs then Err(NotFound)
      else Ok(t.(txs := t.txs[txId := PersistedTx(t.txs[txId], status, answer, now)],
                 attempts := t.attempts[attId := PersistedAttempt(t.attempts[attId], status, answer, now)],
                 changes := t.changes + [Change(Request, txId, Pending, status)]))
  }

  /** The answer to a repeated request: the stored transaction when it was the same
      request, an error otherwise. */
  function Replay(t: Tables, x: Id, hash: string): Option<Id>
    requires x in t.txs
  {
    if t.txs[x].payment.hash == hash then Some(x) else None
  }

  /** The tables after a transaction: unchanged when it failed. */
  function After(t: Tables, result: Result<Tables>): Tables {
    match result case Ok(t') => t' case Err(_) => t
  }

  // ---- webhooks ---------------------------------------------------------

  /** The text hashed to recognize a repeated delivery. SHA-256 is taken to be
      injective, so the model keeps the text itself. */
  function DedupeKey(e: Event): string {
    Text.Join(KeyFields(e), '|')
  }

  function KeyFields(e: Event): (fields: seq<string>)
    ensures |fields| == 7
  {
    [e.account, e.providerReference, e.eventType, e.status, e.externalReference,
     AmountText(e.amount), Text.ToUpper(e.currency)]
  }

  function AmountText(amount: Option<int>): string {
    match amount case None => "" case Some(n) => Text.FormatInt(n)
  }

  predicate Carries(row: AttemptRow, account: string, reference: string) {
    row.account == account && row.providerReference == reference
  }

  /** The attempt a provider reference names: of those carrying it, one of the
      most recent. */
  predicate LatestForReference(t: Tables, account: string, reference: string, pick: Option<Id>) {
    match pick
    case None =>
      forall a :: a in t.attempts ==> !Carries(t.attempts[a], account, reference)
    case Some(a) =>
      a in t.attempts && Carries(t.attempts[a], account, reference)
      && forall b :: b in t.attempts && Carries(t.attempts[b], account, reference)
           ==> t.attempts[b].createdAt <= t.attempts[a].createdAt
  }

  predicate Matches(e: Event, p: Payment) {
    (e.amount.Some? ==> e.amount.value == p.amount)
    && (e.currency != "" ==> Text.EqualFold(e.currency, p.currency))
    && (e.country != "" ==> Text.EqualFold(e.country, p.country))
    && (e.externalReference != "" ==> e.externalReference == p.reference)
    && (e.customerAccount != "" ==> e.customerAccount == p.customerAccount)
  }

  function NotedChange(source: Source, txId: Id, previous: Status, status: Status): seq<Change> {
    if previous == status then [] else [Change(source, txId, previous, status)]
  }

  function WebhookTx(row: TxRow, status: Status, reference: string, now: int): TxRow {
    row.(status := status, providerReference := reference, nextPoll := PollAfter(status, now + MINUTE))
  }

  function WebhookAttempt(row: AttemptRow, status: Status, reference: string, now: int): AttemptRow {
    row.(status := status, providerReference := reference,
         completedAt := CompletedBy(status, row.completedAt, now))
  }

  /** Applies a stored event to the transaction its reference names; leaves it
      pending when the reference names none. */
  function ApplyWebhook(t: Tables, rowId: Id, e: Event, pick: Option<Id>, now: int): Result<Tables>
    requires LatestForReference(t, e.account, e.providerReference, pick)
  {
    if pick.None? || t.attempts[pick.value].txId !in t.txs then Ok(t)
    else
      var attId := pick.value;
      var txId := t.attempts[attId].txId;
      var row := t.txs[txId];
      if !Matches(e, row.payment) then Err(Refused)
      else
        match Transition(row.status, FromText(e.status))
        case None => Err(Refused)
        case Some(status) =>
          if rowId !in t.events then Err(NotFound)
          else Ok(Tables(
            t.txs[txId := WebhookTx(row, status, e.providerReference, now)],
            t.attempts[attId := WebhookAttempt(t.attempts[attId], status, e.providerReference, now)],
            t.events[rowId := t.events[rowId].(processed := true, txId := Some(txId))],
            t.changes + NotedChange(Webhook, txId, row.status, status)))
  }

  predicate Stored(t: Tables, e: Event) {
    exists r :: r in t.events && t.events[r].event.account == e.account
                && DedupeKey(t.events[r].event) == DedupeKey(e)
  }

  function StoreEvent(t: Tables, rowId: Id, e: Event): Tables {
    t.(events := t.events[rowId := EventRow(e, false, None)])
  }

  /** One delivery: stored and applied together, or ignored when already stored. */
  function HandleWebhook(t: Tables, rowId: Id, e: Event, pick: Option<Id>, now: int): Result<Tables>
    requires LatestForReference(t, e.account, e.providerReference, pick)
  {
    if Stored(t, e) then Ok(t)
    else if rowId in t.events then Err(Refused)
    else ApplyWebhook(StoreEvent(t, rowId, e), rowId, e, pick, now)
  }

  /** What one adapter call reports, before the service trusts it: the event must
      name a reference, and its codes are upper-cased. */
  function Verified(e: Event): Option<Event> {
    if e.providerReference == "" then None
    else Some(e.(currency := Text.ToUpper(e.currency), country := Text.ToUpper(e.country)))
  }

  /** One turn of the reprocessing loop: the row it took with the event read from it,
      the attempt the query found for the event, and when. The row may be gone. */
  datatype Turn = Turn(rowId: Id, event: Event, pick: Option<Id>, now: int)

  predicate ValidTurn(t: Tables, turn: Turn) {
    LatestForReference(t, turn.event.account, turn.event.providerReference, turn.pick)
  }

  function TakeTurn(t: Tables, turn: Turn): Result<Tables>
    requires ValidTurn(t, turn)
  {
    ApplyWebhook(t, turn.rowId, turn.event, turn.pick, turn.now)
  }

  /** The turns of one pass, each on the tables the one before left. A refusal ends
      the pass, so it can only come last. */
  predicate Pass(t: Tables, turns: seq<Turn>)
    decreases |turns|
  {
    turns == []
    || (ValidTurn(t, turns[0])
        && var r := TakeTurn(t, turns[0]);
        if r == Err(Refused) then |turns| == 1
        else Pass(if r.Ok? then r.value else t, turns[1..]))
  }

  /** The tables after a pass, and whether it went through. */
  function Reprocess(t: Tables, turns: seq<Turn>): (Tables, bool)
    requires Pass(t, turns)
    decreases |turns|
  {
    if turns == [] then (t, true)
    else
      var r := TakeTurn(t, turns[0]);
      if r == Err(Refused) then (t, false)
      else Reprocess(if r.Ok? then r.value else t, turns[1..])
  }

  // ---- reconciliation ---------------------------------------------------

  predicate Due(row: TxRow, now: int) {
    (row.status.Pending? || row.status.Processing? || row.status.Unknown?)
    && row.providerReference != ""
    && (row.nextPoll.None? || row.nextPoll.value <= now)
  }

  function Backoff(attempt: int): int {
    var n := if attempt < 1 then 1 else if attempt > 6 then 6 else attempt;
    Power2(n - 1) * MINUTE
  }

  function Power2(k: nat): (r: nat)
    ensures r >= 1
  {
    if k == 0 then 1 else 2 * Power2(k - 1)
  }

  predicate Serves(row: AttemptRow, txId: Id, account: string) {
    row.txId == txId && row.account == account
  }

  /** A transaction's most recent attempt against one provider account. */
  predicate LatestForTransaction(t: Tables, txId: Id, account: string, pick: Option<Id>) {
    match pick
    case None => forall a :: a in t.attempts ==> !Serves(t.attempts[a], txId, account)
    case Some(a) =>
      a in t.attempts && Serves(t.attempts[a], txId, account)
      && forall b :: b in t.attempts && Serves(t.attempts[b], txId, account)
           ==> t.attempts[b].createdAt <= t.attempts[a].createdAt
  }

  function PolledTx(row: TxRow, status: Status, now: int): TxRow {
    row.(status := status, polls := row.polls + 1, polledAt := Some(now),
         nextPoll := PollAfter(status, now + Backoff(row.polls + 1)))
  }

  function PolledAttempt(row: AttemptRow, status: Status, now: int): AttemptRow {
    row.(status := status, completedAt := CompletedBy(status, row.completedAt, now))
  }

  /** Records what the provider answered about a transaction, unless it has
      settled since it was selected. */
  function RecordPoll(t: Tables, txId: Id, word: string, pick: Option<Id>, now: int): Result<Tables>
    requires txId in t.txs ==> LatestForTransaction(t, txId, t.txs[txId].payment.account, pick)
  {
    if txId !in t.txs then Err(NotFound)
    else if Terminal(t.txs[txId].status) then Ok(t)
    else
      var row := t.txs[txId];
      match Transition(row.status, PaymentStatus(word))
      case None => Err(Refused)
      case Some(status) =>
        if pick.None? then Err(NotFound)
        else Ok(t.(
          txs := t.txs[txId := PolledTx(row, status, now)],
          attempts := t.attempts[pick.value := PolledAttempt(t.attempts[pick.value], status, now)],
          changes := t.changes + NotedChange(Reconciliation, txId, row.status, status)))
  }

  function DeferredTx(row: TxRow, status: Status, now: int): TxRow {
    row.(status := status, polls := row.polls + 1, polledAt := Some(now),
         nextPoll := Some(now + Backoff(row.polls + 1)))
  }

  /** Records that the provider could not be asked: the transaction alone moves
      to unknown, its attempt keeps its status. */
  function DeferPoll(t: Tables, txId: Id, now: int): Result<Tables> {
    if txId !in t.txs then Err(NotFound)
    else if Terminal(t.txs[txId].status) then Ok(t)
    else
      var row := t.txs[txId];
      match Transition(row.status, Unknown)
      case None => Err(Refused)
      case Some(status) =>
        Ok(t.(txs := t.txs[txId := DeferredTx(row, status, now)],
              changes := t.changes + NotedChange(Reconciliation, txId, row.status, status)))
  }

  // ---- what the tables keep ---------------------------------------------

  /** The changes of one transaction, in commit order. */
  ghost function Path(changes: seq<Change>, txId: Id): seq<Change> {
    if changes == [] then []
    else
      var last := changes[|changes| - 1];
      Path(changes[..|changes| - 1], txId) + if last.txId == txId then [last] else []
  }

  lemma PathAppend(changes: seq<Change>, more: seq<Change>, txId: Id)
    requires |more| <= 1
    ensures Path(changes + more, txId) ==
            Path(changes, txId) + if more != [] && more[0].txId == txId then more else []
  {
    if more == [] {
      assert changes + more == changes;
    } else {
      assert (changes + more)[..|changes + more| - 1] == changes;
      assert [more[0]] == more;
    }
  }

  /** A gapless walk through the graph that starts with the request's own change
      out of pending. */
  ghost predicate Walk(path: seq<Change>) {
    (forall i :: 0 <= i < |path| ==> Edge(path[i].previous, path[i].status))
    && (path != [] ==> path[0].source == Request && path[0].previous == Pending)
    && (forall i :: 0 < i < |path| ==> path[i].source != Request)
    && (forall i :: 0 < i < |path| ==> path[i].previous == path[i - 1].status)
  }

  /** A transaction row against its own changes: untouched since its creation
      while there are none, and where the walk ended afterwards. */
  ghost predicate RowOk(row: TxRow, path: seq<Change>) {
    Normalized(row.status)
    && Walk(path)
    && (path == [] ==> row == NewTx(row.payment))
    && (path != [] ==> row.status == path[|path| - 1].status
                       && (row.nextPoll.None? <==> Terminal(row.status)))
  }

  /** A transaction against its attempt. */
  ghost predicate PairOk(row: TxRow, attempt: AttemptRow) {
    attempt.account == row.payment.account
    && attempt.providerReference == row.providerReference
    && (attempt.status == row.status || (row.status == Unknown && attempt.status == Processing))
    && (attempt.completedAt.Some? <==> Terminal(row.status))
  }

  ghost predicate Linked(t: Tables) {
    forall a :: a in t.attempts ==> t.attempts[a].txId in t.txs && PairOk(t.txs[t.attempts[a].txId], t.attempts[a])
  }

  ghost predicate HasAttempt(t: Tables, txId: Id) {
    exists a :: a in t.attempts && t.attempts[a].txId == txId
  }

  ghost predicate OneAttempt(t: Tables) {
    (forall a, b :: a in t.attempts && b in t.attempts && t.attempts[a].txId == t.attempts[b].txId ==> a == b)
    && (forall x :: x in t.txs ==> HasAttempt(t, x))
  }

  predicate SameKey(p: Payment, q: Payment) {
    p.app == q.app && p.key == q.key
  }

  predicate SameReference(p: Payment, q: Payment) {
    p.app == q.app && p.reference == q.reference
  }

  /** No two rows of one application share an idempotency key, or a reference. */
  ghost predicate OneKey(t: Tables) {
    (forall x, y :: x in t.txs && y in t.txs && SameKey(t.txs[x].payment, t.txs[y].payment) ==> x == y)
    && (forall x, y :: x in t.txs && y in t.txs && SameReference(t.txs[x].payment, t.txs[y].payment) ==> x == y)
  }

  ghost predicate Walked(t: Tables) {
    (forall x :: x in t.txs ==> RowOk(t.txs[x], Path(t.changes, x)))
    && (forall x :: x !in t.txs ==> Path(t.changes, x) == [])
  }

  ghost predicate Addressed(t: Tables) {
    forall r :: r in t.events ==> t.events[r].event.providerReference != ""
  }

  ghost predicate Sound(t: Tables) {
    Linked(t) && OneAttempt(t) && OneKey(t) && Walked(t) && Addressed(t)
  }

  // ---- every transaction keeps it ---------------------------------------

  /** Moving one transaction, its attempt and at most one logged change. */
  ghost function Moved(t: Tables, txId: Id, attId: Id, row: TxRow, attempt: AttemptRow, noted: seq<Change>): Tables {
    t.(txs := t.txs[txId := row], attempts := t.attempts[attId := attempt], changes := t.changes + noted)
  }

  lemma MovedWalked(t: Tables, txId: Id, attId: Id, row: TxRow, attempt: AttemptRow, noted: seq<Change>)
    requires Walked(t) && txId in t.txs
    requires |noted| <= 1 && (noted != [] ==> noted[0].txId == txId)
    requires RowOk(row, Path(t.changes, txId) + noted)
    ensures Walked(Moved(t, txId, attId, row, attempt, noted))
  {
    hide Path, RowOk;
    var t' := Moved(t, txId, attId, row, attempt, noted);
    forall x
      ensures Path(t'.changes, x) == Path(t.changes, x) + if x == txId then noted else []
      ensures x != txId ==> Path(t'.changes, x) == Path(t.changes, x)
    {
      PathAppend(t.changes, noted, x);
    }
  }

  lemma AttemptsKept(t: Tables, t': Tables)
    requires OneAttempt(t) && t'.txs.Keys == t.txs.Keys && t'.attempts.Keys == t.attempts.Keys
    requires forall a :: a in t.attempts ==> t'.attempts[a].txId == t.attempts[a].txId
    ensures OneAttempt(t')
  {
  }

  lemma MovedKeys(t: Tables, t': Tables)
    requires OneKey(t) && t'.txs.Keys == t.txs.Keys
    requires forall x :: x in t.txs ==> t'.txs[x].payment == t.txs[x].payment
    ensures OneKey(t')
  {
  }

  lemma MovedSound(t: Tables, txId: Id, attId: Id, row: TxRow, attempt: AttemptRow, noted: seq<Change>)
    requires Sound(t)
    requires txId in t.txs && attId in t.attempts && t.attempts[attId].txId == txId
    requires row.payment == t.txs[txId].payment && attempt.txId == txId && PairOk(row, attempt)
    requires |noted| <= 1 && (noted != [] ==> noted[0].txId == txId)
    requires RowOk(row, Path(t.changes, txId) + noted)
    ensures Sound(Moved(t, txId, attId, row, attempt, noted))
  {
    hide Path, RowOk, PairOk, Walked, OneAttempt, OneKey;
    var t' := Moved(t, txId, attId, row, attempt, noted);
    MovedKeys(t, t');
    MovedWalked(t, txId, attId, row, attempt, noted);
    assert t'.txs.Keys == t.txs.Keys && t'.attempts.Keys == t.attempts.Keys;
    AttemptsKept(t, t');
    OnlyAttempt(t, attId);
    assert Linked(t');
  }

  lemma OnlyAttempt(t: Tables, attId: Id)
    requires OneAttempt(t) && attId in t.attempts
    ensures forall a :: a in t.attempts && t.attempts[a].txId == t.attempts[attId].txId ==> a == attId
  {
  }

  lemma InsertedAttempts(t: Tables, p: Payment, txId: Id, attId: Id, now: int)
    requires Linked(t) && OneAttempt(t) && InsertPayment(t, p, txId, attId, now).Ok?
    ensures OneAttempt(InsertPayment(t, p, txId, attId, now).value)
  {
    hide PairOk;
    var t' := InsertPayment(t, p, txId, attId, now).value;
    forall x | x in t'.txs
      ensures HasAttempt(t', x)
    {
      if x == txId {
        assert attId in t'.attempts && t'.attempts[attId].txId == x;
      } else {
        assert HasAttempt(t, x);
        var a :| a in t.attempts && t.attempts[a].txId == x;
        assert a in t'.attempts && t'.attempts[a].txId == x;
      }
    }
  }

  lemma InsertSound(t: Tables, p: Payment, txId: Id, attId: Id, now: int)
    requires Sound(t) && InsertPayment(t, p, txId, attId, now).Ok?
    ensures Sound(InsertPayment(t, p, txId, attId, now).value)
  {
    hide Path, RowOk, PairOk, OneAttempt, OneKey;
    InsertedAttempts(t, p, txId, attId, now);
    InsertedKeys(t, p, txId, attId, now);
    NewRowsOk(p, txId, now);
  }

  lemma InsertedKeys(t: Tables, p: Payment, txId: Id, attId: Id, now: int)
    requires OneKey(t) && InsertPayment(t, p, txId, attId, now).Ok?
    ensures OneKey(InsertPayment(t, p, txId, attId, now).value)
  {
  }

  lemma NewRowsOk(p: Payment, txId: Id, now: int)
    ensures RowOk(NewTx(p), []) && PairOk(NewTx(p), NewAttempt(p, txId, now))
  {
  }

  /** The request's own rows, still as it created them. */
  ghost predicate Untouched(t: Tables, txId: Id, attId: Id) {
    txId in t.txs && attId in t.attempts && t.attempts[attId].txId == txId && Path(t.changes, txId) == []
  }

  lemma PersistTarget(answer: Answer)
    ensures Normalized(Target(answer)) && Edge(Pending, Target(answer))
    ensures Transition(Processing, Target(answer)) == Some(Target(answer))
  {
  }

  lemma PersistedRowsOk(row: TxRow, attempt: AttemptRow, status: Status, answer: Answer, now: int, change: Change)
    requires RowOk(row, []) && PairOk(row, attempt)
    requires Normalized(status) && change.source == Request && change.previous == Pending && change.status == status
    ensures RowOk(PersistedTx(row, status, answer, now), [change])
    ensures PairOk(PersistedTx(row, status, answer, now), PersistedAttempt(attempt, status, answer, now))
  {
  }

  /** The unconditional write is safe exactly because the rows are untouched. */
  lemma PersistSound(t: Tables, txId: Id, attId: Id, answer: Answer, now: int)
    requires Sound(t) && Untouched(t, txId, attId)
    ensures PersistPayment(t, txId, attId, Processing, answer, now).Ok?
    ensures Sound(PersistPayment(t, txId, attId, Processing, answer, now).value)
  {
    hide PaymentStatus, Path, RowOk, PairOk, OneAttempt, OneKey, Addressed, PersistedTx, PersistedAttempt;
    var status := Target(answer);
    var change := Change(Request, txId, Pending, status);
    PersistTarget(answer);
    PersistedRowsOk(t.txs[txId], t.attempts[attId], status, answer, now, change);
    assert [] + [change] == [change];
    PersistedKeeps(t.txs[txId], t.attempts[attId], status, answer, now);
    MovedSound(t, txId, attId, PersistedTx(t.txs[txId], status, answer, now),
               PersistedAttempt(t.attempts[attId], status, answer, now), [change]);
  }

  lemma PersistedKeeps(row: TxRow, attempt: AttemptRow, status: Status, answer: Answer, now: int)
    ensures PersistedTx(row, status, answer, now).payment == row.payment
    ensures PersistedAttempt(attempt, status, answer, now).txId == attempt.txId
  {
  }

  /** A row a webhook or a poll can reach has been published. */
  lemma Published(t: Tables, txId: Id)
    requires Sound(t) && txId in t.txs && t.txs[txId].providerReference != ""
    ensures Path(t.changes, txId) != []
  {
  }

  /** A published row that moves along the graph, or stays, keeps its walk. */
  lemma WalkOn(row: TxRow, path: seq<Change>, row': TxRow, source: Source, txId: Id)
    requires RowOk(row, path) && path != [] && source != Request
    requires Transition(row.status, row'.status) == Some(row'.status) && Normalized(row'.status)
    requires row'.nextPoll.None? <==> Terminal(row'.status)
    ensures RowOk(row', path + NotedChange(source, txId, row.status, row'.status))
  {
  }

  lemma TransitionNormalized(status: Status, next: Status)
    requires Normalized(status) && Transition(status, next).Some?
    ensures Normalized(Transition(status, next).value)
    ensures Transition(status, Transition(status, next).value) == Transition(status, next)
  {
  }

  /** Only the addresses of the stored events matter. */
  lemma EventsSound(t: Tables, events: map<Id, EventRow>)
    requires Sound(t)
    requires forall r :: r in events ==> events[r].event.providerReference != ""
    ensures Sound(t.(events := events))
  {
    hide Path, RowOk, PairOk;
    AttemptsKept(t, t.(events := events));
  }

  lemma WebhookSound(t: Tables, rowId: Id, e: Event, pick: Option<Id>, now: int)
    requires Sound(t) && e.providerReference != ""
    requires LatestForReference(t, e.account, e.providerReference, pick)
    requires ApplyWebhook(t, rowId, e, pick, now).Ok?
    ensures Sound(ApplyWebhook(t, rowId, e, pick, now).value)
  {
    hide FromText, Path, Walk, OneKey, Matches, OneAttempt, Walked, NewTx;
    if pick.Some? {
      var attId := pick.value;
      var txId := t.attempts[attId].txId;
      var row, attempt := t.txs[txId], t.attempts[attId];
      assert PairOk(row, attempt);
      var status := Transition(row.status, FromText(e.status)).value;
      Published(t, txId);
      TheRow(t, txId);
      TransitionNormalized(row.status, FromText(e.status));
      var row', attempt' := WebhookTx(row, status, e.providerReference, now),
                            WebhookAttempt(attempt, status, e.providerReference, now);
      var noted := NotedChange(Webhook, txId, row.status, status);
      WalkOn(row, Path(t.changes, txId), row', Webhook, txId);
      MovedSound(t, txId, attId, row', attempt', noted);
      var t' := ApplyWebhook(t, rowId, e, pick, now).value;
      EventsSound(Moved(t, txId, attId, row', attempt', noted), t'.events);
    }
  }

  lemma TheAttempt(t: Tables, txId: Id) returns (a: Id)
    requires Sound(t) && txId in t.txs
    ensures a in t.attempts && t.attempts[a].txId == txId && PairOk(t.txs[txId], t.attempts[a])
    ensures forall b :: b in t.attempts && t.attempts[b].txId == txId ==> b == a
  {
    hide Path, PairOk, RowOk;
    assert HasAttempt(t, txId);
    a :| a in t.attempts && t.attempts[a].txId == txId;
  }

  lemma TheRow(t: Tables, txId: Id)
    requires Sound(t) && txId in t.txs
    ensures RowOk(t.txs[txId], Path(t.changes, txId))
  {
  }

  /** Recording a poll of a published row cannot fail. */
  lemma PollSound(t: Tables, txId: Id, word: string, pick: Option<Id>, now: int)
    requires Sound(t) && txId in t.txs && t.txs[txId].providerReference != ""
    requires LatestForTransaction(t, txId, t.txs[txId].payment.account, pick)
    ensures RecordPoll(t, txId, word, pick, now).Ok?
    ensures Sound(RecordPoll(t, txId, word, pick, now).value)
  {
    hide PaymentStatus, Path, Walk, Sound, Backoff, NewTx;
    var a := TheAttempt(t, txId);
    var row := t.txs[txId];
    assert Serves(t.attempts[a], txId, row.payment.account);
    assert pick == Some(a);
    Published(t, txId);
    TheRow(t, txId);
    if !Terminal(row.status) {
      var status := PaymentStatus(word);
      LiveTakesNormalized(row.status, status);
      var row', attempt' := PolledTx(row, status, now), PolledAttempt(t.attempts[a], status, now);
      WalkOn(row, Path(t.changes, txId), row', Reconciliation, txId);
      MovedSound(t, txId, a, row', attempt', NotedChange(Reconciliation, txId, row.status, status));
    }
  }

  lemma DeferSound(t: Tables, txId: Id, now: int)
    requires Sound(t) && txId in t.txs && t.txs[txId].providerReference != ""
    ensures DeferPoll(t, txId, now).Ok?
    ensures Sound(DeferPoll(t, txId, now).value)
  {
    hide Path, Walk, Sound, Backoff, NewTx;
    var a := TheAttempt(t, txId);
    var row := t.txs[txId];
    Published(t, txId);
    TheRow(t, txId);
    if !Terminal(row.status) {
      LiveTakesNormalized(row.status, Unknown);
      var row', noted := DeferredTx(row, Unknown, now), NotedChange(Reconciliation, txId, row.status, Unknown);
      WalkOn(row, Path(t.changes, txId), row', Reconciliation, txId);
      MovedSound(t, txId, a, row', t.attempts[a], noted);
      assert t.attempts[a := t.attempts[a]] == t.attempts;
    }
  }
}
