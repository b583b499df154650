/** When a transaction is polled, in runs with one reconciliation worker, no
    webhooks and a clock that never goes back. */
module PollSchedule {
  import opened Wrappers
  import opened Statuses
  import opened Tables
  import opened Settlement
  import opened SettlementSafety

  function TimeOf(a: Action): Option<int> {
    match a
    case Insert(_, now, _) => Some(now)
    case Persist(_, now, _) => Some(now)
    case Select(_, _, now) => Some(now)
    case Poll(_, _, _, now) => Some(now)
    case Defer(_, now) => Some(now)
    case Deliver(_, _, _, now) => Some(now)
    case Reapply(_, _, now) => Some(now)
    case _ => None
  }

  predicate Clocked(actions: seq<Action>) {
    forall i, j :: 0 <= i <= j < |actions| && TimeOf(actions[i]).Some? && TimeOf(actions[j]).Some? ==>
      TimeOf(actions[i]).value <= TimeOf(actions[j]).value
  }

  /** Nothing from webhooks, and one reconciliation worker: it may hold a whole batch
      of selected transactions, but selects none it already holds. */
  predicate Alone(states: seq<State>, actions: seq<Action>)
    requires |states| == |actions| + 1
  {
    forall i :: 0 <= i < |actions| ==> Solo(states[i], actions[i])
  }

  predicate Solo(s: State, a: Action) {
    match a
    case Deliver(_, _, _, _) => false
    case Reapply(_, _, _) => false
    case Select(_, txId, _) => forall w :: w in s.workers ==> s.workers[w] != Polling(txId)
    case _ => true
  }

  /** Minutes a transaction has been waited for when its poll number k + 1 is due. */
  function Floor(k: nat): int {
    if k <= 6 then Power2(k) else 64 + 32 * (k - 6)
  }

  lemma FloorStep(k: nat)
    ensures Floor(k) * MINUTE + Backoff(k + 1) == Floor(k + 1) * MINUTE
  {
    assert Power2(1) == 2 && Power2(2) == 4 && Power2(3) == 8 && Power2(4) == 16 && Power2(5) == 32 && Power2(6) == 64;
    assert k <= 5 ==> Power2(k + 1) == 2 * Power2(k);
  }

  /** The first polls back off by doubling; every later one waits half an hour more. */
  lemma FloorShape(k: nat)
    ensures k <= 6 ==> Floor(k) == Power2(k)
    ensures k >= 6 ==> Floor(k + 1) == Floor(k) + 32 && Backoff(k) == 32 * MINUTE
  {
    assert Power2(5) == 32 && Power2(6) == 64;
  }

  /** The next poll is no earlier than the schedule counted from `start`, and no
      earlier than the last poll plus its backoff. */
  predicate OnSchedule(row: TxRow, start: int) {
    Terminal(row.status)
    || (row.nextPoll.Some?
        && row.nextPoll.value >= start + Floor(row.polls) * MINUTE
        && (row.polls > 0 ==> row.polledAt.Some? && row.nextPoll.value == row.polledAt.value + Backoff(row.polls)))
  }

  /** The transaction is held once at most, and only when its time had come. */
  ghost predicate DueWork(s: State, x: Id, past: seq<Action>)
    requires x in s.t.txs
  {
    (forall w :: w in s.workers && s.workers[w] == Polling(x) && !Terminal(s.t.txs[x].status) ==>
       s.t.txs[x].nextPoll.Some? && Passed(past, s.t.txs[x].nextPoll.value))
    && (forall w, v :: w in s.workers && v in s.workers && s.workers[w] == s.workers[v] == Polling(x) ==> w == v)
  }

  ghost predicate Passed(past: seq<Action>, at: int) {
    exists i :: 0 <= i < |past| && TimeOf(past[i]).Some? && at <= TimeOf(past[i]).value
  }

  lemma PassedGrows(past: seq<Action>, a: Action, at: int)
    requires Passed(past, at)
    ensures Passed(past + [a], at)
  {
    var i :| 0 <= i < |past| && TimeOf(past[i]).Some? && at <= TimeOf(past[i]).value;
    assert (past + [a])[i] == past[i];
  }

  /** A step in which the worker records a poll of this row. */
  predicate Records(s: State, a: Action, x: Id) {
    (a.Poll? || a.Defer?) && a.w in s.workers && s.workers[a.w] == Polling(x)
    && x in s.t.txs && !Terminal(s.t.txs[x].status)
  }

  ghost predicate Recorded(row: TxRow, row': TxRow, now: int) {
    exists status :: row' == PolledTx(row, status, now) || row' == DeferredTx(row, status, now)
  }

  lemma RecordsRow(s: State, a: Action, s': State, x: Id)
    requires Inv(s) && Next(s, a, s') && Records(s, a, x)
    ensures x in s'.t.txs && Recorded(s.t.txs[x], s'.t.txs[x], a.now)
  {
    WorkFacts(s, a.w);
    RecordsTables(s, a, s', x);
    hide *;
    if a.Poll? {
      PolledRow(s.t, x, a.word, a.pick, a.now);
    } else {
      DeferredRow(s.t, x, a.now);
    }
  }

  lemma RecordsTables(s: State, a: Action, s': State, x: Id)
    requires Next(s, a, s') && Records(s, a, x)
    ensures a.Poll? ==> LatestForTransaction(s.t, x, s.t.txs[x].payment.account, a.pick)
    ensures a.Poll? ==> s'.t == After(s.t, RecordPoll(s.t, x, a.word, a.pick, a.now))
    ensures a.Defer? ==> s'.t == After(s.t, DeferPoll(s.t, x, a.now))
  {
    hide RecordPoll, DeferPoll, LatestForTransaction, Recorded, After;
  }

  lemma PolledRow(t: Tables, x: Id, word: string, pick: Option<Id>, now: int)
    requires Sound(t) && x in t.txs && t.txs[x].providerReference != "" && !Terminal(t.txs[x].status)
    requires LatestForTransaction(t, x, t.txs[x].payment.account, pick)
    ensures var t' := After(t, RecordPoll(t, x, word, pick, now)); x in t'.txs && Recorded(t.txs[x], t'.txs[x], now)
  {
    PollSound(t, x, word, pick, now);
    hide Path, Sound, PolledTx, DeferredTx, PaymentStatus, LatestForTransaction, Transition;
    var status := Transition(t.txs[x].status, PaymentStatus(word)).value;
    assert After(t, RecordPoll(t, x, word, pick, now)).txs[x] == PolledTx(t.txs[x], status, now);
  }

  lemma DeferredRow(t: Tables, x: Id, now: int)
    requires Sound(t) && x in t.txs && t.txs[x].providerReference != "" && !Terminal(t.txs[x].status)
    ensures var t' := After(t, DeferPoll(t, x, now)); x in t'.txs && Recorded(t.txs[x], t'.txs[x], now)
  {
    DeferSound(t, x, now);
    hide Path, Sound, PolledTx, DeferredTx, Transition;
    var status := Transition(t.txs[x].status, Unknown).value;
    assert After(t, DeferPoll(t, x, now)).txs[x] == DeferredTx(t.txs[x], status, now);
  }

  lemma OtherInsert(t: Tables, x: Id, q: Phase, now: int)
    requires x in t.txs && q.Ready?
    ensures var t' := After(t, InsertPayment(t, q.p, q.txId, q.attId, now)); x in t'.txs && t'.txs[x] == t.txs[x]
  {
    hide NewTx, NewAttempt;
  }

  lemma OtherPersist(t: Tables, x: Id, q: Phase, now: int)
    requires x in t.txs && q.Answered? && q.txId != x
    ensures
      var t' := After(t, PersistPayment(t, q.txId, q.attId, Processing, q.answer, now));
      x in t'.txs && t'.txs[x] == t.txs[x]
  {
    hide PersistedTx, PersistedAttempt, Transition, PaymentStatus;
  }

  lemma OtherPoll(t: Tables, x: Id, y: Id, word: string, pick: Option<Id>, now: int)
    requires x in t.txs && (y != x || Terminal(t.txs[x].status))
    requires y in t.txs ==> LatestForTransaction(t, y, t.txs[y].payment.account, pick)
    ensures var t' := After(t, RecordPoll(t, y, word, pick, now)); x in t'.txs && t'.txs[x] == t.txs[x]
  {
    hide PolledTx, PolledAttempt, Transition, PaymentStatus, LatestForTransaction;
  }

  lemma OtherDefer(t: Tables, x: Id, y: Id, now: int)
    requires x in t.txs && (y != x || Terminal(t.txs[x].status))
    ensures var t' := After(t, DeferPoll(t, y, now)); x in t'.txs && t'.txs[x] == t.txs[x]
  {
    hide DeferredTx, Transition;
  }

  /** No other step touches a published row. */
  lemma PublishedRowStays(s: State, a: Action, s': State, x: Id)
    requires Inv(s) && Next(s, a, s') && Solo(s, a) && !Records(s, a, x)
    requires x in s.t.txs && Path(s.t.changes, x) != []
    ensures x in s'.t.txs && s'.t.txs[x] == s.t.txs[x]
  {
    hide Inv, Path, RecordPoll, DeferPoll, PersistPayment, InsertPayment, LatestForTransaction, Terminal;
    if a.Poll? {
      OtherPoll(s.t, x, s.workers[a.w].txId, a.word, a.pick, a.now);
    } else if a.Defer? {
      OtherDefer(s.t, x, s.workers[a.w].txId, a.now);
    } else if a.Insert? {
      OtherInsert(s.t, x, s.requests[a.r], a.now);
    } else if a.Persist? {
      PersistsAnother(s, a.r, x);
      OtherPersist(s.t, x, s.requests[a.r], a.now);
    }
  }

  lemma PersistsAnother(s: State, r: nat, x: Id)
    requires Inv(s) && r in s.requests && s.requests[r].Answered? && Path(s.t.changes, x) != []
    ensures s.requests[r].txId != x
  {
    hide Inv, Path, Sound;
    OwnedRow(s, r);
  }

  /** A recorded poll is on time, and leaves the row on schedule. */
  lemma RecordedOnTime(row: TxRow, row': TxRow, status: Status, start: int, now: int)
    requires OnSchedule(row, start) && !Terminal(row.status) && row.nextPoll.value <= now
    requires row' == PolledTx(row, status, now) || row' == DeferredTx(row, status, now)
    ensures OnSchedule(row', start) && OnTime(row, row', start, now)
  {
    FloorStep(row.polls);
    hide Floor, Backoff;
  }

  /** The state just after a persist, and every later one, keep the schedule. */
  lemma {:induction false} ScheduleKept(states: seq<State>, actions: seq<Action>, p: nat, i: nat, x: Id)
    requires Run(states, actions) && Clocked(actions) && Alone(states, actions)
    requires p < i < |states| && PersistOf(states[p], actions[p], x)
    ensures x in states[i].t.txs && Path(states[i].t.changes, x) != []
    ensures OnSchedule(states[i].t.txs[x], actions[p].now)
    ensures DueWork(states[i], x, actions[..i])
    decreases i
  {
    hide Inv, Next, Path, Power2, OnSchedule, DueWork, OnTime, Records;
    var s, a := states[i - 1], actions[i - 1];
    RunInv(states, actions, i - 1);
    assert Next(s, a, states[i]) && Solo(s, a);
    if i == p + 1 {
      FirstSchedule(s, a, states[i], x, actions[..i]);
    } else {
      ScheduleKept(states, actions, p, i - 1, x);
      assert actions[..i] == actions[..i - 1] + [a];
      PathGrows(states, actions, i - 1, i, x);
      OneStepSchedule(s, a, states[i], x, actions[p].now, actions[..i - 1]);
    }
  }

  predicate PersistOf(s: State, a: Action, x: Id) {
    a.Persist? && a.r in s.requests && s.requests[a.r].Answered? && s.requests[a.r].txId == x
  }

  lemma PathGrows(states: seq<State>, actions: seq<Action>, i: nat, j: nat, x: Id)
    requires Run(states, actions) && i <= j < |states| && Path(states[i].t.changes, x) != []
    ensures Path(states[j].t.changes, x) != []
  {
    hide Path, Run;
    RunStable(states, actions, i, j);
    var c, d := states[i].t.changes, states[j].t.changes;
    assert d == c + d[|c|..];
    PathPrefix(c, d[|c|..], x);
  }

  lemma {:induction false} PathPrefix(c: seq<Change>, more: seq<Change>, x: Id)
    requires Path(c, x) != []
    ensures Path(c + more, x) != []
    decreases |more|
  {
    if more == [] {
      assert c + more == c;
    } else {
      PathPrefix(c, more[..|more| - 1], x);
      assert c + more == (c + more[..|more| - 1]) + [more[|more| - 1]];
      PathAppend(c + more[..|more| - 1], [more[|more| - 1]], x);
    }
  }

  lemma FirstSchedule(s: State, a: Action, s': State, x: Id, past: seq<Action>)
    requires Inv(s) && PersistOf(s, a, x) && Next(s, a, s')
    ensures x in s'.t.txs && Path(s'.t.changes, x) != []
    ensures OnSchedule(s'.t.txs[x], a.now)
    ensures DueWork(s', x, past)
  {
    hide Path, Sound, RequestsOk, CallsOk, RepliesOk, PaymentStatus, Transition;
    var attId := s.requests[a.r].attId;
    OwnedRow(s, a.r);
    UntouchedUnpublished(s.t, x, attId);
    UntouchedRow(s.t, x, attId);
    assert forall w :: w in s.workers ==> WorkOk(s.t, s.workers[w]);
    var change := s'.t.changes[|s.t.changes|];
    assert s'.t.changes == s.t.changes + [change];
    PathAppend(s.t.changes, [change], x);
    assert Floor(0) == 1;
  }

  lemma UntouchedRow(t: Tables, x: Id, attId: Id)
    requires Sound(t) && Untouched(t, x, attId)
    ensures t.txs[x].polls == 0
  {
  }

  lemma StillDue(s: State, a: Action, s': State, x: Id, past: seq<Action>)
    requires Next(s, a, s') && Solo(s, a) && !Records(s, a, x)
    requires x in s.t.txs && x in s'.t.txs && s'.t.txs[x] == s.t.txs[x]
    requires Terminal(s.t.txs[x].status) || s.t.txs[x].nextPoll.Some?
    requires DueWork(s, x, past)
    ensures DueWork(s', x, past + [a])
  {
    hide Passed, RecordPoll, DeferPoll, PersistPayment, InsertPayment, LatestForTransaction;
    var row := s.t.txs[x];
    forall w | w in s'.workers && s'.workers[w] == Polling(x) && !Terminal(row.status)
      ensures Passed(past + [a], row.nextPoll.value)
    {
      if w in s.workers && s.workers[w] == Polling(x) {
        PassedGrows(past, a, row.nextPoll.value);
      } else {
        PassedNow(past, a, row.nextPoll.value);
      }
    }
  }

  lemma PassedNow(past: seq<Action>, a: Action, at: int)
    requires TimeOf(a).Some? && at <= TimeOf(a).value
    ensures Passed(past + [a], at)
  {
    assert (past + [a])[|past|] == a;
  }

  lemma OneStepSchedule(s: State, a: Action, s': State, x: Id, start: int, past: seq<Action>)
    requires Inv(s) && Next(s, a, s') && Solo(s, a)
    requires x in s.t.txs && Path(s.t.changes, x) != []
    requires OnSchedule(s.t.txs[x], start) && DueWork(s, x, past)
    requires forall i :: 0 <= i < |past| && TimeOf(past[i]).Some? && TimeOf(a).Some? ==>
               TimeOf(past[i]).value <= TimeOf(a).value
    ensures x in s'.t.txs && OnSchedule(s'.t.txs[x], start)
    ensures DueWork(s', x, past + [a])
    ensures Records(s, a, x) ==> OnTime(s.t.txs[x], s'.t.txs[x], start, a.now)
  {
    hide Inv, Path, Floor, Backoff, PolledTx, DeferredTx, RecordPoll, DeferPoll, PersistPayment, InsertPayment;
    if Records(s, a, x) {
      RecordsRow(s, a, s', x);
      var row := s.t.txs[x];
      var status :| s'.t.txs[x] == PolledTx(row, status, a.now) || s'.t.txs[x] == DeferredTx(row, status, a.now);
      RecordedOnTime(row, s'.t.txs[x], status, start, a.now);
    } else {
      PublishedRowStays(s, a, s', x);
      StillDue(s, a, s', x, past);
    }
  }

  /** Poll number n comes at least the first n minutes of the schedule after the
      persist, and at least its backoff after the poll before. */
  predicate OnTime(row: TxRow, row': TxRow, start: int, now: int) {
    row'.polls == row.polls + 1
    && now >= start + Floor(row.polls) * MINUTE
    && (row.polls > 0 ==> row.polledAt.Some? && now >= row.polledAt.value + Backoff(row.polls))
  }

  /** The nth recorded poll of a transaction comes 2^(n-1) minutes or more after its
      persist for n up to seven, and for every later n half an hour and more after
      the poll before it. */
  lemma PollsOnTime(states: seq<State>, actions: seq<Action>, p: nat, i: nat, x: Id)
    requires Run(states, actions) && Clocked(actions) && Alone(states, actions)
    requires p < i < |actions| && PersistOf(states[p], actions[p], x)
    requires Records(states[i], actions[i], x)
    ensures
      var n, now := states[i].t.txs[x].polls + 1, actions[i].now;
      x in states[i + 1].t.txs && states[i + 1].t.txs[x].polls == n
      && (n <= 7 ==> now >= actions[p].now + Power2(n - 1) * MINUTE)
      && (n > 7 ==> states[i].t.txs[x].polledAt.Some? && now >= states[i].t.txs[x].polledAt.value + 32 * MINUTE)
  {
    hide Inv, Next, Path, Power2, OnSchedule, DueWork, Solo, Alone;
    ScheduleKept(states, actions, p, i, x);
    RunInv(states, actions, i);
    StepAlone(states, actions, i);
    OneStepSchedule(states[i], actions[i], states[i + 1], x, actions[p].now, actions[..i]);
    FloorShape(states[i].t.txs[x].polls);
  }

  lemma StepAlone(states: seq<State>, actions: seq<Action>, i: nat)
    requires Run(states, actions) && Alone(states, actions) && i < |actions|
    ensures Next(states[i], actions[i], states[i + 1]) && Solo(states[i], actions[i])
  {
  }
}
