/** The simulated provider: payments that settle after so many queries or by webhook,
    and a balance each of them moves once. */
module DummyLedger {
  import opened Wrappers
  import opened Text
  import opened Statuses

  datatype Outcome = Succeed | Fail | StayPending | StayUnknown | Error

  datatype Config = Config(ready: bool, outcome: Outcome, settleAfter: nat, failInit: bool, services: seq<string>,
                           currency: string, balance: int)

  datatype Record = Record(service: string, amount: int, currency: string, status: Status, final: Status,
                           remaining: nat, applied: bool)

  function Reference(transaction: string): string {
    "dummy_" + transaction
  }

  function Settled(outcome: Outcome): Status {
    match outcome
    case Fail => Status.Failed
    case StayPending => Pending
    case StayUnknown => Unknown
    case _ => Succeeded
  }

  // ---- the money --------------------------------------------------------

  /** One movement of the balance, by the `serial`-th payment accepted. */
  datatype Move = Move(serial: nat, debit: bool, amount: int)

  /** A debit stops at zero; a credit wraps around at 64 bits. */
  function Shift(balance: int, move: Move): (r: int)
    ensures InInt64(r)
  {
    var moved := Wrap64(if move.debit then balance - move.amount else balance + move.amount);
    if move.debit && moved < 0 then 0 else moved
  }

  function Fold(opening: int, moves: seq<Move>): int {
    if moves == [] then opening else Shift(Fold(opening, moves[..|moves| - 1]), moves[|moves| - 1])
  }

  function Net(moves: seq<Move>): int {
    if moves == [] then 0
    else
      var last := moves[|moves| - 1];
      Net(moves[..|moves| - 1]) + if last.debit then -last.amount else last.amount
  }

  predicate Positive(moves: seq<Move>) {
    forall i :: 0 <= i < |moves| ==> 0 <= moves[i].amount <= MAX_INT64
  }

  /** The credit at `i` does not overflow. */
  predicate Fits(opening: int, moves: seq<Move>, i: nat)
    requires i < |moves|
  {
    moves[i].debit || Fold(opening, moves[..i]) + moves[i].amount <= MAX_INT64
  }

  predicate Covered(opening: int, moves: seq<Move>, i: nat)
    requires i < |moves|
  {
    moves[i].debit ==> moves[i].amount <= Fold(opening, moves[..i])
  }

  lemma ShiftSign(balance: int, move: Move)
    requires 0 <= balance <= MAX_INT64 && 0 <= move.amount <= MAX_INT64
    ensures Shift(balance, move) >= 0 <==> move.debit || balance + move.amount <= MAX_INT64
    ensures Shift(balance, move) >= 0 ==>
      Shift(balance, move)
      == if move.debit then (if move.amount <= balance then balance - move.amount else 0) else balance + move.amount
  {
  }

  ghost predicate AllFit(opening: int, moves: seq<Move>) {
    forall i :: 0 <= i < |moves| ==> Fits(opening, moves, i)
  }

  ghost predicate StaysUp(opening: int, moves: seq<Move>) {
    forall k :: 0 <= k <= |moves| ==> Fold(opening, moves[..k]) >= 0
  }

  lemma Shorter(opening: int, moves: seq<Move>, n: nat)
    requires |moves| == n + 1
    ensures AllFit(opening, moves) <==> AllFit(opening, moves[..n]) && Fits(opening, moves, n)
    ensures StaysUp(opening, moves) <==> StaysUp(opening, moves[..n]) && Fold(opening, moves) >= 0
  {
    hide Fold;
    var short := moves[..n];
    assert moves[..n + 1] == moves;
    forall k | 0 <= k <= n
      ensures short[..k] == moves[..k]
    {
    }
    forall i | 0 <= i < n
      ensures Fits(opening, short, i) == Fits(opening, moves, i)
    {
    }
    if StaysUp(opening, short) && Fold(opening, moves) >= 0 {
      forall k | 0 <= k <= n + 1
        ensures Fold(opening, moves[..k]) >= 0
      {
        assert k <= n ==> Fold(opening, short[..k]) >= 0;
      }
    }
    if StaysUp(opening, moves) {
      forall k | 0 <= k <= n
        ensures Fold(opening, short[..k]) >= 0
      {
        assert Fold(opening, moves[..k]) >= 0;
      }
    }
  }

  /** A balance that starts at zero or more stays there exactly as long as no credit
      overflows. */
  lemma {:induction false} NeverNegativeExact(opening: int, moves: seq<Move>)
    requires 0 <= opening <= MAX_INT64 && Positive(moves)
    ensures StaysUp(opening, moves) <==> AllFit(opening, moves)
  {
    if moves == [] {
      assert forall k :: 0 <= k <= 0 ==> moves[..k] == [];
    } else {
      var n := |moves| - 1;
      var short := moves[..n];
      FoldBound(opening, short);
      Shorter(opening, moves, n);
      hide Shift, Wrap64, AllFit;
      NeverNegativeExact(opening, short);
      assert short[..n] == short;
      if Fold(opening, short) >= 0 {
        ShiftSign(Fold(opening, short), moves[n]);
      }
    }
  }

  lemma FoldBound(opening: int, moves: seq<Move>)
    requires InInt64(opening)
    ensures InInt64(Fold(opening, moves))
  {
  }

  /** Clamping only ever forgives: the balance is at least what the moves add up to,
      and equal to it exactly when every debit was covered. */
  lemma {:induction false} ForgivenExact(opening: int, moves: seq<Move>)
    requires 0 <= opening <= MAX_INT64 && Positive(moves)
    requires AllFit(opening, moves)
    ensures 0 <= Fold(opening, moves) <= MAX_INT64
    ensures Fold(opening, moves) >= opening + Net(moves)
    ensures Fold(opening, moves) == opening + Net(moves) <==> AllCovered(opening, moves)
  {
    if moves != [] {
      var n := |moves| - 1;
      var short := moves[..n];
      Shorter(opening, moves, n);
      CoveredShorter(opening, moves, n);
      hide Shift, Wrap64, AllFit, AllCovered;
      ForgivenExact(opening, short);
      ShiftSign(Fold(opening, short), moves[n]);
      FoldBound(opening, moves);
    }
  }

  ghost predicate AllCovered(opening: int, moves: seq<Move>) {
    forall i :: 0 <= i < |moves| ==> Covered(opening, moves, i)
  }

  lemma CoveredShorter(opening: int, moves: seq<Move>, n: nat)
    requires |moves| == n + 1
    ensures AllCovered(opening, moves) <==> AllCovered(opening, moves[..n]) && Covered(opening, moves, n)
  {
    hide Fold;
    forall i | 0 <= i < n
      ensures Covered(opening, moves[..n], i) == Covered(opening, moves, i)
    {
      assert moves[..n][..i] == moves[..i];
    }
  }

  // ---- one record -------------------------------------------------------

  /** A record as a payment creates it, before the balance is looked at. */
  function Created(config: Config, service: string, amount: int, currency: string): Record {
    var final := Settled(config.outcome);
    Record(service, amount, First2(currency, config.currency), if config.settleAfter > 0 then Processing else final,
           final, config.settleAfter, false)
  }

  predicate Due(r: Record) {
    !r.applied && r.status.Succeeded?
  }

  /** A success is applied once. */
  function Marked(r: Record): Record {
    r.(applied := r.applied || r.status.Succeeded?)
  }

  /** What a query makes of a record: one step nearer its outcome. */
  function Stepped(r: Record): Record {
    if r.remaining == 0 then r
    else if r.remaining == 1 then r.(remaining := 0, status := r.final)
    else r.(remaining := r.remaining - 1)
  }

  function AfterQueries(r: Record, n: nat): Record {
    if n == 0 then r else Marked(Stepped(AfterQueries(r, n - 1)))
  }

  /** Without webhooks a payment reports processing until the query it was configured
      to settle at, its outcome from that query on, and moves the balance then. */
  lemma {:induction false} SettlesOnTime(config: Config, service: string, amount: int, currency: string, n: nat)
    ensures
      var r := AfterQueries(Marked(Created(config, service, amount, currency)), n);
      var outcome := match config.outcome
                     case Succeed => Succeeded
                     case Fail => Status.Failed
                     case StayPending => Pending
                     case StayUnknown => Unknown
                     case Error => Succeeded;
      r.status == (if n < config.settleAfter then Processing else outcome)
      && r.applied == (n >= config.settleAfter && outcome.Succeeded?)
      && r.remaining == (if n < config.settleAfter then config.settleAfter - n else 0)
      && r.final == outcome
  {
    hide First2;
    if n > 0 {
      SettlesOnTime(config, service, amount, currency, n - 1);
    }
  }

  /** No two transactions share a record. */
  lemma ReferenceInjective(a: string, b: string)
    requires Reference(a) == Reference(b)
    ensures a == b
  {
    assert Reference(a)[6..] == a && Reference(b)[6..] == b;
  }

  // ---- the provider -----------------------------------------------------

  predicate Moved(moves: seq<Move>, serial: nat) {
    exists i :: 0 <= i < |moves| && moves[i].serial == serial
  }

  predicate OnceEach(moves: seq<Move>) {
    forall i, j :: 0 <= i < j < |moves| ==> moves[i].serial != moves[j].serial
  }

  function MoveOf(serial: nat, r: Record): Move {
    Move(serial, r.service == "disbursement", r.amount)
  }

  /** What a settled payment does to a balance in range: a collection adds its amount, a
      disbursement takes it away as far as there is any. */
  lemma PaidExact(balance: int, serial: nat, r: Record)
    requires 0 <= balance && 0 <= r.amount && balance + r.amount <= MAX_INT64
    ensures
      Shift(balance, MoveOf(serial, r))
      == if r.service != "disbursement" then balance + r.amount
         else if r.amount <= balance then balance - r.amount else 0
  {
  }

  /** A record has moved the balance exactly when it is marked so, which it is as soon
      as it succeeded; while it still counts down it has not. */
  predicate RecordOk(r: Record, moved: bool) {
    (r.applied <==> moved) && (r.status.Succeeded? ==> r.applied)
    && (r.remaining > 0 ==> r.status.Processing? && !r.applied)
  }

  predicate Numbered(serials: map<string, nat>, moves: seq<Move>, paid: nat) {
    OnceEach(moves)
    && (forall i :: 0 <= i < |moves| ==> moves[i].serial < paid)
    && (forall ref :: ref in serials ==> serials[ref] < paid)
    && forall a, b :: a in serials && b in serials && a != b ==> serials[a] != serials[b]
  }

  predicate Consistent(records: map<string, Record>, serials: map<string, nat>, moves: seq<Move>, paid: nat) {
    Numbered(serials, moves, paid) && serials.Keys == records.Keys
    && forall ref :: ref in records ==> RecordOk(records[ref], Moved(moves, serials[ref]))
  }

  function Logged(moves: seq<Move>, serial: nat, r: Record): seq<Move> {
    if Due(r) then moves + [MoveOf(serial, r)] else moves
  }

  lemma MovedNext(moves: seq<Move>, move: Move, serial: nat)
    ensures Moved(moves + [move], serial) <==> Moved(moves, serial) || serial == move.serial
  {
    var moves' := moves + [move];
    if Moved(moves, serial) {
      var i :| 0 <= i < |moves| && moves[i].serial == serial;
      assert moves'[i].serial == serial;
    }
    assert moves'[|moves|] == move;
  }

  /** Writing a record, new or changed, and applying it keeps the books. */
  lemma Written(records: map<string, Record>, serials: map<string, nat>, moves: seq<Move>, paid: nat,
                ref: string, serial: nat, r: Record)
    requires Consistent(records, serials, moves, paid)
    requires serial == paid || (ref in serials && serials[ref] == serial)
    requires r.applied == Moved(moves, serial) && (r.remaining > 0 ==> r.status.Processing? && !r.applied)
    ensures Consistent(records[ref := Marked(r)], serials[ref := serial], Logged(moves, serial, r),
                       if serial == paid then paid + 1 else paid)
  {
    hide Moved, OnceEach;
    var records', serials', moves' := records[ref := Marked(r)], serials[ref := serial], Logged(moves, serial, r);
    assert OnceEach(moves') by {
      NotMoved(moves, serial, r);
    }
    forall q | q in records'
      ensures RecordOk(records'[q], Moved(moves', serials'[q]))
    {
      if Due(r) {
        MovedNext(moves, MoveOf(serial, r), serials'[q]);
      }
      assert q != ref ==> RecordOk(records[q], Moved(moves, serials[q]));
    }
  }

  lemma NotMoved(moves: seq<Move>, serial: nat, r: Record)
    requires OnceEach(moves) && r.applied == Moved(moves, serial)
    ensures OnceEach(Logged(moves, serial, r))
  {
  }

  class Provider {
    var config: Config
    var balance: int
    var records: map<string, Record>

    /** Every movement since the start, and which payment each record came from. */
    ghost var moves: seq<Move>
    ghost var serials: map<string, nat>
    ghost var paid: nat

    /** The balance is what the movements make of the opening one, and each payment
        moved it at most once: when it first succeeded. */
    ghost predicate Valid()
      reads this
    {
      balance == Fold(config.balance, moves) && Consistent(records, serials, moves, paid)
    }

    constructor ()
      ensures Valid() && records == map[] && moves == [] && !config.ready
    {
      config := Config(false, Succeed, 0, false, [], "", 0);
      balance, records := 0, map[];
      moves, serials, paid := [], map[], 0;
    }

    method Init(given: Config) returns (ok: bool)
      modifies this
      requires Valid()
      ensures Valid() && ok == !given.failInit
      ensures ok ==> config == given && balance == given.balance && records == map[] && moves == [] && paid == 0
      ensures !ok ==> config == old(config) && balance == old(balance) && records == old(records) && moves == old(moves)
    {
      if given.failInit {
        return false;
      }
      config, balance, records := given, given.balance, map[];
      moves, serials, paid := [], map[], 0;
      return true;
    }

    /** Moves the balance when the record under `reference` has first succeeded. */
    method Apply(reference: string)
      modifies this`balance, this`records, this`moves
      requires reference in records && reference in serials
      ensures records == old(records)[reference := Marked(old(records)[reference])]
      ensures moves == Logged(old(moves), serials[reference], old(records)[reference])
      ensures
        var entry := old(records)[reference];
        balance == if Due(entry) then Shift(old(balance), MoveOf(serials[reference], entry)) else old(balance)
    {
      var entry := records[reference];
      if entry.applied || !entry.status.Succeeded? {
        return;
      }
      records := records[reference := entry.(applied := true)];
      moves := moves + [MoveOf(serials[reference], entry)];
      if entry.service == "disbursement" {
        balance := Wrap64(balance - entry.amount);
        if balance < 0 {
          balance := 0;
        }
        return;
      }
      balance := Wrap64(balance + entry.amount);
    }

    /** Stores the record of the `serial`-th payment, new or changed, and applies it. */
    method Put(reference: string, entry: Record, ghost serial: nat)
      modifies this`balance, this`records, this`moves, this`serials, this`paid
      requires Valid() && (serial == paid || (reference in serials && serials[reference] == serial))
      requires entry.applied == Moved(moves, serial)
      requires entry.remaining > 0 ==> entry.status.Processing? && !entry.applied
      ensures Valid() && records == old(records)[reference := Marked(entry)]
      ensures serials == old(serials)[reference := serial] && moves == Logged(old(moves), serial, entry)
      ensures paid == if serial == old(paid) then old(paid) + 1 else old(paid)
    {
      hide Consistent, Shift, Fold, Due, MoveOf, Logged, Marked, Moved;
      Written(records, serials, moves, paid, reference, serial, entry);
      FoldNext(config.balance, moves, serial, entry);
      ghost var next := records[reference := Marked(entry)];
      records := records[reference := entry];
      serials := serials[reference := serial];
      paid := if serial == paid then paid + 1 else paid;
      Apply(reference);
      assert records == next;
    }

    method Pay(cancelled: bool, transaction: string, service: string, amount: int, currency: string)
        returns (answer: Result<(string, Status)>)
      modifies this
      requires Valid()
      ensures Valid() && config == old(config)
      ensures answer.Ok? <==> !cancelled && config.ready && service in config.services && !config.outcome.Error?
      ensures answer.Ok? ==>
        var reference, made := Reference(transaction), Created(config, service, amount, currency);
        answer.value == (reference, made.status)
        && records == old(records)[reference := Marked(made)]
        && paid == old(paid) + 1 && serials == old(serials)[reference := old(paid)]
        && moves == Logged(old(moves), old(paid), made)
        && records[reference].service == service && records[reference].amount == amount
      ensures answer.Ok? && config.settleAfter == 0 && config.outcome.Succeed? && 0 <= amount
              && 0 <= old(balance) <= MAX_INT64 - amount ==>
        balance == if service != "disbursement" then old(balance) + amount
                   else if amount <= old(balance) then old(balance) - amount else 0
      ensures answer.Err? ==> records == old(records) && moves == old(moves) && balance == old(balance)
    {
      if cancelled || !config.ready || service !in config.services || config.outcome.Error? {
        return Err(Refused);
      }
      NewSerial(records, serials, moves, paid);
      CreatedOk(config, service, amount, currency);
      PaidNow(config, balance, moves, paid, service, amount, currency);
      hide Consistent, Fold, Logged, Reference, Moved, First2;
      var reference, entry := Reference(transaction), Created(config, service, amount, currency);
      Put(reference, entry, paid);
      return Ok((reference, records[reference].status));
    }

    method QueryTransaction(cancelled: bool, reference: string) returns (answer: Result<Status>)
      modifies this
      requires Valid()
      ensures Valid() && config == old(config)
      ensures answer.Ok? <==> !cancelled && reference in old(records)
      ensures answer.Ok? ==>
        var next := Stepped(old(records)[reference]);
        answer.value == next.status
        && records == old(records)[reference := Marked(next)]
        && serials == old(serials) && moves == Logged(old(moves), serials[reference], next)
      ensures answer.Err? ==> records == old(records) && moves == old(moves) && balance == old(balance)
    {
      if cancelled || reference !in records {
        return Err(Refused);
      }
      KnownRecord(records, serials, moves, paid, reference);
      hide Consistent, Fold, Moved;
      var entry := records[reference];
      assert records[reference := entry] == records;
      assert serials[reference := serials[reference]] == serials;
      if entry.remaining > 0 {
        entry := entry.(remaining := entry.remaining - 1);
        if entry.remaining == 0 {
          entry := entry.(status := entry.final);
        }
        Put(reference, entry, serials[reference]);
      }
      return Ok(records[reference].status);
    }

    method SettleFromWebhook(reference: string, status: Status)
      modifies this
      requires Valid()
      ensures Valid() && config == old(config)
      ensures reference !in old(records) ==> records == old(records) && moves == old(moves) && balance == old(balance)
      ensures reference in old(records) ==>
        var next := old(records)[reference].(status := status, remaining := 0);
        records == old(records)[reference := Marked(next)]
        && serials == old(serials) && moves == Logged(old(moves), serials[reference], next)
    {
      if reference !in records {
        return;
      }
      KnownRecord(records, serials, moves, paid, reference);
      hide Consistent, Fold, Logged, Marked, Moved;
      assert serials[reference := serials[reference]] == serials;
      Put(reference, records[reference].(status := status, remaining := 0), serials[reference]);
    }
  }

  lemma CreatedOk(config: Config, service: string, amount: int, currency: string)
    ensures
      var r := Created(config, service, amount, currency);
      !r.applied && (r.remaining > 0 ==> r.status.Processing?)
  {
  }

  lemma PaidNow(config: Config, balance: int, moves: seq<Move>, serial: nat, service: string, amount: int,
                currency: string)
    requires balance == Fold(config.balance, moves)
    ensures
      var made := Created(config, service, amount, currency);
      config.settleAfter == 0 && config.outcome.Succeed? && 0 <= amount && 0 <= balance <= MAX_INT64 - amount ==>
        Fold(config.balance, Logged(moves, serial, made))
        == if service != "disbursement" then balance + amount else if amount <= balance then balance - amount else 0
  {
    hide Shift, Fold, First2, Logged;
    var made := Created(config, service, amount, currency);
    FoldNext(config.balance, moves, serial, made);
    if 0 <= amount && 0 <= balance <= MAX_INT64 - amount {
      PaidExact(balance, serial, made);
    }
  }

  lemma NewSerial(records: map<string, Record>, serials: map<string, nat>, moves: seq<Move>, paid: nat)
    requires Consistent(records, serials, moves, paid)
    ensures !Moved(moves, paid)
  {
  }

  lemma KnownRecord(records: map<string, Record>, serials: map<string, nat>, moves: seq<Move>, paid: nat, ref: string)
    requires Consistent(records, serials, moves, paid) && ref in records
    ensures ref in serials && serials[ref] < paid && RecordOk(records[ref], Moved(moves, serials[ref]))
  {
  }

  lemma FoldNext(opening: int, moves: seq<Move>, serial: nat, r: Record)
    ensures
      Fold(opening, Logged(moves, serial, r))
      == if Due(r) then Shift(Fold(opening, moves), MoveOf(serial, r)) else Fold(opening, moves)
  {
  }

  /** A balance that starts at the most 64 bits hold turns negative with one collection
      of one unit. */
  method CreditOverflows() returns (p: Provider)
    ensures fresh(p) && p.Valid() && p.config.balance == MAX_INT64
    ensures p.moves == [Move(0, false, 1)] && p.balance == MIN_INT64
  {
    p := new Provider();
    var config := Config(true, Succeed, 0, false, ["collection"], "UGX", MAX_INT64);
    var ok := p.Init(config);
    assert "collection" in config.services;
    hide First2, Reference;
    var answer := p.Pay(false, "1", "collection", 1, "UGX");
    OneCredit(p.moves);
  }

  lemma OneCredit(moves: seq<Move>)
    requires moves == [Move(0, false, 1)]
    ensures Fold(MAX_INT64, moves) == MIN_INT64 && !AllFit(MAX_INT64, moves)
  {
    assert moves[..0] == [];
    assert Wrap64(MAX_INT64 + 1) == MIN_INT64;
    assert !Fits(MAX_INT64, moves, 0);
  }
}
