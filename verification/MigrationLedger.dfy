/** The applied-migration ledger, and any number of runners working on it at once.

    Nothing locks the ledger: a runner reads it, inserts a dirty row, runs the
    change, and clears the flag, each as a step of its own. */
module MigrationLedger {
  import opened Wrappers
  import opened Migrations
  import opened Order

  // ---- one runner, alone ------------------------------------------------

  /** The identifiers still to apply, in order. */
  function PendingOf(ids: seq<string>, applied: set<string>): seq<string> {
    if ids == [] then []
    else if ids[0] in applied then PendingOf(ids[1..], applied)
    else [ids[0]] + PendingOf(ids[1..], applied)
  }

  predicate Clean(rows: map<string, bool>) {
    forall id :: id in rows ==> !rows[id]
  }

  /** The ledger after applying `done` on top of `rows`. */
  function Applied(rows: map<string, bool>, done: seq<string>): map<string, bool> {
    if done == [] then rows else Applied(rows, done[..|done| - 1])[done[|done| - 1] := false]
  }

  /** What becomes of applying a migration: the database may refuse its row, its change
      may fail, or the database may refuse to clear the flag. */
  datatype Outcome = NotRecorded | UpFails | NotCleared | Completes

  class Ledger {
    /** One row per identifier: whether it is dirty. */
    var rows: map<string, bool>

    constructor ()
      ensures rows == map[]
    {
      rows := map[];
    }

    /** The applied identifiers, or a refusal while any row is dirty. */
    method Read() returns (applied: Option<set<string>>)
      ensures applied == if Clean(rows) then Some(rows.Keys) else None
    {
      var ids: set<string> := {};
      var rest := rows.Keys;
      while rest != {}
        invariant rest <= rows.Keys && ids == rows.Keys - rest
        invariant forall id :: id in ids ==> !rows[id]
        decreases |rest|
      {
        var id :| id in rest;
        if rows[id] {
          return None;
        }
        ids, rest := ids + {id}, rest - {id};
      }
      assert ids == rows.Keys;
      return Some(ids);
    }

    /** Records the migration as dirty, runs it, then clears the flag. A migration that is
        recorded already is refused. */
    method Apply(id: string, outcome: Outcome) returns (ok: bool)
      modifies this
      ensures ok == (id !in old(rows) && outcome.Completes?)
      ensures rows == if id in old(rows) || outcome.NotRecorded? then old(rows)
                      else old(rows)[id := !outcome.Completes?]
    {
      if id in rows || outcome.NotRecorded? {
        return false;
      }
      rows := rows[id := true];
      if outcome.UpFails? || outcome.NotCleared? {
        return false;
      }
      rows := rows[id := false];
      return true;
    }

    /** Applies what is pending, in order, up to the first migration that does not
        complete; that one stays dirty if it was recorded. A dirty ledger refuses to run at all. */
    method Run(list: seq<Migration>, world: string -> Outcome) returns (done: seq<string>, ok: bool)
      modifies this
      ensures !WellFormed(list) || !Clean(old(rows)) ==> !ok && done == [] && rows == old(rows)
      ensures WellFormed(list) && Clean(old(rows)) ==>
        Distinct(IDs(list))
        && RanOver(old(rows), PendingOf(Ordered(IDs(list)), old(rows).Keys), world, rows, done, ok)
    {
      done := [];
      var fault := Validate(list);
      if fault.Some? {
        return [], false;
      }
      var applied := Read();
      if applied.None? {
        return [], false;
      }
      DistinctIDs(list);
      done, ok := ApplyPending(Ordered(IDs(list)), applied.value, world);
    }

    method ApplyPending(order: seq<string>, applied: set<string>, world: string -> Outcome)
      returns (done: seq<string>, ok: bool)
      requires Ascending(order) && applied == rows.Keys
      modifies this
      ensures RanOver(old(rows), PendingOf(order, applied), world, rows, done, ok)
    {
      hide Less, PendingOf, Applied, Ascending;
      done := [];
      ghost var pending := PendingOf(order, applied);
      assert order[0..] == order;
      NothingApplied(rows);
      for i := 0 to |order|
        invariant done + PendingOf(order[i..], applied) == pending
        invariant forall k :: 0 <= k < |done| ==> world(done[k]).Completes?
        invariant rows == Applied(old(rows), done)
        invariant rows.Keys == applied + Members(done)
        invariant Members(done) <= Members(order[..i])
      {
        PendingStep(order, applied, i);
        MembersSnoc(order[..i], order[i]);
        assert order[..i + 1] == order[..i] + [order[i]];
        if order[i] !in applied {
          NotEarlier(order, i);
          assert order[i] !in rows;
          var finished := Apply(order[i], world(order[i]));
          assert pending[|done|] == order[i];
          if !finished {
            return done, false;
          }
          AppliedSnoc(old(rows), done, order[i]);
          MembersSnoc(done, order[i]);
          assert done + ([order[i]] + PendingOf(order[i + 1..], applied))
              == (done + [order[i]]) + PendingOf(order[i + 1..], applied);
          done := done + [order[i]];
        }
      }
      PendingEnd(order, applied);
      return done, true;
    }
  }

  /** The outcome of a run over `pending`: everything done in order and clean, or all
      before the first failure done and the failed one left dirty if it was recorded. */
  predicate RanOver(before: map<string, bool>, pending: seq<string>, world: string -> Outcome,
                    after: map<string, bool>, done: seq<string>, ok: bool) {
    done <= pending
    && (ok <==> done == pending)
    && (forall i :: 0 <= i < |done| ==> world(done[i]).Completes?)
    && (ok ==> after == Applied(before, done))
    && (!ok ==>
          var failed := pending[|done|];
          !world(failed).Completes?
          && after == if world(failed).NotRecorded? then Applied(before, done)
                      else Applied(before, done)[failed := true])
  }

  lemma NothingApplied(rows: map<string, bool>)
    ensures Applied(rows, []) == rows && Members([]) == {}
  {
  }

  lemma AppliedSnoc(rows: map<string, bool>, done: seq<string>, id: string)
    ensures Applied(rows, done + [id]) == Applied(rows, done)[id := false]
  {
  }

  lemma MembersSnoc(ids: seq<string>, id: string)
    ensures Members(ids + [id]) == Members(ids) + {id}
  {
  }

  lemma PendingStep(order: seq<string>, applied: set<string>, i: nat)
    requires i < |order|
    ensures PendingOf(order[i..], applied) ==
      (if order[i] in applied then [] else [order[i]]) + PendingOf(order[i + 1..], applied)
  {
  }

  lemma PendingEnd(order: seq<string>, applied: set<string>)
    ensures PendingOf(order[|order|..], applied) == []
  {
  }

  lemma DistinctIDs(list: seq<Migration>)
    requires WellFormed(list)
    ensures Distinct(IDs(list))
  {
  }

  lemma NotEarlier(order: seq<string>, i: nat)
    requires Ascending(order) && i < |order|
    ensures order[i] !in Members(order[..i])
  {
    forall k | 0 <= k < i
      ensures order[k] != order[i]
    {
      assert Less(order[k], order[i]);
      LessTotal(order[k], order[k]);
    }
  }

  // ---- what a run leaves ------------------------------------------------

  lemma {:induction false} PendingExact(order: seq<string>, applied: set<string>)
    requires Ascending(order)
    ensures Ascending(PendingOf(order, applied))
    ensures forall id :: id in PendingOf(order, applied) <==> id in order && id !in applied
  {
    hide Less;
    if order != [] {
      var rest := PendingOf(order[1..], applied);
      PendingExact(order[1..], applied);
      assert order == [order[0]] + order[1..];
      forall i | 0 <= i < |rest|
        ensures Less(order[0], rest[i])
      {
        assert rest[i] in order[1..];
      }
    }
  }

  lemma {:induction false} AppliedExact(rows: map<string, bool>, done: seq<string>)
    ensures forall id :: id in Applied(rows, done) <==> id in rows || id in done
    ensures forall id :: id in Applied(rows, done) ==> Applied(rows, done)[id] == (id !in done && rows[id])
  {
    if done != [] {
      var n := |done| - 1;
      AppliedExact(rows, done[..n]);
      assert done == done[..n] + [done[n]];
    }
  }

  /** What became of a run over a clean ledger, told identifier by identifier. It succeeds
      exactly when every missing migration completes, and then the ledger is clean and
      holds the whole list. Otherwise it stops at the first missing one that does not:
      the missing ones before it are in the ledger and clean, it is there and dirty
      unless the database refused its row, and none after it was tried. */
  lemma RunExact(before: map<string, bool>, list: seq<Migration>, world: string -> Outcome,
                 after: map<string, bool>, done: seq<string>, ok: bool)
    requires Distinct(IDs(list)) && Clean(before)
    requires RanOver(before, PendingOf(Ordered(IDs(list)), before.Keys), world, after, done, ok)
    ensures ok <==> forall id :: id in IDs(list) && id !in before ==> world(id).Completes?
    ensures ok ==> Clean(after) && after.Keys == before.Keys + Members(IDs(list))
    ensures !ok ==>
      exists failed ::
        failed in IDs(list) && failed !in before && !world(failed).Completes?
        && StoppedAt(before, IDs(list), failed, !world(failed).NotRecorded?, after)
        && forall id :: id in IDs(list) && id !in before && Less(id, failed) ==> world(id).Completes?
  {
    var ids := IDs(list);
    var pending := PendingOf(Ordered(ids), before.Keys);
    PendingExact(Ordered(ids), before.Keys);
    assert forall id :: id in pending <==> id in Members(ids) && id !in before;
    AppliedExact(before, done);
    hide PendingOf, Applied, Ordered, Less, IDs, Members;
    if ok {
      assert forall id :: id in pending ==> world(id).Completes?;
      MembersIn(ids);
    } else {
      MembersIn(ids);
      var failed := pending[|done|];
      DoneBefore(pending, done);
      StoppedThere(before, ids, pending, done, failed, !world(failed).NotRecorded?, after);
    }
  }

  lemma MembersIn(ids: seq<string>)
    ensures forall id :: id in Members(ids) <==> id in ids
  {
  }

  /** The ledger holds what it did, and of the missing identifiers those before `failed`,
      all clean, and `failed` itself, dirty, if it was recorded. */
  ghost predicate StoppedAt(before: map<string, bool>, ids: seq<string>, failed: string, recorded: bool,
                      after: map<string, bool>) {
    (forall id :: id in after <==> id in before || (id in ids && Less(id, failed)) || (id == failed && recorded))
    && forall id :: id in after ==> (after[id] <==> id == failed)
  }

  /** In an ascending list the members before a position are the lesser ones. */
  lemma DoneBefore(pending: seq<string>, done: seq<string>)
    requires Ascending(pending) && done <= pending && done != pending
    ensures forall id :: id in done <==> id in pending && Less(id, pending[|done|])
  {
    hide Less;
    var failed := pending[|done|];
    forall i | 0 <= i < |pending|
      ensures Less(pending[i], failed) <==> i < |done|
    {
      LessTotal(pending[i], failed);
      assert i < |done| ==> Less(pending[i], pending[|done|]);
      assert |done| < i ==> Less(pending[|done|], pending[i]);
    }
    assert forall i :: 0 <= i < |done| ==> done[i] == pending[i];
  }

  lemma StoppedThere(before: map<string, bool>, ids: seq<string>, pending: seq<string>, done: seq<string>,
                     failed: string, recorded: bool, after: map<string, bool>)
    requires Clean(before) && failed in pending
    requires forall id :: id in pending <==> id in ids && id !in before
    requires forall id :: id in done <==> id in pending && Less(id, failed)
    requires forall id :: id in Applied(before, done) <==> id in before || id in done
    requires forall id :: id in Applied(before, done) ==> Applied(before, done)[id] == (id !in done && before[id])
    requires after == if recorded then Applied(before, done)[failed := true] else Applied(before, done)
    ensures StoppedAt(before, ids, failed, recorded, after)
  {
    hide Applied, Less;
    LessTotal(failed, failed);
    assert failed !in Applied(before, done);
  }
}

/** Any number of runners at once, with changes that fail and runners that stop
    anywhere. Every runner's list is a beginning of one ascending list. */
module MigrationProtocol {
  import opened Order

  /** Where a runner stands: about to read, deciding about a position, having
      recorded it, inside its change, or back from it. */
  datatype Stage = Starting | Deciding | Recorded | Running | Returned

  datatype Runner = Runner(length: nat, applied: set<string>, at: nat, stage: Stage)

  /** `ups` lists the positions whose change has started, in order of start;
      `returned` holds those whose change came back without an error. */
  datatype State = State(
    rows: map<string, bool>,
    runners: map<nat, Runner>,
    ups: seq<nat>,
    returned: set<nat>)

  const INITIAL := State(map[], map[], [], {})

  datatype Action =
    | Arrive(r: nat, length: nat)
    | Read(r: nat)
    | Skip(r: nat)
    | Record(r: nat)
    | Start(r: nat)
    | Return(r: nat)
    | Clear(r: nat)
    | Leave(r: nat)

  predicate At(s: State, r: nat, stage: Stage) {
    r in s.runners && s.runners[r].stage == stage
  }

  function Without(s: State, r: nat): State {
    s.(runners := s.runners - {r})
  }

  function With(s: State, r: nat, runner: Runner): State {
    s.(runners := s.runners[r := runner])
  }

  /** `Leave` is every way a runner ends: done, refused, failed, or crashed. */
  predicate Next(order: seq<string>, s: State, a: Action, s': State) {
    match a
    case Arrive(r, length) =>
      r !in s.runners && length <= |order| && s' == With(s, r, Runner(length, {}, 0, Starting))
    case Read(r) =>
      At(s, r, Starting)
      && s' == (if exists id :: id in s.rows && s.rows[id] then Without(s, r)
                else With(s, r, s.runners[r].(applied := s.rows.Keys, stage := Deciding)))
    case Skip(r) =>
      At(s, r, Deciding) && s.runners[r].at < s.runners[r].length <= |order|
      && order[s.runners[r].at] in s.runners[r].applied
      && s' == With(s, r, s.runners[r].(at := s.runners[r].at + 1))
    case Record(r) =>
      At(s, r, Deciding) && s.runners[r].at < s.runners[r].length <= |order|
      && var id := order[s.runners[r].at];
      id !in s.runners[r].applied
      && s' == (if id in s.rows then Without(s, r)
                else With(s, r, s.runners[r].(stage := Recorded)).(rows := s.rows[id := true]))
    case Start(r) =>
      At(s, r, Recorded)
      && s' == With(s, r, s.runners[r].(stage := Running)).(ups := s.ups + [s.runners[r].at])
    case Return(r) =>
      At(s, r, Running)
      && s' == With(s, r, s.runners[r].(stage := Returned)).(returned := s.returned + {s.runners[r].at})
    case Clear(r) =>
      At(s, r, Returned) && s.runners[r].at < |order|
      && s' == With(s, r, s.runners[r].(stage := Deciding, at := s.runners[r].at + 1))
               .(rows := s.rows[order[s.runners[r].at] := false])
    case Leave(r) => r in s.runners && s' == Without(s, r)
  }

  // ---- the invariant ----------------------------------------------------

  /** A runner past its insert and not yet past its clear. */
  predicate Busy(runner: Runner) {
    runner.stage.Recorded? || runner.stage.Running? || runner.stage.Returned?
  }

  /** The ledger holds the first `k` identifiers, all clean but perhaps the last. */
  predicate Prefix(order: seq<string>, rows: map<string, bool>, k: nat) {
    k <= |order|
    && (forall i :: 0 <= i < |order| ==> (order[i] in rows <==> i < k))
    && (forall id :: id in rows ==> id in order[..k])
    && (forall i :: 0 <= i < k - 1 ==> order[i] in rows && !rows[order[i]])
  }

  predicate CleanAt(order: seq<string>, rows: map<string, bool>, i: nat)
    requires i < |order|
  {
    order[i] in rows && !rows[order[i]]
  }

  predicate CleanBelow(order: seq<string>, rows: map<string, bool>, n: nat) {
    n <= |order| && forall i :: 0 <= i < n ==> CleanAt(order, rows, i)
  }

  /** A busy runner is at the last row, which is dirty; a deciding one has only seen
      clean rows. */
  predicate RunnerOk(order: seq<string>, s: State, k: nat, runner: Runner) {
    runner.length <= |order|
    && (Busy(runner) ==> runner.at == k - 1 && runner.at < |order|
                         && order[runner.at] in s.rows && s.rows[order[runner.at]])
    && (runner.stage.Deciding? ==> runner.at <= k && CleanBelow(order, s.rows, runner.at))
    && (!runner.stage.Starting? ==>
          (forall i :: 0 <= i < |order| && order[i] in runner.applied ==> i < k && CleanAt(order, s.rows, i)))
    && (runner.stage.Starting? ==> runner.at == 0)
    && (runner.stage.Recorded? ==> forall j :: 0 <= j < |s.ups| ==> s.ups[j] < runner.at)
    && (runner.stage.Returned? ==> runner.at in s.returned)
  }

  ghost predicate InvAt(order: seq<string>, s: State, k: nat) {
    Prefix(order, s.rows, k)
    && (forall r :: r in s.runners ==> RunnerOk(order, s, k, s.runners[r]))
    && (forall r, q :: r in s.runners && q in s.runners && Busy(s.runners[r]) && Busy(s.runners[q]) ==> r == q)
    && (forall j :: 0 <= j < |s.ups| ==> s.ups[j] < k)
    && (forall i, j :: 0 <= i < j < |s.ups| ==> s.ups[i] < s.ups[j])
    && (forall i :: 0 <= i < k && CleanAt(order, s.rows, i) ==> i in s.returned)
  }

  ghost predicate Inv(order: seq<string>, s: State) {
    exists k: nat :: InvAt(order, s, k)
  }

  lemma Forget(order: seq<string>, s: State, k: nat, r: nat)
    requires InvAt(order, s, k)
    ensures InvAt(order, Without(s, r), k)
  {
  }

  /** A runner that is not busy may be replaced by any that fits. */
  lemma Replace(order: seq<string>, s: State, k: nat, r: nat, runner: Runner)
    requires InvAt(order, s, k) && RunnerOk(order, s, k, runner) && !Busy(runner)
    ensures InvAt(order, With(s, r, runner), k)
  {
    hide Prefix;
    var s' := With(s, r, runner);
    forall q | q in s'.runners
      ensures RunnerOk(order, s', k, s'.runners[q])
    {
      if q != r {
        assert RunnerOk(order, s, k, s.runners[q]);
      }
    }
  }

  lemma QuietStep(order: seq<string>, s: State, k: nat, a: Action, s': State)
    requires Ascending(order) && InvAt(order, s, k) && Next(order, s, a, s')
    requires a.Arrive? || a.Read? || a.Skip? || a.Leave?
    ensures InvAt(order, s', k)
  {
    hide InvAt, Less;
    if s' == Without(s, a.r) {
      Forget(order, s, k, a.r);
    } else {
      var runner := s'.runners[a.r];
      assert RunnerOk(order, s, k, runner) by {
        if a.Skip? {
          OkAt(order, s, k, a.r);
        } else if a.Read? {
          OkAt(order, s, k, a.r);
          ReadClean(order, s, k);
        }
      }
      Replace(order, s, k, a.r, runner);
    }
  }

  lemma OkAt(order: seq<string>, s: State, k: nat, r: nat)
    requires InvAt(order, s, k) && r in s.runners
    ensures RunnerOk(order, s, k, s.runners[r]) && Prefix(order, s.rows, k)
  {
  }

  lemma ReadClean(order: seq<string>, s: State, k: nat)
    requires InvAt(order, s, k) && forall id :: id in s.rows ==> !s.rows[id]
    ensures forall i :: 0 <= i < |order| && order[i] in s.rows.Keys ==> i < k && CleanAt(order, s.rows, i)
  {
  }

  /** Recording is only possible for the first position not in the ledger, with
      everything before it clean. */
  lemma RecordStep(order: seq<string>, s: State, k: nat, r: nat, s': State)
    requires Ascending(order) && InvAt(order, s, k) && Next(order, s, Record(r), s')
    ensures InvAt(order, s', if s' == Without(s, r) then k else k + 1)
  {
    hide Less, Ascending, CleanBelow;
    if s' == Without(s, r) {
      Forget(order, s, k, r);
    } else {
      var at := s.runners[r].at;
      OkAt(order, s, k, r);
      assert at == k;
      assert CleanBelow(order, s.rows, k);
      NoOtherBusy(order, s, k);
      RecordedPrefix(order, s.rows, k);
      forall q | q in s'.runners
        ensures RunnerOk(order, s', k + 1, s'.runners[q])
      {
        if q != r {
          OkAt(order, s, k, q);
          Behind(order, s, k, s', s.runners[q]);
        }
      }
      assert forall i :: 0 <= i < k ==> order[i] in s.rows;
    }
  }

  /** A new last row changes nothing for a runner that is not busy. */
  lemma Behind(order: seq<string>, s: State, k: nat, s': State, runner: Runner)
    requires k < |order| && RunnerOk(order, s, k, runner) && !Busy(runner)
    requires s'.rows == s.rows[order[k] := true] && s'.ups == s.ups && s'.returned == s.returned
    requires forall i :: 0 <= i < |order| && i != k ==> order[i] != order[k]
    ensures RunnerOk(order, s', k + 1, runner)
  {
    if runner.stage.Deciding? {
      forall i | 0 <= i < runner.at
        ensures CleanAt(order, s'.rows, i)
      {
        assert CleanAt(order, s.rows, i);
      }
    }
  }

  lemma NoOtherBusy(order: seq<string>, s: State, k: nat)
    requires InvAt(order, s, k) && CleanBelow(order, s.rows, k)
    ensures forall q :: q in s.runners ==> !Busy(s.runners[q])
  {
    forall q | q in s.runners
      ensures !Busy(s.runners[q])
    {
      OkAt(order, s, k, q);
      assert k > 0 ==> CleanAt(order, s.rows, k - 1);
    }
  }

  lemma DistinctOrder(order: seq<string>, k: nat)
    requires Ascending(order) && k < |order|
    ensures forall i :: 0 <= i < |order| && i != k ==> order[i] != order[k]
  {
    forall i | 0 <= i < |order| && i != k
      ensures order[i] != order[k]
    {
      LessTotal(order[k], order[k]);
      assert if i < k then Less(order[i], order[k]) else Less(order[k], order[i]);
    }
  }

  lemma RecordedPrefix(order: seq<string>, rows: map<string, bool>, k: nat)
    requires Ascending(order) && Prefix(order, rows, k) && k < |order|
    requires CleanBelow(order, rows, k)
    ensures Prefix(order, rows[order[k] := true], k + 1)
    ensures CleanBelow(order, rows[order[k] := true], k)
    ensures forall i :: 0 <= i < |order| && i != k ==> order[i] != order[k]
  {
    DistinctOrder(order, k);
    hide Less, Ascending;
    assert order[..k + 1] == order[..k] + [order[k]];
    var rows' := rows[order[k] := true];
    forall i | 0 <= i < k
      ensures CleanAt(order, rows', i)
    {
      assert CleanAt(order, rows, i);
    }
    forall i | 0 <= i < k
      ensures order[i] in rows' && !rows'[order[i]]
    {
      assert CleanAt(order, rows', i);
    }
  }

  lemma BusyStep(order: seq<string>, s: State, k: nat, a: Action, s': State)
    requires Ascending(order) && InvAt(order, s, k) && Next(order, s, a, s') && (a.Start? || a.Return?)
    ensures InvAt(order, s', k)
  {
    hide Less, Ascending, Prefix, CleanBelow;
    OkAt(order, s, k, a.r);
    forall q | q in s'.runners
      ensures RunnerOk(order, s', k, s'.runners[q])
    {
      OkAt(order, s, k, q);
      if q != a.r {
        Unmoved(order, s, k, s', s.runners[q]);
      }
    }
  }

  lemma Unmoved(order: seq<string>, s: State, k: nat, s': State, runner: Runner)
    requires RunnerOk(order, s, k, runner) && s'.rows == s.rows && s.returned <= s'.returned
    requires s'.ups == s.ups || !runner.stage.Recorded?
    ensures RunnerOk(order, s', k, runner)
  {
    hide CleanBelow;
  }

  lemma ClearStep(order: seq<string>, s: State, k: nat, r: nat, s': State)
    requires Ascending(order) && InvAt(order, s, k) && Next(order, s, Clear(r), s')
    ensures InvAt(order, s', k)
  {
    hide Less, Ascending;
    OkAt(order, s, k, r);
    ClearedPrefix(order, s.rows, k);
    hide Prefix;
    forall q | q in s'.runners
      ensures RunnerOk(order, s', k, s'.runners[q])
    {
      OkAt(order, s, k, q);
      if q != r {
        assert !Busy(s.runners[q]);
        ClearedKeeps(order, s.rows, k, s.runners[q].at);
      }
    }
  }

  lemma ClearedKeeps(order: seq<string>, rows: map<string, bool>, k: nat, n: nat)
    requires 0 < k <= |order|
    ensures CleanBelow(order, rows, n) ==> CleanBelow(order, rows[order[k - 1] := false], n)
  {
    var rows' := rows[order[k - 1] := false];
    if CleanBelow(order, rows, n) {
      forall i | 0 <= i < n
        ensures CleanAt(order, rows', i)
      {
        assert CleanAt(order, rows, i);
      }
    }
  }

  lemma ClearedPrefix(order: seq<string>, rows: map<string, bool>, k: nat)
    requires Prefix(order, rows, k) && k > 0
    ensures Prefix(order, rows[order[k - 1] := false], k)
    ensures CleanBelow(order, rows[order[k - 1] := false], k) && CleanBelow(order, rows, k - 1)
  {
  }

  lemma StepKeeps(order: seq<string>, s: State, a: Action, s': State)
    requires Ascending(order) && Inv(order, s) && Next(order, s, a, s')
    ensures Inv(order, s')
  {
    var k: nat :| InvAt(order, s, k);
    hide InvAt, Next, Less;
    match a {
      case Record(r) => RecordStep(order, s, k, r, s');
      case Start(_) => BusyStep(order, s, k, a, s');
      case Return(_) => BusyStep(order, s, k, a, s');
      case Clear(r) => ClearStep(order, s, k, r, s');
      case _ => QuietStep(order, s, k, a, s');
    }
  }

  // ---- runs -------------------------------------------------------------

  predicate Run(order: seq<string>, states: seq<State>, actions: seq<Action>) {
    Ascending(order)
    && |states| == |actions| + 1
    && states[0] == INITIAL
    && forall i :: 0 <= i < |actions| ==> Next(order, states[i], actions[i], states[i + 1])
  }

  lemma {:induction false} RunInv(order: seq<string>, states: seq<State>, actions: seq<Action>, i: nat)
    requires Run(order, states, actions) && i < |states|
    ensures Inv(order, states[i])
  {
    hide InvAt, Next, Less;
    if i == 0 {
      InitialInv(order);
    } else {
      RunInv(order, states, actions, i - 1);
      StepKeeps(order, states[i - 1], actions[i - 1], states[i]);
    }
  }

  lemma InitialInv(order: seq<string>)
    ensures Inv(order, INITIAL)
  {
    assert InvAt(order, INITIAL, 0);
  }

  /** The ledger is always the beginning of the ordered list, clean but for its last
      row at most; one change runs at a time; changes start in order, each once at
      most; and a row is clean only after its change came back. */
  lemma LedgerIsPrefix(order: seq<string>, states: seq<State>, actions: seq<Action>, i: nat)
    requires Run(order, states, actions) && i < |states|
    ensures
      var s := states[i];
      (exists k :: 0 <= k <= |order| && s.rows.Keys == Members(order[..k])
         && (forall j :: 0 <= j < k - 1 ==> CleanAt(order, s.rows, j))
         && (forall j :: 0 <= j < k && CleanAt(order, s.rows, j) ==> j in s.returned))
      && (forall r, q :: At(s, r, Running) && At(s, q, Running) ==> r == q)
      && (forall j, l :: 0 <= j < l < |s.ups| ==> s.ups[j] < s.ups[l])
  {
    RunInv(order, states, actions, i);
    var s := states[i];
    var k: nat :| InvAt(order, s, k);
    hide Run, Next, RunnerOk, Less;
    assert s.rows.Keys == Members(order[..k]);
  }

  /** A change starts only when every earlier migration has completed: its change came
      back and its row is clean. */
  lemma StartsAfterEarlier(order: seq<string>, states: seq<State>, actions: seq<Action>, i: nat, j: nat)
    requires Run(order, states, actions) && i < |actions| && actions[i].Start?
    requires actions[i].r in states[i].runners && j < states[i].runners[actions[i].r].at < |order|
    ensures CleanAt(order, states[i].rows, j) && j in states[i].returned
    ensures states[i].runners[actions[i].r].at !in states[i].ups
  {
    RunInv(order, states, actions, i);
    var s, r := states[i], actions[i].r;
    assert Next(order, s, actions[i], states[i + 1]);
    var k: nat :| InvAt(order, s, k);
    hide Run, Less;
    OkAt(order, s, k, r);
  }

  /** Nobody holds the dirty row: the change that was interrupted is nobody's. */
  ghost predicate Abandoned(s: State) {
    (exists id :: id in s.rows && s.rows[id])
    && forall r :: r in s.runners ==> !Busy(s.runners[r])
  }

  lemma AllClean(order: seq<string>, rows: map<string, bool>, k: nat)
    requires Prefix(order, rows, k) && CleanBelow(order, rows, k)
    ensures forall id :: id in rows ==> !rows[id]
  {
    forall id | id in rows
      ensures !rows[id]
    {
      var i :| 0 <= i < |order[..k]| && order[..k][i] == id;
      assert CleanAt(order, rows, i);
    }
  }

  lemma AbandonedStep(order: seq<string>, s: State, a: Action, s': State)
    requires Ascending(order) && Inv(order, s) && Abandoned(s) && Next(order, s, a, s')
    ensures Abandoned(s') && s'.rows == s.rows && s'.ups == s.ups
  {
    var k: nat :| InvAt(order, s, k);
    hide Less;
    if a.Record? && s'.rows != s.rows {
      OkAt(order, s, k, a.r);
      assert CleanBelow(order, s.rows, k);
      AllClean(order, s.rows, k);
    }
  }

  /** An interrupted change blocks every later run until someone repairs the ledger by
      hand: the dirty row stays and no change ever starts again. */
  lemma {:induction false} InterruptedBlocks(order: seq<string>, states: seq<State>, actions: seq<Action>,
                                             i: nat, j: nat)
    requires Run(order, states, actions) && i <= j < |states| && Abandoned(states[i])
    ensures Abandoned(states[j]) && states[j].rows == states[i].rows && states[j].ups == states[i].ups
    decreases j
  {
    hide Next, Abandoned, Inv, Less;
    if i < j {
      InterruptedBlocks(order, states, actions, i, j - 1);
      RunInv(order, states, actions, j - 1);
      AbandonedStep(order, states[j - 1], actions[j - 1], states[j]);
    }
  }

  // ---- a runner that is left alone --------------------------------------

  ghost predicate Steps(order: seq<string>, states: seq<State>, actions: seq<Action>) {
    |states| == |actions| + 1 && forall i :: 0 <= i < |actions| ==> Next(order, states[i], actions[i], states[i + 1])
  }

  predicate AllRowsClean(rows: map<string, bool>) {
    forall id :: id in rows ==> !rows[id]
  }

  /** What a deciding runner read is still how things are from its position on. */
  predicate UpToDate(order: seq<string>, s: State, r: nat) {
    At(s, r, Deciding) && AllRowsClean(s.rows)
    && var runner := s.runners[r];
    runner.at <= runner.length <= |order|
    && (forall i :: 0 <= i < runner.at ==> order[i] in s.rows)
    && (forall i :: runner.at <= i < |order| ==> (order[i] in s.rows <==> order[i] in runner.applied))
  }

  lemma StepsAppend(order: seq<string>, states: seq<State>, actions: seq<Action>, a: Action, s: State)
    requires Steps(order, states, actions) && Next(order, states[|states| - 1], a, s)
    ensures Steps(order, states + [s], actions + [a])
  {
    hide Next;
  }

  lemma StepsJoin(order: seq<string>, states: seq<State>, actions: seq<Action>, states': seq<State>,
                  actions': seq<Action>)
    requires Steps(order, states, actions) && Steps(order, states', actions')
    requires states[|states| - 1] == states'[0]
    ensures Steps(order, states + states'[1..], actions + actions')
  {
    hide Next;
  }

  /** One position: skipped, or recorded, started, returned and cleared. */
  lemma OnePosition(order: seq<string>, s: State, r: nat) returns (states: seq<State>, actions: seq<Action>)
    requires Ascending(order) && UpToDate(order, s, r) && s.runners[r].at < s.runners[r].length
    ensures Steps(order, states, actions) && states[0] == s
    ensures
      var s', runner := states[|states| - 1], s.runners[r];
      UpToDate(order, s', r) && s'.runners == s.runners[r := runner.(at := runner.at + 1)]
      && s'.rows.Keys == s.rows.Keys + {order[runner.at]}
  {
    var runner := s.runners[r];
    var at := runner.at;
    var id := order[at];
    DistinctOrder(order, at);
    hide Ascending, Less;
    if id in runner.applied {
      var s1 := With(s, r, runner.(at := at + 1));
      actions, states := [Skip(r)], [s, s1];
      assert s1.rows.Keys == s.rows.Keys + {id};
    } else {
      var s1 := With(s, r, runner.(stage := Recorded)).(rows := s.rows[id := true]);
      var s2 := With(s1, r, runner.(stage := Running)).(ups := s1.ups + [at]);
      var s3 := With(s2, r, runner.(stage := Returned)).(returned := s2.returned + {at});
      var s4 := With(s3, r, runner.(at := at + 1)).(rows := s3.rows[id := false]);
      actions, states := [Record(r), Start(r), Return(r), Clear(r)], [s, s1, s2, s3, s4];
      assert s4.rows == s.rows[id := false];
    }
  }

  lemma {:induction false} Positions(order: seq<string>, s: State, r: nat)
      returns (states: seq<State>, actions: seq<Action>)
    requires Ascending(order) && UpToDate(order, s, r)
    ensures Steps(order, states, actions) && states[0] == s
    ensures
      var s', runner := states[|states| - 1], s.runners[r];
      UpToDate(order, s', r) && s'.runners == s.runners[r := runner.(at := runner.length)]
      && s'.rows.Keys == s.rows.Keys + Members(order[runner.at..runner.length])
    decreases |order| - s.runners[r].at
  {
    hide Next, Ascending, Less;
    var runner := s.runners[r];
    if runner.at == runner.length {
      states, actions := [s], [];
      assert s.rows.Keys == s.rows.Keys + Members(order[runner.at..runner.length]);
    } else {
      states, actions := OnePosition(order, s, r);
      var s' := states[|states| - 1];
      var states', actions' := Positions(order, s', r);
      StepsJoin(order, states, actions, states', actions');
      assert order[runner.at..runner.length] == [order[runner.at]] + order[runner.at + 1..runner.length];
      MembersCons(order[runner.at], order[runner.at + 1..runner.length]);
      states, actions := states + states'[1..], actions + actions';
    }
  }

  /** From every state with a clean ledger, a runner that is left alone and whose changes
      all succeed gets to the end of its list: everything in it is then in the ledger,
      clean, and the other runners stand where they stood. */
  lemma SoloCompletes(order: seq<string>, s: State, r: nat, length: nat)
      returns (states: seq<State>, actions: seq<Action>)
    requires Ascending(order) && AllRowsClean(s.rows) && r !in s.runners && length <= |order|
    ensures Steps(order, states, actions) && states[0] == s
    ensures
      var s' := states[|states| - 1];
      AllRowsClean(s'.rows) && s'.rows.Keys == s.rows.Keys + Members(order[..length]) && s'.runners == s.runners
  {
    hide Ascending, Less;
    var s1 := With(s, r, Runner(length, {}, 0, Starting));
    var s2 := With(s1, r, Runner(length, s.rows.Keys, 0, Deciding));
    assert Steps(order, [s, s1, s2], [Arrive(r, length), Read(r)]);
    var states', actions' := Positions(order, s2, r);
    StepsJoin(order, [s, s1, s2], [Arrive(r, length), Read(r)], states', actions');
    states, actions := [s, s1, s2] + states'[1..], [Arrive(r, length), Read(r)] + actions';
    var last := states[|states| - 1];
    assert order[0..length] == order[..length];
    assert Without(last, r).runners == s.runners;
    StepsAppend(order, states, actions, Leave(r), Without(last, r));
    states, actions := states + [Without(last, r)], actions + [Leave(r)];
  }
}
