/** What holds in every run of the settlement protocol. */
module SettlementSafety {
  import opened Wrappers
  import opened Statuses
  import opened Tables
  import opened Settlement

  // ---- the invariant ----------------------------------------------------

  /** Phases in which a request has a row of its own that nobody else may touch. */
  predicate Owning(q: Phase) {
    q.Inserted? || q.Calling? || q.Answered?
  }

  /** A request between its insert and its persist: its rows are as it created
      them, and the provider has been called once, or not yet. */
  ghost predicate Owns(t: Tables, calls: multiset<Id>, q: Phase)
    requires Owning(q)
  {
    Untouched(t, q.txId, q.attId)
    && t.txs[q.txId].payment == q.p
    && calls[q.txId] == if q.Inserted? then 0 else 1
  }

  predicate SameRow(q: Phase, q': Phase) {
    Owning(q) && Owning(q') && q.txId == q'.txId
  }

  ghost predicate RequestsOk(s: State) {
    (forall r :: r in s.requests && Owning(s.requests[r]) ==> Owns(s.t, s.calls, s.requests[r]))
    && (forall r, q :: r in s.requests && q in s.requests && SameRow(s.requests[r], s.requests[q]) ==> r == q)
  }

  ghost predicate WorkOk(t: Tables, w: Work) {
    match w
    case Polling(x) => x in t.txs && t.txs[x].providerReference != ""
    case Reading(batch) => forall i :: 0 <= i < |batch| ==> batch[i] in t.events
  }

  ghost predicate WorkersOk(s: State) {
    forall w :: w in s.workers ==> WorkOk(s.t, s.workers[w])
  }

  ghost predicate CallsOk(s: State) {
    forall x :: (x in s.calls ==> x in s.t.txs) && s.calls[x] <= 1
  }

  predicate ReplyOk(t: Tables, reply: Reply) {
    reply.txId.Some? ==>
      reply.txId.value in t.txs
      && var p := t.txs[reply.txId.value].payment;
      p.app == reply.app && p.key == reply.key && p.hash == reply.hash
  }

  ghost predicate RepliesOk(s: State) {
    forall i :: 0 <= i < |s.replies| ==> ReplyOk(s.t, s.replies[i])
  }

  ghost predicate Inv(s: State) {
    Sound(s.t) && RequestsOk(s) && WorkersOk(s) && CallsOk(s) && RepliesOk(s)
  }

  // ---- one step ---------------------------------------------------------

  /** A row with attempts and no changes has no published reference. */
  lemma UntouchedUnpublished(t: Tables, txId: Id, attId: Id)
    requires Sound(t) && Untouched(t, txId, attId)
    ensures t.txs[txId].providerReference == ""
  {
  }

  lemma OwnsKept(t: Tables, t': Tables, calls: multiset<Id>, q: Phase, except: Option<Id>)
    requires Owning(q) && Owns(t, calls, q) && Sound(t) && Gentle(t, t', except) && except != Some(q.txId)
    ensures Owns(t', calls, q)
  {
  }

  /** The tables may move under everyone, as long as no one owns the payment that
      moved out of turn. */
  lemma TablesStep(s: State, t': Tables, except: Option<Id>)
    requires Inv(s) && Sound(t') && Stable(s.t, t') && Gentle(s.t, t', except)
    requires forall r :: r in s.requests && Owning(s.requests[r]) ==> except != Some(s.requests[r].txId)
    ensures Inv(s.(t := t'))
  {
    hide Sound, Owns, Gentle;
    forall r | r in s.requests && Owning(s.requests[r])
      ensures Owns(t', s.calls, s.requests[r])
    {
      OwnsKept(s.t, t', s.calls, s.requests[r], except);
    }
  }

  lemma Forget(s: State, r: nat)
    requires Inv(s)
    ensures Inv(s.(requests := s.requests - {r}))
  {
  }

  lemma Answers(s: State, reply: Reply)
    requires Inv(s) && ReplyOk(s.t, reply)
    ensures Inv(s.(replies := s.replies + [reply]))
  {
  }

  lemma FinishKeeps(s: State, r: nat, p: Payment, told: Option<Id>)
    requires Inv(s) && ReplyOk(s.t, Reply(p.app, p.key, p.hash, told))
    ensures Inv(Finish(s, r, p, told))
  {
  }

  lemma PhaseKeeps(s: State, r: nat, q: Phase)
    requires Inv(s) && !Owning(q)
    ensures Inv(s.(requests := s.requests[r := q]))
  {
    hide Sound, Owns;
  }

  lemma WorkKeeps(s: State, workers: map<nat, Work>)
    requires Inv(s)
    requires forall w :: w in workers ==> WorkOk(s.t, workers[w])
    ensures Inv(s.(workers := workers))
  {
  }

  lemma TakeRow(s: State, r: nat, q: Phase)
    requires Inv(s) && Owning(q) && Owns(s.t, s.calls, q)
    requires forall x :: x in s.requests && Owning(s.requests[x]) ==> s.requests[x].txId != q.txId
    ensures Inv(s.(requests := s.requests[r := q]))
  {
    hide Sound, Owns;
  }

  lemma InsertStep(s: State, a: Action, s': State)
    requires Inv(s) && a.Insert? && Next(s, a, s')
    ensures Inv(s')
  {
    hide Inv, InsertPayment, Owns;
    var q := s.requests[a.r];
    InsertTables(s, q.p, q.txId, q.attId, a.now);
    var moved := s.(t := s'.t);
    if a.reported {
      TakeRow(moved, a.r, s'.requests[a.r]);
    } else {
      PhaseKeeps(moved, a.r, s'.requests[a.r]);
    }
  }

  /** The tables with the new rows, and the new payment free for the request to own. */
  lemma InsertTables(s: State, p: Payment, txId: Id, attId: Id, now: int)
    requires Inv(s) && InsertPayment(s.t, p, txId, attId, now).Ok?
    ensures
      var t' := InsertPayment(s.t, p, txId, attId, now).value;
      Inv(s.(t := t')) && Owns(t', s.calls, Inserted(p, txId, attId))
    ensures forall x :: x in s.requests && Owning(s.requests[x]) ==> s.requests[x].txId != txId
  {
    InsertSound(s.t, p, txId, attId, now);
    InsertMoves(s.t, p, txId, attId, now);
    InsertedRow(s.t, p, txId, attId, now);
    OldOwner(s, txId);
    Uncalled(s, txId);
    hide Inv, Sound, Stable, Gentle, InsertPayment, Untouched;
    TablesStep(s, InsertPayment(s.t, p, txId, attId, now).value, None);
  }

  lemma Uncalled(s: State, txId: Id)
    requires Inv(s) && txId !in s.t.txs
    ensures s.calls[txId] == 0
  {
  }

  lemma InsertedRow(t: Tables, p: Payment, txId: Id, attId: Id, now: int)
    requires InsertPayment(t, p, txId, attId, now).Ok?
    ensures txId !in t.txs
    ensures var t' := InsertPayment(t, p, txId, attId, now).value; txId in t'.txs && t'.txs[txId].payment == p
  {
  }

  lemma OldOwner(s: State, txId: Id)
    requires Inv(s) && txId !in s.t.txs
    ensures forall x :: x in s.requests && Owning(s.requests[x]) ==> s.requests[x].txId != txId
  {
  }

  lemma CallStep(s: State, a: Action, s': State)
    requires Inv(s) && (a.Call? || a.Return?) && Next(s, a, s')
    ensures Inv(s')
  {
    hide Sound, Untouched;
    var q := s.requests[a.r];
    assert Owns(s.t, s.calls, q);
    assert q.txId in s.t.txs by { InTxs(s.t, q.txId, q.attId); }
    forall x | x in s'.requests && Owning(s'.requests[x])
      ensures Owns(s'.t, s'.calls, s'.requests[x])
    {
      if x != a.r {
        assert Owns(s.t, s.calls, s.requests[x]);
      }
    }
  }

  lemma InTxs(t: Tables, txId: Id, attId: Id)
    requires Untouched(t, txId, attId)
    ensures txId in t.txs
  {
  }

  lemma OwnedRow(s: State, r: nat)
    requires Inv(s) && r in s.requests && Owning(s.requests[r])
    ensures Sound(s.t)
    ensures var q := s.requests[r];
      Untouched(s.t, q.txId, q.attId) && q.txId in s.t.txs && s.t.txs[q.txId].payment == q.p
    ensures forall x :: x in s.requests && x != r && Owning(s.requests[x]) ==> s.requests[x].txId != s.requests[r].txId
  {
  }

  lemma PersistStep(s: State, a: Action, s': State)
    requires Inv(s) && a.Persist? && Next(s, a, s')
    ensures Inv(s') && Stable(s.t, s'.t) && Gentle(s.t, s'.t, Some(s.requests[a.r].txId))
  {
    hide Inv, PersistPayment, Untouched, Sound, Gentle, Path;
    var q := s.requests[a.r];
    OwnedRow(s, a.r);
    PersistMoves(s.t, q.txId, q.attId, q.answer, a.now);
    var rest := s.(requests := s.requests - {a.r});
    Forget(s, a.r);
    TablesStep(rest, s'.t, Some(q.txId));
    Answers(rest.(t := s'.t), Reply(q.p.app, q.p.key, q.p.hash, if a.reported then Some(q.txId) else None));
  }

  lemma WorkFacts(s: State, w: nat)
    requires Inv(s) && w in s.workers
    ensures Sound(s.t) && WorkOk(s.t, s.workers[w])
  {
  }

  lemma PollStep(s: State, a: Action, s': State)
    requires Inv(s) && (a.Poll? || a.Defer?) && Next(s, a, s')
    ensures Inv(s') && Stable(s.t, s'.t) && Gentle(s.t, s'.t, None)
  {
    hide Inv, Sound, Stable, Gentle, RecordPoll, DeferPoll, LatestForTransaction;
    WorkFacts(s, a.w);
    if a.Poll? {
      PollMoves(s.t, s.workers[a.w].txId, a.word, a.pick, a.now);
    } else {
      DeferMoves(s.t, s.workers[a.w].txId, a.now);
    }
    WorkerMoves(s, s'.t, s'.workers);
  }

  lemma ReapplyStep(s: State, a: Action, s': State)
    requires Inv(s) && a.Reapply? && Next(s, a, s')
    ensures Inv(s') && Stable(s.t, s'.t) && Gentle(s.t, s'.t, None)
  {
    hide Inv, Sound, Stable, Gentle, ApplyWebhook, LatestForReference;
    WorkFacts(s, a.w);
    var head := s.workers[a.w].batch[0];
    EventAddressed(s.t, head);
    WebhookMoves(s.t, head, s.t.events[head].event, a.pick, a.now);
    WorkerMoves(s, s'.t, s'.workers);
  }

  lemma EventAddressed(t: Tables, r: Id)
    requires Sound(t) && r in t.events
    ensures t.events[r].event.providerReference != ""
  {
  }

  predicate Shrinks(w: Work, w': Work) {
    w' == w || (w.Reading? && w'.Reading? && w.batch != [] && w'.batch == w.batch[1..])
  }

  lemma WorkerMoves(s: State, t': Tables, workers: map<nat, Work>)
    requires Inv(s) && Sound(t') && Stable(s.t, t') && Gentle(s.t, t', None)
    requires forall w :: w in workers ==> w in s.workers && Shrinks(s.workers[w], workers[w])
    ensures Inv(s.(t := t', workers := workers))
  {
    hide Sound, Gentle;
    TablesStep(s, t', None);
    forall w | w in workers
      ensures WorkOk(t', workers[w])
    {
      assert WorkOk(s.t, s.workers[w]);
    }
    WorkKeeps(s.(t := t'), workers);
  }

  predicate Ending(a: Action) {
    match a
    case Refuse(_) => true
    case Find(_, found) => found.Some?
    case Recheck(_, _) => true
    case PersistFails(_) => true
    case Crash(_) => true
    case _ => false
  }

  /** Steps that leave the tables alone and end a request. */
  lemma EndingStep(s: State, a: Action, s': State)
    requires Inv(s) && Next(s, a, s')
    requires Ending(a)
    ensures Inv(s') && s'.t == s.t
  {
    hide Inv;
    match a {
      case Refuse(r) => FinishKeeps(s, r, s.requests[r].p, None);
      case Find(r, found) => FinishKeeps(s, r, s.requests[r].p, Replay(s.t, found.value, s.requests[r].p.hash));
      case Recheck(r, found) =>
        FinishKeeps(s, r, s.requests[r].p,
                    match found case Some(x) => Replay(s.t, x, s.requests[r].p.hash) case None => None);
      case PersistFails(r) => FinishKeeps(s, r, s.requests[r].p, None);
      case Crash(r) => Forget(s, r);
    }
  }

  /** Steps that leave the tables alone and end nothing. */
  lemma QuietStep(s: State, a: Action, s': State)
    requires Inv(s) && Next(s, a, s')
    requires a.Arrive? || (a.Find? && a.found.None?) || a.InsertFails? || a.Select? || a.Fetch? || a.Stop?
    ensures Inv(s') && s'.t == s.t
  {
    hide Sound, RequestsOk, CallsOk, RepliesOk;
    match a {
      case Arrive(r, _, _, _) => PhaseKeeps(s, r, s'.requests[r]);
      case Find(r, _) => PhaseKeeps(s, r, s'.requests[r]);
      case InsertFails(r) => PhaseKeeps(s, r, s'.requests[r]);
      case _ => WorkKeeps(s, s'.workers);
    }
  }

  /** Who may move what in a step: an unpublished payment moves only by the persist
      of the request that owns it. */
  ghost predicate Disciplined(s: State, a: Action, s': State) {
    Stable(s.t, s'.t)
    && forall x :: x in s.t.txs && s.t.txs[x].providerReference == "" && !SameRows(s.t, s'.t, x)
         ==> a.Persist? && a.r in s.requests && s.requests[a.r].Answered? && s.requests[a.r].txId == x
  }

  lemma GentleDisciplined(s: State, a: Action, s': State)
    requires Stable(s.t, s'.t) && Gentle(s.t, s'.t, None)
    ensures Disciplined(s, a, s')
  {
  }

  /** Every step keeps the invariant and the discipline. */
  lemma StepKeeps(s: State, a: Action, s': State)
    requires Inv(s) && Next(s, a, s')
    ensures Inv(s') && Disciplined(s, a, s')
  {
    hide Inv, Stable, Gentle, SameRows;
    match a {
      case Insert(r, now, _) =>
        InsertStep(s, a, s');
        var q := s.requests[r];
        SoundTables(s);
        InsertMoves(s.t, q.p, q.txId, q.attId, now);
        GentleDisciplined(s, a, s');
      case Call(_) => CallStep(s, a, s'); SameTables(s.t); GentleDisciplined(s, a, s');
      case Return(_, _) => CallStep(s, a, s'); SameTables(s.t); GentleDisciplined(s, a, s');
      case Persist(r, _, _) =>
        PersistStep(s, a, s');
        GentleOwner(s, a, s');
      case Deliver(rowId, e, pick, now) =>
        SoundTables(s);
        HandleMoves(s.t, rowId, e, pick, now);
        TablesStep(s, s'.t, None);
        GentleDisciplined(s, a, s');
      case Poll(_, _, _, _) => PollStep(s, a, s'); GentleDisciplined(s, a, s');
      case Defer(_, _) => PollStep(s, a, s'); GentleDisciplined(s, a, s');
      case Reapply(_, _, _) => ReapplyStep(s, a, s'); GentleDisciplined(s, a, s');
      case _ =>
        if Ending(a) {
          EndingStep(s, a, s');
        } else {
          QuietStep(s, a, s');
        }
        SameTables(s.t);
        GentleDisciplined(s, a, s');
    }
  }

  lemma GentleOwner(s: State, a: Action, s': State)
    requires a.Persist? && a.r in s.requests && s.requests[a.r].Answered?
    requires Stable(s.t, s'.t) && Gentle(s.t, s'.t, Some(s.requests[a.r].txId))
    ensures Disciplined(s, a, s')
  {
  }

  lemma SoundTables(s: State)
    requires Inv(s)
    ensures Sound(s.t)
  {
  }

  lemma InitialInv()
    ensures Inv(INITIAL)
  {
  }

  // ---- runs -------------------------------------------------------------

  /** A run: its states, and the action between each two. */
  predicate Run(states: seq<State>, actions: seq<Action>) {
    |states| == |actions| + 1
    && states[0] == INITIAL
    && forall i :: 0 <= i < |actions| ==> Next(states[i], actions[i], states[i + 1])
  }

  lemma {:induction false} RunInv(states: seq<State>, actions: seq<Action>, i: nat)
    requires Run(states, actions) && i < |states|
    ensures Inv(states[i])
  {
    hide Inv, Next;
    if i == 0 {
      InitialInv();
    } else {
      RunInv(states, actions, i - 1);
      StepKeeps(states[i - 1], actions[i - 1], states[i]);
    }
  }

  lemma StableTransitive(t: Tables, u: Tables, v: Tables)
    requires Stable(t, u) && Stable(u, v)
    ensures Stable(t, v)
  {
  }

  /** Over any stretch of any run, nothing settled comes undone. */
  lemma {:induction false} RunStable(states: seq<State>, actions: seq<Action>, i: nat, j: nat)
    requires Run(states, actions) && i <= j < |states|
    ensures Stable(states[i].t, states[j].t)
    decreases j
  {
    hide Inv, Next, Stable;
    if i == j {
      SameTables(states[i].t);
    } else {
      RunStable(states, actions, i, j - 1);
      RunInv(states, actions, j - 1);
      StepKeeps(states[j - 1], actions[j - 1], states[j]);
      StableTransitive(states[i].t, states[j - 1].t, states[j].t);
    }
  }

  /** A terminal status, once committed, is the status of the transaction and of its
      attempt for ever after, whoever runs. */
  lemma TerminalForever(states: seq<State>, actions: seq<Action>, i: nat, j: nat, x: Id, a: Id)
    requires Run(states, actions) && i <= j < |states|
    requires x in states[i].t.txs && Terminal(states[i].t.txs[x].status)
    requires a in states[j].t.attempts && states[j].t.attempts[a].txId == x
    ensures x in states[j].t.txs && states[j].t.txs[x].status == states[i].t.txs[x].status
    ensures states[j].t.attempts[a].status == states[i].t.txs[x].status
    ensures states[j].t.attempts[a].completedAt.Some?
  {
    RunStable(states, actions, i, j);
    var b := AttemptReached(states, actions, j, x);
    hide Run;
  }

  lemma RowReached(states: seq<State>, actions: seq<Action>, i: nat, x: Id)
    requires Run(states, actions) && i < |states| && x in states[i].t.txs
    ensures RowOk(states[i].t.txs[x], Path(states[i].t.changes, x))
  {
    RunInv(states, actions, i);
    hide Path, RowOk, Next, Run, OneAttempt, OneKey, RequestsOk, WorkersOk, CallsOk, RepliesOk, Linked, Addressed;
  }

  /** Status and schedule of every row in every reachable state: pending and made-up
      statuses are unreachable; a row is untouched, or it has been published to the
      schedule and is due again exactly while it is not settled. */
  lemma ReachableRow(states: seq<State>, actions: seq<Action>, i: nat, x: Id)
    requires Run(states, actions) && i < |states| && x in states[i].t.txs
    ensures
      var t := states[i].t;
      var row, path := t.txs[x], Path(t.changes, x);
      Normalized(row.status)
      && (path == [] ==> row.status == Processing && row.providerReference == "" && row.nextPoll.None?)
      && (path != [] ==> (row.nextPoll.None? <==> Terminal(row.status)))
  {
    RowReached(states, actions, i, x);
    hide Path, Walk, Run;
  }

  lemma AttemptReached(states: seq<State>, actions: seq<Action>, i: nat, x: Id) returns (a: Id)
    requires Run(states, actions) && i < |states| && x in states[i].t.txs
    ensures a in states[i].t.attempts && states[i].t.attempts[a].txId == x
    ensures forall b :: b in states[i].t.attempts && states[i].t.attempts[b].txId == x ==> b == a
    ensures PairOk(states[i].t.txs[x], states[i].t.attempts[a])
  {
    RunInv(states, actions, i);
    hide Path, PairOk, Next, Run, OneKey, RequestsOk, WorkersOk, CallsOk, RepliesOk, Walked, Addressed;
    var t := states[i].t;
    assert HasAttempt(t, x);
    a :| a in t.attempts && t.attempts[a].txId == x;
  }

  /** Every transaction has one attempt; the two agree on the reference, on being
      settled, and on the status but for a poll that could not be made. */
  lemma ReachableAttempt(states: seq<State>, actions: seq<Action>, i: nat, x: Id)
    requires Run(states, actions) && i < |states| && x in states[i].t.txs
    ensures
      var t := states[i].t;
      exists a :: a in t.attempts && t.attempts[a].txId == x
        && (forall b :: b in t.attempts && t.attempts[b].txId == x ==> b == a)
        && t.attempts[a].providerReference == t.txs[x].providerReference
        && (t.attempts[a].completedAt.Some? <==> Terminal(t.txs[x].status))
        && (t.attempts[a].status == t.txs[x].status
            || (t.txs[x].status == Unknown && t.attempts[a].status == Processing))
  {
    var a := AttemptReached(states, actions, i, x);
    hide Run;
  }

  lemma WalkFacts(path: seq<Change>)
    requires Walk(path)
    ensures forall k :: 0 <= k < |path| ==> Edge(path[k].previous, path[k].status)
    ensures forall k :: 0 <= k < |path| ==> (path[k].source == Request <==> k == 0)
    ensures forall k :: 0 < k < |path| ==> path[k].previous == path[k - 1].status
    ensures forall k :: 0 <= k < |path| - 1 ==> !Terminal(path[k].status)
    ensures path != [] ==> path[0].previous == Pending
  {
    forall k | 0 <= k < |path| - 1
      ensures !Terminal(path[k].status)
    {
      assert path[k + 1].previous == path[k].status && Edge(path[k + 1].previous, path[k + 1].status);
    }
  }

  /** The changes published for a transaction, in commit order, walk the status
      graph without a gap: the request's change out of pending comes first, each
      one starts where the one before ended, the stored status is where the last
      one ended, and nothing follows a terminal one. */
  lemma ChangesAreAWalk(states: seq<State>, actions: seq<Action>, i: nat, x: Id)
    requires Run(states, actions) && i < |states| && x in states[i].t.txs
    ensures
      var path := Path(states[i].t.changes, x);
      (forall k :: 0 <= k < |path| ==> Edge(path[k].previous, path[k].status))
      && (forall k :: 0 <= k < |path| ==> (path[k].source == Request <==> k == 0))
      && (forall k :: 0 < k < |path| ==> path[k].previous == path[k - 1].status)
      && (forall k :: 0 <= k < |path| - 1 ==> !Terminal(path[k].status))
      && (path != [] ==> path[0].previous == Pending
                         && states[i].t.txs[x].status == path[|path| - 1].status)
  {
    RowReached(states, actions, i, x);
    hide Path, Run, Walk, Edge, Terminal, Normalized;
    WalkFacts(Path(states[i].t.changes, x));
  }

  /** An unpublished payment changes only when the request that owns it persists. */
  lemma UnpublishedIsPrivate(states: seq<State>, actions: seq<Action>, i: nat, x: Id)
    requires Run(states, actions) && i < |actions|
    requires x in states[i].t.txs && states[i].t.txs[x].providerReference == ""
    ensures
      var a := actions[i];
      (a.Persist? && a.r in states[i].requests && states[i].requests[a.r].Answered?
       && states[i].requests[a.r].txId == x)
      || SameRows(states[i].t, states[i + 1].t, x)
  {
    RunInv(states, actions, i);
    hide Inv, Next, SameRows, Stable;
    StepKeeps(states[i], actions[i], states[i + 1]);
  }

  /** No write in flight can be refused by the graph: a persist always commits, a
      poll and a deferral always find a legal move. */
  lemma WritesNeverRefused(states: seq<State>, actions: seq<Action>, i: nat)
    requires Run(states, actions) && i < |states|
    ensures
      var s := states[i];
      (forall r, now :: r in s.requests && s.requests[r].Answered? ==>
         PersistPayment(s.t, s.requests[r].txId, s.requests[r].attId, Processing, s.requests[r].answer, now).Ok?)
      && (forall w, now :: w in s.workers && s.workers[w].Polling? ==> DeferPoll(s.t, s.workers[w].txId, now).Ok?)
      && (forall w, word, pick, now ::
            w in s.workers && s.workers[w].Polling? && s.workers[w].txId in s.t.txs
            && LatestForTransaction(s.t, s.workers[w].txId, s.t.txs[s.workers[w].txId].payment.account, pick)
            ==> RecordPoll(s.t, s.workers[w].txId, word, pick, now).Ok?)
  {
    RunInv(states, actions, i);
    var s := states[i];
    hide Next, Run, PersistPayment, DeferPoll, RecordPoll, Sound, LatestForTransaction, CallsOk, RepliesOk;
    forall r, now | r in s.requests && s.requests[r].Answered?
      ensures PersistPayment(s.t, s.requests[r].txId, s.requests[r].attId, Processing, s.requests[r].answer, now).Ok?
    {
      assert Owns(s.t, s.calls, s.requests[r]);
      PersistSound(s.t, s.requests[r].txId, s.requests[r].attId, s.requests[r].answer, now);
    }
    forall w, now | w in s.workers && s.workers[w].Polling?
      ensures DeferPoll(s.t, s.workers[w].txId, now).Ok?
    {
      assert WorkOk(s.t, s.workers[w]);
      DeferSound(s.t, s.workers[w].txId, now);
    }
    forall w, word, pick, now | w in s.workers && s.workers[w].Polling?
        && s.workers[w].txId in s.t.txs
        && LatestForTransaction(s.t, s.workers[w].txId, s.t.txs[s.workers[w].txId].payment.account, pick)
      ensures RecordPoll(s.t, s.workers[w].txId, word, pick, now).Ok?
    {
      assert WorkOk(s.t, s.workers[w]);
      PollSound(s.t, s.workers[w].txId, word, pick, now);
    }
  }

  // ---- idempotent creation ----------------------------------------------

  /** Under one application and key, or reference, there is one transaction, the provider is called
      for it at most once and only when its row is already stored, every success
      names it, and every success was for the very request that created it. */
  lemma OnePaymentPerKey(states: seq<State>, actions: seq<Action>, i: nat)
    requires Run(states, actions) && i < |states|
    ensures
      var s := states[i];
      (forall x, y :: x in s.t.txs && y in s.t.txs && SameKey(s.t.txs[x].payment, s.t.txs[y].payment) ==> x == y)
      && (forall x, y :: x in s.t.txs && y in s.t.txs && SameReference(s.t.txs[x].payment, s.t.txs[y].payment) ==>
            x == y)
      && (forall x :: x in s.calls ==> x in s.t.txs)
      && (forall x, y :: x in s.calls && y in s.calls
            && x in s.t.txs && y in s.t.txs && SameKey(s.t.txs[x].payment, s.t.txs[y].payment)
            ==> x == y && s.calls[x] == 1)
      && (forall k, l :: 0 <= k < |s.replies| && 0 <= l < |s.replies|
            && s.replies[k].txId.Some? && s.replies[l].txId.Some?
            && s.replies[k].app == s.replies[l].app && s.replies[k].key == s.replies[l].key
            ==> s.replies[k].txId == s.replies[l].txId && s.replies[k].hash == s.replies[l].hash)
  {
    hide Next, Run, Inv;
    RunInv(states, actions, i);
    OneKeyEach(states[i]);
    RepliesAgree(states[i]);
  }

  lemma OneKeyEach(s: State)
    requires Inv(s)
    ensures forall x, y :: x in s.t.txs && y in s.t.txs && SameKey(s.t.txs[x].payment, s.t.txs[y].payment) ==> x == y
    ensures forall x, y ::
      x in s.t.txs && y in s.t.txs && SameReference(s.t.txs[x].payment, s.t.txs[y].payment) ==> x == y
    ensures forall x :: x in s.calls ==> x in s.t.txs && s.calls[x] == 1
  {
    hide OneAttempt, Linked, Walked, Addressed, RequestsOk, WorkersOk, RepliesOk;
  }

  lemma RepliesAgree(s: State)
    requires Inv(s)
    ensures forall k, l ::
      (0 <= k < |s.replies| && 0 <= l < |s.replies|
       && s.replies[k].txId.Some? && s.replies[l].txId.Some?
       && s.replies[k].app == s.replies[l].app && s.replies[k].key == s.replies[l].key)
      ==> s.replies[k].txId == s.replies[l].txId && s.replies[k].hash == s.replies[l].hash
  {
    hide OneAttempt, Linked, Walked, Addressed, RequestsOk, WorkersOk, CallsOk;
    forall k, l | 0 <= k < |s.replies| && 0 <= l < |s.replies|
        && s.replies[k].txId.Some? && s.replies[l].txId.Some?
        && s.replies[k].app == s.replies[l].app && s.replies[k].key == s.replies[l].key
      ensures s.replies[k].txId == s.replies[l].txId && s.replies[k].hash == s.replies[l].hash
    {
      assert ReplyOk(s.t, s.replies[k]) && ReplyOk(s.t, s.replies[l]);
    }
  }

  /** A request that finds a row under its key made by a different request is told
      of an error, whether it looks before or after a failed insert. */
  lemma DifferentRequestRefused(states: seq<State>, actions: seq<Action>, i: nat, x: Id)
    requires Run(states, actions) && i < |actions|
    requires actions[i].Find? || actions[i].Recheck?
    requires x in states[i].t.txs && actions[i].r in states[i].requests
    requires SameKey(states[i].t.txs[x].payment, states[i].requests[actions[i].r].p)
    requires states[i].t.txs[x].payment.hash != states[i].requests[actions[i].r].p.hash
    ensures actions[i].r !in states[i + 1].requests
    ensures |states[i + 1].replies| == |states[i].replies| + 1
    ensures states[i + 1].replies[|states[i].replies|].txId == None
    ensures states[i + 1].t == states[i].t && states[i + 1].calls == states[i].calls
  {
    RunInv(states, actions, i);
    hide OneAttempt, Linked, Walked, Addressed, RequestsOk, WorkersOk;
    var s := states[i];
    assert Next(s, actions[i], states[i + 1]);
    if actions[i].found.Some? {
      assert SameKey(s.t.txs[x].payment, s.t.txs[actions[i].found.value].payment);
    }
  }

  /** Amount, fees, hash and the other payment columns never change. */
  lemma PaymentImmutable(states: seq<State>, actions: seq<Action>, i: nat, j: nat, x: Id)
    requires Run(states, actions) && i <= j < |states| && x in states[i].t.txs
    ensures x in states[j].t.txs && states[j].t.txs[x].payment == states[i].t.txs[x].payment
    ensures states[i].t.txs[x].providerReference != "" ==>
              states[j].t.txs[x].providerReference == states[i].t.txs[x].providerReference
    ensures states[i].t.changes <= states[j].t.changes
  {
    hide Run;
    RunStable(states, actions, i, j);
  }
}
