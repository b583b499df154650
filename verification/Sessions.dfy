/** Token sessions: the table, and any number of callers refreshing at once.

    Application and administrator sessions work alike; an administrator's session has
    its user as both `app` and `credential`. Tokens stand for the hashes of the random
    token ids, which never repeat. */
module Sessions {
  import opened Wrappers

  datatype Session = Session(app: nat, credential: nat, access: nat, refresh: nat, expires: int, revoked: Option<int>)

  type Rows = map<nat, Session>

  predicate Usable(row: Session, now: int) {
    row.expires > now && row.revoked.None?
  }

  predicate Answers(row: Session, app: nat, credential: nat, token: nat, now: int) {
    row.app == app && row.credential == credential && row.refresh == token && Usable(row, now)
  }

  predicate Admits(row: Session, app: nat, credential: nat, token: nat, now: int) {
    row.app == app && row.credential == credential && row.access == token && Usable(row, now)
  }

  /** The swap: only a row still carrying the previous refresh token is changed. Whether
      the session is revoked or expired is not looked at again. */
  function Rotated(rows: Rows, id: nat, previous: nat, access: nat, refresh: nat, expires: int): Result<Rows> {
    if id in rows && rows[id].refresh == previous
    then Ok(rows[id := rows[id].(access := access, refresh := refresh, expires := expires)])
    else Err(NotFound)
  }

  /** What a revocation reaches. */
  datatype Scope = OfApp(app: nat) | OfCredential(credential: nat) | OfToken(user: nat, access: nat)

  predicate Covers(scope: Scope, row: Session) {
    match scope
    case OfApp(app) => row.app == app
    case OfCredential(credential) => row.credential == credential
    case OfToken(user, access) => row.credential == user && row.access == access
  }

  function Revoked(rows: Rows, scope: Scope, at: int): Rows {
    map id | id in rows ::
      if Covers(scope, rows[id]) && rows[id].revoked.None? then rows[id].(revoked := Some(at)) else rows[id]
  }

  function Unexpired(rows: Rows, cutoff: int): Rows {
    map id | id in rows && rows[id].expires >= cutoff :: rows[id]
  }

  class Table {
    var rows: Rows

    constructor ()
      ensures rows == map[]
    {
      rows := map[];
    }

    method Create(id: nat, row: Session)
      modifies this
      ensures rows == old(rows)[id := row]
    {
      rows := rows[id := row];
    }

    method Live(app: nat, credential: nat, access: nat, now: int) returns (found: Option<nat>)
      ensures found.Some? ==>
        found.value in rows
        && var row := rows[found.value];
        row.app == app && row.credential == credential && row.access == access
        && row.expires > now && row.revoked == None
      ensures found.None? ==>
        forall id :: id in rows && rows[id].app == app && rows[id].credential == credential ==>
          rows[id].access != access || rows[id].expires <= now || rows[id].revoked.Some?
    {
      if id: nat :| id in rows && Admits(rows[id], app, credential, access, now) {
        return Some(id);
      }
      return None;
    }

    method LiveByRefresh(app: nat, credential: nat, refresh: nat, now: int) returns (found: Option<nat>)
      ensures Found(rows, app, credential, refresh, now, found)
      ensures found.Some? ==>
        found.value in rows
        && var row := rows[found.value];
        row.app == app && row.credential == credential && row.refresh == refresh
        && row.expires > now && row.revoked == None
      ensures found.None? ==>
        forall id :: id in rows && rows[id].app == app && rows[id].credential == credential ==>
          rows[id].refresh != refresh || rows[id].expires <= now || rows[id].revoked.Some?
    {
      if id: nat :| id in rows && Answers(rows[id], app, credential, refresh, now) {
        return Some(id);
      }
      return None;
    }

    method Rotate(id: nat, previous: nat, access: nat, refresh: nat, expires: int) returns (ok: bool)
      modifies this
      ensures ok == (id in old(rows) && old(rows)[id].refresh == previous)
      ensures ok ==> rows == old(rows)[id := Session(old(rows)[id].app, old(rows)[id].credential, access, refresh,
                                                     expires, old(rows)[id].revoked)]
      ensures !ok ==> rows == old(rows)
    {
      if id !in rows || rows[id].refresh != previous {
        return false;
      }
      rows := rows[id := rows[id].(access := access, refresh := refresh, expires := expires)];
      return true;
    }

    /** One transaction: the new or rotated session and the credential's stamp stand or
        fall together. `stamped` says whether stamping the credential worked. */
    method Issue(held: Option<(nat, nat)>, id: nat, row: Session, stamped: bool) returns (ok: bool)
      modifies this
      ensures
        var after := if held.None? then Ok(old(rows)[id := row])
                     else Rotated(old(rows), held.value.0, held.value.1, row.access, row.refresh, row.expires);
        ok == (after.Ok? && stamped) && rows == if ok then after.value else old(rows)
    {
      var before := rows;
      ok := true;
      if held.None? {
        Create(id, row);
      } else {
        ok := Rotate(held.value.0, held.value.1, row.access, row.refresh, row.expires);
      }
      if ok && !stamped {
        rows, ok := before, false;
      }
    }

    method Revoke(scope: Scope, at: int)
      modifies this
      ensures rows.Keys == old(rows).Keys
      ensures forall id :: id in rows ==>
        rows[id] == if Covers(scope, old(rows)[id]) && old(rows)[id].revoked.None?
                    then old(rows)[id].(revoked := Some(at)) else old(rows)[id]
    {
      rows := Revoked(rows, scope, at);
    }

    method DeleteExpired(cutoff: int) returns (removed: nat)
      modifies this
      ensures rows == Unexpired(old(rows), cutoff) && removed == |old(rows)| - |rows|
      ensures forall id :: id in rows <==> id in old(rows) && old(rows)[id].expires >= cutoff
      ensures forall id :: id in rows ==> rows[id] == old(rows)[id]
    {
      var before := rows.Keys;
      rows := Unexpired(rows, cutoff);
      Fewer(rows.Keys, before);
      removed := |before| - |rows.Keys|;
    }
  }

  lemma Fewer(some: set<nat>, all: set<nat>)
    requires some <= all
    ensures |some| <= |all|
  {
    assert all == some + (all - some);
  }

  // ---- many callers -----------------------------------------------------

  /** A token pair that was committed, and the refresh token it was exchanged for;
      none for a login. */
  datatype Issued = Issued(session: nat, previous: Option<nat>, access: nat, refresh: nat)

  /** A refresh request: it holds the session it found, and then either answered with
      the pair at a position of the log or was refused. */
  datatype Job = Holding(id: nat, token: nat) | Granted(token: nat, at: nat) | Denied

  datatype State = State(rows: Rows, jobs: map<nat, Job>, log: seq<Issued>)

  const INITIAL := State(map[], map[], [])

  datatype Action =
    | Login(id: nat, app: nat, credential: nat, access: nat, refresh: nat, expires: int)
    | Lookup(job: nat, app: nat, credential: nat, token: nat, now: int, found: Option<nat>)
    | Commit(job: nat, access: nat, refresh: nat, expires: int)
    | Fail(job: nat)
    | Revoke(scope: Scope, at: int)
    | Cleanup(cutoff: int)

  predicate Uses(entry: Issued, token: nat) {
    entry.access == token || entry.refresh == token
  }

  predicate Unused(log: seq<Issued>, token: nat) {
    forall i :: 0 <= i < |log| ==> !Uses(log[i], token)
  }

  predicate FreshPair(log: seq<Issued>, access: nat, refresh: nat) {
    access != refresh && Unused(log, access) && Unused(log, refresh)
  }

  predicate FreshId(log: seq<Issued>, id: nat) {
    forall i :: 0 <= i < |log| ==> log[i].session != id
  }

  predicate Found(rows: Rows, app: nat, credential: nat, token: nat, now: int, found: Option<nat>) {
    if found.Some? then found.value in rows && Answers(rows[found.value], app, credential, token, now)
    else forall id :: id in rows ==> !Answers(rows[id], app, credential, token, now)
  }

  predicate Next(s: State, a: Action, s': State) {
    match a
    case Login(id, app, credential, access, refresh, expires) =>
      FreshId(s.log, id) && FreshPair(s.log, access, refresh)
      && s' == State(s.rows[id := Session(app, credential, access, refresh, expires, None)], s.jobs,
                     s.log + [Issued(id, None, access, refresh)])
    case Lookup(job, app, credential, token, now, found) =>
      job !in s.jobs && Found(s.rows, app, credential, token, now, found)
      && s' == s.(jobs := s.jobs[job := if found.Some? then Holding(found.value, token) else Denied])
    case Commit(job, access, refresh, expires) =>
      job in s.jobs && s.jobs[job].Holding? && FreshPair(s.log, access, refresh)
      && var id, token := s.jobs[job].id, s.jobs[job].token;
         var after := Rotated(s.rows, id, token, access, refresh, expires);
         s' == if after.Ok?
               then State(after.value, s.jobs[job := Granted(token, |s.log|)],
                          s.log + [Issued(id, Some(token), access, refresh)])
               else s.(jobs := s.jobs[job := Denied])
    case Fail(job) => job in s.jobs && s.jobs[job].Holding? && s' == s.(jobs := s.jobs[job := Denied])
    case Revoke(scope, at) => s' == s.(rows := Revoked(s.rows, scope, at))
    case Cleanup(cutoff) => s' == s.(rows := Unexpired(s.rows, cutoff))
  }

  predicate Run(states: seq<State>, actions: seq<Action>) {
    |states| == |actions| + 1
    && states[0] == INITIAL
    && forall i :: 0 <= i < |actions| ==> Next(states[i], actions[i], states[i + 1])
  }

  // ---- the invariant ----------------------------------------------------

  /** Where the session's latest pair stands in the log; -1 before its login. */
  function Newest(log: seq<Issued>, session: nat): (k: int)
    ensures -1 <= k < |log|
    ensures k >= 0 ==> log[k].session == session
    ensures forall i :: k < i < |log| ==> log[i].session != session
  {
    if log == [] then -1
    else if log[|log| - 1].session == session then |log| - 1
    else Newest(log[..|log| - 1], session)
  }

  /** A rotation exchanges the refresh token of the session's latest pair. */
  predicate LinkAt(log: seq<Issued>, i: nat)
    requires i < |log|
  {
    var k := Newest(log[..i], log[i].session);
    log[i].previous == if k < 0 then None else Some(log[k].refresh)
  }

  predicate Apart(log: seq<Issued>) {
    (forall i :: 0 <= i < |log| ==> log[i].access != log[i].refresh)
    && forall i, j :: 0 <= i < j < |log| ==> !Uses(log[i], log[j].access) && !Uses(log[i], log[j].refresh)
  }

  predicate Chained(log: seq<Issued>) {
    forall i :: 0 <= i < |log| ==> LinkAt(log, i)
  }

  predicate RowOk(log: seq<Issued>, id: nat, row: Session) {
    var k := Newest(log, id);
    k >= 0 && row.access == log[k].access && row.refresh == log[k].refresh
  }

  predicate JobOk(log: seq<Issued>, job: Job) {
    job.Granted? ==> job.at < |log| && log[job.at].previous == Some(job.token)
  }

  predicate OneEach(jobs: map<nat, Job>) {
    forall i, j :: i in jobs && j in jobs && i != j && jobs[i].Granted? && jobs[j].Granted? ==> jobs[i].at != jobs[j].at
  }

  predicate Inv(s: State) {
    Chained(s.log) && Apart(s.log) && OneEach(s.jobs)
    && (forall id :: id in s.rows ==> RowOk(s.log, id, s.rows[id]))
    && forall j :: j in s.jobs ==> JobOk(s.log, s.jobs[j])
  }

  lemma Appended(log: seq<Issued>, entry: Issued)
    requires Chained(log) && Apart(log) && FreshPair(log, entry.access, entry.refresh)
    requires
      var k := Newest(log, entry.session);
      entry.previous == if k < 0 then None else Some(log[k].refresh)
    ensures Chained(log + [entry]) && Apart(log + [entry])
  {
    hide Newest;
    var log' := log + [entry];
    forall i | 0 <= i < |log'|
      ensures LinkAt(log', i)
    {
      assert log'[..i] == log[..i];
      if i == |log| {
        assert log[..i] == log;
      } else {
        assert LinkAt(log, i);
      }
    }
  }

  lemma NewestAppended(log: seq<Issued>, entry: Issued, session: nat)
    ensures
      Newest(log + [entry], session) == if entry.session == session then |log| else Newest(log, session)
  {
  }

  lemma LoginStep(s: State, a: Action, s': State)
    requires Inv(s) && Next(s, a, s') && a.Login?
    ensures Inv(s')
  {
    var entry := Issued(a.id, None, a.access, a.refresh);
    assert Newest(s.log, a.id) == -1;
    Appended(s.log, entry);
    hide Newest, Chained, Apart;
    forall id | id in s'.rows
      ensures RowOk(s'.log, id, s'.rows[id])
    {
      NewestAppended(s.log, entry, id);
      assert id != a.id ==> RowOk(s.log, id, s.rows[id]);
    }
    forall j | j in s'.jobs
      ensures JobOk(s'.log, s'.jobs[j])
    {
      assert JobOk(s.log, s.jobs[j]);
    }
  }

  lemma CommitStep(s: State, a: Action, s': State)
    requires Inv(s) && Next(s, a, s') && a.Commit? && s'.log != s.log
    ensures Inv(s')
  {
    hide Newest, Chained, Apart, FreshPair;
    var id, token := s.jobs[a.job].id, s.jobs[a.job].token;
    var entry := Issued(id, Some(token), a.access, a.refresh);
    assert RowOk(s.log, id, s.rows[id]);
    Appended(s.log, entry);
    forall i | i in s'.rows
      ensures RowOk(s'.log, i, s'.rows[i])
    {
      NewestAppended(s.log, entry, i);
      assert i != id ==> RowOk(s.log, i, s.rows[i]);
    }
    forall j | j in s'.jobs
      ensures JobOk(s'.log, s'.jobs[j])
      ensures j != a.job && s'.jobs[j].Granted? ==> s'.jobs[j].at < |s.log|
    {
      assert j != a.job ==> JobOk(s.log, s.jobs[j]);
    }
  }

  /** The other steps leave the log alone, hand out no pair, and change no row's tokens. */
  lemma QuietStep(s: State, a: Action, s': State)
    requires Inv(s) && Next(s, a, s') && s'.log == s.log
    ensures Inv(s')
  {
  }

  lemma StepKeeps(s: State, a: Action, s': State)
    requires Inv(s) && Next(s, a, s')
    ensures Inv(s') && s.log <= s'.log
  {
    if s'.log == s.log {
      QuietStep(s, a, s');
    } else if a.Login? {
      LoginStep(s, a, s');
    } else {
      CommitStep(s, a, s');
    }
  }

  lemma {:induction false} RunInv(states: seq<State>, actions: seq<Action>, n: nat)
    requires Run(states, actions) && n < |states|
    ensures Inv(states[n])
  {
    hide Next;
    if n > 0 {
      RunInv(states, actions, n - 1);
      hide Inv;
      StepKeeps(states[n - 1], actions[n - 1], states[n]);
    }
  }

  lemma {:induction false} LogGrows(states: seq<State>, actions: seq<Action>, n: nat, m: nat)
    requires Run(states, actions) && n <= m < |states|
    ensures states[n].log <= states[m].log
    decreases m
  {
    hide Next, Inv;
    if n < m {
      LogGrows(states, actions, n, m - 1);
      RunInv(states, actions, m - 1);
      StepKeeps(states[m - 1], actions[m - 1], states[m]);
    }
  }

  // ---- what callers may rely on -----------------------------------------

  /** A token answers for a session exactly as long as it belongs to the session's
      latest pair and the session is in the table. */
  lemma OnlyTheNewest(states: seq<State>, actions: seq<Action>, n: nat, i: nat, id: nat)
    requires Run(states, actions) && n < |states| && i < |states[n].log| && id in states[n].rows
    ensures
      var log, row := states[n].log, states[n].rows[id];
      (row.refresh == log[i].refresh <==> log[i].session == id && Newest(log, id) == i)
      && (row.access == log[i].access <==> log[i].session == id && Newest(log, id) == i)
      && row.refresh != log[i].access && row.access != log[i].refresh
  {
    RunInv(states, actions, n);
    hide Run, Next, Chained;
    assert RowOk(states[n].log, id, states[n].rows[id]);
  }

  /** No refresh token is exchanged twice: two rotations never start from the same one. */
  lemma RotatedOnce(states: seq<State>, actions: seq<Action>, n: nat, i: nat, j: nat)
    requires Run(states, actions) && n < |states| && i < j < |states[n].log|
    requires states[n].log[i].previous.Some?
    ensures states[n].log[i].previous != states[n].log[j].previous
  {
    RunInv(states, actions, n);
    hide Run, Next;
    var log := states[n].log;
    assert LinkAt(log, i) && LinkAt(log, j);
    var k, l := Newest(log[..i], log[i].session), Newest(log[..j], log[j].session);
    assert log[i].session == log[j].session ==> k < i <= l;
  }

  /** Of any number of concurrent refreshes with one token, at most one is answered. */
  lemma OneWinner(states: seq<State>, actions: seq<Action>, n: nat, i: nat, j: nat)
    requires Run(states, actions) && n < |states| && i in states[n].jobs && j in states[n].jobs && i != j
    requires states[n].jobs[i].Granted? && states[n].jobs[j].Granted?
    ensures states[n].jobs[i].token != states[n].jobs[j].token
  {
    RunInv(states, actions, n);
    hide Run, Next, Chained, Apart;
    var s := states[n];
    assert JobOk(s.log, s.jobs[i]) && JobOk(s.log, s.jobs[j]);
    if s.jobs[i].at < s.jobs[j].at {
      RotatedOnce(states, actions, n, s.jobs[i].at, s.jobs[j].at);
    } else {
      RotatedOnce(states, actions, n, s.jobs[j].at, s.jobs[i].at);
    }
  }

  /** A pair that was followed by another is dead from then on, in every later state. */
  lemma StaleForever(states: seq<State>, actions: seq<Action>, n: nat, m: nat, i: nat, id: nat)
    requires Run(states, actions) && n <= m < |states| && i < |states[n].log| && id in states[m].rows
    requires i < Newest(states[n].log, states[n].log[i].session)
    ensures !Uses(states[n].log[i], states[m].rows[id].access) && !Uses(states[n].log[i], states[m].rows[id].refresh)
  {
    LogGrows(states, actions, n, m);
    hide Run, Next, Chained, Apart;
    var log, log', session := states[n].log, states[m].log, states[n].log[i].session;
    var k := Newest(log, session);
    assert log'[i] == log[i] && log'[k] == log[k];
    assert Newest(log', session) >= k;
    OnlyTheNewest(states, actions, m, i, id);
  }

  /** Deleted, or revoked. */
  predicate Gone(rows: Rows, id: nat) {
    id in rows ==> rows[id].revoked.Some?
  }

  lemma GoneStep(s: State, a: Action, s': State, id: nat)
    requires Inv(s) && Next(s, a, s') && Gone(s.rows, id) && Newest(s.log, id) >= 0
    ensures Gone(s'.rows, id) && Newest(s'.log, id) >= 0
  {
  }

  lemma {:induction false} GoneStays(states: seq<State>, actions: seq<Action>, n: nat, m: nat, id: nat)
    requires Run(states, actions) && n <= m < |states|
    requires Gone(states[n].rows, id) && Newest(states[n].log, id) >= 0
    ensures Gone(states[m].rows, id) && Newest(states[m].log, id) >= 0
    decreases m
  {
    hide Next, Inv, Newest, Gone;
    if n < m {
      GoneStays(states, actions, n, m - 1, id);
      RunInv(states, actions, m - 1);
      GoneStep(states[m - 1], actions[m - 1], states[m], id);
    }
  }

  /** Once a session is revoked, or its row deleted after it expired, none of its tokens
      is ever accepted again, at any time: not those already issued, and not those a
      refresh in flight goes on to get. */
  lemma RevokedForever(states: seq<State>, actions: seq<Action>, n: nat, m: nat, session: nat, i: nat, id: nat,
                       now: int)
    requires Run(states, actions) && n <= m < |states|
    requires Newest(states[n].log, session) >= 0 && Gone(states[n].rows, session)
    requires i < |states[m].log| && states[m].log[i].session == session && id in states[m].rows
    requires Usable(states[m].rows[id], now)
    ensures
      var entry, row := states[m].log[i], states[m].rows[id];
      !Uses(entry, row.access) && !Uses(entry, row.refresh)
  {
    GoneStays(states, actions, n, m, session);
    hide Run, Next, Newest, Chained, Apart;
    OnlyTheNewest(states, actions, m, i, id);
  }

  /** The scopes that name a session: its application, its credential, or the access
      token it carries. */
  predicate Names(scope: Scope, row: Session) {
    scope == OfApp(row.app) || scope == OfCredential(row.credential) || scope == OfToken(row.credential, row.access)
  }

  /** From a revocation on, no token of a session it named is ever accepted again. */
  lemma RevocationEnds(states: seq<State>, actions: seq<Action>, n: nat, m: nat, session: nat, i: nat, id: nat,
                       now: int)
    requires Run(states, actions) && n < m < |states| && actions[n].Revoke?
    requires session in states[n].rows && Names(actions[n].scope, states[n].rows[session])
    requires i < |states[m].log| && states[m].log[i].session == session && id in states[m].rows
    requires Usable(states[m].rows[id], now)
    ensures
      var entry, row := states[m].log[i], states[m].rows[id];
      !Uses(entry, row.access) && !Uses(entry, row.refresh)
  {
    RunInv(states, actions, n);
    hide Run, Newest, Chained, Apart, Usable;
    assert Next(states[n], actions[n], states[n + 1]);
    assert RowOk(states[n].log, session, states[n].rows[session]);
    RevokedForever(states, actions, n + 1, m, session, i, id, now);
  }

  /** A session nobody revokes is not revoked: the only steps that stamp a session are
      revocations that name it. */
  lemma {:induction false} StampedBy(states: seq<State>, actions: seq<Action>, n: nat, session: nat) returns (k: nat)
    requires Run(states, actions) && n < |states|
    requires session in states[n].rows && states[n].rows[session].revoked.Some?
    ensures k < n && actions[k].Revoke? && session in states[k].rows
    ensures Names(actions[k].scope, states[k].rows[session]) && states[n].rows[session].revoked == Some(actions[k].at)
  {
    k := n - 1;
    RunStep(states, actions, k);
    if session in states[k].rows && states[k].rows[session].revoked.Some? {
      KeepsStamp(states[k], actions[k], states[n], session);
      k := StampedBy(states, actions, k, session);
    } else {
      Stamps(states[k], actions[k], states[n], session);
    }
  }

  lemma RunStep(states: seq<State>, actions: seq<Action>, k: nat)
    requires Run(states, actions) && k < |actions|
    ensures |states| == |actions| + 1 && Next(states[k], actions[k], states[k + 1])
  {
  }

  lemma KeepsStamp(s: State, a: Action, s': State, session: nat)
    requires Next(s, a, s') && session in s.rows && s.rows[session].revoked.Some? && session in s'.rows
    ensures s'.rows[session].revoked == s.rows[session].revoked || s'.rows[session].revoked.None?
  {
  }

  lemma Stamps(s: State, a: Action, s': State, session: nat)
    requires Next(s, a, s') && session in s'.rows && s'.rows[session].revoked.Some?
    requires session in s.rows ==> s.rows[session].revoked.None?
    ensures a.Revoke? && session in s.rows && Names(a.scope, s.rows[session])
    ensures s'.rows[session].revoked == Some(a.at)
  {
  }

  /** A token that was exchanged before is refused, both by the search and by the swap
      of a request that searched in time. */
  lemma ReplayRefused(states: seq<State>, actions: seq<Action>, n: nat, i: nat, id: nat)
    requires Run(states, actions) && n < |states| && i < |states[n].log| && states[n].log[i].previous.Some?
    requires id in states[n].rows
    ensures states[n].rows[id].refresh != states[n].log[i].previous.value
  {
    RunInv(states, actions, n);
    var log := states[n].log;
    assert LinkAt(log, i);
    var k := Newest(log[..i], log[i].session);
    assert log[..i][k] == log[k];
    hide Run, Next, Chained, Apart, Inv;
    assert Newest(log, log[i].session) >= i;
    OnlyTheNewest(states, actions, n, k, id);
  }

  /** A refresh holds a token that was issued for the session it found. */
  lemma {:induction false} HeldWasIssued(states: seq<State>, actions: seq<Action>, n: nat, job: nat) returns (k: nat)
    requires Run(states, actions) && n < |states| && job in states[n].jobs && states[n].jobs[job].Holding?
    ensures k < |states[n].log|
    ensures states[n].log[k].session == states[n].jobs[job].id && states[n].log[k].refresh == states[n].jobs[job].token
  {
    hide Inv, Next;
    RunStep(states, actions, n - 1);
    RunInv(states, actions, n - 1);
    StepKeeps(states[n - 1], actions[n - 1], states[n]);
    if job in states[n - 1].jobs && states[n - 1].jobs[job] == states[n].jobs[job] {
      k := HeldWasIssued(states, actions, n - 1, job);
    } else {
      k := FoundWasIssued(states[n - 1], actions[n - 1], states[n], job);
    }
  }

  lemma FoundWasIssued(s: State, a: Action, s': State, job: nat) returns (k: nat)
    requires Inv(s) && Next(s, a, s') && job in s'.jobs && s'.jobs[job].Holding?
    requires !(job in s.jobs && s.jobs[job] == s'.jobs[job])
    ensures k < |s'.log| && s'.log[k].session == s'.jobs[job].id && s'.log[k].refresh == s'.jobs[job].token
  {
    hide Chained, Apart, OneEach, JobOk;
    assert RowOk(s.log, s'.jobs[job].id, s.rows[s'.jobs[job].id]);
    k := Newest(s.log, s'.jobs[job].id);
  }

  /** A pair that was followed by another of its session was exchanged. */
  lemma {:induction false} Exchanged(log: seq<Issued>, k: nat) returns (i: nat)
    requires Chained(log) && k < |log| && k < Newest(log, log[k].session)
    ensures i < |log| && log[i].previous == Some(log[k].refresh)
    decreases |log|
  {
    hide Newest;
    i := Newest(log, log[k].session);
    assert LinkAt(log, i);
    var before := log[..i];
    assert before[k] == log[k];
    if Newest(before, log[k].session) != k {
      forall j | 0 <= j < i
        ensures LinkAt(before, j)
      {
        assert LinkAt(log, j) && before[..j] == log[..j];
      }
      assert k < i && Newest(before, before[k].session) >= k;
      i := Exchanged(before, k);
    }
  }

  /** A refresh is answered exactly when the session it found is still in the table and
      nobody has exchanged the token it holds; nothing but the session's pair and expiry
      changes, and a revoked session stays revoked. */
  lemma AnsweredExact(states: seq<State>, actions: seq<Action>, n: nat)
    requires Run(states, actions) && n < |actions| && actions[n].Commit?
    ensures
      var s, s', a := states[n], states[n + 1], actions[n];
      a.job in s.jobs && s.jobs[a.job].Holding?
      && var id, token := s.jobs[a.job].id, s.jobs[a.job].token;
      (if id in s.rows && forall i :: 0 <= i < |s.log| ==> s.log[i].previous != Some(token)
       then
         s'.jobs[a.job] == Granted(token, |s.log|) && s'.log == s.log + [Issued(id, Some(token), a.access, a.refresh)]
         && s'.rows == s.rows[id := Session(s.rows[id].app, s.rows[id].credential, a.access, a.refresh, a.expires,
                                            s.rows[id].revoked)]
       else s'.jobs[a.job] == Denied && s'.rows == s.rows && s'.log == s.log)
  {
    hide Run, FreshPair;
    RunStep(states, actions, n);
    if actions[n].job in states[n].jobs && states[n].jobs[actions[n].job].id in states[n].rows {
      StillExact(states, actions, n, actions[n].job);
    }
  }

  /** The session carries the token a refresh holds exactly while nobody has exchanged
      it. */
  lemma StillExact(states: seq<State>, actions: seq<Action>, n: nat, job: nat)
    requires Run(states, actions) && n < |states| && job in states[n].jobs && states[n].jobs[job].Holding?
    requires states[n].jobs[job].id in states[n].rows
    ensures
      var s, id, token := states[n], states[n].jobs[job].id, states[n].jobs[job].token;
      s.rows[id].refresh == token <==> forall i :: 0 <= i < |s.log| ==> s.log[i].previous != Some(token)
  {
    hide Run, Next, Newest, Apart, OneEach;
    RunInv(states, actions, n);
    var s, id, token := states[n], states[n].jobs[job].id, states[n].jobs[job].token;
    var k := HeldWasIssued(states, actions, n, job);
    OnlyTheNewest(states, actions, n, k, id);
    if s.rows[id].refresh == token {
      forall i | 0 <= i < |s.log|
        ensures s.log[i].previous != Some(token)
      {
        if s.log[i].previous.Some? {
          ReplayRefused(states, actions, n, i, id);
        }
      }
    } else {
      var i := Exchanged(s.log, k);
    }
  }

  /** Some session accepts the refresh token, and some the access token. */
  ghost predicate Accepts(rows: Rows, refresh: nat, now: int) {
    exists id :: id in rows && Answers(rows[id], rows[id].app, rows[id].credential, refresh, now)
  }

  ghost predicate AcceptsAccess(rows: Rows, access: nat, now: int) {
    exists id :: id in rows && Admits(rows[id], rows[id].app, rows[id].credential, access, now)
  }

  /** The pair an answered refresh got works, at any later point of the run, exactly while
      its session is there, has not been rotated again, is not revoked and has not
      expired. The caller is told of none of that. */
  lemma AnswerWorks(states: seq<State>, actions: seq<Action>, n: nat, job: nat, now: int)
    requires Run(states, actions) && n < |states| && job in states[n].jobs && states[n].jobs[job].Granted?
    ensures states[n].jobs[job].at < |states[n].log|
    ensures
      var rows, at := states[n].rows, states[n].jobs[job].at;
      var pair := states[n].log[at];
      var works := pair.session in rows && Newest(states[n].log, pair.session) == at
                   && rows[pair.session].revoked.None? && rows[pair.session].expires > now;
      pair.previous == Some(states[n].jobs[job].token)
      && (Accepts(rows, pair.refresh, now) <==> works) && (AcceptsAccess(rows, pair.access, now) <==> works)
  {
    RunInv(states, actions, n);
    hide Run, Next, Newest, Chained, Apart, OneEach;
    var rows, log, at := states[n].rows, states[n].log, states[n].jobs[job].at;
    assert JobOk(log, states[n].jobs[job]);
    var pair := log[at];
    forall id | id in rows
      ensures rows[id].refresh == pair.refresh || rows[id].access == pair.access ==>
                pair.session == id && Newest(log, id) == at
    {
      OnlyTheNewest(states, actions, n, at, id);
    }
    if pair.session in rows {
      OnlyTheNewest(states, actions, n, at, pair.session);
    }
  }

  /** Such an answer that works for nobody, from the first login on. */
  lemma AnswerAfterRevocation() returns (states: seq<State>, actions: seq<Action>)
    ensures Run(states, actions)
    ensures
      var s := states[|states| - 1];
      0 in s.jobs && s.jobs[0].Granted? && forall id, now :: id in s.rows ==> !Usable(s.rows[id], now)
  {
    var row := Session(1, 1, 10, 11, 100, None);
    var revoked := row.(revoked := Some(5));
    actions := [Login(0, 1, 1, 10, 11, 100), Lookup(0, 1, 1, 11, 4, Some(0)), Revoke(OfCredential(1), 5),
                Commit(0, 20, 21, 200)];
    var first := Issued(0, None, 10, 11);
    states := [INITIAL, State(map[0 := row], map[], [first]), State(map[0 := row], map[0 := Holding(0, 11)], [first]),
               State(map[0 := revoked], map[0 := Holding(0, 11)], [first]),
               State(map[0 := revoked.(access := 20, refresh := 21, expires := 200)], map[0 := Granted(11, 1)],
                     [first, Issued(0, Some(11), 20, 21)])];
    assert Next(states[0], actions[0], states[1]);
    assert Next(states[1], actions[1], states[2]);
    assert Next(states[2], actions[2], states[3]);
    assert Next(states[3], actions[3], states[4]);
  }
}
