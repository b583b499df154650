/** Provider rows and the runtimes loaded from them, under administration.

    A row is committed before its runtime is rebuilt, so a rebuild that fails has to be
    answered by writing the old columns back. */
module RuntimeSync {
  import opened Wrappers

  /** `charges` and `config` stand for the fee schedule and the encrypted configuration. */
  datatype Account = Account(country: string, currency: string, charges: nat, active: bool, version: int, config: nat)

  /** What a runtime was built from; two builds from the same row count as the same. */
  datatype Runtime = Runtime(country: string, currency: string, version: int, config: nat)

  datatype Settings = Settings(country: string, currency: string, charges: nat)

  /** How the world answers one operation: whether the row is written, whether the
      adapter comes up, and whether the old columns can be written back. */
  datatype World = World(stored: bool, built: bool, restored: bool)

  function Loaded(account: Account): Runtime {
    Runtime(account.country, account.currency, account.version, account.config)
  }

  datatype State = State(rows: map<nat, Account>, items: map<nat, Runtime>)

  /** Every active row is served by a runtime built from what the row says now. */
  predicate Synced(s: State) {
    forall id :: id in s.rows && s.rows[id].active ==> id in s.items && s.items[id] == Loaded(s.rows[id])
  }

  /** Every runtime belongs to an active row. */
  predicate NoLeftover(s: State) {
    forall id :: id in s.items ==> id in s.rows && s.rows[id].active
  }

  // ---- one operation ----------------------------------------------------

  datatype Op =
    | UpdateSettings(id: nat, settings: Option<Settings>)
    | UpdateConfig(id: nat, config: Option<nat>)
    | Activate(id: nat)
    | Deactivate(id: nat)

  predicate WellPosed(s: State, op: Op) {
    op.id in s.rows && (op.UpdateSettings? ==> op.settings.Some?) && (op.UpdateConfig? ==> op.config.Some?)
  }

  /** The row after the write. */
  function Rewritten(account: Account, op: Op): Account
    requires (op.UpdateSettings? ==> op.settings.Some?) && (op.UpdateConfig? ==> op.config.Some?)
  {
    match op
    case UpdateSettings(_, settings) =>
      account.(country := settings.value.country, currency := settings.value.currency,
               charges := settings.value.charges)
    case UpdateConfig(_, config) => account.(config := config.value, version := account.version + 1)
    case Activate(_) => account.(active := true)
    case Deactivate(_) => account.(active := false)
  }

  /** The row after writing back what the operation found; a failed activation always
      writes inactive. */
  function WrittenBack(account: Account, op: Op): Account {
    if op.Activate? then account.(active := false) else account
  }

  predicate Rebuilds(s: State, op: Op)
    requires op.id in s.rows
  {
    op.Activate? || (!op.Deactivate? && s.rows[op.id].active)
  }

  predicate Succeeds(s: State, op: Op, w: World) {
    WellPosed(s, op) && w.stored && (Rebuilds(s, op) ==> w.built)
  }

  function After(s: State, op: Op, w: World): State {
    if !WellPosed(s, op) || !w.stored then s
    else
      var id, row := op.id, Rewritten(s.rows[op.id], op);
      if op.Deactivate? then State(s.rows[id := row], s.items - {id})
      else if !Rebuilds(s, op) then s.(rows := s.rows[id := row])
      else if w.built then State(s.rows[id := row], s.items[id := Loaded(row)])
      else if w.restored then s.(rows := s.rows[id := WrittenBack(s.rows[id], op)])
      else s.(rows := s.rows[id := row])
  }

  class Providers {
    var rows: map<nat, Account>
    var items: map<nat, Runtime>

    function View(): State
      reads this
    {
      State(rows, items)
    }

    constructor (stored: map<nat, Account>)
      ensures rows == stored && items == map[]
    {
      rows, items := stored, map[];
    }

    method Disable(id: nat)
      modifies this`items
      ensures items == old(items) - {id}
    {
      items := items - {id};
    }

    /** Rebuilds an active account's runtime, or removes an inactive one's. */
    method Reload(id: nat, built: bool) returns (ok: bool)
      modifies this`items
      ensures ok <==> id in rows && (rows[id].active ==> built)
      ensures items == if !ok then old(items)
                       else if rows[id].active then old(items)[id := Loaded(rows[id])] else old(items) - {id}
    {
      if id !in rows {
        return false;
      }
      var account := rows[id];
      if !account.active {
        Disable(id);
        return true;
      }
      if !built {
        return false;
      }
      items := items[id := Loaded(account)];
      return true;
    }

    /** Loads every active account, in whatever order the rows come; accounts whose
        adapter does not come up are reported together at the end. */
    method LoadActive(up: set<nat>) returns (ok: bool)
      modifies this`items
      ensures ok <==> forall id :: id in rows && rows[id].active ==> id in up
      ensures ok ==> Synced(View())
      ensures forall id :: id in rows && rows[id].active && id in up ==> id in items && items[id] == Loaded(rows[id])
      ensures old(items) == map[] ==> NoLeftover(View())
    {
      ok := true;
      var rest := set id | id in rows && rows[id].active;
      while rest != {}
        invariant rest <= rows.Keys
        invariant forall id :: id in rest ==> rows[id].active
        invariant ok <==> forall id :: id in rows && rows[id].active && id !in rest ==> id in up
        invariant forall id :: id in rows && rows[id].active && id !in rest && id in up ==>
          id in items && items[id] == Loaded(rows[id])
        invariant old(items) == map[] ==> NoLeftover(View())
        decreases |rest|
      {
        var id :| id in rest;
        var loaded := Reload(id, id in up);
        ok := ok && loaded;
        rest := rest - {id};
      }
    }

    method UpdateSettings(id: nat, settings: Option<Settings>, w: World) returns (ok: bool)
      modifies this
      ensures ok == Succeeds(old(View()), Op.UpdateSettings(id, settings), w)
      ensures View() == After(old(View()), Op.UpdateSettings(id, settings), w)
    {
      if settings.None? || id !in rows {
        return false;
      }
      var account, s := rows[id], settings.value;
      if !w.stored {
        return false;
      }
      rows := rows[id := account.(country := s.country, currency := s.currency, charges := s.charges)];
      if account.active {
        ok := Reload(id, w.built);
        if !ok {
          if w.restored {
            rows := rows[id := rows[id].(country := account.country, currency := account.currency,
                                         charges := account.charges)];
          }
          return;
        }
      }
      return true;
    }

    method UpdateConfig(id: nat, config: Option<nat>, w: World) returns (ok: bool)
      modifies this
      ensures ok == Succeeds(old(View()), Op.UpdateConfig(id, config), w)
      ensures View() == After(old(View()), Op.UpdateConfig(id, config), w)
    {
      if id !in rows || config.None? || !w.stored {
        return false;
      }
      var account := rows[id];
      rows := rows[id := account.(config := config.value, version := account.version + 1)];
      if account.active {
        ok := Reload(id, w.built);
        if !ok {
          if w.restored {
            rows := rows[id := rows[id].(config := account.config, version := account.version)];
          }
          return;
        }
      }
      return true;
    }

    method Activate(id: nat, w: World) returns (ok: bool)
      modifies this
      ensures ok == Succeeds(old(View()), Op.Activate(id), w)
      ensures View() == After(old(View()), Op.Activate(id), w)
    {
      if id !in rows || !w.stored {
        return false;
      }
      rows := rows[id := rows[id].(active := true)];
      ok := Reload(id, w.built);
      if !ok && w.restored {
        rows := rows[id := rows[id].(active := false)];
      }
    }

    method Deactivate(id: nat, w: World) returns (ok: bool)
      modifies this
      ensures ok == Succeeds(old(View()), Op.Deactivate(id), w)
      ensures View() == After(old(View()), Op.Deactivate(id), w)
    {
      if id !in rows || !w.stored {
        return false;
      }
      rows := rows[id := rows[id].(active := false)];
      Disable(id);
      return true;
    }
  }

  // ---- what operations keep ---------------------------------------------

  /** The write stays although the runtime could not follow, and it matters: the row is
      active and no runtime says what it says. */
  predicate Torn(s: State, op: Op, w: World) {
    WellPosed(s, op) && w.stored && Rebuilds(s, op) && !w.built && !w.restored
    && match op
       case UpdateSettings(id, settings) =>
         settings.value.country != s.rows[id].country || settings.value.currency != s.rows[id].currency
       case UpdateConfig(_, _) => true
       case _ => !s.rows[op.id].active && (op.id in s.items ==> s.items[op.id] != Loaded(s.rows[op.id]))
  }

  /** Row and runtime stay in step through an operation unless it tears them: a rebuild
      fails, the old columns cannot be written back, and they differ from the new. */
  lemma SyncedExact(s: State, op: Op, w: World)
    requires Synced(s)
    ensures Synced(After(s, op, w)) <==> !Torn(s, op, w)
  {
  }

  /** When an operation succeeds: the account exists, what to write is given, the row is
      written, and the adapter comes up wherever the account is, or becomes, active. */
  lemma SucceedsExact(s: State, op: Op, w: World)
    ensures
      Succeeds(s, op, w)
      <==> op.id in s.rows && w.stored
           && match op
              case UpdateSettings(id, settings) => settings.Some? && (s.rows[id].active ==> w.built)
              case UpdateConfig(id, config) => config.Some? && (s.rows[id].active ==> w.built)
              case Activate(_) => w.built
              case Deactivate(_) => true
  {
  }

  /** A success takes effect: the row says what was asked for, a runtime of an active row
      says what the row says, a deactivated account has none, and no other account is
      touched. */
  lemma SuccessTakesEffect(s: State, op: Op, w: World)
    requires Succeeds(s, op, w)
    ensures
      var t, id, found, row := After(s, op, w), op.id, s.rows[op.id], After(s, op, w).rows[op.id];
      t.rows == s.rows[id := row]
      && row == (match op
                 case UpdateSettings(_, given) =>
                   Account(given.value.country, given.value.currency, given.value.charges, found.active, found.version,
                           found.config)
                 case UpdateConfig(_, config) =>
                   Account(found.country, found.currency, found.charges, found.active, found.version + 1, config.value)
                 case Activate(_) =>
                   Account(found.country, found.currency, found.charges, true, found.version, found.config)
                 case Deactivate(_) =>
                   Account(found.country, found.currency, found.charges, false, found.version, found.config))
      && t.items == if row.active then s.items[id := Runtime(row.country, row.currency, row.version, row.config)]
                    else if op.Deactivate? then s.items - {id} else s.items
  {
  }

  /** A failure touches no runtime. What it leaves in the row depends on how far it got:
      nothing before the write; what was there before, when it could be written back, but
      for a failed activation, which leaves the account inactive; and what was asked for
      when it could not. */
  lemma FailureLeaves(s: State, op: Op, w: World)
    requires !Succeeds(s, op, w)
    ensures
      var t := After(s, op, w);
      t.items == s.items
      && (if !w.stored || !WellPosed(s, op) then t.rows == s.rows
          else if w.restored && op.Activate? then t.rows == s.rows[op.id := s.rows[op.id].(active := false)]
          else if w.restored then t.rows == s.rows
          else t.rows == After(s, op, w.(built := true)).rows)
  {
  }

  /** An update that fails leaves the rows and the runtimes as they were, as long as the
      old columns can be written back. */
  lemma FailedUpdateUndone(s: State, op: Op, w: World)
    requires (op.UpdateSettings? || op.UpdateConfig?) && !Succeeds(s, op, w) && w.restored
    ensures After(s, op, w) == s
  {
  }

  /** No runtime outlives its active row, with one exception: activating an account that
      is active already, when its rebuild fails, marks the row inactive and leaves the
      old runtime loaded. */
  lemma LeftoverExact(s: State, op: Op, w: World)
    requires NoLeftover(s) && Synced(s)
    ensures
      NoLeftover(After(s, op, w))
      <==> !(op.Activate? && op.id in s.rows && s.rows[op.id].active && w.stored && !w.built && w.restored)
  {
  }

  /** Such a leftover: an active account in step with its runtime, activated once more
      while its adapter does not come up. */
  lemma ReactivationLeavesRuntime() returns (s: State, s': State)
    ensures Synced(s) && NoLeftover(s) && s' == After(s, Op.Activate(0), World(true, false, true))
    ensures 0 in s'.rows && !s'.rows[0].active && 0 in s'.items && !NoLeftover(s')
  {
    var row := Account("UG", "UGX", 0, true, 1, 0);
    s := State(map[0 := row], map[0 := Loaded(row)]);
    s' := After(s, Op.Activate(0), World(true, false, true));
  }

  function AfterAll(s: State, ops: seq<(Op, World)>): State {
    if ops == [] then s
    else var last := ops[|ops| - 1]; After(AfterAll(s, ops[..|ops| - 1]), last.0, last.1)
  }

  /** From a complete load on, through any run of operations whose rollbacks work, every
      active row is served by a runtime of its own version, country and currency. */
  lemma {:induction false} RunSynced(s: State, ops: seq<(Op, World)>, id: nat)
    requires Synced(s) && forall i :: 0 <= i < |ops| ==> ops[i].1.restored
    requires var t := AfterAll(s, ops); id in t.rows && t.rows[id].active
    ensures
      var t := AfterAll(s, ops);
      id in t.items && t.items[id].version == t.rows[id].version
      && t.items[id].country == t.rows[id].country && t.items[id].currency == t.rows[id].currency
  {
    RunKeeps(s, ops);
  }

  lemma {:induction false} RunKeeps(s: State, ops: seq<(Op, World)>)
    requires Synced(s) && forall i :: 0 <= i < |ops| ==> ops[i].1.restored
    ensures Synced(AfterAll(s, ops))
  {
    hide Synced, After;
    if ops != [] {
      RunKeeps(s, ops[..|ops| - 1]);
      SyncedExact(AfterAll(s, ops[..|ops| - 1]), ops[|ops| - 1].0, ops[|ops| - 1].1);
    }
  }

  /** Versions only grow, except that a failed change takes back its own step: the
      version counts the configuration changes that took effect. */
  function Changes(s: State, ops: seq<(Op, World)>, id: nat): nat {
    if ops == [] then 0
    else
      var short, last := ops[..|ops| - 1], ops[|ops| - 1];
      Changes(s, short, id)
      + if last.0.UpdateConfig? && last.0.id == id && Succeeds(AfterAll(s, short), last.0, last.1) then 1 else 0
  }

  lemma {:induction false} VersionCountsChanges(s: State, ops: seq<(Op, World)>, id: nat)
    requires id in s.rows && forall i :: 0 <= i < |ops| ==> ops[i].1.restored
    ensures
      var t := AfterAll(s, ops);
      id in t.rows && t.rows[id].version == s.rows[id].version + Changes(s, ops, id)
  {
    if ops != [] {
      VersionCountsChanges(s, ops[..|ops| - 1], id);
    }
  }
}
