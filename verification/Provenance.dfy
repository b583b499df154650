/** Where webhook changes come from: every one is backed by a stored event. */
module Provenance {
  import opened Wrappers
  import opened Statuses
  import opened Tables
  import opened Settlement
  import opened SettlementSafety
  import Text

  /** The event names the transaction's account and its published reference, reports the
      status the change moved to, and contradicts the payment in nothing it states. */
  predicate Backs(t: Tables, e: Event, c: Change) {
    c.txId in t.txs
    && var row := t.txs[c.txId];
    e.account == row.payment.account && e.providerReference == row.providerReference != ""
    && FromText(e.status) == c.status
    && (e.amount == None || e.amount == Some(row.payment.amount))
    && (e.currency == "" || Text.EqualFold(e.currency, row.payment.currency))
    && (e.country == "" || Text.EqualFold(e.country, row.payment.country))
    && (e.externalReference == "" || e.externalReference == row.payment.reference)
    && (e.customerAccount == "" || e.customerAccount == row.payment.customerAccount)
  }

  ghost predicate Backed(t: Tables, c: Change) {
    c.source == Webhook ==> exists r :: r in t.events && Backs(t, t.events[r].event, c)
  }

  ghost predicate AllBacked(t: Tables) {
    forall k :: 0 <= k < |t.changes| ==> Backed(t, t.changes[k])
  }

  /** What backs a change goes on backing it. */
  lemma BackedStays(t: Tables, t': Tables, c: Change)
    requires Stable(t, t') && Backed(t, c)
    ensures Backed(t', c)
  {
    if c.source == Webhook {
      var r :| r in t.events && Backs(t, t.events[r].event, c);
      assert r in t'.events && Backs(t', t'.events[r].event, c);
    }
  }

  ghost predicate NewBacked(t: Tables, t': Tables) {
    forall k :: |t.changes| <= k < |t'.changes| ==> Backed(t', t'.changes[k])
  }

  lemma ApplyBacked(t: Tables, rowId: Id, e: Event, pick: Option<Id>, now: int)
    requires Sound(t) && e.providerReference != "" && rowId in t.events && t.events[rowId].event == e
    requires LatestForReference(t, e.account, e.providerReference, pick)
    ensures NewBacked(t, After(t, ApplyWebhook(t, rowId, e, pick, now)))
  {
    hide Sound, FromText, Backs;
    var result := ApplyWebhook(t, rowId, e, pick, now);
    if result.Ok? && pick.Some? && t.attempts[pick.value].txId in t.txs {
      PickedAccount(t, pick.value);
      var txId := t.attempts[pick.value].txId;
      var status := Transition(t.txs[txId].status, FromText(e.status)).value;
      if status != t.txs[txId].status {
        AppliedBacks(t, result.value, txId, e, now);
        assert result.value.events[rowId].event == e;
      }
    }
  }

  lemma AppliedBacks(t: Tables, t': Tables, txId: Id, e: Event, now: int)
    requires txId in t.txs && e.providerReference != "" && e.account == t.txs[txId].payment.account
    requires Matches(e, t.txs[txId].payment) && txId in t'.txs
    requires t'.txs[txId] == WebhookTx(t.txs[txId], FromText(e.status), e.providerReference, now)
    ensures Backs(t', e, Change(Webhook, txId, t.txs[txId].status, FromText(e.status)))
  {
    hide FromText;
  }

  lemma PickedAccount(t: Tables, attId: Id)
    requires Sound(t) && attId in t.attempts
    ensures t.attempts[attId].txId in t.txs
    ensures t.txs[t.attempts[attId].txId].payment.account == t.attempts[attId].account
  {
    hide Path, RowOk, OneAttempt;
  }

  lemma HandleBacked(t: Tables, rowId: Id, e: Event, pick: Option<Id>, now: int)
    requires Sound(t) && e.providerReference != ""
    requires LatestForReference(t, e.account, e.providerReference, pick)
    ensures NewBacked(t, After(t, HandleWebhook(t, rowId, e, pick, now)))
  {
    hide ApplyWebhook, Sound, LatestForReference, Backed, Stored;
    if !Stored(t, e) && rowId !in t.events {
      var stored := StoreEvent(t, rowId, e);
      StoredSound(t, rowId, e);
      StoredQuery(t, rowId, e, pick);
      ApplyBacked(stored, rowId, e, pick, now);
    }
  }

  lemma OtherSources(s: State, a: Action, s': State)
    requires Next(s, a, s') && !a.Deliver? && !a.Reapply?
    ensures forall k :: |s.t.changes| <= k < |s'.t.changes| ==> s'.t.changes[k].source != Webhook
  {
    hide ApplyWebhook, HandleWebhook, LatestForReference, LatestForTransaction, FindsByKey, Conflicts, Transition,
         PersistedTx, PersistedAttempt, PolledTx, PolledAttempt, DeferredTx, Due;
  }

  lemma StepBacked(s: State, a: Action, s': State)
    requires Inv(s) && Next(s, a, s')
    ensures NewBacked(s.t, s'.t)
  {
    hide Inv, Sound, ApplyWebhook, HandleWebhook, LatestForReference, Backs;
    if a.Deliver? {
      SoundTables(s);
      HandleBacked(s.t, a.rowId, a.e, a.pick, a.now);
    } else if a.Reapply? {
      WorkFacts(s, a.w);
      var head := s.workers[a.w].batch[0];
      EventAddressed(s.t, head);
      ApplyBacked(s.t, head, s.t.events[head].event, a.pick, a.now);
    } else {
      hide Next;
      OtherSources(s, a, s');
    }
  }

  /** In every run, every change a webhook made is backed by a stored event: of the same
      account and published reference, reporting that very status, and agreeing with the
      payment in whatever amount, currency, country, reference or account it states. */
  lemma {:induction false} WebhookChangesBacked(states: seq<State>, actions: seq<Action>, i: nat)
    requires Run(states, actions) && i < |states|
    ensures AllBacked(states[i].t)
  {
    hide Inv, Next, Stable, Backed, NewBacked;
    if i > 0 {
      WebhookChangesBacked(states, actions, i - 1);
      RunInv(states, actions, i - 1);
      StepKeeps(states[i - 1], actions[i - 1], states[i]);
      StepBacked(states[i - 1], actions[i - 1], states[i]);
      GrownBacked(states[i - 1].t, states[i].t);
    }
  }

  lemma GrownBacked(t: Tables, t': Tables)
    requires Stable(t, t') && AllBacked(t) && NewBacked(t, t')
    ensures AllBacked(t')
  {
    hide Backed;
    forall k | 0 <= k < |t.changes|
      ensures Backed(t', t'.changes[k])
    {
      BackedStays(t, t', t.changes[k]);
    }
  }
}
