/** Deliveries that come twice, or before the payment they are about has been
    published. */
module WebhookOrder {
  import opened Wrappers
  import opened Statuses
  import opened Tables
  import opened Settlement
  import Safety = SettlementSafety
  import Text

  // ---- recognizing a repeated delivery ----------------------------------

  lemma AmountTextInjective(a: Option<int>, b: Option<int>)
    requires AmountText(a) == AmountText(b)
    ensures a == b
  {
    if a.Some? && b.Some? {
      Text.FormatIntInjective(a.value, b.value);
    }
  }

  /** An event whose fields hold no bar shares its dedupe key with no event that differs
      from it in account, reference, type, status, external reference, amount or
      currency, whatever that other event holds. */
  lemma DedupeKeyExact(e: Event, f: Event)
    requires Text.Free(KeyFields(e), '|')
    ensures DedupeKey(e) == DedupeKey(f) <==>
      e.account == f.account && e.providerReference == f.providerReference && e.eventType == f.eventType
      && e.status == f.status && e.externalReference == f.externalReference && e.amount == f.amount
      && Text.ToUpper(e.currency) == Text.ToUpper(f.currency)
  {
    hide Text.Free, Text.ToUpper, AmountText;
    if DedupeKey(e) == DedupeKey(f) {
      Text.JoinInjectiveOneSided(KeyFields(e), KeyFields(f), '|');
      var a, b := KeyFields(e), KeyFields(f);
      assert a[0] == b[0] && a[1] == b[1] && a[2] == b[2] && a[3] == b[3];
      assert a[4] == b[4] && a[5] == b[5] && a[6] == b[6];
      AmountTextInjective(e.amount, f.amount);
    }
  }

  /** With a bar in the status another event shares the key, and the second of the two
      to come is taken for a repetition of the first. */
  lemma BarsCollide(e: Event, rest: string, tail: string)
    requires e.status == rest + "|" + tail
    ensures
      var f := e.(eventType := e.eventType + "|" + rest, status := tail);
      KeyFields(e) != KeyFields(f) && DedupeKey(e) == DedupeKey(f)
  {
    var f := e.(eventType := e.eventType + "|" + rest, status := tail);
    var k, g := KeyFields(e), KeyFields(f);
    assert |g[2]| > |k[2]|;
    Shifted(k[..2], k[2], rest, tail, k[4..]);
    assert k == k[..2] + [k[2], rest + "|" + tail] + k[4..] && g == k[..2] + [k[2] + "|" + rest, tail] + k[4..];
  }

  /** Moving the bar inside a field in front of it leaves the join as it is. */
  lemma Shifted(before: seq<string>, u: string, x: string, y: string, after: seq<string>)
    ensures Text.Join(before + [u, x + "|" + y] + after, '|') == Text.Join(before + [u + "|" + x, y] + after, '|')
  {
    Text.JoinPiece(before + [u], x, y, after, '|');
    Text.JoinPiece(before, u, x, [y] + after, '|');
    hide Text.Join;
    assert (before + [u]) + [x, y] + after == before + [u, x] + ([y] + after);
    assert (before + [u]) + [x + "|" + y] + after == before + [u, x + "|" + y] + after;
    assert before + [u + "|" + x] + ([y] + after) == before + [u + "|" + x, y] + after;
  }

  // ---- exactly which events can be mistaken for another -----------------

  /** An event as verification lets it through. */
  predicate Deliverable(e: Event) {
    Verified(e) == Some(e) && (e.amount.Some? ==> Text.InInt64(e.amount.value))
  }

  /** Another event of the account that differs in what the key is made of, and has the
      same key. */
  predicate Mistakable(e: Event, f: Event) {
    Deliverable(f) && f.account == e.account && KeyFields(f) != KeyFields(e) && DedupeKey(f) == DedupeKey(e)
  }

  ghost predicate AmountShaped(s: string) {
    s == "" || exists n :: Text.InInt64(n) && Text.FormatInt(n) == s
  }

  /** Between bars, or before the first, stands something an amount could print. */
  ghost predicate AmountPiece(s: string, i: nat, j: nat) {
    i <= j < |s| && s[j] == '|' && (i == 0 || s[i - 1] == '|') && AmountShaped(s[i..j])
  }

  ghost predicate Ambiguous(e: Event) {
    '|' in e.eventType || '|' in e.status || '|' in e.externalReference
    || (exists i :: 0 < i < |e.providerReference| && e.providerReference[i] == '|')
    || (exists i, j :: AmountPiece(e.currency, i, j))
  }

  /** A deliverable event can be mistaken for another one of its account if and only if
      a bar stands in its type, its status, its external reference, or its provider
      reference past the first character, or its currency holds an amount closed by a
      bar. */
  lemma SharedKeyExact(e: Event)
    requires Deliverable(e)
    ensures (exists f :: Mistakable(e, f)) <==> Ambiguous(e)
  {
    hide Deliverable, Ambiguous, KeyFields, DedupeKey;
    if Ambiguous(e) {
      var f := Twin(e);
      assert Mistakable(e, f);
    }
    if !Ambiguous(e) {
      forall f | Deliverable(f) && f.account == e.account && DedupeKey(f) == DedupeKey(e)
        ensures KeyFields(f) == KeyFields(e)
      {
        Unmistakable(e, f);
      }
    }
  }

  lemma BarAt(s: string) returns (x: string, y: string)
    requires '|' in s
    ensures s == x + "|" + y
  {
    var i :| 0 <= i < |s| && s[i] == '|';
    x, y := s[..i], s[i + 1..];
  }

  lemma Twin(e: Event) returns (f: Event)
    requires Deliverable(e) && Ambiguous(e)
    ensures Mistakable(e, f)
  {
    hide Deliverable, AmountPiece, KeyFields, DedupeKey;
    if '|' in e.eventType {
      var x, y := BarAt(e.eventType);
      f := TypeTwin(e, x, y);
    } else if '|' in e.status {
      var x, y := BarAt(e.status);
      f := StatusTwin(e, x, y);
    } else if '|' in e.externalReference {
      var x, y := BarAt(e.externalReference);
      f := ExternalTwin(e, x, y);
    } else if i :| 0 < i < |e.providerReference| && e.providerReference[i] == '|' {
      f := ReferenceTwin(e, e.providerReference[..i], e.providerReference[i + 1..]);
    } else {
      var i, j :| AmountPiece(e.currency, i, j);
      f := CurrencyTwin(e, i, j);
    }
  }

  lemma TypeTwin(e: Event, x: string, y: string) returns (f: Event)
    requires Deliverable(e) && e.eventType == x + "|" + y
    ensures Mistakable(e, f)
  {
    f := e.(providerReference := e.providerReference + "|" + x, eventType := y);
    var k, g := KeyFields(e), KeyFields(f);
    assert |g[1]| > |k[1]|;
    Shifted(k[..1], k[1], x, y, k[3..]);
    assert k == k[..1] + [k[1], x + "|" + y] + k[3..] && g == k[..1] + [k[1] + "|" + x, y] + k[3..];
  }

  lemma StatusTwin(e: Event, x: string, y: string) returns (f: Event)
    requires Deliverable(e) && e.status == x + "|" + y
    ensures Mistakable(e, f) && f.eventType == e.eventType + "|" + x && f.status == y
  {
    f := e.(eventType := e.eventType + "|" + x, status := y);
    BarsCollide(e, x, y);
  }

  lemma ExternalTwin(e: Event, x: string, y: string) returns (f: Event)
    requires Deliverable(e) && e.externalReference == x + "|" + y
    ensures Mistakable(e, f)
  {
    f := e.(status := e.status + "|" + x, externalReference := y);
    var k, g := KeyFields(e), KeyFields(f);
    assert |g[3]| > |k[3]|;
    Shifted(k[..3], k[3], x, y, k[5..]);
    assert k == k[..3] + [k[3], x + "|" + y] + k[5..] && g == k[..3] + [k[3] + "|" + x, y] + k[5..];
  }

  lemma ReferenceTwin(e: Event, x: string, y: string) returns (f: Event)
    requires Deliverable(e) && e.providerReference == x + "|" + y && x != ""
    ensures Mistakable(e, f)
  {
    f := e.(providerReference := x, eventType := y + "|" + e.eventType);
    var k, g := KeyFields(e), KeyFields(f);
    assert |k[1]| > |g[1]|;
    Shifted(k[..1], x, y, e.eventType, k[3..]);
    assert g == k[..1] + [x, y + "|" + k[2]] + k[3..] && k == k[..1] + [x + "|" + y, k[2]] + k[3..];
  }

  /** The amount and what the currency holds before the piece go to the external
      reference, and the piece becomes the amount. */
  lemma CurrencyTwin(e: Event, i: nat, j: nat) returns (f: Event)
    requires Deliverable(e) && AmountPiece(e.currency, i, j)
    ensures Mistakable(e, f)
  {
    hide AmountText, Text.ToUpper, AmountShaped, Mistakable, Deliverable, Verified;
    var c := e.currency;
    var n := AmountOf(c[i..j]);
    var moved := EndsInBar(AmountText(e.amount), c, i);
    UpperCurrency(e);
    UpperTail(c, j + 1);
    CurrencyText(AmountText(e.amount), moved, c, i, j);
    f := Resplit(e, moved, n, c[j + 1..]);
  }

  lemma EndsInBar(a: string, c: string, i: nat) returns (moved: string)
    requires i <= |c| && (i == 0 || c[i - 1] == '|')
    ensures a + "|" + c[..i] == moved + "|"
  {
    var head := a + "|" + c[..i];
    moved := head[..|head| - 1];
    assert head[|head| - 1] == if i == 0 then '|' else c[i - 1];
  }

  lemma UpperCurrency(e: Event)
    requires Deliverable(e)
    ensures Text.ToUpper(e.currency) == e.currency
  {
  }

  lemma Resplit(e: Event, moved: string, n: Option<int>, rest: string) returns (f: Event)
    requires Deliverable(e) && (n.Some? ==> Text.InInt64(n.value)) && Text.ToUpper(rest) == rest
    requires AmountText(e.amount) + "|" + e.currency == moved + "|" + (AmountText(n) + "|" + rest)
    ensures Mistakable(e, f)
  {
    f := e.(externalReference := e.externalReference + "|" + moved, amount := n, currency := rest);
    assert Text.ToUpper(e.currency) == e.currency;
    hide AmountText, Text.ToUpper, Text.Join;
    var k, g := KeyFields(e), KeyFields(f);
    assert |g[4]| > |k[4]|;
    CurrencyJoin(k[..4], k[4], k[5], e.currency, moved, AmountText(n), rest);
    assert k == k[..4] + [k[4], k[5], e.currency] && g == k[..4] + [k[4] + "|" + moved, AmountText(n), rest];
  }

  lemma CurrencyText(a: string, moved: string, c: string, i: nat, j: nat)
    requires i <= j < |c| && c[j] == '|' && a + "|" + c[..i] == moved + "|"
    ensures a + "|" + c == moved + "|" + (c[i..j] + "|" + c[j + 1..])
  {
    var end := c[i..j] + "|" + c[j + 1..];
    assert c == c[..i] + end;
    assert a + "|" + (c[..i] + end) == (a + "|" + c[..i]) + end;
  }

  lemma AmountOf(s: string) returns (n: Option<int>)
    requires AmountShaped(s)
    ensures AmountText(n) == s && (n.Some? ==> Text.InInt64(n.value))
  {
    hide Text.FormatInt;
    if s == "" {
      n := None;
    } else {
      var m :| Text.InInt64(m) && Text.FormatInt(m) == s;
      n := Some(m);
    }
  }

  lemma UpperTail(c: string, i: nat)
    requires i <= |c| && Text.ToUpper(c) == c
    ensures Text.ToUpper(c[i..]) == c[i..]
  {
    forall k | 0 <= k < |c[i..]|
      ensures Text.ToUpper(c[i..])[k] == c[i..][k]
    {
      assert Text.ToUpper(c)[i + k] == c[i + k];
    }
  }

  /** Both are the join of: the first fields, the external reference, the rest. */
  lemma CurrencyJoin(before: seq<string>, r: string, a: string, c: string, m: string, p: string, t: string)
    requires a + "|" + c == m + "|" + (p + "|" + t)
    ensures Text.Join(before + [r, a, c], '|') == Text.Join(before + [r + "|" + m, p, t], '|')
  {
    JoinEnd(before + [r], a, c);
    JoinEnd(before + [r + "|" + m], p, t);
    JoinEnd(before, r + "|" + m, p + "|" + t);
    JoinEnd(before, r, m + "|" + (p + "|" + t));
    hide Text.Join;
    assert (before + [r]) + [a, c] == before + [r, a, c];
    assert (before + [r]) + [a + "|" + c] == before + [r, a + "|" + c];
    assert (before + [r + "|" + m]) + [p, t] == before + [r + "|" + m, p, t];
    assert (before + [r + "|" + m]) + [p + "|" + t] == before + [r + "|" + m, p + "|" + t];
    assert r + "|" + m + "|" + (p + "|" + t) == r + "|" + (m + "|" + (p + "|" + t));
  }

  lemma JoinEnd(before: seq<string>, x: string, y: string)
    ensures Text.Join(before + [x, y], '|') == Text.Join(before + [x + "|" + y], '|')
  {
    Text.JoinPiece(before, x, y, [], '|');
    hide Text.Join;
    assert before + [x, y] + [] == before + [x, y];
    assert before + [x + "|" + y] + [] == before + [x + "|" + y];
  }

  /** Two such events: the status `a|b` of one, and the type and status of the other. */
  lemma CollidingPair() returns (e: Event, f: Event)
    ensures Deliverable(e) && Mistakable(e, f)
    ensures e.eventType == "payment" && e.status == "a|b" && f.eventType == "payment|a" && f.status == "b"
  {
    e := Event("acct", "ref", "payment", "a|b", "", None, "UGX", "UG", "");
    assert Text.ToUpper("UGX") == "UGX" && Text.ToUpper("UG") == "UG";
    assert Deliverable(e);
    f := StatusTwin(e, "a", "b");
  }

  /** The key, written out from left to right. */
  function Flat(e: Event): string {
    e.account + "|" + e.providerReference + "|" + e.eventType + "|" + e.status + "|" + e.externalReference + "|"
    + AmountText(e.amount) + "|" + Text.ToUpper(e.currency)
  }

  lemma Peeled(k: seq<string>, i: nat)
    requires i + 1 < |k|
    ensures Text.Join(k[i..], '|') == k[i] + "|" + Text.Join(k[i + 1..], '|')
  {
    assert k[i..][1..] == k[i + 1..];
  }

  lemma Pushed(l: string, x: string, r: string)
    ensures l + "|" + (x + "|" + r) == l + "|" + x + "|" + r
  {
  }

  lemma KeyIsFlat(e: Event)
    ensures DedupeKey(e) == Flat(e)
  {
    var k := KeyFields(e);
    assert Text.Join(k[6..], '|') == k[6];
    assert k[0..] == k;
    hide Text.Join, AmountText, Text.ToUpper;
    Peeled(k, 0);
    Peeled(k, 1);
    Peeled(k, 2);
    Peeled(k, 3);
    Peeled(k, 4);
    Peeled(k, 5);
    var l := k[0];
    Pushed(l, k[1], Text.Join(k[2..], '|'));
    l := l + "|" + k[1];
    Pushed(l, k[2], Text.Join(k[3..], '|'));
    l := l + "|" + k[2];
    Pushed(l, k[3], Text.Join(k[4..], '|'));
    l := l + "|" + k[3];
    Pushed(l, k[4], Text.Join(k[5..], '|'));
    l := l + "|" + k[4];
    Pushed(l, k[5], Text.Join(k[6..], '|'));
  }

  /** Where the bars after the account stand: one before each of the other fields. */
  datatype Bars = Bars(account: int, reference: int, eventType: int, status: int, external: int, amount: int)

  function BarsOf(e: Event): Bars {
    var r := |e.account| + 1 + |e.providerReference|;
    var t := r + 1 + |e.eventType|;
    var s := t + 1 + |e.status|;
    var x := s + 1 + |e.externalReference|;
    Bars(|e.account|, r, t, s, x, x + 1 + |AmountText(e.amount)|)
  }

  predicate Rising(p: Bars) {
    0 <= p.account < p.reference < p.eventType < p.status < p.external < p.amount
  }

  predicate IsBar(p: Bars, k: int) {
    k == p.reference || k == p.eventType || k == p.status || k == p.external || k == p.amount
  }

  /** The event's fields lie in `s` between the bars. */
  predicate Cut(e: Event, s: string, p: Bars) {
    Rising(p) && p.amount < |s|
    && s[p.reference] == s[p.eventType] == s[p.status] == s[p.external] == s[p.amount] == '|'
    && e.providerReference == s[p.account + 1..p.reference] && e.eventType == s[p.reference + 1..p.eventType]
    && e.status == s[p.eventType + 1..p.status] && e.externalReference == s[p.status + 1..p.external]
    && AmountText(e.amount) == s[p.external + 1..p.amount] && Text.ToUpper(e.currency) == s[p.amount + 1..]
  }

  lemma CutKey(e: Event)
    ensures Cut(e, DedupeKey(e), BarsOf(e))
  {
    KeyIsFlat(e);
    hide AmountText, Text.ToUpper, DedupeKey;
  }

  lemma AmountTextFree(amount: Option<int>)
    ensures '|' !in AmountText(amount)
  {
    if amount.Some? {
      assert forall i :: 0 <= i < |Text.FormatInt(amount.value)| ==> Text.FormatInt(amount.value)[i] != '|';
    }
  }

  /** The bars of an unambiguous event's key, past the first character of the reference
      and up to the currency, are the five that end its fields. */
  lemma OnlyItsBars(e: Event, s: string, p: Bars, k: int)
    requires Cut(e, s, p) && !Ambiguous(e) && p.account + 2 <= k <= p.amount && s[k] == '|'
    ensures IsBar(p, k)
  {
    AmountTextFree(e.amount);
    hide AmountText, Text.ToUpper, AmountPiece;
    InField(e.providerReference, s, p.account + 1, p.reference, k);
    InField(e.eventType, s, p.reference + 1, p.eventType, k);
    InField(e.status, s, p.eventType + 1, p.status, k);
    InField(e.externalReference, s, p.status + 1, p.external, k);
    InField(AmountText(e.amount), s, p.external + 1, p.amount, k);
  }

  lemma InField(field: string, s: string, from: int, to: int, k: int)
    requires 0 <= from <= to <= |s| && field == s[from..to]
    ensures from <= k < to && s[k] == '|' ==> field[k - from] == '|' && '|' in field
  {
    if from <= k < to && s[k] == '|' {
      assert field[k - from] == '|';
    }
  }

  /** Five bars among five are the same five. */
  lemma SameBars(p: Bars, q: Bars)
    requires Rising(p) && Rising(q) && p.account == q.account
    requires IsBar(p, q.reference) && IsBar(p, q.eventType) && IsBar(p, q.status) && IsBar(p, q.external)
    requires IsBar(p, q.amount)
    ensures p == q
  {
  }

  lemma SameFields(e: Event, f: Event, s: string, p: Bars)
    requires Cut(e, s, p) && Cut(f, s, p) && e.account == f.account
    ensures KeyFields(e) == KeyFields(f)
  {
    hide AmountText, Text.ToUpper;
  }

  lemma Unmistakable(e: Event, f: Event)
    requires Deliverable(e) && Deliverable(f) && e.account == f.account
    requires DedupeKey(e) == DedupeKey(f) && !Ambiguous(e)
    ensures KeyFields(e) == KeyFields(f)
  {
    var s, p, q := DedupeKey(e), BarsOf(e), BarsOf(f);
    assert q.reference >= q.account + 2;
    assert p.account == q.account == |e.account|;
    hide *;
    CutKey(e);
    CutKey(f);
    CutRises(e, s, p);
    CutRises(f, s, q);
    if q.amount <= p.amount {
      OnlyItsBars(e, s, p, q.reference);
      OnlyItsBars(e, s, p, q.eventType);
      OnlyItsBars(e, s, p, q.status);
      OnlyItsBars(e, s, p, q.external);
      OnlyItsBars(e, s, p, q.amount);
      SameBars(p, q);
      SameFields(e, f, s, p);
    } else {
      PieceInCurrency(e, f, s, p, q);
    }
  }

  lemma CutRises(e: Event, s: string, p: Bars)
    requires Cut(e, s, p)
    ensures Rising(p) && 0 <= p.account < p.reference < p.eventType < p.status < p.external < p.amount < |s|
    ensures s[p.reference] == s[p.eventType] == s[p.status] == s[p.external] == s[p.amount] == '|'
  {
    hide AmountText, Text.ToUpper;
  }

  /** When the other event's amount lies in this one's currency, that is an amount
      closed by a bar. */
  lemma PieceInCurrency(e: Event, f: Event, s: string, p: Bars, q: Bars)
    requires Deliverable(e) && Deliverable(f) && Cut(e, s, p) && Cut(f, s, q) && q.amount > p.amount
    ensures Ambiguous(e)
  {
    hide *;
    CutRises(e, s, p);
    CutRises(f, s, q);
    CutEnds(e, s, p);
    CutEnds(f, s, q);
    Shaped(f);
    AmountTextFree(f.amount);
    InField(AmountText(f.amount), s, q.external + 1, q.amount, p.amount);
    PieceOf(s, p.amount + 1, q.external, q.amount);
    PieceShows(e, q.external - p.amount, q.amount - p.amount - 1);
  }

  lemma CutEnds(e: Event, s: string, p: Bars)
    requires Deliverable(e) && Cut(e, s, p)
    ensures AmountText(e.amount) == s[p.external + 1..p.amount] && e.currency == s[p.amount + 1..]
  {
    assert Text.ToUpper(e.currency) == e.currency;
    hide AmountText, Text.ToUpper;
  }

  /** A stretch between bars, seen from where the currency starts. */
  lemma PieceOf(s: string, from: nat, before: nat, end: nat)
    requires from - 1 <= before < end < |s| && 0 < from && s[before] == '|' && s[end] == '|'
    requires AmountShaped(s[before + 1..end])
    ensures AmountPiece(s[from..], before + 1 - from, end - from)
  {
    hide AmountShaped;
    var c := s[from..];
    assert c[before + 1 - from..end - from] == s[before + 1..end];
    assert before + 1 > from ==> c[before - from] == s[before];
  }

  lemma PieceShows(e: Event, i: nat, j: nat)
    requires AmountPiece(e.currency, i, j)
    ensures Ambiguous(e)
  {
    hide AmountPiece;
  }

  lemma Shaped(f: Event)
    requires Deliverable(f)
    ensures AmountShaped(AmountText(f.amount))
  {
  }

  /** Once an event is stored, delivering it again changes nothing, however long
      ago it was stored and whatever has happened since. */
  lemma RedeliveryIgnored(t: Tables, t': Tables, e: Event, rowId: Id, pick: Option<Id>, now: int)
    requires Stored(t, e) && Stable(t, t')
    requires LatestForReference(t', e.account, e.providerReference, pick)
    ensures HandleWebhook(t', rowId, e, pick, now) == Ok(t')
  {
  }

  /** In any run: from the moment an event is stored, a repeated delivery is a step that
      leaves the tables as they are. */
  lemma RedeliveryInRuns(states: seq<State>, actions: seq<Action>, i: nat, j: nat, e: Event)
    requires Safety.Run(states, actions) && i <= j < |actions| && Stored(states[i].t, e)
    requires actions[j].Deliver? && actions[j].e == e
    ensures states[j + 1] == states[j]
  {
    Safety.RunStable(states, actions, i, j);
    assert Next(states[j], actions[j], states[j + 1]);
    RedeliveryIgnored(states[i].t, states[j].t, e, actions[j].rowId, actions[j].pick, actions[j].now);
  }

  // ---- deliveries that come too early -----------------------------------

  /** Anything else the tables may go through between an early delivery and the
      pass that applies it. */
  datatype Op =
    | OpInsert(p: Payment, txId: Id, attId: Id, now: int)
    | OpPersist(txId: Id, attId: Id, memory: Status, answer: Answer, now: int)
    | OpDeliver(rowId: Id, e: Event, pick: Option<Id>, now: int)
    | OpApply(turn: Turn)
    | OpPoll(txId: Id, word: string, pick: Option<Id>, now: int)
    | OpDefer(txId: Id, now: int)

  function Do(t: Tables, op: Op): Tables {
    match op
    case OpInsert(p, txId, attId, now) => After(t, InsertPayment(t, p, txId, attId, now))
    case OpPersist(txId, attId, memory, answer, now) => After(t, PersistPayment(t, txId, attId, memory, answer, now))
    case OpDeliver(rowId, e, pick, now) =>
      if LatestForReference(t, e.account, e.providerReference, pick)
      then After(t, HandleWebhook(t, rowId, e, pick, now)) else t
    case OpApply(turn) => if ValidTurn(t, turn) then After(t, TakeTurn(t, turn)) else t
    case OpPoll(txId, word, pick, now) =>
      if txId in t.txs && LatestForTransaction(t, txId, t.txs[txId].payment.account, pick)
      then After(t, RecordPoll(t, txId, word, pick, now)) else t
    case OpDefer(txId, now) => After(t, DeferPoll(t, txId, now))
  }

  function DoAll(t: Tables, ops: seq<Op>): Tables
    decreases |ops|
  {
    if ops == [] then t else DoAll(Do(t, ops[0]), ops[1..])
  }

  /** The operation neither takes this event's row nor repeats its delivery. */
  predicate Elsewhere(op: Op, rowId: Id, e: Event) {
    match op
    case OpDeliver(r, f, _, _) => r != rowId && !(f.account == e.account && DedupeKey(f) == DedupeKey(e))
    case OpApply(turn) => turn.rowId != rowId
    case _ => true
  }

  /** The same tables but for one event still waiting. */
  predicate Ahead(t: Tables, u: Tables, rowId: Id, e: Event) {
    rowId !in u.events && t == StoreEvent(u, rowId, e) && !Stored(u, e)
  }

  lemma SameQueries(t: Tables, u: Tables, account: string, reference: string, pick: Option<Id>)
    requires t.attempts == u.attempts
    ensures LatestForReference(t, account, reference, pick) == LatestForReference(u, account, reference, pick)
  {
  }

  lemma StoredAhead(t: Tables, u: Tables, rowId: Id, e: Event, f: Event)
    requires Ahead(t, u, rowId, e) && !(f.account == e.account && DedupeKey(f) == DedupeKey(e))
    ensures Stored(t, f) == Stored(u, f)
  {
    hide DedupeKey;
    if Stored(u, f) {
      var r :| r in u.events && u.events[r].event.account == f.account
               && DedupeKey(u.events[r].event) == DedupeKey(f);
      assert r in t.events && t.events[r] == u.events[r];
    }
  }

  /** Applying another event does the same with and without the one waiting. */
  lemma ApplyAhead(t: Tables, u: Tables, rowId: Id, e: Event, r: Id, f: Event, pick: Option<Id>, now: int)
    requires Ahead(t, u, rowId, e) && r != rowId
    requires LatestForReference(t, f.account, f.providerReference, pick)
    requires LatestForReference(u, f.account, f.providerReference, pick)
    ensures ApplyWebhook(t, r, f, pick, now).Ok? == ApplyWebhook(u, r, f, pick, now).Ok?
    ensures Ahead(After(t, ApplyWebhook(t, r, f, pick, now)), After(u, ApplyWebhook(u, r, f, pick, now)), rowId, e)
  {
    hide DedupeKey, FromText, Transition, Matches, WebhookTx, WebhookAttempt, LatestForReference, Stored, NotedChange;
    var a, b := ApplyWebhook(t, r, f, pick, now), ApplyWebhook(u, r, f, pick, now);
    assert a.Ok? == b.Ok?;
    if b.Ok? {
      SameEventsNotStored(u, b.value, e);
      assert a.value.events == b.value.events[rowId := EventRow(e, false, None)];
    }
  }

  lemma SameEventsNotStored(u: Tables, u': Tables, e: Event)
    requires !Stored(u, e)
    requires forall r :: r in u'.events ==> r in u.events && u'.events[r].event == u.events[r].event
    ensures !Stored(u', e)
  {
  }

  lemma StoredStill(u: Tables, r: Id, f: Event, e: Event)
    requires !Stored(u, e) && !(f.account == e.account && DedupeKey(f) == DedupeKey(e))
    ensures !Stored(StoreEvent(u, r, f), e)
  {
    hide DedupeKey;
  }

  lemma DeliverAhead(t: Tables, u: Tables, rowId: Id, e: Event, r: Id, f: Event, pick: Option<Id>, now: int)
    requires Ahead(t, u, rowId, e) && r != rowId && !(f.account == e.account && DedupeKey(f) == DedupeKey(e))
    requires LatestForReference(t, f.account, f.providerReference, pick)
    requires LatestForReference(u, f.account, f.providerReference, pick)
    ensures Ahead(After(t, HandleWebhook(t, r, f, pick, now)), After(u, HandleWebhook(u, r, f, pick, now)), rowId, e)
  {
    hide DedupeKey, ApplyWebhook, LatestForReference, Stored;
    StoredAhead(t, u, rowId, e, f);
    if !Stored(u, f) && r !in u.events {
      var t1, u1 := StoreEvent(t, r, f), StoreEvent(u, r, f);
      assert t1.events == u1.events[rowId := EventRow(e, false, None)];
      StoredStill(u, r, f, e);
      SameQueries(t1, t, f.account, f.providerReference, pick);
      SameQueries(u1, u, f.account, f.providerReference, pick);
      ApplyAhead(t1, u1, rowId, e, r, f, pick, now);
    }
  }

  lemma DoAhead(t: Tables, u: Tables, op: Op, rowId: Id, e: Event)
    requires Ahead(t, u, rowId, e) && Elsewhere(op, rowId, e)
    ensures Ahead(Do(t, op), Do(u, op), rowId, e)
  {
    hide DedupeKey, ApplyWebhook, HandleWebhook, LatestForReference, Stored, Transition, PaymentStatus, Conflicts;
    match op {
      case OpInsert(p, txId, attId, now) =>
        SameConflicts(t, u, txId, p);
        NotStoredKept(u, Do(u, op), e);
      case OpPersist(txId, attId, memory, answer, now) =>
        NotStoredKept(u, Do(u, op), e);
      case OpDeliver(r, f, pick, now) =>
        SameQueries(t, u, f.account, f.providerReference, pick);
        if LatestForReference(t, f.account, f.providerReference, pick) {
          DeliverAhead(t, u, rowId, e, r, f, pick, now);
        }
      case OpApply(turn) =>
        SameQueries(t, u, turn.event.account, turn.event.providerReference, turn.pick);
        if ValidTurn(u, turn) {
          ApplyAhead(t, u, rowId, e, turn.rowId, turn.event, turn.pick, turn.now);
        }
      case OpPoll(txId, word, pick, now) =>
        NotStoredKept(u, Do(u, op), e);
      case OpDefer(txId, now) =>
        NotStoredKept(u, Do(u, op), e);
    }
  }

  lemma NotStoredKept(u: Tables, u': Tables, e: Event)
    requires !Stored(u, e) && u'.events == u.events
    ensures !Stored(u', e)
  {
  }

  lemma SameConflicts(t: Tables, u: Tables, txId: Id, p: Payment)
    requires t.txs == u.txs
    ensures Conflicts(t, txId, p) == Conflicts(u, txId, p)
  {
  }

  lemma {:induction false} DoAllAhead(t: Tables, u: Tables, ops: seq<Op>, rowId: Id, e: Event)
    requires Ahead(t, u, rowId, e)
    requires forall i :: 0 <= i < |ops| ==> Elsewhere(ops[i], rowId, e)
    ensures Ahead(DoAll(t, ops), DoAll(u, ops), rowId, e)
    decreases |ops|
  {
    hide Ahead, Do, Elsewhere;
    if ops != [] {
      DoAhead(t, u, ops[0], rowId, e);
      DoAllAhead(Do(t, ops[0]), Do(u, ops[0]), ops[1..], rowId, e);
    }
  }

  /** A webhook that arrives while its reference names nothing is only stored; once
      whatever else happens has happened, applying it from storage leaves every
      transaction, attempt and published change exactly as delivering it only then
      would have. When it applies, even the stored events agree. */
  lemma EarlyDeliveryCommutes(t: Tables, ops: seq<Op>, rowId: Id, e: Event, early: int, pick: Option<Id>, now: int)
    requires !Stored(t, e) && rowId !in t.events
    requires LatestForReference(t, e.account, e.providerReference, None)
    requires forall i :: 0 <= i < |ops| ==> Elsewhere(ops[i], rowId, e)
    requires LatestForReference(DoAll(t, ops), e.account, e.providerReference, pick)
    ensures
      var stored := HandleWebhook(t, rowId, e, None, early);
      stored.Ok? && stored.value.txs == t.txs && stored.value.attempts == t.attempts
      && stored.value.changes == t.changes
      && var a, b := DoAll(stored.value, ops), DoAll(t, ops);
      LatestForReference(a, e.account, e.providerReference, pick)
      && var late, direct := ApplyWebhook(a, rowId, e, pick, now), HandleWebhook(b, rowId, e, pick, now);
      late == direct
      && After(a, late).txs == After(b, direct).txs
      && After(a, late).attempts == After(b, direct).attempts
      && After(a, late).changes == After(b, direct).changes
  {
    hide DedupeKey, ApplyWebhook, Stored, Do, Elsewhere;
    ApplyToNothing(StoreEvent(t, rowId, e), rowId, e, early);
    var stored := HandleWebhook(t, rowId, e, None, early).value;
    assert Ahead(stored, t, rowId, e);
    DoAllAhead(stored, t, ops, rowId, e);
    SameQueries(DoAll(stored, ops), DoAll(t, ops), e.account, e.providerReference, pick);
  }

  lemma ApplyToNothing(t: Tables, rowId: Id, e: Event, now: int)
    requires LatestForReference(t, e.account, e.providerReference, None)
    ensures ApplyWebhook(t, rowId, e, None, now) == Ok(t)
  {
  }

  /** A whole pass over stored events is a run of such operations. */
  lemma {:induction false} PassIsOps(t: Tables, turns: seq<Turn>) returns (ops: seq<Op>)
    requires Pass(t, turns)
    ensures |ops| == |turns| && forall i :: 0 <= i < |ops| ==> ops[i] == OpApply(turns[i])
    ensures DoAll(t, ops) == Reprocess(t, turns).0
    decreases |turns|
  {
    hide ApplyWebhook, LatestForReference;
    if turns == [] {
      ops := [];
    } else {
      var op := OpApply(turns[0]);
      var t1 := Do(t, op);
      if TakeTurn(t, turns[0]) == Err(Refused) {
        ops := [op];
        assert ops[1..] == [];
      } else {
        var rest := PassIsOps(t1, turns[1..]);
        ops := [op] + rest;
        assert ops[1..] == rest;
      }
    }
  }
}
