/** Choosing a provider for a payment, and listing what could be chosen. */
module Routing {
  import opened Wrappers
  import opened Text
  import opened Order

  datatype Route = Route(id: nat, service: string, paymentMethod: string, account: nat, priority: int, created: int,
                         active: bool)

  datatype Account = Account(country: string, currency: string, active: bool)

  /** A loaded provider: the pairs of service and method it can do, and its breaker. */
  datatype Runtime = Runtime(capabilities: seq<(string, string)>, circuitOpen: bool)

  datatype HealthStatus = Healthy | Degraded | Down | Disabled | Misconfigured

  /** A health row, or a read that failed for another reason than its absence. */
  datatype Health = Snapshot(status: HealthStatus, circuitOpen: bool) | Unreadable

  /** Everything a selection looks at, at one moment. */
  datatype View = View(routes: set<Route>, accounts: map<nat, Account>, runtimes: map<nat, Runtime>,
                       health: map<nat, Health>)

  // ---- one route --------------------------------------------------------

  predicate Supports(capabilities: seq<(string, string)>, service: string, paymentMethod: string) {
    (service, paymentMethod) in capabilities
  }

  predicate Healthful(health: map<nat, Health>, account: nat) {
    account in health ==>
      var h := health[account];
      h.Snapshot? && !h.status.Down? && !h.status.Disabled? && !h.status.Misconfigured? && !h.circuitOpen
  }

  predicate Candidate(view: View, route: Route, service: string, country: string, currency: string) {
    var id := route.account;
    id in view.accounts && view.accounts[id] == Account(country, currency, true)
    && id in view.runtimes && Supports(view.runtimes[id].capabilities, service, route.paymentMethod)
    && !view.runtimes[id].circuitOpen && Healthful(view.health, id)
  }

  method SupportsPair(capabilities: seq<(string, string)>, service: string, paymentMethod: string) returns (found: bool)
    ensures found == Supports(capabilities, service, paymentMethod)
  {
    for i := 0 to |capabilities|
      invariant (service, paymentMethod) !in capabilities[..i]
    {
      if capabilities[i].0 == service && capabilities[i].1 == paymentMethod {
        return true;
      }
      assert capabilities[..i + 1] == capabilities[..i] + [capabilities[i]];
    }
    assert capabilities[..|capabilities|] == capabilities;
    return false;
  }

  /** The engine's checks, one after the other; a health row that is absent is no reason
      to route away, one that cannot be read is. */
  method IsCandidate(view: View, route: Route, service: string, country: string, currency: string) returns (ok: bool)
    ensures ok == Candidate(view, route, service, country, currency)
  {
    var id := route.account;
    if id !in view.accounts || !view.accounts[id].active {
      return false;
    }
    var account := view.accounts[id];
    if account.country != country || account.currency != currency || id !in view.runtimes {
      return false;
    }
    var supported := SupportsPair(view.runtimes[id].capabilities, service, route.paymentMethod);
    if !supported || view.runtimes[id].circuitOpen {
      return false;
    }
    if id !in view.health {
      return true;
    }
    match view.health[id] {
      case Unreadable => return false;
      case Snapshot(status, circuitOpen) =>
        return !(status == Down || status == Disabled || status == Misconfigured || circuitOpen);
    }
  }

  // ---- the two queries --------------------------------------------------

  predicate Serves(route: Route, service: string, paymentMethod: string) {
    route.active && route.service == service && route.paymentMethod == paymentMethod
  }

  predicate Wanted(route: Route, service: string) {
    route.active && (service == "" || route.service == service)
  }

  /** Lowest priority first, then oldest; what comes after a tie is up to the database. */
  predicate Before(a: Route, b: Route) {
    a.priority < b.priority || (a.priority == b.priority && a.created <= b.created)
  }

  predicate PairLess(a: (string, string), b: (string, string)) {
    Less(a.0, b.0) || (a.0 == b.0 && Less(a.1, b.1))
  }

  function Pair(route: Route): (string, string) {
    (route.service, route.paymentMethod)
  }

  /** By service, then method, then priority. */
  predicate Grouped(a: Route, b: Route) {
    PairLess(Pair(a), Pair(b)) || (Pair(a) == Pair(b) && a.priority <= b.priority)
  }

  /** An answer of the route query for one service and method. */
  ghost predicate RoutesFor(view: View, service: string, paymentMethod: string, rows: seq<Route>) {
    (forall r :: r in rows <==> r in view.routes && Serves(r, service, paymentMethod))
    && forall i, j :: 0 <= i < j < |rows| ==> Before(rows[i], rows[j])
  }

  /** An answer of the route query for one service, or for both. */
  ghost predicate Candidates(view: View, service: string, rows: seq<Route>) {
    (forall r :: r in rows <==> r in view.routes && Wanted(r, service))
    && forall i, j :: 0 <= i < j < |rows| ==> Grouped(rows[i], rows[j])
  }

  // ---- selection --------------------------------------------------------

  lemma CapitalBytes(s: string)
    ensures (|s| == 3 && forall i :: 0 <= i < 3 ==> IsLetter(s[i])) ==> Utf8Len(ToUpper(s)) == 3
  {
    if |s| == 3 && forall i :: 0 <= i < 3 ==> IsLetter(s[i]) {
      Utf8LenAscii(ToUpper(s));
    }
  }

  /** Upper-cases to a letter from A to Z. */
  predicate IsLetter(c: char) {
    'a' <= c <= 'z' || 'A' <= c <= 'Z' || c == '\U{131}' || c == '\U{17F}'
  }

  /** Accepts three letters, with any space around them, and gives them in capitals. */
  function NormalizeCurrency(value: string): (code: Option<string>)
    ensures code.Some? <==> |TrimSpace(value)| == 3 && forall i :: 0 <= i < 3 ==> IsLetter(TrimSpace(value)[i])
    ensures code.Some? ==>
      |code.value| == 3
      && forall i :: 0 <= i < 3 ==> 'A' <= code.value[i] <= 'Z' && code.value[i] == UpperChar(TrimSpace(value)[i])
  {
    CapitalBytes(TrimSpace(value));
    var code := ToUpper(TrimSpace(value));
    if Utf8Len(code) == 3 && forall i :: 0 <= i < |code| ==> 'A' <= code[i] <= 'Z'
    then Utf8LenAscii(code); Some(code)
    else None
  }

  predicate Eligible(view: View, route: Route, service: string, paymentMethod: string, country: string,
                     currency: string)
  {
    route in view.routes && Serves(route, service, paymentMethod) && Candidate(view, route, service, country, currency)
  }

  /** The chosen route is eligible and no eligible route comes before it; nothing is
      chosen only when nothing is eligible. */
  ghost predicate Selected(view: View, service: string, paymentMethod: string, country: string, currency: string,
                     choice: Option<Route>)
  {
    if choice.Some?
    then Eligible(view, choice.value, service, paymentMethod, country, currency)
         && forall r :: r in view.routes && Eligible(view, r, service, paymentMethod, country, currency) ==>
              Before(choice.value, r)
    else forall r :: r in view.routes ==> !Eligible(view, r, service, paymentMethod, country, currency)
  }

  /** `country` is the normalized code, or nothing when it names no country; `rows` is
      what the database answers. */
  method SelectProvider(view: View, service: string, paymentMethod: string, country: Option<string>, currency: string,
                        rows: seq<Route>)
      returns (choice: Result<Route>)
    requires RoutesFor(view, service, paymentMethod, rows)
    ensures choice == Err(Refused) <==> country.None? || NormalizeCurrency(currency).None?
    ensures choice != Err(Refused) ==>
      Selected(view, service, paymentMethod, country.value, NormalizeCurrency(currency).value,
               if choice.Ok? then Some(choice.value) else None)
  {
    hide NormalizeCurrency, Candidate;
    var code := NormalizeCurrency(currency);
    if country.None? || code.None? {
      return Err(Refused);
    }
    for i := 0 to |rows|
      invariant forall k :: 0 <= k < i ==> !Candidate(view, rows[k], service, country.value, code.value)
    {
      var ok := IsCandidate(view, rows[i], service, country.value, code.value);
      if ok {
        assert forall r :: r in rows && Candidate(view, r, service, country.value, code.value) ==> Before(rows[i], r);
        return Ok(rows[i]);
      }
    }
    return Err(NotFound);
  }

  // ---- discovery --------------------------------------------------------

  predicate StrictlyAscending(list: seq<(string, string)>) {
    forall i, j :: 0 <= i < j < |list| ==> PairLess(list[i], list[j])
  }

  /** Some active route for the pair would be chosen. */
  ghost predicate Available(view: View, pair: (string, string), country: string, currency: string) {
    exists r :: r in view.routes && Eligible(view, r, pair.0, pair.1, country, currency)
  }

  ghost predicate Listed(view: View, service: string, country: string, currency: string, list: seq<(string, string)>) {
    StrictlyAscending(list)
    && forall pair: (string, string) ::
         pair in list <==> (service == "" || pair.0 == service) && Available(view, pair, country, currency)
  }

  predicate ServiceOk(service: string) {
    service == "" || service == "collection" || service == "disbursement"
  }

  lemma PairOrder(a: (string, string), b: (string, string))
    ensures PairLess(a, b) ==> a != b && !PairLess(b, a)
  {
    LessTotal(a.0, b.0);
    LessTotal(a.1, b.1);
  }

  /** What the loop has listed after `i` rows: the pairs of the candidates among them. */
  predicate Covered(view: View, country: string, currency: string, rows: seq<Route>, i: nat,
                    list: seq<(string, string)>)
    requires i <= |rows|
  {
    StrictlyAscending(list)
    && (forall k :: 0 <= k < i && Candidate(view, rows[k], rows[k].service, country, currency) ==>
          Pair(rows[k]) in list)
    && forall pair: (string, string) :: pair in list ==>
         exists k :: 0 <= k < i && Pair(rows[k]) == pair && Candidate(view, rows[k], rows[k].service, country, currency)
  }

  lemma CoveredAll(view: View, service: string, country: string, currency: string, rows: seq<Route>,
                   list: seq<(string, string)>)
    requires Candidates(view, service, rows) && Covered(view, country, currency, rows, |rows|, list)
    ensures Listed(view, service, country, currency, list)
  {
    hide Candidate, Grouped, PairLess;
    forall pair: (string, string) | (service == "" || pair.0 == service) && Available(view, pair, country, currency)
      ensures pair in list
    {
      var r :| r in view.routes && Eligible(view, r, pair.0, pair.1, country, currency);
      assert r in rows;
      assert Pair(r) == pair;
    }
    forall pair: (string, string) | pair in list
      ensures (service == "" || pair.0 == service) && Available(view, pair, country, currency)
    {
      var k :| 0 <= k < |rows| && Pair(rows[k]) == pair && Candidate(view, rows[k], rows[k].service, country, currency);
      assert rows[k] in rows;
      assert Eligible(view, rows[k], pair.0, pair.1, country, currency);
    }
  }

  /** A new candidate's pair comes after every pair listed so far. */
  lemma NextPair(view: View, service: string, country: string, currency: string, rows: seq<Route>, i: nat,
                 list: seq<(string, string)>)
    requires Candidates(view, service, rows) && i < |rows| && Covered(view, country, currency, rows, i, list)
    requires Candidate(view, rows[i], rows[i].service, country, currency) && Pair(rows[i]) !in list
    ensures Covered(view, country, currency, rows, i + 1, list + [Pair(rows[i])])
  {
    hide Candidate, PairLess;
    var list' := list + [Pair(rows[i])];
    forall p | 0 <= p < |list|
      ensures PairLess(list[p], Pair(rows[i]))
    {
      assert list[p] in list;
      var k :| 0 <= k < i && Pair(rows[k]) == list[p] && Candidate(view, rows[k], rows[k].service, country, currency);
      assert Grouped(rows[k], rows[i]);
    }
    forall pair: (string, string) | pair in list'
      ensures exists k :: 0 <= k < i + 1 && Pair(rows[k]) == pair
                 && Candidate(view, rows[k], rows[k].service, country, currency)
    {
      if pair in list {
        var k :| 0 <= k < i && Pair(rows[k]) == pair && Candidate(view, rows[k], rows[k].service, country, currency);
      } else {
        assert pair == Pair(rows[i]);
      }
    }
  }

  method AvailablePaymentMethods(view: View, service: string, country: Option<string>, currency: string,
                                 rows: seq<Route>)
      returns (list: Result<seq<(string, string)>>)
    requires Candidates(view, service, rows)
    ensures list.Err? <==> !ServiceOk(service) || country.None? || NormalizeCurrency(currency).None?
    ensures list.Ok? ==> Listed(view, service, country.value, NormalizeCurrency(currency).value, list.value)
  {
    hide NormalizeCurrency, Candidate, Candidates, Covered, Listed;
    var code := NormalizeCurrency(currency);
    if !ServiceOk(service) || country.None? || code.None? {
      return Err(Refused);
    }
    var seen: set<(string, string)>, available: seq<(string, string)> := {}, [];
    CoveredNone(view, country.value, code.value, rows);
    for i := 0 to |rows|
      invariant Covered(view, country.value, code.value, rows, i, available)
      invariant forall pair :: pair in seen <==> pair in available
    {
      var pair := (rows[i].service, rows[i].paymentMethod);
      var ok := false;
      if pair !in seen {
        ok := IsCandidate(view, rows[i], rows[i].service, country.value, code.value);
      }
      if !ok {
        CoveredSkip(view, country.value, code.value, rows, i, available);
        continue;
      }
      NextPair(view, service, country.value, code.value, rows, i, available);
      seen := seen + {pair};
      available := available + [pair];
    }
    CoveredAll(view, service, country.value, code.value, rows, available);
    return Ok(available);
  }

  lemma CoveredNone(view: View, country: string, currency: string, rows: seq<Route>)
    ensures Covered(view, country, currency, rows, 0, [])
  {
  }

  lemma CoveredSkip(view: View, country: string, currency: string, rows: seq<Route>, i: nat,
                    list: seq<(string, string)>)
    requires i < |rows| && Covered(view, country, currency, rows, i, list)
    requires Pair(rows[i]) in list || !Candidate(view, rows[i], rows[i].service, country, currency)
    ensures Covered(view, country, currency, rows, i + 1, list)
  {
  }

  /** What is listed is what can be chosen: discovery and selection never disagree on
      one view. */
  lemma ListedExact(view: View, filter: string, service: string, paymentMethod: string, country: string,
                    currency: string, list: seq<(string, string)>, choice: Option<Route>)
    requires Listed(view, filter, country, currency, list)
    requires Selected(view, service, paymentMethod, country, currency, choice)
    ensures (service, paymentMethod) in list <==> (filter == "" || filter == service) && choice.Some?
  {
  }

  /** The list is in order of service, then of method, and holds nothing twice. */
  lemma ListedInOrder(list: seq<(string, string)>, i: nat, j: nat)
    requires StrictlyAscending(list) && i < j < |list|
    ensures Less(list[i].0, list[j].0) || (list[i].0 == list[j].0 && Less(list[i].1, list[j].1))
    ensures list[i] != list[j]
  {
    PairOrder(list[i], list[j]);
  }

  /** Which routes can be chosen: an active one for the service and method, whose account
      is active in the country and currency, with a loaded provider that can do both, its
      circuit not open, and, where the account has a health row, one that could be read
      and says healthy or degraded with the circuit not open. */
  lemma EligibleExact(view: View, route: Route, service: string, paymentMethod: string, country: string,
                      currency: string)
    ensures
      Eligible(view, route, service, paymentMethod, country, currency)
      <==> route in view.routes && route.active && route.service == service && route.paymentMethod == paymentMethod
           && route.account in view.accounts && view.accounts[route.account] == Account(country, currency, true)
           && route.account in view.runtimes && !view.runtimes[route.account].circuitOpen
           && (service, paymentMethod) in view.runtimes[route.account].capabilities
           && (route.account in view.health ==>
                 view.health[route.account] == Snapshot(Healthy, false)
                 || view.health[route.account] == Snapshot(Degraded, false))
  {
  }

  /** The chosen route has the lowest priority of those that can be chosen, and of those
      with that priority it is the oldest. */
  lemma ChosenFirst(view: View, service: string, paymentMethod: string, country: string, currency: string,
                    chosen: Route, route: Route)
    requires Selected(view, service, paymentMethod, country, currency, Some(chosen))
    requires Eligible(view, route, service, paymentMethod, country, currency)
    ensures chosen.priority <= route.priority
    ensures chosen.priority == route.priority ==> chosen.created <= route.created
  {
  }

  /** Two selections on one view differ at most by a tie. */
  lemma SelectedUpToTies(view: View, service: string, paymentMethod: string, country: string, currency: string,
                         a: Option<Route>, b: Option<Route>)
    requires Selected(view, service, paymentMethod, country, currency, a)
    requires Selected(view, service, paymentMethod, country, currency, b)
    ensures a.Some? == b.Some?
    ensures a.Some? ==> a.value.priority == b.value.priority && a.value.created == b.value.created
  {
  }

  /** Taking routes away can only make the choice come later: a provider lost falls back
      to the next one, never to a better one. */
  lemma FallsBack(view: View, lost: set<Route>, service: string, paymentMethod: string, country: string,
                  currency: string, before: Option<Route>, after: Option<Route>)
    requires Selected(view, service, paymentMethod, country, currency, before)
    requires Selected(view.(routes := view.routes - lost), service, paymentMethod, country, currency, after)
    ensures after.Some? ==> before.Some? && Before(before.value, after.value)
    ensures before.Some? && before.value !in lost ==> after.Some? && Before(after.value, before.value)
  {
    var view' := view.(routes := view.routes - lost);
    forall r: Route
      ensures Eligible(view', r, service, paymentMethod, country, currency)
              <==> r !in lost && Eligible(view, r, service, paymentMethod, country, currency)
    {
    }
    hide Candidate;
    if before.Some? && before.value !in lost {
      assert Eligible(view', before.value, service, paymentMethod, country, currency);
    }
  }
}
