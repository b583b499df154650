/** The circuit breaker of one provider runtime, as a refinement of the history of
    what it admitted and what was reported to it. Calls overlap freely: a report may
    belong to a call admitted long before. Times are nanoseconds and never zero. */
module Breaker {

  const COOLDOWN: int := 30_000_000_000
  const THRESHOLD := 3

  datatype Entry = Admitted(at: int) | Reported(at: int, failed: bool)

  /** What another call asks of the breaker, or tells it. */
  datatype Touch = Ask(now: int) | Tell(now: int, failed: bool)

  datatype CircuitState = Closed | Open | HalfOpen

  // ---- the history read back --------------------------------------------

  function Init(h: seq<Entry>): seq<Entry>
    requires h != []
  {
    h[..|h| - 1]
  }

  function Last(h: seq<Entry>): Entry
    requires h != []
  {
    h[|h| - 1]
  }

  /** How many of the latest reports failed in a row. */
  function Failures(h: seq<Entry>): nat {
    if h == [] then 0
    else if Last(h).Admitted? then Failures(Init(h))
    else if Last(h).failed then Failures(Init(h)) + 1
    else 0
  }

  /** When the latest report came; zero before the first. */
  function LastReport(h: seq<Entry>): int {
    if h == [] then 0
    else if Last(h).Reported? then Last(h).at
    else LastReport(Init(h))
  }

  /** Something was admitted after the latest report. */
  predicate AdmittedSince(h: seq<Entry>) {
    h != [] && Last(h).Admitted?
  }

  predicate Tripped(h: seq<Entry>) {
    Failures(h) >= THRESHOLD
  }

  function StateOf(h: seq<Entry>, now: int): CircuitState {
    if !Tripped(h) then Closed
    else if now - LastReport(h) >= COOLDOWN then HalfOpen
    else Open
  }

  /** Closed lets everything through; otherwise one call, once the pause since the
      latest report is over. */
  predicate Admits(h: seq<Entry>, now: int) {
    StateOf(h, now) == Closed || (StateOf(h, now) == HalfOpen && !AdmittedSince(h))
  }

  /** The history after other calls have touched the breaker in turn. */
  function Absorb(h: seq<Entry>, touches: seq<Touch>): seq<Entry>
    decreases |touches|
  {
    if touches == [] then h
    else
      match touches[0]
      case Ask(now) => Absorb(if Admits(h, now) then h + [Admitted(now)] else h, touches[1..])
      case Tell(now, failed) => Absorb(h + [Reported(now, failed)], touches[1..])
  }

  /** One call that is let through, with what others do while it is out. */
  datatype Call = Call(start: int, meanwhile: seq<Touch>, finish: int, failed: bool, cancelled: bool)

  /** The history after the call has been admitted and reported. */
  function Called(h: seq<Entry>, c: Call): seq<Entry> {
    Absorb(h + [Admitted(c.start)], c.meanwhile) + [Reported(c.finish, c.failed && !c.cancelled)]
  }

  predicate Timed(touches: seq<Touch>) {
    forall i :: 0 <= i < |touches| ==> touches[i].now != 0
  }

  // ---- the breaker ------------------------------------------------------

  class Circuit {
    var failures: int
    /** Zero while the circuit is closed. */
    var openedAt: int
    var probing: bool
    ghost var history: seq<Entry>

    ghost predicate Valid()
      reads this
    {
      failures == Failures(history)
      && openedAt == (if Tripped(history) then LastReport(history) else 0)
      && (Tripped(history) ==> LastReport(history) != 0)
      && probing == (Tripped(history) && AdmittedSince(history))
    }

    constructor ()
      ensures Valid() && history == []
    {
      failures, openedAt, probing, history := 0, 0, false, [];
    }

    method State(now: int) returns (state: CircuitState)
      requires Valid()
      ensures state == StateOf(history, now)
    {
      if openedAt == 0 {
        return Closed;
      }
      if now - openedAt >= COOLDOWN {
        return HalfOpen;
      }
      return Open;
    }

    method Before(now: int) returns (ok: bool)
      requires Valid()
      modifies this
      ensures Valid()
      ensures ok == Admits(old(history), now)
      ensures history == if ok then old(history) + [Admitted(now)] else old(history)
    {
      Extended(history, Admitted(now));
      if openedAt == 0 {
        history := history + [Admitted(now)];
        return true;
      }
      if now - openedAt < COOLDOWN || probing {
        return false;
      }
      probing := true;
      history := history + [Admitted(now)];
      return true;
    }

    method After(now: int, failed: bool)
      requires Valid() && now != 0
      modifies this
      ensures Valid()
      ensures history == old(history) + [Reported(now, failed)]
    {
      Extended(history, Reported(now, failed));
      probing := false;
      history := history + [Reported(now, failed)];
      if !failed {
        failures, openedAt := 0, 0;
        return;
      }
      failures := failures + 1;
      if failures >= THRESHOLD {
        openedAt := now;
      }
    }

    /** What other calls do to the breaker, in turn. */
    method Others(touches: seq<Touch>)
      requires Valid() && Timed(touches)
      modifies this
      ensures Valid() && history == Absorb(old(history), touches)
      decreases |touches|
    {
      if touches != [] {
        var first := touches[0];
        match first {
          case Ask(now) => var _ := Before(now);
          case Tell(now, failed) => After(now, failed);
        }
        Others(touches[1..]);
      }
    }

    /** One provider call, with other calls coming and going while it is out: refused, or
        admitted and reported. A call its caller cancelled is reported as a success. */
    method Execute(start: int, meanwhile: seq<Touch>, finish: int, failed: bool, cancelled: bool) returns (ok: bool)
      requires Valid() && Timed(meanwhile) && finish != 0
      modifies this
      ensures Valid() && ok == Admits(old(history), start) && (ok ==> history != [])
      ensures history == if ok then Called(old(history), Call(start, meanwhile, finish, failed, cancelled))
                         else old(history)
      ensures ok ==> history[|history| - 1] == Reported(finish, failed && !cancelled)
    {
      ok := Before(start);
      if ok {
        Others(meanwhile);
        After(finish, if cancelled then false else failed);
      }
    }
  }

  lemma Extended(h: seq<Entry>, e: Entry)
    ensures Init(h + [e]) == h && Last(h + [e]) == e
    ensures e.Admitted? ==> Failures(h + [e]) == Failures(h) && LastReport(h + [e]) == LastReport(h)
    ensures e.Reported? ==> LastReport(h + [e]) == e.at
                            && Failures(h + [e]) == if e.failed then Failures(h) + 1 else 0
  {
  }

  /** The breaker trips exactly when the three latest reports, admissions aside, all
      failed. */
  lemma {:induction false} TrippedExact(h: seq<Entry>)
    ensures Tripped(h) <==> EndsFailing(Reports(h), 3)
    ensures LastReport(h) == if Reports(h) == [] then 0 else Reports(h)[|Reports(h)| - 1].at
  {
    FailuresCount(h, 3);
    LastReportIs(h);
  }

  /** The reports of a history, oldest first. */
  function Reports(h: seq<Entry>): (r: seq<Entry>)
    ensures forall k :: 0 <= k < |r| ==> r[k].Reported?
  {
    if h == [] then [] else Reports(Init(h)) + if Last(h).Reported? then [Last(h)] else []
  }

  lemma {:induction false} LastReportIs(h: seq<Entry>)
    ensures LastReport(h) == if Reports(h) == [] then 0 else Reports(h)[|Reports(h)| - 1].at
  {
    if h != [] {
      LastReportIs(Init(h));
    }
  }

  predicate EndsFailing(r: seq<Entry>, n: nat)
    requires forall k :: 0 <= k < |r| ==> r[k].Reported?
  {
    |r| >= n && forall k :: |r| - n <= k < |r| ==> r[k].failed
  }

  lemma {:induction false} FailuresCount(h: seq<Entry>, n: nat)
    ensures Failures(h) >= n <==> EndsFailing(Reports(h), n)
  {
    if h != [] && n > 0 {
      var r := Reports(Init(h));
      FailuresCount(Init(h), if Last(h).Admitted? then n else n - 1);
      if Last(h).Reported? {
        assert Reports(h) == r + [Last(h)];
        if Last(h).failed && EndsFailing(r, n - 1) {
          assert EndsFailing(r + [Last(h)], n);
        }
        if EndsFailing(r + [Last(h)], n) {
          assert (r + [Last(h)])[|r|] == Last(h);
          assert forall k :: 0 <= k < |r| ==> (r + [Last(h)])[k] == r[k];
        }
      } else {
        assert Reports(h) == r;
      }
    }
  }

  // ---- legal histories --------------------------------------------------

  /** Admitted calls that have not reported yet. */
  function InFlight(h: seq<Entry>): int {
    if h == [] then 0 else InFlight(Init(h)) + if Last(h).Admitted? then 1 else -1
  }

  /** A history the breaker can have: a clock that never goes back, every admitted call
      admitted by it, and no report without a call. */
  ghost predicate Legal(h: seq<Entry>) {
    (forall i, j :: 0 <= i <= j < |h| ==> h[i].at <= h[j].at)
    && (forall i :: 0 <= i < |h| && h[i].Admitted? ==> Admits(h[..i], h[i].at))
    && (forall i :: 0 <= i <= |h| ==> InFlight(h[..i]) >= 0)
  }

  /** Never closed between two points of a history. */
  ghost predicate TrippedThroughout(h: seq<Entry>, a: nat, b: nat)
    requires a <= b <= |h|
  {
    forall k :: a <= k < b ==> Tripped(h[..k])
  }

  /** The latest report before a point is some entry before it. */
  lemma {:induction false} FindReport(h: seq<Entry>, j: nat) returns (k: nat)
    requires j <= |h| && Tripped(h[..j])
    ensures k < j && h[k].Reported? && h[k].at == LastReport(h[..j])
    ensures forall l :: k < l < j ==> h[l].Admitted?
  {
    assert j > 0 && Init(h[..j]) == h[..j - 1] && Last(h[..j]) == h[j - 1];
    if h[j - 1].Reported? {
      k := j - 1;
    } else {
      k := FindReport(h, j - 1);
    }
  }

  /** While the circuit is not closed, two admissions have a report between them and
      lie a whole pause apart. */
  lemma AdmissionsApart(h: seq<Entry>, i: nat, j: nat) returns (k: nat)
    requires Legal(h) && i < j < |h| && h[i].Admitted? && h[j].Admitted?
    requires TrippedThroughout(h, i, j + 1)
    ensures i < k < j && h[k].Reported?
    ensures h[j].at - h[i].at >= COOLDOWN
  {
    assert Tripped(h[..j]) && Admits(h[..j], h[j].at);
    assert Last(h[..j]) == h[j - 1];
    k := FindReport(h, j);
    assert h[j - 1].Reported?;
    assert k == j - 1;
  }

  function Admissions(h: seq<Entry>, a: nat, b: nat): nat
    requires a <= b <= |h|
    decreases b
  {
    if a == b then 0 else Admissions(h, a, b - 1) + if h[b - 1].Admitted? then 1 else 0
  }

  /** The latest admission of a stretch, when there is one. */
  lemma {:induction false} RateStep(h: seq<Entry>, a: nat, b: nat) returns (last: nat)
    requires Legal(h) && a <= b <= |h| && TrippedThroughout(h, a, b)
    ensures Admissions(h, a, b) > 0 ==>
      a <= last < b && h[last].Admitted?
      && (Admissions(h, a, b) - 1) * COOLDOWN <= h[last].at - h[a].at
    decreases b
  {
    last := a;
    if a < b {
      var before := RateStep(h, a, b - 1);
      if h[b - 1].Admitted? {
        last := b - 1;
        assert h[a].at <= h[b - 1].at;
        if Admissions(h, a, b - 1) > 0 {
          var k := AdmissionsApart(h, before, b - 1);
        }
      } else {
        last := before;
      }
    }
  }

  /** A stretch in which the circuit is never closed admits at most one call, and one
      more for every full pause it lasts. */
  lemma {:induction false} AdmissionRate(h: seq<Entry>, a: nat, b: nat)
    requires Legal(h) && a < b <= |h| && TrippedThroughout(h, a, b)
    ensures Admissions(h, a, b) <= 1 + (h[b - 1].at - h[a].at) / COOLDOWN
  {
    var last := RateStep(h, a, b);
    var n, span := Admissions(h, a, b), h[b - 1].at - h[a].at;
    if n > 0 {
      assert h[last].at <= h[b - 1].at;
      assert (n - 1) * COOLDOWN <= span;
    }
  }

  /** Calls in flight beside the probe: what is left over from while it was closed. */
  function Leftover(h: seq<Entry>): int {
    InFlight(h) - if AdmittedSince(h) then 1 else 0
  }

  /** A continuation of `g` in which the circuit is never closed. */
  ghost predicate StaysTripped(g: seq<Entry>, h: seq<Entry>) {
    g <= h && Legal(h) && forall k :: |g| <= k <= |h| ==> Tripped(h[..k])
  }

  /** While the circuit is not closed the leftovers only go down, so at most one call
      more than those is in flight. */
  lemma {:induction false} InFlightBound(h: seq<Entry>, a: nat, b: nat)
    requires Legal(h) && a <= b <= |h| && TrippedThroughout(h, a, b)
    ensures Leftover(h[..b]) <= Leftover(h[..a])
    ensures InFlight(h[..b]) <= Leftover(h[..a]) + 1
    decreases b
  {
    if a < b {
      InFlightBound(h, a, b - 1);
      assert Init(h[..b]) == h[..b - 1] && Last(h[..b]) == h[b - 1];
      if h[b - 1].Admitted? {
        assert Tripped(h[..b - 1]) && Admits(h[..b - 1], h[b - 1].at);
      }
    }
  }

  /** After a pause a tripped circuit with no probe out admits one more call. */
  lemma OneMore(g: seq<Entry>) returns (h: seq<Entry>)
    requires Legal(g) && Tripped(g) && !AdmittedSince(g)
    ensures StaysTripped(g, h) && InFlight(h) == InFlight(g) + 1
  {
    hide Legal, Failures, LastReport, InFlight, Init;
    assert g != [] by {
      EmptyLegal();
    }
    var latest := if LastReport(g) > Last(g).at then LastReport(g) else Last(g).at;
    h := Grow(g, Admitted(latest + COOLDOWN));
    assert h[..|g|] == g && h[..|h|] == h;
  }

  /** From a legal history on, as long as the circuit is not closed, at most n + 1 calls
      are ever in flight if and only if at most n are left over. With n = 0: there is
      never more than one probe in flight exactly when nothing is in flight but the
      probe itself. */
  lemma InFlightExact(g: seq<Entry>, n: nat)
    requires Legal(g) && Tripped(g)
    ensures (forall h :: StaysTripped(g, h) ==> InFlight(h) <= n + 1) <==> Leftover(g) <= n
  {
    hide Legal, Failures, LastReport, InFlight, Init;
    if Leftover(g) <= n {
      forall h | StaysTripped(g, h)
        ensures InFlight(h) <= n + 1
      {
        InFlightBound(h, |g|, |h|);
        assert h[..|h|] == h && h[..|g|] == g;
      }
    } else if AdmittedSince(g) {
      assert g[..|g|] == g;
      assert StaysTripped(g, g);
    } else {
      var h := OneMore(g);
      assert StaysTripped(g, h);
    }
  }

  /** A run with more than one probe: a call left over from before the circuit opened
      reports during the probe, and its report lets a second probe in while the first is
      still out. */
  lemma LeftoverLetsTwoIn()
    ensures exists h ::
      |h| == 10 && Legal(h) && TrippedThroughout(h, 7, 10) && InFlight(h[..7]) == 1 && InFlight(h) == 2
  {
    hide Legal, InFlight, Failures, LastReport, Init, Last;
    var t0, t1, t2 := 1, 1 + COOLDOWN, 1 + 2 * COOLDOWN;
    EmptyLegal();
    var h1 := Grow([], Admitted(t0));
    var h2 := Grow(h1, Admitted(t0));
    var h3 := Grow(h2, Admitted(t0));
    var h4 := Grow(h3, Admitted(t0));
    var h5 := Grow(h4, Reported(t0, true));
    var h6 := Grow(h5, Reported(t0, true));
    var h7 := Grow(h6, Reported(t0, true));
    var h8 := Grow(h7, Admitted(t1));
    var h9 := Grow(h8, Reported(t1, true));
    var h10 := Grow(h9, Admitted(t2));
    Prefixes(h7, h8[7], h9[8], h10[9]);
  }

  lemma EmptyLegal()
    ensures Legal([]) && InFlight([]) == 0 && Failures([]) == 0 && LastReport([]) == 0
  {
  }

  lemma Prefixes(h: seq<Entry>, a: Entry, b: Entry, c: Entry)
    ensures
      var g := h + [a] + [b] + [c];
      g[..|h|] == h && g[..|h| + 1] == h + [a] && g[..|h| + 2] == h + [a] + [b]
  {
  }

  lemma Grow(h: seq<Entry>, e: Entry) returns (g: seq<Entry>)
    requires Legal(h) && (h != [] ==> Last(h).at <= e.at)
    requires if e.Admitted? then Admits(h, e.at) else InFlight(h) > 0
    ensures g == h + [e] && Legal(g) && Last(g) == e && (AdmittedSince(g) <==> e.Admitted?)
    ensures InFlight(g) == InFlight(h) + if e.Admitted? then 1 else -1
    ensures LastReport(g) == if e.Admitted? then LastReport(h) else e.at
    ensures Failures(g) == if e.Admitted? then Failures(h) else if e.failed then Failures(h) + 1 else 0
  {
    g := h + [e];
    Extended(h, e);
    assert forall i :: 0 <= i <= |h| ==> g[..i] == h[..i];
    assert h[..|h|] == h && g[..|g|] == g;
  }

  /** A cancelled call closes the circuit, whatever the provider did: a cancelled probe
      counts as a success. */
  lemma CancellationCloses(h: seq<Entry>, c: Call, later: int)
    requires c.cancelled
    ensures StateOf(Called(h, c), later) == Closed
  {
  }

  // ---- when the circuit opens -------------------------------------------

  /** What the breaker says, read off its reports: closed unless the three latest failed;
      else open for the 30 seconds after the latest, and half open from then on, when one
      call is let through until the next report. */
  lemma OpensExact(h: seq<Entry>, now: int)
    ensures
      var r := Reports(h);
      if |r| >= 3 && r[|r| - 1].failed && r[|r| - 2].failed && r[|r| - 3].failed
      then
        StateOf(h, now) == (if now - r[|r| - 1].at < 30_000_000_000 then Open else HalfOpen)
        && (Admits(h, now) <==> now - r[|r| - 1].at >= 30_000_000_000 && h[|h| - 1].Reported?)
      else StateOf(h, now) == Closed && Admits(h, now)
  {
    TrippedExact(h);
  }

  /** The touches tell of no success. */
  predicate NoSuccess(touches: seq<Touch>) {
    forall i :: 0 <= i < |touches| && touches[i].Tell? ==> touches[i].failed
  }

  /** Failing reports add up and stay the latest. */
  lemma {:induction false} AbsorbFailing(h: seq<Entry>, touches: seq<Touch>)
    requires NoSuccess(touches)
    ensures Failures(Absorb(h, touches)) >= Failures(h)
    decreases |touches|
  {
    if touches != [] {
      match touches[0] {
        case Ask(now) =>
          Extended(h, Admitted(now));
          AbsorbFailing(if Admits(h, now) then h + [Admitted(now)] else h, touches[1..]);
        case Tell(now, failed) =>
          Extended(h, Reported(now, failed));
          AbsorbFailing(h + [Reported(now, failed)], touches[1..]);
      }
    }
  }

  lemma CalledFailing(h: seq<Entry>, c: Call)
    requires c.failed && !c.cancelled && NoSuccess(c.meanwhile)
    ensures Failures(Called(h, c)) >= Failures(h) + 1
  {
    hide Failures;
    Extended(h, Admitted(c.start));
    AbsorbFailing(h + [Admitted(c.start)], c.meanwhile);
    Extended(Absorb(h + [Admitted(c.start)], c.meanwhile), Reported(c.finish, true));
  }

  /** Three calls that fail with no success reported between or after them open the
      circuit: until 30 seconds after the latest report it stays open, and lets no call
      through. */
  lemma ThreeFailuresOpen(h: seq<Entry>, c1: Call, c2: Call, c3: Call, after: seq<Touch>, now: int)
    requires c1.failed && c2.failed && c3.failed && !c1.cancelled && !c2.cancelled && !c3.cancelled
    requires NoSuccess(c2.meanwhile) && NoSuccess(c3.meanwhile) && NoSuccess(after)
    ensures
      var r := Reports(Absorb(Called(Called(Called(h, c1), c2), c3), after));
      |r| >= 3 && (now < r[|r| - 1].at + 30_000_000_000 ==>
        StateOf(Absorb(Called(Called(Called(h, c1), c2), c3), after), now) == Open
        && !Admits(Absorb(Called(Called(Called(h, c1), c2), c3), after), now))
  {
    hide Called, Absorb, Failures, Reports, LastReport, StateOf, Admits;
    var h1 := Called(h, c1);
    var h2 := Called(h1, c2);
    var h3 := Called(h2, c3);
    FirstFailure(h, c1);
    CalledFailing(h1, c2);
    CalledFailing(h2, c3);
    AbsorbFailing(h3, after);
    FailuresCount(Absorb(h3, after), 3);
    OpensExact(Absorb(h3, after), now);
  }

  lemma FirstFailure(h: seq<Entry>, c: Call)
    requires c.failed && !c.cancelled
    ensures Failures(Called(h, c)) >= 1
  {
    Extended(Absorb(h + [Admitted(c.start)], c.meanwhile), Reported(c.finish, true));
  }

  /** Right after the third, the latest report is its own. */
  lemma OpenAfterThird(h: seq<Entry>, c1: Call, c2: Call, c3: Call, now: int)
    requires c1.failed && c2.failed && c3.failed && !c1.cancelled && !c2.cancelled && !c3.cancelled
    requires NoSuccess(c2.meanwhile) && NoSuccess(c3.meanwhile)
    ensures StateOf(Called(Called(Called(h, c1), c2), c3), now) == Open <==> now < c3.finish + 30_000_000_000
  {
    var h2 := Called(Called(h, c1), c2);
    ThreeFailuresOpen(h, c1, c2, c3, [], now);
    OpensExact(Called(h2, c3), now);
    Extended(Absorb(h2 + [Admitted(c3.start)], c3.meanwhile), Reported(c3.finish, true));
    LastReportIs(Called(h2, c3));
  }
}
