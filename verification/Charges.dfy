/** Fees: flat, or a share in basis points computed without leaving 64 bits. */
module Charges {
  import opened Wrappers
  import opened Text

  const SCALE := 10_000

  datatype Rule = Rule(kind: string, value: int)

  datatype Schedule = Schedule(collection: Rule, disbursement: Rule)

  function Defaulted(r: Rule): Rule {
    if r.kind == "" then r.(kind := "flat") else r
  }

  function Normalized(s: Schedule): Schedule {
    Schedule(Defaulted(s.collection), Defaulted(s.disbursement))
  }

  function RuleFor(s: Schedule, service: string): Rule {
    if service == "disbursement" then s.disbursement else s.collection
  }

  predicate Valid(r: Rule) {
    r.value >= 0 && (r.kind == "flat" || (r.kind == "percentage" && r.value <= SCALE))
  }

  /** The fee, with the wrap-around of every intermediate written out. */
  function Calculate(r: Rule, amount: int): Result<int>
    requires InInt64(amount) && InInt64(r.value)
  {
    if amount < 0 || !Valid(r) then Err(Refused)
    else if r.kind == "flat" then Ok(r.value)
    else
      var whole := amount / SCALE;
      var remainder := amount % SCALE;
      var share := Wrap64(Wrap64(remainder * r.value) + SCALE / 2) / SCALE;
      Ok(Wrap64(Wrap64(whole * r.value) + share))
  }

  /** What a payment is charged: the rule of its service, after defaults. */
  method CalculateCharge(charges: Schedule, service: string, amount: int) returns (fee: Result<int>)
    requires InInt64(amount) && InInt64(charges.collection.value) && InInt64(charges.disbursement.value)
    ensures
      var r := if service == "disbursement" then charges.disbursement else charges.collection;
      if amount < 0 || r.value < 0 then fee == Err(Refused)
      else if r.kind == "flat" || r.kind == "" then fee == Ok(r.value)
      else if r.kind == "percentage" && r.value <= SCALE then fee == Ok(Share(amount, r.value))
      else fee == Err(Refused)
  {
    var schedule := charges;
    schedule := Normalized(schedule);
    var r := RuleFor(schedule, service);
    if amount >= 0 && Valid(r) && r.kind == "percentage" {
      PercentageExact(amount, r.value);
    }
    fee := Calculate(r, amount);
  }

  /** A share of an amount in basis points, rounded half up. */
  function Share(amount: nat, rate: nat): nat {
    (amount * rate + SCALE / 2) / SCALE
  }

  /** It is the whole number nearest to rate ten-thousandths of the amount, the larger of
      two as near. */
  lemma ShareNearest(amount: nat, rate: nat)
    ensures amount * rate - 5_000 < 10_000 * Share(amount, rate) <= amount * rate + 5_000
    ensures forall n: int :: amount * rate - 5_000 < 10_000 * n <= amount * rate + 5_000 ==> n == Share(amount, rate)
  {
  }

  lemma SplitProduct(amount: nat, rate: nat)
    ensures amount * rate == SCALE * ((amount / SCALE) * rate) + (amount % SCALE) * rate
  {
  }

  lemma ProductBound(x: nat, y: nat, b: nat, c: nat)
    requires x <= b && y <= c
    ensures x * y <= b * c
  {
  }

  /** No intermediate of the percentage fee leaves 64 bits, and the split computation
      is the share of the whole amount. */
  lemma PercentageExact(amount: int, rate: int)
    requires 0 <= amount && InInt64(amount) && 0 <= rate <= SCALE
    ensures InInt64((amount % SCALE) * rate) && InInt64((amount % SCALE) * rate + SCALE / 2)
    ensures InInt64((amount / SCALE) * rate)
    ensures InInt64((amount / SCALE) * rate + ((amount % SCALE) * rate + SCALE / 2) / SCALE)
    ensures Calculate(Rule("percentage", rate), amount) == Ok(Share(amount, rate))
  {
    var w, m := amount / SCALE, amount % SCALE;
    ProductBound(m, rate, SCALE, SCALE);
    ProductBound(w, rate, w, SCALE);
    SplitProduct(amount, rate);
    assert (SCALE * (w * rate) + (m * rate + SCALE / 2)) / SCALE == w * rate + (m * rate + SCALE / 2) / SCALE;
    ShareAtMost(amount, rate);
  }

  /** The share is at most the amount. */
  lemma ShareAtMost(amount: nat, rate: nat)
    requires rate <= SCALE
    ensures Share(amount, rate) <= amount
  {
    ProductBound(amount, rate, amount, SCALE);
    assert (amount * SCALE + SCALE / 2) / SCALE == amount;
  }

  /** A larger amount, or a larger rate, is never charged less. */
  lemma ShareMonotone(a: nat, b: nat, r: nat, q: nat)
    requires a <= b && r <= q
    ensures Share(a, r) <= Share(b, q)
  {
    ProductBound(a, r, b, q);
  }

  /** Splitting a payment in two changes the total fee by one unit at most. */
  lemma SplitFee(a: nat, b: nat, rate: nat)
    ensures -1 <= Share(a, rate) + Share(b, rate) - Share(a + b, rate) <= 1
  {
  }

  /** Both bounds are reached. */
  lemma SplitFeeTight()
    ensures Share(1, 5_000) + Share(1, 5_000) == Share(2, 5_000) + 1
    ensures Share(1, 4_000) + Share(1, 4_000) == Share(2, 4_000) - 1
  {
  }
}
