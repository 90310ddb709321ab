/**
 * Plans and the bill. Prices are whole cents and the overage rate is in
 * 1/10000 dollar, as the numeric columns store them; `toFixed(2)` on an exact
 * value picks the nearer cent and the larger one on a tie.
 */
module Bill {
  import opened Basics

  datatype Plan = FREE | PRO | ENTERPRISE

  datatype Terms = Terms(monthlyQuota: nat, pricePerMonth: nat, overagePerThousand: nat, requestsPerMinute: nat)

  /** PLAN_TERMS. */
  function TermsOf(plan: Plan): Terms {
    match plan
    case FREE => Terms(10_000, 0, 0, 100)
    case PRO => Terms(1_000_000, 4_900, 5_000, 5_000)
    case ENTERPRISE => Terms(50_000_000, 99_900, 2_000, 50_000)
  }

  /** PLAN_RATE_LIMITS. */
  function RateLimitOf(plan: Plan): nat {
    match plan
    case FREE => 100
    case PRO => 5_000
    case ENTERPRISE => 50_000
  }

  /** The integer nearest to x / d, the larger one on a tie. */
  function RoundHalfUp(x: nat, d: nat): nat
    requires d > 0
  {
    (2 * x + d) / (2 * d)
  }

  /** The integer nearest to x / d is within half a unit of it, and unique. */
  lemma RoundIsNearest(x: nat, d: nat, n: nat)
    requires d > 0
    ensures n == RoundHalfUp(x, d) <==> 2 * n * d - d <= 2 * x < 2 * n * d + d
  {
    var q, e := RoundHalfUp(x, d), 2 * d;
    Division(2 * x + d, e);
    assert 2 * n * d == n * e;
    if n < q {
      TimesMonotone(n + 1, q, e);
      assert (n + 1) * e == n * e + e;
    } else if q < n {
      TimesMonotone(q + 1, n, e);
      assert (q + 1) * e == q * e + e;
    }
  }

  lemma Division(x: nat, d: nat)
    requires d > 0
    ensures (x / d) * d <= x < (x / d) * d + d
  {
    assert x == (x / d) * d + x % d;
  }

  datatype Usage = Usage(
    included: nat, used: nat, overage: nat, baseCost: nat, overageCost: nat, totalCost: nat)

  function Overage(t: Terms, used: nat): nat {
    Max(0, used - t.monthlyQuota)
  }

  /** Started blocks of 1,000 requests. */
  function Blocks(overage: nat): nat {
    (overage + 999) / 1000
  }

  /** Exact overage in 1/10000 dollar. */
  function OverageExact(t: Terms, used: nat): nat {
    Blocks(Overage(t, used)) * t.overagePerThousand
  }

  function ComputeBill(t: Terms, used: nat): Usage {
    Usage(t.monthlyQuota, used, Overage(t, used), t.pricePerMonth,
          RoundHalfUp(OverageExact(t, used), 100),
          RoundHalfUp(t.pricePerMonth * 100 + OverageExact(t, used), 100))
  }

  /** `used` requests end in the k-th started block of 1,000 above the quota. */
  predicate InBlock(t: Terms, used: nat, k: nat) {
    k >= 1 && t.monthlyQuota + 1000 * (k - 1) < used <= t.monthlyQuota + 1000 * k
  }

  /** `cents` is the whole number of cents nearest to k rates, the larger on a tie. */
  predicate NearestCents(cents: nat, k: nat, rate: nat) {
    200 * cents - 100 <= 2 * (k * rate) < 200 * cents + 100
  }

  /**
   * What a bill charges, said of its amounts: the price, and above the quota the
   * cents nearest to one rate for each started block of 1,000 requests.
   */
  ghost predicate Charges(t: Terms, used: nat, b: Usage) {
    && b.included == t.monthlyQuota && b.used == used
    && (if used > b.included then b.overage == used - b.included else b.overage == 0)
    && b.baseCost == t.pricePerMonth && b.totalCost == b.baseCost + b.overageCost
    && (used <= t.monthlyQuota ==> b.overageCost == 0)
    && (forall k: nat :: InBlock(t, used, k) ==> NearestCents(b.overageCost, k, t.overagePerThousand))
  }

  lemma BlockIs(t: Terms, used: nat, k: nat)
    requires InBlock(t, used, k)
    ensures Blocks(Overage(t, used)) == k && OverageExact(t, used) == k * t.overagePerThousand
  {
  }

  lemma SomeBlock(t: Terms, used: nat) returns (k: nat)
    requires used > t.monthlyQuota
    ensures InBlock(t, used, k)
  {
    k := Blocks(Overage(t, used));
  }

  /** Rounding the total and rounding the overage never disagree by a cent. */
  lemma BillAddsUp(t: Terms, used: nat)
    ensures var b := ComputeBill(t, used);
      b.totalCost == b.baseCost + b.overageCost == t.pricePerMonth + b.overageCost
  {
  }

  /** The bill charges exactly that: for every usage and all terms. */
  lemma BillCharges(t: Terms, used: nat)
    ensures Charges(t, used, ComputeBill(t, used))
  {
    var b := ComputeBill(t, used);
    BillAddsUp(t, used);
    if used <= t.monthlyQuota {
      assert OverageExact(t, used) == 0;
    }
    forall k: nat | InBlock(t, used, k) ensures NearestCents(b.overageCost, k, t.overagePerThousand) {
      BlockIs(t, used, k);
      RoundIsNearest(k * t.overagePerThousand, 100, b.overageCost);
    }
  }

  /** And nothing else does: these facts determine every amount. */
  lemma ChargesUnique(t: Terms, used: nat, a: Usage, b: Usage)
    requires Charges(t, used, a) && Charges(t, used, b)
    ensures a == b
  {
    if used > t.monthlyQuota {
      var k := SomeBlock(t, used);
      assert NearestCents(a.overageCost, k, t.overagePerThousand);
      assert NearestCents(b.overageCost, k, t.overagePerThousand);
    }
  }

  /** The published plans in closed form: the total in cents for any usage of a month. */
  lemma PlanPrices(used: nat)
    ensures ComputeBill(TermsOf(FREE), used).totalCost == 0
    ensures ComputeBill(TermsOf(PRO), used).totalCost ==
      4_900 + if used <= 1_000_000 then 0 else 50 * ((used - 1_000_000 + 999) / 1000)
    ensures ComputeBill(TermsOf(ENTERPRISE), used).totalCost ==
      99_900 + if used <= 50_000_000 then 0 else 20 * ((used - 50_000_000 + 999) / 1000)
  {
    PlanPrice(FREE, used, 0);
    PlanPrice(PRO, used, 50);
    PlanPrice(ENTERPRISE, used, 20);
  }

  /** A plan whose rate is a whole number of cents is never rounded. */
  lemma PlanPrice(plan: Plan, used: nat, cents: nat)
    requires TermsOf(plan).overagePerThousand == 100 * cents
    ensures var t := TermsOf(plan);
      ComputeBill(t, used).totalCost == t.pricePerMonth + Blocks(Overage(t, used)) * cents
  {
    var t := TermsOf(plan);
    var n := Blocks(Overage(t, used));
    BillAddsUp(t, used);
    assert n * (100 * cents) == 100 * (n * cents);
    RoundIsNearest(OverageExact(t, used), 100, n * cents);
  }

  /** The gateway limits that go with the plans are those of the plan table. */
  lemma PlanLimits(plan: Plan)
    ensures RateLimitOf(plan) == TermsOf(plan).requestsPerMinute
    ensures RateLimitOf(plan) == match plan case FREE => 100 case PRO => 5_000 case ENTERPRISE => 50_000
    ensures TermsOf(plan).monthlyQuota ==
      match plan case FREE => 10_000 case PRO => 1_000_000 case ENTERPRISE => 50_000_000
  {
  }

  /** More usage never costs less. */
  lemma BillMonotone(t: Terms, used: nat, more: nat)
    requires used <= more
    ensures ComputeBill(t, used).overageCost <= ComputeBill(t, more).overageCost
    ensures ComputeBill(t, used).totalCost <= ComputeBill(t, more).totalCost
  {
    assert Blocks(Overage(t, used)) <= Blocks(Overage(t, more));
    TimesMonotone(Blocks(Overage(t, used)), Blocks(Overage(t, more)), t.overagePerThousand);
  }

  lemma TimesMonotone(a: nat, b: nat, c: nat)
    requires a <= b
    ensures a * c <= b * c
  {
  }

  /** Within the quota the bill is the price. */
  lemma BillWithinQuota(t: Terms, used: nat)
    requires used <= t.monthlyQuota
    ensures ComputeBill(t, used).totalCost == t.pricePerMonth
  {
    BillCharges(t, used);
  }

  /** Whichever of its thousand requests was the last, a started block costs the same. */
  lemma BillPerStartedBlock(t: Terms, used: nat, other: nat, k: nat)
    requires InBlock(t, used, k) && InBlock(t, other, k)
    ensures ComputeBill(t, used).overageCost == ComputeBill(t, other).overageCost
  {
    BlockIs(t, used, k);
    BlockIs(t, other, k);
  }

  /**
   * The overage charged, in cents, is the pro-rata charge for the requests above the
   * quota plus less than one block's rate, give or take the half cent of rounding.
   */
  lemma BillNearProRata(t: Terms, used: nat)
    requires used > t.monthlyQuota
    ensures var exact, cents := (used - t.monthlyQuota) * t.overagePerThousand, ComputeBill(t, used).overageCost;
      && exact < 100_000 * cents + 50_000
      && (t.overagePerThousand > 0 ==> 100_000 * cents < exact + 1000 * t.overagePerThousand + 50_000)
  {
    BillCharges(t, used);
    var k := SomeBlock(t, used);
    assert NearestCents(ComputeBill(t, used).overageCost, k, t.overagePerThousand);
    NearProRata(used - t.monthlyQuota, k, t.overagePerThousand, ComputeBill(t, used).overageCost);
  }

  lemma NearProRata(o: nat, k: nat, r: nat, cents: nat)
    requires o <= 1000 * k < o + 1000 && NearestCents(cents, k, r)
    ensures o * r < 100_000 * cents + 50_000
    ensures r > 0 ==> 100_000 * cents < o * r + 1000 * r + 50_000
  {
    TimesMonotone(o, 1000 * k, r);
    assert 1000 * (k * r) == (1000 * k) * r;
    if r > 0 {
      TimesMonotone(1000 * k + 1, o + 1000, r);
      assert (1000 * k + 1) * r == (1000 * k) * r + r;
      assert (o + 1000) * r == o * r + 1000 * r;
    }
  }
}
