/** The integer arithmetic behind reservations: overcommitted totals, the
    percentage test that admits a request, and the CPU-share conversion. */
module Resources {

  /** Integer division of Go: the quotient is truncated toward zero. */
  function GoDiv(a: int, b: int): int
    requires b != 0
  {
    if a >= 0 then (if b > 0 then a / b else -(a / -b))
    else if b > 0 then -(-a / b) else -a / -b
  }

  /** Total capacity: the physical amount plus the overcommit percentage. */
  function Total(physical: int, overcommitPercent: int): int {
    physical + GoDiv(physical * overcommitPercent, 100)
  }

  /** A ratio above -100 percent never makes the total negative, and a
      non-negative ratio never takes anything away. */
  lemma TotalRange(physical: nat, overcommitPercent: int)
    requires overcommitPercent > -100
    ensures Total(physical, overcommitPercent) >= 0
    ensures physical > 0 ==> Total(physical, overcommitPercent) > 0
    ensures overcommitPercent >= 0 ==> Total(physical, overcommitPercent) >= physical
  {
    if overcommitPercent >= 0 {
      assert physical * overcommitPercent >= 0;
    } else {
      var d := physical * -overcommitPercent;
      assert physical * overcommitPercent == -d;
      assert 0 <= d <= physical * 99;
    }
  }

  /** The total is the overcommitted amount to the unit: rounded down where the
      ratio adds to it, up where it takes away. */
  lemma TotalIsOvercommitted(physical: int, overcommitPercent: int)
    ensures var total, exact := Total(physical, overcommitPercent), (100 + overcommitPercent) * physical;
            if physical * overcommitPercent >= 0 then 100 * total <= exact < 100 * total + 100
            else exact <= 100 * total < exact + 100
  {
    var extra := physical * overcommitPercent;
    assert (100 + overcommitPercent) * physical == 100 * physical + extra;
  }

  // ------------------------------------------------------------ admission

  /** The share of the total in percent once the request is added; a request
      for nothing scores 100. */
  function Score(used: int, request: int, total: int): int
    requires request > 0 ==> total != 0
  {
    if request > 0 then GoDiv((used + request) * 100, total) else 100
  }

  /** A node smaller than the request is skipped before any division. */
  predicate Admits(used: int, request: int, total: int) {
    request <= total && Score(used, request, total) <= 100
  }

  /** What a reservation is allowed to reach: nothing, or under 101 percent. */
  predicate WithinCapacity(used: int, total: int) {
    used == 0 || 100 * used < 101 * total
  }

  /** The same told by the physical amount: the ratio applies, and rounding up a
      total that it lowers gives away less than one more unit. */
  predicate WithinPhysical(used: int, physical: int, overcommitPercent: int) {
    var rounding := if physical * overcommitPercent >= 0 then 0 else 99;
    used == 0 || 10000 * used < 101 * ((100 + overcommitPercent) * physical + rounding)
  }

  lemma CapacityIsPhysical(used: int, physical: int, overcommitPercent: int)
    requires WithinCapacity(used, Total(physical, overcommitPercent))
    ensures WithinPhysical(used, physical, overcommitPercent)
  {
    TotalIsOvercommitted(physical, overcommitPercent);
  }

  lemma DivAtMost(a: int, b: int, q: int)
    requires a >= 0 && b > 0
    ensures a / b <= q <==> a < (q + 1) * b
  {
    var d := a / b;
    assert a == d * b + a % b;
    if d <= q {
      assert d * b <= q * b;
    } else {
      assert (q + 1) * b <= d * b;
    }
  }

  lemma AdmitsIff(used: int, request: int, total: int)
    ensures Admits(used, request, total) <==>
            request <= total && (request > 0 ==> 100 * (used + request) < 101 * total)
  {
    if 0 < request <= total && used + request >= 0 {
      DivAtMost((used + request) * 100, total, 100);
    }
  }

  /** Whatever stays within the overcommitted amount is admitted, and nothing that
      exceeds it by a hundredth or more. */
  lemma AdmissionIsPhysical(used: nat, request: nat, physical: nat, overcommitPercent: int)
    requires request > 0
    ensures 100 * (used + request) <= (100 + overcommitPercent) * physical ==>
              Admits(used, request, Total(physical, overcommitPercent))
    ensures Admits(used, request, Total(physical, overcommitPercent)) ==>
              WithinPhysical(used + request, physical, overcommitPercent)
  {
    TotalIsOvercommitted(physical, overcommitPercent);
    AdmitsIff(used, request, Total(physical, overcommitPercent));
  }

  /** What is admitted on top of more is admitted on top of less. */
  lemma AdmitsWithLess(used: nat, more: int, request: nat, total: int)
    requires used <= more && Admits(more, request, total)
    ensures Admits(used, request, total)
  {
    AdmitsIff(used, request, total);
    AdmitsIff(more, request, total);
  }

  /** Admission keeps the capacity bound, for any mix of zero and non-zero
      requests. */
  lemma AdmissionKeepsCapacity(used: nat, request: nat, total: int)
    requires WithinCapacity(used, total)
    requires Admits(used, request, total)
    ensures WithinCapacity(used + request, total)
  {
    AdmitsIff(used, request, total);
  }

  lemma ScoreRange(used: nat, request: nat, total: int)
    requires Admits(used, request, total)
    ensures 0 <= Score(used, request, total) <= 100
  {
    if request > 0 {
      DivAtMost((used + request) * 100, total, 100);
    }
  }

  /** The percentage is truncated, so admission is exact precisely on totals of
      at most 100 units. */
  lemma AdmissionExactIff(total: nat)
    ensures (forall used: nat, request: nat :: Admits(used, request, total) && request > 0
               ==> used + request <= total)
            <==> total <= 100
  {
    forall used: nat, request: nat | total <= 100 && Admits(used, request, total) && request > 0
      ensures used + request <= total
    {
      AdmitsIff(used, request, total);
    }
    if total > 100 {
      AdmitsIff(total, 1, total);
      assert Admits(total, 1, total);
    }
  }

  const INT64_MAX: int := 0x7fff_ffff_ffff_ffff

  /** No intermediate value of the admission test leaves the range of int64. */
  lemma ScoreDoesNotOverflow(used: nat, request: nat, total: nat)
    requires WithinCapacity(used, total) && request <= total
    requires total <= INT64_MAX / 202
    ensures 0 <= used + request <= INT64_MAX
    ensures 0 <= (used + request) * 100 <= INT64_MAX
  {
  }

  // ----------------------------------------------------------- CPU shares

  function CeilDiv(a: int, b: int): int
    requires b > 0
  {
    -(-a / b)
  }

  /** CPUs requested of Swarm, as the share sent to the daemon. */
  function ToShares(cpus: int, engineCpus: int): int
    requires engineCpus > 0
  {
    CeilDiv(cpus * 1024, engineCpus)
  }

  /** The share reported by the daemon, as CPUs reserved in the cache. */
  function FromShares(shares: int, engineCpus: int): int {
    GoDiv(shares * engineCpus, 1024)
  }

  function Cached(cpus: int, engineCpus: int): int
    requires engineCpus > 0
  {
    FromShares(ToShares(cpus, engineCpus), engineCpus)
  }

  lemma CeilDivBounds(a: int, b: int)
    requires a >= 0 && b > 0
    ensures a <= CeilDiv(a, b) * b < a + b
    ensures CeilDiv(a, b) >= 0
  {
    var q := -a / b;
    assert -a == q * b + (-a) % b;
    assert CeilDiv(a, b) * b == -(q * b);
  }

  lemma CachedBounds(cpus: nat, engineCpus: nat)
    requires engineCpus > 0
    ensures cpus * 1024 <= ToShares(cpus, engineCpus) * engineCpus < cpus * 1024 + engineCpus
    ensures Cached(cpus, engineCpus) == ToShares(cpus, engineCpus) * engineCpus / 1024
  {
    CeilDivBounds(cpus * 1024, engineCpus);
  }

  /** The cached reservation never falls below what was requested. */
  lemma CachedNeverUnderReports(cpus: nat, engineCpus: nat)
    requires engineCpus > 0
    ensures Cached(cpus, engineCpus) >= cpus
  {
    CachedBounds(cpus, engineCpus);
  }

  lemma CpuShareRoundTrip(cpus: nat, engineCpus: nat)
    requires 1 <= engineCpus <= 1024
    ensures Cached(cpus, engineCpus) == cpus
  {
    CachedBounds(cpus, engineCpus);
  }

  /** The round trip is exact for every request precisely on engines of at most
      1024 CPUs. */
  lemma CpuShareRoundTripIff(engineCpus: nat)
    requires engineCpus >= 1
    ensures (forall cpus: nat :: Cached(cpus, engineCpus) == cpus) <==> engineCpus <= 1024
  {
    if engineCpus <= 1024 {
      forall cpus: nat ensures Cached(cpus, engineCpus) == cpus {
        CpuShareRoundTrip(cpus, engineCpus);
      }
    } else {
      var cpus := RoundTripGrows(engineCpus);
      assert Cached(cpus, engineCpus) != cpus;
    }
  }

  /** Beyond 1024 CPUs some request comes back larger than it was sent. */
  lemma RoundTripGrows(engineCpus: nat) returns (cpus: nat)
    requires engineCpus > 1024
    ensures cpus <= 1024 && Cached(cpus, engineCpus) > cpus
  {
    var d := engineCpus - 1024;
    cpus := CeilDiv(1024, d);
    CeilDivBounds(1024, d);
    CachedBounds(cpus, engineCpus);
    // cpus shares already cover the request with 1024 to spare
    assert cpus * engineCpus == cpus * 1024 + cpus * d;
    ShareCount(cpus, engineCpus);
    MulCancel(cpus - 1, 1024, d);
  }

  lemma ShareCount(cpus: nat, engineCpus: nat)
    requires engineCpus > 1024
    requires 1024 <= cpus * (engineCpus - 1024) < engineCpus
    ensures ToShares(cpus, engineCpus) == cpus
  {
    CeilDivBounds(cpus * 1024, engineCpus);
    var k := ToShares(cpus, engineCpus);
    assert cpus * engineCpus == cpus * 1024 + cpus * (engineCpus - 1024);
    MulCancel(k, cpus + 1, engineCpus);
    MulCancel(cpus - 1, k, engineCpus);
  }

  lemma MulCancel(x: int, y: int, b: int)
    requires b > 0 && x * b < y * b
    ensures x < y
  {
  }

  // ---------------------------------------------------- the float64 detour

  const TWO_TO_THE_53: int := 0x20_0000_0000_0000

  /** quotient is a / b rounded to a float64: relative error at most 2^-53, and
      exact when a / b is an integer. */
  ghost predicate RoundsQuotient(quotient: real, a: nat, b: nat)
    requires b > 0
  {
    && (quotient * b as real - a as real) * TWO_TO_THE_53 as real <= a as real
    && (a as real - quotient * b as real) * TWO_TO_THE_53 as real <= a as real
    && (a % b == 0 ==> quotient == (a / b) as real)
  }

  ghost function CeilReal(x: real): int {
    -(-x).Floor
  }

  /** Below 2^53 the ceiling taken of the float64 quotient is the exact one. */
  lemma FloatCeilIsExact(quotient: real, a: nat, b: nat)
    requires b > 0 && a < TWO_TO_THE_53
    requires RoundsQuotient(quotient, a, b)
    ensures CeilReal(quotient) == CeilDiv(a, b)
  {
    CeilDivValue(a, b);
    if a % b == 0 {
      CeilOf(quotient, a / b);
    } else {
      QuotientBetween(quotient, a, b);
      CeilOf(quotient, a / b + 1);
    }
  }

  /** So requests of less than 2^43 CPUs are sent as the exact share. */
  lemma SharesAreExact(quotient: real, cpus: nat, engineCpus: nat)
    requires engineCpus > 0 && cpus * 1024 < TWO_TO_THE_53
    requires RoundsQuotient(quotient, cpus * 1024, engineCpus)
    ensures CeilReal(quotient) == ToShares(cpus, engineCpus)
  {
    FloatCeilIsExact(quotient, cpus * 1024, engineCpus);
  }

  lemma CeilDivValue(a: int, b: int)
    requires a >= 0 && b > 0
    ensures CeilDiv(a, b) == a / b + if a % b == 0 then 0 else 1
  {
    CeilDivBounds(a, b);
    var n, k := a / b, CeilDiv(a, b);
    if a % b == 0 {
      MulCancel(k, n + 1, b);
      MulCancel(n - 1, k, b);
    } else {
      MulCancel(k, n + 2, b);
      MulCancel(n, k, b);
    }
  }

  lemma CeilOf(x: real, n: int)
    requires (n - 1) as real < x <= n as real
    ensures CeilReal(x) == n
  {
    assert -(n as real) == (-n) as real;
  }

  lemma QuotientBetween(quotient: real, a: nat, b: nat)
    requires 0 < b && a < TWO_TO_THE_53 && a % b != 0
    requires RoundsQuotient(quotient, a, b)
    ensures (a / b) as real < quotient <= (a / b + 1) as real
  {
    var n, x := a / b, quotient * b as real;
    RoundingError(x, a);
    assert a == n * b + a % b;
    assert n * b as int < a < (n + 1) * b;
    RealScale(n, b, quotient, a);
  }

  lemma RoundingError(x: real, a: nat)
    requires a < TWO_TO_THE_53
    requires (x - a as real) * TWO_TO_THE_53 as real <= a as real
    requires (a as real - x) * TWO_TO_THE_53 as real <= a as real
    ensures -1.0 < x - a as real < 1.0
  {
  }

  /** Integers on either side of a stay on the same side of anything closer
      than 1 to a. */
  lemma RealScale(n: int, b: int, quotient: real, a: int)
    requires b > 0 && n * b < a < (n + 1) * b
    requires -1.0 < quotient * b as real - a as real < 1.0
    ensures n as real < quotient <= (n + 1) as real
  {
    RealCancel(n as real, quotient, b as real) by {
      assert n as real * b as real == (n * b) as real;
    }
    RealCancelWeak(quotient, (n + 1) as real, b as real) by {
      assert (n + 1) as real * b as real == ((n + 1) * b) as real;
    }
  }

  lemma RealCancel(x: real, y: real, b: real)
    requires b > 0.0 && x * b < y * b
    ensures x < y
  {
  }

  lemma RealCancelWeak(x: real, y: real, b: real)
    requires b > 0.0 && x * b <= y * b
    ensures x <= y
  {
  }
}
