/** The public city status page (CityStatusPage): integer health percentages,
    the city-wide totals folded over the areas, and the colour band of an
    area's health bar. Percentages are computed on exact rationals: the
    JavaScript `operational / total * 100` is a floating-point value, and its
    rounding error is not modelled. */
module CityStatus {

  /** `calculatePercentage(operational, total)`, i.e.
      `Math.round((operational / total) * 100)`. `Math.round` rounds half-way
      cases up, so the result is the integer `r` with
      `r - 1/2 <= 100 * operational / total < r + 1/2`. There is no guard
      for `total === 0` (which gives `NaN` in JavaScript), so the caller must
      pass a positive total. */
  function CalculatePercentage(operational: int, total: int): (r: int)
    requires total > 0
    ensures 2 * total * r <= 200 * operational + total < 2 * total * (r + 1)
  {
    (200 * operational + total) / (2 * total)
  }

  /** Multiplying by a positive factor preserves order. */
  lemma MulLe(c: int, x: int, y: int)
    requires c > 0 && x <= y
    ensures c * x <= c * y
  {
    var d := y - x;
    assert c * y == c * x + c * d;
  }

  /** For `0 <= operational <= total` the percentage lies in 0..100, with
      both ends reached: all operational gives 100 and none gives 0. */
  lemma PercentageInRange(operational: int, total: int)
    requires total > 0 && 0 <= operational <= total
    ensures 0 <= CalculatePercentage(operational, total) <= 100
    ensures operational == total ==> CalculatePercentage(operational, total) == 100
    ensures operational == 0 ==> CalculatePercentage(operational, total) == 0
  {
    var r := CalculatePercentage(operational, total);
    var c, n := 2 * total, 200 * operational + total;
    assert c * r <= n < c * (r + 1);
    if r < 0 {
      MulLe(c, r + 1, 0);
    }
    if r > 100 {
      MulLe(c, 101, r);
    }
    if operational == total && r < 100 {
      MulLe(c, r + 1, 100);
    }
    if operational == 0 && r > 0 {
      MulLe(c, 1, r);
    }
  }

  /** For a fixed total, more operational units never give a lower percentage. */
  lemma PercentageMonotone(op1: int, op2: int, total: int)
    requires total > 0 && op1 <= op2
    ensures CalculatePercentage(op1, total) <= CalculatePercentage(op2, total)
  {
    var r1, r2 := CalculatePercentage(op1, total), CalculatePercentage(op2, total);
    var c := 2 * total;
    assert c * r1 <= 200 * op1 + total && 200 * op2 + total < c * (r2 + 1);
    if r1 > r2 {
      MulLe(c, r2 + 1, r1);
    }
  }

  /** Operational and total counts of one category within an area. */
  datatype CategoryHealth = CategoryHealth(operational: int, total: int)

  datatype AreaStatus = Good | Fair | Attention

  datatype AreaHealth = AreaHealth(
    area: string,
    status: AreaStatus,
    operational: int,
    total: int,
    streetlights: CategoryHealth,
    traffic: CategoryHealth,
    water: CategoryHealth,
    waste: CategoryHealth)

  /** `totalOperational`: `areaHealth.reduce((sum, area) => sum + area.operational, 0)`. */
  function TotalOperational(areas: seq<AreaHealth>): (sum: int)
    ensures (forall i :: 0 <= i < |areas| ==> areas[i].operational >= 0) ==> sum >= 0
    ensures |areas| == 1 ==> sum == areas[0].operational
  {
    if areas == [] then 0
    else TotalOperational(areas[..|areas| - 1]) + areas[|areas| - 1].operational
  }

  /** `totalInfrastructure`: `areaHealth.reduce((sum, area) => sum + area.total, 0)`. */
  function TotalInfrastructure(areas: seq<AreaHealth>): (sum: int)
    ensures (forall i :: 0 <= i < |areas| ==> areas[i].total >= 0) ==> sum >= 0
    ensures |areas| == 1 ==> sum == areas[0].total
  {
    if areas == [] then 0
    else TotalInfrastructure(areas[..|areas| - 1]) + areas[|areas| - 1].total
  }

  /** If no area has more operational units than units, neither has the
      city, and the city's operational count is never negative. */
  lemma {:induction false} TotalsBounded(areas: seq<AreaHealth>)
    requires forall a :: a in areas ==> 0 <= a.operational <= a.total
    ensures 0 <= TotalOperational(areas) <= TotalInfrastructure(areas)
  {
    if areas != [] {
      var front := areas[..|areas| - 1];
      assert forall a :: a in front ==> a in areas;
      TotalsBounded(front);
      assert areas[|areas| - 1] in areas;
    }
  }

  /** Appending an area adds its counts to the totals: the folds are sums. */
  lemma {:induction false} TotalsOfConcat(a: seq<AreaHealth>, b: seq<AreaHealth>)
    ensures TotalOperational(a + b) == TotalOperational(a) + TotalOperational(b)
    ensures TotalInfrastructure(a + b) == TotalInfrastructure(a) + TotalInfrastructure(b)
    decreases |b|
  {
    if b == [] {
      assert a + b == a;
    } else {
      var front := b[..|b| - 1];
      assert (a + b)[..|a + b| - 1] == a + front;
      assert (a + b)[|a + b| - 1] == b[|b| - 1];
      TotalsOfConcat(a, front);
    }
  }

  /** `overallHealth`: the city-wide percentage. With sensible per-area
      counts it is a percentage, 100 when every unit works and 0 when none does. */
  function OverallHealth(areas: seq<AreaHealth>): (r: int)
    requires TotalInfrastructure(areas) > 0
    ensures (forall a :: a in areas ==> 0 <= a.operational <= a.total) ==> 0 <= r <= 100
    ensures TotalOperational(areas) == TotalInfrastructure(areas) ==> r == 100
    ensures TotalOperational(areas) == 0 ==> r == 0
  {
    var op, total := TotalOperational(areas), TotalInfrastructure(areas);
    if forall a :: a in areas ==> 0 <= a.operational <= a.total then
      TotalsBounded(areas);
      PercentageInRange(op, total);
      CalculatePercentage(op, total)
    else
      assert op == total ==> CalculatePercentage(op, total) == 100 by {
        if op == total { PercentageInRange(op, total); }
      }
      assert op == 0 ==> CalculatePercentage(op, total) == 0 by {
        if op == 0 { PercentageInRange(op, total); }
      }
      CalculatePercentage(op, total)
  }

  /** The colour of an area's health bar. */
  datatype Band = Green | Blue | Yellow

  /** `healthPercentage >= 90 ? green : healthPercentage >= 75 ? blue : yellow`:
      exactly one band applies to each percentage. */
  function HealthBand(percentage: int): (b: Band)
    ensures b == Green <==> percentage >= 90
    ensures b == Blue <==> 75 <= percentage < 90
    ensures b == Yellow <==> percentage < 75
  {
    if percentage >= 90 then Green
    else if percentage >= 75 then Blue
    else Yellow
  }

  function BandRank(b: Band): int
  {
    match b
    case Yellow => 0
    case Blue => 1
    case Green => 2
  }

  /** A healthier area never gets a worse colour. */
  lemma HealthBandMonotone(p: int, q: int)
    requires p <= q
    ensures BandRank(HealthBand(p)) <= BandRank(HealthBand(q))
  {
  }
}
