/**
 The RGB color-distance metrics. Each metric is a specification function
 (the closed form the metric promises, stated in its ensures, computed by
 reducing the difference vector) and a method that runs the metric's own
 accumulator loop over the difference vector and is proved to return that
 function's value. A tag per metric and a dispatch function stand in for
 the family of interchangeable metric objects.
 */
module ColorDistanceMetrics {
  import opened Reductions
  import opened Colors

  /** 2^24: a Java float holds every integer of at most this size exactly. */
  const FloatExact: int := 0x100_0000

  // ---------------------------------------------------------------------
  // Specification functions, one per metric
  // ---------------------------------------------------------------------

  /**
   The signed Chebychev variant: the largest of 0 and the three signed
   differences. No absolute value is taken, so a channel where c2 is the
   brighter one is never reported.
   */
  function RGBChebychev(c1: Color, c2: Color): (r: int)
    ensures r >= 0
    ensures r >= c1.red - c2.red && r >= c1.green - c2.green && r >= c1.blue - c2.blue
    ensures r == 0 || r == c1.red - c2.red || r == c1.green - c2.green || r == c1.blue - c2.blue
    ensures r == 0 <==> c1.red <= c2.red && c1.green <= c2.green && c1.blue <= c2.blue
    ensures r <= 255
  {
    var d := RGBDists(c1, c2);
    assert d[0] == c1.red - c2.red && d[1] == c1.green - c2.green && d[2] == c1.blue - c2.blue;
    SignedMax(d)
  }

  /**
   The "flawed" linear metric: the differences are summed first and the
   absolute value is taken afterwards, so opposite differences cancel.
   */
  function SumRGB(c1: Color, c2: Color): (r: int)
    ensures r == Abs((c1.red + c1.green + c1.blue) - (c2.red + c2.green + c2.blue))
    ensures r <= 765
  {
    var d := RGBDists(c1, c2);
    PowerSumOfThree(d, 1);
    PowSmall(d[0]);
    PowSmall(d[1]);
    PowSmall(d[2]);
    Abs(PowerSum(d, 1))
  }

  /** The sum of the squared differences. */
  function SumSqRGB(c1: Color, c2: Color): (r: int)
    ensures r == (c1.red - c2.red) * (c1.red - c2.red)
               + (c1.green - c2.green) * (c1.green - c2.green)
               + (c1.blue - c2.blue) * (c1.blue - c2.blue)
    ensures 0 <= r <= 195075
  {
    var d := RGBDists(c1, c2);
    PowerSumOfThree(d, 2);
    PowSmall(d[0]);
    PowSmall(d[1]);
    PowSmall(d[2]);
    PowSmall(255);
    PowerSumAbsBound(d, 2, 255);
    PowerSumEvenNonNegative(d, 2);
    PowerSum(d, 2)
  }

  /**
   The "flawed" cubic metric: the signed cubes are summed first and the
   absolute value is taken afterwards, so opposite cubes cancel.
   */
  function SumCubeRGB(c1: Color, c2: Color): (r: int)
    ensures r == Abs((c1.red - c2.red) * (c1.red - c2.red) * (c1.red - c2.red)
                   + (c1.green - c2.green) * (c1.green - c2.green) * (c1.green - c2.green)
                   + (c1.blue - c2.blue) * (c1.blue - c2.blue) * (c1.blue - c2.blue))
  {
    var d := RGBDists(c1, c2);
    PowerSumOfThree(d, 3);
    PowSmall(d[0]);
    PowSmall(d[1]);
    PowSmall(d[2]);
    Abs(PowerSum(d, 3))
  }

  /** The sum of the fourth powers of the differences. */
  function SumQrtRGB(c1: Color, c2: Color): (r: int)
    ensures r == (c1.red - c2.red) * (c1.red - c2.red) * (c1.red - c2.red) * (c1.red - c2.red)
               + (c1.green - c2.green) * (c1.green - c2.green) * (c1.green - c2.green) * (c1.green - c2.green)
               + (c1.blue - c2.blue) * (c1.blue - c2.blue) * (c1.blue - c2.blue) * (c1.blue - c2.blue)
    ensures r >= 0
  {
    var d := RGBDists(c1, c2);
    PowerSumOfThree(d, 4);
    PowSmall(d[0]);
    PowSmall(d[1]);
    PowSmall(d[2]);
    PowerSumEvenNonNegative(d, 4);
    PowerSum(d, 4)
  }

  // ---------------------------------------------------------------------
  // The metrics' accumulator loops
  // ---------------------------------------------------------------------

  /** RGBChebychev.dist: keep the largest difference seen, starting from 0. */
  method RGBChebychevDist(c1: Color, c2: Color) returns (max: int)
    ensures max == RGBChebychev(c1, c2)
  {
    var dists := RGBDists(c1, c2);
    max := 0;
    for i := 0 to |dists|
      invariant max == SignedMax(dists[..i])
    {
      var val := dists[i];
      assert dists[..i + 1][..i] == dists[..i];
      if val > max {
        max := val;
      }
    }
    assert dists[..|dists|] == dists;
  }

  /** sumRGBDist.dist: add up the differences, then take the absolute value. */
  method SumRGBDist(c1: Color, c2: Color) returns (dist: int)
    ensures dist == SumRGB(c1, c2)
  {
    var dists := RGBDists(c1, c2);
    var ret := 0;
    for i := 0 to |dists|
      invariant ret == PowerSum(dists[..i], 1)
    {
      var val := dists[i];
      assert dists[..i + 1][..i] == dists[..i];
      PowSmall(val);
      ret := ret + val;
    }
    assert dists[..|dists|] == dists;
    dist := Abs(ret);
  }

  /** sumSqRGBDist.dist: add up the squared differences. */
  method SumSqRGBDist(c1: Color, c2: Color) returns (dist: int)
    ensures dist == SumSqRGB(c1, c2)
  {
    var dists := RGBDists(c1, c2);
    var ret := 0;
    for i := 0 to |dists|
      invariant ret == PowerSum(dists[..i], 2)
    {
      var val := dists[i];
      assert dists[..i + 1][..i] == dists[..i];
      PowSmall(val);
      ret := ret + val * val;
    }
    assert dists[..|dists|] == dists;
    dist := ret;
  }

  /** sumCubeRGBDist.dist: add up the cubed differences, then take the absolute value. */
  method SumCubeRGBDist(c1: Color, c2: Color) returns (dist: int)
    ensures dist == SumCubeRGB(c1, c2)
  {
    var dists := RGBDists(c1, c2);
    var ret := 0;
    for i := 0 to |dists|
      invariant ret == PowerSum(dists[..i], 3)
    {
      var val := dists[i];
      assert dists[..i + 1][..i] == dists[..i];
      PowSmall(val);
      ret := ret + val * val * val;
    }
    assert dists[..|dists|] == dists;
    dist := Abs(ret);
  }

  /** sumQrtRGBDist.dist: add up the fourth powers of the differences. */
  method SumQrtRGBDist(c1: Color, c2: Color) returns (dist: int)
    ensures dist == SumQrtRGB(c1, c2)
  {
    var dists := RGBDists(c1, c2);
    var ret := 0;
    for i := 0 to |dists|
      invariant ret == PowerSum(dists[..i], 4)
    {
      var val := dists[i];
      assert dists[..i + 1][..i] == dists[..i];
      PowSmall(val);
      ret := ret + val * val * val * val;
    }
    assert dists[..|dists|] == dists;
    dist := ret;
  }

  // ---------------------------------------------------------------------
  // The metric family: selection by tag
  // ---------------------------------------------------------------------

  /** One tag per RGB metric, named after the metric. */
  datatype RGBMetric = Chebychev | Sum | SumSq | SumCube | SumQrt

  /** The distance a metric assigns to two colors. */
  function Distance(m: RGBMetric, c1: Color, c2: Color): (r: int)
    ensures r >= 0
  {
    match m
    case Chebychev => RGBChebychev(c1, c2)
    case Sum => SumRGB(c1, c2)
    case SumSq => SumSqRGB(c1, c2)
    case SumCube => SumCubeRGB(c1, c2)
    case SumQrt => SumQrtRGB(c1, c2)
  }

  /** A caller's metric.dist(c1, c2): run the loop of the selected metric. */
  method Dist(m: RGBMetric, c1: Color, c2: Color) returns (dist: int)
    ensures dist == Distance(m, c1, c2)
  {
    match m
    case Chebychev => dist := RGBChebychevDist(c1, c2);
    case Sum => dist := SumRGBDist(c1, c2);
    case SumSq => dist := SumSqRGBDist(c1, c2);
    case SumCube => dist := SumCubeRGBDist(c1, c2);
    case SumQrt => dist := SumQrtRGBDist(c1, c2);
  }

  ghost predicate Symmetric(m: RGBMetric)
  {
    forall c1: Color, c2: Color :: Distance(m, c1, c2) == Distance(m, c2, c1)
  }

  /** Distance 0 only between colors that agree on every channel. */
  ghost predicate Separating(m: RGBMetric)
  {
    forall c1: Color, c2: Color :: Distance(m, c1, c2) == 0 ==> c1 == c2
  }

  // ---------------------------------------------------------------------
  // Properties of the family
  // ---------------------------------------------------------------------

  /** Every metric gives 0 for a color compared with itself. */
  lemma DistanceReflexive(m: RGBMetric, c: Color)
    ensures Distance(m, c, c) == 0
  {
  }

  /** Every metric but the signed Chebychev one ignores the order of its arguments. */
  lemma DistanceSwapped(m: RGBMetric, c1: Color, c2: Color)
    requires m != Chebychev
    ensures Distance(m, c1, c2) == Distance(m, c2, c1)
  {
    var d := RGBDists(c1, c2);
    RGBDistsSwapped(c1, c2);
    match m
    case Sum => PowerSumNegated(d, 1);
    case SumSq => PowerSumNegated(d, 2);
    case SumCube => PowerSumNegated(d, 3);
    case SumQrt => PowerSumNegated(d, 4);
  }

  /** The even-power metrics are 0 exactly between equal colors. */
  lemma DistanceZeroIff(m: RGBMetric, c1: Color, c2: Color)
    requires m == SumSq || m == SumQrt
    ensures Distance(m, c1, c2) == 0 <==> c1 == c2
  {
    var d := RGBDists(c1, c2);
    RGBDistsZeroIff(c1, c2);
    if m == SumSq {
      PowerSumEvenZeroIff(d, 2);
    } else {
      PowerSumEvenZeroIff(d, 4);
    }
  }

  /**
   A color 10 brighter than another in red only, as (10,0,0) against black,
   is 10 away from it, while the swapped call gives 0.
   */
  lemma ChebychevAsymmetric(brighter: Color, darker: Color)
    requires brighter.red - darker.red == 10
    requires brighter.green == darker.green && brighter.blue == darker.blue
    ensures RGBChebychev(brighter, darker) == 10
    ensures RGBChebychev(darker, brighter) == 0
  {
  }

  /**
   Whenever one channel goes up by exactly as much as another goes down
   and the third is unchanged, the cubic metric reports 0.
   */
  lemma CubesCancel(c1: Color, c2: Color)
    requires c1.red - c2.red == c2.blue - c1.blue && c1.green == c2.green
    ensures SumCubeRGB(c1, c2) == 0
  {
    var d := RGBDists(c1, c2);
    PowNegated(d[0], 3);
    assert Pow(d[2], 3) == Pow(-d[0], 3);
    PowSmall(d[0]);
    PowSmall(d[2]);
  }

  /**
   One channel 255 apart and the others equal, as full red against black,
   gives 255 squared under the square metric.
   */
  lemma SumSqFullRed(c1: Color, c2: Color)
    requires c1.red - c2.red == 255 && c1.green == c2.green && c1.blue == c2.blue
    ensures SumSqRGB(c1, c2) == 65025
  {
    var d := RGBDists(c1, c2);
    assert d == [255, 0, 0];
    PowerSumOfThree(d, 2);
    PowSmall(255);
    PowSmall(0);
  }

  /** Exactly the signed Chebychev metric depends on the order of its arguments. */
  lemma SymmetricIff(m: RGBMetric)
    ensures Symmetric(m) <==> m != Chebychev
  {
    if m == Chebychev {
      var brighter, black := Color(10, 0, 0), Color(0, 0, 0);
      ChebychevAsymmetric(brighter, black);
      assert Distance(m, brighter, black) != Distance(m, black, brighter);
    } else {
      forall c1: Color, c2: Color ensures Distance(m, c1, c2) == Distance(m, c2, c1) {
        DistanceSwapped(m, c1, c2);
      }
    }
  }

  /** Exactly the two even-power metrics tell every pair of distinct colors apart. */
  lemma SeparatingIff(m: RGBMetric)
    ensures Separating(m) <==> m == SumSq || m == SumQrt
  {
    match m
    case Chebychev => ChebychevConflates();
    case Sum => SumConflates();
    case SumCube => SumCubeConflates();
    case SumSq =>
      forall c1: Color, c2: Color | Distance(m, c1, c2) == 0 ensures c1 == c2 {
        DistanceZeroIff(m, c1, c2);
      }
    case SumQrt =>
      forall c1: Color, c2: Color | Distance(m, c1, c2) == 0 ensures c1 == c2 {
        DistanceZeroIff(m, c1, c2);
      }
  }

  /** The signed Chebychev metric gives 0 for black against (10,0,0). */
  lemma ChebychevConflates()
    ensures !Separating(Chebychev)
  {
    var red, black := Color(10, 0, 0), Color(0, 0, 0);
    assert RGBChebychev(black, red) == 0;
    assert Distance(Chebychev, black, red) == 0 && black != red;
  }

  /** The "flawed" linear sum gives 0 for (10,0,0) against (0,0,10). */
  lemma SumConflates()
    ensures !Separating(Sum)
  {
    var red, blue := Color(10, 0, 0), Color(0, 0, 10);
    assert SumRGB(red, blue) == 0;
    assert Distance(Sum, red, blue) == 0 && red != blue;
  }

  /** The "flawed" cubic sum gives 0 for (10,0,0) against (0,0,10). */
  lemma SumCubeConflates()
    ensures !Separating(SumCube)
  {
    var red, blue := Color(10, 0, 0), Color(0, 0, 10);
    CubesCancel(red, blue);
    assert Distance(SumCube, red, blue) == 0 && red != blue;
  }

  // ---------------------------------------------------------------------
  // Where the integer model and the float arithmetic agree
  // ---------------------------------------------------------------------

  /**
   Every value the Chebychev, linear and square loops hold (each difference,
   each square and every partial result after k of the three steps) is at
   most 2^24 in size, so the float arithmetic of those loops is exact and
   the integer model gives the very value the metric returns.
   */
  lemma ExactInFloat(c1: Color, c2: Color)
    ensures var d := RGBDists(c1, c2);
      forall k | 0 <= k <= 3 ::
        && SignedMax(d[..k]) <= FloatExact
        && Abs(PowerSum(d[..k], 1)) <= FloatExact
        && 0 <= PowerSum(d[..k], 2) <= FloatExact
    ensures forall i | 0 <= i < 3 ::
      Abs(RGBDists(c1, c2)[i]) <= FloatExact && RGBDists(c1, c2)[i] * RGBDists(c1, c2)[i] <= FloatExact
  {
    var d := RGBDists(c1, c2);
    PowSmall(255);
    forall k | 0 <= k <= 3
      ensures SignedMax(d[..k]) <= FloatExact
      ensures Abs(PowerSum(d[..k], 1)) <= FloatExact
      ensures 0 <= PowerSum(d[..k], 2) <= FloatExact
    {
      var p := d[..k];
      assert forall i | 0 <= i < |p| :: Abs(p[i]) <= 255;
      PowerSumAbsBound(p, 1, 255);
      PowerSumAbsBound(p, 2, 255);
      PowerSumEvenNonNegative(p, 2);
    }
    forall i | 0 <= i < 3 ensures d[i] * d[i] <= FloatExact {
      PowAbsBound(d[i], 255, 2);
      PowSmall(d[i]);
    }
  }

  /**
   Every channel 255 apart, as white against black, drives the cubic metric
   to 3 * 255^3 = 49744125, an odd value above 2^24, where a float holds only
   even integers: the float loop of that metric rounds where the integer
   model does not.
   */
  lemma CubeLeavesFloatRange(c1: Color, c2: Color)
    requires c1.red - c2.red == 255 && c1.green - c2.green == 255 && c1.blue - c2.blue == 255
    ensures SumCubeRGB(c1, c2) == 49744125
    ensures SumCubeRGB(c1, c2) > FloatExact && SumCubeRGB(c1, c2) % 2 == 1
  {
    var d := RGBDists(c1, c2);
    assert d == [255, 255, 255];
    PowerSumOfThree(d, 3);
    PowSmall(255);
  }

  /**
   One channel 255 apart and the others equal, as full red against black,
   drives the fourth-power metric to 255^4 = 4228250625, an odd value above
   2^24: already a single fourth power leaves the range a float holds
   exactly.
   */
  lemma QrtLeavesFloatRange(c1: Color, c2: Color)
    requires c1.red - c2.red == 255 && c1.green == c2.green && c1.blue == c2.blue
    ensures SumQrtRGB(c1, c2) == 4228250625
    ensures SumQrtRGB(c1, c2) > FloatExact && SumQrtRGB(c1, c2) % 2 == 1
  {
    var d := RGBDists(c1, c2);
    assert d == [255, 0, 0];
    PowerSumOfThree(d, 4);
    PowSmall(255);
    PowSmall(0);
  }
}
