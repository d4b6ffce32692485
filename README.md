# RGB color-distance metrics

A Dafny model of the RGB half of the color-distance metric family of
`ColorPlacementAlgorithms/ColorDistanceMetrics.java`.

The metrics compare two colors through the vector of signed per-channel
differences (red, green, blue of the first color minus those of the second).
Each metric reduces that vector to one scalar with a small accumulator loop:

- the signed Chebychev variant keeps a running maximum that starts at 0;
- the linear and cubic sums add up signed terms and take the absolute value
  only at the end, so opposite terms cancel (the "flawed" metrics);
- the square and fourth-power sums add up non-negative terms.

Layout:

- `reductions.dfy`, module `Reductions`: the reductions over an integer
  vector, written as functions on the prefix read so far. These are the
  signed maximum `SignedMax` and the power sum `PowerSum`, with their
  general laws: negating the vector, sign, vanishing and bounds.
- `colors.dfy`, module `Colors`: the color, whose channels are integers in
  [0, 255], and the difference vector `RGBDists`.
- `distance_metrics.dfy`, module `ColorDistanceMetrics`, has three parts:
  - One specification function per metric. Its `ensures` gives the closed
    form over the channels, and its body is the reduction of the difference
    vector.
  - One method per metric's `dist`. It runs the source's loop and is proved
    to return the function's value.
  - A tag datatype `RGBMetric` with a dispatch function and method, and the
    laws of the family. These say which metrics are reflexive, which are
    symmetric, which tell distinct colors apart, and where the integer model
    equals the float computation.

The source computes in Java `float`. For the Chebychev, linear and square
metrics, every value the loop holds is at most 2^24 in size, so the float
computation is exact (`ExactInFloat`). There the integer model gives exactly
the value the metric returns. For the cubic and fourth-power metrics the model
gives the exact mathematical value (see "Left out").

## Model

| member | source | states |
|---|---|---|
| `Colors.RGBDists` | ColorPlacementAlgorithms/ColorDistanceMetrics.java:10-15 | exactly [red, green, blue of c1 minus those of c2], in that order, each entry within [-255, 255] |
| `Colors.RGBDistsSwapped` | ColorPlacementAlgorithms/ColorDistanceMetrics.java:10-15 | swapping the two colors negates every difference |
| `Colors.RGBDistsZeroIff` | ColorPlacementAlgorithms/ColorDistanceMetrics.java:10-15 | all three differences are 0 exactly when the colors agree on every channel |
| `Reductions.SignedMax` | ColorPlacementAlgorithms/ColorDistanceMetrics.java:33-36 | the max-from-0 accumulation is non-negative, at least every entry, and either 0 or one of the entries |
| `Reductions.PowerSumNegated` | ColorPlacementAlgorithms/ColorDistanceMetrics.java:116-152 | negating every difference keeps an even power sum and negates an odd one |
| `Reductions.PowerSumEvenNonNegative` | ColorPlacementAlgorithms/ColorDistanceMetrics.java:126-152 | a sum of squares or of fourth powers is never negative |
| `Reductions.PowerSumEvenZeroIff` | ColorPlacementAlgorithms/ColorDistanceMetrics.java:126-152 | a sum of squares or fourth powers is 0 exactly when every difference is 0 |
| `Reductions.PowerSumAbsBound` | ColorPlacementAlgorithms/ColorDistanceMetrics.java:116-130 | with each difference at most b in size, the power sum of k entries is at most k * b^n in size |
| `ColorDistanceMetrics.RGBChebychev` | ColorPlacementAlgorithms/ColorDistanceMetrics.java:31-39 | the signed Chebychev value is max(0, dr, dg, db): non-negative, at least each signed difference, equal to 0 or one of them, at most 255, and 0 exactly when no channel of c1 exceeds c2's |
| `ColorDistanceMetrics.SumRGB` | ColorPlacementAlgorithms/ColorDistanceMetrics.java:111-121 | the linear metric is the absolute difference of the channel totals, at most 765 |
| `ColorDistanceMetrics.SumSqRGB` | ColorPlacementAlgorithms/ColorDistanceMetrics.java:124-132 | the square metric is dr²+dg²+db², between 0 and 195075 |
| `ColorDistanceMetrics.SumCubeRGB` | ColorPlacementAlgorithms/ColorDistanceMetrics.java:134-145 | the cubic metric is the absolute value of dr³+dg³+db³ |
| `ColorDistanceMetrics.SumQrtRGB` | ColorPlacementAlgorithms/ColorDistanceMetrics.java:147-155 | the fourth-power metric is dr⁴+dg⁴+db⁴, never negative |
| `ColorDistanceMetrics.RGBChebychevDist` | ColorPlacementAlgorithms/ColorDistanceMetrics.java:32-38 | the max-from-0 loop over red, green, blue returns the signed Chebychev value |
| `ColorDistanceMetrics.SumRGBDist` | ColorPlacementAlgorithms/ColorDistanceMetrics.java:115-121 | summing the differences and taking the absolute value afterwards returns the linear metric |
| `ColorDistanceMetrics.SumSqRGBDist` | ColorPlacementAlgorithms/ColorDistanceMetrics.java:125-131 | the loop adding val * val returns the square metric |
| `ColorDistanceMetrics.SumCubeRGBDist` | ColorPlacementAlgorithms/ColorDistanceMetrics.java:138-144 | the loop adding val * val * val, then taking the absolute value, returns the cubic metric |
| `ColorDistanceMetrics.SumQrtRGBDist` | ColorPlacementAlgorithms/ColorDistanceMetrics.java:148-154 | the loop adding val * val * val * val returns the fourth-power metric |
| `ColorDistanceMetrics.Distance` | ColorPlacementAlgorithms/ColorDistanceMetrics.java:111-155 | each RGB metric, selected by its tag, gives a non-negative distance (the four sums here, with the signed Chebychev metric of lines 31-39) |
| `ColorDistanceMetrics.Dist` | ColorPlacementAlgorithms/ColorDistanceMetrics.java:111-155 | running the selected metric's loop returns that metric's distance (the four sum loops here, with the Chebychev loop of lines 32-38) |
| `ColorDistanceMetrics.DistanceReflexive` | ColorPlacementAlgorithms/ColorDistanceMetrics.java:10-15 | every RGB metric gives 0 for a color compared with itself, since all its differences are 0 |
| `ColorDistanceMetrics.DistanceSwapped` | ColorPlacementAlgorithms/ColorDistanceMetrics.java:114-155 | the four sum metrics give the same value with the arguments swapped |
| `ColorDistanceMetrics.DistanceZeroIff` | ColorPlacementAlgorithms/ColorDistanceMetrics.java:124-155 | the square and fourth-power metrics are 0 exactly for equal colors |
| `ColorDistanceMetrics.ChebychevAsymmetric` | ColorPlacementAlgorithms/ColorDistanceMetrics.java:31-39 | a color 10 brighter in red only, as (10,0,0) against black, is 10 away, while the swapped call gives 0 |
| `ColorDistanceMetrics.CubesCancel` | ColorPlacementAlgorithms/ColorDistanceMetrics.java:134-144 | one channel up by as much as another goes down, the third unchanged: the cubic metric is 0 |
| `ColorDistanceMetrics.SumSqFullRed` | ColorPlacementAlgorithms/ColorDistanceMetrics.java:124-132 | one channel 255 apart and the others equal, as full red against black, gives 65025 under the square metric |
| `ColorDistanceMetrics.SymmetricIff` | ColorPlacementAlgorithms/ColorDistanceMetrics.java:31-39 | over all colors, a metric ignores argument order exactly when it is not the signed Chebychev one; the other four are symmetric by DistanceSwapped |
| `ColorDistanceMetrics.SeparatingIff` | ColorPlacementAlgorithms/ColorDistanceMetrics.java:111-155 | a metric gives 0 only between equal colors exactly when it is the square or fourth-power one; the linear and cubic sums and the signed Chebychev metric of lines 31-39 each give 0 for some distinct pair |
| `ColorDistanceMetrics.ChebychevConflates` | ColorPlacementAlgorithms/ColorDistanceMetrics.java:33-37 | the signed Chebychev metric gives 0 for two distinct colors (black against (10,0,0)) |
| `ColorDistanceMetrics.SumConflates` | ColorPlacementAlgorithms/ColorDistanceMetrics.java:111-121 | the linear metric gives 0 for two distinct colors ((10,0,0) against (0,0,10)) |
| `ColorDistanceMetrics.SumCubeConflates` | ColorPlacementAlgorithms/ColorDistanceMetrics.java:134-144 | the cubic metric gives 0 for two distinct colors ((10,0,0) against (0,0,10)) |
| `ColorDistanceMetrics.ExactInFloat` | ColorPlacementAlgorithms/ColorDistanceMetrics.java:111-132 | every difference, square and partial result of the linear and square loops, and of the Chebychev loop of lines 33-36, is at most 2^24 in size, so a float holds it exactly |
| `ColorDistanceMetrics.CubeLeavesFloatRange` | ColorPlacementAlgorithms/ColorDistanceMetrics.java:137-145 | every channel 255 apart, as white against black, gives the cubic metric 49744125, an odd value above 2^24 that a float cannot hold |
| `ColorDistanceMetrics.QrtLeavesFloatRange` | ColorPlacementAlgorithms/ColorDistanceMetrics.java:147-155 | one channel 255 apart and the others equal, as full red against black, gives the fourth-power metric 4228250625, an odd value above 2^24 that a float cannot hold |

## Left out

- `getHSBDists` and the HSB metrics (`HSBChebychev`, `sumHSBDist`, `sumSqHSBDist`, `sumCubeHSBDist`, `sumQrtHSBDist`) are not part of this model. They rest on `java.awt.Color.RGBtoHSB`, a floating-point conversion in a library whose code is not part of this model.
- `cosineSqRGBDist` and `cosineSqHSBDist` are not part of this model. They are float divisions, and the result is NaN when a color is black.
- The green/blue swap in the HSB cosine variant is left out for the same reasons.
- SumCubeRGBDist: returns the exact integer value. Partial sums can exceed 2^24 (`CubeLeavesFloatRange`), so the Java float loop may round there. Only its sign, zero and symmetry facts carry over to the float result.
- SumCubeRGB: states the exact value of the cubic sum, not the float-rounded one, for the same reason.
- SumQrtRGBDist: returns the exact integer value. A single fourth power can reach 4228250625, well above 2^24 (`QrtLeavesFloatRange`), so the Java float loop may round. Only its sign, zero and symmetry facts carry over to the float result.
- SumQrtRGB: states the exact value of the fourth-power sum, not the float-rounded one, for the same reason.
- The widening of each metric's float result to `double` is not modelled; it changes no value.
- `java.awt.Color` is modelled as a datatype of three channels in [0, 255]. Alpha is not modelled, because these metrics never read it.
- The `ColorMetric` base class and virtual dispatch are not part of this model. The tag datatype `RGBMetric` with `Distance` and `Dist` stands in for them.
