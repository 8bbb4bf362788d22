/** Proportional rescaling of a recipe's pours: scale_pours_to_total of schema.py and the
    dose/ratio override of coordinator/recipes.py that relies on it. */
module Rescale {
  import opened Numbers

  /** A pour of a stored recipe. */
  datatype YamlPour = YamlPour(volumeMl: real, temperatureC: int, flowRate: real, pauseSeconds: int, pattern: int, vibration: int)

  // ------------------------------------------------------------------
  // Sums
  // ------------------------------------------------------------------

  function Sum(xs: seq<real>): real {
    if xs == [] then 0.0 else Sum(xs[..|xs| - 1]) + xs[|xs| - 1]
  }

  function SumInts(ns: seq<int>): int {
    if ns == [] then 0 else SumInts(ns[..|ns| - 1]) + ns[|ns| - 1]
  }

  function Volumes(pours: seq<YamlPour>): (r: seq<real>)
    ensures |r| == |pours| && forall i :: 0 <= i < |r| ==> r[i] == pours[i].volumeMl
  {
    seq(|pours|, i requires 0 <= i < |pours| => pours[i].volumeMl)
  }

  function Total(pours: seq<YamlPour>): real { Sum(Volumes(pours)) }

  // ------------------------------------------------------------------
  // Rescaling
  // ------------------------------------------------------------------

  function AtLeastOne(n: int): (r: int)
    ensures r >= 1 && r >= n
  {
    if n < 1 then 1 else n
  }

  function Times(v: real, factor: real): real { v * factor }

  /** The exact shares of the target. */
  function Shares(volumes: seq<real>, factor: real): (r: seq<real>)
    ensures |r| == |volumes| && forall i :: 0 <= i < |r| ==> r[i] == Times(volumes[i], factor)
  {
    seq(|volumes|, i requires 0 <= i < |volumes| => Times(volumes[i], factor))
  }

  /** Each share as whole millilitres, at least one. */
  function Rounded(shares: seq<real>): (r: seq<int>)
    ensures |r| == |shares| && forall i :: 0 <= i < |r| ==> r[i] == AtLeastOne(Round(shares[i]))
  {
    seq(|shares|, i requires 0 <= i < |shares| => AtLeastOne(Round(shares[i])))
  }

  /** The millilitres of all pours: the earlier shares rounded one by one, the last pour given
      what is left. */
  function Millilitres(shares: seq<real>, target: real): (r: seq<int>)
    requires shares != []
    ensures |r| == |shares|
  {
    var earlier := Rounded(shares[..|shares| - 1]);
    earlier + [AtLeastOne(Round(target) - SumInts(earlier))]
  }

  predicate Degenerate(pours: seq<YamlPour>, target: real) {
    pours == [] || Total(pours) <= 0.0 || target <= 0.0
  }

  function WithVolumes(pours: seq<YamlPour>, ns: seq<int>): (r: seq<YamlPour>)
    requires |ns| == |pours|
    ensures |r| == |pours| && forall i :: 0 <= i < |r| ==> r[i] == pours[i].(volumeMl := ns[i] as real)
  {
    seq(|pours|, i requires 0 <= i < |pours| => pours[i].(volumeMl := ns[i] as real))
  }

  function NewVolumes(pours: seq<YamlPour>, target: real): (r: seq<int>)
    requires !Degenerate(pours, target)
    ensures |r| == |pours|
  {
    Millilitres(Shares(Volumes(pours), target / Total(pours)), target)
  }

  function Scaled(pours: seq<YamlPour>, target: real): seq<YamlPour> {
    if Degenerate(pours, target) then pours else WithVolumes(pours, NewVolumes(pours, target))
  }

  method SumOfVolumes(pours: seq<YamlPour>) returns (total: real)
    ensures total == Total(pours)
  {
    total := 0.0;
    var k := 0;
    var volumes := Volumes(pours);
    while k < |pours|
      invariant 0 <= k <= |pours|
      invariant total == Sum(volumes[..k])
    {
      assert volumes[..k + 1][..k] == volumes[..k];
      total := total + volumes[k];
      k := k + 1;
    }
    assert volumes[..k] == volumes;
  }

  lemma SumGrows(ns: seq<int>, n: int)
    ensures SumInts(ns + [n]) == SumInts(ns) + n
  {
    assert (ns + [n])[..|ns|] == ns;
  }

  /** The shares of the earlier pours rounded one by one, with their running sum. */
  method RoundEarlier(shares: seq<real>) returns (volumes: seq<int>, running: int)
    requires shares != []
    ensures volumes == Rounded(shares[..|shares| - 1]) && running == SumInts(volumes)
  {
    volumes, running := [], 0;
    var i := 0;
    ghost var earlier := Rounded(shares[..|shares| - 1]);
    while i < |shares| - 1
      invariant 0 <= i <= |shares| - 1
      invariant volumes == earlier[..i]
      invariant running == SumInts(volumes)
    {
      var volume := AtLeastOne(Round(shares[i]));
      assert earlier[i] == volume;
      SumGrows(volumes, volume);
      volumes := volumes + [volume];
      running := running + volume;
      i := i + 1;
    }
  }

  /** The loop over the pours and the last pour's remainder. */
  method ShareOut(shares: seq<real>, target: real) returns (volumes: seq<int>)
    requires shares != []
    ensures volumes == Millilitres(shares, target)
  {
    var running;
    volumes, running := RoundEarlier(shares);
    volumes := volumes + [AtLeastOne(Round(target) - running)];
  }

  /** scale_pours_to_total. */
  method ScalePoursToTotal(pours: seq<YamlPour>, target: real) returns (scaled: seq<YamlPour>)
    ensures scaled == Scaled(pours, target)
  {
    if pours == [] {
      return [];
    }
    var total := SumOfVolumes(pours);
    if total <= 0.0 || target <= 0.0 {
      return pours;
    }
    var volumes := ShareOut(Shares(Volumes(pours), target / total), target);
    scaled := WithVolumes(pours, volumes);
  }

  // ------------------------------------------------------------------
  // What rescaling guarantees
  // ------------------------------------------------------------------

  lemma {:induction false} SumOfWhole(xs: seq<real>, ns: seq<int>)
    requires |xs| == |ns| && forall i :: 0 <= i < |xs| ==> xs[i] == ns[i] as real
    ensures Sum(xs) == SumInts(ns) as real
    decreases |xs|
  {
    if xs != [] {
      SumOfWhole(xs[..|xs| - 1], ns[..|ns| - 1]);
    }
  }

  /** The millilitres given to all pours but the last. */
  ghost function GivenEarlier(pours: seq<YamlPour>, target: real): int
    requires !Degenerate(pours, target)
  {
    SumInts(Rounded(Shares(Volumes(pours), target / Total(pours))[..|pours| - 1]))
  }

  lemma TotalAfter(pours: seq<YamlPour>, target: real)
    requires !Degenerate(pours, target)
    ensures var given := GivenEarlier(pours, target);
            Total(Scaled(pours, target)) == (given + AtLeastOne(Round(target) - given)) as real
  {
    var ns := NewVolumes(pours, target);
    var earlier := Rounded(Shares(Volumes(pours), target / Total(pours))[..|pours| - 1]);
    assert ns[..|ns| - 1] == earlier;
    SumOfWhole(Volumes(Scaled(pours, target)), ns);
  }

  /** Every rescaled pour is at least 1 ml and keeps its other fields; the sum is never below
      the rounded target, and equals it exactly when the earlier pours leave at least 1 ml. */
  lemma RescaledTotal(pours: seq<YamlPour>, target: real)
    requires !Degenerate(pours, target)
    ensures |Scaled(pours, target)| == |pours|
    ensures forall i :: 0 <= i < |pours| ==>
              && Scaled(pours, target)[i].volumeMl >= 1.0
              && Scaled(pours, target)[i] == pours[i].(volumeMl := Scaled(pours, target)[i].volumeMl)
    ensures Total(Scaled(pours, target)) >= Round(target) as real
    ensures Total(Scaled(pours, target)) == Round(target) as real
            <==> GivenEarlier(pours, target) <= Round(target) - 1
  {
    TotalAfter(pours, target);
    forall i | 0 <= i < |pours|
      ensures NewVolumes(pours, target)[i] >= 1
    {
    }
  }

  /** Pour by pour: every pour but the last gets the whole number of millilitres nearest to its exact
      share of the target, at least one; the last gets what is left of the rounded target, at
      least one. */
  lemma RescaledShares(pours: seq<YamlPour>, target: real, i: nat)
    requires !Degenerate(pours, target) && i < |pours|
    ensures var scaled, n, total := Scaled(pours, target), |pours| - 1, Total(pours);
            var share := Times(pours[i].volumeMl, target / total);
            && total > 0.0 && |scaled| == n + 1
            && (i < n && share >= 0.5 ==> -0.5 <= scaled[i].volumeMl - share <= 0.5 && scaled[i].volumeMl >= 1.0)
            && (i < n && share < 0.5 ==> scaled[i].volumeMl == 1.0)
            && (i < n ==> scaled[i].volumeMl == scaled[i].volumeMl.Floor as real)
            && scaled[n].volumeMl == (if Round(target) - GivenEarlier(pours, target) >= 1
                                      then (Round(target) - GivenEarlier(pours, target)) as real else 1.0)
  {
    var total := Total(pours);
    var shares := Shares(Volumes(pours), target / total);
    assert shares[i] == Times(pours[i].volumeMl, target / total);
    var n := |pours| - 1;
    var ns := NewVolumes(pours, target);
    if i < n {
      assert Rounded(shares[..n])[i] == AtLeastOne(Round(shares[i]));
      assert ns[i] == Rounded(shares[..n])[i];
    }
  }

  /** What the earlier pours get is what they get. */
  lemma EarlierIsTheSum(pours: seq<YamlPour>, target: real)
    requires !Degenerate(pours, target)
    ensures GivenEarlier(pours, target) as real == Sum(Volumes(Scaled(pours, target))[..|pours| - 1])
  {
    var ns, n := NewVolumes(pours, target), |pours| - 1;
    assert ns[..n] == Rounded(Shares(Volumes(pours), target / Total(pours))[..n]);
    SumOfWhole(Volumes(Scaled(pours, target))[..n], ns[..n]);
  }

  /** No pours, no water in them or nothing to aim for: the pours stay as they are; so they do
      without a dose or a ratio. */
  lemma NothingToRescale(pours: seq<YamlPour>, target: real, dose: real, ratio: real, bypass: real)
    ensures pours == [] || Sum(Volumes(pours)) <= 0.0 || target <= 0.0 ==> Scaled(pours, target) == pours
    ensures dose <= 0.0 || ratio == 0.0 ==> Overridden(pours, dose, ratio, bypass) == pours
    ensures dose > 0.0 && ratio != 0.0 ==> Overridden(pours, dose, ratio, bypass) == Scaled(pours, dose * ratio - bypass)
  {
  }

  ghost predicate NonNegative(xs: seq<real>) {
    forall i :: 0 <= i < |xs| ==> xs[i] >= 0.0
  }

  /** A share rounded on its own is within 1 ml of the exact share, and at most half a
      millilitre below it. */
  lemma ShareBound(x: real)
    requires x >= 0.0
    ensures -0.5 <= AtLeastOne(Round(x)) as real - x <= 1.0
  {
  }

  lemma {:induction false} RoundedBound(xs: seq<real>)
    requires NonNegative(xs)
    ensures SumInts(Rounded(xs)) as real <= Sum(xs) + |xs| as real
    decreases |xs|
  {
    if xs != [] {
      var n := |xs| - 1;
      assert Rounded(xs)[..n] == Rounded(xs[..n]);
      RoundedBound(xs[..n]);
      ShareBound(xs[n]);
    }
  }

  lemma Distribute(a: real, b: real, factor: real)
    ensures (a + b) * factor == a * factor + b * factor
  {
  }

  lemma {:induction false} SharesSum(volumes: seq<real>, factor: real)
    ensures Sum(Shares(volumes, factor)) == Times(Sum(volumes), factor)
    decreases |volumes|
  {
    if volumes != [] {
      var n := |volumes| - 1;
      assert Shares(volumes, factor)[..n] == Shares(volumes[..n], factor);
      SharesSum(volumes[..n], factor);
      Distribute(Sum(volumes[..n]), volumes[n], factor);
    }
  }

  lemma FactorLaws(target: real, total: real)
    requires target > 0.0 && total > 0.0
    ensures target / total > 0.0 && Times(total, target / total) == target
  {
  }

  lemma SharesNonNegative(volumes: seq<real>, factor: real)
    requires NonNegative(volumes) && factor > 0.0
    ensures NonNegative(Shares(volumes, factor))
  {
    forall i | 0 <= i < |volumes|
      ensures Times(volumes[i], factor) >= 0.0
    {
      ProductSign(volumes[i], factor);
    }
  }

  lemma ProductSign(v: real, factor: real)
    requires v >= 0.0 && factor > 0.0
    ensures Times(v, factor) >= 0.0
  {
  }

  /** The exact share of the last pour. */
  function LastShare(pours: seq<YamlPour>, target: real): real
    requires !Degenerate(pours, target)
  {
    Times(pours[|pours| - 1].volumeMl, target / Total(pours))
  }

  /** The sum is exact whenever the last pour's own share is at least half a millilitre more
      than the number of pours. */
  lemma RescaledExactly(pours: seq<YamlPour>, target: real)
    requires !Degenerate(pours, target) && NonNegative(Volumes(pours))
    requires LastShare(pours, target) >= |pours| as real + 0.5
    ensures Total(Scaled(pours, target)) == Round(target) as real
  {
    var total := Total(pours);
    var n := |pours| - 1;
    FactorLaws(target, total);
    var shares := Shares(Volumes(pours), target / total);
    SharesSum(Volumes(pours), target / total);
    SharesNonNegative(Volumes(pours), target / total);
    RoundedBound(shares[..n]);
    assert Sum(shares[..n]) + shares[n] == target;
    RescaledTotal(pours, target);
  }

  /** The pours of one brew after a dose or ratio override. */
  function Overridden(pours: seq<YamlPour>, dose: real, ratio: real, bypass: real): seq<YamlPour> {
    if dose > 0.0 && ratio != 0.0 then Scaled(pours, dose * ratio - bypass) else pours
  }

  /** After an override, pours and bypass together are within half a millilitre of dose times
      ratio. */
  lemma OverrideMeetsTheRatio(pours: seq<YamlPour>, dose: real, ratio: real, bypass: real)
    requires dose > 0.0 && ratio != 0.0
    requires !Degenerate(pours, dose * ratio - bypass) && NonNegative(Volumes(pours))
    requires LastShare(pours, dose * ratio - bypass) >= |pours| as real + 0.5
    ensures -0.5 <= Total(Overridden(pours, dose, ratio, bypass)) + bypass - dose * ratio <= 0.5
  {
    RescaledExactly(pours, dose * ratio - bypass);
  }

  /** Without that headroom the sum can exceed the target: two equal pours scaled to 1 ml come
      out as 1 ml each. */
  lemma TooSmallATargetOvershoots()
    ensures var p := YamlPour(100.0, 90, 3.0, 0, 2, 0);
            && !Degenerate([p, p], 1.0)
            && Total(Scaled([p, p], 1.0)) == 2.0 && Round(1.0) == 1
  {
    var p := YamlPour(100.0, 90, 3.0, 0, 2, 0);
    var v := Volumes([p, p]);
    assert v == [100.0, 100.0] && v[..1] == [100.0] && v[..1][..0] == [];
    assert Sum([100.0]) == 100.0;
    assert Total([p, p]) == 200.0;
    var early := Shares(v, 1.0 / 200.0)[..1];
    assert early == [0.5];
    assert Rounded(early) == [1] && [1][..0] == [];
    assert SumInts([1]) == 1;
    TotalAfter([p, p], 1.0);
  }
}
