/** The scale glitch filter of ble/client.py, over whole streams of readings. */
module GlitchFilter {
  import opened Basics

  const LIMIT := 300.0
  const ESCAPE := 4

  datatype Filter = Filter(last: Option<real>, outOfLimit: int)

  const FRESH := Filter(None, 0)

  function Distance(a: real, b: real): real { if a < b then b - a else a - b }

  predicate Accepts(f: Filter, reading: real) {
    f.last.None? || Distance(reading, f.last.value) <= LIMIT || f.outOfLimit >= ESCAPE
  }

  function Step(f: Filter, reading: real): Filter {
    if Accepts(f, reading) then Filter(Some(reading), 0) else f.(outOfLimit := f.outOfLimit + 1)
  }

  /** The filter after the first n readings. */
  function After(readings: seq<real>, n: nat): Filter
    requires n <= |readings|
  {
    if n == 0 then FRESH else Step(After(readings, n - 1), readings[n - 1])
  }

  predicate Accepted(readings: seq<real>, i: nat)
    requires i < |readings|
  {
    Accepts(After(readings, i), readings[i])
  }

  class Client {
    var lastAcceptedWeight: Option<real>
    var outOfLimitCount: int

    function View(): Filter
      reads this
    {
      Filter(lastAcceptedWeight, outOfLimitCount)
    }

    constructor ()
      ensures View() == FRESH
    {
      lastAcceptedWeight, outOfLimitCount := None, 0;
    }

    /** _filter_weight. */
    method FilterWeight(reading: real) returns (weight: real)
      modifies this
      ensures View() == Step(old(View()), reading)
      ensures View().last == Some(weight)
    {
      var last := lastAcceptedWeight;
      if last.Some? && Distance(reading, last.value) > LIMIT && outOfLimitCount < ESCAPE {
        outOfLimitCount := outOfLimitCount + 1;
        return last.value;
      }
      lastAcceptedWeight := Some(reading);
      outOfLimitCount := 0;
      return reading;
    }

    /** A stream of readings through a fresh filter. */
    static method FilterAll(readings: seq<real>) returns (weights: seq<real>)
      ensures |weights| == |readings|
      ensures forall i :: 0 <= i < |readings| ==> After(readings, i + 1).last == Some(weights[i])
    {
      var client := new Client();
      weights := [];
      for i := 0 to |readings|
        invariant fresh(client) && |weights| == i && client.View() == After(readings, i)
        invariant forall j :: 0 <= j < i ==> After(readings, j + 1).last == Some(weights[j])
      {
        var weight := client.FilterWeight(readings[i]);
        weights := weights + [weight];
      }
    }
  }

  /** What the filter's state means: the counter is the length of the run of rejections that ends
      the stream, at most four, and the weight shown is the reading accepted before that run. */
  lemma {:induction false} CounterCountsRejections(readings: seq<real>, n: nat)
    requires 0 < n <= |readings|
    ensures var f := After(readings, n);
            && 0 <= f.outOfLimit <= ESCAPE && f.outOfLimit < n
            && f.last == Some(readings[n - 1 - f.outOfLimit]) && Accepted(readings, n - 1 - f.outOfLimit)
            && forall i :: n - f.outOfLimit <= i < n ==> !Accepted(readings, i)
  {
    if n > 1 {
      CounterCountsRejections(readings, n - 1);
      if !Accepted(readings, n - 1) {
        var f, g := After(readings, n - 1), After(readings, n);
        assert g.outOfLimit == f.outOfLimit + 1;
        forall i | n - g.outOfLimit <= i < n
          ensures !Accepted(readings, i)
        {
          assert i < n - 1 ==> n - 1 - f.outOfLimit <= i < n - 1;
        }
      }
    }
  }

  /** The weight shown after reading i is an actual reading, at most four frames old, and the last
      one accepted. */
  lemma WeightIsARecentReading(readings: seq<real>, i: nat) returns (j: nat)
    requires i < |readings|
    ensures i - 4 <= j <= i && Accepted(readings, j)
    ensures After(readings, i + 1).last == Some(readings[j])
    ensures forall k :: j < k <= i ==> !Accepted(readings, k)
  {
    CounterCountsRejections(readings, i + 1);
    j := i - After(readings, i + 1).outOfLimit;
  }

  /** Any five readings in a row include an accepted one. */
  lemma NoFiveRejections(readings: seq<real>, i: nat)
    requires i + 5 <= |readings|
    ensures exists j :: i <= j < i + 5 && Accepted(readings, j)
  {
    var j := WeightIsARecentReading(readings, i + 4);
  }

  ghost predicate FarApart(a: real, b: real) { a > b + 300.0 || a < b - 300.0 }

  /** A reading is accepted exactly if it is the first, or at most 300 above or below the reading
      accepted last, or the four readings before it were all rejected. */
  lemma AcceptedIff(readings: seq<real>, i: nat)
    requires i < |readings|
    ensures i == 0 ==> Accepted(readings, i)
    ensures i > 0 ==> After(readings, i).last.Some?
    ensures i > 0 ==>
              (Accepted(readings, i) <==>
                || After(readings, i).last.value - 300.0 <= readings[i] <= After(readings, i).last.value + 300.0
                || (i >= 4 && forall k :: i - 4 <= k < i ==> !Accepted(readings, k)))
  {
    if i > 0 {
      CounterCountsRejections(readings, i);
      if i >= 4 && forall k :: i - 4 <= k < i ==> !Accepted(readings, k) {
        assert After(readings, i).outOfLimit >= 4;
      }
    }
  }

  /** The weight shown jumps by more than the limit exactly when a reading that far away comes
      after four rejected readings in a row. */
  lemma JumpsOnlyAfterFourRejections(readings: seq<real>, i: nat)
    requires 0 < i < |readings|
    ensures After(readings, i).last.Some? && After(readings, i + 1).last.Some?
    ensures FarApart(After(readings, i + 1).last.value, After(readings, i).last.value) <==>
            && FarApart(readings[i], After(readings, i).last.value)
            && i >= 4 && forall k :: i - 4 <= k < i ==> !Accepted(readings, k)
  {
    CounterCountsRejections(readings, i);
    CounterCountsRejections(readings, i + 1);
    var f := After(readings, i);
    if i >= 4 && forall k :: i - 4 <= k < i ==> !Accepted(readings, k) {
      assert f.outOfLimit >= 4;
    }
  }
}
