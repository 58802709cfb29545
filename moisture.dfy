/**
 * Soil-moisture evaluation (greenhouse_main_classes_1/Moisture.cpp): the
 * trimmed mean of the four sensor readings and its dry / ok / wet verdict.
 * The sensor read itself (analogRead) is left out.
 */
module Moisture {
  import opened Misc

  /** Largest reading analogRead can return (10-bit converter). */
  const AdcMax := 1023

  /** The largest element of a non-empty sequence. */
  function Largest(s: seq<int>): int
    requires |s| > 0
  {
    if |s| == 1 then s[0] else var m := Largest(s[1..]); if s[0] >= m then s[0] else m
  }

  /** The smallest element of a non-empty sequence. */
  function Smallest(s: seq<int>): int
    requires |s| > 0
  {
    if |s| == 1 then s[0] else var m := Smallest(s[1..]); if s[0] <= m then s[0] else m
  }

  lemma {:induction false} LargestIsMaximum(s: seq<int>)
    requires |s| > 0
    ensures forall j :: 0 <= j < |s| ==> s[j] <= Largest(s)
    ensures exists j :: 0 <= j < |s| && s[j] == Largest(s)
  {
    if |s| == 1 {
      assert s[0] == Largest(s);
    } else {
      LargestIsMaximum(s[1..]);
      var k :| 0 <= k < |s[1..]| && s[1..][k] == Largest(s[1..]);
      assert s[k + 1] == Largest(s[1..]);
      if s[0] >= Largest(s[1..]) { assert s[0] == Largest(s); } else { assert s[k + 1] == Largest(s); }
      forall j | 0 <= j < |s| ensures s[j] <= Largest(s) {
        if j > 0 { assert s[j] == s[1..][j - 1]; }
      }
    }
  }

  lemma {:induction false} SmallestIsMinimum(s: seq<int>)
    requires |s| > 0
    ensures forall j :: 0 <= j < |s| ==> Smallest(s) <= s[j]
    ensures exists j :: 0 <= j < |s| && s[j] == Smallest(s)
  {
    if |s| == 1 {
      assert s[0] == Smallest(s);
    } else {
      SmallestIsMinimum(s[1..]);
      var k :| 0 <= k < |s[1..]| && s[1..][k] == Smallest(s[1..]);
      assert s[k + 1] == Smallest(s[1..]);
      if s[0] <= Smallest(s[1..]) { assert s[0] == Smallest(s); } else { assert s[k + 1] == Smallest(s); }
      forall j | 0 <= j < |s| ensures Smallest(s) <= s[j] {
        if j > 0 { assert s[j] == s[1..][j - 1]; }
      }
    }
  }

  /** The sum of a sequence, accumulated from the front as the summing loop does. */
  function SumOf(s: seq<int>): int
  {
    if s == [] then 0 else SumOf(s[..|s| - 1]) + s[|s| - 1]
  }

  lemma SumOfFour(s: seq<int>)
    requires |s| == 4
    ensures SumOf(s) == s[0] + s[1] + s[2] + s[3]
  {
    var a := [s[0]];
    assert a[..0] == [];
    assert SumOf(a) == s[0];
    var b := [s[0], s[1]];
    assert b[..1] == a;
    assert SumOf(b) == s[0] + s[1];
    var c := [s[0], s[1], s[2]];
    assert c[..2] == b;
    assert SumOf(c) == s[0] + s[1] + s[2];
    assert s[..3] == c;
  }

  /** An element no smaller than any other is the largest, and one no larger than any other is the smallest. */
  lemma ExtremesAreLargestSmallest(s: seq<int>, maxIndex: nat, minIndex: nat)
    requires maxIndex < |s| && minIndex < |s|
    requires forall j :: 0 <= j < |s| ==> s[j] <= s[maxIndex] && s[minIndex] <= s[j]
    ensures s[maxIndex] == Largest(s) && s[minIndex] == Smallest(s)
  {
    LargestIsMaximum(s);
    SmallestIsMinimum(s);
  }

  /** Zeroing the largest and the smallest of four readings leaves a sum between twice the smallest and twice the largest. */
  lemma TrimmedSum(s: seq<int>, maxIndex: nat, minIndex: nat)
    requires |s| == 4 && maxIndex < 4 && minIndex < 4 && maxIndex != minIndex
    requires s[maxIndex] == Largest(s) && s[minIndex] == Smallest(s)
    ensures var t := s[minIndex := 0][maxIndex := 0];
      && SumOf(t) == s[0] + s[1] + s[2] + s[3] - Largest(s) - Smallest(s)
      && 2 * Smallest(s) <= SumOf(t) <= 2 * Largest(s)
  {
    var t := s[minIndex := 0][maxIndex := 0];
    SumOfFour(t);
    LargestIsMaximum(s);
    SmallestIsMinimum(s);
  }

  /**
   * The first loop of calculateMean: the index of the first largest reading
   * (strict `>` against a running maximum that starts at 0) and the index of
   * the first strict improvement on reading 0, which is the first smallest
   * reading. Both are assigned, and differ, when some later reading is below
   * the first; C leaves them uninitialised otherwise, so that is required.
   */
  method Extremes(a: array<int>) returns (maxIndex: nat, minIndex: nat)
    requires a.Length == 4
    requires forall i :: 0 <= i < 4 ==> 0 <= a[i]
    requires exists i :: 1 <= i < 4 && a[i] < a[0]
    ensures maxIndex < 4 && 1 <= minIndex < 4 && maxIndex != minIndex
    ensures forall j :: 0 <= j < 4 ==> a[j] <= a[maxIndex]
    ensures forall j :: 0 <= j < maxIndex ==> a[j] < a[maxIndex]
    ensures forall j :: 0 <= j < 4 ==> a[minIndex] <= a[j]
    ensures forall j :: 0 <= j < minIndex ==> a[minIndex] < a[j]
  {
    var moistureMax := 0;
    var moistureMin := a[0];
    maxIndex, minIndex := 0, 0;
    var i := 0;
    while i < 4
      invariant 0 <= i <= 4 && maxIndex < 4 && minIndex < 4
      invariant 0 <= moistureMax
      invariant forall j :: 0 <= j < i ==> a[j] <= moistureMax
      invariant 0 < moistureMax ==> maxIndex < i && a[maxIndex] == moistureMax
      invariant forall j :: 0 <= j < maxIndex ==> a[j] < a[maxIndex]
      invariant i > 0 ==> 0 < moistureMax
      invariant moistureMin <= a[0]
      invariant forall j :: 0 <= j < i ==> moistureMin <= a[j]
      invariant moistureMin < a[0] ==> 1 <= minIndex < i && a[minIndex] == moistureMin
      invariant moistureMin < a[0] ==> forall j :: 0 <= j < minIndex ==> moistureMin < a[j]
      invariant forall j :: 0 <= j < i && a[j] < a[0] ==> moistureMin < a[0]
    {
      if a[i] > moistureMax {
        moistureMax := a[i];
        maxIndex := i;
      }
      if a[i] < moistureMin {
        moistureMin := a[i];
        minIndex := i;
      }
      i := i + 1;
    }
  }

  /** The second loop of calculateMean: the sum of the (partly zeroed) readings. */
  method SumReadings(a: array<int>) returns (moistureSum: int)
    ensures moistureSum == SumOf(a[..])
  {
    moistureSum := 0;
    var i := 0;
    while i < a.Length
      invariant 0 <= i <= a.Length
      invariant moistureSum == SumOf(a[..i])
    {
      assert a[..i + 1][..i] == a[..i];
      moistureSum := moistureSum + a[i];
      i := i + 1;
    }
    assert a[..a.Length] == a[..];
  }

  /**
   * Moisture::calculateMean: the readings with the largest and the smallest
   * zeroed out, summed, and halved (integer division of a non-negative sum).
   */
  method CalculateMean(v1: u16, v2: u16, v3: u16, v4: u16) returns (moistureMean: int)
    requires v1 <= AdcMax && v2 <= AdcMax && v3 <= AdcMax && v4 <= AdcMax
    requires v2 < v1 || v3 < v1 || v4 < v1
    ensures var s := [v1 as int, v2 as int, v3 as int, v4 as int];
      moistureMean == (v1 + v2 + v3 + v4 - Largest(s) - Smallest(s)) / 2
    ensures var s := [v1 as int, v2 as int, v3 as int, v4 as int];
      Smallest(s) <= moistureMean <= Largest(s)
  {
    var moistureValues := new int[4];
    moistureValues[0], moistureValues[1], moistureValues[2], moistureValues[3] := v1, v2, v3, v4;
    ghost var s := moistureValues[..];
    assert s == [v1 as int, v2 as int, v3 as int, v4 as int];
    assert moistureValues[1] < moistureValues[0] || moistureValues[2] < moistureValues[0]
        || moistureValues[3] < moistureValues[0];
    var maxIndex, minIndex := Extremes(moistureValues);
    assert forall j :: 0 <= j < 4 ==> s[j] == moistureValues[j];
    ExtremesAreLargestSmallest(s, maxIndex, minIndex);

    moistureValues[minIndex] := 0;
    moistureValues[maxIndex] := 0;
    assert moistureValues[..] == s[minIndex := 0][maxIndex := 0];

    var moistureSum := SumReadings(moistureValues);
    TrimmedSum(s, maxIndex, minIndex);
    moistureMean := moistureSum / 2;
  }

  /** The verdict of evaluateValue, the two flags it writes through its pointers. */
  datatype Verdict = Verdict(dry: bool, wet: bool)

  /** Moisture::evaluateValue. Its third guard (mean above the high threshold) always holds when reached. */
  function EvaluateValue(moistureMean: u16): (v: Verdict)
    ensures !(v.dry && v.wet)
  {
    if moistureMean <= MoistureThresholdLow then Verdict(true, false)
    else if moistureMean <= MoistureThresholdHigh then Verdict(false, false)
    else Verdict(false, true)
  }

  /** Dry exactly at or below 300, wet exactly above 700, never both, neither in between. */
  lemma EvaluateBands(moistureMean: u16)
    ensures EvaluateValue(moistureMean).dry <==> moistureMean <= 300
    ensures EvaluateValue(moistureMean).wet <==> moistureMean > 700
    ensures !(EvaluateValue(moistureMean).dry && EvaluateValue(moistureMean).wet)
    ensures 300 < moistureMean <= 700 <==> EvaluateValue(moistureMean) == Verdict(false, false)
  {
  }

  /** A wetter mean is never judged drier, and a drier mean never wetter. */
  lemma EvaluateMonotone(m1: u16, m2: u16)
    requires m1 <= m2
    ensures EvaluateValue(m2).dry ==> EvaluateValue(m1).dry
    ensures EvaluateValue(m1).wet ==> EvaluateValue(m2).wet
  {
  }
}
