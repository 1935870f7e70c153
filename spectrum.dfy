/** Peak search over a byte spectrum and the reading derived from it (getIndexOfMax, analyzeCurrentSound). */
module Spectrum {
  import opened Basics

  /** `i` is the first position of `s` that holds its largest element. */
  ghost predicate IsFirstMax(s: seq<int>, i: int) {
    0 <= i < |s| &&
    (forall j :: 0 <= j < |s| ==> s[j] <= s[i]) &&
    (forall j :: 0 <= j < i ==> s[j] < s[i])
  }

  /** At most one position is the first maximum. */
  lemma FirstMaxUnique(s: seq<int>, i: int, k: int)
    requires IsFirstMax(s, i) && IsFirstMax(s, k)
    ensures i == k
  {
    // both positions hold the maximum, so neither can come strictly before the other
    assert s[i] <= s[k] && s[k] <= s[i];
  }

  /**
   * Reference definition of the left-to-right scan: the index kept after reading all of `s`,
   * where a later element replaces the kept one only when it is strictly greater.
   */
  function ArgMax(s: seq<int>): (i: nat)
    requires s != []
    ensures IsFirstMax(s, i)
    decreases |s|
  {
    if |s| == 1 then 0
    else
      var k := ArgMax(s[..|s| - 1]);
      if s[|s| - 1] > s[k] then |s| - 1 else k
  }

  /**
   * getIndexOfMax: throws on an empty array; otherwise scans every element and keeps the
   * first position of the maximum (an equal later element does not replace it).
   */
  method GetIndexOfMax(arr: seq<int>) returns (r: Result<nat>)
    ensures arr == [] <==> r == Err(EmptyArray)
    ensures arr != [] ==> r.Ok? && IsFirstMax(arr, r.value) && r.value == ArgMax(arr)
  {
    if |arr| == 0 {
      return Err(EmptyArray);
    }
    var maxI, maxV := 0, arr[0];
    var i := 0;
    while i < |arr|
      invariant 0 <= i <= |arr|
      invariant 0 <= maxI < |arr| && maxV == arr[maxI]
      invariant forall j :: 0 <= j < i ==> arr[j] <= maxV
      invariant forall j :: 0 <= j < maxI ==> arr[j] < maxV
    {
      if arr[i] > maxV {
        maxI, maxV := i, arr[i];
      }
      i := i + 1;
    }
    FirstMaxUnique(arr, maxI, ArgMax(arr));
    return Ok(maxI);
  }

  /** What analyzeCurrentSound hands to the charts and the text displays. */
  datatype Reading = Reading(frequencyData: seq<Byte>, frequency: real, strength: Byte)

  /**
   * Centre frequency of bin `index` when `binCount` equal bins split the band from 0 up to
   * half the sample rate.
   */
  function BinCentre(sampleRate: real, binCount: nat, index: nat): (c: real)
    requires binCount > 0
    ensures sampleRate > 0.0 ==> c > 0.0
  {
    var lowerBound := 0.0;
    var upperBound := sampleRate / 2.0;
    var range := upperBound - lowerBound;
    lowerBound + range / binCount as real * (index as real + 0.5)
  }

  /** The centre of a bin lies strictly inside that bin, and so strictly inside the band. */
  lemma BinCentreInBin(sampleRate: real, binCount: nat, index: nat)
    requires sampleRate > 0.0 && index < binCount
    ensures var binWidth := sampleRate / 2.0 / binCount as real;
      binWidth * index as real < BinCentre(sampleRate, binCount, index) < binWidth * (index as real + 1.0)
    ensures 0.0 < BinCentre(sampleRate, binCount, index) < sampleRate / 2.0
  {
    var binWidth := sampleRate / 2.0 / binCount as real;
    assert BinCentre(sampleRate, binCount, index) == binWidth * index as real + binWidth * 0.5;
    MulMonotone(binWidth, index as real + 1.0, binCount as real);
    assert binWidth * (binCount as real) == sampleRate / 2.0;
  }

  /**
   * analyzeCurrentSound, with the analyser's byte spectrum `data` and the context's sample rate
   * as inputs: the peak is the first maximal bin, the strength its value, the frequency its centre.
   */
  function AnalyzeCurrentSound(data: seq<Byte>, sampleRate: real): (r: Result<Reading>)
    ensures |data| == 0 <==> r == Err(EmptyArray)
    ensures |data| > 0 ==> r.Ok?
    ensures r.Ok? ==> r.value.frequencyData == data
    ensures r.Ok? ==> forall j :: 0 <= j < |data| ==> data[j] <= r.value.strength
    ensures r.Ok? ==> exists p :: (IsFirstMax(data, p) &&
      r.value.strength == data[p] && r.value.frequency == BinCentre(sampleRate, |data|, p))
  {
    if |data| == 0 then Err(EmptyArray)
    else
      var peak := ArgMax(data);
      Ok(Reading(data, BinCentre(sampleRate, |data|, peak), data[peak]))
  }

  /** The reading is determined by any first maximum, which is the peak. */
  lemma ReadingAtPeak(data: seq<Byte>, sampleRate: real, p: nat)
    requires IsFirstMax(data, p)
    ensures AnalyzeCurrentSound(data, sampleRate).Ok?
    ensures AnalyzeCurrentSound(data, sampleRate).value.strength == data[p]
    ensures AnalyzeCurrentSound(data, sampleRate).value.frequency == BinCentre(sampleRate, |data|, p)
  {
    FirstMaxUnique(data, p, ArgMax(data));
  }

  /** With a positive sample rate the reported frequency lies strictly between 0 and the Nyquist frequency. */
  lemma FrequencyWithinBand(data: seq<Byte>, sampleRate: real)
    requires data != [] && sampleRate > 0.0
    ensures 0.0 < AnalyzeCurrentSound(data, sampleRate).value.frequency < sampleRate / 2.0
  {
    BinCentreInBin(sampleRate, |data|, ArgMax(data));
  }

  /** Sample rate 48000 and 1024 bins put bin 10's centre at 246.09375 Hz. */
  lemma BinCentreExample()
    ensures BinCentre(48000.0, 1024, 10) == 246.09375
  {
  }

  /**
   * Two bins share the maximum 200 (bins 10 and 600): the earlier one wins, so the reading is
   * 246.09375 Hz at strength 200.
   */
  lemma TieGoesToLowerBin()
    ensures var data: seq<Byte> := seq(1024, i => if i == 10 || i == 600 then 200 else 3);
      AnalyzeCurrentSound(data, 48000.0) == Ok(Reading(data, 246.09375, 200))
  {
    var data: seq<Byte> := seq(1024, i => if i == 10 || i == 600 then 200 else 3);
    assert IsFirstMax(data, 10);
    ReadingAtPeak(data, 48000.0, 10);
  }
}
