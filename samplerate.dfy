/** Sample-rate normalisation of the RetroPlayer audio bridge.

    The audio engine only opens streams at a few fixed rates and the bridge never
    resamples, so it maps a core-reported rate onto the table below and uses the
    result to tell whether the core's rate is one the engine can take as it is.

    The scan is defined over any rate list; its properties are proved for every
    list whose entries are positive and at least two hertz apart, and the source's
    table is shown to be such a list.
 */
module SampleRate {

  /** The rates the bridge knows, ascending (the list the ALSA sink once used). */
  const SupportedRates: seq<nat> := [5512, 8000, 11025, 16000, 22050, 32000, 44100, 48000]

  /** The static list as laid out in memory: the rates, then a 0 that ends the list. */
  const RateList: seq<nat> := SupportedRates + [0]

  /** Positive entries, each at least two above every one before it. The gap of two
      is what keeps an entry strictly below the floored midpoint above it. */
  predicate WellSpaced(rates: seq<nat>)
  {
    |rates| > 0 &&
    (forall j :: 0 <= j < |rates| ==> rates[j] > 0) &&
    (forall j, l :: 0 <= j < l < |rates| ==> rates[j] + 2 <= rates[l])
  }

  /** The floored midpoint of the adjacent pair that starts at index k
      (unsigned division; for the source's table the sums are far below 2^32). */
  function Midpoint(rates: seq<nat>, k: nat): nat
    requires k + 1 < |rates|
  {
    (rates[k] + rates[k + 1]) / 2
  }

  /** What the scan returns once its pointer stands on entry i of the
      sentinel-terminated list: it stops on the last real entry (the next one is the
      sentinel), or on the first entry whose pair midpoint lies strictly above the
      requested rate. */
  function NormalizeFrom(rates: seq<nat>, samplerate: nat, i: nat): (r: nat)
    requires i < |rates|
    ensures r in rates[i..]
    decreases |rates| - i
  {
    var thisValue := rates[i];
    // the sentinel 0 follows the last entry
    var nextValue := if i + 1 < |rates| then rates[i + 1] else 0;
    if nextValue == 0 then
      thisValue
    else if samplerate < (thisValue + nextValue) / 2 then
      thisValue
    else
      NormalizeFrom(rates, samplerate, i + 1)
  }

  /** The rate the bridge normalises `samplerate` to: always a table entry. */
  function NormalizedRate(samplerate: nat): (r: nat)
    ensures r in SupportedRates
    ensures r != 0
  {
    NormalizeFrom(SupportedRates, samplerate, 0)
  }

  /** The scan as the source runs it: a pointer that walks the sentinel-terminated
      list until it returns. It never walks past the sentinel, so the fallback after
      the loop in the source cannot be reached; here the loop has no exit at all. */
  method NormalizeSamplerate(samplerate: nat) returns (r: nat)
    ensures r == NormalizedRate(samplerate)
    ensures r in SupportedRates
  {
    var i := 0;
    while true
      invariant i < |SupportedRates|
      invariant NormalizeFrom(SupportedRates, samplerate, i) == NormalizedRate(samplerate)
      decreases |SupportedRates| - i
    {
      var thisValue := RateList[i];
      var nextValue := RateList[i + 1];
      if nextValue == 0 {
        // reached the end of the list
        return thisValue;
      }
      if samplerate < (thisValue + nextValue) / 2 {
        // the rate lies below this pair's midpoint, so this entry is taken
        return thisValue;
      }
      i := i + 1;
    }
  }

  /** The half-open band of requested rates that entry k serves: from the midpoint
      below it (inclusive) up to the midpoint above it (exclusive); the first band
      is open downwards and the last one upwards. */
  predicate InBand(rates: seq<nat>, samplerate: nat, k: nat)
    requires k < |rates|
  {
    (k == 0 || Midpoint(rates, k - 1) <= samplerate) &&
    (k == |rates| - 1 || samplerate < Midpoint(rates, k))
  }

  /** Distance between two rates, in hertz. */
  function Dist(a: nat, b: nat): nat
  {
    if a < b then b - a else a - b
  }

  /** The source's table meets the spacing the lemmas below rely on. */
  lemma SupportedRatesWellSpaced()
    ensures WellSpaced(SupportedRates)
  {
  }

  /** Without the gap of two an entry can equal the floored midpoint above it, and
      the strict test then moves it to its neighbour. */
  lemma CloseNeighboursBreakFixedPoint()
    ensures !WellSpaced([5, 6])
    ensures NormalizeFrom([5, 6], 5, 0) == 6
  {
    assert [5, 6][0] + 2 > [5, 6][1];
  }

  /** Each entry sits inside its own band, strictly between the midpoints around it. */
  lemma EntryInsideBand(rates: seq<nat>, k: nat)
    requires WellSpaced(rates)
    requires k < |rates|
    ensures k > 0 ==> Midpoint(rates, k - 1) < rates[k]
    ensures k < |rates| - 1 ==> rates[k] < Midpoint(rates, k)
  {
  }

  /** Midpoints ascend: every midpoint lies strictly between the two entries of its pair. */
  lemma MidpointsIncrease(rates: seq<nat>, a: nat, b: nat)
    requires WellSpaced(rates)
    requires a < b < |rates| - 1
    ensures Midpoint(rates, a) < Midpoint(rates, b)
  {
    EntryInsideBand(rates, a + 1);
    EntryInsideBand(rates, b);
  }

  /** Below the midpoint above entry i, no later entry's band holds the rate. */
  lemma BelowMidpointNoLaterBand(rates: seq<nat>, samplerate: nat, i: nat, k: nat)
    requires WellSpaced(rates)
    requires i < k < |rates|
    requires samplerate < Midpoint(rates, i)
    ensures rates[i] != rates[k] && !InBand(rates, samplerate, k)
  {
    if k - 1 > i {
      MidpointsIncrease(rates, i, k - 1);
    }
  }

  /** A scan that moves past entry i never comes back to it. */
  lemma ScanPastEntry(rates: seq<nat>, samplerate: nat, i: nat)
    requires WellSpaced(rates)
    requires i + 1 < |rates|
    ensures NormalizeFrom(rates, samplerate, i + 1) != rates[i]
  {
    var r := NormalizeFrom(rates, samplerate, i + 1);
    var m :| i + 1 <= m < |rates| && rates[m] == r;
    assert rates[i] < rates[m];
  }

  /** The cases of NormalizeFromBand that need no induction: the scan is on the
      last entry, or stops on entry i, or asks about entry i itself. */
  lemma NormalizeFromBandStep(rates: seq<nat>, samplerate: nat, i: nat, k: nat)
    requires WellSpaced(rates)
    requires i <= k < |rates|
    requires i == 0 || Midpoint(rates, i - 1) <= samplerate
    requires i == |rates| - 1 || samplerate < Midpoint(rates, i) || k == i
    ensures NormalizeFrom(rates, samplerate, i) == rates[k] <==> InBand(rates, samplerate, k)
  {
    if i == |rates| - 1 {
      assert k == i;
    } else if samplerate < Midpoint(rates, i) {
      if k > i {
        BelowMidpointNoLaterBand(rates, samplerate, i, k);
      }
    } else {
      ScanPastEntry(rates, samplerate, i);
    }
  }

  /** The scan from index i (reached only when the rate is at or above the midpoint
      below i) stops on entry k exactly when the rate lies in k's band. */
  lemma {:induction false} NormalizeFromBand(rates: seq<nat>, samplerate: nat, i: nat, k: nat)
    requires WellSpaced(rates)
    requires i <= k < |rates|
    requires i == 0 || Midpoint(rates, i - 1) <= samplerate
    ensures NormalizeFrom(rates, samplerate, i) == rates[k] <==> InBand(rates, samplerate, k)
    decreases |rates| - i
  {
    if i == |rates| - 1 || samplerate < Midpoint(rates, i) || k == i {
      NormalizeFromBandStep(rates, samplerate, i, k);
    } else {
      NormalizeFromBand(rates, samplerate, i + 1, k);
    }
  }

  /** Reference definition: a rate normalises to entry k exactly when it lies in k's band. */
  lemma NormalizeIsBandEntry(rates: seq<nat>, samplerate: nat, k: nat)
    requires WellSpaced(rates)
    requires k < |rates|
    ensures NormalizeFrom(rates, samplerate, 0) == rates[k] <==> InBand(rates, samplerate, k)
  {
    NormalizeFromBand(rates, samplerate, 0, k);
  }

  /** A rate is left unchanged exactly when it is an entry of the list. */
  lemma NormalizeFixedPointIffEntry(rates: seq<nat>, samplerate: nat)
    requires WellSpaced(rates)
    ensures NormalizeFrom(rates, samplerate, 0) == samplerate <==> samplerate in rates
  {
    if samplerate in rates {
      var k :| 0 <= k < |rates| && rates[k] == samplerate;
      EntryInsideBand(rates, k);
      NormalizeIsBandEntry(rates, samplerate, k);
    }
  }

  /** Normalising twice gives what normalising once gives. */
  lemma NormalizeIdempotent(rates: seq<nat>, samplerate: nat)
    requires WellSpaced(rates)
    ensures NormalizeFrom(rates, NormalizeFrom(rates, samplerate, 0), 0) == NormalizeFrom(rates, samplerate, 0)
  {
    NormalizeFixedPointIffEntry(rates, NormalizeFrom(rates, samplerate, 0));
  }

  /** The chosen entry is the nearest one up to a single hertz: flooring the midpoint
      of an odd pair moves the boundary down by one, so that rate goes to the higher
      entry although the lower one is one hertz nearer. */
  lemma NormalizeNearest(rates: seq<nat>, samplerate: nat, j: nat)
    requires WellSpaced(rates)
    requires j < |rates|
    ensures Dist(samplerate, NormalizeFrom(rates, samplerate, 0)) <= Dist(samplerate, rates[j]) + 1
  {
    var r := NormalizeFrom(rates, samplerate, 0);
    var k :| 0 <= k < |rates| && rates[k] == r;
    NormalizeIsBandEntry(rates, samplerate, k);
    if j < k {
      EntryInsideBand(rates, k - 1);
    } else if j > k {
      EntryInsideBand(rates, k);
    }
  }

  /** The rates the bridge accepts unchanged are exactly the table's entries. */
  lemma NormalizedFixedPointIffSupported(samplerate: nat)
    ensures NormalizedRate(samplerate) == samplerate <==> samplerate in SupportedRates
  {
    SupportedRatesWellSpaced();
    NormalizeFixedPointIffEntry(SupportedRates, samplerate);
  }

  /** Every rate below the first midpoint, zero included, goes to the lowest entry. */
  lemma LowRatesGoToFirstEntry(samplerate: nat)
    requires samplerate < 6756
    ensures NormalizedRate(samplerate) == 5512
  {
    SupportedRatesWellSpaced();
    NormalizeIsBandEntry(SupportedRates, samplerate, 0);
  }

  /** Every rate at or above the last midpoint goes to the highest entry: a ceiling
      clamp, never a failure. */
  lemma HighRatesClampToLastEntry(samplerate: nat)
    requires samplerate >= 46050
    ensures NormalizedRate(samplerate) == 48000
  {
    SupportedRatesWellSpaced();
    NormalizeIsBandEntry(SupportedRates, samplerate, |SupportedRates| - 1);
  }

  /** The test is a strict `<` against the floored midpoint, so an exact midpoint goes
      to the higher neighbour, and one hertz below it to the lower one. */
  lemma ExactMidpointGoesUp()
    ensures NormalizedRate(46050) == 48000
    ensures NormalizedRate(9512) == 11025
  {
    HighRatesClampToLastEntry(46050);
    SupportedRatesWellSpaced();
    NormalizeIsBandEntry(SupportedRates, 9512, 2);
  }

  /** One hertz below a midpoint the lower neighbour is taken. */
  lemma BelowMidpointGoesDown()
    ensures NormalizedRate(46049) == 44100
    ensures NormalizedRate(9511) == 8000
  {
    SupportedRatesWellSpaced();
    NormalizeIsBandEntry(SupportedRates, 46049, 6);
    NormalizeIsBandEntry(SupportedRates, 9511, 1);
  }

  /** The one hertz in NormalizeNearest cannot be dropped for the source's table. */
  lemma FlooredMidpointRoundsUp()
    ensures Dist(9512, 8000) < Dist(9512, NormalizedRate(9512))
  {
    ExactMidpointGoesUp();
  }
}
