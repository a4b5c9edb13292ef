/**
  The IELTS band arithmetic of `OverallScore` (users/models.py): the lookup
  from a raw count of correct answers to a band, the three-way rounding of a
  raw mean to a whole or half band, and the derivation of all five bands of a
  test result.

  Units. Every stored band and score has one decimal place, so it is an
  integer number of TENTHS (6.5 is 65, 9.0 is 90). The mean of four such
  values is their sum in tenths divided by 4, that is by 40 in whole units,
  so the sum of four values in tenths IS their mean in FORTIETHS (6.25 is
  250). All arithmetic here is exact. The source converts the mean to a
  binary float before taking its fractional part; for a multiple of 1/40
  that float is off by far less than 1/40, and .25 and .75 are exact binary
  fractions, so every comparison against them comes out as it does on the
  exact value modelled here.
 */
module Banding {

  /** The lowest and highest band `CalculateBand` can return, in tenths. */
  const MinCountBand: int := 35
  const MaxCountBand: int := 90

  /** A whole and a half band, in tenths. */
  const WholeBand: int := 10
  const HalfBand: int := 5

  /** A whole band and a quarter band, in fortieths. */
  const FortiethsPerBand: int := 40
  const QuarterBandInFortieths: int := 10

  /** `x` is a whole or half band, in tenths. */
  predicate IsHalfStep(x: int) {
    x % HalfBand == 0
  }

  function Abs(x: int): (r: int)
    ensures r >= 0 && (r == x || r == -x)
  {
    if x < 0 then -x else x
  }

  // ---------------------------------------------------------------------
  // calculate_band
  // ---------------------------------------------------------------------

  /** `calculate_band`: the band, in tenths, for a number of correct answers.
      There is no bound check, so any count below 10, negative ones included,
      gets 3.5 and any count from 39 up gets 9.0. */
  function CalculateBand(correctAnswers: int): (band: int)
    ensures IsHalfStep(band) && MinCountBand <= band <= MaxCountBand
    ensures band == MaxCountBand <==> correctAnswers >= 39
    ensures band == MinCountBand <==> correctAnswers < 10
  {
    if correctAnswers >= 39 then 90
    else if correctAnswers >= 37 then 85
    else if correctAnswers >= 35 then 80
    else if correctAnswers >= 32 then 75
    else if correctAnswers >= 30 then 70
    else if correctAnswers >= 26 then 65
    else if correctAnswers >= 23 then 60
    else if correctAnswers >= 18 then 55
    else if correctAnswers >= 16 then 50
    else if correctAnswers >= 13 then 45
    else if correctAnswers >= 10 then 40
    else 35
  }

  /** The lower bounds of the lookup chain, lowest first: reaching each one
      is worth another half band above 3.5. */
  const Thresholds: seq<int> := [10, 13, 16, 18, 23, 26, 30, 32, 35, 37, 39]

  /** How many of `thresholds` are at most `n`. */
  function ThresholdsReached(thresholds: seq<int>, n: int): (k: nat)
    ensures k <= |thresholds|
  {
    if thresholds == [] then 0
    else (if thresholds[0] <= n then 1 else 0) + ThresholdsReached(thresholds[1..], n)
  }

  /** When exactly the first `k` thresholds are at most `n`, `k` are reached. */
  lemma {:induction false} ThresholdsReachedPrefix(thresholds: seq<int>, n: int, k: nat)
    requires k <= |thresholds|
    requires forall i :: 0 <= i < k ==> thresholds[i] <= n
    requires forall i :: k <= i < |thresholds| ==> n < thresholds[i]
    ensures ThresholdsReached(thresholds, n) == k
  {
    if thresholds != [] {
      var rest := thresholds[1..];
      var k' := if k > 0 then k - 1 else 0;
      forall i | 0 <= i < k' ensures rest[i] <= n {
        assert rest[i] == thresholds[i + 1];
      }
      forall i | k' <= i < |rest| ensures n < rest[i] {
        assert rest[i] == thresholds[i + 1];
      }
      ThresholdsReachedPrefix(rest, n, k');
    }
  }

  /** The lookup chain gives the band of the highest threshold at most `n`:
      3.5 plus half a band for every threshold reached. */
  lemma CalculateBandCountsThresholds(n: int)
    ensures CalculateBand(n) == MinCountBand + HalfBand * ThresholdsReached(Thresholds, n)
  {
    var k := if n >= 39 then 11 else if n >= 37 then 10 else if n >= 35 then 9
      else if n >= 32 then 8 else if n >= 30 then 7 else if n >= 26 then 6
      else if n >= 23 then 5 else if n >= 18 then 4 else if n >= 16 then 3
      else if n >= 13 then 2 else if n >= 10 then 1 else 0;
    ThresholdsReachedPrefix(Thresholds, n, k);
  }

  /** The result is the band of the highest threshold at most `n`: from
      `Thresholds[k]` on the band is at least 4.0 plus `k` half bands, and
      below it the band is at most 3.5 plus `k` half bands. */
  lemma CalculateBandAtThresholds(n: int, k: nat)
    requires k < |Thresholds|
    ensures Thresholds[k] <= n ==> CalculateBand(n) >= MinCountBand + HalfBand * (k + 1)
    ensures n < Thresholds[k] ==> CalculateBand(n) <= MinCountBand + HalfBand * k
  {
  }

  /** More correct answers never give a lower band. */
  lemma CalculateBandMonotone(m: int, n: int)
    requires m <= n
    ensures CalculateBand(m) <= CalculateBand(n)
  {
  }

  /** The boundary cases of the chain, in tenths. */
  lemma CalculateBandExamples()
    ensures CalculateBand(40) == 90 && CalculateBand(39) == 90 && CalculateBand(38) == 85
    ensures CalculateBand(30) == 70 && CalculateBand(29) == 65 && CalculateBand(26) == 65
    ensures CalculateBand(25) == 60 && CalculateBand(10) == 40 && CalculateBand(9) == 35
    ensures CalculateBand(0) == 35 && CalculateBand(-3) == 35
  {
  }

  // ---------------------------------------------------------------------
  // round_band
  // ---------------------------------------------------------------------

  /** Python's `round` on a `Decimal` with no digits argument: the integer
      nearest to `n / d`, a tie going to the even neighbour. */
  function RoundHalfEven(n: int, d: int): (q: int)
    requires d > 0
    ensures -d <= 2 * (n - q * d) <= d
    ensures Abs(2 * (n - q * d)) == d ==> q % 2 == 0
  {
    var floor, rest := n / d, n % d;
    assert n == floor * d + rest;
    assert (floor + 1) * d == floor * d + d;
    if 2 * rest < d then floor
    else if 2 * rest > d then floor + 1
    else if floor % 2 == 0 then floor
    else floor + 1
  }

  /** The integer part and the fractional part, in fortieths, of a mean.
      `Fraction` is the exact value of which the source's `float(score) % 1`
      is a float approximation (see the units note at the top). Like
      Python's `%`, it is never negative, and so `Floor` rounds towards
      minus infinity. */
  function Floor(mean: int): int { mean / FortiethsPerBand }
  function Fraction(mean: int): int { mean % FortiethsPerBand }

  /** `round_band`: a raw mean, in fortieths, rounded to a band in tenths.
      Below a quarter the mean rounds down to the whole band, from three
      quarters it rounds up to the next whole band, and in between
      `round(score * 2) / 2` applies, whose tie at exactly a quarter goes to
      the even number of half bands, that is down to the whole band. */
  function RoundBand(mean: int): (band: int)
    ensures IsHalfStep(band)
    ensures Abs(mean - 4 * band) <= QuarterBandInFortieths
    ensures Fraction(mean) <= QuarterBandInFortieths ==> band == WholeBand * Floor(mean)
    ensures QuarterBandInFortieths < Fraction(mean) < 3 * QuarterBandInFortieths ==>
      band == WholeBand * Floor(mean) + HalfBand
    ensures 3 * QuarterBandInFortieths <= Fraction(mean) ==> band == WholeBand * Floor(mean) + WholeBand
  {
    var fraction := Fraction(mean);
    assert mean == FortiethsPerBand * Floor(mean) + fraction && 0 <= fraction < FortiethsPerBand;
    assert 2 * mean == FortiethsPerBand * (2 * Floor(mean)) + 2 * fraction;
    if fraction < QuarterBandInFortieths then WholeBand * RoundHalfEven(mean, FortiethsPerBand)
    else if fraction < 3 * QuarterBandInFortieths then HalfBand * RoundHalfEven(2 * mean, FortiethsPerBand)
    else WholeBand * RoundHalfEven(mean, FortiethsPerBand)
  }

  /** Two different whole or half bands are at least half a band apart. */
  lemma HalfStepsApart(x: int, y: int)
    requires IsHalfStep(x) && IsHalfStep(y)
    ensures x < y ==> x + HalfBand <= y
  {
  }

  /** `round_band` picks a half band nearest to the mean; of two equally near
      ones (a mean ending in .25 or .75) it picks the whole band. */
  lemma RoundBandIsNearestHalfStep(mean: int, other: int)
    requires IsHalfStep(other)
    ensures Abs(mean - 4 * RoundBand(mean)) <= Abs(mean - 4 * other)
    ensures Abs(mean - 4 * RoundBand(mean)) == QuarterBandInFortieths ==> RoundBand(mean) % WholeBand == 0
  {
    // Another half step is at least half a band, 20 fortieths, away from the result.
    var band := RoundBand(mean);
    HalfStepsApart(band, other);
    HalfStepsApart(other, band);
    assert mean == FortiethsPerBand * Floor(mean) + Fraction(mean);
    if Abs(mean - 4 * band) == QuarterBandInFortieths {
      assert Fraction(mean) == QuarterBandInFortieths || Fraction(mean) == 3 * QuarterBandInFortieths;
    }
  }

  /** A mean that already is a whole or half band is left as it is. */
  lemma RoundBandFixesHalfSteps(band: int)
    requires IsHalfStep(band)
    ensures RoundBand(4 * band) == band
  {
  }

  /** Rounding a rounded band changes nothing. */
  lemma RoundBandIdempotent(mean: int)
    ensures RoundBand(4 * RoundBand(mean)) == RoundBand(mean)
  {
    RoundBandFixesHalfSteps(RoundBand(mean));
  }

  /** A higher mean never rounds to a lower band. */
  lemma RoundBandMonotone(a: int, b: int)
    requires a <= b
    ensures RoundBand(a) <= RoundBand(b)
  {
    // Both results are within a quarter band of their means, and two
    // different half steps are half a band apart.
    var ra, rb := RoundBand(a), RoundBand(b);
    assert 4 * ra <= a + QuarterBandInFortieths && b - QuarterBandInFortieths <= 4 * rb;
    assert rb < ra ==> ra - rb >= HalfBand;
  }

  /** Means on both sides of each breakpoint, in fortieths. A mean of 6.25
      gives 6.0, not 6.5: `round(12.5)` is 12. Negative means follow the same
      floor and fraction: -6.25 has fraction .75 and gives -6.0. */
  lemma RoundBandExamples()
    ensures RoundBand(240) == 60   // 6.0
    ensures RoundBand(248) == 60   // 6.2
    ensures RoundBand(249) == 60   // 6.225
    ensures RoundBand(250) == 60   // 6.25
    ensures RoundBand(251) == 65   // 6.275
    ensures RoundBand(252) == 65   // 6.3
    ensures RoundBand(260) == 65   // 6.5
    ensures RoundBand(269) == 65   // 6.725
    ensures RoundBand(270) == 70   // 6.75
    ensures RoundBand(279) == 70   // 6.975
    ensures RoundBand(-250) == -60 // -6.25
  {
  }

  // ---------------------------------------------------------------------
  // The derivation done by OverallScore.save
  // ---------------------------------------------------------------------

  /** The five bands shown for a test result, in tenths. */
  datatype BandScore = BandScore(
    readingBand: int,
    listeningBand: int,
    speakingBand: int,
    writingBand: int,
    overallBand: int)

  /** The raw mean of four values in tenths, in fortieths (see the units
      note at the top): `(a + b + c + d) / 4`. */
  function MeanInFortieths(a: int, b: int, c: int, d: int): int {
    a + b + c + d
  }

  /** The raw mean of the four skill bands of `score`, in fortieths. */
  function RawAverage(score: BandScore): int {
    MeanInFortieths(score.readingBand, score.listeningBand, score.speakingBand, score.writingBand)
  }

  /** The bands `OverallScore.save` derives from a test result's two counts
      and two decimal scores: reading and listening through the lookup,
      speaking and writing taken over unchanged, and the overall band the
      rounded mean of the four. */
  function ComputeBands(readingCorrect: int, listeningCorrect: int, speakingScore: int, writingScore: int): (score: BandScore)
    ensures score.speakingBand == speakingScore && score.writingBand == writingScore
    ensures MinCountBand <= score.readingBand <= MaxCountBand && IsHalfStep(score.readingBand)
    ensures MinCountBand <= score.listeningBand <= MaxCountBand && IsHalfStep(score.listeningBand)
    ensures IsHalfStep(score.overallBand)
    ensures Abs(RawAverage(score) - 4 * score.overallBand) <= QuarterBandInFortieths
  {
    var reading := CalculateBand(readingCorrect);
    var listening := CalculateBand(listeningCorrect);
    BandScore(reading, listening, speakingScore, writingScore,
              RoundBand(MeanInFortieths(reading, listening, speakingScore, writingScore)))
  }

  /** The overall band lies between the lowest and the highest of the four
      skill bands, for any speaking and writing scores: reading and
      listening are half steps, and they keep the rounded mean in range even
      when speaking or writing (say 6.3) is not. */
  lemma OverallBandBetweenSkillBands(readingCorrect: int, listeningCorrect: int, speakingScore: int, writingScore: int)
    ensures var s := ComputeBands(readingCorrect, listeningCorrect, speakingScore, writingScore);
      var lo := Min(Min(s.readingBand, s.listeningBand), Min(s.speakingBand, s.writingBand));
      var hi := Max(Max(s.readingBand, s.listeningBand), Max(s.speakingBand, s.writingBand));
      lo <= s.overallBand <= hi
  {
    var s := ComputeBands(readingCorrect, listeningCorrect, speakingScore, writingScore);
    var lo := Min(Min(s.readingBand, s.listeningBand), Min(s.speakingBand, s.writingBand));
    var hi := Max(Max(s.readingBand, s.listeningBand), Max(s.speakingBand, s.writingBand));
    var o, mean := s.overallBand, RawAverage(s);
    var low, high := Min(s.readingBand, s.listeningBand), Max(s.readingBand, s.listeningBand);
    assert mean - QuarterBandInFortieths <= 4 * o <= mean + QuarterBandInFortieths;
    assert 2 * lo + 2 * low <= mean <= 2 * hi + 2 * high;
    HalfStepsApart(o, low);
    HalfStepsApart(high, o);
  }

  function Min(a: int, b: int): int { if a <= b then a else b }
  function Max(a: int, b: int): int { if a <= b then b else a }

  /** More correct answers in reading or listening, or a higher speaking or
      writing score, never lower the overall band. */
  lemma OverallBandMonotone(
    readingCorrect: int, listeningCorrect: int, speakingScore: int, writingScore: int,
    readingCorrect': int, listeningCorrect': int, speakingScore': int, writingScore': int)
    requires readingCorrect <= readingCorrect' && listeningCorrect <= listeningCorrect'
    requires speakingScore <= speakingScore' && writingScore <= writingScore'
    ensures ComputeBands(readingCorrect, listeningCorrect, speakingScore, writingScore).overallBand
         <= ComputeBands(readingCorrect', listeningCorrect', speakingScore', writingScore').overallBand
  {
    CalculateBandMonotone(readingCorrect, readingCorrect');
    CalculateBandMonotone(listeningCorrect, listeningCorrect');
    RoundBandMonotone(
      RawAverage(ComputeBands(readingCorrect, listeningCorrect, speakingScore, writingScore)),
      RawAverage(ComputeBands(readingCorrect', listeningCorrect', speakingScore', writingScore')));
  }

  /** Two worked cases: counts 30 and 26 with speaking 6.5 and writing 6.0
      give 7.0, 6.5 and overall 6.5; bands 7.0, 7.0, 6.0, 6.0 have mean 6.5,
      which stays 6.5; 35 correct in reading instead of 30 gives 8.0 and a
      mean of 6.75, which rounds up to 7.0. */
  lemma ComputeBandsExamples()
    ensures ComputeBands(30, 26, 65, 60) == BandScore(70, 65, 65, 60, 65)
    ensures ComputeBands(35, 26, 65, 60) == BandScore(80, 65, 65, 60, 70)
    ensures ComputeBands(30, 30, 60, 60).overallBand == 65
  {
  }
}
