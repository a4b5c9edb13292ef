/**
  The two records of users/models.py that the scoring touches. A
  `TestResult` holds what was measured in one attempt; its `OverallScore`
  is linked to it one to one and stores the reading, listening and overall
  bands that `Save` derives from it, while the speaking and writing bands
  are read through from the result every time they are asked for.
  All scores and bands are in tenths (see module Banding).
 */
module Models {
  import opened Banding

  /** One exam attempt: two counts of correct answers and two decimal
      scores with one decimal place. The user and the date of the attempt
      play no part in the scoring and are not modelled. */
  class TestResult {
    const id: nat
    var readingCorrectAnswers: nat
    var listeningCorrectAnswers: nat
    var speakingScore: int
    var writingScore: int

    constructor (id: nat, readingCorrect: nat, listeningCorrect: nat, speaking: int, writing: int)
      ensures this.id == id
      ensures readingCorrectAnswers == readingCorrect && listeningCorrectAnswers == listeningCorrect
      ensures speakingScore == speaking && writingScore == writing
    {
      this.id := id;
      readingCorrectAnswers, listeningCorrectAnswers := readingCorrect, listeningCorrect;
      speakingScore, writingScore := speaking, writing;
    }

    /** The bands this result should have, as `OverallScore.save` derives them. */
    function ExpectedBands(): BandScore
      reads this
    {
      ComputeBands(readingCorrectAnswers, listeningCorrectAnswers, speakingScore, writingScore)
    }
  }

  /** The derived bands of one test result. */
  class OverallScore {
    const testResult: TestResult
    var readingBand: int
    var listeningBand: int
    var overallBand: int

    /** `OverallScore.objects.create(test_result=...)`: a new score linked
        to `result`, whose bands the first `Save` fills in. */
    constructor Create(result: TestResult)
      ensures testResult == result
      ensures Consistent()
    {
      testResult := result;
      readingBand, listeningBand, overallBand := 0, 0, 0;
      new;
      Save();
    }

    /** The `speaking_band` property: the result's current speaking score. */
    function SpeakingBand(): int
      reads testResult
    {
      testResult.speakingScore
    }

    /** The `writing_band` property: the result's current writing score. */
    function WritingBand(): int
      reads testResult
    {
      testResult.writingScore
    }

    /** The five bands as a reader of this score sees them. */
    function Bands(): BandScore
      reads this, testResult
    {
      BandScore(readingBand, listeningBand, SpeakingBand(), WritingBand(), overallBand)
    }

    /** The stored bands agree with the linked result's current fields. */
    predicate Consistent()
      reads this, testResult
    {
      Bands() == testResult.ExpectedBands()
    }

    /** `save`: derive the reading and listening bands from the result's
        counts, then store the rounded mean of those two and the speaking
        and writing scores as the overall band. The result is not changed.
        Saving again a score that already agrees with its result changes
        none of its bands. */
    method Save()
      modifies this
      ensures Consistent()
      ensures old(Consistent()) ==>
        readingBand == old(readingBand) && listeningBand == old(listeningBand) && overallBand == old(overallBand)
    {
      readingBand := CalculateBand(testResult.readingCorrectAnswers);
      listeningBand := CalculateBand(testResult.listeningCorrectAnswers);
      var rawAverage := MeanInFortieths(readingBand, listeningBand, SpeakingBand(), WritingBand());
      overallBand := RoundBand(rawAverage);
    }
  }
}
