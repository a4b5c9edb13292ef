/**
  The `post_save` handler of users/signals.py over a small store of rows:
  `results` maps the id of every saved test result to it, and `scores` maps
  the id of a result to its overall score. Keying the scores by result id
  is the one-to-one link: no result can have two scores.
 */
module Signals {
  import opened Banding
  import opened Models

  /** What the handler can raise. Creating a second score for a result
      breaks the one-to-one link (`IntegrityError`); asking an existing
      result for a score it does not have fails
      (`RelatedObjectDoesNotExist`). */
  datatype HandlerError = IntegrityError | RelatedObjectDoesNotExist

  datatype Outcome = Saved | Failed(error: HandlerError)

  class ScoreStore {
    var results: map<nat, TestResult>
    var scores: map<nat, OverallScore>

    /** Every result is stored under its own id, and every score under the
        id of the result it is linked to. This holds at every step, also
        between writing a new result's row and creating its score. */
    ghost predicate Linked()
      reads this
    {
      scores.Keys <= results.Keys
      && (forall id :: id in results ==> results[id].id == id)
      && (forall id :: id in scores ==> scores[id].testResult == results[id])
    }

    /** Between saves, moreover, every stored result has its score. */
    ghost predicate Valid()
      reads this
    {
      Linked() && scores.Keys == results.Keys
    }

    /** The score row of result `id`, if there is one. */
    ghost function ScoreRow(id: nat): set<object>
      reads this
    {
      if id in scores then {scores[id]} else {}
    }

    /** The linked results of all stored scores. */
    ghost function LinkedResults(): set<object>
      reads this
    {
      set id | id in scores :: scores[id].testResult
    }

    /** The bands each stored score shows, by result id. */
    ghost function Contents(): map<nat, BandScore>
      reads this, scores.Values, LinkedResults()
    {
      map id | id in scores :: scores[id].Bands()
    }

    constructor ()
      ensures Valid()
      ensures results == map[] && scores == map[]
    {
      results, scores := map[], map[];
    }

    /** `create_or_update_overall_score`, run after `instance` was saved;
        `created` says whether that save inserted it. A new result gets a
        new score, computed by its first save; an existing one has its score
        saved again, so that its bands follow the result's current fields.
        Either way only the score of `instance` changes, and on an error
        nothing does. */
    method CreateOrUpdateOverallScore(instance: TestResult, created: bool) returns (outcome: Outcome)
      requires Linked()
      requires instance.id in results && results[instance.id] == instance
      modifies this, ScoreRow(instance.id)
      ensures Linked()
      ensures results == old(results)
      ensures outcome == (
        if created then (if instance.id in old(scores) then Failed(IntegrityError) else Saved)
        else (if instance.id in old(scores) then Saved else Failed(RelatedObjectDoesNotExist)))
      ensures outcome.Saved? ==>
        scores.Keys == old(scores.Keys) + {instance.id}
        && scores[instance.id].Consistent()
        && Contents() == old(Contents())[instance.id := instance.ExpectedBands()]
      ensures outcome.Saved? && created ==> fresh(scores[instance.id])
      ensures outcome.Saved? && !created ==> scores == old(scores)
      ensures outcome.Failed? ==> scores == old(scores) && Contents() == old(Contents())
      ensures forall id :: id in old(scores) && id != instance.id ==>
        id in scores && scores[id] == old(scores[id]) && unchanged(scores[id])
    {
      var id := instance.id;
      if created {
        if id in scores {
          return Failed(IntegrityError);
        }
        var score := new OverallScore.Create(instance);
        scores := scores[id := score];
      } else {
        if id !in scores {
          return Failed(RelatedObjectDoesNotExist);
        }
        scores[id].Save();
      }
      outcome := Saved;
      assert forall other :: other in old(scores) && other != id ==> scores[other] != scores[id] by {
        forall other | other in old(scores) && other != id ensures scores[other] != scores[id] {
          assert scores[other].testResult == results[other];
          assert results[other].id == other;
        }
      }
    }

    /** Saving `instance` through the ORM: its row is written, inserted when
        its id is new, and `post_save` then runs the handler with `created`
        telling which. In that flow the handler never fails, and afterwards
        the result has exactly one score, which agrees with it. */
    method SaveTestResult(instance: TestResult) returns (outcome: Outcome)
      requires Valid()
      requires instance.id in results ==> results[instance.id] == instance
      modifies this, ScoreRow(instance.id)
      ensures Valid()
      ensures outcome == Saved
      ensures results == old(results)[instance.id := instance]
      ensures scores.Keys == old(scores.Keys) + {instance.id}
      ensures scores[instance.id].Consistent()
      ensures instance.id in old(scores) ==> scores == old(scores)
      ensures instance.id !in old(scores) ==> fresh(scores[instance.id])
      ensures Contents() == old(Contents())[instance.id := instance.ExpectedBands()]
      ensures forall id :: id in old(scores) && id != instance.id ==>
        id in scores && scores[id] == old(scores[id]) && unchanged(scores[id])
    {
      ghost var contentsBefore := Contents();
      var created := instance.id !in results;
      results := results[instance.id := instance];
      assert Contents() == contentsBefore;
      outcome := CreateOrUpdateOverallScore(instance, created);
    }
  }

  /** A result first saved with 30 and 26 correct answers, speaking 6.5 and
      writing 6.0, then corrected to 35 correct in reading and saved again:
      the same score row now shows reading 8.0 and overall 7.0. */
  method CorrectionScenario()
  {
    ComputeBandsExamples();
    var store := new ScoreStore();
    var result := new TestResult(1, 30, 26, 65, 60);
    var outcome := store.SaveTestResult(result);
    var score := store.scores[1];
    assert score.Bands() == BandScore(70, 65, 65, 60, 65);
    result.readingCorrectAnswers := 35;
    outcome := store.SaveTestResult(result);
    assert store.scores[1] == score;
    assert score.Bands() == BandScore(80, 65, 65, 60, 70);
  }
}
