/**
 * The patience-based early-stop controller of
 * kl/deepnet/trainer/early_stop.py. Its three fields `best_score`,
 * `counter` and `status` are class attributes in the source, and a fresh
 * instance reads them from the class until its first assignment. They hold
 * immutable numbers and a bool, nothing ever assigns to the class, and the
 * first assignment through `self` creates an instance attribute that
 * shadows the class one. So every instance behaves as if it had its own
 * copy starting at the class defaults, and the class `EarlyStop` below
 * keeps them as ordinary fields initialised to those defaults.
 *
 * The transition of one `update`, the same in both source variants, is the
 * pure function `Updated`; the lemmas about runs of updates are stated on it.
 */
module EarlyStopping {

  /** `-10e5`, the initial best score. */
  const InitialBest: real := -1000000.0

  /** The controller's state: `best_score`, `counter`, `status`. */
  datatype Controller = Controller(best: real, counter: int, status: bool)

  const Fresh: Controller := Controller(InitialBest, 0, false)

  /** `score > best_score * (1 + gap)`: strictly better by the relative margin. */
  predicate Improves(c: Controller, score: real, gap: real)
  {
    score > c.best * (1.0 + gap)
  }

  /** One `update(score)`, including the `_judge` it ends with on a non-improvement. */
  function Updated(c: Controller, score: real, patience: int, gap: real): Controller
  {
    if Improves(c, score, gap) then
      c.(best := score, counter := 0)
    else
      var counter := c.counter + 1;
      c.(counter := counter, status := c.status || counter >= patience)
  }

  /** `reset(reset_score)`. */
  function AfterReset(c: Controller, resetScore: bool): (r: Controller)
    ensures r.counter == 0 && !r.status
    ensures r.best == if resetScore then InitialBest else c.best
  {
    Controller(if resetScore then InitialBest else c.best, 0, false)
  }

  /** The state after updating with each score in turn. */
  function UpdatedAll(c: Controller, scores: seq<real>, patience: int, gap: real): Controller
    decreases |scores|
  {
    if scores == [] then c
    else UpdatedAll(Updated(c, scores[0], patience, gap), scores[1..], patience, gap)
  }

  /** No score in `scores` beats `best` by the margin. */
  predicate NoneImproves(best: real, scores: seq<real>, gap: real)
  {
    forall k :: 0 <= k < |scores| ==> scores[k] <= best * (1.0 + gap)
  }

  /** No run of updates ever sets `status` back to false. */
  lemma {:induction false} StatusSticky(c: Controller, scores: seq<real>, patience: int, gap: real)
    requires c.status
    ensures UpdatedAll(c, scores, patience, gap).status
    decreases |scores|
  {
    if scores != [] {
      StatusSticky(Updated(c, scores[0], patience, gap), scores[1..], patience, gap);
    }
  }

  /**
   * A run of non-improving updates keeps `best_score`, adds one to `counter`
   * per update, and sets `status` exactly when `counter` reaches `patience`.
   */
  lemma {:induction false} NonImprovingRun(c: Controller, scores: seq<real>, patience: int, gap: real)
    requires NoneImproves(c.best, scores, gap)
    ensures var d := UpdatedAll(c, scores, patience, gap);
            && d.best == c.best
            && d.counter == c.counter + |scores|
            && d.status == (c.status || (|scores| > 0 && c.counter + |scores| >= patience))
    decreases |scores|
  {
    if scores != [] {
      var c' := Updated(c, scores[0], patience, gap);
      assert NoneImproves(c'.best, scores[1..], gap) by {
        forall k | 0 <= k < |scores[1..]| ensures scores[1..][k] <= c'.best * (1.0 + gap) {
          assert scores[1..][k] == scores[k + 1];
        }
      }
      NonImprovingRun(c', scores[1..], patience, gap);
    }
  }

  /**
   * After an improvement (counter 0, no stop yet), `status` first becomes
   * true at the `patience`-th consecutive non-improving update: it is false
   * after each shorter run and true after that one.
   */
  lemma FirstStopAtPatience(c: Controller, scores: seq<real>, patience: int, gap: real)
    requires c.counter == 0 && !c.status && patience >= 1
    requires NoneImproves(c.best, scores, gap)
    ensures forall k :: 0 <= k <= |scores| ==>
              (UpdatedAll(c, scores[..k], patience, gap).status <==> k >= patience)
  {
    forall k | 0 <= k <= |scores|
      ensures UpdatedAll(c, scores[..k], patience, gap).status <==> k >= patience
    {
      assert NoneImproves(c.best, scores[..k], gap) by {
        forall j | 0 <= j < k ensures scores[..k][j] <= c.best * (1.0 + gap) {
          assert scores[..k][j] == scores[j];
        }
      }
      NonImprovingRun(c, scores[..k], patience, gap);
    }
  }

  /** The controller itself. `update` returns nothing: callers read `status`. */
  class EarlyStop {
    const patience: int
    const gap: real
    const verbose: int
    var bestScore: real
    var counter: int
    var status: bool

    function State(): Controller
      reads this
    {
      Controller(bestScore, counter, status)
    }

    /** `EarlyStop(patience=3, gap=0, verbose=1)`. */
    constructor (patience: int, gap: real, verbose: int)
      ensures State() == Fresh
      ensures this.patience == patience && this.gap == gap && this.verbose == verbose
    {
      this.patience := patience;
      this.gap := gap;
      this.verbose := verbose;
      bestScore := InitialBest;
      counter := 0;
      status := false;
    }

    method Reset(resetScore: bool)
      modifies this
      ensures State() == AfterReset(old(State()), resetScore)
    {
      counter := 0;
      status := false;
      if resetScore {
        bestScore := InitialBest;
      }
    }

    method Update(score: real)
      modifies this
      ensures State() == Updated(old(State()), score, patience, gap)
      // an improvement replaces the best score, zeroes the counter, keeps status
      ensures Improves(old(State()), score, gap) ==>
                bestScore == score && counter == 0 && status == old(status)
      // otherwise the counter grows by one and the best score stays
      ensures !Improves(old(State()), score, gap) ==>
                bestScore == old(bestScore) && counter == old(counter) + 1 &&
                status == (old(status) || counter >= patience)
      ensures old(status) ==> status
    {
      if score > bestScore * (1.0 + gap) {
        bestScore := score;
        counter := 0;
        return;
      }
      counter := counter + 1;
      Judge();
    }

    /** `_judge`: trigger the stop once the counter has reached the patience. */
    method Judge()
      modifies this`status
      ensures status == (old(status) || counter >= patience)
    {
      if counter >= patience {
        status := true;
      }
    }
  }

  /** The scenario patience 2, gap 0, scores 1.0, 0.5, 0.5: the stop comes with the third call. */
  lemma PatienceTwoScenario()
    ensures !UpdatedAll(Fresh, [1.0, 0.5], 2, 0.0).status
    ensures UpdatedAll(Fresh, [1.0, 0.5, 0.5], 2, 0.0).status
  {
    assert [1.0, 0.5][1..] == [0.5];
    assert [1.0, 0.5, 0.5][1..] == [0.5, 0.5];
    assert [0.5, 0.5][1..] == [0.5];
  }
}
