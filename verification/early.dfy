/**
 * The early-stop controller of kl/train2/early.py. Same state and the same
 * transition as `EarlyStopping.Updated`, but `update` returns a bool: False
 * on a strict improvement, the current `status` otherwise.
 */
module Train2Early {
  import opened EarlyStopping

  /** What `update(score)` returns from state `c`. */
  function Returned(c: Controller, score: real, patience: int, gap: real): bool
  {
    if Improves(c, score, gap) then false else Updated(c, score, patience, gap).status
  }

  /** The values a run of updates returns, one per score. */
  function ReturnedAll(c: Controller, scores: seq<real>, patience: int, gap: real): (r: seq<bool>)
    ensures |r| == |scores|
    decreases |scores|
  {
    if scores == [] then []
    else [Returned(c, scores[0], patience, gap)]
         + ReturnedAll(Updated(c, scores[0], patience, gap), scores[1..], patience, gap)
  }

  /** The i-th value returned is what `update` returns from the state the first i updates reach. */
  lemma {:induction false} ReturnedAt(c: Controller, scores: seq<real>, patience: int, gap: real, i: nat)
    requires i < |scores|
    ensures ReturnedAll(c, scores, patience, gap)[i]
            == Returned(UpdatedAll(c, scores[..i], patience, gap), scores[i], patience, gap)
    decreases |scores|
  {
    if i > 0 {
      assert scores[..i][1..] == scores[1..][..i - 1];
      ReturnedAt(Updated(c, scores[0], patience, gap), scores[1..], patience, gap, i - 1);
    }
  }

  /** Updating with a run of scores is updating with a prefix, then with the rest. */
  lemma {:induction false} UpdatedAllSplit(c: Controller, scores: seq<real>, patience: int, gap: real, k: nat)
    requires k <= |scores|
    ensures UpdatedAll(c, scores, patience, gap)
            == UpdatedAll(UpdatedAll(c, scores[..k], patience, gap), scores[k..], patience, gap)
    decreases |scores|
  {
    if k > 0 {
      assert scores[..k][1..] == scores[1..][..k - 1];
      assert scores[k..] == scores[1..][k - 1..];
      UpdatedAllSplit(Updated(c, scores[0], patience, gap), scores[1..], patience, gap, k - 1);
    }
  }

  /**
   * Once `update` has returned True, every later non-improving update of the
   * run returns True as well (there is no reset in a run).
   */
  lemma StopIsFinal(c: Controller, scores: seq<real>, patience: int, gap: real, i: nat, j: nat)
    requires i < j < |scores|
    requires ReturnedAll(c, scores, patience, gap)[i]
    requires !Improves(UpdatedAll(c, scores[..j], patience, gap), scores[j], gap)
    ensures ReturnedAll(c, scores, patience, gap)[j]
  {
    var a := UpdatedAll(c, scores[..i], patience, gap);
    ReturnedAt(c, scores, patience, gap, i);
    // the i-th update did not improve and left status set
    var b := Updated(a, scores[i], patience, gap);
    assert b.status;
    UpdatedAllSplit(c, scores[..i + 1], patience, gap, i);
    assert scores[..i + 1][..i] == scores[..i];
    assert scores[..i + 1][i..] == [scores[i]];
    assert UpdatedAll(c, scores[..i + 1], patience, gap) == b;
    UpdatedAllSplit(c, scores[..j], patience, gap, i + 1);
    assert scores[..j][..i + 1] == scores[..i + 1];
    StatusSticky(b, scores[..j][i + 1..], patience, gap);
    ReturnedAt(c, scores, patience, gap, j);
  }

  class EarlyStop {
    const patience: int
    const gap: real
    var bestScore: real
    var counter: int
    var status: bool

    function State(): Controller
      reads this
    {
      Controller(bestScore, counter, status)
    }

    /** `EarlyStop(patience=3, gap=0)`. */
    constructor (patience: int, gap: real)
      ensures State() == Fresh && this.patience == patience && this.gap == gap
    {
      this.patience := patience;
      this.gap := gap;
      bestScore := InitialBest;
      counter := 0;
      status := false;
    }

    method Reset(resetScore: bool)
      modifies this
      ensures State() == AfterReset(old(State()), resetScore)
    {
      counter := 0;
      status := false;
      if resetScore {
        bestScore := InitialBest;
      }
    }

    method Update(score: real) returns (stop: bool)
      modifies this
      ensures State() == Updated(old(State()), score, patience, gap)
      ensures stop == Returned(old(State()), score, patience, gap)
      // False on a strict improvement, even when a stop was triggered before
      ensures Improves(old(State()), score, gap) ==> !stop && status == old(status)
      // otherwise the current status: True iff the counter has reached patience since the last reset
      ensures !Improves(old(State()), score, gap) ==> stop == status
      ensures !Improves(old(State()), score, gap) && old(status) ==> stop
    {
      if score > bestScore * (1.0 + gap) {
        bestScore := score;
        counter := 0;
        return false;
      }
      counter := counter + 1;
      Judge();
      return status;
    }

    method Judge()
      modifies this`status
      ensures status == (old(status) || counter >= patience)
    {
      if counter >= patience {
        status := true;
      }
    }
  }
}
