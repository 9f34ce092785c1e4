/** The bookkeeping of `main`'s epoch loop in train.py: which epochs run,
    how `best_acc1` is tracked, when a checkpoint is flagged best or last,
    and what epoch number and file name each checkpoint records. Training
    and validation themselves are abstracted to the sequence of top-1
    accuracies that `validate` returns, one per epoch run. */
module Epochs {
  import Decimal

  /** The checkpoint file `f"epoch_{number}.pth.tar"`, kept as the number
      it is formatted from; `FileName` renders it. */
  datatype CheckpointFile = EpochFile(number: int)

  /** What one call of `save_checkpoint` records about the loop state. */
  datatype Checkpoint = Checkpoint(epoch: int, bestAcc1: real, file: CheckpointFile, isBest: bool, isLast: bool)

  /** The final `best_acc1` and the checkpoints saved, in order. */
  datatype Run = Run(bestAcc1: real, checkpoints: seq<Checkpoint>)

  /** Length of `range(start_epoch, epochs)`. */
  function EpochCount(startEpoch: int, epochs: int): nat {
    if startEpoch < epochs then epochs - startEpoch else 0
  }

  /** Python's `max(a, b)`: the first argument unless the second is
      strictly greater. */
  function Max(a: real, b: real): (m: real)
    ensures m >= a && m >= b
    ensures m == a || m == b
  {
    if b > a then b else a
  }

  /** The maximum of `best` and every element of `accs`, the reference
      against which the loop's running `best_acc1` is checked. */
  function BestOf(best: real, accs: seq<real>): real {
    if |accs| == 0 then best else Max(accs[|accs| - 1], BestOf(best, accs[..|accs| - 1]))
  }

  /** `BestOf` is the maximum: an upper bound that is one of its inputs. */
  lemma {:induction false} BestOfIsMax(best: real, accs: seq<real>)
    ensures BestOf(best, accs) >= best
    ensures forall i :: 0 <= i < |accs| ==> BestOf(best, accs) >= accs[i]
    ensures BestOf(best, accs) == best || exists i :: 0 <= i < |accs| && BestOf(best, accs) == accs[i]
    decreases |accs|
  {
    if |accs| > 0 {
      var init := accs[..|accs| - 1];
      BestOfIsMax(best, init);
      assert forall i :: 0 <= i < |init| ==> init[i] == accs[i];
    }
  }

  /** The file name the checkpoint is written under. */
  function FileName(f: CheckpointFile): string {
    "epoch_" + Decimal.IntToString(f.number) + ".pth.tar"
  }

  /** Different numbers never render to the same file name. */
  lemma FileNameInjective(a: CheckpointFile, b: CheckpointFile)
    requires FileName(a) == FileName(b)
    ensures a == b
  {
    var na, nb := FileName(a), FileName(b);
    assert na[6..|na| - 8] == Decimal.IntToString(a.number);
    assert nb[6..|nb| - 8] == Decimal.IntToString(b.number);
    Decimal.IntToStringInjective(a.number, b.number);
  }

  /** One iteration of the loop body after `validate` returned `acc1`:
      the new `best_acc1` and the checkpoint saved. */
  function EpochStep(bestAcc1: real, epoch: int, epochs: int, acc1: real): (r: (real, Checkpoint))
    ensures r.1.isBest <==> acc1 > bestAcc1
    ensures r.0 >= acc1 && r.0 >= bestAcc1
    ensures r.0 == acc1 || r.0 == bestAcc1
    ensures r.1.isBest ==> r.0 == acc1
    ensures !r.1.isBest ==> r.0 == bestAcc1
    ensures r.1.bestAcc1 == r.0
    ensures r.1.epoch == epoch + 1 && r.1.file == EpochFile(epoch + 1)
    ensures r.1.isLast <==> epoch + 1 == epochs
  {
    var isBest := acc1 > bestAcc1;
    var isLast := epoch + 1 == epochs;
    var best := Max(acc1, bestAcc1);
    (best, Checkpoint(epoch + 1, best, EpochFile(epoch + 1), isBest, isLast))
  }

  /** The loop state after the first `|accs|` epochs from `startEpoch`,
      where `accs[k]` is the accuracy of epoch `startEpoch + k`. */
  function Fold(startEpoch: int, epochs: int, best: real, accs: seq<real>): (r: Run)
    ensures |r.checkpoints| == |accs|
    ensures r.bestAcc1 == BestOf(best, accs)
    ensures r.bestAcc1 >= best && forall i :: 0 <= i < |accs| ==> r.bestAcc1 >= accs[i]
    ensures r.bestAcc1 == best || exists i :: 0 <= i < |accs| && r.bestAcc1 == accs[i]
    decreases |accs|
  {
    BestOfIsMax(best, accs);
    if |accs| == 0 then Run(best, [])
    else
      var n := |accs|;
      var prev := Fold(startEpoch, epochs, best, accs[..n - 1]);
      var (b, c) := EpochStep(prev.bestAcc1, startEpoch + n - 1, epochs, accs[n - 1]);
      Run(b, prev.checkpoints + [c])
  }

  /** Running the loop over a prefix of the epochs saves a prefix of the
      checkpoints. */
  lemma {:induction false} FoldPrefix(startEpoch: int, epochs: int, best: real, accs: seq<real>, m: nat)
    requires m <= |accs|
    ensures Fold(startEpoch, epochs, best, accs[..m]).checkpoints
         == Fold(startEpoch, epochs, best, accs).checkpoints[..m]
    decreases |accs|
  {
    var n := |accs|;
    if m == n {
      assert accs[..m] == accs;
    } else {
      var init := accs[..n - 1];
      var prev := Fold(startEpoch, epochs, best, init);
      var step := EpochStep(prev.bestAcc1, startEpoch + n - 1, epochs, accs[n - 1]);
      assert Fold(startEpoch, epochs, best, accs).checkpoints == prev.checkpoints + [step.1];
      FoldPrefix(startEpoch, epochs, best, init, m);
      assert init[..m] == accs[..m];
    }
  }

  /** The checkpoint saved by the last epoch of a run. */
  lemma FoldLast(startEpoch: int, epochs: int, best: real, accs: seq<real>)
    requires |accs| > 0
    ensures var n := |accs|;
      Fold(startEpoch, epochs, best, accs).checkpoints[n - 1]
      == Checkpoint(startEpoch + n, BestOf(best, accs), EpochFile(startEpoch + n),
                    accs[n - 1] > BestOf(best, accs[..n - 1]), startEpoch + n == epochs)
  {
  }

  /** What the checkpoint of the `k`-th epoch run records: epoch number
      `start_epoch + k + 1`, its own file name, the maximum accuracy so far,
      `is_best` exactly when this epoch beat every earlier one strictly, and
      `is_last` exactly when it is epoch `epochs - 1`. */
  lemma FoldCheckpoint(startEpoch: int, epochs: int, best: real, accs: seq<real>, k: nat)
    requires k < |accs|
    ensures Fold(startEpoch, epochs, best, accs).checkpoints[k]
         == Checkpoint(startEpoch + k + 1, BestOf(best, accs[..k + 1]), EpochFile(startEpoch + k + 1),
                       accs[k] > BestOf(best, accs[..k]), startEpoch + k + 1 == epochs)
  {
    var pre := accs[..k + 1];
    FoldPrefix(startEpoch, epochs, best, accs, k + 1);
    FoldLast(startEpoch, epochs, best, pre);
    assert pre[..k] == accs[..k];
    assert pre[k] == accs[k];
  }

  /** Over the whole `range(start_epoch, epochs)`: one checkpoint per epoch,
      and `is_last` holds for the final one and no other. */
  lemma EpochsRun(startEpoch: int, epochs: int, best: real, accs: seq<real>, k: nat)
    requires |accs| == EpochCount(startEpoch, epochs) && k < |accs|
    ensures var c := Fold(startEpoch, epochs, best, accs).checkpoints[k];
      && c.epoch == startEpoch + k + 1
      && startEpoch <= c.epoch - 1 < epochs
      && (c.isLast <==> k == |accs| - 1)
  {
    FoldCheckpoint(startEpoch, epochs, best, accs, k);
  }

  /** A checkpoint is flagged best exactly when it raised `best_acc1`; a tie
      with the previous best is not best and leaves it unchanged. */
  lemma IsBestMeansImproved(startEpoch: int, epochs: int, best: real, accs: seq<real>, k: nat)
    requires k < |accs|
    ensures var r := Fold(startEpoch, epochs, best, accs);
      var before := if k == 0 then best else r.checkpoints[k - 1].bestAcc1;
      && (r.checkpoints[k].isBest <==> accs[k] > before)
      && (r.checkpoints[k].isBest ==> r.checkpoints[k].bestAcc1 == accs[k])
      && (!r.checkpoints[k].isBest ==> r.checkpoints[k].bestAcc1 == before)
  {
    FoldCheckpoint(startEpoch, epochs, best, accs, k);
    assert accs[..k + 1][..k] == accs[..k];
    if k == 0 {
      assert accs[..0] == [];
    } else {
      FoldCheckpoint(startEpoch, epochs, best, accs, k - 1);
    }
  }

  /** `best_acc1` as recorded in the checkpoints never decreases. */
  lemma {:induction false} BestNeverDecreases(startEpoch: int, epochs: int, best: real, accs: seq<real>, i: nat, j: nat)
    requires i <= j < |accs|
    ensures var r := Fold(startEpoch, epochs, best, accs);
      r.checkpoints[i].bestAcc1 <= r.checkpoints[j].bestAcc1
    decreases j - i
  {
    if i < j {
      BestNeverDecreases(startEpoch, epochs, best, accs, i, j - 1);
      FoldBest(startEpoch, epochs, best, accs, j - 1);
      FoldBest(startEpoch, epochs, best, accs, j);
      var pre := accs[..j + 1];
      assert pre[..j] == accs[..j];
      assert BestOf(best, pre) == Max(pre[j], BestOf(best, pre[..j]));
    }
  }

  lemma FoldBest(startEpoch: int, epochs: int, best: real, accs: seq<real>, k: nat)
    requires k < |accs|
    ensures Fold(startEpoch, epochs, best, accs).checkpoints[k].bestAcc1 == BestOf(best, accs[..k + 1])
  {
    FoldCheckpoint(startEpoch, epochs, best, accs, k);
  }

  /** Every checkpoint goes to its own file: no epoch overwrites another's. */
  lemma CheckpointFilesDistinct(startEpoch: int, epochs: int, best: real, accs: seq<real>, i: nat, j: nat)
    requires i < j < |accs|
    ensures var cs := Fold(startEpoch, epochs, best, accs).checkpoints;
      && cs[i].file == EpochFile(startEpoch + i + 1)
      && FileName(cs[i].file) != FileName(cs[j].file)
  {
    var cs := Fold(startEpoch, epochs, best, accs).checkpoints;
    FoldCheckpoint(startEpoch, epochs, best, accs, i);
    FoldCheckpoint(startEpoch, epochs, best, accs, j);
    if FileName(cs[i].file) == FileName(cs[j].file) {
      FileNameInjective(cs[i].file, cs[j].file);
    }
  }

  /** The loop as written, mutating `best_acc1` and appending checkpoints. */
  method MainLoop(startEpoch: int, epochs: int, best: real, accs: seq<real>)
    returns (bestAcc1: real, saved: seq<Checkpoint>)
    requires |accs| == EpochCount(startEpoch, epochs)
    ensures Run(bestAcc1, saved) == Fold(startEpoch, epochs, best, accs)
    ensures |saved| == EpochCount(startEpoch, epochs)
    ensures bestAcc1 >= best && forall k :: 0 <= k < |accs| ==> bestAcc1 >= accs[k]
    ensures bestAcc1 == best || exists k :: 0 <= k < |accs| && bestAcc1 == accs[k]
  {
    bestAcc1 := best;
    saved := [];
    var epoch := startEpoch;
    while epoch < epochs
      invariant startEpoch <= epoch
      invariant |saved| == epoch - startEpoch
      invariant |saved| <= |accs|
      invariant Run(bestAcc1, saved) == Fold(startEpoch, epochs, best, accs[..|saved|])
    {
      var acc1 := accs[epoch - startEpoch];
      var isBest := acc1 > bestAcc1;
      var isLast := epoch + 1 == epochs;
      bestAcc1 := Max(acc1, bestAcc1);
      saved := saved + [Checkpoint(epoch + 1, bestAcc1, EpochFile(epoch + 1), isBest, isLast)];
      assert accs[..|saved|][..|saved| - 1] == accs[..|saved| - 1];
      epoch := epoch + 1;
    }
    assert accs[..|saved|] == accs;
    BestOfIsMax(best, accs);
  }
}
