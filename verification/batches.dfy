/** The batch loops of `train` and `validate` in train.py, reduced to their
    counters: `batch_index`, the indices at which a progress line or a
    tensorboard scalar is written, and the exceptions the loops can raise.
    A data prefetcher is modelled by the successive results of its `next()`
    calls after `reset()`: a batch (`Some`) or `None`. */
module Batches {
  import opened Wrappers

  /** An exception together with the value of `batch_index` when it was
      raised. */
  datatype Raised = Raised(exception: Exception, batchIndex: nat)

  /** How a batch loop ended: the final `batch_index` and the batch indices
      at which it printed, in order. */
  datatype Pass = Pass(batchIndex: nat, ticks: seq<nat>)

  /** One tensorboard point `writer.add_scalar("Train/Loss", _, step)` and
      the matching `progress.display(shown)`. */
  datatype LogEntry = LogEntry(step: int, shown: int)

  datatype TrainLog = TrainLog(batchIndex: nat, entries: seq<LogEntry>)

  /** What `validate` hands back and writes: the final `batch_index`, the
      progress lines shown, the scalar tag and step, and the accuracy. */
  datatype Validation = Validation(batchIndex: nat, shown: seq<int>, tag: string, step: int, acc1: real)

  // ---------------------------------------------------------------------
  // The prefetcher

  /** The prefetcher eventually returns `None`, so the loop ends. */
  predicate Ends<B>(fetched: seq<Option<B>>) {
    exists i :: 0 <= i < |fetched| && fetched[i].None?
  }

  /** How many batches `next()` returns before the first `None`. */
  function BatchesBeforeNone<B>(fetched: seq<Option<B>>): (n: nat)
    ensures n <= |fetched|
    ensures forall i :: 0 <= i < n ==> fetched[i].Some?
    ensures n < |fetched| ==> fetched[n].None?
    ensures Ends(fetched) ==> n < |fetched|
  {
    if |fetched| == 0 || fetched[0].None? then 0
    else
      var n := BatchesBeforeNone(fetched[1..]);
      assert forall i :: 1 <= i < |fetched| ==> fetched[i] == fetched[1..][i - 1];
      1 + n
  }

  // ---------------------------------------------------------------------
  // Print ticks

  /** `batch_index % frequency == 0`. Python's `%` and Dafny's agree on
      whether the remainder is zero, whatever the signs; a zero frequency
      raises instead, so no index is a tick of it. */
  predicate IsTick(frequency: int, i: nat) {
    frequency != 0 && i % frequency == 0
  }

  /** The batch indices below `n` at which the loop prints, in order. */
  function PrintTicks(frequency: int, n: nat): seq<nat> {
    if n == 0 then []
    else PrintTicks(frequency, n - 1) + (if IsTick(frequency, n - 1) then [n - 1] else [])
  }

  /** The ticks are exactly the printing indices below `n`, strictly
      increasing. */
  lemma {:induction false} PrintTicksSpec(frequency: int, n: nat)
    ensures forall i: nat :: i in PrintTicks(frequency, n) <==> i < n && IsTick(frequency, i)
    ensures forall a, b :: 0 <= a < b < |PrintTicks(frequency, n)| ==>
      PrintTicks(frequency, n)[a] < PrintTicks(frequency, n)[b]
    decreases n
  {
    if n > 0 {
      PrintTicksSpec(frequency, n - 1);
      var t := PrintTicks(frequency, n - 1);
      var s := PrintTicks(frequency, n);
      assert forall a :: 0 <= a < |t| ==> s[a] == t[a] && t[a] in t;
    }
  }

  lemma {:induction false} MulMonotone(x: int, y: int, f: nat)
    requires x <= y
    ensures x * f <= y * f
    decreases f
  {
    if f > 0 {
      MulMonotone(x, y, f - 1);
      assert x * f == x * (f - 1) + x && y * f == y * (f - 1) + y;
    }
  }

  lemma DivUnique(a: nat, f: nat, q: nat, r: nat)
    requires f > 0 && a == q * f + r && r < f
    ensures a / f == q
  {
    var q', r' := a / f, a % f;
    assert a == q' * f + r';
    if q' > q {
      MulMonotone(q + 1, q', f);
      assert false;
    } else if q' < q {
      MulMonotone(q' + 1, q, f);
      assert false;
    }
  }

  lemma DivStep(m: nat, f: nat)
    requires f > 0
    ensures (m + f) / f == (m + f - 1) / f + (if m % f == 0 then 1 else 0)
  {
    var q, r := m / f, m % f;
    DivUnique(m + f, f, q + 1, r);
    if r == 0 {
      DivUnique(m + f - 1, f, q, f - 1);
    } else {
      DivUnique(m + f - 1, f, q + 1, r - 1);
    }
  }

  /** With a positive frequency the loop prints `ceil(n / frequency)`
      times. */
  lemma {:induction false} PrintTicksCount(frequency: nat, n: nat)
    requires frequency > 0
    ensures |PrintTicks(frequency, n)| == (n + frequency - 1) / frequency
    decreases n
  {
    if n == 0 {
      DivUnique(frequency - 1, frequency, 0, frequency - 1);
    } else {
      PrintTicksCount(frequency, n - 1);
      DivStep(n - 1, frequency);
    }
  }

  // ---------------------------------------------------------------------
  // The loop shared by `train` and `validate`

  /** The loop both `train` and `validate` run: start the counter at zero,
      fetch the first batch, and while a batch arrives, print when the
      frequency divides the counter, fetch the next batch and count one
      more. */
  method RunBatches<B>(frequency: int, fetched: seq<Option<B>>) returns (r: Result<Pass, Raised>)
    requires Ends(fetched)
    ensures var n := BatchesBeforeNone(fetched);
      if frequency == 0 && n > 0 then r == Failure(Raised(ZeroDivisionError, 0))
      else r == Success(Pass(n, PrintTicks(frequency, n)))
  {
    var n := BatchesBeforeNone(fetched);
    assert n < |fetched|;
    var batchIndex: nat := 0;
    var ticks: seq<nat> := [];
    var batch := fetched[0];
    while batch.Some?
      invariant batchIndex <= n < |fetched|
      invariant batch == fetched[batchIndex]
      invariant ticks == PrintTicks(frequency, batchIndex)
      invariant frequency == 0 ==> batchIndex == 0
      decreases n - batchIndex
    {
      assert batchIndex < n;
      if frequency == 0 {
        return Failure(Raised(ZeroDivisionError, batchIndex));
      }
      if batchIndex % frequency == 0 {
        ticks := ticks + [batchIndex];
      }
      assert ticks == PrintTicks(frequency, batchIndex + 1);
      batch := fetched[batchIndex + 1];
      batchIndex := batchIndex + 1;
    }
    r := Success(Pass(batchIndex, ticks));
  }

  // ---------------------------------------------------------------------
  // `train`

  /** The global step of a training log line: `batch_index + epoch *
      batches + 1`, and the progress line number `batch_index + 1`. */
  function TrainEntry(epoch: int, batches: int, batchIndex: nat): LogEntry {
    LogEntry(batchIndex + epoch * batches + 1, batchIndex + 1)
  }

  /** The batch loop of `train` for epoch `epoch`, where `batches` is
      `len(train_prefetcher)`. */
  method TrainEpoch<B>(epoch: int, batches: int, frequency: int, fetched: seq<Option<B>>)
    returns (r: Result<TrainLog, Raised>)
    requires Ends(fetched)
    ensures var n := BatchesBeforeNone(fetched);
      && (r.Failure? <==> frequency == 0 && n > 0)
      && (r.Failure? ==> r.error == Raised(ZeroDivisionError, 0))
      && (r.Success? ==>
            && r.value.batchIndex == n
            && |r.value.entries| == |PrintTicks(frequency, n)|
            && forall k :: 0 <= k < |r.value.entries| ==>
                 r.value.entries[k] == TrainEntry(epoch, batches, PrintTicks(frequency, n)[k]))
  {
    var pass := RunBatches(frequency, fetched);
    match pass
    case Failure(e) =>
      r := Failure(e);
    case Success(p) =>
      var entries := seq(|p.ticks|, k requires 0 <= k < |p.ticks| => TrainEntry(epoch, batches, p.ticks[k]));
      r := Success(TrainLog(p.batchIndex, entries));
  }

  /** When the loader yields at most `batches` batches, every step of epoch
      `epoch` lies in `[epoch * batches + 1, (epoch + 1) * batches]`. */
  lemma TrainStepsInRange(epoch: int, batches: nat, frequency: int, n: nat, k: nat)
    requires n <= batches && k < |PrintTicks(frequency, n)|
    ensures var step := TrainEntry(epoch, batches, PrintTicks(frequency, n)[k]).step;
      epoch * batches + 1 <= step <= (epoch + 1) * batches
  {
    PrintTicksSpec(frequency, n);
    assert PrintTicks(frequency, n)[k] in PrintTicks(frequency, n);
  }

  /** Steps of a later epoch come after every step of an earlier one, so
      the training curve never steps backwards. */
  lemma TrainStepsOrderedAcrossEpochs(e1: int, e2: int, batches: nat, frequency: int, n1: nat, n2: nat, k1: nat, k2: nat)
    requires e1 < e2 && n1 <= batches && n2 <= batches
    requires k1 < |PrintTicks(frequency, n1)| && k2 < |PrintTicks(frequency, n2)|
    ensures TrainEntry(e1, batches, PrintTicks(frequency, n1)[k1]).step
          < TrainEntry(e2, batches, PrintTicks(frequency, n2)[k2]).step
  {
    TrainStepsInRange(e1, batches, frequency, n1, k1);
    TrainStepsInRange(e2, batches, frequency, n2, k2);
    MulMonotone(e1 + 1, e2, batches);
  }

  // ---------------------------------------------------------------------
  // `validate`

  predicate SupportedMode(mode: string) {
    mode == "Valid" || mode == "Test"
  }

  /** `validate(ema_model, data_prefetcher, epoch, writer, mode)`, where
      `average` is the `acc1.avg` the meter ends with. The mode is checked
      only after the whole batch loop has run. */
  method Validate<B>(epoch: int, frequency: int, fetched: seq<Option<B>>, mode: string, average: real)
    returns (r: Result<Validation, Raised>)
    requires Ends(fetched)
    ensures var n := BatchesBeforeNone(fetched);
      if frequency == 0 && n > 0 then r == Failure(Raised(ZeroDivisionError, 0))
      else if !SupportedMode(mode) then r == Failure(Raised(ValueError, n))
      else
        && r.Success?
        && r.value.batchIndex == n
        && r.value.tag == mode + "/Acc@1"
        && r.value.step == epoch + 1
        && r.value.acc1 == average
        && |r.value.shown| == |PrintTicks(frequency, n)|
        && forall k :: 0 <= k < |r.value.shown| ==> r.value.shown[k] == PrintTicks(frequency, n)[k] + 1
  {
    var pass := RunBatches(frequency, fetched);
    match pass
    case Failure(e) =>
      r := Failure(e);
    case Success(p) =>
      if mode == "Valid" || mode == "Test" {
        var shown := seq(|p.ticks|, k requires 0 <= k < |p.ticks| => p.ticks[k] + 1);
        r := Success(Validation(p.batchIndex, shown, mode + "/Acc@1", epoch + 1, average));
      } else {
        r := Failure(Raised(ValueError, p.batchIndex));
      }
  }
}
