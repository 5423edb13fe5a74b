/**
 * The cursor of create_data_generator (classifier_model_creator.py:109-134).
 * After each batch the start index moves on by one batch and goes back to
 * absolute index 0 as soon as the next batch would pass the end bound (the
 * parameter the source calls `cutoff`). The reset target is 0 whatever the
 * generator's initial start was, and the first batch is taken before any bound
 * is checked.
 */
module Cursor {
  /** The update of lines 132-134. */
  function Advance(start: nat, batch: nat, end: nat): (next: nat)
    ensures next == 0 || next + batch <= end
    ensures next == 0 || next == start + batch
    ensures start + batch + batch <= end ==> next == start + batch
  {
    if start + batch + batch > end then 0 else start + batch
  }

  /** The start index of the n-th batch (counting from 0) of a generator created with `initial`. */
  function CursorAfter(initial: nat, batch: nat, end: nat, n: nat): (start: nat)
    ensures n == 0 ==> start == initial
    ensures n > 0 ==> start == 0 || start + batch <= end
  {
    if n == 0 then initial else Advance(CursorAfter(initial, batch, end, n - 1), batch, end)
  }

  /** The number of whole batches between 0 and `end`: one cycle of a generator that starts at 0. */
  function Period(batch: nat, end: nat): (p: nat)
    requires 0 < batch <= end
    ensures 1 <= p && p * batch <= end < (p + 1) * batch
  {
    end / batch
  }

  lemma MulStep(x: nat, b: nat)
    ensures (x + 1) * b == x * b + b
  {
  }

  lemma MulMonotone(x: nat, y: nat, b: nat)
    requires x <= y
    ensures x * b <= y * b
  {
  }

  /** Running n + m steps is running n steps and then m more from where they left the cursor. */
  lemma {:induction false} CursorCompose(initial: nat, batch: nat, end: nat, n: nat, m: nat)
    ensures CursorAfter(initial, batch, end, n + m) == CursorAfter(CursorAfter(initial, batch, end, n), batch, end, m)
  {
    if m > 0 {
      CursorCompose(initial, batch, end, n, m - 1);
    }
  }

  /** From start 0 the cursor visits 0, b, 2b, ... (P-1)b and is back at 0 after P = end / b steps. */
  lemma {:induction false} FirstCycle(batch: nat, end: nat, j: nat)
    requires 0 < batch <= end
    requires j <= Period(batch, end)
    ensures CursorAfter(0, batch, end, j) == if j == Period(batch, end) then 0 else j * batch
  {
    var p := Period(batch, end);
    if j > 0 {
      FirstCycle(batch, end, j - 1);
      var c := (j - 1) * batch;
      assert CursorAfter(0, batch, end, j - 1) == c;
      MulStep(j - 1, batch);
      MulStep(j, batch);
      assert c + batch + batch == (j + 1) * batch;
      if j < p {
        MulMonotone(j + 1, p, batch);
      }
    }
  }

  /** Every epoch of P steps replays the same cursors: step epoch * P + j starts at j * batch. */
  lemma {:induction false} CursorCycle(batch: nat, end: nat, epoch: nat, j: nat)
    requires 0 < batch <= end
    requires j < Period(batch, end)
    ensures CursorAfter(0, batch, end, epoch * Period(batch, end) + j) == j * batch
  {
    var p := Period(batch, end);
    if epoch == 0 {
      FirstCycle(batch, end, j);
    } else {
      assert epoch * p + j == p + ((epoch - 1) * p + j);
      CursorCompose(0, batch, end, p, (epoch - 1) * p + j);
      FirstCycle(batch, end, p);
      CursorCycle(batch, end, epoch - 1, j);
    }
  }

  /**
   * A generator starting at 0 only ever reads indices below P * batch, a whole
   * number of batches: indices P * batch .. end - 1 are never read, on any cycle.
   */
  lemma TailNeverRead(batch: nat, end: nat, n: nat)
    requires 0 < batch <= end
    ensures CursorAfter(0, batch, end, n) + batch <= Period(batch, end) * batch
    ensures CursorAfter(0, batch, end, n) == (n % Period(batch, end)) * batch
  {
    var p := Period(batch, end);
    var q, j := n / p, n % p;
    assert n == q * p + j;
    CursorCycle(batch, end, q, j);
    MulStep(j, batch);
    MulMonotone(j + 1, p, batch);
  }

  /** Each index below P * batch is read by one batch of every cycle: batch i / batch of the first. */
  lemma EveryHeadIndexRead(batch: nat, end: nat, i: nat)
    requires 0 < batch <= end
    requires i < Period(batch, end) * batch
    ensures CursorAfter(0, batch, end, i / batch) <= i < CursorAfter(0, batch, end, i / batch) + batch
  {
    var p := Period(batch, end);
    var j := i / batch;
    if p <= j {
      MulMonotone(p, j, batch);
    }
    FirstCycle(batch, end, j);
    assert j * batch <= i < j * batch + batch;
  }

  /** For end 100 and batch 32 the cursor runs 0, 32, 64, 0, ... and records 96..99 are never read. */
  lemma Example100By32(n: nat)
    ensures CursorAfter(0, 32, 100, 1) == 32
    ensures CursorAfter(0, 32, 100, 2) == 64
    ensures CursorAfter(0, 32, 100, 3) == 0
    ensures CursorAfter(0, 32, 100, n) in {0, 32, 64}
    ensures CursorAfter(0, 32, 100, n) + 32 <= 96
  {
  }

  /**
   * Any start, including the validation generator's start at the cut-off,
   * moves forward one batch at a time and then falls back to absolute index 0,
   * not to where it began.
   */
  lemma {:induction false} WalksThenWraps(initial: nat, batch: nat, end: nat) returns (n: nat)
    requires 0 < batch
    ensures n >= 1
    ensures CursorAfter(initial, batch, end, n) == 0
    ensures forall m :: 0 <= m < n ==> CursorAfter(initial, batch, end, m) == initial + m * batch
    decreases end - initial
  {
    var next := Advance(initial, batch, end);
    if next == 0 {
      n := 1;
    } else {
      var rest := WalksThenWraps(next, batch, end);
      n := rest + 1;
      CursorCompose(initial, batch, end, 1, rest);
      forall m | 0 <= m < n
        ensures CursorAfter(initial, batch, end, m) == initial + m * batch
      {
        if m > 0 {
          CursorCompose(initial, batch, end, 1, m - 1);
          assert initial + m * batch == next + (m - 1) * batch;
        }
      }
    }
  }
}
