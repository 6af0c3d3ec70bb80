/** The exact-steps training loop: batches are drawn from endlessly repeated epochs. */
module BatchCycle {
  import opened Common

  lemma Times(a: nat, b: nat)
    ensures a * b >= 0
  {
  }

  lemma Scale(a: int, b: int, m: nat)
    requires a <= b
    ensures a * m <= b * m
  {
  }

  /** Batches in one epoch; the last one may be short. */
  function EpochBatches(size: Positive, batch: Positive): (e: Positive)
    ensures (e - 1) * batch < size <= e * batch
  {
    var e := (size + batch - 1) / batch;
    assert size + batch - 1 == e * batch + (size + batch - 1) % batch;
    e
  }

  /** Samples in batch number `j` of the endless stream. */
  function BatchSize(size: Positive, batch: Positive, j: nat): nat {
    var k := j % EpochBatches(size, batch);
    if (k + 1) * batch <= size then batch else if k * batch <= size then size - k * batch else 0
  }

  /** Samples in the first `steps` batches of the stream. */
  function Processed(size: Positive, batch: Positive, steps: nat): nat {
    if steps == 0 then 0 else Processed(size, batch, steps - 1) + BatchSize(size, batch, steps - 1)
  }

  /** The count the validators expect, without walking through the batches. */
  function ExpectedExamples(size: Positive, batch: Positive, steps: nat): nat {
    var e := EpochBatches(size, batch);
    Count(size, batch, steps / e, steps % e)
  }

  /** `q` whole epochs and `k` batches of the next. */
  function Count(size: Positive, batch: Positive, q: nat, k: nat): nat {
    Times(q, size);
    Times(k, batch);
    q * size + (if k * batch <= size then k * batch else size)
  }

  lemma DivModIs(e: Positive, q: nat, k: nat, n: nat)
    requires k < e && n == q * e + k
    ensures n / e == q && n % e == k
  {
    var q', k' := n / e, n % e;
    assert n == q' * e + k';
    assert (q' - q) * e == k - k';
    if q' < q {
      Scale(q' - q, -1, e);
    } else if q' > q {
      Scale(1, q' - q, e);
    }
  }

  lemma Position(e: Positive, j: nat)
    ensures var q, k := j / e, j % e;
            if k + 1 < e then (j + 1) / e == q && (j + 1) % e == k + 1 else (j + 1) / e == q + 1 && (j + 1) % e == 0
  {
    var q, k := j / e, j % e;
    assert j == q * e + k;
    if k + 1 < e {
      DivModIs(e, q, k + 1, j + 1);
    } else {
      assert j + 1 == (q + 1) * e;
      DivModIs(e, q + 1, 0, j + 1);
    }
  }

  lemma Below(k: nat, e: Positive, batch: Positive, size: Positive)
    requires k < e && (e - 1) * batch < size
    ensures k * batch < size
  {
    Scale(k, e - 1, batch);
  }

  /** Batch `k` of an epoch takes the count from `k` batches to `k + 1`, or to the next epoch. */
  lemma CountNext(size: Positive, batch: Positive, q: nat, k: nat)
    requires k < EpochBatches(size, batch)
    ensures var e := EpochBatches(size, batch);
            var count := if (k + 1) * batch <= size then batch else size - k * batch;
            Count(size, batch, q, k) + count == if k + 1 < e then Count(size, batch, q, k + 1)
                  else Count(size, batch, q + 1, 0)
  {
    var e := EpochBatches(size, batch);
    Below(k, e, batch, size);
    assert (k + 1) * batch == k * batch + batch;
    if k + 1 < e {
      Below(k + 1, e, batch, size);
    } else {
      assert (q + 1) * size == q * size + size;
    }
  }

  lemma CountNothing(size: Positive, batch: Positive)
    ensures Count(size, batch, 0, 0) == 0
  {
  }

  lemma NextBatch(size: Positive, batch: Positive, q: nat, k: nat, j: nat)
    requires k < EpochBatches(size, batch) && k == j % EpochBatches(size, batch)
    ensures var e := EpochBatches(size, batch);
            Count(size, batch, q, k) + BatchSize(size, batch, j) == if k + 1 < e then Count(size, batch, q, k + 1)
                  else Count(size, batch, q + 1, 0)
  {
    CountNext(size, batch, q, k);
    Below(k, EpochBatches(size, batch), batch, size);
    hide Count;
  }

  /** The batches of any number of steps add up to the closed form. */
  lemma {:induction false} ProcessedClosedForm(size: Positive, batch: Positive, steps: nat)
    ensures Processed(size, batch, steps) == ExpectedExamples(size, batch, steps)
  {
    hide Count, EpochBatches, BatchSize;
    var e := EpochBatches(size, batch);
    if steps == 0 {
      DivModIs(e, 0, 0, 0);
      CountNothing(size, batch);
    } else {
      var j := steps - 1;
      ProcessedClosedForm(size, batch, j);
      Position(e, j);
      NextBatch(size, batch, j / e, j % e, j);
    }
  }

  datatype Trained = Trained(examples: nat, batches: nat) | RefusedSteps

  /** The training loop of a client: it draws `steps` batches, starting over after each epoch. */
  method TrainClient(size: Positive, batch: Positive, steps: int) returns (r: Trained)
    ensures r.RefusedSteps? <==> steps < 1
    ensures r.Trained? ==> r.batches == steps && r.examples == ExpectedExamples(size, batch, steps) && r.examples > 0
  {
    if steps < 1 {
      return RefusedSteps;
    }
    var e := EpochBatches(size, batch);
    var counts, batches, k := 0, 0, 0;
    while batches < steps
      invariant 0 <= batches <= steps
      invariant k == batches % e
      invariant counts == Processed(size, batch, batches)
      invariant batches > 0 ==> counts > 0
    {
      Position(e, batches);
      Below(k, e, batch, size);
      var count := if (k + 1) * batch <= size then batch else size - k * batch;
      counts := counts + count;
      batches := batches + 1;
      k := if k + 1 == e then 0 else k + 1;
    }
    ProcessedClosedForm(size, batch, steps);
    r := Trained(counts, batches);
  }
}
