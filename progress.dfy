/** Integer arithmetic of the per-step progress report: where the current step
    lies within its epoch, how many batches are left, and how often a line is
    reported. `globalStep` is the statistics tracker's step counter and
    `batchesPerEpoch` the length of the training loader. */
module Progress {
  import opened Outcomes

  /** Ceiling of a / b. */
  function CeilDiv(a: nat, b: nat): (q: nat)
    requires b > 0
    ensures a <= q * b < a + b
  {
    (a + b - 1) / b
  }

  /** x / b and x % b are the quotient and remainder of any decomposition
      x == q * b + m with 0 <= m < b. */
  lemma DivModOf(x: int, q: int, b: int, m: int)
    requires b > 0 && 0 <= m < b && x == q * b + m
    ensures x / b == q && x % b == m
  {
    var q', m' := x / b, x % b;
    assert x == q' * b + m';
    if q' < q {
      assert (q - q') * b >= b by { MulAtLeast(q - q', b); }
    } else if q' > q {
      assert (q' - q) * b >= b by { MulAtLeast(q' - q, b); }
    }
  }

  lemma MulAtLeast(k: int, b: int)
    requires k >= 1 && b > 0
    ensures k * b >= b
  {
  }

  /** Percentage of the epoch completed, rounded up to a multiple of 10
      (exact arithmetic). It is the least multiple of 10 that is at least
      100 * position / batchesPerEpoch, so it is 0 exactly at an epoch boundary
      and never exceeds 100. */
  function ProgressPercent(globalStep: nat, batchesPerEpoch: nat): (r: nat)
    requires batchesPerEpoch > 0
    ensures r % 10 == 0 && r <= 100
    ensures 100 * (globalStep % batchesPerEpoch) <= r * batchesPerEpoch
              < 100 * (globalStep % batchesPerEpoch) + 10 * batchesPerEpoch
    ensures r == 0 <==> globalStep % batchesPerEpoch == 0
  {
    var pos := globalStep % batchesPerEpoch;
    var q := CeilDiv(10 * pos, batchesPerEpoch);
    TenthsBounds(pos, batchesPerEpoch, q);
    10 * q
  }

  /** The rounded-up number of tenths of a position within an epoch is at most
      10, and 0 only at position 0. */
  lemma TenthsBounds(pos: nat, b: nat, q: nat)
    requires pos < b && 10 * pos <= q * b < 10 * pos + b
    ensures q <= 10 && (q == 0 <==> pos == 0)
    ensures (10 * q) * b == 10 * (q * b)
  {
    if q > 10 {
      MulAtLeast(q - 10, b);
    }
    if q > 0 && pos == 0 {
      MulAtLeast(q, b);
    }
  }

  /** Batches left in the epoch, counting from the current step. */
  function StepsRemaining(globalStep: nat, batchesPerEpoch: nat): (r: nat)
    requires batchesPerEpoch > 0
    ensures 1 <= r <= batchesPerEpoch
    ensures r + globalStep % batchesPerEpoch == batchesPerEpoch
  {
    batchesPerEpoch - globalStep % batchesPerEpoch
  }

  /** The step that completes an epoch. */
  predicate IsEpochEnd(step: nat, batchesPerEpoch: nat)
    requires batchesPerEpoch > 0
  {
    step % batchesPerEpoch == 0
  }

  /** StepsRemaining is the distance to the next epoch end strictly after the
      current step: that step ends an epoch and none between them does. */
  lemma StepsRemainingReachesEpochEnd(globalStep: nat, batchesPerEpoch: nat)
    requires batchesPerEpoch > 0
    ensures IsEpochEnd(globalStep + StepsRemaining(globalStep, batchesPerEpoch), batchesPerEpoch)
    ensures forall s :: globalStep < s < globalStep + StepsRemaining(globalStep, batchesPerEpoch) ==>
              !IsEpochEnd(s, batchesPerEpoch)
  {
    var q, m := globalStep / batchesPerEpoch, globalStep % batchesPerEpoch;
    var r := StepsRemaining(globalStep, batchesPerEpoch);
    assert globalStep == q * batchesPerEpoch + m;
    assert globalStep + r == (q + 1) * batchesPerEpoch + 0;
    DivModOf(globalStep + r, q + 1, batchesPerEpoch, 0);
    forall s | globalStep < s < globalStep + r
      ensures !IsEpochEnd(s, batchesPerEpoch)
    {
      DivModOf(s, q, batchesPerEpoch, m + (s - globalStep));
    }
  }

  /** One tenth of the epoch, rounded down. */
  function ReportEvery(batchesPerEpoch: nat): (r: nat)
    ensures 10 * r <= batchesPerEpoch < 10 * r + 10
    ensures r == 0 <==> batchesPerEpoch < 10
  {
    batchesPerEpoch / 10
  }

  /** Whether the step that has just brought the counter to `globalStep` prints
      a progress line; with fewer than ten batches per epoch the interval is 0
      and the modulo raises. */
  function ReportsStep(globalStep: nat, batchesPerEpoch: nat): (r: Result<bool>)
    ensures r.Err? <==> batchesPerEpoch < 10
    ensures r.Err? ==> r.error == ZeroReportInterval
    ensures r.Ok? ==> (r.value <==> globalStep % ReportEvery(batchesPerEpoch) == 0)
  {
    var every := ReportEvery(batchesPerEpoch);
    if every == 0 then Err(ZeroReportInterval) else Ok(globalStep % every == 0)
  }

  /** Number of reported steps among globalStep + 1 .. globalStep + n. */
  function ReportedAmong(globalStep: nat, n: nat, batchesPerEpoch: nat): nat
    requires batchesPerEpoch >= 10
  {
    if n == 0 then 0
    else ReportedAmong(globalStep, n - 1, batchesPerEpoch)
         + (if ReportsStep(globalStep + n, batchesPerEpoch) == Ok(true) then 1 else 0)
  }

  /** Stepping once past g passes a multiple of `every` exactly when g + 1 is one. */
  lemma DivStep(g: nat, every: nat)
    requires every > 0
    ensures (g + 1) / every == g / every + (if (g + 1) % every == 0 then 1 else 0)
  {
    var q, m := g / every, g % every;
    if m + 1 < every {
      DivModOf(g + 1, q, every, m + 1);
    } else {
      DivModOf(g + 1, q + 1, every, 0);
    }
  }

  /** Reporting cadence: the steps that print a line are exactly the multiples
      of ReportEvery, so n steps from globalStep print as many lines as there
      are multiples in (globalStep, globalStep + n]. */
  lemma {:induction false} ReportedAmongCount(globalStep: nat, n: nat, batchesPerEpoch: nat)
    requires batchesPerEpoch >= 10
    ensures ReportedAmong(globalStep, n, batchesPerEpoch)
              == (globalStep + n) / ReportEvery(batchesPerEpoch) - globalStep / ReportEvery(batchesPerEpoch)
  {
    if n > 0 {
      ReportedAmongCount(globalStep, n - 1, batchesPerEpoch);
      DivStep(globalStep + n - 1, ReportEvery(batchesPerEpoch));
    }
  }

  /** An epoch that starts on a multiple of the reporting interval prints
      batchesPerEpoch / ReportEvery lines. */
  lemma ReportsPerEpoch(globalStep: nat, batchesPerEpoch: nat)
    requires batchesPerEpoch >= 10
    requires globalStep % ReportEvery(batchesPerEpoch) == 0
    ensures ReportedAmong(globalStep, batchesPerEpoch, batchesPerEpoch)
              == batchesPerEpoch / ReportEvery(batchesPerEpoch)
  {
    var every := ReportEvery(batchesPerEpoch);
    ReportedAmongCount(globalStep, batchesPerEpoch, batchesPerEpoch);
    var k := globalStep / every;
    DivModOf(globalStep, k, every, 0);
    DivModOf(globalStep + batchesPerEpoch, k + batchesPerEpoch / every, every, batchesPerEpoch % every);
  }

  /** When the reporting interval divides the epoch, every epoch prints
      batchesPerEpoch / ReportEvery lines wherever it starts: ten for a
      100-batch epoch. */
  lemma ReportsPerEpochAnyStart(globalStep: nat, batchesPerEpoch: nat)
    requires batchesPerEpoch >= 10
    requires batchesPerEpoch % ReportEvery(batchesPerEpoch) == 0
    ensures ReportedAmong(globalStep, batchesPerEpoch, batchesPerEpoch)
              == batchesPerEpoch / ReportEvery(batchesPerEpoch)
    ensures batchesPerEpoch == 100 ==> ReportedAmong(globalStep, batchesPerEpoch, batchesPerEpoch) == 10
  {
    var every := ReportEvery(batchesPerEpoch);
    ReportedAmongCount(globalStep, batchesPerEpoch, batchesPerEpoch);
    var k, m := globalStep / every, globalStep % every;
    DivModOf(globalStep, k, every, m);
    assert batchesPerEpoch == (batchesPerEpoch / every) * every;
    DivModOf(globalStep + batchesPerEpoch, k + batchesPerEpoch / every, every, m);
  }
}
