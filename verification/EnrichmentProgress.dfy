/** Progress of an enrichment job: how far the processed count and the published percents can go, and
    in which order the percents appear. */
module EnrichmentProgress {
  import opened Sums
  import opened EnrichmentProtocol
  import opened EnrichmentInvariant
  import opened EnrichmentRuns

  // ---------------------------------------------------------------------------------------
  // Percentages
  // ---------------------------------------------------------------------------------------

  lemma ScaleUp(x: int, y: int, d: nat)
    requires x <= y
    ensures x * d <= y * d
  {
  }

  lemma PercentMonotone(p: nat, q: nat, total: nat)
    requires p <= q
    ensures Percent(p, total) <= Percent(q, total)
  {
    if Percent(p, total) > Percent(q, total) {
      ScaleUp(Percent(q, total) + 1, Percent(p, total), total);
      assert false;
    }
  }

  lemma PercentBounded(processed: nat, total: nat)
    requires processed <= total
    ensures 0 <= Percent(processed, total) <= 100
  {
    if total > 0 {
      assert processed * 100 <= total * 100;
      assert total * 100 / total == 100;
    }
  }

  function PercentOf(s: State): int {
    Percent(s.job.counters.processed, s.job.totalArticles)
  }

  /** No step lowers the percentage of the job row. */
  lemma PercentNeverDrops(s: State, step: Step)
    requires Enabled(s, step)
    ensures PercentOf(s) <= PercentOf(Next(s, step))
  {
    PercentMonotone(s.job.counters.processed, Next(s, step).job.counters.processed, s.job.totalArticles);
  }

  // ---------------------------------------------------------------------------------------
  // The processed count
  // ---------------------------------------------------------------------------------------

  function Value(): nat -> int {
    (n: nat) => n
  }

  /** Completed rows hold answers within their limits. */
  predicate RowsWithin(rows: seq<BatchRow>, limits: seq<nat>) {
    && |limits| == |rows|
    && forall b :: 0 <= b < |rows| && rows[b].status == Completed ==> |rows[b].named| <= limits[b]
  }

  lemma {:induction false} RowsHold(rows: seq<BatchRow>, limits: seq<nat>)
    requires RowsWithin(rows, limits)
    ensures Sum(rows, Accounted(ProcessedCount)) <= Sum(limits, Value())
  {
    if rows != [] {
      var n := |rows| - 1;
      RowsHold(rows[..n], limits[..n]);
    }
  }

  lemma StepKeepsWithin(s: State, step: Step, limits: seq<nat>)
    requires RowsWithin(s.rows, limits) && Enabled(s, step) && AnswerWithin(s, step, limits)
    ensures RowsWithin(Next(s, step).rows, limits)
    ensures Next(s, step).job.totalArticles == s.job.totalArticles
  {
    hide Percent, Verdict, FreshTickets;
  }

  lemma {:induction false} RunKeepsWithin(s: State, steps: seq<Step>, t: State, limits: seq<nat>)
    requires Inv(s) && RowsWithin(s.rows, limits)
    requires Run(s, steps, t) && AnswersWithin(s, steps, t, limits)
    ensures Inv(t) && RowsWithin(t.rows, limits)
    ensures t.job.totalArticles == s.job.totalArticles
    decreases |steps|
  {
    hide Inv, RowsWithin, AnswerWithin, Enabled, Next;
    if steps != [] {
      StepKeepsInv(s, steps[0]);
      StepKeepsWithin(s, steps[0], limits);
      RunKeepsWithin(Next(s, steps[0]), steps[1..], t, limits);
    }
  }

  lemma ProcessedWithin(s: State, limits: seq<nat>)
    requires Inv(s) && RowsWithin(s.rows, limits)
    ensures s.job.counters.processed <= Sum(limits, Value())
  {
    SumNonNegative(s.tickets, InFlight(ProcessedCount));
    RowsHold(s.rows, limits);
    assert Pick(s.job.counters, ProcessedCount) + Sum(s.tickets, InFlight(ProcessedCount))
           == Sum(s.rows, Accounted(ProcessedCount));
  }

  /** The first k batches are answered with as many ids as their limits allow, the others are untouched. */
  predicate AnsweredUpTo(s: State, limits: seq<nat>, k: nat) {
    && |s.rows| == |s.tickets| == |limits| && k <= |limits|
    && s.job.counters.processed == Sum(limits[..k], Value())
    && forall b :: k <= b < |limits| ==> s.tickets[b].batch == b && s.tickets[b].phase == ToEnqueue
  }

  function SomeIds(n: nat): (ids: seq<string>)
    ensures |ids| == n
  {
    seq(n, _ => "id")
  }

  lemma AnswerOneMore(s: State, limits: seq<nat>, k: nat)
    requires AnsweredUpTo(s, limits, k) && k < |limits|
    ensures AnsweredUpTo(Answered(s, k, SomeIds(limits[k])), limits, k + 1)
  {
    hide Percent;
    SumAppend(limits[..k], limits[k], Value());
    assert limits[..k + 1] == limits[..k] + [limits[k]];
  }

  lemma {:induction false} AnswerInFull(batches: seq<seq<string>>, totalArticles: nat, limits: seq<nat>, k: nat)
    returns (t: State)
    requires |limits| == |batches| && k <= |limits|
    ensures Reaches(Planned(batches, totalArticles), t, limits)
    ensures AnsweredUpTo(t, limits, k)
  {
    if k == 0 {
      t := Planned(batches, totalArticles);
      ReachesSelf(t, limits);
    } else {
      hide Reaches, Planned, Answered;
      var m := AnswerInFull(batches, totalArticles, limits, k - 1);
      Answer(Planned(batches, totalArticles), m, k - 1, SomeIds(limits[k - 1]), limits);
      AnswerOneMore(m, limits, k - 1);
      t := Answered(m, k - 1, SomeIds(limits[k - 1]));
    }
  }

  /** The most that runs with answers within the limits can count is the sum of the limits, and some
      run counts that much, resets or not. */
  lemma ProcessedIsAtMostTheLimits(batches: seq<seq<string>>, totalArticles: nat, limits: seq<nat>)
    requires batches != [] && |limits| == |batches|
    ensures forall t :: Reaches(Planned(batches, totalArticles), t, limits) ==>
              t.job.counters.processed <= Sum(limits, Value())
    ensures exists t :: Reaches(Planned(batches, totalArticles), t, limits)
                        && t.job.counters.processed == Sum(limits, Value())
  {
    var s := Planned(batches, totalArticles);
    PlannedInv(batches, totalArticles);
    forall t | Reaches(s, t, limits) ensures t.job.counters.processed <= Sum(limits, Value()) {
      var steps :| Run(s, steps, t) && AnswersWithin(s, steps, t, limits);
      RunKeepsWithin(s, steps, t, limits);
      ProcessedWithin(t, limits);
    }
    hide Reaches, Planned, Inv;
    var t := AnswerInFull(batches, totalArticles, limits, |limits|);
    assert limits[..|limits|] == limits;
  }

  function Sizes(batches: seq<seq<string>>): (sizes: seq<nat>)
    ensures |sizes| == |batches| && forall b :: 0 <= b < |batches| ==> sizes[b] == |batches[b]|
  {
    seq(|batches|, b requires 0 <= b < |batches| => |batches[b]|)
  }

  lemma {:induction false} SumsCompare(xs: seq<nat>, ys: seq<nat>)
    requires |xs| == |ys| && forall b :: 0 <= b < |xs| ==> xs[b] <= ys[b]
    ensures Sum(xs, Value()) <= Sum(ys, Value())
    ensures Sum(ys, Value()) <= Sum(xs, Value()) <==> xs == ys
  {
    if xs != [] {
      var n := |xs| - 1;
      SumsCompare(xs[..n], ys[..n]);
      if Sum(ys, Value()) <= Sum(xs, Value()) {
        assert xs[..n] == ys[..n] && xs[n] == ys[n];
        assert xs == xs[..n] + [xs[n]] && ys == ys[..n] + [ys[n]];
      }
    }
  }

  /** For a job whose batches hold all its articles, and limits that let every batch be answered in full:
      the processed count stays within the articles in every run if and only if no batch accepts an
      answer with more entries than it has articles. */
  lemma BoundedIffAnswersFit(batches: seq<seq<string>>, totalArticles: nat, limits: seq<nat>)
    requires batches != [] && Sum(Sizes(batches), Value()) == totalArticles
    requires |limits| == |batches| && forall b :: 0 <= b < |batches| ==> |batches[b]| <= limits[b]
    ensures (forall t :: Reaches(Planned(batches, totalArticles), t, limits) ==>
               t.job.counters.processed <= t.job.totalArticles)
            <==> forall b :: 0 <= b < |batches| ==> limits[b] <= |batches[b]|
  {
    ProcessedIsAtMostTheLimits(batches, totalArticles, limits);
    SumsCompare(Sizes(batches), limits);
    forall t | Reaches(Planned(batches, totalArticles), t, limits) ensures t.job.totalArticles == totalArticles {
      SameTotal(batches, totalArticles, t, limits);
    }
    hide Reaches, Planned, Sum;
    if forall b :: 0 <= b < |batches| ==> limits[b] <= |batches[b]| {
      assert limits == Sizes(batches);
    }
  }

  lemma SameTotal(batches: seq<seq<string>>, totalArticles: nat, t: State, limits: seq<nat>)
    requires batches != [] && |limits| == |batches| && Reaches(Planned(batches, totalArticles), t, limits)
    ensures t.job.totalArticles == totalArticles
  {
    PlannedInv(batches, totalArticles);
    var s := Planned(batches, totalArticles);
    var steps :| Run(s, steps, t) && AnswersWithin(s, steps, t, limits);
    RunKeepsWithin(s, steps, t, limits);
  }

  // ---------------------------------------------------------------------------------------
  // The bound on what is published
  // ---------------------------------------------------------------------------------------

  /** Percents in the log and percents still to be published lie between 0 and the job's own. */
  predicate PercentsBelow(s: State) {
    && 0 <= PercentOf(s)
    && (forall k :: 0 <= k < |s.progress| ==> 0 <= s.progress[k] <= PercentOf(s))
    && forall i :: 0 <= i < |s.tickets| && s.tickets[i].phase.Counted? ==>
         0 <= s.tickets[i].phase.percent <= PercentOf(s)
  }

  lemma {:induction false} FreshTicketsWait(rows: seq<BatchRow>)
    ensures forall t :: t in FreshTickets(rows) ==> t.phase == ToEnqueue
  {
    if rows != [] {
      FreshTicketsWait(rows[..|rows| - 1]);
    }
  }

  /** The only tickets a step leaves counted are those that were and the one it counts. */
  lemma CountedTickets(s: State, step: Step)
    requires Enabled(s, step)
    ensures var s' := Next(s, step);
            && |s.tickets| <= |s'.tickets|
            && (forall i :: 0 <= i < |s'.tickets| && s'.tickets[i].phase.Counted? ==>
                  i < |s.tickets| && (s'.tickets[i].phase == s.tickets[i].phase || step == Count(i)))
            && (forall i :: 0 <= i < |s.tickets| && s.tickets[i].phase.Counted? && step != Publish(i) ==>
                  s'.tickets[i] == s.tickets[i])
            && s'.progress == s.progress + (if step.Publish? then [s.tickets[step.i].phase.percent] else [])
            && (step.Publish? ==> !s'.tickets[step.i].phase.Counted?)
            && (step.Count? ==> s'.tickets[step.i].phase.percent == PercentOf(s'))
            && PercentOf(s) <= PercentOf(s')
  {
    FreshTicketsWait(s.rows);
    PercentNeverDrops(s, step);
    hide Percent, ResetRows;
  }

  lemma StepKeepsBelow(s: State, step: Step)
    requires PercentsBelow(s) && Enabled(s, step)
    ensures PercentsBelow(Next(s, step))
  {
    CountedTickets(s, step);
    hide Next, PercentOf;
  }

  lemma {:induction false} RunKeepsBelow(s: State, steps: seq<Step>, t: State)
    requires PercentsBelow(s) && Run(s, steps, t)
    ensures PercentsBelow(t)
    decreases |steps|
  {
    if steps != [] {
      hide PercentsBelow, Next, Enabled;
      StepKeepsBelow(s, steps[0]);
      RunKeepsBelow(Next(s, steps[0]), steps[1..], t);
    }
  }

  /** If the batches hold all articles and no answer has more entries than its batch has articles, then in
      every reachable state the processed count stays within the articles and no published percent leaves
      0 to 100. */
  lemma ProgressBounded(batches: seq<seq<string>>, totalArticles: nat, steps: seq<Step>, t: State)
    requires batches != [] && Sum(Sizes(batches), Value()) == totalArticles
    requires Run(Planned(batches, totalArticles), steps, t)
    requires AnswersWithin(Planned(batches, totalArticles), steps, t, Sizes(batches))
    ensures t.job.counters.processed <= totalArticles && 0 <= PercentOf(t) <= 100
    ensures forall k :: 0 <= k < |t.progress| ==> 0 <= t.progress[k] <= 100
  {
    var s := Planned(batches, totalArticles);
    PlannedInv(batches, totalArticles);
    PlannedAscends(batches, totalArticles);
    hide Planned, Run, AnswersWithin, Inv, Percent, PlannedRows, FirstTickets;
    RunKeepsBelow(s, steps, t);
    RunKeepsWithin(s, steps, t, Sizes(batches));
    ProcessedWithin(t, Sizes(batches));
    PercentBounded(t.job.counters.processed, totalArticles);
  }

  predicate NoRepeats(xs: seq<string>) {
    forall i, j :: 0 <= i < j < |xs| ==> xs[i] != xs[j]
  }

  lemma {:induction false} NoRepeatsCard(xs: seq<string>)
    requires NoRepeats(xs)
    ensures |set x | x in xs| == |xs|
  {
    if xs != [] {
      var n := |xs| - 1;
      NoRepeatsCard(xs[..n]);
      assert (set x | x in xs) == (set x | x in xs[..n]) + {xs[n]};
    }
  }

  lemma {:induction false} CardAtMost(xs: seq<string>)
    ensures |set x | x in xs| <= |xs|
  {
    if xs != [] {
      var n := |xs| - 1;
      CardAtMost(xs[..n]);
      assert (set x | x in xs) == (set x | x in xs[..n]) + {xs[n]};
    }
  }

  /** An answer that names articles of its own batch, each at most once, fits. */
  lemma {:induction false} OwnArticlesFit(named: seq<string>, articleIds: seq<string>)
    requires NoRepeats(named) && forall x :: x in named ==> x in articleIds
    ensures |named| <= |articleIds|
  {
    var ids := set x | x in articleIds;
    NoRepeatsCard(named);
    assert (set x | x in named) <= ids;
    assert ids == (set x | x in named) + (ids - (set x | x in named));
    CardAtMost(articleIds);
  }

  // ---------------------------------------------------------------------------------------
  // The order of what is published
  // ---------------------------------------------------------------------------------------

  predicate Ascending(xs: seq<int>) {
    forall i, j :: 0 <= i < j < |xs| ==> xs[i] <= xs[j]
  }

  /** A worker that publishes leaves behind no counted batch with a smaller percent. */
  predicate OvertakesNone(s: State, step: Step)
    requires Enabled(s, step)
  {
    step.Publish? ==>
      forall j :: 0 <= j < |s.tickets| && s.tickets[j].phase.Counted? ==>
        s.tickets[step.i].phase.percent <= s.tickets[j].phase.percent
  }

  predicate NobodyOvertakes(s: State, steps: seq<Step>, t: State)
    requires Run(s, steps, t)
    decreases |steps|
  {
    steps == [] || (OvertakesNone(s, steps[0]) && NobodyOvertakes(Next(s, steps[0]), steps[1..], t))
  }

  /** The log ascends, and what is still to be published lies above it. */
  predicate LogAscends(s: State) {
    && Ascending(s.progress)
    && PercentsBelow(s)
    && forall k, i :: 0 <= k < |s.progress| && 0 <= i < |s.tickets| && s.tickets[i].phase.Counted? ==>
         s.progress[k] <= s.tickets[i].phase.percent
  }

  lemma PlannedAscends(batches: seq<seq<string>>, totalArticles: nat)
    ensures LogAscends(Planned(batches, totalArticles))
    ensures RowsWithin(Planned(batches, totalArticles).rows, Sizes(batches))
    ensures Planned(batches, totalArticles).job.totalArticles == totalArticles
  {
  }

  lemma StepKeepsAscending(s: State, step: Step)
    requires LogAscends(s) && Enabled(s, step) && OvertakesNone(s, step)
    ensures LogAscends(Next(s, step))
  {
    CountedTickets(s, step);
    StepKeepsBelow(s, step);
    hide Next, PercentOf;
  }

  lemma {:induction false} RunKeepsAscending(s: State, steps: seq<Step>, t: State)
    requires LogAscends(s) && Run(s, steps, t) && NobodyOvertakes(s, steps, t)
    ensures LogAscends(t)
    decreases |steps|
  {
    if steps != [] {
      hide LogAscends, Next, Enabled, OvertakesNone;
      StepKeepsAscending(s, steps[0]);
      RunKeepsAscending(Next(s, steps[0]), steps[1..], t);
    }
  }

  lemma {:induction false} LogOnlyGrows(s: State, steps: seq<Step>, t: State)
    requires Run(s, steps, t)
    ensures s.progress <= t.progress
    decreases |steps|
  {
    if steps != [] {
      CountedTickets(s, steps[0]);
      hide Next, Enabled;
      LogOnlyGrows(Next(s, steps[0]), steps[1..], t);
    }
  }

  /** A counted percent is published before the run drains. */
  lemma {:induction false} CountedIsPublished(s: State, steps: seq<Step>, t: State, i: nat) returns (k: nat)
    requires Run(s, steps, t) && Drained(t) && i < |s.tickets| && s.tickets[i].phase.Counted?
    ensures |s.progress| <= k < |t.progress| && t.progress[k] == s.tickets[i].phase.percent
    decreases |steps|
  {
    CountedTickets(s, steps[0]);
    hide Next, Enabled;
    var m := Next(s, steps[0]);
    if steps[0] == Publish(i) {
      k := |s.progress|;
      LogOnlyGrows(m, steps[1..], t);
    } else {
      k := CountedIsPublished(m, steps[1..], t, i);
    }
  }

  lemma OvertakingShows(s: State, steps: seq<Step>, t: State)
    requires Run(s, steps, t) && Drained(t) && steps != [] && !OvertakesNone(s, steps[0])
    ensures !Ascending(t.progress)
  {
    var i: nat, j: nat :| steps[0] == Publish(i) && j < |s.tickets| && s.tickets[j].phase.Counted?
                && s.tickets[i].phase.percent > s.tickets[j].phase.percent;
    CountedTickets(s, steps[0]);
    hide Next, Enabled, Ascending;
    var m := Next(s, steps[0]);
    var k := CountedIsPublished(m, steps[1..], t, j);
    LogOnlyGrows(m, steps[1..], t);
    assert t.progress[|s.progress|] == s.tickets[i].phase.percent > t.progress[k];
    NotAscending(t.progress, |s.progress|, k);
  }

  lemma NotAscending(xs: seq<int>, i: nat, j: nat)
    requires i < j < |xs| && xs[i] > xs[j]
    ensures !Ascending(xs)
  {
  }

  lemma {:induction false} AscendingMeansOrder(s: State, steps: seq<Step>, t: State)
    requires Run(s, steps, t) && Drained(t) && Ascending(t.progress)
    ensures NobodyOvertakes(s, steps, t)
    decreases |steps|
  {
    if steps != [] {
      if !OvertakesNone(s, steps[0]) {
        OvertakingShows(s, steps, t);
      }
      hide Next, Enabled, OvertakesNone, Ascending, Drained;
      AscendingMeansOrder(Next(s, steps[0]), steps[1..], t);
    }
  }

  /** Once a job has come to rest, the percents it published ascend if and only if no worker ever
      published past a counted batch with a smaller percent. */
  lemma LogAscendsIffNobodyOvertakes(batches: seq<seq<string>>, totalArticles: nat, steps: seq<Step>, t: State)
    requires Run(Planned(batches, totalArticles), steps, t) && Drained(t)
    ensures Ascending(t.progress) <==> NobodyOvertakes(Planned(batches, totalArticles), steps, t)
  {
    var s := Planned(batches, totalArticles);
    PlannedAscends(batches, totalArticles);
    hide Planned, Run, Drained;
    if NobodyOvertakes(s, steps, t) {
      RunKeepsAscending(s, steps, t);
    } else if Ascending(t.progress) {
      AscendingMeansOrder(s, steps, t);
    }
  }
}
