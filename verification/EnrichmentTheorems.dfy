/** The promises of the enrichment job protocol, over all runs. */
module EnrichmentTheorems {
  import opened Sums
  import opened EnrichmentProtocol
  import opened EnrichmentInvariant

  // ---------------------------------------------------------------------------------------
  // What a verdict says
  // ---------------------------------------------------------------------------------------

  lemma {:induction false} FailedCount(rows: seq<BatchRow>)
    ensures 0 <= Sum(rows, FailedOne) <= |rows|
    ensures Sum(rows, FailedOne) == 0 <==> forall b :: 0 <= b < |rows| ==> rows[b].status != Failed
    ensures Sum(rows, FailedOne) == |rows| <==> forall b :: 0 <= b < |rows| ==> rows[b].status == Failed
  {
    if rows != [] {
      var n := |rows| - 1;
      FailedCount(rows[..n]);
      if Sum(rows, FailedOne) == 0 {
        forall b | 0 <= b < |rows| ensures rows[b].status != Failed {
          if b < n { assert rows[..n][b].status != Failed; }
        }
      }
      if Sum(rows, FailedOne) == |rows| {
        forall b | 0 <= b < |rows| ensures rows[b].status == Failed {
          if b < n { assert rows[..n][b].status == Failed; }
        }
      }
    }
  }

  /** Once every batch is finished: completed, failed or partial exactly as none, all or some failed. */
  lemma VerdictClassifies(rows: seq<BatchRow>)
    requires rows != [] && AllTerminal(rows)
    ensures Verdict(rows) == JobCompleted <==> forall b :: 0 <= b < |rows| ==> rows[b].status == Completed
    ensures Verdict(rows) == JobFailed <==> forall b :: 0 <= b < |rows| ==> rows[b].status == Failed
    ensures Verdict(rows) == JobPartial <==>
            exists b, b' :: 0 <= b < |rows| && 0 <= b' < |rows| && rows[b].status == Completed && rows[b'].status == Failed
  {
    FailedCount(rows);
    if Verdict(rows) == JobPartial {
      var b :| 0 <= b < |rows| && rows[b].status != Failed;
      var b' :| 0 <= b' < |rows| && rows[b'].status == Failed;
      assert rows[b].status == Completed;
    }
  }

  lemma NoneOpen(rows: seq<BatchRow>)
    requires Sum(rows, Open()) == 0
    ensures AllTerminal(rows)
  {
    SumNonNegative(rows, Open());
    forall b | 0 <= b < |rows| ensures Terminal(rows[b].status) {
      assert rows[b] in rows;
    }
  }

  lemma DrainedSums(s: State)
    requires Inv(s) && Drained(s)
    ensures Sum(s.rows, Open()) == Sum(s.tickets, Uncounted()) == Sum(s.tickets, Closing()) == 0
    ensures forall c: Counter :: Sum(s.tickets, InFlight(c)) == 0
  {
    SumZero(s.tickets, Uncounted());
    SumZero(s.tickets, Closing());
    forall c: Counter ensures Sum(s.tickets, InFlight(c)) == 0 {
      SumZero(s.tickets, InFlight(c));
    }
    forall row | row in s.rows ensures Open()(row) == 0 {
      var b: nat :| b < |s.rows| && s.rows[b] == row;
      SumZero(s.tickets, OwnerOf(b));
    }
    SumZero(s.rows, Open());
  }

  // ---------------------------------------------------------------------------------------
  // The finalizer
  // ---------------------------------------------------------------------------------------

  /** With no batch reset, a run that drains finalizes exactly once, with every batch finished. */
  lemma FinalizesExactlyOnce(batches: seq<seq<string>>, totalArticles: nat, steps: seq<Step>, t: State)
    requires batches != [] && Run(Planned(batches, totalArticles), steps, t)
    requires Drained(t) && t.resets == 0
    ensures t.verdicts == [Verdict(t.rows)] && t.job.status == Verdict(t.rows)
    ensures AllTerminal(t.rows)
    ensures t.job.batchesCompleted == t.job.batchCount == |t.rows| == |batches|
  {
    PlannedInv(batches, totalArticles);
    RunKeepsInv(Planned(batches, totalArticles), steps, t);
    DrainedSums(t);
    NoneOpen(t.rows);
    RunKeepsShape(Planned(batches, totalArticles), steps, t);
  }

  /** With no batch reset, whoever is about to run finalizeJob sees only finished batches,
      and nothing can change them any more: no ticket owns a batch. */
  lemma FinalizerSeesFinishedBatches(s: State, i: nat)
    requires Inv(s) && s.resets == 0 && Enabled(s, Finalize(i))
    ensures AllTerminal(s.rows) && s.verdicts == []
    ensures forall j :: 0 <= j < |s.tickets| ==> !Owns(s.tickets[j].phase) && !s.tickets[j].phase.ToCount?
  {
    WeightsNonNegative(s);
    assert Closing()(s.tickets[i]) == 1;
    NoneOpen(s.rows);
    forall j | 0 <= j < |s.tickets| ensures !Owns(s.tickets[j].phase) && !s.tickets[j].phase.ToCount? {
      if Owns(s.tickets[j].phase) {
        OwnerIsOpen(s, j);
      }
      assert Uncounted()(s.tickets[j]) == 0;
    }
  }

  lemma {:induction false} RunKeepsShape(s: State, steps: seq<Step>, t: State)
    requires Run(s, steps, t)
    ensures |t.rows| == |s.rows| && t.job.batchCount == s.job.batchCount
    ensures t.job.totalArticles == s.job.totalArticles
    ensures t.resets >= s.resets
    decreases |steps|
  {
    if steps != [] {
      RunKeepsShape(Next(s, steps[0]), steps[1..], t);
    }
  }

  /** With resets at arbitrary moments: once nothing is pending, queued or active, the status is
      the classification of the rows and every terminal write was counted exactly once. */
  lemma QuiescentStatus(batches: seq<seq<string>>, totalArticles: nat, steps: seq<Step>, t: State)
    requires batches != [] && Run(Planned(batches, totalArticles), steps, t)
    requires Drained(t)
    ensures AllTerminal(t.rows)
    ensures t.job.status == Verdict(t.rows)
    ensures t.job.batchesCompleted == |batches| + t.resets
  {
    PlannedInv(batches, totalArticles);
    RunKeepsInv(Planned(batches, totalArticles), steps, t);
    DrainedSums(t);
    NoneOpen(t.rows);
    RunKeepsShape(Planned(batches, totalArticles), steps, t);
  }

  lemma AllTerminalIsNoneOpen(rows: seq<BatchRow>)
    ensures AllTerminal(rows) <==> Sum(rows, Open()) == 0
  {
    if AllTerminal(rows) {
      SumZero(rows, Open());
    } else if Sum(rows, Open()) == 0 {
      NoneOpen(rows);
      assert false;
    }
  }

  /** A finalizer reads unfinished batches exactly when fewer terminal writes than batches and batch
      resets have been made so far. Both sides are the counting identity: batches counted, to be counted
      and open add up to the batches and the batch resets. */
  lemma FinalizerIsEarly(s: State, i: nat)
    requires Inv(s) && Enabled(s, Finalize(i))
    ensures !AllTerminal(s.rows) <==>
            s.job.batchesCompleted + Sum(s.tickets, Uncounted()) < s.job.batchCount + s.resets
  {
    WeightsNonNegative(s);
    AllTerminalIsNoneOpen(s.rows);
  }

  /** What finalizeJob then writes: `failed` only ever over failed batches; `completed` over a batch that
      is not completed exactly when it is early and reads no failed batch. */
  lemma StatusIsWrong(s: State, i: nat)
    requires Inv(s) && Enabled(s, Finalize(i))
    ensures var status := Next(s, Finalize(i)).job.status;
            && (status == JobFailed <==> forall b :: 0 <= b < |s.rows| ==> s.rows[b].status == Failed)
            && ((status == JobCompleted && exists b :: 0 <= b < |s.rows| && s.rows[b].status != Completed)
                <==> (forall b :: 0 <= b < |s.rows| ==> s.rows[b].status != Failed)
                     && s.job.batchesCompleted + Sum(s.tickets, Uncounted()) < s.job.batchCount + s.resets)
  {
    FinalizerIsEarly(s, i);
    FailedCount(s.rows);
    hide Sum, Inv;
  }

  // ---------------------------------------------------------------------------------------
  // Conservation
  // ---------------------------------------------------------------------------------------

  /** The job's counters are exactly what the completed batches account for. */
  lemma CountersConserved(batches: seq<seq<string>>, totalArticles: nat, steps: seq<Step>, t: State)
    requires batches != [] && Run(Planned(batches, totalArticles), steps, t)
    requires Drained(t)
    ensures t.job.counters.tokensIn == Sum(t.rows, Accounted(TotalTokensIn))
    ensures t.job.counters.tokensOut == Sum(t.rows, Accounted(TotalTokensOut))
    ensures t.job.counters.processed == Sum(t.rows, Accounted(ProcessedCount))
  {
    PlannedInv(batches, totalArticles);
    RunKeepsInv(Planned(batches, totalArticles), steps, t);
    DrainedSums(t);
    forall c: Counter
      ensures Pick(t.job.counters, c) == Sum(t.rows, Accounted(c))
    {
      assert Pick(t.job.counters, c) + Sum(t.tickets, InFlight(c)) == Sum(t.rows, Accounted(c));
    }
    assert Pick(t.job.counters, TotalTokensIn) == t.job.counters.tokensIn;
    assert Pick(t.job.counters, TotalTokensOut) == t.job.counters.tokensOut;
    assert Pick(t.job.counters, ProcessedCount) == t.job.counters.processed;
  }

  // ---------------------------------------------------------------------------------------
  // What the answers were
  // ---------------------------------------------------------------------------------------

  /** What a step hands in for a counter: the size and the tokens of an accepted answer. */
  function Accepted(c: Counter): Step -> int {
    (step: Step) =>
      if step.Complete? then
        (match c
         case ProcessedCount => |step.named|
         case TotalTokensIn => step.tokensIn
         case TotalTokensOut => step.tokensOut)
      else 0
  }

  /** No step loses or invents an amount: it is handed in once, waits with its ticket, and is counted. */
  lemma StepHandsIn(s: State, step: Step, c: Counter)
    requires Enabled(s, step)
    ensures var s' := Next(s, step);
            Pick(s'.job.counters, c) + Sum(s'.tickets, InFlight(c))
            == Pick(s.job.counters, c) + Sum(s.tickets, InFlight(c)) + Accepted(c)(step)
  {
    hide Sum, Percent, Verdict;
    if step.Reset? {
      hide ResetRows;
      FreshTicketsCarryNothing(s.rows, c);
      SumConcat(s.tickets, FreshTickets(s.rows), InFlight(c));
    } else {
      SumUpdate(s.tickets, step.i, Next(s, step).tickets[step.i], InFlight(c));
      assert Next(s, step).tickets == s.tickets[step.i := Next(s, step).tickets[step.i]];
    }
  }

  lemma {:induction false} FreshTicketsCarryNothing(rows: seq<BatchRow>, c: Counter)
    ensures Sum(FreshTickets(rows), InFlight(c)) == 0
  {
    if rows != [] {
      var n := |rows| - 1;
      FreshTicketsCarryNothing(rows[..n], c);
      SumAppend(FreshTickets(rows[..n]), Ticket(n, 0, ToEnqueue), InFlight(c));
      assert FreshTickets(rows[..n]) + [] == FreshTickets(rows[..n]);
    }
  }

  lemma {:induction false} RunHandsIn(s: State, steps: seq<Step>, t: State, c: Counter)
    requires Run(s, steps, t)
    ensures Pick(t.job.counters, c) + Sum(t.tickets, InFlight(c))
            == Pick(s.job.counters, c) + Sum(s.tickets, InFlight(c)) + Sum(steps, Accepted(c))
    decreases |steps|
  {
    if steps != [] {
      hide Next, Enabled, Accepted, Sum;
      StepHandsIn(s, steps[0], c);
      RunHandsIn(Next(s, steps[0]), steps[1..], t, c);
      SumFront(steps, Accepted(c));
    }
  }

  /** In every run of a planned job that drains, in any interleaving and with any resets, the totals are
      the sums over the answers that were accepted. */
  lemma TotalsAreTheAnswers(batches: seq<seq<string>>, totalArticles: nat, steps: seq<Step>, t: State)
    requires Run(Planned(batches, totalArticles), steps, t) && Drained(t)
    ensures t.job.counters.processed == Sum(steps, Accepted(ProcessedCount))
    ensures t.job.counters.tokensIn == Sum(steps, Accepted(TotalTokensIn))
    ensures t.job.counters.tokensOut == Sum(steps, Accepted(TotalTokensOut))
  {
    var s := Planned(batches, totalArticles);
    forall c: Counter ensures Pick(t.job.counters, c) == Sum(steps, Accepted(c)) {
      RunHandsIn(s, steps, t, c);
      SumZero(s.tickets, InFlight(c));
      SumZero(t.tickets, InFlight(c));
    }
    hide Sum, Run;
    assert Pick(t.job.counters, ProcessedCount) == t.job.counters.processed;
    assert Pick(t.job.counters, TotalTokensIn) == t.job.counters.tokensIn;
    assert Pick(t.job.counters, TotalTokensOut) == t.job.counters.tokensOut;
  }

  /** The answer is for batch b. */
  predicate AnswersBatch(s: State, step: Step, b: nat)
    requires Enabled(s, step)
  {
    step.Complete? && s.tickets[step.i].batch == b
  }

  /** The last answer a run accepts for batch b; a reset step if there is none. */
  function LastAnswer(s: State, steps: seq<Step>, t: State, b: nat): Step
    requires Run(s, steps, t)
    decreases |steps|
  {
    if steps == [] then Reset
    else
      var later := LastAnswer(Next(s, steps[0]), steps[1..], t, b);
      if later.Complete? then later else if AnswersBatch(s, steps[0], b) then steps[0] else Reset
  }

  /** What a batch row keeps of its answers. */
  predicate Keeps(before: BatchRow, after: BatchRow, answer: Step) {
    && after.articleIds == before.articleIds
    && after.named == (if answer.Complete? then answer.named else before.named)
    && after.actualTokensIn == (if answer.Complete? then answer.tokensIn else before.actualTokensIn)
    && after.actualTokensOut == (if answer.Complete? then answer.tokensOut else before.actualTokensOut)
    && (after.status == Completed && before.status != Completed ==> answer.Complete?)
  }

  lemma StepKeepsAnswers(s: State, step: Step, b: nat)
    requires Enabled(s, step) && b < |s.rows|
    ensures b < |Next(s, step).rows|
    ensures Keeps(s.rows[b], Next(s, step).rows[b], if AnswersBatch(s, step, b) then step else Reset)
  {
    hide Sum, Percent, Verdict, FreshTickets;
  }

  lemma {:induction false} RunKeepsAnswers(s: State, steps: seq<Step>, t: State, b: nat)
    requires Run(s, steps, t) && b < |s.rows|
    ensures b < |t.rows| && Keeps(s.rows[b], t.rows[b], LastAnswer(s, steps, t, b))
    decreases |steps|
  {
    if steps != [] {
      StepKeepsAnswers(s, steps[0], b);
      hide Next, Enabled, AnswersBatch;
      RunKeepsAnswers(Next(s, steps[0]), steps[1..], t, b);
    }
  }

  /** In every run of a planned job a completed batch row holds the articles it was planned with and the
      ids and tokens of the last answer accepted for it. */
  lemma CompletedRowsHoldTheirAnswers(batches: seq<seq<string>>, totalArticles: nat, steps: seq<Step>, t: State, b: nat)
    requires Run(Planned(batches, totalArticles), steps, t) && b < |batches|
    ensures b < |t.rows| && t.rows[b].articleIds == batches[b]
    ensures t.rows[b].status == Completed ==>
              var answer := LastAnswer(Planned(batches, totalArticles), steps, t, b);
              && answer.Complete? && t.rows[b].named == answer.named
              && t.rows[b].actualTokensIn == answer.tokensIn && t.rows[b].actualTokensOut == answer.tokensOut
  {
    RunKeepsAnswers(Planned(batches, totalArticles), steps, t, b);
    hide LastAnswer, Run;
  }

  // ---------------------------------------------------------------------------------------
  // What an unfinished batch's status says
  // ---------------------------------------------------------------------------------------

  /** A batch waits as pending before its first attempt and as retrying before a later one, is processing
      while a worker is on it, and keeps the status at which an exception caught it. */
  predicate StatusTells(t: Ticket, row: BatchRow) {
    match t.phase
    case ToEnqueue => row.status == if t.attempts == 0 then Pending else Retrying
    case Queued => row.status == if t.attempts == 0 then Pending else Retrying
    case Dequeued => row.status == if t.attempts == 1 then Pending else Retrying
    case Working => row.status == Processing
    case Raised => row.status == Processing || row.status == if t.attempts == 1 then Pending else Retrying
    case Bumped(_) =>
      t.attempts > 0 && (row.status == Processing || row.status == if t.attempts == 1 then Pending else Retrying)
    case _ => true
  }

  predicate StatusesTell(s: State)
    requires TicketsFit(s)
  {
    forall i :: 0 <= i < |s.tickets| ==> StatusTells(s.tickets[i], s.rows[s.tickets[i].batch])
  }

  /** Nobody but the owner of a batch writes its row. */
  lemma OthersKeepOff(s: State, step: Step, j: nat)
    requires Inv(s) && Enabled(s, step) && TakenByOwner(step)
    requires j < |s.tickets| && j != step.i && Owns(s.tickets[j].phase)
    ensures |Next(s, step).tickets| == |s.tickets| && Next(s, step).tickets[j] == s.tickets[j]
    ensures |Next(s, step).rows| == |s.rows| && Next(s, step).rows[s.tickets[j].batch] == s.rows[s.tickets[j].batch]
  {
    OwnerStepEffect(s, step);
    OwnerIsOpen(s, j);
    var b := s.tickets[step.i].batch;
    hide Sum, Next;
    if s.tickets[j].batch == b {
      assert Sum(s.tickets, OwnerOf(b)) == 1;
      OwnersCount(s.tickets, step.i, j, b);
    }
  }

  lemma OwnerKeepsStatuses(s: State, step: Step)
    requires Inv(s) && StatusesTell(s) && Enabled(s, step) && TakenByOwner(step)
    requires TicketsFit(Next(s, step))
    ensures StatusesTell(Next(s, step))
  {
    var s' := Next(s, step);
    OwnerStepEffect(s, step);
    OwnerStatusTells(s, step);
    hide Sum, Inv, Next, Enabled;
    forall j: nat | j < |s'.tickets| ensures StatusTells(s'.tickets[j], s'.rows[s'.tickets[j].batch]) {
      if j != step.i {
        assert s'.tickets[j] == s.tickets[j];
        assert StatusTells(s.tickets[j], s.rows[s.tickets[j].batch]);
        if Owns(s.tickets[j].phase) {
          OthersKeepOff(s, step, j);
        }
      }
    }
  }

  lemma OwnerStatusTells(s: State, step: Step)
    requires TicketsFit(s) && StatusesTell(s) && Enabled(s, step) && TakenByOwner(step)
    ensures var t := Next(s, step).tickets[step.i]; StatusTells(t, Next(s, step).rows[t.batch])
  {
    assert StatusTells(s.tickets[step.i], s.rows[s.tickets[step.i].batch]);
    assert TicketFits(s.tickets[step.i], s.rows[s.tickets[step.i].batch]);
  }

  lemma ResetKeepsStatuses(s: State)
    requires Inv(s) && StatusesTell(s) && TicketsFit(Next(s, Reset))
    ensures StatusesTell(Next(s, Reset))
  {
    var s' := Next(s, Reset);
    ResetEffect(s.rows);
    hide Sum, FreshTickets;
    forall j: nat | j < |s'.tickets| ensures StatusTells(s'.tickets[j], s'.rows[s'.tickets[j].batch]) {
      if j < |s.tickets| {
        assert StatusTells(s.tickets[j], s.rows[s.tickets[j].batch]);
        if Owns(s.tickets[j].phase) {
          OwnerIsOpen(s, j);
        }
      } else {
        assert s'.tickets[j] in FreshTickets(s.rows);
      }
    }
  }

  lemma LateKeepsStatuses(s: State, step: Step)
    requires TicketsFit(s) && StatusesTell(s) && Enabled(s, step) && !TakenByOwner(step) && step != Reset
    requires TicketsFit(Next(s, step))
    ensures StatusesTell(Next(s, step))
  {
    hide Sum, Percent, Verdict, TicketFits;
  }

  lemma StepKeepsStatuses(s: State, step: Step)
    requires Inv(s) && StatusesTell(s) && Enabled(s, step)
    ensures Inv(Next(s, step)) && StatusesTell(Next(s, step))
  {
    StepKeepsInv(s, step);
    if TakenByOwner(step) {
      hide Next, StatusesTell;
      OwnerKeepsStatuses(s, step);
    } else if step == Reset {
      hide Next, StatusesTell;
      ResetKeepsStatuses(s);
    } else {
      LateKeepsStatuses(s, step);
      hide Next, StatusesTell;
    }
  }

  lemma {:induction false} RunKeepsStatuses(s: State, steps: seq<Step>, t: State)
    requires Inv(s) && StatusesTell(s) && Run(s, steps, t)
    ensures Inv(t) && StatusesTell(t)
    decreases |steps|
  {
    if steps != [] {
      StepKeepsStatuses(s, steps[0]);
      hide Inv, Next, Enabled, StatusesTell;
      RunKeepsStatuses(Next(s, steps[0]), steps[1..], t);
    }
  }

  /** In every run of a planned job, resets included, the status of an unfinished batch tells where its
      chain of attempts stands; a batch just put back by a reset is pending like a new one. */
  lemma StatusTellsThePhase(batches: seq<seq<string>>, totalArticles: nat, steps: seq<Step>, t: State, i: nat)
    requires batches != [] && Run(Planned(batches, totalArticles), steps, t) && i < |t.tickets|
    ensures t.tickets[i].batch < |t.rows| && StatusTells(t.tickets[i], t.rows[t.tickets[i].batch])
  {
    var s := Planned(batches, totalArticles);
    PlannedInv(batches, totalArticles);
    assert StatusesTell(s);
    RunKeepsStatuses(s, steps, t);
  }

  // ---------------------------------------------------------------------------------------
  // Draining
  // ---------------------------------------------------------------------------------------

  /** The steps a fresh chain of attempts can still take, at most. */
  const CHAIN: nat := 75

  function Remaining(): Ticket -> int {
    (t: Ticket) =>
      match t.phase
      case ToEnqueue => 20 * (3 - t.attempts) + 15
      case Queued => 20 * (3 - t.attempts) + 14
      case Dequeued => 20 * (3 - t.attempts) + 19
      case Working => 20 * (3 - t.attempts) + 18
      case Raised => 20 * (3 - t.attempts) + 17
      case Bumped(_) => 20 * (3 - t.attempts) + 16
      case ToCount(_) => 3
      case Counted(_, _) => 2
      case Finalizing => 1
      case Finished => 0
  }

  function Measure(s: State): int {
    Sum(s.tickets, Remaining())
  }

  lemma MeasureNonNegative(s: State)
    requires TicketsFit(s)
    ensures Measure(s) >= 0
  {
    forall t | t in s.tickets ensures Remaining()(t) >= 0 {
      var i :| 0 <= i < |s.tickets| && s.tickets[i] == t;
      assert TicketFits(s.tickets[i], s.rows[s.tickets[i].batch]);
    }
    SumNonNegative(s.tickets, Remaining());
  }

  /** Every step but the manual reset lowers the measure. */
  lemma StepLowersMeasure(s: State, step: Step)
    requires Inv(s) && Enabled(s, step) && step != Reset
    ensures Measure(Next(s, step)) < Measure(s)
  {
    hide Sum;
    var i := step.i;
    SumUpdate(s.tickets, i, Next(s, step).tickets[i], Remaining());
    assert Next(s, step).tickets == s.tickets[i := Next(s, step).tickets[i]];
    assert TicketFits(s.tickets[i], s.rows[s.tickets[i].batch]);
  }

  lemma {:induction false} ResetMeasure(rows: seq<BatchRow>)
    ensures Sum(FreshTickets(rows), Remaining()) == CHAIN * |FreshTickets(rows)|
  {
    if rows != [] {
      var n := |rows| - 1;
      ResetMeasure(rows[..n]);
      var before := FreshTickets(rows[..n]);
      if rows[n].status == Failed {
        SumAppend(before, Ticket(n, 0, ToEnqueue), Remaining());
      } else {
        assert before + [] == before;
      }
    }
  }

  lemma {:induction false} RunBound(s: State, steps: seq<Step>, t: State)
    requires Inv(s) && Run(s, steps, t)
    ensures |steps| + Measure(t) <= Measure(s) + CHAIN * (t.resets - s.resets) + ResetSteps(steps)
    decreases |steps|
  {
    if steps != [] {
      var m := Next(s, steps[0]);
      StepKeepsInv(s, steps[0]);
      RunBound(m, steps[1..], t);
      if steps[0] == Reset {
        ResetMeasure(s.rows);
        SumConcat(s.tickets, FreshTickets(s.rows), Remaining());
      } else {
        StepLowersMeasure(s, steps[0]);
        assert m.resets == s.resets;
      }
    }
  }

  lemma {:induction false} FirstMeasure(n: nat)
    ensures Sum(FirstTickets(n), Remaining()) == CHAIN * n
  {
    if n > 0 {
      FirstMeasure(n - 1);
      assert FirstTickets(n) == FirstTickets(n - 1) + [Ticket(n - 1, 0, ToEnqueue)];
      SumAppend(FirstTickets(n - 1), Ticket(n - 1, 0, ToEnqueue), Remaining());
    }
  }

  /** A run is no longer than 75 steps per batch and per batch reset, plus the resets themselves;
      so a run with finitely many resets ends. */
  lemma RunsAreBounded(batches: seq<seq<string>>, totalArticles: nat, steps: seq<Step>, t: State)
    requires batches != [] && Run(Planned(batches, totalArticles), steps, t)
    ensures |steps| <= CHAIN * (|batches| + t.resets) + ResetSteps(steps)
  {
    var s := Planned(batches, totalArticles);
    PlannedInv(batches, totalArticles);
    RunKeepsInv(s, steps, t);
    RunBound(s, steps, t);
    MeasureNonNegative(t);
    FirstMeasure(|batches|);
  }

  /** The step a ticket can take next, whatever the others do. */
  function NextStepOf(t: Ticket, i: nat): Step {
    match t.phase
    case ToEnqueue => Enqueue(i)
    case Queued => Dequeue(i)
    case Dequeued => Start(i)
    case Working => Complete(i, [], 0, 0)
    case Raised => Bump(i)
    case Bumped(retrying) => if retrying then GiveBack(i) else GiveUp(i)
    case ToCount(_) => Count(i)
    case Counted(_, _) => Publish(i)
    case Finalizing => Finalize(i)
    case Finished => Reset
  }

  /** A run stops only when it has drained: nothing ever waits for another ticket. */
  lemma NeverStuck(s: State)
    requires Inv(s)
    ensures Drained(s) <==> !exists step :: step != Reset && Enabled(s, step)
  {
    if !Drained(s) {
      var i: nat :| i < |s.tickets| && s.tickets[i].phase != Finished;
      assert Enabled(s, NextStepOf(s.tickets[i], i));
    }
  }

  /** Each batch has one owner while it is unfinished and none afterwards; a chain makes at most
      three attempts, and a batch is given up after exactly three failures. */
  lemma OwnersAndAttempts(s: State, b: nat)
    requires Inv(s) && b < |s.rows|
    ensures !Terminal(s.rows[b].status) ==>
              exists i :: 0 <= i < |s.tickets| && s.tickets[i].batch == b && Owns(s.tickets[i].phase)
    ensures forall i, j :: 0 <= i < |s.tickets| && 0 <= j < |s.tickets| && i != j
                           && s.tickets[i].batch == b == s.tickets[j].batch && Owns(s.tickets[i].phase)
                           ==> !Owns(s.tickets[j].phase)
    ensures Terminal(s.rows[b].status) ==>
              forall i :: 0 <= i < |s.tickets| && s.tickets[i].batch == b ==> !Owns(s.tickets[i].phase)
    ensures forall i :: 0 <= i < |s.tickets| ==> s.tickets[i].attempts <= 3
    ensures s.rows[b].status == Failed ==> s.rows[b].retryCount == 3
  {
    if forall i :: 0 <= i < |s.tickets| && s.tickets[i].batch == b ==> !Owns(s.tickets[i].phase) {
      SumZero(s.tickets, OwnerOf(b));
    }
    forall i: nat, j: nat | i < |s.tickets| && j < |s.tickets| && i != j
                  && s.tickets[i].batch == b == s.tickets[j].batch && Owns(s.tickets[i].phase)
      ensures !Owns(s.tickets[j].phase)
    {
      OwnersCount(s.tickets, i, j, b);
    }
    SumNonNegative(s.tickets, OwnerOf(b));
    forall i | 0 <= i < |s.tickets| && s.tickets[i].batch == b && Terminal(s.rows[b].status)
      ensures !Owns(s.tickets[i].phase)
    {
      assert OwnerOf(b)(s.tickets[i]) <= 0;
    }
    forall i | 0 <= i < |s.tickets| ensures s.tickets[i].attempts <= 3 {
      assert TicketFits(s.tickets[i], s.rows[s.tickets[i].batch]);
    }
  }
}
