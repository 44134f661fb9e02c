/** Runs that show which promises the enrichment protocol does not keep unconditionally. */
module EnrichmentWitnesses {
  import opened Sums
  import opened EnrichmentProtocol
  import opened EnrichmentRuns

  const ONE_BATCH := Planned([["a"]], 1)
  const TWO_BATCHES := Planned([["a"], ["b"]], 2)

  function Job(batchCount: nat, done: nat, processed: nat): JobRow {
    JobRow(batchCount, batchCount, done, Delta(processed, 0, 0), JobProcessing)
  }

  function Row(id: string, status: BatchStatus, retryCount: nat, named: seq<string>): BatchRow {
    BatchRow([id], status, retryCount, 0, 0, named)
  }

  lemma PlannedStates()
    ensures ONE_BATCH == State(Job(1, 0, 0), [Row("a", Pending, 0, [])], [Ticket(0, 0, ToEnqueue)], [], [], 0)
    ensures TWO_BATCHES == State(Job(2, 0, 0), [Row("a", Pending, 0, []), Row("b", Pending, 0, [])],
                                 [Ticket(0, 0, ToEnqueue), Ticket(1, 0, ToEnqueue)], [], [], 0)
  {
  }

  lemma Percents()
    ensures Percent(2, 1) == 200 && Percent(1, 2) == 50 && Percent(2, 2) == 100
    ensures Percent(0, 1) == Percent(0, 2) == 0
  {
  }

  /** The state after one more attempt that is answered. */
  lemma OneAnswered(s: State, i: nat, id: string, named: seq<string>, percent: int)
    requires Waiting(s, i) && s.rows[s.tickets[i].batch] == Row(id, Pending, 0, [])
    requires percent == Percent(s.job.counters.processed + |named|, s.job.totalArticles)
    requires s.job == Job(s.job.batchCount, s.job.batchesCompleted, s.job.counters.processed)
    ensures var done, b := s.job.batchesCompleted + 1, s.tickets[i].batch;
            Answered(s, i, named)
            == s.(job := Job(s.job.batchCount, done, s.job.counters.processed + |named|),
                  rows := s.rows[b := Row(id, Completed, 0, named)],
                  tickets := s.tickets[i := Ticket(b, s.tickets[i].attempts + 1, Counted(percent, done >= s.job.batchCount))])
  {
    hide Percent;
  }

  // ---------------------------------------------------------------------------------------
  // Progress
  // ---------------------------------------------------------------------------------------

  lemma FirstAnswered() returns (t: State)
    ensures Reaches(ONE_BATCH, t, [2])
    ensures t == State(Job(1, 1, 2), [Row("a", Completed, 0, ["a", "a"])], [Ticket(0, 1, Counted(200, true))], [], [], 0)
  {
    hide Reaches, Planned, Percent, Answered;
    PlannedStates();
    Percents();
    ReachesSelf(ONE_BATCH, [2]);
    Answer(ONE_BATCH, ONE_BATCH, 0, ["a", "a"], [2]);
    OneAnswered(ONE_BATCH, 0, "a", ["a", "a"], 200);
    t := Answered(ONE_BATCH, 0, ["a", "a"]);
  }

  /** A response that repeats an article id is accepted, and drives the job past 100 percent. */
  lemma RepeatedAnswerOvershoots() returns (t: State)
    ensures Reaches(ONE_BATCH, t, [2]) && t.resets == 0
    ensures t.job.counters.processed == 2 > t.job.totalArticles
    ensures t.progress == [200]
  {
    hide Reaches, Planned;
    var m := FirstAnswered();
    ReachesNext(ONE_BATCH, m, Publish(0), [2]);
    t := Next(m, Publish(0));
  }

  lemma BothAnswered() returns (t: State)
    ensures Reaches(TWO_BATCHES, t, [1, 1])
    ensures t == State(Job(2, 2, 2), [Row("a", Completed, 0, ["a"]), Row("b", Completed, 0, ["b"])],
                       [Ticket(0, 1, Counted(50, false)), Ticket(1, 1, Counted(100, true))], [], [], 0)
  {
    hide Reaches, Planned, Percent, Answered;
    PlannedStates();
    Percents();
    ReachesSelf(TWO_BATCHES, [1, 1]);
    Answer(TWO_BATCHES, TWO_BATCHES, 0, ["a"], [1, 1]);
    OneAnswered(TWO_BATCHES, 0, "a", ["a"], 50);
    var m := Answered(TWO_BATCHES, 0, ["a"]);
    Answer(TWO_BATCHES, m, 1, ["b"], [1, 1]);
    OneAnswered(m, 1, "b", ["b"], 100);
    t := Answered(m, 1, ["b"]);
  }

  /** The job row's percent never drops, but two workers may publish theirs in the other order. */
  lemma PublishedOutOfOrder() returns (t: State)
    ensures Reaches(TWO_BATCHES, t, [1, 1]) && t.resets == 0
    ensures t.progress == [100, 50]
  {
    hide Reaches, Planned;
    var m := BothAnswered();
    ReachesNext(TWO_BATCHES, m, Publish(1), [1, 1]);
    var p := Next(m, Publish(1));
    ReachesNext(TWO_BATCHES, p, Publish(0), [1, 1]);
    t := Next(p, Publish(0));
  }

  // ---------------------------------------------------------------------------------------
  // Finalizing too early
  // ---------------------------------------------------------------------------------------

  /** The first of two batches fails for good and is counted; the second is never picked up. */
  lemma FirstGivenUp() returns (t: State)
    ensures Reaches(TWO_BATCHES, t, [1, 1])
    ensures t == State(Job(2, 1, 0), [Row("a", Failed, 3, []), Row("b", Pending, 0, [])],
                       [Ticket(0, 3, Counted(0, false)), Ticket(1, 0, ToEnqueue)], [], [], 0)
  {
    hide Reaches, Planned;
    PlannedStates();
    ReachesSelf(TWO_BATCHES, [1, 1]);
    GiveUpOn(TWO_BATCHES, TWO_BATCHES, 0, [1, 1]);
    t := GivenUp(TWO_BATCHES, 0);
  }

  lemma {:induction false} RestartsFirst(rows: seq<BatchRow>)
    requires rows != [] && rows[0].status == Failed && forall b :: 1 <= b < |rows| ==> rows[b].status != Failed
    ensures FreshTickets(rows) == [Ticket(0, 0, ToEnqueue)]
    ensures ResetRows(rows) == rows[0 := ResetRow(rows[0])]
  {
    var n := |rows| - 1;
    if n > 0 {
      RestartsFirst(rows[..n]);
    }
  }

  /** A manual reset puts the failed batch back. */
  lemma FirstReset() returns (t: State)
    ensures Reaches(TWO_BATCHES, t, [1, 1])
    ensures t == State(Job(2, 1, 0), [Row("a", Pending, 0, []), Row("b", Pending, 0, [])],
                       [Ticket(0, 3, Counted(0, false)), Ticket(1, 0, ToEnqueue), Ticket(0, 0, ToEnqueue)], [], [], 1)
  {
    hide Reaches, Planned, FreshTickets, ResetRows;
    var c := FirstGivenUp();
    RestartsFirst(c.rows);
    ReachesNext(TWO_BATCHES, c, Reset, [1, 1]);
    t := Next(c, Reset);
    assert t.rows == [Row("a", Pending, 0, []), Row("b", Pending, 0, [])];
  }

  /** It then succeeds, and its count makes the total reach the batch count. */
  lemma ResetAnswered() returns (t: State)
    ensures Reaches(TWO_BATCHES, t, [1, 1])
    ensures t == State(Job(2, 2, 1), [Row("a", Completed, 0, ["a"]), Row("b", Pending, 0, [])],
                       [Ticket(0, 3, Counted(0, false)), Ticket(1, 0, ToEnqueue), Ticket(0, 1, Counted(50, true))],
                       [], [], 1)
  {
    hide Reaches, Planned, Percent, Answered;
    Percents();
    var r := FirstReset();
    Answer(TWO_BATCHES, r, 2, ["a"], [1, 1]);
    OneAnswered(r, 2, "a", ["a"], 50);
    t := Answered(r, 2, ["a"]);
  }

  lemma {:induction false} NoneFailed(rows: seq<BatchRow>)
    requires forall b :: 0 <= b < |rows| ==> rows[b].status != Failed
    ensures Verdict(rows) == JobCompleted && Sum(rows, FailedOne) == 0
  {
    if rows != [] {
      NoneFailed(rows[..|rows| - 1]);
    }
  }

  /** With a manual reset in between, the job is declared completed while a batch is still pending. */
  lemma CompletedTooEarly() returns (t: State)
    ensures Reaches(TWO_BATCHES, t, [1, 1])
    ensures t.job.status == JobCompleted && t.verdicts == [JobCompleted]
    ensures |t.rows| == 2 && t.rows[1].status == Pending && t.resets == 1
  {
    hide Reaches, Planned, Verdict;
    var d := ResetAnswered();
    ReachesNext(TWO_BATCHES, d, Publish(2), [1, 1]);
    var p := Next(d, Publish(2));
    ReachesNext(TWO_BATCHES, p, Finalize(2), [1, 1]);
    t := Next(p, Finalize(2));
    NoneFailed(p.rows);
  }

  /** One batch, given up and counted with no reset so far: a reset that lands before finalizeJob reads
      the rows is enough to have the job declared completed with nothing done. */
  lemma ResetBeforeFinalize() returns (t: State)
    ensures Reaches(ONE_BATCH, t, [1])
    ensures t.job.status == JobCompleted && t.verdicts == [JobCompleted]
    ensures |t.rows| == 1 && t.rows[0].status == Pending && t.resets == 1
  {
    hide Reaches, Planned, Verdict, FreshTickets, ResetRows;
    var p := OnlyBatchGivenUp();
    RestartsFirst(p.rows);
    ReachesNext(ONE_BATCH, p, Reset, [1]);
    var r := Next(p, Reset);
    ReachesNext(ONE_BATCH, r, Finalize(0), [1]);
    t := Next(r, Finalize(0));
    NoneFailed(r.rows);
  }

  lemma OnlyBatchGivenUp() returns (t: State)
    ensures Reaches(ONE_BATCH, t, [1])
    ensures t == State(Job(1, 1, 0), [Row("a", Failed, 3, [])], [Ticket(0, 3, Finalizing)], [0], [], 0)
  {
    hide Reaches, Planned;
    PlannedStates();
    ReachesSelf(ONE_BATCH, [1]);
    GiveUpOn(ONE_BATCH, ONE_BATCH, 0, [1]);
    var g := GivenUp(ONE_BATCH, 0);
    ReachesNext(ONE_BATCH, g, Publish(0), [1]);
    t := Next(g, Publish(0));
  }
}
