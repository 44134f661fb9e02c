/** The enrichment job protocol: job and batch rows, queue entries, worker attempts and the
    manual reset, as a transition system whose steps are single database transactions or single
    queue operations. Workers, the agent's fan-out and the user's resets interleave freely. */
module EnrichmentProtocol {
  import opened Sums

  /** A failing batch is re-enqueued while its retry count stays at or below this. */
  const MAX_RETRIES: nat := 2

  datatype BatchStatus = Pending | Processing | Completed | Failed | Retrying

  datatype JobStatus = JobProcessing | JobCompleted | JobFailed | JobPartial

  /** What one finished batch adds to the job's counters. */
  datatype Delta = Delta(processed: nat, tokensIn: nat, tokensOut: nat)

  datatype Counter = ProcessedCount | TotalTokensIn | TotalTokensOut

  const NO_PROGRESS := Delta(0, 0, 0)

  /** An enrichment_batches row. `named` holds the article ids of the accepted response (one
      enrichments row is upserted per entry); the token fields are 0 while NULL in the table. */
  datatype BatchRow = BatchRow(
    articleIds: seq<string>,
    status: BatchStatus,
    retryCount: nat,
    actualTokensIn: nat,
    actualTokensOut: nat,
    named: seq<string>)

  /** An enrichment_jobs row; `counters` is processed_count and the two token totals. */
  datatype JobRow = JobRow(
    totalArticles: nat,
    batchCount: nat,
    batchesCompleted: nat,
    counters: Delta,
    status: JobStatus)

  /** Where the chain of attempts for one batch stands between two atomic steps. */
  datatype Phase =
    | ToEnqueue                            // the row says so, queue.add is still to come
    | Queued
    | Dequeued                             // the processor has started
    | Working                              // status 'processing' is written
    | Raised                               // an exception was caught
    | Bumped(retrying: bool)               // retry_count is incremented
    | ToCount(delta: Delta)                // 'completed' or 'failed' is written, not yet counted
    | Counted(percent: int, last: bool)    // counted, progress event not yet published
    | Finalizing                           // about to run finalizeJob
    | Finished

  /** One chain of attempts for a batch, from its first enqueue or a manual reset onwards. */
  datatype Ticket = Ticket(batch: nat, attempts: nat, phase: Phase)

  /** `progress` and `verdicts` log the percents published and the final statuses written;
      `resets` counts the batch rows put back by manual resets. */
  datatype State = State(
    job: JobRow,
    rows: seq<BatchRow>,
    tickets: seq<Ticket>,
    progress: seq<int>,
    verdicts: seq<JobStatus>,
    resets: nat)

  datatype Step =
    | Enqueue(i: nat)
    | Dequeue(i: nat)
    | Start(i: nat)
    | Raise(i: nat)
    | Complete(i: nat, named: seq<string>, tokensIn: nat, tokensOut: nat)
    | Bump(i: nat)
    | GiveBack(i: nat)
    | GiveUp(i: nat)
    | Count(i: nat)
    | Publish(i: nat)
    | Finalize(i: nat)
    | Reset

  // ---------------------------------------------------------------------------------------
  // The pieces the steps are made of
  // ---------------------------------------------------------------------------------------

  predicate Terminal(status: BatchStatus) {
    status == Completed || status == Failed
  }

  predicate AllTerminal(rows: seq<BatchRow>) {
    forall b :: 0 <= b < |rows| ==> Terminal(rows[b].status)
  }

  function FailedOne(row: BatchRow): int {
    if row.status == Failed then 1 else 0
  }

  /** The status finalizeJob derives from the batch rows it reads. */
  function Verdict(rows: seq<BatchRow>): JobStatus {
    var failed := Sum(rows, FailedOne);
    if failed == 0 then JobCompleted
    else if failed == |rows| then JobFailed
    else JobPartial
  }

  /** Floor of the percentage, 0 for a job without articles. */
  function Percent(processed: nat, total: nat): int {
    if total > 0 then processed * 100 / total else 0
  }

  function AddDelta(a: Delta, b: Delta): Delta {
    Delta(a.processed + b.processed, a.tokensIn + b.tokensIn, a.tokensOut + b.tokensOut)
  }

  function ResetRow(row: BatchRow): BatchRow {
    if row.status == Failed then row.(status := Pending, retryCount := 0) else row
  }

  function ResetRows(rows: seq<BatchRow>): (r: seq<BatchRow>)
    ensures |r| == |rows|
    ensures forall b :: 0 <= b < |rows| ==> r[b] == ResetRow(rows[b])
  {
    if rows == [] then [] else ResetRows(rows[..|rows| - 1]) + [ResetRow(rows[|rows| - 1])]
  }

  /** One fresh ticket per failed row, in row order. */
  function FreshTickets(rows: seq<BatchRow>): seq<Ticket> {
    if rows == [] then []
    else
      var n := |rows| - 1;
      FreshTickets(rows[..n]) + (if rows[n].status == Failed then [Ticket(n, 0, ToEnqueue)] else [])
  }

  // ---------------------------------------------------------------------------------------
  // The transition system
  // ---------------------------------------------------------------------------------------

  predicate Enabled(s: State, step: Step) {
    if step.Reset? then true
    else
      && step.i < |s.tickets|
      && s.tickets[step.i].batch < |s.rows|
      && var phase := s.tickets[step.i].phase;
         match step
         case Enqueue(_) => phase == ToEnqueue
         case Dequeue(_) => phase == Queued
         case Start(_) => phase == Dequeued
         case Raise(_) => phase == Dequeued || phase == Working
         case Complete(_, _, _, _) => phase == Working
         case Bump(_) => phase == Raised
         case GiveBack(_) => phase == Bumped(true)
         case GiveUp(_) => phase == Bumped(false)
         case Count(_) => phase.ToCount?
         case Publish(_) => phase.Counted?
         case Finalize(_) => phase == Finalizing
  }

  function MoveTo(s: State, i: nat, phase: Phase): State
    requires i < |s.tickets|
  {
    s.(tickets := s.tickets[i := s.tickets[i].(phase := phase)])
  }

  function WriteRow(s: State, b: nat, row: BatchRow): State
    requires b < |s.rows|
  {
    s.(rows := s.rows[b := row])
  }

  function Next(s: State, step: Step): State
    requires Enabled(s, step)
  {
    match step
    case Reset =>
      var restarted := FreshTickets(s.rows);
      s.(rows := ResetRows(s.rows), tickets := s.tickets + restarted, resets := s.resets + |restarted|)
    case Enqueue(i) => MoveTo(s, i, Queued)
    case Dequeue(i) =>
      var t := s.tickets[i];
      s.(tickets := s.tickets[i := t.(phase := Dequeued, attempts := t.attempts + 1)])
    case Start(i) =>
      var b := s.tickets[i].batch;
      WriteRow(MoveTo(s, i, Working), b, s.rows[b].(status := Processing))
    case Raise(i) => MoveTo(s, i, Raised)
    case Complete(i, named, tokensIn, tokensOut) =>
      var b := s.tickets[i].batch;
      WriteRow(MoveTo(s, i, ToCount(Delta(|named|, tokensIn, tokensOut))), b,
               s.rows[b].(status := Completed, named := named,
                          actualTokensIn := tokensIn, actualTokensOut := tokensOut))
    case Bump(i) =>
      var b := s.tickets[i].batch;
      var count := s.rows[b].retryCount + 1;
      WriteRow(MoveTo(s, i, Bumped(count <= MAX_RETRIES)), b, s.rows[b].(retryCount := count))
    case GiveBack(i) =>
      var b := s.tickets[i].batch;
      WriteRow(MoveTo(s, i, ToEnqueue), b, s.rows[b].(status := Retrying))
    case GiveUp(i) =>
      var b := s.tickets[i].batch;
      WriteRow(MoveTo(s, i, ToCount(NO_PROGRESS)), b, s.rows[b].(status := Failed))
    case Count(i) =>
      var counters := AddDelta(s.job.counters, s.tickets[i].phase.delta);
      var done := s.job.batchesCompleted + 1;
      MoveTo(s, i, Counted(Percent(counters.processed, s.job.totalArticles), done >= s.job.batchCount))
      .(job := s.job.(counters := counters, batchesCompleted := done))
    case Publish(i) =>
      var phase := s.tickets[i].phase;
      MoveTo(s, i, if phase.last then Finalizing else Finished)
      .(progress := s.progress + [phase.percent])
    case Finalize(i) =>
      var verdict := Verdict(s.rows);
      MoveTo(s, i, Finished)
      .(job := s.job.(status := verdict), verdicts := s.verdicts + [verdict])
  }

  /** The rows the agent writes for a planned job: one pending row per batch. */
  function PlannedRows(batches: seq<seq<string>>): (rows: seq<BatchRow>)
    ensures |rows| == |batches|
    ensures forall b :: 0 <= b < |rows| ==> rows[b] == BatchRow(batches[b], Pending, 0, 0, 0, [])
  {
    seq(|batches|, b requires 0 <= b < |batches| => BatchRow(batches[b], Pending, 0, 0, 0, []))
  }

  function FirstTickets(n: nat): (tickets: seq<Ticket>)
    ensures |tickets| == n
    ensures forall b :: 0 <= b < n ==> tickets[b] == Ticket(b, 0, ToEnqueue)
  {
    seq(n, (b: nat) => Ticket(b, 0, ToEnqueue))
  }

  /** The state right after the planning transaction: nothing is enqueued yet. */
  function Planned(batches: seq<seq<string>>, totalArticles: nat): State {
    State(JobRow(totalArticles, |batches|, 0, NO_PROGRESS, JobProcessing),
          PlannedRows(batches), FirstTickets(|batches|), [], [], 0)
  }

  /** `Run(s, steps, t)`: the steps, each enabled when taken, lead from s to t. */
  predicate Run(s: State, steps: seq<Step>, t: State)
    decreases |steps|
  {
    if steps == [] then s == t
    else Enabled(s, steps[0]) && Run(Next(s, steps[0]), steps[1..], t)
  }

  /** No enqueue is pending, the queue is empty and no worker is active. */
  predicate Drained(s: State) {
    forall i :: 0 <= i < |s.tickets| ==> s.tickets[i].phase == Finished
  }

  function ResetSteps(steps: seq<Step>): nat {
    if steps == [] then 0 else (if steps[0] == Reset then 1 else 0) + ResetSteps(steps[1..])
  }
}
