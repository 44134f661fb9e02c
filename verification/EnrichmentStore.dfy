/** The rows, the queue and the workers' positions as mutable state. The first methods are one database
    transaction or one queue operation each; the batch processor, its failure path, the agent's fan-out
    and the manual retry are put together from them. */
module EnrichmentStore {
  import opened Sums
  import opened EnrichmentProtocol
  import opened EnrichmentInvariant
  import opened EnrichmentRuns
  import opened EnrichmentAttempts

  datatype BatchResult = Processed(processedCount: nat) | FailedAttempt

  /** The failed rows are pending again with no retries behind them; nothing else has changed. */
  predicate PutBack(before: seq<BatchRow>, after: seq<BatchRow>) {
    && |after| == |before|
    && forall b :: 0 <= b < |before| ==>
         after[b] ==
           if before[b].status == Failed
           then BatchRow(before[b].articleIds, Pending, 0, before[b].actualTokensIn, before[b].actualTokensOut,
                         before[b].named)
           else before[b]
  }

  class Store {
    var job: JobRow
    var rows: seq<BatchRow>
    var tickets: seq<Ticket>
    var progress: seq<int>
    var verdicts: seq<JobStatus>
    ghost var resets: nat

    ghost function Snapshot(): State
      reads this
    {
      State(job, rows, tickets, progress, verdicts, resets)
    }

    /** The planning transaction: the job row, then one numbered batch row per planned batch. */
    constructor (batches: seq<seq<string>>, totalArticles: nat)
      ensures Snapshot() == Planned(batches, totalArticles)
    {
      job := JobRow(totalArticles, |batches|, 0, NO_PROGRESS, JobProcessing);
      progress, verdicts, resets := [], [], 0;
      rows, tickets := [], [];
      new;
      for i := 0 to |batches|
        invariant job == JobRow(totalArticles, |batches|, 0, NO_PROGRESS, JobProcessing)
        invariant progress == [] && verdicts == [] && resets == 0
        invariant rows == PlannedRows(batches)[..i]
        invariant tickets == FirstTickets(|batches|)[..i]
      {
        rows := rows + [BatchRow(batches[i], Pending, 0, 0, 0, [])];
        tickets := tickets + [Ticket(i, 0, ToEnqueue)];
      }
    }

    method MoveTicket(i: nat, phase: Phase)
      requires i < |tickets|
      modifies this`tickets
      ensures tickets == old(tickets)[i := old(tickets)[i].(phase := phase)]
    {
      tickets := tickets[i := tickets[i].(phase := phase)];
    }

    method AddToQueue(i: nat)
      requires Enabled(Snapshot(), Enqueue(i))
      modifies this
      ensures Snapshot() == Next(old(Snapshot()), Enqueue(i))
    {
      MoveTicket(i, Queued);
    }

    method TakeFromQueue(i: nat)
      requires Enabled(Snapshot(), Dequeue(i))
      modifies this
      ensures Snapshot() == Next(old(Snapshot()), Dequeue(i))
    {
      tickets := tickets[i := tickets[i].(phase := Dequeued, attempts := tickets[i].attempts + 1)];
    }

    method MarkProcessing(i: nat)
      requires Enabled(Snapshot(), Start(i))
      modifies this
      ensures Snapshot() == Next(old(Snapshot()), Start(i))
    {
      var b := tickets[i].batch;
      rows := rows[b := rows[b].(status := Processing)];
      MoveTicket(i, Working);
    }

    method MarkCompleted(i: nat, named: seq<string>, tokensIn: nat, tokensOut: nat)
      requires Enabled(Snapshot(), Complete(i, named, tokensIn, tokensOut))
      modifies this
      ensures Snapshot() == Next(old(Snapshot()), Complete(i, named, tokensIn, tokensOut))
    {
      var b := tickets[i].batch;
      rows := rows[b := rows[b].(status := Completed, actualTokensIn := tokensIn, actualTokensOut := tokensOut,
                                 named := named)];
      MoveTicket(i, ToCount(Delta(|named|, tokensIn, tokensOut)));
    }

    method CatchFailure(i: nat)
      requires Enabled(Snapshot(), Raise(i))
      modifies this
      ensures Snapshot() == Next(old(Snapshot()), Raise(i))
    {
      MoveTicket(i, Raised);
    }

    /** Increments retry_count and decides between a retry and giving up. */
    method RecordFailure(i: nat) returns (retrying: bool)
      requires Enabled(Snapshot(), Bump(i))
      modifies this
      ensures Snapshot() == Next(old(Snapshot()), Bump(i))
      ensures retrying <==> Snapshot().tickets[i].phase == Bumped(true)
    {
      var b := tickets[i].batch;
      rows := rows[b := rows[b].(retryCount := rows[b].retryCount + 1)];
      retrying := rows[b].retryCount <= MAX_RETRIES;
      MoveTicket(i, Bumped(retrying));
    }

    method MarkRetrying(i: nat)
      requires Enabled(Snapshot(), GiveBack(i))
      modifies this
      ensures Snapshot() == Next(old(Snapshot()), GiveBack(i))
    {
      var b := tickets[i].batch;
      rows := rows[b := rows[b].(status := Retrying)];
      MoveTicket(i, ToEnqueue);
    }

    method MarkFailed(i: nat)
      requires Enabled(Snapshot(), GiveUp(i))
      modifies this
      ensures Snapshot() == Next(old(Snapshot()), GiveUp(i))
    {
      var b := tickets[i].batch;
      rows := rows[b := rows[b].(status := Failed)];
      MoveTicket(i, ToCount(NO_PROGRESS));
    }

    /** finalizeJobProgress up to the progress event: the increments and the finalize decision. */
    method AdvanceProgress(i: nat)
      requires Enabled(Snapshot(), Count(i))
      modifies this
      ensures Snapshot() == Next(old(Snapshot()), Count(i))
    {
      job := job.(counters := AddDelta(job.counters, tickets[i].phase.delta),
                  batchesCompleted := job.batchesCompleted + 1);
      var percent := if job.totalArticles > 0 then job.counters.processed * 100 / job.totalArticles else 0;
      MoveTicket(i, Counted(percent, job.batchesCompleted >= job.batchCount));
    }

    method PublishProgress(i: nat)
      requires Enabled(Snapshot(), Publish(i))
      modifies this
      ensures Snapshot() == Next(old(Snapshot()), Publish(i))
    {
      progress := progress + [tickets[i].phase.percent];
      MoveTicket(i, if tickets[i].phase.last then Finalizing else Finished);
    }

    /** Reads every batch of the job, derives the final status and writes it. */
    method FinalizeJob(i: nat)
      requires Enabled(Snapshot(), Finalize(i))
      modifies this
      ensures Snapshot() == Next(old(Snapshot()), Finalize(i))
    {
      var failed := 0;
      for b := 0 to |rows|
        invariant failed == Sum(rows[..b], FailedOne)
      {
        assert rows[..b + 1][..b] == rows[..b];
        if rows[b].status == Failed {
          failed := failed + 1;
        }
      }
      assert rows[..|rows|] == rows;
      var status :=
        if failed == 0 then JobCompleted else if failed == |rows| then JobFailed else JobPartial;
      job := job.(status := status);
      verdicts := verdicts + [status];
      MoveTicket(i, Finished);
    }

    /** The reset transaction of retryFailedBatches: every failed row goes back to pending with a
        clean retry count, and is noted for the enqueue loop that follows. */
    method ResetFailedBatches() returns (retried: nat)
      modifies this
      ensures Snapshot() == Next(old(Snapshot()), Reset)
      ensures retried == |FreshTickets(old(rows))|
      ensures PutBack(old(rows), rows)
    {
      var before := rows;
      var failed: seq<Ticket> := [];
      for b := 0 to |before|
        modifies this`rows
        invariant |rows| == |before|
        invariant forall k :: 0 <= k < b ==> rows[k] == ResetRow(before[k])
        invariant forall k :: b <= k < |before| ==> rows[k] == before[k]
        invariant failed == FreshTickets(before[..b])
      {
        assert before[..b + 1][..b] == before[..b];
        if before[b].status == Failed {
          rows := rows[b := rows[b].(status := Pending, retryCount := 0)];
          failed := failed + [Ticket(b, 0, ToEnqueue)];
        }
      }
      assert before[..|before|] == before;
      assert rows == ResetRows(before);
      tickets := tickets + failed;
      resets := resets + |failed|;
      retried := |failed|;
    }

    // -------------------------------------------------------------------------------------
    // The worker
    // -------------------------------------------------------------------------------------

    /** Counts the batch, publishes the progress, and finalizes the job if the counter says so. */
    method FinalizeJobProgress(i: nat)
      requires Enabled(Snapshot(), Count(i))
      modifies this
      ensures Snapshot() == Settled(old(Snapshot()), i, old(tickets[i].phase.delta))
    {
      ghost var s := Snapshot();
      SettleIsSteps(s, i);
      hide Settled, Percent, Verdict, AddDelta;
      AdvanceProgress(i);
      var isLast := job.batchesCompleted >= job.batchCount;
      PublishProgress(i);
      if isLast {
        FinalizeJob(i);
      }
    }

    /** A retry while they last; after that the batch is failed and counted all the same. */
    method HandleBatchFailure(i: nat)
      requires Enabled(Snapshot(), Bump(i))
      modifies this
      ensures Snapshot() == AfterFailure(old(Snapshot()), i)
    {
      FailureIsSteps(Snapshot(), i);
      hide AfterFailure, Settled;
      var retrying := RecordFailure(i);
      if retrying {
        MarkRetrying(i);
        AddToQueue(i);
        return;
      }
      MarkFailed(i);
      FinalizeJobProgress(i);
    }

    /** One queue entry from pick-up to the end, the exception path included: the ticket ends finished or
        back in the queue, by a run of the protocol. */
    method EnrichBatchProcessor(i: nat, outcome: Outcome) returns (result: BatchResult)
      requires Inv(Snapshot()) && Enabled(Snapshot(), Dequeue(i))
      modifies this
      ensures Snapshot() == AfterAttempt(old(Snapshot()), i, outcome)
      ensures Inv(Snapshot()) && Leads(old(Snapshot()), Snapshot())
      ensures tickets[i].phase == Finished || tickets[i].phase == Queued
      ensures result == if outcome.Answers? then Processed(|outcome.named|) else FailedAttempt
    {
      ghost var s := Snapshot();
      if outcome.Answers? {
        AnswerIsSteps(s, i, outcome);
      } else {
        ThrowIsSteps(s, i, outcome);
      }
      AttemptIsRun(s, i, outcome);
      AttemptSettles(s, i, outcome);
      hide Inv, Leads, AfterAttempt, AfterFailure, Settled;
      TakeFromQueue(i);
      if outcome.Throws? && !outcome.started {
        CatchFailure(i);
        HandleBatchFailure(i);
        return FailedAttempt;
      }
      MarkProcessing(i);
      if outcome.Throws? {
        CatchFailure(i);
        HandleBatchFailure(i);
        return FailedAttempt;
      }
      MarkCompleted(i, outcome.named, outcome.tokensIn, outcome.tokensOut);
      FinalizeJobProgress(i);
      result := Processed(|outcome.named|);
    }

    // -------------------------------------------------------------------------------------
    // Filling the queue
    // -------------------------------------------------------------------------------------

    method EnqueueFrom(from: nat)
      requires from <= |tickets|
      requires forall k :: from <= k < |tickets| ==> Enabled(Snapshot(), Enqueue(k))
      modifies this
      ensures Snapshot() == old(Snapshot()).(tickets := tickets)
      ensures Enqueued(old(tickets), tickets, from)
      ensures Leads(old(Snapshot()), Snapshot())
    {
      ghost var s := Snapshot();
      LeadsSelf(s);
      hide Leads;
      for i := from to |tickets|
        invariant |tickets| == |s.tickets|
        invariant Snapshot() == s.(tickets := tickets)
        invariant forall k :: 0 <= k < |tickets| ==>
                    tickets[k] == if from <= k < i then s.tickets[k].(phase := Queued) else s.tickets[k]
        invariant Leads(s, Snapshot())
      {
        assert Enabled(s, Enqueue(i));
        LeadsNext(s, Snapshot(), Enqueue(i));
        AddToQueue(i);
      }
    }

    /** The agent's fan-out: one queue entry per batch. */
    method Act()
      requires forall k :: 0 <= k < |tickets| ==> Enabled(Snapshot(), Enqueue(k))
      modifies this
      ensures Snapshot() == old(Snapshot()).(tickets := tickets)
      ensures |tickets| == |old(tickets)|
      ensures forall k :: 0 <= k < |tickets| ==>
                tickets[k] == Ticket(old(tickets)[k].batch, old(tickets)[k].attempts, Queued)
      ensures Leads(old(Snapshot()), Snapshot())
    {
      EnqueueFrom(0);
    }

    /** Puts every failed row back and enqueues one entry for each; everyone else's is left alone. */
    method RetryFailedBatches() returns (retried: nat)
      requires Inv(Snapshot())
      modifies this
      ensures Inv(Snapshot()) && Leads(old(Snapshot()), Snapshot())
      ensures PutBack(old(rows), rows) && retried == Sum(old(rows), FailedOne)
      ensures |tickets| == |old(tickets)| + retried && tickets[..|old(tickets)|] == old(tickets)
      ensures forall k :: |old(tickets)| <= k < |tickets| ==>
                && tickets[k].batch < |rows| && old(rows)[tickets[k].batch].status == Failed
                && tickets[k] == Ticket(tickets[k].batch, 0, Queued)
      ensures job == old(job) && progress == old(progress) && verdicts == old(verdicts)
    {
      ghost var s := Snapshot();
      LeadsSelf(s);
      LeadsNext(s, s, Reset);
      var from := |tickets|;
      OneTicketPerFailedRow(rows);
      ResetWaits(s);
      hide Leads, Inv, Sum, ResetRows, FreshTickets, PutBack, Next, Enabled;
      retried := ResetFailedBatches();
      ghost var m := Snapshot();
      EnqueueFrom(from);
      LeadsTwice(s, m, Snapshot());
      LeadsKeepsInv(s, Snapshot());
    }
  }

  lemma ResetWaits(s: State)
    requires Inv(s)
    ensures var m := Next(s, Reset);
            && m.job == s.job && m.progress == s.progress && m.verdicts == s.verdicts && |m.rows| == |s.rows|
            && |m.tickets| == |s.tickets| + |FreshTickets(s.rows)| && m.tickets[..|s.tickets|] == s.tickets
            && (forall k :: |s.tickets| <= k < |m.tickets| ==>
                  && Enabled(m, Enqueue(k))
                  && m.tickets[k].batch < |s.rows| && s.rows[m.tickets[k].batch].status == Failed
                  && m.tickets[k] == Ticket(m.tickets[k].batch, 0, ToEnqueue))
  {
    FreshAre(s.rows);
    hide Inv, Sum, FreshTickets;
    var m := Next(s, Reset);
    forall k | |s.tickets| <= k < |m.tickets| ensures m.tickets[k] in FreshTickets(s.rows) {
    }
  }
}
