/** One call of the batch processor as a whole: what an attempt that nobody interrupts leaves behind, and
    that it is a run of the protocol. */
module EnrichmentAttempts {
  import opened Sums
  import opened EnrichmentProtocol
  import opened EnrichmentInvariant
  import opened EnrichmentRuns

  /** How the work on a batch ends. An exception may come before or after the processing write. */
  datatype Outcome =
    | Answers(named: seq<string>, tokensIn: nat, tokensOut: nat)
    | Throws(started: bool)

  predicate HasTicket(s: State, i: nat) {
    i < |s.tickets| && s.tickets[i].batch < |s.rows|
  }

  /** One more batch counted: its progress published, and the job finalized if it was the last. */
  function Settled(s: State, i: nat, delta: Delta): State
    requires HasTicket(s, i)
  {
    var counters, done := AddDelta(s.job.counters, delta), s.job.batchesCompleted + 1;
    var last := done >= s.job.batchCount;
    MoveTo(s, i, Finished)
    .(job := s.job.(counters := counters, batchesCompleted := done,
                    status := if last then Verdict(s.rows) else s.job.status),
      progress := s.progress + [Percent(counters.processed, s.job.totalArticles)],
      verdicts := if last then s.verdicts + [Verdict(s.rows)] else s.verdicts)
  }

  /** One more failure: back to the queue while the retries last, otherwise failed and settled. */
  function AfterFailure(s: State, i: nat): State
    requires HasTicket(s, i)
  {
    var b := s.tickets[i].batch;
    var count := s.rows[b].retryCount + 1;
    if count <= MAX_RETRIES then
      MoveTo(WriteRow(s, b, s.rows[b].(status := Retrying, retryCount := count)), i, Queued)
    else
      Settled(WriteRow(s, b, s.rows[b].(status := Failed, retryCount := count)), i, NO_PROGRESS)
  }

  /** The state after the processor has worked on ticket i. */
  function AfterAttempt(s: State, i: nat, outcome: Outcome): State
    requires HasTicket(s, i)
  {
    var b, t := s.tickets[i].batch, s.tickets[i];
    var picked := s.(tickets := s.tickets[i := t.(attempts := t.attempts + 1)]);
    match outcome
    case Answers(named, tokensIn, tokensOut) =>
      Settled(WriteRow(picked, b, s.rows[b].(status := Completed, named := named,
                                             actualTokensIn := tokensIn, actualTokensOut := tokensOut)),
              i, Delta(|named|, tokensIn, tokensOut))
    case Throws(_) => AfterFailure(picked, i)
  }

  // ---------------------------------------------------------------------------------------
  // Attempts are runs
  // ---------------------------------------------------------------------------------------

  /** Counting, publishing and, for the last batch, finalizing. */
  function SettleSteps(s: State, i: nat): State
    requires Enabled(s, Count(i))
  {
    var published := Next(Next(s, Count(i)), Publish(i));
    if published.tickets[i].phase == Finalizing then Next(published, Finalize(i)) else published
  }

  lemma SettleIsSteps(s: State, i: nat)
    requires Enabled(s, Count(i))
    ensures SettleSteps(s, i) == Settled(s, i, s.tickets[i].phase.delta)
  {
    hide Percent, Verdict, AddDelta;
  }

  lemma SettleIsRun(s0: State, s: State, i: nat)
    requires Leads(s0, s) && Enabled(s, Count(i))
    ensures Leads(s0, Settled(s, i, s.tickets[i].phase.delta))
  {
    SettleIsSteps(s, i);
    hide Leads, Settled, Percent, Verdict;
    LeadsNext(s0, s, Count(i));
    var counted := Next(s, Count(i));
    LeadsNext(s0, counted, Publish(i));
    var published := Next(counted, Publish(i));
    if published.tickets[i].phase == Finalizing {
      LeadsNext(s0, published, Finalize(i));
    }
  }

  /** Recording a failure, and then the retry or the final write. */
  function FailureSteps(s: State, i: nat): State
    requires Enabled(s, Bump(i))
  {
    var bumped := Next(s, Bump(i));
    if bumped.tickets[i].phase.retrying then Next(Next(bumped, GiveBack(i)), Enqueue(i))
    else
      var failed := Next(bumped, GiveUp(i));
      Settled(failed, i, failed.tickets[i].phase.delta)
  }

  lemma FailureIsSteps(s: State, i: nat)
    requires Enabled(s, Bump(i))
    ensures FailureSteps(s, i) == AfterFailure(s, i)
  {
    hide Percent, Verdict, AddDelta;
    var bumped := Next(s, Bump(i));
    if bumped.tickets[i].phase.retrying {
      assert Next(Next(bumped, GiveBack(i)), Enqueue(i)).rows == AfterFailure(s, i).rows;
    } else {
      var b, failed := s.tickets[i].batch, Next(bumped, GiveUp(i));
      assert failed.rows == s.rows[b := s.rows[b].(status := Failed, retryCount := s.rows[b].retryCount + 1)];
      assert Settled(failed, i, NO_PROGRESS).tickets == AfterFailure(s, i).tickets;
    }
  }

  lemma FailureIsRun(s0: State, s: State, i: nat)
    requires Leads(s0, s) && Enabled(s, Bump(i))
    ensures Leads(s0, AfterFailure(s, i))
  {
    FailureIsSteps(s, i);
    hide Leads, AfterFailure, Settled;
    LeadsNext(s0, s, Bump(i));
    var bumped := Next(s, Bump(i));
    if bumped.tickets[i].phase.retrying {
      LeadsNext(s0, bumped, GiveBack(i));
      LeadsNext(s0, Next(bumped, GiveBack(i)), Enqueue(i));
    } else {
      LeadsNext(s0, bumped, GiveUp(i));
      SettleIsRun(s0, Next(bumped, GiveUp(i)), i);
    }
  }

  /** The state in which the work of an attempt has ended, one way or the other. */
  function WorkEnded(s: State, i: nat, outcome: Outcome): State
    requires Enabled(s, Dequeue(i))
  {
    var picked := Next(s, Dequeue(i));
    match outcome
    case Answers(named, tokensIn, tokensOut) => Next(Next(picked, Start(i)), Complete(i, named, tokensIn, tokensOut))
    case Throws(started) => Next(if started then Next(picked, Start(i)) else picked, Raise(i))
  }

  lemma AnswerIsSteps(s: State, i: nat, outcome: Outcome)
    requires Enabled(s, Dequeue(i)) && outcome.Answers?
    ensures var e := WorkEnded(s, i, outcome);
            Enabled(e, Count(i)) && AfterAttempt(s, i, outcome) == Settled(e, i, e.tickets[i].phase.delta)
  {
    hide Percent, Verdict, AddDelta;
    var e := WorkEnded(s, i, outcome);
    assert Settled(e, i, e.tickets[i].phase.delta).rows == AfterAttempt(s, i, outcome).rows;
    assert Settled(e, i, e.tickets[i].phase.delta).tickets == AfterAttempt(s, i, outcome).tickets;
  }

  lemma ThrowIsSteps(s: State, i: nat, outcome: Outcome)
    requires Enabled(s, Dequeue(i)) && outcome.Throws?
    ensures var e := WorkEnded(s, i, outcome);
            Enabled(e, Bump(i)) && AfterAttempt(s, i, outcome) == AfterFailure(e, i)
  {
    hide Percent, Verdict, AddDelta;
    var e := WorkEnded(s, i, outcome);
    assert AfterFailure(e, i).rows == AfterAttempt(s, i, outcome).rows;
    assert AfterFailure(e, i).tickets == AfterAttempt(s, i, outcome).tickets;
  }

  lemma WorkIsRun(s: State, i: nat, outcome: Outcome)
    requires Enabled(s, Dequeue(i))
    ensures Leads(s, WorkEnded(s, i, outcome))
  {
    LeadsSelf(s);
    hide Leads;
    LeadsNext(s, s, Dequeue(i));
    var picked := Next(s, Dequeue(i));
    if outcome.Answers? || outcome.started {
      LeadsNext(s, picked, Start(i));
      var working := Next(picked, Start(i));
      LeadsNext(s, working, if outcome.Answers? then Complete(i, outcome.named, outcome.tokensIn, outcome.tokensOut)
                            else Raise(i));
    } else {
      LeadsNext(s, picked, Raise(i));
    }
  }

  lemma AttemptIsRun(s: State, i: nat, outcome: Outcome)
    requires Enabled(s, Dequeue(i))
    ensures Leads(s, AfterAttempt(s, i, outcome))
  {
    hide Leads, AfterAttempt, AfterFailure, Settled, WorkEnded;
    WorkIsRun(s, i, outcome);
    if outcome.Answers? {
      AnswerIsSteps(s, i, outcome);
      SettleIsRun(s, WorkEnded(s, i, outcome), i);
    } else {
      ThrowIsSteps(s, i, outcome);
      FailureIsRun(s, WorkEnded(s, i, outcome), i);
    }
  }

  lemma LeadsKeepsInv(s: State, t: State)
    requires Inv(s) && Leads(s, t)
    ensures Inv(t)
  {
    var steps :| Run(s, steps, t);
    RunKeepsInv(s, steps, t);
  }

  /** From any state of the protocol one call of the processor keeps the invariant and either finishes its
      ticket, its batch then being completed or, on the third failure, failed and counted; or puts it
      back in the queue with the batch uncounted. Nobody else's ticket or batch is touched. */
  lemma AttemptSettles(s: State, i: nat, outcome: Outcome)
    requires Inv(s) && Enabled(s, Dequeue(i))
    ensures Inv(AfterAttempt(s, i, outcome))
    ensures var s', b := AfterAttempt(s, i, outcome), s.tickets[i].batch;
            && |s'.tickets| == |s.tickets| && |s'.rows| == |s.rows|
            && s'.tickets[i].attempts == s.tickets[i].attempts + 1
            && s'.tickets[i].phase == (if Terminal(s'.rows[b].status) then Finished else Queued)
            && (s'.rows[b].status == Completed <==> outcome.Answers?)
            && (s'.rows[b].status == Failed <==> outcome.Throws? && s'.tickets[i].attempts == 3)
            && s'.job.batchesCompleted == s.job.batchesCompleted + (if Terminal(s'.rows[b].status) then 1 else 0)
            && (forall j :: 0 <= j < |s.tickets| && j != i ==> s'.tickets[j] == s.tickets[j])
            && (forall c :: 0 <= c < |s.rows| && c != b ==> s'.rows[c] == s.rows[c])
  {
    AttemptIsRun(s, i, outcome);
    LeadsKeepsInv(s, AfterAttempt(s, i, outcome));
    OwnerIsOpen(s, i);
    assert TicketFits(s.tickets[i], s.rows[s.tickets[i].batch]);
    hide Inv, Leads, Percent, Verdict, AddDelta;
  }

  // ---------------------------------------------------------------------------------------
  // What an attempt records
  // ---------------------------------------------------------------------------------------

  /** The floor of 100 * processed / total, and 0 for a job without articles. */
  predicate IsPercent(percent: int, processed: nat, total: nat) {
    if total == 0 then percent == 0
    else percent * total <= 100 * processed < (percent + 1) * total
  }

  lemma PercentIs(processed: nat, total: nat)
    ensures IsPercent(Percent(processed, total), processed, total)
  {
  }

  /** A status is written exactly when the last batch is counted, and it is the verdict of the rows. */
  predicate FinalizedIfLast(s: State, s': State) {
    if s'.job.batchesCompleted >= s.job.batchCount
    then s'.job.status == Verdict(s'.rows) && s'.verdicts == s.verdicts + [s'.job.status]
    else s'.job.status == s.job.status && s'.verdicts == s.verdicts
  }

  /** One more percent is published: that of the counters after the call. */
  predicate PublishedOne(s: State, s': State) {
    && |s'.progress| == |s.progress| + 1 && s'.progress[..|s.progress|] == s.progress
    && IsPercent(s'.progress[|s.progress|], s'.job.counters.processed, s.job.totalArticles)
  }

  /** An answer is recorded as given: its ids and its tokens in the batch row, whose articles stay; the
      counters grow by its length and its tokens; one percent is published; the last batch finalizes. */
  lemma AnswerRecords(s: State, i: nat, named: seq<string>, tokensIn: nat, tokensOut: nat)
    requires HasTicket(s, i)
    ensures var s', b := AfterAttempt(s, i, Answers(named, tokensIn, tokensOut)), s.tickets[i].batch;
            && |s'.rows| == |s.rows|
            && s'.rows[b].status == Completed && s'.rows[b].articleIds == s.rows[b].articleIds
            && s'.rows[b].named == named && s'.rows[b].retryCount == s.rows[b].retryCount
            && s'.rows[b].actualTokensIn == tokensIn && s'.rows[b].actualTokensOut == tokensOut
            && s'.job.counters.processed == s.job.counters.processed + |named|
            && s'.job.counters.tokensIn == s.job.counters.tokensIn + tokensIn
            && s'.job.counters.tokensOut == s.job.counters.tokensOut + tokensOut
            && s'.job.totalArticles == s.job.totalArticles && s'.job.batchCount == s.job.batchCount
            && s'.job.batchesCompleted == s.job.batchesCompleted + 1 && s'.resets == s.resets
            && PublishedOne(s, s') && FinalizedIfLast(s, s')
  {
    PercentIs(s.job.counters.processed + |named|, s.job.totalArticles);
    hide Percent, IsPercent, Verdict;
  }

  /** A failure leaves the counters and everything recorded of the batch but its retry count and status.
      While retries remain nothing is published; the third failure counts the batch all the same. */
  lemma FailureRecords(s: State, i: nat, started: bool)
    requires HasTicket(s, i)
    ensures var s', b := AfterAttempt(s, i, Throws(started)), s.tickets[i].batch;
            && |s'.rows| == |s.rows|
            && s'.rows[b].articleIds == s.rows[b].articleIds && s'.rows[b].named == s.rows[b].named
            && s'.rows[b].actualTokensIn == s.rows[b].actualTokensIn
            && s'.rows[b].actualTokensOut == s.rows[b].actualTokensOut
            && s'.rows[b].retryCount == s.rows[b].retryCount + 1
            && s'.job.counters == s.job.counters && s'.resets == s.resets
            && s'.job.totalArticles == s.job.totalArticles && s'.job.batchCount == s.job.batchCount
            && (if s.rows[b].retryCount < 2 then
                  s'.rows[b].status == Retrying && s'.job == s.job && s'.progress == s.progress && s'.verdicts == s.verdicts
                else
                  s'.rows[b].status == Failed && s'.job.batchesCompleted == s.job.batchesCompleted + 1
                  && PublishedOne(s, s') && FinalizedIfLast(s, s'))
  {
    PercentIs(s.job.counters.processed, s.job.totalArticles);
    hide Percent, IsPercent, Verdict;
  }

  // ---------------------------------------------------------------------------------------
  // Sequences of calls
  // ---------------------------------------------------------------------------------------

  datatype Call = Call(ticket: nat, outcome: Outcome)

  /** What a call's outcome adds to a counter. */
  function Given(c: Counter): Call -> int {
    (call: Call) =>
      match call.outcome
      case Answers(named, tokensIn, tokensOut) =>
        (match c
         case ProcessedCount => |named|
         case TotalTokensIn => tokensIn
         case TotalTokensOut => tokensOut)
      case Throws(_) => 0
  }

  /** The processor called again and again, each time for a queued ticket. */
  predicate CallRun(s: State, calls: seq<Call>, t: State)
    decreases |calls|
  {
    if calls == [] then s == t
    else
      && Enabled(s, Dequeue(calls[0].ticket))
      && CallRun(AfterAttempt(s, calls[0].ticket, calls[0].outcome), calls[1..], t)
  }

  /** Over any sequence of processor calls the totals grow by the sums over the answers given. */
  lemma {:induction false} CallsAddUp(s: State, calls: seq<Call>, t: State)
    requires CallRun(s, calls, t)
    ensures t.job.counters.processed == s.job.counters.processed + Sum(calls, Given(ProcessedCount))
    ensures t.job.counters.tokensIn == s.job.counters.tokensIn + Sum(calls, Given(TotalTokensIn))
    ensures t.job.counters.tokensOut == s.job.counters.tokensOut + Sum(calls, Given(TotalTokensOut))
    decreases |calls|
  {
    if calls != [] {
      var call := calls[0];
      var m := AfterAttempt(s, call.ticket, call.outcome);
      match call.outcome {
        case Answers(named, tokensIn, tokensOut) => AnswerRecords(s, call.ticket, named, tokensIn, tokensOut);
        case Throws(started) => FailureRecords(s, call.ticket, started);
      }
      hide AfterAttempt, PublishedOne, FinalizedIfLast;
      CallsAddUp(m, calls[1..], t);
      SumFront(calls, Given(ProcessedCount));
      SumFront(calls, Given(TotalTokensIn));
      SumFront(calls, Given(TotalTokensOut));
    }
  }

  // ---------------------------------------------------------------------------------------
  // The enqueue loops
  // ---------------------------------------------------------------------------------------

  /** Every ticket from `from` on has been put in the queue. */
  predicate Enqueued(before: seq<Ticket>, after: seq<Ticket>, from: nat) {
    && |after| == |before|
    && forall k :: 0 <= k < |before| ==> after[k] == if k < from then before[k] else before[k].(phase := Queued)
  }

  lemma {:induction false} OneTicketPerFailedRow(rows: seq<BatchRow>)
    ensures |FreshTickets(rows)| == Sum(rows, FailedOne)
  {
    if rows != [] {
      OneTicketPerFailedRow(rows[..|rows| - 1]);
    }
  }
}
