/** What every step of the enrichment protocol keeps. */
module EnrichmentInvariant {
  import opened Sums
  import opened EnrichmentProtocol

  // ---------------------------------------------------------------------------------------
  // Weights summed over tickets and rows
  // ---------------------------------------------------------------------------------------

  /** The phases in which a ticket is the outstanding owner of its batch. */
  predicate Owns(phase: Phase) {
    phase.ToEnqueue? || phase.Queued? || phase.Dequeued? || phase.Working? || phase.Raised? || phase.Bumped?
  }

  predicate Closes(phase: Phase) {
    phase.Finalizing? || (phase.Counted? && phase.last)
  }

  function OwnerOf(b: nat): Ticket -> int {
    (t: Ticket) => if t.batch == b && Owns(t.phase) then 1 else 0
  }

  function Uncounted(): Ticket -> int {
    (t: Ticket) => if t.phase.ToCount? then 1 else 0
  }

  function Closing(): Ticket -> int {
    (t: Ticket) => if Closes(t.phase) then 1 else 0
  }

  function Pick(d: Delta, c: Counter): int {
    match c
    case ProcessedCount => d.processed
    case TotalTokensIn => d.tokensIn
    case TotalTokensOut => d.tokensOut
  }

  function InFlight(c: Counter): Ticket -> int {
    (t: Ticket) => if t.phase.ToCount? then Pick(t.phase.delta, c) else 0
  }

  /** What a batch row accounts for: the response's size and tokens once completed. */
  function Accounted(c: Counter): BatchRow -> int {
    (row: BatchRow) =>
      if row.status == Completed
      then Pick(Delta(|row.named|, row.actualTokensIn, row.actualTokensOut), c)
      else 0
  }

  function Open(): BatchRow -> int {
    (row: BatchRow) => if Terminal(row.status) then 0 else 1
  }

  // ---------------------------------------------------------------------------------------
  // The invariant
  // ---------------------------------------------------------------------------------------

  /** Attempts and retry count agree, and a chain never makes a fourth attempt. */
  predicate TicketFits(t: Ticket, row: BatchRow) {
    match t.phase
    case ToEnqueue => t.attempts == row.retryCount <= MAX_RETRIES
    case Queued => t.attempts == row.retryCount <= MAX_RETRIES
    case Dequeued => t.attempts == row.retryCount + 1 && row.retryCount <= MAX_RETRIES
    case Working => t.attempts == row.retryCount + 1 && row.retryCount <= MAX_RETRIES
    case Raised => t.attempts == row.retryCount + 1 && row.retryCount <= MAX_RETRIES
    case Bumped(retrying) =>
      t.attempts == row.retryCount <= MAX_RETRIES + 1 && retrying == (row.retryCount <= MAX_RETRIES)
    case _ => t.attempts <= MAX_RETRIES + 1
  }

  predicate TicketsFit(s: State) {
    forall i :: 0 <= i < |s.tickets| ==>
      s.tickets[i].batch < |s.rows| && TicketFits(s.tickets[i], s.rows[s.tickets[i].batch])
  }

  /** Each non-terminal batch has exactly one outstanding owner, a terminal one has none. */
  predicate OneOwner(s: State) {
    forall b: nat :: b < |s.rows| ==> Sum(s.tickets, OwnerOf(b)) == Open()(s.rows[b])
  }

  /** A batch is given up only after its third failure. */
  predicate GivenUpLate(s: State) {
    forall b :: 0 <= b < |s.rows| && s.rows[b].status == Failed ==> s.rows[b].retryCount == MAX_RETRIES + 1
  }

  /** Every batch is counted once per terminal write. */
  predicate BatchesBalance(s: State) {
    s.job.batchesCompleted + Sum(s.tickets, Uncounted()) + Sum(s.rows, Open())
      == s.job.batchCount + s.resets
  }

  predicate CountersBalance(s: State) {
    forall c: Counter ::
      Pick(s.job.counters, c) + Sum(s.tickets, InFlight(c)) == Sum(s.rows, Accounted(c))
  }

  /** Something that will still lead to a finalizeJob. */
  predicate Outstanding(s: State) {
    Sum(s.tickets, Uncounted()) + Sum(s.rows, Open()) + Sum(s.tickets, Closing()) > 0
  }

  predicate StatusSettles(s: State) {
    s.job.status == Verdict(s.rows) || Outstanding(s)
  }

  /** Without a manual reset, at most one finalizer, and it starts when every batch is counted. */
  predicate FinalizesOnce(s: State) {
    s.resets == 0 ==>
      && |s.verdicts| + Sum(s.tickets, Closing())
         == (if s.job.batchesCompleted == s.job.batchCount then 1 else 0)
      && (forall k :: 0 <= k < |s.verdicts| ==> s.verdicts[k] == Verdict(s.rows))
  }

  predicate Inv(s: State) {
    && s.rows != [] && s.job.batchCount == |s.rows|
    && TicketsFit(s)
    && OneOwner(s)
    && GivenUpLate(s)
    && BatchesBalance(s)
    && CountersBalance(s)
    && StatusSettles(s)
    && FinalizesOnce(s)
  }

  // ---------------------------------------------------------------------------------------
  // How the sums move
  // ---------------------------------------------------------------------------------------

  /** Rewriting ticket i moves each ticket sum by the difference of the two weights. */
  lemma TicketMoved(ts: seq<Ticket>, i: nat, t: Ticket)
    requires i < |ts|
    ensures forall b: nat :: Sum(ts[i := t], OwnerOf(b)) == Sum(ts, OwnerOf(b)) - OwnerOf(b)(ts[i]) + OwnerOf(b)(t)
    ensures Sum(ts[i := t], Uncounted()) == Sum(ts, Uncounted()) - Uncounted()(ts[i]) + Uncounted()(t)
    ensures Sum(ts[i := t], Closing()) == Sum(ts, Closing()) - Closing()(ts[i]) + Closing()(t)
    ensures forall c: Counter :: Sum(ts[i := t], InFlight(c)) == Sum(ts, InFlight(c)) - InFlight(c)(ts[i]) + InFlight(c)(t)
  {
    forall b: nat
      ensures Sum(ts[i := t], OwnerOf(b)) == Sum(ts, OwnerOf(b)) - OwnerOf(b)(ts[i]) + OwnerOf(b)(t)
    {
      SumUpdate(ts, i, t, OwnerOf(b));
    }
    SumUpdate(ts, i, t, Uncounted());
    SumUpdate(ts, i, t, Closing());
    forall c: Counter
      ensures Sum(ts[i := t], InFlight(c)) == Sum(ts, InFlight(c)) - InFlight(c)(ts[i]) + InFlight(c)(t)
    {
      SumUpdate(ts, i, t, InFlight(c));
    }
  }

  lemma RowWritten(rows: seq<BatchRow>, b: nat, row: BatchRow)
    requires b < |rows|
    ensures Sum(rows[b := row], Open()) == Sum(rows, Open()) - Open()(rows[b]) + Open()(row)
    ensures forall c: Counter :: Sum(rows[b := row], Accounted(c)) == Sum(rows, Accounted(c)) - Accounted(c)(rows[b]) + Accounted(c)(row)
  {
    SumUpdate(rows, b, row, Open());
    forall c: Counter
      ensures Sum(rows[b := row], Accounted(c)) == Sum(rows, Accounted(c)) - Accounted(c)(rows[b]) + Accounted(c)(row)
    {
      SumUpdate(rows, b, row, Accounted(c));
    }
  }

  lemma WeightsNonNegative(s: State)
    ensures Sum(s.tickets, Uncounted()) >= 0
    ensures Sum(s.tickets, Closing()) >= 0
    ensures Sum(s.rows, Open()) >= 0
    ensures forall i :: 0 <= i < |s.tickets| ==> Uncounted()(s.tickets[i]) <= Sum(s.tickets, Uncounted())
    ensures forall i :: 0 <= i < |s.tickets| ==> Closing()(s.tickets[i]) <= Sum(s.tickets, Closing())
    ensures forall b :: 0 <= b < |s.rows| ==> Open()(s.rows[b]) <= Sum(s.rows, Open())
  {
    SumNonNegative(s.tickets, Uncounted());
    SumNonNegative(s.tickets, Closing());
    SumNonNegative(s.rows, Open());
  }

  /** Two different tickets cannot both own batch b. */
  lemma OwnersCount(ts: seq<Ticket>, i: nat, j: nat, b: nat)
    requires i < |ts| && j < |ts| && i != j
    requires Sum(ts, OwnerOf(b)) <= 1
    requires OwnerOf(b)(ts[i]) == 1
    ensures OwnerOf(b)(ts[j]) == 0
  {
    var idle := Ticket(b, 0, Finished);
    SumUpdate(ts, i, idle, OwnerOf(b));
    SumNonNegative(ts[i := idle], OwnerOf(b));
    assert ts[i := idle][j] == ts[j];
    assert ts[j] in ts[i := idle];
  }

  // ---------------------------------------------------------------------------------------
  // The steps keep the invariant
  // ---------------------------------------------------------------------------------------

  /** An owning ticket's batch is open, so the job still has work outstanding. */
  lemma OwnerIsOpen(s: State, i: nat)
    requires Inv(s) && i < |s.tickets| && Owns(s.tickets[i].phase)
    ensures Open()(s.rows[s.tickets[i].batch]) == 1
    ensures Sum(s.rows, Open()) >= 1
    ensures s.resets == 0 ==> s.job.batchesCompleted < s.job.batchCount && s.verdicts == []
  {
    var b := s.tickets[i].batch;
    SumNonNegative(s.tickets, OwnerOf(b));
    assert OwnerOf(b)(s.tickets[i]) == 1;
    assert s.tickets[i] in s.tickets;
    WeightsNonNegative(s);
  }

  /** No other ticket and no other batch is out of step with what an owner writes. */
  lemma OwnerStepOwners(s: State, i: nat, t: Ticket, row: BatchRow)
    requires TicketsFit(s) && OneOwner(s) && i < |s.tickets| && Owns(s.tickets[i].phase)
    requires t.batch == s.tickets[i].batch && Open()(s.rows[t.batch]) == 1
    requires TicketFits(t, row) && (if Terminal(row.status) then t.phase.ToCount? else Owns(t.phase))
    ensures TicketsFit(s.(tickets := s.tickets[i := t], rows := s.rows[t.batch := row]))
    ensures OneOwner(s.(tickets := s.tickets[i := t], rows := s.rows[t.batch := row]))
  {
    var s' := s.(tickets := s.tickets[i := t], rows := s.rows[t.batch := row]);
    TicketMoved(s.tickets, i, t);
    hide Sum, TicketFits;
    forall j | 0 <= j < |s'.tickets|
      ensures s'.tickets[j].batch < |s'.rows| && TicketFits(s'.tickets[j], s'.rows[s'.tickets[j].batch])
    {
      if j != i && s.tickets[j].batch == t.batch {
        assert Sum(s.tickets, OwnerOf(t.batch)) == 1;
        OwnersCount(s.tickets, i, j, t.batch);
        SettledFits(s.tickets[j], s.rows[t.batch], row);
      }
    }
    forall b: nat | b < |s'.rows|
      ensures Sum(s'.tickets, OwnerOf(b)) == Open()(s'.rows[b])
    {
      assert Sum(s.tickets, OwnerOf(b)) == Open()(s.rows[b]);
    }
  }

  lemma OwnerStepCounters(s: State, i: nat, t: Ticket, row: BatchRow)
    requires CountersBalance(s) && i < |s.tickets| && Owns(s.tickets[i].phase) && t.batch < |s.rows|
    requires Open()(s.rows[t.batch]) == 1
    requires if Terminal(row.status) then t.phase.ToCount? else Owns(t.phase)
    requires t.phase.ToCount? ==> forall c: Counter :: Accounted(c)(row) == Pick(t.phase.delta, c)
    ensures CountersBalance(s.(tickets := s.tickets[i := t], rows := s.rows[t.batch := row]))
  {
    TicketMoved(s.tickets, i, t);
    RowWritten(s.rows, t.batch, row);
    hide Sum;
    forall c: Counter
      ensures Pick(s.job.counters, c) + Sum(s.tickets[i := t], InFlight(c)) == Sum(s.rows[t.batch := row], Accounted(c))
    {
      assert Pick(s.job.counters, c) + Sum(s.tickets, InFlight(c)) == Sum(s.rows, Accounted(c));
      assert Accounted(c)(s.rows[t.batch]) == 0;
    }
  }

  lemma OwnerStepBalances(s: State, i: nat, t: Ticket, row: BatchRow)
    requires BatchesBalance(s) && FinalizesOnce(s)
    requires i < |s.tickets| && Owns(s.tickets[i].phase) && t.batch < |s.rows| && Open()(s.rows[t.batch]) == 1
    requires s.resets == 0 ==> s.job.batchesCompleted < s.job.batchCount && s.verdicts == []
    requires if Terminal(row.status) then t.phase.ToCount? else Owns(t.phase)
    ensures var s' := s.(tickets := s.tickets[i := t], rows := s.rows[t.batch := row]);
            BatchesBalance(s') && StatusSettles(s') && FinalizesOnce(s')
  {
    hide Sum, Verdict;
    var tickets, rows := s.tickets[i := t], s.rows[t.batch := row];
    SumUpdate(s.tickets, i, t, Uncounted());
    SumUpdate(s.tickets, i, t, Closing());
    SumUpdate(s.rows, t.batch, row, Open());
    SumNonNegative(tickets, Uncounted());
    SumNonNegative(tickets, Closing());
    SumNonNegative(rows, Open());
    assert tickets[i] == t && rows[t.batch] == row;
    assert t in tickets && row in rows;
  }

  lemma SettledFits(t: Ticket, row: BatchRow, row': BatchRow)
    requires TicketFits(t, row) && !Owns(t.phase)
    ensures TicketFits(t, row')
  {
  }

  /** Every step an owner takes: a new phase for ticket i and a new content for its batch row. */
  lemma OwnerStep(s: State, i: nat, t: Ticket, row: BatchRow, s': State)
    requires Inv(s) && i < |s.tickets| && Owns(s.tickets[i].phase)
    requires t.batch == s.tickets[i].batch
    requires s' == s.(tickets := s.tickets[i := t], rows := s.rows[t.batch := row])
    requires TicketFits(t, row)
    requires row.status == Failed ==> row.retryCount == MAX_RETRIES + 1
    requires if Terminal(row.status) then t.phase.ToCount? else Owns(t.phase)
    requires t.phase.ToCount? ==> forall c: Counter :: Accounted(c)(row) == Pick(t.phase.delta, c)
    ensures Inv(s')
  {
    OwnerIsOpen(s, i);
    hide Sum, TicketsFit, OneOwner, TicketFits, CountersBalance, BatchesBalance, StatusSettles, FinalizesOnce;
    OwnerStepOwners(s, i, t, row);
    OwnerStepCounters(s, i, t, row);
    OwnerStepBalances(s, i, t, row);
  }

  /** A step that only rewrites ticket i, whose batch it no longer owns. */
  lemma LateStepFits(s: State, i: nat, t: Ticket)
    requires TicketsFit(s) && OneOwner(s) && i < |s.tickets|
    requires !Owns(s.tickets[i].phase) && !Owns(t.phase)
    requires t.batch == s.tickets[i].batch && t.attempts == s.tickets[i].attempts
    ensures TicketsFit(s.(tickets := s.tickets[i := t]))
    ensures OneOwner(s.(tickets := s.tickets[i := t]))
  {
    TicketMoved(s.tickets, i, t);
    forall b: nat | b < |s.rows|
      ensures Sum(s.tickets[i := t], OwnerOf(b)) == Open()(s.rows[b])
    {
      assert Sum(s.tickets, OwnerOf(b)) == Open()(s.rows[b]);
    }
  }

  lemma CountCounters(s: State, i: nat)
    requires CountersBalance(s) && Enabled(s, Count(i))
    ensures CountersBalance(Next(s, Count(i)))
  {
    var s' := Next(s, Count(i));
    hide Sum, Percent;
    forall c: Counter
      ensures Pick(s'.job.counters, c) + Sum(s'.tickets, InFlight(c)) == Sum(s'.rows, Accounted(c))
    {
      SumUpdate(s.tickets, i, s'.tickets[i], InFlight(c));
      assert Pick(s.job.counters, c) + Sum(s.tickets, InFlight(c)) == Sum(s.rows, Accounted(c));
    }
  }

  lemma CountBalances(s: State, i: nat)
    requires BatchesBalance(s) && FinalizesOnce(s) && Enabled(s, Count(i))
    ensures var s' := Next(s, Count(i)); BatchesBalance(s') && StatusSettles(s') && FinalizesOnce(s')
  {
    var s' := Next(s, Count(i));
    hide Sum, Percent, Verdict;
    SumUpdate(s.tickets, i, s'.tickets[i], Uncounted());
    SumUpdate(s.tickets, i, s'.tickets[i], Closing());
    WeightsNonNegative(s);
    WeightsNonNegative(s');
    assert Uncounted()(s.tickets[i]) == 1;
  }

  lemma CountKeeps(s: State, i: nat)
    requires Inv(s) && Enabled(s, Count(i))
    ensures Inv(Next(s, Count(i)))
  {
    hide Sum, TicketFits, CountersBalance, BatchesBalance, StatusSettles, FinalizesOnce;
    LateStepFits(s, i, Next(s, Count(i)).tickets[i]);
    CountCounters(s, i);
    CountBalances(s, i);
  }

  lemma PublishKeeps(s: State, i: nat)
    requires Inv(s) && Enabled(s, Publish(i))
    ensures Inv(Next(s, Publish(i)))
  {
    var s' := Next(s, Publish(i));
    LateStepFits(s, i, s'.tickets[i]);
    TicketMoved(s.tickets, i, s'.tickets[i]);
    forall c: Counter
      ensures Pick(s'.job.counters, c) + Sum(s'.tickets, InFlight(c)) == Sum(s'.rows, Accounted(c))
    {
      assert Pick(s.job.counters, c) + Sum(s.tickets, InFlight(c)) == Sum(s.rows, Accounted(c));
    }
  }

  lemma FinalizeKeeps(s: State, i: nat)
    requires Inv(s) && Enabled(s, Finalize(i))
    ensures Inv(Next(s, Finalize(i)))
  {
    var s' := Next(s, Finalize(i));
    LateStepFits(s, i, s'.tickets[i]);
    TicketMoved(s.tickets, i, s'.tickets[i]);
    WeightsNonNegative(s');
    forall c: Counter
      ensures Pick(s'.job.counters, c) + Sum(s'.tickets, InFlight(c)) == Sum(s'.rows, Accounted(c))
    {
      assert Pick(s.job.counters, c) + Sum(s.tickets, InFlight(c)) == Sum(s.rows, Accounted(c));
    }
  }

  lemma {:induction false} FreshOwners(rows: seq<BatchRow>, b: nat)
    ensures Sum(FreshTickets(rows), OwnerOf(b)) == (if b < |rows| && rows[b].status == Failed then 1 else 0)
  {
    if rows != [] {
      var n := |rows| - 1;
      var before := FreshTickets(rows[..n]);
      FreshOwners(rows[..n], b);
      SumAppend(before, Ticket(n, 0, ToEnqueue), OwnerOf(b));
      assert before + [] == before;
    }
  }

  lemma {:induction false} ResetSums(rows: seq<BatchRow>, c: Counter)
    ensures Sum(ResetRows(rows), Open()) == Sum(rows, Open()) + |FreshTickets(rows)|
    ensures Sum(ResetRows(rows), Accounted(c)) == Sum(rows, Accounted(c))
  {
    if rows != [] {
      var n := |rows| - 1;
      ResetSums(rows[..n], c);
      SumAppend(ResetRows(rows[..n]), ResetRow(rows[n]), Open());
      SumAppend(ResetRows(rows[..n]), ResetRow(rows[n]), Accounted(c));
    }
  }

  lemma {:induction false} FreshAre(rows: seq<BatchRow>)
    ensures forall t :: t in FreshTickets(rows) ==>
              t.batch < |rows| && rows[t.batch].status == Failed && t == Ticket(t.batch, 0, ToEnqueue)
  {
    if rows != [] {
      FreshAre(rows[..|rows| - 1]);
    }
  }

  /** A reset hands every failed batch to exactly one fresh ticket and changes nothing else. */
  lemma ResetEffect(rows: seq<BatchRow>)
    ensures forall t :: t in FreshTickets(rows) ==>
              t.batch < |rows| && rows[t.batch].status == Failed && t == Ticket(t.batch, 0, ToEnqueue)
    ensures forall b: nat ::
              Sum(FreshTickets(rows), OwnerOf(b)) == (if b < |rows| && rows[b].status == Failed then 1 else 0)
    ensures Sum(ResetRows(rows), Open()) == Sum(rows, Open()) + |FreshTickets(rows)|
    ensures forall c: Counter :: Sum(ResetRows(rows), Accounted(c)) == Sum(rows, Accounted(c))
  {
    hide Sum, FreshTickets, ResetRows;
    FreshAre(rows);
    ResetSums(rows, ProcessedCount);
    forall b: nat
      ensures Sum(FreshTickets(rows), OwnerOf(b)) == (if b < |rows| && rows[b].status == Failed then 1 else 0)
    {
      FreshOwners(rows, b);
    }
    forall c: Counter ensures Sum(ResetRows(rows), Accounted(c)) == Sum(rows, Accounted(c)) {
      ResetSums(rows, c);
    }
  }

  lemma {:induction false} NothingToReset(rows: seq<BatchRow>)
    requires FreshTickets(rows) == []
    ensures ResetRows(rows) == rows
  {
    if rows != [] {
      NothingToReset(rows[..|rows| - 1]);
    }
  }

  lemma ResetKeeps(s: State)
    requires Inv(s)
    ensures Inv(Next(s, Reset))
  {
    hide Sum;
    var s' := Next(s, Reset);
    var added := FreshTickets(s.rows);
    ResetEffect(s.rows);
    if added == [] {
      NothingToReset(s.rows);
      assert s.tickets + added == s.tickets;
      assert s' == s;
    } else {
      SumConcat(s.tickets, added, Uncounted());
      SumConcat(s.tickets, added, Closing());
      SumZero(added, Uncounted());
      forall b: nat | b < |s'.rows|
        ensures Sum(s'.tickets, OwnerOf(b)) == Open()(s'.rows[b])
      {
        SumConcat(s.tickets, added, OwnerOf(b));
        assert Sum(s.tickets, OwnerOf(b)) == Open()(s.rows[b]);
      }
      ResetTicketsFit(s);
      forall c: Counter
        ensures Pick(s'.job.counters, c) + Sum(s'.tickets, InFlight(c)) == Sum(s'.rows, Accounted(c))
      {
        SumConcat(s.tickets, added, InFlight(c));
        SumZero(added, InFlight(c));
        assert Pick(s.job.counters, c) + Sum(s.tickets, InFlight(c)) == Sum(s.rows, Accounted(c));
      }
      WeightsNonNegative(s);
      WeightsNonNegative(s');
    }
  }

  lemma ResetTicketsFit(s: State)
    requires Inv(s)
    ensures TicketsFit(Next(s, Reset))
  {
    var s' := Next(s, Reset);
    ResetEffect(s.rows);
    forall i | 0 <= i < |s'.tickets|
      ensures s'.tickets[i].batch < |s'.rows| && TicketFits(s'.tickets[i], s'.rows[s'.tickets[i].batch])
    {
      if i < |s.tickets| {
        if Owns(s.tickets[i].phase) {
          OwnerIsOpen(s, i);
        }
      } else {
        assert s'.tickets[i] in FreshTickets(s.rows);
      }
    }
  }

  predicate TakenByOwner(step: Step) {
    !step.Reset? && !step.Count? && !step.Publish? && !step.Finalize?
  }

  /** An owner's step rewrites its ticket and its own batch row, and nothing else. */
  lemma OwnerStepEffect(s: State, step: Step)
    requires Enabled(s, step) && TakenByOwner(step)
    ensures Owns(s.tickets[step.i].phase)
    ensures var s', b := Next(s, step), s.tickets[step.i].batch;
            && |s'.tickets| == |s.tickets| && |s'.rows| == |s.rows|
            && s'.tickets[step.i].batch == b
            && s' == s.(tickets := s.tickets[step.i := s'.tickets[step.i]], rows := s.rows[b := s'.rows[b]])
  {
    var b := s.tickets[step.i].batch;
    assert s.rows[b := s.rows[b]] == s.rows;
  }

  /** Every step of every worker, of the fan-out and of the manual reset keeps the invariant. */
  lemma StepKeepsInv(s: State, step: Step)
    requires Inv(s) && Enabled(s, step)
    ensures Inv(Next(s, step))
  {
    if TakenByOwner(step) {
      OwnerStepEffect(s, step);
      OwnerIsOpen(s, step.i);
      OwnerStepFits(s, step);
      OwnerStep(s, step.i, Next(s, step).tickets[step.i], Next(s, step).rows[s.tickets[step.i].batch], Next(s, step));
    } else {
      match step
      case Reset => ResetKeeps(s);
      case Count(i) => CountKeeps(s, i);
      case Publish(i) => PublishKeeps(s, i);
      case Finalize(i) => FinalizeKeeps(s, i);
    }
  }

  lemma OwnerStepFits(s: State, step: Step)
    requires Enabled(s, step) && TakenByOwner(step)
    requires TicketFits(s.tickets[step.i], s.rows[s.tickets[step.i].batch])
    requires !Terminal(s.rows[s.tickets[step.i].batch].status)
    ensures var t, row := Next(s, step).tickets[step.i], Next(s, step).rows[s.tickets[step.i].batch];
            && TicketFits(t, row)
            && (row.status == Failed ==> row.retryCount == MAX_RETRIES + 1)
            && (if Terminal(row.status) then t.phase.ToCount? else Owns(t.phase))
            && (t.phase.ToCount? ==> forall c: Counter :: Accounted(c)(row) == Pick(t.phase.delta, c))
  {
  }

  lemma PlannedInv(batches: seq<seq<string>>, totalArticles: nat)
    requires batches != []
    ensures Inv(Planned(batches, totalArticles))
  {
    var s := Planned(batches, totalArticles);
    var n := |batches|;
    forall b: nat | b < n
      ensures Sum(s.tickets, OwnerOf(b)) == Open()(s.rows[b])
    {
      FirstOwners(n, b);
    }
    SumZero(s.tickets, Uncounted());
    SumZero(s.tickets, Closing());
    AllOpen(s.rows);
    forall c: Counter
      ensures Pick(s.job.counters, c) + Sum(s.tickets, InFlight(c)) == Sum(s.rows, Accounted(c))
    {
      SumZero(s.tickets, InFlight(c));
      SumZero(s.rows, Accounted(c));
    }
  }

  lemma {:induction false} FirstOwners(n: nat, b: nat)
    ensures Sum(FirstTickets(n), OwnerOf(b)) == if b < n then 1 else 0
  {
    if n > 0 {
      FirstOwners(n - 1, b);
      assert FirstTickets(n) == FirstTickets(n - 1) + [Ticket(n - 1, 0, ToEnqueue)];
      SumAppend(FirstTickets(n - 1), Ticket(n - 1, 0, ToEnqueue), OwnerOf(b));
    }
  }

  lemma {:induction false} AllOpen(rows: seq<BatchRow>)
    requires forall b :: 0 <= b < |rows| ==> rows[b].status == Pending
    ensures Sum(rows, Open()) == |rows|
  {
    if rows != [] {
      AllOpen(rows[..|rows| - 1]);
    }
  }

  /** The invariant holds in every state any run reaches. */
  lemma {:induction false} RunKeepsInv(s: State, steps: seq<Step>, t: State)
    requires Inv(s) && Run(s, steps, t)
    ensures Inv(t)
    decreases |steps|
  {
    if steps != [] {
      StepKeepsInv(s, steps[0]);
      RunKeepsInv(Next(s, steps[0]), steps[1..], t);
    }
  }
}
