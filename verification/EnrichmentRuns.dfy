/** Runs of the enrichment protocol put together from whole attempts. */
module EnrichmentRuns {
  import opened EnrichmentProtocol

  /** An answer for batch b names at most `limits[b]` ids. */
  predicate AnswerWithin(s: State, step: Step, limits: seq<nat>)
    requires Enabled(s, step)
  {
    step.Complete? ==>
      var b := s.tickets[step.i].batch;
      b < |limits| && |step.named| <= limits[b]
  }

  predicate AnswersWithin(s: State, steps: seq<Step>, t: State, limits: seq<nat>)
    requires Run(s, steps, t)
    decreases |steps|
  {
    steps == [] || (AnswerWithin(s, steps[0], limits) && AnswersWithin(Next(s, steps[0]), steps[1..], t, limits))
  }

  ghost predicate Leads(s: State, t: State) {
    exists steps :: Run(s, steps, t)
  }

  /** Some run all of whose answers stay within the limits leads from s to t. */
  ghost predicate Reaches(s: State, t: State, limits: seq<nat>) {
    exists steps :: Run(s, steps, t) && AnswersWithin(s, steps, t, limits)
  }

  lemma {:induction false} RunSnoc(s: State, steps: seq<Step>, m: State, step: Step)
    requires Run(s, steps, m) && Enabled(m, step)
    ensures Run(s, steps + [step], Next(m, step))
    decreases |steps|
  {
    hide Enabled, Next;
    if steps == [] {
      assert [step][1..] == [];
      assert Run(Next(m, step), [], Next(m, step));
      assert steps + [step] == [step];
    } else {
      RunSnoc(Next(s, steps[0]), steps[1..], m, step);
      assert (steps + [step])[1..] == steps[1..] + [step];
    }
  }

  lemma {:induction false} AnswersSnoc(s: State, steps: seq<Step>, m: State, step: Step, limits: seq<nat>)
    requires Run(s, steps, m) && AnswersWithin(s, steps, m, limits)
    requires Enabled(m, step) && AnswerWithin(m, step, limits)
    ensures Run(s, steps + [step], Next(m, step)) && AnswersWithin(s, steps + [step], Next(m, step), limits)
    decreases |steps|
  {
    RunSnoc(s, steps, m, step);
    hide Enabled, Next, AnswerWithin;
    if steps == [] {
      assert [step][1..] == [];
      assert Run(Next(m, step), [], Next(m, step));
      assert steps + [step] == [step];
    } else {
      AnswersSnoc(Next(s, steps[0]), steps[1..], m, step, limits);
      assert (steps + [step])[1..] == steps[1..] + [step];
    }
  }

  lemma LeadsSelf(s: State)
    ensures Leads(s, s)
  {
    assert Run(s, [], s);
  }

  lemma LeadsNext(s: State, m: State, step: Step)
    requires Leads(s, m) && Enabled(m, step)
    ensures Leads(s, Next(m, step))
  {
    hide Enabled, Next, Run;
    var steps :| Run(s, steps, m);
    RunSnoc(s, steps, m, step);
  }

  lemma {:induction false} RunConcat(s: State, steps: seq<Step>, m: State, more: seq<Step>, t: State)
    requires Run(s, steps, m) && Run(m, more, t)
    ensures Run(s, steps + more, t)
    decreases |steps|
  {
    hide Enabled, Next;
    if steps == [] {
      assert steps + more == more;
    } else {
      RunConcat(Next(s, steps[0]), steps[1..], m, more, t);
      assert (steps + more)[1..] == steps[1..] + more;
    }
  }

  lemma LeadsTwice(s: State, m: State, t: State)
    requires Leads(s, m) && Leads(m, t)
    ensures Leads(s, t)
  {
    hide Run;
    var steps :| Run(s, steps, m);
    var more :| Run(m, more, t);
    RunConcat(s, steps, m, more, t);
  }

  lemma ReachesSelf(s: State, limits: seq<nat>)
    ensures Reaches(s, s, limits)
  {
    assert Run(s, [], s);
  }

  lemma ReachesNext(s: State, m: State, step: Step, limits: seq<nat>)
    requires Reaches(s, m, limits) && Enabled(m, step) && AnswerWithin(m, step, limits)
    ensures Reaches(s, Next(m, step), limits)
  {
    hide Enabled, Next, Run, AnswerWithin;
    var steps :| Run(s, steps, m) && AnswersWithin(s, steps, m, limits);
    AnswersSnoc(s, steps, m, step, limits);
  }

  predicate Waiting(s: State, i: nat) {
    i < |s.tickets| && s.tickets[i].batch < |s.rows| && s.tickets[i].phase == ToEnqueue
  }

  // ---------------------------------------------------------------------------------------
  // An attempt that succeeds
  // ---------------------------------------------------------------------------------------

  function PickedUp(s: State, i: nat): State
    requires Waiting(s, i)
  {
    var b := s.tickets[i].batch;
    s.(rows := s.rows[b := s.rows[b].(status := Processing)],
       tickets := s.tickets[i := Ticket(b, s.tickets[i].attempts + 1, Working)])
  }

  lemma PickUp(s0: State, s: State, i: nat, limits: seq<nat>)
    requires Reaches(s0, s, limits) && Waiting(s, i)
    ensures Reaches(s0, PickedUp(s, i), limits)
  {
    hide Reaches;
    ReachesNext(s0, s, Enqueue(i), limits);
    var s1 := Next(s, Enqueue(i));
    ReachesNext(s0, s1, Dequeue(i), limits);
    var s2 := Next(s1, Dequeue(i));
    ReachesNext(s0, s2, Start(i), limits);
    assert Next(s2, Start(i)) == PickedUp(s, i);
  }

  /** The batch of ticket i is answered with the given ids and counted. */
  function Answered(s: State, i: nat, named: seq<string>): State
    requires Waiting(s, i)
  {
    var b, done := s.tickets[i].batch, s.job.batchesCompleted + 1;
    var counters := AddDelta(s.job.counters, Delta(|named|, 0, 0));
    var row := s.rows[b].(status := Completed, named := named, actualTokensIn := 0, actualTokensOut := 0);
    var percent := Percent(counters.processed, s.job.totalArticles);
    s.(job := s.job.(counters := counters, batchesCompleted := done), rows := s.rows[b := row],
       tickets := s.tickets[i := Ticket(b, s.tickets[i].attempts + 1, Counted(percent, done >= s.job.batchCount))])
  }

  lemma Answer(s0: State, s: State, i: nat, named: seq<string>, limits: seq<nat>)
    requires Reaches(s0, s, limits) && Waiting(s, i)
    requires s.tickets[i].batch < |limits| && |named| <= limits[s.tickets[i].batch]
    ensures Reaches(s0, Answered(s, i, named), limits)
  {
    hide Reaches, AddDelta, Percent;
    PickUp(s0, s, i, limits);
    var s1 := PickedUp(s, i);
    ReachesNext(s0, s1, Complete(i, named, 0, 0), limits);
    var s2 := Next(s1, Complete(i, named, 0, 0));
    ReachesNext(s0, s2, Count(i), limits);
    assert Next(s2, Count(i)) == Answered(s, i, named);
  }

  // ---------------------------------------------------------------------------------------
  // An attempt that fails
  // ---------------------------------------------------------------------------------------

  /** One failed attempt, up to the write that follows the retry decision. */
  function FailedOnce(s: State, i: nat): State
    requires Waiting(s, i)
  {
    var b := s.tickets[i].batch;
    var again, count := s.rows[b].retryCount < MAX_RETRIES, s.rows[b].retryCount + 1;
    s.(rows := s.rows[b := s.rows[b].(status := if again then Retrying else Failed, retryCount := count)],
       tickets := s.tickets[i := Ticket(b, s.tickets[i].attempts + 1, if again then ToEnqueue else ToCount(NO_PROGRESS))])
  }

  /** The catch block is reached and has incremented the retry count. */
  function Caught(s: State, i: nat): State
    requires Waiting(s, i)
  {
    var b, count := s.tickets[i].batch, s.rows[s.tickets[i].batch].retryCount + 1;
    s.(rows := s.rows[b := s.rows[b].(retryCount := count)],
       tickets := s.tickets[i := Ticket(b, s.tickets[i].attempts + 1, Bumped(count <= MAX_RETRIES))])
  }

  lemma Catch(s0: State, s: State, i: nat, limits: seq<nat>)
    requires Reaches(s0, s, limits) && Waiting(s, i)
    ensures Reaches(s0, Caught(s, i), limits)
  {
    hide Reaches;
    ReachesNext(s0, s, Enqueue(i), limits);
    var s1 := Next(s, Enqueue(i));
    ReachesNext(s0, s1, Dequeue(i), limits);
    var s2 := Next(s1, Dequeue(i));
    ReachesNext(s0, s2, Raise(i), limits);
    var s3 := Next(s2, Raise(i));
    ReachesNext(s0, s3, Bump(i), limits);
    assert Next(s3, Bump(i)) == Caught(s, i);
  }

  lemma Fail(s0: State, s: State, i: nat, limits: seq<nat>)
    requires Reaches(s0, s, limits) && Waiting(s, i)
    ensures Reaches(s0, FailedOnce(s, i), limits)
  {
    hide Reaches;
    Catch(s0, s, i, limits);
    var s1 := Caught(s, i);
    var last := if s1.tickets[i].phase.retrying then GiveBack(i) else GiveUp(i);
    ReachesNext(s0, s1, last, limits);
    assert Next(s1, last) == FailedOnce(s, i);
  }

  /** The batch of ticket i fails three times and is counted without progress. */
  function GivenUp(s: State, i: nat): State
    requires Waiting(s, i)
  {
    var b, done := s.tickets[i].batch, s.job.batchesCompleted + 1;
    var percent := Percent(s.job.counters.processed, s.job.totalArticles);
    s.(job := s.job.(batchesCompleted := done), rows := s.rows[b := s.rows[b].(status := Failed, retryCount := 3)],
       tickets := s.tickets[i := Ticket(b, s.tickets[i].attempts + 3, Counted(percent, done >= s.job.batchCount))])
  }

  lemma FailThrice(s0: State, s: State, i: nat, limits: seq<nat>) returns (t: State)
    requires Reaches(s0, s, limits) && Waiting(s, i) && s.rows[s.tickets[i].batch].retryCount == 0
    ensures Reaches(s0, t, limits)
    ensures var b := s.tickets[i].batch;
            t == s.(rows := s.rows[b := s.rows[b].(status := Failed, retryCount := 3)],
                    tickets := s.tickets[i := Ticket(b, s.tickets[i].attempts + 3, ToCount(NO_PROGRESS))])
  {
    hide Reaches;
    Fail(s0, s, i, limits);
    var s1 := FailedOnce(s, i);
    Fail(s0, s1, i, limits);
    var s2 := FailedOnce(s1, i);
    Fail(s0, s2, i, limits);
    t := FailedOnce(s2, i);
  }

  lemma GiveUpOn(s0: State, s: State, i: nat, limits: seq<nat>)
    requires Reaches(s0, s, limits) && Waiting(s, i) && s.rows[s.tickets[i].batch].retryCount == 0
    ensures Reaches(s0, GivenUp(s, i), limits)
  {
    hide Reaches, Percent;
    var m := FailThrice(s0, s, i, limits);
    ReachesNext(s0, m, Count(i), limits);
    assert AddDelta(m.job.counters, NO_PROGRESS) == m.job.counters;
    assert Next(m, Count(i)) == GivenUp(s, i);
  }
}
