/** The reach-consent handshake of one chat: a search run may pause and ask, a reply is accepted in a
    synchronous step, and a background task then patches the parameters and dispatches enrichment. */
module ReachConsent {
  import opened Outcomes
  import opened Wizard
  import FlowState
  import Text

  /** How far a background task has come. `ReadBack` holds the type it will dispatch with. */
  datatype TaskPhase =
    | Started | ParamsPatched | Pinned | ReadBack(enrichmentType: FlowState.EnrichmentType)
    | Dispatched | NothingToDo | TaskFailed

  /** A reply and what its background task knows: the state before the synchronous advance, the text,
      the chip, and the choice parser's answer for the text. */
  datatype Task = Task(
    fromState: ConversationState, content: string, choice: Option<string>, answer: Option<string>, phase: TaskPhase)

  datatype SearchPhase = Fetched | Reflected(paused: bool) | SearchDone(paused: bool) | SearchFailed

  datatype Search = Search(
    enrichmentType: FlowState.EnrichmentType, sampleSize: nat, coverageReach: real, articlesInserted: nat, phase: SearchPhase)

  datatype Source = FromTask(task: nat) | FromSearch(search: nat)

  /** A message on agent:enrichment:incoming. */
  datatype Dispatch = Dispatch(source: Source, enrichmentType: FlowState.EnrichmentType)

  datatype State = State(
    context: ChatContext,
    params: FlowState.Row,
    confirmed: bool,
    tasks: seq<Task>,
    searches: seq<Search>,
    bus: seq<Dispatch>,
    probes: nat)

  datatype Step =
    | Post(content: string, choice: Option<string>, answer: Option<string>)
    | Skip(i: nat) | PatchForChoice(i: nat) | Pin(i: nat) | Read(i: nat) | Send(i: nat) | FailTask(i: nat)
    | Fetch(sampleSize: nat, coverageReach: real, articlesInserted: nat)
    | Reflect(j: nat) | Learn(j: nat) | FailSearch(j: nat)
    | UserPatch(patch: FlowState.PatchInput)

  const PRESENCE_THRESHOLD: real := 0.8
  const UPGRADE := "upgrade_similarweb"
  const CONTINUE := "continue_without_reach"

  /** The parser only answers with one of the options. */
  function ParseChoice(answer: Option<string>, options: seq<string>): Option<string> {
    if answer.Some? && answer.value != "" && answer.value in options then answer else None
  }

  /** A clicked chip is used directly; text is parsed in states that have chips. */
  function InputFor(state: ConversationState, content: string, choice: Option<string>, answer: Option<string>): AdvanceInput {
    if choice.Some? && choice.value != "" then AdvanceInput(choice, None)
    else
      var parsed := ParseChoice(answer, ChipsForState(state));
      if parsed.Some? then AdvanceInput(parsed, None) else AdvanceInput(None, Some(content))
  }

  function InputOf(t: Task): AdvanceInput {
    InputFor(t.fromState, t.content, t.choice, t.answer)
  }

  /** The gate of the side effect: a successful exit out of the probe state. */
  predicate Accepts(t: Task) {
    && t.fromState == AwaitingReachUpgradeConsent
    && Advance(t.fromState, InputOf(t)).contextPatch.state == Some(Enriching)
    && OrEmpty(InputOf(t).choice) in REACH_UPGRADE_CHIPS
  }

  /** What the resolver patches for a choice. */
  function ConsentPatch(choice: string): FlowState.PatchInput {
    if choice == UPGRADE then FlowState.EMPTY_PATCH.(enrichmentType := FlowState.Set(FlowState.Reach))
    else FlowState.EMPTY_PATCH.(intention := FlowState.Set(FlowState.CommentBased))
  }

  function StoredType(params: FlowState.Row): FlowState.EnrichmentType {
    if params.enrichmentType == Some(FlowState.Reach) then FlowState.Reach else FlowState.Standard
  }

  /** A run pauses when it saw articles, for standard enrichment, with too little reach coverage. */
  predicate Pauses(s: Search) {
    s.sampleSize > 0 && s.enrichmentType == FlowState.Standard && s.coverageReach < PRESENCE_THRESHOLD
  }

  function WithPhase(s: State, i: nat, phase: TaskPhase): seq<Task>
    requires i < |s.tasks|
  {
    s.tasks[i := s.tasks[i].(phase := phase)]
  }

  function WithSearchPhase(s: State, j: nat, phase: SearchPhase): seq<Search>
    requires j < |s.searches|
  {
    s.searches[j := s.searches[j].(phase := phase)]
  }

  predicate Enabled(s: State, step: Step) {
    match step
    case Post(_, _, _) => true
    case Skip(i) => i < |s.tasks| && s.tasks[i].phase == Started && !Accepts(s.tasks[i])
    case PatchForChoice(i) => i < |s.tasks| && s.tasks[i].phase == Started && Accepts(s.tasks[i])
    case Pin(i) => i < |s.tasks| && s.tasks[i].phase == ParamsPatched
    case Read(i) => i < |s.tasks| && s.tasks[i].phase == Pinned
    case Send(i) => i < |s.tasks| && s.tasks[i].phase.ReadBack?
    case FailTask(i) => i < |s.tasks| && !Ended(s.tasks[i].phase)
    case Fetch(_, _, _) => true
    case Reflect(j) => j < |s.searches| && s.searches[j].phase == Fetched
    case Learn(j) => j < |s.searches| && s.searches[j].phase.Reflected?
    case FailSearch(j) => j < |s.searches| && (s.searches[j].phase == Fetched || s.searches[j].phase.Reflected?)
    case UserPatch(_) => true
  }

  predicate Ended(p: TaskPhase) {
    p == Dispatched || p == NothingToDo || p == TaskFailed
  }

  function Next(s: State, step: Step): State
    requires Enabled(s, step)
  {
    match step
    case Post(content, choice, answer) =>
      var current := CurrentState(s.context);
      var advanced := Advance(current, InputFor(current, content, choice, answer));
      s.(context := Merge(s.context, advanced.contextPatch),
         tasks := s.tasks + [Task(current, content, choice, answer, Started)])
    case Skip(i) => s.(tasks := WithPhase(s, i, NothingToDo))
    case PatchForChoice(i) =>
      s.(params := FlowState.Patched(s.params, s.confirmed, ConsentPatch(OrEmpty(InputOf(s.tasks[i]).choice))),
         tasks := WithPhase(s, i, ParamsPatched))
    case Pin(i) => s.(context := s.context.(state := Some(Enriching)), tasks := WithPhase(s, i, Pinned))
    case Read(i) => s.(tasks := WithPhase(s, i, ReadBack(StoredType(s.params))))
    case Send(i) =>
      s.(bus := s.bus + [Dispatch(FromTask(i), s.tasks[i].phase.enrichmentType)], tasks := WithPhase(s, i, Dispatched))
    case FailTask(i) => s.(tasks := WithPhase(s, i, TaskFailed))
    case Fetch(sampleSize, coverageReach, articlesInserted) =>
      s.(searches := s.searches + [Search(StoredType(s.params), sampleSize, coverageReach, articlesInserted, Fetched)])
    case Reflect(j) =>
      if Pauses(s.searches[j]) then
        s.(context := s.context.(state := Some(AwaitingReachUpgradeConsent)), probes := s.probes + 1,
           searches := WithSearchPhase(s, j, Reflected(true)))
      else s.(searches := WithSearchPhase(s, j, Reflected(false)))
    case Learn(j) =>
      var search := s.searches[j];
      if search.phase.paused || search.articlesInserted == 0
      then s.(searches := WithSearchPhase(s, j, SearchDone(search.phase.paused)))
      else s.(searches := WithSearchPhase(s, j, SearchDone(false)),
              bus := s.bus + [Dispatch(FromSearch(j), search.enrichmentType)])
    case FailSearch(j) => s.(searches := WithSearchPhase(s, j, SearchFailed))
    case UserPatch(patch) => s.(params := FlowState.Patched(s.params, s.confirmed, patch))
  }

  function Fresh(params: FlowState.Row, confirmed: bool): State {
    State(NO_PATCH, params, confirmed, [], [], [], 0)
  }

  predicate Run(s: State, steps: seq<Step>, t: State)
    decreases |steps|
  {
    if steps == [] then s == t
    else Enabled(s, steps[0]) && Run(Next(s, steps[0]), steps[1..], t)
  }

  ghost predicate Leads(s: State, t: State) {
    exists steps :: Run(s, steps, t)
  }

  lemma {:induction false} RunSnoc(s: State, steps: seq<Step>, m: State, step: Step)
    requires Run(s, steps, m) && Enabled(m, step)
    ensures Run(s, steps + [step], Next(m, step))
    decreases |steps|
  {
    hide Enabled, Next;
    if steps == [] {
      assert [step][1..] == [];
      assert Run(Next(m, step), [], Next(m, step));
      assert steps + [step] == [step];
    } else {
      RunSnoc(Next(s, steps[0]), steps[1..], m, step);
      assert (steps + [step])[1..] == steps[1..] + [step];
    }
  }

  lemma LeadsSelf(s: State)
    ensures Leads(s, s)
  {
    assert Run(s, [], s);
  }

  lemma LeadsNext(s: State, m: State, step: Step)
    requires Leads(s, m) && Enabled(m, step)
    ensures Leads(s, Next(m, step))
  {
    hide Enabled, Next, Run;
    var steps :| Run(s, steps, m);
    RunSnoc(s, steps, m, step);
  }

  lemma LeadsFurther(s: State, m: State, t: State)
    requires Leads(s, m) && Leads(m, t)
    ensures Leads(s, t)
  {
    hide Run;
    var steps :| Run(s, steps, m);
    var more :| Run(m, more, t);
    RunConcat(s, steps, m, more, t);
  }

  lemma {:induction false} RunConcat(s: State, steps: seq<Step>, m: State, more: seq<Step>, t: State)
    requires Run(s, steps, m) && Run(m, more, t)
    ensures Run(s, steps + more, t)
    decreases |steps|
  {
    hide Enabled, Next;
    if steps == [] {
      assert steps + more == more;
    } else {
      RunConcat(Next(s, steps[0]), steps[1..], m, more, t);
      assert (steps + more)[1..] == steps[1..] + more;
    }
  }

  // ---------------------------------------------------------------------------------------
  // Counting
  // ---------------------------------------------------------------------------------------

  function One(b: bool): nat {
    if b then 1 else 0
  }

  function AcceptedReplies(tasks: seq<Task>): nat {
    if tasks == [] then 0 else AcceptedReplies(tasks[..|tasks| - 1]) + One(Accepts(tasks[|tasks| - 1]))
  }

  function DispatchedTasks(tasks: seq<Task>): nat {
    if tasks == [] then 0 else DispatchedTasks(tasks[..|tasks| - 1]) + One(tasks[|tasks| - 1].phase == Dispatched)
  }

  function ConsentDispatches(bus: seq<Dispatch>): nat {
    if bus == [] then 0 else ConsentDispatches(bus[..|bus| - 1]) + One(bus[|bus| - 1].source.FromTask?)
  }

  function DispatchesFrom(bus: seq<Dispatch>, source: Source): nat {
    if bus == [] then 0 else DispatchesFrom(bus[..|bus| - 1], source) + One(bus[|bus| - 1].source == source)
  }

  lemma OneMoreTask(tasks: seq<Task>, t: Task)
    ensures AcceptedReplies(tasks + [t]) == AcceptedReplies(tasks) + One(Accepts(t))
    ensures DispatchedTasks(tasks + [t]) == DispatchedTasks(tasks) + One(t.phase == Dispatched)
  {
    hide Accepts;
    assert (tasks + [t])[..|tasks|] == tasks;
  }

  lemma {:induction false} OneTaskMoved(tasks: seq<Task>, i: nat, t: Task)
    requires i < |tasks|
    ensures AcceptedReplies(tasks[i := t]) + One(Accepts(tasks[i])) == AcceptedReplies(tasks) + One(Accepts(t))
    ensures DispatchedTasks(tasks[i := t]) + One(tasks[i].phase == Dispatched)
         == DispatchedTasks(tasks) + One(t.phase == Dispatched)
  {
    hide Accepts;
    var n := |tasks| - 1;
    if i == n {
      assert tasks[i := t][..n] == tasks[..n];
    } else {
      OneTaskMoved(tasks[..n], i, t);
      assert tasks[i := t][..n] == tasks[..n][i := t];
    }
  }

  /** One more message adds one to the count of its own source and to no other. */
  lemma OneMoreDispatch(bus: seq<Dispatch>, d: Dispatch)
    ensures ConsentDispatches(bus + [d]) == ConsentDispatches(bus) + One(d.source.FromTask?)
    ensures forall i: nat :: DispatchesFrom(bus + [d], FromTask(i)) == DispatchesFrom(bus, FromTask(i)) + One(d.source == FromTask(i))
    ensures forall j: nat :: DispatchesFrom(bus + [d], FromSearch(j)) == DispatchesFrom(bus, FromSearch(j)) + One(d.source == FromSearch(j))
  {
    hide One;
    assert (bus + [d])[..|bus|] == bus;
  }

  predicate Awaiting(s: State) {
    CurrentState(s.context) == AwaitingReachUpgradeConsent
  }

  /** Every accepted consent used up a probe of its own, and an unanswered probe is one more. */
  predicate ProbesCover(s: State) {
    AcceptedReplies(s.tasks) + One(Awaiting(s)) <= s.probes
  }

  /** A task only gets past its gate when it accepts. */
  predicate TasksFit(s: State) {
    forall i :: 0 <= i < |s.tasks| ==>
      (s.tasks[i].phase in {ParamsPatched, Pinned, Dispatched} || s.tasks[i].phase.ReadBack? ==> Accepts(s.tasks[i]))
      && (s.tasks[i].phase == NothingToDo ==> !Accepts(s.tasks[i]))
  }

  /** The bus carries one message per dispatched task and nothing else from tasks. */
  predicate HasSent(tasks: seq<Task>, i: nat) {
    i < |tasks| && tasks[i].phase == Dispatched
  }

  ghost predicate TasksSentOnce(s: State) {
    && ConsentDispatches(s.bus) == DispatchedTasks(s.tasks)
    && forall i: nat :: DispatchesFrom(s.bus, FromTask(i)) == One(HasSent(s.tasks, i))
  }

  /** The run is finished, was not paused and inserted something. */
  predicate RunHasSent(searches: seq<Search>, j: nat) {
    j < |searches| && searches[j].phase == SearchDone(false) && searches[j].articlesInserted > 0
  }

  ghost predicate SearchesSentOnce(s: State) {
    && (forall j :: 0 <= j < |s.searches| ==>
          s.searches[j].phase.Reflected? || s.searches[j].phase.SearchDone? ==>
            s.searches[j].phase.paused == Pauses(s.searches[j]))
    && forall j: nat :: DispatchesFrom(s.bus, FromSearch(j)) == One(RunHasSent(s.searches, j))
  }

  ghost predicate Inv(s: State) {
    ProbesCover(s) && TasksFit(s) && TasksSentOnce(s) && SearchesSentOnce(s)
  }

  // ---------------------------------------------------------------------------------------
  // Every step keeps the invariant
  // ---------------------------------------------------------------------------------------

  /** A reply accepted in the probe state leaves it, any other leaves it as it was. */
  lemma AdvanceAccepts(state: ConversationState, input: AdvanceInput)
    ensures var r := Advance(state, input);
            && r.contextPatch.state != Some(AwaitingReachUpgradeConsent)
            && (state == AwaitingReachUpgradeConsent ==>
                  (r.contextPatch.state == Some(Enriching) <==> OrEmpty(input.choice) in REACH_UPGRADE_CHIPS)
                  && (r.contextPatch.state == None || r.contextPatch.state == Some(Enriching)))
  {
  }

  predicate IsTaskStep(step: Step) {
    step.Skip? || step.PatchForChoice? || step.Pin? || step.Read? || step.Send? || step.FailTask?
  }

  predicate IsSearchStep(step: Step) {
    step.Reflect? || step.Learn? || step.FailSearch?
  }

  lemma PostKeepsProbes(s: State, step: Step)
    requires ProbesCover(s) && step.Post?
    ensures ProbesCover(Next(s, step))
  {
    var t := Next(s, step).tasks[|s.tasks|];
    OneMoreTask(s.tasks, t);
    AdvanceAccepts(CurrentState(s.context), InputOf(t));
    hide AcceptedReplies, Advance, InputFor;
  }

  lemma PostKeepsTasks(s: State, step: Step)
    requires TasksFit(s) && TasksSentOnce(s) && SearchesSentOnce(s) && step.Post?
    ensures TasksFit(Next(s, step)) && TasksSentOnce(Next(s, step)) && SearchesSentOnce(Next(s, step))
  {
    OneMoreTask(s.tasks, Next(s, step).tasks[|s.tasks|]);
    hide AcceptedReplies, DispatchedTasks, ConsentDispatches, DispatchesFrom, Advance, InputFor, Accepts, Pauses, One;
  }

  /** What a task step does to its own task, and that it touches no other. */
  lemma TaskStepEffect(s: State, step: Step)
    requires Enabled(s, step) && IsTaskStep(step)
    ensures step.i < |s.tasks|
    ensures var s' := Next(s, step);
            && s'.tasks == s.tasks[step.i := s.tasks[step.i].(phase := s'.tasks[step.i].phase)]
            && s'.searches == s.searches && s'.probes == s.probes
            && (s'.context == s.context || CurrentState(s'.context) == Enriching)
            && s'.bus == s.bus + (if step.Send? then [Dispatch(FromTask(step.i), s.tasks[step.i].phase.enrichmentType)]
                                  else [])
            && s.tasks[step.i].phase != Dispatched && (s'.tasks[step.i].phase == Dispatched <==> step.Send?)
  {
    hide Accepts, FlowState.Patched;
  }

  lemma AcceptsIgnoresPhase(t: Task, phase: TaskPhase)
    ensures Accepts(t.(phase := phase)) <==> Accepts(t)
  {
  }

  lemma TaskStepKeepsProbes(s: State, step: Step)
    requires ProbesCover(s) && Enabled(s, step) && IsTaskStep(step)
    ensures ProbesCover(Next(s, step))
  {
    TaskStepEffect(s, step);
    var t' := Next(s, step).tasks[step.i];
    AcceptsIgnoresPhase(s.tasks[step.i], t'.phase);
    OneTaskMoved(s.tasks, step.i, t');
    hide AcceptedReplies, Next, Accepts;
  }

  lemma TaskStepKeepsFit(s: State, step: Step)
    requires TasksFit(s) && Enabled(s, step) && IsTaskStep(step)
    ensures TasksFit(Next(s, step))
  {
    var t' := Next(s, step).tasks[step.i];
    AcceptsIgnoresPhase(s.tasks[step.i], t'.phase);
    hide Accepts, FlowState.Patched;
  }

  lemma TaskStepKeepsTasksSent(s: State, step: Step)
    requires TasksSentOnce(s) && Enabled(s, step) && IsTaskStep(step)
    ensures TasksSentOnce(Next(s, step))
  {
    TaskStepEffect(s, step);
    var s' := Next(s, step);
    OneTaskMoved(s.tasks, step.i, s'.tasks[step.i]);
    hide AcceptedReplies, DispatchedTasks, ConsentDispatches, DispatchesFrom, Next, Accepts, Enabled;
    if step.Send? {
      OneMoreDispatch(s.bus, Dispatch(FromTask(step.i), s.tasks[step.i].phase.enrichmentType));
    } else {
      assert s.bus + [] == s.bus;
    }
  }

  lemma TaskStepKeepsSearchesSent(s: State, step: Step)
    requires SearchesSentOnce(s) && Enabled(s, step) && IsTaskStep(step)
    ensures SearchesSentOnce(Next(s, step))
  {
    TaskStepEffect(s, step);
    hide DispatchesFrom, ConsentDispatches, Next, Accepts, Enabled, Pauses, RunHasSent;
    if step.Send? {
      OneMoreDispatch(s.bus, Dispatch(FromTask(step.i), s.tasks[step.i].phase.enrichmentType));
    } else {
      assert s.bus + [] == s.bus;
    }
  }

  lemma SearchStepKeepsRest(s: State, step: Step)
    requires ProbesCover(s) && TasksFit(s) && Enabled(s, step) && IsSearchStep(step)
    ensures ProbesCover(Next(s, step)) && TasksFit(Next(s, step))
  {
    hide AcceptedReplies, Accepts;
  }

  /** What a search step does to its own run, and that it touches no other. */
  lemma SearchStepEffect(s: State, step: Step)
    requires Enabled(s, step) && IsSearchStep(step)
    ensures step.j < |s.searches|
    ensures var s', j := Next(s, step), step.j;
            && s'.tasks == s.tasks
            && s'.searches == s.searches[j := s.searches[j].(phase := s'.searches[j].phase)]
            && !RunHasSent(s.searches, j)
            && s'.bus == (if RunHasSent(s'.searches, j) then s.bus + [Dispatch(FromSearch(j), s.searches[j].enrichmentType)]
                          else s.bus)
            && (s'.searches[j].phase.Reflected? ==> s'.searches[j].phase.paused == Pauses(s.searches[j]))
            && (s'.searches[j].phase.SearchDone? ==>
                  s.searches[j].phase.Reflected? && s'.searches[j].phase.paused == s.searches[j].phase.paused)
  {
  }

  lemma SearchStepKeepsTasksSent(s: State, step: Step)
    requires TasksSentOnce(s) && Enabled(s, step) && IsSearchStep(step)
    ensures TasksSentOnce(Next(s, step))
  {
    SearchStepEffect(s, step);
    var s', j := Next(s, step), step.j;
    hide DispatchedTasks, ConsentDispatches, DispatchesFrom, Next, Accepts, Enabled, RunHasSent, HasSent, Pauses;
    if RunHasSent(s'.searches, j) {
      OneMoreDispatch(s.bus, Dispatch(FromSearch(j), s.searches[j].enrichmentType));
    }
  }

  lemma SearchStepKeepsOwnSent(s: State, step: Step)
    requires SearchesSentOnce(s) && Enabled(s, step) && IsSearchStep(step)
    ensures SearchesSentOnce(Next(s, step))
  {
    SearchStepEffect(s, step);
    var s', j := Next(s, step), step.j;
    assert Pauses(s'.searches[j]) == Pauses(s.searches[j]);
    assert forall k: nat :: k != j ==> RunHasSent(s'.searches, k) == RunHasSent(s.searches, k);
    hide ConsentDispatches, DispatchesFrom, Next, Accepts, Enabled, RunHasSent, Pauses;
    if RunHasSent(s'.searches, j) {
      OneMoreDispatch(s.bus, Dispatch(FromSearch(j), s.searches[j].enrichmentType));
    }
  }

  lemma StepKeepsInv(s: State, step: Step)
    requires Inv(s) && Enabled(s, step)
    ensures Inv(Next(s, step))
  {
    hide ProbesCover, TasksFit, TasksSentOnce, SearchesSentOnce;
    if step.Post? {
      PostKeepsProbes(s, step);
      PostKeepsTasks(s, step);
    } else if IsTaskStep(step) {
      TaskStepKeepsProbes(s, step);
      TaskStepKeepsFit(s, step);
      TaskStepKeepsTasksSent(s, step);
      TaskStepKeepsSearchesSent(s, step);
    } else if IsSearchStep(step) {
      SearchStepKeepsRest(s, step);
      SearchStepKeepsTasksSent(s, step);
      SearchStepKeepsOwnSent(s, step);
    } else {
      OtherStepKeeps(s, step);
    }
  }

  lemma OtherStepKeeps(s: State, step: Step)
    requires Inv(s) && Enabled(s, step) && (step.Fetch? || step.UserPatch?)
    ensures Inv(Next(s, step))
  {
    hide AcceptedReplies, DispatchedTasks, ConsentDispatches, DispatchesFrom, Accepts, Pauses, FlowState.Patched;
  }

  lemma FreshInv(params: FlowState.Row, confirmed: bool)
    ensures Inv(Fresh(params, confirmed))
  {
  }

  lemma {:induction false} RunKeepsInv(s: State, steps: seq<Step>, t: State)
    requires Inv(s) && Run(s, steps, t)
    ensures Inv(t)
    decreases |steps|
  {
    if steps != [] {
      hide Inv, Next;
      StepKeepsInv(s, steps[0]);
      RunKeepsInv(Next(s, steps[0]), steps[1..], t);
    }
  }

  // ---------------------------------------------------------------------------------------
  // The theorems
  // ---------------------------------------------------------------------------------------

  lemma {:induction false} DispatchedAccepted(tasks: seq<Task>)
    requires forall i :: 0 <= i < |tasks| ==> tasks[i].phase == Dispatched ==> Accepts(tasks[i])
    ensures DispatchedTasks(tasks) <= AcceptedReplies(tasks)
  {
    if tasks != [] {
      hide Accepts;
      DispatchedAccepted(tasks[..|tasks| - 1]);
    }
  }

  /** Over every later sequence of messages and any order of background tasks, consent dispatches
      enrichment at most once per accepted reply, and replies are accepted at most once per probe. */
  lemma AtMostOncePerProbe(params: FlowState.Row, confirmed: bool, steps: seq<Step>, t: State)
    requires Run(Fresh(params, confirmed), steps, t)
    ensures ConsentDispatches(t.bus) <= AcceptedReplies(t.tasks) <= t.probes
    ensures Awaiting(t) ==> AcceptedReplies(t.tasks) < t.probes
  {
    FreshInv(params, confirmed);
    RunKeepsInv(Fresh(params, confirmed), steps, t);
    hide Run, Accepts, ConsentDispatches, DispatchedTasks, AcceptedReplies, SearchesSentOnce;
    DispatchedAccepted(t.tasks);
  }

  /** A task that accepted dispatches exactly once if it finishes; one that did not, never does. */
  lemma OnceIfItFinishes(params: FlowState.Row, confirmed: bool, steps: seq<Step>, t: State, i: nat)
    requires Run(Fresh(params, confirmed), steps, t) && i < |t.tasks|
    ensures DispatchesFrom(t.bus, FromTask(i)) <= 1
    ensures Accepts(t.tasks[i]) && Ended(t.tasks[i].phase) && t.tasks[i].phase != TaskFailed ==>
              DispatchesFrom(t.bus, FromTask(i)) == 1
    ensures !Accepts(t.tasks[i]) ==> DispatchesFrom(t.bus, FromTask(i)) == 0
  {
    FreshInv(params, confirmed);
    RunKeepsInv(Fresh(params, confirmed), steps, t);
    hide Run, Accepts, DispatchesFrom, ConsentDispatches, DispatchedTasks, ProbesCover, SearchesSentOnce;
  }

  /** A reply accepts exactly when it was given in the probe state and its chip, or failing a chip the
      parser's answer, is one of the two choices. */
  lemma AcceptsMeansValidChoice(t: Task)
    ensures Accepts(t) <==>
              && t.fromState == AwaitingReachUpgradeConsent
              && OrEmpty(if OrEmpty(t.choice) != "" then t.choice else t.answer) in REACH_UPGRADE_CHIPS
  {
    AdvanceAccepts(t.fromState, InputOf(t));
  }

  /** The slot that the state asks for, after a reply whose choice is `given`. */
  predicate Takes(before: Option<string>, after: Option<string>, given: Option<string>, choices: seq<string>) {
    after == if OrEmpty(given) in choices then given else before
  }

  /** What a reply does to the chat context: its chip, or failing a chip the parser's answer, goes to the
      slot the state asks for and moves the chat on, if it is one of that state's choices; typed text does
      so for the brand, and gets past the welcome. Everything else stays. */
  lemma ReplyWrites(s: State, content: string, choice: Option<string>, answer: Option<string>)
    ensures var c, d := s.context, Next(s, Post(content, choice, answer)).context;
            var given := if OrEmpty(choice) != "" then choice else answer;
            match CurrentState(c)
            case Welcome =>
              CurrentState(d) == (if OrEmpty(choice) != "" || content != "" then AwaitingDate else Welcome)
              && d.(state := c.state) == c
            case AwaitingDate =>
              Takes(c.dateRange, d.dateRange, given, ["weekly", "10days", "20days", "custom"])
              && CurrentState(d) == (if OrEmpty(given) in ["weekly", "10days", "20days", "custom"]
                                     then AwaitingEnrichment else AwaitingDate)
              && d.(state := c.state, dateRange := c.dateRange) == c
            case AwaitingEnrichment =>
              Takes(c.enrichment, d.enrichment, given, ["enrichment", "enrichment_plus_reach"])
              && CurrentState(d) == (if OrEmpty(given) in ["enrichment", "enrichment_plus_reach"]
                                     then AwaitingBrand else AwaitingEnrichment)
              && d.(state := c.state, enrichment := c.enrichment) == c
            case AwaitingBrand =>
              d.brand == (if OrEmpty(choice) == "" && Text.Trim(content) != "" then Some(Text.Trim(content)) else c.brand)
              && CurrentState(d) == (if OrEmpty(choice) == "" && Text.Trim(content) != "" then AwaitingCompetitors
                                     else AwaitingBrand)
              && d.(state := c.state, brand := c.brand) == c
            case AwaitingCompetitors =>
              Takes(c.competitors, d.competitors, given, ["top5", "top3", "top2", "other"])
              && CurrentState(d) == (if OrEmpty(given) in ["top5", "top3", "top2", "other"]
                                     then AwaitingIntention else AwaitingCompetitors)
              && d.(state := c.state, competitors := c.competitors) == c
            case AwaitingIntention =>
              Takes(c.intention, d.intention, given, ["intention_based", "comment_based"])
              && CurrentState(d) == (if OrEmpty(given) in ["intention_based", "comment_based"]
                                     then Ready else AwaitingIntention)
              && d.(state := c.state, intention := c.intention) == c
            case AwaitingReachUpgradeConsent =>
              CurrentState(d) == (if OrEmpty(given) in ["upgrade_similarweb", "continue_without_reach"]
                                  then Enriching else AwaitingReachUpgradeConsent)
              && d.(state := c.state) == c
            case _ => d == c
  {
    assert Text.Trim("") == "";
    hide Text.Trim;
    InputIs(CurrentState(s.context), content, choice, answer);
    hide InputFor;
  }

  lemma InputIs(state: ConversationState, content: string, choice: Option<string>, answer: Option<string>)
    ensures InputFor(state, content, choice, answer)
            == if OrEmpty(choice) != "" then AdvanceInput(choice, None)
               else if OrEmpty(answer) != "" && OrEmpty(answer) in ChipsForState(state) then AdvanceInput(answer, None)
               else AdvanceInput(None, Some(content))
  {
    hide ChipsForState;
  }

  /** A paused search run dispatches nothing itself; any other finished run dispatches exactly when it
      inserted something. */
  lemma PausedRunSendsNothing(params: FlowState.Row, confirmed: bool, steps: seq<Step>, t: State, j: nat)
    requires Run(Fresh(params, confirmed), steps, t) && j < |t.searches|
    ensures Pauses(t.searches[j]) ==> DispatchesFrom(t.bus, FromSearch(j)) == 0
    ensures t.searches[j].phase.SearchDone? && !Pauses(t.searches[j]) ==>
              DispatchesFrom(t.bus, FromSearch(j)) == One(t.searches[j].articlesInserted > 0)
  {
    FreshInv(params, confirmed);
    RunKeepsInv(Fresh(params, confirmed), steps, t);
    hide Run, Pauses, DispatchesFrom, ProbesCover, TasksSentOnce;
  }

  // ---------------------------------------------------------------------------------------
  // What a consent dispatches with
  // ---------------------------------------------------------------------------------------

  /** What an accepted consent writes: the upgrade only the type, continuing without reach only the
      intention; no other column changes. */
  lemma ConsentWrites(s: State, i: nat)
    requires Enabled(s, PatchForChoice(i))
    ensures var p, q := s.params, Next(s, PatchForChoice(i)).params;
            && q.brand == p.brand && q.dateStart == p.dateStart && q.dateEnd == p.dateEnd
            && q.competitors == p.competitors && q.hasUpload == p.hasUpload
            && (OrEmpty(InputOf(s.tasks[i]).choice) == "upgrade_similarweb" ==>
                  q.enrichmentType == Some(FlowState.Reach) && q.intention == p.intention)
            && (OrEmpty(InputOf(s.tasks[i]).choice) == "continue_without_reach" ==>
                  q.enrichmentType == p.enrichmentType && q.intention == Some(FlowState.CommentBased))
            && OrEmpty(InputOf(s.tasks[i]).choice) in ["upgrade_similarweb", "continue_without_reach"]
  {
    hide InputOf, Advance, FlowState.GetNextFlowState;
  }

  predicate Upgrades(t: Task) {
    Accepts(t) && InputOf(t).choice == Some(UPGRADE)
  }

  /** The step does not set the enrichment type back to standard. */
  predicate KeepsReach(step: Step) {
    step.UserPatch? ==> step.patch.enrichmentType != FlowState.Set(FlowState.Standard)
  }

  /** An upgrade that has patched the parameters finds `reach` stored, and sends it. */
  predicate ReachInv(s: State) {
    && (forall i :: 0 <= i < |s.tasks| && Upgrades(s.tasks[i]) ==>
          && (s.tasks[i].phase in {ParamsPatched, Pinned} ==> StoredType(s.params) == FlowState.Reach)
          && (s.tasks[i].phase.ReadBack? ==> s.tasks[i].phase.enrichmentType == FlowState.Reach))
    && forall k :: 0 <= k < |s.bus| && s.bus[k].source.FromTask? ==>
         s.bus[k].source.task < |s.tasks|
         && (Upgrades(s.tasks[s.bus[k].source.task]) ==> s.bus[k].enrichmentType == FlowState.Reach)
  }

  lemma ReachStays(params: FlowState.Row, confirmed: bool, patch: FlowState.PatchInput)
    ensures patch.enrichmentType == FlowState.Set(FlowState.Reach) ==>
              StoredType(FlowState.Patched(params, confirmed, patch)) == FlowState.Reach
    ensures patch.enrichmentType != FlowState.Set(FlowState.Standard) && StoredType(params) == FlowState.Reach ==>
              StoredType(FlowState.Patched(params, confirmed, patch)) == FlowState.Reach
  {
    if patch.enrichmentType.Set? {
      assert patch.enrichmentType.value == FlowState.Reach || patch.enrichmentType.value == FlowState.Standard;
    }
  }

  lemma TaskStepKeepsReach(s: State, step: Step)
    requires ReachInv(s) && Enabled(s, step) && IsTaskStep(step)
    ensures ReachInv(Next(s, step))
  {
    var i, s' := step.i, Next(s, step);
    TaskStepEffect(s, step);
    AcceptsIgnoresPhase(s.tasks[i], s'.tasks[i].phase);
    assert Upgrades(s'.tasks[i]) == Upgrades(s.tasks[i]);
    ReachStays(s.params, s.confirmed, ConsentPatch(OrEmpty(InputOf(s.tasks[i]).choice)));
    assert Upgrades(s.tasks[i]) ==> OrEmpty(InputOf(s.tasks[i]).choice) == UPGRADE;
    hide Upgrades, FlowState.Patched, InputOf, Accepts;
    forall k | 0 <= k < |s'.bus| && s'.bus[k].source.FromTask?
      ensures s'.bus[k].source.task < |s'.tasks|
      ensures Upgrades(s'.tasks[s'.bus[k].source.task]) ==> s'.bus[k].enrichmentType == FlowState.Reach
    {
      assert k < |s.bus| ==> s'.bus[k] == s.bus[k];
    }
  }

  lemma StepKeepsReach(s: State, step: Step)
    requires ReachInv(s) && Enabled(s, step) && KeepsReach(step)
    ensures ReachInv(Next(s, step))
  {
    if IsTaskStep(step) {
      TaskStepKeepsReach(s, step);
      hide *;
    } else {
      if step.UserPatch? {
        ReachStays(s.params, s.confirmed, step.patch);
      }
      hide Upgrades, FlowState.Patched, Advance, InputFor;
      var s' := Next(s, step);
      assert forall k :: 0 <= k < |s.bus| ==> s'.bus[k] == s.bus[k];
    }
  }

  lemma {:induction false} RunKeepsReach(s: State, steps: seq<Step>, t: State)
    requires ReachInv(s) && Run(s, steps, t) && forall k :: 0 <= k < |steps| ==> KeepsReach(steps[k])
    ensures ReachInv(t)
    decreases |steps|
  {
    if steps != [] {
      hide ReachInv, Next;
      StepKeepsReach(s, steps[0]);
      RunKeepsReach(Next(s, steps[0]), steps[1..], t);
    }
  }

  /** Unless someone sets the type back to standard, every upgrade dispatches reach enrichment. */
  lemma UpgradeSendsReach(params: FlowState.Row, confirmed: bool, steps: seq<Step>, t: State, k: nat)
    requires Run(Fresh(params, confirmed), steps, t) && forall n :: 0 <= n < |steps| ==> KeepsReach(steps[n])
    requires k < |t.bus| && t.bus[k].source.FromTask?
    ensures t.bus[k].source.task < |t.tasks|
    ensures Upgrades(t.tasks[t.bus[k].source.task]) ==> t.bus[k].enrichmentType == FlowState.Reach
  {
    hide Upgrades;
    RunKeepsReach(Fresh(params, confirmed), steps, t);
  }

  /** The type a step writes, if it writes one. */
  function SetsType(s: State, step: Step): Option<FlowState.EnrichmentType>
    requires Enabled(s, step)
  {
    match step
    case UserPatch(patch) => if patch.enrichmentType.Set? then Some(patch.enrichmentType.value) else None
    case PatchForChoice(i) => if Upgrades(s.tasks[i]) then Some(FlowState.Reach) else None
    case _ => None
  }

  /** The last type the run writes. */
  function LastType(s: State, steps: seq<Step>, t: State): Option<FlowState.EnrichmentType>
    requires Run(s, steps, t)
    decreases |steps|
  {
    if steps == [] then None
    else
      var later := LastType(Next(s, steps[0]), steps[1..], t);
      if later.Some? then later else SetsType(s, steps[0])
  }

  lemma StepSetsType(s: State, step: Step)
    requires Enabled(s, step)
    ensures StoredType(Next(s, step).params)
            == if SetsType(s, step).Some? then SetsType(s, step).value else StoredType(s.params)
  {
    match step
    case UserPatch(patch) =>
      if patch.enrichmentType.Set? {
        assert patch.enrichmentType.value.Reach? || patch.enrichmentType.value.Standard?;
      }
    case PatchForChoice(i) =>
      AcceptedChoice(s.tasks[i]);
      hide Accepts, InputOf;
    case _ => hide Advance, InputFor;
  }

  lemma AcceptedChoice(t: Task)
    requires Accepts(t)
    ensures Upgrades(t) <==> OrEmpty(InputOf(t).choice) == UPGRADE
  {
  }

  lemma {:induction false} RunSetsType(s: State, steps: seq<Step>, t: State)
    requires Run(s, steps, t)
    ensures StoredType(t.params)
            == if LastType(s, steps, t).Some? then LastType(s, steps, t).value else StoredType(s.params)
    decreases |steps|
  {
    if steps != [] {
      StepSetsType(s, steps[0]);
      hide Next, Enabled, StoredType, SetsType;
      RunSetsType(Next(s, steps[0]), steps[1..], t);
    }
  }

  /** An upgrade ends up dispatching standard enrichment exactly when the last type written between its
      own patch and its read-back is standard. */
  lemma UpgradeLostIffResetToStandard(s: State, i: nat, steps: seq<Step>, t: State)
    requires Enabled(s, PatchForChoice(i)) && Upgrades(s.tasks[i])
    requires Run(Next(s, PatchForChoice(i)), steps, t) && Enabled(t, Read(i))
    ensures Next(t, Read(i)).tasks[i].phase == ReadBack(FlowState.Standard)
            <==> LastType(Next(s, PatchForChoice(i)), steps, t) == Some(FlowState.Standard)
  {
    StepSetsType(s, PatchForChoice(i));
    RunSetsType(Next(s, PatchForChoice(i)), steps, t);
    assert Next(t, Read(i)).tasks[i].phase == ReadBack(StoredType(t.params));
    hide Upgrades, Accepts, Run, StoredType;
  }
}
