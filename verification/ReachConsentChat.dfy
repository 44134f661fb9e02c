/** The chat row, the parameter row, the running tasks and the bus as mutable state. The first methods are
    one transaction or one published message each; the side effect of a reply and a whole search run are
    put together from them. */
module ReachConsentChat {
  import opened Outcomes
  import opened Wizard
  import FlowState
  import opened ReachConsent

  // ---------------------------------------------------------------------------------------
  // What a whole side effect and a whole search run leave behind
  // ---------------------------------------------------------------------------------------

  /** The calls a side effect awaits: patch, state write, read-back, publish. */
  const AWAITED: nat := 4

  /** The state after the side effect of task i, `succeeding` of whose awaited calls succeed. */
  function AfterSideEffect(s: State, i: nat, succeeding: nat): State
    requires i < |s.tasks|
  {
    if !Accepts(s.tasks[i]) then s.(tasks := WithPhase(s, i, NothingToDo))
    else
      var patched := FlowState.Patched(s.params, s.confirmed, ConsentPatch(OrEmpty(InputOf(s.tasks[i]).choice)));
      s.(params := if succeeding >= 1 then patched else s.params,
         context := if succeeding >= 2 then s.context.(state := Some(Enriching)) else s.context,
         bus := if succeeding >= AWAITED then s.bus + [Dispatch(FromTask(i), StoredType(patched))] else s.bus,
         tasks := WithPhase(s, i, if succeeding >= AWAITED then Dispatched else TaskFailed))
  }

  /** The state after a search run that fetches, reflects and learns without being interrupted. */
  function AfterSearch(s: State, search: Search): State {
    var paused := Pauses(search);
    s.(context := if paused then s.context.(state := Some(AwaitingReachUpgradeConsent)) else s.context,
       probes := if paused then s.probes + 1 else s.probes,
       searches := s.searches + [search.(phase := SearchDone(paused))],
       bus := if paused || search.articlesInserted == 0 then s.bus
              else s.bus + [Dispatch(FromSearch(|s.searches|), search.enrichmentType)])
  }

  /** The state after the first calls have succeeded. */
  function Resolved(s: State, i: nat, succeeding: nat): State
    requires Enabled(s, PatchForChoice(i))
  {
    var patched := Next(s, PatchForChoice(i));
    if succeeding == 0 then s
    else if succeeding == 1 then patched
    else if succeeding == 2 then Next(patched, Pin(i))
    else if succeeding == 3 then Next(Next(patched, Pin(i)), Read(i))
    else Next(Next(Next(patched, Pin(i)), Read(i)), Send(i))
  }

  lemma ResolvedIsRun(s: State, i: nat, succeeding: nat)
    requires Enabled(s, PatchForChoice(i))
    ensures Leads(s, Resolved(s, i, succeeding))
    ensures succeeding < AWAITED ==> Enabled(Resolved(s, i, succeeding), FailTask(i))
  {
    LeadsSelf(s);
    hide Leads, FlowState.Patched, Accepts, StoredType;
    if succeeding >= 1 {
      LeadsNext(s, s, PatchForChoice(i));
      if succeeding >= 2 {
        LeadsNext(s, Next(s, PatchForChoice(i)), Pin(i));
        if succeeding >= 3 {
          LeadsNext(s, Next(Next(s, PatchForChoice(i)), Pin(i)), Read(i));
          if succeeding >= AWAITED {
            LeadsNext(s, Next(Next(Next(s, PatchForChoice(i)), Pin(i)), Read(i)), Send(i));
          }
        }
      }
    }
  }

  lemma ResolvedIsSteps(s: State, i: nat, succeeding: nat)
    requires Enabled(s, PatchForChoice(i))
    ensures var r := Resolved(s, i, succeeding);
            AfterSideEffect(s, i, succeeding) == if succeeding >= AWAITED then r else Next(r, FailTask(i))
  {
    hide FlowState.Patched, StoredType, InputOf;
    var r, a := Resolved(s, i, succeeding), AfterSideEffect(s, i, succeeding);
    if succeeding >= AWAITED {
      assert r.tasks == a.tasks;
    } else {
      assert Next(r, FailTask(i)).tasks == a.tasks;
    }
  }

  lemma LeadsKeepsInv(s: State, t: State)
    requires Inv(s) && Leads(s, t)
    ensures Inv(t)
  {
    hide Inv, Run;
    var steps :| Run(s, steps, t);
    RunKeepsInv(s, steps, t);
  }

  /** What a side effect leaves in the task, the chat state and the bus. */
  lemma SideEffectShows(s: State, i: nat, succeeding: nat)
    requires i < |s.tasks|
    ensures var s', sends := AfterSideEffect(s, i, succeeding), Accepts(s.tasks[i]) && succeeding >= AWAITED;
            && |s'.tasks| == |s.tasks|
            && s'.tasks[i].phase == (if sends then Dispatched else if Accepts(s.tasks[i]) then TaskFailed else NothingToDo)
            && (Accepts(s.tasks[i]) && succeeding >= 2 ==> s'.context == s.context.(state := Some(Enriching)))
            && (!Accepts(s.tasks[i]) || succeeding < 2 ==> s'.context == s.context)
            && (!Accepts(s.tasks[i]) || succeeding == 0 ==> s'.params == s.params)
            && (sends ==> s'.bus == s.bus + [Dispatch(FromTask(i), if Upgrades(s.tasks[i]) then FlowState.Reach
                                                                   else StoredType(s.params))])
            && (!sends ==> s'.bus == s.bus)
  {
    if Accepts(s.tasks[i]) {
      ConsentSets(s, i);
    }
    hide Accepts, FlowState.Patched, InputOf, StoredType, Upgrades;
  }

  lemma ConsentSets(s: State, i: nat)
    requires i < |s.tasks| && Accepts(s.tasks[i])
    ensures StoredType(FlowState.Patched(s.params, s.confirmed, ConsentPatch(OrEmpty(InputOf(s.tasks[i]).choice))))
            == if Upgrades(s.tasks[i]) then FlowState.Reach else StoredType(s.params)
  {
    AcceptedChoice(s.tasks[i]);
    hide Accepts, InputOf, Upgrades;
  }

  /** A side effect is a run that keeps the accounting and ends its task: exactly one message if the reply
      accepted and no call failed, with reach for an upgrade and otherwise the stored type; none if not. */
  lemma SideEffectSettles(s: State, i: nat, succeeding: nat)
    requires Inv(s) && i < |s.tasks| && s.tasks[i].phase == Started
    ensures Leads(s, AfterSideEffect(s, i, succeeding)) && Inv(AfterSideEffect(s, i, succeeding))
    ensures var s', sends := AfterSideEffect(s, i, succeeding), Accepts(s.tasks[i]) && succeeding >= AWAITED;
            && |s'.tasks| == |s.tasks| && Ended(s'.tasks[i].phase)
            && DispatchesFrom(s'.bus, FromTask(i)) == One(sends)
            && ConsentDispatches(s'.bus) == ConsentDispatches(s.bus) + One(sends)
            && (sends ==> !Awaiting(s'))
            && (Accepts(s.tasks[i]) && succeeding >= 2 ==> s'.context == s.context.(state := Some(Enriching)))
            && (!Accepts(s.tasks[i]) || succeeding < 2 ==> s'.context == s.context)
            && (!Accepts(s.tasks[i]) || succeeding == 0 ==> s'.params == s.params)
            && (sends ==> s'.bus == s.bus + [Dispatch(FromTask(i), if Upgrades(s.tasks[i]) then FlowState.Reach
                                                                   else StoredType(s.params))])
  {
    SideEffectIsRun(s, i, succeeding);
    LeadsKeepsInv(s, AfterSideEffect(s, i, succeeding));
    SideEffectShows(s, i, succeeding);
    hide Leads, AfterSideEffect, Accepts, StoredType, Upgrades, DispatchesFrom, ConsentDispatches, DispatchedTasks,
         ProbesCover, TasksFit, SearchesSentOnce;
    if Accepts(s.tasks[i]) && succeeding >= AWAITED {
      OneMoreDispatch(s.bus, Dispatch(FromTask(i), if Upgrades(s.tasks[i]) then FlowState.Reach else StoredType(s.params)));
    }
  }

  lemma SideEffectIsRun(s: State, i: nat, succeeding: nat)
    requires i < |s.tasks| && s.tasks[i].phase == Started
    ensures Leads(s, AfterSideEffect(s, i, succeeding))
  {
    if Accepts(s.tasks[i]) {
      ResolvedIsSteps(s, i, succeeding);
      ResolvedIsRun(s, i, succeeding);
      hide Leads, AfterSideEffect, Resolved, Accepts;
      if succeeding < AWAITED {
        LeadsNext(s, Resolved(s, i, succeeding), FailTask(i));
      }
    } else {
      LeadsSelf(s);
      hide Leads, Accepts;
      LeadsNext(s, s, Skip(i));
    }
  }

  /** What follows from the gate of the side effect. */
  lemma AfterTheGate(s: State, i: nat, succeeding: nat)
    requires i < |s.tasks| && s.tasks[i].phase == Started
    ensures !Accepts(s.tasks[i]) ==>
              AfterSideEffect(s, i, succeeding) == s.(tasks := s.tasks[i := s.tasks[i].(phase := NothingToDo)])
    ensures Accepts(s.tasks[i]) ==>
              Enabled(s, PatchForChoice(i))
              && var r := Resolved(s, i, succeeding);
                 AfterSideEffect(s, i, succeeding)
                 == if succeeding >= AWAITED then r
                    else r.(tasks := if i < |r.tasks| then r.tasks[i := r.tasks[i].(phase := TaskFailed)] else [])
  {
    if Accepts(s.tasks[i]) {
      ResolvedIsSteps(s, i, succeeding);
      hide Accepts, AfterSideEffect, FlowState.Patched, InputOf, StoredType;
    }
  }

  function SearchSteps(s: State, search: Search): State
    requires search.phase == Fetched && search.enrichmentType == StoredType(s.params)
  {
    var n := |s.searches|;
    var fetched := Next(s, Fetch(search.sampleSize, search.coverageReach, search.articlesInserted));
    Next(Next(fetched, Reflect(n)), Learn(n))
  }

  lemma SearchIsRun(s: State, search: Search)
    requires search.phase == Fetched && search.enrichmentType == StoredType(s.params)
    ensures SearchSteps(s, search) == AfterSearch(s, search)
    ensures var fetched := Next(s, Fetch(search.sampleSize, search.coverageReach, search.articlesInserted));
            Enabled(fetched, Reflect(|s.searches|)) && Enabled(Next(fetched, Reflect(|s.searches|)), Learn(|s.searches|))
    ensures Leads(s, AfterSearch(s, search))
  {
    LeadsSelf(s);
    hide Leads, StoredType;
    var n := |s.searches|;
    LeadsNext(s, s, Fetch(search.sampleSize, search.coverageReach, search.articlesInserted));
    var fetched := Next(s, Fetch(search.sampleSize, search.coverageReach, search.articlesInserted));
    assert fetched.searches == s.searches + [search];
    LeadsNext(s, fetched, Reflect(n));
    LeadsNext(s, Next(fetched, Reflect(n)), Learn(n));
    assert SearchSteps(s, search).searches == AfterSearch(s, search).searches;
  }

  /** What a search run leaves in the chat state and on the bus. */
  lemma SearchShows(s: State, search: Search)
    requires search.phase == Fetched && search.enrichmentType == StoredType(s.params)
    ensures var s', reach := AfterSearch(s, search), s.params.enrichmentType == Some(FlowState.Reach);
            && s'.params == s.params && s'.tasks == s.tasks && |s'.searches| == |s.searches| + 1
            && (if !reach && search.sampleSize > 0 && search.coverageReach < 0.8
                then s'.context == s.context.(state := Some(AwaitingReachUpgradeConsent)) && s'.bus == s.bus
                     && s'.probes == s.probes + 1
                else s'.context == s.context && s'.probes == s.probes
                     && s'.bus == if search.articlesInserted == 0 then s.bus
                                  else s.bus + [Dispatch(FromSearch(|s.searches|),
                                                         if reach then FlowState.Reach else FlowState.Standard)])
  {
  }

  class Chat {
    var context: ChatContext
    var params: FlowState.Row
    var confirmed: bool
    var tasks: seq<Task>
    var searches: seq<Search>
    var bus: seq<Dispatch>
    ghost var probes: nat

    ghost function Snapshot(): State
      reads this
    {
      State(context, params, confirmed, tasks, searches, bus, probes)
    }

    constructor (params: FlowState.Row, confirmed: bool)
      ensures Snapshot() == Fresh(params, confirmed)
    {
      context, this.params, this.confirmed := NO_PATCH, params, confirmed;
      tasks, searches, bus, probes := [], [], [], 0;
    }

    // -------------------------------------------------------------------------------------
    // A reply
    // -------------------------------------------------------------------------------------

    /** The synchronous half of a reply: advance, persist, and leave the rest to a background task. */
    method StartStreamingReply(content: string, choice: Option<string>, answer: Option<string>) returns (chips: seq<string>)
      modifies this
      ensures Snapshot() == Next(old(Snapshot()), Post(content, choice, answer))
      ensures chips == Advance(CurrentState(old(context)), InputFor(CurrentState(old(context)), content, choice, answer)).chips
    {
      hide Advance, ParseChoice;
      var currentState := if context.state.Some? then context.state.value else Welcome;
      var input: AdvanceInput;
      if choice.Some? && choice.value != "" {
        input := AdvanceInput(choice, None);
      } else {
        var parsed := ParseChoice(answer, ChipsForState(currentState));
        input := if parsed.Some? then AdvanceInput(parsed, None) else AdvanceInput(None, Some(content));
      }
      var r := Advance(currentState, input);
      context := Merge(context, r.contextPatch);
      tasks := tasks + [Task(currentState, content, choice, answer, Started)];
      chips := r.chips;
    }

    method MoveTask(i: nat, phase: TaskPhase)
      requires i < |tasks|
      modifies this`tasks
      ensures tasks == old(tasks)[i := old(tasks)[i].(phase := phase)]
    {
      tasks := tasks[i := tasks[i].(phase := phase)];
    }

    /** Writing a state that is already there is a no-op. */
    method SetChatProbeState(state: ConversationState)
      modifies this`context
      ensures context == old(context).(state := Some(state))
    {
      if context.state == Some(state) {
        return;
      }
      context := context.(state := Some(state));
    }

    method PatchParamsFor(i: nat, choice: string)
      requires Enabled(Snapshot(), PatchForChoice(i)) && choice == OrEmpty(InputOf(tasks[i]).choice)
      modifies this
      ensures Snapshot() == Next(old(Snapshot()), PatchForChoice(i))
    {
      hide FlowState.Patched, Accepts, InputOf;
      if choice == UPGRADE {
        params := FlowState.Patched(params, confirmed,
                                    FlowState.EMPTY_PATCH.(enrichmentType := FlowState.Set(FlowState.Reach)));
      } else {
        params := FlowState.Patched(params, confirmed,
                                    FlowState.EMPTY_PATCH.(intention := FlowState.Set(FlowState.CommentBased)));
      }
      MoveTask(i, ParamsPatched);
    }

    method PinEnriching(i: nat)
      requires Enabled(Snapshot(), Pin(i))
      modifies this
      ensures Snapshot() == Next(old(Snapshot()), Pin(i))
    {
      SetChatProbeState(Enriching);
      MoveTask(i, Pinned);
    }

    method ReadBackType(i: nat)
      requires Enabled(Snapshot(), Read(i))
      modifies this
      ensures Snapshot() == Next(old(Snapshot()), Read(i))
    {
      MoveTask(i, ReadBack(StoredType(params)));
    }

    method PublishEnrichment(i: nat)
      requires Enabled(Snapshot(), Send(i))
      modifies this
      ensures Snapshot() == Next(old(Snapshot()), Send(i))
    {
      bus := bus + [Dispatch(FromTask(i), tasks[i].phase.enrichmentType)];
      MoveTask(i, Dispatched);
    }

    /** Patch, state write, read-back, publish, in this order; the first call that fails ends it. */
    method ResolveReachProbe(i: nat, choice: string, succeeding: nat) returns (ok: bool)
      requires Enabled(Snapshot(), PatchForChoice(i)) && choice == OrEmpty(InputOf(tasks[i]).choice)
      modifies this
      ensures Snapshot() == Resolved(old(Snapshot()), i, succeeding)
      ensures ok <==> succeeding >= AWAITED
    {
      hide FlowState.Patched, Accepts, InputOf, StoredType;
      if succeeding == 0 {
        return false;
      }
      PatchParamsFor(i, choice);
      if succeeding == 1 {
        return false;
      }
      PinEnriching(i);
      if succeeding == 2 {
        return false;
      }
      ReadBackType(i);
      if succeeding == 3 {
        return false;
      }
      PublishEnrichment(i);
      ok := true;
    }

    /** The side effect of a reply, with its gate and its catch block. */
    method RunReachProbeSideEffect(i: nat, succeeding: nat)
      requires Inv(Snapshot()) && i < |tasks| && tasks[i].phase == Started
      modifies this
      ensures Snapshot() == AfterSideEffect(old(Snapshot()), i, succeeding)
      ensures Inv(Snapshot()) && Leads(old(Snapshot()), Snapshot())
      ensures Ended(tasks[i].phase)
    {
      hide Inv, Leads, Advance, InputOf, Resolved, AfterSideEffect, FlowState.Patched, StoredType;
      ghost var s := Snapshot();
      SideEffectSettles(s, i, succeeding);
      var task := tasks[i];
      var input := InputOf(task);
      var patch := Advance(task.fromState, input).contextPatch;
      var choice := OrEmpty(input.choice);
      AfterTheGate(s, i, succeeding);
      if task.fromState != AwaitingReachUpgradeConsent || patch.state != Some(Enriching)
         || choice !in REACH_UPGRADE_CHIPS {
        MoveTask(i, NothingToDo);
        return;
      }
      var ok := ResolveReachProbe(i, choice, succeeding);
      if !ok {
        MoveTask(i, TaskFailed);
      }
    }

    // -------------------------------------------------------------------------------------
    // A search run
    // -------------------------------------------------------------------------------------

    method FetchArticles(sampleSize: nat, coverageReach: real, articlesInserted: nat) returns (j: nat)
      modifies this
      ensures Snapshot() == Next(old(Snapshot()), Fetch(sampleSize, coverageReach, articlesInserted))
      ensures j == |old(searches)|
    {
      j := |searches|;
      searches := searches + [Search(StoredType(params), sampleSize, coverageReach, articlesInserted, Fetched)];
    }

    method ReflectOnRun(j: nat)
      requires Enabled(Snapshot(), Reflect(j))
      modifies this
      ensures Snapshot() == Next(old(Snapshot()), Reflect(j))
    {
      var search, paused := searches[j], false;
      if search.sampleSize > 0 && search.enrichmentType == FlowState.Standard && search.coverageReach < PRESENCE_THRESHOLD {
        SetChatProbeState(AwaitingReachUpgradeConsent);
        probes := probes + 1;
        paused := true;
      }
      searches := searches[j := search.(phase := Reflected(paused))];
    }

    method LearnFromRun(j: nat)
      requires Enabled(Snapshot(), Learn(j))
      modifies this
      ensures Snapshot() == Next(old(Snapshot()), Learn(j))
    {
      var search := searches[j];
      searches := searches[j := search.(phase := SearchDone(search.phase.paused))];
      if search.phase.paused {
        return;
      }
      if search.articlesInserted > 0 {
        bus := bus + [Dispatch(FromSearch(j), search.enrichmentType)];
      }
    }

    /** A whole search run: it pauses and asks, or hands over what it inserted. */
    method ExecuteSearch(sampleSize: nat, coverageReach: real, articlesInserted: nat)
      requires Inv(Snapshot())
      modifies this
      ensures Snapshot() == AfterSearch(old(Snapshot()),
                Search(StoredType(old(params)), sampleSize, coverageReach, articlesInserted, Fetched))
      ensures Inv(Snapshot()) && Leads(old(Snapshot()), Snapshot())
      ensures params == old(params) && tasks == old(tasks) && |searches| == |old(searches)| + 1
      ensures if old(params).enrichmentType != Some(FlowState.Reach) && sampleSize > 0 && coverageReach < 0.8
              then context == old(context).(state := Some(AwaitingReachUpgradeConsent)) && bus == old(bus)
                   && probes == old(probes) + 1
              else context == old(context) && probes == old(probes)
                   && bus == if articlesInserted == 0 then old(bus)
                             else old(bus) + [Dispatch(FromSearch(|old(searches)|),
                                                       if old(params).enrichmentType == Some(FlowState.Reach)
                                                       then FlowState.Reach else FlowState.Standard)]
    {
      ghost var s := Snapshot();
      ghost var search := Search(StoredType(params), sampleSize, coverageReach, articlesInserted, Fetched);
      SearchIsRun(s, search);
      LeadsKeepsInv(s, AfterSearch(s, search));
      SearchShows(s, search);
      hide Inv, Leads, StoredType, AfterSearch, Next, Enabled;
      var j := FetchArticles(sampleSize, coverageReach, articlesInserted);
      ReflectOnRun(j);
      LearnFromRun(j);
    }
  }
}
