/** What the handshake can lose: a reach probe that is overwritten before anybody has answered it, and an
    upgrade whose type is set back. */
module LostProbes {
  import opened Outcomes
  import opened Wizard
  import FlowState
  import opened ReachConsent

  // ---------------------------------------------------------------------------------------
  // What a step does to an unanswered probe
  // ---------------------------------------------------------------------------------------

  /** The task accepted a consent and has not yet written the state that follows from it. */
  predicate StillToPin(t: Task) {
    Accepts(t) && (t.phase == Started || t.phase == ParamsPatched)
  }

  predicate SomeStillToPin(s: State) {
    exists i :: 0 <= i < |s.tasks| && StillToPin(s.tasks[i])
  }

  lemma StepAccepts(s: State, step: Step)
    requires Enabled(s, step)
    ensures AcceptedReplies(Next(s, step).tasks)
            == AcceptedReplies(s.tasks) + One(step.Post? && Accepts(Next(s, step).tasks[|s.tasks|]))
  {
    if step.Post? {
      OneMoreTask(s.tasks, Next(s, step).tasks[|s.tasks|]);
    } else if IsTaskStep(step) {
      TaskStepEffect(s, step);
      AcceptsIgnoresPhase(s.tasks[step.i], Next(s, step).tasks[step.i].phase);
      OneTaskMoved(s.tasks, step.i, Next(s, step).tasks[step.i]);
      hide Next, Accepts, AcceptedReplies;
    }
  }

  /** A reply leaves the probe state exactly when it accepts, and only an accepting task is still to pin. */
  lemma PostAndProbe(s: State, step: Step)
    requires step.Post?
    ensures var s' := Next(s, step);
            && s'.tasks == s.tasks + [s'.tasks[|s.tasks|]]
            && (Accepts(s'.tasks[|s.tasks|]) ==> Awaiting(s))
            && (Awaiting(s') <==> Awaiting(s) && !Accepts(s'.tasks[|s.tasks|]))
  {
    AdvanceAccepts(CurrentState(s.context), InputOf(Next(s, step).tasks[|s.tasks|]));
    hide Advance, InputFor;
  }

  /** Without an accepted reply only the state write of an earlier consent ends the probe state. */
  lemma OnlyPinEndsProbe(s: State, step: Step)
    requires Awaiting(s) && Enabled(s, step)
    requires AcceptedReplies(Next(s, step).tasks) == AcceptedReplies(s.tasks)
    ensures !Awaiting(Next(s, step)) <==> step.Pin?
  {
    StepAccepts(s, step);
    if step.Post? {
      PostAndProbe(s, step);
      hide Next, Accepts;
    }
  }

  lemma OnlyPhasesMove(s: State, step: Step, k: nat)
    requires Enabled(s, step) && !step.Post? && k < |Next(s, step).tasks|
    ensures k < |s.tasks| && Next(s, step).tasks[k] == s.tasks[k].(phase := Next(s, step).tasks[k].phase)
    ensures Next(s, step).tasks[k].phase == Started ==> s.tasks[k].phase == Started
    ensures Next(s, step).tasks[k].phase == ParamsPatched ==> s.tasks[k].phase == Started || s.tasks[k].phase == ParamsPatched
  {
    hide Accepts, FlowState.Patched, Pauses;
  }

  /** Nobody comes to be still to pin except by accepting a reply. */
  lemma StillToPinStays(s: State, step: Step)
    requires Enabled(s, step) && SomeStillToPin(Next(s, step))
    requires AcceptedReplies(Next(s, step).tasks) == AcceptedReplies(s.tasks)
    ensures SomeStillToPin(s)
  {
    StepAccepts(s, step);
    var s' := Next(s, step);
    var k :| 0 <= k < |s'.tasks| && StillToPin(s'.tasks[k]);
    if step.Post? {
      PostAndProbe(s, step);
      hide Next, Accepts, AcceptedReplies;
      assert k < |s.tasks| && s'.tasks[k] == s.tasks[k];
    } else {
      OnlyPhasesMove(s, step, k);
      AcceptsIgnoresPhase(s.tasks[k], s'.tasks[k].phase);
      hide Next, Enabled, Accepts, AcceptedReplies;
      assert StillToPin(s.tasks[k]);
    }
  }

  // ---------------------------------------------------------------------------------------
  // Exactly when a probe can be lost
  // ---------------------------------------------------------------------------------------

  lemma StepIsMonotone(s: State, step: Step)
    requires Enabled(s, step)
    ensures AcceptedReplies(s.tasks) <= AcceptedReplies(Next(s, step).tasks)
    ensures s.probes <= Next(s, step).probes
  {
    StepAccepts(s, step);
    hide AcceptedReplies, Accepts, Advance, InputFor;
  }

  lemma {:induction false} RunIsMonotone(s: State, steps: seq<Step>, t: State)
    requires Run(s, steps, t)
    ensures AcceptedReplies(s.tasks) <= AcceptedReplies(t.tasks) && s.probes <= t.probes
    decreases |steps|
  {
    if steps != [] {
      hide Next, Enabled, AcceptedReplies;
      StepIsMonotone(s, steps[0]);
      RunIsMonotone(Next(s, steps[0]), steps[1..], t);
    }
  }

  lemma {:induction false} ProbeStays(s: State, steps: seq<Step>, t: State)
    requires Inv(s) && Awaiting(s) && !SomeStillToPin(s)
    requires Run(s, steps, t) && AcceptedReplies(t.tasks) == AcceptedReplies(s.tasks)
    ensures Awaiting(t)
    decreases |steps|
  {
    if steps != [] {
      NoPinWithoutConsent(s, steps[0]);
      hide Inv, Next, Enabled, AcceptedReplies, SomeStillToPin;
      StepKeepsInv(s, steps[0]);
      StepIsMonotone(s, steps[0]);
      var m := Next(s, steps[0]);
      RunIsMonotone(m, steps[1..], t);
      OnlyPinEndsProbe(s, steps[0]);
      if SomeStillToPin(m) {
        StillToPinStays(s, steps[0]);
      }
      ProbeStays(m, steps[1..], t);
    }
  }

  lemma NoPinWithoutConsent(s: State, step: Step)
    requires Inv(s) && !SomeStillToPin(s) && Enabled(s, step)
    ensures !step.Pin?
  {
    hide ProbesCover, TasksSentOnce, SearchesSentOnce, Accepts;
    assert step.Pin? ==> StillToPin(s.tasks[step.i]);
  }

  /** A consent that is still to be carried out can overwrite the probe. */
  lemma CanOverwrite(s: State, i: nat) returns (t: State)
    requires i < |s.tasks| && StillToPin(s.tasks[i])
    ensures Leads(s, t) && !Awaiting(t) && AcceptedReplies(t.tasks) == AcceptedReplies(s.tasks) && t.probes == s.probes
  {
    LeadsSelf(s);
    hide Leads, AcceptedReplies, FlowState.Patched;
    var m := s;
    if s.tasks[i].phase == Started {
      LeadsNext(s, s, PatchForChoice(i));
      StepAccepts(s, PatchForChoice(i));
      m := Next(s, PatchForChoice(i));
    }
    LeadsNext(s, m, Pin(i));
    StepAccepts(m, Pin(i));
    t := Next(m, Pin(i));
  }

  /** A probe entered by a pausing search run can be lost, that is overwritten with no reply accepted
      since, if and only if at that moment some accepted consent has not yet written its state. */
  lemma ProbeLostIffConsentUnderWay(s: State, j: nat)
    requires Inv(s) && Enabled(s, Reflect(j)) && Pauses(s.searches[j])
    ensures (exists t :: Leads(Next(s, Reflect(j)), t) && !Awaiting(t)
                         && AcceptedReplies(t.tasks) == AcceptedReplies(s.tasks))
            <==> SomeStillToPin(s)
  {
    var m := Next(s, Reflect(j));
    assert Awaiting(m) && m.tasks == s.tasks;
    StepKeepsInv(s, Reflect(j));
    hide Inv, Next, Awaiting, AcceptedReplies, Accepts, Run;
    if SomeStillToPin(s) {
      var i: nat :| i < |s.tasks| && StillToPin(s.tasks[i]);
      var t := CanOverwrite(m, i);
    } else {
      forall t | Leads(m, t) && AcceptedReplies(t.tasks) == AcceptedReplies(s.tasks) ensures Awaiting(t) {
        var steps :| Run(m, steps, t);
        ProbeStays(m, steps, t);
      }
    }
  }

  // ---------------------------------------------------------------------------------------
  // A lost probe stays lost
  // ---------------------------------------------------------------------------------------

  lemma NothingAcceptedOutside(s: State, step: Step)
    requires !Awaiting(s) && Enabled(s, step) && Next(s, step).probes == s.probes
    ensures !Awaiting(Next(s, step)) && AcceptedReplies(Next(s, step).tasks) == AcceptedReplies(s.tasks)
  {
    StepAccepts(s, step);
    if step.Post? {
      PostAndProbe(s, step);
      hide Next, Accepts, AcceptedReplies;
    } else {
      hide Accepts, AcceptedReplies, FlowState.Patched;
    }
  }

  /** Outside the probe state no reply accepts until a search run enters another probe. */
  lemma {:induction false} NoAcceptanceUntilNextProbe(s: State, steps: seq<Step>, t: State)
    requires !Awaiting(s) && Run(s, steps, t) && t.probes == s.probes
    ensures !Awaiting(t) && AcceptedReplies(t.tasks) == AcceptedReplies(s.tasks)
    decreases |steps|
  {
    if steps != [] {
      hide Next, Enabled, AcceptedReplies, Awaiting;
      var m := Next(s, steps[0]);
      StepIsMonotone(s, steps[0]);
      RunIsMonotone(m, steps[1..], t);
      NothingAcceptedOutside(s, steps[0]);
      NoAcceptanceUntilNextProbe(m, steps[1..], t);
    }
  }

  // ---------------------------------------------------------------------------------------
  // A run that loses a probe
  // ---------------------------------------------------------------------------------------

  const CONSENT := Task(AwaitingReachUpgradeConsent, "", Some(CONTINUE), None, Started)

  function Paused(phase: SearchPhase): Search {
    Search(FlowState.Standard, 1, 0.0, 0, phase)
  }

  function InState(state: ConversationState): ChatContext {
    NO_PATCH.(state := Some(state))
  }

  /** A search run of a chat with standard enrichment sees an article, no coverage, and pauses. */
  lemma PauseOnce(s0: State, s: State)
    requires Leads(s0, s) && StoredType(s.params) == FlowState.Standard
    ensures Leads(s0, s.(context := s.context.(state := Some(AwaitingReachUpgradeConsent)), probes := s.probes + 1,
                         searches := s.searches + [Paused(Reflected(true))]))
  {
    hide Leads, StoredType;
    var n := |s.searches|;
    LeadsNext(s0, s, Fetch(1, 0.0, 0));
    var f := Next(s, Fetch(1, 0.0, 0));
    assert f.searches == s.searches + [Paused(Fetched)];
    LeadsNext(s0, f, Reflect(n));
    assert Next(f, Reflect(n)).searches == s.searches + [Paused(Reflected(true))];
  }

  lemma ConsentAccepts()
    ensures Accepts(CONSENT)
    ensures forall phase :: StillToPin(CONSENT.(phase := phase)) <==> phase == Started || phase == ParamsPatched
  {
    AdvanceAccepts(CONSENT.fromState, InputOf(CONSENT));
    forall phase ensures Accepts(CONSENT.(phase := phase)) {
      AcceptsIgnoresPhase(CONSENT, phase);
    }
  }

  /** A reply with one of the two chips. */
  lemma ReplyOnce(s0: State, s: State, reply: Task)
    requires Leads(s0, s) && s.context == InState(AwaitingReachUpgradeConsent)
    requires reply in {CONSENT, CONSENT_TO_UPGRADE}
    ensures Leads(s0, s.(context := InState(Enriching), tasks := s.tasks + [reply]))
  {
    LeadsNext(s0, s, Post("", reply.choice, None));
    hide Leads;
    assert Next(s, Post("", reply.choice, None)).tasks == s.tasks + [reply];
  }

  /** From the start of a chat with standard enrichment: a run pauses, the user consents, a second run
      pauses before the consent is carried out, and its probe is overwritten. One of the two probes is
      answered, and no later reply accepts until another run pauses. */
  lemma LosesAProbe(params: FlowState.Row, confirmed: bool) returns (t: State)
    requires StoredType(params) == FlowState.Standard
    ensures Leads(Fresh(params, confirmed), t)
    ensures !Awaiting(t) && t.probes == 2 && AcceptedReplies(t.tasks) == 1
    ensures forall steps, u :: Run(t, steps, u) && u.probes == 2 ==> AcceptedReplies(u.tasks) == 1
  {
    var s0 := Fresh(params, confirmed);
    LeadsSelf(s0);
    ConsentAccepts();
    OneMoreTask([], CONSENT);
    hide Leads, Accepts, StoredType;
    PauseOnce(s0, s0);
    var s1 := s0.(context := InState(AwaitingReachUpgradeConsent), probes := 1, searches := [Paused(Reflected(true))]);
    assert s0.searches + [Paused(Reflected(true))] == s1.searches;
    ReplyOnce(s0, s1, CONSENT);
    var s2 := s1.(context := InState(Enriching), tasks := [CONSENT]);
    assert s1.tasks + [CONSENT] == s2.tasks;
    PauseOnce(s0, s2);
    var s3 := s2.(context := InState(AwaitingReachUpgradeConsent), probes := 2,
                  searches := s2.searches + [Paused(Reflected(true))]);
    assert [] + [CONSENT] == [CONSENT] == s3.tasks;
    assert CONSENT == CONSENT.(phase := Started);
    t := CanOverwrite(s3, 0);
    LeadsFurther(s0, s3, t);
    forall steps, u | Run(t, steps, u) && u.probes == 2 ensures AcceptedReplies(u.tasks) == 1 {
      NoAcceptanceUntilNextProbe(t, steps, u);
    }
  }

  // ---------------------------------------------------------------------------------------
  // A run that loses an upgrade
  // ---------------------------------------------------------------------------------------

  const CONSENT_TO_UPGRADE := Task(AwaitingReachUpgradeConsent, "", Some(UPGRADE), None, Started)

  const BACK_TO_STANDARD := FlowState.EMPTY_PATCH.(enrichmentType := FlowState.Set(FlowState.Standard))

  lemma UpgradeAccepts()
    ensures Accepts(CONSENT_TO_UPGRADE)
    ensures forall phase :: Upgrades(CONSENT_TO_UPGRADE.(phase := phase))
  {
    AdvanceAccepts(CONSENT_TO_UPGRADE.fromState, InputOf(CONSENT_TO_UPGRADE));
    forall phase ensures Upgrades(CONSENT_TO_UPGRADE.(phase := phase)) {
      AcceptsIgnoresPhase(CONSENT_TO_UPGRADE, phase);
    }
  }

  /** An upgrade's task that has patched the parameters, and is then outrun by a patch back to standard. */
  lemma OutrunUpgrade(s0: State, s: State) returns (t: State)
    requires Leads(s0, s) && s.tasks == [CONSENT_TO_UPGRADE] && s.bus == []
    ensures Leads(s0, t) && t.tasks == [CONSENT_TO_UPGRADE.(phase := Dispatched)]
    ensures t.bus == [Dispatch(FromTask(0), FlowState.Standard)]
  {
    UpgradeAccepts();
    hide Leads, Accepts, Upgrades, StoredType, FlowState.Patched;
    LeadsNext(s0, s, PatchForChoice(0));
    var patched := Next(s, PatchForChoice(0));
    LeadsNext(s0, patched, UserPatch(BACK_TO_STANDARD));
    var reset := Next(patched, UserPatch(BACK_TO_STANDARD));
    StepSetsType(patched, UserPatch(BACK_TO_STANDARD));
    LeadsNext(s0, reset, Pin(0));
    var pinned := Next(reset, Pin(0));
    LeadsNext(s0, pinned, Read(0));
    var read := Next(pinned, Read(0));
    LeadsNext(s0, read, Send(0));
    t := Next(read, Send(0));
  }

  /** From the start of a chat with standard enrichment: a run pauses, the user chooses the upgrade, and
      then sets the type back to standard before it is read back. The upgrade dispatches standard. */
  lemma LosesAnUpgrade(params: FlowState.Row, confirmed: bool) returns (t: State)
    requires StoredType(params) == FlowState.Standard
    ensures Leads(Fresh(params, confirmed), t)
    ensures |t.tasks| == 1 && Upgrades(t.tasks[0]) && t.tasks[0].phase == Dispatched
    ensures t.bus == [Dispatch(FromTask(0), FlowState.Standard)]
  {
    var s0 := Fresh(params, confirmed);
    LeadsSelf(s0);
    UpgradeAccepts();
    hide Leads, Accepts, Upgrades, StoredType;
    PauseOnce(s0, s0);
    var s1 := s0.(context := InState(AwaitingReachUpgradeConsent), probes := 1, searches := [Paused(Reflected(true))]);
    assert s0.searches + [Paused(Reflected(true))] == s1.searches;
    ReplyOnce(s0, s1, CONSENT_TO_UPGRADE);
    var s2 := s1.(context := InState(Enriching), tasks := [CONSENT_TO_UPGRADE]);
    assert s1.tasks + [CONSENT_TO_UPGRADE] == s2.tasks;
    t := OutrunUpgrade(s0, s2);
  }
}
