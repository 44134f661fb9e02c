/** The slot-filling conversation: the pure state machine behind the wizard, and its runs. */
module Wizard {
  import opened Outcomes
  import opened Text

  datatype ConversationState =
    | Welcome | AwaitingDate | AwaitingEnrichment | AwaitingBrand | AwaitingCompetitors | AwaitingIntention | Ready
    | AwaitingReachUpgradeConsent | Enriching

  datatype AdvanceInput = AdvanceInput(choice: Option<string>, freeText: Option<string>)

  /** The chat context; a patch is a context whose absent fields are left alone. */
  datatype ChatContext = ChatContext(
    state: Option<ConversationState>,
    dateRange: Option<string>,
    enrichment: Option<string>,
    brand: Option<string>,
    competitors: Option<string>,
    intention: Option<string>)

  const NO_PATCH := ChatContext(None, None, None, None, None, None)

  datatype Advanced = Advanced(newState: ConversationState, contextPatch: ChatContext, chips: seq<string>)

  const DATE_CHIPS := ["weekly", "10days", "20days", "custom"]
  const ENRICHMENT_CHIPS := ["enrichment", "enrichment_plus_reach"]
  const COMPETITOR_CHIPS := ["top5", "top3", "top2", "other"]
  const INTENTION_CHIPS := ["intention_based", "comment_based"]
  const REACH_UPGRADE_CHIPS := ["upgrade_similarweb", "continue_without_reach"]

  function ChipsForState(s: ConversationState): seq<string> {
    match s
    case AwaitingDate => DATE_CHIPS
    case AwaitingEnrichment => ENRICHMENT_CHIPS
    case AwaitingCompetitors => COMPETITOR_CHIPS
    case AwaitingIntention => INTENTION_CHIPS
    case AwaitingReachUpgradeConsent => REACH_UPGRADE_CHIPS
    case _ => []
  }

  function OrEmpty(o: Option<string>): string {
    if o.Some? then o.value else ""
  }

  function Override<T>(old_: Option<T>, patch: Option<T>): Option<T> {
    if patch.Some? then patch else old_
  }

  /** { ...context, ...patch } */
  function Merge(c: ChatContext, p: ChatContext): ChatContext {
    ChatContext(
      Override(c.state, p.state), Override(c.dateRange, p.dateRange), Override(c.enrichment, p.enrichment),
      Override(c.brand, p.brand), Override(c.competitors, p.competitors), Override(c.intention, p.intention))
  }

  function CurrentState(c: ChatContext): ConversationState {
    if c.state.Some? then c.state.value else Welcome
  }

  function Stay(s: ConversationState): Advanced {
    Advanced(s, NO_PATCH, ChipsForState(s))
  }

  function Move(s: ConversationState, patch: ChatContext): Advanced {
    Advanced(s, patch.(state := Some(s)), ChipsForState(s))
  }

  function Advance(state: ConversationState, input: AdvanceInput): Advanced {
    var userInput := if input.choice.Some? then input.choice.value else OrEmpty(input.freeText);
    if userInput == "" then Advanced(state, NO_PATCH, [])
    else
      match state
      case Welcome => Move(AwaitingDate, NO_PATCH)
      case AwaitingDate =>
        if OrEmpty(input.choice) !in DATE_CHIPS then Stay(state)
        else Move(AwaitingEnrichment, NO_PATCH.(dateRange := input.choice))
      case AwaitingEnrichment =>
        if OrEmpty(input.choice) !in ENRICHMENT_CHIPS then Stay(state)
        else Move(AwaitingBrand, NO_PATCH.(enrichment := input.choice))
      case AwaitingBrand =>
        var rawBrand := Trim(OrEmpty(input.freeText));
        if rawBrand == "" then Stay(state)
        else Move(AwaitingCompetitors, NO_PATCH.(brand := Some(rawBrand)))
      case AwaitingCompetitors =>
        if OrEmpty(input.choice) !in COMPETITOR_CHIPS then Stay(state)
        else Move(AwaitingIntention, NO_PATCH.(competitors := input.choice))
      case AwaitingIntention =>
        if OrEmpty(input.choice) !in INTENTION_CHIPS then Stay(state)
        else Move(Ready, NO_PATCH.(intention := input.choice))
      case Ready => Stay(state)
      case AwaitingReachUpgradeConsent =>
        if OrEmpty(input.choice) !in REACH_UPGRADE_CHIPS then Stay(state) else Move(Enriching, NO_PATCH)
      case Enriching => Stay(state)
  }

  // ---------------------------------------------------------------------------------------
  // The first slot still missing
  // ---------------------------------------------------------------------------------------

  /** The parameters the skip-ahead helper reads. An absent or empty text is unfilled. */
  datatype ParamsShape = ParamsShape(
    brand: Option<string>, dateStart: Option<string>, dateEnd: Option<string>, enrichmentType: Option<string>,
    competitors: seq<string>, intention: Option<string>)

  function NextUnfilledState(p: ParamsShape): ConversationState {
    if OrEmpty(p.dateStart) == "" || OrEmpty(p.dateEnd) == "" then AwaitingDate
    else if OrEmpty(p.enrichmentType) == "" then AwaitingEnrichment
    else if OrEmpty(p.brand) == "" then AwaitingBrand
    else if p.competitors == [] then AwaitingCompetitors
    else if OrEmpty(p.intention) == "" then AwaitingIntention
    else Ready
  }

  /** What a state asks for is not there; a date range needs both its ends. */
  predicate Missing(p: ParamsShape, s: ConversationState) {
    match s
    case AwaitingDate => OrEmpty(p.dateStart) == "" || OrEmpty(p.dateEnd) == ""
    case AwaitingEnrichment => OrEmpty(p.enrichmentType) == ""
    case AwaitingBrand => OrEmpty(p.brand) == ""
    case AwaitingCompetitors => p.competitors == []
    case AwaitingIntention => OrEmpty(p.intention) == ""
    case _ => false
  }

  /** Skipping ahead stops at the first state in the wizard's order whose answer is missing, whichever later
      answers are there, and at ready if none is. */
  lemma SkipsToTheFirstMissing(p: ParamsShape)
    ensures var s := NextUnfilledState(p);
            && (s == Ready || Missing(p, s))
            && (forall t: ConversationState :: Rank(t) < Rank(s) ==> !Missing(p, t))
            && (s == Ready <==> forall t: ConversationState :: !Missing(p, t))
  {
    assert Missing(p, NextUnfilledState(p)) || NextUnfilledState(p) == Ready;
  }

  /** The wizard's slots seen as parameters: a chosen date range has both its ends. */
  function Slots(c: ChatContext): ParamsShape {
    ParamsShape(c.brand, c.dateRange, c.dateRange, c.enrichment,
                if c.competitors.Some? then [c.competitors.value] else [], c.intention)
  }

  // ---------------------------------------------------------------------------------------
  // Runs
  // ---------------------------------------------------------------------------------------

  function Reply(c: ChatContext, input: AdvanceInput): ChatContext {
    Merge(c, Advance(CurrentState(c), input).contextPatch)
  }

  /** The context after a sequence of inputs, each patch merged in. */
  function After(inputs: seq<AdvanceInput>): ChatContext {
    if inputs == [] then NO_PATCH else Reply(After(inputs[..|inputs| - 1]), inputs[|inputs| - 1])
  }

  function Rank(s: ConversationState): nat {
    match s
    case Welcome => 0
    case AwaitingDate => 1
    case AwaitingEnrichment => 2
    case AwaitingBrand => 3
    case AwaitingCompetitors => 4
    case AwaitingIntention => 5
    case Ready => 6
    case AwaitingReachUpgradeConsent => 7
    case Enriching => 8
  }

  predicate FilledFrom(slot: Option<string>, choices: seq<string>, filled: bool) {
    if filled then slot.Some? && slot.value in choices else slot == None
  }

  /** Exactly the slots before the state are filled, each with a value it may have. */
  predicate SlotsFit(c: ChatContext) {
    var r := Rank(CurrentState(c));
    && r <= 6
    && FilledFrom(c.dateRange, DATE_CHIPS, r >= 2)
    && FilledFrom(c.enrichment, ENRICHMENT_CHIPS, r >= 3)
    && (if r >= 4 then c.brand.Some? && c.brand.value != "" && Trim(c.brand.value) == c.brand.value else c.brand == None)
    && FilledFrom(c.competitors, COMPETITOR_CHIPS, r >= 5)
    && FilledFrom(c.intention, INTENTION_CHIPS, r >= 6)
  }

  lemma ReplyKeepsFit(c: ChatContext, input: AdvanceInput)
    requires SlotsFit(c)
    ensures SlotsFit(Reply(c, input))
  {
    hide Trim;
    TrimIdempotent(OrEmpty(input.freeText));
  }

  lemma {:induction false} RunFits(inputs: seq<AdvanceInput>)
    ensures SlotsFit(After(inputs))
  {
    assert SlotsFit(NO_PATCH);
    hide SlotsFit, Reply;
    if inputs != [] {
      RunFits(inputs[..|inputs| - 1]);
      ReplyKeepsFit(After(inputs[..|inputs| - 1]), inputs[|inputs| - 1]);
    }
  }

  lemma ChipsNotEmpty(slot: Option<string>, choices: seq<string>)
    requires choices == DATE_CHIPS || choices == ENRICHMENT_CHIPS || choices == INTENTION_CHIPS
    requires slot.Some? && slot.value in choices
    ensures OrEmpty(slot) != ""
  {
  }

  /** In every run, once it has left the welcome state, the state is the first slot still missing
      from the accumulated context; in particular it is never one of the reach states. */
  lemma StateIsFirstUnfilled(inputs: seq<AdvanceInput>)
    ensures var c := After(inputs);
            CurrentState(c) == if CurrentState(c) == Welcome then Welcome else NextUnfilledState(Slots(c))
    ensures CurrentState(After(inputs)) == Welcome ==> NextUnfilledState(Slots(After(inputs))) == AwaitingDate
  {
    hide Trim, After;
    var c := After(inputs);
    RunFits(inputs);
    if c.dateRange.Some? {
      ChipsNotEmpty(c.dateRange, DATE_CHIPS);
    }
    if c.enrichment.Some? {
      ChipsNotEmpty(c.enrichment, ENRICHMENT_CHIPS);
    }
    if c.intention.Some? {
      ChipsNotEmpty(c.intention, INTENTION_CHIPS);
    }
  }

  /** A run is ready exactly when all five slots hold valid values. */
  lemma ReadyMeansComplete(inputs: seq<AdvanceInput>)
    ensures var c := After(inputs);
            CurrentState(c) == Ready <==>
              && FilledFrom(c.dateRange, DATE_CHIPS, true) && FilledFrom(c.enrichment, ENRICHMENT_CHIPS, true)
              && c.brand.Some? && c.brand.value != "" && Trim(c.brand.value) == c.brand.value
              && FilledFrom(c.competitors, COMPETITOR_CHIPS, true) && FilledFrom(c.intention, INTENTION_CHIPS, true)
  {
    hide Trim, After;
    RunFits(inputs);
  }

  predicate Keeps(before: Option<string>, after: Option<string>) {
    before.Some? ==> after == before
  }

  /** No later input takes the conversation back or changes a slot that was filled. */
  predicate NoStepBack(c: ChatContext, d: ChatContext) {
    && Rank(CurrentState(c)) <= Rank(CurrentState(d))
    && Keeps(c.dateRange, d.dateRange) && Keeps(c.enrichment, d.enrichment) && Keeps(c.brand, d.brand)
    && Keeps(c.competitors, d.competitors) && Keeps(c.intention, d.intention)
  }

  lemma ReplyMovesOn(c: ChatContext, input: AdvanceInput)
    requires SlotsFit(c)
    ensures NoStepBack(c, Reply(c, input)) && Rank(CurrentState(Reply(c, input))) <= Rank(CurrentState(c)) + 1
  {
    hide Trim;
  }

  lemma {:induction false} RankNeverDrops(inputs: seq<AdvanceInput>, more: seq<AdvanceInput>)
    ensures NoStepBack(After(inputs), After(inputs + more))
    ensures Rank(CurrentState(After(inputs + more))) <= Rank(CurrentState(After(inputs))) + |more|
    decreases |more|
  {
    hide Reply;
    if more == [] {
      assert inputs + more == inputs;
    } else {
      var n := |more| - 1;
      RankNeverDrops(inputs, more[..n]);
      RunFits(inputs + more[..n]);
      ReplyMovesOn(After(inputs + more[..n]), more[n]);
      assert (inputs + more)[..|inputs + more| - 1] == inputs + more[..n];
      assert (inputs + more)[|inputs + more| - 1] == more[n];
    }
  }

  // ---------------------------------------------------------------------------------------
  // The slots hold the user's own answers
  // ---------------------------------------------------------------------------------------

  /** Input k was given in this state and moved the conversation on to the next. */
  predicate GivenIn(inputs: seq<AdvanceInput>, k: nat, state: ConversationState, next: ConversationState) {
    && k < |inputs|
    && CurrentState(After(inputs[..k])) == state && CurrentState(After(inputs[..k + 1])) == next
  }

  predicate Chosen(inputs: seq<AdvanceInput>, k: nat, slot: Option<string>) {
    k < |inputs| && inputs[k].choice == slot
  }

  predicate Typed(inputs: seq<AdvanceInput>, k: nat, slot: Option<string>) {
    k < |inputs| && inputs[k].freeText.Some? && slot == Some(Trim(inputs[k].freeText.value))
  }

  /** What a reply does to each slot: nothing, or, in the state that asks for it, store the answer. */
  lemma ReplyStores(c: ChatContext, input: AdvanceInput)
    requires SlotsFit(c)
    ensures var d := Reply(c, input);
            && (d.dateRange == c.dateRange || (CurrentState(c) == AwaitingDate && CurrentState(d) == AwaitingEnrichment
                                               && d.dateRange == input.choice
                                               && OrEmpty(input.choice) in ["weekly", "10days", "20days", "custom"]))
            && (d.enrichment == c.enrichment || (CurrentState(c) == AwaitingEnrichment && CurrentState(d) == AwaitingBrand
                                                 && d.enrichment == input.choice
                                                 && OrEmpty(input.choice) in ["enrichment", "enrichment_plus_reach"]))
            && (d.brand == c.brand || (CurrentState(c) == AwaitingBrand && CurrentState(d) == AwaitingCompetitors
                                       && input.freeText.Some? && d.brand == Some(Trim(input.freeText.value))
                                       && Trim(input.freeText.value) != ""))
            && (d.competitors == c.competitors || (CurrentState(c) == AwaitingCompetitors && CurrentState(d) == AwaitingIntention
                                                   && d.competitors == input.choice
                                                   && OrEmpty(input.choice) in ["top5", "top3", "top2", "other"]))
            && (d.intention == c.intention || (CurrentState(c) == AwaitingIntention && CurrentState(d) == Ready
                                               && d.intention == input.choice
                                               && OrEmpty(input.choice) in ["intention_based", "comment_based"]))
  {
    assert Trim("") == "";
    hide Trim;
  }

  /** In every run each filled slot holds the answer of the very input that was given in the state asking
      for it, the brand trimmed, and that answer is one the state accepts. */
  lemma {:induction false} SlotsHoldTheAnswers(inputs: seq<AdvanceInput>)
    ensures var c := After(inputs);
            && (c.dateRange.Some? ==>
                  c.dateRange.value in ["weekly", "10days", "20days", "custom"]
                  && exists k :: GivenIn(inputs, k, AwaitingDate, AwaitingEnrichment) && Chosen(inputs, k, c.dateRange))
            && (c.enrichment.Some? ==>
                  c.enrichment.value in ["enrichment", "enrichment_plus_reach"]
                  && exists k :: GivenIn(inputs, k, AwaitingEnrichment, AwaitingBrand) && Chosen(inputs, k, c.enrichment))
            && (c.brand.Some? ==>
                  c.brand.value != ""
                  && exists k :: GivenIn(inputs, k, AwaitingBrand, AwaitingCompetitors) && Typed(inputs, k, c.brand))
            && (c.competitors.Some? ==>
                  c.competitors.value in ["top5", "top3", "top2", "other"]
                  && exists k :: GivenIn(inputs, k, AwaitingCompetitors, AwaitingIntention) && Chosen(inputs, k, c.competitors))
            && (c.intention.Some? ==>
                  c.intention.value in ["intention_based", "comment_based"]
                  && exists k :: GivenIn(inputs, k, AwaitingIntention, Ready) && Chosen(inputs, k, c.intention))
  {
    if inputs != [] {
      var n := |inputs| - 1;
      var c, d := After(inputs[..n]), After(inputs);
      assert inputs[..n + 1] == inputs;
      SlotsHoldTheAnswers(inputs[..n]);
      RunFits(inputs[..n]);
      ReplyStores(c, inputs[n]);
      hide Reply, Trim, SlotsFit;
      if d.dateRange == c.dateRange && d.dateRange.Some? {
        StillChosen(inputs[..n], inputs, AwaitingDate, AwaitingEnrichment, d.dateRange);
      } else {
        assert d.dateRange != c.dateRange ==> GivenIn(inputs, n, AwaitingDate, AwaitingEnrichment) && Chosen(inputs, n, d.dateRange);
      }
      if d.enrichment == c.enrichment && d.enrichment.Some? {
        StillChosen(inputs[..n], inputs, AwaitingEnrichment, AwaitingBrand, d.enrichment);
      } else {
        assert d.enrichment != c.enrichment ==> GivenIn(inputs, n, AwaitingEnrichment, AwaitingBrand) && Chosen(inputs, n, d.enrichment);
      }
      if d.brand == c.brand && d.brand.Some? {
        StillTyped(inputs[..n], inputs, d.brand);
      } else {
        assert d.brand != c.brand ==> GivenIn(inputs, n, AwaitingBrand, AwaitingCompetitors) && Typed(inputs, n, d.brand);
      }
      if d.competitors == c.competitors && d.competitors.Some? {
        StillChosen(inputs[..n], inputs, AwaitingCompetitors, AwaitingIntention, d.competitors);
      } else {
        assert d.competitors != c.competitors ==>
            GivenIn(inputs, n, AwaitingCompetitors, AwaitingIntention) && Chosen(inputs, n, d.competitors);
      }
      if d.intention == c.intention && d.intention.Some? {
        StillChosen(inputs[..n], inputs, AwaitingIntention, Ready, d.intention);
      } else {
        assert d.intention != c.intention ==> GivenIn(inputs, n, AwaitingIntention, Ready) && Chosen(inputs, n, d.intention);
      }
    }
  }

  lemma StillChosen(before: seq<AdvanceInput>, inputs: seq<AdvanceInput>, state: ConversationState, next: ConversationState, slot: Option<string>)
    requires inputs != [] && before == inputs[..|inputs| - 1]
    requires exists k :: GivenIn(before, k, state, next) && Chosen(before, k, slot)
    ensures exists k :: GivenIn(inputs, k, state, next) && Chosen(inputs, k, slot)
  {
    hide After;
    var k: nat :| GivenIn(before, k, state, next) && Chosen(before, k, slot);
    assert before[..k] == inputs[..k] && before[..k + 1] == inputs[..k + 1];
    assert GivenIn(inputs, k, state, next) && Chosen(inputs, k, slot);
  }

  lemma StillTyped(before: seq<AdvanceInput>, inputs: seq<AdvanceInput>, slot: Option<string>)
    requires inputs != [] && before == inputs[..|inputs| - 1]
    requires exists k :: GivenIn(before, k, AwaitingBrand, AwaitingCompetitors) && Typed(before, k, slot)
    ensures exists k :: GivenIn(inputs, k, AwaitingBrand, AwaitingCompetitors) && Typed(inputs, k, slot)
  {
    hide After, Trim;
    var k: nat :| GivenIn(before, k, AwaitingBrand, AwaitingCompetitors) && Typed(before, k, slot);
    assert before[..k] == inputs[..k] && before[..k + 1] == inputs[..k + 1];
    assert GivenIn(inputs, k, AwaitingBrand, AwaitingCompetitors) && Typed(inputs, k, slot);
  }

  // ---------------------------------------------------------------------------------------
  // Chips
  // ---------------------------------------------------------------------------------------

  predicate HasChips(s: ConversationState) {
    ChipsForState(s) != []
  }

  /** The chips offered are those of the state the reply leaves the chat in, and in a state with
      chips exactly those choices move the conversation on, whatever the text says. */
  lemma ChipsAreTheWayOn(s: ConversationState, choice: string, freeText: Option<string>)
    requires choice != ""
    ensures var r := Advance(s, AdvanceInput(Some(choice), freeText));
            && r.chips == ChipsForState(r.newState)
            && (HasChips(s) ==> (r.newState != s <==> choice in ChipsForState(s)))
  {
    hide Trim;
  }

  /** The transition table: which choices each state takes, and where they lead. */
  lemma ChoicesLeadTo(s: ConversationState, choice: string, freeText: Option<string>)
    requires choice != ""
    ensures Advance(s, AdvanceInput(Some(choice), freeText)).newState ==
            match s
            case Welcome => AwaitingDate
            case AwaitingDate => if choice in ["weekly", "10days", "20days", "custom"] then AwaitingEnrichment else s
            case AwaitingEnrichment => if choice in ["enrichment", "enrichment_plus_reach"] then AwaitingBrand else s
            case AwaitingBrand => if Trim(OrEmpty(freeText)) != "" then AwaitingCompetitors else s
            case AwaitingCompetitors => if choice in ["top5", "top3", "top2", "other"] then AwaitingIntention else s
            case AwaitingIntention => if choice in ["intention_based", "comment_based"] then Ready else s
            case AwaitingReachUpgradeConsent =>
              if choice in ["upgrade_similarweb", "continue_without_reach"] then Enriching else s
            case _ => s
  {
    hide Trim;
  }

  /** A click counts before the text, even an empty one, and an empty input changes nothing and offers nothing. */
  lemma EmptyInputDoesNothing(s: ConversationState, input: AdvanceInput)
    ensures (if input.choice.Some? then input.choice.value else OrEmpty(input.freeText)) == "" ==>
              Advance(s, input) == Advanced(s, NO_PATCH, [])
  {
  }

  /** Without a choice, text moves the conversation on only from the welcome state (any text) and
      from the brand state (text that is not blank). */
  lemma TextMovesOnlyWelcomeAndBrand(s: ConversationState, freeText: string)
    ensures Advance(s, AdvanceInput(None, Some(freeText))).newState != s <==>
              (s == Welcome && freeText != "") || (s == AwaitingBrand && Trim(freeText) != "")
  {
    assert Trim("") == "";
    hide Trim;
  }

}
