/** The stored flow state of a chat's parameters: recomputed after every patch, set to complete only
    by the extraction pipeline's hand-off. */
module FlowState {
  import opened Outcomes

  datatype FlowState =
    | Init | CollectDates | CollectEnrichment | CollectBrand | CollectCompetitors | CollectIntention
    | GenerateQuery | Processing | Complete

  datatype EnrichmentType = Standard | Reach

  datatype Intention = IntentionBased | CommentBased

  /** The chat_params columns the flow depends on. Dates are instants. */
  datatype Row = Row(
    brand: Option<string>,
    dateStart: Option<int>,
    dateEnd: Option<int>,
    enrichmentType: Option<EnrichmentType>,
    competitors: seq<string>,
    intention: Option<Intention>,
    hasUpload: bool,
    flowState: FlowState)

  const NEW_ROW := Row(None, None, None, None, [], None, false, Init)

  /** A field of a patch: undefined leaves the column alone. */
  datatype Field<+T> = Undefined | Set(value: T)

  datatype PatchInput = PatchInput(
    brand: Field<Option<string>>,
    dateStart: Field<Option<int>>,
    dateEnd: Field<Option<int>>,
    enrichmentType: Field<EnrichmentType>,
    competitors: Field<seq<string>>,
    intention: Field<Intention>,
    hasUpload: Field<bool>)

  const EMPTY_PATCH := PatchInput(Undefined, Undefined, Undefined, Undefined, Undefined, Undefined, Undefined)

  datatype Snapshot = Snapshot(row: Row, hasConfirmedQuery: bool, isProcessingComplete: bool)

  function ToSnapshot(row: Row, hasConfirmedQuery: bool): Snapshot {
    Snapshot(row, hasConfirmedQuery, row.flowState == Complete)
  }

  function GetNextFlowState(p: Snapshot): FlowState {
    if p.row.dateStart.None? && !p.row.hasUpload then CollectDates
    else if p.row.enrichmentType.None? then CollectEnrichment
    else if p.row.brand.None? || p.row.brand.value == "" then CollectBrand
    else if p.row.competitors == [] then CollectCompetitors
    else if p.row.intention.None? then CollectIntention
    else if !p.hasConfirmedQuery then GenerateQuery
    else if !p.isProcessingComplete then Processing
    else Complete
  }

  function Or<T>(f: Field<T>, column: T): T {
    if f.Set? then f.value else column
  }

  function OrSome<T>(f: Field<T>, column: Option<T>): Option<T> {
    if f.Set? then Some(f.value) else column
  }

  /** The columns after the update statement, before the flow state is looked at. */
  function Written(row: Row, patch: PatchInput): Row {
    row.(brand := Or(patch.brand, row.brand),
         dateStart := Or(patch.dateStart, row.dateStart),
         dateEnd := Or(patch.dateEnd, row.dateEnd),
         enrichmentType := OrSome(patch.enrichmentType, row.enrichmentType),
         competitors := Or(patch.competitors, row.competitors),
         intention := OrSome(patch.intention, row.intention),
         hasUpload := Or(patch.hasUpload, row.hasUpload))
  }

  function Settled(row: Row, confirmed: bool): Row {
    row.(flowState := GetNextFlowState(ToSnapshot(row, confirmed)))
  }

  function Patched(row: Row, confirmed: bool, patch: PatchInput): Row {
    Settled(Written(row, patch), confirmed)
  }

  lemma MovesAreNotToComplete(row: Row, confirmed: bool)
    ensures Settled(row, confirmed).flowState == Complete ==> row.flowState == Complete
  {
  }

  /** Each column a patch names is written, the others are left alone. */
  method WriteColumns(row: Row, patch: PatchInput) returns (data: Row)
    ensures data == Written(row, patch)
    ensures data.flowState == row.flowState
  {
    data := row;
    if patch.dateStart.Set? { data := data.(dateStart := patch.dateStart.value); }
    if patch.dateEnd.Set? { data := data.(dateEnd := patch.dateEnd.value); }
    if patch.enrichmentType.Set? { data := data.(enrichmentType := Some(patch.enrichmentType.value)); }
    if patch.brand.Set? { data := data.(brand := patch.brand.value); }
    if patch.competitors.Set? { data := data.(competitors := patch.competitors.value); }
    if patch.intention.Set? { data := data.(intention := Some(patch.intention.value)); }
    if patch.hasUpload.Set? { data := data.(hasUpload := patch.hasUpload.value); }
  }

  datatype StateChange = StateChange(fromState: FlowState, toState: FlowState)

  datatype PatchResult = Ok | ChatNotFound

  class ChatParams {
    /** Whether the chat itself exists. */
    const chatExists: bool
    var row: Option<Row>
    /** Whether some query of the chat is confirmed. */
    var hasConfirmedQuery: bool
    /** flow:state-change events, oldest first. */
    var published: seq<StateChange>

    constructor (chatExists: bool)
      ensures this.chatExists == chatExists && row == None && !hasConfirmedQuery && published == []
    {
      this.chatExists := chatExists;
      row, hasConfirmedQuery, published := None, false, [];
    }

    /** The row is created on the first patch. A state change is published exactly when the stored
        state moves, and it never announces `complete`. */
    method PatchParams(patch: PatchInput) returns (r: PatchResult)
      modifies `row, `published
      ensures r == ChatNotFound <==> old(row).None? && !chatExists
      ensures r == ChatNotFound ==> row == None && published == old(published)
      ensures r == Ok ==>
                var before := if old(row).None? then NEW_ROW else old(row.value);
                && row == Some(Patched(before, hasConfirmedQuery, patch))
                && published == old(published) + (if row.value.flowState == before.flowState then []
                                                  else [StateChange(before.flowState, row.value.flowState)])
                && (forall i :: |old(published)| <= i < |published| ==> published[i].toState != Complete)
    {
      if row.None? {
        if !chatExists {
          return ChatNotFound;
        }
        row := Some(NEW_ROW);
      }
      hide Written, GetNextFlowState;
      var data := WriteColumns(row.value, patch);
      row := Some(data);
      var nextState := GetNextFlowState(ToSnapshot(data, hasConfirmedQuery));
      MovesAreNotToComplete(data, hasConfirmedQuery);
      if nextState != data.flowState {
        row := Some(data.(flowState := nextState));
        published := published + [StateChange(data.flowState, nextState)];
      }
      r := Ok;
    }

    /** The extraction pipeline's last step writes the state directly. The next confirmation, or patch of
        nothing, keeps it exactly if every slot is filled and a query confirmed. */
    method HandOff()
      requires row.Some?
      modifies `row
      ensures row == Some(old(row.value).(flowState := Complete))
      ensures Patched(row.value, hasConfirmedQuery, EMPTY_PATCH).flowState == Complete
              <==> AllFilled(Chat(old(row.value), hasConfirmedQuery))
    {
      row := Some(row.value.(flowState := Complete));
      HandOffHolds(old(row.value), hasConfirmedQuery);
    }

    /** Confirming a query re-runs an empty patch. */
    method Confirm() returns (r: PatchResult)
      requires row.Some?
      modifies this
      ensures r == Ok && hasConfirmedQuery
      ensures row == Some(Patched(old(row.value), true, EMPTY_PATCH))
      ensures published == old(published) + (if row.value.flowState == old(row.value.flowState) then []
                                             else [StateChange(old(row.value.flowState), row.value.flowState)])
    {
      hasConfirmedQuery := true;
      r := PatchParams(EMPTY_PATCH);
    }
  }

  // ---------------------------------------------------------------------------------------
  // The stored state is a fixed point
  // ---------------------------------------------------------------------------------------

  predicate IsSettled(row: Row, confirmed: bool) {
    Patched(row, confirmed, EMPTY_PATCH) == row
  }

  /** After any patch an immediate empty patch changes nothing. */
  lemma PatchSettles(row: Row, confirmed: bool, patch: PatchInput)
    ensures IsSettled(Patched(row, confirmed, patch), confirmed)
  {
    var w := Written(row, patch);
    assert Written(Settled(w, confirmed), EMPTY_PATCH) == Settled(w, confirmed);
  }

  // ---------------------------------------------------------------------------------------
  // Rank
  // ---------------------------------------------------------------------------------------

  function Rank(s: FlowState): nat {
    match s
    case Init => 0
    case CollectDates => 1
    case CollectEnrichment => 2
    case CollectBrand => 3
    case CollectCompetitors => 4
    case CollectIntention => 5
    case GenerateQuery => 6
    case Processing => 7
    case Complete => 8
  }

  /** What the state of rank k waits for. */
  predicate Filled(row: Row, confirmed: bool, k: nat) {
    match k
    case 1 => row.dateStart.Some? || row.hasUpload
    case 2 => row.enrichmentType.Some?
    case 3 => row.brand.Some? && row.brand.value != ""
    case 4 => row.competitors != []
    case 5 => row.intention.Some?
    case 6 => confirmed
    case 7 => row.flowState == Complete
    case _ => true
  }

  /** Nothing is missing that a state below rank r waits for. */
  predicate FilledBelow(row: Row, confirmed: bool, r: nat) {
    forall k :: 1 <= k < r ==> Filled(row, confirmed, k)
  }

  lemma BelowOneMore(row: Row, confirmed: bool, r: nat)
    requires r >= 1
    ensures FilledBelow(row, confirmed, r + 1) <==> FilledBelow(row, confirmed, r) && Filled(row, confirmed, r)
  {
  }

  /** A settled state is the first thing still missing. */
  lemma SettledIsFirstMissing(row: Row, confirmed: bool)
    ensures IsSettled(row, confirmed) <==>
              && 1 <= Rank(row.flowState) <= 8 && FilledBelow(row, confirmed, Rank(row.flowState))
              && (Rank(row.flowState) < 8 ==> !Filled(row, confirmed, Rank(row.flowState)))
  {
    assert Written(row, EMPTY_PATCH) == row;
    BelowOneMore(row, confirmed, 1);
    BelowOneMore(row, confirmed, 2);
    BelowOneMore(row, confirmed, 3);
    BelowOneMore(row, confirmed, 4);
    BelowOneMore(row, confirmed, 5);
    BelowOneMore(row, confirmed, 6);
    BelowOneMore(row, confirmed, 7);
    assert FilledBelow(row, confirmed, 1);
    hide FilledBelow;
  }

  /** From a settled state a patch lowers the rank exactly when it empties a slot the state is past. */
  lemma RankDropsIffSlotEmptied(row: Row, confirmed: bool, patch: PatchInput)
    requires IsSettled(row, confirmed)
    ensures Rank(Patched(row, confirmed, patch).flowState) < Rank(row.flowState) <==>
              exists k :: 1 <= k <= 5 && k < Rank(row.flowState) && !Filled(Written(row, patch), confirmed, k)
  {
    var after := Patched(row, confirmed, patch);
    SettledIsFirstMissing(row, confirmed);
    PatchSettles(row, confirmed, patch);
    SettledIsFirstMissing(after, confirmed);
    SameSlots(row, confirmed, patch);
    hide Patched, IsSettled, Filled, Written;
    var r, s := Rank(row.flowState), Rank(after.flowState);
    if s < r {
      assert !Filled(after, confirmed, s) && Filled(row, confirmed, s);
    }
  }

  /** Settling leaves the slots alone, and a patch keeps the confirmation and a stored `complete`. */
  lemma SameSlots(row: Row, confirmed: bool, patch: PatchInput)
    requires IsSettled(row, confirmed)
    ensures var after := Patched(row, confirmed, patch);
            && (forall k: nat :: 1 <= k <= 5 ==> (Filled(after, confirmed, k) <==> Filled(Written(row, patch), confirmed, k)))
            && (Filled(after, confirmed, 6) <==> Filled(row, confirmed, 6))
            && (Rank(after.flowState) == 7 ==> Rank(row.flowState) <= 7)
  {
  }

  // ---------------------------------------------------------------------------------------
  // Reaching complete
  // ---------------------------------------------------------------------------------------

  datatype Step = Patch(patch: PatchInput) | ConfirmQuery | HandOffStep

  datatype Chat = Chat(row: Row, confirmed: bool)

  const NEW_CHAT := Chat(NEW_ROW, false)

  function Next(c: Chat, step: Step): Chat {
    match step
    case Patch(patch) => Chat(Patched(c.row, c.confirmed, patch), c.confirmed)
    case ConfirmQuery => Chat(Patched(c.row, true, EMPTY_PATCH), true)
    case HandOffStep => c.(row := c.row.(flowState := Complete))
  }

  function After(steps: seq<Step>): Chat {
    if steps == [] then NEW_CHAT else Next(After(steps[..|steps| - 1]), steps[|steps| - 1])
  }

  predicate AllFilled(c: Chat) {
    FilledBelow(c.row, c.confirmed, 7)
  }

  /** A patch or a confirmation only keeps `complete`; it never produces it. */
  lemma CompleteOnlyKept(c: Chat, step: Step)
    requires step != HandOffStep
    ensures Next(c, step).row.flowState == Complete <==> c.row.flowState == Complete && AllFilled(Next(c, step))
  {
    var d := Next(c, step);
    BelowOneMore(d.row, d.confirmed, 1);
    BelowOneMore(d.row, d.confirmed, 2);
    BelowOneMore(d.row, d.confirmed, 3);
    BelowOneMore(d.row, d.confirmed, 4);
    BelowOneMore(d.row, d.confirmed, 5);
    BelowOneMore(d.row, d.confirmed, 6);
    assert FilledBelow(d.row, d.confirmed, 1);
    hide FilledBelow;
  }

  lemma HandOffHolds(row: Row, confirmed: bool)
    ensures Patched(row.(flowState := Complete), confirmed, EMPTY_PATCH).flowState == Complete
            <==> AllFilled(Chat(row, confirmed))
  {
    var c := Chat(row.(flowState := Complete), confirmed);
    CompleteOnlyKept(c, Patch(EMPTY_PATCH));
    var d := Next(c, Patch(EMPTY_PATCH));
    forall k | 1 <= k < 7 ensures Filled(d.row, confirmed, k) <==> Filled(row, confirmed, k) {
    }
  }

  /** Step i is a hand-off, or leaves every slot filled and a query confirmed. */
  predicate KeepsComplete(steps: seq<Step>, i: nat)
    requires i < |steps|
  {
    steps[i] == HandOffStep || AllFilled(After(steps[..i + 1]))
  }

  predicate HandedOffAt(steps: seq<Step>, h: nat) {
    h < |steps| && steps[h] == HandOffStep && forall i :: h < i < |steps| ==> KeepsComplete(steps, i)
  }

  lemma HandedOffStep(steps: seq<Step>, h: nat)
    requires steps != []
    ensures var n := |steps| - 1;
            HandedOffAt(steps, h) <==>
              (h == n && steps[n] == HandOffStep) || (HandedOffAt(steps[..n], h) && KeepsComplete(steps, n))
  {
    var n := |steps| - 1;
    forall i: nat | i < n ensures KeepsComplete(steps[..n], i) <==> KeepsComplete(steps, i) {
      assert steps[..n][..i + 1] == steps[..i + 1];
    }
    hide KeepsComplete;
  }

  /** A chat's flow is complete exactly when a hand-off happened and every patch and confirmation
      since then left all slots filled and the query confirmed. */
  lemma {:induction false} CompleteIffHandedOff(steps: seq<Step>)
    ensures After(steps).row.flowState == Complete <==> exists h :: HandedOffAt(steps, h)
  {
    if steps != [] {
      var n := |steps| - 1;
      CompleteIffHandedOff(steps[..n]);
      forall h: nat ensures HandedOffAt(steps, h) <==>
        (h == n && steps[n] == HandOffStep) || (HandedOffAt(steps[..n], h) && KeepsComplete(steps, n))
      {
        HandedOffStep(steps, h);
      }
      assert steps[..n + 1] == steps;
      if steps[n] == HandOffStep {
        assert HandedOffAt(steps, n);
      } else {
        CompleteOnlyKept(After(steps[..n]), steps[n]);
        hide AllFilled, Next, HandedOffAt;
      }
    }
  }

  /** No sequence of patches and confirmations reaches `complete`. */
  lemma NeverCompleteWithoutHandOff(steps: seq<Step>)
    requires HandOffStep !in steps
    ensures After(steps).row.flowState != Complete
  {
    CompleteIffHandedOff(steps);
  }

  // ---------------------------------------------------------------------------------------
  // What the columns hold
  // ---------------------------------------------------------------------------------------

  /** What the last patch that names a column gave it. */
  function LastOf<T>(steps: seq<Step>, field: PatchInput -> Field<T>): Field<T> {
    if steps == [] then Undefined
    else
      var n := |steps| - 1;
      if steps[n].Patch? && field(steps[n].patch).Set? then field(steps[n].patch) else LastOf(steps[..n], field)
  }

  predicate Holds<T(==)>(column: T, initial: T, last: Field<T>) {
    column == if last.Set? then last.value else initial
  }

  predicate HoldsSome<T(==)>(column: Option<T>, last: Field<T>) {
    column == if last.Set? then Some(last.value) else None
  }

  /** Over every sequence of patches, confirmations and hand-offs each column holds what the last patch
      naming it gave, and what a new row has if none did. */
  lemma {:induction false} ColumnsHoldLastWrites(steps: seq<Step>)
    ensures var row := After(steps).row;
            && Holds(row.brand, None, LastOf(steps, (p: PatchInput) => p.brand))
            && Holds(row.dateStart, None, LastOf(steps, (p: PatchInput) => p.dateStart))
            && Holds(row.dateEnd, None, LastOf(steps, (p: PatchInput) => p.dateEnd))
            && HoldsSome(row.enrichmentType, LastOf(steps, (p: PatchInput) => p.enrichmentType))
            && Holds(row.competitors, [], LastOf(steps, (p: PatchInput) => p.competitors))
            && HoldsSome(row.intention, LastOf(steps, (p: PatchInput) => p.intention))
            && Holds(row.hasUpload, false, LastOf(steps, (p: PatchInput) => p.hasUpload))
  {
    if steps != [] {
      hide GetNextFlowState;
      ColumnsHoldLastWrites(steps[..|steps| - 1]);
    }
  }
}
