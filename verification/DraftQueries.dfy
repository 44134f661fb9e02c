/** The boolean_queries rows of one chat: generate, edit, confirm. The unconfirmed rows form a stack. */
module DraftQueries {
  import opened Outcomes
  import opened Text
  import opened BooleanQuery
  import QueryTokens
  import QueryRoundTrip
  import QueryReadback
  import QueryContents

  /** The chat_params columns a query is generated from. */
  datatype Params = Params(
    brand: Option<string>, competitors: seq<string>, dateStart: Option<string>, dateEnd: Option<string>)

  datatype QueryRow = QueryRow(queryText: string, queryStructured: Structured, version: nat, isConfirmed: bool)

  function InputOf(p: Params, brand: string): Input {
    Input(brand, p.competitors, p.dateStart, p.dateEnd, None, None, None)
  }

  const NO_PARAMS := "Chat params not found"
  const NO_BRAND := "brand required before generating query"
  const EMPTY_TEXT := "queryText cannot be empty"
  const NO_DRAFT_TO_EDIT := "No draft query to edit"
  const NO_DRAFT_TO_CONFIRM := "No draft query to confirm"

  /** Why nothing can be generated, or the query that will be. */
  function Generated(params: Option<Params>): Result<Output> {
    if params.None? then Failure(NO_PARAMS)
    else if params.value.brand.None? || params.value.brand.value == "" then Failure(NO_BRAND)
    else if Trim(params.value.brand.value) == "" then Failure(BLANK_BRAND)
    else
      var input := InputOf(params.value, params.value.brand.value);
      Success(Output(QueryText(input), StructuredOf(input)))
  }

  /** The chat's dates have no quote in them, and neither brand nor competitor ends in a backslash. */
  predicate Readable(p: Params, brand: string) {
    && (p.dateStart.Some? ==> QueryRoundTrip.QuoteFree(p.dateStart.value))
    && (p.dateEnd.Some? ==> QueryRoundTrip.QuoteFree(p.dateEnd.value))
    && !QueryRoundTrip.EndsInBackslash(Trim(brand))
    && forall k :: 0 <= k < |p.competitors| ==> !QueryRoundTrip.EndsInBackslash(Trim(p.competitors[k]))
  }

  lemma ReadableMeans(p: Params, brand: string)
    requires Readable(p, brand)
    ensures QueryReadback.Printable(InputOf(p, brand)) && QueryReadback.NoTrailingBackslash(InputOf(p, brand))
    ensures Language(InputOf(p, brand)) == "en"
    ensures |BrandFields(InputOf(p, brand))| == 3 && |CompetitorFields(InputOf(p, brand))| == 2
  {
    hide Trim;
    assert ToLower("en") == "en";
  }

  /** The brand three times, each listed competitor twice, in order, then English. */
  predicate Lists(p: Params, brand: string, kept: seq<nat>, values: seq<string>)
    requires QueryContents.NonBlank(p.competitors, kept)
  {
    && |values| == 3 + 2 * |kept| + 1
    && values[0] == values[1] == values[2] == Trim(brand)
    && (forall j :: 0 <= j < |kept| ==> values[3 + 2 * j] == values[4 + 2 * j] == Trim(p.competitors[kept[j]]))
    && values[3 + 2 * |kept|] == "en"
  }

  lemma FoundIsListed(p: Params, brand: string, kept: seq<nat>, values: seq<string>)
    requires Readable(p, brand) && QueryContents.NonBlank(p.competitors, kept)
    requires QueryContents.Finds(InputOf(p, brand), kept, values)
    ensures Lists(p, brand, kept, values)
  {
    ReadableMeans(p, brand);
    hide Trim, QueryContents.At, QueryContents.NonBlank, Language, BrandFields, CompetitorFields, Readable;
    QueryContents.AtIs(3, 2, |kept|, 0);
    forall j: nat | j < |kept| ensures values[3 + 2 * j] == values[4 + 2 * j] == Trim(p.competitors[kept[j]]) {
      QueryContents.AtIs(3, 2, j, 0);
      QueryContents.AtIs(3, 2, j, 1);
    }
  }

  /** What is generated holds the chat's own parameters: a reader finds its brand three times, each of its
      competitors that are not blank twice, in order, and English; the dates are the chat's. */
  lemma GeneratedHoldsTheParams(p: Params, brand: string) returns (kept: seq<nat>)
    requires p.brand == Some(brand) && Trim(brand) != "" && Readable(p, brand)
    ensures Generated(Some(p)).Success?
    ensures QueryContents.NonBlank(p.competitors, kept)
    ensures Lists(p, brand, kept, QueryTokens.ReadValues(QueryTokens.SpansFrom(Generated(Some(p)).value.text, 0)))
    ensures Generated(Some(p)).value.structured.dateRange
            == if p.dateStart.Some? && p.dateEnd.Some? then Some((p.dateStart.value, p.dateEnd.value)) else None
  {
    assert brand != "" by {
      assert Trim("") == "";
    }
    ReadableMeans(p, brand);
    hide Trim, QueryText, Lists, QueryContents.Finds, QueryContents.NonBlank, Readable, QueryReadback.Printable,
         QueryReadback.NoTrailingBackslash;
    kept := QueryContents.ReadsEverything(InputOf(p, brand));
    FoundIsListed(p, brand, kept, QueryTokens.ReadValues(QueryTokens.SpansFrom(QueryText(InputOf(p, brand)), 0)));
  }

  // ---------------------------------------------------------------------------------------
  // The stack of drafts
  // ---------------------------------------------------------------------------------------

  /** Positions of the unconfirmed rows, in insertion order. */
  function Drafts(rows: seq<QueryRow>): (d: seq<nat>)
    ensures |d| <= |rows|
  {
    if rows == [] then []
    else
      var n := |rows| - 1;
      Drafts(rows[..n]) + if rows[n].isConfirmed then [] else [n]
  }

  /** Each position is an unconfirmed row, each unconfirmed row has its position, in order. */
  lemma {:induction false} DraftsAre(rows: seq<QueryRow>)
    ensures var d := Drafts(rows);
            && (forall j :: 0 <= j < |d| ==> d[j] < |rows| && !rows[d[j]].isConfirmed)
            && (forall j, k :: 0 <= j < k < |d| ==> d[j] < d[k])
            && (forall i :: 0 <= i < |rows| && !rows[i].isConfirmed ==> i in d)
  {
    if rows != [] {
      var n := |rows| - 1;
      DraftsAre(rows[..n]);
      forall i | 0 <= i < |rows| && !rows[i].isConfirmed ensures i in Drafts(rows) {
        if i < n {
          assert !rows[..n][i].isConfirmed;
        } else {
          assert Drafts(rows)[|Drafts(rows)| - 1] == n;
        }
      }
    }
  }

  /** The unconfirmed versions are exactly 1..k, in the order the rows were added. */
  ghost predicate StackShaped(rows: seq<QueryRow>) {
    forall j :: 0 <= j < |Drafts(rows)| ==> Drafts(rows)[j] < |rows| && rows[Drafts(rows)[j]].version == j + 1
  }

  function TextsOf(rows: seq<QueryRow>): (r: seq<string>)
    ensures |r| == |Drafts(rows)|
  {
    if rows == [] then []
    else
      var n := |rows| - 1;
      TextsOf(rows[..n]) + if rows[n].isConfirmed then [] else [rows[n].queryText]
  }

  lemma {:induction false} TextsAre(rows: seq<QueryRow>)
    ensures forall j :: 0 <= j < |Drafts(rows)| ==>
              Drafts(rows)[j] < |rows| && TextsOf(rows)[j] == rows[Drafts(rows)[j]].queryText
  {
    if rows != [] {
      TextsAre(rows[..|rows| - 1]);
    }
  }

  /** What the latest-draft query may return: an unconfirmed row with the highest version. */
  predicate IsLatestDraft(rows: seq<QueryRow>, i: nat) {
    && i < |rows| && !rows[i].isConfirmed
    && forall j :: 0 <= j < |rows| && !rows[j].isConfirmed ==> rows[j].version <= rows[i].version
  }

  /** On a stack it is the top, and no other row. */
  lemma LatestIsTop(rows: seq<QueryRow>, i: nat)
    requires StackShaped(rows) && IsLatestDraft(rows, i)
    ensures var d := Drafts(rows);
            && d != [] && i == d[|d| - 1] && rows[i].version == |d|
            && rows[i].queryText == TextsOf(rows)[|d| - 1]
  {
    hide Drafts;
    var d := Drafts(rows);
    DraftsAre(rows);
    TextsAre(rows);
    var j :| 0 <= j < |d| && d[j] == i;
    assert rows[d[|d| - 1]].version == |d|;
  }

  function Push(rows: seq<QueryRow>, text: string, structured: Structured): seq<QueryRow> {
    rows + [QueryRow(text, structured, |Drafts(rows)| + 1, false)]
  }

  lemma PushPushes(rows: seq<QueryRow>, text: string, structured: Structured)
    requires StackShaped(rows)
    ensures StackShaped(Push(rows, text, structured))
    ensures TextsOf(Push(rows, text, structured)) == TextsOf(rows) + [text]
    ensures |Drafts(Push(rows, text, structured))| == |Drafts(rows)| + 1
  {
    var more := Push(rows, text, structured);
    assert more[..|rows|] == rows;
  }

  /** Rows added after the last draft are all confirmed, so confirming it removes the last position. */
  lemma {:induction false} PopPops(rows: seq<QueryRow>)
    requires Drafts(rows) != []
    ensures var d := Drafts(rows);
            && d[|d| - 1] < |rows|
            && Drafts(Confirmed(rows, d[|d| - 1])) == d[..|d| - 1]
            && TextsOf(Confirmed(rows, d[|d| - 1])) == TextsOf(rows)[..|d| - 1]
  {
    var n, d := |rows| - 1, Drafts(rows);
    if rows[n].isConfirmed {
      PopPops(rows[..n]);
      assert d == Drafts(rows[..n]);
      assert Confirmed(rows, d[|d| - 1])[..n] == Confirmed(rows[..n], d[|d| - 1]);
      assert Confirmed(rows, d[|d| - 1])[n] == rows[n];
      assert TextsOf(rows) == TextsOf(rows[..n]);
    } else {
      assert d[|d| - 1] == n;
      assert Confirmed(rows, n)[..n] == rows[..n];
    }
  }

  function Confirmed(rows: seq<QueryRow>, i: nat): seq<QueryRow>
    requires i < |rows|
  {
    rows[i := rows[i].(isConfirmed := true)]
  }

  lemma PopKeepsShape(rows: seq<QueryRow>)
    requires StackShaped(rows) && Drafts(rows) != []
    ensures var i := Drafts(rows)[|Drafts(rows)| - 1]; StackShaped(Confirmed(rows, i))
  {
    hide Drafts;
    PopPops(rows);
    DraftsAre(rows);
  }

  // ---------------------------------------------------------------------------------------
  // The operations
  // ---------------------------------------------------------------------------------------

  /** The rows of a chat and the extraction jobs enqueued for them, by row position. */
  datatype Store = Store(rows: seq<QueryRow>, jobs: seq<nat>)

  /** What generating gave (a failure, or the query printed from the parameters), the trimmed text of an
      edit, or a confirmation. */
  datatype Step = Generate(generated: Result<Output>) | Edit(trimmed: string) | Confirm

  datatype Outcome = Outcome(store: Store, answer: Result<nat>)

  function Apply(s: Store, step: Step): Outcome
    requires forall j :: 0 <= j < |Drafts(s.rows)| ==> Drafts(s.rows)[j] < |s.rows|
  {
    var d := Drafts(s.rows);
    match step
    case Generate(generated) =>
      if generated.Failure? then Outcome(s, Failure(generated.error))
      else if d != [] && TextsOf(s.rows)[|d| - 1] == generated.value.text then Outcome(s, Success(d[|d| - 1]))
      else Outcome(s.(rows := Push(s.rows, generated.value.text, generated.value.structured)), Success(|s.rows|))
    case Edit(trimmed) =>
      if trimmed == "" then Outcome(s, Failure(EMPTY_TEXT))
      else if d == [] then Outcome(s, Failure(NO_DRAFT_TO_EDIT))
      else Outcome(s.(rows := Push(s.rows, trimmed, s.rows[d[|d| - 1]].queryStructured)), Success(|s.rows|))
    case Confirm =>
      if d == [] then Outcome(s, Failure(NO_DRAFT_TO_CONFIRM))
      else var top := d[|d| - 1]; Outcome(Store(Confirmed(s.rows, top), s.jobs + [top]), Success(top))
  }

  class QueryService {
    var rows: seq<QueryRow>
    var jobs: seq<nat>

    ghost function Snapshot(): Store
      reads this
    {
      Store(rows, jobs)
    }

    constructor ()
      ensures Snapshot() == Store([], []) && StackShaped(rows)
    {
      rows, jobs := [], [];
    }

    /** findFirst over the unconfirmed rows, highest version first. */
    method FindLatestDraft() returns (found: Option<nat>)
      ensures found.Some? ==> IsLatestDraft(rows, found.value)
      ensures found.None? ==> forall i :: 0 <= i < |rows| ==> rows[i].isConfirmed
    {
      found := None;
      for i := 0 to |rows|
        invariant found.Some? ==>
                    && found.value < i && !rows[found.value].isConfirmed
                    && forall j :: 0 <= j < i && !rows[j].isConfirmed ==> rows[j].version <= rows[found.value].version
        invariant found.None? ==> forall j :: 0 <= j < i ==> rows[j].isConfirmed
      {
        if !rows[i].isConfirmed && (found.None? || rows[i].version > rows[found.value].version) {
          found := Some(i);
        }
      }
    }

    /** The latest draft of a stack is its top. */
    method TopDraft() returns (top: Option<nat>)
      requires StackShaped(rows)
      ensures top == if Drafts(rows) == [] then None else Some(Drafts(rows)[|Drafts(rows)| - 1])
      ensures top.Some? ==> top.value < |rows| && rows[top.value].version == |Drafts(rows)|
                            && rows[top.value].queryText == TextsOf(rows)[|Drafts(rows)| - 1]
    {
      top := FindLatestDraft();
      DraftsAre(rows);
      if top.Some? {
        LatestIsTop(rows, top.value);
      }
    }

    /** Putting a row on the stack: its version follows the highest draft's. */
    method AddDraft(text: string, structured: Structured, version: nat)
      requires StackShaped(rows) && version == |Drafts(rows)| + 1
      modifies `rows
      ensures rows == Push(old(rows), text, structured) && StackShaped(rows)
    {
      PushPushes(rows, text, structured);
      rows := rows + [QueryRow(text, structured, version, false)];
    }

    method GenerateQueryForChat(params: Option<Params>) returns (r: Result<nat>)
      requires StackShaped(rows)
      modifies `rows
      ensures Outcome(Snapshot(), r) == Apply(old(Snapshot()), Generate(Generated(params)))
      ensures StackShaped(rows)
    {
      hide QueryText, StructuredOf, Trim, Drafts, StackShaped, Push, TextsOf, IsLatestDraft;
      if params.None? {
        return Failure(NO_PARAMS);
      }
      if params.value.brand.None? || params.value.brand.value == "" {
        return Failure(NO_BRAND);
      }
      var generated := GenerateBooleanQuery(InputOf(params.value, params.value.brand.value));
      if generated.Failure? {
        return Failure(BLANK_BRAND);
      }
      var previous := TopDraft();
      if previous.Some? && rows[previous.value].queryText == generated.value.text {
        return Success(previous.value);
      }
      var nextVersion := if previous.Some? then rows[previous.value].version + 1 else 1;
      r := Success(|rows|);
      AddDraft(generated.value.text, generated.value.structured, nextVersion);
    }

    method PatchQueryText(newText: string) returns (r: Result<nat>)
      requires StackShaped(rows)
      modifies `rows
      ensures Outcome(Snapshot(), r) == Apply(old(Snapshot()), Edit(Trim(newText)))
      ensures StackShaped(rows)
    {
      hide Trim, Drafts;
      var trimmed := Trim(newText);
      if trimmed == "" {
        return Failure(EMPTY_TEXT);
      }
      var previous := TopDraft();
      if previous.None? {
        return Failure(NO_DRAFT_TO_EDIT);
      }
      var draft := rows[previous.value];
      r := Success(|rows|);
      AddDraft(trimmed, draft.queryStructured, draft.version + 1);
    }

    method ConfirmQuery() returns (r: Result<nat>)
      requires StackShaped(rows)
      modifies this
      ensures Outcome(Snapshot(), r) == Apply(old(Snapshot()), Confirm)
      ensures StackShaped(rows)
    {
      hide Drafts;
      var draft := TopDraft();
      if draft.None? {
        return Failure(NO_DRAFT_TO_CONFIRM);
      }
      PopKeepsShape(rows);
      rows := rows[draft.value := rows[draft.value].(isConfirmed := true)];
      jobs := jobs + [draft.value];
      r := Success(draft.value);
    }
  }

  // ---------------------------------------------------------------------------------------
  // Runs
  // ---------------------------------------------------------------------------------------

  lemma StepKeepsShape(s: Store, step: Step)
    requires StackShaped(s.rows)
    ensures StackShaped(Apply(s, step).store.rows)
    ensures TextsOf(Apply(s, step).store.rows) == StackStep(TextsOf(s.rows), step)
  {
    hide Drafts, TextsOf;
    var d := Drafts(s.rows);
    match step {
      case Generate(generated) =>
        if generated.Success? {
          PushPushes(s.rows, generated.value.text, generated.value.structured);
        }
      case Edit(trimmed) =>
        if d != [] {
          PushPushes(s.rows, trimmed, s.rows[d[|d| - 1]].queryStructured);
        }
      case Confirm =>
        if d != [] {
          PopKeepsShape(s.rows);
          PopPops(s.rows);
        }
    }
  }

  /** What each operation answers and leaves behind, told from the latest draft alone, if there is one. */
  lemma StepFollowsLatestDraft(s: Store, step: Step, latest: Option<nat>)
    requires StackShaped(s.rows)
    requires match latest
             case Some(i) => IsLatestDraft(s.rows, i)
             case None => forall i :: 0 <= i < |s.rows| ==> s.rows[i].isConfirmed
    ensures var Outcome(after, answer) := Apply(s, step);
            match (step, latest)
            case (Generate(Failure(error)), _) => after == s && answer == Failure(error)
            case (Generate(Success(Output(text, structured))), None) =>
              after == Store(s.rows + [QueryRow(text, structured, 1, false)], s.jobs) && answer == Success(|s.rows|)
            case (Generate(Success(Output(text, structured))), Some(i)) =>
              if s.rows[i].queryText == text then after == s && answer == Success(i)
              else after == Store(s.rows + [QueryRow(text, structured, s.rows[i].version + 1, false)], s.jobs)
                   && answer == Success(|s.rows|)
            case (Edit(text), Some(i)) =>
              if text == "" then after == s && answer == Failure("queryText cannot be empty")
              else after == Store(s.rows + [QueryRow(text, s.rows[i].queryStructured, s.rows[i].version + 1, false)],
                                  s.jobs)
                   && answer == Success(|s.rows|)
            case (Edit(text), None) =>
              after == s
              && answer == Failure(if text == "" then "queryText cannot be empty" else "No draft query to edit")
            case (Confirm, Some(i)) =>
              && after.jobs == s.jobs + [i] && answer == Success(i)
              && |after.rows| == |s.rows|
              && (forall k :: 0 <= k < |s.rows| ==>
                    after.rows[k] == QueryRow(s.rows[k].queryText, s.rows[k].queryStructured, s.rows[k].version,
                                              s.rows[k].isConfirmed || k == i))
            case (Confirm, None) => after == s && answer == Failure("No draft query to confirm")
  {
    DraftsAre(s.rows);
    match latest {
      case Some(i) => LatestIsTop(s.rows, i);
      case None =>
    }
    hide Drafts, TextsOf, IsLatestDraft, StackShaped;
  }

  /** Nothing can be generated exactly when there are no parameters or no brand that is not blank. */
  lemma GeneratesIffBranded(params: Option<Params>)
    ensures Generated(params).Success? <==>
            params.Some? && params.value.brand.Some? && Trim(params.value.brand.value) != ""
    ensures Generated(params).Failure? ==>
              Generated(params).error ==
                if params.None? then "Chat params not found"
                else if params.value.brand.None? || params.value.brand.value == ""
                then "brand required before generating query"
                else BLANK_BRAND
  {
    assert Trim("") == "";
  }

  /** The same operations on nothing but a stack of texts. */
  function StackStep(stack: seq<string>, step: Step): seq<string> {
    match step
    case Generate(generated) =>
      if generated.Failure? || (stack != [] && stack[|stack| - 1] == generated.value.text) then stack
      else stack + [generated.value.text]
    case Edit(trimmed) => if trimmed == "" || stack == [] then stack else stack + [trimmed]
    case Confirm => if stack == [] then stack else stack[..|stack| - 1]
  }

  function StackAfter(steps: seq<Step>): seq<string> {
    if steps == [] then [] else StackStep(StackAfter(steps[..|steps| - 1]), steps[|steps| - 1])
  }

  ghost function After(steps: seq<Step>): (s: Store)
    ensures StackShaped(s.rows)
  {
    if steps == [] then Store([], [])
    else
      var before := After(steps[..|steps| - 1]);
      StepKeepsShape(before, steps[|steps| - 1]);
      Apply(before, steps[|steps| - 1]).store
  }

  /** In every run the unconfirmed versions are exactly 1..k and their texts are what pushing and
      popping texts gives: generate and edit push version k + 1, confirm pops version k. */
  lemma {:induction false} DraftsAreAStack(steps: seq<Step>)
    ensures StackShaped(After(steps).rows) && TextsOf(After(steps).rows) == StackAfter(steps)
  {
    if steps != [] {
      DraftsAreAStack(steps[..|steps| - 1]);
      StepKeepsShape(After(steps[..|steps| - 1]), steps[|steps| - 1]);
    }
  }

  /** Row i is still there with the text and version it was created with; confirmed stays confirmed. */
  predicate HistoryKept(before: seq<QueryRow>, after: seq<QueryRow>) {
    && |before| <= |after|
    && forall i :: 0 <= i < |before| ==>
         && after[i].queryText == before[i].queryText && after[i].version == before[i].version
         && after[i].queryStructured == before[i].queryStructured
         && (before[i].isConfirmed ==> after[i].isConfirmed)
  }

  lemma StepKeepsHistory(s: Store, step: Step)
    requires StackShaped(s.rows)
    ensures HistoryKept(s.rows, Apply(s, step).store.rows)
  {
    hide Drafts;
  }

  lemma HistoryTransitive(a: seq<QueryRow>, b: seq<QueryRow>, c: seq<QueryRow>)
    requires HistoryKept(a, b) && HistoryKept(b, c)
    ensures HistoryKept(a, c)
  {
  }

  lemma {:induction false} EarlierRowsNeverChange(steps: seq<Step>, more: seq<Step>)
    ensures HistoryKept(After(steps).rows, After(steps + more).rows)
    decreases |more|
  {
    hide HistoryKept, Drafts, StackShaped;
    if more == [] {
      assert steps + more == steps;
      SameHistory(After(steps).rows);
    } else {
      var n := |more| - 1;
      var before := After(steps + more[..n]);
      EarlierRowsNeverChange(steps, more[..n]);
      StepKeepsHistory(before, more[n]);
      assert (steps + more)[..|steps + more| - 1] == steps + more[..n];
      HistoryTransitive(After(steps).rows, before.rows, After(steps + more).rows);
    }
  }

  lemma SameHistory(rows: seq<QueryRow>)
    ensures HistoryKept(rows, rows)
  {
  }

  /** A job was enqueued for each confirmed row, and for each only once. */
  predicate JobsMatch(s: Store) {
    && (forall a, b :: 0 <= a < b < |s.jobs| ==> s.jobs[a] != s.jobs[b])
    && (forall a :: 0 <= a < |s.jobs| ==> s.jobs[a] < |s.rows| && s.rows[s.jobs[a]].isConfirmed)
    && (forall i :: 0 <= i < |s.rows| && s.rows[i].isConfirmed ==> i in s.jobs)
  }

  lemma StepKeepsJobs(s: Store, step: Step)
    requires StackShaped(s.rows) && JobsMatch(s)
    ensures JobsMatch(Apply(s, step).store)
  {
    hide Drafts;
    var t := Apply(s, step).store;
    DraftsAre(s.rows);
    if step.Confirm? && Drafts(s.rows) != [] {
      var top := Drafts(s.rows)[|Drafts(s.rows)| - 1];
      assert t.jobs[|s.jobs|] == top;
      forall i | 0 <= i < |t.rows| && t.rows[i].isConfirmed ensures i in t.jobs {
        if i != top {
          assert i in s.jobs;
        }
      }
    }
  }

  lemma {:induction false} OneJobPerConfirmedRow(steps: seq<Step>)
    ensures JobsMatch(After(steps))
  {
    if steps != [] {
      OneJobPerConfirmedRow(steps[..|steps| - 1]);
      StepKeepsJobs(After(steps[..|steps| - 1]), steps[|steps| - 1]);
    }
  }

  /** Generating twice with unchanged parameters adds nothing and answers the same row. */
  lemma GenerateTwiceIsOnce(s: Store, generated: Result<Output>)
    requires StackShaped(s.rows)
    ensures StackShaped(Apply(s, Generate(generated)).store.rows)
    ensures var once := Apply(s, Generate(generated)); Apply(once.store, Generate(generated)) == once
  {
    StepKeepsShape(s, Generate(generated));
    if generated.Success? {
      PushPushes(s.rows, generated.value.text, generated.value.structured);
      assert Push(s.rows, generated.value.text, generated.value.structured)[..|s.rows|] == s.rows;
    }
  }

}
