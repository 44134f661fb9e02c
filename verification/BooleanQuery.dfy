/** The Boolean query printer. */
module BooleanQuery {
  import opened Outcomes
  import opened Text

  /** Date bounds are given as the YYYY-MM-DD text they are formatted to. */
  datatype Input = Input(
    brand: string,
    competitors: seq<string>,
    dateStart: Option<string>,
    dateEnd: Option<string>,
    language: Option<string>,
    brandFields: Option<seq<string>>,
    competitorFields: Option<seq<string>>)

  datatype Structured = Structured(
    brand: string,
    brandFields: seq<string>,
    competitors: seq<string>,
    competitorFields: seq<string>,
    dateRange: Option<(string, string)>,
    language: string)

  datatype Output = Output(text: string, structured: Structured)

  const DEFAULT_BRAND_FIELDS := ["title", "headline", "content"]
  const DEFAULT_COMPETITOR_FIELDS := ["content", "description"]

  function EscapeQuotes(v: string): string {
    if v == [] then []
    else (if v[0] == '"' then "\\\"" else [v[0]]) + EscapeQuotes(v[1..])
  }

  function EscapeQueryValue(v: string): string {
    EscapeQuotes(Trim(v))
  }

  function Join(parts: seq<string>, separator: string): string {
    if parts == [] then ""
    else if |parts| == 1 then parts[0]
    else parts[0] + separator + Join(parts[1..], separator)
  }

  function FieldTerms(value: string, fields: seq<string>): (r: seq<string>)
    ensures |r| == |fields|
    ensures forall i :: 0 <= i < |fields| ==> r[i] == fields[i] + ":" + value
  {
    seq(|fields|, i requires 0 <= i < |fields| => fields[i] + ":" + value)
  }

  function BuildFieldClause(term: string, fields: seq<string>): string {
    Join(FieldTerms("\"" + EscapeQueryValue(term) + "\"", fields), " OR ")
  }

  function FieldClauses(terms: seq<string>, fields: seq<string>): (r: seq<string>)
    ensures |r| == |terms|
    ensures forall i :: 0 <= i < |terms| ==> r[i] == BuildFieldClause(terms[i], fields)
  {
    seq(|terms|, i requires 0 <= i < |terms| => BuildFieldClause(terms[i], fields))
  }

  function BuildCompetitorClause(competitors: seq<string>, fields: seq<string>): string {
    Join(FieldClauses(competitors, fields), " OR ")
  }

  /** Trimmed, with the blank ones dropped. */
  function CleanCompetitors(competitors: seq<string>): (r: seq<string>)
    ensures forall c :: c in r ==> c != []
  {
    if competitors == [] then []
    else
      var c := Trim(competitors[0]);
      (if c == [] then [] else [c]) + CleanCompetitors(competitors[1..])
  }

  /** Lower-casing of the ASCII letters. */
  function ToLower(s: string): (r: string)
    ensures |r| == |s|
    ensures forall i :: 0 <= i < |s| ==> r[i] == if 'A' <= s[i] <= 'Z' then s[i] + ' ' else s[i]
  {
    seq(|s|, i requires 0 <= i < |s| => if 'A' <= s[i] <= 'Z' then s[i] + ' ' else s[i])
  }

  function BrandFields(input: Input): seq<string> {
    if input.brandFields.Some? then input.brandFields.value else DEFAULT_BRAND_FIELDS
  }

  function CompetitorFields(input: Input): seq<string> {
    if input.competitorFields.Some? then input.competitorFields.value else DEFAULT_COMPETITOR_FIELDS
  }

  function Language(input: Input): string {
    ToLower(if input.language.Some? then input.language.value else "en")
  }

  function BrandPart(input: Input): seq<string> {
    ["(" + BuildFieldClause(input.brand, BrandFields(input)) + ")"]
  }

  function CompetitorPart(input: Input): seq<string> {
    var competitors := CleanCompetitors(input.competitors);
    var clause := BuildCompetitorClause(competitors, CompetitorFields(input));
    if competitors != [] && clause != "" then ["(" + clause + ")"] else []
  }

  function DatePart(input: Input): seq<string> {
    if input.dateStart.Some? && input.dateEnd.Some?
    then ["date:[" + input.dateStart.value + " TO " + input.dateEnd.value + "]"] else []
  }

  function LanguagePart(input: Input): seq<string> {
    ["language:\"" + Language(input) + "\""]
  }

  /** The text of a query whose brand is not blank. */
  function QueryText(input: Input): string {
    Join(BrandPart(input) + CompetitorPart(input) + DatePart(input) + LanguagePart(input), " AND ")
  }

  /** The structured mirror keeps the escaped brand and the unescaped competitors. */
  function StructuredOf(input: Input): Structured {
    Structured(EscapeQueryValue(input.brand), BrandFields(input), CleanCompetitors(input.competitors),
               CompetitorFields(input),
               if input.dateStart.Some? && input.dateEnd.Some? then Some((input.dateStart.value, input.dateEnd.value))
               else None,
               Language(input))
  }

  const BLANK_BRAND := "brand is required"

  /** Pushes the clauses one by one and joins them. */
  method GenerateBooleanQuery(input: Input) returns (r: Result<Output>)
    ensures r == if Trim(input.brand) == "" then Failure("brand is required")
                 else Success(Output(QueryText(input), StructuredOf(input)))
  {
    var brandTrim := EscapeQueryValue(input.brand);
    assert brandTrim == "" <==> Trim(input.brand) == "";
    if brandTrim == "" {
      return Failure(BLANK_BRAND);
    }
    var brandClause := BuildFieldClause(input.brand, BrandFields(input));
    var cleanCompetitors := CleanCompetitors(input.competitors);
    var compClause := "";
    if cleanCompetitors != [] {
      compClause := BuildCompetitorClause(cleanCompetitors, CompetitorFields(input));
    }
    var parts := ["(" + brandClause + ")"];
    assert parts == BrandPart(input);
    if compClause != "" {
      parts := parts + ["(" + compClause + ")"];
    }
    assert parts == BrandPart(input) + CompetitorPart(input);
    var dateRange: Option<(string, string)> := None;
    if input.dateStart.Some? && input.dateEnd.Some? {
      dateRange := Some((input.dateStart.value, input.dateEnd.value));
      parts := parts + ["date:[" + input.dateStart.value + " TO " + input.dateEnd.value + "]"];
    }
    assert parts == BrandPart(input) + CompetitorPart(input) + DatePart(input);
    parts := parts + ["language:\"" + Language(input) + "\""];
    r := Success(Output(Join(parts, " AND "),
                        Structured(brandTrim, BrandFields(input), cleanCompetitors, CompetitorFields(input),
                                   dateRange, Language(input))));
  }

}
