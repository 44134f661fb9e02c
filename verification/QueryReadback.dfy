/** The generated query as slots, and the readback theorem for whole queries. */
module QueryReadback {
  import opened Outcomes
  import opened Text
  import opened BooleanQuery
  import QueryTokens
  import opened QueryRoundTrip

  // ---------------------------------------------------------------------------------------
  // Emitting a query piece by piece
  // ---------------------------------------------------------------------------------------

  /** Slots completed so far, and text written since the last quoted value. */
  datatype Emitted = Emitted(slots: seq<Slot>, carry: string)

  function TextOf(e: Emitted): string {
    Render(e.slots) + e.carry
  }

  function Put(e: Emitted, s: string): Emitted {
    Emitted(e.slots, e.carry + s)
  }

  function PutValue(e: Emitted, v: string): Emitted {
    Emitted(e.slots + [Slot(e.carry, v)], "")
  }

  function PutTerm(e: Emitted, field: string, v: string): Emitted {
    PutValue(Put(e, field + ":"), v)
  }

  function PutFields(e: Emitted, v: string, fields: seq<string>): Emitted
    decreases |fields|
  {
    if fields == [] then e
    else if |fields| == 1 then PutTerm(e, fields[0], v)
    else PutFields(Put(PutTerm(e, fields[0], v), " OR "), v, fields[1..])
  }

  function PutClauses(e: Emitted, terms: seq<string>, fields: seq<string>): Emitted
    decreases |terms|
  {
    if terms == [] then e
    else if |terms| == 1 then PutFields(e, terms[0], fields)
    else PutClauses(Put(PutFields(e, terms[0], fields), " OR "), terms[1..], fields)
  }

  lemma PutText(e: Emitted, s: string)
    ensures TextOf(Put(e, s)) == TextOf(e) + s
  {
  }

  lemma PutTermText(e: Emitted, field: string, v: string)
    ensures TextOf(PutTerm(e, field, v)) == TextOf(e) + (field + ":" + Quoted(v))
  {
    var p := Put(e, field + ":");
    assert (p.slots + [Slot(p.carry, v)])[..|p.slots|] == p.slots;
    PutText(e, field + ":");
  }

  lemma {:induction false} PutFieldsText(e: Emitted, v: string, fields: seq<string>)
    ensures TextOf(PutFields(e, v, fields)) == TextOf(e) + Join(FieldTerms(Quoted(v), fields), " OR ")
    decreases |fields|
  {
    if fields != [] {
      var terms := FieldTerms(Quoted(v), fields);
      PutTermText(e, fields[0], v);
      if |fields| > 1 {
        var next := Put(PutTerm(e, fields[0], v), " OR ");
        PutText(PutTerm(e, fields[0], v), " OR ");
        PutFieldsText(next, v, fields[1..]);
        assert terms[1..] == FieldTerms(Quoted(v), fields[1..]);
      }
    }
  }

  lemma {:induction false} PutClausesText(e: Emitted, terms: seq<string>, fields: seq<string>)
    requires forall t :: t in terms ==> Trim(t) == t
    ensures TextOf(PutClauses(e, terms, fields)) == TextOf(e) + BuildCompetitorClause(terms, fields)
    decreases |terms|
  {
    if terms != [] {
      PutFieldsText(e, terms[0], fields);
      if |terms| > 1 {
        var first := PutFields(e, terms[0], fields);
        PutText(first, " OR ");
        PutClausesText(Put(first, " OR "), terms[1..], fields);
        var clauses := FieldClauses(terms, fields);
        assert clauses[1..] == FieldClauses(terms[1..], fields);
        assert Join(clauses, " OR ") == clauses[0] + " OR " + Join(clauses[1..], " OR ");
        Regroup(TextOf(e), clauses[0], " OR ", Join(clauses[1..], " OR "));
      } else {
        assert FieldClauses(terms, fields) == [BuildFieldClause(terms[0], fields)];
      }
    }
  }

  // ---------------------------------------------------------------------------------------
  // The whole query
  // ---------------------------------------------------------------------------------------

  function EmitBrand(input: Input): Emitted {
    Put(PutFields(Emitted([], "("), Trim(input.brand), BrandFields(input)), ")")
  }

  function EmitCompetitors(input: Input): Emitted {
    if CompetitorPart(input) == [] then EmitBrand(input)
    else Put(PutClauses(Put(EmitBrand(input), " AND ("), CleanCompetitors(input.competitors), CompetitorFields(input)), ")")
  }

  function EmitDates(input: Input): Emitted {
    if DatePart(input) == [] then EmitCompetitors(input)
    else Put(EmitCompetitors(input), " AND " + DatePart(input)[0])
  }

  function EmitQuery(input: Input): Emitted {
    PutValue(Put(EmitDates(input), " AND language:"), Language(input))
  }

  lemma {:induction false} JoinSnoc(parts: seq<string>, x: string, s: string)
    ensures Join(parts + [x], s) == if parts == [] then x else Join(parts, s) + s + x
  {
    if |parts| > 1 {
      assert (parts + [x])[1..] == parts[1..] + [x];
      JoinSnoc(parts[1..], x, s);
    } else if |parts| == 1 {
      assert (parts + [x])[1..] == [x];
    }
  }

  lemma {:induction false} CleanIsTrimmed(competitors: seq<string>)
    ensures forall c :: c in CleanCompetitors(competitors) ==> Trim(c) == c && c != []
  {
    if competitors != [] {
      TrimIdempotent(competitors[0]);
      CleanIsTrimmed(competitors[1..]);
    }
  }

  lemma BrandText(input: Input)
    ensures TextOf(EmitBrand(input)) == Join(BrandPart(input), " AND ")
  {
    var start := Emitted([], "(");
    PutFieldsText(start, Trim(input.brand), BrandFields(input));
    PutText(PutFields(start, Trim(input.brand), BrandFields(input)), ")");
  }

  /** One more part of the top-level conjunction. */
  lemma AppendPart(e: Emitted, parts: seq<string>, e': Emitted, x: string)
    requires parts != [] && TextOf(e) == Join(parts, " AND ")
    requires TextOf(e') == TextOf(e) + " AND " + x
    ensures TextOf(e') == Join(parts + [x], " AND ")
  {
    JoinSnoc(parts, x, " AND ");
  }

  lemma Parenthesized(e: Emitted, inner: Emitted, clause: string)
    requires TextOf(inner) == TextOf(Put(e, " AND (")) + clause
    ensures TextOf(Put(inner, ")")) == TextOf(e) + " AND " + ("(" + clause + ")")
  {
    var t := TextOf(e);
    PutText(e, " AND (");
    PutText(inner, ")");
    assert " AND (" == " AND " + "(";
    assert t + (" AND " + "(") + clause + ")" == t + " AND " + ("(" + clause + ")");
  }

  lemma CompetitorText(input: Input)
    ensures TextOf(EmitCompetitors(input)) == Join(BrandPart(input) + CompetitorPart(input), " AND ")
  {
    BrandText(input);
    var part, brand := CompetitorPart(input), BrandPart(input);
    if part == [] {
      assert brand + part == brand;
    } else {
      var clean, fields := CleanCompetitors(input.competitors), CompetitorFields(input);
      CleanIsTrimmed(input.competitors);
      PutClausesText(Put(EmitBrand(input), " AND ("), clean, fields);
      Parenthesized(EmitBrand(input), PutClauses(Put(EmitBrand(input), " AND ("), clean, fields),
                    BuildCompetitorClause(clean, fields));
      AppendPart(EmitBrand(input), brand, EmitCompetitors(input), part[0]);
      assert part == [part[0]];
    }
  }

  lemma DateText(input: Input)
    ensures TextOf(EmitDates(input)) == Join(BrandPart(input) + CompetitorPart(input) + DatePart(input), " AND ")
  {
    CompetitorText(input);
    var before, part := BrandPart(input) + CompetitorPart(input), DatePart(input);
    if part == [] {
      assert before + part == before;
    } else {
      PutText(EmitCompetitors(input), " AND " + part[0]);
      assert TextOf(EmitCompetitors(input)) + (" AND " + part[0]) == TextOf(EmitCompetitors(input)) + " AND " + part[0];
      AppendPart(EmitCompetitors(input), before, EmitDates(input), part[0]);
      assert part == [part[0]];
    }
  }

  lemma LanguageText(e: Emitted, language: string)
    requires QuoteFree(language)
    ensures TextOf(PutValue(Put(e, " AND language:"), language)) == TextOf(e) + " AND " + ("language:\"" + language + "\"")
  {
    var p := Put(e, " AND language:");
    assert (p.slots + [Slot(p.carry, language)])[..|p.slots|] == p.slots;
    PutText(e, " AND language:");
    EscapeNothing(language);
    assert " AND language:" == " AND " + "language:";
    assert TextOf(e) + (" AND " + "language:") + ("\"" + language + "\"")
        == TextOf(e) + " AND " + ("language:" + ("\"" + language + "\""));
    assert "language:\"" == "language:" + "\"";
    assert "language:\"" + language + "\"" == "language:" + ("\"" + language + "\"");
  }

  /** The printed text is exactly the rendering of the emitted slots. */
  lemma QueryIsSlots(input: Input)
    requires QuoteFree(Language(input))
    ensures QueryText(input) == Render(EmitQuery(input).slots)
  {
    DateText(input);
    LanguageText(EmitDates(input), Language(input));
    AppendPart(EmitDates(input), BrandPart(input) + CompetitorPart(input) + DatePart(input),
               EmitQuery(input), LanguagePart(input)[0]);
    assert LanguagePart(input) == [LanguagePart(input)[0]];
    assert TextOf(EmitQuery(input)) == Render(EmitQuery(input).slots);
  }

  // ---------------------------------------------------------------------------------------
  // What the slots hold
  // ---------------------------------------------------------------------------------------

  function Repeat(v: string, n: nat): seq<string> {
    seq(n, _ => v)
  }

  /** Each term once per field. */
  function PerField(terms: seq<string>, n: nat): seq<string> {
    if terms == [] then [] else Repeat(terms[0], n) + PerField(terms[1..], n)
  }

  /** What a reader should find: the brand once per brand field, each competitor once per
      competitor field, then the language. */
  function Expected(input: Input): seq<string> {
    Repeat(Trim(input.brand), |BrandFields(input)|)
    + PerField(CleanCompetitors(input.competitors), |CompetitorFields(input)|)
    + [Language(input)]
  }

  /** Nothing written outside the quoted values has a quote, and each value follows a colon. */
  predicate Fine(e: Emitted) {
    GapsFine(e.slots) && QuoteFree(e.carry)
  }

  predicate FieldsFine(fields: seq<string>) {
    forall f :: f in fields ==> QuoteFree(f)
  }

  lemma ValuesAppend(slots: seq<Slot>, s: Slot)
    ensures Values(slots + [s]) == Values(slots) + [s.value]
  {
  }

  lemma PutTermHolds(e: Emitted, field: string, v: string)
    requires Fine(e) && QuoteFree(field)
    ensures Fine(PutTerm(e, field, v))
    ensures Values(PutTerm(e, field, v).slots) == Values(e.slots) + [v]
  {
    var gap := e.carry + (field + ":");
    assert gap[|gap| - 1] == ':';
    assert GapFine(gap);
    ValuesAppend(e.slots, Slot(gap, v));
  }

  lemma {:induction false} PutFieldsHolds(e: Emitted, v: string, fields: seq<string>)
    requires Fine(e) && FieldsFine(fields)
    ensures Fine(PutFields(e, v, fields))
    ensures Values(PutFields(e, v, fields).slots) == Values(e.slots) + Repeat(v, |fields|)
    decreases |fields|
  {
    if fields == [] {
      assert Values(e.slots) + Repeat(v, 0) == Values(e.slots);
    } else {
      PutTermHolds(e, fields[0], v);
      if |fields| == 1 {
        assert Repeat(v, 1) == [v];
      } else {
        PutFieldsHolds(Put(PutTerm(e, fields[0], v), " OR "), v, fields[1..]);
        assert Repeat(v, |fields|) == [v] + Repeat(v, |fields| - 1);
      }
    }
  }

  lemma {:induction false} PutClausesHolds(e: Emitted, terms: seq<string>, fields: seq<string>)
    requires Fine(e) && FieldsFine(fields)
    ensures Fine(PutClauses(e, terms, fields))
    ensures Values(PutClauses(e, terms, fields).slots) == Values(e.slots) + PerField(terms, |fields|)
    decreases |terms|
  {
    if terms == [] {
      assert Values(e.slots) + [] == Values(e.slots);
    } else {
      PutFieldsHolds(e, terms[0], fields);
      if |terms| == 1 {
        assert PerField(terms, |fields|) == Repeat(terms[0], |fields|) + [];
      } else {
        PutClausesHolds(Put(PutFields(e, terms[0], fields), " OR "), terms[1..], fields);
      }
    }
  }

  /** The inputs the readback theorem is about: field names, formatted dates and the language are
      free of quotes. Brand and competitors are arbitrary. */
  predicate Printable(input: Input) {
    && FieldsFine(BrandFields(input)) && FieldsFine(CompetitorFields(input))
    && (input.dateStart.Some? ==> QuoteFree(input.dateStart.value))
    && (input.dateEnd.Some? ==> QuoteFree(input.dateEnd.value))
    && QuoteFree(Language(input))
  }

  lemma NoClauseNoValues(input: Input)
    requires CompetitorPart(input) == []
    ensures PerField(CleanCompetitors(input.competitors), |CompetitorFields(input)|) == []
  {
    var clean, fields := CleanCompetitors(input.competitors), CompetitorFields(input);
    if clean != [] {
      EmptyClause(clean, fields);
      assert fields == [] && |clean| == 1;
    }
  }

  lemma JoinLength(parts: seq<string>, s: string)
    requires parts != []
    ensures |Join(parts, s)| >= |parts[0]| + (if |parts| > 1 then |s| else 0)
  {
  }

  /** A competitor clause is empty only for one competitor and no field. */
  lemma EmptyClause(terms: seq<string>, fields: seq<string>)
    requires terms != [] && BuildCompetitorClause(terms, fields) == ""
    ensures fields == [] && |terms| == 1
  {
    var clauses := FieldClauses(terms, fields);
    JoinLength(clauses, " OR ");
    assert |terms| == 1;
    var parts := FieldTerms("\"" + EscapeQueryValue(terms[0]) + "\"", fields);
    assert clauses == [Join(parts, " OR ")];
    if fields != [] {
      JoinLength(parts, " OR ");
    }
  }

  function BrandValues(input: Input): seq<string> {
    Repeat(Trim(input.brand), |BrandFields(input)|)
  }

  function CompetitorValues(input: Input): seq<string> {
    PerField(CleanCompetitors(input.competitors), |CompetitorFields(input)|)
  }

  lemma BrandHolds(input: Input)
    requires Printable(input)
    ensures Fine(EmitBrand(input)) && Values(EmitBrand(input).slots) == BrandValues(input)
  {
    PutFieldsHolds(Emitted([], "("), Trim(input.brand), BrandFields(input));
    assert Values([]) + BrandValues(input) == BrandValues(input);
  }

  lemma CompetitorsHold(input: Input)
    requires Printable(input)
    ensures Fine(EmitCompetitors(input))
    ensures Values(EmitCompetitors(input).slots) == BrandValues(input) + CompetitorValues(input)
  {
    BrandHolds(input);
    if CompetitorPart(input) == [] {
      NoClauseNoValues(input);
      assert BrandValues(input) + [] == BrandValues(input);
    } else {
      PutClausesHolds(Put(EmitBrand(input), " AND ("), CleanCompetitors(input.competitors), CompetitorFields(input));
    }
  }

  lemma DatesHold(input: Input)
    requires Printable(input)
    ensures Fine(EmitDates(input)) && EmitDates(input).slots == EmitCompetitors(input).slots
  {
    CompetitorsHold(input);
    if DatePart(input) != [] {
      var part := DatePart(input)[0];
      assert part == "date:[" + input.dateStart.value + " TO " + input.dateEnd.value + "]";
      assert QuoteFree(part);
    }
  }

  lemma QueryHolds(input: Input)
    requires Printable(input)
    ensures GapsFine(EmitQuery(input).slots)
    ensures Values(EmitQuery(input).slots) == Expected(input)
  {
    CompetitorsHold(input);
    DatesHold(input);
    LanguageHolds(EmitDates(input), Language(input));
  }

  lemma LanguageHolds(e: Emitted, language: string)
    requires Fine(e)
    ensures var q := PutValue(Put(e, " AND language:"), language);
            GapsFine(q.slots) && Values(q.slots) == Values(e.slots) + [language]
  {
    var gap := e.carry + " AND language:";
    assert gap[|gap| - 1] == ':';
    assert GapFine(gap);
    ValuesAppend(e.slots, Slot(gap, language));
  }

  // ---------------------------------------------------------------------------------------
  // The theorem
  // ---------------------------------------------------------------------------------------

  /** No brand or competitor that is printed at all ends in a backslash once trimmed. */
  predicate NoTrailingBackslash(input: Input) {
    && (BrandFields(input) != [] ==> !EndsInBackslash(Trim(input.brand)))
    && (CompetitorFields(input) != [] ==>
          forall k :: 0 <= k < |input.competitors| ==> !EndsInBackslash(Trim(input.competitors[k])))
  }

  lemma {:induction false} CleanMembers(competitors: seq<string>)
    ensures forall c :: c in CleanCompetitors(competitors) <==>
              c != "" && exists k :: 0 <= k < |competitors| && Trim(competitors[k]) == c
  {
    if competitors != [] {
      hide Trim;
      CleanMembers(competitors[1..]);
      var first, rest := Trim(competitors[0]), competitors[1..];
      forall c ensures c in CleanCompetitors(competitors) <==>
                         c != "" && exists k :: 0 <= k < |competitors| && Trim(competitors[k]) == c
      {
        if c in CleanCompetitors(rest) {
          var k :| 0 <= k < |rest| && Trim(rest[k]) == c;
          assert Trim(competitors[k + 1]) == c;
        }
        if k :| 0 <= k < |competitors| && Trim(competitors[k]) == c && c != "" && c != first {
          assert Trim(rest[k - 1]) == c;
        }
      }
    }
  }

  /** A blank competitor has no trailing backslash, so the condition may as well be about the clean ones. */
  lemma SlashesSurviveCleaning(competitors: seq<string>)
    ensures (forall k :: 0 <= k < |competitors| ==> !EndsInBackslash(Trim(competitors[k])))
            <==> forall c :: c in CleanCompetitors(competitors) ==> !EndsInBackslash(c)
  {
    CleanMembers(competitors);
    hide Trim, CleanCompetitors;
    forall k | 0 <= k < |competitors| && EndsInBackslash(Trim(competitors[k]))
      ensures Trim(competitors[k]) in CleanCompetitors(competitors)
    {
    }
  }

  lemma {:induction false} PerFieldMembers(terms: seq<string>, n: nat)
    ensures forall v :: v in PerField(terms, n) <==> v in terms && n > 0
  {
    if terms != [] {
      PerFieldMembers(terms[1..], n);
      assert forall v :: v in Repeat(terms[0], n) <==> v == terms[0] && n > 0 by {
        if n > 0 {
          assert Repeat(terms[0], n)[0] == terms[0];
        }
      }
    }
  }

  lemma ReadableMeans(input: Input, slots: seq<Slot>)
    requires Values(slots) == Expected(input)
    ensures Readable(slots) <==> NoTrailingBackslash(input)
  {
    var perBrand := Repeat(Trim(input.brand), |BrandFields(input)|);
    var clean := CleanCompetitors(input.competitors);
    var perCompetitor := PerField(clean, |CompetitorFields(input)|);
    var printed := perBrand + perCompetitor;
    PerFieldMembers(clean, |CompetitorFields(input)|);
    SlashesSurviveCleaning(input.competitors);
    assert |slots| == |printed| + 1;
    forall k | 0 <= k < |printed| ensures slots[k].value == printed[k] {
      assert Values(slots)[k] == Expected(input)[k];
    }
    if NoTrailingBackslash(input) {
      forall k | 0 <= k < |slots| - 1 ensures !EndsInBackslash(slots[k].value) {
        assert printed[k] in perBrand || printed[k] in perCompetitor;
      }
    }
    if Readable(slots) {
      if BrandFields(input) != [] {
        assert printed[0] == Trim(input.brand);
      }
      forall c | c in clean && CompetitorFields(input) != [] ensures !EndsInBackslash(c) {
        assert c in perCompetitor;
        var k :| 0 <= k < |perCompetitor| && perCompetitor[k] == c;
        assert printed[|perBrand| + k] == c;
      }
    }
  }

  /** Tokenizing the generated text and unescaping its quoted tokens gives back the brand once per
      brand field, each competitor once per competitor field and the language, in that order,
      exactly when no printed brand or competitor ends in a backslash. */
  lemma QueryReadsBack(input: Input)
    requires Printable(input)
    ensures QueryTokens.ReadValues(QueryTokens.SpansFrom(QueryText(input), 0)) == Expected(input)
            <==> NoTrailingBackslash(input)
  {
    var text, slots := QueryText(input), EmitQuery(input).slots;
    QueryIsSlots(input);
    QueryHolds(input);
    assert text[0..] == text;
    RenderFollows(text, 0, slots);
    assert slots[|slots| - 1].value == Language(input);
    ReadsSlots(text, 0, slots);
    ReadableMeans(input, slots);
    QueryTokens.SpansGiveValues(text, 0);
  }

  const BACKSLASH_BRAND := Input("a\\", [], None, None, None, Some(["title"]), None)

  /** A query that is not read back: the brand is a letter and a backslash. */
  lemma BackslashBrandIsMisread()
    ensures QueryText(BACKSLASH_BRAND) == "(title:\"a\\\") AND language:\"en\""
    ensures Expected(BACKSLASH_BRAND) == ["a\\", "en"]
    ensures QueryTokens.ReadValues(QueryTokens.SpansFrom(QueryText(BACKSLASH_BRAND), 0)) != ["a\\", "en"]
  {
    BackslashBrandParts();
    BackslashBrandText();
    hide *;
    QueryReadsBack(BACKSLASH_BRAND);
  }

  lemma BackslashBrandParts()
    ensures Printable(BACKSLASH_BRAND) && !NoTrailingBackslash(BACKSLASH_BRAND)
    ensures Expected(BACKSLASH_BRAND) == ["a\\", "en"]
    ensures Language(BACKSLASH_BRAND) == "en"
  {
    TrimUntouched("a\\");
    assert ToLower("en") == "en";
    assert Repeat("a\\", 1) == ["a\\"];
    assert BrandFields(BACKSLASH_BRAND) == ["title"];
  }

  lemma JoinTwo(a: string, b: string, separator: string)
    ensures Join([a] + [] + [] + [b], separator) == a + separator + b
  {
    assert [a] + [] + [] + [b] == [a, b] && [a, b][1..] == [b];
  }

  lemma BackslashBrandText()
    ensures QueryText(BACKSLASH_BRAND) == "(title:\"a\\\") AND language:\"en\""
  {
    BackslashBrandClauses();
    hide BrandPart, CompetitorPart, DatePart, LanguagePart, Join;
    JoinTwo("(title:\"a\\\")", "language:\"en\"", " AND ");
    assert "(title:\"a\\\")" + " AND " + "language:\"en\"" == "(title:\"a\\\") AND language:\"en\"";
  }

  lemma BackslashBrandClauses()
    ensures BrandPart(BACKSLASH_BRAND) == ["(title:\"a\\\")"] && LanguagePart(BACKSLASH_BRAND) == ["language:\"en\""]
    ensures CompetitorPart(BACKSLASH_BRAND) == [] && DatePart(BACKSLASH_BRAND) == []
  {
    BackslashBrandParts();
    BackslashBrandClause();
    hide BuildFieldClause, Language, BuildCompetitorClause;
    assert "(" + "title:\"a\\\"" + ")" == "(title:\"a\\\")";
    assert "language:\"" + "en" + "\"" == "language:\"en\"";
    assert BrandFields(BACKSLASH_BRAND) == ["title"];
  }

  lemma BackslashBrandClause()
    ensures BuildFieldClause("a\\", ["title"]) == "title:\"a\\\""
  {
    TrimUntouched("a\\");
    assert "a\\"[1..] == "\\" && "\\"[1..] == "";
    assert EscapeQuotes("\\") == "\\" && EscapeQuotes("a\\") == "a\\";
    hide EscapeQuotes, Trim;
    var term := "\"" + EscapeQueryValue("a\\") + "\"";
    assert FieldTerms(term, ["title"])[0] == "title" + ":" + term == "title:\"a\\\"";
  }
}
