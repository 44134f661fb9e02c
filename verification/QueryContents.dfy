/** What a generated query contains, in terms of the brand, competitors, dates and fields it was asked for. */
module QueryContents {
  import opened Outcomes
  import opened Text
  import opened BooleanQuery
  import QueryTokens
  import opened QueryRoundTrip
  import opened QueryReadback

  // ---------------------------------------------------------------------------------------
  // The competitors that are printed
  // ---------------------------------------------------------------------------------------

  predicate Increasing(ks: seq<nat>) {
    forall i, j :: 0 <= i < j < |ks| ==> ks[i] < ks[j]
  }

  /** The positions of the competitors that are not blank, in input order. */
  predicate NonBlank(competitors: seq<string>, kept: seq<nat>) {
    && Increasing(kept)
    && (forall j :: 0 <= j < |kept| ==> kept[j] < |competitors|)
    && (forall k: nat :: k < |competitors| ==> (k in kept <==> Trim(competitors[k]) != ""))
  }

  /** The listed positions hold these values once trimmed. */
  predicate Holds(competitors: seq<string>, kept: seq<nat>, values: seq<string>) {
    && |values| == |kept|
    && forall j :: 0 <= j < |kept| ==> kept[j] < |competitors| && values[j] == Trim(competitors[kept[j]])
  }

  /** Cleaning drops the blank competitors and trims the others, and does nothing else. */
  lemma {:induction false} KeepsNonBlank(competitors: seq<string>) returns (kept: seq<nat>)
    ensures NonBlank(competitors, kept)
    ensures Holds(competitors, kept, CleanCompetitors(competitors))
  {
    if competitors == [] {
      kept := [];
    } else {
      hide Trim, NonBlank, Holds;
      var rest := KeepsNonBlank(competitors[1..]);
      var shifted := seq(|rest|, j requires 0 <= j < |rest| => rest[j] + 1);
      kept := (if Trim(competitors[0]) == "" then [] else [0]) + shifted;
      ShiftedKept(competitors, rest, shifted, kept);
      ShiftedHolds(competitors, rest, shifted, CleanCompetitors(competitors[1..]));
    }
  }

  lemma ShiftedHolds(competitors: seq<string>, rest: seq<nat>, shifted: seq<nat>, values: seq<string>)
    requires competitors != [] && Holds(competitors[1..], rest, values)
    requires |shifted| == |rest| && forall j :: 0 <= j < |rest| ==> shifted[j] == rest[j] + 1
    ensures Holds(competitors, shifted, values)
    ensures Holds(competitors, [0] + shifted, [Trim(competitors[0])] + values)
    ensures Holds(competitors, [] + shifted, [] + values)
  {
    hide Trim;
    assert [] + shifted == shifted && [] + values == values;
  }

  lemma ShiftedKept(competitors: seq<string>, rest: seq<nat>, shifted: seq<nat>, kept: seq<nat>)
    requires competitors != [] && NonBlank(competitors[1..], rest)
    requires |shifted| == |rest| && forall j :: 0 <= j < |rest| ==> shifted[j] == rest[j] + 1
    requires kept == (if Trim(competitors[0]) == "" then [] else [0]) + shifted
    ensures NonBlank(competitors, kept)
  {
    hide Trim;
    forall k: nat | k < |competitors| ensures k in kept <==> Trim(competitors[k]) != "" {
      if k > 0 {
        assert k - 1 in rest <==> Trim(competitors[1..][k - 1]) != "";
        if k - 1 in rest {
          var j :| 0 <= j < |rest| && rest[j] == k - 1;
          assert shifted[j] == k;
        }
      }
    }
  }

  // ---------------------------------------------------------------------------------------
  // What the preview reads from the printed text
  // ---------------------------------------------------------------------------------------

  lemma {:induction false} PerFieldAt(terms: seq<string>, n: nat, j: nat, f: nat)
    requires j < |terms| && f < n
    ensures |PerField(terms, n)| == |terms| * n && j * n + f < |PerField(terms, n)|
    ensures PerField(terms, n)[j * n + f] == terms[j]
  {
    PerFieldSize(terms, n);
    Position(|terms|, n, j, f);
    if j > 0 {
      PerFieldAt(terms[1..], n, j - 1, f);
      Unfold(j, n);
      assert PerField(terms, n)[j * n + f] == PerField(terms[1..], n)[(j - 1) * n + f];
    }
  }

  lemma {:induction false} PerFieldSize(terms: seq<string>, n: nat)
    ensures |PerField(terms, n)| == |terms| * n
  {
    if terms != [] {
      PerFieldSize(terms[1..], n);
      Unfold(|terms|, n);
    }
  }

  lemma Unfold(j: nat, n: nat)
    requires j > 0
    ensures j * n == n + (j - 1) * n
  {
  }

  lemma Position(rows: nat, n: nat, j: nat, f: nat)
    requires j < rows && f < n
    ensures j * n + f < rows * n
  {
    assert (j + 1) * n <= rows * n;
  }

  /** Position of competitor j under its field f, behind b brand values, with n fields. */
  function At(b: nat, n: nat, j: nat, f: nat): nat {
    b + (j * n + f)
  }

  /** What a reader should find: the trimmed brand once per brand field, every competitor that is not
      blank, trimmed, once per competitor field, in input order, then the language, and nothing else. */
  predicate Finds(input: Input, kept: seq<nat>, values: seq<string>)
    requires NonBlank(input.competitors, kept)
  {
    var b, n := |BrandFields(input)|, |CompetitorFields(input)|;
    && |values| == At(b, n, |kept|, 0) + 1
    && (forall k :: 0 <= k < b ==> values[k] == Trim(input.brand))
    && (forall j, f :: 0 <= j < |kept| && 0 <= f < n ==>
          At(b, n, j, f) < |values| && values[At(b, n, j, f)] == Trim(input.competitors[kept[j]]))
    && values[|values| - 1] == Language(input)
  }

  lemma ExpectedFinds(input: Input, kept: seq<nat>)
    requires NonBlank(input.competitors, kept) && Holds(input.competitors, kept, CleanCompetitors(input.competitors))
    ensures Finds(input, kept, Expected(input))
  {
    hide Trim, BrandFields, CompetitorFields, Language, CleanCompetitors, PerField;
    var clean, b, n := CleanCompetitors(input.competitors), |BrandFields(input)|, |CompetitorFields(input)|;
    PerFieldSize(clean, n);
    var values := Expected(input);
    assert |values| == At(b, n, |kept|, 0) + 1;
    hide At, NonBlank;
    forall j: nat, f: nat | j < |kept| && f < n
      ensures At(b, n, j, f) < |values| && values[At(b, n, j, f)] == Trim(input.competitors[kept[j]])
    {
      PerFieldAt(clean, n, j, f);
      AtIs(b, n, j, f);
    }
  }

  lemma AtIs(b: nat, n: nat, j: nat, f: nat)
    ensures At(b, n, j, f) == b + (j * n + f)
  {
  }

  /** That is what it finds. */
  lemma ReadsEverything(input: Input) returns (kept: seq<nat>)
    requires Printable(input) && NoTrailingBackslash(input)
    ensures NonBlank(input.competitors, kept)
    ensures Finds(input, kept, QueryTokens.ReadValues(QueryTokens.SpansFrom(QueryText(input), 0)))
  {
    kept := KeepsNonBlank(input.competitors);
    hide Finds, NonBlank, Trim, QueryText, CleanCompetitors, Printable, NoTrailingBackslash, Expected;
    ExpectedFinds(input, kept);
    QueryReadsBack(input);
  }

  // ---------------------------------------------------------------------------------------
  // The fields in front of the values
  // ---------------------------------------------------------------------------------------

  predicate EndsWith(s: string, tail: string) {
    |tail| <= |s| && s[|s| - |tail|..] == tail
  }

  /** The slot's value is printed right behind the field's name and a colon. */
  predicate Names(slot: Slot, field: string) {
    EndsWith(slot.gap, field + ":")
  }

  lemma {:induction false} PutFieldsNames(e: Emitted, v: string, fields: seq<string>)
    ensures var r := PutFields(e, v, fields).slots;
            && |r| == |e.slots| + |fields| && e.slots <= r
            && forall f :: 0 <= f < |fields| ==> Names(r[|e.slots| + f], fields[f])
    decreases |fields|
  {
    if fields != [] {
      var first := PutTerm(e, fields[0], v);
      assert EndsWith(e.carry + (fields[0] + ":"), fields[0] + ":");
      if |fields| > 1 {
        PutFieldsNames(Put(first, " OR "), v, fields[1..]);
        hide EndsWith, PutTerm;
        var r := PutFields(e, v, fields).slots;
        assert first.slots[|e.slots|] == r[|e.slots|];
        forall f | 0 < f < |fields| ensures Names(r[|e.slots| + f], fields[f]) {
          assert fields[f] == fields[1..][f - 1];
        }
      }
    }
  }

  lemma {:induction false} PutClausesNames(e: Emitted, terms: seq<string>, fields: seq<string>, j: nat, f: nat)
    requires j < |terms| && f < |fields|
    ensures var r := PutClauses(e, terms, fields).slots;
            && |r| == |e.slots| + |terms| * |fields| && e.slots <= r
            && j * |fields| + f < |terms| * |fields|
            && Names(r[|e.slots| + (j * |fields| + f)], fields[f])
    decreases |terms|
  {
    var n := |fields|;
    PutFieldsNames(e, terms[0], fields);
    Position(|terms|, n, j, f);
    Unfold(|terms|, n);
    hide Names, PutFields;
    if |terms| > 1 {
      var next := Put(PutFields(e, terms[0], fields), " OR ");
      PutClausesNames(next, terms[1..], fields, if j > 0 then j - 1 else 0, f);
      if j > 0 {
        Unfold(j, n);
      } else {
        var r := PutClauses(e, terms, fields).slots;
        assert next.slots <= r;
        assert next.slots[|e.slots| + f] == r[|e.slots| + f];
      }
    }
  }

  lemma PutClausesSize(e: Emitted, terms: seq<string>, fields: seq<string>)
    ensures |PutClauses(e, terms, fields).slots| == |e.slots| + |terms| * |fields|
    ensures e.slots <= PutClauses(e, terms, fields).slots
    decreases |terms|
  {
    if terms != [] {
      PutFieldsNames(e, terms[0], fields);
      Unfold(|terms|, |fields|);
      if |terms| > 1 {
        PutClausesSize(Put(PutFields(e, terms[0], fields), " OR "), terms[1..], fields);
      }
    }
  }

  lemma NoPartNoSlots(input: Input)
    requires CompetitorPart(input) == []
    ensures |CleanCompetitors(input.competitors)| * |CompetitorFields(input)| == 0
  {
    NoClauseNoValues(input);
    PerFieldSize(CleanCompetitors(input.competitors), |CompetitorFields(input)|);
  }

  /** Slot k stands behind the field's name. */
  predicate Under(slots: seq<Slot>, k: nat, field: string) {
    k < |slots| && Names(slots[k], field)
  }

  /** The slots of the printed text: brand values stand under their brand field, competitor values under
      their competitor field, the language under its own, and there are no others. */
  lemma SlotsAreNamed(input: Input)
    requires QuoteFree(Language(input))
    ensures QueryText(input) == Render(EmitQuery(input).slots)
    ensures |EmitQuery(input).slots|
            == At(|BrandFields(input)|, |CompetitorFields(input)|, |CleanCompetitors(input.competitors)|, 0) + 1
    ensures forall f :: 0 <= f < |BrandFields(input)| ==> Under(EmitQuery(input).slots, f, BrandFields(input)[f])
    ensures Under(EmitQuery(input).slots, |EmitQuery(input).slots| - 1, "language")
  {
    QueryIsSlots(input);
    SlotsBefore(input);
    PutFieldsNames(Emitted([], "("), Trim(input.brand), BrandFields(input));
    LastGap(EmitDates(input).carry);
    hide Trim, QueryText, Language, CleanCompetitors, BrandFields, CompetitorFields, Names, PutFields, EmitDates;
  }

  lemma SlotsBefore(input: Input)
    ensures var slots := EmitDates(input).slots;
            && |slots| == At(|BrandFields(input)|, |CompetitorFields(input)|, |CleanCompetitors(input.competitors)|, 0)
            && EmitBrand(input).slots <= slots
    ensures EmitDates(input).slots == EmitCompetitors(input).slots
  {
    PutFieldsNames(Emitted([], "("), Trim(input.brand), BrandFields(input));
    PutClausesSize(Put(EmitBrand(input), " AND ("), CleanCompetitors(input.competitors), CompetitorFields(input));
    if CompetitorPart(input) == [] {
      NoPartNoSlots(input);
    }
    hide Trim, Language, CleanCompetitors, BrandFields, CompetitorFields, PutFields, PutClauses, CompetitorPart, DatePart;
  }

  lemma CompetitorsAreNamed(input: Input, j: nat, f: nat)
    requires j < |CleanCompetitors(input.competitors)| && f < |CompetitorFields(input)|
    ensures Under(EmitQuery(input).slots, At(|BrandFields(input)|, |CompetitorFields(input)|, j, f), CompetitorFields(input)[f])
  {
    var b, n, clean := |BrandFields(input)|, |CompetitorFields(input)|, CleanCompetitors(input.competitors);
    SlotsBefore(input);
    PutFieldsNames(Emitted([], "("), Trim(input.brand), BrandFields(input));
    var open := Put(EmitBrand(input), " AND (");
    PutClausesNames(open, clean, CompetitorFields(input), j, f);
    if CompetitorPart(input) == [] {
      NoPartNoSlots(input);
      Position(|clean|, n, j, f);
    }
    hide Trim, Language, CleanCompetitors, BrandFields, CompetitorFields, Names, PutFields, PutClauses, CompetitorPart,
         DatePart;
  }

  lemma LastGap(carry: string)
    ensures Names(Slot(carry + " AND language:", ""), "language")
    ensures forall v :: Names(Slot(carry + " AND language:", v), "language")
  {
    var gap := carry + " AND language:";
    assert gap[|gap| - 9..] == "language:";
  }

  // ---------------------------------------------------------------------------------------
  // Dates and mirror
  // ---------------------------------------------------------------------------------------

  /** The date clause is printed, start before end, exactly when both dates are given, and right before
      the language. */
  lemma DatesArePrinted(input: Input)
    ensures var before := Join(BrandPart(input) + CompetitorPart(input), " AND ");
            QueryText(input)
            == before
               + (if input.dateStart.Some? && input.dateEnd.Some?
                  then " AND " + ("date:[" + input.dateStart.value + " TO " + input.dateEnd.value + "]") else "")
               + " AND " + ("language:\"" + Language(input) + "\"")
  {
    SomeBrandPart(input);
    JoinTail(BrandPart(input) + CompetitorPart(input), DatePart(input), "language:\"" + Language(input) + "\"");
    hide BrandPart, CompetitorPart, Language, Join;
  }

  lemma JoinTail(parts: seq<string>, date: seq<string>, last: string)
    requires parts != [] && |date| <= 1
    ensures Join(parts + date + [last], " AND ")
            == Join(parts, " AND ") + (if date == [] then "" else " AND " + date[0]) + " AND " + last
  {
    JoinSnoc(parts + date, last, " AND ");
    hide Join;
    if date == [] {
      assert parts + [] == parts;
      assert Join(parts, " AND ") + "" == Join(parts, " AND ");
    } else {
      assert date == [date[0]];
      JoinSnoc(parts, date[0], " AND ");
      assert Join(parts, " AND ") + " AND " + date[0] == Join(parts, " AND ") + (" AND " + date[0]);
    }
  }

  lemma SomeBrandPart(input: Input)
    ensures BrandPart(input) + CompetitorPart(input) != []
  {
  }

  /** The structured mirror says the same: unescaping its brand gives the trimmed brand, and its
      competitors are those that are not blank, trimmed, in input order. */
  lemma MirrorAgrees(input: Input) returns (kept: seq<nat>)
    ensures var m := StructuredOf(input);
            && QueryTokens.Unescape(m.brand) == Trim(input.brand)
            && Holds(input.competitors, kept, m.competitors)
            && m.brandFields == (if input.brandFields.Some? then input.brandFields.value else ["title", "headline", "content"])
            && m.competitorFields == (if input.competitorFields.Some? then input.competitorFields.value
                                      else ["content", "description"])
            && (m.dateRange.Some? <==> input.dateStart.Some? && input.dateEnd.Some?)
            && (m.dateRange.Some? ==> m.dateRange.value == (input.dateStart.value, input.dateEnd.value))
            && (input.language.None? ==> m.language == "en")
            && (input.language.Some? ==> m.language == ToLower(input.language.value))
    ensures NonBlank(input.competitors, kept)
  {
    kept := KeepsNonBlank(input.competitors);
    Unescapes(Trim(input.brand));
    assert ToLower("en") == "en";
    hide Trim, ToLower, CleanCompetitors, EscapeQuotes, QueryTokens.Unescape, Holds;
  }

  // ---------------------------------------------------------------------------------------
  // The text around the values
  // ---------------------------------------------------------------------------------------

  lemma {:induction false} PutFieldsGaps(e: Emitted, v: string, fields: seq<string>, f: nat)
    requires f < |fields|
    ensures var r := PutFields(e, v, fields);
            && r.carry == "" && |r.slots| == |e.slots| + |fields| && e.slots <= r.slots
            && r.slots[|e.slots| + f].gap == (if f == 0 then e.carry else " OR ") + (fields[f] + ":")
    decreases |fields|
  {
    if |fields| > 1 {
      var first := PutTerm(e, fields[0], v);
      PutFieldsGaps(Put(first, " OR "), v, fields[1..], if f > 0 then f - 1 else 0);
      var r := PutFields(e, v, fields);
      assert first.slots[|e.slots|] == r.slots[|e.slots|];
      assert first.carry + " OR " == " OR ";
    }
  }

  lemma {:induction false} PutClausesGaps(e: Emitted, terms: seq<string>, fields: seq<string>, j: nat, f: nat)
    requires j < |terms| && f < |fields|
    ensures var r := PutClauses(e, terms, fields);
            && r.carry == "" && e.slots <= r.slots && At(|e.slots|, |fields|, j, f) < |r.slots|
            && r.slots[At(|e.slots|, |fields|, j, f)].gap
               == (if j == 0 && f == 0 then e.carry else " OR ") + (fields[f] + ":")
    decreases |terms|
  {
    var n := |fields|;
    PutFieldsGaps(e, terms[0], fields, f);
    hide PutFields;
    if |terms| > 1 {
      var first := PutFields(e, terms[0], fields);
      var next := Put(first, " OR ");
      assert first.carry + " OR " == " OR ";
      PutClausesGaps(next, terms[1..], fields, if j > 0 then j - 1 else 0, f);
      if j > 0 {
        Unfold(j, n);
      } else {
        assert next.slots <= PutClauses(e, terms, fields).slots;
        assert next.slots[|e.slots| + f] == PutClauses(e, terms, fields).slots[|e.slots| + f];
      }
    }
  }

  lemma BrandGaps(input: Input, f: nat)
    requires f < |BrandFields(input)|
    ensures EmitBrand(input).carry == ")" && |EmitBrand(input).slots| == |BrandFields(input)|
    ensures EmitBrand(input).slots[f].gap == (if f == 0 then "(" else " OR ") + (BrandFields(input)[f] + ":")
  {
    PutFieldsGaps(Emitted([], "("), Trim(input.brand), BrandFields(input), f);
    hide Trim, PutFields, BrandFields;
  }

  lemma ClauseShown(input: Input)
    requires CleanCompetitors(input.competitors) != [] && CompetitorFields(input) != []
    ensures CompetitorPart(input) != []
  {
    if BuildCompetitorClause(CleanCompetitors(input.competitors), CompetitorFields(input)) == "" {
      EmptyClause(CleanCompetitors(input.competitors), CompetitorFields(input));
    }
  }

  /** What is printed between the values: the brand's alternatives and the competitors' alternatives are
      each or-ed in parentheses, and the parts are and-ed. */
  lemma GapsAre(input: Input, f: nat, j: nat, g: nat)
    requires f < |BrandFields(input)|
    requires j < |CleanCompetitors(input.competitors)| && g < |CompetitorFields(input)|
    ensures var slots, b, n := EmitQuery(input).slots, |BrandFields(input)|, |CompetitorFields(input)|;
            && f < |slots| && slots[f].gap == (if f == 0 then "(" else " OR ") + (BrandFields(input)[f] + ":")
            && At(b, n, j, g) < |slots|
            && slots[At(b, n, j, g)].gap == (if j == 0 && g == 0 then ") AND (" else " OR ") + (CompetitorFields(input)[g] + ":")
            && slots[|slots| - 1].gap
               == ")" + (if input.dateStart.Some? && input.dateEnd.Some?
                         then " AND " + ("date:[" + input.dateStart.value + " TO " + input.dateEnd.value + "]") else "")
                  + " AND language:"
  {
    BrandGaps(input, f);
    ClauseShown(input);
    var brand := EmitBrand(input);
    var open := Put(brand, " AND (");
    assert open.carry == ") AND (";
    PutClausesGaps(open, CleanCompetitors(input.competitors), CompetitorFields(input), j, g);
    assert brand.slots[f] == EmitCompetitors(input).slots[f];
    assert "" + ")" == ")" && ")" + "" == ")";
    hide Trim, Language, CleanCompetitors, BrandFields, CompetitorFields, PutFields, PutClauses, CompetitorPart, EmitBrand;
  }

  /** Without competitors the language, or the date clause, follows the brand's parentheses. */
  lemma GapsWithoutCompetitors(input: Input, f: nat)
    requires f < |BrandFields(input)| && CleanCompetitors(input.competitors) == []
    ensures var slots := EmitQuery(input).slots;
            && |slots| == |BrandFields(input)| + 1
            && slots[f].gap == (if f == 0 then "(" else " OR ") + (BrandFields(input)[f] + ":")
            && slots[|slots| - 1].gap
               == ")" + (if input.dateStart.Some? && input.dateEnd.Some?
                         then " AND " + ("date:[" + input.dateStart.value + " TO " + input.dateEnd.value + "]") else "")
                  + " AND language:"
  {
    BrandGaps(input, f);
    assert ")" + "" == ")";
    hide Trim, Language, BrandFields, CompetitorFields, PutFields, PutClauses, EmitBrand;
  }
}
