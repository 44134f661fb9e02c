/** Which indices are queried for a date range, and when a range is covered. */
module IndexCoverage {
  import opened Calendar
  import opened Outcomes
  import opened Indices

  const FIREHOSE := "amx-webz-firehose-"
  const OPOINT := "amx-opoint-"
  const TWINGLY := "amx-twingly-"

  /** Some pattern the resolver answers matches the name. */
  ghost predicate Queried(dateRange: Option<DateRange>, mediaTypes: Option<seq<MediaType>>, monthwise: bool, name: string) {
    exists ix :: Resolves(dateRange, mediaTypes, monthwise, ix) && Glob(ix, name)
  }

  // ---------------------------------------------------------------------------------------
  // Patterns that cannot match
  // ---------------------------------------------------------------------------------------

  /** Pattern and name differ at a position in front of which the pattern has no star. */
  predicate DiffersAt(pattern: string, name: string, i: nat) {
    && i < |pattern| && i < |name| && pattern[i] != name[i]
    && forall k :: 0 <= k <= i ==> pattern[k] != '*'
  }

  lemma {:induction false} NoMatch(pattern: string, name: string, i: nat)
    requires DiffersAt(pattern, name, i)
    ensures !Glob(pattern, name)
  {
    if i > 0 && pattern[0] == name[0] {
      NoMatch(pattern[1..], name[1..], i - 1);
    }
  }

  /** How the name of an index begins, platform by platform and family by family. */
  predicate IsStem(s: string) {
    || s == "amx-data" || s == FIREHOSE || s == OPOINT || s == TWINGLY
    || s == "amx-print" || s == "amx-twitter" || s == "amx-reddit" || s == "amx-youtube" || s == "amx-webz-social"
    || s == "amx-facebook" || s == "amx-tiktok" || s == "amx-linkedin"
  }

  lemma StemsDiffer(p: string, q: string) returns (i: nat)
    requires IsStem(p) && IsStem(q) && p != q
    ensures i < |p| && i < |q| && p[i] != q[i]
  {
    i := if p[4] != q[4] then 4 else if p[5] != q[5] then 5 else if p[7] != q[7] then 7 else 9;
  }

  lemma StemsAreStarFree(p: string)
    requires IsStem(p)
    ensures StarFree(p)
  {
  }

  /** A pattern and a name that begin differently do not match. */
  lemma Elsewhere(p: string, pattern: string, q: string, name: string)
    requires IsStem(p) && IsStem(q) && p != q && p <= pattern && q <= name
    ensures !Glob(pattern, name)
  {
    StemsAreStarFree(p);
    var i := StemsDiffer(p, q);
    hide IsStem, Glob;
    assert pattern[i] == p[i] && name[i] == q[i];
    forall k | 0 <= k <= i ensures pattern[k] != '*' {
      assert pattern[k] == p[k];
    }
    NoMatch(pattern, name, i);
  }

  /** The stem of a platform's standalone index. */
  function StemOf(t: MediaType): string {
    match t
    case Print => "amx-print"
    case XTwitter => "amx-twitter"
    case Reddit => "amx-reddit"
    case YouTube => "amx-youtube"
    case Blogs => "amx-webz-social"
    case Forums => "amx-webz-social"
    case Reviews => "amx-webz-social"
    case Facebook => "amx-facebook"
    case TikTok => "amx-tiktok"
    case LinkedIn => "amx-linkedin"
    case Online => ""
  }

  lemma StemIs(t: MediaType, ix: string)
    ensures ix in MediaTypeIndices(t) <==> t != Online && ix == StemOf(t) + "*"
    ensures t != Online ==> IsStem(StemOf(t)) && StemOf(t) != "amx-data" && StemOf(t) != FIREHOSE
                            && StemOf(t) != OPOINT && StemOf(t) != TWINGLY
  {
    match t
    case Print => assert "amx-print" + "*" == "amx-print*";
    case XTwitter => assert "amx-twitter" + "*" == "amx-twitter*";
    case Reddit => assert "amx-reddit" + "*" == "amx-reddit*";
    case YouTube => assert "amx-youtube" + "*" == "amx-youtube*";
    case Facebook => assert "amx-facebook" + "*" == "amx-facebook*";
    case TikTok => assert "amx-tiktok" + "*" == "amx-tiktok*";
    case LinkedIn => assert "amx-linkedin" + "*" == "amx-linkedin*";
    case _ => assert "amx-webz-social" + "*" == "amx-webz-social*";
  }

  /** Standalone indices hold neither daily nor monthly data. */
  lemma StandaloneElsewhere(t: MediaType, ix: string, stem: string, name: string)
    requires ix in MediaTypeIndices(t) && stem <= name
    requires stem == "amx-data" || stem == FIREHOSE || stem == OPOINT || stem == TWINGLY
    ensures !Glob(ix, name)
  {
    StemIs(t, ix);
    hide Glob, StemOf, MediaTypeIndices;
    assert StemOf(t) <= ix;
    Elsewhere(StemOf(t), ix, stem, name);
  }

  lemma DataStem()
    ensures "amx-data" <= DATA && "amx-data" <= OLD_OTHERS && "amx-data" <= "amx-data-*"
  {
  }

  lemma OthersElsewhere(prefix: string, others: string, text: string, name: string)
    requires prefix < others && others[|prefix|] == 'o' && StarFree(others[..|prefix|])
    requires text != [] && DateChars(text) && prefix + text <= name
    ensures !Glob(others, name)
  {
    assert name[|prefix|] == (prefix + text)[|prefix|] == text[0];
    forall k | 0 <= k < |prefix| ensures others[k] != '*' {
      assert others[..|prefix|][k] == others[k];
    }
    NoMatch(others, name, |prefix|);
  }

  lemma PrefixOfPrefix(a: string, b: string, c: string)
    requires a <= b <= c
    ensures a <= c
  {
    assert forall i :: 0 <= i < |a| ==> a[i] == b[i] == c[i];
  }

  // ---------------------------------------------------------------------------------------
  // Daywise
  // ---------------------------------------------------------------------------------------

  lemma DayIndexStarts(day: int, suffix: string)
    ensures DATA + DayText(day) <= DayIndex(day, suffix) && DATA <= DayIndex(day, suffix) && DayText(day) != []
  {
    hide MonthText, MonthOf, DateOf;
    assert DayIndex(day, suffix) == DATA + (DayText(day) + suffix);
  }

  lemma OldOthersElsewhere(day: int, suffix: string)
    ensures !Glob(OLD_OTHERS, DayIndex(day, suffix))
  {
    hide DayText, DayIndex, Glob;
    DayIndexStarts(day, suffix);
    assert OLD_OTHERS[..|DATA|] == DATA;
    OthersElsewhere(DATA, OLD_OTHERS, DayText(day), DayIndex(day, suffix));
  }

  /** For a day's index only the date patterns count. */
  lemma DayQueried(dateRange: DateRange, mediaTypes: Option<seq<MediaType>>, day: int, suffix: string)
    ensures Queried(Some(dateRange), mediaTypes, false, DayIndex(day, suffix))
            <==> Matched(DatePatterns(Day(dateRange.start), Day(dateRange.end)), DayIndex(day, suffix))
  {
    hide Glob, DayIndex, DatePatterns, Day, TypesOf, MediaTypeIndices;
    var name, dated := DayIndex(day, suffix), DatePatterns(Day(dateRange.start), Day(dateRange.end));
    if Matched(dated, name) {
      var i :| 0 <= i < |dated| && Glob(dated[i], name);
      assert ([OLD_OTHERS] + dated)[i + 1] == dated[i];
      assert Resolves(Some(dateRange), mediaTypes, false, dated[i]);
    }
    if Queried(Some(dateRange), mediaTypes, false, name) {
      var ix :| Resolves(Some(dateRange), mediaTypes, false, ix) && Glob(ix, name);
      DayIndexStarts(day, suffix);
      OldOthersElsewhere(day, suffix);
      if Standalone(TypesOf(mediaTypes), ix) {
        var k :| 0 <= k < |TypesOf(mediaTypes)| && ix in MediaTypeIndices(TypesOf(mediaTypes)[k]);
        DataStem();
        PrefixOfPrefix("amx-data", DATA, name);
        StandaloneElsewhere(TypesOf(mediaTypes)[k], ix, "amx-data", name);
      }
      assert ix in dated;
    }
  }

  /** Whatever media types are asked for, every daily index of the range is queried if and only if the
      range is empty, or spans at most 36 calendar months and does not start in the years 0 to 99. */
  lemma DaywiseCoversIff(dateRange: DateRange, mediaTypes: Option<seq<MediaType>>)
    ensures (forall day, suffix :: Day(dateRange.start) <= day <= Day(dateRange.end) ==>
               Queried(Some(dateRange), mediaTypes, false, DayIndex(day, suffix)))
            <==> Day(dateRange.end) < Day(dateRange.start)
                 || (MonthSpan(Day(dateRange.start), Day(dateRange.end)) <= 36 && !TwoDigitYear(Day(dateRange.start)))
  {
    hide Queried, Matched, DayIndex, DatePatterns, Day, MonthSpan, TwoDigitYear;
    forall day, suffix
      ensures Queried(Some(dateRange), mediaTypes, false, DayIndex(day, suffix))
              <==> Matched(DatePatterns(Day(dateRange.start), Day(dateRange.end)), DayIndex(day, suffix))
    {
      DayQueried(dateRange, mediaTypes, day, suffix);
    }
    if Day(dateRange.start) <= Day(dateRange.end) {
      CoversIffWithin36Months(Day(dateRange.start), Day(dateRange.end));
    }
  }

  /** January 5 of the year 26. */
  const DAY26: int := FirstDay(12 * 26) + 4

  /** A single day that is not queried: its index is looked for under the year 1926. */
  lemma Year26IsMissed(mediaTypes: Option<seq<MediaType>>)
    ensures DayIndex(DAY26, "") == "amx-data-26-01-05"
    ensures DatePatterns(DAY26, DAY26) == ["amx-data-1926-01-05*"]
    ensures !Queried(Some(DateRange(DAY26 * MS_PER_DAY, DAY26 * MS_PER_DAY)), mediaTypes, false, "amx-data-26-01-05")
  {
    var dateRange := DateRange(DAY26 * MS_PER_DAY, DAY26 * MS_PER_DAY);
    DayOf(DAY26);
    Year26Days();
    Year26Texts();
    hide FirstDay, MonthOf, DayText, Glob, StartOfDay, Matched, Queried;
    DayQueried(dateRange, mediaTypes, DAY26, "");
    NothingBefore1900(DAY26, DAY26, DAY26);
    assert "amx-data-" + "26-01-05" + "" == "amx-data-26-01-05";
    assert "amx-data-" + "1926-01-05" + "*" == "amx-data-1926-01-05*";
    assert DatePatterns(DAY26, DAY26) == [DayPattern(StartOfDay(DAY26))];
  }

  lemma DayOf(day: int)
    ensures Day(day * MS_PER_DAY) == day
  {
  }

  lemma Year26Days()
    ensures MonthOf(DAY26) == 12 * 26 && DateOf(DAY26) == 5 && TwoDigitYear(DAY26)
    ensures MonthOf(StartOfDay(DAY26)) == 12 * 1926 && DateOf(StartOfDay(DAY26)) == 5
  {
    hide FirstDay, MonthOf;
    MonthLength(12 * 26);
    MonthLength(12 * 1926);
    MonthUnique(DAY26, 12 * 26);
    UtcMonthIs(12 * 26);
    MonthUnique(StartOfDay(DAY26), 12 * 1926);
  }

  lemma Decimals()
    ensures Decimal(26) == "26" && Decimal(1926) == "1926"
    ensures TwoDigits(1) == "01" && TwoDigits(5) == "05"
  {
    assert Digit(0) == '0' && Digit(1) == '1' && Digit(2) == '2' && Digit(5) == '5' && Digit(6) == '6' && Digit(9) == '9';
    hide Digit;
    assert Decimal(2) == [Digit(2)] && Decimal(1) == [Digit(1)];
    assert Decimal(26) == Decimal(2) + [Digit(6)];
    assert Decimal(19) == Decimal(1) + [Digit(9)];
    assert Decimal(192) == Decimal(19) + [Digit(2)];
    assert Decimal(1926) == Decimal(192) + [Digit(6)];
  }

  lemma Year26Texts()
    ensures DayText(DAY26) == "26-01-05" && DayText(StartOfDay(DAY26)) == "1926-01-05"
  {
    Year26Days();
    Decimals();
    hide FirstDay, MonthOf, DateOf, StartOfDay, Decimal, TwoDigits;
    assert MonthText(12 * 26) == "26" + "-" + "01" == "26-01";
    assert MonthText(12 * 1926) == "1926" + "-" + "01" == "1926-01";
    hide MonthText;
    assert "26-01" + "-" + "05" == "26-01-05";
    assert "1926-01" + "-" + "05" == "1926-01-05";
  }

  // ---------------------------------------------------------------------------------------
  // Monthwise
  // ---------------------------------------------------------------------------------------

  predicate Blogish(types: seq<MediaType>) {
    Blogs in types || Forums in types || Reviews in types
  }

  /** The three monthly families and who asks for them. */
  predicate IsFamily(prefix: string, types: seq<MediaType>) {
    ((prefix == FIREHOSE || prefix == OPOINT) && Online in types) || (prefix == TWINGLY && Blogish(types))
  }

  lemma {:induction false} InMonthwise(m: int, n: nat, online: bool, blogish: bool, ix: string)
    ensures ix in MonthwisePatterns(m, n, online, blogish)
            <==> exists k :: m <= k < m + n && ix in MonthwiseFor(k, online, blogish)
  {
    hide MonthwiseFor;
    if n > 0 {
      InMonthwise(m, n - 1, online, blogish, ix);
    }
  }

  /** Which family a pattern of a month belongs to. */
  lemma MonthlyStem(k: int, online: bool, blogish: bool, ix: string) returns (stem: string)
    requires ix in MonthwiseFor(k, online, blogish)
    ensures stem <= ix
    ensures ((stem == FIREHOSE || stem == OPOINT) && online) || (stem == TWINGLY && blogish)
    ensures ix == stem + MonthText(k) + "*" || (stem == FIREHOSE && ix == FIREHOSE + "*-others")
            || (stem == TWINGLY && ix == TWINGLY + "old-others*")
  {
    hide MonthText;
    assert "amx-webz-firehose-*-others" == FIREHOSE + "*-others";
    assert "amx-twingly-old-others*" == TWINGLY + "old-others*";
    assert FIREHOSE + MonthText(k) + "*" == FIREHOSE + (MonthText(k) + "*");
    assert OPOINT + MonthText(k) + "*" == OPOINT + (MonthText(k) + "*");
    assert TWINGLY + MonthText(k) + "*" == TWINGLY + (MonthText(k) + "*");
    if online && ix == OPOINT + MonthText(k) + "*" {
      stem := OPOINT;
    } else if online && (ix == FIREHOSE + MonthText(k) + "*" || ix == "amx-webz-firehose-*-others") {
      stem := FIREHOSE;
    } else {
      stem := TWINGLY;
    }
  }

  /** Text behind the last star of a pattern ends every name it matches. */
  lemma {:induction false} GlobEnds(pattern: string, tail: string, name: string)
    requires Glob(pattern + tail, name) && StarFree(tail)
    ensures |tail| <= |name| && name[|name| - |tail|..] == tail
    ensures tail != [] ==> name != [] && name[|name| - 1] == tail[|tail| - 1]
    decreases |pattern| + |name|
  {
    if pattern == [] {
      assert pattern + tail == tail;
      PlainMatch(tail, name);
      assert name[0..] == name;
    } else {
      assert (pattern + tail)[1..] == pattern[1..] + tail;
      if pattern[0] == '*' && name != [] && Glob(pattern + tail, name[1..]) {
        GlobEnds(pattern, tail, name[1..]);
      } else if pattern[0] == '*' {
        GlobEnds(pattern[1..], tail, name);
      } else {
        GlobEnds(pattern[1..], tail, name[1..]);
      }
    }
  }

  lemma {:induction false} PlainMatch(pattern: string, name: string)
    requires StarFree(pattern)
    ensures Glob(pattern, name) <==> pattern == name
  {
    if pattern != [] && name != [] {
      PlainMatch(pattern[1..], name[1..]);
      assert pattern == [pattern[0]] + pattern[1..] && name == [name[0]] + name[1..];
    }
  }

  /** A star in the middle matches whatever stands there. */
  lemma {:induction false} StarInside(head: string, tail: string, middle: string)
    requires StarFree(head) && StarFree(tail)
    ensures Glob(head + "*" + tail, head + middle + tail)
    decreases |head| + |middle|
  {
    var pattern, name := head + "*" + tail, head + middle + tail;
    if head != [] {
      StarInside(head[1..], tail, middle);
      assert pattern[1..] == head[1..] + "*" + tail && name[1..] == head[1..] + middle + tail;
    } else if middle != [] {
      StarInside(head, tail, middle[1..]);
      assert name[1..] == head + middle[1..] + tail;
    } else {
      assert pattern[1..] == tail && name == tail;
      PlainMatch(tail, tail);
    }
  }

  /** Of the patterns of a month only the family's own can match the family's name for a day's month. */
  lemma FamilyTells(prefix: string, types: seq<MediaType>, k: int, day: int, ix: string)
    requires IsFamily(prefix, types) && ix in MonthwiseFor(k, Online in types, Blogish(types))
    requires Glob(ix, prefix + DayText(day))
    ensures k == MonthOf(day)
  {
    hide FirstDay, MonthOf, DateOf, MonthText, DayText, Glob, MonthwiseFor;
    var name := prefix + DayText(day);
    DayIndexStarts(day, "");
    var stem := MonthlyStem(k, Online in types, Blogish(types), ix);
    if stem != prefix {
      Elsewhere(stem, ix, prefix, name);
    } else if ix == prefix + MonthText(k) + "*" {
      StarFreeAppend(prefix, MonthText(k));
      TrailingStar(prefix + MonthText(k), name);
      SamePrefix(prefix, MonthText(k), DayText(day));
      MonthTextTells(k, day);
    } else {
      OthersAreElsewhere(prefix, DayText(day), ix);
    }
  }

  lemma OthersAreElsewhere(prefix: string, text: string, ix: string)
    requires (prefix == FIREHOSE && ix == FIREHOSE + "*-others") || (prefix == TWINGLY && ix == TWINGLY + "old-others*")
    requires text != [] && DateChars(text)
    ensures !Glob(ix, prefix + text)
  {
    hide Glob;
    var name := prefix + text;
    if prefix == TWINGLY {
      assert ix[..|TWINGLY|] == TWINGLY;
      OthersElsewhere(TWINGLY, ix, text, name);
    } else if Glob(ix, name) {
      assert ix == FIREHOSE + "*" + "-others";
      GlobEnds(FIREHOSE + "*", "-others", name);
    }
  }

  /** The months the resolver reads, up to the 36th, are queried, and no others. */
  lemma FamilyQueried(dateRange: DateRange, mediaTypes: Option<seq<MediaType>>, prefix: string, day: int)
    requires IsFamily(prefix, TypesOf(mediaTypes))
    requires Queried(Some(dateRange), mediaTypes, true, prefix + DayText(day))
    ensures var m := UtcMonth(MonthOf(Day(dateRange.start)));
            m <= MonthOf(day) < m + AtMost36(ReadSpan(Day(dateRange.start), Day(dateRange.end)))
  {
    hide Glob, DayText, Day, TypesOf, MediaTypeIndices, MonthOf, MonthwiseFor, UtcMonth;
    var name, types := prefix + DayText(day), TypesOf(mediaTypes);
    var ix :| Resolves(Some(dateRange), mediaTypes, true, ix) && Glob(ix, name);
    if Standalone(types, ix) {
      var k :| 0 <= k < |types| && ix in MediaTypeIndices(types[k]);
      StandaloneElsewhere(types[k], ix, prefix, name);
    }
    var m, n := UtcMonth(MonthOf(Day(dateRange.start))), AtMost36(ReadSpan(Day(dateRange.start), Day(dateRange.end)));
    InMonthwise(m, n, Online in types, Blogish(types), ix);
    var k :| m <= k < m + n && ix in MonthwiseFor(k, Online in types, Blogish(types));
    FamilyTells(prefix, types, k, day, ix);
  }

  lemma MonthQueried(dateRange: DateRange, mediaTypes: Option<seq<MediaType>>, prefix: string, k: int, suffix: string)
    requires IsFamily(prefix, TypesOf(mediaTypes))
    requires var m := UtcMonth(MonthOf(Day(dateRange.start)));
             m <= k < m + AtMost36(ReadSpan(Day(dateRange.start), Day(dateRange.end)))
    ensures Queried(Some(dateRange), mediaTypes, true, prefix + MonthText(k) + suffix)
  {
    hide Glob, MonthText, Day, TypesOf, MonthOf, UtcMonth;
    var types, ix := TypesOf(mediaTypes), prefix + MonthText(k) + "*";
    StarFreeAppend(prefix, MonthText(k));
    TrailingStar(prefix + MonthText(k), prefix + MonthText(k) + suffix);
    assert ix in MonthwiseFor(k, Online in types, Blogish(types));
    var m, n := UtcMonth(MonthOf(Day(dateRange.start))), AtMost36(ReadSpan(Day(dateRange.start), Day(dateRange.end)));
    InMonthwise(m, n, Online in types, Blogish(types), ix);
    assert Resolves(Some(dateRange), mediaTypes, true, ix);
  }

  lemma LastDayText(prefix: string, day: int) returns (suffix: string)
    ensures prefix + MonthText(MonthOf(day)) + suffix == prefix + DayText(day)
  {
    hide MonthText, MonthOf, DateOf, TwoDigits;
    suffix := "-" + TwoDigits(DateOf(day));
    assert DayText(day) == MonthText(MonthOf(day)) + suffix;
  }

  /** A month of the range with an index that is not queried. */
  lemma FamilyMissed(dateRange: DateRange, mediaTypes: Option<seq<MediaType>>, prefix: string)
    returns (k: int, suffix: string)
    requires IsFamily(prefix, TypesOf(mediaTypes))
    requires MonthOf(Day(dateRange.start)) <= MonthOf(Day(dateRange.end))
    requires MonthSpan(Day(dateRange.start), Day(dateRange.end)) > 36 || TwoDigitYear(Day(dateRange.start))
    ensures MonthOf(Day(dateRange.start)) <= k <= MonthOf(Day(dateRange.end))
    ensures !Queried(Some(dateRange), mediaTypes, true, prefix + MonthText(k) + suffix)
  {
    hide Queried, DayText, MonthText, Day, MonthOf, IsFamily, TypesOf, UtcMonth, StartOfDay, TwoDigitYear;
    var first, last := Day(dateRange.start), Day(dateRange.end);
    TwoDigitMonth(first);
    NeverEarlier(first);
    var day := if TwoDigitYear(first) then first else last;
    if TwoDigitYear(first) {
      StartsInTheNineteens(first);
    } else {
      StartsAsGiven(first);
    }
    k := MonthOf(day);
    suffix := LastDayText(prefix, day);
    if Queried(Some(dateRange), mediaTypes, true, prefix + DayText(day)) {
      FamilyQueried(dateRange, mediaTypes, prefix, day);
    }
  }

  /** In monthwise mode every monthly index of a family that is asked for is queried, for every month of
      the range, if and only if there is no such month, or the range spans at most 36 calendar months and
      does not start in the years 0 to 99. */
  lemma MonthwiseCoversIff(dateRange: DateRange, mediaTypes: Option<seq<MediaType>>, prefix: string)
    requires IsFamily(prefix, TypesOf(mediaTypes))
    ensures (forall k, suffix :: MonthOf(Day(dateRange.start)) <= k <= MonthOf(Day(dateRange.end)) ==>
               Queried(Some(dateRange), mediaTypes, true, prefix + MonthText(k) + suffix))
            <==> MonthOf(Day(dateRange.end)) < MonthOf(Day(dateRange.start))
                 || (MonthSpan(Day(dateRange.start), Day(dateRange.end)) <= 36 && !TwoDigitYear(Day(dateRange.start)))
  {
    hide Queried, DayText, MonthText, Day, MonthOf, IsFamily, TypesOf, UtcMonth, StartOfDay, TwoDigitYear;
    var first, last := Day(dateRange.start), Day(dateRange.end);
    if MonthOf(first) <= MonthOf(last) {
      if MonthSpan(first, last) <= 36 && !TwoDigitYear(first) {
        StartsAsGiven(first);
        NeverEarlier(last);
        forall k, suffix | MonthOf(first) <= k <= MonthOf(last)
          ensures Queried(Some(dateRange), mediaTypes, true, prefix + MonthText(k) + suffix)
        {
          MonthQueried(dateRange, mediaTypes, prefix, k, suffix);
        }
      } else {
        var k, suffix := FamilyMissed(dateRange, mediaTypes, prefix);
      }
    }
  }

  // ---------------------------------------------------------------------------------------
  // Widening
  // ---------------------------------------------------------------------------------------

  predicate Within(inner: DateRange, outer: DateRange) {
    Day(outer.start) <= Day(inner.start) <= Day(inner.end) <= Day(outer.end)
  }

  /** Whatever a range inside this one queries, this one queries. */
  ghost predicate KeepsInner(outer: DateRange, mediaTypes: Option<seq<MediaType>>, monthwise: bool) {
    forall inner, name :: Within(inner, outer) && Queried(Some(inner), mediaTypes, monthwise, name) ==>
      Queried(Some(outer), mediaTypes, monthwise, name)
  }

  lemma WideningDaywise(inner: DateRange, outer: DateRange, mediaTypes: Option<seq<MediaType>>, name: string)
    requires Within(inner, outer) && Widens(Day(outer.start), Day(outer.end))
    requires Queried(Some(inner), mediaTypes, false, name)
    ensures Queried(Some(outer), mediaTypes, false, name)
  {
    hide Glob, DatePatterns, Day, Widens, ReadsInside, TypesOf, Standalone;
    var ix :| Resolves(Some(inner), mediaTypes, false, ix) && Glob(ix, name);
    var dated := DatePatterns(Day(inner.start), Day(inner.end));
    if ix in dated {
      var i :| 0 <= i < |dated| && dated[i] == ix;
      ReadsInsideHolds(Day(inner.start), Day(inner.end), Day(outer.start), Day(outer.end));
      InsideIsMatched(Day(inner.start), Day(inner.end), Day(outer.start), Day(outer.end), name);
      var wide := DatePatterns(Day(outer.start), Day(outer.end));
      var j :| 0 <= j < |wide| && Glob(wide[j], name);
      assert ([OLD_OTHERS] + wide)[j + 1] == wide[j];
      assert Resolves(Some(outer), mediaTypes, false, wide[j]);
    } else {
      assert ([OLD_OTHERS] + DatePatterns(Day(outer.start), Day(outer.end)))[0] == OLD_OTHERS;
      assert Resolves(Some(outer), mediaTypes, false, ix);
    }
  }

  function OneDay(day: int): (r: DateRange)
    ensures Day(r.start) == Day(r.end) == day
  {
    DayOf(day);
    DateRange(day * MS_PER_DAY, day * MS_PER_DAY)
  }

  /** In daywise mode a range queries every index any range inside it does if and only if it spans at most
      36 calendar months, both or neither of its ends lie in the years 0 to 99, and it does not end on
      February 29 of the year 0 after more than 27 days. */
  lemma DaywiseKeepsIff(outer: DateRange, mediaTypes: Option<seq<MediaType>>)
    requires Day(outer.start) <= Day(outer.end)
    ensures KeepsInner(outer, mediaTypes, false) <==> Widens(Day(outer.start), Day(outer.end))
  {
    hide Queried, Day, DatePatterns, Matched, Widens, DayIndex;
    if Widens(Day(outer.start), Day(outer.end)) {
      forall inner, name | Within(inner, outer) && Queried(Some(inner), mediaTypes, false, name)
        ensures Queried(Some(outer), mediaTypes, false, name)
      {
        WideningDaywise(inner, outer, mediaTypes, name);
      }
    } else {
      var day, read := WideningLoses(Day(outer.start), Day(outer.end));
      DayQueried(OneDay(day), mediaTypes, read, "");
      DayQueried(outer, mediaTypes, read, "");
      assert Within(OneDay(day), outer);
    }
  }

  lemma WideningMonthwise(inner: DateRange, outer: DateRange, mediaTypes: Option<seq<MediaType>>, name: string)
    requires Within(inner, outer) && MonthSpan(Day(outer.start), Day(outer.end)) <= 36
    requires TwoDigitYear(Day(outer.start)) <==> TwoDigitYear(Day(outer.end))
    requires Queried(Some(inner), mediaTypes, true, name)
    ensures Queried(Some(outer), mediaTypes, true, name)
  {
    hide Glob, Day, MonthOf, TypesOf, Standalone, MonthwiseFor;
    var types := TypesOf(mediaTypes);
    var ix :| Resolves(Some(inner), mediaTypes, true, ix) && Glob(ix, name);
    MonthMonotone(Day(outer.start), Day(inner.start));
    MonthMonotone(Day(inner.start), Day(inner.end));
    MonthMonotone(Day(inner.end), Day(outer.end));
    UtcMonthIs(MonthOf(Day(outer.start)));
    UtcMonthIs(MonthOf(Day(inner.start)));
    UtcMonthIs(MonthOf(Day(inner.end)));
    UtcMonthIs(MonthOf(Day(outer.end)));
    hide UtcMonth;
    InMonthwise(UtcMonth(MonthOf(Day(inner.start))), AtMost36(ReadSpan(Day(inner.start), Day(inner.end))),
                Online in types, Blogish(types), ix);
    InMonthwise(UtcMonth(MonthOf(Day(outer.start))), AtMost36(ReadSpan(Day(outer.start), Day(outer.end))),
                Online in types, Blogish(types), ix);
    assert Resolves(Some(outer), mediaTypes, true, ix);
  }

  /** A day of the range whose month, as the resolver reads it, is not among the range's. */
  lemma MonthLost(first: int, last: int) returns (day: int)
    requires first <= last
    requires MonthSpan(first, last) > 36 || !(TwoDigitYear(first) <==> TwoDigitYear(last))
    ensures first <= day <= last
    ensures var m := UtcMonth(MonthOf(first)); !(m <= UtcMonth(MonthOf(day)) < m + AtMost36(ReadSpan(first, last)))
  {
    hide MonthOf, FirstDay, StartOfDay;
    UtcMonthIs(MonthOf(first));
    UtcMonthIs(MonthOf(last));
    TwoDigitMonth(first);
    TwoDigitMonth(last);
    MonthMonotone(first, last);
    if TwoDigitYear(first) && !TwoDigitYear(last) {
      day := FirstDay(1200);
      Year100Lies(first, last);
      UtcMonthIs(1200);
    } else {
      day := last;
    }
  }

  /** In monthwise mode, where one of the families is asked for, the same holds without the last
      condition. */
  lemma MonthwiseKeepsIff(outer: DateRange, mediaTypes: Option<seq<MediaType>>, prefix: string)
    requires Day(outer.start) <= Day(outer.end) && IsFamily(prefix, TypesOf(mediaTypes))
    ensures KeepsInner(outer, mediaTypes, true)
            <==> MonthSpan(Day(outer.start), Day(outer.end)) <= 36
                 && (TwoDigitYear(Day(outer.start)) <==> TwoDigitYear(Day(outer.end)))
  {
    hide Queried, Day, MonthOf, FirstDay, MonthText, DayText, UtcMonth, TwoDigitYear, MonthSpan, IsFamily, TypesOf;
    if MonthSpan(Day(outer.start), Day(outer.end)) <= 36
       && (TwoDigitYear(Day(outer.start)) <==> TwoDigitYear(Day(outer.end)))
    {
      forall inner, name | Within(inner, outer) && Queried(Some(inner), mediaTypes, true, name)
        ensures Queried(Some(outer), mediaTypes, true, name)
      {
        WideningMonthwise(inner, outer, mediaTypes, name);
      }
    } else {
      var day := MonthLost(Day(outer.start), Day(outer.end));
      var k := UtcMonth(MonthOf(day));
      NextMonthStart(k);
      var suffix := LastDayText(prefix, FirstDay(k));
      OwnMonth(day);
      MonthQueried(OneDay(day), mediaTypes, prefix, k, suffix);
      if Queried(Some(outer), mediaTypes, true, prefix + DayText(FirstDay(k))) {
        FamilyQueried(outer, mediaTypes, prefix, FirstDay(k));
        assert false;
      }
      assert Within(OneDay(day), outer);
    }
  }

  lemma OwnMonth(day: int)
    ensures ReadSpan(day, day) == 1
  {
  }

  // ---------------------------------------------------------------------------------------
  // Platforms
  // ---------------------------------------------------------------------------------------

  /** The media type is asked for: by name, or because none is named. */
  predicate Asked(mediaTypes: Option<seq<MediaType>>, t: MediaType) {
    mediaTypes.None? || mediaTypes.value == [] || t in mediaTypes.value
  }

  lemma AskedAreTypes(mediaTypes: Option<seq<MediaType>>, t: MediaType)
    ensures t in TypesOf(mediaTypes) <==> Asked(mediaTypes, t)
  {
    match t
    case Print => assert ALL_MEDIA_TYPES[0] == t;
    case XTwitter => assert ALL_MEDIA_TYPES[1] == t;
    case Reddit => assert ALL_MEDIA_TYPES[2] == t;
    case YouTube => assert ALL_MEDIA_TYPES[3] == t;
    case Blogs => assert ALL_MEDIA_TYPES[4] == t;
    case Forums => assert ALL_MEDIA_TYPES[5] == t;
    case Reviews => assert ALL_MEDIA_TYPES[6] == t;
    case Facebook => assert ALL_MEDIA_TYPES[7] == t;
    case TikTok => assert ALL_MEDIA_TYPES[8] == t;
    case LinkedIn => assert ALL_MEDIA_TYPES[9] == t;
    case Online => assert ALL_MEDIA_TYPES[10] == t;
  }

  /** The dated patterns begin like daily or monthly data. */
  lemma DatedStem(dateRange: Option<DateRange>, types: seq<MediaType>, monthwise: bool, ix: string) returns (stem: string)
    requires ix in DatedIndices(dateRange, types, monthwise)
    ensures stem <= ix && (stem == "amx-data" || (monthwise && dateRange.Some?))
    ensures stem == "amx-data" ==> !monthwise || dateRange.None?
    ensures stem == "amx-data" || ((stem == FIREHOSE || stem == OPOINT) && Online in types)
            || (stem == TWINGLY && Blogish(types))
    ensures stem != "amx-data" ==> ReadSpan(Day(dateRange.value.start), Day(dateRange.value.end)) > 0
  {
    hide MonthOf, UtcMonth, Day, MonthText, DayText;
    if monthwise && dateRange.Some? {
      var first, last := Day(dateRange.value.start), Day(dateRange.value.end);
      InMonthwise(UtcMonth(MonthOf(first)), AtMost36(ReadSpan(first, last)), Online in types, Blogish(types), ix);
      hide MonthwiseFor;
      var k :| UtcMonth(MonthOf(first)) <= k < UtcMonth(MonthOf(first)) + AtMost36(ReadSpan(first, last))
               && ix in MonthwiseFor(k, Online in types, Blogish(types));
      stem := MonthlyStem(k, Online in types, Blogish(types), ix);
    } else {
      stem := "amx-data";
      DataStem();
      if dateRange.Some? && ix != OLD_OTHERS {
        DatePatternStem(Day(dateRange.value.start), Day(dateRange.value.end), ix);
      }
    }
  }

  lemma DatePatternStem(first: int, last: int, ix: string)
    requires ix in DatePatterns(first, last)
    ensures "amx-data" <= ix
  {
    hide MonthOf, UtcMonth, StartOfDay, MonthText, DayText;
    var patterns := DatePatterns(first, last);
    var i :| 0 <= i < |patterns| && patterns[i] == ix;
    DataStem();
    var text := if StartOfDay(last) - StartOfDay(first) > 27 then MonthText(UtcMonth(MonthOf(first)) + i)
                else DayText(StartOfDay(first) + i);
    assert ix == DATA + (text + "*");
    PrefixOfPrefix("amx-data", DATA, ix);
  }

  /** A platform's own index is queried exactly when a type with that platform's stem is asked for. */
  lemma StemQueried(dateRange: Option<DateRange>, mediaTypes: Option<seq<MediaType>>, monthwise: bool, stem: string, suffix: string)
    requires IsStem(stem) && stem != "amx-data" && stem != FIREHOSE && stem != OPOINT && stem != TWINGLY
    ensures Queried(dateRange, mediaTypes, monthwise, stem + suffix)
            <==> exists t :: t in TypesOf(mediaTypes) && t != Online && StemOf(t) == stem
  {
    hide Glob, TypesOf, MediaTypeIndices, StemOf, DatedIndices, IsStem;
    var name, types := stem + suffix, TypesOf(mediaTypes);
    StemsAreStarFree(stem);
    if t :| t in types && t != Online && StemOf(t) == stem {
      StemIs(t, stem + "*");
      TrailingStar(stem, name);
      var k :| 0 <= k < |types| && types[k] == t;
      assert Standalone(types, stem + "*");
      assert Resolves(dateRange, mediaTypes, monthwise, stem + "*");
    }
    if Queried(dateRange, mediaTypes, monthwise, name) {
      var ix :| Resolves(dateRange, mediaTypes, monthwise, ix) && Glob(ix, name);
      if ix in DatedIndices(dateRange, types, monthwise) {
        var other := DatedStem(dateRange, types, monthwise, ix);
        FamiliesAreStems();
        Elsewhere(other, ix, stem, name);
      }
      var k :| 0 <= k < |types| && ix in MediaTypeIndices(types[k]);
      StemIs(types[k], ix);
      if StemOf(types[k]) != stem {
        Elsewhere(StemOf(types[k]), ix, stem, name);
      }
    }
  }

  lemma FamiliesAreStems()
    ensures IsStem("amx-data") && IsStem(FIREHOSE) && IsStem(OPOINT) && IsStem(TWINGLY)
  {
  }

  /** In every mode, with or without a range: the indices of a platform are queried if and only if its
      media type is asked for; the three social types share one family of indices. */
  lemma PlatformsAreQueried(dateRange: Option<DateRange>, mediaTypes: Option<seq<MediaType>>, monthwise: bool, suffix: string)
    ensures Queried(dateRange, mediaTypes, monthwise, "amx-print" + suffix) <==> Asked(mediaTypes, Print)
    ensures Queried(dateRange, mediaTypes, monthwise, "amx-twitter" + suffix) <==> Asked(mediaTypes, XTwitter)
    ensures Queried(dateRange, mediaTypes, monthwise, "amx-reddit" + suffix) <==> Asked(mediaTypes, Reddit)
    ensures Queried(dateRange, mediaTypes, monthwise, "amx-youtube" + suffix) <==> Asked(mediaTypes, YouTube)
    ensures Queried(dateRange, mediaTypes, monthwise, "amx-facebook" + suffix) <==> Asked(mediaTypes, Facebook)
    ensures Queried(dateRange, mediaTypes, monthwise, "amx-tiktok" + suffix) <==> Asked(mediaTypes, TikTok)
    ensures Queried(dateRange, mediaTypes, monthwise, "amx-linkedin" + suffix) <==> Asked(mediaTypes, LinkedIn)
    ensures Queried(dateRange, mediaTypes, monthwise, "amx-webz-social" + suffix)
            <==> Asked(mediaTypes, Blogs) || Asked(mediaTypes, Forums) || Asked(mediaTypes, Reviews)
  {
    hide Queried, TypesOf, Asked;
    OnePlatform(dateRange, mediaTypes, monthwise, "amx-print", suffix, Print);
    OnePlatform(dateRange, mediaTypes, monthwise, "amx-twitter", suffix, XTwitter);
    OnePlatform(dateRange, mediaTypes, monthwise, "amx-reddit", suffix, Reddit);
    OnePlatform(dateRange, mediaTypes, monthwise, "amx-youtube", suffix, YouTube);
    OnePlatform(dateRange, mediaTypes, monthwise, "amx-facebook", suffix, Facebook);
    OnePlatform(dateRange, mediaTypes, monthwise, "amx-tiktok", suffix, TikTok);
    OnePlatform(dateRange, mediaTypes, monthwise, "amx-linkedin", suffix, LinkedIn);
    SocialQueried(dateRange, mediaTypes, monthwise, suffix);
    hide *;
  }

  lemma SocialQueried(dateRange: Option<DateRange>, mediaTypes: Option<seq<MediaType>>, monthwise: bool, suffix: string)
    ensures Queried(dateRange, mediaTypes, monthwise, "amx-webz-social" + suffix)
            <==> Asked(mediaTypes, Blogs) || Asked(mediaTypes, Forums) || Asked(mediaTypes, Reviews)
  {
    SocialStem();
    StemIs(Blogs, "");
    hide Queried, TypesOf, Asked, StemOf, MediaTypeIndices;
    StemQueried(dateRange, mediaTypes, monthwise, "amx-webz-social", suffix);
    AskedAreTypes(mediaTypes, Blogs);
    AskedAreTypes(mediaTypes, Forums);
    AskedAreTypes(mediaTypes, Reviews);
  }

  lemma SocialStem()
    ensures forall t: MediaType :: t != Online ==> (StemOf(t) == "amx-webz-social" <==> t == Blogs || t == Forums || t == Reviews)
  {
  }

  lemma StemTells(t: MediaType, u: MediaType)
    requires t != Online && u != Online && StemOf(t) == StemOf(u)
    ensures t == u || StemOf(t) == "amx-webz-social"
  {
  }

  lemma OnePlatform(dateRange: Option<DateRange>, mediaTypes: Option<seq<MediaType>>, monthwise: bool, stem: string,
      suffix: string, t: MediaType)
    requires t != Online && stem == StemOf(t) && stem != "amx-webz-social"
    ensures Queried(dateRange, mediaTypes, monthwise, stem + suffix) <==> Asked(mediaTypes, t)
  {
    StemIs(t, "");
    AskedAreTypes(mediaTypes, t);
    hide Queried, TypesOf, Asked, StemOf, MediaTypeIndices;
    StemQueried(dateRange, mediaTypes, monthwise, stem, suffix);
    forall u | u in TypesOf(mediaTypes) && u != Online && StemOf(u) == stem ensures u == t {
      StemTells(u, t);
    }
  }

  // ---------------------------------------------------------------------------------------
  // Modes
  // ---------------------------------------------------------------------------------------

  /** A family's indices are only queried in monthwise mode, for a range with a month in it, and if asked for. */
  lemma FamilyOnlyIfAsked(dateRange: Option<DateRange>, mediaTypes: Option<seq<MediaType>>, monthwise: bool, prefix: string, rest: string)
    requires prefix == FIREHOSE || prefix == OPOINT || prefix == TWINGLY
    requires Queried(dateRange, mediaTypes, monthwise, prefix + rest)
    ensures monthwise && dateRange.Some? && ReadSpan(Day(dateRange.value.start), Day(dateRange.value.end)) > 0
    ensures IsFamily(prefix, TypesOf(mediaTypes))
  {
    hide Glob, TypesOf, MediaTypeIndices, DatedIndices, Day, ReadSpan, IsStem;
    var name, types := prefix + rest, TypesOf(mediaTypes);
    var ix :| Resolves(dateRange, mediaTypes, monthwise, ix) && Glob(ix, name);
    if Standalone(types, ix) {
      var k :| 0 <= k < |types| && ix in MediaTypeIndices(types[k]);
      StandaloneElsewhere(types[k], ix, prefix, name);
    }
    var stem := DatedStem(dateRange, types, monthwise, ix);
    FamiliesAreStems();
    if stem != prefix {
      Elsewhere(stem, ix, prefix, name);
    }
  }

  /** Some month of the range is visited. */
  lemma FirstMonthVisited(dateRange: DateRange, types: seq<MediaType>, ix: string)
    requires ReadSpan(Day(dateRange.start), Day(dateRange.end)) > 0
    requires ix in MonthwiseFor(UtcMonth(MonthOf(Day(dateRange.start))), Online in types, Blogish(types))
    ensures ix in DatedIndices(Some(dateRange), types, true)
  {
    hide MonthwiseFor, MonthOf, UtcMonth, Day;
    var first, last := Day(dateRange.start), Day(dateRange.end);
    InMonthwise(UtcMonth(MonthOf(first)), AtMost36(ReadSpan(first, last)), Online in types, Blogish(types), ix);
  }

  /** In monthwise mode the indices outside the monthly families' months, the firehose's and twingly's
      "others", are queried exactly when their family is asked for and the range has a month in it. */
  lemma OthersAreQueried(dateRange: DateRange, mediaTypes: Option<seq<MediaType>>, x: string)
    ensures Queried(Some(dateRange), mediaTypes, true, FIREHOSE + (x + "-others"))
            <==> Asked(mediaTypes, Online) && ReadSpan(Day(dateRange.start), Day(dateRange.end)) > 0
    ensures Queried(Some(dateRange), mediaTypes, true, TWINGLY + ("old-others" + x))
            <==> (Asked(mediaTypes, Blogs) || Asked(mediaTypes, Forums) || Asked(mediaTypes, Reviews))
                 && ReadSpan(Day(dateRange.start), Day(dateRange.end)) > 0
  {
    AskedAreTypes(mediaTypes, Online);
    AskedAreTypes(mediaTypes, Blogs);
    AskedAreTypes(mediaTypes, Forums);
    AskedAreTypes(mediaTypes, Reviews);
    OthersMatch(x);
    var types, k := TypesOf(mediaTypes), UtcMonth(MonthOf(Day(dateRange.start)));
    OthersListed(k, Online in types, Blogish(types));
    hide Asked, TypesOf, Glob, MonthwiseFor, DatedIndices, ReadSpan, Day, MonthOf, UtcMonth;
    if ReadSpan(Day(dateRange.start), Day(dateRange.end)) > 0 {
      if Online in types {
        FirstMonthVisited(dateRange, types, FIREHOSE + "*-others");
        assert Resolves(Some(dateRange), mediaTypes, true, FIREHOSE + "*-others");
      }
      if Blogish(types) {
        FirstMonthVisited(dateRange, types, TWINGLY + "old-others*");
        assert Resolves(Some(dateRange), mediaTypes, true, TWINGLY + "old-others*");
      }
    }
    if Queried(Some(dateRange), mediaTypes, true, FIREHOSE + (x + "-others")) {
      FamilyOnlyIfAsked(Some(dateRange), mediaTypes, true, FIREHOSE, x + "-others");
    }
    if Queried(Some(dateRange), mediaTypes, true, TWINGLY + ("old-others" + x)) {
      FamilyOnlyIfAsked(Some(dateRange), mediaTypes, true, TWINGLY, "old-others" + x);
    }
  }

  lemma OthersListed(k: int, online: bool, blogish: bool)
    ensures online ==> FIREHOSE + "*-others" in MonthwiseFor(k, online, blogish)
    ensures blogish ==> TWINGLY + "old-others*" in MonthwiseFor(k, online, blogish)
  {
    hide MonthText;
    assert FIREHOSE + "*-others" == "amx-webz-firehose-*-others";
    assert TWINGLY + "old-others*" == "amx-twingly-old-others*";
    if online {
      assert MonthwiseFor(k, online, blogish)[2] == "amx-webz-firehose-*-others";
    }
    if blogish {
      var list := MonthwiseFor(k, online, blogish);
      assert list[|list| - 1] == "amx-twingly-old-others*";
    }
  }

  lemma OthersMatch(x: string)
    ensures Glob(FIREHOSE + "*-others", FIREHOSE + (x + "-others"))
    ensures Glob(TWINGLY + "old-others*", TWINGLY + ("old-others" + x))
  {
    hide Glob;
    StarInside(FIREHOSE, "-others", x);
    assert FIREHOSE + "*" + "-others" == FIREHOSE + "*-others";
    assert FIREHOSE + x + "-others" == FIREHOSE + (x + "-others");
    var head := TWINGLY + "old-others";
    TrailingStar(head, TWINGLY + ("old-others" + x));
    assert head + "*" == TWINGLY + "old-others*";
    assert TWINGLY + ("old-others" + x) == head + x;
  }

  /** Daily data: in daywise mode everything without a range, and the old archive always; in monthwise mode
      nothing but the index `amx-data` itself, and that only without a range. */
  lemma DailyDataByMode(dateRange: Option<DateRange>, mediaTypes: Option<seq<MediaType>>, x: string)
    ensures Queried(None, mediaTypes, false, DATA + x)
    ensures Queried(dateRange, mediaTypes, false, "amx-data-old-others" + x)
    ensures Queried(dateRange, mediaTypes, true, "amx-data" + x) <==> dateRange.None? && x == ""
  {
    hide Glob, TypesOf, MediaTypeIndices;
    StarMatchesAll(x);
    TrailingStar(DATA, DATA + x);
    assert DATA + "*" == "amx-data-*";
    assert Resolves(None, mediaTypes, false, "amx-data-*");
    OldOthersQueried(dateRange, mediaTypes, x);
    PlainData(x);
    if dateRange.None? {
      assert Resolves(None, mediaTypes, true, "amx-data");
    }
    if Queried(dateRange, mediaTypes, true, "amx-data" + x) {
      OnlyPlainData(dateRange, mediaTypes, x);
    }
  }

  lemma PlainData(x: string)
    ensures Glob("amx-data", "amx-data" + x) <==> x == ""
  {
    PlainMatch("amx-data", "amx-data" + x);
    assert x == "" ==> "amx-data" + x == "amx-data";
    assert |"amx-data" + x| == 8 + |x|;
  }

  lemma OldOthersQueried(dateRange: Option<DateRange>, mediaTypes: Option<seq<MediaType>>, x: string)
    ensures Queried(dateRange, mediaTypes, false, "amx-data-old-others" + x)
  {
    hide Glob, DatePatterns, TypesOf;
    var name := "amx-data-old-others" + x;
    if dateRange.Some? {
      TrailingStar("amx-data-old-others", name);
      assert "amx-data-old-others" + "*" == OLD_OTHERS;
      assert ([OLD_OTHERS] + DatePatterns(Day(dateRange.value.start), Day(dateRange.value.end)))[0] == OLD_OTHERS;
      assert Resolves(dateRange, mediaTypes, false, OLD_OTHERS);
    } else {
      TrailingStar(DATA, name);
      assert DATA + "*" == "amx-data-*" && name == DATA + ("old-others" + x);
      assert Resolves(None, mediaTypes, false, "amx-data-*");
    }
  }

  lemma OnlyPlainData(dateRange: Option<DateRange>, mediaTypes: Option<seq<MediaType>>, x: string)
    requires Queried(dateRange, mediaTypes, true, "amx-data" + x)
    ensures dateRange.None? && x == ""
  {
    hide Glob, TypesOf, MediaTypeIndices, IsStem;
    var name, types := "amx-data" + x, TypesOf(mediaTypes);
    var ix :| Resolves(dateRange, mediaTypes, true, ix) && Glob(ix, name);
    if Standalone(types, ix) {
      var k :| 0 <= k < |types| && ix in MediaTypeIndices(types[k]);
      StandaloneElsewhere(types[k], ix, "amx-data", name);
    }
    var stem := DatedStem(dateRange, types, true, ix);
    FamiliesAreStems();
    if stem != "amx-data" {
      Elsewhere(stem, ix, "amx-data", name);
    }
    PlainData(x);
  }

  // ---------------------------------------------------------------------------------------
  // Exactly which days and months
  // ---------------------------------------------------------------------------------------

  /** A day's pattern matches the bare index name of no other day. */
  lemma DayPatternTells(d: int, day: int)
    ensures Glob(DayPattern(d), DayIndex(day, "")) <==> d == day
  {
    hide FirstDay, MonthOf, MonthText, Glob, DayPattern;
    DayPatternMatches(d, DayIndex(day, ""));
    assert DayIndex(day, "") == DATA + DayText(day);
    SamePrefix(DATA, DayText(d), DayText(day));
    if DayText(d) <= DayText(day) {
      var rest := "-" + TwoDigits(DateOf(d));
      assert DayText(d) == MonthText(MonthOf(d)) + rest;
      assert MonthText(MonthOf(d)) <= DayText(d);
      assert MonthText(MonthOf(d)) <= DayText(day);
      MonthTextTells(MonthOf(d), day);
      SamePrefix(MonthText(MonthOf(day)) + "-", TwoDigits(DateOf(d)), TwoDigits(DateOf(day)));
      TwoDigitsInjective(DateOf(d), DateOf(day));
    }
  }

  /** The days a range asks for: those between the two ends as Date.UTC reads them, or, for more than 28
      days, those of the months from the first to the last one, up to the 36th. */
  predicate AsksFor(first: int, last: int, day: int) {
    if StartOfDay(last) - StartOfDay(first) > 27
    then UtcMonth(MonthOf(first)) <= MonthOf(day) <= UtcMonth(MonthOf(last))
         && MonthOf(day) < UtcMonth(MonthOf(first)) + 36
    else StartOfDay(first) <= day <= StartOfDay(last)
  }

  lemma DatesMatchExactly(first: int, last: int, day: int)
    ensures Matched(DatePatterns(first, last), DayIndex(day, "")) <==> AsksFor(first, last, day)
  {
    hide FirstDay, MonthOf, StartOfDay, UtcMonth, DayIndex, Matched, MonthPattern, DayPattern, Glob;
    var start, end := StartOfDay(first), StartOfDay(last);
    var name, m, k := DayIndex(day, ""), UtcMonth(MonthOf(first)), AtMost36(ReadSpan(first, last));
    if end - start > 27 {
      if m <= MonthOf(day) < m + k {
        DayInMonthMatches(day, "");
        AmongMonths(m, k, MonthOf(day), name);
      } else {
        MonthsMiss(m, k, day);
      }
    } else {
      var n := if end < start then 0 else end - start + 1;
      if start <= day <= end {
        DayInMonthMatches(day, "");
        AmongDays(start, n, day, name);
      } else if Matched(DayPatterns(start, n), name) {
        var d := SomeDay(start, n, name);
        DayPatternTells(d, day);
      }
    }
  }

  /** In daywise mode, whatever media types are asked for, a day's bare index is queried if and only if the
      range asks for the day. */
  lemma DaywiseReachesExactly(dateRange: DateRange, mediaTypes: Option<seq<MediaType>>, day: int)
    ensures Queried(Some(dateRange), mediaTypes, false, DayIndex(day, ""))
            <==> AsksFor(Day(dateRange.start), Day(dateRange.end), day)
  {
    hide Queried, Matched, DayIndex, DatePatterns, Day, AsksFor;
    DayQueried(dateRange, mediaTypes, day, "");
    DatesMatchExactly(Day(dateRange.start), Day(dateRange.end), day);
  }

  /** In monthwise mode a day's index of a family that is asked for is queried if and only if its month is
      among the first 36 of those from the first to the last one, as Date.UTC reads them. */
  lemma MonthwiseReachesExactly(dateRange: DateRange, mediaTypes: Option<seq<MediaType>>, prefix: string, day: int)
    requires IsFamily(prefix, TypesOf(mediaTypes))
    ensures var m, n := UtcMonth(MonthOf(Day(dateRange.start))), UtcMonth(MonthOf(Day(dateRange.end)));
            Queried(Some(dateRange), mediaTypes, true, prefix + DayText(day)) <==> m <= MonthOf(day) <= n && MonthOf(day) < m + 36
  {
    hide Queried, Day, DayText, MonthText, MonthOf, UtcMonth, IsFamily;
    var m, n := UtcMonth(MonthOf(Day(dateRange.start))), UtcMonth(MonthOf(Day(dateRange.end)));
    if Queried(Some(dateRange), mediaTypes, true, prefix + DayText(day)) {
      FamilyQueried(dateRange, mediaTypes, prefix, day);
    }
    if m <= MonthOf(day) <= n && MonthOf(day) < m + 36 {
      var suffix := LastDayText(prefix, day);
      MonthQueried(dateRange, mediaTypes, prefix, MonthOf(day), suffix);
    }
  }
}
