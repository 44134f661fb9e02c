/** The OpenSearch index resolver: which index patterns a date range and media types ask for. */
module Indices {
  import opened Calendar
  import opened Outcomes

  datatype MediaType =
    | Print | XTwitter | Reddit | YouTube | Blogs | Forums | Reviews | Facebook | TikTok | LinkedIn | Online

  /** Two instants in milliseconds since the epoch. */
  datatype DateRange = DateRange(start: int, end: int)

  const ALL_MEDIA_TYPES := [Print, XTwitter, Reddit, YouTube, Blogs, Forums, Reviews, Facebook, TikTok, LinkedIn, Online]

  function MediaTypeIndices(t: MediaType): seq<string> {
    match t
    case Print => ["amx-print*"]
    case XTwitter => ["amx-twitter*"]
    case Reddit => ["amx-reddit*"]
    case YouTube => ["amx-youtube*"]
    case Blogs => ["amx-webz-social*"]
    case Forums => ["amx-webz-social*"]
    case Reviews => ["amx-webz-social*"]
    case Facebook => ["amx-facebook*"]
    case TikTok => ["amx-tiktok*"]
    case LinkedIn => ["amx-linkedin*"]
    case Online => []
  }

  const OLD_OTHERS := "amx-data-old-others*"
  const DATA := "amx-data-"

  function MonthPattern(m: int): string {
    DATA + MonthText(m) + "*"
  }

  function DayPattern(day: int): string {
    DATA + DayText(day) + "*"
  }

  function MonthPatterns(m: int, n: nat): (r: seq<string>)
    ensures |r| == n && forall i :: 0 <= i < n ==> r[i] == MonthPattern(m + i)
  {
    seq(n, i => MonthPattern(m + i))
  }

  function DayPatterns(day: int, n: nat): (r: seq<string>)
    ensures |r| == n && forall i :: 0 <= i < n ==> r[i] == DayPattern(day + i)
  {
    seq(n, i => DayPattern(day + i))
  }

  /** Months from m to n, both included; 0 when they are reversed. */
  function MonthCount(m: int, n: int): nat {
    if n < m then 0 else n - m + 1
  }

  function AtMost36(n: nat): nat {
    if n < 36 then n else 36
  }

  /** Calendar months touched by the days from first to last. */
  function MonthSpan(first: int, last: int): nat {
    MonthCount(MonthOf(first), MonthOf(last))
  }

  /** The months the resolver counts, both ends being read with Date.UTC. */
  function ReadSpan(first: int, last: int): nat {
    MonthCount(UtcMonth(MonthOf(first)), UtcMonth(MonthOf(last)))
  }

  /** Day by day up to 28 days, month by month beyond, for at most 36 months. */
  function DatePatterns(first: int, last: int): seq<string> {
    var start, end := StartOfDay(first), StartOfDay(last);
    if end - start > 27 then MonthPatterns(UtcMonth(MonthOf(first)), AtMost36(ReadSpan(first, last)))
    else DayPatterns(start, if end < start then 0 else end - start + 1)
  }

  // ---------------------------------------------------------------------------------------
  // The loops
  // ---------------------------------------------------------------------------------------

  /** setUTCMonth(getUTCMonth() + 1) on the first day of a month. */
  lemma NextMonthStart(m: int)
    ensures MonthOf(FirstDay(m)) == m
  {
    MonthLength(m);
    MonthUnique(FirstDay(m), m);
  }

  lemma FirstDayOrder(m: int, n: int)
    ensures FirstDay(m) <= FirstDay(n) <==> m <= n
  {
    if m <= n {
      FirstDayMonotone(m, n);
    } else {
      FirstDayMonotone(n, m);
    }
  }

  /** The bounded month loop: the first days of the months it visits. */
  method VisitMonths(first: int, last: int) returns (months: seq<int>)
    ensures |months| == AtMost36(ReadSpan(first, last))
    ensures forall i :: 0 <= i < |months| ==> months[i] == FirstDay(UtcMonth(MonthOf(first)) + i)
  {
    hide MonthOf, UtcMonth;
    ghost var m, n := UtcMonth(MonthOf(first)), UtcMonth(MonthOf(last));
    var cursor, endMonth := FirstDay(UtcMonth(MonthOf(first))), FirstDay(UtcMonth(MonthOf(last)));
    var safety := 0;
    months := [];
    while cursor <= endMonth && safety < 36
      invariant 0 <= safety <= AtMost36(MonthCount(m, n)) && |months| == safety
      invariant cursor == FirstDay(m + safety)
      invariant forall i :: 0 <= i < |months| ==> months[i] == FirstDay(m + i)
      decreases 36 - safety
    {
      FirstDayOrder(m + safety, n);
      NextMonthStart(m + safety);
      months := months + [cursor];
      cursor := FirstDay(MonthOf(cursor) + 1);
      safety := safety + 1;
    }
    FirstDayOrder(m + safety, n);
  }

  method FormatMonths(months: seq<int>, m: int) returns (out: seq<string>)
    requires forall i :: 0 <= i < |months| ==> months[i] == FirstDay(m + i)
    ensures out == MonthPatterns(m, |months|)
  {
    hide FirstDay, MonthOf, MonthText;
    out := [];
    for i := 0 to |months|
      invariant out == MonthPatterns(m, i)
    {
      NextMonthStart(m + i);
      out := out + [DATA + MonthText(MonthOf(months[i])) + "*"];
    }
  }

  /** The bounded day loop: the cursor's date is set to the next one. The guard of 90 never ends it, since
      at most 28 days are asked for. */
  method VisitDays(first: int, last: int) returns (out: seq<string>)
    requires StartOfDay(last) - StartOfDay(first) <= 27
    ensures var start, end := StartOfDay(first), StartOfDay(last);
            out == DayPatterns(start, if end < start then 0 else end - start + 1)
  {
    hide FirstDay, MonthOf, DayText, StartOfDay;
    out := [];
    ghost var start := StartOfDay(first);
    var cursor, endDay, safety := StartOfDay(first), StartOfDay(last), 0;
    while cursor <= endDay && safety < 90
      invariant safety == cursor - start && (cursor <= endDay + 1 || cursor == start)
      invariant out == DayPatterns(start, safety)
      decreases 90 - safety
    {
      out := out + [DATA + DayText(cursor) + "*"];
      cursor := FirstDay(MonthOf(cursor)) + (DateOf(cursor) + 1) - 1;
      safety := safety + 1;
    }
  }

  /** Without a range everything; with one, the catch-all and the date patterns. */
  function DaywiseIndices(dateRange: Option<DateRange>): seq<string> {
    if dateRange.None? then ["amx-data-*"]
    else [OLD_OTHERS] + DatePatterns(Day(dateRange.value.start), Day(dateRange.value.end))
  }

  method GetDaywiseIndices(dateRange: Option<DateRange>) returns (out: seq<string>)
    ensures out == DaywiseIndices(dateRange)
  {
    hide FirstDay, MonthOf, DayPattern, MonthPattern, StartOfDay, UtcMonth;
    if dateRange.None? {
      return ["amx-data-*"];
    }
    out := [OLD_OTHERS];
    var first, last := Day(dateRange.value.start), Day(dateRange.value.end);
    var dated: seq<string>;
    var delta := StartOfDay(last) - StartOfDay(first);
    if delta > 27 {
      var months := VisitMonths(first, last);
      dated := FormatMonths(months, UtcMonth(MonthOf(first)));
    } else {
      dated := VisitDays(first, last);
    }
    out := out + dated;
  }

  function MonthwiseFor(m: int, online: bool, blogish: bool): seq<string> {
    (if online then ["amx-webz-firehose-" + MonthText(m) + "*", "amx-opoint-" + MonthText(m) + "*", "amx-webz-firehose-*-others"] else [])
    + (if blogish then ["amx-twingly-" + MonthText(m) + "*", "amx-twingly-old-others*"] else [])
  }

  /** The monthwise patterns of n months from m on, in the order they are pushed. */
  function MonthwisePatterns(m: int, n: nat, online: bool, blogish: bool): seq<string> {
    if n == 0 then [] else MonthwisePatterns(m, n - 1, online, blogish) + MonthwiseFor(m + n - 1, online, blogish)
  }

  function MonthwiseIndices(dateRange: Option<DateRange>, types: seq<MediaType>): seq<string> {
    if dateRange.None? then ["amx-data"]
    else
      var first, last := Day(dateRange.value.start), Day(dateRange.value.end);
      MonthwisePatterns(UtcMonth(MonthOf(first)), AtMost36(ReadSpan(first, last)),
                        Online in types, Blogs in types || Forums in types || Reviews in types)
  }

  function DatedIndices(dateRange: Option<DateRange>, types: seq<MediaType>, monthwise: bool): seq<string> {
    if monthwise then MonthwiseIndices(dateRange, types) else DaywiseIndices(dateRange)
  }

  method GetMonthwiseIndices(dateRange: Option<DateRange>, types: seq<MediaType>) returns (out: seq<string>)
    ensures out == MonthwiseIndices(dateRange, types)
  {
    hide FirstDay, MonthOf, MonthText, MonthwisePatterns, UtcMonth;
    if dateRange.None? {
      return ["amx-data"];
    }
    var online, blogish := Online in types, Blogs in types || Forums in types || Reviews in types;
    var first, last := Day(dateRange.value.start), Day(dateRange.value.end);
    var months := VisitMonths(first, last);
    out := FormatMonthwise(months, UtcMonth(MonthOf(first)), online, blogish);
  }

  method FormatMonthwise(months: seq<int>, m: int, online: bool, blogish: bool) returns (out: seq<string>)
    requires forall i :: 0 <= i < |months| ==> months[i] == FirstDay(m + i)
    ensures out == MonthwisePatterns(m, |months|, online, blogish)
  {
    hide FirstDay, MonthOf, MonthwiseFor;
    out := [];
    for i := 0 to |months|
      invariant out == MonthwisePatterns(m, i, online, blogish)
    {
      NextMonthStart(m + i);
      out := out + MonthwiseFor(MonthOf(months[i]), online, blogish);
    }
  }

  function TypesOf(mediaTypes: Option<seq<MediaType>>): seq<MediaType> {
    if mediaTypes.Some? && mediaTypes.value != [] then mediaTypes.value else ALL_MEDIA_TYPES
  }

  predicate Standalone(types: seq<MediaType>, ix: string) {
    exists k :: 0 <= k < |types| && ix in MediaTypeIndices(types[k])
  }

  /** What the resolver answers: the date patterns of the configured mode, and the standalone indices of
      every requested media type. */
  predicate Resolves(dateRange: Option<DateRange>, mediaTypes: Option<seq<MediaType>>, monthwise: bool, ix: string) {
    ix in DatedIndices(dateRange, TypesOf(mediaTypes), monthwise) || Standalone(TypesOf(mediaTypes), ix)
  }

  /** The resolver: the date patterns of the configured mode and the standalone indices of every
      requested media type (all of them when none is given), and nothing else. */
  method ResolveIndices(dateRange: Option<DateRange>, mediaTypes: Option<seq<MediaType>>, monthwise: bool)
    returns (out: set<string>)
    ensures forall ix :: ix in out <==> Resolves(dateRange, mediaTypes, monthwise, ix)
  {
    hide DaywiseIndices, MonthwiseIndices;
    var types := if mediaTypes.Some? && mediaTypes.value != [] then mediaTypes.value else ALL_MEDIA_TYPES;
    assert types == TypesOf(mediaTypes);
    var dated: seq<string>;
    if monthwise {
      dated := GetMonthwiseIndices(dateRange, types);
    } else {
      dated := GetDaywiseIndices(dateRange);
    }
    assert dated == DatedIndices(dateRange, types, monthwise);
    hide DatedIndices, MediaTypeIndices, TypesOf;
    out := set p | p in dated;
    for i := 0 to |types|
      invariant forall ix :: ix in out <==> ix in dated || Standalone(types[..i], ix)
    {
      StandaloneStep(types, i);
      out := out + set ix | ix in MediaTypeIndices(types[i]);
    }
    assert types[..|types|] == types;
    assert forall ix :: ix in out <==> ix in dated || Standalone(types, ix);
  }

  lemma StandaloneStep(types: seq<MediaType>, i: nat)
    requires i < |types|
    ensures forall ix :: Standalone(types[..i + 1], ix) <==> Standalone(types[..i], ix) || ix in MediaTypeIndices(types[i])
  {
    hide MediaTypeIndices;
    forall ix | ix in MediaTypeIndices(types[i]) ensures Standalone(types[..i + 1], ix) {
      assert types[..i + 1][i] == types[i];
    }
    forall ix | Standalone(types[..i], ix) ensures Standalone(types[..i + 1], ix) {
      var k :| 0 <= k < i && ix in MediaTypeIndices(types[..i][k]);
      assert types[..i + 1][k] == types[..i][k];
    }
    forall ix | Standalone(types[..i + 1], ix)
      ensures Standalone(types[..i], ix) || ix in MediaTypeIndices(types[i])
    {
      var k :| 0 <= k <= i && ix in MediaTypeIndices(types[..i + 1][k]);
      assert k < i ==> types[..i][k] == types[..i + 1][k];
    }
  }

  // ---------------------------------------------------------------------------------------
  // What a pattern matches
  // ---------------------------------------------------------------------------------------

  /** An index pattern, where a star stands for any text. */
  predicate Glob(pattern: string, name: string)
    decreases |pattern| + |name|
  {
    if pattern == [] then name == []
    else if pattern[0] == '*' then Glob(pattern[1..], name) || (name != [] && Glob(pattern, name[1..]))
    else name != [] && pattern[0] == name[0] && Glob(pattern[1..], name[1..])
  }

  predicate StarFree(s: string) {
    forall i :: 0 <= i < |s| ==> s[i] != '*'
  }

  lemma StarFreeAppend(a: string, b: string)
    requires StarFree(a) && DateChars(b)
    ensures StarFree(a + b)
  {
  }

  lemma {:induction false} StarMatchesAll(name: string)
    ensures Glob("*", name)
  {
    if name != [] {
      StarMatchesAll(name[1..]);
    } else {
      assert "*"[1..] == [];
    }
  }

  /** A pattern with only a trailing star matches exactly the names with its prefix. */
  lemma {:induction false} TrailingStar(prefix: string, name: string)
    requires StarFree(prefix)
    ensures Glob(prefix + "*", name) <==> prefix <= name
    decreases |prefix|
  {
    if prefix == [] {
      StarMatchesAll(name);
      assert prefix + "*" == "*";
    } else {
      assert (prefix + "*")[1..] == prefix[1..] + "*";
      if name != [] {
        TrailingStar(prefix[1..], name[1..]);
        assert prefix <= name <==> prefix[0] == name[0] && prefix[1..] <= name[1..] by {
          if prefix[0] == name[0] && prefix[1..] <= name[1..] {
            assert prefix == [prefix[0]] + prefix[1..] && name == [name[0]] + name[1..];
          }
        }
      }
    }
  }

  lemma TextStarFree(m: int, day: int)
    ensures StarFree(DATA + MonthText(m)) && StarFree(DATA + DayText(day))
  {
    hide MonthText, DayText;
    assert StarFree(DATA);
    StarFreeAppend(DATA, MonthText(m));
    StarFreeAppend(DATA, DayText(day));
  }

  lemma MonthPatternMatches(m: int, name: string)
    ensures Glob(MonthPattern(m), name) <==> DATA + MonthText(m) <= name
  {
    hide MonthText, Glob;
    TextStarFree(m, 0);
    TrailingStar(DATA + MonthText(m), name);
  }

  lemma DayPatternMatches(day: int, name: string)
    ensures Glob(DayPattern(day), name) <==> DATA + DayText(day) <= name
  {
    hide DayText, Glob;
    TextStarFree(0, day);
    TrailingStar(DATA + DayText(day), name);
  }

  /** The name of an index that holds a day's data, with whatever type suffix. */
  function DayIndex(day: int, suffix: string): string {
    DATA + DayText(day) + suffix
  }

  predicate Matched(patterns: seq<string>, name: string) {
    exists i :: 0 <= i < |patterns| && Glob(patterns[i], name)
  }

  /** A month pattern matches a day's bare index name only for a day of that month. */
  lemma MonthPatternTells(m: int, day: int)
    ensures Glob(MonthPattern(m), DayIndex(day, "")) <==> m == MonthOf(day)
  {
    hide FirstDay, MonthOf, DateOf, MonthText, DayText, Glob, MonthPattern;
    MonthPatternMatches(m, DayIndex(day, ""));
    assert DayIndex(day, "") == DATA + DayText(day);
    SamePrefix(DATA, MonthText(m), DayText(day));
    MonthTextTells(m, day);
  }

  lemma SamePrefix(a: string, b: string, c: string)
    ensures a + b <= a + c <==> b <= c
  {
    if a + b <= a + c {
      assert (a + c)[..|a + b|] == a + b;
      assert b == (a + b)[|a|..] == (a + c)[|a|..|a + b|] == c[..|b|];
    }
  }

  lemma DayInMonthMatches(day: int, suffix: string)
    ensures Glob(MonthPattern(MonthOf(day)), DayIndex(day, suffix))
    ensures Glob(DayPattern(day), DayIndex(day, suffix))
  {
    hide FirstDay, MonthOf, DateOf, MonthText, TwoDigits, Glob;
    MonthPatternMatches(MonthOf(day), DayIndex(day, suffix));
    DayPatternMatches(day, DayIndex(day, suffix));
    assert DayIndex(day, suffix) == DATA + MonthText(MonthOf(day)) + ("-" + TwoDigits(DateOf(day)) + suffix);
  }

  // ---------------------------------------------------------------------------------------
  // Coverage
  // ---------------------------------------------------------------------------------------

  /** Every day asked for is matched, whatever the suffix of its index. */
  ghost predicate Covers(first: int, last: int) {
    forall day, suffix :: first <= day <= last ==> Matched(DatePatterns(first, last), DayIndex(day, suffix))
  }

  lemma AmongMonths(m: int, n: nat, k: int, name: string)
    requires m <= k < m + n && Glob(MonthPattern(k), name)
    ensures Matched(MonthPatterns(m, n), name)
  {
    hide MonthPattern, Glob;
    assert MonthPatterns(m, n)[k - m] == MonthPattern(k);
  }

  lemma AmongDays(first: int, n: nat, day: int, name: string)
    requires first <= day < first + n && Glob(DayPattern(day), name)
    ensures Matched(DayPatterns(first, n), name)
  {
    hide DayPattern, Glob;
    assert DayPatterns(first, n)[day - first] == DayPattern(day);
  }

  lemma SomeMonth(m: int, n: nat, name: string) returns (k: int)
    requires Matched(MonthPatterns(m, n), name)
    ensures m <= k < m + n && Glob(MonthPattern(k), name)
  {
    hide MonthPattern, Glob;
    var i :| 0 <= i < n && Glob(MonthPatterns(m, n)[i], name);
    k := m + i;
  }

  lemma SomeDay(first: int, n: nat, name: string) returns (day: int)
    requires Matched(DayPatterns(first, n), name)
    ensures first <= day < first + n && Glob(DayPattern(day), name)
  {
    hide DayPattern, Glob;
    var i :| 0 <= i < n && Glob(DayPatterns(first, n)[i], name);
    day := first + i;
  }

  /** A day's pattern matches no more than the pattern of its month. */
  lemma MonthPatternWider(day: int, name: string)
    requires Glob(DayPattern(day), name)
    ensures Glob(MonthPattern(MonthOf(day)), name)
  {
    hide FirstDay, MonthOf, DateOf, MonthText, TwoDigits, Glob;
    DayPatternMatches(day, name);
    MonthPatternMatches(MonthOf(day), name);
    var shorter, longer := DATA + MonthText(MonthOf(day)), DATA + DayText(day);
    assert longer == shorter + ("-" + TwoDigits(DateOf(day)));
    assert shorter <= longer;
    assert longer <= name ==> name[..|longer|] == longer;
  }

  /** Whatever a day of a range is matched by, the range matches. */
  lemma RangeMatchesDay(first: int, last: int, day: int, name: string)
    requires first <= day <= last && MonthSpan(first, last) <= 36 && !TwoDigitYear(first)
    requires Glob(DayPattern(day), name)
    ensures Matched(DatePatterns(first, last), name)
  {
    hide FirstDay, MonthOf, MonthPattern, DayPattern, Glob, StartOfDay, UtcMonth, TwoDigitYear;
    StartsAsGiven(first);
    NeverEarlier(last);
    if StartOfDay(last) - first > 27 {
      MonthPatternWider(day, name);
      MonthMonotone(first, day);
      MonthMonotone(day, last);
      AmongMonths(MonthOf(first), AtMost36(ReadSpan(first, last)), MonthOf(day), name);
    } else {
      AmongDays(first, StartOfDay(last) - first + 1, day, name);
    }
  }

  /** Twenty-eight days lie in at most two months. */
  lemma ShortSpan(first: int, last: int)
    requires first <= last <= first + 27
    ensures MonthSpan(first, last) <= 2
  {
    hide MonthOf, FirstDay;
    MonthMonotone(first, last);
    if MonthOf(last) > MonthOf(first) + 1 {
      FirstDayMonotone(MonthOf(first) + 1, MonthOf(last));
    }
  }

  lemma MonthsMiss(m: int, n: nat, day: int)
    requires !(m <= MonthOf(day) < m + n)
    ensures !Matched(MonthPatterns(m, n), DayIndex(day, ""))
  {
    hide FirstDay, MonthOf, Glob, DayIndex, MonthPattern;
    if Matched(MonthPatterns(m, n), DayIndex(day, "")) {
      var k := SomeMonth(m, n, DayIndex(day, ""));
      MonthPatternTells(k, day);
    }
  }

  lemma DaysMiss(first: int, n: nat, day: int)
    requires MonthOf(day) < MonthOf(first)
    ensures !Matched(DayPatterns(first, n), DayIndex(day, ""))
  {
    hide FirstDay, MonthOf, Glob, DayIndex, MonthPattern, DayPattern;
    if Matched(DayPatterns(first, n), DayIndex(day, "")) {
      var d := SomeDay(first, n, DayIndex(day, ""));
      MonthPatternWider(d, DayIndex(day, ""));
      MonthPatternTells(MonthOf(d), day);
      MonthMonotone(first, d);
    }
  }

  /** From a start in the years 0 to 99 on, the patterns are about 1900 and later. */
  lemma NothingBefore1900(first: int, last: int, day: int)
    requires TwoDigitYear(first) && MonthOf(day) < M1900
    ensures !Matched(DatePatterns(first, last), DayIndex(day, ""))
  {
    hide FirstDay, MonthOf, StartOfDay, UtcMonth, DayIndex, Matched, MonthPattern, DayPattern;
    StartsInTheNineteens(first);
    TwoDigitMonth(first);
    NeverEarlier(first);
    var start, end := StartOfDay(first), StartOfDay(last);
    if end - start > 27 {
      MonthsMiss(UtcMonth(MonthOf(first)), AtMost36(ReadSpan(first, last)), day);
    } else {
      DaysMiss(start, if end < start then 0 else end - start + 1, day);
    }
  }

  /** Beyond 36 months the last day is lost, under the name the resolver would give it. */
  lemma NothingAfter36Months(first: int, last: int, day: int)
    requires StartOfDay(last) - StartOfDay(first) > 27
    requires MonthOf(day) >= UtcMonth(MonthOf(first)) + AtMost36(ReadSpan(first, last))
    ensures !Matched(DatePatterns(first, last), DayIndex(day, ""))
  {
    hide FirstDay, MonthOf, StartOfDay, UtcMonth, DayIndex, Matched, MonthPattern;
    MonthsMiss(UtcMonth(MonthOf(first)), AtMost36(ReadSpan(first, last)), day);
  }

  lemma LongSpanMisses(first: int, last: int)
    requires first <= last && !TwoDigitYear(first) && MonthSpan(first, last) > 36
    ensures !Matched(DatePatterns(first, last), DayIndex(last, ""))
  {
    hide FirstDay, MonthOf, StartOfDay, UtcMonth, DayIndex, Matched, DatePatterns, TwoDigitYear;
    StartsAsGiven(first);
    NeverEarlier(last);
    if last - first <= 27 {
      ShortSpan(first, last);
    }
    NothingAfter36Months(first, last, last);
  }

  /** Daywise patterns cover a range exactly when it spans at most 36 calendar months and does not start
      in the years 0 to 99; the 36-step guard is then never what ends the month loop. */
  lemma CoversIffWithin36Months(first: int, last: int)
    requires first <= last
    ensures Covers(first, last) <==> MonthSpan(first, last) <= 36 && !TwoDigitYear(first)
  {
    hide FirstDay, MonthOf, Matched, DayIndex, Glob, DayPattern, MonthPattern, DatePatterns, MonthSpan, TwoDigitYear;
    if MonthSpan(first, last) <= 36 && !TwoDigitYear(first) {
      forall day, suffix | first <= day <= last
        ensures Matched(DatePatterns(first, last), DayIndex(day, suffix))
      {
        DayInMonthMatches(day, suffix);
        RangeMatchesDay(first, last, day, DayIndex(day, suffix));
      }
    } else if TwoDigitYear(first) {
      TwoDigitMonth(first);
      NothingBefore1900(first, last, first);
      assert !Matched(DatePatterns(first, last), DayIndex(first, ""));
    } else {
      LongSpanMisses(first, last);
      assert !Matched(DatePatterns(first, last), DayIndex(last, ""));
    }
  }

  // ---------------------------------------------------------------------------------------
  // Nothing superfluous
  // ---------------------------------------------------------------------------------------

  /** The pattern matches the index of some day of the range. */
  ghost predicate Touches(pattern: string, first: int, last: int) {
    exists day :: first <= day <= last && Glob(pattern, DayIndex(day, ""))
  }

  ghost predicate AllTouch(first: int, last: int) {
    forall i :: 0 <= i < |DatePatterns(first, last)| ==> Touches(DatePatterns(first, last)[i], first, last)
  }

  /** Every month between the months of two days has a day between them. */
  lemma MonthTouches(first: int, last: int, m: int) returns (day: int)
    requires MonthOf(first) <= m <= MonthOf(last) && first <= last
    ensures first <= day <= last && MonthOf(day) == m
  {
    hide MonthOf, FirstDay;
    if m == MonthOf(first) {
      day := first;
    } else {
      day := FirstDay(m);
      NextMonthStart(m);
      FirstDayMonotone(MonthOf(first) + 1, m);
      FirstDayMonotone(m, MonthOf(last));
    }
  }

  lemma MonthPatternTouches(first: int, last: int, m: int)
    requires first <= last
    ensures Touches(MonthPattern(m), first, last) <==> MonthOf(first) <= m <= MonthOf(last)
  {
    hide FirstDay, MonthOf, MonthPattern, DayIndex, Glob;
    if Touches(MonthPattern(m), first, last) {
      var day :| first <= day <= last && Glob(MonthPattern(m), DayIndex(day, ""));
      MonthPatternTells(m, day);
      MonthMonotone(first, day);
      MonthMonotone(day, last);
    }
    if MonthOf(first) <= m <= MonthOf(last) {
      var day := MonthTouches(first, last, m);
      DayInMonthMatches(day, "");
    }
  }

  lemma DayPatternTouches(first: int, last: int, d: int)
    ensures first <= d <= last ==> Touches(DayPattern(d), first, last)
    ensures Touches(DayPattern(d), first, last) ==> MonthOf(first) <= MonthOf(d) <= MonthOf(last)
  {
    hide FirstDay, MonthOf, MonthPattern, DayPattern, DayIndex, Glob;
    DayInMonthMatches(d, "");
    if Touches(DayPattern(d), first, last) {
      var day :| first <= day <= last && Glob(DayPattern(d), DayIndex(day, ""));
      MonthPatternWider(d, DayIndex(day, ""));
      MonthPatternTells(MonthOf(d), day);
      MonthMonotone(first, day);
      MonthMonotone(day, last);
    }
  }

  lemma TouchesFromEnd(first: int, last: int, i: nat)
    requires first <= last && i < |DatePatterns(first, last)|
    requires !TwoDigitYear(last) || (!TwoDigitYear(first) && MonthSpan(first, last) >= 36)
    ensures Touches(DatePatterns(first, last)[i], first, last)
  {
    hide FirstDay, MonthOf, MonthPattern, DayPattern, Touches, StartOfDay, UtcMonth, TwoDigitYear;
    NeverEarlier(first);
    var start, end := StartOfDay(first), StartOfDay(last);
    if !TwoDigitYear(last) {
      StartsAsGiven(last);
    } else {
      StartsAsGiven(first);
      NeverEarlier(last);
      if last - first <= 27 {
        ShortSpan(first, last);
      }
    }
    if end - start > 27 {
      MonthPatternTouches(first, last, UtcMonth(MonthOf(first)) + i);
    } else {
      DayPatternTouches(first, last, start + i);
    }
  }

  /** From within the years 0 to 99, or past less than 36 months into them, some pattern is out of range. */
  lemma SomethingOutside(first: int, last: int) returns (i: nat)
    requires first <= last && TwoDigitYear(last) && (TwoDigitYear(first) || MonthSpan(first, last) < 36)
    ensures i < |DatePatterns(first, last)| && !Touches(DatePatterns(first, last)[i], first, last)
  {
    hide FirstDay, MonthOf, MonthPattern, DayPattern, Touches, StartOfDay, UtcMonth;
    TwoDigitMonth(first);
    TwoDigitMonth(last);
    NeverEarlier(first);
    StartsInTheNineteens(last);
    MonthMonotone(first, last);
    if TwoDigitYear(first) {
      i := 0;
      StartsInTheNineteens(first);
      StartsInOrder(first, last);
      MonthPatternTouches(first, last, UtcMonth(MonthOf(first)));
      DayPatternTouches(first, last, StartOfDay(first));
    } else {
      i := MonthSpan(first, last);
      StartsAsGiven(first);
      FirstDayMonotone(MonthOf(first) + 1, UtcMonth(MonthOf(last)));
      MonthPatternTouches(first, last, MonthOf(first) + i);
    }
  }

  /** Every date pattern has a day of the range behind it if and only if the range does not end in the
      years 0 to 99, or starts before them and spans 36 months or more. */
  lemma EveryPatternTouchesIff(first: int, last: int)
    requires first <= last
    ensures AllTouch(first, last)
            <==> !TwoDigitYear(last) || (!TwoDigitYear(first) && MonthSpan(first, last) >= 36)
  {
    hide DatePatterns, Touches, TwoDigitYear, MonthSpan;
    if !TwoDigitYear(last) || (!TwoDigitYear(first) && MonthSpan(first, last) >= 36) {
      forall i: nat | i < |DatePatterns(first, last)| ensures Touches(DatePatterns(first, last)[i], first, last) {
        TouchesFromEnd(first, last, i);
      }
    } else {
      var i := SomethingOutside(first, last);
    }
  }

  // ---------------------------------------------------------------------------------------
  // Widening
  // ---------------------------------------------------------------------------------------

  /** The range spans at most 36 months, Date.UTC moves both its ends or neither, and it does not end on
      February 29 of the year 0 while being resolved by months. */
  predicate Widens(first: int, last: int) {
    && MonthSpan(first, last) <= 36
    && (TwoDigitYear(first) <==> TwoDigitYear(last))
    && !(last == LEAP_DAY && last - first > 27)
  }

  /** What the resolver needs of how it reads two nested ranges. */
  predicate ReadsInside(first: int, last: int, first': int, last': int) {
    && StartOfDay(first') <= StartOfDay(first) <= StartOfDay(last) <= StartOfDay(last')
    && UtcMonth(MonthOf(first')) <= UtcMonth(MonthOf(first)) && UtcMonth(MonthOf(last)) <= UtcMonth(MonthOf(last'))
    && ReadSpan(first', last') <= 36
    && (StartOfDay(last') - StartOfDay(first') > 27 ==> MonthOf(StartOfDay(last')) == UtcMonth(MonthOf(last')))
  }

  lemma ReadsInsideHolds(first: int, last: int, first': int, last': int)
    requires first' <= first <= last <= last' && Widens(first', last')
    ensures ReadsInside(first, last, first', last')
  {
    hide FirstDay, MonthOf, StartOfDay, UtcMonth, TwoDigitYear;
    MonthMonotone(first', first);
    MonthMonotone(first, last);
    MonthMonotone(last, last');
    TwoDigitMonth(first');
    TwoDigitMonth(first);
    TwoDigitMonth(last);
    TwoDigitMonth(last');
    if TwoDigitYear(first') {
      StartsInOrder(first', first);
      StartsInOrder(first, last);
      StartsInOrder(last, last');
      StartsInTheNineteens(first');
      StartsInTheNineteens(last');
      if last' == LEAP_DAY {
        LeapDayDelta(first');
      }
    } else {
      StartsAsGiven(first');
      StartsAsGiven(first);
      StartsAsGiven(last);
      StartsAsGiven(last');
    }
  }

  /** Up to February 29 of the year 0 Date.UTC keeps distances. */
  lemma LeapDayDelta(first: int)
    requires first <= LEAP_DAY && TwoDigitYear(first)
    ensures StartOfDay(LEAP_DAY) - StartOfDay(first) == LEAP_DAY - first
  {
    hide MonthOf, FirstDay, DaysInMonth;
    TwoDigitMonth(first);
    LeapDayIs(LEAP_DAY);
    MonthMonotone(first, LEAP_DAY);
    UtcMonthIs(0);
    UtcMonthIs(1);
    MonthLength(0);
    MonthLength(M1900);
    SameLength(0);
  }

  lemma InsideIsMatched(first: int, last: int, first': int, last': int, name: string)
    requires ReadsInside(first, last, first', last') && Matched(DatePatterns(first, last), name)
    ensures Matched(DatePatterns(first', last'), name)
  {
    hide FirstDay, MonthOf, MonthPattern, DayPattern, Glob, StartOfDay, UtcMonth, Matched;
    var m', start', end' := UtcMonth(MonthOf(first')), StartOfDay(first'), StartOfDay(last');
    if StartOfDay(last) - StartOfDay(first) > 27 {
      var k := SomeMonth(UtcMonth(MonthOf(first)), AtMost36(ReadSpan(first, last)), name);
      AmongMonths(m', AtMost36(ReadSpan(first', last')), k, name);
    } else {
      var day := SomeDay(StartOfDay(first), StartOfDay(last) - StartOfDay(first) + 1, name);
      if end' - start' > 27 {
        MonthPatternWider(day, name);
        NeverEarlier(first');
        MonthMonotone(start', day);
        MonthMonotone(day, end');
        AmongMonths(m', AtMost36(ReadSpan(first', last')), MonthOf(day), name);
      } else {
        AmongDays(start', end' - start' + 1, day, name);
      }
    }
  }

  /** A day inside the range, its first of the year 100 or its last, that is looked for under the day
      `read`, while the range is not. */
  lemma WideningLoses(first: int, last: int) returns (day: int, read: int)
    requires first <= last && !Widens(first, last)
    ensures first <= day <= last
    ensures Matched(DatePatterns(day, day), DayIndex(read, "")) && !Matched(DatePatterns(first, last), DayIndex(read, ""))
  {
    hide FirstDay, MonthOf, DatePatterns, StartOfDay, UtcMonth, DayIndex, Matched, TwoDigitYear, MonthSpan;
    day := if TwoDigitYear(first) && !TwoDigitYear(last) then FirstDay(1200) else last;
    read := StartOfDay(day);
    OwnName(day);
    if TwoDigitYear(first) && !TwoDigitYear(last) {
      Year100Lies(first, last);
      NothingBefore1900(first, last, day);
    } else {
      EndIsBeyond(first, last);
      NothingAfter36Months(first, last, StartOfDay(last));
    }
  }

  lemma OwnName(day: int)
    ensures Matched(DatePatterns(day, day), DayIndex(StartOfDay(day), ""))
  {
    hide FirstDay, MonthOf, StartOfDay, UtcMonth, DayIndex, DayPattern, Matched;
    DayInMonthMatches(StartOfDay(day), "");
    AmongDays(StartOfDay(day), 1, StartOfDay(day), DayIndex(StartOfDay(day), ""));
  }

  lemma Year100Lies(first: int, last: int)
    requires first <= last && TwoDigitYear(first) && !TwoDigitYear(last)
    ensures first <= FirstDay(1200) <= last
    ensures MonthOf(FirstDay(1200)) == 1200 && StartOfDay(FirstDay(1200)) == FirstDay(1200)
  {
    hide FirstDay, MonthOf, StartOfDay;
    TwoDigitMonth(first);
    TwoDigitMonth(last);
    MonthMonotone(first, last);
    NextMonthStart(1200);
    TwoDigitMonth(FirstDay(1200));
    StartsAsGiven(FirstDay(1200));
    FirstDayMonotone(MonthOf(first) + 1, 1200);
    FirstDayMonotone(1200, MonthOf(last));
  }

  lemma EndIsBeyond(first: int, last: int)
    requires first <= last && !Widens(first, last) && !(TwoDigitYear(first) && !TwoDigitYear(last))
    ensures StartOfDay(last) - StartOfDay(first) > 27
    ensures MonthOf(StartOfDay(last)) >= UtcMonth(MonthOf(first)) + AtMost36(ReadSpan(first, last))
  {
    hide FirstDay, MonthOf, StartOfDay, UtcMonth, TwoDigitYear;
    TwoDigitMonth(first);
    TwoDigitMonth(last);
    NeverEarlier(last);
    MonthMonotone(first, last);
    LeapDayIs(last);
    if TwoDigitYear(last) {
      StartsInTheNineteens(last);
    }
    if TwoDigitYear(first) {
      StartsInTheNineteens(first);
      if MonthSpan(first, last) > 36 {
        FirstDayMonotone(UtcMonth(MonthOf(first)) + 1, UtcMonth(MonthOf(last)));
      } else {
        LeapDayDelta(first);
      }
    } else {
      StartsAsGiven(first);
      FirstDayMonotone(MonthOf(first) + 1, MonthOf(StartOfDay(last)));
    }
  }

  /** Widening a range to this one never loses a matched index name, also across the switch from days
      to months, if and only if `Widens` holds of it. */
  lemma WideningIff(first: int, last: int)
    requires first <= last
    ensures (forall f, l, name :: first <= f <= l <= last && Matched(DatePatterns(f, l), name) ==>
               Matched(DatePatterns(first, last), name))
            <==> Widens(first, last)
  {
    hide DatePatterns, Matched, Widens;
    if Widens(first, last) {
      forall f, l, name | first <= f <= l <= last && Matched(DatePatterns(f, l), name)
        ensures Matched(DatePatterns(first, last), name)
      {
        ReadsInsideHolds(f, l, first, last);
        InsideIsMatched(f, l, first, last, name);
      }
    } else {
      var day, read := WideningLoses(first, last);
    }
  }
}
