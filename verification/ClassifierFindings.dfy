/** The prober's whole answer, field by field, in terms of the sample articles and of what is set. */
module ClassifierFindings {
  import Calendar
  import opened Outcomes
  import opened Sums
  import opened Ranking
  import opened SampleClassifier
  import opened ClassifierTheorems

  // ---------------------------------------------------------------------------------------
  // What articles contribute
  // ---------------------------------------------------------------------------------------

  function Occurrences<T(==)>(f: Article -> seq<T>, x: T): Article -> int {
    (a: Article) => multiset(f(a))[x]
  }

  /** What is gathered is counted article by article, and tokens, languages, media types and dates are the
      article's own, an empty language standing for English. */
  lemma {:induction false} GatheredCounts<T>(articles: seq<Article>, f: Article -> seq<T>, x: T)
    ensures multiset(Gather(articles, f))[x] == Sum(articles, Occurrences(f, x))
  {
    if articles != [] {
      GatheredCounts(articles[..|articles| - 1], f, x);
    }
  }

  lemma ArticleGives(a: Article)
    ensures TokensOf()(a) == a.tokens
    ensures LanguageOf()(a) == [if a.language == "" then "en" else a.language]
    ensures MediaOf()(a) == (match a.mediaType case Some(m) => [m] case None => [])
    ensures PublishedDates()(a) == (match a.publishedDate case Some(d) => [d] case None => [])
  {
  }

  function Samples(a: Article, openSearchOnly: bool): Source -> int {
    (s: Source) => if s.isOpenSearch || !openSearchOnly then multiset(s.sampleArticles)[a] else 0
  }

  /** The pool holds every source's articles, the media pool those of the OpenSearch sources. */
  lemma {:induction false} PoolsCount(sources: seq<Source>, a: Article)
    ensures multiset(AllArticles(sources))[a] == Sum(sources, Samples(a, false))
    ensures multiset(OpenSearchArticles(sources))[a] == Sum(sources, Samples(a, true))
  {
    if sources != [] {
      PoolsCount(sources[..|sources| - 1], a);
    }
  }

  predicate Dated(articles: seq<Article>, d: int) {
    exists k :: 0 <= k < |articles| && articles[k].publishedDate == Some(d)
  }

  /** lo and hi are the dates of an earliest and of a latest dated article. */
  predicate Extremes(articles: seq<Article>, lo: int, hi: int) {
    && Dated(articles, lo) && Dated(articles, hi)
    && forall k :: 0 <= k < |articles| && articles[k].publishedDate.Some? ==> lo <= articles[k].publishedDate.value <= hi
  }

  lemma {:induction false} GatheredDates(articles: seq<Article>, d: int)
    ensures d in Gather(articles, PublishedDates()) <==> Dated(articles, d)
  {
    if articles != [] {
      var n := |articles| - 1;
      GatheredDates(articles[..n], d);
      if Dated(articles, d) {
        var k :| 0 <= k < |articles| && articles[k].publishedDate == Some(d);
        assert k < n ==> articles[..n][k].publishedDate == Some(d);
      }
      if Dated(articles[..n], d) {
        var k :| 0 <= k < n && articles[..n][k].publishedDate == Some(d);
        assert articles[k].publishedDate == Some(d);
      }
    }
  }

  lemma BoundsAreExtremes(articles: seq<Article>)
    ensures var b := DateBounds(Gather(articles, PublishedDates()));
            && (b.None? <==> forall d :: !Dated(articles, d))
            && (b.Some? ==> Extremes(articles, b.value.min, b.value.max))
  {
    var dates := Gather(articles, PublishedDates());
    BoundsBound(dates);
    forall d ensures d in dates <==> Dated(articles, d) {
      GatheredDates(articles, d);
    }
    hide DateBounds, Gather;
    if dates != [] {
      assert Dated(articles, dates[0]);
      forall k | 0 <= k < |articles| && articles[k].publishedDate.Some? ensures articles[k].publishedDate.value in dates {
        assert Dated(articles, articles[k].publishedDate.value);
      }
    }
  }

  lemma ExtremesUnique(articles: seq<Article>, lo: int, hi: int, lo': int, hi': int)
    requires Extremes(articles, lo, hi) && Extremes(articles, lo', hi')
    ensures lo == lo' && hi == hi' && lo <= hi
  {
  }

  lemma DayOrder(lo: int, hi: int)
    requires lo <= hi
    ensures Calendar.Day(lo) <= Calendar.Day(hi)
    ensures (hi - lo) / Calendar.MS_PER_DAY <= 60 <==> hi - lo < 61 * 86_400_000
  {
  }

  /** The first and last day of the dated articles, or none. */
  ghost predicate DaysOfSample(articles: seq<Article>, days: Option<(int, int)>) {
    && (days.None? <==> forall d :: !Dated(articles, d))
    && (days.Some? ==>
          days.value.0 <= days.value.1
          && exists lo, hi :: Extremes(articles, lo, hi) && days.value == (Calendar.Day(lo), Calendar.Day(hi)))
  }

  lemma DaysAreOfSample(articles: seq<Article>)
    ensures DaysOfSample(articles, DaysOf(DateBounds(Gather(articles, PublishedDates()))))
  {
    BoundsAreExtremes(articles);
    var b := DateBounds(Gather(articles, PublishedDates()));
    hide DateBounds, Gather, Calendar.Day, Dated;
    if b.Some? {
      ExtremesUnique(articles, b.value.min, b.value.max, b.value.min, b.value.max);
      DayOrder(b.value.min, b.value.max);
      assert Extremes(articles, b.value.min, b.value.max)
             && DaysOf(b).value == (Calendar.Day(b.value.min), Calendar.Day(b.value.max));
    }
  }

  // ---------------------------------------------------------------------------------------
  // Dates
  // ---------------------------------------------------------------------------------------

  /** Some article is dated and all dates lie within less than 61 days. */
  ghost predicate ShortSpan(articles: seq<Article>) {
    exists lo, hi :: Extremes(articles, lo, hi) && hi - lo < 61 * 86_400_000
  }

  lemma ShortSpanIs(articles: seq<Article>)
    ensures var b := DateBounds(Gather(articles, PublishedDates()));
            ShortSpan(articles) <==> b.Some? && SpanDays(b.value) <= SHORT_DATE_RANGE_DAYS
  {
    BoundsAreExtremes(articles);
    var b := DateBounds(Gather(articles, PublishedDates()));
    hide DateBounds, Gather;
    if b.Some? {
      ExtremesUnique(articles, b.value.min, b.value.max, b.value.min, b.value.max);
      DayOrder(b.value.min, b.value.max);
      if lo, hi :| Extremes(articles, lo, hi) && hi - lo < 61 * 86_400_000 {
        ExtremesUnique(articles, lo, hi, b.value.min, b.value.max);
      }
    }
  }

  lemma DateConfidenceIs(total: nat)
    ensures DateConfidence(total) == if total >= 25 then 0.9 else 0.5 + 0.4 * (total as real / 25.0)
    ensures 0.5 <= DateConfidence(total) <= 0.9
  {
  }

  /** Dates are inferred exactly when none are set and the dated articles, if any, lie within 60 full
      days; they are then the days of an earliest and of a latest article. */
  lemma DatesAreInferred(sources: seq<Source>, existing: Existing, less: Less)
    ensures var all, dates := AllArticles(sources), Classified(sources, existing, less).inferred.dates;
            && (dates.Some? <==> !existing.dates && ShortSpan(all))
            && (dates.Some? ==> DaysOfSample(all, dates))
  {
    var all := AllArticles(sources);
    ShortSpanIs(all);
    DaysAreOfSample(all);
    DateConfidenceIs(|all|);
    hide DateBounds, Gather, SpanDays, DaysOf, DateConfidence, DaysOfSample, AllArticles, CountEntities, LanguageRanking,
         RankingOf, OpenSearchArticles, Findings, InferredBrand, MentionsOf, StatsOf, SortProbes;
  }

  /** The confidence in the dates, when none are set and there is some article. */
  lemma DateConfidences(sources: seq<Source>, existing: Existing, less: Less)
    requires !existing.dates && AllArticles(sources) != []
    ensures var all, c := AllArticles(sources), Classified(sources, existing, less).confidence.dateRange;
            c == if forall d :: !Dated(all, d) then 0.0
                 else if !ShortSpan(all) then 0.3
                 else if |all| >= 25 then 0.9
                 else 0.5 + 0.4 * (|all| as real / 25.0)
  {
    var all := AllArticles(sources);
    ShortSpanIs(all);
    BoundsAreExtremes(all);
    DateConfidenceIs(|all|);
    hide DateBounds, Gather, SpanDays, DaysOf, DateConfidence, Extremes, Dated, ShortSpan, AllArticles, CountEntities,
         LanguageRanking, RankingOf, OpenSearchArticles, BrandFinding, CompetitorFinding, LanguageFinding, MediaFinding,
         AskFinding, InferredBrand, MentionsOf, StatsOf, SortProbes, ProbesOf;
  }

  // ---------------------------------------------------------------------------------------
  // Probes
  // ---------------------------------------------------------------------------------------

  /** The probes of a field in a result. */
  predicate Asks(r: ProbingResult, p: Probe) {
    p in r.probes
  }

  lemma AskedByFinding(sources: seq<Source>, existing: Existing, less: Less, p: Probe)
    requires AllArticles(sources) != []
    ensures var f := Findings(EvidenceOf(sources, less), existing);
            Asks(Classified(sources, existing, less), p)
            <==> p in f[0].probe || p in f[1].probe || p in f[2].probe || p in f[3].probe || p in f[4].probe
                 || p in f[5].probe || p in f[6].probe
  {
    var f := Findings(EvidenceOf(sources, less), existing);
    SortedLowestFirst(ProbesOf(f), ConfidencesOf(f));
    hide Findings, EvidenceOf, SortProbes, AllArticles, StatsOf;
    assert p in ProbesOf(f) <==> p in multiset(ProbesOf(f));
    assert p in SortProbes(ProbesOf(f), ConfidencesOf(f)) <==> p in multiset(SortProbes(ProbesOf(f), ConfidencesOf(f)));
  }

  /** Every finding asks about its own field only. */
  lemma FindingsKeepToTheirFields(e: Evidence, existing: Existing, p: Probe)
    requires e.total > 0
    ensures var f := Findings(e, existing);
            && (p in f[0].probe ==> p.field == Brand) && (p in f[1].probe ==> p.field == Competitors)
            && (p in f[2].probe ==> p.field == DateRange) && (p in f[3].probe ==> p.field == Language)
            && (p in f[4].probe ==> p.field == MediaTypes) && (p in f[5].probe ==> p.field == Intention)
            && (p in f[6].probe ==> p.field == EnrichmentType)
  {
    hide Share, DateConfidence, SpanDays, InferredBrand, CompetitorCandidates, UpTo;
  }

  /** The chips are the ranked terms from one rank up to another, with their counts. */
  predicate ShowsRanks(chips: seq<Chip>, ranked: seq<Counted>, from: nat, to: nat)
    requires from <= to
  {
    && |chips| == (if |ranked| <= from then 0 else if |ranked| <= to then |ranked| - from else to - from)
    && forall i :: 0 <= i < |chips| ==> chips[i] == Chip(ranked[from + i].term, Some(ranked[from + i].count))
  }

  lemma ChipsShowRanks(ranked: seq<Counted>, from: nat, to: nat)
    requires from <= to
    ensures ShowsRanks(Chips(UpTo(ranked, from, to)), ranked, from, to)
  {
  }

  lemma ShownOnce(chips: seq<Chip>, chips': seq<Chip>, ranked: seq<Counted>, from: nat, to: nat)
    requires from <= to && ShowsRanks(chips, ranked, from, to) && ShowsRanks(chips', ranked, from, to)
    ensures chips == chips'
  {
  }

  /** Dates are asked for exactly when none are set and the articles span too long, with four ranges. */
  lemma DateProbe(sources: seq<Source>, existing: Existing, less: Less, p: Probe)
    requires AllArticles(sources) != [] && p.field == DateRange
    ensures Asks(Classified(sources, existing, less), p)
            <==> !existing.dates && (exists d :: Dated(AllArticles(sources), d)) && !ShortSpan(AllArticles(sources))
                 && !p.allowFreeText
                 && p.chips == [Chip("last_7_days", None), Chip("last_30_days", None), Chip("last_90_days", None),
                                Chip("full_range", None)]
  {
    var all := AllArticles(sources);
    AskedByFinding(sources, existing, less, p);
    FindingsKeepToTheirFields(EvidenceOf(sources, less), existing, p);
    ShortSpanIs(all);
    BoundsAreExtremes(all);
    hide DateBounds, Gather, SpanDays, DateConfidence, Extremes, Dated, ShortSpan, AllArticles, CountEntities,
         LanguageRanking, RankingOf, OpenSearchArticles, BrandFinding, CompetitorFinding, LanguageFinding, MediaFinding,
         AskFinding, InferredBrand, Classified, Asks;
  }

  /** Intention and enrichment type are asked for exactly when they are not set. */
  lemma ChoiceProbes(sources: seq<Source>, existing: Existing, less: Less, p: Probe)
    requires AllArticles(sources) != []
    ensures p.field == Intention ==>
              (Asks(Classified(sources, existing, less), p)
               <==> !existing.intention && !p.allowFreeText
                    && p.chips == [Chip("intention_based", None), Chip("comment_based", None)])
    ensures p.field == EnrichmentType ==>
              (Asks(Classified(sources, existing, less), p)
               <==> !existing.enrichmentType && !p.allowFreeText
                    && p.chips == [Chip("standard", None), Chip("reach", None)])
    ensures Classified(sources, existing, less).confidence.intention == if existing.intention then 1.0 else 0.0
    ensures Classified(sources, existing, less).confidence.enrichmentType == if existing.enrichmentType then 1.0 else 0.0
  {
    ChoiceConfidences(sources, existing, less);
    AskedByFinding(sources, existing, less, p);
    FindingsKeepToTheirFields(EvidenceOf(sources, less), existing, p);
    hide EvidenceOf, AllArticles, BrandFinding, CompetitorFinding, LanguageFinding, MediaFinding, DateFinding,
         InferredBrand, Classified, Asks;
  }

  lemma ChoiceConfidences(sources: seq<Source>, existing: Existing, less: Less)
    requires AllArticles(sources) != []
    ensures Classified(sources, existing, less).confidence.intention == if existing.intention then 1.0 else 0.0
    ensures Classified(sources, existing, less).confidence.enrichmentType == if existing.enrichmentType then 1.0 else 0.0
  {
    hide EvidenceOf, AllArticles, BrandFinding, CompetitorFinding, LanguageFinding, MediaFinding, DateFinding,
         InferredBrand, InferredDates, MentionsOf, StatsOf, SortProbes, ProbesOf;
  }

  // ---------------------------------------------------------------------------------------
  // The order of the probes
  // ---------------------------------------------------------------------------------------

  /** The order in which the fields are looked at. */
  function Place(f: Field): nat {
    match f
    case Brand => 0
    case Competitors => 1
    case DateRange => 2
    case Language => 3
    case MediaTypes => 4
    case Intention => 5
    case EnrichmentType => 6
  }

  /** p has less confidence, or the same and comes first. */
  predicate Precedes(p: Probe, q: Probe, c: Confidence) {
    || ConfidenceOf(c, p.field) < ConfidenceOf(c, q.field)
    || (ConfidenceOf(c, p.field) == ConfidenceOf(c, q.field) && Place(p.field) < Place(q.field))
  }

  predicate InOrder(probes: seq<Probe>, c: Confidence) {
    forall i, j :: 0 <= i < j < |probes| ==> Precedes(probes[i], probes[j], c)
  }

  predicate PlacedBelow(probes: seq<Probe>, k: nat) {
    forall i :: 0 <= i < |probes| ==> Place(probes[i].field) < k
  }

  predicate AsPushed(probes: seq<Probe>) {
    forall i, j :: 0 <= i < j < |probes| ==> Place(probes[i].field) < Place(probes[j].field)
  }

  lemma {:induction false} InsertInOrder(p: Probe, sorted: seq<Probe>, c: Confidence)
    requires InOrder(sorted, c) && PlacedBelow(sorted, Place(p.field))
    ensures InOrder(InsertProbe(p, sorted, c), c)
    ensures forall x :: x in InsertProbe(p, sorted, c) ==> x == p || x in sorted
  {
    if sorted != [] {
      hide ConfidenceOf, Place;
      var n := |sorted| - 1;
      if ConfidenceOf(c, p.field) < ConfidenceOf(c, sorted[n].field) {
        InsertInOrder(p, sorted[..n], c);
        var r := InsertProbe(p, sorted[..n], c);
        forall i | 0 <= i < |r| ensures Precedes(r[i], sorted[n], c) {
          assert r[i] in r;
        }
      }
    }
  }

  lemma {:induction false} SortsInOrder(probes: seq<Probe>, c: Confidence)
    requires AsPushed(probes)
    ensures InOrder(SortProbes(probes, c), c)
    ensures forall x :: x in SortProbes(probes, c) ==> x in probes
  {
    if probes != [] {
      hide ConfidenceOf, Place, InsertProbe, InOrder;
      var n := |probes| - 1;
      SortsInOrder(probes[..n], c);
      var sorted := SortProbes(probes[..n], c);
      forall i | 0 <= i < |sorted| ensures Place(sorted[i].field) < Place(probes[n].field) {
        assert sorted[i] in probes[..n];
      }
      InsertInOrder(probes[n], sorted, c);
    } else {
      assert InOrder([], c);
    }
  }

  lemma OneMorePushed(before: seq<Probe>, more: seq<Probe>, k: nat)
    requires AsPushed(before) && PlacedBelow(before, k)
    requires |more| <= 1 && forall p :: p in more ==> Place(p.field) == k
    ensures AsPushed(before + more) && PlacedBelow(before + more, k + 1)
  {
    assert more != [] ==> more[0] in more;
    hide Place;
  }

  lemma PushedInTurn(f: seq<Finding>)
    requires |f| == 7
    requires forall k :: 0 <= k < 7 ==> |f[k].probe| <= 1 && forall p :: p in f[k].probe ==> Place(p.field) == k
    ensures AsPushed(ProbesOf(f))
  {
    OneMorePushed([], f[0].probe, 0);
    assert [] + f[0].probe == f[0].probe;
    hide Place, AsPushed, PlacedBelow;
    OneMorePushed(f[0].probe, f[1].probe, 1);
    OneMorePushed(f[0].probe + f[1].probe, f[2].probe, 2);
    OneMorePushed(f[0].probe + f[1].probe + f[2].probe, f[3].probe, 3);
    OneMorePushed(f[0].probe + f[1].probe + f[2].probe + f[3].probe, f[4].probe, 4);
    OneMorePushed(f[0].probe + f[1].probe + f[2].probe + f[3].probe + f[4].probe, f[5].probe, 5);
    OneMorePushed(f[0].probe + f[1].probe + f[2].probe + f[3].probe + f[4].probe + f[5].probe, f[6].probe, 6);
  }

  lemma OneProbePerFinding(e: Evidence, existing: Existing)
    requires e.total > 0
    ensures var f := Findings(e, existing);
            forall k :: 0 <= k < 7 ==> |f[k].probe| <= 1 && forall p :: p in f[k].probe ==> Place(p.field) == k
  {
    hide Share, DateConfidence, SpanDays, InferredBrand, CompetitorCandidates, UpTo;
  }

  lemma EmptyInOrder(sources: seq<Source>, existing: Existing)
    ensures InOrder(EmptyResult(sources, existing).probes, EmptyResult(sources, existing).confidence)
  {
    hide EmptyStats;
  }

  lemma ResultInOrder(e: Evidence, existing: Existing, stats: seq<PerSourceStats>)
    requires e.total > 0
    ensures InOrder(ResultOf(e, existing, stats).probes, ResultOf(e, existing, stats).confidence)
  {
    var f := Findings(e, existing);
    OneProbePerFinding(e, existing);
    hide Findings, InferredBrand, InferredDates, MentionsOf, Place;
    PushedInTurn(f);
    SortsInOrder(ProbesOf(f), ConfidencesOf(f));
    hide SortProbes, ProbesOf, ConfidencesOf, InOrder, AsPushed;
  }

  /** The least certain field is asked about first, and of equally certain ones the one looked at first;
      so the order of the probes is fixed. */
  lemma ProbesComeInOrder(sources: seq<Source>, existing: Existing, less: Less)
    ensures var r := Classified(sources, existing, less); InOrder(r.probes, r.confidence)
  {
    hide InOrder, EmptyResult, ResultOf, StatsOf;
    if AllArticles(sources) == [] {
      EmptyInOrder(sources, existing);
    } else {
      ResultInOrder(EvidenceOf(sources, less), existing, StatsOf(sources, less));
    }
  }

  // ---------------------------------------------------------------------------------------
  // Brand and competitors
  // ---------------------------------------------------------------------------------------

  /** The terms with at least three mentions, most mentions first. */
  ghost predicate AreEntities(entities: seq<Counted>, articles: seq<Article>, less: Less) {
    IsRanking(entities, multiset(Gather(articles, TokensOf())), 3, less)
  }

  lemma EntitiesAre(entities: seq<Counted>, articles: seq<Article>, less: Less)
    requires StrictTotalOrder(less) && AreEntities(entities, articles, less)
    ensures CountEntities(articles, less) == entities
  {
    hide StrictTotalOrder, RankingOf, IsRanking, Gather;
    var tokens := Gather(articles, TokensOf());
    RankingRanks(tokens, 3, less);
    RankingUnique(entities, RankingOf(tokens, 3, less), multiset(tokens), 3, less);
  }

  /** The most mentioned term is inferred exactly when no brand is set and it has at least half as many
      mentions as there are articles. The confidence is its mentions per article, at most 0.95. */
  lemma BrandIs(sources: seq<Source>, existing: Existing, less: Less, entities: seq<Counted>)
    requires StrictTotalOrder(less) && AllArticles(sources) != []
    requires AreEntities(entities, AllArticles(sources), less)
    ensures var r, n := Classified(sources, existing, less), |AllArticles(sources)|;
            && r.inferred.brand == (if !existing.brand && entities != [] && 2 * entities[0].count >= n
                                    then Some(entities[0].term) else None)
            && (!existing.brand && entities == [] ==> r.confidence.brand == 0.0)
            && (!existing.brand && entities != [] ==>
                  r.confidence.brand == if 20 * entities[0].count >= 19 * n then 0.95
                                        else entities[0].count as real / n as real)
            && r.rationale == Rationale(n, |entities|, r.inferred.brand,
                                        if r.inferred.brand.Some? then entities[0].count else 0)
  {
    var all := AllArticles(sources);
    EntitiesAre(entities, all, less);
    if entities != [] {
      HalfShare(entities[0].count, |all|);
      MostShare(entities[0].count, |all|);
    }
    hide StrictTotalOrder, AreEntities, AllArticles, CountEntities, LanguageRanking, RankingOf, OpenSearchArticles, Gather,
         DateBounds, CompetitorFinding, LanguageFinding, MediaFinding, DateFinding, AskFinding, StatsOf, SortProbes,
         ProbesOf, InferredDates, Share, MinReal;
  }

  lemma MostShare(count: nat, total: nat)
    requires total > 0
    ensures MinReal(0.95, Share(count, total)) == if 20 * count >= 19 * total then 0.95 else count as real / total as real
  {
    var s, c, t := Share(count, total), count as real, total as real;
    assert s * t == c;
    hide Share;
    if s >= 0.95 {
      RealScale(0.95, s, t);
    } else {
      RealScale(s, 0.95, t);
    }
  }

  /** The brand is asked for exactly when none is set and no term is mentioned in 7 of 10 articles; the
      chips are the five most mentioned terms. */
  lemma BrandProbe(sources: seq<Source>, existing: Existing, less: Less, entities: seq<Counted>, p: Probe)
    requires StrictTotalOrder(less) && AllArticles(sources) != [] && p.field == Brand
    requires AreEntities(entities, AllArticles(sources), less)
    ensures Asks(Classified(sources, existing, less), p)
            <==> !existing.brand && (entities == [] || 10 * entities[0].count < 7 * |AllArticles(sources)|)
                 && p.allowFreeText && ShowsRanks(p.chips, entities, 0, 5)
  {
    var all := AllArticles(sources);
    EntitiesAre(entities, all, less);
    AskedByFinding(sources, existing, less, p);
    FindingsKeepToTheirFields(EvidenceOf(sources, less), existing, p);
    BrandFindingAsks(entities, |all|, existing, p);
    hide StrictTotalOrder, AreEntities, AllArticles, CountEntities, LanguageRanking, RankingOf, OpenSearchArticles, Gather,
         DateBounds, BrandFinding, CompetitorFinding, LanguageFinding, MediaFinding, DateFinding, AskFinding, Classified,
         Asks, InferredBrand, ShowsRanks;
  }

  lemma BrandFindingAsks(entities: seq<Counted>, total: nat, existing: Existing, p: Probe)
    requires total > 0 && p.field == Brand
    ensures p in BrandFinding(entities, total, existing).probe
            <==> !existing.brand && (entities == [] || 10 * entities[0].count < 7 * total)
                 && p.allowFreeText && ShowsRanks(p.chips, entities, 0, 5)
  {
    if entities != [] {
      SevenTenths(entities[0].count, total);
    }
    ChipsShowRanks(entities, 0, 5);
    if ShowsRanks(p.chips, entities, 0, 5) {
      ShownOnce(p.chips, Chips(UpTo(entities, 0, 5)), entities, 0, 5);
    }
    assert ShowsRanks([], [], 0, 5);
    hide Share, MinReal, Chips, UpTo, ShowsRanks;
  }

  lemma SevenTenths(count: nat, total: nat)
    requires total > 0
    ensures MinReal(0.95, Share(count, total)) < 0.7 <==> 10 * count < 7 * total
  {
    var s, c, t := Share(count, total), count as real, total as real;
    assert s * t == c;
    hide Share;
    if s >= 0.7 {
      RealScale(0.7, s, t);
    } else {
      RealScale(s, 0.7, t);
    }
  }

  /** Competitors are asked for exactly when none are set and a second term is mentioned three times; the
      chips are the terms ranked two to seven, with confidence 0.4. */
  lemma CompetitorProbe(sources: seq<Source>, existing: Existing, less: Less, entities: seq<Counted>, p: Probe)
    requires StrictTotalOrder(less) && AllArticles(sources) != [] && p.field == Competitors
    requires AreEntities(entities, AllArticles(sources), less)
    ensures Asks(Classified(sources, existing, less), p)
            <==> !existing.competitors && |entities| >= 2 && p.allowFreeText && ShowsRanks(p.chips, entities, 1, 7)
    ensures !existing.competitors ==>
              Classified(sources, existing, less).confidence.competitors == if |entities| >= 2 then 0.4 else 0.0
  {
    var all := AllArticles(sources);
    EntitiesAre(entities, all, less);
    AskedByFinding(sources, existing, less, p);
    FindingsKeepToTheirFields(EvidenceOf(sources, less), existing, p);
    CompetitorsAreTheNextSix(Gather(all, TokensOf()), |all|, existing, less);
    ChipsShowRanks(entities, 1, 7);
    if ShowsRanks(p.chips, entities, 1, 7) {
      ShownOnce(p.chips, Chips(UpTo(entities, 1, 7)), entities, 1, 7);
    }
    CompetitorConfidence(sources, existing, less);
    hide StrictTotalOrder, AreEntities, AllArticles, LanguageRanking, RankingOf, OpenSearchArticles, Gather,
         DateBounds, BrandFinding, LanguageFinding, MediaFinding, DateFinding, AskFinding, Classified, Asks,
         InferredBrand, Chips, CompetitorCandidates;
  }

  lemma CompetitorConfidence(sources: seq<Source>, existing: Existing, less: Less)
    requires AllArticles(sources) != []
    ensures Classified(sources, existing, less).confidence.competitors
            == Findings(EvidenceOf(sources, less), existing)[1].confidence
  {
    hide AllArticles, EvidenceOf, Findings, StatsOf, SortProbes, ProbesOf, InferredBrand, InferredDates, MentionsOf;
  }

  // ---------------------------------------------------------------------------------------
  // Languages and media types
  // ---------------------------------------------------------------------------------------

  /** The languages of the articles, most frequent first. */
  ghost predicate AreLanguages(languages: seq<Counted>, articles: seq<Article>, less: Less) {
    IsRanking(languages, multiset(Gather(articles, LanguageOf())), 1, less)
  }

  /** The media types of the articles from OpenSearch, most frequent first. */
  ghost predicate AreMedia(media: seq<Counted>, sources: seq<Source>, less: Less) {
    IsRanking(media, multiset(Gather(OpenSearchArticles(sources), MediaOf())), 1, less)
  }

  lemma LanguagesAre(languages: seq<Counted>, articles: seq<Article>, less: Less)
    requires StrictTotalOrder(less) && AreLanguages(languages, articles, less)
    ensures LanguageRanking(articles, less) == languages
    ensures articles != [] ==> languages != []
  {
    hide StrictTotalOrder, RankingOf, IsRanking;
    var langs := Gather(articles, LanguageOf());
    RankingRanks(langs, 1, less);
    RankingUnique(languages, RankingOf(langs, 1, less), multiset(langs), 1, less);
    if articles != [] {
      SomeLanguage(languages, langs, less);
    }
  }

  lemma SomeLanguage(languages: seq<Counted>, langs: seq<string>, less: Less)
    requires IsRanking(languages, multiset(langs), 1, less) && langs != []
    ensures languages != []
  {
    assert langs[0] in multiset(langs);
    assert Counted(langs[0], multiset(langs)[langs[0]]) in languages;
  }

  lemma MediaAre(media: seq<Counted>, sources: seq<Source>, less: Less)
    requires StrictTotalOrder(less) && AreMedia(media, sources, less)
    ensures RankingOf(Gather(OpenSearchArticles(sources), MediaOf()), 1, less) == media
  {
    hide StrictTotalOrder, RankingOf, IsRanking, Gather;
    var names := Gather(OpenSearchArticles(sources), MediaOf());
    RankingRanks(names, 1, less);
    RankingUnique(media, RankingOf(names, 1, less), multiset(names), 1, less);
  }

  lemma LanguageFindingIs(languages: seq<Counted>, n: nat, p: Probe)
    requires n > 0 && languages != [] && p.field == Language
    ensures var top, f := languages[0].count, LanguageFinding(languages, n);
            && (p in f.probe <==>
                  10 * top < 7 * n && !p.allowFreeText && |p.chips| == |languages|
                  && forall i :: 0 <= i < |languages| ==> p.chips[i] == Chip(languages[i].term, None))
            && f.confidence == (if 10 * top < 7 * n then 0.3
                                else if 20 * top >= 19 * n then 0.95 else top as real / n as real)
  {
    var top := languages[0].count;
    SevenTenths(top, n);
    MostShare(top, n);
    TenSevenths(top, n);
    hide Share, MinReal;
    if |p.chips| == |languages| && forall i :: 0 <= i < |languages| ==> p.chips[i] == Chip(languages[i].term, None) {
      assert p.chips == LanguageChips(languages);
    }
  }

  lemma TenSevenths(count: nat, total: nat)
    requires total > 0
    ensures Share(count, total) < 0.7 <==> 10 * count < 7 * total
  {
    var s, c, t := Share(count, total), count as real, total as real;
    assert s * t == c;
    hide Share;
    if s >= 0.7 {
      RealScale(0.7, s, t);
    } else {
      RealScale(s, 0.7, t);
    }
  }

  /** Languages are asked for exactly when the most frequent one has less than 7 of 10 articles; all of them
      are then offered, in rank order. Otherwise the confidence is its share, at most 0.95. */
  lemma LanguageIs(sources: seq<Source>, existing: Existing, less: Less, languages: seq<Counted>, p: Probe)
    requires StrictTotalOrder(less) && AllArticles(sources) != [] && p.field == Language
    requires AreLanguages(languages, AllArticles(sources), less)
    ensures languages != []
    ensures var r, n, top := Classified(sources, existing, less), |AllArticles(sources)|, languages[0].count;
            && (Asks(r, p) <==>
                  10 * top < 7 * n && !p.allowFreeText && |p.chips| == |languages|
                  && forall i :: 0 <= i < |languages| ==> p.chips[i] == Chip(languages[i].term, None))
            && r.confidence.language == (if 10 * top < 7 * n then 0.3
                                         else if 20 * top >= 19 * n then 0.95 else top as real / n as real)
  {
    var all := AllArticles(sources);
    LanguagesAre(languages, all, less);
    LanguageFindingIs(languages, |all|, p);
    AskedByFinding(sources, existing, less, p);
    FindingsKeepToTheirFields(EvidenceOf(sources, less), existing, p);
    LanguageConfidence(sources, existing, less);
    assert Findings(EvidenceOf(sources, less), existing)[3] == LanguageFinding(languages, |all|) by {
      hide StrictTotalOrder, AreLanguages, AllArticles, CountEntities, LanguageRanking, OpenSearchArticles, Gather,
           DateBounds, BrandFinding, CompetitorFinding, MediaFinding, DateFinding, AskFinding, InferredBrand, Share, RankingOf;
    }
    hide *;
  }

  lemma LanguageConfidence(sources: seq<Source>, existing: Existing, less: Less)
    requires AllArticles(sources) != []
    ensures Classified(sources, existing, less).confidence.language
            == Findings(EvidenceOf(sources, less), existing)[3].confidence
    ensures Classified(sources, existing, less).confidence.mediaTypes
            == Findings(EvidenceOf(sources, less), existing)[4].confidence
  {
    hide AllArticles, EvidenceOf, Findings, StatsOf, SortProbes, ProbesOf, InferredBrand, InferredDates, MentionsOf;
  }

  /** Media types are asked for exactly when none are set and some OpenSearch article has one; all of them
      are then offered with their counts, in rank order, with confidence 0.6. */
  lemma MediaIs(sources: seq<Source>, existing: Existing, less: Less, media: seq<Counted>, p: Probe)
    requires StrictTotalOrder(less) && AllArticles(sources) != [] && p.field == MediaTypes
    requires AreMedia(media, sources, less)
    ensures var r := Classified(sources, existing, less);
            && (Asks(r, p) <==>
                  !existing.mediaTypes && media != [] && !p.allowFreeText && ShowsRanks(p.chips, media, 0, |media|))
            && (!existing.mediaTypes ==> r.confidence.mediaTypes == if media == [] then 0.0 else 0.6)
  {
    MediaAre(media, sources, less);
    AskedByFinding(sources, existing, less, p);
    FindingsKeepToTheirFields(EvidenceOf(sources, less), existing, p);
    LanguageConfidence(sources, existing, less);
    ChipsShowRanks(media, 0, |media|);
    assert UpTo(media, 0, |media|) == media;
    if ShowsRanks(p.chips, media, 0, |media|) {
      ShownOnce(p.chips, Chips(media), media, 0, |media|);
    }
    hide StrictTotalOrder, AreMedia, AllArticles, CountEntities, LanguageRanking, RankingOf, OpenSearchArticles, Gather,
         DateBounds, BrandFinding, CompetitorFinding, LanguageFinding, DateFinding, AskFinding, Classified, Asks,
         InferredBrand, Chips, UpTo;
  }

  // ---------------------------------------------------------------------------------------
  // Per source, and the empty sample
  // ---------------------------------------------------------------------------------------

  lemma {:induction false} StatAt(sources: seq<Source>, less: Less, k: nat)
    requires k < |sources|
    ensures |StatsOf(sources, less)| == |sources| && StatsOf(sources, less)[k] == StatOf(sources[k], less)
  {
    hide StatOf;
    StatsSize(sources, less);
    var n := |sources| - 1;
    if k < n {
      StatAt(sources[..n], less, k);
      StatsSize(sources[..n], less);
    } else {
      StatsSize(sources[..n], less);
    }
  }

  lemma {:induction false} StatsSize(sources: seq<Source>, less: Less)
    ensures |StatsOf(sources, less)| == |sources|
  {
    if sources != [] {
      hide StatOf;
      StatsSize(sources[..|sources| - 1], less);
    }
  }

  lemma StatIs(source: Source, less: Less, entities: seq<Counted>, languages: seq<Counted>)
    requires StrictTotalOrder(less)
    requires AreEntities(entities, source.sampleArticles, less) && AreLanguages(languages, source.sampleArticles, less)
    ensures var stat := StatOf(source, less);
            && stat.sourceId == source.sourceId && stat.sampleSize == |source.sampleArticles|
            && stat.distinctBrandCandidates == |entities|
            && stat.distinctCompetitorCandidates == (if |entities| == 0 then 0 else |entities| - 1)
            && DaysOfSample(source.sampleArticles, stat.dateRange)
            && |stat.languagesDetected| == |languages|
            && forall i :: 0 <= i < |languages| ==> stat.languagesDetected[i] == languages[i].term
  {
    EntitiesAre(entities, source.sampleArticles, less);
    LanguagesAre(languages, source.sampleArticles, less);
    DaysAreOfSample(source.sampleArticles);
    hide StrictTotalOrder, AreEntities, AreLanguages, CountEntities, LanguageRanking, Gather, DateBounds, DaysOf,
         DaysOfSample;
  }

  /** Each source is described by its own articles: their number, their terms with three mentions, the days
      of its earliest and latest article, and its languages, most frequent first. */
  lemma SourceStats(sources: seq<Source>, existing: Existing, less: Less, k: nat, entities: seq<Counted>, languages: seq<Counted>)
    requires StrictTotalOrder(less) && AllArticles(sources) != [] && k < |sources|
    requires AreEntities(entities, sources[k].sampleArticles, less)
    requires AreLanguages(languages, sources[k].sampleArticles, less)
    ensures var stats := Classified(sources, existing, less).perSourceStats;
            && |stats| == |sources|
            && stats[k].sourceId == sources[k].sourceId && stats[k].sampleSize == |sources[k].sampleArticles|
            && stats[k].distinctBrandCandidates == |entities|
            && stats[k].distinctCompetitorCandidates == (if |entities| == 0 then 0 else |entities| - 1)
            && DaysOfSample(sources[k].sampleArticles, stats[k].dateRange)
            && |stats[k].languagesDetected| == |languages|
            && forall i :: 0 <= i < |languages| ==> stats[k].languagesDetected[i] == languages[i].term
  {
    StatIs(sources[k], less, entities, languages);
    StatAt(sources, less, k);
    hide StrictTotalOrder, AreEntities, AreLanguages, AllArticles, StatOf, StatsOf, EvidenceOf, Findings, InferredBrand,
         InferredDates, MentionsOf, SortProbes, ProbesOf, DaysOfSample;
  }

  /** Without any article: nothing inferred, no confidence, and exactly the unset fields other than language
      and media types are asked for, each source being reported empty. */
  lemma EmptySample(sources: seq<Source>, existing: Existing, less: Less, p: Probe)
    requires AllArticles(sources) == []
    ensures var r := Classified(sources, existing, less);
            && r.inferred == Inferred(None, None) && r.confidence == Confidence(0.0, 0.0, 0.0, 0.0, 0.0, 0.0, 0.0)
            && r.rationale == Rationale(0, 0, None, 0)
            && (Asks(r, p) <==>
                  || (!existing.brand && p == Probe(Brand, [], true))
                  || (!existing.competitors && p == Probe(Competitors, [], true))
                  || (!existing.dates && p == Probe(DateRange, [], false))
                  || (!existing.intention
                      && p == Probe(Intention, [Chip("intention_based", None), Chip("comment_based", None)], false))
                  || (!existing.enrichmentType
                      && p == Probe(EnrichmentType, [Chip("standard", None), Chip("reach", None)], false)))
            && |r.perSourceStats| == |sources|
            && forall k :: 0 <= k < |sources| ==>
                 r.perSourceStats[k] == PerSourceStats(sources[k].sourceId, 0, 0, 0, None, [])
  {
    hide AllArticles;
    EmptyStatsAre(sources);
    hide EmptyStats;
  }

  lemma {:induction false} EmptyStatsAre(sources: seq<Source>)
    ensures |EmptyStats(sources)| == |sources|
    ensures forall k :: 0 <= k < |sources| ==>
              EmptyStats(sources)[k] == PerSourceStats(sources[k].sourceId, 0, 0, 0, None, [])
  {
    if sources != [] {
      EmptyStatsAre(sources[..|sources| - 1]);
    }
  }
}
