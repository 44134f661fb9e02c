/** What the prober's result depends on, and what its parts mean. */
module ClassifierTheorems {
  import opened Outcomes
  import opened Ranking
  import opened SampleClassifier

  // ---------------------------------------------------------------------------------------
  // Order of the articles does not matter
  // ---------------------------------------------------------------------------------------

  lemma GatherAppend<T>(a: seq<Article>, b: seq<Article>, f: Article -> seq<T>)
    ensures multiset(Gather(a + b, f)) == multiset(Gather(a, f)) + multiset(Gather(b, f))
    decreases |b|
  {
    if b == [] {
      assert a + b == a;
    } else {
      var n := |b| - 1;
      GatherAppend(a, b[..n], f);
      assert (a + b)[..|a + b| - 1] == a + b[..n] && (a + b)[|a + b| - 1] == b[n];
    }
  }

  lemma GatherOne<T>(x: Article, f: Article -> seq<T>)
    ensures Gather([x], f) == f(x)
  {
    assert [x][..0] == [];
    assert Gather([x], f) == [] + f(x);
  }

  function Drop(articles: seq<Article>, k: nat): (r: seq<Article>)
    requires k < |articles|
    ensures |r| == |articles| - 1
  {
    articles[..k] + articles[k + 1..]
  }

  /** An article can be taken out from anywhere. */
  lemma GatherWithout<T>(articles: seq<Article>, k: nat, f: Article -> seq<T>)
    requires k < |articles|
    ensures multiset(Gather(articles, f)) == multiset(Gather(Drop(articles, k), f)) + multiset(f(articles[k]))
  {
    hide Gather;
    var x := articles[k];
    assert articles == articles[..k] + ([x] + articles[k + 1..]);
    GatherAppend(articles[..k], [x] + articles[k + 1..], f);
    GatherAppend([x], articles[k + 1..], f);
    GatherOne(x, f);
    GatherAppend(articles[..k], articles[k + 1..], f);
  }

  lemma TakenOut(xs: seq<Article>, k: nat)
    requires k < |xs|
    ensures multiset(Drop(xs, k)) == multiset(xs) - multiset{xs[k]}
  {
    assert xs == xs[..k] + [xs[k]] + xs[k + 1..];
  }

  lemma FindTwin(xs: seq<Article>, ys: seq<Article>) returns (k: nat)
    requires multiset(xs) == multiset(ys) && xs != []
    ensures k < |ys| && ys[k] == xs[0]
  {
    assert xs[0] in multiset(ys);
    k :| 0 <= k < |ys| && ys[k] == xs[0];
  }

  lemma {:induction false} GatherPermutes<T>(xs: seq<Article>, ys: seq<Article>, f: Article -> seq<T>)
    requires multiset(xs) == multiset(ys)
    ensures multiset(Gather(xs, f)) == multiset(Gather(ys, f))
    decreases |xs|
  {
    assert |xs| == |multiset(xs)| && |ys| == |multiset(ys)|;
    if xs != [] {
      hide Gather, Drop;
      var k := FindTwin(xs, ys);
      TakenOut(xs, 0);
      TakenOut(ys, k);
      GatherPermutes(Drop(xs, 0), Drop(ys, k), f);
      GatherWithout(xs, 0, f);
      GatherWithout(ys, k, f);
    }
  }

  predicate AreBounds(b: Bounds, dates: seq<int>) {
    b.min in dates && b.max in dates && forall d :: d in dates ==> b.min <= d <= b.max
  }

  /** The bounds are the smallest and the largest date. */
  lemma {:induction false} BoundsBound(dates: seq<int>)
    ensures DateBounds(dates).None? <==> dates == []
    ensures DateBounds(dates).Some? ==> AreBounds(DateBounds(dates).value, dates)
  {
    if dates != [] {
      var n := |dates| - 1;
      BoundsBound(dates[..n]);
      assert dates == dates[..n] + [dates[n]];
    }
  }

  lemma BoundsAreCanonical(dates: seq<int>, others: seq<int>)
    requires multiset(dates) == multiset(others)
    ensures DateBounds(dates) == DateBounds(others)
  {
    hide DateBounds;
    BoundsBound(dates);
    BoundsBound(others);
    assert forall d :: d in dates <==> d in multiset(dates);
    assert forall d :: d in others <==> d in multiset(others);
    assert dates == [] <==> others == [] by {
      assert |dates| == |multiset(dates)| && |others| == |multiset(others)|;
    }
  }

  predicate SameUpToOrder(a: Source, b: Source) {
    && a.sourceId == b.sourceId && a.isOpenSearch == b.isOpenSearch
    && multiset(a.sampleArticles) == multiset(b.sampleArticles)
  }

  /** The same sources, with the articles inside each in any order. */
  predicate Permuted(sources: seq<Source>, others: seq<Source>) {
    |sources| == |others| && forall k :: 0 <= k < |sources| ==> SameUpToOrder(sources[k], others[k])
  }

  lemma {:induction false} SamePool(sources: seq<Source>, others: seq<Source>)
    requires Permuted(sources, others)
    ensures multiset(AllArticles(sources)) == multiset(AllArticles(others))
    ensures multiset(OpenSearchArticles(sources)) == multiset(OpenSearchArticles(others))
  {
    if sources != [] {
      var n := |sources| - 1;
      SamePool(sources[..n], others[..n]);
      assert SameUpToOrder(sources[n], others[n]);
    }
  }

  lemma EntitiesAreCanonical(xs: seq<Article>, ys: seq<Article>, less: Less)
    requires StrictTotalOrder(less) && multiset(xs) == multiset(ys)
    ensures CountEntities(xs, less) == CountEntities(ys, less)
    ensures LanguageRanking(xs, less) == LanguageRanking(ys, less)
    ensures DateBounds(Gather(xs, PublishedDates())) == DateBounds(Gather(ys, PublishedDates()))
    ensures |xs| == |ys|
  {
    hide StrictTotalOrder, RankingOf, Gather, DateBounds;
    GatherPermutes(xs, ys, TokensOf());
    RankingIsCanonical(Gather(xs, TokensOf()), Gather(ys, TokensOf()), MIN_BRAND_MENTIONS, less);
    GatherPermutes(xs, ys, LanguageOf());
    RankingIsCanonical(Gather(xs, LanguageOf()), Gather(ys, LanguageOf()), 1, less);
    GatherPermutes(xs, ys, PublishedDates());
    BoundsAreCanonical(Gather(xs, PublishedDates()), Gather(ys, PublishedDates()));
    assert |xs| == |multiset(xs)| && |ys| == |multiset(ys)|;
  }

  lemma MediaAreCanonical(xs: seq<Article>, ys: seq<Article>, less: Less)
    requires StrictTotalOrder(less) && multiset(xs) == multiset(ys)
    ensures RankingOf(Gather(xs, MediaOf()), 1, less) == RankingOf(Gather(ys, MediaOf()), 1, less)
  {
    hide StrictTotalOrder, RankingOf, Gather;
    GatherPermutes(xs, ys, MediaOf());
    RankingIsCanonical(Gather(xs, MediaOf()), Gather(ys, MediaOf()), 1, less);
  }

  lemma StatIsCanonical(a: Source, b: Source, less: Less)
    requires StrictTotalOrder(less) && SameUpToOrder(a, b)
    ensures StatOf(a, less) == StatOf(b, less)
  {
    hide StrictTotalOrder, CountEntities, LanguageRanking, DateBounds, Gather, DaysOf, Terms;
    EntitiesAreCanonical(a.sampleArticles, b.sampleArticles, less);
  }

  lemma {:induction false} StatsAreCanonical(sources: seq<Source>, others: seq<Source>, less: Less)
    requires StrictTotalOrder(less) && Permuted(sources, others)
    ensures StatsOf(sources, less) == StatsOf(others, less)
  {
    if sources != [] {
      hide StrictTotalOrder, SameUpToOrder, StatOf;
      var n := |sources| - 1;
      StatsAreCanonical(sources[..n], others[..n], less);
      StatIsCanonical(sources[n], others[n], less);
    }
  }

  lemma {:induction false} EmptyStatsAreCanonical(sources: seq<Source>, others: seq<Source>)
    requires Permuted(sources, others)
    ensures EmptyStats(sources) == EmptyStats(others)
  {
    if sources != [] {
      var n := |sources| - 1;
      EmptyStatsAreCanonical(sources[..n], others[..n]);
      assert SameUpToOrder(sources[n], others[n]);
    }
  }

  /** Permuting the sample articles within any source leaves the whole result equal. */
  lemma ResultIsCanonical(sources: seq<Source>, others: seq<Source>, existing: Existing, less: Less)
    requires StrictTotalOrder(less) && Permuted(sources, others)
    ensures Classified(sources, existing, less) == Classified(others, existing, less)
  {
    hide StrictTotalOrder, Permuted, AllArticles, OpenSearchArticles, CountEntities, LanguageRanking, RankingOf, Gather,
         DateBounds, StatsOf, ResultOf, EmptyStats;
    SamePool(sources, others);
    EntitiesAreCanonical(AllArticles(sources), AllArticles(others), less);
    MediaAreCanonical(OpenSearchArticles(sources), OpenSearchArticles(others), less);
    StatsAreCanonical(sources, others, less);
    EmptyStatsAreCanonical(sources, others);
  }

  // ---------------------------------------------------------------------------------------
  // What is inferred
  // ---------------------------------------------------------------------------------------

  lemma RealScale(a: real, b: real, t: real)
    requires t > 0.0
    ensures a <= b ==> a * t <= b * t
    ensures a < b ==> a * t < b * t
  {
  }

  lemma HalfShare(count: nat, total: nat)
    requires total > 0
    ensures MinReal(0.95, Share(count, total)) >= 0.5 <==> 2 * count >= total
  {
    var s, c, t := Share(count, total), count as real, total as real;
    assert s * t == c;
    hide Share;
    if s >= 0.5 {
      RealScale(0.5, s, t);
    } else {
      RealScale(s, 0.5, t);
    }
  }

  lemma TopIsMostFrequent(tokens: seq<string>, less: Less)
    requires StrictTotalOrder(less)
    ensures var r := RankingOf(tokens, MIN_BRAND_MENTIONS, less);
            && (r == [] <==> forall t :: t in tokens ==> multiset(tokens)[t] < MIN_BRAND_MENTIONS)
            && (r != [] ==>
                  && r[0].count == multiset(tokens)[r[0].term] >= MIN_BRAND_MENTIONS
                  && forall t :: t in tokens ==> multiset(tokens)[t] <= r[0].count)
  {
    hide StrictTotalOrder, RankingOf;
    RankingRanks(tokens, MIN_BRAND_MENTIONS, less);
    var r, counts := RankingOf(tokens, MIN_BRAND_MENTIONS, less), multiset(tokens);
    if r != [] {
      assert r[0] in r;
      forall t | t in tokens ensures counts[t] <= r[0].count {
        if counts[t] >= MIN_BRAND_MENTIONS {
          assert Counted(t, counts[t]) in r;
          var i :| 0 <= i < |r| && r[i] == Counted(t, counts[t]);
          assert i > 0 ==> Before(less, r[0], r[i]);
        }
      }
    }
    forall t | t in tokens && counts[t] >= MIN_BRAND_MENTIONS ensures r != [] {
      assert Counted(t, counts[t]) in r;
    }
  }

  /** A brand is inferred exactly when none is set and some term occurs at least three times and at
      least half as often as there are articles; it is then a most frequent term. */
  lemma BrandInferredIff(articles: seq<Article>, existing: Existing, less: Less)
    requires StrictTotalOrder(less) && articles != []
    ensures var tokens, brand := Gather(articles, TokensOf()), InferredBrand(CountEntities(articles, less), |articles|, existing);
            && (brand.Some? <==> !existing.brand && exists t :: t in tokens && multiset(tokens)[t] >= MIN_BRAND_MENTIONS
                                                                && 2 * multiset(tokens)[t] >= |articles|)
            && (brand.Some? ==> brand.value in tokens
                                && forall t :: t in tokens ==> multiset(tokens)[t] <= multiset(tokens)[brand.value])
  {
    hide StrictTotalOrder, RankingOf, Gather, Share;
    var tokens, entities := Gather(articles, TokensOf()), CountEntities(articles, less);
    TopIsMostFrequent(tokens, less);
    if entities != [] {
      HalfShare(entities[0].count, |articles|);
      assert entities[0].term in multiset(tokens);
    }
  }

  lemma {:induction false} NothingFiltered(entities: seq<Counted>, brand: Option<string>)
    requires forall i :: 0 <= i < |entities| ==> Some(entities[i].term) != brand
    ensures OtherThan(entities, brand) == entities
  {
    if entities != [] {
      NothingFiltered(entities[1..], brand);
      assert entities == [entities[0]] + entities[1..];
    }
  }

  /** The inferred brand is never among the competitor chips: the candidates are the entities ranked
      two to seven, and filtering out the brand removes none of them. */
  lemma CompetitorsAreTheNextSix(tokens: seq<string>, total: nat, existing: Existing, less: Less)
    requires StrictTotalOrder(less) && total > 0
    ensures var entities := RankingOf(tokens, MIN_BRAND_MENTIONS, less);
            CompetitorCandidates(entities, InferredBrand(entities, total, existing)) == UpTo(entities, 1, 1 + MAX_COMPETITOR_CHIPS)
  {
    hide StrictTotalOrder, RankingOf;
    var entities := RankingOf(tokens, MIN_BRAND_MENTIONS, less);
    var brand, next := InferredBrand(entities, total, existing), UpTo(entities, 1, 1 + MAX_COMPETITOR_CHIPS);
    RankingRanks(tokens, MIN_BRAND_MENTIONS, less);
    forall i | 0 <= i < |next| ensures Some(next[i].term) != brand {
      assert next[i] == entities[i + 1];
      if next[i].term == entities[0].term {
        SameTermOnce(entities, multiset(tokens), MIN_BRAND_MENTIONS, less, 0, i + 1);
      }
    }
    NothingFiltered(next, brand);
  }

  lemma SameTermOnce(r: seq<Counted>, counts: multiset<string>, threshold: nat, less: Less, i: nat, j: nat)
    requires StrictTotalOrder(less) && IsRanking(r, counts, threshold, less) && i < |r| && j < |r| && r[i].term == r[j].term
    ensures i == j
  {
    assert r[i] in r && r[j] in r;
    assert r[i] == r[j];
    if i < j {
      Asymmetric(less, r[i], r[j]);
    } else if j < i {
      Asymmetric(less, r[j], r[i]);
    }
  }

  // ---------------------------------------------------------------------------------------
  // What is already set
  // ---------------------------------------------------------------------------------------

  predicate IsSet(existing: Existing, f: Field) {
    match f
    case Brand => existing.brand
    case Competitors => existing.competitors
    case DateRange => existing.dates
    case MediaTypes => existing.mediaTypes
    case Language => false
    case Intention => existing.intention
    case EnrichmentType => existing.enrichmentType
  }

  /** A field has confidence 1 exactly when it is set and there is some article; with no article at all
      even the fields that are set get 0. */
  lemma CertainIffSetAndSampled(sources: seq<Source>, existing: Existing, less: Less, f: Field)
    ensures var c := ConfidenceOf(Classified(sources, existing, less).confidence, f);
            && (c == 1.0 <==> IsSet(existing, f) && AllArticles(sources) != [])
            && (AllArticles(sources) == [] ==> c == 0.0)
  {
    hide Share, CountEntities, LanguageRanking, RankingOf, Gather, DateBounds, CompetitorCandidates, InferredBrand,
         InferredDates, SortProbes, ProbesOf, StatsOf, SpanDays, MentionsOf;
  }

  // ---------------------------------------------------------------------------------------
  // The probes
  // ---------------------------------------------------------------------------------------

  predicate LowestFirst(probes: seq<Probe>, c: Confidence) {
    forall i, j :: 0 <= i < j < |probes| ==> ConfidenceOf(c, probes[i].field) <= ConfidenceOf(c, probes[j].field)
  }

  lemma {:induction false} InsertInserts(p: Probe, sorted: seq<Probe>, c: Confidence)
    ensures multiset(InsertProbe(p, sorted, c)) == multiset(sorted) + multiset{p}
  {
    if sorted != [] {
      hide ConfidenceOf;
      var n := |sorted| - 1;
      assert sorted == sorted[..n] + [sorted[n]];
      if ConfidenceOf(c, p.field) < ConfidenceOf(c, sorted[n].field) {
        InsertInserts(p, sorted[..n], c);
      }
    }
  }

  /** No probe of the list has more confidence than x. */
  predicate AllBelow(probes: seq<Probe>, x: real, c: Confidence) {
    forall i :: 0 <= i < |probes| ==> ConfidenceOf(c, probes[i].field) <= x
  }

  lemma {:induction false} InsertBelow(p: Probe, sorted: seq<Probe>, x: real, c: Confidence)
    requires AllBelow(sorted, x, c) && ConfidenceOf(c, p.field) <= x
    ensures AllBelow(InsertProbe(p, sorted, c), x, c)
  {
    if sorted != [] {
      hide ConfidenceOf;
      var n := |sorted| - 1;
      if ConfidenceOf(c, p.field) < ConfidenceOf(c, sorted[n].field) {
        InsertBelow(p, sorted[..n], x, c);
      }
    }
  }

  lemma {:induction false} InsertKeepsOrder(p: Probe, sorted: seq<Probe>, c: Confidence)
    requires LowestFirst(sorted, c)
    ensures LowestFirst(InsertProbe(p, sorted, c), c)
  {
    if sorted != [] {
      hide ConfidenceOf;
      var n := |sorted| - 1;
      if ConfidenceOf(c, p.field) < ConfidenceOf(c, sorted[n].field) {
        InsertKeepsOrder(p, sorted[..n], c);
        InsertBelow(p, sorted[..n], ConfidenceOf(c, sorted[n].field), c);
      }
    }
  }

  lemma SnocMultiset(probes: seq<Probe>)
    requires probes != []
    ensures multiset(probes) == multiset(probes[..|probes| - 1]) + multiset{probes[|probes| - 1]}
  {
    assert probes == probes[..|probes| - 1] + [probes[|probes| - 1]];
  }

  /** The probes shown are the probes made, lowest confidence first. */
  lemma {:induction false} SortedLowestFirst(probes: seq<Probe>, c: Confidence)
    ensures LowestFirst(SortProbes(probes, c), c)
    ensures multiset(SortProbes(probes, c)) == multiset(probes)
  {
    if probes != [] {
      hide InsertProbe;
      var n := |probes| - 1;
      SortedLowestFirst(probes[..n], c);
      InsertKeepsOrder(probes[n], SortProbes(probes[..n], c), c);
      InsertInserts(probes[n], SortProbes(probes[..n], c), c);
      SnocMultiset(probes);
      hide LowestFirst;
    }
  }
}
