/** The baseline prober: what a merged sample of articles says about the chat's parameters, and what to
    ask the user. Terms are ranked with the order `less`. */
module SampleClassifier {
  import Calendar
  import opened Outcomes
  import opened Ranking

  const MIN_BRAND_MENTIONS: nat := 3
  const TOP_N_BRAND_CHIPS: nat := 5
  const MAX_COMPETITOR_CHIPS: nat := 6
  const SHORT_DATE_RANGE_DAYS: int := 60
  const MIN_LANGUAGE_MAJORITY: real := 0.7
  const BRAND_CONFIDENCE_PROBE_THRESHOLD: real := 0.7
  const INFERENCE_CONFIDENCE_FLOOR: real := 0.5
  const COMPETITOR_SUGGESTION_CONFIDENCE: real := 0.4

  /** An article as the prober sees it: the tokens of its texts, its publication instant, its language
      and the media type its source name stands for. */
  datatype Article = Article(tokens: seq<string>, publishedDate: Option<int>, language: string, mediaType: Option<string>)

  datatype Source = Source(sourceId: string, isOpenSearch: bool, sampleArticles: seq<Article>)

  /** Which parameters the chat already has. */
  datatype Existing = Existing(
    brand: bool, competitors: bool, dates: bool, mediaTypes: bool, intention: bool, enrichmentType: bool)

  datatype Field = Brand | Competitors | DateRange | MediaTypes | Language | Intention | EnrichmentType

  datatype Chip = Chip(value: string, count: Option<nat>)

  datatype Probe = Probe(field: Field, chips: seq<Chip>, allowFreeText: bool)

  datatype Confidence = Confidence(
    brand: real, competitors: real, dateRange: real, mediaTypes: real, language: real, intention: real, enrichmentType: real)

  /** First and last instant of a sample. */
  datatype Bounds = Bounds(min: int, max: int)

  datatype Inferred = Inferred(brand: Option<string>, dates: Option<(int, int)>)

  /** What the free-text rationale is built from. */
  datatype Rationale = Rationale(sampleSize: nat, entityCount: nat, brand: Option<string>, mentions: nat)

  datatype PerSourceStats = PerSourceStats(
    sourceId: string, sampleSize: nat, distinctBrandCandidates: nat, distinctCompetitorCandidates: nat,
    dateRange: Option<(int, int)>, languagesDetected: seq<string>)

  datatype ProbingResult = ProbingResult(
    inferred: Inferred, confidence: Confidence, probes: seq<Probe>, rationale: Rationale, perSourceStats: seq<PerSourceStats>)

  // ---------------------------------------------------------------------------------------
  // What is read off the articles
  // ---------------------------------------------------------------------------------------

  function AllArticles(sources: seq<Source>): seq<Article> {
    if sources == [] then [] else AllArticles(sources[..|sources| - 1]) + sources[|sources| - 1].sampleArticles
  }

  function OpenSearchArticles(sources: seq<Source>): seq<Article> {
    if sources == [] then []
    else
      OpenSearchArticles(sources[..|sources| - 1])
      + if sources[|sources| - 1].isOpenSearch then sources[|sources| - 1].sampleArticles else []
  }

  /** What an article contributes, article by article. */
  function Gather<T>(articles: seq<Article>, f: Article -> seq<T>): seq<T> {
    if articles == [] then [] else Gather(articles[..|articles| - 1], f) + f(articles[|articles| - 1])
  }

  function TokensOf(): Article -> seq<string> {
    (a: Article) => a.tokens
  }

  function LanguageOf(): Article -> seq<string> {
    (a: Article) => [if a.language == "" then "en" else a.language]
  }

  function MediaOf(): Article -> seq<string> {
    (a: Article) => if a.mediaType.Some? then [a.mediaType.value] else []
  }

  function PublishedDates(): Article -> seq<int> {
    (a: Article) => if a.publishedDate.Some? then [a.publishedDate.value] else []
  }

  function CountEntities(articles: seq<Article>, less: Less): seq<Counted> {
    RankingOf(Gather(articles, TokensOf()), MIN_BRAND_MENTIONS, less)
  }

  function LanguageRanking(articles: seq<Article>, less: Less): seq<Counted> {
    RankingOf(Gather(articles, LanguageOf()), 1, less)
  }

  function Min(a: int, b: int): int {
    if b < a then b else a
  }

  function Max(a: int, b: int): int {
    if b > a then b else a
  }

  function DateBounds(dates: seq<int>): Option<Bounds> {
    if dates == [] then None
    else
      var before, d := DateBounds(dates[..|dates| - 1]), dates[|dates| - 1];
      if before.None? then Some(Bounds(d, d)) else Some(Bounds(Min(before.value.min, d), Max(before.value.max, d)))
  }

  function SpanDays(b: Bounds): int {
    (b.max - b.min) / Calendar.MS_PER_DAY
  }

  function DaysOf(b: Option<Bounds>): Option<(int, int)> {
    if b.None? then None else Some((Calendar.Day(b.value.min), Calendar.Day(b.value.max)))
  }

  function MinReal(a: real, b: real): real {
    if b < a then b else a
  }

  function Share(count: nat, total: nat): real
    requires total > 0
  {
    count as real / total as real
  }

  // ---------------------------------------------------------------------------------------
  // The result, field by field
  // ---------------------------------------------------------------------------------------

  function Chips(entities: seq<Counted>): seq<Chip> {
    seq(|entities|, i requires 0 <= i < |entities| => Chip(entities[i].term, Some(entities[i].count)))
  }

  function LanguageChips(ranking: seq<Counted>): seq<Chip> {
    seq(|ranking|, i requires 0 <= i < |ranking| => Chip(ranking[i].term, None))
  }

  function UpTo(entities: seq<Counted>, from: nat, to: nat): seq<Counted>
    requires from <= to
  {
    if |entities| <= from then [] else if |entities| <= to then entities[from..] else entities[from..to]
  }

  /** Array.prototype.filter with the test `e.term !== brand`. */
  function OtherThan(entities: seq<Counted>, brand: Option<string>): seq<Counted> {
    if entities == [] then []
    else (if Some(entities[0].term) == brand then [] else [entities[0]]) + OtherThan(entities[1..], brand)
  }

  /** What one field adds: its confidence and the probe, if any. */
  datatype Finding = Finding(confidence: real, probe: seq<Probe>)

  function BrandConfidence(top: Counted, total: nat): real
    requires total > 0
  {
    MinReal(0.95, Share(top.count, total))
  }

  function InferredBrand(entities: seq<Counted>, total: nat, existing: Existing): Option<string>
    requires total > 0
  {
    if !existing.brand && entities != [] && BrandConfidence(entities[0], total) >= INFERENCE_CONFIDENCE_FLOOR
    then Some(entities[0].term) else None
  }

  function BrandFinding(entities: seq<Counted>, total: nat, existing: Existing): Finding
    requires total > 0
  {
    if existing.brand then Finding(1.0, [])
    else if entities != [] then
      var c := BrandConfidence(entities[0], total);
      Finding(c, if c < BRAND_CONFIDENCE_PROBE_THRESHOLD
                 then [Probe(Brand, Chips(UpTo(entities, 0, TOP_N_BRAND_CHIPS)), true)] else [])
    else Finding(0.0, [Probe(Brand, [], true)])
  }

  function CompetitorCandidates(entities: seq<Counted>, brand: Option<string>): seq<Counted> {
    OtherThan(UpTo(entities, 1, 1 + MAX_COMPETITOR_CHIPS), brand)
  }

  function CompetitorFinding(entities: seq<Counted>, brand: Option<string>, existing: Existing): Finding {
    if existing.competitors then Finding(1.0, [])
    else
      var candidates := CompetitorCandidates(entities, brand);
      if candidates != [] then Finding(COMPETITOR_SUGGESTION_CONFIDENCE, [Probe(Competitors, Chips(candidates), true)])
      else Finding(0.0, [])
  }

  const RANGE_CHIPS := [Chip("last_7_days", None), Chip("last_30_days", None), Chip("last_90_days", None), Chip("full_range", None)]
  const INTENTION_CHIPS := [Chip("intention_based", None), Chip("comment_based", None)]
  const ENRICHMENT_CHIPS := [Chip("standard", None), Chip("reach", None)]

  function DateConfidence(total: nat): real {
    MinReal(0.9, 0.5 + 0.4 * MinReal(1.0, Share(total, 25)))
  }

  function InferredDates(bounds: Option<Bounds>, total: nat, existing: Existing): Option<(int, int)> {
    if !existing.dates && bounds.Some? && SpanDays(bounds.value) <= SHORT_DATE_RANGE_DAYS
       && DateConfidence(total) >= INFERENCE_CONFIDENCE_FLOOR
    then DaysOf(bounds) else None
  }

  function DateFinding(bounds: Option<Bounds>, total: nat, existing: Existing): Finding {
    if existing.dates then Finding(1.0, [])
    else if bounds.None? then Finding(0.0, [])
    else if SpanDays(bounds.value) <= SHORT_DATE_RANGE_DAYS then Finding(DateConfidence(total), [])
    else Finding(0.3, [Probe(DateRange, RANGE_CHIPS, false)])
  }

  function LanguageFinding(ranking: seq<Counted>, total: nat): Finding
    requires total > 0
  {
    if ranking == [] then Finding(0.0, [])
    else
      var share := Share(ranking[0].count, total);
      if share >= MIN_LANGUAGE_MAJORITY then Finding(MinReal(0.95, share), [])
      else Finding(0.3, [Probe(Language, LanguageChips(ranking), false)])
  }

  function MediaFinding(ranking: seq<Counted>, existing: Existing): Finding {
    if existing.mediaTypes then Finding(1.0, [])
    else if ranking != [] then Finding(0.6, [Probe(MediaTypes, Chips(ranking), false)])
    else Finding(0.0, [])
  }

  function AskFinding(isSet: bool, probe: Probe): Finding {
    if isSet then Finding(1.0, []) else Finding(0.0, [probe])
  }

  function ConfidenceOf(c: Confidence, f: Field): real {
    match f
    case Brand => c.brand
    case Competitors => c.competitors
    case DateRange => c.dateRange
    case MediaTypes => c.mediaTypes
    case Language => c.language
    case Intention => c.intention
    case EnrichmentType => c.enrichmentType
  }

  /** Inserted behind the probes it does not rank below: the sort is stable. */
  function InsertProbe(p: Probe, sorted: seq<Probe>, c: Confidence): seq<Probe> {
    if sorted == [] then [p]
    else
      var n := |sorted| - 1;
      if ConfidenceOf(c, p.field) < ConfidenceOf(c, sorted[n].field) then InsertProbe(p, sorted[..n], c) + [sorted[n]]
      else sorted + [p]
  }

  /** probes.sort by confidence, lowest first. */
  function SortProbes(probes: seq<Probe>, c: Confidence): seq<Probe> {
    if probes == [] then [] else InsertProbe(probes[|probes| - 1], SortProbes(probes[..|probes| - 1], c), c)
  }

  function StatOf(source: Source, less: Less): PerSourceStats {
    var entities := CountEntities(source.sampleArticles, less);
    PerSourceStats(
      source.sourceId, |source.sampleArticles|, |entities|, if |entities| == 0 then 0 else |entities| - 1,
      DaysOf(DateBounds(Gather(source.sampleArticles, PublishedDates()))),
      Terms(LanguageRanking(source.sampleArticles, less)))
  }

  function Terms(ranking: seq<Counted>): seq<string> {
    seq(|ranking|, i requires 0 <= i < |ranking| => ranking[i].term)
  }

  function StatsOf(sources: seq<Source>, less: Less): seq<PerSourceStats> {
    if sources == [] then [] else StatsOf(sources[..|sources| - 1], less) + [StatOf(sources[|sources| - 1], less)]
  }

  /** Everything the result depends on. */
  datatype Evidence = Evidence(
    total: nat, entities: seq<Counted>, languages: seq<Counted>, media: seq<Counted>, bounds: Option<Bounds>)

  function EvidenceOf(sources: seq<Source>, less: Less): Evidence {
    var all := AllArticles(sources);
    Evidence(|all|, CountEntities(all, less), LanguageRanking(all, less),
             RankingOf(Gather(OpenSearchArticles(sources), MediaOf()), 1, less), DateBounds(Gather(all, PublishedDates())))
  }

  /** The findings in the order the prober makes them. */
  function Findings(e: Evidence, existing: Existing): seq<Finding>
    requires e.total > 0
  {
    [BrandFinding(e.entities, e.total, existing),
     CompetitorFinding(e.entities, InferredBrand(e.entities, e.total, existing), existing),
     DateFinding(e.bounds, e.total, existing),
     LanguageFinding(e.languages, e.total),
     MediaFinding(e.media, existing),
     AskFinding(existing.intention, Probe(Intention, INTENTION_CHIPS, false)),
     AskFinding(existing.enrichmentType, Probe(EnrichmentType, ENRICHMENT_CHIPS, false))]
  }

  function ConfidencesOf(f: seq<Finding>): Confidence
    requires |f| == 7
  {
    Confidence(f[0].confidence, f[1].confidence, f[2].confidence, f[4].confidence, f[3].confidence, f[5].confidence, f[6].confidence)
  }

  /** The probes in the order they are pushed. */
  function ProbesOf(f: seq<Finding>): seq<Probe>
    requires |f| == 7
  {
    f[0].probe + f[1].probe + f[2].probe + f[3].probe + f[4].probe + f[5].probe + f[6].probe
  }

  function MentionsOf(entities: seq<Counted>, brand: Option<string>): nat {
    if brand.Some? && entities != [] then entities[0].count else 0
  }

  /** The result without per-source statistics. */
  function ResultOf(e: Evidence, existing: Existing, stats: seq<PerSourceStats>): ProbingResult
    requires e.total > 0
  {
    var f, brand := Findings(e, existing), InferredBrand(e.entities, e.total, existing);
    ProbingResult(
      Inferred(brand, InferredDates(e.bounds, e.total, existing)), ConfidencesOf(f), SortProbes(ProbesOf(f), ConfidencesOf(f)),
      Rationale(e.total, |e.entities|, brand, MentionsOf(e.entities, brand)), stats)
  }

  function EmptyStats(sources: seq<Source>): seq<PerSourceStats> {
    if sources == [] then []
    else EmptyStats(sources[..|sources| - 1]) + [PerSourceStats(sources[|sources| - 1].sourceId, 0, 0, 0, None, [])]
  }

  /** With no article at all every unset field is asked for, and nothing is trusted, not even what is set. */
  function EmptyResult(sources: seq<Source>, existing: Existing): ProbingResult {
    ProbingResult(
      Inferred(None, None), Confidence(0.0, 0.0, 0.0, 0.0, 0.0, 0.0, 0.0),
      (if existing.brand then [] else [Probe(Brand, [], true)])
      + (if existing.competitors then [] else [Probe(Competitors, [], true)])
      + (if existing.dates then [] else [Probe(DateRange, [], false)])
      + (if existing.intention then [] else [Probe(Intention, INTENTION_CHIPS, false)])
      + (if existing.enrichmentType then [] else [Probe(EnrichmentType, ENRICHMENT_CHIPS, false)]),
      Rationale(0, 0, None, 0), EmptyStats(sources))
  }

  function Classified(sources: seq<Source>, existing: Existing, less: Less): ProbingResult {
    if AllArticles(sources) == [] then EmptyResult(sources, existing)
    else ResultOf(EvidenceOf(sources, less), existing, StatsOf(sources, less))
  }

  // ---------------------------------------------------------------------------------------
  // The loops
  // ---------------------------------------------------------------------------------------

  lemma GatherSnoc<T>(articles: seq<Article>, i: nat, f: Article -> seq<T>)
    requires i < |articles|
    ensures Gather(articles[..i + 1], f) == Gather(articles[..i], f) + f(articles[i])
  {
    assert articles[..i + 1][..i] == articles[..i];
  }

  /** The tokens of all articles, one article after the other. */
  method CollectTokens(articles: seq<Article>) returns (tokens: seq<string>)
    ensures tokens == Gather(articles, TokensOf())
  {
    tokens := [];
    for i := 0 to |articles|
      invariant tokens == Gather(articles[..i], TokensOf())
    {
      GatherSnoc(articles, i, TokensOf());
      tokens := tokens + articles[i].tokens;
    }
    assert articles[..|articles|] == articles;
  }

  method CollectLanguages(articles: seq<Article>) returns (languages: seq<string>)
    ensures languages == Gather(articles, LanguageOf())
  {
    languages := [];
    for i := 0 to |articles|
      invariant languages == Gather(articles[..i], LanguageOf())
    {
      GatherSnoc(articles, i, LanguageOf());
      languages := languages + [if articles[i].language == "" then "en" else articles[i].language];
    }
    assert articles[..|articles|] == articles;
  }

  method CollectMedia(articles: seq<Article>) returns (media: seq<string>)
    ensures media == Gather(articles, MediaOf())
  {
    media := [];
    for i := 0 to |articles|
      invariant media == Gather(articles[..i], MediaOf())
    {
      GatherSnoc(articles, i, MediaOf());
      if articles[i].mediaType.Some? {
        media := media + [articles[i].mediaType.value];
      }
    }
    assert articles[..|articles|] == articles;
  }

  lemma OneMoreDate(before: seq<int>, d: int)
    ensures DateBounds(before + [d])
            == Some(if DateBounds(before).None? then Bounds(d, d)
                    else Bounds(Min(DateBounds(before).value.min, d), Max(DateBounds(before).value.max, d)))
  {
    assert (before + [d])[..|before|] == before;
  }

  /** Minimum and maximum in one pass, ignoring missing dates. */
  method FindDateBounds(articles: seq<Article>) returns (bounds: Option<Bounds>)
    ensures bounds == DateBounds(Gather(articles, PublishedDates()))
  {
    bounds := None;
    assert DateBounds(Gather(articles[..0], PublishedDates())) == None;
    hide DateBounds, Gather;
    for i := 0 to |articles|
      invariant bounds == DateBounds(Gather(articles[..i], PublishedDates()))
    {
      GatherSnoc(articles, i, PublishedDates());
      ghost var before := Gather(articles[..i], PublishedDates());
      if articles[i].publishedDate.Some? {
        var d := articles[i].publishedDate.value;
        OneMoreDate(before, d);
        if bounds.None? {
          bounds := Some(Bounds(d, d));
        } else {
          bounds := Some(Bounds(if d < bounds.value.min then d else bounds.value.min,
                                if d > bounds.value.max then d else bounds.value.max));
        }
      } else {
        assert before + [] == before;
      }
    }
    assert articles[..|articles|] == articles;
  }

  method GatherEvidence(sources: seq<Source>, all: seq<Article>, openSearch: seq<Article>, less: Less) returns (e: Evidence)
    requires all == AllArticles(sources) && openSearch == OpenSearchArticles(sources)
    ensures e == EvidenceOf(sources, less)
  {
    hide RankingOf, Gather, DateBounds;
    var tokens := CollectTokens(all);
    var entities := CountAndRank(tokens, MIN_BRAND_MENTIONS, less);
    var langs := CollectLanguages(all);
    var languages := CountAndRank(langs, 1, less);
    var mediaNames := CollectMedia(openSearch);
    var media := CountAndRank(mediaNames, 1, less);
    var bounds := FindDateBounds(all);
    e := Evidence(|all|, entities, languages, media, bounds);
  }

  method MergeSamples(sources: seq<Source>) returns (all: seq<Article>, openSearch: seq<Article>)
    ensures all == AllArticles(sources) && openSearch == OpenSearchArticles(sources)
  {
    all, openSearch := [], [];
    for k := 0 to |sources|
      invariant all == AllArticles(sources[..k]) && openSearch == OpenSearchArticles(sources[..k])
    {
      assert sources[..k + 1][..k] == sources[..k];
      all := all + sources[k].sampleArticles;
      if sources[k].isOpenSearch {
        openSearch := openSearch + sources[k].sampleArticles;
      }
    }
    assert sources[..|sources|] == sources;
  }

  method CollectStats(sources: seq<Source>, less: Less) returns (stats: seq<PerSourceStats>)
    ensures stats == StatsOf(sources, less)
  {
    hide RankingOf, Gather, DateBounds;
    stats := [];
    for k := 0 to |sources|
      invariant stats == StatsOf(sources[..k], less)
    {
      assert sources[..k + 1][..k] == sources[..k];
      var sample := sources[k].sampleArticles;
      var tokens := CollectTokens(sample);
      var entities := CountAndRank(tokens, MIN_BRAND_MENTIONS, less);
      var langs := CollectLanguages(sample);
      var languages := CountAndRank(langs, 1, less);
      var bounds := FindDateBounds(sample);
      stats := stats + [PerSourceStats(sources[k].sourceId, |sample|, |entities|,
                                       if |entities| == 0 then 0 else |entities| - 1, DaysOf(bounds), Terms(languages))];
    }
    assert sources[..|sources|] == sources;
  }

  /** Field by field: record the confidence, push the probe if there is one; then sort the probes. */
  method ClassifyAndProbe(sources: seq<Source>, existing: Existing, less: Less) returns (r: ProbingResult)
    ensures r == Classified(sources, existing, less)
  {
    hide AllArticles, OpenSearchArticles, StatsOf, EmptyResult, InferredBrand, InferredDates, SortProbes, MentionsOf,
         BrandFinding, CompetitorFinding, DateFinding, LanguageFinding, MediaFinding, AskFinding, CountEntities,
         LanguageRanking, RankingOf, DateBounds, Gather;
    var all, openSearch := MergeSamples(sources);
    if all == [] {
      return EmptyResult(sources, existing);
    }
    var e := GatherEvidence(sources, all, openSearch, less);
    var stats := CollectStats(sources, less);
    var brand := InferredBrand(e.entities, e.total, existing);
    var onBrand := BrandFinding(e.entities, e.total, existing);
    var probes := onBrand.probe;
    var onCompetitors := CompetitorFinding(e.entities, brand, existing);
    probes := probes + onCompetitors.probe;
    var onDates := DateFinding(e.bounds, e.total, existing);
    probes := probes + onDates.probe;
    var onLanguage := LanguageFinding(e.languages, e.total);
    probes := probes + onLanguage.probe;
    var onMedia := MediaFinding(e.media, existing);
    probes := probes + onMedia.probe;
    var onIntention := AskFinding(existing.intention, Probe(Intention, INTENTION_CHIPS, false));
    probes := probes + onIntention.probe;
    var onEnrichment := AskFinding(existing.enrichmentType, Probe(EnrichmentType, ENRICHMENT_CHIPS, false));
    probes := probes + onEnrichment.probe;
    var confidence := Confidence(onBrand.confidence, onCompetitors.confidence, onDates.confidence, onMedia.confidence,
                                 onLanguage.confidence, onIntention.confidence, onEnrichment.confidence);
    r := ProbingResult(
      Inferred(brand, InferredDates(e.bounds, e.total, existing)), confidence, SortProbes(probes, confidence),
      Rationale(e.total, |e.entities|, brand, MentionsOf(e.entities, brand)), stats);
  }
}
