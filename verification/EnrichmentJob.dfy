/** From the planned batches to the running job: because the batch rows partition the articles,
    the protocol's progress stays within the job's article count. */
module EnrichmentJob {
  import opened Sums
  import Batching
  import opened EnrichmentProtocol
  import opened EnrichmentRuns
  import opened EnrichmentProgress
  import opened EnrichmentAttempts
  import opened EnrichmentStore

  lemma {:induction false} RowSizes(batches: seq<seq<string>>)
    ensures Sum(Sizes(batches), Value()) == |Batching.Flatten(batches)|
  {
    if batches != [] {
      var n := |batches| - 1;
      RowSizes(batches[..n]);
      assert Sizes(batches)[..n] == Sizes(batches[..n]);
    }
  }

  /** Each batch holds the ids of its packed batch. */
  predicate Packed(articles: seq<Batching.Article>, maxInputTokens: nat, batches: seq<seq<string>>) {
    var packed := Batching.GreedyBatches(Batching.TokensOf(articles), Batching.Target(maxInputTokens));
    && |batches| == |packed|
    && Batching.WithinArticles(packed, |articles|)
    && forall b :: 0 <= b < |batches| ==> batches[b] == Batching.IdsAt(articles, packed[b].indices)
  }

  /** Planning and persisting in one go: reject over the cap, otherwise leave the job's rows in the
      store, one batch row per packed batch, sizes adding up to the article count. */
  method StartJob(articles: seq<Batching.Article>, maxInputTokens: nat, cap: nat)
    returns (ok: bool, store: Store?)
    requires articles != []
    ensures ok <==> Batching.EstimatedTotal(articles, maxInputTokens) <= cap
    ensures ok ==>
              && store != null && fresh(store)
              && exists batches: seq<seq<string>> ::
                   && batches != [] && store.Snapshot() == Planned(batches, |articles|)
                   && Batching.Flatten(batches) == Batching.IdsOf(articles)
                   && Packed(articles, maxInputTokens, batches)
  {
    var r := Batching.PlanJob(articles, maxInputTokens, cap);
    if r.Failure? {
      return false, null;
    }
    var batches := Batching.ArticleIdsOf(r.value);
    store := new Store(batches, |articles|);
    ok := true;
    assert |Batching.Flatten(batches)| == |articles| > 0;
    assert batches != [];
  }

  /** Planning and fan-out together: afterwards every batch waits in the queue exactly once. */
  method RunAgent(articles: seq<Batching.Article>, maxInputTokens: nat, cap: nat) returns (ok: bool, store: Store?)
    requires articles != []
    ensures ok <==> Batching.EstimatedTotal(articles, maxInputTokens) <= cap
    ensures ok ==>
              && store != null && fresh(store)
              && exists batches: seq<seq<string>> ::
                   && batches != [] && Batching.Flatten(batches) == Batching.IdsOf(articles)
                   && store.Snapshot() == Planned(batches, |articles|).(tickets := store.tickets)
                   && Packed(articles, maxInputTokens, batches)
                   && |store.tickets| == |batches|
                   && (forall b :: 0 <= b < |batches| ==> store.tickets[b] == Ticket(b, 0, Queued))
                   && Leads(Planned(batches, |articles|), store.Snapshot())
  {
    hide Batching.GreedyBatches, Leads;
    ok, store := StartJob(articles, maxInputTokens, cap);
    if ok {
      store.Act();
    }
  }

  /** For every run of a planned job, resets included: if no accepted response has more entries than its
      batch has articles, the processed count never exceeds the number of articles. */
  lemma PlannedJobStaysInBounds(articles: seq<Batching.Article>, batches: seq<seq<string>>, steps: seq<Step>, t: State)
    requires articles != [] && Batching.Flatten(batches) == Batching.IdsOf(articles)
    requires Run(Planned(batches, |articles|), steps, t)
    requires AnswersWithin(Planned(batches, |articles|), steps, t, Sizes(batches))
    ensures t.job.counters.processed <= |articles|
    ensures forall k :: 0 <= k < |t.progress| ==> 0 <= t.progress[k] <= 100
  {
    RowSizes(batches);
    assert |Batching.Flatten(batches)| > 0;
    ProgressBounded(batches, |articles|, steps, t);
  }
}
