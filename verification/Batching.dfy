/** Token batching: the greedy packer, how good it is, and the batch rows a job is planned with. */
module Batching {
  import opened Outcomes
  import opened Sums

  /** Article indices packed together, with the sum of their token counts. */
  datatype Batch = Batch(indices: seq<nat>, tokenSum: nat)

  const NO_BATCH := Batch([], 0)

  /** The packer between two articles: the batches pushed so far and the one being filled. */
  datatype Packing = Packing(closed: seq<Batch>, current: Batch)

  function Tokens(): nat -> int {
    (t: nat) => t
  }

  /** One iteration of the loop, for article i with t tokens. */
  function Add(p: Packing, i: nat, t: nat, target: nat): Packing {
    if p.current.tokenSum + t > target && p.current.indices != []
    then Packing(p.closed + [p.current], Batch([i], t))
    else Packing(p.closed, Batch(p.current.indices + [i], p.current.tokenSum + t))
  }

  function Greedy(tokens: seq<nat>, target: nat): Packing {
    if tokens == [] then Packing([], NO_BATCH)
    else
      var n := |tokens| - 1;
      Add(Greedy(tokens[..n], target), n, tokens[n], target)
  }

  function Batches(p: Packing): seq<Batch> {
    p.closed + if p.current.indices != [] then [p.current] else []
  }

  function GreedyBatches(tokens: seq<nat>, target: nat): seq<Batch> {
    Batches(Greedy(tokens, target))
  }

  method CreateBatches(tokens: seq<nat>, target: nat) returns (batches: seq<Batch>)
    ensures batches == GreedyBatches(tokens, target)
  {
    batches := [];
    var current := NO_BATCH;
    for i := 0 to |tokens|
      invariant Packing(batches, current) == Greedy(tokens[..i], target)
    {
      var t := tokens[i];
      assert tokens[..i + 1][..i] == tokens[..i];
      if current.tokenSum + t > target && current.indices != [] {
        batches := batches + [current];
        current := Batch([i], t);
      } else {
        current := Batch(current.indices + [i], current.tokenSum + t);
      }
    }
    assert tokens[..|tokens|] == tokens;
    if current.indices != [] {
      batches := batches + [current];
    }
  }

  // ---------------------------------------------------------------------------------------
  // The result is a partition into admissible batches
  // ---------------------------------------------------------------------------------------

  function Flatten<T>(parts: seq<seq<T>>): seq<T> {
    if parts == [] then [] else Flatten(parts[..|parts| - 1]) + parts[|parts| - 1]
  }

  function IndicesOf(batches: seq<Batch>): (r: seq<seq<nat>>)
    ensures |r| == |batches|
    ensures forall b :: 0 <= b < |batches| ==> r[b] == batches[b].indices
  {
    if batches == [] then [] else IndicesOf(batches[..|batches| - 1]) + [batches[|batches| - 1].indices]
  }

  function Upto(n: nat): (r: seq<nat>)
    ensures |r| == n
    ensures forall i :: 0 <= i < n ==> r[i] == i
  {
    if n == 0 then [] else Upto(n - 1) + [n - 1]
  }

  /** The tokens of the articles with the given indices. */
  function At(tokens: seq<nat>, indices: seq<nat>): (r: seq<nat>)
    requires forall k :: 0 <= k < |indices| ==> indices[k] < |tokens|
    ensures |r| == |indices|
    ensures forall k :: 0 <= k < |indices| ==> r[k] == tokens[indices[k]]
  {
    seq(|indices|, k requires 0 <= k < |indices| => tokens[indices[k]])
  }

  /** Non-empty, its sum right, and within the target unless it is a single oversize article. */
  predicate Admissible(b: Batch, tokens: seq<nat>, target: nat) {
    && b.indices != []
    && (forall k :: 0 <= k < |b.indices| ==> b.indices[k] < |tokens|)
    && b.tokenSum == Sum(At(tokens, b.indices), Tokens())
    && (b.tokenSum <= target || |b.indices| == 1)
  }

  lemma AdmissibleLonger(b: Batch, tokens: seq<nat>, t: nat, target: nat)
    requires Admissible(b, tokens, target)
    ensures Admissible(b, tokens + [t], target)
  {
    assert At(tokens + [t], b.indices) == At(tokens, b.indices);
  }

  lemma IndicesAppend(batches: seq<Batch>, b: Batch)
    ensures Flatten(IndicesOf(batches + [b])) == Flatten(IndicesOf(batches)) + b.indices
  {
    assert (batches + [b])[..|batches|] == batches;
    var parts := IndicesOf(batches + [b]);
    assert parts[..|batches|] == IndicesOf(batches);
  }

  /** What one iteration keeps: the batch being filled stays admissible, or is a fresh one. */
  lemma AddAdmissible(p: Packing, tokens: seq<nat>, t: nat, target: nat)
    requires p.current == NO_BATCH || Admissible(p.current, tokens, target)
    ensures Admissible(Add(p, |tokens|, t, target).current, tokens + [t], target)
  {
    var n, q := |tokens|, Add(p, |tokens|, t, target);
    if p.current == NO_BATCH || p.current.tokenSum + t > target {
      assert At(tokens + [t], [n]) == [] + [t];
      SumAppend([], t, Tokens());
    } else {
      assert At(tokens + [t], q.current.indices) == At(tokens, p.current.indices) + [t];
      SumAppend(At(tokens, p.current.indices), t, Tokens());
    }
  }

  lemma {:induction false} GreedyAdmissible(tokens: seq<nat>, target: nat)
    ensures var p := Greedy(tokens, target);
            && (forall j :: 0 <= j < |p.closed| ==> Admissible(p.closed[j], tokens, target))
            && (if tokens == [] then p.current == NO_BATCH else Admissible(p.current, tokens, target))
  {
    if tokens != [] {
      var n := |tokens| - 1;
      var before, t := tokens[..n], tokens[n];
      assert tokens == before + [t];
      GreedyAdmissible(before, target);
      var q, p := Greedy(before, target), Greedy(tokens, target);
      AddAdmissible(q, before, t, target);
      forall j | 0 <= j < |p.closed| ensures Admissible(p.closed[j], tokens, target) {
        AdmissibleLonger(if j < |q.closed| then q.closed[j] else q.current, before, t, target);
      }
    }
  }

  /** The indices handed out so far, in order. */
  function Covered(p: Packing): seq<nat> {
    Flatten(IndicesOf(p.closed)) + p.current.indices
  }

  lemma AddCovers(p: Packing, i: nat, t: nat, target: nat)
    ensures Covered(Add(p, i, t, target)) == Covered(p) + [i]
  {
    var q := Add(p, i, t, target);
    if p.current.tokenSum + t > target && p.current.indices != [] {
      IndicesAppend(p.closed, p.current);
    } else {
      var closed := Flatten(IndicesOf(p.closed));
      assert closed + (p.current.indices + [i]) == (closed + p.current.indices) + [i];
    }
  }

  lemma {:induction false} GreedyCoversPrefix(tokens: seq<nat>, target: nat)
    ensures Covered(Greedy(tokens, target)) == Upto(|tokens|)
  {
    if tokens != [] {
      var n := |tokens| - 1;
      GreedyCoversPrefix(tokens[..n], target);
      AddCovers(Greedy(tokens[..n], target), n, tokens[n], target);
    }
  }

  lemma BatchesCover(p: Packing)
    ensures Flatten(IndicesOf(Batches(p))) == Covered(p)
  {
    if p.current.indices == [] {
      assert Batches(p) == p.closed;
      assert Covered(p) == Flatten(IndicesOf(p.closed));
    } else {
      IndicesAppend(p.closed, p.current);
    }
  }

  /** Every article is packed exactly once, in order, into admissible batches. */
  lemma GreedyPartitions(tokens: seq<nat>, target: nat)
    ensures Flatten(IndicesOf(GreedyBatches(tokens, target))) == Upto(|tokens|)
    ensures forall j :: 0 <= j < |GreedyBatches(tokens, target)| ==>
              Admissible(GreedyBatches(tokens, target)[j], tokens, target)
  {
    GreedyAdmissible(tokens, target);
    GreedyCoversPrefix(tokens, target);
    BatchesCover(Greedy(tokens, target));
  }

  // ---------------------------------------------------------------------------------------
  // Optimality among contiguous splits
  // ---------------------------------------------------------------------------------------

  /** An order-preserving split of the token counts, each part within target or a single article. */
  predicate IsSplit(parts: seq<seq<nat>>, tokens: seq<nat>, target: nat) {
    && Flatten(parts) == tokens
    && forall j :: 0 <= j < |parts| ==> Sum(parts[j], Tokens()) <= target || |parts[j]| <= 1
  }

  /** The batch being filled is a suffix of what was read. */
  lemma {:induction false} CurrentIsSuffix(tokens: seq<nat>, target: nat)
    ensures var c := Greedy(tokens, target).current;
            && |c.indices| <= |tokens| && (tokens != [] ==> c.indices != [])
            && c.tokenSum == Sum(tokens[|tokens| - |c.indices|..], Tokens())
  {
    if tokens != [] {
      var n := |tokens| - 1;
      CurrentIsSuffix(tokens[..n], target);
      var c, c' := Greedy(tokens[..n], target).current, Greedy(tokens, target).current;
      var suffix := if |c'.indices| == 1 then [] else tokens[..n][n - |c.indices|..];
      assert tokens[|tokens| - |c'.indices|..] == suffix + [tokens[n]];
      SumAppend(suffix, tokens[n], Tokens());
    }
  }

  lemma SuffixSum(xs: seq<nat>, i: nat, j: nat)
    requires i <= j <= |xs|
    ensures Sum(xs[j..], Tokens()) <= Sum(xs[i..], Tokens())
  {
    assert xs[i..] == xs[i..j] + xs[j..];
    SumConcat(xs[i..j], xs[j..], Tokens());
    SumNonNegative(xs[i..j], Tokens());
  }

  /** Dropping the last article of a split whose last part is not empty. */
  lemma SplitOfPrefix(parts: seq<seq<nat>>, tokens: seq<nat>, target: nat) returns (shorter: seq<seq<nat>>)
    requires IsSplit(parts, tokens, target) && parts != [] && parts[|parts| - 1] != []
    ensures tokens != [] && IsSplit(shorter, tokens[..|tokens| - 1], target)
    ensures var last := parts[|parts| - 1];
            if |last| == 1 then |shorter| == |parts| - 1
            else |shorter| == |parts| && |shorter[|parts| - 1]| == |last| - 1
  {
    var m := |parts| - 1;
    var last := parts[m];
    var s := |last| - 1;
    assert tokens == Flatten(parts[..m]) + last;
    if s == 0 {
      shorter := parts[..m];
      assert tokens[..|tokens| - 1] == Flatten(parts[..m]);
    } else {
      shorter := parts[m := last[..s]];
      assert shorter[..m] == parts[..m];
      assert tokens[..|tokens| - 1] == Flatten(parts[..m]) + last[..s];
      assert last == last[..s] + [last[s]];
      SumAppend(last[..s], last[s], Tokens());
    }
  }

  /** When the last part of a split has room for the last article, so does the batch being
      filled, provided it is no longer than that part was before. */
  lemma RoomForLast(tokens: seq<nat>, target: nat, last: seq<nat>)
    requires |tokens| >= |last| > 1 && tokens[|tokens| - |last|..] == last
    requires Sum(last, Tokens()) <= target
    requires |Greedy(tokens[..|tokens| - 1], target).current.indices| <= |last| - 1
    ensures var n := |tokens| - 1;
            Greedy(tokens[..n], target).current.tokenSum + tokens[n] <= target
  {
    var n := |tokens| - 1;
    CurrentIsSuffix(tokens[..n], target);
    var len := |Greedy(tokens[..n], target).current.indices|;
    assert tokens[n - len..] == tokens[..n][n - len..] + [tokens[n]];
    SumAppend(tokens[..n][n - len..], tokens[n], Tokens());
    SuffixSum(tokens, |tokens| - |last|, n - len);
  }

  /** At most as many batches as the split; and at equality, a last batch that is no longer. */
  predicate NoWorse(tokens: seq<nat>, target: nat, parts: seq<seq<nat>>) {
    && |GreedyBatches(tokens, target)| <= |parts|
    && (tokens != [] && |GreedyBatches(tokens, target)| == |parts| ==>
          |Greedy(tokens, target).current.indices| <= |parts[|parts| - 1]|)
  }

  lemma {:induction false} OptimalAndShort(tokens: seq<nat>, target: nat, parts: seq<seq<nat>>)
    requires IsSplit(parts, tokens, target)
    ensures NoWorse(tokens, target, parts)
    decreases |tokens| + |parts|
  {
    if parts == [] {
    } else if parts[|parts| - 1] == [] {
      var fewer := parts[..|parts| - 1];
      assert Flatten(fewer) + [] == Flatten(fewer);
      OptimalAndShort(tokens, target, fewer);
    } else {
      var shorter := SplitOfPrefix(parts, tokens, target);
      OptimalAndShort(tokens[..|tokens| - 1], target, shorter);
      OneMoreArticle(tokens, target, parts, shorter);
    }
  }

  lemma OneMoreArticle(tokens: seq<nat>, target: nat, parts: seq<seq<nat>>, shorter: seq<seq<nat>>)
    requires tokens != [] && IsSplit(parts, tokens, target) && parts != [] && parts[|parts| - 1] != []
    requires NoWorse(tokens[..|tokens| - 1], target, shorter)
    requires var last := parts[|parts| - 1];
             if |last| == 1 then |shorter| == |parts| - 1
             else |shorter| == |parts| && |shorter[|parts| - 1]| == |last| - 1
    ensures NoWorse(tokens, target, parts)
  {
    var n, m, last := |tokens| - 1, |parts|, parts[|parts| - 1];
    var q := Greedy(tokens[..n], target);
    CurrentIsSuffix(tokens[..n], target);
    if |last| > 1 && |Batches(q)| == m {
      assert tokens == Flatten(parts[..m - 1]) + last;
      RoomForLast(tokens, target, last);
    }
  }

  /** No contiguous split of the articles into admissible batches uses fewer batches. */
  lemma GreedyIsOptimal(tokens: seq<nat>, target: nat, parts: seq<seq<nat>>)
    requires IsSplit(parts, tokens, target)
    ensures |GreedyBatches(tokens, target)| <= |parts|
  {
    OptimalAndShort(tokens, target, parts);
  }

  // ---------------------------------------------------------------------------------------
  // How far from any grouping at all
  // ---------------------------------------------------------------------------------------

  function TokenSum(): Batch -> int {
    (b: Batch) => b.tokenSum
  }

  /** Two neighbouring batches never fit into one. */
  predicate NeighboursOverflow(batches: seq<Batch>, target: nat) {
    forall j :: 0 <= j < |batches| - 1 ==> batches[j].tokenSum + batches[j + 1].tokenSum >= target + 1
  }

  lemma AddOverflows(q: Packing, i: nat, t: nat, target: nat)
    requires q.current.indices == [] ==> q == Packing([], NO_BATCH)
    requires NeighboursOverflow(Batches(q), target)
    ensures NeighboursOverflow(Batches(Add(q, i, t, target)), target)
  {
    var n, b, c := |q.closed|, Batches(q), Batches(Add(q, i, t, target));
    forall j | 0 <= j < |c| - 1 ensures c[j].tokenSum + c[j + 1].tokenSum >= target + 1 {
      assert j < n ==> c[j] == q.closed[j] == b[j];
      assert j == n ==> c[j] == q.current;
      if j + 1 < |b| {
        assert b[j].tokenSum + b[j + 1].tokenSum >= target + 1;
        assert j + 1 == n ==> c[j + 1].tokenSum >= b[n].tokenSum;
      }
    }
  }

  /** No batch had room for the article after it. */
  predicate NoRoomForNext(batches: seq<Batch>, tokens: seq<nat>, target: nat) {
    forall j :: 0 <= j < |batches| - 1 ==> NoRoomFor(batches[j], batches[j + 1], tokens, target)
  }

  predicate NoRoomFor(b: Batch, next: Batch, tokens: seq<nat>, target: nat) {
    next.indices != [] && next.indices[0] < |tokens| && b.tokenSum + tokens[next.indices[0]] > target
  }

  lemma AddLeavesNoRoom(q: Packing, tokens: seq<nat>, t: nat, target: nat)
    requires q.current.indices == [] ==> q == Packing([], NO_BATCH)
    requires NoRoomForNext(Batches(q), tokens, target)
    ensures NoRoomForNext(Batches(Add(q, |tokens|, t, target)), tokens + [t], target)
  {
    var n, b, c := |q.closed|, Batches(q), Batches(Add(q, |tokens|, t, target));
    forall j | 0 <= j < |c| - 1
      ensures NoRoomFor(c[j], c[j + 1], tokens + [t], target)
    {
      assert j < n ==> c[j] == q.closed[j] == b[j];
      assert j == n ==> c[j] == q.current;
      if j + 1 < |b| {
        assert NoRoomFor(b[j], b[j + 1], tokens, target);
      }
    }
  }

  /** A batch is closed only when the next article does not fit: with the partition this leaves no choice. */
  lemma {:induction false} GreedyLeavesNoRoom(tokens: seq<nat>, target: nat)
    ensures NoRoomForNext(GreedyBatches(tokens, target), tokens, target)
  {
    if tokens != [] {
      var n := |tokens| - 1;
      GreedyLeavesNoRoom(tokens[..n], target);
      GreedyNeighbours(tokens[..n], target);
      AddLeavesNoRoom(Greedy(tokens[..n], target), tokens[..n], tokens[n], target);
      assert tokens == tokens[..n] + [tokens[n]];
    }
  }

  lemma AddTotal(q: Packing, i: nat, t: nat, target: nat)
    requires q.current.indices == [] ==> q == Packing([], NO_BATCH)
    ensures Sum(Batches(Add(q, i, t, target)), TokenSum()) == Sum(Batches(q), TokenSum()) + t
  {
    var p := Add(q, i, t, target);
    if q.current.indices == [] {
      assert Batches(p) == Batches(q) + [p.current];
      SumAppend(Batches(q), p.current, TokenSum());
    } else if q.current.tokenSum + t > target {
      assert Batches(p) == Batches(q) + [p.current];
      SumAppend(Batches(q), p.current, TokenSum());
    } else {
      assert Batches(p) == Batches(q)[|q.closed| := p.current];
      SumUpdate(Batches(q), |q.closed|, p.current, TokenSum());
    }
  }

  lemma {:induction false} GreedyNeighbours(tokens: seq<nat>, target: nat)
    ensures NeighboursOverflow(GreedyBatches(tokens, target), target)
    ensures Sum(GreedyBatches(tokens, target), TokenSum()) == Sum(tokens, Tokens())
    ensures tokens != [] ==> Greedy(tokens, target).current.indices != []
  {
    if tokens != [] {
      hide NeighboursOverflow, Batches;
      var n := |tokens| - 1;
      GreedyNeighbours(tokens[..n], target);
      AddOverflows(Greedy(tokens[..n], target), n, tokens[n], target);
      AddTotal(Greedy(tokens[..n], target), n, tokens[n], target);
    }
  }

  lemma {:induction false} PairsWeigh(batches: seq<Batch>, target: nat)
    requires NeighboursOverflow(batches, target)
    ensures Sum(batches, TokenSum()) >= |batches| / 2 * (target + 1)
  {
    var n := |batches|;
    if n >= 2 {
      PairsWeigh(batches[..n - 2], target);
      assert batches[..n - 1][..n - 2] == batches[..n - 2];
      assert n / 2 == (n - 2) / 2 + 1;
      assert n / 2 * (target + 1) == (n - 2) / 2 * (target + 1) + (target + 1);
    } else {
      SumNonNegative(batches, TokenSum());
    }
  }

  /** The packer keeps batches at least half full on average. */
  lemma GreedyHalfFull(tokens: seq<nat>, target: nat)
    ensures Sum(tokens, Tokens()) >= |GreedyBatches(tokens, target)| / 2 * (target + 1)
  {
    GreedyNeighbours(tokens, target);
    PairsWeigh(GreedyBatches(tokens, target), target);
  }

  /** The tokens assigned to group g. */
  function GroupSum(tokens: seq<nat>, group: seq<nat>, g: nat): nat
    requires |group| == |tokens|
  {
    if tokens == [] then 0
    else
      var n := |tokens| - 1;
      GroupSum(tokens[..n], group[..n], g) + (if group[n] == g then tokens[n] else 0)
  }

  function GroupTotal(tokens: seq<nat>, group: seq<nat>, m: nat): nat
    requires |group| == |tokens|
  {
    if m == 0 then 0 else GroupTotal(tokens, group, m - 1) + GroupSum(tokens, group, m - 1)
  }

  /** A grouping of the articles into m groups, in any order, each within the target. */
  predicate IsGrouping(tokens: seq<nat>, group: seq<nat>, m: nat, target: nat) {
    && |group| == |tokens|
    && (forall i :: 0 <= i < |group| ==> group[i] < m)
    && forall g: nat :: g < m ==> GroupSum(tokens, group, g) <= target
  }

  lemma {:induction false} GroupTotalStep(tokens: seq<nat>, group: seq<nat>, m: nat)
    requires tokens != [] && |group| == |tokens|
    ensures var n := |tokens| - 1;
            GroupTotal(tokens, group, m)
            == GroupTotal(tokens[..n], group[..n], m) + (if group[n] < m then tokens[n] else 0)
  {
    if m > 0 {
      GroupTotalStep(tokens, group, m - 1);
    }
  }

  lemma {:induction false} GroupTotalEmpty(m: nat)
    ensures GroupTotal([], [], m) == 0
  {
    if m > 0 {
      GroupTotalEmpty(m - 1);
    }
  }

  lemma {:induction false} GroupsCoverAll(tokens: seq<nat>, group: seq<nat>, m: nat)
    requires |group| == |tokens|
    requires forall i :: 0 <= i < |group| ==> group[i] < m
    ensures GroupTotal(tokens, group, m) == Sum(tokens, Tokens())
  {
    if tokens == [] {
      GroupTotalEmpty(m);
    } else {
      var n := |tokens| - 1;
      GroupsCoverAll(tokens[..n], group[..n], m);
      GroupTotalStep(tokens, group, m);
    }
  }

  lemma {:induction false} GroupsWithinTarget(tokens: seq<nat>, group: seq<nat>, m: nat, k: nat, target: nat)
    requires IsGrouping(tokens, group, m, target) && k <= m
    ensures GroupTotal(tokens, group, k) <= k * target
    decreases k
  {
    if k > 0 {
      GroupsWithinTarget(tokens, group, m, k - 1, target);
      assert k * target == (k - 1) * target + target;
    }
  }

  lemma {:induction false} ScaleMonotone(a: nat, b: nat, c: nat)
    requires a <= b
    ensures a * c <= b * c
    decreases b - a
  {
    if a < b {
      ScaleMonotone(a, b - 1, c);
      assert b * c == (b - 1) * c + c;
    }
  }

  /** If the articles can be grouped within the target into m groups, contiguous or not, the
      greedy packer uses at most 2m - 1 batches. */
  lemma GreedyWithinTwice(tokens: seq<nat>, target: nat, group: seq<nat>, m: nat)
    requires tokens != [] && IsGrouping(tokens, group, m, target)
    ensures |GreedyBatches(tokens, target)| <= 2 * m - 1
  {
    assert group[0] < m;
    GreedyHalfFull(tokens, target);
    GroupsCoverAll(tokens, group, m);
    GroupsWithinTarget(tokens, group, m, m, target);
    HalfAtMost(|GreedyBatches(tokens, target)|, m, target);
  }

  lemma HalfAtMost(k: nat, m: nat, target: nat)
    requires m > 0 && k / 2 * (target + 1) <= m * target
    ensures k <= 2 * m - 1
  {
    assert m * (target + 1) == m * target + m;
    if k / 2 >= m {
      ScaleMonotone(m, k / 2, target + 1);
      assert false;
    }
  }

  // ---------------------------------------------------------------------------------------
  // Planning a job
  // ---------------------------------------------------------------------------------------

  /** An article as the planner sees it: its id and the provider's token count of its content. */
  datatype Article = Article(id: string, tokens: nat)

  datatype PlannedBatch = PlannedBatch(batchNumber: nat, articleIds: seq<string>, estimatedTokens: nat)

  /** Tokens added per batch for the few-shot prefix. */
  const FEW_SHOT_OVERHEAD_TOKENS: nat := 900

  function TokensOf(articles: seq<Article>): (r: seq<nat>)
    ensures |r| == |articles|
    ensures forall i :: 0 <= i < |articles| ==> r[i] == articles[i].tokens
  {
    seq(|articles|, i requires 0 <= i < |articles| => articles[i].tokens)
  }

  function IdsOf(articles: seq<Article>): (r: seq<string>)
    ensures |r| == |articles|
    ensures forall i :: 0 <= i < |articles| ==> r[i] == articles[i].id
  {
    seq(|articles|, i requires 0 <= i < |articles| => articles[i].id)
  }

  /** 80 percent of the provider's input window. */
  function Target(maxInputTokens: nat): nat {
    maxInputTokens * 4 / 5
  }

  function EstimatedTotal(articles: seq<Article>, maxInputTokens: nat): int {
    Sum(TokensOf(articles), Tokens())
    + |GreedyBatches(TokensOf(articles), Target(maxInputTokens))| * FEW_SHOT_OVERHEAD_TOKENS
  }

  function ArticleIdsOf(rows: seq<PlannedBatch>): (r: seq<seq<string>>)
    ensures |r| == |rows|
    ensures forall b :: 0 <= b < |rows| ==> r[b] == rows[b].articleIds
  {
    seq(|rows|, b requires 0 <= b < |rows| => rows[b].articleIds)
  }

  function IdsAt(articles: seq<Article>, indices: seq<nat>): (r: seq<string>)
    requires forall k :: 0 <= k < |indices| ==> indices[k] < |articles|
    ensures |r| == |indices|
    ensures forall k :: 0 <= k < |indices| ==> r[k] == articles[indices[k]].id
  {
    seq(|indices|, k requires 0 <= k < |indices| => articles[indices[k]].id)
  }

  /** The agent's estimate of a whole job. */
  method EstimateJob(articles: seq<Article>, packed: seq<Batch>) returns (total: nat)
    ensures total == Sum(TokensOf(articles), Tokens()) + |packed| * FEW_SHOT_OVERHEAD_TOKENS
  {
    total := 0;
    for i := 0 to |articles|
      invariant total == Sum(TokensOf(articles)[..i], Tokens())
    {
      assert TokensOf(articles)[..i + 1][..i] == TokensOf(articles)[..i];
      total := total + articles[i].tokens;
    }
    assert TokensOf(articles)[..|articles|] == TokensOf(articles);
    total := total + |packed| * FEW_SHOT_OVERHEAD_TOKENS;
  }

  predicate WithinArticles(packed: seq<Batch>, n: nat) {
    forall b :: 0 <= b < |packed| ==> forall k :: 0 <= k < |packed[b].indices| ==> packed[b].indices[k] < n
  }

  /** One numbered row per batch, from 1. */
  method NumberRows(articles: seq<Article>, packed: seq<Batch>) returns (rows: seq<PlannedBatch>)
    requires WithinArticles(packed, |articles|)
    ensures |rows| == |packed|
    ensures forall b :: 0 <= b < |rows| ==>
              rows[b] == PlannedBatch(b + 1, IdsAt(articles, packed[b].indices), packed[b].tokenSum)
  {
    rows := [];
    for b := 0 to |packed|
      invariant |rows| == b
      invariant forall k :: 0 <= k < b ==>
                  rows[k] == PlannedBatch(k + 1, IdsAt(articles, packed[k].indices), packed[k].tokenSum)
    {
      rows := rows + [PlannedBatch(b + 1, IdsAt(articles, packed[b].indices), packed[b].tokenSum)];
    }
  }

  /** The agent's reasoning and planning steps: pack, check the cap, write numbered batch rows.
      `cap` is MAX_TOKENS_PER_JOB. The rows split the article ids, in order, into the batches. */
  method PlanJob(articles: seq<Article>, maxInputTokens: nat, cap: nat) returns (r: Result<seq<PlannedBatch>>)
    ensures r.Failure? <==> EstimatedTotal(articles, maxInputTokens) > cap
    ensures r.Success? ==>
              var rows, packed := r.value, GreedyBatches(TokensOf(articles), Target(maxInputTokens));
              && |rows| == |packed|
              && (forall b :: 0 <= b < |rows| ==>
                    rows[b].batchNumber == b + 1 && rows[b].estimatedTokens == packed[b].tokenSum)
              && WithinArticles(packed, |articles|)
              && (forall b :: 0 <= b < |rows| ==> rows[b].articleIds == IdsAt(articles, packed[b].indices))
              && (forall b :: 0 <= b < |rows| && |rows[b].articleIds| > 1 ==>
                    5 * rows[b].estimatedTokens <= 4 * maxInputTokens)
              && Sum(TokensOf(articles), Tokens()) + 900 * |rows| <= cap
              && Flatten(ArticleIdsOf(rows)) == IdsOf(articles)
  {
    hide GreedyBatches, Flatten, Sum;
    var target := maxInputTokens * 4 / 5;
    var packed := CreateBatches(TokensOf(articles), target);
    var total := EstimateJob(articles, packed);
    if total > cap {
      return Failure("enrichment estimate exceeds MAX_TOKENS_PER_JOB");
    }
    GreedyPartitions(TokensOf(articles), target);
    var rows := NumberRows(articles, packed);
    IdsOfPrefix(articles, packed, rows);
    assert IdsAt(articles, Upto(|articles|)) == IdsOf(articles);
    r := Success(rows);
  }

  lemma {:induction false} IdsOfPrefix(articles: seq<Article>, packed: seq<Batch>, rows: seq<PlannedBatch>)
    requires WithinArticles(packed, |articles|)
    requires |rows| == |packed|
    requires forall b :: 0 <= b < |rows| ==> rows[b].articleIds == IdsAt(articles, packed[b].indices)
    ensures var all: seq<nat> := Flatten(IndicesOf(packed));
            && (forall k :: 0 <= k < |all| ==> all[k] < |articles|)
            && Flatten(ArticleIdsOf(rows)) == IdsAt(articles, all)
  {
    if packed != [] {
      hide IndicesOf;
      var n := |packed| - 1;
      IdsOfPrefix(articles, packed[..n], rows[..n]);
      assert packed == packed[..n] + [packed[n]];
      IndicesAppend(packed[..n], packed[n]);
      assert ArticleIdsOf(rows)[..n] == ArticleIdsOf(rows[..n]);
      IdsAtAppend(articles, Flatten(IndicesOf(packed[..n])), packed[n].indices);
    }
  }

  lemma IdsAtAppend(articles: seq<Article>, a: seq<nat>, b: seq<nat>)
    requires forall k :: 0 <= k < |a + b| ==> (a + b)[k] < |articles|
    requires forall k :: 0 <= k < |a| ==> a[k] < |articles|
    requires forall k :: 0 <= k < |b| ==> b[k] < |articles|
    ensures IdsAt(articles, a + b) == IdsAt(articles, a) + IdsAt(articles, b)
  {
  }

  /** The estimate is every article's tokens and 900 more per batch. */
  lemma EstimateIs(articles: seq<Article>, maxInputTokens: nat)
    ensures EstimatedTotal(articles, maxInputTokens)
            == Sum(TokensOf(articles), Tokens()) + 900 * |GreedyBatches(TokensOf(articles), Target(maxInputTokens))|
  {
  }

  /** A batch of the plan holds the tokens of its articles, and only a single article may take more than
      four fifths of the window; two neighbours together always do. */
  lemma BatchesFitTheWindow(articles: seq<Article>, maxInputTokens: nat, b: nat)
    requires b < |GreedyBatches(TokensOf(articles), Target(maxInputTokens))|
    ensures var packed := GreedyBatches(TokensOf(articles), Target(maxInputTokens));
            && (forall k :: 0 <= k < |packed[b].indices| ==> packed[b].indices[k] < |articles|)
            && packed[b].tokenSum == Sum(At(TokensOf(articles), packed[b].indices), Tokens())
            && (|packed[b].indices| > 1 ==> 5 * packed[b].tokenSum <= 4 * maxInputTokens)
            && (b + 1 < |packed| ==> 5 * (packed[b].tokenSum + packed[b + 1].tokenSum) > 4 * maxInputTokens)
  {
    GreedyPartitions(TokensOf(articles), Target(maxInputTokens));
    GreedyNeighbours(TokensOf(articles), Target(maxInputTokens));
    hide GreedyBatches, Sum;
    assert Admissible(GreedyBatches(TokensOf(articles), Target(maxInputTokens))[b], TokensOf(articles), Target(maxInputTokens));
  }

  /** A job that passes the cap has at most cap / 900 batches, and pays for half-full batches too. */
  lemma CapBoundsBatches(articles: seq<Article>, maxInputTokens: nat, cap: nat)
    requires EstimatedTotal(articles, maxInputTokens) <= cap
    ensures var k := |GreedyBatches(TokensOf(articles), Target(maxInputTokens))|;
            && k <= cap / FEW_SHOT_OVERHEAD_TOKENS
            && k * FEW_SHOT_OVERHEAD_TOKENS + k / 2 * (Target(maxInputTokens) + 1) <= cap
  {
    GreedyHalfFull(TokensOf(articles), Target(maxInputTokens));
    SumNonNegative(TokensOf(articles), Tokens());
  }
}
