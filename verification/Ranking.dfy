/** Counting terms and ranking them: most frequent first, ties broken by a strict total order that
    stands for localeCompare. */
module Ranking {

  datatype Counted = Counted(term: string, count: nat)

  type Less = (string, string) -> bool

  ghost predicate StrictTotalOrder(less: Less) {
    && (forall a :: !less(a, a))
    && (forall a, b, c :: less(a, b) && less(b, c) ==> less(a, c))
    && (forall a, b :: a != b ==> less(a, b) || less(b, a))
  }

  /** The comparator: higher count first, then the order on terms. */
  predicate Before(less: Less, a: Counted, b: Counted) {
    if b.count != a.count then b.count < a.count else less(a.term, b.term)
  }

  predicate Sorted(r: seq<Counted>, less: Less) {
    forall i, j :: 0 <= i < j < |r| ==> Before(less, r[i], r[j])
  }

  /** Every term that occurs at least threshold times, with its number of occurrences, once, in strict
      order. It speaks only of how often terms occur. */
  ghost predicate IsRanking(r: seq<Counted>, counts: multiset<string>, threshold: nat, less: Less) {
    && (forall x :: x in r <==> x.count == counts[x.term] && x.count >= threshold)
    && Sorted(r, less)
  }

  lemma Asymmetric(less: Less, a: Counted, b: Counted)
    requires StrictTotalOrder(less) && Before(less, a, b)
    ensures !Before(less, b, a)
  {
  }

  lemma BeforeTransitive(less: Less, a: Counted, b: Counted, c: Counted)
    requires StrictTotalOrder(less) && Before(less, a, b) && Before(less, b, c)
    ensures Before(less, a, c)
  {
  }

  lemma SameHead(r: seq<Counted>, s: seq<Counted>, less: Less)
    requires StrictTotalOrder(less) && Sorted(r, less) && Sorted(s, less) && r != [] && s != []
    requires forall x :: x in r <==> x in s
    ensures r[0] == s[0]
  {
    assert r[0] in s && s[0] in r;
    var j :| 0 <= j < |s| && s[j] == r[0];
    var i :| 0 <= i < |r| && r[i] == s[0];
    if i > 0 && j > 0 {
      Asymmetric(less, r[0], s[0]);
    }
  }

  lemma TailMembers(r: seq<Counted>, less: Less)
    requires StrictTotalOrder(less) && Sorted(r, less) && r != []
    ensures Sorted(r[1..], less)
    ensures forall x :: x in r[1..] <==> x in r && x != r[0]
  {
    forall x | x in r[1..] ensures x in r && x != r[0] {
      var i :| 0 <= i < |r| - 1 && r[1..][i] == x;
      assert r[i + 1] == x;
      Asymmetric(less, r[0], x);
    }
  }

  /** Two strictly sorted lists with the same members are the same list. */
  lemma {:induction false} SortedUnique(r: seq<Counted>, s: seq<Counted>, less: Less)
    requires StrictTotalOrder(less) && Sorted(r, less) && Sorted(s, less)
    requires forall x :: x in r <==> x in s
    ensures r == s
  {
    assert s == [] || s[0] in s;
    if r != [] {
      assert r[0] in r;
      SameHead(r, s, less);
      TailMembers(r, less);
      TailMembers(s, less);
      SortedUnique(r[1..], s[1..], less);
      assert r == [r[0]] + r[1..] && s == [s[0]] + s[1..];
    }
  }

  lemma RankingUnique(r: seq<Counted>, s: seq<Counted>, counts: multiset<string>, threshold: nat, less: Less)
    requires StrictTotalOrder(less)
    requires IsRanking(r, counts, threshold, less) && IsRanking(s, counts, threshold, less)
    ensures r == s
  {
    hide Sorted, StrictTotalOrder;
    SortedUnique(r, s, less);
  }

  // ---------------------------------------------------------------------------------------
  // Counting
  // ---------------------------------------------------------------------------------------

  /** The distinct terms in order of first occurrence: the key order of the counting map. */
  function Distinct(tokens: seq<string>): seq<string> {
    if tokens == [] then []
    else
      var before, t := Distinct(tokens[..|tokens| - 1]), tokens[|tokens| - 1];
      if t in before then before else before + [t]
  }

  lemma {:induction false} DistinctAre(tokens: seq<string>)
    ensures forall t :: t in Distinct(tokens) <==> t in tokens
    ensures forall i, j :: 0 <= i < j < |Distinct(tokens)| ==> Distinct(tokens)[i] != Distinct(tokens)[j]
  {
    if tokens != [] {
      DistinctAre(tokens[..|tokens| - 1]);
      assert tokens == tokens[..|tokens| - 1] + [tokens[|tokens| - 1]];
    }
  }

  /** The entries pushed for the terms that occur often enough. */
  function Entries(terms: seq<string>, counts: multiset<string>, threshold: nat): seq<Counted> {
    if terms == [] then []
    else
      var before, t := Entries(terms[..|terms| - 1], counts, threshold), terms[|terms| - 1];
      if counts[t] >= threshold then before + [Counted(t, counts[t])] else before
  }

  lemma {:induction false} EntriesAre(terms: seq<string>, counts: multiset<string>, threshold: nat)
    ensures forall x :: x in Entries(terms, counts, threshold) <==>
              x.term in terms && x.count == counts[x.term] && x.count >= threshold
  {
    if terms != [] {
      EntriesAre(terms[..|terms| - 1], counts, threshold);
      assert terms == terms[..|terms| - 1] + [terms[|terms| - 1]];
    }
  }

  // ---------------------------------------------------------------------------------------
  // Sorting
  // ---------------------------------------------------------------------------------------

  function Insert(x: Counted, s: seq<Counted>, less: Less): seq<Counted> {
    if s == [] then [x]
    else if Before(less, x, s[0]) then [x] + s
    else [s[0]] + Insert(x, s[1..], less)
  }

  /** entries.sort with the comparator. */
  function SortEntries(entries: seq<Counted>, less: Less): seq<Counted> {
    if entries == [] then []
    else Insert(entries[|entries| - 1], SortEntries(entries[..|entries| - 1], less), less)
  }

  lemma {:induction false} InsertMembers(x: Counted, s: seq<Counted>, less: Less)
    ensures forall y :: y in Insert(x, s, less) <==> y == x || y in s
  {
    if s != [] && !Before(less, x, s[0]) {
      InsertMembers(x, s[1..], less);
      assert s == [s[0]] + s[1..];
    }
  }

  predicate OtherTerms(x: Counted, s: seq<Counted>) {
    forall i :: 0 <= i < |s| ==> s[i].term != x.term
  }

  lemma {:induction false} InsertSorted(x: Counted, s: seq<Counted>, less: Less)
    requires StrictTotalOrder(less) && Sorted(s, less) && OtherTerms(x, s)
    ensures Sorted(Insert(x, s, less), less)
  {
    if s != [] {
      if Before(less, x, s[0]) {
        ConsFront(x, s, less);
      } else {
        InsertSorted(x, s[1..], less);
        InsertMembers(x, s[1..], less);
        assert Before(less, s[0], x);
        hide StrictTotalOrder, Before;
        ConsSorted(s[0], Insert(x, s[1..], less), less);
      }
    }
  }

  lemma ConsFront(x: Counted, s: seq<Counted>, less: Less)
    requires StrictTotalOrder(less) && Sorted(s, less) && s != [] && Before(less, x, s[0])
    ensures Sorted([x] + s, less)
  {
    hide StrictTotalOrder, Before;
    forall y | y in s ensures Before(less, x, y) {
      var j :| 0 <= j < |s| && s[j] == y;
      if j > 0 {
        BeforeTransitive(less, x, s[0], y);
      }
    }
    ConsSorted(x, s, less);
  }

  lemma ConsSorted(x: Counted, s: seq<Counted>, less: Less)
    requires Sorted(s, less) && forall y :: y in s ==> Before(less, x, y)
    ensures Sorted([x] + s, less)
  {
    hide Before;
    var r := [x] + s;
    forall i, j | 0 <= i < j < |r| ensures Before(less, r[i], r[j]) {
      assert r[j] == s[j - 1];
      if i > 0 {
        assert r[i] == s[i - 1];
      }
    }
  }

  predicate DistinctTerms(entries: seq<Counted>) {
    forall i, j :: 0 <= i < j < |entries| ==> entries[i].term != entries[j].term
  }

  lemma {:induction false} SortSorts(entries: seq<Counted>, less: Less)
    requires StrictTotalOrder(less) && DistinctTerms(entries)
    ensures Sorted(SortEntries(entries, less), less)
    ensures forall x :: x in SortEntries(entries, less) <==> x in entries
  {
    if entries != [] {
      hide StrictTotalOrder, Before, Insert;
      var n := |entries| - 1;
      var sorted := SortEntries(entries[..n], less);
      SortSorts(entries[..n], less);
      forall i | 0 <= i < |sorted| ensures sorted[i].term != entries[n].term {
        assert sorted[i] in entries[..n];
      }
      InsertSorted(entries[n], sorted, less);
      InsertMembers(entries[n], sorted, less);
      assert entries == entries[..n] + [entries[n]];
    }
  }

  lemma {:induction false} EntriesDistinct(terms: seq<string>, counts: multiset<string>, threshold: nat)
    requires forall i, j :: 0 <= i < j < |terms| ==> terms[i] != terms[j]
    ensures DistinctTerms(Entries(terms, counts, threshold))
  {
    if terms != [] {
      var n := |terms| - 1;
      EntriesDistinct(terms[..n], counts, threshold);
      EntriesAre(terms[..n], counts, threshold);
      var before := Entries(terms[..n], counts, threshold);
      forall i | 0 <= i < |before| ensures before[i].term != terms[n] {
        assert before[i] in before;
      }
    }
  }

  // ---------------------------------------------------------------------------------------
  // The ranking
  // ---------------------------------------------------------------------------------------

  function RankingOf(tokens: seq<string>, threshold: nat, less: Less): seq<Counted> {
    SortEntries(Entries(Distinct(tokens), multiset(tokens), threshold), less)
  }

  lemma RankingRanks(tokens: seq<string>, threshold: nat, less: Less)
    requires StrictTotalOrder(less) && threshold >= 1
    ensures IsRanking(RankingOf(tokens, threshold, less), multiset(tokens), threshold, less)
  {
    hide StrictTotalOrder, Sorted, SortEntries, Entries, Distinct, DistinctTerms;
    DistinctAre(tokens);
    EntriesAre(Distinct(tokens), multiset(tokens), threshold);
    EntriesDistinct(Distinct(tokens), multiset(tokens), threshold);
    SortSorts(Entries(Distinct(tokens), multiset(tokens), threshold), less);
  }

  /** The order the terms came in does not matter. */
  lemma RankingIsCanonical(tokens: seq<string>, others: seq<string>, threshold: nat, less: Less)
    requires StrictTotalOrder(less) && threshold >= 1 && multiset(tokens) == multiset(others)
    ensures RankingOf(tokens, threshold, less) == RankingOf(others, threshold, less)
  {
    hide StrictTotalOrder, IsRanking, RankingOf;
    RankingRanks(tokens, threshold, less);
    RankingRanks(others, threshold, less);
    RankingUnique(RankingOf(tokens, threshold, less), RankingOf(others, threshold, less), multiset(tokens), threshold, less);
  }

  /** The counting map, filled token by token, its keys kept in insertion order. */
  method CountTerms(tokens: seq<string>) returns (counts: map<string, nat>, keys: seq<string>)
    ensures keys == Distinct(tokens)
    ensures forall t :: t in counts <==> t in tokens
    ensures forall t :: t in counts ==> counts[t] == multiset(tokens)[t]
  {
    counts, keys := map[], [];
    for k := 0 to |tokens|
      invariant keys == Distinct(tokens[..k])
      invariant forall t :: t in counts <==> t in tokens[..k]
      invariant forall t :: t in counts ==> counts[t] == multiset(tokens[..k])[t]
    {
      var t := tokens[k];
      DistinctAre(tokens[..k]);
      assert tokens[..k + 1][..k] == tokens[..k];
      assert tokens[..k + 1] == tokens[..k] + [t];
      if t in counts {
        counts := counts[t := counts[t] + 1];
      } else {
        counts := counts[t := 1];
        keys := keys + [t];
      }
    }
    assert tokens[..|tokens|] == tokens;
  }

  method CountAndRank(tokens: seq<string>, threshold: nat, less: Less) returns (r: seq<Counted>)
    ensures r == RankingOf(tokens, threshold, less)
  {
    hide SortEntries;
    var counts, keys := CountTerms(tokens);
    DistinctAre(tokens);
    var entries: seq<Counted> := [];
    for k := 0 to |keys|
      invariant entries == Entries(keys[..k], multiset(tokens), threshold)
    {
      assert keys[..k + 1][..k] == keys[..k];
      assert keys[k] in keys;
      if counts[keys[k]] >= threshold {
        entries := entries + [Counted(keys[k], counts[keys[k]])];
      }
    }
    assert keys[..|keys|] == keys;
    r := SortEntries(entries, less);
  }
}
