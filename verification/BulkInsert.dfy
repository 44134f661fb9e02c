/** Page-by-page, chunk-by-chunk insertion of fetched articles, skipping duplicates. */
module BulkInsert {
  import opened Outcomes

  /** A row of one chat's articles: its cluster id, unique within the chat, and all other columns. */
  datatype Article = Article(openSearchId: string, fields: string)

  datatype BulkInsertResult = BulkInsertResult(inserted: nat, batches: nat)

  datatype Page = Page(articles: seq<Article>, isLastPage: bool)

  const DEFAULT_BATCH_SIZE: int := 500
  const PRESENCE_SAMPLE_SIZE: nat := 50

  function Ids(rows: seq<Article>): set<string> {
    set i | 0 <= i < |rows| :: rows[i].openSearchId
  }

  /** ON CONFLICT DO NOTHING, row by row. */
  function Inserted(table: seq<Article>, rows: seq<Article>): (r: seq<Article>)
  {
    if rows == [] then table
    else
      var before := Inserted(table, rows[..|rows| - 1]);
      if rows[|rows| - 1].openSearchId in Ids(before) then before else before + [rows[|rows| - 1]]
  }

  // ---------------------------------------------------------------------------------------
  // What an insert leaves in the table
  // ---------------------------------------------------------------------------------------

  lemma IdsAppend(rows: seq<Article>, a: Article)
    ensures Ids(rows + [a]) == Ids(rows) + {a.openSearchId}
  {
    var more := rows + [a];
    assert more[|rows|] == a;
    forall id | id in Ids(rows) ensures id in Ids(more) {
      var i :| 0 <= i < |rows| && rows[i].openSearchId == id;
      assert more[i] == rows[i];
    }
    forall id | id in Ids(more) ensures id in Ids(rows) || id == a.openSearchId {
      var i :| 0 <= i < |more| && more[i].openSearchId == id;
      if i < |rows| {
        assert rows[i].openSearchId == id;
      }
    }
  }

  lemma IdsSplit(rows: seq<Article>)
    requires rows != []
    ensures Ids(rows) == Ids(rows[..|rows| - 1]) + {rows[|rows| - 1].openSearchId}
  {
    assert rows == rows[..|rows| - 1] + [rows[|rows| - 1]];
    IdsAppend(rows[..|rows| - 1], rows[|rows| - 1]);
  }

  /** The ids afterwards are the union, and the number of rows added is the number of distinct ids
      that were not in the table. */
  lemma {:induction false} CountsNewIds(table: seq<Article>, rows: seq<Article>)
    ensures Ids(Inserted(table, rows)) == Ids(table) + Ids(rows)
    ensures |Inserted(table, rows)| == |table| + |Ids(rows) - Ids(table)|
  {
    if rows == [] {
      assert Ids(rows) - Ids(table) == {};
    } else {
      hide Ids;
      var prefix, last := rows[..|rows| - 1], rows[|rows| - 1];
      CountsNewIds(table, prefix);
      IdsSplit(rows);
      IdsAppend(Inserted(table, prefix), last);
      OneMoreId(Ids(table), Ids(prefix), last.openSearchId);
    }
  }

  lemma OneMoreId(known: set<string>, seen: set<string>, id: string)
    ensures id in known + seen ==> seen + {id} - known == seen - known
    ensures id !in known + seen ==> |seen + {id} - known| == |seen - known| + 1
  {
    if id !in known + seen {
      assert seen + {id} - known == (seen - known) + {id};
    }
  }

  /** Inserting in two steps or in one is the same. */
  lemma {:induction false} InsertConcat(table: seq<Article>, a: seq<Article>, b: seq<Article>)
    ensures Inserted(Inserted(table, a), b) == Inserted(table, a + b)
  {
    if b == [] {
      assert a + b == a;
    } else {
      hide Ids;
      var n := |b| - 1;
      InsertConcat(table, a, b[..n]);
      assert (a + b)[..|a + b| - 1] == a + b[..n];
      assert (a + b)[|a + b| - 1] == b[n];
    }
  }

  lemma {:induction false} InsertKnown(table: seq<Article>, rows: seq<Article>)
    requires Ids(rows) <= Ids(table)
    ensures Inserted(table, rows) == table
  {
    if rows != [] {
      hide Ids;
      IdsSplit(rows);
      InsertKnown(table, rows[..|rows| - 1]);
    }
  }

  /** Running the same insert again adds nothing. */
  lemma RerunInsertsNothing(table: seq<Article>, rows: seq<Article>)
    ensures Inserted(Inserted(table, rows), rows) == Inserted(table, rows)
  {
    CountsNewIds(table, rows);
    InsertKnown(Inserted(table, rows), rows);
  }

  /** A run that failed after some of its rows and is then run in full leaves what one full run
      would have left. */
  lemma ResumeAfterFailure(table: seq<Article>, done: seq<Article>, rest: seq<Article>)
    ensures Inserted(Inserted(table, done), done + rest) == Inserted(table, done + rest)
  {
    InsertConcat(Inserted(table, done), done, rest);
    RerunInsertsNothing(table, done);
    InsertConcat(table, done, rest);
  }

  predicate UniqueIds(table: seq<Article>) {
    forall i, j :: 0 <= i < j < |table| ==> table[i].openSearchId != table[j].openSearchId
  }

  /** The unique index holds on. */
  lemma {:induction false} InsertKeepsUnique(table: seq<Article>, rows: seq<Article>)
    requires UniqueIds(table)
    ensures UniqueIds(Inserted(table, rows))
  {
    if rows != [] {
      InsertKeepsUnique(table, rows[..|rows| - 1]);
      var before := Inserted(table, rows[..|rows| - 1]);
      forall i | 0 <= i < |before| ensures before[i].openSearchId in Ids(before) {
      }
    }
  }

  /** Row i brings an id that neither the table nor an earlier row has. */
  predicate FirstWithId(table: seq<Article>, rows: seq<Article>, i: nat)
    requires i < |rows|
  {
    && rows[i].openSearchId !in Ids(table)
    && forall j :: 0 <= j < i ==> rows[j].openSearchId != rows[i].openSearchId
  }

  /** The positions of those rows, in order. */
  function Firsts(table: seq<Article>, rows: seq<Article>, n: nat): seq<Article>
    requires n <= |rows|
  {
    if n == 0 then [] else Firsts(table, rows, n - 1) + if FirstWithId(table, rows, n - 1) then [rows[n - 1]] else []
  }

  lemma NotInPrefix(rows: seq<Article>, n: nat)
    requires n < |rows|
    ensures rows[n].openSearchId !in Ids(rows[..n]) <==> forall j :: 0 <= j < n ==> rows[j].openSearchId != rows[n].openSearchId
  {
    forall j | 0 <= j < n ensures rows[j].openSearchId in Ids(rows[..n]) {
      assert rows[..n][j] == rows[j];
    }
  }

  lemma InsertStep(table: seq<Article>, rows: seq<Article>, n: nat)
    requires 1 <= n <= |rows|
    ensures var before := Inserted(table, rows[..n - 1]);
            Inserted(table, rows[..n]) == if FirstWithId(table, rows, n - 1) then before + [rows[n - 1]] else before
  {
    hide Ids;
    CountsNewIds(table, rows[..n - 1]);
    NotInPrefix(rows, n - 1);
    assert rows[..n][..n - 1] == rows[..n - 1] && rows[..n][n - 1] == rows[n - 1];
  }

  /** The first row with an id wins: what is added is, in order, the rows that first bring a new id. */
  lemma {:induction false} FirstRowWins(table: seq<Article>, rows: seq<Article>, n: nat)
    requires n <= |rows|
    ensures Inserted(table, rows[..n]) == table + Firsts(table, rows, n)
  {
    hide Inserted, FirstWithId;
    if n == 0 {
      assert rows[..0] == [] && table + [] == table;
      NothingYet(table);
    } else {
      FirstRowWins(table, rows, n - 1);
      InsertStep(table, rows, n);
      Regroup(table, Firsts(table, rows, n - 1), rows[n - 1]);
    }
  }

  lemma Regroup(a: seq<Article>, b: seq<Article>, c: Article)
    ensures (a + b) + [c] == a + (b + [c]) && a + b == a + (b + [])
  {
  }

  // ---------------------------------------------------------------------------------------
  // Chunks
  // ---------------------------------------------------------------------------------------

  function Min(a: int, b: int): int {
    if a < b then a else b
  }

  /** k chunks of the given size are what n rows need. */
  predicate AreChunks(k: nat, n: nat, size: int) {
    k * size >= n && (k == 0 || (k - 1) * size < n)
  }

  /** That is the quotient, rounded up. */
  lemma ChunksRoundUp(k: nat, n: nat, size: nat)
    requires size > 0
    ensures AreChunks(k, n, size) <==> k == n / size + (if n % size == 0 then 0 else 1)
  {
    var q, r := n / size, n % size;
    assert n == q * size + r;
    assert (k - 1) * size == k * size - size;
    if k < q {
      Scales(k + 1, q, size);
    } else if k > q + 1 {
      Scales(q + 1, k - 1, size);
    } else if k == q + 1 {
      assert k * size == q * size + size;
    }
  }

  lemma Scales(a: nat, b: nat, size: nat)
    requires a <= b
    ensures a * size <= b * size
  {
  }

  class Articles {
    var rows: seq<Article>

    constructor ()
      ensures rows == []
    {
      rows := [];
    }

    /** createMany with skipDuplicates: the count of rows really inserted. */
    method CreateMany(data: seq<Article>) returns (count: nat)
      modifies this
      ensures rows == Inserted(old(rows), data) && |rows| == |old(rows)| + count
    {
      count := 0;
      for i := 0 to |data|
        invariant rows == Inserted(old(rows), data[..i]) && |rows| == |old(rows)| + count
      {
        assert data[..i + 1][..i] == data[..i];
        if data[i].openSearchId !in Ids(rows) {
          rows := rows + [data[i]];
          count := count + 1;
        }
      }
      assert data[..|data|] == data;
    }

    /** Whatever the chunk size, the table ends as after one insert of everything; the count is the
        number of distinct new ids and there is one chunk per started batchSize rows. */
    method BulkInsertArticles(articles: seq<Article>, batchSize: Option<int>) returns (r: Result<BulkInsertResult>)
      modifies this
      ensures r.Failure? <==> batchSize.Some? && batchSize.value <= 0
      ensures r.Failure? ==> rows == old(rows)
      ensures r.Success? ==>
                && rows == Inserted(old(rows), articles)
                && r.value.inserted == |Ids(articles) - Ids(old(rows))|
                && AreChunks(r.value.batches, |articles|, if batchSize.Some? then batchSize.value else 500)
    {
      hide Inserted, Ids;
      var size := if batchSize.Some? then batchSize.value else DEFAULT_BATCH_SIZE;
      if size <= 0 {
        return Failure("batchSize must be > 0");
      }
      var inserted, batches, i := 0, 0, 0;
      ghost var table := rows;
      NothingYet(table);
      assert articles[..0] == [];
      while i < |articles|
        invariant i == batches * size && (batches == 0 || i - size < |articles|)
        invariant rows == Inserted(table, articles[..Min(i, |articles|)]) && |rows| == |table| + inserted
        decreases |articles| - i
      {
        var end := Min(i + size, |articles|);
        var slice := articles[i..end];
        var count := CreateMany(slice);
        InsertConcat(table, articles[..i], slice);
        assert articles[..i] + slice == articles[..end];
        inserted := inserted + count;
        assert (batches + 1) * size == batches * size + size;
        batches := batches + 1;
        i := i + size;
      }
      assert articles[..|articles|] == articles;
      assert (batches - 1) * size == batches * size - size;
      CountsNewIds(table, articles);
      r := Success(BulkInsertResult(inserted, batches));
    }

    /** The fetch loop: it ends at an empty page or after the last page. However the articles are cut
        into pages, table, count, id list and presence sample depend only on the articles consumed. */
    method FetchPages(pages: seq<Page>) returns (inserted: nat, sample: seq<Article>, ids: seq<string>)
      modifies this
      ensures rows == Inserted(old(rows), Consumed(pages))
      ensures inserted == |Ids(Consumed(pages)) - Ids(old(rows))|
      ensures sample == if |Consumed(pages)| < 50 then Consumed(pages) else Consumed(pages)[..50]
      ensures ids == IdList(Consumed(pages))
    {
      hide Inserted, Ids, IdList, Consumed;
      inserted, sample, ids := 0, [], [];
      ghost var table, taken: seq<Article> := rows, [];
      NothingYet(table);
      var k, stop := 0, false;
      while k < |pages| && !stop
        invariant k <= |pages|
        invariant rows == Inserted(table, taken) && |rows| == |table| + inserted
        invariant sample == taken[..Min(PRESENCE_SAMPLE_SIZE, |taken|)] && ids == IdList(taken)
        invariant Consumed(pages) == if stop then taken else taken + Consumed(pages[k..])
      {
        var page := pages[k];
        ConsumedStep(pages[k..], taken);
        assert pages[k..][1..] == pages[k + 1..];
        k := k + 1;
        if page.articles == [] {
          stop := true;
        } else {
          var count;
          sample, ids := Collect(page.articles, sample, ids, taken);
          count := InsertPage(page.articles, table, taken);
          inserted := inserted + count;
          taken := taken + page.articles;
          stop := page.isLastPage;
        }
      }
      assert k == |pages| ==> pages[k..] == [];
      assert taken + [] == taken;
      CountsNewIds(table, taken);
      FirstFifty(taken);
    }

    /** One page is one bulk insert. */
    method InsertPage(articles: seq<Article>, ghost table: seq<Article>, ghost taken: seq<Article>)
      returns (count: nat)
      requires rows == Inserted(table, taken)
      modifies this
      ensures rows == Inserted(table, taken + articles) && |rows| == |old(rows)| + count
    {
      hide Inserted, Ids;
      CountsNewIds(rows, articles);
      InsertConcat(table, taken, articles);
      var result := BulkInsertArticles(articles, None);
      count := result.value.inserted;
    }
  }

  /** The fetch loop stops before an empty page and behind a last one. */
  predicate GoesOn(page: Page) {
    page.articles != [] && !page.isLastPage
  }

  /** The articles of the first n pages. */
  function ArticlesOf(pages: seq<Page>, n: nat): seq<Article>
    requires n <= |pages|
  {
    if n == 0 then [] else ArticlesOf(pages, n - 1) + pages[n - 1].articles
  }

  lemma {:induction false} ArticlesOfTail(pages: seq<Page>, n: nat)
    requires n < |pages|
    ensures ArticlesOf(pages, n + 1) == pages[0].articles + ArticlesOf(pages[1..], n)
  {
    if n > 0 {
      ArticlesOfTail(pages, n - 1);
      assert pages[1..][n - 1] == pages[n];
    } else {
      assert ArticlesOf(pages, 0) == [];
    }
  }

  /** What is consumed: all pages up to the first that is empty or marked as the last, with that one. */
  lemma {:induction false} ConsumesUpToTheEnd(pages: seq<Page>) returns (n: nat)
    ensures n <= |pages| && Consumed(pages) == ArticlesOf(pages, n)
    ensures forall k :: 0 <= k < n - 1 ==> GoesOn(pages[k])
    ensures n < |pages| ==> n > 0 && !GoesOn(pages[n - 1])
  {
    if pages == [] {
      n := 0;
    } else {
      var m := 0;
      if GoesOn(pages[0]) {
        m := ConsumesUpToTheEnd(pages[1..]);
      }
      n := m + 1;
      ArticlesOfTail(pages, m);
      assert forall k :: 0 < k < n - 1 ==> pages[1..][k - 1] == pages[k];
    }
  }

  lemma FirstFifty(taken: seq<Article>)
    ensures taken[..Min(PRESENCE_SAMPLE_SIZE, |taken|)] == if |taken| < 50 then taken else taken[..50]
  {
  }

  lemma ConsumedStep(pages: seq<Page>, taken: seq<Article>)
    requires pages != []
    ensures var first := pages[0].articles;
            taken + Consumed(pages) ==
              if first == [] then taken
              else if pages[0].isLastPage then taken + first
              else (taken + first) + Consumed(pages[1..])
  {
  }

  /** The presence sample takes the first rows until it is full; every id is listed. */
  method Collect(articles: seq<Article>, sample: seq<Article>, ids: seq<string>, ghost taken: seq<Article>)
    returns (sample': seq<Article>, ids': seq<string>)
    requires sample == taken[..Min(PRESENCE_SAMPLE_SIZE, |taken|)] && ids == IdList(taken)
    ensures sample' == (taken + articles)[..Min(PRESENCE_SAMPLE_SIZE, |taken + articles|)]
    ensures ids' == IdList(taken + articles)
  {
    sample', ids' := sample, ids;
    assert taken + articles[..0] == taken;
    for i := 0 to |articles|
      invariant sample' == (taken + articles[..i])[..Min(PRESENCE_SAMPLE_SIZE, |taken + articles[..i]|)]
      invariant ids' == IdList(taken + articles[..i])
    {
      assert taken + articles[..i + 1] == (taken + articles[..i]) + [articles[i]];
      if |sample'| < PRESENCE_SAMPLE_SIZE {
        sample' := sample' + [articles[i]];
      }
      ids' := ids' + [articles[i].openSearchId];
    }
    assert articles[..|articles|] == articles;
  }

  function IdList(rows: seq<Article>): (r: seq<string>)
    ensures |r| == |rows|
    ensures forall i :: 0 <= i < |rows| ==> r[i] == rows[i].openSearchId
  {
    seq(|rows|, i requires 0 <= i < |rows| => rows[i].openSearchId)
  }

  lemma NothingYet(table: seq<Article>)
    ensures Inserted(table, []) == table && IdList([]) == [] && Consumed([]) == []
  {
  }

  /** The articles of the pages up to the first empty one or the first last one. */
  function Consumed(pages: seq<Page>): seq<Article> {
    if pages == [] || pages[0].articles == [] then []
    else pages[0].articles + if pages[0].isLastPage then [] else Consumed(pages[1..])
  }

  /** One insert per page. */
  function InsertPages(table: seq<Article>, pages: seq<Page>): seq<Article>
    decreases |pages|
  {
    if pages == [] || pages[0].articles == [] then table
    else
      var after := Inserted(table, pages[0].articles);
      if pages[0].isLastPage then after else InsertPages(after, pages[1..])
  }

  lemma {:induction false} PagesAreOneInsert(table: seq<Article>, pages: seq<Page>)
    ensures InsertPages(table, pages) == Inserted(table, Consumed(pages))
    decreases |pages|
  {
    hide Inserted;
    NothingYet(table);
    if pages != [] && pages[0].articles != [] {
      var first := pages[0].articles;
      if pages[0].isLastPage {
        assert first + [] == first;
      } else {
        PagesAreOneInsert(Inserted(table, first), pages[1..]);
        InsertConcat(table, first, Consumed(pages[1..]));
      }
    }
  }
}
