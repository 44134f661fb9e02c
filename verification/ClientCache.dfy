/** The per-config OpenSearch client cache: an insertion-ordered map used as an LRU cache with a
    time to live. */
module ClientCache {

  const CLIENT_CACHE_MAX: nat := 100
  const CLIENT_CACHE_TTL_MS: int := 60 * 60 * 1000

  datatype Config = Config(url: string, username: string, password: string)

  /** A client, told apart from others built with the same configuration by its serial number. */
  datatype Client = Client(config: Config, serial: nat)

  datatype Entry = Entry(key: string, client: Client, createdAt: int)

  /** One call: `now` is the clock at the expiry check, `later` the clock at the insertion. */
  datatype Call = Call(config: Config, now: int, later: int)

  function ConfigKey(c: Config): string {
    c.username + "@" + c.url
  }

  predicate Expired(createdAt: int, now: int) {
    now - createdAt > CLIENT_CACHE_TTL_MS
  }

  // ---------------------------------------------------------------------------------------
  // The insertion-ordered map
  // ---------------------------------------------------------------------------------------

  /** What stays in the map: what is young enough, or what has another key. */
  datatype Test = StillLive(now: int) | OtherThan(key: string)

  predicate Passes(e: Entry, test: Test) {
    match test
    case StillLive(now) => !Expired(e.createdAt, now)
    case OtherThan(key) => e.key != key
  }

  function Keep(entries: seq<Entry>, test: Test): (r: seq<Entry>)
    ensures |r| <= |entries|
  {
    if entries == [] then []
    else
      var n := |entries| - 1;
      Keep(entries[..n], test) + if Passes(entries[n], test) then [entries[n]] else []
  }

  lemma {:induction false} KeepMembers(entries: seq<Entry>, test: Test)
    ensures forall e :: e in Keep(entries, test) <==> e in entries && Passes(e, test)
  {
    if entries != [] {
      var n := |entries| - 1;
      KeepMembers(entries[..n], test);
      assert entries == entries[..n] + [entries[n]];
    }
  }

  function Live(entries: seq<Entry>, now: int): seq<Entry> {
    Keep(entries, StillLive(now))
  }

  /** Map.delete */
  function Without(entries: seq<Entry>, key: string): seq<Entry> {
    Keep(entries, OtherThan(key))
  }

  predicate DistinctKeys(entries: seq<Entry>) {
    forall i, j :: 0 <= i < j < |entries| ==> entries[i].key != entries[j].key
  }

  predicate HasKey(entries: seq<Entry>, key: string) {
    exists i :: 0 <= i < |entries| && entries[i].key == key
  }

  /** Map.get on a key that is there. */
  function Lookup(entries: seq<Entry>, key: string): (e: Entry)
    requires HasKey(entries, key)
    ensures e in entries && e.key == key
  {
    if entries[|entries| - 1].key == key then entries[|entries| - 1] else Lookup(entries[..|entries| - 1], key)
  }

  lemma {:induction false} KeepDistinct(entries: seq<Entry>, test: Test)
    requires DistinctKeys(entries)
    ensures DistinctKeys(Keep(entries, test))
  {
    if entries != [] {
      var n := |entries| - 1;
      var r := Keep(entries[..n], test);
      KeepMembers(entries[..n], test);
      KeepDistinct(entries[..n], test);
      forall i | 0 <= i < |r| ensures r[i].key != entries[n].key {
        assert r[i] in entries[..n];
      }
    }
  }

  lemma {:induction false} KeepAll(entries: seq<Entry>, test: Test)
    requires forall i :: 0 <= i < |entries| ==> Passes(entries[i], test)
    ensures Keep(entries, test) == entries
  {
    if entries != [] {
      hide Passes;
      var n := |entries| - 1;
      assert Passes(entries[n], test);
      assert Keep(entries, test) == Keep(entries[..n], test) + [entries[n]];
      hide Keep;
      KeepAll(entries[..n], test);
      assert entries == entries[..n] + [entries[n]];
    }
  }

  lemma {:induction false} KeepAppend(a: seq<Entry>, b: seq<Entry>, test: Test)
    ensures Keep(a + b, test) == Keep(a, test) + Keep(b, test)
  {
    hide Passes;
    if b == [] {
      assert a + b == a && Keep(a, test) + [] == Keep(a, test);
    } else {
      var n := |b| - 1;
      KeepAppend(a, b[..n], test);
      var last := if Passes(b[n], test) then [b[n]] else [];
      assert (a + b)[..|a + b| - 1] == a + b[..n] && (a + b)[|a + b| - 1] == b[n];
      assert Keep(a, test) + Keep(b[..n], test) + last == Keep(a, test) + (Keep(b[..n], test) + last);
    }
  }

  lemma KeepOne(e: Entry, test: Test)
    ensures Keep([e], test) == if Passes(e, test) then [e] else []
  {
    hide Passes;
    assert [e][..0] == [];
  }

  /** Deleting the key at position i. */
  lemma WithoutAt(entries: seq<Entry>, i: nat)
    requires DistinctKeys(entries) && i < |entries|
    ensures Without(entries, entries[i].key) == entries[..i] + entries[i + 1..]
  {
    hide Keep;
    var test := OtherThan(entries[i].key);
    assert entries == entries[..i] + ([entries[i]] + entries[i + 1..]);
    KeepAppend(entries[..i], [entries[i]] + entries[i + 1..], test);
    KeepAppend([entries[i]], entries[i + 1..], test);
    KeepAll(entries[..i], test);
    KeepAll(entries[i + 1..], test);
    KeepOne(entries[i], test);
  }

  lemma WithoutMiddle(a: seq<Entry>, e: Entry, b: seq<Entry>)
    requires DistinctKeys(a + [e] + b)
    ensures Without(a + [e] + b, e.key) == a + b
  {
    hide Keep;
    var all := a + [e] + b;
    assert all[|a|] == e && all[..|a|] == a && all[|a| + 1..] == b;
    WithoutAt(all, |a|);
  }

  // ---------------------------------------------------------------------------------------
  // What one call does to the map
  // ---------------------------------------------------------------------------------------

  datatype Cached = Cached(entries: seq<Entry>, built: nat, client: Client)

  function EvictedIfFull(entries: seq<Entry>): seq<Entry> {
    if |entries| < CLIENT_CACHE_MAX then entries else entries[1..]
  }

  function GetClient(entries: seq<Entry>, built: nat, call: Call): Cached {
    var live, key := Live(entries, call.now), ConfigKey(call.config);
    if HasKey(live, key) then
      var e := Lookup(live, key);
      Cached(Without(live, key) + [e], built, e.client)
    else
      var client := Client(call.config, built);
      Cached(EvictedIfFull(live) + [Entry(key, client, call.later)], built + 1, client)
  }

  predicate IsCache(entries: seq<Entry>) {
    && DistinctKeys(entries) && |entries| <= CLIENT_CACHE_MAX
    && forall i :: 0 <= i < |entries| ==> entries[i].key == ConfigKey(entries[i].client.config)
  }

  class Cache {
    var entries: seq<Entry>
    var built: nat

    constructor ()
      ensures entries == [] && built == 0
    {
      entries, built := [], 0;
    }

    method EvictExpired(now: int)
      requires DistinctKeys(entries)
      modifies `entries
      ensures entries == Live(old(entries), now)
    {
      hide Keep, DistinctKeys;
      var all := entries;
      assert Live(all[..0], now) == [] by {
        KeepAll([], StillLive(now));
      }
      for i := 0 to |all|
        invariant entries == Live(all[..i], now) + all[i..]
        invariant DistinctKeys(entries)
      {
        ghost var before := Live(all[..i], now);
        assert all[..i + 1] == all[..i] + [all[i]];
        KeepAppend(all[..i], [all[i]], StillLive(now));
        KeepOne(all[i], StillLive(now));
        assert before + all[i..] == before + [all[i]] + all[i + 1..];
        if Expired(all[i].createdAt, now) {
          WithoutMiddle(before, all[i], all[i + 1..]);
          KeepDistinct(entries, OtherThan(all[i].key));
          entries := Without(entries, all[i].key);
          assert before + [] == before;
        }
      }
      assert all[..|all|] == all;
    }

    method EvictLruIfFull()
      requires DistinctKeys(entries)
      modifies `entries
      ensures entries == EvictedIfFull(old(entries))
    {
      if |entries| < CLIENT_CACHE_MAX {
        return;
      }
      WithoutAt(entries, 0);
      entries := Without(entries, entries[0].key);
    }

    /** The cache never holds more than 100 entries, none of them older than an hour. If one of them is
        filed under the key asked for, its client is the answer; otherwise a client with exactly this
        configuration is built and filed. Either way its entry is now the last one. */
    method GetOpenSearchClientForConfig(c: Config, now: int, later: int) returns (client: Client)
      requires IsCache(entries)
      modifies this
      ensures Cached(entries, built, client) == GetClient(old(entries), old(built), Call(c, now, later))
      ensures IsCache(entries) && 0 < |entries| <= 100
      ensures entries[|entries| - 1].client == client && entries[|entries| - 1].key == c.username + "@" + c.url
      ensures forall e :: e in entries[..|entries| - 1] ==> e in old(entries) && now - e.createdAt <= 3_600_000
      ensures if exists e :: e in old(entries) && now - e.createdAt <= 3_600_000 && e.key == c.username + "@" + c.url
              then built == old(built) && entries[|entries| - 1] in old(entries)
                   && now - entries[|entries| - 1].createdAt <= 3_600_000
              else built == old(built) + 1 && client == Client(c, old(built))
                   && entries[|entries| - 1].createdAt == later
    {
      StepKeepsCache(entries, built, Call(c, now, later));
      KeepMembers(entries, StillLive(now));
      EvictExpired(now);
      var key := ConfigKey(c);
      if HasKey(entries, key) {
        var existing := Lookup(entries, key);
        KeepMembers(entries, OtherThan(key));
        entries := Without(entries, key);
        entries := entries + [existing];
        return existing.client;
      }
      EvictLruIfFull();
      client := Client(c, built);
      built := built + 1;
      entries := entries + [Entry(key, client, later)];
    }
  }

  lemma HitKeepsCache(live: seq<Entry>, i: nat)
    requires IsCache(live) && i < |live|
    ensures IsCache(live[..i] + live[i + 1..] + [live[i]])
  {
    hide ConfigKey;
    var moved := live[..i] + live[i + 1..] + [live[i]];
    forall j | 0 <= j < |moved| ensures moved[j] == live[if j < i then j else if j < |live| - 1 then j + 1 else i] {
    }
  }

  lemma MissKeepsCache(live: seq<Entry>, e: Entry)
    requires IsCache(live) && !HasKey(live, e.key) && e.key == ConfigKey(e.client.config)
    ensures IsCache(EvictedIfFull(live) + [e])
  {
    hide ConfigKey;
    forall i | 0 <= i < |live| ensures live[i].key != e.key {
    }
  }

  lemma StepKeepsCache(entries: seq<Entry>, built: nat, call: Call)
    requires IsCache(entries)
    ensures DistinctKeys(Live(entries, call.now))
    ensures IsCache(GetClient(entries, built, call).entries)
  {
    hide Keep, EvictedIfFull, ConfigKey;
    var live, key := Live(entries, call.now), ConfigKey(call.config);
    KeepDistinct(entries, StillLive(call.now));
    LiveKeysRight(entries, call.now);
    if HasKey(live, key) {
      var i :| 0 <= i < |live| && live[i].key == key;
      WithoutAt(live, i);
      LookupAt(live, i);
      hide DistinctKeys;
      HitKeepsCache(live, i);
    } else {
      hide HasKey, DistinctKeys;
      MissKeepsCache(live, Entry(key, Client(call.config, built), call.later));
    }
  }

  lemma LookupAt(live: seq<Entry>, i: nat)
    requires DistinctKeys(live) && i < |live|
    ensures HasKey(live, live[i].key) && Lookup(live, live[i].key) == live[i]
  {
    assert HasKey(live, live[i].key);
    assert Lookup(live, live[i].key) in live;
  }

  lemma LiveKeysRight(entries: seq<Entry>, now: int)
    requires IsCache(entries)
    ensures forall i :: 0 <= i < |Live(entries, now)| ==>
              Live(entries, now)[i].key == ConfigKey(Live(entries, now)[i].client.config)
  {
    KeepMembers(entries, StillLive(now));
    forall i | 0 <= i < |Live(entries, now)|
      ensures Live(entries, now)[i].key == ConfigKey(Live(entries, now)[i].client.config)
    {
      assert Live(entries, now)[i] in entries;
    }
  }

  // ---------------------------------------------------------------------------------------
  // The abstract cache, with explicit last-use times
  // ---------------------------------------------------------------------------------------

  /** lastUse is the number of the call that last returned the item. */
  datatype Item = Item(client: Client, createdAt: int, lastUse: nat)

  datatype Lru = Lru(items: map<string, Item>, calls: nat, built: nat)

  const EMPTY_LRU := Lru(map[], 0, 0)

  function Unexpired(items: map<string, Item>, now: int): map<string, Item> {
    map k | k in items && now - items[k].createdAt <= 3_600_000 :: items[k]
  }

  /** No key was used longer ago. */
  predicate LeastRecentlyUsed(items: map<string, Item>, victim: string) {
    victim in items && forall k :: k in items ==> items[victim].lastUse <= items[k].lastUse
  }

  /** One call of a least-recently-used cache with time to live: drop what is too old, return what
      is there, otherwise make room by dropping the least recently used item and build one. */
  ghost predicate LruStep(a: Lru, call: Call, a': Lru, client: Client) {
    var live, key := Unexpired(a.items, call.now), ConfigKey(call.config);
    && a'.calls == a.calls + 1
    && if key in live then
         && client == live[key].client && a'.built == a.built
         && a'.items == live[key := live[key].(lastUse := a.calls)]
       else
         && client == Client(call.config, a.built) && a'.built == a.built + 1
         && var item := Item(client, call.later, a.calls);
            if |live| < 100 then a'.items == live[key := item]
            else exists victim :: LeastRecentlyUsed(live, victim) && a'.items == (live - {victim})[key := item]
  }

  predicate Filed(e: Entry, items: map<string, Item>) {
    && e.key in items && items[e.key].client == e.client && items[e.key].createdAt == e.createdAt
  }

  /** The map's order is the order of last use, oldest first. */
  ghost predicate Represents(entries: seq<Entry>, items: map<string, Item>, calls: nat) {
    && (forall i :: 0 <= i < |entries| ==> Filed(entries[i], items))
    && (forall k :: k in items ==> HasKey(entries, k))
    && InOrder(entries, items)
    && (forall k :: k in items ==> items[k].lastUse < calls)
  }

  lemma RepresentsDistinct(entries: seq<Entry>, items: map<string, Item>, calls: nat)
    requires Represents(entries, items, calls)
    ensures DistinctKeys(entries)
  {
  }

  lemma RepresentsDelete(entries: seq<Entry>, items: map<string, Item>, calls: nat, i: nat)
    requires Represents(entries, items, calls) && i < |entries|
    ensures Represents(entries[..i] + entries[i + 1..], items - {entries[i].key}, calls)
  {
    RepresentsDistinct(entries, items, calls);
    FiledDelete(entries, items, i);
    KeysDelete(entries, items, i);
    InOrderDelete(entries, items, i);
    hide InOrder, Filed, HasKey, DistinctKeys;
  }

  lemma FiledDelete(entries: seq<Entry>, items: map<string, Item>, i: nat)
    requires DistinctKeys(entries) && i < |entries| && forall j :: 0 <= j < |entries| ==> Filed(entries[j], items)
    ensures var left := entries[..i] + entries[i + 1..];
            forall j :: 0 <= j < |left| ==> Filed(left[j], items - {entries[i].key})
  {
    var left := entries[..i] + entries[i + 1..];
    forall j | 0 <= j < |left| ensures Filed(left[j], items - {entries[i].key}) {
      assert left[j] == entries[if j < i then j else j + 1];
    }
  }

  lemma KeysDelete(entries: seq<Entry>, items: map<string, Item>, i: nat)
    requires i < |entries| && forall k :: k in items ==> HasKey(entries, k)
    ensures forall k :: k in items - {entries[i].key} ==> HasKey(entries[..i] + entries[i + 1..], k)
  {
    var left := entries[..i] + entries[i + 1..];
    forall k | k in items - {entries[i].key} ensures HasKey(left, k) {
      var j :| 0 <= j < |entries| && entries[j].key == k;
      assert left[if j < i then j else j - 1].key == k;
    }
  }

  lemma InOrderDelete(entries: seq<Entry>, items: map<string, Item>, i: nat)
    requires InOrder(entries, items) && DistinctKeys(entries) && i < |entries|
    ensures InOrder(entries[..i] + entries[i + 1..], items - {entries[i].key})
  {
    var left := entries[..i] + entries[i + 1..];
    forall j | 0 <= j < |left| ensures left[j] == entries[if j < i then j else j + 1] {
    }
  }

  lemma RepresentsInsert(entries: seq<Entry>, items: map<string, Item>, calls: nat, e: Entry)
    requires Represents(entries, items, calls) && e.key !in items
    ensures Represents(entries + [e], items[e.key := Item(e.client, e.createdAt, calls)], calls + 1)
  {
    var more, items' := entries + [e], items[e.key := Item(e.client, e.createdAt, calls)];
    forall k | k in items' ensures HasKey(more, k) {
      if k == e.key {
        assert more[|entries|].key == k;
      } else {
        var i :| 0 <= i < |entries| && entries[i].key == k;
        assert more[i].key == k;
      }
    }
  }

  /** The keys are used in this order. */
  predicate InOrder(entries: seq<Entry>, items: map<string, Item>) {
    && (forall i :: 0 <= i < |entries| ==> entries[i].key in items)
    && forall i, j :: 0 <= i < j < |entries| ==> items[entries[i].key].lastUse < items[entries[j].key].lastUse
  }

  lemma {:induction false} KeepOrdered(entries: seq<Entry>, items: map<string, Item>, test: Test)
    requires InOrder(entries, items)
    ensures InOrder(Keep(entries, test), items)
  {
    if entries != [] {
      hide Passes;
      var n := |entries| - 1;
      assert entries == entries[..n] + [entries[n]];
      KeepOrdered(entries[..n], items, test);
      if Passes(entries[n], test) {
        KeepMembers(entries[..n], test);
        InOrderAppend(Keep(entries[..n], test), entries[..n], entries[n], items);
      }
    }
  }

  lemma InOrderAppend(r: seq<Entry>, entries: seq<Entry>, e: Entry, items: map<string, Item>)
    requires InOrder(r, items) && (forall x :: x in r ==> x in entries) && InOrder(entries + [e], items)
    ensures InOrder(r + [e], items)
  {
    var all := entries + [e];
    assert all[|entries|] == e;
    forall i | 0 <= i < |r| ensures items[r[i].key].lastUse < items[e.key].lastUse {
      assert r[i] in entries;
      var j :| 0 <= j < |entries| && entries[j] == r[i];
      assert all[j] == r[i];
    }
  }

  lemma RepresentsLive(entries: seq<Entry>, items: map<string, Item>, calls: nat, now: int)
    requires Represents(entries, items, calls)
    ensures Represents(Live(entries, now), Unexpired(items, now), calls)
  {
    hide Keep;
    var live := Live(entries, now);
    KeepOrdered(entries, items, StillLive(now));
    KeepMembers(entries, StillLive(now));
    forall i | 0 <= i < |live|
      ensures Filed(live[i], items) && live[i].key in Unexpired(items, now)
    {
      assert live[i] in live;
      var j :| 0 <= j < |entries| && entries[j] == live[i];
    }
    forall k | k in Unexpired(items, now) ensures HasKey(live, k) {
      var i :| 0 <= i < |entries| && entries[i].key == k;
      assert entries[i] in live;
    }
  }

  lemma {:induction false} RepresentsSize(entries: seq<Entry>, items: map<string, Item>, calls: nat)
    requires Represents(entries, items, calls)
    ensures |items| == |entries|
  {
    hide InOrder;
    if entries == [] {
      assert items == map[];
    } else {
      RepresentsDelete(entries, items, calls, 0);
      assert entries[..0] + entries[1..] == entries[1..];
      RepresentsSize(entries[1..], items - {entries[0].key}, calls);
      assert items.Keys == (items - {entries[0].key}).Keys + {entries[0].key};
    }
  }

  lemma HeadIsLeastRecentlyUsed(entries: seq<Entry>, items: map<string, Item>, calls: nat)
    requires Represents(entries, items, calls) && entries != []
    ensures LeastRecentlyUsed(items, entries[0].key)
  {
    forall k | k in items ensures items[entries[0].key].lastUse <= items[k].lastUse {
      var i :| 0 <= i < |entries| && entries[i].key == k;
    }
  }

  lemma HitRefines(live: seq<Entry>, items: map<string, Item>, calls: nat, key: string)
    requires Represents(live, items, calls) && HasKey(live, key)
    ensures key in items && Lookup(live, key).client == items[key].client
    ensures Represents(Without(live, key) + [Lookup(live, key)], items[key := items[key].(lastUse := calls)], calls + 1)
  {
    hide Represents, Keep;
    var e := Lookup(live, key);
    LookupAgrees(live, items, calls, key);
    RepresentsDistinct(live, items, calls);
    var i :| 0 <= i < |live| && live[i].key == key;
    WithoutAt(live, i);
    RepresentsDelete(live, items, calls, i);
    RepresentsInsert(Without(live, key), items - {key}, calls, e);
    assert (items - {key})[key := Item(e.client, e.createdAt, calls)] == items[key := items[key].(lastUse := calls)];
  }

  lemma LookupAgrees(live: seq<Entry>, items: map<string, Item>, calls: nat, key: string)
    requires Represents(live, items, calls) && HasKey(live, key)
    ensures key in items
    ensures Lookup(live, key).client == items[key].client && Lookup(live, key).createdAt == items[key].createdAt
  {
    hide HasKey;
    assert Lookup(live, key) in live;
  }

  lemma KeyAgrees(live: seq<Entry>, items: map<string, Item>, calls: nat, key: string)
    requires Represents(live, items, calls)
    ensures HasKey(live, key) <==> key in items
  {
  }

  /** Every call is a step of the abstract cache. */
  lemma CallRefines(entries: seq<Entry>, a: Lru, call: Call) returns (a': Lru)
    requires Represents(entries, a.items, a.calls)
    ensures var r := GetClient(entries, a.built, call);
            LruStep(a, call, a', r.client) && Represents(r.entries, a'.items, a'.calls) && a'.built == r.built
  {
    hide Represents, Keep, Lookup, Unexpired, HasKey, LeastRecentlyUsed;
    var live, items, key := Live(entries, call.now), Unexpired(a.items, call.now), ConfigKey(call.config);
    RepresentsLive(entries, a.items, a.calls, call.now);
    KeyAgrees(live, items, a.calls, key);
    if HasKey(live, key) {
      HitRefines(live, items, a.calls, key);
      a' := Lru(items[key := items[key].(lastUse := a.calls)], a.calls + 1, a.built);
    } else {
      var client := Client(call.config, a.built);
      var e := Entry(key, client, call.later);
      RepresentsSize(live, items, a.calls);
      if |live| < CLIENT_CACHE_MAX {
        RepresentsInsert(live, items, a.calls, e);
        a' := Lru(items[key := Item(client, call.later, a.calls)], a.calls + 1, a.built + 1);
      } else {
        var victim := live[0].key;
        HeadIsLeastRecentlyUsed(live, items, a.calls);
        RepresentsDelete(live, items, a.calls, 0);
        assert live[..0] + live[1..] == live[1..];
        RepresentsInsert(live[1..], items - {victim}, a.calls, e);
        a' := Lru((items - {victim})[key := Item(client, call.later, a.calls)], a.calls + 1, a.built + 1);
      }
    }
  }

  // ---------------------------------------------------------------------------------------
  // Whole call sequences
  // ---------------------------------------------------------------------------------------

  function Start(): Cached {
    Cached([], 0, Client(Config("", "", ""), 0))
  }

  /** The map after a sequence of calls, with the client the last of them returned. */
  function AfterCalls(calls: seq<Call>): Cached {
    if calls == [] then Start()
    else
      var before := AfterCalls(calls[..|calls| - 1]);
      GetClient(before.entries, before.built, calls[|calls| - 1])
  }

  /** The clients returned, call by call. */
  function Answers(calls: seq<Call>): (r: seq<Client>)
    ensures |r| == |calls|
  {
    if calls == [] then [] else Answers(calls[..|calls| - 1]) + [AfterCalls(calls).client]
  }

  /** The states of the abstract cache along a call sequence. */
  ghost predicate LruRun(calls: seq<Call>, answers: seq<Client>, states: seq<Lru>) {
    && |answers| == |calls| && |states| == |calls| + 1 && states[0] == EMPTY_LRU
    && forall i :: 0 <= i < |calls| ==> LruStep(states[i], calls[i], states[i + 1], answers[i])
  }

  /** Over every sequence of calls the insertion-ordered map answers like a cache that keeps explicit
      last-use times; its first entry is always the least recently used one, it has at most 100. */
  lemma {:induction false} CacheRefinesLru(calls: seq<Call>) returns (states: seq<Lru>)
    ensures LruRun(calls, Answers(calls), states)
    ensures var entries, last := AfterCalls(calls).entries, states[|calls|];
            && Represents(entries, last.items, last.calls)
            && (entries != [] ==> LeastRecentlyUsed(last.items, entries[0].key))
            && AfterCalls(calls).built == last.built && IsCache(entries) && |last.items| <= 100
  {
    hide LruStep, GetClient, Represents, LeastRecentlyUsed;
    var entries := AfterCalls(calls).entries;
    if calls == [] {
      states := [EMPTY_LRU];
      EmptyRepresents();
    } else {
      var n := |calls| - 1;
      var before := AfterCalls(calls[..n]);
      states := CacheRefinesLru(calls[..n]);
      var next := CallRefines(before.entries, states[n], calls[n]);
      StepKeepsCache(before.entries, before.built, calls[n]);
      RunAppend(calls[..n], Answers(calls[..n]), states, calls[n], AfterCalls(calls).client, next);
      assert calls == calls[..n] + [calls[n]];
      states := states + [next];
    }
    RepresentsSize(entries, states[|calls|].items, states[|calls|].calls);
    if entries != [] {
      HeadIsLeastRecentlyUsed(entries, states[|calls|].items, states[|calls|].calls);
    }
  }

  lemma EmptyRepresents()
    ensures Represents([], EMPTY_LRU.items, 0)
  {
  }

  lemma RunAppend(calls: seq<Call>, answers: seq<Client>, states: seq<Lru>, call: Call, answer: Client, next: Lru)
    requires LruRun(calls, answers, states) && LruStep(states[|calls|], call, next, answer)
    ensures LruRun(calls + [call], answers + [answer], states + [next])
  {
    hide LruStep;
  }

  // ---------------------------------------------------------------------------------------
  // When a client is still there
  // ---------------------------------------------------------------------------------------

  function KeyAt(calls: seq<Call>, t: nat): string
    requires t < |calls|
  {
    ConfigKey(calls[t].config)
  }

  /** The keys asked for from call i up to call m. */
  function KeysBetween(calls: seq<Call>, i: nat, m: nat): set<string>
    requires i <= m <= |calls|
  {
    set t | i <= t < m :: KeyAt(calls, t)
  }

  lemma {:induction false} LastUseTells(calls: seq<Call>, answers: seq<Client>, states: seq<Lru>, m: nat, key: string)
    requires LruRun(calls, answers, states) && m <= |calls| && key in states[m].items
    ensures states[m].items[key].lastUse < m
    ensures KeyAt(calls, states[m].items[key].lastUse) == key
    decreases m
  {
    CallsCount(calls, answers, states, m);
    if m > 0 {
      var before := states[m - 1];
      assert LruStep(before, calls[m - 1], states[m], answers[m - 1]);
      CallsCount(calls, answers, states, m - 1);
      if key != KeyAt(calls, m - 1) {
        LastUseTells(calls, answers, states, m - 1, key);
      }
    }
  }

  lemma {:induction false} CallsCount(calls: seq<Call>, answers: seq<Client>, states: seq<Lru>, m: nat)
    requires LruRun(calls, answers, states) && m <= |calls|
    ensures states[m].calls == m && (m == 0 ==> states[m] == EMPTY_LRU)
    decreases m
  {
    if m > 0 {
      CallsCount(calls, answers, states, m - 1);
      assert LruStep(states[m - 1], calls[m - 1], states[m], answers[m - 1]);
    }
  }

  /** Call i's key is kept through the calls up to m. */
  ghost predicate Undisturbed(calls: seq<Call>, states: seq<Lru>, i: nat, m: nat)
    requires |states| == |calls| + 1 && i < m <= |calls|
  {
    && KeyAt(calls, i) in states[i + 1].items
    && (forall t :: i < t < m ==> KeyAt(calls, t) != KeyAt(calls, i))
    && (forall t :: i < t < m ==> calls[t].now - states[i + 1].items[KeyAt(calls, i)].createdAt <= 3_600_000)
    && |KeysBetween(calls, i + 1, m)| < 100
  }

  /** An item is only the least recently used of a full cache once 99 other keys were asked for. */
  lemma OthersUsedSince(calls: seq<Call>, answers: seq<Client>, states: seq<Lru>, i: nat, m: nat, live: map<string, Item>)
    requires LruRun(calls, answers, states) && i < m < |calls|
    requires forall k :: k in live ==> k in states[m].items && live[k] == states[m].items[k]
    requires LeastRecentlyUsed(live, KeyAt(calls, i)) && live[KeyAt(calls, i)].lastUse == i
    requires KeyAt(calls, m) !in live && KeyAt(calls, m) != KeyAt(calls, i)
    ensures |KeysBetween(calls, i + 1, m + 1)| >= |live|
  {
    var others := live.Keys - {KeyAt(calls, i)} + {KeyAt(calls, m)};
    forall k | k in others ensures k in KeysBetween(calls, i + 1, m + 1) {
      if k != KeyAt(calls, m) {
        LastUseTells(calls, answers, states, m, k);
        assert live[k].lastUse != i;
        assert i < live[k].lastUse < m;
      }
    }
    SubsetSize(others, KeysBetween(calls, i + 1, m + 1));
    assert |live.Keys - {KeyAt(calls, i)}| == |live.Keys| - 1;
  }

  lemma SubsetSize(a: set<string>, b: set<string>)
    requires a <= b
    ensures |a| <= |b|
  {
    assert b == a + (b - a);
  }

  lemma UndisturbedBefore(calls: seq<Call>, states: seq<Lru>, i: nat, t: nat, m: nat)
    requires |states| == |calls| + 1 && i < t <= m <= |calls| && Undisturbed(calls, states, i, m)
    ensures Undisturbed(calls, states, i, t)
  {
    hide KeyAt;
    SubsetSize(KeysBetween(calls, i + 1, t), KeysBetween(calls, i + 1, m));
  }

  /** A live item stays as it is through a call for another key, unless it has to make room. */
  lemma StepKeepsItem(a: Lru, call: Call, a': Lru, client: Client, key: string)
    requires LruStep(a, call, a', client) && key in a.items && !Expired(a.items[key].createdAt, call.now)
    requires ConfigKey(call.config) != key
    requires var live := Unexpired(a.items, call.now);
             ConfigKey(call.config) !in live && LeastRecentlyUsed(live, key) ==> |live| < CLIENT_CACHE_MAX
    ensures key in a'.items && a'.items[key] == a.items[key]
  {
    hide ConfigKey, LeastRecentlyUsed;
  }

  /** Call i's key need not make room at call t, as long as fewer than 100 others were asked for. */
  lemma NoRoomNeeded(calls: seq<Call>, answers: seq<Client>, states: seq<Lru>, i: nat, t: nat)
    requires LruRun(calls, answers, states) && i < t < |calls| && Undisturbed(calls, states, i, t + 1)
    requires KeyAt(calls, i) in states[t].items && states[t].items[KeyAt(calls, i)].lastUse == i
    ensures var live := Unexpired(states[t].items, calls[t].now);
            KeyAt(calls, t) !in live && LeastRecentlyUsed(live, KeyAt(calls, i)) ==> |live| < CLIENT_CACHE_MAX
  {
    hide LruStep, KeysBetween, KeyAt, Expired;
    var live := Unexpired(states[t].items, calls[t].now);
    if KeyAt(calls, t) !in live && LeastRecentlyUsed(live, KeyAt(calls, i)) {
      OthersUsedSince(calls, answers, states, i, t, live);
    }
  }

  lemma {:induction false} Survives(calls: seq<Call>, answers: seq<Client>, states: seq<Lru>, i: nat, m: nat)
    requires LruRun(calls, answers, states) && i < m <= |calls| && Undisturbed(calls, states, i, m)
    requires states[i + 1].items[KeyAt(calls, i)].lastUse == i
    ensures var key := KeyAt(calls, i); key in states[m].items && states[m].items[key] == states[i + 1].items[key]
    decreases m
  {
    if m > i + 1 {
      hide LruStep, LeastRecentlyUsed, KeysBetween, Expired, Unexpired, ConfigKey;
      var t, key := m - 1, KeyAt(calls, i);
      UndisturbedBefore(calls, states, i, t, m);
      Survives(calls, answers, states, i, t);
      assert LruStep(states[t], calls[t], states[m], answers[t]);
      NoRoomNeeded(calls, answers, states, i, t);
      hide LruRun;
      StepKeepsItem(states[t], calls[t], states[m], answers[t], key);
    }
  }

  /** A client asked for again before 100 other configurations were asked for, and less than an hour
      old at every call up to then, is the very same client. */
  lemma SameClientAgain(calls: seq<Call>, answers: seq<Client>, states: seq<Lru>, i: nat, j: nat)
    requires LruRun(calls, answers, states) && i < j < |calls| && KeyAt(calls, j) == KeyAt(calls, i)
    requires Undisturbed(calls, states, i, j)
    requires calls[j].now - states[i + 1].items[KeyAt(calls, i)].createdAt <= 3_600_000
    ensures answers[j] == answers[i]
  {
    var key := KeyAt(calls, i);
    CallsCount(calls, answers, states, i);
    assert LruStep(states[i], calls[i], states[i + 1], answers[i]);
    Survives(calls, answers, states, i, j);
    assert LruStep(states[j], calls[j], states[j + 1], answers[j]);
    assert key in Unexpired(states[j].items, calls[j].now);
  }

  // ---------------------------------------------------------------------------------------
  // Whose client a hit returns
  // ---------------------------------------------------------------------------------------

  predicate SameCluster(c: Config, d: Config) {
    c.username == d.username && c.url == d.url
  }

  /** Where the `@` signs of a key are. */
  lemma AtSigns(c: Config)
    ensures var k, n := ConfigKey(c), |c.username|;
            && n < |k| && k[n] == '@' && k[..n] == c.username && k[n + 1..] == c.url
            && ('@' !in c.username ==> forall i :: 0 <= i < n ==> k[i] != '@')
            && ('@' !in c.url ==> forall i :: n < i < |k| ==> k[i] != '@')
  {
    var k, n := ConfigKey(c), |c.username|;
    if '@' !in c.username {
      forall i | 0 <= i < n ensures k[i] != '@' {
        assert k[i] == c.username[i];
      }
    }
    if '@' !in c.url {
      forall i | n < i < |k| ensures k[i] != '@' {
        assert k[i] == c.url[i - n - 1];
      }
    }
  }

  /** For user names without `@` the key says who and where. */
  lemma KeyTells(c: Config, d: Config)
    requires '@' !in c.username && '@' !in d.username && ConfigKey(c) == ConfigKey(d)
    ensures SameCluster(c, d)
  {
    hide ConfigKey;
    AtSigns(c);
    AtSigns(d);
    assert |c.username| == |d.username|;
  }

  /** Over every sequence of calls for user names without `@`, every client returned was built for the
      user name and the address asked for. */
  lemma {:induction false} RightClient(calls: seq<Call>)
    requires forall i :: 0 <= i < |calls| ==> '@' !in calls[i].config.username
    ensures forall e :: e in AfterCalls(calls).entries ==> '@' !in e.client.config.username
    ensures IsCache(AfterCalls(calls).entries)
    ensures calls != [] ==> SameCluster(AfterCalls(calls).client.config, calls[|calls| - 1].config)
  {
    if calls != [] {
      var n := |calls| - 1;
      var before, call := AfterCalls(calls[..n]), calls[n];
      RightClient(calls[..n]);
      StepKeepsCache(before.entries, before.built, call);
      RightAnswer(before.entries, before.built, call);
    }
  }

  lemma RightAnswer(entries: seq<Entry>, built: nat, call: Call)
    requires IsCache(entries) && '@' !in call.config.username
    requires forall e :: e in entries ==> '@' !in e.client.config.username
    ensures var r := GetClient(entries, built, call);
            && SameCluster(r.client.config, call.config)
            && forall e :: e in r.entries ==> '@' !in e.client.config.username
  {
    var live, key := Live(entries, call.now), ConfigKey(call.config);
    LiveKeysRight(entries, call.now);
    KeepMembers(entries, StillLive(call.now));
    KeepMembers(live, OtherThan(key));
    if HasKey(live, key) {
      var e := Lookup(live, key);
      assert e in entries;
      KeyTells(e.client.config, call.config);
    }
  }

  /** A configuration shares its key with no other user or address exactly when neither of its two
      parts has an `@`. */
  ghost predicate AloneUnderKey(c: Config) {
    forall d :: ConfigKey(d) == ConfigKey(c) ==> SameCluster(c, d)
  }

  lemma AloneIffNoAt(c: Config)
    ensures AloneUnderKey(c) <==> '@' !in c.username && '@' !in c.url
  {
    if '@' in c.username {
      var i :| 0 <= i < |c.username| && c.username[i] == '@';
      var a, b := c.username[..i], c.username[i + 1..];
      assert c.username == a + "@" + b;
      SharesKey(a, b, c.url);
      var d := Config(b + "@" + c.url, a, "");
      assert ConfigKey(d) == ConfigKey(c) && |d.username| < |c.username|;
    } else if '@' in c.url {
      var i :| 0 <= i < |c.url| && c.url[i] == '@';
      var a, b := c.url[..i], c.url[i + 1..];
      assert c.url == a + "@" + b;
      SharesKey(c.username, a, b);
      var d := Config(b, c.username + "@" + a, "");
      assert ConfigKey(d) == ConfigKey(c) && |d.username| > |c.username|;
    } else {
      forall d | ConfigKey(d) == ConfigKey(c) ensures SameCluster(c, d) {
        OnlyOneAt(c, d);
      }
    }
  }

  lemma OnlyOneAt(c: Config, d: Config)
    requires '@' !in c.username && '@' !in c.url && ConfigKey(d) == ConfigKey(c)
    ensures SameCluster(c, d)
  {
    hide ConfigKey;
    AtSigns(c);
    AtSigns(d);
    assert |c.username| == |d.username|;
  }

  lemma SharesKey(a: string, b: string, c: string)
    ensures ConfigKey(Config(c, a + "@" + b, "")) == ConfigKey(Config(b + "@" + c, a, ""))
  {
    Regroup(a + "@", b, "@");
    Regroup(a + "@", b + "@", c);
  }

  lemma Regroup(a: string, b: string, c: string)
    ensures (a + b) + c == a + (b + c)
  {
  }

  /** With an `@` in a user name, one user can be handed the client built for another. */
  lemma WrongClient(a: string, b: string, c: string) returns (mine: Config, yours: Config)
    ensures !SameCluster(mine, yours)
    ensures AfterCalls([Call(mine, 0, 0), Call(yours, 0, 0)]).client.config == mine
  {
    mine, yours := Config(c, a + "@" + b, ""), Config(b + "@" + c, a, "");
    assert |mine.username| > |yours.username|;
    SharesKey(a, b, c);
    var calls := [Call(mine, 0, 0), Call(yours, 0, 0)];
    FirstCall(calls[0]);
    assert calls[..1] == [calls[0]];
    HitsOnlyEntry(Entry(ConfigKey(mine), Client(mine, 0), 0), 1, calls[1]);
  }

  lemma FirstCall(call: Call)
    ensures AfterCalls([call]).entries == [Entry(ConfigKey(call.config), Client(call.config, 0), call.later)]
    ensures AfterCalls([call]).built == 1
  {
    hide ConfigKey;
    assert [call][..0] == [];
    assert Live([], call.now) == [];
  }

  lemma HitsOnlyEntry(e: Entry, built: nat, call: Call)
    requires e.key == ConfigKey(call.config) && !Expired(e.createdAt, call.now)
    ensures GetClient([e], built, call).client == e.client
  {
    hide ConfigKey;
    KeepOne(e, StillLive(call.now));
    assert [e][0].key == e.key;
  }
}
