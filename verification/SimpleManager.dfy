/** Ariel's simple memory manager: a demand page table with a bounded translation cache. Its
    answers are those of the page table alone, whatever the cache holds and evicts. */
module SimpleManagers {
  import opened Sequences
  import opened Arithmetic
  import opened Options
  import opened PagePools
  import opened Caches

  // ---------------------------------------------------------------- the plain page table

  /** A page table and the pages it may still hand out. */
  datatype Table = Table(pageSize: nat, table: map<nat, nat>, free: seq<nat>)

  function Known(t: Table, va: nat): Option<nat>
    requires 0 < t.pageSize
  {
    var start := StartOf(va, t.pageSize);
    if start in t.table then Some(t.table[start] + (va - start)) else None
  }

  /** The table after it was asked for `va`: an unknown page gets the first free one. */
  function Touched(t: Table, va: nat): (r: Table)
    requires 0 < t.pageSize
    ensures r.pageSize == t.pageSize
  {
    if Known(t, va).Some? || t.free == [] then t
    else t.(table := t.table[StartOf(va, t.pageSize) := t.free[0]], free := t.free[1..])
  }

  /** The plain answer; there is none when the pages have run out. */
  function Answer(t: Table, va: nat): Option<nat>
    requires 0 < t.pageSize
  {
    Known(Touched(t, va), va)
  }

  /** The answers to a sequence of addresses. */
  function Answers(t: Table, vas: seq<nat>): seq<Option<nat>>
    requires 0 < t.pageSize
    decreases |vas|
  {
    if vas == [] then [] else [Answer(t, vas[0])] + Answers(Touched(t, vas[0]), vas[1..])
  }

  /** Every page of the pool is free or mapped once, at a page start, and pages do not overlap. */
  ghost predicate TableInv(t: Table, pages: set<nat>) {
    && 0 < t.pageSize && NoRepeats(t.free)
    && (forall x :: x in pages <==> x in t.free || x in t.table.Values)
    && (forall x :: x in t.free ==> x !in t.table.Values)
    && Injective(t.table)
    && (forall v :: v in t.table ==> StartOf(v, t.pageSize) == v)
    && (forall x, y :: x in pages && y in pages && x < y ==> x + t.pageSize <= y)
    && (forall x :: x in pages ==> x % t.pageSize == 0)
  }

  lemma StartOfStart(va: nat, pageSize: nat)
    requires 0 < pageSize
    ensures StartOf(StartOf(va, pageSize), pageSize) == StartOf(va, pageSize)
  {
    var r := va % pageSize;
    var s := va - r;
    assert va == pageSize * (va / pageSize) + r;
    assert s == pageSize * (va / pageSize);
    MultipleMod(pageSize, va / pageSize, s);
  }

  /** Asking keeps the pages: none is lost, none is handed out twice. */
  lemma TouchedKeeps(t: Table, pages: set<nat>, va: nat)
    requires TableInv(t, pages)
    ensures TableInv(Touched(t, va), pages)
  {
    var t' := Touched(t, va);
    if t' != t {
      var start, page := StartOf(va, t.pageSize), t.free[0];
      hide StartOf;
      HeadTail(t.free);
      StartOfStart(va, t.pageSize);
      assert t'.table == t.table[start := page];
      ValuesInsert(t.table, start, page);
    }
  }

  /** Different addresses never share a physical address. */
  lemma KnownIsInjective(t: Table, pages: set<nat>, x: nat, y: nat)
    requires TableInv(t, pages) && x != y && Known(t, x).Some? && Known(t, y).Some?
    ensures Known(t, x) != Known(t, y)
  {
    var u, v := StartOf(x, t.pageSize), StartOf(y, t.pageSize);
    hide StartOf;
    var a, b := t.table[u], t.table[v];
    assert a in t.table.Values && b in t.table.Values;
    assert a in pages && b in pages;
    if u != v { assert a != b; }
  }

  /** A known translation never changes. */
  lemma KnownIsStable(t: Table, va: nat, other: nat)
    requires 0 < t.pageSize && Known(t, va).Some?
    ensures Known(Touched(t, other), va) == Known(t, va)
  {
    hide StartOf;
  }

  /** The answer is missing exactly when the page is unknown and none is free; so asking again
      after one demand allocation always finds the page. */
  lemma AnswerMissing(t: Table, va: nat)
    requires 0 < t.pageSize
    ensures Answer(t, va).None? <==> Known(t, va).None? && t.free == []
    ensures Touched(Touched(t, va), va) == Touched(t, va)
    ensures Answer(t, va).None? ==> Touched(t, va) == t
  {
    hide StartOf;
  }

  // ---------------------------------------------------------------- the manager object

  /** Every cached translation is the table's. */
  ghost predicate CacheAgrees(t: Table, cache: map<nat, nat>)
    requires 0 < t.pageSize
  {
    forall va :: va in cache ==> Known(t, va) == Some(cache[va])
  }

  lemma AgreesAfter(t: Table, cache: map<nat, nat>, va: nat)
    requires 0 < t.pageSize && CacheAgrees(t, cache)
    ensures CacheAgrees(Touched(t, va), cache)
  {
    forall x | x in cache
      ensures Known(Touched(t, va), x) == Some(cache[x])
    {
      KnownIsStable(t, x, va);
    }
  }

  class SimpleManager {
    const pageSize: nat
    const entries: nat
    ghost const pages: set<nat>
    var free: seq<nat>
    var table: map<nat, nat>
    var cache: map<nat, nat>

    ghost function View(): Table
      reads this
    {
      Table(pageSize, table, free)
    }

    ghost predicate Valid()
      reads this
    {
      && 8 <= pageSize && 1 <= entries && |cache| <= entries
      && TableInv(View(), pages) && CacheAgrees(View(), cache)
    }

    constructor (size: nat, count: nat, cacheEntries: nat, random: bool, draws: seq<nat>)
      requires 8 <= size && 1 <= cacheEntries && |draws| == 4 * count
      ensures Valid() && pageSize == size && entries == cacheEntries && table == map[] && cache == map[]
      ensures multiset(free) == multiset(LinearPool(0, size, count))
    {
      pageSize, entries, table, cache := size, cacheEntries, map[], map[];
      var pool;
      if random { pool := MapPagesRandom(count, size, 0, draws); } else { pool := MapPagesLinear(count, size, 0); }
      free := pool;
      pages := set x | x in pool;
      LinearNoRepeats(0, size, count);
      ShuffleKeepsPages(pool, LinearPool(0, size, count));
      PoolApart(pool, size, count);
    }

    /** Remember a translation, evicting some entry when the cache is full. */
    method CacheTranslation(va: nat, pa: nat)
      requires 1 <= entries && |cache| <= entries && va !in cache
      modifies this`cache
      ensures |cache| <= entries && va in cache && cache[va] == pa
      ensures forall x :: x in cache && x != va ==> x in old(cache) && cache[x] == old(cache)[x]
    {
      cache := Remembered(cache, entries, va, pa);
    }

    /** allocate(8, ...) for an unknown page. */
    method AllocatePage(start: nat) returns (ok: bool)
      requires start !in table
      modifies this`free, this`table
      ensures ok == (old(free) != [])
      ensures ok ==> table == old(table)[start := old(free)[0]] && free == old(free)[1..]
      ensures !ok ==> table == old(table) && free == old(free)
    {
      ok := free != [];
      if ok {
        table := table[start := free[0]];
        free := free[1..];
      }
    }

    /** translateAddress: the answer and the new table are those of the plain page table. */
    method Translate(va: nat) returns (pa: Option<nat>)
      requires Valid()
      modifies this
      ensures Valid() && pa == Answer(old(View()), va) && View() == Touched(old(View()), va)
    {
      hide StartOf, TableInv;
      ghost var t := View();
      TouchedKeeps(t, pages, va);
      AgreesAfter(t, cache, va);
      AnswerMissing(t, va);
      if va in cache { return Some(cache[va]); }
      var start := StartOf(va, pageSize);
      if start !in table {
        var ok := AllocatePage(start);
        if !ok { return None; }
      }
      var found := table[start] + (va - start);
      CacheTranslation(va, found);
      return Some(found);
    }

    /** Any sequence of translations is answered as the plain page table answers it. */
    method TranslateAll(vas: seq<nat>) returns (pas: seq<Option<nat>>)
      requires Valid()
      modifies this
      ensures Valid() && pas == Answers(old(View()), vas)
    {
      hide TableInv, Answer, Touched, CacheAgrees, Answers;
      pas := [];
      ghost var all := Answers(View(), vas);
      EmptyIsUnit(all);
      assert vas[0..] == vas;
      for i := 0 to |vas|
        invariant Valid() && all == pas + Answers(View(), vas[i..])
      {
        AnswersStep(View(), vas, i);
        Regroup(pas, Answer(View(), vas[i]), Answers(Touched(View(), vas[i]), vas[i + 1..]));
        var pa := Translate(vas[i]);
        pas := pas + [pa];
      }
      NoAnswers(View(), vas);
      EmptyIsUnit(pas);
    }
  }

  lemma AnswersStep(t: Table, vas: seq<nat>, i: nat)
    requires 0 < t.pageSize && i < |vas|
    ensures Answers(t, vas[i..]) == [Answer(t, vas[i])] + Answers(Touched(t, vas[i]), vas[i + 1..])
  {
    hide Answer, Touched;
    assert vas[i..][0] == vas[i] && vas[i..][1..] == vas[i + 1..];
  }

  lemma NoAnswers(t: Table, vas: seq<nat>)
    requires 0 < t.pageSize
    ensures Answers(t, vas[|vas|..]) == []
  {}

  lemma PoolApart(pool: seq<nat>, size: nat, count: nat)
    requires 0 < size && forall x :: x in pool <==> x in LinearPool(0, size, count)
    ensures forall x :: x in pool ==> x % size == 0
    ensures forall x, y :: x in pool && y in pool && x < y ==> x + size <= y
  {
    forall x | x in pool
      ensures x % size == 0
    {
      var i :| 0 <= i < count && LinearPool(0, size, count)[i] == x;
      PageAligned(size, i);
    }
    hide PageAt;
    forall x, y | x in pool && y in pool && x < y
      ensures x + size <= y
    {
      var i :| 0 <= i < count && LinearPool(0, size, count)[i] == x;
      var j :| 0 <= j < count && LinearPool(0, size, count)[j] == y;
      if i < j { PagesInOrder(0, size, i, j); }
      if j < i { PagesInOrder(0, size, j, i); }
    }
  }

  lemma PageAligned(size: nat, i: nat)
    requires 0 < size
    ensures PageAt(0, size, i) % size == 0
  {
    MultipleMod(size, i, PageAt(0, size, i));
  }
}
