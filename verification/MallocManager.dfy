/** Ariel's malloc memory manager object: allocate, free and translate, updating the pools and
    maps in place, each method proved to keep the invariant. */
module MallocManagers {
  import opened Sequences
  import opened Options
  import opened MallocModel
  import opened MallocSteps
  import opened PagePools
  import opened Translations
  import opened Caches
  import opened MallocCache

  // ---------------------------------------------------------------- ordered lookup

  /** The largest key of `keys` not above `va`, as an ordered map finds it. */
  method Predecessor(keys: set<nat>, va: nat) returns (r: Option<nat>)
    ensures r.Some? ==> IsPredecessor(keys, va, r.value)
    ensures r.None? ==> forall k :: k in keys ==> va < k
  {
    r := None;
    var left := keys;
    while left != {}
      invariant left <= keys
      invariant r.Some? ==> r.value in keys && r.value <= va
      invariant forall k :: k in keys && k !in left && k <= va ==> r.Some? && k <= r.value
      decreases left
    {
      var k :| k in left;
      if k <= va && (r.None? || r.value < k) { r := Some(k); }
      left := left - {k};
    }
  }

  /** The pages of level `l` lie below `end`, and those of lower levels below its own. */
  ghost predicate Laid(pages: Pages, sizes: seq<nat>, end: nat) {
    && |pages| <= |sizes|
    && (forall l, x :: 0 <= l < |pages| && x in pages[l] ==> x + sizes[l] <= end)
    && (forall l, h, x, y ::
      0 <= l < |pages| && 0 <= h < |pages| && x in pages[l] && y in pages[h] && (l != h || x != y) ==>
          x + sizes[l] <= y || y + sizes[h] <= x)
  }

  ghost predicate PoolOk(pool: seq<nat>, pages: set<nat>) { NoRepeats(pool) && forall x :: x in pool <==> x in pages }

  lemma LaidMore(pages: Pages, sizes: seq<nat>, end: nat, count: nat, more: set<nat>)
    requires Laid(pages, sizes, end) && |pages| < |sizes|
    requires forall x :: x in more <==> x in LinearPool(end, sizes[|pages|], count)
    ensures Laid(pages + [more], sizes, PageAt(end, sizes[|pages|], count))
  {
    var size := sizes[|pages|];
    hide PageAt;
    forall x | x in more
      ensures end <= x && x + size <= PageAt(end, size, count)
    {
      var i :| 0 <= i < count && LinearPool(end, size, count)[i] == x;
      PagesInOrder(end, size, i, count);
      PageAtNext(end, size, 0);
      if 0 < i { PagesInOrder(end, size, 0, i); }
    }
    forall x, y | x in more && y in more && x != y
      ensures x + size <= y || y + size <= x
    {
      var i :| 0 <= i < count && LinearPool(end, size, count)[i] == x;
      var j :| 0 <= j < count && LinearPool(end, size, count)[j] == y;
      if i < j { PagesInOrder(end, size, i, j); } else { PagesInOrder(end, size, j, i); }
    }
    PageAtNext(end, size, 0);
    if 0 < count { PagesInOrder(end, size, 0, count); }
  }

  method BuildPools(sizes: seq<nat>, counts: seq<nat>, random: bool, draws: seq<seq<nat>>)
    returns (pools: seq<seq<nat>>, next: nat, ghost pages: Pages)
    requires |sizes| == |counts| == |draws|
    requires forall l :: 0 <= l < |sizes| ==> 0 < sizes[l] && |draws[l]| == 4 * counts[l]
    ensures |pools| == |pages| == |sizes| && PagesApart(pages, sizes)
    ensures forall l :: 0 <= l < |pools| ==> PoolOk(pools[l], pages[l]) && PoolAt(sizes, counts, l, pools[l])
  {
    pools, next, pages := [], 0, [];
    for l := 0 to |sizes|
      invariant |pools| == |pages| == l && Laid(pages, sizes, next) && next == Base(sizes, counts, l)
      invariant forall h :: 0 <= h < l ==> PoolOk(pools[h], pages[h]) && PoolAt(sizes, counts, h, pools[h])
    {
      ghost var linear := LinearPool(next, sizes[l], counts[l]);
      LinearNoRepeats(next, sizes[l], counts[l]);
      var pool;
      if random { pool := MapPagesRandom(counts[l], sizes[l], next, draws[l]); }
      else { pool := MapPagesLinear(counts[l], sizes[l], next); }
      ShuffleKeepsPages(pool, linear);
      ghost var more := set x | x in pool;
      LaidMore(pages, sizes, next, counts[l], more);
      next := PageAt(next, sizes[l], counts[l]);
      pools := pools + [pool];
      pages := pages + [more];
    }
  }

  lemma InitialInv(m: Manager, pages: Pages)
    requires |m.free| == |m.tables| == |m.pageSizes| == |pages| && PagesApart(pages, m.pageSizes)
    requires forall l :: 0 <= l < |m.free| ==> PoolOk(m.free[l], pages[l]) && m.tables[l] == map[]
    requires m.trans == map[] && m.primary == map[] && m.info == map[]
    ensures Inv(m, pages)
  {
    forall l | 0 <= l < |m.free|
      ensures LevelOk(m, pages, l)
    {
      assert PoolOk(m.free[l], pages[l]);
      forall x | x in pages[l] ensures OnePlace(m, l, x) { assert x in m.free[l]; }
    }
  }

  class MallocManager {
    const pageSizes: seq<nat>
    const defaultLevel: nat
    ghost const pages: Pages
    var free: seq<seq<nat>>
    var tables: seq<map<nat, nat>>
    var trans: map<nat, nat>
    var primary: map<nat, nat>
    var info: map<nat, Info>
    const entries: nat
    var cache: map<nat, nat>

    ghost function View(): Manager
      reads this
    {
      Manager(pageSizes, free, tables, trans, primary, info)
    }

    ghost predicate Valid()
      reads this
    {
      Inv(View(), pages) && defaultLevel < |pageSizes| && 1 <= entries && |cache| <= entries
    }

    /** Pools of all levels, one after the other in physical memory, all pages free. */
    constructor (sizes: seq<nat>, counts: seq<nat>, level: nat, random: bool, draws: seq<seq<nat>>, cacheEntries: nat)
      requires |sizes| == |counts| == |draws| && level < |sizes| && 1 <= cacheEntries
      requires forall l :: 0 <= l < |sizes| ==> 0 < sizes[l] && |draws[l]| == 4 * counts[l]
      ensures Valid() && defaultLevel == level && IsStart(View(), sizes, counts) && cache == map[]
    {
      var pools, base, all := BuildPools(sizes, counts, random, draws);
      pageSizes := sizes;
      defaultLevel := level;
      free := pools;
      pages := all;
      tables := seq(|sizes|, l => map[]);
      trans, primary, info := map[], map[], map[];
      entries, cache := cacheEntries, map[];
      new;
      InitialInv(View(), pages);
    }

    /** The live allocation that holds `va`, if any. */
    method Lookup(va: nat) returns (key: Option<nat>)
      requires Valid()
      ensures key.Some? ==> key.value in trans && key.value in primary && key.value <= va
                            && LiveIn(View(), va, primary[key.value])
                            && MapsTo(View(), va, trans[key.value] + (va - key.value))
      ensures key.None? ==> forall p :: !LiveIn(View(), va, p)
    {
      var r := Predecessor(trans.Keys, va);
      key := None;
      if r.Some? {
        assert KeyOk(View(), r.value);
        AllocCovers(View(), pages, primary[r.value], r.value);
        if va < primary[r.value] + info[primary[r.value]].size { key := r; }
      }
      if key.None? {
        forall p | LiveIn(View(), va, p)
          ensures false
        {
          LiveHasKey(View(), pages, va, p);
          assert r.Some?;
          PredecessorIsOwn(View(), pages, va, p, r.value);
        }
      }
    }

    /** freeMalloc: unknown addresses are ignored; otherwise all pages go back to their pool. */
    method FreeMalloc(va: nat)
      requires Valid()
      modifies this
      ensures Valid() && FreedTo(old(View()), va, View()) && info == old(info) - {va} && cache == old(cache)
    {
      if va !in info { return; }
      var a := info[va];
      ghost var m := View();
      OwnKeys(m, pages, va);
      hide Inv, Unmappable, Unmapped;
      ghost var order := UnmapAll(a.level, a.keys);
      info := info - {va};
      FreesInv(m, pages, va, order, View());
    }

    method UnmapPage(l: nat, k: nat)
      requires l < |free| && k in trans
      modifies this`primary, this`trans, this`free
      ensures View() == UnmapOne(old(View()), l, k)
    {
      primary := primary - {k};
      free := free[l := [trans[k]] + free[l]];
      trans := trans - {k};
    }

    /** The keys come in whatever order the set yields them. */
    method UnmapAll(l: nat, keys: set<nat>) returns (ghost order: seq<nat>)
      requires l < |free| && forall k :: k in keys ==> k in trans
      modifies this`primary, this`trans, this`free
      ensures Unmappable(old(View()), l, order) && Members(order) == keys && View() == Unmapped(old(View()), l, order)
    {
      ghost var m := View();
      order := [];
      var left := keys;
      while left != {}
        invariant left <= keys && Members(order) == keys - left && Unmappable(m, l, order)
        invariant View() == Unmapped(m, l, order)
        decreases left
      {
        var k :| k in left;
        OrderMore(m, l, order, k);
        UnmapPage(l, k);
        order := order + [k];
        left := left - {k};
      }
    }

    method MapPage(l: nat, k: nat, p: nat)
      requires l < |free| && free[l] != []
      modifies this`primary, this`trans, this`free
      ensures View() == MapOne(old(View()), l, k, p)
    {
      var page := free[l][0];
      if k !in trans { trans := trans[k := page]; }
      if k !in primary { primary := primary[k := p]; }
      free := free[l := free[l][1..]];
    }

    /** Map `n` pages for the allocation at `p`. */
    method MapAll(p: nat, l: nat, n: nat)
      requires l < |free| && l < |pageSizes| && n <= |free[l]|
      modifies this`primary, this`trans, this`free
      ensures View() == Mapped(old(View()), l, p, n)
    {
      hide MapOne, KeyAt;
      ghost var m := View();
      var next := p;
      var i := 0;
      KeyAtNext(p, pageSizes[l], 0);
      while i != n
        invariant 0 <= i <= n && next == KeyAt(p, pageSizes[l], i) && View() == Mapped(m, l, p, i)
      {
        KeyAtNext(p, pageSizes[l], i);
        MapPage(l, next, p);
        next := next + pageSizes[l];
        i := i + 1;
      }
    }

    /** allocateMalloc: an allocation that holds the address is freed first; without enough free
        pages nothing is mapped. The manager stays consistent if and only if the new allocation,
        if there is one, is not empty and no live allocation starts inside it. */
    method AllocateMalloc(size: nat, level: nat, va: nat) returns (ok: bool)
      requires Valid() && level < |pageSizes|
      modifies this
      ensures AllocatedTo(old(View()), size, level, va, View(), ok) && cache == old(cache)
      ensures var rest := Surviving(old(info), va);
        && va !in rest
        && (Valid() <==> (ok ==> 0 < size && forall p :: p in rest && va < p ==> va + size <= p))
        && info ==
          if ok then rest[va := Info(size, level, Keys(va, pageSizes[level], PageCount(size, pageSizes[level])))]
          else rest
    {
      hide Inv, HasPages, Allocated, ReleasedTo;
      ReleaseAt(va);
      ghost var mid := View();
      LevelSizes(mid, pages);
      HasPagesIs(mid, size, level);
      ok := MapNew(size, level, va);
      if ok {
        AllocatedExactly(mid, pages, size, level, va);
        AllocatedRecord(mid, size, level, va);
      } else {
        NotHeld(mid, pages, va);
      }
    }

    /** Free the allocation that holds `va`, if there is one. */
    method ReleaseAt(va: nat)
      requires Valid()
      modifies this
      ensures Valid() && ReleasedTo(old(View()), va, View()) && info == Surviving(old(info), va) && cache == old(cache)
      ensures forall p :: !LiveIn(View(), va, p)
    {
      hide FreedTo;
      var key := Lookup(va);
      if key.Some? {
        SurvivingIs(View(), pages, va, primary[key.value]);
        FreeMalloc(primary[key.value]);
      } else {
        SurvivesAll(View(), va);
      }
    }

    method MapNew(size: nat, level: nat, va: nat) returns (ok: bool)
      requires level < |free| && level < |pageSizes| && 0 < pageSizes[level]
      modifies this
      ensures ok == HasPages(old(View()), size, level) && cache == old(cache)
      ensures View() == if ok then Allocated(old(View()), size, level, va) else old(View())
    {
      hide Mapped, Keys;
      var n := size / pageSizes[level];
      if size % pageSizes[level] != 0 { n := n + 1; }
      if |free[level]| < n { return false; }
      MapAll(va, level, n);
      var keys := KeySet(va, pageSizes[level], n);
      if va !in info { info := info[va := Info(size, level, keys)]; }
      return true;
    }

    /** The first level whose page table knows the page of `va`. */
    method FindInTables(va: nat) returns (r: Option<nat>)
      requires Shaped(View())
      ensures r == FirstHit(View(), va, 0)
    {
      for l := 0 to |tables|
        invariant forall h :: 0 <= h < l ==> !Hits(View(), va, h)
      {
        if StartOf(va, pageSizes[l]) in tables[l] {
          LowestHit(View(), va, l);
          return Some(l);
        }
      }
      return None;
    }

    /** The default level if it has a page free, else the first level that has. */
    method LevelWithRoom() returns (r: Option<nat>)
      requires defaultLevel < |free|
      ensures r == Room(View(), defaultLevel)
    {
      if free[defaultLevel] != [] { return Some(defaultLevel); }
      for l := 0 to |free|
        invariant forall h :: 0 <= h < l ==> free[h] == []
      {
        if free[l] != [] { return Some(l); }
      }
      return None;
    }

    /** Map one page in the page table of level `l`. */
    method MapInTable(l: nat, v: nat)
      requires l < |free| && l < |tables| && free[l] != [] && v !in tables[l]
      modifies this`free, this`tables
      ensures View() == TableOne(old(View()), l, v)
    {
      var table: map<nat, nat> := tables[l][v := free[l][0]];
      tables := tables[l := table];
      free := free[l := free[l][1..]];
    }

    /** translateAddress: a cached answer is given as it is; otherwise the answer is looked up and
        cached. As long as the cache is current and page sizes divide each other upwards, every
        answer is the current translation and the cache stays current. */
    method Translate(va: nat) returns (pa: Option<nat>)
      requires Valid() && SizesOk(pageSizes)
      modifies this`free, this`tables, this`cache
      ensures Valid() && Shaped(old(View()))
      ensures va in old(cache) ==> pa == Some(old(cache)[va]) && View() == old(View()) && cache == old(cache)
      ensures va !in old(cache) ==> View() == Touched(old(View()), defaultLevel, va) && pa == Translation(View(), va)
      ensures forall x :: x in cache ==>
        (x in old(cache) && cache[x] == old(cache)[x]) || (x == va && pa == Some(cache[x]))
      ensures AllDivide(pageSizes) && old(Agrees(View(), cache)) ==>
        Agrees(View(), cache) && pa == Translation(View(), va)
    {
      ghost var m := View();
      LevelSizes(m, pages);
      if va in cache { return Some(cache[va]); }
      hide Inv, Translation, Touched, AllDivide;
      pa := Resolve(va);
      if AllDivide(pageSizes) && old(Agrees(View(), cache)) { TouchAgrees(m, defaultLevel, va, cache); }
      if pa.Some? { cache := Remembered(cache, entries, va, pa.value); }
    }

    /** The answer without the cache: allocations, then page tables from the lowest level on, then
        a fresh page. It is missing only if the address is unknown and no level has a page left. */
    method Resolve(va: nat) returns (pa: Option<nat>)
      requires Valid() && SizesOk(pageSizes)
      modifies this`free, this`tables
      ensures Valid() && Shaped(old(View())) && View() == Touched(old(View()), defaultLevel, va)
      ensures pa == Translation(View(), va)
    {
      ghost var m0 := View();
      LevelSizes(m0, pages);
      TouchedKeeps(m0, pages, defaultLevel, va);
      TouchedAnswers(m0, defaultLevel, va);
      hide Valid, Translation, Touched;
      pa := Known(va);
      if pa.Some? { TouchedNothing(m0, defaultLevel, va); return; }
      var room := LevelWithRoom();
      TouchedAt(m0, defaultLevel, va);
      if room.Some? {
        MapInTable(room.value, StartOf(va, pageSizes[room.value]));
        pa := Known(va);
      }
    }

    /** The answer the maps and tables give, if any. */
    method Known(va: nat) returns (pa: Option<nat>)
      requires Valid() && Shaped(View())
      ensures pa == Translation(View(), va)
    {
      hide Valid, Translation, MapsTo, StartOf, LiveIn;
      var key := Lookup(va);
      if key.Some? {
        MapsToOnce(View(), va, trans[key.value] + (va - key.value));
        return Some(trans[key.value] + (va - key.value));
      }
      NotAllocated(View(), va);
      var hit := FindInTables(va);
      match hit
      case Some(l) => pa := Some(tables[l][StartOf(va, pageSizes[l])] + (va - StartOf(va, pageSizes[l])));
      case None => pa := None;
    }
  }

  lemma TouchedNothing(m: Manager, default: nat, va: nat)
    requires Shaped(m) && Translation(m, va).Some?
    ensures Touched(m, default, va) == m
  {}

  lemma TouchedAt(m: Manager, default: nat, va: nat)
    requires Shaped(m) && Translation(m, va).None?
    ensures Room(m, default).None? ==> Touched(m, default, va) == m
    ensures Room(m, default).Some? ==>
      var l := Room(m, default).value;
      !Hits(m, va, l) && Touched(m, default, va) == TableOne(m, l, StartOf(va, m.pageSizes[l]))
  {}

  lemma TouchedKeeps(m: Manager, pages: Pages, default: nat, va: nat)
    requires Inv(m, pages) && Shaped(m)
    ensures Inv(Touched(m, default, va), pages)
  {
    hide Translation;
    if Translation(m, va).None? && Room(m, default).Some? {
      var l := Room(m, default).value;
      assert !Hits(m, va, l);
      TableOneKeeps(m, pages, l, StartOf(va, m.pageSizes[l]));
    }
  }

  lemma TableOneKeeps(m: Manager, pages: Pages, l: nat, v: nat)
    requires Inv(m, pages) && l < |m.free| && l < |m.tables| && m.free[l] != [] && v !in m.tables[l]
    ensures Inv(TableOne(m, l, v), pages)
  {
    TableOneConserves(m, pages, l, v);
    var m' := TableOne(m, l, v);
    forall p | p in m'.info ensures AllocOk(m', pages, p) { assert AllocOk(m, pages, p); }
    forall k | k in m'.primary ensures KeyOk(m', k) { assert KeyOk(m, k); }
  }

  method KeySet(start: nat, pageSize: nat, n: nat) returns (keys: set<nat>)
    ensures keys == Keys(start, pageSize, n)
  {
    keys := {};
    for i := 0 to n
      invariant keys == Keys(start, pageSize, i)
    {
      keys := keys + {KeyAt(start, pageSize, i)};
    }
  }
}
