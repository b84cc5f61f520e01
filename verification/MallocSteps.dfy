/** What allocating and freeing do to Ariel's malloc memory manager: pages are mapped one by one
    under keys that are not in use yet, and unmapped one by one in any order. */
module MallocSteps {
  import opened Sequences
  import opened MallocModel

  // ---------------------------------------------------------------- allocating

  /** The manager after `n` pages of level `l` were mapped for the allocation at `p`. */
  ghost function Mapped(m: Manager, l: nat, p: nat, n: nat): (m': Manager)
    requires l < |m.free| && l < |m.pageSizes| && n <= |m.free[l]|
    ensures |m'.free| == |m.free| && |m'.free[l]| == |m.free[l]| - n
    ensures m'.pageSizes == m.pageSizes && m'.tables == m.tables && m'.info == m.info
  {
    if n == 0 then m else MapOne(Mapped(m, l, p, n - 1), l, KeyAt(p, m.pageSizes[l], n - 1), p)
  }

  /** Level and page size are right, and there are pages enough. */
  ghost predicate HasPages(m: Manager, size: nat, level: nat) {
    && level < |m.free| && level < |m.pageSizes| && 0 < m.pageSizes[level]
    && PageCount(size, m.pageSizes[level]) <= |m.free[level]|
  }

  ghost function Allocated(m: Manager, size: nat, level: nat, va: nat): (m': Manager)
    requires HasPages(m, size, level)
    ensures |m'.free| == |m.free| && m'.pageSizes == m.pageSizes && m'.tables == m.tables
  {
    var n := PageCount(size, m.pageSizes[level]);
    Mapped(m, level, va, n).(info := Inserted(m.info, va, Info(size, level, Keys(va, m.pageSizes[level], n))))
  }

  // ---------------------------------------------------------------- freeing

  ghost predicate Unmappable(m: Manager, l: nat, order: seq<nat>) {
    l < |m.free| && NoRepeats(order) && forall i :: 0 <= i < |order| ==> order[i] in m.trans
  }

  /** The manager after the pages at these keys were given back, one after the other. */
  ghost function Unmapped(m: Manager, l: nat, order: seq<nat>): (m': Manager)
    requires Unmappable(m, l, order)
    ensures |m'.free| == |m.free| && m'.pageSizes == m.pageSizes && m'.tables == m.tables && m'.info == m.info
    ensures forall k :: k in m'.trans <==> k in m.trans && k !in order
  {
    if order == [] then m
    else
      var n := |order| - 1;
      UnmapOne(Unmapped(m, l, order[..n]), l, order[n])
  }

  /** The pages of the allocation at `va` go back in the given order, and its record is dropped. */
  ghost predicate Frees(m: Manager, va: nat, order: seq<nat>, m': Manager) {
    && va in m.info && Unmappable(m, m.info[va].level, order) && Members(order) == m.info[va].keys
    && m' == Unmapped(m, m.info[va].level, order).(info := m.info - {va})
  }

  /** freeMalloc: an unknown address changes nothing. */
  ghost predicate FreedTo(m: Manager, va: nat, m': Manager) {
    if va in m.info then exists order :: Frees(m, va, order, m') else m' == m
  }

  /** The allocation that holds `va` is freed, if there is one. */
  ghost predicate ReleasedTo(m: Manager, va: nat, m': Manager) {
    || ((forall p :: !LiveIn(m, va, p)) && m' == m)
    || exists p :: LiveIn(m, va, p) && FreedTo(m, p, m')
  }

  /** allocateMalloc, and whether it succeeds. */
  ghost predicate AllocatedTo(m: Manager, size: nat, level: nat, va: nat, m': Manager, ok: bool) {
    exists mid ::
      && ReleasedTo(m, va, mid) && ok == HasPages(mid, size, level)
      && m' == if ok then Allocated(mid, size, level, va) else mid
  }

  lemma FreedShape(m: Manager, va: nat, m': Manager)
    requires FreedTo(m, va, m')
    ensures m'.tables == m.tables && m'.pageSizes == m.pageSizes && |m'.free| == |m.free|
  {
    if va in m.info {
      var order :| Frees(m, va, order, m');
    }
  }

  /** Allocating and freeing leave the page tables alone. */
  lemma AllocatedShape(m: Manager, size: nat, level: nat, va: nat, m': Manager, ok: bool)
    requires AllocatedTo(m, size, level, va, m', ok)
    ensures m'.tables == m.tables && m'.pageSizes == m.pageSizes && |m'.free| == |m.free|
  {
    var mid :|
      && ReleasedTo(m, va, mid) && ok == HasPages(mid, size, level)
      && m' == if ok then Allocated(mid, size, level, va) else mid;
    if mid != m {
      var p :| LiveIn(m, va, p) && FreedTo(m, p, mid);
      FreedShape(m, p, mid);
    }
  }

  // ---------------------------------------------------------------- they keep the invariant

  lemma {:induction false} MappedKeeps(m: Manager, pages: Pages, p: nat, l: nat, n: nat)
    requires Conserved(m, pages) && PagesApart(pages, m.pageSizes) && Partial(m, pages, p, l, {})
    requires l < |m.free| == |m.pageSizes| && n <= |m.free[l]|
    requires forall k :: k in Keys(p, m.pageSizes[l], n) ==> k !in m.trans
    ensures var m' := Mapped(m, l, p, n);
      && Conserved(m', pages) && Partial(m', pages, p, l, Keys(p, m.pageSizes[l], n))
      && m'.trans.Keys == m.trans.Keys + Keys(p, m.pageSizes[l], n)
    decreases n
  {
    hide Conserved, Partial, PagesApart, Keys, KeyAt;
    SizesPositive(pages, m.pageSizes, l);
    NoKeys(p, m.pageSizes[l]);
    if 0 < n {
      KeysStep(p, m.pageSizes[l], n - 1, n);
      MappedKeeps(m, pages, p, l, n - 1);
      var m1, k := Mapped(m, l, p, n - 1), KeyAt(p, m.pageSizes[l], n - 1);
      MapOneConserves(m1, pages, l, k, p);
      PartialMap(m1, pages, p, l, Keys(p, m.pageSizes[l], n - 1), k);
    }
  }

  lemma {:induction false} UnmappedKeeps(m: Manager, pages: Pages, p: nat, l: nat, order: seq<nat>, keys: set<nat>)
    requires Conserved(m, pages) && PagesApart(pages, m.pageSizes) && Partial(m, pages, p, l, keys)
    requires Unmappable(m, l, order) && Members(order) <= keys
    ensures Conserved(Unmapped(m, l, order), pages)
    ensures Partial(Unmapped(m, l, order), pages, p, l, keys - Members(order))
    decreases |order|
  {
    hide Conserved, Partial, PagesApart;
    if order == [] {
      assert keys - Members(order) == keys;
    } else {
      var n := |order| - 1;
      var init, k := order[..n], order[n];
      MembersInit(order);
      UnmappedKeeps(m, pages, p, l, init, keys);
      var m1 := Unmapped(m, l, init);
      PartialKey(m1, pages, p, l, keys - Members(init), k);
      UnmapOneConserves(m1, pages, l, k);
      PartialUnmap(m1, pages, p, l, keys - Members(init), k);
      assert (keys - Members(init)) - {k} == keys - Members(order);
    }
  }

  lemma MembersInit(order: seq<nat>)
    requires order != [] && NoRepeats(order)
    ensures var n := |order| - 1;
      Members(order) == Members(order[..n]) + {order[n]} && order[n] !in Members(order[..n]) && NoRepeats(order[..n])
  {
    assert order == order[..|order| - 1] + [order[|order| - 1]];
  }

  lemma FreesInv(m: Manager, pages: Pages, va: nat, order: seq<nat>, m': Manager)
    requires Inv(m, pages) && Frees(m, va, order, m')
    ensures Inv(m', pages)
  {
    hide Conserved, MapsOk, PagesApart, Partial, Unmappable, Unmapped;
    var a := m.info[va];
    PartialOpen(m, pages, va);
    UnmappedKeeps(m, pages, va, a.level, order, a.keys);
    assert a.keys - Members(order) == {};
    InvApart(m, pages);
    RecordsDrop(Unmapped(m, a.level, order), pages, va, a.level);
  }

  lemma InvApart(m: Manager, pages: Pages)
    requires Inv(m, pages)
    ensures Apart(m.info)
  {}

  /** A new allocation meets no live one. */
  ghost predicate Outside(m: Manager, size: nat, va: nat) {
    forall p :: p in m.info ==> p + m.info[p].size <= va || va + size <= p
  }

  lemma AllocatedInv(m: Manager, pages: Pages, size: nat, level: nat, va: nat)
    requires Inv(m, pages) && HasPages(m, size, level) && 0 < size && Outside(m, size, va)
    ensures Inv(Allocated(m, size, level, va), pages)
  {
    hide PageCount, Conserved, MapsOk, PagesApart, Partial, Keys, Mapped;
    LevelSizes(m, pages);
    var n := PageCount(size, m.pageSizes[level]);
    RoomFor(m, pages, size, level, va, n);
    MappedKeeps(m, pages, va, level, n);
    RecordsAdd(Mapped(m, level, va, n), pages, va, Info(size, level, Keys(va, m.pageSizes[level], n)));
  }

  /** Allocating where no allocation holds the start keeps the invariant if and only if something
      is allocated and no live allocation starts inside the new one. */
  lemma AllocatedExactly(m: Manager, pages: Pages, size: nat, level: nat, va: nat)
    requires Inv(m, pages) && HasPages(m, size, level) && forall p :: !LiveIn(m, va, p)
    ensures Inv(Allocated(m, size, level, va), pages) <==>
            0 < size && forall p :: p in m.info && va < p ==> va + size <= p
    ensures va !in m.info
  {
    var m' := Allocated(m, size, level, va);
    NotHeld(m, pages, va);
    if 0 < size && forall p :: p in m.info && va < p ==> va + size <= p { AllocatedInv(m, pages, size, level, va); }
    hide Conserved, PagesApart, Mapped, Keys, PageCount, KeyOk;
    if Inv(m', pages) {
      assert AllocOk(m', pages, va);
      forall p | p in m.info && va < p ensures va + size <= p { assert p in m'.info; }
    }
  }

  lemma NotHeld(m: Manager, pages: Pages, va: nat)
    requires Inv(m, pages) && forall p :: !LiveIn(m, va, p)
    ensures va !in m.info && forall p :: p in m.info && p <= va ==> p + m.info[p].size <= va
  {
    hide Conserved, PagesApart, KeyOk;
    forall p | p in m.info
      ensures 0 < m.info[p].size && !(p <= va < p + m.info[p].size)
    {
      AllocLevel(m, pages, p);
      assert !LiveIn(m, va, p);
    }
  }

  // ---------------------------------------------------------------- parts

  lemma OwnKeys(m: Manager, pages: Pages, va: nat)
    requires Inv(m, pages) && va in m.info
    ensures m.info[va].level < |m.free| && forall k :: k in m.info[va].keys ==> k in m.trans
  {
    assert AllocOk(m, pages, va);
  }

  lemma OrderMore(m: Manager, l: nat, order: seq<nat>, k: nat)
    requires Unmappable(m, l, order) && k in m.trans && k !in Members(order)
    ensures Unmappable(m, l, order + [k]) && Members(order + [k]) == Members(order) + {k}
    ensures k in Unmapped(m, l, order).trans && Unmapped(m, l, order + [k]) == UnmapOne(Unmapped(m, l, order), l, k)
  {
    hide UnmapOne;
    assert (order + [k])[..|order|] == order;
  }

  lemma HasPagesIs(m: Manager, size: nat, level: nat)
    requires level < |m.free| && level < |m.pageSizes| && 0 < m.pageSizes[level]
    ensures HasPages(m, size, level) <==> PageCount(size, m.pageSizes[level]) <= |m.free[level]|
  {}

  lemma AllocatedRecord(m: Manager, size: nat, level: nat, va: nat)
    requires HasPages(m, size, level) && va !in m.info
    ensures Allocated(m, size, level, va).info ==
      m.info[va := Info(size, level, Keys(va, m.pageSizes[level], PageCount(size, m.pageSizes[level])))]
  {
    hide PageCount, Keys, Mapped;
  }

  lemma AllocLevel(m: Manager, pages: Pages, p: nat)
    requires MapsOk(m, pages) && p in m.info
    ensures m.info[p].level < |pages| && 0 < m.info[p].size
  {
    assert AllocOk(m, pages, p);
  }

  /** The allocations that do not hold `va`. */
  ghost function Surviving(info: map<nat, Info>, va: nat): map<nat, Info> {
    map p | p in info && !(p <= va < p + info[p].size) :: info[p]
  }

  lemma SurvivingIs(m: Manager, pages: Pages, va: nat, p: nat)
    requires MapsOk(m, pages) && LiveIn(m, va, p)
    ensures m.info - {p} == Surviving(m.info, va)
  {
    forall q | q in m.info
      ensures q != p ==> !(q <= va < q + m.info[q].size)
    {
    }
  }

  lemma SurvivesAll(m: Manager, va: nat)
    requires forall p :: !LiveIn(m, va, p)
    ensures m.info == Surviving(m.info, va)
  {
    forall q | q in m.info ensures !(q <= va < q + m.info[q].size) { assert !LiveIn(m, va, q); }
  }

  lemma LevelSizes(m: Manager, pages: Pages)
    requires Inv(m, pages)
    ensures |m.free| == |m.tables| == |m.pageSizes| == |pages| && forall l :: 0 <= l < |pages| ==> 0 < m.pageSizes[l]
  {}

  lemma SizesPositive(pages: Pages, sizes: seq<nat>, l: nat)
    requires PagesApart(pages, sizes) && l < |sizes|
    ensures 0 < sizes[l]
  {}

  lemma NoKeys(start: nat, pageSize: nat)
    ensures Keys(start, pageSize, 0) == {}
  {}

  lemma KeysStep(start: nat, pageSize: nat, i: nat, n: nat)
    requires i < n && 0 < pageSize
    ensures Keys(start, pageSize, i + 1) == Keys(start, pageSize, i) + {KeyAt(start, pageSize, i)}
    ensures KeyAt(start, pageSize, i) in Keys(start, pageSize, n)
    ensures KeyAt(start, pageSize, i) !in Keys(start, pageSize, i)
  {
    KeysGrow(start, pageSize, i + 1, n);
    KeysBelow(start, pageSize, i);
  }

  lemma KeysBelow(start: nat, pageSize: nat, i: nat)
    requires 0 < pageSize
    ensures forall k :: k in Keys(start, pageSize, i) ==> k < KeyAt(start, pageSize, i)
  {
    forall k | k in Keys(start, pageSize, i)
      ensures k < KeyAt(start, pageSize, i)
    {
      KeysRange(start, pageSize, i, k);
      KeyAtNext(start, pageSize, i - 1);
    }
  }

  lemma {:induction false} KeysGrow(start: nat, pageSize: nat, i: nat, n: nat)
    requires i <= n
    ensures Keys(start, pageSize, i) <= Keys(start, pageSize, n)
    decreases n - i
  {
    if i < n { KeysGrow(start, pageSize, i, n - 1); }
  }

  lemma PartialKey(m: Manager, pages: Pages, p: nat, l: nat, keys: set<nat>, k: nat)
    requires Partial(m, pages, p, l, keys) && k in keys && Conserved(m, pages)
    ensures k in m.trans && m.trans[k] in pages[l] && l < |m.free|
  {}

  lemma RecordsDrop(m: Manager, pages: Pages, p: nat, l: nat)
    requires Conserved(m, pages) && PagesApart(pages, m.pageSizes) && Partial(m, pages, p, l, {}) && Apart(m.info)
    ensures Inv(m.(info := m.info - {p}), pages)
  {
    hide Conserved, Partial, PagesApart;
    PartialDrop(m, pages, p, l);
    ConservedInfo(m, pages, m.info - {p});
  }

  lemma RecordsAdd(m: Manager, pages: Pages, p: nat, a: Info)
    requires Conserved(m, pages) && PagesApart(pages, m.pageSizes) && Apart(m.info) && p !in m.info
    requires 0 < a.size && a.level < |m.pageSizes|
    requires a.keys == Keys(p, m.pageSizes[a.level], PageCount(a.size, m.pageSizes[a.level]))
    requires 0 < m.pageSizes[a.level] && Partial(m, pages, p, a.level, a.keys)
    requires forall q :: q in m.info ==> q + m.info[q].size <= p || p + a.size <= q
    ensures Inv(m.(info := m.info[p := a]), pages)
  {
    hide Conserved, Partial, PagesApart, Keys, PageCount;
    var size := m.pageSizes[a.level];
    PageCountFits(a.size, size);
    var n := PageCount(a.size, size);
    forall k | k in a.keys
      ensures p <= k < p + a.size
    {
      KeysRange(p, size, n, k);
    }
    forall x | p <= x < p + a.size
      ensures Covers(a.keys, size, x)
    {
      KeysCover(p, size, n, x);
    }
    PartialRecord(m, pages, p, a);
    ConservedInfo(m, pages, m.info[p := a]);
  }

  /** No key is in use inside a range that meets no live allocation. */
  lemma KeyUnused(m: Manager, pages: Pages, va: nat, size: nat, k: nat)
    requires MapsOk(m, pages) && va <= k < va + size
    requires forall p :: p in m.info ==> p + m.info[p].size <= va || va + size <= p
    ensures k !in m.trans
  {
    if k in m.trans { AllocCovers(m, pages, m.primary[k], k); }
  }

  /** A new allocation outside the live ones finds its keys unused. */
  lemma RoomFor(m: Manager, pages: Pages, size: nat, level: nat, va: nat, n: nat)
    requires Inv(m, pages) && 0 < size && level < |m.pageSizes| && 0 < m.pageSizes[level]
    requires n == PageCount(size, m.pageSizes[level])
    requires forall p :: p in m.info ==> p + m.info[p].size <= va || va + size <= p
    ensures va !in m.info && Apart(m.info) && Partial(m, pages, va, level, {})
    ensures forall k :: k in Keys(va, m.pageSizes[level], n) ==> k !in m.trans
  {
    hide PageCount, Keys, Partial, AllocOk, KeyOk, Conserved;
    NotRecorded(m, pages, va, size);
    LevelSizes(m, pages);
    PartialStart(m, pages, va, level);
    PageCountFits(size, m.pageSizes[level]);
    forall k | k in Keys(va, m.pageSizes[level], n)
      ensures k !in m.trans
    {
      KeysRange(va, m.pageSizes[level], n, k);
      KeyUnused(m, pages, va, size, k);
    }
  }

  lemma NotRecorded(m: Manager, pages: Pages, va: nat, size: nat)
    requires MapsOk(m, pages) && 0 < size && forall p :: p in m.info ==> p + m.info[p].size <= va || va + size <= p
    ensures va !in m.info
  {
    if va in m.info { AllocLevel(m, pages, va); }
  }

  lemma AllocCovers(m: Manager, pages: Pages, p: nat, k: nat)
    requires MapsOk(m, pages) && k in m.primary && m.primary[k] == p
    ensures p in m.info && p <= k < p + m.info[p].size
  {
    assert KeyOk(m, k);
    assert AllocOk(m, pages, p);
  }

  /** Conservation does not look at the records. */
  lemma ConservedInfo(m: Manager, pages: Pages, info: map<nat, Info>)
    requires Conserved(m, pages)
    ensures Conserved(m.(info := info), pages)
  {
    var m' := m.(info := info);
    forall l | 0 <= l < |m'.free|
      ensures LevelOk(m', pages, l)
    {
      assert LevelOk(m, pages, l);
      forall x | x in pages[l] ensures OnePlace(m', l, x) { assert OnePlace(m, l, x); }
    }
  }
}
