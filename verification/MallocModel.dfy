/** Ariel's malloc memory manager as a value: free page pools, demand page tables and the three
    maps of live allocations, with the invariant that ties them together. */
module MallocModel {
  import opened Sequences
  import opened PagePools

  datatype Info = Info(size: nat, level: nat, keys: set<nat>)

  datatype Manager = Manager(
    pageSizes: seq<nat>,
    free: seq<seq<nat>>,
    tables: seq<map<nat, nat>>,
    trans: map<nat, nat>,      // virtual page key to physical page
    primary: map<nat, nat>,    // virtual page key to the start of its allocation
    info: map<nat, Info>)      // live allocations by start

  /** The physical pages each level began with. */
  type Pages = seq<set<nat>>

  // ---------------------------------------------------------------- conservation

  /** Page `x` of level `l` is in exactly one place: free, mapped by an allocation, or mapped by
      the page table. */
  ghost predicate OnePlace(m: Manager, l: nat, x: nat)
    requires l < |m.free| && l < |m.tables|
  {
    || (x in m.free[l] && x !in m.trans.Values && x !in m.tables[l].Values)
    || (x !in m.free[l] && x in m.trans.Values && x !in m.tables[l].Values)
    || (x !in m.free[l] && x !in m.trans.Values && x in m.tables[l].Values)
  }

  ghost predicate LevelOk(m: Manager, pages: Pages, l: nat)
    requires l < |m.free| && l < |m.tables| && l < |pages|
  {
    && NoRepeats(m.free[l]) && Injective(m.tables[l])
    && (forall x :: x in m.free[l] ==> x in pages[l])
    && m.tables[l].Values <= pages[l]
    && forall x :: x in pages[l] ==> OnePlace(m, l, x)
  }

  /** Free pools plus mapped pages are exactly the initial pages, each page once. */
  ghost predicate Conserved(m: Manager, pages: Pages) {
    && |m.free| == |m.tables| == |m.pageSizes| == |pages|
    && (forall l :: 0 <= l < |m.free| ==> LevelOk(m, pages, l))
    && Injective(m.trans)
  }

  // ---------------------------------------------------------------- the three maps

  ghost predicate AllocOk(m: Manager, pages: Pages, p: nat) {
    && p in m.info
    && var a := m.info[p];
       && 0 < a.size && a.level < |pages| && a.level < |m.pageSizes|
       && (forall k :: k in a.keys ==>
         k in m.trans && k in m.primary && m.primary[k] == p && p <= k < p + a.size && m.trans[k] in pages[a.level])
       && (forall x :: p <= x < p + a.size ==> Covers(a.keys, m.pageSizes[a.level], x))
  }

  /** Some key starts a page that holds `x`. */
  ghost predicate Covers(keys: set<nat>, pageSize: nat, x: int) {
    exists k :: k in keys && k <= x < k + pageSize
  }

  ghost predicate KeyOk(m: Manager, k: nat) {
    k in m.primary && m.primary[k] in m.info && k in m.info[m.primary[k]].keys
  }

  /** Live allocations do not overlap. */
  ghost predicate Apart(info: map<nat, Info>) {
    forall p, q :: p in info && q in info && p < q ==> p + info[p].size <= q
  }

  ghost predicate MapsOk(m: Manager, pages: Pages) {
    && m.trans.Keys == m.primary.Keys
    && (forall k :: k in m.primary ==> KeyOk(m, k))
    && (forall p :: p in m.info ==> AllocOk(m, pages, p))
    && Apart(m.info)
  }

  /** Physical pages of all levels do not overlap. */
  ghost predicate PagesApart(pages: Pages, sizes: seq<nat>) {
    && |pages| == |sizes|
    && (forall l :: 0 <= l < |sizes| ==> 0 < sizes[l])
    && (forall l, h, x, y ::
      0 <= l < |pages| && 0 <= h < |pages| && x in pages[l] && y in pages[h] && (l != h || x != y) ==>
          x + sizes[l] <= y || y + sizes[h] <= x)
  }

  ghost predicate Inv(m: Manager, pages: Pages) {
    Conserved(m, pages) && MapsOk(m, pages) && PagesApart(pages, m.pageSizes)
  }

  // ---------------------------------------------------------------- single pages

  /** A map's insert: a key that is there keeps its value. */
  function Inserted<T>(m: map<nat, T>, k: nat, v: T): map<nat, T> { if k in m then m else m[k := v] }

  /** Map the first free page of the level at key `k` of the allocation at `p`. */
  function MapOne(m: Manager, l: nat, k: nat, p: nat): Manager
    requires l < |m.free| && m.free[l] != []
  {
    m.(trans := Inserted(m.trans, k, m.free[l][0]), primary := Inserted(m.primary, k, p),
      free := m.free[l := m.free[l][1..]])
  }

  /** Give the page at key `k` back to the front of the level's pool. */
  function UnmapOne(m: Manager, l: nat, k: nat): Manager
    requires l < |m.free| && k in m.trans
  {
    m.(trans := m.trans - {k}, primary := m.primary - {k}, free := m.free[l := [m.trans[k]] + m.free[l]])
  }

  /** Map the first free page of the level in the page table. */
  function TableOne(m: Manager, l: nat, v: nat): Manager
    requires l < |m.free| && l < |m.tables| && m.free[l] != [] && v !in m.tables[l]
  {
    var table: map<nat, nat> := m.tables[l][v := m.free[l][0]];
    m.(tables := m.tables[l := table], free := m.free[l := m.free[l][1..]])
  }

  lemma ValuesRemove(m: map<nat, nat>, k: nat)
    requires k in m && Injective(m)
    ensures (m - {k}).Values == m.Values - {m[k]} && Injective(m - {k})
  {
    var m' := m - {k};
    forall v
      ensures v in m'.Values <==> v in m.Values - {m[k]}
    {
      if v in m.Values - {m[k]} {
        var a :| a in m && m[a] == v;
        assert m'[a] == v;
      }
      if v in m'.Values {
        var a :| a in m' && m'[a] == v;
        assert m[a] == v && m[a] != m[k];
      }
    }
  }

  /** The pages of different levels are different. */
  lemma LevelsDiffer(pages: Pages, sizes: seq<nat>, l: nat, h: nat, x: nat)
    requires PagesApart(pages, sizes) && l < |pages| && h < |pages| && x in pages[l] && x in pages[h]
    ensures l == h
  {}

  lemma MapOneConserves(m: Manager, pages: Pages, l: nat, k: nat, p: nat)
    requires Conserved(m, pages) && PagesApart(pages, m.pageSizes) && l < |m.free| && m.free[l] != [] && k !in m.trans
    ensures Conserved(MapOne(m, l, k, p), pages) && m.free[l][0] in pages[l]
  {
    var m' := MapOne(m, l, k, p);
    var x := m.free[l][0];
    assert LevelOk(m, pages, l) && x in m.free[l];
    HeadTail(m.free[l]);
    assert OnePlace(m, l, x);
    ValuesInsert(m.trans, k, x);
    forall h | 0 <= h < |m'.free|
      ensures LevelOk(m', pages, h)
    {
      assert LevelOk(m, pages, h);
      forall y | y in pages[h]
        ensures OnePlace(m', h, y)
      {
        assert OnePlace(m, h, y);
        if y == x { LevelsDiffer(pages, m.pageSizes, l, h, x); }
      }
    }
  }

  lemma UnmapOneConserves(m: Manager, pages: Pages, l: nat, k: nat)
    requires Conserved(m, pages) && PagesApart(pages, m.pageSizes) && l < |m.free| && k in m.trans
    requires m.trans[k] in pages[l]
    ensures Conserved(UnmapOne(m, l, k), pages)
  {
    var m' := UnmapOne(m, l, k);
    var x := m.trans[k];
    assert LevelOk(m, pages, l) && OnePlace(m, l, x);
    ValuesRemove(m.trans, k);
    forall h | 0 <= h < |m'.free|
      ensures LevelOk(m', pages, h)
    {
      assert LevelOk(m, pages, h);
      forall y | y in pages[h]
        ensures OnePlace(m', h, y)
      {
        assert OnePlace(m, h, y);
        if y == x { LevelsDiffer(pages, m.pageSizes, l, h, x); }
      }
    }
  }

  lemma TableOneConserves(m: Manager, pages: Pages, l: nat, v: nat)
    requires Conserved(m, pages) && PagesApart(pages, m.pageSizes) && l < |m.free| && m.free[l] != []
    requires v !in m.tables[l]
    ensures Conserved(TableOne(m, l, v), pages) && m.free[l][0] in pages[l]
  {
    var m' := TableOne(m, l, v);
    var x := m.free[l][0];
    assert LevelOk(m, pages, l) && x in m.free[l];
    HeadTail(m.free[l]);
    assert OnePlace(m, l, x);
    ValuesInsert(m.tables[l], v, x);
    forall h | 0 <= h < |m'.free|
      ensures LevelOk(m', pages, h)
    {
      assert LevelOk(m, pages, h);
      forall y | y in pages[h]
        ensures OnePlace(m', h, y)
      {
        assert OnePlace(m, h, y);
        if y == x { LevelsDiffer(pages, m.pageSizes, l, h, x); }
      }
    }
  }

  // ---------------------------------------------------------------- an allocation half mapped

  /** All is well but for the allocation at `p`, of which exactly `keys` are mapped. */
  ghost predicate Partial(m: Manager, pages: Pages, p: nat, l: nat, keys: set<nat>) {
    && m.trans.Keys == m.primary.Keys && l < |pages|
    && (forall k :: k in m.primary && m.primary[k] != p ==> KeyOk(m, k))
    && (forall k :: k in m.primary && m.primary[k] == p ==> k in keys)
    && (forall k :: k in keys ==> k in m.trans && m.primary[k] == p && m.trans[k] in pages[l])
    && (forall q :: q in m.info && q != p ==> AllocOk(m, pages, q))
  }

  lemma PartialOpen(m: Manager, pages: Pages, p: nat)
    requires MapsOk(m, pages) && p in m.info
    ensures Partial(m, pages, p, m.info[p].level, m.info[p].keys)
  {
    assert AllocOk(m, pages, p);
    forall k | k in m.primary && m.primary[k] == p
      ensures k in m.info[p].keys
    {
      assert KeyOk(m, k);
    }
  }

  lemma PartialStart(m: Manager, pages: Pages, p: nat, l: nat)
    requires MapsOk(m, pages) && p !in m.info && l < |pages|
    ensures Partial(m, pages, p, l, {})
  {
    forall k | k in m.primary
      ensures m.primary[k] != p
    {
      assert KeyOk(m, k);
    }
  }

  lemma PartialUnmap(m: Manager, pages: Pages, p: nat, l: nat, keys: set<nat>, k: nat)
    requires Partial(m, pages, p, l, keys) && k in keys && l < |m.free|
    ensures Partial(UnmapOne(m, l, k), pages, p, l, keys - {k})
  {
    var m' := UnmapOne(m, l, k);
    forall q | q in m'.info && q != p
      ensures AllocOk(m', pages, q)
    {
      assert AllocOk(m, pages, q);
    }
    forall j | j in m'.primary && m'.primary[j] != p
      ensures KeyOk(m', j)
    {
      assert KeyOk(m, j);
    }
  }

  lemma PartialMap(m: Manager, pages: Pages, p: nat, l: nat, keys: set<nat>, k: nat)
    requires Partial(m, pages, p, l, keys) && k !in m.trans && l < |m.free| && m.free[l] != []
    requires m.free[l][0] in pages[l]
    ensures Partial(MapOne(m, l, k, p), pages, p, l, keys + {k})
  {
    var m' := MapOne(m, l, k, p);
    forall q | q in m'.info && q != p
      ensures AllocOk(m', pages, q)
    {
      assert AllocOk(m, pages, q);
    }
    forall j | j in m'.primary && m'.primary[j] != p
      ensures KeyOk(m', j)
    {
      assert KeyOk(m, j);
    }
  }

  /** Dropping the record of a fully unmapped allocation. */
  lemma PartialDrop(m: Manager, pages: Pages, p: nat, l: nat)
    requires Partial(m, pages, p, l, {}) && Apart(m.info)
    ensures MapsOk(m.(info := m.info - {p}), pages)
  {
    var m' := m.(info := m.info - {p});
    forall q | q in m'.info
      ensures AllocOk(m', pages, q)
    {
      assert AllocOk(m, pages, q);
    }
    forall j | j in m'.primary
      ensures KeyOk(m', j)
    {
      assert KeyOk(m, j);
    }
  }

  /** Recording a fully mapped allocation. */
  lemma PartialRecord(m: Manager, pages: Pages, p: nat, a: Info)
    requires Partial(m, pages, p, a.level, a.keys) && p !in m.info && Apart(m.info)
    requires 0 < a.size && a.level < |m.pageSizes|
    requires forall k :: k in a.keys ==> p <= k < p + a.size
    requires forall x :: p <= x < p + a.size ==> Covers(a.keys, m.pageSizes[a.level], x)
    requires forall q :: q in m.info ==> q + m.info[q].size <= p || p + a.size <= q
    ensures MapsOk(m.(info := m.info[p := a]), pages)
  {
    hide Covers, Apart;
    var m' := m.(info := m.info[p := a]);
    NewAlloc(m, pages, p, a);
    forall q | q in m'.info && q != p ensures AllocOk(m', pages, q) { OldAlloc(m, m', pages, q); }
    forall j | j in m'.primary && m.primary[j] != p ensures KeyOk(m', j) { assert KeyOk(m, j); }
    RecordApart(m, pages, p, a);
  }

  lemma NewAlloc(m: Manager, pages: Pages, p: nat, a: Info)
    requires Partial(m, pages, p, a.level, a.keys) && 0 < a.size && a.level < |m.pageSizes|
    requires forall k :: k in a.keys ==> p <= k < p + a.size
    requires forall x :: p <= x < p + a.size ==> Covers(a.keys, m.pageSizes[a.level], x)
    ensures AllocOk(m.(info := m.info[p := a]), pages, p)
  {
    hide Covers;
  }

  /** An allocation looks at its own record and at its own keys only. */
  lemma OldAlloc(m: Manager, m': Manager, pages: Pages, q: nat)
    requires AllocOk(m, pages, q) && q in m'.info && m'.info[q] == m.info[q] && m'.pageSizes == m.pageSizes
    requires m'.trans == m.trans && m'.primary == m.primary
    ensures AllocOk(m', pages, q)
  {
    hide Covers;
  }

  lemma RecordApart(m: Manager, pages: Pages, p: nat, a: Info)
    requires Apart(m.info) && p !in m.info && 0 < a.size
    requires forall q :: q in m.info && q != p ==> AllocOk(m, pages, q)
    requires forall q :: q in m.info ==> q + m.info[q].size <= p || p + a.size <= q
    ensures Apart(m.info[p := a])
  {
    var info := m.info[p := a];
    forall x, y | x in info && y in info && x < y
      ensures x + info[x].size <= y
    {
      assert x != p ==> AllocOk(m, pages, x);
      assert y != p ==> AllocOk(m, pages, y);
    }
  }

  // ---------------------------------------------------------------- the predecessor lookup

  /** `k` is the largest key not above `va`. */
  ghost predicate IsPredecessor(keys: set<nat>, va: nat, k: nat) {
    k in keys && k <= va && forall j :: j in keys && j <= va ==> j <= k
  }

  /** `va` lies in the live allocation at `p`. */
  ghost predicate LiveIn(m: Manager, va: nat, p: nat) { p in m.info && p <= va < p + m.info[p].size }

  /** The translation the predecessor lookup gives. */
  ghost predicate MapsTo(m: Manager, va: nat, pa: nat) {
    exists k ::
      IsPredecessor(m.trans.Keys, va, k) && k in m.primary && LiveIn(m, va, m.primary[k]) && pa == m.trans[k] + (va - k)
  }

  /** The predecessor of a live address belongs to its own allocation and starts its page. */
  lemma PredecessorIsOwn(m: Manager, pages: Pages, va: nat, p: nat, k: nat)
    requires MapsOk(m, pages) && |pages| == |m.pageSizes| && LiveIn(m, va, p) && IsPredecessor(m.trans.Keys, va, k)
    ensures k in m.primary && m.primary[k] == p && m.info[p].level < |pages|
    ensures va < k + m.pageSizes[m.info[p].level] && m.trans[k] in pages[m.info[p].level]
  {
    var a := m.info[p];
    assert AllocOk(m, pages, p);
    assert Covers(a.keys, m.pageSizes[a.level], va);
    var c :| c in a.keys && c <= va < c + m.pageSizes[a.level];
    assert c <= k;
    assert KeyOk(m, k);
    var q := m.primary[k];
    assert AllocOk(m, pages, q);
    assert q <= k < q + m.info[q].size;
    assert q == p;
  }

  /** An address in no live allocation is never taken for one. */
  lemma DeadIsNotFound(m: Manager, va: nat)
    requires forall p :: !LiveIn(m, va, p)
    ensures forall pa :: !MapsTo(m, va, pa)
  {}

  /** A live address has a predecessor. */
  lemma LiveHasKey(m: Manager, pages: Pages, va: nat, p: nat)
    requires MapsOk(m, pages) && LiveIn(m, va, p)
    ensures exists k :: k in m.trans && k <= va
  {
    var a := m.info[p];
    assert AllocOk(m, pages, p);
    assert Covers(a.keys, m.pageSizes[a.level], va);
  }

  /** Different live addresses translate to different physical addresses, each inside a page of
      its allocation's level. */
  lemma TranslationIsInjective(m: Manager, pages: Pages, x: nat, px: nat, y: nat, py: nat)
    requires Inv(m, pages) && MapsTo(m, x, px) && MapsTo(m, y, py) && x != y
    ensures px != py
  {
    hide MapsOk, LevelOk, MapsTo, Injective;
    var k, l := OwnPage(m, pages, x, px);
    var j, h := OwnPage(m, pages, y, py);
    if k != j { DifferentPages(m.trans, k, j); }
  }

  lemma DifferentPages(trans: map<nat, nat>, k: nat, j: nat)
    requires Injective(trans) && k in trans && j in trans && k != j
    ensures trans[k] != trans[j]
  {}

  /** The key and the level of the page a live address translates into. */
  lemma OwnPage(m: Manager, pages: Pages, x: nat, px: nat) returns (k: nat, l: nat)
    requires MapsOk(m, pages) && |pages| == |m.pageSizes| && MapsTo(m, x, px)
    ensures k in m.trans && l < |pages| && m.trans[k] in pages[l] && k <= x < k + m.pageSizes[l]
    ensures px == m.trans[k] + (x - k)
    ensures k in m.primary && LiveIn(m, x, m.primary[k]) && l == m.info[m.primary[k]].level
  {
    hide MapsOk;
    k :| IsPredecessor(m.trans.Keys, x, k) && k in m.primary && LiveIn(m, x, m.primary[k]) &&
      px == m.trans[k] + (x - k);
    PredecessorIsOwn(m, pages, x, m.primary[k], k);
    l := m.info[m.primary[k]].level;
  }

  /** A live address translates into one of its own allocation's pages. */
  lemma TranslationStaysInside(m: Manager, pages: Pages, va: nat, pa: nat, p: nat)
    requires Inv(m, pages) && MapsTo(m, va, pa) && LiveIn(m, va, p)
    ensures m.info[p].level < |m.pageSizes|
    ensures exists k ::
      k in m.info[p].keys && k in m.trans && m.trans[k] <= pa < m.trans[k] + m.pageSizes[m.info[p].level]
  {
    var k :| IsPredecessor(m.trans.Keys, va, k) && k in m.primary && LiveIn(m, va, m.primary[k]) &&
      pa == m.trans[k] + (va - k);
    PredecessorIsOwn(m, pages, va, p, k);
    assert KeyOk(m, k);
  }

  // ---------------------------------------------------------------- the keys of an allocation

  /** Keys of `n` consecutive pages from `start`. */
  ghost function Keys(start: nat, pageSize: nat, n: nat): set<nat> {
    if n == 0 then {} else Keys(start, pageSize, n - 1) + {KeyAt(start, pageSize, n - 1)}
  }

  function KeyAt(start: nat, pageSize: nat, i: nat): nat { start + i * pageSize }

  lemma KeyAtNext(start: nat, pageSize: nat, i: nat)
    ensures KeyAt(start, pageSize, 0) == start && KeyAt(start, pageSize, i + 1) == KeyAt(start, pageSize, i) + pageSize
  {
    assert (i + 1) * pageSize == i * pageSize + pageSize;
  }

  lemma {:induction false} KeysRange(start: nat, pageSize: nat, n: nat, k: nat)
    requires 0 < pageSize && k in Keys(start, pageSize, n)
    ensures start <= k && 0 < n && k <= start + (n - 1) * pageSize
  {
    if k != start + (n - 1) * pageSize {
      KeysRange(start, pageSize, n - 1, k);
      assert (n - 1) * pageSize == (n - 2) * pageSize + pageSize;
    }
  }

  lemma {:induction false} KeysCover(start: nat, pageSize: nat, n: nat, x: nat)
    requires 0 < pageSize && start <= x < start + n * pageSize
    ensures Covers(Keys(start, pageSize, n), pageSize, x)
  {
    assert n * pageSize == (n - 1) * pageSize + pageSize;
    if x < start + (n - 1) * pageSize {
      KeysCover(start, pageSize, n - 1, x);
      var k :| k in Keys(start, pageSize, n - 1) && k <= x < k + pageSize;
      assert k in Keys(start, pageSize, n);
    } else {
      assert start + (n - 1) * pageSize in Keys(start, pageSize, n);
    }
  }

  function PageCount(size: nat, pageSize: nat): nat
    requires 0 < pageSize
  {
    size / pageSize + (if size % pageSize == 0 then 0 else 1)
  }

  /** Whole pages that hold `size` bytes, and not one more. */
  lemma PageCountFits(size: nat, pageSize: nat)
    requires 0 < pageSize && 0 < size
    ensures var n := PageCount(size, pageSize); 0 < n && (n - 1) * pageSize < size <= n * pageSize
  {
    var q, r := size / pageSize, size % pageSize;
    assert size == q * pageSize + r;
    assert (q + 1) * pageSize == q * pageSize + pageSize;
    if r == 0 { assert q * pageSize == (q - 1) * pageSize + pageSize; }
  }
}
