/** When the malloc manager's translation cache can be trusted: translations keep it current if page
    sizes divide each other upwards, and a free does if and only if it frees nothing cached. */
module MallocCache {
  import opened Options
  import opened Sequences
  import opened MallocModel
  import opened MallocSteps
  import opened Translations

  /** Every cached answer is the current one. */
  ghost predicate Agrees(m: Manager, cache: map<nat, nat>) {
    Shaped(m) && forall va :: va in cache ==> Translation(m, va) == Some(cache[va])
  }

  /** What an answer is looked up by. */
  lemma AnswerFrom(m: Manager, va: nat)
    requires Shaped(m)
    ensures (exists pa :: MapsTo(m, va, pa)) || Translation(m, va) == InTables(m, va)
  {}

  /** Translating another address keeps an answer. */
  lemma TouchKeepsAnswer(m: Manager, default: nat, touched: nat, va: nat)
    requires Shaped(m) && AllDivide(m.pageSizes) && Translation(m, va).Some?
    ensures Translation(Touched(m, default, touched), va) == Translation(m, va)
  {
    hide Translation, InTables, AllDivide, Touched;
    var m' := Touched(m, default, touched);
    SameMaps(m, m', va);
    if exists pa :: MapsTo(m, va, pa) {
      var pa :| MapsTo(m, va, pa);
      MapsToOnce(m, va, pa);
      MapsToOnce(m', va, pa);
    } else {
      AnswerFrom(m, va);
      AnswerFrom(m', va);
      TouchTables(m, default, touched, va);
    }
  }

  lemma SameMaps(m: Manager, m': Manager, va: nat)
    requires m'.trans == m.trans && m'.primary == m.primary && m'.info == m.info
    ensures forall pa :: MapsTo(m', va, pa) <==> MapsTo(m, va, pa)
  {}

  lemma TouchAgrees(m: Manager, default: nat, touched: nat, cache: map<nat, nat>)
    requires AllDivide(m.pageSizes) && Agrees(m, cache)
    ensures Agrees(Touched(m, default, touched), cache)
  {
    hide Translation, AllDivide, Touched;
    forall va | va in cache
      ensures Translation(Touched(m, default, touched), va) == Some(cache[va])
    {
      TouchKeepsAnswer(m, default, touched, va);
    }
  }

  // ---------------------------------------------------------------- freeing

  lemma FreedParts(m: Manager, va: nat, order: seq<nat>, m': Manager)
    requires Frees(m, va, order, m')
    ensures m'.tables == m.tables && m'.pageSizes == m.pageSizes && |m'.free| == |m.free| && m'.info == m.info - {va}
    ensures forall k :: k in m'.trans <==> k in m.trans && k !in m.info[va].keys
  {
    assert forall k :: k in order <==> k in m.info[va].keys by {
      assert forall k :: k in order <==> k in Members(order);
    }
  }

  lemma {:induction false} UnmappedValues(m: Manager, l: nat, order: seq<nat>)
    requires Unmappable(m, l, order)
    ensures var m' := Unmapped(m, l, order);
      && (forall k :: k in m'.trans ==> k in m.trans && m'.trans[k] == m.trans[k])
      && (forall k :: k in m.primary && k !in order ==> k in m'.primary && m'.primary[k] == m.primary[k])
    decreases |order|
  {
    if order != [] { UnmappedValues(m, l, order[..|order| - 1]); }
  }

  /** An address outside the freed allocation is answered as before. */
  lemma OutsideFreed(m: Manager, pages: Pages, va: nat, order: seq<nat>, m': Manager, x: nat)
    requires Inv(m, pages) && Frees(m, va, order, m') && Shaped(m) && Shaped(m') && !LiveIn(m, x, va)
    requires Translation(m, x).Some?
    ensures Translation(m', x) == Translation(m, x)
  {
    hide Translation, InTables, Inv, Frees, Unmapped, Unmappable, KeyOk, AllocOk;
    FreedParts(m, va, order, m');
    if exists pa :: MapsTo(m, x, pa) {
      var pa :| MapsTo(m, x, pa);
      MapsToOnce(m, x, pa);
      OtherStays(m, pages, va, order, m', x, pa);
      MapsToOnce(m', x, pa);
    } else {
      AnswerFrom(m, x);
      DeadHasNoMap(m, pages, x);
      OnlyThatOne(m, m', x, va);
      NotAllocated(m', x);
      SameTables(m, m', x);
    }
  }

  lemma OnlyThatOne(m: Manager, m': Manager, x: nat, va: nat)
    requires m'.info == m.info - {va} && forall q :: LiveIn(m, x, q) ==> q == va
    ensures NotLive(m', x)
  {
    forall p ensures !LiveIn(m', x, p) { assert LiveIn(m', x, p) ==> LiveIn(m, x, p); }
  }

  lemma DeadHasNoMap(m: Manager, pages: Pages, x: nat)
    requires Inv(m, pages) && forall pa :: !MapsTo(m, x, pa)
    ensures NotLive(m, x)
  {
    hide Inv, LiveIn, MapsTo;
    if p :| LiveIn(m, x, p) { var pa := LiveMapped(m, pages, x, p); }
  }

  /** A live address has a largest key not above it. */
  lemma LastKey(m: Manager, pages: Pages, x: nat, p: nat) returns (k: nat)
    requires MapsOk(m, pages) && LiveIn(m, x, p)
    ensures IsPredecessor(m.trans.Keys, x, k)
  {
    LiveHasKey(m, pages, x, p);
    hide MapsOk;
    var some :| some in m.trans && some <= x;
    k := Largest(m.trans.Keys, x, some);
  }

  lemma {:induction false} Largest(keys: set<nat>, x: nat, from: nat) returns (k: nat)
    requires from in keys && from <= x
    ensures IsPredecessor(keys, x, k)
    decreases x - from
  {
    if exists j :: j in keys && from < j <= x {
      var j :| j in keys && from < j <= x;
      k := Largest(keys, x, j);
    } else {
      k := from;
    }
  }

  lemma OtherStays(m: Manager, pages: Pages, va: nat, order: seq<nat>, m': Manager, x: nat, pa: nat)
    requires Inv(m, pages) && Frees(m, va, order, m') && MapsTo(m, x, pa) && !LiveIn(m, x, va)
    ensures MapsTo(m', x, pa)
  {
    hide Conserved, PagesApart, MapsOk, Unmapped;
    UnmappedValues(m, m.info[va].level, order);
    FreedParts(m, va, order, m');
    var k :| IsPredecessor(m.trans.Keys, x, k) && k in m.primary && LiveIn(m, x, m.primary[k]) &&
      pa == m.trans[k] + (x - k);
    OtherKey(m, pages, va, k);
    PredecessorStays(m.trans.Keys, m'.trans.Keys, x, k);
    assert k !in order by { assert k in order <==> k in Members(order); }
  }

  lemma PredecessorStays(keys: set<nat>, keys': set<nat>, x: nat, k: nat)
    requires IsPredecessor(keys, x, k) && keys' <= keys && (k in keys ==> k in keys')
    ensures IsPredecessor(keys', x, k)
  {}

  lemma OtherKey(m: Manager, pages: Pages, va: nat, k: nat)
    requires MapsOk(m, pages) && va in m.info && k in m.primary && m.primary[k] != va
    ensures k !in m.info[va].keys
  {
    assert AllocOk(m, pages, va);
  }

  /** An address in the freed allocation is not answered as before. */
  lemma InsideFreed(m: Manager, pages: Pages, va: nat, order: seq<nat>, m': Manager, x: nat)
    requires Inv(m, pages) && Frees(m, va, order, m') && Shaped(m) && Shaped(m') && LiveIn(m, x, va)
    ensures Translation(m', x) != Translation(m, x)
  {
    hide Translation, Inv, Frees, Unmapped, Unmappable, KeyOk, AllocOk;
    FreedParts(m, va, order, m');
    var pa := LiveMapped(m, pages, x, va);
    MapsToOnce(m, x, pa);
    OnlyHolder(m, pages, x, va);
    OnlyThatOne(m, m', x, va);
    NotAllocated(m', x);
    if FirstHit(m', x, 0).Some? {
      var l := FirstHit(m', x, 0).value;
      var py := InTables(m', x).value;
      assert TableAnswer(m, x, l, py);
      TablesMissAllocations(m, pages, x, pa, x, l, py);
    }
  }

  lemma LiveMapped(m: Manager, pages: Pages, x: nat, p: nat) returns (pa: nat)
    requires Inv(m, pages) && LiveIn(m, x, p)
    ensures MapsTo(m, x, pa)
  {
    hide Conserved, MapsOk, PagesApart;
    LevelSizes(m, pages);
    var k := LastKey(m, pages, x, p);
    PredecessorIsOwn(m, pages, x, p, k);
    pa := m.trans[k] + (x - k);
  }

  lemma OnlyHolder(m: Manager, pages: Pages, x: nat, p: nat)
    requires Inv(m, pages) && LiveIn(m, x, p)
    ensures forall q :: LiveIn(m, x, q) ==> q == p
  {
    hide Conserved, PagesApart, KeyOk, AllocOk;
  }

  /** freeMalloc leaves the cache alone, so the cache stays current if and only if it holds no
      address of the freed allocation. */
  lemma FreeAgreesExactly(m: Manager, pages: Pages, va: nat, m': Manager, cache: map<nat, nat>)
    requires Inv(m, pages) && FreedTo(m, va, m') && Agrees(m, cache)
    ensures Agrees(m', cache) <==> forall x :: x in cache ==> !LiveIn(m, x, va)
  {
    hide Inv, Frees, Translation;
    if va in m.info {
      var order :| Frees(m, va, order, m');
      FreedParts(m, va, order, m');
      forall x | x in cache
        ensures Translation(m', x) == Some(cache[x]) <==> !LiveIn(m, x, va)
      {
        if LiveIn(m, x, va) {
          InsideFreed(m, pages, va, order, m', x);
        } else {
          OutsideFreed(m, pages, va, order, m', x);
        }
      }
    }
  }

  // ---------------------------------------------------------------- allocating

  lemma {:induction false} MappedValues(m: Manager, l: nat, p: nat, n: nat)
    requires l < |m.free| && l < |m.pageSizes| && n <= |m.free[l]|
    ensures var m' := Mapped(m, l, p, n);
      && (forall k :: k in m.trans ==> k in m'.trans && m'.trans[k] == m.trans[k])
      && (forall k :: k in m.primary ==> k in m'.primary && m'.primary[k] == m.primary[k])
      && (forall k :: k in m'.trans ==> k in m.trans || k in Keys(p, m.pageSizes[l], n))
    decreases n
  {
    hide KeyAt;
    if 0 < n { MappedValues(m, l, p, n - 1); }
  }

  lemma NewKeysInside(size: nat, pageSize: nat, va: nat, k: nat)
    requires 0 < size && 0 < pageSize && k in Keys(va, pageSize, PageCount(size, pageSize))
    ensures va <= k < va + size
  {
    hide PageCount, Keys;
    PageCountFits(size, pageSize);
    KeysRange(va, pageSize, PageCount(size, pageSize), k);
  }

  /** A live address outside the new allocation is still found by its own key. */
  lemma LiveOutside(m: Manager, pages: Pages, size: nat, level: nat, va: nat, x: nat, pa: nat)
    requires Inv(m, pages) && HasPages(m, size, level) && 0 < size && NotLive(m, va) && MapsTo(m, x, pa)
    requires (forall p :: p in m.info && va < p ==> va + size <= p) && (x < va || va + size <= x)
    ensures MapsTo(Allocated(m, size, level, va), x, pa)
  {
    hide Conserved, PagesApart, MapsOk, PageCount, Keys, Mapped;
    var m' := Allocated(m, size, level, va);
    MappedValues(m, level, va, PageCount(size, m.pageSizes[level]));
    var k :| IsPredecessor(m.trans.Keys, x, k) && k in m.primary && LiveIn(m, x, m.primary[k]) &&
      pa == m.trans[k] + (x - k);
    var p := m.primary[k];
    AllocCovers(m, pages, p, k);
    assert !LiveIn(m, va, p);
    forall j | j in m'.trans && j <= x
      ensures j <= k
    {
      if j !in m.trans { NewKeysInside(size, m.pageSizes[level], va, j); }
    }
    assert LiveIn(m', x, p);
  }

  lemma AllocOutside(m: Manager, pages: Pages, size: nat, level: nat, va: nat, x: nat)
    requires Inv(m, pages) && Shaped(m) && HasPages(m, size, level) && 0 < size && NotLive(m, va)
    requires Translation(m, x).Some?
    requires (forall p :: p in m.info && va < p ==> va + size <= p) && (x < va || va + size <= x)
    ensures Translation(Allocated(m, size, level, va), x) == Translation(m, x)
  {
    hide Inv, Translation, InTables, HasPages, Allocated, LiveIn, MapsTo;
    var m' := Allocated(m, size, level, va);
    if exists pa :: MapsTo(m, x, pa) {
      var pa :| MapsTo(m, x, pa);
      LiveOutside(m, pages, size, level, va, x, pa);
      MapsToOnce(m, x, pa);
      MapsToOnce(m', x, pa);
    } else {
      AnswerFrom(m, x);
      DeadHasNoMap(m, pages, x);
      DeadOutside(m, pages, size, level, va, x);
      NotAllocated(m', x);
      SameTables(m, m', x);
    }
  }

  lemma DeadOutside(m: Manager, pages: Pages, size: nat, level: nat, va: nat, x: nat)
    requires Inv(m, pages) && HasPages(m, size, level) && NotLive(m, va) && NotLive(m, x) && (x < va || va + size <= x)
    ensures NotLive(Allocated(m, size, level, va), x)
  {
    NotHeld(m, pages, va);
    hide Inv, PageCount, Keys;
    AllocatedRecord(m, size, level, va);
    hide Allocated;
    var m' := Allocated(m, size, level, va);
    forall p ensures !LiveIn(m', x, p) { assert p != va ==> (LiveIn(m', x, p) <==> LiveIn(m, x, p)); }
  }

  /** allocateMalloc leaves the cache alone too: the cache stays current if it holds no address of
      the new allocation. (A page mapped anew at its old place may be current all the same.) */
  lemma AllocAgrees(m: Manager, pages: Pages, size: nat, level: nat, va: nat, cache: map<nat, nat>)
    requires Inv(m, pages) && HasPages(m, size, level) && 0 < size && NotLive(m, va) && Agrees(m, cache)
    requires (forall p :: p in m.info && va < p ==> va + size <= p)
    requires forall x :: x in cache ==> x < va || va + size <= x
    ensures Agrees(Allocated(m, size, level, va), cache)
  {
    hide Inv, Translation, HasPages, Allocated, LiveIn;
    forall x | x in cache
      ensures Translation(Allocated(m, size, level, va), x) == Some(cache[x])
    {
      AllocOutside(m, pages, size, level, va, x);
    }
  }
}
