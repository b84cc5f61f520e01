/** What Ariel's malloc memory manager answers: the translation of an address as a function of the
    manager's state, what an unknown address changes, and exactly when answers stay. */
module Translations {
  import opened Options
  import opened Arithmetic
  import opened MallocModel
  import opened PagePools

  // ---------------------------------------------------------------- the translation

  ghost predicate Shaped(m: Manager) {
    |m.free| == |m.tables| == |m.pageSizes| && forall l :: 0 <= l < |m.pageSizes| ==> 0 < m.pageSizes[l]
  }

  /** The page table of level `l` knows the page of `va`. */
  ghost predicate Hits(m: Manager, va: nat, l: nat)
    requires l < |m.tables| && l < |m.pageSizes| && 0 < m.pageSizes[l]
  {
    StartOf(va, m.pageSizes[l]) in m.tables[l]
  }

  /** The lowest level from `l` on that knows the page of `va`. */
  ghost function FirstHit(m: Manager, va: nat, l: nat): (r: Option<nat>)
    requires Shaped(m) && l <= |m.tables|
    ensures r.Some? ==> l <= r.value < |m.tables| && Hits(m, va, r.value)
    ensures r.Some? ==> forall h :: l <= h < r.value ==> !Hits(m, va, h)
    ensures r.None? ==> forall h :: l <= h < |m.tables| ==> !Hits(m, va, h)
    decreases |m.tables| - l
  {
    if l == |m.tables| then None else if Hits(m, va, l) then Some(l) else FirstHit(m, va, l + 1)
  }

  /** A live allocation translates its addresses; others go to the lowest level that knows them. */
  ghost function Translation(m: Manager, va: nat): (r: Option<nat>)
    requires Shaped(m)
    ensures r.None? ==> forall l :: 0 <= l < |m.tables| ==> !Hits(m, va, l)
  {
    if exists pa: nat :: MapsTo(m, va, pa) then
      var pa: nat :| MapsTo(m, va, pa);
      Some(pa)
    else InTables(m, va)
  }

  ghost function InTables(m: Manager, va: nat): (r: Option<nat>)
    requires Shaped(m)
    ensures r.None? ==> forall l :: 0 <= l < |m.tables| ==> !Hits(m, va, l)
  {
    match FirstHit(m, va, 0)
    case Some(l) => Some(m.tables[l][StartOf(va, m.pageSizes[l])] + (va - StartOf(va, m.pageSizes[l])))
    case None => None
  }

  /** Without allocations only the tables count. */
  lemma NoAllocations(m: Manager, va: nat)
    requires Shaped(m) && m.trans == map[]
    ensures Translation(m, va) == InTables(m, va)
  {}

  /** Outside all live allocations only the tables count. */
  lemma NotAllocated(m: Manager, va: nat)
    requires Shaped(m) && forall p :: !LiveIn(m, va, p)
    ensures Translation(m, va) == InTables(m, va)
  {
    DeadIsNotFound(m, va);
  }

  /** The lowest level that hits is the first. */
  lemma LowestHit(m: Manager, va: nat, l: nat)
    requires Shaped(m) && l < |m.tables| && Hits(m, va, l) && forall h :: 0 <= h < l ==> !Hits(m, va, h)
    ensures FirstHit(m, va, 0) == Some(l)
    ensures InTables(m, va) == Some(m.tables[l][StartOf(va, m.pageSizes[l])] + (va - StartOf(va, m.pageSizes[l])))
  {}

  /** The level a fresh page comes from: the default one if it has a page, else the first that has. */
  ghost function Room(m: Manager, default: nat): (r: Option<nat>)
    ensures r.Some? ==> r.value < |m.free| && m.free[r.value] != []
    ensures r.Some? && r.value != default ==>
      (default < |m.free| ==> m.free[default] == []) && forall h :: 0 <= h < r.value ==> m.free[h] == []
    ensures r.None? ==> forall h :: 0 <= h < |m.free| ==> m.free[h] == []
  {
    if default < |m.free| && m.free[default] != [] then Some(default) else FirstRoom(m.free, 0)
  }

  ghost function FirstRoom(free: seq<seq<nat>>, l: nat): (r: Option<nat>)
    requires l <= |free|
    ensures r.Some? ==> l <= r.value < |free| && free[r.value] != [] && forall h :: l <= h < r.value ==> free[h] == []
    ensures r.None? ==> forall h :: l <= h < |free| ==> free[h] == []
    decreases |free| - l
  {
    if l == |free| then None else if free[l] != [] then Some(l) else FirstRoom(free, l + 1)
  }

  /** The manager after translating `va`: an unknown address gets a page if there is one. */
  ghost function Touched(m: Manager, default: nat, va: nat): (m': Manager)
    requires Shaped(m)
    ensures Shaped(m') && m'.pageSizes == m.pageSizes
    ensures m'.trans == m.trans && m'.primary == m.primary && m'.info == m.info
  {
    if Translation(m, va).Some? then m
    else
      match Room(m, default)
      case Some(l) =>
        assert !Hits(m, va, l);
        TableOne(m, l, StartOf(va, m.pageSizes[l]))
      case None => m
  }

  ghost function TouchedAll(m: Manager, default: nat, vas: seq<nat>): (m': Manager)
    requires Shaped(m)
    ensures Shaped(m') && m'.pageSizes == m.pageSizes
    decreases |vas|
  {
    if vas == [] then m else TouchedAll(Touched(m, default, vas[0]), default, vas[1..])
  }

  /** A translated address is answered, unless no level has a page left. */
  lemma TouchedAnswers(m: Manager, default: nat, va: nat)
    requires Shaped(m)
    ensures Translation(Touched(m, default, va), va).None? <==>
            Translation(m, va).None? && forall l :: 0 <= l < |m.free| ==> m.free[l] == []
  {
    var m' := Touched(m, default, va);
    if Translation(m, va).None? && Room(m, default).Some? {
      assert Hits(m', va, Room(m, default).value);
      assert forall pa :: MapsTo(m, va, pa) == MapsTo(m', va, pa);
    }
  }

  // ---------------------------------------------------------------- different addresses

  /** The predecessor lookup has one outcome. */
  lemma MapsToOnce(m: Manager, va: nat, pa: nat)
    requires Shaped(m) && MapsTo(m, va, pa)
    ensures Translation(m, va) == Some(pa)
  {
    var other := Translation(m, va).value;
    assert MapsTo(m, va, other);
    var k :| IsPredecessor(m.trans.Keys, va, k) && k in m.primary && LiveIn(m, va, m.primary[k]) &&
      pa == m.trans[k] + (va - k);
    var j :| IsPredecessor(m.trans.Keys, va, j) && j in m.primary && LiveIn(m, va, m.primary[j]) &&
      other == m.trans[j] + (va - j);
    assert k == j;
  }

  /** Where a translation comes from. */
  ghost predicate TableAnswer(m: Manager, va: nat, l: nat, pa: nat)
    requires Shaped(m)
  {
    && l < |m.tables| && Hits(m, va, l)
    && pa == m.tables[l][StartOf(va, m.pageSizes[l])] + (va - StartOf(va, m.pageSizes[l]))
  }

  lemma TranslationFrom(m: Manager, va: nat, pa: nat)
    requires Shaped(m) && Translation(m, va) == Some(pa)
    ensures MapsTo(m, va, pa) || exists l :: TableAnswer(m, va, l, pa)
  {
    if !MapsTo(m, va, pa) {
      assert !exists x :: MapsTo(m, va, x);
      assert TableAnswer(m, va, FirstHit(m, va, 0).value, pa);
    }
  }

  lemma TablesAreInjective(m: Manager, pages: Pages, x: nat, l: nat, px: nat, y: nat, h: nat, py: nat)
    requires Inv(m, pages) && Shaped(m) && TableAnswer(m, x, l, px) && TableAnswer(m, y, h, py) && x != y
    ensures px != py
  {
    hide MapsOk, OnePlace;
    var u, v := StartOf(x, m.pageSizes[l]), StartOf(y, m.pageSizes[h]);
    hide StartOf;
    assert LevelOk(m, pages, l) && LevelOk(m, pages, h);
    var a, b := m.tables[l][u], m.tables[h][v];
    assert a in m.tables[l].Values && b in m.tables[h].Values;
    assert a in pages[l] && b in pages[h];
    if l == h {
      if u != v { assert a != b; }
    }
  }

  lemma TablesMissAllocations(m: Manager, pages: Pages, x: nat, px: nat, y: nat, h: nat, py: nat)
    requires Inv(m, pages) && Shaped(m) && MapsTo(m, x, px) && TableAnswer(m, y, h, py)
    ensures px != py
  {
    hide StartOf, MapsOk, MapsTo, LevelOk;
    var k, l := OwnPage(m, pages, x, px);
    TablePage(m, pages, h, StartOf(y, m.pageSizes[h]), m.trans[k]);
  }

  /** A mapped page of a table is a page of its level and none of an allocation's. */
  lemma TablePage(m: Manager, pages: Pages, h: nat, v: nat, other: nat)
    requires |m.free| == |m.tables| == |pages| && h < |m.tables| && LevelOk(m, pages, h) && v in m.tables[h]
    requires other in m.trans.Values
    ensures m.tables[h][v] in pages[h] && m.tables[h][v] != other
  {
    assert m.tables[h][v] in m.tables[h].Values;
    assert OnePlace(m, h, m.tables[h][v]);
  }

  /** All addresses that translate, whichever map answers, translate apart. */
  lemma AllTranslationsApart(m: Manager, pages: Pages, x: nat, y: nat)
    requires Inv(m, pages) && Shaped(m) && x != y && Translation(m, x).Some? && Translation(m, y).Some?
    ensures Translation(m, x) != Translation(m, y)
  {
    hide Inv, Translation, MapsTo, TableAnswer;
    var px, py := Translation(m, x).value, Translation(m, y).value;
    TranslationFrom(m, x, px);
    TranslationFrom(m, y, py);
    if MapsTo(m, x, px) && MapsTo(m, y, py) {
      TranslationIsInjective(m, pages, x, px, y, py);
    } else if MapsTo(m, x, px) {
      var h :| TableAnswer(m, y, h, py);
      TablesMissAllocations(m, pages, x, px, y, h, py);
    } else {
      var l :| TableAnswer(m, x, l, px);
      if MapsTo(m, y, py) {
        TablesMissAllocations(m, pages, y, py, x, l, px);
      } else {
        var h :| TableAnswer(m, y, h, py);
        TablesAreInjective(m, pages, x, l, px, y, h, py);
      }
    }
  }

  /** The answer in a live allocation does not depend on the page tables. */
  lemma LiveStays(m: Manager, default: nat, vas: seq<nat>, va: nat, pa: nat)
    requires Shaped(m) && MapsTo(m, va, pa)
    ensures Translation(m, va) == Some(pa) && Translation(TouchedAll(m, default, vas), va) == Some(pa)
    decreases |vas|
  {
    if vas == [] {
      MapsToOnce(m, va, pa);
    } else {
      var m' := Touched(m, default, vas[0]);
      MapsToOnce(m, va, pa);
      assert MapsTo(m', va, pa);
      LiveStays(m', default, vas[1..], va, pa);
    }
  }

  // ---------------------------------------------------------------- the start

  /** Physical memory in front of level `l`. */
  function Base(sizes: seq<nat>, counts: seq<nat>, l: nat): nat
    requires |sizes| == |counts| && l <= |sizes|
  {
    if l == 0 then 0 else PageAt(Base(sizes, counts, l - 1), sizes[l - 1], counts[l - 1])
  }

  /** The pool of level `l`: its pages in some order. */
  ghost predicate PoolAt(sizes: seq<nat>, counts: seq<nat>, l: nat, pool: seq<nat>)
    requires |sizes| == |counts| && l < |sizes|
  {
    multiset(pool) == multiset(LinearPool(Base(sizes, counts, l), sizes[l], counts[l]))
  }

  /** A manager with all its pages free and nothing mapped. */
  ghost predicate IsStart(m: Manager, sizes: seq<nat>, counts: seq<nat>) {
    && |sizes| == |counts| == |m.free| == |m.tables| && m.pageSizes == sizes
    && (forall l :: 0 <= l < |sizes| ==> PoolAt(sizes, counts, l, m.free[l]) && m.tables[l] == map[])
    && m.trans == map[] && m.primary == map[] && m.info == map[]
  }

  // ---------------------------------------------------------------- answers that stay

  ghost predicate SizesOk(sizes: seq<nat>) { forall l :: 0 <= l < |sizes| ==> 8 <= sizes[l] }

  /** Whatever the pools, once an address has been answered, later translations do not change
      its answer. */
  ghost predicate AnswersStay(sizes: seq<nat>, default: nat)
    requires SizesOk(sizes)
  {
    forall m, counts, vas, more, va :: IsStart(m, sizes, counts) ==> AnswerStays(m, default, vas, more, va)
  }

  ghost predicate AnswerStays(m: Manager, default: nat, vas: seq<nat>, more: seq<nat>, va: nat) {
    Shaped(m) &&
    var before := TouchedAll(m, default, vas);
    Translation(before, va).Some? ==> Translation(TouchedAll(before, default, more), va) == Translation(before, va)
  }

  /** Pages of the levels searched before `default` fit into its pages. */
  ghost predicate FitBelow(sizes: seq<nat>, default: nat) {
    forall h :: 0 <= h < |sizes| && h < default < |sizes| ==> Divides(sizes[h], sizes[default])
  }

  /** Addresses on one small page lie on one large page. */
  lemma SamePage(a: nat, b: nat, x: nat, y: nat)
    requires 0 < b && Divides(a, b) && StartOf(x, a) == StartOf(y, a)
    ensures StartOf(x, b) == StartOf(y, b)
  {
    var q := SameQuotient(a, x, y);
    var k := b / a;
    assert b == a * k;
    var t, u := q / k, q % k;
    assert q == k * t + u;
    PageNumber(a, k, q, x, t, u);
    PageNumber(a, k, q, y, t, u);
  }

  lemma SameQuotient(a: nat, x: nat, y: nat) returns (q: nat)
    requires 0 < a && StartOf(x, a) == StartOf(y, a)
    ensures x == a * q + x % a && y == a * q + y % a
  {
    q := x / a;
    var p := y / a;
    assert x == a * q + x % a && y == a * p + y % a;
    assert a * (q - p) == a * q - a * p;
    SmallMultiple(a, q - p);
  }

  lemma PageNumber(a: nat, k: nat, q: nat, x: nat, t: nat, u: nat)
    requires 0 < a && 0 < k && x == a * q + x % a && q == k * t + u && u < k
    ensures 0 < a * k && StartOf(x, a * k) == (a * k) * t
  {
    MulAtLeast(a, k);
    RestBelow(a, k, u, x % a);
    SplitProduct(a, k, t, u);
    DivMod(a * k, t, a * u + x % a, x);
  }

  /** Levels other than the default one are used in order: a page table that is not empty finds
      every earlier pool, and the default one, used up. */
  ghost predicate Filled(m: Manager, default: nat)
    requires Shaped(m)
  {
    forall l :: 0 <= l < |m.tables| && l != default && m.tables[l] != map[] ==> UsedUp(m, default, l)
  }

  ghost predicate UsedUp(m: Manager, default: nat, l: nat) {
    (default < |m.free| ==> m.free[default] == []) && forall h :: 0 <= h < l && h < |m.free| ==> m.free[h] == []
  }

  lemma FilledStays(m: Manager, default: nat, va: nat)
    requires Shaped(m) && Filled(m, default)
    ensures Filled(Touched(m, default, va), default)
  {
    var m' := Touched(m, default, va);
    hide Translation, StartOf;
    forall l | 0 <= l < |m'.tables| && l != default && m'.tables[l] != map[]
      ensures UsedUp(m', default, l)
    {
      if m.tables[l] != map[] { assert UsedUp(m, default, l); }
    }
  }

  /** A fresh page comes from a level with a page, for an address no table knows. */
  ghost predicate Fresh(m: Manager, default: nat, touched: nat, h: nat)
    requires Shaped(m)
  {
    h < |m.free| && m.free[h] != [] && forall l :: 0 <= l < |m.tables| ==> !Hits(m, touched, l)
  }

  lemma TouchedIs(m: Manager, default: nat, touched: nat) returns (h: nat)
    requires Shaped(m) && Touched(m, default, touched) != m
    ensures Fresh(m, default, touched, h) && !Hits(m, touched, h)
    ensures Touched(m, default, touched) == TableOne(m, h, StartOf(touched, m.pageSizes[h]))
  {
    h := Room(m, default).value;
    hide StartOf, Translation;
    assert !Hits(m, touched, h);
  }

  /** No address known at level `l` is shadowed by a fresh page. */
  lemma NotShadowed(m: Manager, default: nat, touched: nat, va: nat, l: nat, h: nat)
    requires Shaped(m) && Filled(m, default) && FitBelow(m.pageSizes, default)
    requires l < |m.tables| && Hits(m, va, l) && Fresh(m, default, touched, h) && h < l
    ensures StartOf(va, m.pageSizes[h]) != StartOf(touched, m.pageSizes[h])
  {
    LowerRoom(m, default, l, h);
    assert !Hits(m, touched, l);
    hide StartOf;
    if StartOf(va, m.pageSizes[h]) == StartOf(touched, m.pageSizes[h]) {
      SamePage(m.pageSizes[h], m.pageSizes[l], va, touched);
    }
  }

  /** A fresh page changes no answer. */
  lemma OneTouch(m: Manager, default: nat, touched: nat, va: nat)
    requires Shaped(m) && Filled(m, default) && FitBelow(m.pageSizes, default) && m.trans == map[]
    requires Translation(m, va).Some?
    ensures Translation(Touched(m, default, touched), va) == Translation(m, va)
  {
    var m' := Touched(m, default, touched);
    NoAllocations(m, va);
    NoAllocations(m', va);
    hide Translation, StartOf, Filled, FitBelow, Touched;
    var l := FirstHit(m, va, 0).value;
    if m' != m {
      var h := TouchedIs(m, default, touched);
      if h < l { NotShadowed(m, default, touched, va, l, h); }
      forall g | 0 <= g < l ensures !Hits(m', va, g) { assert !Hits(m, va, g); }
      LowestHit(m', va, l);
    }
  }

  ghost predicate NotLive(m: Manager, va: nat) { forall p :: !LiveIn(m, va, p) }

  ghost predicate AllDivide(sizes: seq<nat>) { forall h, l :: 0 <= h < l < |sizes| ==> Divides(sizes[h], sizes[l]) }

  /** What the tables answer stays. */
  ghost predicate TablesStay(m: Manager, m': Manager, va: nat) {
    Shaped(m) && Shaped(m') && (InTables(m, va).Some? ==> InTables(m', va) == InTables(m, va))
  }

  lemma SameTables(m: Manager, m': Manager, va: nat)
    requires Shaped(m) && m'.tables == m.tables && m'.pageSizes == m.pageSizes && |m'.free| == |m.free|
    ensures TablesStay(m, m', va)
  {
    hide StartOf;
    if FirstHit(m, va, 0).Some? {
      var l := FirstHit(m, va, 0).value;
      forall g | 0 <= g < l ensures !Hits(m', va, g) { assert !Hits(m, va, g); }
      LowestHit(m', va, l);
    }
  }

  lemma TouchTables(m: Manager, default: nat, touched: nat, va: nat)
    requires Shaped(m) && AllDivide(m.pageSizes)
    ensures TablesStay(m, Touched(m, default, touched), va)
  {
    hide StartOf, Touched, Divides;
    var m' := Touched(m, default, touched);
    if InTables(m, va).Some? && m' != m {
      var l := FirstHit(m, va, 0).value;
      var h := TouchedIs(m, default, touched);
      if h < l && StartOf(va, m.pageSizes[h]) == StartOf(touched, m.pageSizes[h]) {
        SamePage(m.pageSizes[h], m.pageSizes[l], va, touched);
        assert !Hits(m, touched, l);
      }
      forall g | 0 <= g < l ensures !Hits(m', va, g) { assert !Hits(m, va, g); }
      LowestHit(m', va, l);
    }
  }

  lemma UsedNow(m: Manager, default: nat, l: nat)
    requires Shaped(m) && Filled(m, default) && l < |m.tables| && m.tables[l] != map[] && l != default
    ensures UsedUp(m, default, l)
  {}

  /** A level below a used one has room only if the used one is the default. */
  lemma LowerRoom(m: Manager, default: nat, l: nat, h: nat)
    requires Shaped(m) && Filled(m, default) && h < l < |m.tables| && m.tables[l] != map[] && m.free[h] != []
    ensures l == default
  {
    if l != default { UsedNow(m, default, l); }
  }

  lemma {:induction false} ManyTouches(m: Manager, default: nat, more: seq<nat>, va: nat)
    requires Shaped(m) && Filled(m, default) && FitBelow(m.pageSizes, default) && m.trans == map[]
    requires Translation(m, va).Some?
    ensures Translation(TouchedAll(m, default, more), va) == Translation(m, va)
    decreases |more|
  {
    hide Translation, Filled, FitBelow, Touched;
    if more != [] {
      OneTouch(m, default, more[0], va);
      FilledStays(m, default, more[0]);
      ManyTouches(Touched(m, default, more[0]), default, more[1..], va);
    }
  }

  lemma {:induction false} FilledByRuns(m: Manager, default: nat, vas: seq<nat>)
    requires Shaped(m) && Filled(m, default) && m.trans == map[]
    ensures Filled(TouchedAll(m, default, vas), default) && TouchedAll(m, default, vas).trans == map[]
    decreases |vas|
  {
    hide Filled, Touched;
    if vas != [] {
      FilledStays(m, default, vas[0]);
      FilledByRuns(Touched(m, default, vas[0]), default, vas[1..]);
    }
  }

  // ---------------------------------------------------------------- answers that change

  /** One page at level `h` and one at `l`, no others. */
  function OnePageEach(n: nat, h: nat, l: nat): (counts: seq<nat>)
    ensures |counts| == n
  {
    seq(n, i => if i == h || i == l then 1 else 0)
  }

  /** The manager that starts with its pools in address order. */
  ghost function Start(sizes: seq<nat>, counts: seq<nat>): (m: Manager)
    requires |sizes| == |counts|
    ensures IsStart(m, sizes, counts) && m.pageSizes == sizes
  {
    Manager(sizes, seq(|sizes|, l requires 0 <= l < |sizes| => LinearPool(Base(sizes, counts, l), sizes[l], counts[l])),
            seq(|sizes|, l => map[]), map[], map[], map[])
  }

  lemma {:induction false} BaseRises(sizes: seq<nat>, counts: seq<nat>, h: nat, l: nat)
    requires |sizes| == |counts| && h < l <= |sizes|
    ensures PageAt(Base(sizes, counts, h), sizes[h], counts[h]) <= Base(sizes, counts, l)
    decreases l
  {
    if h + 1 < l {
      BaseRises(sizes, counts, h, l - 1);
      assert 0 <= counts[l - 1] * sizes[l - 1];
    }
  }

  /** No allocations; level `h` holds one free page, and those below none. */
  ghost predicate OneLeft(m: Manager, h: nat, page: nat) {
    Shaped(m) && m.trans == map[] && h < |m.free| && m.free[h] == [page] && forall l :: 0 <= l < h ==> m.free[l] == []
  }

  ghost predicate TablesEmpty(m: Manager, except: nat)
    { forall l :: 0 <= l < |m.tables| && l != except ==> m.tables[l] == map[] }

  /** Before anything is translated, the default level holds one page too. */
  ghost predicate BothLeft(m: Manager, h: nat, low: nat, default: nat, high: nat) {
    OneLeft(m, h, low) && h < default < |m.free| && m.free[default] == [high] && TablesEmpty(m, |m.tables|)
  }

  /** Then the default level's page is in its table, at `u`. */
  ghost predicate HighUsed(m: Manager, h: nat, low: nat, default: nat, high: nat, u: nat) {
    && OneLeft(m, h, low) && h < default < |m.free| && m.free[default] == [] && TablesEmpty(m, default)
    && m.tables[default] == map[u := high]
  }

  lemma FirstTouch(m: Manager, h: nat, low: nat, default: nat, high: nat, x: nat)
    requires BothLeft(m, h, low, default, high)
    ensures HighUsed(Touched(m, default, x), h, low, default, high, StartOf(x, m.pageSizes[default]))
  {
    NoAllocations(m, x);
    hide StartOf, Translation;
    assert forall l :: 0 <= l < |m.tables| ==> !Hits(m, x, l);
    assert InTables(m, x) == None;
    assert Touched(m, default, x) == TableOne(m, default, StartOf(x, m.pageSizes[default]));
  }

  /** The second translation takes the page of the lower level, and its table answers first. */
  lemma SecondTouch(m: Manager, h: nat, low: nat, default: nat, high: nat, x: nat, y: nat)
    requires h < default < |m.pageSizes| && 0 < m.pageSizes[h] && 0 < m.pageSizes[default]
    requires HighUsed(m, h, low, default, high, StartOf(x, m.pageSizes[default]))
    requires StartOf(x, m.pageSizes[default]) != StartOf(y, m.pageSizes[default])
    requires StartOf(x, m.pageSizes[h]) == StartOf(y, m.pageSizes[h])
    ensures Translation(m, x) == Some(high + (x - StartOf(x, m.pageSizes[default])))
    ensures Translation(Touched(m, default, y), x) == Some(low + (x - StartOf(x, m.pageSizes[h])))
  {
    NoAllocations(m, x);
    NoAllocations(m, y);
    NoAllocations(Touched(m, default, y), x);
    hide StartOf, Translation;
    assert forall l :: 0 <= l < |m.tables| ==> !Hits(m, y, l);
    assert InTables(m, y) == None;
    LowestHit(m, x, default);
    assert !Hits(m, y, h);
    var m' := Touched(m, default, y);
    assert Room(m, default) == Some(h);
    assert m' == TableOne(m, h, StartOf(y, m.pageSizes[h]));
    forall l | 0 <= l < h ensures !Hits(m', x, l) { assert !Hits(m, x, l); }
    LowestHit(m', x, h);
  }

  /** A manager of which only levels `h` and `l` hold anything. */
  ghost function Two(sizes: seq<nat>, h: nat, ps: seq<nat>, th: map<nat, nat>, l: nat, qs: seq<nat>, tl: map<nat, nat>,
                     trans: map<nat, nat>, primary: map<nat, nat>, info: map<nat, Info>): (m: Manager)
    ensures m.pageSizes == sizes && m.trans == trans && m.primary == primary && m.info == info
    ensures |m.free| == |m.tables| == |sizes|
    ensures forall g :: 0 <= g < |sizes| ==>
      && m.free[g] == (if g == h then ps else if g == l then qs else [])
      && m.tables[g] == if g == h then th else if g == l then tl else map[]
  {
    Manager(sizes, seq(|sizes|, g => if g == h then ps else if g == l then qs else []),
            seq(|sizes|, g => if g == h then th else if g == l then tl else map[]), trans, primary, info)
  }

  lemma SmallPool(start: nat, size: nat, count: nat)
    requires count <= 1
    ensures LinearPool(start, size, count) == if count == 1 then [start] else []
  {
    hide PageAt;
    PageAtNext(start, size, 0);
  }

  lemma StartIsTwo(sizes: seq<nat>, h: nat, l: nat)
    requires SizesOk(sizes) && h < l < |sizes|
    ensures var counts := OnePageEach(|sizes|, h, l);
      Start(sizes, counts) ==
        Two(sizes, h, [Base(sizes, counts, h)], map[], l, [Base(sizes, counts, l)], map[], map[], map[], map[])
  {
    hide LinearPool, Base, Start, Two;
    var counts := OnePageEach(|sizes|, h, l);
    var m := Start(sizes, counts);
    var two := Two(sizes, h, [Base(sizes, counts, h)], map[], l, [Base(sizes, counts, l)], map[], map[], map[], map[]);
    StartParts(sizes, counts);
    forall g | 0 <= g < |sizes|
      ensures m.free[g] == two.free[g]
    {
      SmallPool(Base(sizes, counts, g), sizes[g], counts[g]);
    }
    assert m.free == two.free;
    assert m.tables == two.tables;
  }

  lemma StartParts(sizes: seq<nat>, counts: seq<nat>)
    requires |sizes| == |counts|
    ensures var m := Start(sizes, counts);
      && |m.free| == |m.tables| == |sizes| && m.trans == map[] && m.primary == map[] && m.info == map[]
      && forall g :: 0 <= g < |sizes| ==>
           m.free[g] == LinearPool(Base(sizes, counts, g), sizes[g], counts[g]) && m.tables[g] == map[]
  {
    hide LinearPool, Base;
  }

  lemma StartHasBoth(sizes: seq<nat>, h: nat, default: nat)
    requires SizesOk(sizes) && h < default < |sizes|
    ensures var counts := OnePageEach(|sizes|, h, default);
      BothLeft(Start(sizes, counts), h, Base(sizes, counts, h), default, Base(sizes, counts, default))
  {
    hide Start, Base, Two, OnePageEach;
    StartIsTwo(sizes, h, default);
  }

  /** A second address on the same small page but another large one changes the answer of the
      first. */
  lemma TwoTouches(m0: Manager, h: nat, low: nat, default: nat, high: nat, x: nat, y: nat)
    requires BothLeft(m0, h, low, default, high) && h < default < |m0.pageSizes| && 0 < m0.pageSizes[h]
    requires 0 < m0.pageSizes[default]
    requires StartOf(x, m0.pageSizes[default]) != StartOf(y, m0.pageSizes[default])
    requires StartOf(x, m0.pageSizes[h]) == StartOf(y, m0.pageSizes[h])
    ensures Shaped(m0)
    ensures var m1 := TouchedAll(m0, default, [x]);
      && Translation(m1, x) == Some(high + (x - StartOf(x, m0.pageSizes[default])))
      && Translation(TouchedAll(m1, default, [y]), x) == Some(low + (x - StartOf(x, m0.pageSizes[h])))
  {
    hide StartOf, Touched, TouchedAll, Translation, TablesEmpty;
    FirstTouch(m0, h, low, default, high, x);
    var m1 := Touched(m0, default, x);
    OneTouchedAll(m0, default, x);
    OneTouchedAll(m1, default, y);
    SecondTouch(m1, h, low, default, high, x, y);
  }

  lemma OneTouchedAll(m: Manager, default: nat, x: nat)
    requires Shaped(m)
    ensures TouchedAll(m, default, [x]) == Touched(m, default, x)
  {
    hide Touched;
    assert [x][1..] == [];
  }

  /** A page that does not fit: the last small page of the first large page reaches beyond it. */
  lemma StraddlingPage(a: nat, b: nat)
    requires 0 < a && 0 < b && !Divides(a, b)
    ensures var x := StartOf(b, a); x < b && StartOf(x, a) == x && StartOf(x, b) == 0 && StartOf(b, b) == b
  {
    var x := StartOf(b, a);
    assert b == a * (b / a) + b % a;
    MultipleMod(a, b / a, x);
    DivMod(b, 0, x, x);
    DivMod(b, 1, 0, b);
  }

  lemma AnswerChanges(sizes: seq<nat>, h: nat, default: nat)
    requires SizesOk(sizes) && h < default < |sizes| && !Divides(sizes[h], sizes[default])
    ensures !AnswersStay(sizes, default)
  {
    hide Start, IsStart, BothLeft, Translation, TouchedAll, StartOf, Base, PageAt, Divides;
    var x, y := StartOf(sizes[default], sizes[h]), sizes[default];
    StraddlingPage(sizes[h], sizes[default]);
    var counts := OnePageEach(|sizes|, h, default);
    var m0 := Start(sizes, counts);
    StartHasBoth(sizes, h, default);
    LowerFirst(sizes, counts, h, default);
    TwoTouches(m0, h, Base(sizes, counts, h), default, Base(sizes, counts, default), x, y);
    assert IsStart(m0, sizes, counts);
    assert !AnswerStays(m0, default, [x], [y], x);
  }

  lemma LowerFirst(sizes: seq<nat>, counts: seq<nat>, h: nat, l: nat)
    requires |sizes| == |counts| && h < l < |sizes| && counts[h] == 1 && 0 < sizes[h]
    ensures Base(sizes, counts, h) < Base(sizes, counts, l)
  {
    hide PageAt, Base;
    BaseRises(sizes, counts, h, l);
    PageAtNext(Base(sizes, counts, h), sizes[h], 0);
  }

  /** An answer, once given, stays, whatever the pools and whatever is translated, if and only if
      the pages of all levels below the default one divide its pages. */
  lemma AnswersStayExactly(sizes: seq<nat>, default: nat)
    requires SizesOk(sizes)
    ensures AnswersStay(sizes, default) <==> FitBelow(sizes, default)
  {
    hide Translation, TouchedAll, IsStart, Divides;
    if FitBelow(sizes, default) {
      forall m, counts, vas, more, va | IsStart(m, sizes, counts)
        ensures AnswerStays(m, default, vas, more, va)
      {
        StartIsEmpty(m, sizes, counts, default);
        FilledByRuns(m, default, vas);
        var before := TouchedAll(m, default, vas);
        if Translation(before, va).Some? { ManyTouches(before, default, more, va); }
      }
    } else {
      var h :| 0 <= h < |sizes| && h < default < |sizes| && !Divides(sizes[h], sizes[default]);
      AnswerChanges(sizes, h, default);
    }
  }

  lemma StartIsEmpty(m: Manager, sizes: seq<nat>, counts: seq<nat>, default: nat)
    requires SizesOk(sizes) && IsStart(m, sizes, counts)
    ensures Shaped(m) && Filled(m, default) && m.trans == map[] && m.pageSizes == sizes
  {}

  /** For every default level: exactly when each level's pages divide those of all higher levels. */
  lemma AnswersStayForAll(sizes: seq<nat>)
    requires SizesOk(sizes)
    ensures (forall default :: 0 <= default < |sizes| ==> AnswersStay(sizes, default)) <==>
            (forall h, l :: 0 <= h < l < |sizes| ==> Divides(sizes[h], sizes[l]))
  {
    hide AnswersStay, Divides, SizesOk;
    forall default | 0 <= default < |sizes|
      ensures AnswersStay(sizes, default) <==> FitBelow(sizes, default)
    {
      AnswersStayExactly(sizes, default);
    }
    if forall default :: 0 <= default < |sizes| ==> AnswersStay(sizes, default) {
      forall h, l | 0 <= h < l < |sizes|
        ensures Divides(sizes[h], sizes[l])
      {
        assert AnswersStay(sizes, l);
        assert FitBelow(sizes, l);
      }
    }
  }

  /** Pages of 8192 bytes at level 0 and of 4096 at the default level 1, one of each: address 100
      is answered 8292; translating 5000 takes the large page, and 100 is then answered 100. */
  lemma LargePageShadows(sizes: seq<nat>, counts: seq<nat>)
    requires sizes == [8192, 4096] && counts == [1, 1]
    ensures var m0 := Start(sizes, counts);
      && Shaped(m0)
      && Translation(TouchedAll(m0, 1, [100]), 100) == Some(8292)
      && Translation(TouchedAll(TouchedAll(m0, 1, [100]), 1, [5000]), 100) == Some(100)
  {
    hide Start, IsStart, BothLeft, Translation, TouchedAll, StartOf, Base, PageAt, OnePageEach;
    LargePages(sizes, counts);
    TwoTouches(Start(sizes, counts), 0, 0, 1, 8192, 100, 5000);
  }

  lemma LargePages(sizes: seq<nat>, counts: seq<nat>)
    requires sizes == [8192, 4096] && counts == [1, 1]
    ensures BothLeft(Start(sizes, counts), 0, 0, 1, 8192)
    ensures StartOf(100, 4096) == 0 && StartOf(5000, 4096) == 4096 && StartOf(100, 8192) == 0
    ensures StartOf(5000, 8192) == 0
  {
    hide Start, BothLeft;
    assert counts == OnePageEach(2, 0, 1);
    assert Base(sizes, counts, 0) == 0;
    StartHasBoth(sizes, 0, 1);
  }
}
