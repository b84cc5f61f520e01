/** Runs of Ariel's malloc memory manager: any interleaving of translations, allocations and frees.
    Pages are conserved throughout; answers of addresses that are not allocated stay exactly when
    the page sizes divide each other upwards. */
module MallocRuns {
  import opened Options
  import opened Sequences
  import opened Arithmetic
  import opened PagePools
  import opened MallocModel
  import opened MallocSteps
  import opened Translations
  import opened MallocCache
  import opened MallocManagers

  datatype Op = Touch(va: nat) | Alloc(size: nat, level: nat, va: nat) | Free(va: nat)

  /** What a program asks for: allocations that are not empty and do not reach into later ones (one
      that holds the start is replaced). */
  ghost predicate Fair(m: Manager, a: Op) {
    a.Alloc? ==> a.level < |m.pageSizes| && 0 < a.size && forall p :: p in m.info && a.va < p ==> a.va + a.size <= p
  }

  ghost predicate Steps(m: Manager, default: nat, a: Op, m': Manager) {
    match a
    case Touch(va) => Shaped(m) && m' == Touched(m, default, va)
    case Alloc(size, level, va) => exists ok :: AllocatedTo(m, size, level, va, m', ok)
    case Free(va) => FreedTo(m, va, m')
  }

  ghost predicate StepAt(states: seq<Manager>, ops: seq<Op>, default: nat, n: nat)
    requires n + 1 < |states| && n < |ops|
  {
    Fair(states[n], ops[n]) && Steps(states[n], default, ops[n], states[n + 1])
  }

  ghost predicate IsRun(states: seq<Manager>, ops: seq<Op>, sizes: seq<nat>, counts: seq<nat>, default: nat) {
    && |states| == |ops| + 1 && SizesOk(sizes) && IsStart(states[0], sizes, counts)
    && forall n :: 0 <= n < |ops| ==> StepAt(states, ops, default, n)
  }

  // ---------------------------------------------------------------- pages are conserved

  /** The pages each level starts with. */
  ghost function StartPages(sizes: seq<nat>, counts: seq<nat>, n: nat): (pages: Pages)
    requires |sizes| == |counts| && n <= |sizes|
    ensures |pages| == n
  {
    seq(n, l requires 0 <= l < n => Members(LinearPool(Base(sizes, counts, l), sizes[l], counts[l])))
  }

  lemma {:induction false} StartLaid(sizes: seq<nat>, counts: seq<nat>, n: nat)
    requires |sizes| == |counts| && n <= |sizes|
    ensures Laid(StartPages(sizes, counts, n), sizes, Base(sizes, counts, n))
    decreases n
  {
    hide Laid, LinearPool, PageAt, StartPages;
    if n == 0 {
      NothingLaid(sizes, counts);
    } else {
      StartLaid(sizes, counts, n - 1);
      var more := Members(LinearPool(Base(sizes, counts, n - 1), sizes[n - 1], counts[n - 1]));
      StartPagesMore(sizes, counts, n);
      LaidMore(StartPages(sizes, counts, n - 1), sizes, Base(sizes, counts, n - 1), counts[n - 1], more);
    }
  }

  lemma NothingLaid(sizes: seq<nat>, counts: seq<nat>)
    requires |sizes| == |counts|
    ensures Laid(StartPages(sizes, counts, 0), sizes, Base(sizes, counts, 0))
  {}

  lemma StartPagesMore(sizes: seq<nat>, counts: seq<nat>, n: nat)
    requires |sizes| == |counts| && 0 < n <= |sizes|
    ensures StartPages(sizes, counts, n) ==
      StartPages(sizes, counts, n - 1) + [Members(LinearPool(Base(sizes, counts, n - 1), sizes[n - 1], counts[n - 1]))]
  {
    hide LinearPool, Base, Members;
  }

  lemma StartInv(m: Manager, sizes: seq<nat>, counts: seq<nat>)
    requires SizesOk(sizes) && IsStart(m, sizes, counts)
    ensures Inv(m, StartPages(sizes, counts, |sizes|))
  {
    hide Inv, Base, LinearPool, Laid;
    var pages := StartPages(sizes, counts, |sizes|);
    StartLaid(sizes, counts, |sizes|);
    LaidApart(pages, sizes, Base(sizes, counts, |sizes|));
    forall l | 0 <= l < |m.free|
      ensures PoolOk(m.free[l], pages[l])
    {
      assert PoolAt(sizes, counts, l, m.free[l]);
      LinearNoRepeats(Base(sizes, counts, l), sizes[l], counts[l]);
      ShuffleKeepsPages(m.free[l], LinearPool(Base(sizes, counts, l), sizes[l], counts[l]));
    }
    InitialInv(m, pages);
  }

  lemma LaidApart(pages: Pages, sizes: seq<nat>, end: nat)
    requires Laid(pages, sizes, end) && |pages| == |sizes| && SizesOk(sizes)
    ensures PagesApart(pages, sizes)
  {}

  /** After the release nobody holds the address, and no other allocation has gone. */
  lemma ReleasedInv(m: Manager, pages: Pages, va: nat, mid: Manager)
    requires Inv(m, pages) && ReleasedTo(m, va, mid)
    ensures Inv(mid, pages) && (forall p :: !LiveIn(mid, va, p))
    ensures forall p :: p in mid.info ==> p in m.info && mid.info[p] == m.info[p]
  {
    hide Inv, Frees;
    if mid != m || exists p :: LiveIn(m, va, p) {
      var p :| LiveIn(m, va, p) && FreedTo(m, p, mid);
      var order :| Frees(m, p, order, mid);
      FreesInv(m, pages, p, order, mid);
      FreedParts(m, p, order, mid);
      OnlyHolder(m, pages, va, p);
      OnlyThatOne(m, mid, va, p);
    }
  }

  lemma AllocKeeps(m: Manager, pages: Pages, size: nat, level: nat, va: nat, m': Manager, ok: bool)
    requires Inv(m, pages) && Fair(m, Alloc(size, level, va)) && AllocatedTo(m, size, level, va, m', ok)
    ensures Inv(m', pages)
  {
    hide Inv, ReleasedTo, HasPages, Allocated, LiveIn;
    var mid :|
      && ReleasedTo(m, va, mid) && ok == HasPages(mid, size, level)
      && m' == if ok then Allocated(mid, size, level, va) else mid;
    ReleasedInv(m, pages, va, mid);
    if ok { AllocatedExactly(mid, pages, size, level, va); }
  }

  lemma StepKeeps(m: Manager, pages: Pages, default: nat, a: Op, m': Manager)
    requires Inv(m, pages) && Fair(m, a) && Steps(m, default, a, m')
    ensures Inv(m', pages)
  {
    hide Inv, Touched, AllocatedTo, Frees;
    match a
    case Touch(va) => TouchedKeeps(m, pages, default, va);
    case Alloc(size, level, va) =>
      var ok :| AllocatedTo(m, size, level, va, m', ok);
      AllocKeeps(m, pages, size, level, va, m', ok);
    case Free(va) =>
      if va in m.info {
        var order :| Frees(m, va, order, m');
        FreesInv(m, pages, va, order, m');
      }
  }

  /** In every state of every run, free pools plus mapped pages are exactly the initial pages, each
      once, and the maps are consistent. */
  lemma {:induction false} RunKeepsPages(states: seq<Manager>, ops: seq<Op>, sizes: seq<nat>, counts: seq<nat>,
                                         default: nat, k: nat)
    requires IsRun(states, ops, sizes, counts, default) && k < |states|
    ensures |sizes| == |counts| && Inv(states[k], StartPages(sizes, counts, |sizes|))
    decreases k
  {
    hide Inv, Steps, Fair;
    if k == 0 {
      StartInv(states[0], sizes, counts);
    } else {
      RunKeepsPages(states, ops, sizes, counts, default, k - 1);
      assert StepAt(states, ops, default, k - 1);
      StepKeeps(states[k - 1], StartPages(sizes, counts, |sizes|), default, ops[k - 1], states[k]);
    }
  }

  /** In every state of every run, different addresses have different answers. */
  lemma RunAnswersApart(states: seq<Manager>, ops: seq<Op>, sizes: seq<nat>, counts: seq<nat>, default: nat, k: nat,
                        x: nat, y: nat)
    requires IsRun(states, ops, sizes, counts, default) && k < |states| && x != y
    ensures Shaped(states[k])
    ensures Translation(states[k], x).Some? && Translation(states[k], y).Some? ==>
      Translation(states[k], x) != Translation(states[k], y)
  {
    hide IsRun, Translation, Inv;
    RunKeepsPages(states, ops, sizes, counts, default, k);
    LevelSizes(states[k], StartPages(sizes, counts, |sizes|));
    if Translation(states[k], x).Some? && Translation(states[k], y).Some? {
      AllTranslationsApart(states[k], StartPages(sizes, counts, |sizes|), x, y);
    }
  }

  // ---------------------------------------------------------------- answers that stay

  lemma StepTables(m: Manager, default: nat, a: Op, m': Manager, va: nat)
    requires Shaped(m) && AllDivide(m.pageSizes) && Steps(m, default, a, m')
    ensures TablesStay(m, m', va) && m'.pageSizes == m.pageSizes
  {
    hide Touched, AllocatedTo, FreedTo, InTables, AllDivide;
    match a
    case Touch(x) => TouchTables(m, default, x, va);
    case Alloc(size, level, x) =>
      var ok :| AllocatedTo(m, size, level, x, m', ok);
      AllocatedShape(m, size, level, x, m', ok);
      SameTables(m, m', va);
    case Free(x) =>
      FreedShape(m, x, m');
      SameTables(m, m', va);
  }

  lemma {:induction false} RunTables(states: seq<Manager>, ops: seq<Op>, sizes: seq<nat>, counts: seq<nat>,
                                     default: nat, i: nat, k: nat, va: nat)
    requires IsRun(states, ops, sizes, counts, default) && AllDivide(sizes) && i <= k < |states|
    ensures TablesStay(states[i], states[k], va) && states[k].pageSizes == sizes
    decreases k
  {
    hide Steps, Fair, AllDivide, InTables;
    if k == 0 {
      StartIsEmpty(states[0], sizes, counts, default);
    } else if i == k {
      RunTables(states, ops, sizes, counts, default, k - 1, k - 1, va);
      assert StepAt(states, ops, default, k - 1);
      StepTables(states[k - 1], default, ops[k - 1], states[k], va);
    } else {
      RunTables(states, ops, sizes, counts, default, i, k - 1, va);
      assert StepAt(states, ops, default, k - 1);
      StepTables(states[k - 1], default, ops[k - 1], states[k], va);
    }
  }

  /** The answer of an address that is not allocated at either time. */
  ghost predicate AnswerKept(m: Manager, m': Manager, va: nat) {
    && Shaped(m) && Shaped(m')
    && (NotLive(m, va) && NotLive(m', va) && Translation(m, va).Some? ==> Translation(m', va) == Translation(m, va))
  }

  /** In every run, once given, the answer of such an address is kept. */
  ghost predicate AnswersKept(sizes: seq<nat>, default: nat) {
    forall states, ops, counts, i: nat, k: nat, va ::
      IsRun(states, ops, sizes, counts, default) && i <= k < |states| ==> AnswerKept(states[i], states[k], va)
  }

  lemma RunAnswers(states: seq<Manager>, ops: seq<Op>, sizes: seq<nat>, counts: seq<nat>, default: nat, i: nat, k: nat,
                   va: nat)
    requires IsRun(states, ops, sizes, counts, default) && AllDivide(sizes) && i <= k < |states|
    ensures AnswerKept(states[i], states[k], va)
  {
    hide IsRun, AllDivide, Translation, InTables, LiveIn;
    RunTables(states, ops, sizes, counts, default, i, k, va);
    if NotLive(states[i], va) && NotLive(states[k], va) {
      NotAllocated(states[i], va);
      NotAllocated(states[k], va);
    }
  }

  // ---------------------------------------------------------------- answers that change

  lemma OnePage(size: nat, va: nat)
    requires 8 <= size
    ensures PageCount(8, size) == 1 && Keys(va, size, 1) == {va} && KeyAt(va, size, 0) == va
  {
    assert Keys(va, size, 0) == {};
  }

  /** Eight bytes at `va` take the page of level `h`. */
  lemma AllocTakes(sizes: seq<nat>, h: nat, low: nat, l: nat, high: nat, va: nat)
    requires SizesOk(sizes) && h < l < |sizes|
    ensures var m := Two(sizes, h, [low], map[], l, [high], map[], map[], map[], map[]);
      var m' := Two(sizes, h, [], map[], l, [high], map[], map[va := low], map[va := va], map[va := Info(8, h, {va})]);
      AllocatedTo(m, 8, h, va, m', true)
  {
    var m := Two(sizes, h, [low], map[], l, [high], map[], map[], map[], map[]);
    var m' := Two(sizes, h, [], map[], l, [high], map[], map[va := low], map[va := va], map[va := Info(8, h, {va})]);
    OnePage(sizes[h], va);
    hide PageCount, Keys, KeyAt, Two;
    assert Mapped(m, h, va, 0) == m;
    assert [low][1..] == [];
    assert MapOne(m, h, va, va).free == m'.free;
    assert Mapped(m, h, va, 1) == MapOne(m, h, va, va);
    assert Allocated(m, 8, h, va) == m';
    assert ReleasedTo(m, va, m) && HasPages(m, 8, h);
  }

  /** It goes back. */
  lemma FreeReturns(sizes: seq<nat>, h: nat, low: nat, l: nat, tl: map<nat, nat>, va: nat)
    requires SizesOk(sizes) && h < l < |sizes|
    ensures var m := Two(sizes, h, [], map[], l, [], tl, map[va := low], map[va := va], map[va := Info(8, h, {va})]);
      FreedTo(m, va, Two(sizes, h, [low], map[], l, [], tl, map[], map[], map[]))
  {
    var m := Two(sizes, h, [], map[], l, [], tl, map[va := low], map[va := va], map[va := Info(8, h, {va})]);
    var m' := Two(sizes, h, [low], map[], l, [], tl, map[], map[], map[]);
    hide Two;
    assert [va][..0] == [] && Unmapped(m, h, []) == m;
    assert Members([va]) == {va};
    EmptyIsUnit([low]);
    assert UnmapOne(m, h, va).free == m'.free;
    assert UnmapOne(m, h, va).(info := map[]) == m';
    assert Unmapped(m, h, [va]) == UnmapOne(m, h, va);
    assert m.info - {va} == map[];
    assert Frees(m, va, [va], m');
  }

  /** An unknown address takes the only page there is. */
  lemma TouchTakes(m: Manager, default: nat, va: nat, g: nat)
    requires Shaped(m) && NotLive(m, va) && (forall l :: 0 <= l < |m.tables| ==> !Hits(m, va, l))
    requires g < |m.free| && m.free[g] != [] && forall l :: 0 <= l < |m.free| && l != g ==> m.free[l] == []
    ensures !Hits(m, va, g) && Touched(m, default, va) == TableOne(m, g, StartOf(va, m.pageSizes[g]))
  {
    hide StartOf, Translation, LiveIn;
    NotAllocated(m, va);
    assert Room(m, default) == Some(g);
    assert InTables(m, va) == None;
  }

  /** The two large pages and the small page between them. */
  lemma TouchLarge(sizes: seq<nat>, h: nat, l: nat, high: nat, default: nat, x: nat, at: nat, low: nat)
    requires SizesOk(sizes) && h < l < |sizes| && x < at && StartOf(x, sizes[l]) == 0
    ensures var m := Two(sizes, h, [], map[], l, [high], map[], map[at := low], map[at := at],
                         map[at := Info(8, h, {at})]);
      var m' := Two(sizes, h, [], map[], l, [], map[0 := high], map[at := low], map[at := at],
        map[at := Info(8, h, {at})]);
      && Shaped(m) && Shaped(m') && Touched(m, default, x) == m' && NotLive(m', x)
      && Translation(m', x) == Some(high + x)
  {
    var m := Two(sizes, h, [], map[], l, [high], map[], map[at := low], map[at := at], map[at := Info(8, h, {at})]);
    var m' := Two(sizes, h, [], map[], l, [], map[0 := high], map[at := low], map[at := at],
      map[at := Info(8, h, {at})]);
    hide StartOf, Translation, Two, Touched;
    assert NotLive(m, x) && NotLive(m', x);
    TouchTakes(m, default, x, l);
    var t := TableOne(m, l, 0);
    assert [high][1..] == [];
    assert t.tables == m'.tables && t.free == m'.free;
    NotAllocated(m', x);
    LowestHit(m', x, l);
  }

  lemma TouchSmall(sizes: seq<nat>, h: nat, low: nat, l: nat, high: nat, default: nat, x: nat, y: nat)
    requires SizesOk(sizes) && h < l < |sizes| && StartOf(x, sizes[h]) == x == StartOf(y, sizes[h])
    requires StartOf(y, sizes[l]) != 0
    ensures var m := Two(sizes, h, [low], map[], l, [], map[0 := high], map[], map[], map[]);
      var m' := Two(sizes, h, [], map[x := low], l, [], map[0 := high], map[], map[], map[]);
      && Shaped(m) && Shaped(m') && Touched(m, default, y) == m' && NotLive(m', x) && Translation(m', x) == Some(low)
  {
    var m := Two(sizes, h, [low], map[], l, [], map[0 := high], map[], map[], map[]);
    var m' := Two(sizes, h, [], map[x := low], l, [], map[0 := high], map[], map[], map[]);
    hide StartOf, Translation, Two, Touched;
    assert NotLive(m, y) && NotLive(m', x);
    TouchTakes(m, default, y, h);
    var t := TableOne(m, h, x);
    assert [low][1..] == [];
    assert t.tables == m'.tables && t.free == m'.free;
    NotAllocated(m', x);
    LowestHit(m', x, h);
  }

  /** Allocate the small page away, translate, free it, translate next to it: the first answer is
      shadowed. */
  lemma ShadowingRun(sizes: seq<nat>, h: nat, l: nat, default: nat)
    returns (states: seq<Manager>, ops: seq<Op>, va: nat)
    requires SizesOk(sizes) && h < l < |sizes| && !Divides(sizes[h], sizes[l])
    ensures |states| == 5 && IsRun(states, ops, sizes, OnePageEach(|sizes|, h, l), default)
    ensures !AnswerKept(states[2], states[4], va)
  {
    hide StartOf, Base, Translation, Two, Touched, AllocatedTo, FreedTo, Start, IsStart, OnePageEach, LiveIn;
    var counts := OnePageEach(|sizes|, h, l);
    var low, high := Base(sizes, counts, h), Base(sizes, counts, l);
    var x, y := StartOf(sizes[l], sizes[h]), sizes[l];
    var at := y + 1;
    StraddlingPage(sizes[h], sizes[l]);
    StartIsTwo(sizes, h, l);
    AllocTakes(sizes, h, low, l, high, at);
    TouchLarge(sizes, h, l, high, default, x, at, low);
    FreeReturns(sizes, h, low, l, map[0 := high], at);
    TouchSmall(sizes, h, low, l, high, default, x, y);
    OneAtH(|sizes|, h, l);
    LowerFirst(sizes, counts, h, l);
    var m0 := Start(sizes, counts);
    var m1 := Two(sizes, h, [], map[], l, [high], map[], map[at := low], map[at := at], map[at := Info(8, h, {at})]);
    var m2 := Two(sizes, h, [], map[], l, [], map[0 := high], map[at := low], map[at := at],
                  map[at := Info(8, h, {at})]);
    var m3 := Two(sizes, h, [low], map[], l, [], map[0 := high], map[], map[], map[]);
    var m4 := Two(sizes, h, [], map[x := low], l, [], map[0 := high], map[], map[], map[]);
    states, ops, va := [m0, m1, m2, m3, m4], [Alloc(8, h, at), Touch(x), Free(at), Touch(y)], x;
    assert StepAt(states, ops, default, 0) && StepAt(states, ops, default, 1);
    assert StepAt(states, ops, default, 2) && StepAt(states, ops, default, 3);
  }

  lemma OneAtH(n: nat, h: nat, l: nat)
    requires h < n
    ensures OnePageEach(n, h, l)[h] == 1
  {}

  /** Answers of addresses that are not allocated stay over every run of translations, allocations
      and frees, whatever the pools, if and only if each level's page size divides those of all
      higher levels; the default level makes no difference. */
  lemma AnswersKeptExactly(sizes: seq<nat>, default: nat)
    requires SizesOk(sizes)
    ensures AnswersKept(sizes, default) <==> AllDivide(sizes)
  {
    hide IsRun, AnswerKept, Divides;
    if AllDivide(sizes) {
      forall states, ops, counts, i: nat, k: nat, va | IsRun(states, ops, sizes, counts, default) && i <= k < |states|
        ensures AnswerKept(states[i], states[k], va)
      {
        RunAnswers(states, ops, sizes, counts, default, i, k, va);
      }
    } else {
      var h, l :| 0 <= h < l < |sizes| && !Divides(sizes[h], sizes[l]);
      var states, ops, va := ShadowingRun(sizes, h, l, default);
      assert !AnswerKept(states[2], states[4], va);
    }
  }
}
