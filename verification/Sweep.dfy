/** The cycle floors of the attention sweep: the perfect-overlap floor, the floor of the fixed
    causal work partition, and how they relate. */
module Sweep {
  import opened Options
  import opened Arithmetic

  function CeilDiv(a: nat, b: nat): nat
    requires 0 < b
  {
    (a + b - 1) / b
  }

  function Max(a: nat, b: nat): nat { if a >= b then a else b }

  // ---------------------------------------------------------------- theoretical_floor

  /** Sum of ceil(64 * block / 256) over the blocks 1 to n. */
  function Windows(n: nat): nat { if n == 0 then 0 else Windows(n - 1) + (n * 64 + 255) / 256 }

  function QkTiles(hq: nat, length: nat): nat {
    var t := length / 64;
    hq * t * (t + 1) / 2
  }

  /** The EXP term of the causal floor. */
  function CausalExp(hq: nat, length: nat): nat { CeilDiv(QkTiles(hq, length) * 64 * 64, 8 * 16) }

  /** Multiply-accumulates of `tiles` tiles of `cells` cells each. */
  function Macs(tiles: nat, cells: nat, dim: nat): nat {
    var all: nat := tiles * cells;
    all * dim
  }

  function CausalFloor(hq: nat, length: nat, dim: nat): nat {
    var pvWindows: nat := hq * Windows(length / 64);
    var qk := CeilDiv(Macs(QkTiles(hq, length), 64 * 64, dim), 8 * 4096);
    var pv := CeilDiv(Macs(pvWindows, 64 * 256, dim), 8 * 4096);
    Max(Max(qk, pv), CausalExp(hq, length))
  }

  function DenseFloor(hq: nat, queries: nat, keys: nat, dim: nat): nat {
    Max(CeilDiv(hq * queries * keys * dim, 8 * (64 * 64)), CeilDiv(hq * queries * keys, 8 * 16))
  }

  // ---------------------------------------------------------------- what the floors are floors of

  /** Sums over the query tiles 1 to `t` of one head: tile `i` meets `i` key tiles, in windows of
      four. */
  ghost function KeyTiles(t: nat): nat { if t == 0 then 0 else KeyTiles(t - 1) + t }

  ghost function KeyWindows(t: nat): nat { if t == 0 then 0 else KeyWindows(t - 1) + (t + 3) / 4 }

  /** In `n` cycles eight workers can do the query-key products, eight others the products with the
      values (4096 multiply-accumulates each per cycle), and the first the exponentials (16 each). */
  ghost predicate Fits(hq: nat, t: nat, dim: nat, n: nat) {
    && Macs(hq * KeyTiles(t), 64 * 64, dim) <= n * (8 * 4096)
    && Macs(hq * KeyWindows(t), 64 * 256, dim) <= n * (8 * 4096)
    && hq * KeyTiles(t) * (64 * 64) <= n * (8 * 16)
  }

  /** A quotient rounded up is the least number of cycles in which the work gets done. */
  lemma CeilIsLeast(a: nat, b: nat, n: nat)
    requires 0 < b
    ensures CeilDiv(a, b) <= n <==> a <= n * b
  {
    var q, r := (a + b - 1) / b, (a + b - 1) % b;
    assert a + b - 1 == b * q + r;
    if q <= n {
      assert n * b == b * q + b * (n - q);
    } else {
      assert b * q == n * b + b * (q - n);
      MulAtLeast(b, q - n);
    }
  }

  lemma {:induction false} KeyTilesAre(t: nat)
    ensures 2 * KeyTiles(t) == t * (t + 1)
    decreases t
  {
    if 0 < t {
      KeyTilesAre(t - 1);
      assert t * (t + 1) == (t - 1) * t + 2 * t;
    }
  }

  lemma {:induction false} WindowsAre(t: nat)
    ensures Windows(t) == KeyWindows(t)
    decreases t
  {
    if 0 < t { WindowsAre(t - 1); }
  }

  lemma QkTilesAre(hq: nat, length: nat)
    ensures QkTiles(hq, length) == hq * KeyTiles(length / 64)
  {
    var t := length / 64;
    KeyTilesAre(t);
    assert hq * t * (t + 1) == hq * (t * (t + 1)) == 2 * (hq * KeyTiles(t));
  }

  lemma MaxAtMost(a: nat, b: nat, n: nat)
    ensures Max(a, b) <= n <==> a <= n && b <= n
  {}

  /** The causal floor is the least number of cycles in which all three kinds of work fit. */
  lemma CausalFloorIsLeast(hq: nat, length: nat, dim: nat, n: nat)
    ensures CausalFloor(hq, length, dim) <= n <==> Fits(hq, length / 64, dim, n)
  {
    var t := length / 64;
    QkTilesAre(hq, length);
    WindowsAre(t);
    hide CeilDiv, Max, QkTiles, Windows, KeyTiles, KeyWindows, Macs;
    var qk, pv := Macs(hq * KeyTiles(t), 64 * 64, dim), Macs(hq * KeyWindows(t), 64 * 256, dim);
    var exp := hq * KeyTiles(t) * 64 * 64;
    CeilIsLeast(qk, 8 * 4096, n);
    CeilIsLeast(pv, 8 * 4096, n);
    CeilIsLeast(exp, 8 * 16, n);
    MaxAtMost(CeilDiv(qk, 8 * 4096), CeilDiv(pv, 8 * 4096), n);
    MaxAtMost(Max(CeilDiv(qk, 8 * 4096), CeilDiv(pv, 8 * 4096)), CeilDiv(exp, 8 * 16), n);
  }

  /** The dense floor likewise, with every query row meeting every key row. */
  lemma DenseFloorIsLeast(hq: nat, queries: nat, keys: nat, dim: nat, n: nat)
    ensures DenseFloor(hq, queries, keys, dim) <= n <==>
      hq * queries * keys * dim <= n * (8 * 4096) && hq * queries * keys <= n * (8 * 16)
  {
    hide CeilDiv, Max;
    CeilIsLeast(hq * queries * keys * dim, 8 * 4096, n);
    CeilIsLeast(hq * queries * keys, 8 * 16, n);
    MaxAtMost(CeilDiv(hq * queries * keys * dim, 8 * 4096), CeilDiv(hq * queries * keys, 8 * 16), n);
  }

  // ---------------------------------------------------------------- static_causal_exp_floor

  function RowsPerBand(length: nat): nat { length / 4 }

  function RowsPerWorker(group: nat, length: nat): nat { RowsPerBand(length) * group / 2 }

  /** Key tiles of the 64 query rows that start at `row` of a worker's share. */
  function RowTiles(band: nat, share: nat, manager: nat, worker: nat, row: nat): nat
    requires 0 < band
  {
    (manager * band + (worker * share + row) % band) / 64 + 1
  }

  /** Tiles of a worker from `row` on. */
  function TilesFrom(band: nat, share: nat, manager: nat, worker: nat, row: nat): nat
    requires 0 < band
    decreases if row < share then share - row else 0
  {
    if row < share then RowTiles(band, share, manager, worker, row) + TilesFrom(band, share, manager, worker, row + 64)
    else 0
  }

  function JobTiles(band: nat, share: nat, manager: nat, worker: nat): nat
    requires 0 < band
  {
    TilesFrom(band, share, manager, worker, 0)
  }

  /** Tiles of the eight workers. */
  function AllTiles(band: nat, share: nat): nat
    requires 0 < band
  {
    JobTiles(band, share, 0, 0) + JobTiles(band, share, 0, 1)
    + JobTiles(band, share, 1, 0) + JobTiles(band, share, 1, 1)
    + JobTiles(band, share, 2, 0) + JobTiles(band, share, 2, 1)
    + JobTiles(band, share, 3, 0) + JobTiles(band, share, 3, 1)
  }

  /** Head pairs and lengths the sweep accepts. */
  predicate Accepted(hq: nat, hkv: nat, length: nat) {
    0 < hkv && (hq == hkv || hq == 2 * hkv || hq == 4 * hkv) && 0 < length && length % 256 == 0
  }

  function Group(hq: nat, hkv: nat): nat
    requires 0 < hkv
  {
    hq / hkv
  }

  /** Tiles of all jobs of a worker. */
  function Load(band: nat, share: nat, hkv: nat, manager: nat, worker: nat): nat
    requires 0 < band
  {
    JobTiles(band, share, manager, worker) * hkv
  }

  /** `busiest` is the largest load of a worker. */
  ghost predicate IsBusiest(band: nat, share: nat, hkv: nat, busiest: nat)
    requires 0 < band
  {
    && (forall m: nat, w: nat :: m < 4 && w < 2 ==> Load(band, share, hkv, m, w) <= busiest)
    && (exists m: nat, w: nat :: m < 4 && w < 2 && Load(band, share, hkv, m, w) == busiest)
  }

  method BusiestTiles(band: nat, share: nat, hkv: nat) returns (busiest: nat)
    requires 0 < band
    ensures IsBusiest(band, share, hkv, busiest)
  {
    hide Load, JobTiles;
    busiest := 0;
    ghost var bm: nat, bw: nat := 0, 0;
    for m := 0 to 4
      invariant bm < 4 && bw < 2 && (busiest == Load(band, share, hkv, bm, bw) || busiest == 0)
      invariant forall i: nat, j: nat :: i < m && j < 2 ==> Load(band, share, hkv, i, j) <= busiest
    {
      for w := 0 to 2
        invariant bm < 4 && bw < 2 && (busiest == Load(band, share, hkv, bm, bw) || busiest == 0)
        invariant forall i: nat, j: nat :: i < m && j < 2 ==> Load(band, share, hkv, i, j) <= busiest
        invariant forall j: nat :: j < w ==> Load(band, share, hkv, m, j) <= busiest
      {
        var tiles := SumTiles(band, share, m, w);
        LoadIs(band, share, hkv, m, w);
        if tiles * hkv > busiest { busiest, bm, bw := tiles * hkv, m, w; }
      }
    }
    assert Load(band, share, hkv, bm, bw) <= busiest;
  }

  lemma LoadIs(band: nat, share: nat, hkv: nat, m: nat, w: nat)
    requires 0 < band
    ensures Load(band, share, hkv, m, w) == JobTiles(band, share, m, w) * hkv
  {}

  /** The floor of the fixed partition; lengths whose shares are not whole tiles are refused. */
  method StaticCausalExpFloor(hq: nat, hkv: nat, length: nat) returns (r: Option<nat>)
    requires Accepted(hq, hkv, length)
    ensures r.Some? <==> RowsPerWorker(Group(hq, hkv), length) % 64 == 0
    ensures 0 < RowsPerBand(length)
    ensures r.Some? ==> r.value % 256 == 0
                        && IsBusiest(RowsPerBand(length), RowsPerWorker(Group(hq, hkv), length), hkv, r.value / 256)
  {
    hide IsBusiest, RowsPerWorker, Group;
    var band := RowsPerBand(length);
    var share := RowsPerWorker(Group(hq, hkv), length);
    if share % 64 != 0 { return None; }
    var busiest := BusiestTiles(band, share, hkv);
    return Some(busiest * (64 * 64 / 16));
  }

  /** The sum over a worker's rows. */
  method SumTiles(band: nat, share: nat, manager: nat, worker: nat) returns (tiles: nat)
    requires 0 < band
    ensures tiles == JobTiles(band, share, manager, worker)
  {
    tiles := 0;
    var row := 0;
    hide RowTiles;
    while row < share
      invariant 0 <= row
      invariant JobTiles(band, share, manager, worker) == tiles + TilesFrom(band, share, manager, worker, row)
    {
      tiles := tiles + RowTiles(band, share, manager, worker, row);
      row := row + 64;
    }
  }

  // ---------------------------------------------------------------- the partition is exact

  /** Tiles of the 64-row blocks `lo` to `hi - 1` of a manager's band of `k` blocks, which its
      group's heads walk through again and again. */
  ghost function Blocks(manager: nat, k: nat, lo: nat, hi: nat): nat
    requires 0 < k
    decreases hi - lo
  {
    if lo < hi then manager * k + lo % k + 1 + Blocks(manager, k, lo + 1, hi) else 0
  }

  lemma {:induction false} BlocksSplit(manager: nat, k: nat, lo: nat, mid: nat, hi: nat)
    requires 0 < k && lo <= mid <= hi
    ensures Blocks(manager, k, lo, hi) == Blocks(manager, k, lo, mid) + Blocks(manager, k, mid, hi)
    decreases mid - lo
  {
    if lo < mid { BlocksSplit(manager, k, lo + 1, mid, hi); }
  }

  /** A row's tiles, counted in blocks. */
  lemma RowIsBlock(k: nat, n: nat, manager: nat, worker: nat, i: nat)
    requires 0 < k
    ensures RowTiles(64 * k, 64 * n, manager, worker, 64 * i) == manager * k + (worker * n + i) % k + 1
  {
    var t := worker * n + i;
    var q, r := t / k, t % k;
    assert t == k * q + r;
    assert worker * (64 * n) + 64 * i == 64 * t by { assert worker * (64 * n) == 64 * (worker * n); }
    assert (64 * k) * q == 64 * (k * q);
    DivMod(64 * k, q, 64 * r, 64 * t);
    assert manager * (64 * k) == 64 * (manager * k);
    DivMod(64, manager * k + r, 0, manager * (64 * k) + 64 * r);
  }

  lemma {:induction false} TilesAreBlocks(k: nat, n: nat, manager: nat, worker: nat, i: nat)
    requires 0 < k && i <= n
    ensures TilesFrom(64 * k, 64 * n, manager, worker, 64 * i) == Blocks(manager, k, worker * n + i, worker * n + n)
    decreases n - i
  {
    hide RowTiles;
    if i < n {
      RowIsBlock(k, n, manager, worker, i);
      TilesAreBlocks(k, n, manager, worker, i + 1);
    }
  }

  /** Block tiles of one walk through the band. */
  ghost function BandSum(manager: nat, k: nat, j: nat)
    : nat { if j == 0 then 0 else BandSum(manager, k, j - 1) + manager * k + j }

  lemma {:induction false} OneWalk(manager: nat, k: nat, walk: nat, j: nat)
    requires 0 < k && j <= k
    ensures Blocks(manager, k, k * walk, k * walk + j) == BandSum(manager, k, j)
    decreases j
  {
    if 0 < j {
      OneWalk(manager, k, walk, j - 1);
      BlocksSplit(manager, k, k * walk, k * walk + j - 1, k * walk + j);
      DivMod(k, walk, j - 1, k * walk + j - 1);
    }
  }

  lemma {:induction false} Walks(manager: nat, k: nat, g: nat)
    requires 0 < k
    ensures Blocks(manager, k, 0, k * g) == g * BandSum(manager, k, k)
    decreases g
  {
    if 0 < g {
      Walks(manager, k, g - 1);
      assert k * g == k * (g - 1) + k;
      BlocksSplit(manager, k, 0, k * (g - 1), k * g);
      OneWalk(manager, k, g - 1, k);
      assert g * BandSum(manager, k, k) == (g - 1) * BandSum(manager, k, k) + BandSum(manager, k, k);
    }
  }

  lemma {:induction false} BandTotal(manager: nat, k: nat, j: nat)
    ensures 2 * BandSum(manager, k, j) == 2 * (manager * k) * j + j * (j + 1)
    decreases j
  {
    if 0 < j {
      BandTotal(manager, k, j - 1);
      assert 2 * (manager * k) * j == 2 * (manager * k) * (j - 1) + 2 * (manager * k);
      assert j * (j + 1) == (j - 1) * j + 2 * j;
    }
  }

  /** The two workers of a manager together walk the band once per head of the group. */
  lemma ManagerTotal(k: nat, n: nat, g: nat, manager: nat)
    requires 0 < k && 2 * n == k * g
    ensures JobTiles(64 * k, 64 * n, manager, 0) + JobTiles(64 * k, 64 * n, manager, 1) == g * BandSum(manager, k, k)
  {
    TilesAreBlocks(k, n, manager, 0, 0);
    TilesAreBlocks(k, n, manager, 1, 0);
    BlocksSplit(manager, k, 0, n, 2 * n);
    Walks(manager, k, g);
  }

  lemma BandSquare(manager: nat, k: nat, square: nat)
    requires square == k * k
    ensures 2 * BandSum(manager, k, k) == 2 * (manager * square) + square + k
  {
    BandTotal(manager, k, k);
    assert 2 * (manager * k) * k == 2 * (manager * (k * k));
    assert k * (k + 1) == k * k + k;
  }

  lemma FourSquares(k: nat, square: nat)
    requires square == k * k
    ensures (4 * k) * (4 * k + 1) == 16 * square + 4 * k
  {
    assert (4 * k) * (4 * k + 1) == (4 * k) * (4 * k) + 4 * k;
    assert (4 * k) * (4 * k) == 16 * (k * k);
  }

  lemma GroupTimes(g: nat, b0: nat, b1: nat, b2: nat, b3: nat)
    ensures 2 * (g * b0 + g * b1 + g * b2 + g * b3) == g * (2 * (b0 + b1 + b2 + b3))
  {}

  lemma AllTotal(k: nat, n: nat, g: nat)
    requires 0 < k && 2 * n == k * g
    ensures 2 * AllTiles(64 * k, 64 * n) == g * ((4 * k) * (4 * k + 1))
  {
    hide JobTiles, BandSum;
    ManagerTotal(k, n, g, 0);
    ManagerTotal(k, n, g, 1);
    ManagerTotal(k, n, g, 2);
    ManagerTotal(k, n, g, 3);
    var square := k * k;
    BandSquare(0, k, square);
    BandSquare(1, k, square);
    BandSquare(2, k, square);
    BandSquare(3, k, square);
    FourSquares(k, square);
    GroupTimes(g, BandSum(0, k, k), BandSum(1, k, k), BandSum(2, k, k), BandSum(3, k, k));
  }

  /** Sizes of an accepted configuration, in blocks. */
  lemma Sizes(hq: nat, hkv: nat, length: nat) returns (k: nat, n: nat, g: nat)
    requires Accepted(hq, hkv, length) && RowsPerWorker(Group(hq, hkv), length) % 64 == 0
    ensures 0 < k && length == 256 * k && g == Group(hq, hkv) && hq == g * hkv && 2 * n == k * g
    ensures RowsPerBand(length) == 64 * k && RowsPerWorker(g, length) == 64 * n
  {
    k := length / 256;
    g := if hq == hkv then 1 else if hq == 2 * hkv then 2 else 4;
    DivMod(hkv, g, 0, hq);
    n := RowsPerWorker(g, length) / 64;
    assert RowsPerBand(length) * g == 64 * (k * g);
  }

  /** The eight static workers' tiles, times the key heads, are exactly the causal tiles of all
      query heads. */
  lemma PartitionIsExact(hq: nat, hkv: nat, length: nat)
    requires Accepted(hq, hkv, length) && RowsPerWorker(Group(hq, hkv), length) % 64 == 0
    ensures 0 < RowsPerBand(length)
    ensures AllTiles(RowsPerBand(length), RowsPerWorker(Group(hq, hkv), length)) * hkv == QkTiles(hq, length)
  {
    hide AllTiles, RowsPerBand, RowsPerWorker, Group;
    var k, n, g := Sizes(hq, hkv, length);
    AllTotal(k, n, g);
    assert length / 64 == 4 * k;
    HeadsTimes(hq, hkv, g, 4 * k, AllTiles(64 * k, 64 * n));
  }

  lemma HeadsTimes(hq: nat, hkv: nat, g: nat, t: nat, all: nat)
    requires hq == g * hkv && 2 * all == g * (t * (t + 1))
    ensures hq * t * (t + 1) / 2 == all * hkv
  {
    var x := t * (t + 1);
    assert hq * t * (t + 1) == hq * x;
    assert (g * hkv) * x == (g * x) * hkv;
    assert (2 * all) * hkv == 2 * (all * hkv);
  }

  /** The busiest worker has at least an eighth of the work, so its floor is never below the
      perfect-overlap EXP term. */
  lemma StaticAtLeastPerfect(hq: nat, hkv: nat, length: nat, busiest: nat)
    requires Accepted(hq, hkv, length) && RowsPerWorker(Group(hq, hkv), length) % 64 == 0
    requires 0 < RowsPerBand(length)
    requires IsBusiest(RowsPerBand(length), RowsPerWorker(Group(hq, hkv), length), hkv, busiest)
    ensures CausalExp(hq, length) <= busiest * 256
  {
    PartitionIsExact(hq, hkv, length);
    var band, share := RowsPerBand(length), RowsPerWorker(Group(hq, hkv), length);
    LoadsAdd(band, share, hkv);
    hide Load, AllTiles, QkTiles;
    assert Load(band, share, hkv, 0, 0) <= busiest && Load(band, share, hkv, 0, 1) <= busiest;
    assert Load(band, share, hkv, 1, 0) <= busiest && Load(band, share, hkv, 1, 1) <= busiest;
    assert Load(band, share, hkv, 2, 0) <= busiest && Load(band, share, hkv, 2, 1) <= busiest;
    assert Load(band, share, hkv, 3, 0) <= busiest && Load(band, share, hkv, 3, 1) <= busiest;
  }

  lemma LoadsAdd(band: nat, share: nat, hkv: nat)
    requires 0 < band
    ensures AllTiles(band, share) * hkv ==
      Load(band, share, hkv, 0, 0) + Load(band, share, hkv, 0, 1)
      + Load(band, share, hkv, 1, 0) + Load(band, share, hkv, 1, 1)
      + Load(band, share, hkv, 2, 0) + Load(band, share, hkv, 2, 1)
      + Load(band, share, hkv, 3, 0) + Load(band, share, hkv, 3, 1)
  {
    hide JobTiles;
  }

  // ---------------------------------------------------------------- causal against dense

  lemma {:induction false} WindowsOf(k: nat)
    ensures Windows(4 * k) == 2 * (k * (k + 1))
    decreases k
  {
    if 0 < k {
      WindowsOf(k - 1);
      var n := 4 * k;
      assert Windows(n) == Windows(n - 1) + k;
      assert Windows(n - 1) == Windows(n - 2) + k;
      assert Windows(n - 2) == Windows(n - 3) + k;
      assert Windows(n - 3) == Windows(n - 4) + k;
      assert k * (k + 1) == (k - 1) * k + 2 * k;
    }
  }

  lemma CeilMono(a: nat, b: nat, c: nat)
    requires 0 < c && a <= b
    ensures CeilDiv(a, c) <= CeilDiv(b, c)
  {
    var x, y := (a + c - 1) / c, (b + c - 1) / c;
    assert a + c - 1 == c * x + (a + c - 1) % c && b + c - 1 == c * y + (b + c - 1) % c;
    if y < x {
      assert c * x == c * y + c * (x - y);
      MulAtLeast(c, x - y);
    }
  }

  /** Masking never costs cycles: the causal floor is at most the dense one. */
  lemma CausalAtMostDense(hq: nat, length: nat, dim: nat)
    requires 0 < length && length % 256 == 0
    ensures CausalFloor(hq, length, dim) <= DenseFloor(hq, length, length, dim)
  {
    var k := length / 256;
    var t := 4 * k;
    assert length == 64 * t;
    WindowsOf(k);
    var dense := hq * length * length;
    DenseTiles(hq, t, length);
    CausalTiles(hq, k, t);
    var qk, pv := QkTiles(hq, length), hq * Windows(t);
    hide QkTiles, Windows;
    assert qk * 64 * 64 <= dense;
    assert pv * 64 * 256 <= dense;
    Scaled(qk * 64 * 64, dense, dim);
    Scaled(pv * 64 * 256, dense, dim);
    hide CeilDiv;
    CeilMono(Macs(qk, 64 * 64, dim), dense * dim, 8 * 4096);
    CeilMono(Macs(pv, 64 * 256, dim), dense * dim, 8 * 4096);
    CeilMono(qk * 64 * 64, dense, 8 * 16);
  }

  lemma Scaled(a: nat, b: nat, d: nat)
    requires a <= b
    ensures a * d <= b * d
  {}

  lemma DenseTiles(hq: nat, t: nat, length: nat)
    requires length == 64 * t
    ensures hq * length * length == 4096 * (hq * (t * t))
  {
    assert length * length == 4096 * (t * t);
    assert hq * length * length == hq * (length * length);
  }

  lemma CausalTiles(hq: nat, k: nat, t: nat)
    requires 0 < k && t == 4 * k
    ensures hq * t * (t + 1) / 2 <= hq * (t * t)
    ensures 4 * (hq * (2 * (k * (k + 1)))) <= hq * (t * t)
  {
    assert t * t == 16 * (k * k);
    assert k <= k * k by { MulAtLeast(k, k); }
    assert t * (t + 1) <= 2 * (t * t);
    Scaled(t * (t + 1), 2 * (t * t), hq);
    assert hq * t * (t + 1) == (t * (t + 1)) * hq;
    assert 8 * (k * (k + 1)) <= t * t;
    Scaled(8 * (k * (k + 1)), t * t, hq);
  }
}
