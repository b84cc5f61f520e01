/** Binary digits of natural numbers, and gathering and scattering them. */
module Bits {
  import opened Sequences

  function Bit(x: nat, i: nat): (b: nat)
    ensures b <= 1
  {
    if i == 0 then x % 2 else Bit(x / 2, i - 1)
  }

  function Shl(x: nat, n: nat): nat { if n == 0 then x else 2 * Shl(x, n - 1) }

  /** Bitwise or. */
  function Or(x: nat, y: nat): nat
    decreases x + y
  {
    if x == 0 then y
    else if y == 0 then x
    else 2 * Or(x / 2, y / 2) + (if x % 2 == 1 || y % 2 == 1 then 1 else 0)
  }

  /** No bit is set in both. */
  ghost predicate NoCommon(x: nat, y: nat) { forall i: nat :: Bit(x, i) == 0 || Bit(y, i) == 0 }

  lemma {:induction false} ZeroBit(i: nat)
    ensures Bit(0, i) == 0
    decreases i
  {
    if 0 < i { ZeroBit(i - 1); }
  }

  lemma NoCommonHalf(x: nat, y: nat)
    requires NoCommon(x, y)
    ensures NoCommon(x / 2, y / 2) && (x % 2 == 0 || y % 2 == 0)
  {
    forall i: nat
      ensures Bit(x / 2, i) == 0 || Bit(y / 2, i) == 0
    {
      assert Bit(x, i + 1) == Bit(x / 2, i) && Bit(y, i + 1) == Bit(y / 2, i);
    }
    assert Bit(x, 0) == 0 || Bit(y, 0) == 0;
  }

  /** Without common bits, adding is or-ing, bit by bit. */
  lemma {:induction false} AddBits(x: nat, y: nat, i: nat)
    requires NoCommon(x, y)
    ensures Bit(x + y, i) == Bit(x, i) + Bit(y, i)
    decreases i
  {
    NoCommonHalf(x, y);
    if 0 < i {
      assert (x + y) / 2 == x / 2 + y / 2;
      AddBits(x / 2, y / 2, i - 1);
    }
  }

  lemma {:induction false} OrIsAdd(x: nat, y: nat)
    requires NoCommon(x, y)
    ensures Or(x, y) == x + y
    decreases x + y
  {
    if x != 0 && y != 0 {
      NoCommonHalf(x, y);
      OrIsAdd(x / 2, y / 2);
    }
  }

  lemma {:induction false} ShlBit(b: nat, n: nat, i: nat)
    requires b <= 1
    ensures Bit(Shl(b, n), i) == if i == n then b else 0
    decreases n
  {
    if n == 0 {
      if 0 < i { ZeroBit(i - 1); }
    } else {
      assert Shl(b, n) / 2 == Shl(b, n - 1) && Shl(b, n) % 2 == 0;
      if 0 < i { ShlBit(b, n - 1, i - 1); }
    }
  }

  /** Numbers are equal when all their bits are. */
  lemma {:induction false} SameBits(x: nat, y: nat)
    requires forall i: nat :: Bit(x, i) == Bit(y, i)
    ensures x == y
    decreases x + y
  {
    assert Bit(x, 0) == Bit(y, 0);
    if x != 0 || y != 0 {
      forall i: nat
        ensures Bit(x / 2, i) == Bit(y / 2, i)
      {
        assert Bit(x, i + 1) == Bit(y, i + 1);
      }
      SameBits(x / 2, y / 2);
    }
  }

  lemma {:induction false} HighBits(x: nat, n: nat, i: nat)
    requires x < Shl(1, n) && n <= i
    ensures Bit(x, i) == 0
    decreases i
  {
    if n == 0 {
      ZeroBit(i);
    } else {
      HighBits(x / 2, n - 1, i - 1);
    }
  }

  // ---------------------------------------------------------------- gather and scatter

  /** Positions in increasing order are never below their own index. */
  lemma {:induction false} AtLeastIndex(p: seq<nat>, i: nat)
    requires Increasing(p) && i < |p|
    ensures i <= p[i]
    decreases i
  {
    if 0 < i { AtLeastIndex(p, i - 1); }
  }

  /** Setting a clear bit, by adding or by or-ing. */
  lemma SetBit(r: nat, b: nat, k: nat, r': nat)
    requires Bit(r, k) == 0 && b <= 1 && (r' == r + Shl(b, k) || r' == Or(r, Shl(b, k)))
    ensures forall i: nat :: Bit(r', i) == if i == k then b else Bit(r, i)
  {
    var bit := Shl(b, k);
    forall i: nat
      ensures Bit(bit, i) == if i == k then b else 0
    {
      ShlBit(b, k, i);
    }
    assert NoCommon(r, bit);
    OrIsAdd(r, bit);
    forall i: nat
      ensures Bit(r', i) == if i == k then b else Bit(r, i)
    {
      AddBits(r, bit, i);
    }
  }

  /** The bits of `x` at the listed positions, packed. */
  method Gather(x: nat, p: seq<nat>) returns (r: nat)
    requires Increasing(p)
    ensures forall i: nat :: Bit(r, i) == if i < |p| then Bit(x, p[i]) else 0
  {
    hide Bit, Shl, Or;
    r := 0;
    forall i: nat ensures Bit(0, i) == 0 { ZeroBit(i); }
    for k := 0 to |p|
      invariant forall i: nat :: Bit(r, i) == if i < k then Bit(x, p[i]) else 0
    {
      AtLeastIndex(p, k);
      var next := Or(r, MaskShift(x, p[k], p[k] - k));
      SetBit(r, Bit(x, p[k]), k, next);
      r := next;
    }
  }

  /** Bit `pos` of `x`, moved down by `down` places. */
  function MaskShift(x: nat, pos: nat, down: nat): nat
    requires down <= pos
  {
    Shl(Bit(x, pos), pos - down)
  }

  /** `left` is `v` without its lowest `k` bits. */
  ghost predicate ShiftedBy(left: nat, v: nat, k: nat) {
    forall i: nat {:trigger Bit(left, i)} :: Bit(left, i) == Bit(v, k + i)
  }

  /** The lowest `k` bits of `v` are at the first `k` positions of `r`, and nothing else is set. */
  ghost predicate Placed(r: nat, v: nat, p: seq<nat>, k: nat)
    requires k <= |p|
  {
    && (forall i :: 0 <= i < k ==> Bit(r, p[i]) == Bit(v, i))
    && (forall j: nat :: j !in p[..k] ==> Bit(r, j) == 0)
  }

  lemma HalfShifts(left: nat, v: nat, k: nat)
    requires ShiftedBy(left, v, k)
    ensures left % 2 == Bit(v, k) && ShiftedBy(left / 2, v, k + 1)
  {
    assert Bit(left, 0) == Bit(v, k + 0);
    forall i: nat
      ensures Bit(left / 2, i) == Bit(v, k + 1 + i)
    {
      assert Bit(left, i + 1) == Bit(v, k + (i + 1));
    }
  }

  lemma PlaceNext(r: nat, v: nat, p: seq<nat>, k: nat, r': nat)
    requires Increasing(p) && k < |p| && Placed(r, v, p, k) && r' == r + Shl(Bit(v, k), p[k])
    ensures Placed(r', v, p, k + 1)
  {
    hide Bit, Shl;
    assert p[k] !in p[..k];
    SetBit(r, Bit(v, k), p[k], r');
    forall i | 0 <= i < k + 1
      ensures Bit(r', p[i]) == Bit(v, i)
    {
      assert i < k ==> p[i] < p[k];
    }
    forall j: nat | j !in p[..k + 1]
      ensures Bit(r', j) == 0
    {
      assert p[..k + 1] == p[..k] + [p[k]];
    }
  }

  lemma PlacedRest(r: nat, v: nat, p: seq<nat>, k: nat)
    requires Increasing(p) && k <= |p| && Placed(r, v, p, k) && ShiftedBy(0, v, k)
    ensures Placed(r, v, p, |p|)
  {
    hide Bit;
    forall i | k <= i < |p|
      ensures Bit(r, p[i]) == Bit(v, i)
    {
      assert Bit(0, i - k) == Bit(v, k + (i - k));
      ZeroBit(i - k);
      assert p[i] !in p[..k];
    }
    forall j: nat | j !in p[..|p|]
      ensures Bit(r, j) == 0
    {
      assert j !in p[..k];
    }
  }

  lemma PlacedNone(v: nat, p: seq<nat>)
    ensures Placed(0, v, p, 0) && ShiftedBy(v, v, 0)
  {
    forall i: nat ensures Bit(0, i) == 0 { ZeroBit(i); }
  }

  lemma ShlHalves(left: nat, n: nat)
    requires left < Shl(1, n) && left != 0
    ensures 0 < n && left / 2 < Shl(1, n - 1)
  {}

  /** The bits of `v` put at the listed positions. */
  method Scatter(v: nat, p: seq<nat>) returns (r: nat)
    requires Increasing(p) && v < Shl(1, |p|)
    ensures Placed(r, v, p, |p|)
  {
    hide Bit, Shl, Placed, ShiftedBy;
    r := 0;
    var left: nat, k := v, 0;
    PlacedNone(v, p);
    while left != 0
      invariant 0 <= k <= |p| && left < Shl(1, |p| - k)
      invariant ShiftedBy(left, v, k) && Placed(r, v, p, k)
      decreases left
    {
      ShlHalves(left, |p| - k);
      HalfShifts(left, v, k);
      var next := r + Shl(left % 2, p[k]);
      PlaceNext(r, v, p, k, next);
      r := next;
      left := left / 2;
      k := k + 1;
    }
    PlacedRest(r, v, p, k);
  }
}
