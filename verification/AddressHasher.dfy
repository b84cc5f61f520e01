/** The address hasher: an address's bits gathered into fields, bank and rank numbers, and an
    address for every bank number. */
module AddressHasher {
  import opened Arithmetic
  import opened Bits
  import opened AddressMap

  /** Ranks per channel, bank groups per rank, banks per group. One pseudo channel per channel. */
  datatype Geometry = Geometry(channels: nat, ranks: nat, groups: nat, banks: nat) {
    ghost predicate Valid() { 0 < channels && 0 < ranks && 0 < groups && 0 < banks }

    function RankSize(): nat { groups * banks }
    function ChannelSize(): nat { ranks * RankSize() }
    function Total(): nat { channels * ChannelSize() }
  }

  datatype Place = Place(channel: nat, rank: nat, group: nat, bank: nat)

  ghost predicate InRange(g: Geometry, p: Place) {
    p.channel < g.channels && p.rank < g.ranks && p.group < g.groups && p.bank < g.banks
  }

  function BankId(g: Geometry, p: Place): nat {
    p.bank + p.group * g.banks + p.rank * g.RankSize() + p.channel * g.ChannelSize()
  }

  function RankId(g: Geometry, p: Place): nat { p.rank + p.channel * g.ranks }

  // ---------------------------------------------------------------- bank numbers

  /** A mixed-radix digit: `hi * size + lo` with `lo` below `size`. */
  lemma DigitBounds(hi: nat, n: nat, lo: nat, size: nat)
    requires hi < n && lo < size
    ensures hi * size + lo < n * size
  {
    assert n * size == hi * size + (n - hi) * size;
    MulAtLeast(size, n - hi);
    assert (n - hi) * size == size * (n - hi);
  }

  lemma DigitUnique(hi: nat, lo: nat, size: nat)
    requires lo < size
    ensures (hi * size + lo) / size == hi && (hi * size + lo) % size == lo
  {
    assert hi * size == size * hi;
    DivMod(size, hi, lo, hi * size + lo);
  }

  /** Splitting off one level by repeated subtraction, as the hasher does. */
  method SplitOff(x: nat, size: nat) returns (hi: nat, lo: nat)
    requires 0 < size
    ensures x == hi * size + lo && lo < size
  {
    hi, lo := 0, x;
    while lo >= size
      invariant x == hi * size + lo
      decreases lo
    {
      assert (hi + 1) * size == hi * size + size;
      lo := lo - size;
      hi := hi + 1;
    }
  }

  method Locate(g: Geometry, id: nat) returns (p: Place)
    requires g.Valid() && id < g.Total()
    ensures InRange(g, p) && BankId(g, p) == id
  {
    SizesPositive(g);
    var channel, r0 := SplitOff(id, g.ChannelSize());
    var rank, r1 := SplitOff(r0, g.RankSize());
    var group, bank := SplitOff(r1, g.banks);
    p := Place(channel, rank, group, bank);
    DigitBelow(channel, r0, g.ChannelSize(), g.channels, id);
    DigitBelow(rank, r1, g.RankSize(), g.ranks, r0);
    DigitBelow(group, bank, g.banks, g.groups, r1);
  }

  lemma SizesPositive(g: Geometry)
    requires g.Valid()
    ensures 0 < g.RankSize() && 0 < g.ChannelSize()
  {
    MulAtLeast(g.groups, g.banks);
    MulAtLeast(g.ranks, g.RankSize());
  }

  lemma DigitBelow(hi: nat, lo: nat, size: nat, n: nat, x: nat)
    requires x == hi * size + lo && x < n * size
    ensures hi < n
  {
    assert hi * size == n * size + (hi - n) * size;
  }

  function Digit(hi: nat, lo: nat, size: nat): nat { hi * size + lo }

  lemma DigitInjective(hi: nat, lo: nat, hi': nat, lo': nat, size: nat)
    requires lo < size && lo' < size && Digit(hi, lo, size) == Digit(hi', lo', size)
    ensures hi == hi' && lo == lo'
  {
    DigitUnique(hi, lo, size);
    DigitUnique(hi', lo', size);
  }

  ghost function InGroup(g: Geometry, p: Place): nat { Digit(p.group, p.bank, g.banks) }

  ghost function InRank(g: Geometry, p: Place): nat { Digit(p.rank, InGroup(g, p), g.RankSize()) }

  /** A bank number, level by level. */
  lemma Levels(g: Geometry, p: Place)
    requires g.Valid() && InRange(g, p)
    ensures InGroup(g, p) < g.RankSize() && InRank(g, p) < g.ChannelSize()
    ensures BankId(g, p) == Digit(p.channel, InRank(g, p), g.ChannelSize()) && BankId(g, p) < g.Total()
  {
    DigitBounds(p.group, g.groups, p.bank, g.banks);
    DigitBounds(p.rank, g.ranks, InGroup(g, p), g.RankSize());
    DigitBounds(p.channel, g.channels, InRank(g, p), g.ChannelSize());
  }

  /** Different places have different bank numbers. */
  lemma BankIdIsInjective(g: Geometry, p: Place, q: Place)
    requires g.Valid() && InRange(g, p) && InRange(g, q) && BankId(g, p) == BankId(g, q)
    ensures p == q
  {
    hide BankId, Digit, Geometry.ChannelSize, Geometry.RankSize, Geometry.Total;
    Levels(g, p);
    Levels(g, q);
    DigitInjective(p.channel, InRank(g, p), q.channel, InRank(g, q), g.ChannelSize());
    DigitInjective(p.rank, InGroup(g, p), q.rank, InGroup(g, q), g.RankSize());
    DigitInjective(p.group, p.bank, q.group, q.bank, g.banks);
  }

  /** The number of a bank's queue within its channel. */
  function QueueIndex(g: Geometry, p: Place): nat
    requires 0 < g.ChannelSize()
  {
    BankId(g, p) % g.ChannelSize()
  }

  lemma QueueIndexIs(g: Geometry, p: Place)
    requires g.Valid() && InRange(g, p)
    ensures 0 < g.ChannelSize() && QueueIndex(g, p) == InRank(g, p)
  {
    Levels(g, p);
    DigitUnique(p.channel, InRank(g, p), g.ChannelSize());
  }

  /** The command scheduler's queue of a bank, its channel and its number within the channel,
      belongs to no other bank. */
  lemma QueueIsUnique(g: Geometry, p: Place, q: Place)
    requires g.Valid() && InRange(g, p) && InRange(g, q) && 0 < g.ChannelSize()
    requires p.channel == q.channel && QueueIndex(g, p) == QueueIndex(g, q)
    ensures p == q
  {
    hide BankId, QueueIndex, InRank, Digit, Geometry.ChannelSize, Geometry.RankSize, Geometry.Total;
    QueueIndexIs(g, p);
    QueueIndexIs(g, q);
    Levels(g, p);
    Levels(g, q);
    BankIdIsInjective(g, p, q);
  }

  // ---------------------------------------------------------------- fields of an address

  ghost function Positions(layout: seq<char>, f: char): seq<nat> { PositionsOf(layout, f, 0) }

  /** `v` is field `f` of `addr`. */
  ghost predicate IsFieldOf(layout: seq<char>, addr: nat, f: char, v: nat) {
    var p := Positions(layout, f);
    forall i: nat :: Bit(v, i) == if i < |p| then Bit(addr, p[i]) else 0
  }

  /** A field has one value. */
  lemma FieldIsUnique(layout: seq<char>, addr: nat, f: char, v: nat, w: nat)
    requires IsFieldOf(layout, addr, f, v) && IsFieldOf(layout, addr, f, w)
    ensures v == w
  {
    SameBits(v, w);
  }

  /** Addresses with the same fields agree on every mapped bit outside `x`. */
  lemma HashIsInjective(layout: seq<char>, a: nat, b: nat, values: map<char, nat>, p: nat)
    requires forall f :: f in values ==> IsFieldOf(layout, a, f, values[f]) && IsFieldOf(layout, b, f, values[f])
    requires p < |layout| && layout[p] in values
    ensures Bit(a, p) == Bit(b, p)
  {
    var f := layout[p];
    PositionsExact(layout, f, 0, p);
    var list := Positions(layout, f);
    var i :| 0 <= i < |list| && list[i] == p;
    assert IsFieldOf(layout, a, f, values[f]) && IsFieldOf(layout, b, f, values[f]);
    assert Bit(values[f], i) == Bit(a, list[i]);
  }

  datatype Hashed = Hashed(place: Place, row: nat, col: nat, line: nat, bankId: nat, rankId: nat)

  ghost predicate IsHash(layout: seq<char>, g: Geometry, addr: nat, h: Hashed) {
    && IsFieldOf(layout, addr, 'C', h.place.channel) && IsFieldOf(layout, addr, 'R', h.place.rank)
    && IsFieldOf(layout, addr, 'B', h.place.group) && IsFieldOf(layout, addr, 'b', h.place.bank)
    && IsFieldOf(layout, addr, 'r', h.row) && IsFieldOf(layout, addr, 'l', h.col)
    && IsFieldOf(layout, addr, 'h', h.line)
    && h.bankId == BankId(g, h.place) && h.rankId == RankId(g, h.place)
  }

  /** The map has enough bits for every level of the hierarchy. */
  ghost predicate Fits(layout: seq<char>, g: Geometry) {
    && g.channels <= Shl(1, |Positions(layout, 'C')|) && g.ranks <= Shl(1, |Positions(layout, 'R')|)
    && g.groups <= Shl(1, |Positions(layout, 'B')|) && g.banks <= Shl(1, |Positions(layout, 'b')|)
  }

  /** Only bits of the fields `fs` are set. */
  ghost predicate OnlyIn(layout: seq<char>, fs: set<char>, x: nat) {
    forall j: nat :: Bit(x, j) != 0 ==> j < |layout| && layout[j] in fs
  }

  lemma PlacedIsField(layout: seq<char>, f: char, x: nat, v: nat)
    requires Placed(x, v, Positions(layout, f), |Positions(layout, f)|) && v < Shl(1, |Positions(layout, f)|)
    ensures IsFieldOf(layout, x, f, v) && OnlyIn(layout, {f}, x)
  {
    hide Bit, Shl, PositionsOf;
    var p := Positions(layout, f);
    assert p[..|p|] == p;
    forall i: nat
      ensures Bit(v, i) == if i < |p| then Bit(x, p[i]) else 0
    {
      if |p| <= i { HighBits(v, |p|, i); }
    }
    forall j: nat | Bit(x, j) != 0
      ensures j < |layout| && layout[j] in {f}
    {
      PositionsExact(layout, f, 0, j);
    }
  }

  /** Adding another field's bits adds that field and leaves the others alone. */
  lemma AddField(layout: seq<char>, fs: set<char>, x: nat, g: char, y: nat, v: nat, sum: nat)
    requires OnlyIn(layout, fs, x) && OnlyIn(layout, {g}, y) && g !in fs && IsFieldOf(layout, y, g, v) && sum == x + y
    ensures OnlyIn(layout, fs + {g}, sum) && IsFieldOf(layout, sum, g, v)
    ensures forall f, w :: f in fs && IsFieldOf(layout, x, f, w) ==> IsFieldOf(layout, sum, f, w)
  {
    hide Bit, PositionsOf;
    forall j: nat
      ensures Bit(x, j) == 0 || Bit(y, j) == 0
    {
    }
    forall j: nat
      ensures Bit(sum, j) == Bit(x, j) + Bit(y, j)
    {
      AddBits(x, y, j);
    }
    KeepsField(layout, {g}, y, fs, x, sum, g, v);
    forall f, w | f in fs && IsFieldOf(layout, x, f, w)
      ensures IsFieldOf(layout, sum, f, w)
    {
      KeepsField(layout, fs, x, {g}, y, sum, f, w);
    }
  }

  lemma KeepsField(layout: seq<char>, fs: set<char>, x: nat, gs: set<char>, y: nat, sum: nat, f: char, v: nat)
    requires IsFieldOf(layout, x, f, v) && OnlyIn(layout, gs, y) && f !in gs
    requires forall j: nat :: Bit(sum, j) == Bit(x, j) + Bit(y, j)
    ensures IsFieldOf(layout, sum, f, v)
  {
    hide Bit, PositionsOf;
    var p := Positions(layout, f);
    forall i: nat
      ensures Bit(v, i) == if i < |p| then Bit(sum, p[i]) else 0
    {
      if i < |p| {
        PositionsExact(layout, f, 0, p[i]);
        assert p[i] in p;
      }
    }
  }

  /** `addr` is an address of the bank at `p`. */
  ghost predicate IsAddressOf(layout: seq<char>, addr: nat, p: Place) {
    && IsFieldOf(layout, addr, 'b', p.bank) && IsFieldOf(layout, addr, 'B', p.group)
    && IsFieldOf(layout, addr, 'R', p.rank) && IsFieldOf(layout, addr, 'C', p.channel)
  }

  /** Hashing the address of a bank returns the bank's number, rank and channel. */
  lemma BankIdRoundTrip(layout: seq<char>, g: Geometry, addr: nat, p: Place, h: Hashed)
    requires IsAddressOf(layout, addr, p) && IsHash(layout, g, addr, h)
    ensures h.place == p && h.bankId == BankId(g, p) && h.rankId == RankId(g, p)
  {
    hide IsFieldOf;
    FieldIsUnique(layout, addr, 'b', p.bank, h.place.bank);
    FieldIsUnique(layout, addr, 'B', p.group, h.place.group);
    FieldIsUnique(layout, addr, 'R', p.rank, h.place.rank);
    FieldIsUnique(layout, addr, 'C', p.channel, h.place.channel);
  }

  ghost function UsedLayout(fields: seq<Field>, bits: map<char, nat>): seq<char> {
    Layout(if OnlyOrder(Layout(fields)) then Sized(fields, bits) else fields)
  }

  class Hasher {
    const g: Geometry
    const positions: map<char, seq<nat>>
    ghost const layout: seq<char>

    ghost predicate Valid() { g.Valid() && Lists(positions, layout) && Fits(layout, g) }

    /** The configuration check refuses maps with too few bits for the geometry. */
    constructor (fields: seq<Field>, bits: map<char, nat>, geometry: Geometry)
      requires geometry.Valid() && Fits(UsedLayout(fields, bits), geometry)
      ensures Valid() && g == geometry && layout == UsedLayout(fields, bits)
    {
      var p, total := BuildMap(fields, bits);
      g, positions, layout := geometry, p, UsedLayout(fields, bits);
    }

    method FieldOf(addr: nat, f: char) returns (v: nat)
      requires Valid()
      ensures IsFieldOf(layout, addr, f, v)
    {
      hide Bit;
      PositionsIncrease(layout, f, 0);
      assert PositionsOf(layout, f, 0) == if f in positions then positions[f] else [];
      if f in positions {
        v := Gather(addr, positions[f]);
      } else {
        v := 0;
        forall i: nat ensures Bit(0, i) == 0 { ZeroBit(i); }
      }
    }

    method FillHashedAddress(addr: nat) returns (h: Hashed)
      requires Valid()
      ensures IsHash(layout, g, addr, h)
    {
      hide IsFieldOf;
      var channel := FieldOf(addr, 'C');
      var rank := FieldOf(addr, 'R');
      var group := FieldOf(addr, 'B');
      var bank := FieldOf(addr, 'b');
      var row := FieldOf(addr, 'r');
      var col := FieldOf(addr, 'l');
      var line := FieldOf(addr, 'h');
      var place := Place(channel, rank, group, bank);
      h := Hashed(place, row, col, line, BankId(g, place), RankId(g, place));
    }

    /** The bits of one field of an address. */
    method Spread(f: char, v: nat) returns (x: nat)
      requires Valid() && v < Shl(1, |Positions(layout, f)|)
      ensures IsFieldOf(layout, x, f, v) && OnlyIn(layout, {f}, x)
    {
      PositionsIncrease(layout, f, 0);
      assert PositionsOf(layout, f, 0) == if f in positions then positions[f] else [];
      hide PositionsOf, Placed, Bit, IsFieldOf, OnlyIn;
      x := Scatter(v, if f in positions then positions[f] else []);
      PlacedIsField(layout, f, x, v);
    }

    /** getAddressForBankId: an address that hashes back to the bank. */
    method GetAddressForBankId(id: nat) returns (addr: nat, p: Place)
      requires Valid() && id < g.Total()
      ensures InRange(g, p) && BankId(g, p) == id && IsAddressOf(layout, addr, p)
    {
      var place := Locate(g, id);
      p := place;
      hide IsFieldOf, OnlyIn, Shl, BankId;
      var bank := Spread('b', place.bank);
      var group := Spread('B', place.group);
      var rank := Spread('R', place.rank);
      var channel := Spread('C', place.channel);
      var a1 := bank + group;
      AddField(layout, {'b'}, bank, 'B', group, place.group, a1);
      var a2 := a1 + rank;
      AddField(layout, {'b'} + {'B'}, a1, 'R', rank, place.rank, a2);
      addr := a2 + channel;
      AddField(layout, {'b'} + {'B'} + {'R'}, a2, 'C', channel, place.channel, addr);
    }

    /** Hashing the address made for a bank number gives the number back. */
    method RoundTrip(id: nat) returns (h: Hashed)
      requires Valid() && id < g.Total()
      ensures h.bankId == id && InRange(g, h.place) && h.rankId == RankId(g, h.place)
    {
      var addr, p := GetAddressForBankId(id);
      h := FillHashedAddress(addr);
      BankIdRoundTrip(layout, g, addr, p, h);
    }
  }
}
