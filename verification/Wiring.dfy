/** The hierarchy the driver builds: nested loops attach ranks to channels, bank groups to ranks
    and banks to groups. The tables agree with the hasher's bank and rank numbers. */
module Wiring {
  import opened Arithmetic
  import opened Dram
  import opened AddressHasher

  /** `table[x]` is the parent of child `x`, and the children of one parent are consecutive. */
  ghost predicate Attached(table: seq<nat>, parents: nat, each: nat) {
    && |table| == parents * each
    && forall q: nat, r: nat :: q < parents && r < each ==> Digit(q, r, each) < |table| && table[Digit(q, r, each)] == q
  }

  lemma InTable(q: nat, parents: nat, r: nat, each: nat)
    requires q < parents && r < each
    ensures Digit(q, r, each) < parents * each
  {
    DigitBounds(q, parents, r, each);
  }

  /** The wiring loops: children are numbered as they are attached. */
  method Attach(parents: nat, each: nat) returns (table: seq<nat>)
    ensures Attached(table, parents, each)
  {
    table := [];
    for i := 0 to parents
      invariant Attached(table, i, each)
    {
      ghost var had := table;
      for j := 0 to each
        invariant |table| == Digit(i, j, each) && had <= table
        invariant forall r: nat :: r < j ==> Digit(i, r, each) < |table| && table[Digit(i, r, each)] == i
      {
        table := table + [i];
      }
      AttachedMore(had, table, i, each);
    }
  }

  lemma AttachedMore(had: seq<nat>, table: seq<nat>, i: nat, each: nat)
    requires Attached(had, i, each) && had <= table && |table| == Digit(i, each, each)
    requires forall r: nat :: r < each ==> Digit(i, r, each) < |table| && table[Digit(i, r, each)] == i
    ensures Attached(table, i + 1, each)
  {
    assert (i + 1) * each == i * each + each;
    forall q: nat, r: nat | q < i + 1 && r < each
      ensures Digit(q, r, each) < |table| && table[Digit(q, r, each)] == q
    {
      if q < i { assert had[Digit(q, r, each)] == q; }
    }
  }

  /** The children of one parent, in order. */
  ghost function Children(parent: nat, each: nat): seq<nat> { seq(each, j requires 0 <= j => Digit(parent, j, each)) }

  method ListChildren(parents: nat, each: nat) returns (lists: seq<seq<nat>>)
    ensures |lists| == parents && forall i :: 0 <= i < parents ==> lists[i] == Children(i, each)
  {
    lists := [];
    for i := 0 to parents
      invariant |lists| == i && forall k :: 0 <= k < i ==> lists[k] == Children(k, each)
    {
      var list := [];
      for j := 0 to each
        invariant list == seq(j, k requires 0 <= k => Digit(i, k, each))
      {
        list := list + [Digit(i, j, each)];
      }
      lists := lists + [list];
    }
  }

  // ---------------------------------------------------------------- levels of numbers

  lemma Split(x: nat, parents: nat, each: nat) returns (q: nat, r: nat)
    requires 0 < each && x < parents * each
    ensures q < parents && r < each && x == Digit(q, r, each)
  {
    q, r := x / each, x % each;
    assert x == each * q + r && each * q == q * each;
    DigitBelow(q, r, each, parents, x);
  }

  lemma DigitAssoc(a: nat, b: nat, c: nat, m: nat, n: nat)
    ensures Digit(a, Digit(b, c, n), m * n) == Digit(Digit(a, b, m), c, n)
  {
    assert a * (m * n) == (a * m) * n;
    assert (a * m + b) * n == (a * m) * n + b * n;
  }

  lemma ProductPositive(a: nat, b: nat)
    requires 0 < a && 0 < b
    ensures 0 < a * b
  {
    MulAtLeast(a, b);
  }

  lemma ParentBelow(table: seq<nat>, parents: nat, each: nat, x: nat)
    requires Attached(table, parents, each) && x < |table| && 0 < each
    ensures table[x] < parents
  {
    var q, r := Split(x, parents, each);
    hide Digit;
  }

  /** The tables of a wired memory. */
  ghost predicate Wired(c: Config, g: Geometry) {
    && g.Valid() && c.channels == g.channels
    && Attached(c.channelOfRank, g.channels, g.ranks)
    && Attached(c.rankOfGroup, g.channels * g.ranks, g.groups)
    && Attached(c.groupOf, g.channels * g.ranks * g.groups, g.banks)
    && |c.banksOfRank| == g.channels * g.ranks
    && (forall r :: 0 <= r < |c.banksOfRank| ==> c.banksOfRank[r] == Children(r, g.RankSize()))
    && |c.banksOfChannel| == g.channels
    && (forall ch :: 0 <= ch < |c.banksOfChannel| ==> c.banksOfChannel[ch] == Children(ch, g.ChannelSize()))
  }

  /** Bank `bank` of group `group` of rank number `rank`. */
  lemma RankOfBank(c: Config, g: Geometry, rank: nat, group: nat, bank: nat)
    requires Wired(c, g) && rank < g.channels * g.ranks && group < g.groups && bank < g.banks
    ensures var id := Digit(rank, Digit(group, bank, g.banks), g.RankSize());
      id < c.Banks() && c.GroupOf(id) == Digit(rank, group, g.groups) && c.RankOf(id) == rank
  {
    DigitAssoc(rank, group, bank, g.groups, g.banks);
    InTable(rank, g.channels * g.ranks, group, g.groups);
    hide Digit;
    assert c.groupOf[Digit(Digit(rank, group, g.groups), bank, g.banks)] == Digit(rank, group, g.groups);
    assert c.rankOfGroup[Digit(rank, group, g.groups)] == rank;
  }

  /** The hasher's bank and rank numbers are the driver's. */
  lemma HasherAgrees(c: Config, g: Geometry, p: Place)
    requires Wired(c, g) && InRange(g, p)
    ensures var id := BankId(g, p);
      && id < c.Banks() && c.RankOf(id) == RankId(g, p) && RankId(g, p) < c.Ranks() && c.ChannelOf(id) == p.channel
      && c.GroupOf(id) == Digit(RankId(g, p), p.group, g.groups)
  {
    Levels(g, p);
    InTable(p.channel, g.channels, p.rank, g.ranks);
    DigitAssoc(p.channel, p.rank, InGroup(g, p), g.ranks, g.RankSize());
    RankIdIs(g, p);
    hide Digit, BankId;
    RankOfBank(c, g, RankId(g, p), p.group, p.bank);
    assert c.channelOfRank[Digit(p.channel, p.rank, g.ranks)] == p.channel;
  }

  lemma RankIdIs(g: Geometry, p: Place)
    ensures RankId(g, p) == Digit(p.channel, p.rank, g.ranks)
  {}

  lemma RankListOk(c: Config, g: Geometry, r: nat)
    requires Wired(c, g) && r < g.channels * g.ranks && |c.channelOfRank| == |c.banksOfRank|
    ensures c.banksOfRank[r] != [] && c.BanksOf(r, c.banksOfRank[r])
  {
    var size := g.RankSize();
    ProductPositive(g.groups, g.banks);
    var list := c.banksOfRank[r];
    forall j | 0 <= j < |list|
      ensures list[j] < c.Banks() && c.RankOf(list[j]) == r
    {
      var group, bank := Split(j, g.groups, g.banks);
      RankOfBank(c, g, r, group, bank);
    }
    ChildrenDiffer(r, size);
  }

  lemma ChildrenDiffer(parent: nat, each: nat)
    ensures forall i, j :: 0 <= i < j < each ==> Children(parent, each)[i] != Children(parent, each)[j]
  {}

  lemma ChannelListOk(c: Config, g: Geometry, ch: nat, i: nat)
    requires Wired(c, g) && ch < g.channels && i < |c.banksOfChannel[ch]|
    ensures c.banksOfChannel[ch][i] < c.Banks()
  {
    InTable(ch, g.channels, i, g.ChannelSize());
    TotalIs(g);
  }

  lemma TotalIs(g: Geometry)
    ensures g.Total() == g.channels * g.ranks * g.groups * g.banks
  {
    assert g.ranks * (g.groups * g.banks) == (g.ranks * g.groups) * g.banks;
    assert g.channels * ((g.ranks * g.groups) * g.banks) == (g.channels * (g.ranks * g.groups)) * g.banks;
    assert g.channels * (g.ranks * g.groups) == (g.channels * g.ranks) * g.groups;
  }

  /** A wired memory is a well-formed configuration. */
  lemma WiredIsValid(c: Config, g: Geometry)
    requires Wired(c, g) && c.p.Valid()
    ensures c.Valid() && c.Banks() == g.Total() && c.Ranks() == g.channels * g.ranks
  {
    hide Digit, Children;
    TotalIs(g);
    forall b | 0 <= b < |c.groupOf| ensures c.groupOf[b] < |c.rankOfGroup| {
      ParentBelow(c.groupOf, g.channels * g.ranks * g.groups, g.banks, b);
    }
    forall x | 0 <= x < |c.rankOfGroup| ensures c.rankOfGroup[x] < |c.channelOfRank| {
      ParentBelow(c.rankOfGroup, g.channels * g.ranks, g.groups, x);
    }
    forall r | 0 <= r < |c.channelOfRank| ensures c.channelOfRank[r] < c.channels {
      ParentBelow(c.channelOfRank, g.channels, g.ranks, r);
    }
    forall r | 0 <= r < |c.banksOfRank| ensures c.banksOfRank[r] != [] && c.BanksOf(r, c.banksOfRank[r]) {
      RankListOk(c, g, r);
    }
    forall ch, i | 0 <= ch < c.channels && 0 <= i < |c.banksOfChannel[ch]|
      ensures c.banksOfChannel[ch][i] < |c.groupOf|
    {
      ChannelListOk(c, g, ch, i);
    }
  }

  /** build: every accepted geometry gives a well-formed hierarchy. */
  method Wire(g: Geometry, dualBus: bool, multiCycleAct: bool, useRefresh: bool, singleBankRefresh: bool, p: Params)
    returns (c: Config)
    requires g.Valid() && p.Valid()
    ensures Wired(c, g) && c.Valid() && c.Banks() == g.Total() && c.Ranks() == g.channels * g.ranks
    ensures c.dualBus == dualBus && c.multiCycleAct == multiCycleAct && c.useRefresh == useRefresh
    ensures c.singleBankRefresh == singleBankRefresh && c.p == p
  {
    var channelOfRank := Attach(g.channels, g.ranks);
    var rankOfGroup := Attach(g.channels * g.ranks, g.groups);
    var groupOf := Attach(g.channels * g.ranks * g.groups, g.banks);
    var banksOfRank := ListChildren(g.channels * g.ranks, g.RankSize());
    var banksOfChannel := ListChildren(g.channels, g.ChannelSize());
    c := Config(g.channels, groupOf, rankOfGroup, channelOfRank, banksOfRank, banksOfChannel,
                dualBus, multiCycleAct, useRefresh, singleBankRefresh, p);
    WiredIsValid(c, g);
  }
}
