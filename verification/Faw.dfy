/** The four-activate window: a rank never sees more than four ACTs in nFAW consecutive
    cycles. The trace is the judge; the shift registers are shown to count it. */
module Faw {
  import opened Dram
  import opened DriverModel
  import opened Spacing

  ghost predicate IsActOf(c: Config, e: Event, rank: nat)
    requires c.Valid()
  {
    e.cmd.kind == ACT && c.RankOf(e.cmd.bank) == rank
  }

  /** ACTs of `rank` in the cycles from `lo` up to, but not including, `hi`. */
  ghost function ActsIn(c: Config, trace: seq<Event>, rank: nat, lo: int, hi: int): nat
    requires c.Valid()
  {
    if trace == [] then 0
    else
      var e := trace[|trace| - 1];
      ActsIn(c, trace[..|trace| - 1], rank, lo, hi)
      + (if IsActOf(c, e, rank) && lo <= e.cycle < hi then 1 else 0)
  }

  /** ACTs of `rank` in the nFAW cycles from `lo` on. */
  ghost function Window(c: Config, trace: seq<Event>, rank: nat, lo: int): nat
    requires c.Valid()
  {
    ActsIn(c, trace, rank, lo, lo + c.p.nFAW)
  }

  ghost predicate FawSafe(c: Config, trace: seq<Event>)
    requires c.Valid()
  {
    forall rank: nat, lo: int :: Window(c, trace, rank, lo) <= 4
  }

  /** ACTs of `rank` in one cycle. */
  ghost function ActsAt(c: Config, trace: seq<Event>, rank: nat, cycle: int): nat
    requires c.Valid()
  {
    ActsIn(c, trace, rank, cycle, cycle + 1)
  }

  /** No rank has two ACTs in one cycle. */
  ghost predicate SingleActs(c: Config, trace: seq<Event>)
    requires c.Valid()
  {
    forall rank: nat, cycle: int :: ActsAt(c, trace, rank, cycle) <= 1
  }

  /** The same, pair by pair. */
  ghost predicate ActsApart(c: Config, trace: seq<Event>)
    requires c.Valid()
  {
    forall m, n :: 0 <= m < n < |trace| && BothActs(c, trace[m], trace[n]) ==> trace[m].cycle != trace[n].cycle
  }

  ghost predicate BothActs(c: Config, a: Event, b: Event) {
    a.cmd.kind == ACT && b.cmd.kind == ACT && c.RankOf(a.cmd.bank) == c.RankOf(b.cmd.bank)
  }

  lemma {:induction false} ActsSeen(c: Config, trace: seq<Event>, m: nat, rank: nat, lo: int, hi: int)
    requires c.Valid() && m < |trace| && IsActOf(c, trace[m], rank) && lo <= trace[m].cycle < hi
    ensures 1 <= ActsIn(c, trace, rank, lo, hi)
  {
    if m < |trace| - 1 { ActsSeen(c, trace[..|trace| - 1], m, rank, lo, hi); }
  }

  lemma {:induction false} SingleActsApart(c: Config, trace: seq<Event>)
    requires c.Valid() && SingleActs(c, trace)
    ensures ActsApart(c, trace)
  {
    if trace != [] {
      var n := |trace| - 1;
      var init, last := trace[..n], trace[n];
      forall rank: nat, cycle: int
        ensures ActsAt(c, init, rank, cycle) <= 1
      {
        assert ActsAt(c, trace, rank, cycle) <= 1;
      }
      SingleActsApart(c, init);
      forall m | 0 <= m < n && BothActs(c, trace[m], last)
        ensures trace[m].cycle != last.cycle
      {
        var rank, cycle := c.RankOf(last.cmd.bank), last.cycle;
        assert ActsAt(c, trace, rank, cycle) <= 1;
        if trace[m].cycle == cycle { ActsSeen(c, init, m, rank, cycle, cycle + 1); }
      }
      forall k, m | 0 <= k < m < |trace| && BothActs(c, trace[k], trace[m])
        ensures trace[k].cycle != trace[m].cycle
      {
        if m < n { assert init[k] == trace[k] && init[m] == trace[m]; }
      }
    }
  }

  lemma ActsAppend(c: Config, trace: seq<Event>, e: Event, rank: nat, lo: int, hi: int)
    requires c.Valid()
    ensures ActsIn(c, trace + [e], rank, lo, hi) ==
            ActsIn(c, trace, rank, lo, hi) + (if IsActOf(c, e, rank) && lo <= e.cycle < hi then 1 else 0)
  {
    assert (trace + [e])[..|trace|] == trace;
  }

  lemma {:induction false} ActsSplit(c: Config, trace: seq<Event>, rank: nat, lo: int, mid: int, hi: int)
    requires c.Valid() && lo <= mid <= hi
    ensures ActsIn(c, trace, rank, lo, hi) == ActsIn(c, trace, rank, lo, mid) + ActsIn(c, trace, rank, mid, hi)
  {
    if trace != [] { ActsSplit(c, trace[..|trace| - 1], rank, lo, mid, hi); }
  }

  /** A later start and a later end never add events when the trace ends before `hi`. */
  lemma {:induction false} ActsLater(c: Config, trace: seq<Event>, rank: nat, lo: int, hi: int, lo': int, hi': int)
    requires c.Valid() && lo <= lo'
    requires forall n :: 0 <= n < |trace| ==> trace[n].cycle < hi
    ensures ActsIn(c, trace, rank, lo', hi') <= ActsIn(c, trace, rank, lo, hi)
  {
    if trace != [] { ActsLater(c, trace[..|trace| - 1], rank, lo, hi, lo', hi'); }
  }

  lemma {:induction false} NoActsAhead(c: Config, trace: seq<Event>, rank: nat, lo: int, hi: int)
    requires c.Valid() && forall n :: 0 <= n < |trace| ==> trace[n].cycle < lo
    ensures ActsIn(c, trace, rank, lo, hi) == 0
  {
    if trace != [] { NoActsAhead(c, trace[..|trace| - 1], rank, lo, hi); }
  }

  /** Register `reg` holds the ACT counts of consecutive cycles starting at `lo`. */
  ghost predicate Counts(c: Config, trace: seq<Event>, rank: nat, reg: seq<nat>, lo: int)
    requires c.Valid()
  {
    forall j :: 0 <= j < |reg| ==> reg[j] == ActsIn(c, trace, rank, lo + j, lo + j + 1)
  }

  lemma {:induction false} CountsSum(c: Config, trace: seq<Event>, rank: nat, reg: seq<nat>, lo: int)
    requires c.Valid() && Counts(c, trace, rank, reg, lo)
    ensures Sum(reg) == ActsIn(c, trace, rank, lo, lo + |reg|)
  {
    if reg == [] {
      EmptyWindow(c, trace, rank, lo);
    } else {
      assert reg[0] == ActsIn(c, trace, rank, lo + 0, lo + 0 + 1);
      forall j | 0 <= j < |reg[1..]|
        ensures reg[1..][j] == ActsIn(c, trace, rank, (lo + 1) + j, (lo + 1) + j + 1)
      {
        assert reg[j + 1] == ActsIn(c, trace, rank, lo + (j + 1), lo + (j + 1) + 1);
      }
      CountsSum(c, trace, rank, reg[1..], lo + 1);
      ActsSplit(c, trace, rank, lo, lo + 1, lo + |reg|);
    }
  }

  lemma {:induction false} EmptyWindow(c: Config, trace: seq<Event>, rank: nat, lo: int)
    requires c.Valid()
    ensures ActsIn(c, trace, rank, lo, lo) == 0
  {
    if trace != [] { EmptyWindow(c, trace[..|trace| - 1], rank, lo); }
  }

  // ---------------------------------------------------------------- invariant of a cycle

  /** The registers hold the nFAW - 1 cycles before `now`, the flags the cycle `now`. */
  ghost predicate FawOn(c: Config, trace: seq<Event>, faw: seq<seq<nat>>, actIssued: seq<bool>, now: nat)
    requires c.Valid() && |faw| == |actIssued|
  {
    && FawSafe(c, trace) && SingleActs(c, trace)
    && forall r :: 0 <= r < |faw| ==>
      && Counts(c, trace, r, faw[r], now - (c.p.nFAW - 1))
      && ActsIn(c, trace, r, now, now + 1) == (if actIssued[r] then 1 else 0)
  }

  ghost predicate FawInv(c: Config, d: Driver)
    requires Shape(c, d)
  {
    FawOn(c, d.trace, d.faw, d.actIssued, d.now)
  }

  lemma FawUpdate(c: Config, d: Driver)
    requires Shape(c, d) && FawInv(c, d) && PastEvents(d.trace, d.now)
    ensures FawInv(c, Update(c, d))
  {
    var d' := Update(c, d);
    forall r | 0 <= r < c.Ranks()
      ensures Counts(c, d'.trace, r, d'.faw[r], d'.now - (c.p.nFAW - 1))
      ensures ActsIn(c, d'.trace, r, d'.now, d'.now + 1) == (if d'.actIssued[r] then 1 else 0)
    {
      NoActsAhead(c, d.trace, r, d'.now, d'.now + 1);
      var long := d.faw[r] + [if d.actIssued[r] then 1 else 0];
      forall j | 0 <= j < |d'.faw[r]|
        ensures d'.faw[r][j] == ActsIn(c, d'.trace, r, d'.now - (c.p.nFAW - 1) + j, d'.now - (c.p.nFAW - 1) + j + 1)
      {
        assert d'.faw[r][j] == long[j + 1];
        if j + 1 < |d.faw[r]| {
          assert d.faw[r][j + 1] ==
            ActsIn(c, d.trace, r, d.now - (c.p.nFAW - 1) + (j + 1), d.now - (c.p.nFAW - 1) + (j + 1) + 1);
        }
      }
    }
  }

  /** An issued command keeps every window within four ACTs; an ACT needs fewer than four in
      the registers and none yet in this cycle. */
  lemma FawIssue(c: Config, d: Driver, cmd: Command)
    requires Shape(c, d) && FawInv(c, d) && PastEvents(d.trace, d.now) && WfBank(c, cmd.bank)
    requires cmd.kind == ACT ==> Sum(d.faw[c.RankOf(cmd.bank)]) < 4 && !d.actIssued[c.RankOf(cmd.bank)]
    ensures FawSafe(c, d.trace + [Event(d.now, cmd)]) && SingleActs(c, d.trace + [Event(d.now, cmd)])
  {
    var e := Event(d.now, cmd);
    forall rank: nat, cycle: int
      ensures ActsAt(c, d.trace + [e], rank, cycle) <= 1
    {
      ActsAppend(c, d.trace, e, rank, cycle, cycle + 1);
      assert ActsAt(c, d.trace, rank, cycle) <= 1;
      if IsActOf(c, e, rank) { assert ActsIn(c, d.trace, rank, d.now, d.now + 1) == 0; }
    }
    forall rank: nat, lo: int
      ensures Window(c, d.trace + [e], rank, lo) <= 4
    {
      ActsAppend(c, d.trace, e, rank, lo, lo + c.p.nFAW);
      assert Window(c, d.trace, rank, lo) <= 4;
      if IsActOf(c, e, rank) && lo <= d.now < lo + c.p.nFAW {
        WindowHasRoom(c, d, rank, lo);
      }
    }
  }

  /** The registers still hold the cycles before `now`; only this cycle's count can change. */
  lemma CountsIssue(c: Config, d: Driver, cmd: Command, r: nat)
    requires Shape(c, d) && FawInv(c, d) && r < c.Ranks()
    ensures Counts(c, d.trace + [Event(d.now, cmd)], r, d.faw[r], d.now - (c.p.nFAW - 1))
    ensures ActsIn(c, d.trace + [Event(d.now, cmd)], r, d.now, d.now + 1) ==
            (if d.actIssued[r] then 1 else 0) + (if IsActOf(c, Event(d.now, cmd), r) then 1 else 0)
  {
    var e := Event(d.now, cmd);
    var lo := d.now - (c.p.nFAW - 1);
    ActsAppend(c, d.trace, e, r, d.now, d.now + 1);
    forall j | 0 <= j < |d.faw[r]|
      ensures d.faw[r][j] == ActsIn(c, d.trace + [e], r, lo + j, lo + j + 1)
    {
      ActsAppend(c, d.trace, e, r, lo + j, lo + j + 1);
    }
  }

  /** Fewer than four ACTs in the registers and none now leave room in every window over `now`. */
  lemma WindowHasRoom(c: Config, d: Driver, rank: nat, lo: int)
    requires Shape(c, d) && FawInv(c, d) && PastEvents(d.trace, d.now)
    requires rank < c.Ranks() && Sum(d.faw[rank]) < 4 && !d.actIssued[rank]
    requires lo <= d.now < lo + c.p.nFAW
    ensures ActsIn(c, d.trace, rank, lo, lo + c.p.nFAW) < 4
  {
    var start := d.now - (c.p.nFAW - 1);
    CountsSum(c, d.trace, rank, d.faw[rank], start);
    ActsSplit(c, d.trace, rank, start, d.now, d.now + 1);
    ActsLater(c, d.trace, rank, start, d.now + 1, lo, lo + c.p.nFAW);
  }

  lemma InitialFaw(c: Config)
    requires c.Valid()
    ensures FawInv(c, Initial(c))
  {
    var d := Initial(c);
    forall r | 0 <= r < c.Ranks()
      ensures Counts(c, d.trace, r, d.faw[r], d.now - (c.p.nFAW - 1))
    {
      assert d.faw[r] == seq(c.p.nFAW - 1, i => 0);
    }
  }
}
