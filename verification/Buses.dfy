/** The command buses, judged on the trace: what a channel receives in one cycle is one refresh group,
    or one command, or with a dual bus one column and one row command. */
module Buses {
  import opened Dram
  import opened DriverModel
  import opened RefreshSafety
  import opened CycleEvents

  /** Both are commands of one refresh group. */
  ghost predicate OneGroup(c: Config, e: Event, f: Event) {
    && e.cmd.origin == Refresh && f.cmd.origin == Refresh && e.cmd.kind == f.cmd.kind
    && c.RankOf(e.cmd.bank) == c.RankOf(f.cmd.bank)
  }

  /** They may reach one channel in one cycle. */
  ghost predicate MayShare(c: Config, e: Event, f: Event) {
    OneGroup(c, e, f) || (c.dualBus && IsColumn(e.cmd.kind) != IsColumn(f.cmd.kind))
  }

  /** They reach one channel in one cycle. */
  ghost predicate Meet(c: Config, e: Event, f: Event) {
    e.cycle == f.cycle && c.ChannelOf(e.cmd.bank) == c.ChannelOf(f.cmd.bank)
  }

  ghost predicate BusesKept(c: Config, trace: seq<Event>) {
    forall m, n :: 0 <= m < n < |trace| && Meet(c, trace[m], trace[n]) ==> MayShare(c, trace[m], trace[n])
  }

  // ---------------------------------------------------------------- within one cycle

  /** The bus a command takes is taken; without a dual bus both are. */
  ghost predicate BusTaken(c: Config, d: Driver, cmd: Command) {
    && c.ChannelOf(cmd.bank) < |d.colBus| && c.ChannelOf(cmd.bank) < |d.rowBus|
    && (!c.dualBus || IsColumn(cmd.kind) ==> d.colBus[c.ChannelOf(cmd.bank)] != 0)
    && (!c.dualBus || !IsColumn(cmd.kind) ==> d.rowBus[c.ChannelOf(cmd.bank)] != 0)
  }

  /** Commands from `from` on went out in this cycle, and hold their buses. */
  ghost predicate CycleBuses(c: Config, d: Driver, from: nat) {
    && from <= |d.trace|
    && (forall i :: from <= i < |d.trace| ==> d.trace[i].cycle == d.now && BusTaken(c, d, d.trace[i].cmd))
    && BusesKept(c, d.trace[from..])
  }

  /** Buses that were taken stay so. */
  ghost predicate BusesStay(d: Driver, d': Driver) {
    && |d'.colBus| == |d.colBus| && |d'.rowBus| == |d.rowBus|
    && (forall ch :: 0 <= ch < |d.colBus| && d.colBus[ch] != 0 ==> d'.colBus[ch] != 0)
    && (forall ch :: 0 <= ch < |d.rowBus| && d.rowBus[ch] != 0 ==> d'.rowBus[ch] != 0)
  }

  /** More commands that belong together go out on a bus that was free. */
  lemma MoreGoOut(c: Config, d: Driver, d': Driver, from: nat, more: seq<Event>, kind: Kind, channel: nat)
    requires CycleBuses(c, d, from) && d'.trace == d.trace + more && d'.now == d.now && BusesStay(d, d')
    requires channel < |d.colBus| && channel < |d.rowBus| && BusFree(d, kind, channel)
    requires forall i :: 0 <= i < |more| ==> more[i].cycle == d.now && IsColumn(more[i].cmd.kind) == IsColumn(kind)
    requires forall i :: 0 <= i < |more| ==> c.ChannelOf(more[i].cmd.bank) == channel && BusTaken(c, d', more[i].cmd)
    requires forall i, j :: 0 <= i < j < |more| ==> OneGroup(c, more[i], more[j])
    ensures CycleBuses(c, d', from)
  {
    hide OneGroup;
    var was, now := d.trace[from..], d'.trace[from..];
    assert now == was + more;
    forall i | 0 <= i < |was| && c.ChannelOf(was[i].cmd.bank) == channel
      ensures c.dualBus && IsColumn(was[i].cmd.kind) != IsColumn(kind)
    {
      assert was[i] == d.trace[from + i];
    }
    forall i | from <= i < |d'.trace|
      ensures d'.trace[i].cycle == d'.now && BusTaken(c, d', d'.trace[i].cmd)
    {
      if i < |d.trace| { assert d'.trace[i] == d.trace[i]; } else { assert d'.trace[i] == more[i - |d.trace|]; }
    }
    KeptMore(c, was, more);
  }

  lemma KeptMore(c: Config, was: seq<Event>, more: seq<Event>)
    requires BusesKept(c, was)
    requires forall i, j :: 0 <= i < j < |more| ==> MayShare(c, more[i], more[j])
    requires forall i, j :: 0 <= i < |was| && 0 <= j < |more| && Meet(c, was[i], more[j]) ==>
      MayShare(c, was[i], more[j])
    ensures BusesKept(c, was + more)
  {
    hide MayShare, Meet;
    var now := was + more;
    forall m, n | 0 <= m < n < |now| && Meet(c, now[m], now[n])
      ensures MayShare(c, now[m], now[n])
    {
      if n < |was| {
        assert now[m] == was[m] && now[n] == was[n];
      } else if m < |was| {
        assert now[m] == was[m] && now[n] == more[n - |was|];
      } else {
        assert now[m] == more[m - |was|] && now[n] == more[n - |was|];
      }
    }
  }

  /** What the buses do not depend on. */
  lemma SameBuses(c: Config, d: Driver, d': Driver, from: nat)
    requires CycleBuses(c, d, from) && d'.trace == d.trace && d'.now == d.now && d'.colBus == d.colBus
    requires d'.rowBus == d.rowBus
    ensures CycleBuses(c, d', from)
  {}

  lemma OccupyTakes(c: Config, d: Driver, kind: Kind, channel: nat, cmd: Command)
    requires channel < |d.colBus| && channel < |d.rowBus| && c.ChannelOf(cmd.bank) == channel
    requires IsColumn(cmd.kind) == IsColumn(kind)
    ensures BusesStay(d, Occupy(c, d, kind, channel)) && BusTaken(c, Occupy(c, d, kind, channel), cmd)
    ensures Occupy(c, d, kind, channel).trace == d.trace && Occupy(c, d, kind, channel).now == d.now
  {}

  // ---------------------------------------------------------------- refresh

  /** The commands of a group are for one rank, so for one channel. */
  lemma GroupTogether(c: Config, rank: nat, g: GroupCommand, now: nat)
    requires c.Valid() && WfGroup(c, rank, g)
    ensures var es := GroupEvents(now, g);
      && |es| == |g.banks|
      && (forall i :: 0 <= i < |es| ==> es[i].cycle == now && es[i].cmd.kind == g.kind)
      && (forall i :: 0 <= i < |es| ==> c.ChannelOf(es[i].cmd.bank) == c.ChannelOf(g.banks[0]))
      && forall i, j :: 0 <= i < j < |es| ==> OneGroup(c, es[i], es[j])
  {}

  lemma SendRefreshBuses(c: Config, d: Driver, rank: nat, from: nat)
    requires Shape(c, d) && rank < c.Ranks() && d.refreshQ[rank] != [] && CycleBuses(c, d, from)
    ensures CycleBuses(c, SendRefresh(c, d, rank), from)
  {
    hide CycleBuses, BanksAfter, GroupEvents, AllAccept, Occupy;
    var g := d.refreshQ[rank][0];
    GroupOf(c, d, rank);
    var channel := c.ChannelOf(g.banks[0]);
    if AllAccept(d, g) && BusFree(d, g.kind, channel) {
      GroupSent(c, d, rank);
      GroupTogether(c, rank, g, d.now);
      IssueAllRest(c, d, g.kind, g.banks);
      var d1 := IssueAll(c, d, g.kind, g.banks);
      var d2 := d1.(refreshQ := d1.refreshQ[rank := d1.refreshQ[rank][1..]]);
      var d' := Occupy(c, d2, g.kind, channel);
      forall i | 0 <= i < |g.banks|
        ensures BusTaken(c, d', GroupEvents(d.now, g)[i].cmd)
      {
        OccupyTakes(c, d2, g.kind, channel, GroupEvents(d.now, g)[i].cmd);
      }
      OccupyTakes(c, d2, g.kind, channel, GroupEvents(d.now, g)[0].cmd);
      MoreGoOut(c, d, d', from, GroupEvents(d.now, g), g.kind, channel);
    }
  }

  lemma GroupOf(c: Config, d: Driver, rank: nat)
    requires Shape(c, d) && rank < c.Ranks() && d.refreshQ[rank] != []
    ensures c.Valid() && WfGroup(c, rank, d.refreshQ[rank][0]) && d.refreshQ[rank][0].banks != []
    ensures c.ChannelOf(d.refreshQ[rank][0].banks[0]) < |d.colBus| == |d.rowBus|
  {
    assert WfGroup(c, rank, d.refreshQ[rank][0]);
  }

  lemma GroupSent(c: Config, d: Driver, rank: nat)
    requires Shape(c, d) && rank < c.Ranks() && d.refreshQ[rank] != [] && AllAccept(d, d.refreshQ[rank][0])
    ensures var g := d.refreshQ[rank][0]; IssueAll(c, d, g.kind, g.banks).trace == d.trace + GroupEvents(d.now, g)
  {
    var g := d.refreshQ[rank][0];
    assert WfGroup(c, rank, g) && g == GroupCommand(g.kind, g.banks);
    IssueAllTrace(c, d, g.kind, g.banks);
  }

  lemma CountedBuses(c: Config, d: Driver, rank: nat, from: nat)
    requires Shape(c, d) && rank < c.Ranks() && CycleBuses(c, d, from)
    ensures CycleBuses(c, Counted(c, d, rank), from)
  {
    hide CycleBuses;
    SameBuses(c, d, Counted(c, d, rank), from);
  }

  lemma {:induction false} RefreshFromBuses(c: Config, d: Driver, rank: nat, from: nat)
    requires Shape(c, d) && rank <= c.Ranks() && CycleBuses(c, d, from)
    ensures CycleBuses(c, RefreshFrom(c, d, rank), from)
    decreases c.Ranks() - rank
  {
    hide CycleBuses, Shape, Counted, SendRefresh;
    if rank < c.Ranks() {
      CountedBuses(c, d, rank, from);
      RefiOf(c, Counted(c, d, rank));
      if Counted(c, d, rank).refreshQ[rank] != [] { SendRefreshBuses(c, Counted(c, d, rank), rank, from); }
      RefreshFromBuses(c, RefreshRank(c, d, rank), rank + 1, from);
    }
  }

  // ---------------------------------------------------------------- requests

  lemma SentBuses(c: Config, d: Driver, i: nat, from: nat)
    requires Shape(c, d) && i < |d.inputQ| && CanSend(d, d.inputQ[i]) && CycleBuses(c, d, from)
    requires c.ChannelOf(d.inputQ[i].bank) < |d.colBus| == |d.rowBus|
    requires BusFree(d, d.inputQ[i].kind, c.ChannelOf(d.inputQ[i].bank))
    ensures CycleBuses(c, SentAt(c, d, i), from)
  {
    hide CycleBuses, BanksAfter, Occupy;
    var cmd := d.inputQ[i];
    var channel := c.ChannelOf(cmd.bank);
    var d' := SentAt(c, d, i);
    var d1 := Issue(c, d, cmd).(inputQ := Erased(d.inputQ, i));
    var d2 := if cmd.kind == ACT then d1.(actIssued := d1.actIssued[c.RankOf(cmd.bank) := true]) else d1;
    OccupyTakes(c, d2, cmd.kind, channel, cmd);
    MoreGoOut(c, d, d', from, [Event(d.now, cmd)], cmd.kind, channel);
  }

  lemma SendStepBuses(c: Config, d: Driver, counts: seq<nat>, i: nat, from: nat)
    requires Shape(c, d) && |counts| == c.Ranks() && i < |d.inputQ| && CycleBuses(c, d, from)
    ensures CycleBuses(c, SendStep(c, d, counts, i).d, from)
  {
    hide CycleBuses, SentAt, CanSend;
    var cmd := d.inputQ[i];
    assert WfBank(c, cmd.bank);
    SameBuses(c, d, d.(blockBank := d.blockBank[cmd.bank := true]), from);
    var d1 := Noted(d, cmd);
    SameBuses(c, d, d1, from);
    SameBuses(c, d1, d1.(inputQ := Erased(d1.inputQ, i)), from);
    if !IsRefreshing(c, d, cmd.bank) && Eligible(c, d, counts, cmd) && CanSend(d1, cmd) { SentBuses(c, d1, i, from); }
  }

  lemma {:induction false} SendLoopBuses(c: Config, d: Driver, counts: seq<nat>, i: nat, from: nat)
    requires Shape(c, d) && |counts| == c.Ranks() && i <= |d.inputQ| && CycleBuses(c, d, from)
    ensures CycleBuses(c, SendLoop(c, d, counts, i), from)
    decreases |d.inputQ| - i
  {
    hide CycleBuses, Shape, SendStep;
    if i < |d.inputQ| {
      SendStepBuses(c, d, counts, i, from);
      var r := SendStep(c, d, counts, i);
      if !r.stop { SendLoopBuses(c, r.d, counts, r.i, from); }
    }
  }

  /** One run of the driver. */
  lemma RunBuses(c: Config, d: Driver)
    requires Shape(c, d)
    ensures CycleBuses(c, Run(c, d), |d.trace|)
  {
    hide RefreshFrom, SendLoop;
    var d1 := ReleaseBuses(d);
    var d2 := if c.useRefresh then RefreshFrom(c, d1, 0) else d1;
    assert d.trace[|d.trace|..] == [];
    RefreshFromBuses(c, d1, 0, |d.trace|);
    SendLoopBuses(c, d2, ActCounts(d2.faw), 0, |d.trace|);
  }

  /** A cycle's commands after those of earlier cycles. */
  lemma CycleKeepsBuses(c: Config, d: Driver, trace: seq<Event>)
    requires trace <= d.trace && CycleBuses(c, d, |trace|) && BusesKept(c, trace)
    requires forall i :: 0 <= i < |trace| ==> trace[i].cycle < d.now
    ensures BusesKept(c, d.trace)
  {
    hide MayShare;
    var more := d.trace[|trace|..];
    assert d.trace == trace + more;
    assert forall j :: 0 <= j < |more| ==> more[j] == d.trace[|trace| + j];
    forall m, n | 0 <= m < n < |d.trace| && Meet(c, d.trace[m], d.trace[n])
      ensures MayShare(c, d.trace[m], d.trace[n])
    {
      if n < |trace| {
        assert d.trace[m] == trace[m] && d.trace[n] == trace[n];
      } else if |trace| <= m {
        assert d.trace[m] == more[m - |trace|] && d.trace[n] == more[n - |trace|];
      }
    }
  }
}
