/** Earliest-issue cycles only ever go up: over a tick, over every command issued, over a whole
    cycle of the controller. */
module Monotone {
  import opened Dram
  import opened BankModel
  import opened DriverModel
  import opened Spacing
  import opened DriverSafety
  import opened ControllerModel
  import opened ControllerSafety

  ghost predicate Later(was: seq<Bank>, banks: seq<Bank>) {
    |was| == |banks| && forall i :: 0 <= i < |was| ==> was[i].next.AtMost(banks[i].next)
  }

  lemma LaterTrans(a: seq<Bank>, b: seq<Bank>, c: seq<Bank>)
    requires Later(a, b) && Later(b, c)
    ensures Later(a, c)
  {
    forall i | 0 <= i < |a|
      ensures a[i].next.AtMost(c[i].next)
    {
      assert a[i].next.AtMost(b[i].next) && b[i].next.AtMost(c[i].next);
    }
  }

  lemma BumpedUp(p: Params, next: Cycles, near: Nearness, first: Kind, second: Kind, now: nat)
    requires p.Valid()
    ensures next.At(second) <= Bumped(p, next, near, first, second, now)
  {}

  lemma SpreadUp(c: Config, b: Bank, i: nat, cmd: Command, now: nat)
    requires c.Valid()
    ensures b.next.AtMost(Spread(c, b, i, cmd, now).next)
  {
    var near := Near(c, cmd.bank, i);
    hide Bumped, Near;
    BumpedUp(c.p, b.next, near, cmd.kind, ACT, now);
    BumpedUp(c.p, b.next, near, cmd.kind, READ, now);
    BumpedUp(c.p, b.next, near, cmd.kind, WRITE, now);
    BumpedUp(c.p, b.next, near, cmd.kind, PRE, now);
    BumpedUp(c.p, b.next, near, cmd.kind, REF, now);
  }

  lemma BanksAfterUp(c: Config, banks: seq<Bank>, cmd: Command, now: nat)
    requires c.Valid() && cmd.bank < |banks| && Allows(banks[cmd.bank], cmd.kind)
    ensures Later(banks, BanksAfter(c, banks, cmd, now))
  {
    hide Spread;
    forall i | 0 <= i < |banks|
      ensures banks[i].next.AtMost(BanksAfter(c, banks, cmd, now)[i].next)
    {
      SpreadUp(c, banks[i], i, cmd, now);
    }
  }

  lemma TickedUp(p: Params, banks: seq<Bank>, now: nat)
    requires p.Valid() && BanksInv(banks, now)
    ensures Later(banks, Ticked(p, banks, now + 1))
  {
    forall i | 0 <= i < |banks|
      ensures banks[i].next.AtMost(Ticked(p, banks, now + 1)[i].next)
    {
      assert BankInv(banks[i], now);
      TickRaises(p, banks[i], now);
    }
  }

  // ---------------------------------------------------------------- the driver's own run

  lemma SendStepUp(c: Config, d: Driver, counts: seq<nat>, i: nat)
    requires Shape(c, d) && |counts| == c.Ranks() && i < |d.inputQ|
    ensures Later(d.banks, SendStep(c, d, counts, i).d.banks)
  {
    var cmd := d.inputQ[i];
    var banks := SendStep(c, d, counts, i).d.banks;
    SendStepBanks(c, d, counts, i);
    hide SendStep, Shape, BanksAfter;
    if banks != d.banks { BanksAfterUp(c, d.banks, cmd, d.now); }
  }

  lemma SendStepBanks(c: Config, d: Driver, counts: seq<nat>, i: nat)
    requires Shape(c, d) && |counts| == c.Ranks() && i < |d.inputQ|
    ensures c.Valid() && d.inputQ[i].bank < |d.banks|
    ensures var banks := SendStep(c, d, counts, i).d.banks;
      || banks == d.banks
      || (Allows(d.banks[d.inputQ[i].bank], d.inputQ[i].kind) && banks == BanksAfter(c, d.banks, d.inputQ[i], d.now))
  {
    hide BanksAfter;
    assert WfBank(c, d.inputQ[i].bank);
  }

  lemma {:induction false} SendLoopUp(c: Config, d: Driver, counts: seq<nat>, i: nat)
    requires Shape(c, d) && |counts| == c.Ranks() && i <= |d.inputQ|
    ensures Later(d.banks, SendLoop(c, d, counts, i).banks)
    decreases |d.inputQ| - i
  {
    hide SendStep, Shape;
    if i < |d.inputQ| {
      SendStepUp(c, d, counts, i);
      var r := SendStep(c, d, counts, i);
      if !r.stop {
        SendLoopUp(c, r.d, counts, r.i);
        LaterTrans(d.banks, r.d.banks, SendLoop(c, r.d, counts, r.i).banks);
      }
    }
  }

  lemma {:induction false} IssueAllUp(c: Config, d: Driver, kind: Kind, ids: seq<nat>)
    requires Shape(c, d) && forall i :: 0 <= i < |ids| ==> ids[i] < c.Banks()
    ensures Later(d.banks, IssueAll(c, d, kind, ids).banks)
    decreases |ids|
  {
    if ids != [] {
      var cmd := GroupMember(kind, ids[0]);
      var d1 := if CanSend(d, cmd) then Issue(c, d, cmd) else d;
      assert Later(d.banks, d1.banks) by {
        if CanSend(d, cmd) { BanksAfterUp(c, d.banks, cmd, d.now); }
      }
      IssueAllUp(c, d1, kind, ids[1..]);
      LaterTrans(d.banks, d1.banks, IssueAll(c, d, kind, ids).banks);
    }
  }

  lemma CountedBanks(c: Config, d: Driver, rank: nat)
    requires Shape(c, d) && rank < c.Ranks()
    ensures Counted(c, d, rank).banks == d.banks
  {}

  lemma SendRefreshUp(c: Config, d: Driver, rank: nat)
    requires Shape(c, d) && rank < c.Ranks() && d.refreshQ[rank] != []
    ensures Later(d.banks, SendRefresh(c, d, rank).banks)
  {
    var g := d.refreshQ[rank][0];
    assert WfGroup(c, rank, g);
    hide IssueAll;
    IssueAllUp(c, d, g.kind, g.banks);
    LaterSame(d.banks);
  }

  lemma LaterSame(banks: seq<Bank>)
    ensures Later(banks, banks)
  {}

  lemma RefreshRankUp(c: Config, d: Driver, rank: nat)
    requires Shape(c, d) && rank < c.Ranks()
    ensures Later(d.banks, RefreshRank(c, d, rank).banks)
  {
    var d1 := Counted(c, d, rank);
    CountedBanks(c, d, rank);
    LaterSame(d.banks);
    if d1.refreshQ[rank] != [] { SendRefreshUp(c, d1, rank); }
    hide Counted, SendRefresh, Later;
  }

  lemma {:induction false} RefreshFromUp(c: Config, d: Driver, rank: nat)
    requires Shape(c, d) && rank <= c.Ranks()
    ensures Later(d.banks, RefreshFrom(c, d, rank).banks)
    decreases c.Ranks() - rank
  {
    hide RefreshRank, Shape;
    if rank < c.Ranks() {
      RefreshRankUp(c, d, rank);
      RefreshFromUp(c, RefreshRank(c, d, rank), rank + 1);
      LaterTrans(d.banks, RefreshRank(c, d, rank).banks, RefreshFrom(c, d, rank).banks);
    }
  }

  lemma RunUp(c: Config, d: Driver)
    requires Shape(c, d)
    ensures Later(d.banks, Run(c, d).banks)
  {
    hide SendLoop, RefreshFrom;
    var d1 := ReleaseBuses(d);
    var d2 := if c.useRefresh then RefreshFrom(c, d1, 0) else d1;
    RefreshFromUp(c, d1, 0);
    SendLoopUp(c, d2, ActCounts(d2.faw), 0);
    LaterTrans(d.banks, d2.banks, Run(c, d).banks);
  }

  // ---------------------------------------------------------------- a whole cycle

  lemma {:induction false} VisitAllBanks(c: Config, d: Driver, queues: seq<seq<Command>>, order: seq<nat>)
    requires Shape(c, d) && |queues| == c.Banks() && OwnQueues(c, queues)
    requires forall i :: 0 <= i < |order| ==> order[i] < c.Banks()
    ensures VisitAll(c, d, queues, order).0.banks == d.banks
    decreases |order|
  {
    hide Visit, Shape;
    if order != [] {
      var v := Visit(c, d, queues, order[0]);
      VisitOwn(c, d, queues, order[0]);
      VisitBanks(c, d, queues, order[0]);
      VisitAllBanks(c, v.0, v.1, order[1..]);
    }
  }

  lemma VisitBanks(c: Config, d: Driver, queues: seq<seq<Command>>, bank: nat)
    requires Shape(c, d) && |queues| == c.Banks() && bank < c.Banks()
    requires queues[bank] != [] ==> WfBank(c, queues[bank][0].bank)
    ensures Visit(c, d, queues, bank).0.banks == d.banks
  {}

  lemma StepUp(s: Setup, y: System, arrivals: seq<Txn>)
    requires SystemInv(s, y) && RequestsOk(s, y.queues, y.tracked, arrivals)
    ensures Later(y.d.banks, Step(s, y, arrivals).0.d.banks)
  {
    var d := StepDriver(s, y, arrivals);
    hide Step, SystemInv, SystemShape, Shape;
    RunUp(s.c, d);
    LaterTrans(y.d.banks, d.banks, Step(s, y, arrivals).0.d.banks);
  }

  /** The driver that its own run starts from. */
  lemma StepDriver(s: Setup, y: System, arrivals: seq<Txn>) returns (d: Driver)
    requires SystemInv(s, y) && RequestsOk(s, y.queues, y.tracked, arrivals)
    ensures Shape(s.c, d) && Later(y.d.banks, d.banks) && Step(s, y, arrivals).0.d == Run(s.c, d)
  {
    hide Step, SystemShape, Shape, Accept, PickFrom, ConvertAll, VisitOrder, VisitAll, OwnQueues, QueuesOk,
      RequestsOk, Safe, Ticked;
    var v0 := Converted(y.queues, y.tracked, y.owner, true);
    StepParts(s, y, arrivals);
    AcceptOk(s, y.queues, y.tracked, y.txns, y.reqQ + arrivals);
    var accepted := Accept(s, y.txns, y.reqQ + arrivals);
    var picked := PickFrom(s, y.queues, y.tracked, accepted.0, 0);
    ConvertAllOwn(s, v0, picked.picks);
    var v := ConvertAll(s, v0, picked.picks);
    var order := VisitOrder(s.c, y.starts, 0);
    VisitOrderOk(s.c, y.starts, 0);
    var visited := VisitAll(s.c, Update(s.c, y.d), v.queues, order);
    StepStages(s, y, arrivals, accepted, picked, v, visited, order);
    VisitAllBanks(s.c, Update(s.c, y.d), v.queues, order);
    TickedUp(s.c.p, y.d.banks, y.d.now);
    d := visited.0;
  }
}
