/** Refresh over whole runs, judged by the trace: once the precharge of a refresh has gone out
    to a rank, nothing but refresh commands reaches the rank until its REF has. */
module Quiet {
  import opened Dram
  import opened DriverModel
  import opened Spacing
  import opened DriverSafety
  import opened RefreshSafety
  import opened ControllerModel
  import opened ControllerSafety

  /** The last refresh command of the rank was a precharge: its REF is still to come. */
  ghost predicate Closing(c: Config, trace: seq<Event>, rank: nat) {
    if trace == [] then false
    else
      var n := |trace| - 1;
      if trace[n].cmd.origin == Refresh && c.RankOf(trace[n].cmd.bank) == rank then trace[n].cmd.kind == PRE
      else Closing(c, trace[..n], rank)
  }

  /** Ordinary commands go only to ranks that are not closing for a refresh. */
  ghost predicate QuietTrace(c: Config, trace: seq<Event>) {
    forall n :: 0 <= n < |trace| && trace[n].cmd.origin != Refresh ==>
      !Closing(c, trace[..n], c.RankOf(trace[n].cmd.bank))
  }

  /** A pending precharge is followed by its REF. */
  ghost predicate WellFormedQueue(q: seq<GroupCommand>) {
    q == [] || (|q| <= 2 && q[|q| - 1].kind == REF && (|q| == 2 ==> q[0].kind == PRE))
  }

  /** A rank that is closing has its REF queued. */
  ghost predicate Pending(c: Config, trace: seq<Event>, refreshQ: seq<seq<GroupCommand>>) {
    forall r :: 0 <= r < |refreshQ| ==>
      && (Closing(c, trace, r) ==> refreshQ[r] != [])
      && (refreshQ[r] != [] ==> c.useRefresh)
      && WellFormedQueue(refreshQ[r])
  }

  ghost predicate QuietInv(c: Config, d: Driver) {
    QuietTrace(c, d.trace) && Pending(c, d.trace, d.refreshQ) && Ordinary(d.inputQ)
  }

  /** No command of a refresh waits in the input queue. */
  ghost predicate Ordinary(q: seq<Command>) {
    forall i :: 0 <= i < |q| ==> q[i].origin != Refresh
  }

  // ---------------------------------------------------------------- one event

  lemma ClosingAppend(c: Config, trace: seq<Event>, e: Event, rank: nat)
    ensures Closing(c, trace + [e], rank) ==
            if e.cmd.origin == Refresh && c.RankOf(e.cmd.bank) == rank then e.cmd.kind == PRE
            else Closing(c, trace, rank)
  {
    assert (trace + [e])[..|trace|] == trace;
  }

  lemma QuietAppend(c: Config, trace: seq<Event>, e: Event)
    requires QuietTrace(c, trace)
    requires e.cmd.origin == Refresh || !Closing(c, trace, c.RankOf(e.cmd.bank))
    ensures QuietTrace(c, trace + [e])
  {
    var t := trace + [e];
    forall n | 0 <= n < |t| && t[n].cmd.origin != Refresh
      ensures !Closing(c, t[..n], c.RankOf(t[n].cmd.bank))
    {
      assert t[..n] == trace[..n];
      assert n == |trace| ==> t[..n] == trace;
    }
  }

  /** The commands of a group: the trace stays quiet and only the group's rank changes. */
  lemma {:induction false} GroupQuiet(c: Config, trace: seq<Event>, now: nat, kind: Kind, banks: seq<nat>, rank: nat)
    requires QuietTrace(c, trace) && forall i :: 0 <= i < |banks| ==> c.RankOf(banks[i]) == rank
    ensures var t := trace + GroupEvents(now, GroupCommand(kind, banks));
      && QuietTrace(c, t)
      && (forall r :: r != rank ==> Closing(c, t, r) == Closing(c, trace, r))
      && (banks != [] ==> Closing(c, t, rank) == (kind == PRE))
    decreases |banks|
  {
    var events := GroupEvents(now, GroupCommand(kind, banks));
    if banks == [] {
      assert trace + events == trace;
    } else {
      var e := Event(now, GroupMember(kind, banks[0]));
      var rest := GroupEvents(now, GroupCommand(kind, banks[1..]));
      assert trace + events == (trace + [e]) + rest;
      QuietAppend(c, trace, e);
      forall r: nat
        ensures Closing(c, trace + [e], r) == if r == rank then kind == PRE else Closing(c, trace, r)
      {
        ClosingAppend(c, trace, e, r);
      }
      GroupQuiet(c, trace + [e], now, kind, banks[1..], rank);
      if banks[1..] == [] { assert (trace + [e]) + rest == trace + [e]; }
    }
  }

  // ---------------------------------------------------------------- refresh

  lemma QuietCreate(c: Config, d: Driver, rank: nat)
    requires Shape(c, d) && QuietInv(c, d) && rank < c.Ranks() && c.useRefresh
    ensures QuietInv(c, CreateRefresh(c, d, rank))
  {
    ReopensOrdinary(d.inputQ, Requesters(c, d, rank));
  }

  lemma {:induction false} ReopensOrdinary(q: seq<Command>, ids: seq<nat>)
    requires Ordinary(q)
    ensures Ordinary(WithReopens(q, ids))
    decreases |ids|
  {
    if ids != [] {
      var i := FirstFor(q, ids[0]);
      ReopensOrdinary(if i < |q| && IsColumn(q[i].kind) then [Reopening(q[i])] + q else q, ids[1..]);
    }
  }

  lemma {:induction false} IssueAllQueue(c: Config, d: Driver, kind: Kind, ids: seq<nat>)
    requires Shape(c, d) && forall i :: 0 <= i < |ids| ==> ids[i] < c.Banks()
    ensures IssueAll(c, d, kind, ids).inputQ == d.inputQ
    decreases |ids|
  {
    if ids != [] {
      var cmd := GroupMember(kind, ids[0]);
      IssueAllQueue(c, if CanSend(d, cmd) then Issue(c, d, cmd) else d, kind, ids[1..]);
    }
  }

  /** What a send leaves alone, and the group at the head. */
  lemma SendHead(c: Config, d: Driver, rank: nat)
    requires Shape(c, d) && rank < c.Ranks() && d.refreshQ[rank] != []
    ensures WfGroup(c, rank, d.refreshQ[rank][0]) && SendRefresh(c, d, rank).inputQ == d.inputQ
    ensures |d.refreshQ| == c.Ranks()
  {
    var g := d.refreshQ[rank][0];
    assert WfGroup(c, rank, g);
    IssueAllQueue(c, d, g.kind, g.banks);
    hide IssueAll;
  }

  lemma QuietSend(c: Config, d: Driver, rank: nat)
    requires Shape(c, d) && QuietInv(c, d) && rank < c.Ranks() && d.refreshQ[rank] != []
    ensures QuietInv(c, SendRefresh(c, d, rank))
  {
    hide SendRefresh, Shape;
    SendHead(c, d, rank);
    RefreshIsAtomic(c, d, rank);
    var g := d.refreshQ[rank][0];
    assert WellFormedQueue(d.refreshQ[rank]) && g == GroupCommand(g.kind, g.banks);
    GroupQuiet(c, d.trace, d.now, g.kind, g.banks, rank);
  }

  lemma QuietRank(c: Config, d: Driver, rank: nat)
    requires Shape(c, d) && QuietInv(c, d) && rank < c.Ranks() && c.useRefresh
    ensures QuietInv(c, RefreshRank(c, d, rank))
  {
    hide Counted, SendRefresh, QuietInv;
    QuietCounted(c, d, rank);
    if Counted(c, d, rank).refreshQ[rank] != [] { QuietSend(c, Counted(c, d, rank), rank); }
  }

  lemma QuietCounted(c: Config, d: Driver, rank: nat)
    requires Shape(c, d) && QuietInv(c, d) && rank < c.Ranks() && c.useRefresh
    ensures QuietInv(c, Counted(c, d, rank))
  {
    hide CreateRefresh, QuietTrace, Pending, Ordinary;
    QuietCreate(c, d, rank);
  }

  lemma {:induction false} QuietRefreshFrom(c: Config, d: Driver, rank: nat)
    requires Shape(c, d) && QuietInv(c, d) && rank <= c.Ranks() && c.useRefresh
    ensures QuietInv(c, RefreshFrom(c, d, rank))
    decreases c.Ranks() - rank
  {
    hide RefreshRank, Shape, QuietInv;
    if rank < c.Ranks() {
      QuietRank(c, d, rank);
      QuietRefreshFrom(c, RefreshRank(c, d, rank), rank + 1);
    }
  }

  // ---------------------------------------------------------------- requests

  /** What one pass of the request loop does to the trace and the queues. */
  lemma SendStepTrace(c: Config, d: Driver, counts: seq<nat>, i: nat)
    requires Shape(c, d) && |counts| == c.Ranks() && i < |d.inputQ|
    ensures var d' := SendStep(c, d, counts, i).d;
      && d'.refreshQ == d.refreshQ
      && (d'.inputQ == d.inputQ || d'.inputQ == Erased(d.inputQ, i))
      && c.RankOf(d.inputQ[i].bank) < |d.refreshQ|
      && (|| d'.trace == d.trace
          || (&& d'.trace == d.trace + [Event(d.now, d.inputQ[i])]
              && (c.useRefresh ==> d.refreshQ[c.RankOf(d.inputQ[i].bank)] == [])))
  {
    hide BanksAfter;
    assert WfBank(c, d.inputQ[i].bank);
  }

  /** The request loop leaves the refresh queues alone. */
  lemma {:induction false} SendLoopQueues(c: Config, d: Driver, counts: seq<nat>, i: nat)
    requires Shape(c, d) && |counts| == c.Ranks() && i <= |d.inputQ|
    ensures SendLoop(c, d, counts, i).refreshQ == d.refreshQ
    decreases |d.inputQ| - i
  {
    hide SendStep, Shape;
    if i < |d.inputQ| {
      SendStepTrace(c, d, counts, i);
      var r := SendStep(c, d, counts, i);
      if !r.stop { SendLoopQueues(c, r.d, counts, r.i); }
    }
  }

  lemma QuietSendStep(c: Config, d: Driver, counts: seq<nat>, i: nat)
    requires Shape(c, d) && QuietInv(c, d) && |counts| == c.Ranks() && i < |d.inputQ|
    ensures QuietInv(c, SendStep(c, d, counts, i).d)
  {
    hide SendStep, Shape, QuietTrace, Pending;
    SendStepTrace(c, d, counts, i);
    if SendStep(c, d, counts, i).d.trace != d.trace {
      OrdinaryEvent(c, d.trace, d.refreshQ, Event(d.now, d.inputQ[i]));
    }
  }

  lemma OrdinaryEvent(c: Config, trace: seq<Event>, refreshQ: seq<seq<GroupCommand>>, e: Event)
    requires QuietTrace(c, trace) && Pending(c, trace, refreshQ)
    requires e.cmd.origin != Refresh && c.RankOf(e.cmd.bank) < |refreshQ|
    requires c.useRefresh ==> refreshQ[c.RankOf(e.cmd.bank)] == []
    ensures QuietTrace(c, trace + [e]) && Pending(c, trace + [e], refreshQ)
  {
    QuietAppend(c, trace, e);
    forall r: nat
      ensures Closing(c, trace + [e], r) == Closing(c, trace, r)
    {
      ClosingAppend(c, trace, e, r);
    }
  }

  lemma {:induction false} QuietSendLoop(c: Config, d: Driver, counts: seq<nat>, i: nat)
    requires Shape(c, d) && QuietInv(c, d) && |counts| == c.Ranks() && i <= |d.inputQ|
    ensures QuietInv(c, SendLoop(c, d, counts, i))
    decreases |d.inputQ| - i
  {
    assert Shape(c, d);
    hide SendStep, Shape, QuietInv;
    if i < |d.inputQ| {
      QuietSendStep(c, d, counts, i);
      var r := SendStep(c, d, counts, i);
      if !r.stop { QuietSendLoop(c, r.d, counts, r.i); }
    }
  }

  lemma QuietRun(c: Config, d: Driver)
    requires Shape(c, d) && QuietInv(c, d)
    ensures QuietInv(c, Run(c, d))
  {
    var d1 := ReleaseBuses(d);
    assert QuietInv(c, d1);
    if c.useRefresh { QuietRefreshFrom(c, d1, 0); }
    hide RefreshFrom, QuietInv, SendLoop;
    var d2 := if c.useRefresh then RefreshFrom(c, d1, 0) else d1;
    QuietSendLoop(c, d2, ActCounts(d2.faw), 0);
  }

  // ---------------------------------------------------------------- whole runs

  /** Drivers with the same trace, clock and refresh state. */
  ghost predicate SameRefresh(d: Driver, d': Driver) {
    && d'.trace == d.trace && d'.now == d.now && d'.refreshQ == d.refreshQ && d'.refi == d.refi
    && d'.nextToRefresh == d.nextToRefresh
  }

  /** Drivers that have tried the same requests in this cycle. */
  ghost predicate SameTries(d: Driver, d': Driver) {
    d'.blockBank == d.blockBank && d'.inflightWrites == d.inflightWrites && d'.faw == d.faw
  }

  lemma VisitTrace(c: Config, d: Driver, queues: seq<seq<Command>>, bank: nat)
    requires Shape(c, d) && |queues| == c.Banks() && bank < c.Banks()
    requires queues[bank] != [] ==> WfBank(c, queues[bank][0].bank)
    ensures SameRefresh(d, Visit(c, d, queues, bank).0) && SameTries(d, Visit(c, d, queues, bank).0)
  {}

  lemma {:induction false} VisitAllTrace(c: Config, d: Driver, queues: seq<seq<Command>>, order: seq<nat>)
    requires Shape(c, d) && |queues| == c.Banks() && OwnQueues(c, queues)
    requires forall i :: 0 <= i < |order| ==> order[i] < c.Banks()
    ensures SameRefresh(d, VisitAll(c, d, queues, order).0) && SameTries(d, VisitAll(c, d, queues, order).0)
    decreases |order|
  {
    if order != [] {
      var v := Visit(c, d, queues, order[0]);
      VisitOwn(c, d, queues, order[0]);
      VisitTrace(c, d, queues, order[0]);
      hide Visit, Shape;
      VisitAllTrace(c, v.0, v.1, order[1..]);
    }
  }

  ghost predicate SystemQuiet(s: Setup, y: System) {
    QuietTrace(s.c, y.d.trace) && Pending(s.c, y.d.trace, y.d.refreshQ)
  }

  lemma StepQuiet(s: Setup, y: System, arrivals: seq<Txn>)
    requires SystemInv(s, y) && RequestsOk(s, y.queues, y.tracked, arrivals) && SystemQuiet(s, y)
    ensures SystemQuiet(s, Step(s, y, arrivals).0)
  {
    var d := StepVisited(s, y, arrivals);
    hide SystemInv, Step;
    QuietRun(s.c, d);
  }

  /** No request has been tried in this cycle. */
  ghost predicate Untried(d: Driver) { d.blockBank == NoFlags(|d.blockBank|) && d.inflightWrites == {} }

  lemma UpdateUntried(c: Config, d: Driver)
    requires Shape(c, d)
    ensures Untried(Update(c, d))
  {}

  /** A clock cycle up to the driver's run: the transactions picked, what the converter makes of
      them, and what the command scheduler leaves. */
  ghost predicate Staged(s: Setup, y: System, picks: seq<Txn>, v: Converted, order: seq<nat>,
                         visited: (Driver, seq<seq<Command>>))
    requires Shape(s.c, y.d)
  {
    var d0, v0 := Update(s.c, y.d), Converted(y.queues, y.tracked, y.owner, true);
    && ConverterInv(s, d0, v0) && Affordable(s, v0.queues, picks)
    && (forall i :: 0 <= i < |picks| ==> picks[i].bank < |y.queues| && picks[i].bank < |y.tracked|)
    && v == ConvertAll(s, v0, picks) && ConverterInv(s, d0, v) && |v.queues| == s.c.Banks() && OwnQueues(s.c, v.queues)
    && (forall i :: 0 <= i < |order| ==> order[i] < s.c.Banks())
    && visited == VisitAll(s.c, d0, v.queues, order) && ConverterInv(s, visited.0, v.(queues := visited.1))
  }

  lemma StepStaged(s: Setup, y: System, arrivals: seq<Txn>)
    returns (picks: seq<Txn>, v: Converted, order: seq<nat>, visited: (Driver, seq<seq<Command>>))
    requires SystemInv(s, y) && RequestsOk(s, y.queues, y.tracked, arrivals)
    ensures Shape(s.c, y.d) && Staged(s, y, picks, v, order, visited) && Shape(s.c, visited.0)
    ensures var y' := Step(s, y, arrivals).0;
      y'.d == Run(s.c, visited.0) && SystemBacklog(y') == BacklogOf(v.(queues := visited.1))
  {
    hide Step, SystemShape, Shape, Accept, PickFrom, ConvertAll, VisitOrder, VisitAll, OwnQueues, QueuesOk,
      RequestsOk, Safe, ConverterInv, Affordable, Update, Beliefs, Aged, NextStarts;
    StepParts(s, y, arrivals);
    var v0 := Converted(y.queues, y.tracked, y.owner, true);
    AcceptOk(s, y.queues, y.tracked, y.txns, y.reqQ + arrivals);
    var accepted := Accept(s, y.txns, y.reqQ + arrivals);
    var picked := PickFrom(s, y.queues, y.tracked, accepted.0, 0);
    picks := picked.picks;
    ConvertAllOwn(s, v0, picks);
    v := ConvertAll(s, v0, picks);
    order := VisitOrder(s.c, y.starts, 0);
    VisitOrderOk(s.c, y.starts, 0);
    var d0 := Update(s.c, y.d);
    visited := VisitAll(s.c, d0, v.queues, order);
    StepStages(s, y, arrivals, accepted, picked, v, visited, order);
    FreshConverter(s, y);
    PicksAffordable(s, y.queues, y.tracked, accepted.0, 0);
    ConvertAllSafe(s, d0, v0, picks);
    VisitAllSafe(s, d0, v, order);
    AgedBeliefs(s.policy, v.tracked);
  }

  /** The driver that the command scheduler leaves behind for the driver's own run. */
  lemma StepVisited(s: Setup, y: System, arrivals: seq<Txn>) returns (d: Driver)
    requires SystemInv(s, y) && RequestsOk(s, y.queues, y.tracked, arrivals)
    ensures Shape(s.c, d) && Ordinary(d.inputQ) && SameRefresh(y.d.(now := y.d.now + 1), d)
    ensures Step(s, y, arrivals).0.d == Run(s.c, d) && Untried(d)
  {
    hide Step, SystemShape, Shape, ConvertAll, VisitAll, OwnQueues, RequestsOk, Safe, Ticked, ConverterInv,
      Affordable;
    var picks, v, order, visited := StepStaged(s, y, arrivals);
    var d0 := Update(s.c, y.d);
    OrdinaryInput(s, visited.0, v.(queues := visited.1));
    VisitAllTrace(s.c, d0, v.queues, order);
    UpdateUntried(s.c, y.d);
    d := visited.0;
  }

  lemma ConverterFresh(s: Setup, d: Driver, v: Converted)
    requires ConverterInv(s, d, v)
    ensures Fresh(s.c, d, BacklogOf(v))
  {}

  lemma FreshConverter(s: Setup, y: System)
    requires SystemInv(s, y)
    ensures Shape(s.c, y.d) && ConverterInv(s, Update(s.c, y.d), Converted(y.queues, y.tracked, y.owner, true))
  {
    FreshUpdate(s.c, y.d, SystemBacklog(y));
  }

  lemma OrdinaryInput(s: Setup, d: Driver, v: Converted)
    requires ConverterInv(s, d, v)
    ensures Ordinary(d.inputQ)
  {
    hide Shape, SpacingInv, BankFlow;
  }

  /** In every run, ordinary commands never reach a rank between the precharge and the REF of
      its refresh. */
  lemma {:induction false} RunsAreQuiet(s: Setup, batches: seq<seq<Txn>>)
    requires s.c.Valid() && forall n :: 0 <= n < |batches| ==> ArrivalsOk(s.c, batches[n])
    ensures SystemQuiet(s, RunSystem(s, batches).0)
  {
    hide SystemInv, SystemShape, Step, ArrivalsOk, RequestsOk;
    if batches != [] {
      var n := |batches| - 1;
      RunInv(s, batches[..n]);
      RunsAreQuiet(s, batches[..n]);
      var before := RunSystem(s, batches[..n]).0;
      ArrivalsAreRequests(s, before, batches[n]);
      StepQuiet(s, before, batches[n]);
    }
  }
}
