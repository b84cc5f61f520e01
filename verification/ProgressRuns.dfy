/** Whole runs: every command made is received by its bank or still waits, and what waits after a
    cycle waits for a reason. */
module ProgressRuns {
  import opened Dram
  import opened DriverModel
  import opened Spacing
  import opened Rows
  import opened Faw
  import opened DriverSafety
  import opened RefreshSafety
  import opened ControllerModel
  import opened ControllerSafety
  import opened Quiet
  import opened CycleEvents
  import opened RefreshRuns
  import opened Conservation
  import opened Progress
  import opened Runs

  // ---------------------------------------------------------------- nothing is lost

  /** In every state of every run, for every bank: the numbers of the commands made for it,
      precharges apart, are in order first those it has received and then those that wait. */
  lemma {:induction false} NothingIsLost(s: Setup, batches: seq<seq<Txn>>, run: Run, k: nat, x: nat)
    requires IsRun(s, batches, run) && k < |run.states| && x < s.c.Banks()
    ensures var y := run.states[k]; Conserved(y.d.trace, y.d.inputQ, SystemBacklog(y), x)
    decreases k
  {
    hide Conserved, SystemInv, SystemShape, RequestsOk, Step, Start, ArrivalsOk, RunSystem, SystemBacklog;
    if k == 0 {
      StartConserves(s, x);
    } else {
      NothingIsLost(s, batches, run, k - 1, x);
      StatesOfRun(s, batches, run, k - 1);
      RunInv(s, batches[..k - 1]);
      assert CycleAt(s, batches, run, k - 1);
      CycleConserves(s, run.states[k - 1], batches[k - 1], x);
    }
  }

  // ---------------------------------------------------------------- nothing is left undone

  lemma {:induction false} IssueAllTries(c: Config, d: Driver, kind: Kind, ids: seq<nat>)
    requires Shape(c, d) && forall i :: 0 <= i < |ids| ==> ids[i] < c.Banks()
    ensures SameTries(d, IssueAll(c, d, kind, ids))
    decreases |ids|
  {
    hide BanksAfter;
    if ids != [] {
      var cmd := GroupMember(kind, ids[0]);
      IssueAllTries(c, if CanSend(d, cmd) then Issue(c, d, cmd) else d, kind, ids[1..]);
    }
  }

  lemma RankTries(c: Config, d: Driver, rank: nat)
    requires Shape(c, d) && rank < c.Ranks()
    ensures SameTries(d, RefreshRank(c, d, rank))
  {
    var d1 := Counted(c, d, rank);
    assert SameTries(d, d1);
    RanksOf(c, d1);
    if d1.refreshQ[rank] != [] {
      var g := d1.refreshQ[rank][0];
      assert WfGroup(c, rank, g);
      IssueAllTries(c, d1, g.kind, g.banks);
      hide IssueAll, Counted, AllAccept;
    }
  }

  lemma {:induction false} RanksTry(c: Config, d: Driver, rank: nat)
    requires Shape(c, d) && rank <= c.Ranks()
    ensures SameTries(d, RefreshFrom(c, d, rank))
    decreases c.Ranks() - rank
  {
    hide Shape, RefreshRank;
    if rank < c.Ranks() {
      RankTries(c, d, rank);
      RanksTry(c, RefreshRank(c, d, rank), rank + 1);
    }
  }

  lemma StepFaw(c: Config, d: Driver, counts: seq<nat>, i: nat)
    requires Shape(c, d) && |counts| == c.Ranks() && i < |d.inputQ|
    ensures SendStep(c, d, counts, i).d.faw == d.faw
  {
    hide BanksAfter;
  }

  lemma {:induction false} LoopFaw(c: Config, d: Driver, counts: seq<nat>, i: nat)
    requires Shape(c, d) && |counts| == c.Ranks() && i <= |d.inputQ|
    ensures SendLoop(c, d, counts, i).faw == d.faw
    decreases |d.inputQ| - i
  {
    hide SendStep, Shape;
    if i < |d.inputQ| {
      StepFaw(c, d, counts, i);
      var r := SendStep(c, d, counts, i);
      if !r.stop { LoopFaw(c, r.d, counts, r.i); }
    }
  }

  /** The rank has had four ACTs in the nFAW - 1 cycles before this one. */
  ghost predicate WindowFull(c: Config, d: Driver, rank: nat)
    requires c.Valid()
  {
    4 <= ActsIn(c, d.trace, rank, d.now - (c.p.nFAW - 1), d.now)
  }

  /** Why the oldest command of a bank with the driver has not gone out in this cycle: its rank waits
      for a refresh, its bus is taken, the rank's window is full, it aliases a write of queue `q`, or
      its bank does not take it. */
  ghost predicate HeldNow(c: Config, q: seq<Command>, d: Driver, cmd: Command)
    requires Shape(c, d) && WfBank(c, cmd.bank)
  {
    || IsRefreshing(c, d, cmd.bank)
    || !BusFree(d, cmd.kind, c.ChannelOf(cmd.bank))
    || (cmd.kind == ACT && WindowFull(c, d, c.RankOf(cmd.bank)))
    || Aliased(q, cmd)
    || NotTaken(d, cmd)
  }

  /** Of the commands for bank `x` in queue `q`, the driver has taken the oldest, or has none, or the
      oldest is held. */
  ghost predicate Served(c: Config, q: seq<Command>, d: Driver, x: nat)
    requires Shape(c, d)
  {
    var mine := For(d.inputQ, x);
    || |mine| < |For(q, x)| || mine == []
    || (mine == For(q, x) && WfBank(c, mine[0].bank) && HeldNow(c, q, d, mine[0]))
  }

  lemma FullWindow(c: Config, d: Driver, r: nat)
    requires Shape(c, d) && FawInv(c, d) && r < c.Ranks() && |ActCounts(d.faw)| == c.Ranks()
    ensures 4 <= ActCounts(d.faw)[r] <==> WindowFull(c, d, r)
  {
    CountsSum(c, d.trace, r, d.faw[r], d.now - (c.p.nFAW - 1));
  }

  lemma DoneServed(c: Config, q: seq<Command>, d: Driver, x: nat)
    requires Shape(c, d) && FawInv(c, d) && |ActCounts(d.faw)| == c.Ranks() && Done(c, q, d, ActCounts(d.faw), x)
    ensures Served(c, q, d, x)
  {
    var mine := For(d.inputQ, x);
    if mine == For(q, x) && mine != [] {
      RankIsOne(c, mine[0].bank);
      FullWindow(c, d, c.RankOf(mine[0].bank));
    }
    hide For, FawInv, ActCounts, NotTaken, Aliased, WindowFull, BusFree, IsRefreshing;
  }

  lemma RankIsOne(c: Config, x: nat)
    requires c.Valid() && WfBank(c, x)
    ensures c.RankOf(x) < c.Ranks()
  {}

  /** The driver when its request loop begins. */
  ghost function LoopStart(c: Config, d: Driver): (d': Driver)
    requires Shape(c, d)
    ensures Shape(c, d') && DriverModel.Run(c, d) == SendRequests(c, d')
  {
    if c.useRefresh then RefreshFrom(c, ReleaseBuses(d), 0) else ReleaseBuses(d)
  }

  lemma LoopStartIs(c: Config, d: Driver, k: Backlog, x: nat)
    requires Shape(c, d) && Fresh(c, d, k) && Untried(d) && WfBank(c, x) && Conserved(d.trace, d.inputQ, k, x)
    ensures var d2 := LoopStart(c, d);
      && Fresh(c, d2, k) && Untried(d2) && Conserved(d2.trace, d2.inputQ, k, x)
      && Received(d2.trace, x) == Received(d.trace, x)
  {
    hide RefreshFrom, Conserved, Fresh, Shape, WfBank, Received, Turns;
    var d1 := ReleaseBuses(d);
    ReleasedFresh(c, d, k);
    if c.useRefresh {
      RanksConserve(c, d1, k, 0, x);
      FreshFrom(c, d1, k, 0, RefreshFrom(c, d1, 0));
      RanksTry(c, d1, 0);
      var events, due := RanksTurn(c, d1, 0);
      TurnsReceive(c, d1, RefreshFrom(c, d1, 0), events, due, x);
    }
  }

  lemma TurnsReceive(c: Config, d: Driver, d': Driver, events: seq<Event>, due: map<nat, seq<GroupCommand>>, x: nat)
    requires Shape(c, d) && Shape(c, d') && Turns(c, d, 0, d', events, due)
    ensures Received(d'.trace, x) == Received(d.trace, x)
  {
    ReceivedNone(d.trace, events, x);
    hide Shape, Received, IsDue, Outcome;
  }

  lemma NoRefsWait(c: Config, d: Driver, k: Backlog)
    requires Fresh(c, d, k)
    ensures NoRefs(d.inputQ)
  {
    assert OriginsOk(d.inputQ, d.trace, k);
    hide Shape, SpacingInv, BankFlow, RowSafe;
  }

  lemma SafeFaw(c: Config, d: Driver, k: Backlog)
    requires Safe(c, d, k)
    ensures Shape(c, d) && FawInv(c, d)
  {}

  /** The driver's run serves each bank. */
  lemma RunServes(c: Config, d: Driver, k: Backlog, x: nat)
    requires Shape(c, d) && Fresh(c, d, k) && Untried(d) && x < c.Banks() && Conserved(d.trace, d.inputQ, k, x)
    ensures var q := LoopStart(c, d).inputQ;
      && Served(c, q, DriverModel.Run(c, d), x)
      && x < |k.queues| && Received(d.trace, x) + Nums(For(q, x) + k.queues[x]) == Owned(k.owner, x)
  {
    hide LoopStart, Fresh, Shape, Received, Nums, Owned, For, Done, Served, SendLoop, DriverModel.Run, FawInv,
      ActCounts, NoRefs, Safe;
    ShapeValid(c, d);
    BankIsWf(c, x);
    LoopStartIs(c, d, k, x);
    var d2 := LoopStart(c, d);
    NoRefsWait(c, d2, k);
    RequestsProgress(c, d2, x);
    SafeRun(c, d, k);
    SafeFaw(c, DriverModel.Run(c, d), k);
    LoopFaw(c, d2, ActCounts(d2.faw), 0);
    DoneServed(c, d2.inputQ, DriverModel.Run(c, d), x);
  }

  lemma ShapeValid(c: Config, d: Driver)
    requires Shape(c, d)
    ensures c.Valid() && |d.faw| == c.Ranks()
  {}

  /** The cycle that leads to the state: the queue the request loop began with. */
  ghost predicate CycleServes(s: Setup, y: System, y': System, q: seq<Command>, x: nat) {
    && Shape(s.c, y'.d) && x < |y'.queues| && Served(s.c, q, y'.d, x)
    && Received(y.d.trace, x) + Nums(For(q, x) + y'.queues[x]) == Owned(y'.owner, x)
  }

  ghost predicate AllServed(s: Setup, y: System, y': System, q: seq<Command>) {
    forall x :: 0 <= x < s.c.Banks() ==> CycleServes(s, y, y', q, x)
  }

  lemma CycleServed(s: Setup, y: System, arrivals: seq<Txn>) returns (q: seq<Command>)
    requires SystemInv(s, y) && RequestsOk(s, y.queues, y.tracked, arrivals)
    requires forall x :: 0 <= x < s.c.Banks() ==> Conserved(y.d.trace, y.d.inputQ, SystemBacklog(y), x)
    ensures AllServed(s, y, Step(s, y, arrivals).0, q)
  {
    hide Step, Shape, ConvertAll, VisitAll, OwnQueues, RequestsOk, ConverterInv, Affordable, Beliefs, Conserved,
      WfBank, DriverModel.Run, SystemShape, Served, Received, Nums, Owned, For, Fresh, LoopStart;
    var picks, v, order, visited := StepStaged(s, y, arrivals);
    var d0, v0 := Update(s.c, y.d), Converted(y.queues, y.tracked, y.owner, true);
    var k2 := BacklogOf(v.(queues := visited.1));
    UpdateQueues(s.c, y.d);
    UpdateUntried(s.c, y.d);
    VisitAllTrace(s.c, d0, v.queues, order);
    ConverterFresh(s, visited.0, v.(queues := visited.1));
    q := LoopStart(s.c, visited.0).inputQ;
    var y' := Step(s, y, arrivals).0;
    QueuesOf(y', v.(queues := visited.1));
    forall x | 0 <= x < s.c.Banks()
      ensures CycleServes(s, y, y', q, x)
    {
      ConvertAllConserves(s, d0, v0, picks, x);
      VisitAllConserves(s, d0, v, order, x);
      RunServes(s.c, visited.0, k2, x);
    }
  }

  lemma QueuesOf(y: System, v: Converted)
    requires SystemBacklog(y) == BacklogOf(v)
    ensures y.queues == v.queues && y.owner == v.owner
  {}

  /** Every cycle of every run leaves nothing undone: there is a queue that held, with the command
      queues, all that had been made and not received, and of each bank's commands in it the driver
      has taken the oldest, or that command is held. */
  lemma NothingIsLeftUndone(s: Setup, batches: seq<seq<Txn>>, run: Run, k: nat) returns (q: seq<Command>)
    requires IsRun(s, batches, run) && k < |batches|
    ensures k + 1 < |run.states|
    ensures AllServed(s, run.states[k], run.states[k + 1], q)
  {
    hide SystemInv, SystemShape, RequestsOk, Step, Start, ArrivalsOk, RunSystem, Conserved, AllServed;
    StatesOfRun(s, batches, run, k);
    RunInv(s, batches[..k]);
    assert CycleAt(s, batches, run, k);
    forall x | 0 <= x < s.c.Banks()
      ensures Conserved(run.states[k].d.trace, run.states[k].d.inputQ, SystemBacklog(run.states[k]), x)
    {
      NothingIsLost(s, batches, run, k, x);
    }
    q := CycleServed(s, run.states[k], batches[k]);
  }

  /** And of each rank's due refresh it has sent the first group, or that group is held. */
  lemma RefreshIsNotLeftUndone(s: Setup, batches: seq<seq<Txn>>, run: Run, k: nat, r: nat)
    returns (due: seq<GroupCommand>)
    requires IsRun(s, batches, run) && k < |batches| && s.c.useRefresh && r < s.c.Ranks()
    ensures k + 1 < |run.states| && Shape(s.c, run.states[k].d) && Shape(s.c, run.states[k + 1].d)
    ensures IsDue(s.c, run.states[k].d, r, due) && GroupDone(s.c, run.states[k + 1].d, r, due)
  {
    hide SystemInv, SystemShape, RequestsOk, Step, Start, ArrivalsOk, RunSystem, Shape, DriverModel.Run, IsDue,
      GroupDone;
    StatesOfRun(s, batches, run, k);
    RunInv(s, batches[..k]);
    assert CycleAt(s, batches, run, k);
    var y := run.states[k];
    var d := StepVisited(s, y, batches[k]);
    due := RunProgress(s.c, d, r);
    FreshConverter(s, y);
    DueAgain(s.c, y.d, d, r, due);
  }
}
