/** Whole runs: every ACT that waits will find its bank closed and every column command its row
    open, except before a bank that was left behind by a refresh created in place of its own. */
module OpeningRuns {
  import opened Dram
  import opened BankModel
  import opened DriverModel
  import opened Rows
  import opened ControllerModel
  import opened ControllerSafety
  import opened Hazards
  import opened Quiet
  import opened CycleEvents
  import opened RefreshRuns
  import opened RefreshTurns
  import opened Choices
  import opened Openings
  import opened Runs
  import T = TwoReads
  import L = LostRefresh

  // ---------------------------------------------------------------- judging a state

  /** The commands that wait for a bank, oldest first. */
  ghost function WaitingFor(y: System, x: nat): seq<Command>
    requires x < |y.queues|
  {
    For(y.d.inputQ, x) + y.queues[x]
  }

  /** The bank's row buffer as the trace leaves it; a refresh that waits counts as closing it. */
  ghost function RowNow(c: Config, d: Driver, x: nat): RowBuffer {
    if Listed(c, d, x) then Closed else Replay(d.trace, x)
  }

  /** Replaying the waiting commands from `r`, every ACT finds the bank closed. */
  ghost predicate ActsFindClosed(r: RowBuffer, waiting: seq<Command>) {
    forall i :: 0 <= i < |waiting| && waiting[i].kind == ACT ==> RowAfter(r, waiting[..i]) == Closed
  }

  /** Every column command finds its row open, unless it is the oldest, not yet with the driver, and
      the bank is closed: the driver then opens its row first. */
  ghost predicate ColumnsFindRow(r: RowBuffer, waiting: seq<Command>, withDriver: bool) {
    forall i :: 0 <= i < |waiting| && IsColumn(waiting[i].kind) ==>
      RowAfter(r, waiting[..i]) == Open(waiting[i].row) || (i == 0 && r == Closed && !withDriver)
  }

  ghost predicate ActsOk(c: Config, y: System, x: nat) {
    x < |y.queues| && ActsFindClosed(RowNow(c, y.d, x), WaitingFor(y, x))
  }

  ghost predicate ColumnsOk(c: Config, y: System, x: nat) {
    x < |y.queues| && ColumnsFindRow(RowNow(c, y.d, x), WaitingFor(y, x), For(y.d.inputQ, x) != [])
  }

  lemma LeavesBefore(r: RowBuffer, s: seq<Command>, i: nat)
    requires 0 < i < |s| && Linked(s)
    ensures Follows(RowAfter(r, s[..i]), s[i])
  {
    assert Follows(Leaves(s[i - 1]), s[i]);
    assert s[..i][|s[..i]| - 1] == s[i - 1];
  }

  lemma OpensMeans(r: RowBuffer, s: seq<Command>, inQ: bool, believed: RowBuffer, stuck: bool)
    requires Opens(r, s, inQ, believed, stuck)
    ensures ActsFindClosed(r, s) <==> !stuck
    ensures !stuck ==> ColumnsFindRow(r, s, inQ)
  {
    forall i | 0 < i < |s|
      ensures Follows(RowAfter(r, s[..i]), s[i])
    {
      LeavesBefore(r, s, i);
    }
    assert s != [] ==> s[..0] == [] && RowAfter(r, []) == r;
  }

  lemma StateMeans(s: Setup, y: System, x: nat, stuck: bool)
    requires SystemInv(s, y) && x < s.c.Banks() && OpensAt(s.c, y.d, SystemBacklog(y), x, stuck)
    ensures ActsOk(s.c, y, x) <==> !stuck
    ensures !stuck ==> ColumnsOk(s.c, y, x)
  {
    var k := SystemBacklog(y);
    FlowAt(s.c, y.d, k, x);
    hide For, Opens, Listed, Eff, FlowOk, InOrder, ActsFindClosed, ColumnsFindRow;
    OpensMeans(HeadRow(s.c, y.d, x), WaitingFor(y, x), For(y.d.inputQ, x) != [], k.believed[x], stuck);
  }

  // ---------------------------------------------------------------- runs

  /** In the next cycle a refresh of another bank takes the place of the waiting one of bank `x`,
      which is open with an ACT as its oldest waiting command. */
  ghost predicate LeftBehind(s: Setup, y: System, x: nat) {
    var r := s.c.RankOf(x);
    && s.c.useRefresh && Shape(s.c, y.d) && r < s.c.Ranks() && y.d.refi[r] == 0
    && x !in Requesters(s.c, y.d, r) && Strands(s.c, y.d, SystemBacklog(y), x)
  }

  /** In the next cycle a refresh of bank `x` is created. */
  ghost predicate Freed(s: Setup, y: System, x: nat) {
    var r := s.c.RankOf(x);
    && s.c.useRefresh && Shape(s.c, y.d) && r < s.c.Ranks() && y.d.refi[r] == 0 && x in Requesters(s.c, y.d, r)
  }

  /** Bank `x` has been left behind and no refresh of it created since. */
  ghost predicate StuckAt(s: Setup, states: seq<System>, k: nat, x: nat)
    requires k < |states|
  {
    0 < k && !Freed(s, states[k - 1], x) && (StuckAt(s, states, k - 1, x) || LeftBehind(s, states[k - 1], x))
  }

  ghost predicate Steady(s: Setup, y: System) {
    TrackedFits(s.policy, y.tracked) && AllCovered(y.d.refreshQ)
  }

  lemma StartOpens(s: Setup, x: nat)
    requires s.c.Valid() && x < s.c.Banks()
    ensures Steady(s, Start(s)) && OpensAt(s.c, Start(s).d, SystemBacklog(Start(s)), x, false)
  {}

  lemma StuckIs(s: Setup, states: seq<System>, k: nat, x: nat)
    requires k + 1 < |states| && Shape(s.c, states[k].d) && s.c.RankOf(x) < s.c.Ranks()
    ensures StuckAfter(s.c, states[k].d, SystemBacklog(states[k]), x, StuckAt(s, states, k, x)) ==
            StuckAt(s, states, k + 1, x)
  {
    hide Strands, Shape, Requesters;
  }

  lemma UsedOf(s: Setup, y: System)
    requires SystemQuiet(s, y)
    ensures RefreshUsed(s.c, y.d)
  {}

  lemma CycleOpens(s: Setup, y: System, arrivals: seq<Txn>, x: nat, stuck: bool)
    requires SystemInv(s, y) && SystemQuiet(s, y) && RequestsOk(s, y.queues, y.tracked, arrivals) && SystemShape(s, y)
    requires Steady(s, y) && OpensAt(s.c, y.d, SystemBacklog(y), x, stuck)
    ensures Shape(s.c, y.d) && s.c.RankOf(x) < s.c.Ranks() && Steady(s, Step(s, y, arrivals).0)
    ensures var y' := Step(s, y, arrivals).0;
      OpensAt(s.c, y'.d, SystemBacklog(y'), x, StuckAfter(s.c, y.d, SystemBacklog(y), x, stuck))
  {
    hide SystemInv, SystemQuiet, RequestsOk, OpensAt, Step, TrackedFits, AllCovered, SystemShape, Shape, ChoosesBest;
    UsedOf(s, y);
    StepOpens(s, y, arrivals, x, stuck);
    var q, picked := StepChooses(s, y, arrivals);
  }

  lemma {:induction false} RunOpenings(s: Setup, batches: seq<seq<Txn>>, run: Run, k: nat, x: nat)
    requires IsRun(s, batches, run) && k < |run.states| && x < s.c.Banks()
    ensures SystemInv(s, run.states[k]) && SystemQuiet(s, run.states[k]) && Steady(s, run.states[k])
    ensures OpensAt(s.c, run.states[k].d, SystemBacklog(run.states[k]), x, StuckAt(s, run.states, k, x))
    decreases k
  {
    hide SystemInv, SystemQuiet, Steady, OpensAt, Step, Start, SystemShape, RequestsOk, ArrivalsOk, RunSystem,
      StuckAt, Shape;
    StatesOfRun(s, batches, run, k);
    RunInv(s, batches[..k]);
    RunsAreQuiet(s, batches[..k]);
    if k == 0 {
      StartOpens(s, x);
      NotStuckYet(s, run.states, x);
    } else {
      RunOpenings(s, batches, run, k - 1, x);
      assert CycleAt(s, batches, run, k - 1);
      CycleOpens(s, run.states[k - 1], batches[k - 1], x, StuckAt(s, run.states, k - 1, x));
      StuckIs(s, run.states, k - 1, x);
    }
  }

  lemma NotStuckYet(s: Setup, states: seq<System>, x: nat)
    requires states != []
    ensures !StuckAt(s, states, 0, x)
  {}

  /** In every state of every run, for every bank: replaying its row buffer over the trace and then
      its waiting commands, every ACT finds the bank closed if and only if the bank is not one left
      behind; and then every column command finds its row open. */
  lemma ActsFindTheirBankClosed(s: Setup, batches: seq<seq<Txn>>, run: Run, k: nat, x: nat)
    requires IsRun(s, batches, run) && k < |run.states| && x < s.c.Banks()
    ensures ActsOk(s.c, run.states[k], x) <==> !StuckAt(s, run.states, k, x)
    ensures ActsOk(s.c, run.states[k], x) ==> ColumnsOk(s.c, run.states[k], x)
  {
    hide *;
    RunOpenings(s, batches, run, k, x);
    StateMeans(s, run.states[k], x, StuckAt(s, run.states, k, x));
  }

  lemma {:induction false} NeverStuck(s: Setup, states: seq<System>, k: nat, x: nat)
    requires k < |states| && forall j :: 0 <= j < k ==> !LeftBehind(s, states[j], x)
    ensures !StuckAt(s, states, k, x)
    decreases k
  {
    hide LeftBehind, Freed;
    if 0 < k { NeverStuck(s, states, k - 1, x); }
  }

  /** In every run: every ACT finds its bank closed in all states up to `k` if and only if in no
      cycle before `k` the bank is left behind. */
  lemma ActsFindTheirBankClosedExactly(s: Setup, batches: seq<seq<Txn>>, run: Run, k: nat, x: nat)
    requires IsRun(s, batches, run) && k < |run.states| && x < s.c.Banks()
    ensures (forall n :: 0 <= n <= k ==> ActsOk(s.c, run.states[n], x)) <==>
            (forall n :: 0 <= n < k ==> !LeftBehind(s, run.states[n], x))
  {
    hide IsRun, ActsOk, ColumnsOk, LeftBehind;
    forall n | 0 <= n <= k
      ensures ActsOk(s.c, run.states[n], x) <==> !StuckAt(s, run.states, n, x)
    {
      ActsFindTheirBankClosed(s, batches, run, n, x);
    }
    if forall n :: 0 <= n < k ==> !LeftBehind(s, run.states[n], x) {
      forall n | 0 <= n <= k
        ensures !StuckAt(s, run.states, n, x)
      {
        NeverStuck(s, run.states, n, x);
      }
    } else {
      var n :| 0 <= n < k && LeftBehind(s, run.states[n], x);
      NotFreed(s, run.states[n], x);
      assert StuckAt(s, run.states, n + 1, x);
    }
  }

  lemma NotFreed(s: Setup, y: System, x: nat)
    requires LeftBehind(s, y, x)
    ensures !Freed(s, y, x)
  {}

  // ---------------------------------------------------------------- where no bank is left behind

  /** Without single-bank refresh, what waits for a rank is the refresh of all its banks. */
  ghost predicate WholeRankWaits(c: Config, d: Driver, r: nat) {
    r < |d.refreshQ| && r < |c.banksOfRank| &&
    var q := d.refreshQ[r]; q != [] ==> q[|q| - 1].banks == c.banksOfRank[r]
  }

  lemma CycleWholeRank(c: Config, d: Driver, d': Driver, first: seq<Event>, second: seq<Event>,
                       due: map<nat, seq<GroupCommand>>, r: nat)
    requires Shape(c, d) && CycleParts(c, d, d', first, second, due) && r < c.Ranks() && !c.singleBankRefresh
    requires WholeRankWaits(c, d, r)
    ensures WholeRankWaits(c, d', r)
  {
    RanksOf(c, d);
    hide Shape, RankEvents, Requests;
    if c.useRefresh { assert RankPart(c, d, d', r, due, RankEvents(c, first, r)); }
  }

  lemma StartWhole(s: Setup, r: nat)
    requires s.c.Valid() && r < s.c.Ranks()
    ensures WholeRankWaits(s.c, Start(s).d, r)
  {}

  lemma {:induction false} WholeRanksWait(s: Setup, batches: seq<seq<Txn>>, run: Run, k: nat, r: nat)
    requires IsRun(s, batches, run) && k < |run.states| && r < s.c.Ranks() && !s.c.singleBankRefresh
    ensures WholeRankWaits(s.c, run.states[k].d, r)
    decreases k
  {
    hide WholeRankWaits, CycleParts, Shape, SystemInv, SystemQuiet, Step, Start, SystemShape, RequestsOk, ArrivalsOk;
    if k == 0 {
      StartWhole(s, r);
    } else {
      WholeRanksWait(s, batches, run, k - 1, r);
      var first, second, due := CycleOfRun(s, batches, run, k - 1);
      CycleWholeRank(s.c, run.states[k - 1].d, run.states[k].d, first, second, due, r);
    }
  }

  lemma NotLeftBehind(s: Setup, y: System, x: nat)
    requires !s.c.singleBankRefresh ==> WholeRankWaits(s.c, y.d, s.c.RankOf(x))
    requires s.c.singleBankRefresh ==> !Drops(y.d, s.c.RankOf(x))
    ensures !LeftBehind(s, y, x)
  {
    hide HeadAct, Eff;
  }

  /** When refreshes are of whole ranks, or none of the bank's rank has been dropped, every ACT that
      waits for the bank finds it closed. */
  lemma ActsAlwaysFindTheirBankClosed(s: Setup, batches: seq<seq<Txn>>, run: Run, k: nat, x: nat)
    requires IsRun(s, batches, run) && k < |run.states| && x < s.c.Banks()
    requires !s.c.singleBankRefresh || forall n :: 0 <= n < k ==> !Drops(run.states[n].d, s.c.RankOf(x))
    ensures ActsOk(s.c, run.states[k], x) && ColumnsOk(s.c, run.states[k], x)
  {
    hide ActsOk, ColumnsOk, LeftBehind, WholeRankWaits, Drops, WfBank, CycleAt, ArrivalsOk;
    BankIsWf(s.c, x);
    RankIsOne(s.c, x);
    forall n | 0 <= n < k
      ensures !LeftBehind(s, run.states[n], x)
    {
      if !s.c.singleBankRefresh { WholeRanksWait(s, batches, run, n, s.c.RankOf(x)); }
      NotLeftBehind(s, run.states[n], x);
    }
    NeverStuck(s, run.states, k, x);
    ActsFindTheirBankClosed(s, batches, run, k, x);
  }

  lemma RankIsOne(c: Config, x: nat)
    requires c.Valid() && WfBank(c, x)
    ensures c.RankOf(x) < c.Ranks()
  {}

  // ---------------------------------------------------------------- the run in which one is

  ghost function LostRun(): (run: Run)
    ensures |run.states| == 7 && forall n :: 0 <= n <= 6 ==> run.states[n] == L.System(n)
  {
    Run(seq(7, n requires 0 <= n < 7 => L.System(n)), seq(6, n => true))
  }

  function LostInputs(): (batches: seq<seq<Txn>>)
    ensures |batches| == 6 && forall n :: 0 <= n < 6 ==> batches[n] == L.Arrivals(n)
  {
    seq(6, n requires 0 <= n => L.Arrivals(n))
  }

  lemma LostIsRun()
    ensures IsRun(L.S, LostInputs(), LostRun())
  {
    hide Step, SystemShape, RequestsOk, Start, L.System;
    L.Starts();
    forall n | 0 <= n < 6
      ensures CycleAt(L.S, LostInputs(), LostRun(), n) && ArrivalsOk(L.C, LostInputs()[n])
    {
      L.Next(n);
    }
  }

  lemma LostInputsOk()
    ensures InputOk(L.C, addr => 0, LostInputs())
  {
    hide LostInputs, Flat;
    FlatLost(6);
    AllOfIt(LostInputs());
    assert forall n :: 0 <= n < 6 ==> LostInputs()[n] == [] || LostInputs()[n] == [L.FIRST];
  }

  lemma AllOfIt(batches: seq<seq<Txn>>)
    ensures batches[..|batches|] == batches
  {}

  lemma {:induction false} FlatLost(n: nat)
    requires n <= 6
    ensures Flat(LostInputs()[..n]) == if n == 0 then [] else [L.FIRST]
    decreases n
  {
    if 0 < n {
      FlatLost(n - 1);
      assert LostInputs()[..n][..n - 1] == LostInputs()[..n - 1];
    }
  }

  /** One read, two banks and single-bank refresh: the refresh of bank 0 waits for its precharge
      when that of bank 1 is created. The ACT that was to open bank 0 again then waits before the
      open bank, and the first REF of the trace is for bank 1. */
  lemma RefreshIsLost() returns (batches: seq<seq<Txn>>, run: Run)
    ensures IsRun(L.S, batches, run) && InputOk(L.S.c, addr => 0, batches) && |run.states| == 7
    ensures !ActsOk(L.C, run.states[6], 0) && Dropped(run.states, 6, 0) == 1
    ensures var refs := Refs(L.C, run.states[6].d.trace, 0); |refs| == 1 && !RoundRobin(L.C, refs, 0)
  {
    batches, run := LostInputs(), LostRun();
    LostIsRun();
    LostInputsOk();
    hide IsRun, InputOk;
    LostDropped();
    LostRefs();
    LostAct();
  }

  lemma LostDropped()
    ensures Dropped(LostRun().states, 6, 0) == 1
  {
    var states := LostRun().states;
    assert forall n :: 0 <= n < 5 ==> !Drops(states[n].d, 0);
    assert Drops(states[5].d, 0);
    hide Drops, LostRun;
    assert Dropped(states, 1, 0) == Dropped(states, 2, 0) == Dropped(states, 3, 0) == 0;
    assert Dropped(states, 4, 0) == Dropped(states, 5, 0) == 0;
  }

  lemma LostRefs()
    ensures var refs := Refs(L.C, L.System(6).d.trace, 0); |refs| == 1 && L.C.Valid() && !RoundRobin(L.C, refs, 0)
  {
    L.ConfigIsValid();
    var e := Event(6, L.SECOND_REF);
    assert L.System(6).d.trace == [T.ACTED[0], e];
    assert [T.ACTED[0], e][1..] == [e] && [e][1..] == [];
    assert Refs(L.C, [], 0) == [] && Refs(L.C, [e], 0) == [e];
    assert Refs(L.C, L.System(6).d.trace, 0) == [e];
    assert TurnBank(L.C, 0, 0) == 0;
  }

  lemma LostAct()
    ensures !ActsOk(L.C, L.System(6), 0)
  {
    var y := L.System(6);
    var trace := y.d.trace;
    assert trace[..1] == T.ACTED && T.ACTED[..0] == [];
    assert Replay(T.ACTED, 0) == Open(0) && Replay(trace, 0) == Open(0);
    assert L.LEFT[1..] == [L.READS] && L.LEFT[1..][1..] == [];
    assert For(L.LEFT, 0)[0] == L.REOPENS;
    var waiting := WaitingFor(y, 0);
    assert waiting[0] == L.REOPENS && waiting[..0] == [];
    assert RowAfter(Open(0), []) == Open(0);
  }
}
