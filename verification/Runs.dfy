/** The main theorems, over runs seen as sequences of controller states: a run starts in the
    initial state and takes one clock cycle per batch of arriving transactions. */
module Runs {
  import opened Dram
  import opened DriverModel
  import opened Spacing
  import opened Rows
  import opened Faw
  import opened ControllerModel
  import opened ControllerSafety
  import opened Hazards
  import opened WriteOrder
  import opened DriverSafety
  import opened Quiet
  import opened RefreshRuns
  import opened Monotone
  import opened Buses
  import opened Choices
  import opened Arithmetic
  import opened DataBus
  import T = TwoReads

  /** A run: its states, and for each cycle whether all assertions held. */
  datatype Run = Run(states: seq<System>, flags: seq<bool>)

  /** One clock cycle from `y` to `y'`. */
  ghost predicate Cycle(s: Setup, y: System, arrivals: seq<Txn>, y': System, flag: bool) {
    SystemShape(s, y) && RequestsOk(s, y.queues, y.tracked, arrivals) && (y', flag) == Step(s, y, arrivals)
  }

  ghost predicate CycleAt(s: Setup, batches: seq<seq<Txn>>, run: Run, n: nat)
    requires n < |batches| && n < |run.flags| && n + 1 < |run.states|
  {
    Cycle(s, run.states[n], batches[n], run.states[n + 1], run.flags[n])
  }

  ghost predicate IsRun(s: Setup, batches: seq<seq<Txn>>, run: Run) {
    && s.c.Valid() && (forall n :: 0 <= n < |batches| ==> ArrivalsOk(s.c, batches[n]))
    && |run.states| == |batches| + 1 && |run.flags| == |batches|
    && run.states[0] == Start(s)
    && forall n :: 0 <= n < |batches| ==> CycleAt(s, batches, run, n)
  }

  /** The states of a run are those of the recursive definition. */
  lemma {:induction false} StatesOfRun(s: Setup, batches: seq<seq<Txn>>, run: Run, k: nat)
    requires IsRun(s, batches, run) && k <= |batches|
    ensures forall n :: 0 <= n < k ==> ArrivalsOk(s.c, batches[..k][n])
    ensures run.states[k] == RunSystem(s, batches[..k]).0
    ensures 0 < k ==> RunSystem(s, batches[..k]).1 ==> run.flags[k - 1]
    decreases k
  {
    hide Step, Start, SystemShape, RequestsOk, ArrivalsOk;
    if 0 < k {
      StatesOfRun(s, batches, run, k - 1);
      assert CycleAt(s, batches, run, k - 1);
      assert batches[..k][..k - 1] == batches[..k - 1];
    }
  }

  /** In every state of every run, all commands issued so far keep the distances the timing
      tables demand. */
  lemma CommandsKeepTheirDistance(s: Setup, batches: seq<seq<Txn>>, run: Run, k: nat)
    requires IsRun(s, batches, run) && k < |run.states|
    ensures PairwiseSafe(s.c, run.states[k].d.trace)
  {
    hide *;
    StateIsSafe(s, batches, run, k);
  }

  /** Bank lifecycle: from an ACT to a column command at least nRCD cycles and to a PRE at least
      nRAS, from a PRE to an ACT at least nRP, from a REF to an ACT at least nRFC. */
  ghost predicate LifecycleTimes(p: Params, first: Event, second: Event) {
    && (first.cmd.kind == ACT && IsColumn(second.cmd.kind) ==> first.cycle + p.nRCD <= second.cycle)
    && (first.cmd.kind == ACT && second.cmd.kind == PRE ==> first.cycle + p.nRAS <= second.cycle)
    && (first.cmd.kind == PRE && second.cmd.kind == ACT ==> first.cycle + p.nRP <= second.cycle)
    && (first.cmd.kind == REF && second.cmd.kind == ACT ==> first.cycle + p.nRFC <= second.cycle)
  }

  lemma BankLifecycle(s: Setup, batches: seq<seq<Txn>>, run: Run, k: nat, m: nat, n: nat)
    requires IsRun(s, batches, run) && k < |run.states| && m < n < |run.states[k].d.trace|
    requires run.states[k].d.trace[m].cmd.bank == run.states[k].d.trace[n].cmd.bank
    ensures LifecycleTimes(s.c.p, run.states[k].d.trace[m], run.states[k].d.trace[n])
  {
    hide IsRun;
    CommandsKeepTheirDistance(s, batches, run, k);
    var trace := run.states[k].d.trace;
    assert trace[m].cycle + RequiredGap(s.c, trace[m].cmd, trace[n].cmd) <= trace[n].cycle;
  }

  /** Every column command meets its own row; ACT and REF meet a closed bank. */
  lemma CommandsMeetTheirRow(s: Setup, batches: seq<seq<Txn>>, run: Run, k: nat)
    requires IsRun(s, batches, run) && k < |run.states|
    ensures RowSafe(run.states[k].d.trace)
  {
    hide *;
    StateIsSafe(s, batches, run, k);
  }

  /** No rank sees more than four ACTs in nFAW consecutive cycles. */
  lemma FourActivateWindow(s: Setup, batches: seq<seq<Txn>>, run: Run, k: nat)
    requires IsRun(s, batches, run) && k < |run.states|
    ensures FawSafe(s.c, run.states[k].d.trace)
  {
    hide *;
    StateIsSafe(s, batches, run, k);
  }

  /** The driver's assertion that a rank gets one ACT per cycle never fails. */
  lemma OneActPerCycle(s: Setup, batches: seq<seq<Txn>>, run: Run, k: nat)
    requires IsRun(s, batches, run) && k < |run.states|
    ensures ActsApart(s.c, run.states[k].d.trace)
  {
    hide RunSystem, CycleAt, ArrivalsOk;
    StatesOfRun(s, batches, run, k);
    RunInv(s, batches[..k]);
    StateActsApart(s, run.states[k]);
  }

  lemma StateActsApart(s: Setup, y: System)
    requires SystemInv(s, y)
    ensures s.c.Valid() && ActsApart(s.c, y.d.trace)
  {
    hide SpacingInv, FlowOn, SystemShape, FawSafe;
    SingleActsApart(s.c, y.d.trace);
  }

  lemma StateIsSafe(s: Setup, batches: seq<seq<Txn>>, run: Run, k: nat)
    requires IsRun(s, batches, run) && k < |run.states|
    ensures var trace := run.states[k].d.trace;
      PairwiseSafe(s.c, trace) && RowSafe(trace) && FawSafe(s.c, trace) && SameBankInOrder(trace)
    ensures WithinEntries(s, run.states[k].queues) && (0 < k ==> run.flags[k - 1])
  {
    hide RunSystem, PairwiseSafe, RowSafe, FawSafe, SameBankInOrder, Step, SystemShape, RequestsOk;
    StatesOfRun(s, batches, run, k);
    RunsAreSafe(s, batches[..k]);
  }

  /** Flow control suffices: no assertion of the converter or the command queues ever fails, and
      no command queue outgrows its size. */
  lemma FlowControlSuffices(s: Setup, batches: seq<seq<Txn>>, run: Run, k: nat)
    requires IsRun(s, batches, run) && k < |batches|
    ensures run.flags[k] && WithinEntries(s, run.states[k].queues)
  {
    hide *;
    RunSize(s, batches, run);
    StateIsSafe(s, batches, run, k);
    StateIsSafe(s, batches, run, k + 1);
  }

  lemma RunSize(s: Setup, batches: seq<seq<Txn>>, run: Run)
    requires IsRun(s, batches, run)
    ensures |run.states| == |batches| + 1 && |run.flags| == |batches|
  {}

  // ---------------------------------------------------------------- refresh

  /** A cycle adds refresh commands first, for each rank the first group of its due queue to all
      the listed banks or nothing, then ordinary commands for ranks without a refresh pending. */
  ghost predicate WholeGroups(c: Config, d: Driver, d': Driver) {
    Shape(c, d) && exists first, second, due :: CycleParts(c, d, d', first, second, due)
  }

  lemma RefreshGroupsAreWhole(s: Setup, batches: seq<seq<Txn>>, run: Run, k: nat)
    requires IsRun(s, batches, run) && k < |batches|
    ensures k + 1 < |run.states| && WholeGroups(s.c, run.states[k].d, run.states[k + 1].d)
  {
    hide CycleParts, Shape, SystemInv, SystemQuiet;
    var first, second, due := CycleOfRun(s, batches, run, k);
  }

  lemma CycleOfRun(s: Setup, batches: seq<seq<Txn>>, run: Run, k: nat)
    returns (first: seq<Event>, second: seq<Event>, due: map<nat, seq<GroupCommand>>)
    requires IsRun(s, batches, run) && k < |batches|
    ensures k + 1 < |run.states| && SystemInv(s, run.states[k]) && SystemQuiet(s, run.states[k])
    ensures Shape(s.c, run.states[k].d) && CycleParts(s.c, run.states[k].d, run.states[k + 1].d, first, second, due)
  {
    hide RunSystem, SystemShape, Step, RequestsOk, SystemInv, SystemQuiet, CycleParts, ArrivalsOk;
    StatesOfRun(s, batches, run, k);
    RunInv(s, batches[..k]);
    RunsAreQuiet(s, batches[..k]);
    assert CycleAt(s, batches, run, k);
    first, second, due := StepEvents(s, run.states[k], batches[k]);
  }

  /** From the state in which a refresh of a rank is due or pending, an ordinary command reaches
      the rank only after a REF of the rank. */
  lemma {:induction false} OrdinaryOnlyAfterRef(s: Setup, batches: seq<seq<Txn>>, run: Run, k: nat, n: nat, r: nat)
    requires IsRun(s, batches, run) && k <= n < |run.states| && s.c.useRefresh && r < s.c.Ranks()
    requires r < |run.states[k].d.refi| && r < |run.states[k].d.refreshQ| && Owing(run.states[k].d, r)
    ensures |run.states[k].d.trace| <= |run.states[n].d.trace| && r < |run.states[n].d.refreshQ|
    ensures r < |run.states[n].d.refi|
    ensures OnlyAfterRef(s.c, run.states[n].d.trace, |run.states[k].d.trace|, r)
    ensures Refreshed(s.c, run.states[n].d.trace, |run.states[k].d.trace|, r) || Owing(run.states[n].d, r)
    decreases n - k
  {
    hide OnlyAfterRef, Refreshed, CycleAt, ArrivalsOk;
    var from := |run.states[k].d.trace|;
    if n == k {
      NothingYet(s.c, run.states[k].d.trace, r);
    } else {
      OrdinaryOnlyAfterRef(s, batches, run, k, n - 1, r);
      var first, second, due := CycleOfRun(s, batches, run, n - 1);
      RefreshStateOf(s, run.states[n - 1], r);
      CycleAfterRef(s.c, run.states[n - 1].d, run.states[n].d, first, second, due, from, r);
      StateShape(s, batches, run, n);
    }
  }

  lemma NothingYet(c: Config, trace: seq<Event>, r: nat)
    ensures OnlyAfterRef(c, trace, |trace|, r)
  {}

  lemma RefreshStateOf(s: Setup, y: System, r: nat)
    requires SystemInv(s, y) && SystemQuiet(s, y) && r < s.c.Ranks()
    ensures r < |y.d.refreshQ| && WellFormedQueue(y.d.refreshQ[r])
  {}

  lemma StateShape(s: Setup, batches: seq<seq<Txn>>, run: Run, k: nat)
    requires IsRun(s, batches, run) && k < |run.states|
    ensures SystemInv(s, run.states[k]) && |run.states[k].d.refi| == |run.states[k].d.refreshQ| == s.c.Ranks()
  {
    hide RunSystem, CycleAt, ArrivalsOk, Safe;
    StatesOfRun(s, batches, run, k);
    RunInv(s, batches[..k]);
  }

  /** While a refresh of a rank is pending, every command that reaches the rank is one of a
      refresh. */
  ghost predicate OnlyRefresh(c: Config, trace: seq<Event>, from: nat, r: nat) {
    forall p :: from <= p < |trace| && c.RankOf(trace[p].cmd.bank) == r ==> trace[p].cmd.origin == Refresh
  }

  lemma {:induction false} PendingIsQuiet(s: Setup, batches: seq<seq<Txn>>, run: Run, k: nat, n: nat, r: nat)
    requires IsRun(s, batches, run) && k <= n < |run.states| && r < s.c.Ranks()
    requires forall j :: k < j <= n ==> r < |run.states[j].d.refreshQ| && run.states[j].d.refreshQ[r] != []
    ensures run.states[k].d.trace <= run.states[n].d.trace
    ensures OnlyRefresh(s.c, run.states[n].d.trace, |run.states[k].d.trace|, r)
    decreases n - k
  {
    hide CycleAt, ArrivalsOk;
    if k < n {
      PendingIsQuiet(s, batches, run, k, n - 1, r);
      var first, second, due := CycleOfRun(s, batches, run, n - 1);
      QuietCycle(s, run.states[n - 1], run.states[n], first, second, due, |run.states[k].d.trace|, r);
    }
  }

  lemma QuietCycle(s: Setup, y: System, y': System, first: seq<Event>, second: seq<Event>,
                   due: map<nat, seq<GroupCommand>>, from: nat, r: nat)
    requires SystemInv(s, y) && SystemQuiet(s, y) && Shape(s.c, y.d) && CycleParts(s.c, y.d, y'.d, first, second, due)
    requires r < |y'.d.refreshQ| && y'.d.refreshQ[r] != [] && from <= |y.d.trace|
    requires OnlyRefresh(s.c, y.d.trace, from, r)
    ensures y.d.trace <= y'.d.trace && OnlyRefresh(s.c, y'.d.trace, from, r)
  {
    RefreshStateOf(s, y, r);
    assert y.d.refreshQ[r] != [] ==> s.c.useRefresh;
    hide SystemInv, Shape, RankPart;
  }

  // ---------------------------------------------------------------- the data bus

  /** Nothing is issued in cycle 0. */
  lemma {:induction false} IssuedFromOne(s: Setup, batches: seq<seq<Txn>>, run: Run, k: nat)
    requires IsRun(s, batches, run) && k < |run.states|
    ensures forall i :: 0 <= i < |run.states[k].d.trace| ==> 1 <= run.states[k].d.trace[i].cycle
    decreases k
  {
    hide CycleAt, ArrivalsOk;
    if 0 < k {
      IssuedFromOne(s, batches, run, k - 1);
      var first, second, due := CycleOfRun(s, batches, run, k - 1);
      LaterEvents(s.c, run.states[k - 1].d, run.states[k].d, first, second, due);
    }
  }

  lemma LaterEvents(c: Config, d: Driver, d': Driver, first: seq<Event>, second: seq<Event>,
                    due: map<nat, seq<GroupCommand>>)
    requires Shape(c, d) && CycleParts(c, d, d', first, second, due)
    requires forall i :: 0 <= i < |d.trace| ==> 1 <= d.trace[i].cycle
    ensures forall i :: 0 <= i < |d'.trace| ==> 1 <= d'.trace[i].cycle
  {
    hide Shape, RankPart;
  }

  /** With these timings the driver's data-bus assertion never fails. */
  lemma DataBusIsFree(s: Setup, batches: seq<seq<Txn>>, run: Run, k: nat)
    requires IsRun(s, batches, run) && k < |run.states| && BusTimings(s.c.p)
    ensures BusSafe(s.c, run.states[k].d.trace)
  {
    hide CycleAt, ArrivalsOk, PairwiseSafe, RowSafe, FawSafe, SameBankInOrder, BusTimings, BusSafe;
    StateIsSafe(s, batches, run, k);
    IssuedFromOne(s, batches, run, k);
    SafeTraceIsBusSafe(s.c, run.states[k].d.trace);
  }

  /** The controller with two reads of one row arriving. */
  ghost function TwoReadsRun(p: Params, n: nat): (run: Run)
    requires p.Valid()
    ensures |run.states| == n + 1 && forall k :: 0 <= k <= n ==> run.states[k] == T.After(p, k)
  {
    Run(seq(n + 1, k requires 0 <= k => T.After(p, k)), seq(n, k requires 0 <= k => CycleFlag(p, k)))
  }

  ghost function CycleFlag(p: Params, k: nat): bool
    requires p.Valid()
  {
    T.AfterNext(p, k);
    Step(T.OneBankSetup(p), T.After(p, k), T.Arrivals(k)).1
  }

  lemma TwoReadsIsRun(p: Params, n: nat)
    requires p.Valid()
    ensures IsRun(T.OneBankSetup(p), T.Inputs(n), TwoReadsRun(p, n))
  {
    hide Step, Start, SystemShape, RequestsOk, ArrivalsOk, T.After, T.OneBankSetup, T.Arrivals;
    T.InputsOk(p, n);
    T.StartIsStill(p);
    forall k | 0 <= k < n
      ensures CycleAt(T.OneBankSetup(p), T.Inputs(n), TwoReadsRun(p, n), k)
    {
      T.AfterNext(p, k);
    }
  }

  /** With other timings one of the two reads fails the assertion. */
  lemma ReadsTooClose(p: Params)
    requires p.Valid() && !BusTimings(p)
    ensures !BusSafe(T.OneBank(p), T.BothReads(p))
  {
    var c, trace := T.OneBank(p), T.BothReads(p);
    assert trace[..1] == T.ACTED && trace[..2] == T.OneRead(p) && T.ACTED[..0] == [];
    assert Remembered(c, []) == LastData(READ, 0, 0);
    assert Remembered(c, T.ACTED) == LastData(READ, 0, 0);
    assert Remembered(c, T.OneRead(p)) == LastData(READ, 0, T.FirstCycle(p));
    if T.FirstCycle(p) < DataGap(p) { assert !BusAssertion(c, trace, 1); } else { assert !BusAssertion(c, trace, 2); }
  }

  lemma FailingRun(p: Params) returns (s: Setup, batches: seq<seq<Txn>>, run: Run)
    requires p.Valid() && !BusTimings(p)
    ensures s.c.p == p && IsRun(s, batches, run) && InputOk(s.c, addr => 0, batches)
    ensures run.states != [] && !BusSafe(s.c, run.states[|run.states| - 1].d.trace)
  {
    hide IsRun, BusSafe, T.After, BusTimings, InputOk;
    var n := T.SecondCycle(p);
    s, batches, run := T.OneBankSetup(p), T.Inputs(n), TwoReadsRun(p, n);
    TwoReadsIsRun(p, n);
    T.SecondReadGoes(p);
    ReadsTooClose(p);
    T.InputsAreOk(p, n);
  }

  /** The data-bus assertion holds in every state of every run of every controller with the given
      timings. */
  ghost predicate BusAlwaysSafe(p: Params) {
    forall s: Setup, hash: nat -> nat, batches, run ::
      s.c.p == p && IsRun(s, batches, run) && InputOk(s.c, hash, batches) ==> BusSafeThroughout(s, run)
  }

  ghost predicate BusSafeThroughout(s: Setup, run: Run) {
    forall k :: 0 <= k < |run.states| ==> BusSafe(s.c, run.states[k].d.trace)
  }

  /** Exactly when min(nBL, max(nCCD_L, nCCD_S)) is at most nCCD_L and at most nRCD + 1. */
  lemma DataBusExactly(p: Params)
    requires p.Valid()
    ensures BusAlwaysSafe(p) <==> BusTimings(p)
  {
    hide IsRun, InputOk, BusSafe, BusTimings;
    if BusTimings(p) {
      forall s: Setup, hash: nat -> nat, batches, run
        | s.c.p == p && IsRun(s, batches, run) && InputOk(s.c, hash, batches)
        ensures BusSafeThroughout(s, run)
      {
        forall k | 0 <= k < |run.states|
          ensures BusSafe(s.c, run.states[k].d.trace)
        {
          DataBusIsFree(s, batches, run, k);
        }
      }
    } else {
      var s, batches, run := FailingRun(p);
      assert !BusSafeThroughout(s, run);
    }
  }

  /** Every column command serves an arrived transaction, none is served twice, and conflicting
      ones are served in the order of their arrival. */
  lemma HazardsAreServedInOrder(s: Setup, hash: nat -> nat, batches: seq<seq<Txn>>, run: Run)
    requires IsRun(s, batches, run) && InputOk(s.c, hash, batches)
    ensures var y := run.states[|batches|]; ServedInOrder(s, y.owner, y.d.trace)
  {
    hide RunSystem, ServedInOrder, Cycle, Flat;
    StatesOfRun(s, batches, run, |batches|);
    assert batches[..|batches|] == batches;
    RunsServeInOrder(s, hash, batches);
  }

  /** Commands are made for arrived transactions only. */
  lemma OnlyArrivalsAreServed(s: Setup, hash: nat -> nat, batches: seq<seq<Txn>>, run: Run)
    requires IsRun(s, batches, run) && InputOk(s.c, hash, batches)
    ensures OwnersArrived(run.states[|batches|].owner, Flat(batches))
  {
    hide RunSystem, Cycle, Flat, InputOk;
    StatesOfRun(s, batches, run, |batches|);
    assert batches[..|batches|] == batches;
    RunsServeInOrder(s, hash, batches);
  }

  ghost predicate OwnersArrived(owner: seq<Made>, arrived: seq<Txn>) {
    forall i :: 0 <= i < |owner| ==> owner[i].txn in arrived
  }

  /** Earliest-issue cycles never decrease over a run. */
  lemma {:induction false} EarliestIssueIsMonotone(s: Setup, batches: seq<seq<Txn>>, run: Run, k: nat, n: nat)
    requires IsRun(s, batches, run) && k <= n < |run.states|
    ensures Later(run.states[k].d.banks, run.states[n].d.banks)
    decreases n - k
  {
    hide Step, Start, SystemShape, RequestsOk, ArrivalsOk, SystemInv, RunSystem;
    if k < n {
      EarliestIssueIsMonotone(s, batches, run, k, n - 1);
      StatesOfRun(s, batches, run, n - 1);
      RunInv(s, batches[..n - 1]);
      assert CycleAt(s, batches, run, n - 1);
      StepUp(s, run.states[n - 1], batches[n - 1]);
      LaterTrans(run.states[k].d.banks, run.states[n - 1].d.banks, run.states[n].d.banks);
    }
  }

  // ---------------------------------------------------------------- the command buses

  ghost predicate UpToNow(d: Driver) { forall i :: 0 <= i < |d.trace| ==> d.trace[i].cycle <= d.now }

  lemma StepBuses(s: Setup, y: System, arrivals: seq<Txn>)
    requires SystemInv(s, y) && RequestsOk(s, y.queues, y.tracked, arrivals) && SystemShape(s, y)
    requires BusesKept(s.c, y.d.trace) && UpToNow(y.d) && y.d.trace <= Step(s, y, arrivals).0.d.trace
    requires Step(s, y, arrivals).0.d.now == y.d.now + 1
    ensures BusesKept(s.c, Step(s, y, arrivals).0.d.trace)
  {
    hide Step, SystemInv, SystemShape, RequestsOk, Shape, BusesKept, CycleBuses, DriverModel.Run;
    var d := StepVisited(s, y, arrivals);
    RunBuses(s.c, d);
    CycleKeepsBuses(s.c, Step(s, y, arrivals).0.d, y.d.trace);
  }

  lemma PartsUpToNow(c: Config, d: Driver, d': Driver, first: seq<Event>, second: seq<Event>,
                     due: map<nat, seq<GroupCommand>>)
    requires Shape(c, d) && CycleParts(c, d, d', first, second, due) && UpToNow(d)
    ensures UpToNow(d') && d.trace <= d'.trace && d'.now == d.now + 1
  {
    hide Shape, RankPart;
  }

  /** In every run, two commands that reach one channel in one cycle are of one refresh group or,
      with a dual bus, one is a column and the other a row command. */
  lemma {:induction false} BusesAreKept(s: Setup, batches: seq<seq<Txn>>, run: Run, k: nat)
    requires IsRun(s, batches, run) && k < |run.states|
    ensures BusesKept(s.c, run.states[k].d.trace) && UpToNow(run.states[k].d)
    decreases k
  {
    hide BusesKept, UpToNow, SystemInv, SystemQuiet, SystemShape, RequestsOk, Step, Start, ArrivalsOk, CycleParts;
    if k == 0 {
      NoCommandsYet(s);
    } else {
      BusesAreKept(s, batches, run, k - 1);
      var first, second, due := CycleOfRun(s, batches, run, k - 1);
      PartsUpToNow(s.c, run.states[k - 1].d, run.states[k].d, first, second, due);
      assert CycleAt(s, batches, run, k - 1);
      StepBuses(s, run.states[k - 1], batches[k - 1]);
    }
  }

  lemma NoCommandsYet(s: Setup)
    requires s.c.Valid()
    ensures BusesKept(s.c, Start(s).d.trace) && UpToNow(Start(s).d)
  {}

  // ---------------------------------------------------------------- the scheduler's choice

  /** What a cycle picks from queues that hold `q` is the best of each channel, and is what the
      converter makes commands for. */
  ghost predicate ChoosesBest(s: Setup, y: System, y': System, q: TxnQueues, picked: Picked) {
    && QueuesOk(s, y.queues, y.tracked, q) && AllPickBest(s, y.queues, y.tracked, q, 0, picked) && y'.txns == picked.q
    && (forall i :: 0 <= i < |picked.picks| ==> picked.picks[i].bank < |y.queues| && picked.picks[i].bank < |y.tracked|)
    && y'.owner == ConvertAll(s, Converted(y.queues, y.tracked, y.owner, true), picked.picks).owner
  }

  lemma StepChooses(s: Setup, y: System, arrivals: seq<Txn>) returns (q: TxnQueues, picked: Picked)
    requires SystemShape(s, y) && RequestsOk(s, y.queues, y.tracked, arrivals) && TrackedFits(s.policy, y.tracked)
    ensures Wide(s, y.txns)
    ensures (forall j :: 0 <= j < |y.reqQ + arrivals| ==> s.c.ChannelOf((y.reqQ + arrivals)[j].bank) < s.c.channels)
    ensures q == Accept(s, y.txns, y.reqQ + arrivals).0 && ChoosesBest(s, y, Step(s, y, arrivals).0, q, picked)
    ensures TrackedFits(s.policy, Step(s, y, arrivals).0.tracked)
  {
    hide SystemShape, Step, Accept, PickFrom, ConvertAll, QueuesOk, RequestsOk, TrackedFits, Aged, AllPickBest;
    ShapeParts(s, y, arrivals);
    AcceptOk(s, y.queues, y.tracked, y.txns, y.reqQ + arrivals);
    q := Accept(s, y.txns, y.reqQ + arrivals).0;
    PicksAreBest(s, y.queues, y.tracked, q, 0);
    picked := PickFrom(s, y.queues, y.tracked, q, 0);
    var v0 := Converted(y.queues, y.tracked, y.owner, true);
    ConvertKeepsFit(s, v0, picked.picks);
    var v := ConvertAll(s, v0, picked.picks);
    AgedKeepsFit(s.policy, v.tracked);
    StepResults(s, y, arrivals, q, v, picked);
  }

  lemma StartTracks(s: Setup)
    requires s.c.Valid()
    ensures TrackedFits(s.policy, Start(s).tracked)
  {}

  lemma {:induction false} RunTracks(s: Setup, batches: seq<seq<Txn>>, run: Run, k: nat)
    requires IsRun(s, batches, run) && k < |run.states|
    ensures TrackedFits(s.policy, run.states[k].tracked)
    decreases k
  {
    hide SystemShape, Step, RequestsOk, TrackedFits, Start, ArrivalsOk, ChoosesBest;
    if k == 0 {
      StartTracks(s);
    } else {
      RunTracks(s, batches, run, k - 1);
      assert CycleAt(s, batches, run, k - 1);
      var q, picked := StepChooses(s, run.states[k - 1], batches[k - 1]);
    }
  }

  /** In every cycle of every run, each channel picks: first-come the ready head of its queue;
      first-ready the first ready entry that needs no row command, or without one the last ready
      entry; read-first from the writes or the reads as the pending counts say. */
  lemma BestIsPicked(s: Setup, batches: seq<seq<Txn>>, run: Run, k: nat) returns (q: TxnQueues, picked: Picked)
    requires IsRun(s, batches, run) && k < |batches|
    ensures k + 1 < |run.states| && ChoosesBest(s, run.states[k], run.states[k + 1], q, picked)
  {
    hide SystemShape, Step, RequestsOk, TrackedFits, Start, ArrivalsOk, ChoosesBest;
    RunTracks(s, batches, run, k);
    assert CycleAt(s, batches, run, k);
    q, picked := StepChooses(s, run.states[k], batches[k]);
  }

  /** In every state of every run, the command scheduler's round of a channel starts one bank after
      that of the cycle before. */
  lemma {:induction false} RoundsTakeTurns(s: Setup, batches: seq<seq<Txn>>, run: Run, k: nat, ch: nat)
    requires IsRun(s, batches, run) && k < |run.states| && ch < s.c.channels && s.c.banksOfChannel[ch] != []
    ensures |run.states[k].starts| == s.c.channels && run.states[k].starts[ch] == k % |s.c.banksOfChannel[ch]|
    decreases k
  {
    hide SystemShape, Step, RequestsOk, Start, ArrivalsOk, NextStarts, TrackedFits, ChoosesBest;
    if k == 0 {
      StartTurns(s);
    } else {
      RoundsTakeTurns(s, batches, run, k - 1, ch);
      assert CycleAt(s, batches, run, k - 1);
      StepStarts(s, run.states[k - 1], batches[k - 1]);
      NextTurnOf(s.c, run.states[k - 1].starts, ch, k - 1);
    }
  }

  lemma StartTurns(s: Setup)
    requires s.c.Valid()
    ensures |Start(s).starts| == s.c.channels && forall ch :: 0 <= ch < s.c.channels ==> Start(s).starts[ch] == 0
  {}

  lemma StepStarts(s: Setup, y: System, arrivals: seq<Txn>)
    requires SystemShape(s, y) && RequestsOk(s, y.queues, y.tracked, arrivals)
    ensures |y.starts| == s.c.channels == |s.c.banksOfChannel|
    ensures Step(s, y, arrivals).0.starts == NextStarts(s.c, y.starts)
  {
    AcceptOk(s, y.queues, y.tracked, y.txns, y.reqQ + arrivals);
    var q := Accept(s, y.txns, y.reqQ + arrivals).0;
    var picked := PickFrom(s, y.queues, y.tracked, q, 0);
    hide Step, Accept, PickFrom, ConvertAll, NextStarts;
    StepResults(s, y, arrivals, q, ConvertAll(s, Converted(y.queues, y.tracked, y.owner, true), picked.picks), picked);
  }

  lemma NextTurnOf(c: Config, starts: seq<nat>, ch: nat, k: nat)
    requires |starts| == c.channels == |c.banksOfChannel| && ch < c.channels && c.banksOfChannel[ch] != []
    requires starts[ch] == k % |c.banksOfChannel[ch]|
    ensures NextStarts(c, starts)[ch] == (k + 1) % |c.banksOfChannel[ch]|
  {
    NextRemainder(|c.banksOfChannel[ch]|, k);
  }

  // ---------------------------------------------------------------- writes to one address

  /** Writes to one address are in turn at the end of every run. */
  ghost predicate WritesKeepOrder(s: Setup) {
    forall hash: nat -> nat, batches, run :: IsRun(s, batches, run) && InputOk(s.c, hash, batches) ==>
      EndsInTurn(s, run)
  }

  ghost predicate EndsInTurn(s: Setup, run: Run) {
    run.states != [] && var y := run.states[|run.states| - 1]; Wide(s, y.txns) && WritesInTurn(s, y)
  }

  lemma WritesAreInTurn(s: Setup, hash: nat -> nat, batches: seq<seq<Txn>>, run: Run)
    requires IsRun(s, batches, run) && InputOk(s.c, hash, batches) && !(s.readFirst && s.firstReady)
    ensures EndsInTurn(s, run)
  {
    hide RunSystem, WritesInTurn, Cycle;
    StatesOfRun(s, batches, run, |batches|);
    assert batches[..|batches|] == batches;
    var accepted := RunHazards(s, hash, batches);
    HazardsKeepWrites(s, hash, run.states[|batches|], accepted);
  }

  /** The run of one cycle in which the older of two writes to an address is overtaken. */
  lemma OvertakingRun(s: Setup) returns (run: Run)
    requires s.c.Valid() && s.readFirst && s.firstReady && 3 <= s.cmdEntries && 2 <= s.txnEntries && 0 < s.c.Banks()
    ensures IsRun(s, [[OLDER, YOUNGER]], run) && !EndsInTurn(s, run)
  {
    hide Step, Start, SystemShape, RequestsOk, RunSystem, WritesInTurn;
    var batches := [[OLDER, YOUNGER]];
    YoungerLeavesFirst(s);
    OneBatch(s, batches[0]);
    var next := Step(s, Start(s), batches[0]);
    run := Run([Start(s), next.0], [next.1]);
    assert CycleAt(s, batches, run, 0);
  }

  /** Writes to one address stay in order in every run if and only if the scheduler is not both
      read-first and first-ready. */
  lemma WriteOrderExactly(s: Setup)
    requires s.c.Valid() && 3 <= s.cmdEntries && 2 <= s.txnEntries && 0 < s.c.Banks()
    ensures WritesKeepOrder(s) <==> !(s.readFirst && s.firstReady)
  {
    hide IsRun, InputOk, EndsInTurn;
    if s.readFirst && s.firstReady {
      var run := OvertakingRun(s);
      OneBatchInput(s.c);
    } else {
      forall hash: nat -> nat, batches, run | IsRun(s, batches, run) && InputOk(s.c, hash, batches)
        ensures EndsInTurn(s, run)
      {
        WritesAreInTurn(s, hash, batches, run);
      }
    }
  }
}
