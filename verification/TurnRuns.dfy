/** Refresh over whole runs, by the clock: when refreshes are created, and with single-bank refresh
    which bank each REF of the trace goes to. */
module TurnRuns {
  import opened Dram
  import opened DriverModel
  import opened ControllerModel
  import opened ControllerSafety
  import opened Quiet
  import opened RefreshRuns
  import opened RefreshTurns
  import opened Runs

  /** The driver's clock and the rank's counter. */
  ghost predicate OnTime(c: Config, d: Driver, r: nat, k: nat) {
    d.now == k && r < |d.refi| && d.refi[r] == CountAt(c, r, k)
  }

  lemma StartOnTime(s: Setup, r: nat)
    requires s.c.Valid() && r < s.c.Ranks()
    ensures OnTime(s.c, Start(s).d, r, 0)
  {}

  lemma StepOnTime(c: Config, d: Driver, d': Driver, r: nat, k: nat)
    requires OnTime(c, d, r, k) && Ticks(c, d, d', r) && d'.now == d.now + 1
    ensures OnTime(c, d', r, k + 1)
  {
    ClockStep(c, r, k);
    hide CountAt, DueIn;
  }

  /** In every state of every run, each rank's counter is the one its clock demands. */
  lemma {:induction false} CountersAreOnTime(s: Setup, batches: seq<seq<Txn>>, run: Run, k: nat, r: nat)
    requires IsRun(s, batches, run) && k < |run.states| && s.c.useRefresh && r < s.c.Ranks()
    ensures OnTime(s.c, run.states[k].d, r, k)
    decreases k
  {
    hide OnTime, SystemInv, SystemQuiet, SystemShape, RequestsOk, Step, Start, ArrivalsOk, CycleParts, Shape, Ticks;
    if k == 0 {
      StartOnTime(s, r);
    } else {
      CountersAreOnTime(s, batches, run, k - 1, r);
      var first, second, due := RefreshCycle(s, batches, run, k - 1, r);
      OnTimeParts(s.c, run.states[k - 1].d, run.states[k].d, first, second, due);
      StepOnTime(s.c, run.states[k - 1].d, run.states[k].d, r, k - 1);
    }
  }

  lemma OnTimeParts(c: Config, d: Driver, d': Driver, first: seq<Event>, second: seq<Event>,
                    due: map<nat, seq<GroupCommand>>)
    requires Shape(c, d) && CycleParts(c, d, d', first, second, due)
    ensures d'.now == d.now + 1 && |d'.refreshQ| == c.Ranks()
  {
    hide Shape, RankPart;
  }

  lemma RefreshCycle(s: Setup, batches: seq<seq<Txn>>, run: Run, k: nat, r: nat)
    returns (first: seq<Event>, second: seq<Event>, due: map<nat, seq<GroupCommand>>)
    requires IsRun(s, batches, run) && k < |batches| && s.c.useRefresh && r < s.c.Ranks()
    ensures k + 1 < |run.states| && Shape(s.c, run.states[k].d) && Shape(s.c, run.states[k + 1].d)
    ensures CycleParts(s.c, run.states[k].d, run.states[k + 1].d, first, second, due)
    ensures Ticks(s.c, run.states[k].d, run.states[k + 1].d, r)
    ensures r < |run.states[k].d.refreshQ| && WellFormedQueue(run.states[k].d.refreshQ[r])
  {
    hide SystemInv, SystemQuiet, SystemShape, RequestsOk, Step, Start, ArrivalsOk, CycleParts, Shape, Ticks,
      WellFormedQueue;
    first, second, due := CycleOfRun(s, batches, run, k);
    assert CycleAt(s, batches, run, k);
    StepTicks(s, run.states[k], batches[k], r);
    RefreshStateOf(s, run.states[k], r);
  }

  /** A cycle creates a refresh of a rank exactly when it is the rank's first, or a multiple of
      nREFI + 1 cycles later: the queue then ends with the REF of the banks whose turn it is. */
  lemma RefreshesAreOnTime(s: Setup, batches: seq<seq<Txn>>, run: Run, k: nat, r: nat)
    requires IsRun(s, batches, run) && k < |batches| && s.c.useRefresh && r < s.c.Ranks()
    ensures k < |run.states| && r < |run.states[k].d.refi| && (run.states[k].d.refi[r] == 0 <==> DueIn(s.c, r, k + 1))
  {
    hide IsRun, DueIn, CountAt;
    RunSize(s, batches, run);
    CountersAreOnTime(s, batches, run, k, r);
    ClockStep(s.c, r, k);
  }

  // ---------------------------------------------------------------- turns

  /** The rank's refreshes up to state `k`: each was sent, waits or has been dropped, and the REFs
      went to the banks in turn. */
  ghost predicate TurnsTaken(c: Config, states: seq<System>, k: nat, r: nat)
    requires k < |states|
  {
    var d := states[k].d;
    Shape(c, d) && r < c.Ranks() &&
    var refs := Refs(c, d.trace, r);
    && InTurn(c, d, r, |refs|, Dropped(states, k, r))
    && Created(c, r, k) == |refs| + Waiting(d, r) + Dropped(states, k, r)
    && RefsInTurn(c, states, refs, k, r)
  }

  lemma StartTurns(s: Setup, states: seq<System>, r: nat)
    requires s.c.Valid() && r < s.c.Ranks() && states != [] && states[0] == Start(s)
    ensures TurnsTaken(s.c, states, 0, r)
  {
    TurnPlus(|s.c.banksOfRank[r]|, 0, 0);
  }

  lemma StepTurns(c: Config, states: seq<System>, k: nat, first: seq<Event>, second: seq<Event>,
                  due: map<nat, seq<GroupCommand>>, r: nat)
    requires k + 1 < |states| && TurnsTaken(c, states, k, r) && Shape(c, states[k + 1].d)
    requires c.useRefresh && c.singleBankRefresh && OnTime(c, states[k].d, r, k)
    requires CycleParts(c, states[k].d, states[k + 1].d, first, second, due)
    requires Ticks(c, states[k].d, states[k + 1].d, r) && WellFormedQueue(states[k].d.refreshQ[r])
    ensures TurnsTaken(c, states, k + 1, r)
  {
    var d, d' := states[k].d, states[k + 1].d;
    OnTimeParts(c, d, d', first, second, due);
    ClockStep(c, r, k);
    TurnStep(c, d, d', first, second, due, r, Dropped(states, k, r));
    MoreRefs(c, states, Refs(c, d.trace, r), Refs(c, d'.trace, r), k, r);
    hide Shape, Refs, CycleParts, InTurn, CountAt, DueIn, TurnBank, Drops, WellFormedQueue, RefsInTurn;
  }

  lemma MoreRefs(c: Config, states: seq<System>, refs: seq<Event>, refs': seq<Event>, k: nat, r: nat)
    requires k + 1 < |states| && c.Valid() && r < c.Ranks() && RefsInTurn(c, states, refs, k, r)
    requires var e := Event(k + 1, GroupMember(REF, TurnBank(c, r, |refs| + Dropped(states, k + 1, r))));
      refs' == refs || refs' == refs + [e]
    ensures RefsInTurn(c, states, refs', k + 1, r)
  {
    var e := Event(k + 1, GroupMember(REF, TurnBank(c, r, |refs| + Dropped(states, k + 1, r))));
    NewRefInTurn(c, states, k + 1, |refs|, r);
    hide TurnBank, Dropped, InItsTurn;
    if refs' != refs { assert forall j :: 0 <= j < |refs'| ==> refs'[j] == if j < |refs| then refs[j] else e; }
  }

  lemma NewRefInTurn(c: Config, states: seq<System>, k: nat, j: nat, r: nat)
    requires k <= |states| && c.Valid() && r < c.Ranks()
    ensures InItsTurn(c, states, Event(k, GroupMember(REF, TurnBank(c, r, j + Dropped(states, k, r)))), j, r)
  {
    TurnBankOf(c, r, j + Dropped(states, k, r));
    hide TurnBank, Dropped;
  }

  /** In every state of every run with single-bank refresh, for each rank: as many refreshes have
      been created as REFs are on the trace, plus one that waits, plus those dropped; and the
      `j`-th REF went to the bank of turn `j`, counting the turns dropped before it. */
  lemma {:induction false} RefreshesTakeTurns(s: Setup, batches: seq<seq<Txn>>, run: Run, k: nat, r: nat)
    requires IsRun(s, batches, run) && k < |run.states| && s.c.useRefresh && s.c.singleBankRefresh && r < s.c.Ranks()
    ensures TurnsTaken(s.c, run.states, k, r)
    decreases k
  {
    hide TurnsTaken, SystemInv, SystemQuiet, SystemShape, RequestsOk, Step, Start, ArrivalsOk, CycleParts, Shape,
      Ticks, OnTime, WellFormedQueue;
    if k == 0 {
      StartTurns(s, run.states, r);
    } else {
      RefreshesTakeTurns(s, batches, run, k - 1, r);
      CountersAreOnTime(s, batches, run, k - 1, r);
      var first, second, due := RefreshCycle(s, batches, run, k - 1, r);
      StepTurns(s.c, run.states, k - 1, first, second, due, r);
    }
  }

  /** In a run that drops no refresh of the rank, the `j`-th REF of the rank goes to its `j`-th
      bank, round after round: any as many REFs in a row as the rank has banks reach each of its
      banks exactly once. */
  lemma RoundsReachEveryBank(s: Setup, batches: seq<seq<Txn>>, run: Run, k: nat, r: nat)
    requires IsRun(s, batches, run) && k < |run.states| && s.c.useRefresh && s.c.singleBankRefresh && r < s.c.Ranks()
    requires Dropped(run.states, k, r) == 0
    ensures s.c.Valid()
    ensures var refs := Refs(s.c, run.states[k].d.trace, r); RoundRobin(s.c, refs, r) && RoundsAreWhole(s.c, refs, r)
  {
    hide IsRun, RoundsAreWhole, TurnBank, Refs, InTurn, Created;
    RefreshesTakeTurns(s, batches, run, k, r);
    var refs := Refs(s.c, run.states[k].d.trace, r);
    forall j | 0 <= j < |refs|
      ensures refs[j].cmd.bank == TurnBank(s.c, r, j)
    {
      DroppedGrows(run.states, refs[j].cycle, k, r);
    }
    RoundRobinIsWhole(s.c, refs, r);
  }

  /** In every run: the REFs of the rank go bank after bank if and only if before each of them the
      number of dropped refreshes is a multiple of the rank's banks. */
  lemma BankAfterBankExactly(s: Setup, batches: seq<seq<Txn>>, run: Run, k: nat, r: nat)
    requires IsRun(s, batches, run) && k < |run.states| && s.c.useRefresh && s.c.singleBankRefresh && r < s.c.Ranks()
    ensures s.c.Valid()
    ensures var refs := Refs(s.c, run.states[k].d.trace, r);
      RoundRobin(s.c, refs, r) <==> WholeRoundsDropped(s.c, run.states, refs, r)
  {
    hide IsRun, RoundRobin, WholeRoundsDropped, TurnBank, Refs, InTurn, Created, RefsInTurn;
    RefreshesTakeTurns(s, batches, run, k, r);
    RoundRobinExactly(s.c, run.states, Refs(s.c, run.states[k].d.trace, r), k, r);
  }
}
