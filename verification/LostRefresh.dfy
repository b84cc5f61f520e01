/** A run worked out cycle by cycle: one rank of two banks with single-bank refresh. The refresh of
    the first bank, which is open, still waits when that of the second is created in its place; the
    ACT that was to open the row again is then stuck before an open bank. */
module LostRefresh {
  import opened Options
  import opened Sequences
  import opened Dram
  import opened BankModel
  import opened DriverModel
  import opened ControllerModel
  import opened ControllerSafety
  import T = TwoReads

  /** A precharge is allowed nine cycles after an ACT; a refresh falls due every three cycles. */
  const P := Params(0, 0, 2, 2, 2, 0, 0, 0, 0, 0, 0, 0, 0, 0, 0, 0, 9, 0, 2, 2, 2, 1, 0)

  const C := Config(1, [0, 0], [0], [0], [[0, 1]], [[0, 1]], false, false, true, true, P)

  const S := Setup(C, OpenPage, 3, 1, false, false, false, 0, 0)

  const FIRST := T.FIRST
  const ACTED := T.ACTED
  const READS := T.READS
  const REOPENS := Command(ACT, 0, 0, 0, 0, Reopen)
  const SECOND_REF := Command(REF, 1, 0, 1, 0, Refresh)

  const ACTIVE := Bank(Active(0, None), Cycles(0, 3, 3, 10, 0), Cycles(1, 0, 0, 0, 0), true, 0)
  const REFRESHED := Bank(Idle(1, Some(SECOND_REF)), Cycles(1, 0, 0, 0, 0), Cycles(0, 0, 0, 0, 6), false, 0)

  /** The second bank after `n` idle cycles. */
  function Waited(n: nat): Bank
    requires n < 10
  {
    Bank(Idle(UINT64 - n, None), Cycles(if n == 0 then 0 else 1, 0, 0, 0, 0), ZERO, false, 0)
  }

  const TO_REFRESH := [GroupCommand(PRE, [0]), GroupCommand(REF, [0])]

  function Device(now: nat, b: Bank, other: Bank, inputQ: seq<Command>, blocked: bool, busy: nat, acted: bool,
                  refi: nat, refresh: seq<GroupCommand>, turn: nat, trace: seq<Event>): Driver
  {
    Driver(now, [b, other], inputQ, [blocked, false], {}, [busy], [busy], [[]], [acted], [refi], [refresh], [turn],
           trace)
  }

  const LEFT := [REOPENS, READS]

  /** The driver after `n` cycles. */
  function After(n: nat): Driver
    requires n <= 6
  {
    match n
    case 0 => Device(0, FRESH, FRESH, [], false, 0, false, 2, [], 0, [])
    case 1 => Device(1, T.HANDED, Waited(1), [], true, 1, true, 1, [], 0, ACTED)
    case 2 => Device(2, T.OPENING, Waited(2), [], false, 0, false, 0, [], 0, ACTED)
    case 3 => Device(3, ACTIVE, Waited(3), LEFT, false, 0, false, 2, TO_REFRESH, 1, ACTED)
    case 4 => Device(4, ACTIVE, Waited(4), LEFT, false, 0, false, 1, TO_REFRESH, 1, ACTED)
    case 5 => Device(5, ACTIVE, Waited(5), LEFT, false, 0, false, 0, TO_REFRESH, 1, ACTED)
    case 6 => Device(6, ACTIVE, REFRESHED, LEFT, true, 1, false, 2, [], 0, ACTED + [Event(6, SECOND_REF)])
  }

  /** The first bank's command queue after `n` cycles. */
  function Queue(n: nat): seq<Command> { if n == 1 || n == 2 then [READS] else [] }

  const OPENED := Tracked(true, 0, 0)
  const UNUSED := Tracked(false, 0, 0)
  const OWNERS := [Made(FIRST, ACT), Made(FIRST, READ)]

  function System(n: nat): ControllerModel.System
    requires n <= 6
  {
    ControllerModel.System(After(n), [Queue(n), []], [n % 2], [if n == 0 then UNUSED else OPENED, UNUSED],
      if n == 0 then [] else OWNERS, T.NONE, [])
  }

  function Arrivals(n: nat): seq<Txn> { if n == 0 then [FIRST] else [] }

  // ---------------------------------------------------------------- well-formedness

  lemma ConfigIsValid()
    ensures C.Valid() && WfBank(C, 0) && WfBank(C, 1) && C.Ranks() == 1 && C.Banks() == 2
  {}

  lemma DeviceShape(d: Driver)
    requires |d.banks| == |d.blockBank| == 2 && |d.colBus| == |d.rowBus| == 1 && d.faw == [[]]
    requires |d.actIssued| == |d.refi| == |d.refreshQ| == |d.nextToRefresh| == 1 && d.nextToRefresh[0] < 2
    requires forall i :: 0 <= i < |d.inputQ| ==> d.inputQ[i].bank == 0
    requires d.refreshQ[0] == [] || d.refreshQ[0] == TO_REFRESH || d.refreshQ[0] == [GroupCommand(REF, [1])]
    ensures Shape(C, d)
  {
    ConfigIsValid();
  }

  lemma SystemOk(n: nat)
    requires n <= 6
    ensures SystemShape(S, System(n)) && RequestsOk(S, System(n).queues, System(n).tracked, Arrivals(n))
  {
    DeviceShape(After(n));
    hide Shape;
    ConfigIsValid();
  }

  // ---------------------------------------------------------------- the stages in front of the driver

  /** The first bank's commands when the command scheduler looks at them in the cycle after `n`. */
  function Offered(n: nat): seq<Command> { if n == 0 then [T.OPENS, READS] else Queue(n) }

  lemma RoundOfTwo(start: nat)
    requires start < 2
    ensures VisitOrder(C, [start], 0) == if start == 0 then [0, 1] else [1, 0]
    ensures NextStarts(C, [start]) == [1 - start]
  {
    AroundTwo(start);
    hide Around;
    assert ChannelOrder([0, 1], start) == if start == 0 then [0, 1] else [1, 0];
    assert VisitOrder(C, [start], 1) == [];
  }

  lemma AroundTwo(start: nat)
    requires start < 2
    ensures Around(start, 0, 2) == start && Around(start, 1, 2) == 1 - start
  {}

  lemma VisitsFirst(d: Driver, cmds: seq<Command>, order: seq<nat>)
    requires Shape(C, d) && (order == [0, 1] || order == [1, 0]) && OwnQueues(C, [cmds, []])
    ensures cmds != [] ==> WfBank(C, cmds[0].bank)
    ensures VisitAll(C, d, [cmds, []], order) == Visit(C, d, [cmds, []], 0)
  {
    hide Shape, Visit;
    ConfigIsValid();
    assert OwnQueue(C, [cmds, []][0], 0);
    var v := Visit(C, d, [cmds, []], 0);
    SecondStays(d, [cmds, []]);
    FirstVisit(d, cmds);
    assert order[1..] == [order[1]] && order[1..][1..] == [];
    VisitOwn(C, d, [cmds, []], 0);
    SecondStays(v.0, v.1);
    VisitOwn(C, v.0, v.1, 1);
    assert VisitAll(C, v.0, v.1, []) == v;
    if order == [0, 1] {
      assert VisitAll(C, v.0, v.1, [1]) == v;
    } else {
      assert VisitAll(C, d, [cmds, []], [0]) == v;
    }
  }

  lemma FirstVisit(d: Driver, cmds: seq<Command>)
    requires Shape(C, d) && (cmds != [] ==> WfBank(C, cmds[0].bank))
    ensures Visit(C, d, [cmds, []], 0).1[1] == []
  {}

  lemma SecondStays(d: Driver, queues: seq<seq<Command>>)
    requires Shape(C, d) && |queues| == 2 && queues[1] == []
    ensures Visit(C, d, queues, 1) == (d, queues)
  {}

  lemma Converts()
    ensures ConvertAll(S, Converted([[], []], [UNUSED, UNUSED], [], true), [FIRST]) ==
      Converted([[T.OPENS, READS], []], [OPENED, UNUSED], OWNERS, true)
  {
    T.FirstCommands();
    hide KindsFor, Numbered, NextTracked;
    PushAllFits(S, [], [T.OPENS, READS]);
    var v := Converted([[], []], [UNUSED, UNUSED], [], true);
    var v1 := ConvertOne(S, v, FIRST);
    assert [T.OPENS, READS] == Numbered([ACT, READ], FIRST, 0);
    assert v1.owner == OWNERS;
    assert [FIRST][1..] == [] && ConvertAll(S, v1, []) == v1;
  }

  /** A cycle: the scheduler looks at the first bank's commands, then the driver runs. */
  lemma Cycle(n: nat)
    requires n < 6
    ensures SystemShape(S, System(n)) && RequestsOk(S, System(n).queues, System(n).tracked, Arrivals(n))
    ensures Shape(C, After(n)) && (Offered(n) != [] ==> WfBank(C, Offered(n)[0].bank))
    ensures var v := Visit(C, Update(C, After(n)), [Offered(n), []], 0);
      Step(S, System(n), Arrivals(n)) ==
        (ControllerModel.System(Run(C, v.0), v.1, [(n + 1) % 2], [OPENED, UNUSED], OWNERS, T.NONE, []), true)
  {
    hide SystemShape, Shape, RequestsOk, Accept, PickFrom, ConvertAll, VisitOrder, VisitAll, Visit, Update, Run,
      NextStarts, Aged, Step, After, OwnQueues, QueuesOk, Offered;
    SystemOk(n);
    ShapeAfter(n);
    var q, v := FrontStages(n);
    var order := VisitOrder(C, [n % 2], 0);
    OwnOffers(n);
    RoundOfTwo(n % 2);
    VisitsFirst(Update(C, After(n)), Offered(n), order);
    T.AgedOpen(v.tracked);
    StepStages(S, System(n), Arrivals(n), (q, []), Picked(T.NONE, Arrivals(n)), v,
               Visit(C, Update(C, After(n)), [Offered(n), []], 0), order);
  }

  lemma ShapeAfter(n: nat)
    requires n <= 6
    ensures Shape(C, After(n)) && C.Valid()
  {
    ConfigIsValid();
    DeviceShape(After(n));
  }

  /** What the stages before the command scheduler yield. */
  lemma FrontStages(n: nat) returns (q: TxnQueues, v: Converted)
    requires n < 6
    ensures var y := System(n);
      && y.reqQ == [] && |y.txns.allQ| == |y.txns.readQ| == |y.txns.writeQ| == S.c.channels
      && (forall j :: 0 <= j < |y.reqQ + Arrivals(n)| ==> S.c.ChannelOf((y.reqQ + Arrivals(n))[j].bank) < S.c.channels)
      && Accept(S, y.txns, y.reqQ + Arrivals(n)) == (q, []) && QueuesOk(S, y.queues, y.tracked, q)
      && PickFrom(S, y.queues, y.tracked, q, 0) == Picked(T.NONE, Arrivals(n))
      && ConvertAll(S, Converted(y.queues, y.tracked, y.owner, true), Arrivals(n)) == v
      && v == Converted([Offered(n), []], [OPENED, UNUSED], OWNERS, true)
  {
    hide Accept, PickFrom, ConvertAll, QueuesOk, After;
    var y := System(n);
    EmptyIsUnit(Arrivals(n));
    T.AcceptsOne(S, FIRST);
    T.PicksNone(S, y.queues, y.tracked);
    q := if n == 0 then TxnQueues([[FIRST]], [[]], [[]], false) else T.NONE;
    v := Converted([Offered(n), []], [OPENED, UNUSED], OWNERS, true);
    if n == 0 {
      T.PicksOne(S, y.queues, y.tracked, FIRST);
      Converts();
    } else {
      NoPicks(y);
    }
  }

  lemma NoPicks(y: ControllerModel.System)
    ensures var v := Converted(y.queues, y.tracked, y.owner, true); ConvertAll(S, v, []) == v
  {}

  lemma OwnOffers(n: nat)
    requires C.Valid()
    ensures OwnQueues(C, [Offered(n), []])
  {
    ConfigIsValid();
  }

  // ---------------------------------------------------------------- the driver's part

  lemma FawStays(actIssued: seq<bool>)
    requires |actIssued| == 1
    ensures Shifted([[]], actIssued) == [[]]
  {
    assert ([] + [if actIssued[0] then 1 else 0])[1..] == [];
  }

  lemma OneBusFree(d: Driver)
    requires (d.colBus == [0] || d.colBus == [1]) && d.rowBus == d.colBus
    ensures ReleaseBuses(d) == d.(colBus := [0], rowBus := [0])
  {}

  /** The banks in the seven states. */
  lemma Ticks()
    ensures Tick(P, FRESH, 1) == Waited(1).(next := ZERO)
    ensures forall n :: 1 <= n < 6 ==> Tick(P, Waited(n), n + 1) == Waited(n + 1)
    ensures Tick(P, T.HANDED, 2) == T.OPENING && Tick(P, T.OPENING, 3) == ACTIVE
    ensures Tick(P, ACTIVE, 4) == Tick(P, ACTIVE, 5) == Tick(P, ACTIVE, 6) == ACTIVE
  {}

  /** The driver in the cycle after `n`, before anything is handed to it. */
  function Begun(n: nat): Driver
    requires n < 6
  {
    var d := After(n);
    Driver(n + 1, [Tick(P, d.banks[0], n + 1), Tick(P, d.banks[1], n + 1)], d.inputQ, [false, false], {}, [0], [0],
           [[]], [false], d.refi, d.refreshQ, d.nextToRefresh, d.trace)
  }

  /** The scheduler hands a command over, and the driver frees the buses again. */
  lemma Handed(d: Driver, cmd: Command, rest: seq<Command>)
    requires Shape(C, d) && cmd.bank == 0 && d.inputQ == [] && d.refreshQ == [[]] && d.colBus == d.rowBus == [0]
    requires Accepts(d.banks[0], cmd.kind, d.now) && (IsColumn(cmd.kind) ==> !IsClosedPhase(d.banks[0]))
    ensures WfBank(C, 0)
    ensures var v := Visit(C, d, [[cmd] + rest, []], 0);
      v.1 == [rest, []] && ReleaseBuses(v.0) == d.(inputQ := [cmd])
  {
    ConfigIsValid();
    hide Accepts, Shape, IsClosedPhase;
    var q := [cmd] + rest;
    assert q[0] == cmd && q[1..] == rest;
    assert d.inputQ + [cmd] == [cmd];
    assert CmdAllowed(C, d, cmd) == (d, true);
    assert Push(C, d, cmd) == (Occupy(C, d.(inputQ := [cmd]), cmd.kind, 0), true);
    assert [q, []][0 := rest] == [rest, []];
  }

  lemma Lengths(d: Driver)
    requires Shape(C, d)
    ensures |d.banks| == 2 && |d.refreshQ| == |d.refi| == 1
  {}

  lemma Updated(n: nat)
    requires n < 6
    ensures Shape(C, After(n)) && Update(C, After(n)) == Begun(n)
  {
    ShapeAfter(n);
    var d := After(n);
    FawStays(d.actIssued);
    OneBusFree(d);
    hide Tick, Shape, After, Shifted, ReleaseBuses;
  }

  lemma OneRankTurn(d: Driver)
    requires Shape(C, d)
    ensures C.Ranks() == 1 && RefreshFrom(C, d, 0) == RefreshRank(C, d, 0)
  {
    ConfigIsValid();
    hide RefreshRank, Shape;
    assert RefreshFrom(C, RefreshRank(C, d, 0), 1) == RefreshRank(C, d, 0);
  }

  /** No refresh is due or waiting. */
  lemma NothingDue(d: Driver)
    requires Shape(C, d) && 0 < d.refi[0] && d.refreshQ[0] == []
    ensures RefreshFrom(C, d, 0) == d.(refi := d.refi[0 := d.refi[0] - 1])
  {
    OneRankTurn(d);
    hide Shape;
  }

  /** A refresh waits and its first group is not accepted yet: the commands of the rank wait too. */
  lemma StillWaits(d: Driver)
    requires Shape(C, d) && 0 < d.refi[0] && d.refreshQ[0] == TO_REFRESH && !Accepts(d.banks[0], PRE, d.now)
    ensures RefreshFrom(C, d, 0) == d.(refi := d.refi[0 := d.refi[0] - 1])
  {
    OneRankTurn(d);
    hide Shape, Accepts;
    var d1 := d.(refi := d.refi[0 := d.refi[0] - 1]);
    assert TO_REFRESH[0].banks[0] == 0;
    assert !AllAccept(d1, TO_REFRESH[0]);
  }

  lemma {:induction false} AllWait(d: Driver, counts: seq<nat>, i: nat)
    requires Shape(C, d) && |counts| == 1 && i <= |d.inputQ| && d.refreshQ[0] != []
    ensures SendLoop(C, d, counts, i) == d
    decreases |d.inputQ| - i
  {
    hide Shape;
    if i < |d.inputQ| {
      RankIsZero(d, i);
      assert SendStep(C, d, counts, i) == Cursor(d, i + 1, false);
      AllWait(d, counts, i + 1);
    }
  }

  lemma RankIsZero(d: Driver, i: nat)
    requires Shape(C, d) && i < |d.inputQ|
    ensures IsRefreshing(C, d, d.inputQ[i].bank) <==> d.refreshQ[0] != []
  {
    ConfigIsValid();
    assert WfBank(C, d.inputQ[i].bank);
  }

  /** The driver with the first bank's ACT in its input queue. */
  ghost predicate ActWaits(d: Driver) {
    && Shape(C, d) && d.banks == [Tick(P, FRESH, 1), Tick(P, FRESH, 1)] && d.inputQ == [T.OPENS]
    && |d.blockBank| == 2 && d.colBus == d.rowBus == [0] && d.actIssued == [false] && d.now == 1 && d.trace == []
  }

  lemma ActIsSent(d: Driver)
    requires ActWaits(d) && CanSend(d, d.inputQ[0])
    ensures SentAt(C, d, 0) == d.(banks := [T.HANDED, Waited(1)], inputQ := [], colBus := [1], rowBus := [1],
      actIssued := [true], trace := ACTED)
  {
    ConfigIsValid();
    BanksGetAct();
    hide Tick, Accepts, Shape, BanksAfter;
    assert [] + [Event(1, T.OPENS)] == ACTED && Erased([T.OPENS], 0) == [];
  }

  lemma BanksGetAct()
    ensures C.Valid() && Allows(Tick(P, FRESH, 1), ACT)
    ensures BanksAfter(C, [Tick(P, FRESH, 1), Tick(P, FRESH, 1)], T.OPENS, 1) == [T.HANDED, Waited(1)]
  {
    ConfigIsValid();
    T.FirstBanks(P);
    ActBanks();
    hide Tick, Handle, Spread;
  }

  /** The first bank's ACT goes out. */
  lemma ActGoes(d: Driver)
    requires ActWaits(d) && d.blockBank == [false, false] && d.inflightWrites == {} && d.faw == [[]]
    requires d.refreshQ == [[]]
    ensures SendLoop(C, d, ActCounts(d.faw), 0) == d.(banks := [T.HANDED, Waited(1)], inputQ := [], colBus := [1],
      rowBus := [1], blockBank := [true, false], actIssued := [true], trace := ACTED)
  {
    hide Tick, Accepts, SentAt, Shape, ActCounts;
    ConfigIsValid();
    T.FirstBanks(P);
    NoCounts();
    var counts := ActCounts(d.faw);
    RankIsZero(d, 0);
    NotedWaits(d);
    var d1 := Noted(d, T.OPENS);
    ActIsSent(d1);
    assert Eligible(C, d, counts, T.OPENS);
    var d2 := SentAt(C, d1, 0);
    assert SendStep(C, d, counts, 0).d == d2;
    NothingLeft(d2, counts);
  }

  lemma NothingLeft(d: Driver, counts: seq<nat>)
    requires Shape(C, d) && |counts| == C.Ranks() && d.inputQ == []
    ensures SendLoop(C, d, counts, 0) == d
  {}

  lemma NotedWaits(d: Driver)
    requires ActWaits(d) && d.blockBank == [false, false]
    ensures var d1 := Noted(d, T.OPENS); ActWaits(d1) && d1 == d.(blockBank := [true, false])
  {}

  lemma NoCounts()
    ensures ActCounts([[]]) == [0]
  {
    assert Sum([]) == 0;
  }

  lemma ActBanks()
    ensures C.p.Valid() && Spread(C, Tick(P, FRESH, 1), 1, T.OPENS, 1) == Waited(1)
  {}

  /** A run of the driver, from its parts. */
  lemma RunIs(d: Driver, d1: Driver, d2: Driver, d': Driver)
    requires Shape(C, d) && Shape(C, d1) && Shape(C, d2) && ReleaseBuses(d) == d1 && RefreshFrom(C, d1, 0) == d2
    requires d2.faw == [[]] && C.Ranks() == 1 && SendLoop(C, d2, [0], 0) == d'
    ensures Run(C, d) == d'
  {
    NoCounts();
    hide Shape, ReleaseBuses, RefreshFrom, SendLoop, ActCounts;
  }

  lemma CycleOne()
    ensures Shape(C, Begun(0)) && WfBank(C, 0)
    ensures var v := Visit(C, Begun(0), [Offered(0), []], 0); v.1 == [Queue(1), []] && Run(C, v.0) == After(1)
  {
    ConfigIsValid();
    DeviceShape(Begun(0));
    T.FirstBanks(P);
    var d := Begun(0).(inputQ := [T.OPENS]);
    DeviceShape(d);
    assert Offered(0) == [T.OPENS] + [READS];
    hide Shape, Tick, Accepts, Visit, RefreshFrom, SendLoop, ReleaseBuses, ActCounts;
    Handed(Begun(0), T.OPENS, [READS]);
    NothingDue(d);
    var d2 := d.(refi := [1]);
    assert d.refi[0 := d.refi[0] - 1] == [1];
    DeviceShape(d2);
    NoCounts();
    ActGoes(d2);
    RunIs(Visit(C, Begun(0), [Offered(0), []], 0).0, d, d2, After(1));
  }

  lemma CycleTwo(d: Driver)
    requires d == Device(2, T.OPENING, Waited(2), [], false, 0, false, 1, [], 0, ACTED)
    ensures Shape(C, d) && WfBank(C, 0)
    ensures var v := Visit(C, d, [[READS], []], 0); v.1 == [[READS], []] && Run(C, v.0) == After(2)
  {
    DeviceShape(d);
    ConfigIsValid();
    T.FirstBanks(P);
    hide Shape, RefreshFrom, SendLoop, ActCounts, Run, Accepts;
    assert CmdAllowed(C, d, READS) == (d, false);
    assert Visit(C, d, [[READS], []], 0) == (d, [[READS], []]);
    hide ReleaseBuses, Visit;
    OneBusFree(d);
    NothingDue(d);
    var d' := d.(refi := [0]);
    DeviceShape(d');
    NothingLeft(d', [0]);
    RunIs(d, d, d', d');
  }

  /** The read is handed over in the cycle in which the refresh of its bank is created. */
  lemma FirstRefresh(d: Driver)
    requires Shape(C, d) && d.inputQ == [READS] && d.refi == [0] && d.refreshQ == [[]] && d.nextToRefresh == [0]
    requires d.banks[0] == ACTIVE && d.now == 3
    ensures RefreshFrom(C, d, 0) == d.(inputQ := [REOPENS, READS], refi := [2], refreshQ := [TO_REFRESH],
      nextToRefresh := [1])
  {
    hide Shape, StillOpen, WithReopens, RefreshCommands;
    ConfigIsValid();
    OneRankTurn(d);
    RequestersShape(C, d, 0);
    Lengths(d);
    assert Requesters(C, d, 0) == [0];
    FirstReopens(d.banks);
    var d1 := Counted(C, d, 0);
    assert d1 == d.(inputQ := [REOPENS, READS], refi := [2], refreshQ := [TO_REFRESH], nextToRefresh := [1]);
    NotYet(d1);
  }

  lemma FirstReopens(banks: seq<Bank>)
    requires |banks| == 2 && banks[0] == ACTIVE
    ensures RefreshCommands(banks, [0]) == TO_REFRESH && WithReopens([READS], [0]) == [REOPENS, READS]
  {
    assert [0][1..] == [];
    assert StillOpen(banks, [0]) == [0];
    assert FirstFor([READS], 0) == 0 && [REOPENS] + [READS] == [REOPENS, READS];
    assert WithReopens([REOPENS, READS], []) == [REOPENS, READS];
  }

  /** The open bank does not accept its precharge before cycle 10. */
  lemma NotYet(d: Driver)
    requires Shape(C, d) && d.banks[0] == ACTIVE && d.now < 10 && d.refreshQ == [TO_REFRESH]
    ensures SendRefresh(C, d, 0) == d
  {
    Lengths(d);
    hide Shape;
    ConfigIsValid();
    assert TO_REFRESH[0].banks[0] == 0;
    assert !AllAccept(d, TO_REFRESH[0]);
  }

  lemma CycleThree(d: Driver)
    requires d == Device(3, ACTIVE, Waited(3), [], false, 0, false, 0, [], 0, ACTED)
    ensures Shape(C, d) && WfBank(C, 0)
    ensures var v := Visit(C, d, [[READS], []], 0); v.1 == [[], []] && Run(C, v.0) == After(3)
  {
    var d1 := d.(inputQ := [READS]);
    var d' := d.(inputQ := LEFT, refi := [2], refreshQ := [TO_REFRESH], nextToRefresh := [1]);
    DeviceShape(d);
    DeviceShape(d1);
    DeviceShape(d');
    ConfigIsValid();
    assert [READS] + [] == [READS];
    hide Shape, Visit, RefreshFrom, SendLoop, ReleaseBuses, ActCounts, Run;
    Handed(d, READS, []);
    FirstRefresh(d1);
    AllWait(d', [0], 0);
    RunIs(Visit(C, d, [[READS], []], 0).0, d1, d', d');
  }

  /** Cycles 4 and 5: the refresh waits, and the commands of the rank with it. */
  lemma CycleWaits(d: Driver, n: nat)
    requires 3 <= n <= 4
    requires d == Device(n + 1, ACTIVE, Waited(n + 1), LEFT, false, 0, false, 5 - n, TO_REFRESH, 1, ACTED)
    ensures Shape(C, d)
    ensures var v := Visit(C, d, [[], []], 0); v.1 == [[], []] && Run(C, v.0) == After(n + 1)
  {
    var d' := d.(refi := [4 - n]);
    DeviceShape(d);
    DeviceShape(d');
    ConfigIsValid();
    hide Shape, RefreshFrom, SendLoop, ReleaseBuses, ActCounts, Run;
    EmptyVisit(d);
    OneBusFree(d);
    StillWaits(d);
    AllWait(d', [0], 0);
    RunIs(d, d, d', d');
  }

  lemma EmptyVisit(d: Driver)
    requires Shape(C, d)
    ensures Visit(C, d, [[], []], 0) == (d, [[], []])
  {}

  lemma Begins1()
    ensures Begun(1) == Device(2, T.OPENING, Waited(2), [], false, 0, false, 1, [], 0, ACTED)
  {
    Ticks();
    hide Tick;
  }

  lemma Begins2()
    ensures Begun(2) == Device(3, ACTIVE, Waited(3), [], false, 0, false, 0, [], 0, ACTED)
  {
    Ticks();
    hide Tick;
  }

  lemma Begins3()
    ensures Begun(3) == Device(4, ACTIVE, Waited(4), LEFT, false, 0, false, 2, TO_REFRESH, 1, ACTED)
  {
    Ticks();
    hide Tick;
  }

  lemma Begins4()
    ensures Begun(4) == Device(5, ACTIVE, Waited(5), LEFT, false, 0, false, 1, TO_REFRESH, 1, ACTED)
  {
    Ticks();
    hide Tick;
  }

  lemma Begins5()
    ensures Begun(5) == Device(6, ACTIVE, Waited(6), LEFT, false, 0, false, 0, TO_REFRESH, 1, ACTED)
  {
    Ticks();
    hide Tick;
  }

  // ---------------------------------------------------------------- the sixth cycle

  /** The second bank's refresh takes the place of the first's. */
  lemma SecondReopens(banks: seq<Bank>)
    requires |banks| == 2 && banks[1] == Waited(6)
    ensures RefreshCommands(banks, [1]) == [GroupCommand(REF, [1])] && WithReopens(LEFT, [1]) == LEFT
  {
    assert [1][1..] == [];
    assert StillOpen(banks, [1]) == [];
    assert LEFT[1..] == [READS] && LEFT[1..][1..] == [];
    assert FirstFor([READS], 1) == 1;
    assert FirstFor(LEFT, 1) == 2;
    assert WithReopens(LEFT, []) == LEFT;
  }

  /** It goes out at once. */
  lemma SecondIsSent(d: Driver)
    requires Shape(C, d) && d.banks == [ACTIVE, Waited(6)] && d.now == 6 && d.refreshQ == [[GroupCommand(REF, [1])]]
    requires d.colBus == d.rowBus == [0]
    ensures SendRefresh(C, d, 0) == d.(banks := [ACTIVE, REFRESHED], refreshQ := [[]], colBus := [1], rowBus := [1],
      trace := d.trace + [Event(6, SECOND_REF)])
  {
    hide Shape;
    ConfigIsValid();
    var g := GroupCommand(REF, [1]);
    assert d.refreshQ[0][0] == g && d.refreshQ[0][1..] == [] && g.banks[0] == 1;
    assert AllAccept(d, g);
    SecondBanks();
    assert GroupMember(REF, 1) == SECOND_REF && [1][1..] == [];
    hide Spread, Handle;
    assert BanksAfter(C, d.banks, SECOND_REF, 6) == [ACTIVE, REFRESHED];
    var d1 := Issue(C, d, SECOND_REF);
    assert IssueAll(C, d1, REF, []) == d1;
    assert IssueAll(C, d, REF, [1]) == d1;
  }

  lemma SecondBanks()
    ensures C.Valid() && Accepts(Waited(6), REF, 6)
    ensures Spread(C, ACTIVE, 0, SECOND_REF, 6) == ACTIVE && Handle(Waited(6), SECOND_REF, 6) == REFRESHED
  {
    ConfigIsValid();
  }

  lemma SecondRefresh(d: Driver)
    requires Shape(C, d) && d.inputQ == LEFT && d.refi == [0] && d.refreshQ == [TO_REFRESH] && d.nextToRefresh == [1]
    requires d.banks == [ACTIVE, Waited(6)] && d.now == 6 && d.colBus == d.rowBus == [0]
    ensures RefreshFrom(C, d, 0) == d.(banks := [ACTIVE, REFRESHED], refi := [2], refreshQ := [[]],
      nextToRefresh := [0], colBus := [1], rowBus := [1], trace := d.trace + [Event(6, SECOND_REF)])
  {
    hide Shape, StillOpen, WithReopens, RefreshCommands, SendRefresh;
    ConfigIsValid();
    OneRankTurn(d);
    RequestersShape(C, d, 0);
    assert Requesters(C, d, 0) == [1];
    SecondReopens(d.banks);
    var d1 := Counted(C, d, 0);
    assert d1 == d.(refi := [2], refreshQ := [[GroupCommand(REF, [1])]], nextToRefresh := [0]);
    SecondIsSent(d1);
  }

  /** The bus is taken, and the first bank is open: nothing else goes. */
  lemma NothingGoes(d: Driver)
    requires Shape(C, d) && d.inputQ == LEFT && d.refreshQ == [[]] && d.blockBank == [false, false]
    requires d.inflightWrites == {}
    requires d.colBus == d.rowBus == [1]
    ensures SendLoop(C, d, [0], 0) == d.(blockBank := [true, false])
  {
    hide Shape;
    ConfigIsValid();
    RankIsZero(d, 0);
    RankIsZero(d, 1);
    var d1 := d.(blockBank := [true, false]);
    assert SendStep(C, d, [0], 0) == Cursor(d1, 1, false);
    assert SendStep(C, d1, [0], 1) == Cursor(d1, 2, false);
    assert SendLoop(C, d1, [0], 2) == d1;
  }

  lemma CycleSix(d: Driver)
    requires d == Device(6, ACTIVE, Waited(6), LEFT, false, 0, false, 0, TO_REFRESH, 1, ACTED)
    ensures Shape(C, d)
    ensures var v := Visit(C, d, [[], []], 0); v.1 == [[], []] && Run(C, v.0) == After(6)
  {
    var d2 := After(6).(blockBank := [false, false]);
    DeviceShape(d);
    DeviceShape(d2);
    ConfigIsValid();
    hide Shape, RefreshFrom, SendLoop, ReleaseBuses, ActCounts, Run;
    EmptyVisit(d);
    OneBusFree(d);
    SecondRefresh(d);
    NothingGoes(d2);
    RunIs(d, d, d2, After(6));
  }

  // ---------------------------------------------------------------- the run

  lemma DriverRuns(n: nat)
    requires n < 6
    ensures Shape(C, After(n)) && (Offered(n) != [] ==> WfBank(C, Offered(n)[0].bank))
    ensures var v := Visit(C, Update(C, After(n)), [Offered(n), []], 0);
      v.1 == [Queue(n + 1), []] && Run(C, v.0) == After(n + 1)
  {
    hide Shape, Visit, Run, Update, After, Begun, Device;
    ConfigIsValid();
    Updated(n);
    match n
    case 0 => CycleOne();
    case 1 => Begins1(); CycleTwo(Begun(n));
    case 2 => Begins2(); CycleThree(Begun(n));
    case 3 => Begins3(); CycleWaits(Begun(n), n);
    case 4 => Begins4(); CycleWaits(Begun(n), n);
    case 5 => Begins5(); CycleSix(Begun(n));
  }

  /** One cycle of the controller leads from each state to the next. */
  lemma Next(n: nat)
    requires n < 6
    ensures SystemShape(S, System(n)) && RequestsOk(S, System(n).queues, System(n).tracked, Arrivals(n))
    ensures Step(S, System(n), Arrivals(n)) == (System(n + 1), true)
  {
    hide Shape, Visit, Run, Update, After, Step, SystemShape, RequestsOk;
    Cycle(n);
    DriverRuns(n);
  }

  lemma Starts()
    ensures C.Valid() && Start(S) == System(0)
  {
    ConfigIsValid();
  }
}
