/** A run worked out cycle by cycle: one bank, and two reads of one row. Whatever the timings, the
    reads go out in cycles 1 + nRCD and 1 + nRCD + nCCD_L. */
module TwoReads {
  import opened Options
  import opened Sequences
  import opened Dram
  import opened BankModel
  import opened DriverModel
  import opened ControllerModel
  import opened ControllerSafety
  import opened Hazards

  function OneBank(p: Params): (c: Config)
    requires p.Valid()
    ensures c.Valid() && c.p == p
  {
    Config(1, [0], [0], [0], [[0]], [[0]], false, false, false, false, p)
  }

  function OneBankSetup(p: Params): (s: Setup)
    requires p.Valid()
    ensures s.c.Valid() && s.c.p == p
  {
    Setup(OneBank(p), OpenPage, 8, 8, false, false, false, 0, 0)
  }

  const FIRST := Txn(0, true, 0, 0, 0)
  const SECOND := Txn(1, true, 1, 0, 0)

  const OPENS := Command(ACT, 0, 0, 0, 0, FromTxn)
  const READS := Command(READ, 1, 0, 0, 0, FromTxn)
  const AGAIN := Command(READ, 2, 1, 0, 0, FromTxn)

  /** The first read arrives in cycle 1, the second in cycle 2. */
  function Arrivals(n: nat): seq<Txn> { if n == 0 then [FIRST] else if n == 1 then [SECOND] else [] }

  function Inputs(n: nat): (batches: seq<seq<Txn>>)
    ensures |batches| == n
  {
    seq(n, i requires 0 <= i => Arrivals(i))
  }

  // ---------------------------------------------------------------- the stages in front of the driver

  const NONE := TxnQueues([[]], [[]], [[]], false)

  /** The controller between cycles, with nothing waiting but the bank's commands. */
  ghost predicate Still(p: Params, y: System, q: seq<Command>, tracked: Tracked, made: nat)
    requires p.Valid()
  {
    && SystemShape(OneBankSetup(p), y)
    && y.queues == [q] && y.tracked == [tracked] && |y.owner| == made && y.txns == NONE && y.reqQ == []
  }

  lemma OneVisit(c: Config, starts: seq<nat>)
    requires c.channels == 1 && c.banksOfChannel == [[0]] && |starts| == 1
    ensures VisitOrder(c, starts, 0) == [0]
  {
    assert Around(starts[0], 0, 1) == 0;
    assert ChannelOrder([0], starts[0]) == [0];
    assert VisitOrder(c, starts, 1) == [];
  }

  lemma AgedOpen(tracked: seq<Tracked>)
    ensures Aged(OpenPage, tracked) == tracked
  {}

  /** A cycle hands the bank's commands `q` to the command scheduler and then runs the driver. */
  ghost predicate OneCycle(p: Params, y: System, y': System, q: seq<Command>, tracked: Tracked, made: nat)
    requires p.Valid()
  {
    && Shape(OneBank(p), y.d) && (q != [] ==> WfBank(OneBank(p), q[0].bank))
    && var v := Visit(OneBank(p), Update(OneBank(p), y.d), [q], 0);
       y'.d == DriverModel.Run(OneBank(p), v.0) && Still(p, y', v.1[0], tracked, made)
  }

  lemma PicksNone(s: Setup, queues: seq<seq<Command>>, tracked: seq<Tracked>)
    requires s.c.channels == 1 && !s.readFirst
    ensures QueuesOk(s, queues, tracked, NONE) && PickFrom(s, queues, tracked, NONE, 0) == Picked(NONE, [])
  {
    assert PickChannel(s, queues, tracked, NONE, 0) == Picked(NONE, []);
    assert PickFrom(s, queues, tracked, NONE, 1) == Picked(NONE, []);
  }

  lemma PicksOne(s: Setup, queues: seq<seq<Command>>, tracked: seq<Tracked>, t: Txn)
    requires s.c.channels == 1 && !s.readFirst && !s.firstReady && t.bank < |queues| && t.bank < |tracked|
    requires s.c.ChannelOf(t.bank) == 0
    requires 3 <= Token(s, queues[t.bank])
    ensures var q := TxnQueues([[t]], [[]], [[]], false);
      QueuesOk(s, queues, tracked, q) && PickFrom(s, queues, tracked, q, 0) == Picked(NONE, [t])
  {
    var q := TxnQueues([[t]], [[]], [[]], false);
    hide Token;
    assert TxnsOk(s, queues, tracked, [t], 0);
    assert !HasDependency([t], t);
    assert Ready(s, queues, q, 0, t);
    assert Choose(s, queues, tracked, q, 0, [t]) == Some(0);
    assert Without([t], 0) == [];
    assert PickChannel(s, queues, tracked, q, 0) == Picked(NONE, [t]);
    assert PickFrom(s, queues, tracked, NONE, 1) == Picked(NONE, []);
  }

  lemma AcceptsOne(s: Setup, t: Txn)
    requires s.c.channels == 1 && !s.readFirst && !s.quick && 0 < s.txnEntries && s.c.ChannelOf(t.bank) == 0
    ensures Accept(s, NONE, [t]) == (TxnQueues([[t]], [[]], [[]], false), [])
    ensures Accept(s, NONE, []) == (NONE, [])
  {
    var q := TxnQueues([[t]], [[]], [[]], false);
    assert NONE.allQ[0] + [t] == [t] && NONE.allQ[0 := [t]] == [[t]];
    assert PushTxn(s, NONE, t) == (q, true);
    assert [t][1..] == [];
    assert Accept(s, q, []) == (q, []);
  }

  lemma OneBankShape(p: Params, y: System, arrivals: seq<Txn>)
    requires p.Valid() && SystemShape(OneBankSetup(p), y) && forall i :: 0 <= i < |arrivals| ==> arrivals[i].bank == 0
    ensures OneBankSetup(p).c == OneBank(p) && OneBankSetup(p).policy == OpenPage
    ensures OneBank(p).channels == 1 && OneBank(p).banksOfChannel == [[0]] && Shape(OneBank(p), y.d)
    ensures OwnQueues(OneBank(p), y.queues)
    ensures |y.queues| == |y.tracked| == OneBank(p).Banks() == 1 && |y.starts| == 1 && WfBank(OneBank(p), 0)
    ensures RequestsOk(OneBankSetup(p), y.queues, y.tracked, arrivals)
  {}

  /** The stages in front of the driver, given what each of them yields. */
  lemma StagesGive(p: Params, y: System, arrivals: seq<Txn>, q: TxnQueues, picks: seq<Txn>, v: Converted,
                   cmds: seq<Command>, tracked: Tracked)
    requires p.Valid() && SystemShape(OneBankSetup(p), y) && y.reqQ == []
    requires forall i :: 0 <= i < |arrivals| ==> arrivals[i].bank == 0
    requires RequestsOk(OneBankSetup(p), y.queues, y.tracked, arrivals)
    requires QueuesOk(OneBankSetup(p), y.queues, y.tracked, y.txns)
    requires (q, []) == Accept(OneBankSetup(p), y.txns, arrivals) && QueuesOk(OneBankSetup(p), y.queues, y.tracked, q)
    requires Picked(NONE, picks) == PickFrom(OneBankSetup(p), y.queues, y.tracked, q, 0)
    requires v == ConvertAll(OneBankSetup(p), Converted(y.queues, y.tracked, y.owner, true), picks)
    requires v.queues == [cmds] && v.tracked == [tracked]
    ensures OneCycle(p, y, Step(OneBankSetup(p), y, arrivals).0, cmds, tracked, |v.owner|)
  {
    hide SystemShape, Shape, OwnQueues, QueuesOk, RequestsOk, Update, Run, Visit, Accept, PickFrom, ConvertAll,
      VisitOrder, VisitAll, Aged, NextStarts, Step, OneBankSetup, OneBank, WfBank;
    var s, c := OneBankSetup(p), OneBank(p);
    OneBankShape(p, y, arrivals);
    OneVisit(c, y.starts);
    AgedOpen(v.tracked);
    ConvertAllOwn(s, Converted(y.queues, y.tracked, y.owner, true), picks);
    FirstIsWf(c, cmds);
    EmptyIsUnit(arrivals);
    RoundOfOne(c, Update(c, y.d), v.queues);
    StepStages(s, y, arrivals, (q, []), Picked(NONE, picks), v, Visit(c, Update(c, y.d), [cmds], 0), [0]);
  }

  lemma FirstIsWf(c: Config, cmds: seq<Command>)
    requires c.Valid() && WfBank(c, 0) && OwnQueues(c, [cmds])
    ensures cmds != [] ==> WfBank(c, cmds[0].bank)
  {
    assert OwnQueue(c, [cmds][0], 0);
  }

  lemma IdleCycle(p: Params, y: System, q: seq<Command>, tracked: Tracked, made: nat)
    requires p.Valid() && Still(p, y, q, tracked, made)
    ensures RequestsOk(OneBankSetup(p), y.queues, y.tracked, [])
    ensures OneCycle(p, y, Step(OneBankSetup(p), y, []).0, q, tracked, made)
  {
    hide SystemShape, Accept, PickFrom, Step, OneCycle, RequestsOk;
    var s := OneBankSetup(p);
    OneBankShape(p, y, []);
    AcceptsOne(s, FIRST);
    PicksNone(s, y.queues, y.tracked);
    StagesGive(p, y, [], NONE, [], Converted(y.queues, y.tracked, y.owner, true), q, tracked);
  }

  lemma RoundOfOne(c: Config, d: Driver, queues: seq<seq<Command>>)
    requires Shape(c, d) && |queues| == c.Banks() && OwnQueues(c, queues) && 0 < c.Banks()
    ensures VisitAll(c, d, queues, [0]) == Visit(c, d, queues, 0)
  {
    var v := Visit(c, d, queues, 0);
    VisitOwn(c, d, queues, 0);
    assert [0][1..] == [];
    assert VisitAll(c, v.0, v.1, []) == v;
  }

  /** Converting one read. */
  lemma ConvertsOne(s: Setup, v: Converted, q: seq<Command>, tracked: Tracked, t: Txn)
    requires v.queues == [q] && v.tracked == [tracked] && t.bank == 0 && |q| + 3 <= s.cmdEntries
    requires |KindsFor(s.policy, tracked, t)| <= 3
    ensures var kinds := KindsFor(s.policy, tracked, t);
      var v' := ConvertAll(s, v, [t]);
      && v'.queues == [q + Numbered(kinds, t, |v.owner|)] && v'.tracked == [NextTracked(s.policy, tracked, t)]
      && |v'.owner| == |v.owner| + |kinds|
  {
    hide KindsFor, NextTracked, Numbered;
    PushAllFits(s, q, Numbered(KindsFor(s.policy, tracked, t), t, |v.owner|));
    var v1 := ConvertOne(s, v, t);
    assert [t][1..] == [] && ConvertAll(s, v1, []) == v1;
  }

  /** A read that arrives gets its commands in the same cycle. */
  lemma ReadCycle(p: Params, y: System, q: seq<Command>, tracked: Tracked, made: nat, t: Txn)
    requires p.Valid() && Still(p, y, q, tracked, made) && t.bank == 0 && |q| <= 5
    requires |KindsFor(OpenPage, tracked, t)| <= 3
    ensures RequestsOk(OneBankSetup(p), y.queues, y.tracked, [t])
    ensures var kinds := KindsFor(OpenPage, tracked, t);
      OneCycle(p, y, Step(OneBankSetup(p), y, [t]).0, q + Numbered(kinds, t, made), NextTracked(OpenPage, tracked, t),
        made + |kinds|)
  {
    hide SystemShape, Accept, PickFrom, ConvertAll, Step, OneCycle, RequestsOk, QueuesOk, KindsFor, NextTracked,
      Numbered;
    var s := OneBankSetup(p);
    OneBankShape(p, y, [t]);
    AcceptsOne(s, t);
    PicksNone(s, y.queues, y.tracked);
    PicksOne(s, y.queues, y.tracked, t);
    var v := Converted(y.queues, y.tracked, y.owner, true);
    ConvertsOne(s, v, q, tracked, t);
    StagesGive(p, y, [t], TxnQueues([[t]], [[]], [[]], false), [t], ConvertAll(s, v, [t]),
               q + Numbered(KindsFor(OpenPage, tracked, t), t, made), NextTracked(OpenPage, tracked, t));
  }

  // ---------------------------------------------------------------- the driver's part

  /** The driver of one bank with nothing in its queue and its buses about to be free. */
  ghost predicate Calm(c: Config, d: Driver, now: nat, b: Bank, trace: seq<Event>) {
    && Shape(c, d) && d.now == now && d.banks == [b] && d.inputQ == [] && d.trace == trace
    && |d.colBus| == 1 && d.colBus[0] <= 1 && d.rowBus[0] <= 1
  }

  lemma CalmTick(p: Params, d: Driver, now: nat, b: Bank, trace: seq<Event>)
    requires p.Valid() && Calm(OneBank(p), d, now, b, trace)
    ensures var d' := Update(OneBank(p), d);
      && Calm(OneBank(p), d', now + 1, Tick(p, b, now + 1), trace)
      && d'.colBus == [0] && d'.rowBus == [0] && d'.blockBank == [false] && d'.inflightWrites == {}
      && d'.faw == Shifted(d.faw, d.actIssued)
  {}

  /** Without requests the driver has nothing to do. */
  lemma CalmRun(p: Params, d: Driver, now: nat, b: Bank, trace: seq<Event>)
    requires p.Valid() && Calm(OneBank(p), d, now, b, trace)
    ensures Calm(OneBank(p), DriverModel.Run(OneBank(p), d), now, b, trace)
  {
    var d1 := ReleaseBuses(d);
    assert SendLoop(OneBank(p), d1, ActCounts(d1.faw), 0) == d1;
  }

  /** The bank takes nothing new: the commands stay where they are. */
  lemma NothingGoes(p: Params, d: Driver, now: nat, b: Bank, trace: seq<Event>, q: seq<Command>)
    requires p.Valid() && Calm(OneBank(p), d, now, b, trace)
    requires q != [] && q[0].bank == 0 && q[0].kind == READ
    requires var b' := Tick(p, b, now + 1); !IsClosedPhase(b') && !Accepts(b', READ, now + 1)
    ensures WfBank(OneBank(p), 0)
    ensures var v := Visit(OneBank(p), Update(OneBank(p), d), [q], 0);
      v.1 == [q] && Calm(OneBank(p), DriverModel.Run(OneBank(p), v.0), now + 1, Tick(p, b, now + 1), trace)
  {
    CalmTick(p, d, now, b, trace);
    var d1 := Update(OneBank(p), d);
    hide Update, Tick;
    BankIsWf(OneBank(p), 0);
    assert Visit(OneBank(p), d1, [q], 0) == (d1, [q]);
    CalmRun(p, d1, now + 1, Tick(p, b, now + 1), trace);
  }

  /** A request the bank takes is sent at once. */
  lemma SendsOne(p: Params, d: Driver, cmd: Command, b: Bank, now: nat, trace: seq<Event>)
    requires p.Valid() && Shape(OneBank(p), d) && d.now == now && d.banks == [b] && d.inputQ == [cmd]
    requires d.trace == trace
    requires d.colBus == [0] && d.rowBus == [0] && d.blockBank == [false] && d.inflightWrites == {}
    requires cmd.bank == 0 && (cmd.kind == READ || cmd.kind == ACT) && Accepts(b, cmd.kind, now)
    requires cmd.kind == ACT ==> Sum(d.faw[0]) < 4
    ensures Calm(OneBank(p), SendRequests(OneBank(p), d), now, Handle(b, cmd, now), trace + [Event(now, cmd)])
  {
    var c := OneBank(p);
    var counts := ActCounts(d.faw);
    hide Handle, Accepts;
    assert Eligible(c, d, counts, cmd);
    var d1 := Noted(d, cmd);
    var d2 := SentAt(c, d1, 0);
    assert d2.inputQ == [];
    assert d2.banks == [Handle(b, cmd, now)];
    assert SendStep(c, d, counts, 0).d == d2;
    assert SendLoop(c, d2, counts, 0) == d2;
  }

  lemma HeadGoes(p: Params, d: Driver, now: nat, b: Bank, trace: seq<Event>, q: seq<Command>)
    requires p.Valid() && Calm(OneBank(p), d, now, b, trace)
    requires q != [] && q[0].bank == 0 && (q[0].kind == READ || q[0].kind == ACT)
    requires var b' := Tick(p, b, now + 1);
      Accepts(b', q[0].kind, now + 1) && (q[0].kind == READ ==> !IsClosedPhase(b'))
    requires q[0].kind == ACT ==> Sum(Shifted(d.faw, d.actIssued)[0]) < 4
    ensures WfBank(OneBank(p), 0)
    ensures var v := Visit(OneBank(p), Update(OneBank(p), d), [q], 0);
      && v.1 == [q[1..]]
      && Calm(OneBank(p), DriverModel.Run(OneBank(p), v.0), now + 1, Handle(Tick(p, b, now + 1), q[0], now + 1),
        trace + [Event(now + 1, q[0])])
  {
    var c := OneBank(p);
    CalmTick(p, d, now, b, trace);
    var d1 := Update(c, d);
    hide Update, Tick, SendRequests, Shifted, Sum;
    BankIsWf(c, 0);
    var d2 := d1.(inputQ := [q[0]]);
    assert d1.inputQ + [q[0]] == [q[0]] && [q][0 := q[1..]] == [q[1..]];
    assert CmdAllowed(c, d1, q[0]) == (d1, true);
    assert Push(c, d1, q[0]) == (Occupy(c, d2, q[0].kind, 0), true);
    assert Visit(c, d1, [q], 0) == (Occupy(c, d2, q[0].kind, 0), [q[1..]]);
    assert ReleaseBuses(Occupy(c, d2, q[0].kind, 0)) == d2;
    SendsOne(p, d2, q[0], Tick(p, b, now + 1), now + 1, trace);
  }

  // ---------------------------------------------------------------- cycle by cycle

  function FirstCycle(p: Params): nat { 1 + p.nRCD }

  function SecondCycle(p: Params): nat { FirstCycle(p) + p.nCCD_L }

  /** The controller after `n` cycles. */
  ghost function After(p: Params, n: nat): (y: System)
    requires p.Valid()
    ensures SystemShape(OneBankSetup(p), y)
  {
    InputsOk(p, n);
    RunSystem(OneBankSetup(p), Inputs(n)).0
  }

  lemma InputsOk(p: Params, n: nat)
    requires p.Valid()
    ensures forall i :: 0 <= i < n ==> ArrivalsOk(OneBankSetup(p).c, Inputs(n)[i])
    ensures ArrivalsOk(OneBankSetup(p).c, Arrivals(n))
  {}

  lemma AfterNext(p: Params, n: nat)
    requires p.Valid()
    ensures RequestsOk(OneBankSetup(p), After(p, n).queues, After(p, n).tracked, Arrivals(n))
    ensures After(p, n + 1) == Step(OneBankSetup(p), After(p, n), Arrivals(n)).0
  {
    hide Step, SystemShape, RequestsOk, Arrivals, ArrivalsOk, OneBankSetup, OneBank;
    InputsOk(p, n);
    InputsOk(p, n + 1);
    assert Inputs(n + 1)[..n] == Inputs(n);
    assert Inputs(n + 1)[n] == Arrivals(n);
    ArrivalsAreRequests(OneBankSetup(p), After(p, n), Arrivals(n));
  }

  /** After `n` cycles the bank is `b`, its commands are `q`, and `trace` has been issued. */
  ghost predicate Reached(p: Params, n: nat, q: seq<Command>, made: nat, b: Bank, trace: seq<Event>)
    requires p.Valid()
  {
    Still(p, After(p, n), q, Tracked(true, 0, 0), made) && Calm(OneBank(p), After(p, n).d, n, b, trace)
  }

  /** A cycle in which nothing arrives and nothing goes. */
  lemma QuietCycle(p: Params, n: nat, q: seq<Command>, made: nat, b: Bank, trace: seq<Event>)
    requires p.Valid() && 2 <= n && Reached(p, n, q, made, b, trace)
    requires q != [] && q[0].bank == 0 && q[0].kind == READ
    requires var b' := Tick(p, b, n + 1); !IsClosedPhase(b') && !Accepts(b', READ, n + 1)
    ensures Reached(p, n + 1, q, made, Tick(p, b, n + 1), trace)
  {
    hide Still, Calm, After, Step, Visit, Update, DriverModel.Run, Tick, Accepts;
    AfterNext(p, n);
    IdleCycle(p, After(p, n), q, Tracked(true, 0, 0), made);
    NothingGoes(p, After(p, n).d, n, b, trace, q);
  }

  /** A cycle in which nothing arrives and the read at the head goes. */
  lemma ReadGoes(p: Params, n: nat, q: seq<Command>, made: nat, b: Bank, trace: seq<Event>)
    requires p.Valid() && 2 <= n && Reached(p, n, q, made, b, trace)
    requires q != [] && q[0].bank == 0 && q[0].kind == READ
    requires var b' := Tick(p, b, n + 1); !IsClosedPhase(b') && Accepts(b', READ, n + 1)
    ensures Reached(p, n + 1, q[1..], made, Handle(Tick(p, b, n + 1), q[0], n + 1), trace + [Event(n + 1, q[0])])
  {
    hide Still, Calm, After, Step, Visit, Update, DriverModel.Run, Tick, Handle;
    AfterNext(p, n);
    IdleCycle(p, After(p, n), q, Tracked(true, 0, 0), made);
    HeadGoes(p, After(p, n).d, n, b, trace, q);
  }

  const HANDED := Bank(Idle(1, Some(OPENS)), ZERO, Cycles(1, 0, 0, 0, 0), false, 0)
  const OPENING := Bank(Activating(0, OPENS), ZERO, Cycles(1, 0, 0, 0, 0), true, 0)
  const ACTED := [Event(1, OPENS)]

  lemma StartIsStill(p: Params)
    requires p.Valid()
    ensures After(p, 0) == Start(OneBankSetup(p))
    ensures Still(p, After(p, 0), [], Tracked(false, 0, 0), 0) && Calm(OneBank(p), After(p, 0).d, 0, FRESH, [])
    ensures Sum(Shifted(After(p, 0).d.faw, After(p, 0).d.actIssued)[0]) < 4
  {
    var d := After(p, 0).d;
    assert Inputs(0) == [];
    NoActs(p.nFAW - 1);
    var zeros := seq(p.nFAW - 1, i => 0);
    assert (zeros + [0])[1..] == zeros;
  }

  lemma {:induction false} NoActs(n: nat)
    ensures Sum(seq(n, i => 0)) == 0
  {
    if 0 < n {
      assert seq(n, i => 0)[1..] == seq(n - 1, i => 0);
      NoActs(n - 1);
    }
  }

  lemma FirstCommands()
    ensures KindsFor(OpenPage, Tracked(false, 0, 0), FIRST) == [ACT, READ]
    ensures [] + Numbered([ACT, READ], FIRST, 0) == [OPENS, READS]
    ensures NextTracked(OpenPage, Tracked(false, 0, 0), FIRST) == Tracked(true, 0, 0)
  {}

  lemma SecondCommands()
    ensures KindsFor(OpenPage, Tracked(true, 0, 0), SECOND) == [READ]
    ensures [READS] + Numbered([READ], SECOND, 2) == [READS, AGAIN]
    ensures NextTracked(OpenPage, Tracked(true, 0, 0), SECOND) == Tracked(true, 0, 0)
  {}

  lemma FirstBanks(p: Params)
    requires p.Valid()
    ensures Accepts(Tick(p, FRESH, 1), ACT, 1) && Handle(Tick(p, FRESH, 1), OPENS, 1) == HANDED
    ensures Tick(p, HANDED, 2) == OPENING && !Accepts(OPENING, READ, 2) && !IsClosedPhase(OPENING)
  {}

  /** Cycle 1: the first read arrives, and its ACT goes. */
  lemma ActGoes(p: Params)
    requires p.Valid()
    ensures Reached(p, 1, [READS], 2, HANDED, ACTED)
  {
    hide Still, Calm, After, Step, Visit, Update, DriverModel.Run, Tick, Handle, Accepts, Shifted, Sum, Start,
      KindsFor, Numbered, NextTracked;
    StartIsStill(p);
    FirstCommands();
    FirstBanks(p);
    assert [OPENS, READS][1..] == [READS];
    assert [] + ACTED == ACTED;
    AfterNext(p, 0);
    ReadCycle(p, After(p, 0), [], Tracked(false, 0, 0), 0, FIRST);
    HeadGoes(p, After(p, 0).d, 0, FRESH, [], [OPENS, READS]);
  }

  /** Cycle 2: the second read arrives; the bank is opening the row. */
  lemma SecondArrives(p: Params)
    requires p.Valid()
    ensures Reached(p, 2, [READS, AGAIN], 3, OPENING, ACTED)
  {
    hide Still, Calm, After, Step, Visit, Update, DriverModel.Run, Tick, Accepts, KindsFor, Numbered, NextTracked,
      IsClosedPhase;
    ActGoes(p);
    SecondCommands();
    FirstBanks(p);
    AfterNext(p, 1);
    ReadCycle(p, After(p, 1), [READS], Tracked(true, 0, 0), 2, SECOND);
    NothingGoes(p, After(p, 1).d, 1, HANDED, ACTED, [READS, AGAIN]);
  }

  /** The row is open, and no read may go before cycle 1 + nRCD. */
  ghost predicate RowOpened(p: Params, b: Bank, n: nat) {
    && b.phase.Active? && b.phase.got.None? && b.next.read == FirstCycle(p)
    && (b.phase.timer == 0 || b.phase.timer + n <= p.nCCD_L + 1)
  }

  /** The first read has gone; no other may go before nCCD_L cycles have passed. */
  ghost predicate FirstGone(p: Params, b: Bank, n: nat) {
    && b.last.read == FirstCycle(p)
    && ((b.phase.Active? && b.phase.got == Some(READS) && b.next.read == FirstCycle(p)
         && (b.phase.timer == 0 || b.phase.timer + n <= p.nCCD_L + 1))
        || (b.phase.Reading? && b.phase.got.None? && b.next.read == SecondCycle(p)))
  }

  lemma TickOpened(p: Params, b: Bank, n: nat)
    requires p.Valid() && 2 <= n && (if n == 2 then b == OPENING else RowOpened(p, b, n))
    ensures RowOpened(p, Tick(p, b, n + 1), n + 1)
  {}

  lemma TickGone(p: Params, b: Bank, n: nat)
    requires p.Valid() && FirstGone(p, b, n) && FirstCycle(p) <= n
    ensures FirstGone(p, Tick(p, b, n + 1), n + 1)
    ensures SecondCycle(p) <= n + 1 ==> Tick(p, b, n + 1).phase.Reading?
  {}

  lemma {:induction false} Opening(p: Params, n: nat) returns (b: Bank)
    requires p.Valid() && 2 <= n < FirstCycle(p)
    ensures Reached(p, n, [READS, AGAIN], 3, b, ACTED)
    ensures if n == 2 then b == OPENING else RowOpened(p, b, n)
    decreases n
  {
    hide Reached, Tick;
    if n == 2 {
      SecondArrives(p);
      b := OPENING;
    } else {
      var before := Opening(p, n - 1);
      TickOpened(p, before, n - 1);
      b := Tick(p, before, n);
      QuietCycle(p, n - 1, [READS, AGAIN], 3, before, ACTED);
    }
  }

  function OneRead(p: Params): seq<Event> { ACTED + [Event(FirstCycle(p), READS)] }

  function BothReads(p: Params): seq<Event> { OneRead(p) + [Event(SecondCycle(p), AGAIN)] }

  lemma HandleGone(p: Params, b: Bank)
    requires p.Valid() && RowOpened(p, b, FirstCycle(p))
    ensures Accepts(b, READ, FirstCycle(p)) && FirstGone(p, Handle(b, READS, FirstCycle(p)), FirstCycle(p))
  {}

  lemma {:induction false} FirstReadGoes(p: Params, n: nat) returns (b: Bank)
    requires p.Valid() && FirstCycle(p) <= n < SecondCycle(p)
    ensures Reached(p, n, [AGAIN], 3, b, OneRead(p)) && FirstGone(p, b, n)
    decreases n
  {
    hide Reached, Tick, Handle;
    if n == FirstCycle(p) {
      var before := Opening(p, n - 1);
      TickOpened(p, before, n - 1);
      var ticked := Tick(p, before, n);
      HandleGone(p, ticked);
      b := Handle(ticked, READS, n);
      assert [READS, AGAIN][1..] == [AGAIN];
      ReadGoes(p, n - 1, [READS, AGAIN], 3, before, ACTED);
    } else {
      var before := FirstReadGoes(p, n - 1);
      TickGone(p, before, n - 1);
      b := Tick(p, before, n);
      QuietCycle(p, n - 1, [AGAIN], 3, before, OneRead(p));
    }
  }

  lemma SecondReadGoes(p: Params)
    requires p.Valid()
    ensures After(p, SecondCycle(p)).d.trace == BothReads(p)
  {
    hide Reached, Tick, Handle;
    var n := SecondCycle(p);
    var before := FirstReadGoes(p, n - 1);
    TickGone(p, before, n - 1);
    ReadGoes(p, n - 1, [AGAIN], 3, before, OneRead(p));
    ReachedTrace(p, n, [AGAIN][1..], 3, Handle(Tick(p, before, n), AGAIN, n), BothReads(p));
  }

  lemma ReachedTrace(p: Params, n: nat, q: seq<Command>, made: nat, b: Bank, trace: seq<Event>)
    requires p.Valid() && Reached(p, n, q, made, b, trace)
    ensures After(p, n).d.trace == trace
  {}

  /** The arrivals are such as the controller may expect. */
  lemma {:induction false} FlatInputs(n: nat)
    ensures Flat(Inputs(n)) == if n == 0 then [] else if n == 1 then [FIRST] else [FIRST, SECOND]
  {
    if n != 0 {
      FlatInputs(n - 1);
      assert Inputs(n)[..n - 1] == Inputs(n - 1);
    }
  }

  lemma InputsAreOk(p: Params, n: nat)
    requires p.Valid()
    ensures InputOk(OneBankSetup(p).c, addr => 0, Inputs(n))
  {
    InputsOk(p, n);
    FlatInputs(n);
    assert Rising(Flat(Inputs(n)));
  }
}
