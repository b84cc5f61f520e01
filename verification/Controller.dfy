/** The controller object: one clock tick drives the response queue, scheduler, converter, command
    scheduler and driver objects in place. Its history of inputs makes every reachable controller
    a run of the model, so that the theorems about runs hold of the object. */
module Controllers {
  import opened Sequences
  import opened Dram
  import opened DriverModel
  import opened Spacing
  import opened Rows
  import opened Faw
  import opened ControllerModel
  import opened ControllerSafety
  import opened DeviceDrivers
  import opened Schedulers
  import opened Service
  import opened ServiceRuns
  import opened ReplyDesks
  import H = Hazards

  ghost predicate AllArrivalsOk(s: Setup, history: seq<seq<Txn>>) {
    s.c.Valid() && forall n :: 0 <= n < |history| ==> ArrivalsOk(s.c, history[n])
  }

  /** The controller after the batches of `history`. */
  ghost function Reached(s: Setup, history: seq<seq<Txn>>): System
    requires AllArrivalsOk(s, history)
  {
    RunSystem(s, history).0
  }

  lemma OneMoreBatch(s: Setup, history: seq<seq<Txn>>, arrivals: seq<Txn>, y: System)
    requires AllArrivalsOk(s, history) && ArrivalsOk(s.c, arrivals) && y == Reached(s, history)
    ensures SystemShape(s, y) && RequestsOk(s, y.queues, y.tracked, arrivals) && y.owner <= Step(s, y, arrivals).0.owner
    ensures AllArrivalsOk(s, history + [arrivals]) && Reached(s, history + [arrivals]) == Step(s, y, arrivals).0
    ensures Step(s, y, arrivals).1
  {
    hide SystemShape, Step, ArrivalsOk, Start, PairwiseSafe, RowSafe, FawSafe, SameBankInOrder;
    assert (history + [arrivals])[..|history|] == history;
    ArrivalsAreRequests(s, y, arrivals);
    RunsAreSafe(s, history + [arrivals]);
    StepOwner(s, y, arrivals);
  }

  ghost predicate TraceSafe(c: Config, trace: seq<Event>)
    requires c.Valid()
  {
    PairwiseSafe(c, trace) && RowSafe(trace) && FawSafe(c, trace) && SameBankInOrder(trace)
  }

  lemma ReachedIsSafe(s: Setup, history: seq<seq<Txn>>)
    requires AllArrivalsOk(s, history)
    ensures TraceSafe(s.c, Reached(s, history).d.trace)
  {
    hide PairwiseSafe, RowSafe, FawSafe, SameBankInOrder;
    RunsAreSafe(s, history);
  }

  lemma BatchesGrow(inputs: seq<Input>, input: Input)
    ensures Batches(inputs + [input]) == Batches(inputs) + [input.arrivals]
  {}

  lemma NoRun(s: Setup)
    requires s.c.Valid()
    ensures SystemShape(s, Start(s)) && AllArrivalsOk(s, Batches([])) && Reached(s, Batches([])) == Start(s)
    ensures FirstState(s) == Memory(Start(s), Desk([], [], map[]), {})
    ensures forall hash: nat -> nat :: IsMemoryRun(s, hash, [], MemoryRun([FirstState(s)], []))
  {
    assert Batches([]) == [];
    assert H.Flat([]) == [];
    hide Start;
  }

  /** A run with one more cycle. */
  lemma LongerRun(s: Setup, hash: nat -> nat, inputs: seq<Input>, run: MemoryRun, input: Input, next: (Memory, bool))
    requires IsMemoryRun(s, hash, inputs, run) && H.InputOk(s.c, hash, Batches(inputs + [input]))
    requires var m := run.states[|inputs|];
      && SystemShape(s, m.core) && RequestsOk(s, m.core.queues, m.core.tracked, input.arrivals)
      && InputOkFor(m, input) && next == MemoryStep(s, m, input)
    ensures IsMemoryRun(s, hash, inputs + [input], MemoryRun(run.states + [next.0], run.flags + [next.1]))
    ensures |run.states| == |inputs| + 1 && next.1
  {
    hide SystemShape, RequestsOk, InputOkFor, MemoryStep, H.InputOk, FirstState;
    var longer := MemoryRun(run.states + [next.0], run.flags + [next.1]);
    forall n | 0 <= n < |inputs + [input]|
      ensures CycleAt(s, inputs + [input], longer, n)
    {
      if n < |inputs| { assert CycleAt(s, inputs, run, n); }
    }
    NoSearchFails(s, hash, inputs + [input], longer, |inputs|);
  }

  lemma LogTail(s: Setup, q: TxnQueues, reqQ: seq<Txn>)
    requires |q.allQ| == |q.readQ| == |q.writeQ| == s.c.channels && reqQ != []
    requires forall j :: 0 <= j < |reqQ| ==> s.c.ChannelOf(reqQ[j].bank) < s.c.channels
    ensures QuickHit(s, q, reqQ[0]) ==> AcceptLog(s, q, reqQ)[1..] == AcceptLog(s, q, reqQ[1..])
    ensures !QuickHit(s, q, reqQ[0]) && PushTxn(s, q, reqQ[0]).1 ==>
      AcceptLog(s, q, reqQ)[1..] == AcceptLog(s, PushTxn(s, q, reqQ[0]).0, reqQ[1..])
  {}

  lemma PushKeepsWidth(s: Setup, q: TxnQueues, t: Txn)
    requires |q.allQ| == |q.readQ| == |q.writeQ| == s.c.channels && s.c.ChannelOf(t.bank) < s.c.channels
    ensures var q' := PushTxn(s, q, t).0; |q'.allQ| == |q'.readQ| == |q'.writeQ| == s.c.channels
    ensures !PushTxn(s, q, t).1 ==> PushTxn(s, q, t).0 == q
  {}

  class Controller {
    const s: Setup
    const txnSched: TxnScheduler
    const conv: TxnConverter
    const cmdSched: CmdScheduler
    const driver: DeviceDriver
    const desk: ReplyDesk
    var reqQ: seq<Txn>
    ghost var returned: set<nat>
    ghost var inputs: seq<Input>
    ghost var run: MemoryRun

    ghost function View(): System
      reads this, txnSched, conv, cmdSched, driver, driver.banks
    {
      System(driver.View(), cmdSched.queues, cmdSched.starts, conv.tracked, conv.owner, txnSched.View(), reqQ)
    }

    ghost function MemView(): Memory
      reads this, desk, txnSched, conv, cmdSched, driver, driver.banks
    {
      Memory(View(), desk.View(), returned)
    }

    ghost predicate Wired() {
      && s.c.Valid() && txnSched.s == s && conv.s == s && cmdSched.s == s && driver.c == s.c && NoRepeats(driver.banks)
      && desk.quick == s.quick
    }

    ghost predicate Valid()
      reads this, txnSched, conv, cmdSched, driver, driver.banks
    {
      && Wired() && SystemShape(s, View())
      && AllArrivalsOk(s, Batches(inputs)) && View() == Reached(s, Batches(inputs))
    }

    /** So far, transactions came with rising numbers, and the device returned what was issued. */
    ghost predicate Answering(hash: nat -> nat)
      reads this, desk, txnSched, conv, cmdSched, driver, driver.banks
    {
      IsMemoryRun(s, hash, inputs, run) && MemView() == run.states[|inputs|]
    }

    /** The next input goes on with that. */
    ghost predicate GoodInput(hash: nat -> nat, input: Input)
      reads this, desk, txnSched, conv, cmdSched, driver, driver.banks
    {
      H.InputOk(s.c, hash, Batches(inputs + [input])) && InputOkFor(MemView(), input)
    }

    lemma PartsValid()
      requires Wired() && SystemShape(s, View())
      ensures cmdSched.Valid() && |conv.tracked| == s.c.Banks() && driver.Valid()
      ensures QueuesOk(s, cmdSched.queues, conv.tracked, txnSched.View())
      ensures RequestsOk(s, cmdSched.queues, conv.tracked, reqQ)
    {}

    constructor (setup: Setup)
      requires setup.c.Valid()
      ensures Valid() && s == setup && inputs == [] && MemView() == FirstState(s)
      ensures forall hash: nat -> nat :: Answering(hash)
    {
      hide AllArrivalsOk, Reached, SystemShape, IsMemoryRun, H.InputOk, Batches, Shape, OwnQueues, QueuesOk,
        RequestsOk, Initial;
      s := setup;
      txnSched := new TxnScheduler(setup);
      conv := new TxnConverter(setup);
      cmdSched := new CmdScheduler(setup);
      driver := new DeviceDriver(setup.c);
      desk := new ReplyDesk(setup.quick);
      reqQ, returned, inputs := [], {}, [];
      run := MemoryRun([FirstState(setup)], []);
      new;
      NoRun(s);
      assert View() == Start(s);
    }

    method HandleArrivals(arrivals: seq<Txn>)
      modifies this`reqQ, desk
      ensures reqQ == old(reqQ) + arrivals && desk.View() == ArrivedAll(old(desk.View()), arrivals)
    {
      ghost var all := ArrivedAll(desk.View(), arrivals);
      for i := 0 to |arrivals|
        invariant reqQ == old(reqQ) + arrivals[..i] && all == ArrivedAll(desk.View(), arrivals[i..])
      {
        assert arrivals[i..][1..] == arrivals[i + 1..];
        reqQ := reqQ + [arrivals[i]];
        desk.HandleIncoming(arrivals[i]);
      }
    }

    method HandleReturns(back: seq<nat>) returns (found: bool)
      requires desk.quick == s.quick
      modifies desk
      ensures (desk.View(), found) == ReturnedAll(s.quick, old(desk.View()), back)
    {
      hide Returned;
      found := true;
      ghost var all := ReturnedAll(s.quick, desk.View(), back);
      for i := 0 to |back|
        invariant var rest := ReturnedAll(s.quick, desk.View(), back[i..]); all == (rest.0, found && rest.1)
      {
        assert back[i..][1..] == back[i + 1..];
        var one := desk.HandleDeviceResponse(back[i]);
        found := found && one;
      }
    }

    /** Take requests until one finds no room; with quick response, reads that hit a queued write
        are answered by it. */
    method AcceptRequests()
      requires Wired() && |txnSched.allQ| == |txnSched.readQ| == |txnSched.writeQ| == s.c.channels
      requires forall j :: 0 <= j < |reqQ| ==> s.c.ChannelOf(reqQ[j].bank) < s.c.channels
      modifies this`reqQ, txnSched, desk
      ensures (txnSched.View(), reqQ) == Accept(s, old(txnSched.View()), old(reqQ))
      ensures desk.View() == TakenAll(s.quick, old(desk.View()), AcceptLog(s, old(txnSched.View()), old(reqQ)))
    {
      ghost var all := Accept(s, txnSched.View(), reqQ);
      ghost var log := AcceptLog(s, txnSched.View(), reqQ);
      ghost var whole := TakenAll(s.quick, desk.View(), log);
      var room := true;
      hide TakenOne, PushTxn, HitsQueue;
      while reqQ != [] && room
        invariant |txnSched.allQ| == |txnSched.readQ| == |txnSched.writeQ| == s.c.channels
        invariant forall j :: 0 <= j < |reqQ| ==> s.c.ChannelOf(reqQ[j].bank) < s.c.channels
        invariant all == Accept(s, txnSched.View(), reqQ)
        invariant whole == TakenAll(s.quick, desk.View(), AcceptLog(s, txnSched.View(), reqQ))
        invariant !room ==> all == (txnSched.View(), reqQ) && whole == desk.View()
        decreases |reqQ|, room
      {
        var t := reqQ[0];
        var hit := false;
        if s.quick { hit := txnSched.IsHit(t); }
        LogTail(s, txnSched.View(), reqQ);
        if hit {
          desk.MarkHit(t);
          reqQ := reqQ[1..];
        } else {
          PushKeepsWidth(s, txnSched.View(), t);
          room := txnSched.Push(t);
          if room {
            desk.NoteQueued(t);
            reqQ := reqQ[1..];
          }
        }
      }
    }

    /** Take what has arrived, then pick transactions. */
    method TakeAndPick() returns (picks: seq<Txn>, ghost accepted: (TxnQueues, seq<Txn>))
      requires Wired() && QueuesOk(s, cmdSched.queues, conv.tracked, txnSched.View())
      requires RequestsOk(s, cmdSched.queues, conv.tracked, reqQ)
      modifies this`reqQ, txnSched, desk
      ensures |old(txnSched.allQ)| == |old(txnSched.readQ)| == |old(txnSched.writeQ)| == s.c.channels
      ensures forall j :: 0 <= j < |old(reqQ)| ==> s.c.ChannelOf(old(reqQ)[j].bank) < s.c.channels
      ensures accepted == Accept(s, old(txnSched.View()), old(reqQ)) && reqQ == accepted.1
      ensures QueuesOk(s, cmdSched.queues, conv.tracked, accepted.0)
      ensures Picked(txnSched.View(), picks) == PickFrom(s, cmdSched.queues, conv.tracked, accepted.0, 0)
      ensures desk.View() == TakenAll(s.quick, old(desk.View()), AcceptLog(s, old(txnSched.View()), old(reqQ)))
    {
      AcceptOk(s, cmdSched.queues, conv.tracked, txnSched.View(), reqQ);
      hide Accept, PickFrom, TakenAll, AcceptLog;
      AcceptRequests();
      accepted := (txnSched.View(), reqQ);
      picks := txnSched.RunAll(cmdSched, conv.tracked);
    }

    method Convert(picks: seq<Txn>) returns (ok: bool, ghost v: Converted)
      requires Wired() && cmdSched.Valid() && |conv.tracked| == s.c.Banks()
      requires forall i :: 0 <= i < |picks| ==> picks[i].bank < s.c.Banks()
      modifies conv, cmdSched`queues
      ensures v == ConvertAll(s, Converted(old(cmdSched.queues), old(conv.tracked), old(conv.owner), true), picks)
      ensures cmdSched.Valid() && cmdSched.queues == v.queues && conv.owner == v.owner && ok == v.ok
      ensures conv.tracked == Aged(s.policy, v.tracked)
    {
      ConvertAllOwn(s, Converted(cmdSched.queues, conv.tracked, conv.owner, true), picks);
      hide ConvertAll, OwnQueues;
      ok := conv.ConvertPicks(cmdSched, picks);
      v := Converted(cmdSched.queues, conv.tracked, conv.owner, ok);
      conv.AgeTimers();
    }

    lemma BothRequests(arrivals: seq<Txn>)
      requires SystemShape(s, View()) && RequestsOk(s, cmdSched.queues, conv.tracked, arrivals)
      ensures RequestsOk(s, cmdSched.queues, conv.tracked, reqQ + arrivals)
    {}

    /** The scheduling stages of a tick, with `arrivals` the newest requests. */
    method RunStages(ghost y: System, ghost arrivals: seq<Txn>) returns (ok: bool)
      requires Wired() && SystemShape(s, y) && RequestsOk(s, y.queues, y.tracked, arrivals)
      requires View() == y.(reqQ := y.reqQ + arrivals)
      requires cmdSched.Valid() && |conv.tracked| == s.c.Banks() && driver.Valid()
      requires QueuesOk(s, cmdSched.queues, conv.tracked, txnSched.View())
      requires RequestsOk(s, cmdSched.queues, conv.tracked, reqQ)
      requires y.owner <= Step(s, y, arrivals).0.owner
      modifies this`reqQ, desk, txnSched, conv, cmdSched, driver, driver.banks
      ensures Wired() && (View(), ok) == Step(s, y, arrivals)
      ensures |y.txns.allQ| == |y.txns.readQ| == |y.txns.writeQ| == s.c.channels
      ensures forall j :: 0 <= j < |y.reqQ + arrivals| ==> s.c.ChannelOf((y.reqQ + arrivals)[j].bank) < s.c.channels
      ensures desk.View() ==
        Recorded(TakenAll(s.quick, old(desk.View()), AcceptLog(s, y.txns, y.reqQ + arrivals)), View().owner, |y.owner|)
    {
      hide SystemShape, Step, Accept, PickFrom, ConvertAll, VisitOrder, VisitAll, Update, Run, NextStarts, Aged,
        Shape, OwnQueues, RequestsOk, QueuesOk, InBanks, TakenAll, AcceptLog, Recorded;
      driver.Tic();
      var picks, accepted := TakeAndPick();
      ghost var picked := Picked(txnSched.View(), picks);
      ghost var v;
      var from := |conv.owner|;
      ok, v := Convert(picks);
      cmdSched.RunCommands(driver);
      ghost var order := VisitOrder(s.c, y.starts, 0);
      VisitOrderOk(s.c, y.starts, 0);
      StepStages(s, y, arrivals, accepted, picked, v, (driver.View(), cmdSched.queues), order);
      driver.RunCycle();
      desk.Record(conv.owner, from);
    }

    /** One clock tick, after what happened since the last: the object takes the model's step. */
    method Advance(input: Input) returns (ok: bool, found: bool)
      requires Wired() && SystemShape(s, View()) && RequestsOk(s, cmdSched.queues, conv.tracked, input.arrivals)
      requires cmdSched.Valid() && |conv.tracked| == s.c.Banks() && driver.Valid()
      requires QueuesOk(s, cmdSched.queues, conv.tracked, txnSched.View())
      requires RequestsOk(s, cmdSched.queues, conv.tracked, reqQ + input.arrivals)
      requires conv.owner <= Step(s, View(), input.arrivals).0.owner
      modifies this`reqQ, this`returned, desk, txnSched, conv, cmdSched, driver, driver.banks
      ensures Wired() && (View(), ok) == Step(s, old(View()), input.arrivals)
      ensures (MemView(), found && ok) == MemoryStep(s, old(MemView()), input)
    {
      ghost var m := MemView();
      hide SystemShape, Step, RequestsOk, QueuesOk, MemoryStep, ReturnedAll, ArrivedAll, TakenAll, AcceptLog, Sent,
        Recorded, Shape, OwnQueues;
      HandleArrivals(input.arrivals);
      found := HandleReturns(input.back);
      desk.SendResponse();
      ok := RunStages(m.core, input.arrivals);
      returned := returned + Members(input.back);
      MemoryStepIs(s, m, input);
    }

    /** Whatever arrives and whatever the device returns, a tick fails no assertion of the
        converter, and all commands issued so far keep their distances, their rows, the activation
        window and their bank's order. As long as transactions come with rising numbers and the
        device returns what was issued, the controller with its responses is a run too, and every
        search finds its transaction. */
    method ClockTic(input: Input, ghost hash: nat -> nat) returns (ok: bool, found: bool)
      requires Valid() && ArrivalsOk(s.c, input.arrivals)
      modifies this, desk, txnSched, conv, cmdSched, driver, driver.banks
      ensures Valid() && inputs == old(inputs) + [input] && ok
      ensures TraceSafe(s.c, driver.trace)
      ensures old(Answering(hash) && GoodInput(hash, input)) ==> Answering(hash) && found
    {
      hide SystemShape, RequestsOk, QueuesOk, Step, Reached, AllArrivalsOk, TraceSafe, ArrivalsOk, MemoryStep,
        IsMemoryRun, H.InputOk, InputOkFor, Batches, OwnQueues, Shape;
      PartsValid();
      BatchesGrow(inputs, input);
      OneMoreBatch(s, Batches(inputs), input.arrivals, View());
      BothRequests(input.arrivals);
      ok, found := Advance(input);
      ghost var next := (MemView(), found && ok);
      if old(Answering(hash) && GoodInput(hash, input)) { LongerRun(s, hash, inputs, run, input, next); }
      inputs := inputs + [input];
      run := MemoryRun(run.states + [next.0], run.flags + [next.1]);
      ReachedIsSafe(s, Batches(inputs));
    }
  }
}
