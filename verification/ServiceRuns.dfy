/** Whole runs of the controller with its responses: whatever arrives and in whatever order the
    device returns the column commands, everyone is answered at most once, and no search fails. */
module ServiceRuns {
  import opened Sequences
  import opened Dram
  import opened DriverSafety
  import opened ControllerModel
  import opened ControllerSafety
  import opened Quiet
  import opened CycleEvents
  import opened RefreshRuns
  import opened Service
  import opened ServiceSafety
  import H = Hazards
  import R = Responses
  import U = Runs

  // ---------------------------------------------------------------- stages in sequence

  lemma {:induction false} ArrivedAllKeeps(s: Setup, d: Desk, q: TxnQueues, owner: seq<Made>, back: set<nat>,
                                           accepted: seq<Txn>, reqQ: seq<Txn>, ts: seq<Txn>)
    requires Agree(s, d, q, owner, back, accepted, reqQ) && NoRepeats(ts)
    requires forall i :: 0 <= i < |ts| ==> ts[i] !in d.stage
    ensures Agree(s, ArrivedAll(d, ts), q, owner, back, accepted, reqQ + ts) && ArrivedAll(d, ts).sent == d.sent
    ensures forall t :: t in ArrivedAll(d, ts).stage && ArrivedAll(d, ts).stage[t] == R.Completed ==>
      t in d.stage && d.stage[t] == R.Completed
    decreases |ts|
  {
    hide DeskInv, LinesQueued, OwnersOk, RequestsWait;
    if ts == [] {
      assert reqQ + ts == reqQ;
    } else {
      var t, rest := ts[0], ts[1..];
      OwnersStaged(owner, d.stage, back);
      ArrivedKeeps(s.quick, d, owner, t);
      ArrivalLinks(s, q, owner, d.stage, back, accepted, reqQ, t);
      assert t !in rest;
      assert forall i :: 0 <= i < |rest| ==> rest[i] == ts[i + 1] && rest[i] in rest;
      ArrivedAllKeeps(s, Arrived(d, t), q, owner, back, accepted, reqQ + [t], rest);
      assert reqQ + [t] + rest == reqQ + ts;
    }
  }

  lemma OwnersStaged(owner: seq<Made>, stage: map<Txn, R.Stage>, back: set<nat>)
    requires OwnersOk(owner, stage, back)
    ensures forall n :: 0 <= n < |owner| ==> owner[n].txn in stage
  {}

  lemma {:induction false} ReturnedAllKeeps(s: Setup, d: Desk, q: TxnQueues, owner: seq<Made>, back: set<nat>,
                                            accepted: seq<Txn>, reqQ: seq<Txn>, ns: seq<nat>)
    requires Agree(s, d, q, owner, back, accepted, reqQ) && H.OneColumn(owner) && Departed(s, q, owner)
    requires NoRepeats(ns)
    requires forall i :: 0 <= i < |ns| ==> ns[i] < |owner| && IsColumn(owner[ns[i]].kind) && ns[i] !in back
    ensures var r := ReturnedAll(s.quick, d, ns);
      r.1 && Agree(s, r.0, q, owner, back + Members(ns), accepted, reqQ) && r.0.sent == d.sent
    decreases |ns|
  {
    hide DeskInv, LinesQueued, OwnersOk, RequestsWait, H.OneColumn, Departed, Returned;
    if ns == [] {
      assert back + Members(ns) == back;
    } else {
      var n, rest := ns[0], ns[1..];
      UnreturnedIsQueued(owner, d.stage, back, n);
      ReturnedKeeps(s.quick, d, owner, n);
      ReturnLinks(s, q, owner, d.stage, back, accepted, reqQ, n);
      assert n !in rest;
      assert forall i :: 0 <= i < |rest| ==> rest[i] == ns[i + 1] && rest[i] in rest;
      ReturnedAllKeeps(s, Returned(s.quick, d, n).0, q, owner, back + {n}, accepted, reqQ, rest);
      assert back + {n} + Members(rest) == back + Members(ns);
    }
  }

  ghost predicate CompletedSent(d: Desk) { forall t :: t in d.stage && d.stage[t] == R.Completed ==> t in d.sent }

  /** After sendResponse every completed transaction has been answered. */
  lemma SendAnswers(s: Setup, d: Desk, owner: seq<Made>)
    requires DeskInv(s.quick, d, owner)
    ensures DeskInv(s.quick, Sent(d), owner) && Sent(d).stage == d.stage && CompletedSent(Sent(d))
  {
    SentKeeps(s.quick, d, owner);
    var d' := Sent(d);
    hide Sent;
    forall t | t in d'.stage && d'.stage[t] == R.Completed
      ensures t in d'.sent
    {
      assert R.TxnOk(BookOf(s.quick, d'), t);
      NoneReady(d', t);
    }
  }

  lemma NoneReady(d: Desk, t: Txn)
    requires forall i :: 0 <= i < |d.resQ| ==> !d.resQ[i].ready
    ensures R.Key(t, false, true) !in KeysOf(d.resQ) && R.Key(t, true, true) !in KeysOf(d.resQ)
  {}

  // ---------------------------------------------------------------- one cycle

  /** A column event of the trace carries number `n`. */
  ghost predicate ColumnIssued(trace: seq<Event>, n: nat) {
    exists k :: 0 <= k < |trace| && IsColumn(trace[k].cmd.kind) && trace[k].cmd.seqNum == n
  }

  ghost predicate MemoryInv(s: Setup, hash: nat -> nat, m: Memory, accepted: seq<Txn>) {
    && SystemInv(s, m.core) && SystemQuiet(s, m.core) && H.SystemHazards(s, hash, m.core, accepted)
    && Agree(s, m.desk, m.core.txns, m.core.owner, m.returned, accepted, m.core.reqQ)
    && CompletedSent(m.desk) && forall n :: n in m.returned ==> ColumnIssued(m.core.d.trace, n)
  }

  /** An issued column command has the number of a column command made for a transaction. */
  lemma IssuedIsOwned(s: Setup, y: System, n: nat)
    requires SystemInv(s, y) && ColumnIssued(y.d.trace, n)
    ensures n < |y.owner| && IsColumn(y.owner[n].kind)
  {
    var k :| 0 <= k < |y.d.trace| && IsColumn(y.d.trace[k].cmd.kind) && y.d.trace[k].cmd.seqNum == n;
    assert OriginsOk(y.d.inputQ, y.d.trace, SystemBacklog(y));
    assert Known(y.d.trace[k].cmd, SystemBacklog(y));
  }

  lemma HazardsDepart(s: Setup, hash: nat -> nat, y: System, accepted: seq<Txn>)
    requires H.SystemHazards(s, hash, y, accepted)
    ensures H.Wide(s, y.txns) && Departed(s, y.txns, y.owner) && H.OneColumn(y.owner) && H.Rising(accepted + y.reqQ)
  {
    forall w, ch: nat, i, n | ch < s.c.channels && 0 <= i < |LineOf(y.txns, w, ch)| && 0 <= n < |y.owner|
      ensures LineOf(y.txns, w, ch)[i] != y.owner[n].txn
    {
      assert H.Behind(s, H.Txns(y.owner), LineOf(y.txns, w, ch));
      assert H.Txns(y.owner)[n] == y.owner[n].txn;
    }
  }

  /** Numbers rise, so a batch repeats nothing and brings nobody known. */
  lemma ArrivalsAreNew(known: seq<Txn>, arrivals: seq<Txn>)
    requires H.Rising(known + arrivals)
    ensures NoRepeats(arrivals) && forall i :: 0 <= i < |arrivals| ==> arrivals[i] !in known
  {
    var all := known + arrivals;
    assert forall i :: 0 <= i < |arrivals| ==> arrivals[i] == all[|known| + i];
    assert forall i :: 0 <= i < |known| ==> known[i] == all[i];
  }

  /** Arrivals, returns and responses: the desk before the scheduling stages. */
  lemma EventsKeep(s: Setup, hash: nat -> nat, m: Memory, input: Input, accepted: seq<Txn>)
    requires MemoryInv(s, hash, m, accepted) && InputOkFor(m, input)
    requires H.Rising(accepted + m.core.reqQ + input.arrivals)
    ensures var r := ReturnedAll(s.quick, ArrivedAll(m.desk, input.arrivals), input.back);
      && r.1 && CompletedSent(Sent(r.0))
      && Agree(s, Sent(r.0), m.core.txns, m.core.owner, m.returned + Members(input.back), accepted,
        m.core.reqQ + input.arrivals)
  {
    hide SystemInv, SystemQuiet, H.SystemHazards, DeskInv, LinesQueued, OwnersOk, ReturnedAll, ArrivedAll, Sent,
      ColumnIssued;
    var y := m.core;
    HazardsDepart(s, hash, y, accepted);
    ArrivalsAreNew(accepted + y.reqQ, input.arrivals);
    assert forall t :: t in accepted + y.reqQ <==> t in accepted || t in y.reqQ;
    ArrivedAllKeeps(s, m.desk, y.txns, y.owner, m.returned, accepted, y.reqQ, input.arrivals);
    forall i | 0 <= i < |input.back|
      ensures input.back[i] < |y.owner| && IsColumn(y.owner[input.back[i]].kind) && input.back[i] !in m.returned
    {
      CanReturnIs(m, input.back[i]);
      IssuedIsOwned(s, y, input.back[i]);
    }
    var d1 := ArrivedAll(m.desk, input.arrivals);
    ReturnedAllKeeps(s, d1, y.txns, y.owner, m.returned, accepted, y.reqQ + input.arrivals, input.back);
    SendAnswers(s, ReturnedAll(s.quick, d1, input.back).0, y.owner);
  }

  lemma CanReturnIs(m: Memory, n: nat)
    requires CanReturn(m, n)
    ensures n !in m.returned && ColumnIssued(m.core.d.trace, n)
  {}

  /** The scheduling stages. */
  lemma StagesKeep(s: Setup, y: System, arrivals: seq<Txn>, d: Desk, back: set<nat>, accepted: seq<Txn>)
    returns (now: seq<Txn>)
    requires SystemInv(s, y) && RequestsOk(s, y.queues, y.tracked, arrivals) && H.Rising(accepted + (y.reqQ + arrivals))
    requires Agree(s, d, y.txns, y.owner, back, accepted, y.reqQ + arrivals) && CompletedSent(d)
    ensures |y.txns.allQ| == |y.txns.readQ| == |y.txns.writeQ| == s.c.channels
    ensures forall j :: 0 <= j < |y.reqQ + arrivals| ==> s.c.ChannelOf((y.reqQ + arrivals)[j].bank) < s.c.channels
    ensures SystemShape(s, y) && y.owner <= Step(s, y, arrivals).0.owner
    ensures var y' := Step(s, y, arrivals).0;
      var d' := Recorded(TakenAll(s.quick, d, AcceptLog(s, y.txns, y.reqQ + arrivals)), y'.owner, |y.owner|);
      && Agree(s, d', y'.txns, y'.owner, back, now, y'.reqQ) && CompletedSent(d')
      && now + y'.reqQ == accepted + (y.reqQ + arrivals)
  {
    hide Step, SystemShape, DeskInv, LinesQueued, OwnersOk, QueuesOk, RequestsOk, Safe, TakenAll, AcceptLog, Recorded,
      Accept, ConvertAll, PickFrom;
    StepParts(s, y, arrivals);
    ShapeOf(s, y);
    var reqQ := y.reqQ + arrivals;
    AcceptOk(s, y.queues, y.tracked, y.txns, reqQ);
    ArrivalsAreNew(accepted, reqQ);
    now := TakenKeeps(s, d, y.txns, y.owner, back, accepted, reqQ);
    var d1 := TakenAll(s.quick, d, AcceptLog(s, y.txns, reqQ));
    var taken := Accept(s, y.txns, reqQ);
    PicksQueued(s, y.queues, y.tracked, taken.0, 0, d1.stage);
    var picked := PickFrom(s, y.queues, y.tracked, taken.0, 0);
    var v0 := Converted(y.queues, y.tracked, y.owner, true);
    NewOwnersQueued(s, v0, picked.picks, d1.stage);
    var v := ConvertAll(s, v0, picked.picks);
    StepResults(s, y, arrivals, taken.0, v, picked);
    RecordedKeeps(s.quick, d1, y.owner, v.owner);
    OwnersMore(y.owner, v.owner, d1.stage, back);
    RecordedStage(d1, v.owner, |y.owner|);
  }

  lemma ShapeOf(s: Setup, y: System)
    requires SystemInv(s, y)
    ensures SystemShape(s, y)
  {}

  lemma RecordedStage(d: Desk, owner: seq<Made>, from: nat)
    requires from <= |owner|
    ensures Recorded(d, owner, from).stage == d.stage && Recorded(d, owner, from).sent == d.sent
  {}

  lemma SuffixSame(a: seq<Txn>, b: seq<Txn>, rest: seq<Txn>)
    requires a + rest == b + rest
    ensures a == b
  {
    assert |a| == |b|;
    assert a == (a + rest)[..|a|] && b == (b + rest)[..|b|];
  }

  lemma TraceGrows(s: Setup, y: System, arrivals: seq<Txn>)
    requires SystemInv(s, y) && SystemQuiet(s, y) && RequestsOk(s, y.queues, y.tracked, arrivals)
    ensures SystemShape(s, y) && y.d.trace <= Step(s, y, arrivals).0.d.trace
  {
    ShapeOf(s, y);
    hide Step, SystemInv, SystemQuiet, SystemShape, RequestsOk, Requests, RankPart;
    var first, second, due := StepEvents(s, y, arrivals);
  }

  lemma IssuedStays(trace: seq<Event>, trace': seq<Event>, n: nat)
    requires trace <= trace' && ColumnIssued(trace, n)
    ensures ColumnIssued(trace', n)
  {
    var k :| 0 <= k < |trace| && IsColumn(trace[k].cmd.kind) && trace[k].cmd.seqNum == n;
    assert trace'[k] == trace[k];
  }

  /** What a cycle's result consists of. */
  lemma MemoryStepIs(s: Setup, m: Memory, input: Input)
    requires SystemShape(s, m.core) && RequestsOk(s, m.core.queues, m.core.tracked, input.arrivals)
    requires |m.core.txns.allQ| == |m.core.txns.readQ| == |m.core.txns.writeQ| == s.c.channels
    requires forall j :: 0 <= j < |m.core.reqQ + input.arrivals| ==>
      s.c.ChannelOf((m.core.reqQ + input.arrivals)[j].bank) < s.c.channels
    requires m.core.owner <= Step(s, m.core, input.arrivals).0.owner
    ensures var r := ReturnedAll(s.quick, ArrivedAll(m.desk, input.arrivals), input.back);
      var next := Step(s, m.core, input.arrivals);
      var taken := TakenAll(s.quick, Sent(r.0), AcceptLog(s, m.core.txns, m.core.reqQ + input.arrivals));
      MemoryStep(s, m, input) ==
        (Memory(next.0, Recorded(taken, next.0.owner, |m.core.owner|), m.returned + Members(input.back)), r.1 && next.1)
  {
    hide Step, ReturnedAll, ArrivedAll, TakenAll, Sent, AcceptLog, Recorded, SystemShape, RequestsOk;
  }

  /** One cycle of the controller with its responses keeps the invariant and fails no search. */
  lemma MemoryStepKeeps(s: Setup, hash: nat -> nat, m: Memory, input: Input, accepted: seq<Txn>) returns (now: seq<Txn>)
    requires MemoryInv(s, hash, m, accepted) && InputOkFor(m, input)
    requires SystemShape(s, m.core) && RequestsOk(s, m.core.queues, m.core.tracked, input.arrivals)
    requires H.Rising(accepted + m.core.reqQ + input.arrivals) && H.Hashed(hash, input.arrivals)
    ensures MemoryInv(s, hash, MemoryStep(s, m, input).0, now) && MemoryStep(s, m, input).1
    ensures now + MemoryStep(s, m, input).0.core.reqQ == accepted + m.core.reqQ + input.arrivals
  {
    hide Step, SystemInv, SystemQuiet, SystemShape, RequestsOk, H.SystemHazards, Agree, CompletedSent, ColumnIssued,
      MemoryStep, ReturnedAll, ArrivedAll, TakenAll, Sent, AcceptLog, Recorded, H.Rising, CanReturn;
    var y := m.core;
    var r := ReturnedAll(s.quick, ArrivedAll(m.desk, input.arrivals), input.back);
    assert accepted + y.reqQ + input.arrivals == accepted + (y.reqQ + input.arrivals);
    EventsKeep(s, hash, m, input, accepted);
    now := StagesKeep(s, y, input.arrivals, Sent(r.0), m.returned + Members(input.back), accepted);
    MemoryStepIs(s, m, input);
    StepSafe(s, y, input.arrivals);
    StepQuiet(s, y, input.arrivals);
    var same := H.StepHazards(s, hash, y, accepted, input.arrivals);
    var y' := Step(s, y, input.arrivals).0;
    SuffixSame(now, same, y'.reqQ);
    TraceGrows(s, y, input.arrivals);
    forall n | n in m.returned + Members(input.back)
      ensures ColumnIssued(y'.d.trace, n)
    {
      if n !in m.returned { CanReturnIs(m, n); }
      IssuedStays(y.d.trace, y'.d.trace, n);
    }
  }

  // ---------------------------------------------------------------- runs

  datatype MemoryRun = MemoryRun(states: seq<Memory>, flags: seq<bool>)

  function FirstState(s: Setup): Memory
    requires s.c.Valid()
  {
    Memory(Start(s), Desk([], [], map[]), {})
  }

  ghost function Batches(inputs: seq<Input>): (r: seq<seq<Txn>>)
    ensures |r| == |inputs|
  {
    seq(|inputs|, i requires 0 <= i < |inputs| => inputs[i].arrivals)
  }

  ghost predicate CycleAt(s: Setup, inputs: seq<Input>, run: MemoryRun, n: nat)
    requires n < |inputs| && n < |run.flags| && n + 1 < |run.states|
  {
    var m := run.states[n];
    && SystemShape(s, m.core) && RequestsOk(s, m.core.queues, m.core.tracked, inputs[n].arrivals)
    && InputOkFor(m, inputs[n]) && (run.states[n + 1], run.flags[n]) == MemoryStep(s, m, inputs[n])
  }

  /** A run: in each cycle any transactions arrive, with rising numbers, and any issued column
      commands return, in any order and each once. */
  ghost predicate IsMemoryRun(s: Setup, hash: nat -> nat, inputs: seq<Input>, run: MemoryRun) {
    && s.c.Valid() && H.InputOk(s.c, hash, Batches(inputs))
    && |run.states| == |inputs| + 1 && |run.flags| == |inputs| && run.states[0] == FirstState(s)
    && forall n :: 0 <= n < |inputs| ==> CycleAt(s, inputs, run, n)
  }

  lemma FirstInv(s: Setup, hash: nat -> nat)
    requires s.c.Valid()
    ensures MemoryInv(s, hash, FirstState(s), [])
  {
    StartSafe(s);
    H.StartHazards(s, hash);
    StartQuiet(s);
    var m := FirstState(s);
    StartLines(s);
    hide Start;
    assert KeysOf([]) == [];
    forall w, ch: nat | ch < s.c.channels ensures AllQueued(LineOf(m.core.txns, w, ch), m.desk.stage) {}
  }

  lemma StartLines(s: Setup)
    requires s.c.Valid()
    ensures var y := Start(s);
      && H.Wide(s, y.txns) && y.owner == [] && y.reqQ == []
      && forall w, ch: nat :: ch < s.c.channels ==> LineOf(y.txns, w, ch) == []
  {}

  lemma StartQuiet(s: Setup)
    requires s.c.Valid()
    ensures SystemQuiet(s, Start(s))
  {}

  lemma {:induction false} MemoryRunInv(s: Setup, hash: nat -> nat, inputs: seq<Input>, run: MemoryRun, k: nat)
    returns (accepted: seq<Txn>)
    requires IsMemoryRun(s, hash, inputs, run) && k <= |inputs|
    ensures MemoryInv(s, hash, run.states[k], accepted)
    ensures accepted + run.states[k].core.reqQ == H.Flat(Batches(inputs)[..k])
    ensures 0 < k ==> run.flags[k - 1]
    decreases k
  {
    hide MemoryInv, MemoryStep, SystemShape, RequestsOk, InputOkFor;
    if k == 0 {
      accepted := [];
      FirstInv(s, hash);
      StartLines(s);
      assert Batches(inputs)[..0] == [];
    } else {
      var before := MemoryRunInv(s, hash, inputs, run, k - 1);
      assert CycleAt(s, inputs, run, k - 1);
      FlatStep(s, hash, Batches(inputs), k);
      accepted := MemoryStepKeeps(s, hash, run.states[k - 1], inputs[k - 1], before);
    }
  }

  lemma {:induction false} FlatPrefix(batches: seq<seq<Txn>>, k: nat)
    requires k <= |batches|
    ensures H.Flat(batches[..k]) <= H.Flat(batches)
    decreases |batches|
  {
    if k < |batches| {
      FlatPrefix(batches[..|batches| - 1], k);
      assert batches[..|batches| - 1][..k] == batches[..k];
    } else {
      assert batches[..k] == batches;
    }
  }

  lemma FlatStep(s: Setup, hash: nat -> nat, batches: seq<seq<Txn>>, k: nat)
    requires H.InputOk(s.c, hash, batches) && 0 < k <= |batches|
    ensures H.Flat(batches[..k]) == H.Flat(batches[..k - 1]) + batches[k - 1]
    ensures H.Rising(H.Flat(batches[..k])) && H.Hashed(hash, batches[k - 1])
  {
    assert batches[..k][..k - 1] == batches[..k - 1];
    FlatPrefix(batches, k);
    var f, g := H.Flat(batches[..k]), H.Flat(batches);
    assert forall i :: 0 <= i < |f| ==> f[i] == g[i];
  }

  // ---------------------------------------------------------------- what runs guarantee

  /** The column command of `t` was issued and has returned. */
  ghost predicate Served(m: Memory, t: Txn) {
    exists n ::
      && n in m.returned && n < |m.core.owner| && m.core.owner[n].txn == t && IsColumn(m.core.owner[n].kind)
      && ColumnIssued(m.core.d.trace, n)
  }

  /** No search by command number ever fails, and no other assertion either. */
  lemma NoSearchFails(s: Setup, hash: nat -> nat, inputs: seq<Input>, run: MemoryRun, k: nat)
    requires IsMemoryRun(s, hash, inputs, run) && k < |inputs|
    ensures run.flags[k]
  {
    hide *;
    RunLengths(s, hash, inputs, run);
    var accepted := MemoryRunInv(s, hash, inputs, run, k + 1);
  }

  lemma RunLengths(s: Setup, hash: nat -> nat, inputs: seq<Input>, run: MemoryRun)
    requires IsMemoryRun(s, hash, inputs, run)
    ensures |run.states| == |inputs| + 1 && |run.flags| == |inputs|
  {}

  /** Without its responses, the controller takes the steps of a run. */
  ghost function CoreRun(run: MemoryRun): (r: U.Run)
    ensures |r.states| == |run.states| && r.flags == run.flags
    ensures forall n :: 0 <= n < |run.states| ==> r.states[n] == run.states[n].core
  {
    U.Run(seq(|run.states|, n requires 0 <= n < |run.states| => run.states[n].core), run.flags)
  }

  lemma CoreCycle(s: Setup, m: Memory, input: Input)
    requires SystemShape(s, m.core) && RequestsOk(s, m.core.queues, m.core.tracked, input.arrivals)
    requires MemoryStep(s, m, input).1
    ensures U.Cycle(s, m.core, input.arrivals, MemoryStep(s, m, input).0.core, true)
  {
    hide Step, ReturnedAll, ArrivedAll, TakenAll, Sent, AcceptLog, Recorded, SystemShape, RequestsOk;
  }

  /** So every theorem about runs holds of the controller with its responses. */
  lemma CoreIsRun(s: Setup, hash: nat -> nat, inputs: seq<Input>, run: MemoryRun)
    requires IsMemoryRun(s, hash, inputs, run)
    ensures U.IsRun(s, Batches(inputs), CoreRun(run))
  {
    hide MemoryStep, SystemShape, RequestsOk, Start, U.Cycle, InputOkFor;
    forall n | 0 <= n < |inputs|
      ensures U.CycleAt(s, Batches(inputs), CoreRun(run), n)
    {
      assert CycleAt(s, inputs, run, n);
      NoSearchFails(s, hash, inputs, run, n);
      CoreCycle(s, run.states[n], inputs[n]);
    }
  }

  /** In every state, no transaction has been answered twice and none still waiting to be taken is
      answered; without quick response one that has been answered was served before; with it, an
      unserved one is a read that hit a queued write, or a write handed to the memory. */
  ghost predicate AnsweredRight(s: Setup, m: Memory, t: Txn) {
    && multiset(m.desk.sent)[t] <= 1
    && (t in m.desk.sent ==> t !in m.core.reqQ && (Served(m, t) || (s.quick && AnsweredEarly(m, t))))
  }

  ghost predicate AnsweredEarly(m: Memory, t: Txn) {
    t in m.desk.stage && m.desk.stage[t] == if t.isRead then R.Hit else R.Queued
  }

  lemma AnsweredAtMostOnce(s: Setup, hash: nat -> nat, inputs: seq<Input>, run: MemoryRun, k: nat, t: Txn)
    requires IsMemoryRun(s, hash, inputs, run) && k < |run.states|
    ensures AnsweredRight(s, run.states[k], t)
  {
    hide CycleAt, H.InputOk, H.Flat, SystemInv, SystemQuiet, H.SystemHazards;
    var accepted := MemoryRunInv(s, hash, inputs, run, k);
    InvAnswers(s, hash, run.states[k], accepted, t);
  }

  lemma InvAnswers(s: Setup, hash: nat -> nat, m: Memory, accepted: seq<Txn>, t: Txn)
    requires MemoryInv(s, hash, m, accepted)
    ensures AnsweredRight(s, m, t)
  {
    hide SystemInv, SystemQuiet, H.SystemHazards, LinesQueued, EntriesOk;
    CountOnce(m.desk.sent, t);
    if t in m.desk.sent {
      assert t in m.desk.stage;
      assert R.TxnOk(BookOf(s.quick, m.desk), t);
      if m.desk.stage[t] == R.Completed {
        var n :| n in m.returned && n < |m.core.owner| && m.core.owner[n].txn == t;
        assert ColumnIssued(m.core.d.trace, n);
      }
    }
  }

  /** Every issued column command that has not returned is found by its number: the search stops
      at the entry of the transaction the number was given to, which waits for one command. */
  lemma SearchIsExact(s: Setup, hash: nat -> nat, inputs: seq<Input>, run: MemoryRun, k: nat, n: nat)
    requires IsMemoryRun(s, hash, inputs, run) && k < |run.states| && CanReturn(run.states[k], n)
    ensures var m := run.states[k];
      var i := Find(m.desk.resQ, n);
      && i < |m.desk.resQ| && n < |m.core.owner|
      && m.desk.resQ[i].txn == m.core.owner[n].txn && !m.desk.resQ[i].copy && !m.desk.resQ[i].ready
      && m.desk.resQ[i].waiting == 1
  {
    hide CycleAt, H.InputOk, H.Flat, SystemInv, SystemQuiet, H.SystemHazards, LinesQueued, EntriesOk, Find, DeskInv,
      OwnersOk, ColumnIssued;
    var accepted := MemoryRunInv(s, hash, inputs, run, k);
    var m := run.states[k];
    CanReturnIs(m, n);
    IssuedIsOwned(s, m.core, n);
    HazardsDepart(s, hash, m.core, accepted);
    UnreturnedIsQueued(m.core.owner, m.desk.stage, m.returned, n);
    SearchFindsItsEntry(s.quick, m.desk, m.core.owner, n);
  }

  /** Every transaction whose column command has returned is answered, exactly once, by the end of
      the cycle; a write answered early by its copy is never answered again. */
  lemma ReturnedIsAnswered(s: Setup, hash: nat -> nat, inputs: seq<Input>, run: MemoryRun, k: nat, n: nat)
    requires IsMemoryRun(s, hash, inputs, run) && k < |run.states| && n in run.states[k].returned
    ensures n < |run.states[k].core.owner| && multiset(run.states[k].desk.sent)[run.states[k].core.owner[n].txn] == 1
  {
    hide CycleAt, H.InputOk, H.Flat, SystemInv, SystemQuiet, H.SystemHazards, LinesQueued, EntriesOk;
    var accepted := MemoryRunInv(s, hash, inputs, run, k);
    CountOnce(run.states[k].desk.sent, run.states[k].core.owner[n].txn);
  }
}
