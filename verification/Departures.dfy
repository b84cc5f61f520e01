/** No transaction is lost: one that has been taken is a quick hit, stands in a queue of the
    scheduler, or has its column command, which the bank has received or which waits. */
module Departures {
  import opened Dram
  import opened DriverModel
  import opened DriverSafety
  import opened ControllerModel
  import opened ControllerSafety
  import opened Quiet
  import opened Openings
  import opened Conservation
  import opened Service
  import opened ServiceSafety
  import opened ServiceRuns
  import opened QuickHits
  import H = Hazards
  import P = ProgressRuns
  import U = Runs

  // ---------------------------------------------------------------- queues

  lemma InLine(q: TxnQueues, w: Line, ch: nat, t: Txn)
    requires ch < |q.allQ| && ch < |q.readQ| && ch < |q.writeQ| && t in LineOf(q, w, ch)
    ensures InScheduler(q, t)
  {}

  /** Pushing one keeps the others. */
  lemma PushHolds(s: Setup, q: TxnQueues, u: Txn, t: Txn)
    requires H.Wide(s, q) && s.c.ChannelOf(u.bank) < s.c.channels && PushTxn(s, q, u).1
    requires InScheduler(q, t) || t == u
    ensures H.Wide(s, PushTxn(s, q, u).0) && InScheduler(PushTxn(s, q, u).0, t)
  {
    var q' := PushTxn(s, q, u).0;
    var mine := if !s.readFirst then AllLine else if u.isRead then ReadLine else WriteLine;
    var here := s.c.ChannelOf(u.bank);
    forall w, ch: nat | ch < s.c.channels
      ensures LineOf(q', w, ch) == LineOf(q, w, ch) + (if w == mine && ch == here then [u] else [])
    {}
    hide PushTxn;
    if InScheduler(q, t) {
      var w, ch: nat :| ch < |q.allQ| && ch < |q.readQ| && ch < |q.writeQ| && t in LineOf(q, w, ch);
      InLine(q', w, ch, t);
    } else {
      InLine(q', mine, here, t);
    }
  }

  /** Taking requests queues those that are no hits. */
  lemma {:induction false} AcceptHolds(s: Setup, q: TxnQueues, reqs: seq<Txn>, t: Txn)
    requires H.Wide(s, q) && forall j :: 0 <= j < |reqs| ==> s.c.ChannelOf(reqs[j].bank) < s.c.channels
    ensures H.Wide(s, Accept(s, q, reqs).0)
    ensures InScheduler(q, t) || Taken(t, false) in AcceptLog(s, q, reqs) ==> InScheduler(Accept(s, q, reqs).0, t)
    decreases |reqs|
  {
    hide PushTxn, InScheduler, HitsQueue;
    if reqs != [] {
      if QuickHit(s, q, reqs[0]) {
        AcceptHolds(s, q, reqs[1..], t);
      } else if PushTxn(s, q, reqs[0]).1 {
        PushHolds(s, q, reqs[0], reqs[0]);
        if InScheduler(q, t) { PushHolds(s, q, reqs[0], t); }
        AcceptHolds(s, PushTxn(s, q, reqs[0]).0, reqs[1..], t);
      }
    }
  }

  /** Who leaves a queue has been picked. */
  lemma TakeHolds(s: Setup, q: TxnQueues, w: Line, ch: nat, i: nat, t: Txn)
    requires H.Wide(s, q) && ch < s.c.channels && i < |LineOf(q, w, ch)| && InScheduler(q, t)
    ensures InScheduler(WithLine(q, w, ch, Without(LineOf(q, w, ch), i)), t) || t == LineOf(q, w, ch)[i]
  {
    var own := LineOf(q, w, ch);
    var q' := WithLine(q, w, ch, Without(own, i));
    var w', ch': nat :| ch' < |q.allQ| && ch' < |q.readQ| && ch' < |q.writeQ| && t in LineOf(q, w', ch');
    H.LineChanged(q, w, ch, Without(own, i), w', ch');
    hide WithLine;
    if w' == w && ch' == ch && t != own[i] {
      var j :| 0 <= j < |own| && own[j] == t;
      assert Without(own, i)[if j < i then j else j - 1] == t;
      InLine(q', w, ch, t);
    } else if t != own[i] {
      InLine(q', w', ch', t);
    }
  }

  lemma FlushHolds(s: Setup, q: TxnQueues, ch: nat, t: Txn)
    requires H.Wide(s, q) && ch < s.c.channels && InScheduler(q, t)
    ensures InScheduler(Flushed(s, q, ch), t)
  {
    var w, at: nat :| at < |q.allQ| && at < |q.readQ| && at < |q.writeQ| && t in LineOf(q, w, at);
    InLine(Flushed(s, q, ch), w, at, t);
  }

  lemma PickHolds(s: Setup, queues: seq<seq<Command>>, tracked: seq<Tracked>, q: TxnQueues, ch: nat, t: Txn)
    requires QueuesOk(s, queues, tracked, q) && ch < s.c.channels && InScheduler(q, t)
    ensures var r := PickChannel(s, queues, tracked, q, ch); InScheduler(r.q, t) || t in r.picks
  {
    hide InScheduler, WithLine, Without;
    FlushHolds(s, q, ch, t);
    var q1 := Flushed(s, q, ch);
    match Selection(s, queues, tracked, q1, ch)
    case Some((w, i)) => TakeHolds(s, q1, w, ch, i, t);
    case None =>
  }

  lemma {:induction false} PicksHold(s: Setup, queues: seq<seq<Command>>, tracked: seq<Tracked>, q: TxnQueues, ch: nat,
                                     t: Txn)
    requires QueuesOk(s, queues, tracked, q) && ch <= s.c.channels && InScheduler(q, t)
    ensures var r := PickFrom(s, queues, tracked, q, ch); InScheduler(r.q, t) || t in r.picks
    decreases s.c.channels - ch
  {
    hide InScheduler, PickChannel, QueuesOk;
    if ch < s.c.channels {
      PickHolds(s, queues, tracked, q, ch, t);
      PickChannelOk(s, queues, tracked, q, ch);
      var here := PickChannel(s, queues, tracked, q, ch);
      if InScheduler(here.q, t) { PicksHold(s, queues, tracked, here.q, ch + 1, t); }
    }
  }

  // ---------------------------------------------------------------- commands

  /** A column command has been made for `t`. */
  ghost predicate HasColumn(owner: seq<Made>, t: Txn) {
    exists n :: 0 <= n < |owner| && owner[n].txn == t && IsColumn(owner[n].kind)
  }

  lemma MadeHasColumn(policy: Policy, tracked: Tracked, txn: Txn, owner: seq<Made>)
    ensures HasColumn(owner + AllMade(txn, KindsFor(policy, tracked, txn)), txn)
  {
    var pre, post := PreKinds(policy, tracked, txn), PostKinds(policy, tracked, txn);
    var kinds := KindsFor(policy, tracked, txn);
    assert kinds[|pre|] == post[0] && IsColumn(post[0]);
    assert (owner + AllMade(txn, kinds))[|owner| + |pre|] == Made(txn, post[0]);
  }

  lemma HasColumnGrows(owner: seq<Made>, owner': seq<Made>, t: Txn)
    requires owner <= owner' && HasColumn(owner, t)
    ensures HasColumn(owner', t)
  {
    var n :| 0 <= n < |owner| && owner[n].txn == t && IsColumn(owner[n].kind);
    assert owner'[n] == owner[n];
  }

  /** Every picked transaction gets its column command. */
  lemma {:induction false} ConvertHolds(s: Setup, d: Driver, v: Converted, picks: seq<Txn>, t: Txn)
    requires ConverterInv(s, d, v) && Affordable(s, v.queues, picks) && (t in picks || HasColumn(v.owner, t))
    requires forall i :: 0 <= i < |picks| ==> picks[i].bank < |v.queues| && picks[i].bank < |v.tracked|
    ensures HasColumn(ConvertAll(s, v, picks).owner, t)
    decreases |picks|
  {
    hide ConvertOne, ConverterInv, Affordable, Token, HasColumn, KindsFor, AllMade;
    if picks != [] {
      FirstAffordable(s, d, v, picks);
      ConvertOneSafe(s, d, v, picks[0]);
      ConvertedOwner(s, v, picks[0]);
      var v' := ConvertOne(s, v, picks[0]);
      if t == picks[0] { MadeHasColumn(s.policy, v.tracked[t.bank], t, v.owner); }
      if HasColumn(v.owner, t) { HasColumnGrows(v.owner, v'.owner, t); }
      ConvertHolds(s, d, v', picks[1..], t);
    }
  }

  // ---------------------------------------------------------------- one cycle

  /** The transaction is in the scheduler or has its column command. */
  ghost predicate InHand(y: System, t: Txn) { InScheduler(y.txns, t) || HasColumn(y.owner, t) }

  lemma CycleHolds(s: Setup, y: System, arrivals: seq<Txn>, t: Txn)
    requires SystemInv(s, y) && RequestsOk(s, y.queues, y.tracked, arrivals) && SystemShape(s, y)
    requires |y.txns.allQ| == |y.txns.readQ| == |y.txns.writeQ| == s.c.channels
    requires forall j :: 0 <= j < |y.reqQ + arrivals| ==> s.c.ChannelOf((y.reqQ + arrivals)[j].bank) < s.c.channels
    requires InHand(y, t) || Taken(t, false) in AcceptLog(s, y.txns, y.reqQ + arrivals)
    ensures InHand(Step(s, y, arrivals).0, t)
  {
    hide Step, SystemShape, RequestsOk, Accept, AcceptLog, PickFrom, ConvertAll, InScheduler, HasColumn, QueuesOk,
      ConverterInv, Affordable, Update, Shape;
    StepParts(s, y, arrivals);
    AcceptOk(s, y.queues, y.tracked, y.txns, y.reqQ + arrivals);
    AcceptHolds(s, y.txns, y.reqQ + arrivals, t);
    var q := Accept(s, y.txns, y.reqQ + arrivals).0;
    var picked := PickFrom(s, y.queues, y.tracked, q, 0);
    if InScheduler(q, t) { PicksHold(s, y.queues, y.tracked, q, 0, t); }
    PicksAffordable(s, y.queues, y.tracked, q, 0);
    FreshConverter(s, y);
    var v0 := Converted(y.queues, y.tracked, y.owner, true);
    if t in picked.picks || HasColumn(y.owner, t) { ConvertHolds(s, Update(s.c, y.d), v0, picked.picks, t); }
    StepResults(s, y, arrivals, q, ConvertAll(s, v0, picked.picks), picked);
  }

  // ---------------------------------------------------------------- runs

  /** The requests of a cycle and what the log says of them. */
  lemma LogOfCycle(s: Setup, hash: nat -> nat, m: Memory, input: Input, accepted: seq<Txn>)
    requires MemoryInv(s, hash, m, accepted) && H.Hashed(hash, input.arrivals)
    requires SystemShape(s, m.core) && RequestsOk(s, m.core.queues, m.core.tracked, input.arrivals)
    ensures SystemInv(s, m.core) && H.Wide(s, m.core.txns)
    ensures forall j :: 0 <= j < |Requests(m, input)| ==> s.c.ChannelOf(Requests(m, input)[j].bank) < s.c.channels
    ensures var log, reqs := AcceptLog(s, m.core.txns, Requests(m, input)), Requests(m, input);
      && LogIs(s, m.core.txns, reqs, log) && MemoryStep(s, m, input).0.core == Step(s, m.core, input.arrivals).0
      && |MemoryStep(s, m, input).0.core.reqQ| == |reqs| - |log|
  {
    hide Step, SystemInv, SystemShape, RequestsOk, H.SystemHazards, Agree, AcceptLog, Accept, WriteAhead, MemoryStep,
      Placed;
    CoreParts(s, m.core, input.arrivals);
    StagesOf(s, m, input);
    HazardsPlace(s, hash, m.core, accepted);
    BothHashed(hash, m.core.reqQ, input.arrivals);
    LogExact(s, hash, m.core.txns, Requests(m, input));
  }

  lemma InLog(s: Setup, q: TxnQueues, reqs: seq<Txn>, log: seq<Taken>, i: nat)
    requires LogIs(s, q, reqs, log) && i < |log| && !(s.quick && reqs[i].isRead && WriteAhead(q, reqs, i))
    ensures Taken(reqs[i], false) in log
  {
    assert log[i] == Taken(reqs[i], false);
  }

  /** A request that has been taken and is no hit is in hand in every later state. */
  lemma {:induction false} TakenIsInHand(s: Setup, hash: nat -> nat, inputs: seq<Input>, run: MemoryRun, j: nat, i: nat,
                                         k: nat)
    requires IsMemoryRun(s, hash, inputs, run) && IsTaken(inputs, run, j, i) && j < k < |run.states|
    requires var t := RequestsAt(inputs, run, j)[i]; !(s.quick && t.isRead && BehindWrite(inputs, run, j, i))
    ensures InHand(run.states[k].core, RequestsAt(inputs, run, j)[i])
    decreases k
  {
    hide MemoryInv, MemoryStep, SystemShape, RequestsOk, InputOkFor, H.Flat, H.Hashed, H.Rising, CycleAt,
      H.InputOk, InHand, AcceptLog, LogIs, Step, SystemInv, WriteAhead;
    var n := k - 1;
    var m, input, t := run.states[n], inputs[n], RequestsAt(inputs, run, j)[i];
    var accepted := CycleOk(s, hash, inputs, run, n);
    LogOfCycle(s, hash, m, input, accepted);
    if n == j {
      InLog(s, m.core.txns, Requests(m, input), AcceptLog(s, m.core.txns, Requests(m, input)), i);
    } else {
      TakenIsInHand(s, hash, inputs, run, j, i, n);
    }
    CycleHolds(s, m.core, input.arrivals, t);
  }

  lemma {:induction false} OwnedHas(owner: seq<Made>, n: nat)
    requires n < |owner| && owner[n].kind != PRE
    ensures n in Owned(owner, owner[n].txn.bank)
    decreases |owner|
  {
    if n < |owner| - 1 { OwnedHas(owner[..|owner| - 1], n); }
  }

  /** The column command of `t` has been received by its bank, or waits for it. */
  ghost predicate ColumnKept(y: System, t: Txn) {
    t.bank < |y.queues| && exists n ::
      && 0 <= n < |y.owner| && y.owner[n].txn == t && IsColumn(y.owner[n].kind)
      && (n in Received(y.d.trace, t.bank) || n in Nums(Stream(y.d.inputQ, SystemBacklog(y), t.bank)))
  }

  lemma KeptFromOwned(y: System, t: Txn)
    requires HasColumn(y.owner, t) && Conserved(y.d.trace, y.d.inputQ, SystemBacklog(y), t.bank)
    ensures ColumnKept(y, t)
  {
    hide Received, Nums, Owned;
    var n :| 0 <= n < |y.owner| && y.owner[n].txn == t && IsColumn(y.owner[n].kind);
    OwnedHas(y.owner, n);
    assert n in Received(y.d.trace, t.bank) + Nums(Stream(y.d.inputQ, SystemBacklog(y), t.bank));
  }

  /** No transaction is lost: in every later state, one that has been taken is a quick hit, or stands
      in a queue of the scheduler, or has a column command that its bank has received or that
      waits. */
  lemma NoTransactionIsLost(s: Setup, hash: nat -> nat, inputs: seq<Input>, run: MemoryRun, j: nat, i: nat, k: nat)
    requires IsMemoryRun(s, hash, inputs, run) && IsTaken(inputs, run, j, i) && j < k < |run.states|
    ensures var y, t := run.states[k].core, RequestsAt(inputs, run, j)[i];
      (s.quick && t.isRead && BehindWrite(inputs, run, j, i)) || InScheduler(y.txns, t) || ColumnKept(y, t)
  {
    hide IsMemoryRun, IsTaken, BehindWrite, InScheduler, HasColumn, ColumnKept, U.IsRun, Conserved;
    RunLengths(s, hash, inputs, run);
    var t := TakenRequest(inputs, run, j, i);
    if !(s.quick && t.isRead && BehindWrite(inputs, run, j, i)) {
      TakenIsInHand(s, hash, inputs, run, j, i, k);
      if HasColumn(run.states[k].core.owner, t) {
        BankOfRequest(s, hash, inputs, run, j, i);
        CoreIsRun(s, hash, inputs, run);
        P.NothingIsLost(s, Batches(inputs), CoreRun(run), k, t.bank);
        KeptFromOwned(run.states[k].core, t);
      }
    }
  }

  lemma TakenRequest(inputs: seq<Input>, run: MemoryRun, j: nat, i: nat) returns (t: Txn)
    requires IsTaken(inputs, run, j, i)
    ensures j < |inputs| && j + 1 < |run.states| && i < |RequestsAt(inputs, run, j)|
    ensures t == RequestsAt(inputs, run, j)[i]
  {
    t := RequestsAt(inputs, run, j)[i];
  }

  lemma BankOfRequest(s: Setup, hash: nat -> nat, inputs: seq<Input>, run: MemoryRun, j: nat, i: nat)
    requires IsMemoryRun(s, hash, inputs, run) && IsTaken(inputs, run, j, i)
    ensures RequestsAt(inputs, run, j)[i].bank < s.c.Banks()
  {
    hide MemoryInv, MemoryStep, InputOkFor, H.Flat, H.Hashed, H.Rising, CycleAt, H.InputOk;
    var accepted := CycleOk(s, hash, inputs, run, j);
  }
}
