/** Reads answered by queued writes: with quick response a read is answered before the memory has
    served it exactly when a write to its address is ahead of it in the scheduler. */
module QuickHits {
  import opened Sequences
  import opened Dram
  import opened ControllerModel
  import opened ControllerSafety
  import opened Service
  import opened ServiceSafety
  import opened ServiceRuns
  import H = Hazards
  import R = Responses

  // ---------------------------------------------------------------- writes ahead

  predicate WritesSame(w: Txn, addr: nat) { !w.isRead && w.addr == addr }

  /** Some queue of the scheduler, of any channel, holds `t`. */
  ghost predicate InScheduler(q: TxnQueues, t: Txn) {
    exists w, ch: nat :: ch < |q.allQ| && ch < |q.readQ| && ch < |q.writeQ| && t in LineOf(q, w, ch)
  }

  ghost predicate WriteQueued(q: TxnQueues, addr: nat) { exists w :: InScheduler(q, w) && WritesSame(w, addr) }

  ghost predicate WriteAmong(reqs: seq<Txn>, addr: nat) { exists w :: w in reqs && WritesSame(w, addr) }

  /** When request `i` is taken, a write to its address is in the scheduler: it was queued before, or
      has been taken just before. */
  ghost predicate WriteAhead(q: TxnQueues, reqs: seq<Txn>, i: nat)
    requires i < |reqs|
  {
    WriteQueued(q, reqs[i].addr) || WriteAmong(reqs[..i], reqs[i].addr)
  }

  /** The queues hold transactions where their kind and address say. */
  ghost predicate Placed(s: Setup, hash: nat -> nat, q: TxnQueues) {
    H.Wide(s, q) && forall w, ch: nat :: ch < s.c.channels ==> LinePlaced(s, hash, LineOf(q, w, ch), w, ch)
  }

  ghost predicate LinePlaced(s: Setup, hash: nat -> nat, line: seq<Txn>, w: Line, ch: nat) {
    forall i :: 0 <= i < |line| ==> H.Fits(s, hash, w, ch, line[i])
  }

  /** The scan of one queue misses no write of the scheduler. */
  lemma HitMeans(s: Setup, hash: nat -> nat, q: TxnQueues, t: Txn)
    requires Placed(s, hash, q) && t.bank == hash(t.addr) && s.c.ChannelOf(t.bank) < s.c.channels
    ensures HitsQueue(s, q, t) <==> t.isRead && WriteQueued(q, t.addr)
  {
    var ch := s.c.ChannelOf(t.bank);
    var mine := if !s.readFirst then AllLine else WriteLine;
    if WriteQueued(q, t.addr) {
      var w :| InScheduler(q, w) && WritesSame(w, t.addr);
      var line, at: nat :| at < |q.allQ| && w in LineOf(q, line, at);
      assert LinePlaced(s, hash, LineOf(q, line, at), line, at);
      assert H.Fits(s, hash, line, at, w);
      assert line == mine && at == ch;
    }
    if HitsQueue(s, q, t) {
      var own := LineOf(q, mine, ch);
      var i :| 0 <= i < |own| && !own[i].isRead && own[i].addr == t.addr;
      assert own[i] in LineOf(q, mine, ch);
      assert InScheduler(q, own[i]);
    }
  }

  /** A taken request is queued in its place. */
  lemma PushPlaces(s: Setup, hash: nat -> nat, q: TxnQueues, t: Txn, addr: nat)
    requires Placed(s, hash, q) && t.bank == hash(t.addr) && s.c.ChannelOf(t.bank) < s.c.channels && PushTxn(s, q, t).1
    ensures Placed(s, hash, PushTxn(s, q, t).0) && H.Wide(s, PushTxn(s, q, t).0)
    ensures WriteQueued(PushTxn(s, q, t).0, addr) <==> WriteQueued(q, addr) || WritesSame(t, addr)
  {
    var q' := PushTxn(s, q, t).0;
    var mine := if !s.readFirst then AllLine else if t.isRead then ReadLine else WriteLine;
    var here := s.c.ChannelOf(t.bank);
    forall w, ch: nat | ch < s.c.channels
      ensures LineOf(q', w, ch) == LineOf(q, w, ch) + (if w == mine && ch == here then [t] else [])
      ensures LinePlaced(s, hash, LineOf(q', w, ch), w, ch)
    {
      assert LinePlaced(s, hash, LineOf(q, w, ch), w, ch);
    }
    hide PushTxn, LinePlaced;
    assert t in LineOf(q', mine, here);
    assert forall x :: InScheduler(q', x) <==> InScheduler(q, x) || x == t;
  }

  /** The log: the first requests, each a hit exactly when it is a read with a write ahead. */
  ghost predicate LogIs(s: Setup, q: TxnQueues, reqs: seq<Txn>, log: seq<Taken>) {
    && |log| <= |reqs|
    && forall i :: 0 <= i < |log| ==>
      log[i].txn == reqs[i] && (log[i].hit <==> s.quick && reqs[i].isRead && WriteAhead(q, reqs, i))
  }

  lemma LogFirst(s: Setup, q: TxnQueues, q': TxnQueues, reqs: seq<Txn>, hit: bool, rest: seq<Taken>)
    requires reqs != [] && LogIs(s, q', reqs[1..], rest)
    requires hit <==> s.quick && reqs[0].isRead && WriteQueued(q, reqs[0].addr)
    requires forall addr :: WriteQueued(q', addr) <==> WriteQueued(q, addr) || WritesSame(reqs[0], addr)
    ensures LogIs(s, q, reqs, [Taken(reqs[0], hit)] + rest)
    ensures |rest| < |reqs| && reqs[1..][|rest|..] == reqs[|rest| + 1..]
  {
    var log := [Taken(reqs[0], hit)] + rest;
    hide WriteQueued, WritesSame;
    forall i | 0 <= i < |log|
      ensures log[i].txn == reqs[i] && (log[i].hit <==> s.quick && reqs[i].isRead && WriteAhead(q, reqs, i))
    {
      if i == 0 {
        assert reqs[..0] == [];
      } else {
        assert log[i] == rest[i - 1] && reqs[i] == reqs[1..][i - 1];
        assert reqs[..i] == [reqs[0]] + reqs[1..][..i - 1];
        MoreWrites(reqs[0], reqs[1..][..i - 1], reqs[i].addr);
      }
    }
  }

  lemma MoreWrites(t: Txn, reqs: seq<Txn>, addr: nat)
    ensures WriteAmong([t] + reqs, addr) <==> WritesSame(t, addr) || WriteAmong(reqs, addr)
  {
    assert forall w :: w in [t] + reqs <==> w == t || w in reqs;
  }

  /** Taking requests from a scheduler in order. */
  lemma {:induction false} LogExact(s: Setup, hash: nat -> nat, q: TxnQueues, reqs: seq<Txn>)
    requires H.Wide(s, q) && Placed(s, hash, q) && H.Hashed(hash, reqs)
    requires forall j :: 0 <= j < |reqs| ==> s.c.ChannelOf(reqs[j].bank) < s.c.channels
    ensures var log := AcceptLog(s, q, reqs);
      LogIs(s, q, reqs, log) && Accept(s, q, reqs).1 == reqs[|log|..]
    decreases |reqs|
  {
    hide Placed, HitsQueue, PushTxn, WriteQueued, WriteAmong, LogIs;
    if reqs == [] {
      NoLog(s, q);
    } else {
      var t, rest := reqs[0], reqs[1..];
      HitMeans(s, hash, q, t);
      if QuickHit(s, q, t) {
        LogExact(s, hash, q, rest);
        LogFirst(s, q, q, reqs, true, AcceptLog(s, q, rest));
      } else if PushTxn(s, q, t).1 {
        var q' := PushTxn(s, q, t).0;
        PushPlaces(s, hash, q, t, t.addr);
        forall addr: nat
          ensures WriteQueued(q', addr) <==> WriteQueued(q, addr) || WritesSame(t, addr)
        {
          PushPlaces(s, hash, q, t, addr);
        }
        LogExact(s, hash, q', rest);
        LogFirst(s, q, q', reqs, false, AcceptLog(s, q', rest));
      } else {
        NoLog(s, q);
        assert AcceptLog(s, q, reqs) == [] && LogIs(s, q, reqs, []);
      }
    }
  }

  lemma NoLog(s: Setup, q: TxnQueues)
    ensures forall reqs :: LogIs(s, q, reqs, [])
  {}

  // ---------------------------------------------------------------- stages

  ghost predicate IsHit(d: Desk, t: Txn) { t in d.stage && d.stage[t] == R.Hit }

  lemma {:induction false} ArrivedStage(d: Desk, ts: seq<Txn>, t: Txn)
    ensures IsHit(ArrivedAll(d, ts), t) ==> IsHit(d, t)
    ensures IsHit(d, t) && t !in ts ==> IsHit(ArrivedAll(d, ts), t)
    decreases |ts|
  {
    if ts != [] { ArrivedStage(Arrived(d, ts[0]), ts[1..], t); }
  }

  /** A return completes a transaction or leaves its stage. */
  lemma {:induction false} ReturnedStage(quick: bool, d: Desk, ns: seq<nat>, t: Txn)
    ensures var d' := ReturnedAll(quick, d, ns).0;
      && (IsHit(d', t) ==> IsHit(d, t))
      && (IsHit(d, t) ==> t in d'.stage && (IsHit(d', t) || d'.stage[t] == R.Completed))
      && (t in d.stage && d.stage[t] == R.Completed ==> t in d'.stage && d'.stage[t] == R.Completed)
    decreases |ns|
  {
    if ns != [] {
      hide Find;
      ReturnedStage(quick, Returned(quick, d, ns[0]).0, ns[1..], t);
    }
  }

  /** Taking requests makes hits of those logged as hits, and of no others. */
  lemma {:induction false} TakenStage(quick: bool, d: Desk, log: seq<Taken>, t: Txn)
    requires forall i, j :: 0 <= i < j < |log| ==> log[i].txn != log[j].txn
    ensures var d' := TakenAll(quick, d, log);
      && (IsHit(d', t) ==> IsHit(d, t) || Taken(t, true) in log)
      && (Taken(t, true) !in log && Taken(t, false) !in log && IsHit(d, t) ==> IsHit(d', t))
      && (Taken(t, true) in log && t in d.stage && d.stage[t] == R.Waiting ==>
            t in d'.stage && (IsHit(d', t) || d'.stage[t] == R.Waiting))
    decreases |log|
  {
    hide IndexOf;
    if log != [] {
      var d1 := TakenOne(quick, d, log[0]);
      assert forall i :: 0 <= i < |log[1..]| ==> log[1..][i] == log[i + 1];
      TakenStage(quick, d1, log[1..], t);
      assert forall x :: x in log <==> x == log[0] || x in log[1..];
      if log[0].txn == t {
        LaterIsOther(log);
        OtherStage(quick, d1, log[1..], t);
      }
    }
  }

  lemma LaterIsOther(log: seq<Taken>)
    requires log != [] && forall i, j :: 0 <= i < j < |log| ==> log[i].txn != log[j].txn
    ensures forall x :: x in log[1..] ==> x.txn != log[0].txn
  {}

  lemma {:induction false} OtherStage(quick: bool, d: Desk, log: seq<Taken>, t: Txn)
    requires forall x :: x in log ==> x.txn != t
    ensures var d' := TakenAll(quick, d, log);
      (t in d'.stage <==> t in d.stage) && (t in d.stage ==> d'.stage[t] == d.stage[t])
    decreases |log|
  {
    hide IndexOf;
    if log != [] {
      assert log[0] in log && forall x :: x in log[1..] ==> x in log;
      OtherStage(quick, TakenOne(quick, d, log[0]), log[1..], t);
    }
  }

  // ---------------------------------------------------------------- one cycle

  lemma HazardsPlace(s: Setup, hash: nat -> nat, y: System, accepted: seq<Txn>)
    requires H.SystemHazards(s, hash, y, accepted)
    ensures H.Wide(s, y.txns) && Placed(s, hash, y.txns) && H.Rising(accepted + y.reqQ) && H.Hashed(hash, y.reqQ)
    ensures forall w :: InScheduler(y.txns, w) ==> w in accepted
  {
    hide H.Behind;
    forall w, ch: nat | ch < s.c.channels
      ensures LinePlaced(s, hash, LineOf(y.txns, w, ch), w, ch)
      ensures forall x :: x in LineOf(y.txns, w, ch) ==> x in accepted
    {
      assert H.LineOk(s, hash, accepted, LineOf(y.txns, w, ch), w, ch);
    }
  }

  /** The requests a cycle may take. */
  ghost function Requests(m: Memory, input: Input): seq<Txn> { m.core.reqQ + input.arrivals }

  /** Request `i` is taken in the cycle from `m` to `m'`, and is a read that finds a write ahead. */
  ghost predicate HitsIn(s: Setup, m: Memory, input: Input, m': Memory, i: nat) {
    var reqs := Requests(m, input);
    i + |m'.core.reqQ| < |reqs| && s.quick && reqs[i].isRead && WriteAhead(m.core.txns, reqs, i)
  }

  /** Transaction `t` is a hit after the cycle if it was one before, or hits in it. */
  ghost predicate HitNow(s: Setup, m: Memory, input: Input, m': Memory, t: Txn) {
    IsHit(m.desk, t) || exists i: nat :: HitsIn(s, m, input, m', i) && Requests(m, input)[i] == t
  }

  lemma CoreParts(s: Setup, y: System, arrivals: seq<Txn>)
    requires SystemInv(s, y) && RequestsOk(s, y.queues, y.tracked, arrivals)
    ensures SystemShape(s, y) && |y.txns.allQ| == |y.txns.readQ| == |y.txns.writeQ| == s.c.channels
    ensures forall j :: 0 <= j < |y.reqQ + arrivals| ==> s.c.ChannelOf((y.reqQ + arrivals)[j].bank) < s.c.channels
    ensures Step(s, y, arrivals).0.reqQ == Accept(s, y.txns, y.reqQ + arrivals).1
    ensures y.owner <= Step(s, y, arrivals).0.owner
  {
    hide Step, Accept, PickFrom, ConvertAll;
    StepParts(s, y, arrivals);
    AcceptOk(s, y.queues, y.tracked, y.txns, y.reqQ + arrivals);
    var q := Accept(s, y.txns, y.reqQ + arrivals).0;
    var picked := PickFrom(s, y.queues, y.tracked, q, 0);
    StepOwner(s, y, arrivals);
    StepResults(s, y, arrivals, q, ConvertAll(s, Converted(y.queues, y.tracked, y.owner, true), picked.picks), picked);
  }

  /** The log names what leaves the request queue. */
  lemma LogHits(s: Setup, m: Memory, input: Input, m': Memory, log: seq<Taken>, t: Txn)
    requires var reqs := Requests(m, input); LogIs(s, m.core.txns, reqs, log) && m'.core.reqQ == reqs[|log|..]
    requires H.Rising(Requests(m, input))
    ensures Taken(t, true) in log <==> exists i: nat :: HitsIn(s, m, input, m', i) && Requests(m, input)[i] == t
    ensures t !in Requests(m, input) ==> Taken(t, true) !in log && Taken(t, false) !in log
    ensures forall i, j :: 0 <= i < j < |log| ==> log[i].txn != log[j].txn
    ensures Taken(t, true) in log ==> t !in m'.core.reqQ && t in Requests(m, input)
  {
    hide WriteAhead;
    var reqs := Requests(m, input);
    if Taken(t, true) in log {
      var i :| 0 <= i < |log| && log[i] == Taken(t, true);
      assert HitsIn(s, m, input, m', i);
      assert forall j :: 0 <= j < |m'.core.reqQ| ==> m'.core.reqQ[j] == reqs[|log| + j];
    }
    if i: nat :| HitsIn(s, m, input, m', i) && reqs[i] == t {
      assert log[i] == Taken(t, true);
    }
  }

  /** The desk's facts about one transaction. */
  lemma AgreesOn(s: Setup, d: Desk, q: TxnQueues, owner: seq<Made>, back: set<nat>, accepted: seq<Txn>, reqQ: seq<Txn>,
                 t: Txn)
    requires Agree(s, d, q, owner, back, accepted, reqQ)
    ensures t in d.stage <==> t in accepted || t in reqQ
    ensures t in reqQ ==> d.stage[t] == R.Waiting
    ensures t in accepted ==> d.stage[t] != R.Waiting
    ensures t in d.stage && d.stage[t] == R.Completed ==> exists n :: 0 <= n < |owner| && owner[n].txn == t
    ensures IsHit(d, t) ==> forall n :: 0 <= n < |owner| ==> owner[n].txn != t
  {
    hide DeskInv, LinesQueued;
  }

  lemma RisingApart(a: seq<Txn>, b: seq<Txn>, t: Txn)
    requires H.Rising(a + b) && t in a
    ensures t !in b
  {
    var i :| 0 <= i < |a| && a[i] == t;
    forall j | 0 <= j < |b|
      ensures b[j] != t
    {
      assert (a + b)[i].seqNum < (a + b)[|a| + j].seqNum;
    }
  }

  lemma RisingTail(a: seq<Txn>, b: seq<Txn>)
    requires H.Rising(a + b)
    ensures H.Rising(b)
  {
    assert forall i :: 0 <= i < |b| ==> b[i] == (a + b)[|a| + i];
  }

  /** The desk after a cycle, stage by stage. */
  lemma StagesOf(s: Setup, m: Memory, input: Input)
    requires SystemShape(s, m.core) && RequestsOk(s, m.core.queues, m.core.tracked, input.arrivals)
    requires |m.core.txns.allQ| == |m.core.txns.readQ| == |m.core.txns.writeQ| == s.c.channels
    requires forall j :: 0 <= j < |Requests(m, input)| ==> s.c.ChannelOf(Requests(m, input)[j].bank) < s.c.channels
    requires m.core.owner <= Step(s, m.core, input.arrivals).0.owner
    ensures var d := Sent(ReturnedAll(s.quick, ArrivedAll(m.desk, input.arrivals), input.back).0);
      && d.stage == ReturnedAll(s.quick, ArrivedAll(m.desk, input.arrivals), input.back).0.stage
      && MemoryStep(s, m, input).0.desk.stage ==
           TakenAll(s.quick, d, AcceptLog(s, m.core.txns, Requests(m, input))).stage
      && MemoryStep(s, m, input).0.core == Step(s, m.core, input.arrivals).0
      && MemoryStep(s, m, input).0.desk == Recorded(TakenAll(s.quick, d, AcceptLog(s, m.core.txns, Requests(m, input))),
                                                    Step(s, m.core, input.arrivals).0.owner, |m.core.owner|)
  {
    hide Step, ReturnedAll, ArrivedAll, TakenAll, AcceptLog, SystemShape, RequestsOk;
  }

  /** One cycle makes hits of the reads it takes behind a write, and of no others; a hit stays one. */
  lemma CycleHits(s: Setup, hash: nat -> nat, m: Memory, input: Input, accepted: seq<Txn>, t: Txn)
    requires MemoryInv(s, hash, m, accepted) && InputOkFor(m, input)
    requires SystemShape(s, m.core) && RequestsOk(s, m.core.queues, m.core.tracked, input.arrivals)
    requires H.Rising(accepted + m.core.reqQ + input.arrivals) && H.Hashed(hash, input.arrivals)
    ensures var m' := MemoryStep(s, m, input).0; IsHit(m'.desk, t) <==> HitNow(s, m, input, m', t)
  {
    hide Step, SystemInv, SystemShape, RequestsOk, H.SystemHazards, Agree, CompletedSent, ColumnIssued, MemoryStep,
      ReturnedAll, ArrivedAll, TakenAll, Sent, AcceptLog, H.Rising, CanReturn, HitsIn, IsHit, LogIs, Placed,
      Accept;
    var y, reqs := m.core, Requests(m, input);
    CoreParts(s, y, input.arrivals);
    StagesOf(s, m, input);
    var r := ReturnedAll(s.quick, ArrivedAll(m.desk, input.arrivals), input.back).0;
    var d, log, back := Sent(r), AcceptLog(s, y.txns, reqs), m.returned + Members(input.back);
    var m' := MemoryStep(s, m, input).0;
    Assoc(accepted, y.reqQ, input.arrivals);
    EventsKeep(s, hash, m, input, accepted);
    var now := StagesKeep(s, y, input.arrivals, d, back, accepted);
    HazardsPlace(s, hash, y, accepted);
    BothHashed(hash, y.reqQ, input.arrivals);
    LogExact(s, hash, y.txns, reqs);
    RisingTail(accepted, reqs);
    LogHits(s, m, input, m', log, t);
    ArrivedStage(m.desk, input.arrivals, t);
    ReturnedStage(s.quick, ArrivedAll(m.desk, input.arrivals), input.back, t);
    TakenStage(s.quick, d, log, t);
    AgreesOn(s, m.desk, y.txns, y.owner, m.returned, accepted, y.reqQ, t);
    AgreesOn(s, d, y.txns, y.owner, back, accepted, reqs, t);
    AgreesOn(s, m'.desk, m'.core.txns, m'.core.owner, back, now, m'.core.reqQ, t);
    HitIs(m.desk, t);
    HitIs(r, t);
    HitIs(d, t);
    HitIs(m'.desk, t);
    HitIs(TakenAll(s.quick, d, log), t);
    if t in accepted { RisingApart(accepted, reqs, t); }
    assert t in now + m'.core.reqQ <==> t in accepted + reqs;
  }

  lemma HitIs(d: Desk, t: Txn)
    ensures IsHit(d, t) <==> t in d.stage && d.stage[t] == R.Hit
  {}

  lemma BothHashed(hash: nat -> nat, a: seq<Txn>, b: seq<Txn>)
    requires H.Hashed(hash, a) && H.Hashed(hash, b)
    ensures H.Hashed(hash, a + b)
  {}

  /** A hit is answered in the next cycle at the latest. */
  lemma HitIsAnswered(s: Setup, hash: nat -> nat, m: Memory, input: Input, accepted: seq<Txn>, t: Txn)
    requires MemoryInv(s, hash, m, accepted) && InputOkFor(m, input)
    requires SystemShape(s, m.core) && RequestsOk(s, m.core.queues, m.core.tracked, input.arrivals)
    requires H.Rising(accepted + m.core.reqQ + input.arrivals) && H.Hashed(hash, input.arrivals)
    requires IsHit(m.desk, t)
    ensures t in MemoryStep(s, m, input).0.desk.sent
  {
    hide Step, SystemInv, SystemShape, RequestsOk, H.SystemHazards, Agree, CompletedSent, ColumnIssued,
      MemoryStep, ReturnedAll, ArrivedAll, TakenAll, Sent, AcceptLog, H.Rising, CanReturn, IsHit, Accept;
    var y, reqs := m.core, Requests(m, input);
    CoreParts(s, y, input.arrivals);
    StagesOf(s, m, input);
    var r := ReturnedAll(s.quick, ArrivedAll(m.desk, input.arrivals), input.back).0;
    var d, back := Sent(r), m.returned + Members(input.back);
    EventsKeep(s, hash, m, input, accepted);
    AgreesOn(s, m.desk, y.txns, y.owner, m.returned, accepted, y.reqQ, t);
    AgreesOn(s, d, y.txns, y.owner, back, accepted, reqs, t);
    Assoc(accepted, y.reqQ, input.arrivals);
    HitIs(m.desk, t);
    HitIs(r, t);
    HitIs(d, t);
    if t in accepted {
      RisingApart(accepted, reqs, t);
      ArrivedStage(m.desk, input.arrivals, t);
      ReturnedStage(s.quick, ArrivedAll(m.desk, input.arrivals), input.back, t);
    }
    HitIsSent(s, r, y.txns, y.owner, back, accepted, reqs, t);
    TakenSent(s.quick, d, AcceptLog(s, y.txns, reqs));
    RecordedStage(TakenAll(s.quick, d, AcceptLog(s, y.txns, reqs)), Step(s, y, input.arrivals).0.owner, |y.owner|);
  }

  lemma HitIsSent(s: Setup, r: Desk, q: TxnQueues, owner: seq<Made>, back: set<nat>, accepted: seq<Txn>, reqQ: seq<Txn>,
                  t: Txn)
    requires Agree(s, Sent(r), q, owner, back, accepted, reqQ) && IsHit(Sent(r), t)
    ensures t in Sent(r).sent
  {
    KeysUnready(r.resQ);
    UnreadyFrom(r.resQ);
    var d := Sent(r);
    assert R.TxnOk(BookOf(s.quick, d), t);
    NoneReady(d, t);
  }

  lemma {:induction false} TakenSent(quick: bool, d: Desk, log: seq<Taken>)
    ensures TakenAll(quick, d, log).sent == d.sent
    decreases |log|
  {
    if log != [] { TakenSent(quick, TakenOne(quick, d, log[0]), log[1..]); }
  }

  /** What is accepted in a cycle: the requests it takes. */
  lemma CycleTakes(s: Setup, hash: nat -> nat, m: Memory, input: Input, accepted: seq<Txn>) returns (now: seq<Txn>)
    requires MemoryInv(s, hash, m, accepted) && InputOkFor(m, input)
    requires SystemShape(s, m.core) && RequestsOk(s, m.core.queues, m.core.tracked, input.arrivals)
    requires H.Rising(accepted + m.core.reqQ + input.arrivals) && H.Hashed(hash, input.arrivals)
    ensures var m' := MemoryStep(s, m, input).0; var reqs := Requests(m, input);
      && MemoryInv(s, hash, m', now) && now + m'.core.reqQ == accepted + m.core.reqQ + input.arrivals
      && (forall t :: t in accepted ==> t in now)
      && (forall i :: 0 <= i && i + |m'.core.reqQ| < |reqs| ==> reqs[i] in now)
  {
    hide MemoryInv, MemoryStep, SystemShape, RequestsOk, InputOkFor, H.Rising;
    now := MemoryStepKeeps(s, hash, m, input, accepted);
    var m', reqs := MemoryStep(s, m, input).0, Requests(m, input);
    ShorterRequests(s, hash, m, input, accepted);
    Assoc(accepted, m.core.reqQ, input.arrivals);
    assert |now| == |accepted| + (|reqs| - |m'.core.reqQ|);
    assert forall i :: 0 <= i < |accepted| ==> (accepted + reqs)[i] == accepted[i] == now[i];
    forall i | 0 <= i && i + |m'.core.reqQ| < |reqs|
      ensures reqs[i] in now
    {
      assert (accepted + reqs)[|accepted| + i] == reqs[i] == now[|accepted| + i];
    }
  }

  lemma ShorterRequests(s: Setup, hash: nat -> nat, m: Memory, input: Input, accepted: seq<Txn>)
    requires MemoryInv(s, hash, m, accepted) && H.Hashed(hash, input.arrivals)
    requires SystemShape(s, m.core) && RequestsOk(s, m.core.queues, m.core.tracked, input.arrivals)
    ensures |MemoryStep(s, m, input).0.core.reqQ| <= |Requests(m, input)|
  {
    hide Step, SystemInv, SystemShape, RequestsOk, H.SystemHazards, Agree, AcceptLog, Accept, WriteAhead, MemoryStep,
      Placed;
    CoreParts(s, m.core, input.arrivals);
    StagesOf(s, m, input);
    HazardsPlace(s, hash, m.core, accepted);
    BothHashed(hash, m.core.reqQ, input.arrivals);
    LogExact(s, hash, m.core.txns, Requests(m, input));
  }

  // ---------------------------------------------------------------- runs

  /** What a run's cycle allows. */
  lemma CycleOk(s: Setup, hash: nat -> nat, inputs: seq<Input>, run: MemoryRun, k: nat) returns (accepted: seq<Txn>)
    requires IsMemoryRun(s, hash, inputs, run) && k < |inputs|
    ensures k + 1 < |run.states| && MemoryInv(s, hash, run.states[k], accepted) && InputOkFor(run.states[k], inputs[k])
    ensures var m := run.states[k];
      && SystemShape(s, m.core) && RequestsOk(s, m.core.queues, m.core.tracked, inputs[k].arrivals)
      && run.states[k + 1] == MemoryStep(s, m, inputs[k]).0
      && H.Rising(accepted + m.core.reqQ + inputs[k].arrivals) && H.Hashed(hash, inputs[k].arrivals)
      && accepted + m.core.reqQ == H.Flat(Batches(inputs)[..k])
  {
    hide MemoryInv, MemoryStep, SystemShape, RequestsOk, InputOkFor, H.Flat, H.Hashed, H.Rising;
    accepted := MemoryRunInv(s, hash, inputs, run, k);
    assert CycleAt(s, inputs, run, k);
    FlatStep(s, hash, Batches(inputs), k + 1);
  }

  /** The requests that a cycle of a run may take. */
  ghost function RequestsAt(inputs: seq<Input>, run: MemoryRun, j: nat): seq<Txn>
    requires j < |inputs| && j < |run.states|
  {
    Requests(run.states[j], inputs[j])
  }

  /** Request `i` of cycle `j` is taken. */
  ghost predicate IsTaken(inputs: seq<Input>, run: MemoryRun, j: nat, i: nat) {
    && j < |inputs| && j + 1 < |run.states|
    && i + |run.states[j + 1].core.reqQ| < |RequestsAt(inputs, run, j)|
  }

  /** A write to its address is then in the scheduler. */
  ghost predicate BehindWrite(inputs: seq<Input>, run: MemoryRun, j: nat, i: nat) {
    IsTaken(inputs, run, j, i) && WriteAhead(run.states[j].core.txns, RequestsAt(inputs, run, j), i)
  }

  ghost predicate HitAt(s: Setup, inputs: seq<Input>, run: MemoryRun, j: nat, i: nat, t: Txn) {
    && s.quick && t.isRead && BehindWrite(inputs, run, j, i) && RequestsAt(inputs, run, j)[i] == t
  }

  lemma HitsAre(s: Setup, inputs: seq<Input>, run: MemoryRun, j: nat, t: Txn)
    requires j < |inputs| && j + 1 < |run.states|
    ensures HitNow(s, run.states[j], inputs[j], run.states[j + 1], t) <==>
            IsHit(run.states[j].desk, t) || exists i: nat :: HitAt(s, inputs, run, j, i, t)
  {
    hide IsHit, WriteAhead;
    var m, input, m' := run.states[j], inputs[j], run.states[j + 1];
    if i: nat :| HitsIn(s, m, input, m', i) && Requests(m, input)[i] == t { assert HitAt(s, inputs, run, j, i, t); }
    if i: nat :| HitAt(s, inputs, run, j, i, t) { assert HitsIn(s, m, input, m', i); }
  }

  lemma NoHitsYet(s: Setup, t: Txn)
    requires s.c.Valid()
    ensures !IsHit(FirstState(s).desk, t)
  {}

  /** The hits of a state are the reads that were taken behind a write. */
  lemma {:induction false} HitsOfRun(s: Setup, hash: nat -> nat, inputs: seq<Input>, run: MemoryRun, k: nat, t: Txn)
    requires IsMemoryRun(s, hash, inputs, run) && k < |run.states|
    ensures IsHit(run.states[k].desk, t) <==> exists j: nat, i: nat :: j < k && HitAt(s, inputs, run, j, i, t)
    decreases k
  {
    hide MemoryInv, MemoryStep, SystemShape, RequestsOk, InputOkFor, H.Flat, H.Hashed, H.Rising, HitAt, IsHit,
      HitNow, CycleAt, H.InputOk;
    if k == 0 {
      NoHitsYet(s, t);
    } else {
      HitsOfRun(s, hash, inputs, run, k - 1, t);
      var accepted := CycleOk(s, hash, inputs, run, k - 1);
      CycleHits(s, hash, run.states[k - 1], inputs[k - 1], accepted, t);
      HitsAre(s, inputs, run, k - 1, t);
    }
  }

  /** A write ahead of a request arrived before it. */
  lemma AheadIsOlder(accepted: seq<Txn>, reqs: seq<Txn>, i: nat, w: Txn)
    requires H.Rising(accepted + reqs) && i < |reqs| && (w in accepted || w in reqs[..i])
    ensures w.seqNum < reqs[i].seqNum
  {
    var all := accepted + reqs;
    assert all[|accepted| + i] == reqs[i];
    if w in accepted {
      var n :| 0 <= n < |accepted| && accepted[n] == w;
      assert all[n] == w;
    } else {
      var n :| 0 <= n < i && reqs[n] == w;
      assert all[|accepted| + n] == w;
    }
  }

  /** A read that has been answered and not served was taken, with quick response, behind a write to
      its address that had arrived before it and was still in the scheduler. */
  lemma EarlyReadsFoundWrites(s: Setup, hash: nat -> nat, inputs: seq<Input>, run: MemoryRun, k: nat, t: Txn)
    returns (j: nat, i: nat, w: Txn)
    requires IsMemoryRun(s, hash, inputs, run) && k < |run.states|
    requires t.isRead && t in run.states[k].desk.sent && !Served(run.states[k], t)
    ensures s.quick && j < k && IsTaken(inputs, run, j, i) && RequestsAt(inputs, run, j)[i] == t
    ensures !w.isRead && w.addr == t.addr && w.seqNum < t.seqNum
    ensures InScheduler(run.states[j].core.txns, w) || w in RequestsAt(inputs, run, j)[..i]
  {
    hide MemoryInv, MemoryStep, SystemShape, RequestsOk, InputOkFor, H.Flat, H.Hashed, H.Rising, Served,
      InScheduler, CycleAt, H.InputOk;
    AnsweredAtMostOnce(s, hash, inputs, run, k, t);
    HitsOfRun(s, hash, inputs, run, k, t);
    j, i :| j < k && HitAt(s, inputs, run, j, i, t);
    var y, reqs := run.states[j].core, RequestsAt(inputs, run, j);
    var accepted := CycleOk(s, hash, inputs, run, j);
    Assoc(accepted, y.reqQ, inputs[j].arrivals);
    HazardsOf(s, hash, run.states[j], accepted);
    if WriteQueued(y.txns, t.addr) {
      w :| InScheduler(y.txns, w) && WritesSame(w, t.addr);
    } else {
      w :| w in reqs[..i] && WritesSame(w, t.addr);
    }
    AheadIsOlder(accepted, reqs, i, w);
  }

  lemma HazardsOf(s: Setup, hash: nat -> nat, m: Memory, accepted: seq<Txn>)
    requires MemoryInv(s, hash, m, accepted)
    ensures forall w :: InScheduler(m.core.txns, w) ==> w in accepted
    ensures forall t :: IsHit(m.desk, t) ==> !Served(m, t)
    ensures forall t :: t in m.core.reqQ || t in accepted <==> t in m.desk.stage
    ensures forall t :: t in m.core.reqQ ==> !IsHit(m.desk, t)
  {
    hide SystemInv, H.SystemHazards, DeskInv, LinesQueued;
    HazardsPlace(s, hash, m.core, accepted);
  }

  /** A request that has been taken is not requested again. */
  lemma {:induction false} TakenStays(s: Setup, hash: nat -> nat, inputs: seq<Input>, run: MemoryRun, j: nat, i: nat,
                                      k: nat)
    returns (accepted: seq<Txn>)
    requires IsMemoryRun(s, hash, inputs, run) && IsTaken(inputs, run, j, i) && j < k < |run.states|
    ensures MemoryInv(s, hash, run.states[k], accepted) && RequestsAt(inputs, run, j)[i] in accepted
    ensures accepted + run.states[k].core.reqQ == H.Flat(Batches(inputs)[..k])
    decreases k
  {
    hide MemoryInv, MemoryStep, SystemShape, RequestsOk, InputOkFor, H.Flat, H.Hashed, H.Rising, CycleAt, H.InputOk;
    var before := CycleOk(s, hash, inputs, run, k - 1);
    if j < k - 1 {
      var same := TakenStays(s, hash, inputs, run, j, i, k - 1);
      SuffixSame(same, before, run.states[k - 1].core.reqQ);
    }
    accepted := CycleTakes(s, hash, run.states[k - 1], inputs[k - 1], before);
    OneMoreBatch(s, hash, inputs, run, k);
  }

  lemma OneMoreBatch(s: Setup, hash: nat -> nat, inputs: seq<Input>, run: MemoryRun, k: nat)
    requires IsMemoryRun(s, hash, inputs, run) && 0 < k <= |inputs|
    ensures H.Flat(Batches(inputs)[..k]) == H.Flat(Batches(inputs)[..k - 1]) + inputs[k - 1].arrivals
  {
    hide CycleAt, H.InputOk;
    FlatStep(s, hash, Batches(inputs), k);
  }

  /** Whether a request is a hit is settled in the cycle that takes it. */
  lemma {:induction false} HitIsSettled(s: Setup, hash: nat -> nat, inputs: seq<Input>, run: MemoryRun, j: nat, i: nat,
                                        k: nat)
    requires IsMemoryRun(s, hash, inputs, run) && IsTaken(inputs, run, j, i) && j < k < |run.states|
    ensures var t := RequestsAt(inputs, run, j)[i];
      IsHit(run.states[k].desk, t) <==> s.quick && t.isRead && BehindWrite(inputs, run, j, i)
    decreases k
  {
    hide MemoryInv, MemoryStep, SystemShape, RequestsOk, InputOkFor, H.Flat, H.Hashed, H.Rising, CycleAt,
      H.InputOk, IsHit, BehindWrite, HitNow;
    var t := RequestsAt(inputs, run, j)[i];
    var n := k - 1;
    var m, reqs := run.states[n], RequestsAt(inputs, run, n);
    var accepted := CycleOk(s, hash, inputs, run, n);
    Assoc(accepted, m.core.reqQ, inputs[n].arrivals);
    CycleHits(s, hash, m, inputs[n], accepted, t);
    HitsAre(s, inputs, run, n, t);
    if n == j {
      NewRequest(s, hash, m, inputs[n], accepted, t);
      RisingTail(accepted, reqs);
      forall x: nat | HitAt(s, inputs, run, j, x, t)
        ensures x == i
      {
        BehindIsTaken(inputs, run, j, x);
        SamePlace(reqs, x, i);
      }
      assert BehindWrite(inputs, run, j, i) && s.quick && t.isRead ==> HitAt(s, inputs, run, j, i, t);
    } else {
      HitIsSettled(s, hash, inputs, run, j, i, n);
      var same := TakenStays(s, hash, inputs, run, j, i, n);
      SuffixSame(same, accepted, m.core.reqQ);
      RisingApart(accepted, reqs, t);
      forall x: nat | HitAt(s, inputs, run, n, x, t)
        ensures false
      {
        BehindIsTaken(inputs, run, n, x);
      }
    }
  }

  lemma BehindIsTaken(inputs: seq<Input>, run: MemoryRun, j: nat, i: nat)
    requires BehindWrite(inputs, run, j, i)
    ensures IsTaken(inputs, run, j, i)
  {}

  lemma SamePlace(reqs: seq<Txn>, x: nat, i: nat)
    requires H.Rising(reqs) && x < |reqs| && i < |reqs| && reqs[x] == reqs[i]
    ensures x == i
  {}

  /** Who has not been taken is no hit. */
  lemma NewRequest(s: Setup, hash: nat -> nat, m: Memory, input: Input, accepted: seq<Txn>, t: Txn)
    requires MemoryInv(s, hash, m, accepted) && H.Rising(accepted + m.core.reqQ + input.arrivals)
    requires t in Requests(m, input)
    ensures !IsHit(m.desk, t)
  {
    hide MemoryInv, H.Rising;
    HazardsOf(s, hash, m, accepted);
    if t !in m.core.reqQ && t in accepted { RisingApart(accepted + m.core.reqQ, input.arrivals, t); }
    HitIs(m.desk, t);
  }

  /** Exactly: a read is answered without having been served if and only if quick response is on and
      it is taken behind a write to its address. */
  lemma EarlyReadsExactly(s: Setup, hash: nat -> nat, inputs: seq<Input>, run: MemoryRun, j: nat, i: nat, k: nat)
    requires IsMemoryRun(s, hash, inputs, run) && IsTaken(inputs, run, j, i) && j + 1 < k < |run.states|
    requires RequestsAt(inputs, run, j)[i].isRead
    ensures var t := RequestsAt(inputs, run, j)[i];
      t in run.states[k].desk.sent && !Served(run.states[k], t) <==> s.quick && BehindWrite(inputs, run, j, i)
  {
    hide MemoryInv, MemoryStep, SystemShape, RequestsOk, InputOkFor, H.Flat, H.Hashed, H.Rising, CycleAt, H.InputOk,
      BehindWrite, Served;
    var t := RequestsAt(inputs, run, j)[i];
    HitIsSettled(s, hash, inputs, run, j, i, k - 1);
    HitIsSettled(s, hash, inputs, run, j, i, k);
    var accepted := CycleOk(s, hash, inputs, run, k - 1);
    if IsHit(run.states[k].desk, t) {
      HitIsAnswered(s, hash, run.states[k - 1], inputs[k - 1], accepted, t);
      var now := MemoryRunInv(s, hash, inputs, run, k);
      HazardsOf(s, hash, run.states[k], now);
    } else {
      AnsweredAtMostOnce(s, hash, inputs, run, k, t);
    }
  }

  // ---------------------------------------------------------------- writes

  lemma WriteIsSent(s: Setup, r: Desk, q: TxnQueues, owner: seq<Made>, back: set<nat>, accepted: seq<Txn>,
                    reqQ: seq<Txn>, t: Txn)
    requires Agree(s, Sent(r), q, owner, back, accepted, reqQ) && t in accepted && s.quick && !t.isRead
    ensures t in Sent(r).sent
  {
    KeysUnready(r.resQ);
    UnreadyFrom(r.resQ);
    var d := Sent(r);
    assert t in d.stage && d.stage[t] != R.Waiting;
    assert R.TxnOk(BookOf(s.quick, d), t);
    NoneReady(d, t);
  }

  /** With quick response a write that has been taken is answered in the next cycle at the latest. */
  lemma WritesAnsweredEarly(s: Setup, hash: nat -> nat, inputs: seq<Input>, run: MemoryRun, j: nat, i: nat, k: nat)
    requires IsMemoryRun(s, hash, inputs, run) && IsTaken(inputs, run, j, i) && j + 1 < k < |run.states|
    requires s.quick && !RequestsAt(inputs, run, j)[i].isRead
    ensures RequestsAt(inputs, run, j)[i] in run.states[k].desk.sent
  {
    hide MemoryInv, MemoryStep, SystemShape, RequestsOk, InputOkFor, H.Flat, H.Hashed, H.Rising, CycleAt, H.InputOk;
    var t, n := RequestsAt(inputs, run, j)[i], k - 1;
    var accepted := CycleOk(s, hash, inputs, run, n);
    var same := TakenStays(s, hash, inputs, run, j, i, n);
    SuffixSame(same, accepted, run.states[n].core.reqQ);
    WriteAnswered(s, hash, run.states[n], inputs[n], accepted, t);
  }

  lemma WriteAnswered(s: Setup, hash: nat -> nat, m: Memory, input: Input, accepted: seq<Txn>, t: Txn)
    requires MemoryInv(s, hash, m, accepted) && InputOkFor(m, input) && t in accepted && s.quick && !t.isRead
    requires SystemShape(s, m.core) && RequestsOk(s, m.core.queues, m.core.tracked, input.arrivals)
    requires H.Rising(accepted + m.core.reqQ + input.arrivals) && H.Hashed(hash, input.arrivals)
    ensures t in MemoryStep(s, m, input).0.desk.sent
  {
    hide Step, SystemInv, SystemShape, RequestsOk, H.SystemHazards, Agree, CompletedSent, ColumnIssued,
      MemoryStep, ReturnedAll, ArrivedAll, TakenAll, Sent, AcceptLog, H.Rising, CanReturn, Accept;
    var y, reqs := m.core, Requests(m, input);
    CoreParts(s, y, input.arrivals);
    StagesOf(s, m, input);
    var r := ReturnedAll(s.quick, ArrivedAll(m.desk, input.arrivals), input.back).0;
    EventsKeep(s, hash, m, input, accepted);
    WriteIsSent(s, r, y.txns, y.owner, m.returned + Members(input.back), accepted, reqs, t);
    TakenSent(s.quick, Sent(r), AcceptLog(s, y.txns, reqs));
    RecordedStage(TakenAll(s.quick, Sent(r), AcceptLog(s, y.txns, reqs)), Step(s, y, input.arrivals).0.owner,
                  |y.owner|);
  }
}
