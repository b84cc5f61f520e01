/** Writes to one address: they leave the scheduler in order in every run exactly when reads do
    not go first or row hits may not overtake. */
module WriteOrder {
  import opened Options
  import opened Sequences
  import opened Dram
  import opened ControllerModel
  import opened ControllerSafety
  import opened Hazards

  /** No write has left the scheduler while an older write to its address still waits there. */
  ghost predicate WritesInTurn(s: Setup, y: System)
    requires Wide(s, y.txns)
  {
    forall o, w, ch: nat, i :: 0 <= o < |y.owner| && ch < s.c.channels && 0 <= i < |LineOf(y.txns, w, ch)| ==>
      var done, waiting := y.owner[o].txn, LineOf(y.txns, w, ch)[i];
      !done.isRead && !waiting.isRead && done.addr == waiting.addr ==> done.seqNum < waiting.seqNum
  }

  lemma HazardsKeepWrites(s: Setup, hash: nat -> nat, y: System, accepted: seq<Txn>)
    requires SystemHazards(s, hash, y, accepted) && !(s.readFirst && s.firstReady)
    ensures WritesInTurn(s, y)
  {
    forall o, w, ch: nat, i | 0 <= o < |y.owner| && ch < s.c.channels && 0 <= i < |LineOf(y.txns, w, ch)|
      ensures var done, waiting := y.owner[o].txn, LineOf(y.txns, w, ch)[i];
        !done.isRead && !waiting.isRead && done.addr == waiting.addr ==> done.seqNum < waiting.seqNum
    {
      assert Behind(s, Txns(y.owner), LineOf(y.txns, w, ch));
      assert Txns(y.owner)[o] == y.owner[o].txn;
    }
  }

  // ---------------------------------------------------------------- two writes, the younger first

  const OLDER := Txn(0, false, 0, 0, 0)
  const YOUNGER := Txn(1, false, 0, 0, 0)

  /** A channel picks nothing when its queues are empty. */
  lemma PickNothing(s: Setup, queues: seq<seq<Command>>, tracked: seq<Tracked>, q: TxnQueues, ch: nat)
    requires QueuesOk(s, queues, tracked, q) && ch < s.c.channels
    requires forall w :: LineOf(q, w, ch) == []
    ensures var r := PickChannel(s, queues, tracked, q, ch);
      r.picks == [] && Wide(s, r.q) && forall w, c: nat :: c < s.c.channels ==> LineOf(r.q, w, c) == LineOf(q, w, c)
  {
    var q1 := Flushed(s, q, ch);
    assert forall w, c: nat :: c < s.c.channels ==> LineOf(q1, w, c) == LineOf(q, w, c);
    assert Selection(s, queues, tracked, q1, ch).None?;
  }

  /** Without a row hit, the last of two ready writes is picked. */
  lemma PickYounger(s: Setup, queues: seq<seq<Command>>, tracked: seq<Tracked>, q: TxnQueues, ch: nat)
    requires s.readFirst && s.firstReady && QueuesOk(s, queues, tracked, q) && ch < s.c.channels
    requires q.readQ[ch] == [] && q.writeQ[ch] == [OLDER, YOUNGER]
    requires 0 < |queues| && 3 <= Token(s, queues[0]) && 0 < |tracked| && !tracked[0].open
    ensures var r := PickChannel(s, queues, tracked, q, ch);
      r.picks == [YOUNGER] && Wide(s, r.q) && r.q.writeQ[ch] == [OLDER]
  {
    var q1 := Flushed(s, q, ch);
    assert TxnsOk(s, queues, tracked, q.writeQ[ch], ch);
    var line := [OLDER, YOUNGER];
    assert Ready(s, queues, q1, ch, OLDER) && Ready(s, queues, q1, ch, YOUNGER);
    assert Scan(s, queues, tracked, q1, ch, line, 2, Some(1)) == Some(1);
    assert Scan(s, queues, tracked, q1, ch, line, 1, Some(0)) == Some(1);
    assert Scan(s, queues, tracked, q1, ch, line, 0, None) == Some(1);
    assert Selection(s, queues, tracked, q1, ch) == Some((WriteLine, 1));
    assert Without(line, 1) == [OLDER];
  }

  /** Later channels do not touch the queues of earlier ones. */
  lemma {:induction false} PickFromLater(s: Setup, queues: seq<seq<Command>>, tracked: seq<Tracked>, q: TxnQueues,
                                         ch: nat, here: nat)
    requires QueuesOk(s, queues, tracked, q) && here < ch <= s.c.channels
    ensures Wide(s, PickFrom(s, queues, tracked, q, ch).q)
    ensures PickFrom(s, queues, tracked, q, ch).q.writeQ[here] == q.writeQ[here]
    decreases s.c.channels - ch
  {
    if ch < s.c.channels {
      PickChannelOk(s, queues, tracked, q, ch);
      PickFromLater(s, queues, tracked, PickChannel(s, queues, tracked, q, ch).q, ch + 1, here);
    }
  }

  lemma {:induction false} PickFromEarlier(s: Setup, queues: seq<seq<Command>>, tracked: seq<Tracked>, q: TxnQueues,
                                           ch: nat, here: nat)
    requires s.readFirst && s.firstReady && QueuesOk(s, queues, tracked, q) && ch <= here < s.c.channels
    requires q.readQ[here] == [] && q.writeQ[here] == [OLDER, YOUNGER]
    requires forall w, c: nat :: c < here ==> LineOf(q, w, c) == []
    requires 0 < |queues| && 3 <= Token(s, queues[0]) && 0 < |tracked| && !tracked[0].open
    ensures var r := PickFrom(s, queues, tracked, q, ch);
      Wide(s, r.q) && r.q.writeQ[here] == [OLDER] && r.picks != [] && r.picks[0] == YOUNGER
    decreases here - ch
  {
    hide QueuesOk, PickChannel, Token;
    PickChannelOk(s, queues, tracked, q, ch);
    var r := PickChannel(s, queues, tracked, q, ch);
    if ch == here {
      PickYounger(s, queues, tracked, q, ch);
      PickFromLater(s, queues, tracked, r.q, ch + 1, here);
    } else {
      WideQueues(s, queues, tracked, q);
      PickNothing(s, queues, tracked, q, ch);
      assert LineOf(r.q, ReadLine, here) == LineOf(q, ReadLine, here);
      assert LineOf(r.q, WriteLine, here) == LineOf(q, WriteLine, here);
      PickFromEarlier(s, queues, tracked, r.q, ch + 1, here);
      EmptyIsUnit(PickFrom(s, queues, tracked, r.q, ch + 1).picks);
    }
  }

  lemma WideQueues(s: Setup, queues: seq<seq<Command>>, tracked: seq<Tracked>, q: TxnQueues)
    requires QueuesOk(s, queues, tracked, q)
    ensures Wide(s, q)
  {}

  /** Both writes are accepted into the channel of bank 0. */
  lemma AcceptTwo(s: Setup)
    requires s.c.Valid() && s.readFirst && 2 <= s.txnEntries && 0 < s.c.Banks()
    ensures Wide(s, Start(s).txns)
    ensures var q := Accept(s, Start(s).txns, [OLDER, YOUNGER]).0;
      var here := s.c.ChannelOf(0);
      && Wide(s, q) && q.writeQ[here] == [OLDER, YOUNGER] && q.readQ[here] == []
      && forall w, c: nat :: c < here ==> LineOf(q, w, c) == []
  {
    var q0 := Start(s).txns;
    var here := s.c.ChannelOf(0);
    var q1 := q0.(writeQ := q0.writeQ[here := [OLDER]]);
    var q2 := q1.(writeQ := q1.writeQ[here := [OLDER, YOUNGER]]);
    assert q0.writeQ[here] + [OLDER] == [OLDER] && [OLDER] + [YOUNGER] == [OLDER, YOUNGER];
    assert PushTxn(s, q0, OLDER) == (q1, true);
    assert PushTxn(s, q1, YOUNGER) == (q2, true);
    assert [OLDER, YOUNGER][1..] == [YOUNGER] && [YOUNGER][1..] == [];
    assert Accept(s, q2, []) == (q2, []);
    assert Accept(s, q1, [YOUNGER]) == (q2, []);
  }

  lemma OneBatch(s: Setup, batch: seq<Txn>)
    requires s.c.Valid() && ArrivalsOk(s.c, batch)
    ensures RequestsOk(s, Start(s).queues, Start(s).tracked, batch)
    ensures RunSystem(s, [batch]).0 == Step(s, Start(s), batch).0
  {
    hide SystemShape, Step, Start;
    ArrivalsAreRequests(s, Start(s), batch);
    assert [batch][..0] == [];
    assert RunSystem(s, []).0 == Start(s);
  }

  /** The first transaction picked owns the first number. */
  lemma YoungerOwns(s: Setup, v: Converted, picks: seq<Txn>)
    requires forall i :: 0 <= i < |picks| ==> picks[i].bank < |v.queues| && picks[i].bank < |v.tracked|
    requires v.owner == [] && picks != [] && picks[0] == YOUNGER && 3 <= Token(s, v.queues[0])
    ensures ConvertAll(s, v, picks).owner != [] && ConvertAll(s, v, picks).owner[0].txn == YOUNGER
  {
    var v1 := ConvertOne(s, v, picks[0]);
    assert v1.owner != [] && v1.owner[0].txn == YOUNGER;
    assert |v1.queues| == |v.queues| && |v1.tracked| == |v.tracked|;
    hide ConvertOne;
    OwnerGrows(s, v1, picks[1..]);
  }

  lemma StartFacts(s: Setup)
    requires s.c.Valid() && 0 < s.c.Banks() && 3 <= s.cmdEntries
    ensures var y := Start(s);
      && y.owner == [] && y.reqQ == [] && 0 < |y.queues| && 3 <= Token(s, y.queues[0]) && 0 < |y.tracked|
      && !y.tracked[0].open
      && QueuesOk(s, y.queues, y.tracked, y.txns) && Wide(s, y.txns)
  {}

  /** In its first cycle the controller takes the younger write and leaves the older. */
  lemma FirstCycle(s: Setup, y: System)
    requires s.c.Valid() && s.readFirst && s.firstReady && 3 <= s.cmdEntries && 2 <= s.txnEntries && 0 < s.c.Banks()
    requires y == Start(s) && SystemShape(s, y) && RequestsOk(s, y.queues, y.tracked, [OLDER, YOUNGER])
    ensures Wide(s, Step(s, y, [OLDER, YOUNGER]).0.txns) && !WritesInTurn(s, Step(s, y, [OLDER, YOUNGER]).0)
  {
    hide Start, Accept, PickFrom, ConvertAll, SystemShape, Token, QueuesOk, Step;
    var here := s.c.ChannelOf(0);
    var batch := [OLDER, YOUNGER];
    StartFacts(s);
    AcceptTwo(s);
    AcceptOk(s, y.queues, y.tracked, y.txns, batch);
    EmptyIsUnit(batch);
    var q := Accept(s, y.txns, batch).0;
    PickFromEarlier(s, y.queues, y.tracked, q, 0, here);
    var picked := PickFrom(s, y.queues, y.tracked, q, 0);
    var v := Converted(y.queues, y.tracked, y.owner, true);
    YoungerOwns(s, v, picked.picks);
    StepResults(s, y, batch, q, ConvertAll(s, v, picked.picks), picked);
    var y' := Step(s, y, batch).0;
    assert y'.owner[0].txn == YOUNGER && LineOf(y'.txns, WriteLine, here)[0] == OLDER;
  }

  /** After one cycle the younger write has left and the older still waits. */
  lemma YoungerLeavesFirst(s: Setup)
    requires s.c.Valid() && s.readFirst && s.firstReady && 3 <= s.cmdEntries && 2 <= s.txnEntries && 0 < s.c.Banks()
    ensures ArrivalsOk(s.c, [OLDER, YOUNGER])
    ensures Wide(s, RunSystem(s, [[OLDER, YOUNGER]]).0.txns) && !WritesInTurn(s, RunSystem(s, [[OLDER, YOUNGER]]).0)
  {
    hide Start, SystemShape, Step, RunSystem, WritesInTurn, RequestsOk;
    OneBatch(s, [OLDER, YOUNGER]);
    FirstCycle(s, Start(s));
  }

  lemma OneBatchInput(c: Config)
    requires ArrivalsOk(c, [OLDER, YOUNGER])
    ensures InputOk(c, (addr: nat) => 0 as nat, [[OLDER, YOUNGER]])
  {
    var batches := [[OLDER, YOUNGER]];
    FlatOne([OLDER, YOUNGER]);
    hide ArrivalsOk, Flat;
    assert Hashed((addr: nat) => 0 as nat, [OLDER, YOUNGER]);
    assert Rising(Flat(batches));
  }

  lemma FlatOne(batch: seq<Txn>)
    ensures Flat([batch]) == batch
  {
    assert [batch][..0] == [];
  }
}
