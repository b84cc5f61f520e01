/** Whole runs of the controller: whatever transactions arrive, the converter's assertions never
    fail, and every command the device sees keeps its distances, its row, the activation window
    and the order of the transactions. */
module ControllerSafety {
  import opened Sequences
  import opened Dram
  import opened BankModel
  import opened DriverModel
  import opened Spacing
  import opened Rows
  import opened Faw
  import opened DriverSafety
  import opened RefreshSafety
  import opened ControllerModel

  function BeliefOf(t: Tracked): RowBuffer { if t.open then Open(t.row) else Closed }

  function Beliefs(tracked: seq<Tracked>): (r: seq<RowBuffer>)
    ensures |r| == |tracked|
  {
    seq(|tracked|, i requires 0 <= i < |tracked| => BeliefOf(tracked[i]))
  }

  // ---------------------------------------------------------------- flow control

  /** A transaction becomes at most three commands. */
  lemma AtMostThree(policy: Policy, t: Tracked, txn: Txn)
    requires !(policy.PseudoOpen? && policy.closeTime == 0 && t.open)
    ensures |KindsFor(policy, t, txn)| <= 3
  {}

  ghost predicate TimersOk(policy: Policy, tracked: seq<Tracked>) {
    policy.PseudoOpen? && policy.closeTime == 0 ==> forall i :: 0 <= i < |tracked| ==>
      !tracked[i].open && tracked[i].timer == 0
  }

  ghost predicate WithinEntries(s: Setup, queues: seq<seq<Command>>) {
    forall b :: 0 <= b < |queues| ==> |queues[b]| <= s.cmdEntries
  }

  lemma {:induction false} PushAllFits(s: Setup, q: seq<Command>, cmds: seq<Command>)
    requires |q| + |cmds| <= s.cmdEntries
    ensures PushAll(s, q, cmds) == (q + cmds, true)
    decreases |cmds|
  {
    if cmds == [] {
      assert q + cmds == q;
    } else {
      PushAllFits(s, q + [cmds[0]], cmds[1..]);
      assert q + [cmds[0]] + cmds[1..] == q + cmds;
    }
  }

  /** With three tokens the converter's pushes succeed, and the queue gets exactly the commands
      made for the transaction. */
  lemma ConvertFits(s: Setup, v: Converted, txn: Txn)
    requires txn.bank < |v.queues| && |v.queues| == |v.tracked|
    requires WithinEntries(s, v.queues) && TimersOk(s.policy, v.tracked) && 3 <= Token(s, v.queues[txn.bank])
    ensures var kinds := KindsFor(s.policy, v.tracked[txn.bank], txn);
      var v' := ConvertOne(s, v, txn);
      && v'.ok == v.ok
      && v'.queues == v.queues[txn.bank := v.queues[txn.bank] + Numbered(kinds, txn, |v.owner|)]
      && WithinEntries(s, v'.queues) && TimersOk(s.policy, v'.tracked)
  {
    AtMostThree(s.policy, v.tracked[txn.bank], txn);
    PushAllFits(s, v.queues[txn.bank], Numbered(KindsFor(s.policy, v.tracked[txn.bank], txn), txn, |v.owner|));
  }

  // ---------------------------------------------------------------- the converter keeps the flow

  /** The row commands leave the transaction's row open, or (when none are needed) the bank at
      that row or, after a refresh, closed. */
  lemma RowsBefore(policy: Policy, t: Tracked, txn: Txn, r: RowBuffer, a: seq<Command>)
    requires r == Closed || r == BeliefOf(t)
    requires |a| == |PreKinds(policy, t, txn)|
    requires forall i :: 0 <= i < |a| ==> a[i].kind == PreKinds(policy, t, txn)[i] && a[i].row == txn.row
    ensures Walk(r, a) && (RowAfter(r, a) == Closed || RowAfter(r, a) == Open(txn.row))
  {
    if |a| == 2 {
      assert a[1..] == [a[1]];
      assert Walk(Leaves(a[0]), a[1..]);
    }
  }

  /** A column command, perhaps with a precharge behind it. */
  lemma ColumnWalk(txn: Txn, r: RowBuffer, b: seq<Command>)
    requires r == Closed || r == Open(txn.row)
    requires 1 <= |b| <= 2 && IsColumn(b[0].kind) && b[0].row == txn.row && (|b| == 2 ==> b[1].kind == PRE)
    ensures Walk(r, b) && RowAfter(r, b) == if |b| == 2 then Closed else Open(txn.row)
  {
    if |b| == 2 {
      assert b[1..] == [b[1]];
      assert Walk(Leaves(b[0]), b[1..]);
    }
  }

  lemma KindsWalk(policy: Policy, t: Tracked, txn: Txn, r: RowBuffer, first: nat)
    requires r == Closed || r == BeliefOf(t)
    ensures FlowOk(r, Numbered(KindsFor(policy, t, txn), txn, first), BeliefOf(NextTracked(policy, t, txn)))
  {
    var pre, post := PreKinds(policy, t, txn), PostKinds(policy, t, txn);
    var a, b := Numbered(pre, txn, first), Numbered(post, txn, first + |pre|);
    assert Numbered(pre + post, txn, first) == a + b;
    WalkSplit(r, a, b);
    RowsBefore(policy, t, txn, r, a);
    ColumnWalk(txn, RowAfter(r, a), b);
  }

  lemma {:induction false} NumberedSeqs(cmds: seq<Command>, first: nat)
    requires forall i :: 0 <= i < |cmds| ==> cmds[i].origin == FromTxn && cmds[i].seqNum == first + i
    ensures TxnSeqs(cmds) == seq(|cmds|, i => first + i)
  {
    if cmds != [] {
      forall i | 0 <= i < |cmds[1..]|
        ensures cmds[1..][i].origin == FromTxn && cmds[1..][i].seqNum == first + 1 + i
      {
        assert cmds[1..][i] == cmds[i + 1];
      }
      NumberedSeqs(cmds[1..], first + 1);
      var rest := seq(|cmds[1..]|, i => first + 1 + i);
      assert TxnSeqs(cmds) == [first] + rest;
      assert [first] + rest == seq(|cmds|, i => first + i);
    }
  }

  /** Appending freshly numbered commands keeps a bank's order. */
  lemma OrderAppend(issued: seq<nat>, s: seq<Command>, cmds: seq<Command>, limit: nat)
    requires InOrder(issued, s, limit)
    requires forall i :: 0 <= i < |cmds| ==> cmds[i].origin == FromTxn && cmds[i].seqNum == limit + i
    ensures InOrder(issued, s + cmds, limit + |cmds|)
  {
    TxnSeqsConcat(s, cmds);
    NumberedSeqs(cmds, limit);
    var had := issued + TxnSeqs(s);
    var whole := issued + TxnSeqs(s + cmds);
    assert whole == had + TxnSeqs(cmds);
    forall i, j | 0 <= i < j < |whole|
      ensures whole[i] < whole[j]
    {
      if i < |had| { assert had[i] in had; }
    }
    forall x | x in whole
      ensures x < limit + |cmds|
    {
      var i :| 0 <= i < |whole| && whole[i] == x;
      if i < |had| { assert had[i] in had; }
    }
  }

  /** The upstream state after a conversion. */
  ghost function BacklogOf(v: Converted): Backlog {
    Backlog(v.queues, Beliefs(v.tracked), v.owner)
  }

  lemma ConvertOrigins(s: Setup, v: Converted, txn: Txn, kinds: seq<Kind>, v': Converted, inputQ: seq<Command>,
                       trace: seq<Event>)
    requires txn.bank < |v.queues| && OriginsOk(inputQ, trace, BacklogOf(v)) && REF !in kinds
    requires v'.queues == v.queues[txn.bank := v.queues[txn.bank] + Numbered(kinds, txn, |v.owner|)]
    requires v'.owner == v.owner + seq(|kinds|, i requires 0 <= i < |kinds| => Made(txn, kinds[i]))
    ensures OriginsOk(inputQ, trace, BacklogOf(v'))
  {
    var k, k' := BacklogOf(v), BacklogOf(v');
    forall cmd: Command | Known(cmd, k)
      ensures Known(cmd, k')
    {
    }
    forall b, j | 0 <= b < |k'.queues| && 0 <= j < |k'.queues[b]|
      ensures k'.queues[b][j].origin == FromTxn && k'.queues[b][j].bank == b && Known(k'.queues[b][j], k')
    {
      if j < |k.queues[b]| {
        assert k'.queues[b][j] == k.queues[b][j];
      }
    }
  }

  /** New commands at the end of a bank's queue, walking from where the queue ends. */
  lemma BankFlowAppend(b: Bank, inputQ: seq<Command>, trace: seq<Event>, k: Backlog, k': Backlog, bank: nat,
                       cmds: seq<Command>)
    requires bank < |k.queues| == |k.believed| == |k'.queues| == |k'.believed|
    requires BankFlow(b, inputQ, trace, k, bank)
    requires k'.queues[bank] == k.queues[bank] + cmds && |k'.owner| == |k.owner| + |cmds|
    requires forall i :: 0 <= i < |cmds| ==> cmds[i].origin == FromTxn && cmds[i].seqNum == |k.owner| + i
    requires forall r :: r == Closed || r == k.believed[bank] ==> FlowOk(r, cmds, k'.believed[bank])
    ensures BankFlow(b, inputQ, trace, k', bank)
  {
    hide Walk, InOrder, Replay, Issued;
    var x := Stream(inputQ, k, bank);
    assert Stream(inputQ, k', bank) == x + cmds;
    var r := RowAfter(Eff(b), x);
    assert FlowOk(r, cmds, k'.believed[bank]);
    WalkSplit(Eff(b), x, cmds);
    OrderAppend(Issued(trace, bank), x, cmds, |k.owner|);
  }

  lemma BankFlowOther(b: Bank, inputQ: seq<Command>, trace: seq<Event>, k: Backlog, k': Backlog, bank: nat)
    requires bank < |k.queues| == |k.believed| == |k'.queues| == |k'.believed|
    requires BankFlow(b, inputQ, trace, k, bank)
    requires k'.queues[bank] == k.queues[bank] && k'.believed[bank] == k.believed[bank] && |k.owner| <= |k'.owner|
    ensures BankFlow(b, inputQ, trace, k', bank)
  {}

  /** One conversion keeps the flow of every bank. */
  lemma ConvertFlow(s: Setup, v: Converted, txn: Txn, banks: seq<Bank>, inputQ: seq<Command>, trace: seq<Event>)
    requires txn.bank < |v.queues| && |v.queues| == |v.tracked|
    requires WithinEntries(s, v.queues) && TimersOk(s.policy, v.tracked) && 3 <= Token(s, v.queues[txn.bank])
    requires FlowOn(banks, inputQ, trace, BacklogOf(v))
    ensures FlowOn(banks, inputQ, trace, BacklogOf(ConvertOne(s, v, txn)))
  {
    ConvertFits(s, v, txn);
    var t := v.tracked[txn.bank];
    var kinds := KindsFor(s.policy, t, txn);
    var cmds := Numbered(kinds, txn, |v.owner|);
    var v' := ConvertOne(s, v, txn);
    var k, k' := BacklogOf(v), BacklogOf(v');
    assert v'.owner == v.owner + seq(|kinds|, i requires 0 <= i < |kinds| => Made(txn, kinds[i]));
    assert v'.tracked == v.tracked[txn.bank := NextTracked(s.policy, t, txn)];
    ConvertOrigins(s, v, txn, kinds, v', inputQ, trace);
    hide ConvertOne, KindsFor, NextTracked, BankFlow, Token, WithinEntries, TimersOk, OriginsOk, RowSafe, Increasing;
    forall b | 0 <= b < |banks|
      ensures BankFlow(banks[b], inputQ, trace, k', b)
    {
      assert BankFlow(banks[b], inputQ, trace, k, b);
      if b == txn.bank {
        forall r | r == Closed || r == k.believed[b]
          ensures FlowOk(r, cmds, k'.believed[b])
        {
          KindsWalk(s.policy, t, txn, r, |v.owner|);
        }
        BankFlowAppend(banks[b], inputQ, trace, k, k', b, cmds);
      } else {
        BankFlowOther(banks[b], inputQ, trace, k, k', b);
      }
    }
  }

  // ---------------------------------------------------------------- one cycle, stage by stage

  /** Transactions for different banks, each with room for its commands. */
  ghost predicate Affordable(s: Setup, queues: seq<seq<Command>>, picks: seq<Txn>) {
    && (forall i :: 0 <= i < |picks| ==> picks[i].bank < |queues| && 3 <= Token(s, queues[picks[i].bank]))
    && (forall i, j :: 0 <= i < j < |picks| ==> picks[i].bank != picks[j].bank)
  }

  /** The scheduler hands over at most one transaction per channel, so they are all affordable
      together. */
  lemma {:induction false} PicksAffordable(s: Setup, queues: seq<seq<Command>>, tracked: seq<Tracked>, q: TxnQueues,
                                           ch: nat)
    requires QueuesOk(s, queues, tracked, q) && ch <= s.c.channels
    ensures Affordable(s, queues, PickFrom(s, queues, tracked, q, ch).picks)
    ensures forall i :: 0 <= i < |PickFrom(s, queues, tracked, q, ch).picks| ==>
              ch <= s.c.ChannelOf(PickFrom(s, queues, tracked, q, ch).picks[i].bank)
    decreases s.c.channels - ch
  {
    hide PickChannel, QueuesOk, Token, Affordable;
    if ch < s.c.channels {
      PickChannelOk(s, queues, tracked, q, ch);
      var here := PickChannel(s, queues, tracked, q, ch);
      PicksAffordable(s, queues, tracked, here.q, ch + 1);
      MoreAffordable(s, queues, here.picks, PickFrom(s, queues, tracked, here.q, ch + 1).picks, ch);
    } else {
      NothingAffordable(s, queues);
    }
  }

  lemma NothingAffordable(s: Setup, queues: seq<seq<Command>>)
    ensures Affordable(s, queues, [])
  {}

  /** One channel's pick goes with those of later channels. */
  lemma MoreAffordable(s: Setup, queues: seq<seq<Command>>, here: seq<Txn>, rest: seq<Txn>, ch: nat)
    requires |here| <= 1 && Affordable(s, queues, rest)
    requires forall i :: 0 <= i < |here| ==>
      here[i].bank < |queues| && s.c.ChannelOf(here[i].bank) == ch && 3 <= Token(s, queues[here[i].bank])
    requires forall i :: 0 <= i < |rest| ==> ch < s.c.ChannelOf(rest[i].bank)
    ensures Affordable(s, queues, here + rest)
    ensures forall i :: 0 <= i < |here + rest| ==> ch <= s.c.ChannelOf((here + rest)[i].bank)
  {
    hide Token;
    var all := here + rest;
    forall i | 0 <= i < |all|
      ensures all[i].bank < |queues| && 3 <= Token(s, queues[all[i].bank]) && ch <= s.c.ChannelOf(all[i].bank)
      ensures |here| <= i ==> ch < s.c.ChannelOf(all[i].bank)
    {
      if |here| <= i { assert all[i] == rest[i - |here|]; }
    }
  }

  /** The converter's part of the controller invariant. */
  ghost predicate ConverterInv(s: Setup, d: Driver, v: Converted) {
    && |v.queues| == |v.tracked| && WithinEntries(s, v.queues) && TimersOk(s.policy, v.tracked)
    && Fresh(s.c, d, BacklogOf(v))
  }

  lemma ConvertOneSafe(s: Setup, d: Driver, v: Converted, txn: Txn)
    requires ConverterInv(s, d, v) && txn.bank < |v.queues| && 3 <= Token(s, v.queues[txn.bank])
    ensures ConverterInv(s, d, ConvertOne(s, v, txn)) && ConvertOne(s, v, txn).ok == v.ok
  {
    ConvertFits(s, v, txn);
    ConvertFlow(s, v, txn, d.banks, d.inputQ, d.trace);
    var v' := ConvertOne(s, v, txn);
    hide ConvertOne, WithinEntries, TimersOk, FlowOn;
    SafeOf(s.c, d, BacklogOf(v'), d.banks, d.inputQ, d.trace, d.now);
  }

  /** No assertion of the converter fails. */
  lemma {:induction false} ConvertAllSafe(s: Setup, d: Driver, v: Converted, picks: seq<Txn>)
    requires ConverterInv(s, d, v) && Affordable(s, v.queues, picks)
    ensures ConverterInv(s, d, ConvertAll(s, v, picks)) && ConvertAll(s, v, picks).ok == v.ok
    decreases |picks|
  {
    if picks != [] {
      ConvertOneSafe(s, d, v, picks[0]);
      ConvertFits(s, v, picks[0]);
      var v' := ConvertOne(s, v, picks[0]);
      assert forall i :: 0 <= i < |picks[1..]| ==> picks[1..][i] == picks[i + 1];
      hide ConvertOne, WithinEntries, TimersOk, Fresh;
      ConvertAllSafe(s, d, v', picks[1..]);
    }
  }

  /** Drivers that differ in their input queue and buses only. */
  ghost predicate SameButQueue(d: Driver, d': Driver, q: seq<Command>) {
    && d'.inputQ == q && d'.banks == d.banks && d'.trace == d.trace && d'.now == d.now
    && d'.faw == d.faw && d'.actIssued == d.actIssued
  }

  /** A visit hands the queue's head to the driver, re-opens its row, or leaves both queues. */
  lemma VisitCases(c: Config, d: Driver, queues: seq<seq<Command>>, bank: nat)
    requires Shape(c, d) && |queues| == c.Banks() && bank < c.Banks()
    requires queues[bank] != [] && WfBank(c, queues[bank][0].bank)
    ensures var r := Visit(c, d, queues, bank);
      var cmd := queues[bank][0];
      || (SameButQueue(d, r.0, d.inputQ) && r.1 == queues)
      || (SameButQueue(d, r.0, d.inputQ + [Reopening(cmd)]) && r.1 == queues && IsColumn(cmd.kind))
      || (SameButQueue(d, r.0, d.inputQ + [cmd]) && r.1 == queues[bank := queues[bank][1..]])
  {}

  lemma FreshRequeued(c: Config, d: Driver, d': Driver, k: Backlog, k': Backlog, q: seq<Command>)
    requires Fresh(c, d, k) && Shape(c, d') && SameButQueue(d, d', q) && FlowOn(d.banks, q, d.trace, k')
    ensures Fresh(c, d', k')
  {
    SafeOf(c, d', k', d.banks, q, d.trace, d.now);
  }

  /** The command scheduler keeps the invariant at each bank it looks at. */
  lemma VisitSafe(s: Setup, d: Driver, v: Converted, bank: nat)
    requires ConverterInv(s, d, v) && OwnQueues(s.c, v.queues) && bank < s.c.Banks()
    ensures |v.queues| == s.c.Banks()
    ensures var r := Visit(s.c, d, v.queues, bank); ConverterInv(s, r.0, v.(queues := r.1)) && OwnQueues(s.c, r.1)
  {
    assert Shape(s.c, d) && |v.queues| == s.c.Banks();
    var k := BacklogOf(v);
    assert FlowOn(d.banks, d.inputQ, d.trace, k) && |d.banks| == s.c.Banks() && |k.queues| == s.c.Banks();
    if v.queues[bank] != [] {
      VisitCases(s.c, d, v.queues, bank);
      var cmd := v.queues[bank][0];
      var r := Visit(s.c, d, v.queues, bank);
      var k' := BacklogOf(v.(queues := r.1));
      assert Shape(s.c, r.0);
      hide Visit, Fresh, FlowOn, Shape, TimersOk, Safe;
      if r.1 != v.queues {
        FlowPush(d.banks, d.inputQ, d.trace, k, bank);
        FreshRequeued(s.c, d, r.0, k, k', d.inputQ + [cmd]);
      } else if r.0.inputQ != d.inputQ {
        FlowReopenBack(d.banks, d.inputQ, d.trace, k, bank);
        FreshRequeued(s.c, d, r.0, k, k', d.inputQ + [Reopening(cmd)]);
      } else {
        FreshRequeued(s.c, d, r.0, k, k', d.inputQ);
      }
    }
  }

  lemma {:induction false} VisitAllSafe(s: Setup, d: Driver, v: Converted, order: seq<nat>)
    requires ConverterInv(s, d, v) && OwnQueues(s.c, v.queues)
    requires forall i :: 0 <= i < |order| ==> order[i] < s.c.Banks()
    ensures |v.queues| == s.c.Banks()
    ensures var r := VisitAll(s.c, d, v.queues, order); ConverterInv(s, r.0, v.(queues := r.1))
    decreases |order|
  {
    assert Shape(s.c, d) && |v.queues| == s.c.Banks();
    hide Visit, Shape, ConverterInv, OwnQueues;
    if order == [] {
      assert v.(queues := v.queues) == v;
    } else {
      VisitSafe(s, d, v, order[0]);
      var r := Visit(s.c, d, v.queues, order[0]);
      VisitAllSafe(s, r.0, v.(queues := r.1), order[1..]);
    }
  }

  lemma AgedBeliefs(policy: Policy, tracked: seq<Tracked>)
    ensures Beliefs(Aged(policy, tracked)) == Beliefs(tracked)
    ensures TimersOk(policy, tracked) ==> TimersOk(policy, Aged(policy, tracked))
  {}

  // ---------------------------------------------------------------- whole runs

  ghost function SystemBacklog(y: System): Backlog {
    Backlog(y.queues, Beliefs(y.tracked), y.owner)
  }

  ghost predicate SystemInv(s: Setup, y: System) {
    && SystemShape(s, y) && WithinEntries(s, y.queues) && TimersOk(s.policy, y.tracked)
    && Safe(s.c, y.d, SystemBacklog(y))
  }

  /** What the stages of a cycle need of the state. */
  lemma StepParts(s: Setup, y: System, arrivals: seq<Txn>)
    requires SystemInv(s, y) && RequestsOk(s, y.queues, y.tracked, arrivals)
    ensures Shape(s.c, y.d) && s.c.Valid() && BanksInv(y.d.banks, y.d.now)
    ensures |y.queues| == |y.tracked| == s.c.Banks() && |y.starts| == s.c.channels && OwnQueues(s.c, y.queues)
    ensures QueuesOk(s, y.queues, y.tracked, y.txns) && RequestsOk(s, y.queues, y.tracked, y.reqQ + arrivals)
    ensures |y.txns.allQ| == |y.txns.readQ| == |y.txns.writeQ| == s.c.channels
    ensures forall j :: 0 <= j < |y.reqQ + arrivals| ==> s.c.ChannelOf((y.reqQ + arrivals)[j].bank) < s.c.channels
  {}

  /** One clock cycle keeps the invariant, whatever arrives, and fails no assertion. */
  lemma StepSafe(s: Setup, y: System, arrivals: seq<Txn>)
    requires SystemInv(s, y) && RequestsOk(s, y.queues, y.tracked, arrivals)
    ensures SystemInv(s, Step(s, y, arrivals).0) && Step(s, y, arrivals).1
  {
    var d0 := Update(s.c, y.d);
    AcceptOk(s, y.queues, y.tracked, y.txns, y.reqQ + arrivals);
    var accepted := Accept(s, y.txns, y.reqQ + arrivals);
    var v0 := Converted(y.queues, y.tracked, y.owner, true);
    var picked := PickFrom(s, y.queues, y.tracked, accepted.0, 0);
    var order := VisitOrder(s.c, y.starts, 0);
    ConvertAllOwn(s, v0, picked.picks);
    VisitOrderOk(s.c, y.starts, 0);
    PicksAffordable(s, y.queues, y.tracked, accepted.0, 0);
    FreshUpdate(s.c, y.d, SystemBacklog(y));
    assert ConverterInv(s, d0, v0);
    ConvertAllSafe(s, d0, v0, picked.picks);
    var v := ConvertAll(s, v0, picked.picks);
    VisitAllSafe(s, d0, v, order);
    var visited := VisitAll(s.c, d0, v.queues, order);
    SafeRun(s.c, visited.0, BacklogOf(v.(queues := visited.1)));
    AgedBeliefs(s.policy, v.tracked);
  }

  /** Transactions the hashed address of which names a bank of the memory. */
  ghost predicate ArrivalsOk(c: Config, arrivals: seq<Txn>) {
    forall i :: 0 <= i < |arrivals| ==> arrivals[i].bank < c.Banks()
  }

  lemma ArrivalsAreRequests(s: Setup, y: System, arrivals: seq<Txn>)
    requires SystemShape(s, y) && ArrivalsOk(s.c, arrivals)
    ensures RequestsOk(s, y.queues, y.tracked, arrivals)
  {}

  function Start(s: Setup): (y: System)
    requires s.c.Valid()
    ensures SystemShape(s, y)
  {
    var none: seq<seq<Txn>> := seq(s.c.channels, i => []);
    System(Initial(s.c), seq(s.c.Banks(), i => []), seq(s.c.channels, i => 0),
           seq(s.c.Banks(), i => Tracked(false, 0, 0)), [],
           TxnQueues(none, none, none, false), [])
  }

  /** The controller after one cycle for each batch of arrivals, and whether all its
      assertions held. */
  function RunSystem(s: Setup, batches: seq<seq<Txn>>): (r: (System, bool))
    requires s.c.Valid() && forall n :: 0 <= n < |batches| ==> ArrivalsOk(s.c, batches[n])
    ensures SystemShape(s, r.0)
  {
    if batches == [] then (Start(s), true)
    else
      var n := |batches| - 1;
      var before := RunSystem(s, batches[..n]);
      ArrivalsAreRequests(s, before.0, batches[n]);
      var after := Step(s, before.0, batches[n]);
      (after.0, before.1 && after.1)
  }

  lemma StartSafe(s: Setup)
    requires s.c.Valid()
    ensures SystemInv(s, Start(s))
  {
    var y := Start(s);
    var k := SystemBacklog(y);
    InitialSpacing(s.c);
    InitialFaw(s.c);
    forall b | 0 <= b < |y.d.banks|
      ensures BankFlow(y.d.banks[b], [], [], k, b)
    {
      assert Stream([], k, b) == [];
    }
    SafeOf(s.c, y.d, k, y.d.banks, [], [], 0);
  }

  lemma {:induction false} RunInv(s: Setup, batches: seq<seq<Txn>>)
    requires s.c.Valid() && forall n :: 0 <= n < |batches| ==> ArrivalsOk(s.c, batches[n])
    ensures SystemInv(s, RunSystem(s, batches).0) && RunSystem(s, batches).1
  {
    hide SystemInv, SystemShape, Step, ArrivalsOk, RequestsOk, Start;
    if batches == [] {
      StartSafe(s);
    } else {
      var n := |batches| - 1;
      RunInv(s, batches[..n]);
      var before := RunSystem(s, batches[..n]).0;
      ArrivalsAreRequests(s, before, batches[n]);
      StepSafe(s, before, batches[n]);
    }
  }

  /** In every run, whatever arrives: all commands keep their distances, column commands meet
      their own row and ACT and REF a closed bank, no rank sees five ACTs within nFAW cycles,
      each bank receives the commands of its transactions in the order the converter made them,
      and no assertion of the converter or the command queues fails. */
  lemma RunsAreSafe(s: Setup, batches: seq<seq<Txn>>)
    requires s.c.Valid() && forall n :: 0 <= n < |batches| ==> ArrivalsOk(s.c, batches[n])
    ensures var trace := RunSystem(s, batches).0.d.trace;
      PairwiseSafe(s.c, trace) && RowSafe(trace) && FawSafe(s.c, trace) && SameBankInOrder(trace)
    ensures RunSystem(s, batches).1 && WithinEntries(s, RunSystem(s, batches).0.queues)
  {
    RunInv(s, batches);
    IssuedOrder(RunSystem(s, batches).0.d.trace);
  }
}
