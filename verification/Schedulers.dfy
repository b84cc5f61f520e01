/** The transaction scheduler, converter and command scheduler objects, each method proved
    against the controller as a value. */
module Schedulers {
  import opened Sequences
  import opened Arithmetic
  import opened Options
  import opened Dram
  import opened BankModel
  import opened DriverModel
  import opened ControllerModel
  import opened Choices
  import opened DeviceDrivers

  // ---------------------------------------------------------------- c_CmdScheduler

  ghost predicate InBanks(c: Config, order: seq<nat>) {
    forall i :: 0 <= i < |order| ==> order[i] < c.Banks()
  }

  lemma {:induction false} VisitAllConcat(c: Config, d: Driver, queues: seq<seq<Command>>, a: seq<nat>, b: seq<nat>)
    requires Shape(c, d) && |queues| == c.Banks() && OwnQueues(c, queues) && InBanks(c, a) && InBanks(c, b)
    ensures InBanks(c, a + b) && OwnQueues(c, VisitAll(c, d, queues, a).1)
    ensures VisitAll(c, d, queues, a + b) == VisitAll(c, VisitAll(c, d, queues, a).0, VisitAll(c, d, queues, a).1, b)
    decreases |a|
  {
    assert c.Valid();
    hide Shape;
    if a == [] {
      assert a + b == b;
    } else {
      assert (a + b)[1..] == a[1..] + b;
      var v := Visit(c, d, queues, a[0]);
      VisitOwn(c, d, queues, a[0]);
      VisitAllConcat(c, v.0, v.1, a[1..], b);
    }
  }

  lemma OrderSplits(c: Config, starts: seq<nat>, ch: nat)
    requires c.Valid() && |starts| == c.channels && ch < c.channels
    ensures InBanks(c, VisitOrder(c, starts, ch)) && InBanks(c, VisitOrder(c, starts, ch + 1))
    ensures VisitOrder(c, starts, ch) == ChannelOrder(c.banksOfChannel[ch], starts[ch]) + VisitOrder(c, starts, ch + 1)
  {
    VisitOrderOk(c, starts, ch);
    VisitOrderOk(c, starts, ch + 1);
  }

  /** A round over `whole` is a round over its first part, then over the rest. */
  lemma RoundStep(c: Config, d: Driver, queues: seq<seq<Command>>, whole: seq<nat>, a: seq<nat>, b: seq<nat>,
                  v: (Driver, seq<seq<Command>>))
    requires Shape(c, d) && |queues| == c.Banks() && OwnQueues(c, queues) && InBanks(c, a) && InBanks(c, b)
    requires whole == a + b
    requires v == VisitAll(c, d, queues, a)
    ensures InBanks(c, whole) && Shape(c, v.0) && |v.1| == |queues| && OwnQueues(c, v.1)
    ensures VisitAll(c, d, queues, whole) == VisitAll(c, v.0, v.1, b)
  {
    hide Shape, OwnQueues, VisitAll;
    VisitAllConcat(c, d, queues, a, b);
  }

  /** Some step of a round reaches position `k`. */
  lemma AroundReaches(start: nat, n: nat, k: nat) returns (i: nat)
    requires k < n
    ensures i < n && Around(start, i, n) == k
  {
    var q, r := start / n, start % n;
    assert start == n * q + r;
    if r <= k {
      i := k - r;
      DivMod(n, q, k, start + i);
    } else {
      i := k + n - r;
      assert n * (q + 1) == n * q + n;
      DivMod(n, q + 1, k, start + i);
    }
  }

  /** No two steps of a round reach the same position. */
  lemma AroundDiffers(start: nat, n: nat, i: nat, j: nat)
    requires i < j < n
    ensures Around(start, i, n) != Around(start, j, n)
  {
    var a, b := (start + i) / n, (start + j) / n;
    assert start + i == n * a + Around(start, i, n) && start + j == n * b + Around(start, j, n);
    if Around(start, i, n) == Around(start, j, n) {
      assert n * (b - a) == n * b - n * a;
      SmallMultiple(n, b - a);
    }
  }

  /** A round visits every bank of the channel exactly once, wherever it starts. */
  lemma RoundVisitsAll(banks: seq<nat>, start: nat)
    ensures forall b :: b in ChannelOrder(banks, start) <==> b in banks
    ensures NoRepeats(banks) ==> NoRepeats(ChannelOrder(banks, start))
  {
    hide Around;
    var order := ChannelOrder(banks, start);
    forall b | b in banks
      ensures b in order
    {
      var k :| 0 <= k < |banks| && banks[k] == b;
      var i := AroundReaches(start, |banks|, k);
      assert order[i] == b;
    }
    if NoRepeats(banks) {
      forall i, j | 0 <= i < j < |order|
        ensures order[i] != order[j]
      {
        AroundDiffers(start, |banks|, i, j);
      }
    }
  }

  class CmdScheduler {
    const s: Setup
    var queues: seq<seq<Command>>
    var starts: seq<nat>

    ghost predicate Valid()
      reads this
    {
      s.c.Valid() && |queues| == s.c.Banks() && |starts| == s.c.channels && OwnQueues(s.c, queues)
    }

    constructor (setup: Setup)
      requires setup.c.Valid()
      ensures Valid() && s == setup && queues == seq(s.c.Banks(), i => []) && starts == seq(s.c.channels, i => 0)
    {
      s := setup;
      queues := seq(setup.c.Banks(), i => []);
      starts := seq(setup.c.channels, i => 0);
    }

    function GetToken(bank: nat): (n: nat)
      reads this
      requires bank < |queues|
      ensures n == Token(s, queues[bank])
    {
      if |queues[bank]| <= s.cmdEntries then s.cmdEntries - |queues[bank]|
      else UINT32 - (|queues[bank]| - s.cmdEntries) % UINT32
    }

    method PushCmd(cmd: Command) returns (ok: bool)
      requires cmd.bank < |queues|
      modifies this`queues
      ensures ok == (|old(queues)[cmd.bank]| < s.cmdEntries)
      ensures queues == if ok then old(queues)[cmd.bank := old(queues)[cmd.bank] + [cmd]] else old(queues)
    {
      ok := |queues[cmd.bank]| < s.cmdEntries;
      if ok { queues := queues[cmd.bank := queues[cmd.bank] + [cmd]]; }
    }

    /** Look at one bank's queue. */
    method VisitBank(driver: DeviceDriver, bank: nat)
      requires Valid() && driver.Valid() && driver.c == s.c && bank < s.c.Banks()
      modifies this`queues, driver
      ensures Valid() && driver.Valid()
      ensures (driver.View(), queues) == Visit(s.c, old(driver.View()), old(queues), bank)
    {
      assert OwnQueue(s.c, queues[bank], bank);
      VisitOwn(s.c, driver.View(), queues, bank);
      hide Shape, OwnQueues;
      if queues[bank] != [] {
        var cmd := queues[bank][0];
        var allowed := driver.IsCmdAllowed(cmd);
        if allowed {
          var ok := driver.PushCommand(cmd);
          if ok { queues := queues[bank := queues[bank][1..]]; }
        }
      }
    }

    method VisitChannel(driver: DeviceDriver, ch: nat)
      requires Valid() && driver.Valid() && driver.c == s.c && ch < s.c.channels
      modifies this`queues, driver
      ensures Valid() && driver.Valid()
      ensures InBanks(s.c, ChannelOrder(s.c.banksOfChannel[ch], starts[ch]))
      ensures (driver.View(), queues) ==
        VisitAll(s.c, old(driver.View()), old(queues), ChannelOrder(s.c.banksOfChannel[ch], starts[ch]))
    {
      var banks := s.c.banksOfChannel[ch];
      ghost var order := ChannelOrder(banks, starts[ch]);
      ghost var d0, q0 := driver.View(), queues;
      assert InBanks(s.c, order);
      hide Shape, OwnQueues, Visit, Around;
      for i := 0 to |banks|
        invariant Valid() && driver.Valid()
        invariant VisitAll(s.c, driver.View(), queues, order[i..]) == VisitAll(s.c, d0, q0, order)
      {
        assert order[i..][0] == order[i] && order[i..][1..] == order[i + 1..];
        VisitBank(driver, banks[Around(starts[ch], i, |banks|)]);
      }
      assert order[|banks|..] == [];
    }

    method AdvanceStart(ch: nat)
      requires Valid() && ch < s.c.channels
      modifies this`starts
      ensures Valid() && starts == old(starts)[ch := NextStarts(s.c, old(starts))[ch]]
    {
      if |s.c.banksOfChannel[ch]| != 0 { starts := starts[ch := Around(starts[ch], 1, |s.c.banksOfChannel[ch]|)]; }
    }

    method RunCommands(driver: DeviceDriver)
      requires Valid() && driver.Valid() && driver.c == s.c
      modifies this, driver
      ensures Valid() && driver.Valid()
      ensures starts == NextStarts(s.c, old(starts))
      ensures InBanks(s.c, VisitOrder(s.c, old(starts), 0))
      ensures (driver.View(), queues) == VisitAll(s.c, old(driver.View()), old(queues), VisitOrder(s.c, old(starts), 0))
    {
      hide Shape, OwnQueues, VisitAll, ChannelOrder, VisitOrder, NextStarts;
      ghost var d0, q0, was := driver.View(), queues, starts;
      ghost var order := VisitOrder(s.c, was, 0);
      RoundStarts(s.c, was);
      for ch := 0 to s.c.channels
        invariant Valid() && driver.Valid() && StartsAt(s.c, was, starts, ch)
        invariant InBanks(s.c, VisitOrder(s.c, was, ch))
        invariant VisitAll(s.c, driver.View(), queues, VisitOrder(s.c, was, ch)) == VisitAll(s.c, d0, q0, order)
      {
        ghost var d, q := driver.View(), queues;
        VisitChannel(driver, ch);
        OrderSplits(s.c, was, ch);
        RoundStep(s.c, d, q, VisitOrder(s.c, was, ch), ChannelOrder(s.c.banksOfChannel[ch], was[ch]),
                  VisitOrder(s.c, was, ch + 1), (driver.View(), queues));
        StartsStep(s.c, was, starts, ch);
        AdvanceStart(ch);
      }
      StartsDone(s.c, was, starts);
      VisitNone(s.c, driver.View(), queues, was);
    }
  }

  lemma RoundStarts(c: Config, starts: seq<nat>)
    requires c.Valid() && |starts| == c.channels
    ensures InBanks(c, VisitOrder(c, starts, 0)) && StartsAt(c, starts, starts, 0)
  {
    VisitOrderOk(c, starts, 0);
  }

  lemma StartsDone(c: Config, was: seq<nat>, starts: seq<nat>)
    requires |was| == c.channels == |c.banksOfChannel| && StartsAt(c, was, starts, c.channels)
    ensures starts == NextStarts(c, was)
  {}

  /** The starts when the channels below `ch` have had their turn. */
  ghost predicate StartsAt(c: Config, was: seq<nat>, starts: seq<nat>, ch: nat)
    requires |was| == c.channels == |c.banksOfChannel|
  {
    |starts| == |was| && forall k :: 0 <= k < |was| ==> starts[k] == if k < ch then NextStarts(c, was)[k] else was[k]
  }

  lemma StartsStep(c: Config, was: seq<nat>, starts: seq<nat>, ch: nat)
    requires |was| == c.channels == |c.banksOfChannel| && ch < c.channels && StartsAt(c, was, starts, ch)
    ensures NextStarts(c, starts)[ch] == NextStarts(c, was)[ch]
    ensures StartsAt(c, was, starts[ch := NextStarts(c, starts)[ch]], ch + 1)
  {}

  lemma VisitNone(c: Config, d: Driver, queues: seq<seq<Command>>, starts: seq<nat>)
    requires Shape(c, d) && |queues| == c.Banks() && OwnQueues(c, queues) && |starts| == c.channels
    ensures VisitAll(c, d, queues, VisitOrder(c, starts, c.channels)) == (d, queues)
  {}

  // ---------------------------------------------------------------- c_TxnScheduler

  lemma DependencySuffix(q: seq<Txn>, x: Txn, i: nat)
    requires i < |q|
    ensures HasDependency(q[i..], x) ==
      if q[i].addr == x.addr && q[i].seqNum < x.seqNum then true
      else if q[i].seqNum >= x.seqNum then false else HasDependency(q[i + 1..], x)
  {
    assert q[i..][0] == q[i] && q[i..][1..] == q[i + 1..];
  }

  /** The scan for an older transaction to the same address. */
  method FindDependency(q: seq<Txn>, x: Txn) returns (found: bool)
    ensures found == HasDependency(q, x)
  {
    found := false;
    var i := 0;
    while i < |q|
      invariant 0 <= i <= |q|
      invariant HasDependency(q, x) == (found || HasDependency(q[i..], x))
    {
      DependencySuffix(q, x, i);
      if q[i].addr == x.addr && q[i].seqNum < x.seqNum { found := true; }
      if q[i].seqNum >= x.seqNum { break; }
      i := i + 1;
    }
  }

  class TxnScheduler {
    const s: Setup
    var allQ: seq<seq<Txn>>
    var readQ: seq<seq<Txn>>
    var writeQ: seq<seq<Txn>>
    var flush: bool

    ghost function View(): TxnQueues
      reads this
    {
      TxnQueues(allQ, readQ, writeQ, flush)
    }

    constructor (setup: Setup)
      ensures s == setup && allQ == readQ == writeQ == seq(s.c.channels, i => []) && !flush
    {
      s := setup;
      var none: seq<seq<Txn>> := seq(setup.c.channels, i => []);
      allQ, readQ, writeQ, flush := none, none, none, false;
    }

    method Push(t: Txn) returns (ok: bool)
      requires |allQ| == |readQ| == |writeQ| == s.c.channels && s.c.ChannelOf(t.bank) < s.c.channels
      modifies this
      ensures (View(), ok) == PushTxn(s, old(View()), t)
    {
      var ch := s.c.ChannelOf(t.bank);
      if !s.readFirst {
        ok := |allQ[ch]| < s.txnEntries;
        if ok { allQ := allQ[ch := allQ[ch] + [t]]; }
      } else if t.isRead {
        ok := |readQ[ch]| < s.txnEntries;
        if ok { readQ := readQ[ch := readQ[ch] + [t]]; }
      } else {
        ok := |writeQ[ch]| < s.txnEntries;
        if ok { writeQ := writeQ[ch := writeQ[ch] + [t]]; }
      }
    }

    /** A read finds a queued write to its address. */
    method IsHit(t: Txn) returns (found: bool)
      requires s.c.ChannelOf(t.bank) < |allQ| && s.c.ChannelOf(t.bank) < |writeQ|
      ensures found == HitsQueue(s, View(), t)
    {
      if !t.isRead { return false; }
      var line := if !s.readFirst then allQ[s.c.ChannelOf(t.bank)] else writeQ[s.c.ChannelOf(t.bank)];
      found := false;
      for i := |line| downto 0
        invariant !found && forall k :: i <= k < |line| ==> line[k].isRead || line[k].addr != t.addr
      {
        if !line[i].isRead && line[i].addr == t.addr { return true; }
      }
    }

    /** Room for three commands, and no older transaction to the same address. */
    method IsReady(cmds: CmdScheduler, ch: nat, x: Txn) returns (ok: bool)
      requires cmds.s == s && ch < |allQ| && ch < |readQ| && ch < |writeQ| && x.bank < |cmds.queues|
      ensures ok == Ready(s, cmds.queues, View(), ch, x)
    {
      ok := false;
      if 3 <= cmds.GetToken(x.bank) {
        var depends := FindDependency(if !s.readFirst then allQ[ch] else if x.isRead then writeQ[ch] else readQ[ch], x);
        ok := !depends;
      }
    }

    method GetNext(cmds: CmdScheduler, tracked: seq<Tracked>, line: seq<Txn>, ch: nat) returns (r: Option<nat>)
      requires cmds.s == s && ch < |allQ| && ch < |readQ| && ch < |writeQ|
      requires forall j :: 0 <= j < |line| ==> line[j].bank < |cmds.queues| && line[j].bank < |tracked|
      ensures r == Choose(s, cmds.queues, tracked, View(), ch, line)
      ensures TrackedFits(s.policy, tracked) ==> IsBest(s, cmds.queues, tracked, View(), ch, line, r)
    {
      if TrackedFits(s.policy, tracked) { ChoiceIsBest(s, cmds.queues, tracked, View(), ch, line); }
      hide TrackedFits, IsBest;
      r := None;
      if line == [] { return; }
      if !s.firstReady {
        var ready := IsReady(cmds, ch, line[0]);
        if ready { r := Some(0); }
        return;
      }
      var i := 0;
      while i < |line|
        invariant 0 <= i <= |line|
        invariant r.Some? ==> r.value < |line| && Ready(s, cmds.queues, View(), ch, line[r.value])
        invariant Scan(s, cmds.queues, tracked, View(), ch, line, i, r) ==
          Choose(s, cmds.queues, tracked, View(), ch, line)
      {
        var ready := IsReady(cmds, ch, line[i]);
        if ready {
          r := Some(i);
          if tracked[line[i].bank].open && tracked[line[i].bank].row == line[i].row { return; }
        }
        i := i + 1;
      }
    }

    /** Start or stop flushing writes. */
    method UpdateFlush(ch: nat)
      requires ch < |readQ| && ch < |writeQ|
      modifies this`flush
      ensures View() == Flushed(s, old(View()), ch)
    {
      if s.readFirst {
        if |writeQ[ch]| >= s.maxPendingWrite || |readQ[ch]| == 0 {
          flush := true;
        } else if |writeQ[ch]| < s.minPendingWrite && |readQ[ch]| != 0 {
          flush := false;
        }
      }
    }

    /** The queue and position of the channel's next transaction. */
    method SelectNext(cmds: CmdScheduler, tracked: seq<Tracked>, ch: nat) returns (w: Line, pick: Option<nat>)
      requires cmds.s == s && QueuesOk(s, cmds.queues, tracked, View()) && ch < s.c.channels
      ensures Selection(s, cmds.queues, tracked, View(), ch) == (if pick.Some? then Some((w, pick.value)) else None)
    {
      w := if !s.readFirst then AllLine else if flush then WriteLine else ReadLine;
      var line := if !s.readFirst then allQ[ch] else if flush then writeQ[ch] else readQ[ch];
      assert TxnsOk(s, cmds.queues, tracked, allQ[ch], ch) && TxnsOk(s, cmds.queues, tracked, readQ[ch], ch)
        && TxnsOk(s, cmds.queues, tracked, writeQ[ch], ch);
      hide QueuesOk, Choose;
      pick := GetNext(cmds, tracked, line, ch);
      if s.readFirst && pick.None? {
        w := if flush then ReadLine else WriteLine;
        line := if flush then readQ[ch] else writeQ[ch];
        pick := GetNext(cmds, tracked, line, ch);
      }
    }

    /** Take the transaction out of its queue. */
    method Pop(w: Line, ch: nat, i: nat) returns (t: Txn)
      requires ch < |allQ| && ch < |readQ| && ch < |writeQ| && i < |LineOf(View(), w, ch)|
      modifies this
      ensures t == LineOf(old(View()), w, ch)[i]
      ensures View() == WithLine(old(View()), w, ch, Without(LineOf(old(View()), w, ch), i))
    {
      match w {
        case AllLine =>
          t := allQ[ch][i];
          allQ := allQ[ch := allQ[ch][..i] + allQ[ch][i + 1..]];
        case ReadLine =>
          t := readQ[ch][i];
          readQ := readQ[ch := readQ[ch][..i] + readQ[ch][i + 1..]];
        case WriteLine =>
          t := writeQ[ch][i];
          writeQ := writeQ[ch := writeQ[ch][..i] + writeQ[ch][i + 1..]];
      }
    }

    /** One channel: pick a transaction and take it out of its queue. */
    method RunChannel(cmds: CmdScheduler, tracked: seq<Tracked>, ch: nat) returns (picks: seq<Txn>)
      requires cmds.s == s && QueuesOk(s, cmds.queues, tracked, View()) && ch < s.c.channels
      modifies this
      ensures Picked(View(), picks) == PickChannel(s, cmds.queues, tracked, old(View()), ch)
    {
      UpdateFlush(ch);
      var w, pick := SelectNext(cmds, tracked, ch);
      picks := [];
      if pick.Some? {
        var t := Pop(w, ch, pick.value);
        picks := [t];
      }
    }

    method RunAll(cmds: CmdScheduler, tracked: seq<Tracked>) returns (picks: seq<Txn>)
      requires cmds.s == s && QueuesOk(s, cmds.queues, tracked, View())
      modifies this
      ensures Picked(View(), picks) == PickFrom(s, cmds.queues, tracked, old(View()), 0)
    {
      hide QueuesOk, PickChannel, PickFrom;
      picks := [];
      ghost var all := PickFrom(s, cmds.queues, tracked, View(), 0);
      EmptyIsUnit(all.picks);
      for ch := 0 to s.c.channels
        invariant QueuesOk(s, cmds.queues, tracked, View())
        invariant var rest := PickFrom(s, cmds.queues, tracked, View(), ch);
          all.q == rest.q && all.picks == picks + rest.picks
      {
        PickFromStep(s, cmds.queues, tracked, View(), ch, picks);
        var here := RunChannel(cmds, tracked, ch);
        picks := picks + here;
      }
      PickFromEnd(s, cmds.queues, tracked, View(), picks);
    }
  }

  lemma PickFromStep(s: Setup, queues: seq<seq<Command>>, tracked: seq<Tracked>, q: TxnQueues, ch: nat, picks: seq<Txn>)
    requires QueuesOk(s, queues, tracked, q) && ch < s.c.channels
    ensures var here := PickChannel(s, queues, tracked, q, ch);
      && QueuesOk(s, queues, tracked, here.q)
      && var rest, all := PickFrom(s, queues, tracked, here.q, ch + 1), PickFrom(s, queues, tracked, q, ch);
         all.q == rest.q && picks + all.picks == (picks + here.picks) + rest.picks
  {
    hide QueuesOk, PickChannel;
    PickChannelOk(s, queues, tracked, q, ch);
    var here := PickChannel(s, queues, tracked, q, ch);
    Assoc(picks, here.picks, PickFrom(s, queues, tracked, here.q, ch + 1).picks);
  }

  lemma PickFromEnd(s: Setup, queues: seq<seq<Command>>, tracked: seq<Tracked>, q: TxnQueues, picks: seq<Txn>)
    requires QueuesOk(s, queues, tracked, q)
    ensures var rest := PickFrom(s, queues, tracked, q, s.c.channels); rest.q == q && picks + rest.picks == picks
  {
    hide QueuesOk;
    EmptyIsUnit(picks);
  }

  // ---------------------------------------------------------------- c_TxnConverter

  class TxnConverter {
    const s: Setup
    var tracked: seq<Tracked>
    var owner: seq<Made>

    constructor (setup: Setup)
      ensures s == setup && tracked == seq(s.c.Banks(), i => Tracked(false, 0, 0)) && owner == []
    {
      s := setup;
      tracked := seq(setup.c.Banks(), i => Tracked(false, 0, 0));
      owner := [];
    }

    /** The commands of a transaction; the tracked row and timer follow. */
    method GetCommands(txn: Txn) returns (cmds: seq<Command>)
      requires txn.bank < |tracked|
      modifies this
      ensures cmds == Numbered(KindsFor(s.policy, old(tracked)[txn.bank], txn), txn, |old(owner)|)
      ensures tracked == old(tracked)[txn.bank := NextTracked(s.policy, old(tracked)[txn.bank], txn)]
      ensures owner == old(owner) + seq(|cmds|, i requires 0 <= i < |cmds| => Made(txn, cmds[i].kind))
    {
      var t := tracked[txn.bank];
      var kinds := [];
      if s.policy.ClosePage? {
        kinds := [ACT];
      } else if t.open {
        if t.row != txn.row {
          kinds := [PRE, ACT];
          if s.policy.PseudoOpen? { t := t.(timer := s.policy.closeTime); }
        }
      } else {
        kinds := [ACT];
        if s.policy.PseudoOpen? { t := t.(timer := s.policy.closeTime); }
      }
      assert kinds == PreKinds(s.policy, tracked[txn.bank], txn);
      assert t.timer == TimerAfter(s.policy, tracked[txn.bank], txn);
      kinds := kinds + [if txn.isRead then READ else WRITE];
      var closes := s.policy.ClosePage? || (s.policy.PseudoOpen? && t.timer == 0);
      if closes { kinds := kinds + [PRE]; }
      assert kinds == KindsFor(s.policy, tracked[txn.bank], txn);
      t := if closes then t.(open := false) else t.(open := true, row := txn.row);
      tracked := tracked[txn.bank := t];
      cmds := Numbered(kinds, txn, |owner|);
      owner := owner + seq(|kinds|, i requires 0 <= i < |kinds| => Made(txn, kinds[i]));
    }

    /** Push the commands of one transaction. */
    method PushAllTo(sched: CmdScheduler, bank: nat, cmds: seq<Command>) returns (ok: bool)
      requires sched.s == s && bank < |sched.queues| && forall i :: 0 <= i < |cmds| ==> cmds[i].bank == bank
      modifies sched`queues
      ensures var pushed := PushAll(s, old(sched.queues)[bank], cmds);
        ok == pushed.1 && sched.queues == old(sched.queues)[bank := pushed.0]
    {
      ok := true;
      ghost var all := PushAll(s, sched.queues[bank], cmds);
      for i := 0 to |cmds|
        invariant |sched.queues| == |old(sched.queues)|
        invariant sched.queues == old(sched.queues)[bank := sched.queues[bank]]
        invariant var rest := PushAll(s, sched.queues[bank], cmds[i..]);
          all.0 == rest.0 && all.1 == (ok && rest.1)
      {
        assert cmds[i..][0] == cmds[i] && cmds[i..][1..] == cmds[i + 1..];
        var pushed := sched.PushCmd(cmds[i]);
        ok := ok && pushed;
      }
    }

    method ConvertTxn(sched: CmdScheduler, txn: Txn, ok0: bool) returns (ok: bool)
      requires sched.s == s && txn.bank < |tracked| && txn.bank < |sched.queues|
      modifies this, sched`queues
      ensures Converted(sched.queues, tracked, owner, ok) ==
        ConvertOne(s, Converted(old(sched.queues), old(tracked), old(owner), ok0), txn)
    {
      if sched.GetToken(txn.bank) < 3 { return false; }
      var cmds := GetCommands(txn);
      ghost var kinds := KindsFor(s.policy, old(tracked[txn.bank]), txn);
      hide KindsFor, NextTracked;
      assert seq(|cmds|, i requires 0 <= i < |cmds| => Made(txn, cmds[i].kind)) ==
        seq(|kinds|, i requires 0 <= i < |kinds| => Made(txn, kinds[i]));
      var pushed := PushAllTo(sched, txn.bank, cmds);
      ok := ok0 && pushed;
    }

    method ConvertPicks(sched: CmdScheduler, picks: seq<Txn>) returns (ok: bool)
      requires sched.s == s
      requires forall i :: 0 <= i < |picks| ==> picks[i].bank < |tracked| && picks[i].bank < |sched.queues|
      modifies this, sched`queues
      ensures var v := ConvertAll(s, Converted(old(sched.queues), old(tracked), old(owner), true), picks);
        sched.queues == v.queues && tracked == v.tracked && owner == v.owner && ok == v.ok
    {
      ok := true;
      ghost var all := ConvertAll(s, Converted(sched.queues, tracked, owner, true), picks);
      hide ConvertOne;
      for i := 0 to |picks|
        invariant |tracked| == |old(tracked)| && |sched.queues| == |old(sched.queues)|
        invariant all == ConvertAll(s, Converted(sched.queues, tracked, owner, ok), picks[i..])
      {
        assert picks[i..][0] == picks[i] && picks[i..][1..] == picks[i + 1..];
        ConvertSizes(s, Converted(sched.queues, tracked, owner, ok), picks[i]);
        ok := ConvertTxn(sched, picks[i], ok);
      }
    }

    /** The pseudo-open timers count down. */
    method AgeTimers()
      modifies this`tracked
      ensures tracked == Aged(s.policy, old(tracked))
    {
      if s.policy.PseudoOpen? {
        for i := 0 to |tracked|
          invariant |tracked| == |old(tracked)|
          invariant forall k :: i <= k < |tracked| ==> tracked[k] == old(tracked)[k]
          invariant forall k :: 0 <= k < i ==> tracked[k] == Aged(s.policy, old(tracked))[k]
        {
          if tracked[i].open && 0 < tracked[i].timer {
            tracked := tracked[i := tracked[i].(timer := tracked[i].timer - 1)];
          }
        }
      }
    }
  }

  lemma ConvertSizes(s: Setup, v: Converted, txn: Txn)
    requires txn.bank < |v.queues| && txn.bank < |v.tracked|
    ensures |ConvertOne(s, v, txn).queues| == |v.queues| && |ConvertOne(s, v, txn).tracked| == |v.tracked|
  {}
}
