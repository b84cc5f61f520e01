/** The device driver object: banks, queues, buses and trackers updated in place, each method
    proved against the driver as a value. */
module DeviceDrivers {
  import opened Sequences
  import opened Dram
  import opened BankModel
  import opened DriverModel
  import opened BankInfos

  ghost function Views(banks: seq<BankInfo>): (r: seq<Bank>)
    reads banks
    ensures |r| == |banks|
  {
    seq(|banks|, i requires 0 <= i < |banks| reads banks => banks[i].View())
  }

  // ---------------------------------------------------------------- spacing loops

  /** Bank `i` after the loop that serves the banks at distance `near`. */
  ghost function SpreadOn(c: Config, near: Nearness, b: Bank, i: nat, cmd: Command, now: nat): Bank
    requires c.Valid()
  {
    if i != cmd.bank && Near(c, cmd.bank, i) == near then Spread(c, b, i, cmd, now) else b
  }

  /** c_BankGroup: the other banks of the group. */
  method RaiseOthersInGroup(c: Config, banks: seq<BankInfo>, cmd: Command, now: nat)
    requires c.Valid() && NoRepeats(banks)
    modifies banks
    ensures forall i :: 0 <= i < |banks| ==>
      banks[i].View() == SpreadOn(c, SameGroup, old(banks[i].View()), i, cmd, now)
  {
    for k := 0 to |banks|
      invariant forall i :: k <= i < |banks| ==> banks[i].View() == old(banks[i].View())
      invariant forall i :: 0 <= i < k ==> banks[i].View() == SpreadOn(c, SameGroup, old(banks[i].View()), i, cmd, now)
    {
      if k != cmd.bank && c.GroupOf(k) == c.GroupOf(cmd.bank) { banks[k].RaiseForGroup(c.p, cmd.kind, now); }
    }
  }

  /** c_Rank: the banks of the rank's other groups. */
  method RaiseOthersInRank(c: Config, banks: seq<BankInfo>, cmd: Command, now: nat)
    requires c.Valid() && NoRepeats(banks)
    modifies banks
    ensures forall i :: 0 <= i < |banks| ==> banks[i].View() == SpreadOn(c, SameRank, old(banks[i].View()), i, cmd, now)
  {
    for k := 0 to |banks|
      invariant forall i :: k <= i < |banks| ==> banks[i].View() == old(banks[i].View())
      invariant forall i :: 0 <= i < k ==> banks[i].View() == SpreadOn(c, SameRank, old(banks[i].View()), i, cmd, now)
    {
      if c.RankOf(k) == c.RankOf(cmd.bank) && c.GroupOf(k) != c.GroupOf(cmd.bank) {
        banks[k].RaiseForRank(c.p, cmd.kind, now);
      }
    }
  }

  /** c_Channel: the banks of the channel's other ranks. */
  method RaiseOthersInChannel(c: Config, banks: seq<BankInfo>, cmd: Command, now: nat)
    requires c.Valid() && NoRepeats(banks)
    modifies banks
    ensures forall i :: 0 <= i < |banks| ==>
      banks[i].View() == SpreadOn(c, SameChannel, old(banks[i].View()), i, cmd, now)
  {
    for k := 0 to |banks|
      invariant forall i :: k <= i < |banks| ==> banks[i].View() == old(banks[i].View())
      invariant forall i :: 0 <= i < k ==>
        banks[i].View() == SpreadOn(c, SameChannel, old(banks[i].View()), i, cmd, now)
    {
      if c.ChannelOf(k) == c.ChannelOf(cmd.bank) && c.RankOf(k) != c.RankOf(cmd.bank) {
        banks[k].RaiseForChannel(c.p, cmd.kind, now);
      }
    }
  }

  lemma SpreadUnrelated(c: Config, b: Bank, i: nat, cmd: Command, now: nat)
    requires c.Valid() && Near(c, cmd.bank, i) == Unrelated
    ensures Spread(c, b, i, cmd, now) == b
  {}

  /** Hand the command to its bank, and raise the earliest-issue cycles of all it constrains. */
  method HandleAndSpread(c: Config, banks: seq<BankInfo>, cmd: Command, now: nat)
    requires c.Valid() && NoRepeats(banks) && cmd.bank < |banks| && Allows(banks[cmd.bank].View(), cmd.kind)
    modifies banks
    ensures Views(banks) == BanksAfter(c, old(Views(banks)), cmd, now)
  {
    ghost var start := Views(banks);
    banks[cmd.bank].HandleCommand(cmd, now);
    RaiseOthersInGroup(c, banks, cmd, now);
    RaiseOthersInRank(c, banks, cmd, now);
    RaiseOthersInChannel(c, banks, cmd, now);
    forall i | 0 <= i < |banks|
      ensures banks[i].View() == BanksAfter(c, start, cmd, now)[i]
    {
      assert start[i] == old(banks[i].View());
      if i != cmd.bank && Near(c, cmd.bank, i) == Unrelated { SpreadUnrelated(c, start[i], i, cmd, now); }
    }
  }

  /** All banks advance by one clock. */
  method TickAll(p: Params, banks: seq<BankInfo>, now: nat)
    requires p.Valid() && NoRepeats(banks)
    modifies banks
    ensures Views(banks) == Ticked(p, old(Views(banks)), now)
  {
    for k := 0 to |banks|
      invariant forall i :: k <= i < |banks| ==> banks[i].View() == old(banks[i].View())
      invariant forall i :: 0 <= i < k ==> banks[i].View() == Tick(p, old(banks[i].View()), now)
    {
      banks[k].ClockTic(p, now);
    }
  }

  // ---------------------------------------------------------------- counters

  method CountDown(bus: seq<nat>) returns (r: seq<nat>)
    ensures r == Released(bus)
  {
    r := bus;
    for i := 0 to |bus|
      invariant |r| == |bus|
      invariant forall k :: 0 <= k < |bus| ==> r[k] == if k < i && 0 < bus[k] then bus[k] - 1 else bus[k]
    {
      if 0 < r[i] { r := r[i := r[i] - 1]; }
    }
  }

  method CountFree(bus: seq<nat>) returns (n: nat)
    ensures n == 0 <==> forall j :: 0 <= j < |bus| ==> bus[j] != 0
  {
    n := 0;
    for i := 0 to |bus|
      invariant n == 0 <==> forall j :: 0 <= j < i ==> bus[j] != 0
    {
      if bus[i] == 0 { n := n + 1; }
    }
  }

  method ShiftTrackers(faw: seq<seq<nat>>, actIssued: seq<bool>) returns (r: seq<seq<nat>>)
    requires |faw| == |actIssued|
    ensures r == Shifted(faw, actIssued)
  {
    r := faw;
    for k := 0 to |faw|
      invariant |r| == |faw| && forall i :: k <= i < |faw| ==> r[i] == faw[i]
      invariant forall i :: 0 <= i < k ==> r[i] == (faw[i] + [if actIssued[i] then 1 else 0])[1..]
    {
      var longer := r[k] + [if actIssued[k] then 1 else 0];
      r := r[k := longer[1..]];
    }
  }

  lemma {:induction false} SumAppend(s: seq<nat>, x: nat)
    ensures Sum(s + [x]) == Sum(s) + x
  {
    if s == [] {
      assert s + [x] == [x];
    } else {
      assert (s + [x])[1..] == s[1..] + [x];
      SumAppend(s[1..], x);
    }
  }

  method NumIssuedActs(tracker: seq<nat>) returns (n: nat)
    ensures n == Sum(tracker)
  {
    n := 0;
    for i := 0 to |tracker|
      invariant n == Sum(tracker[..i])
    {
      assert tracker[..i + 1] == tracker[..i] + [tracker[i]];
      SumAppend(tracker[..i], tracker[i]);
      n := n + tracker[i];
    }
    assert tracker[..|tracker|] == tracker;
  }

  // ---------------------------------------------------------------- refresh lists, element by element

  lemma StillOpenHead(banks: seq<Bank>, ids: seq<nat>, i: nat)
    requires i < |ids| && forall k :: 0 <= k < |ids| ==> ids[k] < |banks|
    ensures StillOpen(banks, ids[i..]) ==
      if IsClosedPhase(banks[ids[i]]) then StillOpen(banks, ids[i + 1..]) else [ids[i]] + StillOpen(banks, ids[i + 1..])
  {
    hide IsClosedPhase;
    assert ids[i..][0] == ids[i] && ids[i..][1..] == ids[i + 1..];
  }

  lemma StillOpenStep(banks: seq<Bank>, ids: seq<nat>, i: nat, open: seq<nat>)
    requires i < |ids| && forall k :: 0 <= k < |ids| ==> ids[k] < |banks|
    ensures open + StillOpen(banks, ids[i..]) ==
      (if IsClosedPhase(banks[ids[i]]) then open else open + [ids[i]]) + StillOpen(banks, ids[i + 1..])
  {
    hide StillOpen, IsClosedPhase;
    StillOpenHead(banks, ids, i);
    Regroup(open, ids[i], StillOpen(banks, ids[i + 1..]));
  }

  lemma NoneStillOpen(banks: seq<Bank>, ids: seq<nat>)
    ensures StillOpen(banks, ids[|ids|..]) == []
  {}

  lemma WithReopensStep(q: seq<Command>, ids: seq<nat>, n: nat)
    requires n < |ids|
    ensures WithReopens(q, ids[n..]) ==
      var i := FirstFor(q, ids[n]);
      WithReopens(if i < |q| && IsColumn(q[i].kind) then [Reopening(q[i])] + q else q, ids[n + 1..])
  {
    assert ids[n..][0] == ids[n] && ids[n..][1..] == ids[n + 1..];
  }

  lemma WithNoReopens(q: seq<Command>, ids: seq<nat>)
    ensures WithReopens(q, ids[|ids|..]) == q
  {}

  method FindFirst(q: seq<Command>, bank: nat) returns (i: nat)
    ensures i == FirstFor(q, bank)
  {
    i := 0;
    while i < |q| && q[i].bank != bank
      invariant i <= |q| && forall k :: 0 <= k < i ==> q[k].bank != bank
    {
      i := i + 1;
    }
  }

  lemma GroupIsWf(c: Config, d: Driver, rank: nat)
    requires Shape(c, d) && rank < c.Ranks() && d.refreshQ[rank] != []
    ensures var g := d.refreshQ[rank][0];
      g.banks != [] && c.ChannelOf(g.banks[0]) < c.channels && forall i :: 0 <= i < |g.banks| ==> g.banks[i] < c.Banks()
    ensures c.Valid() && |d.colBus| == |d.rowBus| == c.channels && |d.banks| == c.Banks() && |d.refreshQ| == c.Ranks()
  {
    var g := d.refreshQ[rank][0];
    assert WfGroup(c, rank, g);
    BankIsWf(c, g.banks[0]);
  }

  /** Taking the sent group off its queue keeps the driver well-formed. */
  lemma GroupSentShape(c: Config, d: Driver, rank: nat)
    requires Shape(c, d) && rank < c.Ranks() && d.refreshQ[rank] != []
    requires forall i :: 0 <= i < |d.refreshQ[rank][0].banks| ==> d.refreshQ[rank][0].banks[i] < c.Banks()
    ensures var d1 := IssueAll(c, d, d.refreshQ[rank][0].kind, d.refreshQ[rank][0].banks);
      d1.refreshQ == d.refreshQ && Shape(c, d1.(refreshQ := d1.refreshQ[rank := d1.refreshQ[rank][1..]]))
  {
    hide IssueAll;
  }

  // ---------------------------------------------------------------- a request on its way out

  lemma QueuedIsWf(c: Config, d: Driver, i: nat)
    requires Shape(c, d) && i < |d.inputQ|
    ensures c.Valid() && WfBank(c, d.inputQ[i].bank) && |d.blockBank| == |d.banks| == c.Banks()
    ensures |d.actIssued| == c.Ranks()
    ensures |d.refreshQ| == c.Ranks()
  {}

  lemma StepShapes(c: Config, d: Driver, i: nat)
    requires Shape(c, d) && i < |d.inputQ|
    ensures d.inputQ[i].bank < |d.blockBank|
    ensures Shape(c, d.(blockBank := d.blockBank[d.inputQ[i].bank := true]))
    ensures var d1 := Noted(d, d.inputQ[i]); Shape(c, d1) && Shape(c, d1.(inputQ := Erased(d1.inputQ, i)))
  {}

  /** The driver after a request left its queue, before the bus is taken. */
  ghost function SentFlagged(c: Config, d: Driver, i: nat): Driver
    requires Shape(c, d) && i < |d.inputQ| && WfBank(c, d.inputQ[i].bank) && CanSend(d, d.inputQ[i])
  {
    var cmd := d.inputQ[i];
    var d1 := Issue(c, d, cmd).(inputQ := Erased(d.inputQ, i));
    if cmd.kind == ACT then d1.(actIssued := d1.actIssued[c.RankOf(cmd.bank) := true]) else d1
  }

  lemma SentShape(c: Config, d: Driver, i: nat)
    requires Shape(c, d) && i < |d.inputQ| && WfBank(c, d.inputQ[i].bank) && CanSend(d, d.inputQ[i])
    ensures Shape(c, SentFlagged(c, d, i))
    ensures Issue(c, d, d.inputQ[i]).inputQ == d.inputQ && Issue(c, d, d.inputQ[i]).actIssued == d.actIssued
    ensures SentAt(c, d, i) == Occupy(c, SentFlagged(c, d, i), d.inputQ[i].kind, c.ChannelOf(d.inputQ[i].bank))
  {
    hide BanksAfter;
  }

  lemma OccupyShape(c: Config, d: Driver, k: Kind, channel: nat)
    requires Shape(c, d) && channel < c.channels
    ensures |d.colBus| == |d.rowBus| == c.channels && Shape(c, Occupy(c, d, k, channel))
  {}

  class DeviceDriver {
    const c: Config
    const banks: seq<BankInfo>
    var now: nat
    var inputQ: seq<Command>
    var blockBank: seq<bool>
    var inflightWrites: set<nat>
    var colBus: seq<nat>
    var rowBus: seq<nat>
    var faw: seq<seq<nat>>
    var actIssued: seq<bool>
    var refi: seq<nat>
    var refreshQ: seq<seq<GroupCommand>>
    var nextToRefresh: seq<nat>
    var trace: seq<Event>

    ghost function View(): Driver
      reads this, banks
    {
      Driver(now, Views(banks), inputQ, blockBank, inflightWrites, colBus, rowBus, faw, actIssued, refi, refreshQ,
        nextToRefresh, trace)
    }

    ghost predicate Valid()
      reads this, banks
    {
      NoRepeats(banks) && Shape(c, View())
    }

    // -------------------------------------------------------------- command buses

    predicate IsCommandBusAvailable(k: Kind, channel: nat)
      reads this, banks
      requires Valid() && channel < c.channels
      ensures IsCommandBusAvailable(k, channel) == BusFree(View(), k, channel)
    {
      if IsColumn(k) then colBus[channel] == 0 else rowBus[channel] == 0
    }

    /** Takes the bus; tells whether every bus is now taken. */
    method OccupyCommandBus(k: Kind, channel: nat) returns (all: bool)
      requires Valid() && channel < c.channels
      modifies this`colBus, this`rowBus
      ensures Valid() && View() == Occupy(c, old(View()), k, channel) && all == AllBusy(View())
    {
      OccupyShape(c, View(), k, channel);
      hide Shape, AllBusy;
      SetBuses(k, channel);
      all := AllBusesBusy();
    }

    method SetBuses(k: Kind, channel: nat)
      requires channel < |colBus| && channel < |rowBus|
      modifies this`colBus, this`rowBus
      ensures View() == Occupy(c, old(View()), k, channel)
    {
      var cycles := if k == ACT && c.multiCycleAct then 2 else 1;
      if c.dualBus {
        if IsColumn(k) { colBus := colBus[channel := cycles]; } else { rowBus := rowBus[channel := cycles]; }
      } else {
        colBus, rowBus := colBus[channel := 1], rowBus[channel := 1];
      }
    }

    method AllBusesBusy() returns (all: bool)
      ensures all == AllBusy(View())
    {
      var cols := CountFree(colBus);
      var rows := CountFree(rowBus);
      all := cols + rows == 0;
    }

    method ReleaseCommandBus()
      requires Valid()
      modifies this`colBus, this`rowBus
      ensures Valid() && View() == ReleaseBuses(old(View()))
    {
      colBus := CountDown(colBus);
      rowBus := CountDown(rowBus);
    }

    // -------------------------------------------------------------- start of a cycle

    method ResetCycle()
      modifies this
      ensures View() == old(ReleaseBuses(View())).(
        inflightWrites := {}, blockBank := NoFlags(|banks|), actIssued := NoFlags(|old(actIssued)|))
    {
      inflightWrites := {};
      blockBank := NoFlags(|banks|);
      colBus := CountDown(colBus);
      rowBus := CountDown(rowBus);
      actIssued := NoFlags(|actIssued|);
    }

    method Tic()
      requires Valid()
      modifies this, banks
      ensures Valid() && View() == Update(c, old(View()))
    {
      ghost var d := View();
      assert c.Valid() && |faw| == |actIssued| && Shape(c, Update(c, d)) && |Views(banks)| == |d.banks|;
      hide Shape, Ticked, Shifted, Released;
      now := now + 1;
      TickAll(c.p, banks, now);
      faw := ShiftTrackers(faw, actIssued);
      ResetCycle();
    }

    // -------------------------------------------------------------- sending one command

    method SendCommand(cmd: Command) returns (sent: bool)
      requires Valid() && cmd.bank < c.Banks()
      modifies this`trace, banks
      ensures Valid() && sent == old(CanSend(View(), cmd))
      ensures View() == if sent then Issue(c, old(View()), cmd) else old(View())
    {
      ghost var d := View();
      assert banks[cmd.bank].View() == d.banks[cmd.bank];
      sent := banks[cmd.bank].IsCommandAllowed(cmd.kind, now);
      if sent {
        HandleAndSpread(c, banks, cmd, now);
        trace := trace + [Event(now, cmd)];
        assert View() == Issue(c, d, cmd);
      }
    }

    // -------------------------------------------------------------- the scheduler's entry points

    predicate IsRefreshingBank(bank: nat)
      reads this, banks
      requires Valid() && WfBank(c, bank)
      ensures IsRefreshingBank(bank) == IsRefreshing(c, View(), bank)
    {
      c.useRefresh && refreshQ[c.RankOf(bank)] != []
    }

    method IsCmdAllowed(cmd: Command) returns (ok: bool)
      requires Valid() && WfBank(c, cmd.bank)
      modifies this`inputQ
      ensures Valid() && (View(), ok) == CmdAllowed(c, old(View()), cmd)
    {
      ghost var d := View();
      assert banks[cmd.bank].View() == d.banks[cmd.bank];
      if IsRefreshingBank(cmd.bank) { return false; }
      if IsColumn(cmd.kind) && banks[cmd.bank].IsClosed() {
        for i := 0 to |inputQ|
          invariant inputQ == d.inputQ && View() == d
          invariant forall j :: 0 <= j < i ==> !(inputQ[j].bank == cmd.bank && inputQ[j].kind == ACT)
        {
          if inputQ[i].bank == cmd.bank && inputQ[i].kind == ACT { return false; }
        }
        inputQ := inputQ + [Reopening(cmd)];
        return false;
      }
      ok := IsCommandBusAvailable(cmd.kind, c.ChannelOf(cmd.bank)) && banks[cmd.bank].IsCommandAllowed(cmd.kind, now);
    }

    method PushCommand(cmd: Command) returns (ok: bool)
      requires Valid() && WfBank(c, cmd.bank)
      modifies this`inputQ, this`colBus, this`rowBus
      ensures Valid() && (View(), ok) == Push(c, old(View()), cmd)
    {
      ok := |inputQ| < QUEUE_LIMIT;
      if ok {
        inputQ := inputQ + [cmd];
        var _ := OccupyCommandBus(cmd.kind, c.ChannelOf(cmd.bank));
      }
    }

    // -------------------------------------------------------------- sending requests

    method CountActs() returns (counts: seq<nat>)
      requires Valid()
      ensures counts == ActCounts(faw)
    {
      counts := [];
      for r := 0 to |faw|
        invariant |counts| == r && forall k :: 0 <= k < r ==> counts[k] == Sum(faw[k])
      {
        var n := NumIssuedActs(faw[r]);
        counts := counts + [n];
      }
    }

    /** The command at position `i` goes out, if its bank takes it. */
    method SendAt(i: nat) returns (sent: bool, all: bool)
      requires Valid() && i < |inputQ|
      modifies this, banks
      ensures Valid() && sent == old(CanSend(View(), inputQ[i]))
      ensures sent ==> View() == SentAt(c, old(View()), i) && all == AllBusy(View())
      ensures !sent ==> View() == old(View())
    {
      hide Shape, Issue, Occupy, CanSend, AllBusy;
      ghost var d := View();
      var cmd := inputQ[i];
      QueuedIsWf(c, d, i);
      sent := SendCommand(cmd);
      all := false;
      if sent {
        SentShape(c, d, i);
        inputQ := inputQ[..i] + inputQ[i + 1..];
        if cmd.kind == ACT { actIssued := actIssued[c.RankOf(cmd.bank) := true]; }
        assert View() == SentFlagged(c, d, i);
        all := OccupyCommandBus(cmd.kind, c.ChannelOf(cmd.bank));
      }
    }

    /** Bookkeeping for the command under the cursor; may it go out? */
    method Note(counts: seq<nat>, cmd: Command) returns (proceed: bool)
      requires Valid() && |counts| == c.Ranks() && WfBank(c, cmd.bank)
      modifies this`blockBank, this`inflightWrites
      ensures Valid() && View() == Noted(old(View()), cmd) && proceed == Eligible(c, old(View()), counts, cmd)
    {
      ghost var d := View();
      proceed := !blockBank[cmd.bank];
      blockBank := blockBank[cmd.bank := true];
      if cmd.kind == ACT && 4 <= counts[c.RankOf(cmd.bank)] { proceed := false; }
      if cmd.addr % UINT32 in inflightWrites { proceed := false; }
      if cmd.kind == WRITE { inflightWrites := inflightWrites + {cmd.addr % UINT32}; }
      assert View() == Noted(d, cmd);
      proceed := proceed && IsCommandBusAvailable(cmd.kind, c.ChannelOf(cmd.bank));
    }

    /** One pass of the request loop: the next position, and whether to stop. */
    method Consider(counts: seq<nat>, i: nat) returns (at: nat, stop: bool)
      requires Valid() && |counts| == c.Ranks() && i < |inputQ|
      modifies this, banks
      ensures Valid() && Cursor(View(), at, stop) == SendStep(c, old(View()), counts, i)
    {
      hide Shape, Eligible, SentAt, CanSend, IsRefreshing;
      ghost var d := View();
      var cmd := inputQ[i];
      QueuedIsWf(c, d, i);
      StepShapes(c, d, i);
      if IsRefreshingBank(cmd.bank) { return i + 1, false; }
      if cmd.kind == REF {
        blockBank := blockBank[cmd.bank := true];
        return i + 1, true;
      }
      var proceed := Note(counts, cmd);
      assert banks[cmd.bank].View() == View().banks[cmd.bank];
      if proceed {
        if cmd.kind == PRE && banks[cmd.bank].IsClosed() {
          inputQ := inputQ[..i] + inputQ[i + 1..];
          return i, false;
        }
        var sent, all := SendAt(i);
        if sent { return i, all; }
      }
      return i + 1, false;
    }

    method SendRequest()
      requires Valid()
      modifies this, banks
      ensures Valid() && View() == SendRequests(c, old(View()))
    {
      ghost var d := View();
      var counts := CountActs();
      var i: nat, stop := 0, false;
      hide SendStep, Shape, ActCounts;
      while i < |inputQ| && !stop
        invariant Valid() && i <= |inputQ| && |counts| == c.Ranks()
        invariant SendRequests(c, d) == if stop then View() else SendLoop(c, View(), counts, i)
        decreases !stop, |inputQ| - i
      {
        i, stop := Consider(counts, i);
      }
    }

    // -------------------------------------------------------------- refresh

    /** The listed banks that are not precharged. */
    method OpenBanks(ids: seq<nat>) returns (open: seq<nat>)
      requires forall i :: 0 <= i < |ids| ==> ids[i] < |banks|
      ensures open == StillOpen(Views(banks), ids)
    {
      hide StillOpen;
      open := [];
      ghost var views := Views(banks);
      for i := 0 to |ids|
        invariant open + StillOpen(views, ids[i..]) == StillOpen(views, ids)
      {
        StillOpenStep(views, ids, i, open);
        assert banks[ids[i]].View() == views[ids[i]];
        if !banks[ids[i]].IsClosed() { open := open + [ids[i]]; }
      }
      NoneStillOpen(views, ids);
    }

    /** Put the ACTs that re-open rows in front of the input queue. */
    method ReopenRows(ids: seq<nat>)
      modifies this`inputQ
      ensures inputQ == WithReopens(old(inputQ), ids)
    {
      hide WithReopens, FirstFor;
      for n := 0 to |ids|
        invariant WithReopens(inputQ, ids[n..]) == WithReopens(old(inputQ), ids)
      {
        WithReopensStep(inputQ, ids, n);
        var i := FindFirst(inputQ, ids[n]);
        if i < |inputQ| && IsColumn(inputQ[i].kind) { inputQ := [Reopening(inputQ[i])] + inputQ; }
      }
      WithNoReopens(inputQ, ids);
    }

    method PrechargeAndRefresh(ids: seq<nat>) returns (cmds: seq<GroupCommand>)
      requires forall i :: 0 <= i < |ids| ==> ids[i] < |banks|
      ensures cmds == RefreshCommands(Views(banks), ids)
    {
      var open := OpenBanks(ids);
      hide StillOpen, Views;
      cmds := [];
      if open != [] { cmds := cmds + [GroupCommand(PRE, open)]; }
      cmds := cmds + [GroupCommand(REF, ids)];
    }

    /** The banks to refresh now; with single-bank refresh the turn passes to the next bank. */
    method NextRequesters(rank: nat) returns (ids: seq<nat>)
      requires Valid() && rank < c.Ranks()
      modifies this`nextToRefresh
      ensures ids == Requesters(c, old(View()), rank)
      ensures nextToRefresh == NextTurn(c, old(View()), rank)
    {
      ids := c.banksOfRank[rank];
      if c.singleBankRefresh {
        ids := [ids[nextToRefresh[rank]]];
        nextToRefresh := nextToRefresh[rank := (nextToRefresh[rank] + 1) % |c.banksOfRank[rank]|];
      }
    }

    method CreateRefreshCmds(rank: nat)
      requires Valid() && rank < c.Ranks()
      modifies this`refreshQ, this`nextToRefresh, this`inputQ
      ensures Valid() && View() == CreateRefresh(c, old(View()), rank)
    {
      ghost var d := View();
      RequestersShape(c, d, rank);
      assert c.Valid() && rank < |refreshQ| == |nextToRefresh| && |d.banks| == c.Banks() == |banks|;
      hide Shape, StillOpen, WithReopens, Requesters, NextTurn, RefreshCommands, Views;
      var ids := NextRequesters(rank);
      var cmds := PrechargeAndRefresh(ids);
      refreshQ := refreshQ[rank := cmds];
      ReopenRows(ids);
      assert View() == CreateRefresh(c, d, rank);
    }

    method AllReady(g: GroupCommand) returns (ok: bool)
      requires Valid() && forall i :: 0 <= i < |g.banks| ==> g.banks[i] < c.Banks()
      ensures ok == AllAccept(View(), g)
    {
      for i := 0 to |g.banks|
        invariant forall k :: 0 <= k < i ==> Accepts(View().banks[g.banks[k]], g.kind, now)
      {
        assert banks[g.banks[i]].View() == View().banks[g.banks[i]];
        if !banks[g.banks[i]].IsCommandAllowed(g.kind, now) { return false; }
      }
      return true;
    }

    method SendGroup(kind: Kind, ids: seq<nat>)
      requires Valid() && forall i :: 0 <= i < |ids| ==> ids[i] < c.Banks()
      modifies this`trace, banks
      ensures Valid() && View() == IssueAll(c, old(View()), kind, ids)
    {
      ghost var d := View();
      hide Shape, Issue, CanSend;
      for i := 0 to |ids|
        invariant Valid() && IssueAll(c, View(), kind, ids[i..]) == IssueAll(c, d, kind, ids)
      {
        assert ids[i..][0] == ids[i] && ids[i..][1..] == ids[i + 1..];
        var _ := SendCommand(GroupMember(kind, ids[i]));
      }
      assert ids[|ids|..] == [];
    }

    method SendRefreshCmd(rank: nat) returns (sent: bool)
      requires Valid() && rank < c.Ranks() && refreshQ[rank] != []
      modifies this, banks
      ensures Valid() && View() == SendRefresh(c, old(View()), rank)
    {
      hide Shape, IssueAll, Occupy, AllAccept, Issue;
      ghost var d := View();
      GroupIsWf(c, d, rank);
      var g := refreshQ[rank][0];
      var channel := c.ChannelOf(g.banks[0]);
      var ready := AllReady(g);
      sent := ready && IsCommandBusAvailable(g.kind, channel);
      if sent {
        SendGroup(g.kind, g.banks);
        GroupSentShape(c, d, rank);
        refreshQ := refreshQ[rank := refreshQ[rank][1..]];
        var _ := OccupyCommandBus(g.kind, channel);
      }
    }

    // -------------------------------------------------------------- one run

    /** The rank's refresh counter goes on, or its refresh is created. */
    method AdvanceRefresh(rank: nat)
      requires Valid() && rank < c.Ranks()
      modifies this`refi, this`refreshQ, this`nextToRefresh, this`inputQ
      ensures Valid() && View() == Counted(c, old(View()), rank)
    {
      hide CreateRefresh;
      if 0 < refi[rank] {
        refi := refi[rank := refi[rank] - 1];
      } else {
        CreateRefreshCmds(rank);
        refi := refi[rank := c.p.nREFI];
      }
    }

    method RefreshOf(rank: nat)
      requires Valid() && rank < c.Ranks()
      modifies this, banks
      ensures Valid() && View() == RefreshRank(c, old(View()), rank)
    {
      hide Counted, SendRefresh;
      AdvanceRefresh(rank);
      if refreshQ[rank] != [] { var _ := SendRefreshCmd(rank); }
    }

    method RunCycle()
      requires Valid()
      modifies this, banks
      ensures Valid() && View() == Run(c, old(View()))
    {
      ghost var d := View();
      ReleaseCommandBus();
      ghost var d1 := View();
      if c.useRefresh {
        for rank := 0 to c.Ranks()
          invariant Valid() && RefreshFrom(c, View(), rank) == RefreshFrom(c, d1, 0)
        {
          RefreshOf(rank);
        }
      }
      SendRequest();
    }

    // -------------------------------------------------------------- construction

    constructor (config: Config)
      requires config.Valid()
      ensures Valid() && c == config && View() == Initial(c) && fresh(banks)
    {
      c := config;
      var all: seq<BankInfo> := [];
      for i := 0 to config.Banks()
        invariant |all| == i && fresh(all) && NoRepeats(all) && forall k :: 0 <= k < i ==> all[k].View() == FRESH
      {
        var b := new BankInfo();
        all := all + [b];
      }
      banks := all;
      now := 0;
      inputQ, trace := [], [];
      blockBank := NoFlags(config.Banks());
      inflightWrites := {};
      colBus, rowBus := seq(config.channels, i => 0), seq(config.channels, i => 0);
      faw := seq(config.Ranks(), r => seq(config.p.nFAW - 1, i => 0));
      actIssued := NoFlags(config.Ranks());
      refi := seq(config.Ranks(), r requires 0 <= r => InitialRefi(config, r));
      refreshQ := seq(config.Ranks(), r => []);
      nextToRefresh := seq(config.Ranks(), r => 0);
      new;
      assert Views(banks) == Initial(c).banks;
      assert View() == Initial(c);
    }
  }
}
