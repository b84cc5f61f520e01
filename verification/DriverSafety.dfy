/** One invariant of the device driver, kept by every step it takes, from which the spacing,
    row, order and activation-window theorems follow. */
module DriverSafety {
  import opened Sequences
  import opened Dram
  import opened BankModel
  import opened DriverModel
  import opened Spacing
  import opened Rows
  import opened Faw

  /** What lies upstream of the driver: each bank's command queue, the row the converter
      believes each bank to end up with, and what every command number handed out so far
      stands for. */
  datatype Backlog = Backlog(queues: seq<seq<Command>>, believed: seq<RowBuffer>, owner: seq<Made>)

  /** A command made by the converter is the one its number stands for, and no REF; one that re-opens
      a row is an ACT; those of a refresh are no column commands. */
  ghost predicate Known(cmd: Command, k: Backlog) {
    match cmd.origin
    case FromTxn => cmd.seqNum < |k.owner| && MadeFor(cmd, k.owner[cmd.seqNum]) && cmd.kind != REF
    case Reopen => cmd.kind == ACT
    case Refresh => !IsColumn(cmd.kind)
  }

  ghost predicate MadeFor(cmd: Command, m: Made) {
    cmd.kind == m.kind && cmd.bank == m.txn.bank && cmd.row == m.txn.row && cmd.addr == m.txn.addr
  }

  /** All commands waiting for `bank`, oldest first. */
  ghost function Stream(inputQ: seq<Command>, k: Backlog, bank: nat): seq<Command>
    requires bank < |k.queues|
  {
    For(inputQ, bank) + k.queues[bank]
  }

  ghost predicate BankFlow(b: Bank, inputQ: seq<Command>, trace: seq<Event>, k: Backlog, bank: nat)
    requires bank < |k.queues| && bank < |k.believed|
  {
    && Replay(trace, bank) == Eff(b)
    && FlowOk(Eff(b), Stream(inputQ, k, bank), k.believed[bank])
    && InOrder(Issued(trace, bank), Stream(inputQ, k, bank), |k.owner|)
  }

  /** Refresh commands never wait in a queue, and a bank's command queue holds only commands
      made for that bank by the converter. */
  ghost predicate OriginsOk(inputQ: seq<Command>, trace: seq<Event>, k: Backlog) {
    && (forall n :: 0 <= n < |trace| ==> Known(trace[n].cmd, k))
    && (forall i :: 0 <= i < |inputQ| ==> inputQ[i].origin != Refresh && Known(inputQ[i], k))
    && (forall b, j :: 0 <= b < |k.queues| && 0 <= j < |k.queues[b]| ==>
          k.queues[b][j].origin == FromTxn && k.queues[b][j].bank == b && Known(k.queues[b][j], k))
  }

  ghost predicate FlowOn(banks: seq<Bank>, inputQ: seq<Command>, trace: seq<Event>, k: Backlog) {
    && |k.queues| == |k.believed| == |banks|
    && OriginsOk(inputQ, trace, k)
    && RowSafe(trace)
    && (forall i :: 0 <= i < |banks| ==> BankFlow(banks[i], inputQ, trace, k, i))
    && (forall bank: nat :: Increasing(Issued(trace, bank)))
  }

  ghost predicate Safe(c: Config, d: Driver, k: Backlog) {
    && Shape(c, d)
    && SpacingInv(c, d.banks, d.trace, d.now)
    && FlowOn(d.banks, d.inputQ, d.trace, k)
    && FawInv(c, d)
  }

  lemma SafeOf(c: Config, d: Driver, k: Backlog, banks: seq<Bank>, inputQ: seq<Command>, trace: seq<Event>, now: nat)
    requires Shape(c, d) && d.banks == banks && d.inputQ == inputQ && d.trace == trace && d.now == now
    requires SpacingInv(c, banks, trace, now) && FlowOn(banks, inputQ, trace, k) && FawInv(c, d)
    ensures Safe(c, d, k)
  {}

  // ---------------------------------------------------------------- start of a cycle

  lemma FlowTick(c: Config, banks: seq<Bank>, inputQ: seq<Command>, trace: seq<Event>, k: Backlog, now: nat)
    requires c.Valid() && FlowOn(banks, inputQ, trace, k) && BanksInv(banks, now)
    ensures FlowOn(Ticked(c.p, banks, now + 1), inputQ, trace, k)
  {
    var banks' := Ticked(c.p, banks, now + 1);
    forall i | 0 <= i < |banks|
      ensures BankFlow(banks'[i], inputQ, trace, k, i)
    {
      assert BankInv(banks[i], now);
      TickKeeps(c.p, banks[i], now);
      assert BankFlow(banks[i], inputQ, trace, k, i);
      assert banks'[i] == Tick(c.p, banks[i], now + 1);
    }
  }

  /** A new cycle keeps the invariant, and no bank still holds an ACT unprocessed. */
  lemma SafeUpdate(c: Config, d: Driver, k: Backlog)
    requires Safe(c, d, k)
    ensures Safe(c, Update(c, d), k)
  {
    hide Ticked, Shifted, Released;
    var d' := Update(c, d);
    TickSpacing(c, d.banks, d.trace, d.now);
    FawUpdate(c, d);
    FlowTick(c, d.banks, d.inputQ, d.trace, k, d.now);
    SafeOf(c, d', k, Ticked(c.p, d.banks, d.now + 1), d.inputQ, d.trace, d.now + 1);
  }

  /** After the tick no bank still holds an unprocessed ACT. */
  lemma UpdateClearsActs(c: Config, d: Driver)
    requires Shape(c, d) && BanksInv(d.banks, d.now)
    ensures NoneHoldsAct(Update(c, d).banks)
  {
    forall i | 0 <= i < |d.banks|
      ensures !HoldsAct(Tick(c.p, d.banks[i], d.now + 1))
    {
      assert BankInv(d.banks[i], d.now);
      TickClearsIdle(c.p, d.banks[i], d.now);
    }
  }

  /** The bank has been given an ACT and its state has not yet moved. */
  ghost predicate HoldsAct(b: Bank) {
    b.phase.Idle? && b.phase.got.Some? && b.phase.got.value.kind == ACT
  }

  ghost predicate NoneHoldsAct(banks: seq<Bank>) {
    forall i :: 0 <= i < |banks| ==> !HoldsAct(banks[i])
  }

  lemma TickClearsIdle(p: Params, b: Bank, now: nat)
    requires p.Valid() && BankInv(b, now)
    ensures !HoldsAct(Tick(p, b, now + 1))
  {}

  // ---------------------------------------------------------------- handing over one command

  /** A command for another bank leaves a bank's flow alone. */
  lemma FlowOther(c: Config, b: Bank, trace: seq<Event>, k: Backlog, now: nat, cmd: Command,
                  before: seq<Command>, after: seq<Command>, i: nat)
    requires c.Valid() && i < |k.queues| && i < |k.believed| && i != cmd.bank
    requires BankFlow(b, before, trace, k, i) && For(before, i) == For(after, i)
    ensures BankFlow(Spread(c, b, i, cmd, now), after, trace + [Event(now, cmd)], k, i)
  {
    ReplayAppend(trace, Event(now, cmd), i);
    IssuedAppend(trace, Event(now, cmd), i);
    assert Issued(trace + [Event(now, cmd)], i) == Issued(trace, i);
    assert Eff(Spread(c, b, i, cmd, now)) == Eff(b);
  }

  /** A PRE or REF of a refresh closes the bank's row under its queued commands. */
  lemma FlowRefreshed(b: Bank, inputQ: seq<Command>, trace: seq<Event>, k: Backlog, now: nat, cmd: Command)
    requires cmd.bank < |k.queues| && cmd.bank < |k.believed|
    requires BankFlow(b, inputQ, trace, k, cmd.bank) && BankInv(b, now) && Accepts(b, cmd.kind, now)
    requires cmd.origin == Refresh && (cmd.kind == PRE || cmd.kind == REF)
    ensures BankFlow(Handle(b, cmd, now), inputQ, trace + [Event(now, cmd)], k, cmd.bank)
  {
    var i := cmd.bank;
    HandleKeeps(b, cmd, now);
    ReplayAppend(trace, Event(now, cmd), i);
    IssuedAppend(trace, Event(now, cmd), i);
    assert Issued(trace + [Event(now, cmd)], i) == Issued(trace, i);
    FlowClose(Eff(b), Stream(inputQ, k, i), k.believed[i]);
  }

  /** A request is the oldest waiting command of its bank, so the rest still walks after it. */
  lemma FlowRequest(b: Bank, before: seq<Command>, after: seq<Command>, trace: seq<Event>, k: Backlog, now: nat,
                    cmd: Command)
    requires cmd.bank < |k.queues| && cmd.bank < |k.believed|
    requires BankFlow(b, before, trace, k, cmd.bank) && BankInv(b, now) && Accepts(b, cmd.kind, now)
    requires cmd.origin != Refresh && For(before, cmd.bank) == [cmd] + For(after, cmd.bank)
    ensures BankFlow(Handle(b, cmd, now), after, trace + [Event(now, cmd)], k, cmd.bank)
  {
    var i := cmd.bank;
    var s, s' := Stream(before, k, i), Stream(after, k, i);
    HandleKeeps(b, cmd, now);
    AllowsByRow(b, cmd.kind, now);
    ReplayAppend(trace, Event(now, cmd), i);
    IssuedAppend(trace, Event(now, cmd), i);
    assert s == [cmd] + s' && s[1..] == s';
    FlowPop(Eff(b), s, k.believed[i]);
    OrderPop(Issued(trace, i), s, |k.owner|);
    assert Apply(Eff(b), cmd) == Leaves(cmd);
  }

  /** The command meets the row it needs. */
  lemma RowSafeIssue(banks: seq<Bank>, trace: seq<Event>, k: Backlog, now: nat, cmd: Command, before: seq<Command>)
    requires FlowOn(banks, before, trace, k) && BanksInv(banks, now)
    requires cmd.bank < |banks| && Accepts(banks[cmd.bank], cmd.kind, now)
    requires cmd.origin == Refresh || (For(before, cmd.bank) != [] && For(before, cmd.bank)[0] == cmd)
    requires cmd.origin == Refresh ==> !IsColumn(cmd.kind)
    ensures RowSafe(trace + [Event(now, cmd)])
  {
    var b := banks[cmd.bank];
    assert BankFlow(b, before, trace, k, cmd.bank) && BankInv(b, now);
    AllowsByRow(b, cmd.kind, now);
    assert cmd.origin != Refresh ==> Stream(before, k, cmd.bank)[0] == cmd;
    RowSafeAppend(trace, Event(now, cmd));
  }

  lemma IncreasingIssue(trace: seq<Event>, e: Event, banks: seq<Bank>, before: seq<Command>, k: Backlog)
    requires FlowOn(banks, before, trace, k) && e.cmd.bank < |banks|
    requires e.cmd.origin == Refresh || (For(before, e.cmd.bank) != [] && For(before, e.cmd.bank)[0] == e.cmd)
    ensures forall bank: nat :: Increasing(Issued(trace + [e], bank))
  {
    forall bank: nat
      ensures Increasing(Issued(trace + [e], bank))
    {
      IssuedAppend(trace, e, bank);
      assert Increasing(Issued(trace, bank));
      if e.cmd.bank == bank && e.cmd.origin == FromTxn {
        assert BankFlow(banks[bank], before, trace, k, bank);
        assert Stream(before, k, bank)[0] == e.cmd;
        NextIncreasing(Issued(trace, bank), Stream(before, k, bank));
      }
    }
  }

  /** The first of the waiting numbers follows those received. */
  lemma NextIncreasing(issued: seq<nat>, s: seq<Command>)
    requires s != [] && s[0].origin == FromTxn && Increasing(issued + TxnSeqs(s))
    ensures Increasing(issued + [s[0].seqNum])
  {
    var whole := issued + TxnSeqs(s);
    assert TxnSeqs(s)[0] == s[0].seqNum;
    assert issued + [s[0].seqNum] == whole[..|issued| + 1];
  }

  /** All banks' flow after a command of a refresh. */
  lemma FlowIssueRefresh(c: Config, d: Driver, k: Backlog, cmd: Command)
    requires Safe(c, d, k) && cmd.bank < c.Banks() && CanSend(d, cmd)
    requires cmd.origin == Refresh && (cmd.kind == PRE || cmd.kind == REF)
    ensures FlowOn(BanksAfter(c, d.banks, cmd, d.now), d.inputQ, d.trace + [Event(d.now, cmd)], k)
  {
    var banks' := BanksAfter(c, d.banks, cmd, d.now);
    RowSafeIssue(d.banks, d.trace, k, d.now, cmd, d.inputQ);
    IncreasingIssue(d.trace, Event(d.now, cmd), d.banks, d.inputQ, k);
    forall i | 0 <= i < |d.banks|
      ensures BankFlow(banks'[i], d.inputQ, d.trace + [Event(d.now, cmd)], k, i)
    {
      assert BankFlow(d.banks[i], d.inputQ, d.trace, k, i) && BankInv(d.banks[i], d.now);
      if i == cmd.bank {
        FlowRefreshed(d.banks[i], d.inputQ, d.trace, k, d.now, cmd);
      } else {
        FlowOther(c, d.banks[i], d.trace, k, d.now, cmd, d.inputQ, d.inputQ, i);
      }
    }
  }

  /** All banks' flow after request `n` of the input queue. */
  lemma FlowIssueRequest(c: Config, d: Driver, k: Backlog, n: nat)
    requires Safe(c, d, k) && n < |d.inputQ| && CanSend(d, d.inputQ[n]) && d.inputQ[n].origin != Refresh
    requires forall j :: 0 <= j < n ==> d.inputQ[j].bank != d.inputQ[n].bank
    ensures FlowOn(BanksAfter(c, d.banks, d.inputQ[n], d.now), Erased(d.inputQ, n),
      d.trace + [Event(d.now, d.inputQ[n])], k)
  {
    var cmd := d.inputQ[n];
    var q := Erased(d.inputQ, n);
    var banks' := BanksAfter(c, d.banks, cmd, d.now);
    ForFirst(d.inputQ, n, cmd.bank);
    RowSafeIssue(d.banks, d.trace, k, d.now, cmd, d.inputQ);
    IncreasingIssue(d.trace, Event(d.now, cmd), d.banks, d.inputQ, k);
    forall i | 0 <= i < |d.banks|
      ensures BankFlow(banks'[i], q, d.trace + [Event(d.now, cmd)], k, i)
    {
      assert BankFlow(d.banks[i], d.inputQ, d.trace, k, i) && BankInv(d.banks[i], d.now);
      ForErased(d.inputQ, n, i);
      if i == cmd.bank {
        FlowRequest(d.banks[i], d.inputQ, q, d.trace, k, d.now, cmd);
      } else {
        FlowOther(c, d.banks[i], d.trace, k, d.now, cmd, d.inputQ, q, i);
      }
    }
  }

  /** The activation registers after a command went out and its flag was set. */
  lemma FawAfterIssue(c: Config, d: Driver, cmd: Command, flags: seq<bool>)
    requires Shape(c, d) && FawInv(c, d) && PastEvents(d.trace, d.now) && WfBank(c, cmd.bank)
    requires cmd.kind == ACT ==> Sum(d.faw[c.RankOf(cmd.bank)]) < 4 && !d.actIssued[c.RankOf(cmd.bank)]
    requires flags == if cmd.kind == ACT then d.actIssued[c.RankOf(cmd.bank) := true] else d.actIssued
    ensures FawOn(c, d.trace + [Event(d.now, cmd)], d.faw, flags, d.now)
  {
    FawIssue(c, d, cmd);
    forall r | 0 <= r < |d.faw|
      ensures Counts(c, d.trace + [Event(d.now, cmd)], r, d.faw[r], d.now - (c.p.nFAW - 1))
      ensures ActsIn(c, d.trace + [Event(d.now, cmd)], r, d.now, d.now + 1) == (if flags[r] then 1 else 0)
    {
      CountsIssue(c, d, cmd, r);
    }
  }

  /** A group member (PRE or REF for a refresh) keeps the invariant. */
  lemma SafeIssueRefresh(c: Config, d: Driver, k: Backlog, kind: Kind, bank: nat)
    requires Safe(c, d, k) && WfBank(c, bank) && (kind == PRE || kind == REF)
    requires CanSend(d, GroupMember(kind, bank))
    ensures Safe(c, Issue(c, d, GroupMember(kind, bank)), k)
  {
    var cmd := GroupMember(kind, bank);
    IssueSpacing(c, d.banks, d.trace, d.now, cmd);
    FlowIssueRefresh(c, d, k, cmd);
    FawAfterIssue(c, d, cmd, d.actIssued);
  }

  /** A request taken from the input queue keeps the invariant. */
  lemma SafeSentAt(c: Config, d: Driver, k: Backlog, n: nat)
    requires Safe(c, d, k) && n < |d.inputQ| && CanSend(d, d.inputQ[n]) && d.inputQ[n].origin != Refresh
    requires forall j :: 0 <= j < n ==> d.inputQ[j].bank != d.inputQ[n].bank
    requires d.inputQ[n].kind == ACT ==>
      Sum(d.faw[c.RankOf(d.inputQ[n].bank)]) < 4 && !d.actIssued[c.RankOf(d.inputQ[n].bank)]
    ensures Safe(c, SentAt(c, d, n), k)
  {
    var cmd := d.inputQ[n];
    IssueSpacing(c, d.banks, d.trace, d.now, cmd);
    FlowIssueRequest(c, d, k, n);
    FawAfterIssue(c, d, cmd, SentAt(c, d, n).actIssued);
  }

  // ---------------------------------------------------------------- the request loop

  /** Invariant of the request loop with its cursor at `i`. */
  ghost predicate SendInv(c: Config, d: Driver, k: Backlog, counts: seq<nat>, i: nat) {
    Safe(c, d, k) && CursorInv(c, d, counts, i)
  }

  /** Commands before the cursor have blocked their banks, or wait for a refresh. */
  ghost predicate CursorInv(c: Config, d: Driver, counts: seq<nat>, i: nat)
    requires Shape(c, d)
  {
    && counts == ActCounts(d.faw) && i <= |d.inputQ|
    && (forall j :: 0 <= j < i ==> d.blockBank[d.inputQ[j].bank] || IsRefreshing(c, d, d.inputQ[j].bank))
    && (forall b :: 0 <= b < c.Banks() && HoldsAct(d.banks[b]) ==> d.blockBank[b])
    && RowBusHeld(c, d)
  }

  /** A rank that has had its ACT in this cycle has its channel's row bus taken. */
  ghost predicate RowBusHeld(c: Config, d: Driver)
    requires Shape(c, d)
  {
    forall b :: 0 <= b < c.Banks() && WfBank(c, b) && d.actIssued[c.RankOf(b)] ==> 0 < d.rowBus[c.ChannelOf(b)]
  }

  lemma FlowDrop(d: Driver, k: Backlog, n: nat)
    requires n < |d.inputQ| && d.inputQ[n].bank < |d.banks| && d.inputQ[n].kind == PRE
    requires forall j :: 0 <= j < n ==> d.inputQ[j].bank != d.inputQ[n].bank
    requires Eff(d.banks[d.inputQ[n].bank]) == Closed
    requires FlowOn(d.banks, d.inputQ, d.trace, k)
    ensures FlowOn(d.banks, Erased(d.inputQ, n), d.trace, k)
  {
    hide BankFlow, RowSafe, Issued, Erased, For;
    var q := Erased(d.inputQ, n);
    forall b | 0 <= b < |d.banks|
      ensures BankFlow(d.banks[b], q, d.trace, k, b)
    {
      DroppedFlow(d.banks[b], d.inputQ, n, d.trace, k, b);
    }
    ErasedMembers(d.inputQ, n);
  }

  lemma ErasedMembers(q: seq<Command>, n: nat)
    requires n < |q|
    ensures forall i :: 0 <= i < |Erased(q, n)| ==> Erased(q, n)[i] == q[if i < n then i else i + 1]
  {}

  /** A bank's flow when a precharge that finds it closed is dropped, or a command of another. */
  lemma DroppedFlow(b: Bank, inputQ: seq<Command>, n: nat, trace: seq<Event>, k: Backlog, bank: nat)
    requires bank < |k.queues| && bank < |k.believed| && BankFlow(b, inputQ, trace, k, bank)
    requires n < |inputQ| && inputQ[n].kind == PRE && forall j :: 0 <= j < n ==> inputQ[j].bank != inputQ[n].bank
    requires inputQ[n].bank == bank ==> Eff(b) == Closed
    ensures BankFlow(b, Erased(inputQ, n), trace, k, bank)
  {
    hide Walk, InOrder, Issued, Replay, Erased, For, Eff;
    var q, cmd := Erased(inputQ, n), inputQ[n];
    ForErased(inputQ, n, bank);
    EmptyIsUnit(For(q, bank));
    if cmd.bank == bank {
      var s := Stream(inputQ, k, bank);
      Assoc([cmd], For(q, bank), k.queues[bank]);
      assert s[0] == cmd && s[1..] == Stream(q, k, bank);
      FlowPop(Closed, s, k.believed[bank]);
      OrderDrop(Issued(trace, bank), s, |k.owner|);
    }
  }

  /** The command under the cursor is the oldest one waiting for its bank. */
  lemma EligibleIsFirst(c: Config, d: Driver, counts: seq<nat>, i: nat)
    requires Shape(c, d) && CursorInv(c, d, counts, i) && i < |d.inputQ|
    requires !IsRefreshing(c, d, d.inputQ[i].bank) && Eligible(c, d, counts, d.inputQ[i])
    ensures forall j :: 0 <= j < i ==> d.inputQ[j].bank != d.inputQ[i].bank
    ensures !HoldsAct(d.banks[d.inputQ[i].bank])
    ensures d.inputQ[i].kind == ACT ==>
      Sum(d.faw[c.RankOf(d.inputQ[i].bank)]) < 4 && !d.actIssued[c.RankOf(d.inputQ[i].bank)]
  {
  }

  lemma ClosedPhaseIsClosed(b: Bank, now: nat)
    requires BankInv(b, now) && IsClosedPhase(b) && !HoldsAct(b)
    ensures Eff(b) == Closed
  {}

  lemma SendSkips(c: Config, d: Driver, k: Backlog, counts: seq<nat>, i: nat)
    requires SendInv(c, d, k, counts, i) && i < |d.inputQ|
    requires !IsRefreshing(c, d, d.inputQ[i].bank) && Eligible(c, d, counts, d.inputQ[i])
    requires d.inputQ[i].kind == PRE && IsClosedPhase(d.banks[d.inputQ[i].bank])
    ensures Safe(c, Noted(d, d.inputQ[i]).(inputQ := Erased(d.inputQ, i)), k)
  {
    EligibleIsFirst(c, d, counts, i);
    assert BankInv(d.banks[d.inputQ[i].bank], d.now);
    ClosedPhaseIsClosed(d.banks[d.inputQ[i].bank], d.now);
    FlowDrop(d, k, i);
    SafeOf(c, Noted(d, d.inputQ[i]).(inputQ := Erased(d.inputQ, i)), k, d.banks, Erased(d.inputQ, i), d.trace, d.now);
  }

  lemma SendSends(c: Config, d: Driver, k: Backlog, counts: seq<nat>, i: nat)
    requires SendInv(c, d, k, counts, i) && i < |d.inputQ|
    requires !IsRefreshing(c, d, d.inputQ[i].bank) && Eligible(c, d, counts, d.inputQ[i])
    requires CanSend(d, d.inputQ[i])
    ensures Safe(c, SentAt(c, Noted(d, d.inputQ[i]), i), k)
  {
    var d1 := Noted(d, d.inputQ[i]);
    EligibleIsFirst(c, d, counts, i);
    SafeOf(c, d1, k, d.banks, d.inputQ, d.trace, d.now);
    SafeSentAt(c, d1, k, i);
  }

  lemma NotedCursor(c: Config, d: Driver, d1: Driver, counts: seq<nat>, i: nat)
    requires Shape(c, d) && CursorInv(c, d, counts, i) && i < |d.inputQ|
    requires d1 == Noted(d, d.inputQ[i]) || d1 == d.(blockBank := d.blockBank[d.inputQ[i].bank := true])
    ensures CursorInv(c, d1, counts, i) && CursorInv(c, d1, counts, i + 1)
  {}

  lemma ErasedCursor(c: Config, d: Driver, counts: seq<nat>, i: nat)
    requires Shape(c, d) && CursorInv(c, d, counts, i) && i < |d.inputQ|
    ensures Shape(c, d.(inputQ := Erased(d.inputQ, i)))
    ensures CursorInv(c, d.(inputQ := Erased(d.inputQ, i)), counts, i)
  {}

  lemma SentHolds(c: Config, d: Driver, i: nat)
    requires Shape(c, d) && i < |d.inputQ| && CanSend(d, d.inputQ[i]) && d.blockBank[d.inputQ[i].bank]
    requires forall b :: 0 <= b < c.Banks() && HoldsAct(d.banks[b]) ==> d.blockBank[b]
    ensures forall b :: 0 <= b < c.Banks() && HoldsAct(SentAt(c, d, i).banks[b]) ==> d.blockBank[b]
  {
    forall b | 0 <= b < c.Banks() && HoldsAct(SentAt(c, d, i).banks[b])
      ensures d.blockBank[b]
    {
      if b != d.inputQ[i].bank {
        assert SentAt(c, d, i).banks[b] == Spread(c, d.banks[b], b, d.inputQ[i], d.now);
        assert HoldsAct(d.banks[b]);
      }
    }
  }

  lemma SentHoldsBus(c: Config, d: Driver, i: nat)
    requires Shape(c, d) && i < |d.inputQ| && CanSend(d, d.inputQ[i]) && RowBusHeld(c, d)
    ensures RowBusHeld(c, SentAt(c, d, i))
  {
    var d2 := SentAt(c, d, i);
    forall b | 0 <= b < c.Banks() && WfBank(c, b) && d2.actIssued[c.RankOf(b)]
      ensures 0 < d2.rowBus[c.ChannelOf(b)]
    {
      assert d.actIssued[c.RankOf(b)] ==> 0 < d.rowBus[c.ChannelOf(b)];
    }
  }

  lemma SentCursor(c: Config, d: Driver, counts: seq<nat>, i: nat)
    requires Shape(c, d) && CursorInv(c, d, counts, i) && i < |d.inputQ| && CanSend(d, d.inputQ[i])
    requires d.blockBank[d.inputQ[i].bank]
    ensures CursorInv(c, SentAt(c, d, i), counts, i)
  {
    SentHolds(c, d, i);
    SentHoldsBus(c, d, i);
    var d2 := SentAt(c, d, i);
    assert d2.blockBank == d.blockBank && d2.refreshQ == d.refreshQ && d2.faw == d.faw;
    assert forall j :: 0 <= j < i ==> d2.inputQ[j] == d.inputQ[j];
  }

  /** The cursor part of the loop invariant survives one pass of the loop body. */
  lemma CursorStep(c: Config, d: Driver, counts: seq<nat>, i: nat)
    requires Shape(c, d) && CursorInv(c, d, counts, i) && i < |d.inputQ|
    ensures CursorInv(c, SendStep(c, d, counts, i).d, counts, SendStep(c, d, counts, i).i)
  {
    var cmd := d.inputQ[i];
    if !IsRefreshing(c, d, cmd.bank) {
      var d1 := if cmd.kind == REF then d.(blockBank := d.blockBank[cmd.bank := true]) else Noted(d, cmd);
      NotedCursor(c, d, d1, counts, i);
      if cmd.kind != REF && Eligible(c, d, counts, cmd) {
        if cmd.kind == PRE && IsClosedPhase(d1.banks[cmd.bank]) {
          ErasedCursor(c, d1, counts, i);
        } else if CanSend(d1, cmd) {
          SentCursor(c, d1, counts, i);
        }
      }
    }
  }

  lemma SendStepSafe(c: Config, d: Driver, k: Backlog, counts: seq<nat>, i: nat)
    requires SendInv(c, d, k, counts, i) && i < |d.inputQ|
    ensures SendInv(c, SendStep(c, d, counts, i).d, k, counts, SendStep(c, d, counts, i).i)
  {
    hide CursorInv, Issue, Occupy, Known, Safe, SentAt, Eligible, IsClosedPhase, Accepts, Noted;
    RequestKind(c, d, k, i);
    CountsSize(c, d, counts, i);
    CursorStep(c, d, counts, i);
    var cmd := d.inputQ[i];
    if !IsRefreshing(c, d, cmd.bank) {
      NotedSafe(c, d, k, cmd);
      if Eligible(c, d, counts, cmd) {
        if cmd.kind == PRE && IsClosedPhase(d.banks[cmd.bank]) {
          SendSkips(c, d, k, counts, i);
        } else if CanSend(d, cmd) {
          SendSends(c, d, k, counts, i);
        }
      }
    }
  }

  lemma CountsSize(c: Config, d: Driver, counts: seq<nat>, i: nat)
    requires Shape(c, d) && CursorInv(c, d, counts, i)
    ensures |counts| == c.Ranks()
  {}

  /** Noting a command as tried. */
  lemma NotedSafe(c: Config, d: Driver, k: Backlog, cmd: Command)
    requires Safe(c, d, k) && cmd.bank < |d.blockBank|
    ensures Safe(c, Noted(d, cmd), k) && Noted(d, cmd).banks == d.banks && Noted(d, cmd).now == d.now
    ensures Noted(d, cmd).inputQ == d.inputQ
  {
    SafeOf(c, Noted(d, cmd), k, d.banks, d.inputQ, d.trace, d.now);
    hide SpacingInv, FlowOn;
  }

  /** No REF comes through the input queue. */
  lemma RequestKind(c: Config, d: Driver, k: Backlog, i: nat)
    requires Safe(c, d, k) && i < |d.inputQ|
    ensures d.inputQ[i].kind != REF && WfBank(c, d.inputQ[i].bank) && Shape(c, d)
    ensures d.inputQ[i].bank < |d.blockBank| && d.inputQ[i].bank < |d.banks|
  {
    assert Known(d.inputQ[i], k);
    hide BankFlow, SpacingInv;
  }

  lemma {:induction false} SendLoopSafe(c: Config, d: Driver, k: Backlog, counts: seq<nat>, i: nat)
    requires SendInv(c, d, k, counts, i)
    ensures Safe(c, SendLoop(c, d, counts, i), k)
    decreases |d.inputQ| - i
  {
    if i < |d.inputQ| {
      SendStepSafe(c, d, k, counts, i);
      var r := SendStep(c, d, counts, i);
      if !r.stop { SendLoopSafe(c, r.d, k, counts, r.i); }
    }
  }
}
