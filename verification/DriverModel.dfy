/** The device driver (c_DeviceDriver and the spacing code of c_BankGroup, c_Rank and
    c_Channel) as a value: its queues, buses, activation trackers, refresh queues and the
    command trace, and what one call does to them. */
module DriverModel {
  import opened Dram
  import opened BankModel

  /** A refresh-related command for several banks of one rank at once. */
  datatype GroupCommand = GroupCommand(kind: Kind, banks: seq<nat>)

  datatype Driver = Driver(
    now: nat,
    banks: seq<Bank>,
    inputQ: seq<Command>,
    blockBank: seq<bool>,
    inflightWrites: set<nat>,
    colBus: seq<nat>,
    rowBus: seq<nat>,
    faw: seq<seq<nat>>,
    actIssued: seq<bool>,
    refi: seq<nat>,
    refreshQ: seq<seq<GroupCommand>>,
    nextToRefresh: seq<nat>,
    trace: seq<Event>)

  const QUEUE_LIMIT := 32

  // ---------------------------------------------------------------- shape

  ghost predicate WfBank(c: Config, bank: nat)
    requires c.Valid()
  {
    bank < c.Banks() && c.RankOf(bank) < c.Ranks() && c.ChannelOf(bank) < c.channels
  }

  lemma BankIsWf(c: Config, bank: nat)
    requires c.Valid() && bank < c.Banks()
    ensures WfBank(c, bank)
  {
    var group := c.groupOf[bank];
    assert group < |c.rankOfGroup|;
    assert c.rankOfGroup[group] < |c.channelOfRank|;
  }

  ghost predicate WfGroup(c: Config, rank: nat, g: GroupCommand)
    requires c.Valid()
  {
    && (g.kind == PRE || g.kind == REF)
    && g.banks != []
    && c.BanksOf(rank, g.banks)
  }

  ghost predicate Shape(c: Config, d: Driver) {
    && c.Valid()
    && |d.banks| == |d.blockBank| == c.Banks()
    && |d.colBus| == |d.rowBus| == c.channels
    && |d.faw| == |d.actIssued| == |d.refi| == |d.refreshQ| == |d.nextToRefresh| == c.Ranks()
    && (forall i :: 0 <= i < |d.inputQ| ==> WfBank(c, d.inputQ[i].bank))
    && (forall r :: 0 <= r < c.Ranks() ==> |d.faw[r]| == c.p.nFAW - 1 && d.nextToRefresh[r] < |c.banksOfRank[r]|)
    && (forall r, i :: 0 <= r < c.Ranks() && 0 <= i < |d.refreshQ[r]| ==> WfGroup(c, r, d.refreshQ[r][i]))
  }

  // ---------------------------------------------------------------- handing a command to a bank

  function Bumped(p: Params, next: Cycles, near: Nearness, first: Kind, second: Kind, now: nat): nat
    requires p.Valid()
  {
    match CrossGap(p, near, first, second)
    case Some(gap) => Max(next.At(second), now + gap)
    case None => next.At(second)
  }

  /** Bank `i` after another bank of the hierarchy took `cmd`. */
  function Spread(c: Config, b: Bank, i: nat, cmd: Command, now: nat): Bank
    requires c.Valid()
  {
    var near := Near(c, cmd.bank, i);
    b.(next := Cycles(
      Bumped(c.p, b.next, near, cmd.kind, ACT, now),
      Bumped(c.p, b.next, near, cmd.kind, READ, now),
      Bumped(c.p, b.next, near, cmd.kind, WRITE, now),
      Bumped(c.p, b.next, near, cmd.kind, PRE, now),
      Bumped(c.p, b.next, near, cmd.kind, REF, now)))
  }

  /** All banks after `cmd` was handed to its bank. */
  function BanksAfter(c: Config, banks: seq<Bank>, cmd: Command, now: nat): (r: seq<Bank>)
    requires c.Valid()
    requires cmd.bank < |banks| && Allows(banks[cmd.bank], cmd.kind)
    ensures |r| == |banks|
  {
    seq(|banks|, i requires 0 <= i < |banks| =>
      if i == cmd.bank then Handle(banks[i], cmd, now) else Spread(c, banks[i], i, cmd, now))
  }

  function Issue(c: Config, d: Driver, cmd: Command): (d': Driver)
    requires Shape(c, d) && cmd.bank < c.Banks() && Allows(d.banks[cmd.bank], cmd.kind)
    ensures Shape(c, d')
  {
    d.(banks := BanksAfter(c, d.banks, cmd, d.now), trace := d.trace + [Event(d.now, cmd)])
  }

  predicate CanSend(d: Driver, cmd: Command)
    requires cmd.bank < |d.banks|
  {
    Accepts(d.banks[cmd.bank], cmd.kind, d.now)
  }

  // ---------------------------------------------------------------- command buses

  function Released(bus: seq<nat>): (r: seq<nat>)
    ensures |r| == |bus|
  {
    seq(|bus|, i requires 0 <= i < |bus| => if 0 < bus[i] then bus[i] - 1 else 0)
  }

  function ReleaseBuses(d: Driver): Driver {
    d.(colBus := Released(d.colBus), rowBus := Released(d.rowBus))
  }

  predicate BusFree(d: Driver, k: Kind, channel: nat)
    requires channel < |d.colBus| && channel < |d.rowBus|
  {
    if IsColumn(k) then d.colBus[channel] == 0 else d.rowBus[channel] == 0
  }

  function Occupy(c: Config, d: Driver, k: Kind, channel: nat): Driver
    requires channel < |d.colBus| && channel < |d.rowBus|
  {
    var cycles := if k == ACT && c.multiCycleAct then 2 else 1;
    if c.dualBus then
      if IsColumn(k) then d.(colBus := d.colBus[channel := cycles])
      else d.(rowBus := d.rowBus[channel := cycles])
    else d.(colBus := d.colBus[channel := 1], rowBus := d.rowBus[channel := 1])
  }

  predicate AllBusy(d: Driver) {
    (forall i :: 0 <= i < |d.colBus| ==> d.colBus[i] != 0) && (forall i :: 0 <= i < |d.rowBus| ==> d.rowBus[i] != 0)
  }

  // ---------------------------------------------------------------- the start of a cycle

  function Sum(s: seq<nat>): nat {
    if s == [] then 0 else s[0] + Sum(s[1..])
  }

  function Ticked(p: Params, banks: seq<Bank>, now: nat): (r: seq<Bank>)
    requires p.Valid()
    ensures |r| == |banks|
  {
    seq(|banks|, i requires 0 <= i < |banks| => Tick(p, banks[i], now))
  }

  function Shifted(faw: seq<seq<nat>>, actIssued: seq<bool>): (r: seq<seq<nat>>)
    requires |faw| == |actIssued|
    ensures |r| == |faw|
  {
    seq(|faw|, r requires 0 <= r < |faw| => (faw[r] + [if actIssued[r] then 1 else 0])[1..])
  }

  function NoFlags(n: nat): (r: seq<bool>)
    ensures |r| == n && forall i :: 0 <= i < n ==> !r[i]
  {
    seq(n, i => false)
  }

  function Update(c: Config, d: Driver): (d': Driver)
    requires Shape(c, d)
    ensures Shape(c, d')
  {
    var d1 := ReleaseBuses(d);
    d1.(now := d.now + 1,
        banks := Ticked(c.p, d.banks, d.now + 1),
        faw := Shifted(d.faw, d.actIssued),
        inflightWrites := {},
        blockBank := NoFlags(|d.banks|),
        actIssued := NoFlags(|d.actIssued|))
  }

  // ---------------------------------------------------------------- the scheduler's entry points

  predicate IsRefreshing(c: Config, d: Driver, bank: nat)
    requires Shape(c, d) && WfBank(c, bank)
  {
    c.useRefresh && d.refreshQ[c.RankOf(bank)] != []
  }

  predicate HasAct(q: seq<Command>, bank: nat) {
    exists i :: 0 <= i < |q| && q[i].bank == bank && q[i].kind == ACT
  }

  function Reopening(cmd: Command): Command {
    Command(ACT, 0, cmd.addr, cmd.bank, cmd.row, Reopen)
  }

  /** isCmdAllowed: may insert the ACT that re-opens a row closed by a refresh. */
  function CmdAllowed(c: Config, d: Driver, cmd: Command): (r: (Driver, bool))
    requires Shape(c, d) && WfBank(c, cmd.bank)
    ensures Shape(c, r.0)
  {
    if IsRefreshing(c, d, cmd.bank) then (d, false)
    else if IsColumn(cmd.kind) && IsClosedPhase(d.banks[cmd.bank]) then
      if HasAct(d.inputQ, cmd.bank) then (d, false)
      else (d.(inputQ := d.inputQ + [Reopening(cmd)]), false)
    else (d, BusFree(d, cmd.kind, c.ChannelOf(cmd.bank)) && CanSend(d, cmd))
  }

  function Push(c: Config, d: Driver, cmd: Command): (r: (Driver, bool))
    requires Shape(c, d) && WfBank(c, cmd.bank)
    ensures Shape(c, r.0)
  {
    if |d.inputQ| < QUEUE_LIMIT then
      (Occupy(c, d.(inputQ := d.inputQ + [cmd]), cmd.kind, c.ChannelOf(cmd.bank)), true)
    else (d, false)
  }

  // ---------------------------------------------------------------- sending requests

  function Erased(q: seq<Command>, i: nat): (r: seq<Command>)
    requires i < |q|
    ensures |r| == |q| - 1
  {
    q[..i] + q[i + 1..]
  }

  /** Bookkeeping for the command under the cursor, before it is known whether it goes out. */
  function Noted(d: Driver, cmd: Command): Driver
    requires cmd.bank < |d.blockBank|
  {
    d.(blockBank := d.blockBank[cmd.bank := true],
       inflightWrites := if cmd.kind == WRITE then d.inflightWrites + {cmd.addr % UINT32} else d.inflightWrites)
  }

  /** Command `cmd` may be tried, given the activation counts `counts`. */
  predicate Eligible(c: Config, d: Driver, counts: seq<nat>, cmd: Command)
    requires Shape(c, d) && |counts| == c.Ranks() && WfBank(c, cmd.bank)
  {
    && !d.blockBank[cmd.bank]
    && (cmd.kind == ACT ==> counts[c.RankOf(cmd.bank)] < 4)
    && cmd.addr % UINT32 !in d.inflightWrites
    && BusFree(d, cmd.kind, c.ChannelOf(cmd.bank))
  }

  /** The driver after the request at the cursor went out. */
  function SentAt(c: Config, d: Driver, i: nat): (d': Driver)
    requires Shape(c, d) && i < |d.inputQ| && CanSend(d, d.inputQ[i])
    ensures Shape(c, d')
  {
    var cmd := d.inputQ[i];
    var d1 := Issue(c, d, cmd).(inputQ := Erased(d.inputQ, i));
    var d2 := if cmd.kind == ACT then d1.(actIssued := d1.actIssued[c.RankOf(cmd.bank) := true]) else d1;
    Occupy(c, d2, cmd.kind, c.ChannelOf(cmd.bank))
  }

  datatype Cursor = Cursor(d: Driver, i: nat, stop: bool)

  /** One pass through the body of the request loop. */
  function SendStep(c: Config, d: Driver, counts: seq<nat>, i: nat): (r: Cursor)
    requires Shape(c, d) && |counts| == c.Ranks() && i < |d.inputQ|
    ensures Shape(c, r.d) && r.i <= |r.d.inputQ| && |r.d.inputQ| - r.i < |d.inputQ| - i
  {
    var cmd := d.inputQ[i];
    if IsRefreshing(c, d, cmd.bank) then Cursor(d, i + 1, false)
    else
      var proceed := Eligible(c, d, counts, cmd);
      if cmd.kind == REF then Cursor(d.(blockBank := d.blockBank[cmd.bank := true]), i + 1, true)
      else
        var d1 := Noted(d, cmd);
        if proceed && cmd.kind == PRE && IsClosedPhase(d1.banks[cmd.bank]) then
          Cursor(d1.(inputQ := Erased(d1.inputQ, i)), i, false)
        else if proceed && CanSend(d1, cmd) then
          var d2 := SentAt(c, d1, i);
          Cursor(d2, i, AllBusy(d2))
        else Cursor(d1, i + 1, false)
  }

  function SendLoop(c: Config, d: Driver, counts: seq<nat>, i: nat): (d': Driver)
    requires Shape(c, d) && |counts| == c.Ranks() && i <= |d.inputQ|
    ensures Shape(c, d')
    decreases |d.inputQ| - i
  {
    if i == |d.inputQ| then d
    else
      var r := SendStep(c, d, counts, i);
      if r.stop then r.d else SendLoop(c, r.d, counts, r.i)
  }

  function ActCounts(faw: seq<seq<nat>>): (r: seq<nat>)
    ensures |r| == |faw|
  {
    seq(|faw|, r requires 0 <= r < |faw| => Sum(faw[r]))
  }

  function SendRequests(c: Config, d: Driver): (d': Driver)
    requires Shape(c, d)
    ensures Shape(c, d')
  {
    SendLoop(c, d, ActCounts(d.faw), 0)
  }

  // ---------------------------------------------------------------- refresh

  /** The banks a refresh of `rank` covers now. */
  function Requesters(c: Config, d: Driver, rank: nat): seq<nat>
    requires Shape(c, d) && rank < c.Ranks()
  {
    if c.singleBankRefresh then [c.banksOfRank[rank][d.nextToRefresh[rank]]] else c.banksOfRank[rank]
  }

  /** With single-bank refresh the turn passes to the rank's next bank. */
  function NextTurn(c: Config, d: Driver, rank: nat): (r: seq<nat>)
    requires Shape(c, d) && rank < c.Ranks()
    ensures |r| == |d.nextToRefresh| && forall i :: 0 <= i < |r| ==> r[i] < |c.banksOfRank[i]|
  {
    if c.singleBankRefresh then d.nextToRefresh[rank := (d.nextToRefresh[rank] + 1) % |c.banksOfRank[rank]|]
    else d.nextToRefresh
  }

  function StillOpen(banks: seq<Bank>, ids: seq<nat>): (r: seq<nat>)
    requires forall i :: 0 <= i < |ids| ==> ids[i] < |banks|
    ensures forall x :: x in r ==> x in ids && !IsClosedPhase(banks[x])
    ensures forall x :: x in ids && !IsClosedPhase(banks[x]) ==> x in r
    ensures (forall i, j :: 0 <= i < j < |ids| ==> ids[i] != ids[j]) ==>
            (forall i, j :: 0 <= i < j < |r| ==> r[i] != r[j])
  {
    if ids == [] then []
    else
      var rest := StillOpen(banks, ids[1..]);
      if IsClosedPhase(banks[ids[0]]) then rest else [ids[0]] + rest
  }

  /** Position of the first command for `bank`, or the queue's length. */
  function FirstFor(q: seq<Command>, bank: nat): (i: nat)
    ensures i <= |q|
    ensures i < |q| ==> q[i].bank == bank
    ensures forall k :: 0 <= k < i ==> q[k].bank != bank
  {
    if q == [] || q[0].bank == bank then 0 else 1 + FirstFor(q[1..], bank)
  }

  /** Put an ACT in front of the queue for each listed bank whose first command needs its row. */
  function WithReopens(q: seq<Command>, ids: seq<nat>): seq<Command>
    decreases |ids|
  {
    if ids == [] then q
    else
      var i := FirstFor(q, ids[0]);
      var q' := if i < |q| && IsColumn(q[i].kind) then [Reopening(q[i])] + q else q;
      WithReopens(q', ids[1..])
  }

  lemma WithReopensShape(c: Config, q: seq<Command>, ids: seq<nat>)
    requires c.Valid()
    requires forall i :: 0 <= i < |q| ==> WfBank(c, q[i].bank)
    ensures forall i :: 0 <= i < |WithReopens(q, ids)| ==> WfBank(c, WithReopens(q, ids)[i].bank)
    decreases |ids|
  {
    if ids != [] {
      var i := FirstFor(q, ids[0]);
      var q' := if i < |q| && IsColumn(q[i].kind) then [Reopening(q[i])] + q else q;
      WithReopensShape(c, q', ids[1..]);
    }
  }

  lemma RequestersShape(c: Config, d: Driver, rank: nat)
    requires Shape(c, d) && rank < c.Ranks()
    ensures Requesters(c, d, rank) != [] && c.BanksOf(rank, Requesters(c, d, rank))
  {
    assert c.BanksOf(rank, c.banksOfRank[rank]);
  }

  /** The precharge (when some bank is open) and the refresh of the listed banks. */
  function RefreshCommands(banks: seq<Bank>, ids: seq<nat>): seq<GroupCommand>
    requires forall i :: 0 <= i < |ids| ==> ids[i] < |banks|
  {
    var open := StillOpen(banks, ids);
    (if open == [] then [] else [GroupCommand(PRE, open)]) + [GroupCommand(REF, ids)]
  }

  lemma RefreshCommandsShape(c: Config, rank: nat, banks: seq<Bank>, ids: seq<nat>)
    requires c.Valid() && |banks| == c.Banks() && ids != [] && c.BanksOf(rank, ids)
    ensures forall i :: 0 <= i < |RefreshCommands(banks, ids)| ==> WfGroup(c, rank, RefreshCommands(banks, ids)[i])
  {
    var open := StillOpen(banks, ids);
    forall i | 0 <= i < |open|
      ensures open[i] < c.Banks() && c.RankOf(open[i]) == rank
    {
      assert open[i] in ids;
    }
  }

  function CreateRefresh(c: Config, d: Driver, rank: nat): (d': Driver)
    requires Shape(c, d) && rank < c.Ranks()
    ensures Shape(c, d')
  {
    RequestersShape(c, d, rank);
    var ids := Requesters(c, d, rank);
    RefreshCommandsShape(c, rank, d.banks, ids);
    WithReopensShape(c, d.inputQ, ids);
    d.(refreshQ := d.refreshQ[rank := RefreshCommands(d.banks, ids)],
       nextToRefresh := NextTurn(c, d, rank),
       inputQ := WithReopens(d.inputQ, ids))
  }

  function GroupMember(kind: Kind, bank: nat): Command {
    Command(kind, bank, 0, bank, 0, Refresh)
  }

  predicate AllAccept(d: Driver, g: GroupCommand)
    requires forall i :: 0 <= i < |g.banks| ==> g.banks[i] < |d.banks|
  {
    forall i :: 0 <= i < |g.banks| ==> Accepts(d.banks[g.banks[i]], g.kind, d.now)
  }

  /** Hand `kind` to each listed bank that takes it. */
  function IssueAll(c: Config, d: Driver, kind: Kind, ids: seq<nat>): (d': Driver)
    requires Shape(c, d) && forall i :: 0 <= i < |ids| ==> ids[i] < c.Banks()
    ensures Shape(c, d') && d'.refreshQ == d.refreshQ && d'.rowBus == d.rowBus && d'.colBus == d.colBus
    decreases |ids|
  {
    if ids == [] then d
    else
      var cmd := GroupMember(kind, ids[0]);
      IssueAll(c, if CanSend(d, cmd) then Issue(c, d, cmd) else d, kind, ids[1..])
  }

  /** sendRefresh: the whole group goes out in this cycle, or nothing does. */
  function SendRefresh(c: Config, d: Driver, rank: nat): (d': Driver)
    requires Shape(c, d) && rank < c.Ranks() && d.refreshQ[rank] != []
    ensures Shape(c, d')
  {
    var g := d.refreshQ[rank][0];
    var channel := c.ChannelOf(g.banks[0]);
    if AllAccept(d, g) && BusFree(d, g.kind, channel) then
      var d1 := IssueAll(c, d, g.kind, g.banks);
      Occupy(c, d1.(refreshQ := d1.refreshQ[rank := d1.refreshQ[rank][1..]]), g.kind, channel)
    else d
  }

  /** The driver once the rank's counter has gone on, or its refresh has been created. */
  function Counted(c: Config, d: Driver, rank: nat): (d': Driver)
    requires Shape(c, d) && rank < c.Ranks()
    ensures Shape(c, d')
  {
    if 0 < d.refi[rank] then d.(refi := d.refi[rank := d.refi[rank] - 1])
    else
      var created := CreateRefresh(c, d, rank);
      created.(refi := created.refi[rank := c.p.nREFI])
  }

  function RefreshRank(c: Config, d: Driver, rank: nat): (d': Driver)
    requires Shape(c, d) && rank < c.Ranks()
    ensures Shape(c, d')
  {
    var d1 := Counted(c, d, rank);
    if d1.refreshQ[rank] != [] then SendRefresh(c, d1, rank) else d1
  }

  function RefreshFrom(c: Config, d: Driver, rank: nat): (d': Driver)
    requires Shape(c, d) && rank <= c.Ranks()
    ensures Shape(c, d')
    decreases c.Ranks() - rank
  {
    if rank == c.Ranks() then d else RefreshFrom(c, RefreshRank(c, d, rank), rank + 1)
  }

  function Run(c: Config, d: Driver): (d': Driver)
    requires Shape(c, d)
    ensures Shape(c, d')
  {
    var d1 := ReleaseBuses(d);
    var d2 := if c.useRefresh then RefreshFrom(c, d1, 0) else d1;
    SendRequests(c, d2)
  }

  // ---------------------------------------------------------------- construction

  function InitialRefi(c: Config, rank: nat): nat { c.p.nREFI / (rank + 1) }

  function Initial(c: Config): (d: Driver)
    requires c.Valid()
    ensures Shape(c, d)
  {
    Driver(0, seq(c.Banks(), i => FRESH), [], NoFlags(c.Banks()), {},
           seq(c.channels, i => 0), seq(c.channels, i => 0),
           seq(c.Ranks(), r => seq(c.p.nFAW - 1, i => 0)), NoFlags(c.Ranks()),
           seq(c.Ranks(), r requires 0 <= r => InitialRefi(c, r)), seq(c.Ranks(), r => []), seq(c.Ranks(), r => 0), [])
  }
}
