/** The controller above the device driver, as a value: request queue, transaction scheduler,
    page-policy converter and command scheduler, and one clock cycle of all of it. */
module ControllerModel {
  import opened Options
  import opened Dram
  import opened BankModel
  import opened DriverModel

  datatype Policy = ClosePage | OpenPage | PseudoOpen(closeTime: nat)

  datatype Setup = Setup(
    c: Config, policy: Policy, cmdEntries: nat, txnEntries: nat,
    readFirst: bool, firstReady: bool, quick: bool, maxPendingWrite: nat, minPendingWrite: nat)

  /** The converter's own record of a bank. */
  datatype Tracked = Tracked(open: bool, row: nat, timer: nat)

  /** Transaction queues per channel: one in arrival order, or reads and writes apart. */
  datatype TxnQueues = TxnQueues(allQ: seq<seq<Txn>>, readQ: seq<seq<Txn>>, writeQ: seq<seq<Txn>>, flush: bool)

  datatype System = System(
    d: Driver,
    queues: seq<seq<Command>>,   // one command queue per bank
    starts: seq<nat>,            // round-robin start per channel
    tracked: seq<Tracked>,
    owner: seq<Made>,            // what each command number handed out stands for
    txns: TxnQueues,
    reqQ: seq<Txn>)

  // ---------------------------------------------------------------- converter

  /** The row commands a transaction needs first. */
  function PreKinds(policy: Policy, t: Tracked, txn: Txn): seq<Kind> {
    if policy.ClosePage? || !t.open then [ACT]
    else if t.row != txn.row then [PRE, ACT]
    else []
  }

  /** The close timer once the row commands are chosen. */
  function TimerAfter(policy: Policy, t: Tracked, txn: Txn): nat {
    if policy.PseudoOpen? && PreKinds(policy, t, txn) != [] then policy.closeTime else t.timer
  }

  function PostKinds(policy: Policy, t: Tracked, txn: Txn): seq<Kind> {
    var column := [if txn.isRead then READ else WRITE];
    if policy.ClosePage? || (policy.PseudoOpen? && TimerAfter(policy, t, txn) == 0) then column + [PRE] else column
  }

  function KindsFor(policy: Policy, t: Tracked, txn: Txn): (r: seq<Kind>)
    ensures 1 <= |r|
  {
    PreKinds(policy, t, txn) + PostKinds(policy, t, txn)
  }

  function NextTracked(policy: Policy, t: Tracked, txn: Txn): Tracked {
    var timer := TimerAfter(policy, t, txn);
    if policy.ClosePage? || (policy.PseudoOpen? && timer == 0) then Tracked(false, t.row, timer)
    else Tracked(true, txn.row, timer)
  }

  function Numbered(kinds: seq<Kind>, txn: Txn, first: nat): (r: seq<Command>)
    ensures |r| == |kinds|
  {
    seq(|kinds|, i requires 0 <= i < |kinds| => Command(kinds[i], first + i, txn.addr, txn.bank, txn.row, FromTxn))
  }

  /** The pseudo-open timers count down while their rows are open. */
  function Aged(policy: Policy, tracked: seq<Tracked>): (r: seq<Tracked>)
    ensures |r| == |tracked|
  {
    seq(|tracked|, i requires 0 <= i < |tracked| =>
      if policy.PseudoOpen? && tracked[i].open && 0 < tracked[i].timer
      then tracked[i].(timer := tracked[i].timer - 1) else tracked[i])
  }

  // ---------------------------------------------------------------- command queues

  /** getToken, on unsigned numbers. */
  function Token(s: Setup, q: seq<Command>): nat {
    if |q| <= s.cmdEntries then s.cmdEntries - |q| else UINT32 - (|q| - s.cmdEntries) % UINT32
  }

  /** Push the commands one by one; the flag tells whether every push found room. */
  function PushAll(s: Setup, q: seq<Command>, cmds: seq<Command>): (seq<Command>, bool)
    decreases |cmds|
  {
    if cmds == [] then (q, true)
    else if |q| < s.cmdEntries then PushAll(s, q + [cmds[0]], cmds[1..])
    else (PushAll(s, q, cmds[1..]).0, false)
  }

  /** The converter's output; `ok` is false once one of its assertions fails. */
  datatype Converted = Converted(queues: seq<seq<Command>>, tracked: seq<Tracked>, owner: seq<Made>, ok: bool)

  function ConvertOne(s: Setup, v: Converted, txn: Txn): Converted
    requires txn.bank < |v.queues| && txn.bank < |v.tracked|
  {
    if Token(s, v.queues[txn.bank]) < 3 then v.(ok := false)
    else
      var t := v.tracked[txn.bank];
      var kinds := KindsFor(s.policy, t, txn);
      var pushed := PushAll(s, v.queues[txn.bank], Numbered(kinds, txn, |v.owner|));
      Converted(v.queues[txn.bank := pushed.0], v.tracked[txn.bank := NextTracked(s.policy, t, txn)],
                v.owner + seq(|kinds|, i requires 0 <= i < |kinds| => Made(txn, kinds[i])), v.ok && pushed.1)
  }

  function ConvertAll(s: Setup, v: Converted, picks: seq<Txn>): (r: Converted)
    requires forall i :: 0 <= i < |picks| ==> picks[i].bank < |v.queues| && picks[i].bank < |v.tracked|
    ensures |r.queues| == |v.queues| && |r.tracked| == |v.tracked|
    decreases |picks|
  {
    if picks == [] then v else ConvertAll(s, ConvertOne(s, v, picks[0]), picks[1..])
  }

  /** Numbers handed out stay with their commands. */
  lemma {:induction false} OwnerGrows(s: Setup, v: Converted, picks: seq<Txn>)
    requires forall i :: 0 <= i < |picks| ==> picks[i].bank < |v.queues| && picks[i].bank < |v.tracked|
    ensures v.owner <= ConvertAll(s, v, picks).owner
    decreases |picks|
  {
    if picks != [] { OwnerGrows(s, ConvertOne(s, v, picks[0]), picks[1..]); }
  }

  // ---------------------------------------------------------------- transaction scheduler

  /** An older transaction to the same address is found before a younger one stops the scan. */
  predicate HasDependency(q: seq<Txn>, x: Txn) {
    if q == [] then false
    else if q[0].addr == x.addr && q[0].seqNum < x.seqNum then true
    else if q[0].seqNum >= x.seqNum then false
    else HasDependency(q[1..], x)
  }

  function DepQueue(s: Setup, q: TxnQueues, ch: nat, x: Txn): seq<Txn>
    requires ch < |q.allQ| && ch < |q.readQ| && ch < |q.writeQ|
  {
    if !s.readFirst then q.allQ[ch] else if x.isRead then q.writeQ[ch] else q.readQ[ch]
  }

  predicate Ready(s: Setup, queues: seq<seq<Command>>, q: TxnQueues, ch: nat, x: Txn)
    requires ch < |q.allQ| && ch < |q.readQ| && ch < |q.writeQ| && x.bank < |queues|
  {
    3 <= Token(s, queues[x.bank]) && !HasDependency(DepQueue(s, q, ch, x), x)
  }

  predicate RowHit(tracked: seq<Tracked>, x: Txn)
    requires x.bank < |tracked|
  {
    tracked[x.bank].open && tracked[x.bank].row == x.row
  }

  /** First-ready scan from `i`: a ready row hit wins at once, else the last ready entry. */
  function Scan(s: Setup, queues: seq<seq<Command>>, tracked: seq<Tracked>, q: TxnQueues, ch: nat,
                line: seq<Txn>, i: nat, best: Option<nat>): (r: Option<nat>)
    requires ch < |q.allQ| && ch < |q.readQ| && ch < |q.writeQ| && i <= |line|
    requires forall j :: 0 <= j < |line| ==> line[j].bank < |queues| && line[j].bank < |tracked|
    requires best.Some? ==> best.value < |line| && Ready(s, queues, q, ch, line[best.value])
    ensures r.Some? ==> r.value < |line| && Ready(s, queues, q, ch, line[r.value])
    ensures r.None? ==> best.None? && forall j :: i <= j < |line| ==> !Ready(s, queues, q, ch, line[j])
    decreases |line| - i
  {
    if i == |line| then best
    else if !Ready(s, queues, q, ch, line[i]) then Scan(s, queues, tracked, q, ch, line, i + 1, best)
    else if RowHit(tracked, line[i]) then Some(i)
    else Scan(s, queues, tracked, q, ch, line, i + 1, Some(i))
  }

  /** getNextTxn: position of the chosen transaction in `line`. */
  function Choose(s: Setup, queues: seq<seq<Command>>, tracked: seq<Tracked>, q: TxnQueues, ch: nat,
                  line: seq<Txn>): (r: Option<nat>)
    requires ch < |q.allQ| && ch < |q.readQ| && ch < |q.writeQ|
    requires forall j :: 0 <= j < |line| ==> line[j].bank < |queues| && line[j].bank < |tracked|
    ensures r.Some? ==> r.value < |line| && Ready(s, queues, q, ch, line[r.value])
    ensures r.Some? && !s.firstReady ==> r.value == 0
  {
    if line == [] then None
    else if s.firstReady then Scan(s, queues, tracked, q, ch, line, 0, None)
    else if Ready(s, queues, q, ch, line[0]) then Some(0) else None
  }

  function Without(line: seq<Txn>, i: nat): seq<Txn>
    requires i < |line|
  {
    line[..i] + line[i + 1..]
  }

  datatype Picked = Picked(q: TxnQueues, picks: seq<Txn>)

  ghost predicate TxnsOk(s: Setup, queues: seq<seq<Command>>, tracked: seq<Tracked>, line: seq<Txn>, ch: nat) {
    forall j :: 0 <= j < |line| ==>
      line[j].bank < |queues| && line[j].bank < |tracked| && s.c.ChannelOf(line[j].bank) == ch
  }

  ghost predicate QueuesOk(s: Setup, queues: seq<seq<Command>>, tracked: seq<Tracked>, q: TxnQueues) {
    && |q.allQ| == |q.readQ| == |q.writeQ| == s.c.channels
    && forall ch :: 0 <= ch < s.c.channels ==>
      && TxnsOk(s, queues, tracked, q.allQ[ch], ch)
      && TxnsOk(s, queues, tracked, q.readQ[ch], ch)
      && TxnsOk(s, queues, tracked, q.writeQ[ch], ch)
  }

  /** Which queue a channel looks at first, after the write-flush flag is updated. */
  function Flushing(s: Setup, q: TxnQueues, ch: nat): bool
    requires ch < |q.readQ| && ch < |q.writeQ|
  {
    if |q.writeQ[ch]| >= s.maxPendingWrite || |q.readQ[ch]| == 0 then true
    else if |q.writeQ[ch]| < s.minPendingWrite then false
    else q.flush
  }

  /** The queues of a channel. */
  datatype Line = AllLine | ReadLine | WriteLine

  function LineOf(q: TxnQueues, w: Line, ch: nat): seq<Txn>
    requires ch < |q.allQ| && ch < |q.readQ| && ch < |q.writeQ|
  {
    match w
    case AllLine => q.allQ[ch]
    case ReadLine => q.readQ[ch]
    case WriteLine => q.writeQ[ch]
  }

  function WithLine(q: TxnQueues, w: Line, ch: nat, line: seq<Txn>): TxnQueues
    requires ch < |q.allQ| && ch < |q.readQ| && ch < |q.writeQ|
  {
    match w
    case AllLine => q.(allQ := q.allQ[ch := line])
    case ReadLine => q.(readQ := q.readQ[ch := line])
    case WriteLine => q.(writeQ := q.writeQ[ch := line])
  }

  /** Where the channel's next transaction comes from: the preferred queue, else the other. */
  function Selection(s: Setup, queues: seq<seq<Command>>, tracked: seq<Tracked>, q: TxnQueues, ch: nat)
    : (r: Option<(Line, nat)>)
    requires QueuesOk(s, queues, tracked, q) && ch < s.c.channels
    ensures r.Some? ==> r.value.1 < |LineOf(q, r.value.0, ch)|
                        && Ready(s, queues, q, ch, LineOf(q, r.value.0, ch)[r.value.1])
                        && (s.readFirst <==> !r.value.0.AllLine?)
                        && (!s.firstReady ==> r.value.1 == 0)
  {
    var first := if !s.readFirst then AllLine else if q.flush then WriteLine else ReadLine;
    var second := if !s.readFirst then AllLine else if q.flush then ReadLine else WriteLine;
    match Choose(s, queues, tracked, q, ch, LineOf(q, first, ch))
    case Some(i) => Some((first, i))
    case None =>
      match Choose(s, queues, tracked, q, ch, LineOf(q, second, ch))
      case Some(i) => Some((second, i))
      case None => None
  }

  function Flushed(s: Setup, q: TxnQueues, ch: nat): TxnQueues
    requires ch < |q.readQ| && ch < |q.writeQ|
  {
    if s.readFirst then q.(flush := Flushing(s, q, ch)) else q
  }

  /** One channel of the transaction scheduler's run. */
  function PickChannel(s: Setup, queues: seq<seq<Command>>, tracked: seq<Tracked>, q: TxnQueues, ch: nat): (r: Picked)
    requires QueuesOk(s, queues, tracked, q) && ch < s.c.channels
  {
    var q1 := Flushed(s, q, ch);
    match Selection(s, queues, tracked, q1, ch)
    case Some((w, i)) => Picked(WithLine(q1, w, ch, Without(LineOf(q1, w, ch), i)), [LineOf(q1, w, ch)[i]])
    case None => Picked(q1, [])
  }

  lemma WithoutOk(s: Setup, queues: seq<seq<Command>>, tracked: seq<Tracked>, q: TxnQueues, w: Line, ch: nat, i: nat)
    requires QueuesOk(s, queues, tracked, q) && ch < s.c.channels && i < |LineOf(q, w, ch)|
    ensures QueuesOk(s, queues, tracked, WithLine(q, w, ch, Without(LineOf(q, w, ch), i)))
  {
    var line := LineOf(q, w, ch);
    assert TxnsOk(s, queues, tracked, line, ch);
    assert TxnsOk(s, queues, tracked, Without(line, i), ch);
  }

  /** A channel picks at most one transaction, of its own, with room for three commands. */
  lemma PickChannelOk(s: Setup, queues: seq<seq<Command>>, tracked: seq<Tracked>, q: TxnQueues, ch: nat)
    requires QueuesOk(s, queues, tracked, q) && ch < s.c.channels
    ensures QueuesOk(s, queues, tracked, PickChannel(s, queues, tracked, q, ch).q)
    ensures var picks := PickChannel(s, queues, tracked, q, ch).picks;
      |picks| <= 1 && forall i :: 0 <= i < |picks| ==>
        && picks[i].bank < |queues| && picks[i].bank < |tracked| && s.c.ChannelOf(picks[i].bank) == ch
        && 3 <= Token(s, queues[picks[i].bank])
  {
    var q1 := Flushed(s, q, ch);
    match Selection(s, queues, tracked, q1, ch)
    case Some((w, i)) => WithoutOk(s, queues, tracked, q1, w, ch, i);
    case None =>
  }

  function PickFrom(s: Setup, queues: seq<seq<Command>>, tracked: seq<Tracked>, q: TxnQueues, ch: nat): (r: Picked)
    requires QueuesOk(s, queues, tracked, q) && ch <= s.c.channels
    ensures QueuesOk(s, queues, tracked, r.q)
    ensures forall i :: 0 <= i < |r.picks| ==> r.picks[i].bank < |queues| && r.picks[i].bank < |tracked|
    decreases s.c.channels - ch
  {
    if ch == s.c.channels then Picked(q, [])
    else
      PickChannelOk(s, queues, tracked, q, ch);
      var here := PickChannel(s, queues, tracked, q, ch);
      var rest := PickFrom(s, queues, tracked, here.q, ch + 1);
      Picked(rest.q, here.picks + rest.picks)
  }

  // ---------------------------------------------------------------- accepting requests

  function PushTxn(s: Setup, q: TxnQueues, t: Txn): (TxnQueues, bool)
    requires s.c.ChannelOf(t.bank) < |q.allQ| && s.c.ChannelOf(t.bank) < |q.readQ| && s.c.ChannelOf(t.bank) < |q.writeQ|
  {
    var ch := s.c.ChannelOf(t.bank);
    if !s.readFirst then
      if |q.allQ[ch]| < s.txnEntries then (q.(allQ := q.allQ[ch := q.allQ[ch] + [t]]), true) else (q, false)
    else if t.isRead then
      if |q.readQ[ch]| < s.txnEntries then (q.(readQ := q.readQ[ch := q.readQ[ch] + [t]]), true) else (q, false)
    else
      if |q.writeQ[ch]| < s.txnEntries then (q.(writeQ := q.writeQ[ch := q.writeQ[ch] + [t]]), true) else (q, false)
  }

  ghost predicate RequestsOk(s: Setup, queues: seq<seq<Command>>, tracked: seq<Tracked>, reqQ: seq<Txn>) {
    forall j :: 0 <= j < |reqQ| ==>
      reqQ[j].bank < |queues| && reqQ[j].bank < |tracked| && s.c.ChannelOf(reqQ[j].bank) < s.c.channels
  }

  predicate WritesTo(line: seq<Txn>, addr: nat)
    { exists i :: 0 <= i < |line| && !line[i].isRead && line[i].addr == addr }

  /** isHit: a read finds a queued write to its address. */
  predicate HitsQueue(s: Setup, q: TxnQueues, t: Txn)
    requires s.c.ChannelOf(t.bank) < |q.allQ| && s.c.ChannelOf(t.bank) < |q.writeQ|
  {
    var ch := s.c.ChannelOf(t.bank);
    t.isRead && WritesTo(if !s.readFirst then q.allQ[ch] else q.writeQ[ch], t.addr)
  }

  /** With quick response such a read is answered at once and never reaches the memory. */
  predicate QuickHit(s: Setup, q: TxnQueues, t: Txn)
    requires s.c.ChannelOf(t.bank) < |q.allQ| && s.c.ChannelOf(t.bank) < |q.writeQ|
  {
    s.quick && HitsQueue(s, q, t)
  }

  /** Move requests into the transaction queues until one finds no room; quick hits drop out. */
  function Accept(s: Setup, q: TxnQueues, reqQ: seq<Txn>): (r: (TxnQueues, seq<Txn>))
    requires |q.allQ| == |q.readQ| == |q.writeQ| == s.c.channels
    requires forall j :: 0 <= j < |reqQ| ==> s.c.ChannelOf(reqQ[j].bank) < s.c.channels
    decreases |reqQ|
  {
    if reqQ == [] then (q, [])
    else if QuickHit(s, q, reqQ[0]) then Accept(s, q, reqQ[1..])
    else
      var pushed := PushTxn(s, q, reqQ[0]);
      if pushed.1 then Accept(s, pushed.0, reqQ[1..]) else (q, reqQ)
  }

  /** A request taken from the request queue: a quick hit, or queued for the memory. */
  datatype Taken = Taken(txn: Txn, hit: bool)

  /** The requests `Accept` takes, in order. */
  function AcceptLog(s: Setup, q: TxnQueues, reqQ: seq<Txn>): seq<Taken>
    requires |q.allQ| == |q.readQ| == |q.writeQ| == s.c.channels
    requires forall j :: 0 <= j < |reqQ| ==> s.c.ChannelOf(reqQ[j].bank) < s.c.channels
    decreases |reqQ|
  {
    if reqQ == [] then []
    else if QuickHit(s, q, reqQ[0]) then [Taken(reqQ[0], true)] + AcceptLog(s, q, reqQ[1..])
    else
      var pushed := PushTxn(s, q, reqQ[0]);
      if pushed.1 then [Taken(reqQ[0], false)] + AcceptLog(s, pushed.0, reqQ[1..]) else []
  }

  // ---------------------------------------------------------------- command scheduler

  /** The command scheduler looks at the queue of `bank`. */
  function Visit(c: Config, d: Driver, queues: seq<seq<Command>>, bank: nat): (r: (Driver, seq<seq<Command>>))
    requires Shape(c, d) && |queues| == c.Banks() && bank < c.Banks()
    requires queues[bank] != [] ==> WfBank(c, queues[bank][0].bank)
    ensures Shape(c, r.0) && |r.1| == |queues|
  {
    if queues[bank] == [] then (d, queues)
    else
      var cmd := queues[bank][0];
      var allowed := CmdAllowed(c, d, cmd);
      if !allowed.1 then (allowed.0, queues)
      else
        var pushed := Push(c, allowed.0, cmd);
        (pushed.0, if pushed.1 then queues[bank := queues[bank][1..]] else queues)
  }

  /** All commands of the queue are for `bank`. */
  ghost predicate OwnQueue(c: Config, q: seq<Command>, bank: nat)
    requires c.Valid()
  {
    forall j :: 0 <= j < |q| ==> q[j].bank == bank && WfBank(c, bank)
  }

  ghost predicate OwnQueues(c: Config, queues: seq<seq<Command>>)
    requires c.Valid()
  {
    forall b :: 0 <= b < |queues| ==> OwnQueue(c, queues[b], b)
  }

  function VisitAll(c: Config, d: Driver, queues: seq<seq<Command>>, order: seq<nat>): (r: (Driver, seq<seq<Command>>))
    requires Shape(c, d) && |queues| == c.Banks() && OwnQueues(c, queues)
    requires forall i :: 0 <= i < |order| ==> order[i] < c.Banks()
    ensures Shape(c, r.0) && |r.1| == |queues|
    decreases |order|
  {
    if order == [] then (d, queues)
    else
      var v := Visit(c, d, queues, order[0]);
      VisitAll(c, v.0, v.1, order[1..])
  }

  /** Position `start + i` of a ring of `n`. */
  function Around(start: nat, i: nat, n: nat): (r: nat)
    requires 0 < n
    ensures r < n
  {
    (start + i) % n
  }

  /** One channel's banks, from its round-robin start. */
  function ChannelOrder(banks: seq<nat>, start: nat): (r: seq<nat>)
    ensures |r| == |banks|
  {
    seq(|banks|, i requires 0 <= i < |banks| => banks[Around(start, i, |banks|)])
  }

  /** The order in which one run visits the banks: channel by channel, each from its start. */
  function VisitOrder(c: Config, starts: seq<nat>, ch: nat): seq<nat>
    requires |starts| == c.channels == |c.banksOfChannel| && ch <= c.channels
    decreases c.channels - ch
  {
    if ch == c.channels then []
    else ChannelOrder(c.banksOfChannel[ch], starts[ch]) + VisitOrder(c, starts, ch + 1)
  }

  function NextStarts(c: Config, starts: seq<nat>): (r: seq<nat>)
    requires |starts| == c.channels == |c.banksOfChannel|
    ensures |r| == |starts|
  {
    seq(|starts|, ch requires 0 <= ch < |starts| =>
      if c.banksOfChannel[ch] == [] then starts[ch] else Around(starts[ch], 1, |c.banksOfChannel[ch]|))
  }

  lemma VisitOrderOk(c: Config, starts: seq<nat>, ch: nat)
    requires c.Valid() && |starts| == c.channels && ch <= c.channels
    ensures forall i :: 0 <= i < |VisitOrder(c, starts, ch)| ==> VisitOrder(c, starts, ch)[i] < c.Banks()
    decreases c.channels - ch
  {
    if ch < c.channels { VisitOrderOk(c, starts, ch + 1); }
  }

  // ---------------------------------------------------------------- one clock cycle

  ghost predicate SystemShape(s: Setup, y: System) {
    && Shape(s.c, y.d)
    && |y.queues| == |y.tracked| == s.c.Banks()
    && |y.starts| == s.c.channels
    && OwnQueues(s.c, y.queues)
    && QueuesOk(s, y.queues, y.tracked, y.txns)
    && RequestsOk(s, y.queues, y.tracked, y.reqQ)
  }

  lemma PushOk(s: Setup, queues: seq<seq<Command>>, tracked: seq<Tracked>, q: TxnQueues, t: Txn)
    requires QueuesOk(s, queues, tracked, q) && t.bank < |queues| && t.bank < |tracked|
    requires s.c.ChannelOf(t.bank) < s.c.channels
    ensures QueuesOk(s, queues, tracked, PushTxn(s, q, t).0)
  {}

  lemma {:induction false} AcceptOk(s: Setup, queues: seq<seq<Command>>, tracked: seq<Tracked>, q: TxnQueues,
                                    reqQ: seq<Txn>)
    requires QueuesOk(s, queues, tracked, q) && RequestsOk(s, queues, tracked, reqQ)
    ensures QueuesOk(s, queues, tracked, Accept(s, q, reqQ).0) && RequestsOk(s, queues, tracked, Accept(s, q, reqQ).1)
    decreases |reqQ|
  {
    hide PushTxn, HitsQueue, TxnsOk;
    if reqQ != [] {
      PushOk(s, queues, tracked, q, reqQ[0]);
      if QuickHit(s, q, reqQ[0]) { AcceptOk(s, queues, tracked, q, reqQ[1..]); }
      else if PushTxn(s, q, reqQ[0]).1 { AcceptOk(s, queues, tracked, PushTxn(s, q, reqQ[0]).0, reqQ[1..]); }
    }
  }

  lemma {:induction false} PushAllOwn(s: Setup, q: seq<Command>, cmds: seq<Command>, bank: nat)
    requires forall j :: 0 <= j < |q| ==> q[j].bank == bank
    requires forall j :: 0 <= j < |cmds| ==> cmds[j].bank == bank
    ensures forall j :: 0 <= j < |PushAll(s, q, cmds).0| ==> PushAll(s, q, cmds).0[j].bank == bank
    decreases |cmds|
  {
    if cmds != [] { PushAllOwn(s, if |q| < s.cmdEntries then q + [cmds[0]] else q, cmds[1..], bank); }
  }

  lemma OwnUpdate(c: Config, queues: seq<seq<Command>>, bank: nat, q: seq<Command>)
    requires c.Valid() && |queues| == c.Banks() && OwnQueues(c, queues) && bank < c.Banks()
    requires forall j :: 0 <= j < |q| ==> q[j].bank == bank
    ensures OwnQueues(c, queues[bank := q])
  {
    BankIsWf(c, bank);
    assert OwnQueue(c, q, bank);
  }

  lemma ConvertOneOwn(s: Setup, v: Converted, txn: Txn)
    requires s.c.Valid() && |v.queues| == |v.tracked| == s.c.Banks() && OwnQueues(s.c, v.queues)
    requires txn.bank < s.c.Banks()
    ensures OwnQueues(s.c, ConvertOne(s, v, txn).queues)
  {
    var cmds := Numbered(KindsFor(s.policy, v.tracked[txn.bank], txn), txn, |v.owner|);
    PushAllOwn(s, v.queues[txn.bank], cmds, txn.bank);
    OwnUpdate(s.c, v.queues, txn.bank, PushAll(s, v.queues[txn.bank], cmds).0);
  }

  lemma {:induction false} ConvertAllOwn(s: Setup, v: Converted, picks: seq<Txn>)
    requires s.c.Valid() && |v.queues| == |v.tracked| == s.c.Banks() && OwnQueues(s.c, v.queues)
    requires forall i :: 0 <= i < |picks| ==> picks[i].bank < s.c.Banks()
    ensures OwnQueues(s.c, ConvertAll(s, v, picks).queues)
    decreases |picks|
  {
    if picks != [] {
      ConvertOneOwn(s, v, picks[0]);
      ConvertAllOwn(s, ConvertOne(s, v, picks[0]), picks[1..]);
    }
  }

  lemma VisitOwn(c: Config, d: Driver, queues: seq<seq<Command>>, bank: nat)
    requires Shape(c, d) && |queues| == c.Banks() && OwnQueues(c, queues) && bank < c.Banks()
    ensures OwnQueues(c, Visit(c, d, queues, bank).1)
  {
    var q := Visit(c, d, queues, bank).1;
    assert OwnQueue(c, queues[bank], bank);
    if q != queues { OwnUpdate(c, queues, bank, queues[bank][1..]); }
  }

  lemma {:induction false} VisitAllOwn(c: Config, d: Driver, queues: seq<seq<Command>>, order: seq<nat>)
    requires Shape(c, d) && |queues| == c.Banks() && OwnQueues(c, queues)
    requires forall i :: 0 <= i < |order| ==> order[i] < c.Banks()
    ensures OwnQueues(c, VisitAll(c, d, queues, order).1)
    decreases |order|
  {
    assert c.Valid();
    hide Shape;
    if order != [] {
      var v := Visit(c, d, queues, order[0]);
      VisitOwn(c, d, queues, order[0]);
      VisitAllOwn(c, v.0, v.1, order[1..]);
    }
  }

  /** Well-formedness of the transactions depends on the number of banks only. */
  lemma StageShape(s: Setup, y: System, y': System)
    requires SystemShape(s, y) && Shape(s.c, y'.d) && |y'.queues| == |y'.tracked| == s.c.Banks()
    requires |y'.starts| == s.c.channels
    requires OwnQueues(s.c, y'.queues) && QueuesOk(s, y.queues, y.tracked, y'.txns)
    requires RequestsOk(s, y.queues, y.tracked, y'.reqQ)
    ensures SystemShape(s, y')
  {
    hide Shape, OwnQueues;
    forall ch | 0 <= ch < s.c.channels
      ensures TxnsOk(s, y'.queues, y'.tracked, y'.txns.allQ[ch], ch)
      ensures TxnsOk(s, y'.queues, y'.tracked, y'.txns.readQ[ch], ch)
      ensures TxnsOk(s, y'.queues, y'.tracked, y'.txns.writeQ[ch], ch)
    {
      assert TxnsOk(s, y.queues, y.tracked, y'.txns.allQ[ch], ch);
    }
  }

  /** One clockTic of the controller, with the transactions that arrived since the last one.
      The flag is false if an assertion of the converter fails. */
  function Step(s: Setup, y: System, arrivals: seq<Txn>): (r: (System, bool))
    requires SystemShape(s, y) && RequestsOk(s, y.queues, y.tracked, arrivals)
    ensures SystemShape(s, r.0)
  {
    var d0 := Update(s.c, y.d);
    AcceptOk(s, y.queues, y.tracked, y.txns, y.reqQ + arrivals);
    var accepted := Accept(s, y.txns, y.reqQ + arrivals);
    var picked := PickFrom(s, y.queues, y.tracked, accepted.0, 0);
    ConvertAllOwn(s, Converted(y.queues, y.tracked, y.owner, true), picked.picks);
    var v := ConvertAll(s, Converted(y.queues, y.tracked, y.owner, true), picked.picks);
    VisitOrderOk(s.c, y.starts, 0);
    VisitAllOwn(s.c, d0, v.queues, VisitOrder(s.c, y.starts, 0));
    var visited := VisitAll(s.c, d0, v.queues, VisitOrder(s.c, y.starts, 0));
    var y' := System(Run(s.c, visited.0), visited.1, NextStarts(s.c, y.starts), Aged(s.policy, v.tracked), v.owner,
                     picked.q, accepted.1);
    StageShape(s, y, y');
    (y', v.ok)
  }

  /** A step, stage by stage. */
  lemma StepStages(s: Setup, y: System, arrivals: seq<Txn>, accepted: (TxnQueues, seq<Txn>), picked: Picked,
                   v: Converted, visited: (Driver, seq<seq<Command>>), order: seq<nat>)
    requires SystemShape(s, y) && RequestsOk(s, y.queues, y.tracked, arrivals)
    requires accepted == Accept(s, y.txns, y.reqQ + arrivals) && QueuesOk(s, y.queues, y.tracked, accepted.0)
    requires picked == PickFrom(s, y.queues, y.tracked, accepted.0, 0)
    requires v == ConvertAll(s, Converted(y.queues, y.tracked, y.owner, true), picked.picks) && OwnQueues(s.c, v.queues)
    requires order == VisitOrder(s.c, y.starts, 0) && forall i :: 0 <= i < |order| ==> order[i] < s.c.Banks()
    requires visited == VisitAll(s.c, Update(s.c, y.d), v.queues, order)
    ensures Step(s, y, arrivals) ==
      (System(Run(s.c, visited.0), visited.1, NextStarts(s.c, y.starts), Aged(s.policy, v.tracked), v.owner, picked.q,
              accepted.1), v.ok)
  {
    hide Accept, PickFrom, ConvertAll, VisitOrder, VisitAll, Update, Run, NextStarts, Aged, Shape;
  }

  /** What a step does to the transactions. */
  lemma StepResults(s: Setup, y: System, arrivals: seq<Txn>, q: TxnQueues, v: Converted, picked: Picked)
    requires SystemShape(s, y) && RequestsOk(s, y.queues, y.tracked, arrivals)
    requires q == Accept(s, y.txns, y.reqQ + arrivals).0 && QueuesOk(s, y.queues, y.tracked, q)
    requires picked == PickFrom(s, y.queues, y.tracked, q, 0)
    requires v == ConvertAll(s, Converted(y.queues, y.tracked, y.owner, true), picked.picks)
    ensures Step(s, y, arrivals).0.owner == v.owner && Step(s, y, arrivals).0.txns == picked.q
    ensures Step(s, y, arrivals).0.reqQ == Accept(s, y.txns, y.reqQ + arrivals).1
    ensures Step(s, y, arrivals).0.tracked == Aged(s.policy, v.tracked)
    ensures Step(s, y, arrivals).0.starts == NextStarts(s.c, y.starts)
  {}
}
