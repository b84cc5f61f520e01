/** Refresh: creating it keeps the driver's invariant, its commands reach all their banks in
    one cycle or none, and a rank with a refresh pending receives nothing else. */
module RefreshSafety {
  import opened Sequences
  import opened Dram
  import opened BankModel
  import opened DriverModel
  import opened Spacing
  import opened Rows
  import opened DriverSafety

  // ---------------------------------------------------------------- queue changes

  /** A bank whose stream of commands stays keeps its flow. */
  lemma SameStream(b: Bank, q: seq<Command>, q': seq<Command>, trace: seq<Event>, k: Backlog, k': Backlog, bank: nat)
    requires bank < |k.queues| && bank < |k.believed| && bank < |k'.queues| && bank < |k'.believed|
    requires BankFlow(b, q, trace, k, bank) && k'.owner == k.owner && k'.believed[bank] == k.believed[bank]
    requires Stream(q', k', bank) == Stream(q, k, bank)
    ensures BankFlow(b, q', trace, k', bank)
  {
    hide FlowOk, InOrder, Replay, Issued, Stream;
  }

  /** So does one whose stream gets an ACT in front of a column command. */
  lemma ReopenedStream(b: Bank, q: seq<Command>, q': seq<Command>, trace: seq<Event>, k: Backlog, bank: nat,
                       before: seq<Command>, rest: seq<Command>)
    requires bank < |k.queues| && bank < |k.believed| && BankFlow(b, q, trace, k, bank)
    requires rest != [] && IsColumn(rest[0].kind) && Stream(q, k, bank) == before + rest
    requires Stream(q', k, bank) == before + ([Reopening(rest[0])] + rest)
    ensures BankFlow(b, q', trace, k, bank)
  {
    hide FlowOk, InOrder, Replay, Issued, Stream, Reopening;
    FlowReopen(Eff(b), before, rest, k.believed[bank]);
    OrderReopen(Issued(trace, bank), before, rest, rest[0], |k.owner|);
  }

  /** The flow of all banks with another input queue and backlog. */
  lemma FlowMoved(banks: seq<Bank>, q: seq<Command>, q': seq<Command>, trace: seq<Event>, k: Backlog, k': Backlog)
    requires FlowOn(banks, q, trace, k) && |k'.queues| == |k'.believed| == |banks| && OriginsOk(q', trace, k')
    requires forall i :: 0 <= i < |banks| ==> BankFlow(banks[i], q', trace, k', i)
    ensures FlowOn(banks, q', trace, k')
  {
    hide BankFlow, OriginsOk, RowSafe, Issued;
  }

  lemma FrontStream(q: seq<Command>, k: Backlog, i: nat, bank: nat)
    requires bank < |k.queues| && i < |q| && forall j :: 0 <= j < i ==> q[j].bank != q[i].bank
    ensures var s, s' := Stream(q, k, bank), Stream([Reopening(q[i])] + q, k, bank);
      if bank == q[i].bank then s != [] && s[0] == q[i] && s' == [Reopening(q[i])] + s else s' == s
  {
    hide For, Reopening;
    ForCons(Reopening(q[i]), q, bank);
    ReopeningBank(q[i]);
    Assoc([Reopening(q[i])], For(q, bank), k.queues[bank]);
    if bank == q[i].bank { ForFirst(q, i, bank); }
  }

  lemma ReopeningBank(cmd: Command)
    ensures Reopening(cmd).bank == cmd.bank
  {}

  lemma ForCons(cmd: Command, q: seq<Command>, bank: nat)
    ensures For([cmd] + q, bank) == if cmd.bank == bank then [cmd] + For(q, bank) else For(q, bank)
  {
    assert ([cmd] + q)[1..] == q;
    EmptyIsUnit(For(q, bank));
  }

  lemma OriginsFront(q: seq<Command>, trace: seq<Event>, k: Backlog, cmd: Command)
    requires OriginsOk(q, trace, k)
    ensures OriginsOk([Reopening(cmd)] + q, trace, k) && OriginsOk(q + [Reopening(cmd)], trace, k)
  {}

  /** Re-opening the row of the first waiting column command of a bank keeps every flow. */
  lemma FlowReopenFront(banks: seq<Bank>, q: seq<Command>, trace: seq<Event>, k: Backlog, i: nat)
    requires FlowOn(banks, q, trace, k) && i < |q| && IsColumn(q[i].kind)
    requires forall j :: 0 <= j < i ==> q[j].bank != q[i].bank
    ensures FlowOn(banks, [Reopening(q[i])] + q, trace, k)
  {
    hide BankFlow, OriginsOk, RowSafe, Issued, Stream, Reopening;
    var q' := [Reopening(q[i])] + q;
    forall b | 0 <= b < |banks|
      ensures BankFlow(banks[b], q', trace, k, b)
    {
      FrontStream(q, k, i, b);
      if b == q[i].bank {
        EmptyIsUnit(Stream(q, k, b));
        EmptyIsUnit(Stream(q', k, b));
        ReopenedStream(banks[b], q, q', trace, k, b, [], Stream(q, k, b));
      } else {
        SameStream(banks[b], q, q', trace, k, k, b);
      }
    }
    OriginsFront(q, trace, k, q[i]);
    FlowMoved(banks, q, q', trace, k, k);
  }

  lemma BackStream(q: seq<Command>, k: Backlog, cmd: Command, bank: nat)
    requires bank < |k.queues|
    ensures Stream(q + [cmd], k, bank) == For(q, bank) + ((if cmd.bank == bank then [cmd] else []) + k.queues[bank])
  {
    hide For;
    ForConcat(q, [cmd], bank);
    ForCons(cmd, [], bank);
    ForNone([], bank);
    EmptyIsUnit([cmd]);
    Assoc(For(q, bank), if cmd.bank == bank then [cmd] else [], k.queues[bank]);
  }

  /** So does re-opening, at the back of the input queue, the row of the oldest command in a
      bank's command queue. */
  lemma FlowReopenBack(banks: seq<Bank>, q: seq<Command>, trace: seq<Event>, k: Backlog, bank: nat)
    requires FlowOn(banks, q, trace, k) && bank < |banks| && k.queues[bank] != [] && IsColumn(k.queues[bank][0].kind)
    ensures FlowOn(banks, q + [Reopening(k.queues[bank][0])], trace, k)
  {
    var cmd := k.queues[bank][0];
    var q' := q + [Reopening(cmd)];
    QueueHead(q, trace, k, bank);
    hide BankFlow, OriginsOk, RowSafe, Issued, For;
    forall b | 0 <= b < |banks|
      ensures BankFlow(banks[b], q', trace, k, b)
    {
      BackStream(q, k, Reopening(cmd), b);
      if b == bank {
        ReopenedStream(banks[b], q, q', trace, k, b, For(q, b), k.queues[b]);
      } else {
        EmptyIsUnit(k.queues[b]);
        SameStream(banks[b], q, q', trace, k, k, b);
      }
    }
    OriginsFront(q, trace, k, cmd);
    FlowMoved(banks, q, q', trace, k, k);
  }

  lemma QueueHead(q: seq<Command>, trace: seq<Event>, k: Backlog, bank: nat)
    requires OriginsOk(q, trace, k) && bank < |k.queues| && k.queues[bank] != []
    ensures k.queues[bank][0].bank == bank && k.queues[bank][0].origin == FromTxn && Known(k.queues[bank][0], k)
  {}

  lemma {:induction false} FlowWithReopens(banks: seq<Bank>, q: seq<Command>, trace: seq<Event>, k: Backlog,
                                           ids: seq<nat>)
    requires FlowOn(banks, q, trace, k)
    ensures FlowOn(banks, WithReopens(q, ids), trace, k)
    decreases |ids|
  {
    if ids != [] {
      var i := FirstFor(q, ids[0]);
      if i < |q| && IsColumn(q[i].kind) {
        FlowReopenFront(banks, q, trace, k, i);
        FlowWithReopens(banks, [Reopening(q[i])] + q, trace, k, ids[1..]);
      } else {
        FlowWithReopens(banks, q, trace, k, ids[1..]);
      }
    }
  }

  lemma OriginsPush(q: seq<Command>, trace: seq<Event>, k: Backlog, bank: nat)
    requires OriginsOk(q, trace, k) && bank < |k.queues| && k.queues[bank] != []
    ensures OriginsOk(q + [k.queues[bank][0]], trace, k.(queues := k.queues[bank := k.queues[bank][1..]]))
  {
    var k' := k.(queues := k.queues[bank := k.queues[bank][1..]]);
    forall b, j | 0 <= b < |k'.queues| && 0 <= j < |k'.queues[b]|
      ensures k'.queues[b][j].origin == FromTxn && k'.queues[b][j].bank == b && Known(k'.queues[b][j], k')
    {
      if b == bank { assert k'.queues[b][j] == k.queues[b][j + 1]; }
    }
  }

  /** Moving the oldest queued command of a bank to the input queue changes no bank's stream. */
  lemma FlowPush(banks: seq<Bank>, q: seq<Command>, trace: seq<Event>, k: Backlog, bank: nat)
    requires FlowOn(banks, q, trace, k) && bank < |banks| && k.queues[bank] != []
    ensures FlowOn(banks, q + [k.queues[bank][0]], trace, k.(queues := k.queues[bank := k.queues[bank][1..]]))
  {
    var cmd := k.queues[bank][0];
    var k' := k.(queues := k.queues[bank := k.queues[bank][1..]]);
    QueueHead(q, trace, k, bank);
    hide BankFlow, OriginsOk, RowSafe, Issued, For;
    forall b | 0 <= b < |banks|
      ensures BankFlow(banks[b], q + [cmd], trace, k', b)
    {
      BackStream(q, k', cmd, b);
      if b == bank { HeadAndRest(k.queues[b]); } else { EmptyIsUnit(k.queues[b]); }
      SameStream(banks[b], q, q + [cmd], trace, k, k', b);
    }
    OriginsPush(q, trace, k, bank);
    FlowMoved(banks, q, q + [cmd], trace, k, k');
  }

  // ---------------------------------------------------------------- creating and sending

  lemma SafeCreate(c: Config, d: Driver, k: Backlog, rank: nat)
    requires Safe(c, d, k) && rank < c.Ranks()
    ensures Safe(c, CreateRefresh(c, d, rank), k)
  {
    var ids := Requesters(c, d, rank);
    FlowWithReopens(d.banks, d.inputQ, d.trace, k, ids);
    SafeOf(c, CreateRefresh(c, d, rank), k, d.banks, WithReopens(d.inputQ, ids), d.trace, d.now);
  }

  /** A command of a refresh constrains no other bank. */
  lemma RefreshSpreadsNothing(c: Config, b: Bank, i: nat, cmd: Command, now: nat)
    requires c.Valid() && (cmd.kind == PRE || cmd.kind == REF)
    ensures Spread(c, b, i, cmd, now) == b
  {}

  /** What issuing a command of a refresh leaves alone. */
  lemma RefreshIssued(c: Config, d: Driver, kind: Kind, bank: nat)
    requires Shape(c, d) && (kind == PRE || kind == REF) && bank < c.Banks() && CanSend(d, GroupMember(kind, bank))
    ensures var d' := Issue(c, d, GroupMember(kind, bank));
      && d'.blockBank == d.blockBank && d'.actIssued == d.actIssued && d'.faw == d.faw && d'.now == d.now
      && d'.trace == d.trace + [Event(d.now, GroupMember(kind, bank))] && |d'.banks| == |d.banks|
      && (forall b :: 0 <= b < |d.banks| && b != bank ==> d'.banks[b] == d.banks[b])
      && d'.banks[bank] == Handle(d.banks[bank], GroupMember(kind, bank), d.now)
  {
    hide Spread, Handle;
    forall b | 0 <= b < |d.banks| && b != bank
      ensures Issue(c, d, GroupMember(kind, bank)).banks[b] == d.banks[b]
    {
      RefreshSpreadsNothing(c, d.banks[b], b, GroupMember(kind, bank), d.now);
    }
  }

  lemma RefreshHoldsNoAct(b: Bank, kind: Kind, bank: nat, now: nat)
    requires (kind == PRE || kind == REF) && Allows(b, kind) && !HoldsAct(b)
    ensures !HoldsAct(Handle(b, GroupMember(kind, bank), now))
  {}

  lemma {:induction false} SafeIssueAll(c: Config, d: Driver, k: Backlog, kind: Kind, ids: seq<nat>)
    requires Safe(c, d, k) && (kind == PRE || kind == REF) && NoneHoldsAct(d.banks)
    requires forall i :: 0 <= i < |ids| ==> ids[i] < c.Banks() && WfBank(c, ids[i])
    ensures Safe(c, IssueAll(c, d, kind, ids), k) && NoneHoldsAct(IssueAll(c, d, kind, ids).banks)
    ensures var d' := IssueAll(c, d, kind, ids);
            d'.blockBank == d.blockBank && d'.actIssued == d.actIssued && d'.faw == d.faw && d'.now == d.now
    decreases |ids|
  {
    SafeShape(c, d, k);
    hide Safe, Shape, HoldsAct, Handle, Issue, WfBank;
    if ids != [] {
      var cmd := GroupMember(kind, ids[0]);
      if CanSend(d, cmd) {
        SafeIssueRefresh(c, d, k, kind, ids[0]);
        RefreshIssued(c, d, kind, ids[0]);
        RefreshHoldsNoAct(d.banks[ids[0]], kind, ids[0], d.now);
        SafeIssueAll(c, Issue(c, d, cmd), k, kind, ids[1..]);
      } else {
        SafeIssueAll(c, d, k, kind, ids[1..]);
      }
    }
  }

  lemma SafeShape(c: Config, d: Driver, k: Backlog)
    requires Safe(c, d, k)
    ensures Shape(c, d) && c.Valid() && |d.banks| == c.Banks()
  {}

  /** Facts about the driver between the start of a cycle and its request loop. */
  ghost predicate Fresh(c: Config, d: Driver, k: Backlog) {
    && Safe(c, d, k) && NoneHoldsAct(d.banks)
    && (forall r :: 0 <= r < |d.actIssued| ==> !d.actIssued[r])
  }

  lemma FreshSend(c: Config, d: Driver, k: Backlog, rank: nat)
    requires Shape(c, d) && Fresh(c, d, k) && rank < c.Ranks() && d.refreshQ[rank] != []
    ensures Fresh(c, SendRefresh(c, d, rank), k)
  {
    var g := d.refreshQ[rank][0];
    assert WfGroup(c, rank, g);
    if AllAccept(d, g) && BusFree(d, g.kind, c.ChannelOf(g.banks[0])) {
      SafeIssueAll(c, d, k, g.kind, g.banks);
      var d1 := IssueAll(c, d, g.kind, g.banks);
      SafeOf(c, SendRefresh(c, d, rank), k, d1.banks, d1.inputQ, d1.trace, d1.now);
    }
  }

  /** The refresh counter plays no part in the invariant. */
  lemma FreshRefi(c: Config, d: Driver, k: Backlog, rank: nat, count: nat)
    requires Shape(c, d) && Fresh(c, d, k) && rank < c.Ranks()
    ensures Fresh(c, d.(refi := d.refi[rank := count]), k)
  {
    var d' := d.(refi := d.refi[rank := count]);
    assert Shape(c, d');
    hide SpacingInv, FlowOn, NoneHoldsAct;
    SafeOf(c, d', k, d.banks, d.inputQ, d.trace, d.now);
  }

  lemma FreshCreate(c: Config, d: Driver, k: Backlog, rank: nat)
    requires Shape(c, d) && Fresh(c, d, k) && rank < c.Ranks()
    ensures Fresh(c, CreateRefresh(c, d, rank), k)
  {
    SafeCreate(c, d, k, rank);
    hide Safe;
  }

  lemma FreshCounted(c: Config, d: Driver, k: Backlog, rank: nat)
    requires Shape(c, d) && Fresh(c, d, k) && rank < c.Ranks()
    ensures Fresh(c, Counted(c, d, rank), k)
  {
    hide Fresh, Shape, CreateRefresh;
    RefiOf(c, d);
    if 0 < d.refi[rank] {
      FreshRefi(c, d, k, rank, d.refi[rank] - 1);
    } else {
      FreshCreate(c, d, k, rank);
      RefiOf(c, CreateRefresh(c, d, rank));
      FreshRefi(c, CreateRefresh(c, d, rank), k, rank, c.p.nREFI);
    }
  }

  lemma FreshRank(c: Config, d: Driver, k: Backlog, rank: nat)
    requires Shape(c, d) && Fresh(c, d, k) && rank < c.Ranks()
    ensures Fresh(c, RefreshRank(c, d, rank), k)
  {
    hide Fresh, Shape, Counted, SendRefresh;
    FreshCounted(c, d, k, rank);
    RefiOf(c, Counted(c, d, rank));
    if Counted(c, d, rank).refreshQ[rank] != [] { FreshSend(c, Counted(c, d, rank), k, rank); }
  }

  lemma RefiOf(c: Config, d: Driver)
    requires Shape(c, d)
    ensures |d.refi| == |d.refreshQ| == c.Ranks()
  {}

  lemma {:induction false} FreshFrom(c: Config, d: Driver, k: Backlog, rank: nat, d': Driver)
    requires Shape(c, d) && Fresh(c, d, k) && rank <= c.Ranks() && d' == RefreshFrom(c, d, rank)
    ensures Fresh(c, d', k)
    decreases c.Ranks() - rank
  {
    hide RefreshRank, Fresh, Shape;
    FreshShape(c, d, k);
    if rank < c.Ranks() {
      FreshRank(c, d, k, rank);
      FreshFrom(c, RefreshRank(c, d, rank), k, rank + 1, d');
    }
  }

  lemma FreshShape(c: Config, d: Driver, k: Backlog)
    requires Fresh(c, d, k)
    ensures Shape(c, d)
  {}

  /** A whole run of the driver keeps the invariant. */
  lemma SafeRun(c: Config, d: Driver, k: Backlog)
    requires Fresh(c, d, k)
    ensures Safe(c, Run(c, d), k)
  {
    var d1 := ReleaseBuses(d);
    SafeOf(c, d1, k, d.banks, d.inputQ, d.trace, d.now);
    assert Fresh(c, d1, k);
    if c.useRefresh { FreshFrom(c, d1, k, 0, RefreshFrom(c, d1, 0)); }
    var d2 := if c.useRefresh then RefreshFrom(c, d1, 0) else d1;
    assert forall b :: 0 <= b < c.Banks() && WfBank(c, b) ==> !d2.actIssued[c.RankOf(b)];
    SendLoopSafe(c, d2, k, ActCounts(d2.faw), 0);
  }

  /** The start of a cycle makes the driver fresh. */
  lemma FreshUpdate(c: Config, d: Driver, k: Backlog)
    requires Safe(c, d, k)
    ensures Fresh(c, Update(c, d), k)
  {
    SafeUpdate(c, d, k);
    UpdateClearsActs(c, d);
  }

  // ---------------------------------------------------------------- atomic

  /** The trace lines of a group command sent in cycle `now`. */
  ghost function GroupEvents(now: nat, g: GroupCommand): seq<Event> {
    seq(|g.banks|, i requires 0 <= i < |g.banks| => Event(now, GroupMember(g.kind, g.banks[i])))
  }

  lemma GroupEventsCons(now: nat, kind: Kind, ids: seq<nat>, trace: seq<Event>)
    requires ids != []
    ensures trace + GroupEvents(now, GroupCommand(kind, ids)) ==
      (trace + [Event(now, GroupMember(kind, ids[0]))]) + GroupEvents(now, GroupCommand(kind, ids[1..]))
  {
    var rest := GroupEvents(now, GroupCommand(kind, ids[1..]));
    assert GroupEvents(now, GroupCommand(kind, ids)) == [Event(now, GroupMember(kind, ids[0]))] + rest;
    hide GroupEvents;
    Regroup(trace, Event(now, GroupMember(kind, ids[0])), rest);
  }

  lemma {:induction false} IssueAllTrace(c: Config, d: Driver, kind: Kind, ids: seq<nat>)
    requires Shape(c, d) && (kind == PRE || kind == REF)
    requires forall i :: 0 <= i < |ids| ==> ids[i] < c.Banks() && Accepts(d.banks[ids[i]], kind, d.now)
    requires forall i, j :: 0 <= i < j < |ids| ==> ids[i] != ids[j]
    ensures IssueAll(c, d, kind, ids).trace == d.trace + GroupEvents(d.now, GroupCommand(kind, ids))
    decreases |ids|
  {
    assert c.Valid() && |d.banks| == c.Banks();
    hide Shape, Issue, Accepts, GroupEvents, Handle;
    if ids == [] {
      NoGroupEvents(d.now, kind, d.trace);
    } else {
      AcceptsIs(d.banks[ids[0]], kind, d.now);
      RefreshIssued(c, d, kind, ids[0]);
      var d1 := Issue(c, d, GroupMember(kind, ids[0]));
      assert forall i :: 0 <= i < |ids[1..]| ==> ids[1..][i] == ids[i + 1];
      IssueAllTrace(c, d1, kind, ids[1..]);
      GroupEventsCons(d.now, kind, ids, d.trace);
    }
  }

  lemma NoGroupEvents(now: nat, kind: Kind, trace: seq<Event>)
    ensures trace + GroupEvents(now, GroupCommand(kind, [])) == trace
  {}

  lemma AcceptsIs(b: Bank, kind: Kind, now: nat)
    requires Accepts(b, kind, now)
    ensures Allows(b, kind)
  {}

  /** A refresh step sends its next group to all its banks in this cycle, and takes it off the
      queue, or changes neither the trace nor the queue. */
  lemma RefreshIsAtomic(c: Config, d: Driver, rank: nat)
    requires Shape(c, d) && rank < c.Ranks() && d.refreshQ[rank] != []
    ensures var d', g := SendRefresh(c, d, rank), d.refreshQ[rank][0];
            || (d'.trace == d.trace + GroupEvents(d.now, g) && d'.refreshQ == d.refreshQ[rank := d.refreshQ[rank][1..]])
            || (d'.trace == d.trace && d'.refreshQ == d.refreshQ)
  {
    var g := d.refreshQ[rank][0];
    assert WfGroup(c, rank, g);
    if AllAccept(d, g) && BusFree(d, g.kind, c.ChannelOf(g.banks[0])) {
      IssueAllTrace(c, d, g.kind, g.banks);
    }
  }
}
