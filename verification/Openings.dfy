/** Precharges are not forgotten: replaying a bank's commands from its row buffer over its waiting
    commands, every ACT finds the bank closed and every column command its row open; a refresh
    that waits counts as closing its banks. */
module Openings {
  import opened Sequences
  import opened Dram
  import opened BankModel
  import opened DriverModel
  import opened Spacing
  import opened Rows
  import opened DriverSafety
  import opened RefreshSafety
  import opened ControllerModel
  import opened ControllerSafety
  import opened Quiet
  import opened CycleEvents
  import opened RefreshTurns
  import opened Choices

  // ---------------------------------------------------------------- queued commands

  /** Each command but the first finds what it needs left by the one before it. */
  ghost predicate Linked(s: seq<Command>) {
    forall i :: 0 < i < |s| ==> Follows(Leaves(s[i - 1]), s[i])
  }

  ghost predicate Follows(r: RowBuffer, cmd: Command) {
    (cmd.kind == ACT ==> r == Closed) && (IsColumn(cmd.kind) ==> r == Open(cmd.row))
  }

  /** The first command: a column command still in the command queue may also find the bank closed,
      as the driver then opens its row. */
  ghost predicate HeadOk(r: RowBuffer, s: seq<Command>, inQ: bool) {
    s == [] || Follows(r, s[0]) || (IsColumn(s[0].kind) && r == Closed && !inQ)
  }

  ghost predicate HeadAct(s: seq<Command>) { s != [] && s[0].kind == ACT }

  /** Commands `s` of a bank, from row buffer `r`, end at the row the converter takes to be open. A
      stuck bank is open under an ACT. */
  ghost predicate Opens(r: RowBuffer, s: seq<Command>, inQ: bool, believed: RowBuffer, stuck: bool) {
    && Linked(s) && (s != [] ==> Leaves(s[|s| - 1]) == believed)
    && if stuck then HeadAct(s) && r != Closed else HeadOk(r, s, inQ)
  }

  lemma LinkedRest(s: seq<Command>)
    requires s != [] && Linked(s)
    ensures Linked(s[1..]) && (|s| > 1 ==> Follows(Leaves(s[0]), s[1]))
  {
    forall i | 0 < i < |s[1..]|
      ensures Follows(Leaves(s[1..][i - 1]), s[1..][i])
    {
      assert Follows(Leaves(s[i]), s[i + 1]);
    }
  }

  lemma LinkedCons(cmd: Command, s: seq<Command>)
    requires Linked(s) && (s != [] ==> Follows(Leaves(cmd), s[0]))
    ensures Linked([cmd] + s)
  {
    var t := [cmd] + s;
    forall i | 0 < i < |t|
      ensures Follows(Leaves(t[i - 1]), t[i])
    {
      if 1 < i { assert Follows(Leaves(s[i - 2]), s[i - 1]); }
    }
  }

  lemma LinkedConcat(a: seq<Command>, b: seq<Command>)
    requires Linked(a) && Linked(b) && (a != [] && b != [] ==> Follows(Leaves(a[|a| - 1]), b[0]))
    ensures Linked(a + b)
  {
    var t := a + b;
    forall i | 0 < i < |t|
      ensures Follows(Leaves(t[i - 1]), t[i])
    {
      if |a| < i { assert Follows(Leaves(b[i - |a| - 1]), b[i - |a|]); }
    }
  }

  /** The first command goes out. */
  lemma OpensPop(r: RowBuffer, s: seq<Command>, inQ: bool, inQ': bool, believed: RowBuffer)
    requires s != [] && Opens(r, s, inQ, believed, false)
    ensures Opens(Leaves(s[0]), s[1..], inQ', believed, false)
  {
    LinkedRest(s);
  }

  /** A refresh is to close the bank, and the row of a first column command is opened again. */
  lemma OpensReopen(r: RowBuffer, s: seq<Command>, inQ: bool, inQ': bool, believed: RowBuffer, stuck: bool)
    requires s != [] && IsColumn(s[0].kind) && Opens(r, s, inQ, believed, stuck)
    ensures Opens(Closed, [Reopening(s[0])] + s, inQ', believed, false)
  {
    LinkedCons(Reopening(s[0]), s);
  }

  lemma OpensClosed(r: RowBuffer, s: seq<Command>, inQ: bool, believed: RowBuffer, stuck: bool)
    requires Opens(r, s, inQ, believed, stuck) && (s != [] && IsColumn(s[0].kind) ==> !inQ)
    ensures Opens(Closed, s, inQ, believed, false)
  {}

  /** A queue of column commands alone before a column command of the command queue. */
  lemma {:induction false} ColumnsBefore(s: seq<Command>, m: nat)
    requires m < |s| && Linked(s) && IsColumn(s[m].kind) && forall i :: 0 <= i < m ==> s[i].kind != ACT
    ensures IsColumn(s[0].kind)
    decreases m
  {
    if 0 < m {
      assert Follows(Leaves(s[m - 1]), s[m]);
      ColumnsBefore(s, m - 1);
    }
  }

  /** The commands for one transaction. */
  lemma KindsLinked(policy: Policy, t: Tracked, txn: Txn, first: nat)
    requires policy.ClosePage? ==> !t.open
    ensures var cmds := Numbered(KindsFor(policy, t, txn), txn, first);
      && cmds != [] && Linked(cmds) && Leaves(cmds[|cmds| - 1]) == BeliefOf(NextTracked(policy, t, txn))
      && Follows(BeliefOf(t), cmds[0]) && (cmds[0].kind == ACT ==> !t.open)
      && (IsColumn(cmds[0].kind) ==> t.open && cmds[0].row == t.row)
  {}

  /** New commands behind the waiting ones. */
  lemma OpensAppend(r: RowBuffer, s: seq<Command>, inQ: bool, cmds: seq<Command>, believed: RowBuffer,
                    believed': RowBuffer, stuck: bool)
    requires Opens(r, s, inQ, believed, stuck) && (inQ ==> s != []) && (s == [] ==> r == Closed || r == believed)
    requires cmds != [] && Linked(cmds) && Leaves(cmds[|cmds| - 1]) == believed' && Follows(believed, cmds[0])
    ensures Opens(r, s + cmds, inQ, believed', stuck)
  {
    LinkedConcat(s, cmds);
  }

  // ---------------------------------------------------------------- the driver

  /** A refresh that waits will close the bank. */
  ghost predicate Listed(c: Config, d: Driver, x: nat) {
    var r := c.RankOf(x);
    r < |d.refreshQ| && d.refreshQ[r] != [] && x in d.refreshQ[r][|d.refreshQ[r]| - 1].banks
  }

  ghost function HeadRow(c: Config, d: Driver, x: nat): RowBuffer
    requires x < |d.banks|
  {
    if Listed(c, d, x) then Closed else Eff(d.banks[x])
  }

  ghost predicate OpensAt(c: Config, d: Driver, k: Backlog, x: nat, stuck: bool) {
    && x < |d.banks| && x < |k.queues| && x < |k.believed|
    && Opens(HeadRow(c, d, x), Stream(d.inputQ, k, x), For(d.inputQ, x) != [], k.believed[x], stuck)
  }

  /** The precharge of a refresh is for banks of its REF. */
  ghost predicate Covered(q: seq<GroupCommand>) {
    |q| == 2 ==> forall i :: 0 <= i < |q[0].banks| ==> q[0].banks[i] in q[1].banks
  }

  ghost predicate AllCovered(refreshQ: seq<seq<GroupCommand>>) {
    forall r :: 0 <= r < |refreshQ| ==> Covered(refreshQ[r]) && WellFormedQueue(refreshQ[r])
  }

  /** The open bank has an ACT first and its refresh waits. */
  ghost predicate Strands(c: Config, d: Driver, k: Backlog, x: nat) {
    x < |d.banks| && x < |k.queues| && Listed(c, d, x) && Eff(d.banks[x]) != Closed && HeadAct(Stream(d.inputQ, k, x))
  }

  /** Whether the bank is stuck once the rank's counter has gone on: a refresh that takes the place
      of the waiting one leaves its banks behind, and a refresh of the bank frees it. */
  ghost predicate NextStuck(c: Config, d: Driver, k: Backlog, x: nat, stuck: bool)
    requires Shape(c, d) && c.RankOf(x) < c.Ranks()
  {
    var r := c.RankOf(x);
    if d.refi[r] != 0 then stuck else x !in Requesters(c, d, r) && (stuck || Strands(c, d, k, x))
  }

  lemma SameOpens(c: Config, d: Driver, d': Driver, k: Backlog, k': Backlog, x: nat, stuck: bool)
    requires OpensAt(c, d, k, x, stuck) && x < |d'.banks| && x < |k'.queues| && x < |k'.believed|
    requires HeadRow(c, d', x) == HeadRow(c, d, x) && For(d'.inputQ, x) == For(d.inputQ, x)
    requires k'.queues[x] == k.queues[x] && k'.believed[x] == k.believed[x]
    ensures OpensAt(c, d', k', x, stuck)
  {}

  /** A stage of the cycle before the refresh: the bank is as stuck as before, and as likely to be
      left behind. */
  ghost predicate Moved(c: Config, d: Driver, k: Backlog, d': Driver, k': Backlog, x: nat, stuck: bool) {
    && x < |d.banks| && x < |k.queues| && x < |d'.banks| && x < |k'.queues|
    && OpensAt(c, d', k', x, stuck) && (Strands(c, d', k', x) <==> Strands(c, d, k, x))
  }

  /** What is known of the bank from the driver's invariant. */
  lemma FlowAt(c: Config, d: Driver, k: Backlog, x: nat)
    requires Safe(c, d, k) && x < |d.banks|
    ensures |d.banks| == c.Banks() == |k.queues| == |k.believed| && c.Valid() && WfBank(c, x) && Shape(c, d)
    ensures BankFlow(d.banks[x], d.inputQ, d.trace, k, x) && BankInv(d.banks[x], d.now)
  {
    BankIsWf(c, x);
    hide BankFlow, BankInv, WfBank;
  }

  // ---------------------------------------------------------------- before the driver's run

  lemma TickedBank(c: Config, d: Driver, x: nat)
    requires Shape(c, d) && x < |d.banks| && BankInv(d.banks[x], d.now)
    ensures var d' := Update(c, d);
      && |d'.banks| == |d.banks| && Eff(d'.banks[x]) == Eff(d.banks[x])
      && d'.inputQ == d.inputQ && d'.refreshQ == d.refreshQ
  {
    TickKeeps(c.p, d.banks[x], d.now);
    TickedAt(c.p, d.banks, d.now + 1, x);
    hide Tick, Ticked, Eff, BankInv, Shifted, Shape;
  }

  lemma TickedAt(p: Params, banks: seq<Bank>, now: nat, x: nat)
    requires p.Valid() && x < |banks|
    ensures Ticked(p, banks, now)[x] == Tick(p, banks[x], now)
  {}

  lemma SameMoves(c: Config, d: Driver, k: Backlog, d': Driver, k': Backlog, x: nat, stuck: bool)
    requires OpensAt(c, d, k, x, stuck) && x < |d'.banks| && x < |k'.queues| && x < |k'.believed|
    requires Eff(d'.banks[x]) == Eff(d.banks[x]) && Listed(c, d', x) == Listed(c, d, x)
    requires For(d'.inputQ, x) == For(d.inputQ, x) && k'.queues[x] == k.queues[x] && k'.believed[x] == k.believed[x]
    ensures Moved(c, d, k, d', k', x, stuck)
  {
    hide Eff, Listed, For, Opens, HeadAct;
  }

  lemma UpdateMoves(c: Config, d: Driver, k: Backlog, x: nat, stuck: bool)
    requires Safe(c, d, k) && OpensAt(c, d, k, x, stuck)
    ensures Shape(c, d) && Moved(c, d, k, Update(c, d), k, x, stuck)
  {
    hide Update, Safe, BankFlow, Opens, Eff, Shape, BankInv, WfBank, OpensAt, Moved;
    BoundsOf(c, d, k, x, stuck);
    FlowAt(c, d, k, x);
    TickedBank(c, d, x);
    ListedSame(c, d, Update(c, d), x);
    SameMoves(c, d, k, Update(c, d), k, x, stuck);
  }

  /** Commands appended to the bank's queue. */
  lemma AppendMoves(c: Config, d: Driver, k: Backlog, k': Backlog, x: nat, cmds: seq<Command>, stuck: bool)
    requires OpensAt(c, d, k, x, stuck) && x < |k'.queues| && x < |k'.believed|
    requires FlowOk(Eff(d.banks[x]), Stream(d.inputQ, k, x), k.believed[x])
    requires k'.queues[x] == k.queues[x] + cmds && cmds != [] && Linked(cmds)
    requires Leaves(cmds[|cmds| - 1]) == k'.believed[x] && Follows(k.believed[x], cmds[0])
    ensures Moved(c, d, k, d, k', x, stuck)
  {
    hide Eff, Listed, For, Linked, Walk;
    var before := Stream(d.inputQ, k, x);
    OpensAppend(HeadRow(c, d, x), before, For(d.inputQ, x) != [], cmds, k.believed[x], k'.believed[x], stuck);
    Assoc(For(d.inputQ, x), k.queues[x], cmds);
  }

  /** A converted transaction. */
  lemma ConvertMoves(s: Setup, d: Driver, v: Converted, txn: Txn, x: nat, stuck: bool)
    requires ConverterInv(s, d, v) && txn.bank < |v.queues| && 3 <= Token(s, v.queues[txn.bank])
    requires TrackedFits(s.policy, v.tracked) && OpensAt(s.c, d, BacklogOf(v), x, stuck)
    ensures Moved(s.c, d, BacklogOf(v), d, BacklogOf(ConvertOne(s, v, txn)), x, stuck)
  {
    hide BankFlow, BankInv, Opens, Eff, Shape, For, Follows, Leaves, Linked, KindsFor, NextTracked, Numbered,
      Token, HeadRow, WithinEntries, TimersOk, NoneHoldsAct, SpacingInv, FlowOn, Safe, Fresh, ConverterInv, Moved,
      FlowOk;
    ConverterSafe(s, d, v);
    FlowAt(s.c, d, BacklogOf(v), x);
    FlowOkAt(d.banks[x], d.inputQ, d.trace, BacklogOf(v), x);
    ConvertedIs(s, v, txn, d);
    var cmds := Numbered(KindsFor(s.policy, v.tracked[txn.bank], txn), txn, |v.owner|);
    KindsLinked(s.policy, v.tracked[txn.bank], txn, |v.owner|);
    var k, k' := BacklogOf(v), BacklogOf(ConvertOne(s, v, txn));
    if x == txn.bank { AppendMoves(s.c, d, k, k', x, cmds, stuck); } else { SameMoves(s.c, d, k, d, k', x, stuck); }
  }

  lemma ConverterSafe(s: Setup, d: Driver, v: Converted)
    requires ConverterInv(s, d, v)
    ensures Safe(s.c, d, BacklogOf(v)) && |v.queues| == |v.tracked|
  {}

  lemma FlowOkAt(b: Bank, inputQ: seq<Command>, trace: seq<Event>, k: Backlog, x: nat)
    requires x < |k.queues| && x < |k.believed| && BankFlow(b, inputQ, trace, k, x)
    ensures FlowOk(Eff(b), Stream(inputQ, k, x), k.believed[x])
  {}

  /** The backlog after a conversion. */
  lemma ConvertedIs(s: Setup, v: Converted, txn: Txn, d: Driver)
    requires ConverterInv(s, d, v) && txn.bank < |v.queues| && 3 <= Token(s, v.queues[txn.bank])
    ensures |v.queues| == |v.tracked|
    ensures var t := v.tracked[txn.bank];
      var cmds := Numbered(KindsFor(s.policy, t, txn), txn, |v.owner|);
      var k, k' := BacklogOf(v), BacklogOf(ConvertOne(s, v, txn));
      && |k'.queues| == |k.queues| == |k'.believed| == |k.believed|
      && k'.queues == k.queues[txn.bank := k.queues[txn.bank] + cmds]
      && k.believed[txn.bank] == BeliefOf(t)
      && k'.believed[txn.bank] == BeliefOf(NextTracked(s.policy, t, txn))
      && forall b :: 0 <= b < |k.believed| && b != txn.bank ==> k'.believed[b] == k.believed[b]
  {
    ConvertFits(s, v, txn);
    hide Fresh, WithinEntries, TimersOk, KindsFor;
  }

  lemma MovedTwice(c: Config, d: Driver, k: Backlog, d1: Driver, k1: Backlog, d2: Driver, k2: Backlog, x: nat,
                   stuck: bool)
    requires Moved(c, d, k, d1, k1, x, stuck) && Moved(c, d1, k1, d2, k2, x, stuck)
    ensures Moved(c, d, k, d2, k2, x, stuck)
  {}

  lemma Unmoved(c: Config, d: Driver, k: Backlog, x: nat, stuck: bool)
    requires OpensAt(c, d, k, x, stuck)
    ensures Moved(c, d, k, d, k, x, stuck)
  {}

  lemma ConvertFitsTracked(s: Setup, v: Converted, txn: Txn)
    requires txn.bank < |v.queues| == |v.tracked| && TrackedFits(s.policy, v.tracked)
    ensures TrackedFits(s.policy, ConvertOne(s, v, txn).tracked)
  {}

  lemma {:induction false} ConvertAllMoves(s: Setup, d: Driver, v: Converted, picks: seq<Txn>, x: nat, stuck: bool)
    requires ConverterInv(s, d, v) && Affordable(s, v.queues, picks)
    requires TrackedFits(s.policy, v.tracked) && OpensAt(s.c, d, BacklogOf(v), x, stuck)
    ensures Moved(s.c, d, BacklogOf(v), d, BacklogOf(ConvertAll(s, v, picks)), x, stuck)
    decreases |picks|
  {
    hide ConvertOne, ConverterInv, OpensAt, Strands, TrackedFits, Affordable, Token;
    if picks != [] {
      FirstAffordable(s, d, v, picks);
      var v' := ConvertOne(s, v, picks[0]);
      ConvertMoves(s, d, v, picks[0], x, stuck);
      ConvertFitsTracked(s, v, picks[0]);
      ConvertOneSafe(s, d, v, picks[0]);
      ConvertAllMoves(s, d, v', picks[1..], x, stuck);
      MovedTwice(s.c, d, BacklogOf(v), d, BacklogOf(v'), d, BacklogOf(ConvertAll(s, v', picks[1..])), x, stuck);
    } else {
      Unmoved(s.c, d, BacklogOf(v), x, stuck);
    }
  }

  lemma FirstAffordable(s: Setup, d: Driver, v: Converted, picks: seq<Txn>)
    requires ConverterInv(s, d, v) && Affordable(s, v.queues, picks) && picks != []
    ensures picks[0].bank < |v.queues| == |v.tracked| && 3 <= Token(s, v.queues[picks[0].bank])
    ensures var v' := ConvertOne(s, v, picks[0]);
      Affordable(s, v'.queues, picks[1..]) &&
      forall i :: 0 <= i < |picks[1..]| ==> picks[1..][i].bank < |v'.queues| && picks[1..][i].bank < |v'.tracked|
  {
    ConvertFits(s, v, picks[0]);
    hide ConvertOne, Fresh, WithinEntries, TimersOk, Token;
    assert forall i :: 0 <= i < |picks[1..]| ==> picks[1..][i] == picks[i + 1];
  }

  // ---------------------------------------------------------------- the command scheduler

  /** An ACT for the oldest command of the command queue is inserted only when the driver has
      nothing else for the bank. */
  lemma ReopensAlone(c: Config, d: Driver, k: Backlog, x: nat, stuck: bool)
    requires OpensAt(c, d, k, x, stuck) && !Listed(c, d, x) && IsClosedPhase(d.banks[x]) && Eff(d.banks[x]) == Closed
    requires k.queues[x] != [] && IsColumn(k.queues[x][0].kind) && !HasAct(d.inputQ, x)
    ensures For(d.inputQ, x) == [] && !stuck
  {
    var waiting := For(d.inputQ, x);
    var s := Stream(d.inputQ, k, x);
    if waiting != [] {
      assert s[|waiting|] == k.queues[x][0];
      forall i | 0 <= i < |waiting|
        ensures s[i].kind != ACT
      {
        ForIsFrom(d.inputQ, x, i);
      }
      ColumnsBefore(s, |waiting|);
    }
  }

  lemma {:induction false} ForIsFrom(q: seq<Command>, x: nat, i: nat)
    requires i < |For(q, x)|
    ensures For(q, x)[i] in q && For(q, x)[i].bank == x
    decreases |q|
  {
    if q[0].bank != x { ForIsFrom(q[1..], x, i); } else if 0 < i { ForIsFrom(q[1..], x, i - 1); }
  }

  /** What a visit does to the two queues, and when. */
  ghost predicate Visited(c: Config, d: Driver, queues: seq<seq<Command>>, bank: nat, d': Driver,
                          queues': seq<seq<Command>>)
    requires Shape(c, d) && bank < |queues| && queues[bank] != [] && WfBank(c, bank) && bank < |d.banks|
  {
    var cmd := queues[bank][0];
    || (d'.inputQ == d.inputQ && queues' == queues)
    || (&& d'.inputQ == d.inputQ + [Reopening(cmd)] && queues' == queues && !IsRefreshing(c, d, bank)
        && IsColumn(cmd.kind) && IsClosedPhase(d.banks[bank]) && !HasAct(d.inputQ, bank))
    || (&& d'.inputQ == d.inputQ + [cmd] && queues' == queues[bank := queues[bank][1..]] && !IsRefreshing(c, d, bank)
        && Allows(d.banks[bank], cmd.kind))
  }

  lemma VisitDoes(c: Config, d: Driver, queues: seq<seq<Command>>, bank: nat)
    requires Shape(c, d) && |queues| == c.Banks() && bank < c.Banks()
    requires queues[bank] != [] && queues[bank][0].bank == bank && WfBank(c, bank)
    ensures var r := Visit(c, d, queues, bank);
      Visited(c, d, queues, bank, r.0, r.1) && r.0.banks == d.banks && SameRefresh(d, r.0) && |r.1| == |queues|
  {}

  lemma ReopenMoves(c: Config, d: Driver, d': Driver, k: Backlog, x: nat, stuck: bool)
    requires OpensAt(c, d, k, x, stuck) && !Listed(c, d, x) && IsClosedPhase(d.banks[x]) && Eff(d.banks[x]) == Closed
    requires k.queues[x] != [] && IsColumn(k.queues[x][0].kind) && k.queues[x][0].bank == x && !HasAct(d.inputQ, x)
    requires d'.inputQ == d.inputQ + [Reopening(k.queues[x][0])] && d'.banks == d.banks && d'.refreshQ == d.refreshQ
    ensures Moved(c, d, k, d', k, x, stuck)
  {
    ReopensAlone(c, d, k, x, stuck);
    var cmd := k.queues[x][0];
    BackStream(d.inputQ, k, Reopening(cmd), x);
    ForConcat(d.inputQ, [Reopening(cmd)], x);
    ForCons(Reopening(cmd), [], x);
    EmptyIsUnit([Reopening(cmd)] + k.queues[x]);
    EmptyIsUnit(k.queues[x]);
    hide Eff, For, Linked;
    OpensReopen(HeadRow(c, d, x), k.queues[x], false, true, k.believed[x], stuck);
  }

  lemma PushMoves(c: Config, d: Driver, d': Driver, k: Backlog, k': Backlog, x: nat, stuck: bool, now: nat)
    requires OpensAt(c, d, k, x, stuck) && !Listed(c, d, x) && k.queues[x] != [] && k.queues[x][0].bank == x
    requires BankInv(d.banks[x], now) && Allows(d.banks[x], k.queues[x][0].kind)
    requires FlowOk(Eff(d.banks[x]), Stream(d.inputQ, k, x), k.believed[x])
    requires d'.inputQ == d.inputQ + [k.queues[x][0]] && d'.banks == d.banks && d'.refreshQ == d.refreshQ
    requires k' == k.(queues := k.queues[x := k.queues[x][1..]])
    ensures Moved(c, d, k, d', k', x, stuck)
  {
    hide Eff, Allows, BankInv, For, Linked, Listed, Walk;
    var cmd := k.queues[x][0];
    AllowsByRow(d.banks[x], cmd.kind, now);
    BackStream(d.inputQ, k', cmd, x);
    HeadAndRest(k.queues[x]);
    EmptyIsUnit(k.queues[x]);
    ForConcat(d.inputQ, [cmd], x);
    ForCons(cmd, [], x);
    ListedSame(c, d, d', x);
    PushedOpens(Eff(d.banks[x]), For(d.inputQ, x), k.queues[x], For(d'.inputQ, x) != [], k.believed[x], stuck,
                d.banks[x].openRow);
  }

  /** The head of the command queue is with the driver now, and its bank takes it. */
  lemma PushedOpens(r: RowBuffer, mine: seq<Command>, queue: seq<Command>, inQ: bool, believed: RowBuffer, stuck: bool,
                    row: nat)
    requires queue != [] && Opens(r, mine + queue, mine != [], believed, stuck) && FlowOk(r, mine + queue, believed)
    requires IsColumn(queue[0].kind) ==> r == Open(row)
    ensures Opens(r, mine + queue, inQ, believed, stuck)
  {
    hide Linked;
    if mine == [] { EmptyIsUnit(queue); }
  }

  /** A visit of another bank. */
  lemma OtherVisit(c: Config, d: Driver, d': Driver, k: Backlog, k': Backlog, cmd: Command, x: nat, stuck: bool)
    requires OpensAt(c, d, k, x, stuck) && cmd.bank != x
    requires d'.inputQ == d.inputQ || d'.inputQ == d.inputQ + [cmd] || d'.inputQ == d.inputQ + [Reopening(cmd)]
    requires d'.banks == d.banks && d'.refreshQ == d.refreshQ
    requires x < |k'.queues| && k'.queues[x] == k.queues[x] && k'.believed == k.believed
    ensures Moved(c, d, k, d', k', x, stuck)
  {
    ForConcat(d.inputQ, [cmd], x);
    ForNone([cmd], x);
    ForConcat(d.inputQ, [Reopening(cmd)], x);
    ForNone([Reopening(cmd)], x);
    EmptyIsUnit(For(d.inputQ, x));
    SameMoves(c, d, k, d', k', x, stuck);
  }

  ghost predicate RefreshUsed(c: Config, d: Driver) {
    forall r :: 0 <= r < |d.refreshQ| && d.refreshQ[r] != [] ==> c.useRefresh
  }

  lemma VisitMoves(s: Setup, d: Driver, v: Converted, bank: nat, x: nat, stuck: bool)
    requires ConverterInv(s, d, v) && OwnQueues(s.c, v.queues) && bank < s.c.Banks() && RefreshUsed(s.c, d)
    requires OpensAt(s.c, d, BacklogOf(v), x, stuck)
    ensures |v.queues| == s.c.Banks() && Shape(s.c, d) && RefreshUsed(s.c, Visit(s.c, d, v.queues, bank).0)
    ensures var r := Visit(s.c, d, v.queues, bank);
      SameRefresh(d, r.0) && Moved(s.c, d, BacklogOf(v), r.0, BacklogOf(v.(queues := r.1)), x, stuck)
  {
    hide BankFlow, BankInv, Opens, Eff, For, Follows, Leaves, Linked, Visit, HeadRow, WithinEntries, TimersOk,
      NoneHoldsAct, SpacingInv, FlowOn, Safe, Fresh, ConverterInv, Moved, FlowOk, HasAct, Listed, Stream, WfBank,
      Shape, RefreshUsed, OwnQueues, IsRefreshing;
    ConverterSafe(s, d, v);
    var k := BacklogOf(v);
    FlowAt(s.c, d, k, x);
    if v.queues[bank] == [] {
      EmptyVisit(s.c, d, v.queues, bank);
      assert v.(queues := v.queues) == v;
      Unmoved(s.c, d, k, x, stuck);
    } else {
      QueueIsOwn(s.c, v.queues, bank);
      VisitDoes(s.c, d, v.queues, bank);
      var r := Visit(s.c, d, v.queues, bank);
      var k' := BacklogOf(v.(queues := r.1));
      RefreshUsedSame(s.c, d, r.0);
      ListedSame(s.c, d, r.0, x);
      if bank != x {
        OtherVisit(s.c, d, r.0, k, k', v.queues[bank][0], x, stuck);
      } else if r.0.inputQ == d.inputQ && r.1 == v.queues {
        SameMoves(s.c, d, k, r.0, k', x, stuck);
      } else {
        FlowOkAt(d.banks[x], d.inputQ, d.trace, k, x);
        assert |v.queues[x][1..]| < |v.queues[x]|;
        NotListed(s.c, d, x);
        if r.1 == v.queues {
          FreshClosed(s, d, v, x);
          ReopenMoves(s.c, d, r.0, k, x, stuck);
        } else {
          PushMoves(s.c, d, r.0, k, k', x, stuck, d.now);
        }
      }
    }
  }

  lemma EmptyVisit(c: Config, d: Driver, queues: seq<seq<Command>>, bank: nat)
    requires Shape(c, d) && |queues| == c.Banks() && bank < c.Banks() && queues[bank] == []
    ensures Visit(c, d, queues, bank) == (d, queues)
  {}

  lemma QueueIsOwn(c: Config, queues: seq<seq<Command>>, bank: nat)
    requires c.Valid() && OwnQueues(c, queues) && bank < |queues| && queues[bank] != []
    ensures queues[bank][0].bank == bank && WfBank(c, bank)
  {
    assert OwnQueue(c, queues[bank], bank);
  }

  lemma RefreshUsedSame(c: Config, d: Driver, d': Driver)
    requires RefreshUsed(c, d) && d'.refreshQ == d.refreshQ
    ensures RefreshUsed(c, d')
  {}

  lemma ListedSame(c: Config, d: Driver, d': Driver, x: nat)
    requires d'.refreshQ == d.refreshQ
    ensures Listed(c, d', x) == Listed(c, d, x)
  {}

  lemma NotListed(c: Config, d: Driver, x: nat)
    requires Shape(c, d) && WfBank(c, x) && RefreshUsed(c, d) && !IsRefreshing(c, d, x)
    ensures !Listed(c, d, x)
  {}

  lemma FreshClosed(s: Setup, d: Driver, v: Converted, x: nat)
    requires ConverterInv(s, d, v) && x < |d.banks| && IsClosedPhase(d.banks[x])
    ensures Eff(d.banks[x]) == Closed
  {
    assert BankInv(d.banks[x], d.now);
    ClosedPhaseIsClosed(d.banks[x], d.now);
  }

  lemma {:induction false} VisitAllMoves(s: Setup, d: Driver, v: Converted, order: seq<nat>, x: nat, stuck: bool)
    requires ConverterInv(s, d, v) && OwnQueues(s.c, v.queues) && RefreshUsed(s.c, d)
    requires forall i :: 0 <= i < |order| ==> order[i] < s.c.Banks()
    requires OpensAt(s.c, d, BacklogOf(v), x, stuck)
    ensures |v.queues| == s.c.Banks() && Shape(s.c, d)
    ensures var r := VisitAll(s.c, d, v.queues, order);
      && SameRefresh(d, r.0) && RefreshUsed(s.c, r.0)
      && Moved(s.c, d, BacklogOf(v), r.0, BacklogOf(v.(queues := r.1)), x, stuck)
    decreases |order|
  {
    hide Visit, Shape, ConverterInv, OwnQueues, OpensAt, Strands, RefreshUsed;
    ConverterShape(s, d, v);
    if order == [] {
      assert v.(queues := v.queues) == v;
      Unmoved(s.c, d, BacklogOf(v), x, stuck);
    } else {
      VisitSafe(s, d, v, order[0]);
      VisitMoves(s, d, v, order[0], x, stuck);
      if v.queues[order[0]] != [] { QueueIsOwn(s.c, v.queues, order[0]); }
      var r := Visit(s.c, d, v.queues, order[0]);
      var v' := v.(queues := r.1);
      VisitAllMoves(s, r.0, v', order[1..], x, stuck);
      var all := VisitAll(s.c, r.0, v'.queues, order[1..]);
      MovedTwice(s.c, d, BacklogOf(v), r.0, BacklogOf(v'), all.0, BacklogOf(v'.(queues := all.1)), x, stuck);
    }
  }

  lemma ConverterShape(s: Setup, d: Driver, v: Converted)
    requires ConverterInv(s, d, v)
    ensures Shape(s.c, d) && s.c.Valid() && |v.queues| == s.c.Banks()
  {
    assert FlowOn(d.banks, d.inputQ, d.trace, BacklogOf(v));
  }

  // ---------------------------------------------------------------- creating a refresh

  /** What creating a refresh does to the waiting commands of a bank. */
  lemma {:induction false} ReopensFor(q: seq<Command>, ids: seq<nat>, x: nat)
    requires NoRepeats(ids)
    ensures var mine := For(q, x);
      For(WithReopens(q, ids), x) == if x in ids && mine != [] && IsColumn(mine[0].kind)
                                     then [Reopening(mine[0])] + mine else mine
    decreases |ids|
  {
    hide For, Reopening;
    if ids != [] {
      var i := FirstFor(q, ids[0]);
      var q' := if i < |q| && IsColumn(q[i].kind) then [Reopening(q[i])] + q else q;
      assert NoRepeats(ids[1..]) && ids[0] !in ids[1..];
      ReopensFor(q', ids[1..], x);
      if i < |q| {
        ReopeningBank(q[i]);
        ForCons(Reopening(q[i]), q, x);
        if ids[0] == x { ForFirst(q, i, x); }
      } else {
        if ids[0] == x { ForNone(q, x); }
      }
    }
  }

  lemma CreateQueue(c: Config, d: Driver, rank: nat, x: nat)
    requires Shape(c, d) && rank < c.Ranks() && WfBank(c, x)
    ensures var d' := CreateRefresh(c, d, rank); var mine := For(d.inputQ, x);
      && For(d'.inputQ, x) == (if x in Requesters(c, d, rank) && mine != [] && IsColumn(mine[0].kind)
                               then [Reopening(mine[0])] + mine else mine)
      && Listed(c, d', x) == (if c.RankOf(x) == rank then x in Requesters(c, d, rank) else Listed(c, d, x))
      && d'.banks == d.banks && (x in Requesters(c, d, rank) ==> c.RankOf(x) == rank)
  {
    hide For, Shape, Requesters, Reopening, WithReopens, WfBank, RefreshCommands, Listed;
    RequestersShape(c, d, rank);
    var ids := Requesters(c, d, rank);
    ReopensFor(d.inputQ, ids, x);
    RanksOf(c, d);
    CreateListed(c, d, rank, x);
  }

  lemma CreateListed(c: Config, d: Driver, rank: nat, x: nat)
    requires Shape(c, d) && rank < c.Ranks()
    ensures Listed(c, CreateRefresh(c, d, rank), x) ==
      (if c.RankOf(x) == rank then x in Requesters(c, d, rank) else Listed(c, d, x))
  {
    RequestersShape(c, d, rank);
    RanksOf(c, d);
    hide Shape, Requesters, WithReopens, StillOpen;
  }

  lemma CreateOpens(c: Config, d: Driver, k: Backlog, rank: nat, x: nat, stuck: bool)
    requires Safe(c, d, k) && rank < c.Ranks() && OpensAt(c, d, k, x, stuck)
    ensures var d' := CreateRefresh(c, d, rank); var ids := Requesters(c, d, rank);
      && (rank == c.RankOf(x) ==> OpensAt(c, d', k, x, x !in ids && (stuck || Strands(c, d, k, x))))
      && (rank != c.RankOf(x) ==> Moved(c, d, k, d', k, x, stuck))
  {
    FlowAt(c, d, k, x);
    CreateQueue(c, d, rank, x);
    FlowOkAt(d.banks[x], d.inputQ, d.trace, k, x);
    var d', ids := CreateRefresh(c, d, rank), Requesters(c, d, rank);
    hide BankFlow, BankInv, Eff, For, Linked, CreateRefresh, Safe, Shape, Requesters, Listed, Reopening, WfBank;
    var mine := For(d.inputQ, x);
    var s := Stream(d.inputQ, k, x);
    if rank != c.RankOf(x) {
      SameMoves(c, d, k, d', k, x, stuck);
    } else if x in ids {
      if mine != [] && IsColumn(mine[0].kind) {
        Assoc([Reopening(mine[0])], mine, k.queues[x]);
        OpensReopen(HeadRow(c, d, x), s, true, true, k.believed[x], stuck);
      } else {
        OpensClosed(HeadRow(c, d, x), s, mine != [], k.believed[x], stuck);
      }
    } else {
      LeftBehind(HeadRow(c, d, x), Eff(d.banks[x]), s, mine != [], k.believed[x], stuck);
    }
  }

  /** A bank whose refresh no longer waits is stuck if it is open and its first command an ACT. */
  lemma LeftBehind(r: RowBuffer, eff: RowBuffer, s: seq<Command>, inQ: bool, believed: RowBuffer, stuck: bool)
    requires Opens(r, s, inQ, believed, stuck) && (r == Closed || r == eff) && FlowOk(eff, s, believed)
    ensures Opens(eff, s, inQ, believed, stuck || (r == Closed && eff != Closed && HeadAct(s)))
  {}

  // ---------------------------------------------------------------- sending a refresh

  lemma {:induction false} IssueAllRows(c: Config, d: Driver, kind: Kind, ids: seq<nat>, x: nat)
    requires Shape(c, d) && (kind == PRE || kind == REF) && NoRepeats(ids) && x < c.Banks()
    requires forall i :: 0 <= i < |ids| ==>
      ids[i] < c.Banks() && BankInv(d.banks[ids[i]], d.now) && Accepts(d.banks[ids[i]], kind, d.now)
    ensures var d' := IssueAll(c, d, kind, ids);
      && |d'.banks| == |d.banks| == c.Banks()
      && Eff(d'.banks[x]) == if x in ids then Closed else Eff(d.banks[x])
    decreases |ids|
  {
    BanksOfShape(c, d);
    hide Shape, Issue, Accepts, Handle, BankInv, Eff;
    if ids != [] {
      var cmd := GroupMember(kind, ids[0]);
      AcceptsIs(d.banks[ids[0]], kind, d.now);
      RefreshIssued(c, d, kind, ids[0]);
      HandleKeeps(d.banks[ids[0]], cmd, d.now);
      var d1 := Issue(c, d, cmd);
      assert NoRepeats(ids[1..]) && ids[0] !in ids[1..];
      assert forall i :: 0 <= i < |ids[1..]| ==> ids[1..][i] == ids[i + 1];
      IssueAllRows(c, d1, kind, ids[1..], x);
      assert CanSend(d, cmd);
      BanksOfShape(c, IssueAll(c, d1, kind, ids[1..]));
    }
  }

  lemma BanksOfShape(c: Config, d: Driver)
    requires Shape(c, d)
    ensures |d.banks| == c.Banks() && c.Valid()
  {}

  /** Sending a group closes its banks. */
  lemma SendRows(c: Config, d: Driver, k: Backlog, rank: nat, x: nat)
    requires Safe(c, d, k) && rank < c.Ranks() && d.refreshQ[rank] != [] && x < c.Banks()
    ensures var d', q := SendRefresh(c, d, rank), d.refreshQ[rank];
      && |d'.banks| == |d.banks| == c.Banks() && d'.inputQ == d.inputQ && |d'.refreshQ| == |d.refreshQ|
      && (|| (Eff(d'.banks[x]) == Eff(d.banks[x]) && d'.refreshQ == d.refreshQ)
          || (Eff(d'.banks[x]) == (if x in q[0].banks then Closed else Eff(d.banks[x]))
              && d'.refreshQ == d.refreshQ[rank := q[1..]]))
      && (x in q[0].banks ==> c.RankOf(x) == rank)
  {
    var g := d.refreshQ[rank][0];
    assert WfGroup(c, rank, g);
    SendHead(c, d, rank);
    BanksOfShape(c, d);
    if AllAccept(d, g) && BusFree(d, g.kind, c.ChannelOf(g.banks[0])) {
      assert forall i :: 0 <= i < |g.banks| ==> BankInv(d.banks[g.banks[i]], d.now);
      hide Accepts, BankInv, Eff, IssueAll;
      IssueAllRows(c, d, g.kind, g.banks, x);
    }
  }

  lemma SendOpens(c: Config, d: Driver, k: Backlog, rank: nat, x: nat, stuck: bool)
    requires Safe(c, d, k) && rank < c.Ranks() && d.refreshQ[rank] != [] && OpensAt(c, d, k, x, stuck)
    requires AllCovered(d.refreshQ)
    ensures OpensAt(c, SendRefresh(c, d, rank), k, x, stuck) && AllCovered(SendRefresh(c, d, rank).refreshQ)
    ensures rank != c.RankOf(x) ==> Moved(c, d, k, SendRefresh(c, d, rank), k, x, stuck)
  {
    FlowAt(c, d, k, x);
    SendRows(c, d, k, rank, x);
    var d', q := SendRefresh(c, d, rank), d.refreshQ[rank];
    hide SendRefresh, Safe, Shape, BankFlow, BankInv, For, Linked, Follows, WfBank, Opens, Eff, Covered,
      WellFormedQueue, Listed;
    StillCovered(d.refreshQ, rank, d'.refreshQ);
    if rank != c.RankOf(x) {
      OtherListed(c, d, d', rank, x);
      SameMoves(c, d, k, d', k, x, stuck);
    } else {
      SendListed(c, d, d', rank, x);
      SameOpens(c, d, d', k, k, x, stuck);
    }
  }

  lemma SendListed(c: Config, d: Driver, d': Driver, rank: nat, x: nat)
    requires rank < |d.refreshQ| && c.RankOf(x) == rank && d.refreshQ[rank] != [] && x < |d.banks| && x < |d'.banks|
    requires Covered(d.refreshQ[rank]) && WellFormedQueue(d.refreshQ[rank])
    requires || (Eff(d'.banks[x]) == Eff(d.banks[x]) && d'.refreshQ == d.refreshQ)
             || (Eff(d'.banks[x]) == (if x in d.refreshQ[rank][0].banks then Closed else Eff(d.banks[x]))
                 && d'.refreshQ == d.refreshQ[rank := d.refreshQ[rank][1..]])
    ensures HeadRow(c, d', x) == HeadRow(c, d, x)
  {
    hide Eff;
  }

  lemma StillCovered(refreshQ: seq<seq<GroupCommand>>, rank: nat, after: seq<seq<GroupCommand>>)
    requires AllCovered(refreshQ) && rank < |refreshQ| && refreshQ[rank] != []
    requires after == refreshQ || after == refreshQ[rank := refreshQ[rank][1..]]
    ensures AllCovered(after) && Covered(refreshQ[rank]) && WellFormedQueue(refreshQ[rank])
  {}

  lemma OtherListed(c: Config, d: Driver, d': Driver, rank: nat, x: nat)
    requires rank < |d.refreshQ| && rank != c.RankOf(x) && d.refreshQ[rank] != []
    requires d'.refreshQ == d.refreshQ || d'.refreshQ == d.refreshQ[rank := d.refreshQ[rank][1..]]
    ensures Listed(c, d', x) == Listed(c, d, x)
  {}

  // ---------------------------------------------------------------- the ranks' turns

  lemma NewCovered(banks: seq<Bank>, ids: seq<nat>)
    requires forall i :: 0 <= i < |ids| ==> ids[i] < |banks|
    ensures Covered(RefreshCommands(banks, ids)) && WellFormedQueue(RefreshCommands(banks, ids))
  {}

  lemma CreateCovered(c: Config, d: Driver, rank: nat)
    requires Shape(c, d) && rank < c.Ranks() && AllCovered(d.refreshQ)
    ensures AllCovered(CreateRefresh(c, d, rank).refreshQ)
  {
    RequestersShape(c, d, rank);
    var ids := Requesters(c, d, rank);
    NewCovered(d.banks, ids);
    hide Covered, WellFormedQueue, RefreshCommands, Shape, Requesters, WithReopens, StillOpen;
  }

  /** A rank's counter goes on or its refresh is created. */
  lemma CountedOpens(c: Config, d: Driver, k: Backlog, rank: nat, x: nat, stuck: bool)
    requires Shape(c, d) && Fresh(c, d, k) && rank < c.Ranks() && OpensAt(c, d, k, x, stuck) && AllCovered(d.refreshQ)
    requires c.RankOf(x) < c.Ranks()
    ensures AllCovered(Counted(c, d, rank).refreshQ)
    ensures if rank == c.RankOf(x) then OpensAt(c, Counted(c, d, rank), k, x, NextStuck(c, d, k, x, stuck))
            else Moved(c, d, k, Counted(c, d, rank), k, x, stuck)
  {
    hide Shape, CreateRefresh, OpensAt, Strands, AllCovered, Requesters, Fresh, Moved;
    RanksOf(c, d);
    if d.refi[rank] != 0 {
      RefiMoves(c, d, k, d.refi[rank := d.refi[rank] - 1], x, stuck);
      MovedOpens(c, d, k, Counted(c, d, rank), k, x, stuck);
    } else {
      FreshSafe(c, d, k);
      CreateCovered(c, d, rank);
      CreateOpens(c, d, k, rank, x, stuck);
      var created := CreateRefresh(c, d, rank);
      RanksOf(c, created);
      var now := if rank == c.RankOf(x) then NextStuck(c, d, k, x, stuck) else stuck;
      if rank != c.RankOf(x) { MovedOpens(c, d, k, created, k, x, now); }
      RefiMoves(c, created, k, created.refi[rank := c.p.nREFI], x, now);
      MovedOpens(c, created, k, Counted(c, d, rank), k, x, now);
      if rank != c.RankOf(x) { MovedTwice(c, d, k, created, k, Counted(c, d, rank), k, x, stuck); }
    }
  }

  lemma RefiMoves(c: Config, d: Driver, k: Backlog, refi: seq<nat>, x: nat, stuck: bool)
    requires OpensAt(c, d, k, x, stuck)
    ensures Moved(c, d, k, d.(refi := refi), k, x, stuck)
  {
    hide Opens, Eff, For, HeadAct;
  }

  lemma MovedOpens(c: Config, d: Driver, k: Backlog, d': Driver, k': Backlog, x: nat, stuck: bool)
    requires Moved(c, d, k, d', k', x, stuck)
    ensures OpensAt(c, d', k', x, stuck)
  {}

  lemma RankOpens(c: Config, d: Driver, k: Backlog, rank: nat, x: nat, stuck: bool)
    requires Shape(c, d) && Fresh(c, d, k) && rank < c.Ranks() && OpensAt(c, d, k, x, stuck) && AllCovered(d.refreshQ)
    requires c.RankOf(x) < c.Ranks()
    ensures AllCovered(RefreshRank(c, d, rank).refreshQ)
    ensures if rank == c.RankOf(x) then OpensAt(c, RefreshRank(c, d, rank), k, x, NextStuck(c, d, k, x, stuck))
            else Moved(c, d, k, RefreshRank(c, d, rank), k, x, stuck)
  {
    hide Shape, OpensAt, Strands, AllCovered, NextStuck, Counted, SendRefresh, Fresh;
    CountedOpens(c, d, k, rank, x, stuck);
    FreshCounted(c, d, k, rank);
    var d1 := Counted(c, d, rank);
    RanksOf(c, d1);
    if d1.refreshQ[rank] != [] {
      FreshSafe(c, d1, k);
      var now := if rank == c.RankOf(x) then NextStuck(c, d, k, x, stuck) else stuck;
      if rank != c.RankOf(x) { MovedOpens(c, d, k, d1, k, x, now); }
      SendOpens(c, d1, k, rank, x, now);
      if rank != c.RankOf(x) { MovedTwice(c, d, k, d1, k, SendRefresh(c, d1, rank), k, x, stuck); }
    }
  }

  lemma FreshSafe(c: Config, d: Driver, k: Backlog)
    requires Fresh(c, d, k)
    ensures Safe(c, d, k)
  {}

  /** Once the bank's rank has had its turn. */
  lemma {:induction false} LaterRanksOpen(c: Config, d: Driver, k: Backlog, rank: nat, x: nat, stuck: bool)
    requires Shape(c, d) && Fresh(c, d, k) && c.RankOf(x) < rank <= c.Ranks()
    requires OpensAt(c, d, k, x, stuck) && AllCovered(d.refreshQ)
    ensures OpensAt(c, RefreshFrom(c, d, rank), k, x, stuck) && AllCovered(RefreshFrom(c, d, rank).refreshQ)
    decreases c.Ranks() - rank
  {
    hide Shape, OpensAt, AllCovered, RefreshRank, Fresh, Moved;
    if rank < c.Ranks() {
      RankOpens(c, d, k, rank, x, stuck);
      FreshRank(c, d, k, rank);
      MovedOpens(c, d, k, RefreshRank(c, d, rank), k, x, stuck);
      LaterRanksOpen(c, RefreshRank(c, d, rank), k, rank + 1, x, stuck);
    }
  }

  lemma SameNext(c: Config, d: Driver, d': Driver, k: Backlog, k': Backlog, x: nat, stuck: bool)
    requires Shape(c, d) && Shape(c, d') && c.RankOf(x) < c.Ranks() && Stands(d, d', c.RankOf(x))
    requires Strands(c, d', k', x) <==> Strands(c, d, k, x)
    ensures NextStuck(c, d', k', x, stuck) == NextStuck(c, d, k, x, stuck)
  {
    hide Strands;
  }

  /** All ranks' turns: the bank is stuck afterwards as its own rank's turn decides. */
  lemma {:induction false} RanksOpen(c: Config, d: Driver, k: Backlog, rank: nat, x: nat, stuck: bool)
    requires Shape(c, d) && Fresh(c, d, k) && rank <= c.RankOf(x) < c.Ranks()
    requires OpensAt(c, d, k, x, stuck) && AllCovered(d.refreshQ)
    ensures OpensAt(c, RefreshFrom(c, d, rank), k, x, NextStuck(c, d, k, x, stuck))
    ensures AllCovered(RefreshFrom(c, d, rank).refreshQ)
    decreases c.Ranks() - rank
  {
    hide Shape, OpensAt, AllCovered, RefreshRank, Fresh, NextStuck, Strands, Stands;
    RankOpens(c, d, k, rank, x, stuck);
    FreshRank(c, d, k, rank);
    var d1 := RefreshRank(c, d, rank);
    if rank == c.RankOf(x) {
      LaterRanksOpen(c, d1, k, rank + 1, x, NextStuck(c, d, k, x, stuck));
    } else {
      RankTicks(c, d, rank, c.RankOf(x));
      SameNext(c, d, d1, k, k, x, stuck);
      RanksOpen(c, d1, k, rank + 1, x, stuck);
    }
  }

  // ---------------------------------------------------------------- requests

  /** The oldest command of a bank leaves the input queue: sent, or dropped as the bank is closed. */
  lemma PopOpens(c: Config, d: Driver, d': Driver, k: Backlog, n: nat, x: nat, stuck: bool)
    requires n < |d.inputQ| && forall j :: 0 <= j < n ==> d.inputQ[j].bank != d.inputQ[n].bank
    requires OpensAt(c, d, k, x, stuck) && d'.inputQ == Erased(d.inputQ, n) && d'.refreshQ == d.refreshQ
    requires x < |d'.banks|
    requires var cmd := d.inputQ[n]; var eff, eff' := Eff(d.banks[x]), Eff(d'.banks[x]);
      if cmd.bank != x then eff' == eff
      else && !Listed(c, d, x) && (cmd.kind == ACT ==> eff == Closed)
           && (eff' == Apply(eff, cmd) || (cmd.kind == PRE && eff == Closed && eff' == Closed)) && cmd.kind != REF
    ensures OpensAt(c, d', k, x, stuck)
  {
    hide Eff, For, Linked, Listed, Erased, Opens, HeadAct, Apply;
    var cmd := d.inputQ[n];
    ForErased(d.inputQ, n, x);
    EmptyIsUnit(For(d'.inputQ, x));
    ListedSame(c, d, d', x);
    if cmd.bank != x {
      SameOpens(c, d, d', k, k, x, stuck);
    } else {
      var s' := Stream(d'.inputQ, k, x);
      Assoc([cmd], For(d'.inputQ, x), k.queues[x]);
      PopRow(Eff(d.banks[x]), Eff(d'.banks[x]), cmd, s', For(d'.inputQ, x) != [], k.believed[x], stuck);
    }
  }

  lemma PopRow(r: RowBuffer, r': RowBuffer, cmd: Command, rest: seq<Command>, inQ: bool, believed: RowBuffer,
               stuck: bool)
    requires Opens(r, [cmd] + rest, true, believed, stuck) && (cmd.kind == ACT ==> r == Closed) && cmd.kind != REF
    requires r' == Apply(r, cmd) || (cmd.kind == PRE && r == Closed && r' == Closed)
    ensures Opens(r', rest, inQ, believed, stuck)
  {
    var s := [cmd] + rest;
    assert s[1..] == rest && s[0] == cmd;
    hide Linked;
    OpensPop(r, s, true, inQ, believed);
  }

  /** What a request does to the rows. */
  lemma SentRow(c: Config, d: Driver, n: nat, x: nat)
    requires Shape(c, d) && n < |d.inputQ| && CanSend(d, d.inputQ[n]) && x < c.Banks()
    requires BankInv(d.banks[x], d.now)
    ensures var cmd, d' := d.inputQ[n], SentAt(c, d, n);
      && |d'.banks| == |d.banks| && d'.inputQ == Erased(d.inputQ, n) && d'.refreshQ == d.refreshQ
      && Eff(d'.banks[x]) == (if cmd.bank == x then Apply(Eff(d.banks[x]), cmd) else Eff(d.banks[x]))
      && (cmd.bank == x && cmd.kind == ACT ==> Eff(d.banks[x]) == Closed)
  {
    var cmd := d.inputQ[n];
    if cmd.bank == x {
      HandleKeeps(d.banks[x], cmd, d.now);
      AllowsByRow(d.banks[x], cmd.kind, d.now);
    } else {
      assert Eff(Spread(c, d.banks[x], x, cmd, d.now)) == Eff(d.banks[x]);
    }
    hide Eff, Handle, Spread, Accepts, BankInv;
  }

  lemma SendStepOpens(c: Config, d: Driver, k: Backlog, counts: seq<nat>, i: nat, x: nat, stuck: bool)
    requires SendInv(c, d, k, counts, i) && i < |d.inputQ| && OpensAt(c, d, k, x, stuck) && RefreshUsed(c, d)
    ensures |counts| == c.Ranks() && OpensAt(c, SendStep(c, d, counts, i).d, k, x, stuck)
    ensures RefreshUsed(c, SendStep(c, d, counts, i).d)
  {
    hide BankFlow, BankInv, Opens, Eff, For, Shape, WfBank, OpensAt, Safe, CursorInv, RefreshUsed, IsClosedPhase,
      Eligible, IsRefreshing, SentAt, Noted, Accepts;
    SendParts(c, d, k, counts, i);
    var cmd := d.inputQ[i];
    if !IsRefreshing(c, d, cmd.bank) {
      var d1 := if cmd.kind == REF then d.(blockBank := d.blockBank[cmd.bank := true]) else Noted(d, cmd);
      NotedOpens(c, d, d1, k, cmd, x, stuck);
      if cmd.kind != REF && Eligible(c, d, counts, cmd) {
        if cmd.kind == PRE && IsClosedPhase(d1.banks[cmd.bank]) {
          SkipOpens(c, d, k, counts, i, x, stuck);
        } else if CanSend(d1, cmd) {
          SendsOpen(c, d, k, counts, i, x, stuck);
        }
      }
    }
  }

  lemma SendParts(c: Config, d: Driver, k: Backlog, counts: seq<nat>, i: nat)
    requires SendInv(c, d, k, counts, i) && i < |d.inputQ|
    ensures Safe(c, d, k) && Shape(c, d) && |counts| == c.Ranks() && WfBank(c, d.inputQ[i].bank)
    ensures d.inputQ[i].bank < |d.blockBank| && d.inputQ[i].bank < |d.banks|
  {
    assert WfBank(c, d.inputQ[i].bank);
  }

  lemma NotedOpens(c: Config, d: Driver, d1: Driver, k: Backlog, cmd: Command, x: nat, stuck: bool)
    requires OpensAt(c, d, k, x, stuck) && RefreshUsed(c, d) && cmd.bank < |d.blockBank|
    requires d1 == Noted(d, cmd) || d1 == d.(blockBank := d.blockBank[cmd.bank := true])
    ensures OpensAt(c, d1, k, x, stuck) && RefreshUsed(c, d1) && d1.banks == d.banks && d1.inputQ == d.inputQ
    ensures d1.now == d.now
  {
    hide Opens, For;
  }

  lemma SkipOpens(c: Config, d: Driver, k: Backlog, counts: seq<nat>, i: nat, x: nat, stuck: bool)
    requires SendInv(c, d, k, counts, i) && i < |d.inputQ| && OpensAt(c, d, k, x, stuck) && RefreshUsed(c, d)
    requires WfBank(c, d.inputQ[i].bank) && !IsRefreshing(c, d, d.inputQ[i].bank) && |counts| == c.Ranks()
    requires Eligible(c, d, counts, d.inputQ[i])
    requires d.inputQ[i].kind == PRE && IsClosedPhase(d.banks[d.inputQ[i].bank])
    ensures var d' := Noted(d, d.inputQ[i]).(inputQ := Erased(d.inputQ, i));
      OpensAt(c, d', k, x, stuck) && RefreshUsed(c, d')
  {
    var cmd := d.inputQ[i];
    EligibleIsFirst(c, d, counts, i);
    NotListed(c, d, cmd.bank);
    BankIsSound(c, d, k, cmd.bank);
    ClosedPhaseIsClosed(d.banks[cmd.bank], d.now);
    hide Eff, OpensAt, Listed, BankInv, Shape, Safe, WfBank, Erased, CursorInv, Eligible, IsRefreshing;
    BoundsOf(c, d, k, x, stuck);
    PopOpens(c, d, Noted(d, cmd).(inputQ := Erased(d.inputQ, i)), k, i, x, stuck);
  }

  lemma BoundsOf(c: Config, d: Driver, k: Backlog, x: nat, stuck: bool)
    requires OpensAt(c, d, k, x, stuck)
    ensures x < |d.banks| && x < |k.queues| && x < |k.believed|
  {}

  lemma BankIsSound(c: Config, d: Driver, k: Backlog, x: nat)
    requires Safe(c, d, k) && x < |d.banks|
    ensures BankInv(d.banks[x], d.now) && x < c.Banks()
  {}

  lemma SendsOpen(c: Config, d: Driver, k: Backlog, counts: seq<nat>, i: nat, x: nat, stuck: bool)
    requires SendInv(c, d, k, counts, i) && i < |d.inputQ| && OpensAt(c, d, k, x, stuck) && RefreshUsed(c, d)
    requires WfBank(c, d.inputQ[i].bank) && !IsRefreshing(c, d, d.inputQ[i].bank) && |counts| == c.Ranks()
    requires Eligible(c, d, counts, d.inputQ[i]) && d.inputQ[i].kind != REF && CanSend(d, d.inputQ[i])
    ensures var d' := SentAt(c, Noted(d, d.inputQ[i]), i); OpensAt(c, d', k, x, stuck) && RefreshUsed(c, d')
  {
    var cmd := d.inputQ[i];
    var d1 := Noted(d, cmd);
    assert Shape(c, d1) && CanSend(d1, cmd);
    EligibleIsFirst(c, d, counts, i);
    NotListed(c, d, cmd.bank);
    hide Eff, OpensAt, Listed, BankInv, Shape, Safe, WfBank, Erased, CursorInv, Eligible, IsRefreshing, SentAt,
      Accepts, CanSend, Apply;
    BoundsOf(c, d, k, x, stuck);
    BankIsSound(c, d, k, x);
    SentRow(c, d1, i, x);
    ListedSame(c, d, d1, x);
    NotedOpens(c, d, d1, k, cmd, x, stuck);
    PopOpens(c, d1, SentAt(c, d1, i), k, i, x, stuck);
  }

  lemma {:induction false} SendLoopOpens(c: Config, d: Driver, k: Backlog, counts: seq<nat>, i: nat, x: nat,
                                         stuck: bool)
    requires SendInv(c, d, k, counts, i) && OpensAt(c, d, k, x, stuck) && RefreshUsed(c, d)
    ensures |counts| == c.Ranks() && OpensAt(c, SendLoop(c, d, counts, i), k, x, stuck)
    decreases |d.inputQ| - i
  {
    LoopShape(c, d, k, counts, i);
    hide SendInv, OpensAt, RefreshUsed, SendStep, Shape;
    if i < |d.inputQ| {
      SendStepSafe(c, d, k, counts, i);
      SendStepOpens(c, d, k, counts, i, x, stuck);
      var r := SendStep(c, d, counts, i);
      if !r.stop { SendLoopOpens(c, r.d, k, counts, r.i, x, stuck); }
    }
  }

  lemma LoopShape(c: Config, d: Driver, k: Backlog, counts: seq<nat>, i: nat)
    requires SendInv(c, d, k, counts, i)
    ensures Shape(c, d) && |counts| == c.Ranks() && i <= |d.inputQ|
  {}

  // ---------------------------------------------------------------- one cycle

  /** The refresh part of a run of the driver. */
  lemma RefreshPartOpens(c: Config, d: Driver, k: Backlog, x: nat, stuck: bool)
    requires Shape(c, d) && Fresh(c, d, k) && c.RankOf(x) < c.Ranks() && OpensAt(c, d, k, x, stuck)
    requires AllCovered(d.refreshQ) && c.useRefresh
    ensures Shape(c, ReleaseBuses(d)) && Fresh(c, ReleaseBuses(d), k)
    ensures var d' := RefreshFrom(c, ReleaseBuses(d), 0);
      && Fresh(c, d', k) && OpensAt(c, d', k, x, NextStuck(c, d, k, x, stuck)) && AllCovered(d'.refreshQ)
  {
    var d1 := ReleaseBuses(d);
    SafeOf(c, d1, k, d.banks, d.inputQ, d.trace, d.now);
    SameMoves(c, d, k, d1, k, x, stuck);
    SameTurns(c, d, d1, c.RankOf(x));
    hide Shape, Safe, OpensAt, AllCovered, RefreshFrom, Strands, NextStuck, Stands, NoneHoldsAct;
    SameNext(c, d, d1, k, k, x, stuck);
    RanksOpen(c, d1, k, 0, x, stuck);
    FreshFrom(c, d1, k, 0, RefreshFrom(c, d1, 0));
  }

  lemma LoopStarts(c: Config, d: Driver, k: Backlog)
    requires Fresh(c, d, k)
    ensures SendInv(c, d, k, ActCounts(d.faw), 0)
  {
    assert forall b :: 0 <= b < c.Banks() && WfBank(c, b) ==> !d.actIssued[c.RankOf(b)];
  }

  /** Whether the bank is stuck after a cycle. */
  ghost predicate StuckAfter(c: Config, d: Driver, k: Backlog, x: nat, stuck: bool)
    requires Shape(c, d) && c.RankOf(x) < c.Ranks()
  {
    if c.useRefresh then NextStuck(c, d, k, x, stuck) else stuck
  }

  /** One run of the driver. */
  lemma RunOpens(c: Config, d: Driver, k: Backlog, x: nat, stuck: bool)
    requires Shape(c, d) && Fresh(c, d, k) && c.RankOf(x) < c.Ranks() && OpensAt(c, d, k, x, stuck)
    requires AllCovered(d.refreshQ) && RefreshUsed(c, d)
    ensures OpensAt(c, Run(c, d), k, x, StuckAfter(c, d, k, x, stuck)) && AllCovered(Run(c, d).refreshQ)
  {
    var stuck' := StuckAfter(c, d, k, x, stuck);
    var d1 := ReleaseBuses(d);
    hide RefreshFrom, SendLoop, OpensAt, AllCovered, Strands, NextStuck, SendInv, Fresh, Shape, ReleaseBuses;
    BusesReleased(c, d, k, x, stuck);
    if c.useRefresh { RefreshPartOpens(c, d, k, x, stuck); }
    var d2 := if c.useRefresh then RefreshFrom(c, d1, 0) else d1;
    LoopStarts(c, d2, k);
    SendLoopOpens(c, d2, k, ActCounts(d2.faw), 0, x, stuck');
    SendLoopQueues(c, d2, ActCounts(d2.faw), 0);
  }

  lemma BusesReleased(c: Config, d: Driver, k: Backlog, x: nat, stuck: bool)
    requires Fresh(c, d, k) && OpensAt(c, d, k, x, stuck)
    ensures Shape(c, d) && Fresh(c, ReleaseBuses(d), k) && OpensAt(c, ReleaseBuses(d), k, x, stuck)
    ensures ReleaseBuses(d).refreshQ == d.refreshQ
  {
    SafeOf(c, ReleaseBuses(d), k, d.banks, d.inputQ, d.trace, d.now);
    SameMoves(c, d, k, ReleaseBuses(d), k, x, stuck);
    hide Safe, Opens;
  }

  /** The stages, and then the run. */
  lemma StepOpens(s: Setup, y: System, arrivals: seq<Txn>, x: nat, stuck: bool)
    requires SystemInv(s, y) && RequestsOk(s, y.queues, y.tracked, arrivals) && TrackedFits(s.policy, y.tracked)
    requires RefreshUsed(s.c, y.d) && AllCovered(y.d.refreshQ) && OpensAt(s.c, y.d, SystemBacklog(y), x, stuck)
    ensures Shape(s.c, y.d) && s.c.RankOf(x) < s.c.Ranks()
    ensures var y' := Step(s, y, arrivals).0;
      && AllCovered(y'.d.refreshQ)
      && OpensAt(s.c, y'.d, SystemBacklog(y'), x, StuckAfter(s.c, y.d, SystemBacklog(y), x, stuck))
  {
    hide Step, SystemShape, Shape, ConvertAll, VisitAll, OwnQueues, RequestsOk, Safe, ConverterInv, Affordable,
      OpensAt, AllCovered, RefreshUsed, Update, Strands, NextStuck, TrackedFits, Beliefs, Stands;
    var picks, v, order, visited := StepStaged(s, y, arrivals);
    var d0, v0 := Update(s.c, y.d), Converted(y.queues, y.tracked, y.owner, true);
    var k0, k1, k2 := BacklogOf(v0), BacklogOf(v), BacklogOf(v.(queues := visited.1));
    UpdateMoves(s.c, y.d, k0, x, stuck);
    MovedOpens(s.c, y.d, k0, d0, k0, x, stuck);
    ConvertAllMoves(s, d0, v0, picks, x, stuck);
    MovedOpens(s.c, d0, k0, d0, k1, x, stuck);
    UpdateUsed(s.c, y.d);
    VisitAllMoves(s, d0, v, order, x, stuck);
    MovedOpens(s.c, d0, k1, visited.0, k2, x, stuck);
    MovedTwice(s.c, y.d, k0, d0, k0, d0, k1, x, stuck);
    MovedTwice(s.c, y.d, k0, d0, k1, visited.0, k2, x, stuck);
    BankOfShape(s.c, y.d, x, k0, stuck);
    StagesNext(s.c, y.d, d0, visited.0, k0, k2, x, stuck);
    ConverterFresh(s, visited.0, v.(queues := visited.1));
    RunOpens(s.c, visited.0, k2, x, stuck);
  }

  lemma BankOfShape(c: Config, d: Driver, x: nat, k: Backlog, stuck: bool)
    requires Shape(c, d) && OpensAt(c, d, k, x, stuck)
    ensures x < c.Banks()
  {}

  lemma UpdateUsed(c: Config, d: Driver)
    requires Shape(c, d) && RefreshUsed(c, d)
    ensures RefreshUsed(c, Update(c, d)) && SameRefresh(d.(now := d.now + 1), Update(c, d))
  {}

  lemma StagesNext(c: Config, d: Driver, d0: Driver, d1: Driver, k: Backlog, k': Backlog, x: nat, stuck: bool)
    requires Shape(c, d) && Shape(c, d1) && SameRefresh(d.(now := d.now + 1), d0) && SameRefresh(d0, d1)
    requires Moved(c, d, k, d1, k', x, stuck) && AllCovered(d.refreshQ) && x < c.Banks()
    ensures c.RankOf(x) < c.Ranks() && AllCovered(d1.refreshQ)
    ensures StuckAfter(c, d1, k', x, stuck) == StuckAfter(c, d, k, x, stuck)
  {
    BankIsWf(c, x);
    hide Strands, OpensAt, AllCovered;
    SameNext(c, d, d1, k, k', x, stuck);
  }
}
