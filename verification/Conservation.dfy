/** No command is lost and none is made up: the numbers of a bank's commands, precharges apart, are
    in order first those the bank has received and then those that wait. A precharge may be dropped,
    when its bank is closed already. */
module Conservation {
  import opened Sequences
  import opened Dram
  import opened BankModel
  import opened DriverModel
  import opened Rows
  import opened DriverSafety
  import opened RefreshSafety
  import opened ControllerModel
  import opened ControllerSafety
  import opened Quiet
  import opened CycleEvents
  import opened Openings

  // ---------------------------------------------------------------- numbers

  predicate HasNumber(cmd: Command) { cmd.origin == FromTxn && cmd.kind != PRE }

  /** The numbers of the commands of `s`, precharges apart. */
  ghost function Nums(s: seq<Command>): seq<nat> {
    if s == [] then [] else (if HasNumber(s[0]) then [s[0].seqNum] else []) + Nums(s[1..])
  }

  /** The numbers of the commands that bank `x` has received, precharges apart. */
  ghost function Received(trace: seq<Event>, x: nat): seq<nat> {
    if trace == [] then []
    else
      var n := |trace| - 1;
      var cmd := trace[n].cmd;
      Received(trace[..n], x) + (if cmd.bank == x && HasNumber(cmd) then [cmd.seqNum] else [])
  }

  /** The numbers given to commands for bank `x`, precharges apart. */
  ghost function Owned(owner: seq<Made>, x: nat): seq<nat> {
    if owner == [] then []
    else
      var n := |owner| - 1;
      Owned(owner[..n], x) + (if owner[n].txn.bank == x && owner[n].kind != PRE then [n] else [])
  }

  /** All that was made for the bank has been received or waits. */
  ghost predicate Conserved(trace: seq<Event>, inputQ: seq<Command>, k: Backlog, x: nat) {
    x < |k.queues| && Received(trace, x) + Nums(Stream(inputQ, k, x)) == Owned(k.owner, x)
  }

  lemma {:induction false} NumsConcat(a: seq<Command>, b: seq<Command>)
    ensures Nums(a + b) == Nums(a) + Nums(b)
    decreases |a|
  {
    if a == [] {
      EmptyIsUnit(b);
    } else {
      NumsConcat(a[1..], b);
      assert (a + b)[0] == a[0] && (a + b)[1..] == a[1..] + b;
      Assoc(if HasNumber(a[0]) then [a[0].seqNum] else [], Nums(a[1..]), Nums(b));
    }
  }

  lemma NumsCons(cmd: Command, s: seq<Command>)
    ensures Nums([cmd] + s) == (if HasNumber(cmd) then [cmd.seqNum] else []) + Nums(s)
  {
    assert ([cmd] + s)[1..] == s;
  }

  /** An inserted ACT that re-opens a row has no number. */
  lemma NumsReopen(a: seq<Command>, cmd: Command, b: seq<Command>)
    ensures Nums(a + ([Reopening(cmd)] + b)) == Nums(a + b)
  {
    NumsCons(Reopening(cmd), b);
    NumsConcat(a, [Reopening(cmd)] + b);
    NumsConcat(a, b);
  }

  lemma ReceivedAppend(trace: seq<Event>, e: Event, x: nat)
    ensures Received(trace + [e], x) ==
      Received(trace, x) + (if e.cmd.bank == x && HasNumber(e.cmd) then [e.cmd.seqNum] else [])
  {
    assert (trace + [e])[..|trace|] == trace;
  }

  lemma {:induction false} ReceivedNone(trace: seq<Event>, more: seq<Event>, x: nat)
    requires forall i :: 0 <= i < |more| ==> !HasNumber(more[i].cmd)
    ensures Received(trace + more, x) == Received(trace, x)
    decreases |more|
  {
    if more == [] {
      EmptyIsUnit(trace);
    } else {
      var n := |more| - 1;
      ReceivedNone(trace, more[..n], x);
      ReceivedAppend(trace + more[..n], more[n], x);
      assert (trace + more[..n]) + [more[n]] == trace + more;
    }
  }

  /** What the numbers of `kinds` stand for. */
  ghost function AllMade(txn: Txn, kinds: seq<Kind>): seq<Made> {
    seq(|kinds|, i requires 0 <= i < |kinds| => Made(txn, kinds[i]))
  }

  lemma {:induction false} OwnedMore(owner: seq<Made>, txn: Txn, kinds: seq<Kind>, x: nat)
    ensures Owned(owner + AllMade(txn, kinds), x) ==
      Owned(owner, x) + (if txn.bank == x then Nums(Numbered(kinds, txn, |owner|)) else [])
    decreases |kinds|
  {
    hide Numbered, AllMade, Owned, Nums;
    if kinds == [] {
      NoneMade(txn, |owner|);
      EmptyIsUnit(owner);
      EmptyIsUnit(Owned(owner, x));
    } else {
      var n := |kinds| - 1;
      var fewer, last := kinds[..n], Command(kinds[n], |owner| + n, txn.addr, txn.bank, txn.row, FromTxn);
      OwnedMore(owner, txn, fewer, x);
      LastMade(txn, kinds, |owner|);
      Assoc(owner, AllMade(txn, fewer), [Made(txn, kinds[n])]);
      OwnedAppend(owner + AllMade(txn, fewer), Made(txn, kinds[n]), x);
      NumsConcat(Numbered(fewer, txn, |owner|), [last]);
      NumsOne(last);
      var tail := if kinds[n] != PRE then [|owner| + n] else [];
      Assoc(Owned(owner, x), Nums(Numbered(fewer, txn, |owner|)), tail);
      EmptyIsUnit(Owned(owner, x));
      EmptyIsUnit(Owned(owner + AllMade(txn, fewer), x));
    }
  }

  lemma NoneMade(txn: Txn, first: nat)
    ensures AllMade(txn, []) == [] && Numbered([], txn, first) == [] && Nums([]) == []
  {}

  lemma NumsOne(cmd: Command)
    ensures Nums([cmd]) == if HasNumber(cmd) then [cmd.seqNum] else []
  {
    EmptyIsUnit([cmd]);
    NumsCons(cmd, []);
  }

  lemma LastMade(txn: Txn, kinds: seq<Kind>, first: nat)
    requires kinds != []
    ensures var n := |kinds| - 1; var fewer := kinds[..n];
      && AllMade(txn, kinds) == AllMade(txn, fewer) + [Made(txn, kinds[n])] && |AllMade(txn, fewer)| == n
      && Numbered(kinds, txn, first) ==
           Numbered(fewer, txn, first) + [Command(kinds[n], first + n, txn.addr, txn.bank, txn.row, FromTxn)]
  {}

  lemma OwnedAppend(owner: seq<Made>, m: Made, x: nat)
    ensures Owned(owner + [m], x) == Owned(owner, x) + (if m.txn.bank == x && m.kind != PRE then [|owner|] else [])
  {
    assert (owner + [m])[..|owner|] == owner;
  }

  // ---------------------------------------------------------------- before the driver's run

  lemma ConvertConserves(s: Setup, d: Driver, v: Converted, txn: Txn, x: nat)
    requires ConverterInv(s, d, v) && txn.bank < |v.queues| && 3 <= Token(s, v.queues[txn.bank])
    requires Conserved(d.trace, d.inputQ, BacklogOf(v), x)
    ensures Conserved(d.trace, d.inputQ, BacklogOf(ConvertOne(s, v, txn)), x)
  {
    ConvertedIs(s, v, txn, d);
    ConvertedOwner(s, v, txn);
    var k, k' := BacklogOf(v), BacklogOf(ConvertOne(s, v, txn));
    var kinds := KindsFor(s.policy, v.tracked[txn.bank], txn);
    var cmds := Numbered(kinds, txn, |v.owner|);
    OwnedMore(v.owner, txn, kinds, x);
    hide ConvertOne, KindsFor, Numbered, ConverterInv, Token, For, Nums, Received, Owned, AllMade;
    if x == txn.bank {
      Assoc(For(d.inputQ, x), k.queues[x], cmds);
      NumsConcat(Stream(d.inputQ, k, x), cmds);
      Assoc(Received(d.trace, x), Nums(Stream(d.inputQ, k, x)), Nums(cmds));
    } else {
      EmptyIsUnit(Owned(v.owner, x));
    }
  }

  lemma ConvertedOwner(s: Setup, v: Converted, txn: Txn)
    requires txn.bank < |v.queues| == |v.tracked| && 3 <= Token(s, v.queues[txn.bank])
    ensures var kinds := KindsFor(s.policy, v.tracked[txn.bank], txn);
      ConvertOne(s, v, txn).owner == v.owner + AllMade(txn, kinds)
  {}

  lemma {:induction false} ConvertAllConserves(s: Setup, d: Driver, v: Converted, picks: seq<Txn>, x: nat)
    requires ConverterInv(s, d, v) && Affordable(s, v.queues, picks) && Conserved(d.trace, d.inputQ, BacklogOf(v), x)
    ensures Conserved(d.trace, d.inputQ, BacklogOf(ConvertAll(s, v, picks)), x)
    decreases |picks|
  {
    hide ConvertOne, ConverterInv, Conserved, Affordable, Token;
    if picks != [] {
      FirstAffordable(s, d, v, picks);
      ConvertConserves(s, d, v, picks[0], x);
      ConvertOneSafe(s, d, v, picks[0]);
      ConvertAllConserves(s, d, ConvertOne(s, v, picks[0]), picks[1..], x);
    }
  }

  /** A visit moves commands along or inserts one without a number. */
  lemma VisitConserves(s: Setup, d: Driver, v: Converted, bank: nat, x: nat)
    requires ConverterInv(s, d, v) && OwnQueues(s.c, v.queues) && bank < s.c.Banks()
    requires Conserved(d.trace, d.inputQ, BacklogOf(v), x)
    ensures |v.queues| == s.c.Banks() && Shape(s.c, d) && (v.queues[bank] != [] ==> WfBank(s.c, v.queues[bank][0].bank))
    ensures var r := Visit(s.c, d, v.queues, bank); Conserved(r.0.trace, r.0.inputQ, BacklogOf(v.(queues := r.1)), x)
  {
    hide ConverterInv, Visit, OwnQueues, WfBank, Shape, For, Nums, Received, Owned, Reopening, IsRefreshing, HasAct;
    ConverterShape(s, d, v);
    var k := BacklogOf(v);
    if v.queues[bank] == [] {
      EmptyVisit(s.c, d, v.queues, bank);
    } else {
      QueueIsOwn(s.c, v.queues, bank);
      VisitDoes(s.c, d, v.queues, bank);
      var r := Visit(s.c, d, v.queues, bank);
      var cmd := v.queues[bank][0];
      var k' := BacklogOf(v.(queues := r.1));
      if r.0.inputQ != d.inputQ || r.1 != v.queues {
        assert |v.queues[bank][1..]| < |v.queues[bank]|;
        if r.1 == v.queues {
          ReopeningBank(cmd);
          BackStream(d.inputQ, k, Reopening(cmd), x);
          NumsReopen(For(d.inputQ, x), cmd, k.queues[x]);
          EmptyIsUnit(k.queues[x]);
        } else {
          BackStream(d.inputQ, k', cmd, x);
          HeadAndRest(v.queues[bank]);
          EmptyIsUnit(k.queues[x]);
        }
      }
    }
  }

  lemma {:induction false} VisitAllConserves(s: Setup, d: Driver, v: Converted, order: seq<nat>, x: nat)
    requires ConverterInv(s, d, v) && OwnQueues(s.c, v.queues) && Conserved(d.trace, d.inputQ, BacklogOf(v), x)
    requires forall i :: 0 <= i < |order| ==> order[i] < s.c.Banks()
    ensures |v.queues| == s.c.Banks() && Shape(s.c, d)
    ensures var r := VisitAll(s.c, d, v.queues, order);
      Conserved(r.0.trace, r.0.inputQ, BacklogOf(v.(queues := r.1)), x)
    decreases |order|
  {
    hide Visit, Shape, ConverterInv, OwnQueues, Conserved;
    ConverterShape(s, d, v);
    if order == [] {
      assert v.(queues := v.queues) == v;
    } else {
      VisitSafe(s, d, v, order[0]);
      VisitConserves(s, d, v, order[0], x);
      var r := Visit(s.c, d, v.queues, order[0]);
      VisitAllConserves(s, r.0, v.(queues := r.1), order[1..], x);
    }
  }

  // ---------------------------------------------------------------- refresh

  lemma CreateConserves(c: Config, d: Driver, k: Backlog, rank: nat, x: nat)
    requires Shape(c, d) && rank < c.Ranks() && WfBank(c, x) && Conserved(d.trace, d.inputQ, k, x)
    ensures var d' := CreateRefresh(c, d, rank); Conserved(d'.trace, d'.inputQ, k, x)
  {
    CreateQueue(c, d, rank, x);
    hide Shape, For, Nums, Received, Owned, Reopening, WithReopens, Requesters, WfBank, RefreshCommands;
    var mine := For(d.inputQ, x);
    if mine != [] {
      Assoc([Reopening(mine[0])], mine, k.queues[x]);
      NumsReopen([], mine[0], mine + k.queues[x]);
      EmptyIsUnit(mine + k.queues[x]);
      EmptyIsUnit([Reopening(mine[0])] + (mine + k.queues[x]));
    }
  }

  lemma SendConserves(c: Config, d: Driver, k: Backlog, rank: nat, x: nat)
    requires Shape(c, d) && rank < c.Ranks() && d.refreshQ[rank] != [] && Conserved(d.trace, d.inputQ, k, x)
    ensures var d' := SendRefresh(c, d, rank); Conserved(d'.trace, d'.inputQ, k, x)
  {
    SendHead(c, d, rank);
    RefreshIsAtomic(c, d, rank);
    NoNumbers(d.now, d.refreshQ[rank][0]);
    ReceivedNone(d.trace, GroupEvents(d.now, d.refreshQ[rank][0]), x);
    hide Shape, SendRefresh, GroupEvents, For, Nums, Received, Owned;
  }

  lemma NoNumbers(now: nat, g: GroupCommand)
    ensures forall i :: 0 <= i < |GroupEvents(now, g)| ==> !HasNumber(GroupEvents(now, g)[i].cmd)
  {}

  lemma RankConserves(c: Config, d: Driver, k: Backlog, rank: nat, x: nat)
    requires Shape(c, d) && rank < c.Ranks() && WfBank(c, x) && Conserved(d.trace, d.inputQ, k, x)
    ensures var d' := RefreshRank(c, d, rank); Conserved(d'.trace, d'.inputQ, k, x)
  {
    hide Shape, SendRefresh, CreateRefresh, Conserved, WfBank;
    CreateConserves(c, d, k, rank, x);
    var d1 := Counted(c, d, rank);
    RanksOf(c, d);
    RanksOf(c, CreateRefresh(c, d, rank));
    RanksOf(c, d1);
    if d1.refreshQ[rank] != [] { SendConserves(c, d1, k, rank, x); }
  }

  lemma {:induction false} RanksConserve(c: Config, d: Driver, k: Backlog, rank: nat, x: nat)
    requires Shape(c, d) && rank <= c.Ranks() && WfBank(c, x) && Conserved(d.trace, d.inputQ, k, x)
    ensures var d' := RefreshFrom(c, d, rank); Conserved(d'.trace, d'.inputQ, k, x)
    decreases c.Ranks() - rank
  {
    hide Shape, RefreshRank, Conserved, WfBank;
    if rank < c.Ranks() {
      RankConserves(c, d, k, rank, x);
      RanksConserve(c, RefreshRank(c, d, rank), k, rank + 1, x);
    }
  }

  // ---------------------------------------------------------------- requests

  /** The oldest command of a bank is received, or is a precharge that is dropped. */
  lemma PopConserves(trace: seq<Event>, q: seq<Command>, k: Backlog, now: nat, i: nat, trace': seq<Event>, x: nat)
    requires i < |q| && Conserved(trace, q, k, x) && forall j :: 0 <= j < i ==> q[j].bank != q[i].bank
    requires trace' == trace + [Event(now, q[i])] || (trace' == trace && q[i].kind == PRE)
    ensures Conserved(trace', Erased(q, i), k, x)
  {
    hide For, Nums, Received, Owned, Erased;
    var cmd := q[i];
    ForErased(q, i, x);
    EmptyIsUnit(For(Erased(q, i), x));
    ReceivedAppend(trace, Event(now, cmd), x);
    EmptyIsUnit(Received(trace, x));
    if cmd.bank == x {
      var rest := Stream(Erased(q, i), k, x);
      Assoc([cmd], For(Erased(q, i), x), k.queues[x]);
      NumsCons(cmd, rest);
      EmptyIsUnit(Nums(rest));
      Assoc(Received(trace, x), [cmd.seqNum], Nums(rest));
    }
  }

  lemma StepConserves(c: Config, d: Driver, k: Backlog, counts: seq<nat>, i: nat, x: nat)
    requires SendInv(c, d, k, counts, i) && i < |d.inputQ| && Conserved(d.trace, d.inputQ, k, x)
    ensures |counts| == c.Ranks()
    ensures var d' := SendStep(c, d, counts, i).d; Conserved(d'.trace, d'.inputQ, k, x)
  {
    LoopShape(c, d, k, counts, i);
    StepIs(c, d, counts, i);
    var d' := SendStep(c, d, counts, i).d;
    if d'.inputQ != d.inputQ || d'.trace != d.trace {
      EligibleIsFirst(c, d, counts, i);
      hide Conserved, SendStep, Erased;
      PopConserves(d.trace, d.inputQ, k, d.now, i, d'.trace, x);
    }
  }

  /** What a pass of the loop does, and to whom. */
  lemma StepIs(c: Config, d: Driver, counts: seq<nat>, i: nat)
    requires Shape(c, d) && |counts| == c.Ranks() && i < |d.inputQ|
    ensures WfBank(c, d.inputQ[i].bank)
    ensures var d' := SendStep(c, d, counts, i).d; var cmd := d.inputQ[i];
      || (d'.inputQ == d.inputQ && d'.trace == d.trace)
      || (&& d'.inputQ == Erased(d.inputQ, i) && !IsRefreshing(c, d, cmd.bank) && Eligible(c, d, counts, cmd)
          && (d'.trace == d.trace + [Event(d.now, cmd)] || (d'.trace == d.trace && cmd.kind == PRE)))
  {
    assert WfBank(c, d.inputQ[i].bank);
    hide BanksAfter, Accepts, IsClosedPhase;
  }

  lemma {:induction false} LoopConserves(c: Config, d: Driver, k: Backlog, counts: seq<nat>, i: nat, x: nat)
    requires SendInv(c, d, k, counts, i) && Conserved(d.trace, d.inputQ, k, x)
    ensures Shape(c, d) && |counts| == c.Ranks() && i <= |d.inputQ|
    ensures var d' := SendLoop(c, d, counts, i); Conserved(d'.trace, d'.inputQ, k, x)
    decreases |d.inputQ| - i
  {
    LoopShape(c, d, k, counts, i);
    hide SendInv, Conserved, SendStep, Shape;
    if i < |d.inputQ| {
      SendStepSafe(c, d, k, counts, i);
      StepConserves(c, d, k, counts, i, x);
      var r := SendStep(c, d, counts, i);
      if !r.stop { LoopConserves(c, r.d, k, counts, r.i, x); }
    }
  }

  // ---------------------------------------------------------------- one cycle

  lemma RunConserves(c: Config, d: Driver, k: Backlog, x: nat)
    requires Shape(c, d) && Fresh(c, d, k) && WfBank(c, x) && Conserved(d.trace, d.inputQ, k, x)
    ensures var d' := Run(c, d); Conserved(d'.trace, d'.inputQ, k, x)
  {
    hide RefreshFrom, SendLoop, Conserved, SendInv, Fresh, Shape, WfBank;
    var d1 := ReleaseBuses(d);
    ReleasedFresh(c, d, k);
    if c.useRefresh {
      RanksConserve(c, d1, k, 0, x);
      FreshFrom(c, d1, k, 0, RefreshFrom(c, d1, 0));
    }
    var d2 := if c.useRefresh then RefreshFrom(c, d1, 0) else d1;
    LoopStarts(c, d2, k);
    LoopConserves(c, d2, k, ActCounts(d2.faw), 0, x);
  }

  lemma ReleasedFresh(c: Config, d: Driver, k: Backlog)
    requires Fresh(c, d, k)
    ensures Shape(c, d) && Shape(c, ReleaseBuses(d)) && Fresh(c, ReleaseBuses(d), k)
  {
    SafeOf(c, ReleaseBuses(d), k, d.banks, d.inputQ, d.trace, d.now);
    hide Safe;
  }

  lemma CycleConserves(s: Setup, y: System, arrivals: seq<Txn>, x: nat)
    requires SystemInv(s, y) && RequestsOk(s, y.queues, y.tracked, arrivals) && x < s.c.Banks()
    requires Conserved(y.d.trace, y.d.inputQ, SystemBacklog(y), x)
    ensures var y' := Step(s, y, arrivals).0; Conserved(y'.d.trace, y'.d.inputQ, SystemBacklog(y'), x)
  {
    hide Step, Shape, ConvertAll, VisitAll, OwnQueues, RequestsOk, ConverterInv, Affordable, Beliefs, Conserved,
      WfBank, Run, SystemShape;
    var picks, v, order, visited := StepStaged(s, y, arrivals);
    var d0, v0 := Update(s.c, y.d), Converted(y.queues, y.tracked, y.owner, true);
    UpdateQueues(s.c, y.d);
    ConvertAllConserves(s, d0, v0, picks, x);
    VisitAllConserves(s, d0, v, order, x);
    BankIsWf(s.c, x);
    ConverterFresh(s, visited.0, v.(queues := visited.1));
    RunConserves(s.c, visited.0, BacklogOf(v.(queues := visited.1)), x);
  }

  lemma UpdateQueues(c: Config, d: Driver)
    requires Shape(c, d)
    ensures Update(c, d).trace == d.trace && Update(c, d).inputQ == d.inputQ && c.Valid()
  {}

  lemma StartConserves(s: Setup, x: nat)
    requires s.c.Valid() && x < s.c.Banks()
    ensures Conserved(Start(s).d.trace, Start(s).d.inputQ, SystemBacklog(Start(s)), x)
  {
    EmptyIsUnit<nat>([]);
  }
}
