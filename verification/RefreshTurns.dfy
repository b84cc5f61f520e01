/** When refreshes are created and whose turn they are: the clock of a rank's refreshes, and with
    single-bank refresh the turns of the rank's banks. */
module RefreshTurns {
  import opened Sequences
  import opened Arithmetic
  import opened Dram
  import opened DriverModel
  import opened RefreshSafety
  import opened ControllerModel
  import opened ControllerSafety
  import opened Quiet
  import opened CycleEvents
  import opened RefreshRuns

  // ---------------------------------------------------------------- the clock

  /** The cycle of the rank's first refresh. */
  function FirstDue(c: Config, r: nat): nat { c.p.nREFI / (r + 1) + 1 }

  /** A refresh of the rank is created in cycle `t`: in its first, and every nREFI + 1 cycles. */
  predicate DueIn(c: Config, r: nat, t: nat) {
    FirstDue(c, r) <= t && (t - FirstDue(c, r)) % (c.p.nREFI + 1) == 0
  }

  /** Refreshes of the rank created in the cycles up to `t`. */
  function Created(c: Config, r: nat, t: nat): nat {
    if t == 0 then 0 else Created(c, r, t - 1) + (if DueIn(c, r, t) then 1 else 0)
  }

  /** The rank's counter after cycle `t`. */
  function CountAt(c: Config, r: nat, t: nat): nat {
    var first := FirstDue(c, r);
    if t < first then first - 1 - t else c.p.nREFI - (t - first) % (c.p.nREFI + 1)
  }

  lemma ClockStep(c: Config, r: nat, t: nat)
    ensures CountAt(c, r, t) == 0 <==> DueIn(c, r, t + 1)
    ensures CountAt(c, r, t + 1) == if CountAt(c, r, t) == 0 then c.p.nREFI else CountAt(c, r, t) - 1
  {
    var first, n := FirstDue(c, r), c.p.nREFI + 1;
    if first <= t {
      var k := t - first;
      NextRemainder(n, k);
      assert t + 1 - first == k + 1;
      var rest := k % n;
      if rest + 1 < n { DivMod(n, 0, rest + 1, rest + 1); } else { DivMod(n, 1, 0, n); }
    } else if t + 1 == first {
      DivMod(n, 0, 0, 0);
    }
  }

  // ---------------------------------------------------------------- one cycle

  /** The rank's counter goes on or starts again; then, with single-bank refresh, the turn passes to
      the next bank. */
  ghost predicate Ticks(c: Config, d: Driver, d': Driver, r: nat) {
    && r < |d.refi| && r < |d'.refi| && r < |d.nextToRefresh| && r < |d'.nextToRefresh|
    && r < |c.banksOfRank| && c.banksOfRank[r] != []
    && d'.refi[r] == (if 0 < d.refi[r] then d.refi[r] - 1 else c.p.nREFI)
    && d'.nextToRefresh[r] == if c.singleBankRefresh && d.refi[r] == 0
                              then (d.nextToRefresh[r] + 1) % |c.banksOfRank[r]| else d.nextToRefresh[r]
  }

  lemma CountedTicks(c: Config, d: Driver, r: nat)
    requires Shape(c, d) && r < c.Ranks()
    ensures Ticks(c, d, Counted(c, d, r), r)
  {}

  /** The rank's counter and turn stay. */
  ghost predicate Stands(d: Driver, d': Driver, r: nat) {
    && r < |d.refi| && r < |d'.refi| && r < |d.nextToRefresh| && r < |d'.nextToRefresh|
    && d'.refi[r] == d.refi[r] && d'.nextToRefresh[r] == d.nextToRefresh[r]
  }

  lemma RankTicks(c: Config, d: Driver, rank: nat, r: nat)
    requires Shape(c, d) && rank < c.Ranks() && r < c.Ranks()
    ensures if r == rank then Ticks(c, d, RefreshRank(c, d, rank), r) else Stands(d, RefreshRank(c, d, rank), r)
  {
    CountedTicks(c, d, rank);
    CountedIs(c, d, rank);
    var d1 := Counted(c, d, rank);
    if d1.refreshQ[rank] != [] { SendRest(c, d1, rank); }
    if r != rank { assert SameFor(c, d, d1, r); }
    hide RefreshRank, Counted, SendRefresh, Shape;
  }

  lemma {:induction false} RanksTick(c: Config, d: Driver, rank: nat, r: nat)
    requires Shape(c, d) && rank <= c.Ranks() && r < c.Ranks()
    ensures if rank <= r then Ticks(c, d, RefreshFrom(c, d, rank), r) else Stands(d, RefreshFrom(c, d, rank), r)
    decreases c.Ranks() - rank
  {
    hide RefreshRank, Shape, Ticks, Stands;
    if rank < c.Ranks() {
      RankTicks(c, d, rank, r);
      RanksTick(c, RefreshRank(c, d, rank), rank + 1, r);
      ThenStands(c, d, RefreshRank(c, d, rank), RefreshFrom(c, d, rank), r);
    } else {
      SameTurns(c, d, d, r);
    }
  }

  lemma ThenStands(c: Config, d: Driver, mid: Driver, d': Driver, r: nat)
    ensures Ticks(c, d, mid, r) && Stands(mid, d', r) ==> Ticks(c, d, d', r)
    ensures Stands(d, mid, r) && Ticks(c, mid, d', r) ==> Ticks(c, d, d', r)
    ensures Stands(d, mid, r) && Stands(mid, d', r) ==> Stands(d, d', r)
  {}

  lemma SendStepTurns(c: Config, d: Driver, counts: seq<nat>, i: nat)
    requires Shape(c, d) && |counts| == c.Ranks() && i < |d.inputQ|
    ensures var d' := SendStep(c, d, counts, i).d; d'.refi == d.refi && d'.nextToRefresh == d.nextToRefresh
  {
    hide BanksAfter;
  }

  lemma {:induction false} SendLoopTurns(c: Config, d: Driver, counts: seq<nat>, i: nat)
    requires Shape(c, d) && |counts| == c.Ranks() && i <= |d.inputQ|
    ensures var d' := SendLoop(c, d, counts, i); d'.refi == d.refi && d'.nextToRefresh == d.nextToRefresh
    decreases |d.inputQ| - i
  {
    hide SendStep, Shape;
    if i < |d.inputQ| {
      SendStepTurns(c, d, counts, i);
      var next := SendStep(c, d, counts, i);
      if !next.stop { SendLoopTurns(c, next.d, counts, next.i); }
    }
  }

  lemma RunTicks(c: Config, d: Driver, r: nat)
    requires Shape(c, d) && r < c.Ranks() && c.useRefresh
    ensures Ticks(c, d, Run(c, d), r)
  {
    hide RefreshFrom, SendLoop, Ticks, Stands;
    var d1 := ReleaseBuses(d);
    RanksTick(c, d1, 0, r);
    var d2 := RefreshFrom(c, d1, 0);
    SendLoopTurns(c, d2, ActCounts(d2.faw), 0);
    SameTurns(c, d, d1, r);
    SameTurns(c, d2, Run(c, d), r);
    hide Shape, DriverModel.Run;
    ThenStands(c, d, d1, d2, r);
    ThenStands(c, d, d2, Run(c, d), r);
  }

  lemma SameTurns(c: Config, d: Driver, d': Driver, r: nat)
    requires Shape(c, d) && d'.refi == d.refi && d'.nextToRefresh == d.nextToRefresh && r < c.Ranks()
    ensures Stands(d, d', r)
  {}

  /** One clock cycle of the controller. */
  lemma StepTicks(s: Setup, y: System, arrivals: seq<Txn>, r: nat)
    requires SystemInv(s, y) && RequestsOk(s, y.queues, y.tracked, arrivals) && s.c.useRefresh && r < s.c.Ranks()
    ensures Shape(s.c, y.d) && Shape(s.c, Step(s, y, arrivals).0.d) && Ticks(s.c, y.d, Step(s, y, arrivals).0.d, r)
  {
    hide Step, SystemInv, RequestsOk, Run, ConverterInv, Shape, Ticks, Stands, SystemShape;
    FreshConverter(s, y);
    var d := StepVisited(s, y, arrivals);
    RunTicks(s.c, d, r);
    SameTurns(s.c, y.d, d, r);
    ThenStands(s.c, y.d, d, Run(s.c, d), r);
  }

  // ---------------------------------------------------------------- the REFs of a rank

  ghost function Refs(c: Config, trace: seq<Event>, r: nat): seq<Event> {
    if trace == [] then []
    else (if IsRefOf(c, trace[0], r) then [trace[0]] else []) + Refs(c, trace[1..], r)
  }

  lemma {:induction false} RefsConcat(c: Config, a: seq<Event>, b: seq<Event>, r: nat)
    ensures Refs(c, a + b, r) == Refs(c, a, r) + Refs(c, b, r)
    decreases |a|
  {
    if a == [] {
      assert a + b == b;
    } else {
      RefsConcat(c, a[1..], b, r);
      assert (a + b)[0] == a[0] && (a + b)[1..] == a[1..] + b;
      Assoc(if IsRefOf(c, a[0], r) then [a[0]] else [], Refs(c, a[1..], r), Refs(c, b, r));
    }
  }

  lemma {:induction false} NoRefs(c: Config, events: seq<Event>, r: nat)
    requires forall i :: 0 <= i < |events| ==> !IsRefOf(c, events[i], r)
    ensures Refs(c, events, r) == []
    decreases |events|
  {
    if events != [] { NoRefs(c, events[1..], r); }
  }

  /** The rank's REFs are among the rank's events. */
  lemma {:induction false} RefsOfRank(c: Config, events: seq<Event>, r: nat)
    ensures Refs(c, RankEvents(c, events, r), r) == Refs(c, events, r)
    decreases |events|
  {
    if events != [] {
      var head := if c.RankOf(events[0].cmd.bank) == r then [events[0]] else [];
      RefsOfRank(c, events[1..], r);
      RefsConcat(c, head, RankEvents(c, events[1..], r), r);
      EmptyIsUnit([events[0]]);
      assert Refs(c, head, r) == if IsRefOf(c, events[0], r) then [events[0]] else [];
    }
  }

  /** What a cycle adds to the rank's REFs: those of its share. */
  lemma CycleRefs(c: Config, d: Driver, d': Driver, first: seq<Event>, second: seq<Event>,
                  due: map<nat, seq<GroupCommand>>, r: nat)
    requires Shape(c, d) && c.useRefresh && r < c.Ranks() && CycleParts(c, d, d', first, second, due)
    ensures Refs(c, d'.trace, r) == Refs(c, d.trace, r) + Refs(c, RankEvents(c, first, r), r)
  {
    hide Shape, RankPart, Refs, RankEvents;
    RefsConcat(c, d.trace + first, second, r);
    RefsConcat(c, d.trace, first, r);
    NoRefs(c, second, r);
    EmptyIsUnit(Refs(c, d.trace + first, r));
    RefsOfRank(c, first, r);
  }

  lemma GroupRefs(c: Config, now: nat, g: GroupCommand, r: nat)
    requires g.kind == PRE || (g.kind == REF && |g.banks| == 1 && c.RankOf(g.banks[0]) == r)
    ensures Refs(c, GroupEvents(now, g), r) == if g.kind == PRE then [] else [Event(now, GroupMember(REF, g.banks[0]))]
  {
    if g.kind == PRE {
      NoRefs(c, GroupEvents(now, g), r);
    } else {
      assert GroupEvents(now, g) == [Event(now, GroupMember(REF, g.banks[0]))];
    }
  }

  // ---------------------------------------------------------------- turns

  /** Position of turn `k` in a ring of `n`. */
  function Turn(n: nat, k: nat): (t: nat)
    requires 0 < n
    ensures t < n
  {
    k % n
  }

  /** Going on in the ring. */
  lemma TurnPlus(n: nat, j: nat, k: nat)
    requires 0 < n
    ensures var t := Turn(n, j) + Turn(n, k); Turn(n, j + k) == if t < n then t else t - n
    ensures k < n ==> Turn(n, k) == k
  {
    var m, v := Turn(n, j), Turn(n, k);
    var q := Rounds(n, j);
    var u := Rounds(n, k);
    hide Turn;
    if m + v < n {
      Distribute(n, q, u);
      TurnIs(n, q + u, m + v, j + k);
    } else {
      Distribute(n, q, u);
      Distribute(n, q + u, 1);
      TurnIs(n, q + u + 1, m + v - n, j + k);
    }
    if k < n { TurnIs(n, 0, k, k); }
  }

  lemma Rounds(n: nat, k: nat) returns (q: nat)
    requires 0 < n
    ensures k == n * q + Turn(n, k)
  {
    q := k / n;
  }

  lemma Distribute(n: nat, q: nat, u: nat)
    ensures n * (q + u) == n * q + n * u
  {}

  lemma TurnIs(n: nat, q: nat, t: nat, k: nat)
    requires t < n && k == n * q + t
    ensures Turn(n, k) == t
  {
    DivMod(n, q, t, k);
  }

  /** The bank of the rank's `k`-th turn. */
  function TurnBank(c: Config, r: nat, k: nat): nat
    requires r < |c.banksOfRank| && c.banksOfRank[r] != []
  {
    c.banksOfRank[r][Turn(|c.banksOfRank[r]|, k)]
  }

  /** In the next cycle a refresh of the rank takes the place of one that has not gone out. */
  ghost predicate Drops(d: Driver, r: nat) {
    r < |d.refi| && r < |d.refreshQ| && d.refi[r] == 0 && d.refreshQ[r] != []
  }

  /** Refreshes of the rank dropped before state `k`. */
  ghost function Dropped(states: seq<System>, k: nat, r: nat): nat
    requires k <= |states|
  {
    if k == 0 then 0 else Dropped(states, k - 1, r) + (if Drops(states[k - 1].d, r) then 1 else 0)
  }

  lemma {:induction false} DroppedGrows(states: seq<System>, j: nat, k: nat, r: nat)
    requires j <= k <= |states|
    ensures Dropped(states, j, r) <= Dropped(states, k, r)
    decreases k
  {
    if j < k { DroppedGrows(states, j, k - 1, r); }
  }

  ghost function Waiting(d: Driver, r: nat): nat
    requires r < |d.refreshQ|
  {
    if d.refreshQ[r] == [] then 0 else 1
  }

  /** With `sent` REFs on the trace and `dropped` refreshes lost, a refresh that waits is for the
      bank of the next turn, and the counter is one turn further. */
  ghost predicate InTurn(c: Config, d: Driver, r: nat, sent: nat, dropped: nat)
    requires Shape(c, d) && r < c.Ranks()
  {
    var q := d.refreshQ[r];
    && d.nextToRefresh[r] == Turn(|c.banksOfRank[r]|, sent + Waiting(d, r) + dropped)
    && (q != [] ==> q[|q| - 1] == GroupCommand(REF, [TurnBank(c, r, sent + dropped)]))
  }

  lemma OneMoreTurn(c: Config, d: Driver, r: nat, k: nat)
    requires Shape(c, d) && r < c.Ranks() && d.nextToRefresh[r] == Turn(|c.banksOfRank[r]|, k)
    ensures (d.nextToRefresh[r] + 1) % |c.banksOfRank[r]| == Turn(|c.banksOfRank[r]|, k + 1)
    ensures c.singleBankRefresh ==> Requesters(c, d, r) == [TurnBank(c, r, k)]
  {
    NextRemainder(|c.banksOfRank[r]|, k);
  }

  /** The due queue ends with the REF of the bank whose turn it is. */
  lemma DueInTurn(c: Config, d: Driver, r: nat, due: seq<GroupCommand>, sent: nat, dropped: nat)
    requires Shape(c, d) && r < c.Ranks() && c.singleBankRefresh && InTurn(c, d, r, sent, dropped)
    requires IsDue(c, d, r, due) && WellFormedQueue(d.refreshQ[r])
    ensures WellFormedQueue(due)
    ensures var dropped' := dropped + (if Drops(d, r) then 1 else 0);
      due != [] ==> due[|due| - 1] == GroupCommand(REF, [TurnBank(c, r, sent + dropped')])
  {
    hide TurnBank, Turn;
    OneMoreTurn(c, d, r, sent + Waiting(d, r) + dropped);
  }

  /** The rank's share of a cycle holds a REF exactly when it empties the due queue. */
  lemma ShareRefs(c: Config, d: Driver, d': Driver, r: nat, due: map<nat, seq<GroupCommand>>, events: seq<Event>,
                  k: nat)
    requires Shape(c, d) && r < c.Ranks() && |d'.refreshQ| == c.Ranks() && RankPart(c, d, d', r, due, events)
    requires WellFormedQueue(due[r])
    requires due[r] != [] ==> due[r][|due[r]| - 1] == GroupCommand(REF, [TurnBank(c, r, k)])
    ensures var q := d'.refreshQ[r];
      && Refs(c, events, r) == (if due[r] != [] && q == [] then [Event(d'.now, GroupMember(REF, TurnBank(c, r, k)))]
                                else [])
      && (q != [] ==> due[r] != [] && q[|q| - 1] == GroupCommand(REF, [TurnBank(c, r, k)]))
  {
    TurnBankOf(c, r, k);
    hide Shape, IsDue, TurnBank, GroupEvents;
    if due[r] != [] && d'.refreshQ[r] == due[r][1..] { GroupRefs(c, d'.now, due[r][0], r); }
  }

  /** One cycle: at most one REF is added, for the bank whose turn it is, and what was created is
      sent, waiting or dropped. */
  lemma TurnStep(c: Config, d: Driver, d': Driver, first: seq<Event>, second: seq<Event>,
                 due: map<nat, seq<GroupCommand>>, r: nat, dropped: nat)
    requires Shape(c, d) && Shape(c, d') && c.useRefresh && c.singleBankRefresh && r < c.Ranks()
    requires CycleParts(c, d, d', first, second, due) && Ticks(c, d, d', r) && WellFormedQueue(d.refreshQ[r])
    requires InTurn(c, d, r, |Refs(c, d.trace, r)|, dropped)
    ensures var refs, refs' := Refs(c, d.trace, r), Refs(c, d'.trace, r);
      var dropped' := dropped + (if Drops(d, r) then 1 else 0);
      && InTurn(c, d', r, |refs'|, dropped')
      && |refs'| + Waiting(d', r) + dropped' == |refs| + Waiting(d, r) + dropped + (if d.refi[r] == 0 then 1 else 0)
      && (refs' == refs || refs' == refs + [Event(d'.now, GroupMember(REF, TurnBank(c, r, |refs| + dropped')))])
  {
    hide Shape, Refs, RankEvents, RankPart, TurnBank, Turn, WellFormedQueue, Ticks, Drops, IsDue, Requests;
    var refs := Refs(c, d.trace, r);
    var dropped' := dropped + (if Drops(d, r) then 1 else 0);
    RanksOf(c, d);
    RanksOf(c, d');
    CycleRefs(c, d, d', first, second, due, r);
    var events := RankEvents(c, first, r);
    assert RankPart(c, d, d', r, due, events);
    RankDue(c, d, d', r, due, events);
    DueInTurn(c, d, r, due[r], |refs|, dropped);
    ShareRefs(c, d, d', r, due, events, |refs| + dropped');
    DueWaits(c, d, r, due[r]);
    EmptyIsUnit(refs);
    Turned(c, d, d', r, |refs|, dropped, due[r]);
  }

  lemma RankDue(c: Config, d: Driver, d': Driver, r: nat, due: map<nat, seq<GroupCommand>>, events: seq<Event>)
    requires Shape(c, d) && r < c.Ranks() && |d'.refreshQ| == c.Ranks() && RankPart(c, d, d', r, due, events)
    ensures r in due && IsDue(c, d, r, due[r]) && (due[r] == [] ==> d'.refreshQ[r] == [])
  {}

  /** The turn's arithmetic. */
  lemma Turned(c: Config, d: Driver, d': Driver, r: nat, sent: nat, dropped: nat, due: seq<GroupCommand>)
    requires Shape(c, d) && Shape(c, d') && c.singleBankRefresh && r < c.Ranks()
    requires Ticks(c, d, d', r) && InTurn(c, d, r, sent, dropped)
    requires due == [] <==> d.refi[r] != 0 && d.refreshQ[r] == []
    requires due == [] ==> d'.refreshQ[r] == []
    ensures var sent' := sent + (if due != [] && d'.refreshQ[r] == [] then 1 else 0);
      var dropped' := dropped + (if Drops(d, r) then 1 else 0);
      && sent' + Waiting(d', r) + dropped' == sent + Waiting(d, r) + dropped + (if d.refi[r] == 0 then 1 else 0)
      && d'.nextToRefresh[r] == Turn(|c.banksOfRank[r]|, sent' + Waiting(d', r) + dropped')
  {
    RanksOf(c, d);
    OneMoreTurn(c, d, r, sent + Waiting(d, r) + dropped);
    hide Shape, TurnBank, Turn;
  }

  lemma TurnBankOf(c: Config, r: nat, k: nat)
    requires c.Valid() && r < c.Ranks()
    ensures c.RankOf(TurnBank(c, r, k)) == r
  {
    assert c.BanksOf(r, c.banksOfRank[r]);
  }

  lemma DueWaits(c: Config, d: Driver, r: nat, due: seq<GroupCommand>)
    requires Shape(c, d) && r < c.Ranks() && IsDue(c, d, r, due)
    ensures due == [] <==> d.refi[r] != 0 && d.refreshQ[r] == []
  {}

  // ---------------------------------------------------------------- a rank's REFs over a run

  /** The rank's `j`-th REF goes to the bank of turn `j`, counting the turns dropped before it. */
  ghost predicate RefsInTurn(c: Config, states: seq<System>, refs: seq<Event>, k: nat, r: nat)
    requires k < |states| && r < |c.banksOfRank| && c.banksOfRank[r] != []
  {
    forall j :: 0 <= j < |refs| ==> refs[j].cycle <= k && InItsTurn(c, states, refs[j], j, r)
  }

  ghost predicate InItsTurn(c: Config, states: seq<System>, e: Event, j: nat, r: nat)
    requires e.cycle <= |states| && r < |c.banksOfRank| && c.banksOfRank[r] != []
  {
    IsRefOf(c, e, r) && e.cmd.bank == TurnBank(c, r, j + Dropped(states, e.cycle, r))
  }

  /** Without a drop, turn by turn. */
  ghost predicate RoundRobin(c: Config, refs: seq<Event>, r: nat)
    requires r < |c.banksOfRank| && c.banksOfRank[r] != []
  {
    forall j :: 0 <= j < |refs| ==> refs[j].cmd.bank == TurnBank(c, r, j)
  }

  /** Any round of consecutive REFs reaches every bank of the rank exactly once. */
  ghost predicate RoundsAreWhole(c: Config, refs: seq<Event>, r: nat)
    requires r < |c.banksOfRank|
  {
    var n := |c.banksOfRank[r]|;
    forall j, x :: 0 <= j && 0 <= x < n && j + n <= |refs| ==> OnceFrom(refs, j, n, c.banksOfRank[r][x])
  }

  /** One alone of the `n` REFs from the `j`-th on is for the bank. */
  ghost predicate OnceFrom(refs: seq<Event>, j: nat, n: nat, bank: nat)
    requires j + n <= |refs|
  {
    exists i :: j <= i < j + n && refs[i].cmd.bank == bank && OnlyAt(refs, j, n, bank, i)
  }

  ghost predicate OnlyAt(refs: seq<Event>, j: nat, n: nat, bank: nat, i: nat)
    requires j + n <= |refs|
  {
    forall k :: j <= k < j + n && refs[k].cmd.bank == bank ==> k == i
  }

  lemma TurnsRepeat(c: Config, r: nat, j: nat, k: nat)
    requires c.Valid() && r < c.Ranks()
    ensures c.banksOfRank[r] != []
    ensures var n := |c.banksOfRank[r]|; TurnBank(c, r, j) == TurnBank(c, r, k) <==> Turn(n, j) == Turn(n, k)
  {
    assert c.BanksOf(r, c.banksOfRank[r]);
  }

  /** Among `n` consecutive turns from `j` one alone is at position `x`. */
  lemma OneTurn(n: nat, j: nat, x: nat) returns (i: nat)
    requires x < n
    ensures j <= i < j + n && Turn(n, i) == x && forall k :: j <= k < j + n && Turn(n, k) == x ==> k == i
  {
    hide Turn;
    var m := Turn(n, j);
    i := j + if m <= x then x - m else x + n - m;
    forall k | j <= k < j + n
      ensures Turn(n, k) == if m + k - j < n then m + k - j else m + k - j - n
    {
      TurnPlus(n, j, k - j);
    }
  }

  lemma RoundRobinIsWhole(c: Config, refs: seq<Event>, r: nat)
    requires c.Valid() && r < c.Ranks() && RoundRobin(c, refs, r)
    ensures RoundsAreWhole(c, refs, r)
  {
    hide RoundRobin, OnceFrom;
    forall j, x | 0 <= j && 0 <= x < |c.banksOfRank[r]| && j + |c.banksOfRank[r]| <= |refs|
      ensures OnceFrom(refs, j, |c.banksOfRank[r]|, c.banksOfRank[r][x])
    {
      RoundHas(c, refs, r, j, x);
    }
  }

  lemma RoundHas(c: Config, refs: seq<Event>, r: nat, j: nat, x: nat)
    requires c.Valid() && r < c.Ranks() && RoundRobin(c, refs, r)
    requires x < |c.banksOfRank[r]| && j + |c.banksOfRank[r]| <= |refs|
    ensures OnceFrom(refs, j, |c.banksOfRank[r]|, c.banksOfRank[r][x])
  {
    hide Turn;
    var n, bank := |c.banksOfRank[r]|, c.banksOfRank[r][x];
    var i := OneTurn(n, j, x);
    TurnPlus(n, 0, x);
    forall k | j <= k < j + n
      ensures refs[k].cmd.bank == bank <==> Turn(n, k) == x
    {
      TurnsRepeat(c, r, k, x);
    }
    assert OnlyAt(refs, j, n, bank, i);
  }

  /** The REFs are in turn as if nothing was dropped exactly when, before each, whole rounds were. */
  lemma RoundRobinExactly(c: Config, states: seq<System>, refs: seq<Event>, k: nat, r: nat)
    requires c.Valid() && k < |states| && r < c.Ranks() && RefsInTurn(c, states, refs, k, r)
    ensures RoundRobin(c, refs, r) <==> WholeRoundsDropped(c, states, refs, r)
  {
    hide TurnBank, Turn, Divides, Dropped, InItsTurn;
    forall j | 0 <= j < |refs|
      ensures refs[j].cmd.bank == TurnBank(c, r, j) <==> Divides(|c.banksOfRank[r]|, Dropped(states, refs[j].cycle, r))
    {
      OwnTurn(c, states, refs[j], j, r);
    }
  }

  lemma OwnTurn(c: Config, states: seq<System>, e: Event, j: nat, r: nat)
    requires c.Valid() && r < c.Ranks() && e.cycle <= |states| && InItsTurn(c, states, e, j, r)
    ensures e.cmd.bank == TurnBank(c, r, j) <==> Divides(|c.banksOfRank[r]|, Dropped(states, e.cycle, r))
  {
    hide TurnBank, Turn, Divides, Dropped;
    var dropped := Dropped(states, e.cycle, r);
    TurnsRepeat(c, r, j + dropped, j);
    SameTurn(|c.banksOfRank[r]|, j, dropped);
  }

  lemma SameTurn(n: nat, j: nat, k: nat)
    requires 0 < n
    ensures Turn(n, j + k) == Turn(n, j) <==> Divides(n, k)
  {
    TurnPlus(n, j, k);
    assert Turn(n, k) == k % n;
    hide Turn;
  }

  /** Before each REF a multiple of the round's length has been dropped. */
  ghost predicate WholeRoundsDropped(c: Config, states: seq<System>, refs: seq<Event>, r: nat)
    requires r < |c.banksOfRank|
  {
    forall j :: 0 <= j < |refs| ==>
      refs[j].cycle < |states| && Divides(|c.banksOfRank[r]|, Dropped(states, refs[j].cycle, r))
  }
}
