/** What one run of the driver adds to the trace: first the refresh commands, each group whole,
    then ordinary commands for ranks without a refresh pending. */
module CycleEvents {
  import opened Sequences
  import opened Dram
  import opened DriverModel
  import opened RefreshSafety
  import opened Quiet

  /** The events of one rank. */
  ghost function RankEvents(c: Config, events: seq<Event>, rank: nat): seq<Event> {
    if events == [] then []
    else (if c.RankOf(events[0].cmd.bank) == rank then [events[0]] else []) + RankEvents(c, events[1..], rank)
  }

  lemma {:induction false} RankEventsConcat(c: Config, a: seq<Event>, b: seq<Event>, rank: nat)
    ensures RankEvents(c, a + b, rank) == RankEvents(c, a, rank) + RankEvents(c, b, rank)
    decreases |a|
  {
    if a == [] {
      assert a + b == b;
    } else {
      RankEventsConcat(c, a[1..], b, rank);
      assert (a + b)[0] == a[0] && (a + b)[1..] == a[1..] + b;
      var head := if c.RankOf(a[0].cmd.bank) == rank then [a[0]] else [];
      assert head + (RankEvents(c, a[1..], rank) + RankEvents(c, b, rank)) ==
        (head + RankEvents(c, a[1..], rank)) + RankEvents(c, b, rank);
    }
  }

  lemma {:induction false} RankEventsAll(c: Config, events: seq<Event>, rank: nat, other: nat)
    requires forall i :: 0 <= i < |events| ==> c.RankOf(events[i].cmd.bank) == other
    ensures RankEvents(c, events, rank) == if rank == other then events else []
    decreases |events|
  {
    if events != [] {
      RankEventsAll(c, events[1..], rank, other);
      assert events == [events[0]] + events[1..];
    }
  }

  lemma {:induction false} RankEventsFrom(c: Config, events: seq<Event>, rank: nat, e: Event)
    requires e in RankEvents(c, events, rank)
    ensures e in events && c.RankOf(e.cmd.bank) == rank
    decreases |events|
  {
    if e !in (if c.RankOf(events[0].cmd.bank) == rank then [events[0]] else []) {
      RankEventsFrom(c, events[1..], rank, e);
    }
  }

  // ---------------------------------------------------------------- one rank

  /** The rank's refresh queue once a refresh that is due has been created: it then ends with the
      REF of the rank's banks whose turn it is. */
  ghost predicate IsDue(c: Config, d: Driver, rank: nat, due: seq<GroupCommand>)
    requires Shape(c, d) && rank < c.Ranks()
  {
    if 0 < d.refi[rank] then due == d.refreshQ[rank]
    else
      && due != [] && |due| <= 2 && due[|due| - 1] == GroupCommand(REF, Requesters(c, d, rank))
      && (|due| == 2 ==> due[0].kind == PRE)
  }

  /** The rank sends the first group of its due queue, whole and in this cycle, or nothing. */
  ghost predicate Outcome(c: Config, d: Driver, rank: nat, due: seq<GroupCommand>, q: seq<GroupCommand>,
                          events: seq<Event>) {
    || (q == due && events == [])
    || (due != [] && q == due[1..] && events == GroupEvents(d.now, due[0]))
  }

  /** Drivers that agree on what decides a rank's refresh. */
  ghost predicate SameFor(c: Config, d: Driver, d': Driver, rank: nat)
    requires Shape(c, d) && Shape(c, d') && rank < c.Ranks()
  {
    && d'.now == d.now && d'.refi[rank] == d.refi[rank]
    && d'.refreshQ[rank] == d.refreshQ[rank] && d'.nextToRefresh[rank] == d.nextToRefresh[rank]
  }

  lemma {:induction false} IssueAllRest(c: Config, d: Driver, kind: Kind, ids: seq<nat>)
    requires Shape(c, d) && forall i :: 0 <= i < |ids| ==> ids[i] < c.Banks()
    ensures var d' := IssueAll(c, d, kind, ids);
      d'.now == d.now && d'.refi == d.refi && d'.nextToRefresh == d.nextToRefresh
    decreases |ids|
  {
    if ids != [] {
      var cmd := GroupMember(kind, ids[0]);
      IssueAllRest(c, if CanSend(d, cmd) then Issue(c, d, cmd) else d, kind, ids[1..]);
    }
  }

  lemma SendRest(c: Config, d: Driver, rank: nat)
    requires Shape(c, d) && rank < c.Ranks() && d.refreshQ[rank] != []
    ensures var d' := SendRefresh(c, d, rank);
      d'.now == d.now && d'.refi == d.refi && d'.nextToRefresh == d.nextToRefresh
  {
    var g := d.refreshQ[rank][0];
    assert WfGroup(c, rank, g);
    IssueAllRest(c, d, g.kind, g.banks);
  }

  /** What the rank's counter and, when due, its new refresh leave alone. */
  lemma CountedIs(c: Config, d: Driver, rank: nat)
    requires Shape(c, d) && rank < c.Ranks()
    ensures var d1 := Counted(c, d, rank);
      d1.trace == d.trace && d1.now == d.now && IsDue(c, d, rank, d1.refreshQ[rank])
    ensures forall r :: 0 <= r < c.Ranks() && r != rank ==> SameFor(c, d, Counted(c, d, rank), r)
    ensures var d1 := Counted(c, d, rank);
      RefreshRank(c, d, rank) == if d1.refreshQ[rank] != [] then SendRefresh(c, d1, rank) else d1
  {
    hide SendRefresh;
  }

  ghost predicate RefreshEvents(c: Config, events: seq<Event>, rank: nat, now: nat) {
    forall i :: 0 <= i < |events| ==>
      c.RankOf(events[i].cmd.bank) == rank && events[i].cmd.origin == Refresh && events[i].cycle == now
  }

  lemma GroupIsRefresh(c: Config, g: GroupCommand, rank: nat, now: nat)
    requires c.Valid() && WfGroup(c, rank, g)
    ensures RefreshEvents(c, GroupEvents(now, g), rank, now)
  {}

  /** A rank with a queue sends its first group or nothing. */
  lemma SendTurn(c: Config, d: Driver, rank: nat) returns (events: seq<Event>)
    requires Shape(c, d) && rank < c.Ranks() && d.refreshQ[rank] != []
    ensures var d' := SendRefresh(c, d, rank);
      && d'.trace == d.trace + events && Outcome(c, d, rank, d.refreshQ[rank], d'.refreshQ[rank], events)
      && (forall r :: 0 <= r < c.Ranks() && r != rank ==> SameFor(c, d, d', r))
      && d'.now == d.now
    ensures RefreshEvents(c, events, rank, d.now)
  {
    hide SendRefresh;
    var g := d.refreshQ[rank][0];
    assert WfGroup(c, rank, g);
    GroupIsRefresh(c, g, rank, d.now);
    hide GroupEvents, WfGroup;
    SendRest(c, d, rank);
    RefreshIsAtomic(c, d, rank);
    if SendRefresh(c, d, rank).refreshQ != d.refreshQ {
      events := GroupEvents(d.now, g);
    } else {
      QueueKept(c, d, rank);
      events := [];
    }
    assert d.trace + [] == d.trace;
  }

  /** One rank's turn: its own outcome, nothing for other ranks. */
  lemma RankTurn(c: Config, d: Driver, rank: nat) returns (events: seq<Event>, due: seq<GroupCommand>)
    requires Shape(c, d) && rank < c.Ranks()
    ensures var d' := RefreshRank(c, d, rank);
      && d'.trace == d.trace + events && d'.now == d.now
      && IsDue(c, d, rank, due) && Outcome(c, d, rank, due, d'.refreshQ[rank], events)
      && (forall r :: 0 <= r < c.Ranks() && r != rank ==> SameFor(c, d, d', r))
    ensures RefreshEvents(c, events, rank, d.now)
  {
    hide RefreshRank, SendRefresh, Counted, IsDue, RefreshEvents;
    CountedIs(c, d, rank);
    var d1 := Counted(c, d, rank);
    due := d1.refreshQ[rank];
    if due != [] {
      events := SendTurn(c, d1, rank);
      forall r | 0 <= r < c.Ranks() && r != rank
        ensures SameFor(c, d, RefreshRank(c, d, rank), r)
      {
        assert SameFor(c, d, d1, r) && SameFor(c, d1, SendRefresh(c, d1, rank), r);
      }
    } else {
      events := [];
      NoEvents(c, rank, d.now);
      assert d.trace + [] == d.trace;
    }
  }

  lemma NoEvents(c: Config, rank: nat, now: nat)
    ensures RefreshEvents(c, [], rank, now)
  {}

  /** The queue only stays when nothing was sent. */
  lemma QueueKept(c: Config, d: Driver, rank: nat)
    requires Shape(c, d) && rank < c.Ranks() && d.refreshQ[rank] != [] && SendRefresh(c, d, rank).refreshQ == d.refreshQ
    ensures SendRefresh(c, d, rank).trace == d.trace
  {
    var q := d.refreshQ[rank];
    assert d.refreshQ[rank := q[1..]][rank] == q[1..];
    assert |q[1..]| < |q|;
    RefreshIsAtomic(c, d, rank);
  }

  // ---------------------------------------------------------------- all ranks

  /** The turns of ranks `rank` and up: the events added, and each rank's due queue. */
  ghost predicate Turns(c: Config, d: Driver, rank: nat, d': Driver, events: seq<Event>,
                        due: map<nat, seq<GroupCommand>>)
    requires Shape(c, d) && Shape(c, d')
  {
    && d'.trace == d.trace + events && d'.now == d.now
    && (forall i :: 0 <= i < |events| ==> events[i].cmd.origin == Refresh && events[i].cycle == d.now)
    && (forall r: nat :: rank <= r < c.Ranks() ==>
          r in due && IsDue(c, d, r, due[r]) && Outcome(c, d, r, due[r], d'.refreshQ[r], RankEvents(c, events, r)))
    && (forall r: nat :: r < rank && r < c.Ranks() ==>
      d'.refreshQ[r] == d.refreshQ[r] && RankEvents(c, events, r) == [])
  }

  lemma FirstTurn(c: Config, d: Driver, rank: nat, d1: Driver, mine: seq<Event>, myDue: seq<GroupCommand>,
                  d': Driver, rest: seq<Event>, due: map<nat, seq<GroupCommand>>)
    requires Shape(c, d) && Shape(c, d1) && Shape(c, d') && rank < c.Ranks()
    requires d1.trace == d.trace + mine && d1.now == d.now && RefreshEvents(c, mine, rank, d.now)
    requires IsDue(c, d, rank, myDue) && Outcome(c, d, rank, myDue, d1.refreshQ[rank], mine)
    requires forall r :: 0 <= r < c.Ranks() && r != rank ==> SameFor(c, d, d1, r)
    requires Turns(c, d1, rank + 1, d', rest, due)
    ensures Turns(c, d, rank, d', mine + rest, due[rank := myDue])
  {
    hide IsDue, RankEvents;
    var events := mine + rest;
    assert d.trace + mine + rest == d.trace + events;
    forall r: nat | r < c.Ranks()
      ensures RankEvents(c, events, r) == (if r == rank then mine else []) + RankEvents(c, rest, r)
    {
      RankEventsConcat(c, mine, rest, r);
      RankEventsAll(c, mine, r, rank);
    }
    forall r: nat | rank < r < c.Ranks()
      ensures IsDue(c, d, r, due[r]) && Outcome(c, d, r, due[r], d'.refreshQ[r], RankEvents(c, events, r))
    {
      assert SameFor(c, d, d1, r);
      DueSame(c, d, d1, r, due[r]);
      assert [] + RankEvents(c, rest, r) == RankEvents(c, rest, r);
    }
    assert d'.refreshQ[rank] == d1.refreshQ[rank] && RankEvents(c, rest, rank) == [];
    assert mine + [] == mine;
    forall r: nat | r < rank
      ensures d'.refreshQ[r] == d.refreshQ[r] && RankEvents(c, events, r) == []
    {
      assert SameFor(c, d, d1, r);
    }
  }

  /** All ranks from `rank` on take their turn; each has its own outcome. */
  lemma {:induction false} RanksTurn(c: Config, d: Driver, rank: nat)
    returns (events: seq<Event>, due: map<nat, seq<GroupCommand>>)
    requires Shape(c, d) && rank <= c.Ranks()
    ensures Turns(c, d, rank, RefreshFrom(c, d, rank), events, due)
    decreases c.Ranks() - rank
  {
    hide RefreshRank, Turns, IsDue, Outcome, SameFor, Shape;
    if rank == c.Ranks() {
      events, due := [], map[];
      NoTurns(c, d);
    } else {
      var mine, myDue := RankTurn(c, d, rank);
      var rest, restDue := RanksTurn(c, RefreshRank(c, d, rank), rank + 1);
      events, due := mine + rest, restDue[rank := myDue];
      RanksOf(c, d);
      RanksOf(c, RefreshRank(c, d, rank));
      FirstTurn(c, d, rank, RefreshRank(c, d, rank), mine, myDue, RefreshFrom(c, d, rank), rest, restDue);
    }
  }

  lemma RanksOf(c: Config, d: Driver)
    requires Shape(c, d)
    ensures |d.refreshQ| == |d.refi| == |d.nextToRefresh| == c.Ranks()
  {}

  lemma NoTurns(c: Config, d: Driver)
    requires Shape(c, d)
    ensures Turns(c, d, c.Ranks(), d, [], map[])
  {
    assert d.trace + [] == d.trace;
  }

  lemma DueSame(c: Config, d: Driver, d': Driver, rank: nat, due: seq<GroupCommand>)
    requires Shape(c, d) && Shape(c, d') && rank < c.Ranks() && SameFor(c, d, d', rank) && IsDue(c, d', rank, due)
    ensures IsDue(c, d, rank, due)
  {}

  // ---------------------------------------------------------------- requests

  /** Ordinary commands of this cycle, for ranks without a refresh pending. */
  ghost predicate Requests(c: Config, events: seq<Event>, refreshQ: seq<seq<GroupCommand>>, now: nat) {
    forall i :: 0 <= i < |events| ==>
      && events[i].cycle == now && events[i].cmd.origin != Refresh
      && c.RankOf(events[i].cmd.bank) < |refreshQ|
      && (c.useRefresh ==> refreshQ[c.RankOf(events[i].cmd.bank)] == [])
  }

  lemma SendStepNow(c: Config, d: Driver, counts: seq<nat>, i: nat)
    requires Shape(c, d) && |counts| == c.Ranks() && i < |d.inputQ|
    ensures SendStep(c, d, counts, i).d.now == d.now
  {
    hide BanksAfter;
  }

  lemma {:induction false} SendLoopEvents(c: Config, d: Driver, counts: seq<nat>, i: nat) returns (events: seq<Event>)
    requires Shape(c, d) && |counts| == c.Ranks() && i <= |d.inputQ| && Ordinary(d.inputQ)
    ensures var d' := SendLoop(c, d, counts, i);
      d'.trace == d.trace + events && d'.refreshQ == d.refreshQ && d'.now == d.now
    ensures Requests(c, events, d.refreshQ, d.now)
    decreases |d.inputQ| - i
  {
    hide SendStep, Shape;
    events := [];
    assert d.trace + [] == d.trace;
    if i < |d.inputQ| {
      SendStepTrace(c, d, counts, i);
      SendStepNow(c, d, counts, i);
      var r := SendStep(c, d, counts, i);
      if r.d.trace != d.trace { events := [Event(d.now, d.inputQ[i])]; }
      if !r.stop {
        var rest := SendLoopEvents(c, r.d, counts, r.i);
        assert d.trace + events + rest == d.trace + (events + rest);
        events := events + rest;
      }
    }
  }

  /** One run of the driver: refresh turns, then requests. */
  ghost predicate RunParts(c: Config, d: Driver, d': Driver, first: seq<Event>, second: seq<Event>,
                           due: map<nat, seq<GroupCommand>>)
    requires Shape(c, d)
  {
    && d'.trace == d.trace + first + second && d'.now == d.now && |d'.refreshQ| == c.Ranks()
    && (forall i :: 0 <= i < |first| ==> first[i].cmd.origin == Refresh && first[i].cycle == d.now)
    && Requests(c, second, d'.refreshQ, d.now)
    && (!c.useRefresh ==> first == [] && d'.refreshQ == d.refreshQ)
    && (c.useRefresh ==> forall r: nat :: r < c.Ranks() ==>
          r in due && IsDue(c, d, r, due[r]) && Outcome(c, d, r, due[r], d'.refreshQ[r], RankEvents(c, first, r)))
  }

  /** The refresh turns alone. */
  lemma RefreshPart(c: Config, d: Driver) returns (first: seq<Event>, due: map<nat, seq<GroupCommand>>)
    requires Shape(c, d) && QuietInv(c, d) && c.useRefresh
    ensures var d2 := RefreshFrom(c, ReleaseBuses(d), 0); RunParts(c, d, d2, first, [], due) && Ordinary(d2.inputQ)
  {
    hide RefreshFrom, QuietTrace, Pending, IsDue, RankEvents, GroupEvents;
    var d1 := ReleaseBuses(d);
    QuietRefreshFrom(c, d1, 0);
    first, due := RanksTurn(c, d1, 0);
    RanksOf(c, RefreshFrom(c, d1, 0));
    EmptyIsUnit(d.trace + first);
    forall r: nat | r < c.Ranks() ensures IsDue(c, d, r, due[r]) { DueSame(c, d, d1, r, due[r]); }
  }

  /** Requests after the refresh turns. */
  lemma RequestPart(c: Config, d: Driver, d2: Driver, d': Driver, first: seq<Event>, second: seq<Event>,
                    due: map<nat, seq<GroupCommand>>)
    requires Shape(c, d) && RunParts(c, d, d2, first, [], due) && Requests(c, second, d2.refreshQ, d2.now)
    requires d'.trace == d2.trace + second && d'.refreshQ == d2.refreshQ && d'.now == d2.now
    ensures RunParts(c, d, d', first, second, due)
  {
    hide Shape, IsDue, Outcome, RankEvents, Requests;
    EmptyIsUnit(d.trace + first);
  }

  lemma RunEvents(c: Config, d: Driver)
    returns (first: seq<Event>, second: seq<Event>, due: map<nat, seq<GroupCommand>>)
    requires Shape(c, d) && QuietInv(c, d)
    ensures RunParts(c, d, Run(c, d), first, second, due)
  {
    hide SendLoop, RefreshFrom, QuietTrace, Pending, IsDue, RankEvents, Outcome;
    var d1 := ReleaseBuses(d);
    var d2 := if c.useRefresh then RefreshFrom(c, d1, 0) else d1;
    first, due := [], map[];
    EmptyIsUnit(d.trace);
    RanksOf(c, d2);
    if c.useRefresh { first, due := RefreshPart(c, d); }
    second := SendLoopEvents(c, d2, ActCounts(d2.faw), 0);
    RequestPart(c, d, d2, Run(c, d), first, second, due);
  }
}
