/** Refresh over whole runs: from the moment a refresh is due, nothing else reaches its rank until
    its REF has, and its commands go out whole. */
module RefreshRuns {
  import opened Dram
  import opened DriverModel
  import opened RefreshSafety
  import opened ControllerModel
  import opened ControllerSafety
  import opened Quiet
  import opened CycleEvents

  /** One cycle of the driver from `d` to `d'`: the refresh part of the events, the request part,
      and the queue each rank had due. */
  ghost predicate CycleParts(c: Config, d: Driver, d': Driver, first: seq<Event>, second: seq<Event>,
                             due: map<nat, seq<GroupCommand>>)
    requires Shape(c, d)
  {
    && d'.trace == d.trace + first + second && d'.now == d.now + 1 && |d'.refreshQ| == c.Ranks()
    && (forall i :: 0 <= i < |first| ==> first[i].cmd.origin == Refresh && first[i].cycle == d'.now)
    && Requests(c, second, d'.refreshQ, d'.now)
    && (!c.useRefresh ==> first == [] && d'.refreshQ == d.refreshQ)
    && (c.useRefresh ==> forall r: nat :: r < c.Ranks() ==> RankPart(c, d, d', r, due, RankEvents(c, first, r)))
  }

  /** The rank's share: its due queue, and the first group of it sent whole in this cycle or not
      at all. */
  ghost predicate RankPart(c: Config, d: Driver, d': Driver, r: nat, due: map<nat, seq<GroupCommand>>,
                           events: seq<Event>)
    requires Shape(c, d) && r < c.Ranks() && |d'.refreshQ| == c.Ranks()
  {
    && r in due && IsDue(c, d, r, due[r])
    && (|| (d'.refreshQ[r] == due[r] && events == [])
        || (due[r] != [] && d'.refreshQ[r] == due[r][1..] && events == GroupEvents(d'.now, due[r][0])))
  }

  lemma StepEvents(s: Setup, y: System, arrivals: seq<Txn>)
    returns (first: seq<Event>, second: seq<Event>, due: map<nat, seq<GroupCommand>>)
    requires SystemInv(s, y) && RequestsOk(s, y.queues, y.tracked, arrivals) && SystemQuiet(s, y)
    ensures Shape(s.c, y.d) && CycleParts(s.c, y.d, Step(s, y, arrivals).0.d, first, second, due)
  {
    hide Step, SystemShape, RequestsOk;
    var d := StepVisited(s, y, arrivals);
    first, second, due := RunEvents(s.c, d);
    PartsOf(s.c, y.d, d, Run(s.c, d), first, second, due);
  }

  lemma PartsOf(c: Config, d: Driver, mid: Driver, d': Driver, first: seq<Event>, second: seq<Event>,
                due: map<nat, seq<GroupCommand>>)
    requires Shape(c, d) && Shape(c, mid) && SameRefresh(d.(now := d.now + 1), mid)
    requires RunParts(c, mid, d', first, second, due)
    ensures CycleParts(c, d, d', first, second, due)
  {
    RanksOf(c, d);
    hide Shape, RankEvents, GroupEvents, Requests;
    if c.useRefresh {
      forall r: nat | r < c.Ranks()
        ensures RankPart(c, d, d', r, due, RankEvents(c, first, r))
      {
        assert IsDue(c, mid, r, due[r]) && Outcome(c, mid, r, due[r], d'.refreshQ[r], RankEvents(c, first, r));
        DueAgain(c, d, mid, r, due[r]);
      }
    }
  }

  lemma DueAgain(c: Config, d: Driver, mid: Driver, r: nat, due: seq<GroupCommand>)
    requires Shape(c, d) && Shape(c, mid) && SameRefresh(d.(now := d.now + 1), mid) && r < c.Ranks()
    requires IsDue(c, mid, r, due)
    ensures IsDue(c, d, r, due)
  {}

  // ---------------------------------------------------------------- until the REF

  ghost predicate IsRefOf(c: Config, e: Event, r: nat) {
    e.cmd.kind == REF && e.cmd.origin == Refresh && c.RankOf(e.cmd.bank) == r
  }

  /** A REF of the rank is among the events from `from` on. */
  ghost predicate Refreshed(c: Config, trace: seq<Event>, from: nat, r: nat) {
    exists q :: from <= q < |trace| && IsRefOf(c, trace[q], r)
  }

  /** An ordinary command for the rank has a REF of the rank between `from` and itself. */
  ghost predicate OnlyAfterRef(c: Config, trace: seq<Event>, from: nat, r: nat) {
    forall p :: from <= p < |trace| && c.RankOf(trace[p].cmd.bank) == r && trace[p].cmd.origin != Refresh ==>
      exists q :: from <= q < p && IsRefOf(c, trace[q], r)
  }

  /** A refresh of the rank is created in the next cycle or already pending. */
  ghost predicate Owing(d: Driver, r: nat)
    requires r < |d.refi| && r < |d.refreshQ|
  {
    d.refi[r] == 0 || d.refreshQ[r] != []
  }

  lemma AfterRefMore(c: Config, trace: seq<Event>, more: seq<Event>, from: nat, r: nat)
    requires OnlyAfterRef(c, trace, from, r) && from <= |trace|
    requires Refreshed(c, trace, from, r) || forall i :: 0 <= i < |more| ==>
      c.RankOf(more[i].cmd.bank) != r || more[i].cmd.origin == Refresh
    ensures OnlyAfterRef(c, trace + more, from, r)
    ensures Refreshed(c, trace, from, r) ==> Refreshed(c, trace + more, from, r)
  {
    var all := trace + more;
    if Refreshed(c, trace, from, r) {
      var q :| from <= q < |trace| && IsRefOf(c, trace[q], r);
      assert IsRefOf(c, all[q], r);
    }
    forall p | from <= p < |all| && c.RankOf(all[p].cmd.bank) == r && all[p].cmd.origin != Refresh
      ensures exists q :: from <= q < p && IsRefOf(c, all[q], r)
    {
      if p < |trace| {
        assert trace[p] == all[p];
        var q :| from <= q < p && IsRefOf(c, trace[q], r);
        assert IsRefOf(c, all[q], r);
      } else {
        assert all[p] == more[p - |trace|];
        var q :| from <= q < |trace| && IsRefOf(c, trace[q], r);
        assert IsRefOf(c, all[q], r);
      }
    }
  }

  /** The last group of a due queue is a REF with banks. */
  lemma DueEndsWithRef(c: Config, d: Driver, r: nat, due: seq<GroupCommand>)
    requires Shape(c, d) && r < c.Ranks() && IsDue(c, d, r, due) && WellFormedQueue(d.refreshQ[r]) && Owing(d, r)
    ensures due != [] && due[|due| - 1].kind == REF && |due| <= 2 && due[|due| - 1].banks != []
  {
    if d.refi[r] == 0 {
      RequestersShape(c, d, r);
    } else {
      assert WfGroup(c, r, due[|due| - 1]);
    }
  }

  /** Sending the last group of the queue puts the rank's REF into the refresh part. */
  lemma LastGroupRefreshes(c: Config, now: nat, first: seq<Event>, g: GroupCommand, r: nat)
    requires RankEvents(c, first, r) == GroupEvents(now, g) && g.kind == REF && g.banks != []
    ensures exists i :: 0 <= i < |first| && IsRefOf(c, first[i], r)
  {
    var e := GroupEvents(now, g)[0];
    assert e in GroupEvents(now, g);
    RankEventsFrom(c, first, r, e);
    var i :| 0 <= i < |first| && first[i] == e;
    assert IsRefOf(c, first[i], r);
  }

  /** One cycle: the refresh stays pending and quiet, or its REF goes out first. */
  lemma CycleAfterRef(c: Config, d: Driver, d': Driver, first: seq<Event>, second: seq<Event>,
                      due: map<nat, seq<GroupCommand>>, from: nat, r: nat)
    requires Shape(c, d) && c.useRefresh && CycleParts(c, d, d', first, second, due) && r < c.Ranks()
    requires from <= |d.trace|
    requires WellFormedQueue(d.refreshQ[r]) && OnlyAfterRef(c, d.trace, from, r)
    requires Refreshed(c, d.trace, from, r) || Owing(d, r)
    ensures OnlyAfterRef(c, d'.trace, from, r) && (Refreshed(c, d'.trace, from, r) || d'.refreshQ[r] != [])
  {
    var mid := d.trace + first;
    RanksOf(c, d);
    hide Shape, RankEvents, GroupEvents, IsDue;
    AfterRefMore(c, d.trace, first, from, r);
    if !Refreshed(c, d.trace, from, r) {
      assert RankPart(c, d, d', r, due, RankEvents(c, first, r));
      DueEndsWithRef(c, d, r, due[r]);
      if d'.refreshQ[r] == [] {
        LastGroupRefreshes(c, d'.now, first, due[r][0], r);
        var i :| 0 <= i < |first| && IsRefOf(c, first[i], r);
        assert mid[|d.trace| + i] == first[i];
      }
    }
    AfterRefMore(c, mid, second, from, r);
  }
}
