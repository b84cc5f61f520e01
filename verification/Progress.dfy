/** Nothing that may go out is left behind: after the driver's run the oldest command of a bank
    still waits only for a reason, and so does the first group of a rank's refresh. */
module Progress {
  import opened Dram
  import opened BankModel
  import opened DriverModel
  import opened Rows
  import opened RefreshSafety
  import opened Quiet
  import opened CycleEvents

  // ---------------------------------------------------------------- requests

  /** A write of the queue to another bank has the same address on 32 bits. */
  ghost predicate Aliased(q: seq<Command>, cmd: Command) {
    exists w :: w in q && w.kind == WRITE && w.bank != cmd.bank && w.addr % UINT32 == cmd.addr % UINT32
  }

  /** Why command `cmd`, the oldest of its bank in queue `q`, has not gone out: its rank waits for a
      refresh, its bus is taken, the rank has had four ACTs, an aliasing write is queued, or its bank
      does not take it. */
  ghost predicate Held(c: Config, q: seq<Command>, d: Driver, counts: seq<nat>, cmd: Command)
    requires Shape(c, d) && |counts| == c.Ranks() && WfBank(c, cmd.bank)
  {
    || IsRefreshing(c, d, cmd.bank)
    || !BusFree(d, cmd.kind, c.ChannelOf(cmd.bank))
    || (cmd.kind == ACT && 4 <= counts[c.RankOf(cmd.bank)])
    || Aliased(q, cmd)
    || NotTaken(d, cmd)
  }

  /** The bank does not take the command; for a precharge, nor is it closed already. */
  ghost predicate NotTaken(d: Driver, cmd: Command)
    requires cmd.bank < |d.banks|
  {
    cmd.kind == REF || (!CanSend(d, cmd) && !(cmd.kind == PRE && IsClosedPhase(d.banks[cmd.bank])))
  }

  /** Bank `x` has a command before the cursor. */
  ghost predicate Passed(d: Driver, i: nat, x: nat)
    requires i <= |d.inputQ|
  {
    exists j :: 0 <= j < i && d.inputQ[j].bank == x
  }

  /** One command of the bank has left the queue, or none has and the oldest, once passed, is held. */
  ghost predicate Settled(c: Config, q: seq<Command>, d: Driver, counts: seq<nat>, i: nat, x: nat)
    requires Shape(c, d) && |counts| == c.Ranks() && i <= |d.inputQ| && x < c.Banks()
  {
    var mine, before := For(d.inputQ, x), For(q, x);
    || |mine| < |before|
    || (mine == before && if Passed(d, i, x) then FirstHeld(c, q, d, counts, x) else !d.blockBank[x])
  }

  ghost predicate FirstHeld(c: Config, q: seq<Command>, d: Driver, counts: seq<nat>, x: nat)
    requires Shape(c, d) && |counts| == c.Ranks()
  {
    var mine := For(d.inputQ, x);
    mine != [] && WfBank(c, mine[0].bank) && mine[0].bank == x && Held(c, q, d, counts, mine[0])
  }

  /** Addresses of writes the loop has seen, whose banks it has blocked. */
  ghost predicate SeenWrites(q: seq<Command>, d: Driver) {
    forall a :: a in d.inflightWrites ==> SeenWrite(q, d, a)
  }

  ghost predicate SeenWrite(q: seq<Command>, d: Driver, a: nat) {
    exists w :: w in q && w.kind == WRITE && w.addr % UINT32 == a && w.bank < |d.blockBank| && d.blockBank[w.bank]
  }

  ghost predicate AmongQueue(q: seq<Command>, d: Driver) { forall j :: 0 <= j < |d.inputQ| ==> d.inputQ[j] in q }

  /** What holds at every pass of the loop. */
  ghost predicate LoopOk(c: Config, q: seq<Command>, d: Driver, counts: seq<nat>, i: nat, x: nat)
    requires Shape(c, d)
  {
    && i <= |d.inputQ| && |counts| == c.Ranks() && x < c.Banks() && Settled(c, q, d, counts, i, x)
    && SeenWrites(q, d) && AmongQueue(q, d)
    && (Passed(d, i, x) && For(d.inputQ, x) == For(q, x) ==> d.blockBank[x] || IsRefreshing(c, d, x))
  }

  /** What holds the bank's oldest command keeps holding it while other banks get theirs. */
  lemma StaysHeld(c: Config, q: seq<Command>, d: Driver, d': Driver, counts: seq<nat>, cmd: Command)
    requires Shape(c, d) && Shape(c, d') && |counts| == c.Ranks() && WfBank(c, cmd.bank) && Held(c, q, d, counts, cmd)
    requires d'.refreshQ == d.refreshQ && d'.now == d.now && BusierThan(d, d')
    requires SlowerBank(d.banks[cmd.bank], d'.banks[cmd.bank])
    ensures Held(c, q, d', counts, cmd)
  {}

  ghost predicate BusierThan(d: Driver, d': Driver) {
    && |d'.colBus| == |d.colBus| && |d'.rowBus| == |d.rowBus|
    && (forall ch :: 0 <= ch < |d.colBus| && d.colBus[ch] != 0 ==> d'.colBus[ch] != 0)
    && (forall ch :: 0 <= ch < |d.rowBus| && d.rowBus[ch] != 0 ==> d'.rowBus[ch] != 0)
  }

  /** The bank takes no more than before, in the same state. */
  ghost predicate SlowerBank(b: Bank, b': Bank) { b'.phase == b.phase && b.next.AtMost(b'.next) }

  lemma SpreadIsSlower(c: Config, b: Bank, i: nat, cmd: Command, now: nat)
    requires c.Valid()
    ensures SlowerBank(b, Spread(c, b, i, cmd, now))
  {}

  // ---------------------------------------------------------------- one pass of the loop

  lemma ForShrinks(q: seq<Command>, i: nat, x: nat)
    requires i < |q|
    ensures |For(Erased(q, i), x)| <= |For(q, x)|
    ensures q[i].bank != x ==> For(Erased(q, i), x) == For(q, x)
    ensures q[i].bank == x ==> |For(Erased(q, i), x)| < |For(q, x)|
  {
    assert q == q[..i] + ([q[i]] + q[i + 1..]);
    ForConcat(q[..i], [q[i]] + q[i + 1..], x);
    ForConcat(q[..i], q[i + 1..], x);
    ForCons(q[i], q[i + 1..], x);
  }

  /** The cursor moves on: a bank's first command is passed only when it is held. */
  lemma PassKeeps(c: Config, q: seq<Command>, d: Driver, d1: Driver, counts: seq<nat>, i: nat, x: nat)
    requires Shape(c, d) && Shape(c, d1) && LoopOk(c, q, d, counts, i, x) && i < |d.inputQ|
    requires d1 == d || d1 == Noted(d, d.inputQ[i]) || d1 == d.(blockBank := d.blockBank[d.inputQ[i].bank := true])
    requires d1.blockBank[d.inputQ[i].bank] || IsRefreshing(c, d, d.inputQ[i].bank)
    requires d.inputQ[i].bank == x && !Passed(d, i, x) && For(d.inputQ, x) == For(q, x) ==>
      Held(c, q, d, counts, d.inputQ[i])
    ensures LoopOk(c, q, d1, counts, i + 1, x)
  {
    var cmd := d.inputQ[i];
    hide Shape, WfBank, Aliased, For;
    PassedNext(d, i, x);
    NotedSeen(q, d, d1, i);
    if For(d.inputQ, x) == For(q, x) {
      if Passed(d, i, x) {
        HeldNoted(c, q, d, d1, counts, x, i);
      } else if cmd.bank == x {
        FirstIs(c, d, i, x);
        HeldNoted(c, q, d, d1, counts, x, i);
      }
    }
  }

  lemma PassedNext(d: Driver, i: nat, x: nat)
    requires i < |d.inputQ|
    ensures Passed(d, i + 1, x) <==> Passed(d, i, x) || d.inputQ[i].bank == x
  {}

  lemma FirstIs(c: Config, d: Driver, i: nat, x: nat)
    requires Shape(c, d) && i < |d.inputQ| && d.inputQ[i].bank == x && !Passed(d, i, x)
    ensures For(d.inputQ, x) != [] && For(d.inputQ, x)[0] == d.inputQ[i] && WfBank(c, d.inputQ[i].bank)
  {
    ForFirst(d.inputQ, i, x);
  }

  /** Notes about a command change nothing that holds another. */
  lemma HeldNoted(c: Config, q: seq<Command>, d: Driver, d1: Driver, counts: seq<nat>, x: nat, i: nat)
    requires Shape(c, d) && Shape(c, d1) && |counts| == c.Ranks() && i < |d.inputQ| && FirstHeld(c, q, d, counts, x)
    requires d1 == d || d1 == Noted(d, d.inputQ[i]) || d1 == d.(blockBank := d.blockBank[d.inputQ[i].bank := true])
    ensures FirstHeld(c, q, d1, counts, x)
  {}

  lemma NotedSeen(q: seq<Command>, d: Driver, d1: Driver, i: nat)
    requires i < |d.inputQ| && SeenWrites(q, d) && AmongQueue(q, d) && d.inputQ[i].bank < |d.blockBank|
    requires d1 == d || d1 == Noted(d, d.inputQ[i]) || d1 == d.(blockBank := d.blockBank[d.inputQ[i].bank := true])
    ensures SeenWrites(q, d1) && AmongQueue(q, d1)
  {
    forall a | a in d1.inflightWrites
      ensures SeenWrite(q, d1, a)
    {
      if a in d.inflightWrites {
        var w :| w in q && w.kind == WRITE && w.addr % UINT32 == a && w.bank < |d.blockBank| && d.blockBank[w.bank];
        assert d1.blockBank[w.bank];
      } else {
        assert d.inputQ[i] in q && d1.blockBank[d.inputQ[i].bank];
      }
    }
  }

  /** A first command that may not be tried is held. */
  lemma NotEligible(c: Config, q: seq<Command>, d: Driver, counts: seq<nat>, i: nat, x: nat)
    requires Shape(c, d) && LoopOk(c, q, d, counts, i, x) && i < |d.inputQ| && d.inputQ[i].bank == x && !Passed(d, i, x)
    requires For(d.inputQ, x) == For(q, x) && WfBank(c, x) && !Eligible(c, d, counts, d.inputQ[i])
    ensures Held(c, q, d, counts, d.inputQ[i])
  {
    var cmd := d.inputQ[i];
    hide Shape, WfBank, For;
    if cmd.addr % UINT32 in d.inflightWrites {
      var a := cmd.addr % UINT32;
      var w :| w in q && w.kind == WRITE && w.addr % UINT32 == a && w.bank < |d.blockBank| && d.blockBank[w.bank];
      assert Aliased(q, cmd);
    }
  }

  /** A command leaves the queue. */
  lemma LeaveKeeps(c: Config, q: seq<Command>, d: Driver, d2: Driver, counts: seq<nat>, i: nat, x: nat)
    requires Shape(c, d) && Shape(c, d2) && LoopOk(c, q, d, counts, i, x) && i < |d.inputQ|
    requires d2.inputQ == Erased(d.inputQ, i) && d2.refreshQ == d.refreshQ && d2.now == d.now && BusierThan(d, d2)
    requires d2.blockBank == d.blockBank[d.inputQ[i].bank := true]
    requires d2.inflightWrites == Noted(d, d.inputQ[i]).inflightWrites
    requires d.inputQ[i].bank == x && For(d.inputQ, x) == For(q, x) ==> !Passed(d, i, x)
    requires d.inputQ[i].bank != x ==> SlowerBank(d.banks[x], d2.banks[x])
    ensures LoopOk(c, q, d2, counts, i, x)
  {
    ForShrinks(d.inputQ, i, x);
    ErasedSeen(q, d, d2, i);
    ErasedPassed(d, d2, i, x);
    hide Shape, WfBank, Aliased, For, Erased, BusierThan, SlowerBank;
    if d.inputQ[i].bank != x && For(d.inputQ, x) == For(q, x) && Passed(d, i, x) {
      HeldStill(c, q, d, d2, counts, x);
    }
  }

  lemma HeldStill(c: Config, q: seq<Command>, d: Driver, d2: Driver, counts: seq<nat>, x: nat)
    requires Shape(c, d) && Shape(c, d2) && |counts| == c.Ranks() && FirstHeld(c, q, d, counts, x) && x < c.Banks()
    requires For(d2.inputQ, x) == For(d.inputQ, x) && d2.refreshQ == d.refreshQ && d2.now == d.now && BusierThan(d, d2)
    requires SlowerBank(d.banks[x], d2.banks[x])
    ensures FirstHeld(c, q, d2, counts, x)
  {
    hide For, Held, BusierThan, SlowerBank;
    StaysHeld(c, q, d, d2, counts, For(d.inputQ, x)[0]);
  }

  lemma ErasedPassed(d: Driver, d2: Driver, i: nat, x: nat)
    requires i < |d.inputQ| && d2.inputQ == Erased(d.inputQ, i)
    ensures i <= |d2.inputQ| && (Passed(d2, i, x) <==> Passed(d, i, x))
  {
    assert forall j :: 0 <= j < i ==> d2.inputQ[j] == d.inputQ[j];
  }

  lemma ErasedSeen(q: seq<Command>, d: Driver, d2: Driver, i: nat)
    requires i < |d.inputQ| && SeenWrites(q, d) && AmongQueue(q, d) && d.inputQ[i].bank < |d.blockBank|
    requires d2.inputQ == Erased(d.inputQ, i) && d2.blockBank == d.blockBank[d.inputQ[i].bank := true]
    requires d2.inflightWrites == Noted(d, d.inputQ[i]).inflightWrites
    ensures SeenWrites(q, d2) && AmongQueue(q, d2)
  {
    NotedSeen(q, d, Noted(d, d.inputQ[i]), i);
    assert forall j :: 0 <= j < |d2.inputQ| ==> d2.inputQ[j] == d.inputQ[if j < i then j else j + 1];
    forall a | a in d2.inflightWrites
      ensures SeenWrite(q, d2, a)
    {
      assert SeenWrite(q, Noted(d, d.inputQ[i]), a);
    }
  }

  lemma SentIs(c: Config, d: Driver, i: nat, x: nat)
    requires Shape(c, d) && i < |d.inputQ| && CanSend(d, d.inputQ[i]) && x < c.Banks()
    ensures var d' := SentAt(c, d, i);
      && d'.inputQ == Erased(d.inputQ, i) && d'.refreshQ == d.refreshQ && d'.now == d.now && d'.blockBank == d.blockBank
      && d'.inflightWrites == d.inflightWrites && BusierThan(d, d')
      && (d.inputQ[i].bank != x ==> SlowerBank(d.banks[x], d'.banks[x]))
  {
    if d.inputQ[i].bank != x { SpreadIsSlower(c, d.banks[x], x, d.inputQ[i], d.now); }
    hide Spread, Handle;
  }

  lemma SameBusier(d: Driver, d': Driver)
    requires d'.colBus == d.colBus && d'.rowBus == d.rowBus
    ensures BusierThan(d, d')
  {}

  /** No command of the queue is a REF: those go another way. */
  ghost predicate NoRefs(q: seq<Command>) { forall cmd :: cmd in q ==> cmd.kind != REF }

  /** A pass of the loop keeps it, and stops early only when every bus is taken. */
  lemma StepProgress(c: Config, q: seq<Command>, d: Driver, counts: seq<nat>, i: nat, x: nat)
    requires Shape(c, d) && |counts| == c.Ranks() && LoopOk(c, q, d, counts, i, x) && i < |d.inputQ| && NoRefs(q)
    ensures var r := SendStep(c, d, counts, i); LoopOk(c, q, r.d, counts, r.i, x) && (r.stop ==> AllBusy(r.d))
  {
    var cmd := d.inputQ[i];
    WfAt(c, q, d, counts, i, x);
    hide Shape, WfBank, Aliased, For, SentAt, BusierThan, SlowerBank, LoopOk, Eligible, IsRefreshing, CanSend,
      Noted, AllBusy, IsClosedPhase, Passed;
    if IsRefreshing(c, d, cmd.bank) {
      PassKeeps(c, q, d, d, counts, i, x);
    } else {
      NotedShape(c, d, i);
      var d1 := Noted(d, cmd);
      if Eligible(c, d, counts, cmd) && cmd.kind == PRE && IsClosedPhase(d1.banks[cmd.bank]) {
        DropLeaves(c, q, d, counts, i, x);
      } else if Eligible(c, d, counts, cmd) && CanSend(d1, cmd) {
        SendLeaves(c, q, d, counts, i, x);
      } else {
        StaysInQueue(c, q, d, counts, i, x);
      }
    }
  }

  lemma NotedShape(c: Config, d: Driver, i: nat)
    requires Shape(c, d) && i < |d.inputQ|
    ensures d.inputQ[i].bank < |d.blockBank| && Shape(c, Noted(d, d.inputQ[i]))
    ensures Noted(d, d.inputQ[i]).inputQ == d.inputQ && d.inputQ[i].bank < |d.banks|
    ensures Noted(d, d.inputQ[i]).banks == d.banks && Noted(d, d.inputQ[i]).blockBank[d.inputQ[i].bank]
  {
    assert WfBank(c, d.inputQ[i].bank);
  }

  lemma WfAt(c: Config, q: seq<Command>, d: Driver, counts: seq<nat>, i: nat, x: nat)
    requires Shape(c, d) && LoopOk(c, q, d, counts, i, x) && i < |d.inputQ| && NoRefs(q)
    ensures WfBank(c, d.inputQ[i].bank) && d.inputQ[i].kind != REF
    ensures d.inputQ[i].bank == x && IsRefreshing(c, d, x) ==> Held(c, q, d, counts, d.inputQ[i])
  {
    assert WfBank(c, d.inputQ[i].bank) && d.inputQ[i] in q;
  }

  /** Who may be tried is the first of its bank. */
  lemma EligibleFirst(c: Config, q: seq<Command>, d: Driver, counts: seq<nat>, i: nat, x: nat)
    requires Shape(c, d) && |counts| == c.Ranks() && LoopOk(c, q, d, counts, i, x) && i < |d.inputQ|
    requires WfBank(c, d.inputQ[i].bank)
    requires !IsRefreshing(c, d, d.inputQ[i].bank) && Eligible(c, d, counts, d.inputQ[i])
    ensures d.inputQ[i].bank == x && For(d.inputQ, x) == For(q, x) ==> !Passed(d, i, x)
  {
    hide Shape, Settled, SeenWrites, AmongQueue, Passed, For;
  }

  lemma DropLeaves(c: Config, q: seq<Command>, d: Driver, counts: seq<nat>, i: nat, x: nat)
    requires Shape(c, d) && |counts| == c.Ranks() && LoopOk(c, q, d, counts, i, x) && i < |d.inputQ|
    requires WfBank(c, d.inputQ[i].bank)
    requires !IsRefreshing(c, d, d.inputQ[i].bank) && Eligible(c, d, counts, d.inputQ[i])
    ensures d.inputQ[i].bank < |d.blockBank|
    ensures var d2 := Noted(d, d.inputQ[i]).(inputQ := Erased(d.inputQ, i));
      Shape(c, d2) && LoopOk(c, q, d2, counts, i, x)
  {
    EligibleFirst(c, q, d, counts, i, x);
    NotedShape(c, d, i);
    var d2 := Noted(d, d.inputQ[i]).(inputQ := Erased(d.inputQ, i));
    assert Shape(c, d2);
    hide LoopOk, Eligible, IsRefreshing, Passed, For, WfBank, Erased;
    XIsBank(c, q, d, counts, i, x);
    SameBusier(d, d2);
    hide Shape;
    LeaveKeeps(c, q, d, d2, counts, i, x);
  }

  lemma XIsBank(c: Config, q: seq<Command>, d: Driver, counts: seq<nat>, i: nat, x: nat)
    requires Shape(c, d) && LoopOk(c, q, d, counts, i, x)
    ensures x < c.Banks() == |d.banks|
  {}

  lemma SendLeaves(c: Config, q: seq<Command>, d: Driver, counts: seq<nat>, i: nat, x: nat)
    requires Shape(c, d) && |counts| == c.Ranks() && LoopOk(c, q, d, counts, i, x) && i < |d.inputQ|
    requires WfBank(c, d.inputQ[i].bank) && d.inputQ[i].bank < |d.blockBank| && Shape(c, Noted(d, d.inputQ[i]))
    requires !IsRefreshing(c, d, d.inputQ[i].bank) && Eligible(c, d, counts, d.inputQ[i])
    requires CanSend(Noted(d, d.inputQ[i]), d.inputQ[i])
    ensures var d2 := SentAt(c, Noted(d, d.inputQ[i]), i); LoopOk(c, q, d2, counts, i, x)
  {
    var d1 := Noted(d, d.inputQ[i]);
    EligibleFirst(c, q, d, counts, i, x);
    hide LoopOk, Eligible, IsRefreshing, Passed, For, WfBank, Erased, Shape, SentAt, CanSend;
    XIsBank(c, q, d, counts, i, x);
    SentIs(c, d1, i, x);
    LeaveKeeps(c, q, d, SentAt(c, d1, i), counts, i, x);
  }

  lemma StaysInQueue(c: Config, q: seq<Command>, d: Driver, counts: seq<nat>, i: nat, x: nat)
    requires Shape(c, d) && |counts| == c.Ranks() && LoopOk(c, q, d, counts, i, x) && i < |d.inputQ|
    requires WfBank(c, d.inputQ[i].bank) && d.inputQ[i].bank < |d.blockBank| && Shape(c, Noted(d, d.inputQ[i]))
    requires var cmd := d.inputQ[i]; var d1 := Noted(d, cmd);
      Eligible(c, d, counts, cmd) ==> !CanSend(d1, cmd) && !(cmd.kind == PRE && IsClosedPhase(d1.banks[cmd.bank]))
    ensures LoopOk(c, q, Noted(d, d.inputQ[i]), counts, i + 1, x)
  {
    var cmd := d.inputQ[i];
    if cmd.bank == x && !Passed(d, i, x) && For(d.inputQ, x) == For(q, x) {
      if Eligible(c, d, counts, cmd) {
        assert NotTaken(d, cmd);
      } else {
        NotEligible(c, q, d, counts, i, x);
      }
    }
    hide Shape, LoopOk, Eligible, CanSend, IsClosedPhase, For, Passed, WfBank, IsRefreshing;
    PassKeeps(c, q, d, Noted(d, cmd), counts, i, x);
  }

  /** At the end of the loop: a command of the bank has left, or its oldest is held. */
  ghost predicate Done(c: Config, q: seq<Command>, d: Driver, counts: seq<nat>, x: nat)
    requires Shape(c, d) && |counts| == c.Ranks()
  {
    var mine, before := For(d.inputQ, x), For(q, x);
    |mine| < |before| || mine == [] || (mine == before && FirstHeld(c, q, d, counts, x))
  }

  lemma LoopEnds(c: Config, q: seq<Command>, d: Driver, counts: seq<nat>, i: nat, x: nat)
    requires Shape(c, d) && |counts| == c.Ranks() && LoopOk(c, q, d, counts, i, x) && (i == |d.inputQ| || AllBusy(d))
    ensures Done(c, q, d, counts, x)
  {
    if For(d.inputQ, x) != [] && For(d.inputQ, x) == For(q, x) && !Passed(d, i, x) {
      if i == |d.inputQ| { ForNone(d.inputQ, x); }
      ForHead(c, d, x);
    }
  }

  lemma ForHead(c: Config, d: Driver, x: nat)
    requires Shape(c, d) && For(d.inputQ, x) != []
    ensures For(d.inputQ, x)[0].bank == x && WfBank(c, x)
  {
    ForMember(d.inputQ, x);
  }

  lemma {:induction false} ForMember(q: seq<Command>, x: nat)
    requires For(q, x) != []
    ensures For(q, x)[0] in q && For(q, x)[0].bank == x
    decreases |q|
  {
    if q[0].bank != x { ForMember(q[1..], x); }
  }

  lemma {:induction false} LoopProgress(c: Config, q: seq<Command>, d: Driver, counts: seq<nat>, i: nat, x: nat)
    requires Shape(c, d) && |counts| == c.Ranks() && LoopOk(c, q, d, counts, i, x) && i <= |d.inputQ| && NoRefs(q)
    ensures Done(c, q, SendLoop(c, d, counts, i), counts, x)
    decreases |d.inputQ| - i
  {
    hide Shape, LoopOk, SendStep, NoRefs, AllBusy, Done;
    if i == |d.inputQ| {
      LoopEnds(c, q, d, counts, i, x);
    } else {
      StepProgress(c, q, d, counts, i, x);
      var r := SendStep(c, d, counts, i);
      if r.stop { LoopEnds(c, q, r.d, counts, r.i, x); } else { LoopProgress(c, q, r.d, counts, r.i, x); }
    }
  }

  /** The request loop leaves nothing undone: of each bank with waiting commands it has taken the
      oldest, or that command is held. */
  lemma RequestsProgress(c: Config, d: Driver, x: nat)
    requires Shape(c, d) && d.blockBank == NoFlags(|d.blockBank|) && d.inflightWrites == {} && x < c.Banks()
    requires NoRefs(d.inputQ)
    ensures |ActCounts(d.faw)| == c.Ranks() && Done(c, d.inputQ, SendRequests(c, d), ActCounts(d.faw), x)
  {
    hide SendLoop, NoRefs;
    assert LoopOk(c, d.inputQ, d, ActCounts(d.faw), 0, x);
    LoopProgress(c, d.inputQ, d, ActCounts(d.faw), 0, x);
  }

  // ---------------------------------------------------------------- refresh groups

  /** The first group of the rank's refresh waits because one of its banks does not take it, or the
      bus is taken. */
  ghost predicate GroupHeld(c: Config, d: Driver, r: nat)
    requires Shape(c, d) && r < c.Ranks() && d.refreshQ[r] != []
  {
    var g := d.refreshQ[r][0];
    WfGroup(c, r, g) && (!AllAccept(d, g) || !BusFree(d, g.kind, c.ChannelOf(g.banks[0])))
  }

  /** What happens to other ranks leaves the rank's banks and its queue as they are, or slower. */
  ghost predicate Behind(c: Config, d: Driver, d': Driver, r: nat)
    requires Shape(c, d) && Shape(c, d') && r < c.Ranks()
  {
    && d'.now == d.now && d'.refreshQ[r] == d.refreshQ[r] && BusierThan(d, d')
    && forall x :: 0 <= x < c.Banks() && c.RankOf(x) == r ==> SlowerBank(d.banks[x], d'.banks[x])
  }

  lemma BehindTwice(c: Config, d: Driver, d1: Driver, d2: Driver, r: nat)
    requires Shape(c, d) && Shape(c, d1) && Shape(c, d2) && r < c.Ranks() && Behind(c, d, d1, r) && Behind(c, d1, d2, r)
    ensures Behind(c, d, d2, r)
  {
    BusesOf(c, d);
    BusesOf(c, d1);
    forall x | 0 <= x < c.Banks() && c.RankOf(x) == r
      ensures SlowerBank(d.banks[x], d2.banks[x])
    {
      assert SlowerBank(d.banks[x], d1.banks[x]) && SlowerBank(d1.banks[x], d2.banks[x]);
    }
  }

  lemma BusesOf(c: Config, d: Driver)
    requires Shape(c, d)
    ensures c.Valid() && |d.colBus| == |d.rowBus| == c.channels && |d.banks| == c.Banks() && |d.refreshQ| == c.Ranks()
  {}

  lemma BehindItself(c: Config, d: Driver, d': Driver, r: nat)
    requires Shape(c, d) && Shape(c, d') && r < c.Ranks() && d'.now == d.now && d'.refreshQ[r] == d.refreshQ[r]
    requires d'.banks == d.banks && d'.colBus == d.colBus && d'.rowBus == d.rowBus
    ensures Behind(c, d, d', r)
  {}

  lemma StaysGroupHeld(c: Config, d: Driver, d': Driver, r: nat)
    requires Shape(c, d) && Shape(c, d') && r < c.Ranks() && d.refreshQ[r] != []
    requires GroupHeld(c, d, r) && Behind(c, d, d', r)
    ensures d'.refreshQ[r] != [] && GroupHeld(c, d', r)
  {
    var g := d.refreshQ[r][0];
    BusesOf(c, d);
    BusesOf(c, d');
    assert WfGroup(c, r, g);
    hide Shape;
    if !AllAccept(d, g) {
      var i :| 0 <= i < |g.banks| && !Accepts(d.banks[g.banks[i]], g.kind, d.now);
      assert SlowerBank(d.banks[g.banks[i]], d'.banks[g.banks[i]]);
      assert !Accepts(d'.banks[g.banks[i]], g.kind, d'.now);
    } else {
      GroupChannel(c, r, g);
    }
  }

  lemma GroupChannel(c: Config, r: nat, g: GroupCommand)
    requires c.Valid() && r < c.Ranks() && WfGroup(c, r, g)
    ensures c.ChannelOf(g.banks[0]) < c.channels
  {}

  /** Refresh commands of another rank. */
  lemma {:induction false} IssueAllBehind(c: Config, d: Driver, kind: Kind, ids: seq<nat>, r: nat)
    requires Shape(c, d) && (kind == PRE || kind == REF) && r < c.Ranks()
    requires forall i :: 0 <= i < |ids| ==> ids[i] < c.Banks() && c.RankOf(ids[i]) != r
    ensures Behind(c, d, IssueAll(c, d, kind, ids), r)
    decreases |ids|
  {
    BusesOf(c, d);
    if ids == [] {
      BehindItself(c, d, d, r);
    } else {
      var cmd := GroupMember(kind, ids[0]);
      var d1 := if CanSend(d, cmd) then Issue(c, d, cmd) else d;
      if CanSend(d, cmd) { RefreshIssued(c, d, kind, ids[0]); }
      hide Shape, Issue, Accepts;
      BusesOf(c, d1);
      SameButOne(c, d, d1, r, ids[0]);
      IssueAllBehind(c, d1, kind, ids[1..], r);
      BehindTwice(c, d, d1, IssueAll(c, d1, kind, ids[1..]), r);
    }
  }

  lemma SameButOne(c: Config, d: Driver, d1: Driver, r: nat, bank: nat)
    requires Shape(c, d) && Shape(c, d1) && r < c.Ranks() && c.RankOf(bank) != r && d1.now == d.now
    requires d1.refreshQ == d.refreshQ && d1.colBus == d.colBus && d1.rowBus == d.rowBus
    requires forall b :: 0 <= b < |d.banks| && b != bank ==> d1.banks[b] == d.banks[b]
    ensures Behind(c, d, d1, r)
  {}

  lemma SendBehind(c: Config, d: Driver, rank: nat, r: nat)
    requires Shape(c, d) && rank < c.Ranks() && r < c.Ranks() && rank != r && d.refreshQ[rank] != []
    ensures Behind(c, d, SendRefresh(c, d, rank), r)
  {
    var g := d.refreshQ[rank][0];
    assert WfGroup(c, rank, g);
    BehindItself(c, d, d, r);
    if AllAccept(d, g) && BusFree(d, g.kind, c.ChannelOf(g.banks[0])) {
      IssueAllBehind(c, d, g.kind, g.banks, r);
      GroupChannel(c, rank, g);
      SentBehind(c, d, rank, g, r);
    }
  }

  lemma SentBehind(c: Config, d: Driver, rank: nat, g: GroupCommand, r: nat)
    requires Shape(c, d) && rank < c.Ranks() && r < c.Ranks() && rank != r && d.refreshQ[rank] != []
    requires g == d.refreshQ[rank][0]
    requires WfGroup(c, rank, g) && Behind(c, d, IssueAll(c, d, g.kind, g.banks), r)
    requires c.ChannelOf(g.banks[0]) < c.channels
    requires AllAccept(d, g) && BusFree(d, g.kind, c.ChannelOf(g.banks[0]))
    ensures Behind(c, d, SendRefresh(c, d, rank), r)
  {
    hide IssueAll, AllAccept, SlowerBank, Shape, WfGroup, BusFree;
    BusesOf(c, d);
    GroupBanks(c, rank, g);
    BusesOf(c, IssueAll(c, d, g.kind, g.banks));
    BusesOf(c, SendRefresh(c, d, rank));
  }

  lemma GroupBanks(c: Config, rank: nat, g: GroupCommand)
    requires c.Valid() && WfGroup(c, rank, g)
    ensures forall i :: 0 <= i < |g.banks| ==> g.banks[i] < c.Banks()
  {}

  lemma RankBehind(c: Config, d: Driver, rank: nat, r: nat)
    requires Shape(c, d) && rank < c.Ranks() && r < c.Ranks() && rank != r
    ensures Behind(c, d, RefreshRank(c, d, rank), r)
  {
    var d1 := Counted(c, d, rank);
    CountedBehind(c, d, rank, r);
    hide Shape, Counted, SendRefresh, Behind;
    RanksOf(c, d1);
    if d1.refreshQ[rank] != [] {
      SendBehind(c, d1, rank, r);
      BehindTwice(c, d, d1, SendRefresh(c, d1, rank), r);
    }
  }

  lemma CountedBehind(c: Config, d: Driver, rank: nat, r: nat)
    requires Shape(c, d) && rank < c.Ranks() && r < c.Ranks() && rank != r
    ensures Behind(c, d, Counted(c, d, rank), r)
  {
    hide WithReopens, RefreshCommands, Requesters;
    BehindItself(c, d, Counted(c, d, rank), r);
  }

  lemma {:induction false} LaterRanksBehind(c: Config, d: Driver, rank: nat, r: nat)
    requires Shape(c, d) && r < rank <= c.Ranks()
    ensures Behind(c, d, RefreshFrom(c, d, rank), r)
    decreases c.Ranks() - rank
  {
    hide Shape, RefreshRank, Behind;
    if rank < c.Ranks() {
      RankBehind(c, d, rank, r);
      LaterRanksBehind(c, RefreshRank(c, d, rank), rank + 1, r);
      BehindTwice(c, d, RefreshRank(c, d, rank), RefreshFrom(c, RefreshRank(c, d, rank), rank + 1), r);
    } else {
      Unchanged(c, d, r);
    }
  }

  lemma Unchanged(c: Config, d: Driver, r: nat)
    requires Shape(c, d) && r < c.Ranks()
    ensures Behind(c, d, d, r)
  {}

  /** The rank's due queue afterwards: shorter by its first group, or held. */
  ghost predicate GroupDone(c: Config, d: Driver, r: nat, due: seq<GroupCommand>)
    requires Shape(c, d) && r < c.Ranks()
  {
    || (due != [] && d.refreshQ[r] == due[1..])
    || (d.refreshQ[r] == due && (due != [] ==> GroupHeld(c, d, r)))
  }

  lemma SendProgress(c: Config, d: Driver, r: nat)
    requires Shape(c, d) && r < c.Ranks() && d.refreshQ[r] != []
    ensures GroupDone(c, SendRefresh(c, d, r), r, d.refreshQ[r])
  {
    assert WfGroup(c, r, d.refreshQ[r][0]);
    hide IssueAll, AllAccept;
  }

  lemma RankProgress(c: Config, d: Driver, r: nat)
    requires Shape(c, d) && r < c.Ranks()
    ensures |Counted(c, d, r).refreshQ| == c.Ranks()
    ensures GroupDone(c, RefreshRank(c, d, r), r, Counted(c, d, r).refreshQ[r])
  {
    hide Shape, Counted, SendRefresh;
    RanksOf(c, Counted(c, d, r));
    if Counted(c, d, r).refreshQ[r] != [] { SendProgress(c, Counted(c, d, r), r); }
  }

  lemma DoneBehind(c: Config, d: Driver, d': Driver, r: nat, due: seq<GroupCommand>)
    requires Shape(c, d) && Shape(c, d') && r < c.Ranks() && GroupDone(c, d, r, due) && Behind(c, d, d', r)
    ensures GroupDone(c, d', r, due)
  {
    RanksOf(c, d);
    RanksOf(c, d');
    if d.refreshQ[r] == due && due != [] && GroupHeld(c, d, r) { StaysGroupHeld(c, d, d', r); }
    hide Shape, GroupHeld, BusierThan, SlowerBank;
  }

  /** The rank's turn, among those of all ranks. */
  lemma {:induction false} RanksProgress(c: Config, d: Driver, rank: nat, r: nat) returns (due: seq<GroupCommand>)
    requires Shape(c, d) && rank <= r < c.Ranks()
    ensures IsDue(c, d, r, due) && GroupDone(c, RefreshFrom(c, d, rank), r, due)
    decreases c.Ranks() - rank
  {
    hide Shape, RefreshRank, Behind, GroupDone, IsDue, Counted;
    var d1 := RefreshRank(c, d, rank);
    if rank == r {
      CountedIs(c, d, r);
      RankProgress(c, d, r);
      due := Counted(c, d, r).refreshQ[r];
      LaterRanksBehind(c, d1, rank + 1, r);
      DoneBehind(c, d1, RefreshFrom(c, d1, rank + 1), r, due);
    } else {
      due := RanksProgress(c, d1, rank + 1, r);
      var events, other := RankTurn(c, d, rank);
      RanksOf(c, d);
      DueSame(c, d, d1, r, due);
    }
  }

  // ---------------------------------------------------------------- the whole run of the driver

  lemma SentBehindRequest(c: Config, d: Driver, i: nat, r: nat)
    requires Shape(c, d) && i < |d.inputQ| && CanSend(d, d.inputQ[i]) && r < c.Ranks()
    requires c.RankOf(d.inputQ[i].bank) != r
    ensures Behind(c, d, SentAt(c, d, i), r)
  {
    BusesOf(c, d);
    forall x | 0 <= x < c.Banks() && c.RankOf(x) == r
      ensures SlowerBank(d.banks[x], SentAt(c, d, i).banks[x])
    {
      SentIs(c, d, i, x);
    }
    SentIs(c, d, i, d.inputQ[i].bank);
    hide SentAt, Accepts, Shape, SlowerBank;
  }

  lemma StepBehind(c: Config, d: Driver, counts: seq<nat>, i: nat, r: nat)
    requires Shape(c, d) && |counts| == c.Ranks() && i < |d.inputQ| && r < c.Ranks()
    requires c.useRefresh && d.refreshQ[r] != []
    ensures Behind(c, d, SendStep(c, d, counts, i).d, r)
  {
    var cmd := d.inputQ[i];
    assert WfBank(c, cmd.bank);
    Unchanged(c, d, r);
    if !IsRefreshing(c, d, cmd.bank) {
      var d1 := if cmd.kind == REF then d.(blockBank := d.blockBank[cmd.bank := true]) else Noted(d, cmd);
      BehindItself(c, d, d1, r);
      if cmd.kind != REF && Eligible(c, d, counts, cmd) {
        if cmd.kind == PRE && IsClosedPhase(d1.banks[cmd.bank]) {
          BehindItself(c, d, d1.(inputQ := Erased(d1.inputQ, i)), r);
        } else if CanSend(d1, cmd) {
          SentBehindRequest(c, d1, i, r);
          hide SentAt, Shape, Behind, Eligible;
          BehindTwice(c, d, d1, SentAt(c, d1, i), r);
        }
      }
    }
  }

  lemma {:induction false} LoopBehind(c: Config, d: Driver, counts: seq<nat>, i: nat, r: nat)
    requires Shape(c, d) && |counts| == c.Ranks() && i <= |d.inputQ| && r < c.Ranks()
    requires c.useRefresh && d.refreshQ[r] != []
    ensures Behind(c, d, SendLoop(c, d, counts, i), r)
    decreases |d.inputQ| - i
  {
    hide Shape, SendStep, Behind;
    Unchanged(c, d, r);
    if i < |d.inputQ| {
      StepBehind(c, d, counts, i, r);
      SendStepTrace(c, d, counts, i);
      var next := SendStep(c, d, counts, i);
      if !next.stop {
        LoopBehind(c, next.d, counts, next.i, r);
        BehindTwice(c, d, next.d, SendLoop(c, next.d, counts, next.i), r);
      }
    }
  }

  /** After a run of the driver, the rank's due queue has lost its first group, or that group is
      held. */
  lemma RunProgress(c: Config, d: Driver, r: nat) returns (due: seq<GroupCommand>)
    requires Shape(c, d) && r < c.Ranks() && c.useRefresh
    ensures IsDue(c, d, r, due) && GroupDone(c, Run(c, d), r, due)
  {
    var d1 := ReleaseBuses(d);
    hide RefreshFrom, SendLoop, GroupDone, Behind;
    due := RanksProgress(c, d1, 0, r);
    DueSame(c, d, d1, r, due);
    var d2 := RefreshFrom(c, d1, 0);
    if d2.refreshQ[r] != [] {
      LoopBehind(c, d2, ActCounts(d2.faw), 0, r);
      DoneBehind(c, d2, Run(c, d), r, due);
    } else {
      SendLoopQueues(c, d2, ActCounts(d2.faw), 0);
      NoneHeld(c, d2, Run(c, d), r, due);
    }
  }

  lemma NoneHeld(c: Config, d: Driver, d': Driver, r: nat, due: seq<GroupCommand>)
    requires Shape(c, d) && Shape(c, d') && r < c.Ranks() && GroupDone(c, d, r, due) && d.refreshQ[r] == []
    requires d'.refreshQ == d.refreshQ
    ensures GroupDone(c, d', r, due)
  {}
}
