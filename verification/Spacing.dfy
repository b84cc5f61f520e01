/** Command spacing: any two commands of a run are at least as far apart as the distance
    tables demand, because every issued command has either raised the earliest-issue cycles of
    the banks it constrains or still keeps its own bank from taking anything. */
module Spacing {
  import opened Dram
  import opened BankModel
  import opened DriverModel

  /** The bank's earliest-issue cycles respect the event, which went to this bank. */
  ghost predicate Established(p: Params, b: Bank, e: Event) {
    forall k: Kind {:trigger BankGap(p, e.cmd.kind, k)} :: 0 < BankGap(p, e.cmd.kind, k) ==>
      e.cycle + BankGap(p, e.cmd.kind, k) <= b.next.At(k)
  }

  /** The event is still working its way through the bank's states; until it is done the bank
      takes no command at all. */
  ghost predicate InFlight(p: Params, b: Bank, e: Event, now: nat) {
    if Got(b).Some? then e.cmd.kind == Got(b).value.kind && e.cycle == b.last.At(e.cmd.kind)
    else match b.phase
    case Activating(_, _) => e.cmd.kind == ACT && e.cycle == b.last.act
    case Precharging(t) => e.cmd.kind == PRE && e.cycle + p.nRP <= now + t + 1
    case Refreshing(t) =>
      e.cmd.kind == REF && e.cycle + p.nRFC <= now + t + 1 && e.cycle + p.nREFI <= b.next.ref
    case _ => false
  }

  /** The bank's earliest-issue cycles respect the event, which went to another bank. */
  ghost predicate Crossed(c: Config, b: Bank, i: nat, e: Event)
    requires c.Valid()
  {
    forall k: Kind {:trigger CrossGap(c.p, Near(c, e.cmd.bank, i), e.cmd.kind, k)} ::
      var gap := CrossGap(c.p, Near(c, e.cmd.bank, i), e.cmd.kind, k);
      gap.Some? ==> e.cycle + gap.value <= b.next.At(k)
  }

  /** What bank `i` owes to an event of the past. */
  ghost predicate Owed(c: Config, b: Bank, i: nat, e: Event, now: nat)
    requires c.Valid()
  {
    if e.cmd.bank == i then Established(c.p, b, e) || InFlight(c.p, b, e, now)
    else Crossed(c, b, i, e)
  }

  /** All commands of the trace keep their required distances. */
  ghost predicate PairwiseSafe(c: Config, trace: seq<Event>)
    requires c.Valid()
  {
    forall m, n {:trigger RequiredGap(c, trace[m].cmd, trace[n].cmd)} :: 0 <= m < n < |trace| ==>
      trace[m].cycle + RequiredGap(c, trace[m].cmd, trace[n].cmd) <= trace[n].cycle
  }

  ghost predicate BanksInv(banks: seq<Bank>, now: nat) {
    forall i :: 0 <= i < |banks| ==> BankInv(banks[i], now)
  }

  ghost predicate PastEvents(trace: seq<Event>, now: nat) {
    forall n :: 0 <= n < |trace| ==> trace[n].cycle <= now
  }

  ghost predicate AllOwed(c: Config, banks: seq<Bank>, trace: seq<Event>, now: nat)
    requires c.Valid()
  {
    forall n, i {:trigger Owed(c, banks[i], i, trace[n], now)} ::
      0 <= n < |trace| && 0 <= i < |banks| ==> Owed(c, banks[i], i, trace[n], now)
  }

  ghost predicate SpacingInv(c: Config, banks: seq<Bank>, trace: seq<Event>, now: nat)
    requires c.Valid()
  {
    && BanksInv(banks, now) && PastEvents(trace, now)
    && AllOwed(c, banks, trace, now) && PairwiseSafe(c, trace)
  }

  // ---------------------------------------------------------------- one bank

  lemma RaisedStillEstablished(p: Params, b: Bank, b': Bank, e: Event)
    requires Established(p, b, e) && b.next.AtMost(b'.next)
    ensures Established(p, b', e)
  {
    forall k: Kind
      ensures 0 < BankGap(p, e.cmd.kind, k) ==> e.cycle + BankGap(p, e.cmd.kind, k) <= b'.next.At(k)
    {
      assert 0 < BankGap(p, e.cmd.kind, k) ==> e.cycle + BankGap(p, e.cmd.kind, k) <= b.next.At(k);
    }
  }

  lemma RaisedStillCrossed(c: Config, b: Bank, b': Bank, i: nat, e: Event)
    requires c.Valid() && Crossed(c, b, i, e) && b.next.AtMost(b'.next)
    ensures Crossed(c, b', i, e)
  {
    forall k: Kind
      ensures var gap := CrossGap(c.p, Near(c, e.cmd.bank, i), e.cmd.kind, k);
              gap.Some? ==> e.cycle + gap.value <= b'.next.At(k)
    {
      var gap := CrossGap(c.p, Near(c, e.cmd.bank, i), e.cmd.kind, k);
      assert gap.Some? ==> e.cycle + gap.value <= b.next.At(k);
    }
  }

  /** Entering the state an event asks for settles the event or keeps it in flight. */
  lemma EnterForSettles(p: Params, b: Bank, e: Event, cmd: Command, now: nat)
    requires p.Valid() && e.cmd.kind == cmd.kind && e.cycle == b.last.At(cmd.kind) && e.cycle < now
    ensures InFlight(p, EnterFor(p, b, cmd, now), e, now) || Established(p, EnterFor(p, b, cmd, now), e)
  {
    if IsColumn(cmd.kind) {
      assert Established(p, EnterFor(p, b, cmd, now), e);
    } else {
      assert InFlight(p, EnterFor(p, b, cmd, now), e, now);
    }
  }

  lemma EnterActiveSettles(p: Params, b: Bank, e: Event, cmd: Command, now: nat)
    requires p.Valid() && e.cmd.kind == ACT && e.cycle == b.last.act && e.cycle + 2 <= now
    ensures Established(p, EnterActive(p, b, cmd, now), e)
  {}

  lemma EnterIdleSettles(p: Params, b: Bank, e: Event, now: nat)
    requires (e.cmd.kind == PRE && e.cycle + p.nRP <= now)
          || (e.cmd.kind == REF && e.cycle + p.nRFC <= now && e.cycle + p.nREFI <= b.next.ref)
    ensures Established(p, EnterIdle(b, now), e)
  {}

  lemma TickInFlightGot(p: Params, b: Bank, b': Bank, e: Event, now: nat)
    requires p.Valid() && Got(b).Some? && InFlight(p, b, e, now) && e.cycle <= now
    requires b' == EnterFor(p, b, Got(b).value, now + 1) || (Got(b') == Got(b) && b'.last == b.last)
    ensures InFlight(p, b', e, now + 1) || Established(p, b', e)
  {
    EnterForSettles(p, b, e, Got(b).value, now + 1);
  }

  lemma TickInFlightPassing(p: Params, b: Bank, e: Event, now: nat)
    requires p.Valid() && BankInv(b, now) && Got(b).None? && InFlight(p, b, e, now)
    ensures var b' := Tick(p, b, now + 1); InFlight(p, b', e, now + 1) || Established(p, b', e)
  {
    if b.phase.Activating? {
      EnterActiveSettles(p, b, e, b.phase.cmd, now + 1);
    } else if b.phase.timer == 0 {
      EnterIdleSettles(p, b, e, now + 1);
    }
  }

  /** An event in flight either stays in flight over a tick or leaves its distances behind. */
  lemma TickInFlight(p: Params, b: Bank, e: Event, now: nat)
    requires p.Valid() && BankInv(b, now) && InFlight(p, b, e, now) && e.cycle <= now
    ensures var b' := Tick(p, b, now + 1); InFlight(p, b', e, now + 1) || Established(p, b', e)
  {
    if Got(b).Some? {
      TickGot(p, b, now);
      TickInFlightGot(p, b, Tick(p, b, now + 1), e, now);
    } else {
      TickInFlightPassing(p, b, e, now);
    }
  }

  lemma InFlightBlocks(p: Params, b: Bank, e: Event, now: nat, k: Kind)
    requires BankInv(b, now) && InFlight(p, b, e, now)
    ensures !Allows(b, k)
  {}

  lemma TickOwed(c: Config, b: Bank, i: nat, e: Event, now: nat)
    requires c.Valid() && BankInv(b, now) && Owed(c, b, i, e, now) && e.cycle <= now
    ensures Owed(c, Tick(c.p, b, now + 1), i, e, now + 1)
  {
    var b' := Tick(c.p, b, now + 1);
    TickRaises(c.p, b, now);
    if e.cmd.bank != i {
      RaisedStillCrossed(c, b, b', i, e);
    } else if Established(c.p, b, e) {
      RaisedStillEstablished(c.p, b, b', e);
    } else {
      TickInFlight(c.p, b, e, now);
    }
  }

  lemma SpreadKeeps(c: Config, b: Bank, i: nat, cmd: Command, now: nat)
    requires c.Valid() && BankInv(b, now)
    ensures b.next.AtMost(Spread(c, b, i, cmd, now).next)
    ensures BankInv(Spread(c, b, i, cmd, now), now)
    ensures cmd.bank != i ==> Crossed(c, Spread(c, b, i, cmd, now), i, Event(now, cmd))
  {
    assert CrossGap(c.p, Near(c, cmd.bank, i), cmd.kind, REF).None?;
  }

  lemma SpreadOwed(c: Config, b: Bank, i: nat, e: Event, cmd: Command, now: nat)
    requires c.Valid() && BankInv(b, now) && Owed(c, b, i, e, now)
    ensures Owed(c, Spread(c, b, i, cmd, now), i, e, now)
  {
    var b' := Spread(c, b, i, cmd, now);
    SpreadKeeps(c, b, i, cmd, now);
    if e.cmd.bank != i {
      RaisedStillCrossed(c, b, b', i, e);
    } else if Established(c.p, b, e) {
      RaisedStillEstablished(c.p, b, b', e);
    }
  }

  /** A command a bank accepts is far enough from every event of the past. */
  lemma AcceptedIsSpaced(c: Config, b: Bank, i: nat, e: Event, cmd: Command, now: nat)
    requires c.Valid() && BankInv(b, now) && Owed(c, b, i, e, now) && e.cycle <= now
    requires cmd.bank == i && Accepts(b, cmd.kind, now)
    ensures e.cycle + RequiredGap(c, e.cmd, cmd) <= now
  {
    if e.cmd.bank == i {
      if !Established(c.p, b, e) { InFlightBlocks(c.p, b, e, now, cmd.kind); }
      assert 0 < BankGap(c.p, e.cmd.kind, cmd.kind) ==>
          e.cycle + BankGap(c.p, e.cmd.kind, cmd.kind) <= b.next.At(cmd.kind);
    } else {
      var gap := CrossGap(c.p, Near(c, e.cmd.bank, i), e.cmd.kind, cmd.kind);
      assert gap.Some? ==> e.cycle + gap.value <= b.next.At(cmd.kind);
    }
  }

  lemma HandleOwed(c: Config, b: Bank, i: nat, e: Event, cmd: Command, now: nat)
    requires c.Valid() && BankInv(b, now) && cmd.bank == i && Accepts(b, cmd.kind, now)
    requires Owed(c, b, i, e, now) || e == Event(now, cmd)
    ensures Owed(c, Handle(b, cmd, now), i, e, now)
  {
    var b' := Handle(b, cmd, now);
    HandleKeeps(b, cmd, now);
    if e == Event(now, cmd) {
      assert InFlight(c.p, b', e, now);
    } else if e.cmd.bank != i {
      RaisedStillCrossed(c, b, b', i, e);
    } else {
      if !Established(c.p, b, e) { InFlightBlocks(c.p, b, e, now, cmd.kind); }
      RaisedStillEstablished(c.p, b, b', e);
    }
  }

  // ---------------------------------------------------------------- all banks

  lemma TickSpacing(c: Config, banks: seq<Bank>, trace: seq<Event>, now: nat)
    requires c.Valid() && SpacingInv(c, banks, trace, now)
    ensures SpacingInv(c, Ticked(c.p, banks, now + 1), trace, now + 1)
  {
    var banks' := Ticked(c.p, banks, now + 1);
    forall i | 0 <= i < |banks|
      ensures BankInv(banks'[i], now + 1)
    {
      TickKeeps(c.p, banks[i], now);
    }
    forall n, i | 0 <= n < |trace| && 0 <= i < |banks|
      ensures Owed(c, banks'[i], i, trace[n], now + 1)
    {
      assert Owed(c, banks[i], i, trace[n], now);
      TickOwed(c, banks[i], i, trace[n], now);
    }
  }

  lemma IssueSpacing(c: Config, banks: seq<Bank>, trace: seq<Event>, now: nat, cmd: Command)
    requires c.Valid() && SpacingInv(c, banks, trace, now)
    requires cmd.bank < |banks| && Accepts(banks[cmd.bank], cmd.kind, now)
    ensures SpacingInv(c, BanksAfter(c, banks, cmd, now), trace + [Event(now, cmd)], now)
  {
    var banks' := BanksAfter(c, banks, cmd, now);
    var trace' := trace + [Event(now, cmd)];
    forall i | 0 <= i < |banks|
      ensures BankInv(banks'[i], now)
    {
      if i == cmd.bank { HandleKeeps(banks[i], cmd, now); } else { SpreadKeeps(c, banks[i], i, cmd, now); }
    }
    forall n, i | 0 <= n < |trace'| && 0 <= i < |banks|
      ensures Owed(c, banks'[i], i, trace'[n], now)
    {
      assert n < |trace| ==> Owed(c, banks[i], i, trace[n], now);
      if i == cmd.bank {
        HandleOwed(c, banks[i], i, trace'[n], cmd, now);
      } else if n < |trace| {
        SpreadOwed(c, banks[i], i, trace[n], cmd, now);
      } else {
        SpreadKeeps(c, banks[i], i, cmd, now);
      }
    }
    forall m, n | 0 <= m < n < |trace'|
      ensures trace'[m].cycle + RequiredGap(c, trace'[m].cmd, trace'[n].cmd) <= trace'[n].cycle
    {
      if n == |trace| {
        assert Owed(c, banks[cmd.bank], cmd.bank, trace[m], now);
        AcceptedIsSpaced(c, banks[cmd.bank], cmd.bank, trace[m], cmd, now);
      }
    }
  }

  lemma InitialSpacing(c: Config)
    requires c.Valid()
    ensures SpacingInv(c, Initial(c).banks, [], 0)
  {}
}
