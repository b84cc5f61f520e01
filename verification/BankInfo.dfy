/** The bank object of c_BankInfo and its state objects, updated in place. Every method is
    proved against the bank as a value. */
module BankInfos {
  import opened Options
  import opened Dram
  import opened BankModel
  import opened DriverModel

  /** A bank whose earliest-issue cycles were raised by a command to a bank `near` by. */
  ghost function Raised(p: Params, b: Bank, near: Nearness, kind: Kind, now: nat): Bank
    requires p.Valid()
  {
    b.(next := Cycles(
      Bumped(p, b.next, near, kind, ACT, now), Bumped(p, b.next, near, kind, READ, now),
      Bumped(p, b.next, near, kind, WRITE, now), Bumped(p, b.next, near, kind, PRE, now),
      Bumped(p, b.next, near, kind, REF, now)))
  }

  class BankInfo {
    var phase: Phase
    var next: Cycles
    var last: Cycles
    var rowOpen: bool
    var openRow: nat

    ghost function View(): Bank
      reads this
    {
      Bank(phase, next, last, rowOpen, openRow)
    }

    constructor ()
      ensures View() == FRESH
    {
      phase := Idle(0, None);
      next := ZERO;
      last := ZERO;
      rowOpen := false;
      openRow := 0;
    }

    // -------------------------------------------------------------- commands

    predicate IsCommandAllowed(k: Kind, now: nat)
      reads this
      ensures IsCommandAllowed(k, now) == Accepts(View(), k, now)
    {
      var listed := match phase
        case Idle(_, got) => got.None? && k in [ACT, REF, PRE]
        case Active(_, got) => got.None? && k in [READ, WRITE, PRE]
        case Reading(_, _, got) => got.None? && k in [READ, WRITE, PRE]
        case Writing(_, _, got) => got.None? && k in [READ, WRITE, PRE]
        case _ => false;
      listed && next.At(k) <= now
    }

    predicate IsClosed()
      reads this
      ensures IsClosed() == IsClosedPhase(View())
    {
      phase.Idle? || phase.Precharging?
    }

    method HandleCommand(cmd: Command, now: nat)
      requires Allows(View(), cmd.kind)
      modifies this
      ensures View() == Handle(old(View()), cmd, now)
    {
      last := last.With(cmd.kind, now);
      match phase {
        case Idle(_, _) => phase := Idle(1, Some(cmd));
        case Active(t, _) => phase := Active(t, Some(cmd));
        case Reading(t, e, _) => phase := Reading(t, e, Some(cmd));
        case Writing(t, e, _) => phase := Writing(t, e, Some(cmd));
        case _ =>
      }
    }

    // -------------------------------------------------------------- earliest-issue cycles

    method RaiseNext(k: Kind, cycle: nat)
      modifies this`next
      ensures next == old(next).Raise(k, cycle)
    {
      if next.At(k) < cycle { next := next.With(k, cycle); }
    }

    method RaiseForGroup(p: Params, kind: Kind, now: nat)
      requires p.Valid()
      modifies this`next
      ensures View() == Raised(p, old(View()), SameGroup, kind, now)
    {
      match kind {
        case ACT => RaiseNext(ACT, now + p.nRRD_L);
        case READ =>
          RaiseNext(READ, now + Max(p.nCCD_L, p.nBL));
          RaiseNext(WRITE, now + p.nCL + p.nBL + p.nRTW - p.nCWL);
        case WRITE =>
          RaiseNext(READ, now + p.nCWL + p.nBL + p.nWTR_L);
          RaiseNext(WRITE, now + Max(p.nCCD_L, p.nBL));
        case _ =>
      }
    }

    method RaiseForRank(p: Params, kind: Kind, now: nat)
      requires p.Valid()
      modifies this`next
      ensures View() == Raised(p, old(View()), SameRank, kind, now)
    {
      match kind {
        case ACT => RaiseNext(ACT, now + p.nRRD_S);
        case READ =>
          RaiseNext(READ, now + Max(p.nCCD_S, p.nBL));
          RaiseNext(WRITE, now + p.nCL + p.nBL + p.nRTW - p.nCWL);
        case WRITE =>
          RaiseNext(READ, now + p.nCWL + p.nBL + p.nWTR_S);
          RaiseNext(WRITE, now + Max(p.nCCD_S, p.nBL));
        case _ =>
      }
    }

    method RaiseForChannel(p: Params, kind: Kind, now: nat)
      requires p.Valid()
      modifies this`next
      ensures View() == Raised(p, old(View()), SameChannel, kind, now)
    {
      var burst := Max(p.nBL, Min(p.nCCD_S, p.nCCD_L));
      match kind {
        case READ =>
          RaiseNext(READ, now + burst + p.nERTR);
          RaiseNext(WRITE, now + p.nCL + burst + p.nERTW - p.nCWL);
        case WRITE =>
          RaiseNext(READ, now + p.nCWL + burst + p.nEWTR - p.nCL);
          RaiseNext(WRITE, now + burst + p.nEWTW);
        case _ =>
      }
    }

    // -------------------------------------------------------------- entering a state

    method DoEnterIdle(now: nat)
      modifies this
      ensures View() == EnterIdle(old(View()), now)
    {
      rowOpen := false;
      phase := Idle(0, None);
      RaiseNext(ACT, now);
      RaiseNext(REF, now);
      RaiseNext(PRE, now);
    }

    method DoEnterActive(p: Params, cmd: Command, now: nat)
      requires p.Valid()
      modifies this
      ensures View() == EnterActive(p, old(View()), cmd, now)
    {
      openRow := cmd.row;
      rowOpen := true;
      phase := Active(p.nCCD_L - 2, None);
      RaiseNext(READ, now + p.nRCD - 2);
      RaiseNext(WRITE, now + p.nRCD - 2);
      RaiseNext(PRE, Max(last.act + p.nRAS, Max(last.write + p.nWR, last.read + p.nRTP)));
    }

    method DoEnterRead(p: Params)
      requires p.Valid()
      modifies this
      ensures View() == EnterRead(p, old(View()))
    {
      phase := Reading(Max(p.nCCD_L, p.nBL) - 1, 0, None);
      RaiseNext(READ, last.read + p.nCCD_L);
      RaiseNext(WRITE, last.read + p.nCWL + p.nBL + p.nWTR);
      RaiseNext(PRE, Max(last.act + p.nRAS, last.read + p.nRTP));
    }

    method DoEnterWrite(p: Params)
      requires p.Valid()
      modifies this
      ensures View() == EnterWrite(p, old(View()))
    {
      phase := Writing(Max(p.nCCD_L, p.nBL), 0, None);
      RaiseNext(READ, last.write + p.nCWL + p.nBL + p.nWTR_L);
      RaiseNext(WRITE, last.write + p.nCCD_L);
      RaiseNext(PRE, Max(last.act + p.nRAS, last.write + p.nCWL + p.nBL + p.nWR));
    }

    method Enter(p: Params, cmd: Command, now: nat)
      requires p.Valid()
      modifies this
      ensures View() == EnterFor(p, old(View()), cmd, now)
    {
      match cmd.kind {
        case READ => DoEnterRead(p);
        case WRITE => DoEnterWrite(p);
        case PRE =>
          rowOpen := false;
          phase := Precharging(p.nRP - 2);
        case ACT =>
          phase := Activating(0, cmd);
          openRow := cmd.row;
          rowOpen := true;
        case REF =>
          phase := Refreshing(p.nRFC - 2);
          next := next.With(REF, Max(next.ref + p.nREFI - 1, now + p.nREFI) - 1);
      }
    }

    // -------------------------------------------------------------- the clock

    /** One tick: count down, or move to the state the received command asks for. */
    method ClockTic(p: Params, now: nat)
      requires p.Valid()
      modifies this
      ensures View() == Tick(p, old(View()), now)
    {
      match phase {
        case Idle(t, got) =>
          var t' := if t == 0 then UINT64 - 1 else t - 1;
          phase := Idle(t', got);
          if t <= 2 && t' != 1 && got.Some? { Enter(p, got.value, now); }
        case Activating(t, cmd) =>
          if 0 < t { phase := Activating(t - 1, cmd); } else { DoEnterActive(p, cmd, now); }
        case Active(t, got) =>
          if 0 < t { phase := Active(t - 1, got); } else if got.Some? { Enter(p, got.value, now); }
        case Reading(t, e, got) =>
          if 0 < t {
            phase := Reading(t - 1, e, got);
          } else if got.Some? {
            var e' := if e == 0 then ReadExit(p, last, got.value.kind, now) else e;
            if 1 < e' { phase := Reading(t, e' - 1, got); } else { Enter(p, got.value, now); }
          }
        case Writing(t, e, got) =>
          if 0 < t {
            phase := Writing(t - 1, e, got);
          } else if got.Some? {
            var e' := if e == 0 then WriteExit(p, last, got.value.kind, now) else e;
            if 1 < e' { phase := Writing(t, e' - 1, got); } else { Enter(p, got.value, now); }
          }
        case Precharging(t) =>
          if 0 < t { phase := Precharging(t - 1); } else { DoEnterIdle(now); }
        case Refreshing(t) =>
          if 0 < t { phase := Refreshing(t - 1); } else { DoEnterIdle(now); }
      }
    }
  }
}
