/** How long a bank takes when left alone: the first cycle in which it accepts the next command is
    the one the timings name, no earlier and no later. */
module BankTiming {
  import opened Options
  import opened Dram
  import opened BankModel

  /** The bank after `n` ticks, from cycle `now` on, without another command. */
  function Alone(p: Params, b: Bank, now: nat, n: nat): Bank
    requires p.Valid()
  {
    if n == 0 then b else Tick(p, Alone(p, b, now, n - 1), now + n)
  }

  /** An idle bank that takes an ACT: the row opens in two cycles. */
  lemma {:induction false} AfterAct(p: Params, b: Bank, cmd: Command, now: nat, n: nat)
    requires p.Valid() && b.phase.Idle? && Allows(b, ACT) && cmd.kind == ACT && 2 <= n
    ensures var b' := Alone(p, Handle(b, cmd, now), now, n);
      && b'.phase.Active? && b'.phase.got.None? && b'.openRow == cmd.row
      && b'.next.read == Max(b.next.read, now + p.nRCD) && b'.next.write == Max(b.next.write, now + p.nRCD)
    decreases n
  {
    var handed := Handle(b, cmd, now);
    if n == 2 {
      assert Alone(p, handed, now, 1) == Tick(p, handed, now + 1);
    } else {
      AfterAct(p, b, cmd, now, n - 1);
    }
  }

  /** From an ACT to a column command: exactly nRCD cycles, unless other commands ask for more. */
  lemma ColumnAfterAct(p: Params, b: Bank, cmd: Command, now: nat, n: nat)
    requires p.Valid() && b.phase.Idle? && Allows(b, ACT) && cmd.kind == ACT && 0 < n
    ensures var b' := Alone(p, Handle(b, cmd, now), now, n);
      && (Accepts(b', READ, now + n) <==> p.nRCD <= n && b.next.read <= now + n)
      && (Accepts(b', WRITE, now + n) <==> p.nRCD <= n && b.next.write <= now + n)
  {
    if n == 1 {
      assert Alone(p, Handle(b, cmd, now), now, 0) == Handle(b, cmd, now);
    } else {
      AfterAct(p, b, cmd, now, n);
    }
  }

  /** A bank that closes its row, or refreshes, `left` cycles before it is idle again. */
  ghost predicate Closing(p: Params, b: Bank, b0: Bank, left: nat) {
    && (b.phase == Precharging(left) || b.phase == Refreshing(left))
    && b.next.act == b0.next.act
  }

  /** Then it is idle, and takes an ACT when the banks around it allow it. */
  ghost predicate IdleAgain(b: Bank, b0: Bank, since: nat) {
    b.phase.Idle? && b.phase.got.None? && b.next.act == Max(b0.next.act, since)
  }

  lemma {:induction false} ClosingEnds(p: Params, b: Bank, b0: Bank, now: nat, left: nat, n: nat)
    requires p.Valid() && Closing(p, b, b0, left)
    ensures var b' := Alone(p, b, now, n);
      if n <= left then Closing(p, b', b0, left - n) else IdleAgain(b', b0, now + left + 1)
    decreases n
  {
    if 0 < n { ClosingEnds(p, b, b0, now, left, n - 1); }
  }

  lemma {:induction false} AloneFrom(p: Params, b: Bank, now: nat, m: nat, n: nat)
    requires p.Valid()
    ensures Alone(p, b, now, m + n) == Alone(p, Alone(p, b, now, m), now + m, n)
    decreases n
  {
    if 0 < n { AloneFrom(p, b, now, m, n - 1); }
  }

  /** An open bank with `t` cycles left in its state keeps a precharge until they have passed. */
  lemma {:induction false} HoldsPre(p: Params, b: Bank, cmd: Command, now: nat, n: nat)
    requires p.Valid() && b.phase.Active? && Allows(b, PRE) && cmd.kind == PRE && n <= b.phase.timer
    ensures var b' := Alone(p, Handle(b, cmd, now), now, n);
      b'.phase == Active(b.phase.timer - n, Some(cmd)) && b'.next == b.next
    decreases n
  {
    if 0 < n { HoldsPre(p, b, cmd, now, n - 1); }
  }

  lemma ActWhenClosed(p: Params, b: Bank, b0: Bank, now: nat, left: nat, n: nat)
    requires p.Valid() && Closing(p, b, b0, left)
    ensures Accepts(Alone(p, b, now, n), ACT, now + n) <==> left < n && b0.next.act <= now + n
  {
    ClosingEnds(p, b, b0, now, left, n);
    hide Alone;
  }

  lemma StartsClosing(p: Params, b: Bank, cmd: Command, now: nat)
    requires p.Valid() && b.phase.Active? && Allows(b, PRE) && cmd.kind == PRE
    ensures Closing(p, Alone(p, Handle(b, cmd, now), now, b.phase.timer + 1), b, p.nRP - 2)
  {
    HoldsPre(p, b, cmd, now, b.phase.timer);
    hide Handle;
  }

  lemma StartsRefreshing(p: Params, b: Bank, cmd: Command, now: nat)
    requires p.Valid() && b.phase.Idle? && Allows(b, REF) && cmd.kind == REF
    ensures Closing(p, Alone(p, Handle(b, cmd, now), now, 1), b, p.nRFC - 2)
  {
    assert Alone(p, Handle(b, cmd, now), now, 0) == Handle(b, cmd, now);
  }

  /** From a PRE to an open bank to the next ACT: exactly nRP cycles after the state is left, unless
      other commands ask for more. */
  lemma ActAfterPre(p: Params, b: Bank, cmd: Command, now: nat, n: nat)
    requires p.Valid() && b.phase.Active? && Allows(b, PRE) && cmd.kind == PRE && 0 < n
    ensures var b' := Alone(p, Handle(b, cmd, now), now, n);
      Accepts(b', ACT, now + n) <==> b.phase.timer + p.nRP <= n && b.next.act <= now + n
  {
    if n <= b.phase.timer {
      HoldsPre(p, b, cmd, now, n);
      hide Alone, Handle;
    } else {
      ActOnceClosed(p, b, cmd, now, b.phase.timer, n);
    }
  }

  lemma ActOnceClosed(p: Params, b: Bank, cmd: Command, now: nat, t: nat, n: nat)
    requires p.Valid() && b.phase.Active? && Allows(b, PRE) && cmd.kind == PRE && t == b.phase.timer < n
    ensures Accepts(Alone(p, Handle(b, cmd, now), now, n), ACT, now + n) <==> t + p.nRP <= n && b.next.act <= now + n
  {
    hide Alone, Handle, Closing, Accepts, Allows;
    StartsClosing(p, b, cmd, now);
    ActWhenClosed(p, Alone(p, Handle(b, cmd, now), now, t + 1), b, now + t + 1, p.nRP - 2, n - t - 1);
    AloneFrom(p, Handle(b, cmd, now), now, t + 1, n - t - 1);
  }

  /** From a REF to the next ACT: exactly nRFC cycles. */
  lemma ActAfterRef(p: Params, b: Bank, cmd: Command, now: nat, n: nat)
    requires p.Valid() && b.phase.Idle? && Allows(b, REF) && cmd.kind == REF && 0 < n
    ensures var b' := Alone(p, Handle(b, cmd, now), now, n);
      Accepts(b', ACT, now + n) <==> p.nRFC <= n && b.next.act <= now + n
  {
    hide Alone, Handle, Closing, Accepts, Allows;
    StartsRefreshing(p, b, cmd, now);
    var handed := Handle(b, cmd, now);
    ActWhenClosed(p, Alone(p, handed, now, 1), b, now + 1, p.nRFC - 2, n - 1);
    AloneFrom(p, handed, now, 1, n - 1);
  }
}
