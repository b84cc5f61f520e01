/** One DRAM bank as a value: the bank state machine of c_BankInfo and the c_BankState*
    classes, its earliest-issue and last-issue cycles, and what one clock tick or one
    accepted command does to them. */
module BankModel {
  import opened Options
  import opened Dram

  const UINT32: nat := 0x1_0000_0000
  const UINT64: nat := 0x1_0000_0000_0000_0000

  /** Contents of the current state object. `got` is the command received while in the state. */
  datatype Phase =
    | Idle(timer: nat, got: Option<Command>)
    | Activating(timer: nat, cmd: Command)
    | Active(timer: nat, got: Option<Command>)
    | Reading(timer: nat, exit: nat, got: Option<Command>)
    | Writing(timer: nat, exit: nat, got: Option<Command>)
    | Precharging(timer: nat)
    | Refreshing(timer: nat)

  datatype Bank = Bank(phase: Phase, next: Cycles, last: Cycles, rowOpen: bool, openRow: nat)

  const ZERO := Cycles(0, 0, 0, 0, 0)

  const FRESH := Bank(Idle(0, None), ZERO, ZERO, false, 0)

  /** The bank's row buffer as its commands have left it. */
  datatype RowBuffer = Closed | Open(row: nat)

  // ---------------------------------------------------------------- commands

  predicate Allows(b: Bank, k: Kind) {
    match b.phase
    case Idle(_, got) => got.None? && (k == ACT || k == REF || k == PRE)
    case Active(_, got) => got.None? && (IsColumn(k) || k == PRE)
    case Reading(_, _, got) => got.None? && (IsColumn(k) || k == PRE)
    case Writing(_, _, got) => got.None? && (IsColumn(k) || k == PRE)
    case _ => false
  }

  predicate Accepts(b: Bank, k: Kind, now: nat) {
    Allows(b, k) && b.next.At(k) <= now
  }

  /** A row command finds the bank already precharged. */
  predicate IsClosedPhase(b: Bank) { b.phase.Idle? || b.phase.Precharging? }

  /** The command the current state has received and not yet acted on. */
  function Got(b: Bank): Option<Command> {
    match b.phase
    case Idle(_, got) => got
    case Active(_, got) => got
    case Reading(_, _, got) => got
    case Writing(_, _, got) => got
    case _ => None
  }

  function Handle(b: Bank, cmd: Command, now: nat): Bank
    requires Allows(b, cmd.kind)
  {
    var phase := match b.phase
      case Idle(_, _) => Idle(1, Some(cmd))
      case Active(t, _) => Active(t, Some(cmd))
      case Reading(t, e, _) => Reading(t, e, Some(cmd))
      case Writing(t, e, _) => Writing(t, e, Some(cmd));
    b.(phase := phase, last := b.last.With(cmd.kind, now))
  }

  // ---------------------------------------------------------------- entering a state

  function EnterIdle(b: Bank, now: nat): Bank {
    b.(phase := Idle(0, None), rowOpen := false,
       next := b.next.Raise(ACT, now).Raise(REF, now).Raise(PRE, now))
  }

  function EnterActivating(b: Bank, cmd: Command): Bank {
    b.(phase := Activating(0, cmd), rowOpen := true, openRow := cmd.row)
  }

  function EnterActive(p: Params, b: Bank, cmd: Command, now: nat): Bank
    requires p.Valid()
  {
    var ready := now + p.nRCD - 2;
    var pre := Max(b.last.act + p.nRAS, Max(b.last.write + p.nWR, b.last.read + p.nRTP));
    b.(phase := Active(p.nCCD_L - 2, None), rowOpen := true, openRow := cmd.row,
       next := b.next.Raise(READ, ready).Raise(WRITE, ready).Raise(PRE, pre))
  }

  function EnterRead(p: Params, b: Bank): Bank
    requires p.Valid()
  {
    var pre := Max(b.last.act + p.nRAS, b.last.read + p.nRTP);
    b.(phase := Reading(Max(p.nCCD_L, p.nBL) - 1, 0, None),
       next := b.next.Raise(READ, b.last.read + p.nCCD_L)
                     .Raise(WRITE, b.last.read + p.nCWL + p.nBL + p.nWTR)
                     .Raise(PRE, pre))
  }

  function EnterWrite(p: Params, b: Bank): Bank {
    var pre := Max(b.last.act + p.nRAS, b.last.write + p.nCWL + p.nBL + p.nWR);
    b.(phase := Writing(Max(p.nCCD_L, p.nBL), 0, None),
       next := b.next.Raise(READ, b.last.write + p.nCWL + p.nBL + p.nWTR_L)
                     .Raise(WRITE, b.last.write + p.nCCD_L)
                     .Raise(PRE, pre))
  }

  function EnterPrecharge(p: Params, b: Bank): Bank
    requires p.Valid()
  {
    b.(phase := Precharging(p.nRP - 2), rowOpen := false)
  }

  function EnterRefresh(p: Params, b: Bank, now: nat): Bank
    requires p.Valid()
  {
    b.(phase := Refreshing(p.nRFC - 2),
       next := b.next.With(REF, Max(b.next.ref + p.nREFI - 1, now + p.nREFI) - 1))
  }

  /** Leave an open-row state for the state its received command asks for. */
  function EnterFor(p: Params, b: Bank, cmd: Command, now: nat): Bank
    requires p.Valid()
  {
    match cmd.kind
    case READ => EnterRead(p, b)
    case WRITE => EnterWrite(p, b)
    case PRE => EnterPrecharge(p, b)
    case ACT => EnterActivating(b, cmd)
    case REF => EnterRefresh(p, b, now)
  }

  // ---------------------------------------------------------------- the clock

  /** Cycles the Read state still waits before it lets `k` through. */
  function ReadExit(p: Params, last: Cycles, k: Kind, now: nat): nat {
    match k
    case WRITE =>
      if now > last.read then
        if now - last.read < p.nRTW then p.nRTW - (now - last.read) else 0
      else p.nRTW
    case PRE =>
      if now > last.read then
        if now - last.read < p.nRTP then p.nRTP - (now - last.read) else 0
      else if p.nRTP == 0 then UINT32 - 1 else p.nRTP - 1
    case _ => 0
  }

  /** Cycles the Write state still waits before it lets `k` through. */
  function WriteExit(p: Params, last: Cycles, k: Kind, now: nat): nat {
    match k
    case READ =>
      var base := last.write + p.nWR + p.nWTR;
      if now > base then
        if now - base < p.nWR + p.nWTR then p.nWR + p.nWTR - (now - base) else 0
      else p.nWR + p.nWTR
    case PRE =>
      var base := last.write + p.nWR;
      if now > base then
        if now - base < p.nWR then p.nWR - (now - base) else 0
      else p.nWR
    case _ => 0
  }

  /** One clock tick of the bank, in cycle `now`. */
  function Tick(p: Params, b: Bank, now: nat): Bank
    requires p.Valid()
  {
    match b.phase
    case Idle(t, got) =>
      // the counter wraps below zero
      var t' := if t == 0 then UINT64 - 1 else t - 1;
      if 2 < t || t' == 1 || got.None? then b.(phase := Idle(t', got))
      else EnterFor(p, b, got.value, now)
    case Activating(t, cmd) =>
      if 0 < t then b.(phase := Activating(t - 1, cmd)) else EnterActive(p, b, cmd, now)
    case Active(t, got) =>
      if 0 < t then b.(phase := Active(t - 1, got))
      else if got.None? then b
      else EnterFor(p, b, got.value, now)
    case Reading(t, e, got) =>
      if 0 < t then b.(phase := Reading(t - 1, e, got))
      else if got.None? then b
      else
        var e' := if e == 0 then ReadExit(p, b.last, got.value.kind, now) else e;
        if 1 < e' then b.(phase := Reading(t, e' - 1, got))
        else EnterFor(p, b, got.value, now)
    case Writing(t, e, got) =>
      if 0 < t then b.(phase := Writing(t - 1, e, got))
      else if got.None? then b
      else
        var e' := if e == 0 then WriteExit(p, b.last, got.value.kind, now) else e;
        if 1 < e' then b.(phase := Writing(t, e' - 1, got))
        else EnterFor(p, b, got.value, now)
    case Precharging(t) =>
      if 0 < t then b.(phase := Precharging(t - 1)) else EnterIdle(b, now)
    case Refreshing(t) =>
      if 0 < t then b.(phase := Refreshing(t - 1)) else EnterIdle(b, now)
  }

  // ---------------------------------------------------------------- invariant

  /** Facts every bank keeps, as seen after the tick of cycle `now`. */
  ghost predicate BankInv(b: Bank, now: nat) {
    && b.last.AllAtMost(now)
    && match b.phase
       case Idle(t, got) => got.Some? ==>
         && t == 1 && got.value.kind in {ACT, REF, PRE} && b.last.At(got.value.kind) == now
         && (got.value.kind == REF ==> b.next.ref <= now)
       case Activating(t, cmd) => t == 0 && cmd.kind == ACT && b.last.act + 1 == now && b.openRow == cmd.row
       case Active(_, got) => got.Some? ==> IsColumn(got.value.kind) || got.value.kind == PRE
       case Reading(_, _, got) => got.Some? ==> IsColumn(got.value.kind) || got.value.kind == PRE
       case Writing(_, _, got) => got.Some? ==> IsColumn(got.value.kind) || got.value.kind == PRE
       case _ => true
  }

  /** The row the bank will have open once everything it has received takes effect. */
  function Eff(b: Bank): RowBuffer {
    match b.phase
    case Idle(_, Some(cmd)) => if cmd.kind == ACT then Open(cmd.row) else Closed
    case Idle(_, None) => Closed
    case Activating(_, cmd) => Open(cmd.row)
    case Active(_, got) => if got.Some? && got.value.kind == PRE then Closed else Open(b.openRow)
    case Reading(_, _, got) => if got.Some? && got.value.kind == PRE then Closed else Open(b.openRow)
    case Writing(_, _, got) => if got.Some? && got.value.kind == PRE then Closed else Open(b.openRow)
    case Precharging(_) => Closed
    case Refreshing(_) => Closed
  }

  /** What a command does to a row buffer. */
  function Apply(r: RowBuffer, cmd: Command): RowBuffer {
    match cmd.kind
    case ACT => Open(cmd.row)
    case PRE => Closed
    case REF => Closed
    case _ => r
  }


  /** A tick never lowers an earliest-issue cycle. */
  lemma TickRaises(p: Params, b: Bank, now: nat)
    requires p.Valid() && BankInv(b, now)
    ensures b.next.AtMost(Tick(p, b, now + 1).next)
  {
  }

  /** A tick keeps the bank facts and, once pending commands are counted, changes no row. */
  lemma TickKeeps(p: Params, b: Bank, now: nat)
    requires p.Valid() && BankInv(b, now)
    ensures BankInv(Tick(p, b, now + 1), now + 1)
    ensures Eff(Tick(p, b, now + 1)) == Eff(b)
  {
  }

  /** A received command stays received until the tick that enters its state. */
  lemma TickGot(p: Params, b: Bank, now: nat)
    requires p.Valid() && BankInv(b, now) && Got(b).Some?
    ensures var b' := Tick(p, b, now + 1);
            b' == EnterFor(p, b, Got(b).value, now + 1) || (Got(b') == Got(b) && b'.last == b.last)
  {
  }

  /** An accepted command keeps the bank facts, lowers nothing, and has its effect on the row. */
  lemma HandleKeeps(b: Bank, cmd: Command, now: nat)
    requires BankInv(b, now) && Accepts(b, cmd.kind, now)
    ensures BankInv(Handle(b, cmd, now), now)
    ensures Handle(b, cmd, now).next == b.next
    ensures Eff(Handle(b, cmd, now)) == Apply(Eff(b), cmd)
    ensures forall k: Kind :: !Allows(Handle(b, cmd, now), k)
  {
  }

  /** A bank that takes a column command has a row open; one that takes ACT or REF has none. */
  lemma AllowsByRow(b: Bank, k: Kind, now: nat)
    requires BankInv(b, now) && Allows(b, k)
    ensures IsColumn(k) ==> Eff(b) == Open(b.openRow)
    ensures k == ACT || k == REF ==> Eff(b) == Closed
  {
  }
}
