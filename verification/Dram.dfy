/** Vocabulary of the cramSim DRAM controller: commands, timing parameters, the
    channel/rank/bank-group/bank hierarchy, and the two tables of minimum command
    distances (within one bank, and from one bank to another of the same channel). */
module Dram {
  import opened Options

  function Max(a: int, b: int): int { if a >= b then a else b }

  function Min(a: int, b: int): int { if a <= b then a else b }

  /** Commands a bank understands. READA and WRITEA are not part of this model. */
  datatype Kind = ACT | READ | WRITE | PRE | REF

  predicate IsColumn(k: Kind) { k == READ || k == WRITE }

  /** A memory transaction after address hashing. */
  datatype Txn = Txn(seqNum: nat, isRead: bool, addr: nat, bank: nat, row: nat)

  /** Who created a command: the transaction converter, the code that re-opens a row closed by
      a refresh, or the refresh logic itself. */
  datatype Origin = FromTxn | Reopen | Refresh

  datatype Command = Command(kind: Kind, seqNum: nat, addr: nat, bank: nat, row: nat, origin: Origin)

  /** What a command number stands for: the transaction it was made for, and the command. */
  datatype Made = Made(txn: Txn, kind: Kind)

  /** One line of the command trace: `cmd` was handed to its bank in cycle `cycle`. */
  datatype Event = Event(cycle: nat, cmd: Command)

  /** One cycle number per command kind. */
  datatype Cycles = Cycles(act: nat, read: nat, write: nat, pre: nat, ref: nat) {
    function At(k: Kind): nat {
      match k
      case ACT => act
      case READ => read
      case WRITE => write
      case PRE => pre
      case REF => ref
    }

    function With(k: Kind, cycle: nat): Cycles {
      match k
      case ACT => this.(act := cycle)
      case READ => this.(read := cycle)
      case WRITE => this.(write := cycle)
      case PRE => this.(pre := cycle)
      case REF => this.(ref := cycle)
    }

    ghost predicate AllAtMost(cycle: nat) {
      act <= cycle && read <= cycle && write <= cycle && pre <= cycle && ref <= cycle
    }

    /** No entry is above the same entry of `other`. */
    ghost predicate AtMost(other: Cycles) {
      && act <= other.act && read <= other.read && write <= other.write
      && pre <= other.pre && ref <= other.ref
    }

    /** Raise the entry of `k` to at least `cycle`. */
    function Raise(k: Kind, cycle: nat): Cycles {
      With(k, Max(At(k), cycle))
    }
  }

  datatype Params = Params(
    nRRD_L: nat, nRRD_S: nat, nRCD: nat, nCCD_L: nat, nCCD_S: nat, nCL: nat, nCWL: nat,
    nWR: nat, nWTR: nat, nWTR_L: nat, nWTR_S: nat, nRTW: nat, nEWTR: nat, nERTW: nat,
    nEWTW: nat, nERTR: nat, nRAS: nat, nRTP: nat, nRP: nat, nRFC: nat, nREFI: nat,
    nFAW: nat, nBL: nat)
  {
    /** Length of a data burst as the cross-rank rules see it. */
    function Burst(): nat { Max(nBL, Min(nCCD_S, nCCD_L)) }

    /** The unsigned subtractions in the state and spacing code do not wrap. */
    ghost predicate Valid() {
      && 2 <= nRCD && 2 <= nCCD_L && 2 <= nRP && 2 <= nRFC && 1 <= nREFI && 1 <= nFAW
      && nCWL <= nCL + nBL + nRTW
      && nCWL <= nCL + Burst() + nERTW
      && nCL <= nCWL + Burst() + nEWTR
    }
  }

  /** The hierarchy as the driver wires it: the group of every bank, the rank of every group, the
      channel of every rank, and the banks of every rank and of every channel, in order. */
  datatype Config = Config(
    channels: nat, groupOf: seq<nat>, rankOfGroup: seq<nat>, channelOfRank: seq<nat>, banksOfRank: seq<seq<nat>>,
    banksOfChannel: seq<seq<nat>>,
    dualBus: bool, multiCycleAct: bool, useRefresh: bool, singleBankRefresh: bool, p: Params)
  {
    ghost predicate Valid() {
      && p.Valid()
      && 0 < channels
      && (forall b :: 0 <= b < |groupOf| ==> groupOf[b] < |rankOfGroup|)
      && (forall g :: 0 <= g < |rankOfGroup| ==> rankOfGroup[g] < |channelOfRank|)
      && (forall r :: 0 <= r < |channelOfRank| ==> channelOfRank[r] < channels)
      && |banksOfRank| == |channelOfRank|
      && (forall r :: 0 <= r < |banksOfRank| ==> banksOfRank[r] != [] && BanksOf(r, banksOfRank[r]))
      && |banksOfChannel| == channels
      && (forall ch, i :: 0 <= ch < channels && 0 <= i < |banksOfChannel[ch]| ==> banksOfChannel[ch][i] < |groupOf|)
    }

    /** Different banks, all of rank `rank`. */
    ghost predicate BanksOf(rank: nat, ids: seq<nat>) {
      && (forall i :: 0 <= i < |ids| ==> ids[i] < |groupOf| && RankOf(ids[i]) == rank)
      && (forall i, j :: 0 <= i < j < |ids| ==> ids[i] != ids[j])
    }

    function Ranks(): nat { |channelOfRank| }
    function Banks(): nat { |groupOf| }

    function GroupOf(bank: nat): nat { if bank < |groupOf| then groupOf[bank] else 0 }

    function RankOf(bank: nat): nat {
      var g := GroupOf(bank);
      if g < |rankOfGroup| then rankOfGroup[g] else 0
    }

    function ChannelOf(bank: nat): nat {
      var r := RankOf(bank);
      if r < |channelOfRank| then channelOfRank[r] else 0
    }
  }

  /** How close two different banks are. */
  datatype Nearness = SameGroup | SameRank | SameChannel | Unrelated

  function Near(c: Config, a: nat, b: nat): Nearness {
    if c.GroupOf(a) == c.GroupOf(b) then SameGroup
    else if c.RankOf(a) == c.RankOf(b) then SameRank
    else if c.ChannelOf(a) == c.ChannelOf(b) then SameChannel
    else Unrelated
  }

  /** Minimum distance from a command `first` in one bank to `second` in another bank. */
  function CrossGap(p: Params, near: Nearness, first: Kind, second: Kind): (gap: Option<int>)
    ensures p.Valid() && gap.Some? ==> 0 <= gap.value
  {
    match (near, first, second)
    case (SameGroup, ACT, ACT) => Some(p.nRRD_L)
    case (SameRank, ACT, ACT) => Some(p.nRRD_S)
    case (SameGroup, READ, READ) => Some(Max(p.nCCD_L, p.nBL))
    case (SameRank, READ, READ) => Some(Max(p.nCCD_S, p.nBL))
    case (SameChannel, READ, READ) => Some(p.Burst() + p.nERTR)
    case (SameGroup, READ, WRITE) => Some(p.nCL + p.nBL + p.nRTW - p.nCWL)
    case (SameRank, READ, WRITE) => Some(p.nCL + p.nBL + p.nRTW - p.nCWL)
    case (SameChannel, READ, WRITE) => Some(p.nCL + p.Burst() + p.nERTW - p.nCWL)
    case (SameGroup, WRITE, READ) => Some(p.nCWL + p.nBL + p.nWTR_L)
    case (SameRank, WRITE, READ) => Some(p.nCWL + p.nBL + p.nWTR_S)
    case (SameChannel, WRITE, READ) => Some(p.nCWL + p.Burst() + p.nEWTR - p.nCL)
    case (SameGroup, WRITE, WRITE) => Some(Max(p.nCCD_L, p.nBL))
    case (SameRank, WRITE, WRITE) => Some(Max(p.nCCD_S, p.nBL))
    case (SameChannel, WRITE, WRITE) => Some(p.Burst() + p.nEWTW)
    case _ => None
  }

  /** Minimum distance between two commands of one bank. */
  function BankGap(p: Params, first: Kind, second: Kind): nat {
    match (first, second)
    case (ACT, READ) => p.nRCD
    case (ACT, WRITE) => p.nRCD
    case (ACT, PRE) => p.nRAS
    case (READ, READ) => p.nCCD_L
    case (READ, WRITE) => p.nCWL + p.nBL + p.nWTR
    case (READ, PRE) => p.nRTP
    case (WRITE, READ) => p.nCWL + p.nBL + p.nWTR_L
    case (WRITE, WRITE) => p.nCCD_L
    case (WRITE, PRE) => p.nCWL + p.nBL + p.nWR
    case (PRE, ACT) => p.nRP
    case (PRE, PRE) => p.nRP
    case (PRE, REF) => p.nRP
    case (REF, ACT) => p.nRFC
    case (REF, PRE) => p.nRFC
    case (REF, REF) => p.nREFI
    case _ => 0
  }

  /** The distance the controller owes between two commands, whatever banks they go to. */
  function RequiredGap(c: Config, first: Command, second: Command): int {
    if first.bank == second.bank then BankGap(c.p, first.kind, second.kind)
    else match CrossGap(c.p, Near(c, first.bank, second.bank), first.kind, second.kind)
         case Some(gap) => gap
         case None => 0
  }
}
