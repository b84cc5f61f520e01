/** The driver's data-bus assertion: it remembers the last column command it sent, on any channel,
    and asserts a distance to the next one of the same kind on the same channel. */
module DataBus {
  import opened Dram
  import opened Spacing
  import opened Rows

  /** What the driver remembers of the last column command. */
  datatype LastData = LastData(kind: Kind, channel: nat, cycle: nat)

  function DataOf(c: Config, e: Event): LastData { LastData(e.cmd.kind, c.ChannelOf(e.cmd.bank), e.cycle) }

  /** At the start it remembers a READ on channel 0 in cycle 0. */
  ghost function Remembered(c: Config, trace: seq<Event>): LastData {
    if trace == [] then LastData(READ, 0, 0)
    else
      var n := |trace| - 1;
      if IsColumn(trace[n].cmd.kind) then DataOf(c, trace[n])
      else Remembered(c, trace[..n])
  }

  /** The distance the driver asserts. */
  function DataGap(p: Params): nat { Min(p.nBL, Max(p.nCCD_L, p.nCCD_S)) }

  /** The assertion on command `n` of the trace. */
  ghost predicate BusAssertion(c: Config, trace: seq<Event>, n: nat)
    requires n < |trace|
  {
    var e, last := trace[n], Remembered(c, trace[..n]);
    IsColumn(e.cmd.kind) && last.kind == e.cmd.kind && last.channel == c.ChannelOf(e.cmd.bank) ==>
      last.cycle + DataGap(c.p) <= e.cycle
  }

  ghost predicate BusSafe(c: Config, trace: seq<Event>) { forall n :: 0 <= n < |trace| ==> BusAssertion(c, trace, n) }

  /** The remembered command is in the trace, or there is none yet. */
  lemma {:induction false} RememberedIs(c: Config, trace: seq<Event>)
    ensures var last := Remembered(c, trace);
      || last == LastData(READ, 0, 0)
      || exists m :: 0 <= m < |trace| && IsColumn(trace[m].cmd.kind) && last == DataOf(c, trace[m])
  {
    if trace != [] {
      var n := |trace| - 1;
      if !IsColumn(trace[n].cmd.kind) {
        RememberedIs(c, trace[..n]);
        if Remembered(c, trace) != LastData(READ, 0, 0) {
          var m :| 0 <= m < n && IsColumn(trace[m].cmd.kind) && Remembered(c, trace[..n]) == DataOf(c, trace[..n][m]);
          assert trace[m] == trace[..n][m];
        }
      }
    }
  }

  ghost predicate SameDataBus(c: Config, first: Command, second: Command) {
    IsColumn(first.kind) && first.kind == second.kind && c.ChannelOf(first.bank) == c.ChannelOf(second.bank)
  }

  /** The spacing rules demand the asserted distance if back-to-back commands of a bank keep it. */
  lemma GapIsOwed(c: Config, a: Command, b: Command)
    requires c.Valid() && SameDataBus(c, a, b) && DataGap(c.p) <= c.p.nCCD_L
    ensures DataGap(c.p) <= RequiredGap(c, a, b)
  {
    assert a.bank != b.bank ==> Near(c, a.bank, b.bank) != Unrelated;
  }

  /** A row that is open was opened by an ACT. */
  lemma {:induction false} OpenedByAct(trace: seq<Event>, bank: nat) returns (m: nat)
    requires Replay(trace, bank).Open?
    ensures m < |trace| && trace[m].cmd.kind == ACT && trace[m].cmd.bank == bank
  {
    var n := |trace| - 1;
    if trace[n].cmd.bank == bank && trace[n].cmd.kind == ACT { m := n; }
    else { m := OpenedByAct(trace[..n], bank); }
  }

  /** No column command is issued before cycle 1 + nRCD. */
  lemma FirstColumn(c: Config, trace: seq<Event>, n: nat)
    requires c.Valid() && PairwiseSafe(c, trace) && RowSafe(trace)
    requires (forall i :: 0 <= i < |trace| ==> 1 <= trace[i].cycle)
    requires n < |trace| && IsColumn(trace[n].cmd.kind)
    ensures 1 + c.p.nRCD <= trace[n].cycle
  {
    assert MeetsRow(trace, n);
    var m := OpenedByAct(trace[..n], trace[n].cmd.bank);
    assert trace[m].cycle + RequiredGap(c, trace[m].cmd, trace[n].cmd) <= trace[n].cycle;
  }

  /** The timings that make the assertion hold. */
  predicate BusTimings(p: Params) { DataGap(p) <= p.nCCD_L && DataGap(p) <= p.nRCD + 1 }

  lemma SafeTraceIsBusSafe(c: Config, trace: seq<Event>)
    requires c.Valid() && PairwiseSafe(c, trace) && RowSafe(trace)
    requires (forall i :: 0 <= i < |trace| ==> 1 <= trace[i].cycle)
    requires BusTimings(c.p)
    ensures BusSafe(c, trace)
  {
    hide RowSafe, RequiredGap, DataGap, Remembered;
    forall n | 0 <= n < |trace|
      ensures BusAssertion(c, trace, n)
    {
      var e, last := trace[n], Remembered(c, trace[..n]);
      if IsColumn(e.cmd.kind) && last.kind == e.cmd.kind && last.channel == c.ChannelOf(e.cmd.bank) {
        RememberedIs(c, trace[..n]);
        if last == LastData(READ, 0, 0) {
          FirstColumn(c, trace, n);
        } else {
          var m :| 0 <= m < n && IsColumn(trace[..n][m].cmd.kind) && last == DataOf(c, trace[..n][m]);
          assert trace[..n][m] == trace[m];
          GapIsOwed(c, trace[m].cmd, e.cmd);
          assert trace[m].cycle + RequiredGap(c, trace[m].cmd, trace[n].cmd) <= trace[n].cycle;
        }
      }
    }
  }
}
