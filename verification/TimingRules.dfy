/** The distances between commands, said without the tables: in terms of the commands' data on the
    channel and of the named timings. */
module TimingRules {
  import opened Dram
  import opened ControllerModel
  import opened Runs

  /** The cycles in which the data of a column command is on its channel: from `DataStart` up to,
      not including, `DataEnd`. */
  function DataStart(p: Params, e: Event): nat { e.cycle + (if e.cmd.kind == READ then p.nCL else p.nCWL) }

  function DataEnd(p: Params, e: Event): nat { DataStart(p, e) + p.nBL }

  /** ACTs to different banks of a rank. */
  ghost predicate ActRule(c: Config, a: Event, b: Event) {
    a.cmd.kind == ACT && b.cmd.kind == ACT && a.cmd.bank != b.cmd.bank ==>
      && (c.GroupOf(a.cmd.bank) == c.GroupOf(b.cmd.bank) ==> a.cycle + c.p.nRRD_L <= b.cycle)
      && (c.GroupOf(a.cmd.bank) != c.GroupOf(b.cmd.bank) && c.RankOf(a.cmd.bank) == c.RankOf(b.cmd.bank) ==>
        a.cycle + c.p.nRRD_S <= b.cycle)
  }

  /** Column commands of one kind: within a group, and within a rank. */
  ghost predicate SameKindRule(c: Config, a: Event, b: Event) {
    IsColumn(a.cmd.kind) && a.cmd.kind == b.cmd.kind ==>
      && (c.GroupOf(a.cmd.bank) == c.GroupOf(b.cmd.bank) ==> a.cycle + c.p.nCCD_L <= b.cycle)
      && (c.GroupOf(a.cmd.bank) != c.GroupOf(b.cmd.bank) && c.RankOf(a.cmd.bank) == c.RankOf(b.cmd.bank) ==>
        a.cycle + c.p.nCCD_S <= b.cycle)
  }

  /** A read and then a write, or the other way round, to different banks: the channel turns around
      between their data; within a rank a read also waits for the written data to settle. */
  ghost predicate TurnaroundRule(c: Config, a: Event, b: Event) {
    var rank := c.RankOf(a.cmd.bank) == c.RankOf(b.cmd.bank);
    var group := c.GroupOf(a.cmd.bank) == c.GroupOf(b.cmd.bank);
    a.cmd.bank != b.cmd.bank && c.ChannelOf(a.cmd.bank) == c.ChannelOf(b.cmd.bank) ==>
      && (a.cmd.kind == READ && b.cmd.kind == WRITE ==>
            DataEnd(c.p, a) + (if rank then c.p.nRTW else c.p.nERTW) <= DataStart(c.p, b))
      && (a.cmd.kind == WRITE && b.cmd.kind == READ && rank ==>
            DataEnd(c.p, a) + (if group then c.p.nWTR_L else c.p.nWTR_S) <= b.cycle)
      && (a.cmd.kind == WRITE && b.cmd.kind == READ && !rank ==> DataEnd(c.p, a) + c.p.nEWTR <= DataStart(c.p, b))
      && (a.cmd.kind == READ && b.cmd.kind == READ && !rank ==> DataEnd(c.p, a) + c.p.nERTR <= DataStart(c.p, b))
      && (a.cmd.kind == WRITE && b.cmd.kind == WRITE && !rank ==> DataEnd(c.p, a) + c.p.nEWTW <= DataStart(c.p, b))
  }

  /** The data of commands to different banks of a channel never meets. */
  ghost predicate DataRule(c: Config, a: Event, b: Event) {
    var apart := a.cmd.bank != b.cmd.bank && c.ChannelOf(a.cmd.bank) == c.ChannelOf(b.cmd.bank);
    apart && IsColumn(a.cmd.kind) && IsColumn(b.cmd.kind) ==> DataEnd(c.p, a) <= DataStart(c.p, b)
  }

  /** Within a bank: the precharge waits for the read and for the written data, a read for the
      written data. */
  ghost predicate BankRule(p: Params, a: Event, b: Event) {
    a.cmd.bank == b.cmd.bank ==>
      && (a.cmd.kind == READ && b.cmd.kind == PRE ==> a.cycle + p.nRTP <= b.cycle)
      && (a.cmd.kind == WRITE && b.cmd.kind == PRE ==> DataEnd(p, a) + p.nWR <= b.cycle)
      && (a.cmd.kind == WRITE && b.cmd.kind == READ ==> DataEnd(p, a) + p.nWTR_L <= b.cycle)
      && (a.cmd.kind == REF && b.cmd.kind == REF ==> a.cycle + p.nREFI <= b.cycle)
      && LifecycleTimes(p, a, b)
  }

  /** All rules, for every two events in order. */
  ghost predicate RulesHold(c: Config, trace: seq<Event>) {
    forall m, n :: 0 <= m < n < |trace| ==>
      && ActRule(c, trace[m], trace[n]) && SameKindRule(c, trace[m], trace[n]) && TurnaroundRule(c, trace[m], trace[n])
      && DataRule(c, trace[m], trace[n]) && BankRule(c.p, trace[m], trace[n])
  }

  /** The tables' distance is enough for each rule. */
  lemma DistanceIsEnough(c: Config, a: Event, b: Event)
    requires c.Valid() && a.cycle + RequiredGap(c, a.cmd, b.cmd) <= b.cycle
    ensures ActRule(c, a, b) && SameKindRule(c, a, b) && BankRule(c.p, a, b)
    ensures TurnaroundRule(c, a, b) && DataRule(c, a, b)
  {}

  /** In every state of every run the rules hold of all commands issued so far. */
  lemma RulesAreKept(s: Setup, batches: seq<seq<Txn>>, run: Run, k: nat)
    requires IsRun(s, batches, run) && k < |run.states|
    ensures RulesHold(s.c, run.states[k].d.trace)
  {
    CommandsKeepTheirDistance(s, batches, run, k);
    var trace := run.states[k].d.trace;
    assert s.c.Valid();
    hide RequiredGap, ActRule, SameKindRule, TurnaroundRule, DataRule, BankRule;
    forall m, n | 0 <= m < n < |trace|
      ensures ActRule(s.c, trace[m], trace[n]) && SameKindRule(s.c, trace[m], trace[n])
      ensures TurnaroundRule(s.c, trace[m], trace[n]) && DataRule(s.c, trace[m], trace[n])
      ensures BankRule(s.c.p, trace[m], trace[n])
    {
      DistanceIsEnough(s.c, trace[m], trace[n]);
    }
  }
}
