/** When the converter closes a row behind a column command: always under the close-page policy,
    never under the open-page one, and under the pseudo-open one when the row has been open for the
    close time, counted in cycles since its ACT was made. */
module RowTimers {
  import opened Dram
  import opened DriverModel
  import opened ControllerModel
  import opened ControllerSafety
  import opened Quiet
  import opened Conservation
  import opened Openings
  import opened Runs

  // ---------------------------------------------------------------- one transaction

  /** Column command `n` is followed by a precharge for the same transaction. */
  ghost predicate ClosesAfter(owner: seq<Made>, n: nat)
    requires n < |owner|
  {
    n + 1 < |owner| && owner[n + 1] == Made(owner[n].txn, PRE)
  }

  /** The converter's decision, from its record of the bank. */
  predicate Closes(policy: Policy, t: Tracked, txn: Txn) {
    policy.ClosePage? || (policy.PseudoOpen? && TimerAfter(policy, t, txn) == 0)
  }

  /** Commands from number `from` on: each column command closes the row as its bank's record says,
      and an ACT is made exactly when row commands are needed. */
  ghost predicate Decided(policy: Policy, tracked: seq<Tracked>, owner: seq<Made>, from: nat) {
    && (forall n :: from <= n < |owner| ==> owner[n].txn.bank < |tracked| && DecidedAt(policy, tracked, owner, from, n))
    && OneEach(owner, from)
  }

  /** Commands for one bank are of one transaction. */
  ghost predicate OneEach(owner: seq<Made>, from: nat) {
    forall m, n :: from <= m < n < |owner| && owner[m].txn.bank == owner[n].txn.bank ==> owner[m].txn == owner[n].txn
  }

  ghost predicate DecidedAt(policy: Policy, tracked: seq<Tracked>, owner: seq<Made>, from: nat, n: nat)
    requires from <= n < |owner| && owner[n].txn.bank < |tracked|
  {
    var txn := owner[n].txn; var t := tracked[txn.bank];
    && (IsColumn(owner[n].kind) ==> (ClosesAfter(owner, n) <==> Closes(policy, t, txn)))
    && (owner[n].kind == ACT ==> PreKinds(policy, t, txn) != [])
    && (IsColumn(owner[n].kind) && PreKinds(policy, t, txn) != [] ==> ActFor(owner, from, txn.bank))
  }

  /** An ACT for the bank has been made from number `from` on. */
  ghost predicate ActFor(owner: seq<Made>, from: nat, bank: nat) {
    exists n :: from <= n < |owner| && owner[n].kind == ACT && owner[n].txn.bank == bank
  }

  lemma KindsDecide(policy: Policy, t: Tracked, txn: Txn)
    ensures var kinds, pre := KindsFor(policy, t, txn), |PreKinds(policy, t, txn)|;
      && pre < |kinds| && IsColumn(kinds[pre]) && pre <= 2 && (0 < pre ==> kinds[pre - 1] == ACT)
      && (forall i :: 0 <= i < |kinds| && i != pre ==> !IsColumn(kinds[i]))
      && (forall i :: pre < i < |kinds| ==> kinds[i] == PRE)
      && (pre + 1 < |kinds| <==> Closes(policy, t, txn))
  {}

  /** The record of every bank since number `from`: an open bank has its timer from an ACT made since,
      or as it was. */
  ghost predicate TimersSo(policy: Policy, before: seq<Tracked>, tracked: seq<Tracked>, owner: seq<Made>, from: nat) {
    && |tracked| == |before|
    && forall b :: 0 <= b < |tracked| ==> TimerSo(policy, before[b], tracked[b], ActFor(owner, from, b))
  }

  ghost predicate TimerSo(policy: Policy, t: Tracked, t': Tracked, act: bool) {
    policy.PseudoOpen? && t'.open ==> if act then t'.timer == policy.closeTime else t.open && t'.timer == t.timer
  }

  /** No command since number `from` is for the bank. */
  ghost predicate Untouched(owner: seq<Made>, from: nat, bank: nat) {
    forall n :: from <= n < |owner| ==> owner[n].txn.bank != bank
  }

  /** One transaction's commands behind those of others. */
  lemma DecideMore(policy: Policy, tracked: seq<Tracked>, owner: seq<Made>, from: nat, txn: Txn)
    requires Decided(policy, tracked, owner, from) && from <= |owner| && txn.bank < |tracked|
    requires Untouched(owner, from, txn.bank)
    ensures Decided(policy, tracked, owner + AllMade(txn, KindsFor(policy, tracked[txn.bank], txn)), from)
  {
    var t := tracked[txn.bank];
    var kinds, pre := KindsFor(policy, t, txn), |PreKinds(policy, t, txn)|;
    var more := owner + AllMade(txn, kinds);
    KindsDecide(policy, t, txn);
    hide KindsFor, PreKinds, Closes;
    forall n | from <= n < |more|
      ensures more[n].txn.bank < |tracked| && DecidedAt(policy, tracked, more, from, n)
    {
      if n < |owner| {
        assert DecidedAt(policy, tracked, owner, from, n) && more[n] == owner[n];
        EarlierActs(owner, more, from, owner[n].txn.bank);
        assert n + 1 < |owner| ==> more[n + 1] == owner[n + 1];
      } else {
        assert more[n] == Made(txn, kinds[n - |owner|]);
        if n + 1 < |more| { assert more[n + 1] == Made(txn, kinds[n + 1 - |owner|]); }
        if 0 < pre { assert more[|owner| + pre - 1] == Made(txn, ACT); }
      }
    }
  }

  lemma EarlierActs(owner: seq<Made>, more: seq<Made>, from: nat, bank: nat)
    requires owner <= more
    ensures ActFor(owner, from, bank) ==> ActFor(more, from, bank)
  {
    if n :| from <= n < |owner| && owner[n].kind == ACT && owner[n].txn.bank == bank {
      assert more[n] == owner[n];
    }
  }

  // ---------------------------------------------------------------- one cycle

  /** The banks of `picks` are still as they were at the start of the cycle. */
  ghost predicate Waiting(picks: seq<Txn>, before: seq<Tracked>, v: Converted, from: nat) {
    forall i :: 0 <= i < |picks| ==>
      && picks[i].bank < |before| && picks[i].bank < |v.tracked| && picks[i].bank < |v.queues|
      && v.tracked[picks[i].bank] == before[picks[i].bank]
      && Untouched(v.owner, from, picks[i].bank)
  }

  lemma ConvertTimers(s: Setup, v: Converted, txn: Txn, before: seq<Tracked>, from: nat)
    requires txn.bank < |v.queues| == |v.tracked| && 3 <= Token(s, v.queues[txn.bank]) && from <= |v.owner|
    requires TimersSo(s.policy, before, v.tracked, v.owner, from) && v.tracked[txn.bank] == before[txn.bank]
    ensures var v' := ConvertOne(s, v, txn); TimersSo(s.policy, before, v'.tracked, v'.owner, from)
  {
    var v', t := ConvertOne(s, v, txn), v.tracked[txn.bank];
    var kinds := KindsFor(s.policy, t, txn);
    ConvertedOwner(s, v, txn);
    KindsDecide(s.policy, t, txn);
    assert v'.tracked == v.tracked[txn.bank := NextTracked(s.policy, t, txn)];
    forall b | 0 <= b < |v'.tracked|
      ensures TimerSo(s.policy, before[b], v'.tracked[b], ActFor(v'.owner, from, b))
    {
      assert TimerSo(s.policy, before[b], v.tracked[b], ActFor(v.owner, from, b));
      EarlierActs(v.owner, v'.owner, from, b);
      if b == txn.bank {
        NewActs(s.policy, t, txn, v.owner, from);
      } else if ActFor(v'.owner, from, b) {
        OtherActs(v.owner, txn, kinds, from, b);
      }
    }
  }

  lemma NewActs(policy: Policy, t: Tracked, txn: Txn, owner: seq<Made>, from: nat)
    requires from <= |owner|
    ensures var more := owner + AllMade(txn, KindsFor(policy, t, txn));
      ActFor(more, from, txn.bank) <==> ActFor(owner, from, txn.bank) || PreKinds(policy, t, txn) != []
  {
    var kinds, pre := KindsFor(policy, t, txn), |PreKinds(policy, t, txn)|;
    var more := owner + AllMade(txn, kinds);
    KindsDecide(policy, t, txn);
    hide KindsFor, PreKinds;
    EarlierActs(owner, more, from, txn.bank);
    if 0 < pre { assert more[|owner| + pre - 1] == Made(txn, ACT); }
    if n :| from <= n < |more| && more[n].kind == ACT && more[n].txn.bank == txn.bank {
      if n < |owner| { assert more[n] == owner[n]; } else { assert more[n] == Made(txn, kinds[n - |owner|]); }
    }
  }

  lemma OtherActs(owner: seq<Made>, txn: Txn, kinds: seq<Kind>, from: nat, b: nat)
    requires b != txn.bank && ActFor(owner + AllMade(txn, kinds), from, b)
    ensures ActFor(owner, from, b)
  {
    var more := owner + AllMade(txn, kinds);
    var n :| from <= n < |more| && more[n].kind == ACT && more[n].txn.bank == b;
    MoreAt(owner, txn, kinds, n);
  }

  lemma MoreAt(owner: seq<Made>, txn: Txn, kinds: seq<Kind>, n: nat)
    requires n < |owner + AllMade(txn, kinds)|
    ensures var m := (owner + AllMade(txn, kinds))[n]; if n < |owner| then m == owner[n] else m.txn == txn
  {}

  /** The converter's work of a cycle. */
  lemma {:induction false} ConvertDecides(s: Setup, d: Driver, v: Converted, picks: seq<Txn>, before: seq<Tracked>,
                                          from: nat)
    requires ConverterInv(s, d, v) && Affordable(s, v.queues, picks) && Waiting(picks, before, v, from)
    requires from <= |v.owner|
    requires Decided(s.policy, before, v.owner, from) && TimersSo(s.policy, before, v.tracked, v.owner, from)
    ensures var r := ConvertAll(s, v, picks);
      Decided(s.policy, before, r.owner, from) && TimersSo(s.policy, before, r.tracked, r.owner, from)
    decreases |picks|
  {
    hide ConvertOne, ConverterInv, Token, Decided, TimersSo, KindsFor, AllMade, Untouched;
    if picks != [] {
      var txn, v' := picks[0], ConvertOne(s, v, picks[0]);
      FirstAffordable(s, d, v, picks);
      ConvertTimers(s, v, txn, before, from);
      ConvertedOwner(s, v, txn);
      DecideMore(s.policy, before, v.owner, from, txn);
      ConvertOneSafe(s, d, v, txn);
      StillWaiting(s, d, v, picks, before, from);
      ConvertDecides(s, d, v', picks[1..], before, from);
    }
  }

  lemma StillWaiting(s: Setup, d: Driver, v: Converted, picks: seq<Txn>, before: seq<Tracked>, from: nat)
    requires ConverterInv(s, d, v) && Affordable(s, v.queues, picks) && Waiting(picks, before, v, from) && picks != []
    ensures picks[0].bank < |v.queues| && picks[0].bank < |v.tracked|
    ensures Waiting(picks[1..], before, ConvertOne(s, v, picks[0]), from)
    ensures |v.owner| <= |ConvertOne(s, v, picks[0]).owner|
  {
    var v' := ConvertOne(s, v, picks[0]);
    ConvertFits(s, v, picks[0]);
    ConvertedOwner(s, v, picks[0]);
    assert v'.tracked == v.tracked[picks[0].bank := v'.tracked[picks[0].bank]];
    assert forall i :: 0 <= i < |picks[1..]| ==> picks[1..][i] == picks[i + 1] && picks[i + 1].bank != picks[0].bank;
    hide ConvertOne, Token, KindsFor, ConverterInv;
    forall i | 0 <= i < |picks[1..]|
      ensures Untouched(v'.owner, from, picks[1..][i].bank)
    {
      assert Untouched(v.owner, from, picks[i + 1].bank);
    }
  }

  /** A cycle's numbers, and the records it leaves. */
  lemma CycleDecides(s: Setup, y: System, arrivals: seq<Txn>)
    requires SystemInv(s, y) && RequestsOk(s, y.queues, y.tracked, arrivals)
    ensures var y' := Step(s, y, arrivals).0;
      && Decided(s.policy, y.tracked, y'.owner, |y.owner|) && |y.tracked| == |y'.tracked|
      && exists tracked :: y'.tracked == Aged(s.policy, tracked)
           && TimersSo(s.policy, y.tracked, tracked, y'.owner, |y.owner|)
  {
    hide Step, Shape, ConvertAll, VisitAll, OwnQueues, RequestsOk, ConverterInv, Affordable, SystemShape, QueuesOk,
      Accept, PickFrom, Aged, Decided, TimersSo, KindsFor;
    StepParts(s, y, arrivals);
    var v0 := Converted(y.queues, y.tracked, y.owner, true);
    AcceptOk(s, y.queues, y.tracked, y.txns, y.reqQ + arrivals);
    var accepted := Accept(s, y.txns, y.reqQ + arrivals);
    var picked := PickFrom(s, y.queues, y.tracked, accepted.0, 0);
    FreshConverter(s, y);
    PicksAffordable(s, y.queues, y.tracked, accepted.0, 0);
    NothingDecided(s.policy, y.tracked, y.owner);
    var v := ConvertAll(s, v0, picked.picks);
    ConvertDecides(s, Update(s.c, y.d), v0, picked.picks, y.tracked, |y.owner|);
    StepResults(s, y, arrivals, accepted.0, v, picked);
  }

  lemma NothingDecided(policy: Policy, tracked: seq<Tracked>, owner: seq<Made>)
    ensures Decided(policy, tracked, owner, |owner|) && TimersSo(policy, tracked, tracked, owner, |owner|)
  {}

  // ---------------------------------------------------------------- runs

  /** Cycles since the last ACT made for the bank. */
  ghost function OpenFor(states: seq<System>, k: nat, b: nat): nat
    requires k < |states|
  {
    if k == 0 then 0
    else if ActFor(states[k].owner, |states[k - 1].owner|, b) then 1
    else OpenFor(states, k - 1, b) + 1
  }

  function CyclesLeft(closeTime: nat, passed: nat): nat { if passed < closeTime then closeTime - passed else 0 }

  /** An open row's timer is what is left of the close time. */
  ghost predicate TimerAt(policy: Policy, tracked: seq<Tracked>, b: nat, passed: nat) {
    && b < |tracked|
    && (policy.PseudoOpen? && tracked[b].open ==> tracked[b].timer == CyclesLeft(policy.closeTime, passed))
  }

  lemma AgedTimer(policy: Policy, before: seq<Tracked>, tracked: seq<Tracked>, after: seq<Tracked>, owner: seq<Made>,
                  from: nat, b: nat, passed: nat)
    requires TimerAt(policy, before, b, passed) && TimersSo(policy, before, tracked, owner, from)
    requires after == Aged(policy, tracked)
    ensures TimerAt(policy, after, b, if ActFor(owner, from, b) then 1 else passed + 1)
  {
    assert TimerSo(policy, before[b], tracked[b], ActFor(owner, from, b));
    hide ActFor;
  }

  lemma StartTimers(s: Setup, b: nat)
    requires s.c.Valid() && b < s.c.Banks()
    ensures TimerAt(s.policy, Start(s).tracked, b, 0)
  {}

  lemma {:induction false} TimersCount(s: Setup, batches: seq<seq<Txn>>, run: Run, k: nat, b: nat)
    requires IsRun(s, batches, run) && k < |run.states| && b < s.c.Banks()
    ensures TimerAt(s.policy, run.states[k].tracked, b, OpenFor(run.states, k, b))
    decreases k
  {
    hide SystemInv, SystemShape, RequestsOk, Step, Start, ArrivalsOk, RunSystem, TimerAt, TimersSo, Decided, ActFor,
      Aged;
    if k == 0 {
      StartTimers(s, b);
    } else {
      TimersCount(s, batches, run, k - 1, b);
      StatesOfRun(s, batches, run, k - 1);
      RunInv(s, batches[..k - 1]);
      assert CycleAt(s, batches, run, k - 1);
      var y, y' := run.states[k - 1], run.states[k];
      CycleDecides(s, y, batches[k - 1]);
      var tracked :| y'.tracked == Aged(s.policy, tracked)
                     && TimersSo(s.policy, y.tracked, tracked, y'.owner, |y.owner|);
      AgedTimer(s.policy, y.tracked, tracked, y'.tracked, y'.owner, |y.owner|, b, OpenFor(run.states, k - 1, b));
    }
  }

  /** Whether a row is due to be closed, by the run alone. */
  ghost predicate CloseDue(policy: Policy, states: seq<System>, k: nat, b: nat)
    requires k + 1 < |states|
  {
    match policy
    case ClosePage => true
    case OpenPage => false
    case PseudoOpen(closeTime) =>
      if ActFor(states[k + 1].owner, |states[k].owner|, b) then closeTime == 0 else closeTime <= OpenFor(states, k, b)
  }

  lemma DueIs(policy: Policy, states: seq<System>, k: nat, n: nat)
    requires k + 1 < |states| && |states[k].owner| <= n < |states[k + 1].owner|
    requires Decided(policy, states[k].tracked, states[k + 1].owner, |states[k].owner|)
    requires IsColumn(states[k + 1].owner[n].kind)
    requires var b := states[k + 1].owner[n].txn.bank; TimerAt(policy, states[k].tracked, b, OpenFor(states, k, b))
    ensures ClosesAfter(states[k + 1].owner, n) <==> CloseDue(policy, states, k, states[k + 1].owner[n].txn.bank)
  {
    var owner, from, tracked := states[k + 1].owner, |states[k].owner|, states[k].tracked;
    var txn := owner[n].txn;
    assert DecidedAt(policy, tracked, owner, from, n);
    if ActFor(owner, from, txn.bank) {
      var m :| from <= m < |owner| && owner[m].kind == ACT && owner[m].txn.bank == txn.bank;
      assert DecidedAt(policy, tracked, owner, from, m) && owner[m].txn == txn;
    }
  }

  /** In every cycle of every run, a column command that is made is followed by a precharge of its
      row exactly when the policy says so: under the pseudo-open policy, when the close time has
      passed since the ACT that opened the row was made. */
  lemma RowsCloseInTime(s: Setup, batches: seq<seq<Txn>>, run: Run, k: nat, n: nat)
    requires IsRun(s, batches, run) && k < |batches|
    requires |run.states| == |batches| + 1 && |run.states[k].owner| <= n < |run.states[k + 1].owner|
    requires IsColumn(run.states[k + 1].owner[n].kind)
    ensures ClosesAfter(run.states[k + 1].owner, n) <==>
            CloseDue(s.policy, run.states, k, run.states[k + 1].owner[n].txn.bank)
  {
    hide SystemInv, SystemShape, RequestsOk, Step, Start, ArrivalsOk, RunSystem, TimerAt, TimersSo, ActFor, Aged,
      ClosesAfter, DecidedAt, OneEach;
    StatesOfRun(s, batches, run, k);
    RunInv(s, batches[..k]);
    assert CycleAt(s, batches, run, k);
    CycleDecides(s, run.states[k], batches[k]);
    TrackedBanks(s, run.states[k]);
    TimersCount(s, batches, run, k, run.states[k + 1].owner[n].txn.bank);
    DueIs(s.policy, run.states, k, n);
  }

  lemma TrackedBanks(s: Setup, y: System)
    requires SystemInv(s, y)
    ensures |y.tracked| == s.c.Banks()
  {}
}
