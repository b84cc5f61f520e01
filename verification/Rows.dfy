/** Which row a column command meets. A run is judged by its command trace alone: replaying
    the trace tells which row each bank has open. The commands still queued for a bank must
    make sense when replayed from there, even if a refresh closes the row in between. */
module Rows {
  import opened Sequences
  import opened Dram
  import opened BankModel
  import opened DriverModel

  // ---------------------------------------------------------------- judging a trace

  /** The row buffer of `bank` after the commands of the trace. */
  ghost function Replay(trace: seq<Event>, bank: nat): RowBuffer {
    if trace == [] then Closed
    else
      var n := |trace| - 1;
      var before := Replay(trace[..n], bank);
      if trace[n].cmd.bank == bank then Apply(before, trace[n].cmd) else before
  }

  /** Command `n` of the trace finds the row buffer it needs: a column command its own row
      open, an ACT or REF no row open. */
  ghost predicate MeetsRow(trace: seq<Event>, n: nat)
    requires n < |trace|
  {
    var cmd := trace[n].cmd;
    var found := Replay(trace[..n], cmd.bank);
    && (IsColumn(cmd.kind) ==> found == Open(cmd.row))
    && (cmd.kind == ACT || cmd.kind == REF ==> found == Closed)
  }

  ghost predicate RowSafe(trace: seq<Event>) {
    forall n :: 0 <= n < |trace| ==> MeetsRow(trace, n)
  }

  lemma RowSafeAppend(trace: seq<Event>, e: Event)
    requires RowSafe(trace)
    requires var found := Replay(trace, e.cmd.bank);
             && (IsColumn(e.cmd.kind) ==> found == Open(e.cmd.row))
             && (e.cmd.kind == ACT || e.cmd.kind == REF ==> found == Closed)
    ensures RowSafe(trace + [e])
  {
    var t := trace + [e];
    forall n | 0 <= n < |t|
      ensures MeetsRow(t, n)
    {
      if n < |trace| {
        assert MeetsRow(trace, n);
        assert t[..n] == trace[..n];
      } else {
        assert t[..n] == trace;
      }
    }
  }

  lemma ReplayAppend(trace: seq<Event>, e: Event, bank: nat)
    ensures Replay(trace + [e], bank) ==
            if e.cmd.bank == bank then Apply(Replay(trace, bank), e.cmd) else Replay(trace, bank)
  {
    assert (trace + [e])[..|trace|] == trace;
  }

  // ---------------------------------------------------------------- queued commands

  /** The commands of `q` for `bank`, in order. */
  ghost function For(q: seq<Command>, bank: nat): seq<Command> {
    if q == [] then [] else (if q[0].bank == bank then [q[0]] else []) + For(q[1..], bank)
  }

  lemma {:induction false} ForConcat(a: seq<Command>, b: seq<Command>, bank: nat)
    ensures For(a + b, bank) == For(a, bank) + For(b, bank)
  {
    if a == [] {
      assert a + b == b;
    } else {
      assert (a + b)[1..] == a[1..] + b;
      ForConcat(a[1..], b, bank);
    }
  }

  lemma {:induction false} ForNone(q: seq<Command>, bank: nat)
    requires forall k :: 0 <= k < |q| ==> q[k].bank != bank
    ensures For(q, bank) == []
  {
    if q != [] { ForNone(q[1..], bank); }
  }

  /** Taking out the first command of a bank takes the head off that bank's commands. */
  lemma ForErased(q: seq<Command>, i: nat, bank: nat)
    requires i < |q|
    requires q[i].bank == bank ==> forall k :: 0 <= k < i ==> q[k].bank != bank
    ensures For(q, bank) == (if q[i].bank == bank then [q[i]] else []) + For(Erased(q, i), bank)
  {
    assert q == q[..i] + ([q[i]] + q[i + 1..]);
    ForConcat(q[..i], [q[i]] + q[i + 1..], bank);
    ForConcat([q[i]], q[i + 1..], bank);
    ForConcat(q[..i], q[i + 1..], bank);
    if q[i].bank == bank { ForNone(q[..i], bank); }
  }

  lemma ForFirst(q: seq<Command>, i: nat, bank: nat)
    requires i < |q| && q[i].bank == bank && forall k :: 0 <= k < i ==> q[k].bank != bank
    ensures For(q, bank) != [] && For(q, bank)[0] == q[i]
  {
    ForErased(q, i, bank);
  }

  /** A queued command leaves this row buffer, whatever was there before: a column command only
      goes out once its row is open. */
  ghost function Leaves(cmd: Command): RowBuffer {
    if cmd.kind == PRE || cmd.kind == REF then Closed else Open(cmd.row)
  }

  /** Commands `s` make sense from row buffer `r`; a closed row will be re-opened on demand. */
  ghost predicate Walk(r: RowBuffer, s: seq<Command>)
    decreases |s|
  {
    s == [] || ((IsColumn(s[0].kind) ==> r == Closed || r == Open(s[0].row)) && Walk(Leaves(s[0]), s[1..]))
  }

  ghost function RowAfter(r: RowBuffer, s: seq<Command>): RowBuffer {
    if s == [] then r else Leaves(s[|s| - 1])
  }

  /** The queue walks, and ends at the row the converter believes open (or at none). */
  ghost predicate FlowOk(r: RowBuffer, s: seq<Command>, believed: RowBuffer) {
    Walk(r, s) && (RowAfter(r, s) == Closed || RowAfter(r, s) == believed)
  }

  lemma FlowPop(r: RowBuffer, s: seq<Command>, believed: RowBuffer)
    requires s != [] && FlowOk(r, s, believed)
    ensures FlowOk(Leaves(s[0]), s[1..], believed)
  {}

  lemma FlowClose(r: RowBuffer, s: seq<Command>, believed: RowBuffer)
    requires FlowOk(r, s, believed)
    ensures FlowOk(Closed, s, believed)
  {}

  lemma {:induction false} WalkSplit(r: RowBuffer, a: seq<Command>, b: seq<Command>)
    ensures Walk(r, a + b) <==> Walk(r, a) && Walk(RowAfter(r, a), b)
    ensures RowAfter(r, a + b) == RowAfter(RowAfter(r, a), b)
    decreases |a|
  {
    if a == [] {
      assert a + b == b;
    } else {
      assert (a + b)[1..] == a[1..] + b;
      WalkSplit(Leaves(a[0]), a[1..], b);
    }
  }

  /** Re-opening the row of a queued column command just before it changes nothing. */
  lemma FlowReopen(r: RowBuffer, a: seq<Command>, b: seq<Command>, believed: RowBuffer)
    requires b != [] && IsColumn(b[0].kind) && FlowOk(r, a + b, believed)
    ensures FlowOk(r, a + ([Reopening(b[0])] + b), believed)
  {
    var b' := [Reopening(b[0])] + b;
    WalkSplit(r, a, b);
    WalkSplit(r, a, b');
    assert b'[1..] == b;
  }

  // ---------------------------------------------------------------- order of a bank's commands

  /** Sequence numbers of the commands of `s` that come from transactions. */
  ghost function TxnSeqs(s: seq<Command>): seq<nat> {
    if s == [] then [] else (if s[0].origin == FromTxn then [s[0].seqNum] else []) + TxnSeqs(s[1..])
  }

  /** Sequence numbers of the transaction commands `bank` has received, in order. */
  ghost function Issued(trace: seq<Event>, bank: nat): seq<nat> {
    if trace == [] then []
    else
      var n := |trace| - 1;
      var cmd := trace[n].cmd;
      Issued(trace[..n], bank) + (if cmd.bank == bank && cmd.origin == FromTxn then [cmd.seqNum] else [])
  }

  /** Received and still queued transaction commands of a bank are in sequence order and all
      older than `limit`. */
  ghost predicate InOrder(issued: seq<nat>, s: seq<Command>, limit: nat) {
    Increasing(issued + TxnSeqs(s)) && forall x :: x in issued + TxnSeqs(s) ==> x < limit
  }

  lemma {:induction false} TxnSeqsConcat(a: seq<Command>, b: seq<Command>)
    ensures TxnSeqs(a + b) == TxnSeqs(a) + TxnSeqs(b)
  {
    if a == [] {
      assert a + b == b;
    } else {
      TxnSeqsConcat(a[1..], b);
      var head := if a[0].origin == FromTxn then [a[0].seqNum] else [];
      calc {
        TxnSeqs(a + b);
        { assert (a + b)[0] == a[0] && (a + b)[1..] == a[1..] + b; }
        head + TxnSeqs(a[1..] + b);
        head + (TxnSeqs(a[1..]) + TxnSeqs(b));
        (head + TxnSeqs(a[1..])) + TxnSeqs(b);
        TxnSeqs(a) + TxnSeqs(b);
      }
    }
  }

  lemma IssuedAppend(trace: seq<Event>, e: Event, bank: nat)
    ensures Issued(trace + [e], bank) ==
            Issued(trace, bank) + (if e.cmd.bank == bank && e.cmd.origin == FromTxn then [e.cmd.seqNum] else [])
  {
    assert (trace + [e])[..|trace|] == trace;
  }

  /** Receiving the head of the queue keeps the order. */
  lemma OrderPop(issued: seq<nat>, s: seq<Command>, limit: nat)
    requires s != [] && InOrder(issued, s, limit)
    ensures InOrder(issued + (if s[0].origin == FromTxn then [s[0].seqNum] else []), s[1..], limit)
  {
    var head := if s[0].origin == FromTxn then [s[0].seqNum] else [];
    assert issued + TxnSeqs(s) == (issued + head) + TxnSeqs(s[1..]);
  }

  lemma IncreasingWithout(a: seq<nat>, x: seq<nat>, b: seq<nat>, limit: nat)
    requires Increasing(a + (x + b)) && forall y :: y in a + (x + b) ==> y < limit
    ensures Increasing(a + b) && forall y :: y in a + b ==> y < limit
  {
    var whole, rest := a + (x + b), a + b;
    forall i, j | 0 <= i < j < |rest|
      ensures rest[i] < rest[j]
    {
      assert rest[i] == whole[if i < |a| then i else i + |x|];
      assert rest[j] == whole[if j < |a| then j else j + |x|];
    }
    forall y | y in rest
      ensures y < limit
    {
      assert y in a || y in b;
      assert y in whole;
    }
  }

  /** So does dropping it. */
  lemma OrderDrop(issued: seq<nat>, s: seq<Command>, limit: nat)
    requires s != [] && InOrder(issued, s, limit)
    ensures InOrder(issued, s[1..], limit)
  {
    IncreasingWithout(issued, if s[0].origin == FromTxn then [s[0].seqNum] else [], TxnSeqs(s[1..]), limit);
  }

  lemma OrderReopen(issued: seq<nat>, a: seq<Command>, b: seq<Command>, cmd: Command, limit: nat)
    requires InOrder(issued, a + b, limit)
    ensures InOrder(issued, a + ([Reopening(cmd)] + b), limit)
  {
    var b' := [Reopening(cmd)] + b;
    assert b'[1..] == b;
    TxnSeqsConcat(a, b);
    TxnSeqsConcat(a, b');
    assert TxnSeqs(b') == TxnSeqs(b);
  }

  /** Two transaction commands of one bank in the trace are in sequence order. */
  ghost predicate SameBankInOrder(trace: seq<Event>) {
    forall m, n :: 0 <= m < n < |trace| && trace[m].cmd.bank == trace[n].cmd.bank
      && trace[m].cmd.origin == FromTxn && trace[n].cmd.origin == FromTxn
      ==> trace[m].cmd.seqNum < trace[n].cmd.seqNum
  }

  lemma {:induction false} IssuedHas(trace: seq<Event>, m: nat)
    requires m < |trace| && trace[m].cmd.origin == FromTxn
    ensures trace[m].cmd.seqNum in Issued(trace, trace[m].cmd.bank)
  {
    if m < |trace| - 1 { IssuedHas(trace[..|trace| - 1], m); }
  }

  /** Increasing receipts per bank are the same as sequence order in the trace. */
  lemma {:induction false} IssuedOrder(trace: seq<Event>)
    requires forall bank: nat :: Increasing(Issued(trace, bank))
    ensures SameBankInOrder(trace)
  {
    if trace != [] {
      var n := |trace| - 1;
      var init := trace[..n];
      forall bank: nat
        ensures Increasing(Issued(init, bank))
      {
        assert Increasing(Issued(trace, bank));
        assert forall i :: 0 <= i < |Issued(init, bank)| ==> Issued(init, bank)[i] == Issued(trace, bank)[i];
      }
      IssuedOrder(init);
      forall m | 0 <= m < n && trace[m].cmd.bank == trace[n].cmd.bank
                 && trace[m].cmd.origin == FromTxn && trace[n].cmd.origin == FromTxn
        ensures trace[m].cmd.seqNum < trace[n].cmd.seqNum
      {
        IssuedHas(init, m);
        var s, t := Issued(init, trace[n].cmd.bank), Issued(trace, trace[n].cmd.bank);
        assert Increasing(t) && t == s + [trace[n].cmd.seqNum];
        var k :| 0 <= k < |s| && s[k] == trace[m].cmd.seqNum;
        assert t[k] < t[|s|];
      }
      forall k, m | 0 <= k < m < |trace| && trace[k].cmd.bank == trace[m].cmd.bank
                    && trace[k].cmd.origin == FromTxn && trace[m].cmd.origin == FromTxn
        ensures trace[k].cmd.seqNum < trace[m].cmd.seqNum
      {
        if m < n { assert init[k] == trace[k] && init[m] == trace[m]; }
      }
    }
  }
}
