/** Hazard order: transactions that conflict leave the scheduler, and reach their bank, in the
    order in which they arrived, and every transaction gets at most one column command. */
module Hazards {
  import opened Sequences
  import opened Dram
  import opened DriverModel
  import opened Spacing
  import opened Rows
  import opened Faw
  import opened DriverSafety
  import opened ControllerModel
  import opened ControllerSafety

  /** Pairs that must keep their order: same address, and, when reads go first and row hits may
      overtake, one read and one write. */
  predicate Conflict(s: Setup, a: Txn, b: Txn) {
    a.addr == b.addr && (s.readFirst && s.firstReady ==> a.isRead != b.isRead)
  }

  ghost predicate Rising(q: seq<Txn>) {
    forall i, j :: 0 <= i < j < |q| ==> q[i].seqNum < q[j].seqNum
  }

  /** The address decides the bank. */
  ghost predicate Hashed(hash: nat -> nat, q: seq<Txn>) {
    forall i :: 0 <= i < |q| ==> q[i].bank == hash(q[i].addr)
  }

  // ---------------------------------------------------------------- the dependency scan

  /** On a queue in sequence order the early stop of the scan loses nothing. */
  lemma {:induction false} DependencyExact(q: seq<Txn>, x: Txn)
    requires Rising(q)
    ensures HasDependency(q, x) <==> exists i :: 0 <= i < |q| && q[i].addr == x.addr && q[i].seqNum < x.seqNum
  {
    if q != [] {
      DependencyExact(q[1..], x);
      assert forall i :: 1 <= i < |q| ==> q[i] == q[1..][i - 1];
      if HasDependency(q[1..], x) {
        var i :| 0 <= i < |q[1..]| && q[1..][i].addr == x.addr && q[1..][i].seqNum < x.seqNum;
        assert q[i + 1].seqNum < x.seqNum && q[0].seqNum < q[i + 1].seqNum;
      }
    }
  }

  // ---------------------------------------------------------------- the scheduler's invariant

  /** Transaction `t` may stand in line `w` of channel `ch`. */
  ghost predicate Fits(s: Setup, hash: nat -> nat, w: Line, ch: nat, t: Txn) {
    && (w.AllLine? <==> !s.readFirst)
    && (!w.AllLine? ==> (w.ReadLine? <==> t.isRead))
    && t.bank == hash(t.addr) && s.c.ChannelOf(t.bank) == ch
  }

  ghost predicate Wide(s: Setup, q: TxnQueues) { |q.allQ| == |q.readQ| == |q.writeQ| == s.c.channels }

  ghost predicate LineOk(s: Setup, hash: nat -> nat, accepted: seq<Txn>, line: seq<Txn>, w: Line, ch: nat) {
    && Rising(line)
    && forall i :: 0 <= i < |line| ==> line[i] in accepted && Fits(s, hash, w, ch, line[i])
  }

  ghost predicate LinesOk(s: Setup, hash: nat -> nat, accepted: seq<Txn>, q: TxnQueues) {
    Wide(s, q) && forall w, ch: nat :: ch < s.c.channels ==> LineOk(s, hash, accepted, LineOf(q, w, ch), w, ch)
  }

  /** Conflicting transactions departed in order. */
  ghost predicate DepartedInOrder(s: Setup, done: seq<Txn>) {
    forall i, j :: 0 <= i < j < |done| && Conflict(s, done[i], done[j]) ==> done[i].seqNum <= done[j].seqNum
  }

  /** Everything that departed has left the line, and nothing in it is older and conflicts. */
  ghost predicate Behind(s: Setup, done: seq<Txn>, line: seq<Txn>) {
    forall o, i :: 0 <= o < |done| && 0 <= i < |line| ==>
      done[o] != line[i] && (Conflict(s, done[o], line[i]) ==> done[o].seqNum < line[i].seqNum)
  }

  ghost predicate AllBehind(s: Setup, done: seq<Txn>, q: TxnQueues)
    requires Wide(s, q)
  {
    forall w, ch: nat :: ch < s.c.channels ==> Behind(s, done, LineOf(q, w, ch))
  }

  ghost predicate HazardInv(s: Setup, hash: nat -> nat, accepted: seq<Txn>, done: seq<Txn>, q: TxnQueues) {
    && Rising(accepted) && Hashed(hash, accepted) && LinesOk(s, hash, accepted, q)
    && (forall i :: 0 <= i < |done| ==> done[i] in accepted)
    && DepartedInOrder(s, done) && AllBehind(s, done, q)
  }

  // ---------------------------------------------------------------- accepting

  lemma LineAppend(s: Setup, hash: nat -> nat, accepted: seq<Txn>, line: seq<Txn>, w: Line, ch: nat, t: Txn)
    requires LineOk(s, hash, accepted, line, w, ch) && Rising(accepted + [t]) && Fits(s, hash, w, ch, t)
    ensures LineOk(s, hash, accepted + [t], line + [t], w, ch)
  {
    forall i | 0 <= i < |line|
      ensures line[i].seqNum < t.seqNum
    {
      Younger(accepted, t, line[i]);
    }
  }

  lemma Younger(accepted: seq<Txn>, t: Txn, u: Txn)
    requires Rising(accepted + [t]) && u in accepted
    ensures u.seqNum < t.seqNum
  {
    var k :| 0 <= k < |accepted| && accepted[k] == u;
    assert (accepted + [t])[k] == u && (accepted + [t])[|accepted|] == t;
  }

  lemma PushKeeps(s: Setup, hash: nat -> nat, accepted: seq<Txn>, done: seq<Txn>, q: TxnQueues, t: Txn)
    requires HazardInv(s, hash, accepted, done, q) && Rising(accepted + [t])
    requires t.bank == hash(t.addr) && s.c.ChannelOf(t.bank) < s.c.channels && PushTxn(s, q, t).1
    ensures HazardInv(s, hash, accepted + [t], done, PushTxn(s, q, t).0)
  {
    var q' := PushTxn(s, q, t).0;
    var mine := if !s.readFirst then AllLine else if t.isRead then ReadLine else WriteLine;
    var here := s.c.ChannelOf(t.bank);
    assert q' == WithLine(q, mine, here, LineOf(q, mine, here) + [t]);
    assert forall i, j :: 0 <= i < j < |accepted| ==>
      accepted[i] == (accepted + [t])[i] && accepted[j] == (accepted + [t])[j];
    forall w, ch: nat | ch < s.c.channels
      ensures LineOk(s, hash, accepted + [t], LineOf(q', w, ch), w, ch)
      ensures Behind(s, done, LineOf(q', w, ch))
    {
      assert LineOk(s, hash, accepted, LineOf(q, w, ch), w, ch);
      assert Behind(s, done, LineOf(q, w, ch));
      if w == mine && ch == here {
        LineAppend(s, hash, accepted, LineOf(q, w, ch), w, ch, t);
        forall o | 0 <= o < |done|
          ensures done[o].seqNum < t.seqNum
        {
          Younger(accepted, t, done[o]);
        }
      }
    }
  }

  /** Accepting requests splits what has arrived so far at a later point. */
  lemma {:induction false} AcceptKeeps(s: Setup, hash: nat -> nat, accepted: seq<Txn>, done: seq<Txn>, q: TxnQueues,
                                       reqQ: seq<Txn>)
    returns (now: seq<Txn>)
    requires HazardInv(s, hash, accepted, done, q) && Rising(accepted + reqQ) && Hashed(hash, reqQ)
    requires forall j :: 0 <= j < |reqQ| ==> s.c.ChannelOf(reqQ[j].bank) < s.c.channels
    ensures HazardInv(s, hash, now, done, Accept(s, q, reqQ).0)
    ensures now + Accept(s, q, reqQ).1 == accepted + reqQ
    decreases |reqQ|
  {
    now := accepted;
    if reqQ != [] {
      assert forall i :: 0 <= i < |accepted + [reqQ[0]]| ==> (accepted + [reqQ[0]])[i] == (accepted + reqQ)[i];
      assert accepted + [reqQ[0]] + reqQ[1..] == accepted + reqQ;
      if QuickHit(s, q, reqQ[0]) {
        HitKeeps(s, hash, accepted, done, q, reqQ[0]);
        now := AcceptKeeps(s, hash, accepted + [reqQ[0]], done, q, reqQ[1..]);
      } else {
        var pushed := PushTxn(s, q, reqQ[0]);
        if pushed.1 {
          PushKeeps(s, hash, accepted, done, q, reqQ[0]);
          now := AcceptKeeps(s, hash, accepted + [reqQ[0]], done, pushed.0, reqQ[1..]);
        }
      }
    }
  }

  /** A read answered by a queued write leaves the queues alone. */
  lemma HitKeeps(s: Setup, hash: nat -> nat, accepted: seq<Txn>, done: seq<Txn>, q: TxnQueues, t: Txn)
    requires HazardInv(s, hash, accepted, done, q) && Rising(accepted + [t]) && t.bank == hash(t.addr)
    ensures HazardInv(s, hash, accepted + [t], done, q)
  {
    forall w, ch: nat | ch < s.c.channels
      ensures LineOk(s, hash, accepted + [t], LineOf(q, w, ch), w, ch)
    {
      assert LineOk(s, hash, accepted, LineOf(q, w, ch), w, ch);
    }
  }

  // ---------------------------------------------------------------- picking

  /** A chosen transaction conflicts only with younger ones in its own line. */
  lemma PickedInLine(s: Setup, line: seq<Txn>, q: TxnQueues, ch: nat, i: nat)
    requires Rising(line) && i < |line| && ch < |q.allQ| && ch < |q.readQ| && ch < |q.writeQ|
    requires !HasDependency(DepQueue(s, q, ch, line[i]), line[i])
    requires !s.firstReady ==> i == 0
    requires !s.readFirst ==> line == q.allQ[ch]
    requires s.readFirst ==> forall j :: 0 <= j < |line| ==> line[j].isRead == line[i].isRead
    ensures forall j :: 0 <= j < |line| && j != i && Conflict(s, line[i], line[j]) ==> line[i].seqNum < line[j].seqNum
  {
    if !s.readFirst { DependencyExact(line, line[i]); }
  }

  /** A chosen transaction is older than every conflicting one that stays behind. */
  lemma PickedIsOldest(s: Setup, hash: nat -> nat, accepted: seq<Txn>, q: TxnQueues, w: Line, ch: nat, i: nat, w': Line,
                       ch': nat)
    requires Rising(accepted) && LinesOk(s, hash, accepted, q) && ch < s.c.channels && ch' < s.c.channels
    requires i < |LineOf(q, w, ch)| && (!s.firstReady ==> i == 0)
    requires !HasDependency(DepQueue(s, q, ch, LineOf(q, w, ch)[i]), LineOf(q, w, ch)[i])
    ensures var x, line := LineOf(q, w, ch)[i], LineOf(q, w', ch');
      forall j :: 0 <= j < |line| && !(w == w' && ch == ch' && i == j) ==>
        x != line[j] && (Conflict(s, x, line[j]) ==> x.seqNum < line[j].seqNum)
  {
    var own, line := LineOf(q, w, ch), LineOf(q, w', ch');
    var x := own[i];
    assert LineOk(s, hash, accepted, own, w, ch) && LineOk(s, hash, accepted, line, w', ch');
    assert Fits(s, hash, w, ch, x);
    if w == w' && ch == ch' {
      PickedInLine(s, own, q, ch, i);
    } else {
      forall j | 0 <= j < |line|
        ensures x != line[j] && (Conflict(s, x, line[j]) ==> x.seqNum < line[j].seqNum)
      {
        assert Fits(s, hash, w', ch', line[j]);
        if Conflict(s, x, line[j]) {
          assert ch == ch' && line == DepQueue(s, q, ch, x);
          DependencyExact(line, x);
          assert x != line[j];
          DifferentNumbers(accepted, x, line[j]);
        }
      }
    }
  }

  /** Some queue of the scheduler holds an older transaction to the address of `x` that must go before
      it: with reads first, one of the other kind. */
  ghost predicate OlderWaits(s: Setup, q: TxnQueues, x: Txn)
    requires Wide(s, q)
  {
    exists w, ch: nat, j: nat :: ch < s.c.channels && j < |LineOf(q, w, ch)| && Precedes(s, LineOf(q, w, ch)[j], x)
  }

  ghost predicate Precedes(s: Setup, u: Txn, x: Txn) {
    u.addr == x.addr && u.seqNum < x.seqNum && (s.readFirst ==> u.isRead != x.isRead)
  }

  /** A waiting transaction is ready exactly when its bank's command queue has three free entries and
      nothing that must go before it waits. */
  lemma ReadyExactly(s: Setup, hash: nat -> nat, accepted: seq<Txn>, queues: seq<seq<Command>>, q: TxnQueues,
                     w: Line, ch: nat, i: nat)
    requires LinesOk(s, hash, accepted, q) && WithinEntries(s, queues) && ch < s.c.channels && i < |LineOf(q, w, ch)|
    requires LineOf(q, w, ch)[i].bank < |queues|
    ensures var x := LineOf(q, w, ch)[i];
      Ready(s, queues, q, ch, x) <==> |queues[x.bank]| + 3 <= s.cmdEntries && !OlderWaits(s, q, x)
  {
    var x := LineOf(q, w, ch)[i];
    var mine := if !s.readFirst then AllLine else if x.isRead then WriteLine else ReadLine;
    var own := LineOf(q, mine, ch);
    assert LineOk(s, hash, accepted, LineOf(q, w, ch), w, ch) && Fits(s, hash, w, ch, x);
    assert LineOk(s, hash, accepted, own, mine, ch) && own == DepQueue(s, q, ch, x);
    DependencyExact(own, x);
    hide HasDependency, Rising;
    if HasDependency(own, x) {
      var j: nat :| j < |own| && own[j].addr == x.addr && own[j].seqNum < x.seqNum;
      assert Fits(s, hash, mine, ch, own[j]);
      assert Precedes(s, LineOf(q, mine, ch)[j], x);
    }
    if OlderWaits(s, q, x) { OlderIsHere(s, hash, accepted, q, mine, ch, x); }
  }

  /** What must go first waits in the queue that is looked at. */
  lemma OlderIsHere(s: Setup, hash: nat -> nat, accepted: seq<Txn>, q: TxnQueues, mine: Line, ch: nat, x: Txn)
    requires LinesOk(s, hash, accepted, q) && ch < s.c.channels && OlderWaits(s, q, x)
    requires x.bank == hash(x.addr) && s.c.ChannelOf(x.bank) == ch
    requires mine == if !s.readFirst then AllLine else if x.isRead then WriteLine else ReadLine
    ensures exists j :: 0 <= j < |LineOf(q, mine, ch)| && Precedes(s, LineOf(q, mine, ch)[j], x)
  {
    hide Rising;
    var w', ch': nat, j: nat
      :| ch' < s.c.channels && j < |LineOf(q, w', ch')| && Precedes(s, LineOf(q, w', ch')[j], x);
    assert LineOk(s, hash, accepted, LineOf(q, w', ch'), w', ch') && Fits(s, hash, w', ch', LineOf(q, w', ch')[j]);
    assert w' == mine && ch' == ch;
  }

  lemma DifferentNumbers(accepted: seq<Txn>, a: Txn, b: Txn)
    requires Rising(accepted) && a in accepted && b in accepted && a != b
    ensures a.seqNum != b.seqNum
  {
    var i :| 0 <= i < |accepted| && accepted[i] == a;
    var j :| 0 <= j < |accepted| && accepted[j] == b;
  }

  lemma RisingWithout(line: seq<Txn>, i: nat)
    requires Rising(line) && i < |line|
    ensures Rising(Without(line, i))
  {}

  /** Taking the chosen transaction out of its line. */
  lemma TakeKeeps(s: Setup, hash: nat -> nat, accepted: seq<Txn>, done: seq<Txn>, q: TxnQueues, w: Line, ch: nat,
                  i: nat)
    requires HazardInv(s, hash, accepted, done, q) && ch < s.c.channels
    requires i < |LineOf(q, w, ch)| && (!s.firstReady ==> i == 0)
    requires !HasDependency(DepQueue(s, q, ch, LineOf(q, w, ch)[i]), LineOf(q, w, ch)[i])
    ensures LineOf(q, w, ch)[i] !in done
    ensures HazardInv(s, hash, accepted, done + [LineOf(q, w, ch)[i]], WithLine(q, w, ch, Without(LineOf(q, w, ch), i)))
  {
    hide DepartedInOrder, LineOk, Behind, HasDependency, DepQueue, WithLine, LineOf, Without, Rising, Hashed;
    var own := LineOf(q, w, ch);
    OwnLine(s, hash, accepted, done, q, w, ch, i);
    LinesTake(s, hash, accepted, done, q, w, ch, i);
    DepartsInOrder(s, done, own, i);
    assert forall k :: 0 <= k < |done| ==> (done + [own[i]])[k] == done[k];
  }

  lemma OwnLine(s: Setup, hash: nat -> nat, accepted: seq<Txn>, done: seq<Txn>, q: TxnQueues, w: Line, ch: nat, i: nat)
    requires LinesOk(s, hash, accepted, q) && AllBehind(s, done, q) && ch < s.c.channels && i < |LineOf(q, w, ch)|
    ensures LineOf(q, w, ch)[i] in accepted && Behind(s, done, LineOf(q, w, ch))
  {
    hide Behind;
    assert LineOk(s, hash, accepted, LineOf(q, w, ch), w, ch);
  }

  /** The lines once the chosen transaction is out. */
  lemma LinesTake(s: Setup, hash: nat -> nat, accepted: seq<Txn>, done: seq<Txn>, q: TxnQueues, w: Line, ch: nat,
                  i: nat)
    requires Rising(accepted) && LinesOk(s, hash, accepted, q) && AllBehind(s, done, q) && ch < s.c.channels
    requires i < |LineOf(q, w, ch)| && (!s.firstReady ==> i == 0)
    requires !HasDependency(DepQueue(s, q, ch, LineOf(q, w, ch)[i]), LineOf(q, w, ch)[i])
    ensures var q' := WithLine(q, w, ch, Without(LineOf(q, w, ch), i));
      LinesOk(s, hash, accepted, q') && AllBehind(s, done + [LineOf(q, w, ch)[i]], q')
  {
    var own := LineOf(q, w, ch);
    var q' := WithLine(q, w, ch, Without(own, i));
    LineChanged(q, w, ch, Without(own, i), w, ch);
    hide LineOk, Behind, HasDependency, DepQueue, WithLine, LineOf, Without, Rising;
    forall w', ch': nat | ch' < s.c.channels
      ensures LineOk(s, hash, accepted, LineOf(q', w', ch'), w', ch')
      ensures Behind(s, done + [own[i]], LineOf(q', w', ch'))
    {
      LineTake(s, hash, accepted, done, q, w, ch, i, w', ch');
    }
  }

  lemma LineTake(s: Setup, hash: nat -> nat, accepted: seq<Txn>, done: seq<Txn>, q: TxnQueues, w: Line, ch: nat, i: nat,
                 w': Line, ch': nat)
    requires Rising(accepted) && LinesOk(s, hash, accepted, q) && AllBehind(s, done, q) && ch < s.c.channels
    requires ch' < s.c.channels
    requires i < |LineOf(q, w, ch)| && (!s.firstReady ==> i == 0)
    requires !HasDependency(DepQueue(s, q, ch, LineOf(q, w, ch)[i]), LineOf(q, w, ch)[i])
    ensures var q' := WithLine(q, w, ch, Without(LineOf(q, w, ch), i));
      && |q'.allQ| == |q'.readQ| == |q'.writeQ| == s.c.channels
      && LineOk(s, hash, accepted, LineOf(q', w', ch'), w', ch')
      && Behind(s, done + [LineOf(q, w, ch)[i]], LineOf(q', w', ch'))
  {
    hide LineOk, Behind, HasDependency, DepQueue, WithLine, LineOf, Without, Rising;
    PickedIsOldest(s, hash, accepted, q, w, ch, i, w', ch');
    LineChanged(q, w, ch, Without(LineOf(q, w, ch), i), w', ch');
    if w == w' && ch == ch' {
      WithoutKeeps(s, hash, accepted, done, LineOf(q, w, ch), w, ch, i);
    } else {
      BehindMore(s, done, LineOf(q, w', ch'), LineOf(q, w, ch)[i]);
    }
  }

  lemma LineChanged(q: TxnQueues, w: Line, ch: nat, line: seq<Txn>, w': Line, ch': nat)
    requires |q.allQ| == |q.readQ| == |q.writeQ| && ch < |q.allQ| && ch' < |q.allQ|
    ensures var q' := WithLine(q, w, ch, line);
      && |q'.allQ| == |q'.readQ| == |q'.writeQ| == |q.allQ|
      && LineOf(q', w', ch') == if w == w' && ch == ch' then line else LineOf(q, w', ch')
  {}

  lemma BehindMore(s: Setup, done: seq<Txn>, line: seq<Txn>, x: Txn)
    requires Behind(s, done, line)
    requires forall j :: 0 <= j < |line| ==> x != line[j] && (Conflict(s, x, line[j]) ==> x.seqNum < line[j].seqNum)
    ensures Behind(s, done + [x], line)
  {}

  lemma WithoutKeeps(s: Setup, hash: nat -> nat, accepted: seq<Txn>, done: seq<Txn>, line: seq<Txn>, w: Line, ch: nat,
                     i: nat)
    requires LineOk(s, hash, accepted, line, w, ch) && i < |line| && Behind(s, done, line)
    requires forall j :: 0 <= j < |line| && j != i ==>
      line[i] != line[j] && (Conflict(s, line[i], line[j]) ==> line[i].seqNum < line[j].seqNum)
    ensures LineOk(s, hash, accepted, Without(line, i), w, ch) && Behind(s, done + [line[i]], Without(line, i))
  {
    var rest := Without(line, i);
    RisingWithout(line, i);
    assert forall j :: 0 <= j < |rest| ==> rest[j] == line[if j < i then j else j + 1];
    BehindMore(s, done, rest, line[i]);
  }

  lemma DepartsInOrder(s: Setup, done: seq<Txn>, line: seq<Txn>, i: nat)
    requires DepartedInOrder(s, done) && i < |line| && Behind(s, done, line)
    ensures DepartedInOrder(s, done + [line[i]]) && line[i] !in done
  {}

  lemma PickChannelKeeps(s: Setup, hash: nat -> nat, accepted: seq<Txn>, done: seq<Txn>, q: TxnQueues,
                         queues: seq<seq<Command>>, tracked: seq<Tracked>, ch: nat)
    requires HazardInv(s, hash, accepted, done, q) && QueuesOk(s, queues, tracked, q) && ch < s.c.channels
    ensures var r := PickChannel(s, queues, tracked, q, ch);
      HazardInv(s, hash, accepted, done + r.picks, r.q) && forall i :: 0 <= i < |r.picks| ==> r.picks[i] !in done
  {
    var q1 := Flushed(s, q, ch);
    assert forall w, ch: nat :: ch < s.c.channels ==> LineOf(q1, w, ch) == LineOf(q, w, ch);
    assert HazardInv(s, hash, accepted, done, q1);
    assert done + [] == done;
    match Selection(s, queues, tracked, q1, ch)
    case Some((w, i)) => TakeKeeps(s, hash, accepted, done, q1, w, ch, i);
    case None =>
  }

  lemma {:induction false} PickFromKeeps(s: Setup, hash: nat -> nat, accepted: seq<Txn>, done: seq<Txn>, q: TxnQueues,
                                         queues: seq<seq<Command>>, tracked: seq<Tracked>, ch: nat)
    requires HazardInv(s, hash, accepted, done, q) && QueuesOk(s, queues, tracked, q) && ch <= s.c.channels
    ensures var r := PickFrom(s, queues, tracked, q, ch);
      HazardInv(s, hash, accepted, done + r.picks, r.q) && forall i :: 0 <= i < |r.picks| ==> r.picks[i] !in done
    decreases s.c.channels - ch
  {
    hide HazardInv, QueuesOk, PickChannel;
    if ch == s.c.channels {
      assert done + [] == done;
    } else {
      PickChannelOk(s, queues, tracked, q, ch);
      PickChannelKeeps(s, hash, accepted, done, q, queues, tracked, ch);
      var here := PickChannel(s, queues, tracked, q, ch);
      var rest := PickFrom(s, queues, tracked, here.q, ch + 1);
      PickFromKeeps(s, hash, accepted, done + here.picks, here.q, queues, tracked, ch + 1);
      assert done + here.picks + rest.picks == done + (here.picks + rest.picks);
    }
  }

  // ---------------------------------------------------------------- converting

  /** The transactions the command numbers stand for. */
  ghost function Txns(owner: seq<Made>): (r: seq<Txn>)
    ensures |r| == |owner|
  {
    seq(|owner|, i requires 0 <= i < |owner| => owner[i].txn)
  }

  /** Repeating or dropping one departed transaction in place changes nothing. */
  lemma Stutter(s: Setup, hash: nat -> nat, accepted: seq<Txn>, a: seq<Txn>, x: Txn, n: nat, b: seq<Txn>, q: TxnQueues)
    requires HazardInv(s, hash, accepted, a + ([x] + b), q)
    ensures HazardInv(s, hash, accepted, a + seq(n, i => x) + b, q)
  {
    var was, after := a + ([x] + b), a + seq(n, i => x) + b;
    assert forall i :: 0 <= i < |after| ==>
      after[i] == was[if i < |a| then i else if i < |a| + n then |a| else i - n + 1];
    assert DepartedInOrder(s, after);
    forall w, ch: nat | ch < s.c.channels
      ensures Behind(s, after, LineOf(q, w, ch))
    {
      assert Behind(s, was, LineOf(q, w, ch));
    }
  }

  /** The numbers given out so far: a transaction has at most one column command, of its own
      direction. */
  ghost predicate OneColumn(owner: seq<Made>) {
    && (forall i :: 0 <= i < |owner| && IsColumn(owner[i].kind) ==> (owner[i].kind == READ <==> owner[i].txn.isRead))
    && (forall i, j :: 0 <= i < j < |owner| && IsColumn(owner[i].kind) && IsColumn(owner[j].kind) ==>
      owner[i].txn != owner[j].txn)
  }

  lemma KindsHaveOneColumn(policy: Policy, t: Tracked, txn: Txn)
    ensures var kinds := KindsFor(policy, t, txn);
      && (forall i :: 0 <= i < |kinds| && IsColumn(kinds[i]) ==> (kinds[i] == READ <==> txn.isRead))
      && (forall i, j :: 0 <= i < j < |kinds| ==> !IsColumn(kinds[i]) || !IsColumn(kinds[j]))
  {}

  lemma OneColumnMore(owner: seq<Made>, txn: Txn, kinds: seq<Kind>)
    requires OneColumn(owner) && txn !in Txns(owner)
    requires forall i :: 0 <= i < |kinds| && IsColumn(kinds[i]) ==> (kinds[i] == READ <==> txn.isRead)
    requires forall i, j :: 0 <= i < j < |kinds| ==> !IsColumn(kinds[i]) || !IsColumn(kinds[j])
    ensures OneColumn(owner + seq(|kinds|, i requires 0 <= i < |kinds| => Made(txn, kinds[i])))
  {
    assert forall i :: 0 <= i < |owner| ==> owner[i].txn == Txns(owner)[i] != txn;
  }

  lemma ConvertOneKeeps(s: Setup, hash: nat -> nat, accepted: seq<Txn>, v: Converted, txn: Txn, rest: seq<Txn>,
                        q: TxnQueues)
    requires txn.bank < |v.queues| && txn.bank < |v.tracked|
    requires HazardInv(s, hash, accepted, Txns(v.owner) + ([txn] + rest), q)
    requires OneColumn(v.owner) && txn !in Txns(v.owner)
    ensures var v' := ConvertOne(s, v, txn);
      && HazardInv(s, hash, accepted, Txns(v'.owner) + rest, q) && OneColumn(v'.owner)
      && forall t :: t in Txns(v'.owner) ==> t == txn || t in Txns(v.owner)
  {
    var v' := ConvertOne(s, v, txn);
    var kinds := KindsFor(s.policy, v.tracked[txn.bank], txn);
    KindsHaveOneColumn(s.policy, v.tracked[txn.bank], txn);
    OneColumnMore(v.owner, txn, kinds);
    var n := |v'.owner| - |v.owner|;
    assert Txns(v'.owner) == Txns(v.owner) + seq(n, i => txn) by {
      hide KindsFor;
    }
    hide ConvertOne, HazardInv, KindsFor;
    Stutter(s, hash, accepted, Txns(v.owner), txn, n, rest, q);
    forall t | t in Txns(v'.owner)
      ensures t == txn || t in Txns(v.owner)
    {
      var i :| 0 <= i < |Txns(v'.owner)| && Txns(v'.owner)[i] == t;
      if i < |v.owner| { assert t == Txns(v.owner)[i]; }
    }
  }

  lemma {:induction false} ConvertAllKeeps(s: Setup, hash: nat -> nat, accepted: seq<Txn>, v: Converted,
                                           picks: seq<Txn>, q: TxnQueues)
    requires forall i :: 0 <= i < |picks| ==> picks[i].bank < |v.queues| && picks[i].bank < |v.tracked|
    requires forall i, j :: 0 <= i < j < |picks| ==> picks[i].bank != picks[j].bank
    requires HazardInv(s, hash, accepted, Txns(v.owner) + picks, q) && OneColumn(v.owner)
    requires forall i :: 0 <= i < |picks| ==> picks[i] !in Txns(v.owner)
    ensures HazardInv(s, hash, accepted, Txns(ConvertAll(s, v, picks).owner), q)
    ensures OneColumn(ConvertAll(s, v, picks).owner)
    decreases |picks|
  {
    if picks == [] {
      assert Txns(v.owner) + picks == Txns(v.owner);
    } else {
      var rest := picks[1..];
      assert picks == [picks[0]] + rest;
      ConvertOneKeeps(s, hash, accepted, v, picks[0], rest, q);
      var v' := ConvertOne(s, v, picks[0]);
      assert |v'.queues| == |v.queues| && |v'.tracked| == |v.tracked|;
      hide ConvertOne, HazardInv, OneColumn;
      forall i | 0 <= i < |rest|
        ensures rest[i] !in Txns(v'.owner)
      {
        assert rest[i] == picks[i + 1] && picks[0].bank != picks[i + 1].bank;
      }
      ConvertAllKeeps(s, hash, accepted, v', rest, q);
    }
  }

  // ---------------------------------------------------------------- one cycle

  ghost predicate SystemHazards(s: Setup, hash: nat -> nat, y: System, accepted: seq<Txn>) {
    && HazardInv(s, hash, accepted, Txns(y.owner), y.txns) && OneColumn(y.owner)
    && Rising(accepted + y.reqQ) && Hashed(hash, y.reqQ)
  }

  /** A cycle accepts some of what has arrived and keeps the order of conflicts. */
  lemma StepHazards(s: Setup, hash: nat -> nat, y: System, accepted: seq<Txn>, arrivals: seq<Txn>)
    returns (now: seq<Txn>)
    requires SystemShape(s, y) && RequestsOk(s, y.queues, y.tracked, arrivals)
    requires SystemHazards(s, hash, y, accepted)
    requires Rising(accepted + y.reqQ + arrivals) && Hashed(hash, arrivals)
    ensures SystemHazards(s, hash, Step(s, y, arrivals).0, now)
    ensures now + Step(s, y, arrivals).0.reqQ == accepted + y.reqQ + arrivals
  {
    hide Step, SystemShape, Accept, PickFrom, ConvertAll, HazardInv, OneColumn, QueuesOk, RequestsOk, Token, Rising,
      Txns;
    var reqQ := y.reqQ + arrivals;
    Assoc(accepted, y.reqQ, arrivals);
    ShapeParts(s, y, arrivals);
    now := AcceptKeeps(s, hash, accepted, Txns(y.owner), y.txns, reqQ);
    var taken := Accept(s, y.txns, reqQ);
    AcceptOk(s, y.queues, y.tracked, y.txns, reqQ);
    AcceptIsSuffix(s, y.txns, reqQ);
    PickFromKeeps(s, hash, now, Txns(y.owner), taken.0, y.queues, y.tracked, 0);
    PicksAffordable(s, y.queues, y.tracked, taken.0, 0);
    var picked := PickFrom(s, y.queues, y.tracked, taken.0, 0);
    var v := Converted(y.queues, y.tracked, y.owner, true);
    ConvertAllKeeps(s, hash, now, v, picked.picks, picked.q);
    StepResults(s, y, arrivals, taken.0, ConvertAll(s, v, picked.picks), picked);
  }

  lemma ShapeParts(s: Setup, y: System, arrivals: seq<Txn>)
    requires SystemShape(s, y) && RequestsOk(s, y.queues, y.tracked, arrivals)
    ensures QueuesOk(s, y.queues, y.tracked, y.txns) && RequestsOk(s, y.queues, y.tracked, y.reqQ + arrivals)
    ensures Wide(s, y.txns)
    ensures forall j :: 0 <= j < |y.reqQ + arrivals| ==> s.c.ChannelOf((y.reqQ + arrivals)[j].bank) < s.c.channels
  {}

  lemma {:induction false} AcceptIsSuffix(s: Setup, q: TxnQueues, reqQ: seq<Txn>)
    requires Wide(s, q) && forall j :: 0 <= j < |reqQ| ==> s.c.ChannelOf(reqQ[j].bank) < s.c.channels
    ensures var left := Accept(s, q, reqQ).1; |left| <= |reqQ| && left == reqQ[|reqQ| - |left|..]
    decreases |reqQ|
  {
    if reqQ != [] {
      var pushed := PushTxn(s, q, reqQ[0]);
      if QuickHit(s, q, reqQ[0]) { AcceptIsSuffix(s, q, reqQ[1..]); }
      else if pushed.1 { AcceptIsSuffix(s, pushed.0, reqQ[1..]); }
    }
  }

  // ---------------------------------------------------------------- whole runs

  ghost function Flat(batches: seq<seq<Txn>>): seq<Txn> {
    if batches == [] then [] else Flat(batches[..|batches| - 1]) + batches[|batches| - 1]
  }

  /** All arrivals of a run, in arrival order, have rising numbers and are hashed. */
  ghost predicate InputOk(c: Config, hash: nat -> nat, batches: seq<seq<Txn>>) {
    && (forall n :: 0 <= n < |batches| ==> ArrivalsOk(c, batches[n]) && Hashed(hash, batches[n]))
    && Rising(Flat(batches))
  }

  lemma StartHazards(s: Setup, hash: nat -> nat)
    requires s.c.Valid()
    ensures SystemHazards(s, hash, Start(s), [])
  {
    var y := Start(s);
    assert Wide(s, y.txns) && forall w, ch: nat :: ch < s.c.channels ==> LineOf(y.txns, w, ch) == [];
    assert y.owner == [] && y.reqQ == [];
    hide Start;
    EmptyHazards(s, hash, y.txns);
  }

  lemma EmptyHazards(s: Setup, hash: nat -> nat, q: TxnQueues)
    requires Wide(s, q) && forall w, ch: nat :: ch < s.c.channels ==> LineOf(q, w, ch) == []
    ensures HazardInv(s, hash, [], [], q)
  {
    forall w, ch: nat | ch < s.c.channels
      ensures LineOk(s, hash, [], LineOf(q, w, ch), w, ch) && Behind(s, [], LineOf(q, w, ch))
    {
    }
  }

  lemma {:induction false} RunHazards(s: Setup, hash: nat -> nat, batches: seq<seq<Txn>>) returns (accepted: seq<Txn>)
    requires s.c.Valid() && InputOk(s.c, hash, batches)
    ensures SystemHazards(s, hash, RunSystem(s, batches).0, accepted)
    ensures accepted + RunSystem(s, batches).0.reqQ == Flat(batches)
  {
    hide SystemHazards, ArrivalsOk, Hashed, Start, Step, SystemShape, RequestsOk;
    if batches == [] {
      accepted := [];
      StartHazards(s, hash);
      StartIsEmpty(s);
    } else {
      var n := |batches| - 1;
      var init := batches[..n];
      assert InputOk(s.c, hash, init) by { InputPrefix(s.c, hash, batches); }
      var before := RunHazards(s, hash, init);
      var y := RunSystem(s, init).0;
      ArrivalsAreRequests(s, y, batches[n]);
      assert before + y.reqQ + batches[n] == Flat(batches);
      accepted := StepHazards(s, hash, y, before, batches[n]);
    }
  }

  lemma StartIsEmpty(s: Setup)
    requires s.c.Valid()
    ensures Start(s).reqQ == []
  {}

  lemma InputPrefix(c: Config, hash: nat -> nat, batches: seq<seq<Txn>>)
    requires InputOk(c, hash, batches) && batches != []
    ensures InputOk(c, hash, batches[..|batches| - 1])
  {
    var f, g := Flat(batches[..|batches| - 1]), Flat(batches);
    assert forall i :: 0 <= i < |f| ==> f[i] == g[i];
  }

  /** The transaction a command of the trace was made for. */
  ghost function TxnOf(owner: seq<Made>, e: Event): Txn
    requires e.cmd.seqNum < |owner|
  {
    owner[e.cmd.seqNum].txn
  }

  /** Column commands of the trace serve different transactions, each its own address, bank,
      row and direction, and conflicting ones are served in order. */
  ghost predicate ServedInOrder(s: Setup, owner: seq<Made>, trace: seq<Event>) {
    && (forall n :: 0 <= n < |trace| && IsColumn(trace[n].cmd.kind) ==> Serves(owner, trace[n]))
    && (forall m, n :: 0 <= m < n < |trace| && IsColumn(trace[m].cmd.kind) && IsColumn(trace[n].cmd.kind) ==>
          && TxnOf(owner, trace[m]) != TxnOf(owner, trace[n])
          && (Conflict(s, TxnOf(owner, trace[m]), TxnOf(owner, trace[n])) ==>
                TxnOf(owner, trace[m]).seqNum < TxnOf(owner, trace[n]).seqNum))
  }

  ghost predicate Serves(owner: seq<Made>, e: Event) {
    && e.cmd.seqNum < |owner|
    && var t := owner[e.cmd.seqNum].txn;
       e.cmd.addr == t.addr && e.cmd.bank == t.bank && e.cmd.row == t.row && (e.cmd.kind == READ <==> t.isRead)
  }

  lemma PairServed(s: Setup, hash: nat -> nat, owner: seq<Made>, a: Event, b: Event, accepted: seq<Txn>)
    requires DepartedInOrder(s, Txns(owner)) && OneColumn(owner) && Rising(accepted)
    requires forall i :: 0 <= i < |owner| ==> Txns(owner)[i] in accepted
    requires a.cmd.seqNum < |owner| && b.cmd.seqNum < |owner|
    requires MadeFor(a.cmd, owner[a.cmd.seqNum]) && MadeFor(b.cmd, owner[b.cmd.seqNum])
    requires IsColumn(a.cmd.kind) && IsColumn(b.cmd.kind)
    requires a.cmd.bank == b.cmd.bank ==> a.cmd.seqNum < b.cmd.seqNum
    requires Hashed(hash, accepted)
    ensures TxnOf(owner, a) != TxnOf(owner, b)
    ensures Conflict(s, TxnOf(owner, a), TxnOf(owner, b)) ==> TxnOf(owner, a).seqNum < TxnOf(owner, b).seqNum
  {
    var t, u := TxnOf(owner, a), TxnOf(owner, b);
    assert t == Txns(owner)[a.cmd.seqNum] && u == Txns(owner)[b.cmd.seqNum];
    assert t != u;
    DifferentNumbers(accepted, t, u);
  }

  lemma TraceServed(s: Setup, hash: nat -> nat, inputQ: seq<Command>, trace: seq<Event>, k: Backlog, accepted: seq<Txn>)
    requires OriginsOk(inputQ, trace, k) && SameBankInOrder(trace)
    requires DepartedInOrder(s, Txns(k.owner)) && OneColumn(k.owner) && Rising(accepted) && Hashed(hash, accepted)
    requires forall i :: 0 <= i < |k.owner| ==> Txns(k.owner)[i] in accepted
    ensures ServedInOrder(s, k.owner, trace)
  {
    assert forall n :: 0 <= n < |trace| ==> Known(trace[n].cmd, k);
    hide DepartedInOrder, Rising, Hashed, OriginsOk, Txns;
    forall m, n | 0 <= m < n < |trace| && IsColumn(trace[m].cmd.kind) && IsColumn(trace[n].cmd.kind)
      ensures TxnOf(k.owner, trace[m]) != TxnOf(k.owner, trace[n])
      ensures Conflict(s, TxnOf(k.owner, trace[m]), TxnOf(k.owner, trace[n])) ==>
                TxnOf(k.owner, trace[m]).seqNum < TxnOf(k.owner, trace[n]).seqNum
    {
      PairServed(s, hash, k.owner, trace[m], trace[n], accepted);
    }
  }

  /** In every run: each column command serves an accepted transaction, no transaction is served
      twice, and conflicting transactions are served in the order of their arrival. */
  lemma RunsServeInOrder(s: Setup, hash: nat -> nat, batches: seq<seq<Txn>>)
    requires s.c.Valid() && InputOk(s.c, hash, batches)
    ensures var y := RunSystem(s, batches).0; ServedInOrder(s, y.owner, y.d.trace)
    ensures forall i :: 0 <= i < |RunSystem(s, batches).0.owner| ==>
      RunSystem(s, batches).0.owner[i].txn in Flat(batches)
  {
    hide RunSystem, Flat, InputOk, SystemInv, SystemHazards, ServedInOrder, PairwiseSafe, RowSafe, FawSafe,
      SameBankInOrder;
    InputArrives(s.c, hash, batches);
    var accepted := RunHazards(s, hash, batches);
    RunInv(s, batches);
    RunsAreSafe(s, batches);
    StateServed(s, hash, RunSystem(s, batches).0, accepted);
    assert forall t :: t in accepted ==> t in accepted + RunSystem(s, batches).0.reqQ;
  }

  lemma InputArrives(c: Config, hash: nat -> nat, batches: seq<seq<Txn>>)
    requires InputOk(c, hash, batches)
    ensures forall n :: 0 <= n < |batches| ==> ArrivalsOk(c, batches[n])
  {}

  lemma StateServed(s: Setup, hash: nat -> nat, y: System, accepted: seq<Txn>)
    requires SystemInv(s, y) && SystemHazards(s, hash, y, accepted) && SameBankInOrder(y.d.trace)
    ensures ServedInOrder(s, y.owner, y.d.trace) && forall i :: 0 <= i < |y.owner| ==> y.owner[i].txn in accepted
  {
    hide SystemShape, Shape, SpacingInv, FawInv, RowSafe, BankFlow, OneColumn, DepartedInOrder, Rising, Hashed,
      LinesOk, AllBehind;
    TraceServed(s, hash, y.d.inputQ, y.d.trace, SystemBacklog(y), accepted);
    assert forall i :: 0 <= i < |y.owner| ==> y.owner[i].txn == Txns(y.owner)[i];
  }
}
