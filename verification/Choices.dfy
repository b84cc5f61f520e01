/** Which transaction the scheduler takes: under first-ready the first one that needs no row command
    now, else the last ready one; under read-first from the queue the pending counts call for. */
module Choices {
  import opened Options
  import opened Dram
  import opened ControllerModel

  // ---------------------------------------------------------------- one queue

  /** Converted now, the transaction gets its column command first. */
  ghost predicate NeedsNoRow(s: Setup, tracked: seq<Tracked>, x: Txn)
    requires x.bank < |tracked|
  {
    IsColumn(KindsFor(s.policy, tracked[x.bank], x)[0])
  }

  /** Under the close-page policy the converter takes every bank to be closed. */
  ghost predicate TrackedFits(policy: Policy, tracked: seq<Tracked>) {
    policy.ClosePage? ==> forall b :: 0 <= b < |tracked| ==> !tracked[b].open
  }

  ghost predicate LineFits(queues: seq<seq<Command>>, tracked: seq<Tracked>, line: seq<Txn>) {
    forall j :: 0 <= j < |line| ==> line[j].bank < |queues| && line[j].bank < |tracked|
  }

  /** Entry `i` is ready and needs no row command. */
  ghost predicate IsFree(s: Setup, queues: seq<seq<Command>>, tracked: seq<Tracked>, q: TxnQueues, ch: nat,
                         line: seq<Txn>, i: nat)
    requires ch < |q.allQ| && ch < |q.readQ| && ch < |q.writeQ| && LineFits(queues, tracked, line) && i < |line|
  {
    Ready(s, queues, q, ch, line[i]) && NeedsNoRow(s, tracked, line[i])
  }

  /** The choice `r` from `line`: without first-ready the head, if it is ready; with it the first
      ready entry that needs no row command, or without any such the last ready entry. */
  ghost predicate IsBest(s: Setup, queues: seq<seq<Command>>, tracked: seq<Tracked>, q: TxnQueues, ch: nat,
                         line: seq<Txn>, r: Option<nat>)
    requires ch < |q.allQ| && ch < |q.readQ| && ch < |q.writeQ| && LineFits(queues, tracked, line)
  {
    match r
    case None =>
      if s.firstReady then forall j :: 0 <= j < |line| ==> !Ready(s, queues, q, ch, line[j])
      else line == [] || !Ready(s, queues, q, ch, line[0])
    case Some(i) =>
      && i < |line| && Ready(s, queues, q, ch, line[i])
      && (!s.firstReady ==> i == 0)
      && (s.firstReady && NeedsNoRow(s, tracked, line[i]) ==>
            forall j :: 0 <= j < i ==> !IsFree(s, queues, tracked, q, ch, line, j))
      && (s.firstReady && !NeedsNoRow(s, tracked, line[i]) ==>
            && (forall j :: 0 <= j < |line| ==> !IsFree(s, queues, tracked, q, ch, line, j))
            && (forall j :: i < j < |line| ==> !Ready(s, queues, q, ch, line[j])))
  }

  /** A row hit is a transaction that needs no row command. */
  lemma HitNeedsNoRow(s: Setup, tracked: seq<Tracked>, x: Txn)
    requires x.bank < |tracked| && TrackedFits(s.policy, tracked)
    ensures RowHit(tracked, x) <==> NeedsNoRow(s, tracked, x)
  {}

  /** The best so far, before entry `i` is looked at: nothing free yet, and the last ready one. */
  ghost predicate SoFar(s: Setup, queues: seq<seq<Command>>, tracked: seq<Tracked>, q: TxnQueues, ch: nat,
                        line: seq<Txn>, i: nat, best: Option<nat>)
    requires ch < |q.allQ| && ch < |q.readQ| && ch < |q.writeQ| && LineFits(queues, tracked, line) && i <= |line|
  {
    && (forall j :: 0 <= j < i ==> !IsFree(s, queues, tracked, q, ch, line, j))
    && match best
       case None => forall j :: 0 <= j < i ==> !Ready(s, queues, q, ch, line[j])
       case Some(b) =>
         && b < i && Ready(s, queues, q, ch, line[b])
         && forall j :: b < j < i ==> !Ready(s, queues, q, ch, line[j])
  }

  lemma {:induction false} ScanIsBest(s: Setup, queues: seq<seq<Command>>, tracked: seq<Tracked>, q: TxnQueues, ch: nat,
                                      line: seq<Txn>, i: nat, best: Option<nat>)
    requires ch < |q.allQ| && ch < |q.readQ| && ch < |q.writeQ| && LineFits(queues, tracked, line) && i <= |line|
    requires s.firstReady && TrackedFits(s.policy, tracked) && SoFar(s, queues, tracked, q, ch, line, i, best)
    ensures IsBest(s, queues, tracked, q, ch, line, Scan(s, queues, tracked, q, ch, line, i, best))
    decreases |line| - i
  {
    hide Ready, NeedsNoRow, RowHit, TrackedFits;
    if i < |line| {
      HitNeedsNoRow(s, tracked, line[i]);
      if !Ready(s, queues, q, ch, line[i]) {
        ScanIsBest(s, queues, tracked, q, ch, line, i + 1, best);
      } else if !RowHit(tracked, line[i]) {
        ScanIsBest(s, queues, tracked, q, ch, line, i + 1, Some(i));
      }
    } else if best.Some? {
      assert !IsFree(s, queues, tracked, q, ch, line, best.value);
    }
  }

  /** What getNextTxn chooses. */
  lemma ChoiceIsBest(s: Setup, queues: seq<seq<Command>>, tracked: seq<Tracked>, q: TxnQueues, ch: nat, line: seq<Txn>)
    requires ch < |q.allQ| && ch < |q.readQ| && ch < |q.writeQ| && LineFits(queues, tracked, line)
    requires TrackedFits(s.policy, tracked)
    ensures IsBest(s, queues, tracked, q, ch, line, Choose(s, queues, tracked, q, ch, line))
  {
    hide Ready, NeedsNoRow, TrackedFits, Scan;
    if line != [] && s.firstReady { ScanIsBest(s, queues, tracked, q, ch, line, 0, None); }
  }

  // ---------------------------------------------------------------- one channel

  /** Whether a channel looks at its writes first: the write queue is full enough or there are no
      reads, and then until it is drained below the lower mark. */
  ghost predicate WritesFirst(s: Setup, q: TxnQueues, ch: nat)
    requires ch < |q.readQ| && ch < |q.writeQ|
  {
    || |q.writeQ[ch]| >= s.maxPendingWrite
    || |q.readQ[ch]| == 0
    || (|q.writeQ[ch]| >= s.minPendingWrite && q.flush)
  }

  ghost function FirstLine(s: Setup, q: TxnQueues, ch: nat): Line
    requires ch < |q.readQ| && ch < |q.writeQ|
  {
    if !s.readFirst then AllLine else if WritesFirst(s, q, ch) then WriteLine else ReadLine
  }

  ghost function OtherLine(s: Setup, w: Line): Line {
    if !s.readFirst then AllLine else if w == WriteLine then ReadLine else WriteLine
  }

  /** Readiness does not look at the flush flag. */
  lemma BestWithoutFlag(s: Setup, queues: seq<seq<Command>>, tracked: seq<Tracked>, q: TxnQueues, flush: bool, ch: nat,
                        line: seq<Txn>, r: Option<nat>)
    requires ch < |q.allQ| && ch < |q.readQ| && ch < |q.writeQ| && LineFits(queues, tracked, line)
    ensures IsBest(s, queues, tracked, q.(flush := flush), ch, line, r) <==> IsBest(s, queues, tracked, q, ch, line, r)
  {
    hide NeedsNoRow, Token, HasDependency;
    assert forall x: Txn :: x.bank < |queues| ==>
      Ready(s, queues, q.(flush := flush), ch, x) == Ready(s, queues, q, ch, x);
    assert forall j :: 0 <= j < |line| ==>
      IsFree(s, queues, tracked, q.(flush := flush), ch, line, j) == IsFree(s, queues, tracked, q, ch, line, j);
    hide Ready, IsFree;
  }

  /** The pick of a channel: the best of the queue it looks at first, or if that has nothing ready,
      the best of the other; the picked entry is gone and all else stays. */
  ghost predicate PicksBest(s: Setup, queues: seq<seq<Command>>, tracked: seq<Tracked>, q: TxnQueues, ch: nat,
                            r: Picked)
    requires QueuesOk(s, queues, tracked, q) && ch < s.c.channels
  {
    LinesFit(s, queues, tracked, q, ch);
    var w := FirstLine(s, q, ch);
    var flushed := if s.readFirst then q.(flush := WritesFirst(s, q, ch)) else q;
    if IsBest(s, queues, tracked, q, ch, LineOf(q, w, ch), None) then
      || PicksFrom(s, queues, tracked, q, ch, OtherLine(s, w), flushed, r)
      || (IsBest(s, queues, tracked, q, ch, LineOf(q, OtherLine(s, w), ch), None) && r == Picked(flushed, []))
    else PicksFrom(s, queues, tracked, q, ch, w, flushed, r)
  }

  ghost predicate PicksFrom(s: Setup, queues: seq<seq<Command>>, tracked: seq<Tracked>, q: TxnQueues, ch: nat, w: Line,
                            flushed: TxnQueues, r: Picked)
    requires QueuesOk(s, queues, tracked, q) && ch < s.c.channels && LineFits(queues, tracked, LineOf(q, w, ch))
    requires |flushed.allQ| == |flushed.readQ| == |flushed.writeQ| == s.c.channels
  {
    exists i: nat ::
      && IsBest(s, queues, tracked, q, ch, LineOf(q, w, ch), Some(i)) && r.picks == [LineOf(q, w, ch)[i]]
      && r.q == WithLine(flushed, w, ch, LineOf(q, w, ch)[..i] + LineOf(q, w, ch)[i + 1..])
  }

  lemma LinesFit(s: Setup, queues: seq<seq<Command>>, tracked: seq<Tracked>, q: TxnQueues, ch: nat)
    requires QueuesOk(s, queues, tracked, q) && ch < s.c.channels
    ensures forall w :: LineFits(queues, tracked, LineOf(q, w, ch))
  {
    assert TxnsOk(s, queues, tracked, q.allQ[ch], ch);
  }

  lemma FlushedIs(s: Setup, q: TxnQueues, ch: nat)
    requires ch < |q.readQ| && ch < |q.writeQ|
    ensures Flushed(s, q, ch) == if s.readFirst then q.(flush := WritesFirst(s, q, ch)) else q
  {}

  /** A choice is best, and only one is. */
  lemma BestIsChosen(s: Setup, queues: seq<seq<Command>>, tracked: seq<Tracked>, q: TxnQueues, ch: nat, line: seq<Txn>)
    requires ch < |q.allQ| && ch < |q.readQ| && ch < |q.writeQ| && LineFits(queues, tracked, line)
    requires TrackedFits(s.policy, tracked)
    ensures IsBest(s, queues, tracked, q, ch, line, Choose(s, queues, tracked, q, ch, line))
    ensures Choose(s, queues, tracked, q, ch, line).Some? ==> !IsBest(s, queues, tracked, q, ch, line, None)
  {
    hide Ready, NeedsNoRow, TrackedFits, Choose;
    ChoiceIsBest(s, queues, tracked, q, ch, line);
    var r := Choose(s, queues, tracked, q, ch, line);
    if r.Some? { assert Ready(s, queues, q, ch, line[r.value]); }
  }

  /** What a channel picks, by its choices from the two lines. */
  lemma PickIs(s: Setup, queues: seq<seq<Command>>, tracked: seq<Tracked>, q: TxnQueues, ch: nat, q1: TxnQueues,
               w: Line,
               o: Line, a: Option<nat>, b: Option<nat>)
    requires QueuesOk(s, queues, tracked, q) && ch < s.c.channels && q1 == Flushed(s, q, ch)
    requires QueuesOk(s, queues, tracked, q1) && forall l :: LineFits(queues, tracked, LineOf(q1, l, ch))
    requires w == FirstLine(s, q, ch) && o == OtherLine(s, w)
    requires a == Choose(s, queues, tracked, q1, ch, LineOf(q1, w, ch))
    requires b == Choose(s, queues, tracked, q1, ch, LineOf(q1, o, ch))
    ensures PickChannel(s, queues, tracked, q, ch) ==
      match a
      case Some(i) => Picked(WithLine(q1, w, ch, Without(LineOf(q1, w, ch), i)), [LineOf(q1, w, ch)[i]])
      case None =>
        match b
        case Some(i) => Picked(WithLine(q1, o, ch, Without(LineOf(q1, o, ch), i)), [LineOf(q1, o, ch)[i]])
        case None => Picked(q1, [])
  {
    hide Choose, WithLine, LineFits, Without;
    FlushedIs(s, q, ch);
  }

  lemma ChannelPicksBest(s: Setup, queues: seq<seq<Command>>, tracked: seq<Tracked>, q: TxnQueues, ch: nat)
    requires QueuesOk(s, queues, tracked, q) && ch < s.c.channels && TrackedFits(s.policy, tracked)
    ensures PicksBest(s, queues, tracked, q, ch, PickChannel(s, queues, tracked, q, ch))
  {
    hide IsBest, Choose, TrackedFits, QueuesOk, WithLine, Flushed, PickChannel, LineOf, FirstLine, OtherLine;
    WideOf(s, queues, tracked, q);
    LinesFit(s, queues, tracked, q, ch);
    FlushedIs(s, q, ch);
    FlushKeepsLines(s, queues, tracked, q, ch);
    var q1, w := Flushed(s, q, ch), FirstLine(s, q, ch);
    var o := OtherLine(s, w);
    var a := Choose(s, queues, tracked, q1, ch, LineOf(q1, w, ch));
    var b := Choose(s, queues, tracked, q1, ch, LineOf(q1, o, ch));
    PickIs(s, queues, tracked, q, ch, q1, w, o, a, b);
    ChosenFor(s, queues, tracked, q, q1.flush, ch, LineOf(q, w, ch));
    ChosenFor(s, queues, tracked, q, q1.flush, ch, LineOf(q, o, ch));
  }

  lemma ChosenFor(s: Setup, queues: seq<seq<Command>>, tracked: seq<Tracked>, q: TxnQueues, flush: bool, ch: nat,
                  line: seq<Txn>)
    requires ch < |q.allQ| && ch < |q.readQ| && ch < |q.writeQ| && LineFits(queues, tracked, line)
    requires TrackedFits(s.policy, tracked)
    ensures var r := Choose(s, queues, tracked, q.(flush := flush), ch, line);
      IsBest(s, queues, tracked, q, ch, line, r) && (r.Some? ==> !IsBest(s, queues, tracked, q, ch, line, None))
  {
    hide IsBest, Choose, TrackedFits;
    var r := Choose(s, queues, tracked, q.(flush := flush), ch, line);
    BestIsChosen(s, queues, tracked, q.(flush := flush), ch, line);
    BestWithoutFlag(s, queues, tracked, q, flush, ch, line, r);
    BestWithoutFlag(s, queues, tracked, q, flush, ch, line, None);
  }

  lemma WideOf(s: Setup, queues: seq<seq<Command>>, tracked: seq<Tracked>, q: TxnQueues)
    requires QueuesOk(s, queues, tracked, q)
    ensures |q.allQ| == |q.readQ| == |q.writeQ| == s.c.channels
  {}

  lemma FlushKeepsLines(s: Setup, queues: seq<seq<Command>>, tracked: seq<Tracked>, q: TxnQueues, ch: nat)
    requires QueuesOk(s, queues, tracked, q) && ch < s.c.channels
    ensures QueuesOk(s, queues, tracked, Flushed(s, q, ch))
    ensures Flushed(s, q, ch) == q.(flush := Flushed(s, q, ch).flush)
    ensures forall w :: LineOf(Flushed(s, q, ch), w, ch) == LineOf(q, w, ch)
  {}

  /** The picks of channels `ch` and up, each the best of its channel. */
  ghost predicate AllPickBest(s: Setup, queues: seq<seq<Command>>, tracked: seq<Tracked>, q: TxnQueues, ch: nat,
                              r: Picked)
    requires QueuesOk(s, queues, tracked, q) && ch <= s.c.channels
    decreases s.c.channels - ch
  {
    if ch == s.c.channels then r == Picked(q, [])
    else
      exists here: Picked, rest: Picked ::
        && PicksBest(s, queues, tracked, q, ch, here) && QueuesOk(s, queues, tracked, here.q)
        && AllPickBest(s, queues, tracked, here.q, ch + 1, rest)
        && r == Picked(rest.q, here.picks + rest.picks)
  }

  lemma {:induction false} PicksAreBest(s: Setup, queues: seq<seq<Command>>, tracked: seq<Tracked>, q: TxnQueues,
                                        ch: nat)
    requires QueuesOk(s, queues, tracked, q) && ch <= s.c.channels && TrackedFits(s.policy, tracked)
    ensures AllPickBest(s, queues, tracked, q, ch, PickFrom(s, queues, tracked, q, ch))
    decreases s.c.channels - ch
  {
    hide QueuesOk, PickChannel, PicksBest, TrackedFits, AllPickBest;
    if ch == s.c.channels {
      NoPicks(s, queues, tracked, q);
    } else {
      PickChannelOk(s, queues, tracked, q, ch);
      ChannelPicksBest(s, queues, tracked, q, ch);
      var here := PickChannel(s, queues, tracked, q, ch);
      PicksAreBest(s, queues, tracked, here.q, ch + 1);
      MorePicks(s, queues, tracked, q, ch, here, PickFrom(s, queues, tracked, here.q, ch + 1));
    }
  }

  lemma NoPicks(s: Setup, queues: seq<seq<Command>>, tracked: seq<Tracked>, q: TxnQueues)
    requires QueuesOk(s, queues, tracked, q)
    ensures AllPickBest(s, queues, tracked, q, s.c.channels, Picked(q, []))
  {}

  lemma MorePicks(s: Setup, queues: seq<seq<Command>>, tracked: seq<Tracked>, q: TxnQueues, ch: nat, here: Picked,
                  rest: Picked)
    requires QueuesOk(s, queues, tracked, q) && ch < s.c.channels && QueuesOk(s, queues, tracked, here.q)
    requires PicksBest(s, queues, tracked, q, ch, here) && AllPickBest(s, queues, tracked, here.q, ch + 1, rest)
    ensures AllPickBest(s, queues, tracked, q, ch, Picked(rest.q, here.picks + rest.picks))
  {
    hide QueuesOk, PicksBest;
  }

  // ---------------------------------------------------------------- the tracked rows

  lemma {:induction false} ConvertKeepsFit(s: Setup, v: Converted, picks: seq<Txn>)
    requires forall i :: 0 <= i < |picks| ==> picks[i].bank < |v.queues| && picks[i].bank < |v.tracked|
    requires TrackedFits(s.policy, v.tracked)
    ensures TrackedFits(s.policy, ConvertAll(s, v, picks).tracked)
    decreases |picks|
  {
    if picks != [] {
      var v' := ConvertOne(s, v, picks[0]);
      assert TrackedFits(s.policy, v'.tracked) && |v'.queues| == |v.queues| && |v'.tracked| == |v.tracked|;
      hide ConvertOne, TrackedFits;
      ConvertKeepsFit(s, v', picks[1..]);
    }
  }

  lemma AgedKeepsFit(policy: Policy, tracked: seq<Tracked>)
    requires TrackedFits(policy, tracked)
    ensures TrackedFits(policy, Aged(policy, tracked))
  {}
}
