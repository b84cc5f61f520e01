/** The invariant of the response queue in the stepped controller: each entry knows exactly the
    numbers given to its transaction, and the stage of a transaction agrees with where the
    scheduler, the converter and the device have it. */
module ServiceSafety {
  import opened Sequences
  import opened Dram
  import opened ControllerModel
  import opened Service
  import H = Hazards
  import R = Responses

  ghost function KeysOf(q: seq<Entry>): (r: seq<R.Key>)
    ensures |r| == |q|
  {
    seq(|q|, i requires 0 <= i < |q| => R.Key(q[i].txn, q[i].copy, q[i].ready))
  }

  ghost function BookOf(quick: bool, d: Desk): R.Book { R.Book(quick, d.stage, KeysOf(d.resQ), d.sent) }

  /** A transaction's entry lists exactly its command numbers and waits for one of them. */
  ghost predicate EntryOk(e: Entry, owner: seq<Made>, stage: map<Txn, R.Stage>) {
    && e.txn in stage
    && (e.copy ==> e.cmds == [])
    && (!e.copy ==> forall n: nat :: n in e.cmds <==> n < |owner| && owner[n].txn == e.txn)
    && (!e.copy && e.cmds != [] && stage[e.txn] == R.Queued ==> e.waiting == 1)
  }

  ghost predicate EntriesOk(q: seq<Entry>, owner: seq<Made>, stage: map<Txn, R.Stage>) {
    forall i :: 0 <= i < |q| ==> EntryOk(q[i], owner, stage)
  }

  ghost predicate DeskInv(quick: bool, d: Desk, owner: seq<Made>) {
    R.Inv(BookOf(quick, d)) && EntriesOk(d.resQ, owner, d.stage)
  }

  // ---------------------------------------------------------------- stages and the scheduler

  ghost predicate AllQueued(line: seq<Txn>, stage: map<Txn, R.Stage>) {
    forall i :: 0 <= i < |line| ==> line[i] in stage && stage[line[i]] == R.Queued
  }

  ghost predicate LinesQueued(s: Setup, q: TxnQueues, stage: map<Txn, R.Stage>)
    requires H.Wide(s, q)
  {
    forall w, ch: nat :: ch < s.c.channels ==> AllQueued(LineOf(q, w, ch), stage)
  }

  /** Commands were made for queued transactions, and exactly those whose column command returned
      are completed. */
  ghost predicate OwnersOk(owner: seq<Made>, stage: map<Txn, R.Stage>, returned: set<nat>) {
    && (forall n :: 0 <= n < |owner| ==>
          owner[n].txn in stage && (stage[owner[n].txn] == R.Queued || stage[owner[n].txn] == R.Completed))
    && (forall n :: n in returned ==> n < |owner| && IsColumn(owner[n].kind) && stage[owner[n].txn] == R.Completed)
    && (forall t :: t in stage && stage[t] == R.Completed ==>
      exists n :: n in returned && n < |owner| && owner[n].txn == t)
  }

  ghost predicate RequestsWait(accepted: seq<Txn>, reqQ: seq<Txn>, stage: map<Txn, R.Stage>) {
    && (forall t :: t in stage <==> t in accepted || t in reqQ)
    && (forall t :: t in reqQ ==> stage[t] == R.Waiting)
    && (forall t :: t in accepted ==> stage[t] != R.Waiting)
  }

  // ---------------------------------------------------------------- arrivals

  lemma KeysAppend(q: seq<Entry>, e: Entry)
    ensures KeysOf(q + [e]) == KeysOf(q) + [R.Key(e.txn, e.copy, e.ready)]
  {}

  lemma ArrivedKeeps(quick: bool, d: Desk, owner: seq<Made>, t: Txn)
    requires DeskInv(quick, d, owner) && t !in d.stage && forall n :: 0 <= n < |owner| ==> owner[n].txn in d.stage
    ensures DeskInv(quick, Arrived(d, t), owner)
  {
    var d' := Arrived(d, t);
    KeysAppend(d.resQ, Entry(t, false, false, [], 0));
    R.ArriveKeeps(BookOf(quick, d), t);
    forall i | 0 <= i < |d'.resQ|
      ensures EntryOk(d'.resQ[i], owner, d'.stage)
    {
      if i < |d.resQ| { assert EntryOk(d.resQ[i], owner, d.stage); }
    }
  }

  /** The scheduler's side of an arrival. */
  lemma ArrivalLinks(s: Setup, q: TxnQueues, owner: seq<Made>, stage: map<Txn, R.Stage>, back: set<nat>,
                     accepted: seq<Txn>, reqQ: seq<Txn>, t: Txn)
    requires H.Wide(s, q) && LinesQueued(s, q, stage) && OwnersOk(owner, stage, back)
    requires RequestsWait(accepted, reqQ, stage) && t !in stage
    ensures var stage' := stage[t := R.Waiting];
      LinesQueued(s, q, stage') && OwnersOk(owner, stage', back) && RequestsWait(accepted, reqQ + [t], stage')
  {
    var stage' := stage[t := R.Waiting];
    forall w, ch: nat | ch < s.c.channels
      ensures AllQueued(LineOf(q, w, ch), stage')
    {
      assert AllQueued(LineOf(q, w, ch), stage);
    }
    forall u | u in stage' && stage'[u] == R.Completed
      ensures exists n :: n in back && n < |owner| && owner[n].txn == u
    {
      assert u in stage && stage[u] == R.Completed;
    }
    assert forall u :: u in reqQ + [t] <==> u in reqQ || u == t;
  }

  // ---------------------------------------------------------------- returns

  /** The search by number finds exactly the entry of the transaction the number was given to. */
  lemma SearchFindsItsEntry(quick: bool, d: Desk, owner: seq<Made>, n: nat)
    requires DeskInv(quick, d, owner) && n < |owner| && owner[n].txn in d.stage && d.stage[owner[n].txn] == R.Queued
    ensures var i := Find(d.resQ, n);
      i < |d.resQ| && d.resQ[i].txn == owner[n].txn && !d.resQ[i].copy && !d.resQ[i].ready && d.resQ[i].waiting == 1
  {
    var t := owner[n].txn;
    var keys := KeysOf(d.resQ);
    assert R.TxnOk(BookOf(quick, d), t);
    var j :| 0 <= j < |keys| && keys[j] == R.Key(t, false, false);
    assert EntryOk(d.resQ[j], owner, d.stage);
    var i := Find(d.resQ, n);
    assert EntryOk(d.resQ[i], owner, d.stage);
    assert keys[i] in keys;
  }

  lemma KeysMark(q: seq<Entry>, i: nat, e: Entry)
    requires i < |q| && e.txn == q[i].txn && e.copy == q[i].copy && e.ready
    ensures KeysOf(q[i := e]) == R.Marked(KeysOf(q), i)
  {}

  lemma KeysDrop(q: seq<Entry>, i: nat)
    requires i < |q|
    ensures KeysOf(R.Dropped(q, i)) == R.Dropped(KeysOf(q), i)
  {}

  lemma ReturnedKeeps(quick: bool, d: Desk, owner: seq<Made>, n: nat)
    requires DeskInv(quick, d, owner) && n < |owner| && owner[n].txn in d.stage && d.stage[owner[n].txn] == R.Queued
    ensures var r := Returned(quick, d, n);
      r.1 && DeskInv(quick, r.0, owner) && r.0.stage == d.stage[owner[n].txn := R.Completed] && r.0.sent == d.sent
  {
    hide R.Inv, EntriesOk, Find, KeysOf, EntryOk;
    SearchFindsItsEntry(quick, d, owner, n);
    var i, t := Find(d.resQ, n), owner[n].txn;
    ReturnedIs(quick, d, n, i);
    KeyAt(quick, d, i);
    R.CompleteKeeps(BookOf(quick, d), t, i);
    if R.Early(quick, t) {
      KeysDrop(d.resQ, i);
      EntriesDrop(d.resQ, owner, d.stage, t, i);
    } else {
      KeysMark(d.resQ, i, d.resQ[i].(waiting := 0, ready := true));
      EntriesMark(d.resQ, owner, d.stage, t, i);
    }
  }

  lemma KeyAt(quick: bool, d: Desk, i: nat)
    requires i < |d.resQ| && d.resQ[i].txn in d.stage && !d.resQ[i].copy && !d.resQ[i].ready
    ensures R.IsAt(BookOf(quick, d), i, d.resQ[i].txn)
  {}

  /** A return of the last command an entry waits for. */
  lemma ReturnedIs(quick: bool, d: Desk, n: nat, i: nat)
    requires i == Find(d.resQ, n) && i < |d.resQ| && d.resQ[i].waiting == 1
    ensures var e := d.resQ[i];
      var q := if R.Early(quick, e.txn) then R.Dropped(d.resQ, i) else d.resQ[i := e.(waiting := 0, ready := true)];
      Returned(quick, d, n) == (d.(resQ := q, stage := d.stage[e.txn := R.Completed]), true)
  {
    hide Find;
  }

  /** Entries do not mind that a transaction is completed. */
  lemma EntryCompleted(e: Entry, owner: seq<Made>, stage: map<Txn, R.Stage>, t: Txn)
    requires EntryOk(e, owner, stage)
    ensures EntryOk(e, owner, stage[t := R.Completed])
    ensures EntryOk(e.(waiting := 0, ready := true), owner, stage[e.txn := R.Completed])
  {}

  lemma EntriesDrop(q: seq<Entry>, owner: seq<Made>, stage: map<Txn, R.Stage>, t: Txn, i: nat)
    requires EntriesOk(q, owner, stage) && i < |q|
    ensures EntriesOk(R.Dropped(q, i), owner, stage[t := R.Completed])
  {
    hide EntryOk;
    forall k | 0 <= k < |q| - 1
      ensures EntryOk(R.Dropped(q, i)[k], owner, stage[t := R.Completed])
    {
      EntryCompleted(q[if k < i then k else k + 1], owner, stage, t);
    }
  }

  lemma EntriesMark(q: seq<Entry>, owner: seq<Made>, stage: map<Txn, R.Stage>, t: Txn, i: nat)
    requires EntriesOk(q, owner, stage) && i < |q| && q[i].txn == t
    ensures EntriesOk(q[i := q[i].(waiting := 0, ready := true)], owner, stage[t := R.Completed])
  {
    hide EntryOk;
    var q' := q[i := q[i].(waiting := 0, ready := true)];
    forall k | 0 <= k < |q'|
      ensures EntryOk(q'[k], owner, stage[t := R.Completed])
    {
      EntryCompleted(q[k], owner, stage, t);
    }
  }

  /** Transactions with commands have left the scheduler's queues. */
  ghost predicate Departed(s: Setup, q: TxnQueues, owner: seq<Made>)
    requires H.Wide(s, q)
  {
    forall w, ch: nat, i, n :: ch < s.c.channels && 0 <= i < |LineOf(q, w, ch)| && 0 <= n < |owner| ==>
      LineOf(q, w, ch)[i] != owner[n].txn
  }

  lemma ReturnLinks(s: Setup, q: TxnQueues, owner: seq<Made>, stage: map<Txn, R.Stage>, back: set<nat>,
                    accepted: seq<Txn>, reqQ: seq<Txn>, n: nat)
    requires H.Wide(s, q) && LinesQueued(s, q, stage) && OwnersOk(owner, stage, back)
    requires RequestsWait(accepted, reqQ, stage)
    requires n < |owner| && IsColumn(owner[n].kind) && owner[n].txn in stage && stage[owner[n].txn] == R.Queued
    requires Departed(s, q, owner)
    ensures var stage' := stage[owner[n].txn := R.Completed];
      LinesQueued(s, q, stage') && OwnersOk(owner, stage', back + {n}) && RequestsWait(accepted, reqQ, stage')
  {
    var t := owner[n].txn;
    var stage' := stage[t := R.Completed];
    forall w, ch: nat | ch < s.c.channels
      ensures AllQueued(LineOf(q, w, ch), stage')
    {
      assert AllQueued(LineOf(q, w, ch), stage);
      forall i | 0 <= i < |LineOf(q, w, ch)| ensures LineOf(q, w, ch)[i] != t {}
    }
    forall u | u in stage' && stage'[u] == R.Completed
      ensures exists k :: k in back + {n} && k < |owner| && owner[k].txn == u
    {
      if u == t {
        assert n in back + {n};
      } else {
        var k :| k in back && k < |owner| && owner[k].txn == u;
        assert k in back + {n};
      }
    }
  }

  /** A column number that has not returned belongs to a transaction still queued. */
  lemma UnreturnedIsQueued(owner: seq<Made>, stage: map<Txn, R.Stage>, back: set<nat>, n: nat)
    requires OwnersOk(owner, stage, back) && H.OneColumn(owner) && n < |owner| && IsColumn(owner[n].kind) && n !in back
    ensures owner[n].txn in stage && stage[owner[n].txn] == R.Queued
  {
    forall k | k in back
      ensures owner[k].txn != owner[n].txn
    {
      assert k != n && IsColumn(owner[k].kind);
    }
  }

  // ---------------------------------------------------------------- sending

  lemma {:induction false} KeysUnready(q: seq<Entry>)
    ensures KeysOf(Unready(q)) == R.Unready(KeysOf(q)) && ReadyTxns(q) == R.ReadyTxns(KeysOf(q))
  {
    if q != [] {
      KeysUnready(q[1..]);
      assert KeysOf(q)[1..] == KeysOf(q[1..]);
      KeysCons(q[0], Unready(q[1..]));
      EmptyIsUnit(Unready(q[1..]));
      EmptyIsUnit(R.Unready(KeysOf(q[1..])));
    }
  }

  lemma KeysCons(e: Entry, q: seq<Entry>)
    ensures KeysOf([e] + q) == [R.Key(e.txn, e.copy, e.ready)] + KeysOf(q)
  {}

  lemma {:induction false} UnreadyFrom(q: seq<Entry>)
    ensures forall e :: e in Unready(q) ==> e in q && !e.ready
  {
    if q != [] {
      UnreadyFrom(q[1..]);
      EmptyIsUnit(Unready(q[1..]));
    }
  }

  lemma SentKeeps(quick: bool, d: Desk, owner: seq<Made>)
    requires DeskInv(quick, d, owner)
    ensures DeskInv(quick, Sent(d), owner) && forall i :: 0 <= i < |Sent(d).resQ| ==> !Sent(d).resQ[i].ready
  {
    KeysUnready(d.resQ);
    UnreadyFrom(d.resQ);
    R.SendKeeps(BookOf(quick, d));
    hide Unready, ReadyTxns;
    var d' := Sent(d);
    forall i | 0 <= i < |d'.resQ|
      ensures EntryOk(d'.resQ[i], owner, d'.stage) && !d'.resQ[i].ready
    {
      assert d'.resQ[i] in Unready(d.resQ);
    }
  }

  // ---------------------------------------------------------------- taking requests

  lemma KeyOfIndex(q: seq<Entry>, t: Txn)
    requires R.Key(t, false, false) in KeysOf(q)
    ensures IndexOf(q, t) < |q|
  {
    var j :| 0 <= j < |q| && KeysOf(q)[j] == R.Key(t, false, false);
  }

  lemma HitKeepsDesk(quick: bool, d: Desk, owner: seq<Made>, t: Txn)
    requires DeskInv(quick, d, owner) && t in d.stage && d.stage[t] == R.Waiting && quick && t.isRead
    requires forall n :: 0 <= n < |owner| ==> owner[n].txn != t
    ensures var d' := TakenOne(quick, d, Taken(t, true));
      DeskInv(quick, d', owner) && d'.stage == d.stage[t := R.Hit] && d'.sent == d.sent
  {
    var b := BookOf(quick, d);
    assert R.TxnOk(b, t);
    KeyOfIndex(d.resQ, t);
    var i := IndexOf(d.resQ, t);
    assert KeysOf(d.resQ)[i] in KeysOf(d.resQ);
    assert R.IsAt(b, i, t);
    R.HitKeeps(b, t, i);
    KeysMark(d.resQ, i, d.resQ[i].(ready := true));
    var d' := TakenOne(quick, d, Taken(t, true));
    assert BookOf(quick, d') == R.HitRead(b, t, i);
    forall k | 0 <= k < |d'.resQ|
      ensures EntryOk(d'.resQ[k], owner, d'.stage)
    {
      assert EntryOk(d.resQ[k], owner, d.stage);
    }
  }

  lemma HasCommand(e: Entry, owner: seq<Made>, stage: map<Txn, R.Stage>)
    requires EntryOk(e, owner, stage) && !e.copy && e.cmds != []
    ensures exists n :: 0 <= n < |owner| && owner[n].txn == e.txn
  {
    var n := e.cmds[0];
    assert n in e.cmds;
  }

  lemma EnterKeepsDesk(quick: bool, d: Desk, owner: seq<Made>, t: Txn)
    requires DeskInv(quick, d, owner) && t in d.stage && d.stage[t] == R.Waiting
    requires forall n :: 0 <= n < |owner| ==> owner[n].txn != t
    ensures var d' := TakenOne(quick, d, Taken(t, false));
      DeskInv(quick, d', owner) && d'.stage == d.stage[t := R.Queued] && d'.sent == d.sent
  {
    R.EnqueueKeeps(BookOf(quick, d), t);
    KeysAppend(d.resQ, Entry(t, true, true, [], 0));
    var d' := TakenOne(quick, d, Taken(t, false));
    forall k | 0 <= k < |d'.resQ|
      ensures EntryOk(d'.resQ[k], owner, d'.stage)
    {
      if k < |d.resQ| {
        assert EntryOk(d.resQ[k], owner, d.stage);
        if !d.resQ[k].copy && d.resQ[k].cmds != [] { HasCommand(d.resQ[k], owner, d.stage); }
      }
    }
  }

  /** The head of the request queue leaves it. */
  lemma TakeLinks(owner: seq<Made>, stage: map<Txn, R.Stage>, back: set<nat>, accepted: seq<Txn>, reqQ: seq<Txn>,
                  to: R.Stage)
    requires OwnersOk(owner, stage, back) && RequestsWait(accepted, reqQ, stage) && reqQ != []
    requires (to == R.Hit || to == R.Queued)
    requires forall i, j :: 0 <= i < j < |reqQ| ==> reqQ[i] != reqQ[j]
    ensures var stage' := stage[reqQ[0] := to];
      OwnersOk(owner, stage', back) && RequestsWait(accepted + [reqQ[0]], reqQ[1..], stage')
    ensures stage[reqQ[0]] == R.Waiting && forall n :: 0 <= n < |owner| ==> owner[n].txn != reqQ[0]
  {
    var t := reqQ[0];
    var stage' := stage[t := to];
    assert t in reqQ;
    assert forall u :: u in reqQ <==> u == t || u in reqQ[1..];
    assert t !in reqQ[1..];
    assert forall u :: u in accepted + [t] <==> u in accepted || u == t;
    forall u | u in stage' && stage'[u] == R.Completed
      ensures exists n :: n in back && n < |owner| && owner[n].txn == u
    {
      assert u in stage && stage[u] == R.Completed;
    }
  }

  lemma LinesStay(s: Setup, q: TxnQueues, stage: map<Txn, R.Stage>, t: Txn, to: R.Stage)
    requires H.Wide(s, q) && LinesQueued(s, q, stage) && t in stage && stage[t] == R.Waiting
    ensures LinesQueued(s, q, stage[t := to])
  {
    forall w, ch: nat | ch < s.c.channels
      ensures AllQueued(LineOf(q, w, ch), stage[t := to])
    {
      assert AllQueued(LineOf(q, w, ch), stage);
    }
  }

  lemma LinesPush(s: Setup, q: TxnQueues, stage: map<Txn, R.Stage>, t: Txn)
    requires H.Wide(s, q) && LinesQueued(s, q, stage) && t in stage && stage[t] == R.Queued
    requires s.c.ChannelOf(t.bank) < s.c.channels && PushTxn(s, q, t).1
    ensures H.Wide(s, PushTxn(s, q, t).0) && LinesQueued(s, PushTxn(s, q, t).0, stage)
  {
    var q' := PushTxn(s, q, t).0;
    forall w, ch: nat | ch < s.c.channels
      ensures AllQueued(LineOf(q', w, ch), stage)
    {
      assert AllQueued(LineOf(q, w, ch), stage);
    }
  }

  /** What the desk and the scheduler agree on. */
  ghost predicate Agree(s: Setup, d: Desk, q: TxnQueues, owner: seq<Made>, back: set<nat>, accepted: seq<Txn>,
                        reqQ: seq<Txn>) {
    && DeskInv(s.quick, d, owner) && H.Wide(s, q) && LinesQueued(s, q, d.stage)
    && OwnersOk(owner, d.stage, back) && RequestsWait(accepted, reqQ, d.stage)
  }

  /** Taking requests: the log is what leaves the request queue, and both sides move together. */
  lemma {:induction false} TakenKeeps(s: Setup, d: Desk, q: TxnQueues, owner: seq<Made>, back: set<nat>,
                                      accepted: seq<Txn>, reqQ: seq<Txn>)
    returns (now: seq<Txn>)
    requires Agree(s, d, q, owner, back, accepted, reqQ)
    requires forall j :: 0 <= j < |reqQ| ==> s.c.ChannelOf(reqQ[j].bank) < s.c.channels
    requires forall i, j :: 0 <= i < j < |reqQ| ==> reqQ[i] != reqQ[j]
    ensures var d' := TakenAll(s.quick, d, AcceptLog(s, q, reqQ));
      && Agree(s, d', Accept(s, q, reqQ).0, owner, back, now, Accept(s, q, reqQ).1) && d'.sent == d.sent
      && (forall t :: t in d.stage && d.stage[t] == R.Completed ==> t in d'.stage && d'.stage[t] == R.Completed)
      && (forall t :: t in d'.stage && d'.stage[t] == R.Completed ==> t in d.stage && d.stage[t] == R.Completed)
    ensures now + Accept(s, q, reqQ).1 == accepted + reqQ
    decreases |reqQ|
  {
    now := accepted;
    hide DeskInv, TakenOne, OwnersOk, LinesQueued;
    if reqQ != [] {
      var t, rest := reqQ[0], reqQ[1..];
      assert accepted + [t] + rest == accepted + reqQ;
      if QuickHit(s, q, t) {
        TakeLinks(owner, d.stage, back, accepted, reqQ, R.Hit);
        HitKeepsDesk(s.quick, d, owner, t);
        LinesStay(s, q, d.stage, t, R.Hit);
        var log := AcceptLog(s, q, rest);
        assert ([Taken(t, true)] + log)[1..] == log;
        now := TakenKeeps(s, TakenOne(s.quick, d, Taken(t, true)), q, owner, back, accepted + [t], rest);
      } else if PushTxn(s, q, t).1 {
        TakeLinks(owner, d.stage, back, accepted, reqQ, R.Queued);
        EnterKeepsDesk(s.quick, d, owner, t);
        LinesStay(s, q, d.stage, t, R.Queued);
        LinesPush(s, q, d.stage[t := R.Queued], t);
        var log := AcceptLog(s, PushTxn(s, q, t).0, rest);
        assert ([Taken(t, false)] + log)[1..] == log;
        now := TakenKeeps(s, TakenOne(s.quick, d, Taken(t, false)), PushTxn(s, q, t).0, owner, back, accepted + [t],
                          rest);
      }
    }
  }

  // ---------------------------------------------------------------- numbering commands

  lemma {:induction false} PicksQueued(s: Setup, queues: seq<seq<Command>>, tracked: seq<Tracked>, q: TxnQueues,
                                       ch: nat, stage: map<Txn, R.Stage>)
    requires QueuesOk(s, queues, tracked, q) && ch <= s.c.channels && H.Wide(s, q) && LinesQueued(s, q, stage)
    ensures var r := PickFrom(s, queues, tracked, q, ch);
      H.Wide(s, r.q) && LinesQueued(s, r.q, stage) && AllQueued(r.picks, stage)
    decreases s.c.channels - ch
  {
    hide QueuesOk, PickChannel, LinesQueued;
    if ch < s.c.channels {
      PickChannelOk(s, queues, tracked, q, ch);
      PickQueued(s, queues, tracked, q, ch, stage);
      PicksQueued(s, queues, tracked, PickChannel(s, queues, tracked, q, ch).q, ch + 1, stage);
    }
  }

  lemma TakeQueued(s: Setup, q: TxnQueues, w: Line, ch: nat, i: nat, stage: map<Txn, R.Stage>)
    requires H.Wide(s, q) && LinesQueued(s, q, stage) && ch < s.c.channels && i < |LineOf(q, w, ch)|
    ensures var q' := WithLine(q, w, ch, Without(LineOf(q, w, ch), i)); H.Wide(s, q') && LinesQueued(s, q', stage)
    ensures AllQueued([LineOf(q, w, ch)[i]], stage)
  {
    var line := LineOf(q, w, ch);
    var q' := WithLine(q, w, ch, Without(line, i));
    H.LineChanged(q, w, ch, Without(line, i), w, ch);
    assert AllQueued(line, stage);
    forall w', c: nat | c < s.c.channels
      ensures AllQueued(LineOf(q', w', c), stage)
    {
      assert AllQueued(LineOf(q, w', c), stage);
      H.LineChanged(q, w, ch, Without(line, i), w', c);
    }
  }

  lemma FlushQueued(s: Setup, q: TxnQueues, ch: nat, stage: map<Txn, R.Stage>)
    requires H.Wide(s, q) && LinesQueued(s, q, stage) && ch < s.c.channels
    ensures H.Wide(s, Flushed(s, q, ch)) && LinesQueued(s, Flushed(s, q, ch), stage)
  {
    var q1 := Flushed(s, q, ch);
    forall w, c: nat | c < s.c.channels
      ensures AllQueued(LineOf(q1, w, c), stage)
    {
      assert AllQueued(LineOf(q, w, c), stage);
    }
  }

  lemma PickQueued(s: Setup, queues: seq<seq<Command>>, tracked: seq<Tracked>, q: TxnQueues, ch: nat,
                   stage: map<Txn, R.Stage>)
    requires QueuesOk(s, queues, tracked, q) && ch < s.c.channels && H.Wide(s, q) && LinesQueued(s, q, stage)
    ensures var r := PickChannel(s, queues, tracked, q, ch);
      H.Wide(s, r.q) && LinesQueued(s, r.q, stage) && AllQueued(r.picks, stage)
  {
    hide LinesQueued, WithLine, Flushed, Selection;
    FlushQueued(s, q, ch, stage);
    var q1 := Flushed(s, q, ch);
    FlushOk(s, queues, tracked, q, ch);
    match Selection(s, queues, tracked, q1, ch)
    case Some((w, i)) => TakeQueued(s, q1, w, ch, i, stage);
    case None =>
  }

  lemma FlushOk(s: Setup, queues: seq<seq<Command>>, tracked: seq<Tracked>, q: TxnQueues, ch: nat)
    requires QueuesOk(s, queues, tracked, q) && ch < s.c.channels
    ensures QueuesOk(s, queues, tracked, Flushed(s, q, ch))
  {}

  /** New numbers go to the picked transactions. */
  lemma {:induction false} NewOwnersQueued(s: Setup, v: Converted, picks: seq<Txn>, stage: map<Txn, R.Stage>)
    requires forall i :: 0 <= i < |picks| ==> picks[i].bank < |v.queues| && picks[i].bank < |v.tracked|
    requires AllQueued(picks, stage)
    ensures v.owner <= ConvertAll(s, v, picks).owner
    ensures forall n :: |v.owner| <= n < |ConvertAll(s, v, picks).owner| ==>
      ConvertAll(s, v, picks).owner[n].txn in stage && stage[ConvertAll(s, v, picks).owner[n].txn] == R.Queued
    decreases |picks|
  {
    if picks != [] {
      var v' := ConvertOne(s, v, picks[0]);
      assert v.owner <= v'.owner && forall n :: |v.owner| <= n < |v'.owner| ==> v'.owner[n].txn == picks[0];
      assert |v'.queues| == |v.queues| && |v'.tracked| == |v.tracked|;
      hide ConvertOne;
      NewOwnersQueued(s, v', picks[1..], stage);
    }
  }

  lemma RecordedKeeps(quick: bool, d: Desk, owner: seq<Made>, owner': seq<Made>)
    requires DeskInv(quick, d, owner) && owner <= owner'
    ensures DeskInv(quick, Recorded(d, owner', |owner|), owner')
  {
    var d' := Recorded(d, owner', |owner|);
    assert KeysOf(d'.resQ) == KeysOf(d.resQ);
    forall i | 0 <= i < |d'.resQ|
      ensures EntryOk(d'.resQ[i], owner', d'.stage)
    {
      EntryRecorded(d.resQ[i], owner, owner', d.stage);
    }
  }

  lemma EntryRecorded(e: Entry, owner: seq<Made>, owner': seq<Made>, stage: map<Txn, R.Stage>)
    requires EntryOk(e, owner, stage) && owner <= owner'
    ensures EntryOk(RecordedOne(e, owner', |owner|), owner', stage)
  {
    var ns := Numbers(owner', |owner|, e.txn);
    var e' := RecordedOne(e, owner', |owner|);
    hide Numbers;
    if !e.copy {
      forall n: nat
        ensures n in e'.cmds <==> n < |owner'| && owner'[n].txn == e.txn
      {
        assert n in e'.cmds <==> n in e.cmds || n in ns;
        if n < |owner| { assert owner'[n] == owner[n]; }
      }
    }
  }

  lemma OwnersMore(owner: seq<Made>, owner': seq<Made>, stage: map<Txn, R.Stage>, back: set<nat>)
    requires OwnersOk(owner, stage, back) && owner <= owner'
    requires forall n :: |owner| <= n < |owner'| ==> owner'[n].txn in stage && stage[owner'[n].txn] == R.Queued
    ensures OwnersOk(owner', stage, back)
  {
    assert forall n :: 0 <= n < |owner| ==> owner'[n] == owner[n];
    forall t | t in stage && stage[t] == R.Completed
      ensures exists n :: n in back && n < |owner'| && owner'[n].txn == t
    {
      var n :| n in back && n < |owner| && owner[n].txn == t;
      assert owner'[n].txn == t;
    }
  }
}
