/** The response queue object: entries in the order of arrival, searched by command number, each
    method proved against the queue as a value. */
module ReplyDesks {
  import opened Dram
  import opened ControllerModel
  import opened Service
  import B = BankModel
  import R = Responses

  /** The search's outcome is determined by where it stops. */
  lemma FindIs(q: seq<Entry>, n: nat, i: nat)
    requires i <= |q| && (forall k :: 0 <= k < i ==> n !in q[k].cmds) && (i < |q| ==> n in q[i].cmds)
    ensures Find(q, n) == i
  {}

  lemma IndexIs(q: seq<Entry>, t: Txn, i: nat)
    requires i <= |q| && (forall k :: 0 <= k < i ==> q[k].txn != t || q[k].copy)
    requires (i < |q| ==> q[i].txn == t && !q[i].copy)
    ensures IndexOf(q, t) == i
  {}

  /** What entry `i` adds to what is kept and what is sent. */
  lemma SendOne(q: seq<Entry>, i: nat)
    requires i < |q|
    ensures q[i].ready ==>
      Unready(q[i..]) == Unready(q[i + 1..]) && ReadyTxns(q[i..]) == [q[i].txn] + ReadyTxns(q[i + 1..])
    ensures !q[i].ready ==>
      q[..i] + Unready(q[i..]) == q[..i + 1] + Unready(q[i + 1..]) && ReadyTxns(q[i..]) == ReadyTxns(q[i + 1..])
    ensures R.Dropped(q, i)[..i] == q[..i] && R.Dropped(q, i)[i..] == q[i + 1..]
  {
    assert q[i..][0] == q[i] && q[i..][1..] == q[i + 1..];
  }

  lemma SendNone(q: seq<Entry>)
    ensures q[..|q|] + Unready(q[|q|..]) == q && ReadyTxns(q[|q|..]) == []
  {}

  class ReplyDesk {
    const quick: bool
    var resQ: seq<Entry>
    var sent: seq<Txn>
    ghost var stage: map<Txn, R.Stage>

    ghost function View(): Desk
      reads this
    {
      Desk(resQ, sent, stage)
    }

    constructor (quickResponse: bool)
      ensures quick == quickResponse && View() == Desk([], [], map[])
    {
      quick, resQ, sent, stage := quickResponse, [], [], map[];
    }

    method HandleIncoming(t: Txn)
      modifies this
      ensures View() == Arrived(old(View()), t)
    {
      resQ := resQ + [Entry(t, false, false, [], 0)];
      stage := stage[t := R.Waiting];
    }

    /** The device returned command `n`: find the entry that lists it, count down, and at zero mark
        it ready or, for a write answered early, drop it. */
    method HandleDeviceResponse(n: nat) returns (found: bool)
      modifies this
      ensures (View(), found) == Returned(quick, old(View()), n)
    {
      var i := 0;
      while i < |resQ| && n !in resQ[i].cmds
        invariant 0 <= i <= |resQ| && forall k :: 0 <= k < i ==> n !in resQ[k].cmds
      {
        i := i + 1;
      }
      FindIs(resQ, n, i);
      hide Find;
      if i == |resQ| { return false; }
      found := true;
      var e := resQ[i];
      var left := if 0 < e.waiting then e.waiting - 1 else B.UINT32 - 1;
      e := e.(waiting := left);
      resQ := resQ[i := e];
      if left == 0 {
        e := e.(ready := true);
        resQ := resQ[i := e];
        stage := stage[e.txn := R.Completed];
        if quick && !e.txn.isRead {
          resQ := resQ[..i] + resQ[i + 1..];
          assert resQ == R.Dropped(old(resQ), i);
        } else {
          assert resQ == old(resQ)[i := e];
        }
      }
    }

    /** Every ready entry is sent and taken out. */
    method SendResponse()
      modifies this
      ensures View() == Sent(old(View()))
    {
      hide Unready, ReadyTxns;
      ghost var q := resQ;
      var i := 0;
      while i < |resQ|
        invariant 0 <= i <= |resQ| && stage == old(stage)
        invariant Unready(q) == resQ[..i] + Unready(resQ[i..])
        invariant old(sent) + ReadyTxns(q) == sent + ReadyTxns(resQ[i..])
        decreases |resQ| - i
      {
        SendOne(resQ, i);
        if resQ[i].ready {
          sent := sent + [resQ[i].txn];
          resQ := R.Dropped(resQ, i);
        } else {
          i := i + 1;
        }
      }
      SendNone(resQ);
    }

    /** A read answered by a queued write is ready at once. */
    method MarkHit(t: Txn)
      modifies this
      ensures View() == TakenOne(quick, old(View()), Taken(t, true))
    {
      var i := 0;
      while i < |resQ| && (resQ[i].txn != t || resQ[i].copy)
        invariant 0 <= i <= |resQ| && forall k :: 0 <= k < i ==> resQ[k].txn != t || resQ[k].copy
      {
        i := i + 1;
      }
      IndexIs(resQ, t, i);
      hide IndexOf;
      if i < |resQ| {
        resQ := resQ[i := resQ[i].(ready := true)];
        stage := stage[t := R.Hit];
      }
    }

    /** A request was queued for the memory; with quick response a write is answered by a copy. */
    method NoteQueued(t: Txn)
      modifies this
      ensures View() == TakenOne(quick, old(View()), Taken(t, false))
    {
      stage := stage[t := R.Queued];
      if quick && !t.isRead { resQ := resQ + [Entry(t, true, true, [], 0)]; }
    }

    /** The numbers given to commands since `from` go to their transactions. */
    method Record(owner: seq<Made>, from: nat)
      requires from <= |owner|
      modifies this`resQ
      ensures View() == Recorded(old(View()), owner, from)
    {
      ghost var whole := Recorded(View(), owner, from);
      for i := 0 to |resQ|
        invariant |resQ| == |old(resQ)|
        invariant forall k :: 0 <= k < i ==> resQ[k] == whole.resQ[k]
        invariant forall k :: i <= k < |resQ| ==> resQ[k] == old(resQ)[k]
      {
        resQ := resQ[i := RecordedOne(resQ[i], owner, from)];
      }
    }
  }
}
