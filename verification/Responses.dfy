/** What the controller owes to each transaction: the response queue reduced to who waits in it
    and who is ready. A transaction waits from its arrival until its response is sent; with quick
    response a write is answered by a copy as soon as it is queued, and a read that hits a queued
    write at once. */
module Responses {
  import opened Sequences
  import opened Dram

  /** An entry of the queue; a copy stands for an early answer to a write. */
  datatype Key = Key(txn: Txn, copy: bool, ready: bool)

  /** Arrived; answered by a queued write; handed to the scheduler; column command returned. */
  datatype Stage = Waiting | Hit | Queued | Completed

  datatype Book = Book(quick: bool, stage: map<Txn, Stage>, keys: seq<Key>, sent: seq<Txn>)

  /** The transaction is answered before the memory has served it. */
  predicate Early(quick: bool, t: Txn) { quick && !t.isRead }

  /** What the queue and the sent responses hold for a transaction, by its stage. */
  ghost predicate TxnOk(b: Book, t: Txn)
    requires t in b.stage
  {
    var waits, ready := Key(t, false, false) in b.keys, Key(t, false, true) in b.keys;
    var copy, sent := Key(t, true, true) in b.keys, t in b.sent;
    && Key(t, true, false) !in b.keys
    && match b.stage[t]
       case Waiting => waits && !ready && !copy && !sent
       case Hit => b.quick && t.isRead && !waits && !copy && ready != sent
       case Queued => waits && !ready && (if Early(b.quick, t) then copy != sent else !copy && !sent)
       case Completed => !waits && (if Early(b.quick, t) then !ready && copy != sent else !copy && ready != sent)
  }

  ghost predicate Inv(b: Book) {
    && NoRepeats(b.keys) && NoRepeats(b.sent)
    && (forall i :: 0 <= i < |b.keys| ==> b.keys[i].txn in b.stage)
    && (forall i :: 0 <= i < |b.sent| ==> b.sent[i] in b.stage)
    && forall t :: t in b.stage ==> TxnOk(b, t)
  }

  // ---------------------------------------------------------------- steps

  function Arrive(b: Book, t: Txn): Book {
    b.(stage := b.stage[t := Waiting], keys := b.keys + [Key(t, false, false)])
  }

  /** The queue with the entry at `i` marked ready. */
  function Marked(q: seq<Key>, i: nat): seq<Key>
    requires i < |q|
  {
    q[i := q[i].(ready := true)]
  }

  function Dropped<T>(q: seq<T>, i: nat): seq<T>
    requires i < |q|
  {
    q[..i] + q[i + 1..]
  }

  ghost predicate IsAt(b: Book, i: nat, t: Txn) { i < |b.keys| && t in b.stage && b.keys[i] == Key(t, false, false) }

  /** A read found its data in the transaction queue (quick response only). */
  ghost function HitRead(b: Book, t: Txn, i: nat): Book
    requires IsAt(b, i, t)
  {
    b.(stage := b.stage[t := Hit], keys := Marked(b.keys, i))
  }

  /** The transaction enters the scheduler; with quick response a write is answered by a copy. */
  function Enqueue(b: Book, t: Txn): Book {
    var b1 := b.(stage := b.stage[t := Queued]);
    if Early(b.quick, t) then b1.(keys := b.keys + [Key(t, true, true)]) else b1
  }

  /** The device returned the transaction's column command. */
  ghost function Complete(b: Book, t: Txn, i: nat): Book
    requires IsAt(b, i, t)
  {
    b.(stage := b.stage[t := Completed], keys := if Early(b.quick, t) then Dropped(b.keys, i) else Marked(b.keys, i))
  }

  function Unready(q: seq<Key>)
    : seq<Key> { if q == [] then [] else (if q[0].ready then [] else [q[0]]) + Unready(q[1..]) }

  function ReadyTxns(q: seq<Key>)
    : seq<Txn> { if q == [] then [] else (if q[0].ready then [q[0].txn] else []) + ReadyTxns(q[1..]) }

  function Send(b: Book): Book { b.(keys := Unready(b.keys), sent := b.sent + ReadyTxns(b.keys)) }

  // ---------------------------------------------------------------- members of the changed queue

  lemma MarkedMembers(q: seq<Key>, i: nat, e: Key)
    requires NoRepeats(q) && i < |q| && !q[i].ready && q[i].(ready := true) !in q
    ensures NoRepeats(Marked(q, i))
    ensures e in Marked(q, i) <==> (e in q && e != q[i]) || e == q[i].(ready := true)
  {
    var q' := Marked(q, i);
    if e in q && e != q[i] {
      var k :| 0 <= k < |q| && q[k] == e;
      assert q'[k] == e;
    }
    assert q'[i] == q[i].(ready := true);
    if e in q' {
      var k :| 0 <= k < |q'| && q'[k] == e;
      assert k != i ==> q[k] == e;
    }
  }

  lemma DroppedMembers(q: seq<Key>, i: nat, e: Key)
    requires NoRepeats(q) && i < |q|
    ensures NoRepeats(Dropped(q, i))
    ensures e in Dropped(q, i) <==> e in q && e != q[i]
  {
    var q' := Dropped(q, i);
    if e in q && e != q[i] {
      var k :| 0 <= k < |q| && q[k] == e;
      assert q'[if k < i then k else k - 1] == e;
    }
    if e in q' {
      var k :| 0 <= k < |q'| && q'[k] == e;
      assert q[if k < i then k else k + 1] == e;
    }
  }

  lemma {:induction false} UnreadyMembers(q: seq<Key>, e: Key)
    ensures e in Unready(q) <==> e in q && !e.ready
  {
    if q != [] {
      UnreadyMembers(q[1..], e);
      assert e in q <==> e == q[0] || e in q[1..];
    }
  }

  lemma {:induction false} UnreadyOnce(q: seq<Key>)
    requires NoRepeats(q)
    ensures NoRepeats(Unready(q))
  {
    if q != [] {
      UnreadyOnce(q[1..]);
      assert q[0] !in q[1..];
      UnreadyMembers(q[1..], q[0]);
    }
  }

  lemma {:induction false} ReadyMembers(q: seq<Key>, t: Txn)
    ensures t in ReadyTxns(q) <==> Key(t, false, true) in q || Key(t, true, true) in q
  {
    if q != [] {
      ReadyMembers(q[1..], t);
      assert forall e :: e in q <==> e == q[0] || e in q[1..];
    }
  }

  /** Ready entries of different transactions. */
  ghost predicate OneReady(q: seq<Key>) { forall t: Txn :: !(Key(t, false, true) in q && Key(t, true, true) in q) }

  lemma {:induction false} ReadyOnce(q: seq<Key>)
    requires NoRepeats(q) && OneReady(q)
    ensures NoRepeats(ReadyTxns(q))
  {
    if q != [] {
      assert OneReady(q[1..]) by { assert forall e :: e in q[1..] ==> e in q; }
      ReadyOnce(q[1..]);
      assert q[0] !in q[1..] && q[0] in q;
      assert forall e :: e in q[1..] ==> e in q;
      if q[0].ready { ReadyMembers(q[1..], q[0].txn); }
    }
  }

  // ---------------------------------------------------------------- every step keeps the invariant

  lemma ArriveKeeps(b: Book, t: Txn)
    requires Inv(b) && t !in b.stage
    ensures Inv(Arrive(b, t))
  {
    var b' := Arrive(b, t);
    var e := Key(t, false, false);
    assert forall x :: x in b'.keys <==> x in b.keys || x == e;
    assert forall x :: x in b.keys ==> x.txn in b.stage;
    assert forall x :: x in b.sent ==> x in b.stage;
    forall u | u in b'.stage
      ensures TxnOk(b', u)
    {
      if u in b.stage { assert TxnOk(b, u); }
    }
  }

  lemma HitKeeps(b: Book, t: Txn, i: nat)
    requires Inv(b) && IsAt(b, i, t) && b.quick && t.isRead && b.stage[t] == Waiting
    ensures Inv(HitRead(b, t, i))
  {
    var b' := HitRead(b, t, i);
    assert TxnOk(b, t);
    forall e
      ensures NoRepeats(b'.keys) && (e in b'.keys <==> (e in b.keys && e != b.keys[i]) || e == Key(t, false, true))
    {
      MarkedMembers(b.keys, i, e);
    }
    hide Marked;
    StepOk(b, b', t);
  }

  lemma EnqueueKeeps(b: Book, t: Txn)
    requires Inv(b) && t in b.stage && b.stage[t] == Waiting
    ensures Inv(Enqueue(b, t))
  {
    var b' := Enqueue(b, t);
    assert TxnOk(b, t);
    assert forall e :: e in b'.keys <==> e in b.keys || (Early(b.quick, t) && e == Key(t, true, true));
    StepOk(b, b', t);
  }

  lemma CompleteKeeps(b: Book, t: Txn, i: nat)
    requires Inv(b) && IsAt(b, i, t) && b.stage[t] == Queued
    ensures Inv(Complete(b, t, i))
  {
    var b' := Complete(b, t, i);
    assert TxnOk(b, t);
    forall e
      ensures NoRepeats(b'.keys)
      ensures e in b'.keys <==> (e in b.keys && e != b.keys[i]) || (!Early(b.quick, t) && e == Key(t, false, true))
    {
      if Early(b.quick, t) { DroppedMembers(b.keys, i, e); } else { MarkedMembers(b.keys, i, e); }
    }
    hide Marked, Dropped;
    StepOk(b, b', t);
  }

  /** A step that concerns one transaction only. */
  lemma StepOk(b: Book, b': Book, t: Txn)
    requires Inv(b) && t in b.stage && b'.stage.Keys == b.stage.Keys && b'.quick == b.quick && b'.sent == b.sent
    requires NoRepeats(b'.keys)
    requires forall u :: u in b.stage && u != t ==> b'.stage[u] == b.stage[u]
    requires forall e: Key :: e.txn != t ==> (e in b'.keys <==> e in b.keys)
    requires TxnOk(b', t)
    ensures Inv(b')
  {
    forall i | 0 <= i < |b'.keys|
      ensures b'.keys[i].txn in b'.stage
    {
      assert b'.keys[i] in b'.keys;
      if b'.keys[i].txn != t { assert b'.keys[i] in b.keys; }
    }
    forall u | u in b'.stage
      ensures TxnOk(b', u)
    {
      assert TxnOk(b, u);
    }
  }

  lemma ReadyNotSent(b: Book)
    requires Inv(b)
    ensures OneReady(b.keys)
    ensures forall t: Txn :: Key(t, false, true) in b.keys || Key(t, true, true) in b.keys ==>
      t in b.stage && t !in b.sent
  {
    forall t: Txn | Key(t, false, true) in b.keys || Key(t, true, true) in b.keys
      ensures t in b.stage && t !in b.sent && !(Key(t, false, true) in b.keys && Key(t, true, true) in b.keys)
    {
      assert TxnOk(b, t);
    }
  }

  lemma SendKeeps(b: Book)
    requires Inv(b)
    ensures Inv(Send(b))
  {
    var b' := Send(b);
    ReadyNotSent(b);
    ReadyOnce(b.keys);
    UnreadyOnce(b.keys);
    forall e ensures e in b'.keys <==> e in b.keys && !e.ready { UnreadyMembers(b.keys, e); }
    forall t: Txn
      ensures t in b'.sent <==> t in b.sent || Key(t, false, true) in b.keys || Key(t, true, true) in b.keys
      ensures t in ReadyTxns(b.keys) ==> t !in b.sent && t in b.stage
    {
      ReadyMembers(b.keys, t);
    }
    hide Unready, ReadyTxns;
    SentOk(b, b', ReadyTxns(b.keys));
  }

  lemma SentOk(b: Book, b': Book, more: seq<Txn>)
    requires Inv(b) && b' == b.(keys := b'.keys, sent := b.sent + more) && NoRepeats(b'.keys) && NoRepeats(more)
    requires forall e :: e in b'.keys <==> e in b.keys && !e.ready
    requires forall t: Txn :: t in more ==> t !in b.sent && t in b.stage
    requires forall t: Txn :: t in b'.sent <==>
      t in b.sent || Key(t, false, true) in b.keys || Key(t, true, true) in b.keys
    ensures Inv(b')
  {
    forall i, j | 0 <= i < j < |b'.sent|
      ensures b'.sent[i] != b'.sent[j]
    {
      if i < |b.sent| <= j { assert b'.sent[j] in more; }
    }
    forall i | 0 <= i < |b'.sent|
      ensures b'.sent[i] in b'.stage
    {
      if |b.sent| <= i { assert b'.sent[i] in more; }
    }
    forall i | 0 <= i < |b'.keys|
      ensures b'.keys[i].txn in b'.stage
    {
      assert b'.keys[i] in b'.keys;
    }
    forall t | t in b'.stage
      ensures TxnOk(b', t)
    {
      assert TxnOk(b, t);
    }
  }
}
