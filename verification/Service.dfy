/** The controller with its response queue: entries carry the numbers of the commands made for
    their transaction, the device returns column commands by number, in any order, and the
    controller finds whom to answer by searching the queue for the number. */
module Service {
  import opened Sequences
  import opened Dram
  import opened ControllerModel
  import B = BankModel
  import R = Responses

  /** A transaction in the response queue, as far as answering goes. */
  datatype Entry = Entry(txn: Txn, copy: bool, ready: bool, cmds: seq<nat>, waiting: nat)

  datatype Desk = Desk(resQ: seq<Entry>, sent: seq<Txn>, stage: map<Txn, R.Stage>)

  // ---------------------------------------------------------------- events between ticks

  function Arrived(d: Desk, t: Txn): Desk {
    d.(resQ := d.resQ + [Entry(t, false, false, [], 0)], stage := d.stage[t := R.Waiting])
  }

  function ArrivedAll(d: Desk, ts: seq<Txn>): Desk
    decreases |ts|
  {
    if ts == [] then d else ArrivedAll(Arrived(d, ts[0]), ts[1..])
  }

  /** The first entry with command number `n`, or the queue's length. */
  function Find(q: seq<Entry>, n: nat): (i: nat)
    ensures i <= |q|
    ensures i < |q| ==> n in q[i].cmds
    ensures forall k :: 0 <= k < i ==> n !in q[k].cmds
  {
    if q == [] || n in q[0].cmds then 0 else 1 + Find(q[1..], n)
  }

  /** The device returns command number `n`; the flag is false when nobody is found. */
  function Returned(quick: bool, d: Desk, n: nat): (Desk, bool) {
    var i := Find(d.resQ, n);
    if i == |d.resQ| then (d, false)
    else
      var e := d.resQ[i];
      var left := if 0 < e.waiting then e.waiting - 1 else B.UINT32 - 1;
      if left != 0 then (d.(resQ := d.resQ[i := e.(waiting := left)]), true)
      else if R.Early(quick, e.txn) then
        (d.(resQ := R.Dropped(d.resQ, i), stage := d.stage[e.txn := R.Completed]), true)
      else (d.(resQ := d.resQ[i := e.(waiting := 0, ready := true)], stage := d.stage[e.txn := R.Completed]), true)
  }

  function ReturnedAll(quick: bool, d: Desk, ns: seq<nat>): (Desk, bool)
    decreases |ns|
  {
    if ns == [] then (d, true)
    else
      var one := Returned(quick, d, ns[0]);
      var rest := ReturnedAll(quick, one.0, ns[1..]);
      (rest.0, one.1 && rest.1)
  }

  /** A return does not care whether a new transaction arrives before or after it. */
  lemma EventsCommute(quick: bool, d: Desk, t: Txn, n: nat)
    requires forall i :: 0 <= i < |d.resQ| ==> d.resQ[i].txn != t
    ensures Returned(quick, Arrived(d, t), n) == (Arrived(Returned(quick, d, n).0, t), Returned(quick, d, n).1)
  {
    var e := Entry(t, false, false, [], 0);
    var i, j := Find(d.resQ, n), Find(d.resQ + [e], n);
    assert forall k :: 0 <= k < |d.resQ| ==> (d.resQ + [e])[k] == d.resQ[k];
    hide Find;
    if i < |d.resQ| {
      assert j == i;
      var u := d.resQ[i].txn;
      assert d.stage[t := R.Waiting][u := R.Completed] == d.stage[u := R.Completed][t := R.Waiting];
      assert R.Dropped(d.resQ + [e], i) == R.Dropped(d.resQ, i) + [e];
      var left := if 0 < d.resQ[i].waiting then d.resQ[i].waiting - 1 else B.UINT32 - 1;
      var counted, done := d.resQ[i].(waiting := left), d.resQ[i].(waiting := 0, ready := true);
      assert (d.resQ + [e])[i := counted] == d.resQ[i := counted] + [e];
      assert (d.resQ + [e])[i := done] == d.resQ[i := done] + [e];
    }
  }

  // ---------------------------------------------------------------- stages of a tick

  function Unready(q: seq<Entry>)
    : seq<Entry> { if q == [] then [] else (if q[0].ready then [] else [q[0]]) + Unready(q[1..]) }

  function ReadyTxns(q: seq<Entry>)
    : seq<Txn> { if q == [] then [] else (if q[0].ready then [q[0].txn] else []) + ReadyTxns(q[1..]) }

  /** sendResponse */
  function Sent(d: Desk): Desk { d.(resQ := Unready(d.resQ), sent := d.sent + ReadyTxns(d.resQ)) }

  /** The transaction's own entry. */
  function IndexOf(q: seq<Entry>, t: Txn): (i: nat)
    ensures i <= |q|
    ensures i < |q| ==> q[i].txn == t && !q[i].copy
    ensures forall k :: 0 <= k < i ==> q[k].txn != t || q[k].copy
  {
    if q == [] || (q[0].txn == t && !q[0].copy) then 0 else 1 + IndexOf(q[1..], t)
  }

  /** A request leaves the request queue: answered by a queued write, or queued itself. */
  function TakenOne(quick: bool, d: Desk, x: Taken): Desk {
    if x.hit then
      var i := IndexOf(d.resQ, x.txn);
      if i == |d.resQ| then d
      else d.(resQ := d.resQ[i := d.resQ[i].(ready := true)], stage := d.stage[x.txn := R.Hit])
    else
      var d1 := d.(stage := d.stage[x.txn := R.Queued]);
      if R.Early(quick, x.txn) then d1.(resQ := d.resQ + [Entry(x.txn, true, true, [], 0)]) else d1
  }

  function TakenAll(quick: bool, d: Desk, log: seq<Taken>): Desk
    decreases |log|
  {
    if log == [] then d else TakenAll(quick, TakenOne(quick, d, log[0]), log[1..])
  }

  /** The numbers from `from` on that were given to commands of `t`. */
  function Numbers(owner: seq<Made>, from: nat, t: Txn): (r: seq<nat>)
    requires from <= |owner|
    ensures forall n :: n in r <==> from <= n < |owner| && owner[n].txn == t
    decreases |owner| - from
  {
    if from == |owner| then [] else (if owner[from].txn == t then [from] else []) + Numbers(owner, from + 1, t)
  }

  /** The converter tells a transaction the numbers of its commands and to wait for one. */
  function RecordedOne(e: Entry, owner: seq<Made>, from: nat): Entry
    requires from <= |owner|
  {
    var ns := Numbers(owner, from, e.txn);
    if e.copy || ns == [] then e else e.(cmds := e.cmds + ns, waiting := 1)
  }

  function Recorded(d: Desk, owner: seq<Made>, from: nat): (r: Desk)
    requires from <= |owner|
    ensures |r.resQ| == |d.resQ|
  {
    d.(resQ := seq(|d.resQ|, i requires 0 <= i < |d.resQ| => RecordedOne(d.resQ[i], owner, from)))
  }

  // ---------------------------------------------------------------- the whole controller

  datatype Memory = Memory(core: System, desk: Desk, returned: set<nat>)

  /** What happens between two ticks: transactions arrive and column commands return. */
  datatype Input = Input(arrivals: seq<Txn>, back: seq<nat>)

  lemma StepOwner(s: Setup, y: System, arrivals: seq<Txn>)
    requires SystemShape(s, y) && RequestsOk(s, y.queues, y.tracked, arrivals)
    ensures y.owner <= Step(s, y, arrivals).0.owner
  {
    AcceptOk(s, y.queues, y.tracked, y.txns, y.reqQ + arrivals);
    var picked := PickFrom(s, y.queues, y.tracked, Accept(s, y.txns, y.reqQ + arrivals).0, 0);
    OwnerGrows(s, Converted(y.queues, y.tracked, y.owner, true), picked.picks);
  }

  /** One clock cycle with everything that happened since the last: events, then sendResponse,
      then the scheduling stages, which take requests and number commands. */
  function MemoryStep(s: Setup, m: Memory, input: Input): (Memory, bool)
    requires SystemShape(s, m.core) && RequestsOk(s, m.core.queues, m.core.tracked, input.arrivals)
  {
    var answered := ReturnedAll(s.quick, ArrivedAll(m.desk, input.arrivals), input.back);
    var log := AcceptLog(s, m.core.txns, m.core.reqQ + input.arrivals);
    var taken := TakenAll(s.quick, Sent(answered.0), log);
    var next := Step(s, m.core, input.arrivals);
    StepOwner(s, m.core, input.arrivals);
    (Memory(next.0, Recorded(taken, next.0.owner, |m.core.owner|), m.returned + (set n | n in input.back)),
      answered.1 && next.1)
  }

  /** Command number `n` is that of an issued column command that has not returned. */
  ghost predicate CanReturn(m: Memory, n: nat) {
    n !in m.returned &&
    exists k ::
      0 <= k < |m.core.d.trace| && IsColumn(m.core.d.trace[k].cmd.kind) && m.core.d.trace[k].cmd.seqNum == n
  }

  ghost predicate InputOkFor(m: Memory, input: Input) {
    NoRepeats(input.back) && forall i :: 0 <= i < |input.back| ==> CanReturn(m, input.back[i])
  }
}
