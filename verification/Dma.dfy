/** Balar's DMA engine: several live requests, each copied chunk by chunk through a memory
    system that performs and answers the chunk operations in any order. */
module Dma {
  import opened Arithmetic

  type byte = x: int | 0 <= x < 256

  datatype Direction = SimToSst | SstToSim

  datatype Status = Busy | WaitingDone | Done

  /** The control registers of one accepted request. */
  datatype Request = Request(
    sim: nat, sst: nat, size: nat, chunk: nat, dir: Direction, posted: bool,
    status: Status, offset: nat, ongoing: nat)

  /** A chunk operation in flight: a write carries its data from the start, a read once the
      memory has performed it. */
  datatype Op = Op(tag: nat, at: nat, size: nat, data: seq<byte>, performed: bool)

  datatype State = State(
    queue: seq<nat>,                // accepted requests, oldest first
    reqs: map<nat, Request>,
    ops: map<nat, Op>,              // chunk operations by memory request id
    nextId: nat,
    nextTag: nat,
    posted: seq<bool>,              // of every request accepted so far
    answered: seq<nat>,             // requests whose completion was reported, in order
    sim: seq<byte>,
    sst: seq<byte>)

  // ---------------------------------------------------------------- memory

  function Read(m: seq<byte>, at: nat, size: nat): (r: seq<byte>)
    requires at + size <= |m|
    ensures |r| == size && forall i :: 0 <= i < size ==> r[i] == m[at + i]
  {
    m[at..at + size]
  }

  function Written(m: seq<byte>, at: nat, data: seq<byte>): (r: seq<byte>)
    requires at + |data| <= |m|
    ensures |r| == |m|
    ensures forall x :: 0 <= x < |m| ==> r[x] == if at <= x < at + |data| then data[x - at] else m[x]
  {
    m[..at] + data + m[at + |data|..]
  }

  // ---------------------------------------------------------------- the engine

  /** The size of each chunk operation: the last one is not trimmed. */
  function Step(r: Request): nat { if r.size < r.chunk then r.size else r.chunk }

  /** The chunks cover exactly the requested bytes. */
  predicate Even(r: Request) { 0 < r.chunk && (r.size <= r.chunk || Divides(r.chunk, r.size)) }

  predicate RangesTouch(a: nat, aEnd: nat, b: nat, bEnd: nat) { a <= bEnd && aEnd >= b }

  predicate Touch(a: Request, b: Request) {
    || RangesTouch(a.sst, a.sst + a.size, b.sst, b.sst + b.size)
    || RangesTouch(a.sim, a.sim + a.size, b.sim, b.sim + b.size)
  }

  /** A request as the engine accepts it. */
  function Accepted(r: Request): Request { r.(status := Busy, offset := 0, ongoing := 0) }

  predicate CanAccept(s: State, r: Request) {
    forall tag :: tag in s.reqs ==> !Touch(r, s.reqs[tag])
  }

  function Accept(s: State, r: Request): State {
    s.(queue := s.queue + [s.nextTag], reqs := s.reqs[s.nextTag := Accepted(r)], nextTag := s.nextTag + 1,
       posted := s.posted + [r.posted])
  }

  /** The request after its next chunk operation was sent. */
  function Advanced(r: Request): Request {
    r.(offset := r.offset + Step(r), ongoing := r.ongoing + 1,
       status := if r.offset + Step(r) >= r.size then WaitingDone else Busy)
  }

  function NextOp(s: State, tag: nat): Op
    requires tag in s.reqs
    requires var r := s.reqs[tag]; r.sim + r.offset + Step(r) <= |s.sim|
  {
    var r := s.reqs[tag];
    var data := if r.dir == SimToSst then Read(s.sim, r.sim + r.offset, Step(r)) else [];
    Op(tag, r.sst + r.offset, Step(r), data, false)
  }

  predicate InBounds(s: State, tag: nat) {
    tag in s.reqs && var r := s.reqs[tag];
    r.status == Busy ==> r.sim + r.offset + Step(r) <= |s.sim| && r.sst + r.offset + Step(r) <= |s.sst|
  }

  /** One queue entry of a tick: send a chunk, wait, or report completion and drop the request. */
  function TickOne(s: State, tag: nat): State
    requires InBounds(s, tag)
  {
    var r := s.reqs[tag];
    match r.status
    case Busy => s.(reqs := s.reqs[tag := Advanced(r)], ops := s.ops[s.nextId := NextOp(s, tag)],
      nextId := s.nextId + 1)
    case WaitingDone => s
    case Done => s.(reqs := s.reqs - {tag}, answered := if r.posted then s.answered else s.answered + [tag])
  }

  /** The memory performs operation `id`. */
  function Perform(s: State, id: nat): State
    requires id in s.ops && s.ops[id].tag in s.reqs
    requires var op := s.ops[id]; op.at + op.size <= |s.sst| && op.at + |op.data| <= |s.sst|
  {
    var op := s.ops[id];
    if s.reqs[op.tag].dir == SimToSst then
      s.(sst := Written(s.sst, op.at, op.data), ops := s.ops[id := op.(performed := true)])
    else
      s.(ops := s.ops[id := op.(performed := true, data := Read(s.sst, op.at, op.size))])
  }

  /** The request after one of its chunk operations was answered. */
  function Answered(r: Request): Request
    requires 0 < r.ongoing
  {
    r.(ongoing := r.ongoing - 1, status := if r.status == WaitingDone && r.ongoing == 1 then Done else r.status)
  }

  predicate CanRespond(s: State, id: nat) {
    && id in s.ops && s.ops[id].performed && s.ops[id].tag in s.reqs
    && var op, r := s.ops[id], s.reqs[s.ops[id].tag];
       && 0 < r.ongoing && r.sst <= op.at
       && (r.dir == SstToSim ==> r.sim + (op.at - r.sst) + |op.data| <= |s.sim|)
  }

  /** The response of operation `id` reaches the engine. */
  function Respond(s: State, id: nat): State
    requires CanRespond(s, id)
  {
    var op := s.ops[id];
    var r := s.reqs[op.tag];
    var s1 := if r.dir == SstToSim then s.(sim := Written(s.sim, r.sim + (op.at - r.sst), op.data)) else s;
    s1.(reqs := s.reqs[op.tag := Answered(r)], ops := s.ops - {id})
  }

  // ---------------------------------------------------------------- invariant

  /** Operations in flight for `tag`. */
  ghost function OpsOf(ops: map<nat, Op>, tag: nat): set<nat> {
    set id | id in ops && ops[id].tag == tag
  }

  ghost predicate Copied(s: State, r: Request, j: nat)
    requires r.sim + j < |s.sim| && r.sst + j < |s.sst|
  {
    s.sim[r.sim + j] == s.sst[r.sst + j]
  }

  /** Byte `j` of request `tag` is still in the hands of operation `id`. */
  ghost predicate InHand(s: State, tag: nat, j: nat, id: nat)
    requires tag in s.reqs
  {
    id in s.ops && s.ops[id].tag == tag
    && s.ops[id].at <= s.reqs[tag].sst + j < s.ops[id].at + s.ops[id].size
    && (s.reqs[tag].dir == SimToSst ==> !s.ops[id].performed)
  }

  ghost predicate RequestOk(s: State, tag: nat) {
    && tag in s.reqs && tag < s.nextTag
    && var r := s.reqs[tag];
       && Even(r) && r.sim + r.size <= |s.sim| && r.sst + r.size <= |s.sst|
       && r.offset <= r.size
       && (r.status == Busy ==>
         r.offset + Step(r) <= r.size && (r.chunk < r.size ==> Divides(r.chunk, r.size - r.offset)))
       && (r.status != Busy ==> r.offset == r.size)
       && r.ongoing == |OpsOf(s.ops, tag)|
       && (r.status == WaitingDone ==> 0 < r.ongoing)
       && (r.status == Done ==> r.ongoing == 0)
  }

  ghost predicate OpOk(s: State, id: nat) {
    && id in s.ops && id < s.nextId && s.ops[id].tag in s.reqs
    && var op, r := s.ops[id], s.reqs[s.ops[id].tag];
       && r.sst <= op.at && op.at + op.size <= r.sst + r.offset && r.offset <= r.size
       && r.sim + r.size <= |s.sim| && r.sst + r.size <= |s.sst|
       && (r.dir == SimToSst ==> op.data == Read(s.sim, r.sim + (op.at - r.sst), op.size))
       && (r.dir == SstToSim ==> if op.performed then op.data == Read(s.sst, op.at, op.size) else op.data == [])
  }

  ghost predicate BytesOk(s: State, tag: nat)
    requires tag in s.reqs
  {
    var r := s.reqs[tag];
    r.offset <= r.size && r.sim + r.size <= |s.sim| && r.sst + r.size <= |s.sst| &&
    forall j: nat {:trigger Copied(s, r, j)} :: j < r.offset ==> Copied(s, r, j) || exists id :: InHand(s, tag, j, id)
  }

  ghost predicate Apart(reqs: map<nat, Request>) {
    forall a, b :: a in reqs && b in reqs && a != b ==> !Touch(reqs[a], reqs[b])
  }

  ghost predicate QueueOk(s: State) {
    && (forall i :: 0 <= i < |s.queue| ==> s.queue[i] in s.reqs)
    && (forall tag :: tag in s.reqs ==> tag in s.queue)
    && (forall i, j :: 0 <= i < j < |s.queue| ==> s.queue[i] < s.queue[j])
  }

  /** Completions are reported once, and exactly for the non-posted requests that are gone. */
  ghost predicate AnswersOk(s: State) {
    && |s.posted| == s.nextTag
    && (forall i :: 0 <= i < |s.answered| ==> s.answered[i] < s.nextTag && s.answered[i] !in s.reqs)
    && (forall i, j :: 0 <= i < j < |s.answered| ==> s.answered[i] != s.answered[j])
    && (forall tag :: tag in s.reqs ==> tag < s.nextTag && s.reqs[tag].posted == s.posted[tag])
    && (forall tag: nat :: tag < s.nextTag && tag !in s.reqs ==> (s.posted[tag] <==> tag !in s.answered))
  }

  /** All but the queue order, which a tick restores only at its end. */
  ghost predicate CoreInv(s: State) {
    && (forall tag :: tag in s.reqs ==> RequestOk(s, tag) && BytesOk(s, tag))
    && (forall id :: id in s.ops ==> OpOk(s, id))
    && Apart(s.reqs) && AnswersOk(s)
  }

  ghost predicate Inv(s: State) { CoreInv(s) && QueueOk(s) }

  /** A request reported done has its destination equal to its source. */
  lemma DoneIsCopied(s: State, tag: nat)
    requires CoreInv(s) && tag in s.reqs && s.reqs[tag].status == Done
    ensures RequestOk(s, tag)
    ensures var r := s.reqs[tag]; Read(s.sst, r.sst, r.size) == Read(s.sim, r.sim, r.size)
  {
    var r := s.reqs[tag];
    assert RequestOk(s, tag) && BytesOk(s, tag);
    assert OpsOf(s.ops, tag) == {};
    assert forall j: nat, id :: InHand(s, tag, j, id) ==> id in OpsOf(s.ops, tag);
    forall j | 0 <= j < r.size
      ensures Read(s.sst, r.sst, r.size)[j] == Read(s.sim, r.sim, r.size)[j]
    {
      assert Copied(s, r, j);
    }
  }

  // ---------------------------------------------------------------- accepting

  lemma TagsBelow(s: State)
    requires CoreInv(s)
    ensures s.nextTag !in s.reqs && forall id :: id in s.ops ==> s.ops[id].tag != s.nextTag
    ensures OpsOf(s.ops, s.nextTag) == {}
  {
    forall tag | tag in s.reqs ensures tag < s.nextTag { assert RequestOk(s, tag); }
    forall id | id in s.ops ensures s.ops[id].tag in s.reqs { assert OpOk(s, id); }
  }

  lemma AcceptCore(s: State, r: Request)
    requires CoreInv(s) && CanAccept(s, r) && Even(r) && r.sim + r.size <= |s.sim| && r.sst + r.size <= |s.sst|
    ensures CoreInv(Accept(s, r))
  {
    hide RequestOk, BytesOk, OpOk, Apart, CanAccept, Even;
    var s' := Accept(s, r);
    TagsBelow(s);
    forall tag | tag in s'.reqs
      ensures RequestOk(s', tag) && BytesOk(s', tag)
    {
      if tag == s.nextTag {
        AcceptedOk(s, r);
      } else {
        assert RequestOk(s, tag) && BytesOk(s, tag);
        RequestSame(s, s', tag);
        BytesSame(s, s', tag);
      }
    }
    forall id | id in s'.ops
      ensures OpOk(s', id)
    {
      assert OpOk(s, id);
      OpRefers(s, id);
      OpSame(s, s', id);
    }
    AcceptApart(s, r);
  }

  lemma AcceptedOk(s: State, r: Request)
    requires Even(r) && r.sim + r.size <= |s.sim| && r.sst + r.size <= |s.sst| && OpsOf(s.ops, s.nextTag) == {}
    ensures RequestOk(Accept(s, r), s.nextTag) && BytesOk(Accept(s, r), s.nextTag)
  {
    hide Divides, OpsOf;
  }

  lemma RequestSame(s: State, s': State, tag: nat)
    requires RequestOk(s, tag) && tag in s'.reqs && s'.reqs[tag] == s.reqs[tag] && s'.ops == s.ops
    requires s.nextTag <= s'.nextTag && |s'.sim| == |s.sim| && |s'.sst| == |s.sst|
    ensures RequestOk(s', tag)
  {
    hide Divides, OpsOf;
  }

  lemma OpSame(s: State, s': State, id: nat)
    requires OpOk(s, id) && s.ops[id].tag in s'.reqs && s'.reqs[s.ops[id].tag] == s.reqs[s.ops[id].tag]
    requires s'.ops == s.ops
    requires s'.nextId == s.nextId && s'.sim == s.sim && s'.sst == s.sst
    ensures OpOk(s', id)
  {}

  lemma AcceptApart(s: State, r: Request)
    requires Apart(s.reqs) && CanAccept(s, r)
    ensures Apart(Accept(s, r).reqs)
  {
    var reqs := Accept(s, r).reqs;
    forall a, b | a in reqs && b in reqs && a != b
      ensures !Touch(reqs[a], reqs[b])
    {
      assert a in s.reqs ==> !Touch(r, s.reqs[a]);
      assert b in s.reqs ==> !Touch(r, s.reqs[b]);
    }
  }

  lemma AcceptKeeps(s: State, r: Request)
    requires Inv(s) && CanAccept(s, r) && Even(r) && r.sim + r.size <= |s.sim| && r.sst + r.size <= |s.sst|
    ensures Inv(Accept(s, r))
  {
    AcceptCore(s, r);
    forall i | 0 <= i < |s.queue|
      ensures s.queue[i] < s.nextTag
    {
      assert RequestOk(s, s.queue[i]);
    }
    hide CoreInv;
  }

  /** Bytes stay accounted for when memories, the request and its operations stay. */
  lemma BytesSame(s: State, s': State, tag: nat)
    requires tag in s.reqs && tag in s'.reqs && BytesOk(s, tag)
    requires s'.reqs[tag] == s.reqs[tag] && s'.sim == s.sim && s'.sst == s.sst
    requires forall id :: id in s.ops && s.ops[id].tag == tag ==> id in s'.ops && s'.ops[id] == s.ops[id]
    ensures BytesOk(s', tag)
  {
    var r := s.reqs[tag];
    forall j: nat | j < r.offset
      ensures Copied(s', r, j) || exists id :: InHand(s', tag, j, id)
    {
      assert Copied(s, r, j) || exists id :: InHand(s, tag, j, id);
      if !Copied(s, r, j) {
        var id :| InHand(s, tag, j, id);
        assert InHand(s', tag, j, id);
      }
    }
  }

  // ---------------------------------------------------------------- a tick

  /** What is left of a divisible rest holds another whole chunk, and stays divisible. */
  lemma DividesStep(c: nat, x: nat)
    requires Divides(c, x) && 0 < x
    ensures c <= x && Divides(c, x - c)
  {
    var q := x / c;
    assert x == c * q;
    MulAtLeast(c, q);
    assert x - c == c * (q - 1);
    MultipleMod(c, q - 1, x - c);
  }

  /** The offset after a chunk is the end, or leaves room for another whole chunk. */
  lemma AdvanceFits(r: Request)
    requires Even(r) && r.offset + Step(r) <= r.size && (r.chunk < r.size ==> Divides(r.chunk, r.size - r.offset))
    ensures var r' := Advanced(r);
      && r'.offset <= r.size
      && (r'.status == Busy ==>
        r'.offset + Step(r') <= r.size && (r.chunk < r.size ==> Divides(r.chunk, r.size - r'.offset)))
      && (r'.status != Busy ==> r'.offset == r.size)
  {
    hide Divides;
    if r.chunk < r.size && r.offset + r.chunk < r.size {
      DividesStep(r.chunk, r.size - r.offset);
      DividesStep(r.chunk, r.size - r.offset - r.chunk);
    }
    if r.chunk < r.size && r.offset < r.size { DividesStep(r.chunk, r.size - r.offset); }
  }

  lemma OpsOfInsert(ops: map<nat, Op>, id: nat, op: Op, tag: nat)
    requires id !in ops
    ensures |OpsOf(ops[id := op], tag)| == |OpsOf(ops, tag)| + if op.tag == tag then 1 else 0
  {
    assert OpsOf(ops[id := op], tag) == if op.tag == tag then OpsOf(ops, tag) + {id} else OpsOf(ops, tag);
  }

  lemma OpsOfRemove(ops: map<nat, Op>, id: nat, tag: nat)
    requires id in ops
    ensures |OpsOf(ops - {id}, tag)| == |OpsOf(ops, tag)| - if ops[id].tag == tag then 1 else 0
  {
    assert OpsOf(ops - {id}, tag) == OpsOf(ops, tag) - {id};
    assert ops[id].tag == tag ==> id in OpsOf(ops, tag);
  }

  lemma OpsOfUpdate(ops: map<nat, Op>, id: nat, op: Op, tag: nat)
    requires id in ops && ops[id].tag == op.tag
    ensures OpsOf(ops[id := op], tag) == OpsOf(ops, tag)
  {}

  lemma IdsBelow(s: State)
    requires CoreInv(s)
    ensures s.nextId !in s.ops
  {
    forall id | id in s.ops ensures id < s.nextId { assert OpOk(s, id); }
  }

  lemma SendKeepsBytes(s: State, tag: nat, s': State)
    requires tag in s.reqs && InBounds(s, tag) && s.reqs[tag].status == Busy && s' == TickOne(s, tag)
    requires RequestOk(s, tag) && BytesOk(s, tag) && s.nextId !in s.ops
    ensures BytesOk(s', tag)
  {
    var r, r' := s.reqs[tag], s'.reqs[tag];
    hide RequestOk, Divides;
    forall j: nat | j < r'.offset
      ensures Copied(s', r', j) || exists id :: InHand(s', tag, j, id)
    {
      if j < r.offset {
        assert Copied(s, r, j) || exists id :: InHand(s, tag, j, id);
        if !Copied(s, r, j) {
          var id :| InHand(s, tag, j, id);
          assert InHand(s', tag, j, id);
        }
      } else {
        assert InHand(s', tag, j, s.nextId);
      }
    }
  }

  lemma SendKeepsRequest(s: State, tag: nat, s': State, t: nat)
    requires tag in s.reqs && InBounds(s, tag) && s.reqs[tag].status == Busy && s' == TickOne(s, tag)
    requires RequestOk(s, tag) && RequestOk(s, t) && s.nextId !in s.ops
    ensures RequestOk(s', t)
  {
    OpsOfInsert(s.ops, s.nextId, NextOp(s, tag), t);
    AdvanceFits(s.reqs[tag]);
    hide OpsOf, Read, Divides;
  }

  lemma SendKeepsOp(s: State, tag: nat, s': State, id: nat)
    requires tag in s.reqs && InBounds(s, tag) && s.reqs[tag].status == Busy && s' == TickOne(s, tag)
    requires RequestOk(s, tag) && (id == s.nextId || OpOk(s, id)) && s.nextId !in s.ops
    ensures OpOk(s', id)
  {
    hide OpsOf, Divides, Read, Even;
    SendOffset(s, tag);
    if id == s.nextId { NewOpOk(s, tag, s'); } else { OldOpOk(s, tag, s', id); }
  }

  lemma SendOffset(s: State, tag: nat)
    requires RequestOk(s, tag) && s.reqs[tag].status == Busy
    ensures var r := s.reqs[tag];
      r.offset + Step(r) <= r.size && r.sim + r.size <= |s.sim| && r.sst + r.size <= |s.sst|
  {
    hide Divides;
  }

  lemma NewOpOk(s: State, tag: nat, s': State)
    requires tag in s.reqs && InBounds(s, tag) && s.reqs[tag].status == Busy && s' == TickOne(s, tag)
    requires var r := s.reqs[tag];
      r.offset + Step(r) <= r.size && r.sim + r.size <= |s.sim| && r.sst + r.size <= |s.sst|
    ensures OpOk(s', s.nextId)
  {
    hide Read, Step;
  }

  lemma OldOpOk(s: State, tag: nat, s': State, id: nat)
    requires tag in s.reqs && InBounds(s, tag) && s.reqs[tag].status == Busy && s' == TickOne(s, tag)
    requires OpOk(s, id) && s.nextId !in s.ops
    requires var r := s.reqs[tag]; r.offset + Step(r) <= r.size
    ensures OpOk(s', id)
  {
    hide Read, Step, NextOp;
  }

  lemma SendShape(s: State, tag: nat, s': State)
    requires tag in s.reqs && InBounds(s, tag) && s.reqs[tag].status == Busy && s' == TickOne(s, tag)
    ensures s'.reqs.Keys == s.reqs.Keys && s'.ops == s.ops[s.nextId := NextOp(s, tag)] && s'.sim == s.sim
    ensures s'.sst == s.sst
    ensures s'.answered == s.answered && s'.nextTag == s.nextTag && s'.posted == s.posted
    ensures forall a :: a in s'.reqs ==>
      && s'.reqs[a].sim == s.reqs[a].sim && s'.reqs[a].sst == s.reqs[a].sst && s'.reqs[a].size == s.reqs[a].size
      && s'.reqs[a].posted == s.reqs[a].posted && (a != tag ==> s'.reqs[a] == s.reqs[a])
    ensures NextOp(s, tag).tag == tag
  {}

  lemma SendKeeps(s: State, tag: nat)
    requires CoreInv(s) && tag in s.reqs && InBounds(s, tag) && s.reqs[tag].status == Busy
    ensures CoreInv(TickOne(s, tag))
  {
    hide RequestOk, BytesOk, OpOk, Read, TickOne, NextOp, InBounds;
    var s' := TickOne(s, tag);
    IdsBelow(s);
    SendShape(s, tag, s');
    forall t | t in s'.reqs ensures RequestOk(s', t) && BytesOk(s', t) { SendKeepsOne(s, tag, s', t); }
    forall id | id in s'.ops ensures OpOk(s', id) { SendKeepsOp(s, tag, s', id); }
    SameRanges(s.reqs, s'.reqs);
  }

  lemma SendKeepsOne(s: State, tag: nat, s': State, t: nat)
    requires tag in s.reqs && InBounds(s, tag) && s.reqs[tag].status == Busy && s' == TickOne(s, tag)
    requires s.nextId !in s.ops
    requires RequestOk(s, tag) && t in s.reqs && t in s'.reqs && RequestOk(s, t) && BytesOk(s, t)
    ensures RequestOk(s', t) && BytesOk(s', t)
  {
    hide RequestOk, BytesOk, TickOne, NextOp, InBounds;
    SendShape(s, tag, s');
    SendKeepsRequest(s, tag, s', t);
    if t == tag { SendKeepsBytes(s, tag, s'); } else { BytesSame(s, s', t); }
  }

  /** Requests that keep their ranges stay apart. */
  lemma SameRanges(reqs: map<nat, Request>, reqs': map<nat, Request>)
    requires Apart(reqs) && reqs'.Keys <= reqs.Keys
    requires forall a :: a in reqs' ==>
      reqs'[a].sim == reqs[a].sim && reqs'[a].sst == reqs[a].sst && reqs'[a].size == reqs[a].size
    ensures Apart(reqs')
  {
    forall a, b | a in reqs' && b in reqs' && a != b
      ensures !Touch(reqs'[a], reqs'[b])
    {
      assert !Touch(reqs[a], reqs[b]);
    }
  }

  lemma RetiredHasNoOps(s: State, tag: nat)
    requires CoreInv(s) && tag in s.reqs && s.reqs[tag].status == Done
    ensures tag < s.nextTag && forall id :: id in s.ops ==> s.ops[id].tag != tag
  {
    assert RequestOk(s, tag);
    assert OpsOf(s.ops, tag) == {};
    assert forall id :: id in s.ops && s.ops[id].tag == tag ==> id in OpsOf(s.ops, tag);
  }

  lemma OpRefers(s: State, id: nat)
    requires OpOk(s, id)
    ensures s.ops[id].tag in s.reqs
  {}

  lemma RetireKeeps(s: State, tag: nat)
    requires CoreInv(s) && tag in s.reqs && s.reqs[tag].status == Done
    ensures CoreInv(TickOne(s, tag))
  {
    hide RequestOk, BytesOk, OpOk, Apart;
    var s' := TickOne(s, tag);
    RetiredHasNoOps(s, tag);
    forall t | t in s'.reqs
      ensures RequestOk(s', t) && BytesOk(s', t)
    {
      assert RequestOk(s, t) && BytesOk(s, t);
      RequestSame(s, s', t);
      BytesSame(s, s', t);
    }
    forall id | id in s'.ops
      ensures OpOk(s', id)
    {
      assert OpOk(s, id);
      OpRefers(s, id);
      OpSame(s, s', id);
    }
    SameRanges(s.reqs, s'.reqs);
  }

  lemma BusyInBounds(s: State, tag: nat)
    requires CoreInv(s) && tag in s.reqs
    ensures InBounds(s, tag)
  {
    assert RequestOk(s, tag);
  }

  lemma TickOneKeeps(s: State, tag: nat)
    requires CoreInv(s) && tag in s.reqs
    ensures InBounds(s, tag) && CoreInv(TickOne(s, tag))
    ensures TickOne(s, tag).reqs.Keys == s.reqs.Keys - (if s.reqs[tag].status == Done then {tag} else {})
  {
    BusyInBounds(s, tag);
    match s.reqs[tag].status
    case Busy => SendKeeps(s, tag);
    case WaitingDone =>
    case Done => RetireKeeps(s, tag);
  }

  // ---------------------------------------------------------------- the memory performs an operation

  /** Bytes of one request survive a write to the ranges of another. */
  lemma BytesElsewhere(s: State, s': State, tag: nat)
    requires tag in s.reqs && tag in s'.reqs && BytesOk(s, tag) && s'.reqs[tag] == s.reqs[tag]
    requires |s'.sim| == |s.sim| && |s'.sst| == |s.sst|
    requires forall x :: s.reqs[tag].sim <= x < s.reqs[tag].sim + s.reqs[tag].size ==> s'.sim[x] == s.sim[x]
    requires forall x :: s.reqs[tag].sst <= x < s.reqs[tag].sst + s.reqs[tag].size ==> s'.sst[x] == s.sst[x]
    requires forall id :: id in s.ops && s.ops[id].tag == tag ==> id in s'.ops && s'.ops[id] == s.ops[id]
    ensures BytesOk(s', tag)
  {
    var r := s.reqs[tag];
    forall j: nat | j < r.offset
      ensures Copied(s', r, j) || exists id :: InHand(s', tag, j, id)
    {
      assert Copied(s, r, j) || exists id :: InHand(s, tag, j, id);
      if !Copied(s, r, j) {
        var id :| InHand(s, tag, j, id);
        assert InHand(s', tag, j, id);
      }
    }
  }

  /** Memory keeps its contents over the range of a request. */
  ghost predicate SameOver(m: seq<byte>, m': seq<byte>, at: nat, size: nat) {
    |m'| == |m| && at + size <= |m| && forall x :: at <= x < at + size ==> m'[x] == m[x]
  }

  /** A write inside one request's range leaves another request's range alone. */
  lemma WriteElsewhere(m: seq<byte>, at: nat, data: seq<byte>, a: nat, aSize: nat, b: nat, bSize: nat)
    requires a <= at && at + |data| <= a + aSize <= |m| && b + bSize <= |m| && !RangesTouch(a, a + aSize, b, b + bSize)
    ensures SameOver(m, Written(m, at, data), b, bSize)
  {}

  lemma ReadSame(m: seq<byte>, m': seq<byte>, at: nat, size: nat, lo: nat, span: nat)
    requires SameOver(m, m', lo, span) && lo <= at && at + size <= lo + span
    ensures Read(m, at, size) == Read(m', at, size)
  {}

  /** Facts the memory needs to perform an operation. */
  lemma CanPerform(s: State, id: nat)
    requires CoreInv(s) && id in s.ops
    ensures OpOk(s, id) && RequestOk(s, s.ops[id].tag) && s.ops[id].tag in s.reqs
    ensures var op := s.ops[id]; op.at + op.size <= |s.sst| && op.at + |op.data| <= |s.sst|
  {
    assert OpOk(s, id);
    assert RequestOk(s, s.ops[id].tag);
  }

  lemma PerformBytes(s: State, id: nat, s': State, tag: nat)
    requires OpOk(s, id) && s.ops[id].at + |s.ops[id].data| <= |s.sst| && s' == Perform(s, id)
    requires tag in s.reqs && BytesOk(s, tag) && (tag == s.ops[id].tag || !Touch(s.reqs[s.ops[id].tag], s.reqs[tag]))
    ensures BytesOk(s', tag)
  {
    var op := s.ops[id];
    var r := s.reqs[op.tag];
    if tag != op.tag {
      if r.dir == SimToSst { WriteElsewhere(s.sst, op.at, op.data, r.sst, r.size, s.reqs[tag].sst, s.reqs[tag].size); }
      BytesElsewhere(s, s', tag);
    } else {
      forall j: nat | j < r.offset
        ensures Copied(s', r, j) || exists id :: InHand(s', tag, j, id)
      {
        assert Copied(s, r, j) || exists id :: InHand(s, tag, j, id);
        if !Copied(s', r, j) {
          assert !Copied(s, r, j);
          var id' :| InHand(s, tag, j, id');
          assert InHand(s', tag, j, id');
        }
      }
    }
  }

  lemma PerformOps(s: State, id: nat, s': State, other: nat)
    requires OpOk(s, id) && s.ops[id].at + |s.ops[id].data| <= |s.sst| && s' == Perform(s, id)
    requires OpOk(s, other)
    requires (s.ops[other].tag == s.ops[id].tag || !Touch(s.reqs[s.ops[id].tag], s.reqs[s.ops[other].tag]))
    ensures OpOk(s', other)
  {
    hide Written, Read, SameOver;
    var op := s.ops[id];
    var r, q := s.reqs[op.tag], s.reqs[s.ops[other].tag];
    if s.ops[other].tag != op.tag && r.dir == SimToSst {
      WriteElsewhere(s.sst, op.at, op.data, r.sst, r.size, q.sst, q.size);
      ReadSame(s.sst, s'.sst, s.ops[other].at, s.ops[other].size, q.sst, q.size);
    }
  }

  lemma PerformRequests(s: State, id: nat, s': State, tag: nat)
    requires OpOk(s, id) && s.ops[id].at + |s.ops[id].data| <= |s.sst| && s' == Perform(s, id) && RequestOk(s, tag)
    ensures RequestOk(s', tag)
  {
    hide Divides, Written, Read;
    assert s'.ops == s.ops[id := s'.ops[id]];
    OpsOfUpdate(s.ops, id, s'.ops[id], tag);
  }

  lemma PerformKeeps(s: State, id: nat)
    requires CoreInv(s) && id in s.ops
    ensures s.ops[id].tag in s.reqs && s.ops[id].at + s.ops[id].size <= |s.sst|
    ensures s.ops[id].at + |s.ops[id].data| <= |s.sst|
    ensures CoreInv(Perform(s, id)) && Perform(s, id).queue == s.queue && Perform(s, id).reqs == s.reqs
  {
    hide RequestOk, BytesOk, OpOk, Written, Read, Touch;
    CanPerform(s, id);
    var s' := Perform(s, id);
    forall tag | tag in s'.reqs
      ensures RequestOk(s', tag) && BytesOk(s', tag)
    {
      assert RequestOk(s, tag) && BytesOk(s, tag);
      PerformRequests(s, id, s', tag);
      PerformBytes(s, id, s', tag);
    }
    forall other | other in s'.ops
      ensures OpOk(s', other)
    {
      assert OpOk(s, other);
      OpRefers(s, other);
      PerformOps(s, id, s', other);
    }
  }

  // ---------------------------------------------------------------- a response arrives

  lemma ResponseFits(s: State, id: nat)
    requires CoreInv(s) && id in s.ops && s.ops[id].performed
    ensures OpOk(s, id) && RequestOk(s, s.ops[id].tag) && CanRespond(s, id)
  {
    assert OpOk(s, id);
    assert RequestOk(s, s.ops[id].tag);
    assert id in OpsOf(s.ops, s.ops[id].tag);
  }

  lemma RespondBytes(s: State, id: nat, s': State, tag: nat)
    requires OpOk(s, id) && CanRespond(s, id) && s' == Respond(s, id)
    requires tag in s.reqs && BytesOk(s, tag) && (tag == s.ops[id].tag || !Touch(s.reqs[s.ops[id].tag], s.reqs[tag]))
    ensures BytesOk(s', tag)
  {
    var op := s.ops[id];
    var r := s.reqs[op.tag];
    if tag == op.tag {
      RespondOwnBytes(s, id, s');
    } else {
      if r.dir == SstToSim {
        WriteElsewhere(s.sim, r.sim + (op.at - r.sst), op.data, r.sim, r.size, s.reqs[tag].sim, s.reqs[tag].size);
      }
      BytesElsewhere(s, s', tag);
    }
  }

  /** The memories at byte `j` of the request after the response of one of its operations. */
  lemma RespondByte(s: State, id: nat, s': State, j: nat)
    requires OpOk(s, id) && CanRespond(s, id) && s' == Respond(s, id) && j < s.reqs[s.ops[id].tag].offset
    ensures |s'.sim| == |s.sim| && s'.sst == s.sst
    ensures var r, op := s.reqs[s.ops[id].tag], s.ops[id];
      s'.sim[r.sim + j] ==
        if r.dir == SstToSim && op.at <= r.sst + j < op.at + op.size then s.sst[r.sst + j] else s.sim[r.sim + j]
  {
    hide Divides;
  }

  lemma RespondOwnBytes(s: State, id: nat, s': State)
    requires OpOk(s, id) && CanRespond(s, id) && s' == Respond(s, id) && BytesOk(s, s.ops[id].tag)
    ensures BytesOk(s', s.ops[id].tag)
  {
    hide Written, Read, OpOk, Answered;
    var tag := s.ops[id].tag;
    var r, r' := s.reqs[tag], s'.reqs[tag];
    AnsweredSame(r);
    forall j: nat | j < r'.offset
      ensures Copied(s', r', j) || exists id :: InHand(s', tag, j, id)
    {
      RespondByte(s, id, s', j);
      assert Copied(s, r, j) || exists id :: InHand(s, tag, j, id);
      if !Copied(s', r', j) {
        assert !Copied(s, r, j);
        var id' :| InHand(s, tag, j, id');
        assert id' != id;
        assert InHand(s', tag, j, id');
      }
    }
  }

  lemma AnsweredSame(r: Request)
    requires 0 < r.ongoing
    ensures var r' := Answered(r);
      r'.sim == r.sim && r'.sst == r.sst && r'.size == r.size && r'.offset == r.offset && r'.dir == r.dir
  {}

  lemma RespondOps(s: State, id: nat, s': State, other: nat)
    requires OpOk(s, id) && CanRespond(s, id) && s' == Respond(s, id) && other != id
    requires OpOk(s, other)
    requires (s.ops[other].tag == s.ops[id].tag || !Touch(s.reqs[s.ops[id].tag], s.reqs[s.ops[other].tag]))
    ensures OpOk(s', other)
  {
    hide Written, Read, SameOver;
    var op := s.ops[id];
    var r, q := s.reqs[op.tag], s.reqs[s.ops[other].tag];
    if s.ops[other].tag != op.tag && r.dir == SstToSim {
      WriteElsewhere(s.sim, r.sim + (op.at - r.sst), op.data, r.sim, r.size, q.sim, q.size);
      ReadSame(s.sim, s'.sim, q.sim + (s.ops[other].at - q.sst), s.ops[other].size, q.sim, q.size);
    }
  }

  lemma RespondRequests(s: State, id: nat, s': State, tag: nat)
    requires OpOk(s, id) && CanRespond(s, id) && s' == Respond(s, id) && RequestOk(s, tag)
    requires RequestOk(s, s.ops[id].tag)
    ensures RequestOk(s', tag)
  {
    OpsOfRemove(s.ops, id, tag);
    hide Divides, Written, Read, OpsOf;
  }

  lemma RespondKeeps(s: State, id: nat)
    requires CoreInv(s) && id in s.ops && s.ops[id].performed
    ensures CanRespond(s, id) && CoreInv(Respond(s, id))
    ensures Respond(s, id).queue == s.queue && Respond(s, id).reqs.Keys == s.reqs.Keys
  {
    hide RequestOk, BytesOk, OpOk, Written, Read, Touch, CanRespond;
    ResponseFits(s, id);
    var s' := Respond(s, id);
    RespondShape(s, id);
    forall tag | tag in s'.reqs
      ensures RequestOk(s', tag) && BytesOk(s', tag)
    {
      assert RequestOk(s, tag) && BytesOk(s, tag);
      RespondRequests(s, id, s', tag);
      RespondBytes(s, id, s', tag);
    }
    forall other | other in s'.ops
      ensures OpOk(s', other)
    {
      assert OpOk(s, other);
      OpRefers(s, other);
      RespondOps(s, id, s', other);
    }
    SameRanges(s.reqs, s'.reqs);
  }

  lemma RespondShape(s: State, id: nat)
    requires CanRespond(s, id)
    ensures var s' := Respond(s, id);
      && s'.queue == s.queue && s'.reqs.Keys == s.reqs.Keys && s'.ops == s.ops - {id}
      && s'.answered == s.answered && s'.nextTag == s.nextTag && s'.posted == s.posted
      && forall a :: a in s'.reqs ==>
        && s'.reqs[a].sim == s.reqs[a].sim && s'.reqs[a].sst == s.reqs[a].sst && s'.reqs[a].size == s.reqs[a].size
        && s'.reqs[a].posted == s.reqs[a].posted
  {}
}
