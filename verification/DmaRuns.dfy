/** Runs of the DMA engine: any interleaving of new requests, ticks, and memory operations
    performed and answered in any order. */
module DmaRuns {
  import opened Sequences
  import opened Dma

  // ---------------------------------------------------------------- a whole tick

  ghost predicate Ready(s: State, tags: seq<nat>) {
    && (forall i :: 0 <= i < |tags| ==> InBounds(s, tags[i]))
    && (forall i, j :: 0 <= i < j < |tags| ==> tags[i] != tags[j])
  }

  lemma ReadyRest(s: State, tags: seq<nat>)
    requires Ready(s, tags) && tags != []
    ensures Ready(TickOne(s, tags[0]), tags[1..])
  {
    var s' := TickOne(s, tags[0]);
    forall i | 0 <= i < |tags[1..]|
      ensures InBounds(s', tags[1..][i])
    {
      assert tags[1..][i] == tags[i + 1] && InBounds(s, tags[i + 1]);
    }
  }

  /** The entries of the queue one after the other. */
  function TickFrom(s: State, tags: seq<nat>): State
    requires Ready(s, tags)
    decreases |tags|
  {
    if tags == [] then s
    else
      ReadyRest(s, tags);
      TickFrom(TickOne(s, tags[0]), tags[1..])
  }

  /** The queue without the entries that are gone. */
  function Kept(queue: seq<nat>, reqs: map<nat, Request>): seq<nat> {
    if queue == [] then []
    else (if queue[0] in reqs then [queue[0]] else []) + Kept(queue[1..], reqs)
  }

  function Tick(s: State): State
    requires Ready(s, s.queue)
  {
    var s' := TickFrom(s, s.queue);
    s'.(queue := Kept(s.queue, s'.reqs))
  }

  lemma {:induction false} TickFromKeeps(s: State, tags: seq<nat>)
    requires CoreInv(s) && Ready(s, tags)
    ensures CoreInv(TickFrom(s, tags)) && TickFrom(s, tags).reqs.Keys <= s.reqs.Keys
    decreases |tags|
  {
    hide CoreInv, TickOne;
    if tags != [] {
      ReadyRest(s, tags);
      InBoundsHas(s, tags[0]);
      TickOneKeeps(s, tags[0]);
      TickFromKeeps(TickOne(s, tags[0]), tags[1..]);
    }
  }

  lemma InBoundsHas(s: State, tag: nat)
    requires InBounds(s, tag)
    ensures tag in s.reqs
  {}

  lemma {:induction false} KeptMembers(queue: seq<nat>, reqs: map<nat, Request>, x: nat)
    ensures x in Kept(queue, reqs) <==> x in queue && x in reqs
  {
    if queue != [] {
      KeptMembers(queue[1..], reqs, x);
      assert x in queue <==> x == queue[0] || x in queue[1..];
    }
  }

  lemma IncreasingCons(x: nat, s: seq<nat>)
    requires Increasing(s) && forall y :: y in s ==> x < y
    ensures Increasing([x] + s)
  {
    var t := [x] + s;
    forall i, j | 0 <= i < j < |t|
      ensures t[i] < t[j]
    {
      assert t[j] == s[j - 1] && s[j - 1] in s;
    }
  }

  lemma {:induction false} KeptOrder(queue: seq<nat>, reqs: map<nat, Request>)
    requires Increasing(queue)
    ensures Increasing(Kept(queue, reqs))
  {
    if queue != [] {
      KeptOrder(queue[1..], reqs);
      var rest := Kept(queue[1..], reqs);
      forall x | x in rest
        ensures queue[0] < x
      {
        KeptMembers(queue[1..], reqs, x);
      }
      IncreasingCons(queue[0], rest);
      assert [] + rest == rest;
    }
  }

  lemma QueueReady(s: State)
    requires Inv(s)
    ensures Ready(s, s.queue)
  {
    forall i | 0 <= i < |s.queue|
      ensures InBounds(s, s.queue[i])
    {
      BusyInBounds(s, s.queue[i]);
    }
  }

  lemma KeptQueueOk(s: State, s': State)
    requires QueueOk(s) && s'.reqs.Keys <= s.reqs.Keys && s'.queue == Kept(s.queue, s'.reqs)
    ensures QueueOk(s')
  {
    hide Kept;
    KeptOrder(s.queue, s'.reqs);
    forall x: nat
      ensures x in s'.queue <==> x in s.queue && x in s'.reqs
    {
      KeptMembers(s.queue, s'.reqs, x);
    }
    forall i | 0 <= i < |s'.queue|
      ensures s'.queue[i] in s'.reqs
    {
      assert s'.queue[i] in s'.queue;
    }
  }

  lemma TickKeeps(s: State)
    requires Inv(s)
    ensures Ready(s, s.queue) && Inv(Tick(s))
  {
    hide CoreInv, QueueOk, TickFrom, Kept, Ready;
    QueueReady(s);
    TickFromKeeps(s, s.queue);
    CoreQueue(TickFrom(s, s.queue), Tick(s).queue);
    KeptQueueOk(s, Tick(s));
  }

  /** The queue plays no part in the rest of the invariant. */
  lemma CoreQueue(s: State, queue: seq<nat>)
    requires CoreInv(s)
    ensures CoreInv(s.(queue := queue))
  {
    var s' := s.(queue := queue);
    hide RequestOk, BytesOk, OpOk;
    forall tag | tag in s'.reqs
      ensures RequestOk(s', tag) && BytesOk(s', tag)
    {
      assert RequestOk(s, tag) && BytesOk(s, tag);
      RequestSame(s, s', tag);
      BytesSame(s, s', tag);
    }
    forall id | id in s'.ops
      ensures OpOk(s', id)
    {
      assert OpOk(s, id);
      OpRefers(s, id);
      OpSame(s, s', id);
    }
  }

  // ---------------------------------------------------------------- runs

  datatype Action = Arrive(r: Request) | Clock | Performs(id: nat) | Responds(id: nat)

  /** One step. A request arrives that touches no live one (the engine stops on others) and whose
      ranges are memory; a tick; an operation is performed; a performed operation is answered. A
      step outside the memories could do anything. */
  ghost predicate Steps(s: State, a: Action, s': State) {
    match a
    case Arrive(r) => CanAccept(s, r) && r.sim + r.size <= |s.sim| && r.sst + r.size <= |s.sst| && s' == Accept(s, r)
    case Clock => Ready(s, s.queue) ==> s' == Tick(s)
    case Performs(id) => id in s.ops && (CanPerformIt(s, id) ==> s' == Perform(s, id))
    case Responds(id) => id in s.ops && s.ops[id].performed && (CanRespond(s, id) ==> s' == Respond(s, id))
  }

  ghost predicate CanPerformIt(s: State, id: nat) {
    id in s.ops && var op := s.ops[id]; op.tag in s.reqs && op.at + op.size <= |s.sst| && op.at + |op.data| <= |s.sst|
  }

  /** The chunks of an arriving request come out even. */
  ghost predicate EvenArrival(a: Action) { a.Arrive? ==> Even(a.r) }

  ghost predicate AllEven(actions: seq<Action>) { forall n :: 0 <= n < |actions| ==> EvenArrival(actions[n]) }

  lemma StepKeeps(s: State, a: Action, s': State)
    requires Inv(s) && Steps(s, a, s') && EvenArrival(a)
    ensures Inv(s')
  {
    match a
    case Arrive(r) => AcceptKeeps(s, r);
    case Clock => TickKeeps(s);
    case Performs(id) => PerformKeeps(s, id);
    case Responds(id) => RespondKeeps(s, id);
  }

  ghost predicate IsStart(s: State) {
    s.queue == [] && s.reqs == map[] && s.ops == map[] && s.nextTag == 0 && s.posted == [] && s.answered == []
  }

  ghost predicate StepAt(states: seq<State>, actions: seq<Action>, n: nat)
    requires n + 1 < |states| && n < |actions|
  {
    Steps(states[n], actions[n], states[n + 1])
  }

  ghost predicate IsRun(states: seq<State>, actions: seq<Action>) {
    && |states| == |actions| + 1 && IsStart(states[0])
    && forall n :: 0 <= n < |actions| ==> StepAt(states, actions, n)
  }

  lemma {:induction false} RunKeeps(states: seq<State>, actions: seq<Action>, k: nat)
    requires IsRun(states, actions) && AllEven(actions) && k < |states|
    ensures Inv(states[k])
    decreases k
  {
    hide Steps;
    if k == 0 {
      StartInv(states[0]);
    } else {
      RunKeeps(states, actions, k - 1);
      assert StepAt(states, actions, k - 1);
      StepKeeps(states[k - 1], actions[k - 1], states[k]);
    }
  }

  lemma StartInv(s: State)
    requires IsStart(s)
    ensures Inv(s)
  {}

  // ---------------------------------------------------------------- what runs guarantee

  /** The destination of a request holds what its source holds. */
  ghost predicate Transferred(s: State, r: Request) {
    && r.sim + r.size <= |s.sim| && r.sst + r.size <= |s.sst|
    && s.sst[r.sst..r.sst + r.size] == s.sim[r.sim..r.sim + r.size]
  }

  /** In every run, a request that is done has been copied completely, however its chunk
      operations were interleaved with those of other requests. */
  lemma DoneMeansTransferred(states: seq<State>, actions: seq<Action>, k: nat, tag: nat)
    requires IsRun(states, actions) && AllEven(actions) && k < |states| && tag in states[k].reqs
    requires states[k].reqs[tag].status == Done
    ensures Transferred(states[k], states[k].reqs[tag])
  {
    hide IsRun, AllEven;
    RunKeeps(states, actions, k);
    DoneIsCopied(states[k], tag);
  }

  /** In every run, the ongoing count of a live request is the number of its operations in
      flight, and a request that waits for its end has at least one. */
  lemma OngoingIsExact(states: seq<State>, actions: seq<Action>, k: nat, tag: nat)
    requires IsRun(states, actions) && AllEven(actions) && k < |states| && tag in states[k].reqs
    ensures states[k].reqs[tag].ongoing == |OpsOf(states[k].ops, tag)|
    ensures states[k].reqs[tag].status == WaitingDone ==> OpsOf(states[k].ops, tag) != {}
    ensures states[k].reqs[tag].status == Done ==> OpsOf(states[k].ops, tag) == {}
  {
    hide IsRun, AllEven;
    RunKeeps(states, actions, k);
    assert RequestOk(states[k], tag);
  }

  /** In every run, completion is reported exactly once for each non-posted request that has
      left the queue, never for a posted one, and never for a live one. */
  lemma AnsweredExactlyOnce(states: seq<State>, actions: seq<Action>, k: nat, tag: nat)
    requires IsRun(states, actions) && AllEven(actions) && k < |states| && tag < states[k].nextTag
    ensures |states[k].posted| == states[k].nextTag
    ensures multiset(states[k].answered)[tag] ==
      if tag in states[k].queue || states[k].posted[tag] then 0 else 1
  {
    hide IsRun, AllEven;
    RunKeeps(states, actions, k);
    var s := states[k];
    assert tag in s.reqs <==> tag in s.queue;
    CountOnce(s.answered, tag);
  }

  /** Every response finds its request: the engine's map never misses an identifier, and the
      copy it makes stays inside the memories. */
  lemma ResponsesFindTheirRequest(states: seq<State>, actions: seq<Action>, k: nat, id: nat)
    requires IsRun(states, actions) && AllEven(actions) && k < |states| && id in states[k].ops
    ensures states[k].ops[id].tag in states[k].reqs
    ensures states[k].ops[id].performed ==> CanRespond(states[k], id)
  {
    hide IsRun, AllEven;
    RunKeeps(states, actions, k);
    assert OpOk(states[k], id);
    if states[k].ops[id].performed { ResponseFits(states[k], id); }
  }

  // ---------------------------------------------------------------- the engine object

  lemma {:induction false} KeptConcat(a: seq<nat>, b: seq<nat>, reqs: map<nat, Request>)
    ensures Kept(a + b, reqs) == Kept(a, reqs) + Kept(b, reqs)
  {
    if a == [] {
      assert a + b == b;
    } else {
      KeptConcat(a[1..], b, reqs);
      assert (a + b)[0] == a[0] && (a + b)[1..] == a[1..] + b;
      var head := if a[0] in reqs then [a[0]] else [];
      assert head + (Kept(a[1..], reqs) + Kept(b, reqs)) == (head + Kept(a[1..], reqs)) + Kept(b, reqs);
    }
  }

  class DmaEngine {
    var queue: seq<nat>
    var reqs: map<nat, Request>
    var ops: map<nat, Op>
    var nextId: nat
    var nextTag: nat
    var posted: seq<bool>
    var answered: seq<nat>
    var sim: seq<byte>
    ghost var sst: seq<byte>   // the memory system's contents; the engine never reads them

    ghost function View(): State
      reads this
    {
      State(queue, reqs, ops, nextId, nextTag, posted, answered, sim, sst)
    }

    constructor (memory: seq<byte>, ghost other: seq<byte>)
      ensures IsStart(View()) && Inv(View()) && sim == memory && sst == other
    {
      queue, reqs, ops, nextId, nextTag, posted, answered := [], map[], map[], 0, 0, [], [];
      sim, sst := memory, other;
    }

    /** A request is written to the control registers; an overlap with a live one is fatal. */
    method HandleWrite(r: Request) returns (ok: bool)
      requires Inv(View())
      modifies this
      ensures ok == CanAccept(old(View()), r)
      ensures View() == if ok then Accept(old(View()), r) else old(View())
    {
      for i := 0 to |queue|
        invariant View() == old(View())
        invariant forall k :: 0 <= k < i ==> !Touch(r, reqs[queue[k]])
      {
        if Touch(r, reqs[queue[i]]) { return false; }
      }
      assert CanAccept(old(View()), r) by { hide CoreInv, Touch; }
      queue := queue + [nextTag];
      reqs := reqs[nextTag := r.(status := Busy, offset := 0, ongoing := 0)];
      posted := posted + [r.posted];
      nextTag := nextTag + 1;
      return true;
    }

    /** One queue entry. */
    method Serve(tag: nat)
      requires InBounds(View(), tag)
      modifies this
      ensures View() == TickOne(old(View()), tag) && queue == old(queue)
    {
      var r := reqs[tag];
      match r.status {
        case Busy =>
          var actual := if r.size < r.chunk then r.size else r.chunk;
          var data: seq<byte> := [];
          if r.dir == SimToSst {
            for i := 0 to actual
              invariant View() == old(View()) && data == sim[r.sim + r.offset..r.sim + r.offset + i]
            {
              data := data + [sim[r.sim + r.offset + i]];
            }
          }
          ops := ops[nextId := Op(tag, r.sst + r.offset, actual, data, false)];
          nextId := nextId + 1;
          reqs := reqs[tag := r.(offset := r.offset + actual, ongoing := r.ongoing + 1,
                                 status := if r.offset + actual >= r.size then WaitingDone else Busy)];
        case WaitingDone =>
        case Done =>
          if !r.posted { answered := answered + [tag]; }
          reqs := reqs - {tag};
      }
    }

    /** One clock tick: serve every entry, then drop the finished ones. */
    method ClockTick()
      requires Inv(View())
      modifies this
      ensures Ready(old(View()), old(queue)) && View() == Tick(old(View())) && Inv(View())
    {
      ghost var s0 := View();
      QueueReady(s0);
      TickKeeps(s0);
      TickIs(s0);
      hide Inv, TickOne, Tick, Ready, Kept, TickFrom;
      for i := 0 to |queue|
        invariant queue == s0.queue && Ready(View(), queue[i..])
        invariant TickFrom(View(), queue[i..]) == TickFrom(s0, s0.queue)
      {
        TickFromStep(View(), queue, i);
        Serve(queue[i]);
      }
      TickFromEnd(View(), queue);
      DropFinished();
    }

    method DropFinished()
      modifies this`queue
      ensures queue == Kept(old(queue), reqs)
    {
      var kept: seq<nat> := [];
      for i := 0 to |queue|
        invariant queue == old(queue) && kept == Kept(queue[..i], reqs)
      {
        assert queue[..i + 1] == queue[..i] + [queue[i]];
        KeptConcat(queue[..i], [queue[i]], reqs);
        if queue[i] in reqs { kept := kept + [queue[i]]; }
      }
      assert queue[..|queue|] == queue;
      queue := kept;
    }

    /** The response of operation `id`: a read's data is copied byte by byte. */
    method HandleResponse(id: nat)
      requires CanRespond(View(), id)
      modifies this
      ensures View() == Respond(old(View()), id)
    {
      var op := ops[id];
      var r := reqs[op.tag];
      if r.dir == SstToSim {
        var start := r.sim + (op.at - r.sst);
        for i := 0 to |op.data|
          invariant |sim| == |old(sim)| && View() == old(View()).(sim := sim)
          invariant forall x :: 0 <= x < |sim| ==>
            sim[x] == if start <= x < start + i then op.data[x - start] else old(sim)[x]
        {
          sim := sim[start + i := op.data[i]];
        }
        assert sim == Written(old(sim), start, op.data);
      }
      var left := r.ongoing - 1;
      var status := if r.status == WaitingDone && left == 0 then Done else r.status;
      reqs := reqs[op.tag := r.(ongoing := left, status := status)];
      ops := ops - {id};
    }
  }

  lemma TickIs(s: State)
    requires Ready(s, s.queue)
    ensures Tick(s) == TickFrom(s, s.queue).(queue := Kept(s.queue, TickFrom(s, s.queue).reqs))
  {}

  lemma TickFromStep(s: State, queue: seq<nat>, i: nat)
    requires i < |queue| && Ready(s, queue[i..])
    ensures InBounds(s, queue[i]) && Ready(TickOne(s, queue[i]), queue[i + 1..])
    ensures TickFrom(s, queue[i..]) == TickFrom(TickOne(s, queue[i]), queue[i + 1..])
  {
    assert queue[i..][0] == queue[i] && queue[i..][1..] == queue[i + 1..];
    ReadyRest(s, queue[i..]);
    hide TickOne;
  }

  lemma TickFromEnd(s: State, queue: seq<nat>)
    ensures Ready(s, queue[|queue|..]) && TickFrom(s, queue[|queue|..]) == s
  {}
}
