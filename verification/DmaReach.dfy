/** How far the chunk operations of a request reach. The engine does not trim the last chunk, so
    for sizes that are not even it reads and writes past the requested range. */
module DmaReach {
  import opened Arithmetic
  import opened Dma
  import opened DmaRuns

  // ---------------------------------------------------------------- where the chunks end

  /** Bytes the engine covers: chunks are sent until the offset reaches the size. */
  function CoveredFrom(size: nat, step: nat, offset: nat): (end: nat)
    requires 0 < step
    decreases if offset < size then size - offset else 0
  {
    if offset < size then CoveredFrom(size, step, offset + step) else offset
  }

  lemma {:induction false} CoveredExactly(size: nat, step: nat, offset: nat)
    requires 0 < step && offset <= size
    ensures CoveredFrom(size, step, offset) == size <==> Divides(step, size - offset)
    decreases size - offset
  {
    hide Divides;
    if offset == size {
      DividesZero(step);
    } else if offset + step <= size {
      CoveredExactly(size, step, offset + step);
      DividesMore(step, size - offset - step);
    } else {
      DividesSmall(step, size - offset);
    }
  }

  lemma DividesZero(c: nat)
    requires 0 < c
    ensures Divides(c, 0)
  {}

  lemma DividesSmall(c: nat, x: nat)
    requires 0 < x < c
    ensures !Divides(c, x)
  {}

  lemma DividesMore(c: nat, x: nat)
    requires 0 < c
    ensures Divides(c, x + c) <==> Divides(c, x)
  {
    if Divides(c, x + c) { DividesStep(c, x + c); }
    if Divides(c, x) {
      assert x == c * (x / c);
      assert x + c == c * (x / c + 1);
      MultipleMod(c, x / c + 1, x + c);
    }
  }

  /** The untrimmed last chunk: a request touches exactly its own bytes if and only if it fits
      in one chunk or is a whole number of chunks. */
  lemma EvenExactly(r: Request)
    requires 0 < r.chunk && 0 < r.size
    ensures CoveredFrom(r.size, Step(r), 0) == r.size <==> Even(r)
  {
    CoveredExactly(r.size, Step(r), 0);
    hide Divides;
    if r.size <= r.chunk { DividesSelf(r.size); }
    if r.size == r.chunk { DividesSelf(r.chunk); }
  }

  lemma DividesSelf(c: nat)
    requires 0 < c
    ensures Divides(c, c)
  {
    MultipleMod(c, 1, c);
  }

  // ---------------------------------------------------------------- the engine's own steps

  /** Where the engine stops sending, from offset 0. */
  ghost function Covered(r: Request): nat
    requires 0 < r.size && 0 < r.chunk
  {
    CoveredFrom(r.size, Dma.Step(r), 0)
  }

  /** A request on its way to `Covered`, or there. */
  ghost predicate Paced(r: Request) {
    0 < r.size && 0 < r.chunk ==>
      if r.status == Busy then r.offset < r.size && CoveredFrom(r.size, Dma.Step(r), r.offset) == Covered(r)
      else r.offset == Covered(r)
  }

  ghost predicate Within(op: Op, r: Request) { op.at + op.size <= r.sst + r.offset }

  /** Requests are paced, and their operations in flight end where they are or before. */
  ghost predicate PacedState(s: State) {
    && (forall tag :: tag in s.reqs ==> tag < s.nextTag && Paced(s.reqs[tag]))
    && (forall id :: id in s.ops ==>
      s.ops[id].tag < s.nextTag && (s.ops[id].tag in s.reqs ==> Within(s.ops[id], s.reqs[s.ops[id].tag])))
  }

  lemma AdvancedPaced(r: Request)
    requires Paced(r) && r.status == Busy
    ensures Paced(Advanced(r))
  {
    if 0 < r.size && 0 < r.chunk {
      var step := Dma.Step(r);
      assert CoveredFrom(r.size, step, r.offset) == CoveredFrom(r.size, step, r.offset + step);
    }
  }

  lemma AnsweredPaced(r: Request)
    requires Paced(r) && 0 < r.ongoing
    ensures Paced(Answered(r)) && Answered(r).offset == r.offset && Answered(r).sst == r.sst
  {}

  lemma TickOnePaced(s: State, tag: nat)
    requires PacedState(s) && InBounds(s, tag)
    ensures PacedState(TickOne(s, tag))
  {
    if s.reqs[tag].status == Busy { AdvancedPaced(s.reqs[tag]); }
    hide Paced;
  }

  lemma {:induction false} TickFromPaced(s: State, tags: seq<nat>)
    requires PacedState(s) && Ready(s, tags)
    ensures PacedState(TickFrom(s, tags))
    decreases |tags|
  {
    hide PacedState, TickOne;
    if tags != [] {
      ReadyRest(s, tags);
      TickOnePaced(s, tags[0]);
      TickFromPaced(TickOne(s, tags[0]), tags[1..]);
    }
  }

  /** The step stays inside the memories and finds its request. */
  ghost predicate Defined(s: State, a: Action) {
    match a
    case Arrive(r) => true
    case Clock => Ready(s, s.queue)
    case Performs(id) => CanPerformIt(s, id)
    case Responds(id) => CanRespond(s, id)
  }

  ghost predicate AllDefined(states: seq<State>, actions: seq<Action>) {
    forall n :: 0 <= n < |actions| && n < |states| ==> Defined(states[n], actions[n])
  }

  lemma StepPaced(s: State, a: Action, s': State)
    requires PacedState(s) && Steps(s, a, s') && Defined(s, a)
    ensures PacedState(s')
  {
    match a
    case Arrive(r) =>
    case Clock => TickFromPaced(s, s.queue);
    case Performs(id) =>
    case Responds(id) => AnsweredPaced(s.reqs[s.ops[id].tag]);
  }

  lemma {:induction false} RunPaced(states: seq<State>, actions: seq<Action>, k: nat)
    requires IsRun(states, actions) && AllDefined(states, actions) && k < |states|
    ensures PacedState(states[k])
    decreases k
  {
    hide PacedState, Steps, Defined;
    if k == 0 {
      StartPaced(states[0]);
    } else {
      RunPaced(states, actions, k - 1);
      assert StepAt(states, actions, k - 1);
      StepPaced(states[k - 1], actions[k - 1], states[k]);
    }
  }

  lemma StartPaced(s: State)
    requires IsStart(s)
    ensures PacedState(s)
  {}

  // ---------------------------------------------------------------- the last chunk

  /** Operation `id` of the request ends exactly at offset `end`. */
  ghost predicate EndsAt(s: State, id: nat, tag: nat, end: nat)
    requires tag in s.reqs
  {
    id in s.ops && s.ops[id].tag == tag && s.ops[id].at + s.ops[id].size == s.reqs[tag].sst + end
  }

  /** Serving the rest of the queue keeps what has been sent. */
  lemma {:induction false} SentStays(s: State, tags: seq<nat>, id: nat)
    requires Ready(s, tags) && id in s.ops && id < s.nextId
    ensures id in TickFrom(s, tags).ops && TickFrom(s, tags).ops[id] == s.ops[id]
    decreases |tags|
  {
    if tags != [] {
      ReadyRest(s, tags);
      SentStays(TickOne(s, tags[0]), tags[1..], id);
    }
  }

  lemma {:induction false} OthersStay(s: State, tags: seq<nat>, tag: nat)
    requires Ready(s, tags) && tag !in tags
    ensures (tag in TickFrom(s, tags).reqs <==> tag in s.reqs)
    ensures (tag in s.reqs ==> TickFrom(s, tags).reqs[tag] == s.reqs[tag])
    decreases |tags|
  {
    if tags != [] {
      ReadyRest(s, tags);
      assert tag !in tags[1..];
      OthersStay(TickOne(s, tags[0]), tags[1..], tag);
    }
  }

  /** The pass in which a request stops being busy sends an operation that ends at its offset. */
  lemma {:induction false} LastChunk(s: State, tags: seq<nat>, tag: nat) returns (id: nat)
    requires Ready(s, tags) && tag in s.reqs && s.reqs[tag].status == Busy
    requires tag in TickFrom(s, tags).reqs && TickFrom(s, tags).reqs[tag].status != Busy
    ensures var s' := TickFrom(s, tags);
      s'.reqs[tag] == Advanced(s.reqs[tag]) && EndsAt(s', id, tag, s'.reqs[tag].offset)
    decreases |tags|
  {
    hide Read;
    if tag !in tags { OthersStay(s, tags, tag); }
    ReadyRest(s, tags);
    var s1 := TickOne(s, tags[0]);
    if tags[0] == tag {
      id := s.nextId;
      assert tag !in tags[1..];
      OthersStay(s1, tags[1..], tag);
      SentStays(s1, tags[1..], id);
    } else {
      id := LastChunk(s1, tags[1..], tag);
    }
  }

  /** In every run, with whatever sizes: the tick in which a request stops being busy sends an
      operation that ends where the covering of its size by whole chunks ends, and that is past
      the request's range if and only if its size is not even. */
  lemma LastChunkReaches(states: seq<State>, actions: seq<Action>, k: nat, tag: nat) returns (id: nat)
    requires IsRun(states, actions) && AllDefined(states, actions) && k < |actions| && actions[k] == Clock
    requires tag in states[k].reqs && states[k].reqs[tag].status == Busy && 0 < states[k].reqs[tag].size
    requires 0 < states[k].reqs[tag].chunk
    requires |states| == |actions| + 1 && tag in states[k + 1].reqs && states[k + 1].reqs[tag].status != Busy
    ensures states[k + 1].reqs[tag].offset == Covered(states[k].reqs[tag])
    ensures EndsAt(states[k + 1], id, tag, Covered(states[k].reqs[tag]))
    ensures states[k].reqs[tag].size < Covered(states[k].reqs[tag]) <==> !Even(states[k].reqs[tag])
  {
    RunPaced(states, actions, k);
    assert StepAt(states, actions, k) && Defined(states[k], actions[k]);
    hide IsRun, AllDefined;
    var s, r := states[k], states[k].reqs[tag];
    id := LastChunk(s, s.queue, tag);
    AdvancedPaced(r);
    EvenExactly(r);
    CoversAll(r.size, Dma.Step(r), 0);
  }

  lemma {:induction false} CoversAll(size: nat, step: nat, offset: nat)
    requires 0 < step
    ensures size <= CoveredFrom(size, step, offset) && offset <= CoveredFrom(size, step, offset)
    decreases if offset < size then size - offset else 0
  {
    if offset < size { CoversAll(size, step, offset + step); }
  }

  /** In every run, an operation of an even request ends inside its range. */
  lemma EvenStaysInside(states: seq<State>, actions: seq<Action>, k: nat, id: nat)
    requires IsRun(states, actions) && AllDefined(states, actions) && k < |states|
    requires id in states[k].ops && states[k].ops[id].tag in states[k].reqs
    requires var r := states[k].reqs[states[k].ops[id].tag]; 0 < r.size && Even(r)
    ensures var op := states[k].ops[id]; var r := states[k].reqs[op.tag]; op.at + op.size <= r.sst + r.size
  {
    RunPaced(states, actions, k);
    hide IsRun, AllDefined;
    var r := states[k].reqs[states[k].ops[id].tag];
    assert Paced(r) && Within(states[k].ops[id], r);
    EvenExactly(r);
    CoversAll(r.size, Dma.Step(r), 0);
  }

  // ---------------------------------------------------------------- a request that is not even

  const UNEVEN := Request(0, 0, 3, 2, SimToSst, false, Busy, 0, 0)

  const HELD: seq<byte> := [1, 2, 3, 4]
  const BLANK: seq<byte> := [0, 0, 0, 0]

  function FirstState(): State { State([], map[], map[], 0, 0, [], [], HELD, BLANK) }

  /** Two bytes are on their way. */
  function HalfSent(): State {
    State([0], map[0 := UNEVEN.(offset := 2, ongoing := 1)], map[0 := Op(0, 0, 2, [1, 2], false)], 1, 1, [false], [],
      HELD, BLANK)
  }

  /** Four bytes are on their way, and the request waits for its end. */
  function AllSent(): State {
    State([0], map[0 := UNEVEN.(offset := 4, ongoing := 2, status := WaitingDone)],
          map[0 := Op(0, 0, 2, [1, 2], false), 1 := Op(0, 2, 2, [3, 4], false)], 2, 1, [false], [], HELD, BLANK)
  }

  lemma FirstChunk()
    ensures var s := Accept(FirstState(), UNEVEN); Ready(s, s.queue) && Tick(s) == HalfSent()
  {
    var s := Accept(FirstState(), UNEVEN);
    assert s.queue == [0] && HELD[0..2] == [1, 2];
    OneEntry(s, 0);
  }

  lemma SecondChunk()
    ensures var s := HalfSent(); Ready(s, s.queue) && Tick(s) == AllSent()
  {
    assert HELD[2..4] == [3, 4];
    OneEntry(HalfSent(), 0);
  }

  lemma FourthByte()
    ensures CanPerformIt(AllSent(), 1) && Perform(AllSent(), 1).sst == [0, 0, 3, 4]
  {}

  lemma FirstAccepted()
    ensures IsStart(FirstState()) && CanAccept(FirstState(), UNEVEN)
  {}

  /** Three bytes in chunks of two: the second chunk reads and writes a fourth byte. */
  lemma UnevenOverruns() returns (states: seq<State>, actions: seq<Action>)
    ensures IsRun(states, actions) && AllDefined(states, actions)
    ensures actions == [Arrive(UNEVEN), Clock, Clock, Performs(1)] && |states| == 5
    ensures states[0].sim == [1, 2, 3, 4] && states[0].sst == [0, 0, 0, 0]
    ensures states[4].sst == [0, 0, 3, 4]
  {
    hide IsStart, CanAccept, Accept, Ready, Tick, CanPerformIt, Perform, HalfSent, AllSent;
    FirstAccepted();
    FirstChunk();
    SecondChunk();
    FourthByte();
    states := [FirstState(), Accept(FirstState(), UNEVEN), HalfSent(), AllSent(), Perform(AllSent(), 1)];
    actions := [Arrive(UNEVEN), Clock, Clock, Performs(1)];
    assert StepAt(states, actions, 0) && StepAt(states, actions, 1) && StepAt(states, actions, 2);
    assert StepAt(states, actions, 3);
  }

  lemma OneEntry(s: State, tag: nat)
    requires s.queue == [tag] && InBounds(s, tag) && s.reqs[tag].status == Busy
    ensures Ready(s, s.queue) && Tick(s) == TickOne(s, tag)
  {
    var s' := TickOne(s, tag);
    assert s.queue[1..] == [];
    assert TickFrom(s', []) == s';
    assert Kept([tag], s'.reqs) == [tag] + Kept([], s'.reqs);
  }
}
