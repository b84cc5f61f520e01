/** The DMA engine's pace: every tick sends exactly one chunk of every request that still has some,
    and drops every finished one; requests are refused exactly when their ranges meet. */
module DmaPace {
  import opened Dma
  import opened DmaRuns
  import opened DmaReach
  import opened DmaFrame

  // ---------------------------------------------------------------- refusal

  /** Address `x` is between `a` and `aEnd`, both included. */
  predicate Spans(a: nat, aEnd: nat, x: nat) { a <= x <= aEnd }

  /** Two ranges touch exactly when they share an address, the one after their last byte
      included. */
  lemma TouchExactly(a: nat, aEnd: nat, b: nat, bEnd: nat)
    requires a <= aEnd && b <= bEnd
    ensures RangesTouch(a, aEnd, b, bEnd) <==> exists x :: Spans(a, aEnd, x) && Spans(b, bEnd, x)
  {
    if RangesTouch(a, aEnd, b, bEnd) {
      var x := if a <= b then b else a;
      assert Spans(a, aEnd, x) && Spans(b, bEnd, x);
    }
  }

  // ---------------------------------------------------------------- one tick

  /** Serving a queue serves each entry once. */
  lemma {:induction false} EachIsServed(s: State, tags: seq<nat>, tag: nat)
    requires Ready(s, tags) && tag in tags
    ensures tag in s.reqs
    ensures var r, s' := s.reqs[tag], TickFrom(s, tags);
      if r.status == Done then tag !in s'.reqs
      else tag in s'.reqs && s'.reqs[tag] == if r.status == Busy then Advanced(r) else r
    decreases |tags|
  {
    ReadyRest(s, tags);
    var s1 := TickOne(s, tags[0]);
    if tags[0] == tag {
      assert tag !in tags[1..];
      OthersStay(s1, tags[1..], tag);
    } else {
      EachIsServed(s1, tags[1..], tag);
    }
  }

  /** A tick sends one chunk of a busy request, leaves a waiting one, and drops a finished one. */
  ghost predicate Served(s: State, s': State, tag: nat)
    requires tag in s.reqs
  {
    var r := s.reqs[tag];
    if r.status == Done then tag !in s'.reqs
    else tag in s'.reqs && s'.reqs[tag] == if r.status == Busy then Advanced(r) else r
  }

  lemma TickServes(states: seq<State>, actions: seq<Action>, k: nat, tag: nat)
    requires IsRun(states, actions) && AllEven(actions) && k < |actions| && actions[k] == Clock && tag in states[k].reqs
    ensures k + 1 < |states| && Served(states[k], states[k + 1], tag)
  {
    hide AllEven, TickFrom;
    RunKeeps(states, actions, k);
    QueueReady(states[k]);
    assert StepAt(states, actions, k);
    assert tag in states[k].queue;
    EachIsServed(states[k], states[k].queue, tag);
  }

  // ---------------------------------------------------------------- over many ticks

  /** The ticks among actions `i` up to, not including, `k`. */
  ghost function Ticks(actions: seq<Action>, i: nat, k: nat): nat
    requires i <= k <= |actions|
  {
    if k == i then 0 else Ticks(actions, i, k - 1) + (if actions[k - 1] == Clock then 1 else 0)
  }

  /** The same request, `ticks` ticks later: a busy one is that many chunks further. */
  ghost predicate Further(r: Request, r': Request, ticks: nat) {
    && r'.size == r.size && r'.chunk == r.chunk && r.offset <= r'.offset
    && (r'.status == Busy ==> r'.offset == r.offset + ticks * Dma.Step(r))
  }

  lemma FurtherNext(r: Request, r': Request, r'': Request, ticks: nat, clock: bool)
    requires Further(r, r', ticks)
    requires if clock then r'' == (if r'.status == Busy then Advanced(r') else r') else Same(r', r'')
    ensures Further(r, r'', ticks + (if clock then 1 else 0))
  {
    assert (ticks + 1) * Dma.Step(r) == ticks * Dma.Step(r) + Dma.Step(r);
  }

  /** An answer to one of its operations leaves a request's progress. */
  ghost predicate Same(r: Request, r': Request) {
    && r'.size == r.size && r'.chunk == r.chunk && r'.offset == r.offset && (r'.status == Busy ==> r.status == Busy)
  }

  lemma OtherStep(s: State, a: Action, s': State, tag: nat)
    requires Inv(s) && Steps(s, a, s') && a != Clock && tag in s.reqs && tag < s.nextTag
    ensures tag in s'.reqs && Same(s.reqs[tag], s'.reqs[tag])
  {
    match a
    case Arrive(r) =>
    case Performs(id) => CanPerformOf(s, id);
    case Responds(id) =>
      assert OpOk(s, id);
      ResponseFits(s, id);
    case Clock =>
  }

  lemma CanPerformOf(s: State, id: nat)
    requires Inv(s) && id in s.ops
    ensures CanPerformIt(s, id)
  {
    assert OpOk(s, id);
  }

  lemma TagIsOld(s: State, tag: nat)
    requires Inv(s) && tag in s.reqs
    ensures tag < s.nextTag
  {
    assert RequestOk(s, tag);
  }

  /** In every run: a request that lives from state `i` to state `k` and is still busy has had one
      chunk sent for every tick between. */
  lemma {:induction false} OneChunkPerTick(states: seq<State>, actions: seq<Action>, i: nat, k: nat, tag: nat)
    requires IsRun(states, actions) && AllEven(actions) && i <= k < |states| && tag in states[i].reqs
    requires tag in states[k].reqs
    ensures Further(states[i].reqs[tag], states[k].reqs[tag], Ticks(actions, i, k))
    decreases k
  {
    hide AllEven, Steps, Inv;
    if i < k {
      RunKeeps(states, actions, i);
      RunKeeps(states, actions, k - 1);
      TagIsOld(states[i], tag);
      LivedBefore(states, actions, i, k, tag);
      OneChunkPerTick(states, actions, i, k - 1, tag);
      assert StepAt(states, actions, k - 1);
      var r, r', r'' := states[i].reqs[tag], states[k - 1].reqs[tag], states[k].reqs[tag];
      if actions[k - 1] == Clock {
        TickServes(states, actions, k - 1, tag);
        FurtherNext(r, r', r'', Ticks(actions, i, k - 1), true);
      } else {
        TagIsOld(states[k - 1], tag);
        OtherStep(states[k - 1], actions[k - 1], states[k], tag);
        FurtherNext(r, r', r'', Ticks(actions, i, k - 1), false);
      }
    }
  }

  /** Tags are not given twice. */
  lemma LivedBefore(states: seq<State>, actions: seq<Action>, i: nat, k: nat, tag: nat)
    requires IsRun(states, actions) && AllEven(actions) && i < k < |states| && tag in states[i].reqs
    requires tag in states[k].reqs
    ensures tag in states[k - 1].reqs
  {
    hide AllEven, Steps, Inv;
    RunKeeps(states, actions, i);
    TagIsOld(states[i], tag);
    RunKeeps(states, actions, k - 1);
    TagsGrow(states, actions, i, k - 1);
    assert StepAt(states, actions, k - 1);
    StepJobs(states[k - 1], actions[k - 1], states[k]);
    WasThere(states[k - 1], states[k], tag);
  }

  /** So after as many ticks as it has chunks left, a request is busy no more. */
  lemma SentInTime(states: seq<State>, actions: seq<Action>, i: nat, k: nat, tag: nat)
    requires IsRun(states, actions) && AllEven(actions) && i <= k < |states| && tag in states[i].reqs
    requires tag in states[k].reqs
    requires var r := states[i].reqs[tag]; r.size <= r.offset + Ticks(actions, i, k) * Dma.Step(r)
    ensures states[k].reqs[tag].status == Busy ==> states[i].reqs[tag].size == 0
  {
    hide IsRun, AllEven;
    OneChunkPerTick(states, actions, i, k, tag);
    RunKeeps(states, actions, k);
    assert RequestOk(states[k], tag);
  }
}
