/** What the DMA engine leaves alone: only bytes in the destination of a live request ever change,
    so a source stays as it was accepted, and that is what arrives. */
module DmaFrame {
  import opened Dma
  import opened DmaRuns

  // ---------------------------------------------------------------- bytes that may change

  /** Byte `x` of the simulator's memory is in the destination of a live request. */
  ghost predicate SimOpen(s: State, x: nat) {
    exists tag ::
      tag in s.reqs && s.reqs[tag].dir == SstToSim && s.reqs[tag].sim <= x < s.reqs[tag].sim + s.reqs[tag].size
  }

  ghost predicate SstOpen(s: State, x: nat) {
    exists tag ::
      tag in s.reqs && s.reqs[tag].dir == SimToSst && s.reqs[tag].sst <= x < s.reqs[tag].sst + s.reqs[tag].size
  }

  /** From `s` to `s'` only such bytes change. */
  ghost predicate OnlyOpen(s: State, s': State) {
    && |s'.sim| == |s.sim| && |s'.sst| == |s.sst|
    && (forall x :: 0 <= x < |s.sim| && !SimOpen(s, x) ==> s'.sim[x] == s.sim[x])
    && (forall x :: 0 <= x < |s.sst| && !SstOpen(s, x) ==> s'.sst[x] == s.sst[x])
  }

  lemma {:induction false} TickFromMemory(s: State, tags: seq<nat>)
    requires Ready(s, tags)
    ensures TickFrom(s, tags).sim == s.sim && TickFrom(s, tags).sst == s.sst
    decreases |tags|
  {
    if tags != [] {
      ReadyRest(s, tags);
      TickFromMemory(TickOne(s, tags[0]), tags[1..]);
    }
  }

  lemma PerformOpen(s: State, id: nat)
    requires CoreInv(s) && id in s.ops && CanPerformIt(s, id)
    ensures OnlyOpen(s, Perform(s, id))
  {
    CanPerform(s, id);
    hide CoreInv, RequestOk;
    var op := s.ops[id];
    assert s.reqs[op.tag].dir == SimToSst ==> forall x :: op.at <= x < op.at + |op.data| ==> SstOpen(s, x);
  }

  lemma RespondOpen(s: State, id: nat)
    requires CoreInv(s) && CanRespond(s, id)
    ensures OnlyOpen(s, Respond(s, id))
  {
    CanPerform(s, id);
    hide CoreInv, RequestOk;
    var op := s.ops[id];
    var r := s.reqs[op.tag];
    assert r.dir == SstToSim ==> forall x :: r.sim + (op.at - r.sst) <= x < r.sim + (op.at - r.sst) + |op.data| ==>
      SimOpen(s, x);
  }

  lemma StepOpen(s: State, a: Action, s': State)
    requires Inv(s) && Steps(s, a, s')
    ensures OnlyOpen(s, s')
  {
    hide SimOpen, SstOpen, CoreInv, QueueOk, TickFrom, Kept;
    match a
    case Arrive(r) =>
    case Clock =>
      QueueReady(s);
      TickFromMemory(s, s.queue);
    case Performs(id) =>
      CanPerform(s, id);
      PerformOpen(s, id);
    case Responds(id) =>
      CanPerform(s, id);
      ResponseFits(s, id);
      RespondOpen(s, id);
  }

  // ---------------------------------------------------------------- requests over time

  /** What a request was accepted with. */
  ghost predicate SameJob(r: Request, r': Request) {
    r'.sim == r.sim && r'.sst == r.sst && r'.size == r.size && r'.dir == r.dir
  }

  /** Requests of `s'` that are not new were there in `s`, with the same job. */
  ghost predicate JobsStay(s: State, s': State) {
    && s.nextTag <= s'.nextTag
    && forall tag :: tag in s'.reqs && tag < s.nextTag ==> tag in s.reqs && SameJob(s.reqs[tag], s'.reqs[tag])
  }

  lemma {:induction false} TickFromJobs(s: State, tags: seq<nat>)
    requires Ready(s, tags)
    ensures JobsStay(s, TickFrom(s, tags)) && TickFrom(s, tags).nextTag == s.nextTag
    decreases |tags|
  {
    if tags != [] {
      ReadyRest(s, tags);
      TickFromJobs(TickOne(s, tags[0]), tags[1..]);
    }
  }

  lemma StepJobs(s: State, a: Action, s': State)
    requires Inv(s) && Steps(s, a, s')
    ensures JobsStay(s, s')
  {
    hide CoreInv, QueueOk, TickFrom, Kept, Written, Read;
    match a
    case Arrive(r) =>
    case Clock =>
      QueueReady(s);
      TickFromJobs(s, s.queue);
    case Performs(id) => CanPerform(s, id);
    case Responds(id) =>
      CanPerform(s, id);
      ResponseFits(s, id);
  }

  // ---------------------------------------------------------------- sources

  ghost predicate InMemory(s: State, r: Request) { r.sim + r.size <= |s.sim| && r.sst + r.size <= |s.sst| }

  ghost function Source(s: State, r: Request): seq<byte>
    requires InMemory(s, r)
  {
    if r.dir == SimToSst then s.sim[r.sim..r.sim + r.size] else s.sst[r.sst..r.sst + r.size]
  }

  ghost function Destination(s: State, r: Request): seq<byte>
    requires InMemory(s, r)
  {
    if r.dir == SimToSst then s.sst[r.sst..r.sst + r.size] else s.sim[r.sim..r.sim + r.size]
  }

  /** The source of a live request is in nobody's destination. */
  lemma SourceIsClosed(s: State, tag: nat, x: nat)
    requires Apart(s.reqs) && tag in s.reqs
    ensures var r := s.reqs[tag];
      && (r.dir == SimToSst && r.sim <= x < r.sim + r.size ==> !SimOpen(s, x))
      && (r.dir == SstToSim && r.sst <= x < r.sst + r.size ==> !SstOpen(s, x))
  {
    var r := s.reqs[tag];
    forall other | other in s.reqs && other != tag
      ensures !(r.sim <= x < r.sim + r.size && s.reqs[other].sim <= x < s.reqs[other].sim + s.reqs[other].size)
      ensures !(r.sst <= x < r.sst + r.size && s.reqs[other].sst <= x < s.reqs[other].sst + s.reqs[other].size)
    {
      assert !Touch(r, s.reqs[other]);
    }
  }

  /** One step leaves the source of a live request alone. */
  lemma SourceStep(s: State, a: Action, s': State, tag: nat)
    requires Inv(s) && Steps(s, a, s') && tag in s.reqs
    ensures InMemory(s, s.reqs[tag]) && InMemory(s', s.reqs[tag]) && Source(s', s.reqs[tag]) == Source(s, s.reqs[tag])
  {
    hide Inv, Steps, Apart, SimOpen, SstOpen;
    LiveAt(s, tag);
    StepOpen(s, a, s');
    var r := s.reqs[tag];
    if r.dir == SimToSst {
      forall x | r.sim <= x < r.sim + r.size ensures s'.sim[x] == s.sim[x] { SourceIsClosed(s, tag, x); }
      SameSlice(s.sim, s'.sim, r.sim, r.size);
    } else {
      forall x | r.sst <= x < r.sst + r.size ensures s'.sst[x] == s.sst[x] { SourceIsClosed(s, tag, x); }
      SameSlice(s.sst, s'.sst, r.sst, r.size);
    }
  }

  lemma SameSlice(m: seq<byte>, m': seq<byte>, at: nat, size: nat)
    requires |m| == |m'| && at + size <= |m| && forall x :: at <= x < at + size ==> m'[x] == m[x]
    ensures m'[at..at + size] == m[at..at + size]
  {}

  // ---------------------------------------------------------------- whole runs

  /** In every run, the source of a request stays what it was as long as the request is live. */
  lemma {:induction false} SourceStays(states: seq<State>, actions: seq<Action>, i: nat, k: nat, tag: nat)
    requires IsRun(states, actions) && AllEven(actions) && i <= k < |states| && tag in states[i].reqs
    requires tag in states[k].reqs
    ensures SameJob(states[i].reqs[tag], states[k].reqs[tag]) && states[i].nextTag <= states[k].nextTag
    ensures InMemory(states[i], states[i].reqs[tag]) && InMemory(states[k], states[i].reqs[tag])
    ensures Source(states[k], states[i].reqs[tag]) == Source(states[i], states[i].reqs[tag])
    decreases k - i
  {
    hide Inv, Steps, Source, AllEven, JobsStay;
    RunKeeps(states, actions, i);
    LiveAt(states[i], tag);
    if i < k {
      RunKeeps(states, actions, k - 1);
      assert StepAt(states, actions, k - 1);
      StepJobs(states[k - 1], actions[k - 1], states[k]);
      TagsGrow(states, actions, i, k - 1);
      WasThere(states[k - 1], states[k], tag);
      SourceStays(states, actions, i, k - 1, tag);
      SourceStep(states[k - 1], actions[k - 1], states[k], tag);
      SameSource(states[k - 1], states[i].reqs[tag], states[k - 1].reqs[tag]);
      SameSource(states[k], states[i].reqs[tag], states[k - 1].reqs[tag]);
    }
  }

  lemma LiveAt(s: State, tag: nat)
    requires Inv(s) && tag in s.reqs
    ensures InMemory(s, s.reqs[tag]) && tag < s.nextTag && Apart(s.reqs)
  {
    assert RequestOk(s, tag);
  }

  lemma WasThere(s: State, s': State, tag: nat)
    requires JobsStay(s, s') && tag in s'.reqs && tag < s.nextTag
    ensures tag in s.reqs && SameJob(s.reqs[tag], s'.reqs[tag]) && s.nextTag <= s'.nextTag
  {}

  lemma SameSource(s: State, r: Request, r': Request)
    requires SameJob(r, r') && InMemory(s, r)
    ensures InMemory(s, r') && Source(s, r) == Source(s, r') && Destination(s, r) == Destination(s, r')
  {}

  lemma {:induction false} TagsGrow(states: seq<State>, actions: seq<Action>, i: nat, k: nat)
    requires IsRun(states, actions) && AllEven(actions) && i <= k < |states|
    ensures states[i].nextTag <= states[k].nextTag
    decreases k - i
  {
    hide Inv, Steps, AllEven;
    if i < k {
      TagsGrow(states, actions, i, k - 1);
      RunKeeps(states, actions, k - 1);
      assert StepAt(states, actions, k - 1);
      StepJobs(states[k - 1], actions[k - 1], states[k]);
    }
  }

  /** In every run, the destination of a request that is done holds what its source held at any
      time since it was accepted, however the chunk operations of all live requests interleave. */
  lemma DoneHoldsTheOriginal(states: seq<State>, actions: seq<Action>, i: nat, k: nat, tag: nat)
    requires IsRun(states, actions) && AllEven(actions) && i <= k < |states|
    requires tag in states[i].reqs && tag in states[k].reqs && states[k].reqs[tag].status == Done
    ensures InMemory(states[i], states[i].reqs[tag]) && InMemory(states[k], states[i].reqs[tag])
    ensures Destination(states[k], states[i].reqs[tag]) == Source(states[i], states[i].reqs[tag])
  {
    hide IsRun, AllEven;
    SourceStays(states, actions, i, k, tag);
    DoneMeansTransferred(states, actions, k, tag);
  }

  /** In every run, a byte that is in the destination of no live request does not change. */
  lemma {:induction false} OutsideStays(states: seq<State>, actions: seq<Action>, i: nat, k: nat, x: nat)
    requires IsRun(states, actions) && AllEven(actions) && i <= k < |states|
    ensures |states[k].sim| == |states[i].sim| && |states[k].sst| == |states[i].sst|
    ensures x < |states[i].sim| && (forall j :: i <= j < k ==> !SimOpen(states[j], x)) ==>
      states[k].sim[x] == states[i].sim[x]
    ensures x < |states[i].sst| && (forall j :: i <= j < k ==> !SstOpen(states[j], x)) ==>
      states[k].sst[x] == states[i].sst[x]
    decreases k - i
  {
    hide Inv, Steps, AllEven, SimOpen, SstOpen;
    if i < k {
      OutsideStays(states, actions, i, k - 1, x);
      RunKeeps(states, actions, k - 1);
      assert StepAt(states, actions, k - 1);
      StepOpen(states[k - 1], actions[k - 1], states[k]);
    }
  }
}
