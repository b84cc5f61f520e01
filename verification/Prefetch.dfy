/** The Palacharla prefetcher's table of recently used tags: a map from tag to stride filter and
    a queue of its keys in recency order. */
module Prefetch {
  import opened Sequences
  import opened Arithmetic
  import opened Options

  datatype FilterState = Invalid | Pending | Valid

  datatype Filter = Filter(lastAddress: nat, lastStride: int, stride: int, state: FilterState)

  datatype Access = Access(addr: nat, tag: nat)

  // ---------------------------------------------------------------- recency

  function Without(s: seq<nat>, x: nat): seq<nat> {
    if s == [] then [] else (if s[0] == x then [] else [s[0]]) + Without(s[1..], x)
  }

  /** All tags used so far, the most recently used first. */
  ghost function Recency(trace: seq<Access>): seq<nat> {
    if trace == [] then []
    else
      var n := |trace| - 1;
      [trace[n].tag] + Without(Recency(trace[..n]), trace[n].tag)
  }

  function Take(s: seq<nat>, n: nat): seq<nat> { if |s| <= n then s else s[..n] }

  lemma {:induction false} WithoutMembers(s: seq<nat>, x: nat, y: nat)
    ensures y in Without(s, x) <==> y in s && y != x
  {
    if s != [] {
      WithoutMembers(s[1..], x, y);
      assert y in s <==> y == s[0] || y in s[1..];
    }
  }

  lemma {:induction false} WithoutKeepsDistinct(s: seq<nat>, x: nat)
    requires NoRepeats(s)
    ensures NoRepeats(Without(s, x))
  {
    if s != [] {
      var rest := Without(s[1..], x);
      WithoutKeepsDistinct(s[1..], x);
      WithoutMembers(s[1..], x, s[0]);
      assert s[0] !in s[1..];
      NoRepeatsCons(s[0], rest);
      assert [] + rest == rest;
    }
  }

  lemma WithoutDistinct(s: seq<nat>, x: nat)
    requires NoRepeats(s)
    ensures NoRepeats([x] + Without(s, x))
  {
    WithoutKeepsDistinct(s, x);
    WithoutMembers(s, x, x);
    NoRepeatsCons(x, Without(s, x));
  }

  /** Sizes: removing a member of a list without repeats takes one away. */
  lemma {:induction false} WithoutSize(s: seq<nat>, x: nat)
    requires NoRepeats(s)
    ensures |Without(s, x)| == |s| - if x in s then 1 else 0
  {
    if s != [] {
      WithoutSize(s[1..], x);
      assert x in s <==> x == s[0] || x in s[1..];
      assert s[0] !in s[1..];
    }
  }

  /** Without a member that is not there. */
  lemma {:induction false} WithoutAbsent(s: seq<nat>, x: nat)
    requires x !in s
    ensures Without(s, x) == s
  {
    if s != [] {
      WithoutAbsent(s[1..], x);
      assert s == [s[0]] + s[1..];
    }
  }

  /** Moving a tag to the front commutes with forgetting the oldest ones. */
  lemma {:induction false} FrontOfPrefix(s: seq<nat>, x: nat, n: nat)
    requires NoRepeats(s)
    ensures Take([x] + Without(Take(s, n + 1), x), n + 1) == Take([x] + Without(s, x), n + 1)
  {
    WithoutPrefix(s, x, n);
    var a, b := Without(Take(s, n + 1), x), Without(s, x);
    assert Take([x] + a, n + 1) == [x] + Take(a, n);
    assert Take([x] + b, n + 1) == [x] + Take(b, n);
  }

  lemma {:induction false} WithoutPrefix(s: seq<nat>, x: nat, n: nat)
    requires NoRepeats(s)
    ensures Take(Without(Take(s, n + 1), x), n) == Take(Without(s, x), n)
    decreases |s|
  {
    if |s| > n + 1 {
      var p := Take(s, n + 1);
      if n == 0 {
      } else {
        var t := s[1..];
        assert Take(t, n) == p[1..];
        WithoutPrefix(t, x, n - 1);
        if s[0] == x {
          assert x !in t;
          WithoutAbsent(t, x);
          assert x !in p[1..];
          WithoutAbsent(p[1..], x);
          assert Without(p, x) == p[1..] && Without(s, x) == t;
          assert Take(p[1..], n) == Take(t, n);
        } else {
          var a, b := Without(p[1..], x), Without(t, x);
          assert Without(p, x) == [s[0]] + a && Without(s, x) == [s[0]] + b;
          assert Take([s[0]] + a, n) == [s[0]] + Take(a, n - 1);
          assert Take([s[0]] + b, n) == [s[0]] + Take(b, n - 1);
        }
      }
    }
  }

  // ---------------------------------------------------------------- the table as a value

  datatype Table = Table(filters: map<nat, Filter>, queue: seq<nat>)

  const EMPTY := Table(map[], [])

  /** A difference of addresses as a signed 32-bit number. */
  function Stride(to: nat, from: nat): int {
    var d := (to - from) % 0x1_0000_0000;
    if d < 0x8000_0000 then d else d - 0x1_0000_0000
  }

  /** A known tag is used again. */
  function Again(f: Filter, addr: nat): Filter {
    var stride := Stride(addr, f.lastAddress);
    var same := f.lastStride == stride;
    var g := match f.state
      case Invalid => if same then f.(state := Pending) else f
      case Pending => if same then f.(state := Valid, stride := stride) else f
      case Valid => if same then f else f.(state := Pending);
    g.(lastStride := stride, lastAddress := addr)
  }

  function Entered(filters: map<nat, Filter>, a: Access, block: int): map<nat, Filter> {
    if a.tag in filters then filters[a.tag := Again(filters[a.tag], a.addr)]
    else filters[a.tag := Filter(a.addr, 0, block, Invalid)]
  }

  /** The tag moves to the front; a full table forgets the tag at the back. */
  function Noted(capacity: nat, t: Table, a: Access, block: int): Table {
    var filters := Entered(t.filters, a, block);
    var queue := if a.tag in t.filters && a.tag !in t.queue then t.queue else [a.tag] + Without(t.queue, a.tag);
    if |filters| >= capacity && queue != [] then
      var last := queue[|queue| - 1];
      Table(filters - {last}, queue[..|queue| - 1])
    else Table(filters, queue)
  }

  /** Dispatching a prefetch looks the tag up with an operator that inserts a missing key. */
  function Dispatched(t: Table, tag: nat): Table {
    if tag in t.filters then t else t.(filters := t.filters[tag := Filter(0, 0, 0, Invalid)])
  }

  function Step(capacity: nat, t: Table, a: Access, block: int, dispatch: bool): Table {
    var noted := Noted(capacity, t, a, block);
    if dispatch then Dispatched(noted, a.tag) else noted
  }

  /** The queue lists the table's keys. */
  ghost predicate InStep(t: Table) { forall x :: x in t.filters <==> x in t.queue }

  ghost function LastAddress(trace: seq<Access>, tag: nat): Option<nat> {
    if trace == [] then None
    else
      var n := |trace| - 1;
      if trace[n].tag == tag then Some(trace[n].addr) else LastAddress(trace[..n], tag)
  }

  /** The table after a trace: the most recently used tags in recency order, each with its last
      address. */
  ghost predicate IsLru(capacity: nat, t: Table, trace: seq<Access>)
    requires 0 < capacity
  {
    && t.queue == Take(Recency(trace), capacity - 1) && InStep(t)
    && forall tag :: tag in t.filters ==> LastAddress(trace, tag) == Some(t.filters[tag].lastAddress)
  }

  lemma {:induction false} RecencyDistinct(trace: seq<Access>)
    ensures NoRepeats(Recency(trace))
  {
    if trace != [] {
      var n := |trace| - 1;
      RecencyDistinct(trace[..n]);
      WithoutDistinct(Recency(trace[..n]), trace[n].tag);
    }
  }

  lemma KeysCount(filters: map<nat, Filter>, queue: seq<nat>)
    requires NoRepeats(queue) && InStep(Table(filters, queue))
    ensures |filters| == |queue|
  {
    assert filters.Keys == Members(queue);
    SetSize(queue);
    assert |filters| == |filters.Keys|;
  }

  lemma {:induction false} EntersQueue(t: Table, a: Access, block: int)
    requires InStep(t) && NoRepeats(t.queue)
    ensures var queue := [a.tag] + Without(t.queue, a.tag);
      && NoRepeats(queue) && |queue| <= |t.queue| + 1
      && InStep(Table(Entered(t.filters, a, block), queue))
  {
    var queue := [a.tag] + Without(t.queue, a.tag);
    WithoutDistinct(t.queue, a.tag);
    WithoutSize(t.queue, a.tag);
    forall x
      ensures x in Entered(t.filters, a, block) <==> x in queue
    {
      WithoutMembers(t.queue, a.tag, x);
      assert x in queue <==> x == a.tag || x in Without(t.queue, a.tag);
    }
  }

  /** Forgetting the tag at the back keeps table and queue in step. */
  lemma BackForgotten(filters: map<nat, Filter>, queue: seq<nat>)
    requires InStep(Table(filters, queue)) && NoRepeats(queue) && queue != []
    ensures InStep(Table(filters - {queue[|queue| - 1]}, queue[..|queue| - 1]))
  {
    var init, last := queue[..|queue| - 1], queue[|queue| - 1];
    assert queue == init + [last];
    assert last !in init;
    forall x
      ensures x in filters - {last} <==> x in init
    {
      assert x in queue <==> x in init || x == last;
    }
  }

  /** Forgetting the tag at the back keeps the front. */
  lemma FrontStays(queue: seq<nat>, capacity: nat)
    requires 2 <= capacity && 0 < |queue| <= capacity
    ensures Take(queue, capacity - 1) == if |queue| >= capacity then queue[..|queue| - 1] else queue
    ensures queue[0] in Take(queue, capacity - 1)
  {
    assert queue[0] == Take(queue, capacity - 1)[0];
  }

  /** What an access does to a table that lists its keys. */
  lemma NotedIs(capacity: nat, t: Table, a: Access, block: int, filters: map<nat, Filter>, queue: seq<nat>)
    requires InStep(t) && filters == Entered(t.filters, a, block) && queue == [a.tag] + Without(t.queue, a.tag)
    ensures Noted(capacity, t, a, block) ==
      if |filters| >= capacity then Table(filters - {queue[|queue| - 1]}, queue[..|queue| - 1])
      else Table(filters, queue)
  {
    hide Without, Entered;
  }

  /** One access to a table that lists its keys moves the tag to the front and keeps the list. */
  lemma NotedQueue(capacity: nat, t: Table, a: Access, block: int)
    requires 2 <= capacity && InStep(t) && NoRepeats(t.queue) && |t.queue| <= capacity - 1
    ensures var t' := Noted(capacity, t, a, block);
      && t'.queue == Take([a.tag] + Without(t.queue, a.tag), capacity - 1)
      && InStep(t') && a.tag in t'.filters
      && forall x :: x in t'.filters ==>
        x in Entered(t.filters, a, block) && t'.filters[x] == Entered(t.filters, a, block)[x]
  {
    hide Without, Entered, NoRepeats, Noted, Take;
    var filters := Entered(t.filters, a, block);
    var queue := [a.tag] + Without(t.queue, a.tag);
    EntersQueue(t, a, block);
    KeysCount(filters, queue);
    NotedIs(capacity, t, a, block, filters, queue);
    FrontStays(queue, capacity);
    if |queue| >= capacity { BackForgotten(filters, queue); }
  }

  /** Recency after one more access, and what the queue becomes. */
  lemma RecencyStep(capacity: nat, t: Table, trace: seq<Access>, a: Access)
    requires 2 <= capacity && t.queue == Take(Recency(trace), capacity - 1)
    ensures NoRepeats(t.queue) && |t.queue| <= capacity - 1
    ensures Take(Recency(trace + [a]), capacity - 1) == Take([a.tag] + Without(t.queue, a.tag), capacity - 1)
  {
    hide Take, Without, NoRepeats;
    RecencyDistinct(trace);
    assert (trace + [a])[..|trace|] == trace;
    FrontOfPrefix(Recency(trace), a.tag, capacity - 2);
    TakeDistinct(Recency(trace), capacity - 1);
  }

  lemma LastAddressStep(trace: seq<Access>, a: Access, tag: nat)
    ensures LastAddress(trace + [a], tag) == if a.tag == tag then Some(a.addr) else LastAddress(trace, tag)
  {
    assert (trace + [a])[..|trace|] == trace;
  }

  lemma StepKeepsLru(capacity: nat, t: Table, trace: seq<Access>, a: Access, block: int, dispatch: bool)
    requires 2 <= capacity && IsLru(capacity, t, trace)
    ensures IsLru(capacity, Step(capacity, t, a, block, dispatch), trace + [a])
  {
    hide Take, Without, Recency, Noted, NoRepeats, LastAddress, InStep;
    RecencyStep(capacity, t, trace, a);
    NotedQueue(capacity, t, a, block);
    var t' := Noted(capacity, t, a, block);
    assert Step(capacity, t, a, block, dispatch) == t';
    forall tag | tag in t'.filters
      ensures LastAddress(trace + [a], tag) == Some(t'.filters[tag].lastAddress)
    {
      assert t'.filters[tag] == Entered(t.filters, a, block)[tag];
      LastAddressStep(trace, a, tag);
    }
  }

  ghost function RunTable(capacity: nat, trace: seq<Access>, block: int, dispatch: seq<bool>): Table
    requires |dispatch| == |trace|
  {
    if trace == [] then EMPTY
    else
      var n := |trace| - 1;
      Step(capacity, RunTable(capacity, trace[..n], block, dispatch[..n]), trace[n], block, dispatch[n])
  }

  /** For every access trace the table holds exactly the most recently used tags, as many as it
      has room for, in recency order. */
  lemma {:induction false} TableIsLru(capacity: nat, trace: seq<Access>, block: int, dispatch: seq<bool>)
    requires 2 <= capacity && |dispatch| == |trace|
    ensures IsLru(capacity, RunTable(capacity, trace, block, dispatch), trace)
  {
    hide IsLru, Step;
    if trace == [] {
      EmptyIsLru(capacity);
    } else {
      var n := |trace| - 1;
      TableIsLru(capacity, trace[..n], block, dispatch[..n]);
      StepKeepsLru(capacity, RunTable(capacity, trace[..n], block, dispatch[..n]), trace[..n], trace[n], block,
                   dispatch[n]);
      assert trace[..n] + [trace[n]] == trace;
    }
  }

  lemma EmptyIsLru(capacity: nat)
    requires 0 < capacity
    ensures IsLru(capacity, EMPTY, [])
  {}

  ghost predicate StaysInStep(capacity: nat) {
    forall trace, block, dispatch :: |dispatch| == |trace| ==> InStep(RunTable(capacity, trace, block, dispatch))
  }

  /** Table and queue stay in step in every run if and only if the table has room for two. */
  lemma InStepExactly(capacity: nat)
    ensures StaysInStep(capacity) <==> 2 <= capacity
  {
    if 2 <= capacity {
      forall trace: seq<Access>, block: int, dispatch: seq<bool> | |dispatch| == |trace|
        ensures InStep(RunTable(capacity, trace, block, dispatch))
      {
        TableIsLru(capacity, trace, block, dispatch);
      }
    } else {
      var a := Access(0, 0);
      var t := RunTable(capacity, [a], 0, [true]);
      assert [a][..0] == [] && [true][..0] == [];
      assert RunTable(capacity, [], 0, []) == EMPTY;
      StrayKey(capacity, a);
      assert !InStep(t);
    }
  }

  lemma StrayKey(capacity: nat, a: Access)
    requires capacity < 2
    ensures !InStep(Step(capacity, EMPTY, a, 0, true))
  {
    assert [a.tag] + Without([], a.tag) == [a.tag];
    assert |Entered(map[], a, 0)| == 1;
    var t := Noted(capacity, EMPTY, a, 0);
    assert t == Table(Entered(map[], a, 0) - {a.tag}, [a.tag][..0]);
    assert a.tag !in t.filters;
    assert a.tag in Dispatched(t, a.tag).filters;
  }

  // ---------------------------------------------------------------- strides

  /** The addresses at which `tag` was used since it last entered the table. */
  ghost function Visit(capacity: nat, trace: seq<Access>, tag: nat): seq<nat>
    requires 0 < capacity
  {
    if trace == [] then []
    else
      var n := |trace| - 1;
      var before := Visit(capacity, trace[..n], tag);
      if trace[n].tag != tag then before
      else (if tag in Take(Recency(trace[..n]), capacity - 1) then before else []) + [trace[n].addr]
  }

  /** The filter of a tag used at these addresses, one after the other. */
  ghost function Learned(addrs: seq<nat>, block: int): Filter
    requires addrs != []
  {
    var n := |addrs| - 1;
    if n == 0 then Filter(addrs[0], 0, block, Invalid) else Again(Learned(addrs[..n], block), addrs[n])
  }

  lemma LearnedMore(addrs: seq<nat>, addr: nat, block: int)
    ensures Learned(addrs + [addr], block) ==
      if addrs == [] then Filter(addr, 0, block, Invalid) else Again(Learned(addrs, block), addr)
  {
    hide Again;
    assert (addrs + [addr])[..|addrs|] == addrs;
  }

  /** Every filter is what the tag's accesses since it entered have taught it. */
  ghost predicate AllLearned(capacity: nat, t: Table, trace: seq<Access>, block: int)
    requires 0 < capacity
  {
    forall tag :: tag in t.filters ==>
      Visit(capacity, trace, tag) != [] && t.filters[tag] == Learned(Visit(capacity, trace, tag), block)
  }

  lemma VisitStep(capacity: nat, trace: seq<Access>, a: Access, tag: nat)
    requires 0 < capacity
    ensures Visit(capacity, trace + [a], tag) ==
      if a.tag != tag then Visit(capacity, trace, tag)
      else (if tag in Take(Recency(trace), capacity - 1) then Visit(capacity, trace, tag) else []) + [a.addr]
  {
    assert (trace + [a])[..|trace|] == trace;
    hide Recency, Take;
  }

  lemma StepKeepsLearned(capacity: nat, t: Table, trace: seq<Access>, a: Access, block: int, dispatch: bool)
    requires 2 <= capacity && IsLru(capacity, t, trace) && AllLearned(capacity, t, trace, block)
    ensures AllLearned(capacity, Step(capacity, t, a, block, dispatch), trace + [a], block)
  {
    hide Take, Without, Recency, Noted, NoRepeats, LastAddress, Again, Learned, Visit;
    RecencyStep(capacity, t, trace, a);
    NotedQueue(capacity, t, a, block);
    var t' := Noted(capacity, t, a, block);
    assert Step(capacity, t, a, block, dispatch) == t';
    forall tag | tag in t'.filters
      ensures Visit(capacity, trace + [a], tag) != []
      ensures t'.filters[tag] == Learned(Visit(capacity, trace + [a], tag), block)
    {
      VisitStep(capacity, trace, a, tag);
      LearnedMore(if a.tag in t.queue then Visit(capacity, trace, a.tag) else [], a.addr, block);
    }
  }

  /** For every access trace, each tag in the table has the filter of its own accesses since it
      last became one of the most recently used. */
  lemma {:induction false} TableHasLearned(capacity: nat, trace: seq<Access>, block: int, dispatch: seq<bool>)
    requires 2 <= capacity && |dispatch| == |trace|
    ensures AllLearned(capacity, RunTable(capacity, trace, block, dispatch), trace, block)
  {
    hide IsLru, Step, Learned, Visit;
    if trace != [] {
      var n := |trace| - 1;
      TableIsLru(capacity, trace[..n], block, dispatch[..n]);
      TableHasLearned(capacity, trace[..n], block, dispatch[..n]);
      StepKeepsLearned(capacity, RunTable(capacity, trace[..n], block, dispatch[..n]), trace[..n], trace[n], block,
                       dispatch[n]);
      assert trace[..n] + [trace[n]] == trace;
    }
  }

  /** From the address before position `i` to the one there. */
  ghost function Distance(addrs: seq<nat>, i: nat): int
    requires 0 < i < |addrs|
  {
    Stride(addrs[i], addrs[i - 1])
  }

  /** Two distances in a row, the second one to position `i`, are `d`. */
  ghost predicate TwiceAt(addrs: seq<nat>, i: nat, d: int) {
    2 <= i < |addrs| && Distance(addrs, i - 1) == d && Distance(addrs, i) == d
  }

  /** The last three distances are `d`. */
  ghost predicate ThreeTimes(addrs: seq<nat>, d: int) {
    4 <= |addrs| && TwiceAt(addrs, |addrs| - 1, d) && TwiceAt(addrs, |addrs| - 2, d)
  }

  /** What a filter says: the last address and distance; the stride is the block size or a distance
      that occurred twice in a row, and the last one when the filter is valid. */
  ghost predicate SaysRight(f: Filter, addrs: seq<nat>, block: int)
    requires addrs != []
  {
    var n := |addrs| - 1;
    && f.lastAddress == addrs[n]
    && (if n == 0 then f == Filter(addrs[0], 0, block, Invalid) else f.lastStride == Distance(addrs, n))
    && (f.stride == block || exists i: nat :: TwiceAt(addrs, i, f.stride))
    && (f.state == Valid ==> f.stride == f.lastStride)
  }

  lemma {:induction false} LearnedSaysRight(addrs: seq<nat>, block: int)
    requires addrs != []
    ensures SaysRight(Learned(addrs, block), addrs, block)
  {
    hide Stride;
    var n := |addrs| - 1;
    if 0 < n {
      var before := addrs[..n];
      LearnedSaysRight(before, block);
      var f := Learned(before, block);
      AgainSaysRight(f, addrs, block);
    }
  }

  lemma AgainSaysRight(f: Filter, addrs: seq<nat>, block: int)
    requires 2 <= |addrs| && SaysRight(f, addrs[..|addrs| - 1], block)
    ensures SaysRight(Again(f, addrs[|addrs| - 1]), addrs, block)
  {
    hide Stride;
    var n := |addrs| - 1;
    var before := addrs[..n];
    var g := Again(f, addrs[n]);
    if f.state == Pending && g.state == Valid {
      assert Distance(addrs, n - 1) == Distance(before, n - 1);
      assert TwiceAt(addrs, n, g.stride);
    } else if g.stride != block {
      var i: nat :| TwiceAt(before, i, f.stride);
      assert Distance(addrs, i) == Distance(before, i) && Distance(addrs, i - 1) == Distance(before, i - 1);
      assert TwiceAt(addrs, i, g.stride);
    }
  }

  /** A distance that occurs three times in a row is learned. */
  lemma ThreeTimesIsLearned(addrs: seq<nat>, block: int, d: int)
    requires ThreeTimes(addrs, d)
    ensures Learned(addrs, block).state == Valid && Learned(addrs, block).stride == d
  {
    hide Stride;
    var n := |addrs|;
    var a, b, c := addrs[..n - 3], addrs[..n - 2], addrs[..n - 1];
    assert a == b[..n - 3] && b == c[..n - 2] && c == addrs[..n - 1];
    LearnedSaysRight(b, block);
    LearnedSaysRight(c, block);
    assert Distance(b, n - 3) == Distance(addrs, n - 3) && Distance(c, n - 2) == Distance(addrs, n - 2);
  }

  /** The stride is the block size or a distance that occurred twice in a row; one that has just
      occurred three times in a row is it. */
  ghost predicate StrideOk(addrs: seq<nat>, stride: int, block: int) {
    && (stride == block || exists i: nat :: TwiceAt(addrs, i, stride))
    && forall d :: ThreeTimes(addrs, d) ==> stride == d
  }

  lemma LearnedStride(addrs: seq<nat>, block: int)
    requires addrs != []
    ensures StrideOk(addrs, Learned(addrs, block).stride, block)
  {
    LearnedSaysRight(addrs, block);
    hide Learned;
    forall d | ThreeTimes(addrs, d) ensures Learned(addrs, block).stride == d { ThreeTimesIsLearned(addrs, block, d); }
  }

  /** In every run, the strides of the tags in the table are such, of the tag's accesses since it
      last became one of the most recently used. */
  lemma StridesAreLearned(capacity: nat, trace: seq<Access>, block: int, dispatch: seq<bool>, tag: nat)
    requires 2 <= capacity && |dispatch| == |trace| && tag in RunTable(capacity, trace, block, dispatch).filters
    ensures StrideOk(Visit(capacity, trace, tag), RunTable(capacity, trace, block, dispatch).filters[tag].stride, block)
  {
    hide RunTable, Visit, Learned, StrideOk;
    TableHasLearned(capacity, trace, block, dispatch);
    LearnedStride(Visit(capacity, trace, tag), block);
  }

  // ---------------------------------------------------------------- the prefetcher object

  class PalaPrefetcher {
    const capacity: nat
    const detectRange: nat
    const block: int
    var filters: map<nat, Filter>
    var queue: seq<nat>
    var countdown: nat
    ghost var trace: seq<Access>

    ghost predicate Valid()
      reads this
    {
      && 2 <= capacity && 0 < detectRange && IsLru(capacity, Table(filters, queue), trace)
      && AllLearned(capacity, Table(filters, queue), trace, block)
      && countdown == Turns(|trace|, detectRange)
    }

    constructor (count: nat, range: nat, blockSize: int)
      requires 2 <= count && 0 < range
      ensures Valid() && capacity == count && trace == []
    {
      capacity, detectRange, block := count, range, blockSize;
      filters, queue, countdown, trace := map[], [], 0, [];
      new;
      EmptyIsLru(capacity);
      assert Turns(0, range) == 0;
    }

    /** Bring a tag of the queue to its front. */
    method MoveToFront(tag: nat)
      requires queue != [] && NoRepeats(queue) && tag in queue
      modifies this`queue
      ensures queue == [tag] + Without(old(queue), tag)
    {
      if queue[0] != tag {
        var i := 0;
        while queue[i] != tag
          invariant 0 <= i < |queue| && tag in queue[i..]
          decreases |queue| - i
        {
          assert queue[i..] == [queue[i]] + queue[i + 1..];
          i := i + 1;
        }
        WithoutAt(queue, i);
        queue := queue[..i] + queue[i + 1..];
        queue := [tag] + queue;
      } else {
        WithoutAt(queue, 0);
        assert queue == [tag] + (queue[..0] + queue[1..]);
      }
    }

    /** notifyAccess: update the tag's filter and the recency queue; on every `detectRange`-th access
        the tag's stride is looked up for a prefetch, and it is what the tag's accesses taught. */
    method NotifyAccess(addr: nat, tag: nat) returns (stride: Option<int>)
      requires Valid()
      modifies this
      ensures Valid() && trace == old(trace) + [Access(addr, tag)]
      ensures stride.Some? <==> |trace| % detectRange == 0
      ensures stride.Some? ==>
        Visit(capacity, trace, tag) != [] && stride.value == Learned(Visit(capacity, trace, tag), block).stride
    {
      hide IsLru, Without, NoRepeats, Noted, InStep, NextCount, Learned, Visit;
      ghost var t := Table(filters, queue);
      ghost var a := Access(addr, tag);
      LruFacts(capacity, t, trace);
      StepKeepsLru(capacity, t, trace, a, block, false);
      StepKeepsLearned(capacity, t, trace, a, block, false);
      NotedQueue(capacity, t, a, block);
      EnterTag(addr, tag);
      ForgetOldest(t, a);
      TurnsNext(|trace|, detectRange);
      trace := trace + [a];
      countdown := NextCount(countdown, detectRange);
      stride := if countdown == 0 then Some(filters[tag].stride) else None;
    }

    method EnterTag(addr: nat, tag: nat)
      requires InStep(Table(filters, queue)) && NoRepeats(queue)
      modifies this`filters, this`queue
      ensures filters == Entered(old(filters), Access(addr, tag), block)
      ensures queue == [tag] + Without(old(queue), tag)
    {
      if tag in filters {
        filters := filters[tag := Again(filters[tag], addr)];
        MoveToFront(tag);
      } else {
        WithoutAbsent(queue, tag);
        filters := filters[tag := Filter(addr, 0, block, Invalid)];
        queue := [tag] + queue;
      }
    }

    method ForgetOldest(ghost t: Table, ghost a: Access)
      requires InStep(t) && filters == Entered(t.filters, a, block) && queue == [a.tag] + Without(t.queue, a.tag)
      modifies this`filters, this`queue
      ensures Table(filters, queue) == Noted(capacity, t, a, block)
    {
      if |filters| >= capacity {
        var last := queue[|queue| - 1];
        filters := filters - {last};
        queue := queue[..|queue| - 1];
      }
    }
  }

  /** How far the access counter has come after `n` accesses. */
  ghost function Turns(n: nat, range: nat): nat
    requires 0 < range
  {
    n % range
  }

  lemma TurnsNext(n: nat, range: nat)
    requires 0 < range
    ensures NextCount(Turns(n, range), range) == Turns(n + 1, range)
  {
    NextRemainder(range, n);
  }

  function NextCount(count: nat, range: nat): nat
    requires 0 < range
  {
    (count + 1) % range
  }

  lemma LruFacts(capacity: nat, t: Table, trace: seq<Access>)
    requires 0 < capacity && IsLru(capacity, t, trace)
    ensures InStep(t) && NoRepeats(t.queue) && |t.queue| <= capacity - 1
  {
    RecencyDistinct(trace);
    TakeDistinct(Recency(trace), capacity - 1);
  }

  lemma TakeDistinct(s: seq<nat>, n: nat)
    requires NoRepeats(s)
    ensures NoRepeats(Take(s, n)) && |Take(s, n)| <= n
  {}

  lemma {:induction false} WithoutAt(s: seq<nat>, i: nat)
    requires i < |s| && NoRepeats(s)
    ensures Without(s, s[i]) == s[..i] + s[i + 1..]
    decreases i
  {
    if i == 0 {
      assert s[0] !in s[1..];
      WithoutAbsent(s[1..], s[0]);
    } else {
      WithoutAt(s[1..], i - 1);
      assert s[..i] == [s[0]] + s[1..][..i - 1] && s[1..][i - 1 + 1..] == s[i + 1..];
    }
  }
}
