/** Reads and writes of an Ariel core over the simple memory manager: an access is trimmed to a
    cache line and split where it leaves its physical line. */
module SplitAccess {
  import opened Options
  import opened Arithmetic
  import opened PagePools
  import opened SimpleManagers

  /** A memory request: physical address, virtual address, bytes. */
  datatype Request = Request(pa: nat, va: nat, size: nat)

  function Trimmed(length: nat, line: nat): nat { if length < line then length else line }

  // ---------------------------------------------------------------- lines and pages

  ghost predicate LinesFit(line: nat, pageSize: nat) { 0 < line && 0 < pageSize && pageSize % line == 0 }

  /** Position of `x` in its line. */
  function InLine(x: nat, line: nat): (r: nat)
    requires 0 < line
    ensures r < line
  {
    x % line
  }

  /** Where `x` lies: its page, the line within the page, the byte within the line. */
  lemma Position(x: nat, line: nat, pageSize: nat) returns (page: nat, at: nat, lines: nat)
    requires LinesFit(line, pageSize)
    ensures pageSize == line * lines && x == pageSize * page + x % pageSize
    ensures x % pageSize == line * at + x % line && line * at + line <= pageSize
  {
    lines := pageSize / line;
    assert pageSize == line * lines;
    page := x / pageSize;
    var r := x % pageSize;
    assert x == pageSize * page + r;
    at := r / line;
    var byte := r % line;
    assert r == line * at + byte;
    SplitProduct(line, lines, page, at);
    DivMod(line, lines * page + at, byte, x);
    DigitFits(line, lines, at);
  }

  /** Bytes of one line lie in one page. */
  lemma SameLineSamePage(x: nat, line: nat, pageSize: nat, o: nat)
    requires LinesFit(line, pageSize) && x % line + o < line
    ensures StartOf(x + o, pageSize) == StartOf(x, pageSize)
  {
    var page, at, lines := Position(x, line, pageSize);
    DivMod(pageSize, page, x % pageSize + o, x + o);
  }

  /** A translation keeps the position within the line. */
  lemma SameLineOffset(x: nat, frame: nat, line: nat, pageSize: nat)
    requires LinesFit(line, pageSize) && frame % pageSize == 0
    ensures (frame + (x - StartOf(x, pageSize))) % line == x % line
  {
    var r := x % pageSize;
    var y := frame + r;
    assert frame == pageSize * (frame / pageSize);
    DivMod(pageSize, frame / pageSize, r, y);
    var page, at, lines := Position(x, line, pageSize);
    var page', at', lines' := Position(y, line, pageSize);
    assert line * at + x % line == line * at' + y % line;
    DivMod(line, at, x % line, r);
    DivMod(line, at', y % line, r);
  }

  // ---------------------------------------------------------------- what a set of requests covers

  /** Byte `b` is served by request `r` at its own translation. */
  ghost predicate Serves(t: Table, r: Request, b: nat)
    requires 0 < t.pageSize
  {
    r.va <= b < r.va + r.size && Known(t, b) == Some(r.pa + (b - r.va))
  }

  /** The requests follow each other from `addr` over `n` bytes, so each byte is in exactly one. */
  ghost predicate Consecutive(reqs: seq<Request>, addr: nat, n: nat) {
    if reqs == [] then n == 0
    else reqs[0].va == addr && reqs[0].size <= n && Consecutive(reqs[1..], addr + reqs[0].size, n - reqs[0].size)
  }

  lemma OneRequest(r: Request)
    ensures Consecutive([r], r.va, r.size)
  {
    assert [r][1..] == [];
  }

  ghost predicate InOneLine(r: Request, line: nat)
    requires 0 < line
  {
    InLine(r.pa, line) + r.size <= line
  }

  ghost predicate Serving(t: Table, r: Request)
    requires 0 < t.pageSize
  {
    forall b :: r.va <= b < r.va + r.size ==> Serves(t, r, b)
  }

  /** A request within one line at the translation of its first byte serves all its bytes. */
  lemma LineServed(t: Table, r: Request, line: nat)
    requires LinesFit(line, t.pageSize) && Known(t, r.va) == Some(r.pa) && InLine(r.va, line) + r.size <= line
    ensures Serving(t, r)
  {
    forall b | r.va <= b < r.va + r.size
      ensures Serves(t, r, b)
    {
      SameLineSamePage(r.va, line, t.pageSize, b - r.va);
    }
  }

  /** Known addresses keep their place in the line when frames are page-aligned. */
  lemma KnownOffset(t: Table, pages: set<nat>, line: nat, va: nat)
    requires TableInv(t, pages) && LinesFit(line, t.pageSize) && Known(t, va).Some?
    ensures InLine(Known(t, va).value, line) == InLine(va, line)
  {
    var start := StartOf(va, t.pageSize);
    var frame := t.table[start];
    assert frame in t.table.Values;
    assert frame in pages;
    SameLineOffset(va, frame, line, t.pageSize);
  }

  lemma NextLine(va: nat, line: nat)
    requires 0 < line
    ensures InLine(va + line - InLine(va, line), line) == 0
  {
    var q := va / line;
    assert va == line * q + va % line;
    assert line * (q + 1) == line * q + line;
    MultipleMod(line, q + 1, va + line - va % line);
  }

  // ---------------------------------------------------------------- the core's request handling

  /** handleReadRequest and handleWriteRequest: the requests they issue. With a page table whose
      pages have run out the simulation stops, and there are none. */
  method Access(mgr: SimpleManager, line: nat, addr: nat, length: nat) returns (reqs: seq<Request>)
    requires mgr.Valid() && LinesFit(line, mgr.pageSize)
    modifies mgr
    ensures mgr.Valid()
    ensures reqs == [] || Consecutive(reqs, addr, Trimmed(length, line))
    ensures forall i :: 0 <= i < |reqs| ==> InOneLine(reqs[i], line) && Serving(mgr.View(), reqs[i])
    ensures reqs == [] ==> mgr.free == []
  {
    hide InLine, TableInv, StartOf, Known, Touched, Serving, CacheAgrees;
    var n := if length < line then length else line;
    AnswerMissing(mgr.View(), addr);
    var left := mgr.Translate(addr);
    ghost var t1 := mgr.View();
    if left.None? { return []; }
    KnownOffset(t1, mgr.pages, line, addr);
    var offset := InLine(left.value, line);
    if offset + n <= line {
      reqs := [Request(left.value, addr, n)];
      LineServed(t1, reqs[0], line);
      OneRequest(reqs[0]);
      return;
    }
    var leftSize := line - offset;
    var rightAddr := addr + line - offset;
    NextLine(addr, line);
    AnswerMissing(mgr.View(), rightAddr);
    var right := mgr.Translate(rightAddr);
    ghost var t2 := mgr.View();
    KnownIsStable(t1, addr, rightAddr);
    if right.None? { return []; }
    KnownOffset(t2, mgr.pages, line, rightAddr);
    var a, b := Request(left.value, addr, leftSize), Request(right.value, rightAddr, n - leftSize);
    LineServed(t2, a, line);
    LineServed(t2, b, line);
    reqs := [a, b];
    OneRequest(b);
    assert reqs[1..] == [b];
  }

  ghost predicate Holds(r: Request, b: nat) { r.va <= b < r.va + r.size }

  /** Consecutive requests hold every byte of the access exactly once, and no other byte. */
  lemma {:induction false} EveryByteOnce(reqs: seq<Request>, addr: nat, n: nat, b: nat)
    requires Consecutive(reqs, addr, n)
    ensures addr <= b < addr + n <==> exists i :: 0 <= i < |reqs| && Holds(reqs[i], b)
    ensures forall i, j :: 0 <= i < j < |reqs| ==> !(Holds(reqs[i], b) && Holds(reqs[j], b))
    decreases |reqs|
  {
    if reqs != [] {
      var r, rest := reqs[0], reqs[1..];
      EveryByteOnce(rest, addr + r.size, n - r.size, b);
      assert forall i :: 0 < i < |reqs| ==> reqs[i] == rest[i - 1];
      if exists i :: 0 <= i < |rest| && Holds(rest[i], b) {
        var i :| 0 <= i < |rest| && Holds(rest[i], b);
        assert Holds(reqs[i + 1], b);
      }
      if Holds(r, b) { assert Holds(reqs[0], b); }
    }
  }
}
