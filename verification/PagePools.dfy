/** The pools of physical pages the memory managers start from: in address order, or shuffled. */
module PagePools {
  import opened Sequences

  /** Address of page `i` of a pool that starts at `start`. */
  function PageAt(start: nat, pageSize: nat, i: nat): nat { start + i * pageSize }

  ghost function LinearPool(start: nat, pageSize: nat, count: nat): (pool: seq<nat>)
    ensures |pool| == count && forall i :: 0 <= i < count ==> pool[i] == PageAt(start, pageSize, i)
  {
    seq(count, i requires 0 <= i => PageAt(start, pageSize, i))
  }

  lemma PageAtNext(start: nat, pageSize: nat, i: nat)
    ensures PageAt(start, pageSize, 0) == start
    ensures PageAt(start, pageSize, i + 1) == PageAt(start, pageSize, i) + pageSize
  {
    assert (i + 1) * pageSize == i * pageSize + pageSize;
  }

  /** Pages in order do not overlap. */
  lemma {:induction false} PagesInOrder(start: nat, pageSize: nat, i: nat, j: nat)
    requires i < j
    ensures PageAt(start, pageSize, i) + pageSize <= PageAt(start, pageSize, j)
    decreases j
  {
    PageAtNext(start, pageSize, j - 1);
    if i < j - 1 { PagesInOrder(start, pageSize, i, j - 1); }
  }

  /** mapPagesLinear */
  method MapPagesLinear(count: nat, pageSize: nat, start: nat) returns (pool: seq<nat>)
    ensures pool == LinearPool(start, pageSize, count)
  {
    pool := [];
    var next := start;
    hide PageAt;
    PageAtNext(start, pageSize, 0);
    for j := 0 to count
      invariant next == PageAt(start, pageSize, j) && pool == LinearPool(start, pageSize, j)
    {
      PageAtNext(start, pageSize, j);
      pool := pool + [next];
      next := next + pageSize;
    }
  }

  /** mapPagesRandom: the draws stand for the random generator. */
  method MapPagesRandom(count: nat, pageSize: nat, start: nat, draws: seq<nat>) returns (pool: seq<nat>)
    requires |draws| == 4 * count
    ensures multiset(pool) == multiset(LinearPool(start, pageSize, count))
  {
    pool := MapPagesLinear(count, pageSize, start);
    for j := 0 to 2 * count
      invariant |pool| == count && multiset(pool) == multiset(LinearPool(start, pageSize, count))
    {
      var left, right := Draw(draws[2 * j], count), Draw(draws[2 * j + 1], count);
      if left != right { pool := pool[right := pool[left]][left := pool[right]]; }
    }
  }

  function Draw(x: nat, count: nat): (i: nat)
    requires 0 < count
    ensures i < count
  {
    x % count
  }

  lemma LinearNoRepeats(start: nat, pageSize: nat, count: nat)
    requires 0 < pageSize
    ensures NoRepeats(LinearPool(start, pageSize, count))
  {
    hide PageAt;
    forall i, j | 0 <= i < j < count
      ensures PageAt(start, pageSize, i) != PageAt(start, pageSize, j)
    {
      PagesInOrder(start, pageSize, i, j);
    }
  }

  lemma RepeatsShow(s: seq<nat>, i: nat, j: nat)
    requires i < j < |s| && s[i] == s[j]
    ensures 2 <= multiset(s)[s[i]]
  {
    assert s == s[..i] + [s[i]] + s[i + 1..j] + [s[j]] + s[j + 1..];
  }

  /** A shuffled pool has the same pages, still each once. */
  lemma ShuffleKeepsPages(pool: seq<nat>, linear: seq<nat>)
    requires multiset(pool) == multiset(linear) && NoRepeats(linear)
    ensures NoRepeats(pool) && forall x :: x in pool <==> x in linear
  {
    forall i, j | 0 <= i < j < |pool|
      ensures pool[i] != pool[j]
    {
      CountOnce(linear, pool[i]);
      if pool[i] == pool[j] { RepeatsShow(pool, i, j); }
    }
    forall x
      ensures x in pool <==> x in linear
    {
      assert x in pool <==> x in multiset(pool);
      assert x in linear <==> x in multiset(linear);
    }
  }

  // ---------------------------------------------------------------- tables of pages

  /** Start of the page that holds `va`. */
  function StartOf(va: nat, pageSize: nat): (r: nat)
    requires 0 < pageSize
    ensures r <= va < r + pageSize
  {
    va - va % pageSize
  }

  ghost predicate Injective(m: map<nat, nat>) { forall a, b :: a in m && b in m && a != b ==> m[a] != m[b] }

  lemma HeadTail(s: seq<nat>)
    requires s != [] && NoRepeats(s)
    ensures NoRepeats(s[1..]) && forall x :: x in s[1..] <==> x in s && x != s[0]
  {
    assert s == [s[0]] + s[1..];
    forall x
      ensures x in s[1..] <==> x in s && x != s[0]
    {
      assert x in s <==> x == s[0] || x in s[1..];
      if x in s[1..] {
        var i :| 0 <= i < |s[1..]| && s[1..][i] == x;
        assert s[i + 1] == x;
      }
    }
  }

  lemma ValuesInsert(m: map<nat, nat>, k: nat, x: nat)
    requires k !in m
    ensures m[k := x].Values == m.Values + {x}
    ensures Injective(m) && x !in m.Values ==> Injective(m[k := x])
  {
    forall v
      ensures v in m[k := x].Values <==> v in m.Values + {x}
    {
      if v in m.Values {
        var a :| a in m && m[a] == v;
        assert m[k := x][a] == v;
      }
      assert m[k := x][k] == x;
    }
  }
}
