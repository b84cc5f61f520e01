/** The bounded translation cache the memory managers share. */
module Caches {

  function Evicted(cache: map<nat, nat>, victim: nat): (r: map<nat, nat>)
    requires victim in cache
    ensures |r| == |cache| - 1 && victim !in r && forall x :: x in r ==> x in cache && r[x] == cache[x]
  {
    var r := cache - {victim};
    assert r.Keys == cache.Keys - {victim};
    assert |r| == |r.Keys| && |cache| == |cache.Keys|;
    r
  }

  lemma CacheGrows(cache: map<nat, nat>, va: nat, pa: nat)
    requires va !in cache
    ensures |cache[va := pa]| == |cache| + 1
  {
    assert cache[va := pa].Keys == cache.Keys + {va};
    assert |cache[va := pa]| == |cache[va := pa].Keys| && |cache| == |cache.Keys|;
  }

  /** A cache with one more entry: when it is full, some other entry goes. */
  method Remembered(cache: map<nat, nat>, entries: nat, va: nat, pa: nat) returns (r: map<nat, nat>)
    requires 1 <= entries && |cache| <= entries && va !in cache
    ensures |r| <= entries && va in r && r[va] == pa
    ensures forall x :: x in r && x != va ==> x in cache && r[x] == cache[x]
  {
    r := cache;
    if |r| == entries {
      var victim :| victim in r;
      r := Evicted(r, victim);
    }
    CacheGrows(r, va, pa);
    r := r[va := pa];
  }
}
