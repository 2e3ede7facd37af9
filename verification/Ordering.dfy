/** ORDER BY a time, as the repositories list their rows. */
module Ordering {
  lemma {:induction false} OldestExists<K>(times: map<K, int>, keys: set<K>)
    requires keys != {} && keys <= times.Keys
    ensures exists k :: k in keys && forall l :: l in keys ==> times[k] <= times[l]
    decreases keys
  {
    var k :| k in keys;
    if keys != {k} {
      OldestExists(times, keys - {k});
      var m :| m in keys - {k} && forall l :: l in keys - {k} ==> times[m] <= times[l];
      if times[k] <= times[m] {
        assert forall l :: l in keys ==> times[k] <= times[l];
      } else {
        assert forall l :: l in keys ==> times[m] <= times[l];
      }
    }
  }

  /** Each row once, oldest first; rows with equal times in any order. */
  ghost predicate OrderedBy<K>(times: map<K, int>, listed: seq<K>) {
    && (forall k :: k in listed ==> k in times)
    && (forall k, l :: 0 <= k < l < |listed| ==> listed[k] != listed[l])
    && (forall k, l :: 0 <= k < l < |listed| ==> times[listed[k]] <= times[listed[l]])
  }

  method SortByTime<K(==)>(times: map<K, int>) returns (listed: seq<K>)
    ensures OrderedBy(times, listed) && forall k :: k in times ==> k in listed
  {
    var rest := times.Keys;
    listed := [];
    while rest != {}
      invariant rest <= times.Keys && OrderedBy(times, listed)
      invariant forall k :: k in times <==> k in listed || k in rest
      invariant forall k :: k in listed ==> k !in rest
      invariant forall k, l :: k in listed && l in rest ==> times[k] <= times[l]
      decreases |rest|
    {
      OldestExists(times, rest);
      var k :| k in rest && forall l :: l in rest ==> times[k] <= times[l];
      listed := listed + [k];
      rest := rest - {k};
    }
  }

  /** ORDER BY the time with a limit: a row that is left out is no older than any listed one,
      and then the limit is used up. */
  ghost predicate Oldest<K>(times: map<K, int>, limit: nat, listed: seq<K>) {
    && OrderedBy(times, listed) && |listed| <= limit
    && forall k :: k in times && k !in listed ==> |listed| == limit && forall j :: j in listed ==> times[j] <= times[k]
  }

  lemma CutIsOldest<K>(times: map<K, int>, all: seq<K>, limit: nat, cut: seq<K>)
    requires OrderedBy(times, all) && forall k :: k in times ==> k in all
    requires cut == if |all| > limit then all[..limit] else all
    ensures Oldest(times, limit, cut)
  {
    assert forall k :: k in cut ==> k in all;
    forall k, j | k in times && k !in cut && j in cut
      ensures times[j] <= times[k]
    {
      var a, b :| 0 <= a < |all| && all[a] == k && 0 <= b < |cut| && cut[b] == j;
      assert all[b] == j && b < a;
    }
  }
}
