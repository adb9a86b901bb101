/** Caches that drop their least keys (the two eviction loops of src/Session.cpp). */
module Eviction {

  lemma Pick<T>(keys: set<T>) returns (k: T)
    requires keys != {}
    ensures k in keys
  {
    k :| k in keys;
  }

  lemma {:induction false} LeastExists(keys: set<int>)
    requires keys != {}
    ensures exists k :: k in keys && forall j :: j in keys ==> k <= j
  {
    var x := Pick(keys);
    if keys != {x} {
      var rest := keys - {x};
      LeastExists(rest);
      var k :| k in rest && forall j :: j in rest ==> k <= j;
      var least := if x < k then x else k;
      assert forall j :: j in keys ==> j == x || j in rest;
      assert least in keys && forall j :: j in keys ==> least <= j;
    }
  }

  ghost function Least(keys: set<int>): (k: int)
    requires keys != {}
    ensures k in keys && forall j :: j in keys ==> k <= j
  {
    LeastExists(keys);
    var k :| k in keys && forall j :: j in keys ==> k <= j;
    k
  }

  /** The scan for the oldest entry. */
  method OldestKey<T>(m: map<int, T>, start: int) returns (oldest: int)
    ensures oldest <= start && (oldest == start || oldest in m)
    ensures forall j :: j in m ==> oldest <= j
  {
    oldest := start;
    var rest := m.Keys;
    while rest != {}
      invariant rest <= m.Keys
      invariant oldest <= start && (oldest == start || oldest in m)
      invariant forall j :: j in m && j !in rest ==> oldest <= j
      decreases |rest|
    {
      ghost var some := Pick(rest);
      assert some in rest;
      var k :| k in rest;
      if k < oldest {
        oldest := k;
      }
      rest := rest - {k};
    }
  }

  /** Drops least keys until at most `max` are left. */
  ghost function KeepLargest<T>(m: map<int, T>, max: nat): map<int, T>
    decreases |m|
  {
    if |m| <= max then m
    else
      DropOne(m, Least(m.Keys));
      KeepLargest(m - {Least(m.Keys)}, max)
  }

  /** Drops least keys until at most `max` are left, but stops at the key just added. */
  ghost function KeepAdded<T>(m: map<int, T>, max: nat, added: int): map<int, T>
    requires added in m
    decreases |m|
  {
    if |m| <= max || Least(m.Keys) == added then m
    else
      DropOne(m, Least(m.Keys));
      KeepAdded(m - {Least(m.Keys)}, max, added)
  }

  lemma DropOne<T>(m: map<int, T>, k: int)
    requires k in m
    ensures |m - {k}| == |m| - 1
    ensures (m - {k}).Keys == m.Keys - {k}
  {
    assert (m - {k}).Keys == m.Keys - {k};
    assert |m.Keys - {k}| == |m.Keys| - 1;
    CountKeys(m);
    CountKeys(m - {k});
  }

  lemma CountKeys<T>(m: map<int, T>)
    ensures |m| == |m.Keys|
  {
  }

  predicate Within<T(==)>(kept: map<int, T>, m: map<int, T>) {
    kept.Keys <= m.Keys && forall k :: k in kept ==> kept[k] == m[k]
  }

  /** What is kept is exactly the largest keys, as many as fit, with their values. */
  lemma {:induction false} KeepsLargest<T>(m: map<int, T>, max: nat)
    ensures var kept := KeepLargest(m, max);
            && Within(kept, m)
            && |kept| == (if |m| <= max then |m| else max)
            && forall j, k :: j in m && j !in kept && k in kept ==> j < k
    decreases |m|
  {
    if |m| > max {
      var least := Least(m.Keys);
      DropOne(m, least);
      KeepsLargest(m - {least}, max);
    }
  }

  /** A key is kept exactly if fewer than that many are larger. */
  lemma KeptIff<T>(m: map<int, T>, max: nat, k: int)
    ensures k in KeepLargest(m, max) <==> k in m && |Above(m, k)| < max
  {
    KeepsLargest(m, max);
    var kept := KeepLargest(m, max);
    CountKeys(kept);
    CountKeys(m);
    if k in kept {
      forall j | j in Above(m, k)
        ensures j in kept.Keys - {k}
      {
      }
      SubsetCount(Above(m, k), kept.Keys - {k});
    } else if k in m {
      if |m| <= max {
        SameKeys(m, kept);
      }
      SubsetCount(kept.Keys, Above(m, k));
    }
  }

  lemma SameKeys<T>(m: map<int, T>, kept: map<int, T>)
    requires kept.Keys <= m.Keys && |kept| == |m|
    ensures kept.Keys == m.Keys
  {
    CountKeys(m);
    CountKeys(kept);
    var lost := m.Keys - kept.Keys;
    assert m.Keys == kept.Keys + lost;
  }

  /** What is kept among many keys is kept among some of them. */
  lemma KeptInPart<T>(m: map<int, T>, part: map<int, T>, max: nat, k: int)
    requires part.Keys <= m.Keys && k in part && k in KeepLargest(m, max)
    ensures k in KeepLargest(part, max)
  {
    KeptIff(m, max, k);
    KeptIff(part, max, k);
    forall j | j in Above(part, k)
      ensures j in Above(m, k)
    {
    }
    SubsetCount(Above(part, k), Above(m, k));
  }

  ghost function AtLeast<T>(m: map<int, T>, added: int): set<int> {
    set k | k in m && k >= added
  }

  ghost function Above<T>(m: map<int, T>, added: int): set<int> {
    set k | k in m && k > added
  }

  /** The key just added stays, only smaller keys are lost, the least ones first, and the count is exactly what that
      allows: `max` entries, or all keys from the one added on if those are more. */
  lemma {:induction false} KeepsAdded<T>(m: map<int, T>, max: nat, added: int)
    requires added in m && max > 0
    ensures var kept := KeepAdded(m, max, added);
            && Within(kept, m) && added in kept
            && (forall j :: j in m && j !in kept ==> j < added)
            && (forall j, k :: j in m && j !in kept && k in kept ==> j < k)
            && |kept| == (if |m| <= max then |m| else if |AtLeast(m, added)| > max then |AtLeast(m, added)| else max)
    decreases |m|
  {
    var least := Least(m.Keys);
    var large := AtLeast(m, added);
    if |m| > max {
      if least == added {
        assert large == m.Keys;
      } else {
        var rest := m - {least};
        DropOne(m, least);
        KeepsAdded(rest, max, added);
        assert AtLeast(rest, added) == large;
        if |m| == max + 1 {
          assert large <= rest.Keys;
          SubsetCount(large, rest.Keys);
        }
      }
    }
  }

  lemma {:induction false} SubsetCount(a: set<int>, b: set<int>)
    requires a <= b
    ensures |a| <= |b|
  {
    if a != {} {
      var x := Pick(a);
      SubsetCount(a - {x}, b - {x});
    }
  }

  /** The cache is within its limit after a build if and only if fewer than that many larger keys were there. */
  lemma WithinLimit<T>(m: map<int, T>, max: nat, added: int)
    requires added in m && max > 0
    ensures |KeepAdded(m, max, added)| <= max <==> |m| <= max || |Above(m, added)| < max
  {
    KeepsAdded(m, max, added);
    assert AtLeast(m, added) == Above(m, added) + {added};
  }
}
