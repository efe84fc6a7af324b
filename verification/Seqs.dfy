/** Sequence and map helpers: order-preserving filtering, and sums over maps
    whose keys are visited in no particular order. */
module Seqs {

  datatype Option<+T> = None | Some(value: T)

  datatype Result<+T> = Ok(value: T) | Err

  /** The elements of s that satisfy p, in their order. */
  function Keep<T>(s: seq<T>, p: T -> bool): seq<T>
  {
    if s == [] then [] else (if p(s[0]) then [s[0]] else []) + Keep(s[1..], p)
  }

  lemma {:induction false} KeepMembers<T>(s: seq<T>, p: T -> bool)
    ensures forall x :: x in Keep(s, p) ==> x in s && p(x)
    ensures forall x :: x in s && p(x) ==> x in Keep(s, p)
  {
    if s != [] {
      assert s == [s[0]] + s[1..];
      KeepMembers(s[1..], p);
    }
  }

  function Both<T>(p: T -> bool, q: T -> bool): T -> bool {
    x => p(x) && q(x)
  }

  lemma {:induction false} KeepAppend<T>(s: seq<T>, t: seq<T>, p: T -> bool)
    ensures Keep(s + t, p) == Keep(s, p) + Keep(t, p)
  {
    if s == [] {
      assert s + t == t;
    } else {
      var h := if p(s[0]) then [s[0]] else [];
      calc {
        Keep(s + t, p);
        { assert (s + t)[0] == s[0] && (s + t)[1..] == s[1..] + t; }
        h + Keep(s[1..] + t, p);
        { KeepAppend(s[1..], t, p); }
        h + (Keep(s[1..], p) + Keep(t, p));
        h + Keep(s[1..], p) + Keep(t, p);
      }
    }
  }

  /** The step of a loop that appends the accepted elements one by one. */
  lemma KeepSnoc<T>(s: seq<T>, i: nat, p: T -> bool)
    requires i < |s|
    ensures Keep(s[..i + 1], p) == Keep(s[..i], p) + (if p(s[i]) then [s[i]] else [])
  {
    assert s[..i + 1] == s[..i] + [s[i]];
    KeepAppend(s[..i], [s[i]], p);
  }

  lemma {:induction false} KeepKeep<T>(s: seq<T>, p: T -> bool, q: T -> bool)
    ensures Keep(Keep(s, p), q) == Keep(s, Both(p, q))
  {
    if s != [] {
      var h := if p(s[0]) then [s[0]] else [];
      KeepAppend(h, Keep(s[1..], p), q);
      KeepKeep(s[1..], p, q);
    }
  }

  lemma {:induction false} KeepCongruent<T>(s: seq<T>, p: T -> bool, q: T -> bool)
    requires forall x :: x in s ==> p(x) == q(x)
    ensures Keep(s, p) == Keep(s, q)
  {
    if s != [] {
      assert s[0] in s;
      assert forall x :: x in s[1..] ==> x in s;
      KeepCongruent(s[1..], p, q);
    }
  }

  lemma {:induction false} KeepAll<T>(s: seq<T>, p: T -> bool)
    requires forall x :: x in s ==> p(x)
    ensures Keep(s, p) == s
  {
    if s != [] {
      assert s[0] in s;
      assert forall x :: x in s[1..] ==> x in s;
      KeepAll(s[1..], p);
    }
  }

  lemma KeepNone<T>(s: seq<T>, p: T -> bool)
    ensures Keep(s, p) == [] <==> forall x :: x in s ==> !p(x)
  {
    KeepMembers(s, p);
    if Keep(s, p) != [] {
      assert Keep(s, p)[0] in Keep(s, p);
    }
  }

  /** The place in s of an element kept. */
  lemma KeepAt<T>(s: seq<T>, p: T -> bool) returns (i: nat)
    requires Keep(s, p) != []
    ensures i < |s| && p(s[i])
  {
    KeepMembers(s, p);
    assert Keep(s, p)[0] in Keep(s, p);
    i :| 0 <= i < |s| && s[i] == Keep(s, p)[0];
  }

  ghost predicate Several<T(!new)>(s: seq<T>, p: T -> bool) {
    exists i, j :: 0 <= i < j < |s| && p(s[i]) && p(s[j])
  }

  lemma {:induction false} KeepSeveral<T(!new)>(s: seq<T>, p: T -> bool)
    ensures |Keep(s, p)| > 1 <==> Several(s, p)
  {
    if s != [] {
      var rest := s[1..];
      KeepSeveral(rest, p);
      if |Keep(s, p)| > 1 {
        if p(s[0]) {
          var i := KeepAt(rest, p);
          assert p(s[0]) && p(s[i + 1]);
        } else {
          var i, j :| 0 <= i < j < |rest| && p(rest[i]) && p(rest[j]);
          assert p(s[i + 1]) && p(s[j + 1]);
        }
      }
      if i, j :| 0 <= i < j < |s| && p(s[i]) && p(s[j]) {
        KeepNone(rest, p);
        assert s[j] == rest[j - 1];
        assert i > 0 ==> s[i] == rest[i - 1];
      }
    }
  }

  lemma {:induction false} KeepCount<T>(s: seq<T>, p: T -> bool, x: T)
    ensures multiset(Keep(s, p))[x] == if p(x) then multiset(s)[x] else 0
  {
    if s != [] {
      assert s == [s[0]] + s[1..];
      KeepCount(s[1..], p, x);
    }
  }

  lemma KeepPermuted<T(!new)>(s: seq<T>, t: seq<T>, p: T -> bool)
    requires multiset(s) == multiset(t)
    ensures multiset(Keep(s, p)) == multiset(Keep(t, p))
  {
    forall x ensures multiset(Keep(s, p))[x] == multiset(Keep(t, p))[x] {
      KeepCount(s, p, x);
      KeepCount(t, p, x);
    }
  }

  /** What each element hands on to the next holds from a on. */
  lemma {:induction false} Persists<T>(xs: seq<T>, inv: T -> bool, a: nat, l: nat)
    requires a <= l < |xs| && inv(xs[a])
    requires forall x :: a <= x < l && inv(xs[x]) ==> inv(xs[x + 1])
    ensures inv(xs[l])
  {
    if a < l {
      Persists(xs, inv, a, l - 1);
      assert inv(xs[l - 1]) ==> inv(xs[l - 1 + 1]);
    }
  }

  /** keys lists every key of m once. */
  ghost predicate Lists<K, V>(keys: seq<K>, m: map<K, V>) {
    && (forall k :: k in keys ==> k in m)
    && (forall k :: k in m ==> k in keys)
    && (forall i, j :: 0 <= i < j < |keys| ==> keys[i] != keys[j])
  }

  /** Visits a map: every key once, in an order of no significance. */
  method Visit<K(==), V>(m: map<K, V>) returns (keys: seq<K>)
    ensures Lists(keys, m)
  {
    keys := [];
    var rest := m.Keys;
    while rest != {}
      invariant rest <= m.Keys
      invariant forall k :: k in keys ==> k in m && k !in rest
      invariant forall k :: k in m ==> k in rest || k in keys
      invariant forall i, j :: 0 <= i < j < |keys| ==> keys[i] != keys[j]
      decreases |rest|
    {
      var k :| k in rest;
      keys, rest := keys + [k], rest - {k};
    }
  }

  /** The sum of f over the values of m. */
  ghost function Sum<K, V>(m: map<K, V>, f: V -> int): int {
    if m == map[] then 0 else
      var k :| k in m;
      f(m[k]) + Sum(m - {k}, f)
  }

  lemma {:induction false} SumAt<K, V>(m: map<K, V>, f: V -> int, k: K)
    requires k in m
    ensures Sum(m, f) == f(m[k]) + Sum(m - {k}, f)
    decreases |m|
  {
    var j :| j in m && Sum(m, f) == f(m[j]) + Sum(m - {j}, f);
    if j != k {
      SumAt(m - {j}, f, k);
      SumAt(m - {k}, f, j);
      assert m - {j} - {k} == m - {k} - {j};
    }
  }

  lemma SumInsert<K, V>(m: map<K, V>, f: V -> int, k: K, v: V)
    requires k !in m
    ensures Sum(m[k := v], f) == Sum(m, f) + f(v)
  {
    SumAt(m[k := v], f, k);
    assert m[k := v] - {k} == m;
  }

  lemma {:induction false} SumNonNegative<K, V>(m: map<K, V>, f: V -> int)
    requires forall k :: k in m ==> f(m[k]) >= 0
    ensures Sum(m, f) >= 0
    decreases |m|
  {
    if m != map[] {
      var k :| k in m;
      SumAt(m, f, k);
      SumNonNegative(m - {k}, f);
    }
  }

  /** A map that is found again inside another one does not add up to more. */
  lemma {:induction false} SumEmbeds<K(!new), L, V>(m: map<K, V>, r: map<L, V>, g: K -> L, f: V -> int)
    requires forall k :: k in m ==> g(k) in r && r[g(k)] == m[k]
    requires forall j, k :: j in m && k in m && g(j) == g(k) ==> j == k
    requires forall l :: l in r ==> f(r[l]) >= 0
    ensures Sum(m, f) <= Sum(r, f)
    decreases |m|
  {
    if m == map[] {
      SumNonNegative(r, f);
    } else {
      var k :| k in m;
      SumAt(m, f, k);
      SumAt(r, f, g(k));
      SumEmbeds(m - {k}, r - {g(k)}, g, f);
    }
  }

  /** The values of m under keys, in that order. */
  function At<K, V>(m: map<K, V>, keys: seq<K>): (r: seq<V>)
    requires forall k :: k in keys ==> k in m
    ensures |r| == |keys|
    ensures forall i :: 0 <= i < |keys| ==> r[i] == m[keys[i]]
  {
    seq(|keys|, i requires 0 <= i < |keys| => m[keys[i]])
  }

  function SumSeq<V>(s: seq<V>, f: V -> int): int {
    if s == [] then 0 else f(s[|s| - 1]) + SumSeq(s[..|s| - 1], f)
  }

  lemma ListsInit<K, V>(m: map<K, V>, keys: seq<K>)
    requires Lists(keys, m) && keys != []
    ensures Lists(keys[..|keys| - 1], m - {keys[|keys| - 1]})
    ensures At(m, keys)[..|keys| - 1] == At(m - {keys[|keys| - 1]}, keys[..|keys| - 1])
  {
    var n := |keys| - 1;
    forall x | x in m - {keys[n]} ensures x in keys[..n] {
      assert x in keys;
    }
  }

  lemma NothingListed<K, V>(keys: seq<K>, m: map<K, V>)
    requires Lists(keys, m) && keys == []
    ensures m == map[]
  {
    assert forall k :: k in m ==> k in keys;
    assert m.Keys == {};
  }

  /** A loop over a map adds up to the same total in every visiting order. */
  lemma {:induction false} SumListed<K, V>(m: map<K, V>, keys: seq<K>, f: V -> int)
    requires Lists(keys, m)
    ensures SumSeq(At(m, keys), f) == Sum(m, f)
    decreases |keys|
  {
    if keys == [] {
      NothingListed(keys, m);
    } else {
      ListsInit(m, keys);
      var k := keys[|keys| - 1];
      SumListed(m - {k}, keys[..|keys| - 1], f);
      SumAt(m, f, k);
    }
  }

  lemma {:induction false} SizeListed<K, V>(m: map<K, V>, keys: seq<K>)
    requires Lists(keys, m)
    ensures |keys| == |m|
    decreases |keys|
  {
    if keys == [] {
      NothingListed(keys, m);
    } else {
      ListsInit(m, keys);
      var k := keys[|keys| - 1];
      SizeListed(m - {k}, keys[..|keys| - 1]);
      assert (m - {k}).Keys == m.Keys - {k};
    }
  }
}
