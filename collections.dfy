// Sequence folds shared by the aggregation code: mapping, filtering, counting and summing
// over lists of records, each defined on the prefix so that loops can be proved step by step.
module Collections {
  /** `f` applied to every element, in order. */
  function MapSeq<A, B>(f: A -> B, s: seq<A>): (r: seq<B>)
    ensures |r| == |s|
    ensures forall k :: 0 <= k < |s| ==> r[k] == f(s[k])
  {
    if s == [] then [] else MapSeq(f, s[..|s| - 1]) + [f(s[|s| - 1])]
  }

  /** Extending the prefix by one element extends the mapped prefix by its image. */
  lemma {:induction false} MapSeqSnoc<A, B>(f: A -> B, s: seq<A>, i: nat)
    requires i < |s|
    ensures MapSeq(f, s[..i + 1]) == MapSeq(f, s[..i]) + [f(s[i])]
  {
    assert s[..i + 1][..i] == s[..i];
  }

  /** The elements satisfying `p`, in order. */
  function Filter<A>(p: A -> bool, s: seq<A>): (r: seq<A>)
    ensures |r| <= |s|
    ensures forall x :: x in r ==> x in s && p(x)
  {
    if s == [] then [] else Filter(p, s[..|s| - 1]) + (if p(s[|s| - 1]) then [s[|s| - 1]] else [])
  }

  /** Concatenation is associative; stated once so that callers need not prove it by extensionality. */
  lemma {:induction false} ConcatAssoc<A>(a: seq<A>, b: seq<A>, c: seq<A>)
    ensures (a + b) + c == a + (b + c)
  {
  }

  lemma {:induction false} FilterComplete<A>(p: A -> bool, s: seq<A>, x: A)
    requires x in s && p(x)
    ensures x in Filter(p, s)
  {
    if x != s[|s| - 1] {
      assert x in s[..|s| - 1];
      FilterComplete(p, s[..|s| - 1], x);
    }
  }

  /** Membership in a filtered sequence, both ways. */
  lemma {:induction false} FilterIff<A>(p: A -> bool, s: seq<A>)
    ensures forall x :: x in Filter(p, s) <==> x in s && p(x)
  {
    forall x | x in s && p(x) ensures x in Filter(p, s) {
      FilterComplete(p, s, x);
    }
  }

  lemma {:induction false} FilterPrefix<A>(p: A -> bool, s: seq<A>, i: nat)
    requires i < |s|
    ensures Filter(p, s[..i + 1]) == Filter(p, s[..i]) + (if p(s[i]) then [s[i]] else [])
  {
    assert s[..i + 1][..i] == s[..i];
  }

  /** The number of elements satisfying `p`. */
  function Count<A>(p: A -> bool, s: seq<A>): (n: nat)
    ensures n <= |s|
  {
    if s == [] then 0 else Count(p, s[..|s| - 1]) + (if p(s[|s| - 1]) then 1 else 0)
  }

  lemma {:induction false} CountIsFilterLength<A>(p: A -> bool, s: seq<A>)
    ensures Count(p, s) == |Filter(p, s)|
  {
    if s != [] {
      CountIsFilterLength(p, s[..|s| - 1]);
    }
  }

  lemma {:induction false} CountPrefix<A>(p: A -> bool, s: seq<A>, i: nat)
    requires i < |s|
    ensures Count(p, s[..i + 1]) == Count(p, s[..i]) + (if p(s[i]) then 1 else 0)
  {
    assert s[..i + 1][..i] == s[..i];
  }

  /** Counting two predicates that never hold together counts their disjunction. */
  lemma {:induction false} CountSplit<A>(p: A -> bool, q: A -> bool, r: A -> bool, s: seq<A>)
    requires forall x :: r(x) <==> p(x) || q(x)
    requires forall x :: !(p(x) && q(x))
    ensures Count(p, s) + Count(q, s) == Count(r, s)
  {
    if s != [] {
      CountSplit(p, q, r, s[..|s| - 1]);
    }
  }

  /** A weaker predicate counts at least as many elements. */
  lemma {:induction false} CountMonotone<A>(p: A -> bool, q: A -> bool, s: seq<A>)
    requires forall x :: p(x) ==> q(x)
    ensures Count(p, s) <= Count(q, s)
  {
    if s != [] {
      CountMonotone(p, q, s[..|s| - 1]);
    }
  }

  /** The sum of `f` over the elements. */
  function SumOf<A>(f: A -> real, s: seq<A>): real
  {
    if s == [] then 0.0 else SumOf(f, s[..|s| - 1]) + f(s[|s| - 1])
  }

  lemma {:induction false} SumPrefix<A>(f: A -> real, s: seq<A>, i: nat)
    requires i < |s|
    ensures SumOf(f, s[..i + 1]) == SumOf(f, s[..i]) + f(s[i])
  {
    assert s[..i + 1][..i] == s[..i];
  }

  lemma {:induction false} SumNonNegative<A>(f: A -> real, s: seq<A>)
    requires forall k :: 0 <= k < |s| ==> f(s[k]) >= 0.0
    ensures SumOf(f, s) >= 0.0
  {
    if s != [] {
      SumNonNegative(f, s[..|s| - 1]);
    }
  }

  /** A sum of pointwise smaller terms is smaller. */
  lemma {:induction false} SumDominated<A>(f: A -> real, g: A -> real, s: seq<A>)
    requires forall k :: 0 <= k < |s| ==> f(s[k]) <= g(s[k])
    ensures SumOf(f, s) <= SumOf(g, s)
  {
    if s != [] {
      SumDominated(f, g, s[..|s| - 1]);
    }
  }

  lemma {:induction false} SumSame<A>(f: A -> real, g: A -> real, s: seq<A>)
    requires forall k :: 0 <= k < |s| ==> f(s[k]) == g(s[k])
    ensures SumOf(f, s) == SumOf(g, s)
  {
    if s != [] {
      SumSame(f, g, s[..|s| - 1]);
    }
  }

  // ---------------------------------------------------------------------------------------
  // `sorted(xs, key=key, reverse=True)`: a stable sort into descending key order.

  predicate DescendingBy<A>(key: A -> real, s: seq<A>)
  {
    forall i, j :: 0 <= i < j < |s| ==> key(s[i]) >= key(s[j])
  }

  /** Inserts `x` before the first element whose key is not larger, so that it precedes its equals. */
  function InsertDescBy<A>(key: A -> real, x: A, s: seq<A>): (r: seq<A>)
    ensures multiset(r) == multiset(s) + multiset{x}
    ensures |r| == |s| + 1
  {
    if s == [] then [x]
    else if key(x) >= key(s[0]) then [x] + s
    else assert s == [s[0]] + s[1..]; [s[0]] + InsertDescBy(key, x, s[1..])
  }

  function SortDescBy<A>(key: A -> real, s: seq<A>): (r: seq<A>)
    ensures multiset(r) == multiset(s)
    ensures |r| == |s|
  {
    if s == [] then [] else assert s == [s[0]] + s[1..]; InsertDescBy(key, s[0], SortDescBy(key, s[1..]))
  }

  lemma {:induction false} InsertDescByHead<A>(key: A -> real, x: A, s: seq<A>)
    requires s != []
    ensures InsertDescBy(key, x, s)[0] == (if key(x) >= key(s[0]) then x else s[0])
  {
  }

  /** Inserting an element whose key is at most `b` among such elements keeps every key at most `b`. */
  lemma {:induction false} InsertDescByBound<A>(key: A -> real, x: A, s: seq<A>, b: real)
    requires key(x) <= b && forall k :: 0 <= k < |s| ==> key(s[k]) <= b
    ensures forall k :: 0 <= k < |InsertDescBy(key, x, s)| ==> key(InsertDescBy(key, x, s)[k]) <= b
  {
    var r := InsertDescBy(key, x, s);
    forall k | 0 <= k < |r| ensures key(r[k]) <= b {
      assert r[k] in multiset(r);
      if r[k] != x {
        assert r[k] in multiset(s);
        var m :| 0 <= m < |s| && s[m] == r[k];
      }
    }
  }

  lemma {:induction false} InsertDescBySorted<A>(key: A -> real, x: A, s: seq<A>)
    requires DescendingBy(key, s)
    ensures DescendingBy(key, InsertDescBy(key, x, s))
  {
    if s != [] && key(x) < key(s[0]) {
      var t := s[1..];
      assert forall k :: 0 <= k < |t| ==> t[k] == s[k + 1];
      InsertDescBySorted(key, x, t);
      InsertDescByBound(key, x, t, key(s[0]));
      var u := InsertDescBy(key, x, t);
      var r := [s[0]] + u;
      assert InsertDescBy(key, x, s) == r;
      forall i, j | 0 <= i < j < |r| ensures key(r[i]) >= key(r[j]) {
        assert r[j] == u[j - 1];
        if i > 0 {
          assert r[i] == u[i - 1];
        }
      }
    }
  }

  /** The result is in descending key order and holds the same elements, each as often. */
  lemma {:induction false} SortDescByCorrect<A>(key: A -> real, s: seq<A>)
    ensures DescendingBy(key, SortDescBy(key, s))
    ensures multiset(SortDescBy(key, s)) == multiset(s)
  {
    if s != [] {
      SortDescByCorrect(key, s[1..]);
      InsertDescBySorted(key, s[0], SortDescBy(key, s[1..]));
    }
  }

  // ---------------------------------------------------------------------------------------
  // `sorted(xs)` under a comparison: a stable insertion sort into ascending order.

  ghost predicate TotalPreorder<A(!new)>(le: (A, A) -> bool)
  {
    (forall a, b :: le(a, b) || le(b, a)) && (forall a, b, c :: le(a, b) && le(b, c) ==> le(a, c))
  }

  predicate SortedBy<A>(le: (A, A) -> bool, s: seq<A>)
  {
    forall i, j :: 0 <= i < j < |s| ==> le(s[i], s[j])
  }

  function InsertBy<A>(le: (A, A) -> bool, x: A, s: seq<A>): (r: seq<A>)
    ensures multiset(r) == multiset(s) + multiset{x}
    ensures |r| == |s| + 1
  {
    if s == [] then [x]
    else if le(x, s[0]) then [x] + s
    else assert s == [s[0]] + s[1..]; [s[0]] + InsertBy(le, x, s[1..])
  }

  function SortBy<A>(le: (A, A) -> bool, s: seq<A>): (r: seq<A>)
    ensures multiset(r) == multiset(s)
    ensures |r| == |s|
  {
    if s == [] then [] else assert s == [s[0]] + s[1..]; InsertBy(le, s[0], SortBy(le, s[1..]))
  }

  lemma {:induction false} InsertBySorted<A(!new)>(le: (A, A) -> bool, x: A, s: seq<A>)
    requires TotalPreorder(le) && SortedBy(le, s)
    ensures SortedBy(le, InsertBy(le, x, s))
  {
    if s != [] && !le(x, s[0]) {
      var t := s[1..];
      assert SortedBy(le, t) by {
        forall i, j | 0 <= i < j < |t| ensures le(t[i], t[j]) {
          assert t[i] == s[i + 1] && t[j] == s[j + 1];
        }
      }
      InsertBySorted(le, x, t);
      var u := InsertBy(le, x, t);
      var r := [s[0]] + u;
      assert le(s[0], x);
      forall i, j | 0 <= i < j < |r| ensures le(r[i], r[j]) {
        if i == 0 {
          assert r[j] in multiset(u);
          assert r[j] in multiset(t) + multiset{x};
          if r[j] != x {
            assert r[j] in t;
            var k :| 0 <= k < |t| && t[k] == r[j];
            assert t[k] == s[k + 1];
          }
        } else {
          assert r[i] == u[i - 1] && r[j] == u[j - 1];
        }
      }
    }
  }

  /** Under a total preorder the result is ordered and holds the same elements, each as often. */
  lemma {:induction false} SortByCorrect<A(!new)>(le: (A, A) -> bool, s: seq<A>)
    requires TotalPreorder(le)
    ensures SortedBy(le, SortBy(le, s))
    ensures multiset(SortBy(le, s)) == multiset(s)
  {
    if s != [] {
      SortByCorrect(le, s[1..]);
      InsertBySorted(le, s[0], SortBy(le, s[1..]));
    }
  }

  // ---------------------------------------------------------------------------------------
  // Python's string order: code point by code point, a proper prefix first.

  predicate LexLe(a: string, b: string)
  {
    |a| == 0 || (|b| > 0 && (a[0] < b[0] || (a[0] == b[0] && LexLe(a[1..], b[1..]))))
  }

  lemma {:induction false} LexLeTotal(a: string, b: string)
    ensures LexLe(a, b) || LexLe(b, a)
  {
    if |a| > 0 && |b| > 0 && a[0] == b[0] {
      LexLeTotal(a[1..], b[1..]);
    }
  }

  lemma {:induction false} LexLeTrans(a: string, b: string, c: string)
    requires LexLe(a, b) && LexLe(b, c)
    ensures LexLe(a, c)
  {
    if |a| > 0 && a[0] == b[0] && b[0] == c[0] {
      LexLeTrans(a[1..], b[1..], c[1..]);
    }
  }

  lemma {:induction false} LexLeAntisymmetric(a: string, b: string)
    requires LexLe(a, b) && LexLe(b, a)
    ensures a == b
  {
    if |a| > 0 {
      LexLeAntisymmetric(a[1..], b[1..]);
      assert a == [a[0]] + a[1..] && b == [b[0]] + b[1..];
    }
  }

  lemma {:induction false} LexLeIsTotalPreorder()
    ensures TotalPreorder(LexLe)
  {
    forall a, b ensures LexLe(a, b) || LexLe(b, a) {
      LexLeTotal(a, b);
    }
    forall a, b, c | LexLe(a, b) && LexLe(b, c) ensures LexLe(a, c) {
      LexLeTrans(a, b, c);
    }
  }

  // ---------------------------------------------------------------------------------------
  // Dictionary counters: `d[k] = d.get(k, 0) + 1`.

  function Incr<K>(m: map<K, nat>, k: K): map<K, nat>
  {
    m[k := (if k in m then m[k] else 0) + 1]
  }

  /** The counter that one pass over `xs` builds. */
  function CountsBy<A, K>(key: A -> K, xs: seq<A>): map<K, nat>
  {
    if xs == [] then map[] else Incr(CountsBy(key, xs[..|xs| - 1]), key(xs[|xs| - 1]))
  }

  lemma {:induction false} CountsByPrefix<A, K>(key: A -> K, xs: seq<A>, i: nat)
    requires i < |xs|
    ensures CountsBy(key, xs[..i + 1]) == Incr(CountsBy(key, xs[..i]), key(xs[i]))
  {
    assert xs[..i + 1][..i] == xs[..i];
  }

  /** The sum of all the counts. */
  ghost function MapTotal<K>(m: map<K, nat>): nat
    decreases |m.Keys|
  {
    if m.Keys == {} then 0 else var k :| k in m.Keys; m[k] + MapTotal(m - {k})
  }

  lemma {:induction false} MapTotalRemove<K>(m: map<K, nat>, k: K)
    requires k in m
    ensures MapTotal(m) == m[k] + MapTotal(m - {k})
    decreases |m.Keys|
  {
    var j :| j in m.Keys && MapTotal(m) == m[j] + MapTotal(m - {j});
    if j != k {
      var mj := m - {j};
      var mk := m - {k};
      assert |mj.Keys| < |m.Keys| by { assert mj.Keys == m.Keys - {j}; }
      assert |mk.Keys| < |m.Keys| by { assert mk.Keys == m.Keys - {k}; }
      MapTotalRemove(mj, k);
      MapTotalRemove(mk, j);
      assert mj - {k} == mk - {j};
    }
  }

  lemma {:induction false} MapTotalIncr<K>(m: map<K, nat>, k: K)
    ensures MapTotal(Incr(m, k)) == MapTotal(m) + 1
  {
    var n := Incr(m, k);
    MapTotalRemove(n, k);
    assert n - {k} == m - {k};
    if k in m {
      MapTotalRemove(m, k);
    } else {
      assert m - {k} == m;
    }
  }

  /** The counts add up to the number of elements. */
  lemma {:induction false} CountsByTotal<A, K>(key: A -> K, xs: seq<A>)
    ensures MapTotal(CountsBy(key, xs)) == |xs|
  {
    if xs != [] {
      CountsByTotal(key, xs[..|xs| - 1]);
      MapTotalIncr(CountsBy(key, xs[..|xs| - 1]), key(xs[|xs| - 1]));
    }
  }

  /** The counter has a key for exactly the keys that occur. */
  lemma {:induction false} CountsByKeys<A, K>(key: A -> K, xs: seq<A>)
    ensures forall k :: k in CountsBy(key, xs) <==> exists i :: 0 <= i < |xs| && key(xs[i]) == k
  {
    if xs != [] {
      var p := xs[..|xs| - 1];
      CountsByKeys(key, p);
      forall k ensures k in CountsBy(key, xs) <==> exists i :: 0 <= i < |xs| && key(xs[i]) == k {
        if k in CountsBy(key, p) {
          var i :| 0 <= i < |p| && key(p[i]) == k;
          assert xs[i] == p[i];
        }
        if exists i :: 0 <= i < |xs| && key(xs[i]) == k {
          var i :| 0 <= i < |xs| && key(xs[i]) == k;
          if i < |p| {
            assert p[i] == xs[i];
          }
        }
      }
    }
  }

  /** The number of elements whose key is `k`. */
  function CountKey<A, K(==)>(key: A -> K, xs: seq<A>, k: K): (n: nat)
    ensures n <= |xs|
  {
    if xs == [] then 0 else CountKey(key, xs[..|xs| - 1], k) + (if key(xs[|xs| - 1]) == k then 1 else 0)
  }

  /** Each key's count is the number of elements with that key. */
  lemma {:induction false} CountsByValues<A, K>(key: A -> K, xs: seq<A>, k: K)
    requires k in CountsBy(key, xs)
    ensures CountsBy(key, xs)[k] == CountKey(key, xs, k)
  {
    var p := xs[..|xs| - 1];
    if k in CountsBy(key, p) {
      CountsByValues(key, p, k);
    } else {
      forall i | 0 <= i < |p| ensures key(p[i]) != k {
        CountsByKeys(key, p);
      }
      CountKeyAbsent(key, p, k);
    }
  }

  lemma {:induction false} CountKeyAbsent<A, K>(key: A -> K, s: seq<A>, k: K)
    requires forall i :: 0 <= i < |s| ==> key(s[i]) != k
    ensures CountKey(key, s, k) == 0
  {
    if s != [] {
      CountKeyAbsent(key, s[..|s| - 1], k);
    }
  }

  /** One counting loop: `d[k] = d.get(k, 0) + 1` for the key of every item. */
  method Tally<A>(key: A -> string, xs: seq<A>) returns (m: map<string, nat>)
    ensures m == CountsBy(key, xs)
  {
    m := map[];
    for i := 0 to |xs|
      invariant m == CountsBy(key, xs[..i])
    {
      CountsByPrefix(key, xs, i);
      m := Incr(m, key(xs[i]));
    }
    assert xs[..|xs|] == xs;
  }

  /** The distinct elements in order of first appearance: the groups a GROUP BY yields, in the order this model fixes. */
  function Distinct<A(==)>(s: seq<A>): (r: seq<A>)
    ensures forall k :: 0 <= k < |s| ==> s[k] in r
    ensures forall k :: 0 <= k < |r| ==> r[k] in s
    ensures forall i, j :: 0 <= i < j < |r| ==> r[i] != r[j]
  {
    if s == [] then []
    else
      var p := Distinct(s[..|s| - 1]);
      assert s == s[..|s| - 1] + [s[|s| - 1]];
      if s[|s| - 1] in p then p else p + [s[|s| - 1]]
  }
}
