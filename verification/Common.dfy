/** Option and Result, in the shape every other module uses them. */
module Wrappers {
  datatype Option<+T> = None | Some(value: T)

  datatype Result<+T, +E> = Ok(value: T) | Err(error: E)
}

/** Filtering, counting and sorting of rows: what the SQL queries of the repository do to a table. */
module Rows {
  function Filter<T>(p: T -> bool, s: seq<T>): (r: seq<T>)
    ensures |r| <= |s|
    ensures forall x :: x in r ==> x in s && p(x)
    ensures forall x :: x in s && p(x) ==> x in r
  {
    if s == [] then [] else (if p(s[0]) then [s[0]] else []) + Filter(p, s[1..])
  }

  lemma {:induction false} FilterConcat<T>(p: T -> bool, a: seq<T>, b: seq<T>)
    ensures Filter(p, a + b) == Filter(p, a) + Filter(p, b)
  {
    if a == [] {
      assert a + b == b;
    } else {
      assert (a + b)[0] == a[0] && (a + b)[1..] == a[1..] + b;
      FilterConcat(p, a[1..], b);
    }
  }

  lemma {:induction false} FilterAgree<T>(p: T -> bool, q: T -> bool, s: seq<T>)
    requires forall x :: x in s ==> p(x) == q(x)
    ensures Filter(p, s) == Filter(q, s)
  {
    if s != [] { FilterAgree(p, q, s[1..]); }
  }

  lemma {:induction false} FilterAll<T>(p: T -> bool, s: seq<T>)
    requires forall x :: x in s ==> p(x)
    ensures Filter(p, s) == s
  {
    if s != [] { FilterAll(p, s[1..]); }
  }

  lemma {:induction false} FilterNone<T>(p: T -> bool, s: seq<T>)
    requires forall x :: x in s ==> !p(x)
    ensures Filter(p, s) == []
  {
    if s != [] { FilterNone(p, s[1..]); }
  }

  /** A filter that is implied by another one absorbs it. */
  lemma {:induction false} FilterTwice<T>(p: T -> bool, q: T -> bool, s: seq<T>)
    requires forall x :: x in s && p(x) ==> q(x)
    ensures Filter(p, Filter(q, s)) == Filter(p, s)
  {
    if s != [] {
      FilterTwice(p, q, s[1..]);
      FilterConcat(p, if q(s[0]) then [s[0]] else [], Filter(q, s[1..]));
    }
  }

  function Apply<T, U>(f: T -> U, s: seq<T>): (r: seq<U>)
    ensures |r| == |s| && forall i :: 0 <= i < |s| ==> r[i] == f(s[i])
  {
    if s == [] then [] else [f(s[0])] + Apply(f, s[1..])
  }

  /** An update that keeps the filtered property of every row commutes with the filter. */
  lemma {:induction false} FilterApply<T>(p: T -> bool, f: T -> T, s: seq<T>)
    requires forall x :: x in s ==> p(f(x)) == p(x)
    ensures Filter(p, Apply(f, s)) == Apply(f, Filter(p, s))
  {
    if s != [] {
      FilterApply(p, f, s[1..]);
      assert Apply(f, s)[1..] == Apply(f, s[1..]);
      assert p(s[0]) ==> ([s[0]] + Filter(p, s[1..]))[1..] == Filter(p, s[1..]);
    }
  }

  lemma {:induction false} ApplyConcat<T, U>(f: T -> U, a: seq<T>, b: seq<T>)
    ensures Apply(f, a + b) == Apply(f, a) + Apply(f, b)
  {
    if a == [] {
      assert a + b == b;
    } else {
      assert (a + b)[0] == a[0] && (a + b)[1..] == a[1..] + b;
      ApplyConcat(f, a[1..], b);
    }
  }

  lemma {:induction false} ApplySame<T>(f: T -> T, s: seq<T>)
    requires forall x :: x in s ==> f(x) == x
    ensures Apply(f, s) == s
  {
    if s != [] { ApplySame(f, s[1..]); }
  }

  function Insert<T>(key: T -> int, x: T, s: seq<T>): (r: seq<T>)
    ensures multiset(r) == multiset(s) + multiset{x}
  {
    if s == [] || key(x) <= key(s[0]) then [x] + s
    else
      assert s == [s[0]] + s[1..];
      [s[0]] + Insert(key, x, s[1..])
  }

  /** ORDER BY key: a stable insertion sort, one total order consistent with the key. */
  function SortBy<T>(key: T -> int, s: seq<T>): (r: seq<T>)
    ensures multiset(r) == multiset(s) && |r| == |s|
    ensures (forall x :: x in r ==> x in s) && (forall x :: x in s ==> x in r)
  {
    if s == [] then []
    else
      assert s == [s[0]] + s[1..];
      var r := Insert(key, s[0], SortBy(key, s[1..]));
      assert |multiset(r)| == |multiset(s)|;
      assert forall x :: x in r ==> x in multiset(r);
      assert forall x :: x in s ==> x in multiset(s);
      r
  }

  predicate Ascending<T>(key: T -> int, s: seq<T>) {
    forall i, j :: 0 <= i < j < |s| ==> key(s[i]) <= key(s[j])
  }

  lemma {:induction false} InsertAscending<T>(key: T -> int, x: T, s: seq<T>)
    requires Ascending(key, s)
    ensures Ascending(key, Insert(key, x, s))
  {
    if s != [] && key(x) > key(s[0]) {
      InsertAscending(key, x, s[1..]);
      var r := Insert(key, x, s[1..]);
      forall i | 0 <= i < |r| ensures key(s[0]) <= key(r[i]) {
        assert r[i] in multiset(r);
        assert r[i] == x || r[i] in s[1..];
      }
    }
  }

  lemma {:induction false} SortAscending<T>(key: T -> int, s: seq<T>)
    ensures Ascending(key, SortBy(key, s))
  {
    if s != [] {
      SortAscending(key, s[1..]);
      InsertAscending(key, s[0], SortBy(key, s[1..]));
    }
  }

  /** LIMIT limit OFFSET offset. */
  function Slice<T>(s: seq<T>, offset: nat, limit: nat): (r: seq<T>)
    ensures |r| <= limit && |r| <= |s|
    ensures forall x :: x in r ==> x in s
  {
    if offset >= |s| then []
    else if offset + limit >= |s| then s[offset..]
    else s[offset..offset + limit]
  }

  predicate Distinct<T(==)>(s: seq<T>) {
    forall i, j :: 0 <= i < j < |s| ==> s[i] != s[j]
  }

  lemma DistinctCons<T>(x: T, s: seq<T>)
    ensures Distinct([x] + s) <==> x !in s && Distinct(s)
  {
    var r := [x] + s;
    if Distinct(r) {
      forall i | 0 <= i < |s| ensures s[i] != x { assert r[i + 1] == s[i] && r[0] == x; }
      forall i, j | 0 <= i < j < |s| ensures s[i] != s[j] { assert r[i + 1] == s[i] && r[j + 1] == s[j]; }
    }
  }

  lemma {:induction false} DistinctIsCountOne<T>(s: seq<T>)
    ensures Distinct(s) <==> forall x :: x in s ==> multiset(s)[x] == 1
  {
    if s != [] {
      var rest := s[1..];
      assert s == [s[0]] + rest;
      DistinctCons(s[0], rest);
      DistinctIsCountOne(rest);
      forall x ensures multiset(s)[x] == (if x == s[0] then 1 else 0) + multiset(rest)[x] {}
      forall x ensures x in rest <==> multiset(rest)[x] > 0 {}
    }
  }

  lemma SameRowsDistinct<T>(s: seq<T>, t: seq<T>)
    requires multiset(s) == multiset(t) && Distinct(s)
    ensures Distinct(t) && forall x :: x in s <==> x in t
  {
    DistinctIsCountOne(s);
    DistinctIsCountOne(t);
    forall x ensures x in s <==> x in t {
      assert x in s <==> x in multiset(s);
      assert x in t <==> x in multiset(t);
    }
  }

  ghost function Chosen<T(!new)>(p: T -> bool, s: seq<T>): set<T> {
    set x | x in s && p(x)
  }

  lemma ChosenCons<T(!new)>(p: T -> bool, x: T, s: seq<T>)
    ensures Chosen(p, [x] + s) == (if p(x) then {x} else {}) + Chosen(p, s)
    ensures x !in s ==> x !in Chosen(p, s)
  {}

  /** Over a table without duplicate rows, the length of a filter is the number of rows that satisfy it. */
  lemma {:induction false} FilterCounts<T(!new)>(p: T -> bool, s: seq<T>)
    requires Distinct(s)
    ensures |Filter(p, s)| == |Chosen(p, s)| && Distinct(Filter(p, s))
  {
    if s != [] {
      var rest, kept := s[1..], Filter(p, s[1..]);
      assert s == [s[0]] + rest;
      DistinctCons(s[0], rest);
      FilterCounts(p, rest);
      ChosenCons(p, s[0], rest);
      DistinctCons(s[0], kept);
      assert s[0] !in kept;
      assert Filter(p, s) == if p(s[0]) then [s[0]] + kept else kept;
    }
  }

  lemma FirstRows<T>(key: T -> int, s: seq<T>, limit: nat)
    requires Distinct(s) && Ascending(key, s)
    ensures Distinct(Slice(s, 0, limit)) && Ascending(key, Slice(s, 0, limit))
  {}

  /** ORDER BY key LIMIT n returns rows of the table with the least keys. */
  lemma LimitKeepsLeast<T>(key: T -> int, s: seq<T>, limit: nat, x: T)
    requires x in s
    ensures var r := Slice(SortBy(key, s), 0, limit);
            x in r || (|r| == limit && forall y :: y in r ==> key(y) <= key(x))
  {
    SortAscending(key, s);
    var all := SortBy(key, s);
    assert x in multiset(s);
    assert x in multiset(all);
    var k :| 0 <= k < |all| && all[k] == x;
    var r := Slice(all, 0, limit);
    if k < limit {
      assert r[k] == x;
    } else {
      assert r == all[..limit];
    }
  }
}

/** Sums over finite maps and the totals of GROUP BY queries. */
module Sums {
  ghost function Sum<K>(m: map<K, nat>): nat
    decreases |m|
  {
    if m == map[] then 0
    else
      var k :| k in m;
      m[k] + Sum(m - {k})
  }

  /** The sum does not depend on which key is taken first. */
  lemma {:induction false} SumTake<K>(m: map<K, nat>, k: K)
    requires k in m
    ensures Sum(m) == m[k] + Sum(m - {k})
    decreases |m|
  {
    var c :| c in m && Sum(m) == m[c] + Sum(m - {c});
    if c != k {
      SumTake(m - {c}, k);
      SumTake(m - {k}, c);
      assert m - {c} - {k} == m - {k} - {c};
    }
  }

  lemma SumPut<K>(m: map<K, nat>, k: K, v: nat)
    ensures Sum(m[k := v]) == Sum(m) + v - (if k in m then m[k] else 0)
  {
    SumTake(m[k := v], k);
    if k in m {
      SumTake(m, k);
      assert m[k := v] - {k} == m - {k};
    } else {
      assert m[k := v] - {k} == m;
    }
  }

  ghost function Group<K, G>(keys: set<K>, f: map<K, G>, g: G): set<K>
    requires keys <= f.Keys
  {
    set k | k in keys && f[k] == g
  }

  /** SELECT f(k), COUNT(*) ... GROUP BY f(k): one entry for each value that occurs. */
  ghost function GroupCounts<K, G>(keys: set<K>, f: map<K, G>): map<G, nat>
    requires keys <= f.Keys
  {
    map g | g in f.Values && Group(keys, f, g) != {} :: |Group(keys, f, g)|
  }

  /** The group counts of a table add up to its row count. */
  lemma {:induction false} GroupsAddUp<K, G>(keys: set<K>, f: map<K, G>)
    requires keys <= f.Keys
    ensures Sum(GroupCounts(keys, f)) == |keys|
    decreases |keys|
  {
    var all := GroupCounts(keys, f);
    if keys == {} {
      assert all == map[];
    } else {
      var c :| c in keys;
      var rest := keys - {c};
      GroupsAddUp(rest, f);
      var less := GroupCounts(rest, f);
      assert Group(keys, f, f[c]) == Group(rest, f, f[c]) + {c};
      forall g | g != f[c] ensures Group(keys, f, g) == Group(rest, f, g) {}
      assert all == less[f[c] := |Group(rest, f, f[c])| + 1];
      SumPut(less, f[c], |Group(rest, f, f[c])| + 1);
    }
  }
}
