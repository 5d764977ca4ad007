/**
 * std::map<std::string, V> and std::set<std::string> as the agent uses them:
 * association lists kept in strictly ascending key order, which is the order a
 * range-for visits them in.
 */
module OrderedMaps {
  import opened Wrappers
  import opened Strings

  type Entries<V> = seq<(string, V)>

  /** The std::map invariant: keys strictly ascending under std::string's operator<. */
  predicate Ascending<V>(m: Entries<V>)
  {
    forall i, j :: 0 <= i < j < |m| ==> Less(m[i].0, m[j].0)
  }

  function Keys<V>(m: Entries<V>): set<string>
  {
    set i | 0 <= i < |m| :: m[i].0
  }

  /** The keys in iteration order. */
  function KeySeq<V>(m: Entries<V>): (r: seq<string>)
    ensures |r| == |m| && forall i :: 0 <= i < |m| ==> r[i] == m[i].0
  {
    if m == [] then [] else [m[0].0] + KeySeq(m[1..])
  }

  /** std::map::find: the value stored under `k`, if any. */
  function Get<V>(m: Entries<V>, k: string): Option<V>
  {
    if m == [] then None else if m[0].0 == k then Some(m[0].1) else Get(m[1..], k)
  }

  lemma {:induction false} GetPresent<V>(m: Entries<V>, k: string)
    ensures Get(m, k).Some? <==> k in Keys(m)
    ensures forall i :: 0 <= i < |m| && m[i].0 == k && Ascending(m) ==> Get(m, k) == Some(m[i].1)
  {
    if m != [] {
      GetPresent(m[1..], k);
      KeysCons(m[0], m[1..]);
      forall i | 0 <= i < |m| && m[i].0 == k && Ascending(m)
        ensures Get(m, k) == Some(m[i].1)
      {
        if i > 0 {
          if m[0].0 == k {
            LessIrreflexive(k);
          }
          assert m[1..][i - 1] == m[i];
        }
      }
    }
  }

  /** Every key of `m` is above `lo`. */
  predicate Above<V>(lo: string, m: Entries<V>)
  {
    forall i :: 0 <= i < |m| ==> Less(lo, m[i].0)
  }

  lemma KeysCons<V>(e: (string, V), m: Entries<V>)
    ensures Keys([e] + m) == {e.0} + Keys(m)
  {
    var r := [e] + m;
    assert r[0].0 == e.0;
    forall x | x in Keys(r) ensures x in {e.0} + Keys(m) {
      var i :| 0 <= i < |r| && r[i].0 == x;
      if i > 0 { assert m[i - 1].0 == x; }
    }
    forall x | x in Keys(m) ensures x in Keys(r) {
      var i :| 0 <= i < |m| && m[i].0 == x;
      assert r[i + 1].0 == x;
    }
  }

  lemma ConsAscending<V>(e: (string, V), m: Entries<V>)
    requires Ascending(m) && Above(e.0, m)
    ensures Ascending([e] + m)
  {
    var r := [e] + m;
    forall i, j | 0 <= i < j < |r| ensures Less(r[i].0, r[j].0) {
      if i > 0 { assert r[i] == m[i - 1] && r[j] == m[j - 1]; }
      else { assert r[j] == m[j - 1]; }
    }
  }

  /**
   * std::map::insert: adds `k` with `v` when `k` is absent; when `k` is
   * already present the map is returned unchanged (insert never overwrites).
   */
  function Insert<V>(m: Entries<V>, k: string, v: V): (r: Entries<V>)
    requires Ascending(m)
    ensures Ascending(r)
    ensures Keys(r) == Keys(m) + {k}
    ensures k in Keys(m) ==> r == m
    ensures |r| == if k in Keys(m) then |m| else |m| + 1
  {
    GetPresent(m, k);
    if m == [] then
      KeysCons((k, v), m);
      [(k, v)]
    else if m[0].0 == k then
      m
    else if Less(k, m[0].0) then
      InsertBelow(m, k);
      ConsAscending((k, v), m);
      KeysCons((k, v), m);
      [(k, v)] + m
    else
      var rest := Insert(m[1..], k, v);
      assert m == [m[0]] + m[1..];
      KeysCons(m[0], m[1..]);
      assert k in Keys(m) <==> k in Keys(m[1..]);
      InsertAbove(m, k, rest);
      ConsAscending(m[0], rest);
      KeysCons(m[0], rest);
      [m[0]] + rest
  }

  /** A key below the first key is below every key, and so not among them. */
  lemma InsertBelow<V>(m: Entries<V>, k: string)
    requires Ascending(m) && m != [] && Less(k, m[0].0)
    ensures Above(k, m) && k !in Keys(m)
  {
    forall i | 0 <= i < |m| ensures Less(k, m[i].0) {
      if i > 0 { LessTransitive(k, m[0].0, m[i].0); }
    }
    if k in Keys(m) {
      var i :| 0 <= i < |m| && m[i].0 == k;
      LessIrreflexive(k);
    }
  }

  /** Inserting a key above the first key into the tail keeps the first key below everything. */
  lemma InsertAbove<V>(m: Entries<V>, k: string, rest: Entries<V>)
    requires Ascending(m) && m != [] && m[0].0 != k && !Less(k, m[0].0)
    requires Keys(rest) == Keys(m[1..]) + {k}
    ensures Above(m[0].0, rest)
  {
    LessTotal(k, m[0].0);
    forall i | 0 <= i < |rest| ensures Less(m[0].0, rest[i].0) {
      assert rest[i].0 in Keys(rest);
      if rest[i].0 != k {
        var j :| 0 <= j < |m[1..]| && m[1..][j].0 == rest[i].0;
        assert m[1..][j] == m[j + 1];
      }
    }
  }

  /** After an insert, `k` maps to the old value if it had one and to `v` otherwise; other keys are untouched. */
  lemma {:induction false} GetAfterInsert<V>(m: Entries<V>, k: string, v: V, j: string)
    requires Ascending(m)
    ensures Get(Insert(m, k, v), j) == if j == k && Get(m, k).None? then Some(v) else Get(m, j)
  {
    GetPresent(m, k);
    if m != [] && m[0].0 != k && !Less(k, m[0].0) {
      GetAfterInsert(m[1..], k, v, j);
    }
  }

  /** A std::map built from an initializer list: pairs inserted left to right, the first of equal keys kept. */
  function FromPairs<V>(ps: seq<(string, V)>): (r: Entries<V>)
    ensures Ascending(r)
    decreases |ps|
  {
    if ps == [] then [] else Insert(FromPairs(ps[..|ps| - 1]), ps[|ps| - 1].0, ps[|ps| - 1].1)
  }

  /** A map built from one pair holds just that pair. */
  lemma FromPairsSingle<V>(k: string, v: V)
    ensures FromPairs([(k, v)]) == [(k, v)]
  {
    assert [(k, v)][..0] == [];
  }

  /** A std::set<std::string>: strictly ascending. */
  predicate StrictlyAscending(s: seq<string>)
  {
    forall i, j :: 0 <= i < j < |s| ==> Less(s[i], s[j])
  }

  lemma AscendingKeySeq<V>(m: Entries<V>)
    requires Ascending(m)
    ensures StrictlyAscending(KeySeq(m))
  {
  }

  /** A strictly ascending sequence holds no element twice. */
  lemma StrictlyAscendingDistinct(s: seq<string>)
    requires StrictlyAscending(s)
    ensures forall i, j :: 0 <= i < j < |s| ==> s[i] != s[j]
  {
    forall i, j | 0 <= i < j < |s| ensures s[i] != s[j] {
      if s[i] == s[j] { LessIrreflexive(s[i]); }
    }
  }

  /** std::set::insert. */
  function SetInsert(s: seq<string>, k: string): (r: seq<string>)
    requires StrictlyAscending(s)
    ensures StrictlyAscending(r)
    ensures forall x :: x in r <==> x in s || x == k
  {
    if s == [] then [k]
    else if s[0] == k then s
    else if Less(k, s[0]) then
      assert forall i :: 0 <= i < |s| ==> Less(k, s[i]) by {
        forall i | 0 <= i < |s| ensures Less(k, s[i]) {
          if i > 0 { LessTransitive(k, s[0], s[i]); }
        }
      }
      [k] + s
    else
      var rest := SetInsert(s[1..], k);
      LessTotal(k, s[0]);
      assert forall x :: x in rest ==> Less(s[0], x) by {
        forall x | x in rest ensures Less(s[0], x) {
          if x != k {
            var j :| 0 <= j < |s[1..]| && s[1..][j] == x;
            assert s[j + 1] == x;
          }
        }
      }
      [s[0]] + rest
  }

  /** The elements of `s` that are in `allowed`, in their order. */
  function Select(s: seq<string>, allowed: set<string>): (r: seq<string>)
    ensures forall x :: x in r <==> x in s && x in allowed
    ensures |r| <= |s|
    decreases |s|
  {
    if s == [] then []
    else (if s[0] in allowed then [s[0]] else []) + Select(s[1..], allowed)
  }

  /** Selecting keeps a strictly ascending sequence strictly ascending. */
  lemma {:induction false} SelectAscending(s: seq<string>, allowed: set<string>)
    requires StrictlyAscending(s)
    ensures StrictlyAscending(Select(s, allowed))
    decreases |s|
  {
    if s != [] {
      SelectAscending(s[1..], allowed);
      var rest := Select(s[1..], allowed);
      forall x | x in rest ensures Less(s[0], x) {
        var j :| 0 <= j < |s[1..]| && s[1..][j] == x;
        assert s[j + 1] == x;
      }
    }
  }

  /** std::set::erase. */
  function SetErase(s: seq<string>, k: string): (r: seq<string>)
    ensures forall x :: x in r <==> x in s && x != k
    decreases |s|
  {
    if s == [] then []
    else (if s[0] == k then [] else [s[0]]) + SetErase(s[1..], k)
  }

  lemma {:induction false} SetEraseAscending(s: seq<string>, k: string)
    requires StrictlyAscending(s)
    ensures StrictlyAscending(SetErase(s, k))
    decreases |s|
  {
    if s != [] {
      SetEraseAscending(s[1..], k);
      forall x | x in SetErase(s[1..], k) ensures Less(s[0], x) {
        var j :| 0 <= j < |s[1..]| && s[1..][j] == x;
        assert s[j + 1] == x;
      }
    }
  }

  lemma HeadIsElement(b: seq<string>)
    ensures b != [] ==> b[0] in b
  {
  }

  /** A std::set is determined by its elements: two strictly ascending sequences with the same elements are equal. */
  lemma {:induction false} AscendingUnique(a: seq<string>, b: seq<string>)
    requires StrictlyAscending(a) && StrictlyAscending(b)
    requires forall x :: x in a <==> x in b
    ensures a == b
    decreases |a|
  {
    if a == [] {
      HeadIsElement(b);
    } else {
      assert a[0] in b;
      assert b != [];
      assert b[0] in a;
      var j :| 0 <= j < |b| && b[j] == a[0];
      var i :| 0 <= i < |a| && a[i] == b[0];
      if j > 0 {
        if i == 0 { LessIrreflexive(a[0]); } else { LessAsymmetric(a[0], b[0]); }
      }
      assert a[0] == b[0];
      StrictlyAscendingDistinct(a);
      StrictlyAscendingDistinct(b);
      forall x ensures x in a[1..] <==> x in b[1..] {
        if x in a[1..] {
          var k :| 0 <= k < |a[1..]| && a[1..][k] == x;
          assert a[k + 1] == x && x != a[0];
          assert x in b;
        }
        if x in b[1..] {
          var k :| 0 <= k < |b[1..]| && b[1..][k] == x;
          assert b[k + 1] == x && x != b[0];
          assert x in a;
        }
      }
      AscendingUnique(a[1..], b[1..]);
      assert a == [a[0]] + a[1..] && b == [b[0]] + b[1..];
    }
  }

  predicate Distinct(s: seq<string>)
  {
    forall i, j :: 0 <= i < j < |s| ==> s[i] != s[j]
  }

  /** In a sequence without repeats every element occurs once. */
  lemma {:induction false} DistinctCount(s: seq<string>, x: string)
    requires Distinct(s)
    ensures multiset(s)[x] == if x in s then 1 else 0
    decreases |s|
  {
    if s != [] {
      assert Distinct(s[1..]);
      DistinctCount(s[1..], x);
      assert s == [s[0]] + s[1..];
      if x == s[0] {
        assert x !in s[1..];
      }
    }
  }

  lemma {:induction false} SelectDistinct(s: seq<string>, allowed: set<string>)
    requires Distinct(s)
    ensures Distinct(Select(s, allowed))
    decreases |s|
  {
    if s != [] {
      assert Distinct(s[1..]);
      SelectDistinct(s[1..], allowed);
      var rest := Select(s[1..], allowed);
      if s[0] in allowed {
        assert s[0] !in rest;
      }
    }
  }
}
