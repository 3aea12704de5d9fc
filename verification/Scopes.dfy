/** The scopes of a token, sorted by permission, and what that order means for lookups. */
module Scopes {
  import opened Like
  import opened Lookup
  import opened Types

  datatype Scope = Scope(scope: string, permission: int)

  predicate Descending(s: seq<Scope>) {
    forall i, j :: 0 <= i < j < |s| ==> s[i].permission >= s[j].permission
  }

  /** The scopes of one permission, in order. */
  function WithPermission(s: seq<Scope>, p: int): seq<Scope> {
    if s == [] then []
    else (if s[0].permission == p then [s[0]] else []) + WithPermission(s[1..], p)
  }

  /** r holds the scopes of s, those of equal permission in the same order: a stable permutation. */
  ghost predicate SameByPermission(r: seq<Scope>, s: seq<Scope>) {
    forall p :: WithPermission(r, p) == WithPermission(s, p)
  }

  ghost predicate IsStableSort(r: seq<Scope>, s: seq<Scope>) {
    Descending(r) && SameByPermission(r, s)
  }

  lemma {:induction false} WithPermissionSplit(s: seq<Scope>, t: seq<Scope>, p: int)
    ensures WithPermission(s + t, p) == WithPermission(s, p) + WithPermission(t, p)
  {
    if s == [] {
      assert s + t == t;
    } else {
      assert (s + t)[1..] == s[1..] + t && (s + t)[0] == s[0];
      WithPermissionSplit(s[1..], t, p);
    }
  }

  /** Swapping two neighbours of different permission. */
  lemma SwapKeeps(s: seq<Scope>, j: nat)
    requires 0 < j < |s| && s[j].permission != s[j - 1].permission
    ensures SameByPermission(Swapped(s, j), s)
  {
    var a, x, y, b := s[..j - 1], s[j - 1], s[j], s[j + 1..];
    assert s == a + ([x, y] + b);
    assert s[j := x][j - 1 := y] == a + ([y, x] + b);
    forall p ensures WithPermission(a + ([y, x] + b), p) == WithPermission(a + ([x, y] + b), p) {
      WithPermissionSplit(a, [x, y] + b, p);
      WithPermissionSplit(a, [y, x] + b, p);
      WithPermissionSplit([x, y], b, p);
      WithPermissionSplit([y, x], b, p);
      assert [x, y][1..] == [y] && [y, x][1..] == [x] && [x][1..] == [] && [y][1..] == [];
    }
  }

  function Names(s: seq<Scope>): (names: seq<string>)
    ensures |names| == |s| && forall i :: 0 <= i < |s| ==> names[i] == s[i].scope
  {
    if s == [] then [] else [s[0].scope] + Names(s[1..])
  }

  /** Elements 0 .. i are in order, except that element j may still have to move to the left. */
  predicate Inserting(s: seq<Scope>, i: nat, j: nat) {
    && j <= i < |s|
    && (forall k, l :: 0 <= k < l <= i && l != j ==> s[k].permission >= s[l].permission)
    && (forall l :: j < l <= i ==> s[j].permission > s[l].permission)
  }

  function Swapped(s: seq<Scope>, j: nat): seq<Scope>
    requires 0 < j < |s|
  {
    s[j := s[j - 1]][j - 1 := s[j]]
  }

  lemma SwapInserts(s: seq<Scope>, i: nat, j: nat)
    requires Inserting(s, i, j) && 0 < j && s[j].permission > s[j - 1].permission
    ensures Inserting(Swapped(s, j), i, j - 1)
  {
  }

  lemma Inserted(s: seq<Scope>, i: nat, j: nat)
    requires Inserting(s, i, j) && (j == 0 || s[j].permission <= s[j - 1].permission)
    ensures Descending(s[..i + 1])
  {
    forall k, l | 0 <= k < l < i + 1 ensures s[k].permission >= s[l].permission {
      if l == j {
        assert s[j - 1].permission >= s[j].permission;
        assert k == j - 1 || s[k].permission >= s[j - 1].permission;
      }
    }
  }

  lemma Insert(s: seq<Scope>, i: nat)
    requires i < |s| && Descending(s[..i])
    ensures Inserting(s, i, i)
  {
    forall k, l | 0 <= k < l <= i && l != i ensures s[k].permission >= s[l].permission {
      assert s[..i][k] == s[k] && s[..i][l] == s[l];
    }
  }

  /** The in-place insertion sort on a copy of the scopes. */
  method ScopesByPermissionDesc(scopes: array<Scope>) returns (names: seq<string>)
    ensures exists sorted :: IsStableSort(sorted, scopes[..]) && names == Names(sorted)
  {
    var cp := new Scope[scopes.Length](i requires 0 <= i < scopes.Length reads scopes => scopes[i]);
    assert cp[..] == scopes[..];
    var i := 1;
    while i < cp.Length
      invariant 1 <= i && (i <= cp.Length || cp.Length == 0)
      invariant i <= cp.Length ==> Descending(cp[..i])
      invariant SameByPermission(cp[..], scopes[..])
    {
      var j := i;
      Insert(cp[..], i);
      assert cp[..][..i] == cp[..i];
      while j > 0 && cp[j].permission > cp[j - 1].permission
        invariant 0 <= j <= i < cp.Length
        invariant Inserting(cp[..], i, j) && SameByPermission(cp[..], scopes[..])
      {
        ghost var was := cp[..];
        SwapKeeps(was, j);
        SwapInserts(was, i, j);
        cp[j], cp[j - 1] := cp[j - 1], cp[j];
        assert cp[..] == Swapped(was, j);
        j := j - 1;
      }
      Inserted(cp[..], i, j);
      assert cp[..][..i + 1] == cp[..i + 1];
      i := i + 1;
    }
    assert cp.Length > 0 ==> cp[..i] == cp[..];
    ghost var sorted := cp[..];
    assert IsStableSort(sorted, scopes[..]);
    names := [];
    var n := 0;
    while n < cp.Length
      invariant 0 <= n <= cp.Length && cp[..] == sorted
      invariant |names| == n && forall k :: 0 <= k < n ==> names[k] == sorted[k].scope
    {
      names := names + [cp[n].scope];
      n := n + 1;
    }
    assert names == Names(sorted);
  }

  // ---------- what a stable sort is ----------

  lemma {:induction false} WithPermissionMembers(s: seq<Scope>, p: int, x: Scope)
    ensures x in WithPermission(s, p) <==> x in s && x.permission == p
  {
    if s != [] {
      WithPermissionMembers(s[1..], p, x);
      assert s == [s[0]] + s[1..];
    }
  }

  /** A stable sort is a permutation. */
  lemma {:induction false} StableSortPermutes(r: seq<Scope>, s: seq<Scope>, x: Scope)
    requires SameByPermission(r, s)
    ensures multiset(r)[x] == multiset(s)[x]
  {
    CountByPermission(r, x);
    CountByPermission(s, x);
    assert WithPermission(r, x.permission) == WithPermission(s, x.permission);
  }

  lemma {:induction false} CountByPermission(s: seq<Scope>, x: Scope)
    ensures multiset(s)[x] == multiset(WithPermission(s, x.permission))[x]
  {
    if s != [] {
      CountByPermission(s[1..], x);
      assert s == [s[0]] + s[1..];
    }
  }

  /** There is only one stable sort of a list of scopes. */
  lemma {:induction false} StableSortUnique(r: seq<Scope>, t: seq<Scope>)
    requires Descending(r) && Descending(t) && SameByPermission(r, t)
    ensures r == t
  {
    if r == [] {
      if t != [] {
        HeadAgrees(t, r);
      }
    } else {
      HeadAgrees(r, t);
      forall p ensures WithPermission(r[1..], p) == WithPermission(t[1..], p) {
        assert WithPermission(r, p) == WithPermission(t, p);
        assert WithPermission(r, p) == (if r[0].permission == p then [r[0]] else []) + WithPermission(r[1..], p);
        assert WithPermission(t, p) == (if r[0].permission == p then [r[0]] else []) + WithPermission(t[1..], p);
        SameTail(if r[0].permission == p then [r[0]] else [], WithPermission(r[1..], p), WithPermission(t[1..], p));
      }
      StableSortUnique(r[1..], t[1..]);
      assert r == [r[0]] + r[1..] && t == [t[0]] + t[1..];
    }
  }

  lemma SameTail(a: seq<Scope>, b: seq<Scope>, c: seq<Scope>)
    requires a + b == a + c
    ensures b == c
  {
    assert b == (a + b)[|a|..] && c == (a + c)[|a|..];
  }

  lemma HeadAgrees(r: seq<Scope>, t: seq<Scope>)
    requires Descending(r) && Descending(t) && SameByPermission(r, t) && r != []
    ensures t != [] && t[0] == r[0]
  {
    var p := r[0].permission;
    WithPermissionMembers(t, p, r[0]);
    assert WithPermission(t, p) == WithPermission(r, p);
    assert r[0] in t;
    var q := t[0].permission;
    WithPermissionMembers(r, q, t[0]);
    assert WithPermission(r, q) == WithPermission(t, q);
    assert t[0] in r;
    assert r[0].permission == t[0].permission;
    assert WithPermission(r, p)[0] == r[0] && WithPermission(t, p)[0] == t[0];
  }

  // ---------- lookups in sorted scopes ----------

  lemma SortedPosition(scopes: seq<Scope>, sorted: seq<Scope>, x: Scope) returns (i: nat)
    requires SameByPermission(sorted, scopes) && x in scopes
    ensures i < |sorted| && sorted[i] == x
  {
    WithPermissionMembers(scopes, x.permission, x);
    WithPermissionMembers(sorted, x.permission, x);
    assert WithPermission(sorted, x.permission) == WithPermission(scopes, x.permission);
    i :| 0 <= i < |sorted| && sorted[i] == x;
  }

  /** Scopes with a higher permission come first, so an entry of scope number i of the sorted list is only
      returned if nothing in any scope of a higher permission has any of the keys as a prefix. */
  lemma HigherPermissionFirst(
      entries: map<nat, Entry>, fold: char -> char, scopes: seq<Scope>, sorted: seq<Scope>, q: MatchInput,
                              m: MatchResult, r: Rank, high: Scope, j: nat, d: nat)
    requires IsStableSort(sorted, scopes) && q.scopes == Names(sorted)
    requires m.Found? && Best(entries, fold, q, r, m.entry)
    requires high in scopes && high.permission > sorted[r.scope].permission
    requires j < |q.keys| && d in entries && entries[d].key.version == q.version && entries[d].key.repoId == q.repoId
    requires entries[d].key.scope == high.scope
    ensures !FoldedPrefix(fold, q.keys[j], entries[d].key.key)
  {
    var i := SortedPosition(scopes, sorted, high);
    assert i < r.scope;
    assert Before(Rank(i, j, true), r);
    assert !Answers(entries, fold, q, Rank(i, j, true), d);
  }

  /** The scope a request may write to: the first with write permission. */
  function WriteScope(scopes: seq<Scope>): (r: Option<Scope>)
    ensures r.None? <==> forall s :: s in scopes ==> s.permission < 2
    ensures r.Some? ==> (exists i :: 0 <= i < |scopes| && scopes[i] == r.value && r.value.permission >= 2
                                     && forall k :: 0 <= k < i ==> scopes[k].permission < 2)
  {
    if scopes == [] then None
    else if scopes[0].permission >= 2 then Some(scopes[0])
    else WriteScope(scopes[1..])
  }
}
