/** MatchCacheEntry against a declarative specification of the best match. */
module Lookup {
  import opened Like
  import opened Queries
  import opened Types

  datatype MatchType = ExactPrimary | PrefixedPrimary | ExactRestore | PrefixedRestore

  datatype MatchInput = MatchInput(keys: seq<string>, version: string, scopes: seq<string>, repoId: string)

  /** Failed is an error of the database, passed on at once. */
  datatype MatchResult = NoKeys | NoMatch | Failed | Found(entry: nat, kind: MatchType)

  /** One of the queries a lookup may run: scope i, key j, by equality or by prefix. */
  datatype Rank = Rank(scope: nat, key: nat, prefixed: bool)

  /** The order of preference: the scope first, then the key, then exact before prefixed. */
  predicate Before(r: Rank, q: Rank) {
    || r.scope < q.scope
    || (r.scope == q.scope && r.key < q.key)
    || (r.scope == q.scope && r.key == q.key && !r.prefixed && q.prefixed)
  }

  predicate InRange(q: MatchInput, r: Rank) {
    r.scope < |q.scopes| && r.key < |q.keys|
  }

  /** Entry e of the right version and repository answers the query of rank r: its scope is scope i, and its
      key is key j, or starts with it. */
  predicate Answers(entries: map<nat, Entry>, fold: char -> char, q: MatchInput, r: Rank, e: nat) {
    && InRange(q, r) && e in entries
    && var k := entries[e].key;
    && k.version == q.version && k.repoId == q.repoId && k.scope == q.scopes[r.scope]
    && (if r.prefixed then FoldedPrefix(fold, q.keys[r.key], k.key) else k.key == q.keys[r.key])
  }

  function KindOf(r: Rank): MatchType {
    if r.key == 0 then (if r.prefixed then PrefixedPrimary else ExactPrimary)
    else (if r.prefixed then PrefixedRestore else ExactRestore)
  }

  /** e answers rank r, nothing answers a preferred rank, and nothing newer answers r. */
  ghost predicate Best(entries: map<nat, Entry>, fold: char -> char, q: MatchInput, r: Rank, e: nat) {
    && Answers(entries, fold, q, r, e)
    && (forall p, d :: Before(p, r) ==> !Answers(entries, fold, q, p, d))
    && (forall d :: Answers(entries, fold, q, r, d) ==> entries[d].updatedAt <= entries[e].updatedAt)
  }

  /** The result if no query fails. */
  ghost predicate IsBestMatch(entries: map<nat, Entry>, fold: char -> char, q: MatchInput, m: MatchResult) {
    match m
    case NoKeys => q.keys == []
    case NoMatch => q.keys != [] && forall r, e :: !Answers(entries, fold, q, r, e)
    case Failed => false
    case Found(e, kind) => q.keys != [] && exists r :: Best(entries, fold, q, r, e) && kind == KindOf(r)
  }

  /** No query of a preferred rank fails. */
  ghost predicate Clear(q: MatchInput, fails: Rank -> bool, r: Rank) {
    forall p :: Before(p, r) && InRange(q, p) ==> !fails(p)
  }

  /** The result if the queries of the ranks with fails(r) fail: the first rank that answers or fails decides. */
  ghost predicate IsOutcome(
      entries: map<nat, Entry>, fold: char -> char, q: MatchInput, fails: Rank -> bool, m: MatchResult) {
    match m
    case NoKeys => q.keys == []
    case NoMatch => IsBestMatch(entries, fold, q, m) && forall r :: InRange(q, r) ==> !fails(r)
    case Failed =>
      && q.keys != []
      && exists r :: InRange(q, r) && fails(r) && Clear(q, fails, r) && NoneBefore(entries, fold, q, r)
    case Found(e, kind) =>
      && q.keys != []
      && exists r :: Best(entries, fold, q, r, e) && kind == KindOf(r) && Clear(q, fails, r) && !fails(r)
  }

  // ---------- the queries behind the ranks ----------

  function KeyOf(q: MatchInput, r: Rank): Key
    requires InRange(q, r)
  {
    Key(q.keys[r.key], q.version, q.scopes[r.scope], q.repoId)
  }

  function Candidates(entries: map<nat, Entry>, fold: char -> char, q: MatchInput, r: Rank): set<nat>
    requires InRange(q, r)
  {
    if r.prefixed then Prefixed(entries, fold, KeyOf(q, r)) else Exact(entries, KeyOf(q, r))
  }

  /** The two SELECT statements return exactly the entries that answer the rank. */
  lemma CandidatesAnswer(entries: map<nat, Entry>, fold: char -> char, q: MatchInput, r: Rank, e: nat)
    requires InRange(q, r)
    ensures e in Candidates(entries, fold, q, r) <==> Answers(entries, fold, q, r, e)
  {
    if e in entries {
      PrefixPattern(fold, q.keys[r.key], entries[e].key.key);
    }
  }

  /** No entry answers any rank before (i, j, exact). */
  ghost predicate NoneBefore(entries: map<nat, Entry>, fold: char -> char, q: MatchInput, r: Rank) {
    forall p, d :: Before(p, r) ==> !Answers(entries, fold, q, p, d)
  }

  datatype Answer = QueryFailed | Nothing | One(entry: nat)

  /** Runs the query of one rank, knowing that all preferred ones came back empty. */
  method Query(db: Queries, q: MatchInput, r: Rank, fails: Rank -> bool) returns (a: Answer)
    requires InRange(q, r) && NoneBefore(db.entries, db.fold, q, r)
    ensures a.QueryFailed? <==> fails(r)
    ensures a.One? ==> Best(db.entries, db.fold, q, r, a.entry)
    ensures a.Nothing? ==> forall d :: !Answers(db.entries, db.fold, q, r, d)
  {
    if fails(r) {
      return QueryFailed;
    }
    var e;
    if r.prefixed {
      e := db.FindPrefixedCacheEntry(KeyOf(q, r));
    } else {
      e := db.FindExactCacheEntry(KeyOf(q, r));
    }
    forall d ensures d in Candidates(db.entries, db.fold, q, r) <==> Answers(db.entries, db.fold, q, r, d) {
      CandidatesAnswer(db.entries, db.fold, q, r, d);
    }
    a := if e.Some? then One(e.value) else Nothing;
  }

  /** The exact query and then the prefix query of one key. */
  method QueryKey(db: Queries, q: MatchInput, i: nat, j: nat, fails: Rank -> bool) returns (m: MatchResult)
    requires i < |q.scopes| && j < |q.keys|
    requires NoneBefore(db.entries, db.fold, q, Rank(i, j, false)) && Clear(q, fails, Rank(i, j, false))
    ensures m == NoMatch || ((m.Found? || m.Failed?) && IsOutcome(db.entries, db.fold, q, fails, m))
    ensures m == NoMatch
           ==> NoneBefore(db.entries, db.fold, q, Rank(i, j + 1, false)) && Clear(q, fails, Rank(i, j + 1, false))
  {
    var a := Query(db, q, Rank(i, j, false), fails);
    if a.QueryFailed? {
      return Failed;
    }
    if a.One? {
      return Found(a.entry, KindOf(Rank(i, j, false)));
    }
    a := Query(db, q, Rank(i, j, true), fails);
    if a.QueryFailed? {
      return Failed;
    }
    if a.One? {
      return Found(a.entry, KindOf(Rank(i, j, true)));
    }
    m := NoMatch;
  }

  /** The nested search with early exit returns the best match, or the first error on the way to it. */
  method MatchCacheEntry(db: Queries, q: MatchInput, fails: Rank -> bool) returns (m: MatchResult)
    ensures IsOutcome(db.entries, db.fold, q, fails, m)
  {
    hide NoneBefore, Clear, Best, Answers;
    if |q.keys| == 0 {
      return NoKeys;
    }
    var i := 0;
    FirstRank(db.entries, db.fold, q, fails);
    while i < |q.scopes|
      invariant 0 <= i <= |q.scopes|
      invariant NoneBefore(db.entries, db.fold, q, Rank(i, 0, false)) && Clear(q, fails, Rank(i, 0, false))
    {
      m := QueryKey(db, q, i, 0, fails);
      if m != NoMatch {
        return;
      }
      var j := 1;
      while j < |q.keys|
        invariant 1 <= j <= |q.keys|
        invariant NoneBefore(db.entries, db.fold, q, Rank(i, j, false)) && Clear(q, fails, Rank(i, j, false))
      {
        m := QueryKey(db, q, i, j, fails);
        if m != NoMatch {
          return;
        }
        j := j + 1;
      }
      ScopeDone(db.entries, db.fold, q, fails, i);
      i := i + 1;
    }
    AllDone(db.entries, db.fold, q, fails);
    m := NoMatch;
  }

  lemma FirstRank(entries: map<nat, Entry>, fold: char -> char, q: MatchInput, fails: Rank -> bool)
    ensures NoneBefore(entries, fold, q, Rank(0, 0, false)) && Clear(q, fails, Rank(0, 0, false))
  {
  }

  lemma ScopeDone(entries: map<nat, Entry>, fold: char -> char, q: MatchInput, fails: Rank -> bool, i: nat)
    requires NoneBefore(entries, fold, q, Rank(i, |q.keys|, false)) && Clear(q, fails, Rank(i, |q.keys|, false))
    ensures NoneBefore(entries, fold, q, Rank(i + 1, 0, false)) && Clear(q, fails, Rank(i + 1, 0, false))
  {
    forall p, d | Before(p, Rank(i + 1, 0, false)) ensures !Answers(entries, fold, q, p, d) {
      if InRange(q, p) { assert Before(p, Rank(i, |q.keys|, false)); }
    }
    forall p | Before(p, Rank(i + 1, 0, false)) && InRange(q, p) ensures !fails(p) {
      assert Before(p, Rank(i, |q.keys|, false));
    }
  }

  lemma AllDone(entries: map<nat, Entry>, fold: char -> char, q: MatchInput, fails: Rank -> bool)
    requires NoneBefore(entries, fold, q, Rank(|q.scopes|, 0, false)) && Clear(q, fails, Rank(|q.scopes|, 0, false))
    ensures forall r, e :: !Answers(entries, fold, q, r, e)
    ensures forall r :: InRange(q, r) ==> !fails(r)
  {
    forall r, e ensures !Answers(entries, fold, q, r, e) {
      if InRange(q, r) { assert Before(r, Rank(|q.scopes|, 0, false)); }
    }
    forall r | InRange(q, r) ensures !fails(r) {
      assert Before(r, Rank(|q.scopes|, 0, false));
    }
  }

  // ---------- what the specification says ----------

  /** A lookup fails exactly if some query fails and nothing answers a preferred one; otherwise it is the best match. */
  lemma FailsExactly(entries: map<nat, Entry>, fold: char -> char, q: MatchInput, fails: Rank -> bool, m: MatchResult)
    requires IsOutcome(entries, fold, q, fails, m)
    ensures m == Failed <==> q.keys != [] && exists r :: InRange(q, r) && fails(r) && NoneBefore(entries, fold, q, r)
    ensures m != Failed ==> IsBestMatch(entries, fold, q, m)
  {
    if m.Found? {
      var p :| Best(entries, fold, q, p, m.entry) && m.kind == KindOf(p) && Clear(q, fails, p) && !fails(p);
      forall r | InRange(q, r) && fails(r) ensures !NoneBefore(entries, fold, q, r) {
        assert Before(p, r);
        assert Answers(entries, fold, q, p, m.entry);
      }
    }
  }

  /** A lookup with keys comes back empty exactly when no entry of that version and repository, in any of the
      scopes, has any of the keys as a prefix. */
  lemma EmptyIff(entries: map<nat, Entry>, fold: char -> char, q: MatchInput, m: MatchResult)
    requires IsBestMatch(entries, fold, q, m) && q.keys != []
    ensures m == NoMatch <==>
      !exists e, i, j :: e in entries && 0 <= i < |q.scopes| && 0 <= j < |q.keys|
        && entries[e].key.version == q.version && entries[e].key.repoId == q.repoId
        && entries[e].key.scope == q.scopes[i] && FoldedPrefix(fold, q.keys[j], entries[e].key.key)
  {
    if m == NoMatch {
      forall e, i, j | e in entries && 0 <= i < |q.scopes| && 0 <= j < |q.keys|
        && entries[e].key.version == q.version && entries[e].key.repoId == q.repoId
        && entries[e].key.scope == q.scopes[i]
        ensures !FoldedPrefix(fold, q.keys[j], entries[e].key.key)
      {
        assert !Answers(entries, fold, q, Rank(i, j, true), e);
      }
    } else {
      var r :| Best(entries, fold, q, r, m.entry) && m.kind == KindOf(r);
      var k := entries[m.entry].key;
      assert FoldedPrefix(fold, q.keys[r.key], k.key);
    }
  }

  /** The specification leaves no choice but among equally new entries of one rank: two best matches have the
      same kind and the same updatedAt. */
  lemma BestIsUnique(entries: map<nat, Entry>, fold: char -> char, q: MatchInput, m: MatchResult, n: MatchResult)
    requires IsBestMatch(entries, fold, q, m) && IsBestMatch(entries, fold, q, n)
    ensures m.Found? <==> n.Found?
    ensures m.Found? ==> m.kind == n.kind && m.entry in entries && n.entry in entries
    ensures m.Found? ==> entries[m.entry].updatedAt == entries[n.entry].updatedAt
    ensures !m.Found? ==> m == n
  {
    if m.Found? && n.Found? {
      var r :| Best(entries, fold, q, r, m.entry) && m.kind == KindOf(r);
      var p :| Best(entries, fold, q, p, n.entry) && n.kind == KindOf(p);
      assert !Before(r, p) && !Before(p, r);
      assert r == p;
    }
  }
}
