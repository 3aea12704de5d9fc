/** Records shared by the whole model: the three tables' rows and the stored bytes. */
module Types {

  datatype Option<+T> = None | Some(value: T)

  type byte = x: int | 0 <= x < 256
  type Bytes = seq<byte>

  /** What identifies an upload or an entry for its clients. */
  datatype Key = Key(key: string, version: string, scope: string, repoId: string)

  /** A row of `uploads`; its id is the map key and also names its folder. */
  datatype Upload = Upload(key: Key, createdAt: int, lastPartUploadedAt: Option<int>, started: nat, finished: nat)

  /** A row of `storage_locations`. A folder is named by the decimal form of an upload id, so it is
      modelled by that id; module ObjectNames ties ids to object names. */
  datatype Location = Location(
    folder: nat, partCount: nat,
    mergeStartedAt: Option<int>, mergedAt: Option<int>, partsDeletedAt: Option<int>,
    lastDownloadedAt: Option<int>)

  /** A row of `cache_entries`; `location` is the foreign key. */
  datatype Entry = Entry(key: Key, updatedAt: int, location: nat)

  // ---------- parts of an archive ----------

  /** Parts 0 .. n-1 are all there. */
  predicate HasFirst(parts: map<int, Bytes>, n: nat) {
    forall i :: 0 <= i < n ==> i in parts
  }

  /** Parts 0 .. n-1, one after the other. */
  function Join(parts: map<int, Bytes>, n: nat): Bytes
    requires HasFirst(parts, n)
  {
    if n == 0 then [] else Join(parts, n - 1) + parts[n - 1]
  }

  /** The number of leading parts, at most n, before the first gap. */
  function Leading(parts: map<int, Bytes>, n: nat): (k: nat)
    ensures k <= n && HasFirst(parts, k)
    ensures k < n ==> k !in parts
  {
    if n == 0 then 0
    else
      var k := Leading(parts, n - 1);
      if k == n - 1 && n - 1 in parts then n else k
  }

  /** What a reader of an n-part archive can be sent at most. */
  function Content(parts: map<int, Bytes>, n: nat): Bytes {
    Join(parts, Leading(parts, n))
  }

  lemma {:induction false} JoinPrefix(parts: map<int, Bytes>, k: nat, n: nat)
    requires k <= n && HasFirst(parts, n)
    ensures Join(parts, k) <= Join(parts, n)
    decreases n
  {
    if k < n {
      JoinPrefix(parts, k, n - 1);
    }
  }

  /** Every complete run of leading parts is a prefix of the content. */
  lemma JoinWithinContent(parts: map<int, Bytes>, k: nat, n: nat)
    requires k <= n && HasFirst(parts, k)
    ensures Join(parts, k) <= Content(parts, n)
    ensures k == n ==> Content(parts, n) == Join(parts, n)
  {
    var m := Leading(parts, n);
    assert k <= m;
    JoinPrefix(parts, k, m);
  }

  // ---------- counting ----------

  function Indices(q: seq<int>): set<int> {
    set i | i in q
  }

  predicate Distinct<T(==)>(q: seq<T>) {
    forall i, j :: 0 <= i < j < |q| ==> q[i] != q[j]
  }

  lemma {:induction false} IndicesBound(q: seq<int>)
    ensures |Indices(q)| <= |q|
  {
    if q != [] {
      var rest := q[..|q| - 1];
      IndicesBound(rest);
      assert Indices(q) == Indices(rest) + {q[|q| - 1]};
    }
  }

  lemma RepeatCosts(q: seq<int>, i: nat, j: nat)
    requires i < j < |q| && q[i] == q[j]
    ensures |Indices(q)| < |q|
  {
    var rest := q[..j] + q[j + 1..];
    forall x | x in q ensures x in rest {
      var k :| 0 <= k < |q| && q[k] == x;
      if k < j { assert rest[k] == x; } else if k > j { assert rest[k - 1] == x; } else { assert rest[i] == x; }
    }
    assert Indices(q) == Indices(rest);
    IndicesBound(rest);
  }

  /** Pigeonhole: a sequence with as many distinct values as elements repeats nothing. */
  lemma Pigeonhole(q: seq<int>)
    requires |Indices(q)| >= |q|
    ensures Distinct(q)
  {
    forall i, j | 0 <= i < j < |q| ensures q[i] != q[j] {
      if q[i] == q[j] {
        RepeatCosts(q, i, j);
      }
    }
  }

  lemma SubsetSize<T>(a: set<T>, b: set<T>)
    requires a <= b
    ensures |a| <= |b|
    ensures |a| == |b| ==> a == b
  {
    assert b == a + (b - a);
  }

  /** The indices 0 .. n-1. */
  function Below(n: nat): (s: set<int>)
    ensures |s| == n
    ensures forall i :: i in s <==> 0 <= i < n
  {
    if n == 0 then {} else Below(n - 1) + {n - 1}
  }

  /** n distinct indices that include 0 .. n-1 are exactly those. */
  lemma FirstIndices(s: set<int>, n: nat)
    requires |s| == n
    requires forall i :: 0 <= i < n ==> i in s
    ensures s == Below(n)
  {
    SubsetSize(Below(n), s);
  }
}
