/** The names of stored objects, and which of them a folder's prefix covers. */
module ObjectNames {
  import opened Decimals
  import opened Types

  /** What the service stores: the parts of an upload, and the merged archive. */
  datatype Object = Part(folder: nat, index: int) | Merged(folder: nat)

  function Root(): string { "gh-actions-cache" }

  function FolderName(folder: nat): string { Format(folder) }

  function Tail(o: Object): string {
    match o
    case Part(_, i) => "parts/" + Format(i)
    case Merged(_) => "merged"
  }

  function FolderPrefix(folder: nat): string {
    Root() + "/" + FolderName(folder) + "/"
  }

  function PartsPrefix(folder: nat): string {
    Root() + "/" + FolderName(folder) + "/parts" + "/"
  }

  function Name(o: Object): string {
    FolderPrefix(o.folder) + Tail(o)
  }

  function BeforeSlash(s: string): string {
    if s == "" || s[0] == '/' then "" else [s[0]] + BeforeSlash(s[1..])
  }

  lemma {:induction false} BeforeSlashOf(a: string, s: string)
    requires '/' !in a
    ensures BeforeSlash(a + "/" + s) == a
  {
    if a != "" {
      assert (a + "/" + s)[1..] == a[1..] + "/" + s;
      BeforeSlashOf(a[1..], s);
    }
  }

  /** The numeral ends where the first slash stands. */
  lemma NumeralsSplit(m: nat, s: string, n: nat, t: string)
    requires Format(m) + "/" + s == Format(n) + "/" + t
    ensures m == n && s == t
  {
    FormatHasNoSlash(m);
    FormatHasNoSlash(n);
    BeforeSlashOf(Format(m), s);
    BeforeSlashOf(Format(n), t);
    FormatInjective(m, n);
    var x := Format(m) + "/" + s;
    assert s == x[|Format(m)| + 1..] && t == x[|Format(m)| + 1..];
  }

  lemma Unrooted(s: string, t: string)
    ensures Root() + "/" + s == Root() + "/" + t <==> s == t
    ensures Root() + "/" + s <= Root() + "/" + t <==> s <= t
  {
    SamePrefix(Root() + "/", s, t);
  }

  lemma SamePrefix(r: string, s: string, t: string)
    ensures r + s == r + t <==> s == t
    ensures r + s <= r + t <==> s <= t
  {
    assert s == (r + s)[|r|..] && t == (r + t)[|r|..];
    if s <= t {
      assert r + t == r + s + t[|s|..];
    }
    if r + s <= r + t {
      assert (r + t)[|r|..|r + s|] == s;
    }
  }

  lemma NameForm(o: Object)
    ensures Name(o) == Root() + "/" + (FolderName(o.folder) + "/" + Tail(o))
    ensures FolderPrefix(o.folder) == Root() + "/" + (FolderName(o.folder) + "/")
    ensures PartsPrefix(o.folder) == Root() + "/" + (FolderName(o.folder) + "/" + "parts/")
  {
  }

  /** Different objects have different names. */
  lemma NameInjective(o: Object, p: Object)
    ensures Name(o) == Name(p) <==> o == p
  {
    if Name(o) == Name(p) {
      NameForm(o);
      NameForm(p);
      Unrooted(FolderName(o.folder) + "/" + Tail(o), FolderName(p.folder) + "/" + Tail(p));
      NumeralsSplit(o.folder, Tail(o), p.folder, Tail(p));
      TailInjective(o, p);
    }
  }

  lemma TailInjective(o: Object, p: Object)
    requires Tail(o) == Tail(p)
    ensures o.Part? == p.Part? && (o.Part? ==> o.index == p.index)
  {
    PartTail(o);
    PartTail(p);
    if o.Part? && p.Part? {
      assert Tail(o)[6..] == Format(o.index) && Tail(p)[6..] == Format(p.index);
      FormatInjective(o.index, p.index);
    }
  }

  lemma PartTail(o: Object)
    ensures o.Part? <==> "parts/" <= Tail(o)
  {
    if o.Merged? {
      assert Tail(o)[0] == 'm';
    }
  }

  /** The trailing slash makes the folders disjoint: a folder's prefix covers its own objects and no others. */
  lemma FolderPrefixExact(folder: nat, o: Object)
    ensures FolderPrefix(folder) <= Name(o) <==> o.folder == folder
  {
    var p := Merged(folder);
    NameForm(o);
    NameForm(p);
    var s, t := FolderName(folder) + "/", FolderName(o.folder) + "/" + Tail(o);
    Unrooted(s, t);
    if s <= t {
      assert t == s + t[|s|..];
      NumeralsSplit(folder, t[|s|..], o.folder, Tail(o));
    }
  }

  lemma PartsPrefixExact(folder: nat, o: Object)
    ensures PartsPrefix(folder) <= Name(o) <==> o.folder == folder && o.Part?
  {
    var p := Merged(folder);
    NameForm(o);
    NameForm(p);
    PartTail(o);
    hide Tail, Name, Format, Root, FolderPrefix, PartsPrefix;
    var s, t := FolderName(folder) + "/" + "parts/", FolderName(o.folder) + "/" + Tail(o);
    Unrooted(s, t);
    if s <= t {
      assert t == FolderName(folder) + "/" + ("parts/" + t[|s|..]);
      NumeralsSplit(folder, "parts/" + t[|s|..], o.folder, Tail(o));
    }
    if o.folder == folder && o.Part? {
      assert t == s + Tail(o)[6..];
    }
  }

  /** Without the slash, a folder would also cover every folder whose number starts with its digits. */
  lemma WithoutSlash(folder: nat, o: Object)
    ensures Root() + "/" + FolderName(folder) <= Name(o) <==> FolderName(folder) <= FolderName(o.folder)
  {
    NameForm(o);
    var s, n, t := FolderName(folder), FolderName(o.folder), FolderName(o.folder) + "/" + Tail(o);
    Unrooted(s, t);
    assert t[|n|] == '/';
    assert s <= t && |n| < |s| ==> s[|n|] == '/';
    FormatHasNoSlash(folder);
    if s <= t {
      assert t[..|s|] == n[..|s|];
    }
  }

  // ---------- a bucket that holds the service's objects ----------

  /** The keys and values of a bucket are those of the store, under the objects' names. */
  ghost predicate Represents(bucket: map<string, Bytes>, store: map<Object, Bytes>) {
    && (forall o :: o in store ==> Name(o) in bucket && bucket[Name(o)] == store[o])
    && (forall k :: k in bucket ==> exists o :: o in store && Name(o) == k)
  }

  function Under<T>(bucket: map<string, T>, prefix: string): set<string> {
    set k | k in bucket && prefix <= k
  }

  function Without<T>(bucket: map<string, T>, prefix: string): map<string, T> {
    map k | k in bucket && !(prefix <= k) :: bucket[k]
  }

  function PartsOf(store: map<Object, Bytes>, folder: nat): set<Object> {
    set o | o in store && o.folder == folder && o.Part?
  }

  /** The store once the folder is deleted; a failed delete leaves what is in `kept`. */
  function DropFolder(store: map<Object, Bytes>, folder: nat, kept: set<Object>): map<Object, Bytes> {
    map o | o in store && (o.folder != folder || o in kept) :: store[o]
  }

  function DropParts(store: map<Object, Bytes>, folder: nat, kept: set<Object>): map<Object, Bytes> {
    map o | o in store && (o.folder != folder || o.Merged? || o in kept) :: store[o]
  }

  /** What opening an object comes to. */
  datatype Opened = Stream(body: Bytes) | Missing | OpenFailed

  lemma PutRepresents(bucket: map<string, Bytes>, store: map<Object, Bytes>, o: Object, b: Bytes)
    requires Represents(bucket, store)
    ensures Represents(bucket[Name(o) := b], store[o := b])
  {
    hide Name;
    forall p ensures Name(p) == Name(o) <==> p == o { NameInjective(p, o); }
    var after := bucket[Name(o) := b];
    forall k | k in after ensures exists p :: p in store[o := b] && Name(p) == k {
      if k != Name(o) {
        var p :| p in store && Name(p) == k;
        assert p in store[o := b];
      } else {
        assert o in store[o := b];
      }
    }
  }

  /** Removing the keys under a folder's prefix removes the folder's objects: all of them and nothing else. */
  lemma DeleteRepresents(bucket: map<string, Bytes>, store: map<Object, Bytes>, folder: nat)
    requires Represents(bucket, store)
    ensures Represents(Without(bucket, FolderPrefix(folder)), DropFolder(store, folder, {}))
    ensures Represents(Without(bucket, PartsPrefix(folder)), DropParts(store, folder, {}))
  {
    hide Name, FolderPrefix, PartsPrefix, Represents;
    forall o ensures FolderPrefix(folder) <= Name(o) <==> o.folder == folder {
      FolderPrefixExact(folder, o);
    }
    LessRepresents(bucket, store, DropFolder(store, folder, {}), FolderPrefix(folder));
    forall o ensures PartsPrefix(folder) <= Name(o) <==> o.folder == folder && o.Part? {
      PartsPrefixExact(folder, o);
    }
    LessRepresents(bucket, store, DropParts(store, folder, {}), PartsPrefix(folder));
  }

  lemma LessRepresents(bucket: map<string, Bytes>, store: map<Object, Bytes>, less: map<Object, Bytes>, prefix: string)
    requires Represents(bucket, store)
    requires forall o :: o in less <==> o in store && !(prefix <= Name(o))
    requires forall o :: o in less ==> less[o] == store[o]
    ensures Represents(Without(bucket, prefix), less)
  {
    hide Name;
    forall k | k in Without(bucket, prefix) ensures exists p :: p in less && Name(p) == k {
      var p :| p in store && Name(p) == k;
      assert p in less;
    }
  }

  /** Counting the keys under the parts prefix counts the parts. */
  lemma CountRepresents(bucket: map<string, Bytes>, store: map<Object, Bytes>, folder: nat)
    requires Represents(bucket, store)
    ensures |Under(bucket, PartsPrefix(folder))| == |PartsOf(store, folder)|
  {
    forall o ensures PartsPrefix(folder) <= Name(o) <==> o.folder == folder && o.Part? {
      PartsPrefixExact(folder, o);
    }
    var os, ks := PartsOf(store, folder), Under(bucket, PartsPrefix(folder));
    forall k | k in ks ensures exists o :: o in os && Name(o) == k {
      var o :| o in store && Name(o) == k;
      assert o in os;
    }
    NamesOf(os, ks);
  }

  lemma {:induction false} NamesOf(os: set<Object>, ks: set<string>)
    requires forall o :: o in os ==> Name(o) in ks
    requires forall k :: k in ks ==> exists o :: o in os && Name(o) == k
    ensures |os| == |ks|
    decreases |os|
  {
    if os == {} {
      assert ks == {};
    } else {
      var o :| o in os;
      var os', ks' := os - {o}, ks - {Name(o)};
      forall p | p in os' ensures Name(p) in ks' { NameInjective(p, o); }
      forall k | k in ks' ensures exists p :: p in os' && Name(p) == k {
        var p :| p in os && Name(p) == k;
        assert p in os';
      }
      NamesOf(os', ks');
    }
  }
}
