/** The S3 adapter: token pagination, batched deletes and the atomic put. */
module S3 {
  import opened ObjectNames
  import opened Types

  // ---------- the order of keys ----------

  predicate Less(s: string, t: string) {
    t != "" && (s == "" || s[0] < t[0] || (s[0] == t[0] && Less(s[1..], t[1..])))
  }

  lemma {:induction false} LessTransitive(s: string, t: string, u: string)
    requires Less(s, t) && Less(t, u)
    ensures Less(s, u)
  {
    if s != "" && s[0] == t[0] && t[0] == u[0] {
      LessTransitive(s[1..], t[1..], u[1..]);
    }
  }

  lemma {:induction false} LessTotal(s: string, t: string)
    ensures s == t || Less(s, t) || Less(t, s)
    ensures !(s == t && Less(s, t)) && !(Less(s, t) && Less(t, s))
  {
    if s != "" && t != "" {
      LessTotal(s[1..], t[1..]);
      assert s == [s[0]] + s[1..] && t == [t[0]] + t[1..];
    }
  }

  // ---------- what a listing returns ----------

  datatype Page = Page(contents: seq<string>, truncated: bool, next: string)

  /** The keys a request with this continuation token still lists; the empty token is sent as none. */
  function Rest(keys: set<string>, token: string): set<string> {
    set k | k in keys && (token == "" || Less(token, k))
  }

  /** ListObjectsV2: the first keys after the token in ascending order.  A truncated page is not empty, and
      its token continues after its last key. */
  ghost predicate IsPage(p: Page, keys: set<string>, token: string) {
    && Distinct(p.contents)
    && (forall k :: k in p.contents ==> k in Rest(keys, token))
    && (forall k, c :: k in Rest(keys, token) && k !in p.contents && c in p.contents ==> Less(c, k))
    && (p.truncated ==> p.contents != [] && p.next != "" && p.next == p.contents[|p.contents| - 1])
    && (p.truncated ==> forall c :: c in p.contents ==> c == p.next || Less(c, p.next))
    && (!p.truncated ==> forall k :: k in Rest(keys, token) ==> k in p.contents)
  }

  lemma NextRest(p: Page, keys: set<string>, token: string)
    requires IsPage(p, keys, token) && p.truncated
    ensures Rest(keys, p.next) == Rest(keys, token) - Members(p.contents)
  {
    forall k ensures k in Rest(keys, p.next) <==> k in Rest(keys, token) && k !in p.contents {
      if k in Rest(keys, p.next) {
        if token != "" {
          LessTransitive(token, p.next, k);
        }
        LessTotal(p.next, k);
        if k in p.contents {
          assert false;
        }
      }
    }
  }

  lemma RestOfAll(keys: set<string>)
    ensures Rest(keys, "") == keys
  {
  }

  /** A page counts the keys that the next request does not list again. */
  lemma PageCounted(p: Page, keys: set<string>, token: string)
    requires IsPage(p, keys, token)
    ensures |Rest(keys, token)| == |p.contents| + if p.truncated then |Rest(keys, p.next)| else 0
    ensures p.truncated ==> |p.contents| > 0
  {
    DistinctSize(p.contents);
    if p.truncated {
      NextRest(p, keys, token);
      assert Members(p.contents) <= Rest(keys, token);
    } else {
      assert Members(p.contents) == Rest(keys, token);
    }
  }

  /** Listing key by key: `contents` are the least keys, ascending, and `left` the others. */
  ghost predicate IsSplit(contents: seq<string>, left: set<string>, keys: set<string>) {
    && left <= keys && Distinct(contents)
    && (forall k :: k in contents <==> k in keys && k !in left)
    && (forall k, c :: k in left && c in contents ==> Less(c, k))
    && (forall c :: c in contents ==> c == contents[|contents| - 1] || Less(c, contents[|contents| - 1]))
  }

  lemma SplitNone(keys: set<string>)
    ensures IsSplit([], keys, keys)
  {
  }

  lemma SplitLast(contents: seq<string>, left: set<string>, keys: set<string>)
    requires IsSplit(contents, left, keys)
    ensures contents != [] ==> contents[|contents| - 1] in keys
  {
  }

  lemma SplitNext(contents: seq<string>, left: set<string>, keys: set<string>, k: string)
    requires IsSplit(contents, left, keys) && k in left && forall j :: j in left && j != k ==> Less(k, j)
    ensures IsSplit(contents + [k], left - {k}, keys)
  {
  }

  lemma SplitIsPage(p: Page, left: set<string>, keys: set<string>, token: string)
    requires IsSplit(p.contents, left, Rest(keys, token)) && p.truncated == (left != {})
    requires p.contents != [] ==> p.next != "" && p.next == p.contents[|p.contents| - 1]
    requires left != {} ==> p.contents != []
    ensures IsPage(p, keys, token)
  {
  }

  /** Batches put end to end. */
  function Flatten(batches: seq<seq<string>>): seq<string> {
    if batches == [] then [] else Flatten(batches[..|batches| - 1]) + batches[|batches| - 1]
  }

  lemma FlattenNothing()
    ensures Flatten([]) == []
  {
  }

  /** One more batch. */
  lemma FlattenMore(batches: seq<seq<string>>, keys: seq<string>, i: nat, end: nat)
    requires i <= end <= |keys| && Flatten(batches) == keys[..i]
    ensures Flatten(batches + [keys[i..end]]) == keys[..end]
    ensures Members(keys[..end]) == Members(keys[..i]) + Members(keys[i..end])
    ensures Members(keys[..end]) <= Members(keys)
  {
    assert (batches + [keys[i..end]])[..|batches|] == batches;
    assert keys[..end] == keys[..i] + keys[i..end];
  }

  function Reached(i: nat, keys: seq<string>): nat {
    if i < |keys| then i else |keys|
  }

  predicate Removed(after: map<string, Bytes>, before: map<string, Bytes>, may: set<string>) {
    && (forall k :: k in after ==> k in before && after[k] == before[k])
    && (forall k :: k in before && k !in may ==> k in after)
  }

  lemma RemovedTwice(
      c: map<string, Bytes>, b: map<string, Bytes>, a: map<string, Bytes>, some: set<string>, may: set<string>)
    requires Removed(c, b, some) && Removed(b, a, may) && some <= may
    ensures Removed(c, a, may)
  {
  }

  lemma RemovedUnder(b: map<string, Bytes>, a: map<string, Bytes>, prefix: string)
    requires Removed(b, a, Under(a, prefix))
    ensures Under(b, prefix) == {} ==> b == Without(a, prefix)
  {
    if Under(b, prefix) == {} {
      forall k ensures k in b <==> k in Without(a, prefix) {
        assert k in b ==> k !in Under(b, prefix);
      }
    }
  }

  /** The next request, if there is one, does not list the key. */
  predicate PassedBy(p: Page, keys: set<string>, k: string) {
    p.truncated ==> k !in Rest(keys, p.next)
  }

  lemma PageWithin(p: Page, was: map<string, Bytes>, first: map<string, Bytes>, prefix: string, token: string)
    requires IsPage(p, Under(was, prefix), token) && Removed(was, first, Under(first, prefix))
    ensures Members(p.contents) <= Under(first, prefix)
    ensures p.contents == [] ==> !p.truncated && forall k :: k in Under(was, prefix) ==>
      k !in Rest(Under(was, prefix), token)
  {
  }

  /** Once a page is dealt with, what is left under the prefix was on the page, comes after it, or came before. */
  lemma PageDeleted(p: Page, was: map<string, Bytes>, now: map<string, Bytes>, prefix: string, token: string)
    requires IsPage(p, Under(was, prefix), token) && Removed(now, was, Members(p.contents)) && p.contents != []
    ensures forall k :: k in Under(now, prefix) ==> k in now && k in Under(was, prefix)
    ensures p.truncated ==> |Rest(Under(now, prefix), p.next)| < |Rest(Under(was, prefix), token)|
    ensures forall k :: k in Under(now, prefix) && k !in p.contents && PassedBy(p, Under(now, prefix), k)
                    ==> k !in Rest(Under(was, prefix), token)
  {
    var keys := Under(was, prefix);
    assert Under(now, prefix) <= keys;
    if p.truncated {
      NextRest(p, keys, token);
      assert p.contents[0] in Rest(keys, token) && p.contents[0] !in Rest(keys, p.next);
      assert Rest(Under(now, prefix), p.next) <= Rest(keys, p.next);
      SubsetSize(Rest(Under(now, prefix), p.next), Rest(keys, token) - {p.contents[0]});
    }
  }

  function Members(keys: seq<string>): set<string> {
    set k | k in keys
  }

  /** What becomes of a request: it is carried out and answered, refused, or carried out unanswered. */
  datatype Reply = Answered | Refused | Unanswered

  class S3Adapter {
    var bucket: map<string, Bytes>
    var requests: nat
    /** The delete requests sent so far. */
    var deletes: seq<seq<string>>
    const replies: nat -> Reply
    /** The server puts at most pageSize(n) + 1 keys into its answer to request n. */
    const pageSize: nat -> nat
    /** Keys that a delete request, carried out as a whole, does not delete; its answer names them, but the
        adapter does not look. */
    const spared: nat -> set<string>

    constructor (replies: nat -> Reply, pageSize: nat -> nat, spared: nat -> set<string>)
      ensures bucket == map[] && requests == 0 && deletes == []
      ensures this.replies == replies && this.pageSize == pageSize && this.spared == spared
    {
      bucket, requests, deletes := map[], 0, [];
      this.replies, this.pageSize, this.spared := replies, pageSize, spared;
    }

    /** Some request from number `first` to before number `next` spared the key. */
    ghost predicate Spared(k: string, first: nat, next: nat) {
      exists n: nat :: first <= n < next && k in spared(n)
    }

    // ----- the server -----

    method ListObjects(prefix: string, token: string) returns (p: Option<Page>)
      requires prefix != ""
      modifies this`requests
      ensures requests == old(requests) + 1
      ensures p.Some? <==> replies(old(requests)).Answered?
      ensures p.Some? ==> IsPage(p.value, Under(bucket, prefix), token)
    {
      hide IsSplit, IsPage;
      var reply, size := replies(requests), pageSize(requests) + 1;
      requests := requests + 1;
      if !reply.Answered? {
        return None;
      }
      var contents: seq<string> := [];
      var left := Rest(Under(bucket, prefix), token);
      ghost var keys := left;
      SplitNone(keys);
      while left != {} && |contents| < size
        invariant requests == old(requests) + 1
        invariant |contents| <= size && IsSplit(contents, left, keys)
        invariant left == {} || contents != [] || left == keys
        decreases |left|
      {
        var k := Least(left);
        SplitNext(contents, left, keys, k);
        contents := contents + [k];
        left := left - {k};
      }
      var next := if contents == [] then "" else contents[|contents| - 1];
      SplitLast(contents, left, keys);
      p := Some(Page(contents, left != {}, next));
      SplitIsPage(p.value, left, Under(bucket, prefix), token);
    }

    method Least(keys: set<string>) returns (least: string)
      requires keys != {}
      ensures least in keys && forall k :: k in keys && k != least ==> Less(least, k)
    {
      least :| least in keys;
      var left := keys - {least};
      while left != {}
        invariant left <= keys && least in keys
        invariant forall k :: k in keys && k !in left && k != least ==> Less(least, k)
        decreases |left|
      {
        var k :| k in left;
        LessTotal(k, least);
        if Less(k, least) {
          forall j | j in keys && j !in left && j != least ensures Less(k, j) { LessTransitive(k, least, j); }
          least := k;
        }
        left := left - {k};
      }
    }

    /** One POST ?delete= request. */
    method DeleteBatch(batch: seq<string>) returns (ok: bool)
      modifies this`requests, this`bucket, this`deletes
      ensures requests == old(requests) + 1 && deletes == old(deletes) + [batch]
      ensures ok <==> replies(old(requests)).Answered?
      ensures bucket == if replies(old(requests)).Refused? then old(bucket)
                        else old(bucket) - (Members(batch) - spared(old(requests)))
    {
      ok := replies(requests).Answered?;
      if !replies(requests).Refused? {
        bucket := bucket - (Members(batch) - spared(requests));
      }
      requests := requests + 1;
      deletes := deletes + [batch];
    }

    // ----- the adapter -----

    /** All or nothing: the whole body is read before one put, whose answer may be lost. */
    method UploadStream(name: string, body: Option<Bytes>) returns (ok: bool)
      modifies this`requests, this`bucket
      ensures ok ==> body.Some? && bucket == old(bucket)[name := body.value]
      ensures !ok ==> bucket == old(bucket) || (body.Some? && bucket == old(bucket)[name := body.value])
      ensures body.None? ==> !ok && requests == old(requests)
    {
      if body.None? {
        return false;
      }
      ok := replies(requests).Answered?;
      if !replies(requests).Refused? {
        bucket := bucket[name := body.value];
      }
      requests := requests + 1;
    }

    /** A 404 answer is a missing object, any other failure an error. */
    method CreateDownloadStream(name: string) returns (r: Opened)
      modifies this`requests
      ensures requests == old(requests) + 1
      ensures r == if !replies(old(requests)).Answered? then OpenFailed
                   else if name in bucket then Stream(bucket[name]) else Missing
    {
      if !replies(requests).Answered? {
        r := OpenFailed;
      } else if name in bucket {
        r := Stream(bucket[name]);
      } else {
        r := Missing;
      }
      requests := requests + 1;
    }

    /** Batches of at most 1000 keys that together name each key exactly once and in order. */
    method DeleteObjects(keys: seq<string>) returns (ok: bool)
      modifies this`requests, this`bucket, this`deletes
      ensures ok ==> forall k :: k in keys && k in bucket ==> Spared(k, old(requests), requests)
      ensures Removed(bucket, old(bucket), Members(keys)) && old(requests) <= requests
      ensures old(deletes) <= deletes && (ok ==> Flatten(deletes[|old(deletes)|..]) == keys)
      ensures forall i :: |old(deletes)| <= i < |deletes| ==> 0 < |deletes[i]| <= 1000
      ensures ok <==> forall n :: old(requests) <= n < requests ==> replies(n).Answered?
      ensures ok ==> requests == old(requests) + (|keys| + 999) / 1000
    {
      hide Flatten;
      var i := 0;
      ok := true;
      assert keys[..0] == [] && deletes[|old(deletes)|..] == [];
      FlattenNothing();
      while i < |keys|
        invariant 0 <= i < |keys| + 1000 && ok
        invariant i == 1000 * (requests - old(requests)) && old(requests) <= requests
        invariant Removed(bucket, old(bucket), Members(keys))
        invariant forall k :: k in keys[..Reached(i, keys)] && k in bucket ==> Spared(k, old(requests), requests)
        invariant old(deletes) <= deletes && Flatten(deletes[|old(deletes)|..]) == keys[..Reached(i, keys)]
        invariant forall j :: |old(deletes)| <= j < |deletes| ==> 0 < |deletes[j]| <= 1000
        invariant forall n :: old(requests) <= n < requests ==> replies(n).Answered?
      {
        var end := i + 1000;
        if end > |keys| {
          end := |keys|;
        }
        ghost var was, left := deletes[|old(deletes)|..], bucket;
        ok := DeleteBatch(keys[i..end]);
        FlattenMore(was, keys, i, end);
        assert deletes[|old(deletes)|..] == was + [keys[i..end]];
        if !ok {
          assert !replies(requests - 1).Answered?;
          return;
        }
        forall k | k in keys[..end] && k in bucket ensures Spared(k, old(requests), requests) {
          assert k in Members(keys[..i]) || k in Members(keys[i..end]);
          if k !in keys[..i] {
            assert k in spared(requests - 1);
          }
        }
        i := i + 1000;
      }
      assert keys[..|keys|] == keys;
    }

    /** Removes the keys under the prefix, all of them unless a request fails or spares some; nothing else.  It ends
        even if every key is spared, because the next page starts after the last key listed. */
    method DeleteByPrefix(prefix: string) returns (ok: bool)
      requires prefix != ""
      modifies this`requests, this`bucket, this`deletes
      ensures ok ==> forall k :: k in Under(bucket, prefix) ==> Spared(k, old(requests), requests)
      ensures ok && (forall n :: old(requests) <= n < requests ==> spared(n) == {})
             ==> bucket == Without(old(bucket), prefix)
      ensures Removed(bucket, old(bucket), Under(old(bucket), prefix)) && old(requests) <= requests
      ensures ok <==> forall n :: old(requests) <= n < requests ==> replies(n).Answered?
    {
      hide Rest, IsPage, Under, Without;
      var token := "";
      RestOfAll(Under(bucket, prefix));
      while true
        invariant old(requests) <= requests
        invariant Removed(bucket, old(bucket), Under(old(bucket), prefix))
        invariant forall k :: k in Under(bucket, prefix) && k !in Rest(Under(bucket, prefix), token)
                          ==> Spared(k, old(requests), requests)
        invariant forall n :: old(requests) <= n < requests ==> replies(n).Answered?
        decreases |Rest(Under(bucket, prefix), token)|
      {
        ghost var was := bucket;
        var lr := ListObjects(prefix, token);
        if lr.None? {
          return false;
        }
        PageWithin(lr.value, was, old(bucket), prefix, token);
        if lr.value.contents == [] {
          RemovedUnder(bucket, old(bucket), prefix);
          return true;
        }
        ghost var listed := requests;
        ok := DeleteObjects(lr.value.contents);
        RemovedTwice(bucket, was, old(bucket), Members(lr.value.contents), Under(old(bucket), prefix));
        if !ok {
          return false;
        }
        PageDeleted(lr.value, was, bucket, prefix, token);
        forall k | k in Under(bucket, prefix) && PassedBy(lr.value, Under(bucket, prefix), k)
          ensures Spared(k, old(requests), requests)
        {
          if k in lr.value.contents {
            assert Spared(k, listed, requests);
          } else {
            assert k in Under(was, prefix) && k !in Rest(Under(was, prefix), token);
            assert Spared(k, old(requests), listed - 1);
          }
        }
        if !lr.value.truncated {
          RemovedUnder(bucket, old(bucket), prefix);
          return true;
        }
        token := lr.value.next;
      }
    }

    method CountFilesUnder(prefix: string) returns (count: Option<nat>)
      requires prefix != ""
      modifies this`requests
      ensures count.Some? ==> count.value == |Under(bucket, prefix)|
      ensures count.Some? <==> forall n :: old(requests) <= n < requests ==> replies(n).Answered?
    {
      hide IsPage, Rest, Under;
      var n, token := 0, "";
      ghost var keys := Under(bucket, prefix);
      RestOfAll(keys);
      while true
        invariant old(requests) <= requests
        invariant n + |Rest(keys, token)| == |keys|
        invariant forall n :: old(requests) <= n < requests ==> replies(n).Answered?
        decreases |Rest(keys, token)|
      {
        var lr := ListObjects(prefix, token);
        if lr.None? {
          return None;
        }
        n := n + |lr.value.contents|;
        PageCounted(lr.value, keys, token);
        if !lr.value.truncated {
          return Some(n);
        }
        token := lr.value.next;
      }
    }

    // ----- what the service calls, on a bucket that holds a store -----

    /** Stores the object if it succeeds; may have stored it if not. */
    method PutObject(o: Object, body: Option<Bytes>) returns (ok: bool)
      modifies this`requests, this`bucket
      ensures ok ==> body.Some?
      ensures forall store :: Represents(old(bucket), store) ==>
        || (body.Some? && Represents(bucket, store[o := body.value]))
        || (!ok && Represents(bucket, store))
    {
      ok := UploadStream(Name(o), body);
      if body.Some? {
        forall store | Represents(old(bucket), store)
          ensures Represents(old(bucket)[Name(o) := body.value], store[o := body.value])
        {
          PutRepresents(old(bucket), store, o, body.value);
        }
      }
    }

    /** A missing object is told from a failed request. */
    method OpenObject(o: Object) returns (r: Opened)
      modifies this`requests
      ensures bucket == old(bucket)
      ensures r.OpenFailed? <==> !replies(old(requests)).Answered?
      ensures !r.OpenFailed? ==> forall store :: Represents(bucket, store) ==>
        r == if o in store then Stream(store[o]) else Missing
    {
      r := CreateDownloadStream(Name(o));
      forall store | Represents(bucket, store) ensures o in store <==> Name(o) in bucket {
        NamedIn(bucket, store, o);
      }
    }

    /** The folder's objects go and all others stay; a failed call may leave some of the folder's. */
    method DeleteFolder(folder: nat) returns (ok: bool)
      modifies this`requests, this`bucket, this`deletes
      ensures ok && (forall n :: old(requests) <= n < requests ==> spared(n) == {}) ==>
        forall store :: Represents(old(bucket), store) ==> Represents(bucket, DropFolder(store, folder, {}))
      ensures forall store :: Represents(old(bucket), store) ==>
        exists kept :: Represents(bucket, DropFolder(store, folder, kept))
    {
      ok := DeleteByPrefix(FolderPrefix(folder));
      forall store | Represents(old(bucket), store)
        ensures bucket == Without(old(bucket), FolderPrefix(folder))
               ==> Represents(bucket, DropFolder(store, folder, {}))
        ensures exists kept :: Represents(bucket, DropFolder(store, folder, kept))
      {
        DeleteRepresents(old(bucket), store, folder);
        FolderRemainder(bucket, old(bucket), store, folder);
      }
    }

    method DeleteParts(folder: nat) returns (ok: bool)
      modifies this`requests, this`bucket, this`deletes
      ensures ok && (forall n :: old(requests) <= n < requests ==> spared(n) == {}) ==>
        forall store :: Represents(old(bucket), store) ==> Represents(bucket, DropParts(store, folder, {}))
      ensures forall store :: Represents(old(bucket), store) ==>
        exists kept :: Represents(bucket, DropParts(store, folder, kept))
    {
      ok := DeleteByPrefix(PartsPrefix(folder));
      forall store | Represents(old(bucket), store)
        ensures bucket == Without(old(bucket), PartsPrefix(folder)) ==> Represents(bucket, DropParts(store, folder, {}))
        ensures exists kept :: Represents(bucket, DropParts(store, folder, kept))
      {
        DeleteRepresents(old(bucket), store, folder);
        PartsRemainder(bucket, old(bucket), store, folder);
      }
    }

    method CountParts(folder: nat) returns (count: Option<nat>)
      modifies this`requests
      ensures bucket == old(bucket)
      ensures count.Some? ==> forall store :: Represents(bucket, store) ==> count.value == |PartsOf(store, folder)|
    {
      count := CountFilesUnder(PartsPrefix(folder));
      forall store | Represents(bucket, store)
        ensures |Under(bucket, PartsPrefix(folder))| == |PartsOf(store, folder)|
      {
        CountRepresents(bucket, store, folder);
      }
    }
  }

  lemma NamedIn(bucket: map<string, Bytes>, store: map<Object, Bytes>, o: Object)
    requires Represents(bucket, store)
    ensures o in store <==> Name(o) in bucket
  {
    if Name(o) in bucket {
      var p :| p in store && Name(p) == Name(o);
      NameInjective(p, o);
    }
  }

  lemma {:induction false} DistinctSize(keys: seq<string>)
    requires Distinct(keys)
    ensures |Members(keys)| == |keys|
  {
    if keys != [] {
      var init := keys[..|keys| - 1];
      DistinctSize(init);
      assert keys == init + [keys[|keys| - 1]];
      assert Members(keys) == Members(init) + {keys[|keys| - 1]};
    }
  }

  /** The objects whose keys are still there. */
  function Remainder(bucket: map<string, Bytes>, store: map<Object, Bytes>): map<Object, Bytes> {
    map o | o in store && Name(o) in bucket :: store[o]
  }

  /** What a failed or unfinished delete leaves is still a store: the old one less some of the deleted objects. */
  lemma RemainderRepresents(
      after: map<string, Bytes>, before: map<string, Bytes>, store: map<Object, Bytes>, may: set<string>)
    requires Represents(before, store) && Removed(after, before, may)
    ensures Represents(after, Remainder(after, store))
    ensures forall o :: o in store && Name(o) !in may ==> o in Remainder(after, store)
  {
    hide Name;
    forall k | k in after ensures exists o :: o in Remainder(after, store) && Name(o) == k {
      assert k in before;
      var o :| o in store && Name(o) == k;
      assert o in Remainder(after, store);
    }
  }

  lemma SameStore(a: map<Object, Bytes>, b: map<Object, Bytes>)
    requires forall o :: (o in a <==> o in b) && (o in a ==> a[o] == b[o])
    ensures a == b
  {
  }

  lemma FolderRemainder(after: map<string, Bytes>, before: map<string, Bytes>, store: map<Object, Bytes>, folder: nat)
    requires Represents(before, store) && Removed(after, before, Under(before, FolderPrefix(folder)))
    ensures exists kept :: Represents(after, DropFolder(store, folder, kept))
  {
    RemainderRepresents(after, before, store, Under(before, FolderPrefix(folder)));
    hide Represents, Removed, Name, FolderPrefix;
    var kept := Remainder(after, store).Keys;
    forall o | o in store && o.folder != folder ensures o in kept {
      FolderPrefixExact(folder, o);
      assert Name(o) !in Under(before, FolderPrefix(folder));
    }
    SameStore(DropFolder(store, folder, kept), Remainder(after, store));
  }

  lemma PartsRemainder(after: map<string, Bytes>, before: map<string, Bytes>, store: map<Object, Bytes>, folder: nat)
    requires Represents(before, store) && Removed(after, before, Under(before, PartsPrefix(folder)))
    ensures exists kept :: Represents(after, DropParts(store, folder, kept))
  {
    RemainderRepresents(after, before, store, Under(before, PartsPrefix(folder)));
    hide Represents, Removed, Name, PartsPrefix;
    var kept := Remainder(after, store).Keys;
    forall o | o in store && (o.folder != folder || o.Merged?) ensures o in kept {
      PartsPrefixExact(folder, o);
      assert Name(o) !in Under(before, PartsPrefix(folder));
    }
    SameStore(DropParts(store, folder, kept), Remainder(after, store));
  }
}
