/** The in-memory object store, the paged scan for open requests and the prefix clean-up on top of it. */
module MemoryStore {
  import opened Common
  import opened Text
  import opened Listing

  datatype StoredObject = StoredObject(data: bytes, metadata: map<string, string>)

  // ---------------------------------------------------------------- sorting and searching keys

  lemma InsertSorted(s: seq<string>, i: nat, k: string)
    requires StrictlySorted(s) && i <= |s|
    requires forall j :: 0 <= j < i ==> Less(s[j], k)
    requires forall j :: i <= j < |s| ==> Less(k, s[j])
    ensures StrictlySorted(s[..i] + [k] + s[i..])
    ensures forall x :: x in s[..i] + [k] + s[i..] <==> x in s || x == k
  {
    var t := s[..i] + [k] + s[i..];
    forall x ensures x in t <==> x in s || x == k {
      assert s == s[..i] + s[i..];
    }
  }

  /** `sort.Strings`, on distinct keys. */
  method SortStrings(keys: seq<string>) returns (sorted: seq<string>)
    requires forall i, j :: 0 <= i < j < |keys| ==> keys[i] != keys[j]
    ensures StrictlySorted(sorted) && forall k :: k in sorted <==> k in keys
  {
    sorted := [];
    for n := 0 to |keys|
      invariant StrictlySorted(sorted)
      invariant forall k :: k in sorted <==> k in keys[..n]
    {
      var k := keys[n];
      var i := SearchStrings(sorted, k);
      assert keys[..n + 1] == keys[..n] + [k];
      forall j | i <= j < |sorted| ensures Less(k, sorted[j]) {
        assert sorted[j] in keys[..n];
        LessTotal(sorted[j], k);
      }
      InsertSorted(sorted, i, k);
      sorted := sorted[..i] + [k] + sorted[i..];
    }
    assert keys[..|keys|] == keys;
  }

  /** `sort.SearchStrings`: the first position whose key is not below `x`. */
  method SearchStrings(keys: seq<string>, x: string) returns (i: nat)
    requires StrictlySorted(keys)
    ensures i <= |keys|
    ensures forall j :: 0 <= j < i ==> Less(keys[j], x)
    ensures forall j :: i <= j < |keys| ==> !Less(keys[j], x)
  {
    i := 0;
    var hi := |keys|;
    while i < hi
      invariant 0 <= i <= hi <= |keys|
      invariant forall j :: 0 <= j < i ==> Less(keys[j], x)
      invariant forall j :: hi <= j < |keys| ==> !Less(keys[j], x)
    {
      var mid := (i + hi) / 2;
      if Less(keys[mid], x) {
        forall j | 0 <= j < mid ensures Less(keys[j], x) { LessTransitive(keys[j], keys[mid], x); }
        i := mid + 1;
      } else {
        forall j | mid < j < |keys| ensures !Less(keys[j], x) {
          if Less(keys[j], x) { LessTransitive(keys[mid], keys[j], x); }
        }
        hi := mid;
      }
    }
  }

  // ---------------------------------------------------------------- the store

  /** What a GET of the key finds. */
  function LookUp(objects: map<string, StoredObject>, key: string): Option<bytes> {
    if key in objects then Some(objects[key].data) else None
  }

  class Store {
    var objects: map<string, StoredObject>

    constructor ()
      ensures objects == map[]
    {
      objects := map[];
    }

    method PutObject(key: string, data: bytes, metadata: map<string, string>)
      modifies this
      ensures objects == old(objects)[key := StoredObject(data, metadata)]
    {
      objects := objects[key := StoredObject(data, metadata)];
    }

    method GetObject(key: string) returns (data: Option<bytes>)
      ensures data == LookUp(objects, key)
    {
      data := if key in objects then Some(objects[key].data) else None;
    }

    method DeleteObject(key: string)
      modifies this
      ensures objects == old(objects) - {key}
    {
      objects := objects - {key};
    }

    /** Matching keys in the map's own order, sorted, cut after the token and at the page size. */
    method ListPrefixPage(prefix: string, maxKeys: int, token: string) returns (page: ListPage)
      ensures page == PageOf(objects.Keys, prefix, maxKeys, token)
    {
      var keys: seq<string> := [];
      var left := objects.Keys;
      while left != {}
        invariant left <= objects.Keys
        invariant forall k :: k in keys <==> k in objects && k !in left && HasPrefix(k, prefix)
        invariant forall i, j :: 0 <= i < j < |keys| ==> keys[i] != keys[j]
        decreases |left|
      {
        var k :| k in left;
        left := left - {k};
        if HasPrefix(k, prefix) { keys := keys + [k]; }
      }
      keys := SortStrings(keys);
      ghost var all := keys;
      var start := 0;
      if token != "" {
        start := SearchStrings(keys, token);
        if start < |keys| && keys[start] == token { start := start + 1; }
      }
      if start > |keys| { start := |keys|; }
      keys := keys[start..];
      RestOfListing(all, start, objects.Keys, prefix, token);
      page := ListPage(keys, false, "");
      if maxKeys > 0 && |keys| > maxKeys {
        page := ListPage(keys[..maxKeys], true, keys[..maxKeys][maxKeys - 1]);
      }
    }
  }

  lemma RestOfListing(all: seq<string>, start: nat, keys: set<string>, prefix: string, token: string)
    requires StrictlySorted(all) && forall k :: k in all <==> k in keys && HasPrefix(k, prefix)
    requires start <= |all| && (token == "" ==> start == 0)
    requires token != "" ==> forall j :: 0 <= j < start ==> AtMost(all[j], token)
    requires token != "" ==> forall j :: start <= j < |all| ==> !AtMost(all[j], token)
    ensures all[start..] == Sorted(After(keys, prefix, token))
  {
    var rest := all[start..];
    forall k ensures k in rest <==> k in After(keys, prefix, token) {
      if k in rest {
        var i :| 0 <= i < |rest| && rest[i] == k;
        assert all[start + i] == k && k in all;
        LessTotal(k, token);
      }
      if k in After(keys, prefix, token) {
        var i :| 0 <= i < |all| && all[i] == k;
        if i < start { LessAsymmetric(k, token); LessIrreflexive(k); }
        assert rest[i - start] == k;
      }
    }
    ListingUnique(rest, Sorted(After(keys, prefix, token)), After(keys, prefix, token));
  }

  // ---------------------------------------------------------------- the scan for open requests

  datatype Edit = EditPut(key: string, data: bytes) | EditDelete(key: string)

  function Edited(objects: map<string, StoredObject>, edits: seq<Edit>): map<string, StoredObject> {
    if edits == [] then objects
    else
      var before := Edited(objects, edits[..|edits| - 1]);
      match edits[|edits| - 1]
      case EditPut(key, data) => before[key := StoredObject(data, map[])]
      case EditDelete(key) => before - {key}
  }

  /** After any PUTs and DELETEs a GET sees the latest one of its key: the data PUT, or nothing when it was a DELETE. */
  lemma {:induction false} GetSeesLatest(objects: map<string, StoredObject>, edits: seq<Edit>, key: string, i: nat)
    requires i < |edits| && edits[i].key == key && forall j :: i < j < |edits| ==> edits[j].key != key
    ensures LookUp(Edited(objects, edits), key) == if edits[i].EditPut? then Some(edits[i].data) else None
  {
    if i < |edits| - 1 { GetSeesLatest(objects, edits[..|edits| - 1], key, i); }
  }

  /** And without any of its key, what was there before. */
  lemma {:induction false} GetSeesUntouched(objects: map<string, StoredObject>, edits: seq<Edit>, key: string)
    requires forall j :: 0 <= j < |edits| ==> edits[j].key != key
    ensures LookUp(Edited(objects, edits), key) == LookUp(objects, key)
  {
    if edits != [] { GetSeesUntouched(objects, edits[..|edits| - 1], key); }
  }

  /** What others have made of the store by the time of the `n`-th LIST. */
  function ObjectsAt(objects: map<string, StoredObject>, batches: seq<seq<Edit>>, n: nat): map<string, StoredObject> {
    if n == 0 then objects
    else
      var before := ObjectsAt(objects, batches, n - 1);
      if n <= |batches| then Edited(before, batches[n - 1]) else before
  }

  method ApplyEdits(store: Store, edits: seq<Edit>)
    modifies store
    ensures store.objects == Edited(old(store.objects), edits)
  {
    for i := 0 to |edits|
      invariant store.objects == Edited(old(store.objects), edits[..i])
    {
      assert edits[..i + 1][..i] == edits[..i];
      match edits[i] {
        case EditPut(key, data) => store.PutObject(key, data, map[]);
        case EditDelete(key) => store.DeleteObject(key);
      }
    }
    assert edits[..|edits|] == edits;
  }

  lemma JoinSorted(a: seq<string>, b: seq<string>, token: string)
    requires StrictlySorted(a) && StrictlySorted(b)
    requires forall k :: k in a ==> AtMost(k, token)
    requires forall k :: k in b ==> token == "" || Less(token, k)
    requires token == "" ==> a == []
    ensures StrictlySorted(a + b)
  {
    forall i, j | 0 <= i < j < |a + b| ensures Less((a + b)[i], (a + b)[j]) {
      if i < |a| <= j {
        assert a[i] in a && b[j - |a|] in b;
        if a[i] != token { LessTransitive(a[i], token, b[j - |a|]); }
      }
    }
  }

  /** The key was there at one of the first `lists` requests. */
  ghost predicate SeenBy(k: string, objects: map<string, StoredObject>, batches: seq<seq<Edit>>, lists: nat) {
    exists i: nat :: i < lists && k in ObjectsAt(objects, batches, i)
  }

  /** The key was there at all of the first `lists` requests. */
  ghost predicate Throughout(k: string, objects: map<string, StoredObject>, batches: seq<seq<Edit>>, lists: nat) {
    forall i: nat :: i < lists ==> k in ObjectsAt(objects, batches, i)
  }

  /** The keys collected so far by a scan whose token is `token`. */
  ghost predicate Scanned(keys: seq<string>, token: string, objects: map<string, StoredObject>,
                          batches: seq<seq<Edit>>, prefix: string, lists: nat) {
    && StrictlySorted(keys)
    && (forall k :: k in keys ==> AtMost(k, token) && HasPrefix(k, prefix) && SeenBy(k, objects, batches, lists))
    && (token == "" ==> keys == [])
    && (token != "" ==>
          forall k :: HasPrefix(k, prefix) && AtMost(k, token) && Throughout(k, objects, batches, lists) ==> k in keys)
  }

  /** Sorted without repeats; each key was there at some request, and those there at all requests are in. */
  ghost predicate Complete(keys: seq<string>, objects: map<string, StoredObject>, batches: seq<seq<Edit>>,
                           prefix: string, lists: nat) {
    && StrictlySorted(keys)
    && (forall k :: k in keys ==> HasPrefix(k, prefix) && SeenBy(k, objects, batches, lists))
    && (forall k :: HasPrefix(k, prefix) && Throughout(k, objects, batches, lists) ==> k in keys)
  }

  /** The keys collected and what comes after the token make up the whole listing. */
  ghost predicate Rest(all: set<string>, prefix: string, keys: seq<string>, token: string) {
    Sorted(After(all, prefix, "")) == keys + Sorted(After(all, prefix, token))
  }

  lemma QuietPage(all: set<string>, prefix: string, pageSize: nat, keys: seq<string>, token: string)
    requires prefix != "" && pageSize > 0
    ensures var page := PageOf(all, prefix, pageSize, token);
            && (page.isTruncated <==> |After(all, prefix, token)| > pageSize)
            && (page.isTruncated ==>
                  page.next != "" && |After(all, prefix, page.next)| == |After(all, prefix, token)| - pageSize)
            && (page.isTruncated && Rest(all, prefix, keys, token) ==> Rest(all, prefix, keys + page.keys, page.next))
            && (!page.isTruncated && Rest(all, prefix, keys, token) ==>
                  Sorted(After(all, prefix, "")) == keys + page.keys)
  {
    var page := PageOf(all, prefix, pageSize, token);
    if page.isTruncated {
      PageSplits(all, prefix, pageSize, token);
      var after := Sorted(After(all, prefix, page.next));
      assert keys + (page.keys + after) == keys + page.keys + after;
    }
  }

  /** The LISTs it takes to see `n` keys. */
  function Pages(n: nat, pageSize: nat): nat
    requires pageSize > 0
  {
    if n <= pageSize then 1 else 1 + Pages(n - pageSize, pageSize)
  }

  /** One for every page that is full or begun, and at least one. */
  lemma {:induction false} PagesIs(n: nat, pageSize: nat)
    requires pageSize > 0
    ensures Pages(n, pageSize) == if n == 0 then 1 else (n + pageSize - 1) / pageSize
  {
    if n > pageSize {
      PagesIs(n - pageSize, pageSize);
      OneMoreTime(n - 1, pageSize);
    } else if n > 0 {
      Quotient(n + pageSize - 1, 1, pageSize, n - 1);
    }
  }

  /** A scan of an unchanging store: what it has and what is left make up the listing, and so do its LISTs. */
  ghost predicate Quiet(all: set<string>, prefix: string, pageSize: nat, keys: seq<string>, token: string, lists: nat)
    requires pageSize > 0
  {
    && Rest(all, prefix, keys, token)
    && lists + Pages(|After(all, prefix, token)|, pageSize) == Pages(|After(all, prefix, "")|, pageSize)
  }

  /** A scan in progress, and what is known if nobody else touches the store. */
  ghost predicate Scans(keys: seq<string>, token: string, objects: map<string, StoredObject>,
                        batches: seq<seq<Edit>>, prefix: string, pageSize: nat, lists: nat)
    requires pageSize > 0
  {
    && Scanned(keys, token, objects, batches, prefix, lists)
    && (batches == [] ==> Quiet(objects.Keys, prefix, pageSize, keys, token, lists))
  }

  /** A scan that is over. */
  ghost predicate ScanDone(keys: seq<string>, objects: map<string, StoredObject>, batches: seq<seq<Edit>>,
                           prefix: string, pageSize: nat, lists: nat)
    requires pageSize > 0
  {
    && Complete(keys, objects, batches, prefix, lists)
    && (batches == [] ==> keys == Sorted(After(objects.Keys, prefix, "")) && lists == Pages(|keys|, pageSize))
  }

  lemma {:induction false} Undisturbed(objects: map<string, StoredObject>, n: nat)
    ensures ObjectsAt(objects, [], n) == objects
  {
    if n > 0 { Undisturbed(objects, n - 1); }
  }

  /** One LIST of the scan; `more` says that another one has to follow. */
  method ScanPage(store: Store, prefix: string, pageSize: nat, keys0: seq<string>, token0: string,
                  ghost first: map<string, StoredObject>, ghost batches: seq<seq<Edit>>, ghost lists: nat)
      returns (keys: seq<string>, token: string, more: bool)
    requires prefix != "" && pageSize > 0 && Scans(keys0, token0, first, batches, prefix, pageSize, lists)
    requires store.objects == ObjectsAt(first, batches, lists)
    ensures if more then Scans(keys, token, first, batches, prefix, pageSize, lists + 1)
            else ScanDone(keys, first, batches, prefix, pageSize, lists + 1)
    ensures more ==> |After(store.objects.Keys, prefix, token)| < |After(store.objects.Keys, prefix, token0)|
  {
    var page := store.ListPrefixPage(prefix, pageSize, token0);
    PageExtendsScan(keys0, token0, first, batches, prefix, lists, pageSize);
    QuietPage(store.objects.Keys, prefix, pageSize, keys0, token0);
    if batches == [] { Undisturbed(first, lists); }
    keys, token, more := keys0 + page.keys, page.next, page.isTruncated && page.next != "";
  }

  /**
   `listOpenKeys`, while others put and delete objects between its LIST requests: no key repeats, every
   key listed was there at one of the requests, and every matching key there at all of them is listed.
   */
  method ListOpenKeys(store: Store, prefix: string, pageSize: nat, batches: seq<seq<Edit>>)
      returns (keys: seq<string>, lists: nat)
    requires prefix != "" && pageSize > 0
    modifies store
    ensures lists > 0 && ScanDone(keys, old(store.objects), batches, prefix, pageSize, lists)
    ensures store.objects == ObjectsAt(old(store.objects), batches, lists - 1)
  {
    ghost var first := store.objects;
    keys, lists := [], 0;
    var token := "";
    while true
      invariant Scans(keys, token, first, batches, prefix, pageSize, lists)
      invariant store.objects == ObjectsAt(first, batches, lists)
      decreases if lists < |batches| then |batches| - lists else 0, |After(store.objects.Keys, prefix, token)|
    {
      var more;
      keys, token, more := ScanPage(store, prefix, pageSize, keys, token, first, batches, lists);
      lists := lists + 1;
      if !more { return; }
      if lists <= |batches| { ApplyEdits(store, batches[lists - 1]); }
    }
  }

  lemma PageFacts(keys: set<string>, prefix: string, pageSize: nat, token: string)
    requires prefix != "" && pageSize > 0
    ensures var page := PageOf(keys, prefix, pageSize, token);
            && StrictlySorted(page.keys)
            && (forall k :: k in page.keys ==> k in After(keys, prefix, token))
            && (page.isTruncated ==> page.next in page.keys && forall k :: k in page.keys ==> AtMost(k, page.next))
            && (forall k :: k in After(keys, prefix, token) && (page.isTruncated ==> AtMost(k, page.next)) ==>
                  k in page.keys)
  {
    var all := Sorted(After(keys, prefix, token));
    var page := PageOf(keys, prefix, pageSize, token);
    if page.isTruncated {
      PageSplits(keys, prefix, pageSize, token);
      forall k | k in page.keys ensures AtMost(k, page.next) {
        var i :| 0 <= i < pageSize && page.keys[i] == k;
      }
      forall k | k in After(keys, prefix, token) && AtMost(k, page.next) ensures k in page.keys {
        assert k in all;
        LessAsymmetric(k, page.next);
        LessIrreflexive(k);
        assert k !in Sorted(After(keys, prefix, page.next));
      }
    }
  }

  /** One more page keeps the scan's promise; the last page completes it. */
  lemma PageExtendsScan(keys: seq<string>, token: string, objects: map<string, StoredObject>, batches: seq<seq<Edit>>,
                        prefix: string, lists: nat, pageSize: nat)
    requires prefix != "" && pageSize > 0 && Scanned(keys, token, objects, batches, prefix, lists)
    ensures var page := PageOf(ObjectsAt(objects, batches, lists).Keys, prefix, pageSize, token);
            var more := keys + page.keys;
            if page.isTruncated then Scanned(more, page.next, objects, batches, prefix, lists + 1)
            else Complete(more, objects, batches, prefix, lists + 1)
  {
    var now := ObjectsAt(objects, batches, lists);
    var page := PageOf(now.Keys, prefix, pageSize, token);
    PageFacts(now.Keys, prefix, pageSize, token);
    JoinSorted(keys, page.keys, token);
    forall k | k in keys || k in page.keys ensures SeenBy(k, objects, batches, lists + 1) {
      if k in keys {
        var i: nat :| i < lists && k in ObjectsAt(objects, batches, i);
        assert i < lists + 1;
      }
    }
    forall k | k in keys && page.isTruncated ensures AtMost(k, page.next) {
      if k != token { LessTransitive(k, token, page.next); }
    }
    forall k
      | HasPrefix(k, prefix) && Throughout(k, objects, batches, lists + 1)
        && (page.isTruncated ==> AtMost(k, page.next))
      ensures k in keys + page.keys
    {
      assert k in now;
      assert Throughout(k, objects, batches, lists);
      LessTotal(k, token);
    }
  }

  // ---------------------------------------------------------------- deleting a prefix

  ghost function Matching(objects: map<string, StoredObject>, prefix: string): set<string> {
    set k | k in objects && HasPrefix(k, prefix)
  }

  function SetOf(keys: seq<string>): set<string> { set k | k in keys }

  lemma {:induction false} SortedCount(s: seq<string>)
    requires StrictlySorted(s)
    ensures |SetOf(s)| == |s|
  {
    if s != [] {
      var n := |s| - 1;
      SortedCount(s[..n]);
      assert SetOf(s) == SetOf(s[..n]) + {s[n]};
      LessIrreflexive(s[n]);
    }
  }

  /** Deletes the keys of one page, one request each, until the requests run out. */
  method DeletePage(store: Store, keys: seq<string>, budget: nat) returns (deleted: nat)
    modifies store
    ensures deleted == Min(budget, |keys|)
    ensures store.objects == old(store.objects) - SetOf(keys[..deleted])
  {
    deleted := 0;
    while deleted < |keys| && deleted < budget
      invariant deleted <= Min(budget, |keys|)
      invariant store.objects == old(store.objects) - SetOf(keys[..deleted])
    {
      store.DeleteObject(keys[deleted]);
      assert keys[..deleted + 1] == keys[..deleted] + [keys[deleted]];
      assert SetOf(keys[..deleted + 1]) == SetOf(keys[..deleted]) + {keys[deleted]};
      deleted := deleted + 1;
    }
  }

  lemma SetGrows<T>(all: set<T>, gone: set<T>, now: set<T>)
    requires gone <= all && now <= all - gone
    ensures |gone + now| == |gone| + |now| && |all - (gone + now)| == |all - gone| - |now|
  {
    assert all - (gone + now) == (all - gone) - now;
    assert |(all - gone) - now| == |all - gone| - |now|;
  }

  /** Deleting the first `n` keys of the page removes `n` matching keys that were still there. */
  lemma PageRemoves(all: set<string>, gone: set<string>, objects: map<string, StoredObject>, prefix: string,
                    pageSize: nat, n: nat)
    requires pageSize > 0 && gone <= all && After(objects.Keys, prefix, "") == all - gone
    requires n <= |PageOf(objects.Keys, prefix, pageSize, "").keys|
    ensures var now := SetOf(PageOf(objects.Keys, prefix, pageSize, "").keys[..n]);
            now <= all - gone && |gone + now| == |gone| + n && |all - (gone + now)| == |all - gone| - n
  {
    var keys := PageOf(objects.Keys, prefix, pageSize, "").keys;
    var all' := Sorted(all - gone);
    assert forall i :: 0 <= i < |keys| ==> keys[i] == all'[i];
    SortedCount(keys[..n]);
    var now := SetOf(keys[..n]);
    forall k | k in now ensures k in all - gone { assert k in all'; }
    SetGrows(all, gone, now);
  }

  lemma WhatIsLeft(before: map<string, StoredObject>, prefix: string, gone: set<string>, now: map<string, StoredObject>)
    requires Cleaned(before, prefix, gone, now)
    ensures After(now.Keys, prefix, "") == Matching(before, prefix) - gone
  {
  }

  lemma MoreGone(before: map<string, StoredObject>, gone: set<string>, more: set<string>)
    ensures before - gone - more == before - (gone + more)
  {
  }

  /** What a clean-up that has removed `gone` has done to the store. */
  ghost predicate Cleaned(before: map<string, StoredObject>, prefix: string, gone: set<string>,
                          now: map<string, StoredObject>) {
    gone <= Matching(before, prefix) && now == before - gone
  }

  /** The requests it takes to delete `n` keys, page by page, until a LIST finds nothing. */
  function Requests(n: nat, pageSize: nat): nat
    requires pageSize > 0
  {
    if n == 0 then 1
    else if n <= pageSize then 1 + n + Requests(0, pageSize)
    else 1 + pageSize + Requests(n - pageSize, pageSize)
  }

  /** A DELETE for each key, a LIST for each page that is full or begun, and one LIST more. */
  lemma {:induction false} RequestsAre(n: nat, pageSize: nat)
    requires pageSize > 0
    ensures Requests(n, pageSize) == n + 1 + (n + pageSize - 1) / pageSize
  {
    if n == 0 {
      Quotient(pageSize - 1, 0, pageSize, pageSize - 1);
    } else if n <= pageSize {
      Quotient(n + pageSize - 1, 1, pageSize, n - 1);
    } else {
      RequestsAre(n - pageSize, pageSize);
      OneMoreTime(n - 1, pageSize);
    }
  }

  lemma NothingLeft<T>(all: set<T>, gone: set<T>)
    requires gone <= all && |all - gone| == 0
    ensures gone == all
  {
    assert all - gone == {};
  }

  /** One LIST and the DELETEs of its page, as far as the requests last; `full` when they did. */
  method CleanPage(store: Store, prefix: string, pageSize: nat, left: nat, ghost before: map<string, StoredObject>,
                   ghost gone0: set<string>)
      returns (n: nat, full: bool, ghost gone: set<string>)
    requires pageSize > 0 && left > 0 && Cleaned(before, prefix, gone0, store.objects)
    modifies store
    ensures Cleaned(before, prefix, gone, store.objects) && |gone| == |gone0| + n
    ensures var m := |Matching(before, prefix) - gone0|;
            && |Matching(before, prefix) - gone| == m - n && n == Min(Min(m, pageSize), left - 1)
            && (full <==> n == Min(m, pageSize))
  {
    ghost var all := Matching(before, prefix);
    ghost var was := store.objects;
    WhatIsLeft(before, prefix, gone0, was);
    var page := store.ListPrefixPage(prefix, pageSize, "");
    PageSize(was.Keys, prefix, pageSize, "");
    n := DeletePage(store, page.keys, left - 1);
    PageRemoves(all, gone0, was, prefix, pageSize, n);
    ghost var now := SetOf(page.keys[..n]);
    MoreGone(before, gone0, now);
    gone, full := gone0 + now, n == |page.keys|;
  }

  /**
   `DeletePrefix`.  The context is cancelled after `budget` store requests, and that shows exactly when more are
   needed.  Without an error no key under the prefix is left and the count is that of the matching keys at the
   start; with one, the count is that of the keys removed.  Other objects are never touched.
   */
  method DeletePrefix(store: Store, prefix: string, pageSize: nat, budget: nat)
      returns (deleted: nat, cancelled: bool, ghost gone: set<string>)
    requires pageSize > 0
    modifies store
    ensures Cleaned(old(store.objects), prefix, gone, store.objects) && deleted == |gone|
    ensures !cancelled ==> gone == Matching(old(store.objects), prefix)
    ensures cancelled <==> budget < Requests(|Matching(old(store.objects), prefix)|, pageSize)
  {
    ghost var before := store.objects;
    ghost var all := Matching(before, prefix);
    gone := {};
    var left: nat := budget;
    deleted := 0;
    assert all - gone == all;
    while left > 0
      invariant Cleaned(before, prefix, gone, store.objects) && deleted == |gone|
      invariant budget - left + Requests(|all - gone|, pageSize) == Requests(|all|, pageSize)
      decreases |all - gone|
    {
      ghost var m := |all - gone|;
      var n, full;
      n, full, gone := CleanPage(store, prefix, pageSize, left, before, gone);
      left, deleted := left - 1 - n, deleted + n;
      if full && n == 0 {
        NothingLeft(all, gone);
        return deleted, false, gone;
      }
      if !full { return deleted, true, gone; }
    }
    return deleted, true, gone;
  }
}
