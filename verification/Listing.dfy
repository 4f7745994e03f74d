/** Sorted listings of key sets, and the pages that the Go and the Kotlin memory store cut from them. */
module Listing {
  import opened Text

  ghost predicate StrictlySorted(s: seq<string>) {
    forall i, j :: 0 <= i < j < |s| ==> Less(s[i], s[j])
  }

  ghost predicate Lists(s: seq<string>, keys: set<string>) {
    StrictlySorted(s) && forall k :: k in s <==> k in keys
  }

  lemma {:induction false} MinimumExists(keys: set<string>) returns (m: string)
    requires keys != {}
    ensures m in keys && forall k :: k in keys && k != m ==> Less(m, k)
  {
    var x :| x in keys;
    var rest := keys - {x};
    assert forall k :: k in keys && k != x ==> k in rest;
    if rest == {} {
      m := x;
    } else {
      var y := MinimumExists(rest);
      LessTotal(x, y);
      if Less(x, y) {
        m := x;
        forall k | k in keys && k != m ensures Less(m, k) {
          if k != y { LessTransitive(x, y, k); }
        }
      } else {
        m := y;
      }
    }
  }

  lemma {:induction false} ListingExists(keys: set<string>) returns (s: seq<string>)
    ensures Lists(s, keys) && |s| == |keys|
  {
    if keys == {} {
      s := [];
    } else {
      var m := MinimumExists(keys);
      var rest := ListingExists(keys - {m});
      s := [m] + rest;
      forall i, j | 0 <= i < j < |s| ensures Less(s[i], s[j]) {
        if i == 0 { assert rest[j - 1] in rest; }
      }
    }
  }

  lemma EmptyListing(s: seq<string>, keys: set<string>)
    requires Lists(s, keys)
    ensures s == [] <==> keys == {}
  {
    if s != [] { assert s[0] in s; }
  }

  /** A key set has one sorted listing. */
  lemma {:induction false} ListingUnique(s: seq<string>, t: seq<string>, keys: set<string>)
    requires Lists(s, keys) && Lists(t, keys)
    ensures s == t
    decreases |s|
  {
    EmptyListing(s, keys);
    EmptyListing(t, keys);
    if s != [] {
      assert s[0] in s && t[0] in t;
      FirstIsLeast(s, t[0]);
      FirstIsLeast(t, s[0]);
      LessAsymmetric(s[0], t[0]);
      TailLists(s, keys);
      TailLists(t, keys);
      ListingUnique(s[1..], t[1..], keys - {s[0]});
    }
  }

  lemma FirstIsLeast(s: seq<string>, k: string)
    requires StrictlySorted(s) && k in s
    ensures k == s[0] || Less(s[0], k)
  {
    var i :| 0 <= i < |s| && s[i] == k;
  }

  lemma TailLists(s: seq<string>, keys: set<string>)
    requires Lists(s, keys) && s != []
    ensures Lists(s[1..], keys - {s[0]})
  {
    forall k ensures k in s[1..] <==> k in keys - {s[0]} {
      if k in s[1..] {
        var i :| 0 <= i < |s[1..]| && s[1..][i] == k;
        assert s[i + 1] == k && k in s;
        if k == s[0] { LessIrreflexive(k); }
      }
      if k in keys - {s[0]} {
        var i :| 0 <= i < |s| && s[i] == k;
        assert s[1..][i - 1] == k;
      }
    }
  }

  /** The sorted listing of a key set. */
  ghost function Sorted(keys: set<string>): (s: seq<string>)
    ensures Lists(s, keys) && |s| == |keys|
  {
    assert exists s: seq<string> :: Lists(s, keys) && |s| == |keys| by {
      var s := ListingExists(keys);
    }
    var s: seq<string> :| Lists(s, keys) && |s| == |keys|;
    s
  }

  /** The keys with a prefix that come after a continuation token. */
  ghost function After(keys: set<string>, prefix: string, token: string): set<string> {
    set k | k in keys && HasPrefix(k, prefix) && (token == "" || Less(token, k))
  }

  datatype ListPage = ListPage(keys: seq<string>, isTruncated: bool, next: string)

  /** The first `maxKeys` keys of a listing, or all of them when there is no limit. */
  function Cut(all: seq<string>, maxKeys: int): ListPage {
    if 0 < maxKeys < |all| then ListPage(all[..maxKeys], true, all[maxKeys - 1]) else ListPage(all, false, "")
  }

  /** The page a store holding `keys` should return. */
  ghost function PageOf(keys: set<string>, prefix: string, maxKeys: int, token: string): ListPage {
    Cut(Sorted(After(keys, prefix, token)), maxKeys)
  }

  // ---------------------------------------------------------------- the Kotlin pipeline

  function Filter(s: seq<string>, prefix: string): seq<string> {
    if s == [] then []
    else (if HasPrefix(s[0], prefix) then [s[0]] else []) + Filter(s[1..], prefix)
  }

  function DropThrough(s: seq<string>, token: string): seq<string> {
    if s != [] && token != "" && AtMost(s[0], token) then DropThrough(s[1..], token) else s
  }

  /** `listPrefixPage` over the ascending keys of the tree map. */
  function KotlinPage(ascending: seq<string>, prefix: string, maxKeys: int, token: string): ListPage {
    var keys := DropThrough(Filter(ascending, prefix), token);
    if maxKeys > 0 && |keys| > maxKeys then
      var page := keys[..maxKeys];
      ListPage(page, true, page[|page| - 1])
    else ListPage(keys, false, "")
  }

  lemma {:induction false} FilterLists(s: seq<string>, prefix: string)
    requires StrictlySorted(s)
    ensures StrictlySorted(Filter(s, prefix))
    ensures forall k :: k in Filter(s, prefix) <==> k in s && HasPrefix(k, prefix)
  {
    if s != [] {
      FilterLists(s[1..], prefix);
      var f := Filter(s[1..], prefix);
      forall k | k in f ensures Less(s[0], k) {
        var i :| 0 <= i < |s[1..]| && s[1..][i] == k;
        assert s[i + 1] == k;
      }
      assert s == [s[0]] + s[1..];
    }
  }

  lemma {:induction false} DropLists(s: seq<string>, token: string)
    requires StrictlySorted(s)
    ensures StrictlySorted(DropThrough(s, token))
    ensures forall k :: k in DropThrough(s, token) <==> k in s && (token == "" || Less(token, k))
  {
    if s != [] && token != "" {
      if AtMost(s[0], token) {
        DropLists(s[1..], token);
        assert s == [s[0]] + s[1..];
        LessAsymmetric(s[0], token);
      } else {
        LessTotal(s[0], token);
        forall k | k in s ensures Less(token, k) {
          FirstIsLeast(s, k);
          if k != s[0] { LessTransitive(token, s[0], k); }
        }
      }
    }
  }

  /** The Kotlin store returns the same pages as the Go store. */
  lemma KotlinPageAgrees(keys: set<string>, ascending: seq<string>, prefix: string, maxKeys: int, token: string)
    requires Lists(ascending, keys)
    ensures KotlinPage(ascending, prefix, maxKeys, token) == PageOf(keys, prefix, maxKeys, token)
  {
    FilterLists(ascending, prefix);
    DropLists(Filter(ascending, prefix), token);
    var after := After(keys, prefix, token);
    ListingUnique(DropThrough(Filter(ascending, prefix), token), Sorted(after), after);
  }

  /** Taking a page splits the listing: the page, then what comes after its continuation token. */
  lemma PageSplits(keys: set<string>, prefix: string, maxKeys: int, token: string)
    requires prefix != "" && PageOf(keys, prefix, maxKeys, token).isTruncated
    ensures var page := PageOf(keys, prefix, maxKeys, token);
            && page.next != "" && |page.keys| == maxKeys && page.keys[maxKeys - 1] == page.next
            && Sorted(After(keys, prefix, token)) == page.keys + Sorted(After(keys, prefix, page.next))
            && |After(keys, prefix, page.next)| == |After(keys, prefix, token)| - maxKeys
  {
    var all := Sorted(After(keys, prefix, token));
    var next := all[maxKeys - 1];
    assert next in all && HasPrefix(next, prefix);
    var rest := all[maxKeys..];
    forall k ensures k in rest <==> k in After(keys, prefix, next) {
      if k in rest {
        var i :| 0 <= i < |rest| && rest[i] == k;
        assert all[maxKeys + i] == k && k in all;
      }
      if k in After(keys, prefix, next) {
        if token != "" { LessTransitive(token, next, k); }
        assert k in all;
        var i :| 0 <= i < |all| && all[i] == k;
        LessAsymmetric(next, k);
        assert rest[i - maxKeys] == k;
      }
    }
    ListingUnique(rest, Sorted(After(keys, prefix, next)), After(keys, prefix, next));
    assert all == all[..maxKeys] + rest;
  }

  /** A page is the start of the listing: all of it, or as much as the limit allows and then marked as cut. */
  lemma PageSize(keys: set<string>, prefix: string, maxKeys: int, token: string)
    ensures var page, all := PageOf(keys, prefix, maxKeys, token), After(keys, prefix, token);
            && page.keys <= Sorted(all)
            && |page.keys| == (if maxKeys > 0 && maxKeys < |all| then maxKeys else |all|)
            && (page.isTruncated <==> |page.keys| < |all|)
            && (maxKeys > 0 ==> |page.keys| <= maxKeys)
            && (page.isTruncated ==> page.keys != [] && page.next == page.keys[|page.keys| - 1])
  {
  }
}
