/** Listing objects by name prefix, page by page (src/metadata/metadata_store.cpp,
    list_objects). */
module Listing {
  import opened Bytes
  import opened Types
  import opened Sorting
  import opened MetadataStore

  predicate ByName(a: ObjectInfo, b: ObjectInfo) {
    LessEq(a.filename, b.filename)
  }

  lemma ByNameIsTotalPreorder()
    ensures TotalPreorder(ByName)
  {
    forall a: ObjectInfo, b: ObjectInfo ensures ByName(a, b) || ByName(b, a) {
      LessEqTotal(a.filename, b.filename);
    }
    forall a: ObjectInfo, b: ObjectInfo, c: ObjectInfo | ByName(a, b) && ByName(b, c)
      ensures ByName(a, c)
    {
      LessEqTransitive(a.filename, b.filename, c.filename);
    }
  }

  predicate Matches(obj: ObjectInfo, prefix: Bytes) {
    prefix <= obj.filename
  }

  /** Strictly increasing file names, and exactly the matching objects. */
  ghost predicate IsListing(s: seq<ObjectInfo>, m: Meta, prefix: Bytes) {
    && (forall i, j :: 0 <= i < j < |s| ==>
          LessEq(s[i].filename, s[j].filename) && s[i].filename != s[j].filename)
    && (forall obj :: obj in s <==>
          obj.objectId in m.objects && m.objects[obj.objectId] == obj && prefix <= obj.filename)
  }

  /** There is only one listing, whatever order the hash map is iterated in. */
  lemma {:induction false} ListingUnique(s: seq<ObjectInfo>, t: seq<ObjectInfo>)
    requires forall i, j :: 0 <= i < j < |s| ==>
               LessEq(s[i].filename, s[j].filename) && s[i].filename != s[j].filename
    requires forall i, j :: 0 <= i < j < |t| ==>
               LessEq(t[i].filename, t[j].filename) && t[i].filename != t[j].filename
    requires forall obj :: obj in s <==> obj in t
    ensures s == t
  {
    assert s == [] <==> t == [] by {
      assert |s| > 0 ==> s[0] in t;
      assert |t| > 0 ==> t[0] in s;
    }
    if s != [] {
      assert s[0] in t && t[0] in s;
      var i :| 0 <= i < |t| && t[i] == s[0];
      var j :| 0 <= j < |s| && s[j] == t[0];
      LessEqTotal(s[0].filename, t[0].filename);
      assert s[0] == t[0];
      var s', t' := s[1..], t[1..];
      forall obj ensures obj in s' <==> obj in t' {
        assert obj in s' ==> obj in s && obj != s[0];
        assert obj in t' ==> obj in t && obj != t[0];
      }
      ListingUnique(s', t');
    }
  }

  function Page<T>(s: seq<T>, offset: nat, limit: nat): seq<T> {
    if offset >= |s| then []
    else if offset + limit <= |s| then s[offset..offset + limit]
    else s[offset..]
  }

  /** The pages at `from`, `from + limit`, `from + 2 * limit`, ... until the list ends. */
  function Pages<T>(s: seq<T>, limit: nat, from: nat): seq<T>
    requires limit > 0
    decreases if from < |s| then |s| - from else 0
  {
    if from >= |s| then [] else Page(s, from, limit) + Pages(s, limit, from + limit)
  }

  /** Paging tiles: the pages put together are the whole list, for every positive limit. */
  lemma {:induction false} PagesTile<T>(s: seq<T>, limit: nat, from: nat)
    requires limit > 0 && from <= |s|
    ensures Pages(s, limit, from) == s[from..]
    decreases |s| - from
  {
    if from + limit <= |s| && from < |s| {
      PagesTile(s, limit, from + limit);
      assert s[from..] == s[from..from + limit] + s[from + limit..];
    }
  }

  /** `list_objects`. `order` is the iteration order of the object table. */
  method ListObjects(m: Meta, order: seq<Bytes>, prefix: Bytes, limit: nat, offset: nat)
    returns (page: seq<ObjectInfo>)
    requires Tables(m)
    requires forall k :: k in order <==> k in m.objects
    requires forall i, j :: 0 <= i < j < |order| ==> order[i] != order[j]
    ensures exists all :: IsListing(all, m, prefix) && page == Page(all, offset, limit)
  {
    var found: seq<ObjectInfo> := [];
    for i := 0 to |order|
      invariant forall obj :: obj in found <==>
                  obj.objectId in order[..i] && m.objects[obj.objectId] == obj && Matches(obj, prefix)
      invariant forall a, b :: 0 <= a < b < |found| ==> found[a].filename != found[b].filename
    {
      var obj := m.objects[order[i]];
      assert order[..i + 1] == order[..i] + [order[i]];
      assert forall a :: 0 <= a < |found| ==> found[a] in found;
      if Matches(obj, prefix) {
        found := found + [obj];
      }
    }
    assert order[..|order|] == order;
    ByNameIsTotalPreorder();
    var result := InsertionSort(found, ByName);
    SortedIsStrict(result, found);
    assert IsListing(result, m, prefix);
    if offset >= |result| {
      return [];
    }
    var end := if offset + limit < |result| then offset + limit else |result|;
    page := result[offset..end];
  }

  lemma SortedIsStrict(s: seq<ObjectInfo>, t: seq<ObjectInfo>)
    requires SortedBy(s, ByName) && multiset(s) == multiset(t)
    requires forall a, b :: 0 <= a < b < |t| ==> t[a].filename != t[b].filename
    ensures forall obj :: obj in s <==> obj in t
    ensures forall i, j :: 0 <= i < j < |s| ==>
              LessEq(s[i].filename, s[j].filename) && s[i].filename != s[j].filename
  {
    DistinctPermutation(s, t);
    forall i, j | 0 <= i < j < |s|
      ensures LessEq(s[i].filename, s[j].filename) && s[i].filename != s[j].filename
    {
      assert ByName(s[i], s[j]);
      assert s[i] in t && s[j] in t;
    }
  }

  /** For a fixed store, two calls cut their pages from the same list, so successive pages of any
      positive size give every matching object exactly once, in increasing name order. */
  lemma PagingCoversListing(m: Meta, prefix: Bytes, all: seq<ObjectInfo>, other: seq<ObjectInfo>,
                            limit: nat)
    requires IsListing(all, m, prefix) && IsListing(other, m, prefix) && limit > 0
    ensures all == other
    ensures Pages(all, limit, 0) == all
  {
    ListingUnique(all, other);
    PagesTile(all, limit, 0);
  }

  /** An iteration order of the object table. */
  ghost predicate IsOrder(m: Meta, order: seq<Bytes>) {
    && (forall k :: k in order <==> k in m.objects)
    && (forall i, j :: 0 <= i < j < |order| ==> order[i] != order[j])
  }

  /** Calls of `list_objects` at 0, L, 2L, ... until a page is empty, each with its own iteration
      order of the table, put together: every matching object exactly once, in increasing name
      order. */
  method PageThrough(m: Meta, orders: nat -> seq<Bytes>, prefix: Bytes, limit: nat)
    returns (all: seq<ObjectInfo>)
    requires Tables(m) && limit > 0 && forall i :: IsOrder(m, orders(i))
    ensures IsListing(all, m, prefix)
  {
    hide Tables, Page;
    all := [];
    var offset := 0;
    assert IsOrder(m, orders(0));
    var page := ListObjects(m, orders(0), prefix, limit, 0);
    ghost var list :| IsListing(list, m, prefix) && page == Page(list, 0, limit);
    hide IsListing, IsOrder;
    while page != []
      invariant page == Page(list, offset, limit)
      invariant all == UpTo(list, offset)
      decreases if offset <= |list| then |list| - offset else 0
    {
      PageContinues(list, offset, limit);
      all := all + page;
      offset := offset + limit;
      page := NextPage(m, orders(offset), prefix, limit, offset, list);
    }
    PageEnds(list, offset, limit);
  }

  method NextPage(m: Meta, order: seq<Bytes>, prefix: Bytes, limit: nat, offset: nat,
                  ghost list: seq<ObjectInfo>)
    returns (page: seq<ObjectInfo>)
    requires Tables(m) && limit > 0 && IsOrder(m, order) && IsListing(list, m, prefix)
    ensures page == Page(list, offset, limit)
  {
    page := ListObjects(m, order, prefix, limit, offset);
    ghost var again :| IsListing(again, m, prefix) && page == Page(again, offset, limit);
    PagingCoversListing(m, prefix, list, again, limit);
  }

  function UpTo<T>(s: seq<T>, n: nat): seq<T> {
    if n <= |s| then s[..n] else s
  }

  lemma PageContinues<T>(s: seq<T>, offset: nat, limit: nat)
    requires Page(s, offset, limit) != []
    ensures offset < |s| && UpTo(s, offset) + Page(s, offset, limit) == UpTo(s, offset + limit)
  {
  }

  lemma PageEnds<T>(s: seq<T>, offset: nat, limit: nat)
    requires limit > 0 && Page(s, offset, limit) == []
    ensures UpTo(s, offset) == s
  {
  }
}
