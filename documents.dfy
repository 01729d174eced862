/**
 * The document store as the data-access layer sees it: a collection is a
 * map from document id to record, a query snapshot is a sequence of
 * documents, and a query is built from listing, equality filtering,
 * ordering, a start-after cursor and a limit.
 *
 * The store's own query engine is not part of the repository, so its
 * meaning is fixed here: a listing is in ascending document-id order,
 * `orderBy(field, 'desc')` is a stable sort of that listing (equal keys
 * stay in ascending id order), `startAfter(doc)` keeps the documents
 * strictly after `doc` in that order, and `limit(n)` keeps the first `n`.
 */
module Documents {
  import opened Wrappers
  import opened Text

  /** A document id (an opaque string assigned by the store). */
  type Id = string

  /** `{ id: doc.id, ...doc.data() }`: a record together with its id. */
  datatype Doc<T> = Doc(id: Id, data: T)

  /** The document is stored in `col` under its id, with exactly this data. */
  ghost predicate StoredIn<T>(d: Doc<T>, col: map<Id, T>)
  {
    d.id in col && col[d.id] == d.data
  }

  /** `s` is sorted by the strict order `lt`. */
  ghost predicate SortedBy<T>(s: seq<T>, lt: (T, T) -> bool)
  {
    forall i, j :: 0 <= i < j < |s| ==> lt(s[i], s[j])
  }

  /** Document ids strictly ascending: the store's default order. */
  ghost predicate IdsAscending<T>(s: seq<Doc<T>>)
  {
    SortedBy(s, (a: Doc<T>, b: Doc<T>) => StrLess(a.id, b.id))
  }

  /** The documents of `col` whose ids are `ids`, in that order. */
  function DocsOf<T>(col: map<Id, T>, ids: seq<Id>): (r: seq<Doc<T>>)
    requires forall x :: x in ids ==> x in col
    ensures |r| == |ids|
    ensures forall i :: 0 <= i < |ids| ==> r[i] == Doc(ids[i], col[ids[i]])
  {
    if ids == [] then [] else [Doc(ids[0], col[ids[0]])] + DocsOf(col, ids[1..])
  }

  /** A snapshot of a whole collection, in ascending id order. */
  function Listing<T>(col: map<Id, T>): (r: seq<Doc<T>>)
    ensures |r| == |col|
    ensures forall i :: 0 <= i < |r| ==> StoredIn(r[i], col)
    ensures forall id :: id in col ==> Doc(id, col[id]) in r
    ensures IdsAscending(r)
  {
    var ids := SortedStrings(col.Keys);
    var r := DocsOf(col, ids);
    assert forall id :: id in col ==> Doc(id, col[id]) in r by {
      forall id | id in col ensures Doc(id, col[id]) in r {
        var i :| 0 <= i < |ids| && ids[i] == id;
        assert r[i] == Doc(id, col[id]);
      }
    }
    r
  }

  /** `a` is `b` with some elements left out, the rest in their order. */
  ghost predicate Subsequence<T>(a: seq<T>, b: seq<T>)
    decreases |b|
  {
    a == [] || (b != [] && ((a[0] == b[0] && Subsequence(a[1..], b[1..])) || Subsequence(a, b[1..])))
  }

  lemma {:induction false} SubsequenceMembers<T>(a: seq<T>, b: seq<T>)
    requires Subsequence(a, b)
    ensures forall x :: x in a ==> x in b
    decreases |b|
  {
    if a != [] {
      if a[0] == b[0] && Subsequence(a[1..], b[1..]) {
        SubsequenceMembers(a[1..], b[1..]);
        assert forall x :: x in a ==> x == a[0] || x in a[1..];
      } else {
        SubsequenceMembers(a, b[1..]);
      }
    }
  }

  lemma {:induction false} SubsequenceReflexive<T>(a: seq<T>)
    ensures Subsequence(a, a)
    decreases |a|
  {
    if a != [] {
      SubsequenceReflexive(a[1..]);
    }
  }

  /** Leaving elements out twice is leaving elements out once. */
  lemma {:induction false} SubsequenceTransitive<T>(a: seq<T>, b: seq<T>, c: seq<T>)
    requires Subsequence(a, b) && Subsequence(b, c)
    ensures Subsequence(a, c)
    decreases |c|
  {
    if a != [] {
      assert b != [] && c != [];
      if b[0] == c[0] && Subsequence(b[1..], c[1..]) {
        if a[0] == b[0] && Subsequence(a[1..], b[1..]) {
          SubsequenceTransitive(a[1..], b[1..], c[1..]);
        } else {
          SubsequenceTransitive(a, b[1..], c[1..]);
        }
      } else {
        SubsequenceTransitive(a, b, c[1..]);
      }
    }
  }

  /** Leaving elements out of a sorted sequence keeps it sorted. */
  lemma {:induction false} SubsequenceSorted<T>(a: seq<T>, b: seq<T>, lt: (T, T) -> bool)
    requires Subsequence(a, b) && SortedBy(b, lt)
    ensures SortedBy(a, lt)
    decreases |b|
  {
    if a != [] {
      assert SortedBy(b[1..], lt);
      if a[0] == b[0] && Subsequence(a[1..], b[1..]) {
        SubsequenceSorted(a[1..], b[1..], lt);
        SubsequenceMembers(a[1..], b[1..]);
        forall j | 0 < j < |a| ensures lt(a[0], a[j]) {
          assert a[j] in a[1..];
          var k :| 0 <= k < |b[1..]| && b[1..][k] == a[j];
          assert b[k + 1] == a[j];
        }
      } else {
        SubsequenceSorted(a, b[1..], lt);
      }
    }
  }

  /** `s.filter(p)`. */
  function Filter<T>(s: seq<T>, p: T -> bool): (r: seq<T>)
    ensures |r| <= |s|
    ensures forall i :: 0 <= i < |r| ==> r[i] in s && p(r[i])
    ensures forall i :: 0 <= i < |s| && p(s[i]) ==> s[i] in r
    ensures Subsequence(r, s)
  {
    if s == [] then []
    else if p(s[0]) then
      var r := [s[0]] + Filter(s[1..], p);
      assert r[1..] == Filter(s[1..], p);
      r
    else
      Filter(s[1..], p)
  }

  /** `if (cond) s = s.filter(p)`. */
  function FilterIf<T>(s: seq<T>, cond: bool, p: T -> bool): (r: seq<T>)
    ensures Subsequence(r, s)
    ensures forall i :: 0 <= i < |r| ==> r[i] in s && (cond ==> p(r[i]))
    ensures forall i :: 0 <= i < |s| && (cond ==> p(s[i])) ==> s[i] in r
  {
    if cond then Filter(s, p)
    else
      SubsequenceReflexive(s);
      s
  }

  /** Filters that agree on every element give the same result. */
  lemma {:induction false} FilterAgree<T>(s: seq<T>, p: T -> bool, q: T -> bool)
    requires forall i :: 0 <= i < |s| ==> (p(s[i]) <==> q(s[i]))
    ensures Filter(s, p) == Filter(s, q)
  {
    if s != [] {
      FilterAgree(s[1..], p, q);
    }
  }

  /** Filtering twice is filtering once by both conditions. */
  lemma {:induction false} FilterTwice<T>(s: seq<T>, p: T -> bool, q: T -> bool, both: T -> bool)
    requires forall i :: 0 <= i < |s| ==> (both(s[i]) <==> p(s[i]) && q(s[i]))
    ensures Filter(Filter(s, p), q) == Filter(s, both)
  {
    if s != [] {
      FilterTwice(s[1..], p, q, both);
      if p(s[0]) {
        var r := [s[0]] + Filter(s[1..], p);
        assert Filter(s, p) == r;
        assert r[1..] == Filter(s[1..], p);
      }
    }
  }

  /** A filter every element passes keeps the whole sequence. */
  lemma {:induction false} FilterAll<T>(s: seq<T>, p: T -> bool)
    requires forall i :: 0 <= i < |s| ==> p(s[i])
    ensures Filter(s, p) == s
  {
    if s != [] {
      FilterAll(s[1..], p);
      assert s == [s[0]] + s[1..];
    }
  }

  /** Filtering keeps a sorted sequence sorted. */
  lemma FilterSorted<T>(s: seq<T>, p: T -> bool, lt: (T, T) -> bool)
    requires SortedBy(s, lt)
    ensures SortedBy(Filter(s, p), lt)
  {
    SubsequenceSorted(Filter(s, p), s, lt);
  }

  /** `s.slice(0, n)` for a non-negative `n`: the first `n` elements, or all of them. */
  function Take<T>(s: seq<T>, n: nat): (r: seq<T>)
    ensures |r| <= n && |r| <= |s| && r == s[..|r|]
    ensures |r| < n ==> r == s
  {
    if n <= |s| then s[..n] else s
  }

  /** The first element, if any (`snapshot.docs[0]`). */
  function First<T>(s: seq<T>): (r: Option<T>)
    ensures r.None? <==> s == []
    ensures r.Some? ==> r.value == s[0]
  {
    if s == [] then None else Some(s[0])
  }

  /** The last element, if any (`snapshot.docs[snapshot.docs.length - 1]`). */
  function Last<T>(s: seq<T>): (r: Option<T>)
    ensures r.None? <==> s == []
    ensures r.Some? ==> r.value == s[|s| - 1]
  {
    if s == [] then None else Some(s[|s| - 1])
  }

  // ---------------------------------------------------------------------
  // orderBy(field, 'desc') on a numeric field

  /** `a` comes before `b` under `orderBy(key, 'desc')`, ties by ascending id. */
  predicate Precedes<T>(a: Doc<T>, b: Doc<T>, key: T -> int)
  {
    key(a.data) > key(b.data) || (key(a.data) == key(b.data) && StrLess(a.id, b.id))
  }

  /** `s` is in the order `orderBy(key, 'desc')` produces. */
  ghost predicate OrderedBy<T>(s: seq<Doc<T>>, key: T -> int)
  {
    SortedBy(s, (a: Doc<T>, b: Doc<T>) => Precedes(a, b, key))
  }

  /** Inserts `x` before the first element whose key is not larger. */
  function InsertByKey<T>(x: Doc<T>, s: seq<Doc<T>>, key: T -> int): (r: seq<Doc<T>>)
    ensures multiset(r) == multiset(s) + multiset{x}
  {
    if s == [] || key(x.data) >= key(s[0].data) then [x] + s
    else
      assert s == [s[0]] + s[1..];
      [s[0]] + InsertByKey(x, s[1..], key)
  }

  lemma {:induction false} InsertByKeyOrdered<T>(x: Doc<T>, s: seq<Doc<T>>, key: T -> int)
    requires OrderedBy(s, key)
    requires forall y :: y in s ==> StrLess(x.id, y.id)
    ensures OrderedBy(InsertByKey(x, s, key), key)
  {
    var r := InsertByKey(x, s, key);
    if s == [] || key(x.data) >= key(s[0].data) {
      forall j | 0 < j < |r| ensures Precedes(r[0], r[j], key) {
        assert r[j] == s[j - 1];
        if j > 1 { assert Precedes(s[0], s[j - 1], key); }
      }
    } else {
      var tail := InsertByKey(x, s[1..], key);
      assert OrderedBy(s[1..], key);
      InsertByKeyOrdered(x, s[1..], key);
      assert r == [s[0]] + tail;
      forall j | 0 < j < |r| ensures Precedes(r[0], r[j], key) {
        assert r[j] in multiset(tail);
        assert r[j] == x || r[j] in s[1..];
      }
    }
  }

  /** The stable sort by `key`, descending. */
  function SortByKeyDesc<T>(s: seq<Doc<T>>, key: T -> int): (r: seq<Doc<T>>)
    ensures multiset(r) == multiset(s)
  {
    if s == [] then [] else
      var r := InsertByKey(s[0], SortByKeyDesc(s[1..], key), key);
      assert s == [s[0]] + s[1..];
      r
  }

  /** Sorting an id-ascending listing yields the `orderBy(key, 'desc')` order. */
  lemma {:induction false} SortByKeyDescOrdered<T>(s: seq<Doc<T>>, key: T -> int)
    requires IdsAscending(s)
    ensures OrderedBy(SortByKeyDesc(s, key), key)
  {
    if s != [] {
      var rest := SortByKeyDesc(s[1..], key);
      SortByKeyDescOrdered(s[1..], key);
      forall y | y in rest ensures StrLess(s[0].id, y.id) {
        assert y in multiset(s[1..]);
        var k :| 0 <= k < |s[1..]| && s[1..][k] == y;
        assert s[k + 1] == y;
      }
      InsertByKeyOrdered(s[0], rest, key);
    }
  }

  // ---------------------------------------------------------------------
  // orderBy(field) ascending on a text field

  /** `a` comes before `b` under `orderBy(name)`, ties by ascending id. */
  predicate PrecedesByText<T>(a: Doc<T>, b: Doc<T>, name: T -> string)
  {
    StrLess(name(a.data), name(b.data)) || (name(a.data) == name(b.data) && StrLess(a.id, b.id))
  }

  /** `s` is in the order `orderBy(name)` produces. */
  ghost predicate OrderedByText<T>(s: seq<Doc<T>>, name: T -> string)
  {
    SortedBy(s, (a: Doc<T>, b: Doc<T>) => PrecedesByText(a, b, name))
  }

  /** Inserts `x` before the first element whose text key is not smaller. */
  function InsertByText<T>(x: Doc<T>, s: seq<Doc<T>>, name: T -> string): (r: seq<Doc<T>>)
    ensures multiset(r) == multiset(s) + multiset{x}
  {
    if s == [] || !StrLess(name(s[0].data), name(x.data)) then [x] + s
    else
      assert s == [s[0]] + s[1..];
      [s[0]] + InsertByText(x, s[1..], name)
  }

  lemma {:induction false} InsertByTextOrdered<T>(x: Doc<T>, s: seq<Doc<T>>, name: T -> string)
    requires OrderedByText(s, name)
    requires forall y :: y in s ==> StrLess(x.id, y.id)
    ensures OrderedByText(InsertByText(x, s, name), name)
  {
    var r := InsertByText(x, s, name);
    if s == [] || !StrLess(name(s[0].data), name(x.data)) {
      forall j | 0 < j < |r| ensures PrecedesByText(r[0], r[j], name) {
        var y := s[j - 1];
        assert r[j] == y;
        var a, b, c := name(x.data), name(s[0].data), name(y.data);
        StrLessTotal(a, b);
        if j > 1 {
          assert PrecedesByText(s[0], y, name);
          if StrLess(a, b) && StrLess(b, c) { StrLessTransitive(a, b, c); }
        }
      }
    } else {
      var tail := InsertByText(x, s[1..], name);
      assert OrderedByText(s[1..], name);
      InsertByTextOrdered(x, s[1..], name);
      assert r == [s[0]] + tail;
      forall j | 0 < j < |r| ensures PrecedesByText(r[0], r[j], name) {
        assert r[j] in multiset(tail);
        assert r[j] == x || r[j] in s[1..];
      }
    }
  }

  /** The stable sort by a text key, ascending. */
  function SortByTextAsc<T>(s: seq<Doc<T>>, name: T -> string): (r: seq<Doc<T>>)
    ensures multiset(r) == multiset(s)
  {
    if s == [] then [] else
      var r := InsertByText(s[0], SortByTextAsc(s[1..], name), name);
      assert s == [s[0]] + s[1..];
      r
  }

  /** Sorting an id-ascending listing yields the `orderBy(name)` order. */
  lemma {:induction false} SortByTextAscOrdered<T>(s: seq<Doc<T>>, name: T -> string)
    requires IdsAscending(s)
    ensures OrderedByText(SortByTextAsc(s, name), name)
  {
    if s != [] {
      var rest := SortByTextAsc(s[1..], name);
      SortByTextAscOrdered(s[1..], name);
      forall y | y in rest ensures StrLess(s[0].id, y.id) {
        assert y in multiset(s[1..]);
        var k :| 0 <= k < |s[1..]| && s[1..][k] == y;
        assert s[k + 1] == y;
      }
      InsertByTextOrdered(s[0], rest, name);
    }
  }

  // ---------------------------------------------------------------------
  // Whole queries

  /** Two sequences with the same multiset have the same members. */
  lemma SameElements<T>(a: seq<T>, b: seq<T>)
    requires multiset(a) == multiset(b)
    ensures forall x :: x in a <==> x in b
  {
    forall x ensures x in a <==> x in b {
      assert x in a <==> x in multiset(a);
      assert x in b <==> x in multiset(b);
    }
  }

  /** A reordering of stored, matching documents holds exactly the same documents. */
  lemma SamePlacement<T>(r: seq<Doc<T>>, m: seq<Doc<T>>, col: map<Id, T>, p: T -> bool)
    requires multiset(r) == multiset(m)
    requires forall i :: 0 <= i < |m| ==> StoredIn(m[i], col) && p(m[i].data)
    requires forall id :: id in col && p(col[id]) ==> Doc(id, col[id]) in m
    ensures forall i :: 0 <= i < |r| ==> StoredIn(r[i], col) && p(r[i].data)
    ensures forall id :: id in col && p(col[id]) ==> Doc(id, col[id]) in r
  {
    SameElements(r, m);
    forall i | 0 <= i < |r| ensures StoredIn(r[i], col) && p(r[i].data) {
      assert r[i] in r;
      assert r[i] in m;
      var k :| 0 <= k < |m| && m[k] == r[i];
    }
  }

  /** The documents of `col` whose data satisfies `p`, in ascending id order. */
  function Matching<T>(col: map<Id, T>, p: T -> bool): (r: seq<Doc<T>>)
    ensures forall i :: 0 <= i < |r| ==> StoredIn(r[i], col) && p(r[i].data)
    ensures forall id :: id in col && p(col[id]) ==> Doc(id, col[id]) in r
    ensures IdsAscending(r)
  {
    var all := Listing(col);
    var r := Filter(all, (d: Doc<T>) => p(d.data));
    FilterSorted(all, (d: Doc<T>) => p(d.data), (a: Doc<T>, b: Doc<T>) => StrLess(a.id, b.id));
    FilteredListingStored(col, all, r, p);
    r
  }

  /** What a filter keeps of a listing is stored and passes the filter. */
  lemma FilteredListingStored<T>(col: map<Id, T>, all: seq<Doc<T>>, r: seq<Doc<T>>, p: T -> bool)
    requires forall i :: 0 <= i < |all| ==> StoredIn(all[i], col)
    requires forall i :: 0 <= i < |r| ==> r[i] in all && p(r[i].data)
    ensures forall i :: 0 <= i < |r| ==> StoredIn(r[i], col) && p(r[i].data)
  {
    forall i | 0 <= i < |r| ensures StoredIn(r[i], col) {
      var k :| 0 <= k < |all| && all[k] == r[i];
      assert StoredIn(all[k], col);
    }
  }

  /** The first matching document in the default order (a query without `orderBy`). */
  function FirstMatching<T>(col: map<Id, T>, p: T -> bool): (r: Option<Doc<T>>)
    ensures r.None? <==> forall id :: id in col ==> !p(col[id])
    ensures r.Some? ==> StoredIn(r.value, col) && p(r.value.data)
    ensures r.Some? ==> forall id :: id in col && p(col[id]) && id != r.value.id ==> StrLess(r.value.id, id)
  {
    var m := Matching(col, p);
    if m == [] then
      NoneMatching(col, p);
      None
    else
      HeadOfMatchingLeast(col, p);
      Some(m[0])
  }

  /** With no match listed, no document matches. */
  lemma NoneMatching<T>(col: map<Id, T>, p: T -> bool)
    requires Matching(col, p) == []
    ensures forall id :: id in col ==> !p(col[id])
  {
  }

  /** The head of the listing of matches has the least id among them. */
  lemma HeadOfMatchingLeast<T>(col: map<Id, T>, p: T -> bool)
    requires Matching(col, p) != []
    ensures forall id :: id in col && p(col[id]) && id != Matching(col, p)[0].id ==>
              StrLess(Matching(col, p)[0].id, id)
  {
    var m := Matching(col, p);
    forall id | id in col && p(col[id]) && id != m[0].id ensures StrLess(m[0].id, id) {
      var k :| 0 <= k < |m| && m[k] == Doc(id, col[id]);
      IdsAscendingAt(m, 0, k);
    }
  }

  /** In ascending id order, an earlier document has a smaller id. */
  lemma IdsAscendingAt<T>(s: seq<Doc<T>>, i: nat, j: nat)
    requires IdsAscending(s) && i <= j < |s| && s[i].id != s[j].id
    ensures StrLess(s[i].id, s[j].id)
  {
    assert i < j;
  }

  /** The first match depends only on which ids match. */
  lemma FirstMatchingSameIds<T, U>(c1: map<Id, T>, p1: T -> bool, c2: map<Id, U>, p2: U -> bool)
    requires c1.Keys == c2.Keys
    requires forall id :: id in c1 ==> (p1(c1[id]) <==> p2(c2[id]))
    ensures FirstMatching(c1, p1).None? <==> FirstMatching(c2, p2).None?
    ensures FirstMatching(c1, p1).Some? ==> FirstMatching(c1, p1).value.id == FirstMatching(c2, p2).value.id
  {
    var r1, r2 := FirstMatching(c1, p1), FirstMatching(c2, p2);
    if r1.Some? && r2.Some? && r1.value.id != r2.value.id {
      assert r2.value.id in c1;
      StrLessAsymmetric(r1.value.id, r2.value.id);
    }
  }

  /** Every document of `col` satisfying `p`, ordered by `orderBy(key, 'desc')`. */
  function SelectOrderedByKey<T>(col: map<Id, T>, p: T -> bool, key: T -> int): (r: seq<Doc<T>>)
    ensures OrderedBy(r, key)
    ensures forall i :: 0 <= i < |r| ==> StoredIn(r[i], col) && p(r[i].data)
    ensures forall id :: id in col && p(col[id]) ==> Doc(id, col[id]) in r
  {
    var m := Matching(col, p);
    var r := SortByKeyDesc(m, key);
    SortByKeyDescOrdered(m, key);
    SamePlacement(r, m, col, p);
    r
  }

  /** Every document of `col` satisfying `p`, ordered by `orderBy(name)` ascending. */
  function SelectOrderedByText<T>(col: map<Id, T>, p: T -> bool, name: T -> string): (r: seq<Doc<T>>)
    ensures OrderedByText(r, name)
    ensures forall i :: 0 <= i < |r| ==> StoredIn(r[i], col) && p(r[i].data)
    ensures forall id :: id in col && p(col[id]) ==> Doc(id, col[id]) in r
  {
    var m := Matching(col, p);
    var r := SortByTextAsc(m, name);
    SortByTextAscOrdered(m, name);
    SamePlacement(r, m, col, p);
    r
  }

  /** `d` lies strictly after the cursor document in the `orderBy(key, 'desc')` order. */
  predicate AfterCursor<T>(cursor: Option<Doc<T>>, d: Doc<T>, key: T -> int)
  {
    cursor.Some? ==> Precedes(cursor.value, d, key)
  }

  /**
   * `items` is what `where(p)`, `orderBy(key, 'desc')`, `startAfter(cursor)`
   * and `limit(n)` return from `col`: at most `n` matching documents after the
   * cursor, in order, and every matching document after the cursor that is
   * left out comes after all of them (and is left out only if the page is full).
   */
  ghost predicate IsWindow<T>(items: seq<Doc<T>>, col: map<Id, T>, p: T -> bool, key: T -> int,
                              cursor: Option<Doc<T>>, n: nat)
  {
    && |items| <= n
    && OrderedBy(items, key)
    && (forall i :: 0 <= i < |items| ==>
          StoredIn(items[i], col) && p(items[i].data) && AfterCursor(cursor, items[i], key))
    && (forall id ::
          (id in col && p(col[id]) && AfterCursor(cursor, Doc(id, col[id]), key) && Doc(id, col[id]) !in items) ==>
            |items| == n && forall i :: 0 <= i < |items| ==> Precedes(items[i], Doc(id, col[id]), key))
  }

  /** Skipping past the cursor and taking `n` from an ordered selection gives a window. */
  lemma TakeAfterCursorIsWindow<T>(ordered: seq<Doc<T>>, rest: seq<Doc<T>>, r: seq<Doc<T>>, col: map<Id, T>,
                                   p: T -> bool, key: T -> int, cursor: Option<Doc<T>>, n: nat)
    requires OrderedBy(rest, key)
    requires forall i :: 0 <= i < |ordered| ==> StoredIn(ordered[i], col) && p(ordered[i].data)
    requires forall id :: id in col && p(col[id]) ==> Doc(id, col[id]) in ordered
    requires forall i :: 0 <= i < |rest| ==> rest[i] in ordered && AfterCursor(cursor, rest[i], key)
    requires forall i :: 0 <= i < |ordered| && AfterCursor(cursor, ordered[i], key) ==> ordered[i] in rest
    requires |r| <= n && |r| <= |rest| && r == rest[..|r|] && (|r| < n ==> r == rest)
    ensures IsWindow(r, col, p, key, cursor, n)
  {
    forall i | 0 <= i < |r| ensures StoredIn(r[i], col) && p(r[i].data) && AfterCursor(cursor, r[i], key) {
      assert r[i] == rest[i];
      var k :| 0 <= k < |ordered| && ordered[k] == rest[i];
    }
    forall id | id in col && p(col[id]) && AfterCursor(cursor, Doc(id, col[id]), key) && Doc(id, col[id]) !in r
      ensures |r| == n && forall i :: 0 <= i < |r| ==> Precedes(r[i], Doc(id, col[id]), key)
    {
      var d := Doc(id, col[id]);
      var k :| 0 <= k < |ordered| && ordered[k] == d;
      assert d in rest;
      var j :| 0 <= j < |rest| && rest[j] == d;
      forall i | 0 <= i < |r| ensures Precedes(r[i], d, key) {
        assert r[i] == rest[i];
      }
    }
  }

  /** A paginated query: filter, order, skip past the cursor, take `n`. */
  function Window<T>(col: map<Id, T>, p: T -> bool, key: T -> int, cursor: Option<Doc<T>>, n: nat)
    : (r: seq<Doc<T>>)
    ensures IsWindow(r, col, p, key, cursor, n)
  {
    var ordered := SelectOrderedByKey(col, p, key);
    var after := (d: Doc<T>) => AfterCursor(cursor, d, key);
    var rest := Filter(ordered, after);
    FilterSorted(ordered, after, (a: Doc<T>, b: Doc<T>) => Precedes(a, b, key));
    var r := Take(rest, n);
    TakeAfterCursorIsWindow(ordered, rest, r, col, p, key, cursor, n);
    r
  }

  /** `Precedes` is a strict order: no document precedes itself, and never both ways. */
  lemma PrecedesAsymmetric<T>(a: Doc<T>, b: Doc<T>, key: T -> int)
    ensures !(Precedes(a, b, key) && Precedes(b, a, key))
    ensures !Precedes(a, a, key)
  {
    if key(a.data) == key(b.data) && StrLess(a.id, b.id) {
      StrLessAsymmetric(a.id, b.id);
    }
    StrLessIrreflexive(a.id);
  }

  /** A set of ids all carried by elements of `s` has at most `|s|` members. */
  lemma {:induction false} IdsBound<T>(s: seq<Doc<T>>, ids: set<Id>)
    requires forall id :: id in ids ==> exists i :: 0 <= i < |s| && s[i].id == id
    ensures |ids| <= |s|
    decreases |s|
  {
    if s != [] {
      var rest := ids - {s[0].id};
      forall id | id in rest ensures exists i :: 0 <= i < |s[1..]| && s[1..][i].id == id {
        var i :| 0 <= i < |s| && s[i].id == id;
        assert i != 0;
        assert s[1..][i - 1].id == id;
      }
      IdsBound(s[1..], rest);
    } else {
      assert ids == {};
    }
  }

  /**
   * A window from the start holds no document that `n` or more other
   * matching documents precede.
   */
  lemma WindowRank<T>(items: seq<Doc<T>>, col: map<Id, T>, p: T -> bool, key: T -> int, n: nat,
                      x: Id, ahead: set<Id>)
    requires IsWindow(items, col, p, key, None, n)
    requires x in col
    requires forall id :: id in ahead ==> id in col && p(col[id]) && Precedes(Doc(id, col[id]), Doc(x, col[x]), key)
    requires |ahead| >= n
    ensures Doc(x, col[x]) !in items
  {
    var d := Doc(x, col[x]);
    if d in items {
      var k :| 0 <= k < |items| && items[k] == d;
      forall id | id in ahead + {x} ensures exists i :: 0 <= i < |items| && items[i].id == id {
        if id == x {
          assert items[k].id == id;
        } else {
          var e := Doc(id, col[id]);
          if e !in items {
            assert Precedes(items[k], e, key);
            PrecedesAsymmetric(e, d, key);
            assert false;
          }
          var j :| 0 <= j < |items| && items[j] == e;
          assert items[j].id == id;
        }
      }
      PrecedesAsymmetric(d, d, key);
      assert x !in ahead;
      IdsBound(items, ahead + {x});
      assert false;
    }
  }
}
