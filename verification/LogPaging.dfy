/**
 One page of the merged log (app/api/logs.py). Each source gives only its first rows, up to the end of the
 page and at most 10000; the two lists are sorted together and cut to the page.
 */
module LogPaging {
  import opened Results
  import opened Json

  /** `key` is the creation time the list is sorted by. */
  datatype Entry = Entry(key: int, id: nat, audit: bool)

  // ---- Sorting ----

  /** Newest first; equal times keep their order. */
  function Insert(e: Entry, sorted: seq<Entry>): seq<Entry> {
    if sorted == [] || e.key >= sorted[0].key then [e] + sorted else [sorted[0]] + Insert(e, sorted[1..])
  }

  /** `entries.sort(key=created_at, reverse=True)`: Python's sort is stable. */
  function StableSort(entries: seq<Entry>): seq<Entry> {
    if entries == [] then [] else Insert(entries[0], StableSort(entries[1..]))
  }

  predicate NewestFirst(entries: seq<Entry>) {
    forall i, j | 0 <= i < j < |entries| :: entries[i].key >= entries[j].key
  }

  /** The entries of one time, in order. */
  function At(entries: seq<Entry>, key: int): seq<Entry> {
    if entries == [] then []
    else (if entries[0].key == key then [entries[0]] else []) + At(entries[1..], key)
  }

  function Same(e: Entry, key: int): seq<Entry> {
    if e.key == key then [e] else []
  }

  lemma AtFirst(e: Entry, rest: seq<Entry>, key: int)
    ensures At([e] + rest, key) == Same(e, key) + At(rest, key)
  {
    assert ([e] + rest)[1..] == rest;
  }

  lemma HeadSorts(e: Entry, entries: seq<Entry>)
    requires NewestFirst(entries) && forall x | x in entries :: e.key >= x.key
    ensures NewestFirst([e] + entries)
  {
    var r := [e] + entries;
    forall i, j | 0 <= i < j < |r| ensures r[i].key >= r[j].key {
      assert r[j] == entries[j - 1] && r[j] in entries;
    }
  }

  lemma {:induction false} InsertSorts(e: Entry, sorted: seq<Entry>)
    requires NewestFirst(sorted)
    ensures NewestFirst(Insert(e, sorted)) && |Insert(e, sorted)| == |sorted| + 1
    ensures forall x | x in Insert(e, sorted) :: x == e || x in sorted
  {
    if sorted == [] || e.key >= sorted[0].key {
      HeadSorts(e, sorted);
    } else {
      InsertSorts(e, sorted[1..]);
      HeadSorts(sorted[0], Insert(e, sorted[1..]));
    }
  }

  lemma {:induction false} InsertAt(e: Entry, sorted: seq<Entry>, key: int)
    requires NewestFirst(sorted)
    ensures At(Insert(e, sorted), key) == Same(e, key) + At(sorted, key)
  {
    if sorted == [] || e.key >= sorted[0].key {
      AtFirst(e, sorted, key);
    } else {
      var first, rest := sorted[0], sorted[1..];
      InsertAt(e, rest, key);
      AtFirst(first, Insert(e, rest), key);
      AtFirst(first, rest, key);
      assert sorted == [first] + rest;
    }
  }

  /** Sorted, and the entries of each time in the order they came in. */
  lemma {:induction false} SortIsStable(entries: seq<Entry>)
    ensures NewestFirst(StableSort(entries)) && |StableSort(entries)| == |entries|
    ensures forall key :: At(StableSort(entries), key) == At(entries, key)
  {
    if entries != [] {
      var rest := entries[1..];
      SortIsStable(rest);
      InsertSorts(entries[0], StableSort(rest));
      forall key ensures At(StableSort(entries), key) == At(entries, key) {
        InsertAt(entries[0], StableSort(rest), key);
        AtFirst(entries[0], rest, key);
        assert entries == [entries[0]] + rest;
      }
    }
  }

  lemma {:induction false} MemberAt(entries: seq<Entry>, e: Entry)
    ensures e in entries <==> e in At(entries, e.key)
  {
    if entries != [] { MemberAt(entries[1..], e); }
  }

  lemma MembersMatch(a: seq<Entry>, b: seq<Entry>, e: Entry)
    requires forall key :: At(a, key) == At(b, key)
    ensures e in a <==> e in b
  {
    hide At;
    MemberAt(a, e);
    MemberAt(b, e);
    assert At(a, e.key) == At(b, e.key);
  }

  lemma HeadAt(entries: seq<Entry>)
    requires entries != []
    ensures At(entries, entries[0].key) != [] && At(entries, entries[0].key)[0] == entries[0]
  {
  }

  lemma SameHeads(a: seq<Entry>, b: seq<Entry>)
    requires NewestFirst(a) && NewestFirst(b) && a != [] && b != [] && forall key :: At(a, key) == At(b, key)
    ensures a[0] == b[0]
  {
    hide At;
    MembersMatch(a, b, a[0]);
    MembersMatch(a, b, b[0]);
    HeadAt(a);
    HeadAt(b);
    assert At(a, a[0].key) == At(b, a[0].key);
  }

  /** Two lists in order with the same entries at each time are the same list: there is one stable sort. */
  lemma {:induction false} SameWhenStable(a: seq<Entry>, b: seq<Entry>)
    requires NewestFirst(a) && NewestFirst(b) && forall key :: At(a, key) == At(b, key)
    ensures a == b
  {
    if a == [] || b == [] {
      assert a != [] ==> At(a, a[0].key) != [];
      assert b != [] ==> At(b, b[0].key) != [];
    } else {
      SameHeads(a, b);
      assert a == [a[0]] + a[1..] && b == [b[0]] + b[1..];
      forall key ensures At(a[1..], key) == At(b[1..], key) {
        AtFirst(a[0], a[1..], key);
        AtFirst(b[0], b[1..], key);
        var same := Same(a[0], key);
        assert same + At(a[1..], key) == same + At(b[1..], key);
        assert At(a[1..], key) == (same + At(a[1..], key))[|same|..];
      }
      SameWhenStable(a[1..], b[1..]);
    }
  }

  // ---- Merging two sorted lists ----

  /** The first list goes first among equals. */
  function Merge(a: seq<Entry>, b: seq<Entry>): seq<Entry>
    decreases |a| + |b|
  {
    if a == [] then b
    else if b == [] || a[0].key >= b[0].key then [a[0]] + Merge(a[1..], b)
    else [b[0]] + Merge(a, b[1..])
  }

  lemma {:induction false} AtConcat(a: seq<Entry>, b: seq<Entry>, key: int)
    ensures At(a + b, key) == At(a, key) + At(b, key)
  {
    hide At;
    if a == [] {
      assert a + b == b;
      NothingMerges(b, key);
    } else {
      assert a == [a[0]] + a[1..] && a + b == [a[0]] + (a[1..] + b);
      AtFirst(a[0], a[1..], key);
      AtFirst(a[0], a[1..] + b, key);
      AtConcat(a[1..], b, key);
    }
  }

  lemma {:induction false} NoneAt(entries: seq<Entry>, key: int)
    requires forall i | 0 <= i < |entries| :: entries[i].key != key
    ensures At(entries, key) == []
  {
    if entries != [] { NoneAt(entries[1..], key); }
  }

  lemma {:induction false} MergeSorts(a: seq<Entry>, b: seq<Entry>)
    requires NewestFirst(a) && NewestFirst(b)
    ensures |Merge(a, b)| == |a| + |b| && NewestFirst(Merge(a, b))
    ensures forall x | x in Merge(a, b) :: x in a || x in b
    decreases |a| + |b|
  {
    if a != [] {
      if b == [] || a[0].key >= b[0].key {
        MergeSorts(a[1..], b);
        HeadSorts(a[0], Merge(a[1..], b));
      } else {
        MergeSorts(a, b[1..]);
        HeadSorts(b[0], Merge(a, b[1..]));
      }
    }
  }

  lemma MergeTakes(a: seq<Entry>, b: seq<Entry>)
    requires a != []
    ensures
      if b == [] || a[0].key >= b[0].key then Merge(a, b) == [a[0]] + Merge(a[1..], b)
      else Merge(a, b) == [b[0]] + Merge(a, b[1..])
  {
  }

  lemma TailSorted(entries: seq<Entry>)
    requires entries != [] && NewestFirst(entries)
    ensures NewestFirst(entries[1..]) && forall i | 0 <= i < |entries| :: entries[0].key >= entries[i].key
    ensures entries == [entries[0]] + entries[1..]
  {
  }

  lemma Regroup(x: seq<Entry>, y: seq<Entry>, z: seq<Entry>)
    ensures x + (y + z) == x + y + z
    ensures x == [] || y == [] ==> x + (y + z) == y + (x + z)
  {
    if x == [] { assert x + (y + z) == y + z && x + z == z; }
    if y == [] { assert y + z == z && y + (x + z) == x + z; }
  }

  lemma {:induction false} MergeAt(a: seq<Entry>, b: seq<Entry>, key: int)
    requires NewestFirst(a) && NewestFirst(b)
    ensures At(Merge(a, b), key) == At(a, key) + At(b, key)
    decreases |a| + |b|
  {
    hide At, Merge, NewestFirst, Same;
    if a == [] {
      NothingMerges(b, key);
    } else if b == [] || a[0].key >= b[0].key {
      MergeTakes(a, b);
      TailSorted(a);
      MergeAt(a[1..], b, key);
      AtFirst(a[0], Merge(a[1..], b), key);
      AtFirst(a[0], a[1..], key);
      Regroup(Same(a[0], key), At(a[1..], key), At(b, key));
    } else {
      MergeTakes(a, b);
      TailSorted(b);
      MergeAt(a, b[1..], key);
      AtFirst(b[0], Merge(a, b[1..]), key);
      AtFirst(b[0], b[1..], key);
      OneIsEmpty(a, b[0], key);
      Regroup(Same(b[0], key), At(a, key), At(b[1..], key));
    }
  }

  lemma NothingMerges(b: seq<Entry>, key: int)
    ensures Merge([], b) == b && At([], key) + At(b, key) == At(b, key)
  {
  }

  lemma OneIsEmpty(a: seq<Entry>, e: Entry, key: int)
    requires a != [] && NewestFirst(a) && a[0].key < e.key
    ensures Same(e, key) == [] || At(a, key) == []
  {
    if e.key == key {
      assert forall i | 0 <= i < |a| :: a[0].key >= a[i].key;
      NoneAt(a, key);
    }
  }

  /** Sorting two sorted lists one after the other is merging them. */
  lemma SortMerges(a: seq<Entry>, b: seq<Entry>)
    requires NewestFirst(a) && NewestFirst(b)
    ensures StableSort(a + b) == Merge(a, b)
  {
    hide StableSort, Merge;
    SortIsStable(a + b);
    MergeSorts(a, b);
    forall key ensures At(StableSort(a + b), key) == At(Merge(a, b), key) {
      AtConcat(a, b, key);
      MergeAt(a, b, key);
    }
    SameWhenStable(StableSort(a + b), Merge(a, b));
  }

  function First(entries: seq<Entry>, n: nat): seq<Entry> {
    if n <= |entries| then entries[..n] else entries
  }

  lemma FirstOfTail(entries: seq<Entry>, n: nat)
    requires entries != [] && n > 0
    ensures
      var first := First(entries, n);
      first != [] && first[0] == entries[0] && first[1..] == First(entries[1..], n - 1)
  {
  }

  lemma FirstOfNone(n: nat)
    ensures First([], n) == []
  {
  }

  lemma FirstOfSome(entries: seq<Entry>, n: nat)
    requires n > 0
    ensures First(entries, n) == [] <==> entries == []
    ensures entries != [] ==> First(entries, n)[0] == entries[0]
  {
  }

  lemma FirstTwice(entries: seq<Entry>, n: nat, k: nat)
    requires k <= n
    ensures First(First(entries, n), k) == First(entries, k) && First(entries, 0) == []
  {
  }

  lemma NothingBefore(entries: seq<Entry>)
    ensures Merge([], entries) == entries
  {
  }

  /** The first n entries of a merge come from the first n of each list. */
  lemma {:induction false} MergeFirst(a: seq<Entry>, b: seq<Entry>, n: nat, m: nat, k: nat)
    requires k <= n && k <= m
    ensures First(Merge(First(a, n), First(b, m)), k) == First(Merge(a, b), k)
    decreases |a| + |b|
  {
    hide First, Merge;
    var x, y := First(a, n), First(b, m);
    if k == 0 {
      FirstTwice(Merge(x, y), 0, 0);
      FirstTwice(Merge(a, b), 0, 0);
    } else if a == [] {
      FirstOfNone(n);
      NothingBefore(y);
      NothingBefore(b);
      FirstTwice(b, m, k);
    } else {
      FirstOfTail(a, n);
      FirstOfSome(b, m);
      MergeTakes(a, b);
      MergeTakes(x, y);
      if b == [] || a[0].key >= b[0].key {
        MergeFirst(a[1..], b, n - 1, m, k - 1);
        FirstOfCons(a[0], Merge(x[1..], y), k);
        FirstOfCons(a[0], Merge(a[1..], b), k);
      } else {
        FirstOfTail(b, m);
        MergeFirst(a, b[1..], n, m - 1, k - 1);
        FirstOfCons(b[0], Merge(x, y[1..]), k);
        FirstOfCons(b[0], Merge(a, b[1..]), k);
      }
    }
  }

  lemma FirstOfCons(e: Entry, rest: seq<Entry>, k: nat)
    requires k > 0
    ensures First([e] + rest, k) == [e] + First(rest, k - 1)
  {
  }

  // ---- Pages ----

  const MaxFetch: nat := 10_000

  /** `entries[start:end]` */
  function Slice(entries: seq<Entry>, start: nat, end: nat): seq<Entry>
    requires start <= end
  {
    if start <= |entries| then First(entries, end)[start..] else []
  }

  function Start(page: nat, size: nat): nat
    requires page > 0
  {
    (page - 1) * size
  }

  function Fetch(page: nat, size: nat): nat {
    if page * size <= MaxFetch then page * size else MaxFetch
  }

  function PageOf(audit: seq<Entry>, app: seq<Entry>, page: nat, size: nat): seq<Entry>
    requires page > 0
  {
    Slice(StableSort(audit + app), Start(page, size), Start(page, size) + size)
  }

  /** `category.strip() if category else None` */
  function CategoryFilter(category: Option<string>): Option<string> {
    if category.None? || category.value == "" then None else Some(Strip(category.value))
  }

  predicate AuditOn(kind: Option<string>, category: Option<string>, level: bool) {
    !level && kind != Some("app") && (category == None || category == Some("audit"))
  }

  predicate AppOn(kind: Option<string>, category: Option<string>) {
    kind != Some("audit") && category != Some("audit")
  }

  /** `audit_total + app_total`: of the audit rows only an administrator's are all counted. */
  function Total(audit: seq<Entry>, app: seq<Entry>, admin: bool, fetch: nat): nat {
    (if admin then |audit| else |First(audit, fetch)|) + |app|
  }

  /** The endpoint's body: fetch, append, sort, slice. The sources hold the rows that pass the filters. */
  method ListLogs(audit: seq<Entry>, app: seq<Entry>, kind: Option<string>, category: Option<string>, level: bool,
                  admin: bool, page: nat, size: nat)
    returns (items: seq<Entry>, total: nat)
    requires page > 0
    ensures
      var given := category.Some? && category.value != "";
      var a := if !level && kind != Some("app") && (given ==> Strip(category.value) == "audit") then audit else [];
      var b := if kind != Some("audit") && (given ==> Strip(category.value) != "audit") then app else [];
      && items == PageOf(First(a, Fetch(page, size)), First(b, Fetch(page, size)), page, size)
      && total == Total(a, b, admin, Fetch(page, size))
    ensures |items| <= size
  {
    var filter := CategoryFilter(category);
    var fetch := if page * size < MaxFetch then page * size else MaxFetch;
    var auditRows, auditTotal := [], 0;
    if AuditOn(kind, filter, level) {
      auditRows := First(audit, fetch);
      auditTotal := if admin then |audit| else |auditRows|;
    }
    var appRows, appTotal := [], 0;
    if AppOn(kind, filter) {
      appRows := First(app, fetch);
      appTotal := |app|;
    }
    var entries: seq<Entry> := [];
    var i := 0;
    while i < |auditRows|
      invariant 0 <= i <= |auditRows| && entries == auditRows[..i]
    {
      entries := entries + [auditRows[i]];
      i := i + 1;
    }
    var j := 0;
    while j < |appRows|
      invariant 0 <= j <= |appRows| && entries == auditRows + appRows[..j]
    {
      entries := entries + [appRows[j]];
      j := j + 1;
    }
    assert auditRows[..i] == auditRows && appRows[..j] == appRows;
    hide StableSort, Strip;
    items := Slice(StableSort(entries), Start(page, size), Start(page, size) + size);
    total := auditTotal + appTotal;
    assert First([], fetch) == [];
  }

  /** The total is the number of rows exactly for administrators and for logs that fit the fetch. */
  lemma TotalIsExactIff(audit: seq<Entry>, app: seq<Entry>, admin: bool, page: nat, size: nat)
    ensures Total(audit, app, admin, Fetch(page, size)) == |audit| + |app| <==> admin || |audit| <= Fetch(page, size)
  {
  }

  lemma PageArithmetic(page: nat, size: nat)
    requires page > 0
    ensures Start(page, size) + size == page * size
  {
  }

  /** Within the first 10000 entries every page is the page of the whole log. */
  lemma PagesAreExact(audit: seq<Entry>, app: seq<Entry>, page: nat, size: nat)
    requires NewestFirst(audit) && NewestFirst(app) && page > 0 && page * size <= MaxFetch
    ensures
      PageOf(First(audit, Fetch(page, size)), First(app, Fetch(page, size)), page, size)
        == PageOf(audit, app, page, size)
  {
    var n := page * size;
    PageArithmetic(page, size);
    hide StableSort, Merge, First, Slice;
    FirstIsSorted(audit, n);
    FirstIsSorted(app, n);
    hide NewestFirst;
    SortMerges(audit, app);
    SortMerges(First(audit, n), First(app, n));
    MergeFirst(audit, app, n, n, n);
    SliceOfFirst(Merge(First(audit, n), First(app, n)), Start(page, size), n);
    SliceOfFirst(Merge(audit, app), Start(page, size), n);
  }

  lemma FirstIsSorted(entries: seq<Entry>, n: nat)
    requires NewestFirst(entries)
    ensures NewestFirst(First(entries, n))
  {
  }

  lemma SliceOfFirst(entries: seq<Entry>, start: nat, end: nat)
    requires start <= end
    ensures Slice(entries, start, end) == Slice(First(entries, end), start, end)
  {
  }

  /** The pages one after the other. */
  function Pages(audit: seq<Entry>, app: seq<Entry>, count: nat, size: nat): seq<Entry> {
    if count == 0 then [] else Pages(audit, app, count - 1, size) + PageOf(audit, app, count, size)
  }

  /** Read one after the other, the pages are the sorted log from its start: nothing is lost or shown twice. */
  lemma {:induction false} PagesFollowOneAnother(audit: seq<Entry>, app: seq<Entry>, count: nat, size: nat)
    ensures Pages(audit, app, count, size) == First(StableSort(audit + app), count * size)
  {
    hide StableSort;
    var sorted := StableSort(audit + app);
    if count > 0 {
      PageArithmetic(count, size);
      PagesFollowOneAnother(audit, app, count - 1, size);
      NextPage(sorted, Start(count, size), size);
    }
  }

  lemma NextPage(entries: seq<Entry>, start: nat, size: nat)
    ensures First(entries, start) + Slice(entries, start, start + size) == First(entries, start + size)
  {
  }

  /** Exactly up to there: any later page of a long enough log comes out short. */
  lemma LaterPagesAreCut(audit: seq<Entry>, page: nat, size: nat)
    requires NewestFirst(audit) && page > 0 && page * size > MaxFetch && |audit| >= page * size
    ensures |PageOf(audit, [], page, size)| == size
    ensures |PageOf(First(audit, Fetch(page, size)), First([], Fetch(page, size)), page, size)| < size
  {
    PageArithmetic(page, size);
    hide StableSort;
    assert audit + [] == audit && First(audit, MaxFetch) + [] == First(audit, MaxFetch);
    SortIsStable(audit);
    SortIsStable(First(audit, MaxFetch));
  }

  lemma PagingIsExactUpTo10000(page: nat, size: nat)
    requires page > 0
    ensures
      page * size <= 10_000
      <==> forall audit, app | NewestFirst(audit) && NewestFirst(app) ::
        PageOf(First(audit, Fetch(page, size)), First(app, Fetch(page, size)), page, size)
          == PageOf(audit, app, page, size)
  {
    if page * size <= MaxFetch {
      forall audit, app | NewestFirst(audit) && NewestFirst(app)
        ensures PageOf(First(audit, Fetch(page, size)), First(app, Fetch(page, size)), page, size)
          == PageOf(audit, app, page, size)
      {
        PagesAreExact(audit, app, page, size);
      }
    } else {
      var many := Many(page * size);
      LaterPagesAreCut(many, page, size);
      assert NewestFirst([]);
      assert PageOf(First(many, Fetch(page, size)), First([], Fetch(page, size)), page, size)
        != PageOf(many, [], page, size);
    }
  }

  /** Rows of the same moment. */
  function Many(n: nat): (entries: seq<Entry>)
    ensures |entries| == n && NewestFirst(entries) && forall e | e in entries :: e.key == 0
  {
    if n == 0 then [] else Many(n - 1) + [Entry(0, n, true)]
  }
}
