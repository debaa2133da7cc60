/** Reading the jobs table in order: ListJobs with its keyset cursor, and a client that follows
    the cursor to the end. */
module Listing {
  import opened Wrappers
  import opened Jobs
  import opened Rows
  import Text

  // ----- the order of the listing -----

  /** The sort key of a job, which is also the cursor. Ids are unique, so keys are. */
  datatype Key = Key(createdAt: int, id: string)

  /** `(created_at, id) < (...)` as SQL compares rows. */
  predicate Older(a: Key, b: Key) {
    a.createdAt < b.createdAt || (a.createdAt == b.createdAt && Text.Less(a.id, b.id))
  }

  lemma OlderIsATotalOrder(a: Key, b: Key, c: Key)
    ensures !Older(a, a)
    ensures Older(a, b) && Older(b, c) ==> Older(a, c)
    ensures Older(a, b) || a == b || Older(b, a)
  {
    Text.LessIrreflexive(a.id);
    Text.LessTotal(a.id, b.id);
    if Text.Less(a.id, b.id) && Text.Less(b.id, c.id) {
      Text.LessTransitive(a.id, b.id, c.id);
    }
  }

  /** ORDER BY created_at DESC, id DESC: every entry is older than the one before. */
  ghost predicate Descending(s: seq<Key>) {
    forall i, j :: 0 <= i < j < |s| ==> Older(s[j], s[i])
  }

  predicate IsNewest(k: Key, keys: set<Key>) {
    k in keys && forall j :: j in keys && j != k ==> Older(j, k)
  }

  lemma {:induction false} NewestExists(keys: set<Key>) returns (k: Key)
    requires keys != {}
    ensures k in keys && IsNewest(k, keys)
    decreases |keys|
  {
    var x :| x in keys;
    if keys == {x} {
      k := x;
    } else {
      var y := NewestExists(keys - {x});
      OlderIsATotalOrder(x, y, y);
      k := if Older(y, x) then x else y;
      forall j | j in keys && j != k ensures Older(j, k) {
        OlderIsATotalOrder(j, y, x);
      }
    }
  }

  /** The whole table in listing order. */
  ghost function Sorted(keys: set<Key>): (s: seq<Key>)
    ensures |s| == |keys|
    ensures forall k :: k in s <==> k in keys
    decreases |keys|
  {
    if keys == {} then []
    else
      assert exists k :: IsNewest(k, keys) by { var k := NewestExists(keys); }
      var k :| IsNewest(k, keys);
      [k] + Sorted(keys - {k})
  }

  lemma {:induction false} SortedDescends(keys: set<Key>)
    ensures Descending(Sorted(keys))
    decreases |keys|
  {
    if keys != {} {
      var s := Sorted(keys);
      assert s[1..] == Sorted(keys - {s[0]});
      SortedDescends(keys - {s[0]});
      forall i, j | 0 <= i < j < |s| ensures Older(s[j], s[i]) {
        assert s[j] == s[1..][j - 1];
        if i > 0 {
          assert s[i] == s[1..][i - 1];
        } else {
          assert s[j] in keys - {s[0]};
        }
      }
    }
  }

  /** A set has only one descending enumeration. */
  lemma {:induction false} DescendingIsUnique(s: seq<Key>, t: seq<Key>)
    requires Descending(s) && Descending(t)
    requires forall k :: k in s <==> k in t
    ensures s == t
  {
    assert |t| > 0 ==> t[0] in t;
    if s == [] {
      assert t == [];
    } else {
      assert s[0] in t;
      assert t[0] in s;
      OlderIsATotalOrder(s[0], t[0], s[0]);
      OlderIsATotalOrder(t[0], s[0], t[0]);
      assert s[0] == t[0];
      forall k ensures k in s[1..] <==> k in t[1..] {
        OlderIsATotalOrder(k, k, k);
        if k in s[1..] {
          var i :| 0 <= i < |s| - 1 && s[1..][i] == k;
          assert s[i + 1] == k && k in t;
        }
        if k in t[1..] {
          var i :| 0 <= i < |t| - 1 && t[1..][i] == k;
          assert t[i + 1] == k && k in s;
        }
      }
      DescendingIsUnique(s[1..], t[1..]);
      assert s == [s[0]] + s[1..] && t == [t[0]] + t[1..];
    }
  }

  // ----- one page -----

  /** The WHERE clause of listJobs. */
  function Below(keys: set<Key>, cursor: Option<Key>): set<Key> {
    if cursor.None? then keys else set k | k in keys && Older(k, cursor.value)
  }

  /** The rows listJobs returns. */
  ghost function Page(keys: set<Key>, cursor: Option<Key>, limit: nat): seq<Key> {
    var s := Sorted(Below(keys, cursor));
    if |s| <= limit then s else s[..limit]
  }

  function Keys(rows: map<string, Row>): set<Key> {
    set id | id in rows :: Key(rows[id].createdAt, id)
  }

  /** The cursor a page hands out: its last row, if it is full. */
  function NextCursor(page: seq<Key>, limit: nat): Option<Key> {
    if |page| == limit && limit > 0 then Some(page[limit - 1]) else None
  }

  lemma SortedTakesNewest(keys: set<Key>, k: Key)
    requires IsNewest(k, keys)
    ensures Sorted(keys) == [k] + Sorted(keys - {k})
  {
    var s := Sorted(keys);
    assert IsNewest(s[0], keys);
    OlderIsATotalOrder(k, s[0], k);
    OlderIsATotalOrder(k, k, k);
  }

  lemma OneMoreRow(all: seq<Key>, page: seq<Key>, rest: set<Key>, k: Key)
    requires all == page + Sorted(rest) && IsNewest(k, rest)
    ensures all == page + [k] + Sorted(rest - {k})
  {
    SortedTakesNewest(rest, k);
    hide Sorted, IsNewest;
    assert page + ([k] + Sorted(rest - {k})) == page + [k] + Sorted(rest - {k});
  }

  lemma PageIsFirstRows(keys: set<Key>, cursor: Option<Key>, limit: nat, page: seq<Key>, rest: set<Key>)
    requires Sorted(Below(keys, cursor)) == page + Sorted(rest) && |page| <= limit
    requires |page| == limit || rest == {}
    ensures page == Page(keys, cursor, limit)
  {
    hide Below;
  }

  /** The query of listJobs: filter, order, limit. */
  method Query(rows: map<string, Row>, cursor: Option<Key>, limit: nat) returns (page: seq<Key>)
    ensures page == Page(Keys(rows), cursor, limit)
  {
    hide Sorted, IsNewest, Page;
    var rest := Below(Keys(rows), cursor);
    hide Below, Keys;
    page := [];
    assert [] + Sorted(rest) == Sorted(rest);
    while |page| < limit && rest != {}
      invariant |page| <= limit && Sorted(Below(Keys(rows), cursor)) == page + Sorted(rest)
      decreases |rest|
    {
      ghost var newest := NewestExists(rest);
      var k :| k in rest && IsNewest(k, rest);
      OneMoreRow(Sorted(Below(Keys(rows), cursor)), page, rest, k);
      page := page + [k];
      rest := rest - {k};
    }
    PageIsFirstRows(Keys(rows), cursor, limit, page, rest);
  }

  lemma PageRowsExist(rows: map<string, Row>, cursor: Option<Key>, limit: nat, k: Key)
    requires k in Page(Keys(rows), cursor, limit)
    ensures k.id in rows
  {
    assert k in Sorted(Below(Keys(rows), cursor));
  }

  ghost predicate JobsOf(jobs: seq<JobRecord>, page: seq<Key>, rows: map<string, Row>) {
    |jobs| == |page| && forall i :: 0 <= i < |page| ==> page[i].id in rows && jobs[i] == Load(rows[page[i].id])
  }

  /** ListJobs; an undecodable cursor never gets this far. */
  method ListJobs(rows: map<string, Row>, limit: nat, cursor: Option<Key>)
    returns (jobs: seq<JobRecord>, next: Option<Key>)
    requires limit >= 1
    ensures JobsOf(jobs, Page(Keys(rows), cursor, limit), rows)
    ensures next == NextCursor(Page(Keys(rows), cursor, limit), limit)
  {
    var dbJobs := Query(rows, cursor, limit);
    hide Page, Keys;
    forall k | k in dbJobs ensures k.id in rows {
      PageRowsExist(rows, cursor, limit, k);
    }
    jobs := [];
    for i := 0 to |dbJobs|
      invariant |jobs| == i
      invariant forall n :: 0 <= n < i ==> jobs[n] == Load(rows[dbJobs[n].id])
    {
      jobs := jobs + [Load(rows[dbJobs[i].id])];
    }
    next := None;
    if |dbJobs| == limit {
      next := Some(dbJobs[|dbJobs| - 1]);
    }
  }

  // ----- following the cursor to the end -----

  function Concat(pages: seq<seq<Key>>): seq<Key> {
    if pages == [] then [] else pages[0] + Concat(pages[1..])
  }

  /** A client's walk: one table per fetch, each page starting at the cursor of the one before,
      until a page hands out none. */
  ghost predicate IsWalk(tables: seq<set<Key>>, pages: seq<seq<Key>>, cursor: Option<Key>, limit: nat) {
    && limit >= 1 && |tables| == |pages| && |pages| > 0
    && pages[0] == Page(tables[0], cursor, limit)
    && (var next := NextCursor(pages[0], limit);
        if next.Some? then IsWalk(tables[1..], pages[1..], next, limit) else |pages| == 1)
  }

  function KeysOf(tables: seq<map<string, Row>>): seq<set<Key>> {
    seq(|tables|, i requires 0 <= i < |tables| => Keys(tables[i]))
  }

  /** Rows are only ever inserted between fetches. */
  ghost predicate Growing(tables: seq<set<Key>>) {
    forall i, j :: 0 <= i <= j < |tables| ==> tables[i] <= tables[j]
  }

  /** Cutting a descending sequence: what follows the cut is what is older than its last key. */
  lemma CutDescending(all: seq<Key>, n: nat, k: Key)
    requires Descending(all) && 1 <= n <= |all|
    ensures k in all[n..] <==> k in all && Older(k, all[n - 1])
  {
    OlderIsATotalOrder(k, k, k);
    if k in all[n..] {
      var i :| 0 <= i < |all| - n && all[n..][i] == k;
      assert all[n + i] == k;
    }
    if k in all && Older(k, all[n - 1]) {
      var i :| 0 <= i < |all| && all[i] == k;
      if i < n {
        OlderIsATotalOrder(k, all[n - 1], k);
      } else {
        assert all[n..][i - n] == k;
      }
    }
  }

  /** A full page and the rest of the table: the rest is what lies below the page's last key. */
  lemma FullPage(keys: set<Key>, cursor: Option<Key>, limit: nat)
    requires limit >= 1 && |Page(keys, cursor, limit)| == limit
    ensures var page := Page(keys, cursor, limit);
            var rest := Below(keys, Some(page[limit - 1]));
            && Descending(page) && (forall k :: k in page ==> k in Below(keys, cursor))
            && Sorted(Below(keys, cursor)) == page + Sorted(rest)
            && (forall k :: k in Below(keys, cursor) ==> k in page || k in rest)
  {
    var all := Sorted(Below(keys, cursor));
    assert Page(keys, cursor, limit) == all[..limit];
    hide Sorted, Below, Page;
    SortedDescends(Below(keys, cursor));
    TailIsRest(keys, cursor, all, limit);
    SplitAtPage(all, limit, Below(keys, Some(all[limit - 1])));
  }

  lemma SplitAtPage(all: seq<Key>, n: nat, rest: set<Key>)
    requires n <= |all| && Descending(all[n..]) && forall k :: k in all[n..] <==> k in rest
    ensures all == all[..n] + Sorted(rest)
  {
    SortedDescends(rest);
    hide Sorted, Descending;
    DescendingIsUnique(all[n..], Sorted(rest));
  }

  lemma TailIsRest(keys: set<Key>, cursor: Option<Key>, all: seq<Key>, limit: nat)
    requires Descending(all) && 1 <= limit <= |all| && forall k :: k in all <==> k in Below(keys, cursor)
    ensures Descending(all[..limit]) && Descending(all[limit..])
    ensures forall k :: k in all[limit..] <==> k in Below(keys, Some(all[limit - 1]))
    ensures forall k :: k in all[..limit] ==> k in Below(keys, cursor)
    ensures forall k :: k in Below(keys, cursor) ==> k in all[..limit] || k in all[limit..]
  {
    var last := all[limit - 1];
    assert last in all && all == all[..limit] + all[limit..];
    forall k ensures k in all[limit..] <==> k in Below(keys, Some(last)) {
      CutDescending(all, limit, k);
      if k in keys && Older(k, last) && cursor.Some? {
        OlderIsATotalOrder(k, last, cursor.value);
      }
    }
  }

  lemma ShortPage(keys: set<Key>, cursor: Option<Key>, limit: nat)
    requires |Page(keys, cursor, limit)| != limit
    ensures Page(keys, cursor, limit) == Sorted(Below(keys, cursor))
    ensures Descending(Page(keys, cursor, limit))
  {
    SortedDescends(Below(keys, cursor));
  }

  lemma DescendingConcat(a: seq<Key>, b: seq<Key>)
    requires Descending(a) && Descending(b) && |a| > 0
    requires forall k :: k in b ==> Older(k, a[|a| - 1])
    ensures Descending(a + b)
  {
    var s := a + b;
    forall i, j | 0 <= i < j < |s| ensures Older(s[j], s[i]) {
      if i < |a| <= j {
        assert s[j] in b;
        OlderIsATotalOrder(s[j], a[|a| - 1], s[i]);
      }
    }
  }

  lemma BelowGrows(first: set<Key>, last: set<Key>, cursor: Option<Key>)
    requires first <= last
    ensures Below(first, cursor) <= Below(last, cursor)
  {}

  lemma BelowTheNextCursor(first: set<Key>, last: set<Key>, cursor: Option<Key>, next: Key, k: Key)
    requires next in Below(first, cursor) && k in Below(last, Some(next))
    ensures Older(k, next) && k in Below(last, cursor)
  {
    if cursor.Some? {
      OlderIsATotalOrder(k, next, cursor.value);
    }
  }

  lemma WalkUnfolds(tables: seq<set<Key>>, pages: seq<seq<Key>>, cursor: Option<Key>, limit: nat)
    requires IsWalk(tables, pages, cursor, limit)
    ensures limit >= 1 && |tables| == |pages| && |pages| > 0 && pages[0] == Page(tables[0], cursor, limit)
    ensures if |pages[0]| == limit then
              |pages| > 1 && IsWalk(tables[1..], pages[1..], Some(pages[0][limit - 1]), limit)
            else |pages| == 1
  {}

  /** A full page before what the rest of a walk sees. */
  lemma PageThenRest(first: set<Key>, second: set<Key>, last: set<Key>, cursor: Option<Key>, limit: nat, rest: seq<Key>)
    requires limit >= 1 && |Page(first, cursor, limit)| == limit && first <= second <= last && Descending(rest)
    requires var next := Some(Page(first, cursor, limit)[limit - 1]);
             && (forall k :: k in Below(second, next) ==> k in rest)
             && (forall k :: k in rest ==> k in Below(last, next))
    ensures var seen := Page(first, cursor, limit) + rest;
            && Descending(seen)
            && (forall k :: k in Below(first, cursor) ==> k in seen)
            && (forall k :: k in seen ==> k in Below(last, cursor))
  {
    hide Page, Sorted, Below, Descending;
    var page := Page(first, cursor, limit);
    var next := page[limit - 1];
    assert Descending(page + rest) by {
      FullPage(first, cursor, limit);
      forall k | k in rest ensures Older(k, next) {
        BelowTheNextCursor(first, last, cursor, next, k);
      }
      DescendingConcat(page, rest);
    }
    forall k | k in Below(first, cursor) ensures k in page + rest {
      FullPage(first, cursor, limit);
      BelowGrows(first, second, Some(next));
    }
    forall k | k in page + rest ensures k in Below(last, cursor) {
      FullPage(first, cursor, limit);
      if k in page {
        BelowGrows(first, last, cursor);
      } else {
        BelowTheNextCursor(first, last, cursor, next, k);
      }
    }
  }

  /** What the order of a listing is: later jobs first, and of jobs created at the same time those
      with the greater id. */
  lemma NewestComeFirst(s: seq<Key>, i: nat, j: nat)
    requires Descending(s) && i < j < |s|
    ensures s[i].createdAt >= s[j].createdAt
    ensures s[i].createdAt == s[j].createdAt ==> Text.Less(s[j].id, s[i].id)
  {}

  /** Under growth: the pages together descend strictly, so no row comes twice; every row that
      was there at the first fetch comes; every row that comes is in the table at the end. */
  lemma {:induction false} WalkSeesEverythingOnce(tables: seq<set<Key>>, pages: seq<seq<Key>>, cursor: Option<Key>, limit: nat)
    requires IsWalk(tables, pages, cursor, limit) && Growing(tables)
    ensures Descending(Concat(pages))
    ensures forall k :: k in Below(tables[0], cursor) ==> k in Concat(pages)
    ensures forall k :: k in Concat(pages) ==> k in Below(tables[|tables| - 1], cursor)
    decreases |pages|
  {
    WalkUnfolds(tables, pages, cursor, limit);
    hide IsWalk, NextCursor, Page, Sorted, Below, Descending;
    if |pages[0]| == limit {
      WalkSeesEverythingOnce(tables[1..], pages[1..], Some(pages[0][limit - 1]), limit);
      PageThenRest(tables[0], tables[1], tables[|tables| - 1], cursor, limit, Concat(pages[1..]));
    } else {
      ShortPage(tables[0], cursor, limit);
      assert pages[1..] == [];
      assert Concat(pages) == pages[0];
      assert tables[|tables| - 1] == tables[0];
    }
  }

  /** No row comes twice: positions in a strictly descending walk are distinct. */
  lemma NoRowTwice(s: seq<Key>, i: nat, j: nat)
    requires Descending(s) && i < |s| && j < |s| && s[i] == s[j]
    ensures i == j
  {
    OlderIsATotalOrder(s[i], s[i], s[i]);
  }

  /** On a table that does not change, the pages together are the whole table in order. */
  lemma {:induction false} WalkOfFixedTable(table: set<Key>, tables: seq<set<Key>>, pages: seq<seq<Key>>,
                                            cursor: Option<Key>, limit: nat)
    requires IsWalk(tables, pages, cursor, limit) && forall i :: 0 <= i < |tables| ==> tables[i] == table
    ensures Concat(pages) == Sorted(Below(table, cursor))
    decreases |pages|
  {
    WalkUnfolds(tables, pages, cursor, limit);
    hide IsWalk, NextCursor;
    if |pages[0]| == limit {
      FullPage(table, cursor, limit);
      WalkOfFixedTable(table, tables[1..], pages[1..], Some(pages[0][limit - 1]), limit);
    } else {
      ShortPage(table, cursor, limit);
      assert pages[1..] == [];
    }
  }

  /** The jobs a client was given, page by page, each from the table of its fetch. */
  ghost predicate JobsSeen(jobs: seq<JobRecord>, pages: seq<seq<Key>>, tables: seq<map<string, Row>>) {
    |pages| <= |tables| &&
    if pages == [] then jobs == []
    else
      && |pages[0]| <= |jobs|
      && JobsOf(jobs[..|pages[0]|], pages[0], tables[0])
      && JobsSeen(jobs[|pages[0]|..], pages[1..], tables[1..])
  }

  /** The pages a client gets that follows the cursor it is given, one table per call. */
  ghost function PagesOf(tables: seq<map<string, Row>>, limit: nat, cursor: Option<Key>): seq<seq<Key>> {
    if tables == [] then []
    else
      var page := Page(Keys(tables[0]), cursor, limit);
      var next := NextCursor(page, limit);
      [page] + if next.None? then [] else PagesOf(tables[1..], limit, next)
  }

  /** Whether it is given no cursor before the tables run out. */
  ghost predicate ReachesEnd(tables: seq<map<string, Row>>, limit: nat, cursor: Option<Key>) {
    tables != [] &&
    var next := NextCursor(Page(Keys(tables[0]), cursor, limit), limit);
    next.None? || ReachesEnd(tables[1..], limit, next)
  }

  /** A client that calls ListJobs with the cursor it was given until it is given none. The
      table may change between calls. */
  method FollowCursor(tables: seq<map<string, Row>>, limit: nat, start: Option<Key>)
    returns (jobs: seq<JobRecord>, done: bool)
    requires limit >= 1
    ensures JobsSeen(jobs, PagesOf(tables, limit, start), tables)
    ensures done <==> ReachesEnd(tables, limit, start)
    decreases |tables|
  {
    if |tables| == 0 {
      return [], false;
    }
    var next;
    jobs, next := ListJobs(tables[0], limit, start);
    ghost var page := Page(Keys(tables[0]), start, limit);
    hide JobsSeen, JobsOf, Page, Keys, NextCursor;
    if next.None? {
      OnePage(tables, jobs, page);
      return jobs, true;
    }
    var more;
    more, done := FollowCursor(tables[1..], limit, next);
    MorePages(tables, jobs, page, more, PagesOf(tables[1..], limit, next));
    jobs := jobs + more;
  }

  lemma OnePage(tables: seq<map<string, Row>>, jobs: seq<JobRecord>, page: seq<Key>)
    requires |tables| > 0 && JobsOf(jobs, page, tables[0])
    ensures JobsSeen(jobs, [page], tables)
  {
    assert jobs[..|page|] == jobs;
  }

  lemma MorePages(tables: seq<map<string, Row>>, jobs: seq<JobRecord>, page: seq<Key>, more: seq<JobRecord>, rest: seq<seq<Key>>)
    requires |tables| > 0 && JobsOf(jobs, page, tables[0]) && JobsSeen(more, rest, tables[1..])
    ensures JobsSeen(jobs + more, [page] + rest, tables)
    ensures |rest| < |tables|
  {
    assert (jobs + more)[..|page|] == jobs && (jobs + more)[|page|..] == more && ([page] + rest)[1..] == rest;
  }

  lemma WalkGoesOn(tables: seq<map<string, Row>>, page: seq<Key>, rest: seq<seq<Key>>, cursor: Option<Key>, limit: nat)
    requires limit >= 1 && 1 + |rest| <= |tables| && page == Page(Keys(tables[0]), cursor, limit)
    requires NextCursor(page, limit).Some?
    requires IsWalk(KeysOf(tables[1..][..|rest|]), rest, NextCursor(page, limit), limit)
    ensures IsWalk(KeysOf(tables[..1 + |rest|]), [page] + rest, cursor, limit)
  {
    assert tables[..1 + |rest|][1..] == tables[1..][..|rest|];
    assert KeysOf(tables[..1 + |rest|])[1..] == KeysOf(tables[1..][..|rest|]);
    assert ([page] + rest)[1..] == rest;
  }

  /** Its pages make a walk. */
  lemma {:induction false} PagesAreAWalk(tables: seq<map<string, Row>>, limit: nat, cursor: Option<Key>)
    requires limit >= 1 && ReachesEnd(tables, limit, cursor)
    ensures var pages := PagesOf(tables, limit, cursor);
            |pages| <= |tables| && IsWalk(KeysOf(tables[..|pages|]), pages, cursor, limit)
    decreases |tables|
  {
    hide Page, Keys;
    var page := Page(Keys(tables[0]), cursor, limit);
    var next := NextCursor(page, limit);
    if next.None? {
      assert KeysOf(tables[..1]) == [Keys(tables[0])];
    } else {
      PagesAreAWalk(tables[1..], limit, next);
      hide IsWalk, KeysOf, NextCursor;
      WalkGoesOn(tables, page, PagesOf(tables[1..], limit, next), cursor, limit);
    }
  }

  /** If the table only grows meanwhile, a client that reaches the end has seen every job that
      was there at its first call, none twice, newest first. */
  lemma ClientSeesEverythingOnce(tables: seq<map<string, Row>>, limit: nat)
    requires limit >= 1 && ReachesEnd(tables, limit, None) && Growing(KeysOf(tables))
    ensures var keys := Concat(PagesOf(tables, limit, None));
            && Descending(keys)
            && (forall k :: k in Keys(tables[0]) ==> k in keys)
            && (forall k :: k in keys ==> exists i :: 0 <= i < |tables| && k in Keys(tables[i]))
  {
    PagesAreAWalk(tables, limit, None);
    var pages := PagesOf(tables, limit, None);
    var seen := KeysOf(tables[..|pages|]);
    assert forall i :: 0 <= i < |seen| ==> seen[i] == KeysOf(tables)[i] == Keys(tables[i]);
    hide ReachesEnd, PagesOf, KeysOf, Page, IsWalk, Descending, Concat, Keys;
    WalkSeesEverythingOnce(seen, pages, None, limit);
  }
}
