/** The rows one tick of the resume poller reads: GetJobsToResume, whose ORDER BY leaves rows
    with equal times in any order. */
module Polling {
  import opened Wrappers
  import opened Jobs
  import opened Rows

  /** LIMIT of the poller's query. */
  const BATCH := 100

  function DueIds(rows: map<string, Row>, now: int): set<string> {
    set id | id in rows && rows[id].Due(now)
  }

  predicate NoLater(rows: map<string, Row>, a: string, b: string) {
    && a in rows && rows[a].resumeAt.Some? && b in rows && rows[b].resumeAt.Some?
    && rows[a].resumeAt.value <= rows[b].resumeAt.value
  }

  /** One way to write these rows down in the order of their resume times. */
  ghost predicate InResumeOrder(rows: map<string, Row>, ids: set<string>, s: seq<string>) {
    && (forall id :: id in s <==> id in ids)
    && (forall i, j :: 0 <= i < j < |s| ==> s[i] != s[j] && NoLater(rows, s[i], s[j]))
  }

  /** What the query may answer. */
  ghost predicate IsBatch(rows: map<string, Row>, now: int, limit: nat, batch: seq<string>) {
    exists all :: InResumeOrder(rows, DueIds(rows, now), all) && batch == if |all| <= limit then all else all[..limit]
  }

  /** The same, said of the batch alone: due rows without repetition, earliest first, and
      every due row it leaves out is no earlier than all it holds, and finds it full. */
  ghost predicate EarliestDue(rows: map<string, Row>, now: int, limit: nat, batch: seq<string>) {
    && |batch| <= limit
    && InResumeOrder(rows, (set id | id in batch), batch)
    && (forall id :: id in batch ==> id in DueIds(rows, now))
    && (forall id :: id in DueIds(rows, now) && id !in batch ==>
          |batch| == limit && forall b :: b in batch ==> NoLater(rows, b, id))
  }

  lemma {:induction false} OrderExists(rows: map<string, Row>, ids: set<string>) returns (s: seq<string>)
    requires forall id :: id in ids ==> id in rows && rows[id].resumeAt.Some?
    ensures InResumeOrder(rows, ids, s)
    decreases |ids|
  {
    if ids == {} {
      s := [];
    } else {
      var first := EarliestExists(rows, ids);
      var rest := OrderExists(rows, ids - {first});
      s := [first] + rest;
      forall i, j | 0 <= i < j < |s| ensures s[i] != s[j] && NoLater(rows, s[i], s[j]) {
        assert s[j] == rest[j - 1] && s[j] in ids - {first};
        if i > 0 {
          assert s[i] == rest[i - 1];
        }
      }
    }
  }

  lemma {:induction false} EarliestExists(rows: map<string, Row>, ids: set<string>) returns (first: string)
    requires ids != {} && forall id :: id in ids ==> id in rows && rows[id].resumeAt.Some?
    ensures first in ids && forall id :: id in ids ==> NoLater(rows, first, id)
    decreases |ids|
  {
    var x :| x in ids;
    if ids == {x} {
      first := x;
    } else {
      var y := EarliestExists(rows, ids - {x});
      first := if NoLater(rows, x, y) then x else y;
      forall id | id in ids ensures NoLater(rows, first, id) {
        if id != x {
          assert id in ids - {x};
        }
      }
    }
  }

  /** Each poll batch is the earliest-due part of the due rows, and any such part may come. */
  lemma BatchIsTheEarliestDue(rows: map<string, Row>, now: int, limit: nat, batch: seq<string>)
    ensures IsBatch(rows, now, limit, batch) <==> EarliestDue(rows, now, limit, batch)
  {
    if IsBatch(rows, now, limit, batch) {
      var all :| InResumeOrder(rows, DueIds(rows, now), all) && batch == if |all| <= limit then all else all[..limit];
      PrefixIsEarliest(rows, now, limit, batch, all);
    }
    if EarliestDue(rows, now, limit, batch) {
      EarliestIsPrefix(rows, now, limit, batch);
    }
  }

  lemma PrefixIsEarliest(rows: map<string, Row>, now: int, limit: nat, batch: seq<string>, all: seq<string>)
    requires InResumeOrder(rows, DueIds(rows, now), all) && batch == if |all| <= limit then all else all[..limit]
    ensures EarliestDue(rows, now, limit, batch)
  {
    hide DueIds, NoLater;
    forall id | id in batch ensures id in all {}
    forall id | id in DueIds(rows, now) && id !in batch
      ensures |batch| == limit && forall b :: b in batch ==> NoLater(rows, b, id)
    {
      var tail := all[|batch|..];
      assert all == batch + tail && id in tail;
      var j :| 0 <= j < |tail| && tail[j] == id;
      assert all[|batch| + j] == id;
      forall b | b in batch ensures NoLater(rows, b, id) {
        var i :| 0 <= i < |batch| && batch[i] == b;
        assert all[i] == b;
      }
    }
  }

  lemma EarliestIsPrefix(rows: map<string, Row>, now: int, limit: nat, batch: seq<string>)
    requires EarliestDue(rows, now, limit, batch)
    ensures IsBatch(rows, now, limit, batch)
  {
    var left := set id | id in DueIds(rows, now) && id !in batch;
    var rest := OrderExists(rows, left);
    var all := batch + rest;
    assert |rest| > 0 ==> rest[0] in left;
    assert batch == if |all| <= limit then all else all[..limit];
    assert InResumeOrder(rows, DueIds(rows, now), all) by {
      hide NoLater, DueIds;
      forall i, j | 0 <= i < j < |all| ensures all[i] != all[j] && NoLater(rows, all[i], all[j]) {
        if i < |batch| <= j {
          assert all[i] in batch && rest[j - |batch|] in left;
        } else if i >= |batch| {
          assert all[i] == rest[i - |batch|] && all[j] == rest[j - |batch|];
        }
      }
    }
  }
}
