/** The keyset sweep of FaucetDatabase.cleanStoreBounded (src/db/FaucetDatabase.ts:528-578) over
    the sessions that ended before the cut-off. Rows that a guard keeps must not hide later ones. */
module CleanupSweep {
  import opened Wrappers

  const BATCH_SIZE: nat := 100
  const RUN_LIMIT: nat := 1000

  /** The key of the index; session ids are numbered in the database's own order. */
  datatype Key = Key(startTime: int, sessionId: int)

  predicate Less(a: Key, b: Key) {
    a.startTime < b.startTime || (a.startTime == b.startTime && a.sessionId < b.sessionId)
  }

  /** The WHERE clause the cursor adds. */
  predicate After(cursor: Option<Key>, k: Key) { cursor.None? || Less(cursor.value, k) }

  predicate Increasing(s: seq<Key>) { forall i, j :: 0 <= i < j < |s| ==> Less(s[i], s[j]) }

  /** The first rows after the cursor, in key order. */
  predicate IsBatch(rows: set<Key>, cursor: Option<Key>, limit: nat, b: seq<Key>) {
    && |b| <= limit && Increasing(b)
    && (forall i :: 0 <= i < |b| ==> b[i] in rows && After(cursor, b[i]))
    && (forall k :: k in rows && After(cursor, k) && k !in b ==> |b| == limit && (limit > 0 ==> Less(b[limit - 1], k)))
  }

  datatype Verdict = Deleted | Kept | Threw

  class SessionRows {
    var ended: set<Key>
    ghost var gone: set<Key>

    constructor (ended: set<Key>)
      ensures this.ended == ended && gone == {}
    {
      this.ended, gone := ended, {};
    }

    /** Other tasks: a session may end, but an ended one changes no more and only the sweep
        deletes it. Callers know only the contract. */
    method OtherTasks()
      modifies this`ended
      ensures old(ended) <= ended
    {
    }

    method Smallest(candidates: set<Key>) returns (k: Key)
      requires candidates != {}
      ensures k in candidates && forall x :: x in candidates && x != k ==> Less(k, x)
    {
      k :| k in candidates;
      var rest := candidates - {k};
      while rest != {}
        invariant k in candidates && k !in rest && rest <= candidates
        invariant forall x :: x in candidates && x !in rest && x != k ==> Less(k, x)
        decreases rest
      {
        var x :| x in rest;
        rest := rest - {x};
        if Less(x, k) { k := x; }
      }
    }

    /** selectSessionCleanupBatch */
    method SelectBatch(cursor: Option<Key>, limit: nat) returns (b: seq<Key>)
      ensures IsBatch(ended, cursor, limit, b)
    {
      b := [];
      var rest := set k | k in ended && After(cursor, k);
      while rest != {} && |b| < limit
        invariant |b| <= limit && Increasing(b)
        invariant forall k :: k in rest ==> k in ended && After(cursor, k) && k !in b
        invariant forall k :: k in ended && After(cursor, k) && k !in b ==> k in rest
        invariant forall i :: 0 <= i < |b| ==> b[i] in ended && After(cursor, b[i])
        invariant forall i, k :: 0 <= i < |b| && k in rest ==> Less(b[i], k)
        decreases rest
      {
        var k := Smallest(rest);
        b := b + [k];
        rest := rest - {k};
      }
    }

    /** cleanupSessionCandidate: guards decide, and any step may fail. */
    method CleanupCandidate(k: Key) returns (v: Verdict)
      modifies this
      ensures old(ended) <= ended + gone && old(gone) <= gone <= old(gone) + {k}
      ensures v == Deleted ==> k in gone
      ensures v == Kept ==> gone == old(gone)
    {
      OtherTasks();
      v := *;
      var committed: bool := *;
      if v == Deleted || (v == Threw && committed) {
        ended := ended - {k};
        gone := gone + {k};
      }
    }
  }

  /** Every row of start behind from, up to the cursor, has been visited or deleted; what lies
      beyond the cursor is still there. */
  ghost predicate Swept(start: set<Key>, rows: set<Key>, gone: set<Key>, from: Option<Key>, cursor: Option<Key>, visited: seq<Key>) {
    && Increasing(visited)
    && (forall i :: 0 <= i < |visited| ==> After(from, visited[i]))
    && cursor == (if visited == [] then from else Some(visited[|visited| - 1]))
    && (forall k :: k in start && After(from, k) && !After(cursor, k) ==> k in visited || k in gone)
    && (forall k :: k in start && After(cursor, k) ==> k in rows || k in gone)
  }

  /** All of start behind from has been visited or deleted. */
  ghost predicate Complete(start: set<Key>, gone: set<Key>, from: Option<Key>, visited: seq<Key>) {
    forall k :: k in start && After(from, k) ==> k in visited || k in gone
  }

  lemma VisitKeeps(start: set<Key>, rows: set<Key>, gone: set<Key>, rows': set<Key>, gone': set<Key>,
                   from: Option<Key>, cursor: Option<Key>, visited: seq<Key>, k: Key)
    requires Swept(start, rows, gone, from, cursor, visited) && After(cursor, k)
    requires forall x :: x in start && After(cursor, x) && !After(Some(k), x) && x !in gone ==> x == k
    requires rows <= rows' + gone' && gone <= gone'
    ensures Swept(start, rows', gone', from, Some(k), visited + [k])
  {
    var next := visited + [k];
    forall i, j | 0 <= i < j < |next| ensures Less(next[i], next[j]) {
      if j == |visited| && i < |visited| - 1 { assert Less(visited[i], visited[|visited| - 1]); }
    }
    forall x | x in start && After(from, x) && !After(Some(k), x) ensures x in next || x in gone' {
      if After(cursor, x) && x !in gone { assert next[|visited|] == x; }
      else if x !in gone { assert x in visited; }
    }
  }

  /** Between a batch's candidates no row of start is skipped. */
  lemma NoneSkipped(start: set<Key>, rows: set<Key>, gone: set<Key>, cursor: Option<Key>, limit: nat, b: seq<Key>, j: nat, x: Key)
    requires IsBatch(rows, cursor, limit, b) && j < |b|
    requires forall k :: k in start && After(cursor, k) ==> k in rows || k in gone
    requires x in start && x !in gone && After(if j == 0 then cursor else Some(b[j - 1]), x) && !After(Some(b[j]), x)
    ensures x == b[j]
  {
    assert After(cursor, x) by { if j > 0 { assert After(cursor, b[j - 1]); } }
    assert x in b;
    var m :| 0 <= m < |b| && b[m] == x;
    assert m >= j;
  }

  /** A batch that was not full was the last one. */
  lemma LastBatch(start: set<Key>, rows: set<Key>, gone: set<Key>, rows': set<Key>, gone': set<Key>, from: Option<Key>,
                  cursor: Option<Key>, limit: nat, b: seq<Key>, visited: seq<Key>)
    requires IsBatch(rows, cursor, limit, b) && |b| < limit && gone <= gone'
    requires forall k :: k in start && After(cursor, k) ==> k in rows || k in gone
    requires Swept(start, rows', gone', from, if b == [] then cursor else Some(b[|b| - 1]), visited)
    ensures Complete(start, gone', from, visited)
  {
    var last := if b == [] then cursor else Some(b[|b| - 1]);
    assert forall k :: After(last, k) ==> After(cursor, k);
    forall k | k in start && After(from, k) ensures k in visited || k in gone' {
      if After(cursor, k) && k !in gone {
        var m :| 0 <= m < |b| && b[m] == k;
        assert !After(last, k);
      }
    }
  }

  class Sweeper {
    const db: SessionRows
    var cursor: Option<Key>

    constructor (db: SessionRows)
      ensures this.db == db && cursor.None?
    {
      this.db, cursor := db, None;
    }

    /** The candidates of one batch in turn; the cursor follows each one that did not throw. */
    method VisitBatch(b: seq<Key>, limit: nat, ghost start: set<Key>, ghost from: Option<Key>, visited: seq<Key>)
        returns (ok: bool, now: seq<Key>)
      requires Swept(start, db.ended, db.gone, from, cursor, visited) && IsBatch(db.ended, cursor, limit, b)
      modifies this`cursor, db
      ensures Swept(start, db.ended, db.gone, from, cursor, now) && old(db.gone) <= db.gone
      ensures |now| <= |visited| + |b| && (ok ==> |now| == |visited| + |b|)
      ensures ok && |b| < limit ==> Complete(start, db.gone, from, now)
      ensures ok && b != [] ==> cursor == Some(b[|b| - 1])
    {
      ghost var rows, gone, first := db.ended, db.gone, cursor;
      now := visited;
      for j := 0 to |b|
        invariant cursor == if j == 0 then first else Some(b[j - 1])
        invariant Swept(start, db.ended, db.gone, from, cursor, now) && gone <= db.gone
        invariant |now| == |visited| + j
      {
        ghost var rowsNow, goneNow := db.ended, db.gone;
        var v := db.CleanupCandidate(b[j]);
        if v == Threw { return false, now; }
        assert After(cursor, b[j]) by { if j > 0 { assert Less(b[j - 1], b[j]); } }
        forall x | x in start && After(cursor, x) && !After(Some(b[j]), x) && x !in goneNow ensures x == b[j] {
          NoneSkipped(start, rows, gone, first, limit, b, j, x);
        }
        VisitKeeps(start, rowsNow, goneNow, db.ended, db.gone, from, cursor, now, b[j]);
        cursor := Some(b[j]);
        now := now + [b[j]];
      }
      ok := true;
      if |b| < limit { LastBatch(start, rows, gone, db.ended, db.gone, from, first, limit, b, now); }
    }

    /** cleanStoreBounded. A run visits rows in key order, each at most once and at most RUN_LIMIT
        of them, skipping none that had ended before. It either reaches the end, and the next run
        starts over, or has used up its limit, and the next run goes on where this one stopped; a
        candidate that throws ends the run in front of it. wrapped tells that nothing was left
        behind the old cursor, so that the run began at the start. */
    method CleanStoreBounded() returns (ok: bool, visited: seq<Key>, wrapped: bool)
      modifies this`cursor, db
      ensures |visited| <= RUN_LIMIT && Increasing(visited) && old(db.gone) <= db.gone
      ensures wrapped ==> old(cursor).Some? && forall k :: k in old(db.ended) ==> !After(old(cursor), k)
      ensures var from := if wrapped then None else old(cursor);
              if ok && cursor.None? then Complete(old(db.ended), db.gone, from, visited)
              else Swept(old(db.ended), db.ended, db.gone, from, cursor, visited)
      ensures ok && cursor.Some? ==> |visited| == RUN_LIMIT
    {
      ghost var start, from := db.ended, cursor;
      wrapped, ok, visited := false, true, [];
      while |visited| < RUN_LIMIT
        invariant |visited| <= RUN_LIMIT && old(db.gone) <= db.gone
        invariant from == if wrapped then None else old(cursor)
        invariant wrapped ==> old(cursor).Some? && forall k :: k in start ==> !After(old(cursor), k)
        invariant Swept(start, db.ended, db.gone, from, cursor, visited)
        invariant visited == [] && !wrapped ==> start <= db.ended
        decreases RUN_LIMIT - |visited|, if cursor.Some? then 1 else 0
      {
        var remaining := RUN_LIMIT - |visited|;
        var batchLimit := if BATCH_SIZE < remaining then BATCH_SIZE else remaining;
        db.OtherTasks();
        var batchCursor := cursor;
        var candidates := db.SelectBatch(batchCursor, batchLimit);
        if candidates == [] {
          cursor := None;
          if batchCursor.Some? && visited == [] {
            wrapped, from := true, None;
            continue;
          }
          LastBatch(start, db.ended, db.gone, db.ended, db.gone, from, batchCursor, batchLimit, candidates, visited);
          break;
        }
        ok, visited := VisitBatch(candidates, batchLimit, start, from, visited);
        if !ok { return; }
        if |candidates| < batchLimit {
          cursor := None;
          break;
        }
      }
    }
  }

  /** A run from where the runs before stopped carries the coverage on. */
  lemma RunExtends(start: set<Key>, rows: set<Key>, gone: set<Key>, rows': set<Key>, gone': set<Key>, first: Option<Key>,
                   cursor: Option<Key>, visited: seq<Key>, run: seq<Key>)
    requires Swept(start, rows, gone, None, first, visited) && gone <= gone'
    requires Swept(rows, rows', gone', first, cursor, run)
    ensures Swept(start, rows', gone', None, cursor, visited + run)
  {
    var all := visited + run;
    forall i, j | 0 <= i < j < |all| ensures Less(all[i], all[j]) {
      if i < |visited| <= j {
        assert After(first, run[j - |visited|]);
        assert i < |visited| - 1 ==> Less(visited[i], visited[|visited| - 1]);
      }
    }
    forall k | k in start && !After(cursor, k) ensures k in all || k in gone' {
      if !After(first, k) { assert k in visited || k in gone; }
    }
  }

  lemma CycleEnds(start: set<Key>, rows: set<Key>, gone: set<Key>, gone': set<Key>, first: Option<Key>, visited: seq<Key>, run: seq<Key>)
    requires Swept(start, rows, gone, None, first, visited) && gone <= gone'
    requires Complete(rows, gone', first, run)
    ensures forall k :: k in start ==> k in visited + run || k in gone'
  {
    forall k | k in start ensures k in visited + run || k in gone' {
      if !After(first, k) { assert k in visited || k in gone; }
    }
  }

  /** Sweeping on until a run reaches the end, at most n times and as long as nothing throws:
      either every row that had ended at the beginning was visited or deleted, or n full runs
      visited RUN_LIMIT rows each. Kept rows cannot starve the ones behind them. */
  method SweepCycle(s: Sweeper, n: nat) returns (finished: bool, thrown: bool, visited: seq<Key>)
    requires s.cursor.None?
    modifies s`cursor, s.db
    ensures finished ==> forall k :: k in old(s.db.ended) ==> k in visited || k in s.db.gone
    ensures !finished && !thrown ==> |visited| == n * RUN_LIMIT && Increasing(visited)
  {
    ghost var start := s.db.ended;
    finished, thrown, visited := false, false, [];
    for i := 0 to n
      invariant !finished && !thrown && |visited| == i * RUN_LIMIT
      invariant Swept(start, s.db.ended, s.db.gone, None, s.cursor, visited)
    {
      ghost var rows, gone, first := s.db.ended, s.db.gone, s.cursor;
      var ok, run, wrapped := s.CleanStoreBounded();
      if wrapped || (ok && s.cursor.None?) {
        if wrapped { assert Complete(rows, s.db.gone, first, []); CycleEnds(start, rows, gone, s.db.gone, first, visited, []); }
        else { CycleEnds(start, rows, gone, s.db.gone, first, visited, run); }
        return true, !ok, visited + run;
      }
      RunExtends(start, rows, gone, s.db.ended, s.db.gone, first, s.cursor, visited, run);
      visited := visited + run;
      if !ok { return false, true, visited; }
    }
  }
}
