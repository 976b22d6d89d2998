/** The hand-over of a session from the in-memory ledger to the database, as
    src/modules/github/GithubModule.ts reads it: ledger first, database second. */
module HandOver {
  import opened Wrappers
  import opened AdmissionData
  import opened AdmissionBound
  import opened AdmissionService
  import opened AdmissionTable

  /** A row the database query returns; session ids are a primary key. */
  datatype Stored = Stored(sessionId: string, startTime: int, dropAmount: nat)

  datatype Restriction = Restriction(duration: nat, limitCount: int, limitAmount: int)

  predicate Distinct(rows: seq<Stored>) { forall i, j :: 0 <= i < j < |rows| ==> rows[i].sessionId != rows[j].sessionId }

  function Ids(rows: seq<Stored>): set<string> { set i | 0 <= i < |rows| :: rows[i].sessionId }

  function SumRows(rows: seq<Stored>): nat
    decreases |rows|
  {
    if rows == [] then 0 else SumRows(rows[..|rows| - 1]) + rows[|rows| - 1].dropAmount
  }

  /** Everyone counted, with the amount they are counted at: a committed session with what it
      was granted, any other prior session with its ceiling. */
  ghost function Counted(usage: Usage, rows: seq<Stored>): map<string, nat> {
    AmountsOf(rows) + (usage.amounts - Ids(rows))
  }

  function AmountsOf(rows: seq<Stored>): map<string, nat>
    decreases |rows|
  {
    if rows == [] then map[] else AmountsOf(rows[..|rows| - 1])[rows[|rows| - 1].sessionId := rows[|rows| - 1].dropAmount]
  }

  lemma IdsLast(rows: seq<Stored>)
    requires Distinct(rows) && rows != []
    ensures var front, last := rows[..|rows| - 1], rows[|rows| - 1];
            Distinct(front) && last.sessionId !in Ids(front) && Ids(rows) == Ids(front) + {last.sessionId}
  {
    var front := rows[..|rows| - 1];
    assert forall i :: 0 <= i < |front| ==> rows[i] == front[i];
    forall x | x in Ids(rows) ensures x in Ids(front) + {rows[|rows| - 1].sessionId} {
      var i :| 0 <= i < |rows| && rows[i].sessionId == x;
      assert i < |front| ==> front[i].sessionId == x;
    }
  }

  lemma {:induction false} AmountsOfRows(rows: seq<Stored>)
    requires Distinct(rows)
    ensures AmountsOf(rows).Keys == Ids(rows) && |Ids(rows)| == |rows|
    ensures Total(AmountsOf(rows)) == SumRows(rows)
    decreases |rows|
  {
    if rows != [] {
      var front, last := rows[..|rows| - 1], rows[|rows| - 1];
      IdsLast(rows);
      AmountsOfRows(front);
      TotalAdd(AmountsOf(front), last.sessionId, last.dropAmount);
    }
  }

  lemma PlusMinus(a: map<string, nat>, b: map<string, nat>, k: string)
    requires a.Keys !! b.Keys && k in b
    ensures (a + b)[k] == b[k] && (a + b) - {k} == a + (b - {k}) && a.Keys !! (b - {k}).Keys
  {}

  lemma {:induction false} TotalSum(a: map<string, nat>, b: map<string, nat>)
    requires a.Keys !! b.Keys
    ensures Total(a + b) == Total(a) + Total(b)
    decreases |b|
  {
    if b == map[] {
      assert a + b == a;
    } else {
      var k :| k in b;
      PlusMinus(a, b, k);
      TotalSum(a, b - {k});
      TotalSplit(b, k);
      TotalSplit(a + b, k);
    }
  }

  lemma CountedFacts(usage: Usage, rows: seq<Stored>)
    requires Distinct(rows)
    ensures var all := Counted(usage, rows);
            && all.Keys == usage.amounts.Keys + Ids(rows)
            && |all| == |rows| + |usage.amounts.Keys - Ids(rows)|
            && Total(all) == SumRows(rows) + Total(usage.amounts - Ids(rows))
  {
    AmountsOfRows(rows);
    var a, b := AmountsOf(rows), usage.amounts - Ids(rows);
    assert b.Keys == usage.amounts.Keys - Ids(rows);
    TotalSum(a, b);
    KeysOfSum(a, b);
    UnionOfDifference(usage.amounts.Keys, Ids(rows));
  }

  lemma UnionOfDifference(x: set<string>, y: set<string>)
    ensures y + (x - y) == x + y
  {}

  lemma KeysOfSum(a: map<string, nat>, b: map<string, nat>)
    requires a.Keys !! b.Keys
    ensures (a + b).Keys == a.Keys + b.Keys && |a + b| == |a.Keys| + |b.Keys|
  {
    assert |(a + b).Keys| == |a + b|;
  }

  /** checkRestriction: nobody is counted twice, and each is counted at one amount. */
  method CheckRestriction(restriction: Restriction, finished: seq<Stored>, prior: Usage) returns (allowed: bool)
    requires Distinct(finished)
    ensures allowed <==>
              && (restriction.limitCount > 0 ==> |Counted(prior, finished)| < restriction.limitCount)
              && (restriction.limitAmount > 0 ==>
                    prior.provisional * (prior.amounts.Keys - Ids(finished)) == {}
                    && Total(Counted(prior, finished)) < restriction.limitAmount)
    ensures Counted(prior, finished).Keys == prior.amounts.Keys + Ids(finished)
  {
    var active := ExcludeCommittedUsage(prior, Ids(finished));
    CountedFacts(prior, finished);
    var usedCount := |finished| + active.count;
    if restriction.limitCount > 0 && usedCount >= restriction.limitCount { return false; }
    if restriction.limitAmount > 0 {
      var totalAmount := AddAmounts(active.amount, finished);
      if active.provisional || totalAmount >= restriction.limitAmount { return false; }
    }
    allowed := true;
  }

  method AddAmounts(start: nat, finished: seq<Stored>) returns (total: nat)
    ensures total == start + SumRows(finished)
  {
    total := start;
    assert finished[..0] == [];
    for i := 0 to |finished|
      invariant total == start + SumRows(finished[..i])
    {
      assert finished[..i + 1][..i] == finished[..i];
      total := total + finished[i].dropAmount;
    }
    assert finished[..|finished|] == finished;
  }

  // ------------------------------------------------------------------ every run between the reads

  /** getGithubSessions: the sessions of account k that started after since and are not FAILED. */
  predicate Selected(h: House, k: Subject, since: int, t: string) {
    && t in h.rows && t in h.links && h.links[t] == k
    && h.rows[t].startTime > since && Counts(h.rows[t].status)
  }

  /** rows is what the query returns, in any order. */
  ghost predicate IsQuery(h: House, k: Subject, since: int, rows: seq<Stored>) {
    && Distinct(rows)
    && (forall t: string :: t in Ids(rows) <==> Selected(h, k, since, t))
    && (forall i :: 0 <= i < |rows| ==> rows[i].sessionId in h.rows && rows[i].dropAmount == h.rows[rows[i].sessionId].dropAmount)
  }

  /** The usage that s reads from the ledger at now. */
  ghost predicate IsUsage(h: House, s: string, k: Subject, since: int, usage: Usage)
    requires Bound(h.ledger, s, k)
  {
    UsageIs(h.ledger, usage, Prior(h.ledger, s, [k], UsageOptions(Some(since), {})))
  }

  /** t belongs to account k and, while it lives, counts against s. */
  predicate Precedes(h: House, s: string, t: string, k: Subject)
    requires Bound(h.ledger, s, k)
  {
    t in h.accounts && h.accounts[t] == k && t != s && (Live(h, t) ==> CountsAgainst(h.ledger, s, k, t))
  }

  /** How orders of account bindings and facts about single sessions develop in one turn. */
  lemma TurnMoves(h: House, e: Turn, t: string)
    requires TableOk(h) && CanTurn(h, e)
    ensures var v := Turned(h, e);
            && (t in h.starts ==> t in v.starts && v.starts[t] == h.starts[t])
            && (t in h.accounts ==> t in v.accounts && v.accounts[t] == h.accounts[t])
            && (t in h.starts && Live(v, t) ==> Live(h, t))
            && (t in h.committed ==> t in v.committed)
            && (t in v.committed ==> t in h.committed || Live(h, t))
            && v.retention == h.retention && v.clock >= h.clock
  {
    hide IndexOk, BindAll;
    assert RowOk(h, t);
    if e.Call? { CallKeepsAccounts(h, e.op); }
    if e.Identify? { BindAllKeeps(h.ledger, e.t, [e.k]); }
    if e.Release? { ReleaseKeeps(h.ledger, e.t); }
  }

  lemma {:induction false} RunMoves(h: House, es: seq<Turn>, t: string)
    requires TableOk(h) && CanRun(h, es)
    ensures var v := After(h, es);
            && (t in h.starts ==> t in v.starts && v.starts[t] == h.starts[t])
            && (t in h.accounts ==> t in v.accounts && v.accounts[t] == h.accounts[t])
            && (t in h.starts && Live(v, t) ==> Live(h, t))
            && (t in h.committed ==> t in v.committed)
            && (t in h.starts && t in v.committed ==> t in h.committed || Live(h, t))
            && v.retention == h.retention && v.clock >= h.clock
    decreases |es|
  {
    if es != [] {
      TurnKeeps(h, es[0]);
      TurnMoves(h, es[0], t);
      RunMoves(Turned(h, es[0]), es[1..], t);
    }
  }

  /** What becomes of a session of account k: it is returned by the query exactly when it has
      become claimable and neither its claim has failed nor its row was erased. */
  lemma SelectedExactly(h: House, k: Subject, since: int, t: string)
    requires TableOk(h) && t in h.accounts && h.accounts[t] == k
    ensures t in h.starts
    ensures Selected(h, k, since, t) <==> t in h.committed && t !in h.unpaid && t !in h.erased && h.starts[t] > since
  {
    assert RowOk(h, t);
  }

  lemma LiveStart(h: House, t: string)
    requires TableOk(h) && Live(h, t)
    ensures t in h.starts && h.ledger.reservations[t].startTime == h.starts[t]
  {}

  /** A live session of the account that counts against s is in the usage. */
  lemma PriorExactly(h: House, s: string, t: string, k: Subject, since: int)
    requires TableOk(h) && Bound(h.ledger, s, k) && Precedes(h, s, t, k) && h.starts[t] >= since
    ensures t in Prior(h.ledger, s, [k], UsageOptions(Some(since), {})) <==> Live(h, t)
  {
    hide TableOk, IndexOk;
    if Live(h, t) {
      LiveStart(h, t);
      assert k in [k] && CountsAgainst(h.ledger, s, k, t);
    }
  }

  /** Ledger read at h, database read at v, whatever lies between: the counted sessions are those
      of either read, each once, a stored one with what it was granted and any other with its
      ceiling. */
  lemma HandOverCountsOnce(h: House, v: House, s: string, k: Subject, usage: Usage, rows: seq<Stored>, since1: int, since2: int)
    requires Bound(h.ledger, s, k) && IsUsage(h, s, k, since1, usage) && IsQuery(v, k, since2, rows)
    ensures forall t :: t in Counted(usage, rows) <==>
                          t in Prior(h.ledger, s, [k], UsageOptions(Some(since1), {})) || Selected(v, k, since2, t)
    ensures forall t :: t in Counted(usage, rows) ==>
                          Counted(usage, rows)[t] == if Selected(v, k, since2, t) then v.rows[t].dropAmount
                                                     else if Live(h, t) then h.ledger.reservations[t].ceiling else 0
  {
    CountedFacts(usage, rows);
    AmountsOfRows(rows);
    forall t | t in Ids(rows) ensures t in v.rows && AmountsOf(rows)[t] == v.rows[t].dropAmount {
      var i :| 0 <= i < |rows| && rows[i].sessionId == t;
      AmountAt(rows, i);
    }
  }

  lemma {:induction false} AmountAt(rows: seq<Stored>, i: nat)
    requires Distinct(rows) && i < |rows|
    ensures rows[i].sessionId in AmountsOf(rows) && AmountsOf(rows)[rows[i].sessionId] == rows[i].dropAmount
    decreases |rows|
  {
    if i < |rows| - 1 { AmountAt(rows[..|rows| - 1], i); }
  }

  /** Whoever precedes s and ever becomes claimable, before, between or after the two reads, is
      counted, unless by the second read its claim has failed or its row was erased and already
      by the first its reservation was gone. A row is erased only after the window has passed,
      when rows are retained for longer than the window and the query's delay. */
  lemma HandOverMissesNone(h: House, es: seq<Turn>, later: seq<Turn>, s: string, t: string, k: Subject, usage: Usage, rows: seq<Stored>,
                           duration: nat, now: int)
    requires TableOk(h) && CanRun(h, es) && CanRun(After(h, es), later) && Bound(h.ledger, s, k) && Precedes(h, s, t, k)
    requires IsUsage(h, s, k, h.clock - duration, usage) && IsQuery(After(h, es), k, now - duration, rows) && h.clock <= now
    requires t in h.starts && h.starts[t] > now - duration
    ensures var v := After(h, es);
            && (Live(v, t) ==> t in Counted(usage, rows))
            && (t in After(v, later).committed ==> (t in Counted(usage, rows) <==> Live(h, t) || (t !in v.unpaid && t !in v.erased)))
            && (h.retention >= duration + (v.clock - now) ==> t !in v.erased)
  {
    hide TableOk, CanRun, After, Counted, Prior, IsUsage, IsQuery, Selected;
    var v := After(h, es);
    RunKeeps(h, es);
    RunMoves(h, es, t);
    RunMoves(v, later, t);
    HandOverCountsOnce(h, v, s, k, usage, rows, h.clock - duration, now - duration);
    PriorExactly(h, s, t, k, h.clock - duration);
    SelectedExactly(v, k, now - duration, t);
    RetainedRow(v, t);
  }

  lemma RetainedRow(h: House, t: string)
    requires TableOk(h)
    ensures t in h.erased ==> t in h.starts && h.starts[t] < h.clock - h.retention
  {
    assert RowOk(h, t);
  }

  /** Conversely, who precedes s and never became claimable by the second read is counted only
      if it was live at the first. */
  lemma HandOverCountsNoOther(h: House, es: seq<Turn>, s: string, t: string, k: Subject, usage: Usage, rows: seq<Stored>,
                              duration: nat, now: int)
    requires TableOk(h) && CanRun(h, es) && Bound(h.ledger, s, k) && Precedes(h, s, t, k)
    requires IsUsage(h, s, k, h.clock - duration, usage) && IsQuery(After(h, es), k, now - duration, rows) && h.clock <= now
    requires t in Counted(usage, rows)
    ensures Live(h, t) || (t in After(h, es).committed && t !in After(h, es).unpaid && h.starts[t] > now - duration)
  {
    hide TableOk, CanRun, After, Counted, Prior, IsUsage, IsQuery, Selected;
    SelectedExactly(h, k, 0, t);
    RunKeeps(h, es);
    RunMoves(h, es, t);
    HandOverCountsOnce(h, After(h, es), s, k, usage, rows, h.clock - duration, now - duration);
    SelectedExactly(After(h, es), k, now - duration, t);
    if t in Prior(h.ledger, s, [k], UsageOptions(Some(h.clock - duration), {})) {
      PriorIsLive(h.ledger, s, t, k, UsageOptions(Some(h.clock - duration), {}));
    }
  }

  lemma PriorIsLive(l: Ledger, s: string, t: string, k: Subject, o: UsageOptions)
    requires Bound(l, s, k) && t in Prior(l, s, [k], o)
    ensures t in l.reservations
  {}

  /** The condition is met by a run: t has been released with its claim pending, and the claim
      fails between the two reads. Without that turn t is counted. */
  lemma FailedClaimUncounted(h: House, s: string, t: string, k: Subject, usage: Usage, rows: seq<Stored>, since: int)
    requires TableOk(h) && Bound(h.ledger, s, k) && Precedes(h, s, t, k) && h.starts[t] > since
    requires !Live(h, t) && t in h.rows && h.rows[t].status.Claiming? && IsUsage(h, s, k, since, usage)
    ensures CanTurn(h, Outcome(t, Failed)) && t in Turned(h, Outcome(t, Failed)).committed
    ensures IsQuery(Turned(h, Outcome(t, Failed)), k, since, rows) ==> t !in Counted(usage, rows)
    ensures IsQuery(h, k, since, rows) ==> t in Counted(usage, rows)
  {
    hide IndexOk, Counted, Prior;
    var v := Turned(h, Outcome(t, Failed));
    assert RowOk(h, t);
    if IsQuery(v, k, since, rows) { HandOverCountsOnce(h, v, s, k, usage, rows, since, since); }
    if IsQuery(h, k, since, rows) { HandOverCountsOnce(h, h, s, k, usage, rows, since, since); }
  }

  // ------------------------------------------------------------------ who precedes

  lemma MoveKeepsOrder(l: Ledger, r: Ledger, t: string, k: Subject)
    requires LedgerMove(l, r) && (Bound(r, t, k) ==> Bound(l, t, k))
    ensures Bound(r, t, k) ==> Bound(l, t, k) && OrderOf(r, t, k) == OrderOf(l, t, k)
  {}

  lemma TurnKeepsOrder(h: House, e: Turn, t: string)
    requires TableOk(h) && CanTurn(h, e) && t in h.accounts
    ensures var v, k := Turned(h, e), h.accounts[t];
            Bound(v.ledger, t, k) ==> Bound(h.ledger, t, k) && OrderOf(v.ledger, t, k) == OrderOf(h.ledger, t, k)
  {
    hide Effect, IndexOk, LedgerMove;
    var k := h.accounts[t];
    match e
    case Call(op) =>
      EffectKeeps(h.ledger, op);
      CallKeepsAccounts(h, op);
      MoveKeepsOrder(h.ledger, Effect(h.ledger, op), t, k);
    case Identify(u, j) =>
      EffectKeeps(h.ledger, BindOp(u, [j]));
      BindKeepsOthers(h.ledger, u, j, t, k);
      MoveKeepsOrder(h.ledger, Effect(h.ledger, BindOp(u, [j])), t, k);
    case Release(u) =>
      EffectKeeps(h.ledger, ReleaseOp(u));
      ReleaseBinds(h.ledger, u, t, k);
      MoveKeepsOrder(h.ledger, Effect(h.ledger, ReleaseOp(u)), t, k);
    case _ =>
  }

  lemma BindKeepsOthers(l: Ledger, u: string, j: Subject, t: string, k: Subject)
    requires IndexOk(l) && u != t
    ensures Bound(Effect(l, BindOp(u, [j])), t, k) ==> Bound(l, t, k)
  {
    if u in l.reservations { BindAllKeeps(l, u, [j]); }
  }

  lemma ReleaseBinds(l: Ledger, u: string, t: string, k: Subject)
    requires IndexOk(l)
    ensures Bound(Effect(l, ReleaseOp(u)), t, k) ==> Bound(l, t, k)
  {
    ReleaseKeeps(l, u);
  }

  lemma {:induction false} RunKeepsOrder(h: House, es: seq<Turn>, t: string)
    requires TableOk(h) && CanRun(h, es) && t in h.accounts
    ensures var v, k := After(h, es), h.accounts[t];
            Bound(v.ledger, t, k) ==> Bound(h.ledger, t, k) && OrderOf(v.ledger, t, k) == OrderOf(h.ledger, t, k)
    decreases |es|
  {
    if es != [] {
      TurnKeeps(h, es[0]);
      TurnKeepsOrder(h, es[0], t);
      TurnMoves(h, es[0], t);
      RunKeepsOrder(Turned(h, es[0]), es[1..], t);
    }
  }

  /** Whoever had identified itself with the account before s did precedes s from then on. */
  lemma IdentifiedBeforePrecedes(h: House, es: seq<Turn>, s: string, t: string, k: Subject)
    requires TableOk(h) && CanTurn(h, Identify(s, k)) && CanRun(Turned(h, Identify(s, k)), es)
    requires t in h.accounts && h.accounts[t] == k && t != s
    requires var v := After(Turned(h, Identify(s, k)), es); Bound(v.ledger, s, k)
    ensures Precedes(After(Turned(h, Identify(s, k)), es), s, t, k)
  {
    hide TableOk, After, Turned, CanTurn, CanRun;
    var m := Turned(h, Identify(s, k));
    var v := After(m, es);
    IdentifiedLast(h, s, t, k);
    RunKeeps(m, es);
    RunKeepsOrder(m, es, s);
    RunKeepsOrder(m, es, t);
    RunMoves(m, es, t);
    if Live(v, t) { LiveBound(v, t); }
  }

  /** The binding of an identification comes after those that the account has already. */
  lemma IdentifiedLast(h: House, s: string, t: string, k: Subject)
    requires TableOk(h) && CanTurn(h, Identify(s, k)) && t in h.accounts && h.accounts[t] == k && t != s
    ensures var m := Turned(h, Identify(s, k));
            && TableOk(m) && s in m.accounts && m.accounts[s] == k && t in m.accounts && m.accounts[t] == k
            && (Bound(m.ledger, s, k) && Bound(m.ledger, t, k) ==> OrderOf(m.ledger, t, k) < OrderOf(m.ledger, s, k))
  {
    IdentifyKeeps(h, s, k);
    BindAllKeeps(h.ledger, s, [k]);
    hide IndexOk, BindAll;
    assert !Bound(h.ledger, s, k);
  }

  lemma LiveBound(h: House, t: string)
    requires TableOk(h) && t in h.accounts && Live(h, t)
    ensures Bound(h.ledger, t, h.accounts[t])
  {}

  /** From the empty table: after run a session s identifies itself with account k; run b later it
      reads the ledger, and run c later the database; run d is the rest. Whoever had identified
      itself with the account before s and ever becomes claimable is counted, with the one exception. */
  lemma HandOverInEveryRun(clock: int, retention: nat, a: seq<Turn>, b: seq<Turn>, c: seq<Turn>, d: seq<Turn>, s: string, t: string,
                           k: Subject, usage: Usage, rows: seq<Stored>, duration: nat, now: int,
                           before: House, first: House, second: House)
    requires CanRun(FirstHouse(clock, retention), a) && before == After(FirstHouse(clock, retention), a)
    requires CanTurn(before, Identify(s, k)) && t in before.accounts && before.accounts[t] == k
    requires CanRun(Turned(before, Identify(s, k)), b) && first == After(Turned(before, Identify(s, k)), b)
    requires CanRun(first, c) && second == After(first, c) && CanRun(second, d)
    requires Bound(first.ledger, s, k) && IsUsage(first, s, k, first.clock - duration, usage)
    requires IsQuery(second, k, now - duration, rows) && first.clock <= now && t in first.starts && first.starts[t] > now - duration
    ensures Live(second, t) ==> t in Counted(usage, rows)
    ensures t in After(second, d).committed ==>
              (t in Counted(usage, rows) <==> Live(first, t) || (t !in second.unpaid && t !in second.erased))
    ensures retention >= duration + (second.clock - now) ==> t !in second.erased
  {
    RunKeeps(FirstHouse(clock, retention), a);
    RunMoves(FirstHouse(clock, retention), a, t);
    IdentifyKeeps(before, s, k);
    TurnMoves(before, Identify(s, k), t);
    RunKeeps(Turned(before, Identify(s, k)), b);
    RunMoves(Turned(before, Identify(s, k)), b, t);
    hide TableOk, CanRun, After, Counted, Prior, IsUsage, IsQuery, Selected;
    IdentifiedBeforePrecedes(before, b, s, t, k);
    HandOverMissesNone(first, c, d, s, t, k, usage, rows, duration, now);
  }

  // ------------------------------------------------------------------ the opposite order

  lemma CommitsAndReleases(h: House, amount: nat, t: string)
    requires TableOk(h) && CanTurn(h, CommitRow(t, amount))
    ensures CanRun(h, [CommitRow(t, amount), Release(t)])
    ensures var v := After(h, [CommitRow(t, amount), Release(t)]);
            && !Live(v, t) && t in v.committed
            && forall u: string, k: Subject :: Bound(v.ledger, u, k) <==> Bound(h.ledger, u, k) && u != t
  {
    var es := [CommitRow(t, amount), Release(t)];
    var m := Turned(h, es[0]);
    assert es[1..] == [Release(t)] && es[1..][1..] == [];
    ReleaseKeeps(m.ledger, t);
    assert CanTurn(m, Release(t)) && After(m, es[1..]) == Turned(m, Release(t));
  }

  /** The order of the reads matters: read the database before t commits, and the ledger after t
      has committed and been released, and t is counted nowhere. */
  lemma OppositeOrderMisses(h: House, amount: nat, s: string, t: string, k: Subject, usage: Usage, rows: seq<Stored>, since: int)
    requires TableOk(h) && Bound(h.ledger, s, k) && Precedes(h, s, t, k) && CanTurn(h, CommitRow(t, amount))
    ensures CanRun(h, [CommitRow(t, amount), Release(t)])
    ensures var v := After(h, [CommitRow(t, amount), Release(t)]);
            && Bound(v.ledger, s, k) && t in v.committed
            && (IsQuery(h, k, since, rows) && IsUsage(v, s, k, since, usage) ==> t !in Counted(usage, rows))
  {
    CommitsAndReleases(h, amount, t);
    var v := After(h, [CommitRow(t, amount), Release(t)]);
    if IsQuery(h, k, since, rows) && IsUsage(v, s, k, since, usage) {
      Missed(h, v, s, t, k, usage, rows, since);
    }
  }

  lemma Missed(h: House, v: House, s: string, t: string, k: Subject, usage: Usage, rows: seq<Stored>, since: int)
    requires t in h.rows && h.rows[t].status.InProgress? && !Live(v, t) && Bound(v.ledger, s, k)
    requires IsQuery(h, k, since, rows) && IsUsage(v, s, k, since, usage)
    ensures t !in Counted(usage, rows)
  {
    HandOverCountsOnce(v, h, s, k, usage, rows, since, since);
  }
}
