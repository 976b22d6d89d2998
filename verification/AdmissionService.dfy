/** AdmissionLedger as the class it is, the concurrency check that uses it, and
    excludeCommittedUsage. */
module AdmissionService {
  import opened Wrappers
  import opened AdmissionData
  import opened AdmissionBound

  /** The sessions among those given that count against s on key. */
  function Matches(l: Ledger, s: string, key: Subject, o: UsageOptions, among: set<string>): set<string>
    requires Bound(l, s, key)
  {
    set t | t in among && Admits(l, t, o) && CountsAgainst(l, s, key, t)
  }

  lemma MatchesMore(l: Ledger, s: string, key: Subject, o: UsageOptions, among: set<string>, t: string)
    requires Bound(l, s, key)
    ensures Matches(l, s, key, o, among + {t})
            == Matches(l, s, key, o, among) + (if Admits(l, t, o) && CountsAgainst(l, s, key, t) then {t} else {})
  {}

  /** The index lists every session that can count. */
  lemma MatchesIndexed(l: Ledger, s: string, key: Subject, o: UsageOptions)
    requires IndexOk(l) && Bound(l, s, key) && key in l.index
    ensures Matches(l, s, key, o, l.reservations.Keys) == Matches(l, s, key, o, l.index[key].Keys)
  {
    forall t ensures CountsAgainst(l, s, key, t) ==> t in l.index[key].Keys && t in l.reservations.Keys {
      assert Indexed(l, key, t) <==> Bound(l, t, key);
    }
  }

  class AdmissionLedger {
    var reservations: map<string, Reservation>
    var subjectIndex: map<Subject, map<string, nat>>
    var nextBindingOrder: nat

    ghost function View(): Ledger
      reads this
    {
      Ledger(reservations, subjectIndex, nextBindingOrder)
    }

    ghost predicate Valid()
      reads this
    {
      IndexOk(View())
    }

    constructor ()
      ensures Valid() && View() == EMPTY_LEDGER
    {
      reservations, subjectIndex, nextBindingOrder := map[], map[], 0;
    }

    method Begin(s: string, startTime: int, claimCeiling: int, subjects: seq<Subject>, settled: bool) returns (ok: bool)
      requires Valid()
      modifies this
      ensures Valid() && ok == (s !in old(reservations))
      ensures View() == Effect(old(View()), BeginOp(s, startTime, claimCeiling, subjects, settled))
    {
      EffectKeeps(View(), BeginOp(s, startTime, claimCeiling, subjects, settled));
      if s in reservations { return false; }
      ghost var before := View();
      reservations := reservations[s := Reservation(startTime, Starting, settled, Normalize(claimCeiling), map[])];
      BeginKeeps(before, s, startTime, claimCeiling, [], settled);
      ok := Bind(s, subjects);
    }

    method Bind(s: string, subjects: seq<Subject>) returns (ok: bool)
      requires Valid()
      modifies this
      ensures Valid() && ok == (s in old(reservations))
      ensures View() == Effect(old(View()), BindOp(s, subjects))
    {
      if s !in reservations { return false; }
      BindAllKeeps(View(), s, subjects);
      assert subjects[0..] == subjects;
      for i := 0 to |subjects|
        invariant s in reservations && BindAll(View(), s, subjects[i..]) == BindAll(old(View()), s, subjects)
      {
        assert subjects[i..][0] == subjects[i] && subjects[i..][1..] == subjects[i + 1..];
        BindSubject(s, subjects[i]);
      }
      ok := true;
    }

    method BindSubject(s: string, key: Subject)
      requires s in reservations
      modifies this
      ensures View() == BindOne(old(View()), s, key)
    {
      if key in reservations[s].bindings { return; }
      nextBindingOrder := nextBindingOrder + 1;
      var order := nextBindingOrder;
      reservations := reservations[s := reservations[s].(bindings := reservations[s].bindings[key := order])];
      var indexedSessions := if key in subjectIndex then subjectIndex[key] else map[];
      subjectIndex := subjectIndex[key := indexedSessions[s := order]];
    }

    /** The sessions indexed under one subject that count and were not matched before. */
    method MatchSubject(s: string, key: Subject, options: UsageOptions, matched: set<string>) returns (r: set<string>)
      requires Valid() && Bound(View(), s, key)
      ensures r == matched + Matches(View(), s, key, options, reservations.Keys)
    {
      r := matched;
      var own := reservations[s].bindings[key];
      assert Indexed(View(), key, s);
      var indexed := subjectIndex[key];
      var todo := indexed.Keys;
      while todo != {}
        invariant todo <= indexed.Keys
        invariant r == matched + Matches(View(), s, key, options, indexed.Keys - todo)
        decreases todo
      {
        var other :| other in todo;
        todo := todo - {other};
        assert Indexed(View(), key, other);
        var skip :=
          || other == s || other in r || other in options.exclude
          || (options.minStartTime.Some? && reservations[other].startTime < options.minStartTime.value)
          || (reservations[other].phase.Starting? && indexed[other] >= own);
        MatchesMore(View(), s, key, options, indexed.Keys - todo - {other}, other);
        assert indexed.Keys - todo == indexed.Keys - todo - {other} + {other};
        if !skip { r := r + {other}; }
      }
      MatchesIndexed(View(), s, key, options);
    }

    method GetPriorUsage(s: string, subjects: seq<Subject>, options: UsageOptions) returns (r: Result<Usage>)
      requires Valid()
      ensures r.Ok? <==> s in reservations && AllBound(View(), s, subjects)
      ensures r.Ok? ==> UsageIs(View(), r.value, Prior(View(), s, subjects, options))
    {
      if s !in reservations { return Error("missing admission reservation"); }
      var matched: set<string> := {};
      for i := 0 to |subjects|
        invariant forall k :: k in subjects[..i] ==> Bound(View(), s, k)
        invariant matched == Prior(View(), s, subjects[..i], options)
      {
        var key := subjects[i];
        if key !in reservations[s].bindings {
          assert !Bound(View(), s, subjects[i]);
          return Error("admission subject must be bound before it is checked");
        }
        assert forall k :: k in subjects[..i + 1] <==> k in subjects[..i] || k == key;
        ghost var before := matched;
        matched := MatchSubject(s, key, options, matched);
        PriorGrows(View(), s, subjects[..i], subjects[..i + 1], key, options);
      }
      assert subjects[..|subjects|] == subjects;
      var usage := Collect(matched);
      r := Ok(usage);
    }

    /** Counting and summing the matched sessions. */
    method Collect(matched: set<string>) returns (u: Usage)
      requires matched <= reservations.Keys
      ensures UsageIs(View(), u, matched)
    {
      var todo, amount := matched, 0;
      var amounts: map<string, nat> := map[];
      var provisional: set<string> := {};
      while todo != {}
        invariant todo <= matched && amounts == Ceilings(View(), matched - todo)
        invariant amount == Total(amounts)
        invariant provisional == set t | t in matched - todo && !reservations[t].settled
        decreases todo
      {
        var t :| t in todo;
        todo := todo - {t};
        TotalAdd(amounts, t, reservations[t].ceiling);
        amount := amount + reservations[t].ceiling;
        amounts := amounts[t := reservations[t].ceiling];
        if !reservations[t].settled { provisional := provisional + {t}; }
      }
      u := Usage(|matched|, amount, matched, amounts, provisional);
    }

    method MarkRunning(s: string) returns (ok: bool)
      requires Valid()
      modifies this`reservations
      ensures Valid() && ok == (s in old(reservations) && old(reservations)[s].settled)
      ensures View() == Effect(old(View()), RunOp(s))
    {
      EffectKeeps(View(), RunOp(s));
      if s !in reservations { return false; }
      if !reservations[s].settled { return false; }
      reservations := reservations[s := reservations[s].(phase := Running)];
      ok := true;
    }

    method MarkCommitting(s: string) returns (ok: bool)
      requires Valid()
      modifies this`reservations
      ensures Valid() && ok == (s in old(reservations)) && View() == Effect(old(View()), CommitOp(s))
    {
      EffectKeeps(View(), CommitOp(s));
      if s !in reservations { return false; }
      reservations := reservations[s := reservations[s].(phase := Committing)];
      ok := true;
    }

    method SetClaimCeiling(s: string, amount: int) returns (ok: bool)
      requires Valid()
      modifies this`reservations
      ensures Valid() && ok == (s in old(reservations)) && View() == Effect(old(View()), SettleOp(s, amount))
    {
      EffectKeeps(View(), SettleOp(s, amount));
      if s !in reservations { return false; }
      reservations := reservations[s := reservations[s].(settled := true, ceiling := Normalize(amount))];
      ok := true;
    }

    method ReserveClaimCeiling(s: string, amount: int) returns (ok: bool)
      requires Valid()
      modifies this`reservations
      ensures Valid() && ok == (s in old(reservations)) && View() == Effect(old(View()), RaiseOp(s, amount))
    {
      EffectKeeps(View(), RaiseOp(s, amount));
      if s !in reservations { return false; }
      if Normalize(amount) > reservations[s].ceiling {
        reservations := reservations[s := reservations[s].(ceiling := Normalize(amount))];
      }
      ok := true;
    }

    method PrepareMove(s: string, oldSubject: Subject, newSubject: Subject) returns (r: Result<Move>)
      requires Valid()
      modifies this
      ensures Valid() && r.Ok? == (s in old(reservations)) && View() == Effect(old(View()), PrepareOp(s, oldSubject, newSubject))
      ensures r.Ok? ==> r.value == AdmissionData.PrepareMove(old(View()), s, oldSubject, newSubject).1
    {
      if s !in reservations { return Error("missing admission reservation"); }
      var newWasBound := newSubject in reservations[s].bindings;
      ghost var before := View();
      assert BindAll(before, s, [newSubject]) == BindAll(BindOne(before, s, newSubject), s, [newSubject][1..]);
      var ok := Bind(s, [newSubject]);
      r := Ok(Move(s, oldSubject, newSubject, newWasBound));
    }

    method CommitMove(move: Move)
      requires Valid()
      modifies this`reservations, this`subjectIndex
      ensures Valid() && View() == Effect(old(View()), CommitMoveOp(move))
    {
      if move.oldSubject != move.newSubject { RemoveBinding(move.session, move.oldSubject); }
    }

    method AbortMove(move: Move)
      requires Valid()
      modifies this`reservations, this`subjectIndex
      ensures Valid() && View() == Effect(old(View()), AbortMoveOp(move))
    {
      if !move.newWasBound { RemoveBinding(move.session, move.newSubject); }
    }

    method RemoveBinding(s: string, key: Subject)
      requires Valid()
      modifies this`reservations, this`subjectIndex
      ensures Valid() && View() == Unbind(old(View()), s, key)
    {
      UnbindKeeps(View(), s, key);
      if s !in reservations { return; }
      if key !in reservations[s].bindings { return; }
      reservations := reservations[s := reservations[s].(bindings := reservations[s].bindings - {key})];
      RemoveIndexedSession(key, s);
    }

    method RemoveIndexedSession(key: Subject, s: string)
      modifies this`subjectIndex
      ensures subjectIndex == Unindexed(old(subjectIndex), key, s)
    {
      if key !in subjectIndex { return; }
      subjectIndex := subjectIndex[key := subjectIndex[key] - {s}];
      if |subjectIndex[key]| == 0 { subjectIndex := subjectIndex - {key}; }
    }

    method Release(s: string)
      requires Valid()
      modifies this`reservations, this`subjectIndex
      ensures Valid() && View() == Effect(old(View()), ReleaseOp(s))
    {
      ReleaseKeeps(View(), s);
      if s !in reservations { return; }
      var keys := reservations[s].bindings.Keys;
      var todo := keys;
      while todo != {}
        invariant todo <= keys && reservations == old(reservations)
        invariant subjectIndex == Dropped(old(subjectIndex), s, keys - todo)
        decreases todo
      {
        var key :| key in todo;
        DropOne(old(subjectIndex), s, keys - todo, key);
        assert keys - (todo - {key}) == (keys - todo) + {key};
        todo := todo - {key};
        RemoveIndexedSession(key, s);
      }
      assert keys - todo == keys;
      reservations := reservations - {s};
    }
  }

  lemma DropOne(index: map<Subject, map<string, nat>>, s: string, done: set<Subject>, key: Subject)
    requires key !in done
    ensures Unindexed(Dropped(index, s, done), key, s) == Dropped(index, s, done + {key})
  {
    var a, b := Unindexed(Dropped(index, s, done), key, s), Dropped(index, s, done + {key});
    assert forall k :: k in a <==> k in b;
    assert forall k :: k in a ==> a[k] == b[k];
  }

  lemma PriorGrows(l: Ledger, s: string, ks: seq<Subject>, more: seq<Subject>, key: Subject, o: UsageOptions)
    requires forall k :: k in more ==> Bound(l, s, k)
    requires forall k :: k in more <==> k in ks || k == key
    ensures key in more
    ensures Prior(l, s, more, o)
            == Prior(l, s, ks, o) + Matches(l, s, key, o, l.reservations.Keys)
  {}

  function Ceilings(l: Ledger, ids: set<string>): map<string, nat>
    requires ids <= l.reservations.Keys
  {
    map t | t in ids :: l.reservations[t].ceiling
  }

  /** u is the usage of exactly these sessions. */
  ghost predicate UsageIs(l: Ledger, u: Usage, ids: set<string>) {
    && ids <= l.reservations.Keys
    && u.sessionIds == ids && u.count == |ids|
    && u.amounts == Ceilings(l, ids) && u.amount == Total(u.amounts)
    && u.provisional == set t | t in ids && !l.reservations[t].settled
  }

  /** ConcurrencyLimitModule.checkLimit; limit is positive, as compileConfig demands. */
  method CheckLimit(ledger: AdmissionLedger, s: string, checks: seq<Subject>, limit: nat) returns (passed: bool)
    requires ledger.Valid() && limit > 0
    ensures passed <==> s in ledger.reservations && AllBound(ledger.View(), s, checks) && PassesLimit(ledger.View(), s, checks, limit)
  {
    if s !in ledger.reservations { return false; }
    var concurrent := 0;
    for i := 0 to |checks|
      invariant AllBound(ledger.View(), s, checks[..i])
      invariant forall k :: k in checks[..i] ==> |Prior(ledger.View(), s, [k], ALL_USAGE)| <= concurrent
      invariant concurrent > 0 ==> exists k :: k in checks[..i] && |Prior(ledger.View(), s, [k], ALL_USAGE)| == concurrent
    {
      var usage := ledger.GetPriorUsage(s, [checks[i]], ALL_USAGE);
      if usage.Error? {
        assert checks[i] in checks && !Bound(ledger.View(), s, checks[i]);
        return false;
      }
      assert checks[i] in [checks[i]] && Bound(ledger.View(), s, checks[i]);
      assert forall k :: k in checks[..i + 1] <==> k in checks[..i] || k == checks[i];
      if usage.value.count > concurrent { concurrent := usage.value.count; }
    }
    assert checks[..|checks|] == checks;
    passed := concurrent < limit;
  }

  datatype Totals = Totals(count: nat, amount: nat, provisional: bool)

  /** What has been counted when the sessions of todo are still to come. */
  function Counted(usage: Usage, todo: set<string>, committed: set<string>): map<string, nat> {
    map t | t in usage.amounts && t !in todo && t !in committed :: usage.amounts[t]
  }

  lemma CountedNone(usage: Usage, committed: set<string>)
    ensures Counted(usage, usage.amounts.Keys, committed) == map[] && Total(map[]) == 0
  {}

  lemma CountedAll(usage: Usage, committed: set<string>)
    ensures Counted(usage, {}, committed) == usage.amounts - committed
    ensures Counted(usage, {}, committed).Keys == usage.amounts.Keys - committed
  {}

  lemma CountedCommitted(usage: Usage, todo: set<string>, committed: set<string>, t: string)
    requires t in todo && t in committed
    ensures Counted(usage, todo - {t}, committed) == Counted(usage, todo, committed)
  {}

  lemma CountedNext(usage: Usage, todo: set<string>, committed: set<string>, t: string)
    requires t in todo && t in usage.amounts && t !in committed
    ensures var before := Counted(usage, todo, committed);
            && t !in before && Counted(usage, todo - {t}, committed) == before[t := usage.amounts[t]]
            && before[t := usage.amounts[t]].Keys == before.Keys + {t}
  {}

  lemma MeetsAdd<T>(p: set<T>, a: set<T>, t: T)
    ensures p * (a + {t}) != {} <==> p * a != {} || t in p
  {
    if t in p { assert t in p * (a + {t}); }
    assert p * a <= p * (a + {t});
  }

  /** excludeCommittedUsage. */
  method ExcludeCommittedUsage(usage: Usage, committed: set<string>) returns (r: Totals)
    ensures r.count == |usage.amounts.Keys - committed|
    ensures r.amount == Total(usage.amounts - committed)
    ensures r.provisional <==> usage.provisional * (usage.amounts.Keys - committed) != {}
  {
    hide Total, Counted;
    var todo := usage.amounts.Keys;
    var count, amount, provisional := 0, 0, false;
    CountedNone(usage, committed);
    while todo != {}
      invariant todo <= usage.amounts.Keys
      invariant count == |Counted(usage, todo, committed)| && amount == Total(Counted(usage, todo, committed))
      invariant provisional <==> usage.provisional * Counted(usage, todo, committed).Keys != {}
      decreases todo
    {
      var t :| t in todo;
      if t in committed {
        CountedCommitted(usage, todo, committed, t);
      } else {
        CountedNext(usage, todo, committed, t);
        TotalAdd(Counted(usage, todo, committed), t, usage.amounts[t]);
        MeetsAdd(usage.provisional, Counted(usage, todo, committed).Keys, t);
        count := count + 1;
        amount := amount + usage.amounts[t];
        if t in usage.provisional { provisional := true; }
      }
      todo := todo - {t};
    }
    CountedAll(usage, committed);
    r := Totals(count, amount, provisional);
  }
}
