/** Every operation keeps the ledger's two-way index exact; and with a fixed limit N, the
    sessions that passed the concurrency check on a subject and still hold it never exceed N,
    in any run. */
module AdmissionBound {
  import opened Wrappers
  import opened AdmissionData

  // ------------------------------------------------------------------ the index

  /** What one operation may do to the bindings: keep an order, drop a binding, or add one with
      an order above all earlier ones. */
  ghost predicate LedgerMove(l: Ledger, r: Ledger) {
    && l.nextOrder <= r.nextOrder
    && (forall s: string, k: Subject :: Bound(r, s, k) && Bound(l, s, k) ==> OrderOf(r, s, k) == OrderOf(l, s, k))
    && (forall s: string, k: Subject :: Bound(r, s, k) && !Bound(l, s, k) ==> OrderOf(r, s, k) > l.nextOrder)
  }

  lemma BindOneKeeps(l: Ledger, s: string, k: Subject)
    requires IndexOk(l) && s in l.reservations
    ensures var r := BindOne(l, s, k);
            && IndexOk(r) && LedgerMove(l, r) && Bound(r, s, k)
            && (forall t: string, j: Subject :: Bound(r, t, j) <==> Bound(l, t, j) || (t == s && j == k))
            && (Bound(l, s, k) ==> r == l)
  {
    var r := BindOne(l, s, k);
    if !Bound(l, s, k) {
      assert forall t: string, j: Subject :: Bound(r, t, j) <==> Bound(l, t, j) || (t == s && j == k);
      assert forall j: Subject, t: string :: Indexed(r, j, t) <==> Indexed(l, j, t) || (t == s && j == k);
      assert forall t: string, j: Subject :: Bound(l, t, j) ==> OrderOf(r, t, j) == OrderOf(l, t, j);
      assert s in r.index[k];
    }
  }

  lemma {:induction false} BindAllKeeps(l: Ledger, s: string, ks: seq<Subject>)
    requires IndexOk(l) && s in l.reservations
    ensures var r := BindAll(l, s, ks);
            && IndexOk(r) && LedgerMove(l, r)
            && (forall k :: k in ks ==> Bound(r, s, k))
            && (forall t: string, j: Subject :: Bound(r, t, j) <==> Bound(l, t, j) || (t == s && j in ks))
    decreases |ks|
  {
    if ks != [] {
      BindOneKeeps(l, s, ks[0]);
      BindAllKeeps(BindOne(l, s, ks[0]), s, ks[1..]);
    }
  }

  lemma BeginKeeps(l: Ledger, s: string, startTime: int, ceiling: int, ks: seq<Subject>, settled: bool)
    requires IndexOk(l) && s !in l.reservations
    ensures var r := Begin(l, s, startTime, ceiling, ks, settled); IndexOk(r) && LedgerMove(l, r)
    ensures forall t: string, j: Subject :: Bound(Begin(l, s, startTime, ceiling, ks, settled), t, j) <==> Bound(l, t, j) || (t == s && j in ks)
  {
    var m := l.(reservations := l.reservations[s := Reservation(startTime, Starting, settled, Normalize(ceiling), map[])]);
    assert forall t: string, j: Subject :: Bound(m, t, j) <==> Bound(l, t, j);
    assert forall t: string, j: Subject :: Indexed(m, j, t) <==> Indexed(l, j, t);
    SameOrdersKeep(l, m);
    BindAllKeeps(m, s, ks);
  }

  lemma UnbindKeeps(l: Ledger, s: string, k: Subject)
    requires IndexOk(l)
    ensures var r := Unbind(l, s, k); IndexOk(r) && LedgerMove(l, r)
    ensures forall t: string, j: Subject :: Bound(Unbind(l, s, k), t, j) <==> Bound(l, t, j) && !(t == s && j == k)
  {
    var r := Unbind(l, s, k);
    if Bound(l, s, k) {
      UnbindBindings(l, s, k);
      assert Indexed(l, k, s);
      UnindexedKeeps(l.index, k, s);
      assert forall t: string, j: Subject :: Indexed(r, j, t) <==> Indexed(l, j, t) && !(t == s && j == k);
      SameOrdersKeep(l, r);
    }
  }

  lemma UnbindBindings(l: Ledger, s: string, k: Subject)
    requires Bound(l, s, k)
    ensures var r := Unbind(l, s, k);
            && r.nextOrder == l.nextOrder
            && (forall t: string, j: Subject :: Bound(r, t, j) <==> Bound(l, t, j) && !(t == s && j == k))
            && (forall t: string, j: Subject :: Bound(r, t, j) ==> OrderOf(r, t, j) == OrderOf(l, t, j))
  {}

  /** Dropping bindings on both sides, with the orders of the rest unchanged. */
  lemma SameOrdersKeep(l: Ledger, r: Ledger)
    requires IndexOk(l) && r.nextOrder == l.nextOrder
    requires forall t: string, j: Subject :: Bound(r, t, j) ==> Bound(l, t, j) && OrderOf(r, t, j) == OrderOf(l, t, j)
    requires forall t: string, j: Subject :: Indexed(r, j, t) <==> Bound(r, t, j)
    requires forall t: string, j: Subject :: Indexed(r, j, t) && Indexed(l, j, t) ==> r.index[j][t] == l.index[j][t]
    requires forall j :: j in r.index ==> r.index[j] != map[]
    ensures IndexOk(r) && LedgerMove(l, r)
  {}

  lemma UnindexedKeeps(index: map<Subject, map<string, nat>>, k: Subject, s: string)
    requires k in index && forall j :: j in index ==> index[j] != map[]
    ensures var r := Unindexed(index, k, s);
            && (forall j :: j in r ==> j in index && r[j] != map[])
            && (forall j: Subject, t: string :: j in r && t in r[j] <==> j in index && t in index[j] && !(j == k && t == s))
            && (forall j: Subject, t: string :: j in r && t in r[j] ==> r[j][t] == index[j][t])
  {
    assert forall t: string :: t in index[k] && t != s ==> t in index[k] - {s};
  }

  lemma ReleaseKeeps(l: Ledger, s: string)
    requires IndexOk(l)
    ensures var r := Release(l, s); IndexOk(r) && LedgerMove(l, r) && s !in r.reservations
    ensures forall t: string, j: Subject :: Bound(Release(l, s), t, j) <==> Bound(l, t, j) && t != s
  {
    var r := Release(l, s);
    ReleaseBound(l, s);
    if s in l.reservations {
      ReleaseIndexed(l, s);
      hide Release;
      SameOrdersKeep(l, r);
    }
  }

  lemma ReleaseBound(l: Ledger, s: string)
    ensures s !in Release(l, s).reservations
    ensures forall t: string, j: Subject :: Bound(Release(l, s), t, j) <==> Bound(l, t, j) && t != s
  {}

  lemma ReleaseIndexed(l: Ledger, s: string)
    requires IndexOk(l) && s in l.reservations
    ensures forall j: Subject, t: string :: Indexed(Release(l, s), j, t) <==> Indexed(l, j, t) && t != s
  {
    forall j: Subject, t: string ensures Indexed(Release(l, s), j, t) <==> Indexed(l, j, t) && t != s {
      assert Indexed(l, j, s) <==> Bound(l, s, j);
      if Indexed(l, j, t) && t != s { assert t in l.index[j] - {s}; }
    }
  }

  /** Operations that change neither bindings nor orders. */
  lemma DetailKeeps(l: Ledger, s: string, d: Reservation)
    requires IndexOk(l) && s in l.reservations && d.bindings == l.reservations[s].bindings
    ensures var r := l.(reservations := l.reservations[s := d]); IndexOk(r) && LedgerMove(l, r)
    ensures forall t: string, j: Subject :: Bound(l.(reservations := l.reservations[s := d]), t, j) <==> Bound(l, t, j)
  {
    var r := l.(reservations := l.reservations[s := d]);
    assert forall t: string, j: Subject :: Bound(r, t, j) <==> Bound(l, t, j);
    assert forall t: string, j: Subject :: Indexed(r, j, t) <==> Indexed(l, j, t);
    SameOrdersKeep(l, r);
  }

  // ------------------------------------------------------------------ runs

  /** passed is history: who passed the concurrency check on which subject and still holds it. */
  datatype Gate = Gate(ledger: Ledger, passed: set<(string, Subject)>)

  datatype Op =
    | BeginOp(s: string, startTime: int, ceiling: int, ks: seq<Subject>, restored: bool)
    | BindOp(s: string, ks: seq<Subject>)
    | CheckOp(s: string, ks: seq<Subject>)
    | RunOp(s: string)
    | CommitOp(s: string)
    | SettleOp(s: string, amount: int)
    | RaiseOp(s: string, amount: int)
    | PrepareOp(s: string, a: Subject, b: Subject)
    | CommitMoveOp(m: Move)
    | AbortMoveOp(m: Move)
    | ReleaseOp(s: string)

  /** ConcurrencyLimitModule.checkLimit on the subjects of its scope: no prior count reaches n. */
  predicate PassesLimit(l: Ledger, s: string, ks: seq<Subject>, n: nat)
    requires forall k :: k in ks ==> Bound(l, s, k)
  {
    forall k :: k in ks ==> |Prior(l, s, [k], ALL_USAGE)| < n
  }

  predicate AllBound(l: Ledger, s: string, ks: seq<Subject>) { forall k :: k in ks ==> Bound(l, s, k) }

  /** The ledger after one call; a call that throws changes nothing. */
  function Effect(l: Ledger, op: Op): Ledger {
    match op
    case BeginOp(s, startTime, ceiling, ks, restored) => if s in l.reservations then l else Begin(l, s, startTime, ceiling, ks, restored)
    case BindOp(s, ks) => if s in l.reservations then BindAll(l, s, ks) else l
    case CheckOp(_, _) => l
    case RunOp(s) => if s in l.reservations && l.reservations[s].settled then SetPhase(l, s, Running) else l
    case CommitOp(s) => if s in l.reservations then SetPhase(l, s, Committing) else l
    case SettleOp(s, amount) => if s in l.reservations then SetCeiling(l, s, amount) else l
    case RaiseOp(s, amount) => if s in l.reservations then RaiseCeiling(l, s, amount) else l
    case PrepareOp(s, a, b) => if s in l.reservations then PrepareMove(l, s, a, b).0 else l
    case CommitMoveOp(m) => CommitMove(l, m)
    case AbortMoveOp(m) => AbortMove(l, m)
    case ReleaseOp(s) => Release(l, s)
  }

  ghost function Step(g: Gate, op: Op, n: nat): Gate {
    var r := Effect(g.ledger, op);
    var newly := if op.CheckOp? && AllBound(g.ledger, op.s, op.ks) && PassesLimit(g.ledger, op.s, op.ks, n)
                 then (set k | k in op.ks :: (op.s, k)) else {};
    Gate(r, set p | p in g.passed + newly && Bound(r, p.0, p.1))
  }

  lemma EffectKeeps(l: Ledger, op: Op)
    requires IndexOk(l)
    ensures IndexOk(Effect(l, op)) && LedgerMove(l, Effect(l, op))
  {
    match op
    case BeginOp(s, startTime, ceiling, ks, restored) => if s !in l.reservations { BeginKeeps(l, s, startTime, ceiling, ks, restored); }
    case BindOp(s, ks) => if s in l.reservations { BindAllKeeps(l, s, ks); }
    case CheckOp(_, _) =>
    case RunOp(s) => if s in l.reservations && l.reservations[s].settled { DetailKeeps(l, s, l.reservations[s].(phase := Running)); }
    case CommitOp(s) => if s in l.reservations { DetailKeeps(l, s, l.reservations[s].(phase := Committing)); }
    case SettleOp(s, amount) =>
      if s in l.reservations { DetailKeeps(l, s, l.reservations[s].(settled := true, ceiling := Normalize(amount))); }
    case RaiseOp(s, amount) => if s in l.reservations { DetailKeeps(l, s, l.reservations[s].(ceiling := Normalize(amount))); }
    case PrepareOp(s, a, b) => if s in l.reservations { BindOneKeeps(l, s, b); }
    case CommitMoveOp(m) => UnbindKeeps(l, m.session, m.oldSubject);
    case AbortMoveOp(m) => UnbindKeeps(l, m.session, m.newSubject);
    case ReleaseOp(s) => ReleaseKeeps(l, s);
  }

  // ------------------------------------------------------------------ the bound

  /** Who was bound to the subject before s. */
  function Earlier(l: Ledger, s: string, k: Subject): set<string>
    requires Bound(l, s, k)
  {
    set t | t in l.reservations && Bound(l, t, k) && OrderOf(l, t, k) < OrderOf(l, s, k)
  }

  ghost predicate Held(l: Ledger, p: (string, Subject), n: nat) { Bound(l, p.0, p.1) && |Earlier(l, p.0, p.1)| < n }

  ghost predicate GateOk(g: Gate, n: nat) { IndexOk(g.ledger) && forall p :: p in g.passed ==> Held(g.ledger, p, n) }

  lemma HeldStays(l: Ledger, r: Ledger, p: (string, Subject), n: nat)
    requires IndexOk(l) && IndexOk(r) && LedgerMove(l, r) && Held(l, p, n) && Bound(r, p.0, p.1)
    ensures Held(r, p, n)
  {
    var (s, k) := p;
    forall t | t in Earlier(r, s, k) ensures t in Earlier(l, s, k) {
      assert Bound(r, t, k) && OrderOf(r, s, k) == OrderOf(l, s, k);
      assert OrderOf(l, s, k) <= l.nextOrder;
    }
    SubsetSize(Earlier(r, s, k), Earlier(l, s, k));
  }

  /** Everyone bound earlier counts against a session being checked, whatever their phase. */
  lemma PassingIsHeld(l: Ledger, s: string, k: Subject, n: nat)
    requires IndexOk(l) && Bound(l, s, k) && |Prior(l, s, [k], ALL_USAGE)| < n
    ensures Held(l, (s, k), n)
  {
    forall t | t in Earlier(l, s, k) ensures t in Prior(l, s, [k], ALL_USAGE) {
      assert k in [k] && CountsAgainst(l, s, k, t);
    }
    SubsetSize(Earlier(l, s, k), Prior(l, s, [k], ALL_USAGE));
  }

  lemma StepKeepsGate(g: Gate, op: Op, n: nat)
    requires GateOk(g, n)
    ensures GateOk(Step(g, op, n), n)
  {
    EffectKeeps(g.ledger, op);
    var r := Effect(g.ledger, op);
    forall p | p in Step(g, op, n).passed ensures Held(r, p, n) {
      if p in g.passed {
        HeldStays(g.ledger, r, p, n);
      } else {
        PassingIsHeld(g.ledger, p.0, p.1, n);
      }
    }
  }

  ghost function Run(g: Gate, ops: seq<Op>, n: nat): Gate
    decreases |ops|
  {
    if ops == [] then g else Run(Step(g, ops[0], n), ops[1..], n)
  }

  lemma {:induction false} RunKeepsGate(g: Gate, ops: seq<Op>, n: nat)
    requires GateOk(g, n)
    ensures GateOk(Run(g, ops, n), n)
    decreases |ops|
  {
    if ops != [] {
      StepKeepsGate(g, ops[0], n);
      RunKeepsGate(Step(g, ops[0], n), ops[1..], n);
    }
  }

  /** The sessions that passed the check on k and still hold it. */
  ghost function PassedOn(g: Gate, k: Subject): set<string> { set p | p in g.passed && p.1 == k :: p.0 }

  /** The session of a set that was bound last. */
  lemma {:induction false} LastBound(l: Ledger, k: Subject, p: set<string>) returns (b: string)
    requires p != {} && forall s :: s in p ==> Bound(l, s, k)
    ensures b in p && forall s :: s in p ==> OrderOf(l, s, k) <= OrderOf(l, b, k)
    decreases p
  {
    b :| b in p;
    if p != {b} {
      assert p - {b} != {};
      var c := LastBound(l, k, p - {b});
      if OrderOf(l, b, k) < OrderOf(l, c, k) { b := c; }
    }
  }

  lemma HoldersBounded(g: Gate, k: Subject, n: nat)
    requires GateOk(g, n)
    ensures |PassedOn(g, k)| <= n
  {
    var p := PassedOn(g, k);
    if p != {} {
      forall s | s in p ensures Held(g.ledger, (s, k), n) { assert (s, k) in g.passed; }
      var b := LastBound(g.ledger, k, p);
      forall s | s in p - {b} ensures s in Earlier(g.ledger, b, k) {
        assert Bound(g.ledger, s, k) && Bound(g.ledger, b, k);
      }
      SubsetSize(p - {b}, Earlier(g.ledger, b, k));
    }
  }

  /** The admission bound, in every run from the empty ledger. */
  lemma AdmissionNeverExceeds(ops: seq<Op>, k: Subject, n: nat)
    ensures var g := Run(Gate(EMPTY_LEDGER, {}), ops, n);
            && |PassedOn(g, k)| <= n
            && (forall s :: s in PassedOn(g, k) ==> Bound(g.ledger, s, k))
            && IndexOk(g.ledger)
  {
    RunKeepsGate(Gate(EMPTY_LEDGER, {}), ops, n);
    var g := Run(Gate(EMPTY_LEDGER, {}), ops, n);
    HoldersBounded(g, k, n);
    forall s | s in PassedOn(g, k) ensures Bound(g.ledger, s, k) { assert Held(g.ledger, (s, k), n); }
  }
}
