/** The admission ledger beside the stored sessions: how a session passes from one to the other,
    and what the restriction on a GitHub account reads (src/modules/github). */
module AdmissionTable {
  import opened AdmissionData
  import opened AdmissionBound

  datatype Status = InProgress | Claimable | Claiming | Finished | Failed

  datatype Row = Row(status: Status, startTime: int, dropAmount: nat)

  /** rows is the table Sessions and links the table GithubSessions. accounts is the session data
      github.uid, hooked who has run its completion hooks, and retention is sessionCleanup. As
      history: the start time of every session, who became claimable, whose claim failed
      afterwards, and whose row was erased. */
  datatype House = House(ledger: Ledger, rows: map<string, Row>, links: map<string, Subject>, accounts: map<string, Subject>,
                         hooked: set<string>, clock: int, retention: nat,
                         starts: map<string, int>, committed: set<string>, unpaid: set<string>, erased: set<string>)

  predicate Account(k: Subject) { k.Principal? && k.namespace == "github" }

  predicate Live(h: House, t: string) { t in h.ledger.reservations }

  predicate Starting(h: House, t: string)
    requires Live(h, t)
  {
    h.ledger.reservations[t].phase.Starting?
  }

  /** One turn of the event loop, or one statement of the database. */
  datatype Turn =
    | Call(op: Op)
    | Identify(t: string, k: Subject)
    | Store(t: string)
    | Hook(t: string)
    | CommitRow(t: string, amount: nat)
    | FailRow(t: string)
    | Release(t: string)
    | Outcome(t: string, status: Status)
    | Erase(t: string)
    | Unlink(t: string)
    | Pass(seconds: nat)

  /** The ledger operations of other code: they begin new sessions, and bind, move and unbind
      other subjects; nothing is released here. */
  predicate CanCall(h: House, op: Op) {
    match op
    case BeginOp(s, startTime, _, ks, _) => s !in h.starts && startTime == h.clock && forall k :: k in ks ==> !Account(k)
    case BindOp(_, ks) => forall k :: k in ks ==> !Account(k)
    case PrepareOp(_, _, b) => !Account(b)
    case CommitMoveOp(m) => !Account(m.oldSubject)
    case AbortMoveOp(m) => !Account(m.newSubject)
    case RunOp(s) => Live(h, s) && Starting(h, s)
    case ReleaseOp(_) => false
    case _ => true
  }

  /** Identify: processSessionStart. Store: the first save, awaited before a session proceeds.
      CommitRow: the transition of finishSession, after the hooks and guarded by the stored
      status. FailRow: the transition to FAILED, by the session or by the timeout sweep. Release:
      after the session's end has been stored, or has nothing stored to end. Outcome: the claim.
      Erase and Unlink: the cleanup. */
  predicate CanTurn(h: House, e: Turn) {
    match e
    case Call(op) => CanCall(h, op)
    case Identify(t, k) => Live(h, t) && Starting(h, t) && Account(k) && t !in h.accounts
    case Store(t) => Live(h, t) && !Starting(h, t) && t !in h.rows && t !in h.hooked && t !in h.erased
    case Hook(t) => Live(h, t) && !Starting(h, t)
    case CommitRow(t, _) =>
      && Live(h, t) && h.ledger.reservations[t].phase.Committing? && t in h.hooked
      && t in h.rows && h.rows[t].status.InProgress?
    case FailRow(t) => t in h.rows && h.rows[t].status.InProgress?
    case Release(t) => Live(h, t) && (t in h.rows ==> !h.rows[t].status.InProgress?)
    case Outcome(t, status) =>
      && t in h.rows
      && ((h.rows[t].status.Claimable? && (status.Claiming? || status.Failed?)) || (h.rows[t].status.Claiming? && (status.Finished? || status.Failed?)))
    case Erase(t) => t in h.rows && (h.rows[t].status.Finished? || h.rows[t].status.Failed?) && h.rows[t].startTime < h.clock - h.retention
    case Unlink(t) => t in h.links && t !in h.rows
    case Pass(_) => true
  }

  function WithStatus(h: House, t: string, status: Status): map<string, Row>
    requires t in h.rows
  {
    h.rows[t := h.rows[t].(status := status)]
  }

  function Turned(h: House, e: Turn): House
    requires CanTurn(h, e)
  {
    match e
    case Call(op) =>
      h.(ledger := Effect(h.ledger, op), starts := if op.BeginOp? && op.s !in h.ledger.reservations then h.starts[op.s := op.startTime] else h.starts)
    case Identify(t, k) => h.(ledger := Effect(h.ledger, BindOp(t, [k])), accounts := h.accounts[t := k])
    case Store(t) => h.(rows := h.rows[t := Row(InProgress, h.ledger.reservations[t].startTime, 0)])
    case Hook(t) => h.(hooked := h.hooked + {t}, links := if t in h.accounts then h.links[t := h.accounts[t]] else h.links)
    case CommitRow(t, amount) =>
      h.(rows := h.rows[t := h.rows[t].(status := Claimable, dropAmount := amount)], committed := h.committed + {t})
    case FailRow(t) => h.(rows := WithStatus(h, t, Failed))
    case Release(t) => h.(ledger := Effect(h.ledger, ReleaseOp(t)))
    case Outcome(t, status) => h.(rows := WithStatus(h, t, status), unpaid := if status.Failed? then h.unpaid + {t} else h.unpaid)
    case Erase(t) => h.(rows := h.rows - {t}, erased := h.erased + {t})
    case Unlink(t) => h.(links := h.links - {t})
    case Pass(seconds) => h.(clock := h.clock + seconds)
  }

  predicate CanRun(h: House, es: seq<Turn>)
    decreases |es|
  {
    es == [] || (CanTurn(h, es[0]) && CanRun(Turned(h, es[0]), es[1..]))
  }

  function After(h: House, es: seq<Turn>): House
    requires CanRun(h, es)
    decreases |es|
  {
    if es == [] then h else After(Turned(h, es[0]), es[1..])
  }

  // ------------------------------------------------------------------ what always holds

  predicate Counts(s: Status) { s.Claimable? || s.Claiming? || s.Finished? }

  /** A live session that has an account is bound to it, and to no other account. */
  ghost predicate BindingsOk(h: House) {
    && IndexOk(h.ledger)
    && (forall t: string, k: Subject :: Bound(h.ledger, t, k) && Account(k) ==> t in h.accounts && h.accounts[t] == k)
    && (forall t :: t in h.accounts ==> Account(h.accounts[t]) && t in h.starts && (Live(h, t) ==> Bound(h.ledger, t, h.accounts[t])))
    && (forall t :: Live(h, t) ==> t in h.starts && h.ledger.reservations[t].startTime == h.starts[t])
  }

  /** What becomes of a session's row. */
  ghost predicate RowOk(h: House, t: string) {
    && (t in h.rows ==> t in h.starts && h.rows[t].startTime == h.starts[t] && t !in h.erased)
    && (t in h.rows && Counts(h.rows[t].status) ==> t in h.committed && t !in h.unpaid)
    && (t in h.committed ==> t in h.hooked && t in h.starts)
    && (t in h.committed ==> t in h.erased || (t in h.rows && !h.rows[t].status.InProgress? && (h.rows[t].status.Failed? <==> t in h.unpaid)))
    && (t in h.erased ==> t in h.starts && h.starts[t] < h.clock - h.retention)
    && (t in h.unpaid ==> t in h.committed)
    && (t in h.hooked ==> t in h.starts && (Live(h, t) ==> !Starting(h, t)))
    && (t in h.hooked && t in h.rows && t in h.accounts ==> t in h.links)
    && (t in h.links ==> t in h.accounts && h.links[t] == h.accounts[t])
  }

  ghost predicate TableOk(h: House) { BindingsOk(h) && forall t: string :: RowOk(h, t) }

  /** Before the first session. */
  function FirstHouse(clock: int, retention: nat): (h: House)
    ensures TableOk(h)
  {
    House(EMPTY_LEDGER, map[], map[], map[], {}, clock, retention, map[], {}, {}, {})
  }

  /** Only binding and releasing change who is bound to an account. */
  lemma CallKeepsAccounts(h: House, op: Op)
    requires BindingsOk(h) && CanCall(h, op)
    ensures forall t: string, k: Subject :: Account(k) ==> (Bound(Effect(h.ledger, op), t, k) <==> Bound(h.ledger, t, k))
    ensures forall t :: t in Effect(h.ledger, op).reservations <==> Live(h, t) || (op.BeginOp? && t == op.s)
  {
    hide IndexOk, LedgerMove, BindAll;
    var l := h.ledger;
    match op
    case BeginOp(s, startTime, ceiling, ks, restored) => if s !in l.reservations { BeginKeeps(l, s, startTime, ceiling, ks, restored); }
    case BindOp(s, ks) => if s in l.reservations { BindAllKeeps(l, s, ks); }
    case PrepareOp(s, a, b) => if s in l.reservations { BindOneKeeps(l, s, b); }
    case CommitMoveOp(m) => UnbindKeeps(l, m.session, m.oldSubject);
    case AbortMoveOp(m) => UnbindKeeps(l, m.session, m.newSubject);
    case _ =>
  }

  lemma {:induction false} BindAllDetails(l: Ledger, s: string, ks: seq<Subject>)
    requires s in l.reservations
    ensures forall t :: t in l.reservations ==> BindAll(l, s, ks).reservations[t].(bindings := map[]) == l.reservations[t].(bindings := map[])
    decreases |ks|
  {
    if ks != [] { BindAllDetails(BindOne(l, s, ks[0]), s, ks[1..]); }
  }

  /** Start times stay, and no call makes a session Starting again. */
  lemma CallKeepsDetails(h: House, op: Op, t: string)
    requires CanCall(h, op) && t in Effect(h.ledger, op).reservations
    ensures var r := Effect(h.ledger, op).reservations[t];
            if Live(h, t) then r.startTime == h.ledger.reservations[t].startTime && (r.phase.Starting? ==> Starting(h, t))
            else op.BeginOp? && t == op.s && r.startTime == op.startTime
  {
    var l := h.ledger;
    match op
    case BeginOp(s, startTime, ceiling, ks, restored) =>
      if s !in l.reservations {
        var m := l.(reservations := l.reservations[s := Reservation(startTime, Phase.Starting, restored, Normalize(ceiling), map[])]);
        BindAllDetails(m, s, ks);
        assert m.reservations[t].(bindings := map[]) == Begin(l, s, startTime, ceiling, ks, restored).reservations[t].(bindings := map[]);
      }
    case BindOp(s, ks) =>
      if s in l.reservations {
        BindAllDetails(l, s, ks);
        assert l.reservations[t].(bindings := map[]) == BindAll(l, s, ks).reservations[t].(bindings := map[]);
      }
    case _ =>
  }

  lemma CallKeeps(h: House, op: Op)
    requires TableOk(h) && CanTurn(h, Call(op))
    ensures TableOk(Turned(h, Call(op)))
  {
    var v := Turned(h, Call(op));
    EffectKeeps(h.ledger, op);
    CallKeepsAccounts(h, op);
    forall t | Live(v, t) ensures t in v.starts && v.ledger.reservations[t].startTime == v.starts[t] {
      CallKeepsDetails(h, op, t);
    }
    forall t: string ensures RowOk(v, t) {
      assert RowOk(h, t);
      if Live(v, t) { CallKeepsDetails(h, op, t); }
    }
  }

  lemma IdentifyKeeps(h: House, t: string, k: Subject)
    requires TableOk(h) && CanTurn(h, Identify(t, k))
    ensures TableOk(Turned(h, Identify(t, k)))
  {
    var v := Turned(h, Identify(t, k));
    BindAllKeeps(h.ledger, t, [k]);
    BindAllDetails(h.ledger, t, [k]);
    assert forall u :: Live(v, u) <==> Live(h, u);
    forall u: string | Live(h, u) ensures v.ledger.reservations[u].phase == h.ledger.reservations[u].phase
      ensures v.ledger.reservations[u].startTime == h.ledger.reservations[u].startTime
    {
      assert v.ledger.reservations[u].(bindings := map[]) == h.ledger.reservations[u].(bindings := map[]);
    }
    forall u: string ensures RowOk(v, u) { assert RowOk(h, u); }
  }

  lemma ReleaseTurnKeeps(h: House, t: string)
    requires TableOk(h) && CanTurn(h, Release(t))
    ensures TableOk(Turned(h, Release(t)))
  {
    var v := Turned(h, Release(t));
    ReleaseKeeps(h.ledger, t);
    forall u: string ensures RowOk(v, u) { assert RowOk(h, u); }
  }

  /** Turns that leave the ledger alone. */
  lemma TableKeeps(h: House, e: Turn)
    requires TableOk(h) && CanTurn(h, e) && !e.Call? && !e.Identify? && !e.Release?
    ensures TableOk(Turned(h, e))
  {
    var v := Turned(h, e);
    forall u: string ensures RowOk(v, u) { assert RowOk(h, u); }
  }

  lemma TurnKeeps(h: House, e: Turn)
    requires TableOk(h) && CanTurn(h, e)
    ensures TableOk(Turned(h, e))
  {
    match e
    case Call(op) => CallKeeps(h, op);
    case Identify(t, k) => IdentifyKeeps(h, t, k);
    case Release(t) => ReleaseTurnKeeps(h, t);
    case _ => TableKeeps(h, e);
  }

  /** In every run the rows, the links and the reservations tell the same story. */
  lemma {:induction false} RunKeeps(h: House, es: seq<Turn>)
    requires TableOk(h) && CanRun(h, es)
    ensures TableOk(After(h, es))
    decreases |es|
  {
    if es != [] {
      TurnKeeps(h, es[0]);
      RunKeeps(Turned(h, es[0]), es[1..]);
    }
  }
}
