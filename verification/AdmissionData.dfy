/** The admission ledger of src/session/AdmissionLedger.ts as a value: reservations, the index
    by subject, and what each operation does to them. */
module AdmissionData {
  import opened Wrappers

  /** The ledger's key of a subject is the JSON of exactly these parts. */
  datatype Subject =
    | Ip(value: string)
    | Address(value: string)
    | Principal(namespace: string, value: string)
    | Scope(namespace: string, value: string)

  datatype Phase = Starting | Running | Committing

  datatype Reservation = Reservation(startTime: int, phase: Phase, settled: bool, ceiling: nat, bindings: map<Subject, nat>)

  datatype Ledger = Ledger(reservations: map<string, Reservation>, index: map<Subject, map<string, nat>>, nextOrder: nat)

  datatype Move = Move(session: string, oldSubject: Subject, newSubject: Subject, newWasBound: bool)

  function Normalize(amount: int): nat { if amount < 0 then 0 else amount }

  predicate Bound(l: Ledger, s: string, k: Subject) { s in l.reservations && k in l.reservations[s].bindings }

  function OrderOf(l: Ledger, s: string, k: Subject): nat
    requires Bound(l, s, k)
  {
    l.reservations[s].bindings[k]
  }

  predicate Indexed(l: Ledger, k: Subject, s: string) { k in l.index && s in l.index[k] }

  /** The index holds exactly the bindings, with their orders; orders are unique and none is
      above the last one handed out. */
  ghost predicate IndexOk(l: Ledger) {
    && (forall k: Subject, s: string :: Indexed(l, k, s) <==> Bound(l, s, k))
    && (forall k: Subject, s: string :: Indexed(l, k, s) && Bound(l, s, k) ==> l.index[k][s] == OrderOf(l, s, k))
    && (forall k :: k in l.index ==> l.index[k] != map[])
    && (forall s: string, k: Subject :: Bound(l, s, k) ==> 0 < OrderOf(l, s, k) <= l.nextOrder)
    && (forall s: string, k: Subject, t: string, j: Subject ::
          Bound(l, s, k) && Bound(l, t, j) && OrderOf(l, s, k) == OrderOf(l, t, j) ==> s == t && k == j)
  }

  const EMPTY_LEDGER := Ledger(map[], map[], 0)

  // ------------------------------------------------------------------ operations

  function BindOne(l: Ledger, s: string, k: Subject): Ledger
    requires s in l.reservations
  {
    if k in l.reservations[s].bindings then l
    else
      var order := l.nextOrder + 1;
      var r := l.reservations[s];
      var sessions := if k in l.index then l.index[k] else map[];
      Ledger(l.reservations[s := r.(bindings := r.bindings[k := order])], l.index[k := sessions[s := order]], order)
  }

  function BindAll(l: Ledger, s: string, ks: seq<Subject>): (r: Ledger)
    requires s in l.reservations
    ensures r.reservations.Keys == l.reservations.Keys
    decreases |ks|
  {
    if ks == [] then l else BindAll(BindOne(l, s, ks[0]), s, ks[1..])
  }

  function Begin(l: Ledger, s: string, startTime: int, ceiling: int, ks: seq<Subject>, settled: bool): Ledger
    requires s !in l.reservations
  {
    BindAll(l.(reservations := l.reservations[s := Reservation(startTime, Starting, settled, Normalize(ceiling), map[])]), s, ks)
  }

  /** removeIndexedSession. */
  function Unindexed(index: map<Subject, map<string, nat>>, k: Subject, s: string): map<Subject, map<string, nat>> {
    if k !in index then index
    else if index[k] - {s} == map[] then index - {k}
    else index[k := index[k] - {s}]
  }

  /** removeBinding. */
  function Unbind(l: Ledger, s: string, k: Subject): Ledger {
    if !Bound(l, s, k) then l
    else
      var r := l.reservations[s];
      l.(reservations := l.reservations[s := r.(bindings := r.bindings - {k})], index := Unindexed(l.index, k, s))
  }

  /** The index without session s under the subjects of ks. */
  function Dropped(index: map<Subject, map<string, nat>>, s: string, ks: set<Subject>): map<Subject, map<string, nat>> {
    map k | k in index && (k in ks ==> index[k] - {s} != map[]) :: if k in ks then index[k] - {s} else index[k]
  }

  function Release(l: Ledger, s: string): Ledger {
    if s !in l.reservations then l
    else l.(reservations := l.reservations - {s}, index := Dropped(l.index, s, l.reservations[s].bindings.Keys))
  }

  function SetPhase(l: Ledger, s: string, p: Phase): Ledger
    requires s in l.reservations
  {
    l.(reservations := l.reservations[s := l.reservations[s].(phase := p)])
  }

  function SetCeiling(l: Ledger, s: string, amount: int): Ledger
    requires s in l.reservations
  {
    l.(reservations := l.reservations[s := l.reservations[s].(settled := true, ceiling := Normalize(amount))])
  }

  function RaiseCeiling(l: Ledger, s: string, amount: int): Ledger
    requires s in l.reservations
  {
    if Normalize(amount) > l.reservations[s].ceiling
    then l.(reservations := l.reservations[s := l.reservations[s].(ceiling := Normalize(amount))]) else l
  }

  function PrepareMove(l: Ledger, s: string, a: Subject, b: Subject): (Ledger, Move)
    requires s in l.reservations
  {
    (BindOne(l, s, b), Move(s, a, b, b in l.reservations[s].bindings))
  }

  function CommitMove(l: Ledger, m: Move): Ledger {
    if m.oldSubject != m.newSubject then Unbind(l, m.session, m.oldSubject) else l
  }

  function AbortMove(l: Ledger, m: Move): Ledger {
    if !m.newWasBound then Unbind(l, m.session, m.newSubject) else l
  }

  // ------------------------------------------------------------------ prior usage

  datatype UsageOptions = UsageOptions(minStartTime: Option<int>, exclude: set<string>)

  const ALL_USAGE := UsageOptions(None, {})

  datatype Usage = Usage(count: nat, amount: nat, sessionIds: set<string>, amounts: map<string, nat>, provisional: set<string>)

  predicate Admits(l: Ledger, t: string, o: UsageOptions) {
    && t in l.reservations && t !in o.exclude
    && (o.minStartTime.Some? ==> l.reservations[t].startTime >= o.minStartTime.value)
  }

  /** Session t counts against s on subject k: it is past its start, or was bound earlier. */
  predicate CountsAgainst(l: Ledger, s: string, k: Subject, t: string)
    requires Bound(l, s, k)
  {
    t != s && Bound(l, t, k) && (!l.reservations[t].phase.Starting? || OrderOf(l, t, k) < OrderOf(l, s, k))
  }

  predicate CountsOnAny(l: Ledger, s: string, ks: seq<Subject>, t: string)
    requires forall k :: k in ks ==> Bound(l, s, k)
  {
    exists k :: k in ks && CountsAgainst(l, s, k, t)
  }

  function Prior(l: Ledger, s: string, ks: seq<Subject>, o: UsageOptions): set<string>
    requires forall k :: k in ks ==> Bound(l, s, k)
  {
    set t | t in l.reservations && Admits(l, t, o) && CountsOnAny(l, s, ks, t)
  }

  // ------------------------------------------------------------------ sums over maps

  ghost function Total(m: map<string, nat>): nat
    decreases |m|
  {
    if m == map[] then 0 else
      var k :| k in m;
      m[k] + Total(m - {k})
  }

  /** The sum does not depend on the order in which entries are taken. */
  lemma {:induction false} TotalSplit(m: map<string, nat>, k: string)
    requires k in m
    ensures Total(m) == m[k] + Total(m - {k})
    decreases |m|
  {
    var j :| j in m && Total(m) == m[j] + Total(m - {j});
    if j != k {
      TotalSplit(m - {j}, k);
      TotalSplit(m - {k}, j);
      assert (m - {j}) - {k} == (m - {k}) - {j};
    }
  }

  lemma TotalAdd(m: map<string, nat>, k: string, v: nat)
    requires k !in m
    ensures Total(m[k := v]) == Total(m) + v
  {
    TotalSplit(m[k := v], k);
    assert m[k := v] - {k} == m;
  }
}
