/** The durable side of claim-fee accounting (src/modules/faucet-outflow/FaucetOutflowModule.ts):
    the outflow entry and the session rows of native claims, and what keeps every fee debited
    exactly once. */
module FeeAccounting {
  import opened Wrappers
  import opened ClaimData
  import opened OutflowLedger

  /** hooked and cleared are history: the sessions whose fee hook has returned normally, and
      those whose clean-up guard has answered yes. */
  datatype World = World(entry: Option<OutflowState>, rows: map<string, Slot>, hooked: set<string>, cleared: set<string>)

  function SlotAt(w: World, s: string): Slot { if s in w.rows then w.rows[s] else Absent }

  predicate ConfirmedSlot(s: Slot) { s.HasClaim() && s.Claimed().Confirmed? }

  predicate FinishedSlot(s: Slot) { !s.Absent? && s.row.status == StatusFinished }

  function Paid(w: World, s: string): nat { if w.entry.None? then 0 else w.entry.value.paid[s] }

  function Fees(w: World): map<string, string> { if w.entry.None? then map[] else w.entry.value.fees }

  /** The fee marker of the confirmed claim of session s is in the entry. */
  predicate Marked(w: World, s: string) {
    var c := SlotAt(w, s);
    ConfirmedSlot(c) && c.Claimed().tx.txHash in Fees(w) && Fees(w)[c.Claimed().tx.txHash] == s
  }

  /** Fee accounting of one session: finished is debited once, unfinished is debited exactly
      when its marker is present; a finished session, and a session whose hook returned
      without being finished yet, is accounted for. */
  predicate SessionAccounted(w: World, s: string) {
    && SlotOk(SlotAt(w, s))
    && Paid(w, s) == (if FinishedSlot(SlotAt(w, s)) || Marked(w, s) then 1 else 0)
    && (s in w.hooked ==> FinishedSlot(SlotAt(w, s)) || Marked(w, s))
    && (FinishedSlot(SlotAt(w, s)) ==> s in w.hooked)
  }

  /** Every marker belongs to a session whose claim confirmed that very transaction. */
  predicate MarkerConfirmed(w: World, h: string) {
    h in Fees(w) ==>
      var c := SlotAt(w, Fees(w)[h]);
      ConfirmedSlot(c) && c.Claimed().tx.txHash == h
  }

  /** Exactly-once: what holds in every run. */
  ghost predicate Accounted(w: World, limit: nat) {
    && (forall s: string :: SessionAccounted(w, s))
    && (forall h: string :: MarkerConfirmed(w, h))
    && |Fees(w)| <= limit
    && (w.entry.Some? ==> Canonical(w.entry.value))
  }

  /** The row of a marker exists; a session cleared for deletion has no marker. */
  ghost predicate MarkersOwned(w: World) {
    && (forall h: string :: h in Fees(w) ==> SlotAt(w, Fees(w)[h]).Live?)
    && (forall s: string :: s in w.cleared ==> FinishedSlot(SlotAt(w, s)) && !Marked(w, s))
  }

  /** Who was cleared for deletion is finished, and a finished row is deleted only then. */
  ghost predicate HistoryOk(w: World) {
    forall s: string ::
      && (s in w.cleared ==> FinishedSlot(SlotAt(w, s)))
      && (SlotAt(w, s).Erased? && FinishedSlot(SlotAt(w, s)) ==> s in w.cleared)
  }

  /** No marker names a session that is cleared for deletion or deleted. */
  ghost predicate NamesNoCleared(w: World, fees: map<string, string>) {
    forall h :: h in fees ==> fees[h] !in w.cleared && !SlotAt(w, fees[h]).Erased?
  }

  /** Every marker has its row if and only if none names a cleared or deleted session. */
  lemma OwnedExactly(w: World, limit: nat)
    requires Accounted(w, limit) && HistoryOk(w)
    ensures MarkersOwned(w) <==> NamesNoCleared(w, Fees(w))
  {
    if MarkersOwned(w) {
      forall h | h in Fees(w) ensures Fees(w)[h] !in w.cleared && !SlotAt(w, Fees(w)[h]).Erased? {
        assert MarkerConfirmed(w, h);
        if Fees(w)[h] in w.cleared { assert Marked(w, Fees(w)[h]); }
      }
    }
    if NamesNoCleared(w, Fees(w)) {
      forall h: string | h in Fees(w) ensures SlotAt(w, Fees(w)[h]).Live? { assert MarkerConfirmed(w, h); }
    }
  }

  /** A marker's session is deleted only after being cleared. */
  lemma NamedErased(w: World, h: string, limit: nat)
    requires Accounted(w, limit) && HistoryOk(w) && h in Fees(w) && SlotAt(w, Fees(w)[h]).Erased?
    ensures Fees(w)[h] in w.cleared
  {
    assert MarkerConfirmed(w, h) && SessionAccounted(w, Fees(w)[h]);
  }

  /** What the rest of the system may do to the rows at an await of an outflow operation:
      rows only move forward; FINISHED needs a successful hook, and deleting a finished row
      needs the guard's consent. */
  ghost predicate EnvironmentMove(w: World, v: World) {
    && v.entry == w.entry && v.hooked == w.hooked && v.cleared == w.cleared
    && forall s: string :: RowMove(w, SlotAt(w, s), SlotAt(v, s), s)
  }

  predicate RowMove(w: World, a: Slot, b: Slot, s: string) {
    && SlotLeq(a, b) && SlotOk(b)
    && (FinishedSlot(b) && !FinishedSlot(a) ==> s in w.hooked)
    && (b.Erased? && !a.Erased? && FinishedSlot(b) ==> s in w.cleared)
  }

  /** One event, or any number of them, at an await: the relation is transitive. */
  lemma EnvironmentMoveTransitive(w: World, v: World, u: World)
    requires EnvironmentMove(w, v) && EnvironmentMove(v, u)
    ensures EnvironmentMove(w, u)
  {
    forall s: string ensures RowMove(w, SlotAt(w, s), SlotAt(u, s), s) {
      assert RowMove(w, SlotAt(w, s), SlotAt(v, s), s);
      assert RowMove(v, SlotAt(v, s), SlotAt(u, s), s);
      SlotLeqTransitive(SlotAt(w, s), SlotAt(v, s), SlotAt(u, s));
    }
  }

  /** Each Sessions statement, called as the rest of the system calls it, is such a move:
      finalization after the hooks, deletion of a finished row after the guard. */
  lemma StatementsAreMoves(w: World, s: string, a: Slot)
    requires SlotOk(a)
    ensures forall n: nat :: RowMove(w, a, InsertRunning(a, n), s)
    ensures forall n: nat :: RowMove(w, a, TransitionSession(a, StatusClaimable, StatusRunning, n), s)
    ensures forall n: nat :: RowMove(w, a, TransitionSession(a, StatusFailed, StatusRunning, n), s)
    ensures forall n: nat, i: nat, t: nat :: RowMove(w, a, TryCreateClaim(a, n, Queue(i, t)), s)
    ensures forall p: Claim, q: Claim :: p != q && Leq(p, q) ==> RowMove(w, a, CompareAndSetClaim(a, p, q), s)
    ensures forall p: Claim :: s in w.hooked && p.Confirmed? ==> RowMove(w, a, FinalizeConfirmedClaim(a, p), s)
    ensures forall r: Row :: (r.status == StatusFinished ==> s in w.cleared) ==> RowMove(w, a, CleanupCandidate(a, r), s)
  {}

  /** Session transitions, finalization and clean-up by others keep the accounting. */
  lemma EnvironmentKeepsAccounts(w: World, v: World, limit: nat)
    requires Accounted(w, limit) && EnvironmentMove(w, v)
    ensures Accounted(v, limit)
    ensures MarkersOwned(w) ==> MarkersOwned(v)
    ensures HistoryOk(w) ==> HistoryOk(v)
  {
    if HistoryOk(w) {
      forall s: string ensures (s in v.cleared ==> FinishedSlot(SlotAt(v, s)))
        ensures SlotAt(v, s).Erased? && FinishedSlot(SlotAt(v, s)) ==> s in v.cleared
      {
        assert RowMove(w, SlotAt(w, s), SlotAt(v, s), s);
      }
    }
    forall s: string ensures SessionAccounted(v, s) && (Marked(v, s) <==> Marked(w, s)) {
      MoveKeepsSession(w, v, s, limit);
    }
    forall h: string ensures MarkerConfirmed(v, h) {
      assert MarkerConfirmed(w, h);
      if h in Fees(w) { assert RowMove(w, SlotAt(w, Fees(w)[h]), SlotAt(v, Fees(w)[h]), Fees(w)[h]); }
    }
    if MarkersOwned(w) {
      forall h: string | h in Fees(v) ensures SlotAt(v, Fees(v)[h]).Live? {
        var s := Fees(w)[h];
        assert MarkerConfirmed(w, h) && SlotAt(w, s).Live? && Marked(w, s);
        assert SessionAccounted(w, s);
        assert RowMove(w, SlotAt(w, s), SlotAt(v, s), s);
      }
      forall s: string | s in v.cleared ensures FinishedSlot(SlotAt(v, s)) && !Marked(v, s) {
        assert RowMove(w, SlotAt(w, s), SlotAt(v, s), s);
      }
    }
  }

  lemma MoveKeepsSession(w: World, v: World, s: string, limit: nat)
    requires Accounted(w, limit) && EnvironmentMove(w, v)
    ensures SessionAccounted(v, s) && (Marked(v, s) <==> Marked(w, s))
    ensures SlotLeq(SlotAt(w, s), SlotAt(v, s))
  {
    assert SessionAccounted(w, s);
    assert RowMove(w, SlotAt(w, s), SlotAt(v, s), s);
    var c := SlotAt(v, s);
    if ConfirmedSlot(c) { assert MarkerConfirmed(w, c.Claimed().tx.txHash); }
  }

  /** isDurablyFinalizedClaim, of a row that exists or existed. */
  predicate Finalized(w: World, s: string, h: string) {
    var c := SlotAt(w, s);
    FinishedSlot(c) && ConfirmedSlot(c) && c.Claimed().tx.txHash == h
  }

  /** The fee books m relative to the entry: m lacks the fees of the sessions in lost, and
      otherwise differs only in markers of finalized sessions. */
  ghost predicate Books(w: World, m: OutflowState, lost: set<string>, limit: nat) {
    && m.paid + multiset(lost) == (if w.entry.None? then multiset{} else w.entry.value.paid)
    && (forall s :: s in lost ==> Marked(w, s) && s !in w.hooked)
    && (forall h :: h in m.fees ==>
          (h in Fees(w) && Fees(w)[h] == m.fees[h] && m.fees[h] !in lost) || Finalized(w, m.fees[h], h))
    && (forall h :: h in Fees(w) ==>
          (h in m.fees && m.fees[h] == Fees(w)[h]) || Fees(w)[h] in lost || Finalized(w, Fees(w)[h], h))
    && |m.fees| <= limit
  }

  /** Equal in every field of the stored JSON, which has no record of who has paid. */
  predicate SameJson(a: Option<OutflowState>, b: Option<OutflowState>) {
    if a.None? || b.None? then a == b else a.value.(paid := b.value.paid) == b.value
  }

  /** Still the JSON tells the entry from books that are about to be written over it. */
  lemma JsonTellsBooks(w: World, n: OutflowState, lost: set<string>, limit: nat)
    requires Accounted(w, limit) && Books(w, n, lost, limit) && SameJson(w.entry, Some(n))
    ensures w.entry == Some(n)
  {
    forall s: string ensures s !in lost {
      assert SessionAccounted(w, s);
    }
    assert lost == {} && n.paid + multiset(lost) == n.paid;
  }

  lemma BooksStable(w: World, v: World, m: OutflowState, lost: set<string>, limit: nat)
    requires Accounted(w, limit) && EnvironmentMove(w, v) && Books(w, m, lost, limit)
    ensures Books(v, m, lost, limit)
  {
    forall s: string ensures (Marked(v, s) <==> Marked(w, s)) && SlotLeq(SlotAt(w, s), SlotAt(v, s)) {
      MoveKeepsSession(w, v, s, limit);
    }
    forall s: string, h: string ensures Finalized(w, s, h) ==> Finalized(v, s, h) {
      assert SlotLeq(SlotAt(w, s), SlotAt(v, s));
    }
  }

  /** A blind write of books that lag behind the entry still leaves every fee accounted for:
      a lost fee loses its debit and its marker together. */
  lemma BlindWriteKeepsAccounts(w: World, n: OutflowState, lost: set<string>, limit: nat)
    requires Accounted(w, limit) && Books(w, n, lost, limit) && Canonical(n)
    ensures Accounted(w.(entry := Some(n)), limit)
  {
    var v := w.(entry := Some(n));
    forall s: string ensures SessionAccounted(v, s) {
      assert SessionAccounted(w, s);
      assert SlotAt(v, s) == SlotAt(w, s);
      assert (n.paid + multiset(lost))[s] == Paid(w, s);
      var c := SlotAt(w, s);
      if ConfirmedSlot(c) { assert MarkerConfirmed(w, c.Claimed().tx.txHash); }
    }
    forall h: string ensures MarkerConfirmed(v, h) {
      assert MarkerConfirmed(w, h);
      if h in n.fees { assert SlotAt(v, n.fees[h]) == SlotAt(w, n.fees[h]); }
    }
  }

  /** After a blind write every marker has its row if and only if the books written name no
      cleared or deleted session, whatever the entry held before. */
  lemma BlindWriteOwnersExactly(w: World, n: OutflowState, lost: set<string>, limit: nat)
    requires Accounted(w, limit) && HistoryOk(w) && Books(w, n, lost, limit) && Canonical(n)
    ensures MarkersOwned(w.(entry := Some(n))) <==> NamesNoCleared(w, n.fees)
  {
    var v := w.(entry := Some(n));
    BlindWriteKeepsAccounts(w, n, lost, limit);
    assert forall s: string :: SlotAt(v, s) == SlotAt(w, s);
    OwnedExactly(v, limit);
  }

  /** b drops from a's markers only those whose session is FINISHED with that transaction. */
  predicate PrunedFrom(w: World, a: map<string, string>, b: map<string, string>) {
    && b.Keys <= a.Keys
    && (forall h :: h in b ==> b[h] == a[h])
    && (forall h :: h in a && h !in b ==> Finalized(w, a[h], h))
  }

  ghost predicate FeeReady(w: World, pruned: map<string, string>, h: string, s: string, limit: nat) {
    && w.entry.Some?
    && PrunedFrom(w, Fees(w), pruned) && |pruned| < limit
    && h !in Fees(w)
    && SlotAt(w, s).Live? && SlotAt(w, s).row.status == StatusClaiming
    && ConfirmedSlot(SlotAt(w, s)) && SlotAt(w, s).Claimed().tx.txHash == h
  }

  lemma FeeReadyStable(w: World, v: World, pruned: map<string, string>, h: string, s: string, limit: nat)
    requires Accounted(w, limit) && EnvironmentMove(w, v) && FeeReady(w, pruned, h, s, limit)
    ensures FeeReady(v, pruned, h, s, limit)
  {
    forall x: string ensures SlotLeq(SlotAt(w, x), SlotAt(v, x)) { MoveKeepsSession(w, v, x, limit); }
    forall x: string, g: string ensures Finalized(w, x, g) ==> Finalized(v, x, g) {
      assert SlotLeq(SlotAt(w, x), SlotAt(v, x));
    }
    assert SessionAccounted(w, s);
    assert RowMove(w, SlotAt(w, s), SlotAt(v, s), s);
  }

  /** v is w with the fee of s charged, whatever the balance. */
  ghost predicate Charged(w: World, v: World, pruned: map<string, string>, h: string, s: string) {
    && v == w.(entry := v.entry) && v.entry.Some? && w.entry.Some?
    && v.entry.value.fees == pruned[h := s] && v.entry.value.paid == w.entry.value.paid + multiset{s}
  }

  lemma FeeWriteKeepsAccounts(w: World, pruned: map<string, string>, h: string, s: string, fee: nat, now: nat, upper: int, limit: nat)
    requires Accounted(w, limit) && FeeReady(w, pruned, h, s, limit)
    ensures Canonical(w.entry.value)
    ensures var v := w.(entry := Some(FeeNext(w.entry.value, pruned, h, s, fee, now, upper)));
            && Accounted(v, limit) && Marked(v, s) && s !in v.hooked
            && (MarkersOwned(w) ==> MarkersOwned(v))
  {
    var n := FeeNext(w.entry.value, pruned, h, s, fee, now, upper);
    var v := w.(entry := Some(n));
    AccrueCanonical(w.entry.value, now, upper);
    DebitCanonical(Accrue(w.entry.value, now, upper), fee);
    assert Canonical(n);
    assert n.fees.Keys == pruned.Keys + {h};
    ChargedAccounts(w, v, pruned, h, s, limit);
    ChargedOwners(w, v, pruned, h, s, limit);
  }

  lemma ChargedAccounts(w: World, v: World, pruned: map<string, string>, h: string, s: string, limit: nat)
    requires Accounted(w, limit) && FeeReady(w, pruned, h, s, limit) && Charged(w, v, pruned, h, s)
    ensures forall x: string :: SessionAccounted(v, x)
    ensures forall g: string :: MarkerConfirmed(v, g)
    ensures Marked(v, s) && s !in v.hooked
  {
    assert SessionAccounted(w, s);
    assert SlotAt(v, s) == SlotAt(w, s);
    forall x: string ensures SessionAccounted(v, x) {
      assert SessionAccounted(w, x);
      var c := SlotAt(w, x);
      assert SlotAt(v, x) == c;
      if ConfirmedSlot(c) { assert MarkerConfirmed(w, c.Claimed().tx.txHash); }
    }
    forall g: string ensures MarkerConfirmed(v, g) {
      assert MarkerConfirmed(w, g);
      if g in Fees(v) { assert SlotAt(v, Fees(v)[g]) == SlotAt(w, Fees(v)[g]); }
    }
  }

  lemma ChargedOwners(w: World, v: World, pruned: map<string, string>, h: string, s: string, limit: nat)
    requires Accounted(w, limit) && FeeReady(w, pruned, h, s, limit) && Charged(w, v, pruned, h, s)
    ensures MarkersOwned(w) ==> MarkersOwned(v)
  {
    if MarkersOwned(w) {
      forall g: string | g in Fees(v) ensures SlotAt(v, Fees(v)[g]).Live? { assert SlotAt(v, Fees(v)[g]) == SlotAt(w, Fees(v)[g]); }
      forall x: string | x in v.cleared ensures FinishedSlot(SlotAt(v, x)) && !Marked(v, x) { assert SlotAt(v, x) == SlotAt(w, x); }
    }
  }

  /** Books that follow the entry before the fee write lack exactly that fee after it. */
  lemma FeeWriteLeavesLag(w: World, m: OutflowState, lost: set<string>, pruned: map<string, string>, h: string, s: string,
                          fee: nat, now: nat, upper: int, limit: nat)
    requires Accounted(w, limit) && FeeReady(w, pruned, h, s, limit) && Books(w, m, lost, limit)
    ensures Canonical(w.entry.value)
    ensures Books(w.(entry := Some(FeeNext(w.entry.value, pruned, h, s, fee, now, upper))), m, lost + {s}, limit)
  {
    FeeWriteKeepsAccounts(w, pruned, h, s, fee, now, upper, limit);
    LagAfter(w, w.(entry := Some(FeeNext(w.entry.value, pruned, h, s, fee, now, upper))), m, lost, pruned, h, s, limit);
  }

  lemma LagAfter(w: World, v: World, m: OutflowState, lost: set<string>, pruned: map<string, string>, h: string, s: string, limit: nat)
    requires Accounted(w, limit) && FeeReady(w, pruned, h, s, limit) && Books(w, m, lost, limit) && Charged(w, v, pruned, h, s)
    ensures Books(v, m, lost + {s}, limit)
  {
    assert SessionAccounted(w, s);
    assert !Marked(w, s) && s !in lost;
    LagPaid(m.paid, w.entry.value.paid, lost, s);
    forall x | x in lost + {s} ensures Marked(v, x) && x !in v.hooked { LagMarked(w, v, pruned, h, s, x, limit); }
    forall g | g in m.fees
      ensures (g in Fees(v) && Fees(v)[g] == m.fees[g] && m.fees[g] !in lost + {s}) || Finalized(v, m.fees[g], g)
    {
      LagMarker(w, v, pruned, h, s, g, m.fees[g], limit);
    }
    forall g | g in Fees(v)
      ensures (g in m.fees && m.fees[g] == Fees(v)[g]) || Fees(v)[g] in lost + {s} || Finalized(v, Fees(v)[g], g)
    {
      if g != h { LagEntry(w, v, m, pruned, lost, g, limit); }
    }
  }

  lemma LagPaid(m: multiset<string>, p: multiset<string>, lost: set<string>, s: string)
    requires m + multiset(lost) == p && s !in lost
    ensures m + multiset(lost + {s}) == p + multiset{s}
  {
    assert multiset(lost + {s}) == multiset(lost) + multiset{s};
  }

  lemma LagEntry(w: World, v: World, m: OutflowState, pruned: map<string, string>, lost: set<string>, g: string, limit: nat)
    requires Books(w, m, lost, limit) && w.entry.Some? && PrunedFrom(w, Fees(w), pruned)
    requires v == w.(entry := v.entry) && g in pruned
    ensures (g in m.fees && m.fees[g] == pruned[g]) || pruned[g] in lost || Finalized(v, pruned[g], g)
  {
    assert SlotAt(v, pruned[g]) == SlotAt(w, pruned[g]);
  }

  lemma LagMarked(w: World, v: World, pruned: map<string, string>, h: string, s: string, x: string, limit: nat)
    requires Accounted(w, limit) && FeeReady(w, pruned, h, s, limit)
    requires v == w.(entry := v.entry) && v.entry.Some? && v.entry.value.fees == pruned[h := s]
    requires x == s || (Marked(w, x) && x !in w.hooked)
    ensures Marked(v, x) && x !in v.hooked
  {
    assert SessionAccounted(w, x);
    assert SlotAt(v, x) == SlotAt(w, x);
  }

  lemma LagMarker(w: World, v: World, pruned: map<string, string>, h: string, s: string, g: string, x: string, limit: nat)
    requires Accounted(w, limit) && FeeReady(w, pruned, h, s, limit)
    requires v == w.(entry := v.entry) && v.entry.Some? && v.entry.value.fees == pruned[h := s]
    requires (g in Fees(w) && Fees(w)[g] == x) || Finalized(w, x, g)
    ensures (g in Fees(v) && Fees(v)[g] == x && x != s) || Finalized(v, x, g)
  {
    assert SlotAt(v, x) == SlotAt(w, x);
    assert MarkerConfirmed(w, g);
  }

  /** A hook that returned normally leaves its session marked or finished. */
  lemma HookKeepsAccounts(w: World, s: string, limit: nat)
    requires Accounted(w, limit) && (Marked(w, s) || FinishedSlot(SlotAt(w, s)))
    ensures var v := w.(hooked := w.hooked + {s}); Accounted(v, limit) && (MarkersOwned(w) ==> MarkersOwned(v)) && (HistoryOk(w) ==> HistoryOk(v))
  {
    var v := w.(hooked := w.hooked + {s});
    assert forall x: string :: SlotAt(v, x) == SlotAt(w, x);
    forall x: string ensures SessionAccounted(v, x) { assert SessionAccounted(w, x); }
    forall g: string ensures MarkerConfirmed(v, g) { assert MarkerConfirmed(w, g); }
  }

  /** The clean-up guard says yes for a finished session only when its marker is gone. */
  lemma ClearKeepsAccounts(w: World, s: string, limit: nat)
    requires Accounted(w, limit) && FinishedSlot(SlotAt(w, s)) && !Marked(w, s)
    ensures var v := w.(cleared := w.cleared + {s}); Accounted(v, limit) && (MarkersOwned(w) ==> MarkersOwned(v)) && (HistoryOk(w) ==> HistoryOk(v))
  {
    var v := w.(cleared := w.cleared + {s});
    assert forall x: string :: SlotAt(v, x) == SlotAt(w, x);
    forall x: string ensures SessionAccounted(v, x) { assert SessionAccounted(w, x); }
    forall g: string ensures MarkerConfirmed(v, g) { assert MarkerConfirmed(w, g); }
  }
}
