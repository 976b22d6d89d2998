/** Where FaucetOutflowModule's memory is not what the database holds, and what a blind write of
    such memory can do: the failing runs, and the states in which they start. */
module OutflowLag {
  import opened Wrappers
  import opened ClaimData
  import opened OutflowLedger
  import opened FeeAccounting
  import opened FaucetOutflow
  import opened OutflowService

  lemma LaggingDiffers(w: World, m: OutflowState, lost: set<string>, upper: int, c: nat, limit: nat)
    requires Books(w, m, lost, limit) && lost != {}
    ensures !Follows(m, w.entry, upper, c)
  {
    var s :| s in lost;
    assert Marked(w, s);
    assert multiset(lost)[s] == 1;
    assert (m.paid + multiset(lost))[s] == w.entry.value.paid[s];
  }

  /** With ownership certain, memory follows the entry unless it lags or a fee is unknown and the
      entry is not the one that ownership names. */
  lemma BehindExactly(w: World, c: nat, k: Control, m: OutflowState, p: Policy, limit: nat)
    requires Consistent(w, c, k, m, p, limit) && k.ownership.Certain?
    ensures Follows(m, w.entry, p.upperLimit, c) <==> !k.lagging && (k.uncertainFee.Some? ==> w.entry == k.ownership.durable)
  {
    if k.uncertainFee.Some? && w.entry != k.ownership.durable {
      LaggingDiffers(w, m, k.lost + {k.uncertainFee.value.session}, p.upperLimit, c, limit);
    } else if k.lagging {
      LaggingDiffers(w, m, k.lost, p.upperLimit, c, limit);
    }
  }

  /** A lost acknowledgement, a failed re-read, and a second hook that fails after its first
      read: from any consistent state that is ready to charge a fee, memory ends up stale
      with ownership certain, and a later blind save takes the fee and its marker out again. */
  lemma StaleAfterForeignHook(w: World, c: nat, k: Control, m: OutflowState, p: Policy, pruned: map<string, string>,
                              h: string, s: string, fee: nat, limit: nat)
    requires Consistent(w, c, k, m, p, limit) && k.ownership == Certain(w.entry) && k.uncertainFee.None? && !k.lagging
    requires FeeReady(w, pruned, h, s, limit) && Canonical(w.entry.value)
    ensures var v := w.(entry := Some(FeeNext(w.entry.value, pruned, h, s, fee, c, p.upperLimit)));
            var unknown := k.(uncertainFee := Some(UncertainFee(h, s)));
            var stale := Control(Certain(v.entry), None, true, {s});
            && Consistent(v, c, unknown, m, p, limit)
            && Consistent(v, c, stale, m, p, limit) && !Follows(m, v.entry, p.upperLimit, c)
            && Accounted(v.(entry := Some(m)), limit)
            && Paid(v, s) == 1 && Paid(v.(entry := Some(m)), s) == 0 && !Marked(v.(entry := Some(m)), s)
  {
    var n := FeeNext(w.entry.value, pruned, h, s, fee, c, p.upperLimit);
    var v := w.(entry := Some(n));
    AccrueCanonical(w.entry.value, c, p.upperLimit);
    DebitCanonical(Accrue(w.entry.value, c, p.upperLimit), fee);
    FeeWritten(w, c, k, m, p, n, pruned, h, s, fee, c, LostAck, limit);
    var unknown := k.(uncertainFee := Some(UncertainFee(h, s)));
    assert h in n.fees && h !in w.entry.value.fees;
    ResolveFee(v, c, unknown, m, p, limit);
    var stale := Control(Certain(v.entry), None, true, {s});
    assert k.lost + {s} == {s};
    assert Consistent(v, c, stale, m, p, limit);
    BehindExactly(v, c, stale, m, p, limit);
    BlindWriteKeepsAccounts(v, m, {s}, limit);
    FeeWriteKeepsAccounts(w, pruned, h, s, fee, c, p.upperLimit, limit);
    ErasedFee(v, m, s, limit);
  }

  lemma ErasedFee(v: World, m: OutflowState, s: string, limit: nat)
    requires Accounted(v, limit) && Marked(v, s) && s !in v.hooked && v.entry.Some?
    requires Accounted(v.(entry := Some(m)), limit) && m.paid + multiset({s}) == v.entry.value.paid
    ensures Paid(v, s) == 1 && Paid(v.(entry := Some(m)), s) == 0 && !Marked(v.(entry := Some(m)), s)
  {
    var u := v.(entry := Some(m));
    assert SessionAccounted(v, s) && SessionAccounted(u, s);
    assert SlotAt(u, s) == SlotAt(v, s);
    assert (m.paid + multiset({s}))[s] == m.paid[s] + 1;
  }

  /** A concrete state from which StaleAfterForeignHook applies. */
  lemma StaleStart() returns (w: World, k: Control, m: OutflowState, p: Policy)
    ensures Consistent(w, 0, k, m, p, 2) && k.ownership == Certain(w.entry) && k.uncertainFee.None? && !k.lagging
    ensures FeeReady(w, map[], "0xa", "a", 2) && Canonical(w.entry.value)
  {
    var row := Row(StatusClaiming, 5, Some(Confirmed(1, 0, SignedTx("0xa", "0xf8", 0), 100, 7)));
    m := OutflowState(0, 1, 0, 10, 1, map[], multiset{});
    w := World(Some(m), map["a" := Live(row)], {}, {});
    k := Control(Certain(w.entry), None, false, {});
    p := Policy(10, 1, -100, 100);
    WholeCanonical(0);
    assert forall s: string :: SlotAt(w, s) == if s == "a" then Live(row) else Absent;
    assert forall s: string :: SessionAccounted(w, s);
    assert Accounted(w, 2);
  }

  // ------------------------------------------------------------------ a marker that comes back

  const CLAIM_A: Claim := Confirmed(1, 0, SignedTx("0xa", "0xf8", 0), 100, 7)
  const CLAIM_B: Claim := Confirmed(2, 0, SignedTx("0xb", "0xf9", 1), 90, 5)
  const ROW_A: Row := Row(StatusClaiming, 5, Some(CLAIM_A))
  const ROW_B: Row := Row(StatusFinished, 5, Some(CLAIM_B))
  const POLICY: Policy := Policy(10, 1, -100, 100)

  /** The fee of b is debited, b is FINISHED, and its marker is still in the entry. */
  function Books0(): OutflowState { OutflowState(0, 1, 0, 10, 1, map["0xb" := "b"], multiset{"b"}) }

  function World0(): World { World(Some(Books0()), map["a" := Live(ROW_A), "b" := Live(ROW_B)], {"b"}, {}) }

  function Control0(): Control { Control(Certain(Some(Books0())), None, false, {}) }

  /** The fee write of a drops the marker of b. */
  function Books1(): OutflowState
    requires Canonical(Books0())
  {
    FeeNext(Books0(), map[], "0xa", "a", 7, 0, POLICY.upperLimit)
  }

  function World1(): World
    requires Canonical(Books0())
  {
    World0().(entry := Some(Books1()))
  }

  lemma Slots0()
    ensures Canonical(Books0())
    ensures forall s: string :: SlotAt(World0(), s) == if s == "a" then Live(ROW_A) else if s == "b" then Live(ROW_B) else Absent
  {
    WholeCanonical(0);
  }

  lemma Start0()
    ensures Consistent(World0(), 0, Control0(), Books0(), POLICY, 2) && MarkersOwned(World0())
    ensures Canonical(Books0()) && FeeReady(World0(), map[], "0xa", "a", 2)
  {
    Slots0();
    forall s: string ensures SessionAccounted(World0(), s) { assert multiset{"b"}[s] == if s == "b" then 1 else 0; }
    assert forall h: string :: MarkerConfirmed(World0(), h);
    assert Fees(World0()).Keys == {"0xb"};
    assert Accounted(World0(), 2) && HistoryOk(World0());
    OwnedExactly(World0(), 2);
    assert Finalized(World0(), "b", "0xb");
  }

  /** The write takes effect without an acknowledgement and the re-read fails. */
  lemma FeeLost()
    ensures Canonical(Books0()) && Consistent(World1(), 0, FeeUnknownControl(), Books0(), POLICY, 2)
    ensures MarkersOwned(World1()) && !Marked(World1(), "b")
  {
    Start0();
    FeeUnanswered(World0(), 0, Control0(), Books0(), POLICY, map[], "0xa", "a", 7, 0, 2);
    FeeWriteKeepsAccounts(World0(), map[], "0xa", "a", 7, 0, POLICY.upperLimit, 2);
    Slots0();
    assert Fees(World1()) == map["0xa" := "a"];
    assert SlotAt(World1(), "b") == SlotAt(World0(), "b");
  }

  function World2(): World
    requires Canonical(Books0())
  {
    World1().(cleared := {"b"})
  }

  function World3(): World
    requires Canonical(Books0())
  {
    World2().(rows := map["a" := Live(ROW_A), "b" := Erased(ROW_B)])
  }

  function FeeUnknownControl(): Control { Control0().(uncertainFee := Some(UncertainFee("0xa", "a"))) }

  /** The guard reads the entry, finds no marker of b and consents; */
  lemma ClearedB()
    ensures Canonical(Books0()) && Consistent(World2(), 0, FeeUnknownControl(), Books0(), POLICY, 2) && MarkersOwned(World2())
  {
    FeeLost();
    Slots0();
    assert SlotAt(World1(), "b") == SlotAt(World0(), "b");
    assert World2() == World1().(cleared := World1().cleared + {"b"});
    hide Consistent, Accounted, HistoryOk, MarkersOwned, Books, Marked, FeeNext;
    ClearConsistent(World1(), 0, FeeUnknownControl(), Books0(), POLICY, "b", 2);
    ConsistentAccounted(World1(), 0, FeeUnknownControl(), Books0(), POLICY, 2);
    ClearKeepsAccounts(World1(), "b", 2);
  }

  lemma ConsistentAccounted(w: World, c: nat, k: Control, m: OutflowState, p: Policy, limit: nat)
    requires Consistent(w, c, k, m, p, limit)
    ensures Accounted(w, limit) && HistoryOk(w)
  {}

  lemma DeletionMoves()
    requires Canonical(Books0())
    ensures EnvironmentMove(World2(), World3())
  {
    Slots0();
    forall s: string ensures RowMove(World2(), SlotAt(World2(), s), SlotAt(World3(), s), s) {
      assert SlotAt(World2(), s) == SlotAt(World0(), s);
      assert SlotAt(World3(), s) == if s == "a" then Live(ROW_A) else if s == "b" then Erased(ROW_B) else Absent;
    }
  }

  /** and b is deleted. */
  lemma DeletedB()
    ensures Canonical(Books0()) && Consistent(World3(), 0, FeeUnknownControl(), Books0(), POLICY, 2) && MarkersOwned(World3())
  {
    hide Consistent, Accounted, HistoryOk, MarkersOwned, EnvironmentMove, World2, World3;
    ClearedB();
    DeletionMoves();
    ConsistentAccounted(World2(), 0, FeeUnknownControl(), Books0(), POLICY, 2);
    ConsistentStable(World2(), World3(), 0, 0, FeeUnknownControl(), Books0(), POLICY, 2);
    EnvironmentKeepsAccounts(World2(), World3(), 2);
  }

  /** Another hook reads the entry, which ends the uncertainty, and fails; then memory is saved.
      Pruning finds no row for b and keeps its marker, so the marker is back, for a session that
      no longer exists. It is there to stay: no turn of others removes it. */
  lemma MarkerComesBack()
    ensures Canonical(Books0())
    ensures var stale := Control(Certain(Some(Books1())), None, true, {"a"});
            && Consistent(World3(), 0, stale, Books0(), POLICY, 2) && MarkersOwned(World3())
            && PrunedFrom(World3(), Books0().fees, Books0().fees)
    ensures var v := World3().(entry := Some(Books0()));
            && Consistent(v, 0, Control0(), Books0(), POLICY, 2) && !MarkersOwned(v)
            && forall u: World :: EnvironmentMove(v, u) ==> !MarkersOwned(u)
  {
    DeletedB();
    var k := FeeUnknownControl();
    assert World3().entry == Some(Books1()) && "0xa" in Books1().fees && "0xa" !in Books0().fees;
    ResolveFee(World3(), 0, k, Books0(), POLICY, 2);
    assert {} + {"a"} == {"a"};
    BackAgain();
  }

  lemma BackAgain()
    requires Canonical(Books0()) && Consistent(World3(), 0, Control(Certain(Some(Books1())), None, true, {"a"}), Books0(), POLICY, 2)
    ensures var v := World3().(entry := Some(Books0()));
            && Consistent(v, 0, Control0(), Books0(), POLICY, 2) && !MarkersOwned(v)
            && forall u: World :: EnvironmentMove(v, u) ==> !MarkersOwned(u)
  {
    var stale := Control(Certain(Some(Books1())), None, true, {"a"});
    var v, rt := World3().(entry := Some(Books0())), Runtime(Books0(), POLICY);
    WriteLeavesUncertain(World3(), 0, stale, rt, rt, Ack, Books0(), 2);
    ResolveNext(v, 0, stale.(ownership := Uncertain(World3().entry, Books0(), rt, rt)), Books0(), Books0(), POLICY, POLICY, 2);
    assert "0xb" in Fees(v) && SlotAt(v, Fees(v)["0xb"]).Erased?;
    forall u: World | EnvironmentMove(v, u) ensures !MarkersOwned(u) {
      assert RowMove(v, SlotAt(v, "b"), SlotAt(u, "b"), "b");
    }
  }
}
