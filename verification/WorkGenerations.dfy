/** BoundedAsyncWork (src/utils/BoundedAsyncWork.ts): one current generation of a runtime, its
    unsettled operations, and its replacement and disposal. Lifecycle operations exclude each
    other; at their awaits, operations start, settle and are delivered. */
module WorkGenerations {
  import opened Wrappers

  datatype Limits = Limits(maxInflight: int, timeoutMs: int)

  /** validateLimits. */
  predicate LimitsOk(l: Limits) { 1 <= l.maxInflight <= 64 && 1 <= l.timeoutMs <= 120000 }

  /** active holds the unsettled operations; disposals is history: the disposer calls that succeeded. */
  datatype Generation = Generation(limits: Limits, accepting: bool, active: set<nat>, invalidated: bool, disposals: nat)

  predicate GenerationOk(g: Generation) { LimitsOk(g.limits) && |g.active| <= g.limits.maxInflight && (g.accepting ==> !g.invalidated) }

  /** What other turns may do to the operations of a generation. */
  predicate TurnOf(a: Generation, b: Generation) {
    b == a.(active := b.active) && |b.active| <= a.limits.maxInflight && (!a.accepting ==> b.active <= a.active)
  }

  predicate Turned(a: seq<Generation>, b: seq<Generation>) { |a| == |b| && forall g :: 0 <= g < |a| ==> TurnOf(a[g], b[g]) }

  lemma TurnedTransitive(a: seq<Generation>, b: seq<Generation>, c: seq<Generation>)
    requires Turned(a, b) && Turned(b, c)
    ensures Turned(a, c)
  {
    forall g | 0 <= g < |a| ensures TurnOf(a[g], c[g]) { assert TurnOf(a[g], b[g]) && TurnOf(b[g], c[g]); }
  }

  /** Where the runtimes are in the middle of a lifecycle operation: one staged, and one disposed
      whose operations are still settling. */
  datatype Window = Window(staged: Option<nat>, settling: Option<nat>)

  const QUIET := Window(None, None)

  /** Every generation is exactly one of current, staged, failed-staged and disposed; only the
      current one accepts work, and only it or the settling one has unsettled operations. */
  predicate Placed(gens: seq<Generation>, current: Option<nat>, w: Window, failed: Option<nat>) {
    && (forall g :: 0 <= g < |gens| ==> GenerationOk(gens[g]))
    && (current.Some? ==> current.value < |gens|)
    && (w.staged.Some? ==> w.staged.value < |gens| && w.staged != current && w.staged != failed && w.staged != w.settling)
    && (failed.Some? ==> failed.value < |gens| && failed != current && failed != w.settling)
    && (w.settling.Some? ==> w.settling.value < |gens| && current.None?)
    && (forall g: nat :: g < |gens| ==> gens[g].disposals == if Some(g) == current || Some(g) == w.staged || Some(g) == failed then 0 else 1)
    && (forall g: nat :: g < |gens| && Some(g) != current ==> !gens[g].accepting && (Some(g) != w.settling ==> gens[g].active == {}))
  }

  lemma TurnedKeepsPlaced(a: seq<Generation>, b: seq<Generation>, current: Option<nat>, w: Window, failed: Option<nat>)
    requires Placed(a, current, w, failed) && Turned(a, b)
    ensures Placed(b, current, w, failed)
  {
    forall g: nat | g < |b| ensures GenerationOk(b[g]) && b[g].disposals == a[g].disposals && b[g].accepting == a[g].accepting
                                    && (Some(g) != current && Some(g) != w.settling ==> b[g].active == {})
    {
      assert TurnOf(a[g], b[g]);
    }
  }

  predicate Numbered(gens: seq<Generation>, next: nat) {
    forall g, op :: 0 <= g < |gens| && op in gens[g].active ==> op < next
  }

  class BoundedAsyncWork {
    var generations: seq<Generation>
    var current: Option<nat>
    var failedStagedCleanup: Option<nat>
    var nextOperation: nat

    ghost predicate ValidWith(w: Window)
      reads this
    {
      && Placed(generations, if w.settling.Some? then None else current, w, failedStagedCleanup)
      && (w.settling.Some? ==> current == w.settling)
      && Numbered(generations, nextOperation)
    }

    ghost predicate Valid()
      reads this
    {
      ValidWith(QUIET)
    }

    constructor ()
      ensures Valid() && current.None? && failedStagedCleanup.None? && generations == []
    {
      generations, current, failedStagedCleanup, nextOperation := [], None, None, 0;
    }

    // ------------------------------------------------------------------ operations

    /** run up to the start of the operation: its number, or why it was refused. */
    method Run(ghost w: Window) returns (r: Result<nat>)
      requires ValidWith(w)
      modifies this`generations, this`nextOperation
      ensures ValidWith(w) && Turned(old(generations), generations)
      ensures r.Ok? <==> current.Some? && old(generations)[current.value].accepting
                         && |old(generations)[current.value].active| < old(generations)[current.value].limits.maxInflight
      ensures r.Ok? ==> r.value !in old(generations)[current.value].active
                        && generations == old(generations)[current.value := old(generations)[current.value].(active := old(generations)[current.value].active + {r.value})]
      ensures !r.Ok? ==> generations == old(generations)
    {
      if current.None? { return Error("invalidated"); }
      var g := current.value;
      if !generations[g].accepting { return Error("invalidated"); }
      if |generations[g].active| >= generations[g].limits.maxInflight { return Error("capacity"); }
      var op := nextOperation;
      nextOperation := nextOperation + 1;
      generations := generations[g := generations[g].(active := generations[g].active + {op})];
      r := Ok(op);
    }

    /** The tracked promise of an operation settles, timed out or not. */
    method Settle(g: nat, op: nat, ghost w: Window)
      requires ValidWith(w) && g < |generations| && op in generations[g].active
      modifies this`generations
      ensures ValidWith(w) && Turned(old(generations), generations)
      ensures generations == old(generations)[g := old(generations)[g].(active := old(generations)[g].active - {op})]
    {
      var rest := generations[g].active - {op};
      assert generations[g].active == rest + {op};
      generations := generations[g := generations[g].(active := rest)];
    }

    /** context.assertActive before a result or an error is handed to the caller; cancelled
        stands for an aborted or expired work signal. */
    method Deliver(g: nat, cancelled: bool) returns (handed: bool)
      requires Valid() && g < |generations|
      ensures handed <==> !cancelled && current == Some(g) && generations[g].accepting
    {
      if cancelled { return false; }
      if current != Some(g) || !generations[g].accepting { return false; }
      handed := true;
    }

    method GetInflightCount() returns (n: nat)
      requires Valid()
      ensures current.Some? ==> n == |generations[current.value].active| <= generations[current.value].limits.maxInflight
      ensures current.None? ==> n == 0
    {
      n := if current.Some? then |generations[current.value].active| else 0;
    }

    /** Other turns of the event loop: any number of operations start and settle. */
    method OtherTurns(ghost w: Window)
      requires ValidWith(w)
      modifies this`generations, this`nextOperation
      ensures ValidWith(w) && Turned(old(generations), generations)
    {
      var turns: int := *;
      while turns > 0
        invariant ValidWith(w) && Turned(old(generations), generations)
      {
        turns := turns - 1;
        ghost var before := generations;
        var starts: bool, g: nat, op: nat := *, *, *;
        if starts {
          var _ := Run(w);
        } else if g < |generations| && op in generations[g].active {
          Settle(g, op, w);
        }
        TurnedTransitive(old(generations), before, generations);
      }
    }

    /** Promise.allSettled over the operations of g: other turns, until none is left. */
    method AwaitSettled(g: nat, ghost w: Window)
      requires ValidWith(w) && g < |generations| && !generations[g].accepting
      modifies this`generations, this`nextOperation
      ensures ValidWith(w) && Turned(old(generations), generations) && generations[g].active == {}
    {
      ghost var before := generations;
      OtherTurns(w);
      ghost var middle := generations;
      generations := generations[g := generations[g].(active := {})];
      assert TurnOf(before[g], middle[g]);
      assert Turned(middle, generations);
      TurnedKeepsPlaced(middle, generations, if w.settling.Some? then None else current, w, failedStagedCleanup);
      TurnedTransitive(before, middle, generations);
    }

    // ------------------------------------------------------------------ lifecycle

    /** stage: validated limits, then the factory; a factory that throws leaves nothing. */
    method Stage(limits: Limits, factoryOk: bool) returns (staged: Option<nat>)
      requires Valid()
      modifies this`generations
      ensures staged.Some? <==> LimitsOk(limits) && factoryOk
      ensures staged.Some? ==> staged.value == |old(generations)| && generations == old(generations) + [Generation(limits, false, {}, false, 0)]
      ensures staged.None? ==> generations == old(generations)
      ensures ValidWith(Window(staged, None))
    {
      if !LimitsOk(limits) || !factoryOk { return None; }
      generations := generations + [Generation(limits, false, {}, false, 0)];
      staged := Some(|generations| - 1);
    }

    /** start. */
    method Start(limits: Limits, factoryOk: bool) returns (ok: bool)
      requires Valid()
      modifies this`generations, this`current
      ensures Valid()
      ensures ok <==> old(current).None? && failedStagedCleanup.None? && LimitsOk(limits) && factoryOk
      ensures ok ==> current == Some(|old(generations)|) && generations == old(generations) + [Generation(limits, true, {}, false, 0)]
      ensures !ok ==> current == old(current) && generations == old(generations)
    {
      if current.Some? || failedStagedCleanup.Some? { return false; }
      var staged := Stage(limits, factoryOk);
      if staged.None? { return false; }
      Accept(staged.value);
      ok := true;
    }

    /** The staged generation becomes the current one. */
    method Accept(g: nat)
      requires ValidWith(Window(Some(g), None)) && current.None? && g < |generations| && !generations[g].invalidated
      modifies this`generations, this`current
      ensures Valid() && current == Some(g) && generations == old(generations)[g := old(generations)[g].(accepting := true)]
    {
      generations := generations[g := generations[g].(accepting := true)];
      current := Some(g);
    }

    /** drain of the current generation: it stops accepting, its runtime is disposed, and its
        operations settle, whatever the disposer did. On success nobody holds it any more. */
    method Drain(disposeOk: bool, ghost staged: Option<nat>)
      requires ValidWith(Window(staged, None)) && current.Some?
      modifies this`generations, this`nextOperation, this`current
      ensures ValidWith(Window(staged, None)) && |generations| == |old(generations)|
      ensures current == if disposeOk then None else old(current)
      ensures generations[old(current).value].active == {} && !generations[old(current).value].accepting
      ensures staged.Some? ==> generations[staged.value] == old(generations)[staged.value]
    {
      var g := current.value;
      generations := generations[g := generations[g].(accepting := false, invalidated := true)];
      ghost var a := generations;
      OtherTurns(Window(staged, None));
      StagedStays(a, generations, staged, current, failedStagedCleanup);
      if disposeOk {
        generations := generations[g := generations[g].(disposals := generations[g].disposals + 1)];
        ghost var b := generations;
        AwaitSettled(g, Window(staged, Some(g)));
        StagedStays(b, generations, staged, None, failedStagedCleanup);
        current := None;
      } else {
        ghost var b := generations;
        AwaitSettled(g, Window(staged, None));
        StagedStays(b, generations, staged, current, failedStagedCleanup);
      }
    }

    /** stopCurrent. */
    method StopCurrent(disposeOk: bool) returns (ok: bool)
      requires Valid()
      modifies this`generations, this`nextOperation, this`current
      ensures Valid() && |generations| == |old(generations)|
      ensures ok <==> old(current).None? || disposeOk
      ensures ok ==> current.None?
      ensures !ok ==> current == old(current) && !generations[current.value].accepting && generations[current.value].active == {}
    {
      if current.None? { return true; }
      Drain(disposeOk, None);
      ok := disposeOk;
    }

    /** replaceGeneration: the replacement accepts work only once the previous generation has
        drained; when it could not be, the replacement is disposed or kept for a later attempt. */
    method ReplaceGeneration(limits: Limits, factoryOk: bool, disposeOk: bool, stagedDisposeOk: bool) returns (ok: bool)
      requires Valid() && failedStagedCleanup.None?
      modifies this`generations, this`nextOperation, this`current, this`failedStagedCleanup
      ensures Valid() && |generations| == |old(generations)| + (if LimitsOk(limits) && factoryOk then 1 else 0)
      ensures ok <==> LimitsOk(limits) && factoryOk && (old(current).None? || disposeOk)
      ensures ok ==> current == Some(|old(generations)|) && generations[current.value].accepting && failedStagedCleanup.None?
      ensures ok && old(current).Some? ==> generations[old(current).value].active == {} && generations[old(current).value].disposals == 1
      ensures !ok ==> current == old(current)
      ensures !ok && LimitsOk(limits) && factoryOk ==>
                failedStagedCleanup == if stagedDisposeOk then None else Some(|old(generations)|)
    {
      var staged := Stage(limits, factoryOk);
      if staged.None? { return false; }
      if current.None? {
        Accept(staged.value);
        return true;
      }
      Drain(disposeOk, staged);
      if disposeOk {
        Accept(staged.value);
        return true;
      }
      DisposeStaged(staged.value, stagedDisposeOk);
      ok := false;
    }

    /** dispose of a replacement that is not going to be used. */
    method DisposeStaged(g: nat, disposeOk: bool)
      requires ValidWith(Window(Some(g), None)) && failedStagedCleanup.None?
      modifies this`generations, this`nextOperation, this`failedStagedCleanup
      ensures Valid() && |generations| == |old(generations)|
      ensures failedStagedCleanup == if disposeOk then None else Some(g)
      ensures disposeOk ==> generations[g].disposals == 1
    {
      OtherTurns(Window(Some(g), None));
      if disposeOk {
        generations := generations[g := generations[g].(disposals := generations[g].disposals + 1)];
      } else {
        failedStagedCleanup := Some(g);
      }
    }

    /** retryFailedStagedCleanup. */
    method RetryFailedStagedCleanup(disposeOk: bool) returns (ok: bool)
      requires Valid()
      modifies this`generations, this`nextOperation, this`failedStagedCleanup
      ensures Valid() && |generations| == |old(generations)|
      ensures ok <==> old(failedStagedCleanup).None? || disposeOk
      ensures failedStagedCleanup == if ok then None else old(failedStagedCleanup)
    {
      if failedStagedCleanup.None? { return true; }
      var g := failedStagedCleanup.value;
      OtherTurns(QUIET);
      if disposeOk {
        generations := generations[g := generations[g].(disposals := generations[g].disposals + 1)];
        failedStagedCleanup := None;
      }
      ok := disposeOk;
    }

    /** replace, when its turn in the lifecycle chain comes. */
    method Replace(limits: Limits, factoryOk: bool, cleanupOk: bool, disposeOk: bool, stagedDisposeOk: bool) returns (ok: bool)
      requires Valid()
      modifies this`generations, this`nextOperation, this`current, this`failedStagedCleanup
      ensures Valid()
      ensures ok ==> current == Some(|old(generations)|) && failedStagedCleanup.None?
      ensures !ok ==> current == old(current)
    {
      var clean := RetryFailedStagedCleanup(cleanupOk);
      if !clean { return false; }
      ok := ReplaceGeneration(limits, factoryOk, disposeOk, stagedDisposeOk);
    }

    /** stop, when its turn in the lifecycle chain comes. */
    method Stop(cleanupOk: bool, disposeOk: bool) returns (ok: bool)
      requires Valid()
      modifies this`generations, this`nextOperation, this`current, this`failedStagedCleanup
      ensures Valid()
      ensures ok ==> current.None? && failedStagedCleanup.None? && forall g :: 0 <= g < |generations| ==> generations[g].disposals == 1
    {
      var clean := RetryFailedStagedCleanup(cleanupOk);
      if !clean { return false; }
      ok := StopCurrent(disposeOk);
    }
  }

  lemma StagedStays(a: seq<Generation>, b: seq<Generation>, staged: Option<nat>, current: Option<nat>, failed: Option<nat>)
    requires Turned(a, b) && staged.Some? ==> staged.value < |a| && !a[staged.value].accepting && a[staged.value].active == {}
    ensures Turned(a, b) && staged.Some? ==> b[staged.value] == a[staged.value]
  {
    if Turned(a, b) && staged.Some? { assert TurnOf(a[staged.value], b[staged.value]); }
  }

  // ------------------------------------------------------------------ whole runs

  datatype Operation =
    | OpStart(limits: Limits, factoryOk: bool)
    | OpReplace(limits: Limits, factoryOk: bool, cleanupOk: bool, disposeOk: bool, stagedDisposeOk: bool)
    | OpStop(cleanupOk: bool, disposeOk: bool)
    | OpRun
    | OpSettle(g: nat, op: nat)

  /** Any sequence of calls: the bounds and the partition of runtimes hold throughout; each
      runtime is disposed at most once, and those neither current nor failed exactly once. */
  method RunOperations(ops: seq<Operation>) returns (w: BoundedAsyncWork)
    ensures fresh(w) && w.Valid()
    ensures forall g :: 0 <= g < |w.generations| ==> w.generations[g].disposals <= 1 && |w.generations[g].active| <= w.generations[g].limits.maxInflight
    ensures forall g: nat :: g < |w.generations| && w.generations[g].accepting ==>
              w.current == Some(g) && forall k: nat :: k < |w.generations| && k != g ==> w.generations[k].active == {}
  {
    w := new BoundedAsyncWork();
    for i := 0 to |ops|
      invariant fresh(w) && w.Valid()
    {
      match ops[i]
      case OpStart(l, f) => var _ := w.Start(l, f);
      case OpReplace(l, f, c, d, s) => var _ := w.Replace(l, f, c, d, s);
      case OpStop(c, d) => var _ := w.Stop(c, d);
      case OpRun => var _ := w.Run(QUIET);
      case OpSettle(g, op) => if g < |w.generations| && op in w.generations[g].active { w.Settle(g, op, QUIET); }
    }
  }
}
