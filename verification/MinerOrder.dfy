/** With a whole-number hash-rate limit, shares are submitted in strictly increasing order, in
    every run; a fractional limit can break the order. */
module MinerOrder {
  import opened Wrappers
  import opened MinerData
  import opened MinerNet
  import opened MinerSafety

  // ------------------------------------------------------------------ whole numbers

  predicate Whole(x: real) { x.Floor as real == x }

  lemma WholeIs(x: real, k: int)
    requires x == k as real
    ensures Whole(x)
  {}

  lemma WholeSum(x: real, y: real)
    requires Whole(x) && Whole(y)
    ensures Whole(x + y) && Whole(x - y)
    ensures x < y ==> x + 1.0 <= y
  {
    WholeIs(x + y, x.Floor + y.Floor);
    WholeIs(x - y, x.Floor - y.Floor);
  }

  lemma WholeRefill(requested: real, limit: real, age: int, lastNonce: real)
    requires Whole(requested) && Whole(limit) && Whole(lastNonce)
    ensures Whole(LimitedRefill(requested, limit, age, lastNonce))
  {
    var p := (age + 4) * limit.Floor;
    assert p as real == (age + 4) as real * limit;
    WholeIs((age + 4) as real * limit, p);
    WholeSum((age + 4) as real * limit, lastNonce);
  }

  predicate WholeRange(r: Range) { Whole(r.first) && Whole(r.last) }

  predicate WholeDown(d: Down) { !d.SetParams? ==> Whole(d.start) && Whole(d.count) }

  predicate WholeUp(u: Up) {
    match u
    case Init => true
    case NonceFound(x, _) => Whole(x)
    case Stats(last, nonces) => Whole(last) && Whole(nonces)
  }

  predicate WholeSeat(h: Handle, w: Worker) {
    && Whole(w.workNonce)
    && (forall k :: 0 <= k < |w.ranges| ==> WholeRange(w.ranges[k]))
    && (forall k :: 0 <= k < |h.down| ==> WholeDown(h.down[k]))
    && (forall k :: 0 <= k < |w.up| ==> WholeUp(w.up[k]))
  }

  // ------------------------------------------------------------------ order within a worker

  function Value(u: Up): real {
    match u
    case Init => 0.0
    case NonceFound(x, _) => x
    case Stats(last, _) => last
  }

  /** u, sent before something carrying the value x, is in order with it. */
  predicate InOrder(u: Up, x: real) { Value(u) <= x && (u.NonceFound? ==> Value(u) < x) }

  predicate AllFrom(rs: seq<Range>, x: real) { forall k :: 0 <= k < |rs| ==> x <= rs[k].first }

  /** Messages, the nonce being worked on and the stream ascend, all from lastNonce on. */
  ghost predicate SeatOrdered(h: Handle, w: Worker) {
    && (forall a, b :: 0 <= a < b < |w.up| ==> InOrder(w.up[a], Value(w.up[b])))
    && (w.working ==>
          && (forall a :: 0 <= a < |w.up| ==> InOrder(w.up[a], w.workNonce) && h.lastNonce <= Value(w.up[a]))
          && h.lastNonce <= w.workNonce && AllFrom(Stream(h, w), w.workNonce))
    && (h.ready && !w.working ==> AllFrom(Stream(h, w), h.lastNonce))
  }

  /** x lies before every nonce the worker has reported and the miner has not read yet. */
  predicate BeforeFound(w: Worker, x: real) { forall k :: 0 <= k < |w.up| && w.up[k].NonceFound? ==> x < w.up[k].nonce }

  predicate Increasing(s: seq<real>) { forall j, k :: 0 <= j < k < |s| ==> s[j] < s[k] }

  predicate IncreasingShares(s: seq<Share>) { forall j, k :: 0 <= j < k < |s| ==> s[j].nonce < s[k].nonce }

  ghost predicate FoundOk(n: Net, i: nat)
    requires i < |n.workers| == |n.miner.handles|
  {
    forall k :: 0 <= k < |n.workers[i].up| && n.workers[i].up[k].NonceFound? ==>
      n.workers[i].up[k].nonce in n.checked && Owned(n.grants, n.workers[i].up[k].nonce, n.miner.handles[i].incarnation)
      && (n.workers[i].up[k].nonce, n.workers[i].up[k].params) in n.found
  }

  ghost predicate QueuedOk(n: Net, q: real)
    requires |n.workers| == |n.miner.handles|
  {
    && q in n.checked && (q, n.miner.params) in n.found
    && forall i :: 0 <= i < |n.workers| && Owned(n.grants, q, n.miner.handles[i].incarnation) ==> BeforeFound(n.workers[i], q)
  }

  ghost predicate SubmittedOk(n: Net, s: Share)
    requires |n.workers| == |n.miner.handles|
  {
    && s.nonce in n.checked && (s.nonce, s.params) in n.found
    && (forall q :: q in n.miner.queue ==> s.nonce < q)
    && forall i :: 0 <= i < |n.workers| ==> BeforeFound(n.workers[i], s.nonce) && Before(n.miner.handles[i], n.workers[i], s.nonce)
  }

  /** The order part of the invariant. */
  ghost predicate Ordered(n: Net)
    requires |n.workers| == |n.miner.handles|
  {
    && Whole(n.miner.limit) && Whole(n.miner.session.lastNonce)
    && (forall i :: 0 <= i < |n.workers| ==>
          && WholeSeat(n.miner.handles[i], n.workers[i]) && SeatOrdered(n.miner.handles[i], n.workers[i]) && FoundOk(n, i)
          && (n.workers[i].working ==> n.workers[i].workNonce <= n.miner.session.lastNonce))
    && Increasing(n.miner.queue) && (forall q :: q in n.miner.queue ==> QueuedOk(n, q))
    && IncreasingShares(n.miner.session.submitted)
    && (forall s :: s in n.miner.session.submitted ==> SubmittedOk(n, s))
    && SessionOk(n.miner.session)
  }

  /** What reaches the server is, in order, part of what was submitted. */
  predicate SessionOk(s: Session) {
    && IncreasingShares(s.sent + s.shareQueue)
    && forall x :: x in s.sent + s.shareQueue ==> x in s.submitted
  }

  // ------------------------------------------------------------------ the watermark

  lemma {:induction false} WatermarkLow(hs: seq<Handle>)
    ensures Watermark(hs).Some? ==> forall i :: 0 <= i < |hs| && hs[i].ready ==> Watermark(hs).value <= hs[i].lastNonce
    ensures Watermark(hs).None? ==> forall i :: 0 <= i < |hs| ==> !hs[i].ready
    decreases |hs|
  {
    if hs != [] {
      var front := hs[..|hs| - 1];
      WatermarkLow(front);
      assert forall i :: 0 <= i < |hs| - 1 ==> hs[i] == front[i];
    }
  }

  lemma {:induction false} SafeCountSplits(queue: seq<real>, save: real)
    requires Increasing(queue)
    ensures var k := SafeCount(queue, save);
            && (forall j :: 0 <= j < k ==> queue[j] <= save)
            && (forall j :: k <= j < |queue| ==> save < queue[j])
    decreases |queue|
  {
    if queue != [] && queue[0] <= save {
      SafeCountSplits(queue[1..], save);
      var k := SafeCount(queue[1..], save);
      assert forall j :: 1 <= j < |queue| ==> queue[j] == queue[1..][j - 1];
    }
  }

  /** Submitting a list of nonces appends their shares, in order. */
  function Shares(nonces: seq<real>, params: string): (r: seq<Share>)
    ensures |r| == |nonces| && forall k :: 0 <= k < |nonces| ==> r[k] == Share(nonces[k], params)
    decreases |nonces|
  {
    if nonces == [] then [] else [Share(nonces[0], params)] + Shares(nonces[1..], params)
  }

  lemma {:induction false} SubmitAllShares(s: Session, nonces: seq<real>, params: string)
    ensures var r := SubmitAll(s, nonces, params);
            && r.submitted == s.submitted + Shares(nonces, params)
            && r.shareQueue == s.shareQueue + Shares(nonces, params)
            && r.sent == s.sent && r.lastNonce == s.lastNonce
    decreases |nonces|
  {
    if nonces == [] {
      assert s.submitted + [] == s.submitted && s.shareQueue + [] == s.shareQueue;
    } else {
      var t := Share(nonces[0], params);
      SubmitAllShares(SubmitShare(s, t), nonces[1..], params);
      Associate(s.submitted, [t], Shares(nonces[1..], params));
      Associate(s.shareQueue, [t], Shares(nonces[1..], params));
    }
  }

  /** A checked nonce that no ready worker's lastNonce is below lies before everything any
      worker may still report. */
  lemma SafeToSubmit(n: Net, q: real, save: real, i: nat)
    requires Base(n) && Ordered(n) && QueuedOk(n, q) && i < |n.workers|
    requires q <= save && (n.miner.handles[i].ready ==> save <= n.miner.handles[i].lastNonce)
    ensures BeforeFound(n.workers[i], q) && Before(n.miner.handles[i], n.workers[i], q)
  {
    var h, w := n.miner.handles[i], n.workers[i];
    assert SeatOk(h, w, n.grants) && SeatOrdered(h, w) && FoundOk(n, i);
    assert OwnedChecked(n, q);
    if !h.ready {
      assert Stream(h, w) == [];
    } else if !Owned(n.grants, q, h.incarnation) {
      forall k | 0 <= k < |Stream(h, w)| ensures q < Stream(h, w)[k].first {
        StartsOwned(n.grants, Stream(h, w)[k], h.incarnation);
      }
    }
  }

  lemma ProcessKeepsOrdered(n: Net)
    requires Base(n) && Ordered(n)
    ensures Ordered(n.(miner := ProcessQueue(n.miner)))
  {
    var save := Watermark(n.miner.handles);
    if save.Some? && n.miner.lastSave != save {
      var k := SafeCount(n.miner.queue, save.value);
      WatermarkLow(n.miner.handles);
      SafeCountSplits(n.miner.queue, save.value);
      SubmitAllShares(n.miner.session, n.miner.queue[..k], n.miner.params);
      SubmitKeepsOrdered(n, k, save);
    }
  }

  lemma SubmitKeepsOrdered(n: Net, k: nat, save: Option<real>)
    requires Base(n) && Ordered(n) && save.Some? && k <= |n.miner.queue|
    requires forall j :: 0 <= j < k ==> n.miner.queue[j] <= save.value
    requires forall i :: 0 <= i < |n.miner.handles| && n.miner.handles[i].ready ==> save.value <= n.miner.handles[i].lastNonce
    requires var r := SubmitAll(n.miner.session, n.miner.queue[..k], n.miner.params);
             var more := Shares(n.miner.queue[..k], n.miner.params);
             r == n.miner.session.(submitted := n.miner.session.submitted + more, shareQueue := n.miner.session.shareQueue + more)
    ensures Ordered(n.(miner := n.miner.(lastSave := save, queue := n.miner.queue[k..],
                                         session := SubmitAll(n.miner.session, n.miner.queue[..k], n.miner.params))))
  {
    var prior, more := n.miner.session, Shares(n.miner.queue[..k], n.miner.params);
    var v := n.(miner := n.miner.(lastSave := save, queue := n.miner.queue[k..], session := SubmitAll(prior, n.miner.queue[..k], n.miner.params)));
    forall j | 0 <= j < k ensures SubmittedOk(v, more[j]) {
      var q := n.miner.queue[j];
      assert q in n.miner.queue && QueuedOk(n, q);
      forall i | 0 <= i < |n.workers| ensures BeforeFound(v.workers[i], q) && Before(v.miner.handles[i], v.workers[i], q) {
        SafeToSubmit(n, q, save.value, i);
      }
      forall y | y in v.miner.queue ensures q < y {
        var m :| 0 <= m < |v.miner.queue| && v.miner.queue[m] == y;
        assert y == n.miner.queue[k + m];
      }
    }
    assert forall q :: q in v.miner.queue ==> q in n.miner.queue;
    forall s | s in prior.submitted ensures SubmittedOk(v, s) { assert SubmittedOk(n, s); }
    forall q | q in v.miner.queue ensures QueuedOk(v, q) { assert q in n.miner.queue && QueuedOk(n, q); }
    forall i | 0 <= i < |v.workers| ensures FoundOk(v, i) { assert FoundOk(n, i); }
    OldBeforeMore(n, k, more);
    AppendShares(prior.submitted, more);
    AppendSession(prior, more);
  }

  lemma OldBeforeMore(n: Net, k: nat, more: seq<Share>)
    requires |n.workers| == |n.miner.handles| && Ordered(n) && k <= |n.miner.queue| && more == Shares(n.miner.queue[..k], n.miner.params)
    ensures IncreasingShares(more)
    ensures forall s, j :: s in n.miner.session.submitted && 0 <= j < k ==> s.nonce < more[j].nonce
  {
    forall s, j | s in n.miner.session.submitted && 0 <= j < k ensures s.nonce < more[j].nonce {
      assert SubmittedOk(n, s);
      assert n.miner.queue[j] in n.miner.queue;
    }
  }

  lemma AppendShares(a: seq<Share>, b: seq<Share>)
    requires IncreasingShares(a) && IncreasingShares(b)
    requires forall s, j :: s in a && 0 <= j < |b| ==> s.nonce < b[j].nonce
    ensures IncreasingShares(a + b)
  {}

  lemma AppendSession(s: Session, more: seq<Share>)
    requires SessionOk(s) && IncreasingShares(more)
    requires forall x, j :: x in s.submitted && 0 <= j < |more| ==> x.nonce < more[j].nonce
    ensures SessionOk(s.(submitted := s.submitted + more, shareQueue := s.shareQueue + more))
  {
    AppendShares(s.sent + s.shareQueue, more);
    Associate(s.sent, s.shareQueue, more);
  }

  // ------------------------------------------------------------------ Ordered is kept

  /** One worker's record and thread change and stay in order; nothing falls behind. */
  ghost predicate OrderedSeatStep(n: Net, v: Net, i: nat)
    requires i < |n.workers| == |n.miner.handles| == |v.workers| == |v.miner.handles|
  {
    var h, w, h', w' := n.miner.handles[i], n.workers[i], v.miner.handles[i], v.workers[i];
    && h'.incarnation == h.incarnation
    && WholeSeat(h', w') && SeatOrdered(h', w') && FoundOk(v, i)
    && (w'.working ==> w'.workNonce <= v.miner.session.lastNonce)
    && (forall x: real :: BeforeFound(w, x) && Before(h, w, x) ==> BeforeFound(w', x))
    && (forall x: real :: x < n.miner.session.lastNonce && BeforeFound(w, x) && Before(h, w, x) ==> Before(h', w', x))
  }

  ghost predicate SameElsewhere(n: Net, v: Net, i: nat)
    requires i < |n.workers| == |n.miner.handles|
  {
    && |v.workers| == |v.miner.handles| == |n.workers|
    && v.miner.handles == n.miner.handles[i := v.miner.handles[i]] && v.workers == n.workers[i := v.workers[i]]
    && v.miner == n.miner.(handles := v.miner.handles, session := v.miner.session)
    && v.miner.session == n.miner.session.(lastNonce := v.miner.session.lastNonce)
    && n.miner.session.lastNonce <= v.miner.session.lastNonce && Whole(v.miner.session.lastNonce)
    && v.grants == Granted(n.grants, n.miner.session.lastNonce, v.miner.session.lastNonce, n.miner.handles[i].incarnation)
    && (forall c :: c in n.checked ==> c in v.checked)
    && n.found <= v.found
  }

  lemma CheckedOwned(n: Net, c: real)
    requires Base(n) && c in n.checked
    ensures c < n.miner.session.lastNonce
  {
    assert OwnedChecked(n, c);
    var a: nat :| Owned(n.grants, c, a);
    OwnerUnique(n.grants, n.miner.session.lastNonce, c, a, a);
  }

  lemma SeatStepKeepsOrdered(n: Net, v: Net, i: nat)
    requires Base(n) && Ordered(n) && i < |n.workers| && SameElsewhere(n, v, i) && OrderedSeatStep(n, v, i)
    ensures Ordered(v)
  {
    var inc := n.miner.handles[i].incarnation;
    forall c | c in n.checked
      ensures c < n.miner.session.lastNonce && forall a: nat :: Owned(v.grants, c, a) <==> Owned(n.grants, c, a)
    {
      CheckedOwned(n, c);
      PointsGrow(n.grants, n.miner.session.lastNonce, v.miner.session.lastNonce, inc, c);
    }
    forall j | 0 <= j < |v.workers|
      ensures WholeSeat(v.miner.handles[j], v.workers[j]) && SeatOrdered(v.miner.handles[j], v.workers[j]) && FoundOk(v, j)
      ensures v.workers[j].working ==> v.workers[j].workNonce <= v.miner.session.lastNonce
    {
      if j != i { assert FoundOk(n, j); }
    }
    forall q | q in v.miner.queue ensures QueuedOk(v, q) {
      assert QueuedOk(n, q) && OwnedChecked(n, q);
    }
    forall s | s in v.miner.session.submitted ensures SubmittedOk(v, s) {
      assert SubmittedOk(n, s);
    }
  }

  /** Base speaks only of these fields. */
  lemma SameBase(n: Net, v: Net)
    requires Base(n) && v.miner.handles == n.miner.handles && v.workers == n.workers && v.born == n.born
    requires v.grants == n.grants && v.checked == n.checked && v.miner.session.lastNonce == n.miner.session.lastNonce
    requires v.miner.target >= LEAST_TARGET
    ensures Base(v)
  {
    forall c | c in v.checked ensures OwnedChecked(v, c) { assert OwnedChecked(n, c); }
  }

  /** n after message u of worker i has reached the miner, before the queue is touched. */
  function Consumed(n: Net, i: nat, age: int): Net
    requires i < |n.workers| == |n.miner.handles| && |n.workers[i].up| > 0
  {
    var u, h := n.workers[i].up[0], n.miner.handles[i];
    var next := ReactNext(n.miner, u, age);
    n.(miner := n.miner.(handles := n.miner.handles[i := ReactHandle(n.miner, h, u, age)],
                         session := n.miner.session.(lastNonce := next)),
       workers := n.workers[i := n.workers[i].(up := n.workers[i].up[1..])],
       grants := Granted(n.grants, n.miner.session.lastNonce, next, h.incarnation))
  }

  lemma ConsumedBase(n: Net, i: nat, age: int)
    requires Base(n) && CanMove(n, Read(i, age))
    ensures Base(Consumed(n, i, age))
  {
    MinerReadsKeepsBase(n, i, age);
    ReactEffect(n.miner, i, n.workers[i].up[0], age);
    SameBase(Moved(n, Read(i, age)), Consumed(n, i, age));
  }

  lemma ConsumedTail(w: Worker, h: Handle, v: Worker)
    requires |w.up| > 0 && v == w.(up := w.up[1..]) && WholeSeat(h, w) && SeatOrdered(h, w)
    ensures forall k :: 0 <= k < |v.up| ==> v.up[k] == w.up[k + 1]
    ensures w.working ==> InOrder(w.up[0], w.workNonce) && Value(w.up[0]) <= w.workNonce
    ensures forall k :: 0 <= k < |v.up| ==> InOrder(w.up[0], Value(v.up[k]))
    ensures forall x: real :: BeforeFound(w, x) ==> BeforeFound(v, x)
    ensures Stream(h, v) == Stream(h, w)
  {}

  lemma PostedWhole(h: Handle, w: Worker, d: Down, last: real, ready: bool)
    requires WholeSeat(h, w) && WholeDown(d)
    ensures WholeSeat(h.(ready := ready, lastNonce := last, down := h.down + [d]), w)
  {}

  /** A worker that just became ready has nothing but its first range ahead of it. */
  lemma ReadyOrdered(next: real, refill: real, p: string, h: Handle, w: Worker)
    requires Whole(next) && Whole(refill) && refill > 0.0
    requires h.ready && h.lastNonce == next && h.down == [SetWork(next, refill, p)] && w == FRESH_WORKER.(up := [])
    ensures WholeSeat(h, w) && SeatOrdered(h, w)
  {
    assert DownRanges(h.down) == Part(h.down[0]) + DownRanges([]);
    assert Stream(h, w) == [RangeOf(next, refill)];
    assert Whole(0.0);
  }

  lemma InitialRefillWhole(m: Miner, age: int)
    requires Whole(m.limit) && Whole(m.session.lastNonce) && m.target > 0
    ensures var refill := InitialRefill(m, age);
            refill > 0.0 && Whole(refill) && Whole(m.session.lastNonce + refill)
  {
    WholeIs(m.target as real, m.target);
    WholeRefill(m.target as real, m.limit, age, m.session.lastNonce);
    WholeSum(m.session.lastNonce, InitialRefill(m, age));
  }

  lemma ConsumedSame(n: Net, i: nat, age: int)
    requires CanMove(n, Read(i, age))
    requires var next := ReactNext(n.miner, n.workers[i].up[0], age); Whole(next) && n.miner.session.lastNonce <= next
    ensures SameElsewhere(n, Consumed(n, i, age), i)
  {}

  lemma ConsumedInit(n: Net, i: nat, age: int)
    requires Base(n) && Ordered(n) && CanMove(n, Read(i, age)) && n.workers[i].up[0].Init?
    ensures OrderedSeatStep(n, Consumed(n, i, age), i) && SameElsewhere(n, Consumed(n, i, age), i)
  {
    assert SeatOk(n.miner.handles[i], n.workers[i], n.grants);
    InitialRefillWhole(n.miner, age);
    ConsumedSame(n, i, age);
    InitSeatStep(n, i, age);
  }

  lemma InitSeatStep(n: Net, i: nat, age: int)
    requires CanMove(n, Read(i, age)) && n.workers[i] == FRESH_WORKER && n.miner.handles[i].down == []
    requires Whole(n.miner.limit) && Whole(n.miner.session.lastNonce) && n.miner.target > 0
    ensures OrderedSeatStep(n, Consumed(n, i, age), i)
  {
    var v := Consumed(n, i, age);
    var h', w' := v.miner.handles[i], v.workers[i];
    InitialRefillWhole(n.miner, age);
    var next, refill := n.miner.session.lastNonce, InitialRefill(n.miner, age);
    assert h'.down == [SetWork(next, refill, n.miner.params)];
    ReadyOrdered(next, refill, n.miner.params, h', w');
    assert DownRanges(h'.down) == Part(h'.down[0]) + DownRanges([]);
    assert Stream(h', w') == [RangeOf(next, refill)];
  }

  lemma ConsumedNonce(n: Net, i: nat, age: int)
    requires Base(n) && Ordered(n) && CanMove(n, Read(i, age)) && n.workers[i].up[0].NonceFound?
    ensures OrderedSeatStep(n, Consumed(n, i, age), i) && SameElsewhere(n, Consumed(n, i, age), i)
  {
    var h, w, v := n.miner.handles[i], n.workers[i], Consumed(n, i, age);
    assert SeatOk(h, w, n.grants) && WholeSeat(h, w) && FoundOk(n, i);
    assert w.working;
    ConsumedTail(w, h, v.workers[i]);
    assert Stream(v.miner.handles[i], v.workers[i]) == Stream(h, w);
  }

  /** A report moves lastNonce up to the nonce being worked on; a refill goes to the end. */
  lemma ReportOrdered(h: Handle, w: Worker, h': Handle, w': Worker, extra: seq<Range>)
    requires WholeSeat(h, w) && SeatOrdered(h, w) && w.working && |w.up| > 0 && w.up[0].Stats? && w' == w.(up := w.up[1..])
    requires h'.lastNonce == w.up[0].last && Stream(h', w') == Stream(h, w) + extra && AllFrom(extra, w.workNonce)
    ensures SeatOrdered(h', w')
  {
    ConsumedTail(w, h, w');
  }

  lemma ConsumedStats(n: Net, i: nat, age: int)
    requires Base(n) && Ordered(n) && CanMove(n, Read(i, age)) && n.workers[i].up[0].Stats?
    ensures OrderedSeatStep(n, Consumed(n, i, age), i) && SameElsewhere(n, Consumed(n, i, age), i)
  {
    var h, w, v := n.miner.handles[i], n.workers[i], Consumed(n, i, age);
    assert SeatOk(h, w, n.grants) && FoundOk(n, i) && WholeUp(w.up[0]);
    StatsRefillWhole(n.miner, w.up[0].nonces, age);
    ConsumedSame(n, i, age);
    ConsumedFound(n, v, i);
    StatsSeatOrdered(n, i, age);
    ConsumedTail(w, h, v.workers[i]);
  }

  lemma StatsSeatOrdered(n: Net, i: nat, age: int)
    requires CanMove(n, Read(i, age)) && n.workers[i].up[0].Stats? && n.workers[i].working
    requires WholeSeat(n.miner.handles[i], n.workers[i]) && SeatOrdered(n.miner.handles[i], n.workers[i])
    requires Whole(n.miner.limit) && Whole(n.miner.session.lastNonce) && n.workers[i].workNonce <= n.miner.session.lastNonce
    ensures var v := Consumed(n, i, age);
            && WholeSeat(v.miner.handles[i], v.workers[i]) && SeatOrdered(v.miner.handles[i], v.workers[i])
            && forall x: real :: x < n.miner.session.lastNonce && Before(n.miner.handles[i], n.workers[i], x)
                 ==> Before(v.miner.handles[i], v.workers[i], x)
  {
    var h, w, v := n.miner.handles[i], n.workers[i], Consumed(n, i, age);
    var h', w' := v.miner.handles[i], v.workers[i];
    assert WholeUp(w.up[0]);
    ConsumedTail(w, h, w');
    var next, nonces := n.miner.session.lastNonce, w.up[0].nonces;
    StatsRefillWhole(n.miner, nonces, age);
    var refill := LimitedRefill(n.miner.target as real - nonces, n.miner.limit, age, next);
    hide Stream, Unchecked, LimitedRefill;
    if nonces < n.miner.target as real && refill > 0.0 {
      PostStream(h.(lastNonce := w.up[0].last), w', AddRange(next, refill));
      PostedWhole(h, w', AddRange(next, refill), w.up[0].last, h.ready);
      ReportOrdered(h, w, h', w', [RangeOf(next, refill)]);
    } else {
      assert Stream(h', w') == Stream(h, w) + [];
      ReportOrdered(h, w, h', w', []);
    }
  }

  lemma StatsRefillWhole(m: Miner, nonces: real, age: int)
    requires Whole(m.limit) && Whole(m.session.lastNonce) && Whole(nonces)
    ensures var refill := LimitedRefill(m.target as real - nonces, m.limit, age, m.session.lastNonce);
            Whole(refill) && Whole(m.session.lastNonce + refill)
  {
    WholeIs(m.target as real, m.target);
    WholeSum(m.target as real, nonces);
    WholeRefill(m.target as real - nonces, m.limit, age, m.session.lastNonce);
    WholeSum(m.session.lastNonce, LimitedRefill(m.target as real - nonces, m.limit, age, m.session.lastNonce));
  }

  /** Reported nonces stay known while their message waits. */
  lemma ConsumedFound(n: Net, v: Net, i: nat)
    requires Base(n) && i < |n.workers| && FoundOk(n, i) && |n.workers[i].up| > 0
    requires |v.workers| == |v.miner.handles| == |n.workers| && v.workers[i].up == n.workers[i].up[1..]
    requires v.miner.handles[i].incarnation == n.miner.handles[i].incarnation
    requires v.grants == Granted(n.grants, n.miner.session.lastNonce, v.miner.session.lastNonce, n.miner.handles[i].incarnation)
    requires v.checked == n.checked && v.found == n.found
    ensures FoundOk(v, i)
  {
    forall k | 0 <= k < |v.workers[i].up| && v.workers[i].up[k].NonceFound?
      ensures v.workers[i].up[k].nonce in v.checked && Owned(v.grants, v.workers[i].up[k].nonce, v.miner.handles[i].incarnation)
              && (v.workers[i].up[k].nonce, v.workers[i].up[k].params) in v.found
    {
      assert v.workers[i].up[k] == n.workers[i].up[k + 1];
      CheckedOwned(n, v.workers[i].up[k].nonce);
      PointsGrow(n.grants, n.miner.session.lastNonce, v.miner.session.lastNonce, n.miner.handles[i].incarnation, v.workers[i].up[k].nonce);
    }
  }

  lemma ConsumedOrdered(n: Net, i: nat, age: int)
    requires Base(n) && Ordered(n) && CanMove(n, Read(i, age))
    ensures Ordered(Consumed(n, i, age))
  {
    match n.workers[i].up[0]
    case Init => ConsumedInit(n, i, age); SeatStepKeepsOrdered(n, Consumed(n, i, age), i);
    case NonceFound(_, _) => ConsumedNonce(n, i, age); SeatStepKeepsOrdered(n, Consumed(n, i, age), i);
    case Stats(_, _) => ConsumedStats(n, i, age); SeatStepKeepsOrdered(n, Consumed(n, i, age), i);
  }

  lemma {:induction false} InsertAtPlace(queue: seq<real>, x: real)
    requires Increasing(queue) && x !in queue
    ensures var k := InsertAt(queue, x);
            && (forall j :: 0 <= j < k ==> queue[j] < x)
            && (forall j :: k <= j < |queue| ==> x < queue[j])
    decreases |queue|
  {
    if queue != [] && x > queue[0] {
      InsertAtPlace(queue[1..], x);
      assert forall j :: 1 <= j < |queue| ==> queue[j] == queue[1..][j - 1];
    }
  }

  lemma InsertIncreasing(queue: seq<real>, x: real)
    requires Increasing(queue) && x !in queue
    ensures Increasing(Insert(queue, x))
    ensures forall q :: q in Insert(queue, x) <==> q == x || q in queue
  {
    InsertAtPlace(queue, x);
    var k := InsertAt(queue, x);
    assert queue == queue[..k] + queue[k..];
  }

  /** The nonce a message carries is new to the queue and above all that was submitted. */
  lemma ArrivingIsNew(n: Net, i: nat)
    requires Base(n) && Ordered(n) && i < |n.workers| && |n.workers[i].up| > 0 && n.workers[i].up[0].NonceFound?
    ensures var x := n.workers[i].up[0].nonce;
            && x !in n.miner.queue && (forall s :: s in n.miner.session.submitted ==> s.nonce < x)
            && forall j :: 0 <= j < |n.workers| && Owned(n.grants, x, n.miner.handles[j].incarnation) ==> j == i
  {
    var x := n.workers[i].up[0].nonce;
    assert FoundOk(n, i);
    CheckedOwned(n, x);
    forall q | q in n.miner.queue ensures q != x { assert QueuedOk(n, q); }
    forall s | s in n.miner.session.submitted ensures s.nonce < x { assert SubmittedOk(n, s); }
    forall j | 0 <= j < |n.workers| && Owned(n.grants, x, n.miner.handles[j].incarnation) ensures j == i {
      OwnerUnique(n.grants, n.miner.session.lastNonce, x, n.miner.handles[j].incarnation, n.miner.handles[i].incarnation);
    }
  }

  lemma InsertedOrdered(n: Net, i: nat, age: int)
    requires Base(n) && Ordered(n) && CanMove(n, Read(i, age)) && n.workers[i].up[0].NonceFound?
    requires n.workers[i].up[0].params == n.miner.params
    ensures var c := Consumed(n, i, age);
            Ordered(c.(miner := c.miner.(queue := Insert(c.miner.queue, n.workers[i].up[0].nonce))))
  {
    var c, x := Consumed(n, i, age), n.workers[i].up[0].nonce;
    var v := c.(miner := c.miner.(queue := Insert(c.miner.queue, x)));
    ConsumedOrdered(n, i, age);
    ArrivingIsNew(n, i);
    InsertIncreasing(c.miner.queue, x);
    assert SeatOrdered(n.miner.handles[i], n.workers[i]) && FoundOk(n, i);
    forall q | q in v.miner.queue ensures QueuedOk(v, q) {
      if q != x { assert QueuedOk(c, q); }
      else { assert BeforeFound(c.workers[i], x); }
    }
    forall s | s in v.miner.session.submitted ensures SubmittedOk(v, s) { assert SubmittedOk(c, s); }
    forall j | 0 <= j < |v.workers| ensures FoundOk(v, j) { assert FoundOk(c, j); }
  }

  lemma NonceKeepsOrdered(n: Net, i: nat, age: int)
    requires Base(n) && Ordered(n) && CanMove(n, Read(i, age)) && n.workers[i].up[0].NonceFound?
    ensures Base(Moved(n, Read(i, age))) && Ordered(Moved(n, Read(i, age)))
  {
    hide Base, Ordered;
    var c, u := Consumed(n, i, age), n.workers[i].up[0];
    MinerReadsKeepsBase(n, i, age);
    if u.params == n.miner.params {
      ConsumedBase(n, i, age);
      InsertedOrdered(n, i, age);
      var v := c.(miner := c.miner.(queue := Insert(c.miner.queue, u.nonce)));
      SameBase(c, v);
      ProcessKeepsOrdered(v);
      ProcessQueueEffect(v.miner);
      assert Moved(n, Read(i, age)) == v.(miner := ProcessQueue(v.miner));
    } else {
      ConsumedOrdered(n, i, age);
      assert n.miner.handles[i := n.miner.handles[i]] == n.miner.handles;
      assert Moved(n, Read(i, age)) == c;
    }
  }

  lemma MinerReadsKeepsOrdered(n: Net, i: nat, age: int)
    requires Base(n) && Ordered(n) && CanMove(n, Read(i, age))
    ensures Base(Moved(n, Read(i, age))) && Ordered(Moved(n, Read(i, age)))
  {
    hide Base, Ordered, Moved, Consumed;
    MinerReadsKeepsBase(n, i, age);
    match n.workers[i].up[0]
    case Init => InitKeepsOrdered(n, i, age);
    case NonceFound(x, p) => NonceKeepsOrdered(n, i, age);
    case Stats(last, nonces) => StatsKeepOrdered(n, i, age);
  }

  lemma InitKeepsOrdered(n: Net, i: nat, age: int)
    requires Base(n) && Ordered(n) && CanMove(n, Read(i, age)) && n.workers[i].up[0].Init?
    ensures Ordered(Moved(n, Read(i, age)))
  {
    hide Base, Ordered;
    ConsumedOrdered(n, i, age);
    ReactEffect(n.miner, i, n.workers[i].up[0], age);
    assert Moved(n, Read(i, age)) == Consumed(n, i, age);
  }

  lemma StatsKeepOrdered(n: Net, i: nat, age: int)
    requires Base(n) && Ordered(n) && CanMove(n, Read(i, age)) && n.workers[i].up[0].Stats?
    ensures Ordered(Moved(n, Read(i, age)))
  {
    hide Base, Ordered, Consumed;
    var c := Consumed(n, i, age);
    ConsumedBase(n, i, age);
    ConsumedOrdered(n, i, age);
    ProcessKeepsOrdered(c);
    StatsIsConsumed(n, i, age);
    TimerKeepsOrdered(c.(miner := ProcessQueue(c.miner)), c.miner.target, true);
  }

  lemma StatsIsConsumed(n: Net, i: nat, age: int)
    requires CanMove(n, Read(i, age)) && n.workers[i].up[0].Stats?
    ensures var c := Consumed(n, i, age); Moved(n, Read(i, age)) == c.(miner := ProcessQueue(c.miner).(statsTimer := true))
  {
    var u, h, c := n.workers[i].up[0], n.miner.handles[i], Consumed(n, i, age);
    var m1 := n.miner.(handles := n.miner.handles[i := h.(lastNonce := u.last)]);
    var refill := LimitedRefill(n.miner.target as real - u.nonces, n.miner.limit, age, n.miner.session.lastNonce);
    if u.nonces < n.miner.target as real && refill > 0.0 {
      var m2 := Post(m1.(session := TakeRange(m1.session, refill)), i, AddRange(m1.session.lastNonce, refill));
      assert m2.handles == c.miner.handles;
      assert m2 == c.miner;
    } else {
      assert m1 == c.miner;
    }
    ProcessQueueEffect(c.miner);
  }

  // ------------------------------------------------------------------ workers

  lemma WorkerReadsKeepsOrdered(n: Net, i: nat)
    requires Base(n) && Ordered(n) && CanMove(n, Obey(i))
    ensures Ordered(Moved(n, Obey(i)))
  {
    var h, w, v := n.miner.handles[i], n.workers[i], Moved(n, Obey(i));
    assert SeatOk(h, w, n.grants) && WholeSeat(h, w) && SeatOrdered(h, w) && FoundOk(n, i);
    ReceiveStream(h, w);
    ReceiveSeat(h, w, n.grants, n.miner.session.lastNonce);
    assert v.miner.session == n.miner.session.(lastNonce := n.miner.session.lastNonce);
    assert FoundOk(v, i);
    SeatStepKeepsOrdered(n, v, i);
  }

  lemma ReceiveSeat(h: Handle, w: Worker, grants: seq<Grant>, next: real)
    requires SeatOk(h, w, grants) && WholeSeat(h, w) && SeatOrdered(h, w) && |h.down| > 0 && Disjoint(grants, next)
    requires w.working ==> w.workNonce <= next
    ensures var h', w' := h.(down := h.down[1..]), Receive(w, h.down[0]);
            && WholeSeat(h', w') && SeatOrdered(h', w') && w'.up == w.up && (w'.working ==> w'.workNonce <= next)
  {
    var d, h', w' := h.down[0], h.(down := h.down[1..]), Receive(w, h.down[0]);
    assert WholeDown(d);
    if !d.SetParams? { WholeSum(d.start, d.count); WholeSum(d.start + d.count, 1.0); }
    ReceiveStream(h, w);
    ReceiveUnchecked(w, d);
    OwnedBelow(Stream(h, w), grants, next, h.incarnation);
    if d.SetWork? || (d.AddRange? && w.ranges == []) {
      assert Stream(h', w')[0] == Unchecked(w')[0] == RangeOf(d.start, d.count);
    }
  }

  lemma ReportKeepsOrdered(n: Net, i: nat)
    requires Base(n) && Ordered(n) && CanMove(n, Tell(i))
    ensures Ordered(Moved(n, Tell(i)))
  {
    var h, w, v := n.miner.handles[i], n.workers[i], Moved(n, Tell(i));
    assert SeatOk(h, w, n.grants) && WholeSeat(h, w) && SeatOrdered(h, w) && FoundOk(n, i);
    CountsWhole(w);
    assert Stream(h, CollectStats(w)) == Stream(h, w);
    assert n.miner.handles[i := h] == n.miner.handles;
    SeatStepKeepsOrdered(n, v, i);
  }

  lemma {:induction false} CountsOfWhole(rs: seq<Range>)
    requires forall k :: 0 <= k < |rs| ==> WholeRange(rs[k])
    ensures Whole(Counts(rs))
    decreases |rs|
  {
    if rs != [] {
      CountsOfWhole(rs[1..]);
      assert WholeRange(rs[0]);
      WholeSum(rs[0].last, rs[0].first);
      WholeSum(rs[0].last - rs[0].first, 1.0);
      WholeSum(rs[0].last - rs[0].first + 1.0, Counts(rs[1..]));
    }
  }

  lemma CountsWhole(w: Worker)
    requires Whole(w.workNonce) && forall k :: 0 <= k < |w.ranges| ==> WholeRange(w.ranges[k])
    ensures |w.ranges| > 0 ==> Whole(w.ranges[0].last - w.workNonce + Counts(w.ranges[1..]))
  {
    if |w.ranges| > 0 {
      assert WholeRange(w.ranges[0]);
      CountsOfWhole(w.ranges[1..]);
      WholeSum(w.ranges[0].last, w.workNonce);
      WholeSum(w.ranges[0].last - w.workNonce, Counts(w.ranges[1..]));
    }
  }

  lemma AdvanceFrom(rs: seq<Range>)
    requires |rs| > 0 && Ascending(rs) && Whole(rs[0].first) && Whole(rs[0].last)
    ensures AllFrom(Advance(rs), rs[0].first + 1.0)
    ensures rs[0].first + 1.0 <= rs[0].last + 1.0
  {
    WholeSum(rs[0].last, 1.0);
    WholeSum(rs[0].first, rs[0].last + 1.0);
    if rs[0].first >= rs[0].last {
      assert forall k :: 0 <= k < |Advance(rs)| ==> Advance(rs)[k] == rs[k + 1];
    }
  }

  /** After a check the next nonce is above the checked one and not past the stream. */
  lemma WorkSeat(h: Handle, w: Worker, hit: bool, grants: seq<Grant>, next: real)
    requires SeatOk(h, w, grants) && WholeSeat(h, w) && SeatOrdered(h, w) && w.working && |w.ranges| > 0 && Disjoint(grants, next)
    ensures var w' := Work(w, hit);
            && w'.working && w.workNonce + 1.0 <= w'.workNonce <= next && Whole(w'.workNonce)
            && AllFrom(Stream(h, w'), w'.workNonce)
  {
    var s, w' := Stream(h, w), Work(w, hit);
    WorkStream(h, w, hit);
    OwnedBelow(s, grants, next, h.incarnation);
    assert WholeRange(w.ranges[0]);
    AdvanceFrom(s);
    WholeSum(w.workNonce, 1.0);
    if w.workNonce >= w.ranges[0].last && |w.ranges| > 1 {
      assert WholeRange(w.ranges[1]);
      assert Unchecked(w')[0] == Stream(h, w')[0] == w.ranges[1];
      assert s[1] == Advance(s)[0];
    }
  }

  lemma WorkUp(h: Handle, w: Worker, hit: bool)
    requires WholeSeat(h, w) && SeatOrdered(h, w) && w.working && |w.ranges| > 0
    requires Whole(Work(w, hit).workNonce) && w.workNonce + 1.0 <= Work(w, hit).workNonce
    requires AllFrom(Stream(h, Work(w, hit)), Work(w, hit).workNonce)
    ensures WholeSeat(h, Work(w, hit)) && SeatOrdered(h, Work(w, hit))
  {
    var w' := Work(w, hit);
    assert w'.up == if hit then w.up + [NonceFound(w.workNonce, w.params)] else w.up;
  }

  lemma CheckFound(n: Net, i: nat, hit: bool)
    requires Base(n) && CanMove(n, Check(i, hit)) && FoundOk(n, i)
    requires Owned(n.grants, n.workers[i].workNonce, n.miner.handles[i].incarnation)
    ensures FoundOk(Moved(n, Check(i, hit)), i)
  {
    var w, v := n.workers[i], Moved(n, Check(i, hit));
    assert v.workers[i].up == if hit then w.up + [NonceFound(w.workNonce, w.params)] else w.up;
  }

  lemma CheckBefore(h: Handle, w: Worker, hit: bool, grants: seq<Grant>)
    requires SeatOk(h, w, grants) && |w.ranges| > 0
    ensures forall x: real :: BeforeFound(w, x) && Before(h, w, x) ==> BeforeFound(Work(w, hit), x)
  {
    WorkStream(h, w, hit);
    assert Work(w, hit).up == if hit then w.up + [NonceFound(w.workNonce, w.params)] else w.up;
    assert Stream(h, w)[0].first == w.workNonce;
  }

  lemma CheckKeepsOrdered(n: Net, i: nat, hit: bool)
    requires Base(n) && Ordered(n) && CanMove(n, Check(i, hit))
    ensures Ordered(Moved(n, Check(i, hit)))
  {
    var h, w, v := n.miner.handles[i], n.workers[i], Moved(n, Check(i, hit));
    FrontIsNew(n, i, hit);
    WorkSeat(h, w, hit, n.grants, n.miner.session.lastNonce);
    WorkUp(h, w, hit);
    CheckFound(n, i, hit);
    CheckBefore(h, w, hit, n.grants);
    assert OrderedSeatStep(n, v, i);
    assert n.miner.handles[i := h] == n.miner.handles;
    assert v.miner.session == n.miner.session.(lastNonce := n.miner.session.lastNonce);
    SeatStepKeepsOrdered(n, v, i);
  }

  // ------------------------------------------------------------------ the other events

  lemma StartKeepsOrdered(n: Net)
    requires Base(n) && Ordered(n)
    ensures Ordered(Moved(n, Start))
  {
    var v := Moved(n, Start);
    var last := |n.workers|;
    assert Stream(v.miner.handles[last], FRESH_WORKER) == [];
    forall j | 0 <= j < |v.workers| ensures FoundOk(v, j) { if j < last { assert FoundOk(n, j); } }
    forall q | q in v.miner.queue ensures QueuedOk(v, q) { assert QueuedOk(n, q); }
    forall s | s in v.miner.session.submitted ensures SubmittedOk(v, s) { assert SubmittedOk(n, s); }
    assert Whole(0.0);
    forall j | 0 <= j < |v.workers|
      ensures WholeSeat(v.miner.handles[j], v.workers[j]) && SeatOrdered(v.miner.handles[j], v.workers[j])
    {
      if j < last { assert WholeSeat(n.miner.handles[j], n.workers[j]) && SeatOrdered(n.miner.handles[j], n.workers[j]); }
    }
  }

  lemma DroppedOrdered(n: Net)
    requires Base(n) && Ordered(n) && |n.workers| > 0
    ensures var last := |n.workers| - 1;
            Ordered(n.(miner := n.miner.(handles := n.miner.handles[..last]), workers := n.workers[..last]))
  {
    var last := |n.workers| - 1;
    var c := n.(miner := n.miner.(handles := n.miner.handles[..last]), workers := n.workers[..last]);
    forall j | 0 <= j < |c.workers| ensures FoundOk(c, j) { assert FoundOk(n, j); }
    forall q | q in c.miner.queue ensures QueuedOk(c, q) { assert QueuedOk(n, q); }
    forall s | s in c.miner.session.submitted ensures SubmittedOk(c, s) { assert SubmittedOk(n, s); }
  }

  lemma StopKeepsOrdered(n: Net)
    requires Base(n) && Ordered(n)
    ensures Base(Moved(n, Stop)) && Ordered(Moved(n, Stop))
  {
    StopKeepsBase(n);
    if |n.workers| > 0 {
      var last := |n.workers| - 1;
      var c := n.(miner := n.miner.(handles := n.miner.handles[..last]), workers := n.workers[..last]);
      DroppedOrdered(n);
      ProcessQueueEffect(c.miner);
      SameBase(Moved(n, Stop), c);
      ProcessKeepsOrdered(c);
    }
  }

  lemma ParamsKeepOrdered(n: Net, p: string)
    requires Base(n) && Ordered(n)
    ensures Ordered(Moved(n, Params(p)))
  {
    hide Stream, Unchecked;
    var v := Moved(n, Params(p));
    forall j | 0 <= j < |v.workers|
      ensures WholeSeat(v.miner.handles[j], v.workers[j]) && SeatOrdered(v.miner.handles[j], v.workers[j]) && FoundOk(v, j)
      ensures Stream(v.miner.handles[j], v.workers[j]) == Stream(n.miner.handles[j], n.workers[j])
    {
      NotifiedStream(n.miner.handles[j], n.workers[j], p);
      assert WholeSeat(n.miner.handles[j], n.workers[j]) && SeatOrdered(n.miner.handles[j], n.workers[j]) && FoundOk(n, j);
    }
    forall s | s in v.miner.session.submitted ensures SubmittedOk(v, s) { assert SubmittedOk(n, s); }
  }

  lemma AlgorithmKeepsOrdered(n: Net, p: string)
    requires Base(n) && Ordered(n)
    ensures Ordered(Moved(n, Algorithm(p)))
  {
    var v := Moved(n, Algorithm(p));
    forall j | 0 <= j < |v.workers| ensures FoundOk(v, j) { assert FoundOk(n, j); }
    forall s | s in v.miner.session.submitted ensures SubmittedOk(v, s) { assert SubmittedOk(n, s); }
  }

  lemma SessionKeepsOrdered(n: Net, s: Session)
    requires Base(n) && Ordered(n) && SessionOk(s)
    requires s.lastNonce == n.miner.session.lastNonce && s.submitted == n.miner.session.submitted
    ensures Ordered(n.(miner := n.miner.(session := s)))
  {
    var v := n.(miner := n.miner.(session := s));
    forall j | 0 <= j < |v.workers| ensures FoundOk(v, j) { assert FoundOk(n, j); }
    forall q | q in v.miner.queue ensures QueuedOk(v, q) { assert QueuedOk(n, q); }
    forall s | s in v.miner.session.submitted ensures SubmittedOk(v, s) { assert SubmittedOk(n, s); }
  }

  /** The prefill target and its timer do not matter to the order. */
  lemma TimerKeepsOrdered(n: Net, target: nat, timer: bool)
    requires |n.workers| == |n.miner.handles| && Ordered(n)
    ensures Ordered(n.(miner := n.miner.(target := target, statsTimer := timer)))
  {
    var v := n.(miner := n.miner.(target := target, statsTimer := timer));
    forall j | 0 <= j < |v.workers| ensures FoundOk(v, j) { assert FoundOk(n, j); }
    forall q | q in v.miner.queue ensures QueuedOk(v, q) { assert QueuedOk(n, q); }
    forall s | s in v.miner.session.submitted ensures SubmittedOk(v, s) { assert SubmittedOk(n, s); }
  }

  /** Rejection of one parameter set removes exactly its shares and keeps the order. */
  lemma {:induction false} WithoutParamsKeeps(q: seq<Share>, p: string)
    requires IncreasingShares(q)
    ensures IncreasingShares(WithoutParams(q, p))
    ensures forall x :: x in WithoutParams(q, p) <==> x in q && x.params != p
    decreases |q|
  {
    if q != [] {
      WithoutParamsKeeps(q[1..], p);
      assert forall x :: x in q <==> x == q[0] || x in q[1..];
      forall x | x in q[1..] ensures q[0].nonce < x.nonce {
        var k :| 0 <= k < |q[1..]| && q[1..][k] == x;
        assert q[k + 1] == x;
      }
      AppendShares(if q[0].params == p then [] else [q[0]], WithoutParams(q[1..], p));
    }
  }

  lemma SplitShares(a: seq<Share>, b: seq<Share>)
    requires IncreasingShares(a + b)
    ensures IncreasingShares(a) && IncreasingShares(b)
    ensures forall s, j :: s in a && 0 <= j < |b| ==> s.nonce < b[j].nonce
  {
    forall j, k | 0 <= j < k < |a| ensures a[j].nonce < a[k].nonce {
      assert (a + b)[j] == a[j] && (a + b)[k] == a[k];
    }
    forall j, k | 0 <= j < k < |b| ensures b[j].nonce < b[k].nonce {
      assert (a + b)[|a| + j] == b[j] && (a + b)[|a| + k] == b[k];
    }
    forall s, j | s in a && 0 <= j < |b| ensures s.nonce < b[j].nonce {
      var k :| 0 <= k < |a| && a[k] == s;
      assert (a + b)[k] == s && (a + b)[|a| + j] == b[j];
    }
  }

  lemma SendKeepsSession(s: Session)
    requires SessionOk(s)
    ensures SessionOk(SendShare(s))
  {
    if s.shareQueue != [] { assert SendShare(s).sent + SendShare(s).shareQueue == s.sent + s.shareQueue; }
  }

  lemma RejectKeepsSession(s: Session, p: string)
    requires SessionOk(s)
    ensures SessionOk(RejectParams(s, p))
  {
    SplitShares(s.sent, s.shareQueue);
    WithoutParamsKeeps(s.shareQueue, p);
    var rest := WithoutParams(s.shareQueue, p);
    forall x, j | x in s.sent && 0 <= j < |rest| ensures x.nonce < rest[j].nonce {
      assert rest[j] in s.shareQueue;
      var k :| 0 <= k < |s.shareQueue| && s.shareQueue[k] == rest[j];
    }
    AppendShares(s.sent, rest);
  }

  lemma MoveKeepsOrdered(n: Net, e: Move)
    requires Base(n) && Ordered(n) && CanMove(n, e)
    ensures Base(Moved(n, e)) && Ordered(Moved(n, e))
  {
    MoveKeepsBase(n, e);
    match e
    case Start => StartKeepsOrdered(n);
    case Stop => StopKeepsOrdered(n);
    case Read(i, age) => MinerReadsKeepsOrdered(n, i, age);
    case Obey(i) => WorkerReadsKeepsOrdered(n, i);
    case Check(i, hit) => CheckKeepsOrdered(n, i, hit);
    case Tell(i) => ReportKeepsOrdered(n, i);
    case Timer(target) => TimerKeepsOrdered(n, target, false);
    case Params(p) => ParamsKeepOrdered(n, p);
    case Algorithm(p) => AlgorithmKeepsOrdered(n, p);
    case Send =>
      SendKeepsSession(n.miner.session);
      SessionKeepsOrdered(n, SendShare(n.miner.session));
    case Reject(p) =>
      RejectKeepsSession(n.miner.session, p);
      SessionKeepsOrdered(n, RejectParams(n.miner.session, p));
  }

  lemma {:induction false} ChecksKeepOrdered(n: Net, i: nat, hits: seq<bool>)
    requires Base(n) && Ordered(n) && i < |n.workers| && n.workers[i].working
    ensures Base(Checks(n, i, hits)) && Ordered(Checks(n, i, hits))
    decreases |hits|
  {
    if hits != [] && |n.workers[i].ranges| > 0 {
      MoveKeepsOrdered(n, Check(i, hits[0]));
      CheckGoesOn(n, i, hits[0]);
      ChecksKeepOrdered(Moved(n, Check(i, hits[0])), i, hits[1..]);
    }
  }

  lemma StepKeepsOrdered(n: Net, e: Event)
    requires Base(n) && Ordered(n) && Enabled(n, e)
    ensures Base(Apply(n, e)) && Ordered(Apply(n, e))
  {
    if e.Batch? {
      ChecksKeepOrdered(n, e.i, e.hits);
    } else {
      MoveKeepsOrdered(n, MoveOf(e).value);
      if e.WorkerReads? && n.miner.handles[e.i].down[0].SetWork? {
        ChecksKeepOrdered(Moved(n, Obey(e.i)), e.i, e.hits);
      }
    }
  }

  // ------------------------------------------------------------------ runs

  /** A fresh miner on a session whose server has seen nonces up to resumed. */
  function Initial(resumed: int, limit: real, params: string): Net {
    Net(Miner([], [], None, params, limit, Session((resumed + 1) as real, [], [], []), FIRST_TARGET, false), [], 0, [], [], {})
  }

  /** Every event of the run can happen when its turn comes. */
  predicate Possible(n: Net, es: seq<Event>)
    decreases |es|
  {
    es == [] || (Enabled(n, es[0]) && Possible(Apply(n, es[0]), es[1..]))
  }

  function Run(n: Net, es: seq<Event>): Net
    requires Possible(n, es)
    decreases |es|
  {
    if es == [] then n else Run(Apply(n, es[0]), es[1..])
  }

  lemma {:induction false} RunKeepsBase(n: Net, es: seq<Event>)
    requires Base(n) && Possible(n, es)
    ensures Base(Run(n, es))
    decreases |es|
  {
    if es != [] {
      StepKeepsBase(n, es[0]);
      RunKeepsBase(Apply(n, es[0]), es[1..]);
    }
  }

  lemma {:induction false} RunKeepsOrdered(n: Net, es: seq<Event>)
    requires Base(n) && Ordered(n) && Possible(n, es)
    ensures Base(Run(n, es)) && Ordered(Run(n, es))
    decreases |es|
  {
    if es != [] {
      StepKeepsOrdered(n, es[0]);
      RunKeepsOrdered(Apply(n, es[0]), es[1..]);
    }
  }

  /** In every run, whatever the limit: no nonce is checked twice, and the ranges handed out
      are disjoint. */
  lemma NeverCheckedTwice(resumed: int, limit: real, params: string, es: seq<Event>)
    requires Possible(Initial(resumed, limit, params), es)
    ensures var n := Run(Initial(resumed, limit, params), es);
            && NoDuplicates(n.checked)
            && Disjoint(n.grants, n.miner.session.lastNonce)
            && forall c :: c in n.checked ==> exists a: nat :: Owned(n.grants, c, a)
  {
    RunKeepsBase(Initial(resumed, limit, params), es);
    var n := Run(Initial(resumed, limit, params), es);
    forall c | c in n.checked ensures exists a: nat :: Owned(n.grants, c, a) { assert OwnedChecked(n, c); }
  }

  /** With a whole-number limit, in every run: shares are submitted, and reach the server, with
      strictly increasing nonces, each a checked nonce found under the parameters it carries. */
  lemma SharesIncrease(resumed: int, limit: real, params: string, es: seq<Event>)
    requires Whole(limit) && Possible(Initial(resumed, limit, params), es)
    ensures var s, n := Run(Initial(resumed, limit, params), es).miner.session, Run(Initial(resumed, limit, params), es);
            && IncreasingShares(s.submitted) && IncreasingShares(s.sent)
            && (forall x :: x in s.submitted ==> x.nonce in n.checked && (x.nonce, x.params) in n.found)
            && (forall x :: x in s.sent ==> x in s.submitted)
  {
    hide Possible, Run, Base, Ordered;
    InitialOrdered(resumed, limit, params);
    RunKeepsOrdered(Initial(resumed, limit, params), es);
    OrderedShares(Run(Initial(resumed, limit, params), es));
  }

  lemma InitialOrdered(resumed: int, limit: real, params: string)
    requires Whole(limit)
    ensures Base(Initial(resumed, limit, params)) && Ordered(Initial(resumed, limit, params))
  {
    WholeIs((resumed + 1) as real, resumed + 1);
  }

  /** What the order of the submitted shares means for the session. */
  lemma OrderedShares(n: Net)
    requires Base(n) && Ordered(n)
    ensures var s := n.miner.session;
            && IncreasingShares(s.submitted) && IncreasingShares(s.sent)
            && (forall x :: x in s.submitted ==> x.nonce in n.checked && (x.nonce, x.params) in n.found)
            && (forall x :: x in s.sent ==> x in s.submitted)
  {
    SplitShares(n.miner.session.sent, n.miner.session.shareQueue);
    forall x | x in n.miner.session.submitted ensures x.nonce in n.checked && (x.nonce, x.params) in n.found { assert SubmittedOk(n, x); }
    forall x | x in n.miner.session.sent ensures x in n.miner.session.submitted {
      assert x in n.miner.session.sent + n.miner.session.shareQueue;
    }
  }
}
