/** Every run of the mining client hands out disjoint ranges and checks no nonce twice. */
module MinerSafety {
  import opened MinerData
  import opened MinerNet

  // ------------------------------------------------------------------ effects of the miner

  lemma {:induction false} SubmitAllEffect(s: Session, nonces: seq<real>, params: string)
    ensures SubmitAll(s, nonces, params).lastNonce == s.lastNonce
    ensures SubmitAll(s, nonces, params).sent == s.sent
    decreases |nonces|
  {
    if nonces != [] { SubmitAllEffect(SubmitShare(s, Share(nonces[0], params)), nonces[1..], params); }
  }

  lemma ProcessQueueEffect(m: Miner)
    ensures var r := ProcessQueue(m); r.handles == m.handles && r.session.lastNonce == m.session.lastNonce && r.params == m.params && r.limit == m.limit && r.target == m.target
  {
    var save := Watermark(m.handles);
    if save.Some? { SubmitAllEffect(m.session, m.queue[..SafeCount(m.queue, save.value)], m.params); }
  }

  function ReactHandle(m: Miner, h: Handle, u: Up, age: int): Handle {
    match u
    case Init => h.(ready := true, lastNonce := m.session.lastNonce,
                    down := h.down + [SetWork(m.session.lastNonce, InitialRefill(m, age), m.params)])
    case NonceFound(x, p) => if p != m.params then h else h.(lastNonce := x)
    case Stats(last, nonces) =>
      var refill := LimitedRefill(m.target as real - nonces, m.limit, age, m.session.lastNonce);
      if nonces < m.target as real && refill > 0.0 then h.(lastNonce := last, down := h.down + [AddRange(m.session.lastNonce, refill)])
      else h.(lastNonce := last)
  }

  function ReactNext(m: Miner, u: Up, age: int): real {
    match u
    case Init => m.session.lastNonce + InitialRefill(m, age)
    case NonceFound(x, p) => m.session.lastNonce
    case Stats(last, nonces) =>
      var refill := LimitedRefill(m.target as real - nonces, m.limit, age, m.session.lastNonce);
      if nonces < m.target as real && refill > 0.0 then m.session.lastNonce + refill else m.session.lastNonce
  }

  /** A message changes the record of its own worker only. */
  lemma ReactEffect(m: Miner, i: nat, u: Up, age: int)
    requires i < |m.handles|
    ensures var r := React(m, i, u, age);
            && r.handles == m.handles[i := ReactHandle(m, m.handles[i], u, age)]
            && r.session.lastNonce == ReactNext(m, u, age)
            && r.params == m.params && r.limit == m.limit && r.target == m.target
  {
    var h := m.handles[i];
    match u
    case Init =>
      var start := m.session.lastNonce;
      var h1 := h.(ready := true, lastNonce := start);
      assert m.handles[i := h1][i := ReactHandle(m, h, u, age)] == m.handles[i := ReactHandle(m, h, u, age)];
    case NonceFound(x, p) =>
      if p != m.params { assert m.handles[i := h] == m.handles; }
      else { ProcessQueueEffect(m.(handles := m.handles[i := h.(lastNonce := x)], queue := Insert(m.queue, x))); }
    case Stats(last, nonces) =>
      var m1 := m.(handles := m.handles[i := h.(lastNonce := last)]);
      var refill := LimitedRefill(m.target as real - nonces, m.limit, age, m.session.lastNonce);
      if nonces < m.target as real && refill > 0.0 {
        var m2 := Post(m1.(session := TakeRange(m1.session, refill)), i, AddRange(m1.session.lastNonce, refill));
        assert m2.handles == m.handles[i := ReactHandle(m, h, u, age)];
        ProcessQueueEffect(m2);
      } else {
        ProcessQueueEffect(m1);
      }
  }

  // ------------------------------------------------------------------ effects on one stream

  lemma ReceiveUnchecked(w: Worker, d: Down)
    requires d.SetWork? ==> w.ranges == []
    ensures Unchecked(Receive(w, d)) == Unchecked(w) + Part(d)
  {
    var v := Receive(w, d);
    if d.AddRange? && |w.ranges| > 0 { assert v.ranges[1..] == w.ranges[1..] + Part(d); }
  }

  lemma Associate<T>(a: seq<T>, b: seq<T>, c: seq<T>)
    ensures (a + b) + c == a + (b + c)
  {}

  /** Reading a control message moves its range from the channel to the worker. */
  lemma ReceiveStream(h: Handle, w: Worker)
    requires |h.down| > 0 && (h.down[0].SetWork? ==> w.ranges == [])
    ensures Stream(h.(down := h.down[1..]), Receive(w, h.down[0])) == Stream(h, w)
  {
    ReceiveUnchecked(w, h.down[0]);
    Associate(Unchecked(w), Part(h.down[0]), DownRanges(h.down[1..]));
  }

  /** Checking a nonce removes it from the front of the stream. */
  function Advance(rs: seq<Range>): seq<Range>
    requires |rs| > 0
  {
    if rs[0].first >= rs[0].last then rs[1..] else [Range(rs[0].first + 1.0, rs[0].last)] + rs[1..]
  }

  /** The last nonce of a range was checked and another range follows. */
  lemma WorkNextRange(w: Worker, hit: bool)
    requires |w.ranges| > 1 && w.workNonce >= w.ranges[0].last
    ensures Unchecked(Work(w, hit)) == w.ranges[1..]
  {}

  lemma WorkUnchecked(w: Worker, hit: bool)
    requires |w.ranges| > 0
    ensures |Unchecked(w)| > 0 && Unchecked(w)[0] == Range(w.workNonce, w.ranges[0].last)
    ensures Unchecked(Work(w, hit)) == Advance(Unchecked(w))
  {
    var last := w.ranges[0].last;
    assert Unchecked(w) == [Range(w.workNonce, last)] + w.ranges[1..];
    if w.workNonce < last {
      assert Unchecked(Work(w, hit)) == [Range(w.workNonce + 1.0, last)] + w.ranges[1..];
    } else if |w.ranges| == 1 {
      assert Unchecked(Work(w, hit)) == [];
    } else {
      WorkNextRange(w, hit);
    }
  }

  lemma AdvanceConcat(a: seq<Range>, b: seq<Range>)
    requires |a| > 0
    ensures (a + b)[0] == a[0] && Advance(a + b) == Advance(a) + b
  {
    assert (a + b)[1..] == a[1..] + b;
  }

  lemma WorkStream(h: Handle, w: Worker, hit: bool)
    requires |w.ranges| > 0
    ensures |Stream(h, w)| > 0 && Stream(h, w)[0] == Range(w.workNonce, w.ranges[0].last)
    ensures Stream(h, Work(w, hit)) == Advance(Stream(h, w))
  {
    WorkUnchecked(w, hit);
    AdvanceConcat(Unchecked(w), DownRanges(h.down));
  }

  lemma AdvanceOk(rs: seq<Range>, grants: seq<Grant>, inc: nat)
    requires |rs| > 0 && Ascending(rs) && AllOwned(grants, rs, inc)
    ensures Ascending(Advance(rs)) && AllOwned(grants, Advance(rs), inc) && AllAfter(Advance(rs), rs[0].first)
    ensures forall x: real :: AllAfter(rs, x) ==> AllAfter(Advance(rs), x)
  {
    var t := Advance(rs);
    if rs[0].first >= rs[0].last {
      assert forall k :: 0 <= k < |t| ==> t[k] == rs[k + 1];
    } else {
      assert forall k :: 0 < k < |t| ==> t[k] == rs[k];
      assert OwnedRange(grants, rs[0], inc);
      var k :| 0 <= k < |grants| && RangeIn(grants[k], rs[0], inc);
      assert RangeIn(grants[k], t[0], inc);
    }
  }

  lemma NotifiedStream(h: Handle, w: Worker, p: string)
    ensures Stream(Notified(h, p), w) == Stream(h, w)
  {
    DownAppend(h.down, SetParams(p));
    assert DownRanges(h.down) + [] == DownRanges(h.down);
  }

  lemma PostStream(h: Handle, w: Worker, d: Down)
    ensures Stream(h.(down := h.down + [d]), w) == Stream(h, w) + Part(d)
  {
    DownAppend(h.down, d);
  }

  // ------------------------------------------------------------------ growing grants

  lemma OwnedGrows(grants: seq<Grant>, g: Grant, r: Range, a: nat)
    requires OwnedRange(grants, r, a)
    ensures OwnedRange(grants + [g], r, a)
  {
    var k :| 0 <= k < |grants| && RangeIn(grants[k], r, a);
    assert RangeIn((grants + [g])[k], r, a);
  }

  lemma OwnedPointGrows(grants: seq<Grant>, g: Grant, x: real, a: nat)
    requires x < g.first
    ensures Owned(grants + [g], x, a) <==> Owned(grants, x, a)
  {
    if Owned(grants, x, a) {
      var k :| 0 <= k < |grants| && InGrant(grants[k], x, a);
      assert InGrant((grants + [g])[k], x, a);
    }
  }

  lemma StartsOwned(grants: seq<Grant>, r: Range, a: nat)
    requires OwnedRange(grants, r, a) && r.first < r.last + 1.0
    ensures Owned(grants, r.first, a)
  {
    var k :| 0 <= k < |grants| && RangeIn(grants[k], r, a);
    assert InGrant(grants[k], r.first, a);
  }

  // ------------------------------------------------------------------ Base is kept

  /** One worker's record and thread change; its stream keeps its order, its ranges are owned,
      and nothing checked falls behind its front. */
  ghost predicate SeatStep(n: Net, i: nat, h: Handle, w: Worker, grants: seq<Grant>)
    requires i < |n.workers| == |n.miner.handles|
  {
    && h.incarnation == n.miner.handles[i].incarnation
    && SeatOk(h, w, grants)
    && forall x: real :: x < n.miner.session.lastNonce && Before(n.miner.handles[i], n.workers[i], x) ==> Before(h, w, x)
  }

  lemma SeatStepKeepsBase(n: Net, v: Net, i: nat, h: Handle, w: Worker)
    requires Base(n) && i < |n.workers| && SeatStep(n, i, h, w, v.grants)
    requires v.miner.handles == n.miner.handles[i := h] && v.workers == n.workers[i := w] && v.born == n.born
    requires v.checked == n.checked
    requires v.grants == Granted(n.grants, n.miner.session.lastNonce, v.miner.session.lastNonce, h.incarnation)
    requires n.miner.session.lastNonce <= v.miner.session.lastNonce
    requires v.miner.target >= LEAST_TARGET
    ensures Base(v)
  {
    forall j | 0 <= j < |v.workers| ensures SeatOk(v.miner.handles[j], v.workers[j], v.grants) { SeatStays(n, v, i, h, w, j); }
    GrantsStay(n.grants, n.miner.session.lastNonce, v.miner.session.lastNonce, h.incarnation, n.born);
    forall c | c in v.checked ensures OwnedChecked(v, c) { CheckedStays(n, v, i, h, w, c); }
  }

  lemma SeatStays(n: Net, v: Net, i: nat, h: Handle, w: Worker, j: nat)
    requires Base(n) && i < |n.workers| && SeatOk(h, w, v.grants) && j < |n.workers|
    requires v.miner.handles == n.miner.handles[i := h] && v.workers == n.workers[i := w]
    requires v.grants == Granted(n.grants, n.miner.session.lastNonce, v.miner.session.lastNonce, h.incarnation)
    ensures SeatOk(v.miner.handles[j], v.workers[j], v.grants)
  {
    if j != i { SeatGrows(n.miner.handles[j], n.workers[j], n.grants, n.miner.session.lastNonce, v.miner.session.lastNonce, h.incarnation); }
  }

  lemma GrantsStay(grants: seq<Grant>, before: real, after: real, inc: nat, born: nat)
    requires Disjoint(grants, before) && before <= after && inc < born
    requires forall k :: 0 <= k < |grants| ==> grants[k].incarnation < born
    ensures var g := Granted(grants, before, after, inc);
            Disjoint(g, after) && forall k :: 0 <= k < |g| ==> g[k].incarnation < born
  {}

  lemma CheckedStays(n: Net, v: Net, i: nat, h: Handle, w: Worker, c: real)
    requires Base(n) && i < |n.workers| && SeatStep(n, i, h, w, v.grants) && c in n.checked
    requires v.miner.handles == n.miner.handles[i := h] && v.workers == n.workers[i := w]
    requires v.grants == Granted(n.grants, n.miner.session.lastNonce, v.miner.session.lastNonce, h.incarnation)
    ensures OwnedChecked(v, c)
  {
    assert OwnedChecked(n, c);
    var a: nat :| Owned(n.grants, c, a);
    OwnerUnique(n.grants, n.miner.session.lastNonce, c, a, a);
    PointsGrow(n.grants, n.miner.session.lastNonce, v.miner.session.lastNonce, h.incarnation, c);
    assert Owned(v.grants, c, a);
    forall j | 0 <= j < |v.workers| && Owned(v.grants, c, v.miner.handles[j].incarnation)
      ensures Before(v.miner.handles[j], v.workers[j], c)
    {
      assert Owned(n.grants, c, n.miner.handles[j].incarnation);
    }
  }

  lemma PointsGrow(grants: seq<Grant>, before: real, after: real, inc: nat, c: real)
    requires c < before
    ensures forall a: nat :: Owned(Granted(grants, before, after, inc), c, a) <==> Owned(grants, c, a)
  {
    forall a: nat ensures Owned(Granted(grants, before, after, inc), c, a) <==> Owned(grants, c, a) {
      if before < after { OwnedPointGrows(grants, Grant(before, after, inc), c, a); }
    }
  }

  lemma AllOwnedGrows(grants: seq<Grant>, rs: seq<Range>, inc: nat, g: Grant)
    requires AllOwned(grants, rs, inc)
    ensures AllOwned(grants + [g], rs, inc)
  {
    forall k | 0 <= k < |rs| ensures OwnedRange(grants + [g], rs[k], inc) { OwnedGrows(grants, g, rs[k], inc); }
  }

  lemma SeatGrows(h: Handle, w: Worker, grants: seq<Grant>, before: real, after: real, inc: nat)
    requires SeatOk(h, w, grants)
    ensures SeatOk(h, w, Granted(grants, before, after, inc))
  {
    if before < after { AllOwnedGrows(grants, Stream(h, w), h.incarnation, Grant(before, after, inc)); }
  }

  lemma OwnedBelow(rs: seq<Range>, grants: seq<Grant>, next: real, inc: nat)
    requires AllOwned(grants, rs, inc) && Disjoint(grants, next)
    ensures forall k :: 0 <= k < |rs| ==> rs[k].last + 1.0 <= next
  {
    forall k | 0 <= k < |rs| ensures rs[k].last + 1.0 <= next { assert OwnedRange(grants, rs[k], inc); }
  }

  /** A new range goes to the end of the stream. */
  lemma GrantAppended(rs: seq<Range>, grants: seq<Grant>, next: real, inc: nat, count: real)
    requires Disjoint(grants, next) && Ascending(rs) && AllOwned(grants, rs, inc) && count > 0.0
    ensures var g, t := Granted(grants, next, next + count, inc), rs + [RangeOf(next, count)];
            Ascending(t) && AllOwned(g, t, inc) && forall x: real :: x < next && AllAfter(rs, x) ==> AllAfter(t, x)
  {
    var g := Grant(next, next + count, inc);
    OwnedBelow(rs, grants, next, inc);
    AllOwnedGrows(grants, rs, inc, g);
    assert RangeIn((grants + [g])[|grants|], RangeOf(next, count), inc);
  }

  /** What reading a message does to the stream of its worker. */
  lemma ReactSeat(n: Net, i: nat, u: Up, w: Worker, age: int)
    requires Base(n) && i < |n.workers| && |n.workers[i].up| > 0
    requires u == n.workers[i].up[0] && w == n.workers[i].(up := n.workers[i].up[1..])
    ensures var h' := ReactHandle(n.miner, n.miner.handles[i], u, age);
            var next := ReactNext(n.miner, u, age);
            n.miner.session.lastNonce <= next
            && SeatStep(n, i, h', w, Granted(n.grants, n.miner.session.lastNonce, next, h'.incarnation))
  {
    var h := n.miner.handles[i];
    assert SeatOk(h, n.workers[i], n.grants);
    assert Stream(h, w) == Stream(h, n.workers[i]);
    match u
    case Init =>
      assert n.workers[i].up == [Init];
      InitSeat(n, i, h, w, age);
    case NonceFound(x, p) =>
      var h' := ReactHandle(n.miner, h, u, age);
      assert Stream(h', w) == Stream(h, w);
    case Stats(last, nonces) =>
      StatsSeat(n, i, h, w, last, nonces, age);
  }

  lemma InitSeat(n: Net, i: nat, h: Handle, w: Worker, age: int)
    requires Base(n) && i < |n.workers| && h == n.miner.handles[i]
    requires !h.ready && h.down == [] && w == FRESH_WORKER.(up := []) && n.workers[i] == FRESH_WORKER
    ensures var h' := ReactHandle(n.miner, h, Init, age);
            var next := ReactNext(n.miner, Init, age);
            n.miner.session.lastNonce < next
            && SeatStep(n, i, h', w, Granted(n.grants, n.miner.session.lastNonce, next, h'.incarnation))
  {
    var h' := ReactHandle(n.miner, h, Init, age);
    var refill := InitialRefill(n.miner, age);
    PostStream(h.(ready := true, lastNonce := n.miner.session.lastNonce), w, SetWork(n.miner.session.lastNonce, refill, n.miner.params));
    GrantAppended(Stream(h, w), n.grants, n.miner.session.lastNonce, h.incarnation, refill);
    assert Stream(h', w) == Stream(h, w) + [RangeOf(n.miner.session.lastNonce, refill)];
    assert Stream(h, n.workers[i]) == Stream(h, w) == [];
  }

  lemma StatsSeat(n: Net, i: nat, h: Handle, w: Worker, last: real, nonces: real, age: int)
    requires Base(n) && i < |n.workers| && h == n.miner.handles[i]
    requires h.ready && w.working && |n.workers[i].up| > 0 && w == n.workers[i].(up := n.workers[i].up[1..])
    ensures var h' := ReactHandle(n.miner, h, Stats(last, nonces), age);
            var next := ReactNext(n.miner, Stats(last, nonces), age);
            n.miner.session.lastNonce <= next
            && SeatStep(n, i, h', w, Granted(n.grants, n.miner.session.lastNonce, next, h'.incarnation))
  {
    var h' := ReactHandle(n.miner, h, Stats(last, nonces), age);
    assert SeatOk(h, n.workers[i], n.grants);
    assert Stream(h, w) == Stream(h, n.workers[i]);
    var refill := LimitedRefill(n.miner.target as real - nonces, n.miner.limit, age, n.miner.session.lastNonce);
    if nonces < n.miner.target as real && refill > 0.0 {
      PostStream(h.(lastNonce := last), w, AddRange(n.miner.session.lastNonce, refill));
      GrantAppended(Stream(h, w), n.grants, n.miner.session.lastNonce, h.incarnation, refill);
      assert Stream(h', w) == Stream(h, w) + [RangeOf(n.miner.session.lastNonce, refill)];
    } else {
      assert Stream(h', w) == Stream(h, w);
    }
  }

  lemma MinerReadsKeepsBase(n: Net, i: nat, age: int)
    requires Base(n) && CanMove(n, Read(i, age))
    ensures Base(Moved(n, Read(i, age)))
  {
    var u, h, w := n.workers[i].up[0], n.miner.handles[i], n.workers[i].(up := n.workers[i].up[1..]);
    ReactEffect(n.miner, i, u, age);
    ReactSeat(n, i, u, w, age);
    SeatStepKeepsBase(n, Moved(n, Read(i, age)), i, ReactHandle(n.miner, h, u, age), w);
  }

  lemma WorkerReadsKeepsBase(n: Net, i: nat)
    requires Base(n) && CanMove(n, Obey(i))
    ensures Base(Moved(n, Obey(i)))
  {
    var h, w := n.miner.handles[i], n.workers[i];
    assert SeatOk(h, w, n.grants);
    ReceiveStream(h, w);
    SeatStepKeepsBase(n, Moved(n, Obey(i)), i, h.(down := h.down[1..]), Receive(w, h.down[0]));
  }

  lemma ReportKeepsBase(n: Net, i: nat)
    requires Base(n) && CanMove(n, Tell(i))
    ensures Base(Moved(n, Tell(i)))
  {
    var h, w := n.miner.handles[i], n.workers[i];
    assert SeatOk(h, w, n.grants);
    assert Stream(h, CollectStats(w)) == Stream(h, w);
    assert n.miner.handles[i := h] == n.miner.handles;
    SeatStepKeepsBase(n, Moved(n, Tell(i)), i, h, CollectStats(w));
  }

  lemma CheckedBefore(n: Net, i: nat, c: real)
    requires Base(n) && i < |n.workers| && c in n.checked
    ensures Owned(n.grants, c, n.miner.handles[i].incarnation) ==> Before(n.miner.handles[i], n.workers[i], c)
  {
    assert OwnedChecked(n, c);
  }

  /** The nonce at the front of a stream has never been checked, and after it the stream is
      still ahead of it. */
  lemma FrontIsNew(n: Net, i: nat, hit: bool)
    requires Base(n) && CanMove(n, Check(i, hit)) && |n.miner.handles| == |n.workers|
    ensures var h, w := n.miner.handles[i], n.workers[i];
            && w.workNonce !in n.checked && Owned(n.grants, w.workNonce, h.incarnation)
            && Before(h, Work(w, hit), w.workNonce) && SeatStep(n, i, h, Work(w, hit), n.grants)
  {
    var h, w := n.miner.handles[i], n.workers[i];
    CheckSeat(h, w, hit, n.grants);
    forall c | c in n.checked ensures c != w.workNonce {
      CheckedBefore(n, i, c);
      if Owned(n.grants, c, h.incarnation) { assert c < Stream(h, w)[0].first; }
    }
  }

  lemma CheckSeat(h: Handle, w: Worker, hit: bool, grants: seq<Grant>)
    requires SeatOk(h, w, grants) && w.working && |w.ranges| > 0
    ensures SeatOk(h, Work(w, hit), grants) && Owned(grants, w.workNonce, h.incarnation)
    ensures |Stream(h, w)| > 0 && Stream(h, w)[0].first == w.workNonce
    ensures Before(h, Work(w, hit), w.workNonce)
    ensures forall x: real :: Before(h, w, x) ==> Before(h, Work(w, hit), x)
  {
    WorkStream(h, w, hit);
    StartsOwned(grants, Stream(h, w)[0], h.incarnation);
    AdvanceOk(Stream(h, w), grants, h.incarnation);
  }

  lemma CheckKeepsBase(n: Net, i: nat, hit: bool)
    requires Base(n) && CanMove(n, Check(i, hit))
    ensures Base(Moved(n, Check(i, hit)))
  {
    var h, w := n.miner.handles[i], n.workers[i];
    FrontIsNew(n, i, hit);
    var v := Moved(n, Check(i, hit));
    var u := v.(checked := n.checked);
    assert n.miner.handles[i := h] == n.miner.handles;
    SeatStepKeepsBase(n, u, i, h, Work(w, hit));
    forall c | c in v.checked ensures OwnedChecked(v, c) {
      if c in n.checked { assert OwnedChecked(u, c); }
      else {
        forall j | 0 <= j < |v.workers| && Owned(v.grants, c, v.miner.handles[j].incarnation)
          ensures Before(v.miner.handles[j], v.workers[j], c)
        {
          OwnerUnique(n.grants, n.miner.session.lastNonce, c, h.incarnation, v.miner.handles[j].incarnation);
        }
      }
    }
  }

  lemma StartKeepsBase(n: Net)
    requires Base(n)
    ensures Base(Moved(n, Start))
  {
    var v := Moved(n, Start);
    assert Stream(v.miner.handles[|n.workers|], FRESH_WORKER) == [];
    forall c | c in v.checked ensures OwnedChecked(v, c) {
      assert OwnedChecked(n, c);
      NotYetOwned(n.grants, c, n.born);
    }
    forall j | 0 <= j < |v.workers| ensures SeatOk(v.miner.handles[j], v.workers[j], v.grants) {
      if j < |n.workers| { assert SeatOk(n.miner.handles[j], n.workers[j], n.grants); }
    }
  }

  lemma NotYetOwned(grants: seq<Grant>, x: real, born: nat)
    requires forall k :: 0 <= k < |grants| ==> grants[k].incarnation < born
    ensures !Owned(grants, x, born)
  {}

  lemma StopKeepsBase(n: Net)
    requires Base(n)
    ensures Base(Moved(n, Stop))
  {
    if |n.workers| > 0 {
      var u := Moved(n, Stop);
      ProcessQueueEffect(n.miner.(handles := n.miner.handles[..|n.miner.handles| - 1]));
      forall c | c in u.checked ensures OwnedChecked(u, c) { assert OwnedChecked(n, c); }
      forall j | 0 <= j < |u.workers| ensures SeatOk(u.miner.handles[j], u.workers[j], u.grants) {
        assert SeatOk(n.miner.handles[j], n.workers[j], n.grants);
      }
    }
  }

  lemma ParamsKeepBase(n: Net, p: string)
    requires Base(n)
    ensures Base(Moved(n, Params(p)))
  {
    hide Stream;
    var v := Moved(n, Params(p));
    forall j | 0 <= j < |v.workers| ensures SeatOk(v.miner.handles[j], v.workers[j], v.grants) {
      NotifiedStream(n.miner.handles[j], n.workers[j], p);
      assert SeatOk(n.miner.handles[j], n.workers[j], n.grants);
    }
    forall c | c in v.checked ensures OwnedChecked(v, c) {
      assert OwnedChecked(n, c);
      forall j | 0 <= j < |v.workers| && Owned(v.grants, c, v.miner.handles[j].incarnation)
        ensures Before(v.miner.handles[j], v.workers[j], c)
      {
        NotifiedStream(n.miner.handles[j], n.workers[j], p);
      }
    }
  }

  lemma MoveKeepsBase(n: Net, e: Move)
    requires Base(n) && CanMove(n, e)
    ensures Base(Moved(n, e))
  {
    match e
    case Start => StartKeepsBase(n);
    case Stop => StopKeepsBase(n);
    case Read(i, age) => MinerReadsKeepsBase(n, i, age);
    case Obey(i) => WorkerReadsKeepsBase(n, i);
    case Check(i, hit) => CheckKeepsBase(n, i, hit);
    case Tell(i) => ReportKeepsBase(n, i);
    case Timer(_) => forall c | c in n.checked ensures OwnedChecked(Moved(n, e), c) { assert OwnedChecked(n, c); }
    case Params(p) => ParamsKeepBase(n, p);
    case Algorithm(p) => forall c | c in n.checked ensures OwnedChecked(Moved(n, e), c) { assert OwnedChecked(n, c); }
    case Send => SessionKeepsBase(n, SendShare(n.miner.session));
    case Reject(p) => SessionKeepsBase(n, RejectParams(n.miner.session, p));
  }

  lemma SessionKeepsBase(n: Net, s: Session)
    requires Base(n) && s.lastNonce == n.miner.session.lastNonce
    ensures Base(n.(miner := n.miner.(session := s)))
  {
    var v := n.(miner := n.miner.(session := s));
    forall c | c in v.checked ensures OwnedChecked(v, c) { assert OwnedChecked(n, c); }
  }

  // ------------------------------------------------------------------ turns

  /** Checks do not stop a worker. */
  lemma CheckGoesOn(n: Net, i: nat, hit: bool)
    requires CanMove(n, Check(i, hit))
    ensures var v := Moved(n, Check(i, hit)); |v.workers| == |n.workers| && v.workers[i].working
  {}

  lemma {:induction false} ChecksKeepBase(n: Net, i: nat, hits: seq<bool>)
    requires Base(n) && i < |n.workers| && n.workers[i].working
    ensures Base(Checks(n, i, hits))
    decreases |hits|
  {
    if hits != [] && |n.workers[i].ranges| > 0 {
      CheckKeepsBase(n, i, hits[0]);
      CheckGoesOn(n, i, hits[0]);
      ChecksKeepBase(Moved(n, Check(i, hits[0])), i, hits[1..]);
    }
  }

  lemma StepKeepsBase(n: Net, e: Event)
    requires Base(n) && Enabled(n, e)
    ensures Base(Apply(n, e))
  {
    if e.Batch? {
      ChecksKeepBase(n, e.i, e.hits);
    } else {
      MoveKeepsBase(n, MoveOf(e).value);
      if e.WorkerReads? && n.miner.handles[e.i].down[0].SetWork? {
        ChecksKeepBase(Moved(n, Obey(e.i)), e.i, e.hits);
      }
    }
  }
}
