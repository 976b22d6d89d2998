/** Every positive fractional hash-rate limit breaks the share order: there is a run in which a
    lower nonce is submitted after a higher one. With MinerOrder this gives the exact condition. */
module MinerFraction {
  import opened Wrappers
  import opened MinerData
  import opened MinerNet
  import opened MinerOrder

  /** The numbers of the run: the limit allows the nonces below m + 32 + f at the first age, and
      more than the run needs from the second one on. */
  datatype Numbers = Numbers(m: real, f: real, limit: real, age: int, late: int)

  predicate NumbersOk(x: Numbers) {
    && 0.0 < x.f < 1.0 && x.limit > 0.0 && 1 < x.age <= x.late
    && (x.age + 4) as real * x.limit == x.m + 32.0 + x.f
    && (x.late + 4) as real * x.limit >= x.m + 300.0
  }

  /** From the second age on the limit is no restriction. */
  lemma Unlimited(x: Numbers, requested: real, age: int, lastNonce: real)
    requires NumbersOk(x) && age >= x.late && 0.0 < requested && lastNonce + requested <= x.m + 300.0
    ensures LimitedRefill(requested, x.limit, age, lastNonce) == requested
  {
    MulMono((x.late + 4) as real, (age + 4) as real, x.limit);
    assert (age + 4) as real * x.limit - lastNonce >= requested;
  }

  lemma MulMono(a: real, b: real, c: real)
    requires a <= b && c > 0.0
    ensures a * c <= b * c
  {}

  /** What a state of the run consists of; nothing is sent to the server. */
  datatype Parts = Parts(hs: seq<Handle>, ws: seq<Worker>, queue: seq<real>, save: Option<real>, next: real, submitted: seq<Share>,
                         target: nat, timer: bool, born: nat, grants: seq<Grant>, checked: seq<real>, found: set<(real, string)>)

  function At(x: Numbers, p: Parts): Net {
    Net(Miner(p.hs, p.queue, p.save, "p", x.limit, Session(p.next, p.submitted, p.submitted, []), p.target, p.timer),
        p.ws, p.born, p.grants, p.checked, p.found)
  }

  // ------------------------------------------------------------------ runs between states

  ghost predicate Leads(x: Numbers, p: Parts, last: Parts) {
    exists es :: Possible(At(x, p), es) && Run(At(x, p), es) == At(x, last)
  }

  lemma RunFirst(n: Net, e: Event, v: Net, es: seq<Event>)
    requires Enabled(n, e) && Apply(n, e) == v && Possible(v, es)
    ensures Possible(n, [e] + es) && Run(n, [e] + es) == Run(v, es)
  {
    assert ([e] + es)[0] == e && ([e] + es)[1..] == es;
  }

  lemma One(x: Numbers, p: Parts, e: Event, q: Parts, last: Parts)
    requires Enabled(At(x, p), e) && Apply(At(x, p), e) == At(x, q) && Leads(x, q, last)
    ensures Leads(x, p, last)
  {
    var es :| Possible(At(x, q), es) && Run(At(x, q), es) == At(x, last);
    RunFirst(At(x, p), e, At(x, q), es);
  }

  // ------------------------------------------------------------------ lists and queues

  lemma Watermarks(a: Handle, b: Handle)
    requires a.ready
    ensures Watermark([a, b]) == Some(if b.ready && b.lastNonce < a.lastNonce then b.lastNonce else a.lastNonce)
  {
    assert [a][..0] == [] && [a, b][..1] == [a];
    assert Watermark([]) == None && Watermark([a]) == Some(a.lastNonce);
  }

  lemma SubmitOne(s: Session, q: real)
    ensures SubmitAll(s, [], "p") == s
    ensures SubmitAll(s, [q], "p") == SubmitShare(s, Share(q, "p"))
    ensures SafeCount([q], q) == 1 && [q][..1] == [q] && [q][1..] == []
  {
    assert [q][1..] == [] && SafeCount([], q) == 0;
  }

  // ------------------------------------------------------------------ batches

  /** first, first + 1, ... */
  function Counting(first: real, n: nat): seq<real> { seq(n, k requires 0 <= k < n => first + k as real) }

  lemma CountingSplit(first: real, a: nat, b: nat)
    ensures Counting(first, a) + Counting(first + a as real, b) == Counting(first, a + b)
  {}

  /** n checks that find nothing. */
  function Misses(n: nat): seq<bool> { seq(n, _ => false) }

  /** Checks inside the first range. */
  lemma {:induction false} Stays(n: Net, i: nat, k: nat)
    requires i < |n.workers| && n.workers[i].working && |n.workers[i].ranges| > 0
    requires k > 0 ==> n.workers[i].workNonce + (k - 1) as real < n.workers[i].ranges[0].last
    ensures var w := n.workers[i];
            Checks(n, i, Misses(k)) == n.(workers := n.workers[i := w.(workNonce := w.workNonce + k as real)],
                                          checked := n.checked + Counting(w.workNonce, k))
    decreases k
  {
    var w := n.workers[i];
    if k == 0 {
      assert n.workers[i := w] == n.workers && n.checked + Counting(w.workNonce, 0) == n.checked;
    } else {
      var v := Moved(n, Check(i, false));
      assert Misses(k)[1..] == Misses(k - 1) && !Misses(k)[0];
      Stays(v, i, k - 1);
      CountingSplit(w.workNonce, 1, k - 1);
      assert n.checked + [w.workNonce] + Counting(w.workNonce + 1.0, k - 1) == n.checked + Counting(w.workNonce, k);
      assert v.workers[i := w.(workNonce := w.workNonce + k as real)] == n.workers[i := w.(workNonce := w.workNonce + k as real)];
    }
  }

  lemma ChecksSplit(n: Net, i: nat, hit: bool, rest: seq<bool>)
    requires i < |n.workers| && n.workers[i].working && |n.workers[i].ranges| > 0
    ensures Checks(n, i, [hit] + rest) == Checks(Moved(n, Check(i, hit)), i, rest)
  {
    assert ([hit] + rest)[1..] == rest;
  }

  lemma ChecksNone(n: Net, i: nat, hits: seq<bool>)
    requires i < |n.workers| && n.workers[i].working && n.workers[i].ranges == []
    ensures Checks(n, i, hits) == n
  {}

  /** A first check, and then those inside the range it leaves. */
  lemma FirstThenStays(n: Net, i: nat, hit: bool, k: nat)
    requires i < |n.workers| && n.workers[i].working && |n.workers[i].ranges| > 0
    requires var w := Work(n.workers[i], hit); w.ranges == [] || (k > 0 ==> w.workNonce + (k - 1) as real < w.ranges[0].last)
    ensures var w := Work(n.workers[i], hit);
            Checks(n, i, [hit] + Misses(k))
            == n.(workers := n.workers[i := if w.ranges == [] then w else w.(workNonce := w.workNonce + k as real)],
                  checked := n.checked + [n.workers[i].workNonce] + if w.ranges == [] then [] else Counting(w.workNonce, k),
                  found := if hit then n.found + {(n.workers[i].workNonce, n.workers[i].params)} else n.found)
  {
    var v := Moved(n, Check(i, hit));
    ChecksSplit(n, i, hit, Misses(k));
    hide Misses, Checks, Work;
    var w := Work(n.workers[i], hit);
    if w.ranges != [] {
      Stays(v, i, k);
      assert v.workers[i := w.(workNonce := w.workNonce + k as real)] == n.workers[i := w.(workNonce := w.workNonce + k as real)];
    } else {
      ChecksNone(v, i, Misses(k));
      assert n.checked + [n.workers[i].workNonce] + [] == n.checked + [n.workers[i].workNonce];
    }
  }

  // ------------------------------------------------------------------ turns of one worker and the miner

  /** The list with a at position i, 0 or 1, and o at the other. */
  function Pair<T>(i: nat, a: T, o: T): seq<T> { if i == 0 then [a, o] else [o, a] }

  lemma PairAt<T>(i: nat, a: T, o: T, b: T)
    requires i <= 1
    ensures |Pair(i, a, o)| == 2 && Pair(i, a, o)[i] == a && Pair(i, a, o)[i := b] == Pair(i, b, o)
  {}

  /** Worker i has record h and state w. */
  predicate Seat(p: Parts, i: nat, h: Handle, oh: Handle, w: Worker, o: Worker) {
    i <= 1 && p.hs == Pair(i, h, oh) && p.ws == Pair(i, w, o)
  }

  /** The checks of a batch inside the first range. */
  lemma ChecksStay(x: Numbers, p: Parts, i: nat, h: Handle, oh: Handle, w: Worker, o: Worker, q: Parts)
    requires Seat(p, i, h, oh, w, o) && w.working && |w.ranges| > 0 && w.workNonce + 7.0 < w.ranges[0].last
    requires q == p.(ws := Pair(i, w.(workNonce := w.workNonce + 8.0), o), checked := p.checked + Counting(w.workNonce, 8))
    ensures |p.ws| == 2 && p.ws[i] == w && Checks(At(x, p), i, Misses(8)) == At(x, q)
  {
    PairAt(i, w, o, w.(workNonce := w.workNonce + 8.0));
    Stays(At(x, p), i, 8);
  }

  lemma BatchStays(x: Numbers, p: Parts, i: nat, h: Handle, oh: Handle, w: Worker, o: Worker, q: Parts, last: Parts)
    requires Seat(p, i, h, oh, w, o) && w.working && |w.ranges| > 0 && w.workNonce + 7.0 < w.ranges[0].last
    requires q == p.(ws := Pair(i, w.(workNonce := w.workNonce + 8.0), o), checked := p.checked + Counting(w.workNonce, 8))
    requires Leads(x, q, last)
    ensures Leads(x, p, last)
  {
    hide Leads, Checks;
    ChecksStay(x, p, i, h, oh, w, o, q);
    One(x, p, Batch(i, Misses(8)), q, last);
  }

  /** What the checks of a batch do when the first one finds something, uses up a range, or leaves nothing. */
  lemma ChecksFirst(x: Numbers, p: Parts, i: nat, h: Handle, oh: Handle, w: Worker, o: Worker, v: Worker, hit: bool, k: nat, q: Parts)
    requires Seat(p, i, h, oh, w, o) && w.working && |w.ranges| > 0 && v == Work(w, hit)
    requires v.ranges == [] || (k > 0 ==> v.workNonce + (k - 1) as real < v.ranges[0].last)
    requires q == p.(ws := Pair(i, if v.ranges == [] then v else v.(workNonce := v.workNonce + k as real), o),
                     checked := p.checked + [w.workNonce] + if v.ranges == [] then [] else Counting(v.workNonce, k),
                     found := if hit then p.found + {(w.workNonce, w.params)} else p.found)
    ensures |p.ws| == 2 && p.ws[i] == w && Checks(At(x, p), i, [hit] + Misses(k)) == At(x, q)
  {
    PairAt(i, w, o, if v.ranges == [] then v else v.(workNonce := v.workNonce + k as real));
    FirstThenStays(At(x, p), i, hit, k);
  }

  lemma BatchFirst(x: Numbers, p: Parts, i: nat, h: Handle, oh: Handle, w: Worker, o: Worker, v: Worker, hit: bool, q: Parts, last: Parts)
    requires Seat(p, i, h, oh, w, o) && w.working && |w.ranges| > 0 && v == Work(w, hit)
    requires v.ranges == [] || v.workNonce + 6.0 < v.ranges[0].last
    requires q == p.(ws := Pair(i, if v.ranges == [] then v else v.(workNonce := v.workNonce + 7.0), o),
                     checked := p.checked + [w.workNonce] + if v.ranges == [] then [] else Counting(v.workNonce, 7),
                     found := if hit then p.found + {(w.workNonce, w.params)} else p.found)
    requires Leads(x, q, last)
    ensures Leads(x, p, last)
  {
    hide Leads, Checks;
    ChecksFirst(x, p, i, h, oh, w, o, v, hit, 7, q);
    One(x, p, Batch(i, [hit] + Misses(7)), q, last);
  }

  /** A batch of two checks after which nothing is left. */
  lemma BatchEnds(x: Numbers, p: Parts, i: nat, h: Handle, oh: Handle, w: Worker, o: Worker, q: Parts, last: Parts)
    requires Seat(p, i, h, oh, w, o) && w.working && |w.ranges| == 1 && w.workNonce < w.ranges[0].last <= w.workNonce + 1.0
    requires q == p.(ws := Pair(i, w.(ranges := [], workNonce := w.workNonce + 2.0), o),
                     checked := p.checked + [w.workNonce] + [w.workNonce + 1.0] + [])
    requires Leads(x, q, last)
    ensures Leads(x, p, last)
  {
    hide Leads;
    var v := w.(workNonce := w.workNonce + 1.0);
    var mid := p.(ws := Pair(i, v, o), checked := p.checked + [w.workNonce]);
    PairAt(i, w, o, v);
    assert v.ranges[1..] == [] && Work(w, false) == v && Moved(At(x, p), Check(i, false)) == At(x, mid);
    ChecksFirst(x, mid, i, h, oh, v, o, Work(v, false), false, 6, q);
    assert Misses(8)[1..] == [false] + Misses(6) && !Misses(8)[0];
    assert Checks(At(x, p), i, Misses(8)) == Checks(At(x, mid), i, [false] + Misses(6));
    One(x, p, Batch(i, Misses(8)), q, last);
  }

  /** A report; it says left. */
  lemma Reports(x: Numbers, p: Parts, i: nat, h: Handle, oh: Handle, w: Worker, o: Worker, left: real, q: Parts, last: Parts)
    requires Seat(p, i, h, oh, w, o) && w.working && |w.ranges| <= 1 && w.up == []
    requires left == if w.ranges == [] then 0.0 else w.ranges[0].last - w.workNonce
    requires q == p.(ws := Pair(i, w.(up := [Stats(w.workNonce, left)]), o)) && Leads(x, q, last)
    ensures Leads(x, p, last)
  {
    hide Leads;
    assert w.ranges != [] ==> w.ranges[1..] == [];
    assert Counts([]) == 0.0 && [] + [Stats(w.workNonce, left)] == [Stats(w.workNonce, left)];
    PairAt(i, w, o, w.(up := [Stats(w.workNonce, left)]));
    One(x, p, Report(i), q, last);
  }

  /** The worker reads a control message. */
  lemma Obeyed(x: Numbers, p: Parts, i: nat, h: Handle, oh: Handle, w: Worker, o: Worker, d: Down, more: seq<Down>, q: Parts)
    requires Seat(p, i, h, oh, w, o) && h.down == [d] + more
    requires q == p.(hs := Pair(i, h.(down := more), oh), ws := Pair(i, Receive(w, d), o))
    ensures CanMove(At(x, p), Obey(i)) && |p.hs| == 2 && p.hs[i] == h && Moved(At(x, p), Obey(i)) == At(x, q)
  {
    PairAt(i, h, oh, h.(down := more)); PairAt(i, w, o, Receive(w, d));
    assert h.down[0] == d && h.down[1..] == more;
  }

  lemma ReadsMore(x: Numbers, p: Parts, i: nat, h: Handle, oh: Handle, w: Worker, o: Worker, d: Down, more: seq<Down>, q: Parts, last: Parts)
    requires Seat(p, i, h, oh, w, o) && h.down == [d] + more && d.AddRange?
    requires q == p.(hs := Pair(i, h.(down := more), oh), ws := Pair(i, Receive(w, d), o)) && Leads(x, q, last)
    ensures Leads(x, p, last)
  {
    hide Leads;
    Obeyed(x, p, i, h, oh, w, o, d, more, q);
    One(x, p, WorkerReads(i, Misses(8)), q, last);
  }

  /** The worker's first turn: mid is the state before its first batch. */
  lemma ReadsFirst(x: Numbers, p: Parts, i: nat, h: Handle, oh: Handle, w: Worker, o: Worker, d: Down, mid: Parts, hits: seq<bool>, q: Parts,
                   last: Parts)
    requires Seat(p, i, h, oh, w, o) && h.down == [d] && d.SetWork? && |hits| == BATCH
    requires mid == p.(hs := Pair(i, h.(down := []), oh), ws := Pair(i, Receive(w, d), o))
    requires |mid.ws| == 2 && mid.ws[i].working && Checks(At(x, mid), i, hits) == At(x, q) && Leads(x, q, last)
    ensures Leads(x, p, last)
  {
    hide Leads, Checks;
    assert [d] + [] == [d];
    Obeyed(x, p, i, h, oh, w, o, d, [], mid);
    One(x, p, WorkerReads(i, hits), q, last);
  }

  /** The miner reads init: it grants refill nonces. */
  lemma ReadsInit(x: Numbers, p: Parts, i: nat, h: Handle, oh: Handle, w: Worker, o: Worker, age: int, refill: real, q: Parts, last: Parts)
    requires Seat(p, i, h, oh, w, o) && h.down == [] && w.up == [Init]
    requires refill == LimitedRefill(p.target as real, x.limit, age, p.next) && refill > 0.0
    requires q == p.(hs := Pair(i, Handle(h.incarnation, true, p.next, [SetWork(p.next, refill, "p")]), oh), ws := Pair(i, w.(up := []), o),
                     next := p.next + refill, grants := p.grants + [Grant(p.next, p.next + refill, h.incarnation)])
    requires Leads(x, q, last)
    ensures Leads(x, p, last)
  {
    hide Leads;
    var h1, h2 := h.(ready := true, lastNonce := p.next), q.hs[i];
    PairAt(i, h, oh, h1); PairAt(i, h1, oh, h2); PairAt(i, w, o, w.(up := []));
    assert [] + [SetWork(p.next, refill, "p")] == [SetWork(p.next, refill, "p")] && [Init][1..] == [];
    One(x, p, MinerReads(i, age), q, last);
  }

  /** The miner reads a report that asks for refill nonces: q is the state after it has looked at the queue. */
  lemma ReadsReport(x: Numbers, p: Parts, i: nat, h: Handle, oh: Handle, w: Worker, o: Worker, age: int, u: Up, refill: real, mid: Parts, q: Parts,
                    last: Parts)
    requires Seat(p, i, h, oh, w, o) && w.up == [u] && u.Stats? && u.nonces < p.target as real
    requires refill == LimitedRefill(p.target as real - u.nonces, x.limit, age, p.next) && refill > 0.0
    requires mid == p.(hs := Pair(i, h.(lastNonce := u.last, down := h.down + [AddRange(p.next, refill)]), oh), ws := Pair(i, w.(up := []), o),
                       next := p.next + refill, grants := p.grants + [Grant(p.next, p.next + refill, h.incarnation)])
    requires ProcessQueue(At(x, mid).miner).(statsTimer := true) == At(x, q).miner
    requires q == mid.(queue := q.queue, save := q.save, submitted := q.submitted, timer := true) && Leads(x, q, last)
    ensures Leads(x, p, last)
  {
    hide Leads;
    PairAt(i, h, oh, mid.hs[i]); PairAt(i, w, o, w.(up := []));
    assert w.up[1..] == [];
    assert Consumed(At(x, p), i, age) == At(x, mid);
    StatsIsConsumed(At(x, p), i, age);
    One(x, p, MinerReads(i, age), q, last);
  }

  /** The miner reads a nonce: mid is the state before it looks at the queue, which was empty. */
  lemma ReadsNonce(x: Numbers, p: Parts, i: nat, h: Handle, oh: Handle, w: Worker, o: Worker, age: int, nonce: real, mid: Parts, q: Parts,
                   last: Parts)
    requires Seat(p, i, h, oh, w, o) && w.up == [NonceFound(nonce, "p")] && p.queue == []
    requires mid == p.(hs := Pair(i, h.(lastNonce := nonce), oh), ws := Pair(i, w.(up := []), o), queue := [nonce])
    requires ProcessQueue(At(x, mid).miner) == At(x, q).miner
    requires q == mid.(queue := q.queue, save := q.save, submitted := q.submitted) && Leads(x, q, last)
    ensures Leads(x, p, last)
  {
    hide Leads;
    PairAt(i, h, oh, mid.hs[i]); PairAt(i, w, o, w.(up := []));
    assert w.up[1..] == [] && Insert([], nonce) == [nonce];
    One(x, p, MinerReads(i, age), q, last);
  }

  /** The queue with nothing in it, and with one nonce at the watermark. */
  lemma Waits(x: Numbers, p: Parts, a: Handle, b: Handle)
    requires p.hs == [a, b] && a.ready && p.queue == [] && (b.ready ==> a.lastNonce <= b.lastNonce)
    ensures ProcessQueue(At(x, p).miner) == At(x, p.(save := Some(a.lastNonce))).miner
  {
    Watermarks(a, b);
    SubmitOne(At(x, p).miner.session, 0.0);
  }

  lemma Submits(x: Numbers, p: Parts, a: Handle, b: Handle, q: Parts)
    requires p.hs == [a, b] && a.ready && (b.ready ==> a.lastNonce <= b.lastNonce) && p.queue == [a.lastNonce]
    requires p.save != Some(a.lastNonce)
    requires q == p.(queue := [], save := Some(a.lastNonce), submitted := p.submitted + [Share(a.lastNonce, "p")])
    ensures ProcessQueue(At(x, p).miner) == At(x, q).miner
  {
    Watermarks(a, b);
    SubmitOne(At(x, p).miner.session, a.lastNonce);
  }

  // ------------------------------------------------------------------ worker 0 checks the first 32 nonces

  function Ready(incarnation: nat, last: real, down: seq<Down>): Handle { Handle(incarnation, true, last, down) }

  function Working(ranges: seq<Range>, nonce: real, up: seq<Up>): Worker { Worker(true, ranges, nonce, "p", up) }

  const IDLE := Handle(1, false, 0.0, [])

  /** Where worker 0's first range ends, where its second one ends, and where its third one does. */
  function End1(x: Numbers): real { x.m + 32.0 + x.f }

  function End2(x: Numbers): real { x.m + 233.0 }

  function End3(x: Numbers): real { x.m + 233.0 + x.f }

  function First(x: Numbers): Range { Range(x.m, x.m + 31.0 + x.f) }

  function Second(x: Numbers): Range { Range(End1(x), x.m + 232.0) }

  function Third(x: Numbers): Range { Range(End2(x), x.m + 232.0 + x.f) }

  function Other(x: Numbers): Range { Range(End3(x), x.m + 257.0 + x.f) }

  function P0(x: Numbers): Parts { Parts([], [], [], None, x.m, [], FIRST_TARGET, false, 0, [], [], {}) }

  function P1(x: Numbers): Parts { P0(x).(hs := [Handle(0, false, 0.0, [])], ws := [FRESH_WORKER], born := 1) }

  function P2(x: Numbers): Parts { P1(x).(hs := [Handle(0, false, 0.0, []), IDLE], ws := [FRESH_WORKER, FRESH_WORKER], born := 2) }

  /** Worker 0 is given [m, m + 32 + f), all that the limit allows. */
  function P3(x: Numbers): Parts {
    P2(x).(hs := [Ready(0, x.m, [SetWork(x.m, 32.0 + x.f, "p")]), IDLE], ws := [FRESH_WORKER.(up := []), FRESH_WORKER], next := End1(x),
           grants := [Grant(x.m, End1(x), 0)])
  }

  /** After k checks. */
  function A(x: Numbers, k: nat): Parts {
    P3(x).(hs := [Ready(0, x.m, []), IDLE], ws := [Working([First(x)], x.m + k as real, []), FRESH_WORKER], checked := Counting(x.m, k))
  }

  /** The four grants to worker 0 and the one to worker 1. */
  lemma Refill0(x: Numbers)
    requires NumbersOk(x)
    ensures LimitedRefill(FIRST_TARGET as real, x.limit, x.age, x.m) == 32.0 + x.f && 0.0 < x.f < 1.0
  {
    assert (x.age + 4) as real * x.limit - x.m == 32.0 + x.f;
  }

  lemma Refill1(x: Numbers)
    requires NumbersOk(x)
    ensures LimitedRefill(FIRST_TARGET as real - (x.f - 1.0), x.limit, x.late, End1(x)) == 201.0 - x.f && 0.0 < x.f < 1.0
  {
    Unlimited(x, 201.0 - x.f, x.late, End1(x));
  }

  lemma Refill2(x: Numbers)
    requires NumbersOk(x)
    ensures LimitedRefill(25 as real - (25.0 - x.f), x.limit, x.late + 4, End2(x)) == x.f && 0.0 < x.f < 1.0
  {
    Unlimited(x, x.f, x.late + 4, End2(x));
  }

  lemma Refill3(x: Numbers)
    requires NumbersOk(x)
    ensures LimitedRefill(25 as real, x.limit, x.late + 4, End3(x)) == 25.0 && 0.0 < x.f < 1.0
    ensures LimitedRefill(25 as real - 0.0, x.limit, x.late + 4, End3(x) + 25.0) == 25.0
  {
    Unlimited(x, 25.0, x.late + 4, End3(x));
    Unlimited(x, 25.0, x.late + 4, End3(x) + 25.0);
  }

  lemma Begin(x: Numbers, last: Parts)
    requires NumbersOk(x) && Leads(x, P2(x), last)
    ensures Leads(x, P0(x), last)
  {
    hide Leads;
    assert [] + P1(x).hs == P1(x).hs && P1(x).hs + [IDLE] == P2(x).hs;
    assert [] + P1(x).ws == P1(x).ws && P1(x).ws + [FRESH_WORKER] == P2(x).ws;
    One(x, P1(x), StartOne, P2(x), last);
    One(x, P0(x), StartOne, P1(x), last);
  }

  lemma FirstGrant(x: Numbers, last: Parts)
    requires NumbersOk(x) && Leads(x, P3(x), last)
    ensures Leads(x, P2(x), last)
  {
    hide Leads, LimitedRefill, NumbersOk;
    assert [] + P3(x).grants == P3(x).grants;
    Refill0(x);
    ReadsInit(x, P2(x), 0, P2(x).hs[0], IDLE, FRESH_WORKER, FRESH_WORKER, x.age, 32.0 + x.f, P3(x), last);
  }

  lemma FirstBatch(x: Numbers, last: Parts)
    requires NumbersOk(x) && Leads(x, A(x, 8), last)
    ensures Leads(x, P3(x), last)
  {
    hide Leads, Checks;
    CountingSplit(x.m, 0, 8);
    ChecksStay(x, A(x, 0), 0, A(x, 0).hs[0], IDLE, A(x, 0).ws[0], FRESH_WORKER, A(x, 8));
    ReadsFirst(x, P3(x), 0, P3(x).hs[0], IDLE, P3(x).ws[0], FRESH_WORKER, SetWork(x.m, 32.0 + x.f, "p"), A(x, 0), Misses(8), A(x, 8), last);
  }

  lemma BatchA(x: Numbers, k: nat, last: Parts)
    requires NumbersOk(x) && k <= 24 && Leads(x, A(x, k + 8), last)
    ensures Leads(x, A(x, k), last)
  {
    hide Leads;
    CountingSplit(x.m, k, 8);
    BatchStays(x, A(x, k), 0, A(x, k).hs[0], IDLE, A(x, k).ws[0], FRESH_WORKER, A(x, k + 8), last);
  }

  // ------------------------------------------------------------------ it reports, and the target falls to 25

  function P5(x: Numbers): Parts { A(x, 32).(ws := [Working([First(x)], x.m + 32.0, [Stats(x.m + 32.0, x.f - 1.0)]), FRESH_WORKER]) }

  /** 200 are wanted and f - 1 are said to be left: it gets [m + 32 + f, m + 233). */
  function P6(x: Numbers): Parts {
    A(x, 32).(hs := [Ready(0, x.m + 32.0, [AddRange(End1(x), 201.0 - x.f)]), IDLE], save := Some(x.m + 32.0), next := End2(x), timer := true,
              grants := [Grant(x.m, End1(x), 0), Grant(End1(x), End2(x), 0)])
  }

  /** Four batches in 2.56 seconds are 12.5 hashes a second; with two workers the target is 25. */
  function P7(x: Numbers): Parts { P6(x).(target := 25, timer := false) }

  function P8(x: Numbers): Parts {
    P7(x).(hs := [Ready(0, x.m + 32.0, []), IDLE], ws := [Working([First(x), Second(x)], x.m + 32.0, []), FRESH_WORKER])
  }

  /** The first report before the queue is looked at. */
  function Mid6(x: Numbers): Parts { P6(x).(save := None, timer := false) }

  lemma FirstQueue(x: Numbers)
    ensures ProcessQueue(At(x, Mid6(x)).miner).(statsTimer := true) == At(x, P6(x)).miner
  {
    Waits(x, Mid6(x), P6(x).hs[0], IDLE);
  }

  lemma FirstReportRead(x: Numbers, last: Parts)
    requires NumbersOk(x) && Leads(x, P6(x), last)
    ensures Leads(x, P5(x), last)
  {
    hide Leads, LimitedRefill, NumbersOk, ProcessQueue;
    var p, u := P5(x), Stats(x.m + 32.0, x.f - 1.0);
    Refill1(x);
    FirstQueue(x);
    assert [] + P6(x).hs[0].down == P6(x).hs[0].down && p.grants + [Grant(End1(x), End2(x), 0)] == P6(x).grants;
    ReadsReport(x, p, 0, p.hs[0], IDLE, p.ws[0], FRESH_WORKER, x.late, u, 201.0 - x.f, Mid6(x), P6(x), last);
  }

  lemma FirstReport(x: Numbers, last: Parts)
    requires NumbersOk(x) && Leads(x, P5(x), last)
    ensures Leads(x, A(x, 32), last)
  {
    hide Leads, NumbersOk;
    Reports(x, A(x, 32), 0, P5(x).hs[0], IDLE, A(x, 32).ws[0], FRESH_WORKER, x.f - 1.0, P5(x), last);
  }

  lemma TargetFalls(x: Numbers, last: Parts)
    requires NumbersOk(x) && Leads(x, P8(x), last)
    ensures Leads(x, P6(x), last)
  {
    hide Leads;
    var p, d := P7(x), AddRange(End1(x), 201.0 - x.f);
    assert [First(x)] + [Second(x)] == [First(x), Second(x)] && [d] + [] == [d];
    ReadsMore(x, p, 0, p.hs[0], IDLE, p.ws[0], FRESH_WORKER, d, [], P8(x), last);
    assert P6(x).hs[0].ready;
    One(x, P6(x), StatsTimer(25), p, last);
  }

  // ------------------------------------------------------------------ it works on m + 32 + f, m + 33 + f, ...

  /** After 33 checks in the first range and j in the second. */
  function B(x: Numbers, j: nat, up: seq<Up>): Parts {
    P8(x).(ws := [Working([Second(x)], End1(x) + j as real, up), FRESH_WORKER], checked := Counting(x.m, 33) + Counting(End1(x), j))
  }

  lemma Crosses(x: Numbers, last: Parts)
    requires NumbersOk(x) && Leads(x, B(x, 7, []), last)
    ensures Leads(x, P8(x), last)
  {
    hide Leads;
    var w, v := P8(x).ws[0], Working([Second(x)], End1(x), []);
    assert w.ranges[1..] == [Second(x)];
    assert Counting(x.m, 32) + [x.m + 32.0] + Counting(End1(x), 7) == Counting(x.m, 33) + Counting(End1(x), 7);
    BatchFirst(x, P8(x), 0, P8(x).hs[0], IDLE, w, FRESH_WORKER, v, false, B(x, 7, []), last);
  }

  lemma BatchB(x: Numbers, j: nat, up: seq<Up>, last: Parts)
    requires NumbersOk(x) && j + 8 <= 200 && Leads(x, B(x, j + 8, up), last)
    ensures Leads(x, B(x, j, up), last)
  {
    hide Leads;
    CountingSplit(End1(x), j, 8);
    assert Counting(x.m, 33) + Counting(End1(x), j) + Counting(End1(x) + j as real, 8) == B(x, j + 8, up).checked;
    BatchStays(x, B(x, j, up), 0, P8(x).hs[0], IDLE, B(x, j, up).ws[0], FRESH_WORKER, B(x, j + 8, up), last);
  }

  lemma {:induction false} BatchesB(x: Numbers, j: nat, count: nat, up: seq<Up>, last: Parts)
    requires NumbersOk(x) && j + 8 * count <= 200 && Leads(x, B(x, j + 8 * count, up), last)
    ensures Leads(x, B(x, j, up), last)
    decreases count
  {
    hide Leads;
    if count > 0 {
      BatchesB(x, j + 8, count - 1, up, last);
      BatchB(x, j, up, last);
    }
  }

  // ------------------------------------------------------------------ it reports 25 - f, and runs out of nonces

  function Second25(x: Numbers): seq<Up> { [Stats(End1(x) + 175.0, 25.0 - x.f)] }

  /** 25 are wanted and 25 - f are said to be left: it gets the f that are missing, [m + 233, m + 233 + f). */
  function P10(x: Numbers): Parts {
    B(x, 199, []).(hs := [Ready(0, End1(x) + 175.0, [AddRange(End2(x), x.f)]), IDLE], save := Some(End1(x) + 175.0), next := End3(x),
                   timer := true, grants := P8(x).grants + [Grant(End2(x), End3(x), 0)])
  }

  lemma SecondReport(x: Numbers, last: Parts)
    requires NumbersOk(x) && Leads(x, B(x, 175, Second25(x)), last)
    ensures Leads(x, B(x, 175, []), last)
  {
    hide Leads;
    Reports(x, B(x, 175, []), 0, P8(x).hs[0], IDLE, B(x, 175, []).ws[0], FRESH_WORKER, 25.0 - x.f, B(x, 175, Second25(x)), last);
  }

  /** The second report before the queue is looked at. */
  function Mid10(x: Numbers): Parts { P10(x).(save := P8(x).save, timer := false) }

  lemma SecondQueue(x: Numbers)
    ensures ProcessQueue(At(x, Mid10(x)).miner).(statsTimer := true) == At(x, P10(x)).miner
  {
    Waits(x, Mid10(x), P10(x).hs[0], IDLE);
  }

  lemma Refills(x: Numbers, last: Parts)
    requires NumbersOk(x) && Leads(x, P10(x), last)
    ensures Leads(x, B(x, 199, Second25(x)), last)
  {
    hide Leads, LimitedRefill, NumbersOk, ProcessQueue;
    var p := B(x, 199, Second25(x));
    Refill2(x);
    SecondQueue(x);
    assert [] + P10(x).hs[0].down == P10(x).hs[0].down;
    ReadsReport(x, p, 0, P8(x).hs[0], IDLE, p.ws[0], FRESH_WORKER, x.late + 4, Second25(x)[0], x.f, Mid10(x), P10(x), last);
  }

  /** Worker 1 is given the 25 nonces from m + 233 + f. */
  function P11(x: Numbers): Parts {
    P10(x).(hs := [P10(x).hs[0], Ready(1, End3(x), [SetWork(End3(x), 25.0, "p")])], ws := [P10(x).ws[0], FRESH_WORKER.(up := [])],
            next := End3(x) + 25.0, grants := P10(x).grants + [Grant(End3(x), End3(x) + 25.0, 1)])
  }

  lemma OtherStarts(x: Numbers, last: Parts)
    requires NumbersOk(x) && Leads(x, P11(x), last)
    ensures Leads(x, P10(x), last)
  {
    hide Leads, LimitedRefill, NumbersOk;
    Refill3(x);
    ReadsInit(x, P10(x), 1, IDLE, P10(x).hs[0], FRESH_WORKER, P10(x).ws[0], x.late + 4, 25.0, P11(x), last);
  }

  /** Worker 0 has checked m + 232 + f and stands at m + 233 + f, beyond where its refill begins. */
  function P12(x: Numbers): Parts {
    P11(x).(ws := [Working([], End3(x), []), P11(x).ws[1]], checked := Counting(x.m, 33) + Counting(End1(x), 201))
  }

  lemma Overshoots(x: Numbers, last: Parts)
    requires NumbersOk(x) && Leads(x, P12(x), last)
    ensures Leads(x, P11(x), last)
  {
    hide Leads;
    var p := P11(x);
    assert Counting(x.m, 33) + Counting(End1(x), 199) + [End1(x) + 199.0] + [End1(x) + 200.0] + [] == P12(x).checked;
    BatchEnds(x, p, 0, p.hs[0], p.hs[1], p.ws[0], p.ws[1], P12(x), last);
  }

  // ------------------------------------------------------------------ worker 1 finds m + 233 + f

  function Worker1(x: Numbers, up: seq<Up>): Worker { Working([Other(x)], End3(x) + 8.0, up) }

  function P13(x: Numbers): Parts {
    P12(x).(hs := [P10(x).hs[0], Ready(1, End3(x), [])], ws := [Working([], End3(x), []), Worker1(x, [NonceFound(End3(x), "p")])],
            checked := P12(x).checked + Counting(End3(x), 8), found := {(End3(x), "p")})
  }

  lemma OtherFinds(x: Numbers, last: Parts)
    requires NumbersOk(x) && Leads(x, P13(x), last)
    ensures Leads(x, P12(x), last)
  {
    hide Leads;
    var p, w := P12(x), Working([Other(x)], End3(x), []);
    var mid := p.(hs := P13(x).hs, ws := [p.ws[0], w]);
    var v := w.(workNonce := End3(x) + 1.0, up := [NonceFound(End3(x), "p")]);
    assert [] + [NonceFound(End3(x), "p")] == [NonceFound(End3(x), "p")];
    CountingSplit(End3(x), 1, 7);
    assert Counting(End3(x), 1) == [End3(x)];
    assert mid.checked + [End3(x)] + Counting(End3(x) + 1.0, 7) == P13(x).checked;
    ChecksFirst(x, mid, 1, mid.hs[1], mid.hs[0], w, p.ws[0], v, true, 7, P13(x));
    ReadsFirst(x, p, 1, p.hs[1], p.hs[0], p.ws[1], p.ws[0], SetWork(End3(x), 25.0, "p"), mid, [true] + Misses(7), P13(x), last);
  }

  /** The watermark has not moved, so m + 233 + f waits. */
  function P14(x: Numbers): Parts { P13(x).(ws := [Working([], End3(x), []), Worker1(x, [])], queue := [End3(x)]) }

  lemma OtherWaits(x: Numbers, last: Parts)
    requires NumbersOk(x) && Leads(x, P14(x), last)
    ensures Leads(x, P13(x), last)
  {
    hide Leads;
    var p := P13(x);
    Watermarks(p.hs[0], p.hs[1]);
    ReadsNonce(x, p, 1, p.hs[1], p.hs[0], p.ws[1], p.ws[0], x.late + 4, End3(x), P14(x), P14(x), last);
  }

  // ------------------------------------------------------------------ worker 0's report lets it through

  function P15(x: Numbers): Parts { P14(x).(ws := [Working([], End3(x), [Stats(End3(x), 0.0)]), Worker1(x, [])]) }

  function P16(x: Numbers): Parts {
    P14(x).(hs := [Ready(0, End3(x), [AddRange(End2(x), x.f), AddRange(End3(x) + 25.0, 25.0)]), P14(x).hs[1]], queue := [],
            save := Some(End3(x)), next := End3(x) + 50.0, submitted := [Share(End3(x), "p")],
            grants := P14(x).grants + [Grant(End3(x) + 25.0, End3(x) + 50.0, 0)])
  }

  lemma ThirdReport(x: Numbers, last: Parts)
    requires NumbersOk(x) && Leads(x, P15(x), last)
    ensures Leads(x, P14(x), last)
  {
    hide Leads;
    var p := P14(x);
    Reports(x, p, 0, p.hs[0], p.hs[1], p.ws[0], p.ws[1], 0.0, P15(x), last);
  }

  lemma OtherSubmitted(x: Numbers, last: Parts)
    requires NumbersOk(x) && Leads(x, P16(x), last)
    ensures Leads(x, P15(x), last)
  {
    hide Leads, LimitedRefill, NumbersOk;
    var p, mid := P15(x), P16(x).(queue := [End3(x)], save := P15(x).save, submitted := []);
    Refill3(x);
    assert p.hs[0].down + [AddRange(End3(x) + 25.0, 25.0)] == P16(x).hs[0].down && [] + P16(x).submitted == P16(x).submitted;
    Submits(x, mid, P16(x).hs[0], P16(x).hs[1], P16(x));
    ReadsReport(x, p, 0, p.hs[0], p.hs[1], p.ws[0], p.ws[1], x.late + 4, Stats(End3(x), 0.0), 25.0, mid, P16(x), last);
  }

  // ------------------------------------------------------------------ worker 0 finds m + 233

  function P17(x: Numbers): Parts {
    P16(x).(hs := [Ready(0, End3(x), [AddRange(End3(x) + 25.0, 25.0)]), P14(x).hs[1]],
            ws := [Working([Third(x)], End2(x), []), Worker1(x, [])])
  }

  function P18(x: Numbers): Parts {
    P17(x).(ws := [Working([], End2(x) + 1.0, [NonceFound(End2(x), "p")]), Worker1(x, [])], checked := P17(x).checked + [End2(x)],
            found := {(End3(x), "p"), (End2(x), "p")})
  }

  function P19(x: Numbers): Parts {
    P18(x).(hs := [Ready(0, End2(x), [AddRange(End3(x) + 25.0, 25.0)]), P14(x).hs[1]], ws := [Working([], End2(x) + 1.0, []), Worker1(x, [])],
            save := Some(End2(x)), submitted := [Share(End3(x), "p"), Share(End2(x), "p")])
  }

  lemma ReadsRefill(x: Numbers, last: Parts)
    requires NumbersOk(x) && Leads(x, P17(x), last)
    ensures Leads(x, P16(x), last)
  {
    hide Leads;
    var p, d := P16(x), AddRange(End2(x), x.f);
    assert [] + [Third(x)] == [Third(x)] && p.hs[0].down == [d] + P17(x).hs[0].down;
    ReadsMore(x, p, 0, p.hs[0], p.hs[1], p.ws[0], p.ws[1], d, P17(x).hs[0].down, P17(x), last);
  }

  lemma Finds(x: Numbers, last: Parts)
    requires NumbersOk(x) && Leads(x, P18(x), last)
    ensures Leads(x, P17(x), last)
  {
    hide Leads;
    var p := P17(x);
    assert [] + [NonceFound(End2(x), "p")] == [NonceFound(End2(x), "p")] && p.ws[0].ranges[1..] == [];
    assert p.checked + [End2(x)] + [] == P18(x).checked;
    BatchFirst(x, p, 0, p.hs[0], p.hs[1], p.ws[0], p.ws[1], P18(x).ws[0], true, P18(x), last);
  }

  lemma SubmittedLate(x: Numbers, last: Parts)
    requires NumbersOk(x) && Leads(x, P19(x), last)
    ensures Leads(x, P18(x), last)
  {
    hide Leads;
    var p, mid := P18(x), P19(x).(queue := [End2(x)], save := P18(x).save, submitted := P18(x).submitted);
    assert p.submitted + [Share(End2(x), "p")] == P19(x).submitted;
    Submits(x, mid, P19(x).hs[0], P19(x).hs[1], P19(x));
    ReadsNonce(x, p, 0, p.hs[0], p.hs[1], p.ws[0], p.ws[1], x.late + 4, End2(x), mid, P19(x), last);
  }

  // ------------------------------------------------------------------ the run

  lemma UntilTarget(x: Numbers, last: Parts)
    requires NumbersOk(x) && Leads(x, P8(x), last)
    ensures Leads(x, P0(x), last)
  {
    hide Leads;
    TargetFalls(x, last);
    FirstReportRead(x, last);
    FirstReport(x, last);
    BatchA(x, 24, last); BatchA(x, 16, last); BatchA(x, 8, last);
    FirstBatch(x, last);
    FirstGrant(x, last);
    Begin(x, last);
  }

  lemma UntilOvershoot(x: Numbers, last: Parts)
    requires NumbersOk(x) && Leads(x, P12(x), last)
    ensures Leads(x, P8(x), last)
  {
    hide Leads;
    Overshoots(x, last);
    OtherStarts(x, last);
    Refills(x, last);
    BatchesB(x, 175, 3, Second25(x), last);
    SecondReport(x, last);
    BatchesB(x, 7, 21, [], last);
    Crosses(x, last);
  }

  lemma UntilSubmitted(x: Numbers, last: Parts)
    requires NumbersOk(x) && Leads(x, P19(x), last)
    ensures Leads(x, P12(x), last)
  {
    hide Leads;
    SubmittedLate(x, last);
    Finds(x, last);
    ReadsRefill(x, last);
    OtherSubmitted(x, last);
    ThirdReport(x, last);
    OtherWaits(x, last);
    OtherFinds(x, last);
  }

  lemma FromStart(x: Numbers) returns (es: seq<Event>)
    requires NumbersOk(x)
    ensures Possible(At(x, P0(x)), es) && Run(At(x, P0(x)), es) == At(x, P19(x))
  {
    es := [];
    assert Possible(At(x, P19(x)), es) && Run(At(x, P19(x)), es) == At(x, P19(x));
    UntilSubmitted(x, P19(x));
    UntilOvershoot(x, P19(x));
    UntilTarget(x, P19(x));
    es :| Possible(At(x, P0(x)), es) && Run(At(x, P0(x)), es) == At(x, P19(x));
  }

  // ------------------------------------------------------------------ the numbers exist

  function Times(k: int, limit: real): real { k as real * limit }

  /** Of two multiples of a fractional limit one apart, one is fractional. */
  lemma FractionalMultiple(limit: real, k: int)
    requires !Whole(limit)
    ensures !Whole(Times(k, limit)) || !Whole(Times(k + 1, limit))
  {
    var a, b := Times(k, limit), Times(k + 1, limit);
    assert b - a == limit;
    if Whole(a) && Whole(b) { WholeSum(b, a); }
  }

  /** A multiple of at least need, for a number from low on. */
  lemma MultipleFrom(limit: real, need: real, low: int) returns (k: int)
    requires limit > 0.0
    ensures k >= low && Times(k, limit) >= need && Times(k + 1, limit) >= need
  {
    var least := (need / limit).Floor + 1;
    k := if least < low then low else least;
    assert need == need / limit * limit;
    MulMono(need / limit, k as real, limit);
    MulMono(k as real, (k + 1) as real, limit);
  }

  lemma FractionalFrom(limit: real) returns (k: int)
    requires limit > 0.0 && !Whole(limit)
    ensures k >= 6 && Times(k, limit) >= 33.0 && !Whole(Times(k, limit))
  {
    var low := MultipleFrom(limit, 33.0, 6);
    FractionalMultiple(limit, low);
    k := if Whole(Times(low, limit)) then low + 1 else low;
  }

  lemma FloorParts(reach: real)
    requires reach >= 33.0 && !Whole(reach)
    ensures reach.Floor >= 33 && 0.0 < reach - reach.Floor as real < 1.0
  {}

  lemma MultiplesAdd(limit: real, a: int, b: int)
    ensures Times(a + b, limit) == Times(a, limit) + Times(b, limit)
  {}

  lemma NumbersFor(limit: real) returns (x: Numbers, resumed: nat)
    requires limit > 0.0 && !Whole(limit)
    ensures NumbersOk(x) && x.limit == limit && x.m == (resumed + 1) as real
  {
    var k := FractionalFrom(limit);
    var far := MultipleFrom(limit, 300.0, 1);
    MultiplesAdd(limit, k, far);
    var reach := Times(k, limit);
    FloorParts(reach);
    resumed := reach.Floor - 33;
    x := Numbers((resumed + 1) as real, reach - reach.Floor as real, limit, k - 4, k + far - 4);
  }

  /** Under every positive fractional limit there is a session and a run, with the age of the
      session never going back, that loses the share order. */
  lemma FractionalLimitBreaksOrder(limit: real) returns (resumed: nat, es: seq<Event>)
    requires limit > 0.0 && !Whole(limit)
    ensures Possible(Initial(resumed, limit, "p"), es)
    ensures !IncreasingShares(Run(Initial(resumed, limit, "p"), es).miner.session.submitted)
  {
    var x;
    x, resumed := NumbersFor(limit);
    es := FromStart(x);
    assert At(x, P0(x)) == Initial(resumed, limit, "p");
    var s := P19(x).submitted;
    assert s[0].nonce == End3(x) && s[1].nonce == End2(x);
  }

  /** Every run under this limit, of every session, submits increasing shares. */
  ghost predicate KeepsOrder(limit: real) {
    forall resumed: nat, params: string, es: seq<Event> ::
      Possible(Initial(resumed, limit, params), es) ==> IncreasingShares(Run(Initial(resumed, limit, params), es).miner.session.submitted)
  }

  /** The exact condition, for the limits that configuration accepts. */
  lemma OrderKeptExactly(limit: real)
    requires limit >= 0.0
    ensures KeepsOrder(limit) <==> Whole(limit)
  {
    if Whole(limit) {
      forall resumed: nat, params: string, es: seq<Event> | Possible(Initial(resumed, limit, params), es)
        ensures IncreasingShares(Run(Initial(resumed, limit, params), es).miner.session.submitted)
      {
        SharesIncrease(resumed, limit, params, es);
      }
    } else {
      if limit == 0.0 { WholeIs(limit, 0); }
      var resumed, es := FractionalLimitBreaksOrder(limit);
    }
  }
}
