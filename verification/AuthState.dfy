/** GithubAuthStateStore (src/modules/github/GithubAuthState.ts) as a class over its two maps. A
    ghost log records every accepted call; what may follow what is a property of the log. */
module AuthState {
  import opened Wrappers

  datatype Context = Context(callbackOrigin: string, clientOrigin: string, sameOrigin: bool)

  datatype Binding = SameOrigin | Cookie(digest: string)

  datatype Phase = Issued | Processing | Complete(authResult: string)

  datatype Capability = Capability(expiresAt: int, context: Context, ownerIp: string, binding: Binding, phase: Phase)

  datatype Reason = Invalid | Unknown | Expired | WrongContext | WrongBinding | Used

  datatype Consumption = Accepted(ownerIp: string) | Rejected(reason: Reason)

  datatype ResultConsumption = AcceptedResult(authResult: string) | NotReady | RejectedResult(reason: Reason)

  predicate IsHex(c: char) { '0' <= c <= '9' || 'a' <= c <= 'f' }

  predicate IsToken(s: string) { |s| == 64 && forall i :: 0 <= i < 64 ==> IsHex(s[i]) }

  // ------------------------------------------------------------------ the log

  datatype Origin = Origin(context: Context, ownerIp: string, binding: Binding)

  datatype Event =
    | DidIssue(state: string, origin: Origin, time: nat)
    | DidConsume(state: string, ownerIp: string, time: nat)
    | DidComplete(state: string, authResult: string, time: nat)
    | DidCollect(state: string, authResult: string, time: nat)

  /** Where a state stands after the log, if nothing expired. */
  datatype Standing = Absent | Present(origin: Origin, phase: Phase, since: nat)

  function After(p: Standing, e: Event): Standing {
    match e
    case DidIssue(_, origin, t) => Present(origin, Issued, t)
    case DidConsume(_, _, t) => if p.Present? then Present(p.origin, Processing, t) else Absent
    case DidComplete(_, r, t) =>
      if p.Present? && !p.origin.context.sameOrigin then Present(p.origin, Complete(r), t) else Absent
    case DidCollect(_, _, _) => Absent
  }

  function StandingOf(log: seq<Event>, s: string): Standing {
    if log == [] then Absent
    else
      var before := StandingOf(log[..|log| - 1], s);
      var e := log[|log| - 1];
      if e.state == s then After(before, e) else before
  }

  /** What the standing of a state allows: the phases in order, the owner and result that were
      put in, and each step within the lifetime of the one before. */
  predicate Allowed(p: Standing, e: Event, lifetime: nat) {
    match e
    case DidIssue(_, _, _) => true
    case DidConsume(_, owner, t) => p.Present? && p.phase == Issued && owner == p.origin.ownerIp && t < p.since + lifetime
    case DidComplete(_, _, t) => p.Present? && p.phase == Processing && t < p.since + lifetime
    case DidCollect(_, r, t) => p.Present? && p.phase == Complete(r) && t < p.since + lifetime
  }

  predicate Legal(log: seq<Event>, lifetime: nat) {
    forall i :: 0 <= i < |log| ==> Allowed(StandingOf(log[..i], log[i].state), log[i], lifetime)
  }

  lemma Append(log: seq<Event>, e: Event, lifetime: nat)
    requires Legal(log, lifetime) && Allowed(StandingOf(log, e.state), e, lifetime)
    ensures Legal(log + [e], lifetime)
    ensures forall s: string :: StandingOf(log + [e], s) == if s == e.state then After(StandingOf(log, s), e) else StandingOf(log, s)
  {
    var next := log + [e];
    assert next[..|log|] == log;
    forall i | 0 <= i < |next| ensures Allowed(StandingOf(next[..i], next[i].state), next[i], lifetime) {
      if i < |log| { assert next[..i] == log[..i]; }
    }
  }

  predicate IssueOf(log: seq<Event>, i: int, s: string) { 0 <= i < |log| && log[i].DidIssue? && log[i].state == s }

  predicate ConsumeOf(log: seq<Event>, i: int, s: string) { 0 <= i < |log| && log[i].DidConsume? && log[i].state == s }

  predicate CompleteOf(log: seq<Event>, i: int, s: string, r: string) {
    0 <= i < |log| && log[i].DidComplete? && log[i].state == s && log[i].authResult == r
  }

  predicate CollectOf(log: seq<Event>, i: int, s: string) { 0 <= i < |log| && log[i].DidCollect? && log[i].state == s }

  predicate IssuedBetween(log: seq<Event>, i: int, j: int, s: string) { exists k :: i < k < j && IssueOf(log, k, s) }

  /** Without another issue, a state that is past being issued stays so, and an absent one
      stays absent. */
  lemma {:induction false} NoReturn(log: seq<Event>, i: nat, j: nat, s: string)
    requires i < j <= |log| && !IssuedBetween(log, i, j, s)
    ensures var p, q := StandingOf(log[..i + 1], s), StandingOf(log[..j], s);
            && (p.Absent? ==> q.Absent?)
            && (p.Absent? || p.phase != Issued ==> q.Absent? || q.phase != Issued)
  {
    if j > i + 1 {
      NoReturn(log, i, j - 1, s);
      assert log[..j][..j - 1] == log[..j - 1];
      assert !IssueOf(log, j - 1, s);
    }
  }

  /** Per issue, at most one consumption is accepted. */
  lemma ConsumedOncePerIssue(log: seq<Event>, lifetime: nat, i: nat, j: nat, s: string)
    requires Legal(log, lifetime) && i < j && ConsumeOf(log, i, s) && ConsumeOf(log, j, s)
    ensures IssuedBetween(log, i, j, s)
  {
    if !IssuedBetween(log, i, j, s) {
      assert log[..i + 1][..i] == log[..i];
      NoReturn(log, i, j, s);
    }
  }

  /** Per issue, at most one result is handed out. */
  lemma CollectedOncePerIssue(log: seq<Event>, lifetime: nat, i: nat, j: nat, s: string)
    requires Legal(log, lifetime) && i < j && CollectOf(log, i, s) && CollectOf(log, j, s)
    ensures IssuedBetween(log, i, j, s)
  {
    if !IssuedBetween(log, i, j, s) {
      assert log[..i + 1][..i] == log[..i];
      NoReturn(log, i, j, s);
    }
  }

  /** The entries of the log that led to standing p of state s: its issue at i, and if it got so
      far its acceptance at k and its completion at n. */
  predicate Traced(log: seq<Event>, s: string, p: Standing, i: int, k: int, n: int) {
    p.Present? ==>
      && IssueOf(log, i, s) && log[i].origin == p.origin && !IssuedBetween(log, i, |log|, s)
      && (p.phase != Issued ==> i < k && ConsumeOf(log, k, s) && log[k].ownerIp == p.origin.ownerIp)
      && (p.phase.Complete? ==> k < n && CompleteOf(log, n, s, p.phase.authResult))
  }

  lemma TracedLater(front: seq<Event>, log: seq<Event>, s: string, p: Standing, i: int, k: int, n: int)
    requires Traced(front, s, p, i, k, n) && |log| == |front| + 1 && log[..|front|] == front && !IssueOf(log, |front|, s)
    ensures Traced(log, s, p, i, k, n)
  {
    if p.Present? {
      assert forall x :: 0 <= x < |front| ==> log[x] == front[x];
      forall x | i < x < |log| ensures !IssueOf(log, x, s) {
        if x < |front| { assert !IssueOf(front, x, s); }
      }
    }
  }

  lemma LegalPrefix(log: seq<Event>, m: nat, lifetime: nat)
    requires Legal(log, lifetime) && m <= |log|
    ensures Legal(log[..m], lifetime)
  {
    assert forall x :: 0 <= x < m ==> log[..m][..x] == log[..x];
  }

  lemma {:induction false} Trace(log: seq<Event>, lifetime: nat, s: string) returns (i: int, k: int, n: int)
    requires Legal(log, lifetime)
    ensures Traced(log, s, StandingOf(log, s), i, k, n)
  {
    i, k, n := 0, 0, 0;
    if log != [] {
      var m := |log| - 1;
      var front, e := log[..m], log[m];
      LegalPrefix(log, m, lifetime);
      i, k, n := Trace(front, lifetime, s);
      var p := StandingOf(front, s);
      assert Allowed(StandingOf(log[..m], e.state), e, lifetime);
      if e.state == s && e.DidIssue? {
        i := m;
      } else {
        TracedLater(front, log, s, p, i, k, n);
        if e.state == s && e.DidConsume? { k := m; }
        if e.state == s && e.DidComplete? { n := m; }
      }
    }
  }

  /** A result is handed out only after the state was issued, consumed for its owner and completed
      with that very result, in this order and under the same issue. */
  lemma ResultFollowsConsumption(log: seq<Event>, lifetime: nat, j: nat, s: string) returns (i: int, k: int, n: int)
    requires Legal(log, lifetime) && CollectOf(log, j, s)
    ensures 0 <= i < k < n < j && IssueOf(log, i, s) && !IssuedBetween(log, i, j, s)
    ensures ConsumeOf(log, k, s) && log[k].ownerIp == log[i].origin.ownerIp
    ensures CompleteOf(log, n, s, log[j].authResult) && !log[i].origin.context.sameOrigin
  {
    var front := log[..j];
    LegalPrefix(log, j, lifetime);
    i, k, n := Trace(front, lifetime, s);
    CompleteIsCrossOrigin(front, s);
    assert Allowed(StandingOf(front, s), log[j], lifetime);
    forall x | i < x < j ensures !IssueOf(log, x, s) { assert !IssueOf(front, x, s); }
  }

  /** Only a cross-origin state ever waits for its result to be collected. */
  lemma {:induction false} CompleteIsCrossOrigin(log: seq<Event>, s: string)
    ensures var p := StandingOf(log, s);
            p.Present? && p.phase.Complete? ==> !p.origin.context.sameOrigin
  {
    if log != [] { CompleteIsCrossOrigin(log[..|log| - 1], s); }
  }

  // ------------------------------------------------------------------ the store

  function OwnedBy(states: map<string, Capability>, owner: string): set<string> {
    set s | s in states && states[s].ownerIp == owner
  }

  ghost predicate CountsAgree(states: map<string, Capability>, counts: map<string, nat>) {
    forall owner: string :: (if owner in counts then counts[owner] > 0 && counts[owner] == |OwnedBy(states, owner)|
                             else OwnedBy(states, owner) == {})
  }

  lemma CountsAfterDelete(states: map<string, Capability>, counts: map<string, nat>, s: string)
    requires CountsAgree(states, counts) && s in states
    ensures states[s].ownerIp in counts
    ensures var owner := states[s].ownerIp;
            CountsAgree(states - {s}, if counts[owner] <= 1 then counts - {owner} else counts[owner := counts[owner] - 1])
  {
    var owner := states[s].ownerIp;
    assert s in OwnedBy(states, owner);
    assert owner in counts;
    assert OwnedBy(states - {s}, owner) == OwnedBy(states, owner) - {s};
    forall o: string | o != owner ensures OwnedBy(states - {s}, o) == OwnedBy(states, o) {}
  }

  lemma CountsAfterAdd(states: map<string, Capability>, counts: map<string, nat>, s: string, c: Capability)
    requires CountsAgree(states, counts) && s !in states
    ensures CountsAgree(states[s := c], counts[c.ownerIp := (if c.ownerIp in counts then counts[c.ownerIp] else 0) + 1])
  {
    assert OwnedBy(states[s := c], c.ownerIp) == OwnedBy(states, c.ownerIp) + {s};
    forall o: string | o != c.ownerIp ensures OwnedBy(states[s := c], o) == OwnedBy(states, o) {}
  }

  lemma CountsAfterUpdate(states: map<string, Capability>, counts: map<string, nat>, s: string, c: Capability)
    requires CountsAgree(states, counts) && s in states && states[s].ownerIp == c.ownerIp
    ensures CountsAgree(states[s := c], counts)
  {
    forall o: string ensures OwnedBy(states[s := c], o) == OwnedBy(states, o) {}
  }

  /** What the log says of a stored state is what is stored. */
  predicate Reflects(p: Standing, c: Capability, lifetime: nat) {
    && p.Present? && p.origin == Origin(c.context, c.ownerIp, c.binding)
    && p.phase == c.phase && c.expiresAt == p.since + lifetime
  }

  ghost predicate Mirrors(log: seq<Event>, states: map<string, Capability>, lifetime: nat) {
    forall s: string :: s in states ==> Reflects(StandingOf(log, s), states[s], lifetime)
  }

  function Unexpired(states: map<string, Capability>, now: int): map<string, Capability> {
    map s | s in states && now < states[s].expiresAt :: states[s]
  }

  class GithubAuthStateStore {
    const maxPending: nat
    const maxPendingPerOwner: nat
    const lifetimeSeconds: nat
    /** digestBrowserBinding */
    const digest: string -> string
    var states: map<string, Capability>
    var stateCountByOwner: map<string, nat>
    ghost var log: seq<Event>

    constructor (maxPending: nat, maxPendingPerOwner: nat, lifetimeSeconds: nat, digest: string -> string)
      requires maxPending >= 1 && maxPendingPerOwner >= 1 && lifetimeSeconds >= 1
      ensures Valid() && states == map[] && log == []
    {
      this.maxPending, this.maxPendingPerOwner, this.lifetimeSeconds := maxPending, maxPendingPerOwner, lifetimeSeconds;
      this.digest := digest;
      states, stateCountByOwner, log := map[], map[], [];
    }

    ghost predicate Valid()
      reads this
    {
      && CountsAgree(states, stateCountByOwner)
      && |states| <= maxPending
      && (forall owner: string :: owner in stateCountByOwner ==> stateCountByOwner[owner] <= maxPendingPerOwner)
      && Legal(log, lifetimeSeconds) && Mirrors(log, states, lifetimeSeconds)
    }

    /** delete */
    method Delete(state: string)
      requires Valid()
      modifies this`states, this`stateCountByOwner
      ensures Valid() && states == old(states) - {state}
    {
      if state !in states { return; }
      var owner := states[state].ownerIp;
      CountsAfterDelete(states, stateCountByOwner, state);
      states := states - {state};
      var ownerStateCount := if owner in stateCountByOwner then stateCountByOwner[owner] else 0;
      if ownerStateCount <= 1 {
        stateCountByOwner := stateCountByOwner - {owner};
      } else {
        stateCountByOwner := stateCountByOwner[owner := ownerStateCount - 1];
      }
    }

    /** pruneExpired */
    method PruneExpired(now: int)
      requires Valid()
      modifies this`states, this`stateCountByOwner
      ensures Valid() && states == Unexpired(old(states), now)
    {
      var todo := states.Keys;
      while todo != {}
        invariant Valid() && todo <= states.Keys
        invariant forall s: string :: s in states ==> s in old(states) && states[s] == old(states)[s]
        invariant forall s: string :: s in old(states) && now < old(states)[s].expiresAt ==> s in states
        invariant forall s: string :: s in states && s !in todo ==> now < states[s].expiresAt
        decreases todo
      {
        var s :| s in todo;
        if now >= states[s].expiresAt { Delete(s); }
        todo := todo - {s};
      }
    }

    function MatchesBrowserBinding(c: Capability, binding: Option<string>): bool {
      match c.binding
      case SameOrigin => true
      case Cookie(d) => binding.Some? && IsToken(binding.value) && digest(binding.value) == d
    }

    /** The binding a new state is stored with. */
    function BindingFor(context: Context, binding: Option<string>): Result<Binding> {
      if context.sameOrigin then Ok(SameOrigin)
      else if binding.None? || !IsToken(binding.value) then Error("GitHub authentication browser binding is invalid.")
      else Ok(Cookie(digest(binding.value)))
    }

    /** The first of three draws that is a token and not taken, or nothing. */
    method DrawState(random: seq<string>) returns (state: string)
      requires |random| == 3
      ensures state != "" ==> state in random && IsToken(state) && state !in states
      ensures state == "" ==> forall i :: 0 <= i < 3 ==> !(IsToken(random[i]) && random[i] !in states)
    {
      state := "";
      for attempt := 0 to 3
        invariant state == ""
        invariant forall i :: 0 <= i < attempt ==> !(IsToken(random[i]) && random[i] !in states)
      {
        state := random[attempt];
        if IsToken(state) && state !in states { return; }
        state := "";
      }
    }

    /** issue after pruning: both capacities are checked, a state is drawn and stored. */
    method IssueAmong(context: Context, ownerIp: string, stored: Binding, now: nat, random: seq<string>) returns (r: Result<(string, nat)>)
      requires Valid() && |random| == 3
      modifies this
      ensures Valid()
      ensures r.Error? ==> log == old(log) && states == old(states)
      ensures r.Ok? ==>
                && r.value.0 in random && IsToken(r.value.0) && r.value.1 == now + lifetimeSeconds && r.value.0 !in old(states)
                && states == old(states)[r.value.0 := Capability(r.value.1, context, ownerIp, stored, Issued)]
                && log == old(log) + [DidIssue(r.value.0, Origin(context, ownerIp, stored), now)]
      ensures r.Ok? <==>
                && |old(states)| < maxPending && |OwnedBy(old(states), ownerIp)| < maxPendingPerOwner
                && exists i :: 0 <= i < 3 && IsToken(random[i]) && random[i] !in old(states)
    {
      hide Allowed, After, StandingOf;
      if |states| >= maxPending { return Error("GitHub authentication state capacity reached."); }
      var ownerStateCount := if ownerIp in stateCountByOwner then stateCountByOwner[ownerIp] else 0;
      assert ownerStateCount == |OwnedBy(states, ownerIp)|;
      if ownerStateCount >= maxPendingPerOwner { return Error("GitHub authentication state client capacity reached."); }
      var state := DrawState(random);
      if state == "" { return Error("Could not allocate a unique GitHub authentication state."); }
      Store(state, Capability(now + lifetimeSeconds, context, ownerIp, stored, Issued), ownerStateCount, now);
      r := Ok((state, now + lifetimeSeconds));
    }

    /** issue; random holds what the three attempts draw. It succeeds exactly when the arguments
        are valid, there is room once expired states are gone, and a draw is free; when it
        throws, at most expired states are gone. */
    method Issue(context: Context, ownerIp: string, binding: Option<string>, now: nat, random: seq<string>)
        returns (r: Result<(string, nat)>)
      requires Valid() && |random| == 3
      modifies this
      ensures Valid()
      ensures r.Error? ==> log == old(log) && (states == old(states) || states == Unexpired(old(states), now))
      ensures r.Ok? <==>
                && ownerIp != "" && BindingFor(context, binding).Ok?
                && |Unexpired(old(states), now)| < maxPending && |OwnedBy(Unexpired(old(states), now), ownerIp)| < maxPendingPerOwner
                && exists i :: 0 <= i < 3 && IsToken(random[i]) && random[i] !in Unexpired(old(states), now)
      ensures r.Ok? ==>
                && r.value.0 in random && IsToken(r.value.0) && r.value.1 == now + lifetimeSeconds
                && r.value.0 !in Unexpired(old(states), now)
                && states == Unexpired(old(states), now)[r.value.0 :=
                     Capability(r.value.1, context, ownerIp, BindingFor(context, binding).value, Issued)]
                && log == old(log) + [DidIssue(r.value.0, Origin(context, ownerIp, BindingFor(context, binding).value), now)]
    {
      if ownerIp == "" { return Error("GitHub authentication state owner is invalid."); }
      var stored := BindingFor(context, binding);
      if stored.Error? { return Error(stored.message); }
      PruneExpired(now);
      r := IssueAmong(context, ownerIp, stored.value, now, random);
    }

    /** The end of issue: the new state goes into both maps. */
    method Store(state: string, c: Capability, ownerStateCount: nat, now: nat)
      requires Valid() && state !in states && |states| < maxPending && ownerStateCount < maxPendingPerOwner
      requires ownerStateCount == if c.ownerIp in stateCountByOwner then stateCountByOwner[c.ownerIp] else 0
      requires c.phase == Issued && c.expiresAt == now + lifetimeSeconds
      modifies this
      ensures Valid() && states == old(states)[state := c]
      ensures log == old(log) + [DidIssue(state, Origin(c.context, c.ownerIp, c.binding), now)]
    {
      CountsAfterAdd(states, stateCountByOwner, state, c);
      Append(log, DidIssue(state, Origin(c.context, c.ownerIp, c.binding), now), lifetimeSeconds);
      log := log + [DidIssue(state, Origin(c.context, c.ownerIp, c.binding), now)];
      states := states[state := c];
      stateCountByOwner := stateCountByOwner[c.ownerIp := ownerStateCount + 1];
    }

    /** The stored state moves to its next phase with a new lifetime. */
    method Advance(state: string, phase: Phase, now: nat, ghost e: Event)
      requires Valid() && state in states && e.state == state && Allowed(StandingOf(log, state), e, lifetimeSeconds)
      requires After(StandingOf(log, state), e) == StandingOf(log, state).(phase := phase, since := now)
      modifies this`states, this`log
      ensures Valid() && log == old(log) + [e]
      ensures states == old(states)[state := old(states)[state].(expiresAt := now + lifetimeSeconds, phase := phase)]
    {
      var c := states[state].(expiresAt := now + lifetimeSeconds, phase := phase);
      CountsAfterUpdate(states, stateCountByOwner, state, c);
      Append(log, e, lifetimeSeconds);
      assert states[state := c].Keys == states.Keys;
      SameSize(states, states[state := c]);
      states := states[state := c];
      log := log + [e];
    }

    /** The state leaves the store with an accepted call. */
    method Retire(state: string, ghost e: Event)
      requires Valid() && state in states && e.state == state && Allowed(StandingOf(log, state), e, lifetimeSeconds)
      modifies this
      ensures Valid() && log == old(log) + [e] && states == old(states) - {state}
    {
      Delete(state);
      Append(log, e, lifetimeSeconds);
      log := log + [e];
    }

    /** The checks consume and consumeResult share; None lets the call go on. */
    method Check(authState: string, context: Context, binding: Option<string>, now: nat) returns (refusal: Option<Reason>)
      requires Valid()
      modifies this`states, this`stateCountByOwner
      ensures Valid()
      ensures states == if IsToken(authState) && authState in old(states) && now >= old(states)[authState].expiresAt
                        then old(states) - {authState} else old(states)
      ensures refusal.None? <==>
                && IsToken(authState) && authState in old(states) && now < old(states)[authState].expiresAt
                && old(states)[authState].context == context && MatchesBrowserBinding(old(states)[authState], binding)
      ensures refusal == Some(Invalid) <==> !IsToken(authState)
      ensures refusal == Some(Unknown) <==> IsToken(authState) && authState !in old(states)
      ensures refusal == Some(Expired) <==> IsToken(authState) && authState in old(states) && now >= old(states)[authState].expiresAt
      ensures refusal == Some(WrongContext) <==>
                && IsToken(authState) && authState in old(states) && now < old(states)[authState].expiresAt
                && old(states)[authState].context != context
      ensures refusal != Some(Used)
    {
      if !IsToken(authState) { return Some(Invalid); }
      if authState !in states { return Some(Unknown); }
      if now >= states[authState].expiresAt {
        Delete(authState);
        return Some(Expired);
      }
      if states[authState].context != context { return Some(WrongContext); }
      if !MatchesBrowserBinding(states[authState], binding) { return Some(WrongBinding); }
      refusal := None;
    }

    /** consume: accepted exactly when a live state in its first phase is presented with its own
        context and binding. */
    method Consume(authState: string, context: Context, binding: Option<string>, now: nat) returns (r: Consumption)
      requires Valid()
      modifies this
      ensures Valid()
      ensures r.Accepted? <==>
                && IsToken(authState) && authState in old(states) && now < old(states)[authState].expiresAt
                && old(states)[authState].context == context && MatchesBrowserBinding(old(states)[authState], binding)
                && old(states)[authState].phase == Issued
      ensures r.Accepted? ==>
                && r.ownerIp == old(states)[authState].ownerIp && log == old(log) + [DidConsume(authState, r.ownerIp, now)]
                && states == old(states)[authState := old(states)[authState].(expiresAt := now + lifetimeSeconds, phase := Processing)]
      ensures r.Rejected? ==> log == old(log) && (states == old(states) || states == old(states) - {authState})
    {
      var refusal := Check(authState, context, binding, now);
      if refusal.Some? { return Rejected(refusal.value); }
      if states[authState].phase != Issued { return Rejected(Used); }
      var owner := states[authState].ownerIp;
      Advance(authState, Processing, now, DidConsume(authState, owner, now));
      r := Accepted(owner);
    }

    /** complete: a same-origin state is done, any other waits for its result to be collected. */
    method Complete(state: string, authResult: string, now: nat) returns (ok: bool)
      requires Valid()
      modifies this
      ensures Valid()
      ensures ok <==> state in old(states) && old(states)[state].phase == Processing && now < old(states)[state].expiresAt
      ensures ok ==>
                && log == old(log) + [DidComplete(state, authResult, now)]
                && states == if old(states)[state].context.sameOrigin then old(states) - {state}
                             else old(states)[state := old(states)[state].(expiresAt := now + lifetimeSeconds, phase := Phase.Complete(authResult))]
      ensures !ok ==> log == old(log) && (states == old(states) || states == old(states) - {state})
    {
      if state !in states || states[state].phase != Processing { return false; }
      if now >= states[state].expiresAt {
        Delete(state);
        return false;
      }
      if states[state].context.sameOrigin {
        Retire(state, DidComplete(state, authResult, now));
        return true;
      }
      Advance(state, Phase.Complete(authResult), now, DidComplete(state, authResult, now));
      ok := true;
    }

    /** consumeResult: hands the result out and forgets the state. */
    method ConsumeResult(authState: string, context: Context, binding: Option<string>, now: nat) returns (r: ResultConsumption)
      requires Valid()
      modifies this
      ensures Valid()
      ensures r.AcceptedResult? <==>
                && IsToken(authState) && authState in old(states) && now < old(states)[authState].expiresAt
                && old(states)[authState].context == context && MatchesBrowserBinding(old(states)[authState], binding)
                && old(states)[authState].phase.Complete?
      ensures r.AcceptedResult? ==>
                && old(states)[authState].phase == Phase.Complete(r.authResult) && states == old(states) - {authState}
                && log == old(log) + [DidCollect(authState, r.authResult, now)]
      ensures !r.AcceptedResult? ==> log == old(log) && (states == old(states) || states == old(states) - {authState})
    {
      var refusal := Check(authState, context, binding, now);
      if refusal.Some? { return RejectedResult(refusal.value); }
      if !states[authState].phase.Complete? { return NotReady; }
      var authResult := states[authState].phase.authResult;
      Retire(authState, DidCollect(authState, authResult, now));
      r := AcceptedResult(authResult);
    }

    /** clear */
    method Clear()
      requires Valid()
      modifies this`states, this`stateCountByOwner
      ensures Valid() && states == map[]
    {
      states, stateCountByOwner := map[], map[];
    }
  }

  lemma SameSize(a: map<string, Capability>, b: map<string, Capability>)
    requires a.Keys == b.Keys
    ensures |a| == |b|
  {
    assert |a| == |a.Keys| && |b| == |b.Keys|;
  }
}
