// The access token of app/providers/nomba.py, shared by coroutines that interleave
// only where they await.
module TokenProtocol {
  import opened Prelude

  // Where a coroutine is suspended. `retried` tells the second attempt of
  // _authed_request from the first; `token` is what _ensure_token returned.
  datatype Phase =
    | Idle
    | WaitingForLock(retried: bool)
    | Fetching(retried: bool)
    | Requesting(token: Option<string>, retried: bool)

  // The fields of the provider object, the lock, the clock and the coroutines. The
  // three counters are history: successful fetches, those that brought a token which
  // was not fresh on arrival, and invalidations (expiries and resets after a 401).
  datatype State = State(
    token: Option<string>, expiresAt: int, leeway: int, now: int,
    holder: Option<nat>, phases: seq<Phase>,
    fetches: nat, staleFetches: nat, invalidations: nat)

  datatype Step =
    | Call(c: nat)
    | TakeLock(c: nat)
    | TokenIssued(c: nat, token: string, expiresAt: Option<int>)
    | IssueFailed(c: nat)
    | Answered(c: nat)
    | Unauthorized(c: nat)
    | ClockAdvances(seconds: nat)

  // _token_is_fresh
  predicate Fresh(s: State) {
    s.token.Some? && s.now < s.expiresAt - s.leeway
  }

  const FALLBACK_LIFETIME := 300

  // _parse_expiry; None stands for an absent or unparseable expiry.
  function ParseExpiry(expiresAt: Option<int>, now: int): int {
    if expiresAt.Some? then expiresAt.value else now + FALLBACK_LIFETIME
  }

  predicate In(s: State, c: nat) {
    c < |s.phases|
  }

  function Goto(s: State, c: nat, phase: Phase): State
    requires In(s, c)
  {
    s.(phases := s.phases[c := phase])
  }

  // _ensure_token up to its first suspension.
  function EnsureToken(s: State, c: nat, retried: bool): State
    requires In(s, c)
  {
    if Fresh(s) then Goto(s, c, Requesting(s.token, retried)) else Goto(s, c, WaitingForLock(retried))
  }

  // A step whose coroutine is not where the step starts changes nothing.
  function Next(s: State, step: Step): State {
    match step
    case Call(c) =>
      if In(s, c) && s.phases[c].Idle? then EnsureToken(s, c, false) else s
    case TakeLock(c) =>
      if In(s, c) && s.phases[c].WaitingForLock? && s.holder.None? then
        // The second check, under the lock.
        if Fresh(s) then Goto(s, c, Requesting(s.token, s.phases[c].retried))
        else Goto(s.(holder := Some(c)), c, Fetching(s.phases[c].retried))
      else s
    case TokenIssued(c, token, expiresAt) =>
      if In(s, c) && s.phases[c].Fetching? && token != "" then
        var issued := s.(token := Some(token), expiresAt := ParseExpiry(expiresAt, s.now), holder := None);
        Goto(issued, c, Requesting(issued.token, s.phases[c].retried)).(
          fetches := s.fetches + 1,
          staleFetches := if Fresh(issued) then s.staleFetches else s.staleFetches + 1)
      else s
    case IssueFailed(c) =>
      if In(s, c) && s.phases[c].Fetching? then Goto(s.(holder := None), c, Idle) else s
    case Answered(c) =>
      if In(s, c) && s.phases[c].Requesting? then Goto(s, c, Idle) else s
    case Unauthorized(c) =>
      if In(s, c) && s.phases[c].Requesting? then
        if s.phases[c].retried then Goto(s, c, Idle)
        else EnsureToken(s.(token := None, invalidations := s.invalidations + 1), c, true)
      else s
    case ClockAdvances(seconds) =>
      var later := s.(now := s.now + seconds);
      if Fresh(s) && !Fresh(later) then later.(invalidations := s.invalidations + 1) else later
  }

  function Run(s: State, steps: seq<Step>): State {
    if steps == [] then s else Next(Run(s, steps[..|steps| - 1]), steps[|steps| - 1])
  }

  predicate Initial(s: State) {
    && s.token.None? && s.holder.None?
    && s.fetches == 0 && s.staleFetches == 0 && s.invalidations == 0
    && forall c :: 0 <= c < |s.phases| ==> s.phases[c].Idle?
  }

  ghost predicate Invariant(s: State) {
    // The lock is held exactly by the one coroutine that is fetching, and only while
    // there is no fresh token to use.
    && (forall c :: 0 <= c < |s.phases| ==> (s.phases[c].Fetching? <==> s.holder == Some(c)))
    && (s.holder.Some? ==> s.holder.value < |s.phases| && !Fresh(s))
    && (forall c :: 0 <= c < |s.phases| && s.phases[c].Requesting? ==> s.phases[c].token.Some?)
    // Every fetch but the last has been made necessary by a later invalidation.
    && s.fetches <= s.invalidations + s.staleFetches + (if Fresh(s) then 1 else 0)
  }

  lemma NextKeepsInvariant(s: State, step: Step)
    requires Invariant(s)
    ensures Invariant(Next(s, step))
  {}

  lemma {:induction false} RunKeepsInvariant(s: State, steps: seq<Step>)
    requires Invariant(s)
    ensures Invariant(Run(s, steps))
  {
    hide Invariant, Next;
    if steps != [] {
      RunKeepsInvariant(s, steps[..|steps| - 1]);
      NextKeepsInvariant(Run(s, steps[..|steps| - 1]), steps[|steps| - 1]);
    }
  }

  // In every interleaving no coroutine ever leaves _ensure_token without a token, at
  // most one is fetching, and the successful fetches number at most one plus the
  // invalidations plus the fetches that brought a token too short-lived to be fresh.
  lemma TokenProtocolIsSafe(s: State, steps: seq<Step>)
    requires Initial(s)
    ensures var post := Run(s, steps);
            && (forall c :: 0 <= c < |post.phases| && post.phases[c].Requesting? ==> post.phases[c].token.Some?)
            && (forall c, d :: 0 <= c < d < |post.phases| ==>
                  !(post.phases[c].Fetching? && post.phases[d].Fetching?))
            && post.fetches <= 1 + post.invalidations + post.staleFetches
  {
    hide Run;
    RunKeepsInvariant(s, steps);
  }

  // No interleaving deadlocks: while some coroutine waits for the lock, the lock is
  // free to be taken by it or its holder is awaiting an answer that will free it.
  lemma LockIsNeverLost(s: State, steps: seq<Step>, c: nat)
    requires Initial(s)
    requires c < |Run(s, steps).phases| && Run(s, steps).phases[c].WaitingForLock?
    ensures var post := Run(s, steps);
            if post.holder.None? then !Next(post, TakeLock(c)).phases[c].WaitingForLock?
            else post.holder.value < |post.phases| && post.phases[post.holder.value].Fetching? &&
                 Next(post, IssueFailed(post.holder.value)).holder.None?
  {
    hide Run;
    RunKeepsInvariant(s, steps);
  }

  // ------------------------------------------------------------- rejected tokens

  // Some step of a run stored this token.
  ghost predicate IssuedIn(s: State, steps: seq<Step>, token: string) {
    exists k :: 0 <= k < |steps| && steps[k].TokenIssued? && steps[k].token == token &&
                Run(s, steps[..k + 1]).token == Some(token) &&
                Run(s, steps[..k + 1]).fetches == Run(s, steps[..k]).fetches + 1
  }

  // After the first 401 of a coroutine, the stored token and the one of its second
  // attempt come from a fetch that came later.
  ghost predicate Refetched(s: State, steps: seq<Step>, c: nat) {
    var post := Run(s, steps);
    && post.fetches >= s.fetches
    && (post.token.Some? ==> post.fetches > s.fetches && IssuedIn(s, steps, post.token.value))
    && (c < |post.phases| && post.phases[c].Requesting? && post.phases[c].retried && post.phases[c].token.Some? ==>
          post.fetches > s.fetches && IssuedIn(s, steps, post.phases[c].token.value))
  }

  lemma IssuedStaysIssued(s: State, steps: seq<Step>, step: Step, token: string)
    requires IssuedIn(s, steps, token)
    ensures IssuedIn(s, steps + [step], token)
  {
    var more := steps + [step];
    var k :| 0 <= k < |steps| && steps[k].TokenIssued? && steps[k].token == token &&
             Run(s, steps[..k + 1]).token == Some(token) &&
             Run(s, steps[..k + 1]).fetches == Run(s, steps[..k]).fetches + 1;
    assert more[k] == steps[k] && more[..k + 1] == steps[..k + 1] && more[..k] == steps[..k];
  }

  // Where a token comes from: a step either stores the token it issues, or keeps or
  // drops the stored one; and a coroutine enters a request with the stored token only.
  lemma StepHandsOutStored(s: State, step: Step, c: nat)
    ensures var post := Next(s, step);
            && post.fetches >= s.fetches
            && (post.token.Some? && post.token != s.token ==>
                  step.TokenIssued? && post.token == Some(step.token) && post.fetches == s.fetches + 1)
            && (c < |post.phases| && post.phases[c].Requesting? ==>
                  (c < |s.phases| && s.phases[c] == post.phases[c]) || post.phases[c].token == post.token)
            && (post.fetches > s.fetches ==> step.TokenIssued? && post.token == Some(step.token) && post.fetches == s.fetches + 1)
  {}

  lemma {:induction false} RunRefetches(s: State, steps: seq<Step>, c: nat)
    requires s.token.None?
    requires c < |s.phases| ==> !(s.phases[c].Requesting? && s.phases[c].retried)
    ensures Refetched(s, steps, c)
  {
    hide Next, IssuedIn;
    if steps != [] {
      var n := |steps| - 1;
      var prior, step := steps[..n], steps[n];
      RunRefetches(s, prior, c);
      var before, post := Run(s, prior), Run(s, steps);
      StepHandsOutStored(before, step, c);
      assert steps == prior + [step];
      if post.fetches > before.fetches { IssuedByLast(s, steps); }
      if before.token.Some? { IssuedStaysIssued(s, prior, step, before.token.value); }
      if c < |before.phases| && before.phases[c].Requesting? && before.phases[c].retried && before.phases[c].token.Some? {
        IssuedStaysIssued(s, prior, step, before.phases[c].token.value);
      }
    }
  }

  lemma IssuedByLast(s: State, steps: seq<Step>)
    requires steps != []
    requires var n := |steps| - 1;
             && steps[n].TokenIssued? && Run(s, steps).token == Some(steps[n].token)
             && Run(s, steps).fetches == Run(s, steps[..n]).fetches + 1
    ensures IssuedIn(s, steps, steps[|steps| - 1].token)
  {
    hide Run;
    var n := |steps| - 1;
    assert steps[..n + 1] == steps;
  }

  // A rejected token is never used again by the coroutine whose request was rejected: the
  // first 401 leaves no token stored, and in every interleaving the second attempt, when
  // it comes, carries a token that was fetched after the rejection.
  lemma RejectedTokenIsReplaced(s: State, c: nat, steps: seq<Step>)
    requires c < |s.phases| && s.phases[c].Requesting? && !s.phases[c].retried
    ensures var rejected := Next(s, Unauthorized(c));
            && rejected.token.None? && rejected.phases[c] == WaitingForLock(true)
            && var post := Run(rejected, steps);
               (c < |post.phases| && post.phases[c].Requesting? && post.phases[c].retried && post.phases[c].token.Some? ==>
                  && post.fetches > s.fetches
                  && IssuedIn(rejected, steps, post.phases[c].token.value))
  {
    hide Run, IssuedIn;
    RunRefetches(Next(s, Unauthorized(c)), steps, c);
  }

  // How often a coroutine has been rejected with a refresh, and how often it has started.
  function Refreshes(s: State, steps: seq<Step>, c: nat): nat {
    if steps == [] then 0
    else
      var n := |steps| - 1;
      var before := Run(s, steps[..n]);
      Refreshes(s, steps[..n], c) +
        (if steps[n] == Unauthorized(c) && c < |before.phases| && before.phases[c].Requesting? &&
            Next(before, steps[n]).token != before.token then 1 else 0)
  }

  function Starts(s: State, steps: seq<Step>, c: nat): nat {
    if steps == [] then 0
    else
      var n := |steps| - 1;
      var before := Run(s, steps[..n]);
      Starts(s, steps[..n], c) +
        (if steps[n] == Call(c) && c < |before.phases| && before.phases[c].Idle? then 1 else 0)
  }

  // The coroutine is in its first attempt, so its call has not used its refresh.
  predicate FirstAttempt(s: State, c: nat) {
    c < |s.phases| && !s.phases[c].Idle? && !s.phases[c].retried
  }

  lemma StepRefreshes(s: State, step: Step, c: nat)
    ensures var post := Next(s, step);
            var refreshed := step == Unauthorized(c) && c < |s.phases| && s.phases[c].Requesting? && post.token != s.token;
            var started := step == Call(c) && c < |s.phases| && s.phases[c].Idle?;
            && (refreshed ==> FirstAttempt(s, c) && !FirstAttempt(post, c))
            && (!refreshed && FirstAttempt(post, c) ==> FirstAttempt(s, c) || started)
            && !(refreshed && started)
  {}

  // One-shot refresh: in every interleaving a coroutine drops the shared token at most
  // once for each request it starts; a second 401 ends the request and keeps the token.
  lemma {:induction false} OneRefreshPerRequest(s: State, steps: seq<Step>, c: nat)
    requires Initial(s)
    ensures Refreshes(s, steps, c) + (if FirstAttempt(Run(s, steps), c) then 1 else 0) <= Starts(s, steps, c)
  {
    hide Next, FirstAttempt;
    if steps == [] {
      NotStarted(s, c);
    } else {
      var n := |steps| - 1;
      OneRefreshPerRequest(s, steps[..n], c);
      StepRefreshes(Run(s, steps[..n]), steps[n], c);
    }
  }

  lemma NotStarted(s: State, c: nat)
    requires Initial(s)
    ensures !FirstAttempt(s, c)
  {}

  // However a request or a fetch ends, it ends: a second 401, an answer and a failed fetch
  // make the coroutine idle, leave the stored token alone and hold no lock.
  lemma EndsAreFinal(s: State, c: nat, step: Step)
    requires Invariant(s) && c < |s.phases|
    requires || (step == Unauthorized(c) && s.phases[c].Requesting? && s.phases[c].retried)
             || (step == Answered(c) && s.phases[c].Requesting?)
             || (step == IssueFailed(c) && s.phases[c].Fetching?)
    ensures var post := Next(s, step);
            && post.phases[c].Idle? && post.token == s.token && post.expiresAt == s.expiresAt
            && post.holder != Some(c) && post.fetches == s.fetches
            && (step != IssueFailed(c) ==> post.holder == s.holder)
  {}

  // A fetched token is used until its expiry less the leeway, and no longer.
  lemma TokenLifetime(s: State, c: nat, token: string, expiry: int, seconds: nat)
    requires c < |s.phases| && s.phases[c].Fetching? && token != ""
    ensures var later := Next(Next(s, TokenIssued(c, token, Some(expiry))), ClockAdvances(seconds));
            later.token == Some(token) && (Fresh(later) <==> s.now + seconds < expiry - s.leeway)
  {}

  // Tokens whose expiry lies beyond the leeway are never stale on arrival.
  ghost predicate OutlivesLeeway(s: State, step: Step) {
    step.TokenIssued? ==> s.now < ParseExpiry(step.expiresAt, s.now) - s.leeway
  }

  lemma {:induction false} LongLivedTokensAreNotStale(s: State, steps: seq<Step>)
    requires Initial(s)
    requires forall k :: 0 <= k < |steps| ==> OutlivesLeeway(Run(s, steps[..k]), steps[k])
    ensures Run(s, steps).staleFetches == 0
    ensures Run(s, steps).fetches <= 1 + Run(s, steps).invalidations
  {
    hide Next, OutlivesLeeway, Fresh;
    TokenProtocolIsSafe(s, steps);
    if steps != [] {
      var n := |steps| - 1;
      var prior := steps[..n];
      forall k | 0 <= k < n ensures OutlivesLeeway(Run(s, prior[..k]), prior[k]) {
        assert prior[..k] == steps[..k];
      }
      LongLivedTokensAreNotStale(s, prior);
      assert OutlivesLeeway(Run(s, steps[..n]), steps[n]);
      StaleOnlyIfShortLived(Run(s, prior), steps[n]);
    }
  }

  lemma StaleOnlyIfShortLived(s: State, step: Step)
    requires OutlivesLeeway(s, step)
    ensures Next(s, step).staleFetches == s.staleFetches
  {}

  // The proviso matters: a token issued without an expiry is given 300 seconds, and
  // it is usable at all exactly when the leeway is shorter than that. The configured
  // default leeway is 300, so such a token is fetched anew for every request.
  lemma FallbackTokenIsFreshIff(s: State, c: nat, token: string)
    requires Invariant(s) && c < |s.phases| && s.phases[c].Fetching? && token != ""
    ensures Fresh(Next(s, TokenIssued(c, token, None))) <==> s.leeway < FALLBACK_LIFETIME
  {}

  // The same fields in place: the stretches of code between two awaits, as methods of
  // the object they update.
  class TokenCache {
    var token: Option<string>
    var expiresAt: int
    var holder: Option<nat>
    const leeway: int

    constructor (leeway: int)
      ensures token.None? && holder.None? && this.leeway == leeway
    {
      token, expiresAt, holder := None, 0, None;
      this.leeway := leeway;
    }

    ghost predicate Holds(s: State)
      reads this
    {
      token == s.token && expiresAt == s.expiresAt && holder == s.holder && leeway == s.leeway
    }

    method IsFresh(now: int) returns (fresh_: bool)
      ensures forall s :: Holds(s) && s.now == now ==> (fresh_ <==> Fresh(s))
    {
      if token.None? { return false; }
      return now < expiresAt - leeway;
    }

    // _ensure_token up to `async with`: the token, or None to wait for the lock.
    method TryToken(now: int) returns (found: Option<string>)
      ensures forall s, c: nat :: Holds(s) && s.now == now && In(s, c) && s.phases[c].Idle? ==>
                Next(s, Call(c)).phases[c] ==
                  if found.Some? then Requesting(found, false) else WaitingForLock(false)
    {
      var isFresh := IsFresh(now);
      if isFresh { return token; }
      return None;
    }

    // From the acquired lock to the fetch, or to the return when another coroutine
    // has refreshed the token meanwhile.
    method EnterLock(c: nat, now: int) returns (found: Option<string>)
      requires holder.None?
      modifies this`holder
      ensures forall s, retried: bool :: old(Holds(s)) && s.now == now && In(s, c) && s.phases[c] == WaitingForLock(retried) ==>
                && Holds(Next(s, TakeLock(c)))
                && Next(s, TakeLock(c)).phases[c] ==
                     if found.Some? then Requesting(found, retried) else Fetching(retried)
    {
      var isFresh := IsFresh(now);
      if isFresh { return token; }
      holder := Some(c);
      return None;
    }

    // The end of _fetch_token and of _ensure_token.
    method StoreToken(c: nat, issued: string, expiry: Option<int>, now: int) returns (found: Option<string>)
      requires issued != ""
      modifies this
      ensures forall s, retried: bool :: old(Holds(s)) && s.now == now && In(s, c) && s.phases[c] == Fetching(retried) ==>
                && Holds(Next(s, TokenIssued(c, issued, expiry)))
                && Next(s, TokenIssued(c, issued, expiry)).phases[c] == Requesting(found, retried)
    {
      token := Some(issued);
      expiresAt := ParseExpiry(expiry, now);
      holder := None;
      return token;
    }

    // The handler of a 401 in _authed_request.
    method Invalidate(c: nat)
      modifies this`token
      ensures forall s, held: Option<string> :: old(Holds(s)) && In(s, c) && s.phases[c] == Requesting(held, false) ==>
                && Holds(Next(s, Unauthorized(c)))
                && Next(s, Unauthorized(c)).phases[c] == WaitingForLock(true)
    {
      token := None;
    }
  }
}
