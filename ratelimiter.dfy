/**
 * mangadex/http/experimental_ratelimiter.py: the per-endpoint rate limiter and
 * the process-wide registry of limiters.
 *
 * Each coroutine is modelled as one atomic step on explicit state. In the
 * source not every mutation is under the limiter's lock: `acquire` tests
 * `_value <= 0` and appends its waiter outside it, and the countdown sets
 * `resetted` outside it; interleavings at those points are not modelled.
 * A task suspended in `acquire` is a waiter id at the back of `waiters`;
 * waking the next waiter removes the head.
 * The pending countdown task is the delay it was started with, `None` when no
 * countdown is running.
 */
module RateLimiting {
  import opened Wrappers

  /** `_GLOBAL_LIMIT` */
  const GlobalLimit: int := 300

  /** `_Path`: a rate-limit policy, `resetMinutes` defaulting to 60. */
  datatype PathPolicy = PathPolicy(verb: string, path: string, maxRequests: int, resetMinutes: int)

  /** `_RESTRICTED_ENDPOINTS_LIMIT`, in source order. */
  const RestrictedEndpoints: seq<PathPolicy> := [
    PathPolicy("POST", "/account/create", 5, 60),
    PathPolicy("POST", "/account/activate/{code}", 30, 60),
    PathPolicy("POST", "/account/activate/resend", 5, 60),
    PathPolicy("POST", "/account/recover", 5, 60),
    PathPolicy("POST", "/account/recover/{code}", 5, 60),
    PathPolicy("POST", "/auth/login", 30, 60),
    PathPolicy("POST", "/auth/refresh", 30, 60),
    PathPolicy("POST", "/author", 10, 60),
    PathPolicy("PUT", "/author", 10, 60),
    PathPolicy("DELETE", "/author/{id}", 10, 60),
    PathPolicy("POST", "/captcha/solve", 10, 60),
    PathPolicy("POST", "/chapter/{id}/read", 300, 60),
    PathPolicy("PUT", "/chapter/{id}", 10, 60),
    PathPolicy("DELETE", "/chapter/{id}", 10, 60),
    PathPolicy("POST", "/manga", 10, 60),
    PathPolicy("PUT", "/manga/{id}", 10, 60),
    PathPolicy("DELETE", "/manga/{id}", 10, 60),
    PathPolicy("POST", "/cover", 10, 60),
    PathPolicy("PUT", "/cover/{id}", 10, 60),
    PathPolicy("DELETE", "/cover/{id}", 10, 60),
    PathPolicy("POST", "/group", 10, 60),
    PathPolicy("PUT", "/group/{id}", 10, 60),
    PathPolicy("DELETE", "/group/{id}", 10, 60),
    PathPolicy("GET", "/at-home/server/{id}", 40, 1),
    PathPolicy("POST", "/report", 10, 60),
    PathPolicy("POST", "/upload/begin", 30, 60)
  ]

  /** A policy applies to a request with the same method whose path starts with its path. */
  predicate Applies(p: PathPolicy, verb: string, path: string) {
    p.verb == verb && p.path <= path
  }

  /** The entry the selection loop leaves behind: it has no `break`, so the last applying one. */
  function LastMatch(table: seq<PathPolicy>, verb: string, path: string): Option<PathPolicy>
    decreases |table|
  {
    if table == [] then None
    else if Applies(table[|table| - 1], verb, path) then Some(table[|table| - 1])
    else LastMatch(table[..|table| - 1], verb, path)
  }

  /** The policy of a newly created limiter for a request: the last applying restricted
      entry, or 300 requests per 60 minutes for the path itself. */
  function PolicyFor(verb: string, path: string): PathPolicy {
    match LastMatch(RestrictedEndpoints, verb, path)
    case Some(p) => p
    case None => PathPolicy(verb, path, GlobalLimit, 60)
  }

  /** The registry key: the method, one space, the concrete path. */
  function Key(verb: string, path: string): string {
    verb + " " + path
  }

  /** `LastMatch` is the applying entry that no later entry overrides, and there is none
      exactly when no entry applies. */
  lemma {:induction false} LastMatchSpec(table: seq<PathPolicy>, verb: string, path: string)
    ensures LastMatch(table, verb, path).None? <==>
              forall i :: 0 <= i < |table| ==> !Applies(table[i], verb, path)
    ensures LastMatch(table, verb, path).Some? ==>
              exists i :: 0 <= i < |table| && table[i] == LastMatch(table, verb, path).value
                          && Applies(table[i], verb, path)
                          && forall j :: i < j < |table| ==> !Applies(table[j], verb, path)
    decreases |table|
  {
    if table != [] {
      var n := |table| - 1;
      var front := table[..n];
      if Applies(table[n], verb, path) {
        assert table[n] == LastMatch(table, verb, path).value;
      } else {
        LastMatchSpec(front, verb, path);
        assert forall i :: 0 <= i < n ==> front[i] == table[i];
        if LastMatch(front, verb, path).Some? {
          var i :| 0 <= i < n && front[i] == LastMatch(front, verb, path).value
                   && Applies(front[i], verb, path)
                   && forall j :: i < j < n ==> !Applies(front[j], verb, path);
          assert table[i] == LastMatch(table, verb, path).value;
        }
      }
    }
  }

  /** Every restricted entry allows at least one request per window of at least a minute. */
  lemma PoliciesPositive()
    ensures forall i :: 0 <= i < |RestrictedEndpoints| ==>
              RestrictedEndpoints[i].maxRequests > 0 && RestrictedEndpoints[i].resetMinutes > 0
  {
  }

  /** The loop of `get_rate_limiter` over `_RESTRICTED_ENDPOINTS_LIMIT`, then the global
      fallback. */
  method SelectPolicy(verb: string, path: string) returns (p: PathPolicy)
    ensures p == PolicyFor(verb, path)
    ensures p.maxRequests > 0 && p.resetMinutes > 0
  {
    PoliciesPositive();
    var found: Option<PathPolicy> := None;
    for i := 0 to |RestrictedEndpoints|
      invariant found == LastMatch(RestrictedEndpoints[..i], verb, path)
      invariant found.Some? ==> found.value.maxRequests > 0 && found.value.resetMinutes > 0
    {
      assert RestrictedEndpoints[..i + 1][..i] == RestrictedEndpoints[..i];
      if Applies(RestrictedEndpoints[i], verb, path) {
        found := Some(RestrictedEndpoints[i]);
      }
    }
    assert RestrictedEndpoints[..|RestrictedEndpoints|] == RestrictedEndpoints;
    if found.None? {
      p := PathPolicy(verb, path, GlobalLimit, 60);
    } else {
      p := found.value;
    }
  }

  /** The converse of `LastMatchSpec`: an applying entry that no later one overrides is the
      one chosen. */
  lemma {:induction false} LastMatchAt(table: seq<PathPolicy>, i: nat, verb: string, path: string)
    requires i < |table| && Applies(table[i], verb, path)
    requires forall j :: i < j < |table| ==> !Applies(table[j], verb, path)
    ensures LastMatch(table, verb, path) == Some(table[i])
    decreases |table|
  {
    if i < |table| - 1 {
      var front := table[..|table| - 1];
      assert forall j :: i < j < |front| ==> front[j] == table[j];
      LastMatchAt(front, i, verb, path);
    }
  }

  /** A path that differs from a prefix at some position inside the prefix does not start
      with it. */
  lemma DiffersAt(s: string, prefix: string, k: nat)
    requires k < |prefix| && (k >= |s| || s[k] != prefix[k])
    ensures !(prefix <= s)
  {
  }

  /** No entry after the sixth applies to `POST /auth/login`. */
  lemma NoLaterEntryForLogin()
    ensures forall j :: 5 < j < |RestrictedEndpoints| ==> !Applies(RestrictedEndpoints[j], "POST", "/auth/login")
  {
    var t, path := RestrictedEndpoints, "/auth/login";
    forall j | 5 < j < |t|
      ensures !Applies(t[j], "POST", path)
    {
      if t[j].verb == "POST" {
        if j == 6 {
          DiffersAt(path, t[j].path, 6);
        } else if j == 7 {
          DiffersAt(path, t[j].path, 5);
        } else {
          DiffersAt(path, t[j].path, 1);
        }
      }
    }
  }

  /** A listed endpoint gets its own policy. */
  lemma LoginPolicy()
    ensures PolicyFor("POST", "/auth/login") == PathPolicy("POST", "/auth/login", 30, 60)
  {
    NoLaterEntryForLogin();
    LastMatchAt(RestrictedEndpoints, 5, "POST", "/auth/login");
  }

  /** An endpoint no entry applies to gets the global policy for its own path. */
  lemma UnlistedPolicy()
    ensures PolicyFor("GET", "/manga") == PathPolicy("GET", "/manga", 300, 60)
  {
    var t := RestrictedEndpoints;
    assert forall i :: 0 <= i < |t| && i != 23 ==> t[i].verb != "GET";
    DiffersAt("/manga", t[23].path, 1);
    LastMatchSpec(t, "GET", "/manga");
  }

  /** No entry after the fifth applies to a POST path beginning `/ac`. */
  lemma NoLaterEntryForAccount(path: string)
    requires |path| > 2 && path[1] == 'a' && path[2] == 'c'
    ensures forall j :: 4 < j < |RestrictedEndpoints| ==> !Applies(RestrictedEndpoints[j], "POST", path)
  {
    var t := RestrictedEndpoints;
    forall j | 4 < j < |t|
      ensures !Applies(t[j], "POST", path)
    {
      if t[j].verb == "POST" {
        assert t[j].path[1] != 'a' || t[j].path[2] != 'c';
      }
    }
  }

  /** Where two entries apply, the later one is chosen. */
  lemma OverlappingPolicy()
    ensures Applies(RestrictedEndpoints[3], "POST", "/account/recover/{code}")
    ensures PolicyFor("POST", "/account/recover/{code}") == RestrictedEndpoints[4]
  {
    var t, path := RestrictedEndpoints, "/account/recover/{code}";
    NoLaterEntryForAccount(path);
    LastMatchAt(t, 4, "POST", path);
    assert t[3].path == path[..16];
  }

  // ---------------------------------------------------------------------------
  // The limiter's state and its steps.

  /** The fields of one `RateLimiter`: `_value`, `_waiters`, `_requests_queued`, the `resetted`
      event, the pending countdown, `requests_limit`, `reset_time` (seconds) and `_delay`. */
  datatype LimiterState = LimiterState(
    value: int,
    waiters: seq<nat>,
    queued: nat,
    resetted: bool,
    countdown: Option<int>,
    limit: int,
    resetTime: int,
    delay: Option<int>)

  /** `RateLimiter(path)` */
  function NewLimiter(p: PathPolicy): LimiterState {
    LimiterState(p.maxRequests, [], 0, true, None, p.maxRequests, p.resetMinutes * 60, None)
  }

  /** `_start_countdown(delay)` */
  function StartCountdownStep(s: LimiterState, delay: int): LimiterState {
    s.(resetted := false, countdown := Some(delay))
  }

  /** `self._delay or self.reset_time` */
  function CountdownDelay(s: LimiterState): int {
    if s.delay.Some? && s.delay.value != 0 then s.delay.value else s.resetTime
  }

  /** One pass of `acquire`: with no permit left the caller is queued and suspended (false);
      otherwise it takes a permit, starting the countdown if the window was reset (true). A
      woken waiter runs this step again. */
  function AcquireStep(s: LimiterState, waiter: nat): (LimiterState, bool) {
    if s.value <= 0 then
      (s.(queued := s.queued + 1, waiters := s.waiters + [waiter]), false)
    else
      var taken := s.(value := s.value - 1);
      if taken.resetted then (StartCountdownStep(taken, CountdownDelay(taken)), true)
      else (taken, true)
  }

  /** `release` */
  function ReleaseStep(s: LimiterState): LimiterState {
    if s.queued > 0 then s.(queued := s.queued - 1) else s
  }

  /** `_reset`, corrected for a count above the limit (see `ResetLoopAsWritten`): the count
      rises to the limit one step at a time and each step wakes the next waiter. */
  function ResetStep(s: LimiterState): LimiterState {
    var start := if s.value > s.limit then s.limit else s.value;
    var steps := s.limit - start;
    s.(value := s.limit, waiters := if steps >= |s.waiters| then [] else s.waiters[steps..])
  }

  /** `_countdown_reset_time` after its sleep: `reset`, then `resetted.set()`. */
  function CountdownStep(s: LimiterState): LimiterState
    requires s.countdown.Some?
  {
    ResetStep(s).(resetted := true, countdown := None)
  }

  /** `reboot_rate_limiter(requests_remaining, retry_after)` */
  function RebootStep(s: LimiterState, remaining: int, retryAfter: int): LimiterState {
    StartCountdownStep(s.(countdown := None, value := remaining), retryAfter)
  }

  /** `_reset` as written: `while self._value != limit: self._value += 1`, run for at most
      `fuel` rounds; `None` when the rounds run out with the guard still true. */
  function ResetLoopAsWritten(value: int, limit: int, fuel: nat): Option<int>
    decreases fuel
  {
    if value == limit then Some(value)
    else if fuel == 0 then None
    else ResetLoopAsWritten(value + 1, limit, fuel - 1)
  }

  /** Above the limit the loop of `_reset` never ends, however many rounds it is given. */
  lemma {:induction false} ResetAsWrittenNeverStops(value: int, limit: int, fuel: nat)
    requires value > limit
    ensures ResetLoopAsWritten(value, limit, fuel) == None
    decreases fuel
  {
    if fuel > 0 {
      ResetAsWrittenNeverStops(value + 1, limit, fuel - 1);
    }
  }

  /** At or below the limit it stops at the limit after `limit - value` rounds, which is what
      `ResetStep` computes. */
  lemma {:induction false} ResetAsWrittenStops(value: int, limit: int)
    requires value <= limit
    ensures ResetLoopAsWritten(value, limit, (limit - value) as nat) == Some(limit)
    decreases limit - value
  {
    if value < limit {
      ResetAsWrittenStops(value + 1, limit);
    }
  }

  /** The events that change a limiter. */
  datatype Event =
    | AcquireBy(waiter: nat)
    | ReleaseOne
    | CountdownDone
    | RebootWith(remaining: nat, retryAfter: int)

  /** One event; a countdown can only complete while one is pending. */
  function Apply(s: LimiterState, e: Event): LimiterState {
    match e
    case AcquireBy(w) => AcquireStep(s, w).0
    case ReleaseOne => ReleaseStep(s)
    case CountdownDone => if s.countdown.Some? then CountdownStep(s) else s
    case RebootWith(r, t) => RebootStep(s, r, t)
  }

  function RunEvents(s: LimiterState, events: seq<Event>): LimiterState
    decreases |events|
  {
    if events == [] then s else RunEvents(Apply(s, events[0]), events[1..])
  }

  /** What every reachable limiter satisfies: permits never negative, a countdown pending
      exactly while the window is not reset, and `_delay` never set. */
  ghost predicate Inv(s: LimiterState) {
    && s.value >= 0
    && s.limit > 0
    && (s.resetted <==> s.countdown.None?)
    && s.delay.None?
  }

  /** The invariant holds from creation on, whatever events follow (server-reported
      remaining counts being non-negative). */
  lemma {:induction false} InvAlwaysHolds(s: LimiterState, events: seq<Event>)
    requires Inv(s)
    ensures Inv(RunEvents(s, events))
    decreases |events|
  {
    if events != [] {
      InvAlwaysHolds(Apply(s, events[0]), events[1..]);
    }
  }

  /** A new limiter satisfies the invariant and counts its window in seconds. */
  lemma NewLimiterValid(p: PathPolicy)
    requires p.maxRequests > 0
    ensures Inv(NewLimiter(p))
    ensures NewLimiter(p).resetTime == p.resetMinutes * 60
  {
  }

  /** Acquires and releases only, with no countdown completing and no reboot. */
  predicate NoResets(events: seq<Event>) {
    forall i :: 0 <= i < |events| ==> events[i].AcquireBy? || events[i].ReleaseOne?
  }

  /** While a countdown is pending, acquires and releases never start another or replace it:
      one window gets at most one countdown. */
  lemma {:induction false} PendingCountdownKept(s: LimiterState, events: seq<Event>)
    requires Inv(s) && s.countdown.Some?
    requires NoResets(events)
    ensures RunEvents(s, events).countdown == s.countdown
    decreases |events|
  {
    if events != [] {
      var t := Apply(s, events[0]);
      assert t.countdown == s.countdown && Inv(t);
      PendingCountdownKept(t, events[1..]);
    }
  }

  /** Reboot cancels whatever countdown was pending, sets the count to the server's figure and
      starts exactly one countdown for `retryAfter`, which later acquires and releases keep. */
  lemma RebootReplacesCountdown(s: LimiterState, remaining: nat, retryAfter: int, events: seq<Event>)
    requires Inv(s)
    requires NoResets(events)
    ensures var r := RebootStep(s, remaining, retryAfter);
            && r.value == remaining && r.countdown == Some(retryAfter) && !r.resetted
            && r.waiters == s.waiters && Inv(r)
            && RunEvents(r, events).countdown == Some(retryAfter)
  {
    PendingCountdownKept(RebootStep(s, remaining, retryAfter), events);
  }

  /** `k` acquires in a row. */
  function AcquireAll(s: LimiterState, ids: seq<nat>): LimiterState
    decreases |ids|
  {
    if ids == [] then s else AcquireAll(AcquireStep(s, ids[0]).0, ids[1..])
  }

  /** From a new limiter, up to `maxRequests` acquires are all granted without waiting; the
      first of them starts the one countdown, for `reset_time` seconds. */
  lemma {:induction false} FreshLimiterAdmits(p: PathPolicy, ids: seq<nat>)
    requires 0 < |ids| <= p.maxRequests
    ensures var s := AcquireAll(NewLimiter(p), ids);
            && s.value == p.maxRequests - |ids| && s.waiters == []
            && s.countdown == Some(p.resetMinutes * 60) && !s.resetted
  {
    var s1 := AcquireStep(NewLimiter(p), ids[0]).0;
    assert s1.value == p.maxRequests - 1 && s1.countdown == Some(p.resetMinutes * 60);
    AdmitsWhileCounting(s1, ids[1..]);
  }

  /** Helper for `FreshLimiterAdmits`: with permits to spare and a countdown pending, every
      acquire is granted and nothing is queued. */
  lemma {:induction false} AdmitsWhileCounting(s: LimiterState, ids: seq<nat>)
    requires |ids| <= s.value && !s.resetted && s.waiters == []
    ensures var t := AcquireAll(s, ids);
            && t.value == s.value - |ids| && t.waiters == [] && t.countdown == s.countdown
            && !t.resetted
    decreases |ids|
  {
    if ids != [] {
      AdmitsWhileCounting(AcquireStep(s, ids[0]).0, ids[1..]);
    }
  }

  /** Once the permits are gone, an acquire suspends its caller at the back of the queue and
      leaves the count at zero. */
  lemma ExhaustedLimiterQueues(p: PathPolicy, ids: seq<nat>, w: nat)
    requires 0 < |ids| == p.maxRequests
    ensures var s := AcquireAll(NewLimiter(p), ids);
            var (t, granted) := AcquireStep(s, w);
            !granted && t.value == 0 && t.waiters == [w] && t.queued == 1
  {
    FreshLimiterAdmits(p, ids);
    QueuedCountUnchanged(NewLimiter(p).(value := p.maxRequests), ids);
  }

  /** Granted acquires do not touch the queued-request count. */
  lemma {:induction false} QueuedCountUnchanged(s: LimiterState, ids: seq<nat>)
    requires |ids| <= s.value
    ensures AcquireAll(s, ids).queued == s.queued
    decreases |ids|
  {
    if ids != [] {
      QueuedCountUnchanged(AcquireStep(s, ids[0]).0, ids[1..]);
    }
  }

  /** A completed countdown refills the pool to the limit and wakes waiters strictly in
      arrival order, one per restored permit. */
  lemma CountdownWakesInOrder(s: LimiterState)
    requires Inv(s) && s.countdown.Some? && s.value <= s.limit
    ensures var t := CountdownStep(s);
            var n := s.limit - s.value;
            && t.value == s.limit && t.resetted && t.countdown.None?
            && (n >= |s.waiters| ==> t.waiters == [])
            && (n < |s.waiters| ==> s.waiters == s.waiters[..n] + t.waiters)
  {
  }

  // ---------------------------------------------------------------------------
  // The limiter object.

  class RateLimiter {
    const verb: string
    const path: string
    const requestsLimit: int
    const resetTime: int
    const delay: Option<int>
    var value: int
    var waiters: seq<nat>
    var requestsQueued: nat
    var resetted: bool
    var countdown: Option<int>

    /** The abstract value of this limiter. */
    function State(): LimiterState
      reads this
    {
      LimiterState(value, waiters, requestsQueued, resetted, countdown, requestsLimit, resetTime, delay)
    }

    constructor (p: PathPolicy)
      ensures State() == NewLimiter(p)
      ensures verb == p.verb && path == p.path
    {
      verb, path := p.verb, p.path;
      requestsLimit := p.maxRequests;
      resetTime := p.resetMinutes * 60;
      delay := None;
      value := p.maxRequests;
      waiters := [];
      requestsQueued := 0;
      resetted := true;
      countdown := None;
    }

    /** `acquire`, one pass of its `while self._value <= 0` loop. */
    method Acquire(waiter: nat) returns (granted: bool)
      modifies this
      ensures (State(), granted) == AcquireStep(old(State()), waiter)
    {
      if value <= 0 {
        requestsQueued := requestsQueued + 1;
        waiters := waiters + [waiter];
        granted := false;
        return;
      }
      value := value - 1;
      if resetted {
        var d := if delay.Some? && delay.value != 0 then delay.value else resetTime;
        StartCountdown(d);
      }
      granted := true;
    }

    /** `_start_countdown` */
    method StartCountdown(d: int)
      modifies this
      ensures State() == StartCountdownStep(old(State()), d)
    {
      resetted := false;
      countdown := Some(d);
    }

    /** `_wake_up_next`: the head waiter, if any, leaves the queue and is resumed. */
    method WakeUpNext() returns (woken: Option<nat>)
      modifies this
      ensures old(waiters) == [] ==> woken.None? && waiters == []
      ensures old(waiters) != [] ==> woken == Some(old(waiters)[0]) && waiters == old(waiters)[1..]
      ensures value == old(value) && requestsQueued == old(requestsQueued)
      ensures resetted == old(resetted) && countdown == old(countdown)
    {
      if waiters == [] {
        woken := None;
      } else {
        woken := Some(waiters[0]);
        waiters := waiters[1..];
      }
    }

    /** `_wake_up_all`: every waiter leaves the queue and is resumed, in queue order. Nothing in
        the module calls it. */
    method WakeUpAll() returns (woken: seq<nat>)
      modifies this
      ensures woken == old(waiters) && waiters == []
      ensures value == old(value) && requestsQueued == old(requestsQueued)
      ensures resetted == old(resetted) && countdown == old(countdown)
    {
      woken := [];
      while waiters != []
        invariant woken + waiters == old(waiters)
        invariant value == old(value) && requestsQueued == old(requestsQueued)
        invariant resetted == old(resetted) && countdown == old(countdown)
        decreases |waiters|
      {
        woken := woken + [waiters[0]];
        waiters := waiters[1..];
      }
    }

    /** `reset` / `_reset`. A count above the limit is brought down to it first; as written the
        source loops forever in that case (see `ResetLoopAsWritten`). */
    method Reset()
      modifies this
      ensures State() == ResetStep(old(State()))
    {
      if value > requestsLimit {
        value := requestsLimit;
      }
      ghost var start, w0 := value, waiters;
      while value != requestsLimit
        invariant start <= value <= requestsLimit
        invariant waiters == if value - start >= |w0| then [] else w0[value - start..]
        invariant requestsQueued == old(requestsQueued) && resetted == old(resetted)
        invariant countdown == old(countdown)
        decreases requestsLimit - value
      {
        value := value + 1;
        var _ := WakeUpNext();
      }
    }

    /** `_reset_without_notify(limit)`; its loop ends only when called at or below `limit`,
        which its one caller guarantees by passing the count it has just set. */
    method ResetWithoutNotify(limit: int)
      requires value <= limit
      modifies this
      ensures value == limit
      ensures waiters == old(waiters) && requestsQueued == old(requestsQueued)
      ensures resetted == old(resetted) && countdown == old(countdown)
    {
      while value != limit
        invariant value <= limit
        invariant waiters == old(waiters) && requestsQueued == old(requestsQueued)
        invariant resetted == old(resetted) && countdown == old(countdown)
        decreases limit - value
      {
        value := value + 1;
      }
    }

    /** `_countdown_reset_time` once its sleep is over. */
    method CountdownFired()
      requires countdown.Some?
      modifies this
      ensures State() == CountdownStep(old(State()))
    {
      Reset();
      resetted := true;
      countdown := None;
    }

    /** `reboot_rate_limiter` */
    method RebootRateLimiter(requestsRemaining: int, retryAfter: int)
      modifies this
      ensures State() == RebootStep(old(State()), requestsRemaining, retryAfter)
    {
      countdown := None;
      value := requestsRemaining;
      ResetWithoutNotify(requestsRemaining);
      StartCountdown(retryAfter);
    }

    /** `release` */
    method Release()
      modifies this
      ensures State() == ReleaseStep(old(State()))
    {
      if requestsQueued > 0 {
        requestsQueued := requestsQueued - 1;
      }
    }
  }

  /** `_stored_rate_limiters` and `get_rate_limiter`. */
  class Registry {
    var stored: map<string, RateLimiter>

    constructor ()
      ensures stored == map[]
    {
      stored := map[];
    }

    /** A key seen before yields the cached limiter and leaves the registry as it was; a new
        key gets a fresh limiter for its policy, added without touching the other entries. */
    method GetRateLimiter(verb: string, path: string) returns (r: RateLimiter)
      modifies this
      ensures Key(verb, path) in old(stored) ==> r == old(stored)[Key(verb, path)] && stored == old(stored)
      ensures Key(verb, path) !in old(stored) ==>
                && fresh(r) && stored == old(stored)[Key(verb, path) := r]
                && r.State() == NewLimiter(PolicyFor(verb, path))
                && r.verb == PolicyFor(verb, path).verb && r.path == PolicyFor(verb, path).path
      ensures old(stored).Keys <= stored.Keys
      ensures forall k :: k in old(stored) ==> stored[k] == old(stored)[k]
    {
      var name := Key(verb, path);
      if name in stored {
        r := stored[name];
        return;
      }
      var p := SelectPolicy(verb, path);
      r := new RateLimiter(p);
      stored := stored[name := r];
    }
  }
}
