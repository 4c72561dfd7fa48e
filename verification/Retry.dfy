/** When the worker runs which server again: notifications, the retry tick, the
    periodic resync, and the back-off after errors. Durations and instants are
    in nanoseconds. */
module Retry {
  import opened Domain

  const U32_MAX: nat := 0xFFFF_FFFF
  const MAX_ERROR_RETRY_DELAY: nat := 300_000_000_000
  // The longest duration the type can hold.
  const DURATION_MAX: nat := 18446744073709551615_999999999

  datatype Outcome = Stable | Awaiting | Failed(retryAfter: Option<nat>)

  datatype RetryState = RetryState(failures: nat, retryAt: nat)

  function Min(a: nat, b: nat): nat {
    if a < b then a else b
  }

  function Pow2(n: nat): (r: nat)
    ensures r >= 1
  {
    if n == 0 then 1 else 2 * Pow2(n - 1)
  }

  // `error_retry_delay`
  function ErrorRetryDelay(base: nat, failures: nat): nat {
    var exponent := Min(if failures == 0 then 0 else failures - 1, 6);
    var product := base * Pow2(exponent);
    Min(if product > DURATION_MAX then MAX_ERROR_RETRY_DELAY else product, MAX_ERROR_RETRY_DELAY)
  }

  lemma {:induction false} Pow2Grows(m: nat, n: nat)
    requires m <= n
    ensures Pow2(m) <= Pow2(n)
  {
    if m < n {
      Pow2Grows(m, n - 1);
    }
  }

  lemma ProductGrows(base: nat, p: nat, q: nat)
    requires 1 <= p <= q
    ensures base <= base * p <= base * q
  {}

  /** Delays after errors stay between the retry interval and five minutes, and never shrink
      as failures pile up. */
  lemma DelaysAreBoundedAndGrow(base: nat, m: nat, n: nat)
    requires m <= n
    ensures Min(base, MAX_ERROR_RETRY_DELAY) <= ErrorRetryDelay(base, m)
    ensures ErrorRetryDelay(base, m) <= ErrorRetryDelay(base, n) <= MAX_ERROR_RETRY_DELAY
  {
    var a := Min(if m == 0 then 0 else m - 1, 6);
    var b := Min(if n == 0 then 0 else n - 1, 6);
    Pow2Grows(a, b);
    ProductGrows(base, Pow2(a), Pow2(b));
  }

  /** The first delay is the retry interval; each of the next six is twice the one before; from
      then on it stays; and none is longer than five minutes. */
  function Backoff(base: nat, n: nat): nat {
    if n <= 1 then Min(base, MAX_ERROR_RETRY_DELAY)
    else if n <= 7 then Min(2 * Backoff(base, n - 1), MAX_ERROR_RETRY_DELAY)
    else Backoff(base, 7)
  }

  /** The code's power of two, with its overflow case, is that back-off. */
  lemma {:induction false} DelaysDouble(base: nat, n: nat)
    ensures ErrorRetryDelay(base, n) == Backoff(base, n)
    decreases n
  {
    if n <= 1 {
      assert Pow2(0) == 1;
    } else if n <= 7 {
      DelaysDouble(base, n - 1);
      assert Pow2(n - 1) == 2 * Pow2(n - 2);
      assert base * Pow2(n - 1) == 2 * (base * Pow2(n - 2));
    } else {
      DelaysDouble(base, 7);
    }
  }

  // The delay after an error, which may carry the provider's own wish.
  function DelayAfter(base: nat, failures: nat, retryAfter: Option<nat>): nat {
    if retryAfter.Some? then Min(Max(retryAfter.value, base), MAX_ERROR_RETRY_DELAY)
        else ErrorRetryDelay(base, failures)
  }

  function Saturating(n: nat): nat {
    Min(n, U32_MAX)
  }

  // Errors since the last run that did not fail.
  function TrailingErrors(runs: seq<Outcome>): nat {
    if |runs| > 0 && runs[|runs| - 1].Failed? then 1 + TrailingErrors(runs[..|runs| - 1]) else 0
  }

  // A server whose last run failed or is waiting for its agent.
  ghost predicate Unfinished(runs: seq<Outcome>) {
    |runs| > 0 && runs[|runs| - 1] != Stable
  }

  lemma TrailingMore(runs: seq<Outcome>, last: Outcome)
    ensures TrailingErrors(runs + [last]) == if last.Failed? then 1 + TrailingErrors(runs) else 0
  {
    assert (runs + [last])[..|runs|] == runs;
  }

  // What is written down about a server after a run, given the failures on record before it.
  function Schedule(base: nat, previous: nat, outcome: Outcome, now: nat): Option<RetryState> {
    match outcome
    case Stable => None
    case Awaiting => Some(RetryState(0, now + base))
    case Failed(retryAfter) =>
      var failures := if previous == U32_MAX then previous else previous + 1;
      Some(RetryState(failures, now + DelayAfter(base, failures, retryAfter)))
  }

  // How long a server waits whose last runs these were.
  ghost function WaitOf(base: nat, runs: seq<Outcome>): nat
    requires Unfinished(runs)
  {
    match runs[|runs| - 1]
    case Failed(Some(wish)) => Min(Max(wish, base), MAX_ERROR_RETRY_DELAY)
    case Failed(None) => Backoff(base, TrailingErrors(runs))
    case _ => base
  }

  // The record of a server with these runs, the last of them at `ranAt`.
  ghost predicate EntryOk(entry: RetryState, runs: seq<Outcome>, ranAt: nat, base: nat) {
    && Unfinished(runs) && entry.failures == Saturating(TrailingErrors(runs))
    && entry.retryAt == ranAt + WaitOf(base, runs)
  }

  lemma ScheduleIsOk(base: nat, runs: seq<Outcome>, outcome: Outcome, now: nat)
    ensures var next := Schedule(base, Saturating(TrailingErrors(runs)), outcome, now);
            if outcome == Stable then next.None? else next.Some? && EntryOk(next.value, runs + [outcome], now, base)
  {
    TrailingMore(runs, outcome);
    if outcome.Failed? {
      DelaysDouble(base, Saturating(1 + TrailingErrors(runs)));
    }
  }

  predicate Distinct(ids: seq<nat>) {
    forall j, k :: 0 <= j < k < |ids| ==> ids[j] != ids[k]
  }

  // Exactly the unfinished servers are pending, with the right count and due time.
  ghost predicate Books(base: nat, clock: nat, pending: map<nat, RetryState>, runs: map<nat, seq<Outcome>>,
      ranAt: map<nat, nat>) {
    && (forall s :: s in runs && Unfinished(runs[s]) ==> s in pending)
    && (forall s ::
        s in pending ==> s in runs && s in ranAt && ranAt[s] <= clock && EntryOk(pending[s], runs[s], ranAt[s], base))
  }

  // The server has a retry still to come.
  ghost predicate Deferred(pending: map<nat, RetryState>, server: nat, now: nat) {
    server in pending && pending[server].retryAt > now
  }

  // What the worker waits for: a notification, the retry tick, the list of the periodic resync.
  datatype Arrival = Notified(server: nat) | Tick | Listed(servers: seq<nat>)

  ghost predicate Concerns(arrival: Arrival, s: nat, pending: map<nat, RetryState>, now: nat) {
    match arrival
    case Notified(server) => s == server
    case Tick => s in pending && pending[s].retryAt <= now
    case Listed(servers) => s in servers && !Deferred(pending, s, now)
  }

  function Scheduled(pending: map<nat, RetryState>, server: nat, next: Option<RetryState>): map<nat, RetryState> {
    if next.Some? then pending[server := next.value] else pending - {server}
  }

  lemma {:induction false} BackoffIsLong(base: nat, n: nat)
    ensures Backoff(base, n) >= Min(base, MAX_ERROR_RETRY_DELAY)
  {
    if 1 < n <= 7 {
      BackoffIsLong(base, n - 1);
    } else if n > 7 {
      BackoffIsLong(base, 7);
    }
  }

  lemma BooksPut(base: nat, clock: nat, pending: map<nat, RetryState>, runs: map<nat, seq<Outcome>>,
      ranAt: map<nat, nat>, server: nat, now: nat, next: Option<RetryState>, history: seq<Outcome>)
    requires Books(base, clock, pending, runs, ranAt) && now >= clock
    requires if next.Some? then EntryOk(next.value, history, now, base) else !Unfinished(history)
    ensures Books(base, now, Scheduled(pending, server, next), runs[server := history], ranAt[server := now])
  {}

  lemma BooksAfterRun(base: nat, clock: nat, pending: map<nat, RetryState>, runs: map<nat, seq<Outcome>>,
      ranAt: map<nat, nat>, server: nat, now: nat, outcome: Outcome)
    requires Books(base, clock, pending, runs, ranAt) && now >= clock
    ensures var before := RunsIn(runs, server);
            var next := Schedule(base, if server in pending then pending[server].failures else 0, outcome, now);
            Books(base, now, Scheduled(pending, server, next), runs[server := before + [outcome]], ranAt[server := now])
            && (next.Some? ==> next.value.retryAt >= now + Min(base, MAX_ERROR_RETRY_DELAY))
  {
    var before := RunsIn(runs, server);
    assert (if server in pending then pending[server].failures else 0) == Saturating(TrailingErrors(before)) by {
      assert server !in pending ==> TrailingErrors(before) == 0;
    }
    ScheduleIsOk(base, before, outcome, now);
    var next := Schedule(base, Saturating(TrailingErrors(before)), outcome, now);
    BackoffIsLong(base, TrailingErrors(before + [outcome]));
    BooksPut(base, clock, pending, runs, ranAt, server, now, next, before + [outcome]);
  }

  ghost function RunsIn(runs: map<nat, seq<Outcome>>, server: nat): seq<Outcome> {
    if server in runs then runs[server] else []
  }

  ghost function RecordIn(pending: map<nat, RetryState>, server: nat): Option<RetryState> {
    if server in pending then Some(pending[server]) else None
  }

  ghost predicate Same(pending: map<nat, RetryState>, runs: map<nat, seq<Outcome>>,
      pending': map<nat, RetryState>, runs': map<nat, seq<Outcome>>, server: nat) {
    RecordIn(pending', server) == RecordIn(pending, server) && RunsIn(runs', server) == RunsIn(runs, server)
  }

  ghost predicate Ran(runs: map<nat, seq<Outcome>>, runs': map<nat, seq<Outcome>>, server: nat) {
    |RunsIn(runs', server)| == |RunsIn(runs, server)| + 1
  }

  // The first `k` of `ids` have run once, except those to be skipped, and nobody else has.
  ghost predicate Progress(pending: map<nat, RetryState>, runs: map<nat, seq<Outcome>>,
      pending': map<nat, RetryState>, runs': map<nat, seq<Outcome>>, ids: seq<nat>, skip: set<nat>, k: nat) {
    && (forall j :: 0 <= j < k <= |ids| && ids[j] !in skip ==> Ran(runs, runs', ids[j]))
    && (forall j :: k <= j < |ids| ==> Same(pending, runs, pending', runs', ids[j]))
    && (forall s :: s !in ids || s in skip ==> Same(pending, runs, pending', runs', s))
  }

  lemma ProgressMore(p0: map<nat, RetryState>, r0: map<nat, seq<Outcome>>, p: map<nat, RetryState>,
      r: map<nat, seq<Outcome>>, p': map<nat, RetryState>, r': map<nat, seq<Outcome>>, ids: seq<nat>, skip: set<nat>,
      k: nat)
    requires k < |ids| && Distinct(ids) && Progress(p0, r0, p, r, ids, skip, k)
    requires forall s :: s != ids[k] ==> RecordIn(p', s) == RecordIn(p, s) && RunsIn(r', s) == RunsIn(r, s)
    requires if ids[k] in skip then p' == p && r' == r else Ran(r, r', ids[k])
    ensures Progress(p0, r0, p', r', ids, skip, k + 1)
  {}

  /** The worker's bookkeeping. `runs` and `ranAt` are what happened to each server. */
  class Worker {
    const base: nat
    var clock: nat
    var pending: map<nat, RetryState>
    ghost var runs: map<nat, seq<Outcome>>
    ghost var ranAt: map<nat, nat>

    ghost function Runs(server: nat): seq<Outcome>
      reads this
    {
      RunsIn(runs, server)
    }

    ghost predicate Valid()
      reads this
    {
      base > 0 && Books(base, clock, pending, runs, ranAt)
    }

    constructor (base: nat)
      requires base > 0
      ensures Valid() && this.base == base && pending == map[] && clock == 0
    {
      this.base, clock, pending, runs, ranAt := base, 0, map[], map[], map[];
    }

    // Neither the record nor the history of `server` has changed.
    twostate predicate Untouched(server: nat)
      reads this
    {
      Same(old(pending), old(runs), pending, runs, server)
    }

    // A server has run once more in this call.
    twostate predicate RanOnce(server: nat)
      reads this
    {
      Ran(old(runs), runs, server)
    }

    /** `reconcile_and_schedule`, with the removal of the old record before it. */
    method Reconcile(server: nat)
      requires Valid()
      modifies this
      ensures Valid() && clock >= old(clock)
      ensures forall s :: s != server ==> RecordIn(pending, s) == RecordIn(old(pending), s)
      ensures forall s :: s != server ==> RunsIn(runs, s) == RunsIn(old(runs), s)
      ensures server in runs && |Runs(server)| == |old(Runs(server))| + 1 && old(Runs(server)) <= Runs(server)
      ensures server in pending ==> pending[server].retryAt > old(clock)
    {
      var passed: nat :| true;
      var outcome: Outcome := *;
      var next := Plan(server, outcome, clock + passed);
      clock := clock + passed;
      pending := Scheduled(pending, server, next);
      runs, ranAt := runs[server := Runs(server) + [outcome]], ranAt[server := clock];
    }

    // The record to keep, given how the run ended.
    method Plan(server: nat, outcome: Outcome, now: nat) returns (next: Option<RetryState>)
      requires Valid() && now >= clock
      ensures Books(base, now, Scheduled(pending, server, next), runs[server := Runs(server) + [outcome]],
          ranAt[server := now])
      ensures next.Some? <==> outcome != Stable
      ensures next.Some? ==> next.value.retryAt > now
    {
      var previous := if server in pending then pending[server].failures else 0;
      BooksAfterRun(base, clock, pending, runs, ranAt, server, now, outcome);
      next := Schedule(base, previous, outcome, now);
    }

    // The pending servers whose time has come, in some order.
    method Due() returns (ids: seq<nat>)
      ensures forall s :: s in ids <==> s in pending && pending[s].retryAt <= clock
      ensures Distinct(ids)
    {
      var left := set s | s in pending && pending[s].retryAt <= clock;
      ids := [];
      while left != {}
        invariant Distinct(ids) && forall s :: s in ids ==> s !in left
        invariant forall s :: s in ids || s in left <==> s in pending && pending[s].retryAt <= clock
      {
        var server :| server in left;
        ids, left := ids + [server], left - {server};
      }
    }

    /** The retry tick: exactly the servers that are due run, each once. */
    method RetryTick()
      requires Valid()
      modifies this
      ensures Valid() && clock >= old(clock)
      ensures forall s :: s in old(pending) && old(pending)[s].retryAt <= old(clock) ==> RanOnce(s)
      ensures forall s :: !(s in old(pending) && old(pending)[s].retryAt <= old(clock)) ==> Untouched(s)
    {
      var ids := Due();
      RunEach(ids);
    }

    method RunEach(ids: seq<nat>)
      requires Valid() && Distinct(ids)
      modifies this
      ensures Valid() && clock >= old(clock)
      ensures forall s :: s in ids ==> RanOnce(s)
      ensures forall s :: s !in ids ==> Untouched(s)
    {
      for k := 0 to |ids|
        invariant Valid() && clock >= old(clock)
        invariant Progress(old(pending), old(runs), pending, runs, ids, {}, k)
      {
        ghost var p, r := pending, runs;
        Reconcile(ids[k]);
        ProgressMore(old(pending), old(runs), p, r, pending, runs, ids, {}, k);
      }
    }

    /** The resync over the listed servers: each runs once, unless its retry is still to come. */
    method Resync(servers: seq<nat>)
      requires Valid() && Distinct(servers)
      modifies this
      ensures Valid() && clock >= old(clock)
      ensures forall s :: s in servers && !Deferred(old(pending), s, old(clock)) ==> RanOnce(s)
      ensures forall s :: s !in servers || Deferred(old(pending), s, old(clock)) ==> Untouched(s)
    {
      var now := clock;
      ghost var skip := set s | s in pending && Deferred(pending, s, now);
      for k := 0 to |servers|
        invariant Valid() && clock >= now
        invariant Progress(old(pending), old(runs), pending, runs, servers, skip, k)
      {
        var server := servers[k];
        ghost var p, r := pending, runs;
        assert RecordIn(pending, server) == RecordIn(old(pending), server);
        if !(server in pending && pending[server].retryAt > now) {
          Reconcile(server);
        }
        ProgressMore(old(pending), old(runs), p, r, pending, runs, servers, skip, k);
      }
    }

    /** One arrival: a notified server runs, a tick runs those that are due, a resync those that
        have no retry still to come; nobody else does. */
    method Handle(arrival: Arrival)
      requires Valid() && (arrival.Listed? ==> Distinct(arrival.servers))
      modifies this
      ensures Valid() && clock >= old(clock)
      ensures forall s :: if Concerns(arrival, s, old(pending), old(clock)) then RanOnce(s) else Untouched(s)
    {
      match arrival
      case Notified(server) => Reconcile(server);
      case Tick => RetryTick();
      case Listed(servers) => Resync(servers);
    }

    /** `run`: whatever notifications and ticks arrive, every server whose last run failed or is
        waiting stays pending, counted correctly, and due in time. */
    method Run(arrivals: seq<Arrival>)
      requires Valid() && forall k :: 0 <= k < |arrivals| && arrivals[k].Listed? ==> Distinct(arrivals[k].servers)
      modifies this
      ensures Valid() && clock >= old(clock)
      ensures forall s :: s in runs && Unfinished(runs[s]) <==> s in pending
      ensures forall s :: s in pending ==> pending[s].failures == Saturating(TrailingErrors(runs[s]))
    {
      for k := 0 to |arrivals|
        invariant Valid() && clock >= old(clock)
      {
        Handle(arrivals[k]);
      }
    }
  }
}
