/**
 * The in-memory sliding-window rate limiter (common/rate-limit.go).
 *
 * A key's queue holds at most `max` accept times and is dropped by a background sweep, so it is
 * a truncation of the key's full accept history. The theorems say the truncation is invisible:
 * every answer equals that of a limiter that keeps the whole history and counts the window.
 */
module RateLimiter {

  /** What a caller passes for a key; `rateLimitFactory` fixes one pair per key prefix. */
  datatype Policy = Policy(max: nat, duration: int)

  /** Accept times per key, oldest first. */
  type Store = map<string, seq<int>>

  datatype Event = Request(key: string, now: int) | Sweep(now: int)

  // ----- The limiter as written

  class InMemoryRateLimiter {
    var store: Store
    const expiration: int

    ghost predicate Valid()
      reads this
    {
      forall key :: key in store ==> store[key] != []
    }

    constructor (expiration: int)
      ensures Valid() && store == map[] && this.expiration == expiration
    {
      this.expiration := expiration;
      store := map[];
    }

    method Request(key: string, maxRequestNum: nat, duration: int, now: int) returns (ok: bool)
      requires Valid()
      modifies this`store
      ensures Valid()
      ensures ok == Admits(old(store), key, Policy(maxRequestNum, duration), now)
      ensures store == AfterRequest(old(store), key, Policy(maxRequestNum, duration), now)
    {
      if key in store {
        var queue := store[key];
        if |queue| < maxRequestNum {
          store := store[key := queue + [now]];
          return true;
        } else if now - queue[0] >= duration {
          queue := queue[1..];
          store := store[key := queue + [now]];
          return true;
        } else {
          return false;
        }
      }
      store := store[key := []];
      store := store[key := store[key] + [now]];
      return true;
    }

    /** One round of the background loop. */
    method ClearExpiredItems(now: int)
      requires Valid()
      modifies this`store
      ensures Valid()
      ensures store == AfterSweep(old(store), expiration, now)
    {
      var keys := store.Keys;
      while keys != {}
        invariant keys <= store.Keys <= old(store).Keys
        invariant forall key :: key in store ==> store[key] == old(store)[key] && store[key] != []
        invariant forall key :: key in old(store) && key !in keys ==>
          (key in store <==> !Expired(old(store)[key], expiration, now))
        decreases keys
      {
        var key :| key in keys;
        var queue := store[key];
        if |queue| == 0 || now - queue[|queue| - 1] > expiration {
          store := store - {key};
        }
        keys := keys - {key};
      }
    }
  }

  predicate Expired(queue: seq<int>, expiration: int, now: int) {
    |queue| == 0 || now - queue[|queue| - 1] > expiration
  }

  function Queue(store: Store, key: string): seq<int> {
    if key in store then store[key] else []
  }

  predicate Admits(store: Store, key: string, p: Policy, now: int) {
    var queue := Queue(store, key);
    queue == [] || |queue| < p.max || now - queue[0] >= p.duration
  }

  function AfterRequest(store: Store, key: string, p: Policy, now: int): Store {
    var queue := Queue(store, key);
    if !Admits(store, key, p, now) then store
    else if queue == [] || |queue| < p.max then store[key := queue + [now]]
    else store[key := queue[1..] + [now]]
  }

  function AfterSweep(store: Store, expiration: int, now: int): Store {
    map key | key in store && !Expired(store[key], expiration, now) :: store[key]
  }

  /** `Init` starts the background loop only for a positive expiration. */
  function Swept(store: Store, expiration: int, now: int): Store {
    if expiration > 0 then AfterSweep(store, expiration, now) else store
  }

  /** No sweep can forget an accept that a window still reaches. */
  ghost predicate Remembers(policy: string -> Policy, expiration: int) {
    expiration > 0 ==> forall key :: policy(key).duration <= expiration + 1
  }

  /** The answers to the requests of a run, in order. */
  function Answers(store: Store, policy: string -> Policy, expiration: int, run: seq<Event>): seq<bool>
    decreases run
  {
    if run == [] then []
    else match run[0]
      case Request(key, now) =>
        [Admits(store, key, policy(key), now)] +
        Answers(AfterRequest(store, key, policy(key), now), policy, expiration, run[1..])
      case Sweep(now) =>
        Answers(Swept(store, expiration, now), policy, expiration, run[1..])
  }

  // ----- The full-history specification

  /** A request always fits an empty queue, so a configured limit of 0 acts as 1. */
  function Limit(p: Policy): (n: nat)
    ensures n >= 1 && (p.max >= 1 ==> n == p.max)
  {
    if p.max == 0 then 1 else p.max
  }

  /** How many of the accept times lie in (lo, hi]. */
  function InWindow(history: seq<int>, lo: int, hi: int): nat {
    if history == [] then 0
    else
      var n := |history| - 1;
      InWindow(history[..n], lo, hi) + if lo < history[n] <= hi then 1 else 0
  }

  predicate SpecAdmits(history: seq<int>, p: Policy, now: int) {
    InWindow(history, now - p.duration, now) < Limit(p)
  }

  /** Accept history of every key; nothing is ever dropped. */
  function SpecAfter(histories: Store, key: string, p: Policy, now: int): Store {
    var history := Queue(histories, key);
    if SpecAdmits(history, p, now) then histories[key := history + [now]] else histories
  }

  function SpecAnswers(histories: Store, policy: string -> Policy, run: seq<Event>): seq<bool>
    decreases run
  {
    if run == [] then []
    else match run[0]
      case Request(key, now) =>
        [SpecAdmits(Queue(histories, key), policy(key), now)] +
        SpecAnswers(SpecAfter(histories, key, policy(key), now), policy, run[1..])
      case Sweep(_) => SpecAnswers(histories, policy, run[1..])
  }

  /** The accept history the specification ends a run with. */
  function SpecHistories(histories: Store, policy: string -> Policy, run: seq<Event>): Store
    decreases run
  {
    if run == [] then histories
    else match run[0]
      case Request(key, now) => SpecHistories(SpecAfter(histories, key, policy(key), now), policy, run[1..])
      case Sweep(_) => SpecHistories(histories, policy, run[1..])
  }

  ghost predicate Monotone(run: seq<Event>, clock: int) {
    run == [] || (clock <= run[0].now && Monotone(run[1..], run[0].now))
  }

  // ----- Refinement

  predicate Sorted(s: seq<int>) {
    forall i, j :: 0 <= i < j < |s| ==> s[i] <= s[j]
  }

  /** `queue` is the end of `history`, and all that was cut off has left the window for good. */
  ghost predicate Related(queue: seq<int>, history: seq<int>, p: Policy, clock: int) {
    && |queue| <= |history|
    && history == Gone(queue, history) + queue
    && Core(Gone(queue, history), queue, p, clock)
    && Spaced(history, p)
  }

  ghost function Gone(queue: seq<int>, history: seq<int>): seq<int>
    requires |queue| <= |history|
  {
    history[..|history| - |queue|]
  }

  ghost predicate Core(gone: seq<int>, queue: seq<int>, p: Policy, clock: int) {
    && |queue| <= Limit(p)
    && Sorted(queue)
    && AtMost(queue, clock)
    && AtMost(gone, clock - p.duration)
    && AtMost(gone, clock)
  }

  predicate AtMost(s: seq<int>, bound: int) {
    forall i :: 0 <= i < |s| ==> s[i] <= bound
  }

  /** Any `Limit(p) + 1` consecutive accepts span at least the duration. */
  ghost predicate Spaced(history: seq<int>, p: Policy) {
    forall i :: 0 <= i < |history| - Limit(p) ==> Apart(history, i, p)
  }

  ghost predicate Apart(history: seq<int>, i: nat, p: Policy)
    requires i + Limit(p) < |history|
  {
    history[i + Limit(p)] - history[i] >= p.duration
  }

  ghost predicate AllRelated(store: Store, histories: Store, policy: string -> Policy, clock: int) {
    forall key :: Related(Queue(store, key), Queue(histories, key), policy(key), clock)
  }

  lemma {:induction false} WindowBounds(history: seq<int>, k: nat, lo: int, hi: int)
    requires k <= |history|
    requires forall i :: 0 <= i < k ==> history[i] <= lo
    ensures InWindow(history, lo, hi) <= |history| - k
    ensures (forall i :: k <= i < |history| ==> lo < history[i] <= hi) ==> InWindow(history, lo, hi) == |history| - k
  {
    if history != [] {
      var n := |history| - 1;
      WindowBounds(history[..n], if k <= n then k else n, lo, hi);
    }
  }

  /** What counting the window of a history comes to when its first `cut` accepts are too old. */
  lemma Decides(history: seq<int>, cut: nat, limit: nat, lo: int, hi: int)
    requires cut <= |history| <= cut + limit && limit >= 1
    requires (forall i :: 0 <= i < cut ==> history[i] <= lo) && AtMost(history, hi)
    requires forall i :: cut <= i < |history| ==> history[cut] <= history[i]
    ensures InWindow(history, lo, hi) < limit <==> |history| - cut < limit || history[cut] <= lo
  {
    WindowBounds(history, cut, lo, hi);
    if |history| - cut == limit && history[cut] <= lo {
      WindowBounds(history, cut + 1, lo, hi);
    }
  }

  lemma SameDecision(store: Store, key: string, history: seq<int>, p: Policy, clock: int, now: int)
    requires Related(Queue(store, key), history, p, clock) && clock <= now
    ensures Admits(store, key, p, now) == SpecAdmits(history, p, now)
  {
    var queue := Queue(store, key);
    var gone, cut := Gone(queue, history), |history| - |queue|;
    forall i | 0 <= i < |history| ensures history[i] <= now && (i < cut ==> history[i] <= now - p.duration) {
      assert history[i] == if i < cut then gone[i] else queue[i - cut];
    }
    forall i | cut <= i < |history| ensures history[cut] <= history[i] {
      assert history[cut] == queue[0] && history[i] == queue[i - cut];
    }
    Decides(history, cut, Limit(p), now - p.duration, now);
  }

  lemma AcceptKeepsSpaced(queue: seq<int>, history: seq<int>, p: Policy, clock: int, now: int)
    requires Related(queue, history, p, clock) && clock <= now
    requires |queue| == Limit(p) ==> now - queue[0] >= p.duration
    ensures Spaced(history + [now], p)
  {
    var history' := history + [now];
    forall i | 0 <= i < |history'| - Limit(p)
      ensures Apart(history', i, p)
    {
      if i + Limit(p) < |history| {
        assert Apart(history, i, p);
      } else if |queue| == Limit(p) {
        assert history[i] == queue[0];
      }
    }
  }

  lemma SortedAppend(queue: seq<int>, now: int)
    requires Sorted(queue) && AtMost(queue, now)
    ensures Sorted(queue + [now]) && (queue != [] ==> Sorted(queue[1..] + [now]))
  {
  }

  lemma AppendKeepsRelated(queue: seq<int>, history: seq<int>, p: Policy, clock: int, now: int)
    requires Related(queue, history, p, clock) && clock <= now && |queue| < Limit(p)
    ensures Related(queue + [now], history + [now], p, now)
  {
    AcceptKeepsSpaced(queue, history, p, clock, now);
    SortedAppend(queue, now);
    assert Gone(queue + [now], history + [now]) == Gone(queue, history);
  }

  lemma ShiftKeepsRelated(queue: seq<int>, history: seq<int>, p: Policy, clock: int, now: int)
    requires Related(queue, history, p, clock) && clock <= now
    requires |queue| == Limit(p) && now - queue[0] >= p.duration
    ensures Related(queue[1..] + [now], history + [now], p, now)
  {
    AcceptKeepsSpaced(queue, history, p, clock, now);
    SortedAppend(queue, now);
    assert Gone(queue[1..] + [now], history + [now]) == Gone(queue, history) + [queue[0]];
  }

  lemma RequestKeepsRelated(store: Store, key: string, history: seq<int>, p: Policy, clock: int, now: int)
    requires Related(Queue(store, key), history, p, clock) && clock <= now
    requires Admits(store, key, p, now)
    ensures Related(Queue(AfterRequest(store, key, p, now), key), history + [now], p, now)
  {
    var queue := Queue(store, key);
    if queue == [] || |queue| < p.max {
      AppendKeepsRelated(queue, history, p, clock, now);
    } else {
      ShiftKeepsRelated(queue, history, p, clock, now);
    }
  }

  lemma RelatedLater(queue: seq<int>, history: seq<int>, p: Policy, clock: int, now: int)
    requires Related(queue, history, p, clock) && clock <= now
    ensures Related(queue, history, p, now)
  {
  }

  lemma SweepKeepsRelated(store: Store, histories: Store, policy: string -> Policy, expiration: int, clock: int, now: int)
    requires AllRelated(store, histories, policy, clock) && clock <= now && Remembers(policy, expiration)
    ensures AllRelated(Swept(store, expiration, now), histories, policy, now)
  {
    forall key ensures Related(Queue(Swept(store, expiration, now), key), Queue(histories, key), policy(key), now) {
      assert Related(Queue(store, key), Queue(histories, key), policy(key), clock);
      SweepKeepsEach(store, key, Queue(histories, key), policy(key), expiration, clock, now);
    }
  }

  /** A swept queue is the same, or empty because its newest accept is too old for the window. */
  lemma SweepKeepsEach(store: Store, key: string, history: seq<int>, p: Policy, expiration: int, clock: int, now: int)
    requires Related(Queue(store, key), history, p, clock) && clock <= now
    requires expiration > 0 ==> p.duration <= expiration + 1
    ensures Related(Queue(Swept(store, expiration, now), key), history, p, now)
  {
    var queue := Queue(store, key);
    if Queue(Swept(store, expiration, now), key) == queue {
      RelatedLater(queue, history, p, clock, now);
    } else {
      assert queue[|queue| - 1] <= now - p.duration;
      AllGone(queue, history, p, clock, now);
    }
  }

  lemma AllGone(queue: seq<int>, history: seq<int>, p: Policy, clock: int, now: int)
    requires Related(queue, history, p, clock) && clock <= now && queue != [] && queue[|queue| - 1] <= now - p.duration
    ensures Related([], history, p, now)
  {
    var gone := Gone(queue, history);
    forall i | 0 <= i < |history| ensures history[i] <= now - p.duration && history[i] <= now {
      assert history[i] == if i < |gone| then gone[i] else queue[i - |gone|];
    }
    assert Gone([], history) == history;
  }

  /** A request for one key keeps the relation of every key. */
  lemma RequestKeepsEach(store: Store, histories: Store, policy: string -> Policy, key: string, clock: int, now: int, k: string)
    requires AllRelated(store, histories, policy, clock) && clock <= now
    requires Admits(store, key, policy(key), now) == SpecAdmits(Queue(histories, key), policy(key), now)
    ensures Related(Queue(AfterRequest(store, key, policy(key), now), k),
                    Queue(SpecAfter(histories, key, policy(key), now), k), policy(k), now)
  {
    var p := policy(key);
    assert Related(Queue(store, k), Queue(histories, k), policy(k), clock);
    QueuesAfter(store, histories, key, p, now, k);
    hide *;
    if k == key && Admits(store, key, p, now) {
      RequestKeepsRelated(store, key, Queue(histories, key), p, clock, now);
    } else {
      RelatedLater(Queue(store, k), Queue(histories, k), policy(k), clock, now);
    }
  }

  /** Only an admitted key's queue and history change, and the history by the accept. */
  lemma QueuesAfter(store: Store, histories: Store, key: string, p: Policy, now: int, k: string)
    requires Admits(store, key, p, now) == SpecAdmits(Queue(histories, key), p, now)
    ensures k != key || !Admits(store, key, p, now) ==>
      && Queue(AfterRequest(store, key, p, now), k) == Queue(store, k)
      && Queue(SpecAfter(histories, key, p, now), k) == Queue(histories, k)
    ensures Admits(store, key, p, now) ==> Queue(SpecAfter(histories, key, p, now), key) == Queue(histories, key) + [now]
  {
  }

  lemma RequestKeepsAllRelated(store: Store, histories: Store, policy: string -> Policy, key: string, clock: int, now: int)
    requires AllRelated(store, histories, policy, clock) && clock <= now
    ensures Admits(store, key, policy(key), now) == SpecAdmits(Queue(histories, key), policy(key), now)
    ensures AllRelated(AfterRequest(store, key, policy(key), now), SpecAfter(histories, key, policy(key), now), policy, now)
  {
    var p := policy(key);
    assert Related(Queue(store, key), Queue(histories, key), p, clock);
    SameDecision(store, key, Queue(histories, key), p, clock, now);
    var store', histories' := AfterRequest(store, key, p, now), SpecAfter(histories, key, p, now);
    forall k ensures Related(Queue(store', k), Queue(histories', k), policy(k), now) {
      RequestKeepsEach(store, histories, policy, key, clock, now, k);
    }
  }

  lemma {:induction false} RefinesFrom(store: Store, histories: Store, policy: string -> Policy,
                                      expiration: int, run: seq<Event>, clock: int)
    returns (endStore: Store, endClock: int)
    requires AllRelated(store, histories, policy, clock) && Monotone(run, clock)
    requires Remembers(policy, expiration)
    ensures Answers(store, policy, expiration, run) == SpecAnswers(histories, policy, run)
    ensures AllRelated(endStore, SpecHistories(histories, policy, run), policy, endClock)
    decreases run
  {
    if run == [] {
      endStore, endClock := store, clock;
    } else {
      var now := run[0].now;
      match run[0] {
        case Request(key, _) =>
          RequestKeepsAllRelated(store, histories, policy, key, clock, now);
          endStore, endClock := RefinesFrom(
            AfterRequest(store, key, policy(key), now), SpecAfter(histories, key, policy(key), now),
            policy, expiration, run[1..], now);
        case Sweep(_) =>
          SweepKeepsRelated(store, histories, policy, expiration, clock, now);
          endStore, endClock := RefinesFrom(
            Swept(store, expiration, now), histories, policy, expiration, run[1..], now);
      }
    }
  }

  /** Every interleaving of requests and sweeps is answered as the full-history specification answers it. */
  lemma Refines(policy: string -> Policy, expiration: int, run: seq<Event>, start: int)
    requires Monotone(run, start)
    requires Remembers(policy, expiration)
    ensures Answers(map[], policy, expiration, run) == SpecAnswers(map[], policy, run)
    ensures forall key :: Spaced(Queue(SpecHistories(map[], policy, run), key), policy(key))
  {
    assert AllRelated(map[], map[], policy, start);
    var store, clock := RefinesFrom(map[], map[], policy, expiration, run, start);
    var histories := SpecHistories(map[], policy, run);
    forall key ensures Spaced(Queue(histories, key), policy(key)) {
      assert Related(Queue(store, key), Queue(histories, key), policy(key), clock);
    }
  }

  // ----- The bound on the duration is exact

  /** `n` requests for `key` at time 0, then the rest. */
  function BurstThen(key: string, n: nat, tail: seq<Event>): seq<Event> {
    if n == 0 then tail else [Request(key, 0)] + BurstThen(key, n - 1, tail)
  }

  function Zeros(n: nat): seq<int> {
    seq(n, _ => 0)
  }

  lemma ZerosMore(n: nat)
    ensures Zeros(n) + [0] == Zeros(n + 1) && |Zeros(n)| == n
  {
  }

  /** Both limiters accept the burst, so they differ on the whole run if they differ on what follows. */
  lemma {:induction false} BurstAccepted(store: Store, key: string, policy: string -> Policy, expiration: int,
                                        n: nat, tail: seq<Event>)
    requires |Queue(store, key)| + n == Limit(policy(key)) && policy(key).duration >= 1
    requires store.Keys <= {key} && Queue(store, key) == Zeros(|Queue(store, key)|)
    requires Monotone(tail, 0)
    requires var full := map[key := Zeros(Limit(policy(key)))];
      Answers(full, policy, expiration, tail) != SpecAnswers(full, policy, tail)
    ensures var run := BurstThen(key, n, tail);
      Monotone(run, 0) && Answers(store, policy, expiration, run) != SpecAnswers(store, policy, run)
    decreases n
  {
    hide *;
    var run, queue := BurstThen(key, n, tail), Queue(store, key);
    BurstUnfolds(key, n, tail);
    if n == 0 {
      OnlyKey(store, key);
    } else {
      var next := map[key := queue + [0]];
      LimitIsPositive(policy(key));
      ZerosMore(|queue|);
      OnlyKey(next, key);
      BurstAdmits(store, key, policy(key));
      BurstAccepted(next, key, policy, expiration, n - 1, tail);
      BurstStep(store, key, policy, expiration, run);
    }
  }

  lemma LimitIsPositive(p: Policy)
    ensures Limit(p) >= 1
  {
  }

  lemma OnlyKey(store: Store, key: string)
    requires store.Keys <= {key}
    ensures Queue(store, key) != [] ==> store == map[key := Queue(store, key)]
    ensures key in store ==> Queue(store, key) == store[key]
  {
  }

  lemma BurstUnfolds(key: string, n: nat, tail: seq<Event>)
    ensures var run := BurstThen(key, n, tail);
      if n == 0 then run == tail
      else run != [] && run[0] == Request(key, 0) && run[1..] == BurstThen(key, n - 1, tail)
           && (Monotone(run[1..], 0) ==> Monotone(run, 0))
  {
  }

  lemma BurstAdmits(store: Store, key: string, p: Policy)
    requires store.Keys <= {key} && |Queue(store, key)| < Limit(p) && p.duration >= 1
    ensures AfterRequest(store, key, p, 0) == map[key := Queue(store, key) + [0]] == SpecAfter(store, key, p, 0)
  {
    WindowBounds(Queue(store, key), 0, -p.duration, 0);
  }

  lemma BurstStep(store: Store, key: string, policy: string -> Policy, expiration: int, run: seq<Event>)
    requires run != [] && run[0] == Request(key, 0)
    requires AfterRequest(store, key, policy(key), 0) == SpecAfter(store, key, policy(key), 0)
    requires var next := AfterRequest(store, key, policy(key), 0);
      Answers(next, policy, expiration, run[1..]) != SpecAnswers(next, policy, run[1..])
    ensures Answers(store, policy, expiration, run) != SpecAnswers(store, policy, run)
  {
    assert Answers(store, policy, expiration, run)[1..]
        == Answers(AfterRequest(store, key, policy(key), 0), policy, expiration, run[1..]);
    assert SpecAnswers(store, policy, run)[1..]
        == SpecAnswers(SpecAfter(store, key, policy(key), 0), policy, run[1..]);
  }

  /** A longer duration is not enforced: the sweep forgets accepts that are still in the window. */
  lemma LongDurationBreaks(policy: string -> Policy, expiration: int, key: string) returns (run: seq<Event>)
    requires expiration > 0 && policy(key).duration > expiration + 1
    ensures Monotone(run, 0)
    ensures Answers(map[], policy, expiration, run) != SpecAnswers(map[], policy, run)
  {
    var p, late := policy(key), expiration + 1;
    var n := Limit(p);
    var tail := [Sweep(late), Request(key, late)];
    assert tail[1..] == [Request(key, late)] && tail[1..][1..] == [];
    assert Monotone(tail[1..], late);
    run := BurstThen(key, n, tail);
    var full := map[key := Zeros(n)];
    assert Swept(full, expiration, late) == map[];
    WindowBounds(Zeros(n), 0, late - p.duration, late);
    assert Answers(full, policy, expiration, tail) == Answers(map[], policy, expiration, tail[1..]) == [true];
    assert SpecAnswers(full, policy, tail) == SpecAnswers(full, policy, tail[1..]) == [false];
    BurstAccepted(map[], key, policy, expiration, n, tail);
  }

  /**
   * The limiter meets its specification on all runs exactly when it never sweeps or no duration exceeds the
   * expiration by more than one.
   */
  lemma RefinesExactlyWhen(policy: string -> Policy, expiration: int)
    ensures (forall run :: Monotone(run, 0) ==>
               Answers(map[], policy, expiration, run) == SpecAnswers(map[], policy, run))
       <==> expiration <= 0 || forall key :: policy(key).duration <= expiration + 1
  {
    if Remembers(policy, expiration) {
      forall run | Monotone(run, 0)
        ensures Answers(map[], policy, expiration, run) == SpecAnswers(map[], policy, run)
      {
        Refines(policy, expiration, run, 0);
      }
    } else {
      var key :| policy(key).duration > expiration + 1;
      var run := LongDurationBreaks(policy, expiration, key);
    }
  }
}
