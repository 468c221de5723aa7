/**
 * The life of tunnelled requests on one session (tokilake-core/roundtrip.go) and the
 * compare-and-swap concurrency limiter they share (tokilake-core/session_manager.go).
 *
 * Every request is up to three goroutines: the caller, the context watcher and the body pump.
 * A run is any sequence of single steps of any of them, of outside cancellations, and of changes
 * to the session's limit.
 */
module TunnelRequest {
  import opened Basics

  /** The caller in `doTunnelRequestWithSession`. `Ready` is between the limit test and the swap. */
  datatype Caller =
    | Begin | Read(current: int) | Ready(current: int) | Refused
    | Acquired                  // OpenStream next
    | Abandon                   // OpenStream failed: ReleaseRequest next
    | Opened                    // TrackRequest next
    | Tracked                   // WriteRequest next
    | WriteFailed(removed: bool) // RemoveRequest, then cancel, then return
    | Leaked                    // returned from the write-failure branch
    | Reading                   // watcher started; first frame next
    | InCleanup(c: Cleanup)
    | Returned

  /** A call of the once-guarded cleanup closure: at the guard, or about to do one of its four steps. */
  datatype Cleanup = AtOnce | CloseCompleted | CancelContext | RemoveRequest | ReleaseSlot

  datatype Watcher = NotStarted | Selecting | Rechecking | Sending | Stopped

  datatype Pump = NoPump | Pumping | PumpCleanup(c: Cleanup) | PumpDone

  datatype Once = Fresh | Running | Ran

  /**
   * `external` says the request context was cancelled from outside, by its parent or by the session's
   * release; `own` that the request cancelled it itself. `releases` and `cancelsSent` count calls.
   */
  datatype Request = Request(
    caller: Caller, watcher: Watcher, pump: Pump, once: Once, completed: bool,
    own: bool, external: bool, tracked: bool, releases: nat, cancelsSent: nat)

  datatype State = State(limit: int, active: int, requests: seq<Request>)

  /** `ok` is the outcome of an I/O call, or the branch a select takes when several are ready. */
  datatype Action =
    | CallerStep(i: nat, ok: bool)
    | WatcherStep(i: nat, ok: bool)
    | PumpStep(i: nat)
    | CancelParent(i: nat)       // the caller's context ends
    | CancelSession              // cancelRequestsForSession
    | Retune(limit: int)         // a heartbeat or models_sync changes the session's limit

  const IDLE: Request := Request(Begin, NotStarted, NoPump, Fresh, false, false, false, false, 0, 0)

  function Initial(limit: int, n: nat): State {
    State(limit, 0, seq(n, _ => IDLE))
  }

  /** Go's conversion to int32. */
  function Int32(x: int): (y: int)
    ensures -0x8000_0000 <= y < 0x8000_0000
    ensures (x - y) % 0x1_0000_0000 == 0
    ensures x > 0 ==> y <= x
  {
    (x + 0x8000_0000) % 0x1_0000_0000 - 0x8000_0000
  }

  function Release(r: Request, active: int, limit: int): (Request, int) {
    (r.(releases := r.releases + 1), if limit > 0 then active - 1 else active)
  }

  function CallerNext(r: Request, active: int, limit: int, ok: bool): (Request, int)
    requires !r.caller.InCleanup?
  {
    match r.caller
    case Begin => (r.(caller := if limit <= 0 then Acquired else Read(active)), active)
    case Read(c) => (r.(caller := if c >= Int32(limit) then Refused else Ready(c)), active)
    case Ready(c) => if active == c then (r.(caller := Acquired), c + 1) else (r.(caller := Read(active)), active)
    case Refused => (r, active)
    case Acquired => (r.(caller := if ok then Opened else Abandon), active)
    case Abandon => Release(r.(caller := Returned), active, limit)
    case Opened => (r.(caller := Tracked, tracked := true), active)
    case Tracked =>
      (if ok then r.(caller := Reading, watcher := Selecting) else r.(caller := WriteFailed(false)), active)
    case WriteFailed(removed) =>
      (if removed then r.(caller := Leaked, own := true) else r.(caller := WriteFailed(true), tracked := false), active)
    case Leaked => (r, active)
    case Reading =>
      (if ok then r.(caller := Returned, pump := Pumping) else r.(caller := InCleanup(AtOnce)), active)
    case Returned => (r, active)
  }

  /** One step of a cleanup call: the new request, the counter, and where the call stands (None: it returned). */
  function CleanupNext(r: Request, c: Cleanup, active: int, limit: int): (Request, int, Option<Cleanup>) {
    match c
    case AtOnce =>
      if r.once.Fresh? then (r.(once := Running), active, Some(CloseCompleted))
      else if r.once.Ran? then (r, active, None)
      else (r, active, Some(AtOnce))
    case CloseCompleted => (r.(completed := true), active, Some(CancelContext))
    case CancelContext => (r.(own := true), active, Some(RemoveRequest))
    case RemoveRequest => (r.(tracked := false), active, Some(ReleaseSlot))
    case ReleaseSlot =>
      var (r', active') := Release(r, active, limit);
      (r'.(once := Ran), active', None)
  }

  function RequestStep(r: Request, active: int, limit: int, a: Action): (Request, int) {
    match a
    case CallerStep(_, ok) =>
      if r.caller.InCleanup? then
        var (r', active', at) := CleanupNext(r, r.caller.c, active, limit);
        (r'.(caller := if at.Some? then InCleanup(at.value) else Returned), active')
      else CallerNext(r, active, limit, ok)
    case PumpStep(_) =>
      (match r.pump
       case NoPump => (r, active)
       case Pumping => (r.(pump := PumpCleanup(AtOnce)), active)
       case PumpCleanup(c) =>
         var (r', active', at) := CleanupNext(r, c, active, limit);
         (r'.(pump := if at.Some? then PumpCleanup(at.value) else PumpDone), active')
       case PumpDone => (r, active))
    case WatcherStep(_, ok) => (WatcherNext(r, ok), active)
    case CancelParent(_) => (r.(external := true), active)
    case _ => (r, active)
  }

  /** With both channels ready, `ok` picks the branch of the outer select. */
  function WatcherNext(r: Request, ok: bool): Request {
    var done := r.own || r.external;
    match r.watcher
    case Selecting =>
      if r.completed && (!done || ok) then r.(watcher := Stopped)
      else if done then r.(watcher := Rechecking)
      else r
    case Rechecking => r.(watcher := if r.completed then Stopped else Sending)
    case Sending => r.(watcher := Stopped, cancelsSent := r.cancelsSent + 1)
    case _ => r
  }

  function CancelTracked(r: Request): Request {
    if r.tracked then r.(external := true, tracked := false) else r
  }

  function Step(s: State, a: Action): State {
    match a
    case Retune(limit) => s.(limit := limit)
    case CancelSession => s.(requests := seq(|s.requests|, k requires 0 <= k < |s.requests| => CancelTracked(s.requests[k])))
    case _ =>
      if a.i >= |s.requests| then s
      else
        var (r, active) := RequestStep(s.requests[a.i], s.active, s.limit, a);
        s.(active := active, requests := s.requests[a.i := r])
  }

  function Run(s: State, actions: seq<Action>): State
    decreases |actions|
  {
    if actions == [] then s else Run(Step(s, actions[0]), actions[1..])
  }

  // ----- One request

  /** The request owns a slot and will give it back. */
  predicate InProgress(r: Request) {
    || r.caller.Acquired? || r.caller.Abandon? || r.caller.Opened? || r.caller.Tracked? || r.caller.Reading?
    || r.caller.InCleanup? || r.pump.Pumping? || r.pump.PumpCleanup?
  }

  /** The request took the write-failure branch, which gives nothing back. */
  predicate Unreturned(r: Request) {
    r.caller.WriteFailed? || r.caller.Leaked?
  }

  function Slot(r: Request): nat {
    if InProgress(r) || Unreturned(r) then 1 else 0
  }

  predicate InClosure(c: Cleanup) {
    !c.AtOnce?
  }

  /** Who is inside the cleanup closure, and what it has done so far. */
  ghost predicate CleanupInv(r: Request, c: Cleanup) {
    && (c.AtOnce? ==> r.once.Fresh? && !r.completed && !r.own)
    && (InClosure(c) ==> r.once.Running? && (r.completed <==> !c.CloseCompleted?)
                         && (r.own <==> c.RemoveRequest? || c.ReleaseSlot?))
    && (c.ReleaseSlot? ==> !r.tracked)
  }

  ghost predicate RequestInv(r: Request) {
    && (r.releases == if r.caller.Returned? && !InProgress(r) then 1 else 0)
    && (!r.caller.Returned? ==> r.pump.NoPump?)
    && (r.caller.InCleanup? ==> CleanupInv(r, r.caller.c))
    && (r.pump.PumpCleanup? ==> CleanupInv(r, r.pump.c))
    && (r.pump.Pumping? ==> r.once.Fresh?)
    && (!r.caller.InCleanup? && !r.pump.PumpCleanup? && !r.once.Ran? ==>
          r.once.Fresh? && !r.completed && (r.own <==> r.caller.Leaked?))
    && (r.once.Ran? ==> r.caller.Returned? && (r.pump.NoPump? || r.pump.PumpDone?) && r.completed)
    && (r.tracked ==> (InProgress(r) && Submitted(r.caller)) || r.caller == WriteFailed(false))
    && WatcherInv(r)
  }

  /** The caller got past `TrackRequest`, other than into the write-failure branch. */
  predicate Submitted(c: Caller) {
    c.Tracked? || c.Reading? || c.InCleanup? || c.Returned?
  }

  ghost predicate WatcherInv(r: Request) {
    && (r.caller.Tracked? || !Submitted(r.caller) ==> r.watcher.NotStarted?)
    && (r.watcher.Rechecking? ==> r.own || r.external)
    && (r.watcher.Sending? ==> r.external)
    && (r.cancelsSent > 0 ==> r.cancelsSent == 1 && r.watcher.Stopped? && r.external)
  }

  lemma CleanupKeepsInv(r: Request, c: Cleanup, active: int, limit: int)
    requires CleanupInv(r, c) && r.releases == 0
    ensures var (r', active', at) := CleanupNext(r, c, active, limit);
      && (at.Some? ==> CleanupInv(r', at.value) && r'.releases == 0 && active' == active)
      && (at.None? ==> r'.once.Ran? && r'.completed && !r'.tracked && r'.releases == 1
                       && (limit > 0 ==> active' == active - 1))
      && r' == r.(once := r'.once, completed := r'.completed, own := r'.own, tracked := r'.tracked, releases := r'.releases)
  {
  }

  lemma CallerStepKeepsInv(r: Request, active: int, limit: int, a: Action)
    requires RequestInv(r) && a.CallerStep?
    ensures RequestInv(RequestStep(r, active, limit, a).0)
  {
    if r.caller.InCleanup? {
      CallerCleanupKeepsInv(r, active, limit, a);
    } else if r.caller.Tracked? || r.caller.WriteFailed? || r.caller.Leaked? || r.caller.Reading? || r.caller.Returned? {
      LateCallerKeepsInv(r, active, limit, a.ok);
    } else {
      EarlyCallerKeepsInv(r, active, limit, a.ok);
    }
  }

  lemma CallerCleanupKeepsInv(r: Request, active: int, limit: int, a: Action)
    requires RequestInv(r) && a.CallerStep? && r.caller.InCleanup?
    ensures RequestInv(RequestStep(r, active, limit, a).0)
  {
    CleanupKeepsInv(r, r.caller.c, active, limit);
  }

  /** Up to the tracking of the request. */
  lemma EarlyCallerKeepsInv(r: Request, active: int, limit: int, ok: bool)
    requires RequestInv(r) && !r.caller.InCleanup?
    requires !r.caller.Tracked? && !r.caller.WriteFailed? && !r.caller.Leaked? && !r.caller.Reading? && !r.caller.Returned?
    ensures RequestInv(CallerNext(r, active, limit, ok).0)
  {
    hide Int32;
  }

  lemma LateCallerKeepsInv(r: Request, active: int, limit: int, ok: bool)
    requires RequestInv(r)
    requires r.caller.Tracked? || r.caller.WriteFailed? || r.caller.Leaked? || r.caller.Reading? || r.caller.Returned?
    ensures RequestInv(CallerNext(r, active, limit, ok).0)
  {
    hide Int32;
  }

  lemma PumpStepKeepsInv(r: Request, active: int, limit: int, a: Action)
    requires RequestInv(r) && a.PumpStep?
    ensures RequestInv(RequestStep(r, active, limit, a).0)
  {
    if r.pump.PumpCleanup? {
      CleanupKeepsInv(r, r.pump.c, active, limit);
    }
  }

  lemma RequestStepKeepsInv(r: Request, active: int, limit: int, a: Action)
    requires RequestInv(r)
    ensures RequestInv(RequestStep(r, active, limit, a).0)
  {
    if a.CallerStep? {
      CallerStepKeepsInv(r, active, limit, a);
    } else if a.PumpStep? {
      PumpStepKeepsInv(r, active, limit, a);
    }
  }

  /** With a positive limit the counter moves with the request's slot. */
  lemma RequestStepCounts(r: Request, active: int, limit: int, a: Action)
    requires RequestInv(r) && limit > 0
    ensures var (r', active') := RequestStep(r, active, limit, a);
      && active' - active == Slot(r') - Slot(r)
      && (active' > active ==> r.caller.Ready? && active' == r.caller.current + 1)
  {
    if a.CallerStep? && r.caller.InCleanup? {
      CleanupKeepsInv(r, r.caller.c, active, limit);
    } else if a.PumpStep? && r.pump.PumpCleanup? {
      CleanupKeepsInv(r, r.pump.c, active, limit);
    }
  }

  // ----- All requests of a session

  function Count(requests: seq<Request>, p: Request -> bool): nat {
    if requests == [] then 0
    else Count(requests[..|requests| - 1], p) + if p(requests[|requests| - 1]) then 1 else 0
  }

  function Slots(requests: seq<Request>): nat {
    if requests == [] then 0 else Slots(requests[..|requests| - 1]) + Slot(requests[|requests| - 1])
  }

  lemma {:induction false} SlotsAreCounts(requests: seq<Request>)
    requires AllInv(requests)
    ensures Slots(requests) == Count(requests, InProgress) + Count(requests, Unreturned)
  {
    if requests != [] {
      SlotsAreCounts(requests[..|requests| - 1]);
    }
  }

  lemma {:induction false} SlotsUpdate(requests: seq<Request>, i: nat, r: Request)
    requires i < |requests|
    ensures Slots(requests[i := r]) == Slots(requests) - Slot(requests[i]) + Slot(r)
    decreases |requests|
  {
    var n := |requests| - 1;
    if i < n {
      SlotsUpdate(requests[..n], i, r);
      assert requests[i := r][..n] == requests[..n][i := r];
    } else {
      assert requests[i := r][..n] == requests[..n];
    }
  }

  lemma {:induction false} SlotsPointwise(a: seq<Request>, b: seq<Request>)
    requires |a| == |b| && forall i :: 0 <= i < |a| ==> Slot(a[i]) == Slot(b[i])
    ensures Slots(a) == Slots(b)
  {
    if a != [] {
      SlotsPointwise(a[..|a| - 1], b[..|b| - 1]);
    }
  }

  lemma {:induction false} NoSlotsAtFirst(n: nat)
    ensures Slots(seq(n, _ => IDLE)) == 0
  {
    if n > 0 {
      assert seq(n, _ => IDLE)[..n - 1] == seq(n - 1, _ => IDLE);
      NoSlotsAtFirst(n - 1);
    }
  }

  ghost predicate AllInv(requests: seq<Request>) {
    forall i :: 0 <= i < |requests| ==> RequestInv(requests[i])
  }

  lemma StepKeepsAllInv(s: State, a: Action)
    requires AllInv(s.requests)
    ensures AllInv(Step(s, a).requests)
  {
    if a.CancelSession? || a.Retune? {
    } else if a.i < |s.requests| {
      RequestStepKeepsInv(s.requests[a.i], s.active, s.limit, a);
    }
  }

  lemma StepCounts(s: State, a: Action)
    requires AllInv(s.requests) && s.limit > 0
    ensures Step(s, a).active - s.active == Slots(Step(s, a).requests) - Slots(s.requests)
  {
    if a.CancelSession? {
      SlotsPointwise(s.requests, Step(s, a).requests);
    } else if !a.Retune? && a.i < |s.requests| {
      RequestStepCounts(s.requests[a.i], s.active, s.limit, a);
      SlotsUpdate(s.requests, a.i, RequestStep(s.requests[a.i], s.active, s.limit, a).0);
    }
  }

  ghost predicate KeepsPositive(actions: seq<Action>) {
    forall a :: a in actions && a.Retune? ==> a.limit > 0
  }

  lemma {:induction false} RunCounts(s: State, actions: seq<Action>)
    requires AllInv(s.requests) && s.limit > 0 && KeepsPositive(actions)
    requires s.active == Slots(s.requests)
    ensures var s' := Run(s, actions); AllInv(s'.requests) && s'.active == Slots(s'.requests)
    decreases |actions|
  {
    if actions != [] {
      StepKeepsAllInv(s, actions[0]);
      StepCounts(s, actions[0]);
      assert actions[0] in actions;
      RunCounts(Step(s, actions[0]), actions[1..]);
    }
  }

  /** While the limit stays positive, the counter is the requests in progress plus those lost to a failed write. */
  lemma Accounting(limit: int, n: nat, actions: seq<Action>)
    requires limit > 0 && KeepsPositive(actions)
    ensures Accounted(Run(Initial(limit, n), actions))
  {
    NoSlotsAtFirst(n);
    var s := Run(Initial(limit, n), actions);
    RunCounts(Initial(limit, n), actions);
    SlotsAreCounts(s.requests);
  }

  ghost predicate Accounted(s: State) {
    s.active == Count(s.requests, InProgress) + Count(s.requests, Unreturned)
  }

  ghost predicate RetunesIn(actions: seq<Action>, limits: set<int>) {
    forall a :: a in actions && a.Retune? ==> a.limit in limits
  }

  /** Without a positive limit a request takes its slot uncounted. */
  lemma Uncounted(s: State)
    requires s.limit <= 0 && s.requests != [] && s.requests[0] == IDLE && AllInv(s.requests)
    requires s.active == Slots(s.requests)
    ensures !Accounted(Step(s, CallerStep(0, true)))
  {
    var s' := Step(s, CallerStep(0, true));
    StepKeepsAllInv(s, CallerStep(0, true));
    SlotsUpdate(s.requests, 0, IDLE.(caller := Acquired));
    SlotsAreCounts(s'.requests);
  }

  /**
   * The counter accounts for the requests in every run whose limits come from a given set exactly when the first limit
   * and all limits of the set are positive.
   */
  lemma AccountingExactlyWhen(limit: int, n: nat, limits: set<int>)
    requires n > 0
    ensures (forall actions :: RetunesIn(actions, limits) ==> Accounted(Run(Initial(limit, n), actions)))
       <==> limit > 0 && forall l :: l in limits ==> l > 0
  {
    var s, step := Initial(limit, n), CallerStep(0, true);
    NoSlotsAtFirst(n);
    if limit <= 0 {
      Uncounted(s);
      assert [step][1..] == [] && Run(s, [step]) == Step(s, step);
      assert RetunesIn([step], limits);
    } else if l :| l in limits && l <= 0 {
      Uncounted(s.(limit := l));
      var actions := [Retune(l), step];
      assert actions[1..] == [step] && [step][1..] == [];
      assert Run(s, actions) == Run(Step(s, Retune(l)), [step]) == Step(s.(limit := l), step);
      assert RetunesIn(actions, limits);
    } else {
      forall actions | RetunesIn(actions, limits) ensures Accounted(Run(s, actions)) {
        Accounting(limit, n, actions);
      }
    }
  }

  // ----- A fixed limit is never exceeded

  ghost predicate Bounded(s: State) {
    && s.limit > 0 && s.active <= s.limit
    && forall i :: 0 <= i < |s.requests| && s.requests[i].caller.Ready? ==> s.requests[i].caller.current < Int32(s.limit)
  }

  lemma {:induction false} RunBounded(s: State, actions: seq<Action>)
    requires AllInv(s.requests) && Bounded(s) && forall a :: a in actions ==> !a.Retune?
    ensures Bounded(Run(s, actions)) && Run(s, actions).limit == s.limit
    decreases |actions|
  {
    if actions != [] {
      var a := actions[0];
      assert a in actions;
      StepKeepsAllInv(s, a);
      if !a.CancelSession? && a.i < |s.requests| {
        RequestStepCounts(s.requests[a.i], s.active, s.limit, a);
        ReadyBelowLimit(s.requests[a.i], s.active, s.limit, a);
      }
      RunBounded(Step(s, a), actions[1..]);
    }
  }

  lemma ReadyAfterTest(r: Request, active: int, limit: int, ok: bool)
    requires !r.caller.InCleanup?
    ensures var c := CallerNext(r, active, limit, ok).0.caller;
      c.Ready? ==> r.caller.Read? && c.current == r.caller.current < Int32(limit)
  {
    hide Int32;
  }

  lemma ReadyBelowLimit(r: Request, active: int, limit: int, a: Action)
    requires r.caller.Ready? ==> r.caller.current < Int32(limit)
    ensures var r' := RequestStep(r, active, limit, a).0; r'.caller.Ready? ==> r'.caller.current < Int32(limit)
  {
    hide Int32, CallerNext;
    match a {
      case CallerStep(_, ok) =>
        if !r.caller.InCleanup? {
          ReadyAfterTest(r, active, limit, ok);
        }
      case PumpStep(_) => assert RequestStep(r, active, limit, a).0.caller == r.caller;
      case _ => assert RequestStep(r, active, limit, a).0.caller == r.caller;
    }
  }

  lemma LimitHolds(limit: int, n: nat, actions: seq<Action>)
    requires limit > 0 && forall a :: a in actions ==> !a.Retune?
    ensures 0 <= Run(Initial(limit, n), actions).active <= limit
  {
    RunBounded(Initial(limit, n), actions);
    Accounting(limit, n, actions);
  }

  // ----- A request is refused only when the slots are taken

  predicate NoRetune(actions: seq<Action>) {
    forall a :: a in actions ==> !a.Retune?
  }

  /** What callers have read is at most `peak`, and a refused one has read a value at the limit. */
  ghost predicate ReadsBelow(s: State, peak: int) {
    forall i :: 0 <= i < |s.requests| ==> ReadBelow(s.requests[i].caller, s.limit, peak)
  }

  ghost predicate ReadBelow(c: Caller, limit: int, peak: int) {
    && (c.Read? ==> limit > 0 && c.current <= peak)
    && (c.Ready? ==> limit > 0)
    && (c.Refused? ==> limit > 0 && peak >= Int32(limit))
  }

  lemma RequestReadsBelow(r: Request, active: int, limit: int, a: Action, peak: int)
    requires ReadBelow(r.caller, limit, peak) && active <= peak
    ensures ReadBelow(RequestStep(r, active, limit, a).0.caller, limit, peak)
  {
    if !a.CallerStep? {
      OnlyCallerMoves(r, active, limit, a);
    } else if !r.caller.InCleanup? {
      CallerReadsBelow(r, active, limit, a.ok, peak);
    }
    hide Int32, CallerNext, CleanupNext, WatcherNext;
  }

  lemma CallerReadsBelow(r: Request, active: int, limit: int, ok: bool, peak: int)
    requires !r.caller.InCleanup? && ReadBelow(r.caller, limit, peak) && active <= peak
    ensures ReadBelow(CallerNext(r, active, limit, ok).0.caller, limit, peak)
  {
    hide Int32;
    var c := CallerNext(r, active, limit, ok).0.caller;
    if r.caller.Begin? {
      assert c == if limit <= 0 then Acquired else Read(active);
    } else if r.caller.Read? {
      assert c == if r.caller.current >= Int32(limit) then Refused else Ready(r.caller.current);
    } else if r.caller.Ready? {
      assert c == if active == r.caller.current then Acquired else Read(active);
    } else {
      assert !c.Read? && !c.Ready? && (c.Refused? ==> r.caller.Refused?);
    }
  }

  lemma OnlyCallerMoves(r: Request, active: int, limit: int, a: Action)
    requires !a.CallerStep?
    ensures RequestStep(r, active, limit, a).0.caller == r.caller
  {
  }

  lemma StepReadsBelow(s: State, a: Action, peak: int)
    requires ReadsBelow(s, peak) && s.active <= peak && !a.Retune?
    ensures ReadsBelow(Step(s, a), peak) && Step(s, a).limit == s.limit
  {
    hide ReadBelow, RequestStep;
    if !a.CancelSession? && a.i < |s.requests| {
      RequestReadsBelow(s.requests[a.i], s.active, s.limit, a, peak);
    }
  }

  lemma {:induction false} RunReadsBelow(s: State, actions: seq<Action>, peak: int, i: nat) returns (k: nat)
    requires ReadsBelow(s, peak) && s.active <= peak && NoRetune(actions)
    requires i < |Run(s, actions).requests| && Run(s, actions).requests[i].caller.Refused?
    ensures s.limit > 0
    ensures k <= |actions| && (peak >= Int32(s.limit) || Run(s, actions[..k]).active >= Int32(s.limit))
    decreases |actions|
  {
    hide Int32, ReadsBelow, Step;
    k := 0;
    if actions == [] {
      EachReadsBelow(s, peak, i);
    } else {
      var a := actions[0];
      assert a in actions;
      var s1 := Step(s, a);
      StepReadsBelow(s, a, peak);
      var peak' := if s1.active > peak then s1.active else peak;
      ReadsBelowMore(s1, peak, peak');
      k := RunReadsBelow(s1, actions[1..], peak', i);
      if Run(s1, actions[1..][..k]).active < Int32(s.limit) {
        k := 0;
        assert actions[1..][..0] == [];
      }
      assert actions[..k + 1][1..] == actions[1..][..k];
      k := k + 1;
    }
  }

  lemma EachReadsBelow(s: State, peak: int, i: nat)
    requires ReadsBelow(s, peak) && i < |s.requests|
    ensures ReadBelow(s.requests[i].caller, s.limit, peak)
  {
  }

  lemma ReadsBelowMore(s: State, peak: int, more: int)
    requires ReadsBelow(s, peak) && peak <= more
    ensures ReadsBelow(s, more)
  {
  }

  /**
   * With a fixed limit a request is refused only if at some earlier point all slots were taken; without a positive
   * limit none is ever refused.
   */
  lemma RefusedOnlyWhenFull(limit: int, n: nat, actions: seq<Action>, i: nat) returns (k: nat)
    requires NoRetune(actions)
    requires i < |Run(Initial(limit, n), actions).requests| && Run(Initial(limit, n), actions).requests[i].caller.Refused?
    ensures limit > 0 && k <= |actions|
    ensures Run(Initial(limit, n), actions[..k]).active >= Int32(limit)
    ensures limit < 0x8000_0000 ==> Run(Initial(limit, n), actions[..k]).active >= limit
  {
    k := RunReadsBelow(Initial(limit, n), actions, 0, i);
    if Run(Initial(limit, n), actions[..k]).active < Int32(limit) {
      k := 0;
      assert actions[..0] == [];
    }
  }

  lemma {:induction false} SlotsBelow(requests: seq<Request>, i: nat)
    requires i < |requests|
    ensures Slots(requests) <= |requests| && (Slot(requests[i]) == 0 ==> Slots(requests) < |requests|)
    decreases |requests|
  {
    var n := |requests| - 1;
    if i < n {
      SlotsBelow(requests[..n], i);
    } else if n > 0 {
      SlotsBelow(requests[..n], 0);
    }
  }

  /** The counter is the slots, and no caller has read as much as there are requests, so none is refused. */
  ghost predicate Roomy(s: State) {
    && AllInv(s.requests) && s.active == Slots(s.requests) && |s.requests| <= s.limit < 0x8000_0000
    && forall i :: 0 <= i < |s.requests| ==> HasRoom(s.requests[i].caller, |s.requests|)
  }

  predicate HasRoom(c: Caller, n: nat) {
    !c.Refused? && (c.Read? ==> c.current < n)
  }

  lemma RequestHasRoom(r: Request, active: int, limit: int, a: Action, n: nat)
    requires RequestInv(r) && HasRoom(r.caller, n) && n <= limit < 0x8000_0000 && n > 0 && (Slot(r) == 0 ==> active < n)
    ensures HasRoom(RequestStep(r, active, limit, a).0.caller, n)
  {
    assert Int32(limit) == limit;
    hide Int32;
    if !a.CallerStep? {
      OnlyCallerMoves(r, active, limit, a);
    } else if r.caller.Ready? || r.caller.Begin? {
      assert Slot(r) == 0;
    }
  }

  lemma StepKeepsRoom(s: State, a: Action)
    requires Roomy(s) && !a.Retune?
    ensures Roomy(Step(s, a))
  {
    StepKeepsAllInv(s, a);
    if !a.CancelSession? && a.i < |s.requests| {
      StepCounts(s, a);
      SlotsBelow(s.requests, a.i);
      RequestHasRoom(s.requests[a.i], s.active, s.limit, a, |s.requests|);
    } else {
      if a.CancelSession? {
        SlotsPointwise(s.requests, Step(s, a).requests);
      }
    }
  }

  lemma {:induction false} RunKeepsRoom(s: State, actions: seq<Action>)
    requires Roomy(s) && NoRetune(actions)
    ensures Roomy(Run(s, actions))
    decreases |actions|
  {
    if actions != [] {
      assert actions[0] in actions;
      StepKeepsRoom(s, actions[0]);
      RunKeepsRoom(Step(s, actions[0]), actions[1..]);
    }
  }

  /** With no more requests than slots none is ever refused, whatever the interleaving. */
  lemma EveryoneFits(limit: int, n: nat, actions: seq<Action>, i: nat)
    requires n <= limit < 0x8000_0000 && NoRetune(actions) && i < |Run(Initial(limit, n), actions).requests|
    ensures !Run(Initial(limit, n), actions).requests[i].caller.Refused?
  {
    NoSlotsAtFirst(n);
    RunKeepsRoom(Initial(limit, n), actions);
  }

  // ----- A request that meets no obstacle

  function Repeat(a: Action, k: nat): seq<Action> {
    if k == 0 then [] else [a] + Repeat(a, k - 1)
  }

  lemma RunRepeat(s: State, a: Action, k: nat)
    requires k > 0
    ensures Run(s, Repeat(a, k)) == Run(Step(s, a), Repeat(a, k - 1))
  {
    assert Repeat(a, k)[1..] == Repeat(a, k - 1);
  }

  /** Alone, a request takes a slot, is tracked and answered, and holds both until its body is pumped. */
  lemma GetsIn(limit: int)
    requires 0 < limit < 0x8000_0000
    ensures Run(Initial(limit, 1), Repeat(CallerStep(0, true), 7))
      == State(limit, 1, [IDLE.(caller := Returned, watcher := Selecting, pump := Pumping, tracked := true)])
  {
    var a, s := CallerStep(0, true), Initial(limit, 1);
    var s3 := State(limit, 1, [IDLE.(caller := Acquired)]);
    TakesSlot(limit);
    IsAnswered(limit);
    RunRepeat(s, a, 7);
    RunRepeat(Step(s, a), a, 6);
    RunRepeat(Step(Step(s, a), a), a, 5);
    hide *;
  }

  lemma TakesSlot(limit: int)
    requires 0 < limit < 0x8000_0000
    ensures var a := CallerStep(0, true);
      Step(Step(Step(Initial(limit, 1), a), a), a) == State(limit, 1, [IDLE.(caller := Acquired)])
  {
    var a, s := CallerStep(0, true), Initial(limit, 1);
    assert Int32(limit) == limit;
    hide Int32;
    assert s.requests == [IDLE];
    assert Step(s, a) == State(limit, 0, [IDLE.(caller := Read(0))]);
    assert Step(Step(s, a), a) == State(limit, 0, [IDLE.(caller := Ready(0))]);
  }

  lemma IsAnswered(limit: int)
    ensures Run(State(limit, 1, [IDLE.(caller := Acquired)]), Repeat(CallerStep(0, true), 4))
      == State(limit, 1, [IDLE.(caller := Returned, watcher := Selecting, pump := Pumping, tracked := true)])
  {
    var a, s3 := CallerStep(0, true), State(limit, 1, [IDLE.(caller := Acquired)]);
    var s4 := State(limit, 1, [IDLE.(caller := Opened)]);
    var s5 := State(limit, 1, [IDLE.(caller := Tracked, tracked := true)]);
    var s6 := State(limit, 1, [IDLE.(caller := Reading, watcher := Selecting, tracked := true)]);
    assert Step(s3, a) == s4 && Step(s4, a) == s5 && Step(s5, a) == s6;
    RunRepeat(s3, a, 4);
    RunRepeat(s4, a, 3);
    RunRepeat(s5, a, 2);
    RunRepeat(s6, a, 1);
  }

  /** When the pump has ended, the slot is free, the request untracked and the watcher told that it is complete. */
  lemma GetsOut(limit: int)
    requires limit > 0
    ensures var r := IDLE.(caller := Returned, watcher := Selecting, pump := Pumping, tracked := true);
      Run(State(limit, 1, [r]), Repeat(PumpStep(0), 6))
      == State(limit, 0, [r.(pump := PumpDone, once := Ran, completed := true, own := true, tracked := false, releases := 1)])
  {
    var a, r := PumpStep(0), IDLE.(caller := Returned, watcher := Selecting, pump := Pumping, tracked := true);
    var s := State(limit, 1, [r]);
    var s1 := State(limit, 1, [r.(pump := PumpCleanup(AtOnce))]);
    var s2 := State(limit, 1, [r.(pump := PumpCleanup(CloseCompleted), once := Running)]);
    var s3 := State(limit, 1, [r.(pump := PumpCleanup(CancelContext), once := Running, completed := true)]);
    var s4 := State(limit, 1, [r.(pump := PumpCleanup(RemoveRequest), once := Running, completed := true, own := true)]);
    var s5 := State(limit, 1, [r.(pump := PumpCleanup(ReleaseSlot), once := Running, completed := true, own := true, tracked := false)]);
    assert Step(s, a) == s1 && Step(s1, a) == s2 && Step(s2, a) == s3;
    assert Step(s3, a) == s4 && Step(s4, a) == s5;
    RunRepeat(s, a, 6);
    RunRepeat(s1, a, 5);
    RunRepeat(s2, a, 4);
    RunRepeat(s3, a, 3);
    RunRepeat(s4, a, 2);
    RunRepeat(s5, a, 1);
  }

  /** A watched request whose context ends from outside before it is complete does get its cancel_request sent. */
  lemma CancelIsSent(s: State, i: nat, ok: bool)
    requires i < |s.requests| && s.requests[i].watcher.Selecting? && s.requests[i].external && !s.requests[i].completed
    ensures var s', r := Run(s, Repeat(WatcherStep(i, ok), 3)), s.requests[i];
      |s'.requests| == |s.requests| && s'.requests[i] == r.(watcher := Stopped, cancelsSent := r.cancelsSent + 1)
  {
    var a, r := WatcherStep(i, ok), s.requests[i];
    RunRepeat(s, a, 3);
    var s1 := Step(s, a);
    assert s1.requests[i] == r.(watcher := Rechecking);
    RunRepeat(s1, a, 2);
    var s2 := Step(s1, a);
    assert s2.requests[i] == r.(watcher := Sending);
    RunRepeat(s2, a, 1);
  }

  /**
   * When its session ends, a tracked request is untracked and its context ends, so that a watched one that is not
   * complete gets its cancel_request sent; the other requests and the counter stay as they are.
   */
  lemma SessionEndCancels(s: State, i: nat, ok: bool)
    requires i < |s.requests|
    ensures var s', r := Step(s, CancelSession), s.requests[i];
      && s'.active == s.active && s'.limit == s.limit && |s'.requests| == |s.requests|
      && s'.requests[i] == (if r.tracked then r.(external := true, tracked := false) else r)
      && (r.tracked && r.watcher.Selecting? && !r.completed ==>
            var after := Run(s', Repeat(WatcherStep(i, ok), 3));
            |after.requests| == |s.requests| && after.requests[i].cancelsSent == r.cancelsSent + 1)
  {
    var s', r := Step(s, CancelSession), s.requests[i];
    if r.tracked && r.watcher.Selecting? && !r.completed {
      CancelIsSent(s', i, ok);
    }
  }

  // ----- Every request, whatever the limit does

  lemma {:induction false} RunKeepsAllInv(s: State, actions: seq<Action>)
    requires AllInv(s.requests)
    ensures AllInv(Run(s, actions).requests)
    decreases |actions|
  {
    if actions != [] {
      StepKeepsAllInv(s, actions[0]);
      RunKeepsAllInv(Step(s, actions[0]), actions[1..]);
    }
  }

  /**
   * A slot is released exactly once, when the call has returned and no pump is running, and never before; at most one
   * cancel_request is sent, and only for a context cancelled from outside; a request that has finished is no longer in
   * the in-flight table.
   */
  lemma EachRequest(limit: int, n: nat, actions: seq<Action>, i: nat)
    requires i < |Run(Initial(limit, n), actions).requests|
    ensures var r := Run(Initial(limit, n), actions).requests[i];
      && r.releases == (if r.caller.Returned? && !InProgress(r) then 1 else 0)
      && r.cancelsSent <= 1
      && (r.cancelsSent == 1 || r.watcher.Sending? ==> r.external)
      && (r.tracked ==> InProgress(r) || r.caller == WriteFailed(false))
  {
    RunKeepsAllInv(Initial(limit, n), actions);
  }

  // ----- When the counter can fall below zero

  /** A request that takes its slot under a limit that is not positive and gives it back under a positive one. */
  lemma RetuneBreaks(s: State, positive: int)
    requires s.limit <= 0 && positive > 0 && s.active == 0 && s.requests != [] && s.requests[0] == IDLE
    ensures Run(s, [CallerStep(0, false), CallerStep(0, false), Retune(positive), CallerStep(0, false)]).active == -1
  {
    var step := CallerStep(0, false);
    var s1 := Step(s, step);
    assert s1.requests[0] == IDLE.(caller := Acquired) && s1.active == 0;
    var s2 := Step(s1, step);
    assert s2.requests[0] == IDLE.(caller := Abandon) && s2.active == 0;
    var s3 := Step(s2, Retune(positive));
    var s4 := Step(s3, step);
    assert s4.active == -1;
    assert [step][1..] == [] && [Retune(positive), step][1..] == [step];
    assert [step, Retune(positive), step][1..] == [Retune(positive), step];
    assert [step, step, Retune(positive), step][1..] == [step, Retune(positive), step];
    assert Run(s3, [step]) == Run(s4, []);
    assert Run(s2, [Retune(positive), step]) == Run(s3, [step]);
    assert Run(s1, [step, Retune(positive), step]) == Run(s2, [Retune(positive), step]);
  }

  /** The counter is at least zero, and counts the slots as long as the limit is positive. */
  ghost predicate NonNegative(s: State) {
    AllInv(s.requests) && s.active >= 0 && (s.limit > 0 ==> s.active == Slots(s.requests))
  }

  lemma UnlimitedStepNeverFalls(s: State, a: Action)
    requires s.limit <= 0
    ensures Step(s, a).active >= s.active
  {
  }

  /** Once the limit is not positive and no positive one can come, the counter never falls. */
  lemma {:induction false} NeverPositiveAgain(s: State, actions: seq<Action>, limits: set<int>)
    requires NonNegative(s) && RetunesIn(actions, limits) && forall l :: l in limits ==> l <= 0
    ensures Run(s, actions).active >= 0
    decreases |actions|
  {
    if actions != [] {
      var a := actions[0];
      assert a in actions;
      StepKeepsAllInv(s, a);
      if s.limit > 0 {
        StepCounts(s, a);
      } else {
        UnlimitedStepNeverFalls(s, a);
      }
      assert forall b :: b in actions[1..] ==> b in actions;
      NeverPositiveAgain(Step(s, a), actions[1..], limits);
    }
  }

  /** A limit that is not positive can be in force, and a positive one can follow it. */
  ghost predicate CanTurnPositive(limit: int, limits: set<int>) {
    (limit <= 0 || exists l :: l in limits && l <= 0) && exists l :: l in limits && l > 0
  }

  /**
   * With limits from a given set the counter stays at zero or above in every run exactly when a positive limit can
   * never follow one that is not positive.
   */
  lemma NonNegativeExactlyWhen(limit: int, n: nat, limits: set<int>)
    requires n > 0
    ensures (forall actions :: RetunesIn(actions, limits) ==> Run(Initial(limit, n), actions).active >= 0)
       <==> !CanTurnPositive(limit, limits)
  {
    var s := Initial(limit, n);
    NoSlotsAtFirst(n);
    if CanTurnPositive(limit, limits) {
      var actions := TurnPositive(limit, n, limits);
    } else {
      forall actions | RetunesIn(actions, limits) ensures Run(s, actions).active >= 0 {
        if l :| l in limits && l > 0 {
          Accounting(limit, n, actions);
        } else {
          NeverPositiveAgain(s, actions, limits);
        }
      }
    }
  }

  lemma TurnPositive(limit: int, n: nat, limits: set<int>) returns (actions: seq<Action>)
    requires n > 0 && CanTurnPositive(limit, limits)
    ensures RetunesIn(actions, limits) && Run(Initial(limit, n), actions).active < 0
  {
    var s, step := Initial(limit, n), CallerStep(0, false);
    var positive :| positive in limits && positive > 0;
    actions := [step, step, Retune(positive), step];
    if limit <= 0 {
      RetuneBreaks(s, positive);
    } else {
      var l :| l in limits && l <= 0;
      RetuneBreaks(s.(limit := l), positive);
      assert ([Retune(l)] + actions)[1..] == actions;
      assert Run(s, [Retune(l)] + actions) == Run(Step(s, Retune(l)), actions);
      actions := [Retune(l)] + actions;
    }
  }
}
