/**
 * Payment callbacks under a per-key lock map, with expired orders being closed at any time
 * (controller/order.go, model/order.go).
 *
 * Each callback is a thread; a run is any sequence of thread steps and close sweeps. The lock is
 * taken on the gateway number while the order is looked up by the trade number, so the theorems
 * say exactly which sets of callbacks credit every order at most once.
 */
module Payment {
  import opened Basics

  datatype Status = Pending | Success | Failed | Closed

  datatype Order = Order(userId: int, quota: int, status: Status, gatewayNo: string, createdAt: int)

  /** The verified notification of one callback. */
  datatype Callback = Callback(tradeNo: string, gatewayNo: string)

  /** Where a callback stands; `creating` says that it still holds `createLock`, which is released on return only. */
  datatype Pc =
    | Start
    | NeedCreate
    | Creating
    | Locking(mutex: nat, creating: bool)
    | Returning
    | Locked
    | Loaded(order: Order)
    | Saved(order: Order)
    | Leaving
    | Done
  {
    /** Between acquiring and releasing the order's mutex. */
    predicate Critical() { Returning? || InShop() || Leaving? }

    predicate HoldsCreateLock() { Creating? || (Locking? && creating) || Returning? }

    /** The next step reads or writes the database rather than the lock map. */
    predicate InShop() { Locked? || Loaded? || Saved? }
  }

  /** Mutexes are numbered in creation order; `held` gives a locked mutex's thread, `creator` that of `createLock`. */
  datatype LockMap = LockMap(locks: map<string, nat>, held: map<nat, nat>, creator: Option<nat>, nextMutex: nat)

  datatype Credit = Credit(tradeNo: string, userId: int, quota: int)

  datatype Shop = Shop(orders: map<string, Order>, balances: map<int, int>, credits: seq<Credit>)

  datatype State = State(pcs: seq<Pc>, lockMap: LockMap, shop: Shop)

  /** `ok` is the outcome of the database call the step makes, if any. */
  datatype Action = Advance(thread: nat, ok: bool) | CloseUnfinished(now: int)

  const EXPIRY: int := 3 * 3600

  function Initial(callbacks: seq<Callback>, orders: map<string, Order>, balances: map<int, int>): State {
    State(seq(|callbacks|, _ => Start), LockMap(map[], map[], None, 0), Shop(orders, balances, []))
  }

  /** `LockOrder` and `UnlockOrder`, one atomic access at a time. A thread waiting for a lock stays where it is. */
  function LockStep(l: LockMap, pc: Pc, key: string, i: nat): (LockMap, Pc)
    requires !pc.InShop()
  {
    match pc
    case Start => (l, if key in l.locks then Locking(l.locks[key], false) else NeedCreate)
    case NeedCreate => if l.creator == None then (l.(creator := Some(i)), Creating) else (l, pc)
    case Creating =>
      if key in l.locks then (l, Locking(l.locks[key], true))
      else (l.(locks := l.locks[key := l.nextMutex], nextMutex := l.nextMutex + 1), Locking(l.nextMutex, true))
    case Locking(m, creating) =>
      if m in l.held then (l, pc) else (l.(held := l.held[m := i]), if creating then Returning else Locked)
    case Returning => (l.(creator := None), Locked)
    case Leaving => (if key in l.locks then l.(held := l.held - {l.locks[key]}) else l, Done)
    case Done => (l, pc)
  }

  /** The body of `PaymentCallback` once the lock is held. */
  function ShopStep(shop: Shop, pc: Pc, cb: Callback, ok: bool): (Shop, Pc)
    requires pc.InShop()
  {
    match pc
    case Locked =>
      (shop, if ok && cb.tradeNo in shop.orders && shop.orders[cb.tradeNo].status == Pending
             then Loaded(shop.orders[cb.tradeNo]) else Leaving)
    case Loaded(o) =>
      if !ok then (shop, Leaving)
      else (shop.(orders := shop.orders[cb.tradeNo := o.(gatewayNo := cb.gatewayNo, status := Success)]), Saved(o))
    case Saved(o) => (if ok && o.quota >= 0 then Pay(shop, cb.tradeNo, o) else shop, Leaving)
  }

  /** `IncreaseUserQuota` on the order's user; it refuses a negative quota. */
  function Pay(shop: Shop, tradeNo: string, o: Order): Shop {
    shop.(credits := shop.credits + [Credit(tradeNo, o.userId, o.quota)],
          balances := if o.userId in shop.balances
                      then shop.balances[o.userId := shop.balances[o.userId] + o.quota] else shop.balances)
  }

  function CloseOrder(o: Order, now: int): Order {
    if o.status == Pending && o.createdAt < now - EXPIRY then o.(status := Closed) else o
  }

  function Close(shop: Shop, now: int): Shop {
    shop.(orders := map t | t in shop.orders :: CloseOrder(shop.orders[t], now))
  }

  function Step(callbacks: seq<Callback>, s: State, a: Action): State {
    match a
    case Advance(i, ok) =>
      if i >= |callbacks| || i >= |s.pcs| then s
      else if s.pcs[i].InShop() then
        var (shop, pc) := ShopStep(s.shop, s.pcs[i], callbacks[i], ok);
        s.(shop := shop, pcs := s.pcs[i := pc])
      else
        var (lockMap, pc) := LockStep(s.lockMap, s.pcs[i], callbacks[i].gatewayNo, i);
        s.(lockMap := lockMap, pcs := s.pcs[i := pc])
    case CloseUnfinished(now) => s.(shop := Close(s.shop, now))
  }

  function Run(callbacks: seq<Callback>, s: State, actions: seq<Action>): State
    decreases |actions|
  {
    if actions == [] then s else Run(callbacks, Step(callbacks, s, actions[0]), actions[1..])
  }

  // ----- The lock map: one mutex per key, and mutual exclusion

  ghost predicate KeysDistinct(l: LockMap) {
    && (forall k :: k in l.locks ==> l.locks[k] < l.nextMutex)
    && (forall j, k :: j in l.locks && k in l.locks && j != k ==> l.locks[j] != l.locks[k])
  }

  ghost predicate ThreadInv(l: LockMap, pc: Pc, key: string, i: nat) {
    && (pc.HoldsCreateLock() <==> l.creator == Some(i))
    && (pc.Locking? ==> key in l.locks && l.locks[key] == pc.mutex)
    && (pc.Critical() ==> key in l.locks && l.locks[key] in l.held && l.held[l.locks[key]] == i)
  }

  ghost predicate LockInv(callbacks: seq<Callback>, s: State) {
    && |s.pcs| == |callbacks|
    && KeysDistinct(s.lockMap)
    && (forall i :: 0 <= i < |s.pcs| ==> ThreadInv(s.lockMap, s.pcs[i], callbacks[i].gatewayNo, i))
  }

  /** Once stored, a key's mutex is never replaced, and no two keys share one. */
  lemma LockStepKeepsKeys(l: LockMap, pc: Pc, key: string, i: nat)
    requires KeysDistinct(l) && !pc.InShop()
    ensures var l' := LockStep(l, pc, key, i).0;
      KeysDistinct(l') && forall k :: k in l.locks ==> k in l'.locks && l'.locks[k] == l.locks[k]
  {
  }

  lemma LockStepKeepsOwn(l: LockMap, pc: Pc, key: string, i: nat)
    requires ThreadInv(l, pc, key, i) && !pc.InShop()
    ensures var (l', pc') := LockStep(l, pc, key, i); ThreadInv(l', pc', key, i)
  {
  }

  lemma LockStepKeepsOther(l: LockMap, pc: Pc, key: string, i: nat, pcj: Pc, keyj: string, j: nat)
    requires KeysDistinct(l) && ThreadInv(l, pc, key, i) && !pc.InShop()
    requires ThreadInv(l, pcj, keyj, j) && i != j
    ensures ThreadInv(LockStep(l, pc, key, i).0, pcj, keyj, j)
  {
  }

  lemma StepKeepsLockInv(callbacks: seq<Callback>, s: State, a: Action)
    requires LockInv(callbacks, s)
    ensures LockInv(callbacks, Step(callbacks, s, a))
  {
    var s' := Step(callbacks, s, a);
    if a.Advance? && a.thread < |callbacks| {
      var i := a.thread;
      var key := callbacks[i].gatewayNo;
      if !s.pcs[i].InShop() {
        LockStepKeepsKeys(s.lockMap, s.pcs[i], key, i);
        LockStepKeepsOwn(s.lockMap, s.pcs[i], key, i);
        forall j | 0 <= j < |s.pcs| && j != i ensures ThreadInv(s'.lockMap, s.pcs[j], callbacks[j].gatewayNo, j) {
          LockStepKeepsOther(s.lockMap, s.pcs[i], key, i, s.pcs[j], callbacks[j].gatewayNo, j);
        }
      }
    }
  }

  lemma OneHolder(callbacks: seq<Callback>, s: State, i: nat, j: nat)
    requires LockInv(callbacks, s) && i < |callbacks| && j < |callbacks|
    requires callbacks[i].gatewayNo == callbacks[j].gatewayNo && s.pcs[i].Critical() && s.pcs[j].Critical()
    ensures i == j
  {
    var key := callbacks[i].gatewayNo;
    assert ThreadInv(s.lockMap, s.pcs[i], key, i) && ThreadInv(s.lockMap, s.pcs[j], key, j);
  }

  lemma {:induction false} RunKeepsLockInv(callbacks: seq<Callback>, s: State, actions: seq<Action>)
    requires LockInv(callbacks, s)
    ensures LockInv(callbacks, Run(callbacks, s, actions))
    decreases |actions|
  {
    if actions != [] {
      StepKeepsLockInv(callbacks, s, actions[0]);
      RunKeepsLockInv(callbacks, Step(callbacks, s, actions[0]), actions[1..]);
    }
  }

  /** In every run no two callbacks of one gateway number are in the critical section together. */
  lemma MutualExclusion(callbacks: seq<Callback>, orders: map<string, Order>, balances: map<int, int>,
                        actions: seq<Action>, i: nat, j: nat)
    requires i < |callbacks| && j < |callbacks| && callbacks[i].gatewayNo == callbacks[j].gatewayNo
    ensures var s := Run(callbacks, Initial(callbacks, orders, balances), actions);
      |s.pcs| == |callbacks| && (s.pcs[i].Critical() && s.pcs[j].Critical() ==> i == j)
  {
    var s := Run(callbacks, Initial(callbacks, orders, balances), actions);
    RunKeepsLockInv(callbacks, Initial(callbacks, orders, balances), actions);
    if s.pcs[i].Critical() && s.pcs[j].Critical() {
      OneHolder(callbacks, s, i, j);
    }
  }

  // ----- Statuses and credits of one order

  predicate Succeeded(shop: Shop, tradeNo: string) {
    tradeNo in shop.orders && shop.orders[tradeNo].status == Success
  }

  /** A successful order never changes again, whatever the callbacks carry. */
  lemma {:induction false} SuccessIsFinal(callbacks: seq<Callback>, s: State, actions: seq<Action>, tradeNo: string)
    requires Succeeded(s.shop, tradeNo)
    ensures Succeeded(Run(callbacks, s, actions).shop, tradeNo)
    decreases |actions|
  {
    if actions != [] {
      SuccessIsFinal(callbacks, Step(callbacks, s, actions[0]), actions[1..], tradeNo);
    }
  }

  predicate Unpaid(credits: seq<Credit>, tradeNo: string) {
    forall i :: 0 <= i < |credits| ==> credits[i].tradeNo != tradeNo
  }

  predicate PaidAtMostOnce(credits: seq<Credit>, tradeNo: string) {
    forall i, j :: 0 <= i < j < |credits| ==> credits[i].tradeNo != tradeNo || credits[j].tradeNo != tradeNo
  }

  /** All callbacks of the trade number carry one gateway number. */
  ghost predicate OneGateway(callbacks: seq<Callback>, tradeNo: string) {
    forall i, j :: 0 <= i < |callbacks| && 0 <= j < |callbacks|
      && callbacks[i].tradeNo == tradeNo && callbacks[j].tradeNo == tradeNo
      ==> callbacks[i].gatewayNo == callbacks[j].gatewayNo
  }

  /** The order can still be credited. */
  predicate Payable(shop: Shop, tradeNo: string) {
    tradeNo in shop.orders && shop.orders[tradeNo].status == Pending && shop.orders[tradeNo].quota >= 0
  }

  /** What a callback of the order may rely on between its read and its credit. */
  ghost predicate Fresh(shop: Shop, pc: Pc, tradeNo: string) {
    && (pc.Loaded? ==> !Succeeded(shop, tradeNo))
    && (pc.Saved? ==> Succeeded(shop, tradeNo) && Unpaid(shop.credits, tradeNo))
  }

  ghost predicate OrderInv(shop: Shop, tradeNo: string) {
    && PaidAtMostOnce(shop.credits, tradeNo)
    && (Succeeded(shop, tradeNo) || Unpaid(shop.credits, tradeNo))
  }

  ghost predicate OnceInv(callbacks: seq<Callback>, s: State, tradeNo: string)
    requires |s.pcs| == |callbacks|
  {
    && OrderInv(s.shop, tradeNo)
    && (forall i :: 0 <= i < |s.pcs| && callbacks[i].tradeNo == tradeNo ==> Fresh(s.shop, s.pcs[i], tradeNo))
  }

  lemma ShopStepPaysOnce(shop: Shop, pc: Pc, cb: Callback, ok: bool)
    requires pc.InShop() && OrderInv(shop, cb.tradeNo) && Fresh(shop, pc, cb.tradeNo)
    ensures var (shop', pc') := ShopStep(shop, pc, cb, ok);
      OrderInv(shop', cb.tradeNo) && Fresh(shop', pc', cb.tradeNo)
  {
  }

  lemma ShopStepOtherOrder(shop: Shop, pc: Pc, cb: Callback, ok: bool, tradeNo: string)
    requires pc.InShop() && cb.tradeNo != tradeNo
    ensures var shop' := ShopStep(shop, pc, cb, ok).0;
      && (OrderInv(shop, tradeNo) ==> OrderInv(shop', tradeNo))
      && (forall pcj :: Fresh(shop, pcj, tradeNo) ==> Fresh(shop', pcj, tradeNo))
  {
    var shop' := ShopStep(shop, pc, cb, ok).0;
    assert Unpaid(shop.credits, tradeNo) ==> Unpaid(shop'.credits, tradeNo);
  }

  lemma StepKeepsOnce(callbacks: seq<Callback>, s: State, a: Action, tradeNo: string)
    requires LockInv(callbacks, s) && OnceInv(callbacks, s, tradeNo) && OneGateway(callbacks, tradeNo)
    ensures |Step(callbacks, s, a).pcs| == |callbacks| && OnceInv(callbacks, Step(callbacks, s, a), tradeNo)
  {
    if a.Advance? && a.thread < |callbacks| {
      var i := a.thread;
      if s.pcs[i].InShop() {
        if callbacks[i].tradeNo != tradeNo {
          ShopStepOtherOrder(s.shop, s.pcs[i], callbacks[i], a.ok, tradeNo);
        } else {
          ShopStepPaysOnce(s.shop, s.pcs[i], callbacks[i], a.ok);
          forall j | 0 <= j < |callbacks| && callbacks[j].tradeNo == tradeNo && s.pcs[j].Critical() ensures j == i {
            OneHolder(callbacks, s, i, j);
          }
        }
      }
    }
  }

  /** The order is not payable and no callback holds a payable snapshot of it. */
  ghost predicate DeadInv(callbacks: seq<Callback>, s: State, tradeNo: string)
    requires |s.pcs| == |callbacks|
  {
    && Unpaid(s.shop.credits, tradeNo)
    && !Payable(s.shop, tradeNo)
    && (forall i :: 0 <= i < |s.pcs| && callbacks[i].tradeNo == tradeNo && (s.pcs[i].Loaded? || s.pcs[i].Saved?) ==>
          s.pcs[i].order.quota < 0)
  }

  lemma StepKeepsDead(callbacks: seq<Callback>, s: State, a: Action, tradeNo: string)
    requires |s.pcs| == |callbacks| && DeadInv(callbacks, s, tradeNo)
    ensures |Step(callbacks, s, a).pcs| == |callbacks| && DeadInv(callbacks, Step(callbacks, s, a), tradeNo)
  {
  }

  lemma {:induction false} RunPaysOnce(callbacks: seq<Callback>, s: State, actions: seq<Action>, tradeNo: string)
    requires LockInv(callbacks, s)
    requires (OneGateway(callbacks, tradeNo) && OnceInv(callbacks, s, tradeNo)) || DeadInv(callbacks, s, tradeNo)
    ensures PaidAtMostOnce(Run(callbacks, s, actions).shop.credits, tradeNo)
    decreases |actions|
  {
    if actions != [] {
      StepKeepsLockInv(callbacks, s, actions[0]);
      if DeadInv(callbacks, s, tradeNo) {
        StepKeepsDead(callbacks, s, actions[0], tradeNo);
      } else {
        StepKeepsOnce(callbacks, s, actions[0], tradeNo);
      }
      RunPaysOnce(callbacks, Step(callbacks, s, actions[0]), actions[1..], tradeNo);
    }
  }

  // ----- Balances

  function Sum(credits: seq<Credit>, userId: int): int {
    if credits == [] then 0
    else
      var c := credits[|credits| - 1];
      Sum(credits[..|credits| - 1], userId) + if c.userId == userId then c.quota else 0
  }

  ghost predicate BalanceInv(shop: Shop, userId: int, start: int) {
    userId in shop.balances && shop.balances[userId] == start + Sum(shop.credits, userId)
  }

  lemma PayAddsUp(shop: Shop, tradeNo: string, o: Order, userId: int, start: int)
    requires BalanceInv(shop, userId, start)
    ensures BalanceInv(Pay(shop, tradeNo, o), userId, start)
  {
    var credits := Pay(shop, tradeNo, o).credits;
    assert credits[..|credits| - 1] == shop.credits;
  }

  /** A user's balance is the starting balance plus the user's credits, and nothing else. */
  lemma {:induction false} BalanceIsCredits(callbacks: seq<Callback>, s: State, actions: seq<Action>, userId: int, start: int)
    requires BalanceInv(s.shop, userId, start)
    ensures BalanceInv(Run(callbacks, s, actions).shop, userId, start)
    decreases |actions|
  {
    if actions != [] {
      if actions[0].Advance? && actions[0].thread < |callbacks| && actions[0].thread < |s.pcs| {
        var i := actions[0].thread;
        if s.pcs[i].Saved? {
          PayAddsUp(s.shop, callbacks[i].tradeNo, s.pcs[i].order, userId, start);
        }
      }
      BalanceIsCredits(callbacks, Step(callbacks, s, actions[0]), actions[1..], userId, start);
    }
  }

  // ----- Credits are the orders' own

  /** The order is the original one but for its status and gateway number. */
  predicate SameOrder(o: Order, original: Order) {
    o.userId == original.userId && o.quota == original.quota && o.createdAt == original.createdAt
  }

  ghost predicate OrdersKept(shop: Shop, orders: map<string, Order>) {
    shop.orders.Keys == orders.Keys && forall t :: t in orders ==> SameOrder(shop.orders[t], orders[t])
  }

  /** What a callback has read is its own order. */
  ghost predicate ReadsOwn(pc: Pc, cb: Callback, orders: map<string, Order>) {
    pc.Loaded? || pc.Saved? ==> cb.tradeNo in orders && SameOrder(pc.order, orders[cb.tradeNo])
  }

  ghost predicate CreditsMatch(credits: seq<Credit>, orders: map<string, Order>) {
    forall i :: 0 <= i < |credits| ==>
      var c := credits[i];
      c.tradeNo in orders && c.userId == orders[c.tradeNo].userId && c.quota == orders[c.tradeNo].quota
  }

  ghost predicate OwnInv(callbacks: seq<Callback>, s: State, orders: map<string, Order>) {
    && |s.pcs| == |callbacks| && OrdersKept(s.shop, orders) && CreditsMatch(s.shop.credits, orders)
    && forall i :: 0 <= i < |s.pcs| ==> ReadsOwn(s.pcs[i], callbacks[i], orders)
  }

  lemma ShopStepOwn(shop: Shop, pc: Pc, cb: Callback, ok: bool, orders: map<string, Order>)
    requires pc.InShop() && OrdersKept(shop, orders) && CreditsMatch(shop.credits, orders) && ReadsOwn(pc, cb, orders)
    ensures var (shop', pc') := ShopStep(shop, pc, cb, ok);
      OrdersKept(shop', orders) && CreditsMatch(shop'.credits, orders) && ReadsOwn(pc', cb, orders)
    ensures shop.credits <= ShopStep(shop, pc, cb, ok).0.credits
  {
  }

  lemma StepKeepsOwn(callbacks: seq<Callback>, s: State, a: Action, orders: map<string, Order>)
    requires OwnInv(callbacks, s, orders)
    ensures OwnInv(callbacks, Step(callbacks, s, a), orders)
    ensures s.shop.credits <= Step(callbacks, s, a).shop.credits
  {
    if a.Advance? && a.thread < |callbacks| && s.pcs[a.thread].InShop() {
      ShopStepOwn(s.shop, s.pcs[a.thread], callbacks[a.thread], a.ok, orders);
    }
  }

  lemma {:induction false} RunKeepsOwn(callbacks: seq<Callback>, s: State, actions: seq<Action>, orders: map<string, Order>)
    requires OwnInv(callbacks, s, orders)
    ensures OwnInv(callbacks, Run(callbacks, s, actions), orders)
    ensures s.shop.credits <= Run(callbacks, s, actions).shop.credits
    decreases |actions|
  {
    if actions != [] {
      StepKeepsOwn(callbacks, s, actions[0], orders);
      RunKeepsOwn(callbacks, Step(callbacks, s, actions[0]), actions[1..], orders);
    }
  }

  /**
   * In every run: the orders keep their user and quota, and every credit is of an order, to its user and of its quota.
   */
  lemma CreditsAreTheOrders(callbacks: seq<Callback>, orders: map<string, Order>, balances: map<int, int>,
                            actions: seq<Action>, i: nat)
    ensures var shop := Run(callbacks, Initial(callbacks, orders, balances), actions).shop;
      && OrdersKept(shop, orders)
      && (i < |shop.credits| ==>
            && shop.credits[i].tradeNo in orders
            && shop.credits[i].userId == orders[shop.credits[i].tradeNo].userId
            && shop.credits[i].quota == orders[shop.credits[i].tradeNo].quota)
  {
    RunKeepsOwn(callbacks, Initial(callbacks, orders, balances), actions, orders);
  }

  /**
   * In every run, a callback whose last database call succeeds credits its order: the user's balance grows by the
   * order's quota, once, and the credit stays. A negative quota credits nothing.
   */
  lemma LastCallCredits(callbacks: seq<Callback>, orders: map<string, Order>, balances: map<int, int>,
                        actions: seq<Action>, i: nat)
    requires var s := Run(callbacks, Initial(callbacks, orders, balances), actions);
      i < |callbacks| && i < |s.pcs| && s.pcs[i].Saved?
    ensures callbacks[i].tradeNo in orders
    ensures var s := Run(callbacks, Initial(callbacks, orders, balances), actions);
      var s', o, user := Step(callbacks, s, Advance(i, true)), orders[callbacks[i].tradeNo], orders[callbacks[i].tradeNo].userId;
      if o.quota < 0 then s'.shop == s.shop
      else
        && s'.shop.credits == s.shop.credits + [Credit(callbacks[i].tradeNo, user, o.quota)]
        && (user in s.shop.balances ==> s'.shop.balances == s.shop.balances[user := s.shop.balances[user] + o.quota])
        && (user !in s.shop.balances ==> s'.shop.balances == s.shop.balances)
  {
    RunKeepsOwn(callbacks, Initial(callbacks, orders, balances), actions, orders);
    var s := Run(callbacks, Initial(callbacks, orders, balances), actions);
    assert ReadsOwn(s.pcs[i], callbacks[i], orders);
  }

  /** An undisturbed callback settles its pending order: success under its gateway number, and the user credited once. */
  lemma CallbackSettles(callbacks: seq<Callback>, orders: map<string, Order>, balances: map<int, int>, i: nat)
    returns (actions: seq<Action>)
    requires i < |callbacks| && callbacks[i].tradeNo in orders && orders[callbacks[i].tradeNo].status == Pending
    requires orders[callbacks[i].tradeNo].quota >= 0 && orders[callbacks[i].tradeNo].userId in balances
    ensures var s, t := Run(callbacks, Initial(callbacks, orders, balances), actions), callbacks[i].tradeNo;
      && |s.pcs| == |callbacks| && s.pcs[i] == Done && s.lockMap.held == map[]
      && s.shop.orders == orders[t := orders[t].(status := Success, gatewayNo := callbacks[i].gatewayNo)]
      && s.shop.balances == balances[orders[t].userId := balances[orders[t].userId] + orders[t].quota]
  {
    var s, a, t := Initial(callbacks, orders, balances), Advance(i, true), callbacks[i].tradeNo;
    var enter := Twice(i) + Twice(i) + Twice(i)[..1];
    Acquire(callbacks, s, i);
    var s1 := Run(callbacks, s, enter);
    var s2 := Step(callbacks, s1, a);
    var s3 := Step(callbacks, s2, a);
    var s4 := Step(callbacks, s3, a);
    var s5 := Step(callbacks, s4, a);
    assert s2.pcs[i] == Loaded(orders[t]) && s3.pcs[i] == Saved(orders[t]) && s4.pcs[i] == Leaving;
    assert s4.lockMap == s1.lockMap && s5.lockMap.held == map[];
    RunTwo(callbacks, s1, a, a);
    RunTwo(callbacks, s3, a, a);
    RunConcat(callbacks, s1, Twice(i), Twice(i));
    RunConcat(callbacks, s, enter, Twice(i) + Twice(i));
    actions := enter + (Twice(i) + Twice(i));
  }

  /** A sweep closes exactly the pending orders older than three hours and changes nothing else. */
  lemma SweepClosesOldOrders(callbacks: seq<Callback>, s: State, now: int, t: string)
    requires t in s.shop.orders
    ensures var s', o := Step(callbacks, s, CloseUnfinished(now)), s.shop.orders[t];
      && s'.shop.orders.Keys == s.shop.orders.Keys && s'.shop.balances == s.shop.balances && s'.shop.credits == s.shop.credits
      && s'.shop.orders[t]
         == if o.status == Pending && now - o.createdAt > 10800 then o.(status := Closed) else o
  {
  }

  // ----- The condition is exact

  /** Two callbacks of one trade number with different gateway numbers, for an order that can be credited. */
  ghost predicate Clash(callbacks: seq<Callback>, shop: Shop, i: nat, j: nat) {
    && i < |callbacks| && j < |callbacks|
    && callbacks[i].tradeNo == callbacks[j].tradeNo && callbacks[i].gatewayNo != callbacks[j].gatewayNo
    && Payable(shop, callbacks[i].tradeNo)
  }

  lemma {:induction false} RunConcat(callbacks: seq<Callback>, s: State, a: seq<Action>, b: seq<Action>)
    ensures Run(callbacks, s, a + b) == Run(callbacks, Run(callbacks, s, a), b)
    decreases |a|
  {
    if a == [] {
      assert a + b == b;
    } else {
      TailOfConcat(a, b);
      RunConcat(callbacks, Step(callbacks, s, a[0]), a[1..], b);
    }
  }

  lemma RunTwo(callbacks: seq<Callback>, s: State, a: Action, b: Action)
    ensures Run(callbacks, s, [a, b]) == Step(callbacks, Step(callbacks, s, a), b)
  {
    var s1 := Step(callbacks, s, a);
    assert [a, b][1..] == [b] && [b][1..] == [];
    assert Run(callbacks, s1, [b]) == Run(callbacks, Step(callbacks, s1, b), []);
  }

  function Twice(i: nat): seq<Action> {
    [Advance(i, true), Advance(i, true)]
  }

  /** Alone on its key, a callback reaches the critical section. */
  lemma Acquire(callbacks: seq<Callback>, s: State, i: nat)
    requires i < |callbacks| == |s.pcs| && s.pcs[i] == Start
    requires s.lockMap.creator == None && callbacks[i].gatewayNo !in s.lockMap.locks
    requires s.lockMap.nextMutex !in s.lockMap.held
    ensures var l := s.lockMap; var m := l.nextMutex;
      Run(callbacks, s, Twice(i) + Twice(i) + Twice(i)[..1])
      == s.(pcs := s.pcs[i := Locked],
            lockMap := LockMap(l.locks[callbacks[i].gatewayNo := m], l.held[m := i], None, m + 1))
  {
    var l, m, a := s.lockMap, s.lockMap.nextMutex, Advance(i, true);
    RunConcat(callbacks, s, Twice(i) + Twice(i), Twice(i)[..1]);
    RunConcat(callbacks, s, Twice(i), Twice(i));
    RunTwo(callbacks, s, a, a);
    var s2 := Step(callbacks, Step(callbacks, s, a), a);
    assert s2 == s.(pcs := s.pcs[i := Creating], lockMap := l.(creator := Some(i)));
    RunTwo(callbacks, s2, a, a);
    var s4 := Step(callbacks, Step(callbacks, s2, a), a);
    assert s4.pcs == s.pcs[i := Returning];
    assert Twice(i)[..1] == [a] && [a][1..] == [];
    assert Run(callbacks, s4, [a]) == Step(callbacks, s4, a);
  }

  /** Both callbacks read the pending order before either saves it. */
  lemma DoubleCredit(callbacks: seq<Callback>, s: State, i: nat, j: nat)
    requires |s.pcs| == |callbacks| && i != j && Clash(callbacks, s.shop, i, j)
    requires s.pcs[i] == Locked && s.pcs[j] == Locked && s.shop.credits == []
    ensures !PaidAtMostOnce(
      Run(callbacks, s, [Advance(i, true), Advance(j, true)] + Twice(i) + Twice(j)).shop.credits, callbacks[i].tradeNo)
  {
    var t := callbacks[i].tradeNo;
    var o := s.shop.orders[t];
    var read := [Advance(i, true), Advance(j, true)];
    RunConcat(callbacks, s, read + Twice(i), Twice(j));
    RunConcat(callbacks, s, read, Twice(i));
    RunTwo(callbacks, s, Advance(i, true), Advance(j, true));
    var s2 := Run(callbacks, s, read);
    assert s2.pcs[i] == Loaded(o) && s2.pcs[j] == Loaded(o) && s2.shop == s.shop;
    RunTwo(callbacks, s2, Advance(i, true), Advance(i, true));
    var s4 := Run(callbacks, s2, Twice(i));
    assert s4.pcs[j] == Loaded(o) && s4.shop.credits == [Credit(t, o.userId, o.quota)];
    RunTwo(callbacks, s4, Advance(j, true), Advance(j, true));
    var s6 := Run(callbacks, s4, Twice(j));
    assert s6.shop.credits[0].tradeNo == t && s6.shop.credits[1].tradeNo == t;
  }

  lemma ClashBreaks(callbacks: seq<Callback>, orders: map<string, Order>, balances: map<int, int>, i: nat, j: nat)
    returns (actions: seq<Action>)
    requires Clash(callbacks, Shop(orders, balances, []), i, j)
    ensures !PaidAtMostOnce(Run(callbacks, Initial(callbacks, orders, balances), actions).shop.credits, callbacks[i].tradeNo)
  {
    var s := Initial(callbacks, orders, balances);
    var first, second := Twice(i) + Twice(i) + Twice(i)[..1], Twice(j) + Twice(j) + Twice(j)[..1];
    var pay := [Advance(i, true), Advance(j, true)] + Twice(i) + Twice(j);
    actions := first + second + pay;
    RunConcat(callbacks, s, first + second, pay);
    RunConcat(callbacks, s, first, second);
    Acquire(callbacks, s, i);
    var s1 := Run(callbacks, s, first);
    Acquire(callbacks, s1, j);
    DoubleCredit(callbacks, Run(callbacks, s1, second), i, j);
  }

  /**
   * Every interleaving of callbacks and close sweeps credits each order at most once exactly when
   * no two callbacks of a payable order carry different gateway numbers.
   */
  lemma AtMostOnceExactlyWhen(callbacks: seq<Callback>, orders: map<string, Order>, balances: map<int, int>)
    ensures (forall actions, tradeNo ::
               PaidAtMostOnce(Run(callbacks, Initial(callbacks, orders, balances), actions).shop.credits, tradeNo))
       <==> (forall i, j :: !Clash(callbacks, Shop(orders, balances, []), i, j))
  {
    var s := Initial(callbacks, orders, balances);
    if i, j :| Clash(callbacks, s.shop, i, j) {
      var actions := ClashBreaks(callbacks, orders, balances, i, j);
    } else {
      forall actions, tradeNo ensures PaidAtMostOnce(Run(callbacks, s, actions).shop.credits, tradeNo) {
        if Payable(s.shop, tradeNo) {
          forall i, j | 0 <= i < |callbacks| && 0 <= j < |callbacks|
            && callbacks[i].tradeNo == tradeNo && callbacks[j].tradeNo == tradeNo
            ensures callbacks[i].gatewayNo == callbacks[j].gatewayNo
          {
            assert !Clash(callbacks, s.shop, i, j);
          }
        }
        RunPaysOnce(callbacks, s, actions, tradeNo);
      }
    }
  }
}
