/**
 * The control protocol between a worker and the gateway (tokilake-core/gateway.go,
 * tokiame/client.go, tokilake-core/protocol.go).
 *
 * First the gateway's read loop alone, against every sequence of messages; then worker and
 * gateway joined by two FIFO channels, over every interleaving.
 */
module ControlPlane {
  import opened Basics

  datatype Kind = Auth | Register | Heartbeat | ModelsSync | CancelRequest | Ack | Error | Unknown(name: string)

  /** Request ids are only compared; the worker's are fresh (a UUID each). */
  type RequestId = nat

  /** `payloads` says which of the message's payload pointers are set. */
  datatype Message = Message(kind: Kind, requestId: RequestId, payloads: set<Kind>)

  datatype Code =
    | AuthAlreadyCompleted | AuthPayloadMissing | AuthFailed
    | NotAuthenticated | NotRegistered
    | RegisterAlreadyCompleted | RegisterPayloadMissing | RegisterFailed
    | HeartbeatPayloadMissing | HeartbeatFailed
    | ModelsPayloadMissing | ModelsSyncFailed
    | UnsupportedMessageType

  datatype Reply = AckReply(requestId: RequestId, of: Call) | ErrorReply(requestId: RequestId, code: Code)

  /** The calls out of the loop: the authenticator, then the three of the worker registry. */
  datatype Call = Authenticate | RegisterWorker | UpdateHeartbeat | SyncModels

  /** Outcome of the call a message leads to, the worker id a registration yields, and whether the reply was written. */
  datatype Env = Env(ok: bool, worker: WorkerId, sent: bool)

  /** A successful `RegisterWorker` binds a channel under the database id of its worker row. */
  type WorkerId = w: int | w != 0 witness 1

  // ----- One message

  datatype Session = Session(authenticated: bool, workerId: int)

  /** What the loop does with one message. */
  datatype Handled = Handled(session: Session, call: Option<Call>, reply: Option<Reply>)

  function Refuse(s: Session, m: Message, code: Code): Handled {
    Handled(s, None, Some(ErrorReply(m.requestId, code)))
  }

  function Attempt(s: Session, m: Message, call: Call, ok: bool, after: Session, failure: Code): Handled {
    if ok then Handled(after, Some(call), Some(AckReply(m.requestId, call)))
    else Handled(s, Some(call), Some(ErrorReply(m.requestId, failure)))
  }

  function Handle(s: Session, m: Message, env: Env): Handled {
    match m.kind
    case Auth =>
      if s.authenticated then Refuse(s, m, AuthAlreadyCompleted)
      else if Auth !in m.payloads then Refuse(s, m, AuthPayloadMissing)
      else Attempt(s, m, Authenticate, env.ok, s.(authenticated := true), AuthFailed)
    case Register =>
      if !s.authenticated then Refuse(s, m, NotAuthenticated)
      else if s.workerId != 0 then Refuse(s, m, RegisterAlreadyCompleted)
      else if Register !in m.payloads then Refuse(s, m, RegisterPayloadMissing)
      else Attempt(s, m, RegisterWorker, env.ok, s.(workerId := env.worker), RegisterFailed)
    case Heartbeat =>
      if !s.authenticated then Refuse(s, m, NotAuthenticated)
      else if s.workerId == 0 then Refuse(s, m, NotRegistered)
      else if Heartbeat !in m.payloads then Refuse(s, m, HeartbeatPayloadMissing)
      else Attempt(s, m, UpdateHeartbeat, env.ok, s, HeartbeatFailed)
    case ModelsSync =>
      if !s.authenticated then Refuse(s, m, NotAuthenticated)
      else if s.workerId == 0 then Refuse(s, m, NotRegistered)
      else if ModelsSync !in m.payloads then Refuse(s, m, ModelsPayloadMissing)
      else Attempt(s, m, SyncModels, env.ok, s, ModelsSyncFailed)
    case Ack => Handled(s, None, None)
    case Error => Handled(s, None, None)
    case _ => Refuse(s, m, if s.authenticated then UnsupportedMessageType else NotAuthenticated)
  }

  // ----- The read loop

  datatype Event = Received(m: Message) | Called(call: Call, ok: bool) | Replied(r: Reply)

  function Trace(m: Message, h: Handled): seq<Event> {
    [Received(m)]
    + (if h.call.Some? then [Called(h.call.value, h.reply.Some? && h.reply.value.AckReply?)] else [])
    + (if h.reply.Some? then [Replied(h.reply.value)] else [])
  }

  /** A failed write and an error reply both end the loop. */
  predicate Ends(h: Handled, env: Env) {
    h.reply.Some? && (h.reply.value.ErrorReply? || !env.sent)
  }

  /** The events of the loop on an inbox; running out of messages is a read error or a timeout. */
  function Serve(s: Session, inbox: seq<Message>, envs: seq<Env>): (Session, seq<Event>)
    decreases |inbox|
  {
    if inbox == [] || envs == [] then (s, [])
    else
      var h := Handle(s, inbox[0], envs[0]);
      if Ends(h, envs[0]) then (h.session, Trace(inbox[0], h))
      else
        var (s', events) := Serve(h.session, inbox[1..], envs[1..]);
        (s', Trace(inbox[0], h) + events)
  }

  class GatewaySession {
    var authenticated: bool
    var workerId: int

    function View(): Session
      reads this
    {
      Session(authenticated, workerId)
    }

    constructor (preauthenticated: bool)
      ensures View() == Session(preauthenticated, 0)
    {
      authenticated, workerId := preauthenticated, 0;
    }

    /** The switch of the read loop. */
    method HandleMessage(m: Message, env: Env) returns (events: seq<Event>, stop: bool)
      modifies this
      ensures var h := Handle(old(View()), m, env);
        View() == h.session && events == Trace(m, h) && stop == Ends(h, env)
    {
      events := [Received(m)];
      var reply := None;
      match m.kind {
        case Auth =>
          if authenticated {
            reply := Some(ErrorReply(m.requestId, AuthAlreadyCompleted));
          } else if Auth !in m.payloads {
            reply := Some(ErrorReply(m.requestId, AuthPayloadMissing));
          } else {
            events := events + [Called(Authenticate, env.ok)];
            if env.ok {
              authenticated := true;
              reply := Some(AckReply(m.requestId, Authenticate));
            } else {
              reply := Some(ErrorReply(m.requestId, AuthFailed));
            }
          }
        case Register =>
          if !authenticated {
            reply := Some(ErrorReply(m.requestId, NotAuthenticated));
          } else if workerId != 0 {
            reply := Some(ErrorReply(m.requestId, RegisterAlreadyCompleted));
          } else if Register !in m.payloads {
            reply := Some(ErrorReply(m.requestId, RegisterPayloadMissing));
          } else {
            events := events + [Called(RegisterWorker, env.ok)];
            if env.ok {
              workerId := env.worker;
              reply := Some(AckReply(m.requestId, RegisterWorker));
            } else {
              reply := Some(ErrorReply(m.requestId, RegisterFailed));
            }
          }
        case Heartbeat =>
          if !authenticated {
            reply := Some(ErrorReply(m.requestId, NotAuthenticated));
          } else if workerId == 0 {
            reply := Some(ErrorReply(m.requestId, NotRegistered));
          } else if Heartbeat !in m.payloads {
            reply := Some(ErrorReply(m.requestId, HeartbeatPayloadMissing));
          } else {
            events := events + [Called(UpdateHeartbeat, env.ok)];
            reply := Some(if env.ok then AckReply(m.requestId, UpdateHeartbeat)
                          else ErrorReply(m.requestId, HeartbeatFailed));
          }
        case ModelsSync =>
          if !authenticated {
            reply := Some(ErrorReply(m.requestId, NotAuthenticated));
          } else if workerId == 0 {
            reply := Some(ErrorReply(m.requestId, NotRegistered));
          } else if ModelsSync !in m.payloads {
            reply := Some(ErrorReply(m.requestId, ModelsPayloadMissing));
          } else {
            events := events + [Called(SyncModels, env.ok)];
            reply := Some(if env.ok then AckReply(m.requestId, SyncModels)
                          else ErrorReply(m.requestId, ModelsSyncFailed));
          }
        case Ack =>
        case Error =>
        case _ =>
          reply := Some(ErrorReply(m.requestId, if authenticated then UnsupportedMessageType else NotAuthenticated));
      }
      stop := false;
      if reply.Some? {
        events := events + [Replied(reply.value)];
        stop := reply.value.ErrorReply? || !env.sent;
      }
    }

    method ServeControlStream(inbox: seq<Message>, envs: seq<Env>) returns (log: seq<Event>)
      modifies this
      ensures View() == Serve(old(View()), inbox, envs).0
      ensures log == Serve(old(View()), inbox, envs).1
    {
      log := [];
      var i := 0;
      while i < |inbox| && i < |envs|
        invariant 0 <= i <= |inbox| && i <= |envs|
        invariant Serve(View(), inbox[i..], envs[i..]).0 == Serve(old(View()), inbox, envs).0
        invariant log + Serve(View(), inbox[i..], envs[i..]).1 == Serve(old(View()), inbox, envs).1
      {
        ServeNext(View(), inbox, envs, i);
        hide *;
        ghost var before := log;
        var events, stop := HandleMessage(inbox[i], envs[i]);
        Assoc(before, events, Serve(View(), inbox[i + 1..], envs[i + 1..]).1);
        log := log + events;
        if stop {
          return;
        }
        i := i + 1;
      }
    }
  }

  /** Serving from message i on is handling it and, unless that ends the loop, serving from i + 1 on. */
  lemma ServeNext(s: Session, inbox: seq<Message>, envs: seq<Env>, i: nat)
    requires i < |inbox| && i < |envs|
    ensures var h := Handle(s, inbox[i], envs[i]);
      var now, later := Serve(s, inbox[i..], envs[i..]), Serve(h.session, inbox[i + 1..], envs[i + 1..]);
      if Ends(h, envs[i]) then now.0 == h.session && now.1 == Trace(inbox[i], h)
      else now.0 == later.0 && now.1 == Trace(inbox[i], h) + later.1
  {
    assert inbox[i..][0] == inbox[i] && inbox[i..][1..] == inbox[i + 1..];
    assert envs[i..][0] == envs[i] && envs[i..][1..] == envs[i + 1..];
  }

  // ----- What the loop may do, as a protocol monitor

  /** `pending` is the request that still owes a reply; after an error reply nothing may follow. */
  datatype Monitor = Monitor(authenticated: bool, registered: bool, pending: Option<RequestId>, closed: bool)

  predicate ExpectsReply(m: Message) {
    !m.kind.Ack? && !m.kind.Error?
  }

  predicate Allowed(mon: Monitor, e: Event) {
    && !mon.closed
    && match e
       case Received(_) => mon.pending.None?
       case Called(Authenticate, _) => mon.pending.Some? && !mon.authenticated
       case Called(RegisterWorker, _) => mon.pending.Some? && mon.authenticated && !mon.registered
       case Called(_, _) => mon.pending.Some? && mon.authenticated && mon.registered
       case Replied(r) => mon.pending == Some(r.requestId)
  }

  function Observe(mon: Monitor, e: Event): Monitor {
    match e
    case Received(m) => mon.(pending := if ExpectsReply(m) then Some(m.requestId) else None)
    case Called(Authenticate, ok) => mon.(authenticated := mon.authenticated || ok)
    case Called(RegisterWorker, ok) => mon.(registered := mon.registered || ok)
    case Called(_, _) => mon
    case Replied(r) => mon.(pending := None, closed := r.ErrorReply?)
  }

  function ObserveAll(mon: Monitor, log: seq<Event>): Monitor
    decreases |log|
  {
    if log == [] then mon else ObserveAll(Observe(mon, log[0]), log[1..])
  }

  /** Every event is allowed when it happens, and no request is left without its reply. */
  predicate Accepted(mon: Monitor, log: seq<Event>)
    decreases |log|
  {
    if log == [] then mon.pending.None? else Allowed(mon, log[0]) && Accepted(Observe(mon, log[0]), log[1..])
  }

  function Monitoring(s: Session): Monitor {
    Monitor(s.authenticated, s.workerId != 0, None, false)
  }

  lemma {:induction false} AcceptedConcat(mon: Monitor, a: seq<Event>, b: seq<Event>)
    requires Accepted(mon, a) && Accepted(ObserveAll(mon, a), b)
    ensures Accepted(mon, a + b)
    decreases |a|
  {
    if a == [] {
      assert a + b == b;
    } else {
      TailOfConcat(a, b);
      AcceptedConcat(Observe(mon, a[0]), a[1..], b);
    }
  }

  lemma TraceAccepted(s: Session, m: Message, env: Env)
    ensures var h := Handle(s, m, env);
      && Accepted(Monitoring(s), Trace(m, h))
      && ObserveAll(Monitoring(s), Trace(m, h))
         == Monitoring(h.session).(closed := h.reply.Some? && h.reply.value.ErrorReply?)
  {
    var h := Handle(s, m, env);
    var log := Trace(m, h);
    var mon := Observe(Monitoring(s), log[0]);
    if |log| == 3 {
      assert log[1..] == [log[1], log[2]] && log[1..][1..] == [log[2]] && log[1..][1..][1..] == [];
      assert Accepted(Observe(mon, log[1]), [log[2]]);
      assert ObserveAll(Observe(mon, log[1]), [log[2]]) == Observe(Observe(mon, log[1]), log[2]);
    } else if |log| == 2 {
      assert log[1..] == [log[1]] && log[1..][1..] == [];
      assert ObserveAll(mon, [log[1]]) == Observe(mon, log[1]);
    } else {
      assert log[1..] == [];
    }
  }

  /** Whatever the worker sends, the loop's calls and replies follow the protocol. */
  lemma {:induction false} ServeAccepted(s: Session, inbox: seq<Message>, envs: seq<Env>)
    ensures Accepted(Monitoring(s), Serve(s, inbox, envs).1)
    decreases |inbox|
  {
    if inbox != [] && envs != [] {
      var h := Handle(s, inbox[0], envs[0]);
      TraceAccepted(s, inbox[0], envs[0]);
      if !Ends(h, envs[0]) {
        ServeAccepted(h.session, inbox[1..], envs[1..]);
        AcceptedConcat(Monitoring(s), Trace(inbox[0], h), Serve(h.session, inbox[1..], envs[1..]).1);
      }
    }
  }

  lemma {:induction false} OrderOfCalls(mon: Monitor, log: seq<Event>, i: nat)
    requires Accepted(mon, log) && i < |log| && log[i].Called?
    ensures log[i].call != Authenticate ==> mon.authenticated || Called(Authenticate, true) in log[..i]
    ensures log[i].call in {UpdateHeartbeat, SyncModels} ==> mon.registered || Called(RegisterWorker, true) in log[..i]
    ensures log[i].call == RegisterWorker ==> !mon.registered && Called(RegisterWorker, true) !in log[..i]
    decreases i
  {
    if i > 0 {
      OrderOfCalls(Observe(mon, log[0]), log[1..], i - 1);
      assert log[..i] == [log[0]] + log[1..][..i - 1];
    }
  }

  lemma {:induction false} ErrorReplyIsLast(mon: Monitor, log: seq<Event>, i: nat)
    requires Accepted(mon, log) && i < |log| && log[i].Replied? && log[i].r.ErrorReply?
    ensures i == |log| - 1
    decreases i
  {
    if i > 0 {
      ErrorReplyIsLast(Observe(mon, log[0]), log[1..], i - 1);
    }
  }

  /** The registry is called only once authenticated, registered at most once, and kept alive only after that. */
  lemma RegistryCalls(s: Session, inbox: seq<Message>, envs: seq<Env>, i: nat)
    requires s.workerId == 0
    requires var log := Serve(s, inbox, envs).1; i < |log| && log[i].Called?
    ensures var log := Serve(s, inbox, envs).1;
      && (log[i].call != Authenticate ==> s.authenticated || Called(Authenticate, true) in log[..i])
      && (log[i].call in {UpdateHeartbeat, SyncModels} ==> Called(RegisterWorker, true) in log[..i])
      && (log[i].call == RegisterWorker ==> Called(RegisterWorker, true) !in log[..i])
  {
    ServeAccepted(s, inbox, envs);
    OrderOfCalls(Monitoring(s), Serve(s, inbox, envs).1, i);
  }

  // ----- Worker and gateway joined by FIFO channels

  datatype Transport = WebSocket | Quic

  /** The three requests of the worker's handshake. */
  datatype Stage = AuthStage | RegisterStage | SyncStage

  datatype Worker =
    | Sending(stage: Stage)
    | Awaiting(stage: Stage, id: RequestId)
    | Running(receiving: bool)   // heartbeats; `receiving` until the receive loop sees an error
    | Stopped

  /** What travels to the worker: replies and cancel requests. */
  datatype Down = Answer(r: Reply) | Cancel(requestId: RequestId)

  /** `calls` records the gateway's successful calls and `replies` every reply it has written. */
  datatype System = System(
    transport: Transport, worker: Worker, nextId: RequestId, up: seq<Message>, down: seq<Down>,
    gateway: Session, serving: bool, calls: seq<Call>, replies: seq<Reply>)

  datatype Action =
    | WorkerSends
    | WorkerReceives
    | WorkerBeats
    | WorkerStops
    | GatewayHandles(env: Env)
    | GatewayCancels(id: RequestId)
    | GatewayStops

  /** A WebSocket session is authenticated on connect; a QUIC one by its first message. */
  function Initial(transport: Transport): System {
    System(transport, Sending(if transport == Quic then AuthStage else RegisterStage), 0, [], [],
           Session(transport == WebSocket, 0), true, [], [])
  }

  function StageKind(stage: Stage): Kind {
    match stage case AuthStage => Auth case RegisterStage => Register case SyncStage => ModelsSync
  }

  function AfterAck(stage: Stage): Worker {
    match stage
    case AuthStage => Sending(RegisterStage)
    case RegisterStage => Sending(SyncStage)
    case SyncStage => Running(true)
  }

  /** `awaitAck` while a handshake request is out, `receiveControlMessages` afterwards. */
  function Receive(y: System, d: Down): System {
    match y.worker
    case Awaiting(stage, id) =>
      if d.Answer? && d.r.requestId == id then y.(worker := if d.r.AckReply? then AfterAck(stage) else Stopped) else y
    case Running(_) =>
      if d.Cancel? then y.(up := y.up + [Message(Ack, d.requestId, {Ack})])
      else if d.r.ErrorReply? then y.(worker := Running(false)) else y
    case _ => y
  }

  function Deliver(y: System, m: Message, env: Env): System {
    var h := Handle(y.gateway, m, env);
    var calls := if h.call.Some? && h.reply.value.AckReply? then y.calls + [h.call.value] else y.calls;
    var y' := y.(gateway := h.session, serving := !Ends(h, env), calls := calls);
    if h.reply.Some? && env.sent
    then y'.(down := y.down + [Answer(h.reply.value)], replies := y.replies + [h.reply.value]) else y'
  }

  function Step(y: System, a: Action): System {
    match a
    case WorkerSends =>
      if !y.worker.Sending? then y
      else
        var kind := StageKind(y.worker.stage);
        y.(worker := Awaiting(y.worker.stage, y.nextId), nextId := y.nextId + 1,
           up := y.up + [Message(kind, y.nextId, {kind})])
    case WorkerReceives =>
      if y.down == [] || !(y.worker.Awaiting? || (y.worker.Running? && y.worker.receiving)) then y
      else Receive(y.(down := y.down[1..]), y.down[0])
    case WorkerBeats =>
      if !y.worker.Running? then y
      else y.(nextId := y.nextId + 1, up := y.up + [Message(Heartbeat, y.nextId, {Heartbeat})])
    case WorkerStops => y.(worker := Stopped)
    case GatewayHandles(env) =>
      if !y.serving || y.up == [] then y else Deliver(y.(up := y.up[1..]), y.up[0], env)
    case GatewayCancels(id) => y.(down := y.down + [Cancel(id)])
    case GatewayStops => y.(serving := false)
  }

  function Run(y: System, actions: seq<Action>): System
    decreases |actions|
  {
    if actions == [] then y else Run(Step(y, actions[0]), actions[1..])
  }

  // ----- The handshake in lock step

  /** How many successful calls come before the stage's own. */
  function Before(t: Transport, stage: Stage): nat {
    var auth := if t == Quic then 1 else 0;
    match stage case AuthStage => 0 case RegisterStage => auth case SyncStage => auth + 1
  }

  /** The only order of successful calls: authentication over QUIC, registration, the models, heartbeats. */
  function ExpectedCall(t: Transport, i: nat): Call {
    if i < Before(t, RegisterStage) then Authenticate
    else if i == Before(t, RegisterStage) then RegisterWorker
    else if i == Before(t, SyncStage) then SyncModels
    else UpdateHeartbeat
  }

  ghost predicate CallsInOrder(y: System) {
    && (forall i :: 0 <= i < |y.calls| ==> y.calls[i] == ExpectedCall(y.transport, i))
    && (y.gateway.authenticated <==> |y.calls| >= Before(y.transport, RegisterStage))
    && (y.gateway.workerId != 0 <==> |y.calls| > Before(y.transport, RegisterStage))
  }

  predicate Handshake(m: Message, stage: Stage) {
    m.kind == StageKind(stage) && m.kind in m.payloads
  }

  predicate SteadyState(m: Message) {
    m.kind == Ack || (m.kind == Heartbeat && Heartbeat in m.payloads)
  }

  /** Nothing, one handshake request the gateway is ready for, or heartbeats and acks of a settled worker. */
  ghost predicate UpInv(y: System) {
    || y.up == []
    || (|y.up| == 1 && exists stage :: Handshake(y.up[0], stage) && |y.calls| == Before(y.transport, stage)
                                       && (stage == AuthStage ==> y.transport == Quic))
    || (|y.calls| > Before(y.transport, SyncStage) && forall i :: 0 <= i < |y.up| ==> SteadyState(y.up[i]))
  }

  ghost predicate WorkerInv(y: System) {
    match y.worker
    case Sending(stage) =>
      y.up == [] && |y.calls| == Before(y.transport, stage) && (stage == AuthStage ==> y.transport == Quic)
    case Awaiting(stage, id) =>
      && (stage == AuthStage ==> y.transport == Quic)
      && id < y.nextId
      && (|| (|y.up| == 1 && Handshake(y.up[0], stage) && y.up[0].requestId == id
              && |y.calls| == Before(y.transport, stage) && NoAck(y.down, id))
          || (y.up == [] && (|y.calls| == Before(y.transport, stage) + 1 || NoAck(y.down, id))))
    case Running(_) => |y.calls| > Before(y.transport, SyncStage)
                       && forall i :: 0 <= i < |y.up| ==> SteadyState(y.up[i])
    case Stopped => true
  }

  ghost predicate NoAck(down: seq<Down>, id: RequestId) {
    forall i :: 0 <= i < |down| && down[i].Answer? && down[i].r.AckReply? ==> down[i].r.requestId != id
  }

  ghost predicate OldAnswers(y: System) {
    && (forall i :: 0 <= i < |y.down| && y.down[i].Answer? && y.down[i].r.AckReply? ==> y.down[i].r.requestId < y.nextId)
    && (forall i :: 0 <= i < |y.up| && ExpectsReply(y.up[i]) ==> y.up[i].requestId < y.nextId)
  }

  /** The replies a worker that follows the protocol can get. */
  predicate Benign(r: Reply) {
    r.AckReply? || r.code in {AuthFailed, RegisterFailed, HeartbeatFailed, ModelsSyncFailed}
  }

  ghost predicate Inv(y: System) {
    CallsInOrder(y) && UpInv(y) && WorkerInv(y) && OldAnswers(y) && forall i :: 0 <= i < |y.replies| ==> Benign(y.replies[i])
  }

  /** A request the gateway is ready for either succeeds as the next expected call or fails for the registry's own reasons. */
  lemma HandshakeSucceeds(y: System, m: Message, stage: Stage, env: Env)
    requires CallsInOrder(y) && Handshake(m, stage) && |y.calls| == Before(y.transport, stage)
    requires stage == AuthStage ==> y.transport == Quic
    ensures var h := Handle(y.gateway, m, env);
      && h.reply.Some? && Benign(h.reply.value) && h.reply.value.requestId == m.requestId
      && h.call == Some(ExpectedCall(y.transport, |y.calls|)) && h.reply.value.AckReply? == env.ok
      && CallsInOrder(Deliver(y, m, env))
  {
  }

  lemma SteadySucceeds(y: System, m: Message, env: Env)
    requires CallsInOrder(y) && SteadyState(m) && |y.calls| > Before(y.transport, SyncStage)
    ensures var h := Handle(y.gateway, m, env);
      && (h.reply.Some? ==> m.kind == Heartbeat && Benign(h.reply.value) && h.reply.value.requestId == m.requestId)
      && CallsInOrder(Deliver(y, m, env))
  {
  }

  lemma SteadyDeliverKeepsInv(y: System, env: Env)
    requires Inv(y) && y.up != []
    requires |y.calls| > Before(y.transport, SyncStage) && forall i :: 0 <= i < |y.up| ==> SteadyState(y.up[i])
    ensures Inv(Deliver(y.(up := y.up[1..]), y.up[0], env))
  {
    SteadySucceeds(y.(up := y.up[1..]), y.up[0], env);
  }

  lemma HandshakeDeliverKeepsInv(y: System, stage: Stage, env: Env)
    requires Inv(y) && |y.up| == 1 && Handshake(y.up[0], stage) && |y.calls| == Before(y.transport, stage)
    requires stage == AuthStage ==> y.transport == Quic
    ensures Inv(Deliver(y.(up := y.up[1..]), y.up[0], env))
  {
    var rest := y.(up := y.up[1..]);
    assert CallsInOrder(rest) && rest.up == [];
    HandshakeSucceeds(rest, y.up[0], stage, env);
    assert Deliver(rest, y.up[0], env).up == [];
  }

  lemma DeliverKeepsInv(y: System, env: Env)
    requires Inv(y) && y.up != []
    ensures Inv(Deliver(y.(up := y.up[1..]), y.up[0], env))
  {
    if |y.calls| > Before(y.transport, SyncStage) && forall i :: 0 <= i < |y.up| ==> SteadyState(y.up[i]) {
      SteadyDeliverKeepsInv(y, env);
    } else {
      var stage :| Handshake(y.up[0], stage) && |y.calls| == Before(y.transport, stage) && (stage == AuthStage ==> y.transport == Quic);
      HandshakeDeliverKeepsInv(y, stage, env);
    }
  }

  lemma PopKeepsInv(y: System)
    requires Inv(y) && y.down != []
    ensures Inv(y.(down := y.down[1..]))
  {
    var rest := y.(down := y.down[1..]);
    assert forall id :: NoAck(y.down, id) ==> NoAck(rest.down, id);
    assert UpInv(rest);
  }

  /** An ack of the awaited request is on its way only if the gateway made the stage's call. */
  lemma AckMeansDone(y: System)
    requires Inv(y) && y.down != [] && y.worker.Awaiting?
    requires y.down[0].Answer? && y.down[0].r.AckReply? && y.down[0].r.requestId == y.worker.id
    ensures y.up == [] && |y.calls| == Before(y.transport, y.worker.stage) + 1
  {
    assert !NoAck(y.down, y.worker.id);
  }

  /** The worker goes on to the next stage once the call of this one was made. */
  lemma NextStageKeepsInv(y: System)
    requires Inv(y) && y.worker.Awaiting? && y.up == [] && |y.calls| == Before(y.transport, y.worker.stage) + 1
    ensures Inv(y.(worker := AfterAck(y.worker.stage)))
  {
  }

  lemma StoppedKeepsInv(y: System)
    requires Inv(y)
    ensures Inv(y.(worker := Stopped))
  {
    assert UpInv(y.(worker := Stopped)) && CallsInOrder(y.(worker := Stopped));
  }

  lemma DeafKeepsInv(y: System)
    requires Inv(y) && y.worker.Running?
    ensures Inv(y.(worker := Running(false)))
  {
    assert UpInv(y.(worker := Running(false))) && CallsInOrder(y.(worker := Running(false)));
  }

  lemma AnswerCancelKeepsInv(y: System, id: RequestId)
    requires Inv(y) && y.worker.Running?
    ensures Inv(y.(up := y.up + [Message(Ack, id, {Ack})]))
  {
  }

  lemma ReceiveKeepsInv(y: System)
    requires Inv(y) && y.down != []
    ensures Inv(Receive(y.(down := y.down[1..]), y.down[0]))
  {
    hide Inv, CallsInOrder, UpInv, WorkerInv, OldAnswers, Before, AfterAck;
    var rest, d := y.(down := y.down[1..]), y.down[0];
    PopKeepsInv(y);
    match y.worker {
      case Awaiting(stage, id) =>
        if d.Answer? && d.r.requestId == id {
          if d.r.AckReply? {
            AckMeansDone(y);
            NextStageKeepsInv(rest);
          } else {
            StoppedKeepsInv(rest);
          }
        }
      case Running(_) =>
        if d.Cancel? {
          AnswerCancelKeepsInv(rest, d.requestId);
        } else if d.r.ErrorReply? {
          DeafKeepsInv(rest);
        }
      case _ =>
    }
  }

  lemma SendKeepsInv(y: System)
    requires Inv(y)
    ensures Inv(Step(y, WorkerSends))
  {
    if y.worker.Sending? {
      var kind := StageKind(y.worker.stage);
      assert Handshake(Message(kind, y.nextId, {kind}), y.worker.stage);
    }
  }

  lemma BeatKeepsInv(y: System)
    requires Inv(y)
    ensures Inv(Step(y, WorkerBeats))
  {
  }

  lemma CancelKeepsInv(y: System, id: RequestId)
    requires Inv(y)
    ensures Inv(Step(y, GatewayCancels(id)))
  {
    assert UpInv(Step(y, GatewayCancels(id)));
  }

  lemma GatewayStopKeepsInv(y: System)
    requires Inv(y)
    ensures Inv(Step(y, GatewayStops))
  {
    assert UpInv(Step(y, GatewayStops));
  }

  lemma StepKeepsInv(y: System, a: Action)
    requires Inv(y)
    ensures Inv(Step(y, a))
  {
    hide Inv, Receive, Deliver;
    match a {
      case WorkerSends => SendKeepsInv(y);
      case WorkerReceives =>
        if y.down != [] {
          ReceiveKeepsInv(y);
        }
      case WorkerBeats => BeatKeepsInv(y);
      case WorkerStops => StoppedKeepsInv(y);
      case GatewayHandles(env) =>
        if y.up != [] {
          DeliverKeepsInv(y, env);
        }
      case GatewayCancels(id) => CancelKeepsInv(y, id);
      case GatewayStops => GatewayStopKeepsInv(y);
    }
  }

  lemma {:induction false} RunKeepsInv(y: System, actions: seq<Action>)
    requires Inv(y)
    ensures Inv(Run(y, actions))
    decreases |actions|
  {
    if actions != [] {
      StepKeepsInv(y, actions[0]);
      RunKeepsInv(Step(y, actions[0]), actions[1..]);
    }
  }

  /**
   * In every run, over either transport: the gateway's successful calls come in the one expected order, it never
   * complains about the order or shape of the worker's messages, and a worker that beats has been registered and synced.
   */
  lemma ProtocolHolds(transport: Transport, actions: seq<Action>)
    ensures var y := Run(Initial(transport), actions);
      && (forall i :: 0 <= i < |y.calls| ==> y.calls[i] == ExpectedCall(transport, i))
      && (forall i :: 0 <= i < |y.replies| ==> Benign(y.replies[i]))
      && (y.worker.Running? ==> y.gateway.workerId != 0 && RegisterWorker in y.calls && SyncModels in y.calls)
  {
    RunKeepsInv(Initial(transport), actions);
    TransportFixed(Initial(transport), actions);
    var y := Run(Initial(transport), actions);
    if y.worker.Running? {
      assert y.calls[Before(transport, RegisterStage)] == RegisterWorker;
      assert y.calls[Before(transport, SyncStage)] == SyncModels;
    }
  }

  lemma {:induction false} TransportFixed(y: System, actions: seq<Action>)
    ensures Run(y, actions).transport == y.transport
    decreases |actions|
  {
    if actions != [] {
      TransportFixed(Step(y, actions[0]), actions[1..]);
    }
  }

  // ----- The handshake completes

  /** One request of the handshake, handled and answered at once. */
  function Round(worker: WorkerId): seq<Action> {
    [WorkerSends, GatewayHandles(Env(true, worker, true)), WorkerReceives]
  }

  lemma RequestIsAnswered(y: System, m: Message, stage: Stage, worker: WorkerId)
    requires CallsInOrder(y) && Handshake(m, stage) && |y.calls| == Before(y.transport, stage) && y.serving
    requires stage == AuthStage ==> y.transport == Quic
    ensures var y', call := Deliver(y, m, Env(true, worker, true)), ExpectedCall(y.transport, |y.calls|);
      && y' == y.(gateway := y'.gateway, calls := y.calls + [call], down := y.down + [Answer(AckReply(m.requestId, call))],
                  replies := y'.replies)
      && y'.gateway.workerId == (if stage == RegisterStage then worker else y.gateway.workerId)
  {
    HandshakeSucceeds(y, m, stage, Env(true, worker, true));
  }

  /** The three steps of a round, with the gateway's part left open. */
  lemma RoundSteps(y: System, worker: WorkerId, m: Message, answered: System)
    requires y.worker.Sending? && y.up == [] && y.down == [] && y.serving
    requires m == Message(StageKind(y.worker.stage), y.nextId, {StageKind(y.worker.stage)})
    requires answered
          == Deliver(y.(worker := Awaiting(y.worker.stage, y.nextId), nextId := y.nextId + 1), m, Env(true, worker, true))
    requires answered.worker == Awaiting(y.worker.stage, y.nextId) && |answered.down| == 1
    requires answered.down[0].Answer? && answered.down[0].r.AckReply? && answered.down[0].r.requestId == y.nextId
    ensures Run(y, Round(worker)) == answered.(worker := AfterAck(y.worker.stage), down := [])
  {
    hide Deliver, AfterAck, StageKind, Run;
    var env := Env(true, worker, true);
    RunThree(y, WorkerSends, GatewayHandles(env), WorkerReceives);
    var y1 := Step(y, WorkerSends);
    assert y1.up == [m] && y1.up[1..] == [];
    assert Step(y1, GatewayHandles(env)) == answered;
    assert answered.down[1..] == [];
  }

  lemma RoundAdvances(y: System, worker: WorkerId)
    requires Inv(y) && y.worker.Sending? && y.down == [] && y.serving
    ensures var y', stage := Run(y, Round(worker)), y.worker.stage;
      && Inv(y') && y'.down == [] && y'.up == [] && y'.serving && y'.worker == AfterAck(stage)
      && y'.calls == y.calls + [ExpectedCall(y.transport, |y.calls|)] && y'.transport == y.transport
      && y'.gateway.workerId == (if stage == RegisterStage then worker else y.gateway.workerId)
  {
    var stage, kind := y.worker.stage, StageKind(y.worker.stage);
    var m := Message(kind, y.nextId, {kind});
    var rest := y.(worker := Awaiting(stage, y.nextId), nextId := y.nextId + 1);
    assert y.up == [] && CallsInOrder(rest);
    RunKeepsInv(y, Round(worker));
    RequestIsAnswered(rest, m, stage, worker);
    hide *;
    RoundSteps(y, worker, m, Deliver(rest, m, Env(true, worker, true)));
  }

  lemma RunThree(y: System, a: Action, b: Action, c: Action)
    ensures Run(y, [a, b, c]) == Step(Step(Step(y, a), b), c)
  {
    assert [a, b, c][1..] == [b, c] && [b, c][1..] == [c] && [c][1..] == [];
    assert Run(Step(y, a), [b, c]) == Run(Step(Step(y, a), b), [c]);
    assert Run(Step(Step(y, a), b), [c]) == Run(Step(Step(Step(y, a), b), c), []);
  }

  lemma {:induction false} RunThen(y: System, a: seq<Action>, b: seq<Action>)
    ensures Run(y, a + b) == Run(Run(y, a), b)
    decreases |a|
  {
    if a == [] {
      assert a + b == b;
    } else {
      assert (a + b)[0] == a[0] && (a + b)[1..] == a[1..] + b;
      RunThen(Step(y, a[0]), a[1..], b);
    }
  }

  /** A worker that is let through is registered under the id it was given, synced, and beats, over either transport. */
  lemma HandshakeCompletes(transport: Transport, worker: WorkerId)
    ensures var rounds := Round(worker) + Round(worker) + (if transport == Quic then Round(worker) else []);
      var y := Run(Initial(transport), rounds);
      && y.worker == Running(true) && y.serving && y.gateway == Session(true, worker)
      && y.calls == (if transport == Quic then [Authenticate] else []) + [RegisterWorker, SyncModels]
  {
    var y0, r := Initial(transport), Round(worker);
    RunThen(y0, r, r);
    var y1 := Run(y0, r);
    RoundAdvances(y0, worker);
    RoundAdvances(y1, worker);
    var y2 := Run(y1, r);
    if transport == Quic {
      RunThen(y0, r + r, r);
      RoundAdvances(y2, worker);
      var y3 := Run(y2, r);
      assert y3.calls == [Authenticate, RegisterWorker, SyncModels];
      assert y3.gateway.authenticated;
    } else {
      assert r + r + [] == r + r;
      assert y2.calls == [RegisterWorker, SyncModels];
      assert y2.gateway.authenticated;
    }
  }

  /** A running worker's heartbeat reaches the registry and is answered; one the registry refuses ends the session. */
  lemma BeatIsAnswered(y: System, env: Env)
    requires Inv(y) && y.worker.Running? && y.up == [] && y.serving && env.sent
    ensures var y' := Step(Step(y, WorkerBeats), GatewayHandles(env));
      && y'.serving == env.ok && y'.calls == y.calls + (if env.ok then [UpdateHeartbeat] else [])
      && y'.replies == y.replies + [if env.ok then AckReply(y.nextId, UpdateHeartbeat)
                                    else ErrorReply(y.nextId, HeartbeatFailed)]
  {
    assert Step(y, WorkerBeats).up == [Message(Heartbeat, y.nextId, {Heartbeat})];
  }

  /** Which messages get which refusal. */
  lemma RefusedExactlyWhen(s: Session, m: Message, env: Env)
    ensures var h := Handle(s, m, env);
      var refused := (c: Code) => h.reply == Some(ErrorReply(m.requestId, c)) && h.call == None;
      && (refused(NotAuthenticated) <==> !s.authenticated && m.kind !in {Auth, Ack, Error})
      && (refused(AuthAlreadyCompleted) <==> s.authenticated && m.kind == Auth)
      && (refused(RegisterAlreadyCompleted) <==> s.authenticated && m.kind == Register && s.workerId != 0)
      && (refused(NotRegistered) <==> s.authenticated && m.kind in {Heartbeat, ModelsSync} && s.workerId == 0)
      && (refused(UnsupportedMessageType)
          <==> s.authenticated && m.kind !in {Auth, Register, Heartbeat, ModelsSync, Ack, Error})
      && (h.call == None && h.reply.Some? ==> h.session == s && h.reply.value.ErrorReply?)
      && (h.reply == None <==> m.kind in {Ack, Error})
  {
  }
}
