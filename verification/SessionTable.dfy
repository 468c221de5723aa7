/**
 * The gateway's session and in-flight request tables (tokilake-core/session_manager.go).
 *
 * `SessionManager` is the code, over session objects it updates in place. `Table` is its value,
 * on which whole runs are stated: what every table entry guarantees, who owns a namespace, and
 * that a released session leaves nothing behind.
 */
module SessionTable {

  /** The two session fields that key a table. */
  datatype Fields = Fields(namespace: string, channelId: int)

  /** Sessions by id; `requests` gives the session of every tracked request. */
  datatype Table = Table(
    sessions: map<nat, Fields>, byNamespace: map<string, nat>, byChannel: map<int, nat>, requests: map<string, nat>)

  // ----- The code

  class GatewaySession {
    const id: nat
    var namespace: string
    var channelId: int
    var workerId: int

    constructor (id: nat)
      ensures this.id == id && namespace == "" && channelId == 0 && workerId == 0
    {
      this.id := id;
      namespace, channelId, workerId := "", 0, 0;
    }
  }

  class SessionManager {
    var nextId: nat
    var byNamespace: map<string, GatewaySession>
    var byChannelId: map<int, GatewaySession>
    /** Session id of every tracked request. */
    var requests: map<string, nat>
    /** Requests whose Cancel was called. */
    var cancelled: set<string>
    /** Every session handed out. */
    ghost var sessions: map<nat, GatewaySession>

    ghost predicate Known(session: GatewaySession)
      reads this`sessions
    {
      session.id in sessions && sessions[session.id] == session
    }

    ghost predicate Valid()
      reads this
    {
      && (forall id :: id in sessions ==> sessions[id].id == id && id <= nextId)
      && (forall k :: k in byNamespace ==> Known(byNamespace[k]))
      && (forall k :: k in byChannelId ==> Known(byChannelId[k]))
    }

    ghost function View(): Table
      reads this, sessions.Values`namespace, sessions.Values`channelId
    {
      Table(SessionsView(), Ids(byNamespace), Ids(byChannelId), requests)
    }

    ghost function SessionsView(): map<nat, Fields>
      reads this`sessions, sessions.Values`namespace, sessions.Values`channelId
    {
      map id | id in sessions :: Fields(sessions[id].namespace, sessions[id].channelId)
    }

    constructor ()
      ensures Valid() && View() == EMPTY
    {
      nextId := 0;
      byNamespace, byChannelId, requests, cancelled := map[], map[], map[], {};
      sessions := map[];
    }

    method NewGatewaySession() returns (session: GatewaySession)
      requires Valid()
      modifies this
      ensures Valid() && Known(session) && fresh(session)
      ensures session.id !in old(sessions) && View() == NewSession(old(View()), session.id)
    {
      nextId := nextId + 1;
      session := new GatewaySession(nextId);
      Enlist(session);
    }

    ghost method Enlist(session: GatewaySession)
      requires Valid() && session.id !in sessions && session.id <= nextId
      requires session.namespace == "" && session.channelId == 0
      modifies this`sessions
      ensures Valid() && Known(session) && View() == NewSession(old(View()), session.id)
    {
      ghost var was := SessionsView();
      sessions := sessions[session.id := session];
      assert SessionsView() == was[session.id := Fields("", 0)];
    }

    method ClaimNamespace(session: GatewaySession, namespace: string) returns (ok: bool)
      requires Valid() && Known(session)
      modifies this`byNamespace, session`namespace
      ensures Valid()
      ensures ok == CanClaim(old(View()), session.id, namespace)
      ensures View() == Claim(old(View()), session.id, namespace)
    {
      if namespace in byNamespace && byNamespace[namespace] != session {
        return false;
      }
      ghost var was := SessionsView();
      session.namespace := namespace;
      assert SessionsView() == was[session.id := was[session.id].(namespace := namespace)];
      IdsUpdate(byNamespace, namespace, session);
      byNamespace := byNamespace[namespace := session];
      return true;
    }

    method BindChannel(session: GatewaySession, workerId: int, channelId: int)
      requires Valid() && Known(session)
      modifies this`byChannelId, session`channelId, session`workerId
      ensures Valid() && session.workerId == workerId
      ensures View() == Bind(old(View()), session.id, channelId)
    {
      ghost var t := View();
      assert t.sessions[session.id].channelId == session.channelId;
      hide Valid, Known, Ids, SessionsView;
      DropOldChannel(session, channelId);
      SetFields(session, workerId, channelId);
      AddChannel(session, channelId);
    }

    method AddChannel(session: GatewaySession, channelId: int)
      requires Valid() && Known(session)
      modifies this`byChannelId
      ensures Valid() && Ids(byChannelId) == old(Ids(byChannelId))[channelId := session.id]
    {
      IdsUpdate(byChannelId, channelId, session);
      byChannelId := byChannelId[channelId := session];
    }

    /** Drops the entry of the session's previous channel, whichever session it belongs to. */
    method DropOldChannel(session: GatewaySession, channelId: int)
      requires Valid()
      modifies this`byChannelId
      ensures Valid()
      ensures var was := session.channelId;
        Ids(byChannelId) == if was != 0 && was != channelId then old(Ids(byChannelId)) - {was} else old(Ids(byChannelId))
    {
      if session.channelId != 0 && session.channelId != channelId {
        byChannelId := byChannelId - {session.channelId};
      }
    }

    method SetFields(session: GatewaySession, workerId: int, channelId: int)
      requires Valid() && Known(session)
      modifies session`channelId, session`workerId
      ensures session.workerId == workerId
      ensures SessionsView() == old(SessionsView())[session.id := old(SessionsView())[session.id].(channelId := channelId)]
    {
      session.workerId := workerId;
      session.channelId := channelId;
    }

    method Release(session: GatewaySession)
      requires Valid() && Known(session)
      modifies this`byNamespace, this`byChannelId, this`requests, this`cancelled
      ensures Valid()
      ensures View() == CancelRequests(Unlist(old(View()), session.id), session.id)
      ensures cancelled == old(cancelled) + set r | r in old(requests) && old(requests)[r] == session.id
    {
      DropOwnNamespace(session);
      DropOwnChannel(session);
      assert View() == Unlist(old(View()), session.id);
      CancelRequestsForSession(session.id);
    }

    /** The namespace entry goes if it points to the session. */
    method DropOwnNamespace(session: GatewaySession)
      requires Valid() && Known(session)
      modifies this`byNamespace
      ensures Valid() && Ids(byNamespace) == Disown(old(Ids(byNamespace)), session.namespace, session.id, "")
    {
      if session.namespace != "" {
        if session.namespace in byNamespace && byNamespace[session.namespace] == session {
          IdsUpdate(byNamespace, session.namespace, session);
          byNamespace := byNamespace - {session.namespace};
        }
      }
    }

    /** The channel entry goes if it points to the session. */
    method DropOwnChannel(session: GatewaySession)
      requires Valid() && Known(session)
      modifies this`byChannelId
      ensures Valid() && Ids(byChannelId) == Disown(old(Ids(byChannelId)), session.channelId, session.id, 0)
    {
      if session.channelId != 0 {
        if session.channelId in byChannelId && byChannelId[session.channelId] == session {
          IdsUpdate(byChannelId, session.channelId, session);
          byChannelId := byChannelId - {session.channelId};
        }
      }
    }

    method TrackRequest(requestId: string, sessionId: nat)
      requires Valid()
      modifies this`requests
      ensures Valid() && View() == Track(old(View()), requestId, sessionId)
    {
      if requestId == "" {
        return;
      }
      requests := requests[requestId := sessionId];
    }

    method RemoveRequest(requestId: string)
      requires Valid()
      modifies this`requests
      ensures Valid() && View() == Untrack(old(View()), requestId)
    {
      if requestId == "" {
        assert "" !in requests ==> requests - {""} == requests;
        return;
      }
      requests := requests - {requestId};
    }

    method CancelRequestsForSession(sessionId: nat)
      requires Valid()
      modifies this`requests, this`cancelled
      ensures Valid() && View() == CancelRequests(old(View()), sessionId)
      ensures cancelled == old(cancelled) + set r | r in old(requests) && old(requests)[r] == sessionId
    {
      hide SessionsView, Ids;
      var ids := requests.Keys;
      while ids != {}
        invariant ids <= requests.Keys
        invariant requests == map r | r in old(requests) && (r in ids || old(requests)[r] != sessionId) :: old(requests)[r]
        invariant cancelled == old(cancelled) + set r | r in old(requests) && r !in ids && old(requests)[r] == sessionId
        decreases ids
      {
        var id :| id in ids;
        if requests[id] == sessionId {
          cancelled := cancelled + {id};
          requests := requests - {id};
        }
        ids := ids - {id};
      }
    }
  }

  ghost function Ids<K>(m: map<K, GatewaySession>): map<K, nat> {
    map k | k in m :: m[k].id
  }

  lemma IdsUpdate<K>(m: map<K, GatewaySession>, k: K, session: GatewaySession)
    ensures Ids(m[k := session]) == Ids(m)[k := session.id]
    ensures Ids(m - {k}) == Ids(m) - {k}
  {
  }

  // ----- The operations on values

  const EMPTY: Table := Table(map[], map[], map[], map[])

  function NewSession(t: Table, s: nat): Table {
    t.(sessions := t.sessions[s := Fields("", 0)])
  }

  predicate CanClaim(t: Table, s: nat, namespace: string) {
    !(namespace in t.byNamespace && t.byNamespace[namespace] != s)
  }

  function Claim(t: Table, s: nat, namespace: string): Table
    requires s in t.sessions
  {
    if !CanClaim(t, s, namespace) then t
    else t.(sessions := t.sessions[s := t.sessions[s].(namespace := namespace)],
            byNamespace := t.byNamespace[namespace := s])
  }

  function Bind(t: Table, s: nat, channelId: int): Table
    requires s in t.sessions
  {
    var was := t.sessions[s].channelId;
    var byChannel := if was != 0 && was != channelId then t.byChannel - {was} else t.byChannel;
    t.(sessions := t.sessions[s := t.sessions[s].(channelId := channelId)], byChannel := byChannel[channelId := s])
  }

  /** The entry at key k goes if it is the session's and the key is set. */
  function Disown<K(==)>(m: map<K, nat>, k: K, s: nat, unset: K): map<K, nat> {
    if k != unset && k in m && m[k] == s then m - {k} else m
  }

  /** The first half of `Release`, under the table lock. */
  function Unlist(t: Table, s: nat): Table
    requires s in t.sessions
  {
    var f := t.sessions[s];
    t.(byNamespace := Disown(t.byNamespace, f.namespace, s, ""), byChannel := Disown(t.byChannel, f.channelId, s, 0))
  }

  function Track(t: Table, requestId: string, s: nat): Table {
    if requestId == "" then t else t.(requests := t.requests[requestId := s])
  }

  function Untrack(t: Table, requestId: string): Table {
    if requestId == "" then t else t.(requests := t.requests - {requestId})
  }

  /** The second half of `Release`, under the request lock. */
  function CancelRequests(t: Table, s: nat): Table {
    t.(requests := map r | r in t.requests && t.requests[r] != s :: t.requests[r])
  }

  // ----- Runs

  /** The table, and the sessions between the two halves of their release. */
  datatype State = State(table: Table, releasing: set<nat>)

  datatype Action =
    | Connect(s: nat)
    | ClaimNamespace(s: nat, namespace: string)
    | BindChannel(s: nat, channelId: int)
    | BeginRelease(s: nat)
    | FinishRelease(s: nat)
    | TrackRequest(requestId: string, s: nat)
    | RemoveRequest(requestId: string)

  /**
   * Claim, bind and release of a session all run on that session's own goroutine, so none of the
   * first two happens between the halves of the third; the other actions come from anywhere.
   */
  predicate Enabled(st: State, a: Action) {
    match a
    case Connect(s) => s !in st.table.sessions
    case ClaimNamespace(s, _) => s in st.table.sessions && s !in st.releasing
    case BindChannel(s, _) => s in st.table.sessions && s !in st.releasing
    case BeginRelease(s) => s in st.table.sessions && s !in st.releasing
    case FinishRelease(s) => s in st.releasing
    case _ => true
  }

  function Step(st: State, a: Action): State {
    if !Enabled(st, a) then st
    else match a
      case Connect(s) => st.(table := NewSession(st.table, s))
      case ClaimNamespace(s, namespace) => st.(table := Claim(st.table, s, namespace))
      case BindChannel(s, channelId) => st.(table := Bind(st.table, s, channelId))
      case BeginRelease(s) => State(Unlist(st.table, s), st.releasing + {s})
      case FinishRelease(s) => State(CancelRequests(st.table, s), st.releasing - {s})
      case TrackRequest(requestId, s) => st.(table := Track(st.table, requestId, s))
      case RemoveRequest(requestId) => st.(table := Untrack(st.table, requestId))
  }

  /** What `RegisterWorker` does: one non-empty namespace per session, and channels with a database id. */
  predicate Disciplined(t: Table, a: Action) {
    match a
    case ClaimNamespace(s, namespace) =>
      namespace != "" && (s in t.sessions ==> t.sessions[s].namespace == "" || t.sessions[s].namespace == namespace)
    case BindChannel(_, channelId) => channelId != 0
    case _ => true
  }

  // ----- What an entry guarantees

  /** An entry at key k belongs to a session whose field is k, and k is a real key. */
  ghost predicate EntriesMatch(t: Table) {
    && (forall k :: k in t.byNamespace ==>
          k != "" && t.byNamespace[k] in t.sessions && t.sessions[t.byNamespace[k]].namespace == k)
    && (forall k :: k in t.byChannel ==>
          k != 0 && t.byChannel[k] in t.sessions && t.sessions[t.byChannel[k]].channelId == k)
  }

  ghost predicate Absent(t: Table, s: nat) {
    && (forall k :: k in t.byNamespace ==> t.byNamespace[k] != s)
    && (forall k :: k in t.byChannel ==> t.byChannel[k] != s)
  }

  ghost predicate Inv(st: State) {
    && EntriesMatch(st.table)
    && (forall s :: s in st.releasing ==> s in st.table.sessions && Absent(st.table, s))
  }

  /** A claim keeps the table sound exactly when it strands no entry of the session's previous namespace. */
  lemma ClaimKeepsExactlyWhen(t: Table, s: nat, namespace: string)
    requires EntriesMatch(t) && s in t.sessions && namespace != ""
    ensures EntriesMatch(Claim(t, s, namespace))
       <==> !(CanClaim(t, s, namespace) && t.sessions[s].namespace != namespace
              && t.sessions[s].namespace in t.byNamespace && t.byNamespace[t.sessions[s].namespace] == s)
  {
    var t' := Claim(t, s, namespace);
    var was := t.sessions[s].namespace;
    if CanClaim(t, s, namespace) {
      if was != namespace && was in t.byNamespace && t.byNamespace[was] == s {
        assert t'.byNamespace[was] == s && t'.sessions[s].namespace != was;
      } else {
        assert forall k :: k in t.byChannel ==> t'.sessions[t.byChannel[k]].channelId == k;
      }
    }
  }

  lemma BindKeepsMatch(t: Table, s: nat, channelId: int)
    requires EntriesMatch(t) && s in t.sessions && channelId != 0
    ensures EntriesMatch(Bind(t, s, channelId))
  {
  }

  /** Binding channel 0 leaves an entry that `Release` never removes. */
  lemma ZeroChannelIsNeverReleased(t: Table, s: nat)
    requires s in t.sessions
    ensures !Absent(Unlist(Bind(t, s, 0), s), s)
  {
    assert Unlist(Bind(t, s, 0), s).byChannel[0] == s;
  }

  /** A matching table has no entry of a session outside its two fields, so unlisting removes them all. */
  lemma UnlistClears(t: Table, s: nat)
    requires EntriesMatch(t) && s in t.sessions
    ensures EntriesMatch(Unlist(t, s)) && Absent(Unlist(t, s), s)
    ensures forall other :: Absent(t, other) ==> Absent(Unlist(t, s), other)
  {
  }

  /** A session that binds a channel is gone from the tables after its release exactly when the channel is not 0. */
  lemma ReleaseClearsExactlyWhen(t: Table, s: nat, channelId: int)
    requires EntriesMatch(t) && s in t.sessions
    ensures Absent(Unlist(Bind(t, s, channelId), s), s) <==> channelId != 0
  {
    if channelId == 0 {
      ZeroChannelIsNeverReleased(t, s);
    } else {
      BindKeepsMatch(t, s, channelId);
      UnlistClears(Bind(t, s, channelId), s);
    }
  }

  lemma StepKeepsInv(st: State, a: Action)
    requires Inv(st) && Disciplined(st.table, a)
    ensures Inv(Step(st, a))
  {
    if Enabled(st, a) {
      match a {
        case ClaimNamespace(s, namespace) => ClaimKeepsExactlyWhen(st.table, s, namespace);
        case BindChannel(s, channelId) => BindKeepsMatch(st.table, s, channelId);
        case BeginRelease(s) => UnlistClears(st.table, s);
        case _ =>
      }
    }
  }

  /** A held namespace stays with its session until that session releases it, disciplined or not. */
  lemma HeldNamespaceStays(st: State, a: Action, namespace: string)
    requires namespace in st.table.byNamespace && a != BeginRelease(st.table.byNamespace[namespace])
    ensures var t' := Step(st, a).table;
      namespace in t'.byNamespace && t'.byNamespace[namespace] == st.table.byNamespace[namespace]
  {
  }

  /** A claim gives the namespace to the session exactly when no other session holds it, and moves no other entry. */
  lemma ClaimSucceedsExactlyWhen(t: Table, s: nat, namespace: string)
    requires s in t.sessions
    ensures var t' := Claim(t, s, namespace);
      && (namespace in t'.byNamespace && t'.byNamespace[namespace] == s && t'.sessions[s].namespace == namespace
          <==> !(namespace in t.byNamespace && t.byNamespace[namespace] != s))
      && (namespace in t.byNamespace && t.byNamespace[namespace] != s ==> t' == t)
      && (forall k :: k != namespace ==> (k in t'.byNamespace <==> k in t.byNamespace))
      && (forall k :: k != namespace && k in t.byNamespace ==> t'.byNamespace[k] == t.byNamespace[k])
      && t'.byChannel == t.byChannel && t'.requests == t.requests
  {
  }

  /** After a bind the channel leads to the session; the entry of its previous channel is gone and no other is moved. */
  lemma BoundChannelIsFound(t: Table, s: nat, channelId: int, k: int)
    requires s in t.sessions
    ensures var t', was := Bind(t, s, channelId), t.sessions[s].channelId;
      && channelId in t'.byChannel && t'.byChannel[channelId] == s && t'.sessions[s].channelId == channelId
      && (was != 0 && was != channelId ==> was !in t'.byChannel)
      && (k != was && k != channelId ==>
            (k in t'.byChannel <==> k in t.byChannel) && (k in t.byChannel ==> t'.byChannel[k] == t.byChannel[k]))
      && t'.byNamespace == t.byNamespace && t'.requests == t.requests
  {
  }

  /** A request is found from its tracking to its removal, or to the cancel step of its own session's release. */
  lemma {:induction false} TrackedUntilRemoved(st: State, actions: seq<Action>, requestId: string, s: nat)
    requires requestId != "" && requestId in st.table.requests && st.table.requests[requestId] == s
    requires forall i :: 0 <= i < |actions| ==>
      && actions[i] != RemoveRequest(requestId) && actions[i] != FinishRelease(s)
      && !(actions[i].TrackRequest? && actions[i].requestId == requestId)
    ensures var t := Run(st, actions).table; requestId in t.requests && t.requests[requestId] == s
  {
    if actions != [] {
      TrackedUntilRemoved(st, actions[..|actions| - 1], requestId, s);
    }
  }

  /** Tracking enters a request, and removing it restores the table if it was not there before. */
  lemma TrackThenRemove(t: Table, requestId: string, s: nat)
    requires requestId != "" && requestId !in t.requests
    ensures requestId in Track(t, requestId, s).requests && Track(t, requestId, s).requests[requestId] == s
    ensures Untrack(Track(t, requestId, s), requestId) == t
  {
  }

  /** A released namespace can be claimed again: after the release of its holder any other session gets it. */
  lemma ReleasedCanBeClaimed(st: State, holder: nat, other: nat, namespace: string)
    requires EntriesMatch(st.table) && namespace in st.table.byNamespace && st.table.byNamespace[namespace] == holder
    requires holder !in st.releasing && other in st.table.sessions && other !in st.releasing && other != holder
    ensures var t := Step(Step(st, BeginRelease(holder)), ClaimNamespace(other, namespace)).table;
      namespace in t.byNamespace && t.byNamespace[namespace] == other
  {
  }

  /** And so in every run in which its holder does not begin a release. */
  lemma {:induction false} HeldNamespaceStaysHeld(st: State, actions: seq<Action>, namespace: string)
    requires namespace in st.table.byNamespace
    requires forall i :: 0 <= i < |actions| ==> actions[i] != BeginRelease(st.table.byNamespace[namespace])
    ensures var t' := Run(st, actions).table;
      namespace in t'.byNamespace && t'.byNamespace[namespace] == st.table.byNamespace[namespace]
  {
    if actions != [] {
      var n := |actions| - 1;
      HeldNamespaceStaysHeld(st, actions[..n], namespace);
      HeldNamespaceStays(Run(st, actions[..n]), actions[n], namespace);
    }
  }

  function Run(st: State, actions: seq<Action>): State {
    if actions == [] then st else Step(Run(st, actions[..|actions| - 1]), actions[|actions| - 1])
  }

  /** A request without an id is never tracked. */
  lemma {:induction false} EmptyIdIsNeverTracked(st: State, actions: seq<Action>)
    requires "" !in st.table.requests
    ensures "" !in Run(st, actions).table.requests
  {
    if actions != [] {
      EmptyIdIsNeverTracked(st, actions[..|actions| - 1]);
    }
  }

  ghost predicate DisciplinedRun(st: State, actions: seq<Action>) {
    forall i :: 0 <= i < |actions| ==> Disciplined(Run(st, actions[..i]).table, actions[i])
  }

  /** Every entry of every reachable table points to a session whose field is the entry's key. */
  lemma {:induction false} RunKeepsInv(actions: seq<Action>)
    requires DisciplinedRun(State(EMPTY, {}), actions)
    ensures Inv(Run(State(EMPTY, {}), actions))
  {
    if actions != [] {
      var n := |actions| - 1;
      assert forall i :: 0 <= i < n ==> actions[..n][..i] == actions[..i];
      RunKeepsInv(actions[..n]);
      StepKeepsInv(Run(State(EMPTY, {}), actions[..n]), actions[n]);
    }
  }

  /** When a release has run its cancel step, no table entry and no tracked request refers to the session. */
  lemma ReleaseLeavesNothing(actions: seq<Action>, s: nat)
    requires DisciplinedRun(State(EMPTY, {}), actions)
    requires s in Run(State(EMPTY, {}), actions).releasing
    ensures var t := Step(Run(State(EMPTY, {}), actions), FinishRelease(s)).table;
      Absent(t, s) && forall r :: r in t.requests ==> t.requests[r] != s
  {
    RunKeepsInv(actions);
  }
}
