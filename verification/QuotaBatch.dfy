/**
 * Quota bookkeeping, written directly or through the batch store (model/utils.go, model/user.go,
 * model/token.go, model/channel.go).
 *
 * A batched delta sits in the live store, then in the flusher's private map, then in its row.
 * Over every interleaving of recorders and the flusher the three add up to what was requested,
 * so a quiescent flush leaves the rows the unbatched code would have left.
 */
module QuotaBatch {
  import opened Basics

  /** The `BatchUpdateType…` constants. */
  type Kind = k: nat | k < KINDS
  const KINDS: nat := 5
  const USER_QUOTA: Kind := 0
  const TOKEN_QUOTA: Kind := 1
  const USED_QUOTA: Kind := 2
  const CHANNEL_USED_QUOTA: Kind := 3
  const REQUEST_COUNT: Kind := 4

  datatype UserRow = UserRow(quota: int, usedQuota: int, requestCount: int)
  datatype TokenRow = TokenRow(remainQuota: int, usedQuota: int)
  datatype Tables = Tables(users: map<int, UserRow>, tokens: map<int, TokenRow>, channels: map<int, int>)

  datatype Record = Record(kind: Kind, id: int, delta: int)

  datatype Op =
    | IncreaseUserQuota(id: int, quota: int)
    | DecreaseUserQuota(id: int, quota: int)
    | IncreaseTokenQuota(id: int, quota: int)
    | DecreaseTokenQuota(id: int, quota: int)
    | UpdateUserUsedQuotaAndRequestCount(id: int, quota: int)
    | UpdateChannelUsedQuota(id: int, quota: int)
  {
    /** A negative amount is refused before anything is written. */
    predicate Refused() {
      !UpdateUserUsedQuotaAndRequestCount? && !UpdateChannelUsedQuota? && quota < 0
    }
  }

  // ----- Rows

  predicate Has(db: Tables, kind: Kind, id: int) {
    if kind == TOKEN_QUOTA then id in db.tokens
    else if kind == CHANNEL_USED_QUOTA then id in db.channels
    else id in db.users
  }

  /** The column a record of this kind adds to. */
  function Value(db: Tables, kind: Kind, id: int): int
    requires Has(db, kind, id)
  {
    if kind == USER_QUOTA then db.users[id].quota
    else if kind == TOKEN_QUOTA then db.tokens[id].remainQuota
    else if kind == USED_QUOTA then db.users[id].usedQuota
    else if kind == CHANNEL_USED_QUOTA then db.channels[id]
    else db.users[id].requestCount
  }

  function AddToUser(db: Tables, id: int, quota: int, used: int, count: int): Tables {
    if id !in db.users then db
    else
      var u := db.users[id];
      db.(users := db.users[id := UserRow(u.quota + quota, u.usedQuota + used, u.requestCount + count)])
  }

  function AddToToken(db: Tables, id: int, quota: int): Tables {
    if id !in db.tokens then db
    else
      var t := db.tokens[id];
      db.(tokens := db.tokens[id := TokenRow(t.remainQuota + quota, t.usedQuota - quota)])
  }

  function AddToChannel(db: Tables, id: int, quota: int): Tables {
    if id !in db.channels then db else db.(channels := db.channels[id := db.channels[id] + quota])
  }

  /** What the flusher does with one key of a kind's map. An update of a missing row changes nothing. */
  function Apply(db: Tables, r: Record): Tables {
    if r.kind == USER_QUOTA then AddToUser(db, r.id, r.delta, 0, 0)
    else if r.kind == TOKEN_QUOTA then AddToToken(db, r.id, r.delta)
    else if r.kind == USED_QUOTA then AddToUser(db, r.id, 0, r.delta, 0)
    else if r.kind == CHANNEL_USED_QUOTA then AddToChannel(db, r.id, r.delta)
    else AddToUser(db, r.id, 0, 0, r.delta)
  }

  /** The operation with batching off. */
  function Direct(db: Tables, op: Op): Tables {
    if op.Refused() then db
    else match op
      case IncreaseUserQuota(id, q) => AddToUser(db, id, q, 0, 0)
      case DecreaseUserQuota(id, q) => AddToUser(db, id, -q, 0, 0)
      case IncreaseTokenQuota(id, q) => AddToToken(db, id, q)
      case DecreaseTokenQuota(id, q) => AddToToken(db, id, -q)
      case UpdateUserUsedQuotaAndRequestCount(id, q) => AddToUser(db, id, 0, q, 1)
      case UpdateChannelUsedQuota(id, q) => AddToChannel(db, id, q)
  }

  function DirectAll(db: Tables, ops: seq<Op>): Tables {
    if ops == [] then db else Direct(DirectAll(db, ops[..|ops| - 1]), ops[|ops| - 1])
  }

  /** What the operation records with batching on, one `addNewRecord` call each. */
  function Records(op: Op): seq<Record> {
    if op.Refused() then []
    else match op
      case IncreaseUserQuota(id, q) => [Record(USER_QUOTA, id, q)]
      case DecreaseUserQuota(id, q) => [Record(USER_QUOTA, id, -q)]
      case IncreaseTokenQuota(id, q) => [Record(TOKEN_QUOTA, id, q)]
      case DecreaseTokenQuota(id, q) => [Record(TOKEN_QUOTA, id, -q)]
      case UpdateUserUsedQuotaAndRequestCount(id, q) => [Record(USED_QUOTA, id, q), Record(REQUEST_COUNT, id, 1)]
      case UpdateChannelUsedQuota(id, q) => [Record(CHANNEL_USED_QUOTA, id, q)]
  }

  function AllRecords(ops: seq<Op>): seq<Record> {
    if ops == [] then [] else AllRecords(ops[..|ops| - 1]) + Records(ops[|ops| - 1])
  }

  // ----- The batch store

  type Store = map<int, int>
  type Stores = s: seq<Store> | |s| == KINDS witness [map[], map[], map[], map[], map[]]

  const EMPTY: Stores := [map[], map[], map[], map[], map[]]

  function Lookup(store: Store, id: int): int {
    if id in store then store[id] else 0
  }

  function AddRecord(stores: Stores, r: Record): Stores {
    stores[r.kind := stores[r.kind][r.id := Lookup(stores[r.kind], r.id) + r.delta]]
  }

  /** The records a settlement leaves in the stores: the user's, and the token's unless it is unlimited. */
  function Settle(stores: Stores, tokenId: int, userId: int, unlimitedQuota: bool, quota: int): Stores {
    if quota == 0 then stores
    else
      var charged := AddRecord(stores, Record(USER_QUOTA, userId, -quota));
      if unlimitedQuota then charged else AddRecord(charged, Record(TOKEN_QUOTA, tokenId, -quota))
  }

  class QuotaWriter {
    var db: Tables
    var stores: Stores
    const batchUpdateEnabled: bool

    constructor (db: Tables, batchUpdateEnabled: bool)
      ensures this.db == db && stores == EMPTY && this.batchUpdateEnabled == batchUpdateEnabled
    {
      this.db := db;
      this.batchUpdateEnabled := batchUpdateEnabled;
      stores := EMPTY;
    }

    method AddNewRecord(kind: Kind, id: int, value: int)
      modifies this`stores
      ensures stores == AddRecord(old(stores), Record(kind, id, value))
    {
      if id !in stores[kind] {
        stores := stores[kind := stores[kind][id := value]];
      } else {
        stores := stores[kind := stores[kind][id := stores[kind][id] + value]];
      }
    }

    method Run(op: Op) returns (ok: bool)
      modifies this
      ensures ok == !op.Refused()
      ensures batchUpdateEnabled ==> db == old(db) && stores == AddRecords(old(stores), Records(op))
      ensures !batchUpdateEnabled ==> db == Direct(old(db), op) && stores == old(stores)
    {
      if op.Refused() {
        return false;
      }
      if batchUpdateEnabled {
        match op {
          case IncreaseUserQuota(id, q) => AddNewRecord(USER_QUOTA, id, q);
          case DecreaseUserQuota(id, q) => AddNewRecord(USER_QUOTA, id, -q);
          case IncreaseTokenQuota(id, q) => AddNewRecord(TOKEN_QUOTA, id, q);
          case DecreaseTokenQuota(id, q) => AddNewRecord(TOKEN_QUOTA, id, -q);
          case UpdateUserUsedQuotaAndRequestCount(id, q) =>
            AddNewRecord(USED_QUOTA, id, q);
            AddNewRecord(REQUEST_COUNT, id, 1);
          case UpdateChannelUsedQuota(id, q) => AddNewRecord(CHANNEL_USED_QUOTA, id, q);
        }
        assert AddRecords(old(stores), []) == old(stores);
        assert Records(op)[..0] == [];
        assert |Records(op)| == 2 ==> Records(op)[..1] == [Records(op)[0]] && [Records(op)[0]][..0] == [];
        return true;
      }
      match op {
        case IncreaseUserQuota(id, q) => UpdateUser(id, q, 0, 0);
        case DecreaseUserQuota(id, q) => UpdateUser(id, -q, 0, 0);
        case IncreaseTokenQuota(id, q) => UpdateToken(id, q);
        case DecreaseTokenQuota(id, q) => UpdateToken(id, -q);
        case UpdateUserUsedQuotaAndRequestCount(id, q) => UpdateUser(id, 0, q, 1);
        case UpdateChannelUsedQuota(id, q) => UpdateChannel(id, q);
      }
      return true;
    }

    /** One UPDATE of a user row by expressions on its columns; no row, no change. */
    method UpdateUser(id: int, quota: int, usedQuota: int, requestCount: int)
      modifies this`db
      ensures db == AddToUser(old(db), id, quota, usedQuota, requestCount)
    {
      if id in db.users {
        var row := db.users[id];
        row := row.(quota := row.quota + quota);
        row := row.(usedQuota := row.usedQuota + usedQuota);
        row := row.(requestCount := row.requestCount + requestCount);
        db := db.(users := db.users[id := row]);
      }
    }

    method UpdateToken(id: int, quota: int)
      modifies this`db
      ensures db == AddToToken(old(db), id, quota)
    {
      if id in db.tokens {
        var row := db.tokens[id];
        row := row.(remainQuota := row.remainQuota + quota);
        row := row.(usedQuota := row.usedQuota - quota);
        db := db.(tokens := db.tokens[id := row]);
      }
    }

    method UpdateChannel(id: int, usedQuota: int)
      modifies this`db
      ensures db == AddToChannel(old(db), id, usedQuota)
    {
      if id in db.channels {
        db := db.(channels := db.channels[id := db.channels[id] + usedQuota]);
      }
    }

    /** Settles `quota` consumed units (a refund when negative) on the user and, unless unlimited, the token. */
    method PostConsumeTokenQuotaWithInfo(tokenId: int, userId: int, unlimitedQuota: bool, quota: int) returns (ok: bool)
      modifies this
      ensures ok
      ensures !batchUpdateEnabled ==>
        db == Apply(if unlimitedQuota then old(db) else Apply(old(db), Record(TOKEN_QUOTA, tokenId, -quota)),
                    Record(USER_QUOTA, userId, -quota))
      ensures !batchUpdateEnabled && userId in old(db).users ==>
        userId in db.users && db.users[userId] == old(db).users[userId].(quota := old(db).users[userId].quota - quota)
      ensures !batchUpdateEnabled && tokenId in old(db).tokens ==>
        var t := old(db).tokens[tokenId];
        tokenId in db.tokens
        && db.tokens[tokenId] == if unlimitedQuota then t else TokenRow(t.remainQuota - quota, t.usedQuota + quota)
      ensures batchUpdateEnabled ==> db == old(db) && stores == Settle(old(stores), tokenId, userId, unlimitedQuota, quota)
    {
      if quota == 0 {
        ApplyNothing(db, USER_QUOTA, userId);
        ApplyNothing(db, TOKEN_QUOTA, tokenId);
        return true;
      }
      ghost var user, token := Record(USER_QUOTA, userId, -quota), Record(TOKEN_QUOTA, tokenId, -quota);
      assert [user][..0] == [] && [token][..0] == [];
      ok := Run(if quota > 0 then DecreaseUserQuota(userId, quota) else IncreaseUserQuota(userId, -quota));
      if ok && !unlimitedQuota {
        ok := Run(if quota > 0 then DecreaseTokenQuota(tokenId, quota) else IncreaseTokenQuota(tokenId, -quota));
      }
    }

    /** One flush with no recorder running and every update succeeding. */
    method BatchUpdate()
      modifies this
      ensures stores == EMPTY
      ensures SameRows(old(db), db)
      ensures forall kind: Kind, id :: Has(db, kind, id) ==>
        Value(db, kind, id) == Value(old(db), kind, id) + Lookup(old(stores)[kind], id)
    {
      for i := 0 to KINDS
        invariant forall j: Kind :: stores[j] == if j < i then map[] else old(stores)[j]
        invariant SameRows(old(db), db)
        invariant forall kind: Kind, id :: Has(db, kind, id) ==>
          Value(db, kind, id) == Value(old(db), kind, id) + if kind < i then Lookup(old(stores)[kind], id) else 0
      {
        var store := stores[i];
        stores := stores[i := map[]];
        FlushKind(i, store);
      }
      assert stores == EMPTY;
    }

    /** The switch of `batchUpdate` on one key. */
    method WriteKey(i: Kind, key: int, value: int)
      modifies this`db
      ensures db == Apply(old(db), Record(i, key, value))
    {
      if i == USER_QUOTA {
        UpdateUser(key, value, 0, 0);
      } else if i == TOKEN_QUOTA {
        UpdateToken(key, value);
      } else if i == USED_QUOTA {
        UpdateUser(key, 0, value, 0);
      } else if i == REQUEST_COUNT {
        UpdateUser(key, 0, 0, value);
      } else {
        UpdateChannel(key, value);
      }
    }

    method FlushKind(i: Kind, store: Store)
      modifies this`db
      ensures SameRows(old(db), db)
      ensures forall kind: Kind, id :: Has(db, kind, id) ==>
        Value(db, kind, id) == Value(old(db), kind, id) + if kind == i then Lookup(store, id) else 0
    {
      var keys := store.Keys;
      while keys != {}
        invariant keys <= store.Keys
        invariant SameRows(old(db), db)
        invariant forall kind: Kind, id :: Has(db, kind, id) ==>
          Value(db, kind, id) == Value(old(db), kind, id) + if kind == i && id !in keys then Lookup(store, id) else 0
        decreases keys
      {
        SomeKey(keys);
        var key :| key in keys;
        ApplyAdds(db, Record(i, key, store[key]));
        WriteKey(i, key, store[key]);
        keys := keys - {key};
      }
    }
  }

  lemma SomeKey(keys: set<int>)
    ensures keys == {} || exists key :: key in keys
  {
    if forall key :: key !in keys {
      assert keys == {};
    }
  }

  function AddRecords(stores: Stores, rs: seq<Record>): Stores {
    if rs == [] then stores else AddRecord(AddRecords(stores, rs[..|rs| - 1]), rs[|rs| - 1])
  }

  // ----- Rows are sums

  function TokenSum(db: Tables, id: int): int
    requires id in db.tokens
  {
    db.tokens[id].remainQuota + db.tokens[id].usedQuota
  }

  /** The same rows exist, and every token's remaining and used quota still add up to the same. */
  ghost predicate SameRows(a: Tables, b: Tables) {
    && a.users.Keys == b.users.Keys && a.tokens.Keys == b.tokens.Keys && a.channels.Keys == b.channels.Keys
    && forall id :: id in a.tokens ==> TokenSum(a, id) == TokenSum(b, id)
  }

  function Of(r: Record, kind: Kind, id: int): int {
    if r.kind == kind && r.id == id then r.delta else 0
  }

  function Total(rs: seq<Record>, kind: Kind, id: int): int {
    if rs == [] then 0 else Total(rs[..|rs| - 1], kind, id) + Of(rs[|rs| - 1], kind, id)
  }

  lemma ApplyAdds(db: Tables, r: Record)
    ensures SameRows(db, Apply(db, r))
    ensures forall kind: Kind, id :: Has(db, kind, id) ==>
      Value(Apply(db, r), kind, id) == Value(db, kind, id) + Of(r, kind, id)
  {
  }

  lemma ApplyNothing(db: Tables, kind: Kind, id: int)
    ensures Apply(db, Record(kind, id, 0)) == db
  {
    SameTables(db, Apply(db, Record(kind, id, 0)));
  }

  /** Rows, token sums and column values determine the tables. */
  lemma SameTables(a: Tables, b: Tables)
    requires SameRows(a, b)
    requires forall kind: Kind, id :: Has(a, kind, id) ==> Value(a, kind, id) == Value(b, kind, id)
    ensures a == b
  {
    forall id | id in a.users ensures a.users[id] == b.users[id] {
      assert Value(a, USER_QUOTA, id) == Value(b, USER_QUOTA, id);
      assert Value(a, USED_QUOTA, id) == Value(b, USED_QUOTA, id);
      assert Value(a, REQUEST_COUNT, id) == Value(b, REQUEST_COUNT, id);
    }
    forall id | id in a.tokens ensures a.tokens[id] == b.tokens[id] {
      assert Value(a, TOKEN_QUOTA, id) == Value(b, TOKEN_QUOTA, id);
      assert TokenSum(a, id) == TokenSum(b, id);
    }
    forall id | id in a.channels ensures a.channels[id] == b.channels[id] {
      assert Value(a, CHANNEL_USED_QUOTA, id) == Value(b, CHANNEL_USED_QUOTA, id);
    }
    assert a.users == b.users && a.tokens == b.tokens && a.channels == b.channels;
  }

  lemma {:induction false} TotalConcat(a: seq<Record>, b: seq<Record>, kind: Kind, id: int)
    ensures Total(a + b, kind, id) == Total(a, kind, id) + Total(b, kind, id)
    decreases b
  {
    if b == [] {
      assert a + b == a;
    } else {
      FrontOfConcat(a, b);
      TotalConcat(a, b[..|b| - 1], kind, id);
    }
  }

  /** A total does not depend on the order of the records. */
  lemma {:induction false} TotalOfPermutation(a: seq<Record>, b: seq<Record>, kind: Kind, id: int)
    requires multiset(a) == multiset(b)
    ensures Total(a, kind, id) == Total(b, kind, id)
    decreases a
  {
    if a == [] {
      assert |multiset(b)| == 0;
    } else {
      var n := |a| - 1;
      var r := a[n];
      assert r in multiset(a);
      var i :| 0 <= i < |b| && b[i] == r;
      WithoutOne(a, n);
      WithoutOne(b, i);
      TotalWithoutOne(a, n, kind, id);
      TotalWithoutOne(b, i, kind, id);
      TotalOfPermutation(a[..n] + a[n + 1..], b[..i] + b[i + 1..], kind, id);
    }
  }

  lemma WithoutOne(b: seq<Record>, i: nat)
    requires i < |b|
    ensures multiset(b[..i] + b[i + 1..]) == multiset(b) - multiset{b[i]}
  {
    assert b == b[..i] + [b[i]] + b[i + 1..];
    assert multiset(b) == multiset(b[..i]) + multiset{b[i]} + multiset(b[i + 1..]);
  }

  lemma TotalWithoutOne(b: seq<Record>, i: nat, kind: Kind, id: int)
    requires i < |b|
    ensures Total(b, kind, id) == Total(b[..i] + b[i + 1..], kind, id) + Of(b[i], kind, id)
  {
    assert b == (b[..i] + [b[i]]) + b[i + 1..];
    TotalConcat(b[..i], b[i + 1..], kind, id);
    TotalConcat(b[..i] + [b[i]], b[i + 1..], kind, id);
    FrontOfAppend(b[..i], b[i]);
  }

  lemma DirectAdds(db: Tables, op: Op, kind: Kind, id: int)
    ensures SameRows(db, Direct(db, op))
    ensures Has(db, kind, id) ==>
      Value(Direct(db, op), kind, id) == Value(db, kind, id) + Total(Records(op), kind, id)
  {
    TotalOfRecords(Records(op), kind, id);
  }

  lemma TotalOfRecords(rs: seq<Record>, kind: Kind, id: int)
    requires |rs| <= 2
    ensures Total(rs, kind, id) ==
      (if |rs| > 0 then Of(rs[0], kind, id) else 0) + (if |rs| > 1 then Of(rs[1], kind, id) else 0)
  {
    if |rs| == 2 {
      assert rs[..1][..0] == [];
    }
  }

  lemma {:induction false} DirectAllAdds(db: Tables, ops: seq<Op>, kind: Kind, id: int)
    ensures SameRows(db, DirectAll(db, ops))
    ensures Has(db, kind, id) ==>
      Value(DirectAll(db, ops), kind, id) == Value(db, kind, id) + Total(AllRecords(ops), kind, id)
  {
    if ops != [] {
      var n := |ops| - 1;
      DirectAllAdds(db, ops[..n], kind, id);
      DirectAdds(DirectAll(db, ops[..n]), ops[n], kind, id);
      TotalConcat(AllRecords(ops[..n]), Records(ops[n]), kind, id);
    }
  }

  // ----- What the operations add up to, row by row

  function SumOver(ops: seq<Op>, f: Op -> int): int {
    if ops == [] then 0 else SumOver(ops[..|ops| - 1], f) + f(ops[|ops| - 1])
  }

  /** What an operation grants the user; amounts below zero are refused. */
  function GrantedTo(user: int): Op -> int {
    (op: Op) =>
      if op.IncreaseUserQuota? && op.id == user && op.quota >= 0 then op.quota
      else if op.DecreaseUserQuota? && op.id == user && op.quota >= 0 then -op.quota else 0
  }

  function GrantedToToken(token: int): Op -> int {
    (op: Op) =>
      if op.IncreaseTokenQuota? && op.id == token && op.quota >= 0 then op.quota
      else if op.DecreaseTokenQuota? && op.id == token && op.quota >= 0 then -op.quota else 0
  }

  function UsedBy(user: int): Op -> int {
    (op: Op) => if op.UpdateUserUsedQuotaAndRequestCount? && op.id == user then op.quota else 0
  }

  function RequestsBy(user: int): Op -> int {
    (op: Op) => if op.UpdateUserUsedQuotaAndRequestCount? && op.id == user then 1 else 0
  }

  function UsedThrough(channel: int): Op -> int {
    (op: Op) => if op.UpdateChannelUsedQuota? && op.id == channel then op.quota else 0
  }

  lemma DirectRows(db: Tables, op: Op, id: int)
    ensures id in db.users ==>
      var u := db.users[id];
      id in Direct(db, op).users && Direct(db, op).users[id]
        == UserRow(u.quota + GrantedTo(id)(op), u.usedQuota + UsedBy(id)(op), u.requestCount + RequestsBy(id)(op))
    ensures id in db.tokens ==>
      var t, g := db.tokens[id], GrantedToToken(id)(op);
      id in Direct(db, op).tokens && Direct(db, op).tokens[id] == TokenRow(t.remainQuota + g, t.usedQuota - g)
    ensures id in db.channels ==>
      id in Direct(db, op).channels && Direct(db, op).channels[id] == db.channels[id] + UsedThrough(id)(op)
  {
  }

  /**
   * Each row after any operations: a user's quota has moved by what was granted and taken, the used quota by what was
   * used and the request count by the number of uses; a token's remaining quota went into its used quota; a channel's
   * used quota grew by what went through it.
   */
  lemma {:induction false} DirectAllRows(db: Tables, ops: seq<Op>, id: int)
    ensures id in db.users ==>
      var u := db.users[id];
      id in DirectAll(db, ops).users && DirectAll(db, ops).users[id]
        == UserRow(u.quota + SumOver(ops, GrantedTo(id)), u.usedQuota + SumOver(ops, UsedBy(id)),
                   u.requestCount + SumOver(ops, RequestsBy(id)))
    ensures id in db.tokens ==>
      var t, g := db.tokens[id], SumOver(ops, GrantedToToken(id));
      id in DirectAll(db, ops).tokens && DirectAll(db, ops).tokens[id] == TokenRow(t.remainQuota + g, t.usedQuota - g)
    ensures id in db.channels ==>
      id in DirectAll(db, ops).channels
      && DirectAll(db, ops).channels[id] == db.channels[id] + SumOver(ops, UsedThrough(id))
  {
    if ops != [] {
      var n := |ops| - 1;
      DirectAllRows(db, ops[..n], id);
      DirectRows(DirectAll(db, ops[..n]), ops[n], id);
      hide Direct, GrantedTo, GrantedToToken, UsedBy, RequestsBy, UsedThrough;
    }
  }

  // ----- Interleavings of recorders and the flusher

  /** The flusher between kinds, or with the keys of one kind still to write. */
  datatype Flusher = Idle | Flushing(kind: Kind, rest: Store)

  /** `log` and `lost` are bookkeeping: all records made, and those whose update failed. */
  datatype State = State(db: Tables, stores: Stores, flusher: Flusher, log: seq<Record>, lost: seq<Record>)

  datatype Action =
    | Add(r: Record)             // addNewRecord, under the kind's lock
    | Swap                       // batchUpdate takes the next kind's map, under its lock
    | Write(id: int, ok: bool)   // one update; a failed one is logged and forgotten

  function Initial(db: Tables): State {
    State(db, EMPTY, Idle, [], [])
  }

  function TakeKind(s: State, kind: Kind): State {
    s.(stores := s.stores[kind := map[]], flusher := Flushing(kind, s.stores[kind]))
  }

  /** An action that is not possible in the state leaves it alone. */
  function Step(s: State, a: Action): State {
    match a
    case Add(r) => s.(stores := AddRecord(s.stores, r), log := s.log + [r])
    case Swap =>
      if s.flusher.Idle? then TakeKind(s, USER_QUOTA)
      else if s.flusher.rest != map[] then s
      else if s.flusher.kind + 1 < KINDS then TakeKind(s, s.flusher.kind + 1)
      else s.(flusher := Idle)
    case Write(id, ok) =>
      if s.flusher.Idle? || id !in s.flusher.rest then s
      else
        var r := Record(s.flusher.kind, id, s.flusher.rest[id]);
        var s' := s.(flusher := Flushing(s.flusher.kind, s.flusher.rest - {id}));
        if ok then s'.(db := Apply(s.db, r)) else s'.(lost := s.lost + [r])
  }

  function Run(s: State, actions: seq<Action>): State {
    if actions == [] then s else Step(Run(s, actions[..|actions| - 1]), actions[|actions| - 1])
  }

  function InFlight(f: Flusher, kind: Kind, id: int): int {
    if f.Flushing? && f.kind == kind then Lookup(f.rest, id) else 0
  }

  /** Row, swapped-out remainder, live store and lost updates account for every requested unit. */
  ghost predicate Balanced(init: Tables, s: State, kind: Kind, id: int)
    requires Has(init, kind, id) && Has(s.db, kind, id)
  {
    Value(s.db, kind, id) + InFlight(s.flusher, kind, id) + Lookup(s.stores[kind], id) + Total(s.lost, kind, id)
    == Value(init, kind, id) + Total(s.log, kind, id)
  }

  lemma WriteBalances(init: Tables, s: State, key: int, ok: bool, kind: Kind, id: int)
    requires SameRows(init, s.db) && s.flusher.Flushing? && key in s.flusher.rest
    requires Has(init, kind, id) && Balanced(init, s, kind, id)
    ensures Has(Step(s, Write(key, ok)).db, kind, id)
    ensures Balanced(init, Step(s, Write(key, ok)), kind, id)
  {
    var r := Record(s.flusher.kind, key, s.flusher.rest[key]);
    ApplyAdds(s.db, r);
    RestWithoutKey(s, key, ok, kind, id);
    TotalMore(s.lost, r, kind, id);
    hide Total, Of, InFlight, Lookup, Apply, Value, SameRows;
  }

  /** The swapped-out remainder gives up exactly the record that is written. */
  lemma RestWithoutKey(s: State, key: int, ok: bool, kind: Kind, id: int)
    requires s.flusher.Flushing? && key in s.flusher.rest
    ensures InFlight(Step(s, Write(key, ok)).flusher, kind, id)
         == InFlight(s.flusher, kind, id) - Of(Record(s.flusher.kind, key, s.flusher.rest[key]), kind, id)
  {
  }

  lemma TotalMore(rs: seq<Record>, r: Record, kind: Kind, id: int)
    ensures Total(rs + [r], kind, id) == Total(rs, kind, id) + Of(r, kind, id)
  {
    FrontOfAppend(rs, r);
  }

  lemma SwapBalances(init: Tables, s: State, kind: Kind, id: int)
    requires SameRows(init, s.db)
    requires Has(init, kind, id) ==> Balanced(init, s, kind, id)
    ensures SameRows(init, Step(s, Swap).db)
    ensures Has(init, kind, id) ==> Balanced(init, Step(s, Swap), kind, id)
  {
    hide Total, SameRows, Value;
  }

  lemma WriteKeepsRows(init: Tables, s: State, key: int, ok: bool)
    requires SameRows(init, s.db)
    ensures SameRows(init, Step(s, Write(key, ok)).db)
  {
    if s.flusher.Flushing? && key in s.flusher.rest {
      ApplyAdds(s.db, Record(s.flusher.kind, key, s.flusher.rest[key]));
    }
  }

  lemma AddBalances(init: Tables, s: State, r: Record, kind: Kind, id: int)
    requires SameRows(init, s.db)
    requires Has(init, kind, id) ==> Balanced(init, s, kind, id)
    ensures SameRows(init, Step(s, Add(r)).db)
    ensures Has(init, kind, id) ==> Balanced(init, Step(s, Add(r)), kind, id)
  {
    TotalMore(s.log, r, kind, id);
    hide Total, SameRows, Value;
  }

  lemma StepBalances(init: Tables, s: State, a: Action, kind: Kind, id: int)
    requires SameRows(init, s.db)
    requires Has(init, kind, id) ==> Balanced(init, s, kind, id)
    ensures SameRows(init, Step(s, a).db)
    ensures Has(init, kind, id) ==> Balanced(init, Step(s, a), kind, id)
  {
    hide Balanced, SameRows, Has, Apply;
    match a {
      case Add(r) => AddBalances(init, s, r, kind, id);
      case Swap => SwapBalances(init, s, kind, id);
      case Write(key, ok) =>
        WriteKeepsRows(init, s, key, ok);
        if s.flusher.Flushing? && key in s.flusher.rest && Has(init, kind, id) {
          WriteBalances(init, s, key, ok, kind, id);
        }
    }
  }

  /** Conservation, over every interleaving. */
  lemma {:induction false} RunBalances(init: Tables, actions: seq<Action>, kind: Kind, id: int)
    ensures var s := Run(Initial(init), actions);
      SameRows(init, s.db) && (Has(init, kind, id) ==> Balanced(init, s, kind, id))
  {
    if actions != [] {
      var n := |actions| - 1;
      RunBalances(init, actions[..n], kind, id);
      StepBalances(init, Run(Initial(init), actions[..n]), actions[n], kind, id);
    }
  }

  predicate Quiescent(s: State) {
    s.flusher.Idle? && s.stores == EMPTY
  }

  ghost predicate NothingLost(s: State) {
    forall kind: Kind, id :: Has(s.db, kind, id) ==> Total(s.lost, kind, id) == 0
  }

  /** Everything the operations recorded has been flushed. */
  ghost predicate Settles(init: Tables, actions: seq<Action>, ops: seq<Op>) {
    var s := Run(Initial(init), actions);
    Quiescent(s) && multiset(s.log) == multiset(AllRecords(ops))
  }

  /** Once everything is flushed, the rows miss exactly the lost updates against the unbatched code, in any order. */
  lemma FlushedEqualsDirect(init: Tables, actions: seq<Action>, ops: seq<Op>)
    requires Settles(init, actions, ops)
    ensures var s := Run(Initial(init), actions);
      s.db == DirectAll(init, ops) <==> NothingLost(s)
  {
    var s := Run(Initial(init), actions);
    var direct := DirectAll(init, ops);
    RunBalances(init, actions, USER_QUOTA, 0);
    DirectAllAdds(init, ops, USER_QUOTA, 0);
    forall kind: Kind, id | Has(s.db, kind, id)
      ensures Value(s.db, kind, id) + Total(s.lost, kind, id) == Value(direct, kind, id)
    {
      RunBalances(init, actions, kind, id);
      DirectAllAdds(init, ops, kind, id);
      TotalOfPermutation(s.log, AllRecords(ops), kind, id);
    }
    if NothingLost(s) {
      SameTables(s.db, direct);
    }
  }

  // ----- Which updates may fail

  /** An update that may fail is one of a given kind and id. */
  type Failing = iset<(Kind, int)>

  ghost predicate FailsIn(s: State, a: Action, failing: Failing) {
    a.Write? && !a.ok && s.flusher.Flushing? ==> (s.flusher.kind, a.id) in failing
  }

  ghost predicate FailsOnlyIn(s: State, actions: seq<Action>, failing: Failing) {
    actions == []
    || (FailsOnlyIn(s, actions[..|actions| - 1], failing)
        && FailsIn(Run(s, actions[..|actions| - 1]), actions[|actions| - 1], failing))
  }

  ghost predicate LostIn(lost: seq<Record>, failing: Failing) {
    forall i :: 0 <= i < |lost| ==> (lost[i].kind, lost[i].id) in failing
  }

  lemma {:induction false} LosesOnlyIn(s: State, actions: seq<Action>, failing: Failing)
    requires LostIn(s.lost, failing) && FailsOnlyIn(s, actions, failing)
    ensures LostIn(Run(s, actions).lost, failing)
  {
    if actions != [] {
      LosesOnlyIn(s, actions[..|actions| - 1], failing);
    }
  }

  lemma {:induction false} TotalElsewhere(rs: seq<Record>, kind: Kind, id: int)
    requires forall i :: 0 <= i < |rs| ==> rs[i].kind != kind || rs[i].id != id
    ensures Total(rs, kind, id) == 0
  {
    if rs != [] {
      TotalElsewhere(rs[..|rs| - 1], kind, id);
    }
  }

  /** If only updates of missing rows fail, nothing is lost and the flushed rows are those of the unbatched code. */
  lemma HarmlessFailures(init: Tables, actions: seq<Action>, ops: seq<Op>, failing: Failing)
    requires Settles(init, actions, ops) && FailsOnlyIn(Initial(init), actions, failing)
    requires forall kind: Kind, id :: (kind, id) in failing ==> !Has(init, kind, id)
    ensures Run(Initial(init), actions).db == DirectAll(init, ops)
  {
    var s := Run(Initial(init), actions);
    LosesOnlyIn(Initial(init), actions, failing);
    RunBalances(init, actions, USER_QUOTA, 0);
    forall kind: Kind, id | Has(s.db, kind, id) ensures Total(s.lost, kind, id) == 0 {
      TotalElsewhere(s.lost, kind, id);
    }
    FlushedEqualsDirect(init, actions, ops);
  }

  ghost predicate AllSucceed(actions: seq<Action>) {
    forall i :: 0 <= i < |actions| && actions[i].Write? ==> actions[i].ok
  }

  lemma {:induction false} SuccessFailsNowhere(s: State, actions: seq<Action>)
    requires AllSucceed(actions)
    ensures FailsOnlyIn(s, actions, iset{})
  {
    if actions != [] {
      SuccessFailsNowhere(s, actions[..|actions| - 1]);
    }
  }

  /** With succeeding updates every interleaving that flushes everything leaves the rows of the unbatched code. */
  lemma BatchedEqualsDirect(init: Tables, actions: seq<Action>, ops: seq<Op>)
    requires Settles(init, actions, ops) && AllSucceed(actions)
    ensures Run(Initial(init), actions).db == DirectAll(init, ops)
  {
    SuccessFailsNowhere(Initial(init), actions);
    HarmlessFailures(init, actions, ops, iset{});
  }

  // ----- A failing update of an existing row is lost

  lemma {:induction false} RunConcat(s: State, a: seq<Action>, b: seq<Action>, failing: Failing)
    ensures Run(s, a + b) == Run(Run(s, a), b)
    ensures FailsOnlyIn(s, a, failing) && FailsOnlyIn(Run(s, a), b, failing) ==> FailsOnlyIn(s, a + b, failing)
    decreases |b|
  {
    if b == [] {
      assert a + b == a;
    } else {
      var n := |b| - 1;
      FrontOfConcat(a, b);
      RunConcat(s, a, b[..n], failing);
    }
  }

  /** An operation that records one unit for the kind and id. */
  function UnitOp(kind: Kind, id: int): Op {
    if kind == USER_QUOTA then IncreaseUserQuota(id, 1)
    else if kind == TOKEN_QUOTA then IncreaseTokenQuota(id, 1)
    else if kind == CHANNEL_USED_QUOTA then UpdateChannelUsedQuota(id, 1)
    else UpdateUserUsedQuotaAndRequestCount(id, 1)
  }

  /** Swap kind k and write the id, failing only for `bad`. */
  function FlushOne(k: Kind, bad: Kind, id: int): seq<Action> {
    [Swap, Write(id, k != bad)]
  }

  /** The flush of kinds k and up. */
  function FlushFrom(k: nat, bad: Kind, id: int): seq<Action>
    decreases KINDS - k
  {
    if k >= KINDS then [Swap] else FlushOne(k, bad, id) + FlushFrom(k + 1, bad, id)
  }

  /** The flusher is about to take kind k, and only `id` is recorded from there on. */
  ghost predicate AtKind(s: State, k: nat, id: int) {
    && k <= KINDS
    && (if k == 0 then s.flusher.Idle? else s.flusher.Flushing? && s.flusher.kind == k - 1 && s.flusher.rest == map[])
    && (forall j: Kind :: j < k ==> s.stores[j] == map[])
    && (forall j: Kind :: s.stores[j].Keys <= {id})
  }

  lemma FlushesOne(s: State, k: Kind, bad: Kind, id: int)
    requires AtKind(s, k, id)
    ensures var s' := Run(s, FlushOne(k, bad, id));
      && AtKind(s', k + 1, id) && s'.log == s.log && (forall j: Kind :: j > k ==> s'.stores[j] == s.stores[j])
      && s'.lost == s.lost + if k == bad && id in s.stores[k] then [Record(k, id, s.stores[k][id])] else []
    ensures FailsOnlyIn(s, FlushOne(k, bad, id), iset{(bad, id)})
  {
    var actions := FlushOne(k, bad, id);
    var s1 := Step(s, Swap);
    assert actions[..1] == [Swap] && actions[..1][..0] == [];
    assert Run(s, actions[..1]) == s1 && Run(s, actions) == Step(s1, Write(id, k != bad));
    assert FailsOnlyIn(s, actions[..1], iset{(bad, id)}) by {
      assert FailsOnlyIn(s, actions[..1][..0], iset{(bad, id)});
    }
    assert s1.flusher == Flushing(k, s.stores[k]);
    assert id !in s.stores[k] ==> s.stores[k] == map[];
    assert s.stores[k] - {id} == map[];
  }

  lemma {:induction false} FlushesAll(s: State, k: nat, bad: Kind, id: int)
    requires AtKind(s, k, id)
    ensures var s' := Run(s, FlushFrom(k, bad, id));
      && Quiescent(s') && s'.log == s.log
      && s'.lost == s.lost + if k <= bad && id in s.stores[bad] then [Record(bad, id, s.stores[bad][id])] else []
    ensures FailsOnlyIn(s, FlushFrom(k, bad, id), iset{(bad, id)})
    decreases KINDS - k
  {
    if k >= KINDS {
      assert [Swap][..0] == [] && Run(s, [Swap]) == Step(s, Swap);
      assert FailsOnlyIn(s, [Swap][..0], iset{(bad, id)});
      assert s.stores == EMPTY;
    } else {
      FlushesOne(s, k, bad, id);
      FlushesAll(Run(s, FlushOne(k, bad, id)), k + 1, bad, id);
      RunConcat(s, FlushOne(k, bad, id), FlushFrom(k + 1, bad, id), iset{(bad, id)});
    }
  }

  function Adds(rs: seq<Record>): seq<Action> {
    seq(|rs|, i requires 0 <= i < |rs| => Add(rs[i]))
  }

  lemma RecordsUnit(init: Tables, bad: Kind, id: int)
    ensures var s := Run(Initial(init), Adds(Records(UnitOp(bad, id))));
      && AtKind(s, 0, id) && s.lost == [] && s.log == Records(UnitOp(bad, id))
      && id in s.stores[bad] && s.stores[bad][id] == 1
    ensures FailsOnlyIn(Initial(init), Adds(Records(UnitOp(bad, id))), iset{(bad, id)})
  {
    var rs := Records(UnitOp(bad, id));
    var actions, s := Adds(rs), Initial(init);
    assert actions[..0] == [] && actions[0] == Add(rs[0]);
    SuccessFailsNowhere(s, actions);
    FailsInMore(s, actions, iset{}, iset{(bad, id)});
    var s1 := Step(s, Add(rs[0]));
    if |rs| == 1 {
      assert Run(s, actions) == s1;
    } else {
      assert actions[..1] == [actions[0]] && [actions[0]][..0] == [] && Run(s, actions[..1]) == s1;
      assert Run(s, actions) == Step(s1, Add(rs[1]));
    }
  }

  /** A failing update of an existing row gives a run that ends flushed with other rows than the unbatched code. */
  lemma FailureBreaks(init: Tables, bad: Kind, id: int) returns (actions: seq<Action>, ops: seq<Op>)
    requires Has(init, bad, id)
    ensures Settles(init, actions, ops) && FailsOnlyIn(Initial(init), actions, iset{(bad, id)})
    ensures Run(Initial(init), actions).db != DirectAll(init, ops)
  {
    var rs := Records(UnitOp(bad, id));
    var first := Run(Initial(init), Adds(rs));
    ops, actions := [UnitOp(bad, id)], Adds(rs) + FlushFrom(0, bad, id);
    RecordsUnit(init, bad, id);
    FlushesAll(first, 0, bad, id);
    RunConcat(Initial(init), Adds(rs), FlushFrom(0, bad, id), iset{(bad, id)});
    assert ops[..0] == [] && AllRecords(ops) == [] + rs == rs;
    var s := Run(Initial(init), actions);
    assert s.lost == [Record(bad, id, 1)] && s.lost[..0] == [] && Total(s.lost, bad, id) == 1;
    RunBalances(init, actions, bad, id);
    FlushedEqualsDirect(init, actions, ops);
  }

  /**
   * For a set of updates that may fail: every interleaving that flushes everything leaves the rows of the unbatched
   * code exactly when no update in the set is of an existing row.
   */
  lemma BatchedEqualsDirectExactlyWhen(init: Tables, failing: Failing)
    ensures (forall actions, ops :: Settles(init, actions, ops) && FailsOnlyIn(Initial(init), actions, failing) ==>
               Run(Initial(init), actions).db == DirectAll(init, ops))
       <==> (forall kind: Kind, id :: (kind, id) in failing ==> !Has(init, kind, id))
  {
    if bad: Kind, id :| (bad, id) in failing && Has(init, bad, id) {
      var actions, ops := FailureBreaks(init, bad, id);
      FailsInMore(Initial(init), actions, iset{(bad, id)}, failing);
    } else {
      forall actions, ops | Settles(init, actions, ops) && FailsOnlyIn(Initial(init), actions, failing)
        ensures Run(Initial(init), actions).db == DirectAll(init, ops)
      {
        HarmlessFailures(init, actions, ops, failing);
      }
    }
  }

  lemma {:induction false} FailsInMore(s: State, actions: seq<Action>, few: Failing, many: Failing)
    requires few <= many && FailsOnlyIn(s, actions, few)
    ensures FailsOnlyIn(s, actions, many)
  {
    if actions != [] {
      FailsInMore(s, actions[..|actions| - 1], few, many);
    }
  }
}
