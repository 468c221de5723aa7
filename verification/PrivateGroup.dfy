/**
 * Private groups, their grants and invite codes (model/private_group.go, service/private_group.go).
 *
 * Rows are never removed, so a row's id is its position in its table. A transaction is one step, but most requests are
 * not one transaction: the service checks and reads first and the model writes later, so a request is a task whose
 * steps may have any steps of other requests between them.
 */
module PrivateGroup {
  import opened Basics

  type Time = t: int | t > 0 witness 1

  datatype Group = Group(owner: int, slug: string, deleted: bool)

  datatype Role = Owner | Member

  datatype Source = FromCreate(group: int) | FromInvite(code: int) | FromAdmin(actor: int)

  datatype Grant = Grant(
    group: int, user: int, role: Role, source: Source, grantedBy: int, expiresAt: int, revokedAt: int)

  datatype Code = Code(group: int, hash: string, createdBy: int, enabled: bool, maxUses: int, used: int, expiresAt: int)

  datatype Tables = Tables(groups: seq<Group>, grants: seq<Grant>, codes: seq<Code>)

  const EMPTY: Tables := Tables([], [], [])

  // ----- Lookups

  /** The first row of the pair, or the number of rows. */
  function FindGrant(grants: seq<Grant>, group: int, user: int): (k: nat)
    ensures k <= |grants|
    ensures k < |grants| ==> grants[k].group == group && grants[k].user == user
    ensures forall i :: 0 <= i < k ==> grants[i].group != group || grants[i].user != user
  {
    if grants == [] || (grants[0].group == group && grants[0].user == user) then 0
    else 1 + FindGrant(grants[1..], group, user)
  }

  function FindCode(codes: seq<Code>, hash: string): (k: nat)
    ensures k <= |codes|
    ensures k < |codes| ==> codes[k].hash == hash
    ensures forall i :: 0 <= i < k ==> codes[i].hash != hash
  {
    if codes == [] || codes[0].hash == hash then 0 else 1 + FindCode(codes[1..], hash)
  }

  predicate Live(t: Tables, group: int) {
    0 <= group < |t.groups| && !t.groups[group].deleted
  }

  /** The group lookup of every service call: any live group for an admin, one's own otherwise. */
  predicate MayManage(t: Tables, actor: int, group: int, admin: bool) {
    Live(t, group) && (admin || (actor > 0 && t.groups[group].owner == actor))
  }

  predicate Active(g: Grant, now: int) {
    g.revokedAt == 0 && (g.expiresAt == 0 || g.expiresAt >= now)
  }

  predicate SlugChar(c: char) {
    'a' <= c <= 'z' || '0' <= c <= '9' || c == '-'
  }

  predicate WellFormed(slug: string) {
    3 <= |slug| <= 64 && slug != "auto" && slug != "default" && forall i :: 0 <= i < |slug| ==> SlugChar(slug[i])
  }

  /** A live row carries the slug; deleted rows are not looked at. */
  predicate SlugExists(t: Tables, slug: string) {
    exists i :: 0 <= i < |t.groups| && !t.groups[i].deleted && t.groups[i].slug == slug
  }

  /** The unique index on the slug, over all rows but one, deleted ones included. */
  predicate SlugTaken(t: Tables, slug: string, except: int) {
    exists i :: 0 <= i < |t.groups| && i != except && t.groups[i].slug == slug
  }

  // ----- What each operation does to the tables

  function Upsert(grants: seq<Grant>, g: Grant): seq<Grant> {
    var k := FindGrant(grants, g.group, g.user);
    if k < |grants| then grants[k := g] else grants + [g]
  }

  function Created(t: Tables, owner: int, slug: string): Tables {
    var id := |t.groups|;
    Tables(t.groups + [Group(owner, slug, false)],
           Upsert(t.grants, Grant(id, owner, Owner, FromCreate(id), owner, 0, 0)), t.codes)
  }

  function RevokeIn(g: Grant, group: int, now: Time): Grant {
    if g.group == group && g.revokedAt == 0 then g.(revokedAt := now) else g
  }

  function DisableIn(c: Code, group: int): Code {
    if c.group == group then c.(enabled := false) else c
  }

  function Deleted(t: Tables, group: int, now: Time): Tables
    requires 0 <= group < |t.groups|
  {
    Tables(t.groups[group := t.groups[group].(deleted := true)],
           seq(|t.grants|, i requires 0 <= i < |t.grants| => RevokeIn(t.grants[i], group, now)),
           seq(|t.codes|, i requires 0 <= i < |t.codes| => DisableIn(t.codes[i], group)))
  }

  function Use(c: Code): Code {
    c.(used := c.used + 1, enabled := if c.maxUses > 0 && c.used + 1 >= c.maxUses then false else c.enabled)
  }

  /** The code can be redeemed: known, enabled, not expired, not used up, and its group is live. */
  predicate Redeemable(t: Tables, k: nat, now: int) {
    && k < |t.codes| && t.codes[k].enabled && (t.codes[k].expiresAt == 0 || t.codes[k].expiresAt >= now)
    && !(t.codes[k].maxUses > 0 && t.codes[k].used >= t.codes[k].maxUses) && Live(t, t.codes[k].group)
  }

  predicate AlreadyIn(t: Tables, group: int, user: int, now: int) {
    var k := FindGrant(t.grants, group, user);
    k < |t.grants| && Active(t.grants[k], now)
  }

  function Redeemed(t: Tables, k: nat, user: int): Tables
    requires k < |t.codes|
  {
    var c := t.codes[k];
    t.(grants := Upsert(t.grants, Grant(c.group, user, Member, FromInvite(k), c.createdBy, 0, 0)),
       codes := t.codes[k := Use(c)])
  }

  /** The redemption by this user creates a grant and uses the code. */
  predicate Creates(t: Tables, hash: string, user: int, now: int) {
    var k := FindCode(t.codes, hash);
    user > 0 && Redeemable(t, k, now) && !AlreadyIn(t, t.codes[k].group, user, now)
  }

  // ----- Requests and their tasks

  /** What the service is asked for, apart from redemptions. */
  datatype Request =
    | Create(owner: int, slug: string, system: set<string>)
    | Rename(actor: int, group: int, newSlug: string, admin: bool, system: set<string>, referenced: bool)
    | Delete(actor: int, group: int, admin: bool, referenced: bool, at: Time)
    | CreateCode(actor: int, group: int, hash: string, maxUses: int, expiresAt: int, admin: bool, at: Time)
    | SetCodeStatus(actor: int, group: int, code: int, enable: bool, admin: bool)
    | Revoke(actor: int, group: int, user: int, admin: bool, at: Time)
    | AdminGrant(actor: int, user: int, group: int, expiresAt: int, at: Time)

  /** What a request that passed its checks still has to do; `readAt` is how many grants redemptions had created by then. */
  datatype Task =
    | InsertGroup(owner: int, slug: string)
    | SaveGroup(group: int, slug: string)
    | DeleteRows(group: int, at: Time)
    | InsertCode(row: Code)
    | ReadCode(group: int, code: int, enable: bool)
    | SaveCode(code: int, row: Code, readAt: nat)
    | ReadGrant(group: int, user: int, at: Time)
    | RevokeRow(group: int, user: int, at: Time)
    | UpsertRow(grant: Grant)
    | Done

  /** The checks of the service; a request that fails them ends with an error and leaves no task. */
  function Prepare(t: Tables, r: Request): Task {
    match r
    case Create(owner, slug, system) =>
      if WellFormed(slug) && slug !in system && !SlugExists(t, slug) then InsertGroup(owner, slug) else Done
    case Rename(actor, group, slug, admin, system, referenced) =>
      if MayManage(t, actor, group, admin) && WellFormed(slug) && slug !in system && !referenced
         && (SlugExists(t, slug) ==> t.groups[group].slug == slug)
      then SaveGroup(group, slug) else Done
    case Delete(actor, group, admin, referenced, at) =>
      if MayManage(t, actor, group, admin) && !referenced then DeleteRows(group, at) else Done
    case CreateCode(actor, group, hash, maxUses, expiresAt, admin, at) =>
      if maxUses > 0 && (expiresAt == 0 || expiresAt >= at) && MayManage(t, actor, group, admin)
      then InsertCode(Code(group, hash, actor, true, maxUses, 0, expiresAt)) else Done
    case SetCodeStatus(actor, group, code, enable, admin) =>
      if MayManage(t, actor, group, admin) then ReadCode(group, code, enable) else Done
    case Revoke(actor, group, user, admin, at) =>
      if MayManage(t, actor, group, admin) then ReadGrant(group, user, at) else Done
    case AdminGrant(actor, user, group, expiresAt, at) =>
      if (expiresAt == 0 || expiresAt >= at) && Live(t, group)
      then UpsertRow(Grant(group, user, Member, FromAdmin(actor), actor, expiresAt, 0)) else Done
  }

  /** The member holds a row that may be revoked: not an owner's and not revoked before. */
  predicate Revocable(t: Tables, group: int, user: int) {
    var k := FindGrant(t.grants, group, user);
    k < |t.grants| && t.grants[k].role != Owner && t.grants[k].revokedAt == 0
  }

  /** The tables after the next step of a task. */
  function Write(t: Tables, task: Task): Tables {
    match task
    case InsertGroup(owner, slug) => if SlugTaken(t, slug, -1) then t else Created(t, owner, slug)
    case SaveGroup(group, slug) =>
      if 0 <= group < |t.groups| && !SlugTaken(t, slug, group) then
        t.(groups := t.groups[group := Group(t.groups[group].owner, slug, false)])
      else t
    case DeleteRows(group, at) => if 0 <= group < |t.groups| then Deleted(t, group, at) else t
    case InsertCode(row) => if FindCode(t.codes, row.hash) < |t.codes| then t else t.(codes := t.codes + [row])
    case SaveCode(code, row, _) => if 0 <= code < |t.codes| then t.(codes := t.codes[code := row]) else t
    case RevokeRow(group, user, at) => t.(grants := RevokedOne(t.grants, group, user, at))
    case UpsertRow(row) => t.(grants := Upsert(t.grants, row))
    case _ => t
  }

  function RevokedOne(grants: seq<Grant>, group: int, user: int, at: Time): seq<Grant> {
    var k := FindGrant(grants, group, user);
    if k < |grants| && grants[k].revokedAt == 0 then grants[k := grants[k].(revokedAt := at)] else grants
  }

  /** What remains of a task after its next step: a read leads to a write, a write ends it. */
  function Rest(t: Tables, task: Task, redemptions: nat): Task {
    match task
    case ReadCode(group, code, enable) =>
      if 0 <= code < |t.codes| && t.codes[code].group == group
      then SaveCode(code, t.codes[code].(enabled := enable), redemptions) else Done
    case ReadGrant(group, user, at) => if Revocable(t, group, user) then RevokeRow(group, user, at) else Done
    case _ => Done
  }

  /** `redeemed` is bookkeeping: the codes of all redemptions that created a grant, in order. */
  datatype State = State(t: Tables, tasks: seq<Task>, redeemed: seq<nat>)

  const START: State := State(EMPTY, [], [])

  datatype Action = Begin(r: Request) | Advance(task: nat) | Redeem(hash: string, user: int, at: Time)

  function Step(s: State, a: Action): State {
    match a
    case Begin(r) => s.(tasks := s.tasks + [Prepare(s.t, r)])
    case Advance(i) =>
      if i < |s.tasks| then
        State(Write(s.t, s.tasks[i]), s.tasks[i := Rest(s.t, s.tasks[i], |s.redeemed|)], s.redeemed)
      else s
    case Redeem(hash, user, at) =>
      if Creates(s.t, hash, user, at) then
        var k := FindCode(s.t.codes, hash);
        State(Redeemed(s.t, k, user), s.tasks, s.redeemed + [k])
      else s
  }

  function Run(s: State, actions: seq<Action>): State {
    if actions == [] then s else Step(Run(s, actions[..|actions| - 1]), actions[|actions| - 1])
  }

  // ----- The code

  class Store {
    var groups: seq<Group>
    var grants: seq<Grant>
    var codes: seq<Code>

    function View(): Tables
      reads this
    {
      Tables(groups, grants, codes)
    }

    constructor ()
      ensures View() == EMPTY
    {
      groups, grants, codes := [], [], [];
    }

    // The checks of the service.

    /** Checks a slug against the system groups and the live rows; `exclude` is the row being renamed, or -1. */
    method ValidateSlug(slug: string, exclude: int, system: set<string>) returns (ok: bool)
      ensures ok == (WellFormed(slug) && slug !in system
                     && (SlugExists(View(), slug) ==> Live(View(), exclude) && groups[exclude].slug == slug))
    {
      if !WellFormed(slug) || slug in system {
        return false;
      }
      if SlugExists(View(), slug) {
        return Live(View(), exclude) && groups[exclude].slug == slug;
      }
      return true;
    }

    method PrepareCreate(owner: int, slug: string, system: set<string>) returns (task: Task)
      ensures task == Prepare(View(), Create(owner, slug, system))
    {
      var ok := ValidateSlug(slug, -1, system);
      if !ok {
        return Done;
      }
      return InsertGroup(owner, slug);
    }

    method PrepareRename(actor: int, group: int, slug: string, admin: bool, system: set<string>, referenced: bool)
      returns (task: Task)
      ensures task == Prepare(View(), Rename(actor, group, slug, admin, system, referenced))
    {
      if !MayManage(View(), actor, group, admin) {
        return Done;
      }
      var ok := ValidateSlug(slug, group, system);
      if !ok || referenced {
        return Done;
      }
      return SaveGroup(group, slug);
    }

    method PrepareDelete(actor: int, group: int, admin: bool, referenced: bool, now: Time) returns (task: Task)
      ensures task == Prepare(View(), Delete(actor, group, admin, referenced, now))
    {
      if !MayManage(View(), actor, group, admin) {
        return Done;
      }
      if referenced {
        return Done;
      }
      return DeleteRows(group, now);
    }

    method PrepareCode(actor: int, group: int, hash: string, maxUses: int, expiresAt: int, admin: bool, now: Time)
      returns (task: Task)
      ensures task == Prepare(View(), CreateCode(actor, group, hash, maxUses, expiresAt, admin, now))
    {
      if maxUses <= 0 {
        return Done;
      }
      if expiresAt != 0 && expiresAt < now {
        return Done;
      }
      if !MayManage(View(), actor, group, admin) {
        return Done;
      }
      return InsertCode(Code(group, hash, actor, true, maxUses, 0, expiresAt));
    }

    /** The second check of a status change: the code is read and must belong to the group. */
    method ReadForStatus(group: int, code: int, enable: bool, ghost redemptions: nat) returns (row: Option<Code>)
      ensures Rest(View(), ReadCode(group, code, enable), redemptions)
           == if row.Some? then SaveCode(code, row.value.(enabled := enable), redemptions) else Done
    {
      if code < 0 || code >= |codes| {
        return None;
      }
      if codes[code].group != group {
        return None;
      }
      return Some(codes[code]);
    }

    /** The second check of a revocation: the grant is read, and must not be an owner's or revoked. */
    method ReadForRevoke(group: int, user: int, now: Time) returns (ok: bool)
      ensures Rest(View(), ReadGrant(group, user, now), 0) == if ok then RevokeRow(group, user, now) else Done
    {
      var k := FindGrant(grants, group, user);
      if k == |grants| {
        return false;
      }
      if grants[k].role == Owner {
        return false;
      }
      if grants[k].revokedAt != 0 {
        return false;
      }
      return true;
    }

    method PrepareGrant(actor: int, user: int, group: int, expiresAt: int, now: Time) returns (task: Task)
      ensures task == Prepare(View(), AdminGrant(actor, user, group, expiresAt, now))
    {
      if expiresAt != 0 && expiresAt < now {
        return Done;
      }
      if !Live(View(), group) {
        return Done;
      }
      return UpsertRow(Grant(group, user, Member, FromAdmin(actor), actor, expiresAt, 0));
    }

    // The writes of the model.

    method UpsertGrant(g: Grant)
      modifies this`grants
      ensures View() == Write(old(View()), UpsertRow(g))
      ensures var k := FindGrant(grants, g.group, g.user); k < |grants| && grants[k] == g
    {
      var k := FindGrant(grants, g.group, g.user);
      if k == |grants| {
        grants := grants + [g];
      } else {
        grants := grants[k := g];
      }
      FoundAfterUpsert(old(grants), g);
    }

    method CreateGroup(owner: int, slug: string) returns (ok: bool)
      modifies this
      ensures ok == !SlugTaken(old(View()), slug, -1)
      ensures View() == Write(old(View()), InsertGroup(owner, slug))
    {
      if SlugTaken(View(), slug, -1) {
        return false;
      }
      var id := |groups|;
      groups := groups + [Group(owner, slug, false)];
      UpsertGrant(Grant(id, owner, Owner, FromCreate(id), owner, 0, 0));
      return true;
    }

    /** Writes the whole row as it was read, when it was live: a row deleted since then is live again. */
    method UpdateSlug(group: int, slug: string) returns (ok: bool)
      requires 0 <= group < |groups|
      modifies this`groups
      ensures ok == !SlugTaken(old(View()), slug, group)
      ensures View() == Write(old(View()), SaveGroup(group, slug))
      ensures ok ==> Live(View(), group) && groups[group].slug == slug
    {
      if SlugTaken(View(), slug, group) {
        return false;
      }
      groups := groups[group := Group(groups[group].owner, slug, false)];
      return true;
    }

    method DeleteGroup(group: int, now: Time)
      requires 0 <= group < |groups|
      modifies this
      ensures View() == Write(old(View()), DeleteRows(group, now))
      ensures Buried(View(), group) && IsDeleted(View(), group, old(groups)[group].slug)
    {
      DeletionBuries(View(), group, now);
      grants := seq(|grants|, i requires 0 <= i < |grants| reads this => RevokeIn(grants[i], group, now));
      codes := seq(|codes|, i requires 0 <= i < |codes| reads this => DisableIn(codes[i], group));
      groups := groups[group := groups[group].(deleted := true)];
    }

    method CreateInviteCode(row: Code) returns (ok: bool)
      modifies this`codes
      ensures ok == (FindCode(old(codes), row.hash) == |old(codes)|)
      ensures View() == Write(old(View()), InsertCode(row))
    {
      if FindCode(codes, row.hash) < |codes| {
        return false;
      }
      codes := codes + [row];
      return true;
    }

    method UpdateCodeStatus(code: int, read: Code, enable: bool, ghost readAt: nat)
      requires 0 <= code < |codes|
      modifies this`codes
      ensures View() == Write(old(View()), SaveCode(code, read.(enabled := enable), readAt))
      ensures |codes| == |old(codes)| && forall k :: 0 <= k < |codes| && k != code ==> codes[k] == old(codes)[k]
      ensures codes[code].enabled == enable && codes[code].used == read.used
    {
      codes := codes[code := read.(enabled := enable)];
    }

    method RevokeGrant(group: int, user: int, now: Time)
      modifies this`grants
      ensures View() == Write(old(View()), RevokeRow(group, user, now))
      ensures forall t :: !AlreadyIn(View(), group, user, t)
    {
      var k := FindGrant(grants, group, user);
      if k < |grants| && grants[k].revokedAt == 0 {
        grants := grants[k := grants[k].(revokedAt := now)];
        SameFind(old(grants), grants, group, user);
      }
    }

    method RedeemCode(hash: string, user: int, now: Time) returns (ok: bool, created: bool)
      modifies this
      ensures created == Creates(old(View()), hash, user, now)
      ensures ok == (user > 0 && Redeemable(old(View()), FindCode(old(codes), hash), now))
      ensures View() == if created then Redeemed(old(View()), FindCode(old(codes), hash), user) else old(View())
    {
      hide Upsert, FindCode, FindGrant;
      if user <= 0 {
        return false, false;
      }
      var k := FindCode(codes, hash);
      if k == |codes| || !codes[k].enabled {
        return false, false;
      }
      var code := codes[k];
      if code.expiresAt != 0 && code.expiresAt < now {
        return false, false;
      }
      if code.maxUses > 0 && code.used >= code.maxUses {
        return false, false;
      }
      if !Live(View(), code.group) {
        return false, false;
      }
      var j := FindGrant(grants, code.group, user);
      if j < |grants| && Active(grants[j], now) {
        return true, false;
      }
      UpsertGrant(Grant(code.group, user, Member, FromInvite(k), code.createdBy, 0, 0));
      code := code.(used := code.used + 1);
      if code.maxUses > 0 && code.used >= code.maxUses {
        code := code.(enabled := false);
      }
      codes := codes[k := code];
      return true, true;
    }
  }

  // ----- What every step keeps

  /** At most one grant row for a group and a user. */
  ghost predicate UniqueGrants(grants: seq<Grant>) {
    forall i, j :: 0 <= i < j < |grants| ==> grants[i].group != grants[j].group || grants[i].user != grants[j].user
  }

  /** No two rows share a slug, deleted ones included. */
  ghost predicate UniqueSlugs(groups: seq<Group>) {
    forall i, j :: 0 <= i < j < |groups| ==> groups[i].slug != groups[j].slug
  }

  ghost predicate WithinBudget(codes: seq<Code>) {
    forall k :: 0 <= k < |codes| ==> InBudget(codes[k])
  }

  predicate InBudget(c: Code) {
    0 <= c.used <= c.maxUses && c.maxUses > 0
  }

  /** Grants and codes belong to a group row. */
  ghost predicate RowsFit(t: Tables) {
    && (forall i :: 0 <= i < |t.grants| ==> 0 <= t.grants[i].group < |t.groups|)
    && (forall k :: 0 <= k < |t.codes| ==> 0 <= t.codes[k].group < |t.groups|)
  }

  ghost predicate TablesInv(t: Tables) {
    UniqueGrants(t.grants) && UniqueSlugs(t.groups) && WithinBudget(t.codes) && RowsFit(t)
  }

  /** The parts of a code that never change. */
  predicate SameCode(a: Code, b: Code) {
    a.group == b.group && a.hash == b.hash && a.maxUses == b.maxUses
  }

  /** The user's row is a member's. */
  ghost predicate IsMember(grants: seq<Grant>, group: int, user: int) {
    var k := FindGrant(grants, group, user);
    k < |grants| && grants[k].role == Member
  }

  ghost predicate TaskFits(t: Tables, task: Task) {
    match task
    case SaveGroup(group, _) => 0 <= group < |t.groups|
    case DeleteRows(group, _) => 0 <= group < |t.groups|
    case InsertCode(row) => 0 <= row.group < |t.groups| && row.used == 0 && InBudget(row) && row.enabled
    case SaveCode(code, row, _) => 0 <= code < |t.codes| && SameCode(row, t.codes[code]) && InBudget(row)
    case RevokeRow(group, user, _) => IsMember(t.grants, group, user)
    case UpsertRow(row) => 0 <= row.group < |t.groups| && row.role == Member && row.revokedAt == 0
    case _ => true
  }

  ghost predicate Inv(s: State) {
    TablesInv(s.t) && forall i :: 0 <= i < |s.tasks| ==> TaskFits(s.t, s.tasks[i])
  }

  /** Rows are never removed, groups keep their owner and codes what they are for, and members stay members. */
  ghost predicate Grows(t: Tables, t': Tables) {
    && GroupsGrow(t.groups, t'.groups) && GrantsGrow(t.grants, t'.grants)
    && |t.codes| <= |t'.codes| && forall k :: 0 <= k < |t.codes| ==> SameCode(t.codes[k], t'.codes[k])
  }

  ghost predicate GroupsGrow(a: seq<Group>, b: seq<Group>) {
    && |a| <= |b|
    && forall i :: 0 <= i < |a| ==> a[i].owner == b[i].owner
  }

  ghost predicate GrantsGrow(a: seq<Grant>, b: seq<Grant>) {
    && |a| <= |b|
    && forall i :: 0 <= i < |a| ==> a[i].group == b[i].group && a[i].user == b[i].user && (a[i].role == Member ==> b[i].role == Member)
  }

  lemma UpsertKeepsUnique(grants: seq<Grant>, g: Grant)
    requires UniqueGrants(grants)
    ensures UniqueGrants(Upsert(grants, g))
    ensures g.role == Member || FindGrant(grants, g.group, g.user) == |grants| ==> GrantsGrow(grants, Upsert(grants, g))
  {
  }

  lemma SameFind(a: seq<Grant>, b: seq<Grant>, group: int, user: int)
    requires GrantsGrow(a, b) && FindGrant(a, group, user) < |a|
    ensures FindGrant(b, group, user) == FindGrant(a, group, user)
  {
    var k := FindGrant(a, group, user);
    assert forall i :: 0 <= i < k ==> b[i].group != group || b[i].user != user;
    FirstIsFound(b, k, group, user);
  }

  lemma TaskStillFits(t: Tables, t': Tables, task: Task)
    requires TaskFits(t, task) && Grows(t, t')
    ensures TaskFits(t', task)
  {
    if task.RevokeRow? {
      SameFind(t.grants, t'.grants, task.group, task.user);
    }
  }

  lemma InsertGroupKeepsInv(t: Tables, owner: int, slug: string)
    requires TablesInv(t)
    ensures var t' := Write(t, InsertGroup(owner, slug)); TablesInv(t') && Grows(t, t')
  {
    if !SlugTaken(t, slug, -1) {
      var g := Grant(|t.groups|, owner, Owner, FromCreate(|t.groups|), owner, 0, 0);
      assert FindGrant(t.grants, g.group, g.user) == |t.grants|;
      UpsertKeepsUnique(t.grants, g);
    }
  }

  lemma SaveGroupKeepsInv(t: Tables, group: int, slug: string)
    requires TablesInv(t)
    ensures var t' := Write(t, SaveGroup(group, slug)); TablesInv(t') && Grows(t, t')
  {
  }

  lemma DeleteKeepsInv(t: Tables, group: int, at: Time)
    requires TablesInv(t) && 0 <= group < |t.groups|
    ensures TablesInv(Deleted(t, group, at)) && Grows(t, Deleted(t, group, at))
  {
  }

  lemma UpsertKeepsInv(t: Tables, g: Grant)
    requires TablesInv(t) && 0 <= g.group < |t.groups| && g.role == Member
    ensures var t' := t.(grants := Upsert(t.grants, g)); TablesInv(t') && Grows(t, t')
  {
    UpsertKeepsUnique(t.grants, g);
  }

  lemma WriteKeepsInv(t: Tables, task: Task)
    requires TablesInv(t) && TaskFits(t, task)
    ensures TablesInv(Write(t, task)) && Grows(t, Write(t, task))
  {
    hide TablesInv, Grows;
    match task
    case InsertGroup(owner, slug) => InsertGroupKeepsInv(t, owner, slug);
    case SaveGroup(group, slug) => SaveGroupKeepsInv(t, group, slug);
    case DeleteRows(group, at) => DeleteKeepsInv(t, group, at);
    case UpsertRow(row) => UpsertKeepsInv(t, row);
    case InsertCode(row) => InsertCodeKeepsInv(t, row);
    case SaveCode(code, row, _) => SaveCodeKeepsInv(t, code, row);
    case RevokeRow(group, user, at) => RevokeKeepsInv(t, group, user, at);
    case _ => GrowsSame(t);
  }

  lemma InsertCodeKeepsInv(t: Tables, row: Code)
    requires TablesInv(t) && 0 <= row.group < |t.groups| && InBudget(row)
    ensures var t' := Write(t, InsertCode(row)); TablesInv(t') && Grows(t, t')
  {
  }

  lemma SaveCodeKeepsInv(t: Tables, code: int, row: Code)
    requires TablesInv(t) && 0 <= code < |t.codes| && SameCode(row, t.codes[code]) && InBudget(row)
    ensures var t' := t.(codes := t.codes[code := row]); TablesInv(t') && Grows(t, t')
  {
  }

  lemma RevokeKeepsInv(t: Tables, group: int, user: int, at: Time)
    requires TablesInv(t)
    ensures var t' := t.(grants := RevokedOne(t.grants, group, user, at)); TablesInv(t') && Grows(t, t')
  {
  }

  lemma RedeemKeepsInv(t: Tables, k: nat, user: int, now: int)
    requires TablesInv(t) && Redeemable(t, k, now)
    ensures TablesInv(Redeemed(t, k, user)) && Grows(t, Redeemed(t, k, user))
  {
    var c := t.codes[k];
    UpsertKeepsInv(t, Grant(c.group, user, Member, FromInvite(k), c.createdBy, 0, 0));
  }

  lemma TablesKeepInv(s: State, a: Action)
    requires Inv(s)
    ensures TablesInv(Step(s, a).t) && Grows(s.t, Step(s, a).t)
  {
    hide TablesInv, Write, Rest, Prepare, Redeemed, Redeemable;
    match a {
      case Begin(_) => GrowsSame(s.t);
      case Advance(i) =>
        if i < |s.tasks| {
          WriteKeepsInv(s.t, s.tasks[i]);
        } else {
          GrowsSame(s.t);
        }
      case Redeem(hash, user, at) =>
        if Creates(s.t, hash, user, at) {
          RedeemKeepsInv(s.t, FindCode(s.t.codes, hash), user, at);
        } else {
          GrowsSame(s.t);
        }
    }
  }

  lemma GrowsSame(t: Tables)
    ensures Grows(t, t)
  {
  }

  lemma NewTaskFits(t: Tables, r: Request)
    requires TablesInv(t)
    ensures TaskFits(t, Prepare(t, r))
  {
    hide WellFormed, SlugExists, UniqueSlugs, UniqueGrants;
  }

  lemma RestFits(t: Tables, task: Task, redemptions: nat)
    requires TablesInv(t) && TaskFits(t, task)
    ensures TaskFits(Write(t, task), Rest(t, task, redemptions))
  {
    hide UniqueSlugs, UniqueGrants;
  }

  lemma StepKeepsInv(s: State, a: Action)
    requires Inv(s)
    ensures Inv(Step(s, a)) && Grows(s.t, Step(s, a).t)
  {
    var s' := Step(s, a);
    TablesKeepInv(s, a);
    hide TablesInv, TaskFits, Grows, Prepare, Write, Rest, Creates, Redeemed;
    match a {
      case Begin(r) => NewTaskFits(s.t, r);
      case Advance(i) =>
        if i < |s.tasks| {
          RestFits(s.t, s.tasks[i], |s.redeemed|);
        }
      case Redeem(_, _, _) =>
    }
    forall j | 0 <= j < |s.tasks| ensures TaskFits(s'.t, s.tasks[j]) {
      TaskStillFits(s.t, s'.t, s.tasks[j]);
    }
  }

  lemma {:induction false} RunKeepsInv(s: State, actions: seq<Action>)
    requires Inv(s)
    ensures Inv(Run(s, actions))
  {
    if actions != [] {
      RunKeepsInv(s, actions[..|actions| - 1]);
      StepKeepsInv(Run(s, actions[..|actions| - 1]), actions[|actions| - 1]);
    }
  }

  // ----- The invite budget

  /** How many of the redemptions were of code k. */
  function Uses(redeemed: seq<nat>, k: nat): nat {
    if redeemed == [] then 0
    else Uses(redeemed[..|redeemed| - 1], k) + if redeemed[|redeemed| - 1] == k then 1 else 0
  }

  function UsedOf(t: Tables, k: nat): int {
    if k < |t.codes| then t.codes[k].used else 0
  }

  /** Code k was redeemed since position n. */
  ghost predicate RedeemedSince(redeemed: seq<nat>, n: nat, k: nat) {
    exists j :: n <= j < |redeemed| && redeemed[j] == k
  }

  lemma {:induction false} UsesSince(redeemed: seq<nat>, n: nat, k: nat)
    requires n <= |redeemed|
    ensures Uses(redeemed[..n], k) <= Uses(redeemed, k)
    ensures Uses(redeemed[..n], k) == Uses(redeemed, k) <==> !RedeemedSince(redeemed, n, k)
  {
    var m := |redeemed| - 1;
    if n <= m {
      UsesSince(redeemed[..m], n, k);
      assert redeemed[..m][..n] == redeemed[..n];
      if j :| n <= j < m && redeemed[j] == k {
        assert redeemed[..m][j] == k;
      }
    } else {
      assert redeemed[..n] == redeemed;
    }
  }

  /** The action saves a row of code k that was read before its latest redemption. */
  ghost predicate SavesStale(s: State, a: Action, k: nat) {
    && a.Advance? && a.task < |s.tasks| && s.tasks[a.task].SaveCode? && s.tasks[a.task].code == k
    && RedeemedSince(s.redeemed, s.tasks[a.task].readAt, k)
  }

  ghost predicate Counted(s: State, k: nat) {
    UsedOf(s.t, k) == Uses(s.redeemed, k)
  }

  /** A row waiting to be saved holds the count of its time. */
  ghost predicate TaskCounted(s: State, task: Task, k: nat) {
    task.SaveCode? && task.code == k ==>
      task.readAt <= |s.redeemed| && task.row.used == Uses(s.redeemed[..task.readAt], k)
  }

  ghost predicate AllCounted(s: State, k: nat) {
    Counted(s, k) && forall i :: 0 <= i < |s.tasks| ==> TaskCounted(s, s.tasks[i], k)
  }

  /** Later redemptions do not change the count of a row's time. */
  lemma {:induction false} StillCounted(s: State, j: nat, task: Task, k: nat, s': State)
    requires TaskCounted(s, task, k) && s'.redeemed == s.redeemed + [j]
    ensures TaskCounted(s', task, k)
  {
    if task.SaveCode? && task.code == k {
      assert s'.redeemed[..task.readAt] == s.redeemed[..task.readAt];
    }
  }

  lemma {:induction false} UsesAppend(redeemed: seq<nat>, j: nat, k: nat)
    ensures Uses(redeemed + [j], k) == Uses(redeemed, k) + if j == k then 1 else 0
  {
    FrontOfAppend(redeemed, j);
  }

  lemma {:induction false} RedeemedCounts(t: Tables, j: nat, user: int, k: nat)
    requires j < |t.codes|
    ensures UsedOf(Redeemed(t, j, user), k) == UsedOf(t, k) + if j == k then 1 else 0
  {
    hide Upsert;
  }

  lemma {:induction false} RedeemKeepsCount(s: State, a: Action, k: nat)
    requires AllCounted(s, k) && a.Redeem?
    ensures AllCounted(Step(s, a), k)
  {
    hide FindCode, Creates, Redeemed, Uses, UsedOf, TaskCounted;
    var s' := Step(s, a);
    if Creates(s.t, a.hash, a.user, a.at) {
      var j := FindCode(s.t.codes, a.hash);
      CreatesFinds(s.t, a.hash, a.user, a.at);
      UsesAppend(s.redeemed, j, k);
      RedeemedCounts(s.t, j, a.user, k);
      forall i | 0 <= i < |s.tasks| ensures TaskCounted(s', s.tasks[i], k) {
        StillCounted(s, j, s.tasks[i], k, s');
      }
    }
  }

  lemma {:induction false} CreatesFinds(t: Tables, hash: string, user: int, now: int)
    requires Creates(t, hash, user, now)
    ensures FindCode(t.codes, hash) < |t.codes|
  {
  }

  lemma AdvanceCounts(s: State, a: Action, k: nat)
    requires Inv(s) && AllCounted(s, k) && a.Advance?
    ensures AllCounted(Step(s, a), k) <==> !SavesStale(s, a, k)
    ensures SavesStale(s, a, k) ==> !Counted(Step(s, a), k)
  {
    if a.task < |s.tasks| {
      var task := s.tasks[a.task];
      assert s.redeemed[..|s.redeemed|] == s.redeemed;
      assert TaskFits(s.t, task) && TaskCounted(s, task, k);
      if task.SaveCode? && task.code == k {
        UsesSince(s.redeemed, task.readAt, k);
      } else {
        assert UsedOf(Write(s.t, task), k) == UsedOf(s.t, k);
      }
      forall i | 0 <= i < |s.tasks| ensures TaskCounted(Step(s, a), Step(s, a).tasks[i], k) {
        assert TaskCounted(s, s.tasks[i], k);
      }
    }
  }

  lemma StepCounts(s: State, a: Action, k: nat)
    requires Inv(s) && AllCounted(s, k)
    ensures AllCounted(Step(s, a), k) <==> !SavesStale(s, a, k)
    ensures SavesStale(s, a, k) ==> !Counted(Step(s, a), k)
  {
    match a {
      case Begin(_) =>
      case Advance(_) => AdvanceCounts(s, a, k);
      case Redeem(_, _, _) => RedeemKeepsCount(s, a, k);
    }
  }

  ghost predicate StaleAt(actions: seq<Action>, i: nat, k: nat)
    requires i < |actions|
  {
    SavesStale(Run(START, actions[..i]), actions[i], k)
  }

  ghost predicate NeverStale(actions: seq<Action>, k: nat) {
    forall i :: 0 <= i < |actions| ==> !StaleAt(actions, i, k)
  }

  /** The count is right after every prefix of the run. */
  ghost predicate AlwaysCounted(actions: seq<Action>, k: nat) {
    forall i :: 0 <= i <= |actions| ==> Counted(Run(START, actions[..i]), k)
  }

  lemma {:induction false} RunCounts(actions: seq<Action>, k: nat)
    requires NeverStale(actions, k)
    ensures AllCounted(Run(START, actions), k)
  {
    if actions != [] {
      var n := |actions| - 1;
      forall i | 0 <= i < n ensures !StaleAt(actions[..n], i, k) {
        assert actions[..n][..i] == actions[..i] && !StaleAt(actions, i, k);
      }
      RunCounts(actions[..n], k);
      RunKeepsInv(START, actions[..n]);
      assert !StaleAt(actions, n, k);
      StepCounts(Run(START, actions[..n]), actions[n], k);
    }
  }

  lemma {:induction false} CountedIsNeverStale(actions: seq<Action>, k: nat)
    requires AlwaysCounted(actions, k)
    ensures NeverStale(actions, k)
  {
    if actions != [] {
      var n := |actions| - 1;
      forall i | 0 <= i <= n ensures Counted(Run(START, actions[..n][..i]), k) {
        assert actions[..n][..i] == actions[..i];
      }
      CountedIsNeverStale(actions[..n], k);
      RunCounts(actions[..n], k);
      RunKeepsInv(START, actions[..n]);
      assert actions[..|actions|] == actions;
      StepCounts(Run(START, actions[..n]), actions[n], k);
      forall i | 0 <= i < |actions| ensures !StaleAt(actions, i, k) {
        assert i < n ==> actions[..n][..i] == actions[..i] && !StaleAt(actions[..n], i, k);
      }
    }
  }

  /**
   * In every run from empty tables, a code's count is the number of its created redemptions after every prefix exactly
   * when no save of the code writes a row read before a redemption of it.
   */
  lemma UsesCountedExactlyWhen(actions: seq<Action>, k: nat)
    ensures AlwaysCounted(actions, k) <==> NeverStale(actions, k)
  {
    if NeverStale(actions, k) {
      forall i | 0 <= i <= |actions| ensures Counted(Run(START, actions[..i]), k) {
        forall j | 0 <= j < i ensures !StaleAt(actions[..i], j, k) {
          assert actions[..i][..j] == actions[..j] && !StaleAt(actions, j, k);
        }
        RunCounts(actions[..i], k);
      }
    }
    if AlwaysCounted(actions, k) {
      CountedIsNeverStale(actions, k);
    }
  }

  /**
   * In every run from empty tables a code's count stays within its budget and a group and user have at most one row.
   * Without a stale save no more grants are created through a code than its budget.
   */
  lemma InviteBudget(actions: seq<Action>, k: nat)
    ensures var s := Run(START, actions);
      && UniqueGrants(s.t.grants)
      && (k < |s.t.codes| ==> s.t.codes[k].used <= s.t.codes[k].maxUses)
      && (NeverStale(actions, k) ==> Uses(s.redeemed, k) <= if k < |s.t.codes| then s.t.codes[k].maxUses else 0)
  {
    RunKeepsInv(START, actions);
    if NeverStale(actions, k) {
      RunCounts(actions, k);
    }
  }

  lemma SameHash(a: seq<Code>, b: seq<Code>, hash: string)
    requires |a| == |b| && forall i :: 0 <= i < |a| ==> a[i].hash == b[i].hash
    ensures FindCode(a, hash) == FindCode(b, hash)
  {
  }

  lemma RunOne(s: State, a: Action)
    ensures Run(s, [a]) == Step(s, a)
  {
    assert [a][..0] == [];
  }

  lemma RunLast(s: State, actions: seq<Action>)
    requires actions != []
    ensures Run(s, actions) == Step(Run(s, actions[..|actions| - 1]), actions[|actions| - 1])
  {
  }

  lemma {:induction false} RunConcat(s: State, a: seq<Action>, b: seq<Action>)
    ensures Run(s, a + b) == Run(Run(s, a), b)
    decreases |b|
  {
    if b == [] {
      assert a + b == a;
    } else {
      var all, n := a + b, |b| - 1;
      RunConcat(s, a, b[..n]);
      FrontOfConcat(a, b);
      RunLast(s, all);
      RunLast(Run(s, a), b);
    }
  }

  /** A status change that reads a code of one use before a redemption and saves it after lets it create a second grant. */
  lemma StaleSaveBreaksBudget(s: State, i: nat, k: nat, a: Action, b: Action)
    requires Inv(s) && i < |s.tasks| && k < |s.t.codes| && s.t.codes[k].maxUses == 1
    requires s.tasks[i] == SaveCode(k, s.t.codes[k].(enabled := true), |s.redeemed|)
    requires a.Redeem? && Creates(s.t, a.hash, a.user, a.at) && FindCode(s.t.codes, a.hash) == k
    requires b.Redeem? && b.hash == a.hash && b.user > 0 && b.user != a.user && a.at == b.at
    requires !AlreadyIn(s.t, s.t.codes[k].group, b.user, b.at)
    ensures Step(Step(s, a), b).redeemed == s.redeemed + [k]
    ensures Step(Step(Step(s, a), Advance(i)), b).redeemed == s.redeemed + [k, k]
  {
    var c := s.t.codes[k];
    var g := Grant(c.group, a.user, Member, FromInvite(k), c.createdBy, 0, 0);
    var s1 := Step(s, a);
    var s2 := Step(s1, Advance(i));
    SameHash(s.t.codes, s1.t.codes, a.hash);
    SameHash(s.t.codes, s2.t.codes, a.hash);
    if FindGrant(s.t.grants, c.group, b.user) < |s.t.grants| {
      FindAfterUpsert(s.t.grants, g, c.group, b.user);
    }
    assert s.redeemed + [k, k] == (s.redeemed + [k]) + [k];
  }

  /** How such a state comes about: a group, its code of one use, and a status change that has read the code's row. */
  function StaleRun(): seq<Action> {
    [Begin(Create(1, "abc", {}))] + [Advance(0)] + [Begin(CreateCode(1, 0, "hash", 1, 0, false, 1))] + [Advance(1)]
    + [Begin(SetCodeStatus(1, 0, 0, true, false))] + [Advance(2)]
  }

  /** The tables of that run. */
  function StaleTables(): Tables {
    Tables([Group(1, "abc", false)], [Grant(0, 1, Owner, FromCreate(0), 1, 0, 0)], [Code(0, "hash", 1, true, 1, 0, 0)])
  }

  lemma StaleRunReaches()
    ensures Run(START, StaleRun())
         == State(StaleTables(), [Done, Done, SaveCode(0, StaleTables().codes[0], 0)], [])
  {
    hide *;
    var a1, a2, a3 := Begin(Create(1, "abc", {})), Begin(CreateCode(1, 0, "hash", 1, 0, false, 1)), Begin(SetCodeStatus(1, 0, 0, true, false));
    StaleRunCreates();
    StaleRunAddsCode();
    StaleRunReads();
    StaleRunIs();
    RunOne(START, a1);
    RunMore(START, [a1], Advance(0));
    RunMore(START, [a1] + [Advance(0)], a2);
    RunMore(START, [a1] + [Advance(0)] + [a2], Advance(1));
    RunMore(START, [a1] + [Advance(0)] + [a2] + [Advance(1)], a3);
    RunMore(START, [a1] + [Advance(0)] + [a2] + [Advance(1)] + [a3], Advance(2));
  }

  lemma StaleRunIs()
    ensures StaleRun() == [Begin(Create(1, "abc", {}))] + [Advance(0)] + [Begin(CreateCode(1, 0, "hash", 1, 0, false, 1))] + [Advance(1)]
                          + [Begin(SetCodeStatus(1, 0, 0, true, false))] + [Advance(2)]
    ensures |StaleTables().codes| == 1
  {
  }

  lemma StaleRunCreates()
    ensures Step(Step(START, Begin(Create(1, "abc", {}))), Advance(0)) == State(StaleTables().(codes := []), [Done], [])
  {
    var s1 := State(EMPTY, [InsertGroup(1, "abc")], []);
    assert Step(START, Begin(Create(1, "abc", {}))) == s1;
    assert Write(EMPTY, InsertGroup(1, "abc")) == StaleTables().(codes := []);
  }

  lemma StaleRunAddsCode()
    ensures Step(Step(State(StaleTables().(codes := []), [Done], []), Begin(CreateCode(1, 0, "hash", 1, 0, false, 1))), Advance(1))
         == State(StaleTables(), [Done, Done], [])
  {
    var t := StaleTables();
    var s2 := State(t.(codes := []), [Done], []);
    assert Step(s2, Begin(CreateCode(1, 0, "hash", 1, 0, false, 1))) == State(s2.t, [Done, InsertCode(t.codes[0])], []);
    assert Write(s2.t, InsertCode(t.codes[0])) == t;
  }

  lemma StaleRunReads()
    ensures |StaleTables().codes| == 1
    ensures Step(Step(State(StaleTables(), [Done, Done], []), Begin(SetCodeStatus(1, 0, 0, true, false))), Advance(2))
         == State(StaleTables(), [Done, Done, SaveCode(0, StaleTables().codes[0], 0)], [])
  {
    var s4 := State(StaleTables(), [Done, Done], []);
    assert Step(s4, Begin(SetCodeStatus(1, 0, 0, true, false))) == State(s4.t, [Done, Done, ReadCode(0, 0, true)], []);
  }

  lemma StaleRunCanRedeem(user: int)
    requires user > 1
    ensures Creates(StaleTables(), "hash", user, 1) && FindCode(StaleTables().codes, "hash") == 0
    ensures !AlreadyIn(StaleTables(), 0, user, 1)
  {
  }

  /** From empty tables: a code of one use creates grants for users 2 and 3. */
  lemma BudgetIsExceeded()
    ensures var s := Run(START, StaleRun() + [Redeem("hash", 2, 1)] + [Advance(2)] + [Redeem("hash", 3, 1)]);
      s.redeemed == [0, 0] && |s.t.codes| > 0 && s.t.codes[0].maxUses == 1
  {
    var a, b := Redeem("hash", 2, 1), Redeem("hash", 3, 1);
    var s := Run(START, StaleRun());
    StaleRunReaches();
    RunKeepsInv(START, StaleRun());
    StaleRunCanRedeem(2);
    StaleRunCanRedeem(3);
    hide Run, Step, StaleRun, Inv, Creates, AlreadyIn, FindCode, FindGrant, SlugChar;
    StaleSaveBreaksBudget(s, 2, 0, a, b);
    RunMore(START, StaleRun(), a);
    RunMore(START, StaleRun() + [a], Advance(2));
    RunMore(START, StaleRun() + [a] + [Advance(2)], b);
    StepKeepsInv(s, a);
    StepKeepsInv(Step(s, a), Advance(2));
    StepKeepsInv(Step(Step(s, a), Advance(2)), b);
  }

  lemma FoundAfterUpsert(grants: seq<Grant>, g: Grant)
    ensures var k := FindGrant(grants, g.group, g.user);
      FindGrant(Upsert(grants, g), g.group, g.user) == k && k < |Upsert(grants, g)| && Upsert(grants, g)[k] == g
  {
    var k, after := FindGrant(grants, g.group, g.user), Upsert(grants, g);
    assert after[k] == g && forall i :: 0 <= i < k ==> after[i] == grants[i];
    FirstIsFound(after, k, g.group, g.user);
  }

  lemma FindAfterUpsert(grants: seq<Grant>, g: Grant, group: int, user: int)
    requires FindGrant(grants, group, user) < |grants| && (g.group != group || g.user != user)
    ensures FindGrant(Upsert(grants, g), group, user) == FindGrant(grants, group, user)
    ensures Upsert(grants, g)[FindGrant(grants, group, user)] == grants[FindGrant(grants, group, user)]
  {
    var k, after := FindGrant(grants, group, user), Upsert(grants, g);
    assert k < |after| && after[k] == grants[k];
    assert forall i :: 0 <= i < k ==> after[i].group != group || after[i].user != user;
    FirstIsFound(after, k, group, user);
  }

  lemma FirstIsFound(grants: seq<Grant>, k: nat, group: int, user: int)
    requires k < |grants| && grants[k].group == group && grants[k].user == user
    requires forall i :: 0 <= i < k ==> grants[i].group != group || grants[i].user != user
    ensures FindGrant(grants, group, user) == k
  {
    var j := FindGrant(grants, group, user);
    assert j <= k;
  }

  // ----- Deletion

  ghost predicate IsDeleted(t: Tables, group: int, slug: string) {
    0 <= group < |t.groups| && t.groups[group].deleted && t.groups[group].slug == slug
  }

  /** The group's grants are revoked and its codes disabled. */
  ghost predicate Buried(t: Tables, group: int) {
    && (forall i :: 0 <= i < |t.grants| && t.grants[i].group == group ==> t.grants[i].revokedAt != 0)
    && (forall k :: 0 <= k < |t.codes| && t.codes[k].group == group ==> !t.codes[k].enabled)
  }

  lemma DeletionBuries(t: Tables, group: int, at: Time)
    requires 0 <= group < |t.groups|
    ensures Buried(Deleted(t, group, at), group) && IsDeleted(Deleted(t, group, at), group, t.groups[group].slug)
  {
  }

  /** The save of a rename that would go through now: no other row has the slug. */
  ghost predicate FreeSave(t: Tables, task: Task, group: int) {
    task.SaveGroup? && task.group == group && !SlugTaken(t, task.slug, group)
  }

  /** A task that passed its checks while the group was live and would bring it, a grant or a code of it back. */
  ghost predicate Revives(t: Tables, task: Task, group: int) {
    match task
    case SaveGroup(_, _) => FreeSave(t, task, group)
    case UpsertRow(grant) => grant.group == group
    case InsertCode(row) => row.group == group && FindCode(t.codes, row.hash) == |t.codes|
    case ReadCode(g, code, enable) => g == group && enable && 0 <= code < |t.codes| && t.codes[code].group == group
    case SaveCode(_, row, _) => row.group == group && row.enabled
    case _ => false
  }

  ghost predicate NothingPending(s: State, group: int) {
    forall i :: 0 <= i < |s.tasks| ==> !Revives(s.t, s.tasks[i], group)
  }

  ghost predicate NoFreeSave(s: State, group: int) {
    forall i :: 0 <= i < |s.tasks| ==> !FreeSave(s.t, s.tasks[i], group)
  }

  /** No code of the group was added. */
  ghost predicate NoNewCodes(t: Tables, t': Tables, group: int) {
    forall k :: |t.codes| <= k < |t'.codes| ==> t'.codes[k].group != group
  }

  /** The other rows kept their slugs. */
  ghost predicate OthersKeepSlugs(t: Tables, t': Tables, group: int) {
    forall j :: 0 <= j < |t.groups| && j != group ==> j < |t'.groups| && t'.groups[j].slug == t.groups[j].slug
  }

  /** The action saves the rename of another group. */
  ghost predicate RenamesOther(s: State, a: Action, group: int) {
    a.Advance? && a.task < |s.tasks| && s.tasks[a.task].SaveGroup? && s.tasks[a.task].group != group
  }

  ghost predicate LeavesOthers(s: State, actions: seq<Action>, group: int) {
    actions == []
    || (LeavesOthers(s, actions[..|actions| - 1], group)
        && !RenamesOther(Run(s, actions[..|actions| - 1]), actions[|actions| - 1], group))
  }

  /** A save whose slug another row has stays blocked while the other rows keep their slugs. */
  lemma StaysBlocked(t: Tables, t': Tables, task: Task, group: int)
    requires OthersKeepSlugs(t, t', group) && !FreeSave(t, task, group)
    ensures !FreeSave(t', task, group)
  {
    if task.SaveGroup? && task.group == group {
      var i :| 0 <= i < |t.groups| && i != group && t.groups[i].slug == task.slug;
      assert t'.groups[i].slug == task.slug;
    }
  }

  lemma StepKeepsDeleted(s: State, a: Action, group: int, slug: string)
    requires Inv(s) && IsDeleted(s.t, group, slug) && NoFreeSave(s, group) && !RenamesOther(s, a, group)
    ensures IsDeleted(Step(s, a).t, group, slug) && NoFreeSave(Step(s, a), group)
    ensures OthersKeepSlugs(s.t, Step(s, a).t, group)
  {
    var s' := Step(s, a);
    if a.Advance? && a.task < |s.tasks| {
      assert TaskFits(s.t, s.tasks[a.task]) && !FreeSave(s.t, s.tasks[a.task], group);
    }
    assert OthersKeepSlugs(s.t, s'.t, group);
    forall j | 0 <= j < |s.tasks| ensures !FreeSave(s'.t, s.tasks[j], group) {
      StaysBlocked(s.t, s'.t, s.tasks[j], group);
    }
  }

  lemma {:induction false} RunKeepsDeleted(s: State, actions: seq<Action>, group: int, slug: string)
    requires Inv(s) && IsDeleted(s.t, group, slug) && NoFreeSave(s, group) && LeavesOthers(s, actions, group)
    ensures IsDeleted(Run(s, actions).t, group, slug) && NoFreeSave(Run(s, actions), group)
  {
    hide *;
    if actions == [] {
      RunNone(s, actions);
    } else {
      var before := actions[..|actions| - 1];
      LeavesOthersBefore(s, actions, group);
      RunKeepsDeleted(s, before, group, slug);
      RunKeepsInv(s, before);
      StepKeepsDeleted(Run(s, before), actions[|actions| - 1], group, slug);
      RunLast(s, actions);
    }
  }

  lemma RunNone(s: State, actions: seq<Action>)
    requires actions == []
    ensures Run(s, actions) == s
  {
  }

  lemma LeavesOthersBefore(s: State, actions: seq<Action>, group: int)
    requires actions != [] && LeavesOthers(s, actions, group)
    ensures LeavesOthers(s, actions[..|actions| - 1], group)
    ensures !RenamesOther(Run(s, actions[..|actions| - 1]), actions[|actions| - 1], group)
  {
  }

  // What the other tasks may do to a deleted group.

  lemma StaysHarmless(t: Tables, t': Tables, task: Task, group: int)
    requires Grows(t, t') && NoNewCodes(t, t', group) && !Revives(t, task, group) && !FreeSave(t', task, group)
    ensures !Revives(t', task, group)
  {
  }

  lemma WriteKeepsBuried(t: Tables, task: Task, group: int)
    requires TablesInv(t) && TaskFits(t, task) && Buried(t, group) && 0 <= group < |t.groups| && !Revives(t, task, group)
    ensures Buried(Write(t, task), group) && NoNewCodes(t, Write(t, task), group)
  {
  }

  lemma RedeemKeepsBuried(t: Tables, k: nat, user: int, now: int, group: int)
    requires Buried(t, group) && Redeemable(t, k, now)
    ensures Buried(Redeemed(t, k, user), group) && NoNewCodes(t, Redeemed(t, k, user), group)
  {
  }

  lemma TablesKeepBuried(s: State, a: Action, group: int)
    requires Inv(s) && 0 <= group < |s.t.groups| && Buried(s.t, group) && NothingPending(s, group)
    ensures Buried(Step(s, a).t, group) && NoNewCodes(s.t, Step(s, a).t, group)
  {
    match a {
      case Begin(_) =>
      case Advance(i) =>
        if i < |s.tasks| {
          WriteKeepsBuried(s.t, s.tasks[i], group);
        }
      case Redeem(hash, user, at) =>
        if Creates(s.t, hash, user, at) {
          RedeemKeepsBuried(s.t, FindCode(s.t.codes, hash), user, at, group);
        }
    }
  }

  /** A new task of a request, or what remains of one, revives nothing of a deleted group. */
  lemma NewTaskIsHarmless(s: State, a: Action, i: nat, group: int, slug: string)
    requires Inv(s) && IsDeleted(s.t, group, slug) && NothingPending(s, group)
    requires i < |Step(s, a).tasks| && (i < |s.tasks| ==> Step(s, a).tasks[i] != s.tasks[i])
    ensures !Revives(Step(s, a).t, Step(s, a).tasks[i], group)
  {
    if a.Advance? {
      assert !Revives(s.t, s.tasks[i], group);
    }
  }

  lemma StepKeepsBuried(s: State, a: Action, group: int, slug: string)
    requires Inv(s) && IsDeleted(s.t, group, slug) && Buried(s.t, group) && NothingPending(s, group)
    requires NoFreeSave(Step(s, a), group)
    ensures Buried(Step(s, a).t, group) && NothingPending(Step(s, a), group)
  {
    var s' := Step(s, a);
    TablesKeepBuried(s, a, group);
    StepKeepsInv(s, a);
    forall j | 0 <= j < |s'.tasks| ensures !Revives(s'.t, s'.tasks[j], group) {
      assert !FreeSave(s'.t, s'.tasks[j], group);
      if j < |s.tasks| && s'.tasks[j] == s.tasks[j] {
        StaysHarmless(s.t, s'.t, s.tasks[j], group);
      } else {
        NewTaskIsHarmless(s, a, j, group, slug);
      }
    }
  }

  lemma NothingPendingMeans(s: State, group: int)
    requires NothingPending(s, group)
    ensures NoFreeSave(s, group)
  {
    forall i | 0 <= i < |s.tasks| ensures !FreeSave(s.t, s.tasks[i], group) {
      assert !Revives(s.t, s.tasks[i], group);
    }
  }

  lemma {:induction false} RunKeepsBuried(s: State, actions: seq<Action>, group: int, slug: string)
    requires Inv(s) && IsDeleted(s.t, group, slug) && Buried(s.t, group) && NothingPending(s, group)
    requires LeavesOthers(s, actions, group)
    ensures Buried(Run(s, actions).t, group) && NothingPending(Run(s, actions), group)
  {
    hide *;
    if actions == [] {
      RunNone(s, actions);
    } else {
      var before, a := actions[..|actions| - 1], actions[|actions| - 1];
      LeavesOthersBefore(s, actions, group);
      RunKeepsBuried(s, before, group, slug);
      RunKeepsInv(s, before);
      NothingPendingMeans(s, group);
      RunKeepsDeleted(s, before, group, slug);
      StepKeepsDeleted(Run(s, before), a, group, slug);
      StepKeepsBuried(Run(s, before), a, group, slug);
      RunLast(s, actions);
    }
  }

  /** A pending task that revives does so in its remaining steps, a saved rename with one admin grant after it. */
  lemma PendingRevives(s: State, i: nat, group: int) returns (actions: seq<Action>)
    requires Inv(s) && 0 <= group < |s.t.groups| && i < |s.tasks| && Revives(s.t, s.tasks[i], group)
    ensures LeavesOthers(s, actions, group) && !Buried(Run(s, actions).t, group)
  {
    var task, s1 := s.tasks[i], Step(s, Advance(i));
    assert TaskFits(s.t, task);
    if task.SaveGroup? {
      actions := SaveRevives(s, i, group);
    } else {
      actions := [Advance(i)];
      RunOne(s, Advance(i));
      LeavesOthersMore(s, [], Advance(i), group);
      match task {
        case UpsertRow(grant) => assert s1.t.grants[FindGrant(s.t.grants, grant.group, grant.user)] == grant;
        case InsertCode(row) => assert s1.t.codes[|s.t.codes|] == row;
        case SaveCode(code, row, _) => assert s1.t.codes[code] == row;
        case ReadCode(_, code, _) =>
          LeavesOthersMore(s, [Advance(i)], Advance(i), group);
          RunMore(s, [Advance(i)], Advance(i));
          actions := [Advance(i)] + [Advance(i)];
          assert Run(s, actions).t.codes[code].enabled;
      }
    }
  }

  lemma RunMore(s: State, actions: seq<Action>, a: Action)
    ensures Run(s, actions + [a]) == Step(Run(s, actions), a)
  {
    FrontOfAppend(actions, a);
  }

  lemma LeavesOthersMore(s: State, actions: seq<Action>, a: Action, group: int)
    requires LeavesOthers(s, actions, group) && !RenamesOther(Run(s, actions), a, group)
    ensures LeavesOthers(s, actions + [a], group)
  {
    FrontOfAppend(actions, a);
  }

  /** The save of a rename makes a deleted group live again, and an admin can then let anybody in. */
  lemma SaveRevives(s: State, i: nat, group: int) returns (actions: seq<Action>)
    requires Inv(s) && 0 <= group < |s.t.groups| && i < |s.tasks| && FreeSave(s.t, s.tasks[i], group)
    ensures LeavesOthers(s, actions, group) && !Buried(Run(s, actions).t, group)
    ensures CanUse(Run(s, actions).t, 1, group, 1)
  {
    var n, ask := |s.tasks|, Begin(AdminGrant(1, 1, group, 0, 1));
    var s1 := Step(s, Advance(i));
    var s2 := Step(s1, ask);
    SavedIsLive(s, i, group);
    GrantLetsIn(s1, group);
    LeavesNobody(s, group);
    hide *;
    RunOne(s, Advance(i));
    LeavesOthersMore(s, [], Advance(i), group);
    RunMore(s, [Advance(i)], ask);
    LeavesOthersMore(s, [Advance(i)], ask, group);
    RunMore(s, [Advance(i)] + [ask], Advance(n));
    LeavesOthersMore(s, [Advance(i)] + [ask], Advance(n), group);
    assert [] + [Advance(i)] == [Advance(i)];
    actions := [Advance(i)] + [ask] + [Advance(n)];
  }

  lemma LeavesNobody(s: State, group: int)
    ensures LeavesOthers(s, [], group) && Run(s, []) == s
  {
  }

  lemma SavedIsLive(s: State, i: nat, group: int)
    requires 0 <= group < |s.t.groups| && i < |s.tasks| && FreeSave(s.t, s.tasks[i], group)
    ensures !RenamesOther(s, Advance(i), group)
    ensures var s1 := Step(s, Advance(i)); Live(s1.t, group) && |s1.tasks| == |s.tasks|
  {
  }

  lemma GrantLetsIn(s: State, group: int)
    requires Live(s.t, group)
    ensures var n, ask := |s.tasks|, Begin(AdminGrant(1, 1, group, 0, 1));
      var s3 := Step(Step(s, ask), Advance(n));
      && !RenamesOther(s, ask, group) && !RenamesOther(Step(s, ask), Advance(n), group)
      && !Buried(s3.t, group) && CanUse(s3.t, 1, group, 1)
  {
    var n, row := |s.tasks|, Grant(group, 1, Member, FromAdmin(1), 1, 0, 0);
    var s2 := Step(s, Begin(AdminGrant(1, 1, group, 0, 1)));
    assert s2.tasks[n] == UpsertRow(row);
    var s3 := Step(s2, Advance(n));
    FoundAfterUpsert(s.t.grants, row);
    assert s3.t.grants == Upsert(s.t.grants, row) && Live(s3.t, group);
    assert s3.t.grants[FindGrant(s3.t.grants, group, 1)] == row;
  }

  /**
   * After a deletion the group's grants stay revoked and its codes disabled, in every continuation that saves no rename
   * of another group, exactly when nothing that passed its checks before is still waiting to bring the row, a grant or
   * a code back.
   */
  lemma DeletionIsAbsorbingExactlyWhen(s: State, group: int, slug: string)
    requires Inv(s) && IsDeleted(s.t, group, slug) && Buried(s.t, group)
    ensures (forall actions :: LeavesOthers(s, actions, group) ==> Buried(Run(s, actions).t, group))
       <==> NothingPending(s, group)
  {
    if NothingPending(s, group) {
      forall actions | LeavesOthers(s, actions, group) ensures Buried(Run(s, actions).t, group) {
        RunKeepsBuried(s, actions, group, slug);
      }
    } else {
      var i :| 0 <= i < |s.tasks| && Revives(s.t, s.tasks[i], group);
      var actions := PendingRevives(s, i, group);
    }
  }

  // ----- Who can use a deleted group

  /** The private part of the groups a user may use. */
  function UserPrivateGroups(t: Tables, user: int, now: int): set<string> {
    set i | 0 <= i < |t.grants| && t.grants[i].user == user && Active(t.grants[i], now) && Live(t, t.grants[i].group)
      :: t.groups[t.grants[i].group].slug
  }

  /** All usable groups: public system groups, the user's own system group, and for a real user the private ones. */
  function UsableGroups(t: Tables, user: int, userGroup: string, system: map<string, bool>, now: int): set<string> {
    (set s | s in system && (system[s] || s == userGroup)) + if user <= 0 then {} else UserPrivateGroups(t, user, now)
  }

  ghost predicate HasAccess(t: Tables, user: int, group: int, now: int) {
    exists i :: 0 <= i < |t.grants| && t.grants[i].group == group && t.grants[i].user == user && Active(t.grants[i], now)
  }

  /** The user may use the group, under whatever slug it has. */
  ghost predicate CanUse(t: Tables, user: int, group: int, now: int) {
    Live(t, group) && HasAccess(t, user, group, now)
  }

  /** That is: the group's slug is listed for the user. */
  lemma CanUseIsListed(t: Tables, user: int, group: int, now: int)
    requires TablesInv(t) && 0 <= group < |t.groups|
    ensures CanUse(t, user, group, now) <==> t.groups[group].slug in UserPrivateGroups(t, user, now)
  {
    if t.groups[group].slug in UserPrivateGroups(t, user, now) {
      var i :| 0 <= i < |t.grants| && t.grants[i].user == user && Active(t.grants[i], now) && Live(t, t.grants[i].group)
        && t.groups[t.grants[i].group].slug == t.groups[group].slug;
      assert t.grants[i].group == group;
    }
  }

  /**
   * Nobody can use a deleted group, in every continuation that saves no rename of another group, exactly when no rename
   * of it that was checked before the deletion is waiting to be saved under a slug that no other row has.
   */
  lemma DeletedIsUnusableExactlyWhen(s: State, group: int, slug: string)
    requires Inv(s) && IsDeleted(s.t, group, slug)
    ensures (forall actions, user, now :: LeavesOthers(s, actions, group) ==> !CanUse(Run(s, actions).t, user, group, now))
       <==> NoFreeSave(s, group)
  {
    if NoFreeSave(s, group) {
      forall actions, user, now | LeavesOthers(s, actions, group) ensures !CanUse(Run(s, actions).t, user, group, now) {
        RunKeepsDeleted(s, actions, group, slug);
      }
    } else {
      var i :| 0 <= i < |s.tasks| && FreeSave(s.t, s.tasks[i], group);
      var actions := SaveRevives(s, i, group);
    }
  }

  // ----- Renames of other groups too

  /** Deleted rows of which every waiting save needs a slug that another of them has. */
  ghost predicate Frozen(s: State, rows: set<int>) {
    && (forall r :: r in rows ==> 0 <= r < |s.t.groups| && s.t.groups[r].deleted)
    && (forall i :: 0 <= i < |s.tasks| ==> FrozenTask(s.t, s.tasks[i], rows))
  }

  ghost predicate FrozenTask(t: Tables, task: Task, rows: set<int>) {
    task.SaveGroup? && task.group in rows ==> exists h :: h in rows && h != task.group && 0 <= h < |t.groups| && t.groups[h].slug == task.slug
  }

  ghost predicate RowsKept(t: Tables, t': Tables, rows: set<int>) {
    forall r :: r in rows && 0 <= r < |t.groups| ==> r < |t'.groups| && t'.groups[r] == t.groups[r]
  }

  lemma StaysFrozen(t: Tables, t': Tables, task: Task, rows: set<int>)
    requires RowsKept(t, t', rows) && FrozenTask(t, task, rows)
    ensures FrozenTask(t', task, rows)
  {
    if task.SaveGroup? && task.group in rows {
      var h :| h in rows && h != task.group && 0 <= h < |t.groups| && t.groups[h].slug == task.slug;
      assert t'.groups[h].slug == task.slug;
    }
  }

  lemma WriteKeepsRows(t: Tables, task: Task, rows: set<int>)
    requires TaskFits(t, task) && FrozenTask(t, task, rows)
    requires forall r :: r in rows ==> 0 <= r < |t.groups| && t.groups[r].deleted
    ensures RowsKept(t, Write(t, task), rows)
  {
  }

  lemma StepKeepsFrozen(s: State, a: Action, rows: set<int>)
    requires Inv(s) && Frozen(s, rows)
    ensures Frozen(Step(s, a), rows) && RowsKept(s.t, Step(s, a).t, rows)
  {
    var s' := Step(s, a);
    if a.Advance? && a.task < |s.tasks| {
      WriteKeepsRows(s.t, s.tasks[a.task], rows);
    }
    assert RowsKept(s.t, s'.t, rows);
    forall j | 0 <= j < |s.tasks| ensures FrozenTask(s'.t, s.tasks[j], rows) {
      StaysFrozen(s.t, s'.t, s.tasks[j], rows);
    }
  }

  lemma {:induction false} RunKeepsFrozen(s: State, actions: seq<Action>, rows: set<int>)
    requires Inv(s) && Frozen(s, rows)
    ensures Frozen(Run(s, actions), rows) && RowsKept(s.t, Run(s, actions).t, rows)
  {
    if actions != [] {
      var before := actions[..|actions| - 1];
      RunKeepsFrozen(s, before, rows);
      RunKeepsInv(s, before);
      StepKeepsFrozen(Run(s, before), actions[|actions| - 1], rows);
    }
  }

  /**
   * Whatever other groups do: a deleted group without a waiting save, or whose waiting saves need slugs of deleted
   * groups in the same position, is never live again, and its slug is usable only where the system groups offer it.
   */
  lemma DeletedIsNeverUsable(s: State, actions: seq<Action>, rows: set<int>, group: int)
    requires Inv(s) && Frozen(s, rows) && group in rows
    ensures var t', slug := Run(s, actions).t, s.t.groups[group].slug;
      && IsDeleted(t', group, slug)
      && (forall user, now :: slug !in UserPrivateGroups(t', user, now))
      && (forall user, userGroup, system: map<string, bool>, now ::
            slug in UsableGroups(t', user, userGroup, system, now)
            <==> slug in system && (system[slug] || slug == userGroup))
  {
    RunKeepsFrozen(s, actions, rows);
    RunKeepsInv(s, actions);
    forall user, now ensures s.t.groups[group].slug !in UserPrivateGroups(Run(s, actions).t, user, now) {
      CanUseIsListed(Run(s, actions).t, user, group, now);
    }
  }

  /** The same for its grants and codes, if nothing else of it is waiting. */
  lemma {:induction false} DeletionIsAbsorbing(s: State, actions: seq<Action>, rows: set<int>, group: int)
    requires Inv(s) && Frozen(s, rows) && group in rows && Buried(s.t, group) && NothingPending(s, group)
    ensures Buried(Run(s, actions).t, group) && NothingPending(Run(s, actions), group)
  {
    if actions != [] {
      var before, a := actions[..|actions| - 1], actions[|actions| - 1];
      DeletionIsAbsorbing(s, before, rows, group);
      RunKeepsInv(s, before);
      RunKeepsFrozen(s, before, rows);
      StepKeepsFrozen(Run(s, before), a, rows);
      FrozenIsNotFree(Run(s, actions), rows, group);
      StepKeepsBuried(Run(s, before), a, group, s.t.groups[group].slug);
    }
  }

  lemma FrozenIsNotFree(s: State, rows: set<int>, group: int)
    requires Frozen(s, rows) && group in rows
    ensures NoFreeSave(s, group)
  {
    forall i | 0 <= i < |s.tasks| ensures !FreeSave(s.t, s.tasks[i], group) {
      assert FrozenTask(s.t, s.tasks[i], rows);
    }
  }

  /** A save blocked by a live group goes through once that group is renamed, so the deleted group comes back after all. */
  lemma BlockedSaveGoesThrough(s: State, i: nat, group: int, holder: int, spare: string)
    returns (actions: seq<Action>)
    requires Inv(s) && i < |s.tasks| && s.tasks[i].SaveGroup? && s.tasks[i].group == group
    requires Live(s.t, holder) && holder != group && s.t.groups[holder].slug == s.tasks[i].slug
    requires WellFormed(spare) && !SlugTaken(s.t, spare, -1)
    ensures Live(Run(s, actions).t, group)
  {
    var n, ask := |s.tasks|, Begin(Rename(0, holder, spare, true, {}, false));
    var s1 := Step(s, ask);
    var s2 := Step(s1, Advance(n));
    assert !SlugTaken(s.t, spare, holder) && !SlugExists(s.t, spare);
    assert s1.tasks[n] == SaveGroup(holder, spare) && s1.tasks[i] == s.tasks[i];
    assert s2.t.groups[holder].slug == spare && s2.tasks[i] == s.tasks[i];
    assert TaskFits(s.t, s.tasks[i]);
    assert !SlugTaken(s2.t, s.tasks[i].slug, group);
    RunOne(s, ask);
    RunMore(s, [ask], Advance(n));
    RunMore(s, [ask] + [Advance(n)], Advance(i));
    actions := [ask] + [Advance(n)] + [Advance(i)];
  }

  // ----- The owner's access

  /** The owner's row is an owner's row, not revoked and without an end. */
  ghost predicate OwnerHolds(t: Tables, group: int) {
    && Live(t, group)
    && var k := FindGrant(t.grants, group, t.groups[group].owner);
       k < |t.grants| && t.grants[k].role == Owner && t.grants[k].revokedAt == 0 && t.grants[k].expiresAt == 0
  }

  /** The action asks neither for the group's deletion nor for a membership of its owner. */
  ghost predicate Harmless(a: Action, group: int, owner: int) {
    a.Begin? ==> !(a.r.Delete? && a.r.group == group) && !(a.r.AdminGrant? && a.r.group == group && a.r.user == owner)
  }

  /** A task that deletes the group or makes its owner a member. */
  ghost predicate Harms(task: Task, group: int, owner: int) {
    match task
    case DeleteRows(g, _) => g == group
    case UpsertRow(grant) => grant.group == group && grant.user == owner
    case _ => false
  }

  ghost predicate OwnerSafe(s: State, group: int) {
    && OwnerHolds(s.t, group)
    && forall i :: 0 <= i < |s.tasks| ==> !Harms(s.tasks[i], group, s.t.groups[group].owner)
  }

  lemma WriteKeepsOwner(t: Tables, task: Task, group: int)
    requires TablesInv(t) && TaskFits(t, task) && OwnerHolds(t, group) && !Harms(task, group, t.groups[group].owner)
    ensures OwnerHolds(Write(t, task), group)
  {
    var owner, t' := t.groups[group].owner, Write(t, task);
    WriteKeepsInv(t, task);
    SameFind(t.grants, t'.grants, group, owner);
    match task
    case InsertGroup(o, slug) =>
      if !SlugTaken(t, slug, -1) {
        FindAfterUpsert(t.grants, Grant(|t.groups|, o, Owner, FromCreate(|t.groups|), o, 0, 0), group, owner);
      }
    case UpsertRow(grant) => FindAfterUpsert(t.grants, grant, group, owner);
    case _ =>
  }

  lemma RedeemKeepsOwner(t: Tables, hash: string, user: int, now: int, group: int)
    requires TablesInv(t) && OwnerHolds(t, group) && Creates(t, hash, user, now)
    ensures OwnerHolds(Redeemed(t, FindCode(t.codes, hash), user), group)
  {
    var k := FindCode(t.codes, hash);
    var g := Grant(t.codes[k].group, user, Member, FromInvite(k), t.codes[k].createdBy, 0, 0);
    FindAfterUpsert(t.grants, g, group, t.groups[group].owner);
  }

  lemma StepKeepsOwner(s: State, a: Action, group: int)
    requires Inv(s) && OwnerSafe(s, group) && Harmless(a, group, s.t.groups[group].owner)
    ensures OwnerSafe(Step(s, a), group) && Step(s, a).t.groups[group].owner == s.t.groups[group].owner
  {
    StepKeepsInv(s, a);
    match a {
      case Begin(_) =>
      case Advance(i) =>
        if i < |s.tasks| {
          WriteKeepsOwner(s.t, s.tasks[i], group);
        }
      case Redeem(hash, user, at) =>
        if Creates(s.t, hash, user, at) {
          RedeemKeepsOwner(s.t, hash, user, at, group);
        }
    }
  }

  ghost predicate AllHarmless(actions: seq<Action>, group: int, owner: int) {
    forall i :: 0 <= i < |actions| ==> Harmless(actions[i], group, owner)
  }

  lemma {:induction false} RunKeepsOwner(s: State, actions: seq<Action>, group: int)
    requires Inv(s) && OwnerSafe(s, group) && AllHarmless(actions, group, s.t.groups[group].owner)
    ensures OwnerSafe(Run(s, actions), group) && Run(s, actions).t.groups[group].owner == s.t.groups[group].owner
  {
    if actions != [] {
      var before := actions[..|actions| - 1];
      RunKeepsOwner(s, before, group);
      RunKeepsInv(s, before);
      StepKeepsOwner(Run(s, before), actions[|actions| - 1], group);
    }
  }

  lemma CreationGivesOwner(t: Tables, owner: int, slug: string)
    requires TablesInv(t) && !SlugTaken(t, slug, -1)
    ensures OwnerHolds(Write(t, InsertGroup(owner, slug)), |t.groups|)
  {
    var g := Grant(|t.groups|, owner, Owner, FromCreate(|t.groups|), owner, 0, 0);
    var k := FindGrant(t.grants, |t.groups|, owner);
    assert k == |t.grants|;
    var grants := t.grants + [g];
    assert grants[k] == g && FindGrant(grants, |t.groups|, owner) == k;
  }

  /** An owner who no longer holds an owner's row can be shut out without deleting the group or granting again. */
  lemma ShutOut(s: State, group: int) returns (actions: seq<Action>, now: int)
    requires Inv(s) && Live(s.t, group) && !OwnerHolds(s.t, group)
    ensures AllHarmless(actions, group, s.t.groups[group].owner)
    ensures !HasAccess(Run(s, actions).t, s.t.groups[group].owner, group, now)
  {
    var owner, n := s.t.groups[group].owner, |s.tasks|;
    var k := FindGrant(s.t.grants, group, owner);
    actions, now := [], if k < |s.t.grants| then s.t.grants[k].expiresAt + 1 else 0;
    if k < |s.t.grants| && s.t.grants[k].revokedAt == 0 && s.t.grants[k].role == Member {
      var ask := Begin(Revoke(0, group, owner, true, 1));
      var s1 := Step(s, ask);
      var s2 := Step(s1, Advance(n));
      assert s1.tasks[n] == ReadGrant(group, owner, 1) && s2.tasks[n] == RevokeRow(group, owner, 1);
      actions := [ask] + [Advance(n)] + [Advance(n)];
      assert AllHarmless(actions, group, owner) && !HasAccess(Step(s2, Advance(n)).t, owner, group, now);
      hide *;
      RunOne(s, ask);
      RunMore(s, [ask], Advance(n));
      RunMore(s, [ask] + [Advance(n)], Advance(n));
    }
  }

  /** A pending deletion of the group or membership of its owner takes effect and leaves the owner to be shut out. */
  lemma PendingShutsOut(s: State, i: nat, group: int) returns (actions: seq<Action>, now: int)
    requires Inv(s) && OwnerHolds(s.t, group) && i < |s.tasks| && Harms(s.tasks[i], group, s.t.groups[group].owner)
    ensures AllHarmless(actions, group, s.t.groups[group].owner)
    ensures !HasAccess(Run(s, actions).t, s.t.groups[group].owner, group, now)
  {
    var s1 := Step(s, Advance(i));
    RunOne(s, Advance(i));
    StepKeepsInv(s, Advance(i));
    if s.tasks[i].DeleteRows? {
      actions, now := [Advance(i)], 0;
      DeletionBuries(s.t, group, s.tasks[i].at);
    } else {
      MembershipDemotesOwner(s.t, s.tasks[i].grant);
      var more;
      more, now := ShutOut(s1, group);
      RunConcat(s, [Advance(i)], more);
      actions := [Advance(i)] + more;
    }
  }

  /** An admin grant to the owner makes the owner's row a member's row, so the owner holds it no longer. */
  lemma MembershipDemotesOwner(t: Tables, g: Grant)
    requires TablesInv(t) && Live(t, g.group) && g.user == t.groups[g.group].owner && g.role == Member
    ensures !OwnerHolds(Write(t, UpsertRow(g)), g.group)
  {
    var k := FindGrant(t.grants, g.group, g.user);
    UpsertKeepsUnique(t.grants, g);
    assert Upsert(t.grants, g)[k] == g;
  }

  /**
   * The owner keeps access in every continuation in which nobody asks for the group's deletion or for a membership of
   * the owner, exactly when the owner's row is still an owner's row, not revoked and without an end, and no such
   * request is waiting to be written.
   */
  lemma OwnerKeepsAccessExactlyWhen(s: State, group: int)
    requires Inv(s) && Live(s.t, group)
    ensures OwnerSafe(s, group) <==>
      forall actions, now :: AllHarmless(actions, group, s.t.groups[group].owner) ==>
        HasAccess(Run(s, actions).t, s.t.groups[group].owner, group, now)
  {
    var owner := s.t.groups[group].owner;
    if OwnerSafe(s, group) {
      forall actions, now | AllHarmless(actions, group, owner) ensures HasAccess(Run(s, actions).t, owner, group, now) {
        RunKeepsOwner(s, actions, group);
        var k := FindGrant(Run(s, actions).t.grants, group, owner);
        assert Active(Run(s, actions).t.grants[k], now);
      }
    } else if !OwnerHolds(s.t, group) {
      var actions, now := ShutOut(s, group);
    } else {
      var i :| 0 <= i < |s.tasks| && Harms(s.tasks[i], group, owner);
      var actions, now := PendingShutsOut(s, i, group);
    }
  }
}
