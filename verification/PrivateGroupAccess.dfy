/**
 * Who may do what with a private group (service/private_group.go, model/private_group.go): requests of others than its
 * owner and admins change nothing, and those of the owner and admins have their effect.
 */
module PrivateGroupAccess {
  import opened Basics
  import opened PrivateGroup

  // ----- Others change nothing

  /** The request manages a given group: all but creations and admin grants. */
  predicate Manages(r: Request, group: int) {
    !r.Create? && !r.AdminGrant? && r.group == group
  }

  /** An admin asks, or the user with the owner's id. */
  predicate Entitled(r: Request, owner: int)
    requires !r.Create? && !r.AdminGrant?
  {
    r.admin || (r.actor > 0 && r.actor == owner)
  }

  /** Nobody entitled asks for something about the group. */
  ghost predicate Uninvited(a: Action, group: int, owner: int) {
    a.Begin? && Manages(a.r, group) ==> !Entitled(a.r, owner)
  }

  /** The task of a request that manages the group. */
  predicate ManagesTask(task: Task, group: int) {
    match task
    case SaveGroup(g, _) => g == group
    case DeleteRows(g, _) => g == group
    case InsertCode(row) => row.group == group
    case ReadCode(g, _, _) => g == group
    case SaveCode(_, row, _) => row.group == group
    case ReadGrant(g, _, _) => g == group
    case RevokeRow(g, _, _) => g == group
    case _ => false
  }

  ghost predicate Unmanaged(s: State, group: int) {
    && 0 <= group < |s.t.groups|
    && forall i :: 0 <= i < |s.tasks| ==> !ManagesTask(s.tasks[i], group)
  }

  /** The row is as it was, and no code of the group was added. */
  ghost predicate RowKept(t: Tables, t': Tables, group: int) {
    && 0 <= group < |t.groups| && group < |t'.groups| && t'.groups[group] == t.groups[group]
    && |t.codes| <= |t'.codes| && NoNewCodes(t, t', group)
  }

  lemma {:induction false} PrepareIsUnmanaged(t: Tables, r: Request, group: int)
    requires 0 <= group < |t.groups| && (Manages(r, group) ==> !Entitled(r, t.groups[group].owner))
    ensures !ManagesTask(Prepare(t, r), group)
  {
  }

  lemma {:induction false} RestIsUnmanaged(t: Tables, task: Task, redemptions: nat, group: int)
    requires !ManagesTask(task, group)
    ensures !ManagesTask(Rest(t, task, redemptions), group)
  {
  }

  lemma {:induction false} WriteKeepsRow(t: Tables, task: Task, group: int)
    requires TablesInv(t) && TaskFits(t, task) && 0 <= group < |t.groups| && !ManagesTask(task, group)
    ensures RowKept(t, Write(t, task), group)
  {
  }

  lemma {:induction false} StepKeepsRow(s: State, a: Action, group: int)
    requires Inv(s) && Unmanaged(s, group) && Uninvited(a, group, s.t.groups[group].owner)
    ensures RowKept(s.t, Step(s, a).t, group) && Unmanaged(Step(s, a), group)
  {
    match a {
      case Begin(r) => PrepareIsUnmanaged(s.t, r, group);
      case Advance(i) =>
        if i < |s.tasks| {
          WriteKeepsRow(s.t, s.tasks[i], group);
          RestIsUnmanaged(s.t, s.tasks[i], |s.redeemed|, group);
        }
      case Redeem(_, _, _) =>
    }
    hide Prepare, Write, Rest, Creates, Redeemable, ManagesTask, Inv;
  }

  ghost predicate AllUninvited(actions: seq<Action>, group: int, owner: int) {
    forall i :: 0 <= i < |actions| ==> Uninvited(actions[i], group, owner)
  }

  lemma {:induction false} RowKeptThen(a: Tables, b: Tables, c: Tables, group: int)
    requires RowKept(a, b, group) && RowKept(b, c, group) && Grows(b, c)
    ensures RowKept(a, c, group)
  {
    forall k | |a.codes| <= k < |c.codes| ensures c.codes[k].group != group {
      if k < |b.codes| {
        assert b.codes[k].group != group && SameCode(b.codes[k], c.codes[k]);
      }
    }
  }

  /**
   * With nothing about the group waiting, any run in which nobody entitled asks for anything about it leaves its row and
   * slug as they are and adds no code.
   */
  lemma {:induction false} OthersLeaveGroup(s: State, actions: seq<Action>, group: int)
    requires Inv(s) && Unmanaged(s, group) && AllUninvited(actions, group, s.t.groups[group].owner)
    ensures RowKept(s.t, Run(s, actions).t, group) && Unmanaged(Run(s, actions), group)
  {
    if actions != [] {
      var before, a := actions[..|actions| - 1], actions[|actions| - 1];
      OthersLeaveGroup(s, before, group);
      RunKeepsInv(s, before);
      StepKeepsRow(Run(s, before), a, group);
      StepKeepsInv(Run(s, before), a);
      RunLast(s, actions);
      hide *;
      RowKeptThen(s.t, Run(s, before).t, Run(s, actions).t, group);
    } else {
      RunNone(s, actions);
    }
  }

  // ----- Nor its grants and codes, but for redemptions and admin grants

  /** The group's grants and codes are as they were, and none were added. */
  ghost predicate MembersKept(t: Tables, t': Tables, group: int) {
    && |t.grants| <= |t'.grants| && |t.codes| <= |t'.codes|
    && (forall i :: 0 <= i < |t'.grants| && t'.grants[i].group == group ==> i < |t.grants| && t'.grants[i] == t.grants[i])
    && (forall i :: 0 <= i < |t.grants| && t.grants[i].group == group ==> t'.grants[i] == t.grants[i])
    && (forall k :: 0 <= k < |t'.codes| && t'.codes[k].group == group ==> k < |t.codes| && t'.codes[k] == t.codes[k])
    && (forall k :: 0 <= k < |t.codes| && t.codes[k].group == group ==> t'.codes[k] == t.codes[k])
  }

  predicate GrantsTask(task: Task, group: int) {
    task.UpsertRow? && task.grant.group == group
  }

  ghost predicate NoGrantWaits(s: State, group: int) {
    forall i :: 0 <= i < |s.tasks| ==> !GrantsTask(s.tasks[i], group)
  }

  /** The action neither redeems a code of the group, as the codes are in `t`, nor grants access to it. */
  ghost predicate LetsNobodyIn(a: Action, t: Tables, group: int) {
    && (a.Redeem? ==> forall k :: 0 <= k < |t.codes| && t.codes[k].group == group ==> t.codes[k].hash != a.hash)
    && !(a.Begin? && a.r.AdminGrant? && a.r.group == group)
  }

  lemma {:induction false} WriteKeepsMembers(t: Tables, task: Task, group: int)
    requires TablesInv(t) && TaskFits(t, task) && 0 <= group < |t.groups|
    requires !ManagesTask(task, group) && !GrantsTask(task, group)
    ensures MembersKept(t, Write(t, task), group)
  {
  }

  lemma {:induction false} RedeemKeepsMembers(t: Tables, hash: string, user: int, now: int, group: int)
    requires Creates(t, hash, user, now)
    requires forall k :: 0 <= k < |t.codes| && t.codes[k].group == group ==> t.codes[k].hash != hash
    ensures MembersKept(t, Redeemed(t, FindCode(t.codes, hash), user), group)
  {
  }

  lemma {:induction false} PrepareGrantsNobody(t: Tables, r: Request, group: int)
    requires !(r.AdminGrant? && r.group == group)
    ensures !GrantsTask(Prepare(t, r), group)
  {
  }

  lemma {:induction false} StepKeepsMembers(s: State, a: Action, group: int)
    requires Inv(s) && Unmanaged(s, group) && NoGrantWaits(s, group)
    requires Uninvited(a, group, s.t.groups[group].owner) && LetsNobodyIn(a, s.t, group)
    ensures MembersKept(s.t, Step(s, a).t, group) && NoGrantWaits(Step(s, a), group)
  {
    match a {
      case Begin(r) => PrepareGrantsNobody(s.t, r, group);
      case Advance(i) =>
        if i < |s.tasks| {
          WriteKeepsMembers(s.t, s.tasks[i], group);
        }
      case Redeem(hash, user, at) =>
        if Creates(s.t, hash, user, at) {
          RedeemKeepsMembers(s.t, hash, user, at, group);
        }
    }
    hide Prepare, Write, Redeemed, Creates, ManagesTask, Inv;
  }

  lemma {:induction false} MembersKeptThen(a: Tables, b: Tables, c: Tables, group: int)
    requires MembersKept(a, b, group) && MembersKept(b, c, group)
    ensures MembersKept(a, c, group)
  {
  }

  lemma {:induction false} StillLetsNobodyIn(a: Action, t: Tables, t': Tables, group: int)
    requires LetsNobodyIn(a, t, group) && MembersKept(t, t', group)
    ensures LetsNobodyIn(a, t', group)
  {
  }

  /**
   * Without redemptions of its codes and admin grants to it, the group's grants and codes stay too, so nobody's access
   * to it changes.
   */
  lemma {:induction false} OthersLeaveMembers(s: State, actions: seq<Action>, group: int)
    requires Inv(s) && Unmanaged(s, group) && NoGrantWaits(s, group)
    requires AllUninvited(actions, group, s.t.groups[group].owner)
    requires forall i :: 0 <= i < |actions| ==> LetsNobodyIn(actions[i], s.t, group)
    ensures MembersKept(s.t, Run(s, actions).t, group) && NoGrantWaits(Run(s, actions), group)
    ensures forall user, now :: CanUse(Run(s, actions).t, user, group, now) <==> CanUse(s.t, user, group, now)
  {
    if actions != [] {
      var before, a := actions[..|actions| - 1], actions[|actions| - 1];
      OthersLeaveMembers(s, before, group);
      OthersLeaveGroup(s, before, group);
      RunKeepsInv(s, before);
      StillLetsNobodyIn(a, s.t, Run(s, before).t, group);
      StepKeepsMembers(Run(s, before), a, group);
      RunLast(s, actions);
      MembersKeptThen(s.t, Run(s, before).t, Run(s, actions).t, group);
    } else {
      RunNone(s, actions);
    }
    OthersLeaveGroup(s, actions, group);
    SameAccess(s.t, Run(s, actions).t, group);
  }

  lemma {:induction false} SameAccess(t: Tables, t': Tables, group: int)
    requires RowKept(t, t', group) && MembersKept(t, t', group)
    ensures forall user, now :: CanUse(t', user, group, now) <==> CanUse(t, user, group, now)
  {
  }

  // ----- What the owner or an admin asks for happens

  /** The group is live, and an admin or its owner asks. */
  predicate MayAsk(s: State, group: int, actor: int, admin: bool) {
    && 0 <= group < |s.t.groups| && !s.t.groups[group].deleted
    && (admin || (actor > 0 && actor == s.t.groups[group].owner))
  }

  /** A task waits until it is advanced, whatever happens in between. */
  lemma {:induction false} TaskWaits(s: State, actions: seq<Action>, n: nat)
    requires n < |s.tasks| && forall i :: 0 <= i < |actions| ==> actions[i] != Advance(n)
    ensures n < |Run(s, actions).tasks| && Run(s, actions).tasks[n] == s.tasks[n]
  {
    if actions != [] {
      TaskWaits(s, actions[..|actions| - 1], n);
      hide Prepare, Write, Rest, Creates;
    }
  }

  /** A request to delete a live, unreferenced group deletes it, whatever happens before it is written. */
  lemma {:induction false} DeleteTakesEffect(
    s: State, group: int, actor: int, admin: bool, at: Time, actions: seq<Action>)
    requires Inv(s) && MayAsk(s, group, actor, admin)
    requires forall i :: 0 <= i < |actions| ==> actions[i] != Advance(|s.tasks|)
    ensures var ask := Begin(Delete(actor, group, admin, false, at));
      var t := Step(Run(Step(s, ask), actions), Advance(|s.tasks|)).t;
      Buried(t, group) && group < |t.groups| && t.groups[group].deleted
  {
    var n, ask := |s.tasks|, Begin(Delete(actor, group, admin, false, at));
    var s1 := Step(s, ask);
    assert s1.tasks[n] == DeleteRows(group, at);
    StepKeepsInv(s, ask);
    TaskWaits(s1, actions, n);
    RunKeepsInv(s1, actions);
    var s2 := Run(s1, actions);
    assert TaskFits(s2.t, s2.tasks[n]);
    DeletionBuries(s2.t, group, at);
  }

  /** A request to rename a live, unreferenced group to a free, well-formed slug renames it. */
  lemma {:induction false} RenameTakesEffect(
    s: State, group: int, actor: int, admin: bool, slug: string, system: set<string>)
    requires MayAsk(s, group, actor, admin)
    requires WellFormed(slug) && slug !in system && forall i :: 0 <= i < |s.t.groups| ==> s.t.groups[i].slug != slug
    ensures var s' := Step(Step(s, Begin(Rename(actor, group, slug, admin, system, false))), Advance(|s.tasks|));
      s'.t == s.t.(groups := s.t.groups[group := Group(s.t.groups[group].owner, slug, false)])
  {
    var n := |s.tasks|;
    var s1 := Step(s, Begin(Rename(actor, group, slug, admin, system, false)));
    assert s1.tasks[n] == SaveGroup(group, slug) && !SlugTaken(s1.t, slug, group);
  }

  /** A group of a free, well-formed slug is created with its owner in it for good. */
  lemma {:induction false} CreateTakesEffect(s: State, owner: int, slug: string, system: set<string>)
    requires WellFormed(slug) && slug !in system && forall i :: 0 <= i < |s.t.groups| ==> s.t.groups[i].slug != slug
    ensures var s', group := Step(Step(s, Begin(Create(owner, slug, system))), Advance(|s.tasks|)), |s.t.groups|;
      && s'.t.groups == s.t.groups + [Group(owner, slug, false)] && s'.t.codes == s.t.codes
      && forall now :: CanUse(s'.t, owner, group, now)
  {
    var n, group := |s.tasks|, |s.t.groups|;
    var s1 := Step(s, Begin(Create(owner, slug, system)));
    assert s1.tasks[n] == InsertGroup(owner, slug) && !SlugTaken(s1.t, slug, -1);
    var g := Grant(group, owner, Owner, FromCreate(group), owner, 0, 0);
    FoundAfterUpsert(s.t.grants, g);
    var t := Created(s.t, owner, slug);
    assert t.grants[FindGrant(t.grants, group, owner)] == g;
  }

  /**
   * A request is refused if it would rename or delete a referenced group, take the slug of a system group or create one
   * with that of a live group, make a code without uses, let a code or a grant end in the past, or is about a group that
   * is not live.
   */
  predicate Refused(t: Tables, r: Request) {
    match r
    case Create(_, slug, system) =>
      slug in system || exists i :: 0 <= i < |t.groups| && !t.groups[i].deleted && t.groups[i].slug == slug
    case Rename(_, group, slug, _, system, referenced) => referenced || slug in system || IsGone(t, group)
    case Delete(_, group, _, referenced, _) => referenced || IsGone(t, group)
    case CreateCode(_, group, _, maxUses, expiresAt, _, at) =>
      maxUses <= 0 || (expiresAt != 0 && expiresAt < at) || IsGone(t, group)
    case AdminGrant(_, _, group, expiresAt, at) => (expiresAt != 0 && expiresAt < at) || IsGone(t, group)
    case _ => IsGone(t, r.group)
  }

  predicate IsGone(t: Tables, group: int) {
    group < 0 || group >= |t.groups| || t.groups[group].deleted
  }

  /** A refused request writes nothing, however often and however late its task is advanced. */
  lemma {:induction false} RefusedWritesNothing(s: State, r: Request, actions: seq<Action>)
    requires Refused(s.t, r)
    ensures var n := |s.tasks|;
      var s' := Run(Step(s, Begin(r)), actions);
      n < |s'.tasks| && s'.tasks[n] == Done && Step(s', Advance(n)) == s'
  {
    var n, s1 := |s.tasks|, Step(s, Begin(r));
    assert s1.tasks[n] == Done;
    DoneStays(s1, actions, n);
    var s' := Run(s1, actions);
    assert s'.tasks[n := Done] == s'.tasks;
  }

  lemma {:induction false} DoneStays(s: State, actions: seq<Action>, n: nat)
    requires n < |s.tasks| && s.tasks[n] == Done
    ensures n < |Run(s, actions).tasks| && Run(s, actions).tasks[n] == Done
  {
    if actions != [] {
      DoneStays(s, actions[..|actions| - 1], n);
      hide Prepare, Write, Creates;
    }
  }

  /** Lower-case letters, digits and the dash, by code point. */
  predicate IsSlugCode(code: int) {
    97 <= code < 97 + 26 || 48 <= code < 48 + 10 || code == 45
  }

  /** A slug has 3 to 64 lower-case letters, digits and dashes, and is not one of the two reserved words. */
  lemma {:induction false} SlugShape(slug: string)
    ensures WellFormed(slug)
       <==> (&& 2 < |slug| < 65 && slug != "auto" && slug != "default"
             && forall i :: 0 <= i < |slug| ==> IsSlugCode(slug[i] as int))
  {
    forall i | 0 <= i < |slug| ensures IsSlugCode(slug[i] as int) <==> SlugChar(slug[i]) {
    }
    hide IsSlugCode, SlugChar;
  }

  /** A code works: a user who is not in the group and redeems it in time can use the group from then on. */
  lemma {:induction false} CodeLetsIn(
    s: State, group: int, actor: int, admin: bool, hash: string, maxUses: int, expiresAt: int, at: Time, user: int,
    joins: Time)
    requires Inv(s) && MayAsk(s, group, actor, admin)
    requires maxUses > 0 && (expiresAt == 0 || (at <= expiresAt && joins <= expiresAt))
    requires forall k :: 0 <= k < |s.t.codes| ==> s.t.codes[k].hash != hash
    requires user > 0 && !HasAccess(s.t, user, group, joins)
    ensures var ask := Begin(CreateCode(actor, group, hash, maxUses, expiresAt, admin, at));
      var s1 := Step(Step(s, ask), Advance(|s.tasks|));
      var s2 := Step(s1, Redeem(hash, user, joins));
      && s1.t.codes == s.t.codes + [Code(group, hash, actor, true, maxUses, 0, expiresAt)]
      && s2.redeemed == s.redeemed + [|s.t.codes|]
      && forall now :: CanUse(s2.t, user, group, now)
  {
    var n, k := |s.tasks|, |s.t.codes|;
    var row := Code(group, hash, actor, true, maxUses, 0, expiresAt);
    var s0 := Step(s, Begin(CreateCode(actor, group, hash, maxUses, expiresAt, admin, at)));
    assert s0.tasks[n] == InsertCode(row) && FindCode(s.t.codes, hash) == k;
    var s1 := Step(s0, Advance(n));
    FindsLast(s.t.codes, row);
    assert s1.t.codes == s.t.codes + [row] && s1.t.codes[k] == row;
    NotIn(s.t, group, user, joins);
    assert Creates(s1.t, hash, user, joins);
    RedeemLetsIn(s1.t, k, user, joins);
  }

  lemma {:induction false} FindsLast(codes: seq<Code>, row: Code)
    requires forall k :: 0 <= k < |codes| ==> codes[k].hash != row.hash
    ensures FindCode(codes + [row], row.hash) == |codes|
  {
    var all := codes + [row];
    assert all[|codes|].hash == row.hash;
    assert forall k :: 0 <= k < |codes| ==> all[k].hash != row.hash;
  }

  lemma {:induction false} NotIn(t: Tables, group: int, user: int, now: int)
    requires UniqueGrants(t.grants)
    ensures AlreadyIn(t, group, user, now) <==> HasAccess(t, user, group, now)
  {
    var k := FindGrant(t.grants, group, user);
    if HasAccess(t, user, group, now) {
      var i :| 0 <= i < |t.grants| && t.grants[i].group == group && t.grants[i].user == user && Active(t.grants[i], now);
      assert k <= i;
    }
  }

  lemma {:induction false} RedeemLetsIn(t: Tables, k: nat, user: int, now: int)
    requires Redeemable(t, k, now)
    ensures forall later :: CanUse(Redeemed(t, k, user), user, t.codes[k].group, later)
  {
    var c := t.codes[k];
    var g := Grant(c.group, user, Member, FromInvite(k), c.createdBy, 0, 0);
    FoundAfterUpsert(t.grants, g);
    var t' := Redeemed(t, k, user);
    assert t'.grants[FindGrant(t'.grants, c.group, user)] == g;
  }

  /**
   * A redemption creates a grant exactly when the code is enabled, in time, not used up and of a live group, and the
   * user has no grant for that group that is neither revoked nor past its end; otherwise it changes nothing.
   */
  lemma {:induction false} RedeemsExactlyWhen(s: State, k: nat, user: int, at: Time)
    requires Inv(s) && k < |s.t.codes| && forall j :: 0 <= j < k ==> s.t.codes[j].hash != s.t.codes[k].hash
    ensures var c, s' := s.t.codes[k], Step(s, Redeem(s.t.codes[k].hash, user, at));
      && (s' != s <==>
            && user > 0 && c.enabled && (c.expiresAt == 0 || at <= c.expiresAt) && c.used < c.maxUses
            && !s.t.groups[c.group].deleted
            && !(exists i :: 0 <= i < |s.t.grants| && HoldsNow(s.t.grants[i], c.group, user, at)))
      && (s' != s ==>
            && s'.redeemed == s.redeemed + [k]
            && s'.t.codes == s.t.codes[k := c.(used := c.used + 1, enabled := c.used + 1 < c.maxUses)]
            && Grant(c.group, user, Member, FromInvite(k), c.createdBy, 0, 0) in s'.t.grants)
  {
    var c := s.t.codes[k];
    assert FindCode(s.t.codes, c.hash) == k;
    CreatesExactlyWhen(s.t, k, user, at);
    RedeemedRow(s.t, k, user);
    assert InBudget(c);
    hide Inv, Creates, Redeemed;
    assert |s.redeemed + [k]| != |s.redeemed|;
  }

  lemma {:induction false} CreatesExactlyWhen(t: Tables, k: nat, user: int, now: int)
    requires TablesInv(t) && k < |t.codes| && FindCode(t.codes, t.codes[k].hash) == k
    ensures var c := t.codes[k];
      Creates(t, c.hash, user, now)
      <==> (&& user > 0 && c.enabled && (c.expiresAt == 0 || now <= c.expiresAt) && c.used < c.maxUses
            && !t.groups[c.group].deleted
            && !(exists i :: 0 <= i < |t.grants| && HoldsNow(t.grants[i], c.group, user, now)))
  {
    var c := t.codes[k];
    assert InBudget(c) && UniqueGrants(t.grants) && 0 <= c.group < |t.groups|;
    hide TablesInv, FindCode;
    NotIn(t, c.group, user, now);
    assert HasAccess(t, user, c.group, now)
      <==> exists i :: 0 <= i < |t.grants| && HoldsNow(t.grants[i], c.group, user, now);
  }

  lemma {:induction false} RedeemedRow(t: Tables, k: nat, user: int)
    requires k < |t.codes|
    ensures var c, t' := t.codes[k], Redeemed(t, k, user);
      && t'.codes == t.codes[k := Use(c)]
      && Grant(c.group, user, Member, FromInvite(k), c.createdBy, 0, 0) in t'.grants
  {
    var c := t.codes[k];
    var g := Grant(c.group, user, Member, FromInvite(k), c.createdBy, 0, 0);
    FoundAfterUpsert(t.grants, g);
    assert g in Upsert(t.grants, g);
  }

  /** The grant is the user's for the group, not revoked, and not past its end. */
  predicate HoldsNow(g: Grant, group: int, user: int, now: int) {
    g.group == group && g.user == user && g.revokedAt == 0 && (g.expiresAt == 0 || now <= g.expiresAt)
  }

  /** An admin's grant lets the user in exactly up to its end. */
  lemma {:induction false} AdminLetsIn(s: State, actor: int, user: int, group: int, expiresAt: int, at: Time, now: int)
    requires Inv(s) && 0 <= group < |s.t.groups| && !s.t.groups[group].deleted && (expiresAt == 0 || at <= expiresAt)
    ensures var s' := Step(Step(s, Begin(AdminGrant(actor, user, group, expiresAt, at))), Advance(|s.tasks|));
      && (CanUse(s'.t, user, group, now) <==> expiresAt == 0 || now <= expiresAt)
      && Grant(group, user, Member, FromAdmin(actor), actor, expiresAt, 0) in s'.t.grants
  {
    var ask, n := Begin(AdminGrant(actor, user, group, expiresAt, at)), |s.tasks|;
    var g := Grant(group, user, Member, FromAdmin(actor), actor, expiresAt, 0);
    var s1 := Step(s, ask);
    assert s1.tasks[n] == UpsertRow(g);
    var s2 := Step(s1, Advance(n));
    StepKeepsInv(s, ask);
    StepKeepsInv(s1, Advance(n));
    FoundAfterUpsert(s.t.grants, g);
    assert s2.t.grants == Upsert(s.t.grants, g) && s2.t.grants[FindGrant(s2.t.grants, group, user)] == g;
    NotIn(s2.t, group, user, now);
  }

  /** Revoking a member's row shuts the member out at every time; an owner's row is not revoked that way. */
  lemma {:induction false} RevokeTakesEffect(
    s: State, group: int, actor: int, admin: bool, user: int, at: Time, i: nat, now: int)
    requires Inv(s) && MayAsk(s, group, actor, admin)
    requires i < |s.t.grants| && s.t.grants[i].group == group && s.t.grants[i].user == user
    ensures var n := |s.tasks|;
      var s1 := Step(Step(s, Begin(Revoke(actor, group, user, admin, at))), Advance(n));
      var s2 := Step(s1, Advance(n));
      && (s.t.grants[i].role == Member ==> !CanUse(s2.t, user, group, now))
      && (s.t.grants[i].role == Owner ==> s2.t == s.t)
  {
    var n := |s.tasks|;
    assert UniqueGrants(s.t.grants);
    hide Inv;
    FoundByItsPair(s.t.grants, i);
    var s1 := Step(Step(s, Begin(Revoke(actor, group, user, admin, at))), Advance(n));
    assert s1.t == s.t;
    var row, s2 := s.t.grants[i], Step(s1, Advance(n));
    if row.role == Member && row.revokedAt == 0 {
      assert s1.tasks[n] == RevokeRow(group, user, at);
      assert s2.t.grants == s.t.grants[i := row.(revokedAt := at)];
    } else {
      assert s1.tasks[n] == Done && s2.t == s.t;
    }
  }

  lemma {:induction false} FoundByItsPair(grants: seq<Grant>, i: nat)
    requires UniqueGrants(grants) && i < |grants|
    ensures FindGrant(grants, grants[i].group, grants[i].user) == i
  {
    FirstIsFound(grants, i, grants[i].group, grants[i].user);
  }

  /** A status change sets the status of the group's code and nothing else; for a code of another group, nothing at all. */
  lemma {:induction false} StatusTakesEffect(
    s: State, group: int, actor: int, admin: bool, code: nat, enable: bool)
    requires MayAsk(s, group, actor, admin) && code < |s.t.codes|
    ensures var n := |s.tasks|;
      var s1 := Step(Step(s, Begin(SetCodeStatus(actor, group, code, enable, admin))), Advance(n));
      var t := Step(s1, Advance(n)).t;
      if s.t.codes[code].group == group
      then t == s.t.(codes := s.t.codes[code := s.t.codes[code].(enabled := enable)]) else t == s.t
  {
    var n := |s.tasks|;
    var s0 := Step(s, Begin(SetCodeStatus(actor, group, code, enable, admin)));
    assert s0.tasks[n] == ReadCode(group, code, enable);
    var s1 := Step(s0, Advance(n));
    assert s1.t == s.t;
    if s.t.codes[code].group == group {
      assert s1.tasks[n] == SaveCode(code, s.t.codes[code].(enabled := enable), |s.redeemed|);
    }
  }
}
