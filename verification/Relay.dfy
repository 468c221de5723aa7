/**
 * The retry loop of a relayed request (relay/main.go, relay/common.go): choosing a channel through the primary and the
 * backup group, the growing skip list, and when the loop stops. Other requests may change the chooser between attempts.
 */
module Relay {
  import opened Basics
  import opened ChannelIndex
  import opened Channels

  const TOO_MANY_REQUESTS := 429
  const ANTHROPIC := 14
  const BEDROCK := 32

  datatype ApiError = ApiError(status: int, local: bool, message: string, param: string)

  /** What one attempt came back with; `done` ends the loop. */
  datatype Reply = Success | Failure(error: ApiError, done: bool)

  datatype Answer = Answered | NoProvider | Failed(error: ApiError) | TimedOut

  /** What the code reads from outside, by attempt: replies, the clock, model mapping (None: it fails), lookups. */
  datatype World = World(
    reply: nat -> Reply, late: nat -> bool, clock: nat -> int, mapped: nat -> Option<string>,
    channelById: int -> Option<Channel>, hasRatio: string -> bool)

  predicate Contains(text: string, part: string) {
    part <= text || (text != "" && Contains(text[1..], part))
  }

  predicate ShouldRetryBadRequest(kind: int, e: ApiError) {
    if kind == ANTHROPIC then Contains(e.message, "Your credit balance is too low")
    else if kind == BEDROCK then Contains(e.message, "Operation not allowed")
    else e.param == "INVALID_ARGUMENT" && Contains(e.message, "API key not valid")
  }

  predicate ShouldRetry(pinned: bool, e: ApiError, kind: int) {
    if e.local || pinned then false
    else if e.status == TOO_MANY_REQUESTS || e.status == 307 then true
    else if e.status == 408 || e.status == 504 || e.status == 524 then false
    else if e.status == 400 then ShouldRetryBadRequest(kind, e)
    else e.status / 100 != 2
  }

  /** The part stands in the text at position k. */
  ghost predicate StandsAt(text: string, part: string, k: int) {
    0 <= k <= |text| - |part| && text[k..k + |part|] == part
  }

  ghost predicate Says(text: string, part: string) {
    exists k :: StandsAt(text, part, k)
  }

  lemma {:induction false} ContainsIs(text: string, part: string)
    ensures Contains(text, part) <==> Says(text, part)
  {
    if part <= text {
      assert StandsAt(text, part, 0);
    } else if text != "" {
      ContainsIs(text[1..], part);
      forall k | StandsAt(text[1..], part, k) ensures StandsAt(text, part, k + 1) {
        assert text[1..][k..k + |part|] == text[k + 1..k + 1 + |part|];
      }
      forall k | StandsAt(text, part, k) ensures StandsAt(text[1..], part, k - 1) {
        assert k > 0;
        assert text[1..][k - 1..k - 1 + |part|] == text[k..k + |part|];
      }
    }
  }

  /** A remote failure that the service may answer differently elsewhere, by its status alone. */
  predicate Passing(reply: Reply) {
    && reply.Failure? && !reply.done && !reply.error.local
    && var status := reply.error.status;
       status != 400 && status != 408 && status != 504 && status != 524 && !(200 <= status < 300)
  }

  /** A bad request that is the channel's fault: no credit, not allowed, or a bad key, depending on the provider. */
  ghost predicate ChannelsFault(reply: Reply, kind: int) {
    && reply.Failure? && !reply.done && !reply.error.local && reply.error.status == 400
    && (kind == 14 ==> Says(reply.error.message, "Your credit balance is too low"))
    && (kind == 32 ==> Says(reply.error.message, "Operation not allowed"))
    && (kind != 14 && kind != 32 ==>
          reply.error.param == "INVALID_ARGUMENT" && Says(reply.error.message, "API key not valid"))
  }

  /** An unpinned request goes on exactly after such failures, a pinned one never. */
  lemma GoesOnExactlyWhen(pinned: bool, reply: Reply, kind: int)
    ensures GoesOn(pinned, reply, kind) <==> !pinned && (Passing(reply) || ChannelsFault(reply, kind))
  {
    if reply.Failure? {
      var m := reply.error.message;
      ContainsIs(m, "Your credit balance is too low");
      ContainsIs(m, "Operation not allowed");
      ContainsIs(m, "API key not valid");
      assert reply.error.status / 100 == 2 <==> 200 <= reply.error.status < 300;
    }
    hide Contains, Says;
  }

  /** Rate limits, redirects, most server errors and refused credentials are passing failures. */
  lemma PassingStatuses(e: ApiError, kind: int)
    requires !e.local
    ensures e.status == 429 || e.status == 307 || e.status == 401 || e.status == 403 ==> Passing(Reply.Failure(e, false))
    ensures 500 <= e.status < 600 && e.status != 504 && e.status != 524 ==> Passing(Reply.Failure(e, false))
    ensures e.status == 408 || e.status == 504 || e.status == 524 || 200 <= e.status < 300 ==>
      !Passing(Reply.Failure(e, false)) && !ChannelsFault(Reply.Failure(e, false), kind)
  {
  }

  /** The attempt failed in a way that lets the loop go on. */
  predicate GoesOn(pinned: bool, reply: Reply, kind: int) {
    reply.Failure? && !reply.done && ShouldRetry(pinned, reply.error, kind)
  }

  function Again(pinned: bool): (Reply, int) -> bool {
    (reply: Reply, kind: int) => GoesOn(pinned, reply, kind)
  }

  /** Some tier of the group's model has an eligible channel. */
  ghost predicate Serves(chooser: ChannelsChooser, group: string, sc: Scene)
    reads chooser
  {
    && group in chooser.rule && chooser.Lookup(group, sc.model).Some?
    && var tiers := chooser.Lookup(group, sc.model).value;
       exists i :: 0 <= i < |tiers| && !NoneEligible(sc, tiers[i])
  }

  /** The group's tiers have the channel in the first tier with an eligible one. */
  ghost predicate Offers(chooser: ChannelsChooser, group: string, sc: Scene, c: Channel)
    reads chooser
  {
    && group in chooser.rule && chooser.Lookup(group, sc.model).Some?
    && InFirstTier(sc, chooser.Lookup(group, sc.model).value, c)
  }

  ghost predicate InFirstTier(sc: Scene, tiers: Tiers, c: Channel) {
    exists i :: 0 <= i < |tiers| && c.id in tiers[i] && forall k :: 0 <= k < i ==> NoneEligible(sc, tiers[k])
  }

  /** The request context: the values the relay code keeps in it. */
  class RelayContext {
    const specificChannelId: int
    const ignoreSpecific: bool
    const skipOnlyChat: bool
    const isStream: bool
    const allowTypes: Option<seq<int>>
    const primaryGroup: string
    const backupGroup: string
    var skipChannelIds: Option<seq<int>>
    var isBackupGroup: bool
    var newModel: string

    constructor (specificChannelId: int, ignoreSpecific: bool, skipOnlyChat: bool, isStream: bool,
                 allowTypes: Option<seq<int>>, primaryGroup: string, backupGroup: string, skip: Option<seq<int>>)
      ensures this.specificChannelId == specificChannelId && this.ignoreSpecific == ignoreSpecific
      ensures this.skipOnlyChat == skipOnlyChat && this.isStream == isStream && this.allowTypes == allowTypes
      ensures this.primaryGroup == primaryGroup && this.backupGroup == backupGroup
      ensures skipChannelIds == skip && !isBackupGroup && newModel == ""
    {
      this.specificChannelId, this.ignoreSpecific := specificChannelId, ignoreSpecific;
      this.skipOnlyChat, this.isStream, this.allowTypes := skipOnlyChat, isStream, allowTypes;
      this.primaryGroup, this.backupGroup := primaryGroup, backupGroup;
      skipChannelIds, isBackupGroup, newModel := skip, false, "";
    }

    /** The request names its channel, so it is looked up by id and never retried. */
    predicate Pinned() {
      specificChannelId > 0 && !ignoreSpecific
    }

    function Skip(): seq<int>
      reads this`skipChannelIds
    {
      if skipChannelIds.Some? then skipChannelIds.value else []
    }

    function Filters(model: string): seq<Filter>
      reads this`skipChannelIds
    {
      (if skipOnlyChat then [FilterOnlyChat()] else [])
      + (if skipChannelIds.Some? then [FilterChannelId(skipChannelIds.value)] else [])
      + (if allowTypes.Some? then [FilterChannelTypes(allowTypes.value)] else [])
      + (if isStream then [FilterDisabledStream(model)] else [])
    }

    function SceneFor(chooser: ChannelsChooser, model: string, now: int): Scene
      reads this`skipChannelIds, chooser
    {
      Scene(chooser.channels, chooser.cooldowns, model, Filters(model), now)
    }

    /** An eligible channel is not in the skip list. */
    lemma EligibleIsNotSkipped(chooser: ChannelsChooser, model: string, now: int, id: int)
      requires Eligible(SceneFor(chooser, model, now), id)
      ensures id !in Skip()
    {
      if skipChannelIds.Some? {
        var filters, i := Filters(model), if skipOnlyChat then 1 else 0;
        assert filters[i] == FilterChannelId(skipChannelIds.value);
        assert !filters[i](id, chooser.channels[id]);
      }
    }

    /** The filters pass exactly what the request allows: not only-chat, not skipped, of an allowed type, streaming. */
    lemma FiltersMean(model: string, id: int, choice: Choice)
      ensures Skipped(Filters(model), id, choice) <==>
        || (skipOnlyChat && choice.channel.onlyChat)
        || (skipChannelIds.Some? && id in skipChannelIds.value)
        || (allowTypes.Some? && choice.channel.kind !in allowTypes.value)
        || (isStream && model in choice.channel.disabledStream)
    {
      var filters, chat := Filters(model), if skipOnlyChat then 1 else 0;
      var skip := if skipChannelIds.Some? then chat + 1 else chat;
      var types := if allowTypes.Some? then skip + 1 else skip;
      assert skipOnlyChat ==> filters[0] == FilterOnlyChat();
      assert skipChannelIds.Some? ==> filters[chat] == FilterChannelId(skipChannelIds.value);
      assert allowTypes.Some? ==> filters[skip] == FilterChannelTypes(allowTypes.value);
      assert isStream ==> filters[types] == FilterDisabledStream(model);
      assert |filters| == if isStream then types + 1 else types;
    }

    /** One group: the chooser's `Next`, with the filters of this request. */
    method TryGroup(chooser: ChannelsChooser, group: string, model: string, now: int) returns (r: Option<Channel>)
      requires chooser.Valid()
      ensures r.Some? <==> Serves(chooser, group, SceneFor(chooser, model, now))
      ensures r.Some? ==>
        IsEligible(SceneFor(chooser, model, now), r.value) && Offers(chooser, group, SceneFor(chooser, model, now), r.value)
    {
      ghost var sc := SceneFor(chooser, model, now);
      var found := chooser.Next(group, model, Filters(model), now);
      if group in chooser.rule && chooser.Lookup(group, model).Some? {
        ChosenIsEligible(sc, chooser.Lookup(group, model).value, found);
      }
      r := if found.Chosen? then Some(found.channel) else None;
    }

    /**
     * The primary group, then the backup group. A channel is found exactly when the primary group serves, or a
     * different backup group serves and has a ratio; the backup mark is set as soon as the backup group serves.
     */
    method TryWithGroups(chooser: ChannelsChooser, model: string, now: int, hasRatio: string -> bool)
      returns (r: Option<Channel>)
      requires chooser.Valid()
      modifies this`isBackupGroup
      ensures var sc := SceneFor(chooser, model, now);
        && (r.Some? ==> IsEligible(sc, r.value))
        && (r.Some? <==> UsesPrimary(chooser, sc) || (UsesBackup(chooser, sc) && hasRatio(backupGroup)))
        && isBackupGroup == (old(isBackupGroup) || UsesBackup(chooser, sc))
      ensures var sc := SceneFor(chooser, model, now);
        if primaryGroup != "" && Serves(chooser, primaryGroup, sc) then
          r.Some? && Offers(chooser, primaryGroup, sc, r.value) && isBackupGroup == old(isBackupGroup)
        else if backupGroup != "" && backupGroup != primaryGroup && Serves(chooser, backupGroup, sc) && hasRatio(backupGroup)
        then r.Some? && Offers(chooser, backupGroup, sc, r.value) && isBackupGroup
        else r.None?
    {
      if primaryGroup != "" {
        r := TryGroup(chooser, primaryGroup, model, now);
        if r.Some? {
          return;
        }
      }
      if backupGroup != "" && backupGroup != primaryGroup {
        r := TryGroup(chooser, backupGroup, model, now);
        if r.Some? {
          isBackupGroup := true;
          if !hasRatio(backupGroup) {
            return None;
          }
          return;
        }
      }
      return None;
    }

    ghost predicate UsesPrimary(chooser: ChannelsChooser, sc: Scene)
      reads chooser
    {
      primaryGroup != "" && Serves(chooser, primaryGroup, sc)
    }

    ghost predicate UsesBackup(chooser: ChannelsChooser, sc: Scene)
      reads chooser
    {
      !UsesPrimary(chooser, sc) && backupGroup != "" && backupGroup != primaryGroup && Serves(chooser, backupGroup, sc)
    }

    /** The channel is offered by the primary group, or by the backup group if the primary serves nothing. */
    ghost predicate FromItsGroups(chooser: ChannelsChooser, sc: Scene, c: Channel)
      reads chooser
    {
      || (primaryGroup != "" && Offers(chooser, primaryGroup, sc, c))
      || (backupGroup != "" && Offers(chooser, backupGroup, sc, c) && (primaryGroup != "" ==> !Serves(chooser, primaryGroup, sc)))
    }

    /** Attempt k can have no provider: mapping fails, or the named channel is unknown, or no group yields a channel. */
    ghost predicate NothingLeft(chooser: ChannelsChooser, model: string, k: nat, w: World)
      reads this`skipChannelIds, chooser
    {
      || w.mapped(k).None?
      || if Pinned() then w.channelById(specificChannelId).None?
         else
           var sc := SceneFor(chooser, model, w.clock(k));
           !UsesPrimary(chooser, sc) && !(UsesBackup(chooser, sc) && w.hasRatio(backupGroup))
    }

    /** Chooses the channel of attempt k and maps the model; None leaves no provider. */
    method SetProvider(chooser: ChannelsChooser, model: string, k: nat, w: World) returns (r: Option<Channel>)
      requires chooser.Valid()
      modifies this`isBackupGroup, this`newModel
      ensures r.Some? && !Pinned() ==> IsEligible(SceneFor(chooser, model, w.clock(k)), r.value)
      ensures r.Some? && !Pinned() ==> FromItsGroups(chooser, SceneFor(chooser, model, w.clock(k)), r.value)
      ensures r.Some? && specificChannelId > 0 && !ignoreSpecific ==> r == w.channelById(specificChannelId)
      ensures r.None? <==> NothingLeft(chooser, model, k, w)
      ensures r.Some? ==> w.mapped(k) == Some(newModel)
    {
      if Pinned() {
        r := w.channelById(specificChannelId);
      } else {
        r := TryWithGroups(chooser, model, w.clock(k), w.hasRatio);
      }
      if r.Some? {
        if w.mapped(k).None? {
          return None;
        }
        newModel := w.mapped(k).value;
      }
    }

    /** Before a retry: a rate-limited channel cools down under the mapped model, and the channel is skipped from now on. */
    method ShouldCooldowns(chooser: ChannelsChooser, channel: Channel, error: ApiError, now: int, seconds: int)
      modifies this`skipChannelIds, chooser`cooldowns
      ensures skipChannelIds == Some(old(Skip()) + [channel.id])
      ensures chooser.cooldowns ==
        if error.status == 429 then AfterCooldown(old(chooser.cooldowns), channel.id, newModel, now, seconds)
        else old(chooser.cooldowns)
    {
      if error.status == TOO_MANY_REQUESTS {
        var _ := chooser.SetCooldowns(channel.id, newModel, now, seconds);
      }
      skipChannelIds := Some(Skip() + [channel.id]);
    }
  }

  ghost predicate IsEligible(sc: Scene, c: Channel) {
    Eligible(sc, c.id) && sc.channels[c.id].channel == c
  }

  /** What other requests and the reload ticker do to the chooser; callers know only that it stays valid. */
  method Interfere(chooser: ChannelsChooser)
    requires chooser.Valid()
    modifies chooser
    ensures chooser.Valid()
  {
    if * {
      var rows: seq<Channel> := *;
      chooser.Load(rows);
    }
    if * {
      var id: int, enable: bool := *, *;
      chooser.ChangeStatus(id, enable);
    }
    if * {
      var now: int := *;
      chooser.CleanupExpiredCooldowns(now);
    }
  }

  // ----- The loop

  function Ids(sent: seq<Channel>): seq<int> {
    if sent == [] then [] else Ids(sent[..|sent| - 1]) + [sent[|sent| - 1].id]
  }

  ghost predicate Distinct(sent: seq<Channel>) {
    forall i, j :: 0 <= i < j < |sent| ==> sent[i].id != sent[j].id
  }

  /** No channel twice, none skipped from the start, and each eligible where and when it was chosen. */
  ghost predicate Tried(sent: seq<Channel>, scenes: seq<Scene>, skip: seq<int>) {
    && Distinct(sent) && |scenes| == |sent|
    && forall i :: 0 <= i < |sent| ==> IsEligible(scenes[i], sent[i]) && sent[i].id !in skip
  }

  /** Every attempt but the last failed in a way that allows a retry. */
  ghost predicate EachGoesOn(again: (Reply, int) -> bool, sent: seq<Channel>, reply: nat -> Reply) {
    forall i :: 0 <= i < |sent| - 1 ==> again(reply(i), sent[i].kind)
  }

  /** The last attempt failed in a way that allows a retry, and the budget is not used up. */
  ghost predicate WantsMore(again: (Reply, int) -> bool, sent: seq<Channel>, reply: nat -> Reply, retryTimes: int) {
    sent != [] && again(reply(|sent| - 1), sent[|sent| - 1].kind) && |sent| < 1 + Max0(retryTimes)
  }

  function Max0(n: int): nat {
    if n > 0 then n else 0
  }

  lemma {:induction false} IdIsListed(sent: seq<Channel>, i: nat)
    requires i < |sent|
    ensures sent[i].id in Ids(sent)
  {
    if i < |sent| - 1 {
      IdIsListed(sent[..|sent| - 1], i);
    }
  }

  lemma IsNew(sent: seq<Channel>, scenes: seq<Scene>, skip: seq<int>, channel: Channel, sc: Scene)
    requires Tried(sent, scenes, skip) && IsEligible(sc, channel) && channel.id !in skip + Ids(sent)
    ensures Tried(sent + [channel], scenes + [sc], skip)
  {
    forall i | 0 <= i < |sent| ensures sent[i].id != channel.id {
      IdIsListed(sent, i);
    }
  }

  lemma GoesOnExtends(again: (Reply, int) -> bool, sent: seq<Channel>, reply: nat -> Reply, channel: Channel)
    requires sent != [] && EachGoesOn(again, sent, reply) && again(reply(|sent| - 1), sent[|sent| - 1].kind)
    ensures EachGoesOn(again, sent + [channel], reply)
  {
    var more := sent + [channel];
    forall i | 0 <= i < |more| - 1 ensures again(reply(i), more[i].kind) {
      assert more[i] == sent[i];
    }
  }

  lemma {:induction false} SkipGrows(skip: seq<int>, sent: seq<Channel>)
    requires sent != []
    ensures (skip + Ids(sent[..|sent| - 1])) + [sent[|sent| - 1].id] == skip + Ids(sent)
  {
    var ids, last := Ids(sent[..|sent| - 1]), [sent[|sent| - 1].id];
    Assoc(skip, ids, last);
  }

  /** The next attempt of an unpinned request, others having run in between. */
  method Retry(ctx: RelayContext, chooser: ChannelsChooser, model: string, w: World,
               sent: seq<Channel>, ghost scenes: seq<Scene>, ghost skip: seq<int>)
    returns (chosen: Option<Channel>, ghost sc: Scene)
    requires chooser.Valid() && !ctx.Pinned() && ctx.Skip() == skip + Ids(sent) && Tried(sent, scenes, skip)
    modifies ctx`isBackupGroup, ctx`newModel, chooser
    ensures chooser.Valid()
    ensures chosen.None? <==> ctx.NothingLeft(chooser, model, |sent|, w)
    ensures chosen.Some? ==> Tried(sent + [chosen.value], scenes + [sc], skip)
  {
    Interfere(chooser);
    sc := ctx.SceneFor(chooser, model, w.clock(|sent|));
    chosen := ctx.SetProvider(chooser, model, |sent|, w);
    if chosen.Some? {
      ctx.EligibleIsNotSkipped(chooser, model, w.clock(|sent|), chosen.value.id);
      IsNew(sent, scenes, skip, chosen.value, sc);
    }
  }

  /**
   * The answer fits the attempts. Each attempt follows a retryable failure; the answer is the last reply's, except that
   * a request that wants another attempt times out when it is late.
   */
  ghost predicate Fits(r: Answer, again: (Reply, int) -> bool, sent: seq<Channel>, w: World, retryTimes: int) {
    && |sent| <= 1 + Max0(retryTimes) && EachGoesOn(again, sent, w.reply)
    && (r == NoProvider <==> sent == [])
    && (r == Answered <==> sent != [] && w.reply(|sent| - 1).Success?)
    && (r == TimedOut <==> WantsMore(again, sent, w.reply, retryTimes) && w.late(|sent|))
    && (r.Failed? ==> w.reply(|sent| - 1).Failure? && r == Failed(w.reply(|sent| - 1).error))
  }

  /** The loop after a first attempt that allows a retry. */
  method RetryLoop(ctx: RelayContext, chooser: ChannelsChooser, model: string, retryTimes: int, seconds: int, w: World,
                   again: (Reply, int) -> bool, first: Channel, ghost scene: Scene, ghost skip: seq<int>)
    returns (r: Answer, sent: seq<Channel>, ghost scenes: seq<Scene>)
    requires chooser.Valid() && !ctx.Pinned() && ctx.Skip() == skip
    requires forall reply, kind :: again(reply, kind) ==> reply.Failure?
    requires again(w.reply(0), first.kind) && Tried([first], [scene], skip)
    modifies ctx, chooser
    ensures sent != [] && Tried(sent, scenes, skip) && Fits(r, again, sent, w, retryTimes)
    ensures scenes[0] == scene
    ensures r.Failed? && WantsMore(again, sent, w.reply, retryTimes) ==> ctx.NothingLeft(chooser, model, |sent|, w)
  {
    sent, scenes := [first], [scene];
    var reply, left := w.reply(0), retryTimes;
    while left > 0
      invariant chooser.Valid() && sent != [] && reply == w.reply(|sent| - 1) && reply.Failure?
      invariant left > 0 ==> |sent| + left == 1 + Max0(retryTimes) && again(reply, sent[|sent| - 1].kind)
      invariant left <= 0 ==> |sent| <= 1 + Max0(retryTimes) && !WantsMore(again, sent, w.reply, retryTimes)
      invariant Tried(sent, scenes, skip) && scenes[0] == scene && EachGoesOn(again, sent, w.reply)
      invariant ctx.Skip() == skip + Ids(sent[..|sent| - 1])
      decreases left
    {
      ctx.ShouldCooldowns(chooser, sent[|sent| - 1], reply.error, w.clock(|sent|), seconds);
      SkipGrows(skip, sent);
      if w.late(|sent|) {
        return TimedOut, sent, scenes;
      }
      ghost var sc;
      var chosen;
      chosen, sc := Retry(ctx, chooser, model, w, sent, scenes, skip);
      if chosen.None? {
        return Failed(reply.error), sent, scenes;
      }
      GoesOnExtends(again, sent, w.reply, chosen.value);
      reply := w.reply(|sent|);
      FrontOfAppend(sent, chosen.value);
      sent, scenes := sent + [chosen.value], scenes + [sc];
      if reply.Success? {
        return Answered, sent, scenes;
      }
      left := if again(reply, chosen.value.kind) then left - 1 else 0;
    }
    return Failed(reply.error), sent, scenes;
  }

  /** The first attempt, and the loop if it allows a retry. */
  method Attempts(ctx: RelayContext, chooser: ChannelsChooser, model: string, retryTimes: int, seconds: int, w: World)
    returns (r: Answer, sent: seq<Channel>, ghost scenes: seq<Scene>)
    requires chooser.Valid()
    modifies ctx, chooser
    ensures Fits(r, Again(ctx.Pinned()), sent, w, retryTimes)
    ensures if ctx.Pinned() then |sent| <= 1 else Tried(sent, scenes, old(ctx.Skip()))
    ensures !ctx.Pinned() && sent != [] ==> scenes[0] == old(ctx.SceneFor(chooser, model, w.clock(0)))
    ensures sent == [] ==> ctx.NothingLeft(chooser, model, 0, w)
    ensures ctx.Pinned() && sent != [] ==> w.channelById(ctx.specificChannelId) == Some(sent[0])
    ensures r.Failed? && WantsMore(Again(ctx.Pinned()), sent, w.reply, retryTimes) ==> ctx.NothingLeft(chooser, model, |sent|, w)
  {
    ghost var skip := ctx.Skip();
    ghost var scene := ctx.SceneFor(chooser, model, w.clock(0));
    var chosen := ctx.SetProvider(chooser, model, 0, w);
    if chosen.None? {
      return NoProvider, [], [];
    }
    if !ctx.Pinned() {
      ctx.EligibleIsNotSkipped(chooser, model, w.clock(0), chosen.value.id);
    }
    var reply := w.reply(0);
    if reply.Success? {
      return Answered, [chosen.value], [scene];
    }
    if !GoesOn(ctx.Pinned(), reply, chosen.value.kind) {
      return Failed(reply.error), [chosen.value], [scene];
    }
    r, sent, scenes := RetryLoop(ctx, chooser, model, retryTimes, seconds, w, Again(false), chosen.value, scene, skip);
  }

  /**
   * One relayed request. No channel is tried twice and none that was skipped from the start; each attempt was eligible
   * at its time; there are at most 1 + RetryTimes of them. It goes on after passing failures and those that are the
   * channel's fault, and then gives up only when it is late, out of budget or out of providers.
   */
  method Relay(ctx: RelayContext, chooser: ChannelsChooser, model: string, retryTimes: int, seconds: int, w: World)
    returns (r: Answer, sent: seq<Channel>, ghost scenes: seq<Scene>)
    requires chooser.Valid()
    modifies ctx, chooser
    ensures EndsWell(r, ctx.specificChannelId > 0 && !ctx.ignoreSpecific, sent, w, retryTimes,
                     ctx.NothingLeft(chooser, model, |sent|, w))
    ensures if ctx.specificChannelId > 0 && !ctx.ignoreSpecific
            then sent == [] || w.channelById(ctx.specificChannelId) == Some(sent[0])
            else Tried(sent, scenes, old(ctx.Skip()))
    ensures !ctx.Pinned() && sent != [] ==> scenes[0] == old(ctx.SceneFor(chooser, model, w.clock(0)))
    ensures sent == [] ==> ctx.NothingLeft(chooser, model, 0, w)
    ensures r == NoProvider <==> sent == []
    ensures r == Answered <==> sent != [] && w.reply(|sent| - 1).Success?
  {
    r, sent, scenes := Attempts(ctx, chooser, model, retryTimes, seconds, w);
    FitsEndsWell(r, ctx.Pinned(), sent, w, retryTimes, ctx.NothingLeft(chooser, model, |sent|, w));
    hide EndsWell, Tried, Fits, WantsMore;
  }

  /**
   * When a request goes on, in terms of the replies: every attempt but the last failed in passing or through the
   * channel's fault; a request that names its channel makes one attempt; a last failure of that kind that leaves
   * budget ends only because time ran out or nothing was left.
   */
  ghost predicate EndsWell(r: Answer, named: bool, sent: seq<Channel>, w: World, retryTimes: int, nothingLeft: bool) {
    && |sent| <= 1 + (if retryTimes > 0 then retryTimes else 0)
    && (named ==> |sent| <= 1)
    && (forall i :: 0 <= i < |sent| - 1 ==> Passing(w.reply(i)) || ChannelsFault(w.reply(i), sent[i].kind))
    && (sent != [] && !named && |sent| <= retryTimes
        && (Passing(w.reply(|sent| - 1)) || ChannelsFault(w.reply(|sent| - 1), sent[|sent| - 1].kind)) ==>
          if w.late(|sent|) then r == TimedOut else r == Failed(w.reply(|sent| - 1).error) && nothingLeft)
    && (sent != [] && w.reply(|sent| - 1).Failure?
        && !(Passing(w.reply(|sent| - 1)) || ChannelsFault(w.reply(|sent| - 1), sent[|sent| - 1].kind)) ==>
          r == Failed(w.reply(|sent| - 1).error))
  }

  lemma FitsEndsWell(r: Answer, pinned: bool, sent: seq<Channel>, w: World, retryTimes: int, nothingLeft: bool)
    requires Fits(r, Again(pinned), sent, w, retryTimes) && (pinned ==> |sent| <= 1)
    requires r.Failed? && WantsMore(Again(pinned), sent, w.reply, retryTimes) ==> nothingLeft
    ensures EndsWell(r, pinned, sent, w, retryTimes, nothingLeft)
    ensures r == NoProvider <==> sent == []
    ensures r == Answered <==> sent != [] && w.reply(|sent| - 1).Success?
  {
    forall i | 0 <= i < |sent| ensures Again(pinned)(w.reply(i), sent[i].kind)
      <==> !pinned && (Passing(w.reply(i)) || ChannelsFault(w.reply(i), sent[i].kind))
    {
      GoesOnExactlyWhen(pinned, w.reply(i), sent[i].kind);
    }
    hide Passing, ChannelsFault, GoesOn, Again;
  }
}
