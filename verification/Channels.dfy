/**
 * The channel chooser (model/balancer.go): loading the index, cooldowns, and the prioritised,
 * weighted choice of a channel.
 */
module Channels {
  import opened Basics
  import opened Text
  import opened ChannelIndex

  /** A row of the channel table; weight 0 means the default. */
  datatype Channel = Channel(
    id: int, groups: string, models: string, priority: int, weight: nat, kind: int, onlyChat: bool,
    disabledStream: set<string>)

  datatype Choice = Choice(channel: Channel, disabled: bool)

  datatype Found = Chosen(channel: Channel) | GroupNotFound | ModelNotFound | ChannelNotFound

  const DEFAULT_WEIGHT: nat := 1

  /** True means: skip this channel. */
  type Filter = (int, Choice) -> bool

  function FilterChannelId(skip: seq<int>): Filter {
    (id: int, _: Choice) => id in skip
  }

  function FilterChannelTypes(kinds: seq<int>): Filter {
    (_: int, c: Choice) => c.channel.kind !in kinds
  }

  function FilterOnlyChat(): Filter {
    (_: int, c: Choice) => c.channel.onlyChat
  }

  function FilterDisabledStream(model: string): Filter {
    (_: int, c: Choice) => model in c.channel.disabledStream
  }

  /** The row as the index sees it: names are trimmed and empty ones dropped. */
  function Parse(c: Channel): Row {
    Row(c.id, NonEmpty(Split(c.groups, ',')), NonEmpty(Split(c.models, ',')), c.priority)
  }

  function ParseAll(cs: seq<Channel>): (rows: seq<Row>)
    ensures |rows| == |cs| && forall i :: 0 <= i < |cs| ==> rows[i] == Parse(cs[i])
  {
    if cs == [] then [] else [Parse(cs[0])] + ParseAll(cs[1..])
  }

  function Loaded(c: Channel): Channel {
    if c.weight == 0 then c.(weight := DEFAULT_WEIGHT) else c
  }

  /** `Channels` after the rows; a later row of the same id would win. */
  function ChannelsOf(cs: seq<Channel>): map<int, Choice> {
    if cs == [] then map[]
    else
      var c := cs[|cs| - 1];
      ChannelsOf(cs[..|cs| - 1])[c.id := Choice(Loaded(c), false)]
  }

  /** Every row is filed under its id, enabled and unchanged but for a weight of 0, which becomes 1; nothing else is filed. */
  lemma {:induction false} ChannelsHold(cs: seq<Channel>, id: int)
    ensures id in ChannelsOf(cs) <==> exists i :: 0 <= i < |cs| && cs[i].id == id
    ensures id in ChannelsOf(cs) ==>
      var choice := ChannelsOf(cs)[id];
      && choice.channel.id == id && choice.channel.weight > 0 && !choice.disabled
      && exists i :: 0 <= i < |cs| && cs[i].id == id
                     && choice.channel == cs[i].(weight := if cs[i].weight == 0 then 1 else cs[i].weight)
  {
    if cs != [] {
      var n := |cs| - 1;
      ChannelsHold(cs[..n], id);
      if i :| 0 <= i < |cs[..n]| && cs[..n][i].id == id {
        assert cs[i].id == id;
      }
    }
  }

  // ----- What a choice is made from

  /** The chooser's maps, the model asked for, the filters and the time of one call. */
  datatype Scene = Scene(
    channels: map<int, Choice>, cooldowns: map<(int, string), int>, model: string, filters: seq<Filter>, now: int)

  predicate Cooling(cooldowns: map<(int, string), int>, id: int, model: string, now: int) {
    (id, model) in cooldowns && now < cooldowns[(id, model)]
  }

  predicate Skipped(filters: seq<Filter>, id: int, choice: Choice) {
    exists i :: 0 <= i < |filters| && filters[i](id, choice)
  }

  /** Present, enabled, not cooling down and passed by every filter. */
  predicate Eligible(sc: Scene, id: int) {
    && id in sc.channels && !sc.channels[id].disabled
    && !Cooling(sc.cooldowns, id, sc.model, sc.now)
    && !Skipped(sc.filters, id, sc.channels[id])
  }

  /** The eligible ones of a tier, in order and with repetitions. */
  function EligibleOf(sc: Scene, ids: seq<int>): (valid: seq<Choice>)
  {
    if ids == [] then []
    else
      var n := |ids| - 1;
      EligibleOf(sc, ids[..n]) + if Eligible(sc, ids[n]) then [sc.channels[ids[n]]] else []
  }

  function TotalWeight(valid: seq<Choice>): nat {
    if valid == [] then 0
    else TotalWeight(valid[..|valid| - 1]) + valid[|valid| - 1].channel.weight
  }

  /** The channel the subtraction loop stops at. */
  function Pick(valid: seq<Choice>, draw: int): Option<Channel>
    decreases |valid|
  {
    if valid == [] then None
    else if draw < valid[0].channel.weight then Some(valid[0].channel)
    else Pick(valid[1..], draw - valid[0].channel.weight)
  }

  /** Some draw below the total weight picks the channel. */
  ghost predicate Drawn(valid: seq<Choice>, c: Channel) {
    exists draw :: 0 <= draw < TotalWeight(valid) && Pick(valid, draw) == Some(c)
  }

  function SetDisabled(channels: map<int, Choice>, id: int, disabled: bool): map<int, Choice> {
    if id in channels then channels[id := channels[id].(disabled := disabled)] else channels
  }

  ghost predicate SoundChannels(channels: map<int, Choice>) {
    forall id :: id in channels ==> channels[id].channel.id == id && channels[id].channel.weight > 0
  }

  lemma LoadedAreSound(cs: seq<Channel>)
    ensures SoundChannels(ChannelsOf(cs))
  {
    var channels := ChannelsOf(cs);
    forall id | id in channels ensures channels[id].channel.id == id && channels[id].channel.weight > 0 {
      ChannelsHold(cs, id);
    }
  }

  lemma {:induction false} EligibleOfHolds(sc: Scene, ids: seq<int>)
    ensures var valid := EligibleOf(sc, ids);
      && (forall i :: 0 <= i < |valid| ==>
            exists k :: 0 <= k < |ids| && Eligible(sc, ids[k]) && valid[i] == sc.channels[ids[k]])
      && (valid == [] <==> forall k :: 0 <= k < |ids| ==> !Eligible(sc, ids[k]))
  {
    if ids != [] {
      var n := |ids| - 1;
      EligibleOfHolds(sc, ids[..n]);
      var before, valid := EligibleOf(sc, ids[..n]), EligibleOf(sc, ids);
      forall i | 0 <= i < |valid|
        ensures exists k :: 0 <= k < |ids| && Eligible(sc, ids[k]) && valid[i] == sc.channels[ids[k]]
      {
        if i < |before| {
          var k :| 0 <= k < |ids[..n]| && Eligible(sc, ids[..n][k]) && before[i] == sc.channels[ids[..n][k]];
          assert Eligible(sc, ids[k]) && valid[i] == sc.channels[ids[k]];
        } else {
          assert Eligible(sc, ids[n]) && valid[i] == sc.channels[ids[n]];
        }
      }
    }
  }

  // ----- Cooldowns

  type Cooldowns = map<(int, string), int>

  function AfterCooldown(cooldowns: Cooldowns, id: int, model: string, now: int, seconds: int): Cooldowns {
    if id == 0 || model == "" || seconds == 0 || (id, model) in cooldowns then cooldowns
    else cooldowns[(id, model) := now + seconds]
  }

  function AfterCleanup(cooldowns: Cooldowns, now: int): Cooldowns {
    map key | key in cooldowns && now < cooldowns[key] :: cooldowns[key]
  }

  datatype Event = Failure(id: int, model: string, now: int, seconds: int) | Cleanup(now: int)

  function Apply(cooldowns: Cooldowns, e: Event): Cooldowns {
    match e
    case Failure(id, model, now, seconds) => AfterCooldown(cooldowns, id, model, now, seconds)
    case Cleanup(now) => AfterCleanup(cooldowns, now)
  }

  function ApplyAll(cooldowns: Cooldowns, es: seq<Event>): Cooldowns {
    if es == [] then cooldowns else Apply(ApplyAll(cooldowns, es[..|es| - 1]), es[|es| - 1])
  }

  ghost predicate NoCleanupFrom(es: seq<Event>, deadline: int) {
    forall i :: 0 <= i < |es| && es[i].Cleanup? ==> es[i].now < deadline
  }

  /** Cooling at time t whatever fails or is cleaned up until then. */
  ghost predicate CoolsAt(cooldowns: Cooldowns, id: int, model: string, t: int) {
    forall es :: NoCleanupFrom(es, t + 1) ==> Cooling(ApplyAll(cooldowns, es), id, model, t)
  }

  /** An entry keeps its deadline through every run of failures and clean-ups, until a clean-up at or after it. */
  lemma {:induction false} DeadlineIsFixed(cooldowns: Cooldowns, es: seq<Event>, id: int, model: string)
    requires (id, model) in cooldowns && NoCleanupFrom(es, cooldowns[(id, model)])
    ensures (id, model) in ApplyAll(cooldowns, es)
    ensures ApplyAll(cooldowns, es)[(id, model)] == cooldowns[(id, model)]
  {
    if es != [] {
      DeadlineIsFixed(cooldowns, es[..|es| - 1], id, model);
    }
  }

  /** A failure leaves an existing entry alone, expired or live, so the channel cools exactly until that entry's deadline. */
  lemma CoolingAfterFailure(cooldowns: Cooldowns, id: int, model: string, now: int, seconds: int, es: seq<Event>, t: int)
    requires id != 0 && model != "" && seconds > 0 && now <= t < now + seconds
    requires NoCleanupFrom(es, t + 1) && ((id, model) in cooldowns ==> NoCleanupFrom(es, cooldowns[(id, model)]))
    ensures Cooling(ApplyAll(AfterCooldown(cooldowns, id, model, now, seconds), es), id, model, t)
       <==> (id, model) !in cooldowns || t < cooldowns[(id, model)]
  {
    DeadlineIsFixed(AfterCooldown(cooldowns, id, model, now, seconds), es, id, model);
  }

  /**
   * A failure cools the channel at every time of its period, whatever fails or is cleaned up until then, exactly when
   * there is no entry for it or that entry's deadline lies at or after the end of the period.
   */
  lemma FailureCoolsExactlyWhen(cooldowns: Cooldowns, id: int, model: string, now: int, seconds: int)
    requires id != 0 && model != "" && seconds > 0
    ensures (forall t :: now <= t < now + seconds ==> CoolsAt(AfterCooldown(cooldowns, id, model, now, seconds), id, model, t))
       <==> (id, model) !in cooldowns || cooldowns[(id, model)] >= now + seconds
  {
    var after := AfterCooldown(cooldowns, id, model, now, seconds);
    if (id, model) !in cooldowns || cooldowns[(id, model)] >= now + seconds {
      forall t | now <= t < now + seconds ensures CoolsAt(after, id, model, t) {
        forall es | NoCleanupFrom(es, t + 1) ensures Cooling(ApplyAll(after, es), id, model, t) {
          DeadlineIsFixed(after, es, id, model);
        }
      }
    } else {
      var t := if cooldowns[(id, model)] > now then cooldowns[(id, model)] else now;
      var es: seq<Event> := [];
      assert NoCleanupFrom(es, t + 1) && !Cooling(ApplyAll(after, es), id, model, t);
      assert !CoolsAt(after, id, model, t);
    }
  }

  /** A channel that failed twice is not cooling after its second failure, its first entry having expired. */
  lemma ExpiredEntryIsKept()
    ensures !Cooling(ApplyAll(map[], [Failure(1, "m", 0, 5), Failure(1, "m", 5, 5)]), 1, "m", 5)
    ensures Cooling(ApplyAll(map[], [Failure(1, "m", 0, 5), Cleanup(5), Failure(1, "m", 5, 5)]), 1, "m", 5)
  {
    var es, fs := [Failure(1, "m", 0, 5), Failure(1, "m", 5, 5)], [Failure(1, "m", 0, 5), Cleanup(5), Failure(1, "m", 5, 5)];
    assert es[..1] == [es[0]] && es[..1][..0] == [];
    assert fs[..2] == [fs[0], fs[1]] && fs[..2][..1] == [fs[0]] && fs[..1][..0] == [];
    assert ApplyAll(map[], es[..1]) == map[(1, "m") := 5] == ApplyAll(map[], fs[..1]);
    assert ApplyAll(map[], fs[..2]) == map[];
  }

  /** A channel that fails again while cooling is not cooled for the second period. */
  lemma LiveEntryIsNotExtended()
    ensures !Cooling(ApplyAll(map[], [Failure(1, "m", 0, 5), Failure(1, "m", 4, 5)]), 1, "m", 6)
  {
    var es := [Failure(1, "m", 0, 5), Failure(1, "m", 4, 5)];
    assert es[..1] == [es[0]] && es[..1][..0] == [];
    assert ApplyAll(map[], es[..1]) == map[(1, "m") := 5];
  }

  // ----- The code

  class ChannelsChooser {
    var channels: map<int, Choice>
    var rule: map<string, map<string, Tiers>>
    var wildcards: seq<string>
    var modelGroup: ModelGroups
    var cooldowns: map<(int, string), int>

    ghost predicate Valid()
      reads this
    {
      SoundChannels(channels)
    }

    constructor ()
      ensures Valid() && channels == map[] && rule == map[] && cooldowns == map[]
    {
      channels, rule, wildcards, modelGroup, cooldowns := map[], map[], [], map[], map[];
    }

    /** Rebuilds the index from the enabled rows. */
    method Load(rows: seq<Channel>)
      modifies this`channels, this`rule, this`wildcards, this`modelGroup
      ensures Valid() && channels == ChannelsOf(rows)
      ensures IndexOf(ParseAll(rows), rule, wildcards, modelGroup)
    {
      var newChannels, d := CollectRows(rows);
      var newRule := BuildRule(d.buckets);
      var list := ListOf(d.wild);
      LoadedAreSound(rows);
      hide ParseAll, ChannelsOf, AddAll, AllEntries, SoundChannels, RuleOf, SameNames;
      channels, rule, wildcards, modelGroup := newChannels, newRule, list, d.modelGroup;
    }

    method SetCooldowns(id: int, model: string, now: int, seconds: int) returns (ok: bool)
      modifies this`cooldowns
      ensures ok == (id != 0 && model != "" && seconds != 0)
      ensures cooldowns == AfterCooldown(old(cooldowns), id, model, now, seconds)
      ensures if ok then (id, model) in cooldowns else cooldowns == old(cooldowns)
    {
      if id == 0 || model == "" || seconds == 0 {
        return false;
      }
      if (id, model) in cooldowns && now < cooldowns[(id, model)] {
        return true;
      }
      if (id, model) !in cooldowns {
        cooldowns := cooldowns[(id, model) := now + seconds];
      }
      return true;
    }

    /** Drops exactly the expired entries, which no question at this time or later can tell. */
    method CleanupExpiredCooldowns(now: int)
      modifies this`cooldowns
      ensures cooldowns == AfterCleanup(old(cooldowns), now)
      ensures forall id, model, t :: t >= now ==> Cooling(cooldowns, id, model, t) == Cooling(old(cooldowns), id, model, t)
    {
      var keys := cooldowns.Keys;
      while keys != {}
        invariant keys <= cooldowns.Keys <= old(cooldowns).Keys
        invariant forall key :: key in cooldowns ==> cooldowns[key] == old(cooldowns)[key]
        invariant forall key :: key in old(cooldowns) && key !in keys ==> (key in cooldowns <==> now < old(cooldowns)[key])
        decreases keys
      {
        var key :| key in keys;
        if now >= cooldowns[key] {
          cooldowns := cooldowns - {key};
        }
        keys := keys - {key};
      }
    }

    /** A known channel is enabled or disabled; no other channel and nothing else about it changes. */
    method ChangeStatus(id: int, enable: bool)
      requires Valid()
      modifies this`channels
      ensures Valid() && channels.Keys == old(channels).Keys
      ensures forall other :: other in channels && other != id ==> channels[other] == old(channels)[other]
      ensures id in channels ==> channels[id].channel == old(channels)[id].channel && channels[id].disabled == !enable
    {
      if enable {
        Enable(id);
      } else {
        Disable(id);
      }
    }

    method Enable(id: int)
      modifies this`channels
      ensures channels == SetDisabled(old(channels), id, false)
    {
      if id !in channels {
        return;
      }
      channels := channels[id := channels[id].(disabled := false)];
    }

    method Disable(id: int)
      modifies this`channels
      ensures channels == SetDisabled(old(channels), id, true)
    {
      if id !in channels {
        return;
      }
      channels := channels[id := channels[id].(disabled := true)];
    }

    /** The eligible choices of a tier and their total weight. */
    method Candidates(ids: seq<int>, filters: seq<Filter>, model: string, now: int)
      returns (valid: seq<Choice>, total: nat)
      ensures valid == EligibleOf(Scene(channels, cooldowns, model, filters, now), ids) && total == TotalWeight(valid)
    {
      ghost var sc := Scene(channels, cooldowns, model, filters, now);
      valid, total := [], 0;
      for i := 0 to |ids|
        invariant valid == EligibleOf(sc, ids[..i]) && total == TotalWeight(valid)
      {
        var id := ids[i];
        assert ids[..i + 1][..i] == ids[..i];
        if id !in channels || channels[id].disabled {
          continue;
        }
        if Cooling(cooldowns, id, model, now) {
          continue;
        }
        var skip := IsSkipped(filters, id, channels[id]);
        if skip {
          continue;
        }
        FrontOfAppend(valid, channels[id]);
        total := total + channels[id].channel.weight;
        valid := valid + [channels[id]];
      }
      assert ids[..|ids|] == ids;
    }

    /** A weighted choice within one tier. */
    method Balancer(ids: seq<int>, filters: seq<Filter>, model: string, now: int) returns (channel: Option<Channel>)
      requires Valid()
      ensures var valid := EligibleOf(Scene(channels, cooldowns, model, filters, now), ids);
        if valid == [] then channel == None else channel.Some? && Drawn(valid, channel.value)
    {
      var valid, total := Candidates(ids, filters, model, now);
      EligibleOfHolds(Scene(channels, cooldowns, model, filters, now), ids);
      if |valid| == 0 {
        return None;
      }
      assert forall i :: 0 <= i < |valid| ==> valid[i].channel.weight > 0;
      TotalIsPositive(valid);
      if |valid| == 1 {
        assert Pick(valid, 0) == Some(valid[0].channel);
        return Some(valid[0].channel);
      }
      var c := DrawFrom(valid, total);
      return Some(c);
    }

    /** The tiers of the group's model, or of the first wildcard that matches it. */
    function Lookup(group: string, model: string): Option<Tiers>
      requires group in rule
      reads this
    {
      if model in rule[group] then Some(rule[group][model])
      else
        var wildcard := FirstMatch(wildcards, model);
        if wildcard in rule[group] then Some(rule[group][wildcard]) else None
    }

    /** The model itself is looked up first, then the first wildcard that matches it, and no other. */
    lemma LookupPrefersExact(group: string, model: string)
      requires group in rule
      ensures model in rule[group] ==> Lookup(group, model) == Some(rule[group][model])
      ensures model !in rule[group] ==> forall j :: IsFirstMatch(wildcards, model, j) ==>
        Lookup(group, model) == if wildcards[j] in rule[group] then Some(rule[group][wildcards[j]]) else None
      ensures model !in rule[group] && "" !in rule[group] && (forall j :: !IsFirstMatch(wildcards, model, j)) ==>
        Lookup(group, model) == None
    {
      FirstMatchIs(wildcards, model);
    }

    method Next(group: string, model: string, filters: seq<Filter>, now: int) returns (r: Found)
      requires Valid()
      ensures r == GroupNotFound <==> group !in rule
      ensures group in rule ==> (r == ModelNotFound <==> Lookup(group, model).None?)
      ensures group in rule && Lookup(group, model).Some? ==>
        FirstTierWins(Scene(channels, cooldowns, model, filters, now), Lookup(group, model).value, r)
    {
      if group !in rule {
        return GroupNotFound;
      }
      var found := Lookup(group, model);
      if found == None {
        return ModelNotFound;
      }
      var tiers := found.value;
      ghost var sc := Scene(channels, cooldowns, model, filters, now);
      for i := 0 to |tiers|
        invariant forall k :: 0 <= k < i ==> EligibleOf(sc, tiers[k]) == []
      {
        var channel := Balancer(tiers[i], filters, model, now);
        if channel.Some? {
          assert WonBy(sc, tiers, i, channel.value);
          return Chosen(channel.value);
        }
      }
      return ChannelNotFound;
    }
  }

  /** Subtracts the weights from a random number below their total until it turns negative. */
  method DrawFrom(valid: seq<Choice>, total: nat) returns (c: Channel)
    requires total == TotalWeight(valid) && total > 0
    ensures Drawn(valid, c)
  {
    var r :| 0 <= r < total;
    ghost var draw := r;
    PickIsTotal(valid, r);
    for i := 0 to |valid|
      invariant Pick(valid[i..], r) == Pick(valid, draw)
    {
      assert valid[i..][0] == valid[i] && valid[i..][1..] == valid[i + 1..];
      r := r - valid[i].channel.weight;
      if r < 0 {
        return valid[i].channel;
      }
    }
    assert false;
  }

  method IsSkipped(filters: seq<Filter>, id: int, choice: Choice) returns (skip: bool)
    ensures skip == Skipped(filters, id, choice)
  {
    for i := 0 to |filters|
      invariant forall k :: 0 <= k < i ==> !filters[k](id, choice)
    {
      if filters[i](id, choice) {
        return true;
      }
    }
    return false;
  }

  /** The loop of `Load` over the rows. */
  method CollectRows(cs: seq<Channel>) returns (channels: map<int, Choice>, d: Draft)
    ensures d == AddAll(EMPTY_DRAFT, AllEntries(ParseAll(cs))) && channels == ChannelsOf(cs)
  {
    channels, d := map[], EMPTY_DRAFT;
    ghost var rows := ParseAll(cs);
    for i := 0 to |cs|
      invariant AddAll(d, AllEntries(rows[i..])) == AddAll(EMPTY_DRAFT, AllEntries(rows))
      invariant channels == ChannelsOf(cs[..i])
    {
      var c := cs[i];
      assert rows[i..][1..] == rows[i + 1..] && cs[..i + 1][..i] == cs[..i];
      AddAllConcat(d, RowEntries(rows[i]), AllEntries(rows[i + 1..]));
      channels := channels[c.id := Choice(Loaded(c), false)];
      d := AddRow(c, d);
    }
    assert cs[..|cs|] == cs;
  }

  method AddRow(c: Channel, d: Draft) returns (d': Draft)
    ensures d' == AddAll(d, RowEntries(Parse(c)))
  {
    var groups := TrimParts(Split(c.groups, ','));
    var models := TrimParts(Split(c.models, ','));
    d' := AddGroups(Row(c.id, groups, models, c.priority), d);
  }

  method ListOf(names: set<string>) returns (list: seq<string>)
    ensures SameNames(list, names)
    ensures |list| == |names|
  {
    list := [];
    var left := names;
    while left != {}
      invariant left <= names && (forall n :: n in list <==> n in names && n !in left)
      invariant |list| + |left| == |names|
      decreases left
    {
      var n :| n in left;
      list := list + [n];
      left := left - {n};
    }
  }

  // ----- Wildcards

  function TrimStars(model: string): string {
    if model != "" && model[|model| - 1] == '*' then TrimStars(model[..|model| - 1]) else model
  }

  /** The first listed wildcard whose stem starts the name, or "". */
  function FirstMatch(wildcards: seq<string>, name: string): string {
    if wildcards == [] then ""
    else if TrimStars(wildcards[0]) <= name then wildcards[0]
    else FirstMatch(wildcards[1..], name)
  }

  /** The stem is the wildcard without its trailing stars, and the name starts with it. */
  ghost predicate Matches(wildcard: string, name: string) {
    exists n :: IsStem(wildcard, n) && wildcard[..n] <= name
  }

  ghost predicate IsStem(wildcard: string, n: int) {
    && 0 <= n <= |wildcard| && (n == 0 || wildcard[n - 1] != '*')
    && forall i :: n <= i < |wildcard| ==> wildcard[i] == '*'
  }

  ghost predicate IsFirstMatch(wildcards: seq<string>, name: string, j: int) {
    0 <= j < |wildcards| && Matches(wildcards[j], name) && forall i :: 0 <= i < j ==> !Matches(wildcards[i], name)
  }

  lemma {:induction false} TrimStarsIs(wildcard: string)
    ensures var stem := TrimStars(wildcard); IsStem(wildcard, |stem|) && stem == wildcard[..|stem|]
  {
    if wildcard != "" && wildcard[|wildcard| - 1] == '*' {
      TrimStarsIs(wildcard[..|wildcard| - 1]);
    }
  }

  lemma MatchesIs(wildcard: string, name: string)
    ensures Matches(wildcard, name) <==> TrimStars(wildcard) <= name
  {
    TrimStarsIs(wildcard);
    var stem := TrimStars(wildcard);
    forall n | IsStem(wildcard, n) ensures n == |stem| {
      StemIsShortest(wildcard, n, |stem|);
      StemIsShortest(wildcard, |stem|, n);
    }
  }

  lemma StemIsShortest(wildcard: string, m: int, n: int)
    requires IsStem(wildcard, m) && IsStem(wildcard, n)
    ensures m <= n
  {
  }

  lemma {:induction false} FirstMatchIs(wildcards: seq<string>, name: string)
    ensures forall j :: IsFirstMatch(wildcards, name, j) ==> FirstMatch(wildcards, name) == wildcards[j]
    ensures (forall j :: !IsFirstMatch(wildcards, name, j)) ==> FirstMatch(wildcards, name) == ""
  {
    if wildcards != [] {
      var rest := wildcards[1..];
      MatchesIs(wildcards[0], name);
      FirstMatchIs(rest, name);
      if TrimStars(wildcards[0]) <= name {
        assert IsFirstMatch(wildcards, name, 0);
      } else {
        forall j | IsFirstMatch(wildcards, name, j) ensures IsFirstMatch(rest, name, j - 1) {
          assert forall i :: 0 <= i < j - 1 ==> rest[i] == wildcards[i + 1];
        }
        forall j | IsFirstMatch(rest, name, j) ensures IsFirstMatch(wildcards, name, j + 1) {
          assert forall i :: 0 < i < j + 1 ==> wildcards[i] == rest[i - 1];
        }
      }
    }
  }

  // ----- Properties of the choice

  /** The channel was picked by a draw among the eligible of tier i, and no earlier tier has any. */
  ghost predicate WonBy(sc: Scene, tiers: Tiers, i: nat, c: Channel) {
    && i < |tiers|
    && (forall k :: 0 <= k < i ==> EligibleOf(sc, tiers[k]) == [])
    && Drawn(EligibleOf(sc, tiers[i]), c)
  }

  ghost predicate FirstTierWins(sc: Scene, tiers: Tiers, r: Found) {
    match r
    case Chosen(c) => exists i :: WonBy(sc, tiers, i, c)
    case ChannelNotFound => forall k :: 0 <= k < |tiers| ==> EligibleOf(sc, tiers[k]) == []
    case _ => false
  }

  lemma {:induction false} TotalIsPositive(valid: seq<Choice>)
    requires valid != [] && forall i :: 0 <= i < |valid| ==> valid[i].channel.weight > 0
    ensures TotalWeight(valid) > 0
  {
  }

  lemma {:induction false} TotalFromFront(valid: seq<Choice>)
    requires valid != []
    ensures TotalWeight(valid) == valid[0].channel.weight + TotalWeight(valid[1..])
  {
    if |valid| > 1 {
      var n := |valid| - 1;
      TotalFromFront(valid[..n]);
      assert valid[1..][..n - 1] == valid[..n][1..];
    } else {
      assert valid[..0] == [] && valid[1..] == [];
    }
  }

  /** Every draw below the total picks a channel, so the final nil of `balancer` is unreachable. */
  lemma {:induction false} PickIsTotal(valid: seq<Choice>, draw: int)
    requires 0 <= draw < TotalWeight(valid)
    ensures Pick(valid, draw).Some?
    ensures exists i :: 0 <= i < |valid| && Pick(valid, draw) == Some(valid[i].channel)
    decreases |valid|
  {
    TotalFromFront(valid);
    var w := valid[0].channel.weight;
    if draw >= w {
      PickIsTotal(valid[1..], draw - w);
      var i :| 0 <= i < |valid[1..]| && Pick(valid[1..], draw - w) == Some(valid[1..][i].channel);
      assert valid[i + 1] == valid[1..][i];
    }
  }

  // ----- How the draws are spread

  /** How many of the draws 0 to n - 1 pick the channel. */
  function Draws(valid: seq<Choice>, c: Channel, n: nat): nat {
    if n == 0 then 0 else Draws(valid, c, n - 1) + if Pick(valid, n - 1) == Some(c) then 1 else 0
  }

  function ChannelsIn(valid: seq<Choice>): seq<Channel> {
    if valid == [] then [] else [valid[0].channel] + ChannelsIn(valid[1..])
  }

  /** The first w draws pick the first entry, the others pick from the rest. */
  lemma {:induction false} DrawsFromFront(valid: seq<Choice>, c: Channel, n: nat)
    requires valid != []
    ensures var w := valid[0].channel.weight;
      Draws(valid, c, n) ==
        (if valid[0].channel != c then 0 else if n < w then n else w) + if n < w then 0 else Draws(valid[1..], c, n - w)
  {
    if n > 0 {
      DrawsFromFront(valid, c, n - 1);
    }
  }

  /** Of the totalWeight draws, exactly weight times occurrences pick the channel. */
  lemma {:induction false} DrawsAreWeighted(valid: seq<Choice>, c: Channel)
    ensures Draws(valid, c, TotalWeight(valid)) == c.weight * Count(ChannelsIn(valid), c)
    decreases |valid|
  {
    if valid != [] {
      TotalFromFront(valid);
      DrawsFromFront(valid, c, TotalWeight(valid));
      DrawsAreWeighted(valid[1..], c);
      CountFront(valid, c);
      OneMore(c.weight, Count(ChannelsIn(valid[1..]), c));
    }
  }

  lemma OneMore(w: int, k: int)
    ensures w * (1 + k) == w + w * k
  {
  }

  lemma CountFront(valid: seq<Choice>, c: Channel)
    requires valid != []
    ensures Count(ChannelsIn(valid), c) == (if valid[0].channel == c then 1 else 0) + Count(ChannelsIn(valid[1..]), c)
  {
    assert ChannelsIn(valid)[1..] == ChannelsIn(valid[1..]);
  }

  lemma {:induction false} ChannelsInConcat(a: seq<Choice>, b: seq<Choice>)
    ensures ChannelsIn(a + b) == ChannelsIn(a) + ChannelsIn(b)
  {
    if a == [] {
      assert a + b == b;
    } else {
      ChannelsInConcat(a[1..], b);
      TailOfConcat(a, b);
    }
  }

  /** An eligible channel occurs among the valid entries as often as its id is listed in the tier. */
  lemma {:induction false} EligibleOccurrences(sc: Scene, ids: seq<int>, id: int)
    requires SoundChannels(sc.channels) && Eligible(sc, id)
    ensures Count(ChannelsIn(EligibleOf(sc, ids)), sc.channels[id].channel) == Count(ids, id)
  {
    if ids != [] {
      var n, c := |ids| - 1, sc.channels[id].channel;
      var before, last := EligibleOf(sc, ids[..n]), EligibleOf(sc, [ids[n]]);
      EligibleOccurrences(sc, ids[..n], id);
      EligibleOfLast(sc, ids);
      LastOccurrence(sc, ids[n], id);
      hide *;
      ChannelsInConcat(before, last);
      CountConcat(ChannelsIn(before), ChannelsIn(last), c);
      CountConcat(ids[..n], [ids[n]], id);
      assert ids == ids[..n] + [ids[n]];
    }
  }

  lemma EligibleOfLast(sc: Scene, ids: seq<int>)
    requires ids != []
    ensures var n := |ids| - 1; EligibleOf(sc, ids) == EligibleOf(sc, ids[..n]) + EligibleOf(sc, [ids[n]])
  {
    var n := |ids| - 1;
    var none: seq<int> := [];
    assert [ids[n]][..0] == none && EligibleOf(sc, none) == [];
  }

  lemma LastOccurrence(sc: Scene, other: int, id: int)
    requires SoundChannels(sc.channels) && Eligible(sc, id)
    ensures Count(ChannelsIn(EligibleOf(sc, [other])), sc.channels[id].channel) == Count([other], id)
  {
    var none: seq<int> := [];
    assert [other][..0] == none && EligibleOf(sc, none) == [];
    var last := EligibleOf(sc, [other]);
    if Eligible(sc, other) {
      assert last == [sc.channels[other]] && last[1..] == [] && ChannelsIn(last) == [sc.channels[other].channel];
      assert [sc.channels[other].channel][1..] == [];
    }
    assert [other][1..] == none;
  }

  /** Within a tier, exactly weight times listings of the totalWeight draws pick an eligible channel. */
  lemma TierDraws(sc: Scene, ids: seq<int>, id: int)
    requires SoundChannels(sc.channels) && Eligible(sc, id)
    ensures var valid, c := EligibleOf(sc, ids), sc.channels[id].channel;
      Draws(valid, c, TotalWeight(valid)) == c.weight * Count(ids, id)
  {
    DrawsAreWeighted(EligibleOf(sc, ids), sc.channels[id].channel);
    EligibleOccurrences(sc, ids, id);
  }

  /** A chosen channel is eligible and listed in the winning tier, and every earlier tier has no eligible channel. */
  lemma ChosenIsEligible(sc: Scene, tiers: Tiers, r: Found)
    requires SoundChannels(sc.channels) && FirstTierWins(sc, tiers, r)
    ensures r.Chosen? ==>
      && Eligible(sc, r.channel.id) && sc.channels[r.channel.id].channel == r.channel
      && exists i :: 0 <= i < |tiers| && r.channel.id in tiers[i] && forall k :: 0 <= k < i ==> NoneEligible(sc, tiers[k])
    ensures r.Chosen? <==> exists i :: 0 <= i < |tiers| && !NoneEligible(sc, tiers[i])
  {
    forall k | 0 <= k < |tiers| ensures EligibleOf(sc, tiers[k]) == [] <==> NoneEligible(sc, tiers[k]) {
      EligibleOfHolds(sc, tiers[k]);
    }
    hide EligibleOf, Eligible, NoneEligible, Pick, TotalWeight;
    if r.Chosen? {
      var i: nat :| WonBy(sc, tiers, i, r.channel);
      DrawnIsEligible(sc, tiers[i], r.channel);
    }
  }

  lemma DrawnIsEligible(sc: Scene, ids: seq<int>, c: Channel)
    requires SoundChannels(sc.channels) && Drawn(EligibleOf(sc, ids), c)
    ensures Eligible(sc, c.id) && sc.channels[c.id].channel == c && c.id in ids && !NoneEligible(sc, ids)
  {
    var valid := EligibleOf(sc, ids);
    var draw :| 0 <= draw < TotalWeight(valid) && Pick(valid, draw) == Some(c);
    PickIsTotal(valid, draw);
    var j :| 0 <= j < |valid| && Pick(valid, draw) == Some(valid[j].channel);
    EligibleOfHolds(sc, ids);
    var k :| 0 <= k < |ids| && Eligible(sc, ids[k]) && valid[j] == sc.channels[ids[k]];
    assert c.id == ids[k];
  }

  ghost predicate NoneEligible(sc: Scene, ids: seq<int>) {
    forall k :: 0 <= k < |ids| ==> !Eligible(sc, ids[k])
  }
}
