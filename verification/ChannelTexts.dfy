/**
 * The chooser from the channel rows to the choice (model/balancer.go): what the texts of the rows put into the index,
 * and which channel a request gets.
 */
module ChannelTexts {
  import opened Basics
  import opened Text
  import opened ChannelIndex
  import opened Channels

  /** A text cut at its commas. */
  ghost predicate Parts(text: string, parts: seq<string>) {
    parts != [] && (forall part :: part in parts ==> ',' !in part) && text == Join(parts, ',')
  }

  /** The parts of every row's groups and models. */
  ghost predicate Texts(cs: seq<Channel>, gs: seq<seq<string>>, ms: seq<seq<string>>) {
    |gs| == |cs| && |ms| == |cs| && forall i :: 0 <= i < |cs| ==> Parts(cs[i].groups, gs[i]) && Parts(cs[i].models, ms[i])
  }

  /** How many of the parts are the name, white space around it not counting. */
  function Mentions(parts: seq<string>, name: string): nat {
    if parts == [] then 0 else (if TrimSpace(parts[0]) == name then 1 else 0) + Mentions(parts[1..], name)
  }

  lemma {:induction false} MentionsAreCounts(parts: seq<string>, name: string)
    ensures Count(NonEmpty(parts), name) == if name == "" then 0 else Mentions(parts, name)
  {
    if parts != [] {
      MentionsAreCounts(parts[1..], name);
      KeptCount(parts[0], name);
      hide *;
      CountConcat(Kept(parts[0]), NonEmpty(parts[1..]), name);
      MentionsUnfolds(parts, name);
    }
  }

  lemma {:induction false} KeptCount(part: string, name: string)
    ensures Count(Kept(part), name) == if name != "" && TrimSpace(part) == name then 1 else 0
  {
    hide TrimSpace;
    assert |Kept(part)| == 1 ==> Kept(part)[1..] == [];
  }

  lemma {:induction false} MentionsUnfolds(parts: seq<string>, name: string)
    requires parts != []
    ensures Mentions(parts, name) == (if TrimSpace(parts[0]) == name then 1 else 0) + Mentions(parts[1..], name)
    ensures NonEmpty(parts) == Kept(parts[0]) + NonEmpty(parts[1..])
  {
    hide TrimSpace;
  }

  lemma {:induction false} ParsedCounts(c: Channel, gs: seq<string>, ms: seq<string>, group: string, model: string)
    requires Parts(c.groups, gs) && Parts(c.models, ms)
    ensures Parse(c).id == c.id && Parse(c).priority == c.priority
    ensures Count(Parse(c).groups, group) == if group == "" then 0 else Mentions(gs, group)
    ensures Count(Parse(c).models, model) == if model == "" then 0 else Mentions(ms, model)
  {
    SplitOfJoin(gs, ',');
    SplitOfJoin(ms, ',');
    MentionsAreCounts(gs, group);
    MentionsAreCounts(ms, model);
    hide NonEmpty, Split, Join, Mentions, Count;
  }

  lemma {:induction false} CountIn<T>(s: seq<T>, x: T)
    ensures Count(s, x) > 0 <==> x in s
  {
    if s != [] {
      CountIn(s[1..], x);
    }
  }

  /** How often the row with these parts lists the group times how often it lists the model. */
  function Listed(gs: seq<string>, ms: seq<string>, group: string, model: string): nat {
    if group == "" || model == "" then 0 else Mentions(gs, group) * Mentions(ms, model)
  }

  lemma {:induction false} ParsedListings(c: Channel, gs: seq<string>, ms: seq<string>, group: string, model: string)
    requires Parts(c.groups, gs) && Parts(c.models, ms)
    ensures Listings(Parse(c), group, model) == Listed(gs, ms, group, model)
    ensures Lists(Parse(c), group, model) <==> Listed(gs, ms, group, model) > 0
  {
    ParsedCounts(c, gs, ms, group, model);
    CountIn(Parse(c).groups, group);
    CountIn(Parse(c).models, model);
    hide Parse, Mentions, Count;
    Positive(if group == "" then 0 else Mentions(gs, group), if model == "" then 0 else Mentions(ms, model));
  }

  lemma {:induction false} Positive(m: nat, n: nat)
    ensures m * n > 0 <==> m > 0 && n > 0
  {
  }

  /** A group has a model exactly when some row's text lists both. */
  lemma {:induction false} IndexFollowsTexts(cs: seq<Channel>, gs: seq<seq<string>>, ms: seq<seq<string>>,
                          rule: map<string, map<string, Tiers>>, wildcards: seq<string>, modelGroup: ModelGroups,
                          group: string, model: string)
    requires IndexOf(ParseAll(cs), rule, wildcards, modelGroup) && Texts(cs, gs, ms)
    ensures HasRule(rule, group, model) <==> exists i :: 0 <= i < |cs| && Listed(gs[i], ms[i], group, model) > 0
  {
    IndexIsCorrect(ParseAll(cs), rule, wildcards, modelGroup, group, model);
    var rows := ParseAll(cs);
    forall i | 0 <= i < |cs| ensures Lists(rows[i], group, model) <==> Listed(gs[i], ms[i], group, model) > 0 {
      ParsedListings(cs[i], gs[i], ms[i], group, model);
    }
    hide IndexOf, Listed, Lists, Parse;
  }

  ghost predicate DistinctChannels(cs: seq<Channel>) {
    forall i, j :: 0 <= i < j < |cs| ==> cs[i].id != cs[j].id
  }

  /** The tiers of a group's model, with priorities `ps`: who stands where and how often. */
  ghost predicate TiersOf(cs: seq<Channel>, gs: seq<seq<string>>, ms: seq<seq<string>>, group: string, model: string,
                          tiers: Tiers, ps: seq<int>)
  {
    && |gs| == |cs| && |ms| == |cs| && |ps| == |tiers| && Descending(ps)
    && (forall i, k :: 0 <= i < |tiers| && 0 <= k < |cs| ==>
          Count(tiers[i], cs[k].id) == if cs[k].priority == ps[i] then Listed(gs[k], ms[k], group, model) else 0)
    && (forall k :: 0 <= k < |cs| && Listed(gs[k], ms[k], group, model) > 0 ==> cs[k].priority in ps)
    && (forall i, id :: 0 <= i < |tiers| && id in tiers[i] ==> exists k :: 0 <= k < |cs| && cs[k].id == id)
  }

  /** A channel stands in the tier of its priority as often as its texts list group and model, and in no other tier. */
  lemma {:induction false} TiersFollowTexts(cs: seq<Channel>, gs: seq<seq<string>>, ms: seq<seq<string>>,
                         rule: map<string, map<string, Tiers>>, wildcards: seq<string>, modelGroup: ModelGroups,
                         group: string, model: string)
    returns (ps: seq<int>)
    requires IndexOf(ParseAll(cs), rule, wildcards, modelGroup) && Texts(cs, gs, ms) && DistinctChannels(cs)
    requires HasRule(rule, group, model)
    ensures TiersOf(cs, gs, ms, group, model, rule[group][model], ps)
  {
    var rows, tiers := ParseAll(cs), rule[group][model];
    ps := ChannelStandsInItsTier(rows, rule, wildcards, modelGroup, group, model);
    forall k | 0 <= k < |cs|
      ensures rows[k].id == cs[k].id && rows[k].priority == cs[k].priority
      ensures Listings(rows[k], group, model) == Listed(gs[k], ms[k], group, model)
    {
      ParsedListings(cs[k], gs[k], ms[k], group, model);
    }
    forall i, id | 0 <= i < |tiers| && id in tiers[i] ensures exists k :: 0 <= k < |cs| && cs[k].id == id {
      CountIn(tiers[i], id);
      assert (forall k :: 0 <= k < |cs| ==> cs[k].id != id) ==> forall c :: c in rows ==> c.id != id;
    }
  }

  // ----- The same for lists of names

  /** A name as it is meant to be listed: not empty, without outer white space and commas. */
  ghost predicate IsName(s: string) {
    s != "" && Trimmed(s, IsSpace) && ',' !in s
  }

  /** The rows list these names, separated by commas. */
  ghost predicate ListsNames(cs: seq<Channel>, gs: seq<seq<string>>, ms: seq<seq<string>>) {
    && |gs| == |cs| && |ms| == |cs|
    && forall i :: 0 <= i < |cs| ==> NamesText(cs[i].groups, gs[i]) && NamesText(cs[i].models, ms[i])
  }

  ghost predicate NamesText(text: string, names: seq<string>) {
    text == Join(names, ',') && forall n :: n in names ==> IsName(n)
  }

  /** The parts of such a text; an empty list is one empty part. */
  function PartsOf(names: seq<string>): seq<string> {
    if names == [] then [""] else names
  }

  function AllPartsOf(lists: seq<seq<string>>): (r: seq<seq<string>>)
    ensures |r| == |lists| && forall i :: 0 <= i < |lists| ==> r[i] == PartsOf(lists[i])
  {
    if lists == [] then [] else [PartsOf(lists[0])] + AllPartsOf(lists[1..])
  }

  lemma {:induction false} NameMentions(names: seq<string>, name: string)
    requires forall n :: n in names ==> IsName(n)
    ensures Mentions(names, name) == Count(names, name)
  {
    if names != [] {
      assert names[0] in names;
      NameMentions(names[1..], name);
    }
  }

  lemma {:induction false} NamesAreParts(text: string, names: seq<string>, name: string)
    requires NamesText(text, names)
    ensures Parts(text, PartsOf(names))
    ensures name != "" ==> Mentions(PartsOf(names), name) == Count(names, name)
  {
    if names == [] {
      assert [""][1..] == [];
      assert TrimSpace("") == "";
    } else {
      NameMentions(names, name);
    }
  }

  lemma {:induction false} ListsCounts(cs: seq<Channel>, gs: seq<seq<string>>, ms: seq<seq<string>>, i: nat, group: string, model: string)
    requires ListsNames(cs, gs, ms) && i < |cs| && group != "" && model != ""
    ensures Listed(AllPartsOf(gs)[i], AllPartsOf(ms)[i], group, model) == Count(gs[i], group) * Count(ms[i], model)
  {
    NamesAreParts(cs[i].groups, gs[i], group);
    NamesAreParts(cs[i].models, ms[i], model);
    hide Mentions, Count, NamesText, PartsOf;
  }

  lemma {:induction false} NamesAreTexts(cs: seq<Channel>, gs: seq<seq<string>>, ms: seq<seq<string>>)
    requires ListsNames(cs, gs, ms)
    ensures Texts(cs, AllPartsOf(gs), AllPartsOf(ms))
  {
    forall i | 0 <= i < |cs|
      ensures Parts(cs[i].groups, AllPartsOf(gs)[i]) && Parts(cs[i].models, AllPartsOf(ms)[i])
    {
      NamesAreParts(cs[i].groups, gs[i], "");
      NamesAreParts(cs[i].models, ms[i], "");
    }
    hide Parts, NamesText, PartsOf;
  }

  /** Rows that list names put group g's model m into the index exactly when one lists g as a group and m as a model. */
  lemma {:induction false} IndexFollowsNames(cs: seq<Channel>, gs: seq<seq<string>>, ms: seq<seq<string>>,
                          rule: map<string, map<string, Tiers>>, wildcards: seq<string>, modelGroup: ModelGroups,
                          group: string, model: string)
    requires IndexOf(ParseAll(cs), rule, wildcards, modelGroup) && ListsNames(cs, gs, ms)
    ensures HasRule(rule, group, model) <==> exists i :: 0 <= i < |cs| && group in gs[i] && model in ms[i]
  {
    NamesAreTexts(cs, gs, ms);
    IndexFollowsTexts(cs, AllPartsOf(gs), AllPartsOf(ms), rule, wildcards, modelGroup, group, model);
    forall i | 0 <= i < |cs|
      ensures Listed(AllPartsOf(gs)[i], AllPartsOf(ms)[i], group, model) > 0 <==> group in gs[i] && model in ms[i]
    {
      CountIn(gs[i], group);
      CountIn(ms[i], model);
      if group == "" || model == "" {
        assert NamesText(cs[i].groups, gs[i]) && NamesText(cs[i].models, ms[i]);
      } else {
        ListsCounts(cs, gs, ms, i, group, model);
        Positive(Count(gs[i], group), Count(ms[i], model));
      }
    }
    hide *;
  }

  /** And channel k stands Count(gs[k], g) * Count(ms[k], m) times in the tier of its priority, and in no other. */
  lemma {:induction false} TiersFollowNames(cs: seq<Channel>, gs: seq<seq<string>>, ms: seq<seq<string>>,
                         rule: map<string, map<string, Tiers>>, wildcards: seq<string>, modelGroup: ModelGroups,
                         group: string, model: string)
    returns (ps: seq<int>)
    requires IndexOf(ParseAll(cs), rule, wildcards, modelGroup) && ListsNames(cs, gs, ms) && DistinctChannels(cs)
    requires HasRule(rule, group, model)
    ensures var tiers := rule[group][model];
      && |ps| == |tiers| && Descending(ps)
      && (forall i, k :: 0 <= i < |tiers| && 0 <= k < |cs| ==>
            Count(tiers[i], cs[k].id) == if cs[k].priority == ps[i] then Count(gs[k], group) * Count(ms[k], model) else 0)
  {
    NamesAreTexts(cs, gs, ms);
    IndexFollowsNames(cs, gs, ms, rule, wildcards, modelGroup, group, model);
    ps := TiersFollowTexts(cs, AllPartsOf(gs), AllPartsOf(ms), rule, wildcards, modelGroup, group, model);
    var j :| 0 <= j < |cs| && group in gs[j] && model in ms[j];
    assert NamesText(cs[j].groups, gs[j]) && NamesText(cs[j].models, ms[j]);
    assert group != "" && model != "";
    forall k | 0 <= k < |cs|
      ensures Listed(AllPartsOf(gs)[k], AllPartsOf(ms)[k], group, model) == Count(gs[k], group) * Count(ms[k], model)
    {
      ListsCounts(cs, gs, ms, k, group, model);
    }
    hide Listed, Count, AllPartsOf;
  }

  // ----- Who is chosen

  /** The channel may be used: known, enabled, past its cooldown and passed by every filter. */
  ghost predicate Usable(sc: Scene, id: int) {
    && id in sc.channels && sc.channels[id].disabled == false
    && ((id, sc.model) in sc.cooldowns ==> sc.cooldowns[(id, sc.model)] <= sc.now)
    && forall i :: 0 <= i < |sc.filters| ==> !sc.filters[i](id, sc.channels[id])
  }

  lemma {:induction false} UsableIsEligible(sc: Scene, id: int)
    ensures Usable(sc, id) <==> Eligible(sc, id)
  {
  }

  /** Row k lists the group and the model, and no row that does and is usable has a higher priority. */
  ghost predicate Best(cs: seq<Channel>, gs: seq<seq<string>>, ms: seq<seq<string>>, sc: Scene, group: string, k: int) {
    && |gs| == |cs| && |ms| == |cs| && 0 <= k < |cs| && Listed(gs[k], ms[k], group, sc.model) > 0
    && forall j :: 0 <= j < |cs| && Listed(gs[j], ms[j], group, sc.model) > 0 && Usable(sc, cs[j].id) ==>
         cs[j].priority <= cs[k].priority
  }

  /**
   * A request for a group's model gets a usable channel whose texts list both, and no usable channel that lists both has
   * a higher priority; it gets none exactly when no channel that lists both is usable.
   */
  lemma {:induction false} HighestPriorityIsChosen(cs: seq<Channel>, gs: seq<seq<string>>, ms: seq<seq<string>>,
                                rule: map<string, map<string, Tiers>>, wildcards: seq<string>, modelGroup: ModelGroups,
                                sc: Scene, group: string, r: Found)
    requires IndexOf(ParseAll(cs), rule, wildcards, modelGroup) && Texts(cs, gs, ms) && DistinctChannels(cs)
    requires HasRule(rule, group, sc.model) && SoundChannels(sc.channels)
    requires FirstTierWins(sc, rule[group][sc.model], r)
    ensures r.Chosen? ==> Usable(sc, r.channel.id) && sc.channels[r.channel.id].channel == r.channel
    ensures r.Chosen? ==> exists k :: Best(cs, gs, ms, sc, group, k) && cs[k].id == r.channel.id
    ensures r.Chosen? <==> exists j :: 0 <= j < |cs| && Listed(gs[j], ms[j], group, sc.model) > 0 && Usable(sc, cs[j].id)
  {
    var tiers := rule[group][sc.model];
    ChosenIsEligible(sc, tiers, r);
    var ps := TiersFollowTexts(cs, gs, ms, rule, wildcards, modelGroup, group, sc.model);
    hide *;
    forall j | 0 <= j < |cs| && Listed(gs[j], ms[j], group, sc.model) > 0 && Usable(sc, cs[j].id)
      ensures exists t :: 0 <= t < |tiers| && !NoneEligible(sc, tiers[t])
    {
      var t := UsableStands(cs, gs, ms, sc, group, tiers, ps, j);
    }
    if r.Chosen? {
      var i :| 0 <= i < |tiers| && r.channel.id in tiers[i] && forall k :: 0 <= k < i ==> NoneEligible(sc, tiers[k]);
      UsableIsEligible(sc, r.channel.id);
      var k := ChosenIsBest(cs, gs, ms, sc, group, tiers, ps, i, r.channel.id);
    }
  }

  /** A usable channel that lists both stands in the tier of its priority. */
  lemma {:induction false} UsableStands(cs: seq<Channel>, gs: seq<seq<string>>, ms: seq<seq<string>>, sc: Scene,
                                        group: string, tiers: Tiers, ps: seq<int>, j: nat)
    returns (t: nat)
    requires TiersOf(cs, gs, ms, group, sc.model, tiers, ps)
    requires j < |cs| && Listed(gs[j], ms[j], group, sc.model) > 0 && Usable(sc, cs[j].id)
    ensures t < |tiers| && t < |ps| && ps[t] == cs[j].priority && !NoneEligible(sc, tiers[t])
  {
    UsableIsEligible(sc, cs[j].id);
    t :| 0 <= t < |ps| && ps[t] == cs[j].priority;
    CountIn(tiers[t], cs[j].id);
    hide Eligible, Usable, Listed, Count;
  }

  /** The channel from tier i, before which nobody is eligible, is a row of the highest priority. */
  lemma {:induction false} ChosenIsBest(cs: seq<Channel>, gs: seq<seq<string>>, ms: seq<seq<string>>, sc: Scene,
                                        group: string, tiers: Tiers, ps: seq<int>, i: nat, id: int)
    returns (k: int)
    requires TiersOf(cs, gs, ms, group, sc.model, tiers, ps)
    requires i < |tiers| && id in tiers[i] && (forall k :: 0 <= k < i ==> NoneEligible(sc, tiers[k])) && Eligible(sc, id)
    ensures Best(cs, gs, ms, sc, group, k) && cs[k].id == id && Listed(gs[k], ms[k], group, sc.model) > 0 && Usable(sc, id)
  {
    UsableIsEligible(sc, id);
    CountIn(tiers[i], id);
    k :| 0 <= k < |cs| && cs[k].id == id;
    hide Eligible, Usable, Listed, Count, NoneEligible;
    assert cs[k].priority == ps[i];
    forall j | 0 <= j < |cs| && Listed(gs[j], ms[j], group, sc.model) > 0 && Usable(sc, cs[j].id)
      ensures cs[j].priority <= cs[k].priority
    {
      var t := UsableStands(cs, gs, ms, sc, group, tiers, ps, j);
      assert t >= i;
    }
  }
}
