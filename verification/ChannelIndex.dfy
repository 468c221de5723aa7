/**
 * The index `Load` builds from the enabled channel rows (model/balancer.go): channel ids by group,
 * model and priority.
 */
module ChannelIndex {
  import opened Basics

  /** A channel row with its group and model lists already split. */
  datatype Row = Row(id: int, groups: seq<string>, models: seq<string>, priority: int)

  /** Channel ids of a group's model, best priority first. */
  type Tiers = seq<seq<int>>

  // ----- Every (group, model) pair a row lists

  /** One pass of the innermost loop of `Load`. */
  datatype Entry = Entry(group: string, model: string, priority: int, id: int)

  function ModelEntries(c: Row, group: string, models: seq<string>): seq<Entry> {
    if models == [] then []
    else [Entry(group, models[0], c.priority, c.id)] + ModelEntries(c, group, models[1..])
  }

  function GroupEntries(c: Row, groups: seq<string>, models: seq<string>): seq<Entry> {
    if groups == [] then [] else ModelEntries(c, groups[0], models) + GroupEntries(c, groups[1..], models)
  }

  function RowEntries(c: Row): seq<Entry> {
    GroupEntries(c, c.groups, c.models)
  }

  function AllEntries(rows: seq<Row>): seq<Entry> {
    if rows == [] then [] else RowEntries(rows[0]) + AllEntries(rows[1..])
  }

  /** `channelGroups`: ids per (group, model) and priority. */
  type Buckets = map<(string, string), map<int, seq<int>>>

  function AddEntry(b: Buckets, e: Entry): Buckets {
    var byPriority := if (e.group, e.model) in b then b[(e.group, e.model)] else map[];
    var ids := if e.priority in byPriority then byPriority[e.priority] else [];
    b[(e.group, e.model) := byPriority[e.priority := ids + [e.id]]]
  }

  predicate IsWildcard(model: string) {
    model != "" && model[|model| - 1] == '*'
  }

  /** Group memberships per model. */
  type ModelGroups = map<string, map<string, bool>>

  function AddGroup(m: ModelGroups, model: string, group: string): ModelGroups {
    m[model := (if model in m then m[model] else map[])[group := true]]
  }

  /** The maps `Load` fills while it goes over the rows. */
  datatype Draft = Draft(buckets: Buckets, wild: set<string>, modelGroup: ModelGroups)

  function AddToDraft(d: Draft, e: Entry): Draft {
    Draft(AddEntry(d.buckets, e), if IsWildcard(e.model) then d.wild + {e.model} else d.wild,
          AddGroup(d.modelGroup, e.model, e.group))
  }

  function AddAll(d: Draft, entries: seq<Entry>): Draft
    decreases |entries|
  {
    if entries == [] then d else AddAll(AddToDraft(d, entries[0]), entries[1..])
  }

  const EMPTY_DRAFT: Draft := Draft(map[], {}, map[])

  lemma {:induction false} AddAllConcat(d: Draft, a: seq<Entry>, b: seq<Entry>)
    ensures AddAll(d, a + b) == AddAll(AddAll(d, a), b)
    decreases |a|
  {
    if a == [] {
      assert a + b == b;
    } else {
      TailOfConcat(a, b);
      AddAllConcat(AddToDraft(d, a[0]), a[1..], b);
    }
  }

  // ----- Priorities, best first

  ghost predicate Descending(ps: seq<int>) {
    forall i, j :: 0 <= i < j < |ps| ==> ps[i] > ps[j]
  }

  /** `tiers` are the map's lists, by strictly decreasing priority. */
  ghost predicate AreTiersOf(tiers: Tiers, byPriority: map<int, seq<int>>, ps: seq<int>) {
    && Descending(ps) && (forall p :: p in ps <==> p in byPriority)
    && |tiers| == |ps| && forall i :: 0 <= i < |ps| ==> tiers[i] == byPriority[ps[i]]
  }

  /** sort.Slice on the priorities of one bucket, and the lists in that order. */
  method SortTiers(byPriority: map<int, seq<int>>) returns (tiers: Tiers)
    ensures TiersFor(tiers, byPriority)
  {
    var left := byPriority.Keys;
    tiers := [];
    ghost var ps: seq<int> := [];
    while left != {}
      invariant left <= byPriority.Keys
      invariant Descending(ps) && (forall p :: p in ps <==> p in byPriority && p !in left)
      invariant forall i :: 0 <= i < |ps| ==> ps[i] in byPriority
      invariant forall p, q :: p in ps && q in left ==> p > q
      invariant |tiers| == |ps| && forall i :: 0 <= i < |ps| ==> tiers[i] == byPriority[ps[i]]
      decreases left
    {
      var best := Best(left);
      tiers, ps := tiers + [byPriority[best]], ps + [best];
      left := left - {best};
    }
    assert AreTiersOf(tiers, byPriority, ps);
  }

  method Best(keys: set<int>) returns (best: int)
    requires keys != {}
    ensures best in keys && forall k :: k in keys ==> k <= best
  {
    SomeMember(keys);
    best :| best in keys;
    var left := keys - {best};
    while left != {}
      invariant left <= keys && best in keys && forall k :: k in keys ==> k in left || k <= best
      decreases left
    {
      SomeMember(left);
      var k :| k in left;
      if k > best {
        best := k;
      }
      left := left - {k};
    }
  }

  lemma SomeMember(keys: set<int>)
    ensures keys == {} || exists k :: k in keys
  {
    if forall k :: k !in keys {
      assert keys == {};
    }
  }

  // ----- The loops over one row

  /** The body of the innermost loop. */
  method AddPair(c: Row, group: string, model: string, d: Draft) returns (d': Draft)
    ensures d' == AddToDraft(d, Entry(group, model, c.priority, c.id))
  {
    var buckets, wild, modelGroup := d.buckets, d.wild, d.modelGroup;
    if (group, model) !in buckets {
      buckets := buckets[(group, model) := map[]];
    }
    var byPriority := buckets[(group, model)];
    var ids := if c.priority in byPriority then byPriority[c.priority] else [];
    buckets := buckets[(group, model) := byPriority[c.priority := ids + [c.id]]];
    if IsWildcard(model) {
      wild := wild + {model};
    }
    if model !in modelGroup {
      modelGroup := modelGroup[model := map[]];
    }
    modelGroup := modelGroup[model := modelGroup[model][group := true]];
    d' := Draft(buckets, wild, modelGroup);
  }

  method AddModels(c: Row, group: string, models: seq<string>, d: Draft) returns (d': Draft)
    ensures d' == AddAll(d, ModelEntries(c, group, models))
  {
    d' := d;
    for j := 0 to |models|
      invariant AddAll(d', ModelEntries(c, group, models[j..])) == AddAll(d, ModelEntries(c, group, models))
    {
      assert models[j..][1..] == models[j + 1..];
      assert ModelEntries(c, group, models[j..])[1..] == ModelEntries(c, group, models[j + 1..]);
      d' := AddPair(c, group, models[j], d');
    }
  }

  method AddGroups(c: Row, d: Draft) returns (d': Draft)
    ensures d' == AddAll(d, RowEntries(c))
  {
    d' := d;
    for i := 0 to |c.groups|
      invariant AddAll(d', GroupEntries(c, c.groups[i..], c.models)) == AddAll(d, GroupEntries(c, c.groups, c.models))
    {
      assert c.groups[i..][1..] == c.groups[i + 1..];
      AddAllConcat(d', ModelEntries(c, c.groups[i], c.models), GroupEntries(c, c.groups[i + 1..], c.models));
      d' := AddModels(c, c.groups[i], c.models, d');
    }
  }

  // ----- What the buckets hold

  function OwnId(e: Entry, group: string, model: string, priority: int): seq<int> {
    if e.group == group && e.model == model && e.priority == priority then [e.id] else []
  }

  /** The ids entries give for a group, model and priority, in row order. */
  function IdsOf(entries: seq<Entry>, group: string, model: string, priority: int): seq<int> {
    if entries == [] then [] else OwnId(entries[0], group, model, priority) + IdsOf(entries[1..], group, model, priority)
  }

  function Held(b: Buckets, group: string, model: string, priority: int): seq<int> {
    if (group, model) in b && priority in b[(group, model)] then b[(group, model)][priority] else []
  }

  /** No bucket and no list in it is empty. */
  ghost predicate NoEmptyLists(b: Buckets) {
    forall key :: key in b ==> b[key] != map[] && forall p :: p in b[key] ==> b[key][p] != []
  }

  lemma AddEntryHolds(b: Buckets, e: Entry, group: string, model: string, priority: int)
    ensures Held(AddEntry(b, e), group, model, priority) == Held(b, group, model, priority) + OwnId(e, group, model, priority)
  {
    if e.group == group && e.model == model {
    } else {
      assert (group, model) != (e.group, e.model);
    }
  }

  lemma {:induction false} AddAllHolds(d: Draft, entries: seq<Entry>, group: string, model: string, priority: int)
    ensures Held(AddAll(d, entries).buckets, group, model, priority)
         == Held(d.buckets, group, model, priority) + IdsOf(entries, group, model, priority)
    decreases |entries|
  {
    if entries != [] {
      var e := entries[0];
      AddEntryHolds(d.buckets, e, group, model, priority);
      AddAllHolds(AddToDraft(d, e), entries[1..], group, model, priority);
      var held, now := Held(d.buckets, group, model, priority), OwnId(e, group, model, priority);
      var rest := IdsOf(entries[1..], group, model, priority);
      Assoc(held, now, rest);
    }
  }

  lemma {:induction false} AddAllNoEmpty(d: Draft, entries: seq<Entry>)
    requires NoEmptyLists(d.buckets)
    ensures NoEmptyLists(AddAll(d, entries).buckets)
    decreases |entries|
  {
    if entries != [] {
      AddAllNoEmpty(AddToDraft(d, entries[0]), entries[1..]);
    }
  }

  /** Only true is ever stored for a model's group. */
  ghost predicate AllTrue(groups: ModelGroups) {
    forall m, g :: m in groups && g in groups[m] ==> groups[m][g]
  }

  lemma {:induction false} AddAllTrue(d: Draft, entries: seq<Entry>)
    requires AllTrue(d.modelGroup)
    ensures AllTrue(AddAll(d, entries).modelGroup)
    decreases |entries|
  {
    if entries != [] {
      AddAllTrue(AddToDraft(d, entries[0]), entries[1..]);
    }
  }

  ghost predicate Pair(entries: seq<Entry>, group: string, model: string) {
    exists i :: 0 <= i < |entries| && entries[i].group == group && entries[i].model == model
  }

  lemma PairStep(entries: seq<Entry>, group: string, model: string)
    requires entries != []
    ensures Pair(entries, group, model)
       <==> (entries[0].group == group && entries[0].model == model) || Pair(entries[1..], group, model)
  {
    if Pair(entries[1..], group, model) {
      var i :| 0 <= i < |entries[1..]| && entries[1..][i].group == group && entries[1..][i].model == model;
      assert entries[i + 1] == entries[1..][i];
    }
    if Pair(entries, group, model) {
      var i :| 0 <= i < |entries| && entries[i].group == group && entries[i].model == model;
      assert i > 0 ==> entries[1..][i - 1] == entries[i];
    }
  }

  /** The pairs, the wildcard models and the model groups all come from the entries, and from nothing else. */
  lemma {:induction false} AddAllPairs(d: Draft, entries: seq<Entry>, group: string, model: string)
    ensures var d' := AddAll(d, entries);
      && ((group, model) in d'.buckets <==> (group, model) in d.buckets || Pair(entries, group, model))
      && (model in d'.modelGroup && group in d'.modelGroup[model]
          <==> (model in d.modelGroup && group in d.modelGroup[model]) || Pair(entries, group, model))
      && (model in d'.wild <==> model in d.wild || (IsWildcard(model) && exists g :: Pair(entries, g, model)))
    decreases |entries|
  {
    if entries != [] {
      var e := entries[0];
      AddAllPairs(AddToDraft(d, e), entries[1..], group, model);
      PairStep(entries, group, model);
      forall g ensures Pair(entries, g, model) <==> (e.group == g && e.model == model) || Pair(entries[1..], g, model) {
        PairStep(entries, g, model);
      }
      if e.model == model {
        assert Pair(entries, e.group, model);
      }
    }
  }

  // ----- The rule map

  ghost predicate HasRule(rule: map<string, map<string, Tiers>>, group: string, model: string) {
    group in rule && model in rule[group]
  }

  ghost predicate TiersFor(tiers: Tiers, byPriority: map<int, seq<int>>) {
    exists ps :: AreTiersOf(tiers, byPriority, ps)
  }

  /** The last loop of `Load`: one list of tiers per bucket. */
  method BuildRule(buckets: Buckets) returns (rule: map<string, map<string, Tiers>>)
    ensures RuleOf(rule, buckets)
  {
    rule := map[];
    var keys := buckets.Keys;
    while keys != {}
      invariant keys <= buckets.Keys
      invariant forall g, m :: HasRule(rule, g, m) <==> (g, m) in buckets && (g, m) !in keys
      invariant forall g, m :: HasRule(rule, g, m) ==> TiersFor(rule[g][m], buckets[(g, m)])
      decreases keys
    {
      var key :| key in keys;
      var (group, model) := key;
      if group !in rule {
        rule := rule[group := map[]];
      }
      var tiers := SortTiers(buckets[key]);
      ghost var before := rule;
      rule := rule[group := rule[group][model := tiers]];
      assert forall g, m :: HasRule(rule, g, m) <==> HasRule(before, g, m) || (g, m) == key;
      keys := keys - {key};
    }
  }

  /** What `Load` makes of the enabled rows. */
  ghost predicate IndexOf(rows: seq<Row>, rule: map<string, map<string, Tiers>>, wildcards: seq<string>, modelGroup: ModelGroups) {
    var d := AddAll(EMPTY_DRAFT, AllEntries(rows));
    RuleOf(rule, d.buckets) && modelGroup == d.modelGroup && SameNames(wildcards, d.wild)
  }

  /** The rule has a model for a group exactly when there is a bucket, with the bucket's tiers. */
  ghost predicate RuleOf(rule: map<string, map<string, Tiers>>, buckets: Buckets) {
    && (forall g, m :: HasRule(rule, g, m) <==> (g, m) in buckets)
    && (forall g, m :: HasRule(rule, g, m) ==> TiersFor(rule[g][m], buckets[(g, m)]))
  }

  ghost predicate SameNames(list: seq<string>, names: set<string>) {
    forall n :: n in list <==> n in names
  }

  // ----- The index in terms of the rows

  function Count<T(==)>(s: seq<T>, x: T): nat {
    if s == [] then 0 else (if s[0] == x then 1 else 0) + Count(s[1..], x)
  }

  lemma {:induction false} CountConcat<T>(a: seq<T>, b: seq<T>, x: T)
    ensures Count(a + b, x) == Count(a, x) + Count(b, x)
  {
    if a == [] {
      assert a + b == b;
    } else {
      TailOfConcat(a, b);
      CountConcat(a[1..], b, x);
    }
  }

  lemma {:induction false} IdsConcat(a: seq<Entry>, b: seq<Entry>, group: string, model: string, priority: int)
    ensures IdsOf(a + b, group, model, priority) == IdsOf(a, group, model, priority) + IdsOf(b, group, model, priority)
  {
    if a == [] {
      assert a + b == b;
    } else {
      IdsConcat(a[1..], b, group, model, priority);
      var now, rest := OwnId(a[0], group, model, priority), IdsOf(a[1..], group, model, priority);
      var later := IdsOf(b, group, model, priority);
      TailOfConcat(a, b);
      Assoc(now, rest, later);
    }
  }

  /** How often a row lists the group times how often it lists the model. */
  function Listings(c: Row, group: string, model: string): nat {
    Count(c.groups, group) * Count(c.models, model)
  }

  /** The same over the rows of one id and priority. */
  function RowListings(rows: seq<Row>, group: string, model: string, priority: int, id: int): nat {
    if rows == [] then 0
    else
      (if rows[0].priority == priority && rows[0].id == id then Listings(rows[0], group, model) else 0)
      + RowListings(rows[1..], group, model, priority, id)
  }

  lemma {:induction false} CountModels(c: Row, g: string, models: seq<string>, group: string, model: string, priority: int, id: int)
    ensures Count(IdsOf(ModelEntries(c, g, models), group, model, priority), id)
      == if g == group && c.priority == priority && c.id == id then Count(models, model) else 0
  {
    if models != [] {
      var entries := ModelEntries(c, g, models);
      assert entries[1..] == ModelEntries(c, g, models[1..]);
      CountModels(c, g, models[1..], group, model, priority, id);
      CountConcat(if g == group && models[0] == model && c.priority == priority then [c.id] else [],
                  IdsOf(entries[1..], group, model, priority), id);
    }
  }

  lemma {:induction false} CountGroups(c: Row, groups: seq<string>, models: seq<string>, group: string, model: string, priority: int, id: int)
    ensures Count(IdsOf(GroupEntries(c, groups, models), group, model, priority), id)
      == if c.priority == priority && c.id == id then Count(groups, group) * Count(models, model) else 0
  {
    if groups != [] {
      var now, later := ModelEntries(c, groups[0], models), GroupEntries(c, groups[1..], models);
      CountModels(c, groups[0], models, group, model, priority, id);
      CountGroups(c, groups[1..], models, group, model, priority, id);
      IdsConcat(now, later, group, model, priority);
      CountConcat(IdsOf(now, group, model, priority), IdsOf(later, group, model, priority), id);
      CountTimes(groups, group, Count(models, model));
    }
  }

  lemma CountTimes(groups: seq<string>, group: string, k: nat)
    requires groups != []
    ensures Count(groups, group) * k == (if groups[0] == group then k else 0) + Count(groups[1..], group) * k
  {
    var n := Count(groups[1..], group);
    assert (1 + n) * k == k + n * k;
  }

  lemma {:induction false} CountRows(rows: seq<Row>, group: string, model: string, priority: int, id: int)
    ensures Count(IdsOf(AllEntries(rows), group, model, priority), id) == RowListings(rows, group, model, priority, id)
  {
    if rows != [] {
      var now, later := RowEntries(rows[0]), AllEntries(rows[1..]);
      CountGroups(rows[0], rows[0].groups, rows[0].models, group, model, priority, id);
      CountRows(rows[1..], group, model, priority, id);
      IdsConcat(now, later, group, model, priority);
      CountConcat(IdsOf(now, group, model, priority), IdsOf(later, group, model, priority), id);
    }
  }

  ghost predicate DistinctIds(rows: seq<Row>) {
    forall i, j :: 0 <= i < j < |rows| ==> rows[i].id != rows[j].id
  }

  lemma {:induction false} OneRowListings(rows: seq<Row>, k: nat, group: string, model: string, priority: int)
    requires DistinctIds(rows) && k < |rows|
    ensures RowListings(rows, group, model, priority, rows[k].id)
      == if rows[k].priority == priority then Listings(rows[k], group, model) else 0
  {
    if k > 0 {
      OneRowListings(rows[1..], k - 1, group, model, priority);
    } else {
      NoRowListings(rows[1..], group, model, priority, rows[0].id);
    }
  }

  lemma {:induction false} NoRowListings(rows: seq<Row>, group: string, model: string, priority: int, id: int)
    requires forall c :: c in rows ==> c.id != id
    ensures RowListings(rows, group, model, priority, id) == 0
  {
    if rows != [] {
      assert rows[0] in rows;
      NoRowListings(rows[1..], group, model, priority, id);
    }
  }

  lemma HeldCount(rows: seq<Row>, group: string, model: string, priority: int, id: int)
    ensures Count(Held(AddAll(EMPTY_DRAFT, AllEntries(rows)).buckets, group, model, priority), id)
      == RowListings(rows, group, model, priority, id)
  {
    var entries := AllEntries(rows);
    AddAllHolds(EMPTY_DRAFT, entries, group, model, priority);
    assert [] + IdsOf(entries, group, model, priority) == IdsOf(entries, group, model, priority);
    CountRows(rows, group, model, priority, id);
  }

  /**
   * The tiers of a group's model have strictly decreasing priorities and none is empty. An id occurs in a tier once
   * per listing by the rows of that id and priority, and a priority without a tier has no listings at all.
   */
  lemma TiersAreCorrect(rows: seq<Row>, rule: map<string, map<string, Tiers>>, wildcards: seq<string>,
                        modelGroup: ModelGroups, group: string, model: string) returns (ps: seq<int>)
    requires IndexOf(rows, rule, wildcards, modelGroup) && HasRule(rule, group, model)
    ensures var tiers := rule[group][model];
      && tiers != [] && |ps| == |tiers| && Descending(ps)
      && (forall i :: 0 <= i < |tiers| ==> tiers[i] != [])
      && (forall i, id :: 0 <= i < |tiers| ==> Count(tiers[i], id) == RowListings(rows, group, model, ps[i], id))
      && (forall p, id :: p !in ps ==> RowListings(rows, group, model, p, id) == 0)
  {
    var entries, tiers := AllEntries(rows), rule[group][model];
    var b := AddAll(EMPTY_DRAFT, entries).buckets;
    ps :| AreTiersOf(tiers, b[(group, model)], ps);
    AddAllNoEmpty(EMPTY_DRAFT, entries);
    SomeTier(tiers, b[(group, model)], ps);
    forall i | 0 <= i < |tiers| ensures tiers[i] != [] {
      assert ps[i] in ps;
    }
    forall i, id | 0 <= i < |tiers| ensures Count(tiers[i], id) == RowListings(rows, group, model, ps[i], id) {
      assert ps[i] in ps && tiers[i] == Held(b, group, model, ps[i]);
      HeldCount(rows, group, model, ps[i], id);
    }
    forall p, id | p !in ps ensures RowListings(rows, group, model, p, id) == 0 {
      HeldCount(rows, group, model, p, id);
    }
  }

  /**
   * With one row per id: a channel stands in the tier of its own priority, once per listing of the group times
   * listings of the model, and in no other tier; an id without a row stands in none.
   */
  lemma ChannelStandsInItsTier(rows: seq<Row>, rule: map<string, map<string, Tiers>>, wildcards: seq<string>,
                               modelGroup: ModelGroups, group: string, model: string) returns (ps: seq<int>)
    requires IndexOf(rows, rule, wildcards, modelGroup) && HasRule(rule, group, model) && DistinctIds(rows)
    ensures var tiers := rule[group][model];
      && |ps| == |tiers| && Descending(ps)
      && (forall i, k :: 0 <= i < |tiers| && 0 <= k < |rows| ==>
            Count(tiers[i], rows[k].id) == if rows[k].priority == ps[i] then Listings(rows[k], group, model) else 0)
      && (forall k :: 0 <= k < |rows| && Listings(rows[k], group, model) > 0 ==> rows[k].priority in ps)
      && (forall i, id :: 0 <= i < |tiers| && (forall c :: c in rows ==> c.id != id) ==> Count(tiers[i], id) == 0)
  {
    ps := TiersAreCorrect(rows, rule, wildcards, modelGroup, group, model);
    forall p, k | 0 <= k < |rows|
      ensures RowListings(rows, group, model, p, rows[k].id)
        == if rows[k].priority == p then Listings(rows[k], group, model) else 0
    {
      OneRowListings(rows, k, group, model, p);
    }
    forall k | 0 <= k < |rows| && Listings(rows[k], group, model) > 0 ensures rows[k].priority in ps {
      assert RowListings(rows, group, model, rows[k].priority, rows[k].id) > 0;
    }
    forall p, id | forall c :: c in rows ==> c.id != id ensures RowListings(rows, group, model, p, id) == 0 {
      NoRowListings(rows, group, model, p, id);
    }
  }

  lemma SomeTier(tiers: Tiers, byPriority: map<int, seq<int>>, ps: seq<int>)
    requires AreTiersOf(tiers, byPriority, ps)
    ensures ps == [] <==> byPriority == map[]
  {
    if ps == [] {
      assert forall p :: p !in byPriority;
    } else {
      assert ps[0] in ps;
    }
  }

  ghost predicate Lists(c: Row, group: string, model: string) {
    group in c.groups && model in c.models
  }

  lemma {:induction false} ModelPair(c: Row, g: string, models: seq<string>, group: string, model: string)
    ensures Pair(ModelEntries(c, g, models), group, model) <==> g == group && model in models
  {
    if models != [] {
      PairStep(ModelEntries(c, g, models), group, model);
      assert ModelEntries(c, g, models)[1..] == ModelEntries(c, g, models[1..]);
      ModelPair(c, g, models[1..], group, model);
    }
  }

  lemma PairConcat(a: seq<Entry>, b: seq<Entry>, group: string, model: string)
    ensures Pair(a + b, group, model) <==> Pair(a, group, model) || Pair(b, group, model)
  {
    if Pair(b, group, model) {
      var i :| 0 <= i < |b| && b[i].group == group && b[i].model == model;
      assert (a + b)[|a| + i] == b[i];
    }
    if Pair(a, group, model) {
      var i :| 0 <= i < |a| && a[i].group == group && a[i].model == model;
      assert (a + b)[i] == a[i];
    }
  }

  lemma {:induction false} GroupPair(c: Row, groups: seq<string>, models: seq<string>, group: string, model: string)
    ensures Pair(GroupEntries(c, groups, models), group, model) <==> group in groups && model in models
  {
    if groups != [] {
      PairConcat(ModelEntries(c, groups[0], models), GroupEntries(c, groups[1..], models), group, model);
      ModelPair(c, groups[0], models, group, model);
      GroupPair(c, groups[1..], models, group, model);
    }
  }

  ghost predicate SomeRowLists(rows: seq<Row>, group: string, model: string) {
    exists i :: 0 <= i < |rows| && Lists(rows[i], group, model)
  }

  lemma RowStep(rows: seq<Row>, group: string, model: string)
    requires rows != []
    ensures SomeRowLists(rows, group, model) <==> Lists(rows[0], group, model) || SomeRowLists(rows[1..], group, model)
  {
    if SomeRowLists(rows[1..], group, model) {
      var i :| 0 <= i < |rows[1..]| && Lists(rows[1..][i], group, model);
      assert Lists(rows[i + 1], group, model);
    }
    if SomeRowLists(rows, group, model) {
      var i :| 0 <= i < |rows| && Lists(rows[i], group, model);
      assert i > 0 ==> Lists(rows[1..][i - 1], group, model);
    }
  }

  lemma {:induction false} RowPair(rows: seq<Row>, group: string, model: string)
    ensures Pair(AllEntries(rows), group, model) <==> SomeRowLists(rows, group, model)
  {
    if rows != [] {
      PairConcat(RowEntries(rows[0]), AllEntries(rows[1..]), group, model);
      GroupPair(rows[0], rows[0].groups, rows[0].models, group, model);
      RowPair(rows[1..], group, model);
      RowStep(rows, group, model);
    }
  }

  /**
   * A group has a model in `Rule`, and the model the group in `ModelGroup`, exactly when some row lists both;
   * `Match` holds exactly the listed models that end in an asterisk.
   */
  lemma IndexIsCorrect(rows: seq<Row>, rule: map<string, map<string, Tiers>>, wildcards: seq<string>,
                       modelGroup: ModelGroups, group: string, model: string)
    requires IndexOf(rows, rule, wildcards, modelGroup)
    ensures HasRule(rule, group, model) <==> SomeRowLists(rows, group, model)
    ensures HasRule(rule, group, model) <==> model in modelGroup && group in modelGroup[model]
    ensures HasRule(rule, group, model) ==> modelGroup[model][group]
    ensures model in wildcards <==> IsWildcard(model) && exists g :: SomeRowLists(rows, g, model)
  {
    var entries := AllEntries(rows);
    AddAllTrue(EMPTY_DRAFT, entries);
    AddAllPairs(EMPTY_DRAFT, entries, group, model);
    forall g ensures Pair(entries, g, model) <==> SomeRowLists(rows, g, model) {
      RowPair(rows, g, model);
    }
  }
}
