/** The browser's plugin registry (web/src/plugins/registry.ts): installing plugins, and following what the cluster serves. */
module PluginRegistry {
  import opened Text

  /** The lists a plugin contributes to. */
  datatype Slot = Kinds | Panels | Actions | TreeViews | CreateItems | Settings

  const SLOTS: set<Slot> := {Kinds, Panels, Actions, TreeViews, CreateItems, Settings}

  datatype Contribution = Contribution(slot: Slot, kind: string, id: string)

  datatype Item = Item(kind: string, id: string, plugin: string)

  datatype Plugin = Plugin(id: string, requires_: seq<string>, contributes: seq<Contribution>)

  datatype Error = Missing(specs: seq<string>) | Threw(message: string)

  datatype Entry = Entry(plugin: Plugin, active: bool, error: Option<Error>)

  datatype Registry = Registry(plugins: seq<Entry>, lists: map<Slot, seq<Item>>)

  const EMPTY := Registry([], map slot | slot in SLOTS :: [])

  /** Panels and actions are told apart by kind and id, the rest by id. */
  predicate Same(slot: Slot, a: Item, b: Item)
  {
    a.id == b.id && ((slot.Panels? || slot.Actions?) ==> a.kind == b.kind)
  }

  predicate Total(r: Registry)
  {
    r.lists.Keys == SLOTS
  }

  lemma SlotsAreAll(slot: Slot)
    ensures slot in SLOTS
  {
  }

  /** `apiFor`: a contribution replaces the one it is the same as. */
  function Replace(slot: Slot, list: seq<Item>, item: Item): seq<Item>
  {
    Filter(other => !Same(slot, other, item), list) + [item]
  }

  function Contribute(lists: map<Slot, seq<Item>>, plugin: string, c: Contribution): (more: map<Slot, seq<Item>>)
    requires lists.Keys == SLOTS
    ensures more.Keys == SLOTS
  {
    SlotsAreAll(c.slot);
    var more := lists[c.slot := Replace(c.slot, lists[c.slot], Item(c.kind, c.id, plugin))];
    assert more.Keys == lists.Keys + {c.slot};
    more
  }

  function ContributeAll(lists: map<Slot, seq<Item>>, plugin: string, cs: seq<Contribution>): (all: map<Slot, seq<Item>>)
    requires lists.Keys == SLOTS
    ensures all.Keys == SLOTS
  {
    if cs == [] then lists else Contribute(ContributeAll(lists, plugin, cs[..|cs| - 1]), plugin, cs[|cs| - 1])
  }

  /** `withdraw` */
  function Withdraw(lists: map<Slot, seq<Item>>, plugin: string): (left: map<Slot, seq<Item>>)
    requires lists.Keys == SLOTS
    ensures left.Keys == SLOTS
  {
    var kept := map slot | slot in lists :: Filter((item: Item) => item.plugin != plugin, lists[slot]);
    assert kept.Keys == lists.Keys;
    kept
  }

  function Lacking(plugin: Plugin, has: string -> bool): seq<string>
  {
    Filter(spec => !has(spec), plugin.requires_)
  }

  /** How a plugin's `setup` goes: after so many contributions it may throw. */
  datatype Setup = Completes | Throws(after: nat, message: string)

  function Min(a: nat, b: nat): nat { if a < b then a else b }

  /** `activate`, for the plugin at place `k`. */
  function Activate(r: Registry, k: nat, has: string -> bool, setup: string -> Setup): (n: Registry)
    requires k < |r.plugins| && Total(r)
    ensures Total(n) && |n.plugins| == |r.plugins|
  {
    var entry := r.plugins[k];
    var id, lacking := entry.plugin.id, Lacking(entry.plugin, has);
    if lacking != [] then r.(plugins := r.plugins[k := entry.(active := false, error := Some(Missing(lacking)))])
    else match setup(id)
    case Completes =>
      Registry(r.plugins[k := entry.(active := true, error := None)], ContributeAll(r.lists, id, entry.plugin.contributes))
    case Throws(after, message) =>
      var some := entry.plugin.contributes[..Min(after, |entry.plugin.contributes|)];
      Registry(r.plugins[k := entry.(active := false, error := Some(Threw(message)))],
               Withdraw(ContributeAll(r.lists, id, some), id))
  }

  function Deactivate(r: Registry, k: nat, lacking: seq<string>): (n: Registry)
    requires k < |r.plugins| && Total(r)
    ensures Total(n) && |n.plugins| == |r.plugins|
  {
    var entry := r.plugins[k];
    Registry(r.plugins[k := entry.(active := false, error := Some(Missing(lacking)))], Withdraw(r.lists, entry.plugin.id))
  }

  const LACKS := "cluster lacks"

  /** `error?.startsWith('cluster lacks')` */
  predicate LooksMissing(error: Option<Error>)
  {
    match error
    case None => false
    case Some(Missing(_)) => true
    case Some(Threw(message)) => StartsWith(message, LACKS)
  }

  function PlaceOf(plugins: seq<Entry>, id: string): Option<nat>
  {
    if plugins == [] then None
    else if plugins[0].plugin.id == id then Some(0)
    else match PlaceOf(plugins[1..], id) case None => None case Some(k) => Some(k + 1)
  }

  /** `install` */
  function Install(r: Registry, plugin: Plugin, has: string -> bool, setup: string -> Setup): Registry
    requires Total(r)
  {
    if exists entry | entry in r.plugins :: entry.plugin.id == plugin.id && entry.active then r else
    var others := Filter((entry: Entry) => entry.plugin.id != plugin.id, r.plugins);
    Activate(r.(plugins := others + [Entry(plugin, false, None)]), |others|, has, setup)
  }

  /** One turn of `syncPlugins`. */
  function SyncOne(r: Registry, k: nat, has: string -> bool, setup: string -> Setup): (n: Registry)
    requires k < |r.plugins| && Total(r)
    ensures Total(n) && |n.plugins| == |r.plugins|
  {
    var entry := r.plugins[k];
    var lacking := Lacking(entry.plugin, has);
    if entry.active && lacking != [] then Deactivate(r, k, lacking)
    else if !entry.active && lacking == [] && LooksMissing(entry.error) then Activate(r, k, has, setup)
    else r
  }

  /** A loop over places 0 to k. */
  function Iterate<S>(step: (S, nat) -> S, s: S, k: nat): S
  {
    if k == 0 then s else step(Iterate(step, s, k - 1), k - 1)
  }

  function Turn(has: string -> bool, setup: string -> Setup): (Registry, nat) -> Registry
  {
    (r: Registry, k: nat) => if k < |r.plugins| && Total(r) then SyncOne(r, k, has, setup) else r
  }

  function Sync(r: Registry, has: string -> bool, setup: string -> Setup): Registry
  {
    Iterate(Turn(has, setup), r, |r.plugins|)
  }

  // ---- At rest ----

  predicate IsActive(plugins: seq<Entry>, id: string)
  {
    exists k | 0 <= k < |plugins| :: plugins[k].active && plugins[k].plugin.id == id
  }

  predicate UniqueIn(slot: Slot, list: seq<Item>)
  {
    forall i, j | 0 <= i < j < |list| :: !Same(slot, list[i], list[j])
  }

  predicate OnlyActive(plugins: seq<Entry>, list: seq<Item>)
  {
    forall item: Item | item in list :: IsActive(plugins, item.plugin)
  }

  predicate UniquePlugins(plugins: seq<Entry>)
  {
    forall i, j | 0 <= i < j < |plugins| :: plugins[i].plugin.id != plugins[j].plugin.id
  }

  predicate AtRest(r: Registry)
  {
    Total(r) && EntriesOk(r.plugins) && ListsOk(r.plugins, r.lists)
  }

  lemma {:induction false} FilterUnique(slot: Slot, p: Item -> bool, list: seq<Item>)
    requires UniqueIn(slot, list)
    ensures UniqueIn(slot, Filter(p, list))
  {
    if list != [] {
      var rest := list[1..];
      FilterUnique(slot, p, rest);
      FilterMembers(p, rest);
      if p(list[0]) {
        var kept := Filter(p, list);
        forall i, j | 0 <= i < j < |kept| ensures !Same(slot, kept[i], kept[j]) {
          if i == 0 {
            var item := Filter(p, rest)[j - 1];
            assert item in Filter(p, rest) && item in rest;
          }
        }
      }
    }
  }

  lemma ReplaceUnique(slot: Slot, list: seq<Item>, item: Item)
    requires UniqueIn(slot, list)
    ensures UniqueIn(slot, Replace(slot, list, item))
    ensures forall other | other in Replace(slot, list, item) :: other == item || other in list
  {
    var p := (other: Item) => !Same(slot, other, item);
    FilterUnique(slot, p, list);
    FilterMembers(p, list);
    var kept := Filter(p, list);
    forall i | 0 <= i < |kept| ensures !Same(slot, kept[i], item) { assert kept[i] in kept; }
  }

  predicate AllUnique(lists: map<Slot, seq<Item>>)
  {
    forall slot | slot in lists :: UniqueIn(slot, lists[slot])
  }

  /** Each item is this plugin's, or an active one's. */
  predicate Owned(plugins: seq<Entry>, id: string, lists: map<Slot, seq<Item>>)
  {
    forall slot | slot in lists :: forall item: Item | item in lists[slot] :: item.plugin == id || IsActive(plugins, item.plugin)
  }

  lemma {:induction false} ContributeAllOwned(plugins: seq<Entry>, lists: map<Slot, seq<Item>>, id: string, cs: seq<Contribution>)
    requires lists.Keys == SLOTS && AllUnique(lists) && Owned(plugins, id, lists)
    ensures AllUnique(ContributeAll(lists, id, cs)) && Owned(plugins, id, ContributeAll(lists, id, cs))
    decreases |cs|
  {
    if cs != [] {
      var c := cs[|cs| - 1];
      var before := ContributeAll(lists, id, cs[..|cs| - 1]);
      ContributeAllOwned(plugins, lists, id, cs[..|cs| - 1]);
      SlotsAreAll(c.slot);
      ReplaceUnique(c.slot, before[c.slot], Item(c.kind, c.id, id));
    }
  }

  lemma WithdrawOwned(plugins: seq<Entry>, lists: map<Slot, seq<Item>>, id: string)
    requires lists.Keys == SLOTS && AllUnique(lists) && Owned(plugins, id, lists)
    ensures AllUnique(Withdraw(lists, id))
    ensures forall slot | slot in Withdraw(lists, id) ::
              forall item: Item | item in Withdraw(lists, id)[slot] :: item.plugin != id && IsActive(plugins, item.plugin)
  {
    var p := (item: Item) => item.plugin != id;
    var left := Withdraw(lists, id);
    forall slot | slot in left
      ensures UniqueIn(slot, left[slot])
      ensures forall item: Item | item in left[slot] :: item.plugin != id && IsActive(plugins, item.plugin)
    {
      FilterUnique(slot, p, lists[slot]);
      FilterMembers(p, lists[slot]);
    }
  }

  predicate ListsOk(plugins: seq<Entry>, lists: map<Slot, seq<Item>>)
  {
    AllUnique(lists) && forall slot | slot in lists :: OnlyActive(plugins, lists[slot])
  }

  /** Changing whether one plugin is active, and no other. */
  lemma OthersActive(plugins: seq<Entry>, k: nat, entry: Entry, id: string)
    requires k < |plugins| && entry.plugin.id == plugins[k].plugin.id
    requires IsActive(plugins, id) && (id != entry.plugin.id || entry.active)
    ensures IsActive(plugins[k := entry], id)
  {
    var i :| 0 <= i < |plugins| && plugins[i].active && plugins[i].plugin.id == id;
    var n := plugins[k := entry];
    if i == k {
      assert n[k].active && n[k].plugin.id == id;
    } else {
      assert n[i].active && n[i].plugin.id == id;
    }
  }

  predicate EntriesOk(plugins: seq<Entry>)
  {
    UniquePlugins(plugins) && forall k | 0 <= k < |plugins| :: plugins[k].active <==> plugins[k].error.None?
  }

  lemma OwnedByActive(plugins: seq<Entry>, k: nat, entry: Entry, lists: map<Slot, seq<Item>>)
    requires k < |plugins| && entry.plugin.id == plugins[k].plugin.id && entry.active
    requires AllUnique(lists) && Owned(plugins, entry.plugin.id, lists)
    ensures ListsOk(plugins[k := entry], lists)
  {
    var n, id := plugins[k := entry], entry.plugin.id;
    assert n[k].active && n[k].plugin.id == id;
    forall slot: Slot, item: Item | slot in lists && item in lists[slot] ensures IsActive(n, item.plugin) {
      if item.plugin != id {
        OthersActive(plugins, k, entry, item.plugin);
      }
    }
  }

  lemma WithdrawnOk(plugins: seq<Entry>, k: nat, entry: Entry, lists: map<Slot, seq<Item>>)
    requires k < |plugins| && entry.plugin.id == plugins[k].plugin.id
    requires lists.Keys == SLOTS && AllUnique(lists) && Owned(plugins, entry.plugin.id, lists)
    ensures ListsOk(plugins[k := entry], Withdraw(lists, entry.plugin.id))
  {
    var left := Withdraw(lists, entry.plugin.id);
    WithdrawOwned(plugins, lists, entry.plugin.id);
    forall slot: Slot, item: Item | slot in left && item in left[slot] ensures IsActive(plugins[k := entry], item.plugin) {
      OthersActive(plugins, k, entry, item.plugin);
    }
  }

  lemma EntryOk(plugins: seq<Entry>, k: nat, entry: Entry)
    requires k < |plugins| && entry.plugin.id == plugins[k].plugin.id && (entry.active <==> entry.error.None?)
    requires UniquePlugins(plugins) && forall i | 0 <= i < |plugins| && i != k :: plugins[i].active <==> plugins[i].error.None?
    ensures EntriesOk(plugins[k := entry])
  {
  }

  /** An inactive plugin that is activated, whether or not that succeeds. */
  lemma ActivateRests(r: Registry, k: nat, has: string -> bool, setup: string -> Setup)
    requires Total(r) && k < |r.plugins| && !r.plugins[k].active
    requires UniquePlugins(r.plugins) && ListsOk(r.plugins, r.lists)
    requires forall i | 0 <= i < |r.plugins| && i != k :: r.plugins[i].active <==> r.plugins[i].error.None?
    ensures AtRest(Activate(r, k, has, setup))
  {
    var entry, n := r.plugins[k], Activate(r, k, has, setup);
    var id, lacking := entry.plugin.id, Lacking(entry.plugin, has);
    EntryOk(r.plugins, k, n.plugins[k]);
    assert n.plugins == r.plugins[k := n.plugins[k]];
    if lacking != [] {
      forall slot: Slot, item: Item | slot in r.lists && item in r.lists[slot] ensures IsActive(n.plugins, item.plugin) {
        StillActive(r.plugins, k, n.plugins[k], item.plugin);
      }
    } else {
      match setup(id)
      case Completes =>
        ContributeAllOwned(r.plugins, r.lists, id, entry.plugin.contributes);
        OwnedByActive(r.plugins, k, n.plugins[k], n.lists);
      case Throws(after, _) =>
        var some := entry.plugin.contributes[..Min(after, |entry.plugin.contributes|)];
        ContributeAllOwned(r.plugins, r.lists, id, some);
        WithdrawnOk(r.plugins, k, n.plugins[k], ContributeAll(r.lists, id, some));
    }
  }

  /** A plugin that was not active leaves the active ones as they are. */
  lemma StillActive(plugins: seq<Entry>, k: nat, entry: Entry, id: string)
    requires k < |plugins| && entry.plugin.id == plugins[k].plugin.id && !plugins[k].active && IsActive(plugins, id)
    ensures IsActive(plugins[k := entry], id)
  {
    var i :| 0 <= i < |plugins| && plugins[i].active && plugins[i].plugin.id == id;
    assert plugins[k := entry][i].active && plugins[k := entry][i].plugin.id == id;
  }

  lemma DeactivateRests(r: Registry, k: nat, lacking: seq<string>)
    requires AtRest(r) && k < |r.plugins|
    ensures AtRest(Deactivate(r, k, lacking))
  {
    var n := Deactivate(r, k, lacking);
    EntryOk(r.plugins, k, n.plugins[k]);
    WithdrawnOk(r.plugins, k, n.plugins[k], r.lists);
  }

  lemma SyncOneRests(r: Registry, k: nat, has: string -> bool, setup: string -> Setup)
    requires AtRest(r) && k < |r.plugins|
    ensures AtRest(SyncOne(r, k, has, setup))
  {
    var entry := r.plugins[k];
    var lacking := Lacking(entry.plugin, has);
    if entry.active && lacking != [] {
      DeactivateRests(r, k, lacking);
    } else if !entry.active && lacking == [] && LooksMissing(entry.error) {
      ActivateRests(r, k, has, setup);
    }
  }

  /** Every requirement of an active plugin is served; an inactive one whose requirements are served failed to set up. */
  predicate InLine(entry: Entry, has: string -> bool)
  {
    var served := forall spec | spec in entry.plugin.requires_ :: has(spec);
    if entry.active then served
    else entry.error.Some? && (served ==> entry.error.value.Threw?)
  }

  lemma {:induction false} LackingIs(plugin: Plugin, has: string -> bool)
    ensures forall spec :: spec in Lacking(plugin, has) <==> spec in plugin.requires_ && !has(spec)
    ensures Lacking(plugin, has) == [] <==> forall spec | spec in plugin.requires_ :: has(spec)
  {
    FilterMembers(spec => !has(spec), plugin.requires_);
    var lacking := Lacking(plugin, has);
    if lacking != [] {
      assert lacking[0] in lacking;
    }
  }

  lemma SyncOneInLine(r: Registry, k: nat, has: string -> bool, setup: string -> Setup)
    requires Total(r) && k < |r.plugins| && (r.plugins[k].active <==> r.plugins[k].error.None?)
    ensures var n := SyncOne(r, k, has, setup);
            && n.plugins == r.plugins[k := n.plugins[k]] && n.plugins[k].plugin == r.plugins[k].plugin
            && InLine(n.plugins[k], has)
  {
    LackingIs(r.plugins[k].plugin, has);
  }

  /** The first `k` plugins are in line, and the rest as they were. */
  predicate SyncedUpTo(r: Registry, n: Registry, k: nat, has: string -> bool)
  {
    && |n.plugins| == |r.plugins| && k <= |n.plugins|
    && (forall i | 0 <= i < k :: InLine(n.plugins[i], has))
    && (forall i | 0 <= i < |n.plugins| :: n.plugins[i].plugin == r.plugins[i].plugin)
    && (forall i | k <= i < |n.plugins| :: n.plugins[i] == r.plugins[i])
  }

  lemma SyncedOneMore(r: Registry, n: Registry, k: nat, has: string -> bool, entry: Entry, m: Registry)
    requires SyncedUpTo(r, n, k, has) && k < |n.plugins|
    requires m.plugins == n.plugins[k := entry] && entry.plugin == n.plugins[k].plugin && InLine(entry, has)
    ensures SyncedUpTo(r, m, k + 1, has)
  {
  }

  lemma {:induction false} IterateKeeps<S(!new)>(step: (S, nat) -> S, s: S, k: nat, ok: (S, nat) -> bool)
    requires ok(s, 0) && forall n, i: nat {:trigger step(n, i)} :: i < k && ok(n, i) ==> ok(step(n, i), i + 1)
    ensures ok(Iterate(step, s, k), k)
  {
    if k > 0 {
      IterateKeeps(step, s, k - 1, ok);
    }
  }

  lemma SyncStep(r: Registry, n: Registry, k: nat, has: string -> bool, setup: string -> Setup)
    requires AtRest(n) && SyncedUpTo(r, n, k, has) && k < |n.plugins|
    ensures AtRest(SyncOne(n, k, has, setup)) && SyncedUpTo(r, SyncOne(n, k, has, setup), k + 1, has)
  {
    SyncOneRests(n, k, has, setup);
    SyncOneInLine(n, k, has, setup);
    SyncedOneMore(r, n, k, has, SyncOne(n, k, has, setup).plugins[k], SyncOne(n, k, has, setup));
  }

  /** After a sync, plugins are in line with what the cluster serves. */
  lemma SyncInLine(r: Registry, has: string -> bool, setup: string -> Setup)
    requires AtRest(r)
    ensures var n := Sync(r, has, setup); AtRest(n) && forall i | 0 <= i < |n.plugins| :: InLine(n.plugins[i], has)
  {
    var ok := (n: Registry, k: nat) => k <= |r.plugins| ==> AtRest(n) && SyncedUpTo(r, n, k, has);
    forall n: Registry, i: nat | i < |r.plugins| && ok(n, i) ensures ok(Turn(has, setup)(n, i), i + 1) {
      SyncStep(r, n, i, has, setup);
    }
    IterateKeeps(Turn(has, setup), r, |r.plugins|, ok);
  }

  lemma InstallRests(r: Registry, plugin: Plugin, has: string -> bool, setup: string -> Setup)
    requires AtRest(r)
    ensures AtRest(Install(r, plugin, has, setup))
  {
    if !exists entry | entry in r.plugins :: entry.plugin.id == plugin.id && entry.active {
      var p := (entry: Entry) => entry.plugin.id != plugin.id;
      var others := Filter(p, r.plugins);
      var added := r.(plugins := others + [Entry(plugin, false, None)]);
      FilterMembers(p, r.plugins);
      OthersUnique(p, r.plugins);
      assert forall i | 0 <= i < |others| :: others[i] in others;
      forall slot: Slot, item: Item | slot in r.lists && item in r.lists[slot] ensures IsActive(added.plugins, item.plugin) {
        var k :| 0 <= k < |r.plugins| && r.plugins[k].active && r.plugins[k].plugin.id == item.plugin;
        assert r.plugins[k] in r.plugins && r.plugins[k] in others;
        var j :| 0 <= j < |others| && others[j] == r.plugins[k];
        assert added.plugins[j].active && added.plugins[j].plugin.id == item.plugin;
      }
      ActivateRests(added, |others|, has, setup);
    }
  }

  lemma {:induction false} OthersUnique(p: Entry -> bool, plugins: seq<Entry>)
    requires UniquePlugins(plugins)
    ensures UniquePlugins(Filter(p, plugins))
  {
    if plugins != [] {
      var rest := plugins[1..];
      OthersUnique(p, rest);
      FilterMembers(p, rest);
      if p(plugins[0]) {
        var kept := Filter(p, plugins);
        forall i, j | 0 <= i < j < |kept| ensures kept[i].plugin.id != kept[j].plugin.id {
          if i == 0 {
            var entry := Filter(p, rest)[j - 1];
            assert entry in Filter(p, rest) && entry in rest;
          }
        }
      }
    }
  }

  // ---- Every run ----

  datatype Op = Installs(plugin: Plugin, has: string -> bool, setup: string -> Setup)
              | Syncs(has: string -> bool, setup: string -> Setup)

  function Do(r: Registry, op: Op): Registry
    requires Total(r)
  {
    match op
    case Installs(plugin, has, setup) => Install(r, plugin, has, setup)
    case Syncs(has, setup) => Sync(r, has, setup)
  }

  /** Plugins installed, and what the cluster serves changing, in any order. */
  function Play(ops: seq<Op>): (r: Registry)
    ensures AtRest(r)
  {
    if ops == [] then EMPTY else
    var before := Play(ops[..|ops| - 1]);
    DoRests(before, ops[|ops| - 1]);
    Do(before, ops[|ops| - 1])
  }

  lemma DoRests(r: Registry, op: Op)
    requires AtRest(r)
    ensures AtRest(Do(r, op))
  {
    match op
    case Installs(plugin, has, setup) => InstallRests(r, plugin, has, setup);
    case Syncs(has, setup) => SyncInLine(r, has, setup);
  }

  /** At rest, whatever is offered was contributed by an active plugin, and offered once. */
  lemma OfferedOnce(ops: seq<Op>, slot: Slot)
    ensures var r := Play(ops);
            && slot in r.lists
            && (forall item | item in r.lists[slot] :: IsActive(r.plugins, item.plugin))
            && (forall i, j | 0 <= i < j < |r.lists[slot]| :: !Same(slot, r.lists[slot][i], r.lists[slot][j]))
  {
    var r := Play(ops);
    SlotsAreAll(slot);
    assert UniqueIn(slot, r.lists[slot]) && OnlyActive(r.plugins, r.lists[slot]);
  }

  // ---- What an active plugin contributes is offered ----

  function ItemOf(c: Contribution, plugin: string): Item
  {
    Item(c.kind, c.id, plugin)
  }

  /** The item a contribution comes as: by its id, and for panels and actions by its kind too. */
  predicate Stands(c: Contribution, item: Item)
  {
    item.id == c.id && (c.slot in {Panels, Actions} ==> item.kind == c.kind)
  }

  /** It is in its list, as this plugin's. */
  predicate Offered(lists: map<Slot, seq<Item>>, plugin: string, c: Contribution)
  {
    c.slot in lists && exists item | item in lists[c.slot] :: item.plugin == plugin && Stands(c, item)
  }

  predicate Offers(lists: map<Slot, seq<Item>>, plugin: Plugin)
  {
    forall c | c in plugin.contributes :: Offered(lists, plugin.id, c)
  }

  predicate AllOffered(r: Registry)
  {
    forall k | 0 <= k < |r.plugins| && r.plugins[k].active :: Offers(r.lists, r.plugins[k].plugin)
  }

  predicate Clash(c: Contribution, d: Contribution)
  {
    c.slot == d.slot && c.id == d.id && (c.slot in {Panels, Actions} ==> c.kind == d.kind)
  }

  /** Nothing one of them contributes replaces what the other does. */
  predicate Apart(p: Plugin, q: Plugin)
  {
    forall c, d | c in p.contributes && d in q.contributes :: !Clash(c, d)
  }

  ghost predicate AllApart(plugins: set<Plugin>)
  {
    forall p, q | p in plugins && q in plugins && p.id != q.id :: Apart(p, q)
  }

  lemma ContributeKeeps(lists: map<Slot, seq<Item>>, plugin: string, d: Contribution, owner: string, c: Contribution)
    requires lists.Keys == SLOTS && Offered(lists, owner, c) && (!Clash(c, d) || owner == plugin)
    ensures Offered(Contribute(lists, plugin, d), owner, c)
  {
    SlotsAreAll(d.slot);
    var n := Contribute(lists, plugin, d);
    if c.slot == d.slot {
      var p := (other: Item) => !Same(d.slot, other, ItemOf(d, plugin));
      FilterMembers(p, lists[c.slot]);
      var item :| item in lists[c.slot] && item.plugin == owner && Stands(c, item);
      if p(item) {
        assert item in n[c.slot];
      } else {
        assert ItemOf(d, plugin) in n[c.slot];
      }
    }
  }

  lemma {:induction false} ContributeAllKeeps(lists: map<Slot, seq<Item>>, plugin: string, cs: seq<Contribution>,
                                              owner: string, c: Contribution)
    requires lists.Keys == SLOTS && Offered(lists, owner, c) && (owner == plugin || forall d | d in cs :: !Clash(c, d))
    ensures Offered(ContributeAll(lists, plugin, cs), owner, c)
    decreases |cs|
  {
    if cs != [] {
      ContributeAllKeeps(lists, plugin, cs[..|cs| - 1], owner, c);
      assert cs[|cs| - 1] in cs;
      ContributeKeeps(ContributeAll(lists, plugin, cs[..|cs| - 1]), plugin, cs[|cs| - 1], owner, c);
    }
  }

  /** Everything contributed is offered. */
  lemma {:induction false} ContributeAllOffers(lists: map<Slot, seq<Item>>, plugin: string, cs: seq<Contribution>)
    requires lists.Keys == SLOTS
    ensures forall c | c in cs :: Offered(ContributeAll(lists, plugin, cs), plugin, c)
    decreases |cs|
  {
    if cs != [] {
      var init, last := cs[..|cs| - 1], cs[|cs| - 1];
      var before := ContributeAll(lists, plugin, init);
      ContributeAllOffers(lists, plugin, init);
      assert cs == init + [last];
      SlotsAreAll(last.slot);
      forall c | c in cs ensures Offered(ContributeAll(lists, plugin, cs), plugin, c) {
        if c == last {
          assert ItemOf(c, plugin) in Contribute(before, plugin, last)[c.slot];
        } else {
          ContributeKeeps(before, plugin, last, plugin, c);
        }
      }
    }
  }

  lemma WithdrawKeeps(lists: map<Slot, seq<Item>>, plugin: string, owner: string, c: Contribution)
    requires lists.Keys == SLOTS && Offered(lists, owner, c) && owner != plugin
    ensures Offered(Withdraw(lists, plugin), owner, c)
  {
    FilterMembers((item: Item) => item.plugin != plugin, lists[c.slot]);
    var item :| item in lists[c.slot] && item.plugin == owner && Stands(c, item);
    assert item in Withdraw(lists, plugin)[c.slot];
  }

  predicate ApartFrom(plugins: seq<Entry>, q: Plugin)
  {
    forall k | 0 <= k < |plugins| && plugins[k].plugin.id != q.id :: Apart(plugins[k].plugin, q)
  }

  /** Activating a plugin whose contributions are apart from all others' leaves the others', and offers its own if its
      setup completes. */
  lemma ActivateOffers(r: Registry, k: nat, has: string -> bool, setup: string -> Setup)
    requires Total(r) && k < |r.plugins| && UniquePlugins(r.plugins) && !r.plugins[k].active
    requires AllOffered(r) && ApartFrom(r.plugins, r.plugins[k].plugin)
    ensures AllOffered(Activate(r, k, has, setup))
  {
    var n, q := Activate(r, k, has, setup), r.plugins[k].plugin;
    forall i | 0 <= i < |n.plugins| && n.plugins[i].active ensures Offers(n.lists, n.plugins[i].plugin) {
      if i == k {
        ContributeAllOffers(r.lists, q.id, q.contributes);
      } else {
        OtherOffers(r, k, has, setup, i);
      }
    }
  }

  lemma OtherOffers(r: Registry, k: nat, has: string -> bool, setup: string -> Setup, i: nat)
    requires Total(r) && k < |r.plugins| && UniquePlugins(r.plugins) && i < |r.plugins| && i != k && r.plugins[i].active
    requires AllOffered(r) && ApartFrom(r.plugins, r.plugins[k].plugin)
    ensures Offers(Activate(r, k, has, setup).lists, r.plugins[i].plugin)
  {
    var p, q, n := r.plugins[i].plugin, r.plugins[k].plugin, Activate(r, k, has, setup);
    assert p.id != q.id && Offers(r.lists, p) && Apart(p, q);
    forall c | c in p.contributes ensures Offered(n.lists, p.id, c) {
      if Lacking(q, has) == [] {
        match setup(q.id)
        case Completes => ContributeAllKeeps(r.lists, q.id, q.contributes, p.id, c);
        case Throws(after, _) =>
          var some := q.contributes[..Min(after, |q.contributes|)];
          ContributeAllKeeps(r.lists, q.id, some, p.id, c);
          WithdrawKeeps(ContributeAll(r.lists, q.id, some), q.id, p.id, c);
      }
    }
  }

  lemma DeactivateOffers(r: Registry, k: nat, lacking: seq<string>)
    requires Total(r) && k < |r.plugins| && UniquePlugins(r.plugins) && AllOffered(r)
    ensures AllOffered(Deactivate(r, k, lacking))
  {
    var n, q := Deactivate(r, k, lacking), r.plugins[k].plugin;
    forall i | 0 <= i < |n.plugins| && n.plugins[i].active ensures Offers(n.lists, n.plugins[i].plugin) {
      var p := r.plugins[i].plugin;
      assert i != k && Offers(r.lists, p) && p.id != q.id;
      forall c | c in p.contributes ensures Offered(n.lists, p.id, c) {
        WithdrawKeeps(r.lists, q.id, p.id, c);
      }
    }
  }

  /** The registry's plugins are among those installed. */
  ghost predicate Among(r: Registry, installed: set<Plugin>)
  {
    forall k | 0 <= k < |r.plugins| :: r.plugins[k].plugin in installed
  }

  ghost predicate Serving(r: Registry, installed: set<Plugin>)
  {
    AtRest(r) && AllOffered(r) && Among(r, installed)
  }

  lemma SyncOneServes(r: Registry, k: nat, has: string -> bool, setup: string -> Setup, installed: set<Plugin>)
    requires Serving(r, installed) && AllApart(installed) && k < |r.plugins|
    ensures Serving(SyncOne(r, k, has, setup), installed) && |SyncOne(r, k, has, setup).plugins| == |r.plugins|
  {
    var entry := r.plugins[k];
    var lacking := Lacking(entry.plugin, has);
    SyncOneRests(r, k, has, setup);
    if entry.active && lacking != [] {
      DeactivateOffers(r, k, lacking);
    } else if !entry.active && lacking == [] && LooksMissing(entry.error) {
      ActivateOffers(r, k, has, setup);
    }
  }

  lemma SyncServes(r: Registry, has: string -> bool, setup: string -> Setup, installed: set<Plugin>)
    requires Serving(r, installed) && AllApart(installed)
    ensures Serving(Sync(r, has, setup), installed)
  {
    var ok := (n: Registry, k: nat) => |n.plugins| == |r.plugins| && Serving(n, installed);
    forall n: Registry, i: nat | i < |r.plugins| && ok(n, i) ensures ok(Turn(has, setup)(n, i), i + 1) {
      SyncOneServes(n, i, has, setup, installed);
    }
    IterateKeeps(Turn(has, setup), r, |r.plugins|, ok);
  }

  lemma AddedServes(r: Registry, plugin: Plugin, installed: set<Plugin>, added: Registry, k: nat)
    requires Serving(r, installed) && AllApart(installed + {plugin})
    requires var others := Filter((entry: Entry) => entry.plugin.id != plugin.id, r.plugins);
             added == r.(plugins := others + [Entry(plugin, false, None)]) && k == |others|
    ensures Total(added) && k < |added.plugins| && !added.plugins[k].active && added.plugins[k].plugin == plugin
    ensures UniquePlugins(added.plugins) && AllOffered(added)
    ensures ApartFrom(added.plugins, plugin) && Among(added, installed + {plugin})
  {
    var p := (entry: Entry) => entry.plugin.id != plugin.id;
    FilterMembers(p, r.plugins);
    OthersUnique(p, r.plugins);
    var others := Filter(p, r.plugins);
    forall i | 0 <= i < |others|
      ensures others[i].plugin.id != plugin.id && others[i].plugin in installed
      ensures others[i].active ==> Offers(r.lists, others[i].plugin)
    {
      assert others[i] in others && others[i] in r.plugins;
      var j :| 0 <= j < |r.plugins| && r.plugins[j] == others[i];
    }
  }

  lemma ActivateAmong(r: Registry, k: nat, has: string -> bool, setup: string -> Setup, installed: set<Plugin>)
    requires Total(r) && k < |r.plugins| && Among(r, installed)
    ensures Among(Activate(r, k, has, setup), installed)
  {
  }

  lemma InstallServes(r: Registry, plugin: Plugin, has: string -> bool, setup: string -> Setup, installed: set<Plugin>)
    requires Serving(r, installed) && AllApart(installed + {plugin})
    ensures Serving(Install(r, plugin, has, setup), installed + {plugin})
  {
    InstallRests(r, plugin, has, setup);
    if !exists entry | entry in r.plugins :: entry.plugin.id == plugin.id && entry.active {
      var others := Filter((entry: Entry) => entry.plugin.id != plugin.id, r.plugins);
      var added := r.(plugins := others + [Entry(plugin, false, None)]);
      AddedServes(r, plugin, installed, added, |others|);
      ActivateOffers(added, |others|, has, setup);
      ActivateAmong(added, |others|, has, setup, installed + {plugin});
    }
  }

  ghost function InstalledBy(ops: seq<Op>): set<Plugin>
  {
    if ops == [] then {} else
    InstalledBy(ops[..|ops| - 1]) + match ops[|ops| - 1] case Installs(plugin, _, _) => {plugin} case Syncs(_, _) => {}
  }

  lemma PlayStep(ops: seq<Op>)
    requires ops != []
    ensures Play(ops) == Do(Play(ops[..|ops| - 1]), ops[|ops| - 1])
  {
  }

  /** If no two of the plugins contribute what replaces the other's, then over any run every active plugin's contributions
      are all offered, as its own. */
  lemma {:induction false} ActiveIsOffered(ops: seq<Op>)
    requires AllApart(InstalledBy(ops))
    ensures Serving(Play(ops), InstalledBy(ops))
  {
    if ops != [] {
      var init := ops[..|ops| - 1];
      assert InstalledBy(init) <= InstalledBy(ops);
      ActiveIsOffered(init);
      PlayStep(ops);
      match ops[|ops| - 1]
      case Installs(plugin, has, setup) => InstallServes(Play(init), plugin, has, setup, InstalledBy(init));
      case Syncs(has, setup) => SyncServes(Play(init), has, setup, InstalledBy(init));
    }
  }

  /** For any two that do, installing one after the other leaves the first one active with a contribution that is not
      offered any more. */
  lemma ReplacedIsLost(p: Plugin, q: Plugin)
    requires p.id != q.id && !Apart(p, q)
    ensures var r := Play(Both(p, q));
            IsActive(r.plugins, p.id) && IsActive(r.plugins, q.id) && !AllOffered(r)
  {
    var ops := Both(p, q);
    assert ops[..1] == [ops[0]] && ops[..1][..0] == [];
    PlayStep(ops);
    PlayStep(ops[..1]);
    var a := Play(ops[..1]);
    FirstInstalled(p, a);
    SecondInstalled(p, q, a, Play(ops));
  }

  function Both(p: Plugin, q: Plugin): seq<Op>
  {
    [Installs(p, spec => true, id => Completes), Installs(q, spec => true, id => Completes)]
  }

  lemma {:induction false} NothingLacks(specs: seq<string>, has: string -> bool)
    requires forall spec :: has(spec)
    ensures Filter(spec => !has(spec), specs) == []
  {
    if specs != [] {
      NothingLacks(specs[1..], has);
    }
  }

  lemma FirstInstalled(p: Plugin, a: Registry)
    requires a == Do(EMPTY, Both(p, p)[0])
    ensures a.plugins == [Entry(p, true, None)] && Total(a)
  {
    NothingLacks(p.requires_, spec => true);
  }

  lemma SecondInstalled(p: Plugin, q: Plugin, a: Registry, b: Registry)
    requires p.id != q.id && !Apart(p, q) && AtRest(a) && AtRest(b)
    requires a.plugins == [Entry(p, true, None)] && b == Do(a, Both(p, q)[1])
    ensures IsActive(b.plugins, p.id) && IsActive(b.plugins, q.id) && !AllOffered(b)
  {
    NothingLacks(q.requires_, spec => true);
    assert Filter((entry: Entry) => entry.plugin.id != q.id, a.plugins) == a.plugins by {
      assert a.plugins[1..] == [] && a.plugins[0].plugin == p;
    }
    assert b.plugins == a.plugins + [Entry(q, true, None)];
    assert b.plugins[0].active && b.plugins[1].active;
    ContributeAllOffers(a.lists, q.id, q.contributes);
    var c, d :| c in p.contributes && d in q.contributes && Clash(c, d);
    var theirs :| theirs in b.lists[d.slot] && theirs.plugin == q.id && Stands(d, theirs);
    if Offered(b.lists, p.id, c) {
      var ours :| ours in b.lists[c.slot] && ours.plugin == p.id && Stands(c, ours);
      assert Same(c.slot, ours, theirs) && Same(c.slot, theirs, ours);
    }
  }

  // ---- The code ----

  class Plugins {
    var plugins: seq<Entry>
    var lists: map<Slot, seq<Item>>

    function Model(): Registry
      reads this
    {
      Registry(plugins, lists)
    }

    constructor ()
      ensures Model() == EMPTY
    {
      plugins, lists := [], map slot | slot in SLOTS :: [];
    }

    method SetUp(id: string, contributes: seq<Contribution>)
      requires Total(Model())
      modifies this`lists
      ensures lists == ContributeAll(old(lists), id, contributes)
    {
      for i := 0 to |contributes|
        invariant Total(Model()) && lists == ContributeAll(old(lists), id, contributes[..i])
      {
        assert contributes[..i + 1][..i] == contributes[..i];
        var c := contributes[i];
        SlotsAreAll(c.slot);
        lists := lists[c.slot := Replace(c.slot, lists[c.slot], Item(c.kind, c.id, id))];
      }
      assert contributes[..|contributes|] == contributes;
    }

    method ActivateAt(k: nat, has: string -> bool, setup: string -> Setup)
      requires Total(Model()) && k < |plugins|
      modifies this
      ensures Model() == Activate(old(Model()), k, has, setup)
    {
      var entry := plugins[k];
      var lacking := Lacking(entry.plugin, has);
      if lacking != [] {
        plugins := plugins[k := entry.(active := false, error := Some(Missing(lacking)))];
        return;
      }
      match setup(entry.plugin.id)
      case Completes =>
        SetUp(entry.plugin.id, entry.plugin.contributes);
        plugins := plugins[k := entry.(active := true, error := None)];
      case Throws(after, message) =>
        SetUp(entry.plugin.id, entry.plugin.contributes[..Min(after, |entry.plugin.contributes|)]);
        lists := Withdraw(lists, entry.plugin.id);
        plugins := plugins[k := entry.(active := false, error := Some(Threw(message)))];
    }

    method InstallPlugin(plugin: Plugin, has: string -> bool, setup: string -> Setup)
      requires AtRest(Model())
      modifies this
      ensures Model() == Install(old(Model()), plugin, has, setup) && AtRest(Model())
    {
      InstallRests(Model(), plugin, has, setup);
      if exists entry | entry in plugins :: entry.plugin.id == plugin.id && entry.active {
        return;
      }
      plugins := Filter((entry: Entry) => entry.plugin.id != plugin.id, plugins) + [Entry(plugin, false, None)];
      ActivateAt(|plugins| - 1, has, setup);
    }

    method SyncTurn(k: nat, has: string -> bool, setup: string -> Setup, ghost turn: (Registry, nat) -> Registry)
      requires Total(Model()) && k < |plugins| && turn == Turn(has, setup)
      modifies this
      ensures Model() == turn(old(Model()), k) && Total(Model()) && |plugins| == |old(plugins)|
    {
      var entry := plugins[k];
      var lacking := Lacking(entry.plugin, has);
      if entry.active && lacking != [] {
        lists := Withdraw(lists, entry.plugin.id);
        plugins := plugins[k := entry.(active := false, error := Some(Missing(lacking)))];
      } else if !entry.active && lacking == [] && LooksMissing(entry.error) {
        ActivateAt(k, has, setup);
      }
    }

    method SyncPlugins(has: string -> bool, setup: string -> Setup, ghost turn: (Registry, nat) -> Registry)
      requires Total(Model()) && turn == Turn(has, setup)
      modifies this
      ensures Model() == Iterate(turn, old(Model()), |old(plugins)|)
    {
      var count := |plugins|;
      for k := 0 to count
        invariant Total(Model()) && |plugins| == count
        invariant Model() == Iterate(turn, old(Model()), k)
      {
        SyncTurn(k, has, setup, turn);
      }
    }
  }
}
