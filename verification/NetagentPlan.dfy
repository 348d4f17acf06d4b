/** The plan (src/netagent/plan.rs): from what a pod has and what it should have to the commands in between. */
module NetagentPlan {
  import opened Text
  import opened Orders

  const COMMENT_PREFIX := "kvw-offsubnet:"
  const ROUTE_PROTO := "252"

  /** One thing an annotation asks for, with nothing in it left open. */
  datatype Resolved = Resolved(
    iface: string,
    bridge: string,
    clients: seq<string>,
    guestIp: string,
    snatTo: string,
    gatewayMac: string)

  /** The part of a pod's state that a plan is made from. */
  datatype Current = Current(
    rules: seq<string>,       // those the agent wrote, once for each copy
    routes: set<Triple>,      // destination, gateway and device of those it marked as its own
    neighbours: set<Triple>)  // (address, mac, device), permanent, on bridges

  /** The words of one command line. */
  type Command = seq<string>

  function SnatWords(r: Resolved, client: string): seq<string>
  {
    ["-A", "POSTROUTING", "-s", client, "-d", r.guestIp + "/32", "-m", "comment",
     "--comment", COMMENT_PREFIX + r.iface, "-j", "SNAT", "--to-source", r.snatTo]
  }

  /** `snat_rule`: the words joined by single spaces. */
  function SnatRule(r: Resolved, client: string): string
  {
    Join(SnatWords(r, client))
  }

  function WantRules(desired: seq<Resolved>): set<string>
  {
    set r, c | r in desired && c in r.clients :: SnatRule(r, c)
  }

  function WantRoutes(desired: seq<Resolved>): set<Triple>
  {
    set r, c | r in desired && c in r.clients :: (c, r.snatTo, r.bridge)
  }

  function WantNeighbours(desired: seq<Resolved>): set<Triple>
  {
    set r | r in desired :: (r.snatTo, Lower(r.gatewayMac), r.bridge)
  }

  /** Whether the wanted neighbours say anything about `n`'s address and device. */
  predicate Mentioned(n: Triple, want: set<Triple>)
  {
    exists w | w in want :: w.0 == n.0 && w.2 == n.2
  }

  function DelRule(rule: string): Command { ["iptables", "-t", "nat"] + Words(ReplaceFirst(rule, "-A ", "-D ")) }
  function AddRule(rule: string): Command { ["iptables", "-t", "nat"] + Words(rule) }
  function DelRoute(t: Triple): Command { ["ip", "route", "del", t.0, "via", t.1, "dev", t.2, "proto", ROUTE_PROTO] }
  function PutRoute(t: Triple): Command
  {
    ["ip", "route", "replace", t.0, "via", t.1, "dev", t.2, "onlink", "proto", ROUTE_PROTO]
  }
  function DelNeigh(t: Triple): Command { ["ip", "neigh", "del", t.0, "dev", t.2] }
  function PutNeigh(t: Triple): Command
  {
    ["ip", "neigh", "replace", t.0, "lladdr", t.1, "dev", t.2, "nud", "permanent"]
  }

  function MapSeq<A, B>(f: A -> B, s: seq<A>): (r: seq<B>)
    ensures |r| == |s|
    ensures forall i :: 0 <= i < |s| ==> r[i] == f(s[i])
  {
    if s == [] then [] else [f(s[0])] + MapSeq(f, s[1..])
  }

  lemma MapSeqAppend<A, B>(f: A -> B, a: seq<A>, b: seq<A>)
    ensures MapSeq(f, a + b) == MapSeq(f, a) + MapSeq(f, b)
  {
  }

  /** The agent's rules that have to go: all but one copy of each wanted rule. `kept` are the copies seen already. */
  function Surplus(rules: seq<string>, want: set<string>, kept: set<string>): seq<string>
  {
    if rules == [] then []
    else if rules[0] in want && rules[0] !in kept then Surplus(rules[1..], want, kept + {rules[0]})
    else [rules[0]] + Surplus(rules[1..], want, kept)
  }

  /** The wanted rules still missing. */
  function MissingRules(rules: seq<string>, want: set<string>): set<string>
  {
    set w | w in want && w !in rules
  }

  function StrayNeighbours(have: set<Triple>, want: set<Triple>): set<Triple>
  {
    set n | n in have - want && !Mentioned(n, want)
  }

  /** What a plan does, group by group: removals first, then additions, each group in order. */
  datatype Groups = Groups(
    dropRules: seq<string>,
    dropRoutes: seq<Triple>,
    dropNeighbours: seq<Triple>,
    putNeighbours: seq<Triple>,
    putRoutes: seq<Triple>,
    addRules: seq<string>)

  function PlanGroups(desired: seq<Resolved>, current: Current): Groups
  {
    var rules, routes, neighbours := WantRules(desired), WantRoutes(desired), WantNeighbours(desired);
    Groups(
      Surplus(current.rules, rules, {}),
      SortedTriples(current.routes - routes),
      SortedTriples(StrayNeighbours(current.neighbours, neighbours)),
      SortedTriples(neighbours - current.neighbours),
      SortedTriples(routes - current.routes),
      SortedStrings(MissingRules(current.rules, rules)))
  }

  /** How each kind of change is spelled. */
  datatype Spelling = Spelling(
    dropRule: string -> Command,
    dropRoute: Triple -> Command,
    dropNeighbour: Triple -> Command,
    putNeighbour: Triple -> Command,
    putRoute: Triple -> Command,
    addRule: string -> Command)

  function Flatten(groups: seq<seq<Command>>): seq<Command>
  {
    if groups == [] then [] else Flatten(groups[..|groups| - 1]) + groups[|groups| - 1]
  }

  lemma FlattenSix(g: seq<seq<Command>>)
    requires |g| == 6
    ensures Flatten(g) == g[0] + g[1] + g[2] + g[3] + g[4] + g[5]
  {
    assert g[..5][..4] == g[..4] && g[..4][..3] == g[..3] && g[..3][..2] == g[..2] && g[..2][..1] == g[..1];
    assert Flatten(g[..1]) == g[0];
    assert Flatten(g[..2]) == g[0] + g[1];
    assert Flatten(g[..3]) == g[0] + g[1] + g[2];
    assert Flatten(g[..4]) == g[0] + g[1] + g[2] + g[3];
  }

  function Spell(s: Spelling, g: Groups): seq<seq<Command>>
  {
    [MapSeq(s.dropRule, g.dropRules), MapSeq(s.dropRoute, g.dropRoutes), MapSeq(s.dropNeighbour, g.dropNeighbours),
     MapSeq(s.putNeighbour, g.putNeighbours), MapSeq(s.putRoute, g.putRoutes), MapSeq(s.addRule, g.addRules)]
  }

  const ARGV := Spelling(DelRule, DelRoute, DelNeigh, PutNeigh, PutRoute, AddRule)

  /** The plan as a value. */
  function Plan(desired: seq<Resolved>, current: Current): seq<Command>
  {
    Flatten(Spell(ARGV, PlanGroups(desired, current)))
  }

  lemma MapSeqSnoc<A, B>(f: A -> B, s: seq<A>, i: nat)
    requires i < |s|
    ensures MapSeq(f, s[..i + 1]) == MapSeq(f, s[..i]) + [f(s[i])]
  {
    assert s[..i + 1] == s[..i] + [s[i]];
    MapSeqAppend(f, s[..i], [s[i]]);
  }

  /** One pass over a difference of BTreeSets, pushing a command for each tuple. */
  method PushAll(out: seq<Command>, tuples: set<Triple>, command: Triple -> Command) returns (r: seq<Command>)
    ensures r == out + MapSeq(command, SortedTriples(tuples))
  {
    r := out;
    var order := SortedTriples(tuples);
    for i := 0 to |order|
      invariant r == out + MapSeq(command, order[..i])
    {
      r := r + [command(order[i])];
      MapSeqSnoc(command, order, i);
    }
    assert order[..|order|] == order;
  }

  lemma SurplusStep(rules: seq<string>, i: nat, want: set<string>, kept: set<string>, command: string -> Command)
    requires i < |rules|
    ensures MapSeq(command, Surplus(rules[i..], want, kept)) ==
      if rules[i] in want && rules[i] !in kept
      then MapSeq(command, Surplus(rules[i + 1..], want, kept + {rules[i]}))
      else [command(rules[i])] + MapSeq(command, Surplus(rules[i + 1..], want, kept))
  {
    assert rules[i..][0] == rules[i] && rules[i..][1..] == rules[i + 1..];
    var s := Surplus(rules[i..], want, kept);
    if !(rules[i] in want && rules[i] !in kept) {
      assert s[0] == rules[i] && s[1..] == Surplus(rules[i + 1..], want, kept);
    }
  }

  /** Deletes whatever is surplus; `kept` is what it came across first and left. */
  method DropSurplus(rules: seq<string>, want: set<string>, command: string -> Command)
    returns (out: seq<Command>, kept: set<string>)
    ensures out == MapSeq(command, Surplus(rules, want, {}))
    ensures want - kept == MissingRules(rules, want)
  {
    out, kept := [], {};
    assert rules[0..] == rules;
    for i := 0 to |rules|
      invariant forall w :: w in kept <==> w in want && w in rules[..i]
      invariant MapSeq(command, Surplus(rules, want, {})) == out + MapSeq(command, Surplus(rules[i..], want, kept))
    {
      SurplusStep(rules, i, want, kept, command);
      assert rules[..i + 1] == rules[..i] + [rules[i]];
      if rules[i] in want && rules[i] !in kept {
        kept := kept + {rules[i]};
      } else {
        out := out + [command(rules[i])];
      }
    }
    assert rules[..|rules|] == rules;
  }

  lemma StrayOrder(all: set<Triple>, strays: set<Triple>)
    requires strays <= all
    ensures SortedTriples(strays) == Select(SortedTriples(all), strays)
  {
    SortedFilter(all, strays);
    assert all * strays == strays;
  }

  lemma SelectSnoc<T>(s: seq<T>, i: nat, keep: set<T>)
    requires i < |s|
    ensures Select(s[..i + 1], keep) == Select(s[..i], keep) + (if s[i] in keep then [s[i]] else [])
  {
    if i > 0 {
      assert s[..i + 1][1..] == s[1..][..i] && s[..i][1..] == s[1..][..i - 1];
      SelectSnoc(s[1..], i - 1, keep);
    }
  }

  lemma StrayStep(order: seq<Triple>, i: nat, strays: set<Triple>, command: Triple -> Command)
    requires i < |order|
    ensures MapSeq(command, Select(order[..i + 1], strays))
         == MapSeq(command, Select(order[..i], strays)) + (if order[i] in strays then [command(order[i])] else [])
  {
    SelectSnoc(order, i, strays);
    MapSeqAppend(command, Select(order[..i], strays), [order[i]]);
  }

  method PushStrays(out: seq<Command>, order: seq<Triple>, want: set<Triple>, ghost strays: set<Triple>,
                    command: Triple -> Command)
    returns (r: seq<Command>)
    requires forall n | n in order :: n in strays <==> !Mentioned(n, want)
    ensures r == out + MapSeq(command, Select(order, strays))
  {
    r := out;
    for i := 0 to |order|
      invariant r == out + MapSeq(command, Select(order[..i], strays))
    {
      assert order[i] in order;
      StrayStep(order, i, strays, command);
      if !Mentioned(order[i], want) {
        r := r + [command(order[i])];
      }
    }
    assert order[..|order|] == order;
  }

  /** Deletes the neighbours whose address and device nobody wants any more. */
  method DropStrays(out: seq<Command>, have: set<Triple>, want: set<Triple>, command: Triple -> Command)
    returns (r: seq<Command>)
    ensures r == out + MapSeq(command, SortedTriples(StrayNeighbours(have, want)))
  {
    ghost var strays := StrayNeighbours(have, want);
    StrayOrder(have - want, strays);
    r := PushStrays(out, SortedTriples(have - want), want, strays, command);
  }

  method AddMissing(out: seq<Command>, missing: set<string>, command: string -> Command) returns (r: seq<Command>)
    ensures r == out + MapSeq(command, SortedStrings(missing))
  {
    r := out;
    var order := SortedStrings(missing);
    for i := 0 to |order|
      invariant r == out + MapSeq(command, order[..i])
    {
      r := r + [command(order[i])];
      MapSeqSnoc(command, order, i);
    }
    assert order[..|order|] == order;
  }

  method Commands(desired: seq<Resolved>, current: Current) returns (out: seq<Command>)
    ensures out == Plan(desired, current)
  {
    var wantRules, wantRoutes, wantNeighbours := WantRules(desired), WantRoutes(desired), WantNeighbours(desired);
    var kept;
    out, kept := DropSurplus(current.rules, wantRules, DelRule);
    out := PushAll(out, current.routes - wantRoutes, DelRoute);
    out := DropStrays(out, current.neighbours, wantNeighbours, DelNeigh);
    out := PushAll(out, wantNeighbours - current.neighbours, PutNeigh);
    out := PushAll(out, wantRoutes - current.routes, PutRoute);
    out := AddMissing(out, wantRules - kept, AddRule);
    FlattenSix(Spell(ARGV, PlanGroups(desired, current)));
  }
}
