/** Running the plan brings a pod to exactly what was asked for, from wherever it is interrupted. */
module NetagentConverge {
  import opened Text
  import opened Orders
  import opened NetagentPlan
  import opened NetagentPod

  /** What `resolve` hands over: addresses, names and ranges are single words, bridges are KubeVirt's. */
  predicate Plain(desired: seq<Resolved>)
  {
    forall r | r in desired ::
      && Solid(r.iface) && Solid(r.guestIp) && Solid(r.snatTo) && StartsWith(r.bridge, "k6t-")
      && (forall c | c in r.clients :: Solid(c))
  }

  predicate FunctionalRoutes(routes: set<Triple>)
  {
    forall a, b | a in routes && b in routes && a.0 == b.0 :: a == b
  }

  predicate FunctionalNeighbours(neighbours: set<Triple>)
  {
    forall a, b | a in neighbours && b in neighbours && a.0 == b.0 && a.2 == b.2 :: a == b
  }

  /** No client range is routed two ways, no gateway has two MACs on one bridge. */
  predicate Consistent(desired: seq<Resolved>)
  {
    FunctionalRoutes(WantRoutes(desired)) && FunctionalNeighbours(WantNeighbours(desired))
  }

  /** Exactly the wanted rules, each once; exactly the wanted routes and neighbours. */
  ghost predicate Matches(desired: seq<Resolved>, current: Current)
  {
    && Distinct(current.rules) && (forall l :: l in current.rules <==> l in WantRules(desired))
    && current.routes == WantRoutes(desired)
    && current.neighbours == WantNeighbours(desired)
  }

  function Claimed(desired: seq<Resolved>): set<string>
  {
    set w | w in WantRoutes(desired) :: w.0
  }

  /** Other programs' routes, to destinations no entry claims. */
  function ForeignRoutes(claimed: set<string>, routes: map<string, Hop>): map<string, Hop>
  {
    map dst | dst in routes && routes[dst].proto != ROUTE_PROTO && dst !in claimed :: routes[dst]
  }

  function ForeignNeighbours(neighbours: map<(string, string), string>): map<(string, string), string>
  {
    map k | k in neighbours && !StartsWith(k.1, "k6t-") :: neighbours[k]
  }

  /** What is not the agent's stays as it was. */
  predicate Undisturbed(desired: seq<Resolved>, before: Pod, after: Pod)
  {
    && ForeignLines(before.chain) == ForeignLines(after.chain)
    && ForeignRoutes(Claimed(desired), before.routes) == ForeignRoutes(Claimed(desired), after.routes)
    && ForeignNeighbours(before.neighbours) == ForeignNeighbours(after.neighbours)
  }

  // ---- rules ----

  lemma JoinStartsWith(words: seq<string>)
    requires |words| > 2 && words[0] == "-A" && words[1] == "POSTROUTING"
    ensures StartsWith(Join(words), OWNED_CHAIN)
  {
    var tail := Join(words[2..]);
    assert words[1..][1..] == words[2..];
    assert Join(words[1..]) == "POSTROUTING" + " " + tail;
    assert Join(words) == "-A" + " " + ("POSTROUTING" + " " + tail);
    assert Join(words) == OWNED_CHAIN + (" " + tail);
    PrefixStarts(OWNED_CHAIN, " " + tail);
  }

  lemma PrefixStarts(p: string, rest: string)
    ensures StartsWith(p + rest, p)
  {
  }

  lemma JoinContains(before: seq<string>, comment: string, after: seq<string>)
    requires before != [] && after != [] && StartsWith(comment, COMMENT_PREFIX)
    ensures Contains(Join(before + ["--comment", comment] + after), OWNED_COMMENT)
  {
    var middle := ["--comment", comment] + after;
    assert before + ["--comment", comment] + after == before + middle;
    JoinAppend(before, middle);
    var line, at := Join(before + middle), |Join(before)| + 1;
    assert middle[1..] == [comment] + after;
    assert Join(middle) == "--comment" + " " + (comment + " " + Join(([comment] + after)[1..]));
    assert line[at..] == Join(middle);
    assert comment == COMMENT_PREFIX + comment[|COMMENT_PREFIX|..];
    assert OWNED_COMMENT == "--comment" + " " + COMMENT_PREFIX;
    FindSome(line, OWNED_COMMENT, at);
  }

  lemma WordsSolid(r: Resolved, client: string)
    requires Solid(r.iface) && Solid(r.guestIp) && Solid(r.snatTo) && Solid(client)
    ensures forall w :: w in SnatWords(r, client) ==> Solid(w)
  {
    assert Solid(r.guestIp + "/32") && Solid(COMMENT_PREFIX + r.iface);
  }

  lemma WantedRuleIsOwned(r: Resolved, client: string)
    requires Solid(r.iface) && Solid(r.guestIp) && Solid(r.snatTo) && Solid(client)
    ensures IsOwned(SnatRule(r, client)) && Canonical(SnatRule(r, client))
  {
    var words := SnatWords(r, client);
    WordsSolid(r, client);
    WordsOfJoin(words);
    JoinStartsWith(words);
    JoinContains(words[..8], COMMENT_PREFIX + r.iface, words[10..]);
    assert words == words[..8] + ["--comment", COMMENT_PREFIX + r.iface] + words[10..];
  }

  lemma WantedRulesAreOwned(desired: seq<Resolved>)
    requires Plain(desired)
    ensures forall l :: l in WantRules(desired) ==> IsOwned(l) && Canonical(l)
  {
    forall l | l in WantRules(desired) ensures IsOwned(l) && Canonical(l) {
      var r, c :| r in desired && c in r.clients && l == SnatRule(r, c);
      WantedRuleIsOwned(r, c);
    }
  }

  lemma {:induction false} SurplusMember(rules: seq<string>, want: set<string>, kept: set<string>)
    ensures forall l :: l in Surplus(rules, want, kept) ==> l in rules
  {
    if rules != [] {
      SurplusMember(rules[1..], want, kept + {rules[0]});
      SurplusMember(rules[1..], want, kept);
    }
  }

  /** The first surplus copy of a wanted rule: forgetting that one was seen changes only which copy goes. */
  lemma {:induction false} SurplusSwap(rules: seq<string>, want: set<string>, kept: set<string>, x: string)
    requires x in want && x !in kept
    requires Surplus(rules, want, kept + {x}) != [] && Surplus(rules, want, kept + {x})[0] == x
    ensures Surplus(rules, want, kept) == Surplus(rules, want, kept + {x})[1..]
  {
    var y := rules[0];
    if y in want && y !in kept + {x} {
      assert kept + {x} + {y} == kept + {y} + {x};
      SurplusSwap(rules[1..], want, kept + {y}, x);
    }
  }

  /** Deleting the first line equal to the first surplus rule leaves the other surplus rules. */
  lemma {:induction false} SurplusTail(rules: seq<string>, want: set<string>, kept: set<string>)
    requires Surplus(rules, want, kept) != []
    ensures var s := Surplus(rules, want, kept);
      && Surplus(RemoveFirst(rules, s[0]), want, kept) == s[1..]
      && (s[0] in want && s[0] !in kept ==> s[0] in RemoveFirst(rules, s[0]))
  {
    var s := Surplus(rules, want, kept);
    var x := rules[0];
    if x in want && x !in kept {
      if s[0] == x {
        SurplusSwap(rules[1..], want, kept, x);
        SurplusMember(rules[1..], want, kept + {x});
      } else {
        SurplusTail(rules[1..], want, kept + {x});
      }
    }
  }

  lemma RemoveOwned(chain: seq<string>, line: string)
    requires IsOwned(line)
    ensures OwnedLines(RemoveFirst(chain, line)) == RemoveFirst(OwnedLines(chain), line)
    ensures ForeignLines(RemoveFirst(chain, line)) == ForeignLines(chain)
  {
    FilterRemoveFirst(IsOwned, chain, line);
    FilterRemoveFirst((l: string) => !IsOwned(l), chain, line);
  }

  lemma AppendOwned(chain: seq<string>, line: string)
    requires IsOwned(line)
    ensures OwnedLines(chain + [line]) == OwnedLines(chain) + [line]
    ensures ForeignLines(chain + [line]) == ForeignLines(chain)
  {
    FilterAppend(IsOwned, chain, [line]);
    FilterAppend((l: string) => !IsOwned(l), chain, [line]);
  }

  lemma {:induction false} NoSurplusAppend(rules: seq<string>, want: set<string>, kept: set<string>, x: string)
    requires Surplus(rules, want, kept) == [] && x in want && x !in rules && x !in kept
    ensures Surplus(rules + [x], want, kept) == []
  {
    if rules == [] {
      assert rules + [x] == [x];
    } else {
      NoSurplusAppend(rules[1..], want, kept + {rules[0]}, x);
      assert (rules + [x])[1..] == rules[1..] + [x];
    }
  }

  predicate Distinct(s: seq<string>)
  {
    forall i, j | 0 <= i < j < |s| :: s[i] != s[j]
  }

  /** Nothing is surplus exactly when every rule is wanted and none is there twice. */
  lemma {:induction false} NoSurplus(rules: seq<string>, want: set<string>, kept: set<string>)
    ensures Surplus(rules, want, kept) == [] <==> Distinct(rules) && forall l :: l in rules ==> l in want - kept
  {
    if rules != [] {
      var x, rest := rules[0], rules[1..];
      NoSurplus(rest, want, kept + {x});
      assert forall i :: 0 < i < |rules| ==> rules[i] == rest[i - 1];
      assert Distinct(rules) <==> Distinct(rest) && x !in rest;
      assert forall l :: l in rules <==> l == x || l in rest;
    }
  }

  // ---- one command of each kind ----

  function Now(desired: seq<Resolved>, pod: Pod): Groups
  {
    PlanGroups(desired, Observe(pod))
  }

  lemma DropRuleRules(rules: seq<string>, want: set<string>)
    requires Surplus(rules, want, {}) != []
    ensures var s := Surplus(rules, want, {});
      && s[0] in rules
      && Surplus(RemoveFirst(rules, s[0]), want, {}) == s[1..]
      && MissingRules(RemoveFirst(rules, s[0]), want) == MissingRules(rules, want)
  {
    var rule := Surplus(rules, want, {})[0];
    SurplusMember(rules, want, {});
    SurplusTail(rules, want, {});
    RemoveFirstMembers(rules, rule);
    assert MissingRules(RemoveFirst(rules, rule), want) == MissingRules(rules, want);
  }

  lemma StepDropRule(desired: seq<Resolved>, pod: Pod) returns (next: Pod)
    requires WellFormed(pod) && Now(desired, pod).dropRules != []
    ensures var g := Now(desired, pod);
      && next == pod.(chain := RemoveFirst(pod.chain, g.dropRules[0]))
      && WellFormed(next) && Undisturbed(desired, pod, next)
      && Now(desired, next) == g.(dropRules := g.dropRules[1..])
  {
    var rules, want := OwnedLines(pod.chain), WantRules(desired);
    var rule := Surplus(rules, want, {})[0];
    DropRuleRules(rules, want);
    next := pod.(chain := RemoveFirst(pod.chain, rule));
    RemoveFirstMembers(pod.chain, rule);
    RemoveOwned(pod.chain, rule);
  }

  /** Losing an unwanted tuple, or gaining a wanted one, shortens the difference it came from by its first element. */
  lemma SortedTail(s: set<Triple>)
    requires s != {}
    ensures SortedTriples(s)[0] in s
    ensures SortedTriples(s - {SortedTriples(s)[0]}) == SortedTriples(s)[1..]
  {
  }

  lemma RouteRemoved(routes: map<string, Hop>, want: set<Triple>, t: Triple)
    requires t in OwnRoutes(routes) && t !in want
    ensures OwnRoutes(routes - {t.0}) == OwnRoutes(routes) - {t}
    ensures OwnRoutes(routes - {t.0}) - want == OwnRoutes(routes) - want - {t}
    ensures want - OwnRoutes(routes - {t.0}) == want - OwnRoutes(routes)
    ensures forall claimed :: ForeignRoutes(claimed, routes - {t.0}) == ForeignRoutes(claimed, routes)
  {
    assert OwnRoutes(routes - {t.0}) == OwnRoutes(routes) - {t};
  }

  lemma RoutePut(routes: map<string, Hop>, want: set<Triple>, t: Triple)
    requires FunctionalRoutes(want) && OwnRoutes(routes) <= want && t in want && t !in OwnRoutes(routes)
    ensures var after := OwnRoutes(routes[t.0 := Hop(t.1, t.2, ROUTE_PROTO)]);
      && after == OwnRoutes(routes) + {t} && after <= want
      && want - after == want - OwnRoutes(routes) - {t}
    ensures forall claimed :: t.0 in claimed ==>
      ForeignRoutes(claimed, routes[t.0 := Hop(t.1, t.2, ROUTE_PROTO)]) == ForeignRoutes(claimed, routes)
  {
    var have := OwnRoutes(routes);
    assert forall n :: n in have ==> n.0 != t.0;
    assert OwnRoutes(routes[t.0 := Hop(t.1, t.2, ROUTE_PROTO)]) == have + {t};
  }

  lemma NeighbourRemoved(neighbours: map<(string, string), string>, want: set<Triple>, t: Triple)
    requires t in StrayNeighbours(BridgeNeighbours(neighbours), want)
    ensures var have, after := BridgeNeighbours(neighbours), BridgeNeighbours(neighbours - {(t.0, t.2)});
      && after == have - {t}
      && StrayNeighbours(after, want) == StrayNeighbours(have, want) - {t}
      && want - after == want - have
    ensures ForeignNeighbours(neighbours - {(t.0, t.2)}) == ForeignNeighbours(neighbours)
  {
    var have := BridgeNeighbours(neighbours);
    assert BridgeNeighbours(neighbours - {(t.0, t.2)}) == have - {t};
    assert StrayNeighbours(have - {t}, want) == StrayNeighbours(have, want) - {t};
  }

  lemma NeighbourPut(neighbours: map<(string, string), string>, want: set<Triple>, t: Triple)
    requires FunctionalNeighbours(want) && t in want && t !in BridgeNeighbours(neighbours)
    requires StartsWith(t.2, "k6t-") && Lower(t.1) == t.1
    requires StrayNeighbours(BridgeNeighbours(neighbours), want) == {}
    ensures var have, after := BridgeNeighbours(neighbours), BridgeNeighbours(neighbours[(t.0, t.2) := t.1]);
      && StrayNeighbours(after, want) == {}
      && want - after == want - have - {t}
    ensures ForeignNeighbours(neighbours[(t.0, t.2) := t.1]) == ForeignNeighbours(neighbours)
  {
    var have, after := BridgeNeighbours(neighbours), BridgeNeighbours(neighbours[(t.0, t.2) := t.1]);
    assert forall n :: n in after <==> n == t || (n in have && !(n.0 == t.0 && n.2 == t.2));
    forall n | n in after - want ensures Mentioned(n, want) {
      assert n in have - want && n !in StrayNeighbours(have, want);
    }
    assert StrayNeighbours(after, want) == {};
  }

  lemma StepDropRoute(desired: seq<Resolved>, pod: Pod) returns (next: Pod)
    requires WellFormed(pod) && Now(desired, pod).dropRoutes != []
    ensures var g := Now(desired, pod);
      && next == pod.(routes := pod.routes - {g.dropRoutes[0].0})
      && WellFormed(next) && Undisturbed(desired, pod, next)
      && Now(desired, next) == g.(dropRoutes := g.dropRoutes[1..])
  {
    var have, want := OwnRoutes(pod.routes), WantRoutes(desired);
    SortedTail(have - want);
    var t := SortedTriples(have - want)[0];
    next := Pod(pod.chain, pod.routes - {t.0}, pod.neighbours);
    RouteRemoved(pod.routes, want, t);
  }

  lemma StepDropNeighbour(desired: seq<Resolved>, pod: Pod) returns (next: Pod)
    requires WellFormed(pod) && Now(desired, pod).dropNeighbours != []
    ensures var g := Now(desired, pod);
      && next == pod.(neighbours := pod.neighbours - {(g.dropNeighbours[0].0, g.dropNeighbours[0].2)})
      && WellFormed(next) && Undisturbed(desired, pod, next)
      && Now(desired, next) == g.(dropNeighbours := g.dropNeighbours[1..])
  {
    var have, want := BridgeNeighbours(pod.neighbours), WantNeighbours(desired);
    SortedTail(StrayNeighbours(have, want));
    var t := SortedTriples(StrayNeighbours(have, want))[0];
    next := Pod(pod.chain, pod.routes, pod.neighbours - {(t.0, t.2)});
    NeighbourRemoved(pod.neighbours, want, t);
  }

  lemma StepPutNeighbour(desired: seq<Resolved>, pod: Pod) returns (next: Pod)
    requires WellFormed(pod) && Plain(desired) && Consistent(desired)
    requires Now(desired, pod).dropNeighbours == [] && Now(desired, pod).putNeighbours != []
    ensures var g := Now(desired, pod);
      && next == pod.(neighbours := pod.neighbours[(g.putNeighbours[0].0, g.putNeighbours[0].2) := g.putNeighbours[0].1])
      && WellFormed(next) && Undisturbed(desired, pod, next)
      && Now(desired, next) == g.(putNeighbours := g.putNeighbours[1..])
  {
    var have, want := BridgeNeighbours(pod.neighbours), WantNeighbours(desired);
    SortedTail(want - have);
    var t := SortedTriples(want - have)[0];
    var r :| r in desired && t == (r.snatTo, Lower(r.gatewayMac), r.bridge);
    LowerTwice(r.gatewayMac);
    next := Pod(pod.chain, pod.routes, pod.neighbours[(t.0, t.2) := t.1]);
    NeighbourPut(pod.neighbours, want, t);
  }

  lemma StepPutRoute(desired: seq<Resolved>, pod: Pod) returns (next: Pod)
    requires WellFormed(pod) && Consistent(desired)
    requires Now(desired, pod).dropRoutes == [] && Now(desired, pod).putRoutes != []
    ensures var g := Now(desired, pod);
      && next == pod.(routes := pod.routes[g.putRoutes[0].0 := Hop(g.putRoutes[0].1, g.putRoutes[0].2, ROUTE_PROTO)])
      && WellFormed(next) && Undisturbed(desired, pod, next)
      && Now(desired, next) == g.(putRoutes := g.putRoutes[1..])
  {
    var have, want := OwnRoutes(pod.routes), WantRoutes(desired);
    SortedTail(want - have);
    var t := SortedTriples(want - have)[0];
    next := Pod(pod.chain, pod.routes[t.0 := Hop(t.1, t.2, ROUTE_PROTO)], pod.neighbours);
    assert have - want == {};
    assert t.0 in Claimed(desired);
    RoutePut(pod.routes, want, t);
    assert OwnRoutes(next.routes) - want == have - want;
  }

  lemma RuleAdded(rules: seq<string>, want: set<string>, rule: string)
    requires Surplus(rules, want, {}) == [] && rule in MissingRules(rules, want)
    ensures Surplus(rules + [rule], want, {}) == []
    ensures MissingRules(rules + [rule], want) == MissingRules(rules, want) - {rule}
  {
    NoSurplusAppend(rules, want, {}, rule);
  }

  lemma StepAddRule(desired: seq<Resolved>, pod: Pod) returns (next: Pod)
    requires WellFormed(pod) && Plain(desired)
    requires Now(desired, pod).dropRules == [] && Now(desired, pod).addRules != []
    ensures var g := Now(desired, pod);
      && next == pod.(chain := pod.chain + [g.addRules[0]])
      && WellFormed(next) && Undisturbed(desired, pod, next)
      && Now(desired, next) == g.(addRules := g.addRules[1..])
  {
    var rules, want := OwnedLines(pod.chain), WantRules(desired);
    var rule := SortedStrings(MissingRules(rules, want))[0];
    assert rule in MissingRules(rules, want);
    WantedRulesAreOwned(desired);
    next := Pod(pod.chain + [rule], pod.routes, pod.neighbours);
    AppendOwned(pod.chain, rule);
    RuleAdded(rules, want, rule);
  }

  /** What the first command leaves behind. */
  function After(pod: Pod, g: Groups): Pod
    requires !IsEmpty(g)
  {
    if g.dropRules != [] then pod.(chain := RemoveFirst(pod.chain, g.dropRules[0]))
    else if g.dropRoutes != [] then pod.(routes := pod.routes - {g.dropRoutes[0].0})
    else if g.dropNeighbours != [] then
      pod.(neighbours := pod.neighbours - {(g.dropNeighbours[0].0, g.dropNeighbours[0].2)})
    else if g.putNeighbours != [] then
      var t := g.putNeighbours[0];
      pod.(neighbours := pod.neighbours[(t.0, t.2) := t.1])
    else if g.putRoutes != [] then
      var t := g.putRoutes[0];
      pod.(routes := pod.routes[t.0 := Hop(t.1, t.2, ROUTE_PROTO)])
    else pod.(chain := pod.chain + [g.addRules[0]])
  }

  lemma FirstRuns(desired: seq<Resolved>, pod: Pod)
    requires WellFormed(pod) && Plain(desired) && !IsEmpty(Now(desired, pod))
    ensures Exec(Head(ARGV, Now(desired, pod)), pod) == Some(After(pod, Now(desired, pod)))
  {
    if Stage(Now(desired, pod)) in {0, 5} {
      FirstRuleRuns(desired, pod);
    } else {
      FirstEntryRuns(desired, pod);
    }
  }

  lemma FirstRuleRuns(desired: seq<Resolved>, pod: Pod)
    requires WellFormed(pod) && Plain(desired) && !IsEmpty(Now(desired, pod)) && Stage(Now(desired, pod)) in {0, 5}
    ensures Exec(Head(ARGV, Now(desired, pod)), pod) == Some(After(pod, Now(desired, pod)))
  {
    var g := Now(desired, pod);
    if g.dropRules != [] {
      SurplusRule(desired, pod);
      ExecDelRule(g.dropRules[0], pod);
    } else {
      MissingRule(desired, pod);
      ExecAddRule(g.addRules[0], pod);
    }
  }

  lemma SurplusRule(desired: seq<Resolved>, pod: Pod)
    requires WellFormed(pod) && Now(desired, pod).dropRules != []
    ensures var rule := Now(desired, pod).dropRules[0];
      IsOwned(rule) && Canonical(rule) && rule in pod.chain
  {
    SurplusMember(OwnedLines(pod.chain), WantRules(desired), {});
    assert Now(desired, pod).dropRules[0] in OwnedLines(pod.chain);
  }

  lemma MissingRule(desired: seq<Resolved>, pod: Pod)
    requires Plain(desired) && Now(desired, pod).addRules != []
    ensures var rule := Now(desired, pod).addRules[0];
      IsOwned(rule) && Canonical(rule)
  {
    WantedRulesAreOwned(desired);
    assert Now(desired, pod).addRules[0] in Now(desired, pod).addRules;
  }

  lemma FirstEntryRuns(desired: seq<Resolved>, pod: Pod)
    requires !IsEmpty(Now(desired, pod)) && Stage(Now(desired, pod)) in {1, 2, 3, 4}
    ensures Exec(Head(ARGV, Now(desired, pod)), pod) == Some(After(pod, Now(desired, pod)))
  {
    var g := Now(desired, pod);
    if g.dropRoutes != [] {
      assert g.dropRoutes[0] in g.dropRoutes;
      ExecDelRoute(g.dropRoutes[0], pod);
    } else if g.dropNeighbours != [] {
      assert g.dropNeighbours[0] in g.dropNeighbours;
      ExecDelNeigh(g.dropNeighbours[0], pod);
    } else if g.putNeighbours != [] {
      ExecPutNeigh(g.putNeighbours[0], pod);
    } else {
      ExecPutRoute(g.putRoutes[0], pod);
    }
  }

  lemma StepGroups(desired: seq<Resolved>, pod: Pod)
    requires WellFormed(pod) && Plain(desired) && Consistent(desired) && !IsEmpty(Now(desired, pod))
    ensures var g := Now(desired, pod); var next := After(pod, g);
      WellFormed(next) && Undisturbed(desired, pod, next) && Now(desired, next) == Tail(g)
  {
    var g, next := Now(desired, pod), pod;
    if g.dropRules != [] {
      next := StepDropRule(desired, pod);
    } else if g.dropRoutes != [] {
      next := StepDropRoute(desired, pod);
    } else if g.dropNeighbours != [] {
      next := StepDropNeighbour(desired, pod);
    } else if g.putNeighbours != [] {
      next := StepPutNeighbour(desired, pod);
    } else if g.putRoutes != [] {
      next := StepPutRoute(desired, pod);
    } else {
      next := StepAddRule(desired, pod);
    }
  }

  predicate IsEmpty(g: Groups)
  {
    g == Groups([], [], [], [], [], [])
  }

  function Head(s: Spelling, g: Groups): Command
    requires !IsEmpty(g)
  {
    if g.dropRules != [] then s.dropRule(g.dropRules[0])
    else if g.dropRoutes != [] then s.dropRoute(g.dropRoutes[0])
    else if g.dropNeighbours != [] then s.dropNeighbour(g.dropNeighbours[0])
    else if g.putNeighbours != [] then s.putNeighbour(g.putNeighbours[0])
    else if g.putRoutes != [] then s.putRoute(g.putRoutes[0])
    else s.addRule(g.addRules[0])
  }

  /** A plan without its first command. */
  function Tail(g: Groups): Groups
    requires !IsEmpty(g)
  {
    if g.dropRules != [] then g.(dropRules := g.dropRules[1..])
    else if g.dropRoutes != [] then g.(dropRoutes := g.dropRoutes[1..])
    else if g.dropNeighbours != [] then g.(dropNeighbours := g.dropNeighbours[1..])
    else if g.putNeighbours != [] then g.(putNeighbours := g.putNeighbours[1..])
    else if g.putRoutes != [] then g.(putRoutes := g.putRoutes[1..])
    else g.(addRules := g.addRules[1..])
  }

  /** The first command of a list of groups is the first of the first group that has one. */
  lemma {:induction false} FlattenTail(groups: seq<seq<Command>>, i: nat)
    requires i < |groups| && groups[i] != [] && forall j :: 0 <= j < i ==> groups[j] == []
    ensures Flatten(groups) == [groups[i][0]] + Flatten(groups[i := groups[i][1..]])
  {
    var n := |groups| - 1;
    var rest := groups[i := groups[i][1..]];
    if i < n {
      FlattenTail(groups[..n], i);
      assert groups[..n][i := groups[i][1..]] == rest[..n];
    } else {
      FlattenEmpty(groups[..n]);
      assert rest[..n] == groups[..n];
    }
  }

  lemma {:induction false} FlattenEmpty(groups: seq<seq<Command>>)
    requires forall j :: 0 <= j < |groups| ==> groups[j] == []
    ensures Flatten(groups) == []
  {
    if groups != [] {
      FlattenEmpty(groups[..|groups| - 1]);
    }
  }

  /** Which group a plan is working through. */
  function Stage(g: Groups): nat
    requires !IsEmpty(g)
  {
    if g.dropRules != [] then 0 else if g.dropRoutes != [] then 1 else if g.dropNeighbours != [] then 2
    else if g.putNeighbours != [] then 3 else if g.putRoutes != [] then 4 else 5
  }

  lemma MapSeqTail<A>(f: A -> Command, s: seq<A>)
    requires s != []
    ensures MapSeq(f, s)[1..] == MapSeq(f, s[1..])
  {
  }

  lemma SpellTail(s: Spelling, g: Groups)
    requires !IsEmpty(g)
    ensures Flatten(Spell(s, g)) == [Head(s, g)] + Flatten(Spell(s, Tail(g)))
  {
    var groups, i := Spell(s, g), Stage(g);
    FlattenTail(groups, i);
    match i {
    case 0 => MapSeqTail(s.dropRule, g.dropRules);
    case 1 => MapSeqTail(s.dropRoute, g.dropRoutes);
    case 2 => MapSeqTail(s.dropNeighbour, g.dropNeighbours);
    case 3 => MapSeqTail(s.putNeighbour, g.putNeighbours);
    case 4 => MapSeqTail(s.putRoute, g.putRoutes);
    case _ => MapSeqTail(s.addRule, g.addRules);
    }
    assert groups[i := groups[i][1..]] == Spell(s, Tail(g));
  }

  lemma {:induction false} EmptySpelling(s: Spelling, g: Groups)
    ensures Flatten(Spell(s, g)) == [] <==> IsEmpty(g)
  {
    if !IsEmpty(g) {
      SpellTail(s, g);
    } else {
      FlattenEmpty(Spell(s, g));
    }
  }
}
