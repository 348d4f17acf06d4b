/** `Agent::converge`: passes over a pod, each stopping at its first failure, and where they lead. */
module NetagentAgent {
  import opened Text
  import opened Orders
  import opened NetagentPlan
  import opened NetagentPod
  import opened NetagentConverge
  import opened Reconcile

  /** The plan for a pod as it is now. */
  function Planner(desired: seq<Resolved>): Pod -> seq<Command>
  {
    (pod: Pod) => Plan(desired, Observe(pod))
  }

  /** Nothing foreign is touched, and whoever has gained a rule has no surplus rule left. */
  predicate Orderly(desired: seq<Resolved>, before: Pod, after: Pod)
  {
    && Undisturbed(desired, before, after)
    && ((exists l | l in OwnedLines(after.chain) :: l !in OwnedLines(before.chain))
         ==> Surplus(OwnedLines(after.chain), WantRules(desired), {}) == [])
  }

  lemma OrderlyStep(desired: seq<Resolved>, start: Pod, pod: Pod)
    requires WellFormed(pod) && Plain(desired) && Consistent(desired) && !IsEmpty(Now(desired, pod))
    requires Orderly(desired, start, pod)
    ensures Orderly(desired, start, After(pod, Now(desired, pod)))
  {
    var g := Now(desired, pod);
    var next := After(pod, g);
    StepGroups(desired, pod);
    StepRules(desired, pod);
  }

  /** A command adds a rule only once no surplus rule is left, and then none comes back. */
  lemma StepRules(desired: seq<Resolved>, pod: Pod)
    requires WellFormed(pod) && Plain(desired) && Consistent(desired) && !IsEmpty(Now(desired, pod))
    ensures var next := After(pod, Now(desired, pod));
      if Surplus(OwnedLines(pod.chain), WantRules(desired), {}) == []
      then Surplus(OwnedLines(next.chain), WantRules(desired), {}) == []
      else forall l | l in OwnedLines(next.chain) :: l in OwnedLines(pod.chain)
  {
    var g := Now(desired, pod);
    if g.dropRules != [] {
      RemoveFirstMembers(pod.chain, g.dropRules[0]);
    } else {
      StaysClean(desired, pod);
    }
  }

  lemma StaysClean(desired: seq<Resolved>, pod: Pod)
    requires WellFormed(pod) && Plain(desired) && Consistent(desired) && !IsEmpty(Now(desired, pod))
    requires Now(desired, pod).dropRules == []
    ensures Now(desired, After(pod, Now(desired, pod))).dropRules == []
  {
    StepGroups(desired, pod);
  }

  lemma PlannerStep(desired: seq<Resolved>, p: Pod)
    requires Plain(desired) && Consistent(desired) && WellFormed(p) && Planner(desired)(p) != []
    ensures !IsEmpty(Now(desired, p))
    ensures var next := After(p, Now(desired, p));
      && Exec(Planner(desired)(p)[0], p) == Some(next)
      && WellFormed(next)
      && Planner(desired)(next) == Planner(desired)(p)[1..]
  {
    EmptySpelling(ARGV, Now(desired, p));
    SpellTail(ARGV, Now(desired, p));
    FirstRuns(desired, p);
    StepGroups(desired, p);
  }

  /** `Orderly`, as a relation between pods. */
  function Order(desired: seq<Resolved>): (Pod, Pod) -> bool
  {
    (before: Pod, after: Pod) => Orderly(desired, before, after)
  }

  lemma DrainsHere(desired: seq<Resolved>, p: Pod)
    requires Plain(desired) && Consistent(desired)
    ensures DrainsAt(Planner(desired), Exec, WellFormed, p)
  {
    if WellFormed(p) && Planner(desired)(p) != [] {
      PlannerStep(desired, p);
    }
  }

  lemma LeadsHere(desired: seq<Resolved>, o: Pod, p: Pod)
    requires Plain(desired) && Consistent(desired)
    ensures LeadsOn(Planner(desired), Exec, WellFormed, Order(desired), o, p)
  {
    if WellFormed(p) && Planner(desired)(p) != [] && Orderly(desired, o, p) {
      PlannerStep(desired, p);
      OrderlyStep(desired, o, p);
    }
  }

  lemma OrderlyHere(desired: seq<Resolved>, p: Pod)
    ensures Order(desired)(p, p)
  {
  }

  lemma PlanDrains(desired: seq<Resolved>)
    requires Plain(desired) && Consistent(desired)
    ensures Drains(Planner(desired), Exec, WellFormed, Order(desired))
  {
    var plan, rel := Planner(desired), Order(desired);
    forall p: Pod ensures rel(p, p) { OrderlyHere(desired, p); }
    forall p: Pod ensures DrainsAt(plan, Exec, WellFormed, p) { DrainsHere(desired, p); }
    forall o: Pod, p: Pod ensures LeadsOn(plan, Exec, WellFormed, rel, o, p) { LeadsHere(desired, o, p); }
  }

  /** Interrupted after any number of commands and planned again, a plan is its own unexecuted rest.
      No stale rule is still there once a new one has been added. */
  lemma Resumable(desired: seq<Resolved>, pod: Pod, k: nat) returns (mid: Pod)
    requires WellFormed(pod) && Plain(desired) && Consistent(desired)
    requires k <= |Plan(desired, Observe(pod))|
    ensures Run(Exec, Plan(desired, Observe(pod))[..k], pod) == Some(mid)
    ensures Plan(desired, Observe(mid)) == Plan(desired, Observe(pod))[k..]
    ensures WellFormed(mid) && Undisturbed(desired, pod, mid)
    ensures (exists l :: l in OwnedLines(mid.chain) && l !in OwnedLines(pod.chain))
      ==> Distinct(OwnedLines(mid.chain)) && forall l :: l in OwnedLines(mid.chain) ==> l in WantRules(desired)
  {
    PlanDrains(desired);
    mid := Resume(Planner(desired), Exec, WellFormed, Order(desired), pod, k);
    NoSurplus(OwnedLines(mid.chain), WantRules(desired), {});
  }

  lemma RulesSettled(rules: seq<string>, want: set<string>)
    ensures Surplus(rules, want, {}) == [] && SortedStrings(MissingRules(rules, want)) == []
       <==> Distinct(rules) && forall l :: l in rules <==> l in want
  {
    NoSurplus(rules, want, {});
    assert SortedStrings(MissingRules(rules, want)) == [] <==> MissingRules(rules, want) == {};
    assert MissingRules(rules, want) == {} <==> forall l :: l in want ==> l in rules by {
      forall l | l in want && l !in rules ensures l in MissingRules(rules, want) {}
    }
  }

  lemma RoutesSettled(have: set<Triple>, want: set<Triple>)
    ensures SortedTriples(have - want) == [] && SortedTriples(want - have) == [] <==> have == want
  {
    assert have == want <==> have - want == {} && want - have == {};
  }

  lemma NeighboursSettled(have: set<Triple>, want: set<Triple>)
    requires FunctionalNeighbours(have)
    ensures SortedTriples(StrayNeighbours(have, want)) == [] && SortedTriples(want - have) == [] <==> have == want
  {
    if StrayNeighbours(have, want) == {} && want - have == {} {
      forall w | w in want ensures w in have {
        assert w in have || w in want - have;
      }
      forall n | n in have ensures n in want {
        assert n !in StrayNeighbours(have, want);
        assert n !in want ==> Mentioned(n, want);
      }
      assert have == want;
    }
    if have == want {
      assert StrayNeighbours(have, want) == {} && want - have == {};
    }
  }

  /** The plan is empty exactly when the pod already matches. */
  lemma EmptyIffMatches(desired: seq<Resolved>, pod: Pod)
    ensures Plan(desired, Observe(pod)) == [] <==> Matches(desired, Observe(pod))
  {
    var now := Observe(pod);
    EmptySpelling(ARGV, Now(desired, pod));
    RulesSettled(now.rules, WantRules(desired));
    RoutesSettled(now.routes, WantRoutes(desired));
    NeighboursSettled(now.neighbours, WantNeighbours(desired));
  }

  /** Running the whole plan succeeds and leaves exactly what was wanted, whatever was there before —
      if and only if no client range or gateway is wanted two ways. */
  lemma Converges(desired: seq<Resolved>, pod: Pod)
    requires WellFormed(pod) && Plain(desired)
    ensures Consistent(desired) <==>
      (var final := Run(Exec, Plan(desired, Observe(pod)), pod);
       final.Some? && Matches(desired, Observe(final.value)) && Undisturbed(desired, pod, final.value)
       && Plan(desired, Observe(final.value)) == [])
  {
    if Consistent(desired) {
      WholePlan(desired, pod);
    }
  }

  lemma WholePlan(desired: seq<Resolved>, pod: Pod)
    requires WellFormed(pod) && Plain(desired) && Consistent(desired)
    ensures var final := Run(Exec, Plan(desired, Observe(pod)), pod);
      final.Some? && Matches(desired, Observe(final.value)) && Undisturbed(desired, pod, final.value)
      && Plan(desired, Observe(final.value)) == []
  {
    var plan := Plan(desired, Observe(pod));
    var final := Resumable(desired, pod, |plan|);
    assert plan[..|plan|] == plan;
    EmptyIffMatches(desired, final);
  }

  /** Two entries that share a client range but not a gateway are never satisfied. */
  lemma SharedRangeNeverConverges(pod: Pod)
    ensures
      var desired := [Resolved("lan", "k6t-a", ["10.1.0.0/24"], "10.0.5.1", "10.0.0.1", "aa:bb:cc:00:11:22"),
                      Resolved("wan", "k6t-b", ["10.1.0.0/24"], "10.0.6.1", "10.0.1.1", "aa:bb:cc:00:11:33")];
      !Consistent(desired) && !Matches(desired, Observe(pod))
  {
    var a := Resolved("lan", "k6t-a", ["10.1.0.0/24"], "10.0.5.1", "10.0.0.1", "aa:bb:cc:00:11:22");
    var b := Resolved("wan", "k6t-b", ["10.1.0.0/24"], "10.0.6.1", "10.0.1.1", "aa:bb:cc:00:11:33");
    var desired := [a, b];
    assert a in desired && b in desired && "10.1.0.0/24" in a.clients && "10.1.0.0/24" in b.clients;
    var routes := WantRoutes(desired);
    assert ("10.1.0.0/24", a.snatTo, a.bridge) in routes && ("10.1.0.0/24", b.snatTo, b.bridge) in routes;
    assert a.bridge[4] != b.bridge[4];
    assert !FunctionalRoutes(routes);
  }

  lemma PassLeaves(desired: seq<Resolved>, before: Pod, after: Pod, ran: nat, reach: nat)
    requires WellFormed(before) && Plain(desired) && Consistent(desired)
    requires ran <= |Planner(desired)(before)| && ran <= reach
    requires Run(Exec, Planner(desired)(before)[..ran], before) == Some(after)
    requires ran < |Planner(desired)(before)| && ran < reach ==> Exec(Planner(desired)(before)[ran], after).None?
    ensures ran == Min(reach, |Planner(desired)(before)|)
    ensures Planner(desired)(after) == Planner(desired)(before)[ran..]
    ensures WellFormed(after) && Undisturbed(desired, before, after)
    ensures ran == |Planner(desired)(before)| ==> Matches(desired, Observe(after))
  {
    PlanDrains(desired);
    var plan, rel := Planner(desired), Order(desired);
    var mid := Resume(plan, Exec, WellFormed, rel, before, ran);
    assert mid == after;
    assert DrainsAt(plan, Exec, WellFormed, after);
    EmptyIffMatches(desired, after);
  }

  /** One pass over a pod: how many commands ran if all did. Of whatever is desired, a prefix of the plan is carried
      out, up to the first command that fails or goes unanswered, the latter perhaps included; if what is desired can be
      had, none fails by itself, and the rest of the plan is left. */
  method Converge(pod: Machine<Pod, Command>, desired: seq<Resolved>) returns (applied: Option<nat>, ghost ran: nat)
    requires pod.exec == Exec
    modifies pod
    ensures var plan := Planner(desired)(old(pod.state));
      && ran <= |plan| && Run(Exec, plan[..ran], old(pod.state)) == Some(pod.state)
      && (applied.Some? ==> applied.value == ran == |plan|)
      && (ran < |plan| && ran < old(pod.Reach()) ==> Exec(plan[ran], pod.state).None?)
    ensures WellFormed(old(pod.state)) && Plain(desired) && Consistent(desired) ==>
      var plan := Planner(desired)(old(pod.state));
      && ran == Min(old(pod.Reach()), |plan|) && Planner(desired)(pod.state) == plan[ran..]
      && applied == (if old(pod.answers) >= |plan| then Some(|plan|) else None)
      && WellFormed(pod.state) && Undisturbed(desired, old(pod.state), pod.state)
      && (ran == |plan| ==> Matches(desired, Observe(pod.state)))
  {
    var commands := Commands(desired, Observe(pod.state));
    applied, ran := pod.RunAll(commands);
    if WellFormed(old(pod.state)) && Plain(desired) && Consistent(desired) {
      PassLeaves(desired, old(pod.state), pod.state, ran, old(pod.Reach()));
    }
  }

  /** However its passes are cut short, the agent gets there: once they have run as many commands as the
      first plan had, and not before, the pod matches. */
  lemma PassesTerminate(desired: seq<Resolved>, pod: Pod, reach: seq<nat>)
    requires WellFormed(pod) && Plain(desired) && Consistent(desired)
    ensures var after := Passes(Planner(desired), Exec, pod, reach);
      && after.Some? && WellFormed(after.value)
      && |Plan(desired, Observe(after.value))|
           == |Plan(desired, Observe(pod))| - Min(Sum(reach), |Plan(desired, Observe(pod))|)
      && (Sum(reach) >= |Plan(desired, Observe(pod))| <==> Matches(desired, Observe(after.value)))
  {
    PlanDrains(desired);
    var after := PassesDrain(Planner(desired), Exec, WellFormed, Order(desired), pod, reach);
    EmptyIffMatches(desired, after);
  }
}
