/** A reconciler whose plan, made again after its first command, is the rest of it. */
module Reconcile {
  import opened Text

  function Run<P, C>(exec: (C, P) -> Option<P>, commands: seq<C>, p: P): Option<P>
  {
    if commands == [] then Some(p)
    else
      match exec(commands[0], p)
      case None => None
      case Some(next) => Run(exec, commands[1..], next)
  }

  /** The first command of a plan runs, keeps `inv`, and leaves the rest of the plan. */
  predicate DrainsAt<P(!new), C(==)>(plan: P -> seq<C>, exec: (C, P) -> Option<P>, inv: P -> bool, p: P)
  {
    inv(p) && plan(p) != [] ==>
      var next := exec(plan(p)[0], p);
      next.Some? && inv(next.value) && plan(next.value) == plan(p)[1..]
  }

  /** What led up to here leads on to after the next command. */
  predicate LeadsOn<P(!new), C>(plan: P -> seq<C>, exec: (C, P) -> Option<P>, inv: P -> bool, rel: (P, P) -> bool, o: P, p: P)
  {
    inv(p) && plan(p) != [] && rel(o, p) && exec(plan(p)[0], p).Some? ==> rel(o, exec(plan(p)[0], p).value)
  }

  /** Every plan drains, one command at a time, and every run of it is in `rel`. */
  ghost predicate Drains<P(!new), C(!new)>(
    plan: P -> seq<C>, exec: (C, P) -> Option<P>, inv: P -> bool, rel: (P, P) -> bool)
  {
    && (forall p: P :: rel(p, p))
    && (forall p: P :: DrainsAt(plan, exec, inv, p))
    && (forall o: P, p: P :: LeadsOn(plan, exec, inv, rel, o, p))
  }

  lemma {:induction false} RunAppend<P, C>(exec: (C, P) -> Option<P>, a: seq<C>, b: seq<C>, p: P)
    requires Run(exec, a, p).Some?
    ensures Run(exec, a + b, p) == Run(exec, b, Run(exec, a, p).value)
  {
    if a == [] {
      assert a + b == b;
    } else {
      RunAppend(exec, a[1..], b, exec(a[0], p).value);
      assert (a + b)[0] == a[0] && (a + b)[1..] == a[1..] + b;
    }
  }

  /** Stopped after any number of commands, the plan is its own unexecuted rest. */
  lemma {:induction false} Resume<P(!new), C(!new)>(
    plan: P -> seq<C>, exec: (C, P) -> Option<P>, inv: P -> bool, rel: (P, P) -> bool, p: P, k: nat) returns (mid: P)
    requires Drains(plan, exec, inv, rel) && inv(p) && k <= |plan(p)|
    ensures Run(exec, plan(p)[..k], p) == Some(mid)
    ensures inv(mid) && rel(p, mid) && plan(mid) == plan(p)[k..]
  {
    if k == 0 {
      mid := p;
    } else {
      var before := Resume(plan, exec, inv, rel, p, k - 1);
      var command := plan(p)[k - 1];
      assert plan(before)[0] == command;
      assert DrainsAt(plan, exec, inv, before) && LeadsOn(plan, exec, inv, rel, p, before);
      mid := exec(command, before).value;
      assert Run(exec, [command], before) == Some(mid);
      RunAppend(exec, plan(p)[..k - 1], [command], p);
      assert plan(p)[..k] == plan(p)[..k - 1] + [command];
    }
  }

  function Min(a: nat, b: nat): nat { if a < b then a else b }

  function Sum(s: seq<nat>): nat
  {
    if s == [] then 0 else s[0] + Sum(s[1..])
  }

  /** Passes over the same thing, each planning anew and getting through some number of its commands. */
  function Passes<P, C>(plan: P -> seq<C>, exec: (C, P) -> Option<P>, p: P, reach: seq<nat>): Option<P>
    decreases |reach|
  {
    if reach == [] then Some(p)
    else
      match Run(exec, plan(p)[..Min(reach[0], |plan(p)|)], p)
      case None => None
      case Some(next) => Passes(plan, exec, next, reach[1..])
  }

  /** However the passes are cut short, each command run is one fewer to run. */
  lemma {:induction false} PassesDrain<P(!new), C(!new)>(
    plan: P -> seq<C>, exec: (C, P) -> Option<P>, inv: P -> bool, rel: (P, P) -> bool, p: P, reach: seq<nat>)
    returns (after: P)
    requires Drains(plan, exec, inv, rel) && inv(p)
    ensures Passes(plan, exec, p, reach) == Some(after)
    ensures inv(after) && plan(after) == plan(p)[Min(Sum(reach), |plan(p)|)..]
    decreases |reach|
  {
    if reach == [] {
      after := p;
    } else {
      var k := Min(reach[0], |plan(p)|);
      var mid := Resume(plan, exec, inv, rel, p, k);
      var m := Min(Sum(reach[1..]), |plan(mid)|);
      assert plan(p)[k..][m..] == plan(p)[k + m..];
      after := PassesDrain(plan, exec, inv, rel, mid, reach[1..]);
    }
  }

  /** Something commands can be run against, which may stop answering at any time; the first command that goes
      unanswered may have been carried out all the same. */
  class Machine<P(!new), C(!new)> {
    const exec: (C, P) -> Option<P>
    const unheard: bool  // whether it was
    var state: P
    var answers: nat     // commands until then

    constructor (exec: (C, P) -> Option<P>, state: P, answers: nat, unheard: bool)
      ensures this.exec == exec && this.state == state && this.answers == answers && this.unheard == unheard
    {
      this.exec, this.state, this.answers, this.unheard := exec, state, answers, unheard;
    }

    method RunOne(command: C) returns (ok: bool)
      modifies this
      ensures ok <==> old(answers) > 0 && exec(command, old(state)).Some?
      ensures state == if (ok || (old(answers) == 0 && unheard)) && exec(command, old(state)).Some?
                       then exec(command, old(state)).value else old(state)
      ensures answers == if old(answers) > 0 then old(answers) - 1 else 0
    {
      ok := false;
      var result := exec(command, state);
      if answers > 0 {
        answers := answers - 1;
        ok := result.Some?;
        state := if result.Some? then result.value else state;
      } else if unheard && result.Some? {
        state := result.value;
      }
    }

    /** How many commands can be carried out before a pass ends: those answered, and perhaps one more. */
    function Reach(): nat
      reads this
    {
      answers + if unheard then 1 else 0
    }

    /** Commands one after the other up to the first that fails: how many there were if none did. */
    method RunAll(commands: seq<C>) returns (applied: Option<nat>, ghost ran: nat)
      modifies this
      ensures ran <= |commands| && ran <= old(Reach()) && Run(exec, commands[..ran], old(state)) == Some(state)
      ensures applied.Some? ==> applied.value == ran == |commands| <= old(answers)
      ensures applied.None? ==> (ran < |commands| && exec(commands[ran], state).None?) || old(answers) < |commands|
      ensures ran < |commands| && ran < old(Reach()) ==> exec(commands[ran], state).None?
    {
      ran := 0;
      for i := 0 to |commands|
        invariant ran == i && answers + i == old(answers)
        invariant Run(exec, commands[..i], old(state)) == Some(state)
      {
        ghost var before := state;
        var answered := answers > 0;
        var ok := RunOne(commands[i]);
        RunStep(exec, commands, i, old(state), before);
        if !ok {
          return None, if !answered && unheard && exec(commands[i], before).Some? then i + 1 else i;
        }
        ran := i + 1;
      }
      assert commands[..|commands|] == commands;
      return Some(|commands|), |commands|;
    }
  }

  lemma RunStep<P, C>(exec: (C, P) -> Option<P>, commands: seq<C>, i: nat, start: P, before: P)
    requires i < |commands| && Run(exec, commands[..i], start) == Some(before)
    ensures Run(exec, commands[..i + 1], start) == exec(commands[i], before)
  {
    assert commands[..i + 1] == commands[..i] + [commands[i]];
    RunAppend(exec, commands[..i], [commands[i]], start);
    var next := exec(commands[i], before);
    assert [commands[i]][1..] == [] && (next.Some? ==> Run(exec, [], next.value) == next);
  }
}
