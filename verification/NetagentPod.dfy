/** A launcher pod's network namespace, and what the plan's commands do to it. */
module NetagentPod {
  import opened Text
  import opened Orders
  import opened NetagentPlan

  datatype Hop = Hop(via: string, dev: string, proto: string)

  /** POSTROUTING as iptables lists it (comments unquoted), the main routing table by
      destination, and the permanent neighbours by address and device. */
  datatype Pod = Pod(
    chain: seq<string>,
    routes: map<string, Hop>,
    neighbours: map<(string, string), string>)

  const OWNED_CHAIN := "-A POSTROUTING"
  const OWNED_COMMENT := "--comment kvw-offsubnet:"

  predicate IsOwned(line: string)
  {
    StartsWith(line, OWNED_CHAIN) && Contains(line, OWNED_COMMENT)
  }

  function OwnedLines(chain: seq<string>): (r: seq<string>)
    ensures forall l :: l in r <==> l in chain && IsOwned(l)
  {
    FilterMembers(IsOwned, chain);
    Filter(IsOwned, chain)
  }

  function ForeignLines(chain: seq<string>): seq<string>
  {
    Filter((l: string) => !IsOwned(l), chain)
  }

  /** `host::current`: the agent's own rules and routes, and every permanent neighbour on a `k6t-` bridge. */
  function Observe(pod: Pod): Current
  {
    Current(OwnedLines(pod.chain), OwnRoutes(pod.routes), BridgeNeighbours(pod.neighbours))
  }

  function OwnRoutes(routes: map<string, Hop>): (r: set<Triple>)
    ensures forall x :: x in r <==> x.0 in routes && routes[x.0] == Hop(x.1, x.2, ROUTE_PROTO)
  {
    set dst | dst in routes && routes[dst].proto == ROUTE_PROTO :: (dst, routes[dst].via, routes[dst].dev)
  }

  function BridgeNeighbours(neighbours: map<(string, string), string>): (r: set<Triple>)
    ensures forall x :: x in r <==>
      (x.0, x.2) in neighbours && StartsWith(x.2, "k6t-") && x.1 == Lower(neighbours[(x.0, x.2)])
  {
    set k | k in neighbours && StartsWith(k.1, "k6t-") :: (k.0, Lower(neighbours[k]), k.1)
  }

  /** Running one command: `None` where the kernel or iptables refuses it. */
  function Exec(cmd: Command, pod: Pod): Option<Pod>
  {
    if |cmd| >= 4 && cmd[0] == "iptables" && cmd[1] == "-t" && cmd[2] == "nat" then
      var line := Join(["-A"] + cmd[4..]);
      if cmd[3] == "-D" then
        if line in pod.chain then Some(pod.(chain := RemoveFirst(pod.chain, line))) else None
      else if cmd[3] == "-A" then
        Some(pod.(chain := pod.chain + [line]))
      else None
    else if |cmd| == 10 && cmd[0] == "ip" && cmd[1] == "route" && cmd[2] == "del"
         && cmd[4] == "via" && cmd[6] == "dev" && cmd[8] == "proto" then
      var hop := Hop(cmd[5], cmd[7], cmd[9]);
      if cmd[3] in pod.routes && pod.routes[cmd[3]] == hop then Some(pod.(routes := pod.routes - {cmd[3]})) else None
    else if |cmd| == 11 && cmd[0] == "ip" && cmd[1] == "route" && cmd[2] == "replace"
         && cmd[4] == "via" && cmd[6] == "dev" && cmd[8] == "onlink" && cmd[9] == "proto" then
      Some(pod.(routes := pod.routes[cmd[3] := Hop(cmd[5], cmd[7], cmd[10])]))
    else if |cmd| == 6 && cmd[0] == "ip" && cmd[1] == "neigh" && cmd[2] == "del" && cmd[4] == "dev" then
      var key := (cmd[3], cmd[5]);
      if key in pod.neighbours then Some(pod.(neighbours := pod.neighbours - {key})) else None
    else if |cmd| == 10 && cmd[0] == "ip" && cmd[1] == "neigh" && cmd[2] == "replace"
         && cmd[4] == "lladdr" && cmd[6] == "dev" && cmd[8] == "nud" && cmd[9] == "permanent" then
      Some(pod.(neighbours := pod.neighbours[(cmd[3], cmd[7]) := cmd[5]]))
    else None
  }

  /** iptables prints a rule with one space between its words. */
  predicate Canonical(line: string)
  {
    Join(Words(line)) == line
  }

  predicate WellFormed(pod: Pod)
  {
    forall l | l in pod.chain && IsOwned(l) :: Canonical(l)
  }

  lemma OwnedStarts(rule: string)
    requires StartsWith(rule, OWNED_CHAIN)
    ensures rule == "-A " + rule[3..]
  {
    assert rule[..14][..3] == rule[..3];
    assert OWNED_CHAIN[..3] == "-A ";
  }

  lemma DeleteWords(rule: string)
    requires StartsWith(rule, OWNED_CHAIN)
    ensures Words(rule) != [] && Words(rule)[0] == "-A"
    ensures Words(ReplaceFirst(rule, "-A ", "-D ")) == ["-D"] + Words(rule)[1..]
  {
    OwnedStarts(rule);
    var rest := " " + rule[3..];
    assert "-A" + rest == "-A " + rule[3..] && "-D" + rest == "-D " + rule[3..];
    WordsStep("-A", rest);
    WordsStep("-D", rest);
    assert rule[0..] == rule && rule[..3] == "-A ";
    FindIs(rule, "-A ", 0);
    assert rule[..0] + "-D " + rule[3..] == "-D " + rule[3..];
  }

  lemma ExecRule(cmd: Command, verb: string, words: seq<string>, rule: string, pod: Pod)
    requires cmd == ["iptables", "-t", "nat"] + ([verb] + words) && Join(["-A"] + words) == rule
    ensures verb == "-D" && rule in pod.chain ==> Exec(cmd, pod) == Some(pod.(chain := RemoveFirst(pod.chain, rule)))
    ensures verb == "-A" ==> Exec(cmd, pod) == Some(pod.(chain := pod.chain + [rule]))
  {
    assert cmd[3] == verb && cmd[4..] == words;
    assert "-A"[1] != "-D"[1];
  }

  lemma ExecDelRule(rule: string, pod: Pod)
    requires IsOwned(rule) && Canonical(rule) && rule in pod.chain
    ensures Exec(DelRule(rule), pod) == Some(pod.(chain := RemoveFirst(pod.chain, rule)))
  {
    DeleteWords(rule);
    var words := Words(rule)[1..];
    assert ["-A"] + words == Words(rule);
    ExecRule(DelRule(rule), "-D", words, rule, pod);
  }

  lemma ExecAddRule(rule: string, pod: Pod)
    requires IsOwned(rule) && Canonical(rule)
    ensures Exec(AddRule(rule), pod) == Some(pod.(chain := pod.chain + [rule]))
  {
    DeleteWords(rule);
    var words := Words(rule)[1..];
    assert ["-A"] + words == Words(rule);
    ExecRule(AddRule(rule), "-A", words, rule, pod);
  }

  lemma ExecDelRoute(t: Triple, pod: Pod)
    requires t.0 in pod.routes && pod.routes[t.0] == Hop(t.1, t.2, ROUTE_PROTO)
    ensures Exec(DelRoute(t), pod) == Some(pod.(routes := pod.routes - {t.0}))
  {
  }

  lemma ExecPutRoute(t: Triple, pod: Pod)
    ensures Exec(PutRoute(t), pod) == Some(pod.(routes := pod.routes[t.0 := Hop(t.1, t.2, ROUTE_PROTO)]))
  {
  }

  lemma ExecDelNeigh(t: Triple, pod: Pod)
    requires (t.0, t.2) in pod.neighbours
    ensures Exec(DelNeigh(t), pod) == Some(pod.(neighbours := pod.neighbours - {(t.0, t.2)}))
  {
  }

  lemma ExecPutNeigh(t: Triple, pod: Pod)
    ensures Exec(PutNeigh(t), pod) == Some(pod.(neighbours := pod.neighbours[(t.0, t.2) := t.1]))
  {
    assert "route"[0] != "neigh"[0];
  }
}
