/** What the agent's rules, routes and neighbours do to a packet, read off the pod itself. */
module NetagentTraffic {
  import opened Text
  import opened Orders
  import opened NetagentPlan
  import opened NetagentPod
  import opened NetagentConverge
  import opened NetagentAgent
  import opened Reconcile
  import Ipv4

  type Address = Ipv4.Address

  // ---- what a rule says ----

  /** A rule's options, each a flag and its value. */
  function Options(words: seq<string>): map<string, string>
  {
    if |words| < 2 then map[] else Options(words[2..])[words[0] := words[1]]
  }

  /** An address is in the range that a text writes. */
  ghost predicate Within(text: string, x: Address)
  {
    Ipv4.Cidr(text).Some? && Ipv4.Denotes(text, x)
  }

  /** The source that one line gives to a packet: `None` where the line says nothing of it. */
  ghost function Rewritten(line: string, src: Address, dst: Address): Option<string>
  {
    var words := Words(line);
    if |words| < 2 || words[0] != "-A" || words[1] != "POSTROUTING" then None
    else
      var options := Options(words[2..]);
      if {"-s", "-d", "-j", "--to-source"} <= options.Keys && options["-j"] == "SNAT"
         && Within(options["-s"], src) && Within(options["-d"], dst)
      then Some(options["--to-source"]) else None
  }

  /** The first line that says something of a packet decides. */
  ghost function SourceAfter(lines: seq<string>, src: Address, dst: Address): Option<string>
  {
    if lines == [] then None
    else if Rewritten(lines[0], src, dst).Some? then Rewritten(lines[0], src, dst)
    else SourceAfter(lines[1..], src, dst)
  }

  /** An entry is about the packets from its clients to its guest. */
  ghost predicate Covers(r: Resolved, src: Address, dst: Address)
  {
    Ipv4.ParseAddress(r.guestIp) == Some(dst) && exists c | c in r.clients :: Within(c, src)
  }

  // ---- one address written as a range ----

  lemma NoSlashInAddress(s: string)
    requires Ipv4.ParseAddress(s).Some?
    ensures '/' !in s
  {
    Ipv4.ReadIsShown(s);
    Ipv4.ShownClean(Ipv4.ParseAddress(s).value);
  }

  lemma NoLengthWithSlash(l: string)
    requires '/' in l
    ensures Ipv4.ParseU8(l).None?
  {
    if l[0] == '+' {
      assert l == [l[0]] + l[1..];
    }
    assert !Ipv4.IsDigit('/');
  }

  /** A slash in the address leaves no prefix length that could be read. */
  lemma SlashedTwice(a: string)
    requires Solid(a) && '/' in a
    ensures Ipv4.Cidr(a + "/32").None?
  {
    var text := a + "/32";
    TrimSolid(text);
    FoundFirst(text, '/');
    var (before, after) := SplitOnce(text, '/').value;
    Ipv4.SplitJoins(text, '/');
    assert |before| < |a| by {
      var i :| 0 <= i < |a| && a[i] == '/';
      assert text[i] == '/';
    }
    assert after[|after| - 3] == '/';
    NoLengthWithSlash(after);
  }

  lemma AloneInRange(x: Address, base: Address)
    ensures Ipv4.InRange(x, base, 32, 32) <==> x == base
  {
    Ipv4.AddressBits();
    if Ipv4.InRange(x, base, 32, 32) {
      Ipv4.SameBits(x, base, 32);
    }
  }

  lemma RangeOfOne(a: string)
    requires Solid(a) && '/' !in a
    ensures Ipv4.ParseRange(a + "/32") ==
      match Ipv4.ParseAddress(a) case None => None case Some(base) => Some(Ipv4.Range(base, 32))
  {
    assert Ipv4.Decimal(32) == "32";
    Ipv4.LengthShown(32);
    Ipv4.SlashSplits(a, "32");
    assert a + "/" + "32" == a + "/32";
  }

  /** An address with all its bits counted denotes itself and nothing else. */
  lemma OneAddress(a: string, x: Address)
    requires Solid(a)
    ensures Within(a + "/32", x) <==> Ipv4.ParseAddress(a) == Some(x)
  {
    if '/' in a {
      SlashedTwice(a);
      if Ipv4.ParseAddress(a).Some? {
        NoSlashInAddress(a);
      }
    } else {
      RangeOfOne(a);
      if Ipv4.ParseAddress(a).Some? {
        AloneInRange(x, Ipv4.ParseAddress(a).value);
      }
    }
  }

  // ---- the agent's rules ----

  lemma OptionsStep(flag: string, value: string, rest: seq<string>)
    ensures Options([flag, value] + rest) == Options(rest)[flag := value]
  {
    assert ([flag, value] + rest)[2..] == rest;
  }

  lemma SixOptions(a: string, va: string, b: string, vb: string, c: string, vc: string,
                   d: string, vd: string, e: string, ve: string, f: string, vf: string)
    requires a != b && a != e && a != f && b != e && b != f && e != f && e != c && e != d && f != c && f != d
    ensures var o := Options([a, va, b, vb, c, vc, d, vd, e, ve, f, vf]);
      && {a, b, e, f} <= o.Keys
      && o[a] == va && o[b] == vb && o[e] == ve && o[f] == vf
  {
    var last := [f, vf];
    var four, three := [e, ve] + last, [d, vd] + ([e, ve] + last);
    var two := [c, vc] + three;
    assert last + [] == last;
    OptionsStep(f, vf, []);
    OptionsStep(e, ve, last);
    OptionsStep(d, vd, four);
    OptionsStep(c, vc, three);
    OptionsStep(b, vb, two);
    OptionsStep(a, va, [b, vb] + two);
    assert [a, va] + ([b, vb] + two) == [a, va, b, vb, c, vc, d, vd, e, ve, f, vf];
  }

  lemma FlagsDiffer()
    ensures "-s" != "-d" && "-s" != "-j" && "-s" != "--to-source" && "-d" != "-j" && "-d" != "--to-source"
    ensures "-j" != "--to-source" && "-j" != "-m" && "-j" != "--comment" && "--to-source" != "-m" && "--to-source" != "--comment"
  {
    assert "-s"[1] != "-d"[1] && "-s"[1] != "-j"[1] && "-d"[1] != "-j"[1] && "-j"[1] != "-m"[1];
    assert |"-s"| == 2 && |"-d"| == 2 && |"-m"| == 2 && |"-j"| == 2 && |"--comment"| == 9 && |"--to-source"| == 11;
  }

  lemma OptionsOf(c: string, d: string, comment: string, source: string)
    ensures var o := Options(["-s", c, "-d", d, "-m", "comment", "--comment", comment, "-j", "SNAT", "--to-source", source]);
      && {"-s", "-d", "-j", "--to-source"} <= o.Keys
      && o["-s"] == c && o["-d"] == d && o["-j"] == "SNAT" && o["--to-source"] == source
  {
    FlagsDiffer();
    SixOptions("-s", c, "-d", d, "-m", "comment", "--comment", comment, "-j", "SNAT", "--to-source", source);
  }

  /** One rule, read: from that client range to that guest, as the gateway. */
  lemma RuleRewrites(r: Resolved, c: string, src: Address, dst: Address)
    requires Solid(r.iface) && Solid(r.guestIp) && Solid(r.snatTo) && Solid(c)
    ensures Rewritten(SnatRule(r, c), src, dst) ==
      if Within(c, src) && Ipv4.ParseAddress(r.guestIp) == Some(dst) then Some(r.snatTo) else None
  {
    var words := SnatWords(r, c);
    WordsSolid(r, c);
    WordsOfJoin(words);
    assert words[2..] == ["-s", c, "-d", r.guestIp + "/32", "-m", "comment",
                          "--comment", COMMENT_PREFIX + r.iface, "-j", "SNAT", "--to-source", r.snatTo];
    OptionsOf(c, r.guestIp + "/32", COMMENT_PREFIX + r.iface, r.snatTo);
    OneAddress(r.guestIp, dst);
  }

  lemma {:induction false} FirstDecides(lines: seq<string>, src: Address, dst: Address)
    ensures SourceAfter(lines, src, dst).None? <==> forall l | l in lines :: Rewritten(l, src, dst).None?
    ensures SourceAfter(lines, src, dst).Some? ==>
      exists l | l in lines :: Rewritten(l, src, dst) == SourceAfter(lines, src, dst)
  {
    if lines != [] {
      FirstDecides(lines[1..], src, dst);
      assert lines == [lines[0]] + lines[1..];
    }
  }

  /** What an entry covers, one of the agent's lines rewrites. */
  lemma CoveredIsRewritten(desired: seq<Resolved>, pod: Pod, r: Resolved, src: Address, dst: Address)
    requires Plain(desired) && Matches(desired, Observe(pod)) && r in desired && Covers(r, src, dst)
    ensures exists l | l in OwnedLines(pod.chain) :: Rewritten(l, src, dst).Some?
  {
    var c :| c in r.clients && Within(c, src);
    RuleRewrites(r, c, src, dst);
    assert SnatRule(r, c) in WantRules(desired);
    assert SnatRule(r, c) in Observe(pod).rules;
  }

  /** What one of the agent's lines rewrites, an entry covers, and it is the gateway of that entry. */
  lemma RewrittenIsCovered(desired: seq<Resolved>, pod: Pod, l: string, src: Address, dst: Address)
    requires Plain(desired) && Matches(desired, Observe(pod))
    requires l in OwnedLines(pod.chain) && Rewritten(l, src, dst).Some?
    ensures exists r | r in desired :: Covers(r, src, dst) && Some(r.snatTo) == Rewritten(l, src, dst)
  {
    assert l in Observe(pod).rules && l in WantRules(desired);
    var r, c :| r in desired && c in r.clients && l == SnatRule(r, c);
    RuleRewrites(r, c, src, dst);
  }

  /** On a pod that matches, the agent's rules give a packet the gateway of an entry that covers it, and leave alone
      what no entry covers. */
  lemma TrafficTranslated(desired: seq<Resolved>, pod: Pod, src: Address, dst: Address)
    requires Plain(desired) && Matches(desired, Observe(pod))
    ensures match SourceAfter(OwnedLines(pod.chain), src, dst)
            case None => forall r | r in desired :: !Covers(r, src, dst)
            case Some(source) => exists r | r in desired :: Covers(r, src, dst) && r.snatTo == source
  {
    var lines := OwnedLines(pod.chain);
    FirstDecides(lines, src, dst);
    if SourceAfter(lines, src, dst).None? {
      forall r | r in desired ensures !Covers(r, src, dst) {
        if Covers(r, src, dst) {
          CoveredIsRewritten(desired, pod, r, src, dst);
        }
      }
    } else {
      var l :| l in lines && Rewritten(l, src, dst) == SourceAfter(lines, src, dst);
      RewrittenIsCovered(desired, pod, l, src, dst);
    }
  }

  /** Each client range is routed through its entry's gateway and bridge, and the agent has no other route. */
  predicate Routed(desired: seq<Resolved>, pod: Pod)
  {
    && (forall r, c | r in desired && c in r.clients :: c in pod.routes && pod.routes[c] == Hop(r.snatTo, r.bridge, "252"))
    && (forall c | c in pod.routes && pod.routes[c].proto == "252" :: exists r | r in desired :: c in r.clients)
  }

  /** Each gateway is on its bridge with the MAC asked for, and nobody else is there for good. */
  predicate Reachable(desired: seq<Resolved>, pod: Pod)
  {
    && (forall r | r in desired ::
          (r.snatTo, r.bridge) in pod.neighbours && Lower(pod.neighbours[(r.snatTo, r.bridge)]) == Lower(r.gatewayMac))
    && (forall k | k in pod.neighbours && StartsWith(k.1, "k6t-") :: exists r | r in desired :: k == (r.snatTo, r.bridge))
  }

  lemma TrafficRouted(desired: seq<Resolved>, pod: Pod)
    requires Plain(desired) && Matches(desired, Observe(pod))
    ensures Routed(desired, pod) && Reachable(desired, pod)
  {
    var routes, neighbours := OwnRoutes(pod.routes), BridgeNeighbours(pod.neighbours);
    forall r, c | r in desired && c in r.clients
      ensures c in pod.routes && pod.routes[c] == Hop(r.snatTo, r.bridge, "252")
    {
      assert (c, r.snatTo, r.bridge) in routes;
    }
    forall c | c in pod.routes && pod.routes[c].proto == "252" ensures exists r | r in desired :: c in r.clients {
      assert (c, pod.routes[c].via, pod.routes[c].dev) in routes;
    }
    forall r | r in desired
      ensures (r.snatTo, r.bridge) in pod.neighbours
              && Lower(pod.neighbours[(r.snatTo, r.bridge)]) == Lower(r.gatewayMac)
    {
      assert (r.snatTo, Lower(r.gatewayMac), r.bridge) in neighbours;
    }
    forall k | k in pod.neighbours && StartsWith(k.1, "k6t-") ensures exists r | r in desired :: k == (r.snatTo, r.bridge) {
      assert (k.0, Lower(pod.neighbours[k]), k.1) in neighbours;
    }
  }

  /** So wherever a pod starts from, and however often the agent is interrupted, what it ends up with carries out what
      was asked for, packet by packet. */
  lemma TrafficConverges(desired: seq<Resolved>, pod: Pod, reach: seq<nat>, src: Address, dst: Address)
    requires WellFormed(pod) && Plain(desired) && Consistent(desired)
    requires Sum(reach) >= |Plan(desired, Observe(pod))|
    ensures var after := Passes(Planner(desired), Exec, pod, reach);
      && after.Some? && Routed(desired, after.value) && Reachable(desired, after.value)
      && match SourceAfter(OwnedLines(after.value.chain), src, dst)
         case None => forall r | r in desired :: !Covers(r, src, dst)
         case Some(source) => exists r | r in desired :: Covers(r, src, dst) && r.snatTo == source
  {
    PassesTerminate(desired, pod, reach);
    var after := Passes(Planner(desired), Exec, pod, reach).value;
    TrafficTranslated(desired, after, src, dst);
    TrafficRouted(desired, after);
  }
}
