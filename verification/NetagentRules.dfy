/** `owned_rules`: reading the agent's SNAT rules back out of an iptables listing. */
module NetagentRules {
  import opened Text
  import opened NetagentPlan
  import opened NetagentPod
  import opened NetagentConverge

  const QUOTED := "--comment \"kvw-offsubnet:"

  /** One listed line, with the agent's comment unquoted; `None` if it is not the agent's. */
  function Normalise(line: string): Option<string>
  {
    if !StartsWith(line, OWNED_CHAIN) then None
    else
      match Find(line, QUOTED)
      case Some(at) =>
        var rest := line[at + |QUOTED|..];
        (match Find(rest, "\"")
         case None => None
         case Some(end) => Some(line[..at] + OWNED_COMMENT + rest[..end] + rest[end + 1..]))
      case None => if Contains(line, OWNED_COMMENT) then Some(line) else None
  }

  function Collect(lines: seq<string>): seq<string>
  {
    if lines == [] then []
    else (match Normalise(Trim(lines[0])) case None => [] case Some(rule) => [rule]) + Collect(lines[1..])
  }

  function OwnedRules(listing: string): seq<string>
  {
    Collect(Lines(listing))
  }

  // ---- what iptables prints ----

  datatype Listed =
    | Agent(r: Resolved, client: string, quoted: bool)  // a rule the agent made, comment quoted or not
    | Foreign(text: string)

  predicate Unquoted(w: string)
  {
    Solid(w) && '"' !in w
  }

  predicate Listable(item: Listed)
  {
    match item
    case Agent(r, client, _) =>
      Unquoted(r.iface) && Unquoted(r.guestIp) && Unquoted(r.snatTo) && Unquoted(client)
    case Foreign(text) =>
      && '\n' !in text
      && (var line := Trim(StripCr(text));
          StartsWith(line, OWNED_CHAIN) ==> !Contains(line, QUOTED) && !Contains(line, OWNED_COMMENT))
  }

  /** The words of a rule as listed, its comment quoted or not. */
  function ListedWords(r: Resolved, client: string, quoted: bool): seq<string>
  {
    var comment := COMMENT_PREFIX + r.iface;
    SnatWords(r, client)[..8] + ["--comment", if quoted then "\"" + comment + "\"" else comment]
    + SnatWords(r, client)[10..]
  }

  function ListedText(item: Listed): string
  {
    match item
    case Foreign(text) => text
    case Agent(r, client, quoted) => Join(ListedWords(r, client, quoted))
  }

  function Listing(items: seq<Listed>): string
  {
    if items == [] then "" else ListedText(items[0]) + "\n" + Listing(items[1..])
  }

  /** The agent's rules among the lines, in order, copies included. */
  function AgentRules(items: seq<Listed>): seq<string>
  {
    if items == [] then []
    else (if items[0].Agent? then [SnatRule(items[0].r, items[0].client)] else []) + AgentRules(items[1..])
  }

  // ---- characters of a joined line ----

  lemma {:induction false} JoinChars(ws: seq<string>, bad: char)
    requires bad != ' ' && forall w :: w in ws ==> bad !in w
    ensures bad !in Join(ws)
  {
    if |ws| > 1 {
      JoinChars(ws[1..], bad);
    }
  }

  lemma WordsUnquoted(r: Resolved, client: string)
    requires Listable(Agent(r, client, true))
    ensures forall w :: w in SnatWords(r, client) ==> Unquoted(w)
  {
    WordsSolid(r, client);
    var words := SnatWords(r, client);
    assert '"' !in words[5] && '"' !in words[9];
    assert '"' !in words[0] && '"' !in words[1] && '"' !in words[2] && '"' !in words[3] && '"' !in words[4];
    assert '"' !in words[6] && '"' !in words[7] && '"' !in words[8];
    assert '"' !in words[10] && '"' !in words[11] && '"' !in words[12] && '"' !in words[13];
  }

  /** A rule's line around its comment. */
  lemma SplitAtComment(before: seq<string>, comment: string, after: seq<string>)
    requires before != [] && after != []
    ensures Join(before + ["--comment", comment] + after) == Join(before) + " " + "--comment " + comment + (" " + Join(after))
  {
    var middle := ["--comment", comment] + after;
    assert before + ["--comment", comment] + after == before + middle;
    JoinAppend(before, middle);
    assert middle[1..] == [comment] + after && ([comment] + after)[1..] == after;
    assert Join(middle) == "--comment" + " " + (comment + " " + Join(after));
  }

  /** The first quote in a quoted line opens the comment, so the pattern is found there and nowhere before. */
  lemma FindQuoted(pre: string, tail: string)
    requires '"' !in pre
    ensures Find(pre + QUOTED + tail, QUOTED) == Some(|pre|)
  {
    var line := pre + QUOTED + tail;
    forall i | 0 <= i < |pre| ensures !StartsWith(line[i..], QUOTED) {
      var j := i + 10;
      assert line[j] == if j < |pre| then pre[j] else QUOTED[j - |pre|];
      assert QUOTED[10] == '"' && forall k :: 0 <= k < 10 ==> QUOTED[k] != '"';
      Mismatch(line, i, QUOTED, 10);
    }
    assert line[|pre|..] == QUOTED + tail;
    assert (QUOTED + tail)[..|QUOTED|] == QUOTED;
    FindIs(line, QUOTED, |pre|);
  }

  lemma UnquoteComment(pre: string, iface: string, post: string)
    requires '"' !in pre && '"' !in iface
    requires StartsWith(pre + QUOTED + (iface + ['"'] + post), OWNED_CHAIN)
    ensures Normalise(pre + QUOTED + (iface + ['"'] + post)) == Some(pre + OWNED_COMMENT + iface + post)
  {
    var rest := iface + ['"'] + post;
    var line := pre + QUOTED + rest;
    FindQuoted(pre, rest);
    assert line[..|pre|] == pre && line[|pre| + |QUOTED|..] == rest;
    FindChar(iface, '"', post);
    assert rest[..|iface|] == iface && rest[|iface| + 1..] == post;
  }

  lemma ListedAsWords(r: Resolved, client: string, quoted: bool)
    requires Listable(Agent(r, client, quoted))
    ensures forall w :: w in ListedWords(r, client, quoted) ==> Solid(w)
  {
    WordsUnquoted(r, client);
    var comment := "\"" + (COMMENT_PREFIX + r.iface) + "\"";
    assert Solid(comment);
  }

  lemma AgentLineClean(r: Resolved, client: string, quoted: bool)
    requires Listable(Agent(r, client, quoted))
    ensures var line := ListedText(Agent(r, client, quoted));
      Trim(line) == line && '\n' !in line && StripCr(line) == line && StartsWith(line, OWNED_CHAIN)
  {
    ListedAsWords(r, client, quoted);
    var listed := ListedWords(r, client, quoted);
    JoinStartsWith(listed);
    JoinEnds(listed);
    JoinChars(listed, '\n');
    TrimSolid(Join(listed));
  }

  /** Both texts of a rule, around the name in its comment. */
  lemma Around(r: Resolved, client: string, pre: string, post: string)
    requires pre == Join(SnatWords(r, client)[..8]) + " " && post == " " + Join(SnatWords(r, client)[10..])
    ensures ListedText(Agent(r, client, true)) == pre + QUOTED + (r.iface + ['"'] + post)
    ensures SnatRule(r, client) == pre + OWNED_COMMENT + r.iface + post
  {
    var words := SnatWords(r, client);
    var before, after := words[..8], words[10..];
    var bare := COMMENT_PREFIX + r.iface;
    SplitAtComment(before, "\"" + bare + "\"", after);
    SplitAtComment(before, bare, after);
    assert words == before + ["--comment", bare] + after;
    Respell(pre, r.iface, post);
  }

  lemma QuotedLine(r: Resolved, client: string)
    requires Listable(Agent(r, client, true))
    ensures Normalise(ListedText(Agent(r, client, true))) == Some(SnatRule(r, client))
  {
    var words := SnatWords(r, client);
    var pre, post := Join(words[..8]) + " ", " " + Join(words[10..]);
    Around(r, client, pre, post);
    AgentLineClean(r, client, true);
    WordsUnquoted(r, client);
    JoinChars(words[..8], '"');
    UnquoteComment(pre, r.iface, post);
  }

  lemma Respell(pre: string, iface: string, post: string)
    ensures pre + "--comment " + ("\"" + (COMMENT_PREFIX + iface) + "\"") + post == pre + QUOTED + (iface + ['"'] + post)
    ensures pre + "--comment " + (COMMENT_PREFIX + iface) + post == pre + OWNED_COMMENT + iface + post
  {
    assert QUOTED == "--comment " + ("\"" + COMMENT_PREFIX);
    assert OWNED_COMMENT == "--comment " + COMMENT_PREFIX;
  }

  lemma PlainLine(r: Resolved, client: string)
    requires Listable(Agent(r, client, false))
    ensures Normalise(ListedText(Agent(r, client, false))) == Some(SnatRule(r, client))
  {
    var words := SnatWords(r, client);
    assert words == ListedWords(r, client, false);
    WordsUnquoted(r, client);
    JoinChars(words, '"');
    FindAbsent(Join(words), QUOTED, 10);
    WantedRuleIsOwned(r, client);
  }

  lemma {:induction false} JoinEnds(ws: seq<string>)
    requires ws != [] && forall w :: w in ws ==> Solid(w)
    ensures Join(ws) != "" && !IsSpace(Join(ws)[0]) && !IsSpace(Join(ws)[|Join(ws)| - 1])
  {
    var first := ws[0];
    assert Solid(first);
    assert first[0] in first && first[|first| - 1] in first;
    if |ws| > 1 {
      JoinEnds(ws[1..]);
      var rest := Join(ws[1..]);
      assert Join(ws) == first + " " + rest;
    }
  }

  /** Whatever is listed around them and however their comments are quoted, the agent's rules are read back
      exactly, in order and with their copies. */
  lemma {:induction false} RulesReadBack(items: seq<Listed>)
    requires forall i :: i in items ==> Listable(i)
    ensures OwnedRules(Listing(items)) == AgentRules(items)
  {
    if items != [] {
      var line := ListedText(items[0]);
      if items[0].Agent? {
        if items[0].quoted {
          QuotedLine(items[0].r, items[0].client);
        } else {
          PlainLine(items[0].r, items[0].client);
        }
        AgentLineClean(items[0].r, items[0].client, items[0].quoted);
      }
      LinesStep(line, Listing(items[1..]));
      RulesReadBack(items[1..]);
      var all := [StripCr(line)] + Lines(Listing(items[1..]));
      assert Lines(Listing(items)) == all && all[0] == StripCr(line) && all[1..] == Lines(Listing(items[1..]));
    }
  }

  /** The chain a listing shows, comments unquoted. */
  function Shown(items: seq<Listed>): seq<string>
  {
    if items == [] then []
    else [if items[0].Agent? then SnatRule(items[0].r, items[0].client) else items[0].text] + Shown(items[1..])
  }

  /** What the agent reads from a listing is what `Observe` says it sees of the chain. */
  lemma {:induction false} ReadIsObserved(items: seq<Listed>)
    requires forall i :: i in items ==> Listable(i) && (i.Foreign? ==> !IsOwned(i.text))
    ensures OwnedRules(Listing(items)) == OwnedLines(Shown(items))
  {
    RulesReadBack(items);
    ShownOwned(items);
  }

  lemma {:induction false} ShownOwned(items: seq<Listed>)
    requires forall i :: i in items ==> Listable(i) && (i.Foreign? ==> !IsOwned(i.text))
    ensures Filter(IsOwned, Shown(items)) == AgentRules(items)
  {
    if items != [] {
      ShownOwned(items[1..]);
      if items[0].Agent? {
        WantedRuleIsOwned(items[0].r, items[0].client);
      }
    }
  }
}
