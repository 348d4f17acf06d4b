/** What the netagent reports of a VM: one row per interface, the worse outcome of two pods winning (`Agent::apply`),
    and the packets its rules translated (`packet_counts`). */
module NetagentStatus {
  import opened Text
  import Ipv4

  datatype State = Failed | Pending | Applied | Disabled

  datatype Row = Row(iface: string, state: State, message: string)

  function Rank(state: State): nat
  {
    match state case Failed => 3 case Pending => 2 case Applied => 1 case Disabled => 0
  }

  /** Failed is worse than pending, pending than applied, applied than disabled. */
  predicate Worse(a: State, b: State)
  {
    match a
    case Failed => b != Failed
    case Pending => b == Applied || b == Disabled
    case Applied => b == Disabled
    case Disabled => false
  }

  /** The interfaces in the order they are first mentioned. */
  function FirstSeen(names: seq<string>): seq<string>
  {
    if names == [] then [] else
    var before, name := FirstSeen(names[..|names| - 1]), names[|names| - 1];
    if name in before then before else before + [name]
  }

  lemma {:induction false} FirstSeenHolds(names: seq<string>)
    ensures forall name :: name in FirstSeen(names) <==> name in names
    ensures forall i, j | 0 <= i < j < |FirstSeen(names)| :: FirstSeen(names)[i] != FirstSeen(names)[j]
  {
    if names != [] {
      FirstSeenHolds(names[..|names| - 1]);
      assert names == names[..|names| - 1] + [names[|names| - 1]];
    }
  }

  /** The first mention of one is before any of the other. */
  predicate Precedes(names: seq<string>, a: string, b: string)
  {
    exists k | 0 <= k < |names| :: names[k] == a && b !in names[..k + 1]
  }

  lemma {:induction false} FirstSeenOrder(names: seq<string>, i: nat, j: nat)
    requires i < j < |FirstSeen(names)|
    ensures Precedes(names, FirstSeen(names)[i], FirstSeen(names)[j])
  {
    var init, name := names[..|names| - 1], names[|names| - 1];
    var before, a, b := FirstSeen(init), FirstSeen(names)[i], FirstSeen(names)[j];
    if j < |before| {
      FirstSeenOrder(init, i, j);
      var k :| 0 <= k < |init| && init[k] == a && b !in init[..k + 1];
      assert names[k] == a && names[..k + 1] == init[..k + 1];
    } else {
      FirstSeenHolds(init);
      assert a in before && b == name;
      var k :| 0 <= k < |init| && init[k] == a;
      assert names[k] == a && names[..k + 1] == init[..k + 1];
      assert forall x | x in init[..k + 1] :: x in init;
    }
  }

  function Names(rows: seq<Row>): (names: seq<string>)
    ensures |names| == |rows| && forall i | 0 <= i < |rows| :: names[i] == rows[i].iface
  {
    seq(|rows|, i requires 0 <= i < |rows| => rows[i].iface)
  }

  /** No outcome of that interface is worse, and none before it as bad. */
  predicate IsWorst(outcomes: seq<Row>, k: nat)
  {
    && k < |outcomes|
    && (forall j | 0 <= j < |outcomes| && outcomes[j].iface == outcomes[k].iface :: !Worse(outcomes[j].state, outcomes[k].state))
    && (forall j | 0 <= j < k && outcomes[j].iface == outcomes[k].iface :: Worse(outcomes[k].state, outcomes[j].state))
  }

  /** The first of an interface's worst outcomes. */
  function Worst(outcomes: seq<Row>, iface: string): Option<Row>
  {
    if outcomes == [] then None else
    var before, last := Worst(outcomes[..|outcomes| - 1], iface), outcomes[|outcomes| - 1];
    if last.iface == iface && (before.None? || Rank(last.state) > Rank(before.value.state)) then Some(last) else before
  }

  /** That is what it means. */
  lemma {:induction false} WorstIs(outcomes: seq<Row>, iface: string) returns (k: nat)
    ensures Worst(outcomes, iface).None? ==> forall j | 0 <= j < |outcomes| :: outcomes[j].iface != iface
    ensures Worst(outcomes, iface).Some? ==>
              IsWorst(outcomes, k) && outcomes[k] == Worst(outcomes, iface).value && outcomes[k].iface == iface
  {
    k := 0;
    if outcomes != [] {
      var init, last := outcomes[..|outcomes| - 1], outcomes[|outcomes| - 1];
      k := WorstIs(init, iface);
      var before := Worst(init, iface);
      assert forall j | 0 <= j < |init| :: init[j] == outcomes[j];
      if last.iface == iface && (before.None? || Rank(last.state) > Rank(before.value.state)) {
        k := |outcomes| - 1;
      }
    }
  }

  /** One row per interface, in the order they came up, each the first of the interface's worst outcomes. */
  predicate Merged(outcomes: seq<Row>, rows: seq<Row>)
  {
    && Names(rows) == FirstSeen(Names(outcomes))
    && forall i | 0 <= i < |rows| :: Worst(outcomes, rows[i].iface) == Some(rows[i])
  }

  /** `rows.iter_mut().find` */
  function PlaceOf(names: seq<string>, name: string): (place: Option<nat>)
    ensures place.Some? ==> place.value < |names| && names[place.value] == name
    ensures place.None? ==> name !in names
  {
    if names == [] then None
    else if names[|names| - 1] == name then Some(|names| - 1)
    else PlaceOf(names[..|names| - 1], name)
  }

  lemma FirstSeenMore(names: seq<string>, name: string)
    ensures FirstSeen(names + [name]) == FirstSeen(names) + if name in names then [] else [name]
  {
    assert (names + [name])[..|names|] == names;
    FirstSeenHolds(names);
  }

  lemma WorstMore(outcomes: seq<Row>, row: Row, iface: string)
    ensures var before := Worst(outcomes, iface);
            Worst(outcomes + [row], iface) ==
            if row.iface == iface && (before.None? || Rank(row.state) > Rank(before.value.state)) then Some(row) else before
  {
    assert (outcomes + [row])[..|outcomes|] == outcomes;
  }

  lemma MergeNew(outcomes: seq<Row>, rows: seq<Row>, row: Row)
    requires Merged(outcomes, rows) && row.iface !in Names(rows)
    ensures Merged(outcomes + [row], rows + [row])
  {
    FirstSeenHolds(Names(outcomes));
    FirstSeenMore(Names(outcomes), row.iface);
    assert Names(outcomes + [row]) == Names(outcomes) + [row.iface] && Names(rows + [row]) == Names(rows) + [row.iface];
    NothingSeen(outcomes, row.iface);
    forall i | 0 <= i < |rows + [row]| ensures Worst(outcomes + [row], (rows + [row])[i].iface) == Some((rows + [row])[i]) {
      WorstMore(outcomes, row, (rows + [row])[i].iface);
      assert i < |rows| ==> Names(rows)[i] == rows[i].iface;
    }
  }

  lemma MergeInto(outcomes: seq<Row>, rows: seq<Row>, row: Row, at: nat)
    requires Merged(outcomes, rows) && at < |rows| && rows[at].iface == row.iface
    ensures Merged(outcomes + [row], if Rank(row.state) > Rank(rows[at].state) then rows[at := row] else rows)
  {
    var n, names := if Rank(row.state) > Rank(rows[at].state) then rows[at := row] else rows, Names(rows);
    FirstSeenHolds(Names(outcomes));
    assert names[at] == row.iface;
    FirstSeenMore(Names(outcomes), row.iface);
    assert Names(outcomes + [row]) == Names(outcomes) + [row.iface] && Names(n) == names;
    forall i | 0 <= i < |n| ensures Worst(outcomes + [row], n[i].iface) == Some(n[i]) {
      WorstMore(outcomes, row, n[i].iface);
      assert names[i] == n[i].iface && Worst(outcomes, rows[i].iface) == Some(rows[i]);
    }
  }

  lemma {:induction false} NothingSeen(outcomes: seq<Row>, iface: string)
    requires iface !in Names(outcomes)
    ensures Worst(outcomes, iface) == None
  {
    if outcomes != [] {
      var init := outcomes[..|outcomes| - 1];
      assert Names(outcomes) == Names(init) + [outcomes[|outcomes| - 1].iface];
      NothingSeen(init, iface);
    }
  }

  method MergeRows(outcomes: seq<Row>) returns (rows: seq<Row>)
    ensures Merged(outcomes, rows)
  {
    rows := [];
    for i := 0 to |outcomes|
      invariant Merged(outcomes[..i], rows)
    {
      var place := PlaceOf(Names(rows), outcomes[i].iface);
      assert outcomes[..i + 1] == outcomes[..i] + [outcomes[i]];
      if place.None? {
        MergeNew(outcomes[..i], rows, outcomes[i]);
        rows := rows + [outcomes[i]];
      } else {
        MergeInto(outcomes[..i], rows, outcomes[i], place.value);
        if Rank(outcomes[i].state) > Rank(rows[place.value].state) {
          rows := rows[place.value := outcomes[i]];
        }
      }
    }
    assert outcomes[..|outcomes|] == outcomes;
  }

  /** The state of the whole: the worst row's, or disabled if there is nothing to speak of. */
  method Summary(rows: seq<Row>) returns (state: State)
    ensures forall i | 0 <= i < |rows| :: !Worse(rows[i].state, state)
    ensures state == Disabled || exists i | 0 <= i < |rows| :: rows[i].state == state
  {
    state := Disabled;
    for i := 0 to |rows|
      invariant forall j | 0 <= j < i :: Rank(rows[j].state) <= Rank(state)
      invariant state == Disabled || exists j | 0 <= j < i :: rows[j].state == state
    {
      if Rank(rows[i].state) >= Rank(state) {
        state := rows[i].state;
      }
    }
  }

  // ---- `packet_counts` ----

  const MARK := "/* kvw-offsubnet:"
  const U64_MAX := 0xFFFF_FFFF_FFFF_FFFF

  function TakeVisible(s: string): string
  {
    if s == "" || IsSpace(s[0]) then "" else [s[0]] + TakeVisible(s[1..])
  }

  datatype Count = Count(iface: string, packets: nat)

  /** What a line of the verbose listing counts: the first column, for the interface its comment names. */
  function CountOf(line: string): Option<Count>
  {
    match Find(line, MARK)
    case None => None
    case Some(at) =>
      Some(Count(TakeVisible(line[at + |MARK|..]),
                 if Words(line) == [] then 0
                 else match Ipv4.ParseUnsigned(Words(line)[0], U64_MAX) case Some(n) => n case None => 0))
  }

  // ---- What iptables prints ----

  /** A rule of the agent's with its counters, or any other line. `columns` are those between the packets and the
      comment. */
  datatype Counted = Counter(pad: string, packets: nat, columns: string, iface: string, tail: string) | Other(text: string)

  function CountedText(line: Counted): string
  {
    match line
    case Counter(pad, packets, columns, iface, tail) =>
      pad + (Ipv4.Decimal(packets) + (" " + columns)) + MARK + (iface + (" " + tail))
    case Other(text) => text
  }

  predicate OneLine(s: string)
  {
    '\n' !in s && '\r' !in s
  }

  predicate CountedOk(line: Counted)
  {
    match line
    case Counter(pad, packets, columns, iface, tail) =>
      && (forall c | c in pad :: c == ' ') && packets <= U64_MAX
      && OneLine(columns) && ':' !in columns && Solid(iface) && OneLine(tail)
    case Other(text) => OneLine(text) && !Contains(text, MARK)
  }

  /** What a line counts. */
  function Reads(line: Counted): Option<Count>
  {
    match line
    case Counter(_, packets, _, iface, _) => Some(Count(iface, packets))
    case Other(_) => None
  }

  lemma {:induction false} WordsPadded(pad: string, s: string)
    requires forall c | c in pad :: IsSpace(c)
    ensures Words(pad + s) == Words(s)
  {
    if pad == "" {
      assert pad + s == s;
    } else {
      assert pad[0] in pad && (pad + s)[1..] == pad[1..] + s;
      WordsPadded(pad[1..], s);
    }
  }

  lemma {:induction false} VisibleEnds(iface: string, rest: string)
    requires forall c | c in iface :: !IsSpace(c)
    ensures TakeVisible(iface + (" " + rest)) == iface
  {
    var s := iface + (" " + rest);
    if iface != "" {
      assert iface[0] in iface && s[0] == iface[0] && s[1..] == iface[1..] + (" " + rest);
      VisibleEnds(iface[1..], rest);
    }
  }

  /** The mark ends with its only colon, so it is first found where it is. */
  lemma MarkFound(pre: string, post: string)
    requires ':' !in pre
    ensures Find(pre + MARK + post, MARK) == Some(|pre|)
    ensures (pre + MARK + post)[|pre| + |MARK|..] == post
  {
    var s, end := pre + MARK + post, |MARK| - 1;
    assert MARK == "/* kvw-offsubnet:";
    forall i | 0 <= i < |pre| ensures !StartsWith(s[i..], MARK) {
      assert s[i + end] == if i + end < |pre| then pre[i + end] else MARK[i + end - |pre|];
      assert i + end < |pre| ==> pre[i + end] in pre;
      Mismatch(s, i, MARK, end);
    }
    assert s[|pre|..] == MARK + post && (MARK + post)[..|MARK|] == MARK;
    FindIs(s, MARK, |pre|);
  }

  lemma PacketsRead(pad: string, packets: nat, rest: string)
    requires (forall c | c in pad :: c == ' ') && packets <= U64_MAX && rest != "" && IsSpace(rest[0])
    ensures var words := Words(pad + (Ipv4.Decimal(packets) + rest));
            words != [] && Ipv4.ParseUnsigned(words[0], U64_MAX) == Some(packets)
  {
    var digits := Ipv4.Decimal(packets);
    Ipv4.DecimalRoundTrip(packets);
    WordsPadded(pad, digits + rest);
    WordsStep(digits, rest);
    assert digits[0] in digits;
  }

  lemma CountOfIs(line: string, at: nat, iface: string, packets: nat)
    requires Find(line, MARK) == Some(at) && TakeVisible(line[at + |MARK|..]) == iface
    requires Words(line) != [] && Ipv4.ParseUnsigned(Words(line)[0], U64_MAX) == Some(packets)
    ensures CountOf(line) == Some(Count(iface, packets))
  {
  }

  lemma CounterReadsBack(pad: string, packets: nat, columns: string, iface: string, tail: string)
    requires CountedOk(Counter(pad, packets, columns, iface, tail))
    ensures CountOf(CountedText(Counter(pad, packets, columns, iface, tail))) == Some(Count(iface, packets))
  {
    var pre, post := pad + (Ipv4.Decimal(packets) + (" " + columns)), iface + (" " + tail);
    NoColon(pad, packets, columns);
    MarkFound(pre, post);
    VisibleEnds(iface, tail);
    var rest := " " + columns + MARK + post;
    Reshaped(pad, Ipv4.Decimal(packets), columns, MARK, post);
    PacketsRead(pad, packets, rest);
    CountOfIs(pre + MARK + post, |pre|, iface, packets);
  }

  lemma NoColon(pad: string, packets: nat, columns: string)
    requires (forall c | c in pad :: c == ' ') && ':' !in columns
    ensures ':' !in pad + (Ipv4.Decimal(packets) + (" " + columns))
  {
    Ipv4.DecimalRoundTrip(packets);
  }

  lemma Reshaped(a: string, b: string, c: string, d: string, e: string)
    ensures a + (b + (" " + c)) + d + e == a + (b + (" " + c + d + e))
  {
  }

  /** A printed counter is read back, and no other line is taken for one. */
  lemma CountReadsBack(line: Counted)
    requires CountedOk(line)
    ensures CountOf(CountedText(line)) == Reads(line)
  {
    match line
    case Counter(pad, packets, columns, iface, tail) =>
      CounterReadsBack(pad, packets, columns, iface, tail);
    case Other(text) =>
  }

  lemma OneLines(a: string, b: string, c: string, d: string)
    requires OneLine(a) && OneLine(b) && OneLine(c) && OneLine(d)
    ensures OneLine(a + b + c + d) && StripCr(a + b + c + d) == a + b + c + d
  {
    var s := a + b + c + d;
    assert OneLine(s);
    assert s != "" ==> s[|s| - 1] in s;
  }

  lemma CountedIsOne(line: Counted)
    requires CountedOk(line)
    ensures OneLine(CountedText(line)) && StripCr(CountedText(line)) == CountedText(line)
  {
    match line
    case Counter(pad, packets, columns, iface, tail) =>
      Ipv4.DecimalRoundTrip(packets);
      assert MARK == "/* kvw-offsubnet:" && OneLine(MARK);
      assert OneLine(iface) && OneLine(pad) && OneLine(Ipv4.Decimal(packets));
      OneLines(pad, Ipv4.Decimal(packets) + (" " + columns), MARK, iface + (" " + tail));
    case Other(text) =>
  }

  // ---- The tally ----

  function Counts<L>(count: L -> Option<Count>, lines: seq<L>): seq<Count>
  {
    if lines == [] then []
    else Counts(count, lines[..|lines| - 1])
         + match count(lines[|lines| - 1]) case Some(c) => [c] case None => []
  }

  function Total(counts: seq<Count>, iface: string): nat
  {
    if counts == [] then 0
    else Total(counts[..|counts| - 1], iface)
         + if counts[|counts| - 1].iface == iface then counts[|counts| - 1].packets else 0
  }

  function CountNames(counts: seq<Count>): (names: seq<string>)
    ensures |names| == |counts| && forall i | 0 <= i < |counts| :: names[i] == counts[i].iface
  {
    seq(|counts|, i requires 0 <= i < |counts| => counts[i].iface)
  }

  /** Each interface once, in the order they come up, with all of its packets. */
  predicate Tallied(counts: seq<Count>, tally: seq<Count>)
  {
    && CountNames(tally) == FirstSeen(CountNames(counts))
    && forall i | 0 <= i < |tally| :: tally[i].packets == Total(counts, tally[i].iface)
  }

  lemma TotalSnoc(counts: seq<Count>, c: Count, iface: string)
    ensures Total(counts + [c], iface) == Total(counts, iface) + (if c.iface == iface then c.packets else 0)
  {
    assert (counts + [c])[..|counts|] == counts;
  }

  lemma NamesSnoc(counts: seq<Count>, c: Count)
    ensures CountNames(counts + [c]) == CountNames(counts) + [c.iface]
    ensures FirstSeen(CountNames(counts + [c]))
         == FirstSeen(CountNames(counts)) + (if c.iface in CountNames(counts) then [] else [c.iface])
  {
    assert CountNames(counts + [c]) == CountNames(counts) + [c.iface];
    FirstSeenMore(CountNames(counts), c.iface);
  }

  lemma TallyNew(counts: seq<Count>, tally: seq<Count>, c: Count)
    requires Tallied(counts, tally) && c.iface !in CountNames(tally)
    ensures Tallied(counts + [c], tally + [c])
  {
    var n := tally + [c];
    FirstSeenHolds(CountNames(counts));
    NamesSnoc(counts, c);
    assert CountNames(n) == CountNames(tally) + [c.iface];
    NothingCounted(counts, c.iface);
    forall i | 0 <= i < |n| ensures n[i].packets == Total(counts + [c], n[i].iface) {
      TotalSnoc(counts, c, n[i].iface);
      assert i < |tally| ==> CountNames(tally)[i] == n[i].iface;
    }
  }

  lemma TallyMore(counts: seq<Count>, tally: seq<Count>, c: Count, at: nat)
    requires Tallied(counts, tally) && at < |tally| && tally[at].iface == c.iface
    ensures Tallied(counts + [c], tally[at := Count(c.iface, tally[at].packets + c.packets)])
  {
    var n := tally[at := Count(c.iface, tally[at].packets + c.packets)];
    var names := CountNames(tally);
    FirstSeenHolds(CountNames(counts));
    assert names[at] == c.iface;
    NamesSnoc(counts, c);
    assert CountNames(n) == names;
    forall i | 0 <= i < |n| ensures n[i].packets == Total(counts + [c], n[i].iface) {
      TotalSnoc(counts, c, n[i].iface);
      assert names[i] == n[i].iface;
    }
  }

  lemma {:induction false} NothingCounted(counts: seq<Count>, iface: string)
    requires iface !in CountNames(counts)
    ensures Total(counts, iface) == 0
  {
    if counts != [] {
      var init := counts[..|counts| - 1];
      assert CountNames(counts) == CountNames(init) + [counts[|counts| - 1].iface];
      NothingCounted(init, iface);
    }
  }

  method TallyLines(count: string -> Option<Count>, lines: seq<string>) returns (tally: seq<Count>)
    ensures Tallied(Counts(count, lines), tally)
  {
    tally := [];
    for i := 0 to |lines|
      invariant Tallied(Counts(count, lines[..i]), tally)
    {
      assert lines[..i + 1][..i] == lines[..i];
      ghost var before := Counts(count, lines[..i]);
      var read := count(lines[i]);
      if read.None? {
        assert before + [] == before;
        continue;
      }
      var c := read.value;
      var place := PlaceOf(CountNames(tally), c.iface);
      if place.Some? {
        TallyMore(before, tally, c, place.value);
        tally := tally[place.value := Count(c.iface, tally[place.value].packets + c.packets)];
      } else {
        TallyNew(before, tally, c);
        tally := tally + [c];
      }
    }
    assert lines[..|lines|] == lines;
  }

  /** `packet_counts` */
  method PacketCounts(listing: string) returns (tally: seq<Count>)
    ensures Tallied(Counts(CountOf, Lines(listing)), tally)
  {
    tally := TallyLines(CountOf, Lines(listing));
  }

  function CountedTexts(lines: seq<Counted>): (texts: seq<string>)
    ensures |texts| == |lines| && forall k | 0 <= k < |lines| :: texts[k] == CountedText(lines[k])
  {
    seq(|lines|, k requires 0 <= k < |lines| => CountedText(lines[k]))
  }

  lemma {:induction false} CountsAlike<L, M>(f: L -> Option<Count>, s: seq<L>, g: M -> Option<Count>, t: seq<M>)
    requires |s| == |t| && forall k | 0 <= k < |s| :: f(s[k]) == g(t[k])
    ensures Counts(f, s) == Counts(g, t)
  {
    if s != [] {
      CountsAlike(f, s[..|s| - 1], g, t[..|t| - 1]);
    }
  }

  /** What is counted of a printed listing is what its counters say. */
  lemma ListingReadsBack(lines: seq<Counted>)
    requires forall line | line in lines :: CountedOk(line)
    ensures Counts(CountOf, Lines(Unlines(CountedTexts(lines)))) == Counts(Reads, lines)
  {
    var texts := CountedTexts(lines);
    forall k | 0 <= k < |lines|
      ensures '\n' !in texts[k] && StripCr(texts[k]) == texts[k] && CountOf(texts[k]) == Reads(lines[k])
    {
      assert lines[k] in lines;
      CountedIsOne(lines[k]);
      CountReadsBack(lines[k]);
    }
    LinesOfUnlines(texts);
    CountsAlike(CountOf, texts, Reads, lines);
  }
}
