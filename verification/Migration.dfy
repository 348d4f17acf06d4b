/** Live-migration figures from virt-handler's metrics (src/extensions/migration.rs). */
module Migration {
  import opened Text
  import Ipv4

  // ---- `label` ----

  const ASSIGN := "=\""

  function TrimCommas(s: string): string
  {
    if s != "" && s[0] == ',' then TrimCommas(s[1..]) else s
  }

  /** The first label of a set: its name, its value, and what follows. */
  function NextLabel(labels: string): (next: Option<(string, string, string)>)
    ensures next.Some? ==> |next.value.2| < |labels|
  {
    match Find(labels, ASSIGN)
    case None => None
    case Some(eq) =>
      var name, after := Trim(TrimCommas(labels[..eq])), labels[eq + 2..];
      match Find(after, "\"")
      case None => None
      case Some(end) => Some((name, after[..end], after[end + 1..]))
  }

  /** What stands between the quotes after the first label so named. */
  function Label(labels: string, key: string): Option<string>
    decreases |labels|
  {
    match NextLabel(labels)
    case None => None
    case Some((name, value, rest)) => if name == key then Some(value) else Label(rest, key)
  }

  method FindLabel(labels: string, key: string) returns (value: Option<string>)
    ensures value == Label(labels, key)
  {
    var rest := labels;
    while true
      invariant Label(rest, key) == Label(labels, key)
      decreases |rest|
    {
      var next := NextLabel(rest);
      if next.None? {
        return None;
      }
      if next.value.0 == key {
        return Some(next.value.1);
      }
      rest := next.value.2;
    }
  }

  /** A label's name: visible, with nothing in it that has a meaning in a label set. */
  predicate IsName(s: string)
  {
    s != "" && forall i | 0 <= i < |s| :: s[i] != '=' && s[i] != '"' && s[i] != ',' && !IsSpace(s[i])
  }

  predicate IsValue(s: string)
  {
    '"' !in s
  }

  datatype Pair = Pair(name: string, value: string)

  function Shown(pair: Pair): string
  {
    pair.name + ("=\"" + (pair.value + "\""))
  }

  /** A label set as Prometheus prints it. */
  function Render(pairs: seq<Pair>): string
  {
    if pairs == [] then "" else if |pairs| == 1 then Shown(pairs[0]) else Shown(pairs[0]) + ("," + Render(pairs[1..]))
  }

  function FirstValue(pairs: seq<Pair>, key: string): Option<string>
  {
    if pairs == [] then None else if pairs[0].name == key then Some(pairs[0].value) else FirstValue(pairs[1..], key)
  }

  /** One label, with or without a comma before it, and whatever follows. */
  lemma LabelStep(comma: string, pair: Pair, rest: string, key: string)
    requires IsName(pair.name) && IsValue(pair.value) && comma in {"", ","}
    ensures Label(comma + (Shown(pair) + rest), key) == if pair.name == key then Some(pair.value) else Label(rest, key)
  {
    var name, tail := comma + pair.name, pair.value + ("\"" + rest);
    assert comma + (Shown(pair) + rest) == name + (ASSIGN + tail);
    LabelAt(name, tail, key);
    NameTrims(comma, pair.name);
    ValueEnds(pair.value, rest);
  }

  lemma LabelAt(name: string, tail: string, key: string)
    requires forall i | 0 <= i < |name| :: name[i] != '='
    ensures Label(name + (ASSIGN + tail), key) ==
            match Find(tail, "\"")
            case None => None
            case Some(end) => if Trim(TrimCommas(name)) == key then Some(tail[..end]) else Label(tail[end + 1..], key)
  {
    NextLabelAt(name + (ASSIGN + tail), name, tail);
  }

  lemma NextLabelAt(s: string, name: string, tail: string)
    requires s == name + (ASSIGN + tail) && forall i | 0 <= i < |name| :: name[i] != '='
    ensures NextLabel(s) ==
            match Find(tail, "\"")
            case None => None
            case Some(end) => Some((Trim(TrimCommas(name)), tail[..end], tail[end + 1..]))
  {
    FindAssign(name, tail);
    Sliced(s, name, ASSIGN, tail);
  }

  lemma Sliced(s: string, a: string, b: string, c: string)
    requires s == a + (b + c)
    ensures s[..|a|] == a && s[|a| + |b|..] == c
  {
  }

  lemma ValueEnds(value: string, rest: string)
    requires IsValue(value)
    ensures var tail := value + ("\"" + rest);
            Find(tail, "\"") == Some(|value|) && tail[..|value|] == value && tail[|value| + 1..] == rest
  {
    assert value + ("\"" + rest) == value + ['"'] + rest;
    FindChar(value, '"', rest);
  }

  lemma FindAssign(name: string, tail: string)
    requires forall i | 0 <= i < |name| :: name[i] != '='
    ensures Find(name + (ASSIGN + tail), ASSIGN) == Some(|name|)
  {
    var s := name + (ASSIGN + tail);
    forall i | 0 <= i < |name| ensures !StartsWith(s[i..], ASSIGN) { Mismatch(s, i, ASSIGN, 0); }
    assert s[|name|..] == ASSIGN + tail;
    FindIs(s, ASSIGN, |name|);
  }

  lemma NameTrims(comma: string, name: string)
    requires IsName(name) && comma in {"", ","}
    ensures Trim(TrimCommas(comma + name)) == name
  {
    assert "" + name == name && ("," + name)[1..] == name;
    assert TrimCommas(name) == name;
    TrimSolid(name);
  }

  /** Any label is read back from a printed set, wherever in it it stands. */
  lemma {:induction false} LabelReadsBack(comma: string, pairs: seq<Pair>, key: string)
    requires comma in {"", ","} && forall i | 0 <= i < |pairs| :: IsName(pairs[i].name) && IsValue(pairs[i].value)
    ensures Label(comma + Render(pairs), key) == FirstValue(pairs, key)
    decreases |pairs|
  {
    NothingFound(key);
    if pairs == [] {
      assert comma + "" == comma;
    } else {
      var rest := if |pairs| == 1 then "" else "," + Render(pairs[1..]);
      assert Render(pairs) == Shown(pairs[0]) + rest;
      LabelStep(comma, pairs[0], rest, key);
      if |pairs| > 1 {
        LabelReadsBack(",", pairs[1..], key);
      }
    }
  }

  lemma NothingFound(key: string)
    ensures Label("", key) == None && Label(",", key) == None
  {
    FindAbsent("", ASSIGN, 0);
    FindAbsent(",", ASSIGN, 0);
  }

  // ---- `parse_transfer` ----

  /** `i64::from_str`: a sign or none, digits, within bounds. */
  function ParseSigned(s: string): Option<int>
  {
    var negative := s != "" && s[0] == '-';
    var digits := if negative then s[1..] else s;
    var parsed := Ipv4.ParseUnsigned(digits, if negative then 0x8000_0000_0000_0000 else 0x7FFF_FFFF_FFFF_FFFF);
    if parsed.None? || (negative && digits[0] == '+') then None
    else
      var n: int := parsed.value;
      if negative then Some(-n) else Some(n)
  }

  datatype Metric = TotalBytes | BytesTotal | Processed | Remaining | TransferRate | DirtyRate | Unknown(name: string)

  const TOTAL_BYTES := "data_bytes_total"
  const BYTES_TOTAL := "data_total_bytes"
  const PROCESSED := "data_processed_bytes"
  const REMAINING := "data_remaining_bytes"
  const TRANSFER_RATE := "memory_transfer_rate_bytes"
  const DIRTY_RATE := "dirty_memory_rate_bytes"

  /** A metric by its name, the common prefix left out. */
  function MetricOf(name: string): Metric
  {
    if name == TOTAL_BYTES then TotalBytes
    else if name == BYTES_TOTAL then BytesTotal
    else if name == PROCESSED then Processed
    else if name == REMAINING then Remaining
    else if name == TRANSFER_RATE then TransferRate
    else if name == DIRTY_RATE then DirtyRate
    else Unknown(name)
  }

  /** Each figure has its names, and no other. */
  lemma MetricNames(name: string)
    ensures MetricOf(name) == TotalBytes || MetricOf(name) == BytesTotal <==> name in {"data_bytes_total", "data_total_bytes"}
    ensures MetricOf(name) == Processed <==> name == "data_processed_bytes"
    ensures MetricOf(name) == Remaining <==> name == "data_remaining_bytes"
    ensures MetricOf(name) == TransferRate <==> name == "memory_transfer_rate_bytes"
    ensures MetricOf(name) == DirtyRate <==> name == "dirty_memory_rate_bytes"
  {
    assert |TOTAL_BYTES| == 16 && |BYTES_TOTAL| == 16 && TOTAL_BYTES[5] != BYTES_TOTAL[5];
    assert |PROCESSED| == 20 && |REMAINING| == 20 && PROCESSED[5] != REMAINING[5];
    assert |TRANSFER_RATE| == 26 && |DIRTY_RATE| == 23;
  }

  datatype Sample<V> = Sample(metric: Metric, value: V, at: int)

  const PREFIX := "kubevirt_vmi_migration_"
  const NAMESPACE := "namespace"
  const NAME := "name"

  /** What one line says about this VMI; `parse` reads a float. */
  function SampleOf<V>(parse: string -> Option<V>, namespace: string, vmi: string, line: string): Option<Sample<V>>
  {
    if !StartsWith(line, PREFIX) then None
    else match SplitOnce(line[|PREFIX|..], '{')
         case None => None
         case Some((metric, rest)) =>
           match SplitOnce(rest, '}')
           case None => None
           case Some((labels, values)) =>
             if Label(labels, NAMESPACE) != Some(namespace) || Label(labels, NAME) != Some(vmi) then None
             else ReadSample(parse, MetricOf(metric), Words(values))
  }

  function ReadSample<V>(parse: string -> Option<V>, metric: Metric, fields: seq<string>): Option<Sample<V>>
  {
    if fields == [] then None
    else match parse(fields[0])
         case None => None
         case Some(value) =>
           Some(Sample(metric, value, if |fields| == 1 then 0 else match ParseSigned(fields[1]) case Some(at) => at case None => 0))
  }

  // ---- What virt-handler prints ----

  /** A sample with its labels, or any other line. */
  datatype Line = Line(metric: string, labels: seq<Pair>, fields: seq<string>) | Other(text: string)

  function LineText(line: Line): string
  {
    match line
    case Line(metric, labels, fields) => PREFIX + (metric + "{" + (Render(labels) + "}" + (" " + Join(fields))))
    case Other(text) => text
  }

  predicate LabelOk(pair: Pair)
  {
    && IsName(pair.name) && '}' !in pair.name
    && IsValue(pair.value) && '}' !in pair.value && '\n' !in pair.value
  }

  predicate LineOk(line: Line)
  {
    match line
    case Line(metric, labels, fields) =>
      && '{' !in metric && '\n' !in metric
      && (forall pair | pair in labels :: LabelOk(pair))
      && (forall field | field in fields :: Solid(field))
    case Other(text) => '\n' !in text && StripCr(text) == text && !StartsWith(text, PREFIX)
  }

  /** What a line says of this VMI. */
  function Said<V>(parse: string -> Option<V>, namespace: string, vmi: string, line: Line): Option<Sample<V>>
  {
    match line
    case Line(metric, labels, fields) =>
      if FirstValue(labels, NAMESPACE) == Some(namespace) && FirstValue(labels, NAME) == Some(vmi)
      then ReadSample(parse, MetricOf(metric), fields) else None
    case Other(_) => None
  }

  lemma {:induction false} RenderClean(labels: seq<Pair>)
    requires forall pair | pair in labels :: LabelOk(pair)
    ensures '}' !in Render(labels) && '\n' !in Render(labels)
  {
    if labels != [] {
      assert LabelOk(labels[0]);
      assert '}' !in Shown(labels[0]) && '\n' !in Shown(labels[0]);
      RenderClean(labels[1..]);
    }
  }

  lemma {:induction false} JoinLine(fields: seq<string>)
    requires forall field | field in fields :: Solid(field)
    ensures '\n' !in Join(fields) && StripCr(" " + Join(fields)) == " " + Join(fields)
  {
    if |fields| == 1 {
      assert Solid(fields[0]) && fields[0][|fields[0]| - 1] in fields[0];
    } else if |fields| > 1 {
      assert Solid(fields[0]);
      JoinLine(fields[1..]);
      var rest := " " + Join(fields[1..]);
      assert " " + Join(fields) == " " + fields[0] + rest;
    }
  }

  lemma StripSuffix(pre: string, post: string)
    requires post != "" && StripCr(post) == post
    ensures StripCr(pre + post) == pre + post
  {
  }

  /** A line is one line, with no carriage return to strip. */
  lemma LineIsOne(line: Line)
    requires LineOk(line)
    ensures '\n' !in LineText(line) && StripCr(LineText(line)) == LineText(line)
  {
    match line
    case Line(metric, labels, fields) =>
      RenderClean(labels);
      JoinLine(fields);
      var begin, end := PREFIX + metric + "{" + Render(labels) + "}", " " + Join(fields);
      assert PREFIX == "kubevirt_vmi_migration_" && '\n' !in PREFIX;
      assert LineText(line) == begin + end && '\n' !in begin;
      StripSuffix(begin, end);
    case Other(text) =>
  }

  /** A printed line is read for what it says: a sample of this VMI if its labels, in any order, are this VMI's. */
  lemma LineReadsBack<V>(parse: string -> Option<V>, namespace: string, vmi: string, line: Line)
    requires LineOk(line)
    ensures SampleOf(parse, namespace, vmi, LineText(line)) == Said(parse, namespace, vmi, line)
  {
    match line
    case Line(metric, labels, fields) =>
      var end := " " + Join(fields);
      var rest := Render(labels) + "}" + end;
      var text := metric + "{" + rest;
      assert LineText(line)[..|PREFIX|] == PREFIX && LineText(line)[|PREFIX|..] == text;
      Ipv4.SplitShown(metric, '{', rest);
      RenderClean(labels);
      Ipv4.SplitShown(Render(labels), '}', end);
      LabelsRead(labels);
      WordsOfJoin(fields);
      assert Words(end) == Words(end[1..]) && end[1..] == Join(fields);
    case Other(text) =>
  }

  lemma LabelsRead(labels: seq<Pair>)
    requires forall pair | pair in labels :: LabelOk(pair)
    ensures forall key :: Label(Render(labels), key) == FirstValue(labels, key)
  {
    assert forall i | 0 <= i < |labels| :: LabelOk(labels[i]);
    forall key ensures Label(Render(labels), key) == FirstValue(labels, key) {
      assert "" + Render(labels) == Render(labels);
      LabelReadsBack("", labels, key);
    }
  }

  /** Where no name comes twice, the label of a name is the one that is there. */
  lemma {:induction false} FirstValueIs(labels: seq<Pair>, key: string, value: string)
    requires forall i, j | 0 <= i < j < |labels| :: labels[i].name != labels[j].name
    ensures FirstValue(labels, key) == Some(value) <==> Pair(key, value) in labels
  {
    if labels != [] {
      assert labels == [labels[0]] + labels[1..];
      FirstValueIs(labels[1..], key, value);
    }
  }

  function ShowSigned(n: int): string
  {
    if n < 0 then "-" + Ipv4.Decimal(-n) else Ipv4.Decimal(n)
  }

  lemma DigitsParse(size: nat, most: nat)
    requires size <= most
    ensures var digits := Ipv4.Decimal(size);
            && Ipv4.ParseUnsigned(digits, most) == Some(size) && Solid(digits)
            && digits[0] != '+' && digits[0] != '-'
  {
    Ipv4.DecimalRoundTrip(size);
    DigitsSolid(Ipv4.Decimal(size));
  }

  lemma DigitsSolid(digits: string)
    requires digits != "" && forall c | c in digits :: Ipv4.IsDigit(c)
    ensures Solid(digits) && Ipv4.IsDigit(digits[0]) && digits[0] != '+' && digits[0] != '-'
  {
    assert digits[0] in digits;
  }

  lemma SignedRoundTrip(n: int)
    requires -0x8000_0000_0000_0000 <= n <= 0x7FFF_FFFF_FFFF_FFFF
    ensures ParseSigned(ShowSigned(n)) == Some(n) && Solid(ShowSigned(n))
  {
    if n < 0 {
      DigitsParse(-n, 0x8000_0000_0000_0000);
      NegativeParses(Ipv4.Decimal(-n), -n);
    } else {
      DigitsParse(n, 0x7FFF_FFFF_FFFF_FFFF);
    }
  }

  lemma NegativeParses(digits: string, size: nat)
    requires Ipv4.ParseUnsigned(digits, 0x8000_0000_0000_0000) == Some(size) && Solid(digits) && digits[0] != '+'
    ensures ParseSigned("-" + digits).Some? && ParseSigned("-" + digits).value + size == 0 && Solid("-" + digits)
  {
    assert ("-" + digits)[0] == '-' && ("-" + digits)[1..] == digits;
  }

  /** The sample of a metric of this VMI is read exactly if the line carries its namespace and its name. */
  lemma SampleReadsBack<V>(parse: string -> Option<V>, namespace: string, vmi: string,
                           metric: string, labels: seq<Pair>, figure: string, at: int)
    requires LineOk(Line(metric, labels, [figure, ShowSigned(at)])) && parse(figure).Some?
    requires forall i, j | 0 <= i < j < |labels| :: labels[i].name != labels[j].name
    requires -0x8000_0000_0000_0000 <= at <= 0x7FFF_FFFF_FFFF_FFFF
    ensures var read := SampleOf(parse, namespace, vmi, LineText(Line(metric, labels, [figure, ShowSigned(at)])));
            read == if Pair(NAMESPACE, namespace) in labels && Pair(NAME, vmi) in labels
                    then Some(Sample(MetricOf(metric), parse(figure).value, at)) else None
  {
    LineReadsBack(parse, namespace, vmi, Line(metric, labels, [figure, ShowSigned(at)]));
    FirstValueIs(labels, NAMESPACE, namespace);
    FirstValueIs(labels, NAME, vmi);
    SignedRoundTrip(at);
  }

  // ---- The samples ----

  /** The samples of this VMI, in the order they are printed. */
  function Samples<L, V>(sample: L -> Option<Sample<V>>, lines: seq<L>): seq<Sample<V>>
  {
    if lines == [] then []
    else Samples(sample, lines[..|lines| - 1])
         + match sample(lines[|lines| - 1]) case Some(s) => [s] case None => []
  }

  datatype Transfer<V> = Transfer(
    total: Option<nat>, processed: Option<nat>, remaining: Option<nat>, transferRate: Option<V>, dirtyRate: Option<V>,
    sampledAt: Option<int>)

  /** The newest sample of a metric: of those with the greatest time, the last. */
  function Newest<V>(samples: seq<Sample<V>>, metric: Metric): Option<Sample<V>>
  {
    if samples == [] then None else
    var before, last := Newest(samples[..|samples| - 1], metric), samples[|samples| - 1];
    if last.metric == metric && (before.None? || before.value.at <= last.at) then Some(last) else before
  }

  /** That is what it means. */
  predicate IsNewest<V(==)>(samples: seq<Sample<V>>, metric: Metric, k: nat)
  {
    && k < |samples| && samples[k].metric == metric
    && (forall j | 0 <= j < |samples| && samples[j].metric == metric :: samples[j].at <= samples[k].at)
    && (forall j | k < j < |samples| && samples[j].metric == metric :: samples[j].at < samples[k].at)
  }

  lemma {:induction false} NewestIs<V>(samples: seq<Sample<V>>, metric: Metric) returns (k: nat)
    ensures Newest(samples, metric).None? ==> forall j | 0 <= j < |samples| :: samples[j].metric != metric
    ensures Newest(samples, metric).Some? ==> IsNewest(samples, metric, k) && samples[k] == Newest(samples, metric).value
  {
    k := 0;
    if samples != [] {
      var init := samples[..|samples| - 1];
      k := NewestIs(init, metric);
      if Newest(samples, metric) != Newest(init, metric) || Newest(init, metric).None? {
        k := |samples| - 1;
      } else if samples[|samples| - 1].metric == metric && Newest(init, metric).value.at <= samples[|samples| - 1].at {
        k := |samples| - 1;
      }
    }
  }

  // ---- The loop ----

  datatype State<V> = State(newest: map<Metric, int>, transfer: Transfer<V>)

  predicate Recognised(metric: Metric)
  {
    !metric.Unknown?
  }

  /** Where a metric goes. */
  function Store<V>(t: Transfer<V>, s: Sample<V>, bytes: V -> nat): Transfer<V>
  {
    match s.metric
    case TotalBytes => t.(total := Some(bytes(s.value)))
    case BytesTotal => t.(total := Some(bytes(s.value)))
    case Processed => t.(processed := Some(bytes(s.value)))
    case Remaining => t.(remaining := Some(bytes(s.value)))
    case TransferRate => t.(transferRate := Some(s.value))
    case DirtyRate => t.(dirtyRate := Some(s.value))
    case Unknown(_) => t
  }

  function Later(seen: Option<int>, at: int): Option<int>
  {
    match seen case Some(t) => Some(if t > at then t else at) case None => Some(at)
  }

  /** One sample: skipped if an earlier line of its metric was taken later. */
  function Take<V>(state: State<V>, s: Sample<V>, bytes: V -> nat): State<V>
  {
    if s.metric in state.newest && state.newest[s.metric] > s.at then state else
    var stored := Store(state.transfer, s, bytes);
    State(state.newest[s.metric := s.at],
          if Recognised(s.metric) && s.at > 0 then stored.(sampledAt := Later(stored.sampledAt, s.at)) else stored)
  }

  function Begin<V>(): State<V>
  {
    State(map[], Transfer(None, None, None, None, None, None))
  }

  function TakeAll<V>(samples: seq<Sample<V>>, bytes: V -> nat): State<V>
  {
    if samples == [] then Begin() else Take(TakeAll(samples[..|samples| - 1], bytes), samples[|samples| - 1], bytes)
  }

  method TakeLines<V>(sample: string -> Option<Sample<V>>, bytes: V -> nat, lines: seq<string>) returns (transfer: Transfer<V>)
    ensures transfer == TakeAll(Samples(sample, lines), bytes).transfer
  {
    transfer := Transfer(None, None, None, None, None, None);
    var newest: map<Metric, int> := map[];
    for i := 0 to |lines|
      invariant State(newest, transfer) == TakeAll(Samples(sample, lines[..i]), bytes)
    {
      assert lines[..i + 1][..i] == lines[..i];
      var read := sample(lines[i]);
      SamplesMore(sample, lines, i, bytes);
      if read.None? {
        continue;
      }
      var s := read.value;
      if s.metric in newest && newest[s.metric] > s.at {
        continue;
      }
      newest := newest[s.metric := s.at];
      transfer := Store(transfer, s, bytes);
      if Recognised(s.metric) && s.at > 0 {
        transfer := transfer.(sampledAt := Later(transfer.sampledAt, s.at));
      }
    }
    assert lines[..|lines|] == lines;
  }

  lemma SamplesMore<V>(sample: string -> Option<Sample<V>>, lines: seq<string>, i: nat, bytes: V -> nat)
    requires i < |lines|
    ensures match sample(lines[i])
            case None => Samples(sample, lines[..i + 1]) == Samples(sample, lines[..i])
            case Some(s) =>
              TakeAll(Samples(sample, lines[..i + 1]), bytes) == Take(TakeAll(Samples(sample, lines[..i]), bytes), s, bytes)
  {
    var before := Samples(sample, lines[..i]);
    assert lines[..i + 1][..i] == lines[..i];
    match sample(lines[i])
    case None => assert before + [] == before;
    case Some(s) => assert (before + [s])[..|before|] == before;
  }

  // ---- What the figures are ----

  function Bytes<V>(sample: Option<Sample<V>>, bytes: V -> nat): Option<nat>
  {
    match sample case Some(s) => Some(bytes(s.value)) case None => None
  }

  function Value<V>(sample: Option<Sample<V>>): Option<V>
  {
    match sample case Some(s) => Some(s.value) case None => None
  }

  /** `newest` holds the newest time of each metric. */
  lemma {:induction false} NewestTimes<V>(samples: seq<Sample<V>>, metric: Metric, bytes: V -> nat)
    ensures var newest := TakeAll(samples, bytes).newest;
            (metric in newest <==> Newest(samples, metric).Some?)
            && (metric in newest ==> newest[metric] == Newest(samples, metric).value.at)
  {
    if samples != [] {
      NewestTimes(samples[..|samples| - 1], metric, bytes);
    }
  }

  /** The processed bytes, the remaining bytes and the two rates are as the newest samples have them. */
  predicate Figures<V(==)>(t: Transfer<V>, newest: Metric -> Option<Sample<V>>, bytes: V -> nat)
  {
    && t.processed == Bytes(newest(Processed), bytes)
    && t.remaining == Bytes(newest(Remaining), bytes)
    && t.transferRate == Value(newest(TransferRate))
    && t.dirtyRate == Value(newest(DirtyRate))
  }

  lemma NewestMore<V>(init: seq<Sample<V>>, last: Sample<V>, metric: Metric)
    ensures var before := Newest(init, metric);
            Newest(init + [last], metric) ==
            if last.metric == metric && (before.None? || before.value.at <= last.at) then Some(last) else before
  {
    assert (init + [last])[..|init|] == init;
  }

  /** The newest sample of a metric changes with a taken sample of it, and with nothing else. */
  lemma TakenIsNewest<V>(state: State<V>, init: seq<Sample<V>>, last: Sample<V>, metric: Metric)
    requires last.metric in state.newest <==> Newest(init, last.metric).Some?
    requires last.metric in state.newest ==> state.newest[last.metric] == Newest(init, last.metric).value.at
    ensures Newest(init + [last], metric) ==
            if metric == last.metric && !(last.metric in state.newest && state.newest[last.metric] > last.at) then Some(last)
            else Newest(init, metric)
  {
    NewestMore(init, last, metric);
  }

  lemma FiguresMore<V>(state: State<V>, before: Metric -> Option<Sample<V>>, last: Sample<V>,
                       after: Metric -> Option<Sample<V>>, bytes: V -> nat)
    requires Figures(state.transfer, before, bytes)
    requires forall metric :: after(metric) ==
                              if metric == last.metric && !(last.metric in state.newest && state.newest[last.metric] > last.at)
                              then Some(last) else before(metric)
    ensures Figures(Take(state, last, bytes).transfer, after, bytes)
  {
  }

  /** Each figure is the value on the last line among those with the greatest time for its metric. */
  lemma {:induction false} FiguresAreNewest<V>(samples: seq<Sample<V>>, bytes: V -> nat)
    ensures Figures(TakeAll(samples, bytes).transfer, metric => Newest(samples, metric), bytes)
  {
    if samples != [] {
      var init, last := samples[..|samples| - 1], samples[|samples| - 1];
      FiguresAreNewest(init, bytes);
      NewestTimes(init, last.metric, bytes);
      var state := TakeAll(init, bytes);
      assert samples == init + [last];
      forall metric
        ensures Newest(samples, metric) ==
                if metric == last.metric && !(last.metric in state.newest && state.newest[last.metric] > last.at)
                then Some(last) else Newest(init, metric)
      {
        TakenIsNewest(state, init, last, metric);
      }
      FiguresMore(state, metric => Newest(init, metric), last, metric => Newest(samples, metric), bytes);
    }
  }

  predicate OfTotal(metric: Metric)
  {
    metric.TotalBytes? || metric.BytesTotal?
  }

  /** The newest sample of either metric for the total, and of the two the one printed later. */
  predicate IsTotal<V(==)>(samples: seq<Sample<V>>, k: nat)
  {
    && k < |samples| && OfTotal(samples[k].metric) && IsNewest(samples, samples[k].metric, k)
    && forall j | k < j < |samples| && OfTotal(samples[j].metric) :: !IsNewest(samples, samples[j].metric, j)
  }

  ghost predicate TotalIs<V>(total: Option<nat>, samples: seq<Sample<V>>, bytes: V -> nat)
  {
    match total
    case None => forall k | 0 <= k < |samples| :: !OfTotal(samples[k].metric)
    case Some(n) => exists k: nat :: IsTotal(samples, k) && n == bytes(samples[k].value)
  }

  /** What a line more does to which samples are newest. */
  lemma NewestAfter<V>(init: seq<Sample<V>>, last: Sample<V>, metric: Metric, j: nat)
    requires j <= |init|
    ensures j < |init| ==> (IsNewest(init + [last], metric, j)
                            <==> IsNewest(init, metric, j) && (last.metric == metric ==> last.at < init[j].at))
    ensures j == |init| ==> (IsNewest(init + [last], metric, j)
                             <==> last.metric == metric
                                  && forall i | 0 <= i < |init| && init[i].metric == metric :: init[i].at <= last.at)
  {
    var all := init + [last];
    assert forall i | 0 <= i < |init| :: all[i] == init[i];
    assert all[|init|] == last;
  }

  lemma TotalStays<V>(init: seq<Sample<V>>, last: Sample<V>, k: nat, top: nat)
    requires IsTotal(init, k)
    requires OfTotal(last.metric) ==> IsNewest(init, last.metric, top) && last.at < init[top].at
    ensures IsTotal(init + [last], k)
  {
    var all := init + [last];
    if last.metric == init[k].metric {
      assert init[k].at == init[top].at;
    }
    NewestAfter(init, last, init[k].metric, k);
    forall j | k < j < |all| && OfTotal(all[j].metric) ensures !IsNewest(all, all[j].metric, j) {
      NewestAfter(init, last, all[j].metric, j);
      if j < |init| {
        assert all[j] == init[j];
      }
    }
  }

  lemma TotalMoves<V>(init: seq<Sample<V>>, last: Sample<V>)
    requires OfTotal(last.metric)
    requires forall i | 0 <= i < |init| && init[i].metric == last.metric :: init[i].at <= last.at
    ensures IsTotal(init + [last], |init|)
  {
    NewestAfter(init, last, last.metric, |init|);
  }

  lemma NewestTop<V>(samples: seq<Sample<V>>, metric: Metric, bytes: V -> nat) returns (top: nat)
    ensures var newest := TakeAll(samples, bytes).newest;
            && (metric in newest ==> IsNewest(samples, metric, top) && newest[metric] == samples[top].at)
            && (metric !in newest ==> forall i | 0 <= i < |samples| :: samples[i].metric != metric)
  {
    NewestTimes(samples, metric, bytes);
    top := NewestIs(samples, metric);
  }

  /** The total is the value on the later line of the newest samples of its two metrics. */
  lemma {:induction false} TotalIsLatest<V>(samples: seq<Sample<V>>, bytes: V -> nat)
    ensures TotalIs(TakeAll(samples, bytes).transfer.total, samples, bytes)
  {
    if samples != [] {
      var init, last := samples[..|samples| - 1], samples[|samples| - 1];
      TotalIsLatest(init, bytes);
      var top := NewestTop(init, last.metric, bytes);
      TotalMore(TakeAll(init, bytes), init, last, bytes, top);
      assert samples == init + [last];
    }
  }

  lemma TotalMore<V>(state: State<V>, init: seq<Sample<V>>, last: Sample<V>, bytes: V -> nat, top: nat)
    requires TotalIs(state.transfer.total, init, bytes)
    requires last.metric in state.newest ==> IsNewest(init, last.metric, top) && state.newest[last.metric] == init[top].at
    requires last.metric !in state.newest ==> forall i | 0 <= i < |init| :: init[i].metric != last.metric
    ensures TotalIs(Take(state, last, bytes).transfer.total, init + [last], bytes)
  {
    var skipped, all := last.metric in state.newest && state.newest[last.metric] > last.at, init + [last];
    if OfTotal(last.metric) && !skipped {
      TotalMoves(init, last);
      assert all[|init|] == last;
    } else if state.transfer.total.Some? {
      var k: nat :| IsTotal(init, k) && state.transfer.total.value == bytes(init[k].value);
      TotalStays(init, last, k, top);
      assert all[k] == init[k];
    } else {
      assert skipped ==> init[top].metric == last.metric;
      assert forall i | 0 <= i < |init| :: all[i] == init[i];
    }
  }

  /** The time of the sample is the greatest positive one of a recognised metric. */
  predicate SampledWhen<V>(sampledAt: Option<int>, samples: seq<Sample<V>>)
  {
    && (forall k | 0 <= k < |samples| && Recognised(samples[k].metric) && samples[k].at > 0 ::
          sampledAt.Some? && samples[k].at <= sampledAt.value)
    && (sampledAt.Some? ==>
          sampledAt.value > 0
          && exists k | 0 <= k < |samples| :: Recognised(samples[k].metric) && samples[k].at == sampledAt.value)
  }

  lemma {:induction false} SampledAtIsGreatest<V>(samples: seq<Sample<V>>, bytes: V -> nat)
    ensures SampledWhen(TakeAll(samples, bytes).transfer.sampledAt, samples)
  {
    if samples != [] {
      var init, last := samples[..|samples| - 1], samples[|samples| - 1];
      SampledAtIsGreatest(init, bytes);
      NewestTimes(init, last.metric, bytes);
      var k := NewestIs(init, last.metric);
      SampledMore(TakeAll(init, bytes), init, last, bytes, k);
      assert samples == init + [last];
    }
  }

  lemma SampledMore<V>(state: State<V>, init: seq<Sample<V>>, last: Sample<V>, bytes: V -> nat, k: nat)
    requires SampledWhen(state.transfer.sampledAt, init)
    requires last.metric in state.newest ==>
               k < |init| && init[k].metric == last.metric && init[k].at == state.newest[last.metric]
    ensures SampledWhen(Take(state, last, bytes).transfer.sampledAt, init + [last])
  {
    var n, all := Take(state, last, bytes).transfer.sampledAt, init + [last];
    if n.Some? {
      if n == state.transfer.sampledAt {
        var j :| 0 <= j < |init| && Recognised(init[j].metric) && init[j].at == n.value;
        assert all[j] == init[j];
      } else {
        assert all[|init|] == last;
      }
    }
  }

  // ---- The whole text ----

  function TransferOf<V>(parse: string -> Option<V>, bytes: V -> nat, metrics: string, namespace: string, vmi: string): Transfer<V>
  {
    TakeAll(Samples(line => SampleOf(parse, namespace, vmi, line), Lines(metrics)), bytes).transfer
  }

  /** `parse_transfer`; `parse` reads a float, and `bytes` makes a count of one. */
  method ParseTransfer<V>(parse: string -> Option<V>, bytes: V -> nat, metrics: string, namespace: string, vmi: string)
    returns (transfer: Transfer<V>)
    ensures transfer == TransferOf(parse, bytes, metrics, namespace, vmi)
  {
    transfer := TakeLines(line => SampleOf(parse, namespace, vmi, line), bytes, Lines(metrics));
  }

  function MetricsText(lines: seq<Line>): string
  {
    Unlines(MapLines(lines))
  }

  function MapLines(lines: seq<Line>): (texts: seq<string>)
    ensures |texts| == |lines| && forall k | 0 <= k < |lines| :: texts[k] == LineText(lines[k])
  {
    seq(|lines|, k requires 0 <= k < |lines| => LineText(lines[k]))
  }

  lemma {:induction false} SamplesAlike<L, M, V>(f: L -> Option<Sample<V>>, s: seq<L>, g: M -> Option<Sample<V>>, t: seq<M>)
    requires |s| == |t| && forall k | 0 <= k < |s| :: f(s[k]) == g(t[k])
    ensures Samples(f, s) == Samples(g, t)
  {
    if s != [] {
      SamplesAlike(f, s[..|s| - 1], g, t[..|t| - 1]);
    }
  }

  lemma TextSamples<V>(parse: string -> Option<V>, namespace: string, vmi: string, lines: seq<Line>)
    requires forall line | line in lines :: LineOk(line)
    ensures Samples(text => SampleOf(parse, namespace, vmi, text), Lines(MetricsText(lines)))
         == Samples(line => Said(parse, namespace, vmi, line), lines)
  {
    var texts := MapLines(lines);
    forall k | 0 <= k < |lines|
      ensures '\n' !in texts[k] && StripCr(texts[k]) == texts[k]
              && SampleOf(parse, namespace, vmi, texts[k]) == Said(parse, namespace, vmi, lines[k])
    {
      assert lines[k] in lines;
      LineIsOne(lines[k]);
      LineReadsBack(parse, namespace, vmi, lines[k]);
    }
    LinesOfUnlines(texts);
    SamplesAlike(text => SampleOf(parse, namespace, vmi, text), texts, line => Said(parse, namespace, vmi, line), lines);
  }

  /** From the text virt-handler prints: each figure is the value on the last line among those of this VMI with the
      greatest time for the metric, the total that on the later such line of its two metrics, and the time of the sample
      the greatest positive one on such a line. */
  lemma TransferReadsBack<V>(parse: string -> Option<V>, bytes: V -> nat, namespace: string, vmi: string, lines: seq<Line>)
    requires forall line | line in lines :: LineOk(line)
    ensures var (t, ours) := (TransferOf(parse, bytes, MetricsText(lines), namespace, vmi),
                              Samples(line => Said(parse, namespace, vmi, line), lines));
            && Figures(t, metric => Newest(ours, metric), bytes) && TotalIs(t.total, ours, bytes)
            && SampledWhen(t.sampledAt, ours)
  {
    TextSamples(parse, namespace, vmi, lines);
    var ours := Samples(line => Said(parse, namespace, vmi, line), lines);
    FiguresAreNewest(ours, bytes);
    TotalIsLatest(ours, bytes);
    SampledAtIsGreatest(ours, bytes);
  }
}
