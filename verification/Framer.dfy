/** Cutting a stream into lines, however it arrives: `Kube::lines`, and the stderr splitter of a disk copy. */
module Framer {
  import opened Text

  function Position<T>(sep: T -> bool, s: seq<T>): (at: Option<nat>)
    ensures at.Some? ==> at.value < |s| && sep(s[at.value])
  {
    if s == [] then None
    else if sep(s[0]) then Some(0)
    else match Position(sep, s[1..]) case None => None case Some(at) => Some(at + 1)
  }

  predicate Clear<T>(sep: T -> bool, s: seq<T>)
  {
    forall i | 0 <= i < |s| :: !sep(s[i])
  }

  lemma {:induction false} PositionIsFirst<T>(sep: T -> bool, s: seq<T>)
    ensures Position(sep, s).None? ==> Clear(sep, s)
    ensures Position(sep, s).Some? ==> Clear(sep, s[..Position(sep, s).value])
  {
    if s != [] && !sep(s[0]) {
      PositionIsFirst(sep, s[1..]);
      assert s == [s[0]] + s[1..];
      match Position(sep, s[1..])
      case None =>
      case Some(at) =>
        assert s[..at + 1] == [s[0]] + s[1..][..at];
    }
  }

  /** The pieces of `acc + s` between separators, `acc` holding none; the last follows the last separator. */
  function SplitFrom<T>(sep: T -> bool, acc: seq<T>, s: seq<T>): (pieces: seq<seq<T>>)
    ensures |pieces| > 0
    decreases |s|
  {
    if s == [] then [acc]
    else if sep(s[0]) then [acc] + SplitFrom(sep, [], s[1..])
    else SplitFrom(sep, acc + [s[0]], s[1..])
  }

  function Split<T>(sep: T -> bool, s: seq<T>): (pieces: seq<seq<T>>)
    ensures |pieces| > 0
  {
    SplitFrom(sep, [], s)
  }

  /** The pieces that a separator ended. */
  function Ended<T>(sep: T -> bool, s: seq<T>): seq<seq<T>>
  {
    Split(sep, s)[..|Split(sep, s)| - 1]
  }

  function Rest<T>(sep: T -> bool, s: seq<T>): seq<T>
  {
    Split(sep, s)[|Split(sep, s)| - 1]
  }

  lemma {:induction false} SplitClear<T>(sep: T -> bool, acc: seq<T>, piece: seq<T>, s: seq<T>)
    requires Clear(sep, piece)
    ensures SplitFrom(sep, acc, piece + s) == SplitFrom(sep, acc + piece, s)
    decreases |piece|
  {
    if piece == [] {
      assert piece + s == s && acc + piece == acc;
    } else {
      assert (piece + s)[0] == piece[0] && (piece + s)[1..] == piece[1..] + s;
      assert acc + piece == acc + [piece[0]] + piece[1..];
      SplitClear(sep, acc + [piece[0]], piece[1..], s);
    }
  }

  lemma SplitStep<T>(sep: T -> bool, piece: seq<T>, c: T, rest: seq<T>)
    requires sep(c) && Clear(sep, piece)
    ensures Split(sep, piece + [c] + rest) == [piece] + Split(sep, rest)
  {
    assert piece + [c] + rest == piece + ([c] + rest) && [] + piece == piece;
    SplitClear(sep, [], piece, [c] + rest);
    assert ([c] + rest)[0] == c && ([c] + rest)[1..] == rest;
  }

  lemma NextPiece<T>(sep: T -> bool, s: seq<T>, at: nat)
    requires Position(sep, s) == Some(at)
    ensures Split(sep, s) == [s[..at]] + Split(sep, s[at + 1..])
  {
    PositionIsFirst(sep, s);
    SplitStep(sep, s[..at], s[at], s[at + 1..]);
    assert s == s[..at] + [s[at]] + s[at + 1..];
  }

  lemma SplitWhole<T>(sep: T -> bool, s: seq<T>)
    requires Clear(sep, s)
    ensures Split(sep, s) == [s]
  {
    SplitClear(sep, [], s, []);
    assert s + [] == s && [] + s == s;
  }

  /** What arrives later only ever extends the last piece. */
  lemma {:induction false} SplitContinues<T>(sep: T -> bool, acc: seq<T>, a: seq<T>, b: seq<T>, pieces: seq<seq<T>>, rest: seq<T>)
    requires SplitFrom(sep, acc, a) == pieces + [rest]
    ensures SplitFrom(sep, acc, a + b) == pieces + SplitFrom(sep, rest, b)
    decreases |a|
  {
    if a == [] {
      assert a + b == b && [acc][|pieces|] == rest && pieces == [];
    } else {
      assert (a + b)[0] == a[0] && (a + b)[1..] == a[1..] + b;
      if sep(a[0]) {
        HeadPiece(acc, SplitFrom(sep, [], a[1..]), pieces, rest);
        SplitContinues(sep, [], a[1..], b, pieces[1..], rest);
        assert pieces == [acc] + pieces[1..];
      } else {
        SplitContinues(sep, acc + [a[0]], a[1..], b, pieces, rest);
      }
    }
  }

  lemma HeadPiece<T>(head: T, tail: seq<T>, front: seq<T>, last: T)
    requires [head] + tail == front + [last] && tail != []
    ensures front != [] && front[0] == head && tail == front[1..] + [last]
  {
    assert |front| == |tail|;
    assert ([head] + tail)[0] == front[0];
    assert ([head] + tail)[1..] == (front + [last])[1..];
  }

  lemma {:induction false} RestClear<T>(sep: T -> bool, acc: seq<T>, s: seq<T>, front: seq<seq<T>>, last: seq<T>)
    requires Clear(sep, acc) && SplitFrom(sep, acc, s) == front + [last]
    ensures Clear(sep, last)
    decreases |s|
  {
    if s == [] {
      assert [acc][|front|] == last && front == [];
    } else if sep(s[0]) {
      HeadPiece(acc, SplitFrom(sep, [], s[1..]), front, last);
      RestClear(sep, [], s[1..], front[1..], last);
    } else {
      RestClear(sep, acc + [s[0]], s[1..], front, last);
    }
  }

  /** What was left over and what arrives next, split together, complete the pieces of the whole. */
  lemma MoreArrives<T>(sep: T -> bool, before: seq<T>, data: seq<T>, pieces: seq<seq<T>>, rest: seq<T>)
    requires pieces + [rest] == Split(sep, Rest(sep, before) + data)
    ensures Ended(sep, before + data) == Ended(sep, before) + pieces && Rest(sep, before + data) == rest
  {
    var front, last := Ended(sep, before), Rest(sep, before);
    RestClear(sep, [], before, front, last);
    SplitClear(sep, [], last, data);
    assert [] + last == last;
    SplitContinues(sep, [], before, data, front, last);
    Regroup(front, pieces, rest, Split(sep, before + data));
  }

  lemma Regroup<T>(front: seq<T>, pieces: seq<T>, rest: T, whole: seq<T>)
    requires whole == front + (pieces + [rest])
    ensures |whole| > 0 && whole[..|whole| - 1] == front + pieces && whole[|whole| - 1] == rest
  {
  }

  lemma PrefixPiece<T>(sep: T -> bool, piece: seq<T>, a: seq<T>, rest: seq<T>)
    requires Split(sep, a) == [piece] + Split(sep, rest)
    ensures Ended(sep, a) == [piece] + Ended(sep, rest) && Rest(sep, a) == Rest(sep, rest)
  {
  }

  function Rejoin<T>(pieces: seq<seq<T>>, cs: seq<T>): seq<T>
    requires |pieces| == |cs| + 1
  {
    if cs == [] then pieces[0] else pieces[0] + [cs[0]] + Rejoin(pieces[1..], cs[1..])
  }

  /** Splitting is the only way to write `s` as separator-free pieces with separators between. */
  lemma {:induction false} SplitIsUnique<T>(sep: T -> bool, pieces: seq<seq<T>>, cs: seq<T>)
    requires |pieces| == |cs| + 1
    requires forall c | c in cs :: sep(c)
    requires forall p | p in pieces :: Clear(sep, p)
    ensures Split(sep, Rejoin(pieces, cs)) == pieces
  {
    assert pieces[0] in pieces;
    if cs == [] {
      SplitWhole(sep, pieces[0]);
      assert pieces == [pieces[0]];
    } else {
      SplitIsUnique(sep, pieces[1..], cs[1..]);
      SplitStep(sep, pieces[0], cs[0], Rejoin(pieces[1..], cs[1..]));
    }
  }

  // ---- `Kube::lines` ----

  newtype Byte = n: int | 0 <= n < 256

  const NEWLINE: Byte := 10

  predicate IsNewline(b: Byte) { b == NEWLINE }

  /** `is_ascii_whitespace` */
  predicate IsBlank(b: Byte) { b == 32 || b == 9 || b == 10 || b == 12 || b == 13 }

  function TrimLeft(s: seq<Byte>): seq<Byte>
  {
    if s != [] && IsBlank(s[0]) then TrimLeft(s[1..]) else s
  }

  function TrimRight(s: seq<Byte>): seq<Byte>
  {
    if s != [] && IsBlank(s[|s| - 1]) then TrimRight(s[..|s| - 1]) else s
  }

  /** `trim_ascii` */
  function TrimAscii(s: seq<Byte>): seq<Byte>
  {
    TrimRight(TrimLeft(s))
  }

  predicate Blank(s: seq<Byte>)
  {
    forall i | 0 <= i < |s| :: IsBlank(s[i])
  }

  lemma {:induction false} TrimLeftIs(s: seq<Byte>)
    ensures |TrimLeft(s)| <= |s| && s[|s| - |TrimLeft(s)|..] == TrimLeft(s) && Blank(s[..|s| - |TrimLeft(s)|])
    ensures TrimLeft(s) != [] ==> !IsBlank(TrimLeft(s)[0])
  {
    if s != [] && IsBlank(s[0]) {
      TrimLeftIs(s[1..]);
      var n := |s| - |TrimLeft(s)|;
      assert s[..n] == [s[0]] + s[1..][..n - 1];
    }
  }

  lemma {:induction false} TrimRightIs(s: seq<Byte>)
    ensures TrimRight(s) <= s && Blank(s[|TrimRight(s)|..])
    ensures TrimRight(s) != [] ==> !IsBlank(TrimRight(s)[|TrimRight(s)| - 1])
  {
    if s != [] && IsBlank(s[|s| - 1]) {
      TrimRightIs(s[..|s| - 1]);
    }
  }

  lemma TrimmedParts(s: seq<Byte>, left: seq<Byte>, trimmed: seq<Byte>, before: seq<Byte>, after: seq<Byte>)
    requires |left| <= |s| && s[|s| - |left|..] == left && before == s[..|s| - |left|]
    requires trimmed <= left && after == left[|trimmed|..] && (trimmed != [] ==> !IsBlank(left[0]))
    ensures s == before + trimmed + after && (trimmed != [] ==> !IsBlank(trimmed[0]))
  {
    assert left == trimmed + after;
  }

  /** What is trimmed is blank on either side, and what is left, if anything, begins and ends with something visible. */
  lemma TrimAsciiIs(s: seq<Byte>) returns (before: seq<Byte>, after: seq<Byte>)
    ensures s == before + TrimAscii(s) + after && Blank(before) && Blank(after)
    ensures TrimAscii(s) != [] ==> !IsBlank(TrimAscii(s)[0]) && !IsBlank(TrimAscii(s)[|TrimAscii(s)| - 1])
  {
    TrimLeftIs(s);
    TrimRightIs(TrimLeft(s));
    before, after := s[..|s| - |TrimLeft(s)|], TrimLeft(s)[|TrimAscii(s)|..];
    TrimmedParts(s, TrimLeft(s), TrimAscii(s), before, after);
  }

  /** The newline that ended a line is trimmed with the rest. */
  lemma {:induction false} TrimNewline(s: seq<Byte>)
    ensures TrimAscii(s + [NEWLINE]) == TrimAscii(s)
  {
    if s == [] {
      assert s + [NEWLINE] == [NEWLINE];
    } else if IsBlank(s[0]) {
      TrimNewline(s[1..]);
      assert (s + [NEWLINE])[1..] == s[1..] + [NEWLINE];
    } else {
      var t := s + [NEWLINE];
      assert t[0] == s[0] && t[|t| - 1] == NEWLINE && t[..|t| - 1] == s;
    }
  }

  /** What the stream yields: the text of an event, or an error if the connection broke. */
  datatype Item = Line(text: seq<Byte>) | Broken

  datatype Chunk = Data(bytes: seq<Byte>) | Failure

  /** The non-empty lines among some pieces, trimmed. */
  function Visible(pieces: seq<seq<Byte>>): seq<Item>
  {
    if pieces == [] then [] else VisibleLine(pieces[0]) + Visible(pieces[1..])
  }

  function VisibleLine(piece: seq<Byte>): seq<Item>
  {
    if TrimAscii(piece) == [] then [] else [Line(TrimAscii(piece))]
  }

  /** There is something to see in it. */
  predicate Speaks(piece: seq<Byte>)
  {
    exists i | 0 <= i < |piece| :: !IsBlank(piece[i])
  }

  lemma SpeaksTrimmed(piece: seq<Byte>)
    ensures TrimAscii(piece) != [] <==> Speaks(piece)
  {
    var before, after := TrimAsciiIs(piece);
    if TrimAscii(piece) != [] {
      assert piece[|before|] == TrimAscii(piece)[0];
    }
  }

  /** Each piece with something to see in it makes one item, in order, and no other does. */
  lemma {:induction false} VisibleAre(pieces: seq<seq<Byte>>)
    ensures var spoken := Filter(Speaks, pieces);
            |Visible(pieces)| == |spoken| && forall k | 0 <= k < |spoken| :: Visible(pieces)[k] == Line(TrimAscii(spoken[k]))
  {
    if pieces != [] {
      SpeaksTrimmed(pieces[0]);
      VisibleAre(pieces[1..]);
      var spoken, rest := Filter(Speaks, pieces), Filter(Speaks, pieces[1..]);
      if Speaks(pieces[0]) {
        assert spoken == [pieces[0]] + rest;
        assert Visible(pieces) == [Line(TrimAscii(pieces[0]))] + Visible(pieces[1..]);
      } else {
        assert Visible(pieces) == Visible(pieces[1..]);
      }
    }
  }

  /** The bytes that arrive before the connection ends or breaks. */
  function Received(chunks: seq<Chunk>): seq<Byte>
  {
    if chunks == [] || chunks[0].Failure? then [] else chunks[0].bytes + Received(chunks[1..])
  }

  predicate Breaks(chunks: seq<Chunk>)
  {
    chunks != [] && (chunks[0].Failure? || Breaks(chunks[1..]))
  }

  /** The items of a whole response: its lines, the unterminated last one included; if it breaks, the lines
      that were complete and then the error. */
  function Items(bytes: seq<Byte>, breaks: bool): seq<Item>
  {
    if breaks then Visible(Ended(IsNewline, bytes)) + [Broken] else Visible(Split(IsNewline, bytes))
  }

  lemma ItemsStep(line: seq<Byte>, rest: seq<Byte>, breaks: bool)
    requires Clear(IsNewline, line)
    ensures Items(line + [NEWLINE] + rest, breaks) == VisibleLine(line + [NEWLINE]) + Items(rest, breaks)
  {
    SplitStep(IsNewline, line, NEWLINE, rest);
    TrimNewline(line);
    PrefixPiece(IsNewline, line, line + [NEWLINE] + rest, rest);
    var pieces := if breaks then Ended(IsNewline, rest) else Split(IsNewline, rest);
    assert ([line] + pieces)[0] == line && ([line] + pieces)[1..] == pieces;
    assert Visible([line] + pieces) == VisibleLine(line) + Visible(pieces);
  }

  /** The state the stream unfolds from. */
  datatype LineStream = LineStream(data: seq<Chunk>, buffer: seq<Byte>, done: bool)

  /** What a stream in this state has yet to yield. */
  function Yet(data: seq<Chunk>, buffer: seq<Byte>, done: bool): seq<Item>
  {
    if done then Visible(Split(IsNewline, buffer)) else Items(buffer + Received(data), Breaks(data))
  }

  predicate Starts(yet: seq<Item>, item: Item, later: seq<Item>)
  {
    yet != [] && yet[0] == item && yet[1..] == later
  }

  /** The next thing to yield is this line, unless it is blank. */
  predicate Yields(yet: seq<Item>, line: seq<Byte>, later: seq<Item>)
  {
    if line == [] then yet == later else Starts(yet, Line(line), later)
  }

  lemma YetLine(data: seq<Chunk>, buffer: seq<Byte>, done: bool, at: nat)
    requires Position(IsNewline, buffer) == Some(at)
    ensures Yields(Yet(data, buffer, done), TrimAscii(buffer[..at + 1]), Yet(data, buffer[at + 1..], done))
  {
    var line, rest := buffer[..at], buffer[at + 1..];
    PositionIsFirst(IsNewline, buffer);
    assert buffer[..at + 1] == line + [NEWLINE] && buffer == line + [NEWLINE] + rest;
    assert buffer + Received(data) == line + [NEWLINE] + (rest + Received(data));
    ItemsStep(line, rest + Received(data), Breaks(data));
    ItemsStep(line, rest, false);
  }

  lemma YetDone(data: seq<Chunk>, buffer: seq<Byte>)
    requires Position(IsNewline, buffer) == None
    ensures Yields(Yet(data, buffer, true), TrimAscii(buffer), [])
  {
    PositionIsFirst(IsNewline, buffer);
    SplitWhole(IsNewline, buffer);
    var pieces := [buffer];
    assert pieces[1..] == [] && Visible(pieces) == VisibleLine(buffer) + Visible(pieces[1..]);
  }

  lemma YetNothing(data: seq<Chunk>)
    ensures Yet(data, [], true) == []
  {
    YetDone(data, []);
  }

  lemma YetEnd(buffer: seq<Byte>)
    ensures Yet([], buffer, false) == Yet([], buffer, true)
  {
    assert buffer + Received([]) == buffer;
  }

  lemma YetChunk(data: seq<Chunk>, buffer: seq<Byte>)
    requires data != [] && Position(IsNewline, buffer) == None
    ensures Yet(data, buffer, false) ==
      match data[0]
      case Data(bytes) => Yet(data[1..], buffer + bytes, false)
      case Failure => [Broken]
  {
    if data[0].Failure? {
      PositionIsFirst(IsNewline, buffer);
      SplitWhole(IsNewline, buffer);
      assert buffer + Received(data) == buffer && Ended(IsNewline, buffer) == [];
    } else {
      assert buffer + (data[0].bytes + Received(data[1..])) == buffer + data[0].bytes + Received(data[1..]);
    }
  }

  /** The next line that is complete in the buffer and not blank. `yet` says what a buffer has still to yield. */
  method TakeLine(ghost yet: seq<Byte> -> seq<Item>, buffer: seq<Byte>) returns (line: Option<seq<Byte>>, rest: seq<Byte>)
    requires forall s, at | Position(IsNewline, s) == Some(at) :: Yields(yet(s), TrimAscii(s[..at + 1]), yet(s[at + 1..]))
    ensures line.None? ==> Position(IsNewline, rest) == None && yet(rest) == yet(buffer)
    ensures line.Some? ==> Starts(yet(buffer), Line(line.value), yet(rest)) && |rest| < |buffer|
  {
    rest := buffer;
    var end := Position(IsNewline, rest);
    while end.Some?
      invariant end == Position(IsNewline, rest) && |rest| <= |buffer|
      invariant yet(rest) == yet(buffer)
      decreases |rest|
    {
      var trimmed := TrimAscii(rest[..end.value + 1]);
      rest := rest[end.value + 1..];
      if trimmed != [] {
        return Some(trimmed), rest;
      }
      end := Position(IsNewline, rest);
    }
    line := None;
  }

  /** One step of the stream: the next item and the state to go on from, or the end. */
  method Next(stream: LineStream) returns (item: Option<Item>, next: LineStream)
    ensures item.None? ==> Yet(stream.data, stream.buffer, stream.done) == []
    ensures item.Some? ==>
              Starts(Yet(stream.data, stream.buffer, stream.done), item.value, Yet(next.data, next.buffer, next.done))
  {
    var LineStream(data, buffer, done) := stream;
    while true
      invariant Yet(data, buffer, done) == Yet(stream.data, stream.buffer, stream.done)
      decreases |data|, !done
    {
      var line;
      forall s, at | Position(IsNewline, s) == Some(at) { YetLine(data, s, done, at); }
      line, buffer := TakeLine(s => Yet(data, s, done), buffer);
      if line.Some? {
        return Some(Line(line.value)), LineStream(data, buffer, done);
      }
      if done {
        YetDone(data, buffer);
        YetNothing(data);
        var trimmed := TrimAscii(buffer);
        if trimmed == [] {
          return None, LineStream(data, [], done);
        }
        return Some(Line(trimmed)), LineStream(data, [], done);
      }
      if data == [] {
        YetEnd(buffer);
        done := true;
      } else {
        var chunk := data[0];
        YetChunk(data, buffer);
        data := data[1..];
        match chunk
        case Data(bytes) =>
          buffer := buffer + bytes;
        case Failure =>
          YetNothing(data);
          return Some(Broken), LineStream(data, [], true);
      }
    }
  }

  /** Reading a response to its end: the lines depend on its bytes, not on where it was cut. */
  method ReadAll(chunks: seq<Chunk>) returns (items: seq<Item>)
    ensures items == Items(Received(chunks), Breaks(chunks))
  {
    assert [] + Received(chunks) == Received(chunks);
    items := Collect(LineStream(chunks, [], false));
  }

  method Collect(start: LineStream) returns (items: seq<Item>)
    ensures items == Yet(start.data, start.buffer, start.done)
  {
    items := [];
    var stream := start;
    ghost var yet := Yet(start.data, start.buffer, start.done);
    while true
      invariant yet == Yet(stream.data, stream.buffer, stream.done)
      invariant items + yet == Yet(start.data, start.buffer, start.done)
      decreases |yet|
    {
      var item, next := Next(stream);
      if item.None? {
        return;
      }
      TakeFirst(items, yet, item.value);
      items, stream, yet := items + [item.value], next, yet[1..];
    }
  }

  lemma TakeFirst<T>(taken: seq<T>, left: seq<T>, item: T)
    requires left != [] && left[0] == item
    ensures taken + left == taken + [item] + left[1..]
  {
  }

  // ---- stderr of a disk copy ----

  predicate EndsStatus(c: char) { c == '\r' || c == '\n' }

  function Concat(chunks: seq<string>): string
  {
    if chunks == [] then "" else Concat(chunks[..|chunks| - 1]) + chunks[|chunks| - 1]
  }

  /** `partial` in `pump`: status lines end at a carriage return or a newline. */
  class StatusLines {
    var partial: string
    ghost var fed: string
    ghost var lines: seq<string>  // those completed so far

    ghost predicate Valid()
      reads this
    {
      Split(EndsStatus, fed) == lines + [partial]
    }

    constructor ()
      ensures Valid() && fed == "" && lines == []
    {
      partial, fed, lines := "", "", [];
    }

    /** The lines this piece completes. */
    method Feed(data: string) returns (more: seq<string>)
      requires Valid()
      modifies this
      ensures Valid() && fed == old(fed) + data && lines == old(lines) + more
    {
      Leftover(EndsStatus, fed, lines, partial);
      more, partial := Drain(partial + data);
      MoreArrives(EndsStatus, fed, data, more, partial);
      Rejoined(EndsStatus, fed + data, lines + more, partial);
      fed := fed + data;
      lines := lines + more;
    }
  }

  lemma Leftover<T>(sep: T -> bool, s: seq<T>, front: seq<seq<T>>, last: seq<T>)
    requires Split(sep, s) == front + [last]
    ensures Ended(sep, s) == front && Rest(sep, s) == last
  {
  }

  lemma Rejoined<T>(sep: T -> bool, s: seq<T>, front: seq<seq<T>>, last: seq<T>)
    requires Ended(sep, s) == front && Rest(sep, s) == last
    ensures Split(sep, s) == front + [last]
  {
  }

  method Drain(text: string) returns (lines: seq<string>, partial: string)
    ensures lines + [partial] == Split(EndsStatus, text)
  {
    lines, partial := [], text;
    var end := Position(EndsStatus, partial);
    while end.Some?
      invariant end == Position(EndsStatus, partial)
      invariant lines + Split(EndsStatus, partial) == Split(EndsStatus, text)
      decreases |partial|
    {
      ghost var rest := Split(EndsStatus, partial[end.value + 1..]);
      NextPiece(EndsStatus, partial, end.value);
      assert lines + ([partial[..end.value]] + rest) == lines + [partial[..end.value]] + rest;
      lines := lines + [partial[..end.value]];
      partial := partial[end.value + 1..];
      end := Position(EndsStatus, partial);
    }
    PositionIsFirst(EndsStatus, partial);
    SplitWhole(EndsStatus, partial);
  }

  /** However stderr is cut up, the status lines are those of the whole text. */
  method FeedAll(chunks: seq<string>) returns (lines: seq<string>, partial: string)
    ensures lines + [partial] == Split(EndsStatus, Concat(chunks))
  {
    var s := new StatusLines();
    lines := [];
    for i := 0 to |chunks|
      invariant s.Valid() && s.fed == Concat(chunks[..i]) && lines == s.lines
    {
      assert chunks[..i + 1][..i] == chunks[..i];
      var more := s.Feed(chunks[i]);
      lines := lines + more;
    }
    assert chunks[..|chunks|] == chunks;
    partial := s.partial;
  }
}
