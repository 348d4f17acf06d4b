/** Quoting for a POSIX shell: `quote` (src/proxmox/ssh.rs) and the nested quoting of `export_command`
    (src/extensions/proxmox.rs), read back by the tokenising of section 2.2 and 2.3 of POSIX.1-2017 XCU. */
module ShellQuote {
  import opened Text

  // ---- What a shell reads ----

  /** How a character came to be in a word. Only a bare one can still mean something to the shell. */
  datatype Quoting = Bare | Exact | InDouble

  datatype Char = Char(c: char, quoting: Quoting)

  datatype Token = Word(text: seq<Char>) | Op(c: char)

  datatype Mode = Plain | Escaped | Single | Double | DoubleEscaped | Comment

  /** The tokens so far, the word being read if there is one, and where in its quotes the reader is. */
  datatype Reader = Reader(done: seq<Token>, word: Option<seq<Char>>, mode: Mode)

  const BEGIN := Reader([], None, Plain)

  predicate IsBlank(c: char) { c == ' ' || c == '\t' }

  predicate IsOperator(c: char)
  {
    c == '|' || c == '&' || c == ';' || c == '<' || c == '>' || c == '(' || c == ')' || c == '\n'
  }

  function Pending(word: Option<seq<Char>>): seq<Char>
  {
    match word case Some(text) => text case None => []
  }

  function Flush(r: Reader): seq<Token>
  {
    match r.word case Some(text) => r.done + [Word(text)] case None => r.done
  }

  function Append(r: Reader, c: char, quoting: Quoting): Reader
  {
    r.(word := Some(Pending(r.word) + [Char(c, quoting)]))
  }

  function ReadPlain(r: Reader, c: char): Reader
  {
    if c == '\'' then r.(word := Some(Pending(r.word)), mode := Single)
    else if c == '"' then r.(word := Some(Pending(r.word)), mode := Double)
    else if c == '\\' then r.(mode := Escaped)
    else if IsBlank(c) then Reader(Flush(r), None, Plain)
    else if IsOperator(c) then Reader(Flush(r) + [Op(c)], None, Plain)
    else if c == '#' && r.word.None? then r.(mode := Comment)
    else Append(r, c, Bare)
  }

  function Read(r: Reader, c: char): Reader
  {
    match r.mode
    case Plain => ReadPlain(r, c)
    case Escaped => if c == '\n' then r.(mode := Plain) else Append(r, c, Exact).(mode := Plain)
    case Single => if c == '\'' then r.(mode := Plain) else Append(r, c, Exact)
    case Double =>
      if c == '"' then r.(mode := Plain)
      else if c == '\\' then r.(mode := DoubleEscaped)
      else Append(r, c, InDouble)
    case DoubleEscaped =>
      if c == '\n' then r.(mode := Double)
      else if c == '"' || c == '\\' || c == '$' || c == '`' then Append(r, c, Exact).(mode := Double)
      else Append(Append(r, '\\', InDouble), c, InDouble).(mode := Double)
    case Comment => if c == '\n' then Reader(r.done + [Op(c)], None, Plain) else r
  }

  function ReadAll(r: Reader, s: string): Reader
    decreases |s|
  {
    if s == "" then r else ReadAll(Read(r, s[0]), s[1..])
  }

  /** The tokens of a whole command. */
  function Tokens(s: string): seq<Token>
  {
    Flush(ReadAll(BEGIN, s))
  }

  function As(s: string, quoting: Quoting): (text: seq<Char>)
    ensures |text| == |s|
  {
    seq(|s|, i requires 0 <= i < |s| => Char(s[i], quoting))
  }

  // ---- `quote` ----

  function EscapeQuotes(s: string): string
  {
    if s == "" then "" else (if s[0] == '\'' then "'\\''" else [s[0]]) + EscapeQuotes(s[1..])
  }

  /** `value.replace('\'', r"'\''")` between single quotes. */
  function Quote(s: string): string
  {
    "'" + EscapeQuotes(s) + "'"
  }

  lemma {:induction false} ReadJoin(r: Reader, a: string, b: string)
    ensures ReadAll(r, a + b) == ReadAll(ReadAll(r, a), b)
    decreases |a|
  {
    if a == "" {
      assert a + b == b;
    } else {
      assert (a + b)[0] == a[0] && (a + b)[1..] == a[1..] + b;
      ReadJoin(Read(r, a[0]), a[1..], b);
    }
  }

  lemma ReadOne(r: Reader, c: char)
    ensures ReadAll(r, [c]) == Read(r, c)
  {
    assert [c][1..] == "";
  }

  lemma ReadEscapedQuote(r: Reader)
    requires r.mode == Single
    ensures ReadAll(r, "'\\''") == Append(r, '\'', Exact)
  {
    var s := "'\\''";
    assert s[1..] == ['\\', '\'', '\''] && s[1..][1..] == ['\'', '\''] && s[1..][1..][1..] == ['\''];
    ReadOne(Append(r.(mode := Plain), '\'', Exact), '\'');
    var a := r.(mode := Plain);
    assert Read(r, '\'') == a && Read(a, '\\') == a.(mode := Escaped);
    assert ReadAll(r, s) == ReadAll(a, s[1..]) == ReadAll(a.(mode := Escaped), s[1..][1..]);
  }

  lemma {:induction false} ReadEscaped(r: Reader, s: string)
    requires r.mode == Single && r.word.Some?
    ensures ReadAll(r, EscapeQuotes(s)) == r.(word := Some(r.word.value + As(s, Exact)))
    decreases |s|
  {
    if s == "" {
      assert r.word.value + As(s, Exact) == r.word.value;
    } else {
      var head, next := if s[0] == '\'' then "'\\''" else [s[0]], Append(r, s[0], Exact);
      ReadJoin(r, head, EscapeQuotes(s[1..]));
      if s[0] == '\'' {
        ReadEscapedQuote(r);
      } else {
        ReadOne(r, s[0]);
      }
      ReadEscaped(next, s[1..]);
      assert As(s, Exact) == [Char(s[0], Exact)] + As(s[1..], Exact);
      assert r.word.value + [Char(s[0], Exact)] + As(s[1..], Exact) == r.word.value + As(s, Exact);
    }
  }

  /** Wherever words are read, a quoted text adds exactly itself to the word, and no character of it means
      anything to the shell. */
  lemma QuoteReadsBack(r: Reader, s: string)
    requires r.mode == Plain
    ensures ReadAll(r, Quote(s)) == r.(word := Some(Pending(r.word) + As(s, Exact)))
  {
    var inside := r.(word := Some(Pending(r.word)), mode := Single);
    var closed := inside.(word := Some(Pending(r.word) + As(s, Exact)));
    ReadJoin(r, "'" + EscapeQuotes(s), "'");
    ReadJoin(r, "'", EscapeQuotes(s));
    ReadOne(r, '\'');
    ReadEscaped(inside, s);
    ReadOne(closed, '\'');
  }

  /** For every text: `quote` makes one word of it. */
  lemma QuoteIsOneWord(s: string)
    ensures Tokens(Quote(s)) == [Word(As(s, Exact))]
  {
    QuoteReadsBack(BEGIN, s);
    assert [] + As(s, Exact) == As(s, Exact);
  }

  // ---- Commands made of pieces ----

  /** Nothing here opens a quote, escapes or starts a comment. */
  predicate Inert(s: string)
  {
    forall i | 0 <= i < |s| :: s[i] != '\'' && s[i] != '"' && s[i] != '\\' && s[i] != '#'
  }

  predicate Ready(r: Reader)
  {
    r.mode == Plain && r.word.None?
  }

  lemma {:induction false} ReadInert(r: Reader, s: string)
    requires r.mode == Plain && Inert(s)
    ensures ReadAll(r, s).mode == Plain
    ensures s != "" && IsBlank(s[|s| - 1]) ==> ReadAll(r, s).word.None?
    decreases |s|
  {
    if s != "" {
      assert Read(r, s[0]).mode == Plain;
      ReadInert(Read(r, s[0]), s[1..]);
    }
  }

  predicate NoQuotes(s: string)
  {
    forall i | 0 <= i < |s| :: s[i] != '\''
  }

  lemma {:induction false} NothingToEscape(s: string)
    requires NoQuotes(s)
    ensures EscapeQuotes(s) == s
  {
    if s != "" {
      NothingToEscape(s[1..]);
    }
  }

  /** What was read before does not change what is read next. */
  lemma {:induction false} ReadAfter(done: seq<Token>, r: Reader, s: string)
    ensures ReadAll(r.(done := done + r.done), s) == ReadAll(r, s).(done := done + ReadAll(r, s).done)
    decreases |s|
  {
    if s != "" {
      ReadOneAfter(done, r, s[0]);
      ReadAfter(done, Read(r, s[0]), s[1..]);
    }
  }

  lemma ReadOneAfter(done: seq<Token>, r: Reader, c: char)
    ensures Read(r.(done := done + r.done), c) == Read(r, c).(done := done + Read(r, c).done)
  {
    FlushAfter(done, r);
    assert done + (Flush(r) + [Op(c)]) == done + Flush(r) + [Op(c)];
    assert done + (r.done + [Op(c)]) == done + r.done + [Op(c)];
  }

  lemma FlushAfter(done: seq<Token>, r: Reader)
    ensures Flush(r.(done := done + r.done)) == done + Flush(r)
  {
  }

  /** A command that is cut between words. */
  lemma TokensJoin(a: string, b: string)
    requires Ready(ReadAll(BEGIN, a))
    ensures Tokens(a + b) == Tokens(a) + Tokens(b)
  {
    var r := ReadAll(BEGIN, a);
    ReadJoin(BEGIN, a, b);
    assert r == BEGIN.(done := r.done + BEGIN.done);
    ReadAfter(r.done, BEGIN, b);
    FlushAfter(r.done, ReadAll(BEGIN, b));
  }

  /** A blank ends the word before it. */
  lemma TokensAfterWord(text: seq<Char>, after: string)
    requires after != "" && IsBlank(after[0])
    ensures Flush(ReadAll(BEGIN.(word := Some(text)), after)) == [Word(text)] + Tokens(after)
  {
    var ended := BEGIN.(done := [Word(text)] + BEGIN.done);
    assert Read(BEGIN.(word := Some(text)), after[0]) == ended && Read(BEGIN, after[0]) == BEGIN;
    ReadAfter([Word(text)], BEGIN, after[1..]);
    FlushAfter([Word(text)], ReadAll(BEGIN, after[1..]));
  }

  /** A quoted text between two blanks is one argument. */
  lemma TokensQuoted(before: string, s: string, after: string)
    requires Ready(ReadAll(BEGIN, before)) && after != "" && IsBlank(after[0])
    ensures Tokens(before + (Quote(s) + after)) == Tokens(before) + ([Word(As(s, Exact))] + Tokens(after))
  {
    QuoteReadsBack(BEGIN, s);
    assert [] + As(s, Exact) == As(s, Exact);
    TokensJoin(before, Quote(s) + after);
    ReadJoin(BEGIN, Quote(s), after);
    TokensAfterWord(As(s, Exact), after);
  }

  // ---- `export_command` ----

  const ACTIVATE_VOLUMES := "PVE::Storage::activate_volumes("
  const VOLUMES := "PVE::Storage::config(), [$ARGV[0]])"
  const ACTIVATE := ACTIVATE_VOLUMES + VOLUMES
  const SHELL_OPTIONS := "set -o pipefail; "
  const LOCALE := "export LC_ALL=C; "
  const LOADED := "perl -MPVE::Storage -e "
  const SETUP := SHELL_OPTIONS + LOCALE + LOADED
  const EXPORT := " && pvesm export "
  const STREAM := "raw+size - --with-snapshots 0 2> >(grep -v -e ' copied, ' -e ' records in$' -e ' records out$' -e '^Exporting image' >&2) | tail -c +9 | dd bs=4M iflag=fullblock status=progress | if command -v zstd >/dev/null; then { printf '\\050\\265\\057\\375\\140\\000\\017\\001\\200\\000'; dd bs=4096 count=1 iflag=fullblock status=none; zstd -q -1 -T0 -c; }; else gzip -1 -c; fi"

  /** The fixed text around the volume. */
  datatype Template = Template(setup: string, activate: string, middle: string, stream: string)

  const PROXMOX := Template(SETUP, ACTIVATE, EXPORT, STREAM)

  /** What the text has to be for the volume to stand between blanks, outside any quotes. */
  predicate WellMade(t: Template)
  {
    && Inert(t.setup) && NoQuotes(t.activate)
    && Inert(t.middle) && t.middle != "" && IsBlank(t.middle[0]) && IsBlank(t.middle[|t.middle| - 1])
  }

  /** What comes before the volume the first time. */
  function Opening(t: Template): string
  {
    t.setup + "'" + t.activate + "'" + " "
  }

  /** The script that the node's bash runs. */
  function Script(t: Template, volid: string): string
  {
    Opening(t) + (Quote(volid) + (t.middle + (Quote(volid) + (" " + t.stream))))
  }

  /** Whatever the volume's name: it is one argument, twice, and the rest of the script reads the same. */
  lemma ScriptTokens(t: Template, volid: string)
    requires WellMade(t)
    ensures var volume := [Word(As(volid, Exact))];
            Tokens(Script(t, volid)) == Tokens(Opening(t)) + (volume + (Tokens(t.middle) + (volume + Tokens(" " + t.stream))))
  {
    var stream := " " + t.stream;
    var rest := t.middle + (Quote(volid) + stream);
    OpeningRead(t.setup, t.activate);
    ReadInert(BEGIN, t.middle);
    assert rest[0] == t.middle[0] && stream[0] == ' ';
    TokensQuoted(Opening(t), volid, rest);
    TokensQuoted(t.middle, volid, stream);
  }

  lemma InertJoin(a: string, b: string)
    requires Inert(a) && Inert(b)
    ensures Inert(a + b)
  {
  }

  lemma SetupInert()
    ensures Inert(SETUP)
  {
    assert Inert(SHELL_OPTIONS);
    assert Inert(LOCALE);
    assert Inert(LOADED);
    InertJoin(SHELL_OPTIONS, LOCALE);
    InertJoin(SHELL_OPTIONS + LOCALE, LOADED);
  }

  lemma OpeningRead(setup: string, activate: string)
    requires Inert(setup) && NoQuotes(activate)
    ensures Ready(ReadAll(BEGIN, setup + "'" + activate + "'" + " "))
  {
    NothingToEscape(activate);
    assert setup + "'" + activate + "'" + " " == setup + (Quote(activate) + " ");
    ReadInert(BEGIN, setup);
    var r := ReadAll(BEGIN, setup);
    ReadJoin(BEGIN, setup, Quote(activate) + " ");
    ReadJoin(r, Quote(activate), " ");
    QuoteReadsBack(r, activate);
    ReadOne(ReadAll(r, Quote(activate)), ' ');
  }

  /** A character that is just itself. */
  predicate Ordinary(c: char)
  {
    c != '\'' && c != '"' && c != '\\' && c != '#' && !IsBlank(c) && !IsOperator(c)
  }

  lemma {:induction false} ReadOrdinary(r: Reader, s: string)
    requires r.mode == Plain && forall i | 0 <= i < |s| :: Ordinary(s[i])
    ensures ReadAll(r, s) == if s == "" then r else r.(word := Some(Pending(r.word) + As(s, Bare)))
    decreases |s|
  {
    if s != "" {
      var next, rest := Append(r, s[0], Bare), s[1..];
      assert Ordinary(s[0]) && Read(r, s[0]) == next;
      ReadOrdinary(next, rest);
      if rest == "" {
        assert As(s, Bare) == [Char(s[0], Bare)];
      }
      assert As(s, Bare) == [Char(s[0], Bare)] + As(s[1..], Bare);
      assert Pending(r.word) + [Char(s[0], Bare)] + As(s[1..], Bare) == Pending(r.word) + As(s, Bare);
    }
  }

  lemma WordThenBlank(word: string, rest: string)
    requires word != "" && forall i | 0 <= i < |word| :: Ordinary(word[i])
    ensures Tokens(word + (" " + rest)) == [Word(As(word, Bare))] + Tokens(rest)
  {
    ReadOrdinary(BEGIN, word);
    assert [] + As(word, Bare) == As(word, Bare);
    ReadJoin(BEGIN, word, " " + rest);
    TokensAfterWord(As(word, Bare), " " + rest);
    assert (" " + rest)[1..] == rest && Read(BEGIN, ' ') == BEGIN;
  }

  function Local(script: string): string
  {
    "bash" + (" " + ("-c" + (" " + Quote(script))))
  }

  /** The shell gives bash the script, unchanged, as its one argument after `-c`. */
  lemma LocalTokens(script: string)
    ensures Tokens(Local(script)) == [Word(As("bash", Bare))] + ([Word(As("-c", Bare))] + [Word(As(script, Exact))])
  {
    WordThenBlank("bash", "-c" + (" " + Quote(script)));
    WordThenBlank("-c", Quote(script));
    QuoteIsOneWord(script);
  }

  // ---- The hop to another node ----

  datatype Piece = Raw(text: string) | Quoted(text: string)

  function Render(pieces: seq<Piece>): string
  {
    if pieces == [] then "" else
    (match pieces[0] case Raw(text) => text case Quoted(text) => Quote(text)) + Render(pieces[1..])
  }

  predicate AllInert(pieces: seq<Piece>)
  {
    pieces == [] || ((pieces[0].Raw? ==> Inert(pieces[0].text)) && AllInert(pieces[1..]))
  }

  /** Quoted texts do not change how the rest is read. */
  lemma {:induction false} ReadPieces(r: Reader, pieces: seq<Piece>)
    requires r.mode == Plain && AllInert(pieces)
    ensures ReadAll(r, Render(pieces)).mode == Plain
    decreases |pieces|
  {
    if pieces != [] {
      match pieces[0]
      case Raw(text) =>
        ReadInert(r, text);
        ReadJoin(r, text, Render(pieces[1..]));
        ReadPieces(ReadAll(r, text), pieces[1..]);
      case Quoted(text) =>
        QuoteReadsBack(r, text);
        ReadJoin(r, Quote(text), Render(pieces[1..]));
        ReadPieces(ReadAll(r, Quote(text)), pieces[1..]);
    }
  }

  const IF_FILE := "if [ -f "
  const THEN := " ]; then "
  const VARIABLE := "o="
  const KNOWN_FILE := "-o UserKnownHostsFile="
  const NO_GLOBAL := " -o GlobalKnownHostsFile=none"
  const EXEC := "; fi; exec ssh -e none -o BatchMode=yes -o "
  const ALIAS := "HostKeyAlias="
  const OPTIONS := " $o"
  const ROOT := "root@"

  function KnownHosts(node: string): string
  {
    "/etc/pve/nodes/" + node + "/ssh_known_hosts"
  }

  /** The options of the second connection; the file's name stands between quotes as it is. */
  function HopPieces(node: string): seq<Piece>
  {
    var known := KnownHosts(node);
    [Raw(IF_FILE), Quoted(known), Raw(THEN), Raw(VARIABLE), Raw("'" + (KNOWN_FILE + known + NO_GLOBAL) + "'"),
     Raw(EXEC), Raw(ALIAS), Quoted(node), Raw(OPTIONS)]
  }

  /** `export_command`, over the fixed text. */
  function CommandOf(t: Template, volid: string, hop: Option<(string, string)>): string
  {
    var here := Local(Script(t, volid));
    match hop
    case None => here
    case Some((node, ip)) => Render(HopPieces(node)) + (" " + (ROOT + (Quote(ip) + (" " + Quote(here)))))
  }

  function ExportCommand(volid: string, hop: Option<(string, string)>): string
  {
    CommandOf(PROXMOX, volid, hop)
  }

  /** `valid_name`: what a node's name is checked to be before any command is made of it. */
  predicate ValidName(name: string)
  {
    && 0 < |name| <= 128
    && (forall i | 0 <= i < |name| :: NameChar(name[i]))
    && name[0] != '-' && name[0] != '.'
  }

  predicate NameChar(c: char)
  {
    'a' <= c <= 'z' || 'A' <= c <= 'Z' || '0' <= c <= '9' || c == '-' || c == '_' || c == '.'
  }

  /** The same options, with the file's name quoted as it should be. */
  function HopQuoted(node: string): seq<Piece>
  {
    var known := KnownHosts(node);
    [Raw(IF_FILE), Quoted(known), Raw(THEN), Raw(VARIABLE), Quoted(KNOWN_FILE + known + NO_GLOBAL),
     Raw(EXEC), Raw(ALIAS), Quoted(node), Raw(OPTIONS)]
  }

  lemma NoQuoteIn(a: string, b: string)
    requires NoQuotes(a) && NoQuotes(b)
    ensures NoQuotes(a + b)
  {
  }

  /** For a name without quotes it makes no difference. */
  lemma HopIsQuoted(node: string)
    requires NoQuotes(node)
    ensures Render(HopPieces(node)) == Render(HopQuoted(node))
  {
    var known := KnownHosts(node);
    var option := KNOWN_FILE + known + NO_GLOBAL;
    NoQuoteIn("/etc/pve/nodes/", node);
    NoQuoteIn("/etc/pve/nodes/" + node, "/ssh_known_hosts");
    NoQuoteIn(KNOWN_FILE, known);
    NoQuoteIn(KNOWN_FILE + known, NO_GLOBAL);
    NothingToEscape(option);
    RenderSame(HopPieces(node), HopQuoted(node), 4);
  }

  lemma {:induction false} RenderSame(a: seq<Piece>, b: seq<Piece>, k: nat)
    requires k < |a| == |b| && (forall i | 0 <= i < |a| && i != k :: a[i] == b[i])
    requires a[k].Raw? && b[k].Quoted? && a[k].text == Quote(b[k].text)
    ensures Render(a) == Render(b)
    decreases k
  {
    if k == 0 {
      assert a[1..] == b[1..];
    } else {
      RenderSame(a[1..], b[1..], k - 1);
    }
  }

  lemma HopInert(node: string)
    ensures AllInert(HopQuoted(node))
  {
    assert Inert(IF_FILE);
    assert Inert(THEN);
    assert Inert(VARIABLE);
    assert Inert(EXEC);
    assert Inert(ALIAS);
    assert Inert(OPTIONS);
    AllInertByParts(HopQuoted(node));
  }

  lemma {:induction false} AllInertByParts(pieces: seq<Piece>)
    requires forall i | 0 <= i < |pieces| && pieces[i].Raw? :: Inert(pieces[i].text)
    ensures AllInert(pieces)
    decreases |pieces|
  {
    if pieces != [] {
      AllInertByParts(pieces[1..]);
    }
  }

  /** A blank or an operator ends the word before it. */
  lemma TokensAfterEnd(text: seq<Char>, after: string)
    requires after != "" && (IsBlank(after[0]) || IsOperator(after[0]))
    ensures Flush(ReadAll(BEGIN.(word := Some(text)), after)) == [Word(text)] + Tokens(after)
  {
    var next := Read(BEGIN, after[0]);
    assert Read(BEGIN.(word := Some(text)), after[0]) == next.(done := [Word(text)] + next.done);
    ReadAfter([Word(text)], next, after[1..]);
    FlushAfter([Word(text)], ReadAll(next, after[1..]));
  }

  /** A word of ordinary characters and a quoted text right after them. */
  lemma TokensWord(before: string, start: string, s: string, after: string)
    requires Ready(ReadAll(BEGIN, before)) && (forall i | 0 <= i < |start| :: Ordinary(start[i]))
    requires after != "" && (IsBlank(after[0]) || IsOperator(after[0]))
    ensures Tokens(before + (start + (Quote(s) + after))) ==
            Tokens(before) + ([Word(As(start, Bare) + As(s, Exact))] + Tokens(after))
  {
    TokensJoin(before, start + (Quote(s) + after));
    ReadJoin(BEGIN, start, Quote(s) + after);
    ReadOrdinary(BEGIN, start);
    var r := ReadAll(BEGIN, start);
    assert Pending(r.word) == As(start, Bare) && r == BEGIN.(word := r.word);
    ReadJoin(r, Quote(s), after);
    QuoteReadsBack(r, s);
    TokensAfterEnd(As(start, Bare) + As(s, Exact), after);
  }

  predicate EndsBlank(s: string)
  {
    s != "" && IsBlank(s[|s| - 1])
  }

  lemma ReadyAfter(s: string)
    requires EndsBlank(s) && Inert(s)
    ensures Ready(ReadAll(BEGIN, s))
  {
    ReadInert(BEGIN, s);
  }

  function TextOf(piece: Piece): string
  {
    match piece case Raw(text) => text case Quoted(text) => Quote(text)
  }

  lemma {:induction false} RenderFrom(pieces: seq<Piece>, k: nat, rest: string)
    requires k < |pieces|
    ensures Render(pieces[k..]) + rest == TextOf(pieces[k]) + (Render(pieces[k + 1..]) + rest)
  {
    assert pieces[k..][1..] == pieces[k + 1..];
  }

  lemma RenderThree(pieces: seq<Piece>, k: nat, rest: string)
    requires k + 3 <= |pieces|
    ensures Render(pieces[k..]) + rest ==
            TextOf(pieces[k]) + (TextOf(pieces[k + 1]) + (TextOf(pieces[k + 2]) + (Render(pieces[k + 3..]) + rest)))
  {
    RenderFrom(pieces, k, rest);
    RenderFrom(pieces, k + 1, rest);
    RenderFrom(pieces, k + 2, rest);
  }

  lemma RenderNine(pieces: seq<Piece>, rest: string)
    requires |pieces| == 9
    ensures Render(pieces) + rest ==
            TextOf(pieces[0]) + (TextOf(pieces[1]) + (TextOf(pieces[2]) + (TextOf(pieces[3]) + (TextOf(pieces[4])
            + (TextOf(pieces[5]) + (TextOf(pieces[6]) + (TextOf(pieces[7]) + (TextOf(pieces[8]) + rest))))))))
  {
    RenderThree(pieces, 0, rest);
    RenderThree(pieces, 3, rest);
    RenderThree(pieces, 6, rest);
    assert pieces[0..] == pieces && Render(pieces[9..]) == "" && "" + rest == rest;
  }

  /** Three quoted texts among fixed ones, the last two with the start of their word before them. */
  lemma ThreeWords(a: string, k: string, b: string, v: string, o: string, c: string, w: string, n: string, last: string)
    requires Inert(a) && Inert(b) && Inert(c) && EndsBlank(a) && EndsBlank(b) && EndsBlank(c)
    requires (forall i | 0 <= i < |v| :: Ordinary(v[i])) && (forall i | 0 <= i < |w| :: Ordinary(w[i]))
    requires IsBlank(b[0]) && IsOperator(c[0]) && last != "" && IsBlank(last[0])
    ensures Tokens(a + (Quote(k) + (b + (v + (Quote(o) + (c + (w + (Quote(n) + last)))))))) ==
            Tokens(a) + ([Word(As(k, Exact))] + (Tokens(b) + ([Word(As(v, Bare) + As(o, Exact))]
            + (Tokens(c) + ([Word(As(w, Bare) + As(n, Exact))] + Tokens(last))))))
  {
    ReadyAfter(a);
    ReadyAfter(b);
    ReadyAfter(c);
    var third := c + (w + (Quote(n) + last));
    var second := b + (v + (Quote(o) + third));
    TokensWord(c, w, n, last);
    assert third[0] == c[0];
    TokensWord(b, v, o, third);
    assert second[0] == b[0];
    TokensQuoted(a, k, second);
  }

  lemma HopTextsInert()
    ensures Inert(IF_FILE) && Inert(THEN) && Inert(EXEC)
    ensures EndsBlank(IF_FILE) && EndsBlank(THEN) && EndsBlank(EXEC)
  {
  }

  lemma HopTextsStart()
    ensures THEN != "" && IsBlank(THEN[0]) && EXEC != "" && IsOperator(EXEC[0])
    ensures forall i | 0 <= i < |VARIABLE| :: Ordinary(VARIABLE[i])
    ensures forall i | 0 <= i < |ALIAS| :: Ordinary(ALIAS[i])
  {
  }

  lemma HopText(node: string, known: string, option: string)
    requires known == KnownHosts(node) && option == KNOWN_FILE + known + NO_GLOBAL
    ensures Render(HopQuoted(node)) + " " ==
            IF_FILE + (Quote(known) + (THEN + (VARIABLE + (Quote(option) + (EXEC + (ALIAS + (Quote(node) + (OPTIONS + " "))))))))
  {
    RenderNine(HopQuoted(node), " ");
  }

  /** What the shell reads before it comes to the target: a test for the node's file of host keys, which is the one that
      ssh is then told to use, and the node's name as the alias to look up in it. */
  lemma HopReads(node: string, known: string, option: string)
    requires ValidName(node) && known == KnownHosts(node) && option == KNOWN_FILE + known + NO_GLOBAL
    ensures Tokens(Render(HopPieces(node)) + " ") ==
            Tokens(IF_FILE) + ([Word(As(known, Exact))] + (Tokens(THEN) + ([Word(As(VARIABLE, Bare) + As(option, Exact))]
            + (Tokens(EXEC) + ([Word(As(ALIAS, Bare) + As(node, Exact))] + Tokens(OPTIONS + " "))))))
  {
    assert NoQuotes(node);
    HopIsQuoted(node);
    HopText(node, known, option);
    HopTextsInert();
    HopTextsStart();
    ThreeWords(IF_FILE, known, THEN, VARIABLE, option, EXEC, ALIAS, node, OPTIONS + " ");
  }

  /** Through the hop: ssh is given the target and, as its one command, the local command unchanged. */
  lemma HopTokens(options: string, ip: string, command: string)
    requires Ready(ReadAll(BEGIN, options + " "))
    ensures Tokens(options + (" " + (ROOT + (Quote(ip) + (" " + Quote(command)))))) ==
            Tokens(options + " ") + ([Word(As(ROOT, Bare) + As(ip, Exact))] + [Word(As(command, Exact))])
  {
    var rest := ROOT + (Quote(ip) + (" " + Quote(command)));
    assert options + (" " + rest) == options + " " + rest;
    TokensJoin(options + " ", rest);
    TargetTokens(ip, command);
  }

  lemma OptionsReady(pieces: seq<Piece>)
    requires AllInert(pieces)
    ensures Ready(ReadAll(BEGIN, Render(pieces) + " "))
  {
    ReadPieces(BEGIN, pieces);
    ReadJoin(BEGIN, Render(pieces), " ");
    ReadOne(ReadAll(BEGIN, Render(pieces)), ' ');
  }

  lemma TargetTokens(ip: string, command: string)
    ensures Tokens(ROOT + (Quote(ip) + (" " + Quote(command)))) ==
            [Word(As(ROOT, Bare) + As(ip, Exact))] + [Word(As(command, Exact))]
  {
    var root, last := As(ROOT, Bare), " " + Quote(command);
    ReadOrdinary(BEGIN, ROOT);
    assert [] + root == root;
    ReadJoin(BEGIN, ROOT, Quote(ip) + last);
    QuoteReadsBack(BEGIN.(word := Some(root)), ip);
    ReadJoin(BEGIN.(word := Some(root)), Quote(ip), last);
    TokensAfterWord(root + As(ip, Exact), last);
    ReadJoin(BEGIN, " ", Quote(command));
    ReadOne(BEGIN, ' ');
    QuoteIsOneWord(command);
  }

  /** What the shells read, one inside the other: with a hop, ssh hands its remote shell the local command; that
      shell hands bash the script; and in the script the volume id is one argument, exactly as it is, twice. What
      comes before and between does not depend on the volume. */
  lemma VolumeArrives(t: Template, volid: string, hop: Option<(string, string)>)
    requires WellMade(t) && (hop.Some? ==> ValidName(hop.value.0))
    ensures var script, volume := Script(t, volid), [Word(As(volid, Exact))];
            && Tokens(script) == Tokens(Opening(t)) + (volume + (Tokens(t.middle) + (volume + Tokens(" " + t.stream))))
            && Tokens(Local(script)) == [Word(As("bash", Bare))] + ([Word(As("-c", Bare))] + [Word(As(script, Exact))])
            && match hop
               case None => CommandOf(t, volid, hop) == Local(script)
               case Some((node, ip)) =>
                 Tokens(CommandOf(t, volid, hop)) ==
                 Tokens(Render(HopPieces(node)) + " ")
                 + ([Word(As(ROOT, Bare) + As(ip, Exact))] + [Word(As(Local(script), Exact))])
  {
    ScriptTokens(t, volid);
    LocalTokens(Script(t, volid));
    match hop
    case None =>
    case Some((node, ip)) => HopArrives(node, ip, Local(Script(t, volid)));
  }

  lemma HopArrives(node: string, ip: string, command: string)
    requires ValidName(node)
    ensures Tokens(Render(HopPieces(node)) + (" " + (ROOT + (Quote(ip) + (" " + Quote(command)))))) ==
            Tokens(Render(HopPieces(node)) + " ") + ([Word(As(ROOT, Bare) + As(ip, Exact))] + [Word(As(command, Exact))])
  {
    assert NoQuotes(node);
    HopIsQuoted(node);
    HopInert(node);
    OptionsReady(HopQuoted(node));
    HopTokens(Render(HopQuoted(node)), ip, command);
  }

  /** The command's own text is made so. */
  lemma ProxmoxIsWellMade()
    ensures WellMade(PROXMOX)
  {
    SetupInert();
    ActivateHasNoQuotes();
    ExportInert();
  }

  lemma ActivateHasNoQuotes()
    ensures NoQuotes(ACTIVATE)
  {
    assert NoQuotes(ACTIVATE_VOLUMES);
    assert NoQuotes(VOLUMES);
    NoQuoteIn(ACTIVATE_VOLUMES, VOLUMES);
  }

  lemma ExportInert()
    ensures Inert(EXPORT)
  {
  }

  // ---- All three shells ----

  /** The text of a word, however it was quoted. */
  function Plainly(text: seq<Char>): (s: string)
    ensures |s| == |text|
  {
    seq(|text|, i requires 0 <= i < |text| => text[i].c)
  }

  /** What a command hands on as its last argument. */
  function Handed(command: string): string
  {
    var tokens := Tokens(command);
    if tokens == [] then "" else match tokens[|tokens| - 1] case Word(text) => Plainly(text) case Op(_) => ""
  }

  lemma PlainlyAs(s: string, quoting: Quoting)
    ensures Plainly(As(s, quoting)) == s
  {
  }

  lemma HandedLast(command: string, before: seq<Token>, s: string)
    requires Tokens(command) == before + [Word(As(s, Exact))]
    ensures Handed(command) == s
  {
    PlainlyAs(s, Exact);
  }

  /** What the node's bash is given to run: with a hop, the remote shell's command is the last argument of ssh, and that
      command's last argument is the script; without, the command is already the node's. */
  function ScriptOf(command: string, hop: bool): string
  {
    if hop then Handed(Handed(command)) else Handed(command)
  }

  /** The script runs with the volume id as one argument, exactly as it is, twice, and apart from that is the same for
      every volume. */
  lemma ExportArrives(volid: string, hop: Option<(string, string)>)
    requires hop.Some? ==> ValidName(hop.value.0)
    ensures var volume := [Word(As(volid, Exact))];
            Tokens(ScriptOf(ExportCommand(volid, hop), hop.Some?))
            == Tokens(Opening(PROXMOX)) + (volume + (Tokens(PROXMOX.middle) + (volume + Tokens(" " + PROXMOX.stream))))
  {
    ProxmoxIsWellMade();
    CommandArrives(PROXMOX, volid, hop);
  }

  lemma CommandArrives(t: Template, volid: string, hop: Option<(string, string)>)
    requires WellMade(t) && (hop.Some? ==> ValidName(hop.value.0))
    ensures var volume := [Word(As(volid, Exact))];
            Tokens(ScriptOf(CommandOf(t, volid, hop), hop.Some?))
            == Tokens(Opening(t)) + (volume + (Tokens(t.middle) + (volume + Tokens(" " + t.stream))))
  {
    var script := Script(t, volid);
    ScriptTokens(t, volid);
    LocalHands(script);
    match hop
    case None =>
    case Some((node, ip)) =>
      HopArrives(node, ip, Local(script));
      var before, target := Tokens(Render(HopPieces(node)) + " "), [Word(As(ROOT, Bare) + As(ip, Exact))];
      assert before + (target + [Word(As(Local(script), Exact))]) == before + target + [Word(As(Local(script), Exact))];
      HandedLast(CommandOf(t, volid, hop), before + target, Local(script));
  }

  lemma LocalHands(script: string)
    ensures Handed(Local(script)) == script
  {
    LocalTokens(script);
    var bash, option := [Word(As("bash", Bare))], [Word(As("-c", Bare))];
    assert bash + (option + [Word(As(script, Exact))]) == bash + option + [Word(As(script, Exact))];
    HandedLast(Local(script), bash + option, script);
  }
}
