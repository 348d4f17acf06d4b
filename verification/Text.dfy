/** The string operations of the Rust standard library that the modules below lean on. */
module Text {

  datatype Option<+T> = None | Some(value: T)

  /** `char::is_whitespace`: Unicode White_Space. */
  predicate IsSpace(c: char)
  {
    var n := c as int;
    0x09 <= n <= 0x0D || n == 0x20 || n == 0x85 || n == 0xA0 || n == 0x1680 || 0x2000 <= n <= 0x200A
    || n == 0x2028 || n == 0x2029 || n == 0x202F || n == 0x205F || n == 0x3000
  }

  predicate StartsWith(s: string, p: string)
  {
    |p| <= |s| && s[..|p|] == p
  }

  /** `str::find`: where `p` first occurs in `s`. */
  function Find(s: string, p: string): (at: Option<nat>)
    ensures at.Some? ==> at.value + |p| <= |s|
    decreases |s|
  {
    if StartsWith(s, p) then Some(0)
    else if s == "" then None
    else match Find(s[1..], p) case None => None case Some(at) => Some(at + 1)
  }

  /** The first occurrence is the only candidate: nothing before it matches, it does. */
  lemma {:induction false} FindIs(s: string, p: string, at: nat)
    requires at <= |s| && StartsWith(s[at..], p)
    requires forall i :: 0 <= i < at ==> !StartsWith(s[i..], p)
    ensures Find(s, p) == Some(at)
    decreases at
  {
    assert s[0..] == s;
    if at > 0 {
      var rest := s[1..];
      forall i | 0 <= i < at ensures rest[i..] == s[i + 1..] { }
      FindIs(rest, p, at - 1);
    }
  }

  lemma {:induction false} FindNone(s: string, p: string)
    requires forall i :: 0 <= i <= |s| ==> !StartsWith(s[i..], p)
    ensures Find(s, p) == None
    decreases |s|
  {
    assert s[0..] == s;
    if s != "" {
      var rest := s[1..];
      forall i | 0 <= i < |s| ensures rest[i..] == s[i + 1..] { }
      FindNone(rest, p);
    }
  }

  lemma {:induction false} FindSome(s: string, p: string, at: nat)
    requires at <= |s| && StartsWith(s[at..], p)
    ensures Find(s, p).Some?
    decreases at
  {
    assert s[0..] == s;
    if at > 0 {
      assert s[1..][at - 1..] == s[at..];
      FindSome(s[1..], p, at - 1);
    }
  }

  lemma Mismatch(s: string, i: nat, p: string, k: nat)
    requires i <= |s| && k < |p| && (i + k < |s| ==> s[i + k] != p[k])
    ensures !StartsWith(s[i..], p)
  {
  }

  /** A pattern is not in a text that lacks one of its characters. */
  lemma FindAbsent(s: string, p: string, k: nat)
    requires k < |p| && p[k] !in s
    ensures Find(s, p) == None
  {
    forall i | 0 <= i <= |s| ensures !StartsWith(s[i..], p) { Mismatch(s, i, p, k); }
    FindNone(s, p);
  }

  /** The first occurrence of a character that is not in `pre`. */
  lemma FindChar(pre: string, c: char, post: string)
    requires c !in pre
    ensures Find(pre + [c] + post, [c]) == Some(|pre|)
  {
    var s := pre + [c] + post;
    forall i | 0 <= i < |pre| ensures !StartsWith(s[i..], [c]) {
      assert s[i] == pre[i];
      Mismatch(s, i, [c], 0);
    }
    assert s[|pre|..][..1] == [c];
    FindIs(s, [c], |pre|);
  }

  /** What is found of one character is its first occurrence. */
  lemma {:induction false} FoundFirst(s: string, c: char)
    ensures Find(s, [c]).None? <==> c !in s
    ensures Find(s, [c]).Some? ==> s[Find(s, [c]).value] == c && c !in s[..Find(s, [c]).value]
    decreases |s|
  {
    if s != "" && s[0] == c {
      assert s[..1] == [c];
    } else if s != "" {
      FoundFirst(s[1..], c);
      assert s == [s[0]] + s[1..];
      assert !StartsWith(s, [c]);
      if Find(s, [c]).Some? {
        assert s[..Find(s, [c]).value] == [s[0]] + s[1..][..Find(s, [c]).value - 1];
      }
    }
  }

  /** `str::contains` */
  predicate Contains(s: string, p: string)
  {
    Find(s, p).Some?
  }

  /** `str::replacen(from, to, 1)` */
  function ReplaceFirst(s: string, from: string, to: string): string
  {
    match Find(s, from)
    case None => s
    case Some(at) => s[..at] + to + s[at + |from|..]
  }

  /** `str::split_once` */
  function SplitOnce(s: string, c: char): Option<(string, string)>
  {
    match Find(s, [c])
    case None => None
    case Some(at) => Some((s[..at], s[at + 1..]))
  }

  function StripCr(line: string): string
  {
    if line != "" && line[|line| - 1] == '\r' then line[..|line| - 1] else line
  }

  /** `str::lines` */
  function Lines(s: string): seq<string>
    decreases |s|
  {
    if s == "" then []
    else
      match Find(s, "\n")
      case None => [s]
      case Some(at) => [StripCr(s[..at])] + Lines(s[at + 1..])
  }

  lemma LinesStep(line: string, rest: string)
    requires '\n' !in line
    ensures Lines(line + "\n" + rest) == [StripCr(line)] + Lines(rest)
  {
    var s := line + "\n" + rest;
    FindChar(line, '\n', rest);
    assert ['\n'] == "\n";
    assert s[..|line|] == line && s[|line| + 1..] == rest;
  }

  /** Each line with a newline after it. */
  function Unlines(lines: seq<string>): string
  {
    if lines == [] then "" else lines[0] + "\n" + Unlines(lines[1..])
  }

  lemma {:induction false} LinesOfUnlines(lines: seq<string>)
    requires forall line | line in lines :: '\n' !in line && StripCr(line) == line
    ensures Lines(Unlines(lines)) == lines
  {
    if lines != [] {
      LinesOfUnlines(lines[1..]);
      LinesStep(lines[0], Unlines(lines[1..]));
      assert lines == [lines[0]] + lines[1..];
    }
  }

  function TrimStart(s: string): (r: string)
    ensures r != "" ==> !IsSpace(r[0])
  {
    if s != "" && IsSpace(s[0]) then TrimStart(s[1..]) else s
  }

  function TrimEnd(s: string): (r: string)
    ensures r != "" ==> !IsSpace(r[|r| - 1])
    ensures r <= s
  {
    if s != "" && IsSpace(s[|s| - 1]) then TrimEnd(s[..|s| - 1]) else s
  }

  /** `str::trim` */
  function Trim(s: string): string
  {
    TrimEnd(TrimStart(s))
  }

  /** Text that starts and ends with something visible is its own trimming. */
  lemma TrimSolid(s: string)
    requires s != "" ==> !IsSpace(s[0]) && !IsSpace(s[|s| - 1])
    ensures Trim(s) == s
  {
  }

  predicate Solid(w: string)
  {
    w != "" && forall c :: c in w ==> !IsSpace(c)
  }

  /** Where the first word of `s` ends. */
  function WordEnd(s: string): (n: nat)
    ensures n <= |s|
    ensures forall i :: 0 <= i < n ==> !IsSpace(s[i])
    ensures n < |s| ==> IsSpace(s[n])
  {
    if s == "" || IsSpace(s[0]) then 0 else 1 + WordEnd(s[1..])
  }

  /** `str::split_whitespace` */
  function Words(s: string): (ws: seq<string>)
    ensures forall w :: w in ws ==> Solid(w)
    decreases |s|
  {
    if s == "" then []
    else if IsSpace(s[0]) then Words(s[1..])
    else
      var n := WordEnd(s);
      assert Solid(s[..n]);
      [s[..n]] + Words(s[n..])
  }

  /** `join(" ")` */
  function Join(ws: seq<string>): string
  {
    if ws == [] then "" else if |ws| == 1 then ws[0] else ws[0] + " " + Join(ws[1..])
  }

  lemma WordsStep(w: string, rest: string)
    requires Solid(w)
    requires rest == "" || IsSpace(rest[0])
    ensures Words(w + rest) == [w] + Words(rest)
  {
    var s := w + rest;
    var n := WordEnd(s);
    assert forall i :: 0 <= i < |w| ==> s[i] == w[i] && w[i] in w;
    assert forall i :: 0 <= i < |w| ==> !IsSpace(s[i]);
    assert rest != "" ==> s[|w|] == rest[0];
    assert n == |w|;
    assert s[..n] == w && s[n..] == rest;
    assert s[0] == w[0] && w[0] in w;
  }

  /** Splitting undoes joining, for words that are words. */
  lemma {:induction false} WordsOfJoin(ws: seq<string>)
    requires forall w :: w in ws ==> Solid(w)
    ensures Words(Join(ws)) == ws
  {
    if |ws| == 1 {
      WordsStep(ws[0], "");
      assert ws[0] + "" == ws[0] && ws == [ws[0]];
    } else if |ws| > 1 {
      WordsOfJoin(ws[1..]);
      var rest := " " + Join(ws[1..]);
      WordsStep(ws[0], rest);
      assert Words(rest) == Words(rest[1..]) && rest[1..] == Join(ws[1..]);
      assert ws[0] + rest == Join(ws);
      assert ws == [ws[0]] + ws[1..];
    }
  }

  lemma {:induction false} JoinAppend(a: seq<string>, b: seq<string>)
    requires a != [] && b != []
    ensures Join(a + b) == Join(a) + " " + Join(b)
  {
    if |a| == 1 {
      assert (a + b)[1..] == b;
    } else {
      JoinAppend(a[1..], b);
      assert (a + b)[1..] == a[1..] + b;
    }
  }

  /** `str::to_lowercase`, on the ASCII letters. */
  function LowerChar(c: char): char
  {
    if 'A' <= c <= 'Z' then (c as int + 32) as char else c
  }

  function Lower(s: string): (r: string)
    ensures |r| == |s|
    ensures forall i :: 0 <= i < |s| ==> r[i] == LowerChar(s[i])
  {
    if s == "" then "" else [LowerChar(s[0])] + Lower(s[1..])
  }

  lemma LowerTwice(s: string)
    ensures Lower(Lower(s)) == Lower(s)
  {
    var once := Lower(s);
    forall i | 0 <= i < |s| ensures Lower(once)[i] == once[i] {
      assert once[i] == LowerChar(s[i]);
    }
  }

  function Filter<T>(p: T -> bool, s: seq<T>): seq<T>
  {
    if s == [] then [] else if p(s[0]) then [s[0]] + Filter(p, s[1..]) else Filter(p, s[1..])
  }

  lemma FilterMembers<T(!new)>(p: T -> bool, s: seq<T>)
    ensures forall x :: x in Filter(p, s) <==> x in s && p(x)
  {
  }

  lemma {:induction false} FilterAppend<T>(p: T -> bool, a: seq<T>, b: seq<T>)
    ensures Filter(p, a + b) == Filter(p, a) + Filter(p, b)
  {
    if a == [] {
      assert a + b == b;
    } else {
      FilterAppend(p, a[1..], b);
      var s := a + b;
      assert s[0] == a[0] && s[1..] == a[1..] + b;
    }
  }

  function RemoveFirst<T(==)>(s: seq<T>, x: T): seq<T>
  {
    if s == [] then [] else if s[0] == x then s[1..] else [s[0]] + RemoveFirst(s[1..], x)
  }

  lemma {:induction false} RemoveFirstMembers<T>(s: seq<T>, x: T)
    ensures forall l :: l != x ==> (l in RemoveFirst(s, x) <==> l in s)
    ensures x in RemoveFirst(s, x) ==> x in s
  {
    if s != [] && s[0] != x {
      RemoveFirstMembers(s[1..], x);
    }
  }

  lemma {:induction false} FilterRemoveFirst<T>(p: T -> bool, s: seq<T>, x: T)
    ensures Filter(p, RemoveFirst(s, x)) == if p(x) then RemoveFirst(Filter(p, s), x) else Filter(p, s)
  {
    if s != [] {
      var left := RemoveFirst(s, x);
      if s[0] != x {
        FilterRemoveFirst(p, s[1..], x);
        assert left[0] == s[0] && left[1..] == RemoveFirst(s[1..], x);
      }
      if p(s[0]) {
        var f := Filter(p, s);
        assert f[0] == s[0] && f[1..] == Filter(p, s[1..]);
      }
    }
  }

  function FlatMap<A, B>(f: A -> seq<B>, s: seq<A>): seq<B>
  {
    if s == [] then [] else f(s[0]) + FlatMap(f, s[1..])
  }

  lemma {:induction false} FlatMapMore<A, B>(f: A -> seq<B>, s: seq<A>, a: A)
    ensures FlatMap(f, s + [a]) == FlatMap(f, s) + f(a)
  {
    if s == [] {
      assert [] + [a] == [a] && [a][1..] == [];
    } else {
      assert (s + [a])[0] == s[0] && (s + [a])[1..] == s[1..] + [a];
      FlatMapMore(f, s[1..], a);
      assert f(s[0]) + (FlatMap(f, s[1..]) + f(a)) == f(s[0]) + FlatMap(f, s[1..]) + f(a);
    }
  }

  /** What `f` makes of the last element it makes anything of. */
  function LastSome<A, B>(f: A -> Option<B>, s: seq<A>, otherwise: B): B
  {
    if s == [] then otherwise
    else match f(s[|s| - 1]) case Some(b) => b case None => LastSome(f, s[..|s| - 1], otherwise)
  }

  lemma {:induction false} LastSomeJoin<A, B>(f: A -> Option<B>, a: seq<A>, b: seq<A>, otherwise: B)
    ensures LastSome(f, a + b, otherwise) == LastSome(f, b, LastSome(f, a, otherwise))
    decreases |b|
  {
    if b == [] {
      assert a + b == a;
    } else {
      var all := a + b;
      assert all[|all| - 1] == b[|b| - 1] && all[..|all| - 1] == a + b[..|b| - 1];
      LastSomeJoin(f, a, b[..|b| - 1], otherwise);
    }
  }
}
