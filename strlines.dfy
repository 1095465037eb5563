/**
 * The two ways the code-block emitter splits a buffer into lines:
 * `SplitInclusive` keeps each line's terminator (what syntect's
 * `LinesWithEndings` yields) and `Lines` drops a trailing "\n" or "\r\n"
 * (what Rust's `str::lines` yields). An empty buffer has no lines, and a
 * final terminator does not start an extra empty line.
 */
module StrLines {

  /** Index just past the first "\n" of `s`, or `|s|` when there is none. */
  function LineEnd(s: string): (k: nat)
    requires s != []
    ensures 1 <= k <= |s|
    ensures forall i :: 0 <= i < k - 1 ==> s[i] != '\n'
    ensures k < |s| ==> s[k - 1] == '\n'
    decreases |s|
  {
    if s[0] == '\n' || |s| == 1 then 1 else 1 + LineEnd(s[1..])
  }

  /** The lines of `s`, each with its terminator when it has one. */
  function SplitInclusive(s: string): (pieces: seq<string>)
    decreases |s|
  {
    if s == [] then [] else var k := LineEnd(s); [s[..k]] + SplitInclusive(s[k..])
  }

  /** A line with its "\n", and then a "\r" before it, removed. */
  function StripTerminator(p: string): string {
    if p != [] && p[|p| - 1] == '\n' then
      var q := p[..|p| - 1];
      if q != [] && q[|q| - 1] == '\r' then q[..|q| - 1] else q
    else p
  }

  /** The lines of `s` without terminators. */
  function Lines(s: string): seq<string> {
    var pieces := SplitInclusive(s);
    seq(|pieces|, i requires 0 <= i < |pieces| => StripTerminator(pieces[i]))
  }

  function Concat(pieces: seq<string>): string {
    if pieces == [] then [] else pieces[0] + Concat(pieces[1..])
  }

  /** Each line followed by "\n". */
  function JoinLines(lines: seq<string>): string {
    if lines == [] then [] else lines[0] + "\n" + JoinLines(lines[1..])
  }

  function NewlineCount(s: string): nat {
    multiset(s)['\n']
  }

  /** 1 when `s` ends in an unterminated line, else 0. */
  function OpenTail(s: string): nat {
    if s != [] && s[|s| - 1] != '\n' then 1 else 0
  }

  /** The pieces put back together give the buffer again. */
  lemma {:induction false} SplitInclusiveConcat(s: string)
    ensures Concat(SplitInclusive(s)) == s
    decreases |s|
  {
    if s != [] {
      var k := LineEnd(s);
      SplitInclusiveConcat(s[k..]);
      assert ([s[..k]] + SplitInclusive(s[k..]))[1..] == SplitInclusive(s[k..]);
      assert s[..k] + s[k..] == s;
    }
  }

  /**
   * Every piece is non-empty and holds exactly one "\n", as its last
   * character, except that the last piece has none when the buffer ends
   * without a terminator.
   */
  lemma {:induction false} SplitInclusiveShape(s: string, i: nat)
    requires i < |SplitInclusive(s)|
    ensures SplitInclusive(s)[i] != []
    ensures forall j :: 0 <= j < |SplitInclusive(s)[i]| - 1 ==> SplitInclusive(s)[i][j] != '\n'
    ensures i < |SplitInclusive(s)| - 1 ==> SplitInclusive(s)[i][|SplitInclusive(s)[i]| - 1] == '\n'
    decreases |s|
  {
    var k := LineEnd(s);
    var pieces := SplitInclusive(s);
    assert pieces[1..] == SplitInclusive(s[k..]);
    if i > 0 {
      SplitInclusiveShape(s[k..], i - 1);
      assert pieces[i] == SplitInclusive(s[k..])[i - 1];
    } else if i < |pieces| - 1 {
      assert s[k..] != [];
    }
  }

  lemma {:induction false} NoNewlineCount(s: string)
    requires '\n' !in s
    ensures NewlineCount(s) == 0
  {
    assert '\n' !in multiset(s);
  }

  /** The terminators of `s` are the one ending its first line, if any, and those after it. */
  lemma {:induction false} NewlineCountSplit(s: string)
    requires s != []
    ensures var k := LineEnd(s);
      NewlineCount(s) == (if s[k - 1] == '\n' then 1 else 0) + NewlineCount(s[k..])
  {
    var k := LineEnd(s);
    assert s == s[..k - 1] + [s[k - 1]] + s[k..];
    assert '\n' !in s[..k - 1];
    NoNewlineCount(s[..k - 1]);
    assert multiset(s) == multiset(s[..k - 1]) + multiset([s[k - 1]]) + multiset(s[k..]);
  }

  /** The number of pieces is the number of terminators, plus one for an unterminated last line. */
  lemma {:induction false} SplitInclusiveCount(s: string)
    ensures |SplitInclusive(s)| == NewlineCount(s) + OpenTail(s)
    decreases |s|
  {
    if s != [] {
      var k := LineEnd(s);
      NewlineCountSplit(s);
      if k < |s| {
        SplitInclusiveCount(s[k..]);
        OpenTailSuffix(s, k);
      } else {
        assert s[k..] == [] && s[..k] == s;
        assert SplitInclusive(s) == [s];
      }
    }
  }

  /** `Lines` has one entry per piece, so the same count holds for it. */
  lemma {:induction false} LinesCount(s: string)
    ensures |Lines(s)| == NewlineCount(s) + OpenTail(s)
  {
    SplitInclusiveCount(s);
  }

  /** No line that `Lines` yields contains a "\n". */
  lemma {:induction false} LinesHaveNoNewline(s: string)
    ensures forall i :: 0 <= i < |Lines(s)| ==> '\n' !in Lines(s)[i]
  {
    var pieces := SplitInclusive(s);
    forall i | 0 <= i < |pieces| ensures '\n' !in StripTerminator(pieces[i]) {
      SplitInclusiveShape(s, i);
      var p := pieces[i];
      var q := StripTerminator(p);
      assert |q| <= |p| && forall j :: 0 <= j < |q| ==> q[j] == p[j];
      if p[|p| - 1] != '\n' {
        assert i == |pieces| - 1;
        assert q == p;
      }
    }
  }

  lemma {:induction false} LinesUnfold(s: string)
    requires s != []
    ensures Lines(s) == [StripTerminator(s[..LineEnd(s)])] + Lines(s[LineEnd(s)..])
  {
  }

  lemma {:induction false} OpenTailSuffix(s: string, k: nat)
    requires k < |s|
    ensures OpenTail(s[k..]) == OpenTail(s)
  {
    assert s[k..][|s| - k - 1] == s[|s| - 1];
  }

  /** Stripping a terminated line without carriage returns removes only its "\n". */
  lemma {:induction false} StripTerminated(p: string)
    requires p != [] && p[|p| - 1] == '\n' && '\r' !in p
    ensures StripTerminator(p) + "\n" == p
  {
    var q := p[..|p| - 1];
    if q != [] {
      assert q[|q| - 1] in p;
    }
    assert q + "\n" == p;
  }

  /** The first line of `s` followed by "\n", then the rest of the lines joined. */
  lemma {:induction false} JoinLinesUnfold(s: string)
    requires s != []
    ensures JoinLines(Lines(s)) == StripTerminator(s[..LineEnd(s)]) + "\n" + JoinLines(Lines(s[LineEnd(s)..]))
  {
    LinesUnfold(s);
    var first := StripTerminator(s[..LineEnd(s)]);
    assert ([first] + Lines(s[LineEnd(s)..]))[1..] == Lines(s[LineEnd(s)..]);
  }

  lemma {:induction false} RoundTripBase(s: string)
    requires s != [] && '\r' !in s && LineEnd(s) == |s|
    ensures JoinLines(Lines(s)) == s + (if OpenTail(s) == 1 then "\n" else "")
  {
    JoinLinesUnfold(s);
    assert s[..|s|] == s;
    if s[|s| - 1] == '\n' {
      StripTerminated(s);
    }
  }

  /** The first line of a buffer without carriage returns, stripped and given back its "\n". */
  lemma {:induction false} FirstLineRestored(s: string)
    requires s != [] && '\r' !in s && LineEnd(s) < |s|
    ensures StripTerminator(s[..LineEnd(s)]) + "\n" == s[..LineEnd(s)]
  {
    NotInSlice(s, '\r', 0, LineEnd(s));
    StripTerminated(s[..LineEnd(s)]);
  }

  lemma {:induction false} RoundTripStep(s: string)
    requires s != [] && '\r' !in s && LineEnd(s) < |s|
    requires var t := s[LineEnd(s)..]; JoinLines(Lines(t)) == t + (if OpenTail(t) == 1 then "\n" else "")
    ensures JoinLines(Lines(s)) == s + (if OpenTail(s) == 1 then "\n" else "")
  {
    var k := LineEnd(s);
    var head, t := s[..k], s[k..];
    JoinLinesUnfold(s);
    FirstLineRestored(s);
    OpenTailSuffix(s, k);
    assert head + t == s;
    ConcatRegroup(StripTerminator(head), "\n", JoinLines(Lines(t)), head, t, if OpenTail(s) == 1 then "\n" else "", s);
  }

  lemma {:induction false} NotInSlice(s: string, c: char, i: nat, j: nat)
    requires c !in s && i <= j <= |s|
    ensures c !in s[i..j]
  {
  }

  lemma {:induction false} ConcatRegroup(a: string, b: string, j: string, p: string, t: string, tail: string, s: string)
    requires a + b == p && j == t + tail && p + t == s
    ensures a + b + j == s + tail
  {
  }

  /**
   * For a buffer without carriage returns, writing each line back with a
   * "\n" gives the buffer again, with a "\n" added when its last line was
   * unterminated.
   */
  lemma {:induction false} LinesRoundTrip(s: string)
    requires '\r' !in s
    ensures JoinLines(Lines(s)) == s + (if OpenTail(s) == 1 then "\n" else "")
    decreases |s|
  {
    if s != [] {
      var k := LineEnd(s);
      if k < |s| {
        NotInSlice(s, '\r', k, |s|);
        LinesRoundTrip(s[k..]);
        RoundTripStep(s);
      } else {
        RoundTripBase(s);
      }
    }
  }
}
