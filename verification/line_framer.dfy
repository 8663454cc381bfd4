/** The bus relay's line framer: a payload is split on an optional carriage
    return followed by a newline, and the fragment after the last newline is
    dropped. */
module LineFramer {

  /** Number of occurrences of `c` in `s`. */
  function Count(s: string, c: char): nat
  {
    if s == [] then 0 else (if s[0] == c then 1 else 0) + Count(s[1..], c)
  }

  /** No element of `lines` contains a newline. */
  predicate NoNewlines(lines: seq<string>)
  {
    forall i :: 0 <= i < |lines| ==> '\n' !in lines[i]
  }

  /** `line` with one trailing carriage return removed, if it has one. */
  function StripCR(line: string): string
  {
    if |line| > 0 && line[|line| - 1] == '\r' then line[..|line| - 1] else line
  }

  /** Every element of `lines` with one trailing carriage return removed. */
  function StripAll(lines: seq<string>): (r: seq<string>)
    ensures |r| == |lines|
    ensures forall i :: 0 <= i < |lines| ==> r[i] == StripCR(lines[i])
  {
    seq(|lines|, i requires 0 <= i < |lines| => StripCR(lines[i]))
  }

  /** Terminates every line with a newline and concatenates them. */
  function JoinLines(lines: seq<string>): string
  {
    if lines == [] then [] else lines[0] + "\n" + JoinLines(lines[1..])
  }

  /** Terminates every line with a carriage return and a newline and
      concatenates them, the way a Windows process writes its output. */
  function JoinCRLF(lines: seq<string>): string
  {
    if lines == [] then [] else lines[0] + "\r\n" + JoinCRLF(lines[1..])
  }

  /** The parts of `s` between separators, where a separator is "\r\n" or
      "\n" and the leftmost, longest one is taken at each position: what
      `split` with the pattern `[\r]{0,1}\n` returns. A lone "\r" is kept. */
  function Split(s: string): (parts: seq<string>)
    ensures |parts| == Count(s, '\n') + 1
    ensures NoNewlines(parts)
  {
    if s == [] then [[]]
    else if |s| >= 2 && s[0] == '\r' && s[1] == '\n' then
      assert s[1..][1..] == s[2..];
      [[]] + Split(s[2..])
    else if s[0] == '\n' then [[]] + Split(s[1..])
    else
      var rest := Split(s[1..]);
      [[s[0]] + rest[0]] + rest[1..]
  }

  /** `_splitLines`: the split parts with the last one dropped. */
  function SplitLines(buffer: string): (lines: seq<string>)
    ensures |lines| == Count(buffer, '\n')
    ensures NoNewlines(lines)
  {
    var parts := Split(buffer);
    parts[..|parts| - 1]
  }

  /** The reference framing: the newline-terminated lines of `s`, taken
      verbatim, and the unterminated remainder after the last newline. */
  function Terminated(s: string): (f: (seq<string>, string))
    ensures NoNewlines(f.0)
    ensures '\n' !in f.1
    ensures s == JoinLines(f.0) + f.1
    ensures '\r' !in s ==> forall i :: 0 <= i < |f.0| ==> '\r' !in f.0[i]
  {
    if s == [] then ([], [])
    else
      var tail := Terminated(s[1..]);
      var lines := tail.0;
      if s[0] == '\n' then
        ([[]] + lines, tail.1)
      else if lines == [] then
        ([], [s[0]] + tail.1)
      else
        assert JoinLines(lines) == lines[0] + "\n" + JoinLines(lines[1..]);
        assert ([[s[0]] + lines[0]] + lines[1..])[1..] == lines[1..];
        ([[s[0]] + lines[0]] + lines[1..], tail.1)
  }

  /** A part without a newline is split into itself. */
  lemma {:induction false} SplitUnterminated(t: string)
    requires '\n' !in t
    ensures Split(t) == [t]
  {
    if t != [] {
      assert '\n' !in t[1..];
      SplitUnterminated(t[1..]);
      assert |t| >= 2 ==> t[1] in t[1..];
      assert t == [t[0]] + t[1..];
    }
  }

  /** The first newline-terminated line is framed on its own, losing one
      trailing carriage return. */
  lemma {:induction false} SplitFirstLine(line: string, rest: string)
    requires '\n' !in line
    ensures Split(line + "\n" + rest) == [StripCR(line)] + Split(rest)
  {
    var s := line + "\n" + rest;
    if line == [] {
      assert s[1..] == rest;
    } else if line == "\r" {
      assert s[2..] == rest;
    } else {
      var tl := line[1..];
      assert '\n' !in tl;
      assert s[1..] == tl + "\n" + rest;
      SplitFirstLine(tl, rest);
      assert s[0] == line[0];
      if tl == [] {
        assert line == [line[0]];
        assert s[1] == '\n';
        assert [line[0]] + StripCR(tl) == StripCR(line);
      } else {
        assert line == [line[0]] + tl;
        assert s[1] == tl[0];
        assert line[|line| - 1] == tl[|tl| - 1];
        assert line[..|line| - 1] == [line[0]] + tl[..|tl| - 1];
        assert [line[0]] + StripCR(tl) == StripCR(line);
      }
      assert Split(s) == [[line[0]] + Split(s[1..])[0]] + Split(s[1..])[1..];
    }
  }

  /** Splitting newline-terminated lines followed by an unterminated
      remainder gives the lines, each without one trailing carriage return,
      then the remainder. */
  lemma {:induction false} SplitFramed(lines: seq<string>, rest: string)
    requires NoNewlines(lines)
    requires '\n' !in rest
    ensures Split(JoinLines(lines) + rest) == StripAll(lines) + [rest]
  {
    if lines == [] {
      assert JoinLines(lines) + rest == rest;
      SplitUnterminated(rest);
    } else {
      SplitFramed(lines[1..], rest);
      assert JoinLines(lines) + rest == lines[0] + "\n" + (JoinLines(lines[1..]) + rest);
      SplitFirstLine(lines[0], JoinLines(lines[1..]) + rest);
      assert StripAll(lines) == [StripCR(lines[0])] + StripAll(lines[1..]);
    }
  }

  /** `_splitLines` on framed input: exactly the terminated lines, in order,
      each without one trailing carriage return; the remainder is dropped. */
  lemma SplitLinesFramed(lines: seq<string>, rest: string)
    requires NoNewlines(lines)
    requires '\n' !in rest
    ensures SplitLines(JoinLines(lines) + rest) == StripAll(lines)
  {
    SplitFramed(lines, rest);
  }

  /** `_splitLines` agrees with the reference framing on every input. */
  lemma SplitLinesSpec(s: string)
    ensures SplitLines(s) == StripAll(Terminated(s).0)
  {
    var f := Terminated(s);
    SplitLinesFramed(f.0, f.1);
  }

  /** Text after the last newline never reaches the output. */
  lemma SplitLinesDropsRemainder(s: string, t: string)
    requires '\n' !in t
    ensures SplitLines(s + t) == SplitLines(s)
  {
    var f := Terminated(s);
    assert s + t == JoinLines(f.0) + (f.1 + t);
    SplitLinesFramed(f.0, f.1 + t);
    SplitLinesFramed(f.0, f.1);
  }

  lemma {:induction false} JoinLinesAppend(a: seq<string>, b: seq<string>)
    ensures JoinLines(a + b) == JoinLines(a) + JoinLines(b)
  {
    if a != [] {
      assert (a + b)[1..] == a[1..] + b;
      JoinLinesAppend(a[1..], b);
    } else {
      assert a + b == b;
    }
  }

  /** A payload ending in a newline leaves no unterminated remainder. */
  lemma TerminatedNoRemainder(s: string)
    requires s == [] || s[|s| - 1] == '\n'
    ensures Terminated(s).1 == []
  {
  }

  lemma NoNewlinesAppend(a: seq<string>, b: seq<string>)
    requires NoNewlines(a) && NoNewlines(b)
    ensures NoNewlines(a + b)
  {
  }

  lemma StripAllAppend(a: seq<string>, b: seq<string>)
    ensures StripAll(a + b) == StripAll(a) + StripAll(b)
  {
  }

  /** A newline-terminated payload frames independently of what follows it:
      two batched payloads give the lines of the first, then of the second. */
  lemma SplitLinesConcat(s: string, t: string)
    requires s == [] || s[|s| - 1] == '\n'
    ensures SplitLines(s + t) == SplitLines(s) + SplitLines(t)
  {
    var fs := Terminated(s);
    var ft := Terminated(t);
    TerminatedNoRemainder(s);
    assert s == JoinLines(fs.0);
    JoinLinesAppend(fs.0, ft.0);
    var both := fs.0 + ft.0;
    calc {
      s + t;
      JoinLines(fs.0) + (JoinLines(ft.0) + ft.1);
      (JoinLines(fs.0) + JoinLines(ft.0)) + ft.1;
      JoinLines(both) + ft.1;
    }
    NoNewlinesAppend(fs.0, ft.0);
    SplitLinesFramed(both, ft.1);
    SplitLinesSpec(s);
    SplitLinesSpec(t);
    StripAllAppend(fs.0, ft.0);
  }

  /** Lines joined with "\n" and without a trailing carriage return come
      back unchanged. */
  lemma SplitLinesRoundTrip(lines: seq<string>)
    requires NoNewlines(lines)
    requires forall i :: 0 <= i < |lines| ==> StripCR(lines[i]) == lines[i]
    ensures SplitLines(JoinLines(lines)) == lines
  {
    assert JoinLines(lines) + [] == JoinLines(lines);
    SplitLinesFramed(lines, []);
  }

  lemma {:induction false} JoinCRLFAsLines(lines: seq<string>)
    ensures JoinCRLF(lines) == JoinLines(seq(|lines|, i requires 0 <= i < |lines| => lines[i] + "\r"))
  {
    var withCR := seq(|lines|, i requires 0 <= i < |lines| => lines[i] + "\r");
    if lines != [] {
      JoinCRLFAsLines(lines[1..]);
      assert withCR[1..] == seq(|lines[1..]|, i requires 0 <= i < |lines[1..]| => lines[1..][i] + "\r");
      assert lines[0] + "\r\n" + JoinCRLF(lines[1..]) == withCR[0] + "\n" + JoinLines(withCR[1..]);
    }
  }

  /** Any lines without a newline, joined with "\r\n", come back unchanged,
      even those ending in a carriage return of their own. */
  lemma SplitLinesRoundTripCRLF(lines: seq<string>)
    requires NoNewlines(lines)
    ensures SplitLines(JoinCRLF(lines)) == lines
  {
    var withCR := seq(|lines|, i requires 0 <= i < |lines| => lines[i] + "\r");
    JoinCRLFAsLines(lines);
    assert forall i :: 0 <= i < |withCR| ==> '\n' !in withCR[i] && StripCR(withCR[i]) == lines[i];
    assert JoinLines(withCR) + [] == JoinLines(withCR);
    SplitLinesFramed(withCR, []);
  }

  /** A carriage-return-free payload ending in a newline is recovered by
      terminating every framed line with "\n". */
  lemma JoinSplitLines(s: string)
    requires '\r' !in s
    requires s == [] || s[|s| - 1] == '\n'
    ensures JoinLines(SplitLines(s)) == s
  {
    var f := Terminated(s);
    TerminatedNoRemainder(s);
    SplitLinesSpec(s);
    assert StripAll(f.0) == f.0;
  }
}
