/** Go's regexp package as far as the parser needs it.

    A match is found the way a backtracking matcher finds it: `Run` lists every way to match a pattern from a
    position, the preferred one first.  That is the leftmost-first rule RE2 keeps for alternatives and
    for the greedy operators.  All patterns are case-insensitive, as they are in extract.go. */
module Regex {

  datatype Class = Lit(c: char) | OneOf(cs: string) | Digit | Space

  datatype Re =
    | Bol | Eol | Edge           // ^  $  \b
    | Chr(cls: Class)
    | Cat(a: Re, b: Re)
    | Alt(a: Re, b: Re)
    | Opt(a: Re)                 // ?
    | Star(a: Re)                // *
    | Group(a: Re)               // ( ), the one capturing group of a pattern

  // How far a match has got, and what the group has captured.
  datatype Match = Match(pos: nat, from: nat, to: nat)

  // Unicode simple folding, for the letters the patterns use.
  function Fold(c: char): char {
    if 'A' <= c <= 'Z' then (c as int + 32) as char
    else if '\U{C0}' <= c <= '\U{DE}' && c != '\U{D7}' then (c as int + 32) as char
    else if c == '\U{17F}' then 's'
    else if c == '\U{212A}' then 'k'
    else c
  }

  predicate IsDigit(c: char) {
    '0' <= c <= '9'
  }

  // \s is ASCII space without the vertical tab.
  predicate IsReSpace(c: char) {
    c == '\t' || c == '\n' || c == '\U{0C}' || c == '\r' || c == ' '
  }

  predicate IsWord(c: char) {
    IsDigit(c) || 'A' <= c <= 'Z' || 'a' <= c <= 'z' || c == '_'
  }

  predicate InClass(cls: Class, c: char) {
    match cls
    case Lit(l) => Fold(c) == Fold(l)
    case OneOf(cs) => exists k :: 0 <= k < |cs| && Fold(c) == Fold(cs[k])
    case Digit => IsDigit(c)
    case Space => IsReSpace(c)
  }

  predicate WordAt(s: string, i: int) {
    0 <= i < |s| && IsWord(s[i])
  }

  ghost predicate Within(s: string, lo: nat, ms: seq<Match>) {
    forall k :: 0 <= k < |ms| ==> lo <= ms[k].pos <= |s|
  }

  // Every way to match r from m, in order of preference.
  function Run(r: Re, s: string, m: Match): (ms: seq<Match>)
    requires m.pos <= |s|
    ensures Within(s, m.pos, ms)
    decreases r, |s| - m.pos, 1, 0
  {
    match r
    case Bol => if m.pos == 0 then [m] else []
    case Eol => if m.pos == |s| then [m] else []
    case Edge => if WordAt(s, m.pos - 1) != WordAt(s, m.pos) then [m] else []
    case Chr(cls) => if m.pos < |s| && InClass(cls, s[m.pos]) then [m.(pos := m.pos + 1)] else []
    case Cat(a, b) => Each(b, s, m.pos, Run(a, s, m))
    case Alt(a, b) => Run(a, s, m) + Run(b, s, m)
    case Opt(a) => Run(a, s, m) + [m]
    case Star(a) => Again(a, s, m.pos, Run(a, s, m)) + [m]
    case Group(a) => Capture(m.pos, s, Run(a, s, m))
  }

  function Each(r: Re, s: string, ghost lo: nat, ms: seq<Match>): (r': seq<Match>)
    requires lo <= |s| && Within(s, lo, ms)
    ensures Within(s, lo, r')
    decreases r, |s| + 1, 0, |ms|
  {
    if ms == [] then []
    else
      var first := Run(r, s, ms[0]);
      assert Within(s, lo, first);
      first + Each(r, s, lo, ms[1..])
  }

  // Another round of a Star, which has to move on.
  function Again(a: Re, s: string, lo: nat, ms: seq<Match>): (r: seq<Match>)
    requires lo <= |s| && Within(s, lo, ms)
    ensures Within(s, lo, r)
    decreases Star(a), |s| - lo, 0, |ms|
  {
    if ms == [] then []
    else
      var first := if ms[0].pos > lo then Run(Star(a), s, ms[0]) else [];
      assert Within(s, lo, first);
      first + Again(a, s, lo, ms[1..])
  }

  function Capture(from: nat, s: string, ms: seq<Match>): (r: seq<Match>)
    requires Within(s, from, ms)
    ensures Within(s, from, r)
    ensures |r| == |ms| && forall k :: 0 <= k < |ms| ==> r[k] == Match(ms[k].pos, from, ms[k].pos)
  {
    seq(|ms|, k requires 0 <= k < |ms| => Match(ms[k].pos, from, ms[k].pos))
  }

  datatype Found = NotFound | Found(start: nat, m: Match)

  // The leftmost match at or after i, and there the preferred one.
  function Find(r: Re, s: string, i: nat): (f: Found)
    requires i <= |s|
    ensures f.Found? ==> i <= f.start <= f.m.pos <= |s|
    decreases |s| - i
  {
    var ms := Run(r, s, Match(i, i, i));
    if ms != [] then Found(i, ms[0])
    else if i < |s| then Find(r, s, i + 1)
    else NotFound
  }

  predicate MatchString(r: Re, s: string) {
    Find(r, s, 0).Found?
  }

  // FindAllStringSubmatch for patterns that do not match the empty text: the groups of the
  // non-overlapping matches.
  function FindAll(r: Re, s: string, i: nat): seq<string>
    requires i <= |s|
    decreases |s| - i
  {
    var f := Find(r, s, i);
    if f.NotFound? || f.m.pos <= i || f.m.from > f.m.to || f.m.to > |s| then []
    else [s[f.m.from..f.m.to]] + FindAll(r, s, f.m.pos)
  }

  // ReplaceAllString for such patterns.
  function ReplaceAll(r: Re, s: string, repl: string, i: nat): string
    requires i <= |s|
    decreases |s| - i
  {
    var f := Find(r, s, i);
    if f.NotFound? || f.m.pos <= i then s[i..]
    else s[i..f.start] + repl + ReplaceAll(r, s, repl, f.m.pos)
  }

  // Writing patterns.

  function Word(w: string): Re
    requires w != ""
  {
    if |w| == 1 then Chr(Lit(w[0])) else Cat(Chr(Lit(w[0])), Word(w[1..]))
  }

  function Plus(a: Re): Re {
    Cat(a, Star(a))
  }

  function AnyOf(rs: seq<Re>): Re
    requires rs != []
  {
    if |rs| == 1 then rs[0] else Alt(rs[0], AnyOf(rs[1..]))
  }
}
