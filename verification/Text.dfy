/** The parts of Go's `strings` and `unicode` packages that cleaning and parsing use.
    A Go string of valid UTF-8 is the sequence of its code points. */
module Text {

  predicate IsSpace(c: char) {
    c == '\t' || c == '\n' || c == '\U{0B}' || c == '\U{0C}' || c == '\r' || c == ' ' ||
    c == '\U{85}' || c == '\U{A0}' || c == '\U{1680}' || ('\U{2000}' <= c <= '\U{200A}') ||
    c == '\U{2028}' || c == '\U{2029}' || c == '\U{202F}' || c == '\U{205F}' || c == '\U{3000}'
  }

  predicate IsReturn(c: char) {
    c == '\r'
  }

  function TrimLeft(s: string, p: char -> bool): (r: string)
    ensures |r| <= |s|
  {
    if s != [] && p(s[0]) then TrimLeft(s[1..], p) else s
  }

  function TrimRight(s: string, p: char -> bool): (r: string)
    ensures r <= s
  {
    if s != [] && p(s[|s| - 1]) then TrimRight(s[..|s| - 1], p) else s
  }

  function TrimSpace(s: string): string {
    TrimRight(TrimLeft(s, IsSpace), IsSpace)
  }

  predicate HasPrefix(s: string, prefix: string) {
    |prefix| <= |s| && s[..|prefix|] == prefix
  }

  // strings.Index: the first position of `sub`, or -1.
  function Index(s: string, sub: string): (i: int)
    ensures -1 <= i <= |s|
    ensures i >= 0 ==> HasPrefix(s[i..], sub)
  {
    if HasPrefix(s, sub) then 0
    else if s == [] then -1
    else
      var r := Index(s[1..], sub);
      if r < 0 then -1 else r + 1
  }

  // strings.Split(s, "\n") and strings.Join(lines, "\n").
  function Split(s: string): (lines: seq<string>)
    ensures |lines| >= 1
    ensures forall k :: 0 <= k < |lines| ==> '\n' !in lines[k]
  {
    if s == [] then [""]
    else
      var rest := Split(s[1..]);
      if s[0] == '\n' then [""] + rest
      else [[s[0]] + rest[0]] + rest[1..]
  }

  function Join(lines: seq<string>): string {
    if lines == [] then ""
    else if |lines| == 1 then lines[0]
    else lines[0] + "\n" + Join(lines[1..])
  }

  // Trimming.

  predicate All(s: string, p: char -> bool) {
    forall k :: 0 <= k < |s| ==> p(s[k])
  }

  lemma {:induction false} TrimLeftAll(s: string, p: char -> bool)
    requires All(s, p)
    ensures TrimLeft(s, p) == ""
  {
    if s != [] { TrimLeftAll(s[1..], p); }
  }

  // What TrimLeft leaves is a suffix that does not start with p; it leaves nothing of a text of p's only.
  lemma {:induction false} TrimLeftIs(s: string, p: char -> bool)
    ensures var r := TrimLeft(s, p);
      && r == s[|s| - |r|..]
      && (r != "" ==> !p(r[0]))
      && (r == "" <==> All(s, p))
  {
    if s != [] && p(s[0]) {
      TrimLeftIs(s[1..], p);
      assert s == [s[0]] + s[1..];
    }
  }

  lemma {:induction false} TrimRightIs(s: string, p: char -> bool)
    ensures var r := TrimRight(s, p);
      && r <= s
      && (r != "" ==> !p(r[|r| - 1]))
      && (r == "" <==> All(s, p))
      && All(s[|r|..], p)
  {
    if s != [] && p(s[|s| - 1]) {
      var front := s[..|s| - 1];
      TrimRightIs(front, p);
      assert s == front + [s[|s| - 1]];
      var r := TrimRight(front, p);
      assert s[|r|..] == front[|r|..] + [s[|s| - 1]];
    }
  }

  lemma {:induction false} TrimLeftSnoc(s: string, c: char, p: char -> bool)
    requires !All(s, p)
    ensures TrimLeft(s + [c], p) == TrimLeft(s, p) + [c]
  {
    assert s != [];
    if p(s[0]) {
      assert (s + [c])[1..] == s[1..] + [c];
      var k :| 0 <= k < |s| && !p(s[k]);
      assert s[1..][k - 1] == s[k];
      TrimLeftSnoc(s[1..], c, p);
    }
  }

  lemma TrimSpaceCons(c: char, s: string)
    requires IsSpace(c)
    ensures TrimSpace([c] + s) == TrimSpace(s)
  {
    assert ([c] + s)[1..] == s;
  }

  lemma TrimSpaceSnoc(s: string, c: char)
    requires IsSpace(c)
    ensures TrimSpace(s + [c]) == TrimSpace(s)
  {
    if All(s, IsSpace) {
      TrimLeftAll(s, IsSpace);
      TrimLeftAll(s + [c], IsSpace);
    } else {
      TrimLeftSnoc(s, c, IsSpace);
      var t := TrimLeft(s, IsSpace);
      assert (t + [c])[..|t|] == t;
    }
  }

  lemma {:induction false} TrimRightKeepsTrim(s: string, p: char -> bool)
    requires forall c :: p(c) ==> IsSpace(c)
    ensures TrimSpace(TrimRight(s, p)) == TrimSpace(s)
  {
    if s != [] && p(s[|s| - 1]) {
      TrimRightKeepsTrim(s[..|s| - 1], p);
      assert s == s[..|s| - 1] + [s[|s| - 1]];
      TrimSpaceSnoc(s[..|s| - 1], s[|s| - 1]);
    }
  }

  // A text that neither starts nor ends with space is what TrimSpace leaves alone.
  predicate Trimmed(s: string) {
    s == "" || (!IsSpace(s[0]) && !IsSpace(s[|s| - 1]))
  }

  lemma TrimSpaceIs(s: string)
    ensures Trimmed(TrimSpace(s))
    ensures |TrimSpace(s)| <= |s|
    ensures TrimSpace(s) == "" <==> All(s, IsSpace)
    ensures '\n' !in s ==> '\n' !in TrimSpace(s)
    ensures Trimmed(s) ==> TrimSpace(s) == s
  {
    TrimLeftIs(s, IsSpace);
    TrimRightIs(TrimLeft(s, IsSpace), IsSpace);
  }

  // Splitting.

  lemma {:induction false} SplitOneLine(s: string)
    requires '\n' !in s
    ensures Split(s) == [s]
  {
    if s != [] {
      SplitOneLine(s[1..]);
      assert s == [s[0]] + s[1..];
    }
  }

  lemma {:induction false} SplitAcross(a: string, b: string)
    requires '\n' !in a
    ensures Split(a + "\n" + b) == [a] + Split(b)
  {
    var s := a + "\n" + b;
    if a == [] {
      assert s[1..] == b;
    } else {
      assert s[1..] == a[1..] + "\n" + b;
      SplitAcross(a[1..], b);
      assert a == [a[0]] + a[1..];
    }
  }

  lemma {:induction false} SplitJoin(lines: seq<string>)
    requires lines != [] && forall k :: 0 <= k < |lines| ==> '\n' !in lines[k]
    ensures Split(Join(lines)) == lines
  {
    if |lines| == 1 {
      SplitOneLine(lines[0]);
    } else {
      SplitJoin(lines[1..]);
      SplitAcross(lines[0], Join(lines[1..]));
      assert lines == [lines[0]] + lines[1..];
    }
  }

  // The lines of a text with one more character.
  function Grow(lines: seq<string>, c: char): seq<string>
    requires lines != []
  {
    if c == '\n' then lines + [""] else lines[..|lines| - 1] + [lines[|lines| - 1] + [c]]
  }

  lemma GrowAfter(first: string, lines: seq<string>, c: char)
    requires lines != []
    ensures Grow([first] + lines, c) == [first] + Grow(lines, c)
  {
  }

  lemma GrowInto(p: char, lines: seq<string>, c: char)
    requires lines != []
    ensures Grow([[p] + lines[0]] + lines[1..], c) == [[p] + Grow(lines, c)[0]] + Grow(lines, c)[1..]
  {
    var all := [[p] + lines[0]] + lines[1..];
    if c == '\n' {
      assert Grow(lines, c)[1..] == lines[1..] + [""];
    } else if |lines| == 1 {
      assert Grow(all, c) == [[p] + lines[0] + [c]];
      assert [p] + lines[0] + [c] == [p] + (lines[0] + [c]);
      assert Grow(lines, c) == [lines[0] + [c]];
    } else {
      var last := [lines[|lines| - 1] + [c]];
      assert all[|all| - 1] == lines[|lines| - 1];
      assert Grow(lines, c)[1..] == lines[1..|lines| - 1] + last;
      assert Grow(all, c) == [[p] + lines[0]] + lines[1..|lines| - 1] + last;
    }
  }

  lemma {:induction false} SplitSnoc(s: string, c: char)
    ensures Split(s + [c]) == Grow(Split(s), c)
  {
    if s == [] {
      var t := s + [c];
      assert t[0] == c && t[1..] == [] && Split(t[1..]) == [""];
      assert Split(t) == if c == '\n' then [""] + [""] else [[c] + ""] + [];
      assert [c] + "" == "" + [c];
    } else {
      assert (s + [c])[1..] == s[1..] + [c];
      SplitSnoc(s[1..], c);
      if s[0] == '\n' {
        GrowAfter("", Split(s[1..]), c);
      } else {
        GrowInto(s[0], Split(s[1..]), c);
      }
    }
  }
}
