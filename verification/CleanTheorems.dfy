/** What cleaning keeps, what its results look like, and when cleaning twice is cleaning once. */
module CleanTheorems {
  import opened Text
  import opened Clean

  // The lines that carry something: trimmed, neither blank nor a separator.
  function Content(lines: seq<string>): seq<string> {
    if lines == [] then []
    else (if IsBlank(lines[0]) || IsSep(lines[0]) then [] else [TrimSpace(lines[0])]) + Content(lines[1..])
  }

  lemma {:induction false} ContentConcat(a: seq<string>, b: seq<string>)
    ensures Content(a + b) == Content(a) + Content(b)
  {
    if a == [] {
      assert a + b == b;
    } else {
      assert (a + b)[0] == a[0] && (a + b)[1..] == a[1..] + b;
      ContentConcat(a[1..], b);
    }
  }

  lemma ContentOne(line: string)
    ensures Content([line]) == if IsBlank(line) || IsSep(line) then [] else [TrimSpace(line)]
  {
    assert [line][1..] == [];
  }

  // Two lines with the same trimmed text carry the same.
  lemma ContentSwap(front: seq<string>, x: string, y: string, back: seq<string>)
    requires TrimSpace(x) == TrimSpace(y)
    ensures Content(front + [x] + back) == Content(front + [y] + back)
  {
    ContentOne(x);
    ContentOne(y);
    forall z | z == x || z == y
      ensures Content(front + [z] + back) == Content(front) + Content([z]) + Content(back)
    {
      ContentConcat(front + [z], back);
      ContentConcat(front, [z]);
    }
  }

  lemma {:induction false} TrimLeftKeepsContent(s: string)
    ensures Content(Split(TrimLeft(s, IsSpace))) == Content(Split(s))
  {
    if s != [] && IsSpace(s[0]) {
      TrimLeftKeepsContent(s[1..]);
      var rest := Split(s[1..]);
      if s[0] == '\n' {
        assert Split(s)[1..] == rest;
        assert IsBlank("");
      } else {
        TrimSpaceCons(s[0], rest[0]);
        ContentSwap([], [s[0]] + rest[0], rest[0], rest[1..]);
        assert [] + [rest[0]] + rest[1..] == rest;
        assert [] + [[s[0]] + rest[0]] + rest[1..] == Split(s);
      }
    }
  }

  lemma ContentSnoc(s: string, c: char)
    requires IsSpace(c)
    ensures Content(Split(s + [c])) == Content(Split(s))
  {
    SplitSnoc(s, c);
    var a, b := Split(s), Split(s + [c]);
    if c == '\n' {
      ContentConcat(a, [""]);
      ContentOne("");
    } else {
      var front, last := a[..|a| - 1], a[|a| - 1];
      TrimSpaceSnoc(last, c);
      ContentSwap(front, last + [c], last, []);
      assert front + [last] + [] == a;
      assert front + [last + [c]] + [] == b;
    }
  }

  lemma {:induction false} TrimRightKeepsContent(s: string)
    ensures Content(Split(TrimRight(s, IsSpace))) == Content(Split(s))
  {
    if s != [] && IsSpace(s[|s| - 1]) {
      TrimRightKeepsContent(s[..|s| - 1]);
      assert s == s[..|s| - 1] + [s[|s| - 1]];
      ContentSnoc(s[..|s| - 1], s[|s| - 1]);
    }
  }

  lemma TrimSpaceKeepsContent(s: string)
    ensures Content(Split(TrimSpace(s))) == Content(Split(s))
  {
    TrimLeftKeepsContent(s);
    TrimRightKeepsContent(TrimLeft(s, IsSpace));
  }

  lemma CollapseLineKeeps(raw: string, prevBlank: bool, prevSep: bool)
    ensures Content(CollapseLine(raw, prevBlank, prevSep).add) == Content([raw])
    ensures |CollapseLine(raw, prevBlank, prevSep).add| <= 1
  {
    TrimRightKeepsTrim(raw, IsReturn);
    TrimSpaceIs(raw);
    TrimSpaceIs(TrimSpace(raw));
    ContentOne(raw);
    ContentOne("");
    ContentOne(TrimSpace(raw));
    ContentOne(TrimRight(raw, IsReturn));
  }

  lemma {:induction false} CollapseKeepsContent(lines: seq<string>, prevBlank: bool, prevSep: bool)
    ensures Content(Collapse(lines, prevBlank, prevSep)) == Content(lines)
  {
    if lines != [] {
      var step := CollapseLine(lines[0], prevBlank, prevSep);
      CollapseLineKeeps(lines[0], prevBlank, prevSep);
      CollapseKeepsContent(lines[1..], step.prevBlank, step.prevSep);
      ContentConcat(step.add, Collapse(lines[1..], step.prevBlank, step.prevSep));
      ContentConcat([lines[0]], lines[1..]);
      assert [lines[0]] + lines[1..] == lines;
    }
  }

  lemma {:induction false} DropTrailingKeepsContent(out: seq<string>)
    ensures Content(DropTrailing(out)) == Content(out)
  {
    if out != [] && (IsBlank(out[|out| - 1]) || IsSep(out[|out| - 1])) {
      DropTrailingKeepsContent(out[..|out| - 1]);
      ContentConcat(out[..|out| - 1], [out[|out| - 1]]);
      ContentOne(out[|out| - 1]);
      assert out[..|out| - 1] + [out[|out| - 1]] == out;
    }
  }

  // Lines as Split makes them and as the first loop leaves them.
  predicate OneLine(line: string) {
    '\n' !in line
  }

  predicate Tidy(line: string) {
    && OneLine(line)
    && TrimRight(line, IsReturn) == line
    && (IsBlank(line) ==> line == "")
    && (IsSep(line) ==> line == TrimSpace(line))
  }

  predicate AllTidy(lines: seq<string>) {
    forall k :: 0 <= k < |lines| ==> Tidy(lines[k])
  }

  predicate AllOneLine(lines: seq<string>) {
    forall k :: 0 <= k < |lines| ==> OneLine(lines[k])
  }

  // Neither two blank lines nor two separators in a row.
  predicate NoRepeats(lines: seq<string>) {
    forall k :: 0 < k < |lines| ==>
      !(IsBlank(lines[k - 1]) && IsBlank(lines[k])) && !(IsSep(lines[k - 1]) && IsSep(lines[k]))
  }

  predicate Follows(lines: seq<string>, prevBlank: bool, prevSep: bool) {
    lines != [] ==> !(prevBlank && IsBlank(lines[0])) && !(prevSep && IsSep(lines[0]))
  }

  lemma CollapseLineTidy(raw: string, prevBlank: bool, prevSep: bool)
    requires OneLine(raw)
    ensures var step := CollapseLine(raw, prevBlank, prevSep);
      && AllTidy(step.add)
      && (forall line :: line in step.add ==>
            !(prevBlank && IsBlank(line)) && !(prevSep && IsSep(line)) &&
            (IsBlank(line) ==> step.prevBlank) && (IsSep(line) ==> step.prevSep))
      && (step.add == [] ==> (prevBlank ==> step.prevBlank) && (prevSep ==> step.prevSep))
  {
    var line := TrimRight(raw, IsReturn);
    TrimRightIs(raw, IsReturn);
    TrimRightIs(line, IsReturn);
    TrimSpaceIs(line);
    var trimmed := TrimSpace(line);
    TrimSpaceIs(trimmed);
    TrimRightIs(trimmed, IsReturn);
    assert line != "" ==> TrimRight(line, IsReturn) == line;
    assert trimmed != "" ==> TrimRight(trimmed, IsReturn) == trimmed;
  }

  // At most one line, and a tidy rest that follows it.
  lemma TidyCons(add: seq<string>, rest: seq<string>, blank: bool, sep: bool, prevBlank: bool, prevSep: bool)
    requires |add| <= 1 && AllTidy(add) && AllTidy(rest) && NoRepeats(rest) && Follows(rest, blank, sep)
    requires add != [] ==> Follows(add, prevBlank, prevSep) && (IsBlank(add[0]) ==> blank) && (IsSep(add[0]) ==> sep)
    requires add == [] ==> (prevBlank ==> blank) && (prevSep ==> sep)
    ensures AllTidy(add + rest) && NoRepeats(add + rest) && Follows(add + rest, prevBlank, prevSep)
  {
    if add == [] {
      assert add + rest == rest;
    } else {
      assert add == [add[0]];
      forall k | 0 <= k < |add + rest| ensures Tidy((add + rest)[k]) {
        if k > 0 { assert Tidy(rest[k - 1]); } else { assert Tidy(add[0]); }
      }
    }
  }

  lemma {:induction false} CollapseTidy(lines: seq<string>, prevBlank: bool, prevSep: bool)
    requires AllOneLine(lines)
    ensures var out := Collapse(lines, prevBlank, prevSep);
      AllTidy(out) && NoRepeats(out) && Follows(out, prevBlank, prevSep)
  {
    if lines != [] {
      var step := CollapseLine(lines[0], prevBlank, prevSep);
      CollapseLineTidy(lines[0], prevBlank, prevSep);
      CollapseLineKeeps(lines[0], prevBlank, prevSep);
      CollapseTidy(lines[1..], step.prevBlank, step.prevSep);
      if step.add != [] { assert step.add[0] in step.add; }
      var rest := Collapse(lines[1..], step.prevBlank, step.prevSep);
      TidyCons(step.add, rest, step.prevBlank, step.prevSep, prevBlank, prevSep);
    }
  }

  // What is already collapsed stays as it is.
  lemma {:induction false} CollapseFixed(lines: seq<string>, prevBlank: bool, prevSep: bool)
    requires AllTidy(lines) && NoRepeats(lines) && Follows(lines, prevBlank, prevSep)
    ensures Collapse(lines, prevBlank, prevSep) == lines
  {
    if lines != [] {
      var step := CollapseLine(lines[0], prevBlank, prevSep);
      assert Tidy(lines[0]);
      assert step.add == [lines[0]];
      if |lines| > 1 { assert lines[1..][0] == lines[1]; }
      forall k | 0 < k < |lines[1..]|
        ensures !(IsBlank(lines[1..][k - 1]) && IsBlank(lines[1..][k]))
        ensures !(IsSep(lines[1..][k - 1]) && IsSep(lines[1..][k]))
      {
        assert lines[1..][k - 1] == lines[k] && lines[1..][k] == lines[k + 1];
      }
      CollapseFixed(lines[1..], step.prevBlank, step.prevSep);
    }
  }

  lemma {:induction false} DropTrailingIs(out: seq<string>)
    ensures var r := DropTrailing(out);
      && r <= out
      && (r != [] ==> !IsBlank(r[|r| - 1]) && !IsSep(r[|r| - 1]))
      && (out != [] && !IsBlank(out[0]) && !IsSep(out[0]) ==> r != [])
  {
    if out != [] && (IsBlank(out[|out| - 1]) || IsSep(out[|out| - 1])) {
      DropTrailingIs(out[..|out| - 1]);
    }
  }

  // Joining.

  lemma {:induction false} JoinSnoc(front: seq<string>, last: string)
    ensures Join(front + [last]) == (if front == [] then "" else Join(front) + "\n") + last
  {
    if front == [] {
      assert front + [last] == [last];
    } else {
      assert (front + [last])[1..] == front[1..] + [last];
      JoinSnoc(front[1..], last);
    }
  }

  lemma {:induction false} TrimRightOf(a: string, b: string, p: char -> bool)
    requires !All(b, p)
    ensures TrimRight(a + b, p) == a + TrimRight(b, p)
  {
    assert b != [];
    assert (a + b)[..|a + b| - 1] == a + b[..|b| - 1];
    if p(b[|b| - 1]) {
      var k :| 0 <= k < |b| && !p(b[k]);
      assert b[..|b| - 1][k] == b[k];
      TrimRightOf(a, b[..|b| - 1], p);
    }
  }

  // What is left of a text without its trailing space when its last line is not blank.
  function LastTrimmed(lines: seq<string>): seq<string>
    requires lines != []
  {
    lines[..|lines| - 1] + [TrimRight(lines[|lines| - 1], IsSpace)]
  }

  predicate StartsSolid(lines: seq<string>) {
    lines != [] && lines[0] != "" && !IsSpace(lines[0][0])
  }

  lemma TrimSolid(s: string)
    requires s != "" && !IsSpace(s[0])
    ensures TrimSpace(s) == TrimRight(s, IsSpace)
  {
  }

  lemma {:induction false} JoinHead(lines: seq<string>)
    requires StartsSolid(lines)
    ensures Join(lines) != "" && Join(lines)[0] == lines[0][0]
  {
  }

  lemma TrimJoin(lines: seq<string>)
    requires StartsSolid(lines) && !IsBlank(lines[|lines| - 1])
    ensures TrimSpace(Join(lines)) == Join(LastTrimmed(lines))
  {
    var front, last := lines[..|lines| - 1], lines[|lines| - 1];
    var head := if front == [] then "" else Join(front) + "\n";
    assert Join(lines) == head + last by {
      JoinSnoc(front, last);
      assert lines == front + [last];
    }
    assert !All(last, IsSpace) by { TrimSpaceIs(last); }
    TrimRightOf(head, last, IsSpace);
    JoinSnoc(front, TrimRight(last, IsSpace));
    JoinHead(lines);
    TrimSolid(Join(lines));
  }

  lemma FirstLine(t: string)
    requires t != "" && !IsSpace(t[0])
    ensures Split(t)[0] != "" && Split(t)[0][0] == t[0]
    ensures forall p: string :: '\n' !in p ==> (HasPrefix(t, p) <==> HasPrefix(Split(t)[0], p))
  {
    forall p: string | '\n' !in p ensures HasPrefix(t, p) <==> HasPrefix(Split(t)[0], p) { PrefixOfFirst(t, p); }
  }

  lemma PrefixOfLonger(a: string, s: string, p: string)
    requires a <= s
    ensures HasPrefix(a, p) ==> HasPrefix(s, p)
  {
    if HasPrefix(a, p) { assert s[..|p|] == a[..|p|]; }
  }

  lemma PrefixHead(s: string, p: string)
    requires p != ""
    ensures HasPrefix(s, p) ==> s != "" && s[0] == p[0]
  {
    if HasPrefix(s, p) { assert s[..|p|][0] == p[0]; }
  }

  lemma {:induction false} PrefixOfFirst(t: string, p: string)
    requires '\n' !in p
    ensures HasPrefix(t, p) <==> HasPrefix(Split(t)[0], p)
  {
    if p != "" && t != "" && t[0] != '\n' && t[0] == p[0] {
      PrefixOfFirst(t[1..], p[1..]);
      assert HasPrefix(t, p) <==> HasPrefix(t[1..], p[1..]) by {
        assert |p| <= |t| ==> t[..|p|] == [t[0]] + t[1..][..|p| - 1];
        assert p == [p[0]] + p[1..];
      }
      var l := Split(t)[0];
      assert l[1..] == Split(t[1..])[0];
      assert HasPrefix(l, p) <==> HasPrefix(l[1..], p[1..]) by {
        assert |p| <= |l| ==> l[..|p|] == [l[0]] + l[1..][..|p| - 1];
        assert p == [p[0]] + p[1..];
      }
    } else if p != "" {
      PrefixHead(t, p);
      PrefixHead(Split(t)[0], p);
    }
  }

  const FENCE := "```"

  predicate Fenced(line: string) {
    HasPrefix(line, FENCE)
  }

  // A fence at the start of a line other than the first is what Index(t, "\n```") finds.
  lemma {:induction false} NoFenceLine(t: string)
    ensures Index(t, "\n```") < 0 <==> forall k :: 1 <= k < |Split(t)| ==> !Fenced(Split(t)[k])
  {
    if t == "" {
      assert !HasPrefix(t, "\n```");
    } else {
      NoFenceLine(t[1..]);
      var rest := Split(t[1..]);
      if t[0] == '\n' {
        PrefixOfFirst(t[1..], FENCE);
        assert HasPrefix(t, "\n```") <==> HasPrefix(t[1..], FENCE) by {
          assert |t| >= 4 ==> t[..4] == ['\n'] + t[1..][..3];
          assert "\n```" == ['\n'] + FENCE;
        }
        assert forall k :: 1 <= k < |Split(t)| ==> Split(t)[k] == rest[k - 1];
        assert forall k :: 0 <= k < |rest| ==> rest[k] == Split(t)[k + 1];
      } else {
        PrefixHead(t, "\n```");
        assert forall k :: 1 <= k < |rest| ==> Split(t)[k] == rest[k];
      }
    }
  }

  lemma {:induction false} IndexCut(u: string, sub: string, i: nat)
    requires sub != "" && Index(u, sub) == i
    ensures i <= |u| && Index(u[..i], sub) < 0
  {
    if i > 0 {
      IndexCut(u[1..], sub, i - 1);
      assert u[..i][1..] == u[1..][..i - 1];
      PrefixOfLonger(u[..i], u, sub);
    }
  }

  lemma {:induction false} IndexPart(a: string, m: string, b: string, sub: string)
    requires sub != "" && Index(a + m + b, sub) < 0
    ensures Index(m, sub) < 0
    decreases |a|, |m|
  {
    var s := a + m + b;
    if a != [] {
      assert s[1..] == a[1..] + m + b;
      IndexPart(a[1..], m, b, sub);
    } else if m != [] {
      assert s == m + b && s[1..] == [] + m[1..] + b;
      IndexPart([], m[1..], b, sub);
      PrefixOfLonger(m, s, sub);
    }
  }

  lemma TrimSpacePart(s: string) returns (a: string, b: string)
    ensures s == a + TrimSpace(s) + b
  {
    var l := TrimLeft(s, IsSpace);
    TrimLeftIs(s, IsSpace);
    TrimRightIs(l, IsSpace);
    a, b := s[..|s| - |l|], l[|TrimSpace(s)|..];
  }

  lemma NoFenceAfterTrim(s: string)
    requires Index(s, "\n```") < 0
    ensures Index(TrimSpace(s), "\n```") < 0
  {
    var a, b := TrimSpacePart(s);
    IndexPart(a, TrimSpace(s), b, "\n```");
  }

  /** trimOCRFences returns a trimmed text without a fence on any line but the first, not longer than its input. */
  lemma TrimFencesIs(s: string)
    ensures var t := TrimFences(s);
      Trimmed(t) && Index(t, "\n```") < 0 && |t| <= |TrimSpace(s)|
    ensures HasPrefix(TrimSpace(s), FENCE) ==> |TrimFences(s)| < |TrimSpace(s)|
  {
    var t := TrimSpace(s);
    var u := if HasPrefix(t, "```markdown") then TrimSpace(t[11..])
             else if HasPrefix(t, "```") then TrimSpace(t[3..])
             else t;
    TrimSpaceIs(s);
    if |t| >= 11 { TrimSpaceIs(t[11..]); }
    if |t| >= 3 { TrimSpaceIs(t[3..]); }
    var i := Index(u, "\n```");
    if i >= 0 {
      IndexCut(u, "\n```", i);
      TrimSpaceIs(u[..i]);
      NoFenceAfterTrim(u[..i]);
    }
    var v := if i >= 0 then TrimSpace(u[..i]) else u;
    TrimSpaceIs(v);
    NoFenceAfterTrim(v);
  }

  lemma FenceSurvives(raw: string, line: string, p: char -> bool)
    requires line <= raw && All(raw[|line|..], p) && !p('`')
    ensures Fenced(raw) <==> Fenced(line)
  {
    PrefixOfLonger(line, raw, FENCE);
    if Fenced(raw) {
      assert raw[0] == FENCE[0] && raw[1] == FENCE[1] && raw[2] == FENCE[2] by { assert raw[..3] == FENCE; }
      forall k | |line| <= k < |raw| ensures p(raw[k]) { assert raw[|line|..][k - |line|] == raw[k]; }
      assert line[..3] == raw[..3];
    }
  }

  // The first line survives cleaning up to the space behind it.
  lemma FirstStep(raw: string)
    requires raw != "" && !IsSpace(raw[0])
    ensures var add := CollapseLine(raw, false, false).add;
      |add| == 1 && add[0] != "" && add[0][0] == raw[0] && (Fenced(add[0]) <==> Fenced(raw))
  {
    var line := TrimRight(raw, IsReturn);
    TrimRightIs(raw, IsReturn);
    TrimRightIs(line, IsSpace);
    FenceSurvives(raw, line, IsReturn);
    FenceSurvives(line, TrimRight(line, IsSpace), IsSpace);
    assert line != "" && line[0] == raw[0];
    assert TrimSpace(line) == TrimRight(line, IsSpace);
  }

  lemma CollapseFirst(lines: seq<string>)
    requires StartsSolid(lines)
    ensures var out := Collapse(lines, false, false); StartsSolid(out) && (Fenced(lines[0]) <==> Fenced(out[0]))
  {
    FirstStep(lines[0]);
  }

  // What starts with no p still starts the same after trimming.
  lemma TrimKeepsHead(s: string, p: char -> bool)
    requires s != "" && !p(s[0])
    ensures TrimLeft(s, p) == s && TrimRight(s, p) != "" && TrimRight(s, p)[0] == s[0]
  {
    TrimRightIs(s, p);
  }

  // A fenced line is neither blank nor a separator.
  lemma FenceIsContent(line: string)
    requires Fenced(line)
    ensures !IsBlank(line) && !IsSep(line)
  {
    assert line[0] == FENCE[0] by { assert line[..3] == FENCE; }
    TrimKeepsHead(line, IsSpace);
    TrimKeepsHead(TrimSpace(line), IsDivider);
  }

  // No fence appears that was not there.
  lemma StepUnfenced(raw: string, prevBlank: bool, prevSep: bool)
    requires !Fenced(raw)
    ensures forall x :: x in CollapseLine(raw, prevBlank, prevSep).add ==> !Fenced(x)
  {
    var line := TrimRight(raw, IsReturn);
    TrimRightIs(raw, IsReturn);
    FenceSurvives(raw, line, IsReturn);
    var trimmed := TrimSpace(line);
    TrimSpaceIs(trimmed);
    TrimSpaceIs(line);
    if Fenced(trimmed) { FenceIsContent(trimmed); }
  }

  lemma {:induction false} CollapseUnfenced(lines: seq<string>, prevBlank: bool, prevSep: bool)
    requires forall k :: 0 <= k < |lines| ==> !Fenced(lines[k])
    ensures forall line :: line in Collapse(lines, prevBlank, prevSep) ==> !Fenced(line)
  {
    if lines != [] {
      var step := CollapseLine(lines[0], prevBlank, prevSep);
      StepUnfenced(lines[0], prevBlank, prevSep);
      CollapseUnfenced(lines[1..], step.prevBlank, step.prevSep);
    }
  }

  // What CleanText computes when something is left.
  lemma CleanIs(s: string)
    requires TrimFences(s) != ""
    ensures var out := DropTrailing(Collapse(Split(TrimFences(s)), false, false));
      && (out == [] ==> CleanSpec(s) == "")
      && (out != [] ==>
            var ls := LastTrimmed(out);
            && CleanSpec(s) == Join(ls) && Split(CleanSpec(s)) == ls
            && StartsSolid(out) && StartsSolid(ls) && AllTidy(ls) && NoRepeats(ls)
            && !IsBlank(ls[|ls| - 1]) && !IsSep(ls[|ls| - 1]))
  {
    var t := TrimFences(s);
    TrimFencesIs(s);
    FirstLine(t);
    var all := Collapse(Split(t), false, false);
    CollapseFirst(Split(t));
    CollapseTidy(Split(t), false, false);
    DropTrailingIs(all);
    var out := DropTrailing(all);
    if out != [] {
      assert out[0] == all[0];
      TrimJoin(out);
      LastTrimmedTidy(out);
      SplitJoin(LastTrimmed(out));
    }
  }

  lemma SameKinds(a: seq<string>, b: seq<string>)
    requires |a| == |b| && NoRepeats(a) && forall k :: 0 <= k < |a| ==> TrimSpace(a[k]) == TrimSpace(b[k])
    ensures NoRepeats(b)
  {
    forall k | 0 < k < |b|
      ensures !(IsBlank(b[k - 1]) && IsBlank(b[k])) && !(IsSep(b[k - 1]) && IsSep(b[k]))
    {
      assert TrimSpace(a[k - 1]) == TrimSpace(b[k - 1]) && TrimSpace(a[k]) == TrimSpace(b[k]);
    }
  }

  lemma TrimmedStaysTidy(line: string)
    requires Tidy(line) && !IsBlank(line) && !IsSep(line)
    ensures var l := TrimRight(line, IsSpace);
      Tidy(l) && TrimSpace(l) == TrimSpace(line) && l != "" && l[0] == line[0]
  {
    TrimRightKeepsTrim(line, IsSpace);
    TrimRightIs(line, IsSpace);
    TrimSpaceIs(line);
    TrimLeftIs(line, IsSpace);
  }

  lemma LastTrimmedTidy(out: seq<string>)
    requires StartsSolid(out) && AllTidy(out) && NoRepeats(out) && !IsBlank(out[|out| - 1]) && !IsSep(out[|out| - 1])
    ensures var ls := LastTrimmed(out);
      && StartsSolid(ls) && AllTidy(ls) && NoRepeats(ls)
      && !IsBlank(ls[|ls| - 1]) && !IsSep(ls[|ls| - 1])
  {
    TrimmedStaysTidy(out[|out| - 1]);
    SameKinds(out, LastTrimmed(out));
  }

  /** CleanText keeps every line that carries something, in order, up to the space around it. */
  lemma CleanKeepsContent(s: string)
    ensures Content(Split(CleanSpec(s))) == Content(Split(TrimFences(s)))
  {
    var t := TrimFences(s);
    if t != "" {
      var all := Collapse(Split(t), false, false);
      var out := DropTrailing(all);
      CollapseKeepsContent(Split(t), false, false);
      DropTrailingKeepsContent(all);
      TrimSpaceKeepsContent(Join(out));
      if out == [] {
        ContentOne("");
        assert Split("") == [""];
      } else {
        CollapseTidy(Split(t), false, false);
        DropTrailingIs(all);
        SplitJoin(out);
      }
    }
  }

  /** Its result has no two blank lines and no two separators in a row, ends with neither, and has no
      space around it. */
  lemma CleanNormalForm(s: string)
    ensures var c := CleanSpec(s);
      Trimmed(c) && (c != "" ==>
        NoRepeats(Split(c)) && !IsBlank(Split(c)[|Split(c)| - 1]) && !IsSep(Split(c)[|Split(c)| - 1]))
  {
    var t := TrimFences(s);
    if t != "" {
      CleanIs(s);
      TrimSpaceIs(Join(DropTrailing(Collapse(Split(t), false, false))));
    }
  }

  // Cleaning a clean text that does not start with a fence changes nothing.
  lemma CleanAgain(s: string)
    requires !Fenced(TrimFences(s))
    ensures CleanSpec(CleanSpec(s)) == CleanSpec(s)
  {
    var t, c := TrimFences(s), CleanSpec(s);
    if t != "" && c != "" {
      TrimFencesIs(s);
      NoFenceLine(t);
      PrefixOfFirst(t, FENCE);
      CleanIs(s);
      CleanNormalForm(s);
      var all := Collapse(Split(t), false, false);
      CollapseUnfenced(Split(t), false, false);
      DropTrailingIs(all);
      LastUnfenced(DropTrailing(all));
      var ls := Split(c);
      NoFenceLine(c);
      PrefixOfFirst(c, FENCE);
      NotFenced(c);
      TrimSpaceIs(c);
      assert TrimFences(c) == c;
      CollapseFixed(ls, false, false);
      assert DropTrailing(ls) == ls;
    }
  }

  lemma NotFenced(c: string)
    ensures HasPrefix(c, "```markdown") ==> Fenced(c)
  {
    if HasPrefix(c, "```markdown") { assert c[..3] == c[..11][..3] == FENCE; }
  }

  lemma LastUnfenced(out: seq<string>)
    requires out != [] && forall line :: line in out ==> !Fenced(line)
    ensures forall k :: 0 <= k < |out| ==> !Fenced(LastTrimmed(out)[k])
  {
    var last := out[|out| - 1];
    TrimRightIs(last, IsSpace);
    FenceSurvives(last, TrimRight(last, IsSpace), IsSpace);
    assert last in out;
    forall k | 0 <= k < |out| ensures !Fenced(LastTrimmed(out)[k]) { assert out[k] in out; }
  }

  // Cleaning never lengthens a text.
  function Length(lines: seq<string>): nat {
    if lines == [] then 0 else |lines[0]| + 1 + Length(lines[1..])
  }

  lemma {:induction false} JoinLength(lines: seq<string>)
    ensures |Join(lines)| == if lines == [] then 0 else Length(lines) - 1
  {
    if |lines| > 1 { JoinLength(lines[1..]); }
  }

  lemma {:induction false} SplitLength(s: string)
    ensures Length(Split(s)) == |s| + 1
  {
    if s == "" {
      assert Split(s)[1..] == [];
    } else {
      SplitLength(s[1..]);
      if s[0] == '\n' { assert Split(s)[1..] == Split(s[1..]); }
    }
  }

  lemma {:induction false} LengthPrefix(a: seq<string>, b: seq<string>)
    requires a <= b
    ensures Length(a) <= Length(b)
  {
    if a != [] { LengthPrefix(a[1..], b[1..]); }
  }

  lemma {:induction false} CollapseLength(lines: seq<string>, prevBlank: bool, prevSep: bool)
    ensures Length(Collapse(lines, prevBlank, prevSep)) <= Length(lines)
  {
    if lines != [] {
      var step := CollapseLine(lines[0], prevBlank, prevSep);
      var line := TrimRight(lines[0], IsReturn);
      TrimRightIs(lines[0], IsReturn);
      TrimSpaceIs(line);
      CollapseLength(lines[1..], step.prevBlank, step.prevSep);
      if step.add == [] {
        assert Collapse(lines, prevBlank, prevSep) == Collapse(lines[1..], step.prevBlank, step.prevSep);
      }
      else { assert Collapse(lines, prevBlank, prevSep)[1..] == Collapse(lines[1..], step.prevBlank, step.prevSep); }
    }
  }

  lemma CleanLength(s: string)
    ensures |CleanSpec(s)| <= |TrimFences(s)|
  {
    var t := TrimFences(s);
    if t != "" {
      var all := Collapse(Split(t), false, false);
      CollapseLength(Split(t), false, false);
      SplitLength(t);
      DropTrailingIs(all);
      LengthPrefix(DropTrailing(all), all);
      JoinLength(DropTrailing(all));
      TrimSpaceIs(Join(DropTrailing(all)));
    }
  }

  // A fence left at the front is taken away by the next cleaning.
  lemma FenceCleanedAgain(s: string)
    requires Fenced(TrimFences(s))
    ensures Fenced(CleanSpec(s)) && CleanSpec(CleanSpec(s)) != CleanSpec(s)
  {
    var t, c := TrimFences(s), CleanSpec(s);
    TrimFencesIs(s);
    PrefixHead(t, FENCE);
    PrefixOfFirst(t, FENCE);
    FirstLine(t);
    CollapseFirst(Split(t));
    var all := Collapse(Split(t), false, false);
    FenceIsContent(all[0]);
    DropTrailingIs(all);
    var out := DropTrailing(all);
    assert out[0] == all[0];
    CleanIs(s);
    TrimRightIs(out[|out| - 1], IsSpace);
    FenceSurvives(out[|out| - 1], TrimRight(out[|out| - 1], IsSpace), IsSpace);
    PrefixOfFirst(c, FENCE);
    CleanNormalForm(s);
    TrimSpaceIs(c);
    TrimFencesIs(c);
    CleanLength(c);
  }

  lemma {:induction false} NotInLine(s: string, sub: string)
    requires '\n' !in s && sub != "" && sub[0] == '\n'
    ensures Index(s, sub) < 0
  {
    assert |sub| <= |s| ==> s[..|sub|][0] == s[0];
    if s != "" { NotInLine(s[1..], sub); }
  }

  /** There are such texts: any line that starts with six backticks, "``````a" for one. */
  lemma TwoFences(rest: string)
    requires '\n' !in rest && (rest != "" ==> !IsSpace(rest[|rest| - 1]))
    ensures var s := "``````" + rest;
      TrimFences(s) == "```" + rest && Fenced(TrimFences(s)) && CleanSpec(CleanSpec(s)) != CleanSpec(s)
  {
    var s, u := "``````" + rest, "```" + rest;
    TrimSpaceIs(s);
    TrimSpaceIs(u);
    assert s[3..] == u && s[..3] == FENCE && u[..3] == FENCE;
    assert !HasPrefix(s, "```markdown") by { assert s[3] != "```markdown"[3]; }
    NotInLine(u, "\n```");
    FenceCleanedAgain(s);
  }

  /** Cleaning twice is cleaning once exactly for the texts that, once trimmed of their fences, do not start
      with another one. */
  lemma CleanIdempotentIff(s: string)
    ensures CleanSpec(CleanSpec(s)) == CleanSpec(s) <==> !HasPrefix(TrimFences(s), "```")
  {
    if Fenced(TrimFences(s)) { FenceCleanedAgain(s); } else { CleanAgain(s); }
  }
}
