/** What cleaning gives, told from its input: which lines are left out, and what is taken from between fences. */
module CleanResults {
  import opened Text
  import opened Clean
  import opened CleanTheorems

  // Which lines are left out.

  /** A separator line is one of dashes, bars, colons and spaces only. */
  lemma SeparatorIff(line: string)
    ensures IsSeparatorLine(line) <==>
            line != "" && forall k :: 0 <= k < |line| ==>
                line[k] == '-' || line[k] == '|' || line[k] == ':' || line[k] == ' '
  {
    TrimLeftIs(line, IsDivider);
    TrimRightIs(TrimLeft(line, IsDivider), IsDivider);
    if All(line, IsDivider) {
      TrimLeftAll(line, IsDivider);
    } else if line != "" {
      var k :| 0 <= k < |line| && !IsDivider(line[k]);
      assert !All(TrimLeft(line, IsDivider), IsDivider);
    }
  }

  datatype Kind = Solid | Blank | Divider

  function KindOf(line: string): Kind {
    if IsBlank(line) then Blank else if IsSep(line) then Divider else Solid
  }

  // A blank line after a blank one, or a separator after a separator.
  predicate Repeats(lines: seq<string>, k: nat)
    requires k < |lines|
  {
    k > 0 && KindOf(lines[k]) != Solid && KindOf(lines[k]) == KindOf(lines[k - 1])
  }

  // A kept line as it is shown: blank ones empty, separators trimmed, others without the carriage returns at the end.
  function Shown(line: string): string {
    match KindOf(line)
    case Blank => ""
    case Divider => TrimSpace(line)
    case Solid => TrimRight(line, IsReturn)
  }

  // The lines from k on, but for the repeated ones.
  function KeptFrom(lines: seq<string>, k: nat): seq<string>
    requires k <= |lines|
    decreases |lines| - k
  {
    if k == |lines| then [] else (if Repeats(lines, k) then [] else [Shown(lines[k])]) + KeptFrom(lines, k + 1)
  }

  lemma StepIs(line: string, prev: Kind)
    ensures var step := CollapseLine(line, prev == Blank, prev == Divider);
      && step.add == (if KindOf(line) != Solid && KindOf(line) == prev then [] else [Shown(line)])
      && step.prevBlank == (KindOf(line) == Blank) && step.prevSep == (KindOf(line) == Divider)
  {
    TrimRightKeepsTrim(line, IsReturn);
  }

  lemma CollapseNext(lines: seq<string>, prev: Kind)
    requires lines != []
    ensures var kind := KindOf(lines[0]);
      Collapse(lines, prev == Blank, prev == Divider) ==
      (if kind != Solid && kind == prev then [] else [Shown(lines[0])]) +
      Collapse(lines[1..], kind == Blank, kind == Divider)
  {
    StepIs(lines[0], prev);
  }

  lemma {:induction false} CollapseIs(lines: seq<string>, k: nat)
    requires k <= |lines|
    ensures var prev := if k == 0 then Solid else KindOf(lines[k - 1]);
      Collapse(lines[k..], prev == Blank, prev == Divider) == KeptFrom(lines, k)
    decreases |lines| - k
  {
    if k < |lines| {
      assert lines[k..][0] == lines[k] && lines[k..][1..] == lines[k + 1..];
      CollapseNext(lines[k..], if k == 0 then Solid else KindOf(lines[k - 1]));
      CollapseIs(lines, k + 1);
    }
  }

  lemma {:induction false} DropTrailingSplits(out: seq<string>)
    ensures var r := DropTrailing(out);
      && r <= out && (forall k :: |r| <= k < |out| ==> IsBlank(out[k]) || IsSep(out[k]))
      && (r != [] ==> !IsBlank(r[|r| - 1]) && !IsSep(r[|r| - 1]))
  {
    if out != [] && (IsBlank(out[|out| - 1]) || IsSep(out[|out| - 1])) { DropTrailingSplits(out[..|out| - 1]); }
  }

  lemma CleanIsKept(s: string)
    ensures CleanSpec(s) == TrimSpace(Join(DropTrailing(KeptFrom(Split(TrimFences(s)), 0))))
  {
    var lines := Split(TrimFences(s));
    assert lines[0..] == lines;
    CollapseIs(lines, 0);
    if TrimFences(s) == "" {
      assert lines == [""] && KeptFrom(lines, 0) == [""];
      assert DropTrailing([""]) == [];
    }
  }

  // `kept` up to n ends in a line that carries something, or is empty, and after it nothing does.
  predicate EndsAt(kept: seq<string>, n: nat) {
    && n <= |kept| && (forall k :: n <= k < |kept| ==> KindOf(kept[k]) != Solid)
    && (n > 0 ==> KindOf(kept[n - 1]) == Solid)
  }

  /** CleanText leaves out exactly the repeated blank lines and separators and those at the end: the text is the
      kept lines up to the last one that carries something. */
  lemma CleanTextIs(s: string) returns (n: nat)
    ensures var kept := KeptFrom(Split(TrimFences(s)), 0);
      EndsAt(kept, n) && CleanSpec(s) == TrimSpace(Join(kept[..n]))
  {
    var kept := KeptFrom(Split(TrimFences(s)), 0);
    CleanIsKept(s);
    DropTrailingSplits(kept);
    n := |DropTrailing(kept)|;
    assert DropTrailing(kept) == kept[..n];
  }

  // What is taken from between the fences.

  // A text that starts with a closing fence.
  predicate Closes(tail: string) {
    HasPrefix(tail, "\n```")
  }

  lemma {:induction false} IndexFirst(body: string, tail: string)
    requires Index(body, "\n```") < 0 && Closes(tail)
    ensures Index(body + tail, "\n```") == |body|
  {
    var s := body + tail;
    if body == "" {
      assert s == tail;
    } else {
      assert s[1..] == body[1..] + tail;
      IndexFirst(body[1..], tail);
      NotAcross(body, tail);
    }
  }

  // No fence begins in the body and ends after it: the body would have to end in a newline and backticks.
  lemma NotAcross(body: string, tail: string)
    requires body != "" && !HasPrefix(body, "\n```") && Closes(tail)
    ensures !HasPrefix(body + tail, "\n```")
  {
    var s, f := body + tail, "\n```";
    if |body| >= 4 {
      assert s[..4] == body[..4];
    } else {
      assert s[..4][|body|] == tail[..4][0] == '\n' && f[|body|] == '`';
    }
  }

  lemma {:induction false} TrimRightAfter(a: string, rest: string, p: char -> bool)
    requires a != "" && !p(a[|a| - 1])
    ensures TrimRight(a + rest, p) == a + TrimRight(rest, p)
  {
    var s := a + rest;
    if rest == "" {
      assert s == a;
    } else {
      assert s[..|s| - 1] == a + rest[..|rest| - 1];
      TrimRightAfter(a, rest[..|rest| - 1], p);
    }
  }

  lemma {:induction false} TrimLeftOf(a: string, rest: string, p: char -> bool)
    ensures TrimLeft(a + rest, p) == if All(a, p) then TrimLeft(rest, p) else TrimLeft(a, p) + rest
  {
    if a == "" {
      assert a + rest == rest;
    } else {
      assert (a + rest)[1..] == a[1..] + rest;
      TrimLeftOf(a[1..], rest, p);
      assert All(a, p) <==> p(a[0]) && All(a[1..], p) by {
        if p(a[0]) && All(a[1..], p) {
          forall k | 0 <= k < |a| ensures p(a[k]) { if k > 0 { assert a[k] == a[1..][k - 1]; } }
        }
      }
    }
  }

  lemma TrimLeftTwice(s: string, p: char -> bool)
    ensures TrimLeft(TrimLeft(s, p), p) == TrimLeft(s, p)
  {
    TrimLeftIs(s, p);
  }

  // An opening fence: the plain one only where the text goes on with something other than "markdown".
  predicate Opens(open: string, body: string) {
    open == "```markdown" || (open == FENCE && !HasPrefix(body, "markdown"))
  }

  // The text after an opening fence.
  function Unopened(t: string): string {
    if HasPrefix(t, "```markdown") then TrimSpace(t[11..]) else if HasPrefix(t, "```") then TrimSpace(t[3..]) else t
  }

  lemma OpenedIs(open: string, body: string)
    requires Opens(open, body)
    ensures Unopened(open + body) == TrimSpace(body)
  {
    var t := open + body;
    assert t[..|open|] == open && t[|open|..] == body;
    if open == FENCE && |t| >= 11 {
      assert t[3..11] == body[..8] && t[..11][3..] == body[..8] && "```markdown"[3..] == "markdown";
    }
  }

  lemma TrimFencesBy(s: string)
    ensures var u := Unopened(TrimSpace(s));
      var i := Index(u, "\n```");
      TrimFences(s) == if i >= 0 then TrimSpace(u[..i]) else TrimSpace(u)
  {
    var u := Unopened(TrimSpace(s));
    var i := Index(u, "\n```");
    if i >= 0 { TrimSpaceIs(u[..i]); }
  }

  // What is left of space, an opening fence and the rest when the whole is trimmed.
  lemma TrimOpened(pre: string, open: string, rest: string)
    requires All(pre, IsSpace) && (open == "```markdown" || open == FENCE)
    ensures TrimSpace(pre + open + rest) == open + TrimRight(rest, IsSpace)
  {
    assert pre + open + rest == pre + (open + rest);
    TrimLeftOf(pre, open + rest, IsSpace);
    assert (open + rest)[0] == '`';
    assert TrimLeft(open + rest, IsSpace) == open + rest;
    TrimRightAfter(open, rest, IsSpace);
  }

  lemma LeftUnfenced(body: string)
    requires Index(body, "\n```") < 0
    ensures Index(TrimLeft(body, IsSpace), "\n```") < 0
  {
    var lb := TrimLeft(body, IsSpace);
    TrimLeftIs(body, IsSpace);
    assert body == body[..|body| - |lb|] + lb + "";
    IndexPart(body[..|body| - |lb|], lb, "", "\n```");
  }

  lemma TrimBefore(body: string, tail: string)
    requires TrimSpace(body) != "" && tail != "" && !IsSpace(tail[|tail| - 1])
    ensures TrimSpace(body + tail) == TrimLeft(body, IsSpace) + tail
  {
    TrimSpaceIs(body);
    TrimLeftOf(body, tail, IsSpace);
  }

  // From the closing fence on, without the space at the end.
  function Closing(rest: string): string {
    "\n```" + TrimRight(rest, IsSpace)
  }

  lemma ClosingIs(rest: string)
    ensures Closes(Closing(rest)) && Closing(rest)[0] == '\n' && !IsSpace(Closing(rest)[|Closing(rest)| - 1])
  {
    assert Closing(rest)[..4] == "\n```";
    TrimRightIs(rest, IsSpace);
  }

  lemma CutIndex(lb: string, tail: string)
    requires Index(lb, "\n```") < 0 && Closes(tail)
    ensures Index(lb + tail, "\n```") == |lb| && (lb + tail)[..|lb|] == lb
  {
    IndexFirst(lb, tail);
  }

  lemma TrimTrimmedLeft(body: string)
    ensures TrimSpace(TrimLeft(body, IsSpace)) == TrimSpace(body)
  {
    TrimLeftTwice(body, IsSpace);
  }

  // What is cut off at the closing fence.
  lemma CutAtFence(text: string, body: string, rest: string)
    requires Unopened(TrimSpace(text)) == TrimSpace(body + Closing(rest))
    requires TrimSpace(body) != "" && Index(body, "\n```") < 0
    ensures TrimFences(text) == TrimSpace(body)
  {
    ClosingIs(rest);
    TrimBefore(body, Closing(rest));
    LeftUnfenced(body);
    CutIndex(TrimLeft(body, IsSpace), Closing(rest));
    TrimTrimmedLeft(body);
    TrimFencesBy(text);
  }

  lemma PrefixStays(open: string, body: string, tail: string)
    requires Opens(open, body) && tail != "" && tail[0] == '\n'
    ensures Opens(open, body + tail)
  {
    var s, w := body + tail, "markdown";
    if |body| >= 8 {
      assert s[..8] == body[..8];
    } else if |s| >= 8 {
      assert s[..8][|body|] == '\n' && w[|body|] != '\n';
    }
  }

  lemma ClosedIs(pre: string, open: string, body: string, rest: string)
    requires All(pre, IsSpace) && Opens(open, body)
    ensures Unopened(TrimSpace(pre + open + (body + "\n```" + rest))) == TrimSpace(body + Closing(rest))
  {
    TrimOpened(pre, open, body + "\n```" + rest);
    TrimRightAfter(body + "\n```", rest, IsSpace);
    assert body + "\n```" + TrimRight(rest, IsSpace) == body + Closing(rest);
    ClosingIs(rest);
    PrefixStays(open, body, Closing(rest));
    OpenedIs(open, body + Closing(rest));
  }

  /** trimOCRFences gives back what stands between the fences: what comes before the opening one and after the
      closing one is gone, */
  lemma FencedBody(pre: string, open: string, body: string, rest: string)
    requires All(pre, IsSpace) && Opens(open, body) && TrimSpace(body) != "" && Index(body, "\n```") < 0
    ensures TrimFences(pre + open + (body + "\n```" + rest)) == TrimSpace(body)
  {
    ClosedIs(pre, open, body, rest);
    CutAtFence(pre + open + (body + "\n```" + rest), body, rest);
  }

  /** without a closing one everything after the opening one, */
  lemma OpenBody(pre: string, open: string, body: string)
    requires All(pre, IsSpace) && Opens(open, TrimRight(body, IsSpace)) && Index(TrimSpace(body), "\n```") < 0
    ensures TrimFences(pre + open + body) == TrimSpace(body)
  {
    TrimOpened(pre, open, body);
    OpenedIs(open, TrimRight(body, IsSpace));
    TrimRightKeepsTrim(body, IsSpace);
    TrimSpaceIs(body);
    TrimFencesBy(pre + open + body);
  }

  /** and a text without fences as it is, but for the space around it. */
  lemma UnfencedBody(s: string)
    requires !HasPrefix(TrimSpace(s), "```") && Index(TrimSpace(s), "\n```") < 0
    ensures TrimFences(s) == TrimSpace(s)
  {
    var t := TrimSpace(s);
    assert |t| >= 11 ==> t[..11][..3] == t[..3] && "```markdown"[..3] == "```";
    TrimSpaceIs(s);
    TrimFencesBy(s);
  }
}
