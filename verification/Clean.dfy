/** internal/ocr: CleanText and the fence trimming before it. */
module Clean {
  import opened Text

  // trimOCRFences.
  function TrimFences(text: string): string {
    var t := TrimSpace(text);
    var u := if HasPrefix(t, "```markdown") then TrimSpace(t[11..])
             else if HasPrefix(t, "```") then TrimSpace(t[3..])
             else t;
    var i := Index(u, "\n```");
    TrimSpace(if i >= 0 then TrimSpace(u[..i]) else u)
  }

  predicate IsDivider(c: char) {
    c == '-' || c == '|' || c == ':' || c == ' '
  }

  // isSeparatorLine: something, and nothing after strings.Trim(s, "-|: ").
  predicate IsSeparatorLine(s: string) {
    s != "" && TrimRight(TrimLeft(s, IsDivider), IsDivider) == ""
  }

  predicate IsBlank(line: string) {
    TrimSpace(line) == ""
  }

  predicate IsSep(line: string) {
    IsSeparatorLine(TrimSpace(line))
  }

  // What the first loop of CleanText appends for one line and the flags it leaves.
  datatype Step = Step(add: seq<string>, prevBlank: bool, prevSep: bool)

  function CollapseLine(raw: string, prevBlank: bool, prevSep: bool): Step {
    var line := TrimRight(raw, IsReturn);
    var trimmed := TrimSpace(line);
    if trimmed == "" then (if prevBlank then Step([], true, prevSep) else Step([""], true, false))
    else if IsSeparatorLine(trimmed) then (if prevSep then Step([], prevBlank, true) else Step([trimmed], false, true))
    else Step([line], false, false)
  }

  function Collapse(lines: seq<string>, prevBlank: bool, prevSep: bool): seq<string> {
    if lines == [] then []
    else
      var step := CollapseLine(lines[0], prevBlank, prevSep);
      step.add + Collapse(lines[1..], step.prevBlank, step.prevSep)
  }

  // The second loop.
  function DropTrailing(out: seq<string>): seq<string> {
    if out != [] && (IsBlank(out[|out| - 1]) || IsSep(out[|out| - 1])) then DropTrailing(out[..|out| - 1]) else out
  }

  function CleanSpec(s: string): string {
    var t := TrimFences(s);
    if t == "" then "" else TrimSpace(Join(DropTrailing(Collapse(Split(t), false, false))))
  }

  // `out` and the flags are right after the first i lines.
  ghost predicate Collapsed(lines: seq<string>, i: nat, out: seq<string>, prevBlank: bool, prevSep: bool) {
    i <= |lines| && out + Collapse(lines[i..], prevBlank, prevSep) == Collapse(lines, false, false)
  }

  lemma CollapseNext(lines: seq<string>, i: nat, out: seq<string>, prevBlank: bool, prevSep: bool)
    requires i < |lines| && Collapsed(lines, i, out, prevBlank, prevSep)
    ensures var step := CollapseLine(lines[i], prevBlank, prevSep);
      Collapsed(lines, i + 1, out + step.add, step.prevBlank, step.prevSep)
  {
    var step := CollapseLine(lines[i], prevBlank, prevSep);
    assert lines[i..][0] == lines[i] && lines[i..][1..] == lines[i + 1..];
    var rest := Collapse(lines[i + 1..], step.prevBlank, step.prevSep);
    assert (out + step.add) + rest == out + (step.add + rest);
  }

  lemma CollapsedAll(lines: seq<string>, out: seq<string>, prevBlank: bool, prevSep: bool)
    requires Collapsed(lines, |lines|, out, prevBlank, prevSep)
    ensures out == Collapse(lines, false, false)
  {
  }

  // The first loop of CleanText: no two blank lines in a row, no two separators in a row.
  method CollapseLines(lines: seq<string>) returns (out: seq<string>)
    ensures out == Collapse(lines, false, false)
  {
    out := [];
    var prevBlank, prevSep := false, false;
    var i := 0;
    while i < |lines|
      decreases |lines| - i
      invariant Collapsed(lines, i, out, prevBlank, prevSep)
    {
      CollapseNext(lines, i, out, prevBlank, prevSep);
      var line := TrimRight(lines[i], IsReturn);
      var trimmed := TrimSpace(line);
      i := i + 1;
      if trimmed == "" {
        if prevBlank { assert out + [] == out; continue; }
        out := out + [""];
        prevBlank, prevSep := true, false;
        continue;
      }
      if IsSeparatorLine(trimmed) {
        if prevSep { assert out + [] == out; continue; }
        out := out + [trimmed];
        prevSep, prevBlank := true, false;
        continue;
      }
      out := out + [line];
      prevBlank, prevSep := false, false;
    }
    CollapsedAll(lines, out, prevBlank, prevSep);
  }

  // The second loop: blank lines and separators at the end go.
  method DropTrailingLines(lines: seq<string>) returns (out: seq<string>)
    ensures out == DropTrailing(lines)
  {
    out := lines;
    while |out| > 0
      invariant DropTrailing(out) == DropTrailing(lines)
    {
      var last := TrimSpace(out[|out| - 1]);
      if last == "" || IsSeparatorLine(last) {
        out := out[..|out| - 1];
        continue;
      }
      break;
    }
  }

  method CleanText(s: string) returns (r: string)
    ensures r == CleanSpec(s)
  {
    var t := TrimFences(s);
    if t == "" {
      return "";
    }
    var out := CollapseLines(Split(t));
    out := DropTrailingLines(out);
    r := TrimSpace(Join(out));
  }
}
