/** Normalising the text of an EPUB chapter: trimmed lines, blank runs collapsed to one. */
module NormalizeText {
  import opened Basics
  import opened Text

  // ----- Lines -----

  function WithoutReturn(line: string): string {
    if line != "" && line[|line| - 1] == '\r' then line[..|line| - 1] else line
  }

  /** `str::lines`: no line for what follows a final newline, a carriage return before a newline dropped. */
  function Lines(text: string): seq<string>
    decreases |text|
  {
    if text == "" then []
    else
      var i := IndexOf(text, '\n');
      if i == |text| then [text] else [WithoutReturn(text[..i])] + Lines(text[i + 1..])
  }

  /** The lines of a text, each trimmed. */
  function TrimmedLines(text: string): seq<string> {
    Trims(Lines(text))
  }

  // ----- The normal form -----

  /** Blank lines neither first nor last, nor two in a row; the others trimmed, on one line each. */
  predicate IsNormal(lines: seq<string>) {
    && (forall i :: 0 <= i < |lines| ==> IsTrimmed(lines[i]) && '\n' !in lines[i])
    && (lines != [] ==> lines[0] != "" && lines[|lines| - 1] != "")
    && (forall i, j :: 0 <= i && j == i + 1 < |lines| ==> lines[i] != "" || lines[j] != "")
  }

  /** The lines kept so far, and whether a blank line is owed before the next one. */
  datatype Kept = Kept(lines: seq<string>, pendingBlank: bool)

  function Step(k: Kept, line: string): Kept {
    if line == "" then Kept(k.lines, k.pendingBlank || k.lines != [])
    else Kept(if k.pendingBlank then k.lines + ["", line] else k.lines + [line], false)
  }

  function Squeeze(lines: seq<string>): Kept {
    if lines == [] then Kept([], false) else Step(Squeeze(lines[..|lines| - 1]), lines[|lines| - 1])
  }

  function Normalized(text: string): seq<string> {
    Squeeze(TrimmedLines(text)).lines
  }

  lemma JoinBlankAppend(lines: seq<string>, line: string)
    requires lines != []
    ensures Join(lines + ["", line], "\n") == Join(lines, "\n") + "\n" + "\n" + line
  {
    assert lines + ["", line] == (lines + [""]) + [line];
    JoinAppend(lines, "", "\n");
    JoinAppend(lines + [""], line, "\n");
  }

  /** What is kept ends, and starts, with a trimmed line. */
  predicate KeptOk(k: Kept) {
    IsNormal(k.lines) && (k.pendingBlank ==> k.lines != [])
  }

  lemma StepKeepsOk(k: Kept, line: string)
    requires KeptOk(k) && IsTrimmed(line) && '\n' !in line
    ensures KeptOk(Step(k, line))
  {
  }

  predicate Clean(lines: seq<string>) {
    forall i :: 0 <= i < |lines| ==> IsTrimmed(lines[i]) && '\n' !in lines[i]
  }

  lemma {:induction false} SqueezeIsNormal(lines: seq<string>)
    requires Clean(lines)
    ensures KeptOk(Squeeze(lines))
  {
    if lines != [] {
      SqueezeIsNormal(lines[..|lines| - 1]);
      StepKeepsOk(Squeeze(lines[..|lines| - 1]), lines[|lines| - 1]);
    }
  }

  lemma {:induction false} LinesHaveNoNewline(text: string)
    ensures forall i :: 0 <= i < |Lines(text)| ==> '\n' !in Lines(text)[i]
    decreases |text|
  {
    if text != "" {
      var i := IndexOf(text, '\n');
      if i < |text| {
        LinesHaveNoNewline(text[i + 1..]);
      }
    }
  }

  lemma TrimmedLinesAreClean(text: string)
    ensures Clean(TrimmedLines(text))
  {
    LinesHaveNoNewline(text);
    forall i | 0 <= i < |TrimmedLines(text)|
      ensures IsTrimmed(TrimmedLines(text)[i]) && '\n' !in TrimmedLines(text)[i]
    {
      var before, after := TrimCuts(Lines(text)[i]);
      assert forall c :: c in Trim(Lines(text)[i]) ==> c in Lines(text)[i];
    }
  }

  /** A joined text starts and ends where its first and last lines do. */
  lemma {:induction false} JoinEnds(lines: seq<string>)
    requires lines != [] && lines[0] != "" && lines[|lines| - 1] != ""
    ensures Join(lines, "\n") != "" && Join(lines, "\n")[0] == lines[0][0]
    ensures Join(lines, "\n")[|Join(lines, "\n")| - 1] == lines[|lines| - 1][|lines[|lines| - 1]| - 1]
  {
    JoinStarts(lines);
  }

  lemma {:induction false} JoinStarts(lines: seq<string>)
    requires lines != [] && lines[0] != ""
    ensures Join(lines, "\n") != "" && Join(lines, "\n")[0] == lines[0][0]
  {
    if |lines| > 1 {
      JoinStarts(lines[..|lines| - 1]);
    }
  }

  lemma NormalEnds(k: Kept)
    requires KeptOk(k)
    ensures IsTrimmed(Join(k.lines, "\n"))
    ensures k.lines == [] <==> Join(k.lines, "\n") == ""
    ensures k.lines != [] ==> Join(k.lines, "\n")[|Join(k.lines, "\n")| - 1] != '\n'
  {
    if k.lines != [] {
      JoinEnds(k.lines);
    }
  }

  /** The text built line by line, then trimmed. */
  method Normalize(text: string) returns (r: string)
    ensures r == Join(Normalized(text), "\n")
  {
    var out := "";
    var pendingBlank := false;
    var lines := Lines(text);
    ghost var trims := TrimmedLines(text);
    TrimmedLinesAreClean(text);
    for i := 0 to |lines|
      invariant out == Join(Squeeze(trims[..i]).lines, "\n") && pendingBlank == Squeeze(trims[..i]).pendingBlank
      invariant KeptOk(Squeeze(trims[..i]))
    {
      ghost var kept := Squeeze(trims[..i]);
      var trimmed := Trim(lines[i]);
      assert trims[..i + 1][..i] == trims[..i];
      StepKeepsOk(kept, trimmed);
      NormalEnds(kept);
      if trimmed == "" {
        if out != "" {
          pendingBlank := true;
        }
        continue;
      }
      if pendingBlank {
        JoinBlankAppend(kept.lines, trimmed);
        if !EndsWith(out, "\n\n") {
          if !EndsWith(out, "\n") {
            out := out + "\n";
          }
          out := out + "\n";
        }
        pendingBlank := false;
      } else if out != "" {
        JoinAppend(kept.lines, trimmed, "\n");
        out := out + "\n";
      } else {
        JoinAppend(kept.lines, trimmed, "\n");
      }
      out := out + trimmed;
    }
    assert trims[..|lines|] == trims;
    NormalEnds(Squeeze(trims));
    TrimmedStays(out);
    r := Trim(out);
  }

  // ----- What it guarantees -----

  lemma FirstNewlineOf(line: string, rest: string)
    requires '\n' !in line
    ensures IndexOf(line, '\n') == |line| && IndexOf(line + "\n" + rest, '\n') == |line|
  {
    var text := line + "\n" + rest;
    assert text[|line|] == '\n' && forall j :: 0 <= j < |line| ==> text[j] == line[j];
    assert text[IndexOf(text, '\n')] == '\n' || IndexOf(text, '\n') == |text|;
  }

  /** Normal lines read back as they were joined. */
  lemma {:induction false} LinesOfJoin(lines: seq<string>)
    requires Clean(lines) && (lines != [] ==> lines[|lines| - 1] != "")
    ensures Lines(Join(lines, "\n")) == lines
  {
    if |lines| == 1 {
      FirstNewlineOf(lines[0], "");
    } else if lines != [] {
      var first, rest := lines[0], lines[1..];
      assert lines == [first] + rest;
      JoinFront(first, rest, "\n");
      LinesOfJoin(rest);
      FirstNewlineOf(first, Join(rest, "\n"));
      var text := first + "\n" + Join(rest, "\n");
      assert text[..|first|] == first && text[|first| + 1..] == Join(rest, "\n");
      assert WithoutReturn(first) == first;
    }
  }

  lemma {:induction false} TrimsOfClean(lines: seq<string>)
    requires Clean(lines)
    ensures Trims(lines) == lines
  {
    forall i | 0 <= i < |lines| ensures Trim(lines[i]) == lines[i] {
      TrimmedStays(lines[i]);
    }
  }

  /** Squeezing a prefix of normal lines keeps it, up to a blank line at its end. */
  lemma {:induction false} NormalStays(lines: seq<string>, n: nat)
    requires IsNormal(lines) && n <= |lines|
    ensures Squeeze(lines[..n])
         == if n > 0 && lines[n - 1] == "" then Kept(lines[..n - 1], true) else Kept(lines[..n], false)
  {
    if n > 0 {
      NormalStays(lines, n - 1);
      assert lines[..n][..n - 1] == lines[..n - 1];
      assert lines[..n] == lines[..n - 1] + [lines[n - 1]];
      if n > 1 {
        assert lines[n - 2] != "" || lines[n - 1] != "";
        assert lines[..n] == lines[..n - 2] + [lines[n - 2], lines[n - 1]];
      }
    }
  }

  /** The output is in normal form, and its lines are the kept lines. */
  lemma OutputIsNormal(text: string)
    ensures IsNormal(Lines(Join(Normalized(text), "\n"))) && Lines(Join(Normalized(text), "\n")) == Normalized(text)
  {
    TrimmedLinesAreClean(text);
    SqueezeIsNormal(TrimmedLines(text));
    LinesOfJoin(Normalized(text));
  }

  /** Normalising twice is normalising once. */
  lemma NormalizeIsIdempotent(text: string)
    ensures Normalized(Join(Normalized(text), "\n")) == Normalized(text)
  {
    var lines := Normalized(text);
    OutputIsNormal(text);
    TrimsOfClean(lines);
    NormalStays(lines, |lines|);
    assert lines[..|lines|] == lines;
  }

  lemma {:induction false} SqueezeKeepsLines(lines: seq<string>)
    ensures Filter(Squeeze(lines).lines, NonBlank()) == Filter(lines, NonBlank())
  {
    if lines != [] {
      var front, line := lines[..|lines| - 1], lines[|lines| - 1];
      SqueezeKeepsLines(front);
      var kept := Squeeze(front).lines;
      if line != "" {
        assert kept + ["", line] == (kept + [""]) + [line];
        FilterAppend(kept, "", NonBlank());
        FilterAppend(kept + [""], line, NonBlank());
        FilterAppend(kept, line, NonBlank());
      }
    }
  }

  /** The non-blank lines of the output are the input's, trimmed and in order. */
  lemma LinesSurvive(text: string)
    ensures Filter(Lines(Join(Normalized(text), "\n")), NonBlank()) == Filter(TrimmedLines(text), NonBlank())
  {
    OutputIsNormal(text);
    SqueezeKeepsLines(TrimmedLines(text));
  }

  /** A blank line stands between two kept lines exactly when the input has one there. */
  lemma {:induction false} BlankIsOwed(lines: seq<string>)
    ensures Squeeze(lines).pendingBlank <==>
      lines != [] && lines[|lines| - 1] == "" && exists i :: 0 <= i < |lines| && lines[i] != ""
    ensures Squeeze(lines).lines == [] <==> forall i :: 0 <= i < |lines| ==> lines[i] == ""
  {
    if lines != [] {
      BlankIsOwed(lines[..|lines| - 1]);
      assert forall i :: 0 <= i < |lines| - 1 ==> lines[..|lines| - 1][i] == lines[i];
    }
  }

  predicate AllBlank(lines: seq<string>) {
    forall i :: 0 <= i < |lines| ==> lines[i] == ""
  }

  lemma SqueezeAppend(lines: seq<string>, line: string)
    ensures Squeeze(lines + [line]) == Step(Squeeze(lines), line)
  {
    assert (lines + [line])[..|lines|] == lines;
  }

  lemma {:induction false} BlanksArePending(lines: seq<string>, blanks: seq<string>)
    requires AllBlank(blanks) && Squeeze(lines).lines != []
    ensures Squeeze(lines + blanks) == Kept(Squeeze(lines).lines, Squeeze(lines).pendingBlank || blanks != [])
  {
    if blanks == [] {
      assert lines + blanks == lines;
    } else {
      var front := blanks[..|blanks| - 1];
      BlanksArePending(lines, front);
      SqueezeAppend(lines + front, "");
      assert lines + blanks == (lines + front) + [""];
    }
  }

  /**
   * Between two kept lines any run of blank lines becomes one blank line, and no blank
   * lines stay none: paragraphs neither merge nor split.
   */
  lemma SeparatorsSurvive(lines: seq<string>, x: string, blanks: seq<string>, y: string)
    requires x != "" && y != "" && AllBlank(blanks)
    ensures var before := Squeeze(lines + [x]).lines;
            && before != [] && before[|before| - 1] == x
            && Squeeze(lines + [x] + blanks + [y]).lines == before + if blanks == [] then [y] else ["", y]
  {
    SqueezeAppend(lines, x);
    BlanksArePending(lines + [x], blanks);
    SqueezeAppend(lines + [x] + blanks, y);
  }
}
