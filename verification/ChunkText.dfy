/**
 * Splitting a document into overlapping chunks for the knowledge base, on single-byte
 * text: paragraphs are merged up to the chunk size, and a longer one is cut into windows.
 */
module ChunkText {
  import opened Basics
  import opened Text

  const BREAK := "\n\n"

  // ----- Paragraphs -----

  predicate BreakAt(text: string, i: int) {
    0 <= i && i + 2 <= |text| && text[i] == '\n' && text[i + 1] == '\n'
  }

  /** Where the first blank-line break starts, or the length when there is none. */
  function FirstBreak(text: string): (i: nat)
    ensures i <= |text| && (i < |text| ==> BreakAt(text, i))
    ensures forall j :: 0 <= j < i ==> !BreakAt(text, j)
  {
    if |text| < 2 then |text|
    else if text[0] == '\n' && text[1] == '\n' then 0
    else
      var i := FirstBreak(text[1..]) + 1;
      assert forall j :: 1 <= j < |text| ==> BreakAt(text, j) == BreakAt(text[1..], j - 1);
      i
  }

  function Split(text: string): seq<string>
    decreases |text|
  {
    var i := FirstBreak(text);
    if i == |text| then [text] else [text[..i]] + Split(text[i + 2..])
  }

  function Paragraphs(text: string): seq<string> {
    Trims(Split(text))
  }

  lemma {:induction false} SplitRejoins(text: string)
    ensures Split(text) != [] && Join(Split(text), BREAK) == text
    decreases |text|
  {
    var i := FirstBreak(text);
    if i < |text| {
      var rest := Split(text[i + 2..]);
      SplitRejoins(text[i + 2..]);
      BreakCuts(text, i);
      JoinFront(text[..i], rest, BREAK);
    }
  }

  lemma BreakCuts(text: string, i: nat)
    requires BreakAt(text, i)
    ensures text == text[..i] + BREAK + text[i + 2..]
  {
    assert text[i..i + 2] == BREAK;
    assert text == text[..i] + text[i..i + 2] + text[i + 2..];
  }

  // ----- Windows of a long paragraph -----

  datatype Window = Window(start: nat, end: nat)

  /** Subtraction that stops at zero. */
  function Less(a: nat, b: nat): nat { if a >= b then a - b else 0 }

  /** Where the window that starts at `start` ends, and where the next one starts. */
  function EndOf(len: nat, chunkSize: nat, start: nat): nat { Min(start + chunkSize, len) }

  function NextStart(len: nat, chunkSize: nat, overlap: nat, start: nat): nat {
    Less(EndOf(len, chunkSize, start), overlap)
  }

  function StartAfter(len: nat, chunkSize: nat, overlap: nat, k: nat): nat {
    if k == 0 then 0 else NextStart(len, chunkSize, overlap, StartAfter(len, chunkSize, overlap, k - 1))
  }

  ghost predicate LoopEnds(len: nat, chunkSize: nat, overlap: nat) {
    exists k: nat :: EndOf(len, chunkSize, StartAfter(len, chunkSize, overlap, k)) == len
  }

  /** The window loop of a long paragraph ends exactly when the overlap is smaller than the chunk. */
  lemma WindowLoopEnds(len: nat, chunkSize: nat, overlap: nat)
    requires len > chunkSize
    ensures LoopEnds(len, chunkSize, overlap) <==> overlap < chunkSize
  {
    if overlap < chunkSize {
      StartGrows(len, chunkSize, overlap, len);
    } else {
      forall k: nat ensures StartAfter(len, chunkSize, overlap, k) == 0 {
        StartStays(len, chunkSize, overlap, k);
      }
    }
  }

  lemma {:induction false} StartStays(len: nat, chunkSize: nat, overlap: nat, k: nat)
    requires len > chunkSize && overlap >= chunkSize
    ensures StartAfter(len, chunkSize, overlap, k) == 0
  {
    if k > 0 {
      StartStays(len, chunkSize, overlap, k - 1);
    }
  }

  lemma {:induction false} StartGrows(len: nat, chunkSize: nat, overlap: nat, k: nat)
    requires overlap < chunkSize < len
    ensures StartAfter(len, chunkSize, overlap, k) >= k || LoopEnds(len, chunkSize, overlap)
  {
    if k > 0 {
      StartGrows(len, chunkSize, overlap, k - 1);
      assert EndOf(len, chunkSize, StartAfter(len, chunkSize, overlap, k - 1)) == len ==> LoopEnds(len, chunkSize, overlap);
    }
    assert EndOf(len, chunkSize, StartAfter(len, chunkSize, overlap, k)) == len ==> LoopEnds(len, chunkSize, overlap);
  }

  function Windows(len: nat, chunkSize: nat, overlap: nat, start: nat): (r: seq<Window>)
    requires overlap < chunkSize && start < len
    ensures r != []
    decreases len - start
  {
    var end := EndOf(len, chunkSize, start);
    [Window(start, end)] + if end == len then [] else Windows(len, chunkSize, overlap, end - overlap)
  }

  /** A full window, and the next one starting `overlap` before its end and reaching further. */
  predicate Linked(v: Window, w: Window, chunkSize: nat, overlap: nat) {
    v.end == v.start + chunkSize && v.end >= overlap && w.start == v.end - overlap && w.end > v.end
  }

  /** The windows cover the paragraph without a gap, and each overlaps the next by exactly `overlap`. */
  lemma {:induction false} WindowsCover(len: nat, chunkSize: nat, overlap: nat, start: nat)
    requires overlap < chunkSize && start < len
    ensures var ws := Windows(len, chunkSize, overlap, start);
            && ws[0].start == start && ws[|ws| - 1].end == len
            && (forall i :: 0 <= i < |ws| ==> ws[i].start < ws[i].end <= len && ws[i].end - ws[i].start <= chunkSize)
            && (forall i, j :: 0 <= i && j == i + 1 < |ws| ==> Linked(ws[i], ws[j], chunkSize, overlap))
    decreases len - start
  {
    var end := EndOf(len, chunkSize, start);
    if end < len {
      WindowsCover(len, chunkSize, overlap, end - overlap);
      var ws, rest := Windows(len, chunkSize, overlap, start), Windows(len, chunkSize, overlap, end - overlap);
      assert ws == [Window(start, end)] + rest && rest[0].end > end;
      forall i | 0 <= i < |ws|
        ensures ws[i].start < ws[i].end <= len && ws[i].end - ws[i].start <= chunkSize
      {
        assert i > 0 ==> ws[i] == rest[i - 1];
      }
      forall i, j | 0 <= i && j == i + 1 < |ws| ensures Linked(ws[i], ws[j], chunkSize, overlap) {
        assert ws[j] == rest[i] && (i > 0 ==> ws[i] == rest[i - 1]);
      }
    }
  }

  predicate Inside(ws: seq<Window>, len: nat) {
    forall i :: 0 <= i < |ws| ==> ws[i].start <= ws[i].end <= len
  }

  /** The windows' texts, each but the first without its first `overlap` characters. */
  function Unlapped(para: string, ws: seq<Window>, overlap: nat): string
    requires Inside(ws, |para|)
  {
    if ws == [] then ""
    else
      var w := ws[|ws| - 1];
      if |ws| == 1 then para[w.start..w.end]
      else Unlapped(para, ws[..|ws| - 1], overlap) + para[Min(w.start + overlap, w.end)..w.end]
  }

  /** Dropping the overlaps rebuilds the paragraph. */
  lemma DroppingOverlapsRebuilds(para: string, chunkSize: nat, overlap: nat)
    requires overlap < chunkSize && para != ""
    ensures var ws := Windows(|para|, chunkSize, overlap, 0);
            Inside(ws, |para|) && Unlapped(para, ws, overlap) == para
  {
    WindowsCover(|para|, chunkSize, overlap, 0);
    var ws := Windows(|para|, chunkSize, overlap, 0);
    UnlappedIsPrefix(para, ws, chunkSize, overlap);
    assert ws[..|ws|] == ws && para[..|para|] == para;
  }

  lemma {:induction false} UnlappedIsPrefix(para: string, ws: seq<Window>, chunkSize: nat, overlap: nat)
    requires ws != [] && Inside(ws, |para|) && ws[0].start == 0
    requires forall i, j :: 0 <= i && j == i + 1 < |ws| ==> Linked(ws[i], ws[j], chunkSize, overlap)
    ensures Unlapped(para, ws, overlap) == para[..ws[|ws| - 1].end]
  {
    if |ws| > 1 {
      var front, w := ws[..|ws| - 1], ws[|ws| - 1];
      UnlappedIsPrefix(para, front, chunkSize, overlap);
      assert Linked(ws[|ws| - 2], ws[|ws| - 1], chunkSize, overlap);
      var end := front[|front| - 1].end;
      assert para[..w.end] == para[..end] + para[end..w.end];
    }
  }

  // ----- Chunks -----

  /** A window's chunk; once there is a chunk before it, the text just before it is bridged in. */
  function Piece(para: string, start: nat, end: nat, overlap: nat, bridged: bool): string
    requires start <= end <= |para|
  {
    if bridged && overlap > 0 then para[Less(start, overlap)..start] + "..." + para[start..end] else para[start..end]
  }

  function Pieces(para: string, chunkSize: nat, overlap: nat, start: nat, bridged: bool): (r: seq<string>)
    requires overlap < chunkSize && start < |para|
    decreases |para| - start
  {
    var end := EndOf(|para|, chunkSize, start);
    [Piece(para, start, end, overlap, bridged)]
    + if end == |para| then [] else Pieces(para, chunkSize, overlap, end - overlap, true)
  }

  /** The chunks of a long paragraph are its windows, each carrying its whole text. */
  lemma {:induction false} PiecesAreWindows(para: string, chunkSize: nat, overlap: nat, start: nat, bridged: bool)
    requires overlap < chunkSize && start < |para|
    ensures var ws, ps := Windows(|para|, chunkSize, overlap, start), Pieces(para, chunkSize, overlap, start, bridged);
            && |ps| == |ws| && Inside(ws, |para|)
            && forall i :: 0 <= i < |ps| ==> ps[i] == Piece(para, ws[i].start, ws[i].end, overlap, bridged || i > 0)
    decreases |para| - start
  {
    var end := EndOf(|para|, chunkSize, start);
    if end < |para| {
      PiecesAreWindows(para, chunkSize, overlap, end - overlap, true);
    }
  }

  datatype Progress = Progress(chunks: seq<string>, current: string)

  /** The overlap has to be smaller than the chunk, unless no paragraph is cut. */
  predicate Cuttable(paras: seq<string>, chunkSize: nat, overlap: nat) {
    overlap < chunkSize || forall i :: 0 <= i < |paras| ==> |paras[i]| <= chunkSize
  }

  /** Adds a long paragraph: what is pending is flushed, then come the windows. */
  function AddLong(s: Progress, para: string, chunkSize: nat, overlap: nat): Progress
    requires overlap < chunkSize < |para|
  {
    var flushed := if s.current != "" then s.chunks + [s.current] else s.chunks;
    Progress(flushed + Pieces(para, chunkSize, overlap, 0, flushed != []), "")
  }

  predicate Overflows(s: Progress, para: string, chunkSize: nat) {
    s.current != "" && |s.current| + |para| + 2 > chunkSize
  }

  /** What stays pending when a chunk is flushed: its last `overlap` characters, if it is longer. */
  function Tail(current: string, overlap: nat): string {
    if 0 < overlap < |current| then current[|current| - overlap..] else ""
  }

  function AddShort(s: Progress, para: string, chunkSize: nat, overlap: nat): Progress {
    var flushes := Overflows(s, para, chunkSize);
    var pending := if flushes then Tail(s.current, overlap) else s.current;
    Progress(if flushes then s.chunks + [s.current] else s.chunks,
             if pending != "" then pending + BREAK + para else para)
  }

  function Add(s: Progress, para: string, chunkSize: nat, overlap: nat): Progress
    requires overlap < chunkSize || |para| <= chunkSize
  {
    if para == "" then s
    else if |para| > chunkSize then AddLong(s, para, chunkSize, overlap)
    else AddShort(s, para, chunkSize, overlap)
  }

  function AddAll(paras: seq<string>, chunkSize: nat, overlap: nat): Progress
    requires Cuttable(paras, chunkSize, overlap)
  {
    if paras == [] then Progress([], "")
    else Add(AddAll(paras[..|paras| - 1], chunkSize, overlap), paras[|paras| - 1], chunkSize, overlap)
  }

  function Finished(s: Progress): seq<string> {
    if s.current != "" then s.chunks + [s.current] else s.chunks
  }

  function ChunksOf(text: string, chunkSize: nat, overlap: nat): seq<string>
    requires Cuttable(Paragraphs(text), chunkSize, overlap)
  {
    if text == "" then []
    else
      var chunks := Finished(AddAll(Paragraphs(text), chunkSize, overlap));
      if chunks == [] then [text] else chunks
  }

  method CutLong(para: string, chunkSize: nat, overlap: nat, chunks0: seq<string>) returns (chunks: seq<string>)
    requires overlap < chunkSize < |para|
    ensures chunks == chunks0 + Pieces(para, chunkSize, overlap, 0, chunks0 != [])
  {
    chunks := chunks0;
    var start := 0;
    while start < |para|
      invariant start < |para|
      invariant chunks + Pieces(para, chunkSize, overlap, start, chunks != [])
             == chunks0 + Pieces(para, chunkSize, overlap, 0, chunks0 != [])
      decreases |para| - start
    {
      ghost var before := chunks;
      var end := Min(start + chunkSize, |para|);
      var piece := para[start..end];
      if chunks != [] && overlap > 0 {
        var prevEnd := Less(start, overlap);
        piece := para[prevEnd..start] + "..." + piece;
      }
      chunks := chunks + [piece];
      assert piece == Piece(para, start, end, overlap, before != []);
      if end == |para| {
        assert chunks == before + Pieces(para, chunkSize, overlap, start, before != []);
        break;
      }
      start := Less(end, overlap);
      Associative(before, [piece], Pieces(para, chunkSize, overlap, start, true));
    }
  }

  method MergeShort(trimmed: string, chunkSize: nat, overlap: nat, chunks0: seq<string>, current0: string)
    returns (chunks: seq<string>, current: string)
    ensures Progress(chunks, current) == AddShort(Progress(chunks0, current0), trimmed, chunkSize, overlap)
  {
    chunks, current := chunks0, current0;
    if current != "" && |current| + |trimmed| + 2 > chunkSize {
      chunks := chunks + [current];
      if overlap > 0 && overlap < |current| {
        current := current[|current| - overlap..];
      } else {
        current := "";
      }
    }
    if current != "" {
      current := current + BREAK + trimmed;
    } else {
      current := trimmed;
    }
  }

  lemma AddAllStep(paras: seq<string>, k: nat, chunkSize: nat, overlap: nat)
    requires k < |paras| && Cuttable(paras, chunkSize, overlap)
    ensures Cuttable(paras[..k], chunkSize, overlap) && Cuttable(paras[..k + 1], chunkSize, overlap)
    ensures AddAll(paras[..k + 1], chunkSize, overlap)
         == Add(AddAll(paras[..k], chunkSize, overlap), paras[k], chunkSize, overlap)
  {
    assert paras[..k + 1][..k] == paras[..k];
  }

  method Chunk(text: string, chunkSize: nat, overlap: nat) returns (chunks: seq<string>)
    requires Cuttable(Paragraphs(text), chunkSize, overlap)
    ensures chunks == ChunksOf(text, chunkSize, overlap)
  {
    if text == "" {
      return [];
    }
    var parts := Split(text);
    ghost var paras := Paragraphs(text);
    chunks := [];
    var current := "";
    for k := 0 to |parts|
      invariant Cuttable(paras[..k], chunkSize, overlap)
      invariant Progress(chunks, current) == AddAll(paras[..k], chunkSize, overlap)
    {
      AddAllStep(paras, k, chunkSize, overlap);
      var trimmed := Trim(parts[k]);
      if trimmed == "" {
        continue;
      }
      if |trimmed| > chunkSize {
        if current != "" {
          chunks := chunks + [current];
          current := "";
        }
        chunks := CutLong(trimmed, chunkSize, overlap, chunks);
        continue;
      }
      chunks, current := MergeShort(trimmed, chunkSize, overlap, chunks, current);
    }
    assert paras[..|parts|] == paras;
    if current != "" {
      chunks := chunks + [current];
    }
    if chunks == [] {
      chunks := chunks + [text];
    }
  }

  // ----- What the chunks are -----

  /** Each chunk is at most this long. */
  predicate Bounded(s: Progress, chunkSize: nat, overlap: nat) {
    && (forall i :: 0 <= i < |s.chunks| ==> |s.chunks[i]| <= chunkSize + overlap + 3)
    && |s.current| <= chunkSize + overlap + 2
  }

  lemma {:induction false} PiecesAreBounded(para: string, chunkSize: nat, overlap: nat, start: nat, bridged: bool)
    requires overlap < chunkSize && start < |para|
    ensures forall i :: 0 <= i < |Pieces(para, chunkSize, overlap, start, bridged)| ==>
      |Pieces(para, chunkSize, overlap, start, bridged)[i]| <= chunkSize + overlap + 3
    decreases |para| - start
  {
    var end := EndOf(|para|, chunkSize, start);
    if end < |para| {
      PiecesAreBounded(para, chunkSize, overlap, end - overlap, true);
    }
  }

  lemma {:induction false} AllBounded(paras: seq<string>, chunkSize: nat, overlap: nat)
    requires Cuttable(paras, chunkSize, overlap)
    ensures Bounded(AddAll(paras, chunkSize, overlap), chunkSize, overlap)
  {
    if paras != [] {
      var front, para := paras[..|paras| - 1], paras[|paras| - 1];
      AllBounded(front, chunkSize, overlap);
      if |para| > chunkSize {
        var s := AddAll(front, chunkSize, overlap);
        PiecesAreBounded(para, chunkSize, overlap, 0, s.chunks != [] || s.current != "");
      }
    }
  }

  /** Unless the text is all blank, no chunk is longer than chunk_size + overlap + 3. */
  lemma ChunksAreBounded(text: string, chunkSize: nat, overlap: nat)
    requires Cuttable(Paragraphs(text), chunkSize, overlap)
    requires exists i :: 0 <= i < |Paragraphs(text)| && Paragraphs(text)[i] != ""
    ensures forall c :: c in ChunksOf(text, chunkSize, overlap) ==> |c| <= chunkSize + overlap + 3
  {
    var paras := Paragraphs(text);
    var i :| 0 <= i < |paras| && paras[i] != "";
    AllBounded(paras, chunkSize, overlap);
    SomethingAdded(paras, chunkSize, overlap, i);
    FinishedBounded(AddAll(paras, chunkSize, overlap), chunkSize, overlap);
  }

  lemma FinishedBounded(s: Progress, chunkSize: nat, overlap: nat)
    requires Bounded(s, chunkSize, overlap)
    ensures forall c :: c in Finished(s) ==> |c| <= chunkSize + overlap + 3
  {
  }

  lemma {:induction false} SomethingAdded(paras: seq<string>, chunkSize: nat, overlap: nat, i: nat)
    requires Cuttable(paras, chunkSize, overlap) && i < |paras| && paras[i] != ""
    ensures Finished(AddAll(paras, chunkSize, overlap)) != []
  {
    var front := paras[..|paras| - 1];
    if i < |front| {
      SomethingAdded(front, chunkSize, overlap, i);
    }
  }

  predicate OccursAt(part: string, s: string, i: int) {
    0 <= i <= |s| - |part| && s[i..i + |part|] == part
  }

  /** `part` occurs in `s`. */
  predicate Occurs(part: string, s: string) {
    exists i :: 0 <= i <= |s| && OccursAt(part, s, i)
  }

  predicate OccursIn(part: string, s: Progress) {
    Occurs(part, s.current) || exists i :: 0 <= i < |s.chunks| && Occurs(part, s.chunks[i])
  }

  lemma OccursInLonger(part: string, s: string, before: string, after: string)
    requires Occurs(part, s)
    ensures Occurs(part, before + s + after)
  {
    var i :| 0 <= i <= |s| && OccursAt(part, s, i);
    var longer := before + s + after;
    assert longer[|before| + i..|before| + i + |part|] == s[i..i + |part|];
    assert OccursAt(part, longer, |before| + i);
  }

  /** What occurs so far goes on occurring. */
  lemma AddingKeeps(s: Progress, para: string, chunkSize: nat, overlap: nat, part: string)
    requires (overlap < chunkSize || |para| <= chunkSize) && part != "" && OccursIn(part, s)
    ensures OccursIn(part, Add(s, para, chunkSize, overlap))
  {
    var t := Add(s, para, chunkSize, overlap);
    if Occurs(part, s.current) {
      if t.chunks == s.chunks && t != s {
        OccursInLonger(part, s.current, "", BREAK + para);
        assert t.current == "" + s.current + (BREAK + para);
      } else if t != s {
        assert t.chunks[|s.chunks|] == s.current;
      }
    } else {
      var i :| 0 <= i < |s.chunks| && Occurs(part, s.chunks[i]);
      assert t.chunks[i] == s.chunks[i];
    }
  }

  lemma AddingShort(s: Progress, para: string, chunkSize: nat, overlap: nat)
    requires 0 < |para| <= chunkSize
    ensures Occurs(para, Add(s, para, chunkSize, overlap).current)
  {
    var t := Add(s, para, chunkSize, overlap);
    var before := t.current[..|t.current| - |para|];
    assert para[0..|para|] == para && OccursAt(para, para, 0);
    OccursInLonger(para, para, before, "");
    assert t.current == before + para + "";
  }

  lemma {:induction false} ShortOccurs(paras: seq<string>, chunkSize: nat, overlap: nat, i: nat)
    requires Cuttable(paras, chunkSize, overlap) && i < |paras| && 0 < |paras[i]| <= chunkSize
    ensures OccursIn(paras[i], AddAll(paras, chunkSize, overlap))
  {
    var front, para := paras[..|paras| - 1], paras[|paras| - 1];
    if i < |front| {
      ShortOccurs(front, chunkSize, overlap, i);
      AddingKeeps(AddAll(front, chunkSize, overlap), para, chunkSize, overlap, paras[i]);
    } else {
      AddingShort(AddAll(front, chunkSize, overlap), para, chunkSize, overlap);
    }
  }

  /** Every paragraph that is not cut occurs whole in some chunk. */
  lemma ShortParagraphsAreWhole(text: string, chunkSize: nat, overlap: nat, i: nat)
    requires Cuttable(Paragraphs(text), chunkSize, overlap)
    requires i < |Paragraphs(text)| && 0 < |Paragraphs(text)[i]| <= chunkSize
    ensures exists c :: c in ChunksOf(text, chunkSize, overlap) && Occurs(Paragraphs(text)[i], c)
  {
    var s := AddAll(Paragraphs(text), chunkSize, overlap);
    ShortOccurs(Paragraphs(text), chunkSize, overlap, i);
    SomethingAdded(Paragraphs(text), chunkSize, overlap, i);
    assert text == "" ==> Paragraphs(text) == [""];
    if Occurs(Paragraphs(text)[i], s.current) {
      assert Finished(s)[|s.chunks|] == s.current;
    } else {
      var k :| 0 <= k < |s.chunks| && Occurs(Paragraphs(text)[i], s.chunks[k]);
      assert Finished(s)[k] == s.chunks[k];
    }
  }

  // ----- Merging is greedy -----

  /** `groups` are consecutive, non-empty groups of the non-blank paragraphs. */
  predicate Groups(paras: seq<string>, groups: seq<seq<string>>) {
    Flatten(groups) == Filter(paras, NonBlank()) && forall i :: 0 <= i < |groups| ==> groups[i] != []
  }

  function RejoinAll(groups: seq<seq<string>>): (r: seq<string>)
    ensures |r| == |groups| && forall i :: 0 <= i < |r| ==> r[i] == Join(groups[i], BREAK)
  {
    seq(|groups|, i requires 0 <= i < |groups| => Join(groups[i], BREAK))
  }

  /** Group `i` is full: the first paragraph of the next one would not have fitted. */
  predicate Full(groups: seq<seq<string>>, i: nat, chunkSize: nat)
    requires i + 1 < |groups|
  {
    groups[i + 1] != [] && |Join(groups[i], BREAK)| + |groups[i + 1][0]| + 2 > chunkSize
  }

  predicate Greedy(groups: seq<seq<string>>, chunkSize: nat) {
    && (forall i :: 0 <= i < |groups| ==> 0 < |Join(groups[i], BREAK)| <= chunkSize)
    && (forall i :: 0 <= i < |groups| - 1 ==> Full(groups, i, chunkSize))
  }

  /** One more paragraph joins the last group. */
  function LastGrown(groups: seq<seq<string>>, para: string): (more: seq<seq<string>>)
    requires groups != []
    ensures |more| == |groups|
  {
    groups[..|groups| - 1] + [groups[|groups| - 1] + [para]]
  }

  lemma GrownIsGroups(paras: seq<string>, groups: seq<seq<string>>, para: string)
    requires Groups(paras, groups) && groups != [] && para != ""
    ensures Groups(paras + [para], LastGrown(groups, para))
  {
    var front, last := groups[..|groups| - 1], groups[|groups| - 1];
    FilterAppend(paras, para, NonBlank());
    assert LastGrown(groups, para)[..|front|] == front;
    Associative(Flatten(front), last, [para]);
  }

  lemma GrownIsGreedy(groups: seq<seq<string>>, para: string, chunkSize: nat)
    requires Greedy(groups, chunkSize) && groups != [] && groups[|groups| - 1] != []
    requires |Join(groups[|groups| - 1], BREAK)| + |para| + 2 <= chunkSize
    ensures Greedy(LastGrown(groups, para), chunkSize)
    ensures Join(LastGrown(groups, para)[|groups| - 1], BREAK) == Join(groups[|groups| - 1], BREAK) + BREAK + para
  {
    var more := LastGrown(groups, para);
    JoinAppend(groups[|groups| - 1], para, BREAK);
    forall i | 0 <= i < |more| ensures 0 < |Join(more[i], BREAK)| <= chunkSize {
      assert i < |groups| - 1 ==> more[i] == groups[i];
    }
    forall i | 0 <= i < |more| - 1 ensures Full(more, i, chunkSize) {
      assert Full(groups, i, chunkSize) && more[i] == groups[i];
      assert more[i + 1][0] == groups[i + 1][0];
    }
  }

  /** One more paragraph starts a group. */
  lemma StartedIsGroups(paras: seq<string>, groups: seq<seq<string>>, para: string)
    requires Groups(paras, groups) && para != ""
    ensures Groups(paras + [para], groups + [[para]])
  {
    FilterAppend(paras, para, NonBlank());
    assert (groups + [[para]])[..|groups|] == groups;
  }

  lemma StartedIsGreedy(groups: seq<seq<string>>, para: string, chunkSize: nat)
    requires Greedy(groups, chunkSize) && 0 < |para| <= chunkSize
    requires groups != [] ==> |Join(groups[|groups| - 1], BREAK)| + |para| + 2 > chunkSize
    ensures Greedy(groups + [[para]], chunkSize)
  {
    var more := groups + [[para]];
    forall i | 0 <= i < |more| ensures 0 < |Join(more[i], BREAK)| <= chunkSize {
      assert i < |groups| ==> more[i] == groups[i];
    }
    forall i | 0 <= i < |more| - 1 ensures Full(more, i, chunkSize) {
      if i < |groups| - 1 {
        assert Full(groups, i, chunkSize) && more[i] == groups[i] && more[i + 1] == groups[i + 1];
      }
    }
  }

  /** The merging so far: full groups as chunks, the last one pending. */
  predicate Merged(s: Progress, groups: seq<seq<string>>) {
    if groups == [] then s == Progress([], "")
    else s.chunks == RejoinAll(groups[..|groups| - 1]) && s.current == Join(groups[|groups| - 1], BREAK)
  }

  lemma AddingToGroup(s: Progress, groups: seq<seq<string>>, para: string, chunkSize: nat)
    requires Merged(s, groups) && Greedy(groups, chunkSize) && groups != [] && groups[|groups| - 1] != []
    requires 0 < |para| <= chunkSize && |s.current| + |para| + 2 <= chunkSize
    ensures Merged(Add(s, para, chunkSize, 0), LastGrown(groups, para))
  {
    JoinAppend(groups[|groups| - 1], para, BREAK);
    assert LastGrown(groups, para)[..|groups| - 1] == groups[..|groups| - 1];
  }

  lemma AddingStartsGroup(s: Progress, groups: seq<seq<string>>, para: string, chunkSize: nat)
    requires Merged(s, groups) && Greedy(groups, chunkSize) && 0 < |para| <= chunkSize
    requires groups != [] ==> |s.current| + |para| + 2 > chunkSize
    ensures Merged(Add(s, para, chunkSize, 0), groups + [[para]])
  {
    var more := groups + [[para]];
    assert more[..|more| - 1] == groups && more[|more| - 1] == [para];
    if groups != [] {
      assert groups == groups[..|groups| - 1] + [groups[|groups| - 1]];
      assert RejoinAll(groups) == RejoinAll(groups[..|groups| - 1]) + [Join(groups[|groups| - 1], BREAK)];
    }
  }

  lemma {:induction false} GreedyProgress(paras: seq<string>, chunkSize: nat) returns (groups: seq<seq<string>>)
    requires forall i :: 0 <= i < |paras| ==> |paras[i]| <= chunkSize
    ensures Groups(paras, groups) && Greedy(groups, chunkSize) && Merged(AddAll(paras, chunkSize, 0), groups)
  {
    groups := [];
    if paras != [] {
      var front, para := paras[..|paras| - 1], paras[|paras| - 1];
      assert paras == front + [para];
      var before: seq<seq<string>> := GreedyProgress(front, chunkSize);
      var s := AddAll(front, chunkSize, 0);
      if para == "" {
        groups := before;
        FilterAppend(front, para, NonBlank());
      } else if before != [] && |s.current| + |para| + 2 <= chunkSize {
        groups := LastGrown(before, para);
        GrownIsGroups(front, before, para);
        GrownIsGreedy(before, para, chunkSize);
        AddingToGroup(s, before, para, chunkSize);
      } else {
        groups := before + [[para]];
        StartedIsGroups(front, before, para);
        StartedIsGreedy(before, para, chunkSize);
        AddingStartsGroup(s, before, para, chunkSize);
      }
    }
  }

  /**
   * Without overlap, short paragraphs are merged greedily: the chunks are the paragraphs in
   * order, grouped, each group within the chunk size and none able to take the next paragraph.
   */
  lemma MergingIsGreedy(text: string, chunkSize: nat) returns (groups: seq<seq<string>>)
    requires forall i :: 0 <= i < |Paragraphs(text)| ==> |Paragraphs(text)[i]| <= chunkSize
    requires exists i :: 0 <= i < |Paragraphs(text)| && Paragraphs(text)[i] != ""
    ensures Groups(Paragraphs(text), groups) && Greedy(groups, chunkSize)
    ensures ChunksOf(text, chunkSize, 0) == RejoinAll(groups)
  {
    groups := GreedyProgress(Paragraphs(text), chunkSize);
    var i :| 0 <= i < |Paragraphs(text)| && Paragraphs(text)[i] != "";
    SomethingAdded(Paragraphs(text), chunkSize, 0, i);
    assert text == "" ==> Paragraphs(text) == [""];
    AllGroupsFinish(AddAll(Paragraphs(text), chunkSize, 0), groups, chunkSize);
  }

  lemma AllGroupsFinish(s: Progress, groups: seq<seq<string>>, chunkSize: nat)
    requires Merged(s, groups) && Greedy(groups, chunkSize)
    ensures Finished(s) == RejoinAll(groups)
  {
    if groups != [] {
      assert groups == groups[..|groups| - 1] + [groups[|groups| - 1]];
    }
  }
}
