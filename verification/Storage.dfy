/**
 * The binary store: chunk files, `.writing` markers beside the files still being written,
 * and the recorded file sizes, under part-wise uploads, ranged reads, deletion and the
 * cleanup of stale uploads at start-up.
 */
module Storage {
  import opened Basics
  import opened Bytes
  import opened Text

  /** A file name in its shard directory. */
  datatype Path = Path(shard: string, name: string)

  type Files = map<Path, seq<Byte>>

  /** The files on disk and the sizes recorded in the asset table. */
  datatype Store = Store(files: Files, sizes: map<string, nat>)

  const WRITING := ".writing"

  function Shard(id: string): string {
    if |id| < 2 then id else id[..2]
  }

  function ChunkPath(id: string): Path {
    Path(Shard(id), id)
  }

  function WritingPath(id: string): Path {
    Path(Shard(id), id + WRITING)
  }

  const MARK: seq<Byte> := [49]

  datatype Failure = Conflict | NotFound | BadRequest | TooLarge | Internal

  datatype Status = Accepted(finalized: bool) | Refused(why: Failure)

  datatype Part = Part(offset: nat, body: seq<Byte>, finalize: Option<bool>)

  // ----- What each operation does -----

  function Zeros(n: nat): seq<Byte> {
    seq(n, i => 0)
  }

  /** Writing at an offset; past the end the gap would be filled with zeros. */
  function Overlay(content: seq<Byte>, offset: nat, body: seq<Byte>): seq<Byte> {
    if body == [] then content
    else
      (if offset <= |content| then content[..offset] else content + Zeros(offset - |content|))
      + body
      + if offset + |body| < |content| then content[offset + |body|..] else []
  }

  function Started(files: Files, id: string): Files {
    files[ChunkPath(id) := []][WritingPath(id) := MARK]
  }

  function Appended(files: Files, id: string, offset: nat, body: seq<Byte>): Files
    requires ChunkPath(id) in files
  {
    files[ChunkPath(id) := Overlay(files[ChunkPath(id)], offset, body)]
  }

  /** An empty body ends the upload; otherwise the flag decides, and without one offset zero does. */
  predicate ShouldFinalize(offset: nat, bodyEmpty: bool, explicit: Option<bool>) {
    bodyEmpty || if explicit.Some? then explicit.value else offset == 0
  }

  /** The files a part is written into, or why it is refused. */
  function Opened(files: Files, id: string, offset: nat): Result<Files, Failure> {
    if offset == 0 then
      if WritingPath(id) in files then Err(Conflict) else Ok(Started(files, id))
    else if WritingPath(id) !in files then Err(NotFound)
    else if ChunkPath(id) !in files || |files[ChunkPath(id)]| < offset then Err(BadRequest)
    else Ok(files)
  }

  /** One upload request. A refusal after the start leaves the started file behind. */
  function Handled(s: Store, id: string, p: Part, max: nat): (Store, Status) {
    var ready := Opened(s.files, id, p.offset);
    if ready.Err? then (s, Refused(ready.error))
    else if ChunkPath(id) !in ready.value then (s.(files := ready.value), Refused(Internal))
    else if p.offset + |p.body| > max then (s.(files := ready.value), Refused(TooLarge))
    else
      var written := Appended(ready.value, id, p.offset, p.body);
      if ShouldFinalize(p.offset, p.body == [], p.finalize) then
        (Store(written - {WritingPath(id)},
               if id in s.sizes then s.sizes[id := p.offset + |p.body|] else s.sizes), Accepted(true))
      else (s.(files := written), Accepted(false))
  }

  function Deleted(files: Files, id: string): Files {
    files - {ChunkPath(id), WritingPath(id)}
  }

  /** What a read of at most `maxLen` bytes returns: the bytes, and whether the end is reached for good. */
  function Window(content: seq<Byte>, writing: bool, offset: nat, maxLen: nat): (seq<Byte>, bool) {
    var from := Min(offset, |content|);
    var upTo := from + Min(maxLen, |content| - from);
    (content[from..upTo], !writing && upTo >= |content|)
  }

  // ----- Cleanup -----

  /** `trim_end_matches`: takes the suffix off as often as it is there. */
  function TrimAll(s: string): string
    decreases |s|
  {
    if EndsWith(s, WRITING) then TrimAll(s[..|s| - |WRITING|]) else s
  }

  predicate IsMarker(p: Path) {
    EndsWith(p.name, WRITING)
  }

  /** The file a marker belongs to. */
  function Target(p: Path): Path {
    Path(p.shard, TrimAll(p.name))
  }

  /** Cleanup removes every marker and the file it belongs to. */
  predicate Stale(files: Files, p: Path) {
    exists q :: q in files && IsMarker(q) && (p == q || p == Target(q))
  }

  function Cleaned(files: Files): Files {
    map p | p in files && !Stale(files, p) :: files[p]
  }

  // ----- The store -----

  class BinaryStore {
    var files: Files
    var sizes: map<string, nat>

    function State(): Store
      reads this
    {
      Store(files, sizes)
    }

    method StartWrite(id: string) returns (refused: Option<Failure>)
      modifies this`files
      ensures files == if WritingPath(id) in old(files) then old(files) else Started(old(files), id)
      ensures refused == if WritingPath(id) in old(files) then Some(Conflict) else None
    {
      if WritingPath(id) in files {
        return Some(Conflict);
      }
      files := files[ChunkPath(id) := []];
      files := files[WritingPath(id) := MARK];
      refused := None;
    }

    method ResumeWrite(id: string, offset: nat) returns (refused: Option<Failure>)
      ensures refused.None? <==>
        WritingPath(id) in files && ChunkPath(id) in files && offset <= |files[ChunkPath(id)]|
      ensures refused == Some(NotFound) <==> WritingPath(id) !in files
      ensures refused.Some? ==> refused.value.NotFound? || refused.value.BadRequest?
    {
      if WritingPath(id) !in files {
        return Some(NotFound);
      }
      if ChunkPath(id) !in files || |files[ChunkPath(id)]| < offset {
        return Some(BadRequest);
      }
      refused := None;
    }

    method Append(id: string, offset: nat, body: seq<Byte>, max: nat) returns (refused: Option<Failure>)
      modifies this`files
      ensures refused == if ChunkPath(id) !in old(files) then Some(Internal)
                         else if offset + |body| > max then Some(TooLarge) else None
      ensures refused.Some? ==> files == old(files)
      ensures refused.None? ==> files == Appended(old(files), id, offset, body)
    {
      if ChunkPath(id) !in files {
        return Some(Internal);
      }
      if offset + |body| > max {
        return Some(TooLarge);
      }
      files := files[ChunkPath(id) := Overlay(files[ChunkPath(id)], offset, body)];
      refused := None;
    }

    method Finalize(id: string)
      modifies this`files
      ensures files == old(files) - {WritingPath(id)}
    {
      files := files - {WritingPath(id)};
    }

    method Read(id: string, offset: nat, maxLen: nat) returns (r: Option<(seq<Byte>, nat, bool)>)
      ensures r.Some? <==> ChunkPath(id) in files
      ensures r.Some? ==>
        var content := files[ChunkPath(id)];
        var window := Window(content, WritingPath(id) in files, offset, maxLen);
        r.value == (window.0, |content|, window.1)
    {
      if ChunkPath(id) !in files {
        return None;
      }
      var fileSize := |files[ChunkPath(id)]|;
      var isWriting := WritingPath(id) in files;
      var actualOffset := Min(offset, fileSize);
      var toRead := Min(maxLen, fileSize - actualOffset);
      var endOfFile := actualOffset + toRead >= fileSize;
      r := Some((files[ChunkPath(id)][actualOffset..actualOffset + toRead], fileSize, !isWriting && endOfFile));
    }

    method Delete(id: string)
      modifies this`files
      ensures files == Deleted(old(files), id)
    {
      files := files - {ChunkPath(id)};
      files := files - {WritingPath(id)};
    }

    /** One pass over the directory entries, in whatever order they are listed. */
    method CleanupStaleWrites(listing: seq<Path>) returns (cleaned: seq<string>)
      requires forall p :: p in files <==> p in listing
      modifies this`files
      ensures files == Cleaned(old(files))
      ensures forall c :: c in cleaned <==> exists p :: p in old(files) && IsMarker(p) && c == TrimAll(p.name)
    {
      cleaned := [];
      for i := 0 to |listing|
        invariant files == CleanedUpTo(old(files), listing, i)
        invariant forall c :: c in cleaned <==> exists k :: 0 <= k < i && IsMarker(listing[k]) && c == TrimAll(listing[k].name)
      {
        var entry := listing[i];
        CleanedStep(old(files), listing, i);
        if EndsWith(entry.name, WRITING) {
          var chunkId := TrimAll(entry.name);
          files := files - {entry};
          files := files - {Path(entry.shard, chunkId)};
          cleaned := cleaned + [chunkId];
          assert files == CleanedUpTo(old(files), listing, i) - {entry, Target(entry)};
        }
      }
      CleanedAll(old(files), listing);
    }

    method WriteHandler(id: string, p: Part, max: nat) returns (status: Status)
      modifies this
      ensures (State(), status) == Handled(old(State()), id, p, max)
    {
      var isNew := p.offset == 0;
      if isNew {
        var refused := StartWrite(id);
        if refused.Some? {
          return Refused(refused.value);
        }
      } else {
        var refused := ResumeWrite(id, p.offset);
        if refused.Some? {
          return Refused(refused.value);
        }
      }
      var refused := Append(id, p.offset, p.body, max);
      if refused.Some? {
        return Refused(refused.value);
      }
      if ShouldFinalize(p.offset, p.body == [], p.finalize) {
        Finalize(id);
        if id in sizes {
          sizes := sizes[id := p.offset + |p.body|];
        }
        return Accepted(true);
      }
      status := Accepted(false);
    }
  }

  predicate StaleUpTo(listing: seq<Path>, i: nat, p: Path)
    requires i <= |listing|
  {
    exists k :: 0 <= k < i && IsMarker(listing[k]) && (p == listing[k] || p == Target(listing[k]))
  }

  function CleanedUpTo(files: Files, listing: seq<Path>, i: nat): Files
    requires i <= |listing|
  {
    map p | p in files && !StaleUpTo(listing, i, p) :: files[p]
  }

  lemma CleanedStep(files: Files, listing: seq<Path>, i: nat)
    requires i < |listing|
    ensures CleanedUpTo(files, listing, i + 1)
         == if IsMarker(listing[i]) then CleanedUpTo(files, listing, i) - {listing[i], Target(listing[i])}
            else CleanedUpTo(files, listing, i)
  {
    forall p ensures StaleUpTo(listing, i + 1, p)
      <==> StaleUpTo(listing, i, p) || (IsMarker(listing[i]) && (p == listing[i] || p == Target(listing[i])))
    {
    }
  }

  lemma CleanedAll(files: Files, listing: seq<Path>)
    requires forall p :: p in files <==> p in listing
    ensures CleanedUpTo(files, listing, |listing|) == Cleaned(files)
  {
    forall p ensures StaleUpTo(listing, |listing|, p) <==> Stale(files, p) {
      if Stale(files, p) {
        var q :| q in files && IsMarker(q) && (p == q || p == Target(q));
        var k :| 0 <= k < |listing| && listing[k] == q;
      }
    }
  }

  // ----- What every operation keeps -----

  /** An id that is not itself named like a marker. */
  predicate Plain(id: string) {
    !EndsWith(id, WRITING)
  }

  /** An id whose chunk file has the name and place of a shorter id's marker. */
  predicate LooksLikeMarker(id: string) {
    EndsWith(id, WRITING) && |id| >= |WRITING| + 2
  }

  /** Every file is a chunk or a marker beside its chunk, and no chunk exceeds the limit. */
  ghost predicate Tidy(files: Files, max: nat) {
    forall p :: p in files ==> TidyPath(files, p, max)
  }

  ghost predicate TidyPath(files: Files, p: Path, max: nat)
    requires p in files
  {
    exists id :: !LooksLikeMarker(id) &&
      ((p == ChunkPath(id) && |files[p]| <= max) || (p == WritingPath(id) && ChunkPath(id) in files))
  }

  /** The chunk of such an id is where the marker of `y` is, and no other chunk is at any marker. */
  lemma MarkerPlaces(id: string, y: string)
    ensures ChunkPath(id) == WritingPath(y) <==> LooksLikeMarker(id) && y == id[..|id| - |WRITING|]
  {
    assert (y + WRITING)[|y|..] == WRITING && (y + WRITING)[..|y|] == y;
    if LooksLikeMarker(id) && y == id[..|id| - |WRITING|] {
      assert id == y + WRITING && id[..2] == y[..2];
    }
  }

  lemma PathsApart(id: string, id': string)
    requires !LooksLikeMarker(id)
    ensures ChunkPath(id) != WritingPath(id')
    ensures WritingPath(id) == WritingPath(id') ==> id == id'
  {
    MarkerPlaces(id, id');
    assert (id + WRITING)[..|id|] == id && (id' + WRITING)[..|id'|] == id' && |id + WRITING| == |id| + |WRITING|;
  }

  ghost predicate MarkersHaveFiles(files: Files) {
    forall y :: WritingPath(y) in files ==> ChunkPath(y) in files
  }

  /** A write marker implies that its file exists. */
  lemma MarkerHasFile(files: Files, id: string, max: nat)
    requires Tidy(files, max) && WritingPath(id) in files
    ensures ChunkPath(id) in files
  {
    assert TidyPath(files, WritingPath(id), max);
    var id' :| !LooksLikeMarker(id') && ((WritingPath(id) == ChunkPath(id') && |files[WritingPath(id)]| <= max)
                                         || (WritingPath(id) == WritingPath(id') && ChunkPath(id') in files));
    PathsApart(id', id);
  }

  lemma OverlayLength(content: seq<Byte>, offset: nat, body: seq<Byte>, max: nat)
    requires offset <= |content| <= max && offset + |body| <= max
    ensures |Overlay(content, offset, body)| <= max
  {
  }

  lemma StartedIsTidy(files: Files, id: string, max: nat)
    requires Tidy(files, max) && !LooksLikeMarker(id)
    ensures Tidy(Started(files, id), max)
  {
    var files' := Started(files, id);
    PathsApart(id, id);
    forall p | p in files' ensures TidyPath(files', p, max) {
      if p != ChunkPath(id) && p != WritingPath(id) {
        OtherStaysTidy(files, files', p, id, max);
      }
    }
  }

  /** A path untouched by what happens to `id` stays tidy while `id`'s chunk is there. */
  lemma OtherStaysTidy(files: Files, files': Files, p: Path, id: string, max: nat)
    requires Tidy(files, max) && !LooksLikeMarker(id) && p in files && p in files' && files'[p] == files[p]
    requires p != WritingPath(id)
    requires forall q :: q in files && q != ChunkPath(id) && q != WritingPath(id) ==> q in files'
    ensures TidyPath(files', p, max)
  {
    assert TidyPath(files, p, max);
    var id' :| !LooksLikeMarker(id') && ((p == ChunkPath(id') && |files[p]| <= max) || (p == WritingPath(id') && ChunkPath(id') in files));
    PathsApart(id', id);
  }

  lemma AppendedIsTidy(files: Files, id: string, offset: nat, body: seq<Byte>, max: nat)
    requires Tidy(files, max) && !LooksLikeMarker(id) && ChunkPath(id) in files
    requires offset <= |files[ChunkPath(id)]| && offset + |body| <= max
    ensures Tidy(Appended(files, id, offset, body), max)
  {
    var files' := Appended(files, id, offset, body);
    ChunkIsBounded(files, id, max);
    OverlayLength(files[ChunkPath(id)], offset, body, max);
    forall p | p in files' ensures TidyPath(files', p, max) {
      if p != ChunkPath(id) {
        assert TidyPath(files, p, max);
      }
    }
  }

  lemma ChunkIsBounded(files: Files, id: string, max: nat)
    requires Tidy(files, max) && !LooksLikeMarker(id) && ChunkPath(id) in files
    ensures |files[ChunkPath(id)]| <= max
  {
    assert TidyPath(files, ChunkPath(id), max);
    var id' :| !LooksLikeMarker(id') && ((ChunkPath(id) == ChunkPath(id') && |files[ChunkPath(id)]| <= max)
                              || (ChunkPath(id) == WritingPath(id') && ChunkPath(id') in files));
    PathsApart(id, id');
  }

  lemma UnmarkedIsTidy(files: Files, id: string, max: nat)
    requires Tidy(files, max) && !LooksLikeMarker(id)
    ensures Tidy(files - {WritingPath(id)}, max)
  {
    var files' := files - {WritingPath(id)};
    forall p | p in files' ensures TidyPath(files', p, max) {
      assert TidyPath(files, p, max);
      var id' :| !LooksLikeMarker(id') && ((p == ChunkPath(id') && |files[p]| <= max) || (p == WritingPath(id') && ChunkPath(id') in files));
      PathsApart(id', id);
    }
  }

  /** Every upload request keeps the store tidy, accepted or not. */
  lemma HandledIsTidy(s: Store, id: string, p: Part, max: nat)
    requires Tidy(s.files, max) && !LooksLikeMarker(id)
    ensures Tidy(Handled(s, id, p, max).0.files, max)
  {
    var ready := Opened(s.files, id, p.offset);
    if ready.Ok? {
      if p.offset == 0 {
        StartedIsTidy(s.files, id, max);
        PathsApart(id, id);
      }
      if p.offset + |p.body| <= max {
        AppendedIsTidy(ready.value, id, p.offset, p.body, max);
        UnmarkedIsTidy(Appended(ready.value, id, p.offset, p.body), id, max);
      }
    }
  }

  lemma DeletedIsTidy(files: Files, id: string, max: nat)
    requires Tidy(files, max) && !LooksLikeMarker(id)
    ensures Tidy(Deleted(files, id), max)
  {
    var files' := Deleted(files, id);
    forall p | p in files' ensures TidyPath(files', p, max) {
      assert TidyPath(files, p, max);
      var id' :| !LooksLikeMarker(id') && ((p == ChunkPath(id') && |files[p]| <= max) || (p == WritingPath(id') && ChunkPath(id') in files));
      PathsApart(id', id);
    }
  }

  lemma TrimOnce(id: string)
    requires Plain(id)
    ensures TrimAll(id + WRITING) == id && EndsWith(id + WRITING, WRITING)
    ensures Target(WritingPath(id)) == ChunkPath(id) && IsMarker(WritingPath(id)) && !IsMarker(ChunkPath(id))
  {
    assert (id + WRITING)[|id|..] == WRITING && (id + WRITING)[..|id|] == id;
  }

  /** In a tidy store cleanup leaves exactly the finished chunks. */
  lemma CleanupKeepsFinished(files: Files, id: string, max: nat)
    requires Tidy(files, max) && Plain(id)
    ensures WritingPath(id) !in Cleaned(files)
    ensures ChunkPath(id) in Cleaned(files) <==> ChunkPath(id) in files && WritingPath(id) !in files
    ensures ChunkPath(id) in Cleaned(files) ==> Cleaned(files)[ChunkPath(id)] == files[ChunkPath(id)]
  {
    TrimOnce(id);
    if WritingPath(id) in files {
      assert Stale(files, ChunkPath(id)) && Stale(files, WritingPath(id));
    }
    if Stale(files, ChunkPath(id)) {
      var q :| q in files && IsMarker(q) && (ChunkPath(id) == q || ChunkPath(id) == Target(q));
      assert TidyPath(files, q, max);
      var id' :| !LooksLikeMarker(id') && ((q == ChunkPath(id') && |files[q]| <= max) || (q == WritingPath(id') && ChunkPath(id') in files));
      OnlyItsMarker(id, id', q);
    }
  }

  /** In a tidy store no other marker, and no chunk named like one, belongs to the chunk of `id`. */
  lemma OnlyItsMarker(id: string, id': string, q: Path)
    requires Plain(id) && !LooksLikeMarker(id') && IsMarker(q) && Target(q) == ChunkPath(id)
    requires q == ChunkPath(id') || q == WritingPath(id')
    ensures q == WritingPath(id)
  {
    if Plain(id') {
      TrimOnce(id');
    } else {
      ShortNameTarget(id', q);
    }
  }

  /** A name like a marker's that is too short to be one belongs to no chunk. */
  lemma ShortNameTarget(id: string, q: Path)
    requires !Plain(id) && !LooksLikeMarker(id) && (q == ChunkPath(id) || q == WritingPath(id))
    ensures |Target(q).name| < 2 == |Target(q).shard|
  {
    var y := id[..|id| - |WRITING|];
    assert id == y + WRITING && TrimAll(id) == y;
    if q == WritingPath(id) {
      assert (id + WRITING)[|id|..] == WRITING && (id + WRITING)[..|id|] == id;
    }
  }

  lemma MarkersAreStale(files: Files, id: string)
    requires WritingPath(id) in files
    ensures Stale(files, WritingPath(id))
  {
    assert (id + WRITING)[|id|..] == WRITING;
    assert IsMarker(WritingPath(id));
  }

  lemma CleanedIsTidy(files: Files, max: nat)
    requires Tidy(files, max)
    ensures Tidy(Cleaned(files), max)
  {
    forall p | p in Cleaned(files) ensures TidyPath(Cleaned(files), p, max) {
      assert TidyPath(files, p, max);
      var id :| !LooksLikeMarker(id) && ((p == ChunkPath(id) && |files[p]| <= max) || (p == WritingPath(id) && ChunkPath(id) in files));
      if WritingPath(id) in files {
        MarkersAreStale(files, id);
      }
    }
  }

  datatype Request = Upload(id: string, part: Part) | Remove(id: string) | Clean

  function Served(s: Store, r: Request, max: nat): Store {
    match r
    case Upload(id, part) => Handled(s, id, part, max).0
    case Remove(id) => Store(Deleted(s.files, id), s.sizes - {id})
    case Clean => s.(files := Cleaned(s.files))
  }

  function ServedAll(s: Store, requests: seq<Request>, max: nat): Store {
    if requests == [] then s
    else Served(ServedAll(s, requests[..|requests| - 1], max), requests[|requests| - 1], max)
  }

  /** Every request is about one of `ids`. */
  predicate Uses(requests: seq<Request>, ids: set<string>) {
    forall i :: 0 <= i < |requests| ==> requests[i].Clean? || requests[i].id in ids
  }

  /**
   * Over every run of uploads, deletions and cleanups, of ids that do not look like
   * markers: no chunk exceeds the limit and every marker has its file.
   */
  lemma {:induction false} AlwaysTidy(s: Store, requests: seq<Request>, ids: set<string>, max: nat)
    requires Tidy(s.files, max) && Uses(requests, ids) && forall id :: id in ids ==> !LooksLikeMarker(id)
    ensures Tidy(ServedAll(s, requests, max).files, max)
  {
    if requests != [] {
      var before, r := ServedAll(s, requests[..|requests| - 1], max), requests[|requests| - 1];
      AlwaysTidy(s, requests[..|requests| - 1], ids, max);
      if r.Upload? {
        HandledIsTidy(before, r.id, r.part, max);
      } else if r.Remove? {
        DeletedIsTidy(before.files, r.id, max);
      } else {
        CleanedIsTidy(before.files, max);
      }
    }
  }

  const EMPTY := Store(map[], map[])

  /** One accepted upload of such an id leaves a marker for a shorter id that has no file. */
  lemma LookalikeLeavesMarker(id: string, body: seq<Byte>, max: nat)
    requires LooksLikeMarker(id) && |body| <= max
    ensures var y := id[..|id| - |WRITING|];
            var (after, status) := Handled(EMPTY, id, Part(0, body, None), max);
            status == Accepted(true) && WritingPath(y) in after.files && ChunkPath(y) !in after.files
  {
    var y := id[..|id| - |WRITING|];
    MarkerPlaces(id, y);
    assert |id + WRITING| == |id| + |WRITING|;
  }

  /**
   * Every marker has its file over all runs on `ids` exactly when none of them looks like
   * a marker. The server accepts them all.
   */
  lemma OnlyLookalikesOrphanMarkers(ids: set<string>, max: nat)
    ensures (forall requests :: Uses(requests, ids) ==> MarkersHaveFiles(ServedAll(EMPTY, requests, max).files))
       <==> (forall id :: id in ids ==> !LooksLikeMarker(id))
  {
    if forall id :: id in ids ==> !LooksLikeMarker(id) {
      forall requests | Uses(requests, ids) ensures MarkersHaveFiles(ServedAll(EMPTY, requests, max).files) {
        AlwaysTidy(EMPTY, requests, ids, max);
        forall y | WritingPath(y) in ServedAll(EMPTY, requests, max).files ensures ChunkPath(y) in ServedAll(EMPTY, requests, max).files {
          MarkerHasFile(ServedAll(EMPTY, requests, max).files, y, max);
        }
      }
    } else {
      var id :| id in ids && LooksLikeMarker(id);
      LookalikeLeavesMarker(id, [], max);
      var upload := Upload(id, Part(0, [], None));
      assert [upload][..0] == [] && ServedAll(EMPTY, [upload], max) == Served(EMPTY, upload, max);
      assert Uses([upload], ids) && !MarkersHaveFiles(ServedAll(EMPTY, [upload], max).files);
    }
  }

  // ----- Sizes, whatever the ids -----

  predicate Bounded(files: Files, most: nat) {
    forall p :: p in files ==> |files[p]| <= most
  }

  lemma HandledIsBounded(s: Store, id: string, p: Part, max: nat, most: nat)
    requires Bounded(s.files, most) && max <= most && 1 <= most
    ensures Bounded(Handled(s, id, p, max).0.files, most)
  {
    var ready := Opened(s.files, id, p.offset);
    if ready.Ok? && ChunkPath(id) in ready.value && p.offset + |p.body| <= max {
      assert |id + WRITING| != |id|;
      OverlayLength(ready.value[ChunkPath(id)], p.offset, p.body, most);
    }
  }

  /** Over every run, of any ids, no file is larger than the limit, but for the one byte of a marker. */
  lemma {:induction false} AlwaysBounded(requests: seq<Request>, max: nat)
    ensures Bounded(ServedAll(EMPTY, requests, max).files, if max == 0 then 1 else max)
  {
    if requests != [] {
      var before, r := ServedAll(EMPTY, requests[..|requests| - 1], max), requests[|requests| - 1];
      AlwaysBounded(requests[..|requests| - 1], max);
      if r.Upload? {
        HandledIsBounded(before, r.id, r.part, max, if max == 0 then 1 else max);
      }
    }
  }

  /** The id with `n` marker suffixes. */
  function Suffixed(id: string, n: nat): string {
    if n == 0 then id else Suffixed(id, n - 1) + WRITING
  }

  /** Trimming all suffixes off a marker's name gives `id` exactly for the names made of it. */
  lemma {:induction false} TrimAllIs(name: string, id: string)
    ensures TrimAll(name) == id <==> Plain(id) && exists n: nat :: name == Suffixed(id, n)
    decreases |name|
  {
    if EndsWith(name, WRITING) {
      var shorter := name[..|name| - |WRITING|];
      assert name == shorter + WRITING;
      TrimAllIs(shorter, id);
      if n: nat :| shorter == Suffixed(id, n) {
        assert name == Suffixed(id, n + 1);
      }
      if n: nat :| name == Suffixed(id, n) && Plain(id) {
        assert n > 0;
        assert shorter == Suffixed(id, n - 1);
      }
    } else {
      assert Suffixed(name, 0) == name;
      if n: nat :| name == Suffixed(id, n) && n > 0 {
        SuffixedIsMarker(id, n);
        assert false;
      }
    }
  }

  lemma SuffixedIsMarker(id: string, n: nat)
    requires n > 0
    ensures EndsWith(Suffixed(id, n), WRITING)
  {
    assert Suffixed(id, n)[|Suffixed(id, n - 1)|..] == WRITING;
  }

  /** Some file in the shard of `id` is named `id` and one or more marker suffixes. */
  ghost predicate LooksMarked(files: Files, id: string) {
    exists n: nat :: n > 0 && Path(Shard(id), Suffixed(id, n)) in files
  }

  /**
   * Which chunks survive cleanup, whatever the store: those that are there, whose id is not
   * named like a marker, and beside which no file looks like their marker.
   */
  lemma SurvivesCleanup(files: Files, id: string)
    ensures ChunkPath(id) in Cleaned(files) <==> ChunkPath(id) in files && Plain(id) && !LooksMarked(files, id)
  {
    if LooksMarked(files, id) && Plain(id) {
      var n: nat :| n > 0 && Path(Shard(id), Suffixed(id, n)) in files;
      SuffixedIsMarker(id, n);
      TrimAllIs(Suffixed(id, n), id);
      assert Target(Path(Shard(id), Suffixed(id, n))) == ChunkPath(id);
      assert Stale(files, ChunkPath(id));
    }
    if Plain(id) && Stale(files, ChunkPath(id)) {
      var q :| q in files && IsMarker(q) && (ChunkPath(id) == q || ChunkPath(id) == Target(q));
      TrimAllIs(q.name, id);
      var n: nat :| q.name == Suffixed(id, n);
      assert n > 0;
      assert q == Path(Shard(id), Suffixed(id, n));
    }
    if !Plain(id) && ChunkPath(id) in files {
      assert Stale(files, ChunkPath(id));
    }
  }

  /** A chunk named like a marker is taken for one: cleanup deletes the finished chunk it seems to mark. */
  lemma MarkerNamesMislead()
    ensures var files: Files := map[ChunkPath("ab") := [1], ChunkPath("ab.writing") := [2]];
            && (forall id :: WritingPath(id) in files ==> id == "ab")
            && ChunkPath("ab") !in Cleaned(files) && ChunkPath("ab.writing") !in Cleaned(files)
  {
    var files: Files := map[ChunkPath("ab") := [1], ChunkPath("ab.writing") := [2]];
    assert "ab.writing"[2..] == WRITING && "ab.writing"[..2] == "ab";
    assert "ab.writing" == "ab" + WRITING;
    assert !EndsWith("ab", WRITING);
    assert ChunkPath("ab.writing") == WritingPath("ab");
    TrimOnce("ab");
    assert Stale(files, ChunkPath("ab")) && Stale(files, ChunkPath("ab.writing"));
    forall id | WritingPath(id) in files ensures id == "ab" {
      assert EndsWith(id + WRITING, WRITING) by { assert (id + WRITING)[|id|..] == WRITING; }
      assert (id + WRITING)[..|id|] == id;
    }
  }

  // ----- Uploads -----

  /** The content a part is written over: nothing for a first part. */
  function Base(s: Store, id: string, p: Part): seq<Byte> {
    if p.offset == 0 || ChunkPath(id) !in s.files then [] else s.files[ChunkPath(id)]
  }

  /**
   * An accepted part leaves no hole and keeps the limit: it replaces the bytes from its
   * offset, which is at most the current length, and touches no other file.
   */
  lemma AcceptedPart(s: Store, id: string, p: Part, max: nat)
    requires Handled(s, id, p, max).1.Accepted?
    ensures p.offset <= |Base(s, id, p)| && p.offset + |p.body| <= max
    ensures var base, files := Base(s, id, p), Handled(s, id, p, max).0.files;
            && ChunkPath(id) in files
            && files[ChunkPath(id)] == base[..p.offset] + p.body
                 + (if p.offset + |p.body| < |base| then base[p.offset + |p.body|..] else [])
            && (forall q :: q != ChunkPath(id) && q != WritingPath(id) ==>
                  (q in files <==> q in s.files) && (q in files ==> files[q] == s.files[q]))
            && (WritingPath(id) in files <==> !Handled(s, id, p, max).1.finalized)
  {
    assert |id + WRITING| != |id|;
    var base := Base(s, id, p);
    if p.body == [] {
      assert base[..p.offset] + [] + base[p.offset..] == base;
      assert base[..p.offset] + [] + [] == base[..p.offset];
    }
  }

  /** The upload of `bodies` one after the other: each at the length so far, the last one finalizing. */
  function Sent(s: Store, id: string, bodies: seq<seq<Byte>>, k: nat, max: nat): Store
    requires k <= |bodies|
  {
    if k == 0 then s
    else Handled(Sent(s, id, bodies, k - 1, max), id, NthPart(bodies, k - 1), max).0
  }

  function NthPart(bodies: seq<seq<Byte>>, k: nat): Part
    requires k < |bodies|
  {
    Part(|Flatten(bodies[..k])|, bodies[k], Some(k == |bodies| - 1))
  }

  /** The answer to part `k`. */
  function Answer(s: Store, id: string, bodies: seq<seq<Byte>>, k: nat, max: nat): Status
    requires k < |bodies|
  {
    Handled(Sent(s, id, bodies, k, max), id, NthPart(bodies, k), max).1
  }

  lemma {:induction false} FlattenGrows(bodies: seq<seq<Byte>>, k: nat)
    requires k <= |bodies|
    ensures |Flatten(bodies[..k])| <= |Flatten(bodies)|
    ensures (exists i :: 0 <= i < k && bodies[i] != []) ==> Flatten(bodies[..k]) != []
    decreases |bodies|
  {
    var front := if bodies == [] then [] else bodies[..|bodies| - 1];
    if k == |bodies| {
      assert bodies[..k] == bodies;
      if bodies != [] {
        FlattenGrows(front, k - 1);
        assert front[..k - 1] == front;
        assert Flatten(bodies) == Flatten(front) + bodies[k - 1];
      }
    } else {
      FlattenGrows(front, k);
      assert front[..k] == bodies[..k];
      assert forall i :: 0 <= i < k ==> front[i] == bodies[i];
    }
  }

  lemma FlattenStep(bodies: seq<seq<Byte>>, k: nat)
    requires k < |bodies|
    ensures Flatten(bodies[..k + 1]) == Flatten(bodies[..k]) + bodies[k]
  {
    assert bodies[..k + 1][..k] == bodies[..k];
  }

  /** The state after `k` parts: their concatenation, open unless they were all. */
  lemma {:induction false} SentSoFar(s: Store, id: string, bodies: seq<seq<Byte>>, k: nat, max: nat)
    requires WritingPath(id) !in s.files && 0 < k <= |bodies| && |Flatten(bodies)| <= max
    requires forall i :: 0 <= i < |bodies| ==> bodies[i] != []
    ensures var t := Sent(s, id, bodies, k, max);
            && ChunkPath(id) in t.files && t.files[ChunkPath(id)] == Flatten(bodies[..k])
            && (WritingPath(id) in t.files <==> k < |bodies|)
            && Answer(s, id, bodies, k - 1, max) == Accepted(k == |bodies|)
            && (k == |bodies| && id in s.sizes ==> id in t.sizes && t.sizes[id] == |Flatten(bodies)|)
            && (k < |bodies| ==> t.sizes == s.sizes)
  {
    var before, p := Sent(s, id, bodies, k - 1, max), NthPart(bodies, k - 1);
    FlattenStep(bodies, k - 1);
    FlattenGrows(bodies, k);
    assert bodies[..|bodies|] == bodies;
    assert |id + WRITING| != |id|;
    if k > 1 {
      SentSoFar(s, id, bodies, k - 1, max);
      assert bodies[0] != [];
      FlattenGrows(bodies, k - 1);
    } else {
      assert bodies[..0] == [];
    }
    assert Handled(before, id, p, max).1.Accepted?;
    AcceptedPart(before, id, p, max);
    assert Base(before, id, p)[..p.offset] == Flatten(bodies[..k - 1]);
  }

  /**
   * A multi-part upload: parts sent at offset zero and then at the current length are all
   * accepted and leave exactly their concatenation, closed, with its size on record.
   */
  lemma MultiPartUpload(s: Store, id: string, bodies: seq<seq<Byte>>, max: nat)
    requires WritingPath(id) !in s.files && bodies != [] && |Flatten(bodies)| <= max
    requires forall i :: 0 <= i < |bodies| ==> bodies[i] != []
    ensures var t := Sent(s, id, bodies, |bodies|, max);
            && ChunkPath(id) in t.files && t.files[ChunkPath(id)] == Flatten(bodies) && WritingPath(id) !in t.files
            && (id in s.sizes ==> id in t.sizes && t.sizes[id] == |Flatten(bodies)|)
    ensures forall k :: 0 <= k < |bodies| ==> Answer(s, id, bodies, k, max) == Accepted(k == |bodies| - 1)
  {
    forall k | 0 <= k < |bodies| ensures Answer(s, id, bodies, k, max) == Accepted(k == |bodies| - 1) {
      SentSoFar(s, id, bodies, k + 1, max);
    }
    SentSoFar(s, id, bodies, |bodies|, max);
    assert bodies[..|bodies|] == bodies;
  }

  /** Sending a part again while the upload is open, at its offset above zero, changes nothing. */
  lemma ResendChangesNothing(s: Store, id: string, p: Part, max: nat)
    requires p.offset > 0 && Handled(s, id, p, max).1 == Accepted(false)
    ensures Handled(Handled(s, id, p, max).0, id, p, max) == (Handled(s, id, p, max).0, Accepted(false))
  {
    assert |id + WRITING| != |id|;
    AcceptedPart(s, id, p, max);
    var t := Handled(s, id, p, max).0;
    OverlayTwice(Base(s, id, p), p.offset, p.body);
    assert Handled(t, id, p, max).0.files == t.files;
  }

  lemma OverlayTwice(content: seq<Byte>, offset: nat, body: seq<Byte>)
    requires offset <= |content|
    ensures Overlay(Overlay(content, offset, body), offset, body) == Overlay(content, offset, body)
  {
  }

  /** More precisely: a part within an open file changes nothing exactly when its bytes are there already. */
  lemma ResendIffSame(content: seq<Byte>, offset: nat, body: seq<Byte>)
    requires offset + |body| <= |content|
    ensures Overlay(content, offset, body) == content <==> content[offset..offset + |body|] == body
  {
    assert content == content[..offset] + content[offset..offset + |body|] + content[offset + |body|..];
    if body != [] && Overlay(content, offset, body) == content {
      assert Overlay(content, offset, body)[offset..offset + |body|] == body;
    }
  }

  /**
   * The recorded size is right exactly when the finalizing part reaches the end of the
   * file: one re-sent inside it records too little.
   */
  lemma RecordedSize(s: Store, id: string, p: Part, max: nat)
    requires Handled(s, id, p, max).1 == Accepted(true) && id in s.sizes
    ensures var t := Handled(s, id, p, max).0;
            && id in t.sizes && ChunkPath(id) in t.files
            && (t.sizes[id] == |t.files[ChunkPath(id)]| <==> |Base(s, id, p)| <= p.offset + |p.body|)
  {
    AcceptedPart(s, id, p, max);
  }

  /** When a request is too large to be stored but has already started the file over. */
  predicate StartsOver(s: Store, id: string, p: Part, max: nat) {
    p.offset == 0 && WritingPath(id) !in s.files && |p.body| > max
  }

  /** A refused request leaves the files alone exactly when it is not a first part over the limit. */
  lemma RefusalLeavesFiles(s: Store, id: string, p: Part, max: nat)
    requires Handled(s, id, p, max).1.Refused?
    ensures Handled(s, id, p, max).0.files == s.files <==> !StartsOver(s, id, p, max)
    ensures Handled(s, id, p, max).0.sizes == s.sizes
  {
    assert |id + WRITING| != |id|;
    if StartsOver(s, id, p, max) {
      assert WritingPath(id) in Handled(s, id, p, max).0.files;
    }
  }

  /**
   * A first part over the limit is refused, yet the chunk is left empty and marked as being
   * written: what it held is gone and a retry at offset zero conflicts.
   */
  lemma TooLargeFirstPart(s: Store, id: string, p: Part, max: nat, again: Part)
    requires WritingPath(id) !in s.files && p.offset == 0 && |p.body| > max && again.offset == 0
    ensures var (t, status) := Handled(s, id, p, max);
            && status == Refused(TooLarge)
            && ChunkPath(id) in t.files && t.files[ChunkPath(id)] == [] && WritingPath(id) in t.files
            && Handled(t, id, again, max) == (t, Refused(Conflict))
  {
    assert |id + WRITING| != |id|;
  }

  // ----- Reading back -----

  /** What a reader gets who asks window by window from `offset` on, until it has `size` bytes. */
  function ReadOn(content: seq<Byte>, writing: bool, offset: nat, maxLen: nat): seq<Byte>
    requires maxLen > 0
    decreases if offset < |content| then |content| - offset else 0
  {
    if offset >= |content| then []
    else
      var got := Window(content, writing, offset, maxLen).0;
      got + ReadOn(content, writing, offset + |got|, maxLen)
  }

  /** Consecutive windows rebuild the file. */
  lemma {:induction false} WindowsRebuild(content: seq<Byte>, writing: bool, offset: nat, maxLen: nat)
    requires maxLen > 0 && offset <= |content|
    ensures ReadOn(content, writing, offset, maxLen) == content[offset..]
    decreases |content| - offset
  {
    if offset < |content| {
      var got := Window(content, writing, offset, maxLen).0;
      WindowsRebuild(content, writing, offset + |got|, maxLen);
      assert content[offset..] == got + content[offset + |got|..];
    }
  }

  /** A single-shot upload: one part at offset zero without a flag is stored, closed and readable at once. */
  lemma SingleShotUpload(s: Store, id: string, body: seq<Byte>, max: nat)
    requires WritingPath(id) !in s.files && body != [] && |body| <= max
    ensures var (t, status) := Handled(s, id, Part(0, body, None), max);
            && status == Accepted(true)
            && ChunkPath(id) in t.files && t.files[ChunkPath(id)] == body && WritingPath(id) !in t.files
            && Window(t.files[ChunkPath(id)], false, 0, |body|) == (body, true)
  {
    assert |id + WRITING| != |id|;
    assert body[0..|body|] == body;
  }

  /** An open upload is closed by an empty body, wherever it is sent, and keeps its bytes. */
  lemma EmptyBodyCloses(s: Store, id: string, p: Part, max: nat)
    requires WritingPath(id) in s.files && ChunkPath(id) in s.files
    requires p.body == [] && 0 < p.offset <= |s.files[ChunkPath(id)]| && p.offset <= max
    ensures var (t, status) := Handled(s, id, p, max);
            status == Accepted(true) && WritingPath(id) !in t.files
            && ChunkPath(id) in t.files && t.files[ChunkPath(id)] == s.files[ChunkPath(id)]
  {
    assert |id + WRITING| != |id|;
  }
}
