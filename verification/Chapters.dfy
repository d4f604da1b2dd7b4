/**
  Chapters of an audiobook, in the whole book's time and in each file's own time.

  Times are integral milliseconds; the conversion to seconds on the wire is left out.
 */
module Chapters {

  import opened Common

  datatype Chapter = Chapter(index: int, title: Option<string>, start: int, end: Option<int>)

  datatype Track = Track(index: int, start: int, duration: int)

  datatype Audio = Audio(duration: int, tracks: seq<Track>, chapters: seq<Chapter>)

  datatype Title = Given(text: string) | Numbered(n: int)

  /** A chapter as sent to the client. */
  datatype Mark = Mark(start: int, end: int, title: Title, id: int)

  const INDEX_MAX: int := 0x7fff_ffff

  function TitleOf(c: Chapter): Title {
    match c.title
    case Some(text) => Given(text)
    case None => Numbered(if c.index < INDEX_MAX then c.index + 1 else INDEX_MAX)
  }

  function EndOf(audio: Audio, c: Chapter): int { if c.end.Some? then c.end.value else audio.duration }

  function EndsAt(track: Track): int { track.start + track.duration }

  // ---------------------------------------------------------------------------------------------
  // The two chapter lists
  // ---------------------------------------------------------------------------------------------

  /** `media.chapters[]`: the chapters in book time. */
  function BookMarks(audio: Audio, chapters: seq<Chapter>): seq<Mark> {
    if chapters == [] then []
    else [Mark(chapters[0].start, EndOf(audio, chapters[0]), TitleOf(chapters[0]), chapters[0].index)] + BookMarks(audio, chapters[1..])
  }

  /** `audioFiles[].chapters[]`: the chapters that fall inside one file, cut to it and in its own time. */
  function FileChaptersOf(audio: Audio, chapters: seq<Chapter>, track: Track): seq<Mark> {
    if chapters == [] then []
    else
      var c, rest := chapters[0], FileChaptersOf(audio, chapters[1..], track);
      var fileStart, fileEnd := track.start, track.start + track.duration;
      if c.start < fileEnd && EndOf(audio, c) > fileStart
      then [Mark(Max(c.start, fileStart) - fileStart, Min(EndOf(audio, c), fileEnd) - fileStart, TitleOf(c), c.index)] + rest
      else rest
  }

  function FileChapters(audio: Audio, track: Track): seq<Mark> { FileChaptersOf(audio, audio.chapters, track) }

  /** The book's list has one mark per chapter, in order; a chapter without an end runs to the end of
      the book, and one without a title is numbered from one. */
  lemma {:induction false} BookMarksAt(audio: Audio, chapters: seq<Chapter>, i: nat)
    requires i < |chapters|
    ensures |BookMarks(audio, chapters)| == |chapters|
    ensures var m, c := BookMarks(audio, chapters)[i], chapters[i];
            && m.start == c.start && m.id == c.index
            && (c.end == Some(m.end) || (c.end.None? && m.end == audio.duration))
            && (if c.title.Some? then m.title == Given(c.title.value) else m.title == Numbered(Min(c.index + 1, 0x7fff_ffff)))
  {
    if |chapters| > 1 { BookMarksAt(audio, chapters[1..], if i == 0 then 0 else i - 1); }
  }

  // ---------------------------------------------------------------------------------------------
  // Cutting marks to a file
  // ---------------------------------------------------------------------------------------------

  function FileMarks(marks: seq<Mark>, track: Track): seq<Mark> {
    if marks == [] then []
    else
      var rest := FileMarks(marks[1..], track);
      if Overlaps(marks[0], track) then [Cut(marks[0], track)] + rest else rest
  }

  /** A file's chapters are the book's chapters cut to the file. */
  lemma {:induction false} FileChaptersCut(audio: Audio, chapters: seq<Chapter>, track: Track)
    ensures FileChaptersOf(audio, chapters, track) == FileMarks(BookMarks(audio, chapters), track)
  {
    if chapters != [] {
      FileChaptersCut(audio, chapters[1..], track);
      assert BookMarks(audio, chapters)[1..] == BookMarks(audio, chapters[1..]);
    }
  }

  predicate Overlaps(m: Mark, track: Track) { m.start < EndsAt(track) && m.end > track.start }

  function Cut(m: Mark, track: Track): Mark {
    m.(start := Max(m.start, track.start) - track.start, end := Min(m.end, EndsAt(track)) - track.start)
  }

  function Chapters(audio: Audio): seq<Mark> { BookMarks(audio, audio.chapters) }

  // ---------------------------------------------------------------------------------------------
  // The same chapter plays in both
  // ---------------------------------------------------------------------------------------------

  /** The ids of the marks that contain time `t`, in order. */
  function Playing(marks: seq<Mark>, t: int): seq<int> {
    if marks == [] then []
    else (if marks[0].start <= t < marks[0].end then [marks[0].id] else []) + Playing(marks[1..], t)
  }

  lemma {:induction false} FileMarksPlaying(marks: seq<Mark>, track: Track, t: int)
    requires track.start <= t < EndsAt(track)
    ensures Playing(FileMarks(marks, track), t - track.start) == Playing(marks, t)
  {
    if marks != [] {
      FileMarksPlaying(marks[1..], track, t);
      var rest := FileMarks(marks[1..], track);
      if Overlaps(marks[0], track) {
        assert ([Cut(marks[0], track)] + rest)[1..] == rest;
      }
    }
  }

  /** At every moment of a file, the file's list names the chapters the book's list names, whatever
      gaps and overlaps the chapters have. */
  lemma SamePlaying(audio: Audio, track: Track, t: int)
    requires track.start <= t < EndsAt(track)
    ensures Playing(FileChapters(audio, track), t - track.start) == Playing(Chapters(audio), t)
  {
    FileChaptersCut(audio, audio.chapters, track);
    FileMarksPlaying(Chapters(audio), track, t);
  }

  // ---------------------------------------------------------------------------------------------
  // Tiling
  // ---------------------------------------------------------------------------------------------

  /** The marks fill [a, b] from end to end, each of positive length. */
  predicate Tiles(marks: seq<Mark>, a: int, b: int) {
    if marks == [] then a == b
    else marks[0].start == a && a < marks[0].end && Tiles(marks[1..], marks[0].end, b)
  }

  predicate TracksTile(tracks: seq<Track>, a: int, b: int) {
    if tracks == [] then a == b
    else tracks[0].start == a && 0 < tracks[0].duration && TracksTile(tracks[1..], EndsAt(tracks[0]), b)
  }

  lemma {:induction false} TilesForward(marks: seq<Mark>, a: int, b: int)
    requires Tiles(marks, a, b)
    ensures a <= b
  {
    if marks != [] { TilesForward(marks[1..], marks[0].end, b); }
  }

  lemma {:induction false} TracksForward(tracks: seq<Track>, a: int, b: int)
    requires TracksTile(tracks, a, b)
    ensures a <= b
  {
    if tracks != [] { TracksForward(tracks[1..], EndsAt(tracks[0]), b); }
  }

  lemma {:induction false} NoMarks(marks: seq<Mark>, a: int, b: int, track: Track)
    requires Tiles(marks, a, b) && (EndsAt(track) <= a || b <= track.start || a == b)
    ensures FileMarks(marks, track) == []
  {
    if marks != [] {
      TilesForward(marks[1..], marks[0].end, b);
      assert a != b;
      NoMarks(marks[1..], marks[0].end, b, track);
    }
  }

  /** Marks that tile a range are cut to marks that tile the part of the range inside the file. */
  lemma {:induction false} FileMarksTile(marks: seq<Mark>, a: int, b: int, track: Track)
    requires Tiles(marks, a, b) && Max(a, track.start) < Min(b, EndsAt(track))
    ensures Tiles(FileMarks(marks, track), Max(a, track.start) - track.start, Min(b, EndsAt(track)) - track.start)
  {
    if marks != [] {
      var m, rest := marks[0], marks[1..];
      TilesForward(rest, m.end, b);
      if m.end <= track.start {
        FileMarksTile(rest, m.end, b, track);
      } else if b <= m.end || EndsAt(track) <= m.end {
        NoMarks(rest, m.end, b, track);
        assert FileMarks(marks, track) == [Cut(m, track)];
      } else {
        FileMarksTile(rest, m.end, b, track);
        assert ([Cut(m, track)] + FileMarks(rest, track))[1..] == FileMarks(rest, track);
      }
    }
  }

  /** If the tracks and the chapters each tile the book, the chapters of every file tile that file. */
  lemma {:induction false} FilesTile(audio: Audio, tracks: seq<Track>, a: int, k: nat)
    requires Tiles(Chapters(audio), 0, audio.duration) && 0 <= a && TracksTile(tracks, a, audio.duration) && k < |tracks|
    ensures Tiles(FileChapters(audio, tracks[k]), 0, tracks[k].duration)
  {
    TracksForward(tracks[1..], EndsAt(tracks[0]), audio.duration);
    if k == 0 {
      FileChaptersCut(audio, audio.chapters, tracks[0]);
      FileMarksTile(Chapters(audio), 0, audio.duration, tracks[0]);
    } else {
      FilesTile(audio, tracks[1..], EndsAt(tracks[0]), k - 1);
    }
  }

  // ---------------------------------------------------------------------------------------------
  // Stitching
  // ---------------------------------------------------------------------------------------------

  /** What the files show of one mark, put back into book time. */
  function Pieces(m: Mark, tracks: seq<Track>): seq<Mark> {
    if tracks == [] then []
    else
      var rest := Pieces(m, tracks[1..]);
      if Overlaps(m, tracks[0])
      then [Cut(m, tracks[0]).(start := Cut(m, tracks[0]).start + tracks[0].start, end := Cut(m, tracks[0]).end + tracks[0].start)] + rest
      else rest
  }

  function TotalLength(marks: seq<Mark>): int {
    if marks == [] then 0 else marks[0].end - marks[0].start + TotalLength(marks[1..])
  }

  lemma {:induction false} NoPieces(m: Mark, tracks: seq<Track>, a: int, b: int)
    requires TracksTile(tracks, a, b) && (m.end <= a || b <= m.start || a == b)
    ensures Pieces(m, tracks) == []
  {
    if tracks != [] {
      TracksForward(tracks[1..], EndsAt(tracks[0]), b);
      assert a != b;
      NoPieces(m, tracks[1..], EndsAt(tracks[0]), b);
    }
  }

  /** The pieces of a mark tile the part of it that the tracks cover. */
  lemma {:induction false} PiecesTile(m: Mark, tracks: seq<Track>, a: int, b: int)
    requires TracksTile(tracks, a, b) && Max(m.start, a) < Min(m.end, b)
    ensures Tiles(Pieces(m, tracks), Max(m.start, a), Min(m.end, b))
  {
    if tracks != [] {
      var t, rest := tracks[0], tracks[1..];
      TracksForward(rest, EndsAt(t), b);
      if EndsAt(t) <= m.start {
        PiecesTile(m, rest, EndsAt(t), b);
      } else if m.end <= EndsAt(t) || b <= EndsAt(t) {
        NoPieces(m, rest, EndsAt(t), b);
        assert |Pieces(m, tracks)| == 1 && Pieces(m, tracks)[1..] == [];
      } else {
        PiecesTile(m, rest, EndsAt(t), b);
        assert Pieces(m, tracks)[1..] == Pieces(m, rest);
      }
    }
  }

  lemma {:induction false} TilesLength(marks: seq<Mark>, a: int, b: int)
    requires Tiles(marks, a, b)
    ensures TotalLength(marks) == b - a
  {
    if marks != [] { TilesLength(marks[1..], marks[0].end, b); }
  }

  /** The pieces of a chapter inside the book stitch back to it: nothing lost, nothing shown twice, and
      the lengths over all files add up. */
  lemma Stitched(audio: Audio, m: Mark)
    requires TracksTile(audio.tracks, 0, audio.duration) && 0 <= m.start < m.end <= audio.duration
    ensures Tiles(Pieces(m, audio.tracks), m.start, m.end)
    ensures TotalLength(Pieces(m, audio.tracks)) == m.end - m.start
  {
    PiecesTile(m, audio.tracks, 0, audio.duration);
    TilesLength(Pieces(m, audio.tracks), m.start, m.end);
  }

  // ---------------------------------------------------------------------------------------------
  // Conservation over all files
  // ---------------------------------------------------------------------------------------------

  /** The chapter time the files show altogether. */
  function ShownLength(audio: Audio, tracks: seq<Track>): int {
    if tracks == [] then 0 else TotalLength(FileChapters(audio, tracks[0])) + ShownLength(audio, tracks[1..])
  }

  function PiecesLength(marks: seq<Mark>, tracks: seq<Track>): int {
    if marks == [] then 0 else TotalLength(Pieces(marks[0], tracks)) + PiecesLength(marks[1..], tracks)
  }

  /** Adding up file by file and adding up chapter by chapter agree, for any chapters and any files. */
  lemma {:induction false} SwapSums(audio: Audio, tracks: seq<Track>)
    ensures ShownLength(audio, tracks) == PiecesLength(Chapters(audio), tracks)
  {
    if tracks == [] {
      NoTracks(Chapters(audio));
    } else {
      SwapSums(audio, tracks[1..]);
      FileChaptersCut(audio, audio.chapters, tracks[0]);
      OneTrack(Chapters(audio), tracks);
    }
  }

  lemma {:induction false} NoTracks(marks: seq<Mark>)
    ensures PiecesLength(marks, []) == 0
  {
    if marks != [] { NoTracks(marks[1..]); }
  }

  lemma {:induction false} OneTrack(marks: seq<Mark>, tracks: seq<Track>)
    requires tracks != []
    ensures PiecesLength(marks, tracks) == TotalLength(FileMarks(marks, tracks[0])) + PiecesLength(marks, tracks[1..])
  {
    if marks != [] {
      OneTrack(marks[1..], tracks);
      var rest, pieces := FileMarks(marks[1..], tracks[0]), Pieces(marks[0], tracks[1..]);
      if Overlaps(marks[0], tracks[0]) {
        assert FileMarks(marks, tracks[0])[1..] == rest;
        assert Pieces(marks[0], tracks)[1..] == pieces;
      }
    }
  }

  predicate Inside(marks: seq<Mark>, duration: int) {
    forall i :: 0 <= i < |marks| ==> 0 <= marks[i].start <= marks[i].end <= duration
  }

  lemma {:induction false} EmptyPieces(m: Mark, tracks: seq<Track>)
    requires m.start == m.end
    ensures TotalLength(Pieces(m, tracks)) == 0
  {
    if tracks != [] {
      EmptyPieces(m, tracks[1..]);
      assert Overlaps(m, tracks[0]) ==> Pieces(m, tracks)[1..] == Pieces(m, tracks[1..]);
    }
  }

  lemma {:induction false} PiecesConserve(audio: Audio, marks: seq<Mark>)
    requires TracksTile(audio.tracks, 0, audio.duration) && Inside(marks, audio.duration)
    ensures PiecesLength(marks, audio.tracks) == TotalLength(marks)
  {
    if marks != [] {
      if marks[0].start < marks[0].end { Stitched(audio, marks[0]); } else { EmptyPieces(marks[0], audio.tracks); }
      PiecesConserve(audio, marks[1..]);
    }
  }

  /** The files together show exactly the chapter time of the book, gaps and overlaps included. */
  lemma Conserved(audio: Audio)
    requires TracksTile(audio.tracks, 0, audio.duration) && Inside(Chapters(audio), audio.duration)
    ensures ShownLength(audio, audio.tracks) == TotalLength(Chapters(audio))
  {
    SwapSums(audio, audio.tracks);
    PiecesConserve(audio, Chapters(audio));
  }
}
