/** Looking up users and groups in colon-separated files that are read in chunks
    (resources/utils/user/user.go). */
module ColonFile {
  import opened Sequences
  import opened ColonFields

  /** What one `ReadLine` returns: a piece of a line, and whether more of the line follows. */
  datatype Chunk = Chunk(text: string, isPrefix: bool)

  /** How the input ends: end of file, or a read error. */
  datatype End = Eof | Broken(error: string)

  /** What the row function says of a row: nothing, a value, or an error. */
  datatype Row<+T> = Skip | Found(value: T) | Bad(error: string)

  datatype Lookup<+T> = NoMatch | Match(value: T) | Failed(error: string)

  function AtEnd<T>(end: End): Lookup<T> { if end.Broken? then Failed(end.error) else NoMatch }

  function FromRow<T>(row: Row<T>): Lookup<T>
    requires !row.Skip?
  {
    if row.Found? then Match(row.value) else Failed(row.error)
  }

  predicate Ignored(line: string) { line == "" || line[0] == '#' }

  // --- specification: line by line ---

  /** The first line, put together from its chunks; the last one may lack its final chunk. */
  function FirstLine(chunks: seq<Chunk>): (line: string) {
    if chunks == [] then ""
    else chunks[0].text + (if chunks[0].isPrefix then FirstLine(chunks[1..]) else "")
  }

  function AfterLine(chunks: seq<Chunk>): (rest: seq<Chunk>)
    ensures |rest| <= |chunks| && (chunks != [] ==> |rest| < |chunks|)
  {
    if chunks == [] then [] else if chunks[0].isPrefix then AfterLine(chunks[1..]) else chunks[1..]
  }

  function Lines(chunks: seq<Chunk>): (lines: seq<string>)
    decreases |chunks|
  {
    if chunks == [] then [] else [FirstLine(chunks)] + Lines(AfterLine(chunks))
  }

  /** A line's row, with surrounding white space removed; blank lines and comments have none. */
  function RowOf<T>(fn: string -> Row<T>, line: string): (row: Row<T>) {
    if Ignored(TrimSpace(line)) then Skip else fn(TrimSpace(line))
  }

  /** The first line that has a row decides. */
  function FirstRow<T>(fn: string -> Row<T>, lines: seq<string>, end: End): (r: Lookup<T>) {
    if lines == [] then AtEnd(end)
    else if RowOf(fn, lines[0]).Skip? then FirstRow(fn, lines[1..], end)
    else FromRow(RowOf(fn, lines[0]))
  }

  /** Line number `i` is the first with a row. */
  predicate FirstRowAt<T>(fn: string -> Row<T>, lines: seq<string>, i: nat) {
    i < |lines| && !RowOf(fn, lines[i]).Skip? && forall j :: 0 <= j < i ==> RowOf(fn, lines[j]).Skip?
  }

  predicate NoRow<T>(fn: string -> Row<T>, lines: seq<string>) {
    forall i :: 0 <= i < |lines| ==> RowOf(fn, lines[i]).Skip?
  }

  /** The answer of a look-up: the value or the error of the first line with a row; if there is none, a
      read error if that is how the input ends, and `unknown` otherwise. */
  ghost predicate Answers<T(!new)>(
    fn: string -> Row<T>, lines: seq<string>, end: End, unknown: Lookup<T>, r: Lookup<T>)
  {
    && (forall i: nat :: FirstRowAt(fn, lines, i) ==>
          match RowOf(fn, lines[i])
          case Found(value) => r == Match(value)
          case Bad(error) => r == Failed(error)
          case Skip => false)
    && (NoRow(fn, lines) ==> r == if end.Broken? then Failed(end.error) else unknown)
  }

  lemma {:induction false} FirstRowMeans<T(!new)>(fn: string -> Row<T>, lines: seq<string>, end: End)
    ensures Answers(fn, lines, end, NoMatch, FirstRow(fn, lines, end))
    ensures FirstRow(fn, lines, end).NoMatch? ==> NoRow(fn, lines) && end.Eof?
  {
    hide RowOf;
    if lines != [] {
      var rest := lines[1..];
      FirstRowMeans(fn, rest, end);
      assert forall i :: 0 < i < |lines| ==> lines[i] == rest[i - 1];
      if RowOf(fn, lines[0]).Skip? {
        forall i: nat | FirstRowAt(fn, lines, i) ensures i > 0 && FirstRowAt(fn, rest, i - 1) {
        }
        assert NoRow(fn, lines) ==> NoRow(fn, rest);
        assert NoRow(fn, rest) ==> NoRow(fn, lines);
      } else {
        assert !NoRow(fn, lines);
        assert forall i: nat :: FirstRowAt(fn, lines, i) ==> i == 0;
      }
    }
  }

  /** The chunks of one whole line. */
  predicate IsLine(piece: seq<Chunk>) {
    piece != [] && forall i :: 0 <= i < |piece| ==> (piece[i].isPrefix <==> i < |piece| - 1)
  }

  function Text(piece: seq<Chunk>): (line: string) {
    if piece == [] then "" else piece[0].text + Text(piece[1..])
  }

  lemma {:induction false} LineOfPiece(piece: seq<Chunk>, more: seq<Chunk>)
    requires IsLine(piece)
    ensures FirstLine(piece + more) == Text(piece) && AfterLine(piece + more) == more
  {
    assert (piece + more)[1..] == piece[1..] + more;
    if |piece| > 1 {
      LineOfPiece(piece[1..], more);
    } else {
      assert piece[1..] + more == more && Text(piece[1..]) == "";
    }
  }

  /** Lines cut into chunks in any way are put together again. */
  lemma {:induction false} LinesOfPieces(pieces: seq<seq<Chunk>>)
    requires forall i :: 0 <= i < |pieces| ==> IsLine(pieces[i])
    ensures Lines(Concat(pieces)) == seq(|pieces|, i requires 0 <= i < |pieces| => Text(pieces[i]))
  {
    hide IsLine, FirstLine, AfterLine, Text;
    if pieces != [] {
      LineOfPiece(pieces[0], Concat(pieces[1..]));
      LinesOfPieces(pieces[1..]);
      assert IsLine(pieces[0]);
      PieceIsSome(pieces[0]);
    }
  }

  lemma PieceIsSome(piece: seq<Chunk>)
    requires IsLine(piece)
    ensures piece != []
  {
  }

  // --- the loops, as functions ---

  /** The inner loop: chunks are collected until the line ends or has `readCols` colons. */
  datatype Gathered = Ended | Gathered(line: string, isPrefix: bool, rest: seq<Chunk>)

  function Gather(chunks: seq<Chunk>, wholeLine: string, readCols: nat): (g: Gathered)
    ensures g.Gathered? ==> |g.rest| < |chunks|
  {
    if chunks == [] then Ended
    else
      var line := wholeLine + chunks[0].text;
      if !chunks[0].isPrefix || Colons(line) >= readCols
      then Gathered(line, chunks[0].isPrefix, chunks[1..])
      else Gather(chunks[1..], line, readCols)
  }

  /** The outer loop. After a comment or blank line it goes on at once; after any other line without
      a match it first skips the rest of the line. */
  function Scan<T>(fn: string -> Row<T>, chunks: seq<Chunk>, end: End, readCols: nat): (r: Lookup<T>)
    decreases |chunks|
  {
    match Gather(chunks, "", readCols)
    case Ended => AtEnd(end)
    case Gathered(line, isPrefix, rest) =>
      if Ignored(TrimSpace(line)) then Scan(fn, rest, end, readCols)
      else if fn(TrimSpace(line)).Skip?
      then Scan(fn, if isPrefix then AfterLine(rest) else rest, end, readCols)
      else FromRow(fn(TrimSpace(line)))
  }

  // --- the reader and the method ---

  class LineReader {
    const chunks: seq<Chunk>
    const end: End
    var pos: nat

    constructor (chunks: seq<Chunk>, end: End)
      ensures this.chunks == chunks && this.end == end && pos == 0
    {
      this.chunks := chunks;
      this.end := end;
      pos := 0;
    }

    ghost predicate Valid()
      reads this
    {
      pos <= |chunks|
    }

    method ReadLine() returns (line: string, isPrefix: bool, err: Option<End>)
      requires Valid()
      modifies this
      ensures Valid()
      ensures old(pos) == |chunks| ==> pos == old(pos) && line == "" && !isPrefix && err == Some(end)
      ensures old(pos) < |chunks| ==> pos == old(pos) + 1 && Chunk(line, isPrefix) == chunks[old(pos)] && err == None
    {
      if pos == |chunks| {
        return "", false, Some(end);
      }
      line, isPrefix, err := chunks[pos].text, chunks[pos].isPrefix, None;
      pos := pos + 1;
    }
  }

  /** The inner loop of `ReadColonFile`. */
  method GatherLine(rd: LineReader, readCols: nat) returns (wholeLine: string, isPrefix: bool, err: Option<End>)
    requires rd.Valid()
    modifies rd
    ensures rd.Valid()
    ensures err.Some? ==> err.value == rd.end && Gather(rd.chunks[old(rd.pos)..], "", readCols).Ended?
    ensures err.None? ==> old(rd.pos) < rd.pos
    ensures err.None? ==>
      Gather(rd.chunks[old(rd.pos)..], "", readCols) == Gathered(wholeLine, isPrefix, rd.chunks[rd.pos..])
  {
    wholeLine := "";
    while true
      invariant rd.Valid() && old(rd.pos) <= rd.pos
      invariant Gather(rd.chunks[rd.pos..], wholeLine, readCols) == Gather(rd.chunks[old(rd.pos)..], "", readCols)
      decreases |rd.chunks| - rd.pos
    {
      var line;
      line, isPrefix, err := rd.ReadLine();
      if err.Some? {
        return;
      }
      if !isPrefix && |wholeLine| == 0 {
        wholeLine := line;
        break;
      }
      wholeLine := wholeLine + line;
      if !isPrefix || Colons(wholeLine) >= readCols {
        break;
      }
    }
  }

  /** The skip loop of `ReadColonFile`. A read error ends it too, because it comes without a prefix;
      the next read reports that error again. */
  method SkipRest(rd: LineReader, prefix: bool)
    requires rd.Valid()
    modifies rd
    ensures rd.Valid() && old(rd.pos) <= rd.pos
    ensures rd.chunks[rd.pos..] == if prefix then AfterLine(rd.chunks[old(rd.pos)..]) else rd.chunks[old(rd.pos)..]
  {
    var isPrefix := prefix;
    while isPrefix
      invariant rd.Valid() && old(rd.pos) <= rd.pos
      invariant (if isPrefix then AfterLine(rd.chunks[rd.pos..]) else rd.chunks[rd.pos..])
             == (if prefix then AfterLine(rd.chunks[old(rd.pos)..]) else rd.chunks[old(rd.pos)..])
      decreases |rd.chunks| - rd.pos, isPrefix
    {
      var line, err;
      line, isPrefix, err := rd.ReadLine();
    }
  }

  method ReadColonFile<T>(rd: LineReader, fn: string -> Row<T>, readCols: nat) returns (r: Lookup<T>)
    requires rd.Valid()
    modifies rd
    ensures r == Scan(fn, rd.chunks[old(rd.pos)..], rd.end, readCols)
  {
    while true
      invariant rd.Valid()
      invariant Scan(fn, rd.chunks[rd.pos..], rd.end, readCols) == Scan(fn, rd.chunks[old(rd.pos)..], rd.end, readCols)
      decreases |rd.chunks| - rd.pos
    {
      var wholeLine, isPrefix, err := GatherLine(rd, readCols);
      if err.Some? {
        return AtEnd(err.value);
      }
      wholeLine := TrimSpace(wholeLine);
      if |wholeLine| == 0 || wholeLine[0] == '#' {
        continue;
      }
      var v := fn(wholeLine);
      if !v.Skip? {
        return FromRow(v);
      }
      SkipRest(rd, isPrefix);
    }
  }
}
