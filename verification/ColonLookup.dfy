/** The chunked reader against the line-by-line specification, and the row functions for groups and
    users (resources/utils/user/user.go). */
module ColonLookup {
  import opened ColonFields
  import opened ColonFile

  // --- the lines the loops really look at ---

  /** A line as the outer loop meets it. `leftover`: it starts in the middle of a comment line, whose
      rest the loop does not skip. */
  datatype SeenLine = SeenLine(text: string, leftover: bool)

  function Seen(chunks: seq<Chunk>, readCols: nat, leftover: bool): (r: seq<SeenLine>)
    decreases |chunks|
  {
    if chunks == [] then []
    else
      var g := Gather(chunks, "", readCols);
      if g.Gathered? && g.isPrefix && Ignored(TrimSpace(g.line))
      then [SeenLine(g.line, leftover)] + Seen(g.rest, readCols, true)
      else [SeenLine(FirstLine(chunks), leftover)] + Seen(AfterLine(chunks), readCols, false)
  }

  function Texts(seen: seq<SeenLine>): (r: seq<string>) {
    if seen == [] then [] else [seen[0].text] + Texts(seen[1..])
  }

  function Genuine(seen: seq<SeenLine>): (r: seq<string>) {
    if seen == [] then [] else (if seen[0].leftover then [] else [seen[0].text]) + Genuine(seen[1..])
  }

  /** The first line with a row is a genuine one, or a leftover that answers what the first genuine
      one would have answered. */
  predicate Harmless<T(==)>(fn: string -> Row<T>, seen: seq<SeenLine>, end: End) {
    if seen == [] then true
    else if RowOf(fn, seen[0].text).Skip? then Harmless(fn, seen[1..], end)
    else seen[0].leftover ==> FromRow(RowOf(fn, seen[0].text)) == FirstRow(fn, Genuine(seen[1..]), end)
  }

  /** Every comment or blank line arrives in one chunk. */
  predicate CommentsInOneChunk(chunks: seq<Chunk>)
    decreases |chunks|
  {
    chunks == [] ||
    ((Ignored(TrimSpace(FirstLine(chunks))) ==> !chunks[0].isPrefix) && CommentsInOneChunk(AfterLine(chunks)))
  }

  // --- row functions that do not mind a cut ---

  ghost predicate StableAt<T(!new)>(fn: string -> Row<T>, readCols: nat, p: string, t: string) {
    Colons(p) >= readCols ==> fn(TrimSpace(p)) == fn(TrimSpace(p + t))
  }

  ghost predicate Stable<T(!new)>(fn: string -> Row<T>, readCols: nat) {
    && (forall p: string, t: string :: StableAt(fn, readCols, p, t))
    && (forall w: string :: Colons(w) < readCols ==> fn(w).Skip?)
  }

  // --- the reader refines the specification ---

  /** What the inner loop has collected is the start of a line, with enough colons unless it is the
      whole line. */
  lemma {:induction false} GatherMeans(chunks: seq<Chunk>, start: string, readCols: nat)
    requires Colons(start) < readCols
    ensures match Gather(chunks, start, readCols)
            case Ended => Colons(start + FirstLine(chunks)) < readCols && AfterLine(chunks) == []
            case Gathered(line, isPrefix, rest) =>
              && start + FirstLine(chunks) == line + (if isPrefix then FirstLine(rest) else "")
              && AfterLine(chunks) == (if isPrefix then AfterLine(rest) else rest)
              && (isPrefix ==> Colons(line) >= readCols)
  {
    if chunks == [] {
      assert start + "" == start;
    } else {
      var line := start + chunks[0].text;
      if chunks[0].isPrefix {
        assert start + FirstLine(chunks) == line + FirstLine(chunks[1..]);
        if Colons(line) < readCols {
          GatherMeans(chunks[1..], line, readCols);
        }
      } else {
        assert start + FirstLine(chunks) == line + "";
      }
    }
  }

  lemma FewColonsNoRow<T(!new)>(fn: string -> Row<T>, readCols: nat, line: string)
    requires Stable(fn, readCols) && Colons(line) < readCols
    ensures RowOf(fn, line).Skip?
  {
    TrimSpaceColons(line);
  }

  /** Cutting a line after `readCols` colons does not change its row. */
  lemma CutKeepsRow<T(!new)>(fn: string -> Row<T>, readCols: nat, line: string, rest: string)
    requires Stable(fn, readCols) && readCols > 0 && Colons(line) >= readCols
    ensures RowOf(fn, line + rest) == RowOf(fn, line)
  {
    CutAndTrimHead(line, rest);
    assert StableAt(fn, readCols, line, rest);
  }

  lemma FirstRowCons<T>(fn: string -> Row<T>, line: string, lines: seq<string>, end: End)
    ensures FirstRow(fn, [line] + lines, end)
         == if RowOf(fn, line).Skip? then FirstRow(fn, lines, end) else FromRow(RowOf(fn, line))
  {
    assert ([line] + lines)[1..] == lines;
  }

  /** What the inner loop hands over has the row of its whole line. */
  lemma GatheredRow<T(!new)>(fn: string -> Row<T>, chunks: seq<Chunk>, readCols: nat)
    requires Stable(fn, readCols) && readCols > 0 && chunks != []
    ensures match Gather(chunks, "", readCols)
            case Ended => RowOf(fn, FirstLine(chunks)).Skip? && AfterLine(chunks) == []
            case Gathered(line, isPrefix, rest) =>
              && RowOf(fn, line) == RowOf(fn, FirstLine(chunks))
              && AfterLine(chunks) == (if isPrefix then AfterLine(rest) else rest)
  {
    hide RowOf, TrimSpace, Stable;
    NoColons("");
    GatherMeans(chunks, "", readCols);
    assert "" + FirstLine(chunks) == FirstLine(chunks);
    match Gather(chunks, "", readCols)
    case Ended => FewColonsNoRow(fn, readCols, FirstLine(chunks));
    case Gathered(line, isPrefix, rest) =>
      assert line + "" == line;
      if isPrefix {
        CutKeepsRow(fn, readCols, line, FirstLine(rest));
      }
  }

  /** The loops find the first row among the lines they look at. */
  lemma {:induction false} ScanSeen<T(!new)>(
    fn: string -> Row<T>, chunks: seq<Chunk>, end: End, readCols: nat, leftover: bool)
    requires Stable(fn, readCols) && readCols > 0
    ensures Scan(fn, chunks, end, readCols) == FirstRow(fn, Texts(Seen(chunks, readCols, leftover)), end)
    decreases |chunks|
  {
    hide TrimSpace, Stable, FirstRow, Gather, FirstLine, AfterLine;
    if chunks == [] {
      EmptyFile(fn, end, readCols);
    } else {
      GatheredRow(fn, chunks, readCols);
      var seen, g := Seen(chunks, readCols, leftover), Gather(chunks, "", readCols);
      var cut := g.Gathered? && g.isPrefix && Ignored(TrimSpace(g.line));
      var rest := if cut then g.rest else AfterLine(chunks);
      assert seen[1..] == Seen(rest, readCols, cut);
      FirstRowCons(fn, seen[0].text, Texts(seen[1..]), end);
      EmptyFile(fn, end, readCols);
      if g.Gathered? {
        ScanSeen(fn, rest, end, readCols, cut);
      }
    }
  }

  lemma EmptyFile<T>(fn: string -> Row<T>, end: End, readCols: nat)
    ensures Scan(fn, [], end, readCols) == FirstRow(fn, [], end) == AtEnd(end)
  {
  }

  /** Without the leftovers, the lines looked at answer like the lines of the file. */
  lemma {:induction false} GenuineLines<T>(
    fn: string -> Row<T>, chunks: seq<Chunk>, end: End, readCols: nat, leftover: bool)
    requires readCols > 0
    ensures FirstRow(fn, Genuine(Seen(chunks, readCols, leftover)), end)
         == FirstRow(fn, Lines(if leftover then AfterLine(chunks) else chunks), end)
    decreases |chunks|
  {
    hide TrimSpace, Colons, FirstRow, Gather, FirstLine;
    if chunks == [] {
      assert Genuine([]) == Lines([]) == [];
    } else {
      NoColons("");
      GatherMeans(chunks, "", readCols);
      assert "" + FirstLine(chunks) == FirstLine(chunks);
      var seen, g := Seen(chunks, readCols, leftover), Gather(chunks, "", readCols);
      var cut := g.Gathered? && g.isPrefix && Ignored(TrimSpace(g.line));
      if cut {
        CutAndTrimHead(g.line, FirstLine(g.rest));
      }
      var rest := if cut then g.rest else AfterLine(chunks);
      assert seen[1..] == Seen(rest, readCols, cut);
      GenuineLines(fn, rest, end, readCols, cut);
      assert Genuine(seen) == (if leftover then [] else [seen[0].text]) + Genuine(seen[1..]);
      assert leftover ==> Genuine(seen) == Genuine(seen[1..]);
      FirstRowCons(fn, seen[0].text, Genuine(seen[1..]), end);
      FirstRowCons(fn, FirstLine(chunks), Lines(AfterLine(chunks)), end);
    }
  }

  /** Leaving the leftovers out changes nothing exactly if they are harmless. */
  lemma {:induction false} HarmlessMeans<T>(fn: string -> Row<T>, seen: seq<SeenLine>, end: End)
    ensures Harmless(fn, seen, end) <==> FirstRow(fn, Texts(seen), end) == FirstRow(fn, Genuine(seen), end)
  {
    if seen != [] {
      HarmlessMeans(fn, seen[1..], end);
      assert Texts(seen) == [seen[0].text] + Texts(seen[1..]);
      if seen[0].leftover {
        assert Genuine(seen) == Genuine(seen[1..]);
      } else {
        assert Genuine(seen) == [seen[0].text] + Genuine(seen[1..]);
      }
    }
  }

  /** For every chunk stream: the reader answers what the line-by-line specification answers exactly
      if the unskipped rests of comment lines are harmless. */
  lemma ReaderMeetsLines<T(!new)>(fn: string -> Row<T>, chunks: seq<Chunk>, end: End, readCols: nat)
    requires Stable(fn, readCols) && readCols > 0
    ensures Scan(fn, chunks, end, readCols) == FirstRow(fn, Lines(chunks), end)
       <==> Harmless(fn, Seen(chunks, readCols, false), end)
  {
    ScanSeen(fn, chunks, end, readCols, false);
    GenuineLines(fn, chunks, end, readCols, false);
    HarmlessMeans(fn, Seen(chunks, readCols, false), end);
  }

  /** With every comment in one chunk there are no leftovers at all. */
  lemma {:induction false} WholeCommentsAreHarmless<T>(
    fn: string -> Row<T>, chunks: seq<Chunk>, end: End, readCols: nat)
    requires CommentsInOneChunk(chunks) && readCols > 0
    ensures Harmless(fn, Seen(chunks, readCols, false), end)
    decreases |chunks|
  {
    hide TrimSpace, Colons;
    if chunks != [] {
      NoColons("");
      GatherMeans(chunks, "", readCols);
      assert "" + FirstLine(chunks) == FirstLine(chunks);
      var g := Gather(chunks, "", readCols);
      if g.Gathered? && g.isPrefix {
        CutAndTrimHead(g.line, FirstLine(g.rest));
      }
      WholeCommentsAreHarmless(fn, AfterLine(chunks), end, readCols);
      assert Seen(chunks, readCols, false)[1..] == Seen(AfterLine(chunks), readCols, false);
    }
  }

  // --- a line that is cut ---

  lemma {:induction false} ScanSame<T>(
    f: string -> Row<T>, g: string -> Row<T>, chunks: seq<Chunk>, end: End, readCols: nat)
    requires forall w: string :: f(w) == g(w)
    ensures Scan(f, chunks, end, readCols) == Scan(g, chunks, end, readCols)
    decreases |chunks|
  {
    match Gather(chunks, "", readCols)
    case Ended =>
    case Gathered(line, isPrefix, rest) =>
      ScanSame(f, g, rest, end, readCols);
      ScanSame(f, g, AfterLine(rest), end, readCols);
  }

  predicate WholeLines(chunks: seq<Chunk>) { chunks == [] || !chunks[|chunks| - 1].isPrefix }

  /** No line has a row. */
  predicate Rowless<T>(fn: string -> Row<T>, chunks: seq<Chunk>)
    decreases |chunks|
  {
    chunks == [] || (RowOf(fn, FirstLine(chunks)).Skip? && Rowless(fn, AfterLine(chunks)))
  }

  /** The chunks from the middle of a line to its end. */
  predicate IsRest(t: seq<Chunk>) { t != [] && WholeLines(t) && AfterLine(t) == [] }

  lemma {:induction false} WholeFirst(chunks: seq<Chunk>, more: seq<Chunk>)
    requires chunks != [] && WholeLines(chunks)
    ensures FirstLine(chunks + more) == FirstLine(chunks)
    ensures AfterLine(chunks + more) == AfterLine(chunks) + more
    ensures WholeLines(AfterLine(chunks))
  {
    assert (chunks + more)[1..] == chunks[1..] + more;
    if chunks[0].isPrefix {
      WholeFirst(chunks[1..], more);
    }
  }

  /** A line without a row is passed over, and so is its rest unless it is a comment that was cut. */
  lemma RowlessLine<T(!new)>(fn: string -> Row<T>, chunks: seq<Chunk>, end: End, readCols: nat)
    requires Stable(fn, readCols) && readCols > 0 && chunks != []
    requires RowOf(fn, FirstLine(chunks)).Skip?
    requires Ignored(TrimSpace(FirstLine(chunks))) ==> !chunks[0].isPrefix
    ensures Scan(fn, chunks, end, readCols) == Scan(fn, AfterLine(chunks), end, readCols)
  {
    hide Stable, TrimSpace, Colons, AfterLine;
    GatheredRow(fn, chunks, readCols);
    NoColons("");
    GatherMeans(chunks, "", readCols);
    assert "" + FirstLine(chunks) == FirstLine(chunks);
    var g := Gather(chunks, "", readCols);
    if g.Gathered? && g.isPrefix {
      CutAndTrimHead(g.line, FirstLine(g.rest));
    }
  }

  lemma {:induction false} PrefixSkipped<T(!new)>(
    fn: string -> Row<T>, pre: seq<Chunk>, more: seq<Chunk>, end: End, readCols: nat)
    requires Stable(fn, readCols) && readCols > 0
    requires WholeLines(pre) && CommentsInOneChunk(pre) && Rowless(fn, pre)
    ensures Scan(fn, pre + more, end, readCols) == Scan(fn, more, end, readCols)
    ensures FirstRow(fn, Lines(pre + more), end) == FirstRow(fn, Lines(more), end)
    decreases |pre|
  {
    hide Stable, TrimSpace, RowOf, Scan, FirstLine, AfterLine, FirstRow;
    if pre == [] {
      assert pre + more == more;
    } else {
      WholeFirst(pre, more);
      RowlessLine(fn, pre + more, end, readCols);
      PrefixSkipped(fn, AfterLine(pre), more, end, readCols);
      FirstRowCons(fn, FirstLine(pre), Lines(AfterLine(pre) + more), end);
    }
  }

  /** A cut line: the chunks up to the cut, and what follows. */
  lemma {:induction false} GatherMore(
    head: seq<Chunk>, start: string, p: string, readCols: nat, more: seq<Chunk>)
    requires Gather(head, start, readCols) == Gathered(p, true, [])
    ensures Gather(head + more, start, readCols) == Gathered(p, true, more)
    ensures start + FirstLine(head + more) == p + FirstLine(more)
    ensures AfterLine(head + more) == AfterLine(more)
  {
    hide Colons;
    assert (head + more)[1..] == head[1..] + more;
    var line := start + head[0].text;
    assert start + FirstLine(head + more) == line + FirstLine(head[1..] + more);
    if head[1..] == [] {
      assert head[1..] + more == more;
    } else {
      GatherMore(head[1..], line, p, readCols, more);
    }
  }

  predicate ReadsRight<T(==)>(f: string -> Row<T>, g: string -> Row<T>, readCols: nat, chunks: seq<Chunk>, end: End) {
    Scan(f, chunks, end, readCols) == FirstRow(g, Lines(chunks), end)
  }

  /** Whatever the rest of the line that `head` begins, the whole input is read right. */
  ghost predicate CutIsSafe<T(!new)>(
    f: string -> Row<T>, g: string -> Row<T>, readCols: nat,
    pre: seq<Chunk>, head: seq<Chunk>, post: seq<Chunk>, end: End)
  {
    forall t: seq<Chunk> :: IsRest(t) ==> ReadsRight(f, g, readCols, pre + (head + (t + post)), end)
  }

  /** A line cut at `p` after enough colons, between lines without a row and any lines whose comments
      come in one chunk. */
  ghost predicate CutLine<T(!new)>(
    g: string -> Row<T>, readCols: nat, pre: seq<Chunk>, head: seq<Chunk>, p: string, post: seq<Chunk>)
  {
    && Stable(g, readCols) && readCols > 0
    && WholeLines(pre) && CommentsInOneChunk(pre) && Rowless(g, pre)
    && Gather(head, "", readCols) == Gathered(p, true, [])
    && CommentsInOneChunk(post)
  }

  /** The colons of a cut line, and what stays of it. */
  lemma CutLineText(head: seq<Chunk>, p: string, readCols: nat, t: seq<Chunk>, post: seq<Chunk>)
    requires Gather(head, "", readCols) == Gathered(p, true, []) && readCols > 0 && IsRest(t)
    ensures Colons(p) >= readCols
    ensures Gather(head + (t + post), "", readCols) == Gathered(p, true, t + post)
    ensures head + (t + post) != [] && FirstLine(head + (t + post)) == p + FirstLine(t)
    ensures AfterLine(head + (t + post)) == post
    ensures Ignored(TrimSpace(p + FirstLine(t))) <==> Ignored(TrimSpace(p))
  {
    hide Gather, FirstLine, AfterLine, Colons, TrimSpace;
    NoColons("");
    GatherMeans(head, "", readCols);
    GatherMore(head, "", p, readCols, t + post);
    WholeFirst(t, post);
    assert "" + FirstLine(head + (t + post)) == FirstLine(head + (t + post));
    assert [] + post == post;
    CutAndTrimHead(p, FirstLine(t));
    assert |head + (t + post)| >= |t|;
  }

  lemma OrdinaryCut<T(!new)>(
    g: string -> Row<T>, readCols: nat, pre: seq<Chunk>, head: seq<Chunk>, p: string,
    t: seq<Chunk>, post: seq<Chunk>, end: End)
    requires CutLine(g, readCols, pre, head, p, post) && IsRest(t) && !Ignored(TrimSpace(p))
    ensures ReadsRight(g, g, readCols, pre + (head + (t + post)), end)
  {
    hide Colons, TrimSpace, Gather, Lines, FirstLine, AfterLine, Scan, FirstRow, Harmless, Stable, Ignored, Rowless;
    hide WholeLines, IsRest;
    var rest := head + (t + post);
    CutLineText(head, p, readCols, t, post);
    assert CommentsInOneChunk(rest);
    WholeCommentsAreHarmless(g, rest, end, readCols);
    ReaderMeetsLines(g, rest, end, readCols);
    PrefixSkipped(g, pre, rest, end, readCols);
  }

  /** After a comment is cut, its rest is read as a line: if the rest passes for a row, it is the answer,
      where the specification goes on to the lines after the comment. */
  lemma CommentCut<T(!new)>(
    g: string -> Row<T>, readCols: nat, pre: seq<Chunk>, head: seq<Chunk>, p: string,
    row: string, post: seq<Chunk>, end: End)
    requires CutLine(g, readCols, pre, head, p, post)
    requires Ignored(TrimSpace(p)) && RowOf(g, row).Found?
    ensures var chunks := pre + (head + ([Chunk(row, false)] + post));
            && Scan(g, chunks, end, readCols) == Match(RowOf(g, row).value)
            && FirstRow(g, Lines(chunks), end) == FirstRow(g, Lines(post), end)
  {
    hide Colons, TrimSpace, FirstLine, AfterLine, Stable, Rowless, CommentsInOneChunk, FirstRow;
    var t := [Chunk(row, false)];
    var rest := head + (t + post);
    SingleRest(row, post, readCols);
    CutLineText(head, p, readCols, t, post);
    FirstRowCons(g, p + row, Lines(post), end);
    PrefixSkipped(g, pre, rest, end, readCols);
    assert Scan(g, rest, end, readCols) == Scan(g, t + post, end, readCols);
  }

  lemma SingleRest(row: string, post: seq<Chunk>, readCols: nat)
    ensures var t := [Chunk(row, false)];
            && IsRest(t) && FirstLine(t) == row
            && Gather(t + post, "", readCols) == Gathered(row, false, post)
  {
    var t := [Chunk(row, false)];
    assert row + "" == row && "" + row == row;
    assert (t + post)[1..] == post && t[1..] == [];
  }

  /** A line cut after enough colons is read right, for every rest of the line and whatever whole lines
      stand before and after it, exactly if it is not a comment: the `continue` after a comment leaves
      the rest unread, and the rest can pass for a row. There have to be two different rows, because one
      could by chance be the right answer. */
  lemma CutSafety<T(!new)>(
    f: string -> Row<T>, g: string -> Row<T>, readCols: nat, pre: seq<Chunk>, head: seq<Chunk>, p: string,
    post: seq<Chunk>, row: string, other: string, end: End)
    requires CutLine(g, readCols, pre, head, p, post) && forall w: string :: f(w) == g(w)
    requires RowOf(g, row).Found? && RowOf(g, other).Found? && RowOf(g, row) != RowOf(g, other)
    ensures CutIsSafe(f, g, readCols, pre, head, post, end) <==> !Ignored(TrimSpace(p))
  {
    hide Colons, TrimSpace, Scan, FirstRow, Stable, RowOf, CutLine, IsRest, Lines, Ignored;
    if Ignored(TrimSpace(p)) {
      var t, u := [Chunk(row, false)], [Chunk(other, false)];
      SingleRest(row, post, readCols);
      SingleRest(other, post, readCols);
      CommentCut(g, readCols, pre, head, p, row, post, end);
      CommentCut(g, readCols, pre, head, p, other, post, end);
      ScanSame(f, g, pre + (head + (t + post)), end, readCols);
      ScanSame(f, g, pre + (head + (u + post)), end, readCols);
      assert !ReadsRight(f, g, readCols, pre + (head + (t + post)), end)
          || !ReadsRight(f, g, readCols, pre + (head + (u + post)), end);
    } else {
      forall t: seq<Chunk> | IsRest(t) ensures ReadsRight(f, g, readCols, pre + (head + (t + post)), end) {
        OrdinaryCut(g, readCols, pre, head, p, t, post, end);
        ScanSame(f, g, pre + (head + (t + post)), end, readCols);
      }
    }
  }
}
