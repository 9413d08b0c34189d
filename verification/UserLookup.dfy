/** Users and groups by numeric id (resources/utils/user/user.go): the row functions the lookups use,
    and the lookups against the line-by-line specification. */
module UserLookup {
  import opened ColonFields
  import opened ColonFile
  import opened ColonLookup

  datatype Group = Group(gid: string, name: string)
  datatype User = User(uid: string, gid: string, username: string, name: string, homeDir: string)

  /** The column that holds the id looked for. */
  const ID_COLUMN := 2
  const GROUP_COLUMNS := 3
  const USER_COLUMNS := 6

  // --- numbers ---

  predicate IsDigit(c: char) { '0' <= c <= '9' }

  function DigitValue(c: char): (n: nat)
    requires IsDigit(c)
  {
    c as int - '0' as int
  }

  predicate AllDigits(s: string) { forall i :: 0 <= i < |s| ==> IsDigit(s[i]) }

  function DigitsValue(s: string): (n: nat)
    requires AllDigits(s)
  {
    if s == "" then 0 else DigitsValue(s[..|s| - 1]) * 10 + DigitValue(s[|s| - 1])
  }

  /** `strconv.Atoi` succeeds: an optional sign, digits, and a value that fits 64 bits. */
  predicate IsAtoi(s: string) {
    var negative := s != "" && s[0] == '-';
    var digits := if s != "" && (s[0] == '-' || s[0] == '+') then s[1..] else s;
    && digits != ""
    && AllDigits(digits)
    && DigitsValue(digits) <= 0x7FFF_FFFF_FFFF_FFFF + (if negative then 1 else 0)
  }

  /** The decimal digits of a number. */
  function Printed(n: nat): (s: string)
    decreases n
  {
    if n < 10 then [('0' as int + n) as char] else Printed(n / 10) + [('0' as int + n % 10) as char]
  }

  lemma {:induction false} PrintedMeans(n: nat)
    ensures Printed(n) != "" && AllDigits(Printed(n)) && DigitsValue(Printed(n)) == n
    decreases n
  {
    if n < 10 {
      assert DigitsValue(Printed(n)) == DigitsValue("") * 10 + n;
    } else {
      PrintedMeans(n / 10);
      var s := Printed(n);
      assert s[..|s| - 1] == Printed(n / 10) && DigitValue(s[|s| - 1]) == n % 10;
    }
  }

  /** A printed number is accepted, with a sign or without, exactly if it fits 64 bits. */
  lemma AtoiMeans(n: nat)
    ensures IsAtoi(Printed(n)) <==> n <= 0x7FFF_FFFF_FFFF_FFFF
    ensures IsAtoi("+" + Printed(n)) <==> n <= 0x7FFF_FFFF_FFFF_FFFF
    ensures IsAtoi("-" + Printed(n)) <==> n <= 0x8000_0000_0000_0000
  {
    PrintedMeans(n);
    hide Printed, DigitsValue;
    assert IsDigit(Printed(n)[0]);
    assert ("+" + Printed(n))[1..] == Printed(n) && ("-" + Printed(n))[1..] == Printed(n);
  }

  // --- the row functions of the program ---

  predicate Signed(name: string) { name != "" && (name[0] == '+' || name[0] == '-') }

  /** The text before the first comma. */
  function FirstPart(s: string): (r: string) {
    if s == "" || s[0] == ',' then "" else [s[0]] + FirstPart(s[1..])
  }

  function MatchGroup(id: string, line: string): (row: Row<Group>) {
    if !Contains(line, [COLON] + id + [COLON]) || Colons(line) < 3 then Skip
    else
      var parts := SplitN(line, 4);
      if |parts| < 4 || parts[0] == "" || parts[ID_COLUMN] != id || Signed(parts[0]) then Skip
      else if !IsAtoi(parts[2]) then Skip
      else Found(Group(parts[2], parts[0]))
  }

  function MatchUser(id: string, line: string): (row: Row<User>) {
    if !Contains(line, [COLON] + id + [COLON]) || Colons(line) < 6 then Skip
    else
      var parts := SplitN(line, 7);
      if |parts| < 6 || parts[ID_COLUMN] != id || parts[0] == "" || Signed(parts[0]) then Skip
      else if !IsAtoi(parts[2]) || !IsAtoi(parts[3]) then Skip
      else Found(User(parts[2], parts[3], parts[0], FirstPart(parts[4]), parts[5]))
  }

  // --- the rows by their fields ---

  /** A group row: name, password, id, members; the name is there and carries no sign. */
  function GroupRow(id: string, line: string): (row: Row<Group>) {
    var f := Split(line);
    if |f| >= 4 && f[2] == id && IsAtoi(f[2]) && f[0] != "" && !Signed(f[0])
    then Found(Group(f[2], f[0])) else Skip
  }

  /** A user row: name, password, id, group id, comment, home directory, shell. */
  function UserRow(id: string, line: string): (row: Row<User>) {
    var f := Split(line);
    if |f| >= 7 && f[2] == id && IsAtoi(f[2]) && IsAtoi(f[3]) && f[0] != "" && !Signed(f[0])
    then Found(User(f[2], f[3], f[0], FirstPart(f[4]), f[5])) else Skip
  }

  function GroupRows(id: string): string -> Row<Group> { line => GroupRow(id, line) }

  function UserRows(id: string): string -> Row<User> { line => UserRow(id, line) }

  function GroupMatcher(id: string): string -> Row<Group> { line => MatchGroup(id, line) }

  function UserMatcher(id: string): string -> Row<User> { line => MatchUser(id, line) }

  // --- what the rows mean ---

  /** A line `name:password:gid:rest` is the row of the group with this name and id, provided that the id
      is the one looked for and a number, and that there is a name and it carries no sign. */
  lemma GroupRowMeans(id: string, name: string, password: string, gid: string, rest: string)
    requires ColonFree(name) && ColonFree(password) && ColonFree(gid)
    ensures GroupRow(id, name + ":" + (password + ":" + (gid + ":" + rest))) ==
            if gid == id && IsAtoi(gid) && name != "" && name[0] != '+' && name[0] != '-'
            then Found(Group(gid, name)) else Skip
  {
    hide Split, IsAtoi;
    SplitFirst(name, password + ":" + (gid + ":" + rest));
    SplitFirst(password, gid + ":" + rest);
    SplitFirst(gid, rest);
  }

  lemma FirstPartStep(s: string)
    ensures s == "" || s[0] == ',' ==> FirstPart(s) == ""
    ensures s != "" && s[0] != ',' ==> FirstPart(s) == [s[0]] + FirstPart(s[1..])
  {
  }

  /** What comes before the first comma. */
  lemma {:induction false} FirstPartMeans(full: string, tail: string)
    requires ',' !in full && (tail == "" || tail[0] == ',')
    ensures FirstPart(full + tail) == full
  {
    hide FirstPart;
    FirstPartStep(full + tail);
    if full == "" {
      assert full + tail == tail;
    } else {
      var rest := full[1..];
      assert full == [full[0]] + rest && (full + tail)[1..] == rest + tail;
      FirstPartMeans(rest, tail);
    }
  }

  /** A line `name:password:uid:gid:comment:home:shell` is the row of the user with these fields, whose
      full name is the comment up to its first comma, under the same conditions on both ids. */
  lemma UserRowMeans(
    id: string, name: string, password: string, uid: string, gid: string, full: string, tail: string,
    home: string, shell: string)
    requires ColonFree(name) && ColonFree(password) && ColonFree(uid) && ColonFree(gid)
    requires ColonFree(full + tail) && ColonFree(home)
    requires ',' !in full && (tail == "" || tail[0] == ',')
    ensures var more := full + tail + ":" + (home + ":" + shell);
            var line := name + ":" + (password + ":" + (uid + ":" + (gid + ":" + more)));
            UserRow(id, line)
            == if uid == id && IsAtoi(uid) && IsAtoi(gid) && name != "" && name[0] != '+' && name[0] != '-'
               then Found(User(uid, gid, name, full, home)) else Skip
  {
    hide Split, IsAtoi, FirstPart;
    var comment := full + tail;
    SplitFirst(name, password + ":" + (uid + ":" + (gid + ":" + (comment + ":" + (home + ":" + shell)))));
    SplitFirst(password, uid + ":" + (gid + ":" + (comment + ":" + (home + ":" + shell))));
    SplitFirst(uid, gid + ":" + (comment + ":" + (home + ":" + shell)));
    SplitFirst(gid, comment + ":" + (home + ":" + shell));
    SplitFirst(comment, home + ":" + shell);
    SplitFirst(home, shell);
    FirstPartMeans(full, tail);
  }

  /** A line with too few fields has no row. */
  lemma ShortLines(id: string, line: string)
    ensures Colons(line) < 3 ==> GroupRow(id, line) == Skip
    ensures Colons(line) < 6 ==> UserRow(id, line) == Skip
  {
    SplitCount(line);
  }

  // --- the prefilter and the limited split change nothing ---

  /** Below the limit, a limited split agrees with the full one. */
  lemma SplitNPrefix(s: string, n: nat)
    requires n > 0 && Colons(s) >= n - 1
    ensures |SplitN(s, n)| == n && |Split(s)| >= n
    ensures forall k :: 0 <= k < n - 1 ==> SplitN(s, n)[k] == Split(s)[k]
  {
    SplitCount(s);
    SplitNFields(s, n);
    forall k | 0 <= k < n - 1 ensures SplitN(s, n)[k] == Split(s)[k] {
      assert SplitN(s, n)[k] == SplitN(s, n)[..n - 1][k];
    }
  }

  lemma MatchGroupMeans(id: string, line: string)
    ensures MatchGroup(id, line) == GroupRow(id, line)
  {
    hide Split, SplitN, IsAtoi, Colons, Contains;
    SplitCount(line);
    if Colons(line) >= 3 {
      SplitNPrefix(line, 4);
      FieldIsContained(line, 2);
    }
  }

  lemma MatchUserMeans(id: string, line: string)
    ensures MatchUser(id, line) == UserRow(id, line)
  {
    hide Split, SplitN, IsAtoi, Colons, Contains;
    SplitCount(line);
    if Colons(line) >= 6 {
      SplitNPrefix(line, 7);
      FieldIsContained(line, 2);
    }
  }

  // --- cutting a long line changes nothing ---

  lemma GroupRowsStable(id: string)
    ensures Stable(GroupRows(id), GROUP_COLUMNS)
  {
    forall p: string, t: string ensures StableAt(GroupRows(id), GROUP_COLUMNS, p, t) {
      GroupRowCut(id, p, t);
    }
    forall w: string | Colons(w) < GROUP_COLUMNS ensures GroupRows(id)(w).Skip? {
      SplitCount(w);
    }
  }

  lemma GroupRowCut(id: string, p: string, t: string)
    ensures StableAt(GroupRows(id), GROUP_COLUMNS, p, t)
  {
    hide Split, TrimSpace, Colons, IsAtoi;
    if Colons(p) >= GROUP_COLUMNS {
      TrimSpaceColons(p);
      TrimSpaceColons(p + t);
      ColonsAppend(p, t);
      SplitCount(TrimSpace(p));
      SplitCount(TrimSpace(p + t));
      CutAndTrim(p, t, 0);
      CutAndTrim(p, t, 2);
    }
  }

  lemma UserRowsStable(id: string)
    ensures Stable(UserRows(id), USER_COLUMNS)
  {
    forall p: string, t: string ensures StableAt(UserRows(id), USER_COLUMNS, p, t) {
      UserRowCut(id, p, t);
    }
    forall w: string | Colons(w) < USER_COLUMNS ensures UserRows(id)(w).Skip? {
      SplitCount(w);
    }
  }

  lemma UserRowCut(id: string, p: string, t: string)
    ensures StableAt(UserRows(id), USER_COLUMNS, p, t)
  {
    hide Split, TrimSpace, Colons, IsAtoi, FirstPart;
    if Colons(p) >= USER_COLUMNS {
      TrimSpaceColons(p);
      TrimSpaceColons(p + t);
      ColonsAppend(p, t);
      SplitCount(TrimSpace(p));
      SplitCount(TrimSpace(p + t));
      CutAndTrim(p, t, 0);
      CutAndTrim(p, t, 2);
      CutAndTrim(p, t, 3);
      CutAndTrim(p, t, 4);
      CutAndTrim(p, t, 5);
    }
  }

  lemma GroupMatchersAgree(id: string)
    ensures Stable(GroupRows(id), GROUP_COLUMNS) && forall w: string :: GroupMatcher(id)(w) == GroupRows(id)(w)
  {
    GroupRowsStable(id);
    forall w: string ensures GroupMatcher(id)(w) == GroupRows(id)(w) {
      MatchGroupMeans(id, w);
    }
  }

  lemma UserMatchersAgree(uid: string)
    ensures Stable(UserRows(uid), USER_COLUMNS) && forall w: string :: UserMatcher(uid)(w) == UserRows(uid)(w)
  {
    UserRowsStable(uid);
    forall w: string ensures UserMatcher(uid)(w) == UserRows(uid)(w) {
      MatchUserMeans(uid, w);
    }
  }

  // --- the lookups ---

  /** The answer of the group lookup from these lines. */
  ghost predicate GroupAnswers(id: string, lines: seq<string>, end: End, r: Lookup<Group>) {
    Answers(GroupRows(id), lines, end, Failed("Unknown groupId Error, GID: " + id), r)
  }

  ghost predicate UserAnswers(uid: string, lines: seq<string>, end: End, r: Lookup<User>) {
    if IsAtoi(uid) then Answers(UserRows(uid), lines, end, Failed("Unknown UserId Error, UID: " + uid), r)
    else r == Failed("user: invalid userid " + uid)
  }

  /** Replacing "no match" by the error of an unknown id. */
  lemma AnswersUnknown<T(!new)>(fn: string -> Row<T>, lines: seq<string>, end: End, unknown: Lookup<T>)
    ensures var r := FirstRow(fn, lines, end); Answers(fn, lines, end, unknown, if r.NoMatch? then unknown else r)
  {
    hide FirstRow, RowOf;
    FirstRowMeans(fn, lines, end);
    if FirstRow(fn, lines, end).NoMatch? {
      forall i: nat | FirstRowAt(fn, lines, i) ensures false {
        assert false;
      }
    }
  }

  /** The scan with the program's row function answers the specification exactly if the unskipped
      rests of comments are harmless. */
  lemma GroupScan(id: string, chunks: seq<Chunk>, end: End)
    ensures Scan(GroupMatcher(id), chunks, end, GROUP_COLUMNS) == FirstRow(GroupRows(id), Lines(chunks), end)
       <==> Harmless(GroupRows(id), Seen(chunks, GROUP_COLUMNS, false), end)
    ensures Scan(GroupMatcher(id), chunks, end, GROUP_COLUMNS)
         == FirstRow(GroupRows(id), Texts(Seen(chunks, GROUP_COLUMNS, false)), end)
  {
    hide Scan, FirstRow, Texts, Seen, Lines, Harmless, MatchGroup, GroupRow, Stable;
    GroupMatchersAgree(id);
    ScanSame(GroupMatcher(id), GroupRows(id), chunks, end, GROUP_COLUMNS);
    ScanSeen(GroupRows(id), chunks, end, GROUP_COLUMNS, false);
    ReaderMeetsLines(GroupRows(id), chunks, end, GROUP_COLUMNS);
  }

  lemma UserScan(id: string, chunks: seq<Chunk>, end: End)
    ensures Scan(UserMatcher(id), chunks, end, USER_COLUMNS) == FirstRow(UserRows(id), Lines(chunks), end)
       <==> Harmless(UserRows(id), Seen(chunks, USER_COLUMNS, false), end)
    ensures Scan(UserMatcher(id), chunks, end, USER_COLUMNS)
         == FirstRow(UserRows(id), Texts(Seen(chunks, USER_COLUMNS, false)), end)
  {
    hide Scan, FirstRow, Texts, Seen, Lines, Harmless, MatchUser, UserRow, Stable;
    UserMatchersAgree(id);
    ScanSame(UserMatcher(id), UserRows(id), chunks, end, USER_COLUMNS);
    ScanSeen(UserRows(id), chunks, end, USER_COLUMNS, false);
    ReaderMeetsLines(UserRows(id), chunks, end, USER_COLUMNS);
  }

  /** For any chunks, however the lines are cut: the lookup answers from the first line it looks at that
      has a row. This is what the specification answers if every comment arrives in one chunk, and more
      generally whenever the unskipped rests of comments are harmless. */
  method FindGroupId(id: string, rd: LineReader) returns (r: Lookup<Group>)
    requires rd.Valid() && rd.pos == 0
    modifies rd
    ensures GroupAnswers(id, Texts(Seen(rd.chunks, GROUP_COLUMNS, false)), rd.end, r)
    ensures Harmless(GroupRows(id), Seen(rd.chunks, GROUP_COLUMNS, false), rd.end) ==>
              GroupAnswers(id, Lines(rd.chunks), rd.end, r)
    ensures CommentsInOneChunk(rd.chunks) ==> GroupAnswers(id, Lines(rd.chunks), rd.end, r)
  {
    hide Scan, FirstRow, Texts, Seen, Lines, Harmless, CommentsInOneChunk, Answers, GroupMatcher, GroupRows;
    ghost var unknown := Failed("Unknown groupId Error, GID: " + id);
    GroupScan(id, rd.chunks, rd.end);
    AnswersUnknown(GroupRows(id), Texts(Seen(rd.chunks, GROUP_COLUMNS, false)), rd.end, unknown);
    AnswersUnknown(GroupRows(id), Lines(rd.chunks), rd.end, unknown);
    if CommentsInOneChunk(rd.chunks) {
      WholeCommentsAreHarmless(GroupRows(id), rd.chunks, rd.end, GROUP_COLUMNS);
    }
    r := ReadColonFile(rd, GroupMatcher(id), GROUP_COLUMNS);
    assert rd.chunks[0..] == rd.chunks;
    if r.NoMatch? {
      r := Failed("Unknown groupId Error, GID: " + id);
    }
  }

  method FindUserId(uid: string, rd: LineReader) returns (r: Lookup<User>)
    requires rd.Valid() && rd.pos == 0
    modifies rd
    ensures UserAnswers(uid, Texts(Seen(rd.chunks, USER_COLUMNS, false)), rd.end, r)
    ensures Harmless(UserRows(uid), Seen(rd.chunks, USER_COLUMNS, false), rd.end) ==>
              UserAnswers(uid, Lines(rd.chunks), rd.end, r)
    ensures CommentsInOneChunk(rd.chunks) ==> UserAnswers(uid, Lines(rd.chunks), rd.end, r)
  {
    hide Scan, FirstRow, Texts, Seen, Lines, Harmless, CommentsInOneChunk, Answers, UserMatcher, UserRows, IsAtoi;
    ghost var unknown := Failed("Unknown UserId Error, UID: " + uid);
    UserScan(uid, rd.chunks, rd.end);
    AnswersUnknown(UserRows(uid), Texts(Seen(rd.chunks, USER_COLUMNS, false)), rd.end, unknown);
    AnswersUnknown(UserRows(uid), Lines(rd.chunks), rd.end, unknown);
    if CommentsInOneChunk(rd.chunks) {
      WholeCommentsAreHarmless(UserRows(uid), rd.chunks, rd.end, USER_COLUMNS);
    }
    if !IsAtoi(uid) {
      return Failed("user: invalid userid " + uid);
    }
    r := ReadColonFile(rd, UserMatcher(uid), USER_COLUMNS);
    assert rd.chunks[0..] == rd.chunks;
    if r.NoMatch? {
      r := Failed("Unknown UserId Error, UID: " + uid);
    }
  }

  // --- a comment that is cut ---

  lemma SplitAt(s: string, i: nat)
    requires i < |s| && s[i] == COLON && forall j :: 0 <= j < i ==> s[j] != COLON
    ensures Split(s) == [s[..i]] + Split(s[i + 1..])
  {
    assert IndexColon(s) == i;
  }

  lemma SplitEmpty()
    ensures Split("") == [""]
  {
  }

  /** A string that starts and ends with something other than white space is not trimmed. */
  lemma NothingToTrim(s: string)
    requires s != "" && !IsSpace(s[0]) && !IsSpace(s[|s| - 1])
    ensures TrimSpace(s) == s
  {
  }

  lemma AtoiHasNoColon(id: string)
    requires IsAtoi(id)
    ensures forall j :: 0 <= j < |id| ==> id[j] != COLON
  {
    var digits := if id[0] == '-' || id[0] == '+' then id[1..] else id;
    forall j | 0 <= j < |id| ensures id[j] != COLON {
      if id[0] != '-' && id[0] != '+' {
        assert IsDigit(digits[j]);
      } else if j > 0 {
        assert id[j] == digits[j - 1] && IsDigit(digits[j - 1]);
      }
    }
  }

  /** What the rest of a comment can pass for. */
  function GroupLine(name: char, id: string): (line: string) { [name] + "::" + id + ":" }

  function UserLine(name: char, uid: string): (line: string) { [name] + "::" + uid + ":0:::" }

  predicate IsName(name: char) { name == 'x' || name == 'y' }

  /** The first three fields of such a line. */
  lemma LineFields(name: char, id: string, rest: string)
    requires IsAtoi(id) && IsName(name)
    ensures Split([name] + "::" + id + ":" + rest) == [[name], "", id] + Split(rest)
  {
    hide Split, IsAtoi;
    var line := [name] + "::" + id + ":" + rest;
    AtoiHasNoColon(id);
    SplitAt(line, 1);
    assert line[..1] == [name] && line[2..] == ":" + (id + ":" + rest);
    SplitAt(line[2..], 0);
    assert line[2..][1..] == id + ":" + rest;
    SplitAt(id + ":" + rest, |id|);
    assert (id + ":" + rest)[..|id|] == id && (id + ":" + rest)[|id| + 1..] == rest;
  }

  lemma GroupLineRow(name: char, id: string)
    requires IsAtoi(id) && IsName(name)
    ensures RowOf(GroupRows(id), GroupLine(name, id)) == Found(Group(id, [name]))
  {
    hide Split, IsAtoi, TrimSpace;
    LineFields(name, id, "");
    assert [name] + "::" + id + ":" + "" == GroupLine(name, id);
    SplitEmpty();
    NothingToTrim(GroupLine(name, id));
  }

  lemma UserLineRow(name: char, uid: string)
    requires IsAtoi(uid) && IsName(name)
    ensures RowOf(UserRows(uid), UserLine(name, uid)) == Found(User(uid, "0", [name], "", ""))
  {
    hide Split, IsAtoi, TrimSpace;
    LineFields(name, uid, "0:::");
    assert [name] + "::" + uid + ":" + "0:::" == UserLine(name, uid);
    LastFields();
    ZeroIsAtoi();
    NothingToTrim(UserLine(name, uid));
  }

  lemma LastFields()
    ensures Split("0:::") == ["0", "", "", ""]
  {
    hide Split;
    SplitAt("0:::", 1);
    assert "0:::"[..1] == "0" && "0:::"[2..] == "::";
    SplitAt("::", 0);
    assert "::"[1..] == ":";
    SplitAt(":", 0);
    assert ":"[1..] == "";
    SplitEmpty();
  }

  lemma ZeroIsAtoi()
    ensures IsAtoi("0") && IsAtoi("5")
  {
    assert DigitsValue("0") == DigitsValue("") * 10 + 0;
    assert DigitsValue("5") == DigitsValue("") * 10 + 5;
  }

  /** A group line cut at `p` after three colons, between any whole lines without a row for the group and
      any lines whose comments come in one chunk, is read right, for every rest of the line, exactly if it
      is not a comment. */
  lemma GroupCutSafety(id: string, pre: seq<Chunk>, head: seq<Chunk>, p: string, post: seq<Chunk>, end: End)
    requires WholeLines(pre) && CommentsInOneChunk(pre) && Rowless(GroupRows(id), pre)
    requires Gather(head, "", GROUP_COLUMNS) == Gathered(p, true, []) && CommentsInOneChunk(post)
    requires IsAtoi(id)
    ensures CutIsSafe(GroupMatcher(id), GroupRows(id), GROUP_COLUMNS, pre, head, post, end) <==> !Ignored(TrimSpace(p))
  {
    hide Gather, Rowless, CommentsInOneChunk, WholeLines, Stable, IsAtoi, RowOf, TrimSpace, CutIsSafe;
    hide GroupMatcher, GroupRows;
    GroupMatchersAgree(id);
    GroupLineRow('x', id);
    GroupLineRow('y', id);
    CutSafety(GroupMatcher(id), GroupRows(id), GROUP_COLUMNS, pre, head, p, post,
              GroupLine('x', id), GroupLine('y', id), end);
  }

  /** A user line cut after six colons, likewise. */
  lemma UserCutSafety(uid: string, pre: seq<Chunk>, head: seq<Chunk>, p: string, post: seq<Chunk>, end: End)
    requires WholeLines(pre) && CommentsInOneChunk(pre) && Rowless(UserRows(uid), pre)
    requires Gather(head, "", USER_COLUMNS) == Gathered(p, true, []) && CommentsInOneChunk(post)
    requires IsAtoi(uid)
    ensures CutIsSafe(UserMatcher(uid), UserRows(uid), USER_COLUMNS, pre, head, post, end) <==> !Ignored(TrimSpace(p))
  {
    hide Gather, Rowless, CommentsInOneChunk, WholeLines, Stable, IsAtoi, RowOf, TrimSpace, CutIsSafe;
    hide UserMatcher, UserRows;
    UserMatchersAgree(uid);
    UserLineRow('x', uid);
    UserLineRow('y', uid);
    CutSafety(UserMatcher(uid), UserRows(uid), USER_COLUMNS, pre, head, p, post,
              UserLine('x', uid), UserLine('y', uid), end);
  }

  /** A line in two chunks, cut at `p`. */
  function InTwo(p: string, t: string): (chunks: seq<Chunk>) { [Chunk(p, true), Chunk(t, false)] }

  lemma TwoChunks(p: string, t: string, readCols: nat)
    requires Colons(p) >= readCols
    ensures Gather([Chunk(p, true)], "", readCols) == Gathered(p, true, [])
    ensures [] + ([Chunk(p, true)] + ([Chunk(t, false)] + [])) == InTwo(p, t)
    ensures Lines(InTwo(p, t)) == [p + t]
  {
    hide Colons;
    assert "" + p == p && t + "" == t;
    assert InTwo(p, t)[1..] == [Chunk(t, false)];
    assert FirstLine(InTwo(p, t)[1..]) == t;
  }

  /** For every comment cut after three colons: some rest of it is returned as a group, though the line
      has no row. */
  lemma GroupCommentCut(id: string, p: string, end: End)
    requires Colons(p) >= GROUP_COLUMNS && IsAtoi(id) && Ignored(TrimSpace(p))
    ensures var chunks := InTwo(p, GroupLine('x', id));
            && Lines(chunks) == [p + GroupLine('x', id)]
            && Scan(GroupMatcher(id), chunks, end, GROUP_COLUMNS) == Match(Group(id, "x"))
            && FirstRow(GroupRows(id), Lines(chunks), end) == AtEnd(end)
  {
    hide Colons, TrimSpace, Gather, Lines, Scan, RowOf, Stable, IsAtoi, GroupMatcher, GroupRows;
    var row := GroupLine('x', id);
    TwoChunks(p, row, GROUP_COLUMNS);
    GroupMatchersAgree(id);
    GroupLineRow('x', id);
    CommentCut(GroupRows(id), GROUP_COLUMNS, [], [Chunk(p, true)], p, row, [], end);
    ScanSame(GroupMatcher(id), GroupRows(id), InTwo(p, row), end, GROUP_COLUMNS);
    NoLines(GroupRows(id), end);
  }

  /** For every comment cut after six colons: some rest of it is returned as a user. */
  lemma UserCommentCut(uid: string, p: string, end: End)
    requires Colons(p) >= USER_COLUMNS && IsAtoi(uid) && Ignored(TrimSpace(p))
    ensures var chunks := InTwo(p, UserLine('x', uid));
            && Lines(chunks) == [p + UserLine('x', uid)]
            && Scan(UserMatcher(uid), chunks, end, USER_COLUMNS) == Match(User(uid, "0", "x", "", ""))
            && FirstRow(UserRows(uid), Lines(chunks), end) == AtEnd(end)
  {
    hide Colons, TrimSpace, Gather, Lines, Scan, RowOf, Stable, IsAtoi, UserMatcher, UserRows;
    var row := UserLine('x', uid);
    TwoChunks(p, row, USER_COLUMNS);
    UserMatchersAgree(uid);
    UserLineRow('x', uid);
    CommentCut(UserRows(uid), USER_COLUMNS, [], [Chunk(p, true)], p, row, [], end);
    ScanSame(UserMatcher(uid), UserRows(uid), InTwo(p, row), end, USER_COLUMNS);
    NoLines(UserRows(uid), end);
  }

  lemma NoLines<T>(fn: string -> Row<T>, end: End)
    ensures FirstRow(fn, Lines([]), end) == AtEnd(end)
  {
  }

  /** The default size of the reader's buffer: a line of ASCII text is only cut after so many
      characters. */
  const BUFFER_SIZE := 4096

  function Repeat(c: char, n: nat): (s: string)
    ensures |s| == n && forall i :: 0 <= i < n ==> s[i] == c
  {
    seq(n, i => c)
  }

  lemma {:induction false} ColonsOfRepeat(n: nat)
    ensures Colons(Repeat(COLON, n)) == n
  {
    if n > 0 {
      ColonsOfRepeat(n - 1);
      assert Repeat(COLON, n)[1..] == Repeat(COLON, n - 1);
    }
  }

  /** The beginning of a comment that fills the buffer. */
  function LongComment(): (p: string) { "#" + Repeat(COLON, 6) + Repeat('a', BUFFER_SIZE - 7) }

  lemma LongCommentIsCut()
    ensures |LongComment()| == BUFFER_SIZE && Colons(LongComment()) >= 6 && Ignored(TrimSpace(LongComment()))
  {
    hide TrimSpace, Colons;
    var p := LongComment();
    ColonsOfRepeat(6);
    ColonsAppend("#" + Repeat(COLON, 6), Repeat('a', BUFFER_SIZE - 7));
    ColonsAppend("#", Repeat(COLON, 6));
    assert p[0] == '#' && p[|p| - 1] == 'a';
    NothingToTrim(p);
  }

  /** With such a comment, the lookup of group 5 and that of user 5 answer x, which is in no line. */
  lemma CutCommentCounterexample()
    ensures |LongComment()| == BUFFER_SIZE
    ensures var chunks := InTwo(LongComment(), "x::5:");
            && Lines(chunks) == [LongComment() + "x::5:"]
            && Scan(GroupMatcher("5"), chunks, Eof, GROUP_COLUMNS) == Match(Group("5", "x"))
            && FirstRow(GroupRows("5"), Lines(chunks), Eof) == NoMatch
    ensures var chunks := InTwo(LongComment(), "x::5:0:::");
            && Lines(chunks) == [LongComment() + "x::5:0:::"]
            && Scan(UserMatcher("5"), chunks, Eof, USER_COLUMNS) == Match(User("5", "0", "x", "", ""))
            && FirstRow(UserRows("5"), Lines(chunks), Eof) == NoMatch
  {
    hide TrimSpace, Scan, FirstRow, Lines, Colons, LongComment, IsAtoi, GroupMatcher, GroupRows, UserMatcher, UserRows;
    LongCommentIsCut();
    ZeroIsAtoi();
    assert GroupLine('x', "5") == "x::5:" && UserLine('x', "5") == "x::5:0:::";
    GroupCommentCut("5", LongComment(), Eof);
    UserCommentCut("5", LongComment(), Eof);
  }
}
