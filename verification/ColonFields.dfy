/** Lines of colon-separated fields, as in /etc/passwd and /etc/group (resources/utils/user/user.go):
    splitting, trimming, and what stays the same when a line is cut after enough colons. */
module ColonFields {

  const COLON := ':'

  predicate IsSpace(c: char) {
    c == ' ' || '\U{09}' <= c <= '\U{0D}' || c == '\U{85}' || c == '\U{A0}' || c == '\U{1680}'
    || '\U{2000}' <= c <= '\U{200A}' || c == '\U{2028}' || c == '\U{2029}' || c == '\U{202F}'
    || c == '\U{205F}' || c == '\U{3000}'
  }

  function TrimLeft(s: string): (r: string) {
    if s == "" then "" else if IsSpace(s[0]) then TrimLeft(s[1..]) else s
  }

  function TrimRight(s: string): (r: string) {
    if s == "" then "" else if IsSpace(s[|s| - 1]) then TrimRight(s[..|s| - 1]) else s
  }

  function TrimSpace(s: string): (r: string) { TrimRight(TrimLeft(s)) }

  function Colons(s: string): (n: nat) {
    if s == "" then 0 else (if s[0] == COLON then 1 else 0) + Colons(s[1..])
  }

  /** Position of the first colon, or the length of the string. */
  function IndexColon(s: string): (i: nat)
    ensures i <= |s|
    ensures forall j :: 0 <= j < i ==> s[j] != COLON
    ensures i < |s| ==> s[i] == COLON
  {
    if s == "" || s[0] == COLON then 0 else 1 + IndexColon(s[1..])
  }

  /** All fields. */
  function Split(s: string): (r: seq<string>)
    ensures |r| > 0
  {
    var i := IndexColon(s);
    if i == |s| then [s] else [s[..i]] + Split(s[i + 1..])
  }

  /** At most `n` fields, the last one being the rest of the line. */
  function SplitN(s: string, n: nat): (r: seq<string>)
    requires n > 0
    ensures |r| > 0
    decreases n
  {
    var i := IndexColon(s);
    if n == 1 || i == |s| then [s] else [s[..i]] + SplitN(s[i + 1..], n - 1)
  }

  predicate At(s: string, part: string, i: int) {
    0 <= i && i + |part| <= |s| && s[i..i + |part|] == part
  }

  predicate Contains(s: string, part: string) {
    exists i :: 0 <= i <= |s| && At(s, part, i)
  }

  // --- counting and splitting ---

  lemma {:induction false} ColonsAppend(s: string, t: string)
    ensures Colons(s + t) == Colons(s) + Colons(t)
  {
    if s == "" {
      assert s + t == t;
    } else {
      ColonsAppend(s[1..], t);
      assert (s + t)[1..] == s[1..] + t;
    }
  }

  lemma {:induction false} NoColons(s: string)
    requires forall j :: 0 <= j < |s| ==> s[j] != COLON
    ensures Colons(s) == 0
  {
    if s != "" {
      NoColons(s[1..]);
    }
  }

  lemma HeadColon(s: string)
    requires s != "" && s[0] == COLON
    ensures Colons(s) == 1 + Colons(s[1..])
  {
  }

  /** What the first colon divides off. */
  lemma ColonsAfterFirst(s: string)
    requires IndexColon(s) < |s|
    ensures Colons(s) == 1 + Colons(s[IndexColon(s) + 1..])
  {
    hide IndexColon, Colons;
    var i := IndexColon(s);
    var front, tail := s[..i], s[i..];
    assert s == front + tail && tail[1..] == s[i + 1..];
    NoColons(front);
    HeadColon(tail);
    ColonsAppend(front, tail);
  }

  predicate ColonFree(s: string) { COLON !in s }

  /** Fields with colons in between. */
  function Joined(fields: seq<string>): (s: string) {
    if fields == [] then "" else if |fields| == 1 then fields[0] else fields[0] + [COLON] + Joined(fields[1..])
  }

  lemma JoinedStep(field: string, fields: seq<string>)
    requires fields != []
    ensures Joined([field] + fields) == field + [COLON] + Joined(fields)
  {
    assert ([field] + fields)[1..] == fields;
  }

  lemma FrontIsFree(s: string, i: nat)
    requires i <= |s| && forall j :: 0 <= j < i ==> s[j] != COLON
    ensures ColonFree(s[..i])
  {
    assert forall j :: 0 <= j < i ==> s[..i][j] == s[j];
  }

  lemma PutTogether(s: string, i: nat)
    requires i < |s| && s[i] == COLON
    ensures s == s[..i] + [COLON] + s[i + 1..]
  {
  }

  lemma SplitWhole(s: string)
    requires IndexColon(s) == |s|
    ensures Split(s) == [s]
  {
    hide IndexColon;
  }

  lemma SplitAtColon(s: string)
    requires IndexColon(s) < |s|
    ensures Split(s) == [s[..IndexColon(s)]] + Split(s[IndexColon(s) + 1..])
  {
    hide IndexColon;
  }

  /** What splitting means: the fields contain no colon, and joined with colons they are the line. */
  lemma {:induction false} SplitMeans(s: string)
    ensures Joined(Split(s)) == s && forall i :: 0 <= i < |Split(s)| ==> ColonFree(Split(s)[i])
    decreases |s|
  {
    hide Split, IndexColon, ColonFree, Joined;
    var i := IndexColon(s);
    FrontIsFree(s, i);
    if i < |s| {
      SplitAtColon(s);
      PutTogether(s, i);
      SplitMeans(s[i + 1..]);
      JoinedStep(s[..i], Split(s[i + 1..]));
    } else {
      SplitWhole(s);
      JoinedOne(s);
      assert s[..i] == s;
    }
  }

  lemma JoinedOne(field: string)
    ensures Joined([field]) == field
  {
  }

  /** The fields of a line that starts with a field of its own. */
  lemma SplitFirst(field: string, rest: string)
    requires ColonFree(field)
    ensures Split(field + [COLON] + rest) == [field] + Split(rest)
  {
    var s := field + [COLON] + rest;
    assert IndexColon(s) == |field| by {
      assert s[|field|] == COLON;
      assert forall j :: 0 <= j < |field| ==> s[j] == field[j] && field[j] in field;
    }
    assert s[..|field|] == field && s[|field| + 1..] == rest;
  }

  lemma {:induction false} SplitCount(s: string)
    ensures |Split(s)| == Colons(s) + 1
    decreases |s|
  {
    var i := IndexColon(s);
    if i == |s| {
      NoColons(s);
    } else {
      ColonsAfterFirst(s);
      SplitCount(s[i + 1..]);
    }
  }

  /** Splitting with a limit changes nothing but the last field. */
  lemma {:induction false} SplitNFields(s: string, n: nat)
    requires n > 0
    ensures |SplitN(s, n)| == if n <= |Split(s)| then n else |Split(s)|
    ensures n <= |Split(s)| ==> SplitN(s, n)[..n - 1] == Split(s)[..n - 1]
    decreases n
  {
    hide Split, SplitN, IndexColon;
    var i := IndexColon(s);
    SplitNStep(s, n);
    if i == |s| {
      SplitWhole(s);
    } else {
      SplitAtColon(s);
      if n > 1 {
        SplitNFields(s[i + 1..], n - 1);
        var rest, restN := Split(s[i + 1..]), SplitN(s[i + 1..], n - 1);
        if n <= |Split(s)| {
          assert ([s[..i]] + restN)[..n - 1] == [s[..i]] + restN[..n - 2];
          assert ([s[..i]] + rest)[..n - 1] == [s[..i]] + rest[..n - 2];
        }
      }
    }
  }

  lemma SplitNStep(s: string, n: nat)
    requires n > 0
    ensures n == 1 || IndexColon(s) == |s| ==> SplitN(s, n) == [s]
    ensures n > 1 && IndexColon(s) < |s| ==>
              SplitN(s, n) == [s[..IndexColon(s)]] + SplitN(s[IndexColon(s) + 1..], n - 1)
  {
    hide IndexColon;
  }

  lemma IndexColonAppend(p: string, t: string)
    requires IndexColon(p) < |p|
    ensures IndexColon(p + t) == IndexColon(p)
  {
    assert (p + t)[IndexColon(p)] == COLON;
    assert forall j :: 0 <= j < IndexColon(p) ==> (p + t)[j] == p[j];
  }

  lemma SomeColon(s: string)
    requires Colons(s) > 0
    ensures IndexColon(s) < |s|
  {
    if IndexColon(s) == |s| {
      NoColons(s);
    }
  }

  /** One step of `Split`: the field before the first colon, then the fields of the rest. */
  lemma SplitStep(s: string, k: nat)
    requires IndexColon(s) < |s|
    ensures |Split(s)| == 1 + |Split(s[IndexColon(s) + 1..])|
    ensures Split(s)[0] == s[..IndexColon(s)]
    ensures 0 < k < |Split(s)| ==> Split(s)[k] == Split(s[IndexColon(s) + 1..])[k - 1]
  {
    var i := IndexColon(s);
    assert Split(s) == [s[..i]] + Split(s[i + 1..]);
    hide Split, IndexColon;
  }

  /** Cutting a line anywhere after colon number `k` keeps field `k`. */
  lemma {:induction false} CutKeepsField(p: string, t: string, k: nat)
    requires Colons(p) > k
    ensures k < |Split(p)| && k < |Split(p + t)|
    ensures Split(p)[k] == Split(p + t)[k]
    decreases k
  {
    hide Split;
    SomeColon(p);
    IndexColonAppend(p, t);
    SplitStep(p, k);
    SplitStep(p + t, k);
    var i := IndexColon(p);
    assert (p + t)[..i] == p[..i];
    if k > 0 {
      ColonsAfterFirst(p);
      assert (p + t)[i + 1..] == p[i + 1..] + t;
      CutKeepsField(p[i + 1..], t, k - 1);
    }
  }

  /** More than one field takes a colon. */
  lemma HasColon(s: string)
    requires |Split(s)| > 1
    ensures IndexColon(s) < |s|
  {
  }

  /** A field that is neither first nor last stands between two colons. */
  lemma {:induction false} FieldIsContained(s: string, k: nat)
    requires 0 < k < |Split(s)| - 1
    ensures Contains(s, [COLON] + Split(s)[k] + [COLON])
    decreases k
  {
    hide Split, IndexColon, Contains, Colons;
    var i := IndexColon(s);
    HasColon(s);
    var rest := s[i + 1..];
    SplitStep(s, k);
    if k == 1 {
      FirstFieldAt(s, rest, i);
    } else {
      FieldIsContained(rest, k - 1);
      ContainedLater(s, i + 1, [COLON] + Split(s)[k] + [COLON]);
    }
  }

  lemma FirstFieldAt(s: string, rest: string, i: nat)
    requires i < |s| && s[i] == COLON && rest == s[i + 1..] && |Split(rest)| > 1
    ensures Contains(s, [COLON] + Split(rest)[0] + [COLON])
  {
    var j := IndexColon(rest);
    assert Split(rest)[0] == rest[..j];
    var part := [COLON] + rest[..j] + [COLON];
    assert s[i..i + |part|] == part;
    assert At(s, part, i);
  }

  lemma ContainedLater(s: string, i: nat, part: string)
    requires i <= |s| && Contains(s[i..], part)
    ensures Contains(s, part)
  {
    var m :| 0 <= m <= |s[i..]| && At(s[i..], part, m);
    assert s[i + m..i + m + |part|] == s[i..][m..m + |part|];
    assert At(s, part, i + m);
  }

  // --- trimming ---

  lemma {:induction false} TrimRightPrefix(s: string)
    ensures TrimRight(s) <= s
    ensures Colons(TrimRight(s)) == Colons(s)
  {
    if s != "" && IsSpace(s[|s| - 1]) {
      TrimRightPrefix(s[..|s| - 1]);
      assert s == s[..|s| - 1] + [s[|s| - 1]];
      ColonsAppend(s[..|s| - 1], [s[|s| - 1]]);
    }
  }

  predicate AllSpace(s: string) { forall i :: 0 <= i < |s| ==> IsSpace(s[i]) }

  lemma {:induction false} TrimLeftMeans(s: string) returns (left: string)
    ensures s == left + TrimLeft(s) && AllSpace(left)
    ensures TrimLeft(s) != "" ==> !IsSpace(TrimLeft(s)[0])
  {
    if s == "" || !IsSpace(s[0]) {
      left := "";
    } else {
      left := TrimLeftMeans(s[1..]);
      left := [s[0]] + left;
    }
  }

  lemma {:induction false} TrimRightMeans(s: string) returns (right: string)
    ensures s == TrimRight(s) + right && AllSpace(right)
    ensures TrimRight(s) != "" ==> !IsSpace(TrimRight(s)[|TrimRight(s)| - 1]) && TrimRight(s)[0] == s[0]
  {
    if s == "" || !IsSpace(s[|s| - 1]) {
      right := "";
    } else {
      right := TrimRightMeans(s[..|s| - 1]);
      right := right + [s[|s| - 1]];
    }
  }

  /** What trimming means: white space is taken off at both ends, and what stays has none there. */
  lemma TrimSpaceMeans(s: string) returns (left: string, right: string)
    ensures s == left + TrimSpace(s) + right && AllSpace(left) && AllSpace(right)
    ensures TrimSpace(s) != "" ==> !IsSpace(TrimSpace(s)[0]) && !IsSpace(TrimSpace(s)[|TrimSpace(s)| - 1])
  {
    left := TrimLeftMeans(s);
    right := TrimRightMeans(TrimLeft(s));
    assert s == left + (TrimSpace(s) + right);
  }

  lemma {:induction false} TrimLeftColons(s: string)
    ensures Colons(TrimLeft(s)) == Colons(s)
  {
    if s != "" && IsSpace(s[0]) {
      TrimLeftColons(s[1..]);
    }
  }

  lemma {:induction false} TrimLeftAppend(p: string, t: string)
    requires Colons(p) > 0
    ensures TrimLeft(p + t) == TrimLeft(p) + t
  {
    assert (p + t)[1..] == p[1..] + t;
    if IsSpace(p[0]) {
      TrimLeftAppend(p[1..], t);
    }
  }

  lemma TrimSpaceColons(s: string)
    ensures Colons(TrimSpace(s)) == Colons(s)
  {
    TrimLeftColons(s);
    TrimRightPrefix(TrimLeft(s));
  }

  /** Trimming a cut line and trimming the whole line leave field `k` the same. */
  lemma CutAndTrim(p: string, t: string, k: nat)
    requires Colons(p) > k
    ensures k < |Split(TrimSpace(p))| && k < |Split(TrimSpace(p + t))|
    ensures Split(TrimSpace(p))[k] == Split(TrimSpace(p + t))[k]
  {
    hide Split, TrimLeft, TrimRight, Colons;
    TrimLeftAppend(p, t);
    TrimSpaceColons(p);
    TrimSpaceColons(p + t);
    ColonsAppend(p, t);
    var whole := TrimLeft(p + t);
    var cut, full := TrimSpace(p), TrimSpace(p + t);
    TrimRightPrefix(TrimLeft(p));
    TrimRightPrefix(whole);
    assert whole == cut + whole[|cut|..] && whole == full + whole[|full|..];
    CutKeepsField(cut, whole[|cut|..], k);
    CutKeepsField(full, whole[|full|..], k);
  }

  /** Both trimmed lines start alike, so both are comments or neither is. */
  lemma CutAndTrimHead(p: string, t: string)
    requires Colons(p) > 0
    ensures TrimSpace(p) != "" && TrimSpace(p + t) != "" && TrimSpace(p)[0] == TrimSpace(p + t)[0]
  {
    TrimLeftAppend(p, t);
    TrimSpaceColons(p);
    TrimSpaceColons(p + t);
    ColonsAppend(p, t);
    TrimRightPrefix(TrimLeft(p));
    TrimRightPrefix(TrimLeft(p + t));
  }
}
