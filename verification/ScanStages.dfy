/** The loops inside the scan stages, against the functions the pipeline is stated with: polling a
    snapshot (vulnerability/verifier.go), flattening a report (scanner.go), building events
    (events_creator.go). */
module ScanStages {
  import opened Sequences
  import opened ScanModel

  // --- verifier ---

  /** The cases of the select in `verify`. */
  datatype Wake = Timer | Cancelled | Interval

  /** The surroundings of one `verify` call. Time is counted from its start; a select is entered at
      one instant. `answers` and `latency` are those of the describe calls, `prefer` says which of
      several ready cases the n-th select picks, `refused` which send selects take ctx.Done. */
  datatype Surroundings = Surroundings(
    cancelAt: Option<nat>,
    answers: nat -> Answer<seq<Snapshot>>,
    latency: nat -> nat,
    prefer: nat -> Wake,
    refused: nat -> bool)

  function Min(x: nat, y: nat): nat { if x < y then x else y }

  function Max(x: nat, y: nat): nat { if x < y then y else x }

  /** When a select entered at `now` wakes up. */
  function WakeTime(e: Surroundings, timeout: nat, interval: nat, now: nat): (w: nat) {
    var first := Min(timeout, now + interval);
    Max(now, if e.cancelAt.Some? then Min(first, e.cancelAt.value) else first)
  }

  predicate Ready(e: Surroundings, timeout: nat, interval: nat, now: nat, wake: Wake) {
    var w := WakeTime(e, timeout, interval, now);
    match wake
    case Timer => timeout <= w
    case Cancelled => e.cancelAt.Some? && e.cancelAt.value <= w
    case Interval => now + interval <= w
  }

  /** The case a select entered at `now` takes: a ready one, the preferred one if it is ready. */
  function Pick(e: Surroundings, timeout: nat, interval: nat, now: nat, n: nat): (wake: Wake)
    ensures Ready(e, timeout, interval, now, wake)
  {
    if Ready(e, timeout, interval, now, e.prefer(n)) then e.prefer(n)
    else if Ready(e, timeout, interval, now, Timer) then Timer
    else if Ready(e, timeout, interval, now, Cancelled) then Cancelled
    else Interval
  }

  /** The first `n` describe answers. */
  function Answers(e: Surroundings, n: nat): (r: seq<Answer<seq<Snapshot>>>) {
    seq(n, i requires 0 <= i < n => e.answers(i))
  }

  predicate Settles(answer: Answer<seq<Snapshot>>) {
    answer.Reply? && AllCompleted(answer.value)
  }

  lemma SettlesMeans(answer: Answer<seq<Snapshot>>)
    ensures Settles(answer) <==> AllDone(answer)
  {
    if answer.Reply? && !AllCompleted(answer.value) {
      var i :| 0 <= i < |answer.value| && !answer.value[i].state.Completed?;
      assert answer.value[i] in answer.value;
    }
  }

  lemma AllSettlesMean(e: Surroundings)
    ensures forall i: nat :: Settles(e.answers(i)) <==> AllDone(e.answers(i))
  {
    forall i: nat ensures Settles(e.answers(i)) <==> AllDone(e.answers(i)) {
      SettlesMeans(e.answers(i));
    }
  }

  /** `Settle` is the first settling answer, and nothing if there is none. */
  lemma {:induction false} SettleMeans(polls: seq<Answer<seq<Snapshot>>>, tries: nat, k: nat)
    requires tries <= k <= |polls|
    requires forall i :: tries <= i < k ==> !Settles(polls[i])
    ensures k == |polls| ==> Settle(polls, tries) == []
    ensures k < |polls| && Settles(polls[k]) ==> Settle(polls, tries) == polls[k].value
    decreases k - tries
  {
    if tries < k {
      SettleMeans(polls, tries + 1, k);
    }
  }

  lemma ProductGrows(a: nat, b: nat, d: nat)
    requires a <= b
    ensures a * d <= b * d
  {
    assert b * d == a * d + (b - a) * d;
  }

  lemma QuotientBound(n: nat, d: nat, m: nat)
    requires d > 0 && n * d <= m
    ensures n <= m / d
  {
    assert m == m / d * d + m % d;
    if n > m / d {
      ProductGrows(m / d + 1, n, d);
    }
  }

  class Verifier {
    const interval: nat
    const timeout: nat
    var sent: seq<Snapshot>   // what went out on the verifier's channel

    constructor (interval: nat, timeout: nat)
      ensures this.interval == interval && this.timeout == timeout && sent == []
    {
      this.interval := interval;
      this.timeout := timeout;
      sent := [];
    }

    /** Forwards one whole describe answer, the first whose snapshots are all completed; part of it
        or nothing only if the context was cancelled, nothing if the timeout came first. At most
        `timeout / interval` polls, whatever the provider does. */
    method Verify(e: Surroundings) returns (polls: nat, end: nat)
      requires interval > 0
      modifies this
      ensures polls <= timeout / interval
      ensures old(sent) <= sent <= old(sent) + Settle(Answers(e, polls), 0)
      ensures e.cancelAt.None? ==> sent == old(sent) + Settle(Answers(e, polls), 0)
      ensures forall k :: |old(sent)| <= k < |sent| ==> sent[k].state == Completed
      ensures forall i :: 0 <= i < polls - 1 ==> !AllDone(e.answers(i))
      ensures e.cancelAt.None? && polls > 0 && AllDone(e.answers(polls - 1)) ==>
                sent == old(sent) + e.answers(polls - 1).value
      ensures e.cancelAt.None? && (polls == 0 || !AllDone(e.answers(polls - 1))) ==>
                sent == old(sent) && end >= timeout
      ensures (polls > 0 && AllDone(e.answers(polls - 1))) || end >= timeout
           || (e.cancelAt.Some? && end >= e.cancelAt.value)
    {
      hide AllDone;
      AllSettlesMean(e);
      polls := 0;
      end := 0;
      var n := 0;
      while true
        invariant sent == old(sent)
        invariant polls * interval <= end && polls <= timeout / interval
        invariant forall i :: 0 <= i < polls ==> !Settles(e.answers(i))
        decreases if timeout < end then 0 else timeout - end
      {
        var wake := Pick(e, timeout, interval, end, n);
        var entered := end;
        end := WakeTime(e, timeout, interval, end);
        n := n + 1;
        match wake {
          case Timer =>
            SettleMeans(Answers(e, polls), 0, polls);
            return;
          case Cancelled =>
            SettleMeans(Answers(e, polls), 0, polls);
            return;
          case Interval =>
            assert (polls + 1) * interval == polls * interval + interval;
            QuotientBound(polls + 1, interval, timeout);
            var sp := e.answers(polls);
            end := end + e.latency(polls);
            polls := polls + 1;
            if sp.Fault? {
              continue;
            }
            var allCompleted := true;
            var j := 0;
            while j < |sp.value|
              invariant 0 <= j <= |sp.value|
              invariant allCompleted && forall k :: 0 <= k < j ==> sp.value[k].state.Completed?
            {
              if !sp.value[j].state.Completed? {
                allCompleted := false;
                break;
              }
              j := j + 1;
            }
            if allCompleted {
              SettleMeans(Answers(e, polls), 0, polls - 1);
              Forward(e, sp.value);
              return;
            }
        }
      }
    }

    /** The send loop: the whole list, or a part of it if a send select takes ctx.Done. */
    method Forward(e: Surroundings, snapshots: seq<Snapshot>)
      modifies this
      ensures old(sent) <= sent <= old(sent) + snapshots
      ensures e.cancelAt.None? ==> sent == old(sent) + snapshots
    {
      var i := 0;
      while i < |snapshots|
        invariant 0 <= i <= |snapshots|
        invariant sent == old(sent) + snapshots[..i]
      {
        if e.cancelAt.Some? && e.refused(i) {
          return;
        }
        sent := sent + [snapshots[i]];
        i := i + 1;
      }
    }
  }

  /** With the shipped constants, 30 minutes and 15 seconds, a snapshot is polled at most 120 times. */
  method VerifyShipped(v: Verifier, e: Surroundings) returns (polls: nat)
    requires v.timeout == 30 * 60 && v.interval == 15
    modifies v
    ensures polls <= 120
  {
    var end;
    polls, end := v.Verify(e);
  }

  // --- scanner and events creator ---

  lemma FirstFindings(report: seq<ReportResult>, snapshot: Snapshot)
    requires report != []
    ensures Findings(report, snapshot) == FindingsOf(report[0], snapshot) + Findings(report[1..], snapshot)
  {
  }

  lemma NoFindings(snapshot: Snapshot)
    ensures Findings([], snapshot) == []
  {
  }

  lemma {:induction false} FindingsAppend(xs: seq<ReportResult>, ys: seq<ReportResult>, snapshot: Snapshot)
    ensures Findings(xs + ys, snapshot) == Findings(xs, snapshot) + Findings(ys, snapshot)
  {
    hide Findings, FindingsOf;
    if xs == [] {
      NoFindings(snapshot);
      assert xs + ys == ys;
    } else {
      FindingsAppend(xs[1..], ys, snapshot);
      AppendAssoc(FindingsOf(xs[0], snapshot), Findings(xs[1..], snapshot), Findings(ys, snapshot));
      assert (xs + ys)[1..] == xs[1..] + ys;
      FirstFindings(xs, snapshot);
      FirstFindings(xs + ys, snapshot);
    }
  }

  /** One finding per vulnerability of each report result, in report order. */
  method CollectFindings(report: seq<ReportResult>, snapshot: Snapshot) returns (results: seq<Finding>)
    ensures results == Findings(report, snapshot)
    ensures |results| == Earlier(report, |report|)
    ensures forall l: nat, m: nat :: InPlace(report, snapshot, results, l, m)
  {
    hide Earlier, InPlace;
    results := [];
    var i := 0;
    while i < |report|
      invariant 0 <= i <= |report|
      invariant results == Findings(report[..i], snapshot)
    {
      var j := 0;
      ghost var before := results;
      while j < |report[i].vulnerabilities|
        invariant 0 <= j <= |report[i].vulnerabilities|
        invariant results == before + FindingsOf(report[i], snapshot)[..j]
      {
        results := results + [Finding(report[i], report[i].vulnerabilities[j], snapshot)];
        j := j + 1;
      }
      FindingsAppend(report[..i], [report[i]], snapshot);
      assert report[..i + 1] == report[..i] + [report[i]];
      assert Findings([report[i]], snapshot) == FindingsOf(report[i], snapshot);
      i := i + 1;
    }
    assert report[..i] == report;
    FindingsInPlace(report, snapshot);
  }

  /** The finding of vulnerability `m` of result `l` stands after those of the earlier results and those
      of the earlier vulnerabilities. */
  predicate InPlace(report: seq<ReportResult>, snapshot: Snapshot, findings: seq<Finding>, l: nat, m: nat) {
    l < |report| && m < |report[l].vulnerabilities| ==>
      && Earlier(report, l) + m < |findings|
      && findings[Earlier(report, l) + m] == Finding(report[l], report[l].vulnerabilities[m], snapshot)
  }

  lemma FindingsInPlace(report: seq<ReportResult>, snapshot: Snapshot)
    ensures |Findings(report, snapshot)| == Earlier(report, |report|)
    ensures forall l: nat, m: nat :: InPlace(report, snapshot, Findings(report, snapshot), l, m)
  {
    hide Findings, Earlier;
    FindingsLength(report, snapshot, |report|);
    assert report[..|report|] == report;
    forall l: nat, m: nat ensures InPlace(report, snapshot, Findings(report, snapshot), l, m) {
      if l < |report| && m < |report[l].vulnerabilities| {
        FindingAt(report, snapshot, l, m);
      }
    }
  }

  lemma {:induction false} FindingsLength(report: seq<ReportResult>, snapshot: Snapshot, n: nat)
    requires n <= |report|
    ensures |Findings(report[..n], snapshot)| == Earlier(report, n)
  {
    if n > 0 {
      FindingsLength(report, snapshot, n - 1);
      assert report[..n] == report[..n - 1] + [report[n - 1]];
      FindingsAppend(report[..n - 1], [report[n - 1]], snapshot);
      assert Findings([report[n - 1]], snapshot) == FindingsOf(report[n - 1], snapshot);
    } else {
      assert report[..0] == [];
    }
    assert report[..|report|] == report;
  }

  /** Where the finding of a vulnerability stands. */
  lemma FindingAt(report: seq<ReportResult>, snapshot: Snapshot, l: nat, m: nat)
    requires l < |report| && m < |report[l].vulnerabilities|
    ensures Earlier(report, l) + m < |Findings(report, snapshot)|
    ensures Findings(report, snapshot)[Earlier(report, l) + m]
         == Finding(report[l], report[l].vulnerabilities[m], snapshot)
  {
    hide Findings;
    FindingsLength(report, snapshot, l);
    var front, rest := report[..l], report[l..];
    assert report == front + rest && rest[0] == report[l];
    FindingsAppend(front, rest, snapshot);
    FirstFindings(rest, snapshot);
  }

  /** One event per finding, in order. */
  method BuildEvents(generate: Finding -> Event, findings: seq<Finding>) returns (events: seq<Event>)
    ensures events == Events(generate, findings)
    ensures |events| == |findings| && forall i :: 0 <= i < |findings| ==> events[i] == generate(findings[i])
  {
    events := [];
    var i := 0;
    while i < |findings|
      invariant 0 <= i <= |findings|
      invariant events == Events(generate, findings)[..i]
    {
      events := events + [generate(findings[i])];
      i := i + 1;
    }
  }
}
