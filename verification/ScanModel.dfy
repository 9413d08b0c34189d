/** The data of the vulnerability scan, the answers its surroundings give, and what each stage of the
    pipeline makes of one item. */
module ScanModel {
  import opened Sequences
  import opened InstanceFetcher

  datatype SnapshotState = Pending | Completed | Error | Recoverable | Recovering
  datatype Snapshot = Snapshot(id: string, state: SnapshotState)
  datatype ReportResult = ReportResult(target: string, vulnerabilities: seq<string>)
  datatype Finding = Finding(report: ReportResult, vulnerability: string, snapshot: Snapshot)
  datatype Event = Event(fields: string)

  /** What a call into the provider or the scanner yields. */
  datatype Answer<+T> = Fault | Reply(value: T)

  /** A value travelling through the pipeline with the path that produced it: instance number,
      number among that instance's snapshots, number in the describe answer. Answers may depend
      on the path, so two equal snapshots can still be answered differently. */
  datatype Job<+T> = Job(path: seq<nat>, value: T)

  /** Everything that is not decided by the pipeline itself. `polls` lists the describe answers
      that come in before the creation timeout; `scans` is `Fault` for every error return of the
      scan and for a recovered panic. */
  datatype Script = Script(
    described: Answer<seq<Instance>>,
    volumes: Answer<seq<Volume>>,
    sort: seq<Instance> -> seq<Instance>,
    creates: Job<Instance> -> Answer<seq<Snapshot>>,
    polls: Job<Snapshot> -> seq<Answer<seq<Snapshot>>>,
    scans: Job<Snapshot> -> Answer<seq<ReportResult>>,
    generate: Finding -> Event,
    threshold: int)

  function Children<A, B>(job: Job<A>, xs: seq<B>): (r: seq<Job<B>>) {
    seq(|xs|, i requires 0 <= i < |xs| => Job(job.path + [i], xs[i]))
  }

  // --- what each stage makes of one item ---

  /** The described instances; if the volumes can be listed, with their root volumes and sorted. */
  function Fetched(c: Script, instances: seq<Instance>): (r: seq<Instance>) {
    if c.volumes.Reply? then c.sort(AttachedAll(instances, c.volumes.value)) else instances
  }

  /** The instances in the order the fetcher sends them. */
  function Emitted(c: Script): (r: seq<Job<Instance>>) {
    match c.described
    case Fault => []
    case Reply(instances) => Children(Job([], ()), Fetched(c, instances))
  }

  function Replicate(c: Script, job: Job<Instance>): (r: seq<Job<Snapshot>>) {
    match c.creates(job)
    case Fault => []
    case Reply(snapshots) => Children(job, snapshots)
  }

  predicate AllCompleted(snapshots: seq<Snapshot>) {
    forall i :: 0 <= i < |snapshots| ==> snapshots[i].state.Completed?
  }

  /** An answer that is no error and finds every snapshot completed. */
  predicate AllDone(answer: Answer<seq<Snapshot>>) {
    answer.Reply? && forall s :: s in answer.value ==> s.state == Completed
  }

  /** The first answer, from poll number `tries` on, whose snapshots are all completed. */
  function Settle(polls: seq<Answer<seq<Snapshot>>>, tries: nat): (r: seq<Snapshot>)
    decreases |polls| - tries
  {
    if tries >= |polls| then []
    else if polls[tries].Reply? && AllCompleted(polls[tries].value) then polls[tries].value
    else Settle(polls, tries + 1)
  }

  function FindingsOf(result: ReportResult, snapshot: Snapshot): (r: seq<Finding>) {
    seq(|result.vulnerabilities|,
        i requires 0 <= i < |result.vulnerabilities| => Finding(result, result.vulnerabilities[i], snapshot))
  }

  function Findings(report: seq<ReportResult>, snapshot: Snapshot): (r: seq<Finding>) {
    if report == [] then [] else FindingsOf(report[0], snapshot) + Findings(report[1..], snapshot)
  }

  /** How many vulnerabilities the report results before number `l` have. */
  function Earlier(report: seq<ReportResult>, l: nat): (n: nat)
    requires l <= |report|
  {
    if l == 0 then 0 else Earlier(report, l - 1) + |report[l - 1].vulnerabilities|
  }

  function Events(generate: Finding -> Event, findings: seq<Finding>): (r: seq<Event>) {
    seq(|findings|, i requires 0 <= i < |findings| => generate(findings[i]))
  }

  // --- the five stages, uniformly ---

  /** What travels over the channels. `Begin` stands for the start of the fetcher. */
  datatype Item =
    | Begin
    | OfInstance(instance: Job<Instance>)
    | OfSnapshot(snapshot: Job<Snapshot>)
    | OfFindings(findings: seq<Finding>)
    | OfEvents(events: seq<Event>)

  const FETCHER := 0
  const REPLICATOR := 1
  const VERIFIER := 2
  const SCANNER := 3
  const CREATOR := 4

  type Stage = i: nat | i < 5

  function Instances(jobs: seq<Job<Instance>>): (r: seq<Item>) {
    seq(|jobs|, i requires 0 <= i < |jobs| => OfInstance(jobs[i]))
  }

  function Snapshots(jobs: seq<Job<Snapshot>>): (r: seq<Item>) {
    seq(|jobs|, i requires 0 <= i < |jobs| => OfSnapshot(jobs[i]))
  }

  function PollsOf(c: Script, item: Item): (r: seq<Answer<seq<Snapshot>>>) {
    if item.OfSnapshot? then c.polls(item.snapshot) else []
  }

  /** What the verifier will still forward for an item after `tries` answers. */
  function Verified(c: Script, item: Item, tries: nat): (r: seq<Item>) {
    if item.OfSnapshot? then Snapshots(Children(item.snapshot, Settle(c.polls(item.snapshot), tries))) else []
  }

  /** Everything stage `at` sends on for one item it receives. */
  function Images(c: Script, at: Stage, item: Item): (r: seq<Item>) {
    match item
    case Begin => if at == FETCHER then Instances(Emitted(c)) else []
    case OfInstance(job) => if at == REPLICATOR then Snapshots(Replicate(c, job)) else []
    case OfSnapshot(job) =>
      if at == VERIFIER then Verified(c, item, 0)
      else if at == SCANNER && c.scans(job).Reply? then [OfFindings(Findings(c.scans(job).value, job.value))]
      else []
    case OfFindings(findings) => if at == CREATOR then [OfEvents(Events(c.generate, findings))] else []
    case OfEvents(_) => []
  }

  function ImagesBy(c: Script, at: Stage): Item -> seq<Item> { item => Images(c, at, item) }

  /** The events in a stretch of the last channel. */
  function EventsIn(items: seq<Item>): (r: seq<Event>) {
    if items == [] then []
    else (if items[0].OfEvents? then items[0].events else []) + EventsIn(items[1..])
  }

  // --- the stages composed one after the other ---

  lemma {:induction false} EventsInAppend(xs: seq<Item>, ys: seq<Item>)
    ensures EventsIn(xs + ys) == EventsIn(xs) + EventsIn(ys)
  {
    if xs == [] {
      assert xs + ys == ys;
    } else {
      EventsInAppend(xs[1..], ys);
      AppendAssoc(if xs[0].OfEvents? then xs[0].events else [], EventsIn(xs[1..]), EventsIn(ys));
      assert (xs + ys)[1..] == xs[1..] + ys;
    }
  }

  lemma {:induction false} EventsInSubsequence(xs: seq<Item>, ys: seq<Item>)
    requires Subsequence(xs, ys)
    ensures Subsequence(EventsIn(xs), EventsIn(ys))
    decreases |ys|
  {
    if xs != [] {
      var head := if ys[0].OfEvents? then ys[0].events else [];
      if xs[0] == ys[0] && Subsequence(xs[1..], ys[1..]) {
        EventsInSubsequence(xs[1..], ys[1..]);
        SubsequenceRefl(head);
        SubsequenceAppend(head, head, EventsIn(xs[1..]), EventsIn(ys[1..]));
      } else {
        EventsInSubsequence(xs, ys[1..]);
        SubsequenceAppend([], head, EventsIn(xs), EventsIn(ys[1..]));
        assert [] + EventsIn(xs) == EventsIn(xs);
      }
    }
  }

  /** The items passed through the stages from `at` on. */
  function Through(c: Script, at: nat, items: seq<Item>): (r: seq<Item>)
    decreases 5 - at
  {
    if at >= 5 then items else Through(c, at + 1, FlatMap(ImagesBy(c, at), items))
  }

  lemma {:induction false} ThroughAppend(c: Script, at: nat, xs: seq<Item>, ys: seq<Item>)
    ensures Through(c, at, xs + ys) == Through(c, at, xs) + Through(c, at, ys)
    decreases 5 - at
  {
    if at < 5 {
      FlatMapAppend(ImagesBy(c, at), xs, ys);
      ThroughAppend(c, at + 1, FlatMap(ImagesBy(c, at), xs), FlatMap(ImagesBy(c, at), ys));
    }
  }

  lemma {:induction false} ThroughSubsequence(c: Script, at: nat, xs: seq<Item>, ys: seq<Item>)
    requires Subsequence(xs, ys)
    ensures Subsequence(Through(c, at, xs), Through(c, at, ys))
    decreases 5 - at
  {
    if at < 5 {
      FlatMapSubsequence(ImagesBy(c, at), xs, ys);
      ThroughSubsequence(c, at + 1, FlatMap(ImagesBy(c, at), xs), FlatMap(ImagesBy(c, at), ys));
    }
  }

  /** One item: its images go through the remaining stages. */
  lemma ThroughHead(c: Script, at: Stage, item: Item)
    ensures Through(c, at, [item]) == Through(c, at + 1, Images(c, at, item))
  {
    var f := ImagesBy(c, at);
    assert FlatMap(f, [item]) == f(item) + FlatMap(f, []) == Images(c, at, item);
  }


}
