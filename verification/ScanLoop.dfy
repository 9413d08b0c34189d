/** The sequential program that the concurrent scan pipeline must agree with: one nested loop, written
    without the stages, and the proof that the stages composed one after the other do what it does. */
module ScanLoop {
  import opened Sequences
  import opened InstanceFetcher
  import opened ScanModel

  // --- the nested loop ---

  /** The vulnerabilities of a report result, from number `m` on. */
  function VulnerabilityLoop(c: Script, result: ReportResult, snapshot: Snapshot, m: nat): (r: seq<Event>)
    decreases |result.vulnerabilities| - m
  {
    if m >= |result.vulnerabilities| then []
    else [c.generate(Finding(result, result.vulnerabilities[m], snapshot))]
         + VulnerabilityLoop(c, result, snapshot, m + 1)
  }

  /** The results of a report, from number `l` on. */
  function ReportLoop(c: Script, report: seq<ReportResult>, snapshot: Snapshot, l: nat): (r: seq<Event>)
    decreases |report| - l
  {
    if l >= |report| then []
    else VulnerabilityLoop(c, report[l], snapshot, 0) + ReportLoop(c, report, snapshot, l + 1)
  }

  function ScanOne(c: Script, job: Job<Snapshot>): (r: seq<Event>) {
    match c.scans(job)
    case Fault => []
    case Reply(report) => ReportLoop(c, report, job.value, 0)
  }

  /** The verified snapshots, from number `k` on. */
  function VerifiedLoop(c: Script, path: seq<nat>, settled: seq<Snapshot>, k: nat): (r: seq<Event>)
    decreases |settled| - k
  {
    if k >= |settled| then []
    else ScanOne(c, Job(path + [k], settled[k])) + VerifiedLoop(c, path, settled, k + 1)
  }

  /** Polling, from answer number `t` on: the first answer that finds every snapshot completed. */
  function PollLoop(polls: seq<Answer<seq<Snapshot>>>, t: nat): (r: seq<Snapshot>)
    decreases |polls| - t
  {
    if t >= |polls| then []
    else match polls[t]
      case Fault => PollLoop(polls, t + 1)
      case Reply(snapshots) =>
        if exists s :: s in snapshots && s.state != Completed then PollLoop(polls, t + 1) else snapshots
  }

  /** The snapshots created for an instance, from number `j` on. */
  function CreatedLoop(c: Script, path: seq<nat>, created: seq<Snapshot>, j: nat): (r: seq<Event>)
    decreases |created| - j
  {
    if j >= |created| then []
    else
      var job := Job(path + [j], created[j]);
      VerifiedLoop(c, job.path, PollLoop(c.polls(job), 0), 0) + CreatedLoop(c, path, created, j + 1)
  }

  /** The snapshots a successful creation gives for an instance. */
  function Created(c: Script, job: Job<Instance>): (r: seq<Snapshot>) {
    match c.creates(job)
    case Fault => []
    case Reply(created) => created
  }

  /** The instances, from number `i` on. */
  function InstanceLoop(c: Script, instances: seq<Instance>, i: nat): (r: seq<Event>)
    decreases |instances| - i
  {
    if i >= |instances| then []
    else CreatedLoop(c, [i], Created(c, Job([i], instances[i])), 0) + InstanceLoop(c, instances, i + 1)
  }

  /** The instances in the order they are handled; `EmittedOrder` says which that is. */
  function Order(c: Script): (r: seq<Instance>) {
    match c.described
    case Fault => []
    case Reply(instances) => Fetched(c, instances)
  }

  function SequentialEvents(c: Script): (r: seq<Event>) {
    InstanceLoop(c, Order(c), 0)
  }

  // --- what the loops do, part by part ---

  /** Every instance in order contributes its part: nothing if the creation failed, and otherwise what the
      loop over its created snapshots gives. */
  lemma {:induction false} InstanceLoopMeans(c: Script, instances: seq<Instance>, i: nat)
    returns (parts: seq<seq<Event>>)
    requires i <= |instances|
    ensures |parts| == |instances| - i && InstanceLoop(c, instances, i) == Concat(parts)
    ensures forall n :: i <= n < |instances| ==>
              match c.creates(Job([n], instances[n]))
              case Fault => parts[n - i] == []
              case Reply(created) => parts[n - i] == CreatedLoop(c, [n], created, 0)
    decreases |instances| - i
  {
    hide CreatedLoop;
    if i == |instances| {
      parts := [];
    } else {
      var rest := InstanceLoopMeans(c, instances, i + 1);
      parts := [CreatedLoop(c, [i], Created(c, Job([i], instances[i])), 0)] + rest;
      assert parts[1..] == rest;
      assert Created(c, Job([i], instances[i])) == [] ==> parts[0] == [] by {
        NothingCreated(c, [i]);
      }
    }
  }

  lemma NothingCreated(c: Script, path: seq<nat>)
    ensures CreatedLoop(c, path, [], 0) == []
  {
  }

  /** Every created snapshot in order contributes what the loop over its settled answer gives. */
  lemma {:induction false} CreatedLoopMeans(c: Script, path: seq<nat>, created: seq<Snapshot>, j: nat)
    returns (parts: seq<seq<Event>>)
    requires j <= |created|
    ensures |parts| == |created| - j && CreatedLoop(c, path, created, j) == Concat(parts)
    ensures forall n :: j <= n < |created| ==>
              parts[n - j] == VerifiedLoop(c, path + [n], PollLoop(c.polls(Job(path + [n], created[n])), 0), 0)
    decreases |created| - j
  {
    hide VerifiedLoop, PollLoop;
    if j == |created| {
      parts := [];
    } else {
      var rest := CreatedLoopMeans(c, path, created, j + 1);
      parts := [VerifiedLoop(c, path + [j], PollLoop(c.polls(Job(path + [j], created[j])), 0), 0)] + rest;
      assert parts[1..] == rest;
    }
  }

  /** Every verified snapshot in order contributes the events of its scan. */
  lemma {:induction false} VerifiedLoopMeans(c: Script, path: seq<nat>, settled: seq<Snapshot>, k: nat)
    returns (parts: seq<seq<Event>>)
    requires k <= |settled|
    ensures |parts| == |settled| - k && VerifiedLoop(c, path, settled, k) == Concat(parts)
    ensures forall n :: k <= n < |settled| ==> parts[n - k] == ScanOne(c, Job(path + [n], settled[n]))
    decreases |settled| - k
  {
    hide ScanOne;
    if k == |settled| {
      parts := [];
    } else {
      var rest := VerifiedLoopMeans(c, path, settled, k + 1);
      parts := [ScanOne(c, Job(path + [k], settled[k]))] + rest;
      assert parts[1..] == rest;
    }
  }

  /** Polling gives the first answer that is no error and finds every snapshot completed, and nothing if
      there is none. */
  lemma {:induction false} PollLoopMeans(polls: seq<Answer<seq<Snapshot>>>, t: nat, first: nat)
    requires t <= first <= |polls| && forall n :: t <= n < first ==> !AllDone(polls[n])
    ensures first == |polls| ==> PollLoop(polls, t) == []
    ensures first < |polls| && AllDone(polls[first]) ==> PollLoop(polls, t) == polls[first].value
    decreases first - t
  {
    if t < first {
      PollLoopMeans(polls, t + 1, first);
    }
  }

  // --- one scanned snapshot, event by event ---

  lemma {:induction false} VulnerabilityAt(c: Script, result: ReportResult, snapshot: Snapshot, from: nat, m: nat)
    requires from <= |result.vulnerabilities|
    ensures |VulnerabilityLoop(c, result, snapshot, from)| == |result.vulnerabilities| - from
    ensures from <= m < |result.vulnerabilities| ==>
              VulnerabilityLoop(c, result, snapshot, from)[m - from]
              == c.generate(Finding(result, result.vulnerabilities[m], snapshot))
    decreases |result.vulnerabilities| - from
  {
    if from < |result.vulnerabilities| {
      VulnerabilityAt(c, result, snapshot, from + 1, m);
    }
  }

  lemma {:induction false} ReportAt(c: Script, report: seq<ReportResult>, snapshot: Snapshot, from: nat, l: nat, m: nat)
    requires from <= |report|
    ensures |ReportLoop(c, report, snapshot, from)| == Earlier(report, |report|) - Earlier(report, from)
    ensures from <= l < |report| && m < |report[l].vulnerabilities| ==>
              && Earlier(report, from) <= Earlier(report, l)
              && Earlier(report, l) + m < Earlier(report, |report|)
              && ReportLoop(c, report, snapshot, from)[Earlier(report, l) - Earlier(report, from) + m]
                 == c.generate(Finding(report[l], report[l].vulnerabilities[m], snapshot))
    decreases |report| - from
  {
    if from < |report| {
      ReportAt(c, report, snapshot, from + 1, l, m);
      VulnerabilityAt(c, report[from], snapshot, 0, m);
    }
  }

  /** The events of a scanned snapshot: none if the scan failed; otherwise exactly one for each
      vulnerability of each report result, in report order, generated from that result, vulnerability and
      snapshot. */
  lemma SnapshotEventAt(c: Script, job: Job<Snapshot>, l: nat, m: nat)
    ensures c.scans(job).Fault? ==> ScanOne(c, job) == []
    ensures c.scans(job).Reply? ==>
              var report := c.scans(job).value;
              && |ScanOne(c, job)| == Earlier(report, |report|)
              && (l < |report| && m < |report[l].vulnerabilities| ==>
                    && Earlier(report, l) + m < |ScanOne(c, job)|
                    && ScanOne(c, job)[Earlier(report, l) + m]
                       == c.generate(Finding(report[l], report[l].vulnerabilities[m], job.value)))
  {
    if c.scans(job).Reply? {
      ReportAt(c, c.scans(job).value, job.value, 0, l, m);
    }
  }

  // --- the stages do what the nested loop does ---

  lemma EventsAppend(generate: Finding -> Event, xs: seq<Finding>, ys: seq<Finding>)
    ensures Events(generate, xs + ys) == Events(generate, xs) + Events(generate, ys)
  {
  }

  lemma {:induction false} VulnerabilitiesAgree(c: Script, result: ReportResult, snapshot: Snapshot, m: nat)
    requires m <= |result.vulnerabilities|
    ensures VulnerabilityLoop(c, result, snapshot, m) == Events(c.generate, FindingsOf(result, snapshot)[m..])
    decreases |result.vulnerabilities| - m
  {
    if m < |result.vulnerabilities| {
      VulnerabilitiesAgree(c, result, snapshot, m + 1);
      var findings := FindingsOf(result, snapshot);
      assert findings[m..] == [findings[m]] + findings[m + 1..];
      EventsAppend(c.generate, [findings[m]], findings[m + 1..]);
    }
  }

  lemma {:induction false} ReportAgrees(c: Script, report: seq<ReportResult>, snapshot: Snapshot, l: nat)
    requires l <= |report|
    ensures ReportLoop(c, report, snapshot, l) == Events(c.generate, Findings(report[l..], snapshot))
    decreases |report| - l
  {
    if l < |report| {
      ReportAgrees(c, report, snapshot, l + 1);
      VulnerabilitiesAgree(c, report[l], snapshot, 0);
      var findings := FindingsOf(report[l], snapshot);
      assert findings[0..] == findings && report[l..][1..] == report[l + 1..];
      EventsAppend(c.generate, findings, Findings(report[l + 1..], snapshot));
    }
  }

  lemma SnapshotEvents(c: Script, job: Job<Snapshot>)
    ensures EventsIn(Through(c, SCANNER, [OfSnapshot(job)])) == ScanOne(c, job)
  {
    ThroughHead(c, SCANNER, OfSnapshot(job));
    match c.scans(job)
    case Fault =>
      assert Through(c, CREATOR, []) == [];
    case Reply(report) =>
      var findings := Findings(report, job.value);
      ThroughHead(c, CREATOR, OfFindings(findings));
      assert EventsIn([OfEvents(Events(c.generate, findings))]) == Events(c.generate, findings);
      ReportAgrees(c, report, job.value, 0);
      assert report[0..] == report;
  }

  /** The items from number `n` on: the first of them, and those after it. */
  lemma ItemsFrom<A>(job: Job<A>, xs: seq<Snapshot>, n: nat)
    requires n < |xs|
    ensures Snapshots(Children(job, xs)[n..])
         == [OfSnapshot(Job(job.path + [n], xs[n]))] + Snapshots(Children(job, xs)[n + 1..])
  {
  }

  lemma NothingThrough(c: Script, at: Stage)
    ensures EventsIn(Through(c, at, [])) == []
    decreases 5 - at
  {
    if at < CREATOR {
      NothingThrough(c, at + 1);
    }
  }

  /** The first of several items goes through the stages before the others. */
  lemma ThroughFirst(c: Script, at: Stage, item: Item, more: seq<Item>)
    ensures EventsIn(Through(c, at, [item] + more))
         == EventsIn(Through(c, at, [item])) + EventsIn(Through(c, at, more))
  {
    ThroughAppend(c, at, [item], more);
    EventsInAppend(Through(c, at, [item]), Through(c, at, more));
  }

  lemma {:induction false} VerifiedEvents(c: Script, job: Job<Snapshot>, settled: seq<Snapshot>, k: nat)
    requires k <= |settled|
    ensures EventsIn(Through(c, SCANNER, Snapshots(Children(job, settled)[k..])))
         == VerifiedLoop(c, job.path, settled, k)
    decreases |settled| - k
  {
    hide Through, EventsIn, ScanOne;
    if k == |settled| {
      NothingThrough(c, SCANNER);
    } else {
      ItemsFrom(job, settled, k);
      var next := Job(job.path + [k], settled[k]);
      ThroughFirst(c, SCANNER, OfSnapshot(next), Snapshots(Children(job, settled)[k + 1..]));
      SnapshotEvents(c, next);
      VerifiedEvents(c, job, settled, k + 1);
    }
  }

  lemma {:induction false} SettleAgrees(polls: seq<Answer<seq<Snapshot>>>, t: nat)
    ensures Settle(polls, t) == PollLoop(polls, t)
    decreases |polls| - t
  {
    if t < |polls| {
      SettleAgrees(polls, t + 1);
    }
  }

  lemma {:induction false} CreatedEvents<A>(c: Script, job: Job<A>, created: seq<Snapshot>, j: nat)
    requires j <= |created|
    ensures EventsIn(Through(c, VERIFIER, Snapshots(Children(job, created)[j..])))
         == CreatedLoop(c, job.path, created, j)
    decreases |created| - j
  {
    hide Through, EventsIn, VerifiedLoop, PollLoop, Settle;
    if j == |created| {
      assert Snapshots(Children(job, created)[j..]) == [];
      NothingThrough(c, VERIFIER);
    } else {
      ItemsFrom(job, created, j);
      var next := Job(job.path + [j], created[j]);
      ThroughFirst(c, VERIFIER, OfSnapshot(next), Snapshots(Children(job, created)[j + 1..]));
      ThroughHead(c, VERIFIER, OfSnapshot(next));
      var settled := Settle(c.polls(next), 0);
      assert Images(c, VERIFIER, OfSnapshot(next)) == Snapshots(Children(next, settled));
      assert Children(next, settled)[0..] == Children(next, settled);
      VerifiedEvents(c, next, settled, 0);
      SettleAgrees(c.polls(next), 0);
      CreatedEvents(c, job, created, j + 1);
    }
  }

  /** What the replicator makes of an instance. */
  lemma ReplicateMeans(c: Script, job: Job<Instance>)
    ensures Replicate(c, job) == Children(job, Created(c, job))
  {
  }

  lemma {:induction false} InstanceEvents(c: Script, instances: seq<Instance>, i: nat)
    requires i <= |instances|
    ensures EventsIn(Through(c, REPLICATOR, Instances(Children(Job([], ()), instances)[i..])))
         == InstanceLoop(c, instances, i)
    decreases |instances| - i
  {
    hide Through, EventsIn, CreatedLoop, Replicate, Created;
    var jobs := Children(Job([], ()), instances);
    if i == |instances| {
      NothingThrough(c, REPLICATOR);
    } else {
      assert Instances(jobs[i..]) == [OfInstance(jobs[i])] + Instances(jobs[i + 1..]);
      assert jobs[i] == Job([i], instances[i]);
      ThroughFirst(c, REPLICATOR, OfInstance(jobs[i]), Instances(jobs[i + 1..]));
      ThroughHead(c, REPLICATOR, OfInstance(jobs[i]));
      ReplicateMeans(c, jobs[i]);
      var created := Created(c, jobs[i]);
      assert Children(jobs[i], created)[0..] == Children(jobs[i], created);
      CreatedEvents(c, jobs[i], created, 0);
      InstanceEvents(c, instances, i + 1);
    }
  }

  /** Composing the five stages gives exactly the events of the nested loop. */
  lemma StagesComposeToLoop(c: Script)
    ensures EventsIn(Through(c, FETCHER, [Begin])) == SequentialEvents(c)
  {
    hide Through, EventsIn, InstanceLoop, Fetched;
    ThroughHead(c, FETCHER, Begin);
    var jobs := Children(Job([], ()), Order(c));
    assert Emitted(c) == jobs && jobs[0..] == jobs;
    InstanceEvents(c, Order(c), 0);
  }

  // --- the order of the instances ---

  /** The sort of the script sorts. */
  ghost predicate SortsByBefore(sort: seq<Instance> -> seq<Instance>) {
    forall xs: seq<Instance> :: SortedPermutation(xs, sort(xs))
  }

  /** If the volumes cannot be listed, the instances are handled as described. Otherwise they are a
      permutation of `all`, which has one instance for each described one, with the root volume it is to
      have; those with a root volume come first, and smallest first among them. */
  lemma EmittedOrder(c: Script) returns (all: seq<Instance>)
    requires c.described.Reply? && SortsByBefore(c.sort)
    ensures c.volumes.Fault? ==> Order(c) == c.described.value
    ensures c.volumes.Reply? ==>
              && |all| == |c.described.value|
              && (forall i :: 0 <= i < |all| ==> RootedAs(all[i], c.described.value[i], c.volumes.value))
              && multiset(Order(c)) == multiset(all)
              && SmallestFirst(Roots(Order(c)), CountSome(Roots(Order(c))))
    ensures |Emitted(c)| == |Order(c)| && forall i :: 0 <= i < |Order(c)| ==> Emitted(c)[i] == Job([i], Order(c)[i])
  {
    hide RootedAs, CountSome;
    all := [];
    if c.volumes.Reply? {
      var described, volumes := c.described.value, c.volumes.value;
      all := AttachedAll(described, volumes);
      forall i | 0 <= i < |all| ensures RootedAs(all[i], described[i], volumes) {
        AttachedMeans(described[i], volumes);
      }
      assert SortedPermutation(all, c.sort(all));
      SortedMeans(Roots(Order(c)));
    }
  }
}
