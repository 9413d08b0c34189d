/** What every run of the scan pipeline guarantees: the published events, the fate of the snapshots,
    and that no send, close or wait can go wrong. */
module ScanResults {
  import opened Sequences
  import opened InstanceFetcher
  import opened ScanModel
  import opened ScanLoop
  import opened Publishing
  import opened ScanPipeline
  import opened ScanInvariants
  import opened ScanFlow

  // --- published events ---

  /** One stage: what it has sent, and what it has in hand, against the images of its input. */
  lemma StageImages(c: Script, s: State, at: Stage)
    requires FlowInv(c, s)
    ensures var images := FlatMap(ImagesBy(c, at), Input(s, at));
            && Subsequence(s.procs[at].sent, images)
            && (!s.cancelled ==> images == s.procs[at].sent + Held(c, at, s.procs[at].pc))
  {
    hide Held, FlatMap, Subsequence, ImagesBy;
    var p, images := s.procs[at], FlatMap(ImagesBy(c, at), Input(s, at));
    assert FlowAt(c, s.cancelled, at, Input(s, at), p);
    SubsequencePrefix(p.sent, Held(c, at, p.pc));
    SubsequenceTrans(p.sent, p.sent + Held(c, at, p.pc), images);
  }

  /** What has left the last stage, seen from stage `at`: images of that stage's input, in order.
      Without cancellation it is a prefix of them, and all of them once nothing is in hand. */
  lemma {:induction false} OutputFrom(c: Script, s: State, at: nat)
    requires at < 5 && FlowInv(c, s)
    ensures Subsequence(s.procs[CREATOR].sent, Through(c, at, Input(s, at)))
    ensures !s.cancelled ==> s.procs[CREATOR].sent <= Through(c, at, Input(s, at))
    ensures !s.cancelled && (forall i: Stage :: i >= at ==> Held(c, i, s.procs[i].pc) == []) ==>
              s.procs[CREATOR].sent == Through(c, at, Input(s, at))
    decreases 5 - at
  {
    hide Held, FlatMap, Subsequence, ImagesBy, FlowInv, Through;
    var p := s.procs[at];
    var held := Held(c, at, p.pc);
    var images := FlatMap(ImagesBy(c, at), Input(s, at));
    StageImages(c, s, at);
    ThroughStage(c, at, Input(s, at));
    ThroughAppend(c, at + 1, p.sent, held);
    ThroughSubsequence(c, at + 1, p.sent, images);
    if at == CREATOR {
      ThroughEnd(c, p.sent);
    } else {
      OutputFrom(c, s, at + 1);
      SubsequenceTrans(s.procs[CREATOR].sent, Through(c, at + 1, p.sent), Through(c, at + 1, images));
    }
    assert held == [] ==> p.sent + held == p.sent;
  }

  lemma ThroughStage(c: Script, at: Stage, items: seq<Item>)
    ensures Through(c, at, items) == Through(c, at + 1, FlatMap(ImagesBy(c, at), items))
  {
  }

  lemma ThroughEnd(c: Script, items: seq<Item>)
    ensures Through(c, 5, items) == items
  {
  }

  lemma {:induction false} EventsInPrefix(xs: seq<Item>, ys: seq<Item>)
    requires xs <= ys
    ensures EventsIn(xs) <= EventsIn(ys)
  {
    EventsInAppend(xs, ys[|xs|..]);
    assert xs + ys[|xs|..] == ys;
  }

  /** Without cancellation the publisher only stops after all five stages have left their loops. */
  lemma AllOver(c: Script, s: State, at: Stage)
    requires CoreInv(c, s) && !s.cancelled && s.pubStopped
    ensures Over(s.procs[at])
    decreases 5 - at
  {
    assert ProcOk(c, at, s.procs[at], at < Started(s.worker));
    if at < CREATOR {
      AllOver(c, s, at + 1);
    }
  }

  /** Every uncancelled run, whatever the interleaving: the events handed to the client so far and
      those still buffered are a prefix of what the nested loop produces, and when the publisher
      returns the client has received exactly the nested loop's events, in its order. */
  lemma UncancelledRun(c: Script, r: Run)
    requires IsRun(c, r) && !Last(r).cancelled
    ensures var s := Last(r);
            && Concat(s.book.published) + s.book.buffer <= SequentialEvents(c)
            && (s.pubStopped ==> Concat(s.book.published) == SequentialEvents(c))
  {
    hide FlowInv, MadeInv, IsRun, Through, SequentialEvents, Subsequence, Concat;
    var s := Last(r);
    RunKeepsInv(c, r);
    OutputFrom(c, s, FETCHER);
    StagesComposeToLoop(c);
    if Started(s.worker) > 0 {
      EventsInPrefix(s.procs[CREATOR].sent, Through(c, FETCHER, [Begin]));
    } else {
      assert ProcOk(c, CREATOR, s.procs[CREATOR], false);
    }
    if s.pubStopped {
      AllOver(c, s, FETCHER);
      assert ProcOk(c, FETCHER, s.procs[FETCHER], FETCHER < Started(s.worker));
      forall i: Stage ensures Held(c, i, s.procs[i].pc) == [] {
        AllOver(c, s, i);
      }
    }
  }

  /** Every run, cancelled at any point or not: no event is invented, repeated or reordered, and
      everything the publisher received is published once it has returned. */
  lemma AnyRun(c: Script, r: Run)
    requires IsRun(c, r)
    ensures var s := Last(r);
            && Subsequence(Concat(s.book.published) + s.book.buffer, SequentialEvents(c))
            && Concat(s.book.published) + s.book.buffer == EventsIn(s.procs[CREATOR].sent)
            && (s.pubStopped ==> s.book.buffer == [])
  {
    var s := Last(r);
    RunKeepsInv(c, r);
    OutputFrom(c, s, FETCHER);
    StagesComposeToLoop(c);
    if Started(s.worker) > 0 {
      EventsInSubsequence(s.procs[CREATOR].sent, Through(c, FETCHER, [Begin]));
    } else {
      assert ProcOk(c, CREATOR, s.procs[CREATOR], false);
    }
  }

  /** Stage by stage, in every run: what a stage has sent is an order-preserving selection from the
      images of what it received; all of it, without cancellation and with nothing in hand. */
  lemma StageOutput(c: Script, r: Run, at: Stage)
    requires IsRun(c, r)
    ensures var s := Last(r);
            && Subsequence(s.procs[at].sent, FlatMap(ImagesBy(c, at), Input(s, at)))
            && (!s.cancelled && (s.procs[at].pc.Receiving? || Over(s.procs[at])) ==>
                  s.procs[at].sent == FlatMap(ImagesBy(c, at), Input(s, at)))
  {
    hide CoreInv, BookInv, MadeInv, IsRun, FlatMap, Subsequence;
    var s := Last(r);
    RunKeepsInv(c, r);
    StageImages(c, s, at);
    assert s.procs[at].sent + [] == s.procs[at].sent;
  }

  // --- snapshots ---

  function Values<T>(jobs: seq<Job<T>>): (r: seq<T>) {
    seq(|jobs|, i requires 0 <= i < |jobs| => jobs[i].value)
  }

  /** The snapshots that `CreateSnapshots` gave for the instances among these items, in order; an error
      gave none. */
  function AllCreated(c: Script, items: seq<Item>): (r: seq<Snapshot>) {
    if items == [] then []
    else if !items[0].OfInstance? then AllCreated(c, items[1..])
    else match c.creates(items[0].instance)
      case Fault => AllCreated(c, items[1..])
      case Reply(snapshots) => snapshots + AllCreated(c, items[1..])
  }

  /** The replicator's list is these snapshots. */
  lemma {:induction false} CreatedValues(c: Script, items: seq<Item>)
    ensures Values(CreatedFor(c, items)) == AllCreated(c, items)
  {
    if items != [] {
      CreatedValues(c, items[1..]);
    }
  }

  /** In every run and on every exit path: once the replicator has left its loop, its list is the
      concatenation of all successful `CreateSnapshots` results; that list and nothing else reaches
      the cleaner; each entry is deleted at most once, in order, and only after all five stages are
      gone; the cleaner ends with all of it deleted, unless the context was cancelled. */
  lemma SnapshotConservation(c: Script, r: Run)
    requires IsRun(c, r)
    ensures var s := Last(r);
            var created := CreatedFor(c, s.procs[FETCHER].sent);
            && Values(created) == AllCreated(c, s.procs[FETCHER].sent)
            && (Over(s.procs[REPLICATOR]) ==> s.made == created)
            && (s.mailbox != [] ==> s.mailbox == [created])
            && s.deleted <= created
            && (s.worker.Deleting? ==> s.deleted + s.worker.left == created)
            && (s.deleted != [] || s.worker.Deleting? ==> forall i: Stage :: s.procs[i].pc.Gone?)
            && (s.worker.Finished? ==> s.deleted == created || (s.cancelled && s.deleted == []))
  {
    hide FlowInv, BookInv, CreatedFor, AllCreated, Values, IsRun;
    var s := Last(r);
    RunKeepsInv(c, r);
    CreatedValues(c, s.procs[FETCHER].sent);
    assert s.made + [] == s.made;
    if PastWait(s.worker) {
      forall i: Stage ensures s.procs[i].pc.Gone? {
        CountAliveNone(s.procs, i);
        assert ProcOk(c, i, s.procs[i], true);
      }
    }
  }

  lemma BeginImages(c: Script)
    ensures Images(c, FETCHER, Begin) == Instances(Emitted(c))
  {
  }

  lemma FetcherIsDone(c: Script, r: Run)
    requires IsRun(c, r) && !Last(r).cancelled && Last(r).worker.Finished?
    ensures Last(r).procs[FETCHER].sent == Instances(Emitted(c))
  {
    hide IsRun, Images, CreatedFor, FlowInv, BookInv, MadeInv, ChainInv, Subsequence;
    var s := Last(r);
    RunKeepsInv(c, r);
    CountAliveNone(s.procs, FETCHER);
    assert ProcOk(c, FETCHER, s.procs[FETCHER], true);
    StageImages(c, s, FETCHER);
    BeginImages(c);
    var f := ImagesBy(c, FETCHER);
    assert FlatMap(f, [Begin]) == f(Begin) + FlatMap(f, []) == f(Begin);
    assert s.procs[FETCHER].sent + [] == s.procs[FETCHER].sent;
  }

  /** The snapshots created for the instances from number `i` on. */
  function CreatedFrom(c: Script, instances: seq<Instance>, i: nat): (r: seq<Snapshot>)
    decreases |instances| - i
  {
    if i >= |instances| then []
    else (match c.creates(Job([i], instances[i])) case Fault => [] case Reply(snapshots) => snapshots)
         + CreatedFrom(c, instances, i + 1)
  }

  /** They are those of each instance in order: what the creation gave, and nothing for an error. */
  lemma {:induction false} CreatedFromMeans(c: Script, instances: seq<Instance>, i: nat)
    returns (parts: seq<seq<Snapshot>>)
    requires i <= |instances|
    ensures |parts| == |instances| - i && CreatedFrom(c, instances, i) == Concat(parts)
    ensures forall n :: i <= n < |instances| ==>
              match c.creates(Job([n], instances[n]))
              case Fault => parts[n - i] == []
              case Reply(snapshots) => parts[n - i] == snapshots
    decreases |instances| - i
  {
    if i == |instances| {
      parts := [];
    } else {
      var rest := CreatedFromMeans(c, instances, i + 1);
      parts := [match c.creates(Job([i], instances[i])) case Fault => [] case Reply(snapshots) => snapshots] + rest;
      assert parts[1..] == rest;
    }
  }

  lemma {:induction false} AllCreatedFrom(c: Script, instances: seq<Instance>, i: nat)
    requires i <= |instances|
    ensures AllCreated(c, Instances(Children(Job([], ()), instances)[i..])) == CreatedFrom(c, instances, i)
    decreases |instances| - i
  {
    if i < |instances| {
      var jobs := Children(Job([], ()), instances);
      assert Instances(jobs[i..]) == [OfInstance(jobs[i])] + Instances(jobs[i + 1..]);
      assert jobs[i] == Job([i], instances[i]);
      AllCreatedFrom(c, instances, i + 1);
    }
  }

  /** A run that ends uncancelled has deleted exactly the snapshots created for all instances. */
  lemma UncancelledCleanup(c: Script, r: Run)
    requires IsRun(c, r)
    requires var s := Last(r); !s.cancelled && s.worker.Finished?
    ensures Values(Last(r).deleted) == CreatedFrom(c, Order(c), 0)
  {
    hide IsRun, CreatedFor, AllCreated, CreatedFrom, Values;
    SnapshotConservation(c, r);
    FetcherIsDone(c, r);
    var jobs := Children(Job([], ()), Order(c));
    assert Emitted(c) == jobs && jobs[0..] == jobs;
    AllCreatedFrom(c, Order(c), 0);
  }

  // --- refusal, leaving, batches ---

  /** The worker has begun its work. */
  predicate Begun(w: Worker) { !w.Checking? && !w.Refused? }

  lemma WorkerGoesOn(c: Script, s: State, step: Step)
    requires Enabled(c, s, step)
    ensures s.worker.Refused? ==> Apply(c, s, step).worker.Refused?
    ensures Begun(s.worker) ==> Begun(Apply(c, s, step).worker)
  {
    hide Images, Absorb, Flush, PollsOf;
  }

  lemma {:induction false} WorkerHasGoneOn(c: Script, r: Run, from: nat, n: nat)
    requires IsRun(c, r) && from <= n <= |r.steps|
    ensures r.states[from].worker.Refused? ==> r.states[n].worker.Refused?
    ensures Begun(r.states[from].worker) ==> Begun(r.states[n].worker)
    decreases n - from
  {
    hide Enabled, Apply, Begun;
    if from < n {
      WorkerHasGoneOn(c, r, from, n - 1);
      assert Follows(c, r, n - 1);
      WorkerGoesOn(c, r.states[n - 1], r.steps[n - 1]);
    }
  }

  /** A run whose context is already cancelled when the worker checks it starts nothing at all, then and
      later; otherwise the worker begins. */
  lemma RefusedRun(c: Script, r: Run, i: nat)
    requires IsRun(c, r) && i < |r.steps| && r.steps[i] == Check
    ensures Last(r).worker.Refused? <==> r.states[i].cancelled
    ensures r.states[i].cancelled ==> Last(r).wg == 0 && forall at: Stage :: Last(r).procs[at].pc.Idle?
  {
    hide FlowInv, BookInv, MadeInv, ChainInv, MailInv, CountAlive;
    assert Follows(c, r, i);
    WorkerHasGoneOn(c, r, i + 1, |r.steps|);
    RunKeepsInv(c, r);
    if r.states[i].cancelled {
      forall at: Stage ensures Last(r).procs[at].pc.Idle? {
        assert ProcOk(c, at, Last(r).procs[at], false);
      }
      NoneStarted(Last(r).procs);
    }
  }

  lemma SurroundingsLeaveStages(c: Script, s: State, step: Step)
    requires Enabled(c, s, step) && OfSurroundings(step)
    ensures Apply(c, s, step).procs == s.procs
  {
    hide Absorb, Flush;
  }

  lemma StagesStayOver(c: Script, s: State, step: Step, at: Stage)
    requires CoreInv(c, s) && Enabled(c, s, step) && !OfSurroundings(step) && Over(s.procs[at])
    ensures Over(Apply(c, s, step).procs[at]) && Apply(c, s, step).procs[at].sent == s.procs[at].sent
  {
    hide CoreInv, Images, Verified, Snapshots, Children, PollsOf, Absorb, Flush, EventsIn;
    if step.Launch? {
      NotStarted(c, s);
    }
  }

  lemma OverStays(c: Script, s: State, step: Step, at: Stage)
    requires CoreInv(c, s) && Enabled(c, s, step) && Over(s.procs[at])
    ensures Over(Apply(c, s, step).procs[at]) && Apply(c, s, step).procs[at].sent == s.procs[at].sent
  {
    hide CoreInv, Enabled, Apply, Over;
    if OfSurroundings(step) {
      SurroundingsLeaveStages(c, s, step);
    } else {
      StagesStayOver(c, s, step, at);
    }
  }

  lemma {:induction false} OverHasStayed(c: Script, r: Run, at: Stage, from: nat, n: nat)
    requires IsRun(c, r) && from <= n <= |r.steps| && Over(r.states[from].procs[at])
    ensures Over(r.states[n].procs[at]) && r.states[n].procs[at].sent == r.states[from].procs[at].sent
    decreases n - from
  {
    hide Enabled, Apply, Over, CoreInv, FlowInv, BookInv, MadeInv;
    if from < n {
      OverHasStayed(c, r, at, from, n - 1);
      RunKeepsInvAt(c, r, n - 1);
      assert Follows(c, r, n - 1);
      OverStays(c, r.states[n - 1], r.steps[n - 1], at);
    }
  }

  /** A stage whose receive select ends its loop sends nothing any more. So does a fetcher, replicator or
      events creator that gives up a send; a verifier or scanner that does goes back to its receive
      select. */
  lemma LeftForGood(c: Script, r: Run, i: nat, at: Stage)
    requires IsRun(c, r) && i < |r.steps|
    requires r.steps[i] == LeaveCancelled(at) || r.steps[i] == LeaveClosed(at) || r.steps[i] == Abandon(at)
    ensures r.steps[i] == Abandon(at) && (at == VERIFIER || at == SCANNER) ==> r.states[i + 1].procs[at].pc.Receiving?
    ensures r.steps[i] != Abandon(at) || (at != VERIFIER && at != SCANNER) ==>
              Over(Last(r).procs[at]) && Last(r).procs[at].sent == r.states[i].procs[at].sent
  {
    assert Follows(c, r, i);
    if Over(r.states[i + 1].procs[at]) {
      hide Enabled, Apply, Over;
      OverHasStayed(c, r, at, i + 1, |r.steps|);
    }
  }

  ghost predicate InBounds(b: Book<Event>, threshold: int) {
    |b.buffer| < threshold && forall i :: 0 <= i < |b.published| ==> b.published[i] != []
  }

  lemma FlushKeepsBounds(b: Book<Event>, events: seq<Event>, threshold: int)
    requires threshold >= 1 && InBounds(b, threshold)
    ensures InBounds(Flush(b), threshold) && InBounds(Absorb(b, events, threshold), threshold)
  {
  }

  lemma StepKeepsBounds(c: Script, s: State, step: Step)
    requires c.threshold >= 1 && InBounds(s.book, c.threshold) && Enabled(c, s, step)
    ensures InBounds(Apply(c, s, step).book, c.threshold)
  {
    hide Images, Verified, Snapshots, Children, PollsOf, InBounds, Flush, Absorb, EventsIn;
    forall events: seq<Event>
      ensures InBounds(Flush(s.book), c.threshold) && InBounds(Absorb(s.book, events, c.threshold), c.threshold)
    {
      FlushKeepsBounds(s.book, events, c.threshold);
    }
    FlushKeepsBounds(s.book, [], c.threshold);
  }

  lemma {:induction false} BatchesAt(c: Script, r: Run, n: nat)
    requires IsRun(c, r) && c.threshold >= 1 && n <= |r.steps|
    ensures InBounds(r.states[n].book, c.threshold)
  {
    hide Enabled, Apply;
    if n > 0 {
      hide InBounds;
      BatchesAt(c, r, n - 1);
      assert Follows(c, r, n - 1);
      StepKeepsBounds(c, r.states[n - 1], r.steps[n - 1]);
    }
  }

  /** In every run no batch is empty, and the buffer stays short of the threshold. */
  lemma BatchesOfRun(c: Script, r: Run)
    requires IsRun(c, r) && c.threshold >= 1
    ensures |Last(r).book.buffer| < c.threshold
    ensures forall i :: 0 <= i < |Last(r).book.published| ==> Last(r).book.published[i] != []
  {
    BatchesAt(c, r, |r.steps|);
  }

  // --- nothing goes wrong ---

  /** In every run: no stage sends on or closes a closed channel, the cleaner's mailbox is closed
      once, and the wait group never goes below zero. */
  lemma NoMisuse(c: Script, r: Run, step: Step)
    requires IsRun(c, r) && Enabled(c, Last(r), step)
    ensures var s := Last(r);
            && (step.Deliver? ==> s.procs[step.at].closes == 0)
            && (step.Close? ==> s.procs[step.at].closes == 0)
            && (step.CloseMailbox? ==> s.mailboxCloses == 0)
            && (step.Exit? ==> s.wg > 0)
  {
    hide FlowInv, BookInv, MadeInv, IsRun, ChainInv;
    var s := Last(r);
    RunKeepsInv(c, r);
    match step
    case Deliver(at) => assert ProcOk(c, at, s.procs[at], at < Started(s.worker));
    case Close(at) => assert ProcOk(c, at, s.procs[at], at < Started(s.worker));
    case Exit(at) =>
      if s.wg == 0 {
        CountAliveNone(s.procs, at);
      }
    case _ =>
  }

  /** In every run the replicator's put into the cleaner's mailbox finds room and an open channel. */
  lemma PutNeverBlocks(c: Script, r: Run)
    requires IsRun(c, r)
    requires var s := Last(r); s.procs[REPLICATOR].pc.Shut? && !s.put
    ensures Enabled(c, Last(r), PutList)
    ensures Last(r).mailboxCloses == 0
  {
    hide FlowInv, BookInv, MadeInv, IsRun, ChainInv;
    var s := Last(r);
    RunKeepsInv(c, r);
    if PastWait(s.worker) {
      CountAliveNone(s.procs, REPLICATOR);
    }
  }
}
