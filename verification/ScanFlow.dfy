/** What the stages of the scan pipeline have passed on: every stage's output against the images of
    its input, the created snapshots, and the published events. */
module ScanFlow {
  import opened Sequences
  import opened ScanModel
  import opened Publishing
  import opened ScanPipeline
  import opened ScanInvariants

  /** What a stage has received: the previous stage's output. */
  function Input(s: State, at: Stage): (r: seq<Item>) {
    if at > 0 then s.procs[at - 1].sent
    else if Started(s.worker) > 0 then [Begin] else []
  }

  /** What a stage will still send for the item it is busy with. */
  function Held(c: Script, at: Stage, pc: Control): (r: seq<Item>) {
    match pc
    case Working(item, tries) => if at == VERIFIER then Verified(c, item, tries) else Images(c, at, item)
    case Sending(todo) => todo
    case _ => []
  }

  /** Output and work in hand are the images of the input, in order; once the context is cancelled
      some may be missing. */
  ghost predicate FlowAt(c: Script, cancelled: bool, at: Stage, input: seq<Item>, p: Proc) {
    var images := FlatMap(ImagesBy(c, at), input);
    && Subsequence(p.sent + Held(c, at, p.pc), images)
    && (!cancelled ==> p.sent + Held(c, at, p.pc) == images)
  }

  ghost predicate FlowInv(c: Script, s: State) {
    forall i: Stage :: FlowAt(c, s.cancelled, i, Input(s, i), s.procs[i])
  }

  /** The publisher has accounted for everything the events creator sent. */
  ghost predicate BookInv(s: State) {
    && Accounted(s.book) == EventsIn(s.procs[CREATOR].sent)
    && (s.pubStopped ==> s.book.buffer == [])
  }

  /** All successful results of `CreateSnapshots` for a sequence of instances. */
  function CreatedFor(c: Script, items: seq<Item>): (r: seq<Job<Snapshot>>) {
    if items == [] then []
    else (if items[0].OfInstance? then Replicate(c, items[0].instance) else []) + CreatedFor(c, items[1..])
  }

  /** The replicator's list is complete: no instance it was handed is missing, but the one it is
      asking about right now. */
  ghost predicate MadeInv(c: Script, s: State) {
    var pc := s.procs[REPLICATOR].pc;
    CreatedFor(c, s.procs[FETCHER].sent) == s.made + (if pc.Working? then CreatedFor(c, [pc.item]) else [])
  }

  ghost predicate Inv(c: Script, s: State) {
    CoreInv(c, s) && FlowInv(c, s) && BookInv(s) && MadeInv(c, s)
  }

  lemma {:induction false} CreatedForAppend(c: Script, xs: seq<Item>, ys: seq<Item>)
    ensures CreatedFor(c, xs + ys) == CreatedFor(c, xs) + CreatedFor(c, ys)
  {
    if xs == [] {
      assert xs + ys == ys;
    } else {
      CreatedForAppend(c, xs[1..], ys);
      AppendAssoc(if xs[0].OfInstance? then Replicate(c, xs[0].instance) else [], CreatedFor(c, xs[1..]),
                  CreatedFor(c, ys));
      assert (xs + ys)[1..] == xs[1..] + ys;
    }
  }

  // --- one stage ---

  /** Work in hand may change its form. */
  lemma SameFlow(c: Script, cancelled: bool, at: Stage, input: seq<Item>, p: Proc, q: Proc)
    requires FlowAt(c, cancelled, at, input, p)
    requires q.sent + Held(c, at, q.pc) == p.sent + Held(c, at, p.pc)
    ensures FlowAt(c, cancelled, at, input, q)
  {
  }

  /** Work in hand may be dropped when the context is cancelled. */
  lemma DropFlow(c: Script, at: Stage, input: seq<Item>, p: Proc, q: Proc)
    requires FlowAt(c, true, at, input, p)
    requires q.sent == p.sent && Held(c, at, q.pc) == []
    ensures FlowAt(c, true, at, input, q)
  {
    SubsequencePrefix(p.sent, Held(c, at, p.pc));
    SubsequenceTrans(p.sent, p.sent + Held(c, at, p.pc), FlatMap(ImagesBy(c, at), input));
    assert q.sent + Held(c, at, q.pc) == p.sent;
  }

  /** A stage with nothing in hand receives one more item. */
  lemma TakeExtendsFlow(c: Script, cancelled: bool, at: Stage, input: seq<Item>, p: Proc, item: Item)
    requires FlowAt(c, cancelled, at, input, p) && Held(c, at, p.pc) == []
    ensures FlowAt(c, cancelled, at, input + [item], p.(pc := Working(item, 0)))
  {
    FlatMapSnoc(ImagesBy(c, at), input, item);
    var images := Images(c, at, item);
    assert Held(c, at, Working(item, 0)) == images;
    SubsequenceRefl(images);
    assert p.sent + [] == p.sent;
    SubsequenceAppend(p.sent, FlatMap(ImagesBy(c, at), input), images, images);
  }

  // --- the whole line ---

  /** A change of stage `at` concerns the flow of that stage and of the next one only. */
  lemma LocalChange(c: Script, s: State, t: State, at: Stage)
    requires FlowInv(c, s) && s.cancelled == t.cancelled
    requires forall i: Stage :: i != at && i != at + 1 ==> t.procs[i] == s.procs[i] && Input(t, i) == Input(s, i)
    requires FlowAt(c, t.cancelled, at, Input(t, at), t.procs[at])
    requires at < 4 ==> FlowAt(c, t.cancelled, at + 1, Input(t, at + 1), t.procs[at + 1])
    ensures FlowInv(c, t)
  {
    hide FlowAt;
    forall i: Stage ensures FlowAt(c, t.cancelled, i, Input(t, i), t.procs[i]) {
      assert FlowAt(c, s.cancelled, i, Input(s, i), s.procs[i]);
    }
  }

  lemma GotoKeepsFlow(c: Script, s: State, at: Stage, p: Proc)
    requires FlowInv(c, s) && p.sent == s.procs[at].sent
    requires Held(c, at, p.pc) == Held(c, at, s.procs[at].pc) || (s.cancelled && Held(c, at, p.pc) == [])
    ensures FlowInv(c, s.(procs := s.procs[at := p]))
  {
    hide FlowAt, Held;
    assert FlowAt(c, s.cancelled, at, Input(s, at), s.procs[at]);
    if at < 4 {
      assert FlowAt(c, s.cancelled, at + 1, Input(s, at + 1), s.procs[at + 1]);
    }
    if Held(c, at, p.pc) == Held(c, at, s.procs[at].pc) {
      SameFlow(c, s.cancelled, at, Input(s, at), s.procs[at], p);
    } else {
      DropFlow(c, at, Input(s, at), s.procs[at], p);
    }
    LocalChange(c, s, s.(procs := s.procs[at := p]), at);
  }

  lemma SendHeadFlow(c: Script, cancelled: bool, at: Stage, input: seq<Item>, p: Proc, q: Proc)
    requires FlowAt(c, cancelled, at, input, p) && CanSend(p)
    requires q.sent == p.sent + [p.pc.todo[0]] && Held(c, at, q.pc) == p.pc.todo[1..]
    ensures FlowAt(c, cancelled, at, input, q)
  {
    hide FlowAt, Images, Verified;
    var item, rest := p.pc.todo[0], p.pc.todo[1..];
    assert p.pc.todo == [item] + rest;
    assert p.sent + ([item] + rest) == (p.sent + [item]) + rest;
    SameFlow(c, cancelled, at, input, p, q);
  }

  lemma DeliverKeepsFlow(c: Script, s: State, at: Stage)
    requires FlowInv(c, s) && CanSend(s.procs[at]) && Listening(s, at)
    ensures FlowInv(c, Delivered(c, s, at))
  {
    hide FlowAt, Images, Verified;
    var t, p := Delivered(c, s, at), s.procs[at];
    assert FlowAt(c, s.cancelled, at, Input(s, at), p);
    SendHeadFlow(c, s.cancelled, at, Input(s, at), p, SendHead(s, at).procs[at]);
    if at != CREATOR {
      assert FlowAt(c, s.cancelled, at + 1, Input(s, at + 1), s.procs[at + 1]);
      TakeExtendsFlow(c, s.cancelled, at + 1, p.sent, s.procs[at + 1], p.pc.todo[0]);
    }
    LocalChange(c, s, t, at);
  }

  lemma LaunchKeepsFlow(c: Script, s: State)
    requires CoreInv(c, s) && FlowInv(c, s) && s.worker.Starting?
    ensures FlowInv(c, Launched(s, s.worker.n))
  {
    hide CoreInv, FlowAt, Images, Verified;
    NotStarted(c, s);
    var t, n := Launched(s, s.worker.n), s.worker.n;
    assert FlowAt(c, s.cancelled, n, Input(s, n), s.procs[n]);
    if n < 4 {
      assert FlowAt(c, s.cancelled, n + 1, Input(s, n + 1), s.procs[n + 1]);
    }
    if n == FETCHER {
      TakeExtendsFlow(c, s.cancelled, FETCHER, [], s.procs[n], Begin);
      assert [] + [Begin] == [Begin];
    } else {
      SameFlow(c, s.cancelled, n, Input(s, n), s.procs[n], t.procs[n]);
    }
    LocalChange(c, s, t, n);
  }

  /** Steps that leave every stage's output, input and work in hand alone. */
  lemma OtherKeepsFlow(c: Script, s: State, t: State)
    requires FlowInv(c, s) && t.procs == s.procs && (Started(t.worker) > 0 <==> Started(s.worker) > 0)
    requires s.cancelled ==> t.cancelled
    ensures FlowInv(c, t)
  {
    forall i: Stage ensures FlowAt(c, t.cancelled, i, Input(t, i), t.procs[i]) {
      assert FlowAt(c, s.cancelled, i, Input(s, i), s.procs[i]);
    }
  }

  lemma WorkKeepsFlow(c: Script, s: State, at: Stage)
    requires FlowInv(c, s) && s.procs[at].pc.Working? && at != VERIFIER
    ensures FlowInv(c, Worked(c, s, at))
  {
    var q := s.procs[at].(pc := Offer(at, Images(c, at, s.procs[at].pc.item)));
    GotoKeepsFlow(c, s, at, q);
    OtherKeepsFlow(c, s.(procs := s.procs[at := q]), Worked(c, s, at));
  }

  lemma PollKeepsFlow(c: Script, s: State)
    requires FlowInv(c, s) && Enabled(c, s, Poll)
    ensures FlowInv(c, Polled(c, s))
  {
    hide FlowAt, Images;
    GotoKeepsFlow(c, s, VERIFIER, Polled(c, s).procs[VERIFIER]);
  }

  /** With no completed answer before the timeout, nothing is left to forward. */
  lemma TimeoutKeepsFlow(c: Script, s: State)
    requires FlowInv(c, s) && Enabled(c, s, PollTimeout)
    ensures FlowInv(c, Goto(s, VERIFIER, Receiving))
  {
    hide FlowAt, Images;
    GotoKeepsFlow(c, s, VERIFIER, s.procs[VERIFIER].(pc := Receiving));
  }

  lemma DescribeKeepsFlow(c: Script, s: State)
    requires CoreInv(c, s) && FlowInv(c, s) && Enabled(c, s, Describe)
    ensures FlowInv(c, Apply(c, s, Describe))
  {
    var p := s.procs[FETCHER];
    assert ProcOk(c, FETCHER, p, FETCHER < Started(s.worker));
    GotoKeepsFlow(c, s, FETCHER, p.(pc := if c.described.Fault? then Leaving else Working(p.pc.item, 1)));
  }

  /** Steps of the worker, of the cleaner's mailbox and of the publisher. */
  predicate OfSurroundings(step: Step) {
    step.Cancel? || step.Check? || step.Wait? || step.CleanCancelled? || step.CleanReceive? || step.Delete?
    || step.CloseMailbox? || step.PutList? || step.Tick? || step.PublisherClosed? || step.PublisherCancelled?
  }

  lemma SurroundingsKeepFlow(c: Script, s: State, step: Step)
    requires FlowInv(c, s) && Enabled(c, s, step) && OfSurroundings(step)
    ensures FlowInv(c, Apply(c, s, step))
  {
    hide FlowInv, Flush;
    OtherKeepsFlow(c, s, Apply(c, s, step));
  }

  lemma StepKeepsFlow(c: Script, s: State, step: Step)
    requires CoreInv(c, s) && FlowInv(c, s) && Enabled(c, s, step)
    ensures FlowInv(c, Apply(c, s, step))
  {
    hide FlowInv, CoreInv, Images, Verified, Flush, Absorb;
    match step
    case Launch => LaunchKeepsFlow(c, s);
    case Deliver(at) => DeliverKeepsFlow(c, s, at);
    case Close(at) => GotoKeepsFlow(c, s, at, CloseChannel(s, at).procs[at]);
    case Describe => DescribeKeepsFlow(c, s);
    case Work(at) => WorkKeepsFlow(c, s, at);
    case Poll => PollKeepsFlow(c, s);
    case PollTimeout => TimeoutKeepsFlow(c, s);
    case PollCancelled => GotoKeepsFlow(c, s, VERIFIER, s.procs[VERIFIER].(pc := Receiving));
    case Abandon(at) => GotoKeepsFlow(c, s, at, s.procs[at].(pc := AfterAbandon(at)));
    case LeaveCancelled(at) => GotoKeepsFlow(c, s, at, s.procs[at].(pc := Leaving));
    case LeaveClosed(at) => GotoKeepsFlow(c, s, at, s.procs[at].(pc := Leaving));
    case Exit(at) =>
      GotoKeepsFlow(c, s, at, s.procs[at].(pc := Gone));
      OtherKeepsFlow(c, Goto(s, at, Gone), Apply(c, s, step));
    case _ => SurroundingsKeepFlow(c, s, step);
  }

  lemma DeliverKeepsBook(c: Script, s: State)
    requires BookInv(s) && Enabled(c, s, Deliver(CREATOR))
    ensures BookInv(Apply(c, s, Deliver(CREATOR)))
  {
    hide Absorb, Accounted;
    var item := s.procs[CREATOR].pc.todo[0];
    AbsorbAccounts(s.book, EventsIn([item]), c.threshold);
    EventsInAppend(s.procs[CREATOR].sent, [item]);
  }

  lemma SurroundingsKeepBook(c: Script, s: State, step: Step)
    requires BookInv(s) && Enabled(c, s, step) && OfSurroundings(step)
    ensures BookInv(Apply(c, s, step))
  {
    hide Flush, Accounted, EventsIn;
    FlushAccounts(s.book);
  }

  /** Only the last stage's deliveries feed the publisher. */
  lemma StagesKeepBook(c: Script, s: State, step: Step)
    requires BookInv(s) && Enabled(c, s, step) && !OfSurroundings(step) && step != Deliver(CREATOR)
    ensures BookInv(Apply(c, s, step))
  {
    hide Flush, Absorb, Accounted, EventsIn, Images, Verified, Snapshots, Children;
  }

  lemma StepKeepsBook(c: Script, s: State, step: Step)
    requires BookInv(s) && Enabled(c, s, step)
    ensures BookInv(Apply(c, s, step))
  {
    hide BookInv, Apply, Enabled;
    if step == Deliver(CREATOR) {
      DeliverKeepsBook(c, s);
    } else if OfSurroundings(step) {
      SurroundingsKeepBook(c, s, step);
    } else {
      StagesKeepBook(c, s, step);
    }
  }

  lemma DeliverKeepsMade(c: Script, s: State, at: Stage)
    requires MadeInv(c, s) && CanSend(s.procs[at]) && Listening(s, at)
    ensures MadeInv(c, Delivered(c, s, at))
  {
    if at == FETCHER {
      CreatedForAppend(c, s.procs[FETCHER].sent, [s.procs[at].pc.todo[0]]);
      assert s.made + [] == s.made;
    }
  }

  lemma WorkKeepsMade(c: Script, s: State, at: Stage)
    requires MadeInv(c, s) && s.procs[at].pc.Working?
    ensures MadeInv(c, Worked(c, s, at))
  {
    if at == REPLICATOR {
      var item := s.procs[at].pc.item;
      assert CreatedFor(c, [item]) == (if item.OfInstance? then Replicate(c, item.instance) else []);
    }
  }

  /** The replicator's part in it, which only the steps above change. */
  lemma OtherKeepsMade(c: Script, s: State, t: State)
    requires MadeInv(c, s) && t.made == s.made && t.procs[FETCHER].sent == s.procs[FETCHER].sent
    requires t.procs[REPLICATOR].pc == s.procs[REPLICATOR].pc
          || (!t.procs[REPLICATOR].pc.Working? && !s.procs[REPLICATOR].pc.Working?)
    ensures MadeInv(c, t)
  {
  }

  lemma StepKeepsMade(c: Script, s: State, step: Step)
    requires CoreInv(c, s) && MadeInv(c, s) && Enabled(c, s, step)
    ensures MadeInv(c, Apply(c, s, step))
  {
    hide CreatedFor, Images, Verified, CoreInv, MadeInv, Flush, Absorb;
    match step
    case Deliver(at) => DeliverKeepsMade(c, s, at);
    case Work(at) => WorkKeepsMade(c, s, at);
    case Launch =>
      NotStarted(c, s);
      OtherKeepsMade(c, s, Apply(c, s, step));
    case _ => OtherKeepsMade(c, s, Apply(c, s, step));
  }

  lemma NotStarted(c: Script, s: State)
    requires CoreInv(c, s) && s.worker.Starting?
    ensures s.worker.n < 5 && s.procs[s.worker.n].pc.Idle? && s.procs[s.worker.n].sent == []
  {
    assert ProcOk(c, s.worker.n, s.procs[s.worker.n], false);
  }

  lemma StepKeepsInv(c: Script, s: State, step: Step)
    requires Inv(c, s) && Enabled(c, s, step)
    ensures Inv(c, Apply(c, s, step))
  {
    hide CoreInv, FlowInv, BookInv, MadeInv;
    StepKeepsCore(c, s, step);
    StepKeepsFlow(c, s, step);
    StepKeepsBook(c, s, step);
    StepKeepsMade(c, s, step);
  }

  lemma InitInv(c: Script)
    ensures Inv(c, Init())
  {
    hide CoreInv, FlowInv;
    InitCore(c);
    InitFlow(c);
  }

  lemma InitCore(c: Script)
    ensures CoreInv(c, Init())
  {
    hide PollsOf, CountAlive;
    NoneStarted(Init().procs);
  }

  lemma {:induction false} NoneStarted(ps: seq<Proc>)
    requires forall i :: 0 <= i < |ps| ==> ps[i].pc.Idle?
    ensures CountAlive(ps) == 0
  {
    if ps != [] {
      NoneStarted(ps[1..]);
    }
  }

  lemma InitFlow(c: Script)
    ensures FlowInv(c, Init())
  {
    hide Images, Verified, Subsequence;
    forall i: Stage ensures FlowAt(c, false, i, Input(Init(), i), Init().procs[i]) {
      assert Init().procs[i] == NEW && NEW.sent + Held(c, i, NEW.pc) == [];
      assert Input(Init(), i) == [] && FlatMap(ImagesBy(c, i), []) == [];
      SubsequenceRefl<Item>([]);
    }
  }

  lemma {:induction false} RunKeepsInvAt(c: Script, r: Run, n: nat)
    requires IsRun(c, r) && n <= |r.steps|
    ensures Inv(c, r.states[n])
  {
    hide Inv, Enabled, Apply;
    if n == 0 {
      InitInv(c);
    } else {
      RunKeepsInvAt(c, r, n - 1);
      assert Follows(c, r, n - 1);
      StepKeepsInv(c, r.states[n - 1], r.steps[n - 1]);
    }
  }

  /** The invariants hold after every run. */
  lemma RunKeepsInv(c: Script, r: Run)
    requires IsRun(c, r)
    ensures Inv(c, Last(r))
  {
    RunKeepsInvAt(c, r, |r.steps|);
  }
}
