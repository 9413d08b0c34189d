/** The vulnerability worker and its publisher (vulnerability/worker.go, flavors/vulnerability.go)
    as a transition system. Five goroutines hand items on over unbuffered channels, a publisher
    drains the last channel, and the worker deletes the snapshots once the five are gone. A step is
    one rendezvous, one provider call, one choice of a select, or one bookkeeping action; any
    interleaving of enabled steps is a run. */
module ScanPipeline {
  import opened ScanModel
  import opened Publishing

  /** Where a stage's goroutine stands. `Working` holds the item it received and how many answers
      it has already turned down; `Sending` holds what it still has to send. */
  datatype Control =
    | Idle
    | Receiving
    | Working(item: Item, tries: nat)
    | Sending(todo: seq<Item>)
    | Leaving     // out of its loop, the deferred close still to come
    | Shut        // its channel is closed
    | Gone        // `wg.Done` called

  /** A stage: its control, how often it closed its channel, and everything it has sent on it. */
  datatype Proc = Proc(pc: Control, closes: nat, sent: seq<Item>)

  const NEW := Proc(Idle, 0, [])

  /** Fetcher, replicator, verifier, scanner and events creator, in the order they are wired. */
  type Line = ps: seq<Proc> | |ps| == 5 witness [NEW, NEW, NEW, NEW, NEW]

  /** The worker goroutine: `Run`, then `CleanSnapshots`. `Refused` is the early return of a run
      whose context was already cancelled. */
  datatype Worker =
    | Checking
    | Refused
    | Starting(n: nat)
    | Waiting
    | Cleaning
    | Deleting(left: seq<Job<Snapshot>>)
    | ClosingMailbox
    | Finished

  datatype State = State(
    cancelled: bool,
    worker: Worker,
    wg: int,
    procs: Line,
    book: Book<Event>,
    pubStopped: bool,
    made: seq<Job<Snapshot>>,           // the replicator's `snapshots`
    put: bool,                          // the replicator's goroutine has sent its list to the cleaner
    mailbox: seq<seq<Job<Snapshot>>>,   // the cleaner's channel, of capacity one
    mailboxCloses: nat,
    deleted: seq<Job<Snapshot>>)        // deletions attempted, in order

  datatype Step =
    | Cancel
    | Check | Launch | Wait | CleanCancelled | CleanReceive | Delete | CloseMailbox
    | Describe                    // DescribeInstances answers
    | Work(at: Stage)             // volumes listed and sorted; snapshots created; scanned; events built
    | Poll | PollTimeout | PollCancelled
    | Deliver(at: Stage)          // the rendezvous of stage `at` with the next one, or the publisher
    | Abandon(at: Stage)          // a send select takes ctx.Done
    | LeaveCancelled(at: Stage)   // a receive select takes ctx.Done
    | LeaveClosed(at: Stage)      // a receive select finds its channel closed
    | Close(at: Stage) | PutList | Exit(at: Stage)
    | Tick | PublisherClosed | PublisherCancelled

  function Init(): (s: State) {
    State(false, Checking, 0, [NEW, NEW, NEW, NEW, NEW], Book([], []), false, [], false, [], 0, [])
  }

  predicate CanSend(p: Proc) { p.pc.Sending? && p.pc.todo != [] }

  /** The goroutine exists and has not called `wg.Done` yet. */
  predicate Alive(p: Proc) { !p.pc.Idle? && !p.pc.Gone? }

  /** The goroutine has left its loop. */
  predicate Over(p: Proc) { p.pc.Leaving? || p.pc.Shut? || p.pc.Gone? }

  /** Somebody waits to receive what stage `at` sends. */
  predicate Listening(s: State, at: Stage) {
    if at == CREATOR then !s.pubStopped else s.procs[at + 1].pc.Receiving?
  }

  predicate Enabled(c: Script, s: State, step: Step) {
    match step
    case Cancel => !s.cancelled
    case Check => s.worker.Checking?
    case Launch => s.worker.Starting? && s.worker.n < 5
    case Wait => s.worker.Waiting? && s.wg == 0
    case CleanCancelled => s.worker.Cleaning? && s.cancelled
    case CleanReceive => s.worker.Cleaning? && s.mailbox != []
    case Delete => s.worker.Deleting? && s.worker.left != []
    case CloseMailbox => s.worker.ClosingMailbox?
    case Describe => var pc := s.procs[FETCHER].pc; pc.Working? && pc.tries == 0
    case Work(at) =>
      var pc := s.procs[at].pc;
      pc.Working? && at != VERIFIER && (at == FETCHER ==> pc.tries > 0)
    case Poll => var pc := s.procs[VERIFIER].pc; pc.Working? && pc.tries < |PollsOf(c, pc.item)|
    case PollTimeout => var pc := s.procs[VERIFIER].pc; pc.Working? && pc.tries >= |PollsOf(c, pc.item)|
    case PollCancelled => s.procs[VERIFIER].pc.Working? && s.cancelled
    case Deliver(at) => CanSend(s.procs[at]) && Listening(s, at)
    case Abandon(at) => CanSend(s.procs[at]) && s.cancelled
    case LeaveCancelled(at) => s.procs[at].pc.Receiving? && s.cancelled
    case LeaveClosed(at) => s.procs[at].pc.Receiving? && at > 0 && s.procs[at - 1].closes > 0
    case Close(at) => s.procs[at].pc.Leaving?
    case PutList => s.procs[REPLICATOR].pc.Shut? && !s.put && |s.mailbox| < 1
    case Exit(at) => s.procs[at].pc.Shut? && (at == REPLICATOR ==> s.put)
    case Tick => !s.pubStopped
    case PublisherClosed => !s.pubStopped && s.procs[CREATOR].closes > 0
    case PublisherCancelled => !s.pubStopped && s.cancelled
  }

  // --- effects ---

  function Goto(s: State, at: Stage, pc: Control): State {
    s.(procs := s.procs[at := s.procs[at].(pc := pc)])
  }

  /** Where a stage goes when it has nothing left to send: the fetcher returns, the others receive. */
  function Next(at: Stage): Control { if at == FETCHER then Leaving else Receiving }

  /** The deferred `close` of the stage's channel. */
  function CloseChannel(s: State, at: Stage): State {
    s.(procs := s.procs[at := Proc(Shut, s.procs[at].closes + 1, s.procs[at].sent)])
  }

  function Offer(at: Stage, todo: seq<Item>): Control {
    if todo == [] then Next(at) else Sending(todo)
  }

  /** `wg.Add(1)` and the start of stage `n`. */
  function Launched(s: State, n: Stage): State {
    Goto(s, n, if n == FETCHER then Working(Begin, 0) else Receiving)
      .(wg := s.wg + 1, worker := if n == 4 then Waiting else Starting(n + 1))
  }

  /** The head of what `at` has to send has been sent. */
  function SendHead(s: State, at: Stage): State
    requires CanSend(s.procs[at])
  {
    var p := s.procs[at];
    s.(procs := s.procs[at := Proc(Offer(at, p.pc.todo[1..]), p.closes, p.sent + [p.pc.todo[0]])])
  }

  function Delivered(c: Script, s: State, at: Stage): State
    requires CanSend(s.procs[at])
  {
    var item := s.procs[at].pc.todo[0];
    if at == CREATOR
    then SendHead(s, at).(book := Absorb(s.book, EventsIn([item]), c.threshold))
    else Goto(SendHead(s, at), at + 1, Working(item, 0))
  }

  /** Fetcher, replicator and events creator return from their loop; the verifier and the scanner
      only return from the inner call and go back to their receive select. */
  function AfterAbandon(at: Stage): Control {
    if at == VERIFIER || at == SCANNER then Receiving else Leaving
  }

  /** The provider has answered; created snapshots are recorded before any is sent on. */
  function Worked(c: Script, s: State, at: Stage): State
    requires s.procs[at].pc.Working?
  {
    var item := s.procs[at].pc.item;
    var t := Goto(s, at, Offer(at, Images(c, at, item)));
    if at == REPLICATOR && item.OfInstance? then t.(made := s.made + Replicate(c, item.instance)) else t
  }

  /** One describe answer before the timeout: forwarded if all its snapshots are completed. */
  function Polled(c: Script, s: State): State
    requires Enabled(c, s, Poll)
  {
    var pc := s.procs[VERIFIER].pc;
    var answer := PollsOf(c, pc.item)[pc.tries];
    Goto(s, VERIFIER,
         if answer.Reply? && AllCompleted(answer.value)
         then Offer(VERIFIER, Snapshots(Children(pc.item.snapshot, answer.value)))
         else Working(pc.item, pc.tries + 1))
  }

  function AfterDelete(left: seq<Job<Snapshot>>): Worker {
    if left == [] then ClosingMailbox else Deleting(left)
  }

  function Apply(c: Script, s: State, step: Step): (r: State)
    requires Enabled(c, s, step)
  {
    match step
    case Cancel => s.(cancelled := true)
    case Check => s.(worker := if s.cancelled then Refused else Starting(0))
    case Launch => Launched(s, s.worker.n)
    case Wait => s.(worker := Cleaning)
    case CleanCancelled => s.(worker := ClosingMailbox)
    case CleanReceive => s.(worker := AfterDelete(s.mailbox[0]), mailbox := s.mailbox[1..])
    case Delete => s.(deleted := s.deleted + [s.worker.left[0]], worker := AfterDelete(s.worker.left[1..]))
    case CloseMailbox => s.(mailboxCloses := s.mailboxCloses + 1, worker := Finished)
    case Describe => Goto(s, FETCHER, if c.described.Fault? then Leaving else Working(s.procs[FETCHER].pc.item, 1))
    case Work(at) => Worked(c, s, at)
    case Poll => Polled(c, s)
    case PollTimeout => Goto(s, VERIFIER, Receiving)
    case PollCancelled => Goto(s, VERIFIER, Receiving)
    case Deliver(at) => Delivered(c, s, at)
    case Abandon(at) => Goto(s, at, AfterAbandon(at))
    case LeaveCancelled(at) => Goto(s, at, Leaving)
    case LeaveClosed(at) => Goto(s, at, Leaving)
    case Close(at) => CloseChannel(s, at)
    case PutList => s.(put := true, mailbox := s.mailbox + [s.made])
    case Exit(at) => Goto(s, at, Gone).(wg := s.wg - 1)
    case Tick => s.(book := Flush(s.book))
    case PublisherClosed => s.(book := Flush(s.book), pubStopped := true)
    case PublisherCancelled => s.(book := Flush(s.book), pubStopped := true)
  }

  // --- runs ---

  datatype History = History(steps: seq<Step>, states: seq<State>)

  /** A run, with the states it goes through. */
  type Run = r: History | |r.states| == |r.steps| + 1 witness History([], [Init()])

  /** Step number `i` of the run is enabled and leads to the next state. */
  ghost predicate Follows(c: Script, r: Run, i: nat)
    requires i < |r.steps|
  {
    Enabled(c, r.states[i], r.steps[i]) && r.states[i + 1] == Apply(c, r.states[i], r.steps[i])
  }

  ghost predicate IsRun(c: Script, r: Run) {
    r.states[0] == Init() && forall i :: 0 <= i < |r.steps| ==> Follows(c, r, i)
  }

  /** The state a run has reached. */
  function Last(r: Run): State { r.states[|r.steps|] }

  /** The worker has returned, and so has the publisher. */
  predicate AllFinished(s: State) {
    (s.worker.Refused? || s.worker.Finished?) && s.pubStopped
  }
}
