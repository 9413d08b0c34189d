/** The scan pipeline never gets stuck and never runs for ever. */
module ScanProgress {
  import opened ScanModel
  import opened Publishing
  import opened ScanPipeline
  import opened ScanInvariants
  import opened ScanFlow

  /** A flush tick that finds nothing to flush. */
  predicate IdleTick(s: State, step: Step) { step.Tick? && s.book.buffer == [] }

  // --- no reachable state is stuck ---

  /** Something other than a cancellation or an idle tick can happen. */
  ghost predicate CanMove(c: Script, s: State) {
    exists step: Step :: Enabled(c, s, step) && !step.Cancel? && !IdleTick(s, step)
  }

  lemma Moves(c: Script, s: State, step: Step)
    requires Enabled(c, s, step) && !step.Cancel? && !IdleTick(s, step)
    ensures CanMove(c, s)
  {
  }

  /** A stage inside its own work, or on its way out, can go on by itself. */
  lemma SelfMoves(c: Script, s: State, at: Stage)
    requires CoreInv(c, s)
    requires s.procs[at].pc.Working? || s.procs[at].pc.Leaving? || s.procs[at].pc.Shut?
    ensures CanMove(c, s)
  {
    var pc := s.procs[at].pc;
    if pc.Leaving? {
      Moves(c, s, Close(at));
    } else if pc.Shut? {
      if at == REPLICATOR && !s.put {
        if PastWait(s.worker) {
          CountAliveNone(s.procs, at);
        }
        Moves(c, s, PutList);
      } else {
        Moves(c, s, Exit(at));
      }
    } else if at == VERIFIER {
      Moves(c, s, if pc.tries < |PollsOf(c, pc.item)| then Poll else PollTimeout);
    } else {
      Moves(c, s, if at == FETCHER && pc.tries == 0 then Describe else Work(at));
    }
  }

  /** A stage that wants to send is heard, or something further down the line can move. */
  lemma SenderMoves(c: Script, s: State, at: Stage)
    requires CoreInv(c, s) && s.procs[at].pc.Sending? && Started(s.worker) == 5
    ensures CanMove(c, s)
    decreases 5 - at
  {
    assert ProcOk(c, at, s.procs[at], true);
    if s.cancelled {
      Moves(c, s, Abandon(at));
    } else if at == CREATOR {
      Moves(c, s, Deliver(at));
    } else {
      assert ProcOk(c, at + 1, s.procs[at + 1], true);
      match s.procs[at + 1].pc
      case Receiving => Moves(c, s, Deliver(at));
      case Sending(_) => SenderMoves(c, s, at + 1);
      case Working(_, _) => SelfMoves(c, s, at + 1);
      case _ =>
    }
  }

  /** While some stage is alive, something can move: the first stage whose predecessor is gone. */
  lemma {:induction false} AliveMoves(c: Script, s: State, at: Stage)
    requires CoreInv(c, s) && Started(s.worker) == 5 && Alive(s.procs[at])
    ensures CanMove(c, s)
    decreases at
  {
    assert ProcOk(c, at, s.procs[at], true);
    match s.procs[at].pc
    case Sending(_) => SenderMoves(c, s, at);
    case Receiving =>
      assert ProcOk(c, at - 1, s.procs[at - 1], true);
      if s.procs[at - 1].pc.Gone? {
        Moves(c, s, LeaveClosed(at));
      } else {
        AliveMoves(c, s, at - 1);
      }
    case _ => SelfMoves(c, s, at);
  }

  lemma {:induction false} SomeAlive(ps: seq<Proc>) returns (i: nat)
    requires CountAlive(ps) > 0
    ensures i < |ps| && Alive(ps[i])
  {
    if Alive(ps[0]) {
      i := 0;
    } else {
      i := SomeAlive(ps[1..]);
      i := i + 1;
    }
  }

  /** After any run that is not finished, cancelled or not, a step is enabled that is neither a
      cancellation nor an idle tick. */
  lemma NeverStuck(c: Script, r: Run)
    requires IsRun(c, r) && !AllFinished(Last(r))
    ensures CanMove(c, Last(r))
  {
    hide FlowInv, BookInv, MadeInv, IsRun;
    var s := Last(r);
    RunKeepsInv(c, r);
    match s.worker
    case Checking => Moves(c, s, Check);
    case Starting(_) => Moves(c, s, Launch);
    case Waiting =>
      if s.wg == 0 {
        Moves(c, s, Wait);
      } else {
        var at := SomeAlive(s.procs);
        AliveMoves(c, s, at);
      }
    case Cleaning =>
      CountAliveNone(s.procs, REPLICATOR);
      assert ProcOk(c, REPLICATOR, s.procs[REPLICATOR], true);
      Moves(c, s, CleanReceive);
    case Deleting(_) => Moves(c, s, Delete);
    case ClosingMailbox => Moves(c, s, CloseMailbox);
    case Refused => Moves(c, s, PublisherCancelled);
    case Finished =>
      CountAliveNone(s.procs, CREATOR);
      assert ProcOk(c, CREATOR, s.procs[CREATOR], true);
      Moves(c, s, PublisherClosed);
  }

  // --- every run is finite ---

  /** Answers and deletions a stage's work on an item may still take, beyond the work itself. */
  function Extra(c: Script, at: nat, item: Item, tries: nat): (n: nat) {
    if at == FETCHER then (if tries == 0 then 1 else 0)
    else if at == REPLICATOR && item.OfInstance? then |Replicate(c, item.instance)|
    else if at == VERIFIER then (if tries < |PollsOf(c, item)| then |PollsOf(c, item)| - tries else 0)
    else 0
  }

  /** Steps that an item waiting in front of stage `at` can still cause. */
  function Cost(c: Script, at: nat, item: Item): (n: nat)
    requires at <= 5
    decreases 5 - at, 0, 0
  {
    if at == 5 then 2 else 2 + Extra(c, at, item, 0) + CostAll(c, at + 1, Images(c, at, item))
  }

  function CostAll(c: Script, at: nat, items: seq<Item>): (n: nat)
    requires at <= 5
    decreases 5 - at, 1, |items|
  {
    if items == [] then 0 else Cost(c, at, items[0]) + CostAll(c, at, items[1..])
  }

  function ControlCost(c: Script, at: Stage, pc: Control): (n: nat) {
    match pc
    case Idle => 6 + (if at == FETCHER then Cost(c, FETCHER, Begin) else 0)
    case Receiving => 5
    case Working(item, tries) => 6 + Extra(c, at, item, tries) + CostAll(c, at + 1, Held(c, at, pc))
    case Sending(todo) => 5 + CostAll(c, at + 1, todo)
    case Leaving => 3
    case Shut => 2
    case Gone => 0
  }

  function LineCost(c: Script, ps: Line, from: nat): (n: nat)
    requires from <= 5
    decreases 5 - from
  {
    if from == 5 then 0 else ControlCost(c, from, ps[from].pc) + LineCost(c, ps, from + 1)
  }

  function WorkerCost(s: State): (n: nat) {
    match s.worker
    case Checking => 20 + |s.made|
    case Refused => 0
    case Starting(n) => (if n < 5 then 15 - n else 10) + |s.made|
    case Waiting => 9 + |s.made|
    case Cleaning => 5 + |s.made|
    case Deleting(left) => 3 + |left|
    case ClosingMailbox => 2
    case Finished => 0
  }

  function SideCost(s: State): (n: nat) {
    (if s.cancelled then 0 else 1) + (if s.put then 0 else 1)
    + (if s.pubStopped then 0 else 1) + (if s.book.buffer == [] then 0 else 1)
  }

  function Measure(c: Script, s: State): (n: nat) {
    WorkerCost(s) + LineCost(c, s.procs, 0) + SideCost(s)
  }

  lemma {:induction false} LineCostUpdate(c: Script, ps: Line, at: Stage, p: Proc, from: nat)
    requires from <= 5
    ensures LineCost(c, ps[at := p], from) == LineCost(c, ps, from)
              + (if from <= at then ControlCost(c, at, p.pc) - ControlCost(c, at, ps[at].pc) else 0)
    decreases 5 - from
  {
    hide ControlCost;
    if from < 5 {
      LineCostUpdate(c, ps, at, p, from + 1);
    }
  }

  /** A step on one stage that makes that stage cheaper. */
  lemma GotoIsCheaper(c: Script, s: State, at: Stage, p: Proc)
    requires ControlCost(c, at, p.pc) < ControlCost(c, at, s.procs[at].pc)
    ensures Measure(c, s.(procs := s.procs[at := p])) < Measure(c, s)
  {
    hide ControlCost, LineCost;
    LineCostUpdate(c, s.procs, at, p, 0);
  }

  lemma OfferCost(c: Script, at: Stage, todo: seq<Item>)
    ensures ControlCost(c, at, Offer(at, todo)) <= 5 + CostAll(c, at + 1, todo)
  {
  }

  lemma SendCost(c: Script, at: Stage, p: Proc)
    requires CanSend(p)
    ensures ControlCost(c, at, Offer(at, p.pc.todo[1..])) + Cost(c, at + 1, p.pc.todo[0]) <= ControlCost(c, at, p.pc)
    ensures Cost(c, at + 1, p.pc.todo[0]) >= 2
  {
    OfferCost(c, at, p.pc.todo[1..]);
  }

  lemma TakeCost(c: Script, at: Stage, item: Item)
    ensures ControlCost(c, at, Working(item, 0)) == ControlCost(c, at, Receiving) - 1 + Cost(c, at, item)
  {
  }

  lemma SendIsCheaper(c: Script, s: State, at: Stage)
    requires CanSend(s.procs[at])
    ensures Measure(c, SendHead(s, at)) + Cost(c, at + 1, s.procs[at].pc.todo[0]) <= Measure(c, s)
    ensures Cost(c, at + 1, s.procs[at].pc.todo[0]) >= 2
  {
    hide ControlCost, Cost, LineCost;
    SendCost(c, at, s.procs[at]);
    LineCostUpdate(c, s.procs, at, SendHead(s, at).procs[at], 0);
  }

  lemma TakeIsAccounted(c: Script, s: State, at: Stage, item: Item)
    requires s.procs[at].pc.Receiving?
    ensures Measure(c, Goto(s, at, Working(item, 0))) == Measure(c, s) - 1 + Cost(c, at, item)
  {
    hide ControlCost, Cost, LineCost;
    TakeCost(c, at, item);
    LineCostUpdate(c, s.procs, at, s.procs[at].(pc := Working(item, 0)), 0);
  }

  lemma DeliverIsCheaper(c: Script, s: State, at: Stage)
    requires CanSend(s.procs[at]) && Listening(s, at)
    ensures Measure(c, Delivered(c, s, at)) < Measure(c, s)
  {
    hide Cost, LineCost, Absorb, EventsIn;
    SendIsCheaper(c, s, at);
    if at != CREATOR {
      TakeIsAccounted(c, SendHead(s, at), at + 1, s.procs[at].pc.todo[0]);
    }
  }

  /** What the work on an item costs covers the deletions of the snapshots it creates. */
  lemma WorkCost(c: Script, at: Stage, item: Item, tries: nat)
    requires at != VERIFIER
    ensures ControlCost(c, at, Offer(at, Images(c, at, item)))
              + (if at == REPLICATOR && item.OfInstance? then |Replicate(c, item.instance)| else 0)
          < ControlCost(c, at, Working(item, tries))
  {
    OfferCost(c, at, Images(c, at, item));
  }

  lemma WorkIsCheaper(c: Script, s: State, at: Stage)
    requires CoreInv(c, s) && Enabled(c, s, Work(at))
    ensures Measure(c, Worked(c, s, at)) < Measure(c, s)
  {
    hide ControlCost, Images, LineCost;
    WorkCost(c, at, s.procs[at].pc.item, s.procs[at].pc.tries);
    LineCostUpdate(c, s.procs, at, Worked(c, s, at).procs[at], 0);
    if PastWait(s.worker) {
      CountAliveNone(s.procs, at);
    }
  }

  lemma PollIsCheaper(c: Script, s: State)
    requires Enabled(c, s, Poll)
    ensures Measure(c, Polled(c, s)) < Measure(c, s)
  {
    var pc := s.procs[VERIFIER].pc;
    var answer := PollsOf(c, pc.item)[pc.tries];
    if answer.Reply? && AllCompleted(answer.value) {
      OfferCost(c, VERIFIER, Snapshots(Children(pc.item.snapshot, answer.value)));
    } else {
      assert Verified(c, pc.item, pc.tries) == Verified(c, pc.item, pc.tries + 1);
    }
    GotoIsCheaper(c, s, VERIFIER, Polled(c, s).procs[VERIFIER]);
  }

  /** A stage that is not started yet costs more than one that is. */
  lemma IdleCost(c: Script, at: Stage)
    ensures ControlCost(c, at, if at == FETCHER then Working(Begin, 0) else Receiving) < ControlCost(c, at, Idle)
  {
    TakeCost(c, FETCHER, Begin);
  }

  lemma LaunchIsCheaper(c: Script, s: State)
    requires CoreInv(c, s) && s.worker.Starting?
    ensures Measure(c, Launched(s, s.worker.n)) < Measure(c, s)
  {
    hide CoreInv, ControlCost, LineCost, Cost;
    NotStarted(c, s);
    var n := s.worker.n;
    IdleCost(c, n);
    LineCostUpdate(c, s.procs, n, Launched(s, n).procs[n], 0);
  }

  /** Going back to the receive select, or leaving the loop, with work in hand or without. */
  lemma EscapeIsCheaper(c: Script, s: State, at: Stage, pc: Control)
    requires CanSend(s.procs[at]) || s.procs[at].pc.Working? || s.procs[at].pc.Receiving?
    requires pc.Leaving? || (pc.Receiving? && !s.procs[at].pc.Receiving?)
    ensures Measure(c, Goto(s, at, pc)) < Measure(c, s)
  {
    if CanSend(s.procs[at]) {
      SendCost(c, at, s.procs[at]);
    }
    GotoIsCheaper(c, s, at, s.procs[at].(pc := pc));
  }

  lemma DescribeIsCheaper(c: Script, s: State)
    requires CoreInv(c, s) && Enabled(c, s, Describe)
    ensures Measure(c, Apply(c, s, Describe)) < Measure(c, s)
  {
    hide Images, LineCost, Cost;
    GotoIsCheaper(c, s, FETCHER, Apply(c, s, Describe).procs[FETCHER]);
  }

  lemma ExitIsCheaper(c: Script, s: State, at: Stage)
    requires s.procs[at].pc.Shut?
    ensures Measure(c, Goto(s, at, Gone).(wg := s.wg - 1)) < Measure(c, s)
  {
    hide LineCost;
    GotoIsCheaper(c, s, at, s.procs[at].(pc := Gone));
  }

  lemma PublisherIsCheaper(c: Script, s: State, step: Step)
    requires Enabled(c, s, step) && !IdleTick(s, step)
    requires step.Cancel? || step.Tick? || step.PublisherClosed? || step.PublisherCancelled?
    ensures Measure(c, Apply(c, s, step)) < Measure(c, s)
  {
    hide LineCost;
  }

  lemma WorkerIsCheaper(c: Script, s: State, step: Step)
    requires CoreInv(c, s) && Enabled(c, s, step)
    requires step.Check? || step.Wait? || step.CleanCancelled? || step.CleanReceive?
          || step.Delete? || step.CloseMailbox? || step.PutList?
    ensures Measure(c, Apply(c, s, step)) < Measure(c, s)
  {
    hide LineCost, ChainInv;
    if step.CleanReceive? {
      CountAliveNone(s.procs, REPLICATOR);
      assert ProcOk(c, REPLICATOR, s.procs[REPLICATOR], true);
    }
  }

  lemma StepIsCheaper(c: Script, s: State, step: Step)
    requires CoreInv(c, s) && Enabled(c, s, step) && !IdleTick(s, step)
    ensures Measure(c, Apply(c, s, step)) < Measure(c, s)
  {
    hide Measure, CoreInv, Images, Verified;
    match step
    case Deliver(at) => DeliverIsCheaper(c, s, at);
    case Work(at) => WorkIsCheaper(c, s, at);
    case Poll => PollIsCheaper(c, s);
    case Launch => LaunchIsCheaper(c, s);
    case Describe => DescribeIsCheaper(c, s);
    case PollTimeout => EscapeIsCheaper(c, s, VERIFIER, Receiving);
    case PollCancelled => EscapeIsCheaper(c, s, VERIFIER, Receiving);
    case Abandon(at) => EscapeIsCheaper(c, s, at, AfterAbandon(at));
    case LeaveCancelled(at) => EscapeIsCheaper(c, s, at, Leaving);
    case LeaveClosed(at) => EscapeIsCheaper(c, s, at, Leaving);
    case Close(at) => GotoIsCheaper(c, s, at, CloseChannel(s, at).procs[at]);
    case Exit(at) => ExitIsCheaper(c, s, at);
    case Cancel => PublisherIsCheaper(c, s, step);
    case Tick => PublisherIsCheaper(c, s, step);
    case PublisherClosed => PublisherIsCheaper(c, s, step);
    case PublisherCancelled => PublisherIsCheaper(c, s, step);
    case _ => WorkerIsCheaper(c, s, step);
  }

  lemma StepCosts(c: Script, s: State, step: Step)
    requires Inv(c, s) && Enabled(c, s, step)
    ensures Measure(c, Apply(c, s, step)) + (if IdleTick(s, step) then 0 else 1) <= Measure(c, s)
    ensures IdleTick(s, step) ==> Apply(c, s, step) == s
  {
    hide Measure, CoreInv, Images;
    if !IdleTick(s, step) {
      StepIsCheaper(c, s, step);
    }
  }

  /** How many of the first `n` steps of a run are not idle ticks. */
  function Effective(r: Run, n: nat): (k: nat)
    requires n <= |r.steps|
  {
    if n == 0 then 0
    else Effective(r, n - 1) + (if IdleTick(r.states[n - 1], r.steps[n - 1]) then 0 else 1)
  }

  lemma {:induction false} EffectiveBound(c: Script, r: Run, n: nat)
    requires IsRun(c, r) && n <= |r.steps|
    ensures Effective(r, n) + Measure(c, r.states[n]) <= Measure(c, Init())
  {
    hide Measure, Inv, Enabled, Apply, IdleTick;
    if n > 0 {
      EffectiveBound(c, r, n - 1);
      RunKeepsInvAt(c, r, n - 1);
      assert Follows(c, r, n - 1);
      StepCosts(c, r.states[n - 1], r.steps[n - 1]);
    }
  }

  /** Every run ends: apart from idle ticks, which change nothing, a run has at most as many steps
      as the script's measure allows. */
  lemma RunsAreFinite(c: Script, r: Run)
    requires IsRun(c, r)
    ensures Effective(r, |r.steps|) <= Measure(c, Init())
  {
    hide Measure, IsRun, Effective;
    EffectiveBound(c, r, |r.steps|);
  }

  lemma OnlyCancelCancels(c: Script, s: State, step: Step)
    requires Enabled(c, s, step) && !step.Cancel?
    ensures Apply(c, s, step).cancelled == s.cancelled
  {
    hide Images, Absorb, Flush;
  }

  function Extended(c: Script, r: Run, step: Step): (longer: Run)
    requires Enabled(c, Last(r), step)
  {
    History(r.steps + [step], r.states + [Apply(c, Last(r), step)])
  }

  lemma ExtendedIsRun(c: Script, r: Run, step: Step)
    requires IsRun(c, r) && Enabled(c, Last(r), step)
    ensures IsRun(c, Extended(c, r, step)) && Last(Extended(c, r, step)) == Apply(c, Last(r), step)
  {
    hide Enabled, Apply;
    var longer := Extended(c, r, step);
    forall i | 0 <= i < |longer.steps| ensures Follows(c, longer, i) {
      if i < |r.steps| {
        assert Follows(c, r, i);
      }
    }
  }

  /** Every run can be continued, without a cancellation, until both the worker and the publisher
      have returned. */
  lemma {:induction false} CanFinish(c: Script, r: Run) returns (longer: Run)
    requires IsRun(c, r)
    ensures IsRun(c, longer) && r.steps <= longer.steps && r.states <= longer.states
    ensures (Last(longer).worker.Refused? || Last(longer).worker.Finished?) && Last(longer).pubStopped
    ensures Last(longer).cancelled == Last(r).cancelled
    decreases Measure(c, Last(r))
  {
    hide Measure, Inv, IsRun, Enabled, Apply, IdleTick;
    if AllFinished(Last(r)) {
      longer := r;
    } else {
      RunKeepsInv(c, r);
      NeverStuck(c, r);
      var step: Step :| Enabled(c, Last(r), step) && !step.Cancel? && !IdleTick(Last(r), step);
      StepCosts(c, Last(r), step);
      ExtendedIsRun(c, r, step);
      OnlyCancelCancels(c, Last(r), step);
      longer := CanFinish(c, Extended(c, r, step));
    }
  }
}
