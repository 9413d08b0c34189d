/** The launcher (launcher/launcher.go): it creates a beater, waits for a configuration update, a stop
    or an error, and on an update stops the beater, merges the update and creates the next one. The
    launcher goroutine, the beaters' goroutines and the outside world form a transition system. */
module Launcher {
  import opened Sequences

  datatype Config = Config(settings: map<string, string>)

  /** What the surroundings decide: whether an agent manages the beat, the initial configuration,
      how an update merges into a configuration (`None` is an error), and, if there is a validator,
      which configurations it accepts. */
  datatype Setup = Setup(
    managed: bool,
    initial: Config,
    merge: (Config, Config) -> Option<Config>,
    validator: Option<Config -> bool>)

  datatype Outcome = Graceful | TimedOut | BeaterError | MergeError | CreateError | ReloaderClosed | NoFirstConfig

  /** The launcher goroutine. */
  datatype Main =
    | AwaitingFirst              // reconfigureWait
    | MergingFirst(update: Config)
    | Creating                   // runBeater
    | Waiting                    // waitForUpdates
    | Stopping(update: Config)   // stopBeater: Stop called, in wg.Wait
    | Merging(update: Config)
    | StoppingFinal              // stopBeaterWithTimeout
    | Returned(outcome: Outcome)

  /** A beater's goroutine. An error is sent before `wg.Done`; a panic is sent after it, by the
      deferred recovery. `stopLike`: the error wraps the stop signal. */
  datatype Beater =
    | Running
    | SendingError(stopLike: bool)
    | Finishing
    | Panicked
    | SendingPanic
    | Over

  /** A created beater's configuration, the number of updates merged into it, and the number of nil
      configurations the launcher had received by then. */
  datatype Creation = Creation(config: Config, updates: nat, nils: nat)

  datatype State = State(
    main: Main,
    latest: Config,
    beaters: seq<Beater>,        // one per created beater, in order
    stopped: seq<bool>,          // its Stop has been called
    wg: int,
    errors: seq<bool>,           // the error channel, of capacity one
    closed: bool,                // the launcher's Stop has closed it
    crashed: bool,               // a send on the closed channel has crashed the process
    received: seq<Config>,       // updates taken from the reloader
    accepted: seq<Config>,       // updates merged
    created: seq<Creation>,      // one per created beater, in order
    nils: nat,                   // nil configurations taken from the reloader
    overlaps: nat)               // those of them that found a beater active

  datatype Step =
    | FirstUpdate(update: Config) | FirstGivesUp
    | MergeFirst
    | Create(ok: bool)
    | Update(update: Config) | NilUpdate
    | TakeError | SeeStop | SeeReloaderClosed
    | WaitOver | Merge
    | FinalOver | FinalTimeout
    | Stop                                  // the launcher's Stop
    | RunReturns(k: nat) | RunFails(k: nat, stopLike: bool) | RunPanics(k: nat)
    | Send(k: nat) | Done(k: nat)

  function Init(c: Setup): (s: State) {
    State(if c.managed then AwaitingFirst else Creating, c.initial, [], [], 0, [], false, false, [], [], [], 0, 0)
  }

  predicate Valid(c: Setup, update: Config) {
    c.validator.None? || c.validator.value(update)
  }

  /** Not past `wg.Done`. */
  predicate Active(b: Beater) { b.Running? || b.SendingError? || b.Finishing? || b.Panicked? }

  predicate Enabled(c: Setup, s: State, step: Step) {
    !s.crashed &&
    match step
    case FirstUpdate(_) => s.main.AwaitingFirst?
    case FirstGivesUp => s.main.AwaitingFirst?
    case MergeFirst => s.main.MergingFirst?
    case Create(_) => s.main.Creating?
    case Update(_) => s.main.Waiting?
    case NilUpdate => s.main.Waiting?
    case TakeError => s.main.Waiting? && s.errors != []
    case SeeStop => s.main.Waiting? && s.closed && s.errors == []
    case SeeReloaderClosed => s.main.Waiting?
    case WaitOver => s.main.Stopping? && s.wg == 0
    case Merge => s.main.Merging?
    case FinalOver => s.main.StoppingFinal? && s.wg == 0
    case FinalTimeout => s.main.StoppingFinal?
    case Stop => !s.closed
    case RunReturns(k) => k < |s.beaters| && s.beaters[k].Running?
    case RunFails(k, _) => k < |s.beaters| && s.beaters[k].Running?
    case RunPanics(k) => k < |s.beaters| && s.beaters[k].Running?
    case Send(k) =>
      && k < |s.beaters| && (s.beaters[k].SendingError? || s.beaters[k].SendingPanic?)
      && (s.closed || |s.errors| < 1)
    case Done(k) => k < |s.beaters| && (s.beaters[k].Finishing? || s.beaters[k].Panicked?)
  }

  /** `l.beater.Stop()`: the launcher only knows the last beater. */
  function StopLast(s: State): State {
    if s.stopped == [] then s else s.(stopped := s.stopped[|s.stopped| - 1 := true])
  }

  /** `configUpdate`, then `next`; a failed merge ends the launcher. */
  function Merged(c: Setup, s: State, update: Config): State {
    match c.merge(s.latest, update)
    case None => s.(main := Returned(MergeError))
    case Some(latest) => s.(main := Creating, latest := latest, accepted := s.accepted + [update])
  }

  function SetBeater(s: State, k: nat, b: Beater): State
    requires k < |s.beaters|
  {
    s.(beaters := s.beaters[k := b])
  }

  /** A send on the closed channel panics again in the recovery, which nothing catches. */
  function Sent(s: State, k: nat): State
    requires k < |s.beaters| && (s.beaters[k].SendingError? || s.beaters[k].SendingPanic?)
  {
    var b := s.beaters[k];
    if s.closed then s.(crashed := true)
    else SetBeater(s, k, if b.SendingError? then Finishing else Over)
           .(errors := s.errors + [b.SendingError? && b.stopLike])
  }

  function Apply(c: Setup, s: State, step: Step): (r: State)
    requires Enabled(c, s, step)
  {
    match step
    case FirstUpdate(update) =>
      s.(received := s.received + [update], main := if Valid(c, update) then MergingFirst(update) else AwaitingFirst)
    case FirstGivesUp => s.(main := Returned(NoFirstConfig))
    case MergeFirst => Merged(c, s, s.main.update)
    case Create(ok) =>
      if ok
      then s.(main := Waiting, beaters := s.beaters + [Running], stopped := s.stopped + [false],
              wg := s.wg + 1, created := s.created + [Creation(s.latest, |s.accepted|, s.nils)])
      else s.(main := Returned(CreateError))
    case Update(update) => StopLast(s).(main := Stopping(update), received := s.received + [update])
    case NilUpdate => s.(main := Creating, nils := s.nils + 1, overlaps := s.overlaps + if s.wg > 0 then 1 else 0)
    case TakeError =>
      if s.errors[0] then StopLast(s).(main := StoppingFinal, errors := s.errors[1..])
      else s.(main := Returned(BeaterError), errors := s.errors[1..])
    case SeeStop => StopLast(s).(main := StoppingFinal)
    case SeeReloaderClosed => s.(main := Returned(ReloaderClosed))
    case WaitOver => s.(main := Merging(s.main.update))
    case Merge => Merged(c, s, s.main.update)
    case FinalOver => s.(main := Returned(Graceful))
    case FinalTimeout => s.(main := Returned(TimedOut))
    case Stop => s.(closed := true)
    case RunReturns(k) => SetBeater(s, k, Finishing)
    case RunFails(k, stopLike) => SetBeater(s, k, SendingError(stopLike))
    case RunPanics(k) => SetBeater(s, k, Panicked)
    case Send(k) => Sent(s, k)
    case Done(k) => SetBeater(s, k, if s.beaters[k].Panicked? then SendingPanic else Over).(wg := s.wg - 1)
  }

  /** The state after a run, or `None` if some step of it was not enabled. */
  function After(c: Setup, steps: seq<Step>): (r: Option<State>) {
    if steps == [] then Some(Init(c))
    else
      var before := After(c, steps[..|steps| - 1]);
      if before.Some? && Enabled(c, before.value, steps[|steps| - 1])
      then Some(Apply(c, before.value, steps[|steps| - 1])) else None
  }

  // --- specification of the configuration ---

  /** Updates merged one after the other. */
  function MergeAll(c: Setup, updates: seq<Config>): (r: Option<Config>) {
    if updates == [] then Some(c.initial)
    else
      var before := MergeAll(c, updates[..|updates| - 1]);
      if before.None? then None else c.merge(before.value, updates[|updates| - 1])
  }

  function DropInvalid(c: Setup, updates: seq<Config>): (r: seq<Config>) {
    if updates == [] then [] else if Valid(c, updates[0]) then updates else DropInvalid(c, updates[1..])
  }

  /** The updates that count: in managed mode everything before the first valid one is discarded;
      after it, and in unmanaged mode, every update counts, validated or not. */
  function Counting(c: Setup, received: seq<Config>): (r: seq<Config>) {
    if c.managed then DropInvalid(c, received) else received
  }

  // --- invariants ---

  function CountActive(bs: seq<Beater>): (n: nat) {
    if bs == [] then 0 else (if Active(bs[0]) then 1 else 0) + CountActive(bs[1..])
  }

  predicate BetweenBeaters(m: Main) {
    m.AwaitingFirst? || m.MergingFirst? || m.Creating? || m.Merging?
  }

  /** The wait group counts the active beaters. Apart from one there are no more of them than nil
      configurations that found one active, and between two beaters not even that one. */
  ghost predicate CountInv(s: State) {
    && |s.stopped| == |s.beaters| == |s.created|
    && s.overlaps <= s.nils
    && s.wg == CountActive(s.beaters)
    && s.wg <= s.overlaps + 1
    && (BetweenBeaters(s.main) ==> s.wg <= s.overlaps)
    && (s.main == Returned(Graceful) ==> s.wg == 0)
  }

  /** Only the last beater can be active. */
  ghost predicate LastInv(s: State) {
    forall k :: 0 <= k < |s.beaters| - 1 ==> !Active(s.beaters[k])
  }

  /** Every beater but the last has been stopped, and that one too before the next is created. */
  ghost predicate StoppedInv(s: State) {
    && (forall k :: 0 <= k < |s.stopped| - 1 ==> s.stopped[k])
    && (BetweenBeaters(s.main) || s.main.Stopping? ==> forall k :: 0 <= k < |s.stopped| ==> s.stopped[k])
  }

  /** What holds in every run; the last beater is the only active one as long as no nil configuration
      has found a beater active, and the others have been stopped as long as there was none at all. */
  ghost predicate SafetyInv(s: State) {
    && CountInv(s)
    && (s.overlaps == 0 ==> LastInv(s))
    && (s.nils == 0 ==> StoppedInv(s))
  }

  /** The update being worked on. */
  function Pending(m: Main): (r: seq<Config>) {
    if m.MergingFirst? || m.Stopping? || m.Merging? then [m.update] else []
  }

  /** How many updates the first beater takes. */
  function Offset(c: Setup): (n: nat) { if c.managed then 1 else 0 }

  /** Whatever the launcher has done since, creation number `k` was made from its first updates. */
  ghost predicate CreationOk(c: Setup, accepted: seq<Config>, k: nat, creation: Creation) {
    && creation.updates + creation.nils == k + Offset(c)
    && Offset(c) <= creation.updates <= |accepted|
    && MergeAll(c, accepted[..creation.updates]) == Some(creation.config)
  }

  /** Every creation is preceded by one update or by one nil configuration, the first of an unmanaged
      launcher by none. */
  ghost predicate TurnInv(c: Setup, s: State) {
    match s.main {
      case AwaitingFirst => c.managed && s.accepted == [] && s.created == [] && s.nils == 0
      case MergingFirst(_) => c.managed && s.accepted == [] && s.created == [] && s.nils == 0
      case Creating => |s.created| + Offset(c) == |s.accepted| + s.nils
      case Returned(_) => |s.created| + Offset(c) <= |s.accepted| + s.nils + 1
      case _ => s.created != [] && |s.created| + Offset(c) == |s.accepted| + s.nils + 1
    }
  }

  ghost predicate ConfigInv(c: Setup, s: State) {
    && MergeAll(c, s.accepted) == Some(s.latest)
    && s.accepted <= Counting(c, s.received)
    && (!s.main.Returned? ==> Counting(c, s.received) == s.accepted + Pending(s.main))
    && (s.main == Returned(MergeError) ==>
          |s.accepted| < |Counting(c, s.received)| && c.merge(s.latest, Counting(c, s.received)[|s.accepted|]).None?)
    && (s.main == Returned(NoFirstConfig) ==> c.managed && Counting(c, s.received) == [])
    && (!s.main.AwaitingFirst? && !s.main.MergingFirst? && !s.main.Returned? ==> Offset(c) <= |s.accepted|)
    && TurnInv(c, s)
    && forall k :: 0 <= k < |s.created| ==> CreationOk(c, s.accepted, k, s.created[k])
  }

  lemma {:induction false} CountActiveUpdate(bs: seq<Beater>, k: nat, b: Beater)
    requires k < |bs|
    ensures CountActive(bs[k := b]) == CountActive(bs) - (if Active(bs[k]) then 1 else 0) + (if Active(b) then 1 else 0)
  {
    if k == 0 {
      assert bs[k := b][1..] == bs[1..];
    } else {
      CountActiveUpdate(bs[1..], k - 1, b);
      assert bs[k := b][1..] == bs[1..][k - 1 := b];
    }
  }

  lemma {:induction false} CountActiveSnoc(bs: seq<Beater>, b: Beater)
    ensures CountActive(bs + [b]) == CountActive(bs) + (if Active(b) then 1 else 0)
  {
    if bs != [] {
      CountActiveSnoc(bs[1..], b);
      assert (bs + [b])[1..] == bs[1..] + [b];
    }
  }

  lemma {:induction false} NoneActive(bs: seq<Beater>)
    ensures CountActive(bs) == 0 <==> forall k :: 0 <= k < |bs| ==> !Active(bs[k])
  {
    if bs != [] {
      NoneActive(bs[1..]);
      assert forall k :: 0 <= k < |bs[1..]| ==> bs[1..][k] == bs[k + 1];
    }
  }

  predicate OfBeater(step: Step) {
    step.RunReturns? || step.RunFails? || step.RunPanics? || step.Send? || step.Done?
  }

  lemma BeaterKeepsCount(c: Setup, s: State, step: Step)
    requires CountInv(s) && Enabled(c, s, step) && OfBeater(step)
    ensures CountInv(Apply(c, s, step))
  {
    CountActiveUpdate(s.beaters, step.k, Apply(c, s, step).beaters[step.k]);
    assert s.beaters[step.k := s.beaters[step.k]] == s.beaters;
  }

  lemma BeaterKeepsLast(c: Setup, s: State, step: Step)
    requires LastInv(s) && Enabled(c, s, step) && OfBeater(step)
    ensures LastInv(Apply(c, s, step))
  {
  }

  lemma MainKeepsCount(c: Setup, s: State, step: Step)
    requires CountInv(s) && Enabled(c, s, step) && !OfBeater(step)
    ensures CountInv(Apply(c, s, step))
  {
    hide CountActive;
    if step.Create? {
      CountActiveSnoc(s.beaters, Running);
    }
  }

  /** With no active beater at its creation, the new one is the only active one. */
  lemma MainKeepsLast(c: Setup, s: State, step: Step)
    requires CountInv(s) && LastInv(s) && s.overlaps == 0 && Enabled(c, s, step) && !OfBeater(step)
    ensures LastInv(Apply(c, s, step))
  {
    hide CountActive;
    if step.Create? {
      NoneActive(s.beaters);
    }
  }

  lemma BeaterKeepsStopped(c: Setup, s: State, step: Step)
    requires StoppedInv(s) && Enabled(c, s, step) && OfBeater(step)
    ensures StoppedInv(Apply(c, s, step))
  {
  }

  lemma MainKeepsStopped(c: Setup, s: State, step: Step)
    requires StoppedInv(s) && Enabled(c, s, step) && !step.NilUpdate? && !OfBeater(step)
    ensures StoppedInv(Apply(c, s, step))
  {
    hide Valid;
  }

  lemma StepKeepsStopped(c: Setup, s: State, step: Step)
    requires StoppedInv(s) && Enabled(c, s, step) && !step.NilUpdate?
    ensures StoppedInv(Apply(c, s, step))
  {
    hide StoppedInv, Enabled, Apply;
    if OfBeater(step) {
      BeaterKeepsStopped(c, s, step);
    } else {
      MainKeepsStopped(c, s, step);
    }
  }

  /** The counts of nil configurations only grow. */
  lemma NilsGrow(c: Setup, s: State, step: Step)
    requires Enabled(c, s, step)
    ensures s.overlaps <= Apply(c, s, step).overlaps
    ensures s.nils + (if step.NilUpdate? then 1 else 0) == Apply(c, s, step).nils
  {
  }

  lemma StepKeepsSafety(c: Setup, s: State, step: Step)
    requires SafetyInv(s) && Enabled(c, s, step)
    ensures SafetyInv(Apply(c, s, step))
  {
    hide CountInv, LastInv, StoppedInv, Apply, Enabled;
    NilsGrow(c, s, step);
    if OfBeater(step) {
      BeaterKeepsCount(c, s, step);
      if s.overlaps == 0 {
        BeaterKeepsLast(c, s, step);
      }
    } else {
      MainKeepsCount(c, s, step);
      if s.overlaps == 0 {
        MainKeepsLast(c, s, step);
      }
    }
    if s.nils == 0 && !step.NilUpdate? {
      StepKeepsStopped(c, s, step);
    }
  }

  lemma {:induction false} DropInvalidAppend(c: Setup, xs: seq<Config>, x: Config)
    ensures DropInvalid(c, xs + [x]) ==
            if DropInvalid(c, xs) != [] then DropInvalid(c, xs) + [x] else if Valid(c, x) then [x] else []
  {
    if xs == [] {
      assert xs + [x] == [x];
    } else if !Valid(c, xs[0]) {
      DropInvalidAppend(c, xs[1..], x);
      assert (xs + [x])[1..] == xs[1..] + [x];
    }
  }

  lemma MergeAllSnoc(c: Setup, updates: seq<Config>, update: Config)
    ensures MergeAll(c, updates + [update]) ==
            match MergeAll(c, updates) case None => None case Some(before) => c.merge(before, update)
  {
    assert (updates + [update])[..|updates|] == updates;
  }

  lemma MergedKeepsConfig(c: Setup, s: State, update: Config)
    requires ConfigInv(c, s) && (s.main.MergingFirst? || s.main.Merging?) && update == s.main.update
    ensures ConfigInv(c, Merged(c, s, update))
  {
    hide Counting, MergeAll;
    MergeAllSnoc(c, s.accepted, update);
    forall k | 0 <= k < |s.created| ensures CreationOk(c, s.accepted + [update], k, s.created[k]) {
      var n := s.created[k].updates;
      assert (s.accepted + [update])[..n] == s.accepted[..n];
    }
  }

  lemma CreateKeepsConfig(c: Setup, s: State, ok: bool)
    requires ConfigInv(c, s) && s.main.Creating? && Enabled(c, s, Create(ok))
    ensures ConfigInv(c, Apply(c, s, Create(ok)))
  {
    hide Counting, MergeAll;
    assert s.accepted[..|s.accepted|] == s.accepted;
  }

  lemma UpdateKeepsConfig(c: Setup, s: State, step: Step)
    requires ConfigInv(c, s) && Enabled(c, s, step) && (step.FirstUpdate? || step.Update?)
    ensures ConfigInv(c, Apply(c, s, step))
  {
    hide MergeAll, DropInvalid;
    DropInvalidAppend(c, s.received, step.update);
    NothingDropped(c);
    if step.Update? && c.managed {
      assert s.accepted != [];
    }
  }

  lemma NothingDropped(c: Setup)
    ensures DropInvalid(c, []) == []
  {
  }

  lemma StepKeepsConfig(c: Setup, s: State, step: Step)
    requires ConfigInv(c, s) && Enabled(c, s, step)
    ensures ConfigInv(c, Apply(c, s, step))
  {
    hide MergeAll, Counting, CreationOk;
    match step
    case FirstUpdate(_) => UpdateKeepsConfig(c, s, step);
    case Update(_) => UpdateKeepsConfig(c, s, step);
    case MergeFirst => MergedKeepsConfig(c, s, s.main.update);
    case Merge => MergedKeepsConfig(c, s, s.main.update);
    case Create(ok) => CreateKeepsConfig(c, s, ok);
    case _ =>
  }

  lemma InitInv(c: Setup)
    ensures SafetyInv(Init(c)) && ConfigInv(c, Init(c))
  {
    assert c.managed || [] <= Counting(c, []);
  }

  lemma {:induction false} RunKeepsInv(c: Setup, steps: seq<Step>)
    requires After(c, steps).Some?
    ensures SafetyInv(After(c, steps).value) && ConfigInv(c, After(c, steps).value)
  {
    hide Enabled, Apply, SafetyInv, ConfigInv;
    if steps == [] {
      InitInv(c);
    } else {
      var init, last := steps[..|steps| - 1], steps[|steps| - 1];
      RunKeepsInv(c, init);
      StepKeepsSafety(c, After(c, init).value, last);
      StepKeepsConfig(c, After(c, init).value, last);
    }
  }

  // --- results ---

  lemma {:induction false} TwoActive(bs: seq<Beater>, i: nat, j: nat)
    requires i < j < |bs|
    ensures Active(bs[i]) && Active(bs[j]) ==> CountActive(bs) >= 2
  {
    if i > 0 {
      TwoActive(bs[1..], i - 1, j - 1);
    } else {
      NoneActive(bs[1..]);
      assert bs[1..][j - 1] == bs[j];
    }
  }

  /** Counting at most one active beater means that no two are. */
  ghost predicate AtMostOne(bs: seq<Beater>) {
    forall i, j :: 0 <= i < j < |bs| ==> !Active(bs[i]) || !Active(bs[j])
  }

  lemma CountedOnce(bs: seq<Beater>)
    requires CountActive(bs) <= 1
    ensures AtMostOne(bs)
  {
    hide CountActive;
    forall i, j | 0 <= i < j < |bs| ensures !Active(bs[i]) || !Active(bs[j]) {
      TwoActive(bs, i, j);
    }
  }

  /** In every run, across restarts, errors and recovered panics: at most one beater more is active than
      nil configurations arrived while one was active; the wait group counts them; a graceful exit means
      that none is active any more. If no nil configuration found a beater active, at most one is, the
      last one, and none when the next is created. If there was no nil configuration at all, every
      beater but the last has also been stopped, and that one too before the next is created. */
  lemma SingleActiveBeater(c: Setup, steps: seq<Step>)
    requires After(c, steps).Some?
    ensures var s := After(c, steps).value;
            && s.wg == CountActive(s.beaters) <= s.overlaps + 1 && |s.stopped| == |s.beaters|
            && (s.wg <= 1 ==> AtMostOne(s.beaters))
            && (s.main == Returned(Graceful) ==> forall k :: 0 <= k < |s.beaters| ==> !Active(s.beaters[k]))
            && (s.overlaps == 0 ==>
                  && AtMostOne(s.beaters)
                  && (forall k :: 0 <= k < |s.beaters| - 1 ==> !Active(s.beaters[k]))
                  && (s.main.Creating? ==> forall k :: 0 <= k < |s.beaters| ==> !Active(s.beaters[k])))
            && (s.nils == 0 ==>
                  && (forall k :: 0 <= k < |s.beaters| - 1 ==> s.stopped[k])
                  && (s.main.Creating? ==> forall k :: 0 <= k < |s.beaters| ==> s.stopped[k]))
  {
    hide After, Enabled, Apply, ConfigInv, CountActive, AtMostOne;
    var s := After(c, steps).value;
    RunKeepsInv(c, steps);
    NoneActive(s.beaters);
    if s.wg <= 1 {
      CountedOnce(s.beaters);
    }
  }

  /** In every run: the k-th beater is created with the initial configuration and the first updates
      merged in order, as many as the beater's number (one more in managed mode) less the nil
      configurations received by then; these updates are all received ones from the first valid one on,
      and the rejected ones before it are never merged. */
  lemma ConfigurationOfBeaters(c: Setup, steps: seq<Step>)
    requires After(c, steps).Some?
    ensures var s := After(c, steps).value;
            && s.accepted <= Counting(c, s.received)
            && forall k :: 0 <= k < |s.created| ==>
                 && Offset(c) <= s.created[k].updates == k + Offset(c) - s.created[k].nils <= |s.accepted|
                 && MergeAll(c, Counting(c, s.received)[..s.created[k].updates]) == Some(s.created[k].config)
  {
    hide After, MergeAll, Counting, SafetyInv;
    var s := After(c, steps).value;
    RunKeepsInv(c, steps);
    forall k | 0 <= k < |s.created|
      ensures Offset(c) <= s.created[k].updates == k + Offset(c) - s.created[k].nils <= |s.accepted|
      ensures MergeAll(c, Counting(c, s.received)[..s.created[k].updates]) == Some(s.created[k].config)
    {
      assert CreationOk(c, s.accepted, k, s.created[k]);
      var n := s.created[k].updates;
      assert Counting(c, s.received)[..n] == s.accepted[..n];
    }
  }

  /** Which updates count: an unmanaged launcher counts all; a managed one drops those before the first
      that its validator, if there is one, accepts, and counts all from there on. */
  lemma {:induction false} CountingMeans(c: Setup, received: seq<Config>) returns (k: nat)
    ensures k <= |received| && Counting(c, received) == received[k..]
    ensures !c.managed ==> k == 0
    ensures c.managed ==>
              && (forall i :: 0 <= i < k ==> c.validator.Some? && !c.validator.value(received[i]))
              && (k < |received| && c.validator.Some? ==> c.validator.value(received[k]))
  {
    if !c.managed || received == [] || Valid(c, received[0]) {
      k := 0;
    } else {
      k := CountingMeans(c, received[1..]);
      k := k + 1;
      assert received[1..][k - 1..] == received[k..];
      assert forall i :: 0 < i < k ==> received[i] == received[1..][i - 1];
    }
  }

  // --- how a run ends ---

  /** What makes `runLoop`, or the wait before it, come to an end. */
  datatype Ending =
    | StopSeen | ErrorTaken(stopLike: bool)
    | CreationFailed | MergeFailed | ReloaderGone | GivenUp

  function EndingOf(c: Setup, s: State, step: Step): (r: Option<Ending>) {
    match step
    case SeeStop => Some(StopSeen)
    case TakeError => if s.errors == [] then None else Some(ErrorTaken(s.errors[0]))
    case Create(ok) => if ok then None else Some(CreationFailed)
    case MergeFirst =>
      if s.main.MergingFirst? && c.merge(s.latest, s.main.update).None? then Some(MergeFailed) else None
    case Merge =>
      if s.main.Merging? && c.merge(s.latest, s.main.update).None? then Some(MergeFailed) else None
    case SeeReloaderClosed => Some(ReloaderGone)
    case FirstGivesUp => Some(GivenUp)
    case _ => None
  }

  /** The first ending of a run. */
  function Ended(c: Setup, steps: seq<Step>): (r: Option<Ending>) {
    if steps == [] then None
    else
      var init := steps[..|steps| - 1];
      if Ended(c, init).Some? then Ended(c, init)
      else if After(c, init).None? then None
      else EndingOf(c, After(c, init).value, steps[|steps| - 1])
  }

  predicate InShutdown(m: Main) {
    m.StoppingFinal? || m == Returned(Graceful) || m == Returned(TimedOut)
  }

  /** What the launcher does for each ending: it shuts its beater down for a stop, seen as such or
      wrapped in an error, and returns at once for everything else. */
  ghost predicate EndsAs(ending: Option<Ending>, s: State) {
    match ending
    case None => !s.main.StoppingFinal? && !s.main.Returned?
    case Some(StopSeen) => InShutdown(s.main) && s.stopped != [] && s.stopped[|s.stopped| - 1]
    case Some(ErrorTaken(stopLike)) =>
      if stopLike then InShutdown(s.main) && s.stopped != [] && s.stopped[|s.stopped| - 1]
      else s.main == Returned(BeaterError)
    case Some(CreationFailed) => s.main == Returned(CreateError)
    case Some(MergeFailed) => s.main == Returned(MergeError)
    case Some(ReloaderGone) => s.main == Returned(ReloaderClosed)
    case Some(GivenUp) => s.main == Returned(NoFirstConfig)
  }

  lemma StepKeepsEnding(c: Setup, s: State, step: Step, ending: Option<Ending>)
    requires EndsAs(ending, s) && Enabled(c, s, step)
    requires s.main.Waiting? ==> s.stopped != []
    ensures EndsAs(if ending.Some? then ending else EndingOf(c, s, step), Apply(c, s, step))
  {
    hide Valid;
  }

  lemma {:induction false} RunEndsAs(c: Setup, steps: seq<Step>)
    requires After(c, steps).Some?
    ensures EndsAs(Ended(c, steps), After(c, steps).value)
  {
    if steps != [] {
      hide Enabled, Apply, EndsAs, EndingOf, SafetyInv, MergeAll, Counting, CreationOk;
      var init := steps[..|steps| - 1];
      RunEndsAs(c, init);
      RunKeepsInv(c, init);
      OnePerCreation(After(c, init).value);
      StepKeepsEnding(c, After(c, init).value, steps[|steps| - 1], Ended(c, init));
    }
  }

  lemma OnePerCreation(s: State)
    requires SafetyInv(s)
    ensures |s.stopped| == |s.created|
  {
    hide CountActive;
  }

  /** Some beater has ended so: with an error that wraps the stop signal, or with another one or a
      panic. */
  ghost predicate FailedAs(steps: seq<Step>, stopLike: bool) {
    exists k: nat :: RunFails(k, stopLike) in steps || (!stopLike && RunPanics(k) in steps)
  }

  /** Errors on their way and in the channel come from a beater. */
  ghost predicate ErrorsTrace(steps: seq<Step>, s: State) {
    && (forall e :: e in s.errors ==> FailedAs(steps, e))
    && (forall k :: 0 <= k < |s.beaters| ==>
          && (s.beaters[k].SendingError? ==> FailedAs(steps, s.beaters[k].stopLike))
          && (s.beaters[k].Panicked? || s.beaters[k].SendingPanic? ==> FailedAs(steps, false)))
  }

  /** So does the error that ended the run; the stop signal and the outcome of the final wait come from
      the steps of these names. */
  ghost predicate EndTrace(c: Setup, steps: seq<Step>, s: State) {
    && (s.closed ==> Stop in steps)
    && (s.main == Returned(Graceful) ==> FinalOver in steps)
    && (s.main == Returned(TimedOut) ==> FinalTimeout in steps)
    && match Ended(c, steps) {
         case Some(StopSeen) => Stop in steps
         case Some(ErrorTaken(stopLike)) => FailedAs(steps, stopLike)
         case _ => true
       }
  }

  lemma FailedBefore(steps: seq<Step>, step: Step, stopLike: bool)
    requires FailedAs(steps, stopLike)
    ensures FailedAs(steps + [step], stopLike)
  {
    var k: nat :| RunFails(k, stopLike) in steps || (!stopLike && RunPanics(k) in steps);
    assert RunFails(k, stopLike) in steps + [step] || (!stopLike && RunPanics(k) in steps + [step]);
  }

  lemma FailsNow(steps: seq<Step>, step: Step)
    ensures step.RunFails? ==> FailedAs(steps + [step], step.stopLike)
    ensures step.RunPanics? ==> FailedAs(steps + [step], false)
  {
    assert step in steps + [step];
  }

  lemma StepKeepsErrors(c: Setup, steps: seq<Step>, s: State, step: Step)
    requires ErrorsTrace(steps, s) && Enabled(c, s, step)
    ensures ErrorsTrace(steps + [step], Apply(c, s, step))
  {
    hide FailedAs, Valid, Merged;
    forall stopLike | FailedAs(steps, stopLike) ensures FailedAs(steps + [step], stopLike) {
      FailedBefore(steps, step, stopLike);
    }
    FailsNow(steps, step);
    MergedKeepsErrors(c, s);
  }

  lemma MergedKeepsErrors(c: Setup, s: State)
    ensures forall update :: Merged(c, s, update).errors == s.errors && Merged(c, s, update).beaters == s.beaters
  {
  }

  lemma StepKeepsEnd(c: Setup, steps: seq<Step>, s: State, step: Step)
    requires ErrorsTrace(steps, s) && EndTrace(c, steps, s) && Enabled(c, s, step)
    requires After(c, steps) == Some(s)
    ensures EndTrace(c, steps + [step], Apply(c, s, step))
  {
    hide FailedAs, Ended, Valid, After;
    assert step in steps + [step];
    forall stopLike | FailedAs(steps, stopLike) ensures FailedAs(steps + [step], stopLike) {
      FailedBefore(steps, step, stopLike);
    }
    EndedSnoc(c, steps, s, step);
  }

  lemma EndedSnoc(c: Setup, steps: seq<Step>, s: State, step: Step)
    requires After(c, steps) == Some(s)
    ensures Ended(c, steps + [step]) == if Ended(c, steps).Some? then Ended(c, steps) else EndingOf(c, s, step)
  {
    hide EndingOf, After;
    assert (steps + [step])[..|steps|] == steps;
  }

  lemma {:induction false} RunKeepsTrace(c: Setup, steps: seq<Step>)
    requires After(c, steps).Some?
    ensures ErrorsTrace(steps, After(c, steps).value) && EndTrace(c, steps, After(c, steps).value)
  {
    if steps != [] {
      hide ErrorsTrace, EndTrace, Enabled, Apply;
      var init, last := steps[..|steps| - 1], steps[|steps| - 1];
      RunKeepsTrace(c, init);
      StepKeepsErrors(c, init, After(c, init).value, last);
      StepKeepsEnd(c, init, After(c, init).value, last);
      assert init + [last] == steps;
    }
  }

  /** In every run: the launcher shuts its beater down, and returns whether that took longer than the
      grace period, exactly if the first thing to end its loop was the stop signal, after its Stop, or an
      error of a beater that wraps it; the beater has been told to stop. It returns a beater's error
      exactly if that was first, and then some beater has failed otherwise or panicked; and a failed
      creation, a failed merge, a closed reloader, or the end of the wait for a first configuration,
      exactly if that was first. A failed merge is that of the first counting update not accepted; the
      wait has ended without any update that counts. */
  lemma HowRunsEnd(c: Setup, steps: seq<Step>)
    requires After(c, steps).Some?
    ensures var s, ending := After(c, steps).value, Ended(c, steps);
            && (InShutdown(s.main) <==> ending == Some(StopSeen) || ending == Some(ErrorTaken(true)))
            && (s.main == Returned(BeaterError) <==> ending == Some(ErrorTaken(false)))
            && (s.main == Returned(CreateError) <==> ending == Some(CreationFailed))
            && (s.main == Returned(MergeError) <==> ending == Some(MergeFailed))
            && (s.main == Returned(ReloaderClosed) <==> ending == Some(ReloaderGone))
            && (s.main == Returned(NoFirstConfig) <==> ending == Some(GivenUp))
            && (InShutdown(s.main) ==> s.stopped != [] && s.stopped[|s.stopped| - 1])
            && (InShutdown(s.main) ==> Stop in steps || FailedAs(steps, true))
            && (s.main == Returned(Graceful) ==> FinalOver in steps)
            && (s.main == Returned(TimedOut) ==> FinalTimeout in steps)
            && (s.main == Returned(BeaterError) ==> FailedAs(steps, false))
            && (s.main == Returned(MergeError) ==>
                  && |s.accepted| < |Counting(c, s.received)|
                  && c.merge(s.latest, Counting(c, s.received)[|s.accepted|]).None?)
            && (s.main == Returned(NoFirstConfig) ==> c.managed && Counting(c, s.received) == [])
  {
    hide After, Ended, FailedAs, SafetyInv, MergeAll, Counting;
    RunEndsAs(c, steps);
    RunKeepsTrace(c, steps);
    RunKeepsInv(c, steps);
  }

  lemma AfterSnoc(c: Setup, steps: seq<Step>, step: Step)
    requires After(c, steps).Some? && Enabled(c, After(c, steps).value, step)
    ensures After(c, steps + [step]) == Some(Apply(c, After(c, steps).value, step))
  {
    hide Enabled, Apply;
    assert (steps + [step])[..|steps|] == steps;
  }

  /** However a run goes on, unless another nil configuration finds a beater active, there is never
      more than one active beater. */
  ghost predicate SafeFrom(c: Setup, past: seq<Step>)
    requires After(c, past).Some?
  {
    forall more: seq<Step> ::
      After(c, past + more).Some? && After(c, past + more).value.overlaps == After(c, past).value.overlaps ==>
        After(c, past + more).value.wg <= 1
  }

  /** A nil configuration matches none of the loop's cases: the current beater is neither stopped nor
      waited for, and the next one is created. In a run that has been safe so far this is safe, whatever
      follows, exactly if no beater is active when it arrives. */
  lemma NilUpdateSafety(c: Setup, steps: seq<Step>)
    requires After(c, steps).Some? && After(c, steps).value.overlaps == 0
    requires Enabled(c, After(c, steps).value, NilUpdate)
    ensures After(c, steps + [NilUpdate]).Some?
    ensures SafeFrom(c, steps + [NilUpdate]) <==> After(c, steps).value.wg == 0
  {
    hide After, ConfigInv, CountActive, LastInv, StoppedInv;
    var past := steps + [NilUpdate];
    AfterSnoc(c, steps, NilUpdate);
    RunKeepsInv(c, steps);
    if After(c, steps).value.wg == 0 {
      hide Apply;
      forall more: seq<Step> | After(c, past + more).Some? && After(c, past + more).value.overlaps == 0
        ensures After(c, past + more).value.wg <= 1
      {
        RunKeepsInv(c, past + more);
      }
    } else {
      AfterSnoc(c, past, Create(true));
      assert After(c, past + [Create(true)]).value.wg > 1;
    }
  }

  /** The steps to the first beater: in managed mode its configuration arrives first. */
  function Beginning(c: Setup, first: Config): (steps: seq<Step>) {
    if c.managed then [FirstUpdate(first), MergeFirst, Create(true)] else [Create(true)]
  }

  lemma BeginningRuns(c: Setup, first: Config)
    requires c.managed ==> Valid(c, first) && c.merge(c.initial, first).Some?
    ensures After(c, Beginning(c, first)).Some?
    ensures After(c, Beginning(c, first)).value.main.Waiting? && After(c, Beginning(c, first)).value.wg == 1
    ensures !After(c, Beginning(c, first)).value.crashed
  {
    hide After;
    assert After(c, []) == Some(Init(c)) by {
      NothingYet(c);
    }
    if c.managed {
      AfterSnoc(c, [], FirstUpdate(first));
      assert [] + [FirstUpdate(first)] == [FirstUpdate(first)];
      AfterSnoc(c, [FirstUpdate(first)], MergeFirst);
      assert [FirstUpdate(first)] + [MergeFirst] == [FirstUpdate(first), MergeFirst];
      AfterSnoc(c, [FirstUpdate(first), MergeFirst], Create(true));
      assert [FirstUpdate(first), MergeFirst] + [Create(true)] == Beginning(c, first);
    } else {
      AfterSnoc(c, [], Create(true));
      assert [] + [Create(true)] == Beginning(c, first);
    }
  }

  lemma NothingYet(c: Setup)
    ensures After(c, []) == Some(Init(c))
  {
  }

  /** Managed or not: a nil configuration right after the first beater has started leads to two active
      beaters. */
  lemma NilUpdateCounterexample(c: Setup, first: Config)
    requires c.managed ==> Valid(c, first) && c.merge(c.initial, first).Some?
    ensures var steps := Beginning(c, first) + [NilUpdate] + [Create(true)];
            After(c, steps).Some? && After(c, steps).value.wg == 2
  {
    hide After, Beginning;
    BeginningRuns(c, first);
    AfterSnoc(c, Beginning(c, first), NilUpdate);
    AfterSnoc(c, Beginning(c, first) + [NilUpdate], Create(true));
  }

  // --- the wait for the first configuration ---

  datatype Arrival = Channel(update: Config) | ChannelClosed | ErrorChannel | TimerFired

  /** `reconfigureWait`, driven by the cases its select picks: the first valid update, if it comes
      before anything that ends the wait. */
  method ReconfigureWait(c: Setup, arrivals: seq<Arrival>) returns (update: Option<Config>, taken: nat)
    ensures taken <= |arrivals|
    ensures update.Some? ==> taken > 0 && arrivals[taken - 1] == Channel(update.value) && Valid(c, update.value)
    ensures update.None? ==> taken == |arrivals| || (taken > 0 && !arrivals[taken - 1].Channel?)
    ensures update.None? && taken > 0 && arrivals[taken - 1].Channel? ==> !Valid(c, arrivals[taken - 1].update)
    ensures forall i :: 0 <= i < taken - 1 ==> arrivals[i].Channel? && !Valid(c, arrivals[i].update)
  {
    taken := 0;
    while taken < |arrivals|
      invariant taken <= |arrivals|
      invariant forall i :: 0 <= i < taken ==> arrivals[i].Channel? && !Valid(c, arrivals[i].update)
    {
      taken := taken + 1;
      match arrivals[taken - 1] {
        case Channel(received) =>
          if c.validator.Some? && !c.validator.value(received) {
            continue;
          }
          return Some(received), taken;
        case _ =>
          return None, taken;
      }
    }
    update := None;
  }
}
