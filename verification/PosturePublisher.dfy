/** The posture pipeline joined to the publisher that drains it (flavors/benchmark/builder/benchmark.go,
    flavors/publisher.go): every value of the last channel is a chunk of events. */
module PosturePublisher {
  import opened Sequences
  import Line = PosturePipeline
  import Publishing

  datatype Setup<!R, !F, V> = Setup(script: Line.Script<R, F, seq<V>>, threshold: int)

  datatype State<R, F, V> = State(
    line: Line.State<R, F, seq<V>>,
    book: Publishing.Book<V>,
    cancelled: bool,
    stopped: bool)      // the publisher has returned

  datatype Step<R> =
    | OfLine(step: Line.Step<R>)   // anything on the line but a receive from its last channel
    | Receive                      // the publisher receives a chunk
    | Tick | SeeClosed | SeeCancelled
    | Cancel

  function Init<R, F, V>(): State<R, F, V> { State(Line.Init(), Publishing.Book([], []), false, false) }

  predicate Enabled<R, F, V>(s: State<R, F, V>, step: Step<R>) {
    match step
    case OfLine(inner) => !inner.Consume? && Line.Enabled(s.line, inner)
    case Receive => !s.stopped && Line.Enabled(s.line, Line.Consume)
    case Tick => !s.stopped
    case SeeClosed => !s.stopped && s.line.transform.buffer == [] && s.line.transform.closes > 0
    case SeeCancelled => !s.stopped && s.cancelled
    case Cancel => !s.cancelled
  }

  function Apply<R, F, V>(c: Setup<R, F, V>, s: State<R, F, V>, step: Step<R>): (r: State<R, F, V>)
    requires Enabled(s, step)
  {
    match step
    case OfLine(inner) => s.(line := Line.Apply(c.script, s.line, inner))
    case Receive =>
      s.(line := Line.Apply(c.script, s.line, Line.Consume),
         book := Publishing.Absorb(s.book, s.line.transform.buffer[0], c.threshold))
    case Tick => s.(book := Publishing.Flush(s.book))
    case SeeClosed => s.(book := Publishing.Flush(s.book), stopped := true)
    case SeeCancelled => s.(book := Publishing.Flush(s.book), stopped := true)
    case Cancel => s.(cancelled := true)
  }

  /** The state after a run, or `None` if some step of it was not enabled. */
  function After<R, F, V>(c: Setup<R, F, V>, steps: seq<Step<R>>): (r: Option<State<R, F, V>>) {
    if steps == [] then Some(Init())
    else
      var before := After(c, steps[..|steps| - 1]);
      if before.Some? && Enabled(before.value, steps[|steps| - 1])
      then Some(Apply(c, before.value, steps[|steps| - 1])) else None
  }

  // --- what is published ---

  /** The publisher accounts for every event of every chunk it has received, and stops early only if
      the context is cancelled. */
  ghost predicate Inv<R, F, V>(c: Setup<R, F, V>, s: State<R, F, V>) {
    && Line.Inv(c.script, s.line)
    && Publishing.Accounted(s.book) == Concat(s.line.transform.popped)
    && (s.stopped ==> s.book.buffer == [])
    && (s.stopped ==> s.cancelled || Line.Delivered(s.line))
  }

  lemma LineKeepsInv<R, F, V>(c: Setup<R, F, V>, s: State<R, F, V>, inner: Line.Step<R>)
    requires Inv(c, s) && Enabled(s, OfLine(inner))
    ensures Inv(c, Apply(c, s, OfLine(inner)))
  {
    hide Concat;
    Line.StepKeepsInv(c.script, s.line, inner);
  }

  lemma ReceiveKeepsInv<R, F, V>(c: Setup<R, F, V>, s: State<R, F, V>)
    requires Inv(c, s) && Enabled(s, Receive)
    ensures Inv(c, Apply(c, s, Receive))
  {
    hide Concat;
    var chunk := s.line.transform.buffer[0];
    Line.StepKeepsInv(c.script, s.line, Line.Consume);
    Publishing.AbsorbAccounts(s.book, chunk, c.threshold);
    ConcatSnoc(s.line.transform.popped, chunk);
  }

  lemma StepKeepsInv<R, F, V>(c: Setup<R, F, V>, s: State<R, F, V>, step: Step<R>)
    requires Inv(c, s) && Enabled(s, step)
    ensures Inv(c, Apply(c, s, step))
  {
    hide Concat;
    match step
    case OfLine(inner) => LineKeepsInv(c, s, inner);
    case Receive => ReceiveKeepsInv(c, s);
    case _ => Publishing.FlushAccounts(s.book);
  }

  lemma {:induction false} RunKeepsInv<R, F, V>(c: Setup<R, F, V>, steps: seq<Step<R>>)
    requires After(c, steps).Some?
    ensures Inv(c, After(c, steps).value)
  {
    if steps != [] {
      hide Inv, Enabled, Apply;
      RunKeepsInv(c, steps[..|steps| - 1]);
      StepKeepsInv(c, After(c, steps[..|steps| - 1]).value, steps[|steps| - 1]);
    }
  }

  /** In every run, cancelled or not: published batches and buffer together are the events of a prefix of
      the composed filter-map of the resources, in order, and nothing is left in the buffer when the
      publisher returns; if it returns uncancelled, the events of all resources have been published. */
  lemma PublishedEvents<R, F, V>(c: Setup<R, F, V>, steps: seq<Step<R>>)
    requires After(c, steps).Some?
    ensures var s := After(c, steps).value;
            var images := Line.FilterMap(Line.Composition(c.script), s.line.eval.taken);
            && s.line.transform.popped <= images
            && Concat(s.book.published) + s.book.buffer == Concat(s.line.transform.popped)
            && (s.stopped ==> s.book.buffer == [])
            && (s.stopped && !s.cancelled ==> s.line.drained && Concat(s.book.published) == Concat(images))
  {
    hide After, Line.FilterMap, Concat;
    var s := After(c, steps).value;
    RunKeepsInv(c, steps);
    Line.InvComposes(c.script, s.line);
    assert s.book.buffer == [] ==> Concat(s.book.published) + s.book.buffer == Concat(s.book.published);
    assert s.line.transform.popped + [] == s.line.transform.popped;
  }

  // --- every drained run ends ---

  /** A flush tick that finds nothing to flush. */
  predicate IdleTick<R, F, V>(s: State<R, F, V>, step: Step<R>) { step.Tick? && s.book.buffer == [] }

  predicate IsResource<R>(step: Step<R>) { step.OfLine? && step.step.Resource? }

  function Measure<R, F, V>(s: State<R, F, V>): (n: nat) {
    2 * Line.Measure(s.line) + (if s.book.buffer == [] then 0 else 1)
    + (if s.stopped then 0 else 1) + (if s.cancelled then 0 else 1)
  }

  lemma StepIsCheaper<R, F, V>(c: Setup<R, F, V>, s: State<R, F, V>, step: Step<R>)
    requires Enabled(s, step)
    ensures !IsResource(step) && !IdleTick(s, step) ==> Measure(Apply(c, s, step)) < Measure(s)
    ensures IdleTick(s, step) ==> Apply(c, s, step) == s
    ensures IsResource(step) ==> Measure(Apply(c, s, step)) == Measure(s) + 12
    ensures |Apply(c, s, step).line.eval.taken| == |s.line.eval.taken| + if IsResource(step) then 1 else 0
  {
    hide Line.Measure, Line.Enabled, Line.Apply;
    if step.OfLine? {
      Line.StepIsCheaper(c.script, s.line, step.step);
    } else if step.Receive? {
      Line.StepIsCheaper(c.script, s.line, Line.Consume);
    }
  }

  /** The steps of a run that are not idle ticks. */
  function Effective<R, F, V>(c: Setup<R, F, V>, steps: seq<Step<R>>): (n: nat) {
    if steps == [] then 0
    else
      var before := After(c, steps[..|steps| - 1]);
      Effective(c, steps[..|steps| - 1])
      + (if before.Some? && IdleTick(before.value, steps[|steps| - 1]) then 0 else 1)
  }

  /** Apart from idle ticks a run has at most twelve steps and thirteen for each resource. */
  lemma {:induction false} RunsAreFinite<R, F, V>(c: Setup<R, F, V>, steps: seq<Step<R>>)
    requires After(c, steps).Some?
    ensures Effective(c, steps) + Measure(After(c, steps).value) <= 12 + 13 * |After(c, steps).value.line.eval.taken|
  {
    if steps != [] {
      hide Measure, Enabled, Apply, IdleTick;
      RunsAreFinite(c, steps[..|steps| - 1]);
      StepIsCheaper(c, After(c, steps[..|steps| - 1]).value, steps[|steps| - 1]);
    }
  }

  lemma AfterSnoc<R, F, V>(c: Setup<R, F, V>, steps: seq<Step<R>>, step: Step<R>)
    requires After(c, steps).Some? && Enabled(After(c, steps).value, step)
    ensures After(c, steps + [step]) == Some(Apply(c, After(c, steps).value, step))
  {
    hide Enabled, Apply;
    assert (steps + [step])[..|steps|] == steps;
  }

  /** Drained, not cancelled and not finished: something can happen. */
  lemma Moves<R, F, V>(c: Setup<R, F, V>, s: State<R, F, V>) returns (step: Step<R>)
    requires Inv(c, s) && s.line.drained && !s.cancelled && !s.stopped
    ensures Enabled(s, step) && !IsResource(step) && !IdleTick(s, step)
    ensures var t := Apply(c, s, step); t.line.drained && !t.cancelled && t.line.eval.taken == s.line.eval.taken
  {
    hide Line.FilterMap, Concat;
    if Line.Delivered(s.line) {
      step := SeeClosed;
    } else {
      var inner := Line.StateMoves(c.script, s.line);
      step := if inner.Consume? then Receive else OfLine(inner);
    }
  }

  /** Every uncancelled run whose resource channel is drained can be continued until the publisher has
      returned, and then the events of all resources have been published. */
  lemma {:induction false} CanFinish<R, F, V>(c: Setup<R, F, V>, steps: seq<Step<R>>) returns (longer: seq<Step<R>>)
    requires After(c, steps).Some?
    requires After(c, steps).value.line.drained && !After(c, steps).value.cancelled
    ensures steps <= longer && After(c, longer).Some? && After(c, longer).value.stopped
    ensures Concat(After(c, longer).value.book.published)
         == Concat(Line.FilterMap(Line.Composition(c.script), After(c, steps).value.line.eval.taken))
    decreases Measure(After(c, steps).value)
  {
    hide After, Inv, Measure, Enabled, Apply, IdleTick, Concat, Line.FilterMap;
    var s := After(c, steps).value;
    RunKeepsInv(c, steps);
    if s.stopped {
      longer := steps;
      PublishedEvents(c, steps);
    } else {
      var step := Moves(c, s);
      StepIsCheaper(c, s, step);
      AfterSnoc(c, steps, step);
      longer := CanFinish(c, steps + [step]);
    }
  }
}
