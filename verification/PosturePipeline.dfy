/** Two generic pipeline steps one after the other (pipeline/pipeline.go), as the posture benchmark
    wires them (flavors/benchmark/builder/benchmark.go): resources are evaluated, findings are
    transformed into events, each stage sending into its own buffered channel. */
module PosturePipeline {
  import opened Sequences

  /** The capacity of a stage's output channel. */
  const CH_BUFFER := 10

  /** Where a stage's goroutine stands: at its range loop, calling its function, sending the result,
      leaving, or finished with its channel closed. */
  datatype Control<I, O> = Ranging | Calling(item: I) | Pushing(result: O) | Leaving | Done

  /** A stage with the history of its two ends: what it took, what was taken from its buffer. */
  datatype Stage<I, O> = Stage(pc: Control<I, O>, taken: seq<I>, buffer: seq<O>, popped: seq<O>, closes: nat)

  /** `drained`: the resource channel is closed and empty. */
  datatype State<R, F, E> = State(drained: bool, eval: Stage<R, F>, transform: Stage<F, E>)

  /** The two stage functions; `None` is an error, logged and skipped. */
  datatype Script<!R, !F, E> = Script(evaluate: R -> Option<F>, create: F -> Option<E>)

  datatype Step<R> =
    | Resource(resource: R)   // the range loop of the first stage receives
    | Drain                   // the manager has stopped and the resource channel is closed
    | EvalEnd | EvalCall | EvalPush | EvalClose
    | Pass                    // the second stage receives from the first one's buffer
    | TransformEnd | TransformCall | TransformPush | TransformClose
    | Consume                 // the publisher receives

  function NewStage<I, O>(): Stage<I, O> { Stage(Ranging, [], [], [], 0) }

  function Init<R, F, E>(): State<R, F, E> { State(false, NewStage(), NewStage()) }

  // --- one stage ---

  function Take<I, O>(s: Stage<I, O>, item: I): Stage<I, O> { s.(pc := Calling(item), taken := s.taken + [item]) }

  function Called<I, O>(s: Stage<I, O>, f: I -> Option<O>): Stage<I, O>
    requires s.pc.Calling?
  {
    match f(s.pc.item)
    case None => s.(pc := Ranging)
    case Some(result) => s.(pc := Pushing(result))
  }

  function Pushed<I, O>(s: Stage<I, O>): Stage<I, O>
    requires s.pc.Pushing?
  {
    s.(pc := Ranging, buffer := s.buffer + [s.pc.result])
  }

  function Popped<I, O>(s: Stage<I, O>): Stage<I, O>
    requires s.buffer != []
  {
    s.(buffer := s.buffer[1..], popped := s.popped + [s.buffer[0]])
  }

  function Finished<I, O>(s: Stage<I, O>): Stage<I, O> { s.(pc := Done, closes := s.closes + 1) }

  // --- the system ---

  predicate Enabled<R, F, E>(s: State<R, F, E>, step: Step<R>) {
    match step
    case Resource(_) => s.eval.pc.Ranging? && !s.drained
    case Drain => !s.drained
    case EvalEnd => s.eval.pc.Ranging? && s.drained
    case EvalCall => s.eval.pc.Calling?
    case EvalPush => s.eval.pc.Pushing? && |s.eval.buffer| < CH_BUFFER
    case EvalClose => s.eval.pc.Leaving?
    case Pass => s.transform.pc.Ranging? && s.eval.buffer != []
    case TransformEnd => s.transform.pc.Ranging? && s.eval.buffer == [] && s.eval.closes > 0
    case TransformCall => s.transform.pc.Calling?
    case TransformPush => s.transform.pc.Pushing? && |s.transform.buffer| < CH_BUFFER
    case TransformClose => s.transform.pc.Leaving?
    case Consume => s.transform.buffer != []
  }

  function Apply<R, F, E>(c: Script<R, F, E>, s: State<R, F, E>, step: Step<R>): (r: State<R, F, E>)
    requires Enabled(s, step)
  {
    match step
    case Resource(resource) => s.(eval := Take(s.eval, resource))
    case Drain => s.(drained := true)
    case EvalEnd => s.(eval := s.eval.(pc := Leaving))
    case EvalCall => s.(eval := Called(s.eval, c.evaluate))
    case EvalPush => s.(eval := Pushed(s.eval))
    case EvalClose => s.(eval := Finished(s.eval))
    case Pass => s.(eval := Popped(s.eval), transform := Take(s.transform, s.eval.buffer[0]))
    case TransformEnd => s.(transform := s.transform.(pc := Leaving))
    case TransformCall => s.(transform := Called(s.transform, c.create))
    case TransformPush => s.(transform := Pushed(s.transform))
    case TransformClose => s.(transform := Finished(s.transform))
    case Consume => s.(transform := Popped(s.transform))
  }

  /** The state after a run, or `None` if some step of it was not enabled. */
  function After<R, F, E>(c: Script<R, F, E>, steps: seq<Step<R>>): (r: Option<State<R, F, E>>) {
    if steps == [] then Some(Init())
    else
      var before := After(c, steps[..|steps| - 1]);
      if before.Some? && Enabled(before.value, steps[|steps| - 1])
      then Some(Apply(c, before.value, steps[|steps| - 1])) else None
  }

  // --- specification ---

  function FilterMap<I, O>(f: I -> Option<O>, xs: seq<I>): (r: seq<O>) {
    if xs == [] then [] else (if f(xs[0]).Some? then [f(xs[0]).value] else []) + FilterMap(f, xs[1..])
  }

  /** Evaluate, then transform; an error in either drops the resource. */
  function Both<R, F, E>(c: Script<R, F, E>, resource: R): (r: Option<E>) {
    match c.evaluate(resource)
    case None => None
    case Some(finding) => c.create(finding)
  }

  function Composition<R, F, E>(c: Script<R, F, E>): R -> Option<E> { resource => Both(c, resource) }

  function Parts<I, O>(f: I -> Option<O>, xs: seq<I>): (r: seq<seq<O>>) {
    seq(|xs|, i requires 0 <= i < |xs| => match f(xs[i]) case None => [] case Some(y) => [y])
  }

  /** For each item in order its result, if there is one. */
  lemma {:induction false} FilterMapMeans<I, O>(f: I -> Option<O>, xs: seq<I>)
    ensures FilterMap(f, xs) == Concat(Parts(f, xs))
  {
    if xs != [] {
      FilterMapMeans(f, xs[1..]);
      assert Parts(f, xs) == Parts(f, [xs[0]]) + Parts(f, xs[1..]);
    }
  }

  lemma {:induction false} FilterMapAppend<I, O>(f: I -> Option<O>, xs: seq<I>, ys: seq<I>)
    ensures FilterMap(f, xs + ys) == FilterMap(f, xs) + FilterMap(f, ys)
  {
    if xs == [] {
      assert xs + ys == ys;
    } else {
      FilterMapAppend(f, xs[1..], ys);
      AppendAssoc(if f(xs[0]).Some? then [f(xs[0]).value] else [], FilterMap(f, xs[1..]), FilterMap(f, ys));
      assert (xs + ys)[1..] == xs[1..] + ys;
    }
  }

  lemma {:induction false} FilterMapCompose<R, F, E>(c: Script<R, F, E>, xs: seq<R>)
    ensures FilterMap(c.create, FilterMap(c.evaluate, xs)) == FilterMap(Composition(c), xs)
  {
    if xs != [] {
      FilterMapCompose(c, xs[1..]);
      var head := if c.evaluate(xs[0]).Some? then [c.evaluate(xs[0]).value] else [];
      FilterMapAppend(c.create, head, FilterMap(c.evaluate, xs[1..]));
    }
  }

  // --- invariant ---

  function InHand<I, O>(f: I -> Option<O>, pc: Control<I, O>): (r: seq<O>) {
    match pc
    case Calling(item) => if f(item).Some? then [f(item).value] else []
    case Pushing(result) => [result]
    case _ => []
  }

  /** Delivered, buffered and in hand: together exactly the images of what was taken, in order. */
  ghost predicate StageInv<I, O>(f: I -> Option<O>, s: Stage<I, O>) {
    && s.popped + s.buffer + InHand(f, s.pc) == FilterMap(f, s.taken)
    && |s.buffer| <= CH_BUFFER
    && s.closes == (if s.pc.Done? then 1 else 0)
  }

  ghost predicate Inv<R, F, E>(c: Script<R, F, E>, s: State<R, F, E>) {
    && StageInv(c.evaluate, s.eval)
    && StageInv(c.create, s.transform)
    && s.transform.taken == s.eval.popped
    && (s.eval.pc.Leaving? || s.eval.pc.Done? ==> s.drained)
    && (s.transform.pc.Leaving? || s.transform.pc.Done? ==> s.eval.pc.Done? && s.eval.buffer == [])
  }

  lemma TakeKeeps<I, O>(f: I -> Option<O>, s: Stage<I, O>, item: I)
    requires StageInv(f, s) && s.pc.Ranging?
    ensures StageInv(f, Take(s, item))
  {
    FilterMapAppend(f, s.taken, [item]);
    assert FilterMap(f, [item]) == InHand(f, Calling(item));
    assert s.popped + s.buffer + [] == s.popped + s.buffer;
  }

  lemma PushKeeps<I, O>(f: I -> Option<O>, s: Stage<I, O>)
    requires StageInv(f, s) && s.pc.Pushing? && |s.buffer| < CH_BUFFER
    ensures StageInv(f, Pushed(s))
  {
    assert s.popped + (s.buffer + [s.pc.result]) + [] == s.popped + s.buffer + [s.pc.result];
  }

  lemma PopKeeps<I, O>(f: I -> Option<O>, s: Stage<I, O>)
    requires StageInv(f, s) && s.buffer != []
    ensures StageInv(f, Popped(s))
  {
    assert (s.popped + [s.buffer[0]]) + s.buffer[1..] == s.popped + s.buffer;
  }

  lemma StepKeepsInv<R, F, E>(c: Script<R, F, E>, s: State<R, F, E>, step: Step<R>)
    requires Inv(c, s) && Enabled(s, step)
    ensures Inv(c, Apply(c, s, step))
  {
    match step
    case Resource(resource) => TakeKeeps(c.evaluate, s.eval, resource);
    case EvalPush => PushKeeps(c.evaluate, s.eval);
    case Pass =>
      PopKeeps(c.evaluate, s.eval);
      TakeKeeps(c.create, s.transform, s.eval.buffer[0]);
    case TransformPush => PushKeeps(c.create, s.transform);
    case Consume => PopKeeps(c.create, s.transform);
    case _ =>
  }

  lemma {:induction false} RunKeepsInv<R, F, E>(c: Script<R, F, E>, steps: seq<Step<R>>)
    requires After(c, steps).Some?
    ensures Inv(c, After(c, steps).value)
  {
    if steps != [] {
      RunKeepsInv(c, steps[..|steps| - 1]);
      StepKeepsInv(c, After(c, steps[..|steps| - 1]).value, steps[|steps| - 1]);
    }
  }

  // --- results ---

  function Busy<I, O>(s: Stage<I, O>): (n: nat) { if s.pc.Calling? || s.pc.Pushing? then 1 else 0 }

  /** Items received from the resource channel and neither delivered nor dropped. */
  function InFlight<R, F, E>(s: State<R, F, E>): (n: nat) {
    Busy(s.eval) + |s.eval.buffer| + Busy(s.transform) + |s.transform.buffer|
  }

  /** What has been received from the line, what the two buffers and hands hold, and what was taken. */
  lemma InvComposes<R, F, E>(c: Script<R, F, E>, s: State<R, F, E>)
    requires Inv(c, s)
    ensures s.transform.popped <= FilterMap(Composition(c), s.eval.taken)
    ensures s.transform.closes == 1 ==>
              s.drained && s.transform.popped + s.transform.buffer == FilterMap(Composition(c), s.eval.taken)
  {
    FilterMapCompose(c, s.eval.taken);
    var rest := s.eval.buffer + InHand(c.evaluate, s.eval.pc);
    assert s.eval.popped + rest == FilterMap(c.evaluate, s.eval.taken);
    FilterMapAppend(c.create, s.eval.popped, rest);
    assert s.transform.popped + (s.transform.buffer + InHand(c.create, s.transform.pc))
        == FilterMap(c.create, s.eval.popped);
    if s.transform.pc.Done? {
      assert rest == [];
      assert s.transform.buffer + [] == s.transform.buffer;
    }
  }

  /** In every run: what the publisher received is a prefix of the composed filter-map of the
      resources, and all of it once the last channel is closed and empty; that channel is closed
      once, after the last resource; and at most 22 items are in flight. */
  lemma ComposedStages<R, F, E>(c: Script<R, F, E>, steps: seq<Step<R>>)
    requires After(c, steps).Some?
    ensures var s := After(c, steps).value;
            && s.transform.popped <= FilterMap(Composition(c), s.eval.taken)
            && s.transform.closes <= 1
            && (s.transform.closes == 1 ==> s.drained)
            && (s.transform.closes == 1 ==>
                  s.transform.popped + s.transform.buffer == FilterMap(Composition(c), s.eval.taken))
            && InFlight(s) <= 22
  {
    hide After, FilterMap;
    RunKeepsInv(c, steps);
    InvComposes(c, After(c, steps).value);
  }

  lemma AfterSnoc<R, F, E>(c: Script<R, F, E>, steps: seq<Step<R>>, step: Step<R>)
    requires After(c, steps).Some? && Enabled(After(c, steps).value, step)
    ensures After(c, steps + [step]) == Some(Apply(c, After(c, steps).value, step))
  {
    hide Enabled, Apply;
    assert (steps + [step])[..|steps|] == steps;
  }

  /** Both range loops are waiting, with so many items in the two buffers. */
  predicate Filled<R, F, E>(s: State<R, F, E>, evaluated: nat, transformed: nat) {
    && !s.drained && s.eval.pc.Ranging? && |s.eval.buffer| == evaluated && |s.transform.buffer| == transformed
  }

  /** One more resource goes into the first buffer. */
  lemma Evaluate<R, F, E>(c: Script<R, F, E>, steps: seq<Step<R>>, resource: R, n: nat, m: nat)
    returns (longer: seq<Step<R>>)
    requires c.evaluate(resource).Some? && n < CH_BUFFER
    requires After(c, steps).Some? && Filled(After(c, steps).value, n, m)
    ensures After(c, longer).Some? && Filled(After(c, longer).value, n + 1, m)
    ensures After(c, longer).value.transform == After(c, steps).value.transform
    ensures After(c, longer).value.eval.buffer == After(c, steps).value.eval.buffer + [c.evaluate(resource).value]
  {
    hide After;
    AfterSnoc(c, steps, Resource(resource));
    longer := steps + [Resource(resource)];
    AfterSnoc(c, longer, EvalCall);
    longer := longer + [EvalCall];
    AfterSnoc(c, longer, EvalPush);
    longer := longer + [EvalPush];
  }

  /** One more resource goes through both steps, as far as the send into the second buffer. */
  lemma PassThrough<R, F, E>(c: Script<R, F, E>, steps: seq<Step<R>>, resource: R, m: nat)
    returns (longer: seq<Step<R>>)
    requires Both(c, resource).Some?
    requires After(c, steps).Some? && Filled(After(c, steps).value, 0, m) && After(c, steps).value.transform.pc.Ranging?
    ensures After(c, longer).Some? && Filled(After(c, longer).value, 0, m)
    ensures After(c, longer).value.transform.pc.Pushing?
  {
    hide After;
    longer := Evaluate(c, steps, resource, 0, m);
    AfterSnoc(c, longer, Pass);
    longer := longer + [Pass];
    AfterSnoc(c, longer, TransformCall);
    longer := longer + [TransformCall];
  }

  lemma {:induction false} FillSecond<R, F, E>(c: Script<R, F, E>, resource: R, m: nat)
    returns (steps: seq<Step<R>>)
    requires Both(c, resource).Some? && m <= CH_BUFFER
    ensures After(c, steps).Some? && Filled(After(c, steps).value, 0, m) && After(c, steps).value.transform.pc.Ranging?
  {
    if m == 0 {
      steps := [];
    } else {
      hide After;
      steps := FillSecond(c, resource, m - 1);
      steps := PassThrough(c, steps, resource, m - 1);
      AfterSnoc(c, steps, TransformPush);
      steps := steps + [TransformPush];
    }
  }

  lemma {:induction false} FillFirst<R, F, E>(c: Script<R, F, E>, resource: R, n: nat)
    returns (steps: seq<Step<R>>)
    requires Both(c, resource).Some? && n <= CH_BUFFER
    ensures After(c, steps).Some? && Filled(After(c, steps).value, n, CH_BUFFER)
    ensures After(c, steps).value.transform.pc.Pushing?
  {
    hide After;
    if n == 0 {
      steps := FillSecond(c, resource, CH_BUFFER);
      steps := PassThrough(c, steps, resource, CH_BUFFER);
    } else {
      steps := FillFirst(c, resource, n - 1);
      steps := Evaluate(c, steps, resource, n - 1, CH_BUFFER);
    }
  }

  /** The bound is exact: as soon as one resource makes it through both functions, some run has 22 items
      in flight. */
  lemma BoundIsReached<R, F, E>(c: Script<R, F, E>, resource: R) returns (steps: seq<Step<R>>)
    requires Both(c, resource).Some?
    ensures After(c, steps).Some? && InFlight(After(c, steps).value) == 22
  {
    hide After;
    steps := FillFirst(c, resource, CH_BUFFER);
    AfterSnoc(c, steps, Resource(resource));
    steps := steps + [Resource(resource)];
  }

  predicate Delivered<R, F, E>(s: State<R, F, E>) { s.transform.pc.Done? && s.transform.buffer == [] }

  /** A drained line has a step to make, whatever its state, until all is delivered. */
  lemma StateMoves<R, F, E>(c: Script<R, F, E>, s: State<R, F, E>) returns (step: Step<R>)
    requires Inv(c, s) && s.drained && !Delivered(s)
    ensures Enabled(s, step) && !step.Resource? && !step.Drain?
  {
    hide FilterMap;
    if s.transform.buffer != [] {
      step := Consume;
    } else {
      match s.transform.pc
      case Calling(_) => step := TransformCall;
      case Pushing(_) => step := TransformPush;
      case Leaving => step := TransformClose;
      case Ranging =>
        if s.eval.buffer != [] {
          step := Pass;
        } else {
          match s.eval.pc
          case Ranging => step := EvalEnd;
          case Calling(_) => step := EvalCall;
          case Pushing(_) => step := EvalPush;
          case Leaving => step := EvalClose;
          case Done => step := TransformEnd;
        }
    }
  }

  /** With the resource channel drained and the publisher receiving, some step is enabled until the
      last channel is closed and empty: a full buffer never blocks the line for good. */
  lemma DrainedLineMoves<R, F, E>(c: Script<R, F, E>, steps: seq<Step<R>>) returns (step: Step<R>)
    requires After(c, steps).Some?
    requires After(c, steps).value.drained && !Delivered(After(c, steps).value)
    ensures Enabled(After(c, steps).value, step) && !step.Resource? && !step.Drain?
  {
    hide After, Inv;
    RunKeepsInv(c, steps);
    step := StateMoves(c, After(c, steps).value);
  }

  // --- every drained run ends ---

  /** Steps a stage and the items it holds can still cause; an item in its hand causes `steps` more
      from the call on, one in its buffer two less. */
  function StageCost<I, O>(s: Stage<I, O>, steps: nat): (n: nat)
    requires steps >= 3
  {
    (match s.pc
     case Ranging => 2
     case Calling(_) => 2 + steps
     case Pushing(_) => 1 + steps
     case Leaving => 1
     case Done => 0)
    + |s.buffer| * (steps - 2)
  }

  /** Steps the line can still make without another resource. */
  function Measure<R, F, E>(s: State<R, F, E>): (n: nat) {
    (if s.drained then 0 else 1) + StageCost(s.eval, 6) + StageCost(s.transform, 3)
  }

  /** Every step but the arrival of a resource makes the line cheaper, and that costs six steps. */
  lemma StepIsCheaper<R, F, E>(c: Script<R, F, E>, s: State<R, F, E>, step: Step<R>)
    requires Enabled(s, step)
    ensures if step.Resource? then Measure(Apply(c, s, step)) == Measure(s) + 6
            else Measure(Apply(c, s, step)) < Measure(s)
    ensures |Apply(c, s, step).eval.taken| == |s.eval.taken| + if step.Resource? then 1 else 0
  {
  }

  /** Every run is finite in the resources that arrive: at most five steps and seven for each; and once
      the resource channel is drained no more arrive. */
  lemma {:induction false} RunsAreFinite<R, F, E>(c: Script<R, F, E>, steps: seq<Step<R>>)
    requires After(c, steps).Some?
    ensures |steps| + Measure(After(c, steps).value) <= 5 + 7 * |After(c, steps).value.eval.taken|
  {
    if steps != [] {
      hide Measure, Enabled, Apply;
      RunsAreFinite(c, steps[..|steps| - 1]);
      StepIsCheaper(c, After(c, steps[..|steps| - 1]).value, steps[|steps| - 1]);
    }
  }
}
