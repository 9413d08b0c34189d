/** The per-cycle cache (resources/fetching/cycle/cache.go): a value is fetched once per cycle, checked
    under a read lock, checked again under the write lock, and read without a lock in between. */
module CycleCache {
  import opened Sequences

  datatype Fetch<T> = Ok(value: T) | Err(value: T)

  /** The cache's fields. */
  datatype Slot<T> = Slot(lastCycle: int, cachedValue: T)

  datatype Answer<T> = Value(value: T) | Error

  predicate NeedsUpdate<T>(slot: Slot<T>, cycle: int) {
    slot.lastCycle < 0 || slot.lastCycle < cycle
  }

  /** What a fetch under the write lock does to the cache and returns. */
  function Renewed<T>(slot: Slot<T>, cycle: int, fetched: Fetch<T>): (r: Slot<T>) {
    if fetched.Ok? then Slot(cycle, fetched.value) else slot
  }

  function Replied<T>(slot: Slot<T>, fetched: Fetch<T>): (r: Answer<T>) {
    if fetched.Ok? then Value(fetched.value)
    else if slot.lastCycle < 0 then Error else Value(slot.cachedValue)
  }

  /** The cache used by one caller at a time. */
  class Cache<T> {
    var lastCycle: int
    var cachedValue: T

    constructor (zero: T)
      ensures lastCycle == -1 && cachedValue == zero
    {
      lastCycle, cachedValue := -1, zero;
    }

    /** Fetches only if this cycle has not been fetched yet; a failed fetch falls back on the old
        value, if there is one, and leaves the cache as it was. */
    method GetValue(cycle: int, fetch: () -> Fetch<T>) returns (result: T, failed: bool)
      modifies this
      ensures var current := old(lastCycle >= 0 && lastCycle >= cycle);
              && (current ==>
                    lastCycle == old(lastCycle) && cachedValue == old(cachedValue) && result == cachedValue && !failed)
              && (!current && fetch().Ok? ==>
                    lastCycle == cycle && cachedValue == fetch().value && result == fetch().value && !failed)
              && (!current && fetch().Err? ==> lastCycle == old(lastCycle) && cachedValue == old(cachedValue))
              && (!current && fetch().Err? && old(lastCycle) < 0 ==> failed && result == fetch().value)
              && (!current && fetch().Err? && old(lastCycle) >= 0 ==> !failed && result == cachedValue)
    {
      if !(lastCycle < 0 || lastCycle < cycle) {
        return cachedValue, false;
      }
      match fetch() {
        case Err(value) =>
          if lastCycle < 0 {
            return value, true;
          }
        case Ok(value) =>
          cachedValue := value;
          lastCycle := cycle;
      }
      return cachedValue, false;
    }
  }

  // --- concurrent callers ---

  /** A caller of `GetValue`. `Reading` is past the read lock with a negative check and about to read
      the value without a lock. `Back` keeps what was returned, whether the caller's own fetch
      failed, and how many fetches had succeeded at that moment. */
  datatype Control<T> =
    | Start
    | ReadLocked
    | Reading
    | WantLock
    | Locked
    | Fetching
    | Back(answer: Answer<T>, ownFailed: bool, succeeded: nat)

  datatype Caller<T> = Caller(cycle: int, pc: Control<T>)

  datatype Success<T> = Success(cycle: int, value: T)

  datatype State<T> = State(
    slot: Slot<T>,
    readers: int,
    writer: Option<nat>,
    callers: seq<Caller<T>>,
    successes: seq<Success<T>>)   // successful fetches, in order

  datatype Step<T> =
    | RLock(i: nat) | CheckAndRUnlock(i: nat) | UnlockedRead(i: nat)
    | Lock(i: nat) | CheckAgain(i: nat) | FetchEnds(i: nat, fetched: Fetch<T>)

  function Fresh<T>(cycles: seq<int>): seq<Caller<T>> {
    seq(|cycles|, i requires 0 <= i < |cycles| => Caller(cycles[i], Start))
  }

  function Init<T>(zero: T, cycles: seq<int>): (s: State<T>) {
    State(Slot(-1, zero), 0, None, Fresh(cycles), [])
  }

  predicate Enabled<T>(s: State<T>, step: Step<T>) {
    step.i < |s.callers| &&
    var pc := s.callers[step.i].pc;
    match step
    case RLock(_) => pc.Start? && s.writer.None?
    case CheckAndRUnlock(_) => pc.ReadLocked?
    case UnlockedRead(_) => pc.Reading?
    case Lock(_) => pc.WantLock? && s.writer.None? && s.readers == 0
    case CheckAgain(_) => pc.Locked?
    case FetchEnds(_, _) => pc.Fetching?
  }

  function Goto<T>(s: State<T>, i: nat, pc: Control<T>): State<T>
    requires i < |s.callers|
  {
    s.(callers := s.callers[i := s.callers[i].(pc := pc)])
  }

  function Return<T>(s: State<T>, i: nat, answer: Answer<T>, ownFailed: bool): State<T>
    requires i < |s.callers|
  {
    Goto(s, i, Back(answer, ownFailed, |s.successes|))
  }

  function Apply<T>(s: State<T>, step: Step<T>): (r: State<T>)
    requires Enabled(s, step)
  {
    var i := step.i;
    var cycle := s.callers[i].cycle;
    match step
    case RLock(_) => Goto(s, i, ReadLocked).(readers := s.readers + 1)
    case CheckAndRUnlock(_) =>
      Goto(s, i, if NeedsUpdate(s.slot, cycle) then WantLock else Reading).(readers := s.readers - 1)
    case UnlockedRead(_) => Return(s, i, Value(s.slot.cachedValue), false)
    case Lock(_) => Goto(s, i, Locked).(writer := Some(i))
    case CheckAgain(_) =>
      if NeedsUpdate(s.slot, cycle) then Goto(s, i, Fetching)
      else Return(s, i, Value(s.slot.cachedValue), false).(writer := None)
    case FetchEnds(_, fetched) =>
      var after := if fetched.Ok? then s.successes + [Success(cycle, fetched.value)] else s.successes;
      Return(s.(successes := after), i, Replied(s.slot, fetched), fetched.Err?)
        .(writer := None, slot := Renewed(s.slot, cycle, fetched))
  }

  /** The state after a run, or `None` if some step of it was not enabled. */
  function After<T>(zero: T, cycles: seq<int>, steps: seq<Step<T>>): (r: Option<State<T>>) {
    if steps == [] then Some(Init(zero, cycles))
    else
      var before := After(zero, cycles, steps[..|steps| - 1]);
      if before.Some? && Enabled(before.value, steps[|steps| - 1])
      then Some(Apply(before.value, steps[|steps| - 1])) else None
  }

  // --- invariant ---

  /** Some successful fetch among the first `n` gave this value, in this cycle or a later one. */
  ghost predicate FetchedSince<T>(successes: seq<Success<T>>, n: nat, value: T, cycle: int) {
    exists k :: 0 <= k < n <= |successes| && successes[k].value == value && successes[k].cycle >= cycle
  }

  /** No successful fetch among the first `n` was of a proper cycle. */
  ghost predicate OnlyNegative<T>(successes: seq<Success<T>>, n: nat) {
    forall k :: 0 <= k < n && k < |successes| ==> successes[k].cycle < 0
  }

  /** The cache holds the last successful fetch; from the first one of a proper cycle on they are of
      ever later cycles. */
  ghost predicate SlotInv<T>(s: State<T>) {
    && (forall j, k :: 0 <= j < k < |s.successes| && s.successes[j].cycle >= 0 ==>
          s.successes[j].cycle < s.successes[k].cycle)
    && if s.successes == [] then s.slot.lastCycle == -1
       else s.slot == Slot(s.successes[|s.successes| - 1].cycle, s.successes[|s.successes| - 1].value)
  }

  ghost predicate AnswerOk<T>(successes: seq<Success<T>>, cycle: int, back: Control<T>)
    requires back.Back?
  {
    && back.succeeded <= |successes|
    && match back.answer {
         case Error => back.ownFailed && OnlyNegative(successes, back.succeeded)
         case Value(value) => FetchedSince(successes, back.succeeded, value, if back.ownFailed then 0 else cycle)
       }
  }

  ghost predicate CallerInv<T>(s: State<T>, i: nat, caller: Caller<T>) {
    && (caller.pc.Locked? || caller.pc.Fetching? ==> s.writer == Some(i))
    && (caller.pc.Fetching? ==> NeedsUpdate(s.slot, caller.cycle))
    && (caller.pc.Reading? ==> !NeedsUpdate(s.slot, caller.cycle))
    && (caller.pc.Back? ==> AnswerOk(s.successes, caller.cycle, caller.pc))
  }

  ghost predicate Inv<T>(s: State<T>) {
    SlotInv(s) && forall i :: 0 <= i < |s.callers| ==> CallerInv(s, i, s.callers[i])
  }

  /** What has been answered stays right when more fetches succeed. */
  lemma AnswerStaysOk<T>(xs: seq<Success<T>>, ys: seq<Success<T>>, cycle: int, back: Control<T>)
    requires back.Back? && xs <= ys && AnswerOk(xs, cycle, back)
    ensures AnswerOk(ys, cycle, back)
  {
    if back.answer.Value? {
      var since := if back.ownFailed then 0 else cycle;
      var k :| 0 <= k < back.succeeded && xs[k].value == back.answer.value && xs[k].cycle >= since;
      assert ys[k] == xs[k];
    }
  }

  /** The cached value comes from the last success. */
  lemma CachedIsFetched<T>(s: State<T>, cycle: int)
    requires SlotInv(s) && s.slot.lastCycle >= cycle && s.successes != []
    ensures FetchedSince(s.successes, |s.successes|, s.slot.cachedValue, cycle)
  {
    assert s.successes[|s.successes| - 1].value == s.slot.cachedValue;
  }

  /** As long as the last cycle is negative, so are those of all successes. */
  lemma NegativeSoFar<T>(s: State<T>)
    requires SlotInv(s) && s.slot.lastCycle < 0
    ensures OnlyNegative(s.successes, |s.successes|)
  {
  }

  /** The last cycle never goes back once it is a proper one. */
  predicate Advances<T>(before: Slot<T>, after: Slot<T>) {
    before.lastCycle >= 0 ==> before.lastCycle <= after.lastCycle
  }

  /** Another caller's step: it never lowers a proper last cycle, and never changes the cache while
      this caller holds the write lock. */
  lemma OtherCaller<T>(s: State<T>, t: State<T>, i: nat, caller: Caller<T>)
    requires CallerInv(s, i, caller)
    requires s.successes <= t.successes && Advances(s.slot, t.slot)
    requires caller.pc.Locked? || caller.pc.Fetching? ==> t.writer == Some(i) && t.slot == s.slot
    ensures CallerInv(t, i, caller)
  {
    hide AnswerOk;
    if caller.pc.Back? {
      AnswerStaysOk(s.successes, t.successes, caller.cycle, caller.pc);
    }
  }

  lemma FetchKeepsSlot<T>(s: State<T>, step: Step<T>)
    requires Inv(s) && Enabled(s, step)
    ensures SlotInv(Apply(s, step))
    ensures s.successes <= Apply(s, step).successes
    ensures Advances(s.slot, Apply(s, step).slot)
  {
    hide AnswerOk;
    assert CallerInv(s, step.i, s.callers[step.i]);
  }

  lemma StepperKeepsInv<T>(s: State<T>, step: Step<T>)
    requires Inv(s) && Enabled(s, step)
    ensures var t := Apply(s, step); CallerInv(t, step.i, t.callers[step.i])
  {
    hide FetchedSince, OnlyNegative;
    var i, t := step.i, Apply(s, step);
    var cycle := s.callers[i].cycle;
    assert CallerInv(s, i, s.callers[i]);
    FetchKeepsSlot(s, step);
    if !NeedsUpdate(s.slot, cycle) {
      CachedIsFetched(s, cycle);
    }
    if step.FetchEnds? {
      if step.fetched.Ok? {
        CachedIsFetched(t, cycle);
      } else if s.slot.lastCycle >= 0 {
        CachedIsFetched(s, 0);
      } else {
        NegativeSoFar(s);
      }
    }
  }

  lemma StepKeepsInv<T>(s: State<T>, step: Step<T>)
    requires Inv(s) && Enabled(s, step)
    ensures Inv(Apply(s, step))
  {
    var t := Apply(s, step);
    FetchKeepsSlot(s, step);
    StepperKeepsInv(s, step);
    hide SlotInv;
    forall i | 0 <= i < |t.callers| ensures CallerInv(t, i, t.callers[i]) {
      if i != step.i {
        assert CallerInv(s, i, s.callers[i]) && CallerInv(s, step.i, s.callers[step.i]);
        OtherCaller(s, t, i, s.callers[i]);
      }
    }
  }

  predicate NonNegative(cycles: seq<int>) {
    forall j :: 0 <= j < |cycles| ==> cycles[j] >= 0
  }

  /** The callers are those of the start, and fetch for no cycle but their own. */
  ghost predicate CyclesInv<T>(cycles: seq<int>, s: State<T>) {
    && |s.callers| == |cycles|
    && (forall i :: 0 <= i < |cycles| ==> s.callers[i].cycle == cycles[i])
    && (NonNegative(cycles) ==>
          s.slot.lastCycle >= -1 && forall k :: 0 <= k < |s.successes| ==> s.successes[k].cycle >= 0)
  }

  lemma StepKeepsCycles<T>(cycles: seq<int>, s: State<T>, step: Step<T>)
    requires CyclesInv(cycles, s) && Enabled(s, step)
    ensures CyclesInv(cycles, Apply(s, step))
  {
  }

  lemma {:induction false} RunKeepsInv<T>(zero: T, cycles: seq<int>, steps: seq<Step<T>>)
    requires After(zero, cycles, steps).Some?
    ensures Inv(After(zero, cycles, steps).value)
    ensures CyclesInv(cycles, After(zero, cycles, steps).value)
  {
    hide Inv, CyclesInv, Enabled, Apply;
    if steps == [] {
      InitInv(zero, cycles);
    } else {
      RunKeepsInv(zero, cycles, steps[..|steps| - 1]);
      StepKeepsInv(After(zero, cycles, steps[..|steps| - 1]).value, steps[|steps| - 1]);
      StepKeepsCycles(cycles, After(zero, cycles, steps[..|steps| - 1]).value, steps[|steps| - 1]);
    }
  }

  lemma InitInv<T>(zero: T, cycles: seq<int>)
    ensures Inv(Init(zero, cycles)) && CyclesInv(cycles, Init(zero, cycles))
  {
  }

  /** Any number of callers, any cycle sequences, any interleaving: from the first success of a
      non-negative cycle on, successful fetches are of strictly later and later cycles; a caller of
      cycle n is answered with a value fetched in a cycle m >= n, unless its own fetch failed; then it
      is answered with an earlier success of a non-negative cycle, or with an error exactly if there
      was none. */
  lemma ConcurrentCallers<T>(zero: T, cycles: seq<int>, steps: seq<Step<T>>, i: nat)
    requires After(zero, cycles, steps).Some? && i < |cycles|
    ensures var s := After(zero, cycles, steps).value;
            && (forall j, k :: 0 <= j < k < |s.successes| && s.successes[j].cycle >= 0 ==>
                  s.successes[j].cycle < s.successes[k].cycle)
            && i < |s.callers|
            && (s.callers[i].pc.Back? ==> AnswerOk(s.successes, cycles[i], s.callers[i].pc))
  {
    hide After, AnswerOk;
    RunKeepsInv(zero, cycles, steps);
    var s := After(zero, cycles, steps).value;
    assert CallerInv(s, i, s.callers[i]);
  }

  lemma SomeProper<T>(successes: seq<Success<T>>, n: nat)
    requires 0 < n <= |successes| && successes[0].cycle >= 0
    ensures !OnlyNegative(successes, n)
  {
  }

  /** With non-negative cycle sequences all successes are of strictly later and later cycles, and an
      error means that no fetch had succeeded. */
  lemma ProperCycles<T>(zero: T, cycles: seq<int>, steps: seq<Step<T>>, i: nat)
    requires After(zero, cycles, steps).Some? && i < |cycles| && NonNegative(cycles)
    ensures var s := After(zero, cycles, steps).value;
            && (forall j, k :: 0 <= j < k < |s.successes| ==> s.successes[j].cycle < s.successes[k].cycle)
            && i < |s.callers|
            && (s.callers[i].pc.Back? && s.callers[i].pc.answer.Error? ==>
                  s.callers[i].pc.ownFailed && s.callers[i].pc.succeeded == 0)
  {
    hide After, NonNegative, OnlyNegative;
    RunKeepsInv(zero, cycles, steps);
    var s := After(zero, cycles, steps).value;
    assert CallerInv(s, i, s.callers[i]);
    var pc := s.callers[i].pc;
    if pc.Back? && 0 < pc.succeeded <= |s.successes| {
      SomeProper(s.successes, pc.succeeded);
    }
  }

  /** The last cycle never goes back once it is non-negative, whatever happens after a point of a run;
      with non-negative cycle sequences it never goes back at all. */
  lemma {:induction false} LastCycleGrows<T>(zero: T, cycles: seq<int>, steps: seq<Step<T>>, more: seq<Step<T>>)
    requires After(zero, cycles, steps + more).Some?
    ensures After(zero, cycles, steps).Some?
    ensures var before, after := After(zero, cycles, steps).value, After(zero, cycles, steps + more).value;
            && before.successes <= after.successes
            && (before.slot.lastCycle >= 0 || NonNegative(cycles) ==> before.slot.lastCycle <= after.slot.lastCycle)
    decreases |more|
  {
    hide NonNegative, Enabled, Apply;
    if more == [] {
      assert steps + more == steps;
    } else {
      var init, last := more[..|more| - 1], more[|more| - 1];
      assert (steps + more)[..|steps + more| - 1] == steps + init;
      LastCycleGrows(zero, cycles, steps, init);
      RunKeepsInv(zero, cycles, steps + init);
      RunKeepsInv(zero, cycles, steps + more);
      FetchKeepsSlot(After(zero, cycles, steps + init).value, last);
      if NonNegative(cycles) {
        NeverBack(cycles, After(zero, cycles, steps + init).value, After(zero, cycles, steps + more).value);
      }
    }
  }

  lemma NeverBack<T>(cycles: seq<int>, s: State<T>, t: State<T>)
    requires NonNegative(cycles) && SlotInv(s) && CyclesInv(cycles, s) && CyclesInv(cycles, t)
    requires Advances(s.slot, t.slot)
    ensures s.slot.lastCycle <= t.slot.lastCycle
  {
  }
}
