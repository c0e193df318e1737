/** The lock-free latency maximum: concurrent Observe calls and their compare-and-swap loop. */
module LatencyMetrics {
  import opened Folds

  /** Where one call of Observe is; `ns` is its duration, clamped at zero. */
  datatype Observer =
    | Ready(ns: nat)
    | Counted(ns: nat)                // count.Add done
    | Summed(ns: nat)                 // sumNs.Add done, about to load maxNs
    | Loaded(ns: nat, seen: int)      // loaded maxNs
    | Done(ns: nat)

  datatype State = State(count: int, sum: int, max: int, observers: seq<Observer>)

  function Clamped(ns: int): nat {
    if ns < 0 then 0 else ns
  }

  function Initial(durations: seq<int>): State {
    State(0, 0, 0, seq(|durations|, i requires 0 <= i < |durations| => Ready(Clamped(durations[i]))))
  }

  predicate Enabled(s: State, i: nat) {
    i < |s.observers| && !s.observers[i].Done?
  }

  /** The next atomic operation of call i. */
  function Next(s: State, i: nat): State
    requires Enabled(s, i)
  {
    match s.observers[i]
    case Ready(ns) => s.(count := s.count + 1, observers := s.observers[i := Counted(ns)])
    case Counted(ns) => s.(sum := s.sum + ns, observers := s.observers[i := Summed(ns)])
    case Summed(ns) => s.(observers := s.observers[i := Loaded(ns, s.max)])
    case Loaded(ns, seen) =>
      if ns <= seen then s.(observers := s.observers[i := Done(ns)])
      else if s.max == seen then s.(max := ns, observers := s.observers[i := Done(ns)])
      else s.(observers := s.observers[i := Summed(ns)])
    case Done(_) => s
  }

  predicate Legal(s: State, schedule: seq<nat>)
    decreases |schedule|
  {
    schedule == [] || (Enabled(s, schedule[0]) && Legal(Next(s, schedule[0]), schedule[1..]))
  }

  function Run(s: State, schedule: seq<nat>): State
    requires Legal(s, schedule)
    decreases |schedule|
  {
    if schedule == [] then s else Run(Next(s, schedule[0]), schedule[1..])
  }

  function CountsOne(o: Observer): nat {
    if o.Ready? then 0 else 1
  }

  function AddsToSum(o: Observer): nat {
    if o.Ready? || o.Counted? then 0 else o.ns
  }

  predicate ObserverOk(s: State, o: Observer) {
    && (o.Loaded? ==> o.seen <= s.max)
    && (o.Done? ==> o.ns <= s.max)
  }

  ghost predicate Inv(s: State) {
    && s.count == Sum(s.observers, CountsOne)
    && s.sum == Sum(s.observers, AddsToSum)
    && (forall i :: 0 <= i < |s.observers| ==> ObserverOk(s, s.observers[i]))
    && (s.max == 0 || exists i :: 0 <= i < |s.observers| && s.observers[i].Done? && s.observers[i].ns == s.max)
    && 0 <= s.max
  }

  lemma InitialInv(durations: seq<int>)
    ensures Inv(Initial(durations))
  {
    SumZero(Initial(durations).observers, CountsOne);
    SumZero(Initial(durations).observers, AddsToSum);
  }

  lemma NextInv(s: State, i: nat)
    requires Inv(s) && Enabled(s, i)
    ensures Inv(Next(s, i))
  {
    var t := Next(s, i);
    SumUpdate(s.observers, i, t.observers[i], CountsOne);
    SumUpdate(s.observers, i, t.observers[i], AddsToSum);
    assert ObserverOk(s, s.observers[i]);
    if t.max != s.max {
      assert t.observers[i].Done? && t.observers[i].ns == t.max;
    } else if s.max != 0 {
      var j :| 0 <= j < |s.observers| && s.observers[j].Done? && s.observers[j].ns == s.max;
      assert t.observers[j] == s.observers[j];
    }
  }

  lemma {:induction false} RunInv(s: State, schedule: seq<nat>)
    requires Inv(s) && Legal(s, schedule)
    ensures Inv(Run(s, schedule)) && |Run(s, schedule).observers| == |s.observers|
    ensures forall j :: 0 <= j < |s.observers| ==> Run(s, schedule).observers[j].ns == s.observers[j].ns
    decreases |schedule|
  {
    if schedule != [] {
      NextInv(s, schedule[0]);
      RunInv(Next(s, schedule[0]), schedule[1..]);
    }
  }

  /** The maximum never goes down, whatever is interleaved. */
  lemma {:induction false} MaxNeverFalls(s: State, schedule: seq<nat>)
    requires Inv(s) && Legal(s, schedule)
    ensures s.max <= Run(s, schedule).max
    decreases |schedule|
  {
    if schedule != [] {
      assert ObserverOk(s, s.observers[schedule[0]]);
      NextInv(s, schedule[0]);
      MaxNeverFalls(Next(s, schedule[0]), schedule[1..]);
    }
  }

  /** When every call has returned, the maximum is the largest observation, the count is the
      number of calls and the sum is the sum of their durations: no update was lost. */
  lemma QuiescentTotals(durations: seq<int>, schedule: seq<nat>)
    requires Legal(Initial(durations), schedule)
    requires forall i :: 0 <= i < |Run(Initial(durations), schedule).observers| ==> Run(Initial(durations), schedule).observers[i].Done?
    ensures var s := Run(Initial(durations), schedule);
        && s.count == |durations|
        && s.sum == Sum(durations, Clamped)
        && (forall i :: 0 <= i < |durations| ==> durations[i] <= s.max)
        && (s.max == 0 || s.max in durations)
  {
    var start := Initial(durations);
    InitialInv(durations);
    RunInv(start, schedule);
    var s := Run(start, schedule);
    forall i | 0 <= i < |durations| ensures durations[i] <= s.max && s.observers[i] == Done(Clamped(durations[i])) {
      assert s.observers[i].ns == start.observers[i].ns;
      assert ObserverOk(s, s.observers[i]);
    }
    DoneSums(durations, s.observers);
  }

  lemma {:induction false} DoneSums(durations: seq<int>, observers: seq<Observer>)
    requires |durations| == |observers|
    requires forall i :: 0 <= i < |durations| ==> observers[i] == Done(Clamped(durations[i]))
    ensures Sum(observers, CountsOne) == |durations| && Sum(observers, AddsToSum) == Sum(durations, Clamped)
  {
    if durations != [] {
      DoneSums(durations[1..], observers[1..]);
    }
  }

  // ---------- The loop ends ----------

  function Unfinished(o: Observer): nat {
    if o.Done? then 0 else 1
  }

  /** A call that loaded a maximum that has since moved must go round once more. */
  function Effort(max: int): Observer -> nat {
    (o: Observer) =>
      match o
      case Ready(_) => 4
      case Counted(_) => 3
      case Summed(_) => 2
      case Loaded(_, seen) => if seen == max then 1 else 3
      case Done(_) => 0
  }

  /** Each atomic operation finishes a call or brings all calls closer to finishing, so the
      loop cannot retry for ever in any schedule. */
  lemma NextMakesProgress(s: State, i: nat)
    requires Enabled(s, i)
    ensures var t := Next(s, i);
        var left, left' := Sum(s.observers, Unfinished), Sum(t.observers, Unfinished);
        left' < left || (left' == left && Sum(t.observers, Effort(t.max)) < Sum(s.observers, Effort(s.max)))
  {
    var t := Next(s, i);
    SumUpdate(s.observers, i, t.observers[i], Unfinished);
    SumUpdate(s.observers, i, t.observers[i], Effort(s.max));
  }

  function Bound(unfinished: nat, calls: nat, effort: nat): nat {
    unfinished * (4 * calls) + effort
  }

  lemma BoundFalls(unfinished: nat, calls: nat, effort: nat, effort': nat)
    requires unfinished > 0 && effort > 0 && effort' <= 4 * calls
    ensures Bound(unfinished - 1, calls, effort') + 1 <= Bound(unfinished, calls, effort)
  {
    assert unfinished * (4 * calls) == (unfinished - 1) * (4 * calls) + 4 * calls;
  }

  lemma {:induction false} SchedulesAreShort(s: State, schedule: seq<nat>)
    requires Legal(s, schedule)
    ensures |schedule| <= Bound(Sum(s.observers, Unfinished), |s.observers|, Sum(s.observers, Effort(s.max)))
    decreases |schedule|
  {
    hide Bound, Sum;
    if schedule == [] {
      return;
    }
    var i := schedule[0];
    var t := Next(s, i);
    NextMakesProgress(s, i);
    SchedulesAreShort(t, schedule[1..]);
    EffortBound(t.observers, t.max);
    SumUpdate(s.observers, i, t.observers[i], Unfinished);
    SumAtLeast(s.observers, i, Effort(s.max));
    var left, effort, effort' := Sum(s.observers, Unfinished), Sum(s.observers, Effort(s.max)), Sum(t.observers, Effort(t.max));
    if Sum(t.observers, Unfinished) < left {
      BoundFalls(left, |s.observers|, effort, effort');
    } else {
      BoundDiffers(left, |s.observers|, effort, effort');
    }
  }

  lemma BoundDiffers(unfinished: nat, calls: nat, effort: nat, effort': nat)
    requires effort' < effort
    ensures Bound(unfinished, calls, effort') < Bound(unfinished, calls, effort)
  {
  }

  /** However calls are interleaved, n of them return within 4n * (n + 1) operations. */
  lemma CallsAlwaysReturn(durations: seq<int>, schedule: seq<nat>)
    requires Legal(Initial(durations), schedule)
    ensures |schedule| <= 4 * |durations| * (|durations| + 1)
  {
    hide Bound, Sum;
    var s := Initial(durations);
    SchedulesAreShort(s, schedule);
    EffortBound(s.observers, s.max);
    UnfinishedBound(s.observers);
    BoundClosed(Sum(s.observers, Unfinished), |durations|, Sum(s.observers, Effort(s.max)));
  }

  lemma BoundClosed(unfinished: nat, calls: nat, effort: nat)
    requires unfinished <= calls && effort <= 4 * calls
    ensures Bound(unfinished, calls, effort) <= 4 * calls * (calls + 1)
  {
  }

  lemma {:induction false} UnfinishedBound(observers: seq<Observer>)
    ensures Sum(observers, Unfinished) <= |observers|
  {
    if observers != [] {
      UnfinishedBound(observers[1..]);
    }
  }

  lemma {:induction false} EffortBound(observers: seq<Observer>, max: int)
    ensures Sum(observers, Effort(max)) <= 4 * |observers|
  {
    if observers != [] {
      EffortBound(observers[1..], max);
    }
  }

  /** The metric's fields and the operations of one call that runs undisturbed. */
  class Latency {
    var count: int
    var sumNs: int
    var maxNs: int

    method CompareAndSwapMax(seen: int, ns: int) returns (swapped: bool)
      modifies this`maxNs
      ensures swapped == (old(maxNs) == seen) && maxNs == if swapped then ns else old(maxNs)
    {
      swapped := maxNs == seen;
      if swapped {
        maxNs := ns;
      }
    }

    method Observe(d: int)
      modifies this
      ensures count == old(count) + 1 && sumNs == old(sumNs) + Clamped(d)
      ensures maxNs == if Clamped(d) <= old(maxNs) then old(maxNs) else Clamped(d)
    {
      var ns := if d < 0 then 0 else d;
      count := count + 1;
      sumNs := sumNs + ns;
      var done := false;
      while !done
        invariant count == old(count) + 1 && sumNs == old(sumNs) + ns
        invariant maxNs == if done && ns > old(maxNs) then ns else old(maxNs)
        decreases !done
      {
        var seen := maxNs;
        if ns <= seen {
          done := true;
        } else {
          done := CompareAndSwapMax(seen, ns);
        }
      }
    }
  }
}
