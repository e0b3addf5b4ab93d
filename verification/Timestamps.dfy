/** The message timestamp allocator: any number of threads running a compare-and-swap loop on
    one counter, with clocks that may jump. */
module Timestamps {
  import opened Common

  type Thread = nat

  /** A thread inside `next_at`: with its clock reading, and, after the load, with the counter
      value it read. `floor` is the greatest value returned before the call began. */
  datatype Caller =
    | Called(clock: nat, floor: nat)
    | Loaded(clock: nat, previous: nat, floor: nat)

  /** A completed call. */
  datatype Returned = Returned(thread: Thread, value: nat, clock: nat, floor: nat)

  datatype State = State(
    latest: nat,
    history: set<nat>,            // every value the counter has had
    callers: map<Thread, Caller>,
    returned: seq<Returned>,
    panicked: set<Thread>)        // threads that found the counter exhausted

  function Init(): State { State(0, {0}, map[], [], {}) }

  datatype Label =
    | Call(thread: Thread, clock: nat)
    | Load(thread: Thread, observed: nat)
    | Exhausted(thread: Thread)
    | Swap(thread: Thread)
    | SwapFails(thread: Thread, observed: nat)

  /** `wall_clock.max(previous + 1)`. */
  function Candidate(c: Caller): nat
    requires c.Loaded?
  {
    if c.clock > c.previous + 1 then c.clock else c.previous + 1
  }

  /** A relaxed load may return any earlier value of the counter; a weak exchange may fail even
      when the values agree, and reports some value of the counter. */
  ghost predicate Enabled(s: State, a: Label) {
    match a
    case Call(t, clock) => t !in s.callers && t !in s.panicked && clock <= U64_MAX
    case Load(t, observed) => t in s.callers && s.callers[t].Called? && observed in s.history
    case Exhausted(t) => t in s.callers && s.callers[t].Loaded? && s.callers[t].previous == U64_MAX
    case Swap(t) =>
      t in s.callers && s.callers[t].Loaded? && s.callers[t].previous < U64_MAX && s.callers[t].previous == s.latest
    case SwapFails(t, observed) =>
      t in s.callers && s.callers[t].Loaded? && s.callers[t].previous < U64_MAX && observed in s.history
  }

  function Greatest(returned: seq<Returned>): nat {
    if returned == [] then 0 else returned[|returned| - 1].value
  }

  ghost function Apply(s: State, a: Label): State
    requires Enabled(s, a)
  {
    match a
    case Call(t, clock) => s.(callers := s.callers[t := Called(clock, Greatest(s.returned))])
    case Load(t, observed) => s.(callers := s.callers[t := Loaded(s.callers[t].clock, observed, s.callers[t].floor)])
    case Exhausted(t) => s.(callers := s.callers - {t}, panicked := s.panicked + {t})
    case Swap(t) =>
      var c := s.callers[t];
      var next := Candidate(c);
      s.(latest := next, history := s.history + {next}, callers := s.callers - {t},
         returned := s.returned + [Returned(t, next, c.clock, c.floor)])
    case SwapFails(t, observed) => s.(callers := s.callers[t := s.callers[t].(previous := observed)])
  }

  ghost predicate IsRun(states: seq<State>, labels: seq<Label>) {
    && |states| == |labels| + 1
    && states[0] == Init()
    && forall i {:trigger labels[i]} :: 0 <= i < |labels| ==>
         Enabled(states[i], labels[i]) && states[i + 1] == Apply(states[i], labels[i])
  }

  /** No larger than it must be: the clock reading, or one more than the value returned before it. */
  ghost predicate Tight(returned: seq<Returned>, i: nat)
    requires i < |returned|
  {
    returned[i].value == returned[i].clock || returned[i].value == Greatest(returned[..i]) + 1
  }

  lemma TightAppend(returned: seq<Returned>, r: Returned, i: nat)
    requires forall j :: 0 <= j < |returned| ==> Tight(returned, j)
    requires r.value == r.clock || r.value == Greatest(returned) + 1
    requires i <= |returned|
    ensures Tight(returned + [r], i)
  {
    assert (returned + [r])[..i] == returned[..i];
    if i < |returned| {
      assert Tight(returned, i);
    } else {
      assert returned[..i] == returned;
    }
  }

  ghost predicate Inv(s: State) {
    && s.latest == Greatest(s.returned) <= U64_MAX && s.latest in s.history
    && (forall v :: v in s.history ==> v <= s.latest)
    && (forall i, j :: 0 <= i < j < |s.returned| ==> s.returned[i].value < s.returned[j].value)
    && (forall i :: 0 <= i < |s.returned| ==>
          0 < s.returned[i].value && s.returned[i].value > s.returned[i].floor
          && s.returned[i].value >= s.returned[i].clock)
    && (forall i :: 0 <= i < |s.returned| ==> Tight(s.returned, i))
    && forall t :: t in s.callers ==>
         && s.callers[t].floor <= s.latest && s.callers[t].clock <= U64_MAX
         && (s.callers[t].Loaded? ==> s.callers[t].previous in s.history)
  }

  lemma StepKeeps(s: State, a: Label)
    requires Inv(s) && Enabled(s, a)
    ensures Inv(Apply(s, a))
  {
    var t := Apply(s, a);
    if a.Swap? {
      var c := s.callers[a.thread];
      assert Candidate(c) > s.latest;
      forall i | 0 <= i < |t.returned|
        ensures Tight(t.returned, i)
      {
        TightAppend(s.returned, Returned(a.thread, Candidate(c), c.clock, c.floor), i);
      }
      forall i, j | 0 <= i < j < |t.returned|
        ensures t.returned[i].value < t.returned[j].value
      {
        if j == |s.returned| && i < |s.returned| - 1 {
          assert s.returned[i].value < s.returned[|s.returned| - 1].value;
        }
      }
    }
  }

  lemma {:induction false} RunInvariant(states: seq<State>, labels: seq<Label>, k: nat)
    requires IsRun(states, labels) && k < |states|
    ensures Inv(states[k])
  {
    if k > 0 {
      RunInvariant(states, labels, k - 1);
      StepKeeps(states[k - 1], labels[k - 1]);
    }
  }

  /** Returned timestamps strictly increase in the order of the exchanges, so they are distinct. */
  lemma TimestampsIncrease(states: seq<State>, labels: seq<Label>, k: nat, i: nat, j: nat)
    requires IsRun(states, labels) && k < |states| && i < j < |states[k].returned|
    ensures states[k].returned[i].value < states[k].returned[j].value
  {
    RunInvariant(states, labels, k);
  }

  /** Each is at least the caller's clock reading, above everything returned before the call
      began, positive, and a 64-bit value. */
  lemma TimestampsRespectClockAndPast(states: seq<State>, labels: seq<Label>, k: nat, i: nat)
    requires IsRun(states, labels) && k < |states| && i < |states[k].returned|
    ensures var r := states[k].returned[i];
            r.clock <= r.value && r.floor < r.value && 0 < r.value <= U64_MAX
  {
    RunInvariant(states, labels, k);
    var s := states[k];
    if i < |s.returned| - 1 {
      assert s.returned[i].value < s.returned[|s.returned| - 1].value;
    }
  }

  /** And no larger than that requires. */
  lemma TimestampsAreTight(states: seq<State>, labels: seq<Label>, k: nat, i: nat)
    requires IsRun(states, labels) && k < |states| && i < |states[k].returned|
    ensures var r := states[k].returned;
            r[i].value == r[i].clock || r[i].value == (if i == 0 then 0 else r[i - 1].value) + 1
  {
    RunInvariant(states, labels, k);
    assert Tight(states[k].returned, i);
  }

  /** The recorded floor is what it claims: the greatest value returned when the call began. */
  lemma FloorIsPast(states: seq<State>, labels: seq<Label>, k: nat, i: nat)
    requires IsRun(states, labels) && k < |labels| && labels[k].Call? && i < |states[k].returned|
    ensures states[k].returned[i].value <= states[k + 1].callers[labels[k].thread].floor
  {
    RunInvariant(states, labels, k);
    var s := states[k];
    if i < |s.returned| - 1 {
      assert s.returned[i].value < s.returned[|s.returned| - 1].value;
    }
  }

  /** A thread gives up only when the counter has reached its maximum, by counting or because one
      clock reading was there. */
  lemma PanicOnlyWhenExhausted(states: seq<State>, labels: seq<Label>, k: nat)
    requires IsRun(states, labels) && k < |labels| && labels[k].Exhausted?
    ensures states[k].latest == U64_MAX
  {
    RunInvariant(states, labels, k);
  }

  /** What makes an exchange of the loop fail: a rival that stored a value first, or nothing. */
  datatype Failure = Rival(value: nat) | Spurious

  /** The counter after the failures: rivals only ever raise it. */
  function Raised(latest: nat, failures: seq<Failure>): nat {
    if failures == [] then latest
    else
      var before, last := Raised(latest, failures[..|failures| - 1]), failures[|failures| - 1];
      if last.Rival? && last.value > before then last.value else before
  }

  lemma {:induction false} RaisedBounds(latest: nat, failures: seq<Failure>)
    ensures latest <= Raised(latest, failures)
    ensures forall f :: f in failures && f.Rival? ==> f.value <= Raised(latest, failures)
  {
    if failures != [] {
      var front, last := failures[..|failures| - 1], failures[|failures| - 1];
      RaisedBounds(latest, front);
      assert failures == front + [last];
    }
  }

  lemma {:induction false} RaisedGrows(latest: nat, failures: seq<Failure>, i: nat)
    requires i <= |failures|
    ensures Raised(latest, failures[..i]) <= Raised(latest, failures)
    decreases |failures|
  {
    if i < |failures| {
      var front := failures[..|failures| - 1];
      assert front[..i] == failures[..i];
      RaisedGrows(latest, front, i);
    } else {
      assert failures[..i] == failures;
    }
  }

  lemma {:induction false} RaisedWithin(latest: nat, failures: seq<Failure>)
    requires latest <= U64_MAX && forall f :: f in failures && f.Rival? ==> f.value <= U64_MAX
    ensures Raised(latest, failures) <= U64_MAX
  {
    if failures != [] {
      var front := failures[..|failures| - 1];
      assert forall f :: f in front ==> f in failures;
      RaisedWithin(latest, front);
    }
  }

  /** `next_at` as its loop runs it, with the failed exchanges before the one that succeeds. No
      result stands for the panic on an exhausted counter. */
  class MessageTimestampAllocator {
    var latest: nat

    constructor ()
      ensures latest == 0
    {
      latest := 0;
    }

    method NextAt(clock: nat, failures: seq<Failure>) returns (result: Option<nat>)
      requires clock <= U64_MAX && latest <= U64_MAX
      requires forall f :: f in failures && f.Rival? ==> f.value <= U64_MAX
      modifies this
      ensures latest <= U64_MAX
      ensures result.None? <==> Raised(old(latest), failures) == U64_MAX
      ensures result.Some? ==> result.value == latest
      ensures result.Some? ==> latest > Raised(old(latest), failures) && latest >= clock
      ensures result.Some? ==> latest == clock || latest == Raised(old(latest), failures) + 1
      ensures result.Some? ==> forall f :: f in failures && f.Rival? ==> f.value < latest
    {
      var previous := latest;
      RaisedWithin(old(latest), failures);
      for i := 0 to |failures|
        invariant previous == latest == Raised(old(latest), failures[..i]) <= U64_MAX
      {
        if previous == U64_MAX {
          RaisedGrows(old(latest), failures, i);
          return None;
        }
        assert failures[..i + 1][..i] == failures[..i];
        if failures[i].Rival? && failures[i].value > latest {
          latest := failures[i].value;
        }
        previous := latest;
      }
      assert failures[..|failures|] == failures;
      RaisedBounds(old(latest), failures);
      if previous == U64_MAX {
        return None;
      }
      var minimum := previous + 1;
      latest := if clock > minimum then clock else minimum;
      return Some(latest);
    }
  }
}
