/** Any number of producers calling `emit`, one consumer polling, and `close`, interleaved at
    lock granularity. Waiting on the condition variable is an explicit set of parked
    producers; `notify_all` makes them runnable again. */
module EventQueueThreads {
  import opened EventQueues

  type Thread = nat

  /** An event together with the thread that emits it. */
  datatype Ticket<E> = Ticket(thread: Thread, event: E)

  /** A thread inside `emit`: about to take the lock, parked on the condition variable, or
      woken and about to take the lock again. */
  datatype Producer<E> =
    | Entering(entry: Entry<Ticket<E>>)
    | Parked(entry: Entry<Ticket<E>>)
    | Woken(entry: Entry<Ticket<E>>)

  datatype State<E> = State(
    queue: Queue<Ticket<E>>,
    producers: map<Thread, Producer<E>>,
    waitingProducers: nat,
    calls: seq<Entry<Ticket<E>>>,      // every `emit` call, in order
    accepted: seq<Entry<Ticket<E>>>,   // those whose event entered the channel
    dropped: seq<Entry<Ticket<E>>>,    // those that returned because the queue was closed
    polled: seq<Entry<Ticket<E>>>,     // events handed to the host
    writeFailed: bool)                 // a wake-byte write has failed for good

  function Init<E>(): State<E> {
    State(NewQueue(), map[], 0, [], [], [], [], false)
  }

  datatype Label<E> =
    | Call(thread: Thread, event: E, bytes: Usize)
    | Attempt(thread: Thread, write: Write)
    | SpuriousWakeup(thread: Thread)
    | PollStep
    | CloseStep
    | DropSinks

  ghost predicate Enabled<E>(s: State<E>, l: Limits, a: Label<E>) {
    match a
    case Call(t, _, _) => s.queue.connected && t !in s.producers
    case Attempt(t, w) => t in s.producers && !s.producers[t].Parked? && WritePossible(s.queue, l, w)
    case SpuriousWakeup(t) => t in s.producers && s.producers[t].Parked?
    case PollStep => true
    case CloseStep => true
    case DropSinks => s.producers == map[]
  }

  function NotifyAll<E>(producers: map<Thread, Producer<E>>): map<Thread, Producer<E>> {
    map t | t in producers ::
      if producers[t].Parked? then Woken(producers[t].entry) else producers[t]
  }

  function AttemptStep<E>(s: State<E>, l: Limits, t: Thread, w: Write): State<E>
    requires t in s.producers
  {
    var p := s.producers[t];
    var e := p.entry;
    var waiting := if p.Woken? && s.waitingProducers > 0 then s.waitingProducers - 1 else s.waitingProducers;
    match OfferOutcome(s.queue, l, e)
    case Sent =>
      s.(queue := Offer(s.queue, l, e, w), producers := s.producers - {t}, waitingProducers := waiting,
         accepted := s.accepted + [e],
         writeFailed := s.writeFailed || (!s.queue.pending && w.HardError?))
    case Dropped =>
      s.(producers := s.producers - {t}, waitingProducers := waiting, dropped := s.dropped + [e])
    case MustWait =>
      s.(producers := s.producers[t := Parked(e)], waitingProducers := waiting + 1)
  }

  function PollStepState<E>(s: State<E>): State<E> {
    if s.queue.channel == [] then s.(queue := Poll(s.queue))
    else s.(queue := Poll(s.queue), producers := NotifyAll(s.producers),
            polled := s.polled + [s.queue.channel[0]])
  }

  ghost function Apply<E>(s: State<E>, l: Limits, a: Label<E>): State<E>
    requires Enabled(s, l, a)
  {
    match a
    case Call(t, event, bytes) =>
      var e := Entry(Ticket(t, event), bytes);
      s.(producers := s.producers[t := Entering(e)], calls := s.calls + [e])
    case Attempt(t, w) => AttemptStep(s, l, t, w)
    case SpuriousWakeup(t) => s.(producers := s.producers[t := Woken(s.producers[t].entry)])
    case PollStep => PollStepState(s)
    case CloseStep => s.(queue := Close(s.queue), producers := NotifyAll(s.producers))
    case DropSinks => s.(queue := s.queue.(connected := false))
  }

  ghost predicate IsRun<E>(l: Limits, states: seq<State<E>>, labels: seq<Label<E>>) {
    && ValidLimits(l)
    && |states| == |labels| + 1
    && states[0] == Init()
    && forall i :: 0 <= i < |labels| ==>
         Enabled(states[i], l, labels[i]) && states[i + 1] == Apply(states[i], l, labels[i])
  }

  // ----- what every step keeps -----

  /** Nothing is lost, duplicated or reordered between acceptance and the host. */
  ghost predicate Fifo<E>(s: State<E>) {
    s.accepted == s.polled + s.queue.channel
  }

  ghost predicate ParkedBlocked<E>(s: State<E>, l: Limits) {
    forall t :: t in s.producers && s.producers[t].Parked? ==>
      !s.queue.closed && !Admits(s.queue, l, s.producers[t].entry.bytes)
  }

  ghost predicate WakeInvariant<E>(s: State<E>) {
    !s.writeFailed ==> Announced(s.queue)
  }

  ghost function Waiting<E>(producers: map<Thread, Producer<E>>): set<Thread> {
    set t | t in producers && !producers[t].Entering?
  }

  ghost predicate CountInvariant<E>(s: State<E>) {
    s.waitingProducers == |Waiting(s.producers)|
  }

  /** The entries a thread contributed, in order. */
  ghost function Of<E>(s: seq<Entry<Ticket<E>>>, t: Thread): seq<Entry<Ticket<E>>> {
    if s == [] then []
    else Of(s[..|s| - 1], t) + if s[|s| - 1].payload.thread == t then [s[|s| - 1]] else []
  }

  ghost function InFlight<E>(s: State<E>, t: Thread): seq<Entry<Ticket<E>>> {
    if t in s.producers then [s.producers[t].entry] else []
  }

  /** Each producer's calls are resolved in order: first the accepted ones, then, only after
      the queue was closed, the dropped ones; at most one call is still in flight. */
  ghost predicate Ordered<E>(s: State<E>) {
    && (forall t :: t in s.producers ==> s.producers[t].entry.payload.thread == t)
    && (s.dropped != [] ==> s.queue.closed)
    && forall t :: Of(s.calls, t) == Of(s.accepted, t) + Of(s.dropped, t) + InFlight(s, t)
  }

  ghost predicate Inv<E>(s: State<E>, l: Limits) {
    && Fifo(s)
    && Accounted(s.queue, l)
    && ParkedBlocked(s, l)
    && WakeInvariant(s)
    && CountInvariant(s)
    && Ordered(s)
  }

  lemma OfAppend<E>(s: seq<Entry<Ticket<E>>>, e: Entry<Ticket<E>>, t: Thread)
    ensures e.payload.thread == t ==> Of(s + [e], t) == Of(s, t) + [e]
    ensures e.payload.thread != t ==> Of(s + [e], t) == Of(s, t)
  {
    assert (s + [e])[..|s|] == s;
  }

  lemma NotifyAllWaiting<E>(producers: map<Thread, Producer<E>>)
    ensures Waiting(NotifyAll(producers)) == Waiting(producers)
  {
  }

  lemma CallKeeps<E>(s: State<E>, l: Limits, a: Label<E>)
    requires ValidLimits(l) && Inv(s, l) && Enabled(s, l, a) && a.Call?
    ensures Inv(Apply(s, l, a), l)
  {
    var s' := Apply(s, l, a);
    assert Waiting(s'.producers) == Waiting(s.producers);
    forall t
      ensures Of(s'.calls, t) == Of(s'.accepted, t) + Of(s'.dropped, t) + InFlight(s', t)
    {
      OfAppend(s.calls, Entry(Ticket(a.thread, a.event), a.bytes), t);
    }
  }

  lemma WaitingAfter<E>(producers: map<Thread, Producer<E>>, t: Thread, e: Entry<Ticket<E>>)
    ensures Waiting(producers - {t}) == Waiting(producers) - {t}
    ensures Waiting(producers[t := Parked(e)]) == Waiting(producers) + {t}
  {
  }

  lemma AttemptCounts<E>(s: State<E>, l: Limits, t: Thread, w: Write)
    requires CountInvariant(s) && t in s.producers && !s.producers[t].Parked?
    ensures CountInvariant(AttemptStep(s, l, t, w))
  {
    var p, before := s.producers[t], Waiting(s.producers);
    WaitingAfter(s.producers, t, p.entry);
    if p.Woken? {
      assert t in before && |before - {t}| == |before| - 1 && before + {t} == before;
    } else {
      assert t !in before && before - {t} == before && |before + {t}| == |before| + 1;
    }
  }

  lemma Regroup<T>(c: seq<T>, a: seq<T>, d: seq<T>, x: T)
    requires c == a + d + [x]
    ensures c == a + (d + [x]) + []
    ensures d == [] ==> c == (a + [x]) + d + []
  {
  }

  /** Resolving thread `t`'s call moves its entry from in flight to accepted or dropped. */
  lemma Resolved<E>(s: State<E>, s': State<E>, t: Thread)
    requires Ordered(s) && t in s.producers
    requires s'.calls == s.calls && s'.producers == s.producers - {t}
    requires var e := s.producers[t].entry;
             || (s'.accepted == s.accepted + [e] && s'.dropped == s.dropped == [])
             || (s'.accepted == s.accepted && s'.dropped == s.dropped + [e])
    ensures Of(s'.calls, t) == Of(s'.accepted, t) + Of(s'.dropped, t) + InFlight(s', t)
  {
    var e := s.producers[t].entry;
    OfAppend(s.accepted, e, t);
    OfAppend(s.dropped, e, t);
    Regroup(Of(s.calls, t), Of(s.accepted, t), Of(s.dropped, t), e);
  }

  lemma OthersUnaffected<E>(s: State<E>, s': State<E>, t: Thread, u: Thread)
    requires Ordered(s) && t in s.producers && u != t
    requires s'.calls == s.calls && s'.producers == s.producers - {t}
    requires var e := s.producers[t].entry;
             && (s'.accepted == s.accepted + [e] || s'.accepted == s.accepted)
             && (s'.dropped == s.dropped + [e] || s'.dropped == s.dropped)
    ensures Of(s'.calls, u) == Of(s'.accepted, u) + Of(s'.dropped, u) + InFlight(s', u)
  {
    var e := s.producers[t].entry;
    OfAppend(s.accepted, e, u);
    OfAppend(s.dropped, e, u);
    assert Of(s'.accepted, u) == Of(s.accepted, u);
    assert Of(s'.dropped, u) == Of(s.dropped, u);
    assert InFlight(s', u) == InFlight(s, u);
  }

  lemma AttemptOrdered<E>(s: State<E>, l: Limits, t: Thread, w: Write)
    requires Ordered(s) && t in s.producers
    ensures Ordered(AttemptStep(s, l, t, w))
  {
    var s' := AttemptStep(s, l, t, w);
    if OfferOutcome(s.queue, l, s.producers[t].entry).MustWait? {
      forall u
        ensures InFlight(s', u) == InFlight(s, u)
      {
      }
    } else {
      forall u
        ensures Of(s'.calls, u) == Of(s'.accepted, u) + Of(s'.dropped, u) + InFlight(s', u)
      {
        if u == t {
          Resolved(s, s', t);
        } else {
          OthersUnaffected(s, s', t, u);
        }
      }
    }
  }

  lemma AttemptParked<E>(s: State<E>, l: Limits, t: Thread, w: Write)
    requires ValidLimits(l) && Accounted(s.queue, l) && ParkedBlocked(s, l) && t in s.producers
    ensures ParkedBlocked(AttemptStep(s, l, t, w), l)
  {
    var s' := AttemptStep(s, l, t, w);
    forall u | u in s'.producers && s'.producers[u].Parked?
      ensures !s'.queue.closed && !Admits(s'.queue, l, s'.producers[u].entry.bytes)
    {
      if u != t && OfferOutcome(s.queue, l, s.producers[t].entry).Sent? {
        OfferKeepsBlocked(s.queue, l, s.producers[t].entry, w, s.producers[u].entry.bytes);
      }
    }
  }

  lemma AttemptKeeps<E>(s: State<E>, l: Limits, t: Thread, w: Write)
    requires ValidLimits(l) && Inv(s, l) && Enabled(s, l, Attempt(t, w))
    ensures Inv(AttemptStep(s, l, t, w), l)
  {
    OfferAccounted(s.queue, l, s.producers[t].entry, w);
    AttemptCounts(s, l, t, w);
    AttemptOrdered(s, l, t, w);
    AttemptParked(s, l, t, w);
  }

  lemma PollKeeps<E>(s: State<E>, l: Limits)
    requires ValidLimits(l) && Inv(s, l)
    ensures Inv(PollStepState(s), l)
  {
    PollAccounted(s.queue, l);
    NotifyAllWaiting(s.producers);
    var s' := PollStepState(s);
    forall t
      ensures Of(s'.calls, t) == Of(s'.accepted, t) + Of(s'.dropped, t) + InFlight(s', t)
    {
      assert InFlight(s', t) == InFlight(s, t);
    }
    if s.queue.channel == [] {
      forall t | t in s.producers && s.producers[t].Parked?
        ensures false
      {
        EmptyAdmits(s.queue, l, s.producers[t].entry.bytes);
      }
    }
  }

  lemma OtherKeeps<E>(s: State<E>, l: Limits, a: Label<E>)
    requires ValidLimits(l) && Inv(s, l) && Enabled(s, l, a)
    requires a.SpuriousWakeup? || a.CloseStep? || a.DropSinks?
    ensures Inv(Apply(s, l, a), l)
  {
    var s' := Apply(s, l, a);
    NotifyAllWaiting(s.producers);
    assert Waiting(s'.producers) == Waiting(s.producers);
    forall t
      ensures Of(s'.calls, t) == Of(s'.accepted, t) + Of(s'.dropped, t) + InFlight(s', t)
    {
      assert InFlight(s', t) == InFlight(s, t);
    }
  }

  lemma StepKeeps<E>(s: State<E>, l: Limits, a: Label<E>)
    requires ValidLimits(l) && Inv(s, l) && Enabled(s, l, a)
    ensures Inv(Apply(s, l, a), l)
  {
    match a {
      case Call(_, _, _) => CallKeeps(s, l, a);
      case Attempt(t, w) => AttemptKeeps(s, l, t, w);
      case PollStep => PollKeeps(s, l);
      case _ => OtherKeeps(s, l, a);
    }
  }

  lemma {:induction false} RunInvariant<E>(l: Limits, states: seq<State<E>>, labels: seq<Label<E>>, k: nat)
    requires IsRun(l, states, labels) && k < |states|
    ensures Inv(states[k], l)
  {
    if k == 0 {
      assert Waiting<E>(map[]) == {};
    } else {
      RunInvariant(l, states, labels, k - 1);
      StepKeeps(states[k - 1], l, labels[k - 1]);
    }
  }

  // ----- theorems over every run -----

  /** The queue refines an unbounded FIFO of the accepted events, with exact accounting: the
      total is within the budget unless the one queued event with data is the last. */
  lemma QueueRefinesFifo<E>(l: Limits, states: seq<State<E>>, labels: seq<Label<E>>, k: nat)
    requires IsRun(l, states, labels) && k < |states|
    ensures states[k].polled + states[k].queue.channel == states[k].accepted
    ensures states[k].queue.queuedBytes == TotalBytes(states[k].queue.channel)
    ensures |states[k].queue.channel| <= l.capacity
    ensures states[k].queue.queuedBytes <= l.maxBytes || OnlyLastHasData(states[k].queue.channel)
  {
    RunInvariant(l, states, labels, k);
  }

  /** What the host has seen only grows, whatever happens next. */
  lemma {:induction false} PolledGrows<E>(l: Limits, states: seq<State<E>>, labels: seq<Label<E>>, i: nat, k: nat)
    requires IsRun(l, states, labels) && i <= k < |states|
    ensures states[i].polled <= states[k].polled && states[i].accepted <= states[k].accepted
  {
    if i < k {
      PolledGrows(l, states, labels, i, k - 1);
    }
  }

  /** Backpressure never loses an event: every call of a thread that is not in `emit` any more
      was accepted, in call order, or was dropped after the queue had been closed. */
  lemma EveryCallResolved<E>(l: Limits, states: seq<State<E>>, labels: seq<Label<E>>, k: nat, t: Thread)
    requires IsRun(l, states, labels) && k < |states| && t !in states[k].producers
    ensures Of(states[k].calls, t) == Of(states[k].accepted, t) + Of(states[k].dropped, t)
    ensures !states[k].queue.closed ==> Of(states[k].calls, t) == Of(states[k].accepted, t)
  {
    RunInvariant(l, states, labels, k);
  }

  /** No lost wake-up: a parked producer is really blocked, by the capacity or by the byte budget,
      so the queue is open and holds an event, and polling that event makes the producer runnable. */
  lemma NoLostWakeup<E>(l: Limits, states: seq<State<E>>, labels: seq<Label<E>>, k: nat, t: Thread)
    requires IsRun(l, states, labels) && k < |states|
    requires t in states[k].producers && states[k].producers[t].Parked?
    ensures var channel, bytes := states[k].queue.channel, states[k].producers[t].entry.bytes;
            |channel| == l.capacity || (TotalBytes(channel) > 0 && TotalBytes(channel) + bytes > l.maxBytes)
    ensures !states[k].queue.closed && states[k].queue.channel != []
    ensures PollStepState(states[k]).producers[t] == Woken(states[k].producers[t].entry)
  {
    RunInvariant(l, states, labels, k);
    BlockedMeansNonEmpty(states[k].queue, l, states[k].producers[t].entry.bytes);
  }

  /** `close` releases everyone: from then on nobody is parked, and each remaining producer
      returns at its next turn. */
  lemma NobodyParkedAfterClose<E>(l: Limits, states: seq<State<E>>, labels: seq<Label<E>>, k: nat, t: Thread, w: Write)
    requires IsRun(l, states, labels) && k < |states|
    requires states[k].queue.closed && t in states[k].producers
    ensures !states[k].producers[t].Parked?
    ensures t !in AttemptStep(states[k], l, t, w).producers
  {
    RunInvariant(l, states, labels, k);
  }

  /** The counter that tests observe is the number of producers inside the wait. */
  lemma WaitingCounterExact<E>(l: Limits, states: seq<State<E>>, labels: seq<Label<E>>, k: nat)
    requires IsRun(l, states, labels) && k < |states|
    ensures states[k].waitingProducers == |Waiting(states[k].producers)|
  {
    RunInvariant(l, states, labels, k);
  }

  /** Unless a wake-byte write failed for good, a non-empty channel keeps the flag set and the
      descriptor readable. */
  lemma ChannelAnnounced<E>(l: Limits, states: seq<State<E>>, labels: seq<Label<E>>, k: nat)
    requires IsRun(l, states, labels) && k < |states|
    requires !states[k].writeFailed && states[k].queue.channel != []
    ensures states[k].queue.pending && 0 < states[k].queue.wakeBytes
  {
    RunInvariant(l, states, labels, k);
  }

  /** The exception is real: one failed write leaves an accepted event unannounced. */
  lemma HardWriteErrorHidesEvent<E>(event: E) returns (states: seq<State<E>>, labels: seq<Label<E>>)
    ensures IsRun(Limits(1, 8, 1), states, labels)
    ensures var s := states[|states| - 1]; s.queue.channel != [] && !s.queue.pending && s.writeFailed
  {
    var l := Limits(1, 8, 1);
    labels := [Call(0, event, 0), Attempt(0, HardError)];
    var s0: State<E> := Init();
    var s1 := Apply(s0, l, labels[0]);
    states := [s0, s1, Apply(s1, l, labels[1])];
  }
}
