/** The bounded event queue between the backend and the host: a channel with a count limit
    and a byte budget, and a level-triggered wake byte on a socket pair. Each function is
    what one thread does between acquiring and releasing the `serial` lock. */
module EventQueues {
  import opened Common

  /** An event and the length of its `data` vector. */
  datatype Entry<E> = Entry(payload: E, bytes: Usize)

  type Usize = n: nat | n <= U64_MAX

  datatype Limits = Limits(capacity: nat, maxBytes: nat, socketCapacity: nat)

  ghost predicate ValidLimits(l: Limits) {
    0 < l.capacity && l.maxBytes <= U64_MAX && 0 < l.socketCapacity
  }

  datatype Queue<E> = Queue(
    channel: seq<Entry<E>>,
    queuedBytes: Usize,
    pending: bool,
    wakeBytes: nat,
    closed: bool,
    connected: bool)

  function NewQueue<E>(): Queue<E> {
    Queue([], 0, false, 0, false, true)
  }

  /** How the last `write` of the wake byte ended, after any interrupted attempts. */
  datatype Write = Wrote | WouldBlock | HardError

  predicate WritePossible<E>(q: Queue<E>, l: Limits, w: Write) {
    match w
    case Wrote => q.wakeBytes < l.socketCapacity
    case WouldBlock => q.wakeBytes == l.socketCapacity
    case HardError => true
  }

  function Notify<E>(q: Queue<E>, w: Write): Queue<E> {
    if q.pending then q
    else match w
      case Wrote => q.(pending := true, wakeBytes := q.wakeBytes + 1)
      case WouldBlock => q.(pending := true)
      case HardError => q
  }

  /** The byte test of `emit`: an event waits when the queue already holds data and the
      sum overflows or exceeds the budget. */
  predicate ByteBlocked<E>(q: Queue<E>, l: Limits, bytes: nat) {
    q.queuedBytes != 0 && (q.queuedBytes + bytes > U64_MAX || q.queuedBytes + bytes > l.maxBytes)
  }

  predicate Admits<E>(q: Queue<E>, l: Limits, bytes: nat) {
    !ByteBlocked(q, l, bytes) && |q.channel| < l.capacity
  }

  datatype Outcome = Sent | MustWait | Dropped

  function OfferOutcome<E>(q: Queue<E>, l: Limits, e: Entry<E>): Outcome {
    if q.closed then Dropped else if Admits(q, l, e.bytes) then Sent else MustWait
  }

  /** When an event is accepted, in numbers: the queue is open and below its capacity, and the event
      fits the budget beside what is queued or finds no data there. */
  lemma SentIff<E>(q: Queue<E>, l: Limits, e: Entry<E>)
    ensures OfferOutcome(q, l, e).Sent? <==>
            && !q.closed && |q.channel| < l.capacity
            && (q.queuedBytes == 0 || (q.queuedBytes + e.bytes <= U64_MAX && q.queuedBytes + e.bytes <= l.maxBytes))
    ensures OfferOutcome(q, l, e).Dropped? <==> q.closed
  {
  }

  function Offer<E>(q: Queue<E>, l: Limits, e: Entry<E>, w: Write): Queue<E> {
    if OfferOutcome(q, l, e) != Sent then q
    else Notify(q.(channel := q.channel + [e], queuedBytes := WrappingAdd(q.queuedBytes, e.bytes)), w)
  }

  datatype Polled<E> = Event(entry: Entry<E>) | Empty | Disconnected

  function PollResult<E>(q: Queue<E>): Polled<E> {
    if q.channel != [] then Event(q.channel[0]) else if q.connected then Empty else Disconnected
  }

  function Poll<E>(q: Queue<E>): Queue<E> {
    if q.channel != [] then
      q.(channel := q.channel[1..],
         queuedBytes := WrappingSub(q.queuedBytes, q.channel[0].bytes))
    else q.(wakeBytes := 0, pending := false)
  }

  function Close<E>(q: Queue<E>): Queue<E> {
    q.(closed := true)
  }

  // ----- accounting -----

  function TotalBytes<E>(s: seq<Entry<E>>): nat {
    if s == [] then 0 else s[0].bytes + TotalBytes(s[1..])
  }

  lemma {:induction false} TotalBytesAppend<E>(s: seq<Entry<E>>, e: Entry<E>)
    ensures TotalBytes(s + [e]) == TotalBytes(s) + e.bytes
  {
    if s == [] {
      assert s + [e] == [e];
    } else {
      assert (s + [e])[1..] == s[1..] + [e];
      TotalBytesAppend(s[1..], e);
    }
  }

  lemma {:induction false} TotalBytesZero<E>(s: seq<Entry<E>>)
    ensures TotalBytes(s) == 0 <==> forall i :: 0 <= i < |s| ==> s[i].bytes == 0
  {
    if s != [] {
      TotalBytesZero(s[1..]);
      assert forall i :: 0 <= i < |s| - 1 ==> s[1..][i] == s[i + 1];
    }
  }

  /** The only entry with data is the last one. */
  ghost predicate OnlyLastHasData<E>(s: seq<Entry<E>>) {
    s != [] && 0 < s[|s| - 1].bytes && forall i :: 0 <= i < |s| - 1 ==> s[i].bytes == 0
  }

  /** What every lock section leaves behind about sizes. */
  ghost predicate Accounted<E>(q: Queue<E>, l: Limits) {
    && q.queuedBytes == TotalBytes(q.channel)
    && |q.channel| <= l.capacity
    && (q.queuedBytes <= l.maxBytes || OnlyLastHasData(q.channel))
  }

  lemma OfferAccounted<E>(q: Queue<E>, l: Limits, e: Entry<E>, w: Write)
    requires ValidLimits(l) && Accounted(q, l)
    ensures Accounted(Offer(q, l, e, w), l)
  {
    if OfferOutcome(q, l, e) == Sent {
      TotalBytesAppend(q.channel, e);
      TotalBytesZero(q.channel);
    }
  }

  lemma PollAccounted<E>(q: Queue<E>, l: Limits)
    requires Accounted(q, l)
    ensures Accounted(Poll(q), l)
  {
    if q.channel != [] {
      assert q.channel[0].bytes <= q.queuedBytes;
      assert Poll(q).queuedBytes == q.queuedBytes - q.channel[0].bytes;
      if OnlyLastHasData(q.channel) && |q.channel| > 1 {
        var rest := q.channel[1..];
        assert forall i :: 0 <= i < |rest| ==> rest[i] == q.channel[i + 1];
      }
    }
  }

  /** A non-empty channel is announced: the flag is set and the descriptor is readable. */
  predicate Announced<E>(q: Queue<E>) {
    && (q.channel != [] ==> q.pending)
    && (q.pending ==> 0 < q.wakeBytes)
  }

  /** A parked producer cannot be overtaken into admissibility by other producers. */
  lemma OfferKeepsBlocked<E>(q: Queue<E>, l: Limits, e: Entry<E>, w: Write, bytes: nat)
    requires ValidLimits(l) && Accounted(q, l)
    requires !Admits(q, l, bytes)
    ensures !Admits(Offer(q, l, e, w), l, bytes)
  {
    if OfferOutcome(q, l, e) == Sent {
      OfferAccounted(q, l, e, w);
      TotalBytesAppend(q.channel, e);
    }
  }

  /** An empty queue admits any event, however large. */
  lemma EmptyAdmits<E>(q: Queue<E>, l: Limits, bytes: nat)
    requires ValidLimits(l) && Accounted(q, l) && q.channel == []
    ensures Admits(q, l, bytes)
  {
  }

  lemma BlockedMeansNonEmpty<E>(q: Queue<E>, l: Limits, bytes: nat)
    requires ValidLimits(l) && Accounted(q, l) && !Admits(q, l, bytes)
    ensures q.channel != []
  {
    if q.channel == [] {
      EmptyAdmits(q, l, bytes);
    }
  }
}

/** The queue as the source holds it: shared fields changed under the `serial` lock. */
module EventQueueObject {
  import opened Common
  import opened EventQueues

  class EventQueue<E> {
    const limits: Limits
    var channel: seq<Entry<E>>
    var queuedBytes: Usize
    var pending: bool
    var wakeBytes: nat
    var closed: bool
    var connected: bool

    function Value(): Queue<E>
      reads this
    {
      Queue(channel, queuedBytes, pending, wakeBytes, closed, connected)
    }

    constructor (limits: Limits)
      requires 0 < limits.capacity
      ensures Value() == NewQueue() && this.limits == limits
    {
      this.limits := limits;
      channel, queuedBytes, pending, wakeBytes, closed, connected := [], 0, false, 0, false, true;
    }

    /** `interruptions` writes fail with EINTR before one ends as `w`. */
    method NotifyLocked(interruptions: nat, w: Write)
      modifies this
      ensures Value() == Notify(old(Value()), w)
    {
      var wasPending := pending;
      pending := true;
      if wasPending {
        return;
      }
      var tries := 0;
      while true
        invariant tries <= interruptions
        invariant Value() == old(Value()).(pending := true)
        decreases interruptions - tries
      {
        if tries < interruptions {
          tries := tries + 1;
          continue;
        }
        match w {
          case Wrote => wakeBytes := wakeBytes + 1;
          case WouldBlock =>
          case HardError => pending := false;
        }
        return;
      }
    }

    /** One pass of the loop in `emit`. */
    method TryEmit(e: Entry<E>, interruptions: nat, w: Write) returns (outcome: Outcome)
      modifies this
      ensures outcome == OfferOutcome(old(Value()), limits, e)
      ensures Value() == Offer(old(Value()), limits, e, w)
      ensures outcome.Dropped? <==> old(closed)
      ensures outcome.Sent? <==>
              && !old(closed) && |old(channel)| < limits.capacity
              && (old(queuedBytes) == 0
                  || (old(queuedBytes) + e.bytes <= U64_MAX && old(queuedBytes) + e.bytes <= limits.maxBytes))
      ensures channel == old(channel) + if outcome.Sent? then [e] else []
    {
      if closed {
        return Dropped;
      }
      if queuedBytes != 0
         && (queuedBytes + e.bytes > U64_MAX || queuedBytes + e.bytes > limits.maxBytes) {
        return MustWait;
      }
      if e.bytes > 0 {
        queuedBytes := WrappingAdd(queuedBytes, e.bytes);
      }
      if |channel| < limits.capacity {
        channel := channel + [e];
        NotifyLocked(interruptions, w);
        return Sent;
      }
      if e.bytes > 0 {
        queuedBytes := WrappingSub(queuedBytes, e.bytes);
      }
      return MustWait;
    }

    method DrainNotification()
      modifies this`wakeBytes
      ensures wakeBytes == 0
    {
      while wakeBytes > 0 {
        wakeBytes := if wakeBytes < 64 then 0 else wakeBytes - 64;
      }
    }

    method PollOnce() returns (result: Polled<E>)
      modifies this
      ensures result == PollResult(old(Value()))
      ensures Value() == Poll(old(Value()))
      ensures result.Event? ==> [result.entry] + channel == old(channel)
      ensures !result.Event? ==> old(channel) == channel == [] && !pending && wakeBytes == 0
      ensures result.Event? <==> old(channel) != []
      ensures result.Disconnected? <==> old(channel) == [] && !old(connected)
    {
      if channel != [] {
        var e := channel[0];
        channel := channel[1..];
        queuedBytes := WrappingSub(queuedBytes, e.bytes);
        return Event(e);
      }
      DrainNotification();
      pending := false;
      return if connected then Empty else Disconnected;
    }

    method CloseQueue()
      modifies this`closed
      ensures Value() == Close(old(Value()))
    {
      closed := true;
    }
  }

  const POLL_BATCH: nat := 64

  /** What the host makes of an event: it refuses a foreign layout, or dispatches it and goes on or
      stops listening. */
  datatype Verdict = Keeps | Stops | Incompatible

  /** How a callback ends; the source stays installed after the first two. */
  datatype Ending = BatchFull | Quiet | NotifierFailed | ChannelGone | Refused | Stopped | Closing

  /** The callback polled until nothing was left. */
  predicate FoundEmpty(e: Ending) {
    e.Quiet? || e.NotifierFailed? || e.ChannelGone?
  }

  /** The events that the host must acknowledge, in order. */
  function Owed<E>(s: seq<Entry<E>>, owes: E -> bool): seq<Entry<E>> {
    if s == [] then []
    else Owed(s[..|s| - 1], owes) + if owes(s[|s| - 1].payload) then [s[|s| - 1]] else []
  }

  lemma OwedAppend<E>(s: seq<Entry<E>>, e: Entry<E>, owes: E -> bool)
    ensures Owed(s + [e], owes) == Owed(s, owes) + if owes(e.payload) then [e] else []
  {
    assert (s + [e])[..|s|] == s;
  }

  /** Owing is a filter: it keeps the order and looks at each event alone. */
  lemma {:induction false} OwedConcat<E>(a: seq<Entry<E>>, b: seq<Entry<E>>, owes: E -> bool)
    ensures Owed(a + b, owes) == Owed(a, owes) + Owed(b, owes)
    ensures forall e :: Owed([e], owes) == if owes(e.payload) then [e] else []
  {
    if b == [] {
      assert a + b == a;
      assert Owed(a, owes) + [] == Owed(a, owes);
    } else {
      var front, last := b[..|b| - 1], b[|b| - 1];
      assert a + b == (a + front) + [last] && b == front + [last];
      OwedConcat(a, front, owes);
      OwedAppend(a + front, last, owes);
      OwedAppend(front, last, owes);
      Associative(Owed(a, owes), Owed(front, owes), if owes(last.payload) then [last] else []);
    }
    forall e
      ensures Owed([e], owes) == if owes(e.payload) then [e] else []
    {
      OwedAppend([], e, owes);
      assert [] + [e] == [e];
    }
  }

  /** The host's descriptor callback: at most 64 events per wake-up, then back to the main loop.
      Every event that is kept and owes an acknowledgement gets one; the event that ends the
      callback early, `last`, gets none. */
  method PollBackend<E>(q: EventQueue<E>, closing: bool, notifierFailed: bool, verdict: nat -> Verdict, owes: E -> bool)
    returns (kept: seq<Entry<E>>, last: Option<Entry<E>>, acknowledged: seq<Entry<E>>, ending: Ending)
    modifies q
    ensures kept + (if last.Some? then [last.value] else []) + q.channel == old(q.channel)
    ensures |kept| <= POLL_BATCH && forall i :: 0 <= i < |kept| ==> verdict(i).Keeps?
    ensures acknowledged == Owed(kept, owes)
    ensures last.Some? <==> ending.Refused? || ending.Stopped?
    ensures ending.Refused? ==> verdict(|kept|).Incompatible?
    ensures ending.Stopped? ==> verdict(|kept|).Stops?
    ensures ending.BatchFull? ==> |kept| == POLL_BATCH
    ensures ending.Closing? <==> closing
    ensures closing ==> kept == []
    ensures FoundEmpty(ending) ==> |kept| < POLL_BATCH && q.channel == [] && !q.pending && q.wakeBytes == 0
    ensures FoundEmpty(ending) ==>
              ending == if !old(q.connected) then ChannelGone else if notifierFailed then NotifierFailed else Quiet
    ensures !FoundEmpty(ending) ==> q.pending == old(q.pending) && q.wakeBytes == old(q.wakeBytes)
    ensures old(Announced(q.Value())) ==> Announced(q.Value())
  {
    kept, last, acknowledged := [], None, [];
    if closing {
      return kept, last, acknowledged, Closing;
    }
    while |kept| < POLL_BATCH
      invariant |kept| <= POLL_BATCH && kept + q.channel == old(q.channel)
      invariant acknowledged == Owed(kept, owes)
      invariant forall i :: 0 <= i < |kept| ==> verdict(i).Keeps?
      invariant q.pending == old(q.pending) && q.wakeBytes == old(q.wakeBytes) && q.connected == old(q.connected)
    {
      ghost var before := q.channel;
      var result := q.PollOnce();
      if !result.Event? {
        return kept, None, acknowledged,
               if result.Disconnected? then ChannelGone else if notifierFailed then NotifierFailed else Quiet;
      }
      var e := result.entry;
      assert before == [e] + q.channel;
      AppendOne(kept, e, q.channel);
      if !verdict(|kept|).Keeps? {
        return kept, Some(e), acknowledged, if verdict(|kept|).Incompatible? then Refused else Stopped;
      }
      OwedAppend(kept, e, owes);
      kept := kept + [e];
      if owes(e.payload) {
        acknowledged := acknowledged + [e];
      }
    }
    return kept, None, acknowledged, BatchFull;
  }

  /** Callbacks repeated while the descriptor is readable deliver the whole channel in order, as
      long as the host keeps listening. */
  method PumpUntilQuiet<E>(q: EventQueue<E>, owes: E -> bool) returns (delivered: seq<Entry<E>>, callbacks: nat)
    requires Announced(q.Value())
    modifies q
    ensures delivered == old(q.channel)
    ensures q.channel == [] && q.wakeBytes == 0
    ensures callbacks <= |old(q.channel)| / POLL_BATCH + 1
  {
    delivered, callbacks := [], 0;
    while q.wakeBytes > 0
      invariant delivered + q.channel == old(q.channel)
      invariant Announced(q.Value())
      invariant q.wakeBytes > 0 ==> callbacks * POLL_BATCH == |delivered|
      invariant q.wakeBytes == 0 ==> callbacks <= |old(q.channel)| / POLL_BATCH + 1
      decreases q.wakeBytes > 0, |q.channel|
    {
      ghost var before := q.channel;
      var batch, _, _, _ := PollBackend(q, false, false, _ => Keeps, owes);
      assert delivered + batch + q.channel == delivered + before;
      delivered := delivered + batch;
      callbacks := callbacks + 1;
    }
  }
}
