/** The path of a received message: durable store, replay queue, projection, event queue, host
    poll loop, acknowledgement inbox, durable "projected" mark; with crashes and restarts
    anywhere. Delivery is at least once: a message is marked only after the host has been
    handed everything it had to show. Sending writes the same mark, for the row of the message
    that was sent. */
module Delivery {
  import opened Common
  import opened Contents
  import opened MessageEvents
  import opened Acknowledgments
  import opened Projections
  import opened Replays
  import opened EventQueues

  /** One projection attempt: delivery ids start over with every run of the worker. */
  datatype Attempt = Attempt(run: nat, id: Id)

  /** A queued event; events of other activities carry no attempt. */
  datatype Note = Note(event: Event, attempt: Option<Attempt>, index: nat)

  /** An attempt to handle a message: for which account, with which answers of the world, and what
      came of it. */
  datatype Record = Record(content: Content, self: ServiceId, world: World, handled: Handled)

  datatype Worker =
    | Idle
    | Emitting(id: Id, content: Content, done: nat)
    | Recording(batch: seq<Id>, retrying: bool)

  /** Bookkeeping of messages sent from here: the thread each row is filed under, the sends that
      the network accepted, those of this run whose row is not marked yet, and the rows marked
      in that way. */
  datatype Sends = Sends(
    filed: map<Content, Thread>,
    done: set<SentMessage>,
    unrecorded: set<SentMessage>,
    marked: set<Content>)

  datatype State = State(
    // durable
    received: set<Content>,
    projected: set<Content>,
    // of the current run
    run: nat,
    groupsAuthoritative: bool,
    replay: Replay,
    projection: Projection,
    queue: Queue<Note>,
    worker: Worker,
    hostAck: Option<Id>,
    discarded: seq<Entry<Note>>,       // the event at which the host stopped listening, if it did
    sends: Sends,
    // history
    attempts: map<Attempt, Record>,
    shown: set<(Attempt, nat)>,        // events dispatched by the host, over all runs
    emitted: seq<Entry<Note>>,         // events accepted by the queue in this run
    polled: seq<Entry<Note>>,          // events dispatched by the host in this run
    wrapped: bool)                     // some run has used up all 64-bit delivery ids

  function Init(): State {
    State({}, {}, 0, false, NoReplay(), NewProjection(), NewQueue(), Idle, None, [], Sends(map[], {}, {}, {}),
          map[], {}, [], [], false)
  }

  datatype Label =
    | Store(content: Content, thread: Thread)
    | SendDone(sent: SentMessage)
    | MarkSent(sent: SentMessage, content: Content)
    | PushLive(content: Content)
    | Load(messages: seq<Content>)
    | SetAuthority(authoritative: bool)
    | ReleaseGroups
    | Project(self: ServiceId, world: World)
    | Emit(write: Write)
    | EmitOther(event: Event, write: Write)
    | FinishHandling(marked: bool)
    | TakeAcks
    | RecordAck(marked: bool)
    | FinishAcks
    | RetryAcks
    | HostPoll
    | HostStop(dispatched: bool)
    | HostSubmit
    | CloseEvents
    | Shutdown
    | Crash

  function Current(s: State, d: Id): Attempt { Attempt(s.run, d) }

  /** The worker is between messages and between acknowledgements. */
  predicate Free(s: State) {
    s.worker.Idle? || (s.worker.Recording? && s.worker.batch == [])
  }

  /** The lookup of `mark_sent_message_projected`: by thread and time, not by sender. The store
      may hold several such rows; any of them may be the one it returns. */
  predicate Finds(s: State, sent: SentMessage, c: Content) {
    && c in s.received && c in s.sends.filed
    && s.sends.filed[c] == sent.thread && c.identity.timestampMs == sent.timestampMs
  }

  ghost predicate EmittingNow(s: State) {
    && s.worker.Emitting?
    && Current(s, s.worker.id) in s.attempts
    && s.worker.done <= |s.attempts[Current(s, s.worker.id)].handled.events|
  }

  function NextEntry(s: State): Entry<Note>
    requires EmittingNow(s)
    requires s.worker.done < |s.attempts[Current(s, s.worker.id)].handled.events|
    requires s.attempts[Current(s, s.worker.id)].handled.events[s.worker.done].data <= U64_MAX
  {
    var a := Current(s, s.worker.id);
    var e := s.attempts[a].handled.events[s.worker.done];
    Entry(Note(e, Some(a), s.worker.done), e.data)
  }

  ghost predicate Enabled(s: State, l: Limits, a: Label) {
    match a
    case Store(_, _) => true
    case SendDone(_) => true
    case MarkSent(sent, c) => Free(s) && sent in s.sends.unrecorded && Finds(s, sent, c)
    case PushLive(c) => s.worker.Idle? && c in s.received
    case Load(messages) =>
      s.worker.Idle? && forall c :: c in messages <==> c in s.received && c !in s.projected
    case SetAuthority(_) => s.worker.Idle?
    case ReleaseGroups => s.worker.Idle? && s.groupsAuthoritative
    case Project(_, _) => s.worker.Idle? && HasCapacity(s.projection) && s.replay.ready != []
    case Emit(w) =>
      && EmittingNow(s)
      && s.worker.done < |s.attempts[Current(s, s.worker.id)].handled.events|
      && s.attempts[Current(s, s.worker.id)].handled.events[s.worker.done].data <= U64_MAX
      && !OfferOutcome(s.queue, l, NextEntry(s)).MustWait?
      && WritePossible(s.queue, l, w)
    case EmitOther(e, w) => !Acknowledged(e) && e.data <= U64_MAX && WritePossible(s.queue, l, w)
    case FinishHandling(_) =>
      EmittingNow(s) && s.worker.done == |s.attempts[Current(s, s.worker.id)].handled.events|
    case TakeAcks => Free(s)
    case RecordAck(_) => s.worker.Recording? && s.worker.batch != []
    case FinishAcks => s.worker.Recording? && s.worker.batch == [] && s.worker.retrying
    case RetryAcks => s.worker.Idle?
    case HostPoll => s.hostAck.None? && s.discarded == []
    case HostStop(_) => s.hostAck.None? && s.discarded == [] && s.queue.channel != []
    case HostSubmit => s.hostAck.Some?
    case CloseEvents => true
    case Shutdown => true
    case Crash => true
  }

  function ProjectStep(s: State, self: ServiceId, w: World): State
    requires s.replay.ready != []
  {
    var c := s.replay.ready[0];
    var s1 := s.(replay := s.replay.(ready := s.replay.ready[1..]));
    if !IsProjectable(c.body, s.groupsAuthoritative) || !Tracks(s.projection, c) then s1
    else
      var d := NextId(s.projection.nextDeliveryId);
      s1.(projection := Track(s.projection, c),
          worker := Emitting(d, c, 0),
          attempts := s.attempts[Current(s, d) := Record(c, self, w, HandleContent(c, self, d, w))],
          wrapped := s.wrapped || s.projection.nextDeliveryId >= U64_MAX)
  }

  function OfferEntry(s: State, l: Limits, e: Entry<Note>, w: Write): State {
    if OfferOutcome(s.queue, l, e).Sent?
    then s.(queue := Offer(s.queue, l, e, w), emitted := s.emitted + [e])
    else s
  }

  function FinishStep(s: State, h: Handled, marked: bool): State
    requires s.worker.Emitting?
  {
    var s1 := s.(worker := Idle);
    match h.disposition
    case AwaitingAck => s1
    case Retry => s1.(projection := ReleaseId(s.projection, s.worker.id))
    case Complete =>
      if marked
      then s1.(projected := s.projected + {s.worker.content}, projection := CompleteId(s.projection, s.worker.id))
      else s1.(projection := ReleaseId(s.projection, s.worker.id))
  }

  function RecordStep(s: State, marked: bool): State
    requires s.worker.Recording? && s.worker.batch != []
  {
    var d, p := s.worker.batch[0], s.projection;
    var s1 := s.(worker := s.worker.(batch := s.worker.batch[1..]));
    if d !in p.pending then s1.(projection := p.(inbox := Unregister(p.inbox, d)))
    else if marked then s1.(projected := s.projected + {p.pending[d]}, projection := CompleteId(p, d))
    else if s.worker.retrying then s1.(projection := p.(inbox := DeferRetry(p.inbox, d)))
    else s1
  }

  function PollStep(s: State): State {
    if s.queue.channel == [] then s.(queue := Poll(s.queue))
    else
      var e := s.queue.channel[0];
      var n := e.payload;
      s.(queue := Poll(s.queue),
         polled := s.polled + [e],
         shown := if n.attempt.Some? then s.shown + {(n.attempt.value, n.index)} else s.shown,
         hostAck := if n.event.requestId != 0 && Acknowledged(n.event) then Some(n.event.requestId) else None)
  }

  /** The host polls an event, refuses or dispatches it, acknowledges nothing and never polls
      again in this run. */
  function StopStep(s: State, dispatched: bool): State
    requires s.queue.channel != []
  {
    var e := s.queue.channel[0];
    var n := e.payload;
    s.(queue := Poll(s.queue),
       discarded := [e],
       shown := if dispatched && n.attempt.Some? then s.shown + {(n.attempt.value, n.index)} else s.shown)
  }

  function WithInbox(s: State, b: Inbox): State {
    s.(projection := s.projection.(inbox := b))
  }

  ghost function Apply(s: State, l: Limits, a: Label): State
    requires Enabled(s, l, a)
  {
    match a
    case Store(c, thread) =>
      s.(received := s.received + {c},
         sends := if c in s.sends.filed then s.sends else s.sends.(filed := s.sends.filed[c := thread]))
    case SendDone(sent) =>
      s.(sends := s.sends.(done := s.sends.done + {sent}, unrecorded := s.sends.unrecorded + {sent}))
    case MarkSent(sent, c) =>
      s.(projected := s.projected + {c},
         sends := s.sends.(unrecorded := s.sends.unrecorded - {sent}, marked := s.sends.marked + {c}))
    case PushLive(c) => s.(replay := Push(s.replay, c, s.groupsAuthoritative))
    case Load(messages) => s.(replay := PushAll(NoReplay(), messages, s.groupsAuthoritative))
    case SetAuthority(b) => s.(groupsAuthoritative := b)
    case ReleaseGroups => s.(replay := ActivateGroups(s.replay))
    case Project(self, w) => ProjectStep(s, self, w)
    case Emit(w) => OfferEntry(s, l, NextEntry(s), w).(worker := s.worker.(done := s.worker.done + 1))
    case EmitOther(e, w) => OfferEntry(s, l, Entry(Note(e, None, 0), e.data), w)
    case FinishHandling(marked) => FinishStep(s, s.attempts[Current(s, s.worker.id)].handled, marked)
    case TakeAcks =>
      var b := s.projection.inbox;
      WithInbox(s, TakeReady(b, ACKNOWLEDGMENT_BATCH_SIZE))
      .(worker := Recording(b.ready[..BatchSize(b, ACKNOWLEDGMENT_BATCH_SIZE)], s.worker.Idle? || s.worker.retrying))
    case RecordAck(marked) => RecordStep(s, marked)
    case FinishAcks => s.(worker := Idle)
    case RetryAcks => WithInbox(s, ActivateRetries(s.projection.inbox))
    case HostPoll => PollStep(s)
    case HostStop(dispatched) => StopStep(s, dispatched)
    case HostSubmit => WithInbox(s, Submit(s.projection.inbox, s.hostAck.value)).(hostAck := None)
    case CloseEvents => s.(queue := Close(s.queue))
    case Shutdown => WithInbox(s, CloseInbox(s.projection.inbox)).(worker := Recording([], false))
    case Crash =>
      s.(run := s.run + 1, groupsAuthoritative := false, replay := NoReplay(), projection := NewProjection(),
         queue := NewQueue(), worker := Idle, hostAck := None, discarded := [],
         sends := s.sends.(unrecorded := {}),
         emitted := [], polled := [])
  }

  ghost predicate IsRun(l: Limits, states: seq<State>, labels: seq<Label>) {
    && ValidLimits(l)
    && |states| == |labels| + 1
    && states[0] == Init()
    && forall i {:trigger labels[i]} :: 0 <= i < |labels| ==>
         Enabled(states[i], l, labels[i]) && states[i + 1] == Apply(states[i], l, labels[i])
  }

  // ----- what justifies a durable mark -----

  /** The host has been handed every message and attachment event of the attempt. */
  ghost predicate AllShown(s: State, a: Attempt) {
    && a in s.attempts
    && s.attempts[a].handled.disposition.AwaitingAck?
    && forall j :: 0 <= j < |s.attempts[a].handled.events| && Acknowledged(s.attempts[a].handled.events[j]) ==>
         (a, j) in s.shown
  }

  /** The message has nothing for the host to show, given what the store said of its group. */
  ghost predicate NothingToShow(s: State, a: Attempt) {
    a in s.attempts && HasNothing(s.attempts[a].content, s.attempts[a].world.group)
  }

  ghost predicate Justified(s: State, c: Content) {
    exists a :: a in s.attempts && s.attempts[a].content == c && (AllShown(s, a) || NothingToShow(s, a))
  }

  /** Some send that the network accepted has the row's thread and time. */
  ghost predicate Sent(s: State, c: Content) {
    exists sent :: sent in s.sends.done && Finds(s, sent, c)
  }

  // ----- invariants -----

  ghost predicate SendsOk(s: State) {
    && s.sends.unrecorded <= s.sends.done
    && s.sends.marked <= s.projected
    && forall c :: c in s.sends.marked ==> Sent(s, c)
  }

  ghost predicate RecordOk(a: Attempt, r: Record) {
    && r.handled == HandleContent(r.content, r.self, a.id, r.world)
    && (if r.handled.disposition.AwaitingAck? then OneFinalAck(r.handled.events, a.id)
        else MessageEvents.Projected(r.handled.events) == [])
  }

  ghost predicate RecordsOk(s: State) {
    forall a :: a in s.attempts ==>
      && a.run <= s.run
      && (a.run == s.run ==> a.id <= s.projection.nextDeliveryId)
      && RecordOk(a, s.attempts[a])
  }

  ghost predicate PendingOk(s: State) {
    && Unwrapped(s.projection)
    && forall d :: d in s.projection.pending ==>
         Current(s, d) in s.attempts && s.attempts[Current(s, d)].content == s.projection.pending[d]
  }

  /** A queued note is the planned event it claims to be. */
  ghost predicate NoteOk(s: State, n: Note) {
    if n.attempt.None? then !Acknowledged(n.event)
    else
      var a := n.attempt.value;
      && a.run == s.run && a in s.attempts && n.index < |s.attempts[a].handled.events|
      && s.attempts[a].handled.events[n.index] == n.event
  }

  ghost predicate LogOk(s: State) {
    && s.emitted == s.polled + s.discarded + s.queue.channel
    && (forall p :: 0 <= p < |s.emitted| ==> NoteOk(s, s.emitted[p].payload))
    && forall q :: 0 <= q < |s.polled| && s.polled[q].payload.attempt.Some? ==>
         (s.polled[q].payload.attempt.value, s.polled[q].payload.index) in s.shown
  }

  /** Event `j` of the attempt is in the log at or before position `p`. */
  ghost predicate Holds(log: seq<Entry<Note>>, p: int, a: Attempt, j: nat)
    requires p < |log|
  {
    exists q :: 0 <= q <= p && log[q].payload.attempt == Some(a) && log[q].payload.index == j
  }

  ghost predicate InLog(log: seq<Entry<Note>>, a: Attempt, j: nat) {
    exists q :: 0 <= q < |log| && log[q].payload.attempt == Some(a) && log[q].payload.index == j
  }

  /** Events of an attempt are emitted in order, without gaps. */
  ghost predicate GapFree(log: seq<Entry<Note>>) {
    forall p, j :: 0 <= p < |log| && log[p].payload.attempt.Some? && 0 <= j <= log[p].payload.index ==>
      Holds(log, p, log[p].payload.attempt.value, j)
  }

  ghost predicate EmittingOk(s: State) {
    s.worker.Emitting? ==>
      && EmittingNow(s)
      && s.worker.id in s.projection.pending
      && s.attempts[Current(s, s.worker.id)].content == s.worker.content
      && (!s.queue.closed ==> forall j :: 0 <= j < s.worker.done ==>
            InLog(s.emitted, Current(s, s.worker.id), j))
  }

  ghost predicate Awaited(s: State, d: Id) {
    || s.hostAck == Some(d)
    || d in s.projection.inbox.ready
    || d in s.projection.inbox.retry
    || (s.worker.Recording? && d in s.worker.batch)
  }

  ghost predicate AcksOk(s: State) {
    forall d :: Awaited(s, d) ==> AllShown(s, Current(s, d))
  }

  ghost predicate Known(s: State) {
    && s.projected <= s.received
    && (forall c :: c in s.replay.ready || c in s.replay.waiting ==> c in s.received)
    && forall d :: d in s.projection.pending ==> s.projection.pending[d] in s.received
  }

  ghost predicate Safe(s: State) {
    forall c :: c in s.projected ==> c in s.sends.marked || Justified(s, c)
  }

  ghost predicate Inv(s: State) {
    !s.wrapped ==>
      && RecordsOk(s) && PendingOk(s) && LogOk(s) && GapFree(s.emitted)
      && EmittingOk(s) && AcksOk(s) && Known(s) && SendsOk(s) && Safe(s)
  }

  // ----- history only grows -----

  ghost predicate Extends(s: State, t: State) {
    && (forall a :: a in s.attempts ==> a in t.attempts && t.attempts[a] == s.attempts[a])
    && s.shown <= t.shown
  }

  lemma ShownMonotone(s: State, t: State, a: Attempt)
    requires Extends(s, t)
    ensures AllShown(s, a) ==> AllShown(t, a)
    ensures NothingToShow(s, a) ==> NothingToShow(t, a)
  {
  }

  lemma SafeMonotone(s: State, t: State)
    requires Safe(s) && Extends(s, t) && t.projected == s.projected && s.sends.marked <= t.sends.marked
    ensures Safe(t)
  {
    forall c | c in t.projected && c !in s.sends.marked
      ensures Justified(t, c)
    {
      var a :| a in s.attempts && s.attempts[a].content == c && (AllShown(s, a) || NothingToShow(s, a));
      ShownMonotone(s, t, a);
    }
  }

  lemma SafeWith(s: State, t: State, c: Content, a: Attempt)
    requires Safe(s) && Extends(s, t) && t.projected == s.projected + {c} && t.sends.marked == s.sends.marked
    requires a in s.attempts && s.attempts[a].content == c && (AllShown(s, a) || NothingToShow(s, a))
    ensures Safe(t)
  {
    forall x | x in t.projected && x !in t.sends.marked
      ensures Justified(t, x)
    {
      if x == c {
        ShownMonotone(s, t, a);
      } else {
        var b :| b in s.attempts && s.attempts[b].content == x && (AllShown(s, b) || NothingToShow(s, b));
        ShownMonotone(s, t, b);
      }
    }
  }

  lemma SendsUnchanged(s: State, t: State)
    requires SendsOk(s) && t.sends == s.sends && s.projected <= t.projected && s.received <= t.received
    ensures SendsOk(t)
  {
    forall c | c in t.sends.marked
      ensures Sent(t, c)
    {
      var sent :| sent in s.sends.done && Finds(s, sent, c);
      assert Finds(t, sent, c);
    }
  }

  // ----- the acknowledged event is the last one -----

  lemma {:induction false} NoneAcknowledged(events: seq<Event>, j: nat)
    requires MessageEvents.Projected(events) == [] && j < |events|
    ensures !Acknowledged(events[j])
  {
    if j > 0 {
      NoneAcknowledged(events[1..], j - 1);
    }
  }

  lemma FinalAckIsLast(events: seq<Event>, id: nat, k: nat)
    requires OneFinalAck(events, id) && k < |events|
    requires Acknowledged(events[k]) && events[k].requestId != 0
    ensures events[k].requestId == id
    ensures forall j :: k < j < |events| ==> !Acknowledged(events[j])
  {
    var before, after := events[..k], events[k + 1..];
    assert events == before + ([events[k]] + after);
    ProjectedAppend(before, [events[k]] + after);
    assert ([events[k]] + after)[1..] == after;
    var p, q := MessageEvents.Projected(events), MessageEvents.Projected(before);
    assert p == q + ([events[k]] + MessageEvents.Projected(after));
    assert p[|q|] == events[k];
    assert |q| == |p| - 1;
    forall j | k < j < |events|
      ensures !Acknowledged(events[j])
    {
      NoneAcknowledged(after, j - k - 1);
    }
  }

  // ----- steps that leave the history alone -----

  /** Steps that show nothing new: they move acknowledgements and replayed contents around,
      settle pending ids, or add marks that are already justified. */
  lemma QuietKeeps(s: State, t: State)
    requires Inv(s) && !s.wrapped
    requires t.run == s.run && t.attempts == s.attempts && t.shown == s.shown && t.emitted == s.emitted
    requires t.polled == s.polled && t.queue.channel == s.queue.channel && t.wrapped == s.wrapped
    requires t.discarded == s.discarded
    requires Safe(t) && SendsOk(t) && t.projected <= t.received && s.received <= t.received
    requires t.projection.nextDeliveryId == s.projection.nextDeliveryId
    requires forall d :: d in t.projection.pending ==>
               d in s.projection.pending && t.projection.pending[d] == s.projection.pending[d]
    requires forall c :: c in t.replay.ready || c in t.replay.waiting ==> c in t.received
    requires !t.worker.Emitting? || (t.worker == s.worker && t.projection.pending == s.projection.pending)
    requires s.queue.closed ==> t.queue.closed
    requires forall d :: Awaited(t, d) ==> Awaited(s, d)
    ensures Inv(t)
  {
    AcksUnchanged(s, t);
  }

  lemma {:induction false} PushAllMembers(r: Replay, cs: seq<Content>, authoritative: bool, c: Content)
    ensures c in PushAll(r, cs, authoritative).ready || c in PushAll(r, cs, authoritative).waiting <==>
            c in r.ready || c in r.waiting || c in cs
    decreases |cs|
  {
    if cs != [] {
      PushAllMembers(Push(r, cs[0], authoritative), cs[1..], authoritative, c);
      assert cs == [cs[0]] + cs[1..];
    }
  }

  lemma ReplayKeeps(s: State, l: Limits, a: Label)
    requires Inv(s) && !s.wrapped && Enabled(s, l, a)
    requires a.PushLive? || a.Load? || a.SetAuthority? || a.ReleaseGroups? || a.CloseEvents? || a.FinishAcks?
    ensures Inv(Apply(s, l, a))
  {
    if a.Load? {
      forall c
        ensures c in Apply(s, l, a).replay.ready || c in Apply(s, l, a).replay.waiting ==> c in s.received
      {
        PushAllMembers(NoReplay(), a.messages, s.groupsAuthoritative, c);
      }
    }
    SafeMonotone(s, Apply(s, l, a));
    SendsUnchanged(s, Apply(s, l, a));
    QuietKeeps(s, Apply(s, l, a));
  }

  // ----- storing and sending -----

  lemma SentGrows(s: State, t: State, c: Content)
    requires Sent(s, c) && s.received <= t.received && s.sends.done <= t.sends.done
    requires c in t.sends.filed && t.sends.filed[c] == s.sends.filed[c]
    ensures Sent(t, c)
  {
    var sent :| sent in s.sends.done && Finds(s, sent, c);
    assert Finds(t, sent, c);
  }

  lemma SendKeeps(s: State, l: Limits, a: Label)
    requires Inv(s) && !s.wrapped && Enabled(s, l, a) && (a.Store? || a.SendDone?)
    ensures Inv(Apply(s, l, a))
  {
    var t := Apply(s, l, a);
    SafeMonotone(s, t);
    forall c | c in t.sends.marked
      ensures Sent(t, c)
    {
      SentGrows(s, t, c);
    }
    QuietKeeps(s, t);
  }

  lemma MarkSentKeeps(s: State, l: Limits, sent: SentMessage, c: Content)
    requires Inv(s) && !s.wrapped && Enabled(s, l, MarkSent(sent, c))
    ensures Inv(Apply(s, l, MarkSent(sent, c)))
  {
    var t := Apply(s, l, MarkSent(sent, c));
    forall x | x in t.projected && x !in t.sends.marked
      ensures Justified(t, x)
    {
      var a :| a in s.attempts && s.attempts[a].content == x && (AllShown(s, a) || NothingToShow(s, a));
      ShownMonotone(s, t, a);
    }
    forall x | x in t.sends.marked
      ensures Sent(t, x)
    {
      if x == c {
        assert Finds(t, sent, c);
      } else {
        SentGrows(s, t, x);
      }
    }
    QuietKeeps(s, t);
  }

  lemma InboxKeeps(s: State, l: Limits, a: Label)
    requires Inv(s) && !s.wrapped && Enabled(s, l, a)
    requires a.TakeAcks? || a.RetryAcks? || a.HostSubmit? || a.Shutdown?
    ensures Inv(Apply(s, l, a))
  {
    var b := s.projection.inbox;
    var t := Apply(s, l, a);
    var n := BatchSize(b, ACKNOWLEDGMENT_BATCH_SIZE);
    assert b.ready == b.ready[..n] + b.ready[n..];
    SafeMonotone(s, t);
    SendsUnchanged(s, t);
    QuietKeeps(s, t);
  }

  lemma CrashKeeps(s: State, l: Limits)
    requires Inv(s) && !s.wrapped
    ensures Inv(Apply(s, l, Crash))
  {
    var t := Apply(s, l, Crash);
    SafeMonotone(s, t);
    forall c | c in t.sends.marked
      ensures Sent(t, c)
    {
      SentGrows(s, t, c);
    }
  }

  // ----- projecting -----

  lemma ProjectKeeps(s: State, l: Limits, self: ServiceId, w: World)
    requires Inv(s) && Enabled(s, l, Project(self, w)) && !ProjectStep(s, self, w).wrapped
    ensures Inv(ProjectStep(s, self, w))
  {
    var c := s.replay.ready[0];
    var t := ProjectStep(s, self, w);
    if !IsProjectable(c.body, s.groupsAuthoritative) || !Tracks(s.projection, c) {
      SafeMonotone(s, t);
      SendsUnchanged(s, t);
      QuietKeeps(s, t);
    } else {
      var d := NextId(s.projection.nextDeliveryId);
      FreshId(s.projection);
      ProjectRecords(s, self, w);
      SendsUnchanged(s, t);
      SafeMonotone(s, t);
      ProjectAcks(s, t);
      ProjectLog(s, t);
    }
  }

  lemma ProjectRecords(s: State, self: ServiceId, w: World)
    requires RecordsOk(s) && PendingOk(s) && s.replay.ready != [] && Tracks(s.projection, s.replay.ready[0])
    requires IsProjectable(s.replay.ready[0].body, s.groupsAuthoritative) && !ProjectStep(s, self, w).wrapped
    ensures var t := ProjectStep(s, self, w); RecordsOk(t) && PendingOk(t) && Extends(s, t)
  {
    var c, d := s.replay.ready[0], NextId(s.projection.nextDeliveryId);
    FreshId(s.projection);
    SingleFinalAck(c, self, d, w);
    assert Current(s, d) !in s.attempts;
  }

  lemma ProjectAcks(s: State, t: State)
    requires AcksOk(s) && Extends(s, t) && t.run == s.run && t.hostAck == s.hostAck
    requires t.projection.inbox.ready == s.projection.inbox.ready && t.projection.inbox.retry == s.projection.inbox.retry
    requires !t.worker.Recording?
    ensures AcksOk(t)
  {
    forall d | Awaited(t, d)
      ensures AllShown(t, Current(t, d))
    {
      assert Awaited(s, d);
      ShownMonotone(s, t, Current(s, d));
    }
  }

  lemma ProjectLog(s: State, t: State)
    requires LogOk(s) && Extends(s, t) && t.run == s.run
    requires t.emitted == s.emitted && t.polled == s.polled && t.queue == s.queue && t.discarded == s.discarded
    ensures LogOk(t)
  {
  }

  // ----- emitting -----

  lemma HoldsGrows(log: seq<Entry<Note>>, e: Entry<Note>, p: int, a: Attempt, j: nat)
    requires p < |log| && Holds(log, p, a, j)
    ensures Holds(log + [e], p, a, j)
  {
    var q :| 0 <= q <= p && log[q].payload.attempt == Some(a) && log[q].payload.index == j;
    assert (log + [e])[q] == log[q];
  }

  lemma InLogGrows(log: seq<Entry<Note>>, e: Entry<Note>, a: Attempt, j: nat)
    requires InLog(log, a, j)
    ensures InLog(log + [e], a, j) && Holds(log + [e], |log|, a, j)
  {
    var q :| 0 <= q < |log| && log[q].payload.attempt == Some(a) && log[q].payload.index == j;
    assert (log + [e])[q] == log[q];
  }

  lemma GapFreeAppend(log: seq<Entry<Note>>, e: Entry<Note>)
    requires GapFree(log)
    requires e.payload.attempt.Some? ==>
               forall j :: 0 <= j < e.payload.index ==> InLog(log, e.payload.attempt.value, j)
    ensures GapFree(log + [e])
  {
    var log' := log + [e];
    forall p, j | 0 <= p < |log'| && log'[p].payload.attempt.Some? && 0 <= j <= log'[p].payload.index
      ensures Holds(log', p, log'[p].payload.attempt.value, j)
    {
      if p < |log| {
        HoldsGrows(log, e, p, log[p].payload.attempt.value, j);
      } else if j < e.payload.index {
        InLogGrows(log, e, e.payload.attempt.value, j);
      } else {
        assert log'[p] == e;
      }
    }
  }

  lemma OfferKeepsLog(s: State, l: Limits, e: Entry<Note>, w: Write)
    requires LogOk(s) && NoteOk(s, e.payload)
    ensures LogOk(OfferEntry(s, l, e, w))
  {
    var t := OfferEntry(s, l, e, w);
    if OfferOutcome(s.queue, l, e).Sent? {
      assert t.queue.channel == s.queue.channel + [e];
      assert t.emitted == t.polled + t.discarded + t.queue.channel;
    }
  }

  lemma EmitOtherKeeps(s: State, l: Limits, event: Event, w: Write)
    requires Inv(s) && !s.wrapped && Enabled(s, l, EmitOther(event, w))
    ensures Inv(Apply(s, l, EmitOther(event, w)))
  {
    var e := Entry(Note(event, None, 0), event.data);
    var t := OfferEntry(s, l, e, w);
    OfferKeepsLog(s, l, e, w);
    GapFreeAppend(s.emitted, e);
    SafeMonotone(s, t);
    SendsUnchanged(s, t);
    AcksUnchanged(s, t);
    OtherEmitting(s, l, e, w);
  }

  lemma OtherEmitting(s: State, l: Limits, e: Entry<Note>, w: Write)
    requires EmittingOk(s)
    ensures EmittingOk(OfferEntry(s, l, e, w))
  {
    var t := OfferEntry(s, l, e, w);
    if s.worker.Emitting? && !t.queue.closed {
      forall j | 0 <= j < s.worker.done
        ensures InLog(t.emitted, Current(t, t.worker.id), j)
      {
        InLogGrows(s.emitted, e, Current(s, s.worker.id), j);
      }
    }
  }

  lemma AcksUnchanged(s: State, t: State)
    requires AcksOk(s) && Extends(s, t) && t.run == s.run
    requires forall d :: Awaited(t, d) ==> Awaited(s, d)
    ensures AcksOk(t)
  {
    forall d | Awaited(t, d)
      ensures AllShown(t, Current(t, d))
    {
      ShownMonotone(s, t, Current(s, d));
    }
  }

  lemma EmitKeeps(s: State, l: Limits, w: Write)
    requires Inv(s) && !s.wrapped && Enabled(s, l, Emit(w))
    ensures Inv(Apply(s, l, Emit(w)))
  {
    var e := NextEntry(s);
    var a := Current(s, s.worker.id);
    var t := Apply(s, l, Emit(w));
    OfferKeepsLog(s, l, e, w);
    SafeMonotone(s, t);
    SendsUnchanged(s, t);
    AcksUnchanged(s, t);
    EmittedGrows(s, t, l, w);
  }

  lemma EmittedGrows(s: State, t: State, l: Limits, w: Write)
    requires Enabled(s, l, Emit(w)) && t == Apply(s, l, Emit(w)) && EmittingOk(s) && GapFree(s.emitted)
    ensures EmittingOk(t) && GapFree(t.emitted)
  {
    var e := NextEntry(s);
    var a := Current(s, s.worker.id);
    if !s.queue.closed {
      assert OfferOutcome(s.queue, l, e).Sent?;
      GapFreeAppend(s.emitted, e);
      forall j | 0 <= j < t.worker.done
        ensures InLog(t.emitted, a, j)
      {
        if j < s.worker.done {
          InLogGrows(s.emitted, e, a, j);
        } else {
          assert t.emitted[|t.emitted| - 1] == e;
        }
      }
    }
  }

  // ----- marking -----

  /** Settling an id removes it from the projection and the inbox, and touches nothing else. */
  lemma Settled(p: Projection, q: Projection, d: Id)
    requires q == ReleaseId(p, d) || q == CompleteId(p, d) || q == p.(inbox := Unregister(p.inbox, d))
    ensures q.nextDeliveryId == p.nextDeliveryId
    ensures forall e :: e in q.pending ==> e in p.pending && q.pending[e] == p.pending[e]
    ensures forall e :: e in q.inbox.ready ==> e in p.inbox.ready
    ensures forall e :: e in q.inbox.retry ==> e in p.inbox.retry
  {
    WithoutMembers(p.inbox.ready, d);
    WithoutMembers(p.inbox.retry, d);
  }

  lemma CompleteHadNothing(s: State, a: Attempt)
    requires RecordsOk(s) && a in s.attempts && s.attempts[a].handled.disposition.Complete?
    ensures NothingToShow(s, a)
    ensures forall j :: 0 <= j < |s.attempts[a].handled.events| ==> !Acknowledged(s.attempts[a].handled.events[j])
  {
    var r := s.attempts[a];
    CompleteIff(r.content, r.self, a.id, r.world);
    forall j | 0 <= j < |r.handled.events|
      ensures !Acknowledged(r.handled.events[j])
    {
      NoneAcknowledged(r.handled.events, j);
    }
  }

  lemma FinishKeeps(s: State, l: Limits, marked: bool)
    requires Inv(s) && !s.wrapped && Enabled(s, l, FinishHandling(marked))
    ensures Inv(Apply(s, l, FinishHandling(marked)))
  {
    var t := Apply(s, l, FinishHandling(marked));
    var a := Current(s, s.worker.id);
    if !s.attempts[a].handled.disposition.AwaitingAck? {
      Settled(s.projection, t.projection, s.worker.id);
    }
    if s.attempts[a].handled.disposition.Complete? && marked {
      CompleteHadNothing(s, a);
      SafeWith(s, t, s.worker.content, a);
    } else {
      SafeMonotone(s, t);
    }
    SendsUnchanged(s, t);
    QuietKeeps(s, t);
  }

  lemma RecordMarkedKeeps(s: State)
    requires s.worker.Recording? && s.worker.batch != [] && s.worker.batch[0] in s.projection.pending
    requires !s.wrapped && Inv(s)
    ensures Inv(RecordStep(s, true))
  {
    var t, d := RecordStep(s, true), s.worker.batch[0];
    assert Awaited(s, d);
    Settled(s.projection, t.projection, d);
    SafeWith(s, t, s.projection.pending[d], Current(s, d));
    SendsUnchanged(s, t);
    QuietKeeps(s, t);
  }

  lemma RecordUnmarkedKeeps(s: State, marked: bool)
    requires s.worker.Recording? && s.worker.batch != []
    requires marked ==> s.worker.batch[0] !in s.projection.pending
    requires !s.wrapped && Inv(s)
    ensures Inv(RecordStep(s, marked))
  {
    var t, d := RecordStep(s, marked), s.worker.batch[0];
    assert s.worker.batch == [d] + s.worker.batch[1..];
    assert Awaited(s, d);
    if d !in s.projection.pending {
      Settled(s.projection, t.projection, d);
    }
    SafeMonotone(s, t);
    SendsUnchanged(s, t);
    QuietKeeps(s, t);
  }

  lemma RecordKeeps(s: State, marked: bool)
    requires s.worker.Recording? && s.worker.batch != [] && !s.wrapped && Inv(s)
    ensures Inv(RecordStep(s, marked))
  {
    if marked && s.worker.batch[0] in s.projection.pending {
      RecordMarkedKeeps(s);
    } else {
      RecordUnmarkedKeeps(s, marked);
    }
  }

  // ----- the host -----

  /** When the host is handed an event that it will acknowledge, it has been handed every
      message and attachment event of that attempt. */
  lemma PollShowsAll(s: State, t: State)
    requires Inv(s) && !s.wrapped && s.queue.channel != [] && s.discarded == []
    requires t == PollStep(s) && t.hostAck.Some?
    ensures AllShown(t, Current(t, t.hostAck.value))
  {
    var n := s.queue.channel[0].payload;
    var p := |s.polled|;
    assert s.emitted[p] == s.queue.channel[0];
    assert NoteOk(s, n);
    var a := n.attempt.value;
    var events := s.attempts[a].handled.events;
    if !s.attempts[a].handled.disposition.AwaitingAck? {
      NoneAcknowledged(events, n.index);
    }
    FinalAckIsLast(events, a.id, n.index);
    forall j | 0 <= j < |events| && Acknowledged(events[j])
      ensures (a, j) in t.shown
    {
      assert j <= n.index;
      assert Holds(s.emitted, p, a, j);
      var q :| 0 <= q <= p && s.emitted[q].payload.attempt == Some(a) && s.emitted[q].payload.index == j;
      if q < p {
        assert s.emitted[q] == s.polled[q];
      }
    }
  }

  lemma PollKeepsLog(s: State)
    requires LogOk(s) && s.discarded == []
    ensures LogOk(PollStep(s))
  {
    var t := PollStep(s);
    if s.queue.channel != [] {
      assert s.queue.channel == [s.queue.channel[0]] + t.queue.channel;
      assert t.emitted == t.polled + t.discarded + t.queue.channel;
    }
  }

  lemma HostPollKeeps(s: State, l: Limits)
    requires Inv(s) && !s.wrapped && Enabled(s, l, HostPoll)
    ensures Inv(PollStep(s))
  {
    var t := PollStep(s);
    PollKeepsLog(s);
    SafeMonotone(s, t);
    SendsUnchanged(s, t);
    if s.queue.channel != [] && t.hostAck.Some? {
      PollShowsAll(s, t);
    }
    forall d: Id | Awaited(t, d)
      ensures AllShown(t, Current(t, d))
    {
      if t.hostAck != Some(d) {
        assert Awaited(s, d);
        ShownMonotone(s, t, Current(s, d));
      }
    }
  }

  lemma StopKeepsLog(s: State, dispatched: bool)
    requires LogOk(s) && s.discarded == [] && s.queue.channel != []
    ensures LogOk(StopStep(s, dispatched))
  {
    var t := StopStep(s, dispatched);
    Associative(t.polled, t.discarded, t.queue.channel);
    assert s.queue.channel == t.discarded + t.queue.channel;
    assert s.polled + [] == s.polled;
  }

  lemma HostStopKeeps(s: State, dispatched: bool)
    requires s.queue.channel != [] && s.discarded == [] && s.hostAck.None? && !s.wrapped && Inv(s)
    ensures Inv(StopStep(s, dispatched))
  {
    var t := StopStep(s, dispatched);
    StopKeepsLog(s, dispatched);
    SafeMonotone(s, t);
    SendsUnchanged(s, t);
    AcksUnchanged(s, t);
  }

  // ----- every run -----

  predicate OfProjection(a: Label) {
    a.Project? || a.Emit? || a.EmitOther? || a.FinishHandling? || a.RecordAck?
  }

  lemma ProjectionStepKeeps(s: State, l: Limits, a: Label)
    requires Inv(s) && Enabled(s, l, a) && OfProjection(a) && !Apply(s, l, a).wrapped
    ensures Inv(Apply(s, l, a))
  {
    match a {
      case Project(self, w) => ProjectKeeps(s, l, self, w);
      case Emit(w) => EmitKeeps(s, l, w);
      case EmitOther(e, w) => EmitOtherKeeps(s, l, e, w);
      case FinishHandling(marked) => FinishKeeps(s, l, marked);
      case RecordAck(marked) => RecordKeeps(s, marked);
    }
  }

  lemma OtherStepKeeps(s: State, l: Limits, a: Label)
    requires Inv(s) && Enabled(s, l, a) && !OfProjection(a) && !s.wrapped
    ensures Inv(Apply(s, l, a))
  {
    match a {
      case HostPoll => HostPollKeeps(s, l);
      case HostStop(dispatched) => HostStopKeeps(s, dispatched);
      case Store(_, _) => SendKeeps(s, l, a);
      case SendDone(_) => SendKeeps(s, l, a);
      case MarkSent(sent, c) => MarkSentKeeps(s, l, sent, c);
      case Crash => CrashKeeps(s, l);
      case TakeAcks => InboxKeeps(s, l, a);
      case RetryAcks => InboxKeeps(s, l, a);
      case HostSubmit => InboxKeeps(s, l, a);
      case Shutdown => InboxKeeps(s, l, a);
      case _ => ReplayKeeps(s, l, a);
    }
  }

  lemma StepKeeps(s: State, l: Limits, a: Label)
    requires Inv(s) && Enabled(s, l, a)
    ensures Inv(Apply(s, l, a))
  {
    if OfProjection(a) {
      if !Apply(s, l, a).wrapped {
        ProjectionStepKeeps(s, l, a);
      }
    } else if !s.wrapped {
      OtherStepKeeps(s, l, a);
    }
  }

  lemma {:induction false} RunInvariant(l: Limits, states: seq<State>, labels: seq<Label>, k: nat)
    requires IsRun(l, states, labels) && k < |states|
    ensures Inv(states[k])
  {
    if k > 0 {
      RunInvariant(l, states, labels, k - 1);
      StepKeeps(states[k - 1], l, labels[k - 1]);
    }
  }

  /** End to end: in every interleaving of worker, queue, host, sends, shutdown and crashes, a
      mark was set by the send path, for a row with the thread and time of an accepted send; or the
      host dispatched every message and attachment event of an attempt; or the message has nothing
      to show: it brings no data message, an empty or malformed one, or one for a group that the
      account had left. */
  lemma ProjectedOnlyAfterShown(l: Limits, states: seq<State>, labels: seq<Label>, k: nat, c: Content)
    requires IsRun(l, states, labels) && k < |states| && !states[k].wrapped
    requires c in states[k].projected
    ensures c in states[k].received
    ensures c in states[k].sends.marked || Justified(states[k], c)
    ensures !Sent(states[k], c) ==> Justified(states[k], c)
  {
    RunInvariant(l, states, labels, k);
  }

  /** What an attempt showed in full is what the message brings: the events of its text and of its
      attachments, for the account and the answers it was handled with. */
  lemma WhatWasShown(l: Limits, states: seq<State>, labels: seq<Label>, k: nat, a: Attempt) returns (m: DataMessage)
    requires IsRun(l, states, labels) && k < |states| && !states[k].wrapped && AllShown(states[k], a)
    ensures var r := states[k].attempts[a];
            && Brings(r.content.body, m) && (m.target.Direct? || r.world.group.Active?)
            && MessageEvents.Projected(r.handled.events) == ShownEvents(m, Outgoing(r.content, r.self), a.id, r.world)
  {
    RunInvariant(l, states, labels, k);
    var r := states[k].attempts[a];
    CompleteIff(r.content, r.self, a.id, r.world);
    m :| Brings(r.content.body, m);
    DispositionIff(r.content, r.self, a.id, r.world, m);
  }

  /** The rows marked by the send path are the ones its steps name. */
  lemma {:induction false} MarkedBySend(l: Limits, states: seq<State>, labels: seq<Label>, k: nat, c: Content)
    requires IsRun(l, states, labels) && k < |states|
    ensures c in states[k].sends.marked <==> exists i :: 0 <= i < k && labels[i].MarkSent? && labels[i].content == c
  {
    if k > 0 {
      MarkedBySend(l, states, labels, k - 1, c);
      MarkedByStep(states[k - 1], l, labels[k - 1]);
    }
  }

  lemma MarkedByStep(s: State, l: Limits, a: Label)
    requires Enabled(s, l, a)
    ensures Apply(s, l, a).sends.marked == if a.MarkSent? then s.sends.marked + {a.content} else s.sends.marked
  {
    if OfProjection(a) {
      ProjectionStepSends(s, l, a);
    }
  }

  lemma ProjectionStepSends(s: State, l: Limits, a: Label)
    requires Enabled(s, l, a) && OfProjection(a)
    ensures Apply(s, l, a).sends == s.sends
  {
  }

  ghost predicate MarksUnshown(s: State, l: Limits, a: Label, c: Content) {
    Enabled(s, l, a) && !Apply(s, l, a).wrapped && c in Apply(s, l, a).projected && !Justified(Apply(s, l, a), c)
  }

  /** Exactly when the next step can mark a message whose events the host has not been handed,
      whoever sent it: when a send of this run has been accepted for the row's thread and time
      and its own bookkeeping is still to be done. */
  lemma UnshownMarkIff(l: Limits, states: seq<State>, labels: seq<Label>, k: nat, c: Content)
    requires IsRun(l, states, labels) && k < |states| && !states[k].wrapped
    requires c !in states[k].projected && !Justified(states[k], c)
    ensures (exists a :: MarksUnshown(states[k], l, a, c)) <==>
            Free(states[k]) && exists sent :: sent in states[k].sends.unrecorded && Finds(states[k], sent, c)
  {
    var s := states[k];
    RunInvariant(l, states, labels, k);
    if sent :| Free(s) && sent in s.sends.unrecorded && Finds(s, sent, c) {
      SendMarksUnshown(s, l, sent, c);
    }
    if a :| MarksUnshown(s, l, a, c) {
      StepKeeps(s, l, a);
      MarkedByStep(s, l, a);
      assert a.MarkSent? && a.content == c;
    }
  }

  lemma SendMarksUnshown(s: State, l: Limits, sent: SentMessage, c: Content)
    requires !s.wrapped && Free(s) && sent in s.sends.unrecorded && Finds(s, sent, c) && !Justified(s, c)
    ensures MarksUnshown(s, l, MarkSent(sent, c), c)
  {
    SameHistory(s, Apply(s, l, MarkSent(sent, c)), c);
  }

  lemma SameHistory(s: State, t: State, c: Content)
    requires t.attempts == s.attempts && t.shown == s.shown
    ensures Justified(t, c) <==> Justified(s, c)
  {
    assert forall a :: AllShown(t, a) == AllShown(s, a) && NothingToShow(t, a) == NothingToShow(s, a);
  }

  /** So whatever has not been fully shown, and was not marked by a send, comes back with every
      load of the unprojected messages. */
  lemma UnshownIsLoaded(l: Limits, states: seq<State>, labels: seq<Label>, j: nat, c: Content)
    requires IsRun(l, states, labels) && j < |labels| && !states[j].wrapped
    requires labels[j].Load? && c in states[j].received
    requires !Justified(states[j], c) && c !in states[j].sends.marked
    ensures c in states[j + 1].replay.ready || c in states[j + 1].replay.waiting
  {
    RunInvariant(l, states, labels, j);
    PushAllMembers(NoReplay(), labels[j].messages, states[j].groupsAuthoritative, c);
  }

  /** After a crash: whatever was received and cut off then is replayed by the next load, with
      any steps in between except projecting. The worker loads before it projects; when that load
      fails it goes on to project live messages, and then `UnshownIsLoaded` applies to the next. */
  lemma CutOffMessagesAreReplayed(l: Limits, states: seq<State>, labels: seq<Label>, k: nat, j: nat, c: Content)
    requires IsRun(l, states, labels) && k < j < |labels| && !states[j].wrapped
    requires labels[k].Crash? && labels[j].Load?
    requires forall i :: k < i < j ==> !labels[i].Project?
    requires c in states[k].received && !Justified(states[k], c)
    requires c !in states[j].sends.marked
    ensures c in states[j + 1].replay.ready || c in states[j + 1].replay.waiting
  {
    MarksAreDurable(l, states, labels, k, j);
    RestartShowsNothing(l, states, labels, k, j);
    SameHistory(states[k], states[j], c);
    UnshownIsLoaded(l, states, labels, j, c);
  }

  /** All attempts belong to earlier runs. */
  ghost predicate NoAttemptYet(s: State) {
    forall a :: a in s.attempts ==> a.run < s.run
  }

  /** Between a crash and the first projection nothing of any attempt is shown. */
  lemma {:induction false} RestartShowsNothing(l: Limits, states: seq<State>, labels: seq<Label>, k: nat, j: nat)
    requires IsRun(l, states, labels) && k < j < |states| && !states[j].wrapped && labels[k].Crash?
    requires forall i :: k < i < j ==> !labels[i].Project?
    ensures states[j].attempts == states[k].attempts && states[j].shown == states[k].shown
    ensures NoAttemptYet(states[j])
    decreases j
  {
    var s, a := states[j - 1], labels[j - 1];
    WrappedStays(s, l, a);
    RunInvariant(l, states, labels, j - 1);
    if k < j - 1 {
      RestartShowsNothing(l, states, labels, k, j - 1);
      QuietStep(s, l, a);
    }
  }

  lemma WrappedStays(s: State, l: Limits, a: Label)
    requires Enabled(s, l, a)
    ensures s.wrapped ==> Apply(s, l, a).wrapped
  {
  }

  lemma QuietStep(s: State, l: Limits, a: Label)
    requires Inv(s) && !s.wrapped && NoAttemptYet(s) && Enabled(s, l, a) && !a.Project?
    ensures var t := Apply(s, l, a); t.attempts == s.attempts && t.shown == s.shown && NoAttemptYet(t)
  {
    if OfProjection(a) {
      QuietProjectionStep(s, l, a);
    } else if a.HostPoll? || a.HostStop? {
      QuietHostStep(s, l, a);
    }
  }

  lemma QuietProjectionStep(s: State, l: Limits, a: Label)
    requires NoAttemptYet(s) && Enabled(s, l, a) && OfProjection(a) && !a.Project?
    ensures var t := Apply(s, l, a); t.attempts == s.attempts && t.shown == s.shown && NoAttemptYet(t)
  {
  }

  lemma QuietHostStep(s: State, l: Limits, a: Label)
    requires LogOk(s) && NoAttemptYet(s) && Enabled(s, l, a) && (a.HostPoll? || a.HostStop?)
    ensures var t := Apply(s, l, a); t.attempts == s.attempts && t.shown == s.shown && NoAttemptYet(t)
  {
    if s.queue.channel != [] {
      assert s.emitted[|s.polled|] == s.queue.channel[0];
      assert NoteOk(s, s.queue.channel[0].payload);
    }
  }

  lemma StoreGrows(s: State, l: Limits, a: Label)
    requires Enabled(s, l, a)
    ensures s.projected <= Apply(s, l, a).projected && s.received <= Apply(s, l, a).received
  {
    if OfProjection(a) {
      ProjectionStepStores(s, l, a);
    }
  }

  lemma ProjectionStepStores(s: State, l: Limits, a: Label)
    requires Enabled(s, l, a) && OfProjection(a)
    ensures s.projected <= Apply(s, l, a).projected && s.received == Apply(s, l, a).received
  {
  }

  lemma StoreGrowsAt(l: Limits, states: seq<State>, labels: seq<Label>, k: nat)
    requires IsRun(l, states, labels) && k < |labels|
    ensures states[k].projected <= states[k + 1].projected && states[k].received <= states[k + 1].received
  {
    StoreGrows(states[k], l, labels[k]);
  }

  /** A durable mark is never taken back. */
  lemma {:induction false} MarksAreDurable(l: Limits, states: seq<State>, labels: seq<Label>, i: nat, k: nat)
    requires IsRun(l, states, labels) && i <= k < |states|
    ensures states[i].projected <= states[k].projected && states[i].received <= states[k].received
  {
    if i < k {
      MarksAreDurable(l, states, labels, i, k - 1);
      StoreGrowsAt(l, states, labels, k - 1);
    }
  }

  // ----- nothing is handed over twice -----

  predicate SameNote(a: Entry<Note>, b: Entry<Note>) {
    a.payload.attempt.Some? && a.payload.attempt == b.payload.attempt && a.payload.index == b.payload.index
  }

  ghost predicate Once(log: seq<Entry<Note>>) {
    forall p, q :: 0 <= p < q < |log| ==> !SameNote(log[p], log[q])
  }

  /** What the log holds of the current attempt is behind the worker. */
  ghost predicate Behind(s: State) {
    s.worker.Emitting? ==>
      forall p :: 0 <= p < |s.emitted| && s.emitted[p].payload.attempt == Some(Current(s, s.worker.id)) ==>
        s.emitted[p].payload.index < s.worker.done
  }

  lemma OnceAppend(log: seq<Entry<Note>>, e: Entry<Note>)
    requires Once(log) && forall p :: 0 <= p < |log| ==> !SameNote(log[p], e)
    ensures Once(log + [e])
  {
  }

  lemma EmitOnce(s: State, l: Limits, w: Write)
    requires Once(s.emitted) && Behind(s) && Enabled(s, l, Emit(w))
    ensures var t := Apply(s, l, Emit(w)); Once(t.emitted) && Behind(t)
  {
    OnceAppend(s.emitted, NextEntry(s));
  }

  lemma EmitOtherOnce(s: State, l: Limits, event: Event, w: Write)
    requires Once(s.emitted) && Behind(s) && Enabled(s, l, EmitOther(event, w))
    ensures var t := Apply(s, l, EmitOther(event, w)); Once(t.emitted) && Behind(t)
  {
    OnceAppend(s.emitted, Entry(Note(event, None, 0), event.data));
  }

  lemma ProjectOnce(s: State, l: Limits, self: ServiceId, w: World)
    requires Inv(s) && !s.wrapped && Once(s.emitted) && Enabled(s, l, Project(self, w))
    requires !ProjectStep(s, self, w).wrapped
    ensures var t := ProjectStep(s, self, w); Once(t.emitted) && Behind(t)
  {
    var t := ProjectStep(s, self, w);
    if t.worker.Emitting? {
      forall p | 0 <= p < |t.emitted|
        ensures t.emitted[p].payload.attempt != Some(Current(t, t.worker.id))
      {
        assert NoteOk(s, s.emitted[p].payload);
      }
    }
  }

  lemma SettleOnce(s: State, l: Limits, a: Label)
    requires Once(s.emitted) && Enabled(s, l, a) && (a.FinishHandling? || a.RecordAck?)
    ensures var t := Apply(s, l, a); Once(t.emitted) && Behind(t)
  {
  }

  lemma StepOnce(s: State, l: Limits, a: Label)
    requires Inv(s) && !s.wrapped && Once(s.emitted) && Behind(s) && Enabled(s, l, a)
    requires a.Project? ==> !ProjectStep(s, a.self, a.world).wrapped
    ensures var t := Apply(s, l, a); Once(t.emitted) && Behind(t)
  {
    match a {
      case Project(self, w) => ProjectOnce(s, l, self, w);
      case Emit(w) => EmitOnce(s, l, w);
      case EmitOther(e, w) => EmitOtherOnce(s, l, e, w);
      case FinishHandling(_) => SettleOnce(s, l, a);
      case RecordAck(_) => SettleOnce(s, l, a);
      case _ => OtherStepOnce(s, l, a);
    }
  }

  lemma OtherStepOnce(s: State, l: Limits, a: Label)
    requires Once(s.emitted) && Behind(s) && Enabled(s, l, a) && !OfProjection(a)
    ensures var t := Apply(s, l, a); Once(t.emitted) && Behind(t)
  {
  }

  lemma {:induction false} OnceInvariant(l: Limits, states: seq<State>, labels: seq<Label>, k: nat)
    requires IsRun(l, states, labels) && k < |states| && !states[k].wrapped
    ensures Once(states[k].emitted) && Behind(states[k])
  {
    if k > 0 {
      WrappedStays(states[k - 1], l, labels[k - 1]);
      OnceInvariant(l, states, labels, k - 1);
      RunInvariant(l, states, labels, k - 1);
      StepOnce(states[k - 1], l, labels[k - 1]);
    }
  }

  /** The converse of showing everything: no event of an attempt enters the queue twice, so none
      is dispatched twice. Attempts of different runs differ, so this holds across crashes. */
  lemma NothingTwice(l: Limits, states: seq<State>, labels: seq<Label>, k: nat, p: nat, q: nat)
    requires IsRun(l, states, labels) && k < |states| && !states[k].wrapped
    requires p < q < |states[k].emitted| && states[k].emitted[p].payload.attempt.Some?
    ensures states[k].polled <= states[k].emitted
    ensures (states[k].emitted[p].payload.attempt, states[k].emitted[p].payload.index)
            != (states[k].emitted[q].payload.attempt, states[k].emitted[q].payload.index)
    ensures states[k].emitted[p].payload.attempt.value.run == states[k].run
  {
    OnceInvariant(l, states, labels, k);
    RunInvariant(l, states, labels, k);
    assert !SameNote(states[k].emitted[p], states[k].emitted[q]);
    assert NoteOk(states[k], states[k].emitted[p].payload);
  }

  // ----- the path can be walked to its end -----

  lemma Extend(l: Limits, states: seq<State>, labels: seq<Label>, a: Label)
    returns (states': seq<State>, labels': seq<Label>)
    requires IsRun(l, states, labels) && Enabled(states[|states| - 1], l, a)
    ensures IsRun(l, states', labels') && |states'| == |states| + 1
    ensures states'[|states| - 1] == states[|states| - 1]
    ensures states'[|states'| - 1] == Apply(states[|states| - 1], l, a)
    ensures |labels'| == |labels| + 1 && labels'[|labels|] == a
  {
    states' := states + [Apply(states[|states| - 1], l, a)];
    labels' := labels + [a];
  }

  predicate PlainText(c: Content) {
    c.body.Data? && !c.body.needsReceipt && c.body.message.target.Direct?
    && c.body.message.text != "" && c.body.message.attachments == []
  }

  lemma PlainTextHandled(c: Content, self: ServiceId, d: Id, w: World)
    requires PlainText(c)
    ensures var m := c.body.message;
            HandleContent(c, self, d, w) ==
            Handled([MessageEvents.Event.Event(MessageEvent, d, c.identity.sender == self, Some(m.text), 0)], AwaitingAck)
  {
  }

  ghost predicate TrackedAlone(s: State, c: Content) {
    && s.received == {c} && s.projected == {} && !s.wrapped && s.run == 0 && s.hostAck.None? && s.discarded == []
    && s.projection.pending == map[1 := c] && s.projection.inbox == Register(NewInbox(), 1)
  }

  /** A received text message is ready for projection. */
  lemma TextIsReady(c: Content) returns (states: seq<State>, labels: seq<Label>)
    requires PlainText(c)
    ensures IsRun(Limits(1, 8, 1), states, labels)
    ensures var s := states[|states| - 1];
            && s.received == {c} && s.projected == {} && !s.wrapped && s.run == 0 && s.hostAck.None? && s.discarded == []
            && s.worker.Idle? && s.replay.ready == [c] && s.projection == NewProjection() && s.queue == NewQueue()
            && s.attempts == map[]
  {
    var l := Limits(1, 8, 1);
    states, labels := [Init()], [];
    states, labels := Extend(l, states, labels, Store(c, Contact(c.identity.sender)));
    states, labels := Extend(l, states, labels, PushLive(c));
  }

  /** It is tracked and its event planned. */
  lemma TextIsTracked(c: Content, self: ServiceId, w: World) returns (states: seq<State>, labels: seq<Label>)
    requires PlainText(c)
    ensures IsRun(Limits(1, 8, 1), states, labels)
    ensures var s := states[|states| - 1];
            && TrackedAlone(s, c) && s.queue == NewQueue() && s.worker == Emitting(1, c, 0)
            && s.attempts == map[Attempt(0, 1) := Record(c, self, w, HandleContent(c, self, 1, w))]
  {
    states, labels := TextIsReady(c);
    states, labels := Extend(Limits(1, 8, 1), states, labels, Project(self, w));
  }

  /** The event reaches the host's queue. */
  lemma TextIsQueued(c: Content, self: ServiceId, w: World) returns (states: seq<State>, labels: seq<Label>)
    requires PlainText(c)
    ensures IsRun(Limits(1, 8, 1), states, labels)
    ensures var s := states[|states| - 1];
            && TrackedAlone(s, c) && s.worker == Emitting(1, c, 1)
            && s.attempts == map[Attempt(0, 1) := Record(c, self, w, HandleContent(c, self, 1, w))]
            && |s.queue.channel| == 1 && Acknowledged(s.queue.channel[0].payload.event)
            && s.queue.channel[0].payload.event.requestId == 1
  {
    states, labels := TextIsTracked(c, self, w);
    PlainTextHandled(c, self, 1, w);
    states, labels := Extend(Limits(1, 8, 1), states, labels, Emit(Wrote));
  }

  /** The worker is done with it and waits. */
  lemma TextIsAwaited(c: Content, self: ServiceId, w: World) returns (states: seq<State>, labels: seq<Label>)
    requires PlainText(c)
    ensures IsRun(Limits(1, 8, 1), states, labels)
    ensures var s := states[|states| - 1];
            && TrackedAlone(s, c) && s.worker.Idle?
            && |s.queue.channel| == 1 && Acknowledged(s.queue.channel[0].payload.event)
            && s.queue.channel[0].payload.event.requestId == 1
  {
    states, labels := TextIsQueued(c, self, w);
    PlainTextHandled(c, self, 1, w);
    states, labels := Extend(Limits(1, 8, 1), states, labels, FinishHandling(true));
  }

  /** Polled and acknowledged, its id is ready to be recorded. */
  lemma TextIsAcknowledged(c: Content, self: ServiceId, w: World) returns (states: seq<State>, labels: seq<Label>)
    requires PlainText(c)
    ensures IsRun(Limits(1, 8, 1), states, labels)
    ensures var s := states[|states| - 1];
            && s.projected == {} && !s.wrapped && s.worker.Idle?
            && s.projection.pending == map[1 := c] && s.projection.inbox.ready == [1]
  {
    var l := Limits(1, 8, 1);
    states, labels := TextIsAwaited(c, self, w);
    states, labels := Extend(l, states, labels, HostPoll);
    states, labels := Extend(l, states, labels, HostSubmit);
  }

  /** Once recorded, it is marked: the guarantee above is not kept by never marking anything. */
  lemma TextGetsMarked(c: Content, self: ServiceId, w: World) returns (states: seq<State>, labels: seq<Label>)
    requires PlainText(c)
    ensures IsRun(Limits(1, 8, 1), states, labels)
    ensures states[|states| - 1].projected == {c} && !states[|states| - 1].wrapped
  {
    var l := Limits(1, 8, 1);
    states, labels := TextIsAcknowledged(c, self, w);
    states, labels := Extend(l, states, labels, TakeAcks);
    assert states[|states| - 1].worker.batch == [1];
    states, labels := Extend(l, states, labels, RecordAck(true));
  }

  // ----- what the send path can do to a row -----

  /** A stored row is marked by a send with its thread and time, whoever sent it. */
  lemma RowMarkedBySend(c: Content, thread: Thread) returns (states: seq<State>, labels: seq<Label>)
    ensures IsRun(Limits(1, 8, 1), states, labels)
    ensures var s := states[|states| - 1];
            && s.received == {c} && s.projected == {c} && !s.wrapped && s.attempts == map[] && s.shown == {}
            && s.worker.Idle?
  {
    var l, sent := Limits(1, 8, 1), SentMessage(thread, c.identity.timestampMs);
    states, labels := [Init()], [];
    states, labels := Extend(l, states, labels, Store(c, thread));
    states, labels := Extend(l, states, labels, SendDone(sent));
    states, labels := Extend(l, states, labels, MarkSent(sent, c));
  }

  /** For the row of a message sent from here that is the intent. But the lookup does not look at
      the sender, so the same happens to a message from somebody else that is filed under the
      thread of a send and has its timestamp: nothing of it has been shown, and no load brings it
      back. */
  lemma SendMarksAnyRow(c: Content, thread: Thread) returns (states: seq<State>, labels: seq<Label>)
    ensures IsRun(Limits(1, 8, 1), states, labels)
    ensures var s := states[|states| - 1];
            && c in s.projected && !s.wrapped && s.attempts == map[] && s.shown == {} && !Justified(s, c)
            && labels[|labels| - 1].Load? && c !in s.replay.ready && c !in s.replay.waiting
  {
    var l := Limits(1, 8, 1);
    states, labels := RowMarkedBySend(c, thread);
    states, labels := Extend(l, states, labels, Crash);
    states, labels := Extend(l, states, labels, Load([]));
  }
}
