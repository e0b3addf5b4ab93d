/** The durable outbox: each queued message is attempted a bounded number of times. */
module Outboxes {
  import opened Common

  const MAX_OUTBOX_ATTEMPTS: nat := 5
  const MAX_RETRY_DELAY_MS: nat := 3_600_000

  type MessageId = nat

  datatype Kind = Direct | Group

  datatype Message = Message(kind: Kind, timestamp: nat, attempts: nat, retryAt: nat)

  function Shift(n: nat): nat { if n == 0 then 1 else 2 * Shift(n - 1) }

  /** `retry_delay_ms`: doubling from five seconds, the exponent capped at nine. */
  function RetryDelayMs(attempts: nat): nat {
    var exponent := if attempts < 9 then attempts else 9;
    var delay := 5_000 * Shift(exponent);
    if delay < MAX_RETRY_DELAY_MS then delay else MAX_RETRY_DELAY_MS
  }

  lemma {:induction false} ShiftMonotone(m: nat, n: nat)
    requires m <= n
    ensures 1 <= Shift(m) <= Shift(n)
    decreases n
  {
    if m < n {
      ShiftMonotone(m, n - 1);
    } else if m > 0 {
      ShiftMonotone(m - 1, m - 1);
    }
  }

  lemma ShiftNine()
    ensures Shift(9) == 512
  {
    assert Shift(4) == 16;
    assert Shift(8) == 256;
  }

  /** The delay never decreases and never reaches its one-hour cap. */
  lemma RetryDelayBounds(m: nat, n: nat)
    requires m <= n
    ensures 5_000 <= RetryDelayMs(m) <= RetryDelayMs(n) <= 2_560_000 < MAX_RETRY_DELAY_MS
    ensures RetryDelayMs(0) == 5_000
    ensures n < 9 ==> RetryDelayMs(n + 1) == 2 * RetryDelayMs(n)
    ensures n >= 9 ==> RetryDelayMs(n) == 2_560_000
  {
    var a, b := if m < 9 then m else 9, if n < 9 then n else 9;
    ShiftMonotone(a, b);
    ShiftMonotone(b, 9);
    ShiftMonotone(if n + 1 < 9 then n + 1 else 9, 9);
    ShiftNine();
  }

  predicate Attemptable(kind: Kind, groupsAuthoritative: bool) {
    groupsAuthoritative || kind.Direct?
  }

  datatype Outcome = Sent | Retryable | Permanent

  /** `finish_outbox_attempt`: whether the entry is cleared. */
  predicate Clears(m: Message, o: Outcome) {
    o.Sent? || o.Permanent? || m.attempts + 1 >= MAX_OUTBOX_ATTEMPTS
  }

  function Finish(outbox: map<MessageId, Message>, id: MessageId, o: Outcome, now: nat): map<MessageId, Message>
    requires id in outbox
  {
    var m := outbox[id];
    if Clears(m, o) then outbox - {id}
    else outbox[id := m.(attempts := m.attempts + 1, retryAt := now + RetryDelayMs(m.attempts + 1))]
  }

  // ----- runs -----

  datatype Attempt = Attempt(id: MessageId, number: nat, timestamp: nat, authoritative: bool, kind: Kind)

  datatype State = State(
    outbox: map<MessageId, Message>,
    enqueued: map<MessageId, Message>,       // every message as it was first saved
    attempting: Option<MessageId>,           // an attempt whose outcome is not recorded yet
    authoritative: bool,
    log: seq<Attempt>,                       // attempts begun, in order
    interrupted: map<MessageId, nat>)        // attempts cut off by shutdown before being recorded

  function Init(): State { State(map[], map[], None, false, [], map[]) }

  datatype Label =
    | SetAuthority(value: bool)
    | EnqueueAndAttempt(id: MessageId, kind: Kind, timestamp: nat)
    | AttemptDue(id: MessageId, now: nat)
    | Record(outcome: Outcome, now: nat)
    | Expedite(id: MessageId)
    | Interrupt

  predicate Enabled(s: State, a: Label) {
    match a
    case SetAuthority(_) => s.attempting.None?
    case EnqueueAndAttempt(id, kind, _) =>
      s.attempting.None? && id !in s.enqueued && Attemptable(kind, s.authoritative)
    case AttemptDue(id, now) =>
      s.attempting.None? && id in s.outbox && s.outbox[id].retryAt <= now && Attemptable(s.outbox[id].kind, s.authoritative)
    case Record(_, _) => s.attempting.Some? && s.attempting.value in s.outbox
    case Expedite(id) => s.attempting.None? && id in s.outbox
    case Interrupt => s.attempting.Some?
  }

  function Interrupted(s: State, id: MessageId): nat {
    if id in s.interrupted then s.interrupted[id] else 0
  }

  function Begin(s: State, id: MessageId, m: Message): State {
    s.(attempting := Some(id), log := s.log + [Attempt(id, m.attempts + 1, m.timestamp, s.authoritative, m.kind)])
  }

  function Apply(s: State, a: Label): State
    requires Enabled(s, a)
  {
    match a
    case SetAuthority(b) => s.(authoritative := b)
    case EnqueueAndAttempt(id, kind, timestamp) =>
      var m := Message(kind, timestamp, 0, 0);
      Begin(s.(outbox := s.outbox[id := m], enqueued := s.enqueued[id := m]), id, m)
    case AttemptDue(id, _) => Begin(s, id, s.outbox[id])
    case Record(o, now) => s.(outbox := Finish(s.outbox, s.attempting.value, o, now), attempting := None)
    case Expedite(id) => s.(outbox := s.outbox[id := s.outbox[id].(retryAt := 0)])
    case Interrupt =>
      s.(attempting := None, interrupted := s.interrupted[s.attempting.value := Interrupted(s, s.attempting.value) + 1])
  }

  ghost predicate IsRun(states: seq<State>, labels: seq<Label>) {
    && |states| == |labels| + 1
    && states[0] == Init()
    && forall i {:trigger labels[i]} :: 0 <= i < |labels| ==>
         Enabled(states[i], labels[i]) && states[i + 1] == Apply(states[i], labels[i])
  }

  /** How often a message has been attempted. */
  ghost function Count(log: seq<Attempt>, id: MessageId): nat {
    if log == [] then 0 else Count(log[..|log| - 1], id) + if log[|log| - 1].id == id then 1 else 0
  }

  lemma CountAppend(log: seq<Attempt>, a: Attempt, id: MessageId)
    ensures Count(log + [a], id) == Count(log, id) + if a.id == id then 1 else 0
  {
    assert (log + [a])[..|log|] == log;
  }

  ghost predicate MessageOk(s: State, id: MessageId) {
    && (id in s.outbox ==>
          && id in s.enqueued
          && s.outbox[id].timestamp == s.enqueued[id].timestamp && s.outbox[id].kind == s.enqueued[id].kind
          && s.outbox[id].attempts < MAX_OUTBOX_ATTEMPTS
          && Count(s.log, id) == s.outbox[id].attempts + Interrupted(s, id) + if s.attempting == Some(id) then 1 else 0)
    && Count(s.log, id) <= MAX_OUTBOX_ATTEMPTS + Interrupted(s, id)
    && (id !in s.enqueued ==> Count(s.log, id) == 0 && Interrupted(s, id) == 0)
  }

  ghost predicate AttemptOk(s: State, a: Attempt) {
    && a.id in s.enqueued && a.timestamp == s.enqueued[a.id].timestamp && a.kind == s.enqueued[a.id].kind
    && Attemptable(a.kind, a.authoritative) && 1 <= a.number <= MAX_OUTBOX_ATTEMPTS
  }

  ghost predicate Inv(s: State) {
    && (s.attempting.Some? ==> s.attempting.value in s.outbox)
    && (forall id :: MessageOk(s, id))
    && forall i :: 0 <= i < |s.log| ==> AttemptOk(s, s.log[i])
  }

  /** A new attempt of `id` adds one to its count and nothing to the others. */
  lemma BegunOk(s: State, t: State, id: MessageId, m: Message, x: MessageId)
    requires MessageOk(s, x) && s.attempting.None? && t == Begin(s, id, m)
    requires id in s.outbox && s.outbox[id] == m && MessageOk(s, id)
    ensures MessageOk(t, x)
  {
    CountAppend(s.log, Attempt(id, m.attempts + 1, m.timestamp, s.authoritative, m.kind), x);
  }

  lemma BeginKeeps(s: State, id: MessageId)
    requires Inv(s) && s.attempting.None? && id in s.outbox && Attemptable(s.outbox[id].kind, s.authoritative)
    ensures Inv(Begin(s, id, s.outbox[id]))
  {
    var m := s.outbox[id];
    var t := Begin(s, id, m);
    forall x
      ensures MessageOk(t, x)
    {
      assert MessageOk(s, id);
      assert MessageOk(s, x);
      BegunOk(s, t, id, m, x);
    }
    assert MessageOk(s, id);
    forall i | 0 <= i < |t.log|
      ensures AttemptOk(t, t.log[i])
    {
      if i < |s.log| {
        assert AttemptOk(s, s.log[i]);
      }
    }
  }

  lemma SaveKeeps(s: State, id: MessageId, m: Message)
    requires Inv(s) && s.attempting.None? && id !in s.enqueued && m.attempts == 0
    ensures Inv(s.(outbox := s.outbox[id := m], enqueued := s.enqueued[id := m]))
  {
    var t := s.(outbox := s.outbox[id := m], enqueued := s.enqueued[id := m]);
    forall x
      ensures MessageOk(t, x)
    {
      assert MessageOk(s, x);
    }
    forall i | 0 <= i < |t.log|
      ensures AttemptOk(t, t.log[i])
    {
      assert AttemptOk(s, s.log[i]);
    }
  }

  lemma RecordKeeps(s: State, a: Label)
    requires Inv(s) && Enabled(s, a) && (a.Record? || a.Interrupt? || a.SetAuthority? || a.Expedite?)
    ensures Inv(Apply(s, a))
  {
    var t := Apply(s, a);
    forall id
      ensures MessageOk(t, id)
    {
      assert MessageOk(s, id);
    }
    forall i | 0 <= i < |t.log|
      ensures AttemptOk(t, t.log[i])
    {
      assert AttemptOk(s, s.log[i]);
    }
  }

  lemma StepKeeps(s: State, a: Label)
    requires Inv(s) && Enabled(s, a)
    ensures Inv(Apply(s, a))
  {
    match a {
      case EnqueueAndAttempt(id, kind, timestamp) =>
        var m := Message(kind, timestamp, 0, 0);
        SaveKeeps(s, id, m);
        BeginKeeps(s.(outbox := s.outbox[id := m], enqueued := s.enqueued[id := m]), id);
      case AttemptDue(id, _) => BeginKeeps(s, id);
      case _ => RecordKeeps(s, a);
    }
  }

  lemma {:induction false} RunInvariant(states: seq<State>, labels: seq<Label>, k: nat)
    requires IsRun(states, labels) && k < |states|
    ensures Inv(states[k])
  {
    if k > 0 {
      RunInvariant(states, labels, k - 1);
      var a := labels[k - 1];
      StepKeeps(states[k - 1], a);
    }
  }

  /** The attempt whose outcome is still to be recorded is the fifth of the message. */
  predicate RecordsFifth(s: State, id: MessageId) {
    s.attempting == Some(id) && id in s.outbox && s.outbox[id].attempts == MAX_OUTBOX_ATTEMPTS - 1
  }

  /** A message is attempted at most five times beyond the attempts that shutdown cut off before
      their outcome was recorded; without such interruptions, at most five times in all. Recording
      the fifth, whatever its outcome, clears the message. */
  lemma AttemptsAreBounded(states: seq<State>, labels: seq<Label>, k: nat, id: MessageId)
    requires IsRun(states, labels) && k < |states|
    ensures Count(states[k].log, id) <= MAX_OUTBOX_ATTEMPTS + Interrupted(states[k], id)
    ensures id in states[k].outbox && states[k].attempting.None? ==>
              Count(states[k].log, id) == states[k].outbox[id].attempts + Interrupted(states[k], id)
              && states[k].outbox[id].attempts < MAX_OUTBOX_ATTEMPTS
    ensures k < |labels| && labels[k].Record? && RecordsFifth(states[k], id) ==> id !in states[k + 1].outbox
  {
    RunInvariant(states, labels, k);
    assert k < |labels| ==> Enabled(states[k], labels[k]);
    assert MessageOk(states[k], id);
  }

  /** Every attempt carries the timestamp the message was queued with, and a group message is
      never attempted without group authority. */
  lemma AttemptsAreFaithful(states: seq<State>, labels: seq<Label>, k: nat, i: nat)
    requires IsRun(states, labels) && k < |states| && i < |states[k].log|
    ensures var a := states[k].log[i];
            && a.id in states[k].enqueued && a.timestamp == states[k].enqueued[a.id].timestamp
            && (states[k].enqueued[a.id].kind.Group? ==> a.authoritative)
  {
    RunInvariant(states, labels, k);
    assert AttemptOk(states[k], states[k].log[i]);
  }

  /** Recording an outcome: the message stays exactly after a retryable failure before the fifth
      attempt, and then with one attempt more and a later due time; no other message changes. */
  lemma AttemptsRise(outbox: map<MessageId, Message>, id: MessageId, o: Outcome, now: nat)
    requires id in outbox
    ensures id in Finish(outbox, id, o, now) <==> o.Retryable? && outbox[id].attempts + 1 < MAX_OUTBOX_ATTEMPTS
    ensures id in Finish(outbox, id, o, now) ==>
            var m := Finish(outbox, id, o, now)[id];
            && m.attempts == outbox[id].attempts + 1 && m.timestamp == outbox[id].timestamp && m.kind == outbox[id].kind
            && m.retryAt == now + RetryDelayMs(m.attempts) >= now + 10_000
    ensures forall x :: x != id ==>
              (x in Finish(outbox, id, o, now) <==> x in outbox)
              && (x in outbox ==> Finish(outbox, id, o, now)[x] == outbox[x])
  {
    RetryDelayBounds(1, outbox[id].attempts + 1);
    assert Shift(1) == 2;
  }

  /** An interruption can really add an attempt: six attempts of one message. */
  lemma InterruptionAddsAttempt() returns (states: seq<State>, labels: seq<Label>)
    ensures IsRun(states, labels)
    ensures Count(states[|states| - 1].log, 1) == MAX_OUTBOX_ATTEMPTS + 1
  {
    states, labels := [Init()], [];
    states, labels := Extend(states, labels, EnqueueAndAttempt(1, Direct, 7));
    states, labels := Extend(states, labels, Interrupt);
    var i := 0;
    while i < MAX_OUTBOX_ATTEMPTS
      invariant 0 <= i <= MAX_OUTBOX_ATTEMPTS
      invariant IsRun(states, labels)
      invariant var s := states[|states| - 1];
                && s.attempting.None? && Count(s.log, 1) == i + 1
                && (i < MAX_OUTBOX_ATTEMPTS ==> 1 in s.outbox && s.outbox[1].attempts == i && s.outbox[1].kind == Direct)
    {
      var s := states[|states| - 1];
      var now := s.outbox[1].retryAt;
      states, labels := Extend(states, labels, AttemptDue(1, now));
      CountAppend(s.log, Attempt(1, i + 1, s.outbox[1].timestamp, s.authoritative, Direct), 1);
      states, labels := Extend(states, labels, Record(Retryable, now));
      i := i + 1;
    }
  }

  lemma Extend(states: seq<State>, labels: seq<Label>, a: Label) returns (states': seq<State>, labels': seq<Label>)
    requires IsRun(states, labels) && Enabled(states[|states| - 1], a)
    ensures IsRun(states', labels')
    ensures |states'| == |states| + 1 && states'[|states|] == Apply(states[|states| - 1], a)
  {
    states', labels' := states + [Apply(states[|states| - 1], a)], labels + [a];
  }

  // ----- one pass over the due messages -----

  /** The due messages that a pass attempts, in their order. */
  function Attempted(outbox: map<MessageId, Message>, due: seq<MessageId>, authoritative: bool): seq<MessageId>
    requires forall id :: id in due ==> id in outbox
  {
    if due == [] then []
    else
      var front, last := due[..|due| - 1], due[|due| - 1];
      Attempted(outbox, front, authoritative) + if Attemptable(outbox[last].kind, authoritative) then [last] else []
  }

  lemma {:induction false} AttemptedMembers(outbox: map<MessageId, Message>, due: seq<MessageId>, authoritative: bool)
    requires forall id :: id in due ==> id in outbox
    ensures forall id :: id in Attempted(outbox, due, authoritative) <==>
              id in due && Attemptable(outbox[id].kind, authoritative)
    ensures Distinct(due) ==> Distinct(Attempted(outbox, due, authoritative))
  {
    if due != [] {
      var front, last := due[..|due| - 1], due[|due| - 1];
      assert due == front + [last];
      AttemptedMembers(outbox, front, authoritative);
      if Distinct(due) {
        assert last !in front;
        DistinctAppend(Attempted(outbox, front, authoritative), last);
      }
    }
  }

  lemma DistinctAppend(s: seq<MessageId>, x: MessageId)
    ensures Distinct(s) && x !in s ==> Distinct(s + [x])
  {
  }

  lemma AttemptedNext(outbox: map<MessageId, Message>, due: seq<MessageId>, authoritative: bool, i: nat)
    requires Distinct(due) && (forall id :: id in due ==> id in outbox) && i < |due|
    ensures forall id :: id in due[..i] || id in due[..i + 1] ==> id in outbox
    ensures Attempted(outbox, due[..i + 1], authoritative)
            == Attempted(outbox, due[..i], authoritative)
               + if Attemptable(outbox[due[i]].kind, authoritative) then [due[i]] else []
    ensures due[i] !in Attempted(outbox, due[..i], authoritative)
  {
    assert due[..i + 1][..i] == due[..i];
    AttemptedMembers(outbox, due[..i], authoritative);
    assert due[i] !in due[..i];
  }

  /** Messages are attempted in the order in which they are due. */
  lemma {:induction false} AttemptedInOrder(outbox: map<MessageId, Message>, due: seq<MessageId>, authoritative: bool)
    requires Distinct(due) && forall id :: id in due ==> id in outbox
    ensures SameOrder(Attempted(outbox, due, authoritative), due)
  {
    if due != [] {
      var front, last := due[..|due| - 1], due[|due| - 1];
      assert due == front + [last];
      AttemptedInOrder(outbox, front, authoritative);
      AttemptedMembers(outbox, front, authoritative);
      assert last !in front;
      assert Attempted(outbox, front, authoritative) + [] == Attempted(outbox, front, authoritative);
      SameOrderAppend(Attempted(outbox, front, authoritative), front, last);
    }
  }

  /** `tried[p]` and `tried[q]` are `due[a]` and `due[b]`. */
  ghost predicate At(tried: seq<MessageId>, due: seq<MessageId>, a: int, b: int, p: int, q: int) {
    && 0 <= a < b < |due| && 0 <= p < |tried| && 0 <= q < |tried|
    && tried[p] == due[a] && tried[q] == due[b]
  }

  /** What stands earlier in `due` stands earlier in `tried`. */
  ghost predicate SameOrder(tried: seq<MessageId>, due: seq<MessageId>) {
    forall a, b, p, q :: At(tried, due, a, b, p, q) ==> p < q
  }

  lemma SameOrderAppend(tried: seq<MessageId>, due: seq<MessageId>, last: MessageId)
    requires SameOrder(tried, due) && last !in due && forall id :: id in tried ==> id in due
    ensures SameOrder(tried, due + [last]) && SameOrder(tried + [last], due + [last])
  {
    var all, more := due + [last], tried + [last];
    forall a, b, p, q | At(more, all, a, b, p, q)
      ensures p < q
    {
      assert all[a] == due[a] && due[a] in due;
      if q < |tried| {
        assert more[q] == tried[q] && tried[q] in due && all[b] == due[b];
        assert At(tried, due, a, b, p, q);
      }
    }
    forall a, b, p, q | At(tried, all, a, b, p, q)
      ensures p < q
    {
      assert At(more, all, a, b, p, q);
    }
  }

  /** The outbox after the messages in `tried` have been attempted: the settled ones are gone, the
      others have one attempt more, a later due time and their old timestamp; the rest is as it was. */
  ghost predicate Passed(outbox: map<MessageId, Message>, after: map<MessageId, Message>, tried: seq<MessageId>,
                         send: MessageId -> Outcome, clock: MessageId -> nat)
  {
    && after.Keys <= outbox.Keys
    && (forall id :: id in outbox && id !in tried ==> id in after && after[id] == outbox[id])
    && (forall id :: id in tried && id in outbox ==>
          (id in after <==> send(id).Retryable? && outbox[id].attempts + 1 < MAX_OUTBOX_ATTEMPTS))
    && forall id :: id in tried && id in after ==>
         after[id] == Message(outbox[id].kind, outbox[id].timestamp, outbox[id].attempts + 1,
                              clock(id) + RetryDelayMs(outbox[id].attempts + 1))
  }

  lemma PassedOne(outbox: map<MessageId, Message>, after: map<MessageId, Message>, tried: seq<MessageId>,
                  send: MessageId -> Outcome, clock: MessageId -> nat, id: MessageId)
    requires id in outbox && id !in tried && Passed(outbox, after, tried, send, clock)
    ensures Passed(outbox, Finish(after, id, send(id), clock(id)), tried + [id], send, clock)
  {
    var next := Finish(after, id, send(id), clock(id));
    assert forall x :: x in tried + [id] <==> x in tried || x == id;
    assert forall x :: x != id ==> (x in next <==> x in after) && (x in after ==> next[x] == after[x]);
  }

  /** `retry_outbox`: `send` answers for each attempt and `clock` is read after it; every
      attemptable due message is tried once, in order, and its outcome recorded. */
  method RetryPass(outbox: map<MessageId, Message>, due: seq<MessageId>, authoritative: bool,
                   send: MessageId -> Outcome, clock: MessageId -> nat)
    returns (after: map<MessageId, Message>, tried: seq<MessageId>)
    requires Distinct(due) && forall id :: id in due ==> id in outbox
    ensures tried == Attempted(outbox, due, authoritative) && Distinct(tried)
    ensures forall id :: id in tried <==> id in due && (authoritative || outbox[id].kind.Direct?)
    ensures SameOrder(tried, due)
    ensures Passed(outbox, after, tried, send, clock)
  {
    after, tried := outbox, [];
    for i := 0 to |due|
      invariant tried == Attempted(outbox, due[..i], authoritative)
      invariant Passed(outbox, after, tried, send, clock)
    {
      var id := due[i];
      AttemptedNext(outbox, due, authoritative, i);
      if Attemptable(outbox[id].kind, authoritative) {
        PassedOne(outbox, after, tried, send, clock, id);
        after := Finish(after, id, send(id), clock(id));
        tried := tried + [id];
      }
    }
    assert due[..|due|] == due;
    AttemptedMembers(outbox, due, authoritative);
    AttemptedInOrder(outbox, due, authoritative);
  }
}
