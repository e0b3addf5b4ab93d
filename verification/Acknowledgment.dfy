/** The acknowledgement inbox: which delivery ids may be acknowledged, which have been, and
    which wait to be recorded or retried. Each function is one lock section. */
module Acknowledgments {
  import opened Common

  type Id = nat

  const ACKNOWLEDGMENT_BATCH_SIZE: nat := 64

  datatype Inbox = Inbox(
    open: bool,
    registered: set<Id>,
    accepted: set<Id>,
    ready: seq<Id>,
    retry: seq<Id>)

  function NewInbox(): Inbox { Inbox(true, {}, {}, [], []) }

  function Register(b: Inbox, d: Id): Inbox {
    b.(registered := b.registered + {d})
  }

  function Unregister(b: Inbox, d: Id): Inbox {
    b.(registered := b.registered - {d}, accepted := b.accepted - {d},
       ready := Without(b.ready, d), retry := Without(b.retry, d))
  }

  /** Whether a submission is new work; the caller then owes the consumer a notification. */
  predicate Queues(b: Inbox, d: Id) {
    b.open && d in b.registered && d !in b.accepted
  }

  function Submit(b: Inbox, d: Id): Inbox {
    if Queues(b, d) then b.(accepted := b.accepted + {d}, ready := b.ready + [d]) else b
  }

  function BatchSize(b: Inbox, maximum: nat): nat {
    if maximum < |b.ready| then maximum else |b.ready|
  }

  function TakeReady(b: Inbox, maximum: nat): Inbox {
    b.(ready := b.ready[BatchSize(b, maximum)..])
  }

  function DeferRetry(b: Inbox, d: Id): Inbox {
    if d in b.registered && d in b.accepted then b.(retry := b.retry + [d]) else b
  }

  function ActivateRetries(b: Inbox): Inbox {
    b.(ready := b.ready + b.retry, retry := [])
  }

  function CloseInbox(b: Inbox): Inbox {
    ActivateRetries(b).(open := false)
  }

  /** Every accepted id sits exactly once in ready, retry or the batch being processed. */
  ghost predicate Conserved(b: Inbox, batch: seq<Id>) {
    && b.accepted <= b.registered
    && Distinct(b.ready + b.retry + batch)
    && forall d :: d in b.accepted <==> d in b.ready || d in b.retry || d in batch
  }

  lemma SubmitConserved(b: Inbox, batch: seq<Id>, d: Id)
    requires Conserved(b, batch)
    ensures Conserved(Submit(b, d), batch)
  {
    if Queues(b, d) {
      var before, after := b.ready + b.retry + batch, b.ready + [d] + b.retry + batch;
      assert d !in before;
      assert before == b.ready + (b.retry + batch);
      InsertDistinct(b.ready, d, b.retry + batch);
      assert after == b.ready + [d] + (b.retry + batch);
    }
  }

  lemma InsertDistinct<T>(a: seq<T>, x: T, c: seq<T>)
    requires Distinct(a + c) && x !in a + c
    ensures Distinct(a + [x] + c)
  {
    var s, r := a + c, a + [x] + c;
    forall i, j | 0 <= i < j < |r|
      ensures r[i] != r[j]
    {
      assert i != |a| ==> r[i] == s[if i < |a| then i else i - 1];
      assert j != |a| ==> r[j] == s[if j < |a| then j else j - 1];
    }
  }

  lemma TakeConserved(b: Inbox, maximum: nat)
    requires Conserved(b, [])
    ensures Conserved(TakeReady(b, maximum), b.ready[..BatchSize(b, maximum)])
  {
    var n := BatchSize(b, maximum);
    var batch, rest := b.ready[..n], b.ready[n..];
    assert b.ready + b.retry + [] == batch + (rest + b.retry);
    assert b.ready == batch + rest;
    RotateDistinct(batch, rest + b.retry);
  }

  lemma RotateDistinct<T>(a: seq<T>, c: seq<T>)
    requires Distinct(a + c)
    ensures Distinct(c + a)
  {
    var s, r := a + c, c + a;
    forall i, j | 0 <= i < j < |r|
      ensures r[i] != r[j]
    {
      assert r[i] == s[if i < |c| then i + |a| else i - |c|];
      assert r[j] == s[if j < |c| then j + |a| else j - |c|];
    }
  }

  /** A batch member that was recorded leaves the inbox entirely. */
  lemma FinishConserved(b: Inbox, batch: seq<Id>)
    requires batch != [] && Conserved(b, batch)
    ensures Conserved(Unregister(b, batch[0]), batch[1..])
  {
    var d, all := batch[0], b.ready + b.retry + batch;
    assert batch == [d] + batch[1..];
    assert all[|b.ready| + |b.retry|] == d;
    assert d !in b.ready by { assert forall i :: 0 <= i < |b.ready| ==> all[i] == b.ready[i]; }
    assert d !in b.retry by { assert forall i :: 0 <= i < |b.retry| ==> all[|b.ready| + i] == b.retry[i]; }
    assert d !in batch[1..] by {
      assert forall i :: 0 <= i < |batch| - 1 ==> all[|b.ready| + |b.retry| + 1 + i] == batch[1..][i];
    }
    WithoutMembers(b.ready, d);
    WithoutMembers(b.retry, d);
    assert all == b.ready + b.retry + [d] + batch[1..];
    RemoveDistinct(b.ready + b.retry, d, batch[1..]);
  }

  lemma RemoveDistinct<T>(a: seq<T>, x: T, c: seq<T>)
    requires Distinct(a + [x] + c)
    ensures Distinct(a + c)
  {
    var s, r := a + [x] + c, a + c;
    forall i, j | 0 <= i < j < |r|
      ensures r[i] != r[j]
    {
      assert r[i] == s[if i < |a| then i else i + 1];
      assert r[j] == s[if j < |a| then j else j + 1];
    }
  }

  lemma DeferConserved(b: Inbox, batch: seq<Id>)
    requires batch != [] && Conserved(b, batch)
    ensures Conserved(DeferRetry(b, batch[0]), batch[1..])
  {
    assert batch == [batch[0]] + batch[1..];
    assert b.ready + b.retry + batch == b.ready + (b.retry + [batch[0]]) + batch[1..];
  }

  lemma ActivateConserved(b: Inbox, batch: seq<Id>)
    requires Conserved(b, batch)
    ensures Conserved(ActivateRetries(b), batch)
  {
    assert b.ready + b.retry + batch == (b.ready + b.retry) + [] + batch;
  }

  /** What recording a batch does to the inbox, id by id. */
  function Processed(b: Inbox, batch: seq<Id>, recorded: Id -> bool, retryFailures: bool): Inbox
    decreases |batch|
  {
    if batch == [] then b
    else
      var d := batch[0];
      var next := if recorded(d) then Unregister(b, d) else if retryFailures then DeferRetry(b, d) else b;
      Processed(next, batch[1..], recorded, retryFailures)
  }

  ghost function Recorded(batch: seq<Id>, recorded: Id -> bool): set<Id> {
    set d | d in batch && recorded(d)
  }

  /** Recording with retries loses no acknowledgement: what failed is waiting to be retried. */
  lemma {:induction false} ProcessedConserved(b: Inbox, batch: seq<Id>, recorded: Id -> bool)
    requires Conserved(b, batch)
    ensures Conserved(Processed(b, batch, recorded, true), [])
    decreases |batch|
  {
    if batch != [] {
      FinishConserved(b, batch);
      DeferConserved(b, batch);
      var next := if recorded(batch[0]) then Unregister(b, batch[0]) else DeferRetry(b, batch[0]);
      ProcessedConserved(next, batch[1..], recorded);
    }
  }

  lemma {:induction false} ProcessedEffect(b: Inbox, batch: seq<Id>, recorded: Id -> bool, retryFailures: bool)
    requires forall d :: d in batch ==> d !in b.ready
    ensures var p := Processed(b, batch, recorded, retryFailures);
            && p.ready == b.ready && p.open == b.open
            && p.accepted == b.accepted - Recorded(batch, recorded)
            && p.registered == b.registered - Recorded(batch, recorded)
            && (!retryFailures && b.retry == [] ==> p.retry == [])
    decreases |batch|
  {
    if batch != [] {
      var d := batch[0];
      WithoutMembers(b.ready, d);
      var next := if recorded(d) then Unregister(b, d) else if retryFailures then DeferRetry(b, d) else b;
      ProcessedEffect(next, batch[1..], recorded, retryFailures);
      assert batch == [d] + batch[1..];
    }
  }

  /** One call of `process_acknowledgments`: exactly the recorded ids of the batch leave. */
  lemma ProcessedBatch(b: Inbox, maximum: nat, recorded: Id -> bool, retryFailures: bool)
    requires Distinct(b.ready)
    ensures var n := BatchSize(b, maximum);
            var p := Processed(TakeReady(b, maximum), b.ready[..n], recorded, retryFailures);
            && p.ready == b.ready[n..] && p.open == b.open
            && p.accepted == b.accepted - Recorded(b.ready[..n], recorded)
            && p.registered == b.registered - Recorded(b.ready[..n], recorded)
            && (!retryFailures && b.retry == [] ==> p.retry == [])
            && (retryFailures && Conserved(b, []) ==> Conserved(p, []))
  {
    var n := BatchSize(b, maximum);
    var batch := b.ready[..n];
    forall d | d in batch
      ensures d !in b.ready[n..]
    {
      var i :| 0 <= i < n && batch[i] == d;
      assert b.ready[i] == d;
      assert forall j :: 0 <= j < |b.ready[n..]| ==> b.ready[n..][j] == b.ready[n + j];
    }
    ProcessedEffect(TakeReady(b, maximum), batch, recorded, retryFailures);
    if Conserved(b, []) {
      TakeConserved(b, maximum);
      ProcessedConserved(TakeReady(b, maximum), batch, recorded);
    }
  }

  /** Withdrawing an id outside processing (a released projection) keeps the rest in place. */
  lemma UnregisterConserved(b: Inbox, d: Id)
    requires Conserved(b, [])
    ensures Conserved(Unregister(b, d), [])
  {
    assert b.ready + b.retry + [] == b.ready + b.retry;
    WithoutMembers(b.ready, d);
    WithoutMembers(b.retry, d);
    WithoutAppend(b.ready, b.retry, d);
    WithoutDistinct(b.ready + b.retry, d);
    assert Without(b.ready, d) + Without(b.retry, d) + [] == Without(b.ready + b.retry, d);
  }
}

/** The inbox object, with the stored permit of its `Notify`. */
module AcknowledgmentObject {
  import opened Common
  import opened Acknowledgments

  class AcknowledgmentInbox {
    var open: bool
    var registered: set<Id>
    var accepted: set<Id>
    var ready: seq<Id>
    var retry: seq<Id>
    var permit: bool

    function Value(): Inbox
      reads this
    {
      Inbox(open, registered, accepted, ready, retry)
    }

    constructor ()
      ensures Value() == NewInbox() && !permit
    {
      open, registered, accepted, ready, retry, permit := true, {}, {}, [], [], false;
    }

    method RegisterId(d: Id)
      modifies this`registered
      ensures Value() == Register(old(Value()), d)
    {
      registered := registered + {d};
    }

    /** `VecDeque::retain`. */
    static method Retain(s: seq<Id>, d: Id) returns (kept: seq<Id>)
      ensures kept == Without(s, d)
    {
      kept := [];
      var i := |s|;
      while i > 0
        invariant 0 <= i <= |s|
        invariant kept == Without(s[i..], d)
      {
        i := i - 1;
        assert s[i..][1..] == s[i + 1..];
        if s[i] != d {
          kept := [s[i]] + kept;
        }
      }
      assert s[0..] == s;
    }

    method UnregisterId(d: Id)
      modifies this`registered, this`accepted, this`ready, this`retry
      ensures Value() == Unregister(old(Value()), d)
      ensures registered == old(registered) - {d} && accepted == old(accepted) - {d}
      ensures forall x :: (x in ready <==> x in old(ready) && x != d) && (x in retry <==> x in old(retry) && x != d)
    {
      registered := registered - {d};
      accepted := accepted - {d};
      WithoutMembers(ready, d);
      WithoutMembers(retry, d);
      ready := Retain(ready, d);
      retry := Retain(retry, d);
    }

    method SubmitId(d: Id) returns (ok: bool)
      modifies this
      ensures ok == old(open)
      ensures Value() == Submit(old(Value()), d)
      ensures permit == (old(permit) || Queues(old(Value()), d))
      ensures ready == old(ready) + if old(open) && d in old(registered) && d !in old(accepted) then [d] else []
      ensures d in accepted <==> d in old(accepted) || (old(open) && d in old(registered))
    {
      if !open {
        return false;
      }
      var notify := d in registered && d !in accepted;
      if notify {
        accepted := accepted + {d};
        ready := ready + [d];
        permit := true;
      }
      return true;
    }

    method TakeBatch(maximum: nat) returns (batch: seq<Id>)
      modifies this`ready, this`permit
      ensures batch == old(ready)[..BatchSize(old(Value()), maximum)]
      ensures batch + ready == old(ready)
      ensures |batch| == maximum || (|batch| < maximum && ready == [])
      ensures Value() == TakeReady(old(Value()), maximum)
      ensures permit == (old(permit) || ready != [])
    {
      var count := if maximum < |ready| then maximum else |ready|;
      batch := ready[..count];
      ready := ready[count..];
      if ready != [] {
        permit := true;
      }
    }

    method DeferId(d: Id)
      modifies this`retry
      ensures Value() == DeferRetry(old(Value()), d)
      ensures retry == old(retry) + if d in registered && d in accepted then [d] else []
    {
      if d in registered && d in accepted {
        retry := retry + [d];
      }
    }

    method Activate()
      modifies this`ready, this`retry, this`permit
      ensures Value() == ActivateRetries(old(Value()))
      ensures ready == old(ready) + old(retry) && retry == []
      ensures permit == (old(permit) || ready != [])
    {
      ready, retry := ready + retry, [];
      if ready != [] {
        permit := true;
      }
    }

    method CloseAll()
      modifies this`open, this`ready, this`retry, this`permit
      ensures Value() == CloseInbox(old(Value())) && permit
      ensures !open && ready == old(ready) + old(retry) && retry == []
    {
      open := false;
      ready, retry := ready + retry, [];
      permit := true;
    }

    /** `process_acknowledgments`: `recorded` answers whether the durable mark of an id succeeds. */
    method ProcessBatch(recorded: Id -> bool, retryFailures: bool) returns (count: nat)
      modifies this
      ensures count == BatchSize(old(Value()), ACKNOWLEDGMENT_BATCH_SIZE)
      ensures Value() == Processed(TakeReady(old(Value()), ACKNOWLEDGMENT_BATCH_SIZE), old(ready)[..count],
                                   recorded, retryFailures)
    {
      var batch := TakeBatch(ACKNOWLEDGMENT_BATCH_SIZE);
      count := |batch|;
      ghost var start := Value();
      var i := 0;
      while i < count
        invariant 0 <= i <= count
        invariant Processed(Value(), batch[i..], recorded, retryFailures)
                  == Processed(start, batch, recorded, retryFailures)
      {
        assert batch[i..][0] == batch[i] && batch[i..][1..] == batch[i + 1..];
        if recorded(batch[i]) {
          UnregisterId(batch[i]);
        } else if retryFailures {
          DeferId(batch[i]);
        }
        i := i + 1;
      }
    }

    /** `drain_acknowledgments`: with the inbox closed and failures not retried, the loop ends
        after every queued id has been tried once. */
    method Drain(recorded: Id -> bool) returns (tried: nat)
      requires Distinct(ready + retry)
      modifies this
      ensures !open && ready == [] && retry == []
      ensures tried == |old(ready)| + |old(retry)|
      ensures accepted == old(accepted) - Recorded(old(ready) + old(retry), recorded)
    {
      CloseAll();
      ghost var queue := ready;
      tried := 0;
      var count := 1;
      while count != 0
        invariant !open && retry == []
        invariant tried <= |queue| && ready == queue[tried..]
        invariant count == 0 ==> ready == []
        invariant accepted == old(accepted) - Recorded(queue[..tried], recorded)
        decreases |ready|, count
      {
        ghost var before := Value();
        SuffixDistinct(queue, tried);
        count := ProcessBatch(recorded, false);
        ProcessedBatch(before, ACKNOWLEDGMENT_BATCH_SIZE, recorded, false);
        SplitBatch(queue, tried, count);
        RecordedAppend(queue[..tried], before.ready[..count], recorded);
        tried := tried + count;
      }
      assert queue[..tried] == queue;
    }
  }

  lemma SplitBatch<T>(s: seq<T>, n: nat, count: nat)
    requires n + count <= |s|
    ensures s[..n + count] == s[..n] + s[n..][..count] && s[n..][count..] == s[n + count..]
  {
  }

  lemma RecordedAppend(a: seq<Id>, b: seq<Id>, recorded: Id -> bool)
    ensures Recorded(a + b, recorded) == Recorded(a, recorded) + Recorded(b, recorded)
  {
  }

  lemma SuffixDistinct<T>(s: seq<T>, n: nat)
    requires Distinct(s) && n <= |s|
    ensures Distinct(s[n..])
  {
    assert forall j :: 0 <= j < |s[n..]| ==> s[n..][j] == s[n + j];
  }
}

/** The host thread submitting acknowledgements while the worker waits, takes batches,
    records them and retries; releasing the lock and calling `notify_one` are two steps. */
module AcknowledgmentProtocol {
  import opened Common
  import opened Acknowledgments

  /** Where the worker is: in its `select!` (or any work that is not acknowledgement
      processing), past `wait` but before `take_ready`, recording a batch, or draining after
      shutdown. */
  datatype Worker = Selecting | Notified | Recording(batch: seq<Id>) | Draining(batch: seq<Id>)

  datatype State = State(inbox: Inbox, permit: bool, owed: nat, worker: Worker)

  function Init(): State { State(NewInbox(), false, 0, Selecting) }

  datatype Label =
    | HostSubmit(id: Id)
    | NotifyOne
    | Track(id: Id)
    | Release(id: Id)
    | Retry
    | Wake
    | Take
    | RecordOne(ok: bool)
    | Finish
    | Shutdown
    | DrainTake
    | DrainOne(ok: bool)

  ghost predicate Enabled(s: State, a: Label) {
    match a
    case HostSubmit(_) => true
    case NotifyOne => s.owed > 0
    case Track(_) => s.worker.Selecting?
    case Release(_) => s.worker.Selecting?
    case Retry => s.worker.Selecting?
    case Wake => s.worker.Selecting? && s.permit
    case Take => s.worker.Notified?
    case RecordOne(_) => s.worker.Recording? && s.worker.batch != []
    case Finish => s.worker.Recording? && s.worker.batch == []
    case Shutdown => !s.worker.Draining?
    case DrainTake => s.worker.Draining? && s.worker.batch == []
    case DrainOne(_) => s.worker.Draining? && s.worker.batch != []
  }

  function Owe(s: State, condition: bool): State {
    if condition then s.(owed := s.owed + 1) else s
  }

  function Apply(s: State, a: Label): State {
    match a
    case HostSubmit(d) => Owe(s.(inbox := Submit(s.inbox, d)), Queues(s.inbox, d))
    case NotifyOne => if s.owed > 0 then s.(permit := true, owed := s.owed - 1) else s
    case Track(d) => s.(inbox := Register(s.inbox, d))
    case Release(d) => s.(inbox := Unregister(s.inbox, d))
    case Retry =>
      var b := ActivateRetries(s.inbox);
      Owe(s.(inbox := b), b.ready != [])
    case Wake => s.(permit := false, worker := Notified)
    case Take =>
      var b := TakeReady(s.inbox, ACKNOWLEDGMENT_BATCH_SIZE);
      var n := BatchSize(s.inbox, ACKNOWLEDGMENT_BATCH_SIZE);
      Owe(s.(inbox := b, worker := Recording(s.inbox.ready[..n])), b.ready != [])
    case RecordOne(ok) => RecordStep(s, ok)
    case Finish => s.(worker := Selecting)
    case Shutdown => Owe(s.(inbox := CloseInbox(s.inbox), worker := Draining([])), true)
    case DrainTake =>
      s.(inbox := TakeReady(s.inbox, ACKNOWLEDGMENT_BATCH_SIZE),
         worker := Draining(s.inbox.ready[..BatchSize(s.inbox, ACKNOWLEDGMENT_BATCH_SIZE)]))
    case DrainOne(ok) => DrainStep(s, ok)
  }

  function RecordStep(s: State, ok: bool): State {
    if !s.worker.Recording? || s.worker.batch == [] then s
    else
      var d := s.worker.batch[0];
      s.(inbox := if ok then Unregister(s.inbox, d) else DeferRetry(s.inbox, d),
         worker := Recording(s.worker.batch[1..]))
  }

  function DrainStep(s: State, ok: bool): State {
    if !s.worker.Draining? || s.worker.batch == [] then s
    else
      s.(inbox := if ok then Unregister(s.inbox, s.worker.batch[0]) else s.inbox,
         worker := Draining(s.worker.batch[1..]))
  }

  ghost predicate IsRun(states: seq<State>, labels: seq<Label>) {
    && |states| == |labels| + 1
    && states[0] == Init()
    && forall i :: 0 <= i < |labels| ==>
         Enabled(states[i], labels[i]) && states[i + 1] == Apply(states[i], labels[i])
  }

  ghost function Batch(s: State): seq<Id> {
    if s.worker.Recording? then s.worker.batch else []
  }

  ghost predicate Inv(s: State) {
    && (!s.worker.Draining? ==> s.inbox.open && Conserved(s.inbox, Batch(s)))
    && (s.worker.Draining? ==> !s.inbox.open && s.inbox.retry == [])
    && (s.inbox.ready != [] ==> s.permit || s.owed > 0 || s.worker.Notified? || s.worker.Draining?)
    && (forall d :: d in s.inbox.ready || d in s.inbox.retry ==> d in s.inbox.accepted)
    && s.inbox.accepted <= s.inbox.registered
  }

  lemma WorkerKeeps(s: State, a: Label)
    requires Inv(s) && Enabled(s, a)
    requires a.Take? || a.RecordOne? || a.Finish? || a.Wake?
    ensures Inv(Apply(s, a))
  {
    if a.Take? {
      TakeConserved(s.inbox, ACKNOWLEDGMENT_BATCH_SIZE);
    } else if a.RecordOne? {
      FinishConserved(s.inbox, s.worker.batch);
      DeferConserved(s.inbox, s.worker.batch);
      WithoutMembers(s.inbox.ready, s.worker.batch[0]);
      WithoutMembers(s.inbox.retry, s.worker.batch[0]);
    }
  }

  lemma OutsideKeeps(s: State, a: Label)
    requires Inv(s) && Enabled(s, a)
    requires a.HostSubmit? || a.NotifyOne? || a.Track? || a.Release? || a.Retry?
    ensures Inv(Apply(s, a))
  {
    if a.HostSubmit? {
      if !s.worker.Draining? {
        SubmitConserved(s.inbox, Batch(s), a.id);
      }
    } else if a.Release? {
      UnregisterConserved(s.inbox, a.id);
      WithoutMembers(s.inbox.ready, a.id);
      WithoutMembers(s.inbox.retry, a.id);
    } else if a.Retry? {
      ActivateConserved(s.inbox, []);
    }
  }

  lemma ClosingKeeps(s: State, a: Label)
    requires Inv(s) && Enabled(s, a)
    requires a.Shutdown? || a.DrainTake? || a.DrainOne?
    ensures Inv(Apply(s, a))
  {
    if a.DrainOne? {
      WithoutMembers(s.inbox.ready, s.worker.batch[0]);
      WithoutMembers(s.inbox.retry, s.worker.batch[0]);
    }
  }

  lemma {:induction false} RunInvariant(states: seq<State>, labels: seq<Label>, k: nat)
    requires IsRun(states, labels) && k < |states|
    ensures Inv(states[k])
  {
    if k > 0 {
      RunInvariant(states, labels, k - 1);
      var s, a := states[k - 1], labels[k - 1];
      match a {
        case Take => WorkerKeeps(s, a);
        case RecordOne(_) => WorkerKeeps(s, a);
        case Finish => WorkerKeeps(s, a);
        case Wake => WorkerKeeps(s, a);
        case Shutdown => ClosingKeeps(s, a);
        case DrainTake => ClosingKeeps(s, a);
        case DrainOne(_) => ClosingKeeps(s, a);
        case _ => OutsideKeeps(s, a);
      }
    }
  }

  /** Before shutdown an accepted id is in exactly one of ready, retry and the batch being
      recorded, and nothing else is in any of them. */
  lemma AcknowledgmentsConserved(states: seq<State>, labels: seq<Label>, k: nat, d: Id)
    requires IsRun(states, labels) && k < |states| && !states[k].worker.Draining?
    ensures var s := states[k];
            && Distinct(s.inbox.ready + s.inbox.retry + Batch(s))
            && (d in s.inbox.accepted <==> d in s.inbox.ready + s.inbox.retry + Batch(s))
    ensures d in states[k].inbox.accepted ==> d in states[k].inbox.registered
  {
    RunInvariant(states, labels, k);
  }

  /** Queued work is never stranded: unless the worker is already on its way to take it, a
      wake permit is stored or some thread is about to store one. */
  lemma ReadyIsAnnounced(states: seq<State>, labels: seq<Label>, k: nat)
    requires IsRun(states, labels) && k < |states|
    requires states[k].inbox.ready != [] && states[k].owed == 0
    ensures states[k].permit || states[k].worker.Notified? || states[k].worker.Draining?
  {
    RunInvariant(states, labels, k);
  }

  /** The gap between releasing the lock and `notify_one` is real: without the owed
      notification the stored permit alone does not cover queued work. */
  lemma PermitLagsBehindQueue() returns (states: seq<State>, labels: seq<Label>)
    ensures IsRun(states, labels)
    ensures var s := states[|states| - 1];
            s.inbox.ready != [] && !s.permit && s.worker.Selecting? && s.owed == 1
  {
    labels := [Track(1), HostSubmit(1)];
    var s1 := Apply(Init(), labels[0]);
    states := [Init(), s1, Apply(s1, labels[1])];
  }

  /** After shutdown no thread can add work, and each taken batch shrinks what is left, so the
      drain takes at most as many non-empty batches as ids were queued when it began. */
  lemma {:induction false} DrainTerminates(states: seq<State>, labels: seq<Label>, i: nat, k: nat)
    requires IsRun(states, labels) && i <= k < |states| && states[i].worker.Draining?
    ensures states[k].worker.Draining?
    ensures |states[k].inbox.ready| + NonEmptyTakes(states, labels, i, k) <= |states[i].inbox.ready|
  {
    if i < k {
      DrainTerminates(states, labels, i, k - 1);
      RunInvariant(states, labels, k - 1);
      var s := states[k - 1];
      if labels[k - 1].DrainOne? {
        WithoutMembers(s.inbox.ready, s.worker.batch[0]);
      }
    }
  }

  ghost function NonEmptyTakes(states: seq<State>, labels: seq<Label>, i: nat, k: nat): nat
    requires IsRun(states, labels) && i <= k < |states|
  {
    if i == k then 0
    else NonEmptyTakes(states, labels, i, k - 1)
         + if labels[k - 1].DrainTake? && states[k - 1].inbox.ready != [] then 1 else 0
  }
}
