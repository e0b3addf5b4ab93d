/** The queue of delivery receipts still to be sent. */
module ReceiptQueues {
  import opened Common

  const MAX_PENDING_DELIVERY_RECEIPTS: nat := 4096

  datatype ReceiptId = ReceiptId(recipient: string, messageTimestamp: nat)

  datatype Receipt = Receipt(id: ReceiptId, sendTimestamp: nat)

  datatype Progress = Ready | InFlight | Deferred

  datatype Slot = Slot(receipt: Receipt, progress: Progress)

  datatype Receipts = Receipts(pending: seq<Slot>, identities: set<ReceiptId>, limitReported: bool)

  function NoReceipts(): Receipts { Receipts([], {}, false) }

  /** The position of the first slot for an identity. */
  function Find(s: seq<Slot>, id: ReceiptId): (r: Option<nat>)
    ensures r.Some? ==> r.value < |s| && s[r.value].receipt.id == id
    ensures r.None? ==> forall i :: 0 <= i < |s| ==> s[i].receipt.id != id
  {
    if s == [] then None
    else if s[0].receipt.id == id then Some(0)
    else
      var r := Find(s[1..], id);
      assert forall i :: 0 <= i < |s| - 1 ==> s[1..][i] == s[i + 1];
      if r.None? then assert forall i :: 0 < i < |s| ==> s[i] == s[1..][i - 1]; None
      else Some(r.value + 1)
  }

  /** The position of the first slot that is ready to be sent. */
  function FindReady(s: seq<Slot>): (r: Option<nat>)
    ensures r.Some? ==> r.value < |s| && s[r.value].progress.Ready?
                        && forall i :: 0 <= i < r.value ==> !s[i].progress.Ready?
    ensures r.None? ==> forall i :: 0 <= i < |s| ==> !s[i].progress.Ready?
  {
    if s == [] then None
    else if s[0].progress.Ready? then Some(0)
    else
      var r := FindReady(s[1..]);
      assert forall i :: 0 < i < |s| ==> s[i] == s[1..][i - 1];
      if r.None? then None else Some(r.value + 1)
  }

  predicate Full(q: Receipts) { |q.pending| >= MAX_PENDING_DELIVERY_RECEIPTS }

  function Enqueue(q: Receipts, r: Receipt): Receipts {
    if r.id in q.identities then q
    else if Full(q) then q.(limitReported := true)
    else q.(identities := q.identities + {r.id}, pending := q.pending + [Slot(r, Ready)])
  }

  /** Whether `enqueue` asks its caller to report the backlog limit. */
  predicate Reports(q: Receipts, r: Receipt) {
    r.id !in q.identities && Full(q) && !q.limitReported
  }

  function Mark(q: Receipts, i: nat, p: Progress): Receipts
    requires i < |q.pending|
  {
    q.(pending := q.pending[i := q.pending[i].(progress := p)])
  }

  function StartNext(q: Receipts): Receipts {
    var i := FindReady(q.pending);
    if i.None? then q else Mark(q, i.value, InFlight)
  }

  function RemoveAt<T>(s: seq<T>, k: nat): (r: seq<T>)
    requires k < |s|
    ensures |r| == |s| - 1
    ensures forall i :: 0 <= i < |r| ==> r[i] == s[if i < k then i else i + 1]
  {
    s[..k] + s[k + 1..]
  }

  function Complete(q: Receipts, id: ReceiptId): Receipts {
    var i := Find(q.pending, id);
    if i.None? then q
    else
      var rest := RemoveAt(q.pending, i.value);
      Receipts(rest, q.identities - {id},
               if |rest| < MAX_PENDING_DELIVERY_RECEIPTS then false else q.limitReported)
  }

  function Retry(q: Receipts, id: ReceiptId, immediately: bool): Receipts {
    var i := Find(q.pending, id);
    if i.None? then q else Mark(q, i.value, if immediately then Ready else Deferred)
  }

  /** Every slot in progress `from` becomes ready. */
  function Reset(s: seq<Slot>, from: Progress): (r: seq<Slot>)
    ensures |r| == |s|
    ensures forall i :: 0 <= i < |s| ==>
              r[i] == if s[i].progress == from then s[i].(progress := Ready) else s[i]
  {
    if s == [] then []
    else [if s[0].progress == from then s[0].(progress := Ready) else s[0]] + Reset(s[1..], from)
  }

  function ActivateRetries(q: Receipts): Receipts { q.(pending := Reset(q.pending, Deferred)) }

  function ReleaseInFlight(q: Receipts): Receipts { q.(pending := Reset(q.pending, InFlight)) }

  ghost predicate HasId(s: seq<Slot>, id: ReceiptId) {
    exists i :: 0 <= i < |s| && s[i].receipt.id == id
  }

  ghost predicate DistinctIds(s: seq<Slot>) {
    forall i, j :: 0 <= i < j < |s| ==> s[i].receipt.id != s[j].receipt.id
  }

  ghost predicate Indexed(q: Receipts) {
    && DistinctIds(q.pending)
    && (forall id :: id in q.identities <==> HasId(q.pending, id))
    && |q.pending| <= MAX_PENDING_DELIVERY_RECEIPTS
    && (q.limitReported ==> |q.pending| == MAX_PENDING_DELIVERY_RECEIPTS)
  }

  lemma HasIdAppend(s: seq<Slot>, e: Slot, id: ReceiptId)
    ensures HasId(s + [e], id) <==> HasId(s, id) || e.receipt.id == id
  {
    if HasId(s, id) {
      var i :| 0 <= i < |s| && s[i].receipt.id == id;
      assert (s + [e])[i].receipt.id == id;
    }
    assert (s + [e])[|s|] == e;
  }

  lemma HasIdRemoved(s: seq<Slot>, k: nat, id: ReceiptId)
    requires DistinctIds(s) && k < |s|
    ensures HasId(RemoveAt(s, k), id) <==> HasId(s, id) && id != s[k].receipt.id
  {
    var r := RemoveAt(s, k);
    if HasId(r, id) {
      var i :| 0 <= i < |r| && r[i].receipt.id == id;
      assert s[if i < k then i else i + 1].receipt.id == id;
    }
    if HasId(s, id) && id != s[k].receipt.id {
      var i :| 0 <= i < |s| && s[i].receipt.id == id;
      assert r[if i < k then i else i - 1].receipt.id == id;
    }
  }

  lemma EnqueueIndexed(q: Receipts, r: Receipt)
    requires Indexed(q)
    ensures Indexed(Enqueue(q, r))
  {
    if r.id !in q.identities && !Full(q) {
      assert !HasId(q.pending, r.id);
      forall id
        ensures id in Enqueue(q, r).identities <==> HasId(Enqueue(q, r).pending, id)
      {
        HasIdAppend(q.pending, Slot(r, Ready), id);
      }
    }
  }

  lemma CompleteIndexed(q: Receipts, id: ReceiptId)
    requires Indexed(q)
    ensures Indexed(Complete(q, id))
  {
    var k := Find(q.pending, id);
    if k.Some? {
      var t := Complete(q, id);
      assert DistinctIds(t.pending);
      forall x
        ensures x in t.identities <==> HasId(t.pending, x)
      {
        HasIdRemoved(q.pending, k.value, x);
      }
    }
  }

  /** Changing progress only: receipts, and with them identities and timestamps, stay put. */
  ghost predicate SameReceipts(a: seq<Slot>, b: seq<Slot>) {
    |a| == |b| && forall i :: 0 <= i < |a| ==> a[i].receipt == b[i].receipt
  }

  lemma SameIds(a: seq<Slot>, b: seq<Slot>, id: ReceiptId)
    requires SameReceipts(a, b)
    ensures HasId(a, id) <==> HasId(b, id)
  {
    if HasId(a, id) {
      var i :| 0 <= i < |a| && a[i].receipt.id == id;
      assert b[i].receipt.id == id;
    }
    if HasId(b, id) {
      var i :| 0 <= i < |b| && b[i].receipt.id == id;
      assert a[i].receipt.id == id;
    }
  }

  lemma ProgressIndexed(q: Receipts, t: Receipts)
    requires Indexed(q) && SameReceipts(q.pending, t.pending)
    requires t.identities == q.identities && t.limitReported == q.limitReported
    ensures Indexed(t)
  {
    forall id
      ensures id in t.identities <==> HasId(t.pending, id)
    {
      SameIds(q.pending, t.pending, id);
    }
    forall i, j | 0 <= i < j < |t.pending|
      ensures t.pending[i].receipt.id != t.pending[j].receipt.id
    {
      assert q.pending[i].receipt.id != q.pending[j].receipt.id;
    }
  }
}

/** The worker's use of the queue: one receipt task at a time, completions, retries, lost tasks. */
module ReceiptRuns {
  import opened Common
  import opened ReceiptQueues

  datatype Outcome = Success | TransientFailure | SocketClosed | PermanentFailure

  datatype Note =
    | Enqueued(receipt: Receipt)
    | Refused(reported: bool)
    | Attempted(receipt: Receipt)
    | Left(id: ReceiptId, outcome: Outcome)

  datatype State = State(queue: Receipts, task: Option<Receipt>, notes: seq<Note>)

  function Init(): State { State(NoReceipts(), None, []) }

  datatype Label =
    | EnqueueStep(receipt: Receipt)
    | StartStep
    | FinishStep(outcome: Outcome)
    | TaskLost
    | RetryTick

  predicate Enabled(s: State, a: Label) {
    match a
    case EnqueueStep(_) => true
    case StartStep => s.task.None? && FindReady(s.queue.pending).Some?
    case FinishStep(_) => s.task.Some?
    case TaskLost => s.task.Some?
    case RetryTick => true
  }

  function EnqueueNote(q: Receipts, r: Receipt): seq<Note> {
    if r.id in q.identities then []
    else if Full(q) then [Refused(Reports(q, r))]
    else [Enqueued(r)]
  }

  function Apply(s: State, a: Label): State
    requires Enabled(s, a)
  {
    var q := s.queue;
    match a
    case EnqueueStep(r) => s.(queue := Enqueue(q, r), notes := s.notes + EnqueueNote(q, r))
    case StartStep =>
      var r := q.pending[FindReady(q.pending).value].receipt;
      State(StartNext(q), Some(r), s.notes + [Attempted(r)])
    case FinishStep(outcome) =>
      var id := s.task.value.id;
      (match outcome
       case Success => State(Complete(q, id), None, s.notes + [Left(id, outcome)])
       case PermanentFailure => State(Complete(q, id), None, s.notes + [Left(id, outcome)])
       case TransientFailure => State(Retry(q, id, false), None, s.notes)
       case SocketClosed => State(Retry(q, id, true), None, s.notes))
    case TaskLost => State(ReleaseInFlight(q), None, s.notes)
    case RetryTick => s.(queue := ActivateRetries(q))
  }

  ghost predicate IsRun(states: seq<State>, labels: seq<Label>) {
    && |states| == |labels| + 1
    && states[0] == Init()
    && forall i {:trigger labels[i]} :: 0 <= i < |labels| ==>
         Enabled(states[i], labels[i]) && states[i + 1] == Apply(states[i], labels[i])
  }

  /** The receipt enqueued for an identity that has not left since. */
  ghost function Open(notes: seq<Note>, id: ReceiptId): Option<Receipt> {
    if notes == [] then None
    else
      var n := notes[|notes| - 1];
      if n.Enqueued? && n.receipt.id == id then Some(n.receipt)
      else if n.Left? && n.id == id then None
      else Open(notes[..|notes| - 1], id)
  }

  /** Whether a receipt has been refused since one last left: a saturation episode is on. */
  ghost predicate Saturated(notes: seq<Note>) {
    notes != [] &&
    var n := notes[|notes| - 1];
    n.Refused? || (!n.Left? && Saturated(notes[..|notes| - 1]))
  }

  ghost predicate InFlightAt(s: seq<Slot>, i: nat, r: Receipt) {
    i < |s| && s[i] == Slot(r, InFlight)
  }

  /** The slots in flight are the task's receipt and nothing else. */
  ghost predicate TaskOk(s: State) {
    && (forall i :: 0 <= i < |s.queue.pending| && s.queue.pending[i].progress.InFlight? ==>
          s.task == Some(s.queue.pending[i].receipt))
    && (s.task.Some? ==> exists i :: InFlightAt(s.queue.pending, i, s.task.value))
  }

  /** Pending receipts are exactly the ones enqueued and not left, with their first timestamp. */
  ghost predicate OpenOk(s: State) {
    && (forall i :: 0 <= i < |s.queue.pending| ==>
          Open(s.notes, s.queue.pending[i].receipt.id) == Some(s.queue.pending[i].receipt))
    && forall id :: Open(s.notes, id).Some? ==> id in s.queue.identities
  }

  ghost predicate NoteOk(notes: seq<Note>, i: nat)
    requires i < |notes|
  {
    match notes[i]
    case Attempted(r) => Open(notes[..i], r.id) == Some(r)
    case Enqueued(r) => Open(notes[..i], r.id).None?
    case Refused(reported) => reported <==> !Saturated(notes[..i])
    case Left(id, outcome) => Open(notes[..i], id).Some? && (outcome.Success? || outcome.PermanentFailure?)
  }

  ghost predicate NotesOk(notes: seq<Note>) {
    forall i :: 0 <= i < |notes| ==> NoteOk(notes, i)
  }

  ghost predicate Inv(s: State) {
    && Indexed(s.queue) && TaskOk(s) && OpenOk(s) && NotesOk(s.notes)
    && (s.queue.limitReported <==> Saturated(s.notes))
  }

  lemma NotesAppend(notes: seq<Note>, n: Note, id: ReceiptId)
    ensures Open(notes + [n], id) ==
              if n.Enqueued? && n.receipt.id == id then Some(n.receipt)
              else if n.Left? && n.id == id then None else Open(notes, id)
    ensures Saturated(notes + [n]) <==> n.Refused? || (!n.Left? && Saturated(notes))
  {
    assert (notes + [n])[..|notes|] == notes;
  }

  lemma NotesOkAppend(notes: seq<Note>, n: Note)
    requires NotesOk(notes)
    requires NoteOk(notes + [n], |notes|)
    ensures NotesOk(notes + [n])
  {
    var all := notes + [n];
    forall i | 0 <= i < |all|
      ensures NoteOk(all, i)
    {
      if i < |notes| {
        assert all[..i] == notes[..i];
        assert NoteOk(notes, i);
      }
    }
  }

  lemma EnqueueKeeps(s: State, r: Receipt)
    requires Inv(s)
    ensures Inv(Apply(s, EnqueueStep(r)))
  {
    var t := Apply(s, EnqueueStep(r));
    EnqueueIndexed(s.queue, r);
    if r.id !in s.queue.identities {
      var n := if Full(s.queue) then Refused(Reports(s.queue, r)) else Enqueued(r);
      assert t.notes == s.notes + [n];
      assert t.notes[..|s.notes|] == s.notes;
      NotesOkAppend(s.notes, n);
      forall id
        ensures Open(t.notes, id) == if n.Enqueued? && r.id == id then Some(r) else Open(s.notes, id)
      {
        NotesAppend(s.notes, n, id);
      }
      NotesAppend(s.notes, n, r.id);
      assert forall i :: 0 <= i < |s.queue.pending| ==> t.queue.pending[i] == s.queue.pending[i];
      if s.task.Some? {
        var k := TaskSlot(s);
        assert InFlightAt(t.queue.pending, k, s.task.value);
      }
    } else {
      assert t.notes == s.notes;
    }
  }

  lemma StartKeeps(s: State)
    requires Inv(s) && Enabled(s, StartStep)
    ensures Inv(Apply(s, StartStep))
  {
    var t := Apply(s, StartStep);
    var k := FindReady(s.queue.pending).value;
    var r := s.queue.pending[k].receipt;
    ProgressIndexed(s.queue, t.queue);
    assert t.notes[..|s.notes|] == s.notes;
    NotesOkAppend(s.notes, Attempted(r));
    forall id
      ensures Open(t.notes, id) == Open(s.notes, id)
    {
      NotesAppend(s.notes, Attempted(r), id);
    }
    NotesAppend(s.notes, Attempted(r), r.id);
    assert InFlightAt(t.queue.pending, k, r);
    assert forall i :: 0 <= i < |s.queue.pending| && i != k ==> t.queue.pending[i] == s.queue.pending[i];
  }

  /** The task's receipt is in the slot that its identity leads to. */
  lemma TaskSlot(s: State) returns (k: nat)
    requires Indexed(s.queue) && TaskOk(s) && s.task.Some?
    ensures Find(s.queue.pending, s.task.value.id) == Some(k)
    ensures InFlightAt(s.queue.pending, k, s.task.value)
    ensures forall i :: 0 <= i < |s.queue.pending| && s.queue.pending[i].progress.InFlight? ==> i == k
  {
    k :| InFlightAt(s.queue.pending, k, s.task.value);
    var f := Find(s.queue.pending, s.task.value.id);
    assert s.queue.pending[k].receipt.id == s.task.value.id;
    assert s.queue.pending[f.value].receipt.id == s.task.value.id;
    assert f.value == k;
  }

  lemma LeaveNotes(s: State, outcome: Outcome)
    requires Inv(s) && s.task.Some? && (outcome.Success? || outcome.PermanentFailure?)
    ensures var notes := s.notes + [Left(s.task.value.id, outcome)];
            && NotesOk(notes) && !Saturated(notes)
            && forall id :: Open(notes, id) == if id == s.task.value.id then None else Open(s.notes, id)
  {
    var id0 := s.task.value.id;
    var k := TaskSlot(s);
    var n := Left(id0, outcome);
    assert (s.notes + [n])[..|s.notes|] == s.notes;
    assert Open(s.notes, s.queue.pending[k].receipt.id).Some?;
    NotesOkAppend(s.notes, n);
    forall id
      ensures Open(s.notes + [n], id) == if id == id0 then None else Open(s.notes, id)
    {
      NotesAppend(s.notes, n, id);
    }
    NotesAppend(s.notes, n, id0);
  }

  lemma LeaveKeeps(s: State, outcome: Outcome)
    requires Inv(s) && s.task.Some? && (outcome.Success? || outcome.PermanentFailure?)
    ensures Inv(Apply(s, FinishStep(outcome)))
  {
    var t := Apply(s, FinishStep(outcome));
    var id0 := s.task.value.id;
    CompleteIndexed(s.queue, id0);
    LeaveNotes(s, outcome);
    var k := TaskSlot(s);
    assert t.queue.pending == RemoveAt(s.queue.pending, k);
    forall i | 0 <= i < |t.queue.pending|
      ensures !t.queue.pending[i].progress.InFlight?
      ensures Open(t.notes, t.queue.pending[i].receipt.id) == Some(t.queue.pending[i].receipt)
    {
      var j := if i < k then i else i + 1;
      assert t.queue.pending[i] == s.queue.pending[j];
      assert s.queue.pending[j].receipt.id != s.queue.pending[k].receipt.id;
    }
  }

  /** Steps after which the same receipts are pending and nothing new is noted. */
  lemma StayKeeps(s: State, t: State)
    requires Inv(s) && SameReceipts(s.queue.pending, t.queue.pending) && t.notes == s.notes
    requires t.queue.identities == s.queue.identities && t.queue.limitReported == s.queue.limitReported
    requires TaskOk(t)
    ensures Inv(t)
  {
    ProgressIndexed(s.queue, t.queue);
    forall i | 0 <= i < |t.queue.pending|
      ensures Open(t.notes, t.queue.pending[i].receipt.id) == Some(t.queue.pending[i].receipt)
    {
      assert t.queue.pending[i].receipt == s.queue.pending[i].receipt;
    }
  }

  lemma RequeueKeeps(s: State, outcome: Outcome)
    requires Inv(s) && s.task.Some? && (outcome.TransientFailure? || outcome.SocketClosed?)
    ensures Inv(Apply(s, FinishStep(outcome)))
  {
    var t := Apply(s, FinishStep(outcome));
    var k := TaskSlot(s);
    assert forall i :: 0 <= i < |s.queue.pending| && i != k ==> t.queue.pending[i] == s.queue.pending[i];
    StayKeeps(s, t);
  }

  lemma ResetKeeps(s: State, a: Label)
    requires Inv(s) && Enabled(s, a) && (a.TaskLost? || a.RetryTick?)
    ensures Inv(Apply(s, a))
  {
    var t := Apply(s, a);
    if a.RetryTick? && s.task.Some? {
      var k := TaskSlot(s);
      assert InFlightAt(t.queue.pending, k, s.task.value);
    }
    StayKeeps(s, t);
  }

  lemma {:induction false} RunInvariant(states: seq<State>, labels: seq<Label>, k: nat)
    requires IsRun(states, labels) && k < |states|
    ensures Inv(states[k])
  {
    if k > 0 {
      RunInvariant(states, labels, k - 1);
      var s, a := states[k - 1], labels[k - 1];
      match a {
        case EnqueueStep(r) => EnqueueKeeps(s, r);
        case StartStep => StartKeeps(s);
        case FinishStep(Success) => LeaveKeeps(s, Success);
        case FinishStep(PermanentFailure) => LeaveKeeps(s, PermanentFailure);
        case FinishStep(outcome) => RequeueKeeps(s, outcome);
        case _ => ResetKeeps(s, a);
      }
    }
  }

  // ----- theorems over every run before shutdown -----

  /** The queue is exactly what was enqueued and has not left: distinct identities, equal to the
      identity set, at most 4096, each with the timestamp it was enqueued with. */
  lemma ReceiptsConserved(states: seq<State>, labels: seq<Label>, k: nat, id: ReceiptId)
    requires IsRun(states, labels) && k < |states|
    ensures |states[k].queue.pending| <= MAX_PENDING_DELIVERY_RECEIPTS
    ensures id in states[k].queue.identities <==> Open(states[k].notes, id).Some?
    ensures id in states[k].queue.identities ==>
              exists i :: 0 <= i < |states[k].queue.pending|
                          && states[k].queue.pending[i].receipt == Open(states[k].notes, id).value
    ensures forall i, j :: 0 <= i < j < |states[k].queue.pending| ==>
              states[k].queue.pending[i].receipt.id != states[k].queue.pending[j].receipt.id
  {
    RunInvariant(states, labels, k);
    var q := states[k].queue;
    if id in q.identities {
      assert HasId(q.pending, id);
      var i :| 0 <= i < |q.pending| && q.pending[i].receipt.id == id;
      assert Open(states[k].notes, id) == Some(q.pending[i].receipt);
    }
  }

  /** Entries in flight are the live receipt tasks: at most one of either. */
  lemma InFlightIsTheTask(states: seq<State>, labels: seq<Label>, k: nat, i: nat)
    requires IsRun(states, labels) && k < |states| && i < |states[k].queue.pending|
    ensures states[k].queue.pending[i].progress.InFlight? <==> states[k].task == Some(states[k].queue.pending[i].receipt)
  {
    RunInvariant(states, labels, k);
    var s := states[k];
    if s.task == Some(s.queue.pending[i].receipt) {
      var k := TaskSlot(s);
      assert s.queue.pending[i].receipt.id == s.queue.pending[k].receipt.id;
    }
  }

  /** A receipt leaves only by success or permanent failure, every attempt carries the timestamp
      it was enqueued with, and a refusal is reported exactly when it opens a saturation episode. */
  lemma NotesMeanWhatTheySay(states: seq<State>, labels: seq<Label>, k: nat, i: nat)
    requires IsRun(states, labels) && k < |states| && i < |states[k].notes|
    ensures var notes := states[k].notes;
            && (notes[i].Left? ==> notes[i].outcome.Success? || notes[i].outcome.PermanentFailure?)
            && (notes[i].Attempted? ==> Open(notes[..i], notes[i].receipt.id) == Some(notes[i].receipt))
            && (notes[i].Refused? ==> (notes[i].reported <==> !Saturated(notes[..i])))
  {
    RunInvariant(states, labels, k);
    assert NoteOk(states[k].notes, i);
  }

  // ----- when a receipt is tried again -----

  ghost predicate InProgress(s: State, id: ReceiptId, p: Progress) {
    exists i :: 0 <= i < |s.queue.pending| && s.queue.pending[i].receipt.id == id && s.queue.pending[i].progress == p
  }

  /** A new receipt is queued exactly while fewer than 4096 are, and at once ready. */
  lemma EnqueuedIff(states: seq<State>, labels: seq<Label>, k: nat)
    requires IsRun(states, labels) && k < |labels| && labels[k].EnqueueStep?
    requires labels[k].receipt.id !in states[k].queue.identities
    ensures labels[k].receipt.id in states[k + 1].queue.identities <==>
            |states[k].queue.pending| < MAX_PENDING_DELIVERY_RECEIPTS
    ensures labels[k].receipt.id in states[k + 1].queue.identities ==>
            InProgress(states[k + 1], labels[k].receipt.id, Ready)
  {
    var t, n := states[k + 1], |states[k].queue.pending|;
    if labels[k].receipt.id in t.queue.identities {
      assert t.queue.pending[n] == Slot(labels[k].receipt, Ready);
    }
  }

  /** After a closed socket, and after a lost task, the receipt is ready at once; after a transient
      failure it is deferred. */
  lemma RetryProgress(states: seq<State>, labels: seq<Label>, k: nat)
    requires IsRun(states, labels) && k < |labels| && states[k].task.Some?
    requires labels[k] == FinishStep(SocketClosed) || labels[k] == FinishStep(TransientFailure) || labels[k].TaskLost?
    ensures InProgress(states[k + 1], states[k].task.value.id,
                       if labels[k] == FinishStep(TransientFailure) then Deferred else Ready)
  {
    RunInvariant(states, labels, k);
    var i := TaskSlot(states[k]);
    assert states[k + 1] == Apply(states[k], labels[k]);
    assert states[k + 1].queue.pending[i].receipt.id == states[k].task.value.id;
  }

  /** A ready receipt makes the next start possible, and the earliest ready one is started. */
  lemma ReadyStarts(states: seq<State>, labels: seq<Label>, k: nat, i: nat)
    requires IsRun(states, labels) && k < |states| && states[k].task.None?
    requires i < |states[k].queue.pending| && states[k].queue.pending[i].progress.Ready?
    requires forall j :: 0 <= j < i ==> !states[k].queue.pending[j].progress.Ready?
    ensures Enabled(states[k], StartStep)
    ensures Apply(states[k], StartStep).task == Some(states[k].queue.pending[i].receipt)
  {
  }

  ghost predicate DeferredAt(pending: seq<Slot>, i: int, id: ReceiptId) {
    0 <= i < |pending| && pending[i].receipt.id == id && pending[i].progress == Deferred
  }

  lemma DeferredLeave(q: Receipts, i: nat, k: nat, id: ReceiptId)
    requires DeferredAt(q.pending, i, id) && k < |q.pending| && k != i
    ensures DeferredAt(RemoveAt(q.pending, k), if i < k then i else i - 1, id)
  {
  }

  lemma DeferredFinish(s: State, outcome: Outcome, i: nat, id: ReceiptId) returns (j: int)
    requires Indexed(s.queue) && TaskOk(s) && s.task.Some? && DeferredAt(s.queue.pending, i, id)
    ensures DeferredAt(Apply(s, FinishStep(outcome)).queue.pending, j, id)
  {
    var k := TaskSlot(s);
    j := i;
    if outcome.Success? || outcome.PermanentFailure? {
      DeferredLeave(s.queue, i, k, id);
      j := if i < k then i else i - 1;
    }
  }

  lemma DeferredStart(q: Receipts, i: nat, id: ReceiptId)
    requires DeferredAt(q.pending, i, id)
    ensures DeferredAt(StartNext(q).pending, i, id)
  {
  }

  lemma DeferredStep(s: State, a: Label, id: ReceiptId)
    requires Inv(s) && Enabled(s, a) && !a.RetryTick? && InProgress(s, id, Deferred)
    ensures InProgress(Apply(s, a), id, Deferred)
  {
    var i :| 0 <= i < |s.queue.pending| && s.queue.pending[i].receipt.id == id && s.queue.pending[i].progress == Deferred;
    assert DeferredAt(s.queue.pending, i, id);
    var j := i;
    if a.FinishStep? {
      j := DeferredFinish(s, a.outcome, i, id);
    } else if a.StartStep? {
      DeferredStart(s.queue, i, id);
    }
    assert DeferredAt(Apply(s, a).queue.pending, j, id);
  }

  /** A deferred receipt stays deferred, and so is not started, until the retry timer ticks. */
  lemma {:induction false} DeferredUntilTick(states: seq<State>, labels: seq<Label>, k: nat, j: nat, id: ReceiptId)
    requires IsRun(states, labels) && k <= j < |states| && InProgress(states[k], id, Deferred)
    requires forall i :: k <= i < j ==> !labels[i].RetryTick?
    ensures InProgress(states[j], id, Deferred)
    ensures states[j].task.Some? ==> states[j].task.value.id != id
    decreases j - k
  {
    RunInvariant(states, labels, j);
    if k < j {
      DeferredUntilTick(states, labels, k, j - 1, id);
      RunInvariant(states, labels, j - 1);
      DeferredStep(states[j - 1], labels[j - 1], id);
    }
    if states[j].task.Some? {
      var n := TaskSlot(states[j]);
    }
  }

  /** The tick makes every deferred receipt ready. */
  lemma TickReadies(states: seq<State>, labels: seq<Label>, k: nat, id: ReceiptId)
    requires IsRun(states, labels) && k < |labels| && labels[k].RetryTick? && InProgress(states[k], id, Deferred)
    ensures InProgress(states[k + 1], id, Ready)
  {
    var q := states[k].queue;
    var i :| 0 <= i < |q.pending| && q.pending[i].receipt.id == id && q.pending[i].progress == Deferred;
    assert states[k + 1].queue.pending[i] == Slot(q.pending[i].receipt, Ready);
  }
}

/** The receipt queue object. */
module ReceiptObject {
  import opened Common
  import opened ReceiptQueues

  class DeliveryReceiptQueue {
    var pending: seq<Slot>
    var identities: set<ReceiptId>
    var limitReported: bool

    function Value(): Receipts
      reads this
    {
      Receipts(pending, identities, limitReported)
    }

    constructor ()
      ensures Value() == NoReceipts()
    {
      pending, identities, limitReported := [], {}, false;
    }

    method Add(r: Receipt) returns (shouldReport: bool)
      modifies this
      ensures shouldReport == Reports(old(Value()), r)
      ensures Value() == Enqueue(old(Value()), r)
      ensures shouldReport <==>
              r.id !in old(identities) && |old(pending)| >= MAX_PENDING_DELIVERY_RECEIPTS && !old(limitReported)
      ensures pending == old(pending) + if r.id !in old(identities) && |old(pending)| < MAX_PENDING_DELIVERY_RECEIPTS
                                        then [Slot(r, Ready)] else []
    {
      if r.id in identities {
        return false;
      }
      if |pending| >= MAX_PENDING_DELIVERY_RECEIPTS {
        shouldReport := !limitReported;
        limitReported := true;
        return;
      }
      identities := identities + {r.id};
      pending := pending + [Slot(r, Ready)];
      return false;
    }

    method Start(sessionReady: bool) returns (next: Option<Receipt>)
      modifies this`pending
      ensures !sessionReady ==> next.None? && Value() == old(Value())
      ensures sessionReady ==> Value() == StartNext(old(Value()))
      ensures sessionReady ==> (next.Some? <==> FindReady(old(pending)).Some?)
      ensures next.Some? ==> next.value == old(pending)[FindReady(old(pending)).value].receipt
    {
      if !sessionReady {
        return None;
      }
      var i := 0;
      while i < |pending|
        invariant 0 <= i <= |pending| && pending == old(pending)
        invariant forall j :: 0 <= j < i ==> !pending[j].progress.Ready?
      {
        if pending[i].progress.Ready? {
          assert FindReady(pending) == Some(i);
          pending := pending[i := pending[i].(progress := InFlight)];
          return Some(pending[i].receipt);
        }
        i := i + 1;
      }
      return None;
    }

    /** `iter().position(...)` by identity. */
    method Position(id: ReceiptId) returns (index: Option<nat>)
      ensures index == Find(pending, id)
    {
      var i := 0;
      while i < |pending|
        invariant 0 <= i <= |pending|
        invariant Find(pending, id) == if Find(pending[i..], id).None? then None else Some(i + Find(pending[i..], id).value)
      {
        assert pending[i..][1..] == pending[i + 1..];
        if pending[i].receipt.id == id {
          return Some(i);
        }
        i := i + 1;
      }
      return None;
    }

    method Finish(id: ReceiptId)
      modifies this
      ensures Value() == Complete(old(Value()), id)
    {
      var index := Position(id);
      if index.None? {
        return;
      }
      pending := RemoveAt(pending, index.value);
      identities := identities - {id};
      if |pending| < MAX_PENDING_DELIVERY_RECEIPTS {
        limitReported := false;
      }
    }

    method RetryReceipt(id: ReceiptId, immediately: bool)
      modifies this`pending
      ensures Value() == Retry(old(Value()), id, immediately)
      ensures Find(old(pending), id).Some? ==>
              var i := Find(old(pending), id).value;
              pending == old(pending)[i := Slot(old(pending)[i].receipt, if immediately then Ready else Deferred)]
    {
      var index := Position(id);
      if index.Some? {
        pending := pending[index.value := pending[index.value].(progress := if immediately then Ready else Deferred)];
      }
    }

    method ResetAll(from: Progress)
      modifies this`pending
      ensures pending == Reset(old(pending), from)
    {
      var i := 0;
      while i < |pending|
        invariant 0 <= i <= |pending| == |old(pending)|
        invariant forall j :: 0 <= j < i ==> pending[j] == Reset(old(pending), from)[j]
        invariant forall j :: i <= j < |pending| ==> pending[j] == old(pending)[j]
      {
        if pending[i].progress == from {
          pending := pending[i := pending[i].(progress := Ready)];
        }
        i := i + 1;
      }
    }
  }
}
