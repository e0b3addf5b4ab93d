/** What the host is told about each outgoing attachment: the worker's dispatch loop, the
    attachment tasks, recovery and shutdown cleanup with its time limit, and the host thread
    cancelling concurrently. */
module AttachmentOutcomes {
  import opened Common
  import opened AttachmentAdmissions

  datatype TaskResult = Delivered | Failed | Cancelled

  /** Where a request is: in the command queue, in a task, in the join set with its result (or
      without one when the task was aborted), taken out by the cleanup, or nowhere. */
  datatype Stage =
    | Queued
    | Running
    | Joinable(result: Option<TaskResult>)
    | Collected(result: Option<TaskResult>)
    | Gone

  datatype Terminal = SentEvent | ErrorEvent

  datatype Request = Request(
    cell: Lifecycle,
    stage: Stage,
    started: bool,
    controlled: bool,          // its control is in `attachment_aborts`
    raced: bool,               // cancelled between the two reads of `interrupted_attachment_event`
    taken: bool,               // the network took the message
    confirmed: bool,           // and the send returned Ok
    lost: bool,                // but that result was dropped before it was reported
    events: seq<Terminal>)

  function Fresh(): Request { Request(ActiveCell, Queued, false, false, false, false, false, false, []) }

  /** Cleanup runs through draining the join set, settling completions and interrupting what is
      left; `last` when the worker then stops. `checked` is a request found not cancelled whose
      error event is about to be emitted. */
  datatype Mode =
    | Dispatching
    | Draining(last: bool)
    | Settling(last: bool)
    | Interrupting(last: bool, checked: Option<RequestId>)
    | Down

  datatype State = State(requests: map<RequestId, Request>, cancelling: set<RequestId>, mode: Mode)

  function Init(): State { State(map[], {}, Dispatching) }

  datatype Label =
    | Admit(id: RequestId)
    | CancelLookup(id: RequestId)
    | CancelExchange(id: RequestId)
    | Start(id: RequestId)
    | SkipCancelled(id: RequestId)
    | Refuse(id: RequestId)
    | DropQueued(id: RequestId)
    | NetworkTakes(id: RequestId)
    | TaskReturns(id: RequestId, ok: bool)
    | TaskSeesAbort(id: RequestId)
    | TaskDies(id: RequestId)
    | Join(id: RequestId)
    | JoinLost(id: RequestId)
    | BeginCleanup(last: bool)
    | Collect(id: RequestId)
    | Settle(id: RequestId)
    | DrainDone
    | SettleDone
    | TimeOut
    | InterruptCheck(id: RequestId)
    | InterruptEmit
    | CleanupDone

  predicate InStage(s: State, id: RequestId, stage: Stage) {
    id in s.requests && s.requests[id].stage == stage
  }

  predicate IsJoinable(s: State, id: RequestId) {
    id in s.requests && s.requests[id].stage.Joinable?
  }

  predicate IsCollected(s: State, id: RequestId) {
    id in s.requests && s.requests[id].stage.Collected?
  }

  ghost predicate NoneInTasks(s: State) {
    forall id :: id in s.requests ==> !s.requests[id].stage.Running? && !s.requests[id].stage.Joinable?
  }

  ghost predicate NoneCollected(s: State) {
    forall id :: id in s.requests ==> !s.requests[id].stage.Collected?
  }

  ghost predicate NoneControlled(s: State) {
    forall id :: id in s.requests ==> !s.requests[id].controlled
  }

  ghost predicate Enabled(s: State, a: Label) {
    match a
    case Admit(id) => id !in s.requests
    case CancelLookup(id) => id in s.requests && (!s.requests[id].stage.Gone? || s.requests[id].controlled)
    case CancelExchange(id) => id in s.cancelling && id in s.requests
    case Start(id) => s.mode.Dispatching? && InStage(s, id, Queued) && !s.requests[id].cell.CancelledCell?
    case SkipCancelled(id) => s.mode.Dispatching? && InStage(s, id, Queued) && s.requests[id].cell.CancelledCell?
    case Refuse(id) => InStage(s, id, Queued)
    case DropQueued(id) => s.mode.Down? && InStage(s, id, Queued)
    case NetworkTakes(id) => InStage(s, id, Running)
    case TaskReturns(id, ok) => InStage(s, id, Running) && (ok ==> s.requests[id].taken)
    case TaskSeesAbort(id) => InStage(s, id, Running) && s.requests[id].cell.CancelledCell?
    case TaskDies(id) => InStage(s, id, Running)
    case Join(id) => s.mode.Dispatching? && IsJoinable(s, id)
    case JoinLost(id) => s.mode.Dispatching? && IsJoinable(s, id)
    case BeginCleanup(_) => s.mode.Dispatching?
    case Collect(id) => s.mode.Draining? && IsJoinable(s, id)
    case Settle(id) => s.mode.Settling? && IsCollected(s, id)
    case DrainDone => s.mode.Draining? && NoneInTasks(s)
    case SettleDone => s.mode.Settling? && NoneCollected(s)
    case TimeOut => s.mode.Draining?
    case InterruptCheck(id) =>
      s.mode.Interrupting? && s.mode.checked.None? && id in s.requests && s.requests[id].controlled
    case InterruptEmit => s.mode.Interrupting? && s.mode.checked.Some? && s.mode.checked.value in s.requests
    case CleanupDone => s.mode.Interrupting? && s.mode.checked.None? && NoneControlled(s)
  }

  function Put(s: State, id: RequestId, r: Request): State {
    s.(requests := s.requests[id := r])
  }

  /** `attachment_task_result`: the result is reported if the claim wins or the send succeeded. */
  function Return(r: Request, ok: bool): Request {
    var result := if ok then Delivered else if r.cell.ActiveCell? then Failed else Cancelled;
    r.(cell := Exchange(r.cell, TerminalCell), stage := Joinable(Some(result)), confirmed := ok)
  }

  /** `finish_attachment_completion`: an aborted task leaves its control in place. */
  function Finish(r: Request, result: Option<TaskResult>): Request {
    match result
    case None => r.(stage := Gone)
    case Some(Delivered) => r.(stage := Gone, controlled := false, events := r.events + [SentEvent])
    case Some(Failed) => r.(stage := Gone, controlled := false, events := r.events + [ErrorEvent])
    case Some(Cancelled) => r.(stage := Gone, controlled := false)
  }

  /** A queued request that will not be started is reported only if the claim wins. */
  function Refused(r: Request): Request {
    r.(cell := Exchange(r.cell, TerminalCell), stage := Gone,
       events := if r.cell.ActiveCell? then r.events + [ErrorEvent] else r.events)
  }

  /** The task has reported a delivery that nobody has passed on yet. */
  predicate HoldsDelivery(r: Request) {
    (r.stage.Joinable? || r.stage.Collected?) && r.stage.result == Some(Delivered)
  }

  /** A result that is dropped unread. */
  function Drop(r: Request): Request {
    r.(stage := Gone, lost := r.lost || HoldsDelivery(r))
  }

  /** Dropping the join set and the collected completions at the time limit. */
  function Abandon(r: Request): Request {
    if r.stage.Queued? then r else Drop(r)
  }

  ghost function Apply(s: State, a: Label): State
    requires Enabled(s, a)
  {
    match a
    case Admit(id) => Put(s, id, Fresh())
    case CancelLookup(id) => s.(cancelling := s.cancelling + {id})
    case CancelExchange(id) =>
      var r := s.requests[id];
      var wins := r.cell.ActiveCell?;
      Put(s, id, r.(cell := Exchange(r.cell, CancelledCell),
                    raced := r.raced || (wins && s.mode.Interrupting? && s.mode.checked == Some(id))))
      .(cancelling := s.cancelling - {id})
    case Start(id) => Put(s, id, s.requests[id].(stage := Running, started := true, controlled := true))
    case SkipCancelled(id) => Put(s, id, s.requests[id].(stage := Gone))
    case Refuse(id) => Put(s, id, Refused(s.requests[id]))
    case DropQueued(id) => Put(s, id, s.requests[id].(stage := Gone))
    case NetworkTakes(id) => Put(s, id, s.requests[id].(taken := true))
    case TaskReturns(id, ok) => Put(s, id, Return(s.requests[id], ok))
    case TaskSeesAbort(id) => Put(s, id, s.requests[id].(stage := Joinable(Some(Cancelled))))
    case TaskDies(id) => Put(s, id, s.requests[id].(stage := Joinable(None)))
    case Join(id) => Put(s, id, Finish(s.requests[id], s.requests[id].stage.result))
    case JoinLost(id) => Put(s, id, Drop(s.requests[id])).(mode := Draining(true))
    case BeginCleanup(last) => s.(mode := Draining(last))
    case Collect(id) => Put(s, id, s.requests[id].(stage := Collected(s.requests[id].stage.result)))
    case Settle(id) => Put(s, id, Finish(s.requests[id], s.requests[id].stage.result))
    case DrainDone => s.(mode := Settling(s.mode.last))
    case SettleDone => s.(mode := Interrupting(s.mode.last, None))
    case TimeOut =>
      s.(requests := map id | id in s.requests :: Abandon(s.requests[id]), mode := Interrupting(s.mode.last, None))
    case InterruptCheck(id) =>
      var r := s.requests[id];
      var t := Put(s, id, r.(controlled := false));
      if r.cell.CancelledCell? then t else t.(mode := s.mode.(checked := Some(id)))
    case InterruptEmit =>
      var id := s.mode.checked.value;
      var r := s.requests[id];
      Put(s, id, r.(cell := Exchange(r.cell, TerminalCell), events := r.events + [ErrorEvent]))
      .(mode := s.mode.(checked := None))
    case CleanupDone => s.(mode := if s.mode.last then Down else Dispatching)
  }

  ghost predicate IsRun(states: seq<State>, labels: seq<Label>) {
    && |states| == |labels| + 1
    && states[0] == Init()
    && forall i {:trigger labels[i]} :: 0 <= i < |labels| ==>
         Enabled(states[i], labels[i]) && states[i + 1] == Apply(states[i], labels[i])
  }

  // ----- invariants, request by request -----

  /** Its error event is due: the control was taken and found not cancelled. */
  predicate Due(m: Mode, id: RequestId) {
    m.Interrupting? && m.checked == Some(id)
  }

  ghost predicate QueuedOk(r: Request) {
    r.stage.Queued? ==> !r.started && !r.controlled && r.events == [] && !r.cell.TerminalCell?
  }

  ghost predicate InTask(r: Request) {
    r.stage.Running? || r.stage.Joinable? || r.stage.Collected?
  }

  ghost predicate TaskOk(r: Request) {
    && (InTask(r) ==> r.started && r.controlled)
    && (r.stage.Running? ==> !r.cell.TerminalCell?)
    && (r.stage.Joinable? || r.stage.Collected? ==>
          && (r.stage.result.Some? ==> !r.cell.ActiveCell?)
          && (r.stage.result == Some(Failed) ==> r.cell.TerminalCell?)
          && (r.stage.result == Some(Cancelled) ==> r.cell.CancelledCell?))
  }

  /** Controlled requests have no event yet; the others have their one event, unless they were
      cancelled, never started, or are due. */
  ghost predicate EventsOk(r: Request, due: bool) {
    && |r.events| <= 1
    && (r.events != [] ==> !r.cell.ActiveCell?)
    && (r.controlled ==> r.started && r.events == [])
    && (due ==> r.started && !r.controlled && r.stage.Gone? && r.events == [])
    && (r.started && !r.controlled && !due && r.events == [] ==> r.cell.CancelledCell?)
  }

  ghost predicate RaceOk(r: Request, due: bool) {
    && (r.raced ==> r.cell.CancelledCell?)
    && (r.raced && !due ==> r.events == [ErrorEvent])
    && (due && r.cell.CancelledCell? ==> r.raced)
    && (ErrorEvent in r.events && r.cell.CancelledCell? ==> r.raced)
  }

  /** A confirmed message is on its way to be reported as sent, has been, or was lost. */
  ghost predicate DeliveryOk(r: Request, due: bool) {
    && (r.taken ==> r.started)
    && (r.confirmed ==> r.taken)
    && (r.lost ==> r.confirmed && r.stage.Gone?)
    && (HoldsDelivery(r) ==> r.confirmed)
    && (r.confirmed ==> !r.cell.ActiveCell? && !r.raced && (HoldsDelivery(r) || r.stage.Gone?))
    && (r.confirmed && r.stage.Gone? && !r.lost ==> r.events == [SentEvent] && !r.controlled && !due)
    && (SentEvent in r.events ==> r.confirmed && !r.lost)
  }

  ghost predicate RequestOk(r: Request, due: bool) {
    QueuedOk(r) && TaskOk(r) && EventsOk(r, due) && RaceOk(r, due) && DeliveryOk(r, due)
  }

  ghost predicate ModeOk(s: State) {
    && (s.mode.Settling? ==> NoneInTasks(s))
    && (s.mode.Interrupting? ==> NoneInTasks(s) && NoneCollected(s))
    && (s.mode.Dispatching? ==> NoneCollected(s))
    && (s.mode.Down? ==> NoneControlled(s))
    && (s.mode.Interrupting? && s.mode.checked.Some? ==> s.mode.checked.value in s.requests)
  }

  ghost predicate Inv(s: State) {
    && ModeOk(s)
    && forall id :: id in s.requests ==> RequestOk(s.requests[id], Due(s.mode, id))
  }

  /** A step that changes one request and not the mode. */
  lemma OneKeeps(s: State, t: State, id: RequestId, r: Request)
    requires Inv(s) && id in s.requests && t.mode == s.mode && t.requests == s.requests[id := r]
    requires RequestOk(r, Due(s.mode, id))
    requires r.stage.Running? || r.stage.Joinable? ==> InTask(s.requests[id]) || s.mode.Dispatching?
    requires s.mode.Settling? || s.mode.Interrupting? ==> !r.stage.Running? && !r.stage.Joinable?
    requires r.stage.Collected? ==> s.mode.Draining? || s.mode.Settling?
    requires s.mode.Down? ==> !r.controlled
    ensures Inv(t)
  {
  }

  lemma CancelKeeps(s: State, a: Label)
    requires Inv(s) && Enabled(s, a) && (a.Admit? || a.CancelLookup? || a.CancelExchange?)
    ensures Inv(Apply(s, a))
  {
    if a.CancelExchange? {
      var t := Apply(s, a);
      OneKeeps(s, t, a.id, t.requests[a.id]);
    }
  }

  lemma QueueKeeps(s: State, a: Label)
    requires Inv(s) && Enabled(s, a) && (a.Start? || a.SkipCancelled? || a.Refuse? || a.DropQueued?)
    ensures Inv(Apply(s, a))
  {
    var t := Apply(s, a);
    OneKeeps(s, t, a.id, t.requests[a.id]);
  }

  lemma TaskKeeps(s: State, a: Label)
    requires Inv(s) && Enabled(s, a) && (a.NetworkTakes? || a.TaskReturns? || a.TaskSeesAbort? || a.TaskDies?)
    ensures Inv(Apply(s, a))
  {
    var t := Apply(s, a);
    OneKeeps(s, t, a.id, t.requests[a.id]);
  }

  lemma JoinKeeps(s: State, a: Label)
    requires Inv(s) && Enabled(s, a) && (a.Join? || a.Collect? || a.Settle?)
    ensures Inv(Apply(s, a))
  {
    var t := Apply(s, a);
    OneKeeps(s, t, a.id, t.requests[a.id]);
  }

  lemma JoinLostKeeps(s: State, id: RequestId)
    requires Inv(s) && Enabled(s, JoinLost(id))
    ensures Inv(Apply(s, JoinLost(id)))
  {
    DropKeeps(s.requests[id]);
    ModeKeeps(s, s.(mode := Draining(true)));
    OneKeeps(s.(mode := Draining(true)), Apply(s, JoinLost(id)), id, Drop(s.requests[id]));
  }

  lemma DropKeeps(r: Request)
    requires RequestOk(r, false) && InTask(r)
    ensures RequestOk(Drop(r), false)
  {
  }

  /** Leaving the dispatch loop changes nothing about any request. */
  lemma ModeKeeps(s: State, t: State)
    requires Inv(s) && s.mode.Dispatching? && t.mode.Draining? && t.requests == s.requests
    ensures Inv(t)
  {
  }

  lemma CleanupKeeps(s: State, a: Label)
    requires Inv(s) && Enabled(s, a)
    requires a.BeginCleanup? || a.DrainDone? || a.SettleDone? || a.TimeOut? || a.CleanupDone?
    ensures Inv(Apply(s, a))
  {
    var t := Apply(s, a);
    if a.TimeOut? {
      forall id | id in t.requests
        ensures RequestOk(t.requests[id], Due(t.mode, id))
      {
        assert RequestOk(s.requests[id], false);
      }
    }
  }

  lemma InterruptKeeps(s: State, a: Label)
    requires Inv(s) && Enabled(s, a) && (a.InterruptCheck? || a.InterruptEmit?)
    ensures Inv(Apply(s, a))
  {
    var t := Apply(s, a);
    forall id | id in t.requests
      ensures RequestOk(t.requests[id], Due(t.mode, id))
    {
      assert RequestOk(s.requests[id], Due(s.mode, id));
    }
  }

  lemma StepKeeps(s: State, a: Label)
    requires Inv(s) && Enabled(s, a)
    ensures Inv(Apply(s, a))
  {
    match a {
      case Admit(_) => CancelKeeps(s, a);
      case CancelLookup(_) => CancelKeeps(s, a);
      case CancelExchange(_) => CancelKeeps(s, a);
      case NetworkTakes(_) => TaskKeeps(s, a);
      case TaskReturns(_, _) => TaskKeeps(s, a);
      case TaskSeesAbort(_) => TaskKeeps(s, a);
      case TaskDies(_) => TaskKeeps(s, a);
      case Join(_) => JoinKeeps(s, a);
      case JoinLost(id) => JoinLostKeeps(s, id);
      case Collect(_) => JoinKeeps(s, a);
      case Settle(_) => JoinKeeps(s, a);
      case InterruptCheck(_) => InterruptKeeps(s, a);
      case InterruptEmit => InterruptKeeps(s, a);
      case Start(_) => QueueKeeps(s, a);
      case SkipCancelled(_) => QueueKeeps(s, a);
      case Refuse(_) => QueueKeeps(s, a);
      case DropQueued(_) => QueueKeeps(s, a);
      case _ => CleanupKeeps(s, a);
    }
  }

  lemma {:induction false} RunInvariant(states: seq<State>, labels: seq<Label>, k: nat)
    requires IsRun(states, labels) && k < |states|
    ensures Inv(states[k])
  {
    if k > 0 {
      RunInvariant(states, labels, k - 1);
      StepKeeps(states[k - 1], labels[k - 1]);
    }
  }

  // ----- theorems over every run -----

  /** Each admitted request gets at most one terminal event. */
  lemma AtMostOneTerminalEvent(states: seq<State>, labels: seq<Label>, k: nat, id: RequestId)
    requires IsRun(states, labels) && k < |states| && id in states[k].requests
    ensures |states[k].requests[id].events| <= 1
  {
    RunInvariant(states, labels, k);
  }

  /** A started request that no cancellation won gets exactly one terminal event, whichever of
      completion, task abort, recovery or timed-out cleanup ends it: once its control is gone
      and no event is due, the event has been emitted. */
  lemma StartedGetsOneEvent(states: seq<State>, labels: seq<Label>, k: nat, id: RequestId)
    requires IsRun(states, labels) && k < |states| && id in states[k].requests
    requires var r := states[k].requests[id];
             r.started && !r.cell.CancelledCell? && !r.controlled && !Due(states[k].mode, id)
    ensures |states[k].requests[id].events| == 1
  {
    RunInvariant(states, labels, k);
  }

  /** Cleanup leaves nobody behind: when it returns to dispatching, and when the worker is down,
      every started and never cancelled request has its one event. */
  lemma CleanupSettlesEveryone(states: seq<State>, labels: seq<Label>, k: nat, id: RequestId)
    requires IsRun(states, labels) && k < |states| && id in states[k].requests
    requires states[k].mode.Down? || (0 < k && labels[k - 1].CleanupDone?)
    requires states[k].requests[id].started && !states[k].requests[id].cell.CancelledCell?
    ensures |states[k].requests[id].events| == 1
  {
    RunInvariant(states, labels, k);
    if !states[k].mode.Down? {
      assert Enabled(states[k - 1], labels[k - 1]);
    }
    StartedGetsOneEvent(states, labels, k, id);
  }

  /** When a request whose cancellation won the exchange still gets an error event: exactly when
      that exchange fell between the check and the claim of `interrupted_attachment_event`. */
  lemma CancelledErrorIffRaced(states: seq<State>, labels: seq<Label>, k: nat, id: RequestId)
    requires IsRun(states, labels) && k < |states| && id in states[k].requests
    requires states[k].requests[id].cell.CancelledCell? && !Due(states[k].mode, id)
    ensures ErrorEvent in states[k].requests[id].events <==> states[k].requests[id].raced
  {
    RunInvariant(states, labels, k);
  }

  /** The flag means what it says: it is raised by a winning exchange at a moment when the
      worker has checked the request and not yet claimed it, and by nothing else. */
  lemma RaceIsInTheWindow(s: State, a: Label, id: RequestId)
    requires Enabled(s, a) && id in s.requests
    ensures !s.requests[id].raced && Apply(s, a).requests[id].raced <==>
            !s.requests[id].raced && a == CancelExchange(id) && s.requests[id].cell.ActiveCell? && Due(s.mode, id)
  {
  }

  // ----- requests that are refused -----

  lemma EventsGrow(s: State, a: Label, id: RequestId)
    requires Enabled(s, a) && id in s.requests
    ensures id in Apply(s, a).requests && s.requests[id].events <= Apply(s, a).requests[id].events
  {
    if a.TimeOut? {
      assert Apply(s, a).requests[id] == Abandon(s.requests[id]);
    } else if a.Join? || a.Settle? {
      FinishGrows(s.requests[id], s.requests[id].stage);
    }
  }

  lemma FinishGrows(r: Request, stage: Stage)
    ensures stage.Joinable? || stage.Collected? ==> r.events <= Finish(r, stage.result).events
  {
  }

  lemma {:induction false} EventsGrowTo(states: seq<State>, labels: seq<Label>, k: nat, j: nat, id: RequestId)
    requires IsRun(states, labels) && k <= j < |states| && id in states[k].requests
    ensures id in states[j].requests && states[k].requests[id].events <= states[j].requests[id].events
    decreases j - k
  {
    if k < j {
      EventsGrowTo(states, labels, k, j - 1, id);
      EventsGrow(states[j - 1], labels[j - 1], id);
    }
  }

  /** A request that is refused before it starts gets its one error event then, exactly unless it
      has been cancelled, and never another. */
  lemma RefusedGetsOneError(states: seq<State>, labels: seq<Label>, k: nat, j: nat, id: RequestId)
    requires IsRun(states, labels) && k < j < |states| && labels[k] == Refuse(id)
    ensures id in states[k].requests && id in states[j].requests
    ensures !states[k].requests[id].cell.CancelledCell? ==> states[j].requests[id].events == [ErrorEvent]
    ensures states[k].requests[id].cell.CancelledCell? ==> states[k + 1].requests[id].events == []
  {
    RunInvariant(states, labels, k);
    assert Enabled(states[k], labels[k]);
    EventsGrowTo(states, labels, k + 1, j, id);
    AtMostOneTerminalEvent(states, labels, j, id);
    assert RequestOk(states[k].requests[id], Due(states[k].mode, id));
    AtMostOne(states[j].requests[id].events);
  }

  // ----- what becomes of a message that the network took -----

  /** Only messages that the network took are reported as sent. */
  lemma SentMeansTaken(states: seq<State>, labels: seq<Label>, k: nat, id: RequestId)
    requires IsRun(states, labels) && k < |states| && id in states[k].requests
    requires SentEvent in states[k].requests[id].events
    ensures states[k].requests[id].taken
  {
    RunInvariant(states, labels, k);
  }

  /** And one that it took is, once nothing is due, exactly if the send returned Ok and that result
      was not lost. Otherwise (the task was aborted, the send reported an error, the result was
      dropped) the host is told that it failed, or nothing if a cancellation won in time. */
  lemma TakenOutcome(states: seq<State>, labels: seq<Label>, k: nat, id: RequestId)
    requires IsRun(states, labels) && k < |states| && id in states[k].requests
    requires var r := states[k].requests[id];
             r.taken && r.stage.Gone? && !r.controlled && !Due(states[k].mode, id)
    ensures var r := states[k].requests[id];
            var reported, silenced := r.confirmed && !r.lost, r.cell.CancelledCell? && !r.raced;
            && (r.events == [SentEvent] <==> reported)
            && (r.events == [ErrorEvent] <==> !reported && !silenced)
            && (r.events == [] <==> !reported && silenced)
  {
    RunInvariant(states, labels, k);
    var r := states[k].requests[id];
    assert RequestOk(r, false);
    AtMostOne(r.events);
  }

  lemma AtMostOne(events: seq<Terminal>)
    requires |events| <= 1
    ensures events == [] || events == [SentEvent] || events == [ErrorEvent]
    ensures events == [SentEvent] <==> SentEvent in events
    ensures events == [ErrorEvent] <==> ErrorEvent in events
    ensures [SentEvent] != [ErrorEvent]
  {
    assert [SentEvent][0] != [ErrorEvent][0];
    if events != [] {
      var only := events[0];
      assert events == [only];
      assert only == SentEvent || only == ErrorEvent;
    }
  }

  /** A result is lost when cleanup reaches its time limit, or shutdown comes between the join and
      the report, while the request still holds a delivery; and in no other way. */
  lemma LossIsAtTheLimit(s: State, a: Label, id: RequestId)
    requires Enabled(s, a) && id in s.requests && !s.requests[id].lost
    ensures Apply(s, a).requests[id].lost <==>
            HoldsDelivery(s.requests[id]) && (a.TimeOut? || a == JoinLost(id))
  {
    if a.TimeOut? {
      assert Apply(s, a).requests[id] == Abandon(s.requests[id]);
    } else if a.JoinLost? {
      assert Apply(s, a).requests[id] == if a.id == id then Drop(s.requests[id]) else s.requests[id];
    } else {
      OthersLoseNothing(s, a, id);
    }
  }

  lemma OthersLoseNothing(s: State, a: Label, id: RequestId)
    requires Enabled(s, a) && id in s.requests && !a.TimeOut? && !a.JoinLost?
    ensures Apply(s, a).requests[id].lost == s.requests[id].lost
  {
    if a.Join? || a.Settle? || a.Collect? || a.InterruptCheck? || a.InterruptEmit? {
      WorkerLosesNothing(s, a, id);
    }
  }

  lemma WorkerLosesNothing(s: State, a: Label, id: RequestId)
    requires Enabled(s, a) && id in s.requests
    requires a.Join? || a.Settle? || a.Collect? || a.InterruptCheck? || a.InterruptEmit?
    ensures Apply(s, a).requests[id].lost == s.requests[id].lost
  {
  }

  // ----- cleanup ends -----

  predicate CleaningUp(m: Mode) {
    m.Draining? || m.Settling? || m.Interrupting?
  }

  /** Steps of the worker's cleanup and of the tasks it waits for. */
  predicate ByCleanup(a: Label) {
    || a.TaskReturns? || a.TaskSeesAbort? || a.TaskDies? || a.Collect? || a.DrainDone? || a.Settle? || a.SettleDone?
    || a.TimeOut? || a.InterruptCheck? || a.InterruptEmit? || a.CleanupDone?
  }

  /** How much cleanup a request still needs. */
  function Weight(r: Request): nat {
    (if r.controlled then 2 else 0)
    + match r.stage
      case Running => 3
      case Joinable(_) => 2
      case Collected(_) => 1
      case _ => 0
  }

  function Weights(requests: map<RequestId, Request>): map<RequestId, nat> {
    map id | id in requests :: Weight(requests[id])
  }

  function PhaseWeight(m: Mode): nat {
    match m
    case Draining(_) => 4
    case Settling(_) => 3
    case Interrupting(_, checked) => if checked.Some? then 2 else 1
    case _ => 0
  }

  ghost function Work(s: State): nat {
    Sum(Weights(s.requests)) + PhaseWeight(s.mode)
  }

  lemma WorkOfOne(requests: map<RequestId, Request>, id: RequestId, r: Request)
    ensures Sum(Weights(requests[id := r])) + (if id in requests then Weight(requests[id]) else 0)
            == Sum(Weights(requests)) + Weight(r)
  {
    var before, after := Weights(requests), Weights(requests[id := r]);
    SumSplit(after, id);
    assert after - {id} == before - {id};
    if id in requests {
      SumSplit(before, id);
    } else {
      assert before - {id} == before;
    }
  }

  lemma {:induction false} SumMonotone(m: map<RequestId, nat>, n: map<RequestId, nat>)
    requires m.Keys == n.Keys && forall id :: id in m ==> m[id] <= n[id]
    ensures Sum(m) <= Sum(n)
    decreases |m|
  {
    if m.Keys == {} {
      assert m == map[] && n == map[];
    } else {
      var id :| id in m;
      SumSplit(m, id);
      SumSplit(n, id);
      assert (m - {id}).Keys == m.Keys - {id} && (n - {id}).Keys == n.Keys - {id};
      SumMonotone(m - {id}, n - {id});
    }
  }

  /** A step that changes one request. */
  lemma OneProgresses(s: State, t: State, id: RequestId, r: Request)
    requires t.requests == s.requests[id := r]
    ensures Work(t) + (if id in s.requests then Weight(s.requests[id]) else 0) + PhaseWeight(s.mode)
            == Work(s) + Weight(r) + PhaseWeight(t.mode)
  {
    WorkOfOne(s.requests, id, r);
  }

  lemma TaskProgresses(s: State, a: Label)
    requires Inv(s) && CleaningUp(s.mode) && Enabled(s, a)
    requires a.TaskReturns? || a.TaskSeesAbort? || a.TaskDies?
    ensures Work(Apply(s, a)) < Work(s)
  {
    var t := Apply(s, a);
    OneProgresses(s, t, a.id, t.requests[a.id]);
  }

  lemma CollectProgresses(s: State, id: RequestId)
    requires Enabled(s, Collect(id))
    ensures Work(Apply(s, Collect(id))) < Work(s)
  {
    var r := s.requests[id];
    OneProgresses(s, Apply(s, Collect(id)), id, r.(stage := Collected(r.stage.result)));
  }

  lemma FinishLightens(r: Request)
    requires r.stage.Collected?
    ensures Weight(Finish(r, r.stage.result)) < Weight(r)
  {
  }

  lemma SettleProgresses(s: State, id: RequestId)
    requires Enabled(s, Settle(id))
    ensures Work(Apply(s, Settle(id))) < Work(s)
  {
    var r, t := s.requests[id], Apply(s, Settle(id));
    FinishLightens(r);
    OneProgresses(s, t, id, t.requests[id]);
  }

  lemma InterruptProgresses(s: State, a: Label)
    requires Inv(s) && CleaningUp(s.mode) && Enabled(s, a) && (a.InterruptCheck? || a.InterruptEmit?)
    ensures Work(Apply(s, a)) < Work(s)
  {
    var t := Apply(s, a);
    var id := if a.InterruptEmit? then s.mode.checked.value else a.id;
    OneProgresses(s, t, id, t.requests[id]);
  }

  lemma TimeOutProgresses(s: State)
    requires s.mode.Draining?
    ensures Work(Apply(s, TimeOut)) < Work(s)
  {
    SumMonotone(Weights(Apply(s, TimeOut).requests), Weights(s.requests));
  }

  lemma HostAddsNone(s: State, a: Label)
    requires Inv(s) && CleaningUp(s.mode) && Enabled(s, a) && (a.Admit? || a.CancelExchange? || a.Refuse? || a.NetworkTakes?)
    ensures Work(Apply(s, a)) <= Work(s)
  {
    var t := Apply(s, a);
    OneProgresses(s, t, a.id, t.requests[a.id]);
  }

  /** Every step of the cleanup leaves less of it, and no other step adds any. */
  lemma CleanupProgresses(s: State, a: Label)
    requires Inv(s) && CleaningUp(s.mode) && Enabled(s, a)
    ensures Work(Apply(s, a)) <= Work(s)
    ensures ByCleanup(a) ==> Work(Apply(s, a)) < Work(s)
  {
    if a.TaskReturns? || a.TaskSeesAbort? || a.TaskDies? {
      TaskProgresses(s, a);
    } else if a.Collect? {
      CollectProgresses(s, a.id);
    } else if a.Settle? {
      SettleProgresses(s, a.id);
    } else if a.TimeOut? {
      TimeOutProgresses(s);
    } else if a.InterruptCheck? || a.InterruptEmit? {
      InterruptProgresses(s, a);
    } else if a.Admit? || a.CancelExchange? || a.Refuse? || a.NetworkTakes? {
      HostAddsNone(s, a);
    } else {
      assert Apply(s, a).requests == s.requests;
    }
  }

  function Cost(a: Label): nat { if ByCleanup(a) then 1 else 0 }

  function CleanupSteps(labels: seq<Label>, i: nat, k: nat): nat
    requires i <= k <= |labels|
  {
    if i == k then 0 else CleanupSteps(labels, i, k - 1) + Cost(labels[k - 1])
  }

  /** Cleanup is bounded: it takes at most as many steps as there was work when it began, whatever
      the host and the command queue do meanwhile. */
  lemma CleanupIsBounded(states: seq<State>, labels: seq<Label>, i: nat, k: nat)
    requires IsRun(states, labels) && i <= k < |states|
    requires forall j :: i <= j < k ==> CleaningUp(states[j].mode)
    ensures CleanupSteps(labels, i, k) + Work(states[k]) <= Work(states[i])
  {
    forall j | i <= j < k
      ensures Lightens(states, labels, j)
    {
      CleanupProgressesAt(states, labels, j);
    }
    StepsTelescope(states, labels, i, k);
  }

  ghost predicate Lightens(states: seq<State>, labels: seq<Label>, j: int)
    requires 0 <= j < |labels| && |states| == |labels| + 1
  {
    Work(states[j + 1]) + Cost(labels[j]) <= Work(states[j])
  }

  lemma {:induction false} StepsTelescope(states: seq<State>, labels: seq<Label>, i: nat, k: nat)
    requires |states| == |labels| + 1 && i <= k < |states|
    requires forall j :: i <= j < k ==> Lightens(states, labels, j)
    ensures CleanupSteps(labels, i, k) + Work(states[k]) <= Work(states[i])
  {
    if i < k {
      StepsTelescope(states, labels, i, k - 1);
      assert Lightens(states, labels, k - 1);
    }
  }

  lemma CleanupProgressesAt(states: seq<State>, labels: seq<Label>, k: nat)
    requires IsRun(states, labels) && k < |labels| && CleaningUp(states[k].mode)
    ensures Lightens(states, labels, k)
  {
    RunInvariant(states, labels, k);
    CleanupProgresses(states[k], labels[k]);
  }

  /** Cleanup is never stuck: until it is over, the worker or a task it waits for has a step. */
  lemma CleanupNeverStuck(s: State) returns (a: Label)
    requires Inv(s) && CleaningUp(s.mode)
    ensures Enabled(s, a) && ByCleanup(a)
  {
    if s.mode.Draining? {
      if NoneInTasks(s) {
        a := DrainDone;
      } else {
        var id :| id in s.requests && (s.requests[id].stage.Running? || s.requests[id].stage.Joinable?);
        a := if s.requests[id].stage.Running? then TaskDies(id) else Collect(id);
      }
    } else if s.mode.Settling? {
      if NoneCollected(s) {
        a := SettleDone;
      } else {
        var id :| id in s.requests && s.requests[id].stage.Collected?;
        a := Settle(id);
      }
    } else if s.mode.checked.Some? {
      a := InterruptEmit;
    } else if NoneControlled(s) {
      a := CleanupDone;
    } else {
      var id :| id in s.requests && s.requests[id].controlled;
      a := InterruptCheck(id);
    }
  }

  lemma Extend(states: seq<State>, labels: seq<Label>, a: Label) returns (states': seq<State>, labels': seq<Label>)
    requires IsRun(states, labels) && Enabled(states[|states| - 1], a)
    ensures IsRun(states', labels')
    ensures |states'| == |states| + 1 && states'[|states|] == Apply(states[|states| - 1], a)
  {
    states', labels' := states + [Apply(states[|states| - 1], a)], labels + [a];
  }

  /** The window can be hit: a run in which a winning cancellation is followed by an error event. */
  lemma CancelledRequestCanGetError() returns (states: seq<State>, labels: seq<Label>)
    ensures IsRun(states, labels)
    ensures var s := states[|states| - 1];
            1 in s.requests && s.requests[1].cell.CancelledCell? && s.requests[1].events == [ErrorEvent]
  {
    states, labels := [Init()], [];
    states, labels := Extend(states, labels, Admit(1));
    states, labels := Extend(states, labels, Start(1));
    states, labels := Extend(states, labels, CancelLookup(1));
    states, labels := Extend(states, labels, BeginCleanup(true));
    states, labels := Extend(states, labels, TimeOut);
    states, labels := Extend(states, labels, InterruptCheck(1));
    states, labels := Extend(states, labels, CancelExchange(1));
    states, labels := Extend(states, labels, InterruptEmit);
  }

  /** A cancellation that wins after the network has accepted the message does not unsend it:
      the host is told it was sent. */
  lemma CancelledRequestCanBeSent() returns (states: seq<State>, labels: seq<Label>)
    ensures IsRun(states, labels)
    ensures var s := states[|states| - 1];
            1 in s.requests && s.requests[1].cell.CancelledCell? && s.requests[1].events == [SentEvent]
  {
    states, labels := [Init()], [];
    states, labels := Extend(states, labels, Admit(1));
    states, labels := Extend(states, labels, Start(1));
    states, labels := Extend(states, labels, CancelLookup(1));
    states, labels := Extend(states, labels, CancelExchange(1));
    states, labels := Extend(states, labels, NetworkTakes(1));
    states, labels := Extend(states, labels, TaskReturns(1, true));
    states, labels := Extend(states, labels, Join(1));
  }

  /** A request whose message the network has taken, its task still running. */
  lemma TakenRequest() returns (states: seq<State>, labels: seq<Label>)
    ensures IsRun(states, labels)
    ensures states[|states| - 1] == State(map[1 := Request(ActiveCell, Running, true, true, false, true, false, false, [])],
                                          {}, Dispatching)
  {
    states, labels := [Init()], [];
    states, labels := Extend(states, labels, Admit(1));
    states, labels := Extend(states, labels, Start(1));
    states, labels := Extend(states, labels, NetworkTakes(1));
  }

  /** Its result is waiting (`returned`), or its task was aborted inside the send. */
  lemma TakenAndEnded(returned: bool) returns (states: seq<State>, labels: seq<Label>)
    ensures IsRun(states, labels)
    ensures var s := states[|states| - 1];
            && 1 in s.requests && s.mode.Dispatching?
            && var r := s.requests[1];
               && r.stage.Joinable? && r.controlled && !r.cell.CancelledCell? && r.events == []
               && r.taken && r.confirmed == returned
  {
    states, labels := TakenRequest();
    states, labels := Extend(states, labels, if returned then TaskReturns(1, true) else TaskDies(1));
  }

  /** Then cleanup begins and reaches its time limit. */
  lemma TakenAndAbandoned(returned: bool) returns (states: seq<State>, labels: seq<Label>)
    ensures IsRun(states, labels)
    ensures var s := states[|states| - 1];
            && 1 in s.requests && s.mode == Interrupting(true, None)
            && var r := s.requests[1];
               && r.controlled && !r.cell.CancelledCell? && r.events == [] && r.taken && r.confirmed == returned
  {
    states, labels := TakenAndEnded(returned);
    states, labels := Extend(states, labels, BeginCleanup(true));
    states, labels := Extend(states, labels, TimeOut);
  }

  /** A message that the network took can be reported as interrupted: with its result waiting when
      cleanup reaches its time limit (`returned`), or with its task aborted inside the send. */
  lemma TakenRequestCanGetError(returned: bool) returns (states: seq<State>, labels: seq<Label>)
    ensures IsRun(states, labels)
    ensures var s := states[|states| - 1];
            1 in s.requests && s.requests[1].taken && s.requests[1].confirmed == returned
            && s.requests[1].events == [ErrorEvent]
  {
    states, labels := TakenAndAbandoned(returned);
    states, labels := Extend(states, labels, InterruptCheck(1));
    states, labels := Extend(states, labels, InterruptEmit);
  }
}

/** `attachment_task_result` and `interrupt_remaining_attachments` over shared control objects. */
module AttachmentCleanup {
  import opened Common
  import opened AttachmentAdmissions
  import Outcomes = AttachmentOutcomes

  /** `delivered` is what the upload and send returned, or nothing when the abort was seen first. */
  method TaskResult(control: AttachmentControl, delivered: Option<bool>) returns (result: Outcomes.TaskResult)
    modifies control
    ensures delivered == Some(true) ==> result.Delivered?
    ensures delivered == Some(false) ==> (result.Failed? <==> old(control.cell).ActiveCell?)
    ensures delivered == Some(false) && !result.Failed? ==> result.Cancelled?
    ensures delivered.None? ==> result.Cancelled? && control.cell == old(control.cell)
    ensures delivered.Some? ==> control.cell == Exchange(old(control.cell), TerminalCell)
  {
    if delivered.None? {
      return Outcomes.Cancelled;
    }
    var claimed := control.ClaimTerminal();
    if claimed || delivered.value {
      return if delivered.value then Outcomes.Delivered else Outcomes.Failed;
    }
    return Outcomes.Cancelled;
  }

  /** The cell of an interrupted request afterwards: never active; cancelled if it was, or if the host won the race. */
  function Interrupted(cell: Lifecycle, raced: bool): (r: Lifecycle)
    ensures !r.ActiveCell?
    ensures r.CancelledCell? <==> cell.CancelledCell? || (cell.ActiveCell? && raced)
  {
    if cell.ActiveCell? then if raced then CancelledCell else TerminalCell else cell
  }

  /** Every control found not cancelled is reported once and can no longer be cancelled. `racing`
      are the requests that the host cancels between the check and the claim. */
  method InterruptRemaining(controls: map<RequestId, AttachmentControl>, racing: set<RequestId>)
    returns (reported: set<RequestId>)
    requires forall i, j :: i in controls && j in controls && i != j ==> controls[i] != controls[j]
    modifies controls.Values
    ensures forall i :: i in reported <==> i in controls && !old(controls[i].cell).CancelledCell?
    ensures forall i :: i in controls ==> controls[i].cell == Interrupted(old(controls[i].cell), i in racing)
  {
    reported := {};
    var rest := controls.Keys;
    while rest != {}
      invariant rest <= controls.Keys
      invariant forall i :: i in rest ==> controls[i].cell == old(controls[i].cell)
      invariant forall i :: i in reported <==> i in controls && i !in rest && !old(controls[i].cell).CancelledCell?
      invariant forall i :: i in controls && i !in rest ==>
                  controls[i].cell == Interrupted(old(controls[i].cell), i in racing)
      decreases rest
    {
      var id :| id in rest;
      var control := controls[id];
      assert control in controls.Values;
      if !control.cell.CancelledCell? {
        if id in racing {
          var _ := control.Cancel();
        }
        var _ := control.ClaimTerminal();
        reported := reported + {id};
      }
      rest := rest - {id};
    }
  }
}
