/** Groups that are being left or have been left in this run of the worker. */
module DepartureStates {
  import opened Common
  import opened MessageEvents

  type Gid = string

  datatype Departures = Departures(leaving: set<Gid>, departed: set<Gid>)

  datatype GroupDepartureState = ActiveGroup | LeavingGroup | DepartedGroup

  function StateOf(d: Departures, g: Gid): GroupDepartureState {
    if g in d.departed then DepartedGroup else if g in d.leaving then LeavingGroup else ActiveGroup
  }

  predicate Contains(d: Departures, g: Gid) {
    !StateOf(d, g).ActiveGroup?
  }

  function BeginLeave(d: Departures, g: Gid): Departures { d.(leaving := d.leaving + {g}) }

  function CancelLeave(d: Departures, g: Gid): Departures { d.(leaving := d.leaving - {g}) }

  function MarkDeparted(d: Departures, g: Gid): Departures {
    Departures(d.leaving - {g}, d.departed + {g})
  }

  /** `departure_projection_disposition`: content of a group being left waits for the outcome;
      content of a group that was left is settled without being shown. */
  function ProjectionDisposition(s: GroupDepartureState): Option<Disposition> {
    match s
    case ActiveGroup => None
    case LeavingGroup => Some(Retry)
    case DepartedGroup => Some(Complete)
  }

  /** The three states, and what they mean for content: a group that was left stays left, and its
      content complete, even while another leave command for it is being handled. */
  lemma StatesOfGroups(d: Departures, g: Gid)
    ensures StateOf(d, g).DepartedGroup? <==> g in d.departed
    ensures StateOf(d, g).LeavingGroup? <==> g in d.leaving && g !in d.departed
    ensures ProjectionDisposition(StateOf(d, g)) ==
            if g in d.departed then Some(Complete) else if g in d.leaving then Some(Retry) else None
    ensures g in d.departed ==>
              StateOf(BeginLeave(d, g), g).DepartedGroup? && StateOf(CancelLeave(BeginLeave(d, g), g), g).DepartedGroup?
  {
  }

  /** A failed leave restores the group; an accepted one settles it for good. */
  lemma LeaveOutcomes(d: Departures, g: Gid)
    requires StateOf(d, g).ActiveGroup?
    ensures CancelLeave(BeginLeave(d, g), g) == d
    ensures StateOf(MarkDeparted(BeginLeave(d, g), g), g).DepartedGroup?
    ensures ProjectionDisposition(StateOf(BeginLeave(d, g), g)) == Some(Retry)
    ensures forall h :: h != g ==> StateOf(MarkDeparted(BeginLeave(d, g), g), h) == StateOf(d, h)
  {
    assert d.leaving + {g} - {g} == d.leaving;
  }

  class DepartedGroups {
    var leaving: set<Gid>
    var departed: set<Gid>

    function Value(): Departures
      reads this
    {
      Departures(leaving, departed)
    }

    constructor ()
      ensures Value() == Departures({}, {})
    {
      leaving, departed := {}, {};
    }

    method DepartureState(g: Gid) returns (state: GroupDepartureState)
      ensures state == StateOf(Value(), g)
      ensures state.DepartedGroup? <==> g in departed
      ensures state.LeavingGroup? <==> g in leaving && g !in departed
    {
      if g in departed {
        return DepartedGroup;
      } else if g in leaving {
        return LeavingGroup;
      } else {
        return ActiveGroup;
      }
    }

    method Begin(g: Gid)
      modifies this`leaving
      ensures Value() == BeginLeave(old(Value()), g)
      ensures leaving == old(leaving) + {g}
    {
      leaving := leaving + {g};
    }

    method Cancel(g: Gid)
      modifies this`leaving
      ensures Value() == CancelLeave(old(Value()), g)
      ensures leaving == old(leaving) - {g}
    {
      leaving := leaving - {g};
    }

    method Mark(g: Gid)
      modifies this
      ensures Value() == MarkDeparted(old(Value()), g)
      ensures departed == old(departed) + {g} && leaving == old(leaving) - {g}
    {
      leaving := leaving - {g};
      departed := departed + {g};
    }
  }
}

/** Leave commands, outbox sends and any number of attachment tasks sharing the operation lock,
    interleaved at every suspension point. */
module GroupOperations {
  import opened Common
  import opened DepartureStates

  /** Where the worker's main task is. `queue` holds the groups of the outbox messages still to
      be attempted in the current pass; direct messages need no lock and are not shown. */
  datatype Main =
    | LoopHead
    | LeaveWaiting(group: Gid)
    | LeaveLocked(group: Gid)
    | LeaveSending(group: Gid)
    | Outbox(queue: seq<Gid>)
    | OutboxWaiting(queue: seq<Gid>)
    | OutboxLocked(queue: seq<Gid>)
    | OutboxSending(queue: seq<Gid>)
    | Stopped

  datatype TaskStage = Resolving | Uploading | WaitingLock | Locked | Sending

  datatype Task = Task(group: Gid, stage: TaskStage)

  datatype Owner = MainTask | AttachmentTask(task: nat)

  datatype Action = Depart(group: Gid) | SendBegin(group: Gid) | SendEnd(group: Gid)

  datatype State = State(
    groups: Departures,
    holder: Option<Owner>,
    main: Main,
    tasks: map<nat, Task>,
    authoritative: bool,
    log: seq<Action>)

  function Init(): State { State(Departures({}, {}), None, LoopHead, map[], false, []) }

  datatype Label =
    | SetAuthority(value: bool)
    | LeaveCommand(group: Gid)
    | SendCommand(group: Gid)
    | RetryOutbox(messages: seq<Gid>)
    | MainLock
    | LeaveResolve(found: bool)
    | LeaveResult(ok: bool, messages: seq<Gid>)
    | OutboxNext
    | OutboxResolve(found: bool)
    | OutboxSent
    | Spawn(task: nat, group: Gid)
    | TaskResolve(task: nat, found: bool)
    | TaskUpload(task: nat, ok: bool)
    | TaskLock(task: nat)
    | TaskCheck(task: nat, found: bool)
    | TaskSent(task: nat)
    | TaskAbort(task: nat)
    | Shutdown

  predicate MainHolds(m: Main) {
    m.LeaveLocked? || m.LeaveSending? || m.OutboxLocked? || m.OutboxSending?
  }

  predicate MainRequests(m: Main) {
    m.LeaveWaiting? || m.OutboxWaiting?
  }

  predicate TaskHolds(t: Task) {
    t.stage.Locked? || t.stage.Sending?
  }

  predicate At(s: State, t: nat, stage: TaskStage) {
    t in s.tasks && s.tasks[t].stage == stage
  }

  predicate Enabled(s: State, a: Label) {
    match a
    case SetAuthority(_) => s.main.LoopHead?
    case LeaveCommand(_) => s.main.LoopHead?
    case SendCommand(_) => s.main.LoopHead?
    case RetryOutbox(_) => s.main.LoopHead?
    case MainLock => MainRequests(s.main) && s.holder.None?
    case LeaveResolve(_) => s.main.LeaveLocked?
    case LeaveResult(_, _) => s.main.LeaveSending?
    case OutboxNext => s.main.Outbox?
    case OutboxResolve(_) => s.main.OutboxLocked? && s.main.queue != []
    case OutboxSent => s.main.OutboxSending? && s.main.queue != []
    case Spawn(t, _) => s.main.LoopHead? && s.authoritative && t !in s.tasks
    case TaskResolve(t, _) => At(s, t, Resolving)
    case TaskUpload(t, _) => At(s, t, Uploading)
    case TaskLock(t) => At(s, t, WaitingLock) && s.holder.None?
    case TaskCheck(t, _) => At(s, t, Locked)
    case TaskSent(t) => At(s, t, Sending)
    case TaskAbort(t) => t in s.tasks
    case Shutdown => !s.main.Stopped?
  }

  function Move(s: State, t: nat, stage: TaskStage): State
    requires t in s.tasks
  {
    s.(tasks := s.tasks[t := s.tasks[t].(stage := stage)])
  }

  function Remove(s: State, t: nat): State { s.(tasks := s.tasks - {t}) }

  /** The group messages of an outbox pass: none without group authority. */
  function Attemptable(s: State, messages: seq<Gid>): seq<Gid> {
    if s.authoritative then messages else []
  }

  function MainStep(s: State, a: Label): State
    requires Enabled(s, a)
  {
    match a
    case SetAuthority(b) => s.(authoritative := b)
    case LeaveCommand(g) =>
      if s.authoritative then s.(groups := BeginLeave(s.groups, g), main := LeaveWaiting(g))
      else s.(groups := CancelLeave(s.groups, g))
    case SendCommand(g) =>
      if !s.authoritative || Contains(s.groups, g) then s else s.(main := Outbox([g]))
    case RetryOutbox(messages) => s.(main := Outbox(Attemptable(s, messages)))
    case MainLock =>
      s.(holder := Some(MainTask),
         main := if s.main.LeaveWaiting? then LeaveLocked(s.main.group) else OutboxLocked(s.main.queue))
    case LeaveResolve(found) =>
      var g := s.main.group;
      if g in s.groups.departed || !found
      then s.(groups := CancelLeave(s.groups, g), holder := None, main := LoopHead)
      else s.(main := LeaveSending(g))
    case LeaveResult(ok, messages) =>
      var g := s.main.group;
      if ok
      then s.(groups := MarkDeparted(s.groups, g), holder := None, main := Outbox(Attemptable(s, messages)),
              log := s.log + [Depart(g)])
      else s.(groups := CancelLeave(s.groups, g), holder := None, main := LoopHead)
    case OutboxNext => s.(main := if s.main.queue == [] then LoopHead else OutboxWaiting(s.main.queue))
    case OutboxResolve(found) =>
      var g := s.main.queue[0];
      if Contains(s.groups, g) || !found then s.(holder := None, main := Outbox(s.main.queue[1..]))
      else s.(main := OutboxSending(s.main.queue), log := s.log + [SendBegin(g)])
    case OutboxSent =>
      s.(holder := None, main := Outbox(s.main.queue[1..]), log := s.log + [SendEnd(s.main.queue[0])])
    case Shutdown => s.(main := Stopped, holder := if MainHolds(s.main) then None else s.holder)
    case _ => s
  }

  function TaskStep(s: State, a: Label): State
    requires Enabled(s, a)
  {
    match a
    case Spawn(t, g) => s.(tasks := s.tasks[t := Task(g, Resolving)])
    case TaskResolve(t, found) =>
      if Contains(s.groups, s.tasks[t].group) || !found then Remove(s, t) else Move(s, t, Uploading)
    case TaskUpload(t, ok) => if ok then Move(s, t, WaitingLock) else Remove(s, t)
    case TaskLock(t) => Move(s, t, Locked).(holder := Some(AttachmentTask(t)))
    case TaskCheck(t, found) =>
      var g := s.tasks[t].group;
      if Contains(s.groups, g) || !found then Remove(s, t).(holder := None)
      else Move(s, t, Sending).(log := s.log + [SendBegin(g)])
    case TaskSent(t) => Remove(s, t).(holder := None, log := s.log + [SendEnd(s.tasks[t].group)])
    case TaskAbort(t) => Remove(s, t).(holder := if TaskHolds(s.tasks[t]) then None else s.holder)
    case _ => s
  }

  predicate ByTask(a: Label) {
    a.Spawn? || a.TaskResolve? || a.TaskUpload? || a.TaskLock? || a.TaskCheck? || a.TaskSent? || a.TaskAbort?
  }

  function Apply(s: State, a: Label): State
    requires Enabled(s, a)
  {
    if ByTask(a) then TaskStep(s, a) else MainStep(s, a)
  }

  ghost predicate IsRun(states: seq<State>, labels: seq<Label>) {
    && |states| == |labels| + 1
    && states[0] == Init()
    && forall i {:trigger labels[i]} :: 0 <= i < |labels| ==>
         Enabled(states[i], labels[i]) && states[i + 1] == Apply(states[i], labels[i])
  }

  // ----- invariants -----

  /** The lock has one owner, and the owner is where the code holds the guard. */
  ghost predicate LockOk(s: State) {
    && (s.holder == Some(MainTask) <==> MainHolds(s.main))
    && (forall t :: t in s.tasks && TaskHolds(s.tasks[t]) ==> s.holder == Some(AttachmentTask(t)))
    && (s.holder.Some? && s.holder.value.AttachmentTask? ==>
          s.holder.value.task in s.tasks && TaskHolds(s.tasks[s.holder.value.task]))
  }

  /** A group is marked as leaving only while its leave command is being handled. */
  ghost predicate LeavingOk(s: State) {
    s.groups.leaving ==
      if s.main.LeaveWaiting? || s.main.LeaveLocked? || s.main.LeaveSending? then {s.main.group} else {}
  }

  ghost predicate SendingOk(s: State) {
    && (s.main.LeaveSending? ==> s.main.group !in s.groups.departed)
    && (s.main.OutboxWaiting? || s.main.OutboxLocked? || s.main.OutboxSending? ==> s.main.queue != [])
    && (s.main.OutboxSending? ==> s.main.queue[0] !in s.groups.departed)
    && forall t :: t in s.tasks && s.tasks[t].stage.Sending? ==> s.tasks[t].group !in s.groups.departed
  }

  /** Departures are recorded once and nothing is sent to a group afterwards. */
  ghost predicate LogOk(s: State) {
    && (forall g :: g in s.groups.departed <==> Depart(g) in s.log)
    && forall i, j :: 0 <= i < j < |s.log| && s.log[i].Depart? ==> s.log[j].group != s.log[i].group
  }

  ghost predicate Inv(s: State) {
    && LockOk(s)
    && (!s.main.Stopped? ==> LeavingOk(s))
    && SendingOk(s)
    && LogOk(s)
  }

  lemma LogAppend(s: State, t: State, a: Action)
    requires LogOk(s) && a.group !in s.groups.departed && t.log == s.log + [a]
    requires t.groups.departed == if a.Depart? then s.groups.departed + {a.group} else s.groups.departed
    ensures LogOk(t)
  {
    forall g
      ensures g in t.groups.departed <==> Depart(g) in t.log
    {
    }
  }

  lemma LeaveKeeps(s: State, a: Label)
    requires Inv(s) && Enabled(s, a) && (a.LeaveCommand? || a.LeaveResolve? || a.LeaveResult?)
    ensures Inv(MainStep(s, a))
  {
    var t := MainStep(s, a);
    if a.LeaveResult? && a.ok {
      assert s.holder == Some(MainTask);
      LogAppend(s, t, Depart(s.main.group));
    }
    assert LockOk(t);
  }

  lemma OutboxKeeps(s: State, a: Label)
    requires Inv(s) && Enabled(s, a) && (a.OutboxResolve? || a.OutboxSent?)
    ensures Inv(MainStep(s, a))
  {
    var t := MainStep(s, a);
    if a.OutboxSent? {
      LogAppend(s, t, SendEnd(s.main.queue[0]));
    } else if t.main.OutboxSending? {
      LogAppend(s, t, SendBegin(s.main.queue[0]));
    }
  }

  lemma MainKeeps(s: State, a: Label)
    requires Inv(s) && Enabled(s, a) && !ByTask(a)
    ensures Inv(MainStep(s, a))
  {
    match a {
      case LeaveCommand(_) => LeaveKeeps(s, a);
      case LeaveResolve(_) => LeaveKeeps(s, a);
      case LeaveResult(_, _) => LeaveKeeps(s, a);
      case OutboxResolve(_) => OutboxKeeps(s, a);
      case OutboxSent => OutboxKeeps(s, a);
      case _ =>
    }
  }

  lemma TaskSendKeeps(s: State, a: Label)
    requires Inv(s) && Enabled(s, a) && (a.TaskCheck? || a.TaskSent?)
    ensures Inv(TaskStep(s, a))
  {
    var t := TaskStep(s, a);
    assert s.holder == Some(AttachmentTask(a.task));
    if a.TaskSent? {
      LogAppend(s, t, SendEnd(s.tasks[a.task].group));
    } else if a.task in t.tasks {
      LogAppend(s, t, SendBegin(s.tasks[a.task].group));
    }
  }

  /** Steps of a task that neither holds nor gets the lock. */
  lemma TaskMoveKeeps(s: State, a: Label)
    requires Inv(s) && Enabled(s, a) && (a.Spawn? || a.TaskResolve? || a.TaskUpload?)
    ensures Inv(TaskStep(s, a))
  {
    var t := TaskStep(s, a);
    assert t.log == s.log && t.groups == s.groups && t.main == s.main && t.holder == s.holder;
    assert forall u :: u in t.tasks && u != a.task ==> u in s.tasks && t.tasks[u] == s.tasks[u];
    assert a.task in t.tasks ==> !TaskHolds(t.tasks[a.task]);
    assert LockOk(t);
  }

  lemma TaskLockKeeps(s: State, a: Label)
    requires Inv(s) && Enabled(s, a) && a.TaskLock?
    ensures Inv(TaskStep(s, a))
  {
    var t := TaskStep(s, a);
    assert t.log == s.log && t.groups == s.groups && t.main == s.main;
    assert LockOk(t);
  }

  lemma TaskAbortKeeps(s: State, a: Label)
    requires Inv(s) && Enabled(s, a) && a.TaskAbort?
    ensures Inv(TaskStep(s, a))
  {
  }

  lemma TaskKeeps(s: State, a: Label)
    requires Inv(s) && Enabled(s, a) && ByTask(a)
    ensures Inv(TaskStep(s, a))
  {
    if a.TaskCheck? || a.TaskSent? {
      TaskSendKeeps(s, a);
    } else if a.TaskAbort? {
      TaskAbortKeeps(s, a);
    } else if a.TaskLock? {
      TaskLockKeeps(s, a);
    } else {
      TaskMoveKeeps(s, a);
    }
  }

  lemma {:induction false} RunInvariant(states: seq<State>, labels: seq<Label>, k: nat)
    requires IsRun(states, labels) && k < |states|
    ensures Inv(states[k])
  {
    if k > 0 {
      RunInvariant(states, labels, k - 1);
      var a := labels[k - 1];
      if ByTask(a) {
        TaskKeeps(states[k - 1], a);
      } else {
        MainKeeps(states[k - 1], a);
      }
    }
  }

  // ----- theorems over every run -----

  /** No send to a group begins or ends after its leave was recorded as accepted, and a group
      departs at most once. */
  lemma NothingAfterDeparture(states: seq<State>, labels: seq<Label>, k: nat, i: nat, j: nat)
    requires IsRun(states, labels) && k < |states|
    requires i < j < |states[k].log| && states[k].log[i].Depart?
    ensures states[k].log[j].group != states[k].log[i].group
  {
    RunInvariant(states, labels, k);
  }

  /** A send to the group is in progress, from the outbox or from an attachment task. */
  ghost predicate SendingTo(s: State, g: Gid) {
    || (s.main.OutboxSending? && s.main.queue != [] && s.main.queue[0] == g)
    || exists u :: At(s, u, Sending) && s.tasks[u].group == g
  }

  /** While a send is in progress nobody can record the departure of its group, or of any: the
      lock is held from the membership check to the end of the send. */
  lemma SendExcludesDeparture(states: seq<State>, labels: seq<Label>, k: nat, g: Gid)
    requires IsRun(states, labels) && k + 1 < |states| && SendingTo(states[k], g)
    ensures g !in states[k].groups.departed
    ensures states[k + 1].groups.departed == states[k].groups.departed
  {
    RunInvariant(states, labels, k);
    assert Enabled(states[k], labels[k]);
    if u :| At(states[k], u, Sending) && states[k].tasks[u].group == g {
      assert states[k].holder == Some(AttachmentTask(u));
    }
  }

  lemma DepartedGrows(s: State, a: Label)
    requires Enabled(s, a)
    ensures s.groups.departed <= Apply(s, a).groups.departed
    ensures s.log <= Apply(s, a).log
  {
  }

  lemma DepartedGrowsAt(states: seq<State>, labels: seq<Label>, k: nat)
    requires IsRun(states, labels) && k < |labels|
    ensures states[k].groups.departed <= states[k + 1].groups.departed
  {
    DepartedGrows(states[k], labels[k]);
  }

  /** Departure is permanent for the run. */
  lemma {:induction false} DepartureIsPermanent(states: seq<State>, labels: seq<Label>, i: nat, k: nat)
    requires IsRun(states, labels) && i <= k < |states|
    ensures states[i].groups.departed <= states[k].groups.departed
  {
    if i < k {
      DepartureIsPermanent(states, labels, i, k - 1);
      DepartedGrowsAt(states, labels, k - 1);
    }
  }

  /** The "leaving" set is empty whenever the dispatch loop starts an iteration. */
  lemma NothingLeavingAtLoopHead(states: seq<State>, labels: seq<Label>, k: nat)
    requires IsRun(states, labels) && k < |states| && states[k].main.LoopHead?
    ensures states[k].groups.leaving == {}
  {
    RunInvariant(states, labels, k);
  }

  /** Nobody requests the operation lock while holding it. */
  lemma NeverRequestsWhileHolding(states: seq<State>, labels: seq<Label>, k: nat)
    requires IsRun(states, labels) && k < |states|
    ensures MainRequests(states[k].main) ==> states[k].holder != Some(MainTask)
    ensures forall t :: At(states[k], t, WaitingLock) ==> states[k].holder != Some(AttachmentTask(t))
  {
    RunInvariant(states, labels, k);
  }

  /** Which party a step belongs to. */
  function StepOwner(a: Label): Option<Owner> {
    match a
    case LeaveResolve(_) => Some(MainTask)
    case LeaveResult(_, _) => Some(MainTask)
    case OutboxResolve(_) => Some(MainTask)
    case OutboxSent => Some(MainTask)
    case TaskCheck(t, _) => Some(AttachmentTask(t))
    case TaskSent(t) => Some(AttachmentTask(t))
    case _ => None
  }

  /** Steps the lock holder still has to take before it lets go: two when it has yet to check
      membership, one while it sends. */
  function Rank(s: State): nat {
    match s.holder
    case None => 0
    case Some(MainTask) => if s.main.LeaveLocked? || s.main.OutboxLocked? then 2 else 1
    case Some(AttachmentTask(t)) => if At(s, t, Locked) then 2 else 1
  }

  /** No deadlock: whoever holds the operation lock can always move, each of its own steps
      brings it closer to letting go whatever the network answers, and nobody else's step
      takes it further away. */
  lemma HolderAlwaysProgresses(states: seq<State>, labels: seq<Label>, k: nat, a: Label)
    requires IsRun(states, labels) && k < |states| && states[k].holder.Some?
    ensures exists b :: Enabled(states[k], b) && StepOwner(b) == states[k].holder
    ensures Enabled(states[k], a) ==> Rank(Apply(states[k], a)) <= Rank(states[k])
    ensures Enabled(states[k], a) && StepOwner(a) == states[k].holder ==> Rank(Apply(states[k], a)) < Rank(states[k])
  {
    RunInvariant(states, labels, k);
    OwnerCanMove(states[k]);
    if Enabled(states[k], a) {
      RankFalls(states[k], a);
    }
  }

  lemma OwnerCanMove(s: State)
    requires Inv(s) && s.holder.Some?
    ensures exists b :: Enabled(s, b) && StepOwner(b) == s.holder
  {
    match s.holder.value {
      case MainTask =>
        var b := match s.main
          case LeaveLocked(_) => LeaveResolve(true)
          case LeaveSending(_) => LeaveResult(true, [])
          case OutboxLocked(_) => OutboxResolve(true)
          case _ => OutboxSent;
        assert Enabled(s, b) && StepOwner(b) == s.holder;
      case AttachmentTask(t) =>
        var b := if s.tasks[t].stage.Locked? then TaskCheck(t, true) else TaskSent(t);
        assert Enabled(s, b) && StepOwner(b) == s.holder;
    }
  }

  lemma RankFalls(s: State, a: Label)
    requires Inv(s) && s.holder.Some? && Enabled(s, a)
    ensures Rank(Apply(s, a)) <= Rank(s)
    ensures StepOwner(a) == s.holder ==> Rank(Apply(s, a)) < Rank(s)
  {
  }

  // ----- sends and leaves do happen -----

  lemma Extend(states: seq<State>, labels: seq<Label>, a: Label) returns (states': seq<State>, labels': seq<Label>)
    requires IsRun(states, labels) && Enabled(states[|states| - 1], a)
    ensures IsRun(states', labels')
    ensures |states'| == |states| + 1 && states'[|states|] == Apply(states[|states| - 1], a)
  {
    states', labels' := states + [Apply(states[|states| - 1], a)], labels + [a];
  }

  lemma OutboxSendQueued(g: Gid) returns (states: seq<State>, labels: seq<Label>)
    ensures IsRun(states, labels)
    ensures states[|states| - 1] == State(Departures({}, {}), None, OutboxWaiting([g]), map[], true, [])
  {
    states, labels := [Init()], [];
    states, labels := Extend(states, labels, SetAuthority(true));
    states, labels := Extend(states, labels, SendCommand(g));
    states, labels := Extend(states, labels, OutboxNext);
  }

  lemma OutboxSendBegins(g: Gid) returns (states: seq<State>, labels: seq<Label>)
    ensures IsRun(states, labels)
    ensures states[|states| - 1]
            == State(Departures({}, {}), Some(MainTask), OutboxSending([g]), map[], true, [SendBegin(g)])
  {
    states, labels := OutboxSendQueued(g);
    states, labels := Extend(states, labels, MainLock);
    states, labels := Extend(states, labels, OutboxResolve(true));
  }

  /** With group authority, a send command to a group that is not being left sends. */
  lemma OutboxSendHappens(g: Gid) returns (states: seq<State>, labels: seq<Label>)
    ensures IsRun(states, labels)
    ensures var s := states[|states| - 1];
            s == State(Departures({}, {}), None, LoopHead, map[], true, [SendBegin(g), SendEnd(g)])
  {
    states, labels := OutboxSendBegins(g);
    states, labels := Extend(states, labels, OutboxSent);
    states, labels := Extend(states, labels, OutboxNext);
  }

  lemma AttachmentUploads(g: Gid) returns (states: seq<State>, labels: seq<Label>)
    ensures IsRun(states, labels)
    ensures states[|states| - 1]
            == State(Departures({}, {}), None, LoopHead, map[1 := Task(g, WaitingLock)], true, [SendBegin(g), SendEnd(g)])
  {
    states, labels := OutboxSendHappens(g);
    states, labels := Extend(states, labels, Spawn(1, g));
    states, labels := Extend(states, labels, TaskResolve(1, true));
    states, labels := Extend(states, labels, TaskUpload(1, true));
  }

  /** Then an attachment task sends, too. */
  lemma AttachmentSendHappens(g: Gid) returns (states: seq<State>, labels: seq<Label>)
    ensures IsRun(states, labels)
    ensures var s := states[|states| - 1];
            && s.groups == Departures({}, {}) && s.holder.None? && s.main.LoopHead? && s.authoritative
            && s.log == [SendBegin(g), SendEnd(g), SendBegin(g), SendEnd(g)]
  {
    states, labels := AttachmentUploads(g);
    states, labels := Extend(states, labels, TaskLock(1));
    states, labels := Extend(states, labels, TaskCheck(1, true));
    states, labels := Extend(states, labels, TaskSent(1));
  }

  /** And a leave that the server accepts is recorded. */
  lemma LeaveHappens(g: Gid) returns (states: seq<State>, labels: seq<Label>)
    ensures IsRun(states, labels)
    ensures states[|states| - 1].groups == Departures({}, {g})
    ensures states[|states| - 1].log == [SendBegin(g), SendEnd(g), SendBegin(g), SendEnd(g), Depart(g)]
  {
    states, labels := AttachmentSendHappens(g);
    states, labels := Extend(states, labels, LeaveCommand(g));
    states, labels := Extend(states, labels, MainLock);
    states, labels := Extend(states, labels, LeaveResolve(true));
    states, labels := Extend(states, labels, LeaveResult(true, []));
  }
}
