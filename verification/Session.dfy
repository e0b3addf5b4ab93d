/** The session object: phase, group-snapshot authority and reconnection backoff. */
module Sessions {

  datatype Phase = Initializing | Recovering | Ready

  datatype GroupSnapshot = Pending | Authoritative | Dirty

  datatype Session = Session(phase: Phase, groups: GroupSnapshot, nextDelay: nat)

  function NewSession(): Session { Session(Initializing, Pending, 0) }

  /** Seconds to wait before the n-th reconnection in a row. */
  function DelaySecs(n: nat): nat {
    match n
    case 0 => 1 case 1 => 2 case 2 => 4 case 3 => 8 case 4 => 16 case _ => 32
  }

  /** The backoff doubles up to its longest entry and stays there; it never gives up and never
      spins. */
  lemma BackoffDoublesThenHolds(n: nat)
    ensures 0 < DelaySecs(n) <= DelaySecs(n + 1) <= 32
    ensures n < 5 ==> DelaySecs(n + 1) == 2 * DelaySecs(n)
    ensures n >= 5 ==> DelaySecs(n) == 32
  {
  }

  predicate GroupsAuthoritative(s: Session) { !s.groups.Pending? }

  function NoteGroupContent(s: Session, hasGroup: bool): Session {
    if hasGroup && s.groups.Authoritative? then s.(groups := Dirty) else s
  }

  function EnterRecovery(s: Session): Session { s.(phase := Recovering, groups := Pending) }

  class SessionState {
    var phase: Phase
    var groups: GroupSnapshot
    var nextDelay: nat

    function Value(): Session
      reads this
    {
      Session(phase, groups, nextDelay)
    }

    constructor ()
      ensures Value() == NewSession()
    {
      phase, groups, nextDelay := Initializing, Pending, 0;
    }

    method NoteGroup(hasGroup: bool)
      modifies this`groups
      ensures Value() == NoteGroupContent(old(Value()), hasGroup)
      ensures GroupsAuthoritative(Value()) == old(GroupsAuthoritative(Value()))
      ensures groups == if hasGroup && old(groups).Authoritative? then Dirty else old(groups)
    {
      if hasGroup && groups.Authoritative? {
        groups := Dirty;
      }
    }

    /** `debug_assert!(!self.is_ready())`. */
    method MarkReady()
      requires !phase.Ready?
      modifies this`phase
      ensures Value() == old(Value()).(phase := Ready)
    {
      phase := Ready;
    }

    method Recover() returns (entered: bool)
      modifies this`phase, this`groups
      ensures entered == !old(phase).Recovering?
      ensures Value() == EnterRecovery(old(Value()))
      ensures phase.Recovering? && groups.Pending?
    {
      entered := !phase.Recovering?;
      phase := Recovering;
      groups := Pending;
    }

    /** `debug_assert!(self.is_recovering())`. */
    method NextRecoveryDelay() returns (secs: nat)
      requires phase.Recovering?
      modifies this`nextDelay
      ensures secs == DelaySecs(old(nextDelay)) && secs > 0
      ensures Value() == old(Value()).(nextDelay := old(nextDelay) + 1)
    {
      secs := DelaySecs(nextDelay);
      nextDelay := nextDelay + 1;
    }
  }
}

/** `ConnectionSession::run`: reconnecting, starting up, dispatching, recovering. */
module SessionRuns {
  import opened Common
  import opened Sessions

  /** Where the worker is. Raising the flag and emitting READY, and lowering it and emitting
      RECOVERING, are separate steps because the host reads the flag from its own thread. */
  datatype Control =
    | Top
    | AwaitingStart
    | Starting
    | MarkedReady
    | FlagRaised
    | Dispatching
    | FlagLowered
    | Announcing
    | Stopped

  datatype PhaseEvent = READY | RECOVERING

  datatype State = State(
    session: Session,
    readyFlag: bool,
    control: Control,
    events: seq<PhaseEvent>,
    delays: seq<nat>)          // recovery delays since the backoff was last reset

  function Init(): State { State(NewSession(), false, Top, [], []) }

  datatype Start = Started | TransientError | PermanentError

  datatype Label =
    | WaitOutRecovery
    | ReceiveStart(result: Start)
    | FinishStartup
    | RaiseFlag
    | EmitReady
    | GroupContent(hasGroup: bool)
    | GroupSync(ok: bool)
    | QueueEmpty
    | LoseConnection
    | EnterRecoveryStep
    | EmitRecovering
    | HostLowersFlag
    | Stop

  predicate Enabled(s: State, a: Label) {
    match a
    case WaitOutRecovery => s.control.Top?
    case ReceiveStart(_) => s.control.AwaitingStart?
    case FinishStartup => s.control.Starting?
    case RaiseFlag => s.control.MarkedReady?
    case EmitReady => s.control.FlagRaised?
    case GroupContent(_) => s.control.Dispatching?
    case GroupSync(_) => s.control.Dispatching?
    case QueueEmpty => s.control.Dispatching?
    case LoseConnection => s.control.Dispatching?
    case EnterRecoveryStep => s.control.FlagLowered?
    case EmitRecovering => s.control.Announcing?
    case HostLowersFlag => true
    case Stop => true
  }

  function Apply(s: State, a: Label): State
    requires Enabled(s, a)
  {
    var x := s.session;
    match a
    case WaitOutRecovery =>
      if x.phase.Recovering?
      then s.(session := x.(nextDelay := x.nextDelay + 1), delays := s.delays + [DelaySecs(x.nextDelay)],
              control := AwaitingStart)
      else s.(control := AwaitingStart)
    case ReceiveStart(result) =>
      (match result
       case Started => s.(control := Starting)
       case TransientError => s.(readyFlag := false, control := FlagLowered)
       case PermanentError => s.(readyFlag := false, control := Stopped))
    case FinishStartup =>
      if x.phase.Ready? then s.(control := Dispatching)
      else s.(session := x.(phase := Ready), control := MarkedReady)
    case RaiseFlag => s.(readyFlag := true, control := FlagRaised)
    case EmitReady => s.(events := s.events + [READY], control := Dispatching)
    case GroupContent(hasGroup) => s.(session := NoteGroupContent(x, hasGroup))
    case GroupSync(ok) => s.(session := x.(groups := if ok then Authoritative else Pending))
    case QueueEmpty => s.(session := x.(nextDelay := 0), delays := [])
    case LoseConnection => s.(readyFlag := false, control := FlagLowered)
    case EnterRecoveryStep =>
      s.(session := EnterRecovery(x), control := if x.phase.Recovering? then Top else Announcing)
    case EmitRecovering => s.(events := s.events + [RECOVERING], control := Top)
    case HostLowersFlag => s.(readyFlag := false)
    case Stop => s.(readyFlag := false, control := Stopped)
  }

  ghost predicate IsRun(states: seq<State>, labels: seq<Label>) {
    && |states| == |labels| + 1
    && states[0] == Init()
    && forall i {:trigger labels[i]} :: 0 <= i < |labels| ==>
         Enabled(states[i], labels[i]) && states[i + 1] == Apply(states[i], labels[i])
  }

  function Last(events: seq<PhaseEvent>): Option<PhaseEvent> {
    if events == [] then None else Some(events[|events| - 1])
  }

  ghost predicate Alternating(events: seq<PhaseEvent>) {
    forall i :: 0 <= i < |events| - 1 ==> events[i] != events[i + 1]
  }

  /** How the phase, the last event and the place in the loop go together. */
  ghost predicate Placed(s: State) {
    var p, e := s.session.phase, Last(s.events);
    match s.control
    case Top => (p.Initializing? && e.None?) || (p.Recovering? && e == Some(RECOVERING))
    case AwaitingStart => (p.Initializing? && e.None?) || (p.Recovering? && e == Some(RECOVERING))
    case Starting => (p.Initializing? && e.None?) || (p.Recovering? && e == Some(RECOVERING))
    case MarkedReady => p.Ready? && e != Some(READY)
    case FlagRaised => p.Ready? && e != Some(READY)
    case Dispatching => p.Ready? && e == Some(READY)
    case FlagLowered =>
      || (p.Initializing? && e.None?)
      || (p.Recovering? && e == Some(RECOVERING))
      || (p.Ready? && e == Some(READY))
    case Announcing => p.Recovering? && e != Some(RECOVERING)
    case Stopped => true
  }

  ghost predicate Inv(s: State) {
    && Placed(s)
    && Alternating(s.events)
    && (s.readyFlag ==> s.session.phase.Ready? && (s.control.FlagRaised? || s.control.Dispatching?))
    && (GroupsAuthoritative(s.session) ==> s.session.phase.Ready?)
    && |s.delays| == s.session.nextDelay
    && forall i :: 0 <= i < |s.delays| ==> s.delays[i] == DelaySecs(i)
  }

  lemma StepKeeps(s: State, a: Label)
    requires Inv(s) && Enabled(s, a)
    ensures Inv(Apply(s, a))
  {
  }

  lemma {:induction false} RunInvariant(states: seq<State>, labels: seq<Label>, k: nat)
    requires IsRun(states, labels) && k < |states|
    ensures Inv(states[k])
  {
    if k > 0 {
      RunInvariant(states, labels, k - 1);
      StepKeeps(states[k - 1], labels[k - 1]);
    }
  }

  /** READY and RECOVERING strictly alternate over the whole run. */
  lemma PhaseEventsAlternate(states: seq<State>, labels: seq<Label>, k: nat, i: nat)
    requires IsRun(states, labels) && k < |states| && i + 1 < |states[k].events|
    ensures states[k].events[i] != states[k].events[i + 1]
  {
    RunInvariant(states, labels, k);
  }

  /** Whether the latest group synchronization succeeded, with no recovery since. */
  predicate Synchronized(labels: seq<Label>) {
    if labels == [] then false
    else
      match labels[|labels| - 1]
      case GroupSync(ok) => ok
      case EnterRecoveryStep => false
      case _ => Synchronized(labels[..|labels| - 1])
  }

  /** Group authority is exactly that. */
  lemma {:induction false} AuthorityIff(states: seq<State>, labels: seq<Label>, k: nat)
    requires IsRun(states, labels) && k < |states|
    ensures GroupsAuthoritative(states[k].session) <==> Synchronized(labels[..k])
  {
    if k > 0 {
      AuthorityIff(states, labels, k - 1);
      assert labels[..k][..k - 1] == labels[..k - 1] && labels[..k][k - 1] == labels[k - 1];
    }
  }

  /** And each phase is announced: while dispatching the last of them is READY, and a worker that
      waits to reconnect has announced RECOVERING, or nothing before its first start. */
  lemma PhasesAreAnnounced(states: seq<State>, labels: seq<Label>, k: nat)
    requires IsRun(states, labels) && k < |states|
    ensures states[k].control.Dispatching? ==> Last(states[k].events) == Some(READY)
    ensures states[k].control.Top? || states[k].control.AwaitingStart? ==>
              if states[k].session.phase.Recovering? then Last(states[k].events) == Some(RECOVERING)
              else states[k].session.phase.Initializing? && states[k].events == []
  {
    RunInvariant(states, labels, k);
  }

  /** The flag the host reads is up only in phase Ready, every dispatch iteration sees phase
      Ready, and group authority exists only then: recovery always withdraws it. */
  lemma ReadyMeansReady(states: seq<State>, labels: seq<Label>, k: nat)
    requires IsRun(states, labels) && k < |states|
    ensures states[k].readyFlag ==> states[k].session.phase.Ready?
    ensures states[k].control.Dispatching? ==> states[k].session.phase.Ready?
    ensures !states[k].session.phase.Ready? ==> !GroupsAuthoritative(states[k].session)
  {
    RunInvariant(states, labels, k);
  }

  /** The debug assertions hold wherever they are evaluated: `mark_ready` is never called in
      phase Ready, and a recovery delay is taken exactly while recovering. */
  lemma DebugAssertionsHold(states: seq<State>, labels: seq<Label>, k: nat)
    requires IsRun(states, labels) && k < |labels|
    ensures labels[k].FinishStartup? ==> !states[k].session.phase.Ready?
    ensures labels[k].WaitOutRecovery? ==>
              if states[k].session.phase.Recovering? then |states[k + 1].delays| == |states[k].delays| + 1
              else states[k + 1].delays == states[k].delays
  {
    RunInvariant(states, labels, k);
  }

  /** The waits since the receive queue was last seen empty. */
  ghost function Waits(states: seq<State>, labels: seq<Label>, k: nat): nat
    requires k < |states| == |labels| + 1
  {
    if k == 0 || labels[k - 1].QueueEmpty? then 0
    else Waits(states, labels, k - 1)
         + if labels[k - 1].WaitOutRecovery? && states[k - 1].session.phase.Recovering? then 1 else 0
  }

  /** Each of them took one delay, and the next continues the table from there: the backoff starts
      over exactly when the queue has been seen empty. */
  lemma {:induction false} DelaysCountWaits(states: seq<State>, labels: seq<Label>, k: nat)
    requires IsRun(states, labels) && k < |states|
    ensures |states[k].delays| == states[k].session.nextDelay == Waits(states, labels, k)
  {
    if k > 0 {
      DelaysCountWaits(states, labels, k - 1);
      assert Enabled(states[k - 1], labels[k - 1]);
    }
  }

  /** Since the last reset the delays have doubled from one second to 32 and stayed there; none
      was zero. */
  lemma DelaysFollowTheTable(states: seq<State>, labels: seq<Label>, k: nat, i: nat)
    requires IsRun(states, labels) && k < |states| && i < |states[k].delays|
    ensures states[k].delays[i] == DelaySecs(i) && 0 < states[k].delays[i] <= 32
    ensures i == 0 ==> states[k].delays[i] == 1
    ensures 0 < i ==> states[k].delays[i] == if i <= 5 then 2 * states[k].delays[i - 1] else states[k].delays[i - 1]
  {
    RunInvariant(states, labels, k);
    BackoffDoublesThenHolds(i);
    if i > 0 {
      BackoffDoublesThenHolds(i - 1);
    }
  }
}
