/** Tracking received messages from projection to durable acknowledgement: which identities are
    pending or recently completed, which delivery ids stand for which contents. */
module Projections {
  import opened Common
  import opened Contents
  import opened Acknowledgments

  const MAX_PENDING_MESSAGE_PROJECTIONS: nat := 64
  const RECENT_PROJECTION_IDENTITY_LIMIT: nat := 4096

  // ----- identities -----

  datatype Identities = Identities(pending: set<Identity>, completed: set<Identity>, order: seq<Identity>)

  function NoIdentities(): Identities { Identities({}, {}, []) }

  predicate CanReserve(ids: Identities, x: Identity) {
    x !in ids.completed && x !in ids.pending
  }

  function Reserve(ids: Identities, x: Identity): Identities {
    if x in ids.completed then ids else ids.(pending := ids.pending + {x})
  }

  function ReleasePending(ids: Identities, x: Identity): Identities {
    ids.(pending := ids.pending - {x})
  }

  /** Forget the oldest completed identities beyond the limit. */
  function Expire(ids: Identities): Identities
    decreases |ids.order|
  {
    if |ids.order| <= RECENT_PROJECTION_IDENTITY_LIMIT then ids
    else Expire(ids.(completed := ids.completed - {ids.order[0]}, order := ids.order[1..]))
  }

  function CompleteIdentity(ids: Identities, x: Identity): Identities {
    var rest := ids.pending - {x};
    if x in ids.completed then ids.(pending := rest)
    else Expire(Identities(rest, ids.completed + {x}, ids.order + [x]))
  }

  ghost predicate ValidIdentities(ids: Identities) {
    && ids.pending !! ids.completed
    && Distinct(ids.order) && |ids.order| <= RECENT_PROJECTION_IDENTITY_LIMIT
    && forall x :: x in ids.completed <==> x in ids.order
  }

  /** The last `n` elements of a sequence, or all of them. */
  function Latest<T>(s: seq<T>, n: nat): seq<T> {
    if |s| <= n then s else s[|s| - n..]
  }

  lemma CompleteNew(ids: Identities, x: Identity)
    requires ValidIdentities(ids) && x !in ids.completed
    ensures ValidIdentities(CompleteIdentity(ids, x))
    ensures CompleteIdentity(ids, x).pending == ids.pending - {x}
    ensures CompleteIdentity(ids, x).order == Latest(ids.order + [x], RECENT_PROJECTION_IDENTITY_LIMIT)
  {
    var order := ids.order + [x];
    assert Distinct(order);
    var full := Identities(ids.pending - {x}, ids.completed + {x}, order);
    if |order| > RECENT_PROJECTION_IDENTITY_LIMIT {
      assert order == [order[0]] + order[1..];
      assert order[0] !in order[1..];
      assert forall y :: y in order <==> y == order[0] || y in order[1..];
      assert forall y :: y in order <==> y in full.completed;
      var kept := full.(completed := full.completed - {order[0]}, order := order[1..]);
      assert Expire(full) == Expire(kept) == kept;
    } else {
      assert Expire(full) == full;
    }
  }

  // ----- projections -----

  datatype Projection = Projection(
    nextDeliveryId: nat,
    pending: map<Id, Content>,
    identities: Identities,
    inbox: Inbox)

  function NewProjection(): Projection {
    Projection(0, map[], NoIdentities(), NewInbox())
  }

  /** `next_delivery_id.wrapping_add(1).max(1)`: zero means "no acknowledgement". */
  function NextId(id: nat): nat {
    if id >= U64_MAX then 1 else id + 1
  }

  predicate HasCapacity(p: Projection) {
    |p.pending| < MAX_PENDING_MESSAGE_PROJECTIONS
  }

  predicate Tracks(p: Projection, c: Content) {
    HasCapacity(p) && CanReserve(p.identities, c.identity)
  }

  function Track(p: Projection, c: Content): Projection {
    if !Tracks(p, c) then p
    else
      var d := NextId(p.nextDeliveryId);
      Projection(d, p.pending[d := c], Reserve(p.identities, c.identity), Register(p.inbox, d))
  }

  function ReleaseId(p: Projection, d: Id): Projection {
    if d !in p.pending then p
    else p.(pending := p.pending - {d}, inbox := Unregister(p.inbox, d),
            identities := ReleasePending(p.identities, p.pending[d].identity))
  }

  function CompleteId(p: Projection, d: Id): Projection {
    if d !in p.pending then p
    else p.(pending := p.pending - {d}, inbox := Unregister(p.inbox, d),
            identities := CompleteIdentity(p.identities, p.pending[d].identity))
  }

  /** Pending ids, contents and identities stand in bijection, and exactly the pending ids may
      be acknowledged. */
  ghost predicate Matched(p: Projection) {
    && p.inbox.registered == p.pending.Keys
    && p.identities.pending == (set d | d in p.pending :: p.pending[d].identity)
    && forall d, e :: d in p.pending && e in p.pending && p.pending[d].identity == p.pending[e].identity ==> d == e
  }

  ghost predicate Coupled(p: Projection) {
    && Matched(p)
    && |p.pending| <= MAX_PENDING_MESSAGE_PROJECTIONS
    && ValidIdentities(p.identities)
  }

  /** No id has been handed out twice yet: the counter has not wrapped. */
  ghost predicate Unwrapped(p: Projection) {
    p.nextDeliveryId <= U64_MAX && forall d :: d in p.pending ==> 1 <= d <= p.nextDeliveryId
  }

  lemma TrackCoupled(p: Projection, c: Content)
    requires Coupled(p) && NextId(p.nextDeliveryId) !in p.pending
    ensures Coupled(Track(p, c))
  {
    if Tracks(p, c) {
      var d := NextId(p.nextDeliveryId);
      var q := Track(p, c);
      assert q.pending.Keys == p.pending.Keys + {d};
      assert forall e :: e in p.pending ==> q.pending[e] == p.pending[e];
      assert q.identities.pending == set e | e in q.pending :: q.pending[e].identity by {
        assert q.pending[d].identity == c.identity;
      }
    }
  }

  /** The bijection survives tracking exactly when the next id is not still in use: reusing a
      pending id would overwrite its content and strand its identity. */
  lemma TrackCoupledIff(p: Projection, c: Content)
    requires Coupled(p) && Tracks(p, c)
    ensures Coupled(Track(p, c)) <==> NextId(p.nextDeliveryId) !in p.pending
  {
    var d := NextId(p.nextDeliveryId);
    if d in p.pending {
      var q := Track(p, c);
      var x := p.pending[d].identity;
      assert x in q.identities.pending;
      assert forall e :: e in q.pending && e != d ==> q.pending[e] == p.pending[e];
      assert forall e :: e in q.pending ==> q.pending[e].identity != x;
      assert x !in (set e | e in q.pending :: q.pending[e].identity);
    } else {
      TrackCoupled(p, c);
    }
  }

  /** Short of wrap-around the next id is positive and new. */
  lemma FreshId(p: Projection)
    requires Unwrapped(p) && p.nextDeliveryId < U64_MAX
    ensures 0 < NextId(p.nextDeliveryId) && NextId(p.nextDeliveryId) !in p.pending
    ensures forall c :: Unwrapped(Track(p, c))
  {
  }

  lemma RemovedMatched(p: Projection, q: Projection, d: Id)
    requires Matched(p) && d in p.pending
    requires q.pending == p.pending - {d} && q.inbox.registered == p.inbox.registered - {d}
    requires q.identities.pending == p.identities.pending - {p.pending[d].identity}
    ensures Matched(q) && |q.pending| == |p.pending| - 1
  {
    assert q.pending.Keys == p.pending.Keys - {d};
    assert |q.pending.Keys| == |p.pending.Keys| - 1;
    assert forall e :: e in q.pending ==> q.pending[e] == p.pending[e];
  }

  lemma ReleaseCoupled(p: Projection, d: Id)
    requires Coupled(p)
    ensures Coupled(ReleaseId(p, d))
  {
    if d in p.pending {
      RemovedMatched(p, ReleaseId(p, d), d);
    }
  }

  lemma CompleteCoupled(p: Projection, d: Id)
    requires Coupled(p)
    ensures Coupled(CompleteId(p, d))
    ensures d in p.pending ==> CompleteId(p, d).identities.order
                               == Latest(p.identities.order + [p.pending[d].identity], RECENT_PROJECTION_IDENTITY_LIMIT)
  {
    if d in p.pending {
      var x := p.pending[d].identity;
      assert x in p.identities.pending;
      CompleteNew(p.identities, x);
      RemovedMatched(p, CompleteId(p, d), d);
    }
  }

  lemma InboxCoupled(p: Projection, b: Inbox)
    requires Coupled(p) && b.registered == p.inbox.registered
    ensures Coupled(p.(inbox := b))
  {
  }
}

/** Runs of the projection: every order of tracking, releasing, completing and host activity. */
module ProjectionRuns {
  import opened Common
  import opened Contents
  import opened Acknowledgments
  import opened Projections

  datatype Op =
    | TrackOp(content: Content)
    | ReleaseOp(id: Id)
    | CompleteOp(id: Id)
    | ForgetUnknown(id: Id)        // an acknowledged id that is no longer pending
    | HostSubmit(id: Id)
    | TakeBatch(maximum: nat)
    | Defer(id: Id)
    | Reactivate
    | CloseOp

  /** What happened to identities. */
  datatype Mark = Tracked(identity: Identity) | Released(identity: Identity) | Completed(identity: Identity)

  datatype Run = Run(projection: Projection, marks: seq<Mark>, wrapped: bool)

  function Start(): Run { Run(NewProjection(), [], false) }

  function Step(r: Run, op: Op): Run {
    var p := r.projection;
    match op
    case TrackOp(c) =>
      if Tracks(p, c)
      then Run(Track(p, c), r.marks + [Tracked(c.identity)], r.wrapped || p.nextDeliveryId >= U64_MAX)
      else r
    case ReleaseOp(d) =>
      if d in p.pending
      then r.(projection := ReleaseId(p, d), marks := r.marks + [Released(p.pending[d].identity)])
      else r
    case CompleteOp(d) =>
      if d in p.pending
      then r.(projection := CompleteId(p, d), marks := r.marks + [Completed(p.pending[d].identity)])
      else r
    case ForgetUnknown(d) =>
      if d in p.pending then r else r.(projection := p.(inbox := Unregister(p.inbox, d)))
    case HostSubmit(d) => r.(projection := p.(inbox := Submit(p.inbox, d)))
    case TakeBatch(n) => r.(projection := p.(inbox := TakeReady(p.inbox, n)))
    case Defer(d) => r.(projection := p.(inbox := DeferRetry(p.inbox, d)))
    case Reactivate => r.(projection := p.(inbox := ActivateRetries(p.inbox)))
    case CloseOp => r.(projection := p.(inbox := CloseInbox(p.inbox)))
  }

  function After(ops: seq<Op>): Run {
    if ops == [] then Start() else Step(After(ops[..|ops| - 1]), ops[|ops| - 1])
  }

  /** The identities completed, in order. */
  function Completions(marks: seq<Mark>): seq<Identity> {
    if marks == [] then []
    else Completions(marks[..|marks| - 1])
         + if marks[|marks| - 1].Completed? then [marks[|marks| - 1].identity] else []
  }

  /** How many contents were tracked. */
  function TrackedCount(marks: seq<Mark>): nat {
    if marks == [] then 0
    else TrackedCount(marks[..|marks| - 1]) + if marks[|marks| - 1].Tracked? then 1 else 0
  }

  /** Whether `x` is pending according to the marks: tracked and neither released nor completed since. */
  predicate OpenMark(marks: seq<Mark>, x: Identity) {
    if marks == [] then false
    else
      var m := marks[|marks| - 1];
      if m.identity == x then m.Tracked? else OpenMark(marks[..|marks| - 1], x)
  }

  ghost predicate Inv(r: Run) {
    && !r.wrapped ==>
         && Coupled(r.projection) && Unwrapped(r.projection)
         && r.projection.nextDeliveryId == TrackedCount(r.marks)
         && r.projection.identities.order == Latest(Completions(r.marks), RECENT_PROJECTION_IDENTITY_LIMIT)
         && forall x :: x in r.projection.identities.pending <==> OpenMark(r.marks, x)
  }

  lemma MarksAppend(marks: seq<Mark>, m: Mark, x: Identity)
    ensures Completions(marks + [m]) == if m.Completed? then Completions(marks) + [m.identity] else Completions(marks)
    ensures TrackedCount(marks + [m]) == TrackedCount(marks) + if m.Tracked? then 1 else 0
    ensures OpenMark(marks + [m], x) <==> if m.identity == x then m.Tracked? else OpenMark(marks, x)
  {
    assert (marks + [m])[..|marks|] == marks;
  }

  lemma LatestOfLatest<T>(s: seq<T>, x: T, n: nat)
    requires n > 0
    ensures Latest(Latest(s, n) + [x], n) == Latest(s + [x], n)
  {
  }

  lemma TrackKeeps(r: Run, c: Content)
    requires Inv(r) && Tracks(r.projection, c) && !Step(r, TrackOp(c)).wrapped
    ensures Inv(Step(r, TrackOp(c)))
  {
    FreshId(r.projection);
    TrackCoupled(r.projection, c);
    var r' := Step(r, TrackOp(c));
    forall x
      ensures x in r'.projection.identities.pending <==> OpenMark(r'.marks, x)
    {
      MarksAppend(r.marks, Tracked(c.identity), x);
    }
    MarksAppend(r.marks, Tracked(c.identity), c.identity);
  }

  lemma ReleaseKeeps(r: Run, d: Id)
    requires Inv(r) && d in r.projection.pending && !r.wrapped
    ensures Inv(Step(r, ReleaseOp(d)))
  {
    var x0 := r.projection.pending[d].identity;
    ReleaseCoupled(r.projection, d);
    var r' := Step(r, ReleaseOp(d));
    forall x
      ensures x in r'.projection.identities.pending <==> OpenMark(r'.marks, x)
    {
      MarksAppend(r.marks, Released(x0), x);
    }
    MarksAppend(r.marks, Released(x0), x0);
  }

  lemma CompleteKeeps(r: Run, d: Id)
    requires Inv(r) && d in r.projection.pending && !r.wrapped
    ensures Inv(Step(r, CompleteOp(d)))
  {
    var p := r.projection;
    var x0 := p.pending[d].identity;
    assert x0 in p.identities.pending;
    CompleteCoupled(p, d);
    CompleteNew(p.identities, x0);
    LatestOfLatest(Completions(r.marks), x0, RECENT_PROJECTION_IDENTITY_LIMIT);
    var r' := Step(r, CompleteOp(d));
    forall x
      ensures x in r'.projection.identities.pending <==> OpenMark(r'.marks, x)
    {
      MarksAppend(r.marks, Completed(x0), x);
    }
    MarksAppend(r.marks, Completed(x0), x0);
  }

  lemma StepKeeps(r: Run, op: Op)
    requires Inv(r)
    ensures Inv(Step(r, op))
  {
    var p := r.projection;
    if !Step(r, op).wrapped {
      match op {
        case TrackOp(c) => if Tracks(p, c) { TrackKeeps(r, c); }
        case ReleaseOp(d) => if d in p.pending { ReleaseKeeps(r, d); }
        case CompleteOp(d) => if d in p.pending { CompleteKeeps(r, d); }
        case _ =>
          InboxCoupled(p, Step(r, op).projection.inbox);
      }
    }
  }

  /** A step leaves at most one mark, and a tracking mark only for a reservable identity. */
  lemma StepMarks(r: Run, op: Op)
    ensures var r' := Step(r, op);
            && (r.wrapped ==> r'.wrapped)
            && (r'.marks == r.marks
                || (exists m :: r'.marks == r.marks + [m] && (m.Tracked? ==> CanReserve(r.projection.identities, m.identity))))
  {
  }

  lemma {:induction false} RunInvariant(ops: seq<Op>)
    ensures Inv(After(ops))
  {
    if ops != [] {
      RunInvariant(ops[..|ops| - 1]);
      StepKeeps(After(ops[..|ops| - 1]), ops[|ops| - 1]);
    }
  }

  /** Coupling over every run short of wrap-around: registered ids are the pending ids, at most
      64; identities, contents and ids correspond one to one; completed identities are a
      duplicate-free list of at most 4096, apart from the pending ones; ids are positive. */
  lemma ProjectionCoupled(ops: seq<Op>)
    requires !After(ops).wrapped
    ensures var p := After(ops).projection;
            && p.inbox.registered == p.pending.Keys
            && |p.pending| <= MAX_PENDING_MESSAGE_PROJECTIONS
            && p.identities.pending == (set d | d in p.pending :: p.pending[d].identity)
            && |p.identities.pending| == |p.pending|
            && p.identities.pending !! p.identities.completed
            && Distinct(p.identities.order) && |p.identities.order| <= RECENT_PROJECTION_IDENTITY_LIMIT
            && |p.identities.completed| == |p.identities.order|
            && forall d :: d in p.pending ==> 1 <= d <= p.nextDeliveryId
  {
    RunInvariant(ops);
    var p := After(ops).projection;
    DistinctCardinality(p.identities.order, p.identities.completed);
    BijectionCardinality(p.pending, p.pending.Keys);
    assert p.identities.pending == set d | d in p.pending.Keys :: p.pending[d].identity;
  }

  /** Delivery ids are handed out as 1, 2, 3, ... : positive and never twice, short of wrap-around. */
  lemma DeliveryIdsCount(ops: seq<Op>, c: Content)
    requires !After(ops).wrapped && Tracks(After(ops).projection, c)
    requires After(ops).projection.nextDeliveryId < U64_MAX
    ensures var p := Track(After(ops).projection, c);
            && p.nextDeliveryId == TrackedCount(After(ops).marks) + 1
            && p.pending[p.nextDeliveryId] == c && p.nextDeliveryId !in After(ops).projection.pending
  {
    RunInvariant(ops);
    FreshId(After(ops).projection);
  }

  /** When a content is tracked: fewer than 64 are pending, its identity is not one of them, and it
      is not among the last 4096 completions. */
  lemma TracksIff(ops: seq<Op>, c: Content)
    requires !After(ops).wrapped
    ensures Tracks(After(ops).projection, c) <==>
            && |After(ops).projection.pending| < MAX_PENDING_MESSAGE_PROJECTIONS
            && !OpenMark(After(ops).marks, c.identity)
            && c.identity !in Latest(Completions(After(ops).marks), RECENT_PROJECTION_IDENTITY_LIMIT)
  {
    RunInvariant(ops);
    CompletedIsLatest(ops, c.identity);
  }

  /** The bounded memory of completed identities is exactly the last 4096 completions. */
  lemma CompletedIsLatest(ops: seq<Op>, x: Identity)
    requires !After(ops).wrapped
    ensures x in After(ops).projection.identities.completed <==>
            x in Latest(Completions(After(ops).marks), RECENT_PROJECTION_IDENTITY_LIMIT)
  {
    RunInvariant(ops);
  }

  lemma {:induction false} BijectionCardinality(m: map<Id, Content>, keys: set<Id>)
    requires keys <= m.Keys
    requires forall d, e :: d in keys && e in keys && m[d].identity == m[e].identity ==> d == e
    ensures |set d | d in keys :: m[d].identity| == |keys|
    decreases |keys|
  {
    var s := set d | d in keys :: m[d].identity;
    if keys == {} {
      assert s == {};
    } else {
      var d :| d in keys;
      var others := set e | e in keys - {d} :: m[e].identity;
      BijectionCardinality(m, keys - {d});
      assert s == others + {m[d].identity};
    }
  }

  // ----- the deduplication window -----

  lemma {:induction false} StillOpen(marks: seq<Mark>, i: nat, x: Identity)
    requires i < |marks| && marks[i] == Tracked(x)
    requires forall k :: i < k < |marks| ==> marks[k] != Released(x) && marks[k] != Completed(x)
    ensures OpenMark(marks, x)
    decreases |marks|
  {
    if i < |marks| - 1 {
      StillOpen(marks[..|marks| - 1], i, x);
    }
  }

  lemma {:induction false} CompletionsSplit(marks: seq<Mark>, i: nat)
    requires i <= |marks|
    ensures Completions(marks) == Completions(marks[..i]) + Completions(marks[i..])
    decreases |marks|
  {
    if i == |marks| {
      assert marks[..i] == marks && marks[i..] == [];
    } else {
      var front := marks[..|marks| - 1];
      CompletionsSplit(front, i);
      assert front[..i] == marks[..i];
      assert marks[i..][..|marks[i..]| - 1] == front[i..];
    }
  }

  lemma {:induction false} CompletionsMembers(marks: seq<Mark>, x: Identity)
    ensures x in Completions(marks) <==> Completed(x) in marks
  {
    if marks != [] {
      var front := marks[..|marks| - 1];
      CompletionsMembers(front, x);
      assert marks == front + [marks[|marks| - 1]];
    }
  }

  /** The identities completed strictly between two marks. */
  ghost function CompletedBetween(marks: seq<Mark>, i: nat, j: nat): set<Identity>
    requires i < j <= |marks|
  {
    set m | m in marks[i + 1..j] && m.Completed? :: m.identity
  }

  /** Marks of a run that later grew are a prefix of the later marks. */
  lemma {:induction false} MarksGrow(ops: seq<Op>, n: nat)
    requires n <= |ops|
    ensures After(ops[..n]).marks <= After(ops).marks
    ensures After(ops[..n]).wrapped ==> After(ops).wrapped
    decreases |ops|
  {
    if n == |ops| {
      assert ops[..n] == ops;
    } else {
      var front := ops[..|ops| - 1];
      StepMarks(After(front), ops[|ops| - 1]);
      MarksGrow(front, n);
      assert front[..n] == ops[..n];
    }
  }

  /** The run just before the operation that left mark `j`. */
  lemma {:induction false} BeforeMark(ops: seq<Op>, j: nat) returns (n: nat)
    requires j < |After(ops).marks|
    ensures n < |ops| && After(ops[..n]).marks == After(ops).marks[..j]
    ensures After(ops[..n + 1]).marks == After(ops).marks[..j + 1]
    decreases |ops|
  {
    var front := ops[..|ops| - 1];
    StepMarks(After(front), ops[|ops| - 1]);
    MarksPrefix(After(front).marks, After(ops).marks, j);
    if j < |After(front).marks| {
      n := BeforeMark(front, j);
      Prefixes(ops, n);
    } else {
      n := |ops| - 1;
      assert ops[..n + 1] == ops;
    }
  }

  lemma Prefixes(ops: seq<Op>, n: nat)
    requires n + 1 < |ops|
    ensures ops[..|ops| - 1][..n] == ops[..n] && ops[..|ops| - 1][..n + 1] == ops[..n + 1]
  {
  }

  lemma MarksPrefix(before: seq<Mark>, after: seq<Mark>, j: nat)
    requires after == before || exists m :: after == before + [m]
    requires j < |after|
    ensures j < |before| ==> after[..j] == before[..j] && after[..j + 1] == before[..j + 1]
    ensures j >= |before| ==> after[..j] == before && after[..j + 1] == after
  {
  }

  /** What tracking saw: an identity is tracked only when neither pending nor recently completed. */
  lemma TrackedMeansReservable(ops: seq<Op>, j: nat, x: Identity)
    requires !After(ops).wrapped
    requires j < |After(ops).marks| && After(ops).marks[j] == Tracked(x)
    ensures !OpenMark(After(ops).marks[..j], x)
    ensures x !in Latest(Completions(After(ops).marks[..j]), RECENT_PROJECTION_IDENTITY_LIMIT)
    ensures Distinct(Latest(Completions(After(ops).marks[..j]), RECENT_PROJECTION_IDENTITY_LIMIT))
  {
    var n := BeforeMark(ops, j);
    MarksGrow(ops, n);
    RunInvariant(ops[..n]);
    var r := After(ops[..n]);
    assert ops[..n + 1][..n] == ops[..n];
    assert After(ops[..n + 1]) == Step(r, ops[n]);
    StepMarks(r, ops[n]);
    assert After(ops[..n + 1]).marks == r.marks + [Tracked(x)];
  }

  /** While an identity is pending it is never tracked again: between two trackings it was
      released or completed. */
  lemma NeverTrackedTwiceWhilePending(ops: seq<Op>, i: nat, j: nat, x: Identity)
    requires !After(ops).wrapped
    requires i < j < |After(ops).marks|
    requires After(ops).marks[i] == Tracked(x) && After(ops).marks[j] == Tracked(x)
    ensures exists k :: i < k < j && (After(ops).marks[k] == Released(x) || After(ops).marks[k] == Completed(x))
  {
    var marks := After(ops).marks;
    TrackedMeansReservable(ops, j, x);
    if forall k :: i < k < j ==> marks[k] != Released(x) && marks[k] != Completed(x) {
      StillOpen(marks[..j], i, x);
    }
  }

  /** The deduplication window: a completed identity is tracked again only after 4096 other,
      pairwise distinct identities have completed in between. */
  lemma DeduplicationWindow(ops: seq<Op>, i: nat, j: nat, x: Identity)
    requires !After(ops).wrapped
    requires i < j < |After(ops).marks|
    requires After(ops).marks[i] == Completed(x) && After(ops).marks[j] == Tracked(x)
    ensures |CompletedBetween(After(ops).marks, i, j) - {x}| >= RECENT_PROJECTION_IDENTITY_LIMIT
  {
    var all := After(ops).marks;
    TrackedMeansReservable(ops, j, x);
    WindowAfter(all[..j], i, x);
    assert all[..j][i + 1..] == all[i + 1..j];
    var window := Latest(Completions(all[..j]), RECENT_PROJECTION_IDENTITY_LIMIT);
    forall y | y in window
      ensures y in CompletedBetween(all, i, j) - {x}
    {
      assert Completed(y) in all[i + 1..j];
      assert Completed(y).identity == y;
    }
    SubsetCardinality(window, CompletedBetween(all, i, j) - {x});
  }

  /** If `x` completed at mark `i` and is no longer in the window, the whole window completed
      after mark `i`. */
  lemma WindowAfter(marks: seq<Mark>, i: nat, x: Identity)
    requires i < |marks| && marks[i] == Completed(x)
    requires x !in Latest(Completions(marks), RECENT_PROJECTION_IDENTITY_LIMIT)
    ensures |Latest(Completions(marks), RECENT_PROJECTION_IDENTITY_LIMIT)| == RECENT_PROJECTION_IDENTITY_LIMIT
    ensures forall y :: y in Latest(Completions(marks), RECENT_PROJECTION_IDENTITY_LIMIT) ==>
              Completed(y) in marks[i + 1..]
  {
    CompletionsSplit(marks, i + 1);
    var early, late := Completions(marks[..i + 1]), Completions(marks[i + 1..]);
    assert marks[..i + 1][..i] == marks[..i];
    assert early[|early| - 1] == x;
    var all := early + late;
    if |late| < RECENT_PROJECTION_IDENTITY_LIMIT {
      InWindow(all, |early| - 1, RECENT_PROJECTION_IDENTITY_LIMIT);
      assert false;
    }
    WindowMembers(all, |early|);
    assert all[|early|..] == late;
    forall y | y in Latest(all, RECENT_PROJECTION_IDENTITY_LIMIT)
      ensures Completed(y) in marks[i + 1..]
    {
      CompletionsMembers(marks[i + 1..], y);
    }
  }

  lemma InWindow<T>(s: seq<T>, k: nat, n: nat)
    requires k < |s| && |s| - k <= n
    ensures s[k] in Latest(s, n)
  {
    if |s| > n {
      assert Latest(s, n)[k - (|s| - n)] == s[k];
    }
  }

  lemma WindowMembers(all: seq<Identity>, n: nat)
    requires n <= |all| && |all| - n >= RECENT_PROJECTION_IDENTITY_LIMIT
    ensures forall y :: y in Latest(all, RECENT_PROJECTION_IDENTITY_LIMIT) ==> y in all[n..]
    ensures |Latest(all, RECENT_PROJECTION_IDENTITY_LIMIT)| == RECENT_PROJECTION_IDENTITY_LIMIT
  {
    var window := Latest(all, RECENT_PROJECTION_IDENTITY_LIMIT);
    assert window == all[|all| - RECENT_PROJECTION_IDENTITY_LIMIT..];
    assert window == all[n..][|all| - n - RECENT_PROJECTION_IDENTITY_LIMIT..];
  }

  lemma {:induction false} SubsetCardinality<T>(s: seq<T>, elements: set<T>)
    requires Distinct(s) && forall x :: x in s ==> x in elements
    ensures |elements| >= |s|
  {
    if s != [] {
      assert s == [s[0]] + s[1..];
      SubsetCardinality(s[1..], elements - {s[0]});
    }
  }
}
