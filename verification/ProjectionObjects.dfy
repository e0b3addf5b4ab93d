/** The messages waiting to be projected, apart from those held back for group authority. */
module Replays {
  import opened Common
  import opened Contents

  datatype Replay = Replay(ready: seq<Content>, waiting: seq<Content>)

  function NoReplay(): Replay { Replay([], []) }

  function Push(r: Replay, c: Content, groupsAuthoritative: bool): Replay {
    if HasGroupContext(c.body) && !groupsAuthoritative then r.(waiting := r.waiting + [c])
    else r.(ready := r.ready + [c])
  }

  function PushAll(r: Replay, cs: seq<Content>, groupsAuthoritative: bool): Replay
    decreases |cs|
  {
    if cs == [] then r else PushAll(Push(r, cs[0], groupsAuthoritative), cs[1..], groupsAuthoritative)
  }

  function ActivateGroups(r: Replay): Replay { Replay(r.ready + r.waiting, []) }

  /** The contents that are (`group`) or are not held back for group authority, in order. */
  function Held(cs: seq<Content>, group: bool): seq<Content> {
    if cs == [] then []
    else (if HasGroupContext(cs[0].body) == group then [cs[0]] else []) + Held(cs[1..], group)
  }

  /** Loading keeps everything, each kind in order: without authority direct messages are ready
      and group messages wait; with authority all are ready in store order. */
  lemma {:induction false} PushAllSplits(r: Replay, cs: seq<Content>, groupsAuthoritative: bool)
    ensures groupsAuthoritative ==> PushAll(r, cs, true) == r.(ready := r.ready + cs)
    ensures !groupsAuthoritative ==>
              PushAll(r, cs, false) == Replay(r.ready + Held(cs, false), r.waiting + Held(cs, true))
    decreases |cs|
  {
    if cs != [] {
      PushAllSplits(Push(r, cs[0], groupsAuthoritative), cs[1..], groupsAuthoritative);
      assert cs == [cs[0]] + cs[1..];
      AppendOne(r.ready, cs[0], cs[1..]);
      AppendOne(r.ready, cs[0], Held(cs[1..], false));
      AppendOne(r.waiting, cs[0], Held(cs[1..], true));
    }
  }

  lemma {:induction false} HeldPartition(cs: seq<Content>)
    ensures multiset(Held(cs, true)) + multiset(Held(cs, false)) == multiset(cs)
  {
    if cs != [] {
      HeldPartition(cs[1..]);
      assert cs == [cs[0]] + cs[1..];
      assert multiset(cs) == multiset{cs[0]} + multiset(cs[1..]);
    }
  }

  /** Nothing is lost or duplicated by holding group messages back and releasing them later. */
  lemma ReplayConserves(cs: seq<Content>)
    ensures multiset(ActivateGroups(PushAll(NoReplay(), cs, false)).ready) == multiset(cs)
  {
    PushAllSplits(NoReplay(), cs, false);
    HeldPartition(cs);
    assert [] + Held(cs, false) == Held(cs, false);
    assert [] + Held(cs, true) == Held(cs, true);
  }
}

/** The projection and replay objects as the worker mutates them. */
module ProjectionObjects {
  import opened Common
  import opened Contents
  import opened Acknowledgments
  import opened AcknowledgmentObject
  import opened Projections
  import opened Replays

  class ProjectionIdentities {
    var pending: set<Identity>
    var completed: set<Identity>
    var completedOrder: seq<Identity>

    function Value(): Identities
      reads this
    {
      Identities(pending, completed, completedOrder)
    }

    constructor ()
      ensures Value() == NoIdentities()
    {
      pending, completed, completedOrder := {}, {}, [];
    }

    method ReserveIdentity(x: Identity) returns (reserved: bool)
      modifies this`pending
      ensures reserved == CanReserve(old(Value()), x)
      ensures reserved <==> x !in old(completed) && x !in old(pending)
      ensures reserved ==> pending == old(pending) + {x}
      ensures Value() == Reserve(old(Value()), x)
    {
      if x in completed {
        return false;
      }
      reserved := x !in pending;
      pending := pending + {x};
    }

    method Release(x: Identity)
      modifies this`pending
      ensures Value() == ReleasePending(old(Value()), x)
    {
      pending := pending - {x};
    }

    method Complete(x: Identity)
      modifies this
      ensures Value() == CompleteIdentity(old(Value()), x)
    {
      pending := pending - {x};
      if x in completed {
        return;
      }
      completed := completed + {x};
      completedOrder := completedOrder + [x];
      while |completedOrder| > RECENT_PROJECTION_IDENTITY_LIMIT
        invariant Expire(Value()) == CompleteIdentity(old(Value()), x)
        decreases |completedOrder|
      {
        var expired := completedOrder[0];
        completedOrder := completedOrder[1..];
        completed := completed - {expired};
      }
    }
  }

  class MessageProjection {
    var nextDeliveryId: nat
    var pending: map<Id, Content>
    const identities: ProjectionIdentities
    const acknowledgments: AcknowledgmentInbox

    function Value(): Projection
      reads this, identities, acknowledgments
    {
      Projection(nextDeliveryId, pending, identities.Value(), acknowledgments.Value())
    }

    constructor (acknowledgments: AcknowledgmentInbox)
      ensures this.acknowledgments == acknowledgments && fresh(identities)
      ensures Value() == NewProjection().(inbox := acknowledgments.Value())
    {
      nextDeliveryId, pending := 0, map[];
      identities := new ProjectionIdentities();
      this.acknowledgments := acknowledgments;
    }

    method TrackContent(c: Content) returns (id: Option<Id>)
      modifies this, identities, acknowledgments
      ensures Value() == Track(old(Value()), c)
      ensures id == if Tracks(old(Value()), c) then Some(NextId(old(nextDeliveryId))) else None
      ensures id.Some? <==> |old(pending)| < MAX_PENDING_MESSAGE_PROJECTIONS
                            && c.identity !in old(identities.pending) && c.identity !in old(identities.completed)
      ensures id.Some? ==> pending == old(pending)[id.value := c] && id.value in acknowledgments.registered
    {
      if |pending| >= MAX_PENDING_MESSAGE_PROJECTIONS {
        return None;
      }
      ghost var before := identities.Value();
      var reserved := identities.ReserveIdentity(c.identity);
      if !reserved {
        assert identities.Value() == before;
        return None;
      }
      nextDeliveryId := if nextDeliveryId >= U64_MAX then 1 else nextDeliveryId + 1;
      pending := pending[nextDeliveryId := c];
      acknowledgments.RegisterId(nextDeliveryId);
      return Some(nextDeliveryId);
    }

    method ReleaseDelivery(d: Id) returns (content: Option<Content>)
      modifies this, identities, acknowledgments
      ensures Value() == ReleaseId(old(Value()), d)
      ensures pending == old(pending) - {d}
      ensures identities.completed == old(identities.completed)
      ensures content == if d in old(pending) then Some(old(pending)[d]) else None
    {
      if d !in pending {
        return None;
      }
      content := Some(pending[d]);
      pending := pending - {d};
      acknowledgments.UnregisterId(d);
      identities.Release(content.value.identity);
    }

    method CompleteDelivery(d: Id) returns (content: Option<Content>)
      modifies this, identities, acknowledgments
      ensures Value() == CompleteId(old(Value()), d)
      ensures pending == old(pending) - {d}
      ensures content == if d in old(pending) then Some(old(pending)[d]) else None
    {
      if d !in pending {
        return None;
      }
      content := Some(pending[d]);
      pending := pending - {d};
      acknowledgments.UnregisterId(d);
      identities.Complete(content.value.identity);
    }
  }

  // ----- the replay queue -----

  class MessageReplayQueue {
    var ready: seq<Content>
    var waitingForGroups: seq<Content>

    function Value(): Replay
      reads this
    {
      Replay(ready, waitingForGroups)
    }

    constructor ()
      ensures Value() == NoReplay()
    {
      ready, waitingForGroups := [], [];
    }

    method PushContent(c: Content, groupsAuthoritative: bool)
      modifies this
      ensures Value() == Push(old(Value()), c, groupsAuthoritative)
      ensures if HasGroupContext(c.body) && !groupsAuthoritative
              then ready == old(ready) && waitingForGroups == old(waitingForGroups) + [c]
              else ready == old(ready) + [c] && waitingForGroups == old(waitingForGroups)
    {
      if HasGroupContext(c.body) && !groupsAuthoritative {
        waitingForGroups := waitingForGroups + [c];
      } else {
        ready := ready + [c];
      }
    }

    method Replace(messages: seq<Content>, groupsAuthoritative: bool)
      modifies this
      ensures Value() == PushAll(NoReplay(), messages, groupsAuthoritative)
      ensures multiset(ready) + multiset(waitingForGroups) == multiset(messages)
    {
      ready, waitingForGroups := [], [];
      for i := 0 to |messages|
        invariant PushAll(Value(), messages[i..], groupsAuthoritative)
                  == PushAll(NoReplay(), messages, groupsAuthoritative)
      {
        assert messages[i..][1..] == messages[i + 1..];
        PushContent(messages[i], groupsAuthoritative);
      }
      PushAllSplits(NoReplay(), messages, groupsAuthoritative);
      HeldPartition(messages);
      assert [] + Held(messages, false) == Held(messages, false);
      assert [] + Held(messages, true) == Held(messages, true);
      assert [] + messages == messages;
    }

    method Activate()
      modifies this
      ensures Value() == ActivateGroups(old(Value()))
      ensures ready == old(ready) + old(waitingForGroups) && waitingForGroups == []
    {
      ready, waitingForGroups := ready + waitingForGroups, [];
    }

    method PopReady() returns (content: Option<Content>)
      modifies this`ready
      ensures old(ready) == [] ==> content == None && ready == []
      ensures old(ready) != [] ==> content.Some? && [content.value] + ready == old(ready)
    {
      if ready == [] {
        return None;
      }
      content := Some(ready[0]);
      ready := ready[1..];
    }
  }
}
