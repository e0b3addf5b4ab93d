/** Admission of outgoing attachments: a bounded set of requests with a byte total, and the
    compare-and-swap cell that decides between cancellation and completion. */
module AttachmentAdmissions {

  const MAX_ATTACHMENT_BYTES: nat := 25 * 1024 * 1024
  const MAX_ADMITTED_BYTES: nat := 50 * 1024 * 1024
  const MAX_ADMITTED: nat := 2

  type RequestId = nat

  datatype Admission = Admission(bytes: nat, requests: map<RequestId, nat>)

  datatype Verdict = Admitted | Invalid | Capacity

  function Judge(a: Admission, id: RequestId, bytes: nat): Verdict {
    if id == 0 || bytes == 0 || bytes > MAX_ATTACHMENT_BYTES then Invalid
    else if id in a.requests then Invalid
    else if |a.requests| >= MAX_ADMITTED || a.bytes + bytes > MAX_ADMITTED_BYTES then Capacity
    else Admitted
  }

  function TryReserve(a: Admission, id: RequestId, bytes: nat): Admission {
    if Judge(a, id, bytes).Admitted? then Admission(a.bytes + bytes, a.requests[id := bytes]) else a
  }

  /** Dropping a permit: `bytes.saturating_sub(entry.bytes)`. */
  function Release(a: Admission, id: RequestId): Admission {
    if id !in a.requests then a
    else Admission(if a.requests[id] <= a.bytes then a.bytes - a.requests[id] else 0, a.requests - {id})
  }

  ghost function Sum(m: map<RequestId, nat>): nat
    decreases |m|
  {
    if m.Keys == {} then 0
    else
      var k :| k in m;
      assert (m - {k}).Keys == m.Keys - {k};
      m[k] + Sum(m - {k})
  }

  lemma {:induction false} SumSplit(m: map<RequestId, nat>, k: RequestId)
    requires k in m
    ensures Sum(m) == m[k] + Sum(m - {k})
    decreases |m|
  {
    var c :| c in m && Sum(m) == m[c] + Sum(m - {c});
    if c != k {
      var rest := m - {c};
      assert rest.Keys == m.Keys - {c};
      SumSplit(rest, k);
      assert (m - {k}).Keys == m.Keys - {k};
      SumSplit(m - {k}, c);
      assert rest - {k} == (m - {k}) - {c};
    }
  }

  ghost predicate Exact(a: Admission) {
    && a.bytes == Sum(a.requests) <= MAX_ADMITTED_BYTES
    && |a.requests| <= MAX_ADMITTED
    && forall id :: id in a.requests ==> id != 0 && 0 < a.requests[id] <= MAX_ATTACHMENT_BYTES
  }

  lemma ReserveExact(a: Admission, id: RequestId, bytes: nat)
    requires Exact(a)
    ensures Exact(TryReserve(a, id, bytes))
  {
    var b := TryReserve(a, id, bytes);
    if Judge(a, id, bytes).Admitted? {
      SumSplit(b.requests, id);
      assert b.requests - {id} == a.requests;
    }
  }

  lemma ReleaseExact(a: Admission, id: RequestId)
    requires Exact(a)
    ensures Exact(Release(a, id))
  {
    if id in a.requests {
      SumSplit(a.requests, id);
      assert (a.requests - {id}).Keys == a.requests.Keys - {id};
    }
  }

  /** Dropping a permit undoes its reservation exactly. */
  lemma ReleaseUndoesReserve(a: Admission, id: RequestId, bytes: nat)
    requires Exact(a) && Judge(a, id, bytes).Admitted?
    ensures Release(TryReserve(a, id, bytes), id) == a
  {
    assert a.requests[id := bytes] - {id} == a.requests;
  }

  datatype Op = ReserveOp(id: RequestId, bytes: nat) | DropOp(id: RequestId)

  function After(ops: seq<Op>): Admission {
    if ops == [] then Admission(0, map[])
    else
      var a := After(ops[..|ops| - 1]);
      match ops[|ops| - 1]
      case ReserveOp(id, bytes) => TryReserve(a, id, bytes)
      case DropOp(id) => Release(a, id)
  }

  /** Over every history the total is the exact sum of the admitted requests, within both limits. */
  lemma {:induction false} AdmissionExact(ops: seq<Op>)
    ensures Exact(After(ops))
  {
    if ops == [] {
      assert Sum(map[]) == 0;
    } else {
      AdmissionExact(ops[..|ops| - 1]);
      var a := After(ops[..|ops| - 1]);
      match ops[|ops| - 1] {
        case ReserveOp(id, bytes) => ReserveExact(a, id, bytes);
        case DropOp(id) => ReleaseExact(a, id);
      }
    }
  }

  class AttachmentAdmission {
    var bytes: nat
    var requests: map<RequestId, nat>

    function Value(): Admission
      reads this
    {
      Admission(bytes, requests)
    }

    constructor ()
      ensures Value() == Admission(0, map[])
    {
      bytes, requests := 0, map[];
    }

    method Reserve(id: RequestId, size: nat) returns (verdict: Verdict)
      modifies this
      ensures verdict == Judge(old(Value()), id, size)
      ensures Value() == TryReserve(old(Value()), id, size)
      ensures verdict.Invalid? <==> id == 0 || size == 0 || size > MAX_ATTACHMENT_BYTES || id in old(requests)
      ensures verdict.Admitted? <==>
              && id != 0 && 0 < size <= MAX_ATTACHMENT_BYTES && id !in old(requests)
              && |old(requests)| < MAX_ADMITTED && old(bytes) + size <= MAX_ADMITTED_BYTES
      ensures verdict.Admitted? ==> requests == old(requests)[id := size] && bytes == old(bytes) + size
      ensures !verdict.Admitted? ==> requests == old(requests) && bytes == old(bytes)
    {
      if id == 0 || size == 0 || size > MAX_ATTACHMENT_BYTES {
        return Invalid;
      }
      if id in requests {
        return Invalid;
      }
      if |requests| >= MAX_ADMITTED || bytes + size > MAX_ADMITTED_BYTES {
        return Capacity;
      }
      bytes := bytes + size;
      requests := requests[id := size];
      return Admitted;
    }

    method DropPermit(id: RequestId)
      modifies this
      ensures Value() == Release(old(Value()), id)
    {
      if id in requests {
        var entry := requests[id];
        requests := requests - {id};
        bytes := if entry <= bytes then bytes - entry else 0;
      }
    }
  }

  // ----- the lifecycle cell -----

  datatype Lifecycle = ActiveCell | CancelledCell | TerminalCell

  /** `compare_exchange(ACTIVE, target)`. */
  function Exchange(cell: Lifecycle, target: Lifecycle): Lifecycle {
    if cell.ActiveCell? then target else cell
  }

  class AttachmentControl {
    var cell: Lifecycle
    var aborted: bool

    constructor ()
      ensures cell == ActiveCell && !aborted
    {
      cell, aborted := ActiveCell, false;
    }

    method Cancel() returns (won: bool)
      modifies this
      ensures won == old(cell).ActiveCell?
      ensures cell == Exchange(old(cell), CancelledCell)
      ensures aborted == (old(aborted) || won)
    {
      if !cell.ActiveCell? {
        return false;
      }
      cell := CancelledCell;
      aborted := true;
      return true;
    }

    method ClaimTerminal() returns (won: bool)
      modifies this`cell
      ensures won == old(cell).ActiveCell?
      ensures cell == Exchange(old(cell), TerminalCell)
    {
      won := cell.ActiveCell?;
      cell := if won then TerminalCell else cell;
    }
  }

  /** The cell after a sequence of competing exchanges, and who changed it. */
  function Race(targets: seq<Lifecycle>): Lifecycle {
    if targets == [] then ActiveCell else Exchange(Race(targets[..|targets| - 1]), targets[|targets| - 1])
  }

  /** However cancellations and claims interleave, the first one wins and the rest change nothing. */
  lemma {:induction false} FirstExchangeWins(targets: seq<Lifecycle>)
    requires targets != [] && forall x :: x in targets ==> !x.ActiveCell?
    ensures Race(targets) == targets[0]
  {
    var front := targets[..|targets| - 1];
    if front != [] {
      FirstExchangeWins(front);
    } else {
      assert Race(front) == ActiveCell;
    }
  }
}
