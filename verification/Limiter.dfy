/** The per-egress concurrency gate. */
module Limiter {
  import opened Config

  type Slots = map<Id, nat>

  function InUse(cur: Slots, id: Id): nat { if id in cur then cur[id] else 0 }

  /** Only capped traffic is counted. */
  function TryAcquire(cur: Slots, id: Id, max: int): (Slots, bool) {
    if max <= 0 then (cur, true)
    else if InUse(cur, id) >= max then (cur, false)
    else (cur[id := InUse(cur, id) + 1], true)
  }

  /** Releasing decrements whatever count there is, capped or not. */
  function Released(cur: Slots, id: Id): Slots {
    if InUse(cur, id) > 0 then cur[id := InUse(cur, id) - 1] else cur
  }

  /** A limiter call made by some other request. */
  datatype SlotOp = AcquireOp(id: Id, max: int) | ReleaseOp(id: Id)

  function Apply(cur: Slots, op: SlotOp): Slots {
    match op
    case AcquireOp(id, max) => TryAcquire(cur, id, max).0
    case ReleaseOp(id) => Released(cur, id)
  }

  function ApplyUpTo(cur: Slots, ops: seq<SlotOp>, n: nat): Slots
    requires n <= |ops|
  {
    if n == 0 then cur else Apply(ApplyUpTo(cur, ops, n - 1), ops[n - 1])
  }

  class Limiter {
    var cur: Slots

    constructor ()
      ensures cur == map[]
    {
      cur := map[];
    }

    method Acquire(id: Id, max: int) returns (ok: bool)
      modifies this
      ensures (cur, ok) == TryAcquire(old(cur), id, max)
    {
      if max <= 0 {
        return true;
      }
      if InUse(cur, id) >= max {
        return false;
      }
      cur := cur[id := InUse(cur, id) + 1];
      return true;
    }

    method Release(id: Id)
      modifies this
      ensures cur == Released(old(cur), id)
    {
      if InUse(cur, id) > 0 {
        cur := cur[id := InUse(cur, id) - 1];
      }
    }

    /** A soft check: no reservation is made. */
    method Peek(id: Id, max: int) returns (free: bool)
      ensures free == TryAcquire(cur, id, max).1
    {
      if max <= 0 {
        return true;
      }
      return InUse(cur, id) < max;
    }

    /** The calls other requests make while this one is between two of its own. */
    method Interleave(ops: seq<SlotOp>)
      modifies this
      ensures cur == ApplyUpTo(old(cur), ops, |ops|)
    {
      for i := 0 to |ops|
        invariant cur == ApplyUpTo(old(cur), ops, i)
      {
        match ops[i] {
          case AcquireOp(id, max) =>
            var _ := Acquire(id, max);
          case ReleaseOp(id) =>
            Release(id);
        }
      }
    }
  }
}
