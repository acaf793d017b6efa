/** The cross-egress attempt loop, as atomic steps and as the loop that performs them. */
module Executor {
  import opened Config
  import opened Provenance
  import opened Client
  import opened Evidence
  import opened Limiter

  /** One plan entry; `known` is false when the snapshot no longer resolves the id. */
  datatype Entry = Entry(id: Id, known: bool)

  datatype Policy = Policy(fallback: bool, maxAttempts: int, caps: map<Id, nat>)

  function Budget(p: Policy): nat {
    if !p.fallback || p.maxAttempts < 1 then 1 else p.maxAttempts
  }

  function Cap(p: Policy, id: Id): nat { if id in p.caps then p.caps[id] else 0 }

  /** The client-facing error: a call's own, or the one made up when nothing was dialed. */
  datatype Envelope = OfCall(status: int) | NothingDialed

  datatype Result = Result(live: bool, id: Option<Id>, attempts: nat, failure: Failure, err: Option<Envelope>)

  datatype Pc = Ready | Dialing(id: Id) | Done(result: Result)

  /** What became of each plan entry, in order. */
  datatype Happened =
    | Skipped(id: Id, intent: Intent, reason: SkipReason)
    | Dialed(id: Id, intent: Intent, world: World, result: CallResult)

  datatype Exec = Exec(
    plan: seq<Entry>, policy: Policy,
    next: nat, prev: Option<Id>, intent: Intent,
    attempts: nat, lastId: Option<Id>, lastFailure: Failure, lastErr: Option<Envelope>,
    terminalRow: int, rows: seq<Row>, dropped: nat,
    observed: seq<(Id, bool)>,
    pc: Pc,
    log: seq<Happened>)

  function Begun(plan: seq<Entry>, policy: Policy): Exec {
    Exec(plan, policy, 0, None, Normal, 0, None, NoDialFailure, None, -1, [], 0, [], Ready, [])
  }

  // ---- selection ----

  /** The next entry from `next` on whose id is not the excluded one. */
  function NextIndex(plan: seq<Entry>, next: nat, exclude: Option<Id>): (i: nat)
    requires next <= |plan|
    ensures next <= i <= |plan|
    decreases |plan| - next
  {
    if next == |plan| then next
    else if exclude == Some(plan[next].id) then NextIndex(plan, next + 1, exclude)
    else next
  }

  class PlanSelector {
    const plan: seq<Entry>
    var next: nat

    constructor (plan: seq<Entry>)
      ensures this.plan == plan && next == 0
    {
      this.plan := plan;
      next := 0;
    }

    method Next(exclude: Option<Id>) returns (sel: Option<Entry>)
      requires next <= |plan|
      modifies this
      ensures var i := NextIndex(plan, old(next), exclude);
              if i < |plan| then next == i + 1 && sel == Some(plan[i]) else next == |plan| && sel == None
    {
      while next < |plan|
        invariant old(next) <= next <= |plan|
        invariant NextIndex(plan, next, exclude) == NextIndex(plan, old(next), exclude)
      {
        var e := plan[next];
        if exclude == Some(e.id) {
          next := next + 1;
          continue;
        }
        next := next + 1;
        return Some(e);
      }
      return None;
    }
  }

  // ---- one atomic step at a time ----

  /** The plan is over: the last real verdict, or the made-up one when nothing was dialed. */
  function Finish(x: Exec): Exec {
    if x.lastErr.Some? then
      x.(rows := if 0 <= x.terminalRow < |x.rows|
                 then x.rows[x.terminalRow := x.rows[x.terminalRow].(decision := Stop)] else x.rows,
         pc := Done(Result(false, x.lastId, x.attempts, x.lastFailure, x.lastErr)))
    else
      x.(pc := Done(Result(false, x.lastId, x.attempts, x.lastFailure, Some(NothingDialed))))
  }

  function PassOver(x: Exec, id: Id, reason: SkipReason): Exec {
    var y := x.(rows := Appended(x.rows, SkipRow(id, x.intent, reason)),
                dropped := x.dropped + if |x.rows| >= MAX_ROWS then 1 else 0,
                log := x.log + [Skipped(id, x.intent, reason)]);
    if x.policy.fallback then y else Finish(y)
  }

  /** Selects the next entry and either passes it over or takes its slot and starts dialing. */
  function Offer(x: Exec, builds: bool, cur: Slots): (out: (Exec, Slots))
    requires x.pc.Ready? && x.next <= |x.plan|
    ensures out.0.plan == x.plan && x.next <= out.0.next <= |x.plan| && (!out.0.pc.Done? ==> out.0.next > x.next)
  {
    var i := NextIndex(x.plan, x.next, x.prev);
    if i == |x.plan| then (Finish(x.(next := i)), cur)
    else
      var e := x.plan[i];
      var y := x.(next := i + 1);
      if !e.known then (PassOver(y, e.id, UnknownEgress), cur)
      else if !builds then (PassOver(y, e.id, TransportBuild), cur)
      else
        var (cur', ok) := TryAcquire(cur, e.id, Cap(x.policy, e.id));
        if !ok then (PassOver(y, e.id, SlotFull), cur')
        else (y.(attempts := x.attempts + 1, lastId := Some(e.id), pc := Dialing(e.id)), cur')
  }

  function DialRow(id: Id, attempt: nat, intent: Intent, f: Failure, decision: Decision): Row {
    Identify(BareRow(f), id, attempt, intent)
    .(health := if MarksEgressHealth(f) then Marked else Neutral, decision := decision)
  }

  predicate Stops(x: Exec, f: Failure) { !ReplaySafe(f) || x.attempts >= Budget(x.policy) }

  /** A failed dial frees its slot, then either stops the request or moves it to another egress. */
  function SettleFailure(x: Exec, id: Id, f: Failure, status: int): Exec {
    var stops := Stops(x, f);
    var y := x.(lastFailure := f, lastErr := Some(OfCall(status)),
                rows := Appended(x.rows, DialRow(id, x.attempts, x.intent, f, if stops then Stop else Fallback)),
                dropped := x.dropped + if |x.rows| >= MAX_ROWS then 1 else 0,
                observed := if MarksEgressHealth(f) then x.observed + [(id, false)] else x.observed);
    if stops then y.(pc := Done(Result(false, Some(id), x.attempts, f, Some(OfCall(status)))))
    else y.(terminalRow := if |x.rows| >= MAX_ROWS then -1 else |x.rows|,
            intent := NewEgress, prev := Some(id), pc := Ready)
  }

  function SettleLive(x: Exec, id: Id, f: Failure): Exec {
    x.(lastFailure := f, observed := x.observed + [(id, true)], pc := Done(Result(true, Some(id), x.attempts, f, None)))
  }

  /** The dial's verdict is in: relay it, stop on it, or move to another egress. */
  function Settle(x: Exec, w: World, result: CallResult, cur: Slots): (out: (Exec, Slots))
    requires x.pc.Dialing?
    ensures out.0.plan == x.plan && out.0.next == x.next && !out.0.pc.Dialing?
  {
    var id := x.pc.id;
    var y := x.(log := x.log + [Dialed(id, x.intent, w, result)]);
    match result
    case Live(origin, state) => (SettleLive(y, id, Failure(Success, origin, NoPhase, state)), cur)
    case Failed(f, status) => (SettleFailure(y, id, f, status), Released(cur, id))
  }

  // ---- one request on its own, with everyone else's limiter calls in between ----

  datatype Around = Around(before: seq<SlotOp>, builds: bool, during: seq<SlotOp>, call: World)

  function Others(cur: Slots, ops: seq<SlotOp>): Slots { ApplyUpTo(cur, ops, |ops|) }

  /** One iteration of the loop. */
  function Iterate(x: Exec, cur: Slots, a: Around): (out: (Exec, Slots))
    requires x.pc.Ready? && x.next <= |x.plan|
    ensures out.0.plan == x.plan && out.0.next <= |x.plan| && !out.0.pc.Dialing?
    ensures out.0.next >= x.next && (out.0.pc.Ready? ==> out.0.next > x.next)
  {
    var (y, cur1) := Offer(x, a.builds, Others(cur, a.before));
    if y.pc.Dialing? then Settle(y, a.call, Classify(a.call), Others(cur1, a.during)) else (y, cur1)
  }

  function Drive(x: Exec, cur: Slots, around: nat -> Around): (out: (Exec, Slots))
    requires !x.pc.Dialing? && x.next <= |x.plan|
    ensures out.0.pc.Done?
    decreases |x.plan| - x.next, if x.pc.Ready? then 1 else 0
  {
    if x.pc.Done? then (x, cur)
    else
      var (y, cur') := Iterate(x, cur, around(x.next));
      Drive(y, cur', around)
  }

  lemma DriveStep(x: Exec, cur: Slots, around: nat -> Around)
    requires x.pc.Ready? && x.next <= |x.plan|
    ensures var it := Iterate(x, cur, around(x.next)); Drive(x, cur, around) == Drive(it.0, it.1, around)
  {
  }

  datatype BodyStep = BodyClosed | SlotFreed

  /** The response body of a winning call. `steps` is history: what closing it did, in order. */
  class SlotReleaseBody {
    const slots: Limiter
    const id: Id
    var freed: bool
    ghost var steps: seq<BodyStep>

    constructor (slots: Limiter, id: Id)
      ensures this.slots == slots && this.id == id && !freed && steps == [] && Valid()
    {
      this.slots, this.id, freed, steps := slots, id, false, [];
    }

    /** The slot is freed at most once, and only after the body was closed. */
    ghost predicate Valid()
      reads this
    {
      && (freed <==> SlotFreed in steps)
      && (forall i | 0 <= i < |steps| && steps[i] == SlotFreed :: BodyClosed in steps[..i] && SlotFreed !in steps[..i])
    }

    method Close()
      requires Valid()
      modifies this, slots
      ensures Valid() && freed
      ensures steps == old(steps) + [BodyClosed] + if old(freed) then [] else [SlotFreed]
      ensures slots.cur == if old(freed) then old(slots.cur) else Released(old(slots.cur), id)
    {
      steps := steps + [BodyClosed];
      ghost var closed := steps;
      assert closed[|closed| - 1] == BodyClosed;
      assert forall i | 0 <= i < |old(steps)| :: closed[..i] == old(steps)[..i];
      if !freed {
        freed := true;
        slots.Release(id);
        steps := steps + [SlotFreed];
        assert steps[..|closed|] == closed && steps[|closed|] == SlotFreed;
        assert forall i | 0 <= i < |closed| :: steps[..i] == closed[..i];
      }
    }
  }

  /** The executor's loop over real recorder, limiter and selector objects. */
  class Execution {
    const policy: Policy
    const selector: PlanSelector
    const slots: Limiter
    const rec: Recorder
    var intent: Intent
    var prev: Option<Id>
    var attempts: nat
    var lastId: Option<Id>
    var lastFailure: Failure
    var lastErr: Option<Envelope>
    var terminalRow: int
    var observed: seq<(Id, bool)>
    var pc: Pc
    ghost var log: seq<Happened>

    constructor (plan: seq<Entry>, policy: Policy, slots: Limiter)
      ensures this.slots == slots && fresh(selector) && fresh(rec)
      ensures View() == Begun(plan, policy) && Separate()
    {
      this.policy, this.slots := policy, slots;
      selector := new PlanSelector(plan);
      rec := new Recorder();
      intent, prev, attempts, lastId := Normal, None, 0, None;
      lastFailure, lastErr, terminalRow := NoDialFailure, None, -1;
      observed, pc, log := [], Ready, [];
    }

    ghost predicate Separate()
      reads this, selector
    {
      selector.next <= |selector.plan|
    }

    ghost function View(): Exec
      reads this, selector, rec
    {
      Exec(selector.plan, policy, selector.next, prev, intent, attempts, lastId, lastFailure, lastErr,
           terminalRow, rec.rows, rec.dropped, observed, pc, log)
    }

    method End()
      modifies this`pc, rec
      ensures View() == Finish(old(View()))
    {
      if lastErr.Some? {
        rec.Correct(terminalRow, Stop);
        pc := Done(Result(false, lastId, attempts, lastFailure, lastErr));
      } else {
        pc := Done(Result(false, lastId, attempts, lastFailure, Some(NothingDialed)));
      }
    }

    method Skip(id: Id, reason: SkipReason)
      modifies this`pc, this`log, rec
      ensures View() == PassOver(old(View()), id, reason)
    {
      rec.Append(SkipRow(id, intent, reason));
      log := log + [Skipped(id, intent, reason)];
      if !policy.fallback {
        End();
      }
    }

    method TakeOffer(builds: bool)
      requires pc.Ready? && Separate()
      modifies this, selector, rec, slots
      ensures Separate()
      ensures (View(), slots.cur) == Offer(old(View()), builds, old(slots.cur))
    {
      var sel := selector.Next(prev);
      match sel {
        case None =>
          End();
        case Some(e) =>
          if !e.known {
            Skip(e.id, UnknownEgress);
            return;
          }
          if !builds {
            Skip(e.id, TransportBuild);
            return;
          }
          var ok := slots.Acquire(e.id, Cap(policy, e.id));
          if !ok {
            Skip(e.id, SlotFull);
            return;
          }
          attempts := attempts + 1;
          lastId := Some(e.id);
          pc := Dialing(e.id);
      }
    }

    /** Appends the failed dial's row, names it, and stamps the decisions just made. */
    method RecordDial(id: Id, f: Failure, decision: Decision) returns (at: int)
      modifies rec
      ensures rec.rows == Appended(old(rec.rows), DialRow(id, attempts, intent, f, decision))
      ensures rec.dropped == old(rec.dropped) + if |old(rec.rows)| >= MAX_ROWS then 1 else 0
      ensures at == if |old(rec.rows)| >= MAX_ROWS then -1 else |old(rec.rows)|
    {
      var start := |rec.rows|;
      rec.Append(BareRow(f));
      rec.Annotate(start, id, attempts, intent);
      at := rec.Decide(start, if MarksEgressHealth(f) then Marked else Neutral, decision);
    }

    method TakeFailure(id: Id, f: Failure, status: int)
      modifies this, rec
      ensures View() == SettleFailure(old(View()), id, f, status)
      ensures selector.next == old(selector.next)
    {
      lastFailure := f;
      lastErr := Some(OfCall(status));
      if MarksEgressHealth(f) {
        observed := observed + [(id, false)];
      }
      if !ReplaySafe(f) || attempts >= Budget(policy) {
        var _ := RecordDial(id, f, Stop);
        pc := Done(Result(false, Some(id), attempts, f, lastErr));
        return;
      }
      terminalRow := RecordDial(id, f, Fallback);
      intent, prev, pc := NewEgress, Some(id), Ready;
    }

    method TakeVerdict(w: World)
      requires pc.Dialing? && Separate()
      modifies this, rec, slots
      ensures Separate()
      ensures (View(), slots.cur) == Settle(old(View()), w, Classify(w), old(slots.cur))
    {
      var id := pc.id;
      var verdict := DoClassified(w);
      log := log + [Dialed(id, intent, w, verdict)];
      match verdict {
        case Live(origin, state) =>
          lastFailure := Failure(Success, origin, NoPhase, state);
          observed := observed + [(id, true)];
          pc := Done(Result(true, Some(id), attempts, lastFailure, None));
        case Failed(f, status) =>
          slots.Release(id);
          TakeFailure(id, f, status);
      }
    }

    method Pass(a: Around)
      requires pc.Ready? && Separate()
      modifies this, selector, rec, slots
      ensures Separate()
      ensures (View(), slots.cur) == Iterate(old(View()), old(slots.cur), a)
      ensures !pc.Dialing? && (pc.Ready? ==> selector.next > old(selector.next))
    {
      slots.Interleave(a.before);
      TakeOffer(a.builds);
      if pc.Dialing? {
        slots.Interleave(a.during);
        TakeVerdict(a.call);
      }
    }

    method Execute(around: nat -> Around)
      requires pc.Ready? && Separate()
      modifies this, selector, rec, slots
      ensures (View(), slots.cur) == Drive(old(View()), old(slots.cur), around)
    {
      while pc.Ready?
        invariant Separate() && !pc.Dialing?
        invariant Drive(View(), slots.cur, around) == Drive(old(View()), old(slots.cur), around)
        decreases |selector.plan| - selector.next, if pc.Ready? then 1 else 0
      {
        DriveStep(View(), slots.cur, around);
        Pass(around(selector.next));
      }
    }
  }
}
