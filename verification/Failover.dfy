/** What every step of a request's failover keeps, and what that means when it ends. */
module Failover {
  import opened Config
  import opened Provenance
  import opened Client
  import opened Evidence
  import opened Limiter
  import opened Executor

  datatype Dial = Dial(id: Id, world: World, result: CallResult)

  /** The calls a request made, in order. */
  ghost function Dials(log: seq<Happened>): seq<Dial> {
    if log == [] then []
    else
      var init, last := Dials(log[..|log| - 1]), log[|log| - 1];
      if last.Dialed? then init + [Dial(last.id, last.world, last.result)] else init
  }

  ghost function LogIds(log: seq<Happened>): (ids: seq<Id>)
    ensures |ids| == |log|
  {
    seq(|log|, i requires 0 <= i < |log| => log[i].id)
  }

  ghost function PlanIds(plan: seq<Entry>): (ids: seq<Id>)
    ensures |ids| == |plan| && forall i | 0 <= i < |plan| :: ids[i] == plan[i].id
  {
    seq(|plan|, i requires 0 <= i < |plan| => plan[i].id)
  }

  ghost predicate Lost(d: Dial) { d.result.Failed? }

  ghost predicate Safe(d: Dial) { d.result.Failed? && ReplaySafe(d.result.failure) }

  /** The rows the log calls for if every failed dial so far was followed by another. */
  ghost function RowsFor(log: seq<Happened>): seq<Row> {
    if log == [] then []
    else
      var init, last := RowsFor(log[..|log| - 1]), log[|log| - 1];
      match last
      case Skipped(id, intent, reason) => init + [SkipRow(id, intent, reason)]
      case Dialed(id, intent, _, result) =>
        match result
        case Live(_, _) => init
        case Failed(f, _) => init + [DialRow(id, |Dials(log)|, intent, f, Fallback)]
  }

  /** Where among those rows the last dial's row is; -1 when nothing was dialed. */
  ghost function LastDialRow(log: seq<Happened>): int {
    if log == [] then -1
    else if log[|log| - 1].Dialed? then |RowsFor(log[..|log| - 1])|
    else LastDialRow(log[..|log| - 1])
  }

  ghost function Marks(log: seq<Happened>): seq<(Id, bool)> {
    if log == [] then []
    else
      var init, last := Marks(log[..|log| - 1]), log[|log| - 1];
      if last.Skipped? then init
      else match last.result
           case Live(_, _) => init + [(last.id, true)]
           case Failed(f, _) => if MarksEgressHealth(f) then init + [(last.id, false)] else init
  }

  function Clip(rows: seq<Row>): seq<Row> { if |rows| <= MAX_ROWS then rows else rows[..MAX_ROWS] }

  lemma Snoc(log: seq<Happened>, e: Happened)
    ensures (log + [e])[..|log|] == log
    ensures LogIds(log + [e]) == LogIds(log) + [e.id]
  {
  }

  // ---- the invariant ----

  ghost predicate Walked(x: Exec) {
    && x.next <= |x.plan|
    && Distinct(PlanIds(x.plan))
    && LogIds(x.log) + (if x.pc.Dialing? then [x.pc.id] else []) == PlanIds(x.plan)[..x.next]
    && (x.prev.Some? ==> x.prev.value in LogIds(x.log))
  }

  ghost predicate Counted(x: Exec) {
    && x.attempts == |Dials(x.log)| + (if x.pc.Dialing? then 1 else 0)
    && x.attempts <= Budget(x.policy)
    && (x.pc.Ready? && x.attempts > 0 ==> x.attempts < Budget(x.policy))
    && (x.intent == Normal <==> Dials(x.log) == [])
  }

  ghost predicate AllSafe(dials: seq<Dial>) { forall i | 0 <= i < |dials| :: Safe(dials[i]) }

  ghost predicate Remembers(x: Exec) {
    var dials := Dials(x.log);
    && (x.pc.Dialing? ==> x.lastId == Some(x.pc.id))
    && if dials == [] then
      x.lastErr == None && x.lastFailure == NoDialFailure && (x.pc.Ready? ==> x.lastId == None)
    else
      var d := dials[|dials| - 1];
      && Lost(d)
      && x.lastErr == Some(OfCall(d.result.status))
      && x.lastFailure == d.result.failure
      && (x.pc.Ready? ==> x.lastId == Some(d.id))
  }

  ghost predicate Recorded(x: Exec) {
    && x.rows == Clip(RowsFor(x.log))
    && x.dropped == |RowsFor(x.log)| - |x.rows|
    && x.terminalRow == (if LastDialRow(x.log) < MAX_ROWS then LastDialRow(x.log) else -1)
    && LastDialRow(x.log) < |RowsFor(x.log)|
    && (LastDialRow(x.log) >= 0 <==> Dials(x.log) != [])
  }

  /** Holds between steps while the request is still running. */
  ghost predicate Running(x: Exec) {
    && !x.pc.Done?
    && Walked(x) && Counted(x) && AllSafe(Dials(x.log)) && Remembers(x) && Recorded(x)
    && x.observed == Marks(x.log)
  }

  /** The rows of an ended request: the last dial's own row, if kept, says stop unless that dial is live. */
  ghost function FinalRows(log: seq<Happened>, live: bool): seq<Row> {
    var rows, at := Clip(RowsFor(log)), LastDialRow(log);
    if !live && 0 <= at < |rows| then rows[at := rows[at].(decision := Stop)] else rows
  }

  /** Holds of a request that has ended. */
  ghost predicate Ended(x: Exec) {
    var dials := Dials(x.log);
    && x.pc.Done?
    && Walked(x)
    && |dials| <= Budget(x.policy)
    && (dials != [] ==> AllSafe(dials[..|dials| - 1]))
    && x.rows == FinalRows(x.log, x.pc.result.live)
    && x.dropped == |RowsFor(x.log)| - |x.rows|
    && x.observed == Marks(x.log)
    && x.pc.result.attempts == |dials|
    && (dials == [] ==> x.pc.result == Result(false, None, 0, NoDialFailure, Some(NothingDialed)))
    && (dials != [] ==>
          var d := dials[|dials| - 1];
          && x.pc.result.id == Some(d.id)
          && x.pc.result.live == d.result.Live?
          && (!x.pc.result.live ==>
                && x.pc.result.failure == d.result.failure
                && x.pc.result.err == Some(OfCall(d.result.status)))
          && (x.pc.result.live ==>
                && x.pc.result.err == None
                && x.pc.result.failure == Failure(Success, d.result.origin, NoPhase, d.result.state)))
  }

  ghost predicate Good(x: Exec) { Running(x) || Ended(x) }

  ghost predicate SameRequest(x: Exec, y: Exec) { y.plan == x.plan && y.policy == x.policy }

  // ---- every step keeps it ----

  lemma FinishEnds(x: Exec)
    requires Running(x) && x.pc.Ready?
    ensures Ended(Finish(x))
  {
  }

  /** Between two entries of the plan: the one just passed is not logged yet. */
  ghost predicate Passing(x: Exec, id: Id) {
    && x.pc.Ready? && x.next <= |x.plan| && Distinct(PlanIds(x.plan))
    && LogIds(x.log) + [id] == PlanIds(x.plan)[..x.next]
    && (x.prev.Some? ==> x.prev.value in LogIds(x.log))
    && Counted(x) && AllSafe(Dials(x.log)) && Remembers(x) && Recorded(x) && x.observed == Marks(x.log)
  }

  /** The entry recorded as skipped, before it is decided whether to go on. */
  function Noted(x: Exec, id: Id, reason: SkipReason): Exec {
    x.(rows := Appended(x.rows, SkipRow(id, x.intent, reason)),
       dropped := x.dropped + if |x.rows| >= MAX_ROWS then 1 else 0,
       log := x.log + [Skipped(id, x.intent, reason)])
  }

  /** How a skip extends what the log says. */
  lemma SkipLogged(log: seq<Happened>, id: Id, intent: Intent, reason: SkipReason)
    ensures var more := log + [Skipped(id, intent, reason)];
            && LogIds(more) == LogIds(log) + [id] && Dials(more) == Dials(log) && Marks(more) == Marks(log)
            && RowsFor(more) == RowsFor(log) + [SkipRow(id, intent, reason)] && LastDialRow(more) == LastDialRow(log)
  {
    Snoc(log, Skipped(id, intent, reason));
  }

  lemma SkipWalks(x: Exec, id: Id, reason: SkipReason)
    requires Passing(x, id)
    ensures Walked(Noted(x, id, reason))
  {
    SkipLogged(x.log, id, x.intent, reason);
    var y := Noted(x, id, reason);
    assert LogIds(y.log) + [] == LogIds(y.log);
  }

  lemma SkipRecords(x: Exec, id: Id, reason: SkipReason)
    requires Passing(x, id)
    ensures Recorded(Noted(x, id, reason))
  {
    SkipLogged(x.log, id, x.intent, reason);
  }

  lemma SkipRuns(x: Exec, id: Id, reason: SkipReason)
    requires Passing(x, id)
    ensures Running(Noted(x, id, reason))
  {
    SkipLogged(x.log, id, x.intent, reason);
    SkipWalks(x, id, reason);
    SkipRecords(x, id, reason);
  }

  lemma PassOverKeeps(x: Exec, id: Id, reason: SkipReason)
    requires Passing(x, id)
    ensures Good(PassOver(x, id, reason)) && SameRequest(x, PassOver(x, id, reason))
  {
    SkipRuns(x, id, reason);
    FinishEnds(Noted(x, id, reason));
    assert PassOver(x, id, reason) ==
           if x.policy.fallback then Noted(x, id, reason) else Finish(Noted(x, id, reason));
  }

  /** Why an entry is passed over, if it is. */
  function Skips(e: Entry, builds: bool, ok: bool): Option<SkipReason> {
    if !e.known then Some(UnknownEgress)
    else if !builds then Some(TransportBuild)
    else if !ok then Some(SlotFull)
    else None
  }

  /** An offer, once the entry is selected. */
  lemma OfferIs(x: Exec, builds: bool, cur: Slots)
    requires x.pc.Ready? && x.next < |x.plan| && NextIndex(x.plan, x.next, x.prev) == x.next
    ensures var e := x.plan[x.next];
            var reason := Skips(e, builds, TryAcquire(cur, e.id, Cap(x.policy, e.id)).1);
            Offer(x, builds, cur).0 ==
            if reason.Some? then PassOver(x.(next := x.next + 1), e.id, reason.value)
            else x.(next := x.next + 1, attempts := x.attempts + 1, lastId := Some(e.id), pc := Dialing(e.id))
  {
  }

  lemma OfferKeeps(x: Exec, builds: bool, cur: Slots)
    requires Running(x) && x.pc.Ready?
    ensures Good(Offer(x, builds, cur).0) && SameRequest(x, Offer(x, builds, cur).0)
  {
    NothingExcluded(x);
    if x.next == |x.plan| {
      FinishEnds(x);
    } else {
      OfferIs(x, builds, cur);
      var e := x.plan[x.next];
      var reason := Skips(e, builds, TryAcquire(cur, e.id, Cap(x.policy, e.id)).1);
      if reason.Some? {
        SkipKeeps(x, reason.value);
      } else {
        DialStarts(x, e.id);
      }
    }
  }

  lemma SkipKeeps(x: Exec, reason: SkipReason)
    requires Running(x) && x.pc.Ready? && x.next < |x.plan|
    ensures var y := PassOver(x.(next := x.next + 1), x.plan[x.next].id, reason); Good(y) && SameRequest(x, y)
  {
    var e := x.plan[x.next];
    assert PlanIds(x.plan)[..x.next + 1] == PlanIds(x.plan)[..x.next] + [e.id];
    assert LogIds(x.log) + [] == LogIds(x.log);
    PassOverKeeps(x.(next := x.next + 1), e.id, reason);
  }

  lemma DialStarts(x: Exec, id: Id)
    requires Running(x) && x.pc.Ready? && x.next < |x.plan| && x.plan[x.next].id == id
    ensures Running(x.(next := x.next + 1, attempts := x.attempts + 1, lastId := Some(id), pc := Dialing(id)))
  {
    assert PlanIds(x.plan)[..x.next + 1] == PlanIds(x.plan)[..x.next] + [id];
    assert LogIds(x.log) + [] == LogIds(x.log);
  }

  /** With distinct entries the excluded egress is already behind the selector. */
  lemma NothingExcluded(x: Exec)
    requires Walked(x) && x.pc.Ready?
    ensures NextIndex(x.plan, x.next, x.prev) == x.next
  {
    var ids := PlanIds(x.plan);
    if x.next < |x.plan| && x.prev.Some? {
      assert LogIds(x.log) + [] == LogIds(x.log);
      var j :| 0 <= j < x.next && ids[..x.next][j] == x.prev.value;
      assert ids[j] != ids[x.next];
    }
  }

  /** How one more dial extends what the log says. */
  lemma DialLogged(x: Exec, w: World, res: CallResult)
    requires Running(x) && x.pc.Dialing?
    ensures var log := x.log + [Dialed(x.pc.id, x.intent, w, res)];
            && LogIds(log) == PlanIds(x.plan)[..x.next]
            && Dials(log) == Dials(x.log) + [Dial(x.pc.id, w, res)]
            && Dials(log)[..|Dials(log)| - 1] == Dials(x.log)
            && LastDialRow(log) == |RowsFor(x.log)|
            && x.attempts == |Dials(log)|
            && (res.Live? ==> RowsFor(log) == RowsFor(x.log) && Marks(log) == x.observed + [(x.pc.id, true)])
            && (res.Failed? ==>
                  var f := res.failure;
                  && RowsFor(log) == RowsFor(x.log) + [DialRow(x.pc.id, x.attempts, x.intent, f, Fallback)]
                  && Marks(log) == if MarksEgressHealth(f) then x.observed + [(x.pc.id, false)] else x.observed)
  {
    Snoc(x.log, Dialed(x.pc.id, x.intent, w, res));
  }

  lemma SettleWalks(x: Exec, w: World, res: CallResult, cur: Slots)
    requires Running(x) && x.pc.Dialing?
    ensures Walked(Settle(x, w, res, cur).0) && SameRequest(x, Settle(x, w, res, cur).0)
  {
    var y, e := Settle(x, w, res, cur).0, Dialed(x.pc.id, x.intent, w, res);
    Snoc(x.log, e);
    assert y.log == x.log + [e] && !y.pc.Dialing?;
    assert LogIds(y.log) + [] == LogIds(y.log);
    assert x.pc.id in LogIds(y.log);
    assert x.prev.Some? ==> x.prev.value in LogIds(y.log);
  }

  lemma SettleLiveEnds(x: Exec, w: World, res: CallResult, cur: Slots)
    requires Running(x) && x.pc.Dialing? && res.Live?
    ensures Ended(Settle(x, w, res, cur).0)
  {
    DialLogged(x, w, res);
    SettleWalks(x, w, res, cur);
  }

  lemma SettleStopEnds(x: Exec, w: World, res: CallResult, cur: Slots)
    requires Running(x) && x.pc.Dialing? && res.Failed? && Stops(x, res.failure)
    ensures Ended(Settle(x, w, res, cur).0)
  {
    DialLogged(x, w, res);
    SettleWalks(x, w, res, cur);
    SettleRows(x, Settle(x, w, res, cur).0, res.failure);
  }

  lemma SettleGoesOn(x: Exec, w: World, res: CallResult, cur: Slots)
    requires Running(x) && x.pc.Dialing? && res.Failed? && !Stops(x, res.failure)
    ensures Running(Settle(x, w, res, cur).0)
  {
    DialLogged(x, w, res);
    SettleWalks(x, w, res, cur);
    var y := Settle(x, w, res, cur).0;
    SettleRows(x, y, res.failure);
    assert AllSafe(Dials(y.log)) by { assert Safe(Dial(x.pc.id, w, res)); }
    assert Counted(y) && Remembers(y);
  }

  lemma SettleKeeps(x: Exec, w: World, res: CallResult, cur: Slots)
    requires Running(x) && x.pc.Dialing?
    ensures Good(Settle(x, w, res, cur).0)
    ensures SameRequest(x, Settle(x, w, res, cur).0)
  {
    SettleWalks(x, w, res, cur);
    if res.Live? {
      SettleLiveEnds(x, w, res, cur);
    } else if Stops(x, res.failure) {
      SettleStopEnds(x, w, res, cur);
    } else {
      SettleGoesOn(x, w, res, cur);
    }
  }

  lemma SettleRows(x: Exec, y: Exec, f: Failure)
    requires Recorded(x) && x.pc.Dialing?
    requires var decision := if Stops(x, f) then Stop else Fallback;
             y.rows == Appended(x.rows, DialRow(x.pc.id, x.attempts, x.intent, f, decision))
    requires RowsFor(y.log) == RowsFor(x.log) + [DialRow(x.pc.id, x.attempts, x.intent, f, Fallback)]
    requires LastDialRow(y.log) == |RowsFor(x.log)|
    ensures y.rows == if Stops(x, f) then FinalRows(y.log, false) else Clip(RowsFor(y.log))
  {
  }

  /** One iteration: still running further into the same plan, or ended. */
  lemma IterateKeeps(x: Exec, cur: Slots, a: Around)
    requires Running(x) && x.pc.Ready?
    ensures var y := Iterate(x, cur, a).0;
            && Good(y) && SameRequest(x, y)
            && y.next <= |y.plan| && !y.pc.Dialing? && (y.pc.Ready? ==> y.next > x.next) && y.next >= x.next
  {
    OfferKeeps(x, a.builds, Others(cur, a.before));
    var y := Offer(x, a.builds, Others(cur, a.before));
    if y.0.pc.Dialing? {
      SettleKeeps(y.0, a.call, Classify(a.call), Others(y.1, a.during));
    }
  }

  function Rank(x: Exec): nat { if x.pc.Ready? then 1 else 0 }

  lemma {:induction false} DriveKeeps(x: Exec, cur: Slots, around: nat -> Around)
    requires Good(x) && !x.pc.Dialing?
    ensures Ended(Drive(x, cur, around).0) && SameRequest(x, Drive(x, cur, around).0)
    decreases |x.plan| - x.next, Rank(x), 1
  {
    if x.pc.Ready? {
      IterateKeeps(x, cur, around(x.next));
      DriveStep(x, cur, around);
      var it := Iterate(x, cur, around(x.next));
      DriveGoesOn(x, it.0, it.1, around);
    }
  }

  lemma {:induction false} DriveGoesOn(x: Exec, y: Exec, cur: Slots, around: nat -> Around)
    requires x.pc.Ready? && Good(y) && SameRequest(x, y) && !y.pc.Dialing? && x.next <= |x.plan|
    requires y.pc.Ready? ==> y.next > x.next
    requires y.next >= x.next
    ensures Ended(Drive(y, cur, around).0) && SameRequest(x, Drive(y, cur, around).0)
    decreases |x.plan| - x.next, Rank(x), 0
  {
    DriveKeeps(y, cur, around);
  }

  lemma StartIsGood(plan: seq<Entry>, policy: Policy)
    requires Distinct(PlanIds(plan))
    ensures Running(Begun(plan, policy))
  {
    assert PlanIds(plan)[..0] == [] == LogIds([]);
  }

  // ---- what it means ----

  ghost function Outcome(plan: seq<Entry>, policy: Policy, cur: Slots, around: nat -> Around): Exec {
    Drive(Begun(plan, policy), cur, around).0
  }

  /**
   * At most once: if a request is dialed on a further egress, no hop of any earlier call in it handed a
   * request byte to a connection or received a response.
   */
  lemma AtMostOnceTransmission(plan: seq<Entry>, policy: Policy, cur: Slots, around: nat -> Around)
    requires Distinct(PlanIds(plan))
    requires forall d | d in Dials(Outcome(plan, policy, cur, around).log) :: AnswersFollowWrites(d.world)
    ensures var dials := Dials(Outcome(plan, policy, cur, around).log);
            forall i | 0 <= i < |dials| - 1 :: !Wrote(dials[i].world) && !Responded(dials[i].world)
  {
    StartIsGood(plan, policy);
    DriveKeeps(Begun(plan, policy), cur, around);
    var dials := Dials(Outcome(plan, policy, cur, around).log);
    forall i | 0 <= i < |dials| - 1 ensures !Wrote(dials[i].world) && !Responded(dials[i].world) {
      assert dials[i] == dials[..|dials| - 1][i];
      assert Safe(dials[i]) && dials[i] in dials;
      DialsAreHonest(plan, policy, cur, around, i);
      NeverReplayedOnceSent(dials[i].world);
    }
  }

  /** The verdicts a request acted on are the verdicts of the calls it made. */
  ghost predicate Honest(log: seq<Happened>) {
    forall k | 0 <= k < |log| && log[k].Dialed? :: log[k].result == Classify(log[k].world)
  }

  lemma OfferHonest(x: Exec, builds: bool, cur: Slots)
    requires x.pc.Ready? && x.next <= |x.plan| && Honest(x.log)
    ensures Honest(Offer(x, builds, cur).0.log)
  {
    OfferLogs(x, builds, cur);
  }

  /** An offer logs nothing, or one skip. */
  lemma OfferLogs(x: Exec, builds: bool, cur: Slots)
    requires x.pc.Ready? && x.next <= |x.plan|
    ensures var log := Offer(x, builds, cur).0.log;
            log == x.log || exists id, reason :: log == x.log + [Skipped(id, x.intent, reason)]
  {
  }

  lemma SettleHonest(x: Exec, w: World, cur: Slots)
    requires x.pc.Dialing? && Honest(x.log)
    ensures Honest(Settle(x, w, Classify(w), cur).0.log)
  {
    var res := Classify(w);
    assert Settle(x, w, res, cur).0.log == x.log + [Dialed(x.pc.id, x.intent, w, res)];
  }

  lemma IterateHonest(x: Exec, cur: Slots, a: Around)
    requires x.pc.Ready? && x.next <= |x.plan| && Honest(x.log)
    ensures Honest(Iterate(x, cur, a).0.log)
  {
    OfferHonest(x, a.builds, Others(cur, a.before));
    var y := Offer(x, a.builds, Others(cur, a.before));
    if y.0.pc.Dialing? {
      SettleHonest(y.0, a.call, Others(y.1, a.during));
    }
  }

  lemma {:induction false} DriveHonest(x: Exec, cur: Slots, around: nat -> Around)
    requires !x.pc.Dialing? && x.next <= |x.plan| && Honest(x.log)
    ensures Honest(Drive(x, cur, around).0.log)
    decreases |x.plan| - x.next, Rank(x), 1
  {
    if x.pc.Ready? {
      IterateHonest(x, cur, around(x.next));
      DriveStep(x, cur, around);
      var it := Iterate(x, cur, around(x.next));
      DriveHonestOn(x, it.0, it.1, around);
    }
  }

  lemma {:induction false} DriveHonestOn(x: Exec, y: Exec, cur: Slots, around: nat -> Around)
    requires x.pc.Ready? && !y.pc.Dialing? && y.plan == x.plan && y.next <= |y.plan| && Honest(y.log)
    requires y.next >= x.next && (y.pc.Ready? ==> y.next > x.next)
    ensures Honest(Drive(y, cur, around).0.log)
    decreases |x.plan| - x.next, Rank(x), 0
  {
    DriveHonest(y, cur, around);
  }

  lemma DialsAreHonest(plan: seq<Entry>, policy: Policy, cur: Slots, around: nat -> Around, i: nat)
    requires i < |Dials(Outcome(plan, policy, cur, around).log)|
    ensures var d := Dials(Outcome(plan, policy, cur, around).log)[i]; d.result == Classify(d.world)
  {
    DriveHonest(Begun(plan, policy), cur, around);
    var k := DialsAreLogged(Outcome(plan, policy, cur, around).log, i);
  }

  lemma {:induction false} DialsAreLogged(log: seq<Happened>, i: nat) returns (k: nat)
    requires i < |Dials(log)|
    ensures k < |log| && log[k].Dialed? && |Dials(log[..k])| == i
    ensures Dials(log)[i] == Dial(log[k].id, log[k].world, log[k].result)
  {
    var n := |log| - 1;
    if i < |Dials(log[..n])| {
      k := DialsAreLogged(log[..n], i);
      assert log[..n][..k] == log[..k];
    } else {
      k := n;
    }
  }

  /** A request dials distinct egresses of its plan, in plan order, at most Budget of them. */
  lemma DialsEachEgressOnce(plan: seq<Entry>, policy: Policy, cur: Slots, around: nat -> Around)
    requires Distinct(PlanIds(plan))
    ensures var x := Outcome(plan, policy, cur, around);
            && |Dials(x.log)| <= Budget(policy)
            && LogIds(x.log) <= PlanIds(plan)
            && (forall i, j | 0 <= i < j < |Dials(x.log)| :: Dials(x.log)[i].id != Dials(x.log)[j].id)
  {
    StartIsGood(plan, policy);
    DriveKeeps(Begun(plan, policy), cur, around);
    var x := Outcome(plan, policy, cur, around);
    assert LogIds(x.log) + [] == LogIds(x.log);
    forall i, j | 0 <= i < j < |Dials(x.log)| ensures Dials(x.log)[i].id != Dials(x.log)[j].id {
      var a := DialsAreLogged(x.log, i);
      var b := DialsAreLogged(x.log, j);
      assert a != b;
      assert LogIds(x.log)[a] == PlanIds(plan)[a] && LogIds(x.log)[b] == PlanIds(plan)[b];
    }
  }

  /** One row read back: a skip carries no decision, a dial row names its own attempt. */
  ghost predicate ReadsBack(log: seq<Happened>, i: nat)
    requires i < |RowsFor(log)|
  {
    var r, dials := RowsFor(log)[i], Dials(log);
    if r.skip.Some? then r.decision == NoDecision
    else && r.decision == Fallback
         && 1 <= r.attempt <= |dials|
         && r.egress == Some(dials[r.attempt - 1].id)
         && Lost(dials[r.attempt - 1])
         && r.failure == Some(dials[r.attempt - 1].result.failure)
         && (r.attempt == |dials| <==> i == LastDialRow(log))
  }

  lemma {:induction false} RowsReadBack(log: seq<Happened>, i: nat)
    requires i < |RowsFor(log)|
    ensures ReadsBack(log, i)
  {
    var init, last := log[..|log| - 1], log[|log| - 1];
    LastRowBound(init);
    if i < |RowsFor(init)| {
      RowsReadBack(init, i);
      assert RowsFor(log)[i] == RowsFor(init)[i];
      assert forall k | 0 <= k < |Dials(init)| :: Dials(log)[k] == Dials(init)[k];
    }
  }

  lemma {:induction false} LastRowBound(log: seq<Happened>)
    ensures LastDialRow(log) <= |RowsFor(log)|
    ensures LastDialRow(log) >= 0 <==> Dials(log) != []
    ensures Dials(log) != [] && Lost(Dials(log)[|Dials(log)| - 1]) ==>
              LastDialRow(log) < |RowsFor(log)| && RowsFor(log)[LastDialRow(log)].skip.None?
  {
    if log != [] {
      LastRowBound(log[..|log| - 1]);
    }
  }

  /** A row that says what became of its dial: another egress was tried after it, or not. Skips say nothing. */
  ghost predicate Truthful(r: Row, dials: seq<Dial>) {
    if r.skip.Some? then r.decision == NoDecision
    else && 1 <= r.attempt <= |dials|
         && r.egress == Some(dials[r.attempt - 1].id)
         && Lost(dials[r.attempt - 1])
         && r.failure == Some(dials[r.attempt - 1].result.failure)
         && (r.decision == Fallback <==> r.attempt < |dials|)
         && (r.decision == Stop <==> r.attempt == |dials|)
  }

  /** A final row is the row the log calls for, except for the last dial's decision. */
  lemma FinalRowIs(log: seq<Happened>, live: bool, i: nat)
    requires i < |FinalRows(log, live)|
    ensures i < |RowsFor(log)|
    ensures FinalRows(log, live)[i] ==
            if !live && i == LastDialRow(log) then RowsFor(log)[i].(decision := Stop) else RowsFor(log)[i]
  {
  }

  lemma RowIsTruthful(log: seq<Happened>, live: bool, i: nat)
    requires i < |FinalRows(log, live)|
    requires Dials(log) != [] ==> (live <==> !Lost(Dials(log)[|Dials(log)| - 1]))
    ensures Truthful(FinalRows(log, live)[i], Dials(log))
  {
    FinalRowIs(log, live, i);
    RowsReadBack(log, i);
    LastRowBound(log);
  }

  /**
   * Truthful decisions: when a request ends, a recorded failed dial reads fallback exactly when a later egress
   * was dialed and stop exactly when it was the last; each dial row names its own attempt's egress and failure;
   * skips carry no decision.
   */
  lemma TruthfulDecisions(plan: seq<Entry>, policy: Policy, cur: Slots, around: nat -> Around, i: nat)
    requires Distinct(PlanIds(plan))
    requires i < |Outcome(plan, policy, cur, around).rows|
    ensures var x := Outcome(plan, policy, cur, around); Truthful(x.rows[i], Dials(x.log))
  {
    StartIsGood(plan, policy);
    DriveKeeps(Begun(plan, policy), cur, around);
    var x := Outcome(plan, policy, cur, around);
    RowIsTruthful(x.log, x.pc.result.live, i);
  }

  /** The returned verdict is the last call's own; the made-up error appears exactly when nothing was dialed. */
  lemma ReturnedVerdict(plan: seq<Entry>, policy: Policy, cur: Slots, around: nat -> Around)
    requires Distinct(PlanIds(plan))
    ensures var x := Outcome(plan, policy, cur, around);
            var dials, res := Dials(x.log), x.pc.result;
            && (res.err == Some(NothingDialed) <==> dials == [])
            && (dials != [] ==>
                  var last := dials[|dials| - 1].result;
                  && res.id == Some(dials[|dials| - 1].id)
                  && (res.live <==> last.Live?)
                  && (last.Live? ==>
                        res.failure == Failure(Success, last.origin, NoPhase, last.state) && res.err == None)
                  && (last.Failed? ==> res.failure == last.failure && res.err == Some(OfCall(last.status))))
            && res.attempts == |dials|
  {
    StartIsGood(plan, policy);
    DriveKeeps(Begun(plan, policy), cur, around);
  }
}
