/** What an ended request's evidence rows and health marks say of its log. */
module Ledger {
  import opened Config
  import opened Provenance
  import opened Client
  import opened Evidence
  import opened Limiter
  import opened Executor
  import opened Failover
  import Stopping

  ghost predicate LiveEntry(h: Happened) { h.Dialed? && h.result.Live? }

  /** A row tells one entry of the log: what was tried as the nth dial of how many, or why it was passed over. */
  ghost predicate Tells(r: Row, h: Happened, nth: nat, dials: nat) {
    && r.egress == Some(h.id) && r.intent == Some(h.intent)
    && match h
       case Skipped(_, _, reason) =>
         r.skip == Some(reason) && r.attempt == 0 && r.failure == None
         && r.health == NoHealth && r.decision == NoDecision
       case Dialed(_, _, _, result) =>
         && r.skip == None && r.attempt == nth + 1
         && result.Failed? && r.failure == Some(result.failure)
         && (r.health == Marked <==> MarksEgressHealth(result.failure))
         && (r.health == Neutral <==> !MarksEgressHealth(result.failure))
         && (r.decision == Stop <==> nth + 1 == dials) && (r.decision == Fallback <==> nth + 1 < dials)
  }

  lemma {:induction false} RowIsEntry(log: seq<Happened>, i: nat)
    requires i < |log| && forall k | 0 <= k < |log| :: !LiveEntry(log[k])
    ensures |RowsFor(log)| == |log|
    ensures Tells(RowsFor(log)[i].(decision := if log[i].Skipped? then NoDecision else Stop), log[i],
                  |Dials(log[..i])|, |Dials(log[..i])| + 1)
    ensures RowsFor(log)[i].decision == if log[i].Skipped? then NoDecision else Fallback
  {
    var n := |log| - 1;
    var init := log[..n];
    assert !LiveEntry(log[n]);
    if i < n {
      RowIsEntry(init, i);
      assert init[..i] == log[..i];
    } else {
      AsManyRows(init);
    }
  }

  lemma {:induction false} AsManyRows(log: seq<Happened>)
    requires forall k | 0 <= k < |log| :: !LiveEntry(log[k])
    ensures |RowsFor(log)| == |log|
  {
    if log != [] {
      assert !LiveEntry(log[|log| - 1]);
      AsManyRows(log[..|log| - 1]);
    }
  }

  /** The last dial's row stands where its entry does. */
  lemma {:induction false} LastRowIs(log: seq<Happened>, i: nat)
    requires i < |log| && log[i].Dialed? && forall k | 0 <= k < |log| :: !LiveEntry(log[k])
    ensures LastDialRow(log) == i <==> |Dials(log[..i])| + 1 == |Dials(log)|
    ensures |Dials(log[..i])| + 1 <= |Dials(log)|
  {
    var n := |log| - 1;
    var init := log[..n];
    if i < n {
      LastRowIs(init, i);
      assert init[..i] == log[..i];
      AsManyRows(init);
    } else {
      AsManyRows(init);
    }
  }

  lemma FinalRowTells(log: seq<Happened>, i: nat)
    requires forall k | 0 <= k < |log| :: !LiveEntry(log[k])
    requires i < |FinalRows(log, false)|
    ensures i < |log| && Tells(FinalRows(log, false)[i], log[i], |Dials(log[..i])|, |Dials(log)|)
  {
    FinalRowIs(log, false, i);
    AsManyRows(log);
    RowIsEntry(log, i);
    if log[i].Dialed? {
      LastRowIs(log, i);
    } else {
      SkipIsNotLast(log, i);
    }
  }

  lemma {:induction false} SkipIsNotLast(log: seq<Happened>, i: nat)
    requires i < |log| && log[i].Skipped? && forall k | 0 <= k < |log| :: !LiveEntry(log[k])
    ensures LastDialRow(log) != i
  {
    var n := |log| - 1;
    AsManyRows(log[..n]);
    LastRowBound(log[..n]);
    LastDialLost(log[..n]);
    if i < n {
      SkipIsNotLast(log[..n], i);
    }
  }

  /** With a live dial at its end, a log's rows are those before it, and every dial of them was followed by another. */
  lemma FinalRowTellsLive(log: seq<Happened>, i: nat)
    requires log != [] && LiveEntry(log[|log| - 1])
    requires forall k | 0 <= k < |log| - 1 :: !LiveEntry(log[k])
    requires i < |FinalRows(log, true)|
    ensures i < |log| - 1 && Tells(FinalRows(log, true)[i], log[i], |Dials(log[..i])|, |Dials(log)|)
  {
    var init := log[..|log| - 1];
    FinalRowIs(log, true, i);
    AsManyRows(init);
    RowIsEntry(init, i);
    assert init[..i] == log[..i];
    if log[i].Dialed? {
      LastRowIs(init, i);
    }
  }

  /** Only the last entry of a request's log can be a live answer, and then the request ends with it. */
  lemma OnlyLastIsLive(plan: seq<Entry>, policy: Policy, cur: Slots, around: nat -> Around)
    requires Distinct(PlanIds(plan))
    ensures var x := Failover.Outcome(plan, policy, cur, around);
            && x.pc.Done?
            && (forall k | 0 <= k < |x.log| - 1 :: !LiveEntry(x.log[k]))
            && (x.pc.result.live <==> x.log != [] && LiveEntry(x.log[|x.log| - 1]))
            && x.rows == FinalRows(x.log, x.pc.result.live) && x.dropped == |RowsFor(x.log)| - |x.rows|
            && x.observed == Marks(x.log)
  {
    Stopping.StopsExactly(plan, policy, cur, around);
    StartIsGood(plan, policy);
    DriveKeeps(Begun(plan, policy), cur, around);
    var x := Failover.Outcome(plan, policy, cur, around);
    forall k | 0 <= k < |x.log| - 1 ensures !LiveEntry(x.log[k]) {
      assert Stopping.MayGoOn(policy, x.log, k);
    }
    if x.log != [] {
      Stopping.LastIsLast(x.log);
      if x.log[|x.log| - 1].Skipped? {
        LastDialLost(x.log);
      }
    }
  }

  lemma {:induction false} LastDialLost(log: seq<Happened>)
    requires forall k | 0 <= k < |log| :: !LiveEntry(log[k])
    ensures Dials(log) != [] ==> Lost(Dials(log)[|Dials(log)| - 1])
  {
    if log != [] {
      assert !LiveEntry(log[|log| - 1]);
      LastDialLost(log[..|log| - 1]);
    }
  }

  /**
   * The evidence of an ended request is its log, entry by entry: one row for each skip and each failed dial in plan
   * order, none for a live answer, up to the cap, with the rest counted as dropped; and its health marks are one
   * good mark for a live answer and one bad mark for each failure that blames its egress.
   */
  lemma RowsTellTheLog(plan: seq<Entry>, policy: Policy, cur: Slots, around: nat -> Around)
    requires Distinct(PlanIds(plan))
    ensures var x := Failover.Outcome(plan, policy, cur, around);
            var told := |x.log| - if x.pc.result.live then 1 else 0;
            && |x.rows| == (if told < 16 then told else 16) && x.dropped == told - |x.rows|
            && (forall i | 0 <= i < |x.rows| :: Tells(x.rows[i], x.log[i], |Dials(x.log[..i])|, |Dials(x.log)|))
            && x.observed == Marks(x.log)
  {
    OnlyLastIsLive(plan, policy, cur, around);
    var x := Failover.Outcome(plan, policy, cur, around);
    RowsOf(x.log, x.pc.result.live);
  }

  lemma RowsOf(log: seq<Happened>, live: bool)
    requires forall k | 0 <= k < |log| - 1 :: !LiveEntry(log[k])
    requires live <==> log != [] && LiveEntry(log[|log| - 1])
    ensures var rows, told := FinalRows(log, live), |log| - if live then 1 else 0;
            && |RowsFor(log)| == told && |rows| == (if told < 16 then told else 16)
            && (forall i | 0 <= i < |rows| :: Tells(rows[i], log[i], |Dials(log[..i])|, |Dials(log)|))
  {
    if live {
      AsManyRows(log[..|log| - 1]);
      forall i | 0 <= i < |FinalRows(log, live)|
        ensures Tells(FinalRows(log, live)[i], log[i], |Dials(log[..i])|, |Dials(log)|)
      {
        FinalRowTellsLive(log, i);
      }
    } else {
      AsManyRows(log);
      forall i | 0 <= i < |FinalRows(log, live)|
        ensures Tells(FinalRows(log, live)[i], log[i], |Dials(log[..i])|, |Dials(log)|)
      {
        FinalRowTells(log, i);
      }
    }
  }
}
