/** When a request goes on to the next egress, when it stops, and why an egress is passed over. */
module Stopping {
  import opened Config
  import opened Provenance
  import opened Client
  import opened Evidence
  import opened Limiter
  import opened Executor
  import opened Failover

  // ---- read off the plan, the policy and the environment ----

  ghost predicate Full(slots: Slots, id: Id, policy: Policy) {
    id in policy.caps && policy.caps[id] > 0 && InUse(slots, id) >= policy.caps[id]
  }

  /** The entry an egress gets: passed over for the first reason that holds, or dialed. */
  ghost predicate Explains(h: Happened, e: Entry, policy: Policy, a: Around, slots: Slots, dialed: nat) {
    && h.id == e.id
    && (h.intent == Normal <==> dialed == 0)
    && (h.Skipped? <==> !e.known || !a.builds || Full(Others(slots, a.before), e.id, policy))
    && (h.Skipped? ==>
          (h.reason == UnknownEgress <==> !e.known) && (h.reason == TransportBuild <==> e.known && !a.builds))
    && (h.Dialed? ==> h.world == a.call && h.result == Classify(a.call))
  }

  /** After the entry at k another may be tried: fallback is on, k was passed over, or replay-safe with dials left. */
  ghost predicate MayGoOn(policy: Policy, log: seq<Happened>, k: nat)
    requires k < |log|
  {
    && policy.fallback
    && (log[k].Dialed? ==>
          && log[k].result.Failed? && ReplaySafe(log[k].result.failure)
          && |Dials(log[..k + 1])| < policy.maxAttempts)
  }

  /** The selector passes over entries of the excluded egress only, and stops at the first other. */
  lemma {:induction false} NextIndexIs(plan: seq<Entry>, next: nat, exclude: Option<Id>)
    requires next <= |plan|
    ensures var i := NextIndex(plan, next, exclude);
            && (forall k | next <= k < i :: exclude == Some(plan[k].id))
            && (i < |plan| ==> exclude != Some(plan[i].id))
    decreases |plan| - next
  {
    if next < |plan| && exclude == Some(plan[next].id) {
      NextIndexIs(plan, next + 1, exclude);
    }
  }

  // ---- one iteration ----

  ghost predicate Poised(x: Exec) { Running(x) && x.pc.Ready? && x.next == |x.log| }

  lemma RunningIsPoised(x: Exec)
    requires Running(x) && x.pc.Ready?
    ensures Poised(x)
  {
    assert LogIds(x.log) + [] == LogIds(x.log);
    assert |PlanIds(x.plan)[..x.next]| == x.next;
  }

  lemma OfferEntry(x: Exec, a: Around, cur: Slots)
    requires Poised(x) && x.next < |x.plan|
    ensures var y := Offer(x, a.builds, Others(cur, a.before)).0;
            var e := x.plan[x.next];
            if y.pc.Dialing? then
              && y.pc.id == e.id && y.log == x.log && y.policy == x.policy && y.attempts == x.attempts + 1
              && e.known && a.builds && !Full(Others(cur, a.before), e.id, x.policy)
            else
              && |y.log| == |x.log| + 1 && y.log[..|x.log|] == x.log && y.log[|x.log|].Skipped?
              && Explains(y.log[|x.log|], e, x.policy, a, cur, |Dials(x.log)|)
              && (y.pc.Ready? <==> x.policy.fallback)
  {
    NothingExcluded(x);
    OfferIs(x, a.builds, Others(cur, a.before));
  }

  lemma DialsOneMore(log: seq<Happened>, h: Happened)
    requires h.Dialed?
    ensures |Dials(log + [h])| == |Dials(log)| + 1
  {
    Snoc(log, h);
  }

  lemma SettleEntry(x: Exec, w: World, res: CallResult, cur: Slots)
    requires x.pc.Dialing? && x.attempts == |Dials(x.log)| + 1
    ensures var y := Settle(x, w, res, cur).0;
            && y.log == x.log + [Dialed(x.pc.id, x.intent, w, res)]
            && (y.pc.Ready? <==> MayGoOn(x.policy, y.log, |x.log|))
  {
    var h := Dialed(x.pc.id, x.intent, w, res);
    DialsOneMore(x.log, h);
    assert (x.log + [h])[..|x.log| + 1] == x.log + [h];
  }

  /** One iteration adds one explained entry, and goes on exactly if it may. */
  lemma IterateEntry(x: Exec, cur: Slots, a: Around)
    requires Poised(x) && x.next < |x.plan|
    ensures var y := Iterate(x, cur, a).0;
            && |y.log| == |x.log| + 1 && y.log[..|x.log|] == x.log
            && Explains(y.log[|x.log|], x.plan[x.next], x.policy, a, cur, |Dials(x.log)|)
            && (y.pc.Ready? <==> MayGoOn(x.policy, y.log, |x.log|))
  {
    OfferKeeps(x, a.builds, Others(cur, a.before));
    OfferEntry(x, a, cur);
    var o := Offer(x, a.builds, Others(cur, a.before));
    if o.0.pc.Dialing? {
      SettleEntry(o.0, a.call, Classify(a.call), Others(o.1, a.during));
    }
  }

  // ---- whole runs ----

  /** The slots before the j-th further iteration. */
  ghost function SlotsBefore(x: Exec, cur: Slots, around: nat -> Around, j: nat): Slots
    requires !x.pc.Dialing? && x.next <= |x.plan|
    decreases j
  {
    if j == 0 || x.pc.Done? then cur
    else
      var (y, c) := Iterate(x, cur, around(x.next));
      SlotsBefore(y, c, around, j - 1)
  }

  /** The entries of a log from n on, each explained by the slots before it. */
  ghost predicate AllExplained(log: seq<Happened>, n: nat, x: Exec, cur: Slots, around: nat -> Around)
    requires !x.pc.Dialing? && x.next <= |x.plan| && |log| <= |x.plan|
  {
    forall k | n <= k < |log| :: ExplainedAt(log, k, x, cur, around, n)
  }

  ghost predicate ExplainedAt(log: seq<Happened>, k: nat, x: Exec, cur: Slots, around: nat -> Around, n: nat)
    requires !x.pc.Dialing? && x.next <= |x.plan| && n <= k < |log| <= |x.plan|
  {
    Explains(log[k], x.plan[k], x.policy, around(k), SlotsBefore(x, cur, around, k - n), |Dials(log[..k])|)
  }

  /** A log that goes on from its n-th entry exactly as far as it may, or as the plan does. */
  ghost predicate GoesOn(log: seq<Happened>, n: nat, size: nat, policy: Policy) {
    && n <= |log| <= size
    && (forall k | n <= k < |log| - 1 :: MayGoOn(policy, log, k))
    && (|log| == size || (|log| > n && !MayGoOn(policy, log, |log| - 1)))
  }

  lemma MayGoOnPrefix(policy: Policy, a: seq<Happened>, b: seq<Happened>, k: nat)
    requires a <= b && k < |a|
    ensures MayGoOn(policy, a, k) <==> MayGoOn(policy, b, k)
  {
    assert a[..k + 1] == b[..k + 1];
  }

  lemma GoesOnSooner(log: seq<Happened>, n: nat, size: nat, policy: Policy)
    requires GoesOn(log, n + 1, size, policy) && MayGoOn(policy, log, n)
    ensures GoesOn(log, n, size, policy)
  {
  }

  lemma SlotsOnward(x: Exec, cur: Slots, around: nat -> Around, j: nat)
    requires x.pc.Ready? && x.next <= |x.plan|
    ensures var it := Iterate(x, cur, around(x.next));
            SlotsBefore(x, cur, around, j + 1) == SlotsBefore(it.0, it.1, around, j)
  {
  }

  lemma ExplainedSooner(log: seq<Happened>, k: nat, x: Exec, cur: Slots, around: nat -> Around, n: nat)
    requires x.pc.Ready? && x.next <= |x.plan| && n < k < |log| <= |x.plan|
    requires var it := Iterate(x, cur, around(x.next));
             it.0.policy == x.policy && ExplainedAt(log, k, it.0, it.1, around, n + 1)
    ensures ExplainedAt(log, k, x, cur, around, n)
  {
    SlotsOnward(x, cur, around, k - (n + 1));
  }

  lemma AllExplainedSooner(log: seq<Happened>, n: nat, x: Exec, cur: Slots, around: nat -> Around)
    requires x.pc.Ready? && x.next <= |x.plan| && n < |log| <= |x.plan|
    requires ExplainedAt(log, n, x, cur, around, n)
    requires var it := Iterate(x, cur, around(x.next));
             it.0.policy == x.policy && AllExplained(log, n + 1, it.0, it.1, around)
    ensures AllExplained(log, n, x, cur, around)
  {
    var (y, c) := Iterate(x, cur, around(x.next));
    forall k | n <= k < |log| ensures ExplainedAt(log, k, x, cur, around, n) {
      if k > n {
        assert ExplainedAt(log, k, y, c, around, n + 1);
        ExplainedSooner(log, k, x, cur, around, n);
      }
    }
  }

  /** From here on, every entry is explained and gone on from exactly if it may be; the end is where it may not. */
  ghost predicate Unfolds(x: Exec, cur: Slots, around: nat -> Around)
    requires !x.pc.Dialing? && x.next <= |x.plan|
  {
    var log := Drive(x, cur, around).0.log;
    x.log <= log && GoesOn(log, |x.log|, |x.plan|, x.policy) && AllExplained(log, |x.log|, x, cur, around)
  }

  lemma ExplainedNow(x: Exec, cur: Slots, around: nat -> Around, log: seq<Happened>)
    requires Poised(x) && x.next < |x.plan| && Iterate(x, cur, around(x.next)).0.log <= log && |log| <= |x.plan|
    ensures x.log <= log && |x.log| < |log| && ExplainedAt(log, |x.log|, x, cur, around, |x.log|)
    ensures Iterate(x, cur, around(x.next)).0.pc.Ready? <==> MayGoOn(x.policy, log, |x.log|)
  {
    IterateEntry(x, cur, around(x.next));
    var y := Iterate(x, cur, around(x.next)).0;
    MayGoOnPrefix(x.policy, y.log, log, |x.log|);
    assert log[..|x.log|] == y.log[..|x.log|];
    assert log[|x.log|] == y.log[|x.log|];
  }

  lemma UnfoldsSooner(x: Exec, cur: Slots, around: nat -> Around)
    requires Poised(x) && x.next < |x.plan|
    requires var it := Iterate(x, cur, around(x.next));
             it.0.pc.Ready? && SameRequest(x, it.0) && |it.0.log| == |x.log| + 1 && Unfolds(it.0, it.1, around)
    ensures Unfolds(x, cur, around)
  {
    var it, log := Iterate(x, cur, around(x.next)), Drive(x, cur, around).0.log;
    DriveStep(x, cur, around);
    ExplainedNow(x, cur, around, log);
    GoesOnSooner(log, |x.log|, |x.plan|, x.policy);
    AllExplainedSooner(log, |x.log|, x, cur, around);
  }

  lemma UnfoldsLast(x: Exec, cur: Slots, around: nat -> Around)
    requires Poised(x) && x.next < |x.plan| && !Iterate(x, cur, around(x.next)).0.pc.Ready?
    ensures Unfolds(x, cur, around)
  {
    var (y, c) := Iterate(x, cur, around(x.next));
    DriveStep(x, cur, around);
    IterateEntry(x, cur, around(x.next));
    DriveDone(y, c, around);
    ExplainedNow(x, cur, around, y.log);
  }

  lemma DriveDone(x: Exec, cur: Slots, around: nat -> Around)
    requires x.pc.Done? && x.next <= |x.plan|
    ensures Drive(x, cur, around) == (x, cur)
  {
  }

  lemma UnfoldsAtEnd(x: Exec, cur: Slots, around: nat -> Around)
    requires Poised(x) && x.next == |x.plan|
    ensures Unfolds(x, cur, around)
  {
    var (y, c) := Iterate(x, cur, around(x.next));
    NothingExcluded(x);
    DriveStep(x, cur, around);
    DriveDone(y, c, around);
  }

  lemma {:induction false} DriveUnfolds(x: Exec, cur: Slots, around: nat -> Around)
    requires Poised(x)
    ensures Unfolds(x, cur, around)
    decreases |x.plan| - x.next
  {
    if x.next == |x.plan| {
      UnfoldsAtEnd(x, cur, around);
    } else {
      var (y, c) := Iterate(x, cur, around(x.next));
      IterateKeeps(x, cur, around(x.next));
      if y.pc.Ready? {
        RunningIsPoised(y);
        IterateEntry(x, cur, around(x.next));
        DriveUnfolds(y, c, around);
        UnfoldsSooner(x, cur, around);
      } else {
        UnfoldsLast(x, cur, around);
      }
    }
  }

  /**
   * For every plan and environment: the entries of the plan are taken in order; an egress is passed over exactly if
   * it is unknown, cannot be built or is at its cap, and dialed otherwise; every entry but the last may be gone on
   * from; and the request ends where the plan does or where it may not go on.
   */
  lemma StopsExactly(plan: seq<Entry>, policy: Policy, cur: Slots, around: nat -> Around)
    requires Distinct(PlanIds(plan))
    ensures var x := Failover.Outcome(plan, policy, cur, around);
            && GoesOn(x.log, 0, |plan|, policy)
            && AllExplained(x.log, 0, Begun(plan, policy), cur, around)
  {
    StartIsGood(plan, policy);
    RunningIsPoised(Begun(plan, policy));
    DriveUnfolds(Begun(plan, policy), cur, around);
  }

  /**
   * In particular: without fallback at most one entry is taken; and a request that does not end live has used up its
   * plan, or was passed over with fallback off, or its last dial may not be replayed, or it has made all the dials
   * its policy allows.
   */
  lemma EndsForAReason(plan: seq<Entry>, policy: Policy, cur: Slots, around: nat -> Around)
    requires Distinct(PlanIds(plan))
    ensures var x := Failover.Outcome(plan, policy, cur, around);
            && (!policy.fallback ==> |x.log| <= 1)
            && (x.pc.result.live || |x.log| == |plan| || GivenUp(policy, x.log))
  {
    StopsExactly(plan, policy, cur, around);
    StartIsGood(plan, policy);
    DriveKeeps(Begun(plan, policy), cur, around);
    var log := Failover.Outcome(plan, policy, cur, around).log;
    if log != [] {
      LastIsLast(log);
      assert log[..|log| - 1 + 1] == log;
    }
    if |log| >= 2 {
      assert MayGoOn(policy, log, 0);
    }
  }

  /** Why a request ends before its plan does, other than by an answer. */
  ghost predicate GivenUp(policy: Policy, log: seq<Happened>) {
    && log != []
    && var last := log[|log| - 1];
       || (last.Skipped? && !policy.fallback && |log| == 1)
       || (last.Dialed? && last.result.Failed? && !ReplaySafe(last.result.failure))
       || (last.Dialed? && |Dials(log)| == if policy.fallback && policy.maxAttempts >= 1 then policy.maxAttempts else 1)
  }

  lemma LastIsLast(log: seq<Happened>)
    requires log != []
    ensures log[|log| - 1].Dialed? ==>
              Dials(log) != [] && Dials(log)[|Dials(log)| - 1].result == log[|log| - 1].result
  {
  }
}
