/** Failure streaks, cooldowns and pins per egress identity. */
module Health {
  import opened Config

  /** Egress id and transport signature, used as one opaque key. */
  type Key = Id

  datatype Policy = Policy(enabled: bool, threshold: int, cooldown: nat)

  /** `until` is the cooldown deadline; None is the zero time. */
  datatype State = State(failures: nat, until: Option<int>)

  type States = map<Key, State>
  type Refs = map<Key, nat>

  const Clean := State(0, None)

  function At(states: States, k: Key): State { if k in states then states[k] else Clean }

  predicate Cooling(st: State, now: int) { st.until.Some? && now < st.until.value }

  predicate Records(p: Policy) { p.enabled && p.threshold > 0 }

  /** One outcome for one identity, judged under the observer's policy. */
  function Observed(st: State, ok: bool, p: Policy, now: int): State {
    if ok then Clean
    else if Cooling(st, now) then st
    else if st.failures + 1 >= p.threshold then State(0, Some(now + p.cooldown))
    else st.(failures := st.failures + 1)
  }

  predicate IsHealthy(states: States, k: Key, p: Policy, now: int) {
    !p.enabled || k !in states || !Cooling(states[k], now)
  }

  // ---- pins ----

  function Count(refs: Refs, k: Key): nat { if k in refs then refs[k] else 0 }

  function PinUpTo(refs: Refs, keys: seq<Key>, n: nat): Refs
    requires n <= |keys|
  {
    if n == 0 then refs
    else var r := PinUpTo(refs, keys, n - 1); r[keys[n - 1] := Count(r, keys[n - 1]) + 1]
  }

  function UnpinOne(refs: Refs, k: Key): Refs {
    if Count(refs, k) == 0 then refs
    else if Count(refs, k) == 1 then refs - {k}
    else refs[k := Count(refs, k) - 1]
  }

  function UnpinUpTo(refs: Refs, keys: seq<Key>, n: nat): Refs
    requires n <= |keys|
  {
    if n == 0 then refs else UnpinOne(UnpinUpTo(refs, keys, n - 1), keys[n - 1])
  }

  function Reclaimed(states: States, refs: Refs, active: set<Key>): States {
    map k | k in states && (k in active || Count(refs, k) > 0) :: states[k]
  }

  class Registry {
    var states: States
    var refs: Refs

    constructor ()
      ensures states == map[] && refs == map[]
    {
      states, refs := map[], map[];
    }

    method Pin(keys: seq<Key>)
      modifies this`refs
      ensures refs == PinUpTo(old(refs), keys, |keys|)
    {
      for i := 0 to |keys|
        invariant refs == PinUpTo(old(refs), keys, i)
      {
        refs := refs[keys[i] := Count(refs, keys[i]) + 1];
      }
    }

    /** What the function returned by a pin does. */
    method Release(keys: seq<Key>)
      modifies this`refs
      ensures refs == UnpinUpTo(old(refs), keys, |keys|)
    {
      for i := 0 to |keys|
        invariant refs == UnpinUpTo(old(refs), keys, i)
      {
        var k := keys[i];
        if Count(refs, k) > 0 {
          var left := Count(refs, k) - 1;
          if left == 0 {
            refs := refs - {k};
          } else {
            refs := refs[k := left];
          }
        }
      }
    }

    method Reclaim(active: set<Key>) returns (dropped: nat)
      modifies this`states
      ensures states == Reclaimed(old(states), refs, active)
      ensures dropped == |old(states)| - |states|
    {
      var todo := states.Keys;
      dropped := 0;
      while todo != {}
        invariant forall k | k in todo :: k in states
        invariant forall k :: k in states <==> k in old(states) && (k in todo || k in active || Count(refs, k) > 0)
        invariant forall k | k in states :: states[k] == old(states)[k]
        invariant dropped == |old(states)| - |states|
        decreases |todo|
      {
        var k :| k in todo;
        todo := todo - {k};
        if k !in active && Count(refs, k) == 0 {
          Forget(states, k);
          states := states - {k};
          dropped := dropped + 1;
        }
      }
    }

    method Observe(key: Key, ok: bool, p: Policy, now: int)
      modifies this`states
      ensures states == if Records(p) then old(states)[key := Observed(At(old(states), key), ok, p, now)]
                        else old(states)
    {
      if !p.enabled || p.threshold <= 0 {
        return;
      }
      var st := if key in states then states[key] else Clean;
      if ok {
        st := State(0, None);
      } else if st.until.Some? && now < st.until.value {
      } else {
        st := st.(failures := st.failures + 1);
        if st.failures >= p.threshold {
          st := State(0, Some(now + p.cooldown));
        }
      }
      states := states[key := st];
    }

    method Healthy(key: Key, p: Policy, now: int) returns (b: bool)
      ensures b == IsHealthy(states, key, p, now)
    {
      if !p.enabled {
        return true;
      }
      if key !in states {
        return true;
      }
      var st := states[key];
      return st.until.None? || !(now < st.until.value);
    }
  }

  lemma Forget(states: States, k: Key)
    requires k in states
    ensures |states - {k}| == |states| - 1
  {
    assert (states - {k}).Keys == states.Keys - {k};
  }

  // ---- one identity's history of recorded observations ----

  datatype Obs = Obs(now: int, ok: bool, p: Policy)

  /** The state after the first n observations of a history. */
  ghost function After(h: seq<Obs>, n: nat): State
    requires n <= |h|
  {
    if n == 0 then Clean
    else
      var o := h[n - 1];
      if Records(o.p) then Observed(After(h, n - 1), o.ok, o.p, o.now) else After(h, n - 1)
  }

  ghost predicate Success(h: seq<Obs>, i: nat)
    requires i < |h|
  {
    Records(h[i].p) && h[i].ok
  }

  /** A recorded failure that is not swallowed by a cooldown in progress. */
  ghost predicate Counts(h: seq<Obs>, i: nat)
    requires i < |h|
  {
    Records(h[i].p) && !h[i].ok && !Cooling(After(h, i), h[i].now)
  }

  /** A counted failure that crosses its observer's threshold. */
  ghost predicate Arms(h: seq<Obs>, i: nat)
    requires i < |h|
  {
    Counts(h, i) && After(h, i).failures + 1 >= h[i].p.threshold
  }

  ghost function CountedIn(h: seq<Obs>, lo: nat, hi: nat): nat
    requires lo <= hi <= |h|
  {
    if lo == hi then 0 else CountedIn(h, lo, hi - 1) + if Counts(h, hi - 1) then 1 else 0
  }

  ghost predicate NoSuccess(h: seq<Obs>, lo: nat, hi: nat)
    requires hi <= |h|
  {
    forall j | lo <= j < hi :: !Success(h, j)
  }

  ghost predicate Deadline(h: seq<Obs>, i: nat, d: int)
    requires i < |h|
  {
    d == h[i].now + h[i].p.cooldown
  }

  /** Index of the arming that set the deadline in force. */
  lemma {:induction false} DeadlineHasArming(h: seq<Obs>, n: nat) returns (a: nat)
    requires n <= |h| && After(h, n).until.Some?
    ensures a < n && Arms(h, a) && Deadline(h, a, After(h, n).until.value)
    ensures NoSuccess(h, a + 1, n) && forall j | a < j < n :: !Arms(h, j)
  {
    if Arms(h, n - 1) {
      a := n - 1;
    } else {
      a := DeadlineHasArming(h, n - 1);
    }
  }

  /** Index from which the streak is counted: the start, or right after the last success or arming. */
  lemma {:induction false} StreakSince(h: seq<Obs>, n: nat) returns (s: nat)
    requires n <= |h|
    ensures s <= n && After(h, n).failures == CountedIn(h, s, n)
    ensures s == 0 || Success(h, s - 1) || Arms(h, s - 1)
    ensures forall j | s <= j < n :: !Success(h, j) && !Arms(h, j)
  {
    if n == 0 {
      s := 0;
    } else if Success(h, n - 1) || Arms(h, n - 1) {
      s := n;
    } else {
      s := StreakSince(h, n - 1);
    }
  }

  lemma {:induction false} CountedShrinks(h: seq<Obs>, lo: nat, mid: nat, hi: nat)
    requires lo <= mid <= hi <= |h|
    ensures CountedIn(h, lo, hi) >= CountedIn(h, mid, hi)
  {
    if mid < hi { CountedShrinks(h, lo, mid, hi - 1); }
  }

  /** Armings with no success in between are at least the second observer's threshold of counted failures apart. */
  lemma ArmingsAreSeparated(h: seq<Obs>, i: nat, j: nat)
    requires i < j < |h| && Arms(h, i) && Arms(h, j) && NoSuccess(h, i + 1, j)
    ensures CountedIn(h, i + 1, j + 1) >= h[j].p.threshold
  {
    var s := StreakSince(h, j);
    assert s > i;
    CountedShrinks(h, i + 1, s, j);
  }

  ghost predicate TimeFlows(h: seq<Obs>) {
    forall i, j | 0 <= i < j < |h| :: h[i].now <= h[j].now
  }

  /** A success-free arming's deadline has passed by the time of any later arming. */
  lemma {:induction false} LaterArmingIsPast(h: seq<Obs>, i: nat, j: nat)
    requires i < j < |h| && Arms(h, i) && Arms(h, j) && NoSuccess(h, i + 1, j) && TimeFlows(h)
    ensures h[j].now >= h[i].now + h[i].p.cooldown
    decreases j - i
  {
    StillArmed(h, i, j);
    var a := DeadlineHasArming(h, j);
    if a > i {
      LaterArmingIsPast(h, i, a);
    }
  }

  lemma {:induction false} StillArmed(h: seq<Obs>, i: nat, j: nat)
    requires i < j <= |h| && Arms(h, i) && NoSuccess(h, i + 1, j)
    ensures After(h, j).until.Some?
  {
    assert !Success(h, j - 1) || j - 1 == i;
    if i + 1 < j {
      StillArmed(h, i, j - 1);
    }
  }

  /** An arming that no success has cleared and whose time has not run out. */
  ghost predicate InForce(h: seq<Obs>, a: nat, now: int)
    requires a < |h|
  {
    Arms(h, a) && NoSuccess(h, a + 1, |h|) && now < h[a].now + h[a].p.cooldown
  }

  lemma InForceCools(h: seq<Obs>, a: nat, now: int)
    requires TimeFlows(h) && (forall i | 0 <= i < |h| :: h[i].now <= now)
    requires a < |h| && InForce(h, a, now)
    ensures Cooling(After(h, |h|), now)
  {
    StillArmed(h, a, |h|);
    var b := DeadlineHasArming(h, |h|);
    if a < b {
      LaterArmingIsPast(h, a, b);
      assert false;
    }
    assert a == b;
  }

  /**
   * The registry means its trace: with time flowing, an identity is held back exactly when some observation
   * armed a cooldown that no success has cleared and whose time has not run out.
   */
  lemma CoolingIff(h: seq<Obs>, now: int)
    requires TimeFlows(h) && (forall i | 0 <= i < |h| :: h[i].now <= now)
    ensures Cooling(After(h, |h|), now) <==>
            exists a | 0 <= a < |h| :: InForce(h, a, now)
  {
    if Cooling(After(h, |h|), now) {
      var a := DeadlineHasArming(h, |h|);
      assert InForce(h, a, now);
    }
    if a :| 0 <= a < |h| && InForce(h, a, now) {
      InForceCools(h, a, now);
    }
  }

  // ---- the registry, fed by many identities at once ----

  datatype Report = Report(key: Key, obs: Obs)

  /** The states after the first n reports, as Observe leaves them. */
  ghost function Fed(xs: seq<Report>, n: nat): States
    requires n <= |xs|
  {
    if n == 0 then map[]
    else
      var s, x := Fed(xs, n - 1), xs[n - 1];
      if Records(x.obs.p) then s[x.key := Observed(At(s, x.key), x.obs.ok, x.obs.p, x.obs.now)] else s
  }

  ghost function HistoryOf(xs: seq<Report>, n: nat, k: Key): seq<Obs>
    requires n <= |xs|
  {
    if n == 0 then []
    else if xs[n - 1].key == k then HistoryOf(xs, n - 1, k) + [xs[n - 1].obs]
    else HistoryOf(xs, n - 1, k)
  }

  lemma {:induction false} AfterPrefix(h: seq<Obs>, o: Obs, n: nat)
    requires n <= |h|
    ensures After(h + [o], n) == After(h, n)
  {
    if n > 0 { AfterPrefix(h, o, n - 1); }
  }

  lemma {:induction false} FedIsAfter(xs: seq<Report>, n: nat, k: Key)
    requires n <= |xs|
    ensures At(Fed(xs, n), k) == After(HistoryOf(xs, n, k), |HistoryOf(xs, n, k)|)
  {
    if n > 0 {
      FedIsAfter(xs, n - 1, k);
      if xs[n - 1].key == k {
        var h := HistoryOf(xs, n - 1, k);
        AfterPrefix(h, xs[n - 1].obs, |h|);
      }
    }
  }

  lemma {:induction false} HistoryInTime(xs: seq<Report>, n: nat, k: Key, now: int)
    requires n <= |xs|
    requires forall i, j | 0 <= i < j < |xs| :: xs[i].obs.now <= xs[j].obs.now
    requires forall i | 0 <= i < n :: xs[i].obs.now <= now
    ensures TimeFlows(HistoryOf(xs, n, k))
    ensures forall i | 0 <= i < |HistoryOf(xs, n, k)| :: HistoryOf(xs, n, k)[i].now <= now
  {
    if n > 0 {
      HistoryInTime(xs, n - 1, k, xs[n - 1].obs.now);
    }
  }

  /** A policy that is off, or whose threshold is not positive, records nothing; any other records every observation. */
  lemma RecordedIff(xs: seq<Report>, n: nat)
    requires 0 < n <= |xs|
    ensures var x := xs[n - 1];
            if x.obs.p.enabled && x.obs.p.threshold > 0 then
              x.key in Fed(xs, n) && Fed(xs, n) - {x.key} == Fed(xs, n - 1) - {x.key}
            else Fed(xs, n) == Fed(xs, n - 1)
  {
  }

  /** Failures in a row under one recording policy arm its cooldown with the threshold-th, and not before. */
  lemma {:induction false} ThresholdFailuresArm(h: seq<Obs>, p: Policy, n: nat)
    requires p.enabled && p.threshold > 0 && 0 < n <= |h| && n <= p.threshold
    requires forall i | 0 <= i < |h| :: h[i].p == p && !h[i].ok
    ensures After(h, n) == if n < p.threshold then State(n, None) else State(0, Some(h[n - 1].now + p.cooldown))
  {
    if n > 1 {
      ThresholdFailuresArm(h, p, n - 1);
    } else {
      assert After(h, n - 1) == Clean;
    }
  }

  /** Whether an identity may be scheduled depends on its own history alone, and exactly as its trace says. */
  lemma HealthyIff(xs: seq<Report>, k: Key, p: Policy, now: int)
    requires forall i, j | 0 <= i < j < |xs| :: xs[i].obs.now <= xs[j].obs.now
    requires forall i | 0 <= i < |xs| :: xs[i].obs.now <= now
    ensures var h := HistoryOf(xs, |xs|, k);
            IsHealthy(Fed(xs, |xs|), k, p, now) <==> !p.enabled || !exists a | 0 <= a < |h| :: InForce(h, a, now)
  {
    FedIsAfter(xs, |xs|, k);
    HistoryInTime(xs, |xs|, k, now);
    CoolingIff(HistoryOf(xs, |xs|, k), now);
  }
}
