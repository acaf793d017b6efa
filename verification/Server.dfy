/** Process-wide state across requests and configuration generations. */
module Server {
  import opened Config
  import opened Health
  import opened Limiter
  import Scheduler

  /** What one snapshot says of an egress. */
  datatype Egress = Egress(
    sig: Id, key: Key, enabled: bool, streaming: bool, maxBody: nat, cap: nat, models: Id -> bool)

  datatype Snapshot = Snapshot(generation: nat, routes: seq<Route>, egress: map<Id, Egress>)

  datatype Profile = Profile(model: Id, streaming: bool, body: nat)

  // ---- which egresses a request may start on ----

  predicate Eligible(e: Egress, p: Profile, states: States, cur: Slots, id: Id, hp: Policy, now: int) {
    && e.enabled
    && (e.streaming || !p.streaming)
    && e.models(p.model)
    && !(e.maxBody > 0 && p.body > e.maxBody)
    && IsHealthy(states, e.key, hp, now)
    && TryAcquire(cur, id, e.cap).1
  }

  /** The currently eligible members of a route, in the route's order. */
  method RouteHeads(rt: Snapshot, route: Route, p: Profile, registry: Registry, slots: Limiter, hp: Policy, now: int)
    returns (heads: seq<Id>)
    requires Distinct(route.egress)
    ensures ValidHeads(heads, route)
    ensures forall i | 0 <= i < |route.egress| ::
              route.egress[i] in heads <==>
                route.egress[i] in rt.egress &&
                Eligible(rt.egress[route.egress[i]], p, registry.states, slots.cur, route.egress[i], hp, now)
    ensures InOrder(heads, route.egress)
  {
    heads := [];
    ghost var at: seq<nat> := [];
    for i := 0 to |route.egress|
      invariant |at| == |heads|
      invariant forall k | 0 <= k < |at| :: at[k] < i && heads[k] == route.egress[at[k]]
      invariant forall j, k | 0 <= j < k < |at| :: at[j] < at[k]
      invariant forall j | 0 <= j < i ::
                  route.egress[j] in heads <==>
                    route.egress[j] in rt.egress &&
                    Eligible(rt.egress[route.egress[j]], p, registry.states, slots.cur, route.egress[j], hp, now)
    {
      var id := route.egress[i];
      assert forall k | 0 <= k < |heads| :: heads[k] != id;
      if id !in rt.egress || !rt.egress[id].enabled {
        continue;
      }
      var e := rt.egress[id];
      if !e.streaming && p.streaming {
        continue;
      }
      if !e.models(p.model) {
        continue;
      }
      if e.maxBody > 0 && p.body > e.maxBody {
        continue;
      }
      var healthy := registry.Healthy(e.key, hp, now);
      if !healthy {
        continue;
      }
      var free := slots.Peek(id, e.cap);
      if !free {
        continue;
      }
      heads := heads + [id];
      at := at + [i];
    }
    assert InOrderBy(heads, route.egress, at);
  }

  ghost predicate InOrderBy(heads: seq<Id>, members: seq<Id>, at: seq<nat>) {
    && |at| == |heads|
    && (forall k | 0 <= k < |at| :: at[k] < |members| && heads[k] == members[at[k]])
    && (forall j, k | 0 <= j < k < |at| :: at[j] < at[k])
  }

  /** A subsequence: the members picked at strictly increasing positions. */
  ghost predicate InOrder(heads: seq<Id>, members: seq<Id>) {
    exists at :: InOrderBy(heads, members, at)
  }

  // ---- once-per-generation maintenance ----

  datatype Keep = Keep(sigs: set<Id>, keys: set<Key>, routes: set<Id>)

  /** An egress some route of the snapshot lists. */
  predicate Referenced(rt: Snapshot, id: Id) {
    id in rt.egress && exists r | 0 <= r < |rt.routes| :: id in rt.routes[r].egress
  }

  method KeepSets(rt: Snapshot) returns (keep: Keep)
    ensures keep.sigs == set id | id in rt.egress && Referenced(rt, id) :: rt.egress[id].sig
    ensures keep.keys == set id | id in rt.egress && Referenced(rt, id) :: rt.egress[id].key
    ensures keep.routes == set r | 0 <= r < |rt.routes| :: rt.routes[r].id
  {
    var seen: set<Id> := {};
    var routes: set<Id> := {};
    for r := 0 to |rt.routes|
      invariant routes == set q | 0 <= q < r :: rt.routes[q].id
      invariant forall id :: id in seen <==> id in rt.egress && exists q | 0 <= q < r :: id in rt.routes[q].egress
    {
      routes := routes + {rt.routes[r].id};
      var members := rt.routes[r].egress;
      for i := 0 to |members|
        invariant forall id :: id in seen <==>
                    id in rt.egress && (id in members[..i] || exists q | 0 <= q < r :: id in rt.routes[q].egress)
      {
        assert members[..i + 1] == members[..i] + [members[i]];
        if members[i] in rt.egress {
          seen := seen + {members[i]};
        }
      }
      assert members[..|members|] == members;
    }
    keep := Keep(set id | id in seen :: rt.egress[id].sig, set id | id in seen :: rt.egress[id].key, routes);
    assert forall id :: id in seen <==> id in rt.egress && Referenced(rt, id);
  }

  class Server {
    const registry: Registry
    const scheduler: Scheduler.Scheduler
    var clients: set<Id>
    var prunedGen: nat

    constructor ()
      ensures fresh(registry) && fresh(scheduler)
      ensures registry.states == map[] && registry.refs == map[] && scheduler.state == map[]
      ensures clients == {} && prunedGen == 0
    {
      registry := new Registry();
      scheduler := new Scheduler.Scheduler();
      clients, prunedGen := {}, 0;
    }

    /** Prunes every process-wide cache against a snapshot newer than any serviced before; otherwise does nothing. */
    method OnGeneration(rt: Snapshot)
      modifies this, registry, scheduler
      ensures registry.refs == old(registry.refs)
      ensures rt.generation <= old(prunedGen) ==>
                && prunedGen == old(prunedGen) && clients == old(clients)
                && registry.states == old(registry.states) && scheduler.state == old(scheduler.state)
      ensures rt.generation > old(prunedGen) ==>
                && prunedGen == rt.generation
                && clients == old(clients) * (set id | id in rt.egress && Referenced(rt, id) :: rt.egress[id].sig)
                && registry.states == Reclaimed(old(registry.states), old(registry.refs), ActiveKeys(rt))
                && scheduler.state == Scheduler.Prune(old(scheduler.state), RouteIds(rt))
    {
      if rt.generation == 0 || prunedGen >= rt.generation {
        return;
      }
      prunedGen := rt.generation;
      var keep := KeepSets(rt);
      clients := set c | c in clients && c in keep.sigs;
      var _ := registry.Reclaim(keep.keys);
      var _ := scheduler.PruneRoutes(keep.routes);
    }
  }

  function ActiveKeys(rt: Snapshot): set<Key> {
    set id | id in rt.egress && Referenced(rt, id) :: rt.egress[id].key
  }

  function RouteIds(rt: Snapshot): set<Id> {
    set r | 0 <= r < |rt.routes| :: rt.routes[r].id
  }

  // ---- requests, pins and generations interleaved ----

  /** Requests are numbered by arrival; a released request's hold becomes None. */
  datatype Sys = Sys(states: States, refs: Refs, holds: seq<Option<seq<Key>>>, prunedGen: nat, serviced: seq<nat>)

  const Empty := Sys(map[], map[], [], 0, [])

  datatype Act =
    | PinAct(keys: seq<Key>)
    | ReleaseAct(r: nat)
    | MaintainAct(rt: Snapshot)
    | ObserveAct(key: Key, ok: bool, p: Policy, now: int)

  /** Each release runs once. */
  predicate Enabled(s: Sys, a: Act) {
    a.ReleaseAct? ==> a.r < |s.holds| && s.holds[a.r].Some?
  }

  function Next(s: Sys, a: Act): Sys
    requires Enabled(s, a)
  {
    match a
    case PinAct(keys) => s.(refs := PinUpTo(s.refs, keys, |keys|), holds := s.holds + [Some(keys)])
    case ReleaseAct(r) =>
      var keys := s.holds[r].value;
      s.(refs := UnpinUpTo(s.refs, keys, |keys|), holds := s.holds[r := None])
    case MaintainAct(rt) =>
      if rt.generation <= s.prunedGen then s
      else s.(states := Reclaimed(s.states, s.refs, ActiveKeys(rt)),
              prunedGen := rt.generation, serviced := s.serviced + [rt.generation])
    case ObserveAct(key, ok, p, now) =>
      if Records(p) then s.(states := s.states[key := Observed(At(s.states, key), ok, p, now)]) else s
  }

  ghost function Mult(keys: seq<Key>, k: Key): nat { multiset(keys)[k] }

  ghost function HeldBy(h: Option<seq<Key>>, k: Key): nat { if h.Some? then Mult(h.value, k) else 0 }

  /** How many unreleased holds the first n requests have on a key. */
  ghost function Held(holds: seq<Option<seq<Key>>>, k: Key, n: nat): nat
    requires n <= |holds|
  {
    if n == 0 then 0 else Held(holds, k, n - 1) + HeldBy(holds[n - 1], k)
  }

  ghost predicate Increasing(s: seq<nat>) { forall i, j | 0 <= i < j < |s| :: s[i] < s[j] }

  ghost predicate Pinned(s: Sys, k: Key) { Count(s.refs, k) == Held(s.holds, k, |s.holds|) }

  ghost predicate Inv(s: Sys) {
    && (forall k :: Pinned(s, k))
    && Increasing(s.serviced)
    && (if s.serviced == [] then s.prunedGen == 0 else s.prunedGen == s.serviced[|s.serviced| - 1])
  }

  lemma {:induction false} PinCounts(refs: Refs, keys: seq<Key>, n: nat, k: Key)
    requires n <= |keys|
    ensures Count(PinUpTo(refs, keys, n), k) == Count(refs, k) + Mult(keys[..n], k)
  {
    if n > 0 {
      PinCounts(refs, keys, n - 1, k);
      assert keys[..n] == keys[..n - 1] + [keys[n - 1]];
    }
  }

  lemma {:induction false} UnpinCounts(refs: Refs, keys: seq<Key>, n: nat, k: Key)
    requires n <= |keys| && Mult(keys[..n], k) <= Count(refs, k)
    ensures Count(UnpinUpTo(refs, keys, n), k) == Count(refs, k) - Mult(keys[..n], k)
  {
    if n > 0 {
      assert keys[..n] == keys[..n - 1] + [keys[n - 1]];
      UnpinCounts(refs, keys, n - 1, k);
    }
  }

  lemma {:induction false} HeldUpdate(holds: seq<Option<seq<Key>>>, k: Key, r: nat, n: nat)
    requires r < |holds| && n <= |holds|
    ensures Held(holds[r := None], k, n) == Held(holds, k, n) - if r < n then HeldBy(holds[r], k) else 0
    ensures r < n ==> HeldBy(holds[r], k) <= Held(holds, k, n)
  {
    if n > 0 { HeldUpdate(holds, k, r, n - 1); }
  }

  lemma {:induction false} HeldPrefix(holds: seq<Option<seq<Key>>>, h: Option<seq<Key>>, k: Key, n: nat)
    requires n <= |holds|
    ensures Held(holds + [h], k, n) == Held(holds, k, n)
  {
    if n > 0 { HeldPrefix(holds, h, k, n - 1); }
  }

  lemma StepKeepsPins(s: Sys, a: Act)
    requires Inv(s) && Enabled(s, a)
    ensures Inv(Next(s, a))
  {
    var t := Next(s, a);
    forall k ensures Pinned(t, k) {
      assert Pinned(s, k);
      match a
      case PinAct(keys) =>
        PinCounts(s.refs, keys, |keys|, k);
        assert keys[..|keys|] == keys;
        HeldPrefix(s.holds, Some(keys), k, |s.holds|);
      case ReleaseAct(r) =>
        var keys := s.holds[r].value;
        HeldUpdate(s.holds, k, r, |s.holds|);
        assert keys[..|keys|] == keys;
        UnpinCounts(s.refs, keys, |keys|, k);
      case MaintainAct(_) =>
      case ObserveAct(_, _, _, _) =>
    }
  }

  ghost predicate IsRun(acts: seq<Act>, states: seq<Sys>) {
    && |states| == |acts| + 1 && states[0] == Empty
    && forall i | 0 <= i < |acts| :: Enabled(states[i], acts[i]) && states[i + 1] == Next(states[i], acts[i])
  }

  /**
   * In every reachable state a key's count is exactly its unreleased holds, and maintenance has run at
   * strictly increasing generations only.
   */
  lemma {:induction false} PinsAreExact(acts: seq<Act>, states: seq<Sys>, i: nat)
    requires IsRun(acts, states) && i < |states|
    ensures Inv(states[i])
  {
    if i == 0 {
      assert forall k :: Pinned(Empty, k);
    } else {
      PinsAreExact(acts, states, i - 1);
      StepKeepsPins(states[i - 1], acts[i - 1]);
    }
  }

  ghost predicate HoldsKey(s: Sys, r: nat, k: Key) {
    r < |s.holds| && s.holds[r].Some? && k in s.holds[r].value
  }

  /** No step drops the state of a key some request holds. */
  lemma StepSparesPinned(s: Sys, a: Act, r: nat, k: Key)
    requires Inv(s) && Enabled(s, a) && HoldsKey(s, r, k) && k in s.states
    ensures k in Next(s, a).states
  {
    assert Pinned(s, k);
    HeldUpdate(s.holds, k, r, |s.holds|);
    assert Mult(s.holds[r].value, k) > 0;
  }

  /** Nothing a request pinned is reclaimed before it releases, whatever other requests and reloads do. */
  lemma {:induction false} PinnedSurvives(acts: seq<Act>, states: seq<Sys>, i: nat, j: nat, r: nat, k: Key)
    requires IsRun(acts, states) && i <= j < |states|
    requires forall m | i <= m <= j :: HoldsKey(states[m], r, k)
    requires k in states[i].states
    ensures k in states[j].states
  {
    if i < j {
      PinnedSurvives(acts, states, i, j - 1, r, k);
      PinsAreExact(acts, states, j - 1);
      StepSparesPinned(states[j - 1], acts[j - 1], r, k);
    }
  }

  /** A snapshot no newer than the last one serviced changes nothing; a newer one never drops a key it can reach. */
  lemma MaintenanceIsGuarded(s: Sys, rt: Snapshot, id: Id)
    requires Inv(s)
    ensures rt.generation <= s.prunedGen ==> Next(s, MaintainAct(rt)) == s
    ensures Referenced(rt, id) && rt.egress[id].key in s.states ==> rt.egress[id].key in Next(s, MaintainAct(rt)).states
    ensures rt.generation > s.prunedGen ==>
              forall k | k in Next(s, MaintainAct(rt)).states :: k in ActiveKeys(rt) || exists r :: HoldsKey(s, r, k)
  {
    if rt.generation > s.prunedGen {
      forall k | k in Next(s, MaintainAct(rt)).states && k !in ActiveKeys(rt) ensures exists r :: HoldsKey(s, r, k) {
        assert Pinned(s, k);
        var r := SomeHolder(s.holds, k, |s.holds|);
        assert HoldsKey(s, r, k);
      }
    }
  }

  lemma {:induction false} SomeHolder(holds: seq<Option<seq<Key>>>, k: Key, n: nat) returns (r: nat)
    requires n <= |holds| && Held(holds, k, n) > 0
    ensures r < n && holds[r].Some? && k in holds[r].value
  {
    r := n - 1;
    if HeldBy(holds[r], k) == 0 {
      r := SomeHolder(holds, k, n - 1);
    }
  }

  // ---- what a key's state means, with reclaims in between ----

  /** The observations of a key among acts i to j. */
  ghost function Observations(acts: seq<Act>, i: nat, j: nat, k: Key): seq<Obs>
    requires i <= j <= |acts|
  {
    if i == j then []
    else
      var a := acts[j - 1];
      Observations(acts, i, j - 1, k) + if a.ObserveAct? && a.key == k then [Obs(a.now, a.ok, a.p)] else []
  }

  ghost predicate Drops(s: Sys, t: Sys, k: Key) { k in s.states && k !in t.states }

  /** The observations of a key since its state was last reclaimed. */
  ghost function Since(acts: seq<Act>, states: seq<Sys>, n: nat, k: Key): seq<Obs>
    requires |states| == |acts| + 1 && n <= |acts|
  {
    if n == 0 then []
    else if Drops(states[n - 1], states[n], k) then []
    else Since(acts, states, n - 1, k) + Observations(acts, n - 1, n, k)
  }

  lemma OneObservation(acts: seq<Act>, n: nat, k: Key)
    requires 0 < n <= |acts|
    ensures var a := acts[n - 1];
            Observations(acts, n - 1, n, k) == if a.ObserveAct? && a.key == k then [Obs(a.now, a.ok, a.p)] else []
  {
    assert Observations(acts, n - 1, n - 1, k) == [];
  }

  lemma AfterOneMore(h: seq<Obs>, o: Obs)
    ensures After(h + [o], |h| + 1) ==
            if Records(o.p) then Observed(After(h, |h|), o.ok, o.p, o.now) else After(h, |h|)
  {
    AfterPrefix(h, o, |h|);
  }

  lemma StateNext(s: Sys, a: Act, k: Key)
    requires Enabled(s, a)
    ensures var t := Next(s, a);
            if Drops(s, t, k) then At(t.states, k) == Clean
            else if a.ObserveAct? && a.key == k && Records(a.p)
            then At(t.states, k) == Observed(At(s.states, k), a.ok, a.p, a.now)
            else At(t.states, k) == At(s.states, k)
  {
  }

  lemma StateIsSinceNext(acts: seq<Act>, states: seq<Sys>, n: nat, k: Key)
    requires IsRun(acts, states) && n < |acts|
    requires At(states[n].states, k) == After(Since(acts, states, n, k), |Since(acts, states, n, k)|)
    ensures At(states[n + 1].states, k) == After(Since(acts, states, n + 1, k), |Since(acts, states, n + 1, k)|)
  {
    var s, a, h := states[n], acts[n], Since(acts, states, n, k);
    StateNext(s, a, k);
    OneObservation(acts, n + 1, k);
    if a.ObserveAct? && a.key == k {
      AfterOneMore(h, Obs(a.now, a.ok, a.p));
    } else {
      assert h + [] == h;
    }
  }

  /** In every run, a key's streak and deadline are those of its observations since its last reclaim. */
  lemma StateIsSince(acts: seq<Act>, states: seq<Sys>, n: nat, k: Key)
    requires IsRun(acts, states) && n <= |acts|
    ensures At(states[n].states, k) == After(Since(acts, states, n, k), |Since(acts, states, n, k)|)
  {
    for m := 0 to n
      invariant At(states[m].states, k) == After(Since(acts, states, m, k), |Since(acts, states, m, k)|)
    {
      StateIsSinceNext(acts, states, m, k);
    }
  }

  lemma RemembersOne(acts: seq<Act>, states: seq<Sys>, n: nat, r: nat, k: Key)
    requires IsRun(acts, states) && n < |acts| && HoldsKey(states[n], r, k)
    ensures Since(acts, states, n + 1, k) == Since(acts, states, n, k) + Observations(acts, n, n + 1, k)
  {
    PinsAreExact(acts, states, n);
    if k in states[n].states {
      StepSparesPinned(states[n], acts[n], r, k);
    }
  }

  lemma ObservationsSplit(acts: seq<Act>, i: nat, n: nat, k: Key)
    requires i <= n < |acts|
    ensures Observations(acts, i, n + 1, k) == Observations(acts, i, n, k) + Observations(acts, n, n + 1, k)
  {
    OneObservation(acts, n + 1, k);
  }

  lemma Assoc<T>(a: seq<T>, b: seq<T>, c: seq<T>)
    ensures a + (b + c) == (a + b) + c
  {
  }

  /** The key's history is what it was after act i, and the observations since. */
  ghost predicate Remembers(acts: seq<Act>, states: seq<Sys>, i: nat, n: nat, k: Key)
    requires |states| == |acts| + 1 && i <= n <= |acts|
  {
    Since(acts, states, n, k) == Since(acts, states, i, k) + Observations(acts, i, n, k)
  }

  lemma RemembersNext(acts: seq<Act>, states: seq<Sys>, i: nat, n: nat, r: nat, k: Key)
    requires IsRun(acts, states) && i <= n < |acts| && HoldsKey(states[n], r, k) && Remembers(acts, states, i, n, k)
    ensures Remembers(acts, states, i, n + 1, k)
  {
    RemembersOne(acts, states, n, r, k);
    ObservationsSplit(acts, i, n, k);
    Assoc(Since(acts, states, i, k), Observations(acts, i, n, k), Observations(acts, n, n + 1, k));
  }

  /** While a request holds a key, nothing of the key's history is forgotten and every observation is added to it. */
  lemma PinnedRemembers(acts: seq<Act>, states: seq<Sys>, i: nat, j: nat, r: nat, k: Key)
    requires IsRun(acts, states) && i <= j <= |acts|
    requires forall m | i <= m <= j :: HoldsKey(states[m], r, k)
    ensures Since(acts, states, j, k) == Since(acts, states, i, k) + Observations(acts, i, j, k)
  {
    for n := i to j
      invariant Remembers(acts, states, i, n, k)
    {
      RemembersNext(acts, states, i, n, r, k);
    }
  }

  /** Observations are made in time order, none after `now`. */
  ghost predicate InTime(acts: seq<Act>, n: nat, now: int)
    requires n <= |acts|
  {
    && (forall i | 0 <= i < n && acts[i].ObserveAct? :: acts[i].now <= now)
    && (forall i, j | 0 <= i < j < n && acts[i].ObserveAct? && acts[j].ObserveAct? :: acts[i].now <= acts[j].now)
  }

  ghost predicate OnTime(h: seq<Obs>, now: int) { TimeFlows(h) && forall i | 0 <= i < |h| :: h[i].now <= now }

  lemma OnTimeSnoc(h: seq<Obs>, o: Obs)
    requires OnTime(h, o.now)
    ensures OnTime(h + [o], o.now)
  {
  }

  lemma OnTimeLater(h: seq<Obs>, now: int, later: int)
    requires OnTime(h, now) && now <= later
    ensures OnTime(h, later)
  {
  }

  lemma InTimeBefore(acts: seq<Act>, n: nat, now: int)
    requires 0 < n <= |acts| && InTime(acts, n, now)
    ensures InTime(acts, n - 1, now)
    ensures acts[n - 1].ObserveAct? ==> InTime(acts, n - 1, acts[n - 1].now) && acts[n - 1].now <= now
  {
  }

  /** A history on time, one observation later at most. */
  lemma OnTimeNext(h: seq<Obs>, more: seq<Obs>, now: int)
    requires |more| <= 1 && OnTime(h, if more == [] then now else more[0].now) && (more != [] ==> more[0].now <= now)
    ensures OnTime(h + more, now)
  {
    if more == [] {
      assert h + more == h;
    } else {
      assert more == [more[0]];
      OnTimeSnoc(h, more[0]);
      OnTimeLater(h + [more[0]], more[0].now, now);
    }
  }

  lemma {:induction false} SinceInTime(acts: seq<Act>, states: seq<Sys>, n: nat, k: Key, now: int)
    requires |states| == |acts| + 1 && n <= |acts| && InTime(acts, n, now)
    ensures OnTime(Since(acts, states, n, k), now)
    decreases n
  {
    if n > 0 && !Drops(states[n - 1], states[n], k) {
      var a := acts[n - 1];
      InTimeBefore(acts, n, now);
      OneObservation(acts, n, k);
      SinceInTime(acts, states, n - 1, k, if a.ObserveAct? && a.key == k then a.now else now);
      OnTimeNext(Since(acts, states, n - 1, k), Observations(acts, n - 1, n, k), now);
    }
  }

  /**
   * With time flowing, in every reachable state an identity may be scheduled exactly if health is off or no cooldown
   * armed since its last reclaim is in force.
   */
  lemma ServedHealthyIff(acts: seq<Act>, states: seq<Sys>, n: nat, k: Key, p: Policy, now: int)
    requires IsRun(acts, states) && n <= |acts| && InTime(acts, n, now)
    ensures var h := Since(acts, states, n, k);
            IsHealthy(states[n].states, k, p, now) <==> !p.enabled || !exists a | 0 <= a < |h| :: InForce(h, a, now)
  {
    StateIsSince(acts, states, n, k);
    SinceInTime(acts, states, n, k, now);
    CoolingIff(Since(acts, states, n, k), now);
  }

  /**
   * In every reachable state, an egress is eligible exactly if it is enabled, streams if it must, serves the model,
   * takes a body of that size, has a slot free if it is capped, and is not held back by its own history.
   */
  lemma EligibleIff(acts: seq<Act>, states: seq<Sys>, n: nat, e: Egress, p: Profile, id: Id, cur: Slots, hp: Policy,
                    now: int)
    requires IsRun(acts, states) && n <= |acts| && InTime(acts, n, now)
    ensures var h := Since(acts, states, n, e.key);
            Eligible(e, p, states[n].states, cur, id, hp, now) <==>
            && e.enabled && (p.streaming ==> e.streaming) && e.models(p.model)
            && (e.maxBody == 0 || p.body <= e.maxBody)
            && (e.cap == 0 || InUse(cur, id) < e.cap)
            && (hp.enabled ==> !exists a | 0 <= a < |h| :: InForce(h, a, now))
  {
    ServedHealthyIff(acts, states, n, e.key, hp, now);
  }
}
