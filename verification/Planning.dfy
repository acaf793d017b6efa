/** What one plan is, member by member, and what a snapshot of another shape does to a route's rotation. */
module Planning {
  import opened Config
  import opened SmoothWeights
  import opened Scheduler
  import Fingerprint

  // ---- when a rotation goes on, starts over, or is left alone ----

  ghost predicate Servable(rt: Runtime, route: Route, heads: seq<Id>) {
    heads != [] && (route.strategy == Weighted ==> exists k | 0 <= k < |heads| :: WeightOf(rt, heads[k]) > 0)
  }

  lemma ServableIff(rt: Runtime, route: Route, heads: seq<Id>)
    ensures Servable(rt, route, heads) <==> !Unservable(rt, route, heads)
  {
    PoolMembers(rt, heads, |heads|);
    assert heads[..|heads|] == heads;
    var pool := Pool(rt, heads);
    if pool != [] {
      assert pool[0] in pool;
    }
    if k :| 0 <= k < |heads| && WeightOf(rt, heads[k]) > 0 {
      assert heads[k] in heads;
      assert Candidate(heads[k], WeightOf(rt, heads[k])) in pool;
    }
  }

  /** A plan is empty exactly when no head can lead, and then the rotation is left alone. */
  lemma PlanEmptyIff(table: Table, rt: Runtime, route: Route, heads: seq<Id>)
    requires ValidHeads(heads, route)
    ensures PlanStep(table, rt, route, heads).1 == [] <==> !Servable(rt, route, heads)
    ensures !Servable(rt, route, heads) ==> PlanStep(table, rt, route, heads).0 == table
  {
    ServableIff(rt, route, heads);
    if Servable(rt, route, heads) && route.strategy == Weighted {
      WeightedTurn(StateFor(table, route, rt).0, rt, route, heads);
    }
  }

  /**
   * A servable plan leaves an entry of its own shape exactly if no newer snapshot of another shape holds the place.
   * An entry of that shape keeps its tag and goes on turning; any other is replaced by what a plan over no state at
   * all would leave, under this generation. Nobody else's entry changes.
   */
  lemma NewShapeReplaces(table: Table, rt: Runtime, route: Route, heads: seq<Id>)
    requires Servable(rt, route, heads)
    ensures var (t, plan), anew := PlanStep(table, rt, route, heads), PlanStep(map[], rt, route, heads);
            && (Continues(t, route, rt) <==> Continues(table, route, rt) || StartsOver(table, route, rt))
            && (Continues(table, route, rt) ==> route.id in t && t[route.id].generation == table[route.id].generation)
            && (StartsOver(table, route, rt) ==>
                  route.id in t && route.id in anew.0 && t[route.id] == anew.0[route.id] && plan == anew.1
                  && t[route.id].generation == rt.generation)
            && t - {route.id} == table - {route.id}
  {
    ServableIff(rt, route, heads);
  }

  /** A pruned route starts over whatever snapshot plans next; a kept one goes on where it stood. */
  lemma PrunedStartsOver(table: Table, keep: set<Id>, rt: Runtime, route: Route)
    ensures route.id !in keep ==> StartsOver(Prune(table, keep), route, rt)
    ensures route.id in keep ==>
              && (StartsOver(Prune(table, keep), route, rt) <==> StartsOver(table, route, rt))
              && (Continues(Prune(table, keep), route, rt) <==> Continues(table, route, rt))
              && CursorOf(Prune(table, keep), route, rt) == CursorOf(table, route, rt)
              && WeightsOf(Prune(table, keep), route, rt) == WeightsOf(table, route, rt)
  {
  }

  // ---- round robin ----

  /** A round-robin plan is the heads from the cursor on, once around, and the cursor moves by one. */
  lemma RoundRobinPlanIs(table: Table, rt: Runtime, route: Route, heads: seq<Id>)
    requires route.strategy != Weighted && heads != []
    ensures var (t, plan), c := PlanStep(table, rt, route, heads), CursorOf(table, route, rt);
            && |plan| == |heads|
            && (forall j | 0 <= j < |heads| :: plan[j] == heads[(c + j) % |heads|])
            && (Continues(table, route, rt) || StartsOver(table, route, rt) ==> CursorOf(t, route, rt) == c + 1)
  {
    var plan, c := PlanStep(table, rt, route, heads).1, CursorOf(table, route, rt);
    forall j | 0 <= j < |heads| ensures plan[j] == heads[(c + j) % |heads|] {
      CursorWraps(c, j, |heads|);
    }
  }

  // ---- weighted ----

  /** A head of positive weight stands in the pool behind those of the heads before it. */
  lemma {:induction false} PoolAt(rt: Runtime, heads: seq<Id>, n: nat, p: nat)
    requires p < n <= |heads| && WeightOf(rt, heads[p]) > 0
    ensures |PoolUpTo(rt, heads, p)| < |PoolUpTo(rt, heads, n)|
    ensures PoolUpTo(rt, heads, n)[|PoolUpTo(rt, heads, p)|] == Candidate(heads[p], WeightOf(rt, heads[p]))
  {
    if p < n - 1 {
      PoolAt(rt, heads, n - 1, p);
    }
  }

  lemma {:induction false} PoolFrom(rt: Runtime, heads: seq<Id>, n: nat, k: nat) returns (p: nat)
    requires n <= |heads| && k < |PoolUpTo(rt, heads, n)|
    ensures p < n && WeightOf(rt, heads[p]) > 0 && |PoolUpTo(rt, heads, p)| == k
  {
    if k < |PoolUpTo(rt, heads, n - 1)| {
      p := PoolFrom(rt, heads, n - 1, k);
    } else {
      p := n - 1;
    }
  }

  lemma {:induction false} WithoutMissing(xs: seq<Id>, drop: Id, n: nat)
    requires n <= |xs| && drop !in xs[..n]
    ensures WithoutUpTo(xs, drop, n) == xs[..n]
  {
    if n > 0 {
      assert xs[..n] == xs[..n - 1] + [xs[n - 1]];
      WithoutMissing(xs, drop, n - 1);
    }
  }

  lemma {:induction false} WithoutAt(xs: seq<Id>, p: nat, n: nat)
    requires Distinct(xs) && p < n <= |xs|
    ensures WithoutUpTo(xs, xs[p], n) == xs[..p] + xs[p + 1..n]
  {
    if n == p + 1 {
      WithoutMissing(xs, xs[p], p);
    } else {
      WithoutAt(xs, p, n - 1);
      assert xs[p + 1..n] == xs[p + 1..n - 1] + [xs[n - 1]];
    }
  }

  /** A head's standing in the round: its running weight raised by its own. */
  ghost function Standing(cw: Running, rt: Runtime, id: Id): int { Get(cw, id) + WeightOf(rt, id) }

  /** The head at p leads: of positive weight, in front of no higher standing, and behind no equal one. */
  ghost predicate Leads(cw: Running, rt: Runtime, heads: seq<Id>, p: nat) {
    && p < |heads| && WeightOf(rt, heads[p]) > 0
    && (forall k | 0 <= k < |heads| && WeightOf(rt, heads[k]) > 0 ::
          Standing(cw, rt, heads[k]) <= Standing(cw, rt, heads[p]))
    && (forall k | 0 <= k < p && WeightOf(rt, heads[k]) > 0 ::
          Standing(cw, rt, heads[k]) < Standing(cw, rt, heads[p]))
  }

  lemma StandsAt(cw: Running, rt: Runtime, heads: seq<Id>, q: nat)
    requires Distinct(heads) && q < |heads| && WeightOf(rt, heads[q]) > 0
    ensures var pool, k := Pool(rt, heads), |PoolUpTo(rt, heads, q)|;
            k < |pool| && pool[k].id == heads[q] && Get(Raise(cw, pool), pool[k].id) == Standing(cw, rt, heads[q])
  {
    PoolAt(rt, heads, |heads|, q);
    PoolIsValid(rt, heads, |heads|);
    RaiseAt(cw, Pool(rt, heads), |Pool(rt, heads)|, |PoolUpTo(rt, heads, q)|);
  }

  /** Against the pool's first maximum, which is the head at p, no head stands higher and none before it as high. */
  lemma StandsBehind(cw: Running, rt: Runtime, heads: seq<Id>, p: nat, q: nat)
    requires Distinct(heads) && p < |heads| && q < |heads|
    requires WeightOf(rt, heads[p]) > 0 && WeightOf(rt, heads[q]) > 0
    requires FirstMax(Raise(cw, Pool(rt, heads)), Pool(rt, heads), |Pool(rt, heads)|, |PoolUpTo(rt, heads, p)|)
    ensures Standing(cw, rt, heads[q]) <= Standing(cw, rt, heads[p])
    ensures q < p ==> Standing(cw, rt, heads[q]) < Standing(cw, rt, heads[p])
  {
    StandsAt(cw, rt, heads, p);
    StandsAt(cw, rt, heads, q);
    if q < p {
      PoolAt(rt, heads, p, q);
    }
  }

  lemma RoundLeads(cw: Running, rt: Runtime, heads: seq<Id>) returns (p: nat)
    requires Distinct(heads) && Pool(rt, heads) != []
    ensures Leads(cw, rt, heads, p) && Round(cw, Pool(rt, heads)).1 == heads[p]
  {
    var pool := Pool(rt, heads);
    p := PoolFrom(rt, heads, |heads|, Best(Raise(cw, pool), pool, |pool|));
    StandsAt(cw, rt, heads, p);
    forall q | 0 <= q < |heads| && WeightOf(rt, heads[q]) > 0
      ensures Standing(cw, rt, heads[q]) <= Standing(cw, rt, heads[p])
      ensures q < p ==> Standing(cw, rt, heads[q]) < Standing(cw, rt, heads[p])
    {
      StandsBehind(cw, rt, heads, p, q);
    }
  }

  lemma FrontIs(heads: seq<Id>, p: nat)
    requires Distinct(heads) && p < |heads|
    ensures [heads[p]] + Without(heads, heads[p]) == [heads[p]] + heads[..p] + heads[p + 1..]
  {
    WithoutAt(heads, p, |heads|);
    assert heads[p + 1..|heads|] == heads[p + 1..];
  }

  lemma WeightedTurnIs(table: Table, rt: Runtime, route: Route, heads: seq<Id>)
    requires route.strategy == Weighted && !Unservable(rt, route, heads)
    ensures var best := Round(WeightsOf(table, route, rt), Pool(rt, heads)).1;
            PlanStep(table, rt, route, heads).1 == [best] + Without(heads, best)
  {
  }

  /**
   * A weighted plan puts the head of highest standing first, the earliest of equals, and keeps the others in order
   * behind it.
   */
  lemma WeightedPlanIs(table: Table, rt: Runtime, route: Route, heads: seq<Id>) returns (p: nat)
    requires ValidHeads(heads, route) && route.strategy == Weighted && Servable(rt, route, heads)
    ensures Leads(WeightsOf(table, route, rt), rt, heads, p)
    ensures PlanStep(table, rt, route, heads).1 == [heads[p]] + heads[..p] + heads[p + 1..]
  {
    ServableIff(rt, route, heads);
    p := RoundLeads(WeightsOf(table, route, rt), rt, heads);
    WeightedTurnIs(table, rt, route, heads);
    FrontIs(heads, p);
  }

  /** What the first n heads weigh together. */
  ghost function Weigh(rt: Runtime, heads: seq<Id>, n: nat): nat
    requires n <= |heads|
  {
    if n == 0 then 0 else Weigh(rt, heads, n - 1) + WeightOf(rt, heads[n - 1])
  }

  lemma SameWeight(a: seq<Candidate>, b: seq<Candidate>, n: nat)
    requires n <= |a| && n <= |b| && a[..n] == b[..n]
    ensures Weight(a, n) == Weight(b, n)
  {
    for i := 0 to n
      invariant Weight(a, i) == Weight(b, i)
    {
      assert a[..n][i] == b[..n][i];
    }
  }

  lemma {:induction false} PoolWeighs(rt: Runtime, heads: seq<Id>, n: nat)
    requires n <= |heads|
    ensures Total(PoolUpTo(rt, heads, n)) == Weigh(rt, heads, n)
  {
    if n > 0 {
      PoolWeighs(rt, heads, n - 1);
      var rest, all := PoolUpTo(rt, heads, n - 1), PoolUpTo(rt, heads, n);
      SameWeight(rest, all, |rest|);
    }
  }

  lemma {:induction false} RaiseOthers(cw: Running, pool: seq<Candidate>, n: nat, id: Id)
    requires n <= |pool| && forall k | 0 <= k < |pool| :: pool[k].id != id
    ensures Get(RaiseUpTo(cw, pool, n), id) == Get(cw, id)
  {
    if n > 0 {
      RaiseOthers(cw, pool, n - 1, id);
    }
  }

  /** After a weighted plan: every head that could lead stands as it did, the leader less what all weigh together. */
  lemma WeightedPlanLeaves(table: Table, rt: Runtime, route: Route, heads: seq<Id>, id: Id)
    requires ValidHeads(heads, route) && route.strategy == Weighted && Servable(rt, route, heads)
    requires Continues(table, route, rt) || StartsOver(table, route, rt)
    ensures var cw, (t, plan) := WeightsOf(table, route, rt), PlanStep(table, rt, route, heads);
            && plan != []
            && Get(WeightsOf(t, route, rt), id) ==
               (if id in heads then Standing(cw, rt, id) else Get(cw, id))
               - if id == plan[0] then Weigh(rt, heads, |heads|) else 0
  {
    ServableIff(rt, route, heads);
    WeightedPlanStep(table, rt, route, heads);
    PoolWeighs(rt, heads, |heads|);
    RaisedTo(WeightsOf(table, route, rt), rt, heads, id);
  }

  lemma RaisedTo(cw: Running, rt: Runtime, heads: seq<Id>, id: Id)
    requires Distinct(heads)
    ensures Get(Raise(cw, Pool(rt, heads)), id) == if id in heads then Standing(cw, rt, id) else Get(cw, id)
  {
    PoolFacts(rt, heads);
    if id in heads && WeightOf(rt, id) > 0 {
      var q :| 0 <= q < |heads| && heads[q] == id;
      StandsAt(cw, rt, heads, q);
    } else {
      RaiseOthers(cw, Pool(rt, heads), |Pool(rt, heads)|, id);
    }
  }
}
