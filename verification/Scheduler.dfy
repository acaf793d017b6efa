/** Per-route rotation state, planning, pruning, and what every run of them keeps. */
module Scheduler {
  import opened Config
  import opened SmoothWeights
  import Fingerprint

  datatype RouteState = RouteState(fingerprint: string, generation: nat, cursor: nat, cw: Running)

  type Table = map<Id, RouteState>

  // ---- what one call computes ----

  /** The schedulable heads: among the first n, those with a positive weight. */
  function PoolUpTo(rt: Runtime, heads: seq<Id>, n: nat): seq<Candidate>
    requires n <= |heads|
  {
    if n == 0 then []
    else
      var rest := PoolUpTo(rt, heads, n - 1);
      var id := heads[n - 1];
      if WeightOf(rt, id) > 0 then rest + [Candidate(id, WeightOf(rt, id))] else rest
  }

  function Pool(rt: Runtime, heads: seq<Id>): seq<Candidate> { PoolUpTo(rt, heads, |heads|) }

  function WithoutUpTo(xs: seq<Id>, drop: Id, n: nat): seq<Id>
    requires n <= |xs|
  {
    if n == 0 then []
    else
      var rest := WithoutUpTo(xs, drop, n - 1);
      if xs[n - 1] != drop then rest + [xs[n - 1]] else rest
  }

  function Without(xs: seq<Id>, drop: Id): seq<Id> { WithoutUpTo(xs, drop, |xs|) }

  function Fresh(fp: string, generation: nat): RouteState {
    RouteState(fp, generation, 0, map[])
  }

  /** The state a snapshot plans against, and whether that state lives in the table. */
  function StateFor(table: Table, route: Route, rt: Runtime): (RouteState, bool) {
    var fp := Fingerprint.Of(route, rt);
    if route.id in table && table[route.id].fingerprint == fp then (table[route.id], true)
    else if route.id in table && rt.generation < table[route.id].generation then (Fresh(fp, 0), false)
    else (Fresh(fp, rt.generation), true)
  }

  /** One turn of the rotation over a non-empty head set. */
  function Turn(st: RouteState, rt: Runtime, route: Route, heads: seq<Id>): (RouteState, seq<Id>)
    requires heads != []
    requires route.strategy == Weighted ==> Pool(rt, heads) != []
  {
    if route.strategy == Weighted then
      var (cw, best) := Round(st.cw, Pool(rt, heads));
      (st.(cw := cw), [best] + Without(heads, best))
    else
      var i := st.cursor % |heads|;
      (st.(cursor := st.cursor + 1), heads[i..] + heads[..i])
  }

  predicate Unservable(rt: Runtime, route: Route, heads: seq<Id>) {
    heads == [] || (route.strategy == Weighted && Pool(rt, heads) == [])
  }

  function PlanStep(table: Table, rt: Runtime, route: Route, heads: seq<Id>): (Table, seq<Id>) {
    if Unservable(rt, route, heads) then (table, [])
    else
      var (st, stored) := StateFor(table, route, rt);
      var (next, attempts) := Turn(st, rt, route, heads);
      (if stored then table[route.id := next] else table, attempts)
  }

  function Prune(table: Table, keep: set<Id>): Table {
    map id | id in table && id in keep :: table[id]
  }

  /** The members that can lead. */
  method Schedulable(rt: Runtime, heads: seq<Id>) returns (pool: seq<Candidate>)
    ensures pool == Pool(rt, heads)
  {
    pool := [];
    for i := 0 to |heads|
      invariant pool == PoolUpTo(rt, heads, i)
    {
      var w := WeightOf(rt, heads[i]);
      if w > 0 {
        pool := pool + [Candidate(heads[i], w)];
      }
    }
  }

  /** A list without one of its ids. */
  method Drop(xs: seq<Id>, drop: Id) returns (rest: seq<Id>)
    ensures rest == Without(xs, drop)
  {
    rest := [];
    for i := 0 to |xs|
      invariant rest == WithoutUpTo(xs, drop, i)
    {
      if xs[i] != drop {
        rest := rest + [xs[i]];
      }
    }
  }

  // ---- the scheduler object ----

  class Scheduler {
    var state: Table

    constructor ()
      ensures state == map[]
    {
      state := map[];
    }

    method Resolve(route: Route, rt: Runtime) returns (st: RouteState, stored: bool)
      modifies this
      ensures (st, stored) == StateFor(old(state), route, rt)
      ensures state == if stored then old(state)[route.id := st] else old(state)
    {
      var fp := Fingerprint.Build(route, rt);
      if route.id in state {
        st := state[route.id];
        if st.fingerprint == fp {
          assert state == state[route.id := st];
          return st, true;
        }
        if rt.generation < st.generation {
          return Fresh(fp, 0), false;
        }
      }
      st := Fresh(fp, 0);
      st := st.(generation := rt.generation);
      state := state[route.id := st];
      stored := true;
    }

    /** Orders the eligible heads of a route and advances its rotation. */
    method Plan(rt: Runtime, route: Route, heads: seq<Id>) returns (attempts: seq<Id>)
      requires ValidRoute(route, rt) && ValidHeads(heads, route)
      modifies this
      ensures (state, attempts) == PlanStep(old(state), rt, route, heads)
    {
      if |heads| == 0 {
        return [];
      }
      var pool: seq<Candidate> := [];
      if route.strategy == Weighted {
        pool := Schedulable(rt, heads);
        if |pool| == 0 {
          return [];
        }
      }
      var st, stored := Resolve(route, rt);
      if route.strategy == Weighted {
        PoolIsValid(rt, heads, |heads|);
        var cw, best := RunRound(st.cw, pool);
        st := st.(cw := cw);
        var tail := Drop(heads, best);
        attempts := [best] + tail;
      } else {
        var i := st.cursor % |heads|;
        attempts := heads[i..] + heads[..i];
        st := st.(cursor := st.cursor + 1);
      }
      if stored {
        state := state[route.id := st];
        assert state == old(state)[route.id := st];
      }
    }

    /** Drops the rotation state of every route the keep set does not name. */
    method PruneRoutes(keep: set<Id>) returns (dropped: nat)
      modifies this
      ensures state == Prune(old(state), keep)
      ensures dropped == |old(state)| - |state|
    {
      var ids := state.Keys;
      dropped := 0;
      while ids != {}
        invariant forall id | id in ids :: id in state
        invariant forall id :: id in state <==> id in old(state) && (id in ids || id in keep)
        invariant forall id | id in state :: state[id] == old(state)[id]
        invariant dropped == |old(state)| - |state|
        decreases |ids|
      {
        var id :| id in ids;
        ids := ids - {id};
        if id !in keep {
          dropped := dropped + 1;
          Forget(state, id);
          state := state - {id};
        }
      }
    }
  }

  lemma Forget(table: Table, id: Id)
    requires id in table
    ensures |table - {id}| == |table| - 1
  {
    assert (table - {id}).Keys == table.Keys - {id};
  }

  // ---- the pool and the shape of one plan ----

  lemma {:induction false} PoolMembers(rt: Runtime, heads: seq<Id>, n: nat)
    requires n <= |heads|
    ensures forall c | c in PoolUpTo(rt, heads, n) :: c.id in heads[..n] && c.w == WeightOf(rt, c.id) > 0
    ensures forall id | id in heads[..n] && WeightOf(rt, id) > 0 ::
              Candidate(id, WeightOf(rt, id)) in PoolUpTo(rt, heads, n)
  {
    if n > 0 {
      PoolMembers(rt, heads, n - 1);
      assert heads[..n] == heads[..n - 1] + [heads[n - 1]];
    }
  }

  lemma {:induction false} PoolIsValid(rt: Runtime, heads: seq<Id>, n: nat)
    requires Distinct(heads) && n <= |heads|
    ensures PoolUpTo(rt, heads, n) != [] ==> ValidPool(PoolUpTo(rt, heads, n))
  {
    if n > 0 {
      PoolIsValid(rt, heads, n - 1);
      PoolMembers(rt, heads, n - 1);
      assert heads[n - 1] !in heads[..n - 1];
      var pool := PoolUpTo(rt, heads, n - 1);
      assert forall k | 0 <= k < |pool| :: pool[k] in pool;
    }
  }

  lemma {:induction false} PoolAgrees(ra: Runtime, rb: Runtime, heads: seq<Id>, n: nat)
    requires n <= |heads|
    requires forall i | 0 <= i < |heads| :: WeightOf(ra, heads[i]) == WeightOf(rb, heads[i])
    ensures PoolUpTo(ra, heads, n) == PoolUpTo(rb, heads, n)
  {
    if n > 0 {
      PoolAgrees(ra, rb, heads, n - 1);
    }
  }

  /** How often an id occurs among the first n. */
  function Occurs(xs: seq<Id>, n: nat, y: Id): nat
    requires n <= |xs|
  {
    if n == 0 then 0 else Occurs(xs, n - 1, y) + if xs[n - 1] == y then 1 else 0
  }

  lemma {:induction false} OccursIsCount(xs: seq<Id>, n: nat, y: Id)
    requires n <= |xs|
    ensures multiset(xs[..n])[y] == Occurs(xs, n, y)
  {
    if n > 0 {
      OccursIsCount(xs, n - 1, y);
      assert xs[..n] == xs[..n - 1] + [xs[n - 1]];
    }
  }

  lemma CountOneMore(xs: seq<Id>, x: Id, y: Id)
    ensures multiset(xs + [x])[y] == multiset(xs)[y] + if x == y then 1 else 0
  {
  }

  lemma {:induction false} WithoutKeeps(xs: seq<Id>, drop: Id, n: nat, y: Id)
    requires n <= |xs|
    ensures multiset(WithoutUpTo(xs, drop, n))[y] == if y == drop then 0 else Occurs(xs, n, y)
  {
    if n > 0 {
      WithoutKeeps(xs, drop, n - 1, y);
      CountOneMore(WithoutUpTo(xs, drop, n - 1), xs[n - 1], y);
    }
  }

  lemma {:induction false} DistinctOccursOnce(xs: seq<Id>, n: nat, y: Id)
    requires Distinct(xs) && n <= |xs|
    ensures Occurs(xs, n, y) <= 1 && (Occurs(xs, n, y) == 1 <==> exists k | 0 <= k < n :: xs[k] == y)
  {
    if n > 0 {
      DistinctOccursOnce(xs, n - 1, y);
    }
  }

  /** Moving one member to the front is a permutation. */
  lemma FrontIsPermutation(heads: seq<Id>, best: Id)
    requires Distinct(heads) && best in heads
    ensures multiset([best] + Without(heads, best)) == multiset(heads)
  {
    var plan := [best] + Without(heads, best);
    assert multiset(plan) == multiset{best} + multiset(Without(heads, best));
    assert heads[..|heads|] == heads;
    forall y ensures multiset(plan)[y] == multiset(heads)[y] {
      OccursIsCount(heads, |heads|, y);
      WithoutKeeps(heads, best, |heads|, y);
      DistinctOccursOnce(heads, |heads|, y);
    }
  }

  /** The pool as the rest of the proofs use it: exactly the positive-weight heads. */
  lemma PoolFacts(rt: Runtime, heads: seq<Id>)
    requires Distinct(heads)
    ensures Pool(rt, heads) != [] ==> ValidPool(Pool(rt, heads))
    ensures forall k | 0 <= k < |Pool(rt, heads)| ::
              Pool(rt, heads)[k].id in heads && Pool(rt, heads)[k].w == WeightOf(rt, Pool(rt, heads)[k].id) > 0
    ensures forall id | id in heads && WeightOf(rt, id) > 0 :: Candidate(id, WeightOf(rt, id)) in Pool(rt, heads)
  {
    PoolIsValid(rt, heads, |heads|);
    PoolMembers(rt, heads, |heads|);
    assert heads[..|heads|] == heads;
  }

  lemma WeightedTurn(st: RouteState, rt: Runtime, route: Route, heads: seq<Id>)
    requires ValidHeads(heads, route) && route.strategy == Weighted && !Unservable(rt, route, heads)
    ensures var attempts := Turn(st, rt, route, heads).1;
            && multiset(attempts) == multiset(heads)
            && attempts != [] && attempts[0] == Round(st.cw, Pool(rt, heads)).1 && WeightOf(rt, attempts[0]) > 0
  {
    PoolFacts(rt, heads);
    var best := Round(st.cw, Pool(rt, heads)).1;
    assert best in heads;
    FrontIsPermutation(heads, best);
  }

  /** A servable plan orders exactly the eligible heads, and its head is never a weight-0 egress. */
  lemma PlanIsPermutation(table: Table, rt: Runtime, route: Route, heads: seq<Id>)
    requires ValidRoute(route, rt) && ValidHeads(heads, route)
    ensures var attempts := PlanStep(table, rt, route, heads).1;
            if Unservable(rt, route, heads) then attempts == []
            else multiset(attempts) == multiset(heads) && Distinct(attempts) && attempts != []
                 && (route.strategy == Weighted ==> WeightOf(rt, attempts[0]) > 0)
  {
    if !Unservable(rt, route, heads) {
      var st := StateFor(table, route, rt).0;
      if route.strategy == Weighted {
        WeightedTurn(st, rt, route, heads);
      } else {
        var i := st.cursor % |heads|;
        assert heads == heads[..i] + heads[i..];
      }
      SameMultisetDistinct(heads, Turn(st, rt, route, heads).1);
    }
  }

  lemma SameMultisetDistinct(a: seq<Id>, b: seq<Id>)
    requires Distinct(a) && multiset(a) == multiset(b)
    ensures Distinct(b)
  {
    if !Distinct(b) {
      var i, j :| 0 <= i < j < |b| && b[i] == b[j];
      var x := b[i];
      Twice(b, i, j);
      assert x in multiset(a);
      Once(a, x);
    }
  }

  lemma Twice(b: seq<Id>, i: nat, j: nat)
    requires i < j < |b| && b[i] == b[j]
    ensures multiset(b)[b[i]] >= 2
  {
    assert b == b[..j] + [b[j]] + b[j + 1..];
    assert b[..j] == b[..i] + [b[i]] + b[i + 1..j];
  }

  lemma {:induction false} Once(a: seq<Id>, x: Id)
    requires Distinct(a)
    ensures multiset(a)[x] <= 1
  {
    if a != [] {
      var n := |a| - 1;
      Once(a[..n], x);
      assert a == a[..n] + [a[n]];
      assert a[n] !in a[..n];
    }
  }

  // ---- runs ----

  datatype Op = PlanOp(rt: Runtime, route: Route, heads: seq<Id>) | PruneOp(keep: set<Id>)

  predicate ValidOp(op: Op) {
    op.PlanOp? ==> ValidRoute(op.route, op.rt) && ValidHeads(op.heads, op.route)
  }

  function Step(table: Table, op: Op): (Table, seq<Id>) {
    match op
    case PlanOp(rt, route, heads) => PlanStep(table, rt, route, heads)
    case PruneOp(keep) => (Prune(table, keep), [])
  }

  ghost function Run(table: Table, ops: seq<Op>): Table {
    if ops == [] then table else Step(Run(table, ops[..|ops| - 1]), ops[|ops| - 1]).0
  }

  /** Stored state belongs to a shape: only its positive-weight members carry weight, summing to zero. */
  ghost predicate StateOfShape(st: RouteState, route: Route, rt: Runtime) {
    && ValidRoute(route, rt)
    && Fingerprint.Of(route, rt) == st.fingerprint
    && (route.strategy == Weighted ==> st.cursor == 0)
    && (route.strategy != Weighted ==> st.cw == map[])
    && (forall id | id in st.cw :: id in route.egress && WeightOf(rt, id) > 0)
    && Sum(st.cw, route.egress) == 0
  }

  ghost predicate TableOk(table: Table) {
    forall id | id in table :: HasShape(table[id], id)
  }

  /** A fingerprint match means the stored state is of this very shape. */
  lemma MatchMeansShape(st: RouteState, a: Route, ra: Runtime, b: Route, rb: Runtime)
    requires StateOfShape(st, a, ra) && ValidRoute(b, rb) && Fingerprint.Of(b, rb) == st.fingerprint
    ensures StateOfShape(st, b, rb)
  {
    Fingerprint.FingerprintIdentifiesShape(a, ra, b, rb);
    forall id | id in st.cw ensures id in b.egress && WeightOf(rb, id) > 0 {
      var i :| 0 <= i < |a.egress| && a.egress[i] == id;
    }
  }

  lemma TurnKeepsShape(st: RouteState, rt: Runtime, route: Route, heads: seq<Id>)
    requires StateOfShape(st, route, rt) && ValidHeads(heads, route) && !Unservable(rt, route, heads)
    ensures StateOfShape(Turn(st, rt, route, heads).0, route, rt)
  {
    if route.strategy == Weighted {
      PoolFacts(rt, heads);
      var keys := set id | id in route.egress && WeightOf(rt, id) > 0;
      RoundConserves(st.cw, Pool(rt, heads), route.egress, keys);
    }
  }

  lemma FreshHasShape(route: Route, rt: Runtime, generation: nat)
    requires ValidRoute(route, rt)
    ensures StateOfShape(Fresh(Fingerprint.Of(route, rt), generation), route, rt)
  {
    EmptySum(route.egress, |route.egress|);
  }

  ghost predicate HasShape(st: RouteState, id: Id) {
    exists route: Route, rt: Runtime :: route.id == id && StateOfShape(st, route, rt)
  }

  /** The state a stored plan starts from is of its own shape, and so is the state it leaves. */
  lemma StoredTurnKeeps(table: Table, rt: Runtime, route: Route, heads: seq<Id>)
    requires TableOk(table) && ValidRoute(route, rt) && ValidHeads(heads, route) && !Unservable(rt, route, heads)
    requires StateFor(table, route, rt).1
    ensures StateOfShape(Turn(StateFor(table, route, rt).0, rt, route, heads).0, route, rt)
  {
    var st := StateFor(table, route, rt).0;
    FreshHasShape(route, rt, rt.generation);
    if route.id in table && table[route.id].fingerprint == Fingerprint.Of(route, rt) {
      assert HasShape(table[route.id], route.id);
      var a: Route, ra: Runtime :| a.id == route.id && StateOfShape(table[route.id], a, ra);
      MatchMeansShape(st, a, ra, route, rt);
    }
    TurnKeepsShape(st, rt, route, heads);
  }

  lemma StepKeepsTable(table: Table, op: Op)
    requires TableOk(table) && ValidOp(op)
    ensures TableOk(Step(table, op).0)
  {
    var next := Step(table, op).0;
    forall id | id in next ensures HasShape(next[id], id) {
      if id in table && next[id] == table[id] {
        assert HasShape(table[id], id);
      } else {
        StoredTurnKeeps(table, op.rt, op.route, op.heads);
      }
    }
  }

  /**
   * Under any mix of reloads, eligibility flaps and prunes, stored running weights sum to zero
   * over the route's members and only positive-weight members carry an entry.
   */
  lemma {:induction false} EveryRunKeepsTable(ops: seq<Op>)
    requires forall i | 0 <= i < |ops| :: ValidOp(ops[i])
    ensures TableOk(Run(map[], ops))
  {
    if ops != [] {
      var n := |ops| - 1;
      EveryRunKeepsTable(ops[..n]);
      StepKeepsTable(Run(map[], ops[..n]), ops[n]);
    }
  }

  /** Whatever snapshot plans next, the state it is handed is of its own shape. */
  lemma PlansAgainstOwnShape(ops: seq<Op>, route: Route, rt: Runtime)
    requires forall i | 0 <= i < |ops| :: ValidOp(ops[i])
    requires ValidRoute(route, rt)
    ensures StateOfShape(StateFor(Run(map[], ops), route, rt).0, route, rt)
  {
    EveryRunKeepsTable(ops);
    var table := Run(map[], ops);
    FreshHasShape(route, rt, rt.generation);
    FreshHasShape(route, rt, 0);
    if route.id in table && table[route.id].fingerprint == Fingerprint.Of(route, rt) {
      assert HasShape(table[route.id], route.id);
      var a: Route, ra: Runtime :| a.id == route.id && StateOfShape(table[route.id], a, ra);
      MatchMeansShape(table[route.id], a, ra, route, rt);
    }
  }

  // ---- reload continuity and the stale-write guard ----

  /** Between prunes a route's stored generation tag never decreases and never disappears. */
  lemma {:induction false} TagNeverDecreases(table: Table, ops: seq<Op>, id: Id)
    requires id in table
    requires forall i | 0 <= i < |ops| :: ops[i].PlanOp?
    ensures id in Run(table, ops) && Run(table, ops)[id].generation >= table[id].generation
  {
    if ops != [] {
      TagNeverDecreases(table, ops[..|ops| - 1], id);
    }
  }

  /** A superseded snapshot of another shape changes nothing and still gets a plan from its first position. */
  lemma StaleSnapshotWritesNothing(table: Table, rt: Runtime, route: Route, heads: seq<Id>)
    requires ValidRoute(route, rt) && ValidHeads(heads, route)
    requires route.id in table && table[route.id].fingerprint != Fingerprint.Of(route, rt)
    requires rt.generation < table[route.id].generation
    ensures PlanStep(table, rt, route, heads).0 == table
    ensures PlanStep(table, rt, route, heads).1 == PlanStep(map[], rt, route, heads).1
    ensures !Unservable(rt, route, heads) ==> multiset(PlanStep(table, rt, route, heads).1) == multiset(heads)
  {
    PlanIsPermutation(table, rt, route, heads);
  }

  datatype Request = Request(rt: Runtime, heads: seq<Id>)

  /** The plans a route's requests get, in order, with the table they leave behind. */
  ghost function Plans(table: Table, route: Route, reqs: seq<Request>): (Table, seq<seq<Id>>) {
    if reqs == [] then (table, [])
    else
      var n := |reqs| - 1;
      var (t, plans) := Plans(table, route, reqs[..n]);
      var (t', plan) := PlanStep(t, reqs[n].rt, route, reqs[n].heads);
      (t', plans + [plan])
  }

  ghost predicate SameRotation(a: Table, b: Table, id: Id) {
    || (id !in a && id !in b)
    || (id in a && id in b && a[id].(generation := 0) == b[id].(generation := 0))
  }

  ghost predicate KeepsShape(table: Table, route: Route, rt: Runtime, fp: string) {
    && ValidRoute(route, rt)
    && Fingerprint.Of(route, rt) == fp
    && (route.id in table ==> table[route.id].fingerprint == fp)
  }

  /** Two routes of one fingerprint, each under its own snapshot, take the same turn from the same rotation. */
  lemma SameTurn(a: Table, ra: Route, sa: Runtime, b: Table, rb: Route, sb: Runtime, heads: seq<Id>, fp: string)
    requires KeepsShape(a, ra, sa, fp) && KeepsShape(b, rb, sb, fp) && ra.id == rb.id && ValidHeads(heads, ra)
    requires SameRotation(a, b, ra.id)
    ensures PlanStep(a, sa, ra, heads).1 == PlanStep(b, sb, rb, heads).1
    ensures SameRotation(PlanStep(a, sa, ra, heads).0, PlanStep(b, sb, rb, heads).0, ra.id)
    ensures KeepsShape(PlanStep(a, sa, ra, heads).0, ra, sa, fp)
    ensures KeepsShape(PlanStep(b, sb, rb, heads).0, rb, sb, fp)
  {
    Fingerprint.FingerprintIdentifiesShape(ra, sa, rb, sb);
    if ra.strategy == Weighted {
      forall i | 0 <= i < |heads| ensures WeightOf(sa, heads[i]) == WeightOf(sb, heads[i]) {
        var k :| 0 <= k < |ra.egress| && ra.egress[k] == heads[i];
      }
      PoolAgrees(sa, sb, heads, |heads|);
    }
  }

  /** The table after the first n operations. */
  ghost function TableAt(table: Table, ops: seq<Op>, n: nat): Table
    requires n <= |ops|
  {
    if n == 0 then table else Step(TableAt(table, ops, n - 1), ops[n - 1]).0
  }

  ghost predicate PlansFor(op: Op, id: Id) { op.PlanOp? && op.route.id == id }

  /** The plans one route's requests get among the first n operations, in order. */
  ghost function PlansOf(table: Table, ops: seq<Op>, n: nat, id: Id): seq<seq<Id>>
    requires n <= |ops|
  {
    if n == 0 then []
    else
      PlansOf(table, ops, n - 1, id) +
      if PlansFor(ops[n - 1], id) then [Step(TableAt(table, ops, n - 1), ops[n - 1]).1] else []
  }

  /** The same requests, all under one snapshot. */
  ghost function Asked(ops: seq<Op>, n: nat, id: Id, rt: Runtime): seq<Request>
    requires n <= |ops|
  {
    if n == 0 then []
    else Asked(ops, n - 1, id, rt) + if PlansFor(ops[n - 1], id) then [Request(rt, ops[n - 1].heads)] else []
  }

  /** The operation leaves a route's fingerprint and state in place: reloads keep its shape, prunes keep its id. */
  ghost predicate Keeps(op: Op, id: Id, fp: string) {
    match op
    case PlanOp(rt, route, heads) =>
      route.id == id ==> ValidRoute(route, rt) && ValidHeads(heads, route) && Fingerprint.Of(route, rt) == fp
    case PruneOp(keep) => id in keep
  }

  lemma PlansOneMore(table: Table, route: Route, reqs: seq<Request>, r: Request)
    ensures var before := Plans(table, route, reqs);
            var step := PlanStep(before.0, r.rt, route, r.heads);
            Plans(table, route, reqs + [r]) == (step.0, before.1 + [step.1])
  {
    assert (reqs + [r])[..|reqs|] == reqs;
  }

  /** Both runs stand at the same point of the route's rotation, and gave it the same plans. */
  ghost predicate InStep(table: Table, ops: seq<Op>, n: nat, route: Route, rt: Runtime, fp: string)
    requires n <= |ops|
  {
    var frozen := Plans(table, route, Asked(ops, n, route.id, rt));
    && PlansOf(table, ops, n, route.id) == frozen.1
    && SameRotation(TableAt(table, ops, n), frozen.0, route.id)
    && KeepsShape(frozen.0, route, rt, fp)
  }

  lemma OtherOp(table: Table, op: Op, id: Id)
    requires if op.PlanOp? then op.route.id != id else id in op.keep
    ensures SameRotation(table, Step(table, op).0, id)
  {
  }

  lemma InStepNext(table: Table, ops: seq<Op>, n: nat, route: Route, rt: Runtime, fp: string)
    requires n < |ops| && InStep(table, ops, n, route, rt, fp) && Keeps(ops[n], route.id, fp)
    ensures InStep(table, ops, n + 1, route, rt, fp)
  {
    var op, t := ops[n], TableAt(table, ops, n);
    var before := Plans(table, route, Asked(ops, n, route.id, rt));
    if PlansFor(op, route.id) {
      PlansOneMore(table, route, Asked(ops, n, route.id, rt), Request(rt, op.heads));
      SameTurn(t, op.route, op.rt, before.0, route, rt, op.heads, fp);
    } else {
      OtherOp(t, op, route.id);
      assert Asked(ops, n + 1, route.id, rt) == Asked(ops, n, route.id, rt);
    }
  }

  /**
   * Reloads that keep the fingerprint are invisible: amid any plans of other routes and any prunes that keep the
   * route, its requests get the same plans under changing snapshots as under one, for the same eligible heads.
   */
  lemma ReloadContinuity(table: Table, ops: seq<Op>, route: Route, rt: Runtime, fp: string)
    requires KeepsShape(table, route, rt, fp)
    requires forall i | 0 <= i < |ops| :: Keeps(ops[i], route.id, fp)
    ensures PlansOf(table, ops, |ops|, route.id) == Plans(table, route, Asked(ops, |ops|, route.id, rt)).1
  {
    for n := 0 to |ops|
      invariant InStep(table, ops, n, route, rt, fp)
    {
      InStepNext(table, ops, n, route, rt, fp);
    }
  }

  // ---- shares of leadership, as the scheduler hands them out ----

  /** The heads of a list of plans. */
  ghost predicate LedBy(plans: seq<seq<Id>>, leaders: seq<Id>) {
    |plans| == |leaders| && forall i | 0 <= i < |plans| :: plans[i] != [] && plans[i][0] == leaders[i]
  }

  ghost function Repeat(rt: Runtime, heads: seq<Id>, n: nat): (r: seq<Request>)
    ensures |r| == n && forall i | 0 <= i < n :: r[i] == Request(rt, heads)
  {
    seq(n, i requires 0 <= i < n => Request(rt, heads))
  }

  /** The stored state has this snapshot's fingerprint, so the rotation goes on from it. */
  ghost predicate Continues(table: Table, route: Route, rt: Runtime) {
    route.id in table && table[route.id].fingerprint == Fingerprint.Of(route, rt)
  }

  /** There is no stored state, or one of another shape that no newer snapshot left: the rotation starts over. */
  ghost predicate StartsOver(table: Table, route: Route, rt: Runtime) {
    route.id in table ==> table[route.id].fingerprint != Fingerprint.Of(route, rt)
                          && rt.generation >= table[route.id].generation
  }

  ghost function WeightsOf(table: Table, route: Route, rt: Runtime): Running {
    if Continues(table, route, rt) then table[route.id].cw else map[]
  }

  ghost function CursorOf(table: Table, route: Route, rt: Runtime): nat {
    if Continues(table, route, rt) then table[route.id].cursor else 0
  }

  lemma WeightedPlanStep(table: Table, rt: Runtime, route: Route, heads: seq<Id>)
    requires ValidHeads(heads, route) && route.strategy == Weighted && !Unservable(rt, route, heads)
    requires Continues(table, route, rt) || StartsOver(table, route, rt)
    ensures var cw := WeightsOf(table, route, rt);
            var (t, plan) := PlanStep(table, rt, route, heads);
            && plan != [] && plan[0] == Round(cw, Pool(rt, heads)).1
            && Continues(t, route, rt) && t[route.id].cw == Round(cw, Pool(rt, heads)).0
  {
    WeightedTurn(StateFor(table, route, rt).0, rt, route, heads);
  }

  lemma PlansSnoc(table: Table, route: Route, rt: Runtime, heads: seq<Id>, n: nat)
    requires n > 0
    ensures var before := Plans(table, route, Repeat(rt, heads, n - 1));
            var step := PlanStep(before.0, rt, route, heads);
            Plans(table, route, Repeat(rt, heads, n)) == (step.0, before.1 + [step.1])
  {
    assert Repeat(rt, heads, n)[..n - 1] == Repeat(rt, heads, n - 1);
  }

  /** The plans so far are led as the rounds so far, and the rotation stands where those rounds left it. */
  ghost predicate InRounds(table: Table, plans: seq<seq<Id>>, route: Route, rt: Runtime, cw: Running, led: seq<Id>) {
    && LedBy(plans, led)
    && (Continues(table, route, rt) || (plans == [] && StartsOver(table, route, rt)))
    && WeightsOf(table, route, rt) == cw
  }

  lemma InRoundsNext(table: Table, plans: seq<seq<Id>>, route: Route, rt: Runtime, heads: seq<Id>,
                     cw: Running, led: seq<Id>)
    requires ValidHeads(heads, route) && route.strategy == Weighted && !Unservable(rt, route, heads)
    requires InRounds(table, plans, route, rt, cw, led)
    ensures var (t, plan), (cw', best) := PlanStep(table, rt, route, heads), Round(cw, Pool(rt, heads));
            InRounds(t, plans + [plan], route, rt, cw', led + [best])
  {
    WeightedPlanStep(table, rt, route, heads);
    LedBySnoc(plans, led, PlanStep(table, rt, route, heads).1);
  }

  /** Once the rotation starts over, n weighted plans over unchanged heads are n rounds of the smooth algorithm. */
  lemma {:induction false} PlansAreRounds(table: Table, route: Route, rt: Runtime, heads: seq<Id>, n: nat)
    requires ValidHeads(heads, route) && route.strategy == Weighted
    requires !Unservable(rt, route, heads) && StartsOver(table, route, rt)
    ensures var r, rounds := Plans(table, route, Repeat(rt, heads, n)), Rounds(map[], Pool(rt, heads), n);
            InRounds(r.0, r.1, route, rt, rounds.0, rounds.1)
  {
    if n > 0 {
      PlansAreRounds(table, route, rt, heads, n - 1);
      PlansSnoc(table, route, rt, heads, n);
      var before, rounds := Plans(table, route, Repeat(rt, heads, n - 1)), Rounds(map[], Pool(rt, heads), n - 1);
      InRoundsNext(before.0, before.1, route, rt, heads, rounds.0, rounds.1);
    }
  }

  lemma LedBySnoc(plans: seq<seq<Id>>, leaders: seq<Id>, plan: seq<Id>)
    requires LedBy(plans, leaders) && plan != []
    ensures LedBy(plans + [plan], leaders + [plan[0]])
  {
  }

  /** The scheduler's own quota: leadership tracks weight, exactly at every whole cycle. */
  lemma WeightedShares(table: Table, route: Route, rt: Runtime, heads: seq<Id>, n: nat, id: Id)
    requires ValidHeads(heads, route) && route.strategy == Weighted
    requires !Unservable(rt, route, heads) && StartsOver(table, route, rt)
    requires id in heads
    ensures var total := Total(Pool(rt, heads));
            var plans := Plans(table, route, Repeat(rt, heads, n)).1;
            exists leaders :: LedBy(plans, leaders) &&
              var led := Led(leaders, id);
              && total * led < n * WeightOf(rt, id) + total
              && (forall cycles: nat | n == cycles * total :: led == cycles * WeightOf(rt, id))
              && (WeightOf(rt, id) == 0 ==> led == 0)
  {
    PlansAreRounds(table, route, rt, heads, n);
    PoolShares(rt, heads, n, id);
  }

  lemma PoolShares(rt: Runtime, heads: seq<Id>, n: nat, id: Id)
    requires Distinct(heads) && id in heads && Pool(rt, heads) != []
    ensures var total := Total(Pool(rt, heads));
            var led := Led(Rounds(map[], Pool(rt, heads), n).1, id);
            && total * led < n * WeightOf(rt, id) + total
            && (forall cycles: nat | n == cycles * total :: led == cycles * WeightOf(rt, id))
            && (WeightOf(rt, id) == 0 ==> led == 0)
  {
    PoolFacts(rt, heads);
    AnyShares(Pool(rt, heads), n, id, WeightOf(rt, id));
  }

  /** Shares of a pool member, or of an id the pool leaves out because its weight is 0. */
  lemma AnyShares(pool: seq<Candidate>, n: nat, id: Id, w: nat)
    requires ValidPool(pool)
    requires if w > 0 then Candidate(id, w) in pool else forall k | 0 <= k < |pool| :: pool[k].id != id
    ensures var led := Led(Rounds(map[], pool, n).1, id);
            && Total(pool) * led < n * w + Total(pool)
            && (forall cycles: nat | n == cycles * Total(pool) :: led == cycles * w)
            && (w == 0 ==> led == 0)
  {
    if w > 0 {
      var i :| 0 <= i < |pool| && pool[i] == Candidate(id, w);
      MemberShares(pool, n, i);
    } else {
      OutsiderShares(pool, n, id);
    }
  }

  lemma MemberShares(pool: seq<Candidate>, n: nat, i: nat)
    requires ValidPool(pool) && i < |pool|
    ensures var led := Led(Rounds(map[], pool, n).1, pool[i].id);
            && Total(pool) * led < n * pool[i].w + Total(pool)
            && (forall cycles: nat | n == cycles * Total(pool) :: led == cycles * pool[i].w)
  {
    LeadershipQuota(pool, n, i);
    forall cycles: nat | n == cycles * Total(pool)
      ensures Led(Rounds(map[], pool, n).1, pool[i].id) == cycles * pool[i].w
    {
      WholeCycles(pool, cycles, i);
    }
  }

  lemma OutsiderShares(pool: seq<Candidate>, n: nat, id: Id)
    requires ValidPool(pool) && forall k | 0 <= k < |pool| :: pool[k].id != id
    ensures Led(Rounds(map[], pool, n).1, id) == 0 && Total(pool) > 0
  {
    WeightPositive(pool, |pool|);
    OutsidersNeverLead(pool, n, id);
  }

  lemma {:induction false} OutsidersNeverLead(pool: seq<Candidate>, n: nat, id: Id)
    requires pool != [] && forall k | 0 <= k < |pool| :: pool[k].id != id
    ensures Led(Rounds(map[], pool, n).1, id) == 0
  {
    if n > 0 { OutsidersNeverLead(pool, n - 1, id); }
  }

  /** Under round robin, any |heads| consecutive plans over unchanged heads are led by each head exactly once. */
  lemma RoundRobinTurns(table: Table, route: Route, rt: Runtime, heads: seq<Id>)
    requires ValidRoute(route, rt) && ValidHeads(heads, route) && route.strategy != Weighted && heads != []
    requires Continues(table, route, rt) || StartsOver(table, route, rt)
    ensures var plans := Plans(table, route, Repeat(rt, heads, |heads|)).1;
            exists leaders :: LedBy(plans, leaders) && multiset(leaders) == multiset(heads)
  {
    var c := CursorOf(table, route, rt);
    RoundRobinLeaders(table, route, rt, heads, |heads|, c);
    var plans := Plans(table, route, Repeat(rt, heads, |heads|)).1;
    var leaders := Rotation(heads, c);
    assert LedBy(plans, leaders);
  }

  /** The heads from a cursor on, once around. */
  lemma Rotation(heads: seq<Id>, c: nat) returns (leaders: seq<Id>)
    requires heads != []
    ensures |leaders| == |heads| && multiset(leaders) == multiset(heads)
    ensures forall t | 0 <= t < |heads| :: leaders[t] == heads[(c + t) % |heads|]
  {
    var i := c % |heads|;
    leaders := heads[i..] + heads[..i];
    assert heads == heads[..i] + heads[i..];
    forall t | 0 <= t < |heads| ensures heads[(c + t) % |heads|] == leaders[t] {
      CursorWraps(c, t, |heads|);
    }
  }

  lemma CursorWraps(c: nat, t: nat, n: nat)
    requires t < n
    ensures (c + t) % n == if c % n + t < n then c % n + t else c % n + t - n
  {
    var q := c / n;
    assert c == q * n + c % n;
    if c % n + t < n {
      DivisionIsUnique(c + t, n, q, c % n + t);
    } else {
      DivisionIsUnique(c + t, n, q + 1, c % n + t - n);
    }
  }

  lemma DivisionIsUnique(x: nat, n: int, q: nat, r: nat)
    requires r < n && x == q * n + r
    ensures x % n == r
  {
    var d, r' := q - x / n, x % n;
    assert d * n == q * n - (x / n) * n;
    assert d * n == r' - r;
    assert d >= 1 ==> d * n >= n;
    assert d <= -1 ==> d * n <= -n;
  }

  /** After n plans from cursor c: who led, and where the rotation stands. */
  ghost predicate Rotated(table: Table, route: Route, rt: Runtime, heads: seq<Id>, plans: seq<seq<Id>>, c: nat)
    requires heads != []
  {
    && (forall i | 0 <= i < |plans| :: plans[i] != [] && plans[i][0] == heads[(c + i) % |heads|])
    && CursorOf(table, route, rt) == c + |plans|
    && (Continues(table, route, rt) || StartsOver(table, route, rt))
  }

  lemma RotatedNext(table: Table, route: Route, rt: Runtime, heads: seq<Id>, plans: seq<seq<Id>>, c: nat)
    requires route.strategy != Weighted && heads != [] && Rotated(table, route, rt, heads, plans, c)
    ensures var step := PlanStep(table, rt, route, heads);
            Rotated(step.0, route, rt, heads, plans + [step.1], c)
  {
    RoundRobinStep(table, route, rt, heads);
  }

  lemma {:induction false} RoundRobinLeaders(table: Table, route: Route, rt: Runtime, heads: seq<Id>, n: nat, c: nat)
    requires route.strategy != Weighted && heads != []
    requires Continues(table, route, rt) || StartsOver(table, route, rt)
    requires c == CursorOf(table, route, rt)
    ensures var r := Plans(table, route, Repeat(rt, heads, n));
            |r.1| == n && Rotated(r.0, route, rt, heads, r.1, c)
  {
    if n > 0 {
      RoundRobinLeaders(table, route, rt, heads, n - 1, c);
      var before := Plans(table, route, Repeat(rt, heads, n - 1));
      PlansSnoc(table, route, rt, heads, n);
      RotatedNext(before.0, route, rt, heads, before.1, c);
    }
  }

  lemma RoundRobinStep(table: Table, route: Route, rt: Runtime, heads: seq<Id>)
    requires route.strategy != Weighted && heads != []
    requires Continues(table, route, rt) || StartsOver(table, route, rt)
    ensures var c := CursorOf(table, route, rt);
            var (t, plan) := PlanStep(table, rt, route, heads);
            && plan != [] && plan[0] == heads[c % |heads|]
            && Continues(t, route, rt) && t[route.id].cursor == c + 1
  {
  }
}
