/** Smooth weighted round robin over a pool of positive-weight candidates. */
module SmoothWeights {
  import opened Config

  datatype Candidate = Candidate(id: Id, w: nat)

  type Running = map<Id, int>

  function Get(cw: Running, id: Id): int {
    if id in cw then cw[id] else 0
  }

  function Bump(cw: Running, id: Id, d: int): Running {
    cw[id := Get(cw, id) + d]
  }

  /** Candidates are distinct and every one has a positive weight. */
  predicate ValidPool(pool: seq<Candidate>) {
    && pool != []
    && (forall i, j | 0 <= i < j < |pool| :: pool[i].id != pool[j].id)
    && (forall i | 0 <= i < |pool| :: pool[i].w > 0)
  }

  /** Sum of the first n weights. */
  function Weight(pool: seq<Candidate>, n: nat): (t: int)
    requires n <= |pool|
    ensures t >= 0
  {
    if n == 0 then 0 else Weight(pool, n - 1) + pool[n - 1].w
  }

  function Total(pool: seq<Candidate>): int { Weight(pool, |pool|) }

  /** The first n candidates' running weights each grow by their own weight. */
  function RaiseUpTo(cw: Running, pool: seq<Candidate>, n: nat): Running
    requires n <= |pool|
  {
    if n == 0 then cw else Bump(RaiseUpTo(cw, pool, n - 1), pool[n - 1].id, pool[n - 1].w)
  }

  function Raise(cw: Running, pool: seq<Candidate>): Running { RaiseUpTo(cw, pool, |pool|) }

  ghost predicate FirstMax(cw: Running, pool: seq<Candidate>, n: nat, b: nat)
    requires n <= |pool|
  {
    && b < n
    && (forall k | 0 <= k < n :: Get(cw, pool[k].id) <= Get(cw, pool[b].id))
    && (forall k | 0 <= k < b :: Get(cw, pool[k].id) < Get(cw, pool[b].id))
  }

  /** Among the first n candidates, the earliest with the largest running weight. */
  function Best(cw: Running, pool: seq<Candidate>, n: nat): (b: nat)
    requires 0 < n <= |pool|
    ensures FirstMax(cw, pool, n, b)
  {
    if n == 1 then 0
    else
      var b := Best(cw, pool, n - 1);
      if Get(cw, pool[n - 1].id) > Get(cw, pool[b].id) then n - 1 else b
  }

  /** One scheduling round: raise everyone, charge the whole pool to the winner. */
  function Round(cw: Running, pool: seq<Candidate>): (Running, Id)
    requires pool != []
  {
    var raised := Raise(cw, pool);
    var best := pool[Best(raised, pool, |pool|)].id;
    (Bump(raised, best, -Total(pool)), best)
  }

  /** After i candidates: the first i are raised and `best` is the leader among them. */
  ghost predicate Leading(cw0: Running, cw: Running, pool: seq<Candidate>, i: nat, best: Id, bestCW: int)
    requires i <= |pool|
  {
    && cw == RaiseUpTo(cw0, pool, i)
    && (i > 0 ==> best == pool[Best(cw, pool, i)].id && bestCW == Get(cw, best))
  }

  /** The selection loop, accumulating total and maximum while it raises. */
  method RunRound(cw0: Running, pool: seq<Candidate>) returns (cw: Running, best: Id)
    requires ValidPool(pool)
    ensures cw == Round(cw0, pool).0 && best == Round(cw0, pool).1
  {
    cw := cw0;
    var total := 0;
    best := pool[0].id;
    var bestCW := 0;
    for i := 0 to |pool|
      invariant total == Weight(pool, i)
      invariant Leading(cw0, cw, pool, i, best, bestCW)
    {
      var c := pool[i];
      LeadingStep(cw0, cw, pool, i, best, bestCW);
      total := total + c.w;
      cw := Bump(cw, c.id, c.w);
      if i == 0 || Get(cw, c.id) > bestCW {
        best := c.id;
        bestCW := Get(cw, c.id);
      }
    }
    cw := Bump(cw, best, -total);
  }

  lemma LeadingStep(cw0: Running, cw: Running, pool: seq<Candidate>, i: nat, best: Id, bestCW: int)
    requires ValidPool(pool) && i < |pool| && Leading(cw0, cw, pool, i, best, bestCW)
    ensures var next, c := Bump(cw, pool[i].id, pool[i].w), pool[i];
            if i == 0 || Get(next, c.id) > bestCW then Leading(cw0, next, pool, i + 1, c.id, Get(next, c.id))
            else Leading(cw0, next, pool, i + 1, best, bestCW)
  {
    BestStep(cw0, cw, pool, i);
  }

  lemma BestStep(cw0: Running, cw: Running, pool: seq<Candidate>, i: nat)
    requires ValidPool(pool) && i < |pool| && cw == RaiseUpTo(cw0, pool, i)
    ensures var next := RaiseUpTo(cw0, pool, i + 1);
            && next == Bump(cw, pool[i].id, pool[i].w)
            && (i == 0 ==> Best(next, pool, 1) == 0)
            && (i > 0 ==> var b := Best(cw, pool, i);
                          && Get(next, pool[b].id) == Get(cw, pool[b].id)
                          && Best(next, pool, i + 1) == if Get(next, pool[i].id) > Get(cw, pool[b].id) then i else b)
  {
    if i > 0 {
      BestAgrees(cw, Bump(cw, pool[i].id, pool[i].w), pool, i);
    }
  }

  lemma {:induction false} BestAgrees(a: Running, b: Running, pool: seq<Candidate>, n: nat)
    requires 0 < n <= |pool|
    requires forall k | 0 <= k < n :: Get(a, pool[k].id) == Get(b, pool[k].id)
    ensures Best(a, pool, n) == Best(b, pool, n)
  {
    if n > 1 {
      BestAgrees(a, b, pool, n - 1);
    }
  }

  // ---- sums over a list of ids ----

  function SumUpTo(cw: Running, ids: seq<Id>, n: nat): int
    requires n <= |ids|
  {
    if n == 0 then 0 else SumUpTo(cw, ids, n - 1) + Get(cw, ids[n - 1])
  }

  function Sum(cw: Running, ids: seq<Id>): int { SumUpTo(cw, ids, |ids|) }

  lemma {:induction false} BumpSum(cw: Running, ids: seq<Id>, n: nat, id: Id, d: int)
    requires Distinct(ids) && n <= |ids|
    ensures SumUpTo(Bump(cw, id, d), ids, n) == SumUpTo(cw, ids, n) + (if id in ids[..n] then d else 0)
  {
    if n > 0 {
      assert ids[..n] == ids[..n - 1] + [ids[n - 1]];
      BumpSum(cw, ids, n - 1, id, d);
    }
  }

  lemma {:induction false} RaiseSum(cw: Running, pool: seq<Candidate>, n: nat, ids: seq<Id>)
    requires Distinct(ids) && n <= |pool|
    requires forall k | 0 <= k < |pool| :: pool[k].id in ids
    ensures Sum(RaiseUpTo(cw, pool, n), ids) == Sum(cw, ids) + Weight(pool, n)
  {
    if n > 0 {
      RaiseSum(cw, pool, n - 1, ids);
      assert ids[..|ids|] == ids;
      BumpSum(RaiseUpTo(cw, pool, n - 1), ids, |ids|, pool[n - 1].id, pool[n - 1].w);
    }
  }

  /** Raising adds exactly its own weight to each candidate and touches nobody else. */
  lemma {:induction false} RaiseAt(cw: Running, pool: seq<Candidate>, n: nat, i: nat)
    requires ValidPool(pool) && n <= |pool| && i < |pool|
    ensures Get(RaiseUpTo(cw, pool, n), pool[i].id) == Get(cw, pool[i].id) + if i < n then pool[i].w else 0
  {
    if n > 0 {
      RaiseAt(cw, pool, n - 1, i);
      assert n - 1 != i ==> pool[n - 1].id != pool[i].id;
    }
  }

  lemma {:induction false} RaiseKeys(cw: Running, pool: seq<Candidate>, n: nat, keys: set<Id>)
    requires n <= |pool| && cw.Keys <= keys
    requires forall k | 0 <= k < |pool| :: pool[k].id in keys
    ensures RaiseUpTo(cw, pool, n).Keys <= keys
  {
    if n > 0 {
      RaiseKeys(cw, pool, n - 1, keys);
    }
  }

  /** A round over members of `ids` conserves the sum and only ever writes candidates. */
  lemma RoundConserves(cw: Running, pool: seq<Candidate>, ids: seq<Id>, keys: set<Id>)
    requires pool != [] && Distinct(ids) && cw.Keys <= keys
    requires forall k | 0 <= k < |pool| :: pool[k].id in ids && pool[k].id in keys
    ensures Sum(Round(cw, pool).0, ids) == Sum(cw, ids)
    ensures Round(cw, pool).0.Keys <= keys
  {
    RaiseSum(cw, pool, |pool|, ids);
    RaiseKeys(cw, pool, |pool|, keys);
    var raised := Raise(cw, pool);
    assert ids[..|ids|] == ids;
    BumpSum(raised, ids, |ids|, pool[Best(raised, pool, |pool|)].id, -Total(pool));
  }

  // ---- the quota theorem ----

  ghost function Ids(pool: seq<Candidate>): (ids: seq<Id>)
    ensures |ids| == |pool| && forall k | 0 <= k < |pool| :: ids[k] == pool[k].id
  {
    seq(|pool|, k requires 0 <= k < |pool| => pool[k].id)
  }

  /** n rounds over one unchanged pool: final running weights and the leaders in order. */
  ghost function Rounds(cw: Running, pool: seq<Candidate>, n: nat): (Running, seq<Id>)
    requires pool != []
  {
    if n == 0 then (cw, [])
    else
      var (prev, leaders) := Rounds(cw, pool, n - 1);
      var (next, best) := Round(prev, pool);
      (next, leaders + [best])
  }

  ghost function Led(leaders: seq<Id>, id: Id): nat { multiset(leaders)[id] }

  lemma {:induction false} SomePositive(cw: Running, ids: seq<Id>, n: nat) returns (k: nat)
    requires n <= |ids| && SumUpTo(cw, ids, n) > 0
    ensures k < n && Get(cw, ids[k]) > 0
  {
    k := n - 1;
    if Get(cw, ids[k]) <= 0 {
      k := SomePositive(cw, ids, n - 1);
    }
  }

  lemma {:induction false} WeightPositive(pool: seq<Candidate>, n: nat)
    requires ValidPool(pool) && 0 < n <= |pool|
    ensures Weight(pool, n) > 0
  {
    if n > 1 {
      WeightPositive(pool, n - 1);
    }
  }

  /** The winner's raised weight is positive, so nobody is ever charged down to -W. */
  lemma WinnerIsPositive(cw: Running, pool: seq<Candidate>)
    requires ValidPool(pool) && Sum(cw, Ids(pool)) == 0
    ensures var raised := Raise(cw, pool); Get(raised, pool[Best(raised, pool, |pool|)].id) > 0
  {
    var raised, ids := Raise(cw, pool), Ids(pool);
    assert forall k | 0 <= k < |pool| :: pool[k].id == ids[k] && ids[k] in ids;
    RaiseSum(cw, pool, |pool|, ids);
    WeightPositive(pool, |pool|);
    var k := SomePositive(raised, ids, |ids|);
    assert Get(raised, pool[k].id) > 0;
  }

  ghost predicate Ledger(cw: Running, leaders: seq<Id>, pool: seq<Candidate>, n: nat, i: nat)
    requires i < |pool|
  {
    && |leaders| == n
    && Get(cw, pool[i].id) == n * pool[i].w - Total(pool) * Led(leaders, pool[i].id)
    && Get(cw, pool[i].id) > -Total(pool)
  }

  lemma LedgerStep(cw: Running, leaders: seq<Id>, pool: seq<Candidate>, n: nat, i: nat)
    requires ValidPool(pool) && i < |pool| && Sum(cw, Ids(pool)) == 0
    requires Ledger(cw, leaders, pool, n, i)
    ensures var (next, best) := Round(cw, pool); Ledger(next, leaders + [best], pool, n + 1, i)
  {
    WinnerIsPositive(cw, pool);
    RaiseAt(cw, pool, |pool|, i);
    var raised := Raise(cw, pool);
    var b := Best(raised, pool, |pool|);
    assert b != i ==> pool[b].id != pool[i].id;
    var (next, best) := Round(cw, pool);
    assert Get(next, pool[i].id) == Get(cw, pool[i].id) + pool[i].w - (if b == i then Total(pool) else 0);
    assert Led(leaders + [best], pool[i].id) == Led(leaders, pool[i].id) + if b == i then 1 else 0;
    Charge(n, pool[i].w, Total(pool), Led(leaders, pool[i].id));
  }

  lemma Charge(n: nat, w: int, total: int, led: nat)
    ensures n * w - total * led + w == (n + 1) * w - total * led
    ensures n * w - total * led + w - total == (n + 1) * w - total * (led + 1)
  {
  }

  /** The running weight is exactly the entitlement not yet served, and never falls to -W. */
  lemma {:induction false} RoundsInvariant(pool: seq<Candidate>, n: nat, i: nat)
    requires ValidPool(pool) && i < |pool|
    ensures var (cw, leaders) := Rounds(map[], pool, n);
            Sum(cw, Ids(pool)) == 0 && Ledger(cw, leaders, pool, n, i)
  {
    var ids := Ids(pool);
    if n == 0 {
      EmptySum(ids, |ids|);
      WeightPositive(pool, |pool|);
    } else {
      RoundsInvariant(pool, n - 1, i);
      var (prev, leaders) := Rounds(map[], pool, n - 1);
      assert forall k | 0 <= k < |pool| :: pool[k].id == ids[k] && ids[k] in ids;
      RoundConserves(prev, pool, ids, prev.Keys + set k | 0 <= k < |pool| :: pool[k].id);
      LedgerStep(prev, leaders, pool, n - 1, i);
    }
  }

  lemma {:induction false} EmptySum(ids: seq<Id>, n: nat)
    requires n <= |ids|
    ensures SumUpTo(map[], ids, n) == 0
  {
    if n > 0 { EmptySum(ids, n - 1); }
  }

  /**
   * Quota: after any n rounds a candidate has led fewer than n*w/W + 1 times, and at least
   * n*w/W - (m - 1) times in a pool of m.
   */
  lemma LeadershipQuota(pool: seq<Candidate>, n: nat, i: nat)
    requires ValidPool(pool) && i < |pool|
    ensures var led := Led(Rounds(map[], pool, n).1, pool[i].id);
            && Total(pool) * led < n * pool[i].w + Total(pool)
            && Total(pool) * led >= n * pool[i].w - (|pool| - 1) * Total(pool)
  {
    RoundsInvariant(pool, n, i);
    var cw, ids := Rounds(map[], pool, n).0, Ids(pool);
    forall k | 0 <= k < |ids| ensures Get(cw, ids[k]) > -Total(pool) {
      RoundsInvariant(pool, n, k);
    }
    WeightPositive(pool, |pool|);
    OthersCompensate(cw, ids, |ids|, i, Total(pool));
  }

  lemma {:induction false} OthersCompensate(cw: Running, ids: seq<Id>, n: nat, i: nat, bound: int)
    requires i < n <= |ids| && bound >= 0
    requires forall k | 0 <= k < |ids| :: Get(cw, ids[k]) > -bound
    ensures SumUpTo(cw, ids, n) >= Get(cw, ids[i]) - (n - 1) * bound
  {
    if i < n - 1 {
      OthersCompensate(cw, ids, n - 1, i, bound);
    } else {
      AllAbove(cw, ids, n - 1, bound);
    }
  }

  lemma {:induction false} AllAbove(cw: Running, ids: seq<Id>, n: nat, bound: int)
    requires n <= |ids| && bound >= 0
    requires forall k | 0 <= k < |ids| :: Get(cw, ids[k]) > -bound
    ensures SumUpTo(cw, ids, n) >= -(n * bound)
  {
    if n > 0 { AllAbove(cw, ids, n - 1, bound); }
  }

  /** After every whole cycle each candidate has led exactly its share and all weights are zero. */
  lemma WholeCycles(pool: seq<Candidate>, cycles: nat, i: nat)
    requires ValidPool(pool) && i < |pool|
    ensures cycles * Total(pool) >= 0
    ensures var (cw, leaders) := Rounds(map[], pool, cycles * Total(pool));
            Led(leaders, pool[i].id) == cycles * pool[i].w && Get(cw, pool[i].id) == 0
  {
    var total, ids := Total(pool), Ids(pool);
    WeightPositive(pool, |pool|);
    Scale(total, cycles);
    var n: nat := cycles * total;
    var (cw, leaders) := Rounds(map[], pool, n);
    forall k | 0 <= k < |ids| ensures Get(cw, ids[k]) >= 0 {
      RoundsInvariant(pool, n, k);
      Multiple(cycles, pool[k].w, total, Led(leaders, ids[k]), Get(cw, ids[k]));
    }
    RoundsInvariant(pool, n, i);
    NoneNegative(cw, ids, |ids|, i);
    Multiple(cycles, pool[i].w, total, Led(leaders, pool[i].id), Get(cw, pool[i].id));
  }

  /** A multiple of W above -W is non-negative. */
  lemma Multiple(cycles: nat, w: int, total: int, led: nat, cw: int)
    requires total > 0 && cw > -total && cw == (cycles * total) * w - total * led
    ensures cw >= 0 && (cw == 0 ==> led == cycles * w)
  {
    assert cw == total * (cycles * w - led) by {
      assert (cycles * total) * w == total * (cycles * w);
    }
    Scale(total, cycles * w - led);
  }

  lemma Scale(total: int, q: int)
    requires total > 0
    ensures q < 0 ==> total * q <= -total
    ensures q >= 0 ==> total * q >= 0
    ensures q > 0 ==> total * q >= total
  {
  }

  lemma {:induction false} NoneNegative(cw: Running, ids: seq<Id>, n: nat, i: nat)
    requires i < n <= |ids|
    requires forall k | 0 <= k < |ids| :: Get(cw, ids[k]) >= 0
    requires SumUpTo(cw, ids, n) <= 0
    ensures Get(cw, ids[i]) == 0
  {
    NonNegativeSum(cw, ids, n - 1);
    if i < n - 1 {
      NoneNegative(cw, ids, n - 1, i);
    }
  }

  lemma {:induction false} NonNegativeSum(cw: Running, ids: seq<Id>, n: nat)
    requires n <= |ids|
    requires forall k | 0 <= k < |ids| :: Get(cw, ids[k]) >= 0
    ensures SumUpTo(cw, ids, n) >= 0
  {
    if n > 0 { NonNegativeSum(cw, ids, n - 1); }
  }
}
