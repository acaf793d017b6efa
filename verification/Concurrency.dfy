/** Concurrency slots under every interleaving of many requests' steps. */
module Concurrency {
  import opened Config
  import opened Provenance
  import opened Client
  import opened Limiter
  import opened Executor

  /** All live requests over one shared limiter; a winning body is closed, then its slot freed once. */
  datatype Sys = Sys(cur: Slots, reqs: map<nat, Exec>, closed: set<nat>, freed: set<nat>)

  const Idle := Sys(map[], map[], {}, {})

  datatype Act =
    | Arrive(r: nat, plan: seq<Entry>, policy: Policy)
    | TakeOffer(r: nat, builds: bool)
    | TakeVerdict(r: nat, world: World, result: CallResult)
    | CloseBody(r: nat)
    | FreeSlot(r: nat)

  predicate IsLive(x: Exec) { x.pc.Done? && x.pc.result.live && x.pc.result.id.Some? }

  predicate Enabled(s: Sys, a: Act) {
    match a
    case Arrive(r, _, _) => r !in s.reqs
    case TakeOffer(r, _) => r in s.reqs && s.reqs[r].pc.Ready? && s.reqs[r].next <= |s.reqs[r].plan|
    case TakeVerdict(r, _, _) => r in s.reqs && s.reqs[r].pc.Dialing?
    case CloseBody(r) => r in s.reqs && IsLive(s.reqs[r])
    case FreeSlot(r) => r in s.reqs && IsLive(s.reqs[r]) && r in s.closed && r !in s.freed
  }

  function Next(s: Sys, a: Act): Sys
    requires Enabled(s, a)
  {
    match a
    case Arrive(r, plan, policy) => s.(reqs := s.reqs[r := Begun(plan, policy)])
    case TakeOffer(r, builds) =>
      var (y, cur) := Offer(s.reqs[r], builds, s.cur);
      s.(reqs := s.reqs[r := y], cur := cur)
    case TakeVerdict(r, w, res) =>
      var (y, cur) := Settle(s.reqs[r], w, res, s.cur);
      s.(reqs := s.reqs[r := y], cur := cur)
    case CloseBody(r) => s.(closed := s.closed + {r})
    case FreeSlot(r) => s.(freed := s.freed + {r}, cur := Released(s.cur, s.reqs[r].pc.result.id.value))
  }

  /** A request holds a slot of an egress while dialing it, and while its response's slot is not freed. */
  predicate Holds(x: Exec, freed: bool, id: Id) {
    || x.pc == Dialing(id)
    || (IsLive(x) && x.pc.result.id == Some(id) && !freed)
  }

  function Holders(s: Sys, id: Id): set<nat> {
    set r | r in s.reqs && Holds(s.reqs[r], r in s.freed, id)
  }

  /** Requests with a connection of the egress still open. */
  function Connected(s: Sys, id: Id): set<nat> {
    set r | r in s.reqs && (s.reqs[r].pc == Dialing(id)
                            || (IsLive(s.reqs[r]) && s.reqs[r].pc.result.id == Some(id) && r !in s.closed))
  }

  /** Holders that were counted: those whose own policy caps the egress. */
  function Counted(s: Sys, id: Id): set<nat> {
    set r | r in s.reqs && Holds(s.reqs[r], r in s.freed, id) && Cap(s.reqs[r].policy, id) > 0
  }

  /** Closing precedes freeing, and only live responses have bodies. */
  ghost predicate Sane(s: Sys) {
    s.freed <= s.closed && forall r | r in s.closed :: r in s.reqs && IsLive(s.reqs[r])
  }

  ghost predicate Accounted(s: Sys, id: Id) { InUse(s.cur, id) == |Counted(s, id)| }

  ghost predicate AllAccounted(s: Sys) { forall id :: Accounted(s, id) }

  // ---- what one request's step does to its own hold and to the counter ----

  lemma OfferEffect(x: Exec, builds: bool, cur: Slots)
    requires x.pc.Ready? && x.next <= |x.plan|
    ensures var (y, c) := Offer(x, builds, cur);
            && y.policy == x.policy && !IsLive(y)
            && if y.pc.Dialing? then (c, true) == TryAcquire(cur, y.pc.id, Cap(x.policy, y.pc.id)) else c == cur
  {
  }

  lemma SettleEffect(x: Exec, w: World, res: CallResult, cur: Slots)
    requires x.pc.Dialing?
    ensures var (y, c) := Settle(x, w, res, cur);
            && y.policy == x.policy && !y.pc.Dialing?
            && (IsLive(y) <==> res.Live?)
            && (IsLive(y) ==> y.pc.result.id == Some(x.pc.id) && c == cur)
            && (!IsLive(y) ==> c == Released(cur, x.pc.id))
  {
  }

  lemma OneMoves(a: set<nat>, b: set<nat>, r: nat)
    requires forall q | q != r :: q in a <==> q in b
    ensures |b| == |a| + (if r in b then 1 else 0) - (if r in a then 1 else 0)
  {
    assert a - {r} == b - {r};
    assert |a - {r}| == |a| - if r in a then 1 else 0;
    assert |b - {r}| == |b| - if r in b then 1 else 0;
  }

  /** Changing one request changes an egress's counted holders by at most that request. */
  lemma CountedMove(s: Sys, t: Sys, r: nat, id: Id)
    requires t.reqs.Keys == s.reqs.Keys + {r}
    requires forall q | q in s.reqs && q != r :: t.reqs[q] == s.reqs[q]
    requires forall q | q != r :: q in t.freed <==> q in s.freed
    ensures |Counted(t, id)| ==
            |Counted(s, id)| + (if r in Counted(t, id) then 1 else 0) - (if r in Counted(s, id) then 1 else 0)
  {
    OneMoves(Counted(s, id), Counted(t, id), r);
  }

  // ---- which steps keep the accounting ----

  /** The egress whose slot a step frees. */
  function Frees(s: Sys, a: Act): Option<Id>
    requires Enabled(s, a)
  {
    match a
    case TakeVerdict(r, _, res) => if res.Failed? then Some(s.reqs[r].pc.id) else None
    case FreeSlot(r) => s.reqs[r].pc.result.id
    case _ => None
  }

  /** A request that was never counted gives back somebody else's slot. */
  predicate Miscounts(s: Sys, a: Act)
    requires Enabled(s, a)
  {
    var id := Frees(s, a);
    id.Some? && Cap(s.reqs[a.r].policy, id.value) == 0 && InUse(s.cur, id.value) > 0
  }

  lemma StepIsSane(s: Sys, a: Act)
    requires Sane(s) && Enabled(s, a)
    ensures Sane(Next(s, a))
  {
    if a.TakeOffer? {
      OfferEffect(s.reqs[a.r], a.builds, s.cur);
    } else if a.TakeVerdict? {
      SettleEffect(s.reqs[a.r], a.world, a.result, s.cur);
    }
  }

  lemma OfferAccounts(s: Sys, r: nat, builds: bool, id: Id)
    requires Sane(s) && Accounted(s, id) && Enabled(s, TakeOffer(r, builds))
    ensures Accounted(Next(s, TakeOffer(r, builds)), id)
  {
    CountedMove(s, Next(s, TakeOffer(r, builds)), r, id);
    OfferEffect(s.reqs[r], builds, s.cur);
  }

  /** A freed slot: the count stays right for every egress exactly if the holder was counted or nobody is. */
  lemma FreedAccounts(s: Sys, t: Sys, r: nat, id: Id, x: Id)
    requires r in s.reqs && Holds(s.reqs[r], r in s.freed, id) && Accounted(s, x)
    requires t.reqs.Keys == s.reqs.Keys && t.reqs[r].policy == s.reqs[r].policy
    requires forall q | q in s.reqs && q != r :: t.reqs[q] == s.reqs[q]
    requires forall q | q != r :: q in t.freed <==> q in s.freed
    requires forall y :: !Holds(t.reqs[r], r in t.freed, y)
    requires forall y | y != id :: !Holds(s.reqs[r], r in s.freed, y)
    requires t.cur == Released(s.cur, id)
    ensures Accounted(t, x) <==> x != id || Cap(s.reqs[r].policy, id) > 0 || InUse(s.cur, id) == 0
  {
    assert t.reqs.Keys == s.reqs.Keys + {r};
    CountedMove(s, t, r, x);
    assert r !in Counted(t, x);
    assert r in Counted(s, x) <==> x == id && Cap(s.reqs[r].policy, id) > 0;
    if r in Counted(s, x) {
      assert Counted(s, x) != {};
    }
  }

  lemma VerdictAccounts(s: Sys, a: Act, x: Id)
    requires Sane(s) && Accounted(s, x) && a.TakeVerdict? && Enabled(s, a)
    ensures Accounted(Next(s, a), x) <==> !(Miscounts(s, a) && Frees(s, a) == Some(x))
  {
    var r, t := a.r, Next(s, a);
    SettleEffect(s.reqs[r], a.world, a.result, s.cur);
    if a.result.Failed? {
      FreedAccounts(s, t, r, s.reqs[r].pc.id, x);
    } else {
      CountedMove(s, t, r, x);
    }
  }

  lemma FreeAccounts(s: Sys, r: nat, x: Id)
    requires Sane(s) && Accounted(s, x) && Enabled(s, FreeSlot(r))
    ensures Accounted(Next(s, FreeSlot(r)), x) <==> !(Miscounts(s, FreeSlot(r)) && Frees(s, FreeSlot(r)) == Some(x))
  {
    FreedAccounts(s, Next(s, FreeSlot(r)), r, s.reqs[r].pc.result.id.value, x);
  }

  lemma StepAccounts(s: Sys, a: Act, x: Id)
    requires Sane(s) && Accounted(s, x) && Enabled(s, a)
    ensures Accounted(Next(s, a), x) <==> !(Miscounts(s, a) && Frees(s, a) == Some(x))
  {
    match a
    case Arrive(r, _, _) => CountedMove(s, Next(s, a), r, x);
    case TakeOffer(r, builds) => OfferAccounts(s, r, builds, x);
    case TakeVerdict(_, _, _) => VerdictAccounts(s, a, x);
    case CloseBody(_) => assert Counted(Next(s, a), x) == Counted(s, x);
    case FreeSlot(r) => FreeAccounts(s, r, x);
  }

  /**
   * From an accounted state, a step keeps every counter equal to its counted holders exactly if it is not a release
   * by an uncounted holder of an egress that has a positive count.
   */
  lemma StepAccountsIff(s: Sys, a: Act)
    requires Sane(s) && AllAccounted(s) && Enabled(s, a)
    ensures AllAccounted(Next(s, a)) <==> !Miscounts(s, a)
  {
    forall x ensures Accounted(Next(s, a), x) <==> !(Miscounts(s, a) && Frees(s, a) == Some(x)) {
      assert Accounted(s, x);
      StepAccounts(s, a, x);
    }
  }

  /** Every run of enabled steps. */
  ghost predicate IsRun(acts: seq<Act>, states: seq<Sys>) {
    && |states| == |acts| + 1 && states[0] == Idle
    && forall i | 0 <= i < |acts| :: Enabled(states[i], acts[i]) && states[i + 1] == Next(states[i], acts[i])
  }

  lemma {:induction false} RunIsSane(acts: seq<Act>, states: seq<Sys>, n: nat)
    requires IsRun(acts, states) && n <= |acts|
    ensures Sane(states[n])
    decreases n
  {
    if n > 0 {
      RunIsSane(acts, states, n - 1);
      StepIsSane(states[n - 1], acts[n - 1]);
    }
  }

  /** A run is accounted all along exactly if none of its steps gives back somebody else's slot. */
  lemma {:induction false} RunAccountedIff(acts: seq<Act>, states: seq<Sys>, n: nat)
    requires IsRun(acts, states) && n <= |acts|
    ensures (forall i | 0 <= i <= n :: AllAccounted(states[i])) <==>
            (forall i | 0 <= i < n :: !Miscounts(states[i], acts[i]))
    decreases n
  {
    if n == 0 {
      assert forall id :: Counted(Idle, id) == {};
    } else {
      RunAccountedIff(acts, states, n - 1);
      RunIsSane(acts, states, n - 1);
      var sofar := forall i | 0 <= i <= n - 1 :: AllAccounted(states[i]);
      if sofar {
        StepAccountsIff(states[n - 1], acts[n - 1]);
        assert states[n] == Next(states[n - 1], acts[n - 1]);
      }
      assert (forall i | 0 <= i <= n :: AllAccounted(states[i])) <==> sofar && AllAccounted(states[n]);
      assert (forall i | 0 <= i < n :: !Miscounts(states[i], acts[i])) <==>
             (forall i | 0 <= i < n - 1 :: !Miscounts(states[i], acts[i])) && !Miscounts(states[n - 1], acts[n - 1]);
    }
  }

  // ---- caps whose sign does not change ----

  /** Which egresses are capped does not change, and no cap exceeds `limit`. */
  predicate Fits(p: Policy, capped: set<Id>, limit: map<Id, nat>) {
    && (forall id | id in p.caps :: p.caps[id] > 0 <==> id in capped)
    && (forall id | id in capped :: id in p.caps && id in limit && p.caps[id] <= limit[id])
  }

  predicate ActFits(a: Act, capped: set<Id>, limit: map<Id, nat>) {
    a.Arrive? ==> Fits(a.policy, capped, limit)
  }

  ghost predicate Bounded(s: Sys, capped: set<Id>, limit: map<Id, nat>) {
    && (forall id | id in capped && id in limit :: InUse(s.cur, id) <= limit[id])
    && (forall r | r in s.reqs :: Fits(s.reqs[r].policy, capped, limit))
  }

  /** All of conservation: exact counts of all holders, below the cap, and nothing counted for uncapped egresses. */
  ghost predicate Conserved(s: Sys, capped: set<Id>, limit: map<Id, nat>) {
    && Sane(s) && AllAccounted(s) && Bounded(s, capped, limit)
  }

  lemma StepBounds(s: Sys, a: Act, capped: set<Id>, limit: map<Id, nat>)
    requires Bounded(s, capped, limit) && Enabled(s, a) && ActFits(a, capped, limit)
    ensures Bounded(Next(s, a), capped, limit)
  {
    if a.TakeOffer? {
      OfferEffect(s.reqs[a.r], a.builds, s.cur);
    } else if a.TakeVerdict? {
      SettleEffect(s.reqs[a.r], a.world, a.result, s.cur);
    }
  }

  /** With a fixed sign all holders of a capped egress are counted, and none of an uncapped one. */
  lemma CountedIs(s: Sys, capped: set<Id>, limit: map<Id, nat>, id: Id)
    requires Bounded(s, capped, limit)
    ensures Counted(s, id) == if id in capped then Holders(s, id) else {}
  {
  }

  lemma StepConserves(s: Sys, a: Act, capped: set<Id>, limit: map<Id, nat>)
    requires Conserved(s, capped, limit) && Enabled(s, a) && ActFits(a, capped, limit)
    ensures !Miscounts(s, a) && Conserved(Next(s, a), capped, limit)
  {
    StepIsSane(s, a);
    StepBounds(s, a, capped, limit);
    var id := Frees(s, a);
    if id.Some? && Cap(s.reqs[a.r].policy, id.value) == 0 {
      CountedIs(s, capped, limit, id.value);
      assert Accounted(s, id.value);
    }
    StepAccountsIff(s, a);
  }

  /**
   * Slot conservation: in every reachable state the counter of a capped egress is exactly the number of
   * requests holding one of its slots, it never exceeds the largest cap in force, and it bounds the open
   * connections; uncapped egresses are never counted.
   */
  lemma {:induction false} SlotsAreConserved(
    acts: seq<Act>, states: seq<Sys>, capped: set<Id>, limit: map<Id, nat>, n: nat)
    requires IsRun(acts, states) && n <= |acts|
    requires forall i | 0 <= i < |acts| :: ActFits(acts[i], capped, limit)
    ensures Conserved(states[n], capped, limit)
    ensures forall id | id in capped ::
              |Connected(states[n], id)| <= InUse(states[n].cur, id) == |Holders(states[n], id)|
    ensures forall id | id !in capped :: InUse(states[n].cur, id) == 0
    decreases n
  {
    if n == 0 {
      assert forall id :: Counted(Idle, id) == {};
    } else {
      SlotsAreConserved(acts, states, capped, limit, n - 1);
      StepConserves(states[n - 1], acts[n - 1], capped, limit);
    }
    forall id
      ensures id in capped ==> |Connected(states[n], id)| <= InUse(states[n].cur, id) == |Holders(states[n], id)|
      ensures id !in capped ==> InUse(states[n].cur, id) == 0
    {
      assert Accounted(states[n], id);
      CountedIs(states[n], capped, limit, id);
      Subset(Connected(states[n], id), Holders(states[n], id));
    }
  }

  lemma {:induction false} Subset(a: set<nat>, b: set<nat>)
    requires a <= b
    ensures |a| <= |b|
  {
    if a != {} {
      var x :| x in a;
      Subset(a - {x}, b - {x});
    }
  }

  // ---- what goes wrong otherwise ----

  function Lone(id: Id): seq<Entry> { [Entry(id, true)] }

  function Capped(id: Id, cap: nat): Policy { Policy(false, 1, map[id := cap]) }

  /** A request with one egress to try dials it, if there is a slot. */
  lemma LoneOffer(id: Id, cap: nat, cur: Slots)
    requires TryAcquire(cur, id, cap).1
    ensures var (y, c) := Offer(Begun(Lone(id), Capped(id, cap)), true, cur);
            y.pc == Dialing(id) && y.policy == Capped(id, cap) && c == TryAcquire(cur, id, cap).0
  {
  }

  /** It arrives and takes its slot. */
  function Joined(s: Sys, r: nat, id: Id, cap: nat): Sys
    requires r !in s.reqs
  {
    Next(Next(s, Arrive(r, Lone(id), Capped(id, cap))), TakeOffer(r, true))
  }

  lemma JoinedIs(s: Sys, r: nat, id: Id, cap: nat)
    requires r !in s.reqs && TryAcquire(s.cur, id, cap).1
    ensures var t := Joined(s, r, id, cap);
            && t == s.(reqs := t.reqs, cur := TryAcquire(s.cur, id, cap).0) && t.reqs == s.reqs[r := t.reqs[r]]
            && t.reqs[r].pc == Dialing(id) && t.reqs[r].policy == Capped(id, cap)
  {
    LoneOffer(id, cap, s.cur);
    var x := Begun(Lone(id), Capped(id, cap));
    assert s.reqs[r := x][r] == x;
  }

  /** Two counted requests hold an egress whose cap and count are both 1. */
  ghost predicate Overbooked(s: Sys, id: Id) {
    && InUse(s.cur, id) == 1
    && |Counted(s, id)| == 2
    && forall r | r in Counted(s, id) :: Cap(s.reqs[r].policy, id) == 1
  }

  ghost predicate Reachable(s: Sys) { exists acts, states :: IsRun(acts, states) && states[|acts|] == s }

  lemma IdleIsReachable()
    ensures Reachable(Idle)
  {
    var acts: seq<Act>, states := [], [Idle];
    assert IsRun(acts, states) && states[|acts|] == Idle;
  }

  lemma NextIsReachable(s: Sys, a: Act)
    requires Reachable(s) && Enabled(s, a)
    ensures Reachable(Next(s, a))
  {
    var acts, states :| IsRun(acts, states) && states[|acts|] == s;
    assert IsRun(acts + [a], states + [Next(s, a)]);
  }

  lemma JoinedIsReachable(s: Sys, r: nat, id: Id, cap: nat)
    requires Reachable(s) && r !in s.reqs
    ensures Reachable(Joined(s, r, id, cap))
  {
    var arrive := Arrive(r, Lone(id), Capped(id, cap));
    NextIsReachable(s, arrive);
    NextIsReachable(Next(s, arrive), TakeOffer(r, true));
  }

  /** An uncapped and then a capped request hold the egress. */
  lemma TwoHold(id: Id) returns (s: Sys)
    ensures Reachable(s) && s.reqs.Keys == {0, 1} && s.freed == {} && InUse(s.cur, id) == 1
    ensures forall r | r in s.reqs :: s.reqs[r].pc == Dialing(id) && s.reqs[r].policy == Capped(id, r)
  {
    IdleIsReachable();
    JoinedIsReachable(Idle, 0, id, 0);
    JoinedIs(Idle, 0, id, 0);
    var s2 := Joined(Idle, 0, id, 0);
    JoinedIsReachable(s2, 1, id, 1);
    JoinedIs(s2, 1, id, 1);
    s := Joined(s2, 1, id, 1);
  }

  /**
   * An egress that becomes capped under a running uncapped request: when that request fails, it gives back the slot
   * of a capped one, and two capped requests hold the egress at once although its cap and its count are 1.
   */
  lemma MixedCapsUndercount(id: Id, w: World, f: Failure)
    ensures exists s :: Reachable(s) && Overbooked(s, id)
  {
    var s4 := TwoHold(id);
    var fail := TakeVerdict(0, w, Failed(f, 502));
    NextIsReachable(s4, fail);
    SettleEffect(s4.reqs[0], w, Failed(f, 502), s4.cur);
    var s5 := Next(s4, fail);
    JoinedIsReachable(s5, 2, id, 1);
    JoinedIs(s5, 2, id, 1);
    var s7 := Joined(s5, 2, id, 1);
    assert Counted(s7, id) == {1, 2};
    assert Overbooked(s7, id);
  }
}
