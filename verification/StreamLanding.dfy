/** What each Chat index carries, as a fold over the chunks, whatever is closed when. */
module StreamLanding {
  import opened Config
  import opened ChatToResponses
  import opened StreamLifecycle
  import opened ToolArguments
  import opened Pipeline
  import opened StreamWords
  import opened CallLog
  import opened StreamClosing

  // ---- any closing, of named and nameless calls alike ----

  /** The calls a closing closes whose arguments go to one Chat index. */
  ghost function Hits(c: Calls, order: seq<int>, keys: set<int>, n: nat): set<int> {
    set k | k in keys && k in c.ids && k !in c.done && Lands(order, k) == n
  }

  /** What the closing leaves at an index: what was there, or else the least such call's whole arguments. */
  ghost function AfterClosing(sofar: string, c: Calls, hits: set<int>): string {
    if sofar != "" || hits == {} then sofar else OrEmptyObject(Get(c.args, Least(hits)))
  }

  lemma TwoEventsLand(log: seq<Event>, d: Event, e: Event, n: nat)
    requires d.body.ArgsDone? && e.body.CallItemDone?
    ensures Landed(log + [d] + [e], n) ==
            if Lands(Order(log), e.body.idx) == n && Landed(log, n) == "" then e.body.args else Landed(log, n)
  {
    LandedSnoc(log, d, n);
    OrderSnoc(log, d);
    LandedSnoc(log + [d], e, n);
  }

  lemma OneHit(c: Calls, order: seq<int>, k: int, n: nat)
    ensures var hits := Hits(c, order, {k}, n);
            if k in c.ids && k !in c.done && Lands(order, k) == n then hits == {k} && Least(hits) == k else hits == {}
  {
    var hits := Hits(c, order, {k}, n);
    assert forall x | x in hits :: x == k;
    if k in c.ids && k !in c.done && Lands(order, k) == n {
      assert k in hits;
    }
  }

  lemma CloseCallLands(s: State, k: int, n: nat)
    ensures Landed(CloseCall(s, k).log, n)
         == AfterClosing(Landed(s.log, n), s.calls, Hits(s.calls, Order(s.log), {k}, n))
  {
    var c := s.calls;
    OneHit(c, Order(s.log), k, n);
    if k in c.ids && k !in c.done {
      var id, args := c.ids[k], OrEmptyObject(Get(c.args, k));
      var name := if k in c.names then Some(c.names[k]) else None;
      var d, e := Event(s.number + 1, ArgsDone(k, id, args)), Event(s.number + 2, CallItemDone(k, id, name, args));
      assert CloseCall(s, k).log == s.log + [d] + [e];
      TwoEventsLand(s.log, d, e, n);
    }
  }

  lemma LeastOf(keys: set<int>, hits: set<int>, rest: set<int>, k: int)
    requires keys != {} && k == Least(keys) && hits <= keys && rest == hits - {k}
    ensures k in hits ==> Least(hits) == k
    ensures k !in hits ==> rest == hits
  {
  }

  lemma {:induction false} CloseCallsLand(s: State, keys: set<int>, n: nat)
    ensures Landed(CloseCalls(s, keys).log, n)
         == AfterClosing(Landed(s.log, n), s.calls, Hits(s.calls, Order(s.log), keys, n))
    decreases |keys|
  {
    var hits := Hits(s.calls, Order(s.log), keys, n);
    if keys == {} {
      assert hits == {};
    } else {
      var k := Least(keys);
      var t := CloseCall(s, k);
      CloseCallLands(s, k, n);
      CloseCallFrame(s, k);
      CloseCallsLand(t, keys - {k}, n);
      var rest := Hits(t.calls, Order(t.log), keys - {k}, n);
      assert rest == hits - {k};
      LeastOf(keys, hits, rest, k);
      var first := Hits(s.calls, Order(s.log), {k}, n);
      assert first == if k in hits then {k} else {};
    }
  }

  /** In any state, what a closing adds at any Chat index. */
  lemma CloseAllLands(s: State, n: nat)
    ensures Landed(CloseAll(s).log, n)
         == AfterClosing(Landed(s.log, n), s.calls, Hits(s.calls, Order(s.log), s.calls.ids.Keys, n))
  {
    BeforeCloseQuiet(s);
    var s2 := BeforeClose(s);
    PlainPasses(s.log, s2.log);
    PlainLands(s.log, s2.log, n);
    CloseCallsLand(s2, s2.calls.ids.Keys, n);
    var s3 := CloseCalls(s2, s2.calls.ids.Keys);
    LandedSnoc(s3.log, Event(s3.number + 1, Completed), n);
  }

  // ---- reading it off the beats ----

  /** The calls that have an id. */
  ghost function Identified(fs: seq<Fragment>): set<int> {
    set p | 0 <= p < |fs| && LastId(fs, fs[p].index).Some? :: fs[p].index
  }

  lemma {:induction false} IdentifiedIff(fs: seq<Fragment>, i: int)
    ensures LastId(fs, i).Some? ==> exists p :: 0 <= p < |fs| && fs[p].index == i
  {
    if fs != [] {
      var n := |fs| - 1;
      IdentifiedIff(fs[..n], i);
      if fs[n].index == i {
        assert 0 <= n < |fs| && fs[n].index == i;
      } else if LastId(fs, i).Some? {
        var p :| 0 <= p < |fs[..n]| && fs[..n][p].index == i;
        assert fs[p].index == i;
      }
    }
  }

  lemma InIdentified(fs: seq<Fragment>, i: int)
    ensures i in Identified(fs) <==> LastId(fs, i).Some?
  {
    IdentifiedIff(fs, i);
  }

  /** The call was closed by a chunk before the m-th. */
  ghost predicate ShutBefore(beats: seq<Beat>, m: nat, i: int)
    requires m <= |beats|
  {
    m > 0 && ClosedIn(beats, m - 1, i).Some?
  }

  /** The calls closed after m beats whose whole arguments go to one Chat index. */
  ghost function Closers(beats: seq<Beat>, m: nat, k: nat): set<int>
    requires m <= |beats|
  {
    var fs := AllFragments(beats, m);
    set i | i in Identified(fs) && !ShutBefore(beats, m, i) && Lands(ArrivalOrder(fs), i) == k
  }

  /** A closing puts the least such call's whole arguments there, if nothing is there yet. */
  ghost function Closed(sofar: string, fs: seq<Fragment>, who: set<int>): string {
    if sofar != "" || who == {} then sofar else OrEmptyObject(All(fs, Least(who)))
  }

  /** What one Chat index carries after n beats: late fragments as they come, and what closings put there. */
  ghost function Arrived(beats: seq<Beat>, n: nat, k: nat): string
    requires n <= |beats|
  {
    if n == 0 then ""
    else
      var fs := AllFragments(beats, n);
      var sofar := Arrived(beats, n - 1, k) + Gain(AllFragments(beats, n - 1), fs, k);
      if FinishesAt(beats, n) then Closed(sofar, fs, Closers(beats, n, k)) else sofar
  }

  /** And after the flush, which closes if no chunk finished. */
  ghost function Arriving(beats: seq<Beat>, k: nat): string {
    var n := |beats|;
    if Finished(beats, n) then Arrived(beats, n, k)
    else Closed(Arrived(beats, n, k), AllFragments(beats, n), Closers(beats, n, k))
  }

  lemma ClosingLands(s: State, beats: seq<Beat>, m: nat, k: nat)
    requires m <= |beats| && Good(s) && s.calls.frags == AllFragments(beats, m)
    requires forall i :: i in s.calls.done <==> ShutBefore(beats, m, i)
    ensures Landed(CloseAll(s).log, k) == Closed(Landed(s.log, k), s.calls.frags, Closers(beats, m, k))
  {
    CloseAllLands(s, k);
    var hits, who := Hits(s.calls, Order(s.log), s.calls.ids.Keys, k), Closers(beats, m, k);
    forall i ensures i in hits <==> i in who {
      InIdentified(s.calls.frags, i);
      IdsAreIdentified(s, i);
    }
    assert hits == who;
    if hits != {} {
      assert Sound(s, Least(hits));
    }
  }

  /** What has landed so far is the fold so far. */
  ghost predicate OnFold(chunks: seq<Chunk>, n: nat, k: nat) {
    n <= |chunks| && Landed(Run(chunks, n).log, k) == Arrived(Beats(chunks), n, k)
  }

  /** One beat's closing, or none. */
  lemma BeatLands(t: State, beats: seq<Beat>, n: nat, k: nat)
    requires 0 < n <= |beats| && Good(t) && t.calls.frags == AllFragments(beats, n)
    requires forall i :: i in t.calls.done <==> ShutBefore(beats, n, i)
    requires Landed(t.log, k) == Arrived(beats, n - 1, k) + Gain(AllFragments(beats, n - 1), t.calls.frags, k)
    ensures Landed((if FinishesAt(beats, n) then CloseAll(t) else t).log, k) == Arrived(beats, n, k)
  {
    if FinishesAt(beats, n) {
      ClosingLands(t, beats, n, k);
    }
  }

  lemma DoneIsShut(s: State, beats: seq<Beat>, n: nat)
    requires n < |beats| && AllClosedBy(s.calls, beats, n)
    ensures forall i :: i in s.calls.done <==> ShutBefore(beats, n + 1, i)
  {
    forall i ensures i in s.calls.done <==> ShutBefore(beats, n + 1, i) {
      assert ClosedBy(s.calls, beats, ClosedIn(beats, n, i), i);
    }
  }

  lemma RunArrivedNext(chunks: seq<Chunk>, n: nat, k: nat)
    requires n < |chunks| && OnFold(chunks, n, k)
    ensures OnFold(chunks, n + 1, k)
  {
    var s, beats := Run(chunks, n), Beats(chunks);
    RunGood(chunks, n);
    RunWords(chunks, n);
    RunClosing(chunks, n);
    var t := BeforeClosing(s, chunks[n]);
    ChunkAwaits(s, chunks[n], beats, n + 1);
    BeforeClosingGains(s, chunks[n], k);
    DoneIsShut(s, beats, n);
    BeatLands(t, beats, n + 1, k);
  }

  lemma OnFoldStart(chunks: seq<Chunk>, k: nat)
    ensures OnFold(chunks, 0, k)
  {
  }

  lemma RunArrived(chunks: seq<Chunk>, n: nat, k: nat)
    requires n <= |chunks|
    ensures OnFold(chunks, n, k)
  {
    OnFoldStart(chunks, k);
    for m := 0 to n
      invariant OnFold(chunks, m, k)
    {
      RunArrivedNext(chunks, m, k);
    }
  }

  lemma NothingShut(beats: seq<Beat>, m: nat, i: int)
    requires m <= |beats| && !Finished(beats, m)
    ensures !ShutBefore(beats, m, i)
  {
    if m > 0 {
      FinishedNext(beats, m);
      UnfinishedIsOpen(beats, m - 1, i);
    }
  }

  /** For every stream, what lands on each Chat index is the fold over its chunks. */
  lemma EndedArriving(chunks: seq<Chunk>, k: nat)
    ensures Landed(Ended(chunks).log, k) == Arriving(Beats(chunks), k)
  {
    var n := |chunks|;
    var s := Run(chunks, n);
    RunArrived(chunks, n, k);
    RunGood(chunks, n);
    RunWords(chunks, n);
    RunClosing(chunks, n);
    if !Finished(Beats(chunks), n) {
      forall i ensures i in s.calls.done <==> ShutBefore(Beats(chunks), n, i) {
        assert ClosedBy(s.calls, Beats(chunks), ClosedIn(Beats(chunks), n, i), i);
        UnfinishedIsOpen(Beats(chunks), n, i);
        NothingShut(Beats(chunks), n, i);
      }
      ClosingLands(s, Beats(chunks), n, k);
    }
  }

  // ---- the fold in closed form ----

  /** The first finishing chunk, counted from 1, that closes a call onto an index. */
  ghost function HitBy(beats: seq<Beat>, n: nat, k: nat): (m: Option<nat>)
    requires n <= |beats|
    ensures m.Some? ==> m.value <= n && Closers(beats, m.value, k) != {}
  {
    if n == 0 then None
    else if HitBy(beats, n - 1, k).Some? then HitBy(beats, n - 1, k)
    else if FinishesAt(beats, n) && Closers(beats, n, k) != {} then Some(n)
    else None
  }

  /** The first closing of a flushed stream that closes a call onto an index. */
  ghost function Hit(beats: seq<Beat>, k: nat): (m: Option<nat>)
    ensures m.Some? ==> m.value <= |beats| && Closers(beats, m.value, k) != {}
  {
    if HitBy(beats, |beats|, k).Some? then HitBy(beats, |beats|, k)
    else if !Finished(beats, |beats|) && Closers(beats, |beats|, k) != {} then Some(|beats|)
    else None
  }

  /** The whole arguments that closing puts there: none if a late fragment was there first. */
  ghost function WholeOn(beats: seq<Beat>, m: Option<nat>, k: nat): string
    requires m.Some? ==> m.value <= |beats| && Closers(beats, m.value, k) != {}
  {
    if m.Some? && LateOn(AllFragments(beats, m.value), k) == ""
    then OrEmptyObject(All(AllFragments(beats, m.value), Least(Closers(beats, m.value, k))))
    else ""
  }

  lemma {:induction false} GainHolds(fs: seq<Fragment>, more: seq<Fragment>, k: nat)
    ensures LateOn(fs + more, k) == LateOn(fs, k) + Gain(fs, fs + more, k)
    decreases |more|
  {
    if more == [] {
      assert fs + more == fs;
    } else {
      var n := |more| - 1;
      var gs := fs + more[..n];
      assert fs + more == gs + [more[n]];
      GainHolds(fs, more[..n], k);
      LateOnSnoc(gs, more[n], k);
      var last := if Sits(gs + [more[n]], k, more[n].index) then more[n].args else "";
      Regroup(LateOn(fs, k), Gain(fs, gs, k), last);
      GainIs(fs, fs + more, k, Gain(fs, gs, k) + last);
    }
  }

  lemma FragmentsNext(beats: seq<Beat>, n: nat, k: nat)
    requires 0 < n <= |beats|
    ensures LateOn(AllFragments(beats, n), k) ==
            LateOn(AllFragments(beats, n - 1), k) + Gain(AllFragments(beats, n - 1), AllFragments(beats, n), k)
  {
    GainHolds(AllFragments(beats, n - 1), beats[n - 1].frags, k);
  }

  lemma {:induction false} FragmentsPrefix(beats: seq<Beat>, m: nat, n: nat)
    requires m <= n <= |beats|
    ensures AllFragments(beats, m) <= AllFragments(beats, n)
    decreases n
  {
    if m < n {
      FragmentsPrefix(beats, m, n - 1);
    }
  }

  lemma LateOnGrows(beats: seq<Beat>, m: nat, n: nat, k: nat)
    requires m <= n <= |beats|
    ensures LateOn(AllFragments(beats, m), k) <= LateOn(AllFragments(beats, n), k)
  {
    var fs, gs := AllFragments(beats, m), AllFragments(beats, n);
    FragmentsPrefix(beats, m, n);
    assert gs == fs + gs[|fs|..];
    GainHolds(fs, gs[|fs|..], k);
  }

  /** One closing, in closed form. */
  lemma ClosedIs(beats: seq<Beat>, n: nat, k: nat, before: Option<nat>)
    requires n <= |beats|
    requires before.Some? ==> before.value <= n && Closers(beats, before.value, k) != {}
    ensures var fs, who := AllFragments(beats, n), Closers(beats, n, k);
            var now := if before.Some? then before else if who != {} then Some(n) else None;
            Closed(WholeOn(beats, before, k) + LateOn(fs, k), fs, who) == WholeOn(beats, now, k) + LateOn(fs, k)
  {
    if before.Some? {
      LateOnGrows(beats, before.value, n, k);
    }
  }

  ghost predicate IsSum(beats: seq<Beat>, n: nat, k: nat, sofar: string, hit: Option<nat>)
    requires n <= |beats| && (hit.Some? ==> hit.value <= |beats| && Closers(beats, hit.value, k) != {})
  {
    sofar == WholeOn(beats, hit, k) + LateOn(AllFragments(beats, n), k)
  }

  /** The fold up to n beats is that sum. */
  ghost predicate Sums(beats: seq<Beat>, n: nat, k: nat) {
    n <= |beats| && IsSum(beats, n, k, Arrived(beats, n, k), HitBy(beats, n, k))
  }

  lemma ArrivedNext(beats: seq<Beat>, n: nat, k: nat)
    requires n < |beats| && Sums(beats, n, k)
    ensures Sums(beats, n + 1, k)
  {
    var before, fs, was := HitBy(beats, n, k), AllFragments(beats, n + 1), AllFragments(beats, n);
    FragmentsNext(beats, n + 1, k);
    Regroup(WholeOn(beats, before, k), LateOn(was, k), Gain(was, fs, k));
    assert IsSum(beats, n + 1, k, Arrived(beats, n, k) + Gain(was, fs, k), before);
    if FinishesAt(beats, n + 1) {
      ClosedIs(beats, n + 1, k, before);
    }
  }

  lemma ArrivedStart(beats: seq<Beat>, k: nat)
    ensures Sums(beats, 0, k)
  {
  }

  lemma ArrivedIs(beats: seq<Beat>, n: nat, k: nat)
    requires n <= |beats|
    ensures Sums(beats, n, k)
  {
    ArrivedStart(beats, k);
    for m := 0 to n
      invariant Sums(beats, m, k)
    {
      ArrivedNext(beats, m, k);
    }
  }

  /**
   * An index carries the whole arguments of the least call in the first closing that lands on it, unless a late
   * fragment was there first, and after them all late fragments of its call.
   */
  lemma ArrivingIs(beats: seq<Beat>, k: nat)
    ensures Arriving(beats, k) == WholeOn(beats, Hit(beats, k), k) + LateOn(Fragments(beats), k)
  {
    ArrivedIs(beats, |beats|, k);
    ClosedIs(beats, |beats|, k, HitBy(beats, |beats|, k));
  }
}
