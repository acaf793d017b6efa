/** What the first machine's log says of calls, after every run. */
module CallLog {
  import opened Config
  import opened ChatToResponses
  import opened StreamLifecycle
  import opened ToolArguments
  import opened Pipeline

  // ---- what each call delivers ----

  /**
   * The arguments that come out for a call. Its late fragments always do; if there were none when it was closed,
   * the whole buffer comes first.
   */
  ghost function Expected(c: Calls, i: int): string {
    if i in c.done && i in c.frozen && c.frozen[i] <= |c.frags| && Late(c.frags[..c.frozen[i]], i) == ""
    then OrEmptyObject(All(c.frags[..c.frozen[i]], i)) + Late(c.frags, i)
    else Late(c.frags, i)
  }

  lemma ExpectedSnoc(c: Calls, d: Calls, f: Fragment, i: int)
    requires d.frags == c.frags + [f] && d.done == c.done && d.frozen == c.frozen
    requires i in c.done ==> i in c.frozen && c.frozen[i] <= |c.frags|
    ensures Expected(d, i) == Expected(c, i) + if f.index == i && Known(d.frags, i) then f.args else ""
  {
    FragSnoc(c.frags, f, i);
    if i in c.done {
      assert d.frags[..c.frozen[i]] == c.frags[..c.frozen[i]];
      var whole := OrEmptyObject(All(c.frags[..c.frozen[i]], i));
      var more := if f.index == i && Known(d.frags, i) then f.args else "";
      assert whole + (Late(c.frags, i) + more) == whole + Late(c.frags, i) + more;
    }
  }

  lemma AnnounceDelivers(s: State, k: int, i: int)
    ensures Delivered(Announce(s, k).log, i) == Delivered(s.log, i)
  {
    if k !in s.calls.added && k in s.calls.ids && k in s.calls.names {
      DeliveredSnoc(s.log, Event(s.number + 1, CallAdded(k, s.calls.ids[k], s.calls.names[k])), i);
    }
  }

  lemma CollectDelivers(s: State, k: int, args: string, i: int)
    requires k in s.calls.added ==> k in s.calls.ids
    ensures Delivered(Collect(s, k, args).log, i) ==
            Delivered(s.log, i) + if k == i && k in s.calls.added then args else ""
  {
    if args != "" && k in s.calls.added {
      DeliveredSnoc(s.log, Event(s.number + 1, ArgsDelta(k, s.calls.ids[k], args)), i);
    }
  }

  lemma TakeShape(s: State, f: Fragment)
    ensures var a, t := Announce(s.(calls := Learn(s.calls, f)), f.index).calls, Take(s, f).calls;
            && t.added == a.added && t.ids == a.ids && t.frags == s.calls.frags + [f]
            && t.done == s.calls.done && t.frozen == s.calls.frozen
  {
  }

  lemma TakeDelivers(s: State, f: Fragment, i: int)
    requires ArgInv(s, i) && ArgInv(s, f.index) && Delivered(s.log, i) == Expected(s.calls, i)
    ensures Delivered(Take(s, f).log, i) == Expected(Take(s, f).calls, i)
  {
    var l := s.(calls := Learn(s.calls, f));
    var a, t := Announce(l, f.index), Take(s, f);
    TakeShape(s, f);
    assert f.index in a.calls.added ==> f.index in a.calls.ids by {
      TakeKeepsArgs(s, f, f.index);
    }
    assert f.index in a.calls.added <==> Known(t.calls.frags, f.index) by {
      TakeKeepsArgs(s, f, f.index);
    }
    AnnounceDelivers(l, f.index, i);
    CollectDelivers(a, f.index, f.args, i);
    ExpectedSnoc(s.calls, t.calls, f, i);
  }

  /** Closing a call adds its whole buffer exactly when nothing was delivered before. */
  lemma ExpectedDone(c: Calls, k: int, i: int)
    requires k !in c.done && Get(c.args, k) == All(c.frags, k)
    ensures Expected(MarkDone(c, k), i) ==
            if k == i && Expected(c, i) == "" then OrEmptyObject(Get(c.args, i)) else Expected(c, i)
  {
    assert c.frags[..|c.frags|] == c.frags;
  }

  lemma ClosingDelivers(log: seq<Event>, d: Event, e: Event, i: int)
    requires d.body.ArgsDone? && e.body.CallItemDone?
    ensures Delivered(log + [d] + [e], i) ==
            if e.body.idx == i && Delivered(log, i) == "" then e.body.args else Delivered(log, i)
  {
    DeliveredSnoc(log, d, i);
    DeliveredSnoc(log + [d], e, i);
  }

  lemma CloseCallDelivers(s: State, k: int, i: int)
    requires ArgInv(s, k) && Delivered(s.log, i) == Expected(s.calls, i)
    ensures Delivered(CloseCall(s, k).log, i) == Expected(CloseCall(s, k).calls, i)
  {
    var c := s.calls;
    if k in c.ids && k !in c.done {
      ExpectedDone(c, k, i);
      var id, args := c.ids[k], OrEmptyObject(Get(c.args, k));
      var name := if k in c.names then Some(c.names[k]) else None;
      var d, e := Event(s.number + 1, ArgsDone(k, id, args)), Event(s.number + 2, CallItemDone(k, id, name, args));
      assert CloseCall(s, k).log == s.log + [d] + [e] && CloseCall(s, k).calls == MarkDone(c, k);
      ClosingDelivers(s.log, d, e, i);
    }
  }

  // ---- which calls are announced ----

  /** The call whose id and name are both known since the last fragment, if there is one. */
  ghost predicate Arrives(fs: seq<Fragment>) {
    fs != [] && Known(fs, fs[|fs| - 1].index) && !Known(fs[..|fs| - 1], fs[|fs| - 1].index)
  }

  /** The calls whose id and name have both arrived, in the order that became so. */
  ghost function ArrivalOrder(fs: seq<Fragment>): seq<int> {
    if fs == [] then []
    else ArrivalOrder(fs[..|fs| - 1]) + if Arrives(fs) then [fs[|fs| - 1].index] else []
  }

  /** The same calls, with id and name as they then were. */
  ghost function Arrivals(fs: seq<Fragment>): seq<Call> {
    if fs == [] then []
    else
      var i := fs[|fs| - 1].index;
      Arrivals(fs[..|fs| - 1]) + if Arrives(fs) then [Call(LastId(fs, i).value, LastName(fs, i).value.text)] else []
  }

  lemma ArrivalSnoc(fs: seq<Fragment>, f: Fragment)
    ensures var now, i := Known(fs + [f], f.index) && !Known(fs, f.index), f.index;
            && ArrivalOrder(fs + [f]) == ArrivalOrder(fs) + (if now then [i] else [])
            && Arrivals(fs + [f]) ==
               Arrivals(fs) + if now then [Call(LastId(fs + [f], i).value, LastName(fs + [f], i).value.text)] else []
  {
    assert (fs + [f])[..|fs|] == fs;
  }

  lemma {:induction false} ArrivedIsKnown(fs: seq<Fragment>, i: int)
    ensures i in ArrivalOrder(fs) <==> Known(fs, i)
  {
    if fs != [] {
      ArrivedIsKnown(fs[..|fs| - 1], i);
      if Known(fs[..|fs| - 1], i) {
        KnownStays(fs, i);
      }
    }
  }

  lemma {:induction false} ArrivalsMatch(fs: seq<Fragment>)
    ensures |Arrivals(fs)| == |ArrivalOrder(fs)|
  {
    if fs != [] {
      ArrivalsMatch(fs[..|fs| - 1]);
    }
  }

  /** The log announces exactly the arrivals. */
  ghost predicate Heard(log: seq<Event>, fs: seq<Fragment>) {
    Order(log) == ArrivalOrder(fs) && Introduced(log) == Arrivals(fs)
  }

  lemma AnnounceHears(s: State, k: int)
    ensures var now := k !in s.calls.added && k in s.calls.ids && k in s.calls.names;
            && Introduced(Announce(s, k).log) ==
               Introduced(s.log) + (if now then [Call(s.calls.ids[k], s.calls.names[k].text)] else [])
            && Order(Announce(s, k).log) == if now && k !in Order(s.log) then Order(s.log) + [k] else Order(s.log)
  {
    if k !in s.calls.added && k in s.calls.ids && k in s.calls.names {
      var e := Event(s.number + 1, CallAdded(k, s.calls.ids[k], s.calls.names[k]));
      IntroducedSnoc(s.log, e);
      OrderSnoc(s.log, e);
    }
  }

  lemma CollectHears(s: State, k: int, args: string)
    ensures Introduced(Collect(s, k, args).log) == Introduced(s.log) && Order(Collect(s, k, args).log) == Order(s.log)
  {
    if args != "" && k in s.calls.added && k in s.calls.ids {
      var e := Event(s.number + 1, ArgsDelta(k, s.calls.ids[k], args));
      IntroducedSnoc(s.log, e);
      OrderSnoc(s.log, e);
    }
  }

  lemma TakeHears(s: State, f: Fragment)
    requires ArgInv(s, f.index) && Heard(s.log, s.calls.frags)
    ensures Heard(Take(s, f).log, Take(s, f).calls.frags)
  {
    TakeShape(s, f);
    ArrivalSnoc(s.calls.frags, f);
    ArrivedIsKnown(s.calls.frags, f.index);
    LearnStep(s, f, f.index);
    var l := s.(calls := Learn(s.calls, f));
    AnnounceHears(l, f.index);
    CollectHears(Announce(l, f.index), f.index, f.args);
  }

  lemma CloseCallHears(s: State, k: int)
    ensures Introduced(CloseCall(s, k).log) == Introduced(s.log) && Order(CloseCall(s, k).log) == Order(s.log)
  {
    var c := s.calls;
    if k in c.ids && k !in c.done {
      var id, args := c.ids[k], OrEmptyObject(Get(c.args, k));
      var name := if k in c.names then Some(c.names[k]) else None;
      var d, e := Event(s.number + 1, ArgsDone(k, id, args)), Event(s.number + 2, CallItemDone(k, id, name, args));
      IntroducedSnoc(s.log, d);
      OrderSnoc(s.log, d);
      IntroducedSnoc(s.log + [d], e);
      OrderSnoc(s.log + [d], e);
    }
  }

  // ---- whole runs ----

  ghost predicate Sound(s: State, i: int) { ArgInv(s, i) && Delivered(s.log, i) == Expected(s.calls, i) }

  ghost predicate Good(s: State) { Heard(s.log, s.calls.frags) && forall i :: Sound(s, i) }

  lemma TakeGood(s: State, f: Fragment)
    requires Good(s)
    ensures Good(Take(s, f))
  {
    assert Sound(s, f.index);
    TakeHears(s, f);
    forall i ensures Sound(Take(s, f), i) {
      assert Sound(s, i);
      TakeKeepsArgs(s, f, i);
      TakeDelivers(s, f, i);
    }
  }

  lemma TakeUpToGood(s: State, calls: seq<Fragment>, n: nat)
    requires Good(s) && n <= |calls|
    ensures Good(TakeUpTo(s, calls, n))
  {
    for k := 0 to n
      invariant Good(TakeUpTo(s, calls, k))
    {
      TakeGood(TakeUpTo(s, calls, k), calls[k]);
    }
  }

  lemma CloseCallFrags(s: State, k: int)
    ensures CloseCall(s, k).calls.frags == s.calls.frags
  {
  }

  lemma CloseCallGood(s: State, k: int)
    requires Good(s)
    ensures Good(CloseCall(s, k))
  {
    CloseCallHears(s, k);
    CloseCallFrags(s, k);
    var t := CloseCall(s, k);
    forall i ensures Sound(t, i) {
      assert Sound(s, i) && Sound(s, k);
      CloseCallKeepsArgs(s, k, i);
      CloseCallDelivers(s, k, i);
    }
  }

  lemma {:induction false} CloseCallsGood(s: State, keys: set<int>)
    requires Good(s)
    ensures Good(CloseCalls(s, keys))
    decreases |keys|
  {
    if keys != {} {
      var k := Least(keys);
      CloseCallGood(s, k);
      CloseCallsGood(CloseCall(s, k), keys - {k});
    }
  }

  lemma {:induction false} PlainPasses(a: seq<Event>, b: seq<Event>)
    requires Extends(a, b)
    ensures Order(b) == Order(a) && Introduced(b) == Introduced(a) && Verdict(b) == Verdict(a)
    decreases |b|
  {
    if |a| < |b| {
      assert b[..|b| - 1][..|a|] == a;
      PlainPasses(a, b[..|b| - 1]);
    } else {
      assert a == b;
    }
  }

  lemma {:induction false} PlainDelivers(a: seq<Event>, b: seq<Event>, i: int)
    requires Extends(a, b)
    ensures Delivered(b, i) == Delivered(a, i)
    decreases |b|
  {
    if |a| < |b| {
      assert b[..|b| - 1][..|a|] == a;
      PlainDelivers(a, b[..|b| - 1], i);
    } else {
      assert a == b;
    }
  }

  lemma QuietGood(s: State, t: State)
    requires Good(s) && Quiet(s, t)
    ensures Good(t)
  {
    PlainPasses(s.log, t.log);
    forall i ensures Sound(t, i) {
      assert Sound(s, i);
      QuietKeeps(s, t, i);
      PlainDelivers(s.log, t.log, i);
    }
  }

  lemma SendCompletedSound(s: State, i: int)
    requires Sound(s, i)
    ensures Sound(SendCompleted(s), i)
  {
    ArgsSnoc(s.log, Event(s.number + 1, Completed), i);
    DeliveredSnoc(s.log, Event(s.number + 1, Completed), i);
  }

  lemma SendCompletedGood(s: State)
    requires Good(s)
    ensures Good(SendCompleted(s))
  {
    IntroducedSnoc(s.log, Event(s.number + 1, Completed));
    OrderSnoc(s.log, Event(s.number + 1, Completed));
    forall i ensures Sound(SendCompleted(s), i) {
      assert Sound(s, i);
      SendCompletedSound(s, i);
    }
  }

  lemma CloseAllGood(s: State)
    requires Good(s)
    ensures Good(CloseAll(s))
  {
    BeforeCloseQuiet(s);
    var s2 := BeforeClose(s);
    QuietGood(s, s2);
    CloseCallsGood(s2, s2.calls.ids.Keys);
    SendCompletedGood(CloseCalls(s2, s2.calls.ids.Keys));
  }

  lemma OnCallsGood(s: State, idx: int, calls: seq<Fragment>)
    requires Good(s)
    ensures Good(OnCalls(s, idx, calls))
  {
    CloseMessageQuiet(s, idx);
    QuietGood(s, CloseMessage(s, idx));
    TakeUpToGood(CloseMessage(s, idx), calls, |calls|);
  }

  lemma ConvertGood(s: State, c: Chunk)
    requires Good(s)
    ensures Good(Convert(s, c))
  {
    if c.Chunk? {
      BeforeCallsQuiet(s, c);
      var s2 := BeforeCalls(s, c);
      QuietGood(s, s2);
      if !Swallows(s, c) {
        OnCallsGood(s2, c.index, c.calls);
        CloseAllGood(OnCalls(s2, c.index, c.calls));
      }
    }
  }

  lemma InitGood()
    ensures Good(Init)
  {
    forall i ensures Sound(Init, i) {
    }
  }

  /** In every reachable state: announcements are arrivals, and each call's own events carry what is expected. */
  lemma {:induction false} RunGood(chunks: seq<Chunk>, n: nat)
    requires n <= |chunks|
    ensures Good(Run(chunks, n))
    decreases n
  {
    if n == 0 {
      InitGood();
    } else {
      RunGood(chunks, n - 1);
      ConvertGood(Run(chunks, n - 1), chunks[n - 1]);
    }
  }

  lemma EndedGood(chunks: seq<Chunk>)
    ensures Good(Ended(chunks))
  {
    RunGood(chunks, |chunks|);
    CloseAllGood(Run(chunks, |chunks|));
  }

  // ---- stable ids ----

  /** Every id given for a call is the call's own. */
  ghost predicate Stable(fs: seq<Fragment>, ids: map<int, Id>) {
    forall p | 0 <= p < |fs| && fs[p].id.Some? :: fs[p].index in ids && ids[fs[p].index] == fs[p].id.value
  }

  ghost predicate Named(s: State, ids: map<int, Id>) {
    ProperLog(s.log, ids) && forall i | i in s.calls.ids :: i in ids && s.calls.ids[i] == ids[i]
  }

  lemma TakeNamed(s: State, f: Fragment, ids: map<int, Id>)
    requires Named(s, ids) && (f.id.Some? ==> f.index in ids && ids[f.index] == f.id.value)
    ensures Named(Take(s, f), ids)
  {
    var l := s.(calls := Learn(s.calls, f));
    assert Named(l, ids);
    var a := Announce(l, f.index);
    assert Named(a, ids);
  }

  lemma {:induction false} TakeUpToNamed(s: State, calls: seq<Fragment>, n: nat, ids: map<int, Id>)
    requires Named(s, ids) && n <= |calls| && Stable(calls, ids)
    ensures Named(TakeUpTo(s, calls, n), ids)
    decreases n
  {
    if n > 0 {
      TakeUpToNamed(s, calls, n - 1, ids);
      TakeNamed(TakeUpTo(s, calls, n - 1), calls[n - 1], ids);
    }
  }

  lemma CloseCallNamed(s: State, k: int, ids: map<int, Id>)
    requires Named(s, ids)
    ensures Named(CloseCall(s, k), ids)
  {
  }

  lemma {:induction false} CloseCallsNamed(s: State, keys: set<int>, ids: map<int, Id>)
    requires Named(s, ids)
    ensures Named(CloseCalls(s, keys), ids)
    decreases |keys|
  {
    if keys != {} {
      var k := Least(keys);
      CloseCallNamed(s, k, ids);
      CloseCallsNamed(CloseCall(s, k), keys - {k}, ids);
    }
  }

  lemma QuietNamed(s: State, t: State, ids: map<int, Id>)
    requires Named(s, ids) && Quiet(s, t)
    ensures Named(t, ids)
  {
    forall p | 0 <= p < |t.log| ensures Proper(t.log[p].body, ids) {
      if p < |s.log| {
        assert t.log[p] == s.log[p];
      }
    }
  }

  lemma CloseAllNamed(s: State, ids: map<int, Id>)
    requires Named(s, ids)
    ensures Named(CloseAll(s), ids)
  {
    BeforeCloseQuiet(s);
    var s2 := BeforeClose(s);
    QuietNamed(s, s2, ids);
    CloseCallsNamed(s2, s2.calls.ids.Keys, ids);
  }

  lemma ConvertNamed(s: State, c: Chunk, ids: map<int, Id>)
    requires Named(s, ids) && (!Swallows(s, c) ==> Stable(CallsOfChunk(c), ids))
    ensures Named(Convert(s, c), ids)
  {
    if c.Chunk? {
      BeforeCallsQuiet(s, c);
      var s2 := BeforeCalls(s, c);
      QuietNamed(s, s2, ids);
      if !Swallows(s, c) {
        CloseMessageQuiet(s2, c.index);
        QuietNamed(s2, CloseMessage(s2, c.index), ids);
        TakeUpToNamed(CloseMessage(s2, c.index), c.calls, |c.calls|, ids);
        CloseAllNamed(OnCalls(s2, c.index, c.calls), ids);
      }
    }
  }

  /** If all ids received are the calls' own, every event about a call carries them. */
  lemma {:induction false} RunNamed(chunks: seq<Chunk>, n: nat, ids: map<int, Id>)
    requires n <= |chunks| && Stable(Run(chunks, n).calls.frags, ids)
    ensures Named(Run(chunks, n), ids)
    decreases n
  {
    if n > 0 {
      var s, c := Run(chunks, n - 1), chunks[n - 1];
      var more := if Swallows(s, c) then [] else CallsOfChunk(c);
      FragmentsReceived(s, c);
      StableParts(s.calls.frags, more, ids);
      RunNamed(chunks, n - 1, ids);
      ConvertNamed(s, c, ids);
    }
  }

  lemma StableParts(a: seq<Fragment>, b: seq<Fragment>, ids: map<int, Id>)
    requires Stable(a + b, ids)
    ensures Stable(a, ids) && Stable(b, ids)
  {
    forall p | 0 <= p < |a| && a[p].id.Some? ensures a[p].index in ids && ids[a[p].index] == a[p].id.value {
      assert (a + b)[p] == a[p];
    }
    forall p | 0 <= p < |b| && b[p].id.Some? ensures b[p].index in ids && ids[b[p].index] == b[p].id.value {
      assert (a + b)[|a| + p] == b[p];
    }
  }

  lemma EndedNamed(chunks: seq<Chunk>, ids: map<int, Id>)
    requires Stable(Ended(chunks).calls.frags, ids)
    ensures Named(Ended(chunks), ids)
  {
    CloseAllFrags(Run(chunks, |chunks|));
    RunNamed(chunks, |chunks|, ids);
    CloseAllNamed(Run(chunks, |chunks|), ids);
  }

  // ---- on which Chat index fragments land ----

  /** The late fragments of the call at a place in the order of arrival. */
  ghost function LateOn(fs: seq<Fragment>, k: nat): string {
    if k < |ArrivalOrder(fs)| then Late(fs, ArrivalOrder(fs)[k]) else ""
  }

  /** What further fragments add to it. */
  ghost function Gain(fs: seq<Fragment>, gs: seq<Fragment>, k: nat): string {
    if |LateOn(fs, k)| <= |LateOn(gs, k)| then LateOn(gs, k)[|LateOn(fs, k)|..] else ""
  }

  lemma GainIs(fs: seq<Fragment>, gs: seq<Fragment>, k: nat, more: string)
    requires LateOn(gs, k) == LateOn(fs, k) + more
    ensures Gain(fs, gs, k) == more
  {
  }

  lemma {:induction false} ArrivalsDistinct(fs: seq<Fragment>)
    ensures Distinct(ArrivalOrder(fs))
  {
    if fs != [] {
      ArrivalsDistinct(fs[..|fs| - 1]);
      ArrivedIsKnown(fs[..|fs| - 1], fs[|fs| - 1].index);
    }
  }

  ghost predicate Sits(fs: seq<Fragment>, k: nat, i: int) { k < |ArrivalOrder(fs)| && ArrivalOrder(fs)[k] == i }

  lemma LateOnSnoc(fs: seq<Fragment>, f: Fragment, k: nat)
    ensures LateOn(fs + [f], k) == LateOn(fs, k) + if Sits(fs + [f], k, f.index) then f.args else ""
  {
    var gs := fs + [f];
    ArrivalSnoc(fs, f);
    ArrivalsDistinct(gs);
    ArrivedIsKnown(gs, f.index);
    if k < |ArrivalOrder(gs)| {
      var i := ArrivalOrder(gs)[k];
      FragSnoc(fs, f, i);
      if k >= |ArrivalOrder(fs)| {
        LateNeedsKnown(fs, i);
      }
    }
  }

  lemma AnnounceLands(s: State, i: int, k: nat)
    ensures Landed(Announce(s, i).log, k) == Landed(s.log, k)
  {
    if i !in s.calls.added && i in s.calls.ids && i in s.calls.names {
      LandedSnoc(s.log, Event(s.number + 1, CallAdded(i, s.calls.ids[i], s.calls.names[i])), k);
    }
  }

  lemma CollectLands(s: State, i: int, args: string, k: nat)
    requires i in s.calls.added ==> i in s.calls.ids
    ensures Landed(Collect(s, i, args).log, k) ==
            Landed(s.log, k) + if i in s.calls.added && Lands(Order(s.log), i) == k then args else ""
  {
    if args != "" && i in s.calls.added {
      LandedSnoc(s.log, Event(s.number + 1, ArgsDelta(i, s.calls.ids[i], args)), k);
    }
  }

  lemma SitsIff(order: seq<int>, i: int, k: nat)
    requires Distinct(order) && i in order
    ensures Lands(order, i) == k <==> k < |order| && order[k] == i
  {
  }

  lemma TakeLands(s: State, f: Fragment, k: nat)
    requires Good(s)
    ensures Landed(Take(s, f).log, k) ==
            Landed(s.log, k) + if Sits(s.calls.frags + [f], k, f.index) then f.args else ""
  {
    var l := s.(calls := Learn(s.calls, f));
    var a, t, i := Announce(l, f.index), Take(s, f), f.index;
    TakeShape(s, f);
    TakeGood(s, f);
    assert Sound(t, i);
    ArrivedIsKnown(t.calls.frags, i);
    ArrivalsDistinct(t.calls.frags);
    AnnounceLands(l, i, k);
    CollectHears(a, i, f.args);
    CollectLands(a, i, f.args, k);
    if i in a.calls.added {
      SitsIff(Order(a.log), i, k);
    }
  }

  /** From one state to the other each Chat index gained exactly the fragments received for its call. */
  ghost predicate Gains(s: State, t: State, k: nat) {
    var more := Gain(s.calls.frags, t.calls.frags, k);
    LateOn(t.calls.frags, k) == LateOn(s.calls.frags, k) + more && Landed(t.log, k) == Landed(s.log, k) + more
  }

  lemma Regroup(a: string, b: string, c: string)
    ensures (a + b) + c == a + (b + c)
  {
  }

  lemma GainsThen(s: State, t: State, u: State, k: nat, more: string)
    requires Gains(s, t, k)
    requires LateOn(u.calls.frags, k) == LateOn(t.calls.frags, k) + more && Landed(u.log, k) == Landed(t.log, k) + more
    ensures Gains(s, u, k)
  {
    var first := Gain(s.calls.frags, t.calls.frags, k);
    Regroup(LateOn(s.calls.frags, k), first, more);
    Regroup(Landed(s.log, k), first, more);
    GainIs(s.calls.frags, u.calls.frags, k, first + more);
  }

  lemma TakeGains(s: State, t: State, f: Fragment, k: nat)
    requires Good(t) && Gains(s, t, k)
    ensures Gains(s, Take(t, f), k)
  {
    TakeLands(t, f, k);
    TakeShape(t, f);
    LateOnSnoc(t.calls.frags, f, k);
    GainsThen(s, t, Take(t, f), k, if Sits(t.calls.frags + [f], k, f.index) then f.args else "");
  }

  lemma NothingGained(s: State, t: State, k: nat)
    requires t.calls.frags == s.calls.frags && Landed(t.log, k) == Landed(s.log, k)
    ensures Gains(s, t, k)
  {
    GainIs(s.calls.frags, t.calls.frags, k, "");
  }

  lemma TakeUpToGains(s: State, calls: seq<Fragment>, n: nat, k: nat)
    requires Good(s) && n <= |calls|
    ensures Gains(s, TakeUpTo(s, calls, n), k)
  {
    NothingGained(s, s, k);
    for m := 0 to n
      invariant Good(TakeUpTo(s, calls, m)) && Gains(s, TakeUpTo(s, calls, m), k)
    {
      TakeGains(s, TakeUpTo(s, calls, m), calls[m], k);
      TakeGood(TakeUpTo(s, calls, m), calls[m]);
    }
  }

  lemma {:induction false} PlainLands(a: seq<Event>, b: seq<Event>, n: nat)
    requires Extends(a, b)
    ensures Landed(b, n) == Landed(a, n)
    decreases |b|
  {
    if |a| < |b| {
      assert b[..|b| - 1][..|a|] == a;
      PlainLands(a, b[..|b| - 1], n);
    } else {
      assert a == b;
    }
  }

  lemma OnCallsGains(s: State, idx: int, calls: seq<Fragment>, k: nat)
    requires Good(s)
    ensures Gains(s, OnCalls(s, idx, calls), k)
  {
    if calls == [] {
      NothingGained(s, s, k);
    } else {
      var s1 := CloseMessage(s, idx);
      CloseMessageQuiet(s, idx);
      QuietGood(s, s1);
      PlainLands(s.log, s1.log, k);
      TakeUpToGains(s1, calls, |calls|, k);
    }
  }
}
