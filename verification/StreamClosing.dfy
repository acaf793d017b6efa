/** When the first machine closes calls and completes, and with what. */
module StreamClosing {
  import opened Config
  import opened ChatToResponses
  import opened StreamLifecycle
  import opened ToolArguments
  import opened Pipeline
  import opened StreamWords
  import opened CallLog
  import R = ResponsesToChat

  // ---- finishing chunks ----

  /** The n-th beat, counted from 1, finishes. */
  ghost predicate FinishesAt(beats: seq<Beat>, n: nat)
    requires 0 < n <= |beats|
  {
    beats[n - 1].finish
  }

  ghost predicate Finished(beats: seq<Beat>, n: nat)
    requires n <= |beats|
  {
    exists m :: 0 < m <= n && FinishesAt(beats, m)
  }

  /** How many of the first n beats come up to and including the first that finishes; all of them if none does. */
  ghost function UpToFinish(beats: seq<Beat>, n: nat): (m: nat)
    requires n <= |beats|
    ensures m <= n
  {
    if n == 0 then 0 else if Finished(beats, n - 1) then UpToFinish(beats, n - 1) else n
  }

  /** The finishing chunk, counted from 1, that closes a call: the first by which its id has arrived. */
  ghost function ClosedIn(beats: seq<Beat>, n: nat, i: int): (m: Option<nat>)
    requires n <= |beats|
    ensures m.Some? ==> m.value <= n
  {
    if n == 0 then None
    else if ClosedIn(beats, n - 1, i).Some? then ClosedIn(beats, n - 1, i)
    else if FinishesAt(beats, n) && LastId(AllFragments(beats, n), i).Some? then Some(n)
    else None
  }

  lemma FinishedNext(beats: seq<Beat>, n: nat)
    requires 0 < n <= |beats|
    ensures Finished(beats, n) <==> Finished(beats, n - 1) || FinishesAt(beats, n)
  {
    if Finished(beats, n - 1) {
      var m :| 0 < m <= n - 1 && FinishesAt(beats, m);
      assert 0 < m <= n && FinishesAt(beats, m);
    }
    if FinishesAt(beats, n) {
      assert 0 < n <= n && FinishesAt(beats, n);
    }
  }

  /** Nothing is closed by a chunk as long as none finishes. */
  lemma {:induction false} UnfinishedIsOpen(beats: seq<Beat>, n: nat, i: int)
    requires n <= |beats| && !Finished(beats, n)
    ensures ClosedIn(beats, n, i) == None
    decreases n
  {
    if n > 0 {
      FinishedNext(beats, n);
      UnfinishedIsOpen(beats, n - 1, i);
    }
  }

  // ---- what the steps do to done calls and to the verdict ----

  ghost function ReasonFor(order: seq<int>): R.Reason { if order == [] then R.Stop else R.ToolCalls }

  lemma VerdictKept(s: State, b: Body)
    requires !b.Completed?
    ensures Verdict(Emit(s, b).log) == Verdict(s.log)
  {
    VerdictSnoc(s.log, Event(s.number + 1, b));
  }

  /** Nothing was closed or completed. */
  ghost predicate StillOpen(s: State, t: State) {
    && t.calls.done == s.calls.done && t.calls.frozen == s.calls.frozen
    && t.flow == s.flow && Verdict(t.log) == Verdict(s.log)
  }

  lemma AnnounceStillOpen(s: State, k: int)
    ensures StillOpen(s, Announce(s, k))
  {
    if k !in s.calls.added && k in s.calls.ids && k in s.calls.names {
      VerdictKept(s.(calls := Announce(s, k).calls), CallAdded(k, s.calls.ids[k], s.calls.names[k]));
    }
  }

  lemma CollectStillOpen(s: State, k: int, args: string)
    ensures StillOpen(s, Collect(s, k, args))
  {
    if args != "" && k in s.calls.added && k in s.calls.ids {
      VerdictKept(s.(calls := Buffer(s.calls, k, args)), ArgsDelta(k, s.calls.ids[k], args));
    }
  }

  lemma {:induction false} TakeUpToStillOpen(s: State, calls: seq<Fragment>, n: nat)
    requires n <= |calls|
    ensures StillOpen(s, TakeUpTo(s, calls, n))
    decreases n
  {
    if n > 0 {
      TakeUpToStillOpen(s, calls, n - 1);
      var t, f := TakeUpTo(s, calls, n - 1), calls[n - 1];
      var l := t.(calls := Learn(t.calls, f));
      AnnounceStillOpen(l, f.index);
      CollectStillOpen(Announce(l, f.index), f.index, f.args);
    }
  }

  lemma CloseCallFrame(s: State, k: int)
    ensures var t := CloseCall(s, k);
            && t.flow == s.flow && Verdict(t.log) == Verdict(s.log) && Order(t.log) == Order(s.log)
            && t.calls == if k !in s.calls.ids || k in s.calls.done then s.calls else MarkDone(s.calls, k)
  {
    CloseCallHears(s, k);
    var c := s.calls;
    if k in c.ids && k !in c.done {
      var id, args := c.ids[k], OrEmptyObject(Get(c.args, k));
      var name := if k in c.names then Some(c.names[k]) else None;
      var s1 := s.(calls := MarkDone(c, k));
      VerdictKept(s1, ArgsDone(k, id, args));
      VerdictKept(Emit(s1, ArgsDone(k, id, args)), CallItemDone(k, id, name, args));
    }
  }

  /** Exactly the given calls with an id were closed, with the fragments there are. */
  ghost predicate Closes(c: Calls, d: Calls, keys: set<int>) {
    && d == c.(done := d.done, frozen := d.frozen)
    && (forall i :: i in d.done <==> i in c.done || (i in keys && i in c.ids))
    && (forall i | i in c.done :: (i in d.frozen <==> i in c.frozen) && (i in c.frozen ==> d.frozen[i] == c.frozen[i]))
    && (forall i | i in d.done && i !in c.done :: i in d.frozen && d.frozen[i] == |c.frags|)
  }

  lemma {:induction false} CloseCallsFrame(s: State, keys: set<int>)
    ensures var t := CloseCalls(s, keys);
            && t.flow == s.flow && Verdict(t.log) == Verdict(s.log) && Order(t.log) == Order(s.log)
            && Closes(s.calls, t.calls, keys)
    decreases |keys|
  {
    if keys != {} {
      var k := Least(keys);
      CloseCallFrame(s, k);
      CloseCallsFrame(CloseCall(s, k), keys - {k});
      OneThenRest(s.calls, CloseCall(s, k).calls, CloseCalls(s, keys).calls, keys, k);
    }
  }

  lemma OneThenRest(c: Calls, d: Calls, e: Calls, keys: set<int>, k: int)
    requires k in keys && d == if k !in c.ids || k in c.done then c else MarkDone(c, k)
    requires Closes(d, e, keys - {k})
    ensures Closes(c, e, keys)
  {
  }

  lemma CloseAllFrame(s: State)
    requires s.flow.completed <==> Verdict(s.log) != []
    ensures var t := CloseAll(s);
            && t.flow.completed && Order(t.log) == Order(s.log)
            && Verdict(t.log) == (if s.flow.completed then Verdict(s.log) else [ReasonFor(Order(s.log))])
            && Closes(s.calls, t.calls, s.calls.ids.Keys)
  {
    BeforeCloseQuiet(s);
    var s2 := BeforeClose(s);
    PlainPasses(s.log, s2.log);
    CloseCallsFrame(s2, s2.calls.ids.Keys);
    var s3 := CloseCalls(s2, s2.calls.ids.Keys);
    VerdictSnoc(s3.log, Event(s3.number + 1, Completed));
    OrderSnoc(s3.log, Event(s3.number + 1, Completed));
  }

  lemma OnCallsStillOpen(s: State, idx: int, calls: seq<Fragment>)
    ensures var t := OnCalls(s, idx, calls);
            && t.calls.done == s.calls.done && t.calls.frozen == s.calls.frozen
            && t.flow.completed == s.flow.completed && Verdict(t.log) == Verdict(s.log)
  {
    CloseMessageQuiet(s, idx);
    PlainPasses(s.log, CloseMessage(s, idx).log);
    TakeUpToStillOpen(CloseMessage(s, idx), calls, |calls|);
  }

  // ---- whole runs ----

  /** Closed exactly by its closing chunk, with the fragments up to it. */
  ghost predicate ClosedBy(c: Calls, beats: seq<Beat>, m: Option<nat>, i: int)
    requires m.Some? ==> m.value <= |beats|
  {
    if m.Some? then i in c.done && i in c.frozen && c.frozen[i] == |AllFragments(beats, m.value)| else i !in c.done
  }

  ghost predicate AllClosedBy(c: Calls, beats: seq<Beat>, n: nat)
    requires n <= |beats|
  {
    forall i :: ClosedBy(c, beats, ClosedIn(beats, n, i), i)
  }

  /** The verdict the first n beats lead to, by the fragments up to the first that finishes. */
  ghost function VerdictBy(beats: seq<Beat>, n: nat): seq<R.Reason>
    requires n <= |beats|
  {
    if Finished(beats, n) then [ReasonFor(ArrivalOrder(AllFragments(beats, UpToFinish(beats, n))))] else []
  }

  ghost predicate ClosingInv(s: State, beats: seq<Beat>, n: nat)
    requires n <= |beats|
  {
    && (s.flow.completed <==> Finished(beats, n))
    && AllClosedBy(s.calls, beats, n)
    && Verdict(s.log) == VerdictBy(beats, n)
  }

  /** One chunk up to the closing it may do. */
  ghost function BeforeClosing(s: State, c: Chunk): State {
    if c.NoChoice? then s
    else if Cuts(s.flow.inThinking, c) then BeforeCalls(s, c)
    else OnCalls(BeforeCalls(s, c), c.index, c.calls)
  }

  lemma ConvertCloses(s: State, c: Chunk)
    ensures var t := BeforeClosing(s, c);
            Convert(s, c) == if BeatOf(s.flow.inThinking, c).finish then CloseAll(t) else t
  {
    if c.Chunk? {
      BeforeCallsWords(s, c);
      ConvertStages(s, c);
    }
  }

  lemma BeforeClosingGood(s: State, c: Chunk)
    requires Good(s)
    ensures Good(BeforeClosing(s, c))
  {
    if c.Chunk? {
      BeforeCallsQuiet(s, c);
      QuietGood(s, BeforeCalls(s, c));
      OnCallsGood(BeforeCalls(s, c), c.index, c.calls);
    }
  }

  lemma BeforeClosingOpen(s: State, c: Chunk)
    ensures var t := BeforeClosing(s, c);
            && t.calls.frags == s.calls.frags + BeatOf(s.flow.inThinking, c).frags
            && t.calls.done == s.calls.done && t.calls.frozen == s.calls.frozen
            && t.flow.completed == s.flow.completed && Verdict(t.log) == Verdict(s.log)
  {
    if c.Chunk? {
      BeforeCallsQuiet(s, c);
      var s2 := BeforeCalls(s, c);
      PlainPasses(s.log, s2.log);
      OnCallsStillOpen(s2, c.index, c.calls);
      OnCallsFrags(s2, c.index, c.calls);
    }
  }

  lemma BeforeClosingGains(s: State, c: Chunk, k: nat)
    requires Good(s)
    ensures Gains(s, BeforeClosing(s, c), k)
  {
    if c.NoChoice? {
      NothingGained(s, s, k);
    } else {
      BeforeCallsQuiet(s, c);
      var s2 := BeforeCalls(s, c);
      QuietGood(s, s2);
      PlainLands(s.log, s2.log, k);
      NothingGained(s, s2, k);
      OnCallsGains(s2, c.index, c.calls, k);
    }
  }

  lemma OnCallsFrags(s: State, idx: int, calls: seq<Fragment>)
    ensures OnCalls(s, idx, calls).calls.frags == s.calls.frags + calls
  {
    CloseMessageQuiet(s, idx);
    TakeUpToFrags(CloseMessage(s, idx), calls, |calls|);
    assert calls[..|calls|] == calls;
  }

  lemma IdsAreIdentified(s: State, i: int)
    requires Good(s)
    ensures i in s.calls.ids <==> LastId(s.calls.frags, i).Some?
  {
    assert Sound(s, i);
  }

  lemma OpenNext(c: Calls, beats: seq<Beat>, n: nat, i: int)
    requires 0 < n <= |beats| && !FinishesAt(beats, n) && ClosedBy(c, beats, ClosedIn(beats, n - 1, i), i)
    ensures ClosedBy(c, beats, ClosedIn(beats, n, i), i)
  {
  }

  lemma ClosedNext(c: Calls, d: Calls, beats: seq<Beat>, n: nat, i: int)
    requires 0 < n <= |beats| && FinishesAt(beats, n) && c.frags == AllFragments(beats, n)
    requires ClosedBy(c, beats, ClosedIn(beats, n - 1, i), i) && Closes(c, d, c.ids.Keys)
    requires i in c.ids <==> LastId(c.frags, i).Some?
    ensures ClosedBy(d, beats, ClosedIn(beats, n, i), i)
  {
  }

  lemma SameClosed(c: Calls, d: Calls, beats: seq<Beat>, n: nat)
    requires n <= |beats| && AllClosedBy(c, beats, n) && d.done == c.done && d.frozen == c.frozen
    ensures AllClosedBy(d, beats, n)
  {
    forall i ensures ClosedBy(d, beats, ClosedIn(beats, n, i), i) {
      assert ClosedBy(c, beats, ClosedIn(beats, n, i), i);
    }
  }

  /** The closing part of one more chunk. */
  lemma AllClosedNext(t: State, beats: seq<Beat>, n: nat)
    requires 0 < n <= |beats| && Good(t) && t.calls.frags == AllFragments(beats, n)
    requires AllClosedBy(t.calls, beats, n - 1)
    requires t.flow.completed <==> Verdict(t.log) != []
    ensures AllClosedBy((if FinishesAt(beats, n) then CloseAll(t) else t).calls, beats, n)
  {
    var u := if FinishesAt(beats, n) then CloseAll(t) else t;
    if FinishesAt(beats, n) {
      CloseAllFrame(t);
    }
    forall i ensures ClosedBy(u.calls, beats, ClosedIn(beats, n, i), i) {
      assert ClosedBy(t.calls, beats, ClosedIn(beats, n - 1, i), i);
      if FinishesAt(beats, n) {
        IdsAreIdentified(t, i);
        ClosedNext(t.calls, u.calls, beats, n, i);
      } else {
        OpenNext(t.calls, beats, n, i);
      }
    }
  }

  lemma VerdictNext(t: State, beats: seq<Beat>, n: nat)
    requires 0 < n <= |beats| && Good(t) && t.calls.frags == AllFragments(beats, n)
    requires t.flow.completed <==> Finished(beats, n - 1)
    requires Verdict(t.log) == VerdictBy(beats, n - 1)
    ensures var u := if FinishesAt(beats, n) then CloseAll(t) else t;
            (u.flow.completed <==> Finished(beats, n)) && Verdict(u.log) == VerdictBy(beats, n)
  {
    FinishedNext(beats, n);
    if FinishesAt(beats, n) {
      CloseAllFrame(t);
    }
  }

  /** The state before a beat's closing, and nothing closed since. */
  ghost predicate AwaitsClosing(s: State, t: State, beats: seq<Beat>, n: nat)
    requires 0 < n <= |beats|
  {
    && Good(t) && t.calls.frags == AllFragments(beats, n)
    && t.calls.done == s.calls.done && t.calls.frozen == s.calls.frozen
    && t.flow.completed == s.flow.completed && Verdict(t.log) == Verdict(s.log)
  }

  lemma ChunkAwaits(s: State, c: Chunk, beats: seq<Beat>, n: nat)
    requires 0 < n <= |beats| && Good(s) && beats[n - 1] == BeatOf(s.flow.inThinking, c)
    requires s.calls.frags == AllFragments(beats, n - 1)
    ensures AwaitsClosing(s, BeforeClosing(s, c), beats, n)
    ensures Convert(s, c) == if FinishesAt(beats, n) then CloseAll(BeforeClosing(s, c)) else BeforeClosing(s, c)
  {
    ConvertCloses(s, c);
    BeforeClosingGood(s, c);
    BeforeClosingOpen(s, c);
  }

  lemma ClosingFrom(s: State, t: State, u: State, beats: seq<Beat>, n: nat)
    requires 0 < n <= |beats| && ClosingInv(s, beats, n - 1) && AwaitsClosing(s, t, beats, n)
    requires u == if FinishesAt(beats, n) then CloseAll(t) else t
    ensures ClosingInv(u, beats, n)
  {
    SameClosed(s.calls, t.calls, beats, n - 1);
    AllClosedNext(t, beats, n);
    VerdictNext(t, beats, n);
  }

  lemma ClosingNext(s: State, c: Chunk, beats: seq<Beat>, n: nat)
    requires 0 < n <= |beats| && Good(s) && beats[n - 1] == BeatOf(s.flow.inThinking, c)
    requires s.calls.frags == AllFragments(beats, n - 1) && ClosingInv(s, beats, n - 1)
    ensures ClosingInv(Convert(s, c), beats, n)
  {
    ChunkAwaits(s, c, beats, n);
    ClosingFrom(s, BeforeClosing(s, c), Convert(s, c), beats, n);
  }

  lemma RunClosingNext(chunks: seq<Chunk>, n: nat)
    requires n < |chunks| && ClosingInv(Run(chunks, n), Beats(chunks), n)
    ensures ClosingInv(Run(chunks, n + 1), Beats(chunks), n + 1)
  {
    RunGood(chunks, n);
    RunWords(chunks, n);
    ClosingNext(Run(chunks, n), chunks[n], Beats(chunks), n + 1);
  }

  lemma RunClosing(chunks: seq<Chunk>, n: nat)
    requires n <= |chunks|
    ensures ClosingInv(Run(chunks, n), Beats(chunks), n)
  {
    for k := 0 to n
      invariant ClosingInv(Run(chunks, k), Beats(chunks), k)
    {
      RunClosingNext(chunks, k);
    }
  }

  /** The fragments up to and including the first beat that finishes, or all if none does. */
  ghost function ByFinish(beats: seq<Beat>): seq<Fragment> { AllFragments(beats, UpToFinish(beats, |beats|)) }

  /** The chunk count at which a call of a flushed stream is closed: a finishing chunk, or the end if none finishes. */
  ghost function ClosedAt(beats: seq<Beat>, i: int): (m: Option<nat>)
    ensures m.Some? ==> m.value <= |beats|
  {
    if Finished(beats, |beats|) then ClosedIn(beats, |beats|, i)
    else if LastId(Fragments(beats), i).Some? then Some(|beats|)
    else None
  }

  /** Which calls a flushed stream has closed and with which fragments, and what its completion says. */
  lemma EndedClosing(chunks: seq<Chunk>)
    ensures var s := Ended(chunks);
            && s.calls.frags == Fragments(Beats(chunks))
            && (forall i :: ClosedBy(s.calls, Beats(chunks), ClosedAt(Beats(chunks), i), i))
            && Verdict(s.log) == [ReasonFor(ArrivalOrder(ByFinish(Beats(chunks))))]
            && Words(s.log) == AllWords(chunks, |chunks|)
  {
    var n := |chunks|;
    var s := Run(chunks, n);
    RunClosing(chunks, n);
    RunGood(chunks, n);
    RunWords(chunks, n);
    if !Finished(Beats(chunks), n) {
      CloseAllFrame(s);
      CloseAllMute(s);
      UnfinishedCounts(Beats(chunks), n);
      forall i ensures ClosedBy(CloseAll(s).calls, Beats(chunks), ClosedAt(Beats(chunks), i), i) {
        assert ClosedBy(s.calls, Beats(chunks), ClosedIn(Beats(chunks), n, i), i);
        UnfinishedIsOpen(Beats(chunks), n, i);
        IdsAreIdentified(s, i);
      }
    } else {
      forall i ensures ClosedBy(s.calls, Beats(chunks), ClosedAt(Beats(chunks), i), i) {
        assert ClosedBy(s.calls, Beats(chunks), ClosedIn(Beats(chunks), n, i), i);
      }
    }
  }

  lemma UnfinishedCounts(beats: seq<Beat>, n: nat)
    requires n <= |beats| && !Finished(beats, n)
    ensures UpToFinish(beats, n) == n
  {
    if n > 0 {
      FinishedNext(beats, n);
    }
  }

  // ---- any stream in which no chunk finishes ----

  /** Nothing is closed before the completion. */
  ghost predicate Waits(s: State) { !s.flow.completed && s.calls.done == {} && Verdict(s.log) == [] }

  lemma ConvertWaits(s: State, c: Chunk)
    requires Waits(s) && !BeatOf(s.flow.inThinking, c).finish
    ensures Waits(Convert(s, c))
  {
    if c.Chunk? {
      BeforeCallsWords(s, c);
      ConvertStages(s, c);
      BeforeCallsQuiet(s, c);
      var s2 := BeforeCalls(s, c);
      PlainPasses(s.log, s2.log);
      OnCallsStillOpen(s2, c.index, c.calls);
    }
  }

  lemma {:induction false} RunWaits(chunks: seq<Chunk>, n: nat)
    requires n <= |chunks| && !Finished(Beats(chunks), n)
    ensures Waits(Run(chunks, n))
    decreases n
  {
    if n > 0 {
      FinishedNext(Beats(chunks), n);
      RunWaits(chunks, n - 1);
      RunWords(chunks, n - 1);
      ConvertWaits(Run(chunks, n - 1), chunks[n - 1]);
    }
  }

  /**
   * If no chunk finishes, the flush closes exactly the calls that have an id, each with all its fragments, "{}" when
   * it has none.
   */
  lemma FlushClosesAll(chunks: seq<Chunk>, i: int)
    requires !Finished(Beats(chunks), |chunks|)
    ensures var s := Ended(chunks);
            && (i in s.calls.done <==> LastId(s.calls.frags, i).Some?)
            && DoneArgs(s.log, i) == if i in s.calls.done then Some(OrEmptyObject(All(s.calls.frags, i))) else None
  {
    var s := Run(chunks, |chunks|);
    RunWaits(chunks, |chunks|);
    RunGood(chunks, |chunks|);
    CloseAllFrame(s);
    IdsAreIdentified(s, i);
    ArgumentsAreComplete(chunks, i);
    var c := Ended(chunks).calls;
    assert c.frags[..|c.frags|] == c.frags;
  }
}
