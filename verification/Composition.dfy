/** Chat chunks translated to Responses events and back again. */
module Composition {
  import opened Config
  import opened ChatToResponses
  import opened StreamLifecycle
  import opened ToolArguments
  import opened Pipeline
  import opened StreamWords
  import opened CallLog
  import opened StreamClosing
  import opened StreamLanding
  import R = ResponsesToChat

  /** What the second machine has sent when it was fed everything the first one wrote, and flushed. */
  ghost function Received(chunks: seq<Chunk>): R.State {
    var log := Ended(chunks).log;
    R.Flush(R.Run(Wired(log), |log|))
  }

  lemma {:induction false} CompletedHasVerdict(log: seq<Event>, p: nat)
    requires p < |log| && log[p].body == Completed
    ensures |Verdict(log)| == 1
    decreases |log|
  {
    VerdictIsOne(log[..|log| - 1]);
    if p < |log| - 1 {
      CompletedHasVerdict(log[..|log| - 1], p);
    }
  }

  lemma {:induction false} VerdictIsOne(log: seq<Event>)
    ensures |Verdict(log)| <= 1
  {
    if log != [] {
      VerdictIsOne(log[..|log| - 1]);
    }
  }

  /** The first machine's completion already finished the second, so its flush adds nothing. */
  lemma ReceivedIsPiped(chunks: seq<Chunk>)
    ensures Received(chunks) == Pipe(Ended(chunks).log) && |Verdict(Ended(chunks).log)| == 1
  {
    var log := Ended(chunks).log;
    CompletesOnce(chunks);
    var p :| 0 <= p < |log| && log[p].body == Completed;
    CompletedHasVerdict(log, p);
    FinishPasses(log);
    PipeIsRun(log, |log|);
    assert log[..|log|] == log;
  }

  // ---- text, finish and announcements ----

  /** Every stream comes out with exactly one finish. */
  lemma FinishesOnce(chunks: seq<Chunk>)
    ensures |Finals(Received(chunks).out)| == 1
  {
    ReceivedIsPiped(chunks);
    FinishPasses(Ended(chunks).log);
  }

  /** What a stream says, its think tags read, comes out in order. */
  lemma TaggedWordsSurvive(chunks: seq<Chunk>)
    ensures ChatWords(Received(chunks).out) == AllWords(chunks, |chunks|)
  {
    ReceivedIsPiped(chunks);
    EndedClosing(chunks);
    WordsPass(Ended(chunks).log);
  }

  /** Text and reasoning of an untagged stream come out as they went in, in order. */
  lemma WordsSurvive(chunks: seq<Chunk>)
    requires AllUntagged(chunks)
    ensures ChatWords(Received(chunks).out) == PlainWords(chunks, |chunks|)
  {
    TaggedWordsSurvive(chunks);
    UntaggedIsPlain(chunks, |chunks|);
  }

  lemma ReasonIff(fs: seq<Fragment>)
    ensures ReasonFor(ArrivalOrder(fs)) == if exists i :: Known(fs, i) then R.ToolCalls else R.Stop
  {
    if i :| Known(fs, i) {
      ArrivedIsKnown(fs, i);
    }
    if ArrivalOrder(fs) != [] {
      ArrivedIsKnown(fs, ArrivalOrder(fs)[0]);
    }
  }

  /**
   * The one finish says tool_calls exactly if some call's id and name had both arrived by the first chunk that
   * finishes, or at all if none does.
   */
  lemma FinishIff(chunks: seq<Chunk>)
    ensures var fs := ByFinish(Beats(chunks));
            Finals(Received(chunks).out) == [if exists i :: Known(fs, i) then R.ToolCalls else R.Stop]
  {
    ReceivedIsPiped(chunks);
    EndedClosing(chunks);
    FinishPasses(Ended(chunks).log);
    ReasonIff(ByFinish(Beats(chunks)));
  }

  /** The calls come out with their ids and names, in the order both were known. */
  lemma StartsSurvive(chunks: seq<Chunk>)
    ensures Starts(Received(chunks).out) == Arrivals(Fragments(Beats(chunks)))
  {
    ReceivedIsPiped(chunks);
    EndedClosing(chunks);
    EndedGood(chunks);
    StartsPass(Ended(chunks).log);
  }

  /** A call whose id and name come after the finish is still started: then the finish does not speak for it. */
  lemma FinishBeforeCall(a: Id, f: Id)
    ensures var late := Chunk(0, "", "", [Fragment(0, Some(a), Some(f), "")], false);
            var out := Received([Chunk(0, "", "", [], true), late]).out;
            Finals(out) == [R.Stop] && Starts(out) == [Call(a, f.text)]
  {
    var g := Fragment(0, Some(a), Some(f), "");
    var chunks, beats := [Chunk(0, "", "", [], true), Chunk(0, "", "", [g], false)], [Beat([], true), Beat([g], false)];
    UnwrittenBeats(chunks);
    assert Beats(chunks) == beats;
    assert FinishesAt(beats, 1) && Finished(beats, 1);
    assert UpToFinish(beats, 2) == UpToFinish(beats, 1) == 1;
    assert AllFragments(beats, 1) == [];
    assert AllFragments(beats, 2) == [] + [g];
    FinishIff(chunks);
    StartsSurvive(chunks);
    ArrivalSnoc([], g);
    FragSnoc([], g, 0);
  }

  lemma {:induction false} Unwritten(chunks: seq<Chunk>, n: nat)
    requires n <= |chunks| && forall p | 0 <= p < |chunks| :: chunks[p].Chunk? && chunks[p].content == ""
    ensures !Pondering(chunks, n)
    decreases n
  {
    if n > 0 {
      Unwritten(chunks, n - 1);
      assert chunks[n - 1].content == "";
    }
  }

  /** Chunks without content are never cut short. */
  lemma UnwrittenBeats(chunks: seq<Chunk>)
    requires forall p | 0 <= p < |chunks| :: chunks[p].Chunk? && chunks[p].content == ""
    ensures forall p | 0 <= p < |chunks| :: Beats(chunks)[p] == Beat(chunks[p].calls, chunks[p].finish)
  {
    forall p | 0 <= p < |chunks| ensures Beats(chunks)[p] == Beat(chunks[p].calls, chunks[p].finish) {
      Unwritten(chunks, p);
      assert chunks[p].content == "";
    }
  }

  // ---- arguments: where they go ----

  /** The start chunk at p is the start of call i. */
  ghost predicate Begins(out: seq<R.Chunk>, p: nat, ids: map<int, Id>, i: int) {
    p < |out| && out[p].CallStart? && i in ids && ids[i] == out[p].id
  }

  /** The calls' ids are stable and distinct. */
  ghost predicate OwnIds(beats: seq<Beat>, ids: map<int, Id>) {
    Separate(ids) && Stable(Fragments(beats), ids)
  }

  /** The place of a started call in the order of arrival. */
  ghost predicate PlacedAt(beats: seq<Beat>, k: nat, i: int) {
    Sits(Fragments(beats), k, i)
  }

  /** Each Chat index carries the fold over the chunks, and a started call's index is its place in order of arrival. */
  lemma IndexesCarry(chunks: seq<Chunk>, ids: map<int, Id>)
    requires OwnIds(Beats(chunks), ids)
    ensures var out := Received(chunks).out;
            && (forall k: nat :: ChatArgs(out, R.Num(k)) == Arriving(Beats(chunks), k))
            && (forall p: nat, i | Begins(out, p, ids, i) :: PlacedAt(Beats(chunks), out[p].index, i))
  {
    var log, out := Ended(chunks).log, Received(chunks).out;
    ReceivedIsPiped(chunks);
    EndedClosing(chunks);
    EndedGood(chunks);
    EndedNamed(chunks, ids);
    CallsPass(log, ids);
    StartsPass(log);
    forall k: nat ensures ChatArgs(out, R.Num(k)) == Arriving(Beats(chunks), k) {
      assert Carries(Pipe(log), k, Landed(log, k));
      EndedArriving(chunks, k);
    }
    forall p: nat, i | Begins(out, p, ids, i) ensures PlacedAt(Beats(chunks), out[p].index, i) {
      StartIsPlaced(Pipe(log), Order(log), ids, p, i);
    }
  }

  lemma StartIsPlaced(t: R.State, order: seq<int>, ids: map<int, Id>, p: nat, i: int)
    requires Separate(ids) && Indexed(t, order, ids) && StartsIndexed(t) && Begins(t.out, p, ids, i)
    ensures t.out[p].index < |order| && order[t.out[p].index] == i
  {
    var key := ItemId(t.out[p].id);
    assert Owned(key, t.index[key], order, ids);
    ItemIdInjective(ids[i], ids[order[t.index[key]]]);
  }

  // ---- whose arguments they are ----

  lemma {:induction false} OrderPrefix(fs: seq<Fragment>, gs: seq<Fragment>)
    requires fs <= gs
    ensures ArrivalOrder(fs) <= ArrivalOrder(gs)
    decreases |gs|
  {
    if |fs| < |gs| {
      OrderPrefix(fs, gs[..|gs| - 1]);
    } else {
      assert fs == gs;
    }
  }

  /** A call that has not arrived yet will sit behind all that have. */
  lemma PlaceIsStable(beats: seq<Beat>, m: nat, k: nat, i: int)
    requires m <= |beats| && PlacedAt(beats, k, i)
    ensures Known(AllFragments(beats, m), i) <==> Sits(AllFragments(beats, m), k, i)
    ensures k < |ArrivalOrder(AllFragments(beats, m))| ==> Sits(AllFragments(beats, m), k, i)
  {
    var fs, upto := Fragments(beats), AllFragments(beats, m);
    FragmentsPrefix(beats, m, |beats|);
    OrderPrefix(upto, fs);
    ArrivedIsKnown(upto, i);
    ArrivalsDistinct(fs);
  }

  lemma LateOnIs(beats: seq<Beat>, m: nat, k: nat, i: int)
    requires m <= |beats| && PlacedAt(beats, k, i)
    ensures LateOn(AllFragments(beats, m), k) == Late(AllFragments(beats, m), i)
  {
    PlaceIsStable(beats, m, k, i);
    LateNeedsKnown(AllFragments(beats, m), i);
  }

  /** The first closing on its index finds nothing streamed for the call. */
  ghost predicate Struck(beats: seq<Beat>, k: nat, i: int) {
    Hit(beats, k).Some? && Late(AllFragments(beats, Hit(beats, k).value), i) == ""
  }

  /** The arguments that closing puts there: those of the least call in it that lands on the index. */
  ghost function Strike(beats: seq<Beat>, k: nat): string
    requires Hit(beats, k).Some?
  {
    var m := Hit(beats, k).value;
    OrEmptyObject(All(AllFragments(beats, m), Least(Closers(beats, m, k))))
  }

  lemma WholeOnIs(beats: seq<Beat>, k: nat, i: int)
    requires PlacedAt(beats, k, i)
    ensures WholeOn(beats, Hit(beats, k), k) == if Struck(beats, k, i) then Strike(beats, k) else ""
  {
    if Hit(beats, k).Some? {
      LateOnIs(beats, Hit(beats, k).value, k, i);
    }
  }

  /** The call's own closing finds nothing streamed for it. */
  ghost predicate Due(beats: seq<Beat>, i: int) {
    ClosedAt(beats, i).Some? && Late(AllFragments(beats, ClosedAt(beats, i).value), i) == ""
  }

  /** Its own whole arguments at that closing. */
  ghost function OwnWhole(beats: seq<Beat>, i: int): string
    requires ClosedAt(beats, i).Some?
  {
    OrEmptyObject(All(AllFragments(beats, ClosedAt(beats, i).value), i))
  }

  /**
   * The arguments a call should arrive with. What comes after its id and name always; if nothing of that came before
   * the call was closed, everything received until then first, "{}" for nothing.
   */
  ghost function Outcome(beats: seq<Beat>, i: int): string {
    (if Due(beats, i) then OwnWhole(beats, i) else "") + Late(Fragments(beats), i)
  }

  /** The arguments a call does arrive with: those of whichever call is closed onto its index first, then its own. */
  ghost function Arrival(beats: seq<Beat>, k: nat, i: int): string {
    (if Struck(beats, k, i) then Strike(beats, k) else "") + Late(Fragments(beats), i)
  }

  lemma CallArrives(chunks: seq<Chunk>, ids: map<int, Id>, p: nat, i: int)
    requires OwnIds(Beats(chunks), ids) && Begins(Received(chunks).out, p, ids, i)
    ensures var out := Received(chunks).out;
            && PlacedAt(Beats(chunks), out[p].index, i)
            && ChatArgs(out, R.Num(out[p].index)) == Arrival(Beats(chunks), out[p].index, i)
  {
    IndexesCarry(chunks, ids);
    var beats, k := Beats(chunks), Received(chunks).out[p].index;
    ArrivingIs(beats, k);
    WholeOnIs(beats, k, i);
    LateOnIs(beats, |beats|, k, i);
  }

  /** For every stream with stable distinct ids, what each started call arrives with. */
  lemma CallsArrive(chunks: seq<Chunk>, ids: map<int, Id>)
    requires OwnIds(Beats(chunks), ids)
    ensures var out := Received(chunks).out;
            forall p: nat, i | Begins(out, p, ids, i) ::
              ChatArgs(out, R.Num(out[p].index)) == Arrival(Beats(chunks), out[p].index, i)
  {
    var out := Received(chunks).out;
    forall p: nat, i | Begins(out, p, ids, i)
      ensures ChatArgs(out, R.Num(out[p].index)) == Arrival(Beats(chunks), out[p].index, i)
    {
      CallArrives(chunks, ids, p, i);
    }
  }

  /**
   * The call gets its own: the first closing on its index finds nothing streamed exactly if its own closing does, and
   * then brings arguments equal to its own.
   */
  ghost predicate Undisturbed(beats: seq<Beat>, k: nat, i: int) {
    if Struck(beats, k, i) then Due(beats, i) && Strike(beats, k) == OwnWhole(beats, i) else !Due(beats, i)
  }

  lemma SameSuffix(a: string, b: string, c: string)
    ensures a + c == b + c <==> a == b
  {
    if a + c == b + c {
      assert |a| == |a + c| - |c| && |b| == |b + c| - |c|;
      assert a == (a + c)[..|a|] && b == (b + c)[..|b|];
    }
  }

  lemma OutcomeIff(beats: seq<Beat>, k: nat, i: int)
    ensures Arrival(beats, k, i) == Outcome(beats, i) <==> Undisturbed(beats, k, i)
  {
    SameSuffix(if Struck(beats, k, i) then Strike(beats, k) else "",
               if Due(beats, i) then OwnWhole(beats, i) else "", Late(Fragments(beats), i));
  }

  /** A started call arrives with its Outcome exactly if it is undisturbed. */
  lemma OwnArgumentsIff(chunks: seq<Chunk>, ids: map<int, Id>)
    requires OwnIds(Beats(chunks), ids)
    ensures var out := Received(chunks).out;
            forall p: nat, i | Begins(out, p, ids, i) ::
              ChatArgs(out, R.Num(out[p].index)) == Outcome(Beats(chunks), i) <==>
              Undisturbed(Beats(chunks), out[p].index, i)
  {
    var out := Received(chunks).out;
    forall p: nat, i | Begins(out, p, ids, i)
      ensures ChatArgs(out, R.Num(out[p].index)) == Outcome(Beats(chunks), i) <==>
              Undisturbed(Beats(chunks), out[p].index, i)
    {
      CallArrives(chunks, ids, p, i);
      OutcomeIff(Beats(chunks), out[p].index, i);
    }
  }

  /**
   * All of a call's fragments arrive, and nothing else: nothing came before its id and name and no closing found its
   * index empty, or the closing that did brought exactly what came before.
   */
  ghost predicate Survives(beats: seq<Beat>, k: nat, i: int) {
    var fs := Fragments(beats);
    if !Struck(beats, k, i) then Early(fs, i) == "" && Late(fs, i) != ""
    else Strike(beats, k) == if Late(fs, i) == "" then OrEmptyObject(Early(fs, i)) else Early(fs, i)
  }

  lemma ConcatIff(early: string, late: string, whole: string)
    ensures late == OrEmptyObject(early + late) <==> early == "" && late != ""
    ensures whole != "" ==>
              (whole + late == OrEmptyObject(early + late) <==>
               whole == if late == "" then OrEmptyObject(early) else early)
  {
    assert |early + late| == |early| + |late|;
    if late == "" {
      assert early + late == early && whole + late == whole;
    } else {
      SameSuffix(whole, early, late);
      SameSuffix("", early, late);
      assert "" + late == late;
    }
  }

  lemma SurvivesIff(beats: seq<Beat>, k: nat, i: int)
    ensures Arrival(beats, k, i) == OrEmptyObject(All(Fragments(beats), i)) <==> Survives(beats, k, i)
  {
    var fs := Fragments(beats);
    EarlyThenLate(fs, i);
    if Struck(beats, k, i) {
      ConcatIff(Early(fs, i), Late(fs, i), Strike(beats, k));
    } else {
      ConcatIff(Early(fs, i), Late(fs, i), "");
      assert "" + Late(fs, i) == Late(fs, i);
    }
  }

  /** With stable distinct ids, all of a started call's arguments arrive exactly if Survives says so. */
  lemma ArgumentsSurviveIff(chunks: seq<Chunk>, ids: map<int, Id>)
    requires OwnIds(Beats(chunks), ids)
    ensures var out, fs := Received(chunks).out, Fragments(Beats(chunks));
            forall p: nat, i | Begins(out, p, ids, i) ::
              ChatArgs(out, R.Num(out[p].index)) == OrEmptyObject(All(fs, i)) <==>
              Survives(Beats(chunks), out[p].index, i)
  {
    var out, fs := Received(chunks).out, Fragments(Beats(chunks));
    forall p: nat, i | Begins(out, p, ids, i)
      ensures ChatArgs(out, R.Num(out[p].index)) == OrEmptyObject(All(fs, i)) <==>
              Survives(Beats(chunks), out[p].index, i)
    {
      CallArrives(chunks, ids, p, i);
      SurvivesIff(Beats(chunks), out[p].index, i);
    }
  }

  // ---- streams whose calls are named when they are closed ----

  /** Calls are closed after the first n beats: by a finishing chunk, or by the flush if none finishes. */
  ghost predicate ClosesAt(beats: seq<Beat>, n: nat)
    requires 0 < n <= |beats|
  {
    FinishesAt(beats, n) || (n == |beats| && !Finished(beats, n))
  }

  /** Every call that has an id has a name. */
  ghost predicate AllNamed(fs: seq<Fragment>) { forall i :: LastId(fs, i).Some? ==> LastName(fs, i).Some? }

  ghost predicate NamedWhenClosed(beats: seq<Beat>) {
    forall n | 0 < n <= |beats| && ClosesAt(beats, n) :: AllNamed(AllFragments(beats, n))
  }

  /** Named calls are closed onto their own index only. */
  lemma NamedClosers(beats: seq<Beat>, m: nat, k: nat, i: int)
    requires m <= |beats| && PlacedAt(beats, k, i) && AllNamed(AllFragments(beats, m))
    ensures Closers(beats, m, k) ==
            if LastId(AllFragments(beats, m), i).Some? && !ShutBefore(beats, m, i) then {i} else {}
  {
    var fs := AllFragments(beats, m);
    forall j ensures j in Closers(beats, m, k) <==> j == i && LastId(fs, i).Some? && !ShutBefore(beats, m, i) {
      InIdentified(fs, j);
      ArrivedIsKnown(fs, j);
      ArrivalsDistinct(fs);
      PlaceIsStable(beats, m, k, i);
      if j in ArrivalOrder(fs) {
        SitsIff(ArrivalOrder(fs), j, k);
      }
    }
  }

  lemma {:induction false} NamedHitBy(beats: seq<Beat>, n: nat, k: nat, i: int)
    requires n <= |beats| && PlacedAt(beats, k, i) && NamedWhenClosed(beats)
    ensures HitBy(beats, n, k) == ClosedIn(beats, n, i)
    decreases n
  {
    if n > 0 {
      NamedHitBy(beats, n - 1, k, i);
      if FinishesAt(beats, n) {
        assert ClosesAt(beats, n);
        NamedClosers(beats, n, k, i);
      }
    }
  }

  lemma NamedHit(beats: seq<Beat>, k: nat, i: int)
    requires PlacedAt(beats, k, i) && NamedWhenClosed(beats)
    ensures Hit(beats, k) == ClosedAt(beats, i)
    ensures Hit(beats, k).Some? ==> Closers(beats, Hit(beats, k).value, k) == {i}
  {
    var n := |beats|;
    NamedHitBy(beats, n, k, i);
    if !Finished(beats, n) {
      UnfinishedIsOpen(beats, n, i);
      NothingShut(beats, n, i);
      if n > 0 {
        assert ClosesAt(beats, n);
      }
      NamedClosers(beats, n, k, i);
    } else if ClosedIn(beats, n, i).Some? {
      var m := ClosedIn(beats, n, i).value;
      ClosedInCloses(beats, n, i);
      assert ClosesAt(beats, m);
      NamedClosers(beats, m, k, i);
    }
  }

  lemma {:induction false} ClosedInCloses(beats: seq<Beat>, n: nat, i: int)
    requires n <= |beats| && ClosedIn(beats, n, i).Some?
    ensures var m := ClosedIn(beats, n, i).value;
            0 < m && FinishesAt(beats, m) && LastId(AllFragments(beats, m), i).Some?
    decreases n
  {
    if ClosedIn(beats, n - 1, i).Some? {
      ClosedInCloses(beats, n - 1, i);
    }
  }

  /** If every call with an id has a name whenever calls are closed, no call is disturbed. */
  lemma NamedIsUndisturbed(beats: seq<Beat>, k: nat, i: int)
    requires PlacedAt(beats, k, i) && NamedWhenClosed(beats)
    ensures Undisturbed(beats, k, i)
  {
    NamedHit(beats, k, i);
    if Hit(beats, k).Some? {
      assert Least({i}) == i;
    }
  }

  /** Then each call arrives with its Outcome. */
  lemma CallsKeepArguments(chunks: seq<Chunk>, ids: map<int, Id>)
    requires OwnIds(Beats(chunks), ids) && NamedWhenClosed(Beats(chunks))
    ensures var out := Received(chunks).out;
            forall p: nat, i | Begins(out, p, ids, i) ::
              ChatArgs(out, R.Num(out[p].index)) == Outcome(Beats(chunks), i)
  {
    var out := Received(chunks).out;
    forall p: nat, i | Begins(out, p, ids, i)
      ensures ChatArgs(out, R.Num(out[p].index)) == Outcome(Beats(chunks), i)
    {
      CallArrives(chunks, ids, p, i);
      NamedIsUndisturbed(Beats(chunks), out[p].index, i);
      OutcomeIff(Beats(chunks), out[p].index, i);
    }
  }

  // ---- streams closed once, with nameless calls ----

  /** No call fragment counts after a beat that finishes. */
  ghost predicate CallsPrecedeFinish(beats: seq<Beat>) {
    forall p, q | 0 <= p < q < |beats| && beats[p].finish :: beats[q].frags == []
  }

  /** The calls whose whole arguments go to one Chat index. */
  ghost function Claimants(fs: seq<Fragment>, k: nat): set<int> {
    set i | i in Identified(fs) && Lands(ArrivalOrder(fs), i) == k
  }

  /** What a stream closed once leaves at a Chat index. */
  ghost function Final(fs: seq<Fragment>, k: nat): string {
    if LateOn(fs, k) != "" then LateOn(fs, k)
    else if Claimants(fs, k) == {} then ""
    else OrEmptyObject(All(fs, Least(Claimants(fs, k))))
  }

  lemma {:induction false} FragmentsStop(beats: seq<Beat>, m: nat, q: nat)
    requires CallsPrecedeFinish(beats) && 0 < m <= q <= |beats| && FinishesAt(beats, m)
    ensures AllFragments(beats, q) == AllFragments(beats, m)
    decreases q
  {
    if m < q {
      FragmentsStop(beats, m, q - 1);
    }
  }

  lemma {:induction false} StaysShut(beats: seq<Beat>, m: nat, q: nat, i: int)
    requires m <= q <= |beats| && ClosedIn(beats, m, i).Some?
    ensures ClosedIn(beats, q, i).Some?
    decreases q
  {
    if m < q {
      StaysShut(beats, m, q - 1, i);
    }
  }

  lemma NoLaterClosers(beats: seq<Beat>, m: nat, q: nat, k: nat)
    requires CallsPrecedeFinish(beats) && 0 < m < q <= |beats| && FinishesAt(beats, m)
    ensures Closers(beats, q, k) == {}
  {
    FragmentsStop(beats, m, q);
    forall i | i in Identified(AllFragments(beats, q)) ensures ShutBefore(beats, q, i) {
      InIdentified(AllFragments(beats, m), i);
      StaysShut(beats, m, q - 1, i);
    }
  }

  lemma {:induction false} SameHit(beats: seq<Beat>, m: nat, q: nat, k: nat)
    requires CallsPrecedeFinish(beats) && 0 < m <= q <= |beats| && FinishesAt(beats, m)
    ensures HitBy(beats, q, k) == HitBy(beats, m, k)
    decreases q
  {
    if m < q {
      SameHit(beats, m, q - 1, k);
      NoLaterClosers(beats, m, q, k);
    }
  }

  lemma {:induction false} NoHit(beats: seq<Beat>, n: nat, k: nat)
    requires n <= |beats| && !Finished(beats, n)
    ensures HitBy(beats, n, k) == None
    decreases n
  {
    if n > 0 {
      FinishedNext(beats, n);
      NoHit(beats, n - 1, k);
    }
  }

  lemma FirstClosers(beats: seq<Beat>, m: nat, k: nat)
    requires m <= |beats| && (m == 0 || !Finished(beats, m - 1))
    ensures Closers(beats, m, k) == Claimants(AllFragments(beats, m), k)
  {
    forall i ensures !ShutBefore(beats, m, i) {
      if m > 0 {
        UnfinishedIsOpen(beats, m - 1, i);
      }
    }
  }

  lemma {:induction false} UpToFinishIs(beats: seq<Beat>, n: nat)
    requires n <= |beats| && Finished(beats, n)
    ensures var m := UpToFinish(beats, n); 0 < m && FinishesAt(beats, m) && !Finished(beats, m - 1)
    decreases n
  {
    if n > 0 {
      FinishedNext(beats, n);
      if Finished(beats, n - 1) {
        UpToFinishIs(beats, n - 1);
      }
    }
  }

  /** The one closing, if it closes a call onto the index, is the hit. */
  ghost predicate HitOnce(beats: seq<Beat>, m: nat, k: nat)
    requires m <= |beats|
  {
    var fs := Fragments(beats);
    && AllFragments(beats, m) == fs && Closers(beats, m, k) == Claimants(fs, k)
    && Hit(beats, k) == if Claimants(fs, k) != {} then Some(m) else None
  }

  lemma FinishedHit(beats: seq<Beat>, k: nat)
    requires CallsPrecedeFinish(beats) && Finished(beats, |beats|)
    ensures HitOnce(beats, UpToFinish(beats, |beats|), k)
  {
    var n := |beats|;
    UpToFinishIs(beats, n);
    var m := UpToFinish(beats, n);
    FragmentsStop(beats, m, n);
    FirstClosers(beats, m, k);
    FirstHit(beats, m, k);
    SameHit(beats, m, n, k);
  }

  lemma FirstHit(beats: seq<Beat>, m: nat, k: nat)
    requires 0 < m <= |beats| && FinishesAt(beats, m) && !Finished(beats, m - 1)
    ensures HitBy(beats, m, k) == if Closers(beats, m, k) != {} then Some(m) else None
  {
    NoHit(beats, m - 1, k);
  }

  lemma UnfinishedHit(beats: seq<Beat>, k: nat)
    requires !Finished(beats, |beats|)
    ensures HitOnce(beats, |beats|, k)
  {
    var n := |beats|;
    if n > 0 {
      FinishedNext(beats, n);
    }
    FirstClosers(beats, n, k);
    NoHit(beats, n, k);
  }

  lemma OnceHit(beats: seq<Beat>, k: nat)
    requires CallsPrecedeFinish(beats)
    ensures HitOnce(beats, UpToFinish(beats, |beats|), k)
  {
    if Finished(beats, |beats|) {
      FinishedHit(beats, k);
    } else {
      UnfinishedCounts(beats, |beats|);
      UnfinishedHit(beats, k);
    }
  }

  lemma ArrivingOnce(beats: seq<Beat>, k: nat)
    requires CallsPrecedeFinish(beats)
    ensures Arriving(beats, k) == Final(Fragments(beats), k)
  {
    ArrivingIs(beats, k);
    WholeOnce(beats, k);
    var whole, late := WholeOn(beats, Hit(beats, k), k), LateOn(Fragments(beats), k);
    assert late == "" ==> whole + late == whole;
    assert whole == "" ==> whole + late == late;
  }

  lemma WholeOnce(beats: seq<Beat>, k: nat)
    requires CallsPrecedeFinish(beats)
    ensures var fs := Fragments(beats);
            WholeOn(beats, Hit(beats, k), k) == if LateOn(fs, k) == "" then Final(fs, k) else ""
  {
    OnceHit(beats, k);
  }

  /** The late fragments if there are any, otherwise all of them, "{}" for none. */
  ghost function Carried(fs: seq<Fragment>, i: int): string {
    if Late(fs, i) != "" then Late(fs, i) else OrEmptyObject(All(fs, i))
  }

  /** That is everything exactly if the fragments do not straddle the arrival of id and name. */
  lemma CarriedIff(fs: seq<Fragment>, i: int)
    ensures Carried(fs, i) == OrEmptyObject(All(fs, i)) <==> Early(fs, i) == "" || Late(fs, i) == ""
  {
    EarlyThenLate(fs, i);
    ConcatIff(Early(fs, i), Late(fs, i), "");
  }

  /** The calls that have an id and no name. */
  ghost function Nameless(fs: seq<Fragment>): set<int> {
    set i | i in Identified(fs) && LastName(fs, i).None?
  }

  lemma NamelessIff(fs: seq<Fragment>, i: int)
    ensures i in Nameless(fs) <==> i in Identified(fs) && i !in ArrivalOrder(fs)
  {
    InIdentified(fs, i);
    ArrivedIsKnown(fs, i);
  }

  /** The call is the last to have arrived, nothing was streamed for it, and a nameless call has a smaller index. */
  ghost predicate Displaced(fs: seq<Fragment>, i: int) {
    var order := ArrivalOrder(fs);
    order != [] && i == order[|order| - 1] && Late(fs, i) == "" && Nameless(fs) != {} && Least(Nameless(fs)) < i
  }

  lemma ClaimantsAre(fs: seq<Fragment>, n: nat, k: int)
    ensures var order := ArrivalOrder(fs);
            k in Claimants(fs, n) <==>
            (n < |order| && k == order[n]) || (k in Nameless(fs) && n == if order == [] then 0 else |order| - 1)
  {
    var order := ArrivalOrder(fs);
    ArrivalsDistinct(fs);
    NamelessIff(fs, k);
    InIdentified(fs, k);
    ArrivedIsKnown(fs, k);
  }

  lemma FinalOfCall(fs: seq<Fragment>, n: nat)
    requires n < |ArrivalOrder(fs)|
    ensures var i := ArrivalOrder(fs)[n];
            Final(fs, n) == if Displaced(fs, i) then OrEmptyObject(All(fs, Least(Nameless(fs)))) else Carried(fs, i)
  {
    var order := ArrivalOrder(fs);
    var i, last, who := order[n], n == |order| - 1, Claimants(fs, n);
    ArrivalsDistinct(fs);
    forall k ensures k in who <==> k == i || (k in Nameless(fs) && last) {
      ClaimantsAre(fs, n, k);
    }
    assert i in who;
    if last && Nameless(fs) != {} {
      var u := Least(Nameless(fs));
      assert u in who && Least(who) == if u < i then u else i;
    } else {
      assert Least(who) == i;
    }
  }

  /** Beyond the calls that arrived there is nothing, except on index 0 if none arrived. */
  lemma FinalElsewhere(fs: seq<Fragment>, n: nat)
    requires n >= |ArrivalOrder(fs)|
    ensures Final(fs, n) == if ArrivalOrder(fs) == [] && n == 0 && Nameless(fs) != {}
                            then OrEmptyObject(All(fs, Least(Nameless(fs)))) else ""
  {
    var who := Claimants(fs, n);
    forall k ensures k in who <==> k in Nameless(fs) && ArrivalOrder(fs) == [] && n == 0 {
      ClaimantsAre(fs, n, k);
    }
    if ArrivalOrder(fs) == [] && n == 0 {
      assert who == Nameless(fs);
    } else {
      assert who == {};
    }
  }

  /** What a displaced call gets, or keeps otherwise. */
  ghost function OnceArrival(fs: seq<Fragment>, i: int): string {
    if Displaced(fs, i) then OrEmptyObject(All(fs, Least(Nameless(fs)))) else Carried(fs, i)
  }

  lemma CallArrivesOnce(chunks: seq<Chunk>, ids: map<int, Id>, p: nat, i: int)
    requires OwnIds(Beats(chunks), ids) && CallsPrecedeFinish(Beats(chunks)) && Begins(Received(chunks).out, p, ids, i)
    ensures var out := Received(chunks).out;
            ChatArgs(out, R.Num(out[p].index)) == OnceArrival(Fragments(Beats(chunks)), i)
  {
    IndexesCarry(chunks, ids);
    var k := Received(chunks).out[p].index;
    assert PlacedAt(Beats(chunks), k, i);
    ArrivingOnce(Beats(chunks), k);
    FinalOfCall(Fragments(Beats(chunks)), k);
  }

  lemma ElsewhereOnce(chunks: seq<Chunk>, ids: map<int, Id>, n: nat)
    requires OwnIds(Beats(chunks), ids) && CallsPrecedeFinish(Beats(chunks)) && n >= |Starts(Received(chunks).out)|
    ensures var out, fs := Received(chunks).out, Fragments(Beats(chunks));
            ChatArgs(out, R.Num(n)) == if Starts(out) == [] && n == 0 && Nameless(fs) != {}
                                       then OrEmptyObject(All(fs, Least(Nameless(fs)))) else ""
  {
    IndexesCarry(chunks, ids);
    StartsSurvive(chunks);
    ArrivalsMatch(Fragments(Beats(chunks)));
    ArrivingOnce(Beats(chunks), n);
    FinalElsewhere(Fragments(Beats(chunks)), n);
  }

  /**
   * With every call fragment before the finish, named or not: each started call arrives with Carried, except that the
   * last one to arrive gets the least nameless call's arguments if it is displaced. No other index carries anything,
   * but if no call is started at all, index 0 carries the least nameless call's arguments.
   */
  lemma NamelessDisplace(chunks: seq<Chunk>, ids: map<int, Id>)
    requires OwnIds(Beats(chunks), ids) && CallsPrecedeFinish(Beats(chunks))
    ensures var out, fs := Received(chunks).out, Fragments(Beats(chunks));
            && (forall p: nat, i | Begins(out, p, ids, i) ::
                  ChatArgs(out, R.Num(out[p].index)) == OnceArrival(fs, i))
            && (forall n: nat | n >= |Starts(out)| :: ChatArgs(out, R.Num(n)) ==
                  if Starts(out) == [] && n == 0 && Nameless(fs) != {}
                  then OrEmptyObject(All(fs, Least(Nameless(fs)))) else "")
  {
    var out, fs := Received(chunks).out, Fragments(Beats(chunks));
    forall p: nat, i | Begins(out, p, ids, i) ensures ChatArgs(out, R.Num(out[p].index)) == OnceArrival(fs, i) {
      CallArrivesOnce(chunks, ids, p, i);
    }
    forall n: nat | n >= |Starts(out)|
      ensures ChatArgs(out, R.Num(n)) ==
              if Starts(out) == [] && n == 0 && Nameless(fs) != {}
              then OrEmptyObject(All(fs, Least(Nameless(fs)))) else ""
    {
      ElsewhereOnce(chunks, ids, n);
    }
  }

  /**
   * So, with every call fragment before the finish, a started call arrives with its own arguments exactly if it is not
   * the last to arrive, or something was streamed for it, or no nameless call has a smaller index, or the least
   * nameless call has the same arguments.
   */
  lemma OwnArgumentsOnceIff(chunks: seq<Chunk>, ids: map<int, Id>)
    requires OwnIds(Beats(chunks), ids) && CallsPrecedeFinish(Beats(chunks))
    ensures var out, fs := Received(chunks).out, Fragments(Beats(chunks));
            forall p: nat, i | Begins(out, p, ids, i) ::
              ChatArgs(out, R.Num(out[p].index)) == Carried(fs, i) <==>
              !Displaced(fs, i) || OrEmptyObject(All(fs, Least(Nameless(fs)))) == OrEmptyObject(All(fs, i))
  {
    var out, fs := Received(chunks).out, Fragments(Beats(chunks));
    forall p: nat, i | Begins(out, p, ids, i)
      ensures ChatArgs(out, R.Num(out[p].index)) == Carried(fs, i) <==>
              !Displaced(fs, i) || OrEmptyObject(All(fs, Least(Nameless(fs)))) == OrEmptyObject(All(fs, i))
    {
      CallArrivesOnce(chunks, ids, p, i);
    }
  }

  /** Without nameless calls, all of a call's arguments arrive exactly if they do not straddle its id and name. */
  lemma StraddleIff(chunks: seq<Chunk>, ids: map<int, Id>)
    requires OwnIds(Beats(chunks), ids) && CallsPrecedeFinish(Beats(chunks)) && AllNamed(Fragments(Beats(chunks)))
    ensures var out, fs := Received(chunks).out, Fragments(Beats(chunks));
            forall p: nat, i | Begins(out, p, ids, i) ::
              ChatArgs(out, R.Num(out[p].index)) == OrEmptyObject(All(fs, i)) <==>
              Early(fs, i) == "" || Late(fs, i) == ""
  {
    var out, fs := Received(chunks).out, Fragments(Beats(chunks));
    NoneNameless(fs);
    forall p: nat, i | Begins(out, p, ids, i)
      ensures ChatArgs(out, R.Num(out[p].index)) == OrEmptyObject(All(fs, i)) <==>
              Early(fs, i) == "" || Late(fs, i) == ""
    {
      CallArrivesOnce(chunks, ids, p, i);
      CarriedIff(fs, i);
    }
  }

  lemma NoneNameless(fs: seq<Fragment>)
    requires AllNamed(fs)
    ensures Nameless(fs) == {}
  {
    forall k ensures k !in Nameless(fs) {
      InIdentified(fs, k);
    }
  }

  // ---- examples ----

  /** A fragment ahead of its call's id and name is lost when another follows. */
  lemma StraddlingLosesArguments(a: Id, f: Id)
    ensures var chunks := [Chunk(0, "", "", [Fragment(0, None, None, "[")], false),
                           Chunk(0, "", "", [Fragment(0, Some(a), Some(f), "]")], true)];
            var out := Received(chunks).out;
            Starts(out) == [Call(a, f.text)] && ChatArgs(out, R.Num(0)) == "]"
  {
    var g, h := Fragment(0, None, None, "["), Fragment(0, Some(a), Some(f), "]");
    Straddling([Chunk(0, "", "", [g], false), Chunk(0, "", "", [h], true)], g, h, 0);
  }

  lemma Straddling(chunks: seq<Chunk>, g: Fragment, h: Fragment, k: nat)
    requires k == 0 && chunks == [Chunk(k, "", "", [g], false), Chunk(k, "", "", [h], true)]
    requires g.index == h.index == k && g.id.None? && g.name.None? && h.id.Some? && h.name.Some? && h.args != ""
    ensures var out := Received(chunks).out;
            Starts(out) == [Call(h.id.value, h.name.value.text)] && ChatArgs(out, R.Num(k)) == h.args
  {
    var beats := [Beat([g], false), Beat([h], true)];
    UnwrittenBeats(chunks);
    assert Beats(chunks) == beats;
    StraddlingBeats(beats, g, h);
    StraddlingFragments(g, h);
    assert Stable([g] + [h], map[k := h.id.value]);
    ComesOut(chunks, [g] + [h], map[k := h.id.value], k);
  }

  /** What a stream starts, and carries at one index. */
  lemma ComesOut(chunks: seq<Chunk>, fs: seq<Fragment>, ids: map<int, Id>, k: nat)
    requires Fragments(Beats(chunks)) == fs && Stable(fs, ids) && Separate(ids)
    ensures var out := Received(chunks).out;
            Starts(out) == Arrivals(fs) && ChatArgs(out, R.Num(k)) == Arriving(Beats(chunks), k)
  {
    StartsSurvive(chunks);
    IndexesCarry(chunks, ids);
  }

  lemma StraddlingBeats(beats: seq<Beat>, g: Fragment, h: Fragment)
    requires |beats| == 2 && beats[0] == Beat([g], false) && beats[1] == Beat([h], true)
    requires g.index == h.index == 0 && g.id.None? && g.name.None? && h.id.Some? && h.name.Some? && h.args != ""
    ensures Fragments(beats) == [g] + [h] && Arriving(beats, 0) == h.args
  {
    TwoBeats(beats, g, h);
    StraddlingFragments(g, h);
    ArrivingOnce(beats, 0);
  }

  lemma TwoBeats(beats: seq<Beat>, g: Fragment, h: Fragment)
    requires |beats| == 2 && beats[0].frags == [g] && beats[1].frags == [h]
    ensures AllFragments(beats, 1) == [g] && Fragments(beats) == [g] + [h]
  {
    assert AllFragments(beats, 1) == AllFragments(beats, 0) + [g] == [g];
    assert AllFragments(beats, 2) == [g] + [h];
  }

  lemma StraddlingFragments(g: Fragment, h: Fragment)
    requires g.index == h.index == 0 && g.id.None? && g.name.None? && h.id.Some? && h.name.Some? && h.args != ""
    ensures var fs := [g] + [h];
            Arrivals(fs) == [Call(h.id.value, h.name.value.text)] && LateOn(fs, 0) == h.args
  {
    var fs := [g] + [h];
    assert [] + [g] == [g];
    FragSnoc([], g, 0);
    FragSnoc([g], h, 0);
    ArrivalSnoc([], g);
    ArrivalSnoc([g], h);
    LateOnSnoc([], g, 0);
    LateOnSnoc([g], h, 0);
  }

  /**
   * A nameless call with a smaller index displaces a call for which nothing was streamed; if something was, the
   * nameless call's arguments come out nowhere.
   */
  lemma NamelessCallMisdelivers(c: Id, d: Id, f: Id, mine: string, theirs: string)
    requires c != d && theirs != ""
    ensures var calls := [Fragment(1, Some(d), Some(f), mine), Fragment(0, Some(c), None, theirs)];
            var out := Received([Chunk(0, "", "", calls, true)]).out;
            && Starts(out) == [Call(d, f.text)]
            && ChatArgs(out, R.Num(0)) == (if mine == "" then theirs else mine)
            && forall n: nat | n > 0 :: ChatArgs(out, R.Num(n)) == ""
  {
    var g, h := Fragment(1, Some(d), Some(f), mine), Fragment(0, Some(c), None, theirs);
    var chunks, beats := [Chunk(0, "", "", [g, h], true)], [Beat([g, h], true)];
    var fs, ids := [g] + [h], map[0 := c, 1 := d];
    UnwrittenBeats(chunks);
    assert Beats(chunks) == beats;
    assert AllFragments(beats, 1) == AllFragments(beats, 0) + [g, h] == fs;
    assert Stable(fs, ids) && Separate(ids);
    TwoFragments(g, h);
    TwoFinal(g, h);
    StartsSurvive(chunks);
    IndexesCarry(chunks, ids);
    forall n: nat ensures ChatArgs(Received(chunks).out, R.Num(n)) == Final(fs, n) {
      ArrivingOnce(beats, n);
    }
  }

  /** A nameless call closed before any call is announced is glued in front of the first call announced later. */
  lemma NamelessCallIsGlued(c: Id, d: Id, f: Id, mine: string, theirs: string)
    requires c != d && theirs != ""
    ensures var chunks := [Chunk(0, "", "", [Fragment(0, Some(c), None, theirs)], true),
                           Chunk(0, "", "", [Fragment(1, Some(d), Some(f), mine)], false)];
            var out := Received(chunks).out;
            Starts(out) == [Call(d, f.text)] && ChatArgs(out, R.Num(0)) == theirs + mine
  {
    var g, h := Fragment(0, Some(c), None, theirs), Fragment(1, Some(d), Some(f), mine);
    var chunks := [Chunk(0, "", "", [g], true), Chunk(0, "", "", [h], false)];
    var beats := [Beat([g], true), Beat([h], false)];
    var ids := map[0 := c, 1 := d];
    UnwrittenBeats(chunks);
    assert Beats(chunks) == beats;
    GluedBeats(beats, g, h);
    NamelessThenNamed(g, h);
    assert Stable([g] + [h], ids) && Separate(ids);
    ComesOut(chunks, [g] + [h], ids, 0);
  }

  /** The nameless call is closed onto index 0 before any call has arrived. */
  lemma GluedHit(beats: seq<Beat>, g: Fragment, h: Fragment)
    requires |beats| == 2 && beats[0] == Beat([g], true) && beats[1] == Beat([h], false)
    requires g.index == 0 && g.id.Some? && g.name.None? && h.index == 1 && h.id.Some? && h.name.Some?
    ensures Hit(beats, 0) == Some(1) && WholeOn(beats, Some(1), 0) == OrEmptyObject(g.args)
  {
    TwoBeats(beats, g, h);
    NamelessThenNamed(g, h);
    assert FinishesAt(beats, 1) && !FinishesAt(beats, 2);
    FirstClosers(beats, 1, 0);
    assert 0 in Claimants([g], 0) && Least(Claimants([g], 0)) == 0;
    FirstHit(beats, 1, 0);
    assert HitBy(beats, 2, 0) == HitBy(beats, 1, 0);
  }

  lemma GluedBeats(beats: seq<Beat>, g: Fragment, h: Fragment)
    requires |beats| == 2 && beats[0] == Beat([g], true) && beats[1] == Beat([h], false)
    requires g.index == 0 && g.id.Some? && g.name.None? && h.index == 1 && h.id.Some? && h.name.Some?
    ensures Fragments(beats) == [g] + [h] && Arriving(beats, 0) == OrEmptyObject(g.args) + h.args
  {
    GluedHit(beats, g, h);
    TwoBeats(beats, g, h);
    NamelessThenNamed(g, h);
    ArrivingIs(beats, 0);
  }

  lemma NamelessThenNamed(g: Fragment, h: Fragment)
    requires g.index == 0 && g.id.Some? && g.name.None? && h.index == 1 && h.id.Some? && h.name.Some?
    ensures ArrivalOrder([g]) == [] && All([g], 0) == g.args && Identified([g]) == {0} && LateOn([g], 0) == ""
    ensures var fs := [g] + [h];
            Arrivals(fs) == [Call(h.id.value, h.name.value.text)] && LateOn(fs, 0) == h.args
  {
    var fs := [g] + [h];
    assert [] + [g] == [g];
    FragSnoc([], g, 0);
    FragSnoc([], g, 1);
    FragSnoc([g], h, 1);
    ArrivalSnoc([], g);
    ArrivalSnoc([g], h);
    forall k ensures k in Identified([g]) <==> k == 0 {
      InIdentified([g], k);
      FragSnoc([], g, k);
    }
  }

  lemma TwoFinal(g: Fragment, h: Fragment)
    requires g.index == 1 && g.id.Some? && g.name.Some? && h.index == 0 && h.id.Some? && h.name.None? && h.args != ""
    ensures var fs := [g] + [h];
            Final(fs, 0) == (if g.args == "" then h.args else g.args) && forall n: nat | n > 0 :: Final(fs, n) == ""
  {
    var fs := [g] + [h];
    TwoFragments(g, h);
    assert Least(Nameless(fs)) == 0;
    FinalOfCall(fs, 0);
    forall n: nat | n > 0 ensures Final(fs, n) == "" {
      FinalElsewhere(fs, n);
    }
  }

  lemma TwoFragments(g: Fragment, h: Fragment)
    requires g.index == 1 && g.id.Some? && g.name.Some? && h.index == 0 && h.id.Some? && h.name.None?
    ensures var fs := [g] + [h];
            && ArrivalOrder(fs) == [1] && Arrivals(fs) == [Call(g.id.value, g.name.value.text)]
            && Late(fs, 1) == g.args && All(fs, 1) == g.args && All(fs, 0) == h.args && Nameless(fs) == {0}
  {
    var fs := [g] + [h];
    assert [] + [g] == [g];
    FragSnoc([], g, 1);
    FragSnoc([g], h, 1);
    FragSnoc([], g, 0);
    FragSnoc([g], h, 0);
    ArrivalSnoc([], g);
    ArrivalSnoc([g], h);
    forall k ensures k in Nameless(fs) <==> k == 0 {
      InIdentified(fs, k);
      FragSnoc([], g, k);
      FragSnoc([g], h, k);
    }
  }
}
