/** Every chunk the Chat side writes, read off the events without counters or maps. */
module ChatOutput {
  import opened Config
  import opened ResponsesToChat

  // ---- read off the events and what was written for those before ----

  /** The response is over: it was completed, or failed with an error, among the first n events. */
  ghost predicate OverBy(evs: seq<Event>, n: nat)
    requires n <= |evs|
  {
    exists i | 0 <= i < n :: evs[i].Completed? || (evs[i].Failed? && evs[i].error.Some?)
  }

  ghost predicate CalledBy(evs: seq<Event>, n: nat)
    requires n <= |evs|
  {
    exists i | 0 <= i < n :: evs[i].ItemAdded? && evs[i].call
  }

  /** The place of an announced call, or of the one announced last for the first time. */
  ghost function PlaceIn(order: seq<Id>, key: Option<Id>): nat {
    if key.Some? && key.value in order then Place(order, key.value) else if order == [] then 0 else |order| - 1
  }

  ghost function Named(key: Option<Id>): Option<Id> { if Truthy(key) then key else None }

  /** The index a finished call goes by; a key that is there but blank is used as it is. */
  ghost function DoneAt(order: seq<Id>, item: Option<Id>, outer: Option<Id>): Index {
    var key := if Truthy(item) then item else outer;
    if key.Some? && key.value.text == "" then Raw(key.value) else Num(PlaceIn(order, key))
  }

  ghost function FirstNamed(keys: seq<Option<Id>>, otherwise: Id): Id {
    if keys == [] then otherwise
    else if keys[0].Some? && keys[0].value.text != "" then keys[0].value
    else FirstNamed(keys[1..], otherwise)
  }

  /** A call goes by the first of its names that is not blank: the item's, the event's, the call's, or one made up. */
  lemma KeysAre(e: Event)
    requires e.ItemAdded?
    ensures CallIdOf(e) == FirstNamed([e.callId], e.fallback)
    ensures KeyOf(e) == FirstNamed([e.itemId, e.outerId, e.callId], e.fallback)
  {
    assert [e.itemId, e.outerId, e.callId][1..] == [e.outerId, e.callId];
    assert [e.outerId, e.callId][1..] == [e.callId];
  }

  ghost predicate ArgsAt(out: seq<Chunk>, at: Index) { exists p | 0 <= p < |out| :: out[p].Args? && out[p].at == at }

  ghost function FinishBy(evs: seq<Event>, n: nat): Chunk
    requires n <= |evs|
  {
    Finish(if CalledBy(evs, n) then ToolCalls else Stop)
  }

  /** What the n-th event is answered with. */
  ghost function Answer(evs: seq<Event>, n: nat, out: seq<Chunk>): seq<Chunk>
    requires 0 < n <= |evs|
  {
    match evs[n - 1]
    case TextDelta(d) => if d == "" then [] else [Text(d)]
    case ReasoningDelta(d) => if d == "" then [] else [Thought(d)]
    case ItemAdded(call, _, _, _, name, _) =>
      if call then [CallStart(PlaceIn(Order(evs, n), Some(KeyOf(evs[n - 1]))), CallIdOf(evs[n - 1]), name)] else []
    case ArgsDelta(item, d) => if d == "" then [] else [Args(Num(PlaceIn(Order(evs, n - 1), Named(item))), d, false)]
    case ItemDone(call, item, outer, args) =>
      var at := DoneAt(Order(evs, n - 1), item, outer);
      if !call || args == "" || ArgsAt(out, at) then [] else [Args(at, args, true)]
    case Completed => if OverBy(evs, n - 1) then [] else [FinishBy(evs, n - 1)]
    case Failed(error) => if OverBy(evs, n - 1) || error.None? then [] else [Error(error.value)]
    case Other => []
  }

  ghost function Answers(evs: seq<Event>, n: nat): seq<Chunk>
    requires n <= |evs|
  {
    if n == 0 then [] else Answers(evs, n - 1) + Answer(evs, n, Answers(evs, n - 1))
  }

  // ---- the state is what it should be, and so is the output ----

  ghost predicate Emitted(s: State) { forall at | at in s.emitted :: ArgsAt(s.out, at) }

  ghost predicate UpTo(s: State, evs: seq<Event>, n: nat)
    requires n <= |evs|
  {
    && Dense(s, Order(evs, n)) && Accounted(s) && Emitted(s)
    && (s.finished <==> OverBy(evs, n))
    && (s.calls > 0 <==> CalledBy(evs, n))
  }

  lemma IndexIsPlace(s: State, order: seq<Id>, key: Option<Id>)
    requires Dense(s, order)
    ensures PlaceIn(order, key) == if key.Some? && key.value in s.index then s.index[key.value] else Last(s)
  {
    if key.Some? && key.value in s.index {
      DensePlace(s, order, key.value);
    }
  }

  lemma ArgsAtIff(s: State, at: Index)
    requires Accounted(s) && Emitted(s)
    ensures ArgsAt(s.out, at) <==> at in s.emitted
  {
  }

  lemma BegunUpTo(s: State, evs: seq<Event>, n: nat)
    requires n <= |evs| && UpTo(s, evs, n)
    ensures UpTo(Begin(s), evs, n) && Begin(s).out == s.out
  {
  }

  lemma AddedAnswer(s: State, evs: seq<Event>, n: nat)
    requires 0 < n <= |evs| && evs[n - 1].ItemAdded? && Dense(s, Order(evs, n - 1))
    ensures OnAdded(s, evs[n - 1]).out == s.out + Answer(evs, n, s.out)
  {
    var e := evs[n - 1];
    if e.call {
      DenseNext(s, Order(evs, n - 1), Order(evs, n), e);
      IndexIsPlace(OnAdded(s, e), Order(evs, n), Some(KeyOf(e)));
    }
  }

  lemma DenseNext(s: State, order: seq<Id>, more: seq<Id>, e: Event)
    requires e.ItemAdded? && e.call && Dense(s, order)
    requires more == if KeyOf(e) !in order then order + [KeyOf(e)] else order
    ensures Dense(OnAdded(s, e), more)
  {
    if KeyOf(e) in order {
      var j :| 0 <= j < |order| && order[j] == KeyOf(e);
      assert KeyOf(e) in s.index;
    }
  }

  lemma ArgsAnswer(s: State, evs: seq<Event>, n: nat)
    requires 0 < n <= |evs| && evs[n - 1].ArgsDelta? && Dense(s, Order(evs, n - 1))
    ensures OnArgs(s, evs[n - 1].item, evs[n - 1].delta).out == s.out + Answer(evs, n, s.out)
  {
    IndexIsPlace(s, Order(evs, n - 1), Named(evs[n - 1].item));
  }

  lemma DoneAnswer(s: State, evs: seq<Event>, n: nat)
    requires 0 < n <= |evs| && evs[n - 1].ItemDone? && Dense(s, Order(evs, n - 1)) && Accounted(s) && Emitted(s)
    ensures OnDone(s, evs[n - 1]).out == s.out + Answer(evs, n, s.out)
  {
    var e := evs[n - 1];
    IndexIsPlace(s, Order(evs, n - 1), if Truthy(e.itemId) then e.itemId else e.outerId);
    ArgsAtIff(s, DoneIndex(s, e.itemId, e.outerId));
  }

  /** An event is answered as the events before it call for. */
  lemma ConvertAnswers(s0: State, evs: seq<Event>, n: nat)
    requires 0 < n <= |evs| && UpTo(s0, evs, n - 1)
    ensures Convert(s0, evs[n - 1]).out == s0.out + Answer(evs, n, s0.out)
  {
    var s, e := Begin(s0), evs[n - 1];
    BegunUpTo(s0, evs, n - 1);
    match e
    case ItemAdded(_, _, _, _, _, _) => AddedAnswer(s, evs, n);
    case ArgsDelta(_, _) => ArgsAnswer(s, evs, n);
    case ItemDone(_, _, _, _) => DoneAnswer(s, evs, n);
    case Completed =>
      if !s.finished {
        OverNext(evs, n);
        assert FinishBy(evs, n) == Finish(FinishReason(s));
      }
    case _ =>
  }

  lemma OverNext(evs: seq<Event>, n: nat)
    requires 0 < n <= |evs|
    ensures var e := evs[n - 1];
            && (OverBy(evs, n) <==> OverBy(evs, n - 1) || e.Completed? || (e.Failed? && e.error.Some?))
            && (CalledBy(evs, n) <==> CalledBy(evs, n - 1) || (e.ItemAdded? && e.call))
  {
  }

  lemma EmittedGrows(s: State, c: Chunk)
    requires Emitted(s)
    ensures Emitted(Emit(if c.Args? then s.(emitted := s.emitted + {c.at}) else s, c))
  {
    var t := Emit(if c.Args? then s.(emitted := s.emitted + {c.at}) else s, c);
    forall at | at in t.emitted ensures ArgsAt(t.out, at) {
      if at in s.emitted {
        var p :| 0 <= p < |s.out| && s.out[p].Args? && s.out[p].at == at;
        assert t.out[p] == s.out[p];
      } else {
        assert t.out[|s.out|] == c;
      }
    }
  }

  lemma EmittedNext(s0: State, e: Event)
    requires Emitted(s0)
    ensures Emitted(Convert(s0, e))
  {
    var s, t := Begin(s0), Convert(s0, e);
    if t.out != s.out {
      var c := t.out[|s.out|];
      EmittedGrows(s, c);
    }
  }

  lemma FlagsNext(s: State, order: seq<Id>, e: Event)
    requires Dense(s, order) && Accounted(s)
    ensures var t := Convert(s, e);
            && (t.finished <==> s.finished || e.Completed? || (e.Failed? && e.error.Some?))
            && (t.calls > 0 <==> s.calls > 0 || (e.ItemAdded? && e.call))
  {
  }

  lemma UpToNext(s: State, evs: seq<Event>, n: nat)
    requires 0 < n <= |evs| && UpTo(s, evs, n - 1)
    ensures UpTo(Convert(s, evs[n - 1]), evs, n)
  {
    var e, t := evs[n - 1], Convert(s, evs[n - 1]);
    FlagsNext(s, Order(evs, n - 1), e);
    OverNext(evs, n);
    assert Dense(t, Order(evs, n)) && Accounted(t) by {
      NextAccounted(s, Order(evs, n - 1), e);
    }
    EmittedNext(s, e);
  }

  lemma {:induction false} RunUpTo(evs: seq<Event>, n: nat)
    requires n <= |evs|
    ensures UpTo(Run(evs, n), evs, n)
  {
    if n > 0 {
      RunUpTo(evs, n - 1);
      UpToNext(Run(evs, n - 1), evs, n);
    }
  }

  lemma {:induction false} RunAnswers(evs: seq<Event>, n: nat)
    requires n <= |evs|
    ensures Run(evs, n).out == Answers(evs, n)
  {
    if n > 0 {
      RunAnswers(evs, n - 1);
      RunUpTo(evs, n - 1);
      ConvertAnswers(Run(evs, n - 1), evs, n);
    }
  }

  /**
   * For every event sequence: each event is answered as its own content and the events before it call for, and the
   * flush finishes a stream with events that nothing finished.
   */
  lemma OutputIs(evs: seq<Event>)
    ensures Flush(Run(evs, |evs|)).out ==
            Answers(evs, |evs|) + if evs == [] || OverBy(evs, |evs|) then [] else [FinishBy(evs, |evs|)]
  {
    RunAnswers(evs, |evs|);
    RunUpTo(evs, |evs|);
    RunAccounted(evs, |evs|);
  }

  // ---- how a stream ends ----

  ghost function Endings(out: seq<Chunk>): seq<Chunk> {
    if out == [] then []
    else
      var c := out[|out| - 1];
      Endings(out[..|out| - 1]) + if IsFinish(c) then [c] else []
  }

  lemma {:induction false} EndingsJoin(a: seq<Chunk>, b: seq<Chunk>)
    ensures Endings(a + b) == Endings(a) + Endings(b)
  {
    if b == [] {
      assert a + b == a;
    } else {
      var n := |b| - 1;
      EndingsJoin(a, b[..n]);
      assert (a + b)[..|a + b| - 1] == a + b[..n];
    }
  }

  /** The event that ends the response, among the first n: the first completion, or the first failure with an error. */
  ghost function EndedAt(evs: seq<Event>, n: nat): (k: nat)
    requires n <= |evs|
    ensures k <= n && (k == 0 <==> !OverBy(evs, n))
    ensures k > 0 ==> (evs[k - 1].Completed? || (evs[k - 1].Failed? && evs[k - 1].error.Some?)) && !OverBy(evs, k - 1)
  {
    if n == 0 then 0
    else
      OverNext(evs, n);
      if OverBy(evs, n - 1) then EndedAt(evs, n - 1) else if OverBy(evs, n) then n else 0
  }

  ghost function EndingAt(evs: seq<Event>, k: nat): Chunk
    requires 0 < k <= |evs| && (evs[k - 1].Completed? || (evs[k - 1].Failed? && evs[k - 1].error.Some?))
  {
    if evs[k - 1].Completed? then FinishBy(evs, k) else Error(evs[k - 1].error.value)
  }

  lemma AnswerShape(evs: seq<Event>, n: nat, out: seq<Chunk>)
    requires 0 < n <= |evs|
    ensures var a, e := Answer(evs, n, out), evs[n - 1];
            && |a| <= 1
            && (a != [] && IsFinish(a[0]) <==> !OverBy(evs, n - 1) && (e.Completed? || (e.Failed? && e.error.Some?)))
            && (a != [] && IsFinish(a[0]) ==>
                  a[0] == if e.Completed? then FinishBy(evs, n) else Error(e.error.value))
  {
  }

  lemma AnswerEndings(evs: seq<Event>, n: nat, out: seq<Chunk>)
    requires 0 < n <= |evs|
    ensures var a := Answer(evs, n, out);
            Endings(a) == if !OverBy(evs, n - 1) && OverBy(evs, n) then [EndingAt(evs, n)] else []
  {
    AnswerShape(evs, n, out);
    OverNext(evs, n);
    EndingsFew(Answer(evs, n, out));
  }

  lemma EndingsFew(a: seq<Chunk>)
    requires |a| <= 1
    ensures Endings(a) == if a != [] && IsFinish(a[0]) then a else []
  {
    if a != [] {
      assert a == [a[0]];
      EndingOf(a[0]);
    }
  }

  lemma EndingOf(c: Chunk)
    ensures Endings([c]) == if IsFinish(c) then [c] else []
  {
    assert [c][..0] == [];
  }

  /** The chunk that ends the response, if one of the first n events does. */
  ghost function EndingBy(evs: seq<Event>, n: nat): seq<Chunk>
    requires n <= |evs|
  {
    var k := EndedAt(evs, n);
    if k > 0 then [EndingAt(evs, k)] else []
  }

  lemma EndingNext(evs: seq<Event>, n: nat)
    requires 0 < n <= |evs|
    ensures EndingBy(evs, n) ==
            EndingBy(evs, n - 1) + if !OverBy(evs, n - 1) && OverBy(evs, n) then [EndingAt(evs, n)] else []
  {
    OverNext(evs, n);
  }

  ghost predicate EndedWell(evs: seq<Event>, n: nat) { n <= |evs| && Endings(Answers(evs, n)) == EndingBy(evs, n) }

  lemma EndedWellNext(evs: seq<Event>, n: nat)
    requires 0 < n <= |evs| && EndedWell(evs, n - 1)
    ensures EndedWell(evs, n)
  {
    var before := Answers(evs, n - 1);
    EndingsJoin(before, Answer(evs, n, before));
    AnswerEndings(evs, n, before);
    EndingNext(evs, n);
  }

  lemma EndedWellStart(evs: seq<Event>)
    ensures EndedWell(evs, 0)
  {
  }

  lemma AnswersEnd(evs: seq<Event>, n: nat)
    requires n <= |evs|
    ensures Endings(Answers(evs, n)) == EndingBy(evs, n)
  {
    EndedWellStart(evs);
    for k := 0 to n
      invariant EndedWell(evs, k)
    {
      EndedWellNext(evs, k + 1);
    }
  }

  /**
   * The one chunk that ends a stream is what the first ending event says: the error of a failure that has one, or a
   * finish that says tool_calls exactly if a call was announced before; without such an event, before the flush.
   */
  lemma EndsAs(evs: seq<Event>)
    ensures var n, k := |evs|, EndedAt(evs, |evs|);
            Endings(Flush(Run(evs, n)).out) ==
            if k > 0 then [EndingAt(evs, k)] else if evs == [] then [] else [FinishBy(evs, n)]
  {
    var n := |evs|;
    OutputIs(evs);
    AnswersEnd(evs, n);
    var more := if evs == [] || OverBy(evs, n) then [] else [FinishBy(evs, n)];
    EndingsJoin(Answers(evs, n), more);
    if more != [] {
      EndingOf(more[0]);
    }
  }
}
