/** Every event stream the Chat-to-Responses translator produces is in order. */
module StreamLifecycle {
  import opened Config
  import opened ChatToResponses
  import opened StreamMonitor

  ghost function WholeOf(f: Flow): Whole {
    Whole(f.started, f.started, f.reasoning, f.reasoning.Some?, f.reasoningBuf,
          f.reasoningDone, f.reasoningDone, f.reasoningDone, f.completed)
  }

  ghost function MessagesOf(m: Msgs): Messages {
    Messages(m.added, m.part, m.text, m.done, m.done, m.done)
  }

  ghost function CallItemsOf(c: Calls): CallItems { CallItems(c.added, c.done, c.done) }

  /** The accumulator knows exactly what a checker of its output would know, and the checker has no complaint. */
  ghost predicate Inv(s: State) {
    var m := Watch(s.log);
    && m.whole == WholeOf(s.flow)
    && m.msgs == MessagesOf(s.msgs)
    && m.calls == CallItemsOf(s.calls)
    && m.number == s.number
    && m.ok
  }

  lemma Emitted(s: State, b: Body)
    ensures Watch(Emit(s, b).log) == Observe(Watch(s.log), Event(s.number + 1, b))
  {
    WatchSnoc(s.log, Event(s.number + 1, b));
  }

  // ---- every helper keeps it ----

  /** A checker of the output is in this state, without complaint. */
  ghost predicate Shows(s: State, m: Monitor) { Watch(s.log) == m && m.number == s.number && m.ok }

  ghost function Next(m: Monitor, b: Body): Monitor { Observe(m, Event(m.number + 1, b)) }

  lemma ShowsNext(s: State, b: Body, m: Monitor)
    requires Shows(s, m) && Legal(m, b)
    ensures Shows(Emit(s, b), Next(m, b))
  {
    WatchSnoc(s.log, Event(s.number + 1, b));
  }

  lemma ShowsTwo(s: State, a: Body, b: Body, m: Monitor)
    requires Shows(s, m) && Legal(m, a) && Legal(Next(m, a), b)
    ensures Shows(Emit(Emit(s, a), b), Next(Next(m, a), b))
  {
    ShowsNext(s, a, m);
    ShowsNext(Emit(s, a), b, Next(m, a));
  }

  lemma ShowsThree(s: State, a: Body, b: Body, c: Body, m: Monitor)
    requires Shows(s, m) && Legal(m, a) && Legal(Next(m, a), b) && Legal(Next(Next(m, a), b), c)
    ensures Shows(Emit(Emit(Emit(s, a), b), c), Next(Next(Next(m, a), b), c))
  {
    ShowsTwo(s, a, b, m);
    ShowsNext(Emit(Emit(s, a), b), c, Next(Next(m, a), b));
  }

  lemma OpenKeeps(s: State)
    requires Inv(s)
    ensures Inv(Open(s))
  {
    if !s.flow.started {
      ShowsTwo(s.(flow := s.flow.(started := true)), Created, InProgress, Watch(s.log));
    }
  }

  lemma StartReasoningKeeps(s: State, idx: int)
    requires Inv(s)
    ensures Inv(StartReasoning(s, idx))
  {
    if s.flow.reasoning.None? {
      var s1 := s.(flow := s.flow.(reasoning := Some(idx)));
      ShowsTwo(s1, ReasoningAdded(idx), ReasoningPartAdded(idx), Watch(s.log));
    }
  }

  lemma ReasonKeeps(s: State, text: string)
    requires Inv(s)
    ensures Inv(Reason(s, text))
  {
    Emitted(s.(flow := s.flow.(reasoningBuf := s.flow.reasoningBuf + text)), ReasoningDelta(s.flow.reasoning, text));
  }

  lemma CloseReasoningKeeps(s: State)
    requires Inv(s)
    ensures Inv(CloseReasoning(s))
  {
    if s.flow.reasoning.Some? && !s.flow.reasoningDone {
      var t := s.flow.reasoningBuf;
      var s1 := s.(flow := s.flow.(reasoningDone := true));
      ShowsThree(s1, ReasoningTextDone(t), ReasoningPartDone(t), ReasoningItemDone(t), Watch(s.log));
    }
  }

  lemma AddMessageKeeps(s: State, idx: int)
    requires Inv(s)
    ensures Inv(AddMessage(s, idx)) && idx in AddMessage(s, idx).msgs.added
  {
    Emitted(s.(msgs := s.msgs.(added := s.msgs.added + {idx})), MsgAdded(idx));
  }

  lemma AddPartKeeps(s: State, idx: int)
    requires Inv(s) && idx in s.msgs.added
    ensures var t := AddPart(s, idx); Inv(t) && idx in t.msgs.part && idx in t.msgs.added
  {
    Emitted(s.(msgs := s.msgs.(part := s.msgs.part + {idx})), MsgPartAdded(idx));
  }

  lemma SayKeeps(s: State, idx: int, text: string)
    requires Inv(s)
    ensures Inv(Say(s, idx, text))
  {
    AddMessageKeeps(s, idx);
    AddPartKeeps(AddMessage(s, idx), idx);
    AddTextKeeps(AddPart(AddMessage(s, idx), idx), idx, text);
  }

  lemma AddTextKeeps(s: State, idx: int, text: string)
    requires Inv(s) && idx in s.msgs.added && idx in s.msgs.part
    ensures Inv(AddText(s, idx, text))
  {
    var s1 := s.(msgs := s.msgs.(text := s.msgs.text[idx := Get(s.msgs.text, idx) + text]));
    ShowsNext(s1, TextDelta(idx, text), Watch(s.log));
  }

  lemma CloseMessageKeeps(s: State, idx: int)
    requires Inv(s)
    ensures Inv(CloseMessage(s, idx))
  {
    if idx in s.msgs.added && idx !in s.msgs.done {
      var t := Get(s.msgs.text, idx);
      var s1 := s.(msgs := s.msgs.(done := s.msgs.done + {idx}));
      ShowsThree(s1, TextDone(idx, t), MsgPartDone(idx, t), MsgItemDone(idx, t), Watch(s.log));
    }
  }

  lemma AnnounceKeeps(s: State, i: int)
    requires Inv(s)
    ensures Inv(Announce(s, i))
  {
    if i !in s.calls.added && i in s.calls.ids && i in s.calls.names {
      Emitted(s.(calls := s.calls.(added := s.calls.added + {i})), CallAdded(i, s.calls.ids[i], s.calls.names[i]));
    }
  }

  lemma CollectKeeps(s: State, i: int, args: string)
    requires Inv(s)
    ensures Inv(Collect(s, i, args))
  {
    if args != "" && i in s.calls.added && i in s.calls.ids {
      Emitted(s.(calls := Buffer(s.calls, i, args)), ArgsDelta(i, s.calls.ids[i], args));
    }
  }

  lemma TakeKeeps(s: State, f: Fragment)
    requires Inv(s)
    ensures Inv(Take(s, f))
  {
    var l := s.(calls := Learn(s.calls, f));
    AnnounceKeeps(l, f.index);
    CollectKeeps(Announce(l, f.index), f.index, f.args);
  }

  lemma {:induction false} TakeUpToKeeps(s: State, calls: seq<Fragment>, n: nat)
    requires Inv(s) && n <= |calls|
    ensures Inv(TakeUpTo(s, calls, n))
  {
    if n > 0 {
      TakeUpToKeeps(s, calls, n - 1);
      TakeKeeps(TakeUpTo(s, calls, n - 1), calls[n - 1]);
    }
  }

  lemma CloseCallKeeps(s: State, i: int)
    requires Inv(s)
    ensures Inv(CloseCall(s, i))
  {
    if i in s.calls.ids && i !in s.calls.done {
      var id, args := s.calls.ids[i], OrEmptyObject(Get(s.calls.args, i));
      var name := if i in s.calls.names then Some(s.calls.names[i]) else None;
      CloseCallWatched(s, i, id, name, args);
    }
  }

  lemma CloseCallWatched(s: State, i: int, id: Id, name: Option<Id>, args: string)
    requires Inv(s) && i !in s.calls.done
    ensures Inv(Emit(Emit(s.(calls := MarkDone(s.calls, i)), ArgsDone(i, id, args)), CallItemDone(i, id, name, args)))
  {
    var s1 := s.(calls := MarkDone(s.calls, i));
    ShowsTwo(s1, ArgsDone(i, id, args), CallItemDone(i, id, name, args), Watch(s.log));
  }

  lemma SendCompletedKeeps(s: State)
    requires Inv(s)
    ensures Inv(SendCompleted(s)) && SendCompleted(s).flow.completed
  {
    Emitted(s.(flow := s.flow.(completed := true)), Completed);
  }

  lemma {:induction false} CloseMessagesKeeps(s: State, keys: set<int>)
    requires Inv(s)
    ensures Inv(CloseMessages(s, keys))
    decreases |keys|
  {
    if keys != {} {
      var k := Least(keys);
      CloseMessageKeeps(s, k);
      CloseMessagesKeeps(CloseMessage(s, k), keys - {k});
    }
  }

  lemma {:induction false} CloseCallsKeeps(s: State, keys: set<int>)
    requires Inv(s)
    ensures Inv(CloseCalls(s, keys))
    decreases |keys|
  {
    if keys != {} {
      var k := Least(keys);
      CloseCallKeeps(s, k);
      CloseCallsKeeps(CloseCall(s, k), keys - {k});
    }
  }

  lemma CloseAllKeeps(s: State)
    requires Inv(s)
    ensures Inv(CloseAll(s)) && CloseAll(s).flow.completed
  {
    CloseMessagesKeeps(s, s.msgs.added);
    var s1 := CloseMessages(s, s.msgs.added);
    CloseReasoningKeeps(s1);
    var s2 := CloseReasoning(s1);
    CloseCallsKeeps(s2, s2.calls.ids.Keys);
    SendCompletedKeeps(CloseCalls(s2, s2.calls.ids.Keys));
  }

  lemma OnThinkKeeps(s: State, idx: int, content: string)
    requires Inv(s)
    ensures Inv(OnThink(s, idx, content).0)
  {
    ThinkingIsPrivate(s, true);
    StartReasoningKeeps(Thinking(s, true), idx);
  }

  lemma OnEndThinkKeeps(s: State, content: string)
    requires Inv(s)
    ensures Inv(OnEndThink(s, content).0)
  {
    if Contains(content, END_THINK) {
      var part := content[..Find(content, END_THINK)];
      ReasonKeeps(s, part);
      CloseReasoningKeeps(Reason(s, part));
      ThinkingIsPrivate(CloseReasoning(Reason(s, part)), false);
    }
  }

  lemma ThinkingIsPrivate(s: State, thinking: bool)
    requires Inv(s)
    ensures Inv(Thinking(s, thinking))
  {
  }

  lemma OnContentKeeps(s: State, idx: int, content: string)
    requires Inv(s)
    ensures Inv(OnContent(s, idx, content).0)
  {
    OnThinkKeeps(s, idx, content);
    var t := OnThink(s, idx, content);
    OnEndThinkKeeps(t.0, t.1);
    var u := OnEndThink(t.0, t.1);
    ReasonKeeps(u.0, u.1);
    SayKeeps(u.0, idx, u.1);
  }

  lemma OnReasoningKeeps(s: State, idx: int, text: string)
    requires Inv(s)
    ensures Inv(OnReasoning(s, idx, text))
  {
    StartReasoningKeeps(s, idx);
    ReasonKeeps(StartReasoning(s, idx), text);
  }

  lemma OnCallsKeeps(s: State, idx: int, calls: seq<Fragment>)
    requires Inv(s)
    ensures Inv(OnCalls(s, idx, calls))
  {
    CloseMessageKeeps(s, idx);
    TakeUpToKeeps(CloseMessage(s, idx), calls, |calls|);
  }

  lemma ConvertKeeps(s: State, c: Chunk)
    requires Inv(s)
    ensures Inv(Convert(s, c))
  {
    if c.Chunk? {
      OpenKeeps(s);
      OnReasoningKeeps(Open(s), c.index, c.reasoning);
      var s1 := OnReasoning(Open(s), c.index, c.reasoning);
      OnContentKeeps(s1, c.index, c.content);
      var s2 := OnContent(s1, c.index, c.content).0;
      OnCallsKeeps(s2, c.index, c.calls);
      CloseAllKeeps(OnCalls(s2, c.index, c.calls));
    }
  }

  // ---- whole streams ----

  /** The accumulator after the first n chunks. */
  ghost function Run(chunks: seq<Chunk>, n: nat): State
    requires n <= |chunks|
  {
    if n == 0 then Init else Convert(Run(chunks, n - 1), chunks[n - 1])
  }

  lemma {:induction false} RunKeeps(chunks: seq<Chunk>, n: nat)
    requires n <= |chunks|
    ensures Inv(Run(chunks, n))
  {
    if n > 0 {
      RunKeeps(chunks, n - 1);
      ConvertKeeps(Run(chunks, n - 1), chunks[n - 1]);
    }
  }

  ghost function Ended(chunks: seq<Chunk>): State { Flush(Run(chunks, |chunks|)) }

  lemma EndedKeeps(chunks: seq<Chunk>)
    ensures Inv(Ended(chunks)) && Ended(chunks).flow.completed
  {
    RunKeeps(chunks, |chunks|);
    CloseAllKeeps(Run(chunks, |chunks|));
  }

  /**
   * Lifecycle: whatever chunks arrive, after every chunk and after the flush, events are numbered 1..n; nothing
   * that may happen once happens twice; parts follow items and deltas follow both; a message is done with exactly
   * the deltas emitted for it before.
   */
  lemma StreamIsInOrder(chunks: seq<Chunk>)
    ensures InOrder(Run(chunks, |chunks|).log)
    ensures InOrder(Ended(chunks).log)
  {
    RunKeeps(chunks, |chunks|);
    AcceptedIsInOrder(Run(chunks, |chunks|).log);
    EndedKeeps(chunks);
    AcceptedIsInOrder(Ended(chunks).log);
  }

  /** A flushed stream completes exactly once, and flushing again emits nothing. */
  lemma CompletesOnce(chunks: seq<Chunk>)
    ensures var log := Ended(chunks).log;
            && (exists p | 0 <= p < |log| :: log[p].body == Completed)
            && (forall p, q | 0 <= p < q < |log| :: log[p].body == Completed ==> log[q].body != Completed)
    ensures Flush(Ended(chunks)) == Ended(chunks)
  {
    EndedKeeps(chunks);
    var log := Ended(chunks).log;
    WatchedWitnesses(log, 0);
    var p := SeenWhere(log, Completed);
    AcceptedIsInOrder(log);
    forall p, q | 0 <= p < q < |log| && log[p].body == Completed ensures log[q].body != Completed {
      OnceMeansOnce(log, p, q);
    }
  }
}
