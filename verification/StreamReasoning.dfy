/** When a stream's reasoning is opened, when it is done and with which text, and what precedes the completion. */
module StreamReasoning {
  import opened Config
  import opened ChatToResponses
  import opened StreamLifecycle
  import opened ToolArguments
  import opened StreamWords

  // ---- reading the log ----

  ghost predicate OfReasoning(b: Body) {
    match b
    case Created | InProgress => true
    case ReasoningAdded(_) | ReasoningPartAdded(_) => true
    case ReasoningTextDone(_) | ReasoningPartDone(_) | ReasoningItemDone(_) => true
    case _ => false
  }

  /** How the response and its reasoning were opened and done, event by event. */
  ghost function Life(log: seq<Event>): seq<Body> {
    if log == [] then []
    else
      var init, b := Life(log[..|log| - 1]), log[|log| - 1].body;
      if OfReasoning(b) then init + [b] else init
  }

  /** The same, up to the first completion. */
  ghost function LifeBeforeCompleted(log: seq<Event>): Option<seq<Body>> {
    if log == [] then None
    else
      var init := log[..|log| - 1];
      if LifeBeforeCompleted(init).Some? then LifeBeforeCompleted(init)
      else if log[|log| - 1].body == Completed then Some(Life(init))
      else None
  }

  lemma LifeSnoc(log: seq<Event>, e: Event)
    ensures Life(log + [e]) == if OfReasoning(e.body) then Life(log) + [e.body] else Life(log)
    ensures LifeBeforeCompleted(log + [e]) ==
            if LifeBeforeCompleted(log).Some? then LifeBeforeCompleted(log)
            else if e.body == Completed then Some(Life(log)) else None
  {
    assert (log + [e])[..|log|] == log;
  }

  /** What a state knows of its reasoning, and what its log says. */
  datatype Tale = Tale(started: bool, at: Option<int>, thought: string, done: bool, completed: bool,
                       life: seq<Body>, sealed: Option<seq<Body>>)

  ghost function TaleOf(s: State): Tale {
    var f := s.flow;
    Tale(f.started, f.reasoning, f.reasoningBuf, f.reasoningDone, f.completed, Life(s.log), LifeBeforeCompleted(s.log))
  }

  ghost function Begun(t: Tale): Tale {
    if t.started then t else t.(started := true, life := t.life + [Created] + [InProgress])
  }

  ghost function Musing(t: Tale, idx: int): Tale {
    if t.at.Some? then t else t.(at := Some(idx), life := t.life + [ReasoningAdded(idx)] + [ReasoningPartAdded(idx)])
  }

  ghost function Thought(t: Tale, text: string): Tale { t.(thought := t.thought + text) }

  ghost function Shut(t: Tale): Tale {
    if t.at.None? || t.done then t
    else
      var x := t.thought;
      t.(done := true, life := t.life + [ReasoningTextDone(x)] + [ReasoningPartDone(x)] + [ReasoningItemDone(x)])
  }

  ghost function Complete(t: Tale): Tale {
    if t.completed then t
    else t.(completed := true, sealed := if t.sealed.Some? then t.sealed else Some(t.life))
  }

  // ---- the helpers ----

  lemma EmitTale(s: State, b: Body)
    requires !OfReasoning(b) && b != Completed
    ensures TaleOf(Emit(s, b)) == TaleOf(s)
  {
    LifeSnoc(s.log, Event(s.number + 1, b));
  }

  lemma EmitLife(s: State, b: Body)
    requires OfReasoning(b)
    ensures TaleOf(Emit(s, b)) == TaleOf(s).(life := TaleOf(s).life + [b])
  {
    LifeSnoc(s.log, Event(s.number + 1, b));
  }

  lemma OpenTale(s: State)
    ensures TaleOf(Open(s)) == Begun(TaleOf(s))
  {
    var s1 := s.(flow := s.flow.(started := true));
    EmitLife(s1, Created);
    EmitLife(Emit(s1, Created), InProgress);
  }

  lemma StartReasoningTale(s: State, idx: int)
    ensures TaleOf(StartReasoning(s, idx)) == Musing(TaleOf(s), idx)
  {
    var s1 := s.(flow := s.flow.(reasoning := Some(idx)));
    EmitLife(s1, ReasoningAdded(idx));
    EmitLife(Emit(s1, ReasoningAdded(idx)), ReasoningPartAdded(idx));
  }

  lemma ReasonTale(s: State, text: string)
    ensures TaleOf(Reason(s, text)) == Thought(TaleOf(s), text)
  {
    var s1 := s.(flow := s.flow.(reasoningBuf := s.flow.reasoningBuf + text));
    if text == "" {
      assert s.flow.reasoningBuf + text == s.flow.reasoningBuf;
    }
    EmitTale(s1, ReasoningDelta(s.flow.reasoning, text));
  }

  lemma CloseReasoningTale(s: State)
    ensures TaleOf(CloseReasoning(s)) == Shut(TaleOf(s))
  {
    var b, s1 := s.flow.reasoningBuf, s.(flow := s.flow.(reasoningDone := true));
    EmitLife(s1, ReasoningTextDone(b));
    var s2 := Emit(s1, ReasoningTextDone(b));
    EmitLife(s2, ReasoningPartDone(b));
    EmitLife(Emit(s2, ReasoningPartDone(b)), ReasoningItemDone(b));
  }

  lemma AnnounceTale(s: State, k: int)
    ensures TaleOf(Announce(s, k)) == TaleOf(s)
  {
    if k !in s.calls.added && k in s.calls.ids && k in s.calls.names {
      EmitTale(s.(calls := Announce(s, k).calls), CallAdded(k, s.calls.ids[k], s.calls.names[k]));
    }
  }

  lemma CollectTale(s: State, k: int, args: string)
    ensures TaleOf(Collect(s, k, args)) == TaleOf(s)
  {
    if args != "" && k in s.calls.added && k in s.calls.ids {
      EmitTale(s.(calls := Buffer(s.calls, k, args)), ArgsDelta(k, s.calls.ids[k], args));
    }
  }

  lemma TakeTale(s: State, f: Fragment)
    ensures TaleOf(Take(s, f)) == TaleOf(s)
  {
    var l := s.(calls := Learn(s.calls, f));
    AnnounceTale(l, f.index);
    CollectTale(Announce(l, f.index), f.index, f.args);
  }

  lemma TakeUpToTale(s: State, calls: seq<Fragment>, n: nat)
    requires n <= |calls|
    ensures TaleOf(TakeUpTo(s, calls, n)) == TaleOf(s)
  {
    for k := 0 to n
      invariant TaleOf(TakeUpTo(s, calls, k)) == TaleOf(s)
    {
      TakeTale(TakeUpTo(s, calls, k), calls[k]);
    }
  }

  lemma CloseCallTale(s: State, k: int)
    ensures TaleOf(CloseCall(s, k)) == TaleOf(s)
  {
    var c := s.calls;
    if k in c.ids && k !in c.done {
      var id, args := c.ids[k], OrEmptyObject(Get(c.args, k));
      var name := if k in c.names then Some(c.names[k]) else None;
      var s1 := s.(calls := MarkDone(c, k));
      EmitTale(s1, ArgsDone(k, id, args));
      EmitTale(Emit(s1, ArgsDone(k, id, args)), CallItemDone(k, id, name, args));
    }
  }

  lemma {:induction false} CloseCallsTale(s: State, keys: set<int>)
    ensures TaleOf(CloseCalls(s, keys)) == TaleOf(s)
    decreases |keys|
  {
    if keys != {} {
      var k := Least(keys);
      CloseCallTale(s, k);
      CloseCallsTale(CloseCall(s, k), keys - {k});
    }
  }

  lemma AddMessageTale(s: State, idx: int)
    ensures TaleOf(AddMessage(s, idx)) == TaleOf(s)
  {
    EmitTale(s.(msgs := s.msgs.(added := s.msgs.added + {idx})), MsgAdded(idx));
  }

  lemma AddPartTale(s: State, idx: int)
    ensures TaleOf(AddPart(s, idx)) == TaleOf(s)
  {
    EmitTale(s.(msgs := s.msgs.(part := s.msgs.part + {idx})), MsgPartAdded(idx));
  }

  lemma AddTextTale(s: State, idx: int, text: string)
    ensures TaleOf(AddText(s, idx, text)) == TaleOf(s)
  {
    EmitTale(s.(msgs := s.msgs.(text := s.msgs.text[idx := Get(s.msgs.text, idx) + text])), TextDelta(idx, text));
  }

  lemma SayTale(s: State, idx: int, text: string)
    ensures TaleOf(Say(s, idx, text)) == TaleOf(s)
  {
    AddMessageTale(s, idx);
    AddPartTale(AddMessage(s, idx), idx);
    AddTextTale(AddPart(AddMessage(s, idx), idx), idx, text);
  }

  lemma CloseMessageTale(s: State, idx: int)
    ensures TaleOf(CloseMessage(s, idx)) == TaleOf(s)
  {
    var t, s1 := Get(s.msgs.text, idx), s.(msgs := s.msgs.(done := s.msgs.done + {idx}));
    EmitTale(s1, TextDone(idx, t));
    var s2 := Emit(s1, TextDone(idx, t));
    EmitTale(s2, MsgPartDone(idx, t));
    EmitTale(Emit(s2, MsgPartDone(idx, t)), MsgItemDone(idx, t));
  }

  lemma {:induction false} CloseMessagesTale(s: State, keys: set<int>)
    ensures TaleOf(CloseMessages(s, keys)) == TaleOf(s)
    decreases |keys|
  {
    if keys != {} {
      var k := Least(keys);
      CloseMessageTale(s, k);
      CloseMessagesTale(CloseMessage(s, k), keys - {k});
    }
  }

  lemma SendCompletedTale(s: State)
    ensures TaleOf(SendCompleted(s)) == Complete(TaleOf(s))
  {
    var s1 := s.(flow := s.flow.(completed := true));
    LifeSnoc(s1.log, Event(s1.number + 1, Completed));
  }

  lemma CloseAllTale(s: State)
    ensures TaleOf(CloseAll(s)) == Complete(Shut(TaleOf(s)))
  {
    CloseMessagesTale(s, s.msgs.added);
    var s1 := CloseMessages(s, s.msgs.added);
    CloseReasoningTale(s1);
    var s2 := CloseReasoning(s1);
    CloseCallsTale(s2, s2.calls.ids.Keys);
    SendCompletedTale(CloseCalls(s2, s2.calls.ids.Keys));
  }

  // ---- what a chunk thinks ----

  /** The content that is thought: up to an end tag, or all of it inside a block. Start tags are dropped. */
  ghost function Pondered(thinking: bool, content: string): string {
    var rest := Unopened(content);
    if Contains(rest, END_THINK) then rest[..Find(rest, END_THINK)]
    else if thinking || Contains(content, THINK) then rest
    else ""
  }

  /** What a chunk means for the reasoning: does it open it, what does it think, does it end it, does it finish? */
  datatype Muse = Silence | Muse(idx: int, opens: bool, thought: string, ends: bool, finish: bool)

  ghost function MuseOf(thinking: bool, c: Chunk): Muse {
    if c.NoChoice? then Silence
    else Muse(c.index, c.reasoning != "" || Contains(c.content, THINK), c.reasoning + Pondered(thinking, c.content),
              Contains(Unopened(c.content), END_THINK), c.finish && !Cuts(thinking, c))
  }

  ghost function Opened(t: Tale, m: Muse): Tale
    requires m.Muse?
  {
    if m.opens then Musing(Begun(t), m.idx) else Begun(t)
  }

  ghost function Heard(t: Tale, m: Muse): Tale {
    if m.Silence? then t
    else
      var u := Thought(Opened(t, m), m.thought);
      var v := if m.ends then Shut(u) else u;
      if m.finish then Complete(Shut(v)) else v
  }

  lemma OnReasoningTale(s: State, idx: int, text: string)
    ensures TaleOf(OnReasoning(s, idx, text)) ==
            if text == "" then TaleOf(s) else Thought(Musing(TaleOf(s), idx), text)
  {
    StartReasoningTale(s, idx);
    ReasonTale(StartReasoning(s, idx), text);
  }

  lemma LastPartTale(s: State, idx: int, rest: string)
    ensures TaleOf(LastPart(s, idx, rest)) == if s.flow.inThinking then Thought(TaleOf(s), rest) else TaleOf(s)
  {
    ReasonTale(s, rest);
    SayTale(s, idx, rest);
    if rest == "" {
      assert s.flow.reasoningBuf + rest == s.flow.reasoningBuf;
    }
  }

  lemma OnThinkTale(s: State, idx: int, content: string)
    ensures TaleOf(OnThink(s, idx, content).0) ==
            if Contains(content, THINK) then Musing(TaleOf(s), idx) else TaleOf(s)
  {
    StartReasoningTale(Thinking(s, true), idx);
  }

  lemma OnEndThinkTale(s: State, rest: string)
    ensures TaleOf(OnEndThink(s, rest).0) ==
            if Contains(rest, END_THINK) then Shut(Thought(TaleOf(s), rest[..Find(rest, END_THINK)])) else TaleOf(s)
  {
    if Contains(rest, END_THINK) {
      var part := rest[..Find(rest, END_THINK)];
      ReasonTale(s, part);
      CloseReasoningTale(Reason(s, part));
    }
  }

  lemma ThoughtNothing(t: Tale)
    ensures Thought(t, "") == t
  {
    assert t.thought + "" == t.thought;
  }

  lemma OnContentTale(s: State, idx: int, content: string)
    ensures var t := if Contains(content, THINK) then Musing(TaleOf(s), idx) else TaleOf(s);
            var u := Thought(t, Pondered(s.flow.inThinking, content));
            TaleOf(OnContent(s, idx, content).0) == if Contains(Unopened(content), END_THINK) then Shut(u) else u
  {
    ThoughtNothing(TaleOf(s));
    if content == "" {
      assert !Contains(content, THINK) && !Contains(content, END_THINK);
    } else {
      OnContentParts(s, idx, content);
      OnThinkWords(s, idx, content);
      OnThinkTale(s, idx, content);
      var (s1, c1) := OnThink(s, idx, content);
      OnEndThinkWords(s1, c1);
      OnEndThinkTale(s1, c1);
      var (s2, c2) := OnEndThink(s1, c1);
      LastPartTale(s2, idx, c2);
      ThoughtNothing(TaleOf(s1));
    }
  }

  /** Thinking twice is thinking it all, and opening in between changes nothing about it. */
  lemma ThinksOn(t: Tale, idx: int, a: string, b: string, opensA: bool, opensB: bool)
    ensures var u := if opensA then Thought(Musing(t, idx), a) else Thought(t, a);
            Thought(if opensB then Musing(u, idx) else u, b) ==
            Thought(if opensA || opensB then Musing(t, idx) else t, a + b)
  {
    assert (t.thought + a) + b == t.thought + (a + b);
  }

  lemma BeforeCallsTale(s: State, c: Chunk)
    requires c.Chunk?
    ensures var m := MuseOf(s.flow.inThinking, c);
            var u := Thought(Opened(TaleOf(s), m), m.thought);
            TaleOf(BeforeCalls(s, c)) == if m.ends then Shut(u) else u
  {
    OpenTale(s);
    OpenMute(s);
    OnReasoningTale(Open(s), c.index, c.reasoning);
    ReasoningWords(Open(s), c.index, c.reasoning);
    OnContentTale(OnReasoning(Open(s), c.index, c.reasoning), c.index, c.content);
    ThoughtNothing(Begun(TaleOf(s)));
    ThinksOn(Begun(TaleOf(s)), c.index, c.reasoning, Pondered(s.flow.inThinking, c.content),
             c.reasoning != "", Contains(c.content, THINK));
  }

  lemma OnCallsTale(s: State, idx: int, calls: seq<Fragment>)
    ensures TaleOf(OnCalls(s, idx, calls)) == TaleOf(s)
  {
    CloseMessageTale(s, idx);
    TakeUpToTale(CloseMessage(s, idx), calls, |calls|);
  }

  /** One chunk: the reasoning is opened, added to and ended as the chunk says, and closed before a completion. */
  lemma ConvertTale(s: State, c: Chunk)
    ensures TaleOf(Convert(s, c)) == Heard(TaleOf(s), MuseOf(s.flow.inThinking, c))
  {
    if c.Chunk? {
      BeforeCallsWords(s, c);
      ConvertStages(s, c);
      BeforeCallsTale(s, c);
      OnCallsTale(BeforeCalls(s, c), c.index, c.calls);
      CloseAllTale(OnCalls(BeforeCalls(s, c), c.index, c.calls));
    }
  }

  // ---- whole streams ----

  ghost function Muses(chunks: seq<Chunk>): (ms: seq<Muse>)
    ensures |ms| == |chunks|
    ensures forall p | 0 <= p < |chunks| :: ms[p] == MuseOf(Pondering(chunks, p), chunks[p])
  {
    seq(|chunks|, p requires 0 <= p < |chunks| => MuseOf(Pondering(chunks, p), chunks[p]))
  }

  /** Some of the first n chunks has a choice. */
  ghost predicate StartedBy(ms: seq<Muse>, n: nat)
    requires n <= |ms|
  {
    n > 0 && (StartedBy(ms, n - 1) || ms[n - 1].Muse?)
  }

  /** The index of the first chunk that opens the reasoning. */
  ghost function OpenedBy(ms: seq<Muse>, n: nat): Option<int>
    requires n <= |ms|
  {
    if n == 0 then None
    else if OpenedBy(ms, n - 1).Some? then OpenedBy(ms, n - 1)
    else if ms[n - 1].Muse? && ms[n - 1].opens then Some(ms[n - 1].idx)
    else None
  }

  /** Everything the first n chunks think. */
  ghost function ThoughtBy(ms: seq<Muse>, n: nat): string
    requires n <= |ms|
  {
    if n == 0 then "" else ThoughtBy(ms, n - 1) + if ms[n - 1].Muse? then ms[n - 1].thought else ""
  }

  /** The first chunk, counted from 1, that ends the thinking or finishes once the reasoning is opened. */
  ghost function ClosedIn(ms: seq<Muse>, n: nat): (m: Option<nat>)
    requires n <= |ms|
    ensures m.Some? ==> m.value <= n
  {
    if n == 0 then None
    else if ClosedIn(ms, n - 1).Some? then ClosedIn(ms, n - 1)
    else if ms[n - 1].Muse? && (ms[n - 1].ends || ms[n - 1].finish) && OpenedBy(ms, n).Some? then Some(n)
    else None
  }

  /** The first chunk, counted from 1, that finishes. */
  ghost function FinishIn(ms: seq<Muse>, n: nat): (m: Option<nat>)
    requires n <= |ms|
    ensures m.Some? ==> m.value <= n
  {
    if n == 0 then None
    else if FinishIn(ms, n - 1).Some? then FinishIn(ms, n - 1)
    else if ms[n - 1].Muse? && ms[n - 1].finish then Some(n)
    else None
  }

  /** A response opened and a reasoning item, if there is one, opened once and done at most once. */
  ghost function LifeOf(started: bool, at: Option<int>, done: Option<string>): seq<Body> {
    (if started then [Created] + [InProgress] else [])
    + (if at.Some? then [ReasoningAdded(at.value)] + [ReasoningPartAdded(at.value)] else [])
    + (if done.Some? then
         [ReasoningTextDone(done.value)] + [ReasoningPartDone(done.value)] + [ReasoningItemDone(done.value)]
       else [])
  }

  ghost function DoneBy(ms: seq<Muse>, n: nat): Option<string>
    requires n <= |ms|
  {
    var m := ClosedIn(ms, n);
    if m.Some? then Some(ThoughtBy(ms, m.value)) else None
  }

  ghost function LifeBy(ms: seq<Muse>, n: nat): seq<Body>
    requires n <= |ms|
  {
    LifeOf(StartedBy(ms, n), OpenedBy(ms, n), DoneBy(ms, n))
  }

  ghost function TaleBy(ms: seq<Muse>, n: nat): Tale
    requires n <= |ms|
  {
    var f := FinishIn(ms, n);
    Tale(StartedBy(ms, n), OpenedBy(ms, n), ThoughtBy(ms, n), ClosedIn(ms, n).Some?, f.Some?, LifeBy(ms, n),
         if f.Some? then Some(LifeBy(ms, f.value)) else None)
  }

  /** Nothing is opened before the response, nor done before it is opened. */
  lemma {:induction false} OneAfterAnother(ms: seq<Muse>, n: nat)
    requires n <= |ms|
    ensures OpenedBy(ms, n).Some? ==> StartedBy(ms, n)
    ensures ClosedIn(ms, n).Some? ==> OpenedBy(ms, n).Some?
  {
    if n > 0 {
      OneAfterAnother(ms, n - 1);
    }
  }

  lemma LifeOpens(t: Tale, m: Muse)
    requires m.Muse? && t.life == LifeOf(t.started, t.at, None) && (t.at.Some? ==> t.started)
    ensures var u := Opened(t, m);
            && u.started && u.at == (if t.at.None? && m.opens then Some(m.idx) else t.at)
            && u.life == LifeOf(true, u.at, None)
  {
  }

  lemma LifeShuts(t: Tale)
    requires t.started && t.at.Some? && !t.done && t.life == LifeOf(true, t.at, None)
    ensures Shut(t).life == LifeOf(true, t.at, Some(t.thought))
  {
  }

  lemma HeardFlags(t: Tale, m: Muse)
    requires m.Muse?
    ensures var at := if t.at.None? && m.opens then Some(m.idx) else t.at;
            Heard(t, m).(life := [], sealed := None) ==
            Tale(true, at, t.thought + m.thought, t.done || ((m.ends || m.finish) && at.Some?),
                 t.completed || m.finish, [], None)
  {
  }

  /** The parts of the tale other than its events. */
  lemma FlagsNext(ms: seq<Muse>, n: nat)
    requires n < |ms|
    ensures Heard(TaleBy(ms, n), ms[n]).(life := [], sealed := None) == TaleBy(ms, n + 1).(life := [], sealed := None)
  {
    if ms[n].Muse? {
      HeardFlags(TaleBy(ms, n), ms[n]);
      if ClosedIn(ms, n).Some? {
        OneAfterAnother(ms, n);
      }
    } else {
      assert ThoughtBy(ms, n) + "" == ThoughtBy(ms, n);
    }
  }

  /** The events: untouched once done; opened, and done with all that was thought, if this chunk closes. */
  lemma LifeNext(ms: seq<Muse>, n: nat)
    requires n < |ms| && ms[n].Muse?
    ensures Heard(TaleBy(ms, n), ms[n]).life == LifeBy(ms, n + 1)
  {
    OneAfterAnother(ms, n);
    FlagsNext(ms, n);
    var t := TaleBy(ms, n);
    if !t.done {
      LifeOpens(t, ms[n]);
      var u := Thought(Opened(t, ms[n]), ms[n].thought);
      if u.at.Some? {
        LifeShuts(u);
      }
    }
  }

  /** One more chunk heard. */
  lemma TaleByNext(ms: seq<Muse>, n: nat)
    requires n < |ms|
    ensures TaleBy(ms, n + 1) == Heard(TaleBy(ms, n), ms[n])
  {
    FlagsNext(ms, n);
    if ms[n].Muse? {
      LifeNext(ms, n);
    }
  }

  ghost predicate Relates(chunks: seq<Chunk>, n: nat) {
    n <= |chunks| && TaleOf(Run(chunks, n)) == TaleBy(Muses(chunks), n)
  }

  lemma RelatesNext(chunks: seq<Chunk>, n: nat)
    requires n < |chunks| && Relates(chunks, n)
    ensures Relates(chunks, n + 1)
  {
    RunWords(chunks, n);
    ConvertTale(Run(chunks, n), chunks[n]);
    TaleByNext(Muses(chunks), n);
  }

  lemma RelatesStart(chunks: seq<Chunk>)
    ensures Relates(chunks, 0)
  {
  }

  /** In every run, after every chunk: what was opened and done is read off the chunks so far. */
  lemma ReasoningSoFar(chunks: seq<Chunk>, n: nat)
    requires n <= |chunks|
    ensures TaleOf(Run(chunks, n)) == TaleBy(Muses(chunks), n)
    ensures Life(Run(chunks, n).log) == LifeBy(Muses(chunks), n)
  {
    RelatesStart(chunks);
    for m := 0 to n
      invariant Relates(chunks, m)
    {
      RelatesNext(chunks, m);
    }
  }

  /** Where the response is completed: the chunk that finishes first, or the end. */
  ghost function CompletedIn(ms: seq<Muse>): (n: nat)
    ensures n <= |ms|
  {
    var f := FinishIn(ms, |ms|);
    if f.Some? then f.value else |ms|
  }

  /** What the reasoning is done with, if it is opened by then: all that is thought up to its first closing. */
  ghost function ClosingThought(ms: seq<Muse>): string {
    var m := ClosedIn(ms, CompletedIn(ms));
    ThoughtBy(ms, if m.Some? then m.value else CompletedIn(ms))
  }

  lemma {:induction false} FinishCloses(ms: seq<Muse>, n: nat)
    requires n <= |ms| && FinishIn(ms, n).Some?
    ensures var f := FinishIn(ms, n).value; OpenedBy(ms, f).Some? ==> ClosedIn(ms, f).Some?
    decreases n
  {
    if FinishIn(ms, n - 1).Some? {
      FinishCloses(ms, n - 1);
    }
  }

  lemma EndedTale(chunks: seq<Chunk>)
    ensures var t := TaleBy(Muses(chunks), |chunks|);
            TaleOf(Ended(chunks)) == if t.completed then t else Complete(Shut(t))
  {
    ReasoningSoFar(chunks, |chunks|);
    CloseAllTale(Run(chunks, |chunks|));
  }

  lemma ShutLife(ms: seq<Muse>, n: nat)
    requires n <= |ms|
    ensures Shut(TaleBy(ms, n)).life ==
            LifeOf(StartedBy(ms, n), OpenedBy(ms, n),
                   if DoneBy(ms, n).Some? then DoneBy(ms, n)
                   else if OpenedBy(ms, n).Some? then Some(ThoughtBy(ms, n)) else None)
  {
    OneAfterAnother(ms, n);
    if !TaleBy(ms, n).done && OpenedBy(ms, n).Some? {
      LifeShuts(TaleBy(ms, n));
    }
  }

  /**
   * For every stream: before the response is completed its reasoning, if any was opened by then, is opened once and
   * done once, with all that was thought up to the first closing: a chunk with an end tag, or the completion.
   */
  lemma DoneBeforeCompleted(chunks: seq<Chunk>)
    ensures var ms, n := Muses(chunks), CompletedIn(Muses(chunks));
            LifeBeforeCompleted(Ended(chunks).log) ==
            Some(LifeOf(StartedBy(ms, n), OpenedBy(ms, n),
                        if OpenedBy(ms, n).Some? then Some(ClosingThought(ms)) else None))
  {
    var ms := Muses(chunks);
    EndedTale(chunks);
    OneAfterAnother(ms, CompletedIn(ms));
    if FinishIn(ms, |ms|).Some? {
      FinishCloses(ms, |ms|);
    } else {
      ShutLife(ms, |ms|);
    }
  }

  /** In a whole stream: the same, but reasoning first opened after the completion needs an end tag to be done. */
  lemma ReasoningIs(chunks: seq<Chunk>)
    ensures var ms, n := Muses(chunks), |chunks|;
            var late := OpenedBy(ms, CompletedIn(ms)).None?;
            Life(Ended(chunks).log) ==
            LifeOf(StartedBy(ms, n), OpenedBy(ms, n), if late then DoneBy(ms, n) else Some(ClosingThought(ms)))
  {
    var ms := Muses(chunks);
    EndedTale(chunks);
    OneAfterAnother(ms, |ms|);
    OneAfterAnother(ms, CompletedIn(ms));
    if FinishIn(ms, |ms|).Some? {
      FinishCloses(ms, |ms|);
      DoneStays(ms, CompletedIn(ms), |ms|);
    } else {
      ShutLife(ms, |ms|);
    }
  }

  lemma {:induction false} DoneStays(ms: seq<Muse>, m: nat, n: nat)
    requires m <= n <= |ms|
    ensures ClosedIn(ms, m).Some? ==> ClosedIn(ms, n) == ClosedIn(ms, m)
    ensures OpenedBy(ms, m).Some? ==> OpenedBy(ms, n) == OpenedBy(ms, m)
    decreases n
  {
    if m < n {
      DoneStays(ms, m, n - 1);
    }
  }

  /** A closing that completes the response has the completion as its last event. */
  lemma CompletesLast(s: State)
    requires !s.flow.completed
    ensures var log := CloseAll(s).log; log != [] && log[|log| - 1].body == Completed
  {
    CloseMessagesTale(s, s.msgs.added);
    var s1 := CloseMessages(s, s.msgs.added);
    CloseReasoningTale(s1);
    var s2 := CloseReasoning(s1);
    CloseCallsTale(s2, s2.calls.ids.Keys);
  }

  /**
   * The completion is the last event of the first chunk that finishes, or of the flush: whatever is done by then is
   * done before it.
   */
  lemma CompletedComesLast(chunks: seq<Chunk>)
    ensures var f := FinishIn(Muses(chunks), |chunks|);
            var log := if f.Some? then Run(chunks, f.value).log else Ended(chunks).log;
            log != [] && log[|log| - 1].body == Completed
  {
    var ms := Muses(chunks);
    var f := FinishIn(ms, |chunks|);
    if f.Some? {
      FinishesThere(ms, |ms|);
      var n := f.value - 1;
      ReasoningSoFar(chunks, n);
      RunWords(chunks, n);
      FinishingChunk(Run(chunks, n), chunks[n]);
    } else {
      ReasoningSoFar(chunks, |chunks|);
      CompletesLast(Run(chunks, |chunks|));
    }
  }

  lemma {:induction false} FinishesThere(ms: seq<Muse>, n: nat)
    requires n <= |ms| && FinishIn(ms, n).Some?
    ensures var f := FinishIn(ms, n).value; f > 0 && ms[f - 1].Muse? && ms[f - 1].finish && FinishIn(ms, f - 1).None?
  {
    if FinishIn(ms, n - 1).Some? {
      FinishesThere(ms, n - 1);
    }
  }

  lemma FinishingChunk(s: State, c: Chunk)
    requires !s.flow.completed && MuseOf(s.flow.inThinking, c).Muse? && MuseOf(s.flow.inThinking, c).finish
    ensures var log := Convert(s, c).log; log != [] && log[|log| - 1].body == Completed
  {
    BeforeCallsWords(s, c);
    ConvertStages(s, c);
    BeforeCallsTale(s, c);
    OnCallsTale(BeforeCalls(s, c), c.index, c.calls);
    CompletesLast(OnCalls(BeforeCalls(s, c), c.index, c.calls));
  }
}
