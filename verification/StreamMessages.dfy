/** With which text each message is done, and when that is all of it. */
module StreamMessages {
  import opened Config
  import opened ChatToResponses
  import opened StreamLifecycle
  import opened ToolArguments
  import opened StreamWords
  import opened StreamClosing

  // ---- reading the log ----

  ghost predicate OfMessage(b: Body, i: int) {
    match b
    case MsgAdded(idx) => idx == i
    case MsgPartAdded(idx) => idx == i
    case TextDone(idx, _) => idx == i
    case MsgPartDone(idx, _) => idx == i
    case MsgItemDone(idx, _) => idx == i
    case _ => false
  }

  /** How one message was opened and done, event by event. */
  ghost function Life(log: seq<Event>, i: int): seq<Body> {
    if log == [] then []
    else
      var init, b := Life(log[..|log| - 1], i), log[|log| - 1].body;
      if OfMessage(b, i) then init + [b] else init
  }

  lemma LifeSnoc(log: seq<Event>, e: Event, i: int)
    ensures Life(log + [e], i) == if OfMessage(e.body, i) then Life(log, i) + [e.body] else Life(log, i)
  {
    assert (log + [e])[..|log|] == log;
  }

  /** What a state knows of one message, and what its log says. */
  datatype Note = Note(added: bool, part: bool, text: string, done: bool, life: seq<Body>)

  ghost function NoteOf(s: State, i: int): Note {
    Note(i in s.msgs.added, i in s.msgs.part, Get(s.msgs.text, i), i in s.msgs.done, Life(s.log, i))
  }

  ghost function Added(n: Note, i: int): Note {
    if n.added then n else n.(added := true, life := n.life + [MsgAdded(i)])
  }

  ghost function PartAdded(n: Note, i: int): Note {
    if n.part then n else n.(part := true, life := n.life + [MsgPartAdded(i)])
  }

  ghost function Told(n: Note, i: int, text: string): Note {
    var m := PartAdded(Added(n, i), i);
    m.(text := m.text + text)
  }

  ghost function Sealed(n: Note, i: int): Note {
    if !n.added || n.done then n
    else n.(done := true, life := n.life + [TextDone(i, n.text)] + [MsgPartDone(i, n.text)] + [MsgItemDone(i, n.text)])
  }

  // ---- the helpers ----

  lemma EmitNote(s: State, b: Body, i: int)
    ensures NoteOf(Emit(s, b), i) ==
            if OfMessage(b, i) then NoteOf(s, i).(life := NoteOf(s, i).life + [b]) else NoteOf(s, i)
  {
    LifeSnoc(s.log, Event(s.number + 1, b), i);
  }

  lemma OpenNote(s: State, i: int)
    ensures NoteOf(Open(s), i) == NoteOf(s, i)
  {
    var s1 := s.(flow := s.flow.(started := true));
    EmitNote(s1, Created, i);
    EmitNote(Emit(s1, Created), InProgress, i);
  }

  lemma StartReasoningNote(s: State, idx: int, i: int)
    ensures NoteOf(StartReasoning(s, idx), i) == NoteOf(s, i)
  {
    var s1 := s.(flow := s.flow.(reasoning := Some(idx)));
    EmitNote(s1, ReasoningAdded(idx), i);
    EmitNote(Emit(s1, ReasoningAdded(idx)), ReasoningPartAdded(idx), i);
  }

  lemma ReasonNote(s: State, text: string, i: int)
    ensures NoteOf(Reason(s, text), i) == NoteOf(s, i)
  {
    var s1 := s.(flow := s.flow.(reasoningBuf := s.flow.reasoningBuf + text));
    EmitNote(s1, ReasoningDelta(s.flow.reasoning, text), i);
  }

  lemma CloseReasoningNote(s: State, i: int)
    ensures NoteOf(CloseReasoning(s), i) == NoteOf(s, i)
  {
    var b, s1 := s.flow.reasoningBuf, s.(flow := s.flow.(reasoningDone := true));
    EmitNote(s1, ReasoningTextDone(b), i);
    var s2 := Emit(s1, ReasoningTextDone(b));
    EmitNote(s2, ReasoningPartDone(b), i);
    EmitNote(Emit(s2, ReasoningPartDone(b)), ReasoningItemDone(b), i);
  }

  lemma AnnounceNote(s: State, k: int, i: int)
    ensures NoteOf(Announce(s, k), i) == NoteOf(s, i)
  {
    if k !in s.calls.added && k in s.calls.ids && k in s.calls.names {
      EmitNote(s.(calls := Announce(s, k).calls), CallAdded(k, s.calls.ids[k], s.calls.names[k]), i);
    }
  }

  lemma CollectNote(s: State, k: int, args: string, i: int)
    ensures NoteOf(Collect(s, k, args), i) == NoteOf(s, i)
  {
    if args != "" && k in s.calls.added && k in s.calls.ids {
      EmitNote(s.(calls := Buffer(s.calls, k, args)), ArgsDelta(k, s.calls.ids[k], args), i);
    }
  }

  lemma TakeNote(s: State, f: Fragment, i: int)
    ensures NoteOf(Take(s, f), i) == NoteOf(s, i)
  {
    var l := s.(calls := Learn(s.calls, f));
    AnnounceNote(l, f.index, i);
    CollectNote(Announce(l, f.index), f.index, f.args, i);
  }

  lemma TakeUpToNote(s: State, calls: seq<Fragment>, n: nat, i: int)
    requires n <= |calls|
    ensures NoteOf(TakeUpTo(s, calls, n), i) == NoteOf(s, i)
  {
    for k := 0 to n
      invariant NoteOf(TakeUpTo(s, calls, k), i) == NoteOf(s, i)
    {
      TakeNote(TakeUpTo(s, calls, k), calls[k], i);
    }
  }

  lemma CloseCallNote(s: State, k: int, i: int)
    ensures NoteOf(CloseCall(s, k), i) == NoteOf(s, i)
  {
    var c := s.calls;
    if k in c.ids && k !in c.done {
      var id, args := c.ids[k], OrEmptyObject(Get(c.args, k));
      var name := if k in c.names then Some(c.names[k]) else None;
      var s1 := s.(calls := MarkDone(c, k));
      EmitNote(s1, ArgsDone(k, id, args), i);
      EmitNote(Emit(s1, ArgsDone(k, id, args)), CallItemDone(k, id, name, args), i);
    }
  }

  lemma {:induction false} CloseCallsNote(s: State, keys: set<int>, i: int)
    ensures NoteOf(CloseCalls(s, keys), i) == NoteOf(s, i)
    decreases |keys|
  {
    if keys != {} {
      var k := Least(keys);
      CloseCallNote(s, k, i);
      CloseCallsNote(CloseCall(s, k), keys - {k}, i);
    }
  }

  lemma AddMessageNote(s: State, idx: int, i: int)
    ensures NoteOf(AddMessage(s, idx), i) == if idx == i then Added(NoteOf(s, i), i) else NoteOf(s, i)
  {
    EmitNote(s.(msgs := s.msgs.(added := s.msgs.added + {idx})), MsgAdded(idx), i);
  }

  lemma AddPartNote(s: State, idx: int, i: int)
    ensures NoteOf(AddPart(s, idx), i) == if idx == i then PartAdded(NoteOf(s, i), i) else NoteOf(s, i)
  {
    EmitNote(s.(msgs := s.msgs.(part := s.msgs.part + {idx})), MsgPartAdded(idx), i);
  }

  lemma AddTextNote(s: State, idx: int, text: string, i: int)
    ensures NoteOf(AddText(s, idx, text), i) ==
            if idx == i then NoteOf(s, i).(text := NoteOf(s, i).text + text) else NoteOf(s, i)
  {
    var s1 := s.(msgs := s.msgs.(text := s.msgs.text[idx := Get(s.msgs.text, idx) + text]));
    EmitNote(s1, TextDelta(idx, text), i);
  }

  lemma SayNote(s: State, idx: int, text: string, i: int)
    ensures NoteOf(Say(s, idx, text), i) == if idx == i then Told(NoteOf(s, i), i, text) else NoteOf(s, i)
  {
    AddMessageNote(s, idx, i);
    var s1 := AddMessage(s, idx);
    AddPartNote(s1, idx, i);
    AddTextNote(AddPart(s1, idx), idx, text, i);
  }

  lemma CloseMessageNote(s: State, idx: int, i: int)
    ensures NoteOf(CloseMessage(s, idx), i) == if idx == i then Sealed(NoteOf(s, i), i) else NoteOf(s, i)
  {
    if idx in s.msgs.added && idx !in s.msgs.done {
      var t, s1 := Get(s.msgs.text, idx), s.(msgs := s.msgs.(done := s.msgs.done + {idx}));
      EmitNote(s1, TextDone(idx, t), i);
      var s2 := Emit(s1, TextDone(idx, t));
      EmitNote(s2, MsgPartDone(idx, t), i);
      EmitNote(Emit(s2, MsgPartDone(idx, t)), MsgItemDone(idx, t), i);
    }
  }

  lemma {:induction false} CloseMessagesNote(s: State, keys: set<int>, i: int)
    ensures NoteOf(CloseMessages(s, keys), i) == if i in keys then Sealed(NoteOf(s, i), i) else NoteOf(s, i)
    decreases |keys|
  {
    if keys != {} {
      var k := Least(keys);
      CloseMessageNote(s, k, i);
      CloseMessagesNote(CloseMessage(s, k), keys - {k}, i);
    }
  }

  lemma CloseAllNote(s: State, i: int)
    ensures NoteOf(CloseAll(s), i) == Sealed(NoteOf(s, i), i)
  {
    CloseMessagesNote(s, s.msgs.added, i);
    var s1 := CloseMessages(s, s.msgs.added);
    CloseReasoningNote(s1, i);
    var s2 := CloseReasoning(s1);
    CloseCallsNote(s2, s2.calls.ids.Keys, i);
    var s3 := CloseCalls(s2, s2.calls.ids.Keys);
    EmitNote(s3.(flow := s3.flow.(completed := true)), Completed, i);
  }

  // ---- what a chunk tells a message ----

  /** The part of the content that is said: outside thinking blocks, tags removed. */
  ghost function Uttered(thinking: bool, content: string): string {
    var rest := Unopened(content);
    if Contains(rest, END_THINK) then rest[Find(rest, END_THINK) + |END_THINK|..]
    else if thinking || Contains(content, THINK) then ""
    else rest
  }

  lemma LastPartNote(s: State, idx: int, rest: string, i: int)
    ensures NoteOf(LastPart(s, idx, rest), i) ==
            if idx == i && !s.flow.inThinking && rest != "" then Told(NoteOf(s, i), i, rest) else NoteOf(s, i)
  {
    ReasonNote(s, rest, i);
    SayNote(s, idx, rest, i);
  }

  lemma OnEndThinkNote(s: State, content: string, i: int)
    ensures NoteOf(OnEndThink(s, content).0, i) == NoteOf(s, i)
  {
    if Contains(content, END_THINK) {
      var part := content[..Find(content, END_THINK)];
      ReasonNote(s, part, i);
      CloseReasoningNote(Reason(s, part), i);
    }
  }

  lemma OnContentNote(s: State, idx: int, content: string, i: int)
    ensures var said := Uttered(s.flow.inThinking, content);
            NoteOf(OnContent(s, idx, content).0, i) ==
            if idx == i && said != "" then Told(NoteOf(s, i), i, said) else NoteOf(s, i)
  {
    if content == "" {
      assert !Contains(content, THINK) && !Contains(content, END_THINK);
    } else {
      OnContentParts(s, idx, content);
      OnThinkWords(s, idx, content);
      StartReasoningNote(Thinking(s, true), idx, i);
      var (s1, c1) := OnThink(s, idx, content);
      assert NoteOf(s1, i) == NoteOf(s, i);
      OnEndThinkWords(s1, c1);
      OnEndThinkNote(s1, c1, i);
      var (s2, c2) := OnEndThink(s1, c1);
      LastPartNote(s2, idx, c2, i);
    }
  }

  ghost function Tells(thinking: bool, c: Chunk, i: int): string {
    if c.Chunk? && c.index == i then Uttered(thinking, c.content) else ""
  }

  /** The chunk closes a message: it carries calls and the message's index, or it finishes. */
  ghost predicate Shuts(thinking: bool, c: Chunk, i: int) {
    c.Chunk? && !Cuts(thinking, c) && ((c.calls != [] && c.index == i) || c.finish)
  }

  lemma BeforeCallsNote(s: State, c: Chunk, i: int)
    requires c.Chunk?
    ensures var said := Tells(s.flow.inThinking, c, i);
            NoteOf(BeforeCalls(s, c), i) == if said != "" then Told(NoteOf(s, i), i, said) else NoteOf(s, i)
  {
    OpenNote(s, i);
    OpenMute(s);
    StartReasoningNote(Open(s), c.index, i);
    ReasonNote(StartReasoning(Open(s), c.index), c.reasoning, i);
    ReasoningWords(Open(s), c.index, c.reasoning);
    OnContentNote(OnReasoning(Open(s), c.index, c.reasoning), c.index, c.content, i);
  }

  lemma OnCallsNote(s: State, idx: int, calls: seq<Fragment>, i: int)
    ensures NoteOf(OnCalls(s, idx, calls), i) ==
            if calls != [] && idx == i then Sealed(NoteOf(s, i), i) else NoteOf(s, i)
  {
    CloseMessageNote(s, idx, i);
    TakeUpToNote(CloseMessage(s, idx), calls, |calls|, i);
  }

  /** One chunk: the message is told its part, and then closed if the chunk closes it. */
  lemma ConvertNote(s: State, c: Chunk, i: int)
    ensures var said := Tells(s.flow.inThinking, c, i);
            var told := if said != "" then Told(NoteOf(s, i), i, said) else NoteOf(s, i);
            NoteOf(Convert(s, c), i) == if Shuts(s.flow.inThinking, c, i) then Sealed(told, i) else told
  {
    if c.Chunk? {
      BeforeCallsWords(s, c);
      ConvertStages(s, c);
      BeforeCallsNote(s, c, i);
      var s2 := BeforeCalls(s, c);
      OnCallsNote(s2, c.index, c.calls, i);
      CloseAllNote(OnCalls(s2, c.index, c.calls), i);
    }
  }

  // ---- whole streams ----

  /** What each chunk tells a message. */
  ghost function Parts(chunks: seq<Chunk>, i: int): (parts: seq<string>)
    ensures |parts| == |chunks|
    ensures forall p | 0 <= p < |chunks| :: parts[p] == Tells(Pondering(chunks, p), chunks[p], i)
  {
    seq(|chunks|, p requires 0 <= p < |chunks| => Tells(Pondering(chunks, p), chunks[p], i))
  }

  /** Whether each chunk can close it. */
  ghost function Closes(chunks: seq<Chunk>, i: int): (shuts: seq<bool>)
    ensures |shuts| == |chunks|
    ensures forall p | 0 <= p < |chunks| :: shuts[p] == Shuts(Pondering(chunks, p), chunks[p], i)
  {
    seq(|chunks|, p requires 0 <= p < |chunks| => Shuts(Pondering(chunks, p), chunks[p], i))
  }

  ghost function Joined(parts: seq<string>, n: nat): string
    requires n <= |parts|
  {
    if n == 0 then "" else Joined(parts, n - 1) + parts[n - 1]
  }

  /** The chunk, counted from 1, that closes a message: the first that can once it has text. */
  ghost function ShutIn(parts: seq<string>, shuts: seq<bool>, n: nat): (m: Option<nat>)
    requires n <= |parts| == |shuts|
    ensures m.Some? ==> m.value <= n
  {
    if n == 0 then None
    else if ShutIn(parts, shuts, n - 1).Some? then ShutIn(parts, shuts, n - 1)
    else if shuts[n - 1] && Joined(parts, n) != "" then Some(n)
    else None
  }

  /** A message opened once and done at most once, with one text throughout. */
  ghost function LifeOf(added: bool, done: Option<string>, i: int): seq<Body> {
    (if added then [MsgAdded(i)] + [MsgPartAdded(i)] else [])
    + if done.Some? then [TextDone(i, done.value)] + [MsgPartDone(i, done.value)] + [MsgItemDone(i, done.value)] else []
  }

  ghost function NoteAfter(parts: seq<string>, shuts: seq<bool>, n: nat, i: int): Note
    requires n <= |parts| == |shuts|
  {
    var text, m := Joined(parts, n), ShutIn(parts, shuts, n);
    Note(text != "", text != "", text, m.Some?,
         LifeOf(text != "", if m.Some? then Some(Joined(parts, m.value)) else None, i))
  }

  lemma {:induction false} ShutHasText(parts: seq<string>, shuts: seq<bool>, n: nat)
    requires n <= |parts| == |shuts|
    ensures ShutIn(parts, shuts, n).Some? ==> Joined(parts, n) != ""
  {
    if n > 0 {
      ShutHasText(parts, shuts, n - 1);
      GrowsIff("", Joined(parts, n - 1), parts[n - 1]);
    }
  }

  lemma ToldLife(i: int, text: string)
    ensures LifeOf(true, None, i) == LifeOf(false, None, i) + [MsgAdded(i)] + [MsgPartAdded(i)]
    ensures LifeOf(true, Some(text), i)
         == LifeOf(true, None, i) + [TextDone(i, text)] + [MsgPartDone(i, text)] + [MsgItemDone(i, text)]
  {
  }

  /** One chunk more, told and perhaps shut. */
  lemma NoteAfterNext(parts: seq<string>, shuts: seq<bool>, n: nat, i: int)
    requires n < |parts| == |shuts|
    ensures var was := NoteAfter(parts, shuts, n, i);
            var told := if parts[n] != "" then Told(was, i, parts[n]) else was;
            NoteAfter(parts, shuts, n + 1, i) == if shuts[n] then Sealed(told, i) else told
  {
    GrowsIff("", Joined(parts, n), parts[n]);
    ShutHasText(parts, shuts, n);
    ToldLife(i, Joined(parts, n + 1));
    if parts[n] == "" {
      assert Joined(parts, n) + parts[n] == Joined(parts, n);
    }
  }

  /** The state's note is the one read off the chunks. */
  ghost predicate Noted(chunks: seq<Chunk>, n: nat, i: int) {
    n <= |chunks| && NoteOf(Run(chunks, n), i) == NoteAfter(Parts(chunks, i), Closes(chunks, i), n, i)
  }

  lemma NoteNext(chunks: seq<Chunk>, n: nat, i: int)
    requires n < |chunks| && Noted(chunks, n, i)
    ensures Noted(chunks, n + 1, i)
  {
    RunWords(chunks, n);
    ConvertNote(Run(chunks, n), chunks[n], i);
    NoteAfterNext(Parts(chunks, i), Closes(chunks, i), n, i);
  }

  lemma NoteStart(chunks: seq<Chunk>, i: int)
    ensures Noted(chunks, 0, i)
  {
  }

  lemma RunNote(chunks: seq<Chunk>, n: nat, i: int)
    requires n <= |chunks|
    ensures Noted(chunks, n, i)
  {
    NoteStart(chunks, i);
    for m := 0 to n
      invariant Noted(chunks, m, i)
    {
      NoteNext(chunks, m, i);
    }
  }

  /** Everything a stream tells a message, up to its first n chunks. */
  ghost function Telling(chunks: seq<Chunk>, n: nat, i: int): string
    requires n <= |chunks|
  {
    Joined(Parts(chunks, i), n)
  }

  /** The chunk count at which a message of a flushed stream is closed: its closing chunk, or the end. */
  ghost function ShutAt(chunks: seq<Chunk>, i: int): (m: Option<nat>)
    ensures m.Some? ==> m.value <= |chunks|
  {
    var n, m := |chunks|, ShutIn(Parts(chunks, i), Closes(chunks, i), |chunks|);
    if m.Some? then m else if !Finished(Beats(chunks), n) && Telling(chunks, n, i) != "" then Some(n) else None
  }

  /**
   * A message told anything is opened once, item and part, and done once, text, part and item, each with exactly
   * what it was told up to its closing; without a closing it is not done.
   */
  lemma DoneTextIs(chunks: seq<Chunk>, i: int)
    ensures var m := ShutAt(chunks, i);
            Life(Ended(chunks).log, i) ==
            LifeOf(Telling(chunks, |chunks|, i) != "", if m.Some? then Some(Telling(chunks, m.value, i)) else None, i)
  {
    var n := |chunks|;
    RunNote(chunks, n, i);
    RunClosing(chunks, n);
    if !Finished(Beats(chunks), n) {
      CloseAllNote(Run(chunks, n), i);
      ToldLife(i, Telling(chunks, n, i));
    }
  }

  /** Nothing is told after the m-th chunk. */
  ghost predicate Silent(parts: seq<string>, m: nat) { forall q | m <= q < |parts| :: parts[q] == "" }

  lemma GrowsIff(a: string, b: string, more: string)
    requires |a| <= |b|
    ensures |a| <= |b + more| && (a == b + more <==> a == b && more == "")
  {
    if more == "" {
      assert b + more == b;
    }
  }

  lemma {:induction false} SilentIff(parts: seq<string>, m: nat, n: nat)
    requires m <= n <= |parts|
    ensures |Joined(parts, m)| <= |Joined(parts, n)|
    ensures Joined(parts, m) == Joined(parts, n) <==> forall q | m <= q < n :: parts[q] == ""
    decreases n
  {
    if m < n {
      SilentIff(parts, m, n - 1);
      GrowsIff(Joined(parts, m), Joined(parts, n - 1), parts[n - 1]);
    }
  }

  lemma LifeTellsText(i: int)
    ensures forall a: string, b: string | LifeOf(true, Some(a), i) == LifeOf(true, Some(b), i) :: a == b
    ensures forall a: string :: LifeOf(true, Some(a), i) != LifeOf(true, None, i)
  {
    forall a: string, b: string | LifeOf(true, Some(a), i) == LifeOf(true, Some(b), i) ensures a == b {
      assert LifeOf(true, Some(a), i)[2] == TextDone(i, a);
    }
    forall a: string ensures LifeOf(true, Some(a), i) != LifeOf(true, None, i) {
      assert |LifeOf(true, Some(a), i)| == 5;
    }
  }

  /**
   * For every stream, a message with text is done with its whole text exactly if it is closed and told nothing after
   * its closing: after a chunk with its index and tool calls, a finishing chunk, or the end if none finishes.
   */
  lemma DoneTextIsWholeIff(chunks: seq<Chunk>, i: int)
    requires Telling(chunks, |chunks|, i) != ""
    ensures var m := ShutAt(chunks, i);
            Life(Ended(chunks).log, i) == LifeOf(true, Some(Telling(chunks, |chunks|, i)), i) <==>
            m.Some? && Silent(Parts(chunks, i), m.value)
  {
    DoneTextIs(chunks, i);
    LifeTellsText(i);
    if ShutAt(chunks, i).Some? {
      SilentIff(Parts(chunks, i), ShutAt(chunks, i).value, |chunks|);
    }
  }
}
