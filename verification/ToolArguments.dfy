/** How tool-call fragments become streamed deltas and final arguments. */
module ToolArguments {
  import opened Config
  import opened ChatToResponses
  import opened StreamMonitor
  import opened StreamLifecycle

  // ---- reading the fragments ----

  ghost function LastId(fs: seq<Fragment>, i: int): Option<Id> {
    if fs == [] then None
    else
      var f := fs[|fs| - 1];
      if f.index == i && f.id.Some? then f.id else LastId(fs[..|fs| - 1], i)
  }

  ghost function LastName(fs: seq<Fragment>, i: int): Option<Id> {
    if fs == [] then None
    else
      var f := fs[|fs| - 1];
      if f.index == i && f.name.Some? then f.name else LastName(fs[..|fs| - 1], i)
  }

  /** Both id and name of the call have arrived. */
  ghost predicate Known(fs: seq<Fragment>, i: int) { LastId(fs, i).Some? && LastName(fs, i).Some? }

  /** Every argument fragment of the call, in order. */
  ghost function All(fs: seq<Fragment>, i: int): string {
    if fs == [] then ""
    else
      var f := fs[|fs| - 1];
      All(fs[..|fs| - 1], i) + if f.index == i then f.args else ""
  }

  /** Those that arrived before id and name were both known. */
  ghost function Early(fs: seq<Fragment>, i: int): string {
    if fs == [] then ""
    else
      var f := fs[|fs| - 1];
      Early(fs[..|fs| - 1], i) + if f.index == i && !Known(fs, i) then f.args else ""
  }

  /** Those that arrived with id and name known. */
  ghost function Late(fs: seq<Fragment>, i: int): string {
    if fs == [] then ""
    else
      var f := fs[|fs| - 1];
      Late(fs[..|fs| - 1], i) + if f.index == i && Known(fs, i) then f.args else ""
  }

  lemma KnownStays(fs: seq<Fragment>, i: int)
    requires fs != [] && Known(fs[..|fs| - 1], i)
    ensures Known(fs, i)
  {
  }

  lemma {:induction false} LateNeedsKnown(fs: seq<Fragment>, i: int)
    ensures !Known(fs, i) ==> Late(fs, i) == ""
  {
    if fs != [] {
      LateNeedsKnown(fs[..|fs| - 1], i);
      if Known(fs[..|fs| - 1], i) {
        KnownStays(fs, i);
      }
    }
  }

  /** What arrived early is a prefix of what arrived, and the rest is what arrived late. */
  lemma {:induction false} EarlyThenLate(fs: seq<Fragment>, i: int)
    ensures All(fs, i) == Early(fs, i) + Late(fs, i)
  {
    if fs != [] {
      EarlyThenLate(fs[..|fs| - 1], i);
      LateNeedsKnown(fs, i);
    }
  }

  // ---- reading the log ----

  /** The argument deltas emitted for one call, concatenated. */
  ghost function ArgDeltas(log: seq<Event>, i: int): string {
    if log == [] then ""
    else
      var b := log[|log| - 1].body;
      ArgDeltas(log[..|log| - 1], i) + if b.ArgsDelta? && b.idx == i then b.args else ""
  }

  /** The arguments a call was done with. */
  ghost function DoneArgs(log: seq<Event>, i: int): Option<string> {
    if log == [] then None
    else
      var b := log[|log| - 1].body;
      if b.ArgsDone? && b.idx == i then Some(b.args) else DoneArgs(log[..|log| - 1], i)
  }

  lemma ArgsSnoc(log: seq<Event>, e: Event, i: int)
    ensures ArgDeltas(log + [e], i) ==
            ArgDeltas(log, i) + if e.body.ArgsDelta? && e.body.idx == i then e.body.args else ""
    ensures DoneArgs(log + [e], i) ==
            if e.body.ArgsDone? && e.body.idx == i then Some(e.body.args) else DoneArgs(log, i)
  {
    assert (log + [e])[..|log|] == log;
  }

  // ---- the invariant, one call index at a time ----

  ghost predicate Learnt(c: Calls, i: int) {
    && (if i in c.ids then Some(c.ids[i]) else None) == LastId(c.frags, i)
    && (if i in c.names then Some(c.names[i]) else None) == LastName(c.frags, i)
  }

  ghost predicate Closed(c: Calls, done: Option<string>, i: int) {
    if i in c.done then
      i in c.frozen && c.frozen[i] <= |c.frags| && done == Some(OrEmptyObject(All(c.frags[..c.frozen[i]], i)))
    else done == None
  }

  ghost predicate ArgInv(s: State, i: int) {
    && Learnt(s.calls, i)
    && (i in s.calls.added <==> Known(s.calls.frags, i))
    && Get(s.calls.args, i) == All(s.calls.frags, i)
    && ArgDeltas(s.log, i) == Late(s.calls.frags, i)
    && Closed(s.calls, DoneArgs(s.log, i), i)
  }

  // ---- the helpers that do not concern calls ----

  predicate Plain(b: Body) {
    !b.CallAdded? && !b.ArgsDelta? && !b.ArgsDone? && !b.CallItemDone? && !b.Completed?
  }

  /** Only plain events were appended. */
  ghost predicate Extends(a: seq<Event>, b: seq<Event>) {
    |a| <= |b| && b[..|a|] == a && forall p | |a| <= p < |b| :: Plain(b[p].body)
  }

  /** Nothing about calls changed. */
  ghost predicate Quiet(s: State, t: State) {
    t.calls == s.calls && t.flow.completed == s.flow.completed && Extends(s.log, t.log)
  }

  lemma QuietThen(s: State, t: State, u: State)
    requires Quiet(s, t) && Quiet(t, u)
    ensures Quiet(s, u)
  {
    assert u.log[..|s.log|] == u.log[..|t.log|][..|s.log|];
    forall p | |s.log| <= p < |u.log| ensures Plain(u.log[p].body) {
      if p < |t.log| {
        assert u.log[p] == t.log[p];
      }
    }
  }

  lemma {:induction false} ExtendsArgs(a: seq<Event>, b: seq<Event>, i: int)
    requires Extends(a, b)
    ensures ArgDeltas(b, i) == ArgDeltas(a, i) && DoneArgs(b, i) == DoneArgs(a, i)
    decreases |b|
  {
    if |a| < |b| {
      assert b[..|b| - 1][..|a|] == a;
      ExtendsArgs(a, b[..|b| - 1], i);
    } else {
      assert a == b;
    }
  }

  lemma QuietKeeps(s: State, t: State, i: int)
    requires Quiet(s, t) && ArgInv(s, i)
    ensures ArgInv(t, i)
  {
    ExtendsArgs(s.log, t.log, i);
  }

  lemma EmitQuiet(s: State, b: Body)
    requires Plain(b)
    ensures Quiet(s, Emit(s, b))
  {
  }

  lemma EmitTwoQuiet(s: State, a: Body, b: Body)
    requires Plain(a) && Plain(b)
    ensures Quiet(s, Emit(Emit(s, a), b))
  {
    EmitQuiet(s, a);
    EmitQuiet(Emit(s, a), b);
    QuietThen(s, Emit(s, a), Emit(Emit(s, a), b));
  }

  lemma EmitThreeQuiet(s: State, a: Body, b: Body, c: Body)
    requires Plain(a) && Plain(b) && Plain(c)
    ensures Quiet(s, Emit(Emit(Emit(s, a), b), c))
  {
    EmitTwoQuiet(s, a, b);
    var t := Emit(Emit(s, a), b);
    EmitQuiet(t, c);
    QuietThen(s, t, Emit(t, c));
  }

  lemma OpenQuiet(s: State)
    ensures Quiet(s, Open(s))
  {
    EmitTwoQuiet(s.(flow := s.flow.(started := true)), Created, InProgress);
  }

  lemma StartReasoningQuiet(s: State, idx: int)
    ensures Quiet(s, StartReasoning(s, idx))
  {
    EmitTwoQuiet(s.(flow := s.flow.(reasoning := Some(idx))), ReasoningAdded(idx), ReasoningPartAdded(idx));
  }

  lemma ReasonQuiet(s: State, text: string)
    ensures Quiet(s, Reason(s, text))
  {
    EmitQuiet(s.(flow := s.flow.(reasoningBuf := s.flow.reasoningBuf + text)), ReasoningDelta(s.flow.reasoning, text));
  }

  lemma CloseReasoningQuiet(s: State)
    ensures Quiet(s, CloseReasoning(s))
  {
    var b := s.flow.reasoningBuf;
    var s1 := s.(flow := s.flow.(reasoningDone := true));
    EmitThreeQuiet(s1, ReasoningTextDone(b), ReasoningPartDone(b), ReasoningItemDone(b));
  }

  lemma SayQuiet(s: State, idx: int, text: string)
    ensures Quiet(s, Say(s, idx, text))
  {
    EmitQuiet(s.(msgs := s.msgs.(added := s.msgs.added + {idx})), MsgAdded(idx));
    var s1 := AddMessage(s, idx);
    assert Quiet(s, s1);
    EmitQuiet(s1.(msgs := s1.msgs.(part := s1.msgs.part + {idx})), MsgPartAdded(idx));
    var s2 := AddPart(s1, idx);
    assert Quiet(s1, s2);
    EmitQuiet(s2.(msgs := s2.msgs.(text := s2.msgs.text[idx := Get(s2.msgs.text, idx) + text])), TextDelta(idx, text));
    QuietThen(s, s1, s2);
    QuietThen(s, s2, Say(s, idx, text));
  }

  lemma CloseMessageQuiet(s: State, idx: int)
    ensures Quiet(s, CloseMessage(s, idx))
  {
    var t := Get(s.msgs.text, idx);
    var s1 := s.(msgs := s.msgs.(done := s.msgs.done + {idx}));
    EmitThreeQuiet(s1, TextDone(idx, t), MsgPartDone(idx, t), MsgItemDone(idx, t));
  }

  lemma {:induction false} CloseMessagesQuiet(s: State, keys: set<int>)
    ensures Quiet(s, CloseMessages(s, keys))
    decreases |keys|
  {
    if keys != {} {
      var k := Least(keys);
      CloseMessageQuiet(s, k);
      CloseMessagesQuiet(CloseMessage(s, k), keys - {k});
      QuietThen(s, CloseMessage(s, k), CloseMessages(s, keys));
    }
  }

  lemma OnReasoningQuiet(s: State, idx: int, text: string)
    ensures Quiet(s, OnReasoning(s, idx, text))
  {
    StartReasoningQuiet(s, idx);
    ReasonQuiet(StartReasoning(s, idx), text);
    QuietThen(s, StartReasoning(s, idx), Reason(StartReasoning(s, idx), text));
  }

  lemma OnThinkQuiet(s: State, idx: int, content: string)
    ensures Quiet(s, OnThink(s, idx, content).0)
  {
    StartReasoningQuiet(Thinking(s, true), idx);
  }

  lemma OnEndThinkQuiet(s: State, content: string)
    ensures Quiet(s, OnEndThink(s, content).0)
  {
    if Contains(content, END_THINK) {
      var part := content[..Find(content, END_THINK)];
      ReasonQuiet(s, part);
      CloseReasoningQuiet(Reason(s, part));
      QuietThen(s, Reason(s, part), CloseReasoning(Reason(s, part)));
    }
  }

  lemma OnContentQuiet(s: State, idx: int, content: string)
    ensures Quiet(s, OnContent(s, idx, content).0)
  {
    OnThinkQuiet(s, idx, content);
    var t := OnThink(s, idx, content);
    OnEndThinkQuiet(t.0, t.1);
    var u := OnEndThink(t.0, t.1);
    QuietThen(s, t.0, u.0);
    ReasonQuiet(u.0, u.1);
    QuietThen(s, u.0, Reason(u.0, u.1));
    SayQuiet(u.0, idx, u.1);
    QuietThen(s, u.0, Say(u.0, idx, u.1));
  }

  /** Everything a chunk does before its tool calls. */
  ghost function BeforeCalls(s: State, c: Chunk): State
    requires c.Chunk?
  {
    OnContent(OnReasoning(Open(s), c.index, c.reasoning), c.index, c.content).0
  }

  lemma BeforeCallsQuiet(s: State, c: Chunk)
    requires c.Chunk?
    ensures Quiet(s, BeforeCalls(s, c))
  {
    OpenQuiet(s);
    OnReasoningQuiet(Open(s), c.index, c.reasoning);
    var s1 := OnReasoning(Open(s), c.index, c.reasoning);
    QuietThen(s, Open(s), s1);
    OnContentQuiet(s1, c.index, c.content);
    QuietThen(s, s1, BeforeCalls(s, c));
  }

  /** Everything a closing does before the calls. */
  ghost function BeforeClose(s: State): State { CloseReasoning(CloseMessages(s, s.msgs.added)) }

  lemma BeforeCloseQuiet(s: State)
    ensures Quiet(s, BeforeClose(s))
  {
    CloseMessagesQuiet(s, s.msgs.added);
    var s1 := CloseMessages(s, s.msgs.added);
    CloseReasoningQuiet(s1);
    QuietThen(s, s1, BeforeClose(s));
  }

  // ---- the helpers that do concern calls ----

  lemma FragSnoc(fs: seq<Fragment>, f: Fragment, i: int)
    ensures LastId(fs + [f], i) == if f.index == i && f.id.Some? then f.id else LastId(fs, i)
    ensures LastName(fs + [f], i) == if f.index == i && f.name.Some? then f.name else LastName(fs, i)
    ensures All(fs + [f], i) == All(fs, i) + if f.index == i then f.args else ""
    ensures Late(fs + [f], i) == Late(fs, i) + if f.index == i && Known(fs + [f], i) then f.args else ""
    ensures Early(fs + [f], i) == Early(fs, i) + if f.index == i && !Known(fs + [f], i) then f.args else ""
  {
    assert (fs + [f])[..|fs|] == fs;
  }

  /** After a fragment is noted and before its arguments are collected. */
  ghost predicate MidTake(s: State, fs: seq<Fragment>, f: Fragment, i: int) {
    && s.calls.frags == fs + [f]
    && Learnt(s.calls, i)
    && Get(s.calls.args, i) == All(fs, i)
    && ArgDeltas(s.log, i) == Late(fs, i)
    && Closed(s.calls, DoneArgs(s.log, i), i)
  }

  lemma LearnStep(s: State, f: Fragment, i: int)
    requires ArgInv(s, i)
    ensures MidTake(s.(calls := Learn(s.calls, f)), s.calls.frags, f, i)
    ensures Known(s.calls.frags, i) ==> Known(s.calls.frags + [f], i)
    ensures f.index != i ==> (Known(s.calls.frags, i) <==> Known(s.calls.frags + [f], i))
  {
    var l := Learn(s.calls, f);
    FragSnoc(s.calls.frags, f, i);
    if i in s.calls.done {
      assert l.frags[..l.frozen[i]] == s.calls.frags[..l.frozen[i]];
    }
  }

  lemma AnnounceStep(s: State, fs: seq<Fragment>, f: Fragment, i: int)
    requires MidTake(s, fs, f, i)
    requires i in s.calls.added ==> Known(s.calls.frags, i)
    requires f.index != i ==> (i in s.calls.added <==> Known(s.calls.frags, i))
    ensures MidTake(Announce(s, f.index), fs, f, i)
    ensures i in Announce(s, f.index).calls.added <==> Known(s.calls.frags, i)
    ensures Announce(s, f.index).calls.frags == s.calls.frags
  {
    var k, c := f.index, s.calls;
    if k !in c.added && k in c.ids && k in c.names {
      ArgsSnoc(s.log, Event(s.number + 1, CallAdded(k, c.ids[k], c.names[k])), i);
    }
  }

  lemma CollectEffect(s: State, k: int, args: string, i: int)
    ensures var t := Collect(s, k, args);
            && ArgDeltas(t.log, i) ==
               ArgDeltas(s.log, i) + (if k == i && k in s.calls.added && k in s.calls.ids then args else "")
            && DoneArgs(t.log, i) == DoneArgs(s.log, i)
            && Get(t.calls.args, i) == Get(s.calls.args, i) + (if k == i then args else "")
            && t.calls == s.calls.(args := t.calls.args)
  {
    if args != "" && k in s.calls.added && k in s.calls.ids {
      ArgsSnoc(s.log, Event(s.number + 1, ArgsDelta(k, s.calls.ids[k], args)), i);
    }
  }

  lemma CollectStep(s: State, fs: seq<Fragment>, f: Fragment, i: int)
    requires MidTake(s, fs, f, i) && (i in s.calls.added <==> Known(s.calls.frags, i))
    ensures ArgInv(Collect(s, f.index, f.args), i)
  {
    FragSnoc(fs, f, i);
    CollectEffect(s, f.index, f.args, i);
  }

  lemma TakeKeepsArgs(s: State, f: Fragment, i: int)
    requires ArgInv(s, i)
    ensures ArgInv(Take(s, f), i)
  {
    LearnStep(s, f, i);
    var l := s.(calls := Learn(s.calls, f));
    AnnounceStep(l, s.calls.frags, f, i);
    CollectStep(Announce(l, f.index), s.calls.frags, f, i);
  }

  lemma TakeUpToKeepsArgs(s: State, calls: seq<Fragment>, n: nat, i: int)
    requires ArgInv(s, i) && n <= |calls|
    ensures ArgInv(TakeUpTo(s, calls, n), i)
  {
    for k := 0 to n
      invariant ArgInv(TakeUpTo(s, calls, k), i)
    {
      TakeKeepsArgs(TakeUpTo(s, calls, k), calls[k], i);
    }
  }

  lemma CloseCallKeepsArgs(s: State, k: int, i: int)
    requires ArgInv(s, i)
    ensures ArgInv(CloseCall(s, k), i)
  {
    var c := s.calls;
    if k in c.ids && k !in c.done {
      CloseCallLog(s, k, i);
      MarkedIsClosed(c, DoneArgs(s.log, i), k, i);
    }
  }

  lemma CloseCallLog(s: State, k: int, i: int)
    requires k in s.calls.ids && k !in s.calls.done
    ensures var t := CloseCall(s, k);
            && t.calls == MarkDone(s.calls, k)
            && ArgDeltas(t.log, i) == ArgDeltas(s.log, i)
            && DoneArgs(t.log, i) == if k == i then Some(OrEmptyObject(Get(s.calls.args, i))) else DoneArgs(s.log, i)
  {
    var c := s.calls;
    var id, args := c.ids[k], OrEmptyObject(Get(c.args, k));
    var name := if k in c.names then Some(c.names[k]) else None;
    var s1 := Emit(s.(calls := MarkDone(c, k)), ArgsDone(k, id, args));
    ArgsSnoc(s.log, Event(s.number + 1, ArgsDone(k, id, args)), i);
    ArgsSnoc(s1.log, Event(s1.number + 1, CallItemDone(k, id, name, args)), i);
  }

  lemma MarkedIsClosed(c: Calls, done: Option<string>, k: int, i: int)
    requires Closed(c, done, i) && Get(c.args, i) == All(c.frags, i)
    ensures Closed(MarkDone(c, k), if k == i then Some(OrEmptyObject(Get(c.args, i))) else done, i)
  {
    assert c.frags[..|c.frags|] == c.frags;
  }

  lemma {:induction false} CloseCallsKeepsArgs(s: State, keys: set<int>, i: int)
    requires ArgInv(s, i)
    ensures ArgInv(CloseCalls(s, keys), i)
    decreases |keys|
  {
    if keys != {} {
      var k := Least(keys);
      CloseCallKeepsArgs(s, k, i);
      CloseCallsKeepsArgs(CloseCall(s, k), keys - {k}, i);
    }
  }

  lemma CloseAllKeepsArgs(s: State, i: int)
    requires ArgInv(s, i)
    ensures ArgInv(CloseAll(s), i)
  {
    BeforeCloseQuiet(s);
    var s2 := BeforeClose(s);
    QuietKeeps(s, s2, i);
    CloseCallsKeepsArgs(s2, s2.calls.ids.Keys, i);
    var s3 := CloseCalls(s2, s2.calls.ids.Keys);
    ArgsSnoc(s3.log, Event(s3.number + 1, Completed), i);
  }

  lemma OnCallsKeepsArgs(s: State, idx: int, calls: seq<Fragment>, i: int)
    requires ArgInv(s, i)
    ensures ArgInv(OnCalls(s, idx, calls), i)
  {
    CloseMessageQuiet(s, idx);
    QuietKeeps(s, CloseMessage(s, idx), i);
    TakeUpToKeepsArgs(CloseMessage(s, idx), calls, |calls|, i);
  }

  lemma ConvertKeepsArgs(s: State, c: Chunk, i: int)
    requires ArgInv(s, i)
    ensures ArgInv(Convert(s, c), i)
  {
    if c.Chunk? {
      BeforeCallsQuiet(s, c);
      var s2 := BeforeCalls(s, c);
      QuietKeeps(s, s2, i);
      OnCallsKeepsArgs(s2, c.index, c.calls, i);
      CloseAllKeepsArgs(OnCalls(s2, c.index, c.calls), i);
    }
  }

  lemma {:induction false} RunKeepsArgs(chunks: seq<Chunk>, n: nat, i: int)
    requires n <= |chunks|
    ensures ArgInv(Run(chunks, n), i)
  {
    if n > 0 {
      RunKeepsArgs(chunks, n - 1, i);
      ConvertKeepsArgs(Run(chunks, n - 1), chunks[n - 1], i);
    }
  }

  lemma EndedKeepsArgs(chunks: seq<Chunk>, i: int)
    ensures ArgInv(Ended(chunks), i)
  {
    RunKeepsArgs(chunks, |chunks|, i);
    CloseAllKeepsArgs(Run(chunks, |chunks|), i);
  }

  /**
   * Argument buffering, for every interleaving of fragments: a call is announced exactly when its id and name have
   * both arrived; the deltas streamed for it are its fragments minus exactly the prefix that arrived earlier; and a
   * closed call's arguments are all its fragments received before it was closed, "{}" when there were none.
   */
  lemma ArgumentsAreComplete(chunks: seq<Chunk>, i: int)
    ensures var s := Ended(chunks);
            var c := s.calls;
            && (i in c.added <==> Known(c.frags, i))
            && All(c.frags, i) == Early(c.frags, i) + ArgDeltas(s.log, i)
            && (i in c.done ==>
                  i in c.frozen && c.frozen[i] <= |c.frags|
                  && var got := All(c.frags[..c.frozen[i]], i);
                     DoneArgs(s.log, i) == Some(if got == "" then "{}" else got))
            && (i !in c.done ==> DoneArgs(s.log, i) == None)
  {
    EndedKeepsArgs(chunks, i);
    EarlyThenLate(Ended(chunks).calls.frags, i);
  }

  // ---- which fragments count as received ----

  /** Content inside an open thinking block ends the chunk early. */
  ghost predicate Swallows(s: State, c: Chunk) {
    c.Chunk? && OnContent(OnReasoning(Open(s), c.index, c.reasoning), c.index, c.content).1
  }

  ghost function CallsOfChunk(c: Chunk): seq<Fragment> { if c.Chunk? then c.calls else [] }

  /** A chunk's fragments all reach the call machinery, unless its content is swallowed: then none does. */
  lemma FragmentsReceived(s: State, c: Chunk)
    ensures Convert(s, c).calls.frags == s.calls.frags + if Swallows(s, c) then [] else CallsOfChunk(c)
  {
    if c.Chunk? {
      BeforeCallsQuiet(s, c);
      var s2 := BeforeCalls(s, c);
      CloseMessageQuiet(s2, c.index);
      TakeUpToFrags(CloseMessage(s2, c.index), c.calls, |c.calls|);
      assert c.calls[..|c.calls|] == c.calls;
      CloseAllFrags(OnCalls(s2, c.index, c.calls));
    }
  }

  /** Content without its first start tag. */
  ghost function Unopened(content: string): string {
    if Contains(content, THINK) then
      content[..Find(content, THINK)] + content[Find(content, THINK) + |THINK|..]
    else content
  }

  lemma OpeningKeepsThinking(s: State, idx: int, text: string)
    ensures OnReasoning(Open(s), idx, text).flow.inThinking == s.flow.inThinking
  {
  }

  /**
   * A chunk is cut short exactly if a thinking block is open or opened by it, not closed by it, and some content is
   * left besides the start tag.
   */
  lemma SwallowsIff(s: State, c: Chunk)
    requires c.Chunk?
    ensures Swallows(s, c) <==>
            && (s.flow.inThinking || Contains(c.content, THINK))
            && !Contains(Unopened(c.content), END_THINK)
            && Unopened(c.content) != ""
  {
    OpeningKeepsThinking(s, c.index, c.reasoning);
    var s1 := OnReasoning(Open(s), c.index, c.reasoning);
    if c.content != "" {
      var t := OnThink(s1, c.index, c.content);
      assert t.1 == Unopened(c.content);
      assert t.0.flow.inThinking == (s1.flow.inThinking || Contains(c.content, THINK));
    } else {
      assert !Contains(c.content, THINK);
    }
  }

  /** A chunk cut short loses its tool calls and its finish. */
  lemma ThinkingSwallows(s: State, c: Chunk)
    requires Swallows(s, c)
    ensures Convert(s, c).calls == s.calls && Convert(s, c).flow.completed == s.flow.completed
  {
    BeforeCallsQuiet(s, c);
  }

  lemma CloseAllCompletes(s: State)
    ensures CloseAll(s).flow.completed
  {
  }

  lemma TakeFlow(s: State, f: Fragment)
    ensures Take(s, f).flow == s.flow
  {
  }

  lemma TakeUpToFlow(s: State, calls: seq<Fragment>, n: nat)
    requires n <= |calls|
    ensures TakeUpTo(s, calls, n).flow == s.flow
  {
    for k := 0 to n
      invariant TakeUpTo(s, calls, k).flow == s.flow
    {
      TakeFlow(TakeUpTo(s, calls, k), calls[k]);
    }
  }

  /** A chunk's finish completes the response unless the chunk is cut short. */
  lemma FinishTaken(s: State, c: Chunk)
    ensures Convert(s, c).flow.completed <==> s.flow.completed || (c.Chunk? && c.finish && !Swallows(s, c))
  {
    if c.Chunk? {
      BeforeCallsQuiet(s, c);
      var s2 := BeforeCalls(s, c);
      CloseMessageQuiet(s2, c.index);
      TakeUpToFlow(CloseMessage(s2, c.index), c.calls, |c.calls|);
      CloseAllCompletes(OnCalls(s2, c.index, c.calls));
    }
  }

  lemma TakeFrags(s: State, f: Fragment)
    ensures Take(s, f).calls.frags == s.calls.frags + [f]
  {
  }

  lemma TakeUpToFrags(s: State, calls: seq<Fragment>, n: nat)
    requires n <= |calls|
    ensures TakeUpTo(s, calls, n).calls.frags == s.calls.frags + calls[..n]
  {
    for k := 0 to n
      invariant TakeUpTo(s, calls, k).calls.frags == s.calls.frags + calls[..k]
    {
      TakeFrags(TakeUpTo(s, calls, k), calls[k]);
      OneMore(s.calls.frags, calls, k);
    }
  }

  lemma OneMore(fs: seq<Fragment>, calls: seq<Fragment>, k: nat)
    requires k < |calls|
    ensures (fs + calls[..k]) + [calls[k]] == fs + calls[..k + 1]
  {
  }

  lemma {:induction false} CloseCallsFrags(s: State, keys: set<int>)
    ensures CloseCalls(s, keys).calls.frags == s.calls.frags
    decreases |keys|
  {
    if keys != {} {
      var k := Least(keys);
      CloseCallsFrags(CloseCall(s, k), keys - {k});
    }
  }

  lemma CloseAllFrags(s: State)
    ensures CloseAll(s).calls.frags == s.calls.frags
  {
    BeforeCloseQuiet(s);
    var s2 := BeforeClose(s);
    CloseCallsFrags(s2, s2.calls.ids.Keys);
  }
}
