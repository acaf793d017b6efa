/** What a Chat stream says, think tags included, and what of it reaches the call machinery. */
module StreamWords {
  import opened Config
  import opened ChatToResponses
  import opened StreamLifecycle
  import opened ToolArguments
  import opened Pipeline

  // ---- reading the tags ----

  /** A thinking block is open after the chunk. */
  ghost predicate Ponders(thinking: bool, c: Chunk) {
    if c.NoChoice? then thinking
    else !Contains(Unopened(c.content), END_THINK) && (thinking || Contains(c.content, THINK))
  }

  /** The chunk is cut short: its calls and its finish are not looked at. */
  ghost predicate Cuts(thinking: bool, c: Chunk) {
    c.Chunk? && Ponders(thinking, c) && Unopened(c.content) != ""
  }

  ghost function Thoughts(text: string): seq<Word> { if text == "" then [] else [Mused(text)] }

  ghost function Speech(text: string): seq<Word> { if text == "" then [] else [Said(text)] }

  /** Content up to an end tag, or inside an open block, is thought; the rest is said. Start tags are dropped. */
  ghost function ContentWords(thinking: bool, content: string): seq<Word> {
    var rest := Unopened(content);
    if Contains(rest, END_THINK) then
      var i := Find(rest, END_THINK);
      Thoughts(rest[..i]) + Speech(rest[i + |END_THINK|..])
    else if thinking || Contains(content, THINK) then Thoughts(rest)
    else Speech(rest)
  }

  ghost function ChunkWords(thinking: bool, c: Chunk): seq<Word> {
    if c.NoChoice? then [] else Thoughts(c.reasoning) + ContentWords(thinking, c.content)
  }

  /** A thinking block is open after the first n chunks. */
  ghost predicate Pondering(chunks: seq<Chunk>, n: nat)
    requires n <= |chunks|
  {
    n > 0 && Ponders(Pondering(chunks, n - 1), chunks[n - 1])
  }

  /** The n-th chunk, counted from 1, is cut short. */
  ghost predicate CutShort(chunks: seq<Chunk>, n: nat)
    requires 0 < n <= |chunks|
  {
    Cuts(Pondering(chunks, n - 1), chunks[n - 1])
  }

  /** Everything the first n chunks say, in order. */
  ghost function AllWords(chunks: seq<Chunk>, n: nat): seq<Word>
    requires n <= |chunks|
  {
    if n == 0 then [] else AllWords(chunks, n - 1) + ChunkWords(Pondering(chunks, n - 1), chunks[n - 1])
  }

  /** What of one chunk reaches the call machinery: nothing if it is cut short. */
  datatype Beat = Beat(frags: seq<Fragment>, finish: bool)

  predicate Finishes(c: Chunk) { c.Chunk? && c.finish }

  ghost function BeatOf(thinking: bool, c: Chunk): Beat {
    if Cuts(thinking, c) then Beat([], false) else Beat(CallsOfChunk(c), Finishes(c))
  }

  ghost function Beats(chunks: seq<Chunk>): (beats: seq<Beat>)
    ensures |beats| == |chunks|
    ensures forall p | 0 <= p < |chunks| :: beats[p] == BeatOf(Pondering(chunks, p), chunks[p])
  {
    seq(|chunks|, p requires 0 <= p < |chunks| => BeatOf(Pondering(chunks, p), chunks[p]))
  }

  /** The call fragments of the first n beats. */
  ghost function AllFragments(beats: seq<Beat>, n: nat): seq<Fragment>
    requires n <= |beats|
  {
    if n == 0 then [] else AllFragments(beats, n - 1) + beats[n - 1].frags
  }

  ghost function Fragments(beats: seq<Beat>): seq<Fragment> { AllFragments(beats, |beats|) }

  // ---- what the first machine makes of it ----

  ghost predicate Mute(s: State, t: State) {
    Words(t.log) == Words(s.log) && t.flow.inThinking == s.flow.inThinking
  }

  lemma EmitMute(s: State, b: Body)
    requires Spoken(b) == []
    ensures Mute(s, Emit(s, b))
  {
    WordsSnoc(s.log, Event(s.number + 1, b));
  }

  lemma OpenMute(s: State)
    ensures Mute(s, Open(s))
  {
    var s1 := s.(flow := s.flow.(started := true));
    EmitMute(s1, Created);
    EmitMute(Emit(s1, Created), InProgress);
  }

  lemma StartReasoningMute(s: State, idx: int)
    ensures Mute(s, StartReasoning(s, idx))
  {
    var s1 := s.(flow := s.flow.(reasoning := Some(idx)));
    EmitMute(s1, ReasoningAdded(idx));
    EmitMute(Emit(s1, ReasoningAdded(idx)), ReasoningPartAdded(idx));
  }

  lemma ThreeMute(s: State, a: Body, b: Body, c: Body)
    requires Spoken(a) == [] && Spoken(b) == [] && Spoken(c) == []
    ensures Mute(s, Emit(Emit(Emit(s, a), b), c))
  {
    EmitMute(s, a);
    EmitMute(Emit(s, a), b);
    EmitMute(Emit(Emit(s, a), b), c);
  }

  lemma CloseReasoningMute(s: State)
    ensures Mute(s, CloseReasoning(s))
  {
    var b := s.flow.reasoningBuf;
    var s1 := s.(flow := s.flow.(reasoningDone := true));
    ThreeMute(s1, ReasoningTextDone(b), ReasoningPartDone(b), ReasoningItemDone(b));
  }

  lemma CloseMessageMute(s: State, idx: int)
    ensures Mute(s, CloseMessage(s, idx))
  {
    var t := Get(s.msgs.text, idx);
    var s1 := s.(msgs := s.msgs.(done := s.msgs.done + {idx}));
    ThreeMute(s1, TextDone(idx, t), MsgPartDone(idx, t), MsgItemDone(idx, t));
  }

  lemma {:induction false} CloseMessagesMute(s: State, keys: set<int>)
    ensures Mute(s, CloseMessages(s, keys))
    decreases |keys|
  {
    if keys != {} {
      var k := Least(keys);
      CloseMessageMute(s, k);
      CloseMessagesMute(CloseMessage(s, k), keys - {k});
    }
  }

  lemma AnnounceMute(s: State, k: int)
    ensures Mute(s, Announce(s, k))
  {
    if k !in s.calls.added && k in s.calls.ids && k in s.calls.names {
      EmitMute(s.(calls := s.calls.(added := s.calls.added + {k})), CallAdded(k, s.calls.ids[k], s.calls.names[k]));
    }
  }

  lemma CollectMute(s: State, k: int, args: string)
    ensures Mute(s, Collect(s, k, args))
  {
    if args != "" && k in s.calls.added && k in s.calls.ids {
      EmitMute(s.(calls := Buffer(s.calls, k, args)), ArgsDelta(k, s.calls.ids[k], args));
    }
  }

  lemma TakeMute(s: State, f: Fragment)
    ensures Mute(s, Take(s, f))
  {
    var l := s.(calls := Learn(s.calls, f));
    AnnounceMute(l, f.index);
    CollectMute(Announce(l, f.index), f.index, f.args);
  }

  lemma TakeUpToMute(s: State, calls: seq<Fragment>, n: nat)
    requires n <= |calls|
    ensures Mute(s, TakeUpTo(s, calls, n))
  {
    for k := 0 to n
      invariant Mute(s, TakeUpTo(s, calls, k))
    {
      TakeMute(TakeUpTo(s, calls, k), calls[k]);
    }
  }

  lemma CloseCallMute(s: State, k: int)
    ensures Mute(s, CloseCall(s, k))
  {
    var c := s.calls;
    if k in c.ids && k !in c.done {
      var id, args := c.ids[k], OrEmptyObject(Get(c.args, k));
      var name := if k in c.names then Some(c.names[k]) else None;
      var s1 := s.(calls := MarkDone(c, k));
      EmitMute(s1, ArgsDone(k, id, args));
      EmitMute(Emit(s1, ArgsDone(k, id, args)), CallItemDone(k, id, name, args));
    }
  }

  lemma {:induction false} CloseCallsMute(s: State, keys: set<int>)
    ensures Mute(s, CloseCalls(s, keys))
    decreases |keys|
  {
    if keys != {} {
      var k := Least(keys);
      CloseCallMute(s, k);
      CloseCallsMute(CloseCall(s, k), keys - {k});
    }
  }

  lemma CloseAllMute(s: State)
    ensures Mute(s, CloseAll(s))
  {
    CloseMessagesMute(s, s.msgs.added);
    var s1 := CloseMessages(s, s.msgs.added);
    CloseReasoningMute(s1);
    var s2 := CloseReasoning(s1);
    CloseCallsMute(s2, s2.calls.ids.Keys);
    var s3 := CloseCalls(s2, s2.calls.ids.Keys);
    EmitMute(s3.(flow := s3.flow.(completed := true)), Completed);
  }

  lemma ReasoningWords(s: State, idx: int, text: string)
    ensures var t := OnReasoning(s, idx, text);
            Words(t.log) == Words(s.log) + Thoughts(text) && t.flow.inThinking == s.flow.inThinking
  {
    StartReasoningMute(s, idx);
    var s1 := StartReasoning(s, idx);
    WordsSnoc(s1.log, Event(s1.number + 1, ReasoningDelta(s1.flow.reasoning, text)));
  }

  lemma AddMessageMute(s: State, idx: int)
    ensures Mute(s, AddMessage(s, idx))
  {
    EmitMute(s.(msgs := s.msgs.(added := s.msgs.added + {idx})), MsgAdded(idx));
  }

  lemma AddPartMute(s: State, idx: int)
    ensures Mute(s, AddPart(s, idx))
  {
    EmitMute(s.(msgs := s.msgs.(part := s.msgs.part + {idx})), MsgPartAdded(idx));
  }

  lemma AddTextWords(s: State, idx: int, text: string)
    requires text != ""
    ensures var t := AddText(s, idx, text);
            Words(t.log) == Words(s.log) + [Said(text)] && t.flow.inThinking == s.flow.inThinking
  {
    WordsSnoc(s.log, Event(s.number + 1, TextDelta(idx, text)));
  }

  lemma SayWords(s: State, idx: int, text: string)
    requires text != ""
    ensures var t := Say(s, idx, text);
            Words(t.log) == Words(s.log) + [Said(text)] && t.flow.inThinking == s.flow.inThinking
  {
    AddMessageMute(s, idx);
    var s1 := AddMessage(s, idx);
    AddPartMute(s1, idx);
    AddTextWords(AddPart(s1, idx), idx, text);
  }

  lemma ReasonWords(s: State, text: string)
    ensures var t := Reason(s, text);
            Words(t.log) == Words(s.log) + Thoughts(text) && t.flow.inThinking == s.flow.inThinking
  {
    WordsSnoc(s.log, Event(s.number + 1, ReasoningDelta(s.flow.reasoning, text)));
  }

  lemma OnThinkWords(s: State, idx: int, content: string)
    ensures var (t, rest) := OnThink(s, idx, content);
            && Words(t.log) == Words(s.log) && rest == Unopened(content)
            && t.flow.inThinking == (s.flow.inThinking || Contains(content, THINK))
  {
    StartReasoningMute(Thinking(s, true), idx);
  }

  lemma OnEndThinkWords(s: State, content: string)
    ensures var (t, rest) := OnEndThink(s, content);
            if Contains(content, END_THINK) then
              var i := Find(content, END_THINK);
              && Words(t.log) == Words(s.log) + Thoughts(content[..i])
              && rest == content[i + |END_THINK|..] && !t.flow.inThinking
            else t == s && rest == content
  {
    if Contains(content, END_THINK) {
      var part := content[..Find(content, END_THINK)];
      ReasonWords(s, part);
      CloseReasoningMute(Reason(s, part));
    }
  }

  /** What is left after the tags is thought inside a block and said outside. */
  ghost function LastPart(s: State, idx: int, rest: string): State {
    if s.flow.inThinking && rest != "" then Reason(s, rest) else if rest != "" then Say(s, idx, rest) else s
  }

  lemma LastPartWords(s: State, idx: int, rest: string)
    ensures var t := LastPart(s, idx, rest);
            && Words(t.log) == Words(s.log) + (if s.flow.inThinking then Thoughts(rest) else Speech(rest))
            && t.flow.inThinking == s.flow.inThinking
  {
    ReasonWords(s, rest);
    if rest != "" {
      SayWords(s, idx, rest);
    }
  }

  lemma OnContentParts(s: State, idx: int, content: string)
    requires content != ""
    ensures var (s1, c1) := OnThink(s, idx, content);
            var (s2, c2) := OnEndThink(s1, c1);
            OnContent(s, idx, content) == (LastPart(s2, idx, c2), s2.flow.inThinking && c2 != "")
  {
  }

  lemma OnContentWords(s: State, idx: int, content: string)
    ensures var (t, cut) := OnContent(s, idx, content);
            && Words(t.log) == Words(s.log) + ContentWords(s.flow.inThinking, content)
            && t.flow.inThinking ==
               (!Contains(Unopened(content), END_THINK) && (s.flow.inThinking || Contains(content, THINK)))
            && (cut <==> t.flow.inThinking && Unopened(content) != "")
  {
    if content == "" {
      assert !Contains(content, THINK) && !Contains(content, END_THINK);
    } else {
      OnContentParts(s, idx, content);
      OnThinkWords(s, idx, content);
      var (s1, c1) := OnThink(s, idx, content);
      OnEndThinkWords(s1, c1);
      var (s2, c2) := OnEndThink(s1, c1);
      LastPartWords(s2, idx, c2);
      if Contains(c1, END_THINK) {
        Assoc(Words(s.log), Thoughts(c1[..Find(c1, END_THINK)]), Speech(c2));
      }
    }
  }

  lemma BeforeCallsWords(s: State, c: Chunk)
    requires c.Chunk?
    ensures var t := BeforeCalls(s, c);
            && Words(t.log) == Words(s.log) + ChunkWords(s.flow.inThinking, c)
            && t.flow.inThinking == Ponders(s.flow.inThinking, c)
            && (Swallows(s, c) <==> Cuts(s.flow.inThinking, c))
  {
    OpenMute(s);
    ReasoningWords(Open(s), c.index, c.reasoning);
    var t := OnReasoning(Open(s), c.index, c.reasoning);
    OnContentWords(t, c.index, c.content);
    Assoc(Words(s.log), Thoughts(c.reasoning), ContentWords(s.flow.inThinking, c.content));
  }

  lemma Assoc<T>(a: seq<T>, b: seq<T>, c: seq<T>)
    ensures a + (b + c) == (a + b) + c
  {
  }

  lemma OnCallsMute(s: State, idx: int, calls: seq<Fragment>)
    ensures Mute(s, OnCalls(s, idx, calls))
  {
    CloseMessageMute(s, idx);
    TakeUpToMute(CloseMessage(s, idx), calls, |calls|);
  }

  lemma ConvertStages(s: State, c: Chunk)
    requires c.Chunk?
    ensures var t := OnCalls(BeforeCalls(s, c), c.index, c.calls);
            Convert(s, c) == if Swallows(s, c) then BeforeCalls(s, c) else if c.finish then CloseAll(t) else t
  {
  }

  /** A chunk says its words, and is cut short exactly as its tags say. */
  lemma ConvertWords(s: State, c: Chunk)
    ensures Swallows(s, c) <==> Cuts(s.flow.inThinking, c)
    ensures Convert(s, c).flow.inThinking == Ponders(s.flow.inThinking, c)
    ensures Words(Convert(s, c).log) == Words(s.log) + ChunkWords(s.flow.inThinking, c)
  {
    if c.Chunk? {
      BeforeCallsWords(s, c);
      ConvertStages(s, c);
      var s2 := BeforeCalls(s, c);
      OnCallsMute(s2, c.index, c.calls);
      CloseAllMute(OnCalls(s2, c.index, c.calls));
    }
  }

  /** The thinking flag, the words written and the fragments received are those read off the first n chunks. */
  ghost predicate Follows(s: State, chunks: seq<Chunk>, n: nat)
    requires n <= |chunks|
  {
    && s.flow.inThinking == Pondering(chunks, n)
    && Words(s.log) == AllWords(chunks, n)
    && s.calls.frags == AllFragments(Beats(chunks), n)
  }

  lemma FollowsNext(s: State, chunks: seq<Chunk>, n: nat)
    requires n < |chunks| && Follows(s, chunks, n)
    ensures Follows(Convert(s, chunks[n]), chunks, n + 1)
  {
    ConvertWords(s, chunks[n]);
    FragmentsReceived(s, chunks[n]);
    assert Beats(chunks)[n] == BeatOf(Pondering(chunks, n), chunks[n]);
  }

  /** In every run. */
  lemma RunWords(chunks: seq<Chunk>, n: nat)
    requires n <= |chunks|
    ensures Follows(Run(chunks, n), chunks, n)
  {
    for m := 0 to n
      invariant Follows(Run(chunks, m), chunks, m)
    {
      FollowsNext(Run(chunks, m), chunks, m);
    }
  }

  // ---- streams without tags ----

  predicate Untagged(c: Chunk) {
    c.Chunk? ==> !Contains(c.content, "<think>") && !Contains(c.content, "</think>")
  }

  ghost predicate AllUntagged(chunks: seq<Chunk>) { forall p | 0 <= p < |chunks| :: Untagged(chunks[p]) }

  /** Reasoning and content as they are, and all call fragments. */
  ghost function PlainWords(chunks: seq<Chunk>, n: nat): seq<Word>
    requires n <= |chunks|
  {
    if n == 0 then []
    else
      var c := chunks[n - 1];
      PlainWords(chunks, n - 1) + if c.NoChoice? then [] else Thoughts(c.reasoning) + Speech(c.content)
  }

  /** An untagged stream says exactly its reasoning and content, and no chunk of it is cut short. */
  lemma {:induction false} UntaggedIsPlain(chunks: seq<Chunk>, n: nat)
    requires n <= |chunks| && AllUntagged(chunks)
    ensures !Pondering(chunks, n) && AllWords(chunks, n) == PlainWords(chunks, n)
    ensures n > 0 ==> !CutShort(chunks, n)
    decreases n
  {
    if n > 0 {
      UntaggedIsPlain(chunks, n - 1);
      assert Untagged(chunks[n - 1]);
    }
  }
}
