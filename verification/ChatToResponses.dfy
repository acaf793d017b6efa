/** The streaming translator from Chat chunks to Responses events. */
module ChatToResponses {
  import opened Config

  /** One tool-call fragment of a chunk; an absent id or name is the empty string of the wire. */
  datatype Fragment = Fragment(index: int, id: Option<Id>, name: Option<Id>, args: string)

  /** A chunk's first choice, or a chunk without one. */
  datatype Chunk =
    | NoChoice
    | Chunk(index: int, reasoning: string, content: string, calls: seq<Fragment>, finish: bool)

  datatype Body =
    | Created | InProgress
    | ReasoningAdded(idx: int) | ReasoningPartAdded(idx: int)
    | ReasoningDelta(at: Option<int>, text: string)
    | ReasoningTextDone(text: string) | ReasoningPartDone(text: string) | ReasoningItemDone(text: string)
    | MsgAdded(idx: int) | MsgPartAdded(idx: int)
    | TextDelta(idx: int, text: string)
    | TextDone(idx: int, text: string) | MsgPartDone(idx: int, text: string) | MsgItemDone(idx: int, text: string)
    | CallAdded(idx: int, callId: Id, name: Id)
    | ArgsDelta(idx: int, callId: Id, args: string)
    | ArgsDone(idx: int, callId: Id, args: string)
    | CallItemDone(idx: int, callId: Id, called: Option<Id>, args: string)
    | Completed

  datatype Event = Event(number: nat, body: Body)

  /** Stream-wide flags and the reasoning item. */
  datatype Flow = Flow(
    started: bool, inThinking: bool, reasoning: Option<int>, reasoningDone: bool, reasoningBuf: string, completed: bool)

  datatype Msgs = Msgs(added: set<int>, part: set<int>, text: map<int, string>, done: set<int>)

  /**
   * Tool calls. `frags` is history: the fragments that reached the tool-call branch; `frozen` says how many
   * of them there were when a call was closed.
   */
  datatype Calls = Calls(
    ids: map<int, Id>, names: map<int, Id>, args: map<int, string>, added: set<int>, done: set<int>,
    frags: seq<Fragment>, frozen: map<int, nat>)

  /** The accumulator; `log` is everything emitted so far. */
  datatype State = State(number: nat, log: seq<Event>, flow: Flow, msgs: Msgs, calls: Calls)

  const Init := State(0, [], Flow(false, false, None, false, "", false), Msgs({}, {}, map[], {}),
                      Calls(map[], map[], map[], {}, {}, [], map[]))

  function Get(m: map<int, string>, i: int): string { if i in m then m[i] else "" }

  function OrEmptyObject(s: string): string { if s == "" then "{}" else s }

  // ---- the helpers ----

  function Emit(s: State, b: Body): State {
    s.(number := s.number + 1, log := s.log + [Event(s.number + 1, b)])
  }

  function Open(s: State): State {
    if s.flow.started then s else Emit(Emit(s.(flow := s.flow.(started := true)), Created), InProgress)
  }

  function StartReasoning(s: State, idx: int): State {
    if s.flow.reasoning.Some? then s
    else Emit(Emit(s.(flow := s.flow.(reasoning := Some(idx))), ReasoningAdded(idx)), ReasoningPartAdded(idx))
  }

  function Reason(s: State, text: string): State {
    if text == "" then s
    else Emit(s.(flow := s.flow.(reasoningBuf := s.flow.reasoningBuf + text)), ReasoningDelta(s.flow.reasoning, text))
  }

  function CloseReasoning(s: State): State {
    if s.flow.reasoning.None? || s.flow.reasoningDone then s
    else
      var b := s.flow.reasoningBuf;
      var t := s.(flow := s.flow.(reasoningDone := true));
      Emit(Emit(Emit(t, ReasoningTextDone(b)), ReasoningPartDone(b)), ReasoningItemDone(b))
  }

  function AddMessage(s: State, idx: int): State {
    if idx in s.msgs.added then s else Emit(s.(msgs := s.msgs.(added := s.msgs.added + {idx})), MsgAdded(idx))
  }

  function AddPart(s: State, idx: int): State {
    if idx in s.msgs.part then s else Emit(s.(msgs := s.msgs.(part := s.msgs.part + {idx})), MsgPartAdded(idx))
  }

  function AddText(s: State, idx: int, text: string): State {
    Emit(s.(msgs := s.msgs.(text := s.msgs.text[idx := Get(s.msgs.text, idx) + text])), TextDelta(idx, text))
  }

  function Say(s: State, idx: int, text: string): State {
    AddText(AddPart(AddMessage(s, idx), idx), idx, text)
  }

  function CloseMessage(s: State, idx: int): State {
    if idx !in s.msgs.added || idx in s.msgs.done then s
    else
      var full := Get(s.msgs.text, idx);
      var t := s.(msgs := s.msgs.(done := s.msgs.done + {idx}));
      Emit(Emit(Emit(t, TextDone(idx, full)), MsgPartDone(idx, full)), MsgItemDone(idx, full))
  }

  /** Notes a fragment's id and name. */
  function Learn(c: Calls, f: Fragment): Calls {
    c.(names := if f.name.Some? then c.names[f.index := f.name.value] else c.names,
       ids := if f.id.Some? then c.ids[f.index := f.id.value] else c.ids,
       frags := c.frags + [f])
  }

  /** Announces a call once its id and name are both known. */
  function Announce(s: State, i: int): State {
    if i !in s.calls.added && i in s.calls.ids && i in s.calls.names
    then Emit(s.(calls := s.calls.(added := s.calls.added + {i})), CallAdded(i, s.calls.ids[i], s.calls.names[i]))
    else s
  }

  function Buffer(c: Calls, i: int, args: string): Calls {
    c.(args := c.args[i := Get(c.args, i) + args])
  }

  /** Streams a fragment's arguments if the call is announced, and buffers them either way. */
  function Collect(s: State, i: int, args: string): State {
    if args == "" then s
    else
      var t := s.(calls := Buffer(s.calls, i, args));
      if i in s.calls.added && i in s.calls.ids then Emit(t, ArgsDelta(i, s.calls.ids[i], args)) else t
  }

  function Take(s: State, f: Fragment): State {
    Collect(Announce(s.(calls := Learn(s.calls, f)), f.index), f.index, f.args)
  }

  function TakeUpTo(s: State, calls: seq<Fragment>, n: nat): State
    requires n <= |calls|
  {
    if n == 0 then s else Take(TakeUpTo(s, calls, n - 1), calls[n - 1])
  }

  function MarkDone(c: Calls, i: int): Calls {
    c.(done := c.done + {i}, frozen := c.frozen[i := |c.frags|])
  }

  function CloseCall(s: State, i: int): State {
    if i !in s.calls.ids || i in s.calls.done then s
    else
      var id, args := s.calls.ids[i], OrEmptyObject(Get(s.calls.args, i));
      var name := if i in s.calls.names then Some(s.calls.names[i]) else None;
      Emit(Emit(s.(calls := MarkDone(s.calls, i)), ArgsDone(i, id, args)), CallItemDone(i, id, name, args))
  }

  function SendCompleted(s: State): State {
    if s.flow.completed then s else Emit(s.(flow := s.flow.(completed := true)), Completed)
  }

  // ---- closing everything, in ascending index order ----

  lemma HasMember(keys: set<int>)
    ensures keys == {} || exists x :: x in keys
  {
    if forall x :: x !in keys {
      assert keys == {};
    }
  }

  lemma Minimum(keys: set<int>) returns (m: int)
    requires keys != {}
    ensures m in keys && forall k | k in keys :: m <= k
    decreases |keys|
  {
    HasMember(keys);
    var x :| x in keys;
    m := x;
    if keys != {x} {
      var n := Minimum(keys - {x});
      if n < m {
        m := n;
      }
      assert forall k | k in keys :: k == x || k in keys - {x};
    }
  }

  function Least(keys: set<int>): (m: int)
    requires keys != {}
    ensures m in keys && forall k | k in keys :: m <= k
  {
    assert exists m :: m in keys && forall k | k in keys :: m <= k by {
      var m := Minimum(keys);
    }
    var m :| m in keys && forall k | k in keys :: m <= k;
    m
  }

  function CloseMessages(s: State, keys: set<int>): State
    decreases |keys|
  {
    if keys == {} then s else var k := Least(keys); CloseMessages(CloseMessage(s, k), keys - {k})
  }

  function CloseCalls(s: State, keys: set<int>): State
    decreases |keys|
  {
    if keys == {} then s else var k := Least(keys); CloseCalls(CloseCall(s, k), keys - {k})
  }

  function CloseAll(s: State): State {
    var s1 := CloseMessages(s, s.msgs.added);
    var s2 := CloseReasoning(s1);
    SendCompleted(CloseCalls(s2, s2.calls.ids.Keys))
  }

  function Flush(s: State): State { if s.flow.completed then s else CloseAll(s) }

  // ---- think tags ----

  const THINK := "<think>"
  const END_THINK := "</think>"

  /** First position of a needle, or the length when there is none. */
  function Find(s: string, needle: string): (i: nat)
    ensures i <= |s|
  {
    if |needle| <= |s| && s[..|needle|] == needle then 0
    else if s == "" then 0
    else 1 + Find(s[1..], needle)
  }

  predicate Contains(s: string, needle: string) {
    var i := Find(s, needle);
    i + |needle| <= |s| && s[i..i + |needle|] == needle
  }

  /** The position found is the first occurrence, and there is one exactly if the needle occurs. */
  lemma {:induction false} FindIsFirst(s: string, needle: string, j: nat)
    requires needle != "" && j + |needle| <= |s| && s[j..j + |needle|] == needle
    ensures Contains(s, needle) && Find(s, needle) <= j
  {
    if s[..|needle|] != needle {
      assert j > 0;
      assert s[1..][j - 1..j - 1 + |needle|] == s[j..j + |needle|];
      FindIsFirst(s[1..], needle, j - 1);
      var i := Find(s[1..], needle);
      assert s[1..][i..i + |needle|] == s[1 + i..1 + i + |needle|];
    }
  }

  function Thinking(s: State, thinking: bool): State { s.(flow := s.flow.(inThinking := thinking)) }

  /** Opens thinking on a start tag, which is removed once. */
  function OnThink(s: State, idx: int, content: string): (State, string) {
    if Contains(content, THINK) then
      var i := Find(content, THINK);
      (StartReasoning(Thinking(s, true), idx), content[..i] + content[i + |THINK|..])
    else (s, content)
  }

  /** Closes thinking on an end tag: what precedes it is reasoning, what follows is text. */
  function OnEndThink(s: State, content: string): (State, string) {
    if Contains(content, END_THINK) then
      var i := Find(content, END_THINK);
      (Thinking(CloseReasoning(Reason(s, content[..i])), false), content[i + |END_THINK|..])
    else (s, content)
  }

  /** A chunk's content; the flag says that the rest of the chunk is not looked at. */
  function OnContent(s: State, idx: int, content: string): (State, bool) {
    if content == "" then (s, false)
    else
      var (s1, c1) := OnThink(s, idx, content);
      var (s2, c2) := OnEndThink(s1, c1);
      if s2.flow.inThinking && c2 != "" then (Reason(s2, c2), true)
      else if c2 != "" then (Say(s2, idx, c2), false)
      else (s2, false)
  }

  function OnReasoning(s: State, idx: int, text: string): State {
    if text == "" then s else Reason(StartReasoning(s, idx), text)
  }

  function OnCalls(s: State, idx: int, calls: seq<Fragment>): State {
    if calls == [] then s else TakeUpTo(CloseMessage(s, idx), calls, |calls|)
  }

  /** One chunk. */
  function Convert(s: State, c: Chunk): State {
    match c
    case NoChoice => s
    case Chunk(idx, reasoning, content, calls, finish) =>
      var s1 := OnReasoning(Open(s), idx, reasoning);
      var (s2, swallowed) := OnContent(s1, idx, content);
      if swallowed then s2
      else
        var s3 := OnCalls(s2, idx, calls);
        if finish then CloseAll(s3) else s3
  }

  // ---- the translator object ----

  class Translator {
    var number: nat
    var started: bool
    var inThinking: bool
    var reasoning: Option<int>
    var reasoningDone: bool
    var reasoningBuf: string
    var msgAdded: set<int>
    var msgPart: set<int>
    var msgText: map<int, string>
    var msgDone: set<int>
    var callIds: map<int, Id>
    var names: map<int, Id>
    var args: map<int, string>
    var callAdded: set<int>
    var callDone: set<int>
    var completed: bool
    var events: seq<Event>
    ghost var past: seq<Event>
    ghost var frags: seq<Fragment>
    ghost var frozen: map<int, nat>

    constructor ()
      ensures View() == Init
    {
      number, started, inThinking := 0, false, false;
      reasoning, reasoningDone, reasoningBuf := None, false, "";
      msgAdded, msgPart, msgText, msgDone := {}, {}, map[], {};
      callIds, names, args, callAdded, callDone := map[], map[], map[], {}, {};
      completed, events, past, frags, frozen := false, [], [], [], map[];
    }

    ghost function View(): State
      reads this
    {
      State(number, past + events,
            Flow(started, inThinking, reasoning, reasoningDone, reasoningBuf, completed),
            Msgs(msgAdded, msgPart, msgText, msgDone),
            Calls(callIds, names, args, callAdded, callDone, frags, frozen))
    }

    method EmitBody(b: Body)
      modifies this`number, this`events
      ensures View() == Emit(old(View()), b)
    {
      number := number + 1;
      events := events + [Event(number, b)];
      assert past + events == old(past + events) + [Event(number, b)];
    }

    method BeginReasoning(idx: int)
      modifies this
      ensures View() == StartReasoning(old(View()), idx) && past == old(past)
    {
      if reasoning.Some? {
        return;
      }
      reasoning := Some(idx);
      EmitBody(ReasoningAdded(idx));
      EmitBody(ReasoningPartAdded(idx));
    }

    method EmitReasoning(text: string)
      modifies this
      ensures View() == Reason(old(View()), text) && past == old(past)
    {
      if text == "" {
        return;
      }
      reasoningBuf := reasoningBuf + text;
      EmitBody(ReasoningDelta(reasoning, text));
    }

    method EndReasoning()
      modifies this
      ensures View() == CloseReasoning(old(View())) && past == old(past)
    {
      if reasoning.None? || reasoningDone {
        return;
      }
      reasoningDone := true;
      EmitBody(ReasoningTextDone(reasoningBuf));
      EmitBody(ReasoningPartDone(reasoningBuf));
      EmitBody(ReasoningItemDone(reasoningBuf));
    }

    method EmitText(idx: int, text: string)
      modifies this
      ensures View() == Say(old(View()), idx, text) && past == old(past)
    {
      if idx !in msgAdded {
        msgAdded := msgAdded + {idx};
        EmitBody(MsgAdded(idx));
      }
      assert View() == AddMessage(old(View()), idx);
      if idx !in msgPart {
        msgPart := msgPart + {idx};
        EmitBody(MsgPartAdded(idx));
      }
      assert View() == AddPart(AddMessage(old(View()), idx), idx);
      msgText := msgText[idx := Get(msgText, idx) + text];
      EmitBody(TextDelta(idx, text));
    }

    method EndMessage(idx: int)
      modifies this
      ensures View() == CloseMessage(old(View()), idx) && past == old(past)
    {
      if idx !in msgAdded || idx in msgDone {
        return;
      }
      msgDone := msgDone + {idx};
      var full := Get(msgText, idx);
      EmitBody(TextDone(idx, full));
      EmitBody(MsgPartDone(idx, full));
      EmitBody(MsgItemDone(idx, full));
    }

    method NoteFragment(f: Fragment)
      modifies this`names, this`callIds, this`frags
      ensures View() == old(View()).(calls := Learn(old(View()).calls, f))
    {
      if f.name.Some? {
        names := names[f.index := f.name.value];
      }
      if f.id.Some? {
        callIds := callIds[f.index := f.id.value];
      }
      frags := frags + [f];
    }

    method AnnounceCall(i: int)
      modifies this`callAdded, this`number, this`events
      ensures View() == Announce(old(View()), i)
    {
      if i !in callAdded && i in callIds && i in names {
        callAdded := callAdded + {i};
        EmitBody(CallAdded(i, callIds[i], names[i]));
      }
    }

    method CollectArgs(i: int, more: string)
      modifies this`args, this`number, this`events
      ensures View() == Collect(old(View()), i, more)
    {
      if more != "" {
        if i in callAdded && i in callIds {
          EmitBody(ArgsDelta(i, callIds[i], more));
        }
        args := args[i := Get(args, i) + more];
      }
    }

    method EmitToolCall(f: Fragment)
      modifies this
      ensures View() == Take(old(View()), f) && past == old(past)
    {
      NoteFragment(f);
      AnnounceCall(f.index);
      CollectArgs(f.index, f.args);
    }

    method EndToolCall(i: int)
      modifies this
      ensures View() == CloseCall(old(View()), i) && past == old(past)
    {
      if i !in callIds || i in callDone {
        return;
      }
      var full := OrEmptyObject(Get(args, i));
      EmitBody(ArgsDone(i, callIds[i], full));
      EmitBody(CallItemDone(i, callIds[i], if i in names then Some(names[i]) else None, full));
      callDone := callDone + {i};
      frozen := frozen[i := |frags|];
    }

    method CloseEverything()
      modifies this
      ensures View() == CloseAll(old(View())) && past == old(past)
    {
      var keys := msgAdded;
      while keys != {}
        invariant past == old(past)
        invariant CloseMessages(View(), keys) == CloseMessages(old(View()), old(msgAdded))
        decreases |keys|
      {
        var k := Least(keys);
        EndMessage(k);
        keys := keys - {k};
      }
      EndReasoning();
      ghost var s2 := View();
      keys := callIds.Keys;
      while keys != {}
        invariant past == old(past)
        invariant CloseCalls(View(), keys) == CloseCalls(s2, s2.calls.ids.Keys)
        decreases |keys|
      {
        var k := Least(keys);
        EndToolCall(k);
        keys := keys - {k};
      }
      if !completed {
        completed := true;
        EmitBody(Completed);
      }
    }

    method OpenThinking(idx: int, content: string) returns (rest: string)
      modifies this
      ensures (View(), rest) == OnThink(old(View()), idx, content) && past == old(past)
    {
      rest := content;
      if Contains(content, THINK) {
        inThinking := true;
        var i := Find(content, THINK);
        rest := content[..i] + content[i + |THINK|..];
        BeginReasoning(idx);
      }
    }

    method CloseThinking(content: string) returns (rest: string)
      modifies this
      ensures (View(), rest) == OnEndThink(old(View()), content) && past == old(past)
    {
      rest := content;
      if Contains(content, END_THINK) {
        var i := Find(content, END_THINK);
        EmitReasoning(content[..i]);
        EndReasoning();
        inThinking := false;
        rest := content[i + |END_THINK|..];
      }
    }

    method ConvertContent(idx: int, content: string) returns (swallowed: bool)
      modifies this
      ensures (View(), swallowed) == OnContent(old(View()), idx, content) && past == old(past)
    {
      if content == "" {
        return false;
      }
      var rest := OpenThinking(idx, content);
      rest := CloseThinking(rest);
      if inThinking && rest != "" {
        EmitReasoning(rest);
        return true;
      }
      if rest != "" {
        EmitText(idx, rest);
      }
      return false;
    }

    method ConvertCalls(idx: int, calls: seq<Fragment>)
      modifies this
      ensures View() == OnCalls(old(View()), idx, calls) && past == old(past)
    {
      if calls == [] {
        return;
      }
      EndMessage(idx);
      ghost var s := View();
      for n := 0 to |calls|
        invariant View() == TakeUpTo(s, calls, n) && past == old(past)
      {
        EmitToolCall(calls[n]);
      }
    }

    /** Opens the response and takes a chunk's reasoning. */
    method ConvertOpening(idx: int, text: string)
      modifies this
      ensures View() == OnReasoning(Open(old(View())), idx, text) && past == old(past)
    {
      if !started {
        started := true;
        EmitBody(Created);
        EmitBody(InProgress);
      }
      if text != "" {
        BeginReasoning(idx);
        EmitReasoning(text);
      }
    }

    method Reset()
      modifies this`past, this`events
      ensures View() == old(View()) && past == old(View()).log && events == []
    {
      past := past + events;
      events := [];
    }

    /** Translates one chunk and returns the events it produced. */
    method ConvertChunk(c: Chunk) returns (out: seq<Event>)
      modifies this
      ensures View() == Convert(old(View()), c)
      ensures View().log == old(View()).log + out
    {
      Reset();
      if c.Chunk? {
        ConvertOpening(c.index, c.reasoning);
        var swallowed := ConvertContent(c.index, c.content);
        if !swallowed {
          ConvertCalls(c.index, c.calls);
          if c.finish {
            CloseEverything();
          }
        }
      }
      out := events;
    }

    /** The flush: closes what is open and completes the response, once. */
    method ConvertEnd() returns (out: seq<Event>)
      modifies this
      ensures View() == Flush(old(View()))
      ensures View().log == old(View()).log + out
    {
      Reset();
      if !completed {
        CloseEverything();
      }
      out := events;
    }
  }
}
