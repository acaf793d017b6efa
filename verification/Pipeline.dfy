/** The Responses-to-Chat translator fed with the events the Chat-to-Responses translator writes. */
module Pipeline {
  import opened Config
  import opened ChatToResponses
  import R = ResponsesToChat

  // ---- the wire between the two machines ----

  /** A call's item id on the wire. */
  function ItemId(c: Id): Id { Id("fc_" + c.text) }

  lemma ItemIdInjective(a: Id, b: Id)
    requires ItemId(a) == ItemId(b)
    ensures a == b
  {
    assert a.text == ItemId(a).text[3..];
    assert b.text == ItemId(b).text[3..];
  }

  /** How an emitted event reads on the other side. A written call id is never blank, so no fallback is consulted. */
  function Wire(b: Body): R.Event {
    match b
    case TextDelta(_, text) => R.TextDelta(text)
    case ReasoningDelta(_, text) => R.ReasoningDelta(text)
    case CallAdded(_, c, name) => R.ItemAdded(true, Some(ItemId(c)), None, Some(c), name.text, c)
    case ArgsDelta(_, c, args) => R.ArgsDelta(Some(ItemId(c)), args)
    case CallItemDone(_, c, _, args) => R.ItemDone(true, Some(ItemId(c)), None, args)
    case MsgAdded(_) => R.ItemAdded(false, None, None, None, "", Id(""))
    case ReasoningAdded(_) => R.ItemAdded(false, None, None, None, "", Id(""))
    case MsgItemDone(_, _) => R.ItemDone(false, None, None, "")
    case ReasoningItemDone(_) => R.ItemDone(false, None, None, "")
    case Completed => R.Completed
    case _ => R.Other
  }

  ghost function Pipe(log: seq<Event>): R.State {
    if log == [] then R.Init else R.Convert(Pipe(log[..|log| - 1]), Wire(log[|log| - 1].body))
  }

  ghost function Wired(log: seq<Event>): seq<R.Event> { seq(|log|, p requires 0 <= p < |log| => Wire(log[p].body)) }

  /** The pipe is a run of the second machine. */
  lemma {:induction false} PipeIsRun(log: seq<Event>, n: nat)
    requires n <= |log|
    ensures Pipe(log[..n]) == R.Run(Wired(log), n)
  {
    if n > 0 {
      PipeIsRun(log, n - 1);
      assert log[..n][..n - 1] == log[..n - 1];
    }
  }

  // ---- words: text and reasoning in the order they are streamed ----

  datatype Word = Said(text: string) | Mused(text: string)

  ghost function Spoken(b: Body): seq<Word> {
    if b.TextDelta? && b.text != "" then [Said(b.text)]
    else if b.ReasoningDelta? && b.text != "" then [Mused(b.text)]
    else []
  }

  ghost function Words(log: seq<Event>): seq<Word> {
    if log == [] then [] else Words(log[..|log| - 1]) + Spoken(log[|log| - 1].body)
  }

  lemma WordsSnoc(log: seq<Event>, e: Event)
    ensures Words(log + [e]) == Words(log) + Spoken(e.body)
  {
    assert (log + [e])[..|log|] == log;
  }

  ghost function Heard(c: R.Chunk): seq<Word> {
    if c.Text? then [Said(c.text)] else if c.Thought? then [Mused(c.text)] else []
  }

  ghost function ChatWords(out: seq<R.Chunk>): seq<Word> {
    if out == [] then [] else ChatWords(out[..|out| - 1]) + Heard(out[|out| - 1])
  }

  lemma ChatWordsSnoc(out: seq<R.Chunk>, c: R.Chunk)
    ensures ChatWords(out + [c]) == ChatWords(out) + Heard(c)
  {
    assert (out + [c])[..|out|] == out;
  }

  // ---- what one event does to the second machine ----

  /** An untouched machine has no calls yet. */
  ghost predicate Sane(t: R.State) { !t.started ==> t.calls == 0 && t.current.None? }

  predicate AboutCalls(b: Body) { b.CallAdded? || b.ArgsDelta? || b.CallItemDone? }

  lemma PlainEffect(t: R.State, b: Body)
    requires Sane(t) && !AboutCalls(b) && !b.Completed?
    ensures R.Convert(t, Wire(b)) ==
            t.(started := true, out := t.out + match b
                                               case TextDelta(_, x) => if x == "" then [] else [R.Text(x)]
                                               case ReasoningDelta(_, x) => if x == "" then [] else [R.Thought(x)]
                                               case _ => [])
  {
    assert t.out + [] == t.out;
  }

  lemma AddedEffect(t: R.State, b: Body)
    requires Sane(t) && b.CallAdded?
    ensures var key := ItemId(b.callId);
            var at := if key in t.index then t.index[key] else t.calls;
            R.Convert(t, Wire(b)) ==
            t.(started := true, current := Some(b.callId), index := t.index[key := at],
               calls := if key in t.index then t.calls else t.calls + 1,
               out := t.out + [R.CallStart(at, b.callId, b.name.text)])
  {
    var key := ItemId(b.callId);
    if key in t.index {
      assert t.index[key := t.index[key]] == t.index;
    }
  }

  /** The index an event about a call is given: the call's own, or the last call's when it is unknown. */
  ghost function Lookup(t: R.State, c: Id): nat { if ItemId(c) in t.index then t.index[ItemId(c)] else R.Last(t) }

  lemma DeltaEffect(t: R.State, b: Body)
    requires Sane(t) && b.ArgsDelta?
    ensures var at := R.Num(Lookup(t, b.callId));
            R.Convert(t, Wire(b)) ==
            if b.args == "" then t.(started := true)
            else t.(started := true, emitted := t.emitted + {at}, out := t.out + [R.Args(at, b.args, false)])
  {
  }

  lemma DoneEffect(t: R.State, b: Body)
    requires Sane(t) && b.CallItemDone?
    ensures var at := R.Num(Lookup(t, b.callId));
            R.Convert(t, Wire(b)) ==
            if b.args == "" || at in t.emitted then t.(started := true)
            else t.(started := true, emitted := t.emitted + {at}, out := t.out + [R.Args(at, b.args, true)])
  {
  }

  /** An event about calls or the completion appends at most one chunk, never a word. */
  lemma WordlessEffect(t: R.State, b: Body) returns (more: seq<R.Chunk>)
    requires Sane(t) && (AboutCalls(b) || b.Completed?)
    ensures R.Convert(t, Wire(b)).out == t.out + more && |more| <= 1
    ensures |more| == 1 ==> !more[0].Text? && !more[0].Thought?
    ensures |more| == 1 && !b.Completed? ==> !more[0].Finish? && !more[0].Error?
  {
    if b.CallAdded? {
      AddedEffect(t, b);
    } else if b.ArgsDelta? {
      DeltaEffect(t, b);
    } else if b.CallItemDone? {
      DoneEffect(t, b);
    }
    more := R.Convert(t, Wire(b)).out[|t.out|..];
  }

  lemma {:induction false} PipeIsSane(log: seq<Event>)
    ensures Sane(Pipe(log))
  {
  }

  lemma WordsStep(t: R.State, b: Body)
    requires Sane(t)
    ensures ChatWords(R.Convert(t, Wire(b)).out) == ChatWords(t.out) + Spoken(b)
  {
    if AboutCalls(b) || b.Completed? {
      var more := WordlessEffect(t, b);
      if |more| == 1 {
        ChatWordsSnoc(t.out, more[0]);
      } else {
        assert t.out + more == t.out;
      }
    } else {
      PlainEffect(t, b);
      if b.TextDelta? && b.text != "" {
        ChatWordsSnoc(t.out, R.Text(b.text));
      } else if b.ReasoningDelta? && b.text != "" {
        ChatWordsSnoc(t.out, R.Thought(b.text));
      } else {
        assert t.out + [] == t.out;
      }
    }
  }

  lemma {:induction false} WordsPass(log: seq<Event>)
    ensures ChatWords(Pipe(log).out) == Words(log)
  {
    if log != [] {
      var pre := log[..|log| - 1];
      WordsPass(pre);
      PipeIsSane(pre);
      WordsStep(Pipe(pre), log[|log| - 1].body);
    }
  }

  // ---- the finish ----

  /** The calls a log announces, in order of first announcement. */
  ghost function Order(log: seq<Event>): seq<int> {
    if log == [] then []
    else
      var sofar, b := Order(log[..|log| - 1]), log[|log| - 1].body;
      if b.CallAdded? && b.idx !in sofar then sofar + [b.idx] else sofar
  }

  lemma OrderSnoc(log: seq<Event>, e: Event)
    ensures Order(log + [e]) ==
            if e.body.CallAdded? && e.body.idx !in Order(log) then Order(log) + [e.body.idx] else Order(log)
  {
    assert (log + [e])[..|log|] == log;
  }

  /** The first completion decides: tool_calls exactly if a call was announced before it. */
  ghost function Verdict(log: seq<Event>): seq<R.Reason> {
    if log == [] then []
    else
      var pre := log[..|log| - 1];
      if Verdict(pre) == [] && log[|log| - 1].body.Completed?
      then [if Order(pre) == [] then R.Stop else R.ToolCalls]
      else Verdict(pre)
  }

  lemma VerdictSnoc(log: seq<Event>, e: Event)
    ensures Verdict(log + [e]) == if Verdict(log) == [] && e.body.Completed?
                                  then [if Order(log) == [] then R.Stop else R.ToolCalls]
                                  else Verdict(log)
  {
    assert (log + [e])[..|log|] == log;
  }

  ghost function Finals(out: seq<R.Chunk>): seq<R.Reason> {
    if out == [] then []
    else
      var c := out[|out| - 1];
      Finals(out[..|out| - 1]) + if c.Finish? then [c.reason] else if c.Error? then [R.Stop] else []
  }

  lemma FinalsSnoc(out: seq<R.Chunk>, c: R.Chunk)
    ensures Finals(out + [c]) == Finals(out) + if c.Finish? then [c.reason] else if c.Error? then [R.Stop] else []
  {
    assert (out + [c])[..|out|] == out;
  }

  /** Having a current call, an indexed call and a counted call are the same thing. */
  ghost predicate Counted(t: R.State) {
    Sane(t) && (t.current.Some? <==> t.calls > 0) && (forall k | k in t.index :: t.calls > 0)
  }

  ghost predicate FinishInv(t: R.State, log: seq<Event>) {
    && Counted(t)
    && (t.calls > 0 <==> Order(log) != [])
    && (t.finished <==> Verdict(log) != [])
    && Finals(t.out) == Verdict(log)
  }

  lemma CountStep(t: R.State, b: Body)
    requires Counted(t)
    ensures var u := R.Convert(t, Wire(b));
            Counted(u) && (u.calls > 0 <==> t.calls > 0 || b.CallAdded?) && (u.finished <==> t.finished || b.Completed?)
  {
  }

  lemma FinalsKept(t: R.State, b: Body)
    requires Sane(t) && !b.Completed?
    ensures Finals(R.Convert(t, Wire(b)).out) == Finals(t.out)
  {
    if AboutCalls(b) {
      var more := WordlessEffect(t, b);
      if |more| == 1 {
        FinalsSnoc(t.out, more[0]);
      } else {
        assert t.out + more == t.out;
      }
    } else {
      PlainEffect(t, b);
      if b.TextDelta? {
        FinalsSnoc(t.out, R.Text(b.text));
      } else if b.ReasoningDelta? {
        FinalsSnoc(t.out, R.Thought(b.text));
      }
      assert t.out + [] == t.out;
    }
  }

  lemma FinishStep(t: R.State, log: seq<Event>, e: Event)
    requires FinishInv(t, log)
    ensures FinishInv(R.Convert(t, Wire(e.body)), log + [e])
  {
    OrderSnoc(log, e);
    VerdictSnoc(log, e);
    CountStep(t, e.body);
    if e.body.Completed? {
      CompletedFinals(t);
    } else {
      FinalsKept(t, e.body);
    }
  }

  lemma CompletedFinals(t: R.State)
    requires Counted(t)
    ensures Finals(R.Convert(t, R.Completed).out) ==
            Finals(t.out) + if t.finished then [] else [if t.calls > 0 then R.ToolCalls else R.Stop]
  {
    FinalsSnoc(t.out, R.Finish(R.FinishReason(R.Begin(t))));
  }

  lemma {:induction false} FinishPasses(log: seq<Event>)
    ensures FinishInv(Pipe(log), log)
  {
    if log != [] {
      var pre := log[..|log| - 1];
      FinishPasses(pre);
      FinishStep(Pipe(pre), pre, log[|log| - 1]);
      assert pre + [log[|log| - 1]] == log;
    }
  }

  // ---- the calls ----

  /** No two calls share an id. */
  ghost predicate Separate(ids: map<int, Id>) {
    forall i, j | i in ids && j in ids && ids[i] == ids[j] :: i == j
  }

  /** An event about a call uses the call's own id. */
  ghost predicate Proper(b: Body, ids: map<int, Id>) { AboutCalls(b) ==> b.idx in ids && ids[b.idx] == b.callId }

  ghost predicate ProperLog(log: seq<Event>, ids: map<int, Id>) {
    forall p | 0 <= p < |log| :: Proper(log[p].body, ids)
  }

  ghost function PlaceOf(order: seq<int>, i: int): (j: nat)
    requires i in order
    ensures j < |order| && order[j] == i
  {
    var j: nat :| j < |order| && order[j] == i;
    j
  }

  /** The Chat index a call's arguments go to: its own place, or the last call's (0 for none) if it is not announced. */
  ghost function Lands(order: seq<int>, i: int): nat {
    if i in order then PlaceOf(order, i) else if order == [] then 0 else |order| - 1
  }

  ghost predicate LandsAt(order: seq<int>, b: Body, n: nat) {
    (b.ArgsDelta? || b.CallItemDone?) && Lands(order, b.idx) == n
  }

  /** What arrives at one Chat index: streamed arguments, and whole ones when nothing arrived before. */
  ghost function Landed(log: seq<Event>, n: nat): string {
    if log == [] then ""
    else
      var pre, b := log[..|log| - 1], log[|log| - 1].body;
      var sofar := Landed(pre, n);
      if !LandsAt(Order(pre), b, n) then sofar
      else if b.ArgsDelta? then sofar + b.args
      else if sofar == "" then b.args
      else sofar
  }

  lemma LandedSnoc(log: seq<Event>, e: Event, n: nat)
    ensures Landed(log + [e], n) ==
            if !LandsAt(Order(log), e.body, n) then Landed(log, n)
            else if e.body.ArgsDelta? then Landed(log, n) + e.body.args
            else if Landed(log, n) == "" then e.body.args
            else Landed(log, n)
  {
    assert (log + [e])[..|log|] == log;
  }

  /** All argument text a Chat stream carries for one call index. */
  ghost function ChatArgs(out: seq<R.Chunk>, at: R.Index): string {
    if out == [] then ""
    else
      var c := out[|out| - 1];
      ChatArgs(out[..|out| - 1], at) + if c.Args? && c.at == at then c.args else ""
  }

  lemma ChatArgsSnoc(out: seq<R.Chunk>, c: R.Chunk, at: R.Index)
    ensures ChatArgs(out + [c], at) == ChatArgs(out, at) + if c.Args? && c.at == at then c.args else ""
  {
    assert (out + [c])[..|out|] == out;
  }

  /** A remembered key belongs to a call in the order, at its place. */
  ghost predicate Owned(key: Id, at: nat, order: seq<int>, ids: map<int, Id>) {
    at < |order| && order[at] in ids && key == ItemId(ids[order[at]])
  }

  ghost predicate Placed(t: R.State, j: nat, order: seq<int>, ids: map<int, Id>)
    requires j < |order|
  {
    order[j] in ids && ItemId(ids[order[j]]) in t.index && t.index[ItemId(ids[order[j]])] == j
  }

  /** The index map holds exactly the announced calls, each at its place. */
  ghost predicate Indexed(t: R.State, order: seq<int>, ids: map<int, Id>) {
    && Sane(t)
    && Distinct(order)
    && t.calls == |order|
    && (forall j: nat | j < |order| :: Placed(t, j, order, ids))
    && (forall k | k in t.index :: Owned(k, t.index[k], order, ids))
  }

  /** The second machine sends an event about a call where Lands says. */
  lemma LookupLands(t: R.State, order: seq<int>, ids: map<int, Id>, i: int)
    requires Separate(ids) && Indexed(t, order, ids) && i in ids
    ensures Lookup(t, ids[i]) == Lands(order, i)
    ensures ItemId(ids[i]) in t.index <==> i in order
  {
    if i in order {
      assert Placed(t, PlaceOf(order, i), order, ids);
    }
    var key := ItemId(ids[i]);
    if key in t.index {
      assert Owned(key, t.index[key], order, ids);
      ItemIdInjective(ids[i], ids[order[t.index[key]]]);
      assert order[t.index[key]] == i;
    }
  }

  lemma IndexedStep(t: R.State, order: seq<int>, ids: map<int, Id>, b: Body)
    requires Separate(ids) && Indexed(t, order, ids) && Proper(b, ids)
    ensures Indexed(R.Convert(t, Wire(b)), if b.CallAdded? && b.idx !in order then order + [b.idx] else order, ids)
  {
    if b.CallAdded? {
      AddedEffect(t, b);
      LookupLands(t, order, ids, b.idx);
      AddedIndexed(t, R.Convert(t, Wire(b)), order, ids, b.idx);
    } else {
      IndexKept(t, b);
      SameIndex(t, R.Convert(t, Wire(b)), order, ids);
    }
  }

  /** Nothing but an announcement touches the index. */
  lemma IndexKept(t: R.State, b: Body)
    requires Sane(t) && !b.CallAdded?
    ensures var u := R.Convert(t, Wire(b)); u.index == t.index && u.calls == t.calls && u.started
  {
  }

  lemma SameIndex(t: R.State, u: R.State, order: seq<int>, ids: map<int, Id>)
    requires Indexed(t, order, ids) && u.index == t.index && u.calls == t.calls && u.started
    ensures Indexed(u, order, ids)
  {
    forall j: nat | j < |order| ensures Placed(u, j, order, ids) {
      assert Placed(t, j, order, ids);
    }
  }

  lemma AddedIndexed(t: R.State, u: R.State, order: seq<int>, ids: map<int, Id>, i: int)
    requires Separate(ids) && Indexed(t, order, ids) && i in ids && u.started
    requires ItemId(ids[i]) in t.index <==> i in order
    requires var key := ItemId(ids[i]);
             if key in t.index then u.index == t.index[key := t.index[key]] && u.calls == t.calls
             else u.index == t.index[key := t.calls] && u.calls == t.calls + 1
    ensures Indexed(u, if i !in order then order + [i] else order, ids)
  {
    var key := ItemId(ids[i]);
    if i in order {
      assert t.index[key := t.index[key]] == t.index;
      SameIndex(t, u, order, ids);
    } else {
      var next := order + [i];
      forall j: nat | j < |next| ensures Placed(u, j, next, ids) {
        if j < |order| {
          assert Placed(t, j, order, ids);
          assert next[j] == order[j];
        }
      }
      forall k | k in u.index ensures Owned(k, u.index[k], next, ids) {
        assert k == key || Owned(k, t.index[k], order, ids);
      }
    }
  }

  ghost predicate Carries(t: R.State, n: nat, args: string) {
    ChatArgs(t.out, R.Num(n)) == args && (R.Num(n) in t.emitted <==> args != "")
  }

  lemma {:induction false} ArgsUnmoved(out: seq<R.Chunk>, more: seq<R.Chunk>, at: R.Index)
    requires |more| <= 1 && (more != [] ==> !(more[0].Args? && more[0].at == at))
    ensures ChatArgs(out + more, at) == ChatArgs(out, at)
  {
    if |more| == 1 {
      ChatArgsSnoc(out, more[0], at);
      assert out + more == out + [more[0]];
    } else {
      assert out + more == out;
    }
  }

  /** What one event does to the Chat index it goes to. */
  lemma OwnStep(t: R.State, b: Body, args: string)
    requires Sane(t) && (b.ArgsDelta? || b.CallItemDone?) && Carries(t, Lookup(t, b.callId), args)
    ensures Carries(R.Convert(t, Wire(b)), Lookup(t, b.callId),
                    if b.ArgsDelta? then args + b.args else if args == "" then b.args else args)
  {
    var at := R.Num(Lookup(t, b.callId));
    if b.ArgsDelta? {
      DeltaEffect(t, b);
      ChatArgsSnoc(t.out, R.Args(at, b.args, false), at);
    } else {
      DoneEffect(t, b);
      ChatArgsSnoc(t.out, R.Args(at, b.args, true), at);
    }
  }

  lemma Unmoved(t: R.State, u: R.State, more: seq<R.Chunk>, n: nat, args: string)
    requires Carries(t, n, args) && u.out == t.out + more && |more| <= 1
    requires more != [] ==> !(more[0].Args? && more[0].at == R.Num(n))
    requires R.Num(n) in u.emitted <==> R.Num(n) in t.emitted
    ensures Carries(u, n, args)
  {
    ArgsUnmoved(t.out, more, R.Num(n));
  }

  lemma ElsewhereStep(t: R.State, b: Body, n: nat, args: string)
    requires Sane(t) && Carries(t, n, args) && (b.ArgsDelta? || b.CallItemDone?) && Lookup(t, b.callId) != n
    ensures Carries(R.Convert(t, Wire(b)), n, args)
  {
    var at, u := R.Num(Lookup(t, b.callId)), R.Convert(t, Wire(b));
    if b.ArgsDelta? {
      DeltaEffect(t, b);
      Unmoved(t, u, if b.args == "" then [] else [R.Args(at, b.args, false)], n, args);
    } else {
      DoneEffect(t, b);
      Unmoved(t, u, if b.args == "" || at in t.emitted then [] else [R.Args(at, b.args, true)], n, args);
    }
  }

  lemma AddedStep(t: R.State, b: Body, n: nat, args: string)
    requires Sane(t) && Carries(t, n, args) && b.CallAdded?
    ensures Carries(R.Convert(t, Wire(b)), n, args)
  {
    AddedEffect(t, b);
    var at := if ItemId(b.callId) in t.index then t.index[ItemId(b.callId)] else t.calls;
    Unmoved(t, R.Convert(t, Wire(b)), [R.CallStart(at, b.callId, b.name.text)], n, args);
  }

  lemma CompletedStep(t: R.State, n: nat, args: string)
    requires Sane(t) && Carries(t, n, args)
    ensures Carries(R.Convert(t, R.Completed), n, args)
  {
    var u := R.Convert(t, R.Completed);
    Unmoved(t, u, if t.finished then [] else [R.Finish(R.FinishReason(R.Begin(t)))], n, args);
  }

  lemma PlainStep(t: R.State, b: Body, n: nat, args: string)
    requires Sane(t) && Carries(t, n, args) && !AboutCalls(b) && !b.Completed?
    ensures Carries(R.Convert(t, Wire(b)), n, args)
  {
    PlainEffect(t, b);
    var more := match b
                case TextDelta(_, x) => if x == "" then [] else [R.Text(x)]
                case ReasoningDelta(_, x) => if x == "" then [] else [R.Thought(x)]
                case _ => [];
    Unmoved(t, R.Convert(t, Wire(b)), more, n, args);
  }

  /** Every other index is left alone. */
  lemma OtherStep(t: R.State, b: Body, n: nat, args: string)
    requires Sane(t) && Carries(t, n, args)
    requires b.ArgsDelta? || b.CallItemDone? ==> Lookup(t, b.callId) != n
    ensures Carries(R.Convert(t, Wire(b)), n, args)
  {
    if b.CallAdded? {
      AddedStep(t, b, n, args);
    } else if b.ArgsDelta? || b.CallItemDone? {
      ElsewhereStep(t, b, n, args);
    } else if b.Completed? {
      CompletedStep(t, n, args);
    } else {
      PlainStep(t, b, n, args);
    }
  }

  ghost predicate CallsInv(t: R.State, log: seq<Event>, ids: map<int, Id>) {
    Indexed(t, Order(log), ids) && forall n: nat :: Carries(t, n, Landed(log, n))
  }

  lemma CallsStep(t: R.State, log: seq<Event>, ids: map<int, Id>, e: Event)
    requires Separate(ids) && Proper(e.body, ids) && CallsInv(t, log, ids)
    ensures CallsInv(R.Convert(t, Wire(e.body)), log + [e], ids)
  {
    var b, u := e.body, R.Convert(t, Wire(e.body));
    OrderSnoc(log, e);
    IndexedStep(t, Order(log), ids, b);
    forall n: nat ensures Carries(u, n, Landed(log + [e], n)) {
      LandedSnoc(log, e, n);
      assert Carries(t, n, Landed(log, n));
      if b.ArgsDelta? || b.CallItemDone? {
        LookupLands(t, Order(log), ids, b.idx);
      }
      if LandsAt(Order(log), b, n) {
        OwnStep(t, b, Landed(log, n));
      } else {
        OtherStep(t, b, n, Landed(log, n));
      }
    }
  }

  /** For every log with its calls' own distinct ids: each Chat index carries exactly what lands on it. */
  lemma {:induction false} CallsPass(log: seq<Event>, ids: map<int, Id>)
    requires Separate(ids) && ProperLog(log, ids)
    ensures CallsInv(Pipe(log), log, ids)
    decreases |log|
  {
    if log != [] {
      var pre := log[..|log| - 1];
      assert pre + [log[|log| - 1]] == log;
      CallsPass(pre, ids);
      CallsStep(Pipe(pre), pre, ids, log[|log| - 1]);
    }
  }

  // ---- the announcements ----

  datatype Call = Call(id: Id, name: string)

  /** The calls a log announces, with id and name, in order. */
  ghost function Introduced(log: seq<Event>): seq<Call> {
    if log == [] then []
    else
      var b := log[|log| - 1].body;
      Introduced(log[..|log| - 1]) + if b.CallAdded? then [Call(b.callId, b.name.text)] else []
  }

  lemma IntroducedSnoc(log: seq<Event>, e: Event)
    ensures Introduced(log + [e]) ==
            Introduced(log) + if e.body.CallAdded? then [Call(e.body.callId, e.body.name.text)] else []
  {
    assert (log + [e])[..|log|] == log;
  }

  /** The calls a Chat stream starts, in order. */
  ghost function Starts(out: seq<R.Chunk>): seq<Call> {
    if out == [] then []
    else
      var c := out[|out| - 1];
      Starts(out[..|out| - 1]) + if c.CallStart? then [Call(c.id, c.name)] else []
  }

  lemma StartsSnoc(out: seq<R.Chunk>, c: R.Chunk)
    ensures Starts(out + [c]) == Starts(out) + if c.CallStart? then [Call(c.id, c.name)] else []
  {
    assert (out + [c])[..|out|] == out;
  }

  /** Every start chunk carries the index its call is remembered under. */
  ghost predicate StartsIndexed(t: R.State) {
    forall p | 0 <= p < |t.out| && t.out[p].CallStart? ::
      ItemId(t.out[p].id) in t.index && t.index[ItemId(t.out[p].id)] == t.out[p].index
  }

  /** Only an announcement appends a start chunk. */
  lemma NoStart(t: R.State, b: Body) returns (more: seq<R.Chunk>)
    requires Sane(t) && !b.CallAdded?
    ensures var u := R.Convert(t, Wire(b));
            u.out == t.out + more && |more| <= 1 && u.index == t.index && (more != [] ==> !more[0].CallStart?)
  {
    if b.ArgsDelta? {
      DeltaEffect(t, b);
    } else if b.CallItemDone? {
      DoneEffect(t, b);
    } else if !b.Completed? {
      PlainEffect(t, b);
    }
    more := R.Convert(t, Wire(b)).out[|t.out|..];
  }

  lemma StartsStep(t: R.State, b: Body)
    requires Sane(t) && StartsIndexed(t)
    ensures var u := R.Convert(t, Wire(b));
            && StartsIndexed(u)
            && Starts(u.out) == Starts(t.out) + if b.CallAdded? then [Call(b.callId, b.name.text)] else []
  {
    if b.CallAdded? {
      AddedEffect(t, b);
      StartAppends(t, R.Convert(t, Wire(b)), b);
    } else {
      var more := NoStart(t, b);
      if |more| == 1 {
        StartsSnoc(t.out, more[0]);
        assert more == [more[0]];
      } else {
        assert t.out + more == t.out;
      }
    }
  }

  lemma StartAppends(t: R.State, u: R.State, b: Body)
    requires StartsIndexed(t) && b.CallAdded?
    requires forall k | k in t.index :: k in u.index && u.index[k] == t.index[k]
    requires ItemId(b.callId) in u.index
    requires u.out == t.out + [R.CallStart(u.index[ItemId(b.callId)], b.callId, b.name.text)]
    ensures StartsIndexed(u) && Starts(u.out) == Starts(t.out) + [Call(b.callId, b.name.text)]
  {
    StartsSnoc(t.out, R.CallStart(u.index[ItemId(b.callId)], b.callId, b.name.text));
  }

  /** For every log, the same calls are started, with id and name, in order. */
  lemma {:induction false} StartsPass(log: seq<Event>)
    ensures Starts(Pipe(log).out) == Introduced(log) && StartsIndexed(Pipe(log))
  {
    if log != [] {
      var pre := log[..|log| - 1];
      StartsPass(pre);
      PipeIsSane(pre);
      StartsStep(Pipe(pre), log[|log| - 1].body);
    }
  }

  // ---- when every event is about an announced call ----

  ghost predicate Announcing(log: seq<Event>) {
    log == [] ||
    var pre, b := log[..|log| - 1], log[|log| - 1].body;
    Announcing(pre) && (b.ArgsDelta? || b.CallItemDone? ==> b.idx in Order(pre))
  }

  lemma AnnouncingSnoc(log: seq<Event>, e: Event)
    ensures Announcing(log + [e]) <==>
            Announcing(log) && (e.body.ArgsDelta? || e.body.CallItemDone? ==> e.body.idx in Order(log))
  {
    assert (log + [e])[..|log|] == log;
  }

  /** One call's own streamed arguments, or its own whole ones when nothing was streamed before. */
  ghost function Delivered(log: seq<Event>, i: int): string {
    if log == [] then ""
    else
      var sofar, b := Delivered(log[..|log| - 1], i), log[|log| - 1].body;
      if b.ArgsDelta? && b.idx == i then sofar + b.args
      else if b.CallItemDone? && b.idx == i && sofar == "" then b.args
      else sofar
  }

  lemma DeliveredSnoc(log: seq<Event>, e: Event, i: int)
    ensures Delivered(log + [e], i) ==
            if e.body.ArgsDelta? && e.body.idx == i then Delivered(log, i) + e.body.args
            else if e.body.CallItemDone? && e.body.idx == i && Delivered(log, i) == "" then e.body.args
            else Delivered(log, i)
  {
    assert (log + [e])[..|log|] == log;
  }

  lemma {:induction false} OrderIsDistinct(log: seq<Event>)
    ensures Distinct(Order(log))
  {
    if log != [] {
      OrderIsDistinct(log[..|log| - 1]);
    }
  }

  /** Each place carries its own call's arguments, and no other index carries any. */
  ghost predicate OwnOnly(log: seq<Event>, n: nat) {
    Landed(log, n) == if n < |Order(log)| then Delivered(log, Order(log)[n]) else ""
  }

  lemma OwnOnlyStep(log: seq<Event>, e: Event, n: nat)
    requires Announcing(log + [e]) && OwnOnly(log, n) && Distinct(Order(log))
    requires e.body.CallAdded? && e.body.idx !in Order(log) ==> Delivered(log, e.body.idx) == ""
    ensures OwnOnly(log + [e], n)
  {
    AnnouncingSnoc(log, e);
    LandedSnoc(log, e, n);
    OrderSnoc(log, e);
    var order := Order(log + [e]);
    if n < |order| {
      DeliveredSnoc(log, e, order[n]);
    }
  }

  lemma {:induction false} UnannouncedIsSilent(log: seq<Event>, i: int)
    requires Announcing(log) && i !in Order(log)
    ensures Delivered(log, i) == ""
  {
    if log != [] {
      UnannouncedIsSilent(log[..|log| - 1], i);
    }
  }

  lemma {:induction false} LandedIsDelivered(log: seq<Event>, n: nat)
    requires Announcing(log)
    ensures OwnOnly(log, n)
    decreases |log|
  {
    if log != [] {
      var pre, e := log[..|log| - 1], log[|log| - 1];
      assert pre + [e] == log;
      LandedIsDelivered(pre, n);
      OrderIsDistinct(pre);
      if e.body.CallAdded? && e.body.idx !in Order(pre) {
        UnannouncedIsSilent(pre, e.body.idx);
      }
      OwnOnlyStep(pre, e, n);
    }
  }
}
