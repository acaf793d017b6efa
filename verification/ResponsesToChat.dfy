/** The streaming translator from Responses events to Chat chunks. */
module ResponsesToChat {
  import opened Config

  /** One upstream event. A field that is absent is None; the empty text is present but blank. */
  datatype Event =
    | TextDelta(delta: string)
    | ReasoningDelta(delta: string)
    | ItemAdded(call: bool, itemId: Option<Id>, outerId: Option<Id>, callId: Option<Id>, name: string, fallback: Id)
    | ArgsDelta(item: Option<Id>, delta: string)
    | ItemDone(call: bool, itemId: Option<Id>, outerId: Option<Id>, args: string)
    | Completed
    | Failed(error: Option<string>)
    | Other

  datatype Reason = ToolCalls | Stop

  /** A chunk's tool-call index: a number, or a blank key passed through as it is. */
  datatype Index = Num(n: nat) | Raw(key: Id)

  datatype Chunk =
    | Text(text: string)
    | Thought(text: string)
    | CallStart(index: nat, id: Id, name: string)
    | Args(at: Index, args: string, whole: bool)
    | Finish(reason: Reason)
    | Error(text: string)

  datatype State = State(
    started: bool, calls: nat, current: Option<Id>, index: map<Id, nat>, emitted: set<Index>,
    finished: bool, out: seq<Chunk>)

  const Init := State(false, 0, None, map[], {}, false, [])

  predicate Truthy(k: Option<Id>) { k.Some? && k.value.text != "" }

  function Emit(s: State, c: Chunk): State { s.(out := s.out + [c]) }

  function FinishReason(s: State): Reason { if s.calls > 0 || s.current.Some? then ToolCalls else Stop }

  function Final(s: State): State { Emit(s.(finished := true), Finish(FinishReason(s))) }

  function Begin(s: State): State { if s.started then s else s.(started := true, calls := 0, current := None) }

  function Last(s: State): nat { if s.calls == 0 then 0 else s.calls - 1 }

  function CallIdOf(e: Event): Id
    requires e.ItemAdded?
  {
    if Truthy(e.callId) then e.callId.value else e.fallback
  }

  /** The key an announced call is remembered under. */
  function KeyOf(e: Event): Id
    requires e.ItemAdded?
  {
    if Truthy(e.itemId) then e.itemId.value else if Truthy(e.outerId) then e.outerId.value else CallIdOf(e)
  }

  function OnAdded(s: State, e: Event): State
    requires e.ItemAdded?
  {
    if !e.call then s
    else
      var id, key := CallIdOf(e), KeyOf(e);
      var s1 := s.(current := Some(id));
      if key in s.index then Emit(s1, CallStart(s.index[key], id, e.name))
      else Emit(s1.(index := s.index[key := s.calls], calls := s.calls + 1), CallStart(s.calls, id, e.name))
  }

  function OnArgs(s: State, item: Option<Id>, delta: string): State {
    if delta == "" then s
    else
      var at := Num(if Truthy(item) && item.value in s.index then s.index[item.value] else Last(s));
      Emit(s.(emitted := s.emitted + {at}), Args(at, delta, false))
  }

  function DoneIndex(s: State, itemId: Option<Id>, outerId: Option<Id>): Index {
    var key := if Truthy(itemId) then itemId else outerId;
    if key.None? then Num(Last(s))
    else if Truthy(key) then Num(if key.value in s.index then s.index[key.value] else Last(s))
    else Raw(key.value)
  }

  function OnDone(s: State, e: Event): State
    requires e.ItemDone?
  {
    if !e.call then s
    else
      var at := DoneIndex(s, e.itemId, e.outerId);
      if e.args == "" || at in s.emitted then s
      else Emit(s.(emitted := s.emitted + {at}), Args(at, e.args, true))
  }

  /** One event. */
  function Convert(s0: State, e: Event): State {
    var s := Begin(s0);
    match e
    case TextDelta(d) => if d == "" then s else Emit(s, Text(d))
    case ReasoningDelta(d) => if d == "" then s else Emit(s, Thought(d))
    case ItemAdded(_, _, _, _, _, _) => OnAdded(s, e)
    case ArgsDelta(item, d) => OnArgs(s, item, d)
    case ItemDone(_, _, _, _) => OnDone(s, e)
    case Completed => if s.finished then s else Final(s)
    case Failed(error) => if s.finished || error.None? then s else Emit(s.(finished := true), Error(error.value))
    case Other => s
  }

  function Flush(s: State): State { if s.finished || !s.started then s else Final(s) }

  class Translator {
    var started: bool
    var calls: nat
    var current: Option<Id>
    var index: map<Id, nat>
    var emitted: set<Index>
    var finished: bool
    ghost var out: seq<Chunk>

    constructor ()
      ensures View() == Init
    {
      started, calls, current, index, emitted, finished, out := false, 0, None, map[], {}, false, [];
    }

    ghost function View(): State reads this { State(started, calls, current, index, emitted, finished, out) }

    method FinalChunk() returns (c: Chunk)
      modifies this
      ensures View() == Final(old(View())) && out == old(out) + [c]
    {
      var reason := if calls > 0 || current.Some? then ToolCalls else Stop;
      finished := true;
      c := Finish(reason);
      out := out + [c];
    }

    /** An item was added: a call gets its index, a call seen before the one it has. */
    method AddItem(e: Event) returns (c: Option<Chunk>)
      requires e.ItemAdded?
      modifies this`calls, this`current, this`index
      ensures View().(out := out + if c.Some? then [c.value] else []) == OnAdded(old(View()), e)
    {
      if !e.call {
        return None;
      }
      var id := if Truthy(e.callId) then e.callId.value else e.fallback;
      current := Some(id);
      var key := e.itemId;
      if !Truthy(key) { key := e.outerId; }
      if !Truthy(key) { key := current; }
      var at := calls;
      if key.value in index {
        at := index[key.value];
      } else {
        calls := calls + 1;
        index := index[key.value := at];
      }
      return Some(CallStart(at, id, e.name));
    }

    /** An item is done: its whole arguments are sent if none were before. */
    method FinishItem(e: Event) returns (c: Option<Chunk>)
      requires e.ItemDone?
      modifies this`emitted
      ensures View().(out := out + if c.Some? then [c.value] else []) == OnDone(old(View()), e)
    {
      if !e.call {
        return None;
      }
      var key := e.itemId;
      if !Truthy(key) { key := e.outerId; }
      var at := Num(if calls > 0 then calls - 1 else 0);
      if key.Some? {
        if Truthy(key) {
          if key.value in index { at := Num(index[key.value]); }
        } else {
          at := Raw(key.value);
        }
      }
      if e.args == "" || at in emitted {
        return None;
      }
      emitted := emitted + {at};
      return Some(Args(at, e.args, true));
    }

    /** Zero or one chunk for an event. */
    method ConvertEvent(e: Event) returns (c: Option<Chunk>)
      modifies this
      ensures View() == Convert(old(View()), e)
      ensures out == old(out) + if c.Some? then [c.value] else []
    {
      c := None;
      if !started {
        started := true;
        calls := 0;
        current := None;
      }
      match e {
        case TextDelta(d) =>
          if d != "" { c := Some(Text(d)); }
        case ReasoningDelta(d) =>
          if d != "" { c := Some(Thought(d)); }
        case ItemAdded(_, _, _, _, _, _) =>
          c := AddItem(e);
        case ArgsDelta(item, d) =>
          if d != "" {
            var at := if calls > 0 then calls - 1 else 0;
            if Truthy(item) {
              if item.value in index { at := index[item.value]; }
            }
            emitted := emitted + {Num(at)};
            c := Some(Args(Num(at), d, false));
          }
        case ItemDone(_, _, _, _) =>
          c := FinishItem(e);
        case Completed =>
          if !finished {
            var f := FinalChunk();
            return Some(f);
          }
        case Failed(error) =>
          if !finished && error.Some? {
            finished := true;
            c := Some(Error(error.value));
          }
        case Other =>
      }
      if c.Some? {
        out := out + [c.value];
      }
    }

    method End() returns (c: Option<Chunk>)
      modifies this
      ensures View() == Flush(old(View()))
      ensures out == old(out) + if c.Some? then [c.value] else []
    {
      if finished || !started {
        return None;
      }
      var f := FinalChunk();
      return Some(f);
    }
  }

  // ---- whole streams ----

  ghost function Run(evs: seq<Event>, n: nat): State
    requires n <= |evs|
  {
    if n == 0 then Init else Convert(Run(evs, n - 1), evs[n - 1])
  }

  /** The keys of announced calls, in order of first announcement. */
  ghost function Order(evs: seq<Event>, n: nat): seq<Id>
    requires n <= |evs|
  {
    if n == 0 then []
    else
      var prev, e := Order(evs, n - 1), evs[n - 1];
      if e.ItemAdded? && e.call && KeyOf(e) !in prev then prev + [KeyOf(e)] else prev
  }

  ghost predicate IsFinish(c: Chunk) { c.Finish? || c.Error? }

  ghost function Finishes(out: seq<Chunk>): nat {
    if out == [] then 0 else Finishes(out[..|out| - 1]) + if IsFinish(out[|out| - 1]) then 1 else 0
  }

  /** A whole-arguments chunk comes at most once per index and only with no argument output before it. */
  ghost predicate WholeIsFirst(out: seq<Chunk>) {
    forall p, q | 0 <= q < p < |out| && out[p].Args? && out[p].whole && out[q].Args? :: out[q].at != out[p].at
  }

  /** Announced calls have dense indices in order of first announcement. */
  ghost predicate Dense(s: State, order: seq<Id>) {
    && s.calls == |order|
    && Distinct(order)
    && (forall j | 0 <= j < |order| :: order[j] in s.index && s.index[order[j]] == j)
    && (forall k | k in s.index :: k in order)
  }

  ghost predicate Accounted(s: State) {
    && Finishes(s.out) == (if s.finished then 1 else 0)
    && WholeIsFirst(s.out)
    && (forall p | 0 <= p < |s.out| && s.out[p].Args? :: s.out[p].at in s.emitted)
    && (forall p | 0 <= p < |s.out| && s.out[p].CallStart? :: s.out[p].index < s.calls)
    && (s.finished ==> s.started)
    && (!s.started ==> s.calls == 0 && s.current.None?)
    && (s.current.Some? <==> s.calls > 0)
  }

  lemma FinishSnoc(out: seq<Chunk>, c: Chunk)
    ensures Finishes(out + [c]) == Finishes(out) + if IsFinish(c) then 1 else 0
  {
    assert (out + [c])[..|out|] == out;
  }

  lemma DenseStep(s: State, order: seq<Id>, e: Event)
    requires Dense(s, order) && (!s.started ==> s.calls == 0)
    ensures var next := if e.ItemAdded? && e.call && KeyOf(e) !in order then order + [KeyOf(e)] else order;
            Dense(Convert(s, e), next)
  {
    if e.ItemAdded? && e.call && KeyOf(e) in order {
      var j :| 0 <= j < |order| && order[j] == KeyOf(e);
      assert KeyOf(e) in s.index;
    }
  }

  lemma EmitAccounted(s: State, c: Chunk)
    requires Accounted(s) && !IsFinish(c)
    requires c.Args? && c.whole ==> c.at !in s.emitted
    requires c.CallStart? ==> c.index < s.calls
    ensures var t := Emit(s, c);
            Accounted(if c.Args? then t.(emitted := s.emitted + {c.at}) else t)
  {
    FinishSnoc(s.out, c);
  }

  lemma FinalAccounted(s: State, c: Chunk)
    requires Accounted(s) && IsFinish(c) && !s.finished && s.started
    ensures Accounted(Emit(s.(finished := true), c))
  {
    FinishSnoc(s.out, c);
  }

  lemma AddedAccounted(s: State, e: Event)
    requires Accounted(s) && s.started && e.ItemAdded? && forall k | k in s.index :: s.index[k] < s.calls
    ensures Accounted(OnAdded(s, e))
  {
    if e.call {
      var id, key := CallIdOf(e), KeyOf(e);
      if key in s.index {
        EmitAccounted(s.(current := Some(id)), CallStart(s.index[key], id, e.name));
      } else {
        EmitAccounted(s.(current := Some(id), index := s.index[key := s.calls], calls := s.calls + 1),
                      CallStart(s.calls, id, e.name));
      }
    }
  }

  lemma ArgsAccounted(s: State, item: Option<Id>, d: string)
    requires Accounted(s)
    ensures Accounted(OnArgs(s, item, d))
  {
    var at := if Truthy(item) && item.value in s.index then s.index[item.value] else Last(s);
    EmitAccounted(s, Args(Num(at), d, false));
  }

  lemma DoneAccounted(s: State, e: Event)
    requires Accounted(s) && e.ItemDone?
    ensures Accounted(OnDone(s, e))
  {
    var at := DoneIndex(s, e.itemId, e.outerId);
    if at !in s.emitted {
      EmitAccounted(s, Args(at, e.args, true));
    }
  }

  lemma EndAccounted(s: State, e: Event)
    requires Accounted(s) && s.started && (e.Completed? || e.Failed?)
    ensures Accounted(Convert(s, e))
  {
    if e.Completed? && !s.finished {
      FinalAccounted(s, Finish(FinishReason(s)));
    } else if e.Failed? && !s.finished && e.error.Some? {
      FinalAccounted(s, Error(e.error.value));
    }
  }

  lemma WordAccounted(s: State, e: Event)
    requires Accounted(s) && s.started && (e.TextDelta? || e.ReasoningDelta?)
    ensures Accounted(Convert(s, e))
  {
    EmitAccounted(s, if e.TextDelta? then Text(e.delta) else Thought(e.delta));
  }

  lemma ConvertAccounted(s0: State, e: Event)
    requires Accounted(s0)
    requires forall k | k in s0.index :: s0.index[k] < s0.calls
    ensures Accounted(Convert(s0, e))
  {
    var s := Begin(s0);
    assert Accounted(s) && Convert(s0, e) == Convert(s, e);
    match e
    case TextDelta(_) => WordAccounted(s, e);
    case ReasoningDelta(_) => WordAccounted(s, e);
    case ItemAdded(_, _, _, _, _, _) => AddedAccounted(s, e);
    case ArgsDelta(item, d) => ArgsAccounted(s, item, d);
    case ItemDone(_, _, _, _) => DoneAccounted(s, e);
    case Completed => EndAccounted(s, e);
    case Failed(_) => EndAccounted(s, e);
    case Other =>
  }

  lemma {:induction false} RunAccounted(evs: seq<Event>, n: nat)
    requires n <= |evs|
    ensures Dense(Run(evs, n), Order(evs, n)) && Accounted(Run(evs, n))
    ensures n > 0 ==> Run(evs, n).started
  {
    if n > 0 {
      RunAccounted(evs, n - 1);
      NextAccounted(Run(evs, n - 1), Order(evs, n - 1), evs[n - 1]);
    }
  }

  lemma NextAccounted(s: State, order: seq<Id>, e: Event)
    requires Dense(s, order) && Accounted(s)
    ensures var next := if e.ItemAdded? && e.call && KeyOf(e) !in order then order + [KeyOf(e)] else order;
            Dense(Convert(s, e), next)
    ensures Accounted(Convert(s, e)) && Convert(s, e).started
  {
    DenseStep(s, order, e);
    forall k | k in s.index ensures s.index[k] < s.calls {
      var j :| 0 <= j < |order| && order[j] == k;
    }
    ConvertAccounted(s, e);
  }

  /**
   * Over every event sequence: announced calls have dense indices in order of first announcement, repeats reusing
   * theirs; a whole-arguments chunk is the first argument output of its index; at most one chunk carries a finish
   * reason, and a flushed non-empty stream has exactly one.
   */
  lemma ChatStreamIsSound(evs: seq<Event>)
    ensures var s := Run(evs, |evs|);
            && Dense(s, Order(evs, |evs|))
            && WholeIsFirst(s.out)
            && Finishes(s.out) <= 1
            && Finishes(Flush(s).out) == (if evs == [] then 0 else 1)
            && Flush(Flush(s)) == Flush(s)
  {
    RunAccounted(evs, |evs|);
    var s := Run(evs, |evs|);
    if !s.finished && s.started {
      FinalAccounted(s, Finish(FinishReason(s)));
    }
  }

  // ---- the index of every start chunk ----

  /** A key's position in the order of first announcement. */
  ghost function Place(order: seq<Id>, key: Id): nat
    requires key in order
  {
    if order[|order| - 1] == key then |order| - 1 else Place(order[..|order| - 1], key)
  }

  lemma {:induction false} PlaceAt(order: seq<Id>, j: nat)
    requires Distinct(order) && j < |order|
    ensures Place(order, order[j]) == j
  {
    if j < |order| - 1 {
      PlaceAt(order[..|order| - 1], j);
    }
  }

  /** The place of the call that the n-th event announces, if it does. */
  ghost function Latest(evs: seq<Event>, n: nat): seq<nat>
    requires 0 < n <= |evs|
  {
    var e := evs[n - 1];
    if e.ItemAdded? && e.call then [Place(Order(evs, n), KeyOf(e))] else []
  }

  /** The place of every announced call, repeats included, in stream order. */
  ghost function Announcements(evs: seq<Event>, n: nat): seq<nat>
    requires n <= |evs|
  {
    if n == 0 then [] else Announcements(evs, n - 1) + Latest(evs, n)
  }

  ghost function StartIndexes(out: seq<Chunk>): seq<nat> {
    if out == [] then []
    else
      var c := out[|out| - 1];
      StartIndexes(out[..|out| - 1]) + if c.CallStart? then [c.index] else []
  }

  lemma StartSnoc(out: seq<Chunk>, c: Chunk)
    ensures StartIndexes(out + [c]) == StartIndexes(out) + if c.CallStart? then [c.index] else []
  {
    assert (out + [c])[..|out|] == out;
  }

  lemma AnnouncingStep(s: State, e: Event)
    requires e.ItemAdded? && e.call
    ensures var t := Convert(s, e);
            KeyOf(e) in t.index && StartIndexes(t.out) == StartIndexes(s.out) + [t.index[KeyOf(e)]]
  {
    StartSnoc(s.out, CallStart(Convert(s, e).index[KeyOf(e)], CallIdOf(e), e.name));
  }

  /** Only an announcement appends a start chunk. */
  lemma NoStart(s: State, e: Event) returns (more: seq<Chunk>)
    requires !(e.ItemAdded? && e.call)
    ensures Convert(s, e).out == s.out + more && |more| <= 1 && (more != [] ==> !more[0].CallStart?)
  {
    more := Convert(s, e).out[|s.out|..];
  }

  lemma OtherStep(s: State, e: Event)
    requires !(e.ItemAdded? && e.call)
    ensures StartIndexes(Convert(s, e).out) == StartIndexes(s.out)
  {
    var more := NoStart(s, e);
    if more != [] {
      StartSnoc(s.out, more[0]);
      assert more == [more[0]];
    } else {
      assert s.out + more == s.out;
    }
  }

  lemma DensePlace(s: State, order: seq<Id>, key: Id)
    requires Dense(s, order) && key in s.index
    ensures s.index[key] == Place(order, key)
  {
    var j :| 0 <= j < |order| && order[j] == key;
    PlaceAt(order, j);
  }

  lemma LatestStart(evs: seq<Event>, n: nat)
    requires 0 < n <= |evs|
    ensures StartIndexes(Run(evs, n).out) == StartIndexes(Run(evs, n - 1).out) + Latest(evs, n)
  {
    var s, t, e := Run(evs, n - 1), Run(evs, n), evs[n - 1];
    assert t == Convert(s, e);
    if e.ItemAdded? && e.call {
      AnnouncingStep(s, e);
      assert Dense(t, Order(evs, n)) by {
        RunAccounted(evs, n);
      }
      DensePlace(t, Order(evs, n), KeyOf(e));
    } else {
      OtherStep(s, e);
    }
  }

  /** Each start chunk carries its call's place in the order of first announcement, a repeat the same one again. */
  lemma StartsFollowOrder(evs: seq<Event>, n: nat)
    requires n <= |evs|
    ensures StartIndexes(Run(evs, n).out) == Announcements(evs, n)
  {
    for k := 0 to n
      invariant StartIndexes(Run(evs, k).out) == Announcements(evs, k)
    {
      LatestStart(evs, k + 1);
    }
  }
}
