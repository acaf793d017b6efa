/** What it means for a Responses event stream to be in order, by positions and as a running check. */
module StreamMonitor {
  import opened Config
  import opened ChatToResponses

  // ---- by positions ----

  ghost function Seen(log: seq<Event>): set<Body> {
    if log == [] then {} else Seen(log[..|log| - 1]) + {log[|log| - 1].body}
  }

  /** The text deltas emitted for one message, concatenated. */
  ghost function Deltas(log: seq<Event>, i: int): string {
    if log == [] then ""
    else
      var b := log[|log| - 1].body;
      Deltas(log[..|log| - 1], i) + if b.TextDelta? && b.idx == i then b.text else ""
  }

  ghost function ReasonDeltas(log: seq<Event>): string {
    if log == [] then ""
    else
      var b := log[|log| - 1].body;
      ReasonDeltas(log[..|log| - 1]) + if b.ReasoningDelta? then b.text else ""
  }

  ghost predicate Announced(log: seq<Event>, i: int) {
    exists c, n :: CallAdded(i, c, n) in Seen(log)
  }

  /** Events that may happen once: per stream, per message index, or per call index. */
  datatype Slot = Repeatable | PerStream(kind: int) | PerMessage(kind: int, idx: int) | PerCall(kind: int, idx: int)

  function SlotOf(b: Body): Slot {
    match b
    case Created => PerStream(0)
    case InProgress => PerStream(1)
    case ReasoningAdded(_) => PerStream(2)
    case ReasoningPartAdded(_) => PerStream(3)
    case ReasoningTextDone(_) => PerStream(4)
    case ReasoningPartDone(_) => PerStream(5)
    case ReasoningItemDone(_) => PerStream(6)
    case Completed => PerStream(7)
    case MsgAdded(i) => PerMessage(0, i)
    case MsgPartAdded(i) => PerMessage(1, i)
    case TextDone(i, _) => PerMessage(2, i)
    case MsgPartDone(i, _) => PerMessage(3, i)
    case MsgItemDone(i, _) => PerMessage(4, i)
    case CallAdded(i, _, _) => PerCall(0, i)
    case ArgsDone(i, _, _) => PerCall(1, i)
    case CallItemDone(i, _, _, _) => PerCall(2, i)
    case ReasoningDelta(_, _) => Repeatable
    case TextDelta(_, _) => Repeatable
    case ArgsDelta(_, _, _) => Repeatable
  }

  /** What must already have happened for an event to be in order, and what its text must be. */
  ghost predicate Grounded(pre: seq<Event>, b: Body) {
    match b
    case MsgPartAdded(i) => MsgAdded(i) in Seen(pre)
    case TextDelta(i, _) => MsgAdded(i) in Seen(pre) && MsgPartAdded(i) in Seen(pre)
    case TextDone(i, t) => MsgAdded(i) in Seen(pre) && t == Deltas(pre, i)
    case MsgPartDone(i, t) => TextDone(i, t) in Seen(pre)
    case MsgItemDone(i, t) => MsgPartDone(i, t) in Seen(pre)
    case ReasoningPartAdded(i) => ReasoningAdded(i) in Seen(pre)
    case ReasoningDelta(at, _) => at.Some? ==> ReasoningAdded(at.value) in Seen(pre)
    case ReasoningTextDone(t) => t == ReasonDeltas(pre)
    case ReasoningPartDone(t) => ReasoningTextDone(t) in Seen(pre)
    case ReasoningItemDone(t) => ReasoningPartDone(t) in Seen(pre)
    case ArgsDelta(i, _, _) => Announced(pre, i)
    case CallItemDone(i, c, _, a) => ArgsDone(i, c, a) in Seen(pre)
    case _ => true
  }

  ghost predicate Fresh(pre: seq<Event>, b: Body) {
    SlotOf(b) != Repeatable ==> forall x | x in Seen(pre) :: SlotOf(x) != SlotOf(b)
  }

  /** A log in order: numbered 1, 2, ..., nothing twice that may happen once, everything grounded in what precedes. */
  ghost predicate InOrder(log: seq<Event>) {
    forall p | 0 <= p < |log| ::
      log[p].number == p + 1 && Fresh(log[..p], log[p].body) && Grounded(log[..p], log[p].body)
  }

  // ---- as a running check ----

  datatype Whole = Whole(
    created: bool, inProgress: bool, rAdded: Option<int>, rPart: bool, rText: string,
    rTextDone: bool, rPartDone: bool, rItemDone: bool, completed: bool)

  datatype Messages = Messages(
    added: set<int>, part: set<int>, text: map<int, string>,
    textDone: set<int>, partDone: set<int>, itemDone: set<int>)

  datatype CallItems = CallItems(added: set<int>, argsDone: set<int>, itemDone: set<int>)

  datatype Monitor = Monitor(whole: Whole, msgs: Messages, calls: CallItems, number: nat, last: Option<Body>, ok: bool)

  const Quiet := Monitor(Whole(false, false, None, false, "", false, false, false, false),
                         Messages({}, {}, map[], {}, {}, {}), CallItems({}, {}, {}), 0, None, true)

  /** May this event come next, given the event before it? */
  predicate LegalWhole(w: Whole, last: Option<Body>, b: Body) {
    match b
    case Created => !w.created
    case InProgress => !w.inProgress
    case ReasoningAdded(_) => w.rAdded.None?
    case ReasoningPartAdded(i) => !w.rPart && w.rAdded == Some(i)
    case ReasoningDelta(at, _) => at == w.rAdded
    case ReasoningTextDone(t) => !w.rTextDone && t == w.rText
    case ReasoningPartDone(t) => !w.rPartDone && last == Some(ReasoningTextDone(t))
    case ReasoningItemDone(t) => !w.rItemDone && last == Some(ReasoningPartDone(t))
    case Completed => !w.completed
    case _ => true
  }

  predicate LegalMessages(m: Messages, last: Option<Body>, b: Body) {
    match b
    case MsgAdded(i) => i !in m.added
    case MsgPartAdded(i) => i !in m.part && i in m.added
    case TextDelta(i, _) => i in m.added && i in m.part
    case TextDone(i, t) => i !in m.textDone && i in m.added && t == Get(m.text, i)
    case MsgPartDone(i, t) => i !in m.partDone && last == Some(TextDone(i, t))
    case MsgItemDone(i, t) => i !in m.itemDone && last == Some(MsgPartDone(i, t))
    case _ => true
  }

  predicate LegalCalls(c: CallItems, last: Option<Body>, b: Body) {
    match b
    case CallAdded(i, _, _) => i !in c.added
    case ArgsDelta(i, _, _) => i in c.added
    case ArgsDone(i, _, _) => i !in c.argsDone
    case CallItemDone(i, id, _, a) => i !in c.itemDone && last == Some(ArgsDone(i, id, a))
    case _ => true
  }

  predicate Legal(m: Monitor, b: Body) {
    LegalWhole(m.whole, m.last, b) && LegalMessages(m.msgs, m.last, b) && LegalCalls(m.calls, m.last, b)
  }

  function NoteWhole(w: Whole, b: Body): Whole {
    match b
    case Created => w.(created := true)
    case InProgress => w.(inProgress := true)
    case ReasoningAdded(i) => w.(rAdded := Some(i))
    case ReasoningPartAdded(_) => w.(rPart := true)
    case ReasoningDelta(_, t) => w.(rText := w.rText + t)
    case ReasoningTextDone(_) => w.(rTextDone := true)
    case ReasoningPartDone(_) => w.(rPartDone := true)
    case ReasoningItemDone(_) => w.(rItemDone := true)
    case Completed => w.(completed := true)
    case _ => w
  }

  function NoteMessages(m: Messages, b: Body): Messages {
    match b
    case MsgAdded(i) => m.(added := m.added + {i})
    case MsgPartAdded(i) => m.(part := m.part + {i})
    case TextDelta(i, t) => m.(text := m.text[i := Get(m.text, i) + t])
    case TextDone(i, _) => m.(textDone := m.textDone + {i})
    case MsgPartDone(i, _) => m.(partDone := m.partDone + {i})
    case MsgItemDone(i, _) => m.(itemDone := m.itemDone + {i})
    case _ => m
  }

  function NoteCalls(c: CallItems, b: Body): CallItems {
    match b
    case CallAdded(i, _, _) => c.(added := c.added + {i})
    case ArgsDone(i, _, _) => c.(argsDone := c.argsDone + {i})
    case CallItemDone(i, _, _, _) => c.(itemDone := c.itemDone + {i})
    case _ => c
  }

  function Observe(m: Monitor, e: Event): Monitor {
    Monitor(NoteWhole(m.whole, e.body), NoteMessages(m.msgs, e.body), NoteCalls(m.calls, e.body),
            m.number + 1, Some(e.body), m.ok && e.number == m.number + 1 && Legal(m, e.body))
  }

  function Watch(log: seq<Event>): Monitor {
    if log == [] then Quiet else Observe(Watch(log[..|log| - 1]), log[|log| - 1])
  }

  lemma WatchSnoc(log: seq<Event>, e: Event)
    ensures Watch(log + [e]) == Observe(Watch(log), e)
  {
    assert (log + [e])[..|log|] == log;
  }

  // ---- the running check is sound for the positional meaning ----

  predicate UsedWhole(w: Whole, k: int) {
    if k == 0 then w.created else if k == 1 then w.inProgress else if k == 2 then w.rAdded.Some?
    else if k == 3 then w.rPart else if k == 4 then w.rTextDone else if k == 5 then w.rPartDone
    else if k == 6 then w.rItemDone else w.completed
  }

  predicate UsedMessages(m: Messages, k: int, i: int) {
    if k == 0 then i in m.added else if k == 1 then i in m.part else if k == 2 then i in m.textDone
    else if k == 3 then i in m.partDone else i in m.itemDone
  }

  predicate UsedCalls(c: CallItems, k: int, i: int) {
    if k == 0 then i in c.added else if k == 1 then i in c.argsDone else i in c.itemDone
  }

  predicate Used(m: Monitor, slot: Slot) {
    match slot
    case Repeatable => true
    case PerStream(k) => UsedWhole(m.whole, k)
    case PerMessage(k, i) => UsedMessages(m.msgs, k, i)
    case PerCall(k, i) => UsedCalls(m.calls, k, i)
  }

  lemma UsedStays(m: Monitor, e: Event, slot: Slot)
    requires Used(m, slot)
    ensures Used(Observe(m, e), slot)
  {
  }

  lemma BecomesUsed(m: Monitor, e: Event)
    ensures Used(Observe(m, e), SlotOf(e.body))
  {
  }

  lemma LegalMeansUnused(m: Monitor, b: Body)
    requires Legal(m, b) && SlotOf(b) != Repeatable
    ensures !Used(m, SlotOf(b))
  {
  }

  lemma {:induction false} SeenIsUsed(log: seq<Event>, b: Body)
    requires b in Seen(log)
    ensures Used(Watch(log), SlotOf(b))
  {
    var init, e := log[..|log| - 1], log[|log| - 1];
    if b in Seen(init) {
      SeenIsUsed(init, b);
      UsedStays(Watch(init), e, SlotOf(b));
    } else {
      BecomesUsed(Watch(init), e);
    }
  }

  /** What one event adds to the texts the check keeps. */
  lemma NoteTexts(m: Monitor, e: Event, i: int)
    ensures Get(NoteMessages(m.msgs, e.body).text, i) ==
            Get(m.msgs.text, i) + if e.body.TextDelta? && e.body.idx == i then e.body.text else ""
    ensures NoteWhole(m.whole, e.body).rText == m.whole.rText + if e.body.ReasoningDelta? then e.body.text else ""
  {
  }

  /** Texts the check keeps are the texts of the log. */
  lemma {:induction false} WatchedTexts(log: seq<Event>, i: int)
    ensures Get(Watch(log).msgs.text, i) == Deltas(log, i)
    ensures Watch(log).whole.rText == ReasonDeltas(log)
    ensures Watch(log).number == |log|
  {
    if log != [] {
      var init, e := log[..|log| - 1], log[|log| - 1];
      WatchedTexts(init, i);
      NoteTexts(Watch(init), e, i);
    }
  }

  /** What one event can newly set. */
  lemma NoteFlags(m: Monitor, e: Event, i: int)
    ensures var n := Observe(m, e);
            && (i in n.msgs.added ==> i in m.msgs.added || e.body == MsgAdded(i))
            && (i in n.msgs.part ==> i in m.msgs.part || e.body == MsgPartAdded(i))
            && (i in n.calls.added ==> i in m.calls.added || (e.body.CallAdded? && e.body.idx == i))
            && (n.whole.rAdded == m.whole.rAdded || (e.body.ReasoningAdded? && n.whole.rAdded == Some(e.body.idx)))
            && (n.whole.completed ==> m.whole.completed || e.body == Completed)
            && n.last == Some(e.body)
  {
  }

  lemma {:induction false} WatchedWitnesses(log: seq<Event>, i: int)
    ensures var m := Watch(log);
            && (i in m.msgs.added ==> MsgAdded(i) in Seen(log))
            && (i in m.msgs.part ==> MsgPartAdded(i) in Seen(log))
            && (i in m.calls.added ==> Announced(log, i))
            && (m.whole.rAdded.Some? ==> ReasoningAdded(m.whole.rAdded.value) in Seen(log))
            && (m.last.Some? ==> m.last.value in Seen(log))
            && (m.whole.completed ==> Completed in Seen(log))
  {
    if log != [] {
      var init, e := log[..|log| - 1], log[|log| - 1];
      WatchedWitnesses(init, i);
      NoteFlags(Watch(init), e, i);
      if i in Watch(init).calls.added {
        var c, n :| CallAdded(i, c, n) in Seen(init);
        assert CallAdded(i, c, n) in Seen(log);
      } else if e.body.CallAdded? && e.body.idx == i {
        assert CallAdded(i, e.body.callId, e.body.name) in Seen(log);
      }
    }
  }

  lemma LegalIsGrounded(log: seq<Event>, b: Body)
    requires Legal(Watch(log), b)
    ensures Grounded(log, b)
  {
    var i := match b
      case MsgPartAdded(i) => i
      case TextDelta(i, _) => i
      case TextDone(i, _) => i
      case ArgsDelta(i, _, _) => i
      case _ => 0;
    WatchedWitnesses(log, i);
    WatchedTexts(log, i);
  }

  lemma LegalIsFresh(log: seq<Event>, b: Body)
    requires Legal(Watch(log), b)
    ensures Fresh(log, b)
  {
    if SlotOf(b) != Repeatable {
      LegalMeansUnused(Watch(log), b);
      forall x | x in Seen(log) ensures SlotOf(x) != SlotOf(b) {
        SeenIsUsed(log, x);
      }
    }
  }

  /** A log the running check accepts is in order. */
  lemma {:induction false} AcceptedIsInOrder(log: seq<Event>)
    requires Watch(log).ok
    ensures InOrder(log)
  {
    if log != [] {
      var n := |log| - 1;
      AcceptedIsInOrder(log[..n]);
      WatchedTexts(log[..n], 0);
      LegalIsFresh(log[..n], log[n].body);
      LegalIsGrounded(log[..n], log[n].body);
      forall p | 0 <= p < |log|
        ensures log[p].number == p + 1 && Fresh(log[..p], log[p].body) && Grounded(log[..p], log[p].body)
      {
        if p < n {
          assert log[..n][..p] == log[..p] && log[..n][p] == log[p];
        }
      }
    }
  }

  lemma {:induction false} SeenAt(log: seq<Event>, p: nat)
    requires p < |log|
    ensures log[p].body in Seen(log)
  {
    var n := |log| - 1;
    if p < n {
      assert log[..n][p] == log[p];
      SeenAt(log[..n], p);
    }
  }

  lemma {:induction false} SeenWhere(log: seq<Event>, b: Body) returns (p: nat)
    requires b in Seen(log)
    ensures p < |log| && log[p].body == b
  {
    p := |log| - 1;
    if log[p].body != b {
      p := SeenWhere(log[..|log| - 1], b);
    }
  }

  /** In an ordered log an event that may happen once is at one place only. */
  lemma OnceMeansOnce(log: seq<Event>, p: nat, q: nat)
    requires InOrder(log) && p < q < |log| && SlotOf(log[p].body) != Repeatable
    ensures SlotOf(log[p].body) != SlotOf(log[q].body)
  {
    assert Fresh(log[..q], log[q].body);
    assert log[..q][p] == log[p];
    SeenAt(log[..q], p);
  }
}
