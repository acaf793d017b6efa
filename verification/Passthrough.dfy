/** The same-format relay of a Responses stream and its termination guarantee. */
module Passthrough {

  /** What classification says of one upstream line. */
  datatype Line =
    | NotData                                  // event:, comments, blank lines
    | Sentinel                                 // data: [DONE]
    | Unparsable                               // not JSON, or JSON null
    | Scalar                                   // valid JSON that is not an object
    | Chunk(iterable: bool, terminal: bool, valuable: bool)

  /** What is written downstream. */
  datatype Frame = Forwarded(line: Line) | FailedFrame | Done

  datatype State = State(terminalSeen: bool, doneSent: bool, finalized: bool, out: seq<Frame>)

  const Fresh := State(false, false, false, [])

  function Write(s: State, f: Frame): State { s.(out := s.out + [f]) }

  /** The failed-stream synthesis, then the sentinel unless one was already sent. */
  function EmitDone(s: State): State {
    var s1 := if s.terminalSeen then s else Write(s, FailedFrame).(terminalSeen := true);
    if s1.doneSent then s1 else Write(s1, Done).(doneSent := true)
  }

  function OnLine(s: State, l: Line): State {
    match l
    case NotData => Write(s, Forwarded(l))
    case Sentinel => EmitDone(s)
    case Unparsable => s
    case Scalar => Write(s, Forwarded(l))
    case Chunk(iterable, terminal, valuable) =>
      if !iterable then s
      else
        var s1 := s.(terminalSeen := s.terminalSeen || terminal);
        if !valuable then s1
        else Write(s1, Forwarded(l)).(finalized := s.finalized || terminal)
  }

  /** The unterminated last segment: only a sentinel is recognised, everything else is forwarded raw. */
  function OnTail(s: State, l: Line): State {
    if l == Sentinel then EmitDone(s) else Write(s, Forwarded(l))
  }

  function OnFlush(s: State): State { EmitDone(s).(finalized := true) }

  class Relay {
    var terminalSeen: bool
    var doneSent: bool
    var finalized: bool
    var out: seq<Frame>

    constructor ()
      ensures View() == Fresh
    {
      terminalSeen, doneSent, finalized, out := false, false, false, [];
    }

    ghost function View(): State reads this { State(terminalSeen, doneSent, finalized, out) }

    method EmitResponsesDone()
      modifies this
      ensures View() == EmitDone(old(View()))
    {
      if !terminalSeen {
        out := out + [FailedFrame];
        terminalSeen := true;
      }
      if doneSent {
        return;
      }
      out := out + [Done];
      doneSent := true;
    }

    method ProcessLine(l: Line)
      modifies this
      ensures View() == OnLine(old(View()), l)
    {
      match l {
        case NotData =>
          out := out + [Forwarded(l)];
        case Sentinel =>
          EmitResponsesDone();
        case Unparsable =>
        case Scalar =>
          out := out + [Forwarded(l)];
        case Chunk(iterable, terminal, valuable) =>
          if !iterable {
            return;
          }
          if terminal {
            terminalSeen := true;
          }
          if !valuable {
            return;
          }
          out := out + [Forwarded(l)];
          if terminal {
            finalized := true;
          }
      }
    }

    method ProcessTail(l: Line)
      modifies this
      ensures View() == OnTail(old(View()), l)
    {
      if l == Sentinel {
        EmitResponsesDone();
        return;
      }
      out := out + [Forwarded(l)];
    }

    method Flush()
      modifies this
      ensures View() == OnFlush(old(View()))
    {
      if !terminalSeen {
        out := out + [FailedFrame];
        terminalSeen := true;
      }
      if !doneSent {
        out := out + [Done];
        doneSent := true;
      }
      finalized := true;
    }
  }

  // ---- whole streams ----

  ghost function After(lines: seq<Line>, n: nat): State
    requires n <= |lines|
  {
    if n == 0 then Fresh else OnLine(After(lines, n - 1), lines[n - 1])
  }

  /** A whole stream: its lines, perhaps an unterminated tail, and the final flush. */
  ghost function Stream(lines: seq<Line>, tail: seq<Line>): State
    requires |tail| <= 1
  {
    var s := After(lines, |lines|);
    OnFlush(if tail == [] then s else OnTail(s, tail[0]))
  }

  ghost function CountOf(out: seq<Frame>, f: Frame): nat { multiset(out)[f] }

  predicate Terminates(l: Line) { l.Chunk? && l.iterable && l.terminal }

  ghost predicate FailedBeforeDone(out: seq<Frame>) {
    forall i, j | 0 <= i < |out| && 0 <= j < |out| && out[i] == FailedFrame && out[j] == Done :: i < j
  }

  /** How the frames relate to the flags at any moment. */
  ghost predicate Consistent(s: State) {
    && CountOf(s.out, Done) == (if s.doneSent then 1 else 0)
    && CountOf(s.out, FailedFrame) <= 1
    && (CountOf(s.out, FailedFrame) == 1 ==> s.terminalSeen && s.doneSent)
    && (s.doneSent ==> s.terminalSeen)
    && FailedBeforeDone(s.out)
  }

  lemma Wrote(out: seq<Frame>, f: Frame, g: Frame)
    ensures CountOf(out + [f], g) == CountOf(out, g) + if f == g then 1 else 0
  {
  }

  lemma NotWritten(out: seq<Frame>, f: Frame)
    requires CountOf(out, f) == 0
    ensures f !in out
  {
    assert f !in multiset(out);
  }

  lemma EmitConsistent(s: State)
    requires Consistent(s)
    ensures Consistent(EmitDone(s)) && EmitDone(s).doneSent
    ensures CountOf(EmitDone(s).out, FailedFrame) == CountOf(s.out, FailedFrame) + if s.terminalSeen then 0 else 1
  {
    Wrote(s.out, FailedFrame, FailedFrame);
    Wrote(s.out, FailedFrame, Done);
    var s1 := if s.terminalSeen then s else Write(s, FailedFrame).(terminalSeen := true);
    Wrote(s1.out, Done, Done);
    Wrote(s1.out, Done, FailedFrame);
    if !s.doneSent {
      NotWritten(s.out, Done);
      NotWritten(s1.out, Done);
    }
  }

  lemma LineConsistent(s: State, l: Line)
    requires Consistent(s)
    ensures Consistent(OnLine(s, l))
    ensures l != Sentinel ==> CountOf(OnLine(s, l).out, FailedFrame) == CountOf(s.out, FailedFrame)
    ensures l != Sentinel ==> OnLine(s, l).doneSent == s.doneSent
  {
    if l == Sentinel {
      EmitConsistent(s);
    } else {
      Wrote(s.out, Forwarded(l), FailedFrame);
      Wrote(s.out, Forwarded(l), Done);
    }
  }

  ghost predicate SentinelSeen(lines: seq<Line>, n: nat)
    requires n <= |lines|
  {
    exists i | 0 <= i < n :: lines[i] == Sentinel
  }

  /** A terminal chunk was classified among the first n lines with no sentinel line before it. */
  ghost predicate TerminalBy(lines: seq<Line>, n: nat)
    requires n <= |lines|
  {
    exists i | 0 <= i < n :: Terminates(lines[i]) && !SentinelSeen(lines, i)
  }

  /** The flags and the failed frame agree with the first n lines. */
  ghost predicate Tracks(s: State, lines: seq<Line>, n: nat)
    requires n <= |lines|
  {
    && (s.doneSent <==> SentinelSeen(lines, n))
    && (s.terminalSeen <==> s.doneSent || TerminalBy(lines, n))
    && (CountOf(s.out, FailedFrame) == 1 <==> s.doneSent && !TerminalBy(lines, n))
  }

  lemma LineFlags(s: State, l: Line)
    requires Consistent(s)
    ensures var t := OnLine(s, l);
            && t.doneSent == (s.doneSent || l == Sentinel)
            && t.terminalSeen == (s.terminalSeen || l == Sentinel || Terminates(l))
            && CountOf(t.out, FailedFrame) ==
               CountOf(s.out, FailedFrame) + if l == Sentinel && !s.terminalSeen then 1 else 0
  {
    if l == Sentinel {
      EmitConsistent(s);
    } else {
      Wrote(s.out, Forwarded(l), FailedFrame);
    }
  }

  lemma TracksStep(s: State, t: State, lines: seq<Line>, n: nat)
    requires 0 < n <= |lines| && Consistent(s) && Tracks(s, lines, n - 1)
    requires t.doneSent == (s.doneSent || lines[n - 1] == Sentinel)
    requires t.terminalSeen == (s.terminalSeen || lines[n - 1] == Sentinel || Terminates(lines[n - 1]))
    requires CountOf(t.out, FailedFrame) ==
             CountOf(s.out, FailedFrame) + if lines[n - 1] == Sentinel && !s.terminalSeen then 1 else 0
    ensures Tracks(t, lines, n)
  {
    var l := lines[n - 1];
    assert SentinelSeen(lines, n) <==> SentinelSeen(lines, n - 1) || l == Sentinel;
    assert TerminalBy(lines, n) <==> TerminalBy(lines, n - 1) || (Terminates(l) && !SentinelSeen(lines, n - 1));
  }

  lemma {:induction false} AfterLines(lines: seq<Line>, n: nat)
    requires n <= |lines|
    ensures Consistent(After(lines, n)) && Tracks(After(lines, n), lines, n)
  {
    if n > 0 {
      AfterLines(lines, n - 1);
      LineTracks(After(lines, n - 1), lines, n);
    }
  }

  lemma LineTracks(s: State, lines: seq<Line>, n: nat)
    requires 0 < n <= |lines| && Consistent(s) && Tracks(s, lines, n - 1)
    ensures var t := OnLine(s, lines[n - 1]); Consistent(t) && Tracks(t, lines, n)
  {
    LineConsistent(s, lines[n - 1]);
    LineFlags(s, lines[n - 1]);
    TracksStep(s, OnLine(s, lines[n - 1]), lines, n);
  }

  /**
   * Termination: every stream, whatever its lines and tail, ends with exactly one sentinel written; the failed
   * frame is written at most once, before the sentinel, exactly when no terminal chunk was classified before the
   * first sentinel or the flush.
   */
  lemma StreamTerminates(lines: seq<Line>, tail: seq<Line>)
    requires |tail| <= 1
    ensures var out := Stream(lines, tail).out;
            && CountOf(out, Done) == 1
            && CountOf(out, FailedFrame) == (if TerminalBy(lines, |lines|) then 0 else 1)
            && FailedBeforeDone(out)
  {
    AfterLines(lines, |lines|);
    var s := After(lines, |lines|);
    if tail != [] {
      TailConsistent(s, tail[0]);
    }
    EmitConsistent(if tail == [] then s else OnTail(s, tail[0]));
  }

  lemma TailConsistent(s: State, l: Line)
    requires Consistent(s)
    ensures var t := OnTail(s, l);
            && Consistent(t) && t.terminalSeen == (s.terminalSeen || l == Sentinel)
            && CountOf(t.out, FailedFrame)
               == CountOf(s.out, FailedFrame) + if l == Sentinel && !s.terminalSeen then 1 else 0
  {
    if l == Sentinel {
      EmitConsistent(s);
    } else {
      Wrote(s.out, Forwarded(l), FailedFrame);
      Wrote(s.out, Forwarded(l), Done);
    }
  }

  /** A second flush writes nothing. */
  lemma FlushTwice(s: State)
    ensures OnFlush(OnFlush(s)).out == OnFlush(s).out
  {
  }

  // ---- what is written, frame by frame ----

  /** Forwarded as it is: no data at all, a scalar, or a chunk that can be walked and has something to say. */
  ghost predicate Relayed(l: Line) { l.NotData? || l.Scalar? || (l.Chunk? && l.iterable && l.valuable) }

  ghost function Through(lines: seq<Line>, from: nat, to: nat): seq<Frame>
    requires from <= to <= |lines|
  {
    if from == to then []
    else Through(lines, from, to - 1) + if Relayed(lines[to - 1]) then [Forwarded(lines[to - 1])] else []
  }

  /** Where the first sentinel line stands among the first n, or n. */
  ghost function FirstSentinel(lines: seq<Line>, n: nat): (k: nat)
    requires n <= |lines|
    ensures k <= n && (k < n ==> lines[k] == Sentinel) && (k < n <==> SentinelSeen(lines, n))
    ensures forall i | 0 <= i < k :: lines[i] != Sentinel
  {
    if n == 0 then 0
    else if FirstSentinel(lines, n - 1) < n - 1 then FirstSentinel(lines, n - 1)
    else if lines[n - 1] == Sentinel then n - 1
    else n
  }

  /** How the stream is ended: with the failed frame first if no terminal chunk came in time. */
  ghost function Ending(lines: seq<Line>, n: nat): seq<Frame>
    requires n <= |lines|
  {
    if TerminalBy(lines, n) then [Done] else [FailedFrame, Done]
  }

  ghost function FramesBy(lines: seq<Line>, k: nat, n: nat, ending: seq<Frame>): seq<Frame>
    requires k <= n <= |lines|
  {
    Through(lines, 0, k) + ending + Through(lines, k, n)
  }

  ghost predicate Written(s: State, lines: seq<Line>, n: nat)
    requires n <= |lines|
  {
    var k := FirstSentinel(lines, n);
    s.out == FramesBy(lines, k, n, if k < n then Ending(lines, n) else [])
  }

  lemma LineAdds(s: State, l: Line)
    requires l != Sentinel
    ensures OnLine(s, l).out == s.out + if Relayed(l) then [Forwarded(l)] else []
  {
  }

  lemma SentinelAdds(s: State)
    requires s.doneSent ==> s.terminalSeen
    ensures EmitDone(s).out == s.out + if s.doneSent then [] else if s.terminalSeen then [Done] else [FailedFrame, Done]
  {
  }

  lemma FramesNext(lines: seq<Line>, k: nat, n: nat, ending: seq<Frame>)
    requires k < n <= |lines|
    ensures FramesBy(lines, k, n, ending)
         == FramesBy(lines, k, n - 1, ending) + if Relayed(lines[n - 1]) then [Forwarded(lines[n - 1])] else []
  {
  }

  lemma FramesWithout(lines: seq<Line>, n: nat, ending: seq<Frame>)
    requires n <= |lines|
    ensures FramesBy(lines, n, n, ending) == Through(lines, 0, n) + ending
    ensures n > 0 && !Relayed(lines[n - 1]) ==> FramesBy(lines, n - 1, n, ending) == Through(lines, 0, n - 1) + ending
  {
    assert n > 0 && !Relayed(lines[n - 1]) ==> Through(lines, n - 1, n) == [];
  }

  lemma TerminalStays(lines: seq<Line>, n: nat)
    requires 0 < n <= |lines| && (SentinelSeen(lines, n - 1) || lines[n - 1] == Sentinel)
    ensures TerminalBy(lines, n) <==> TerminalBy(lines, n - 1)
  {
  }

  lemma LineWritten(s: State, lines: seq<Line>, n: nat)
    requires 0 < n <= |lines| && Written(s, lines, n - 1)
    requires Flagged(s, lines, n - 1)
    ensures Written(OnLine(s, lines[n - 1]), lines, n)
  {
    var l, k := lines[n - 1], FirstSentinel(lines, n - 1);
    if k < n - 1 {
      AfterFirst(s, lines, n);
    } else if l == Sentinel {
      TerminalStays(lines, n);
      SentinelAdds(s);
      FramesWithout(lines, n - 1, []);
      FramesWithout(lines, n, Ending(lines, n));
    } else {
      LineAdds(s, l);
      FramesWithout(lines, n - 1, []);
      FramesWithout(lines, n, []);
    }
  }

  lemma AfterFirst(s: State, lines: seq<Line>, n: nat)
    requires 0 < n <= |lines| && Written(s, lines, n - 1) && s.doneSent && s.terminalSeen
    requires FirstSentinel(lines, n - 1) < n - 1
    ensures Written(OnLine(s, lines[n - 1]), lines, n)
  {
    var l, k := lines[n - 1], FirstSentinel(lines, n - 1);
    TerminalStays(lines, n);
    FramesNext(lines, k, n, Ending(lines, n));
    if l == Sentinel {
      SentinelAdds(s);
    } else {
      LineAdds(s, l);
    }
  }

  ghost predicate Flagged(s: State, lines: seq<Line>, n: nat)
    requires n <= |lines|
  {
    (s.doneSent <==> FirstSentinel(lines, n) < n) && (s.terminalSeen <==> s.doneSent || TerminalBy(lines, n))
  }

  lemma FlagsAfter(lines: seq<Line>, n: nat)
    requires n <= |lines|
    ensures Flagged(After(lines, n), lines, n)
  {
    AfterLines(lines, n);
  }

  lemma {:induction false} LinesWritten(lines: seq<Line>, n: nat)
    requires n <= |lines|
    ensures Written(After(lines, n), lines, n)
  {
    if n > 0 {
      LinesWritten(lines, n - 1);
      FlagsAfter(lines, n - 1);
      LineWritten(After(lines, n - 1), lines, n);
    }
  }

  ghost function TailFrames(tail: seq<Line>): seq<Frame>
    requires |tail| <= 1
  {
    if tail == [] || tail[0] == Sentinel then [] else [Forwarded(tail[0])]
  }

  lemma StreamEnds(s: State, tail: seq<Line>)
    requires |tail| <= 1 && (s.doneSent ==> s.terminalSeen)
    ensures OnFlush(if tail == [] then s else OnTail(s, tail[0])).out ==
            s.out + TailFrames(tail)
            + if s.doneSent then [] else if s.terminalSeen then [Done] else [FailedFrame, Done]
  {
    SentinelAdds(s);
    if tail != [] {
      SentinelAdds(OnTail(s, tail[0]));
    }
  }

  lemma EndsAfterSentinel(s: State, tail: seq<Line>)
    requires |tail| <= 1 && s.doneSent && s.terminalSeen
    ensures OnFlush(if tail == [] then s else OnTail(s, tail[0])).out == s.out + TailFrames(tail)
  {
    StreamEnds(s, tail);
  }

  lemma EndsWithout(s: State, tail: seq<Line>, ending: seq<Frame>)
    requires |tail| <= 1 && !s.doneSent && ending == if s.terminalSeen then [Done] else [FailedFrame, Done]
    ensures OnFlush(if tail == [] then s else OnTail(s, tail[0])).out == s.out + TailFrames(tail) + ending
  {
    StreamEnds(s, tail);
  }

  /**
   * Every stream, frame by frame: the relayed lines in order, then an unterminated tail unless it is a sentinel, and
   * one ending, in front of whatever follows the first sentinel line, or last of all if no line is one.
   */
  lemma StreamIs(lines: seq<Line>, tail: seq<Line>)
    requires |tail| <= 1
    ensures var n, k := |lines|, FirstSentinel(lines, |lines|);
            Stream(lines, tail).out ==
            if k < n then FramesBy(lines, k, n, Ending(lines, n)) + TailFrames(tail)
            else Through(lines, 0, n) + TailFrames(tail) + Ending(lines, n)
  {
    var n := |lines|;
    var s := After(lines, n);
    LinesWritten(lines, n);
    FlagsAfter(lines, n);
    if FirstSentinel(lines, n) < n {
      EndsAfterSentinel(s, tail);
    } else {
      FramesWithout(lines, n, []);
      EndsWithout(s, tail, Ending(lines, n));
    }
  }

  /** The flag that a stream ended by itself is set by a forwarded terminal chunk, and by nothing else but the flush. */
  lemma {:induction false} FinalizedIff(lines: seq<Line>, n: nat)
    requires n <= |lines|
    ensures After(lines, n).finalized <==> exists i | 0 <= i < n :: Terminates(lines[i]) && Relayed(lines[i])
  {
    if n > 0 {
      FinalizedIff(lines, n - 1);
    }
  }
}
