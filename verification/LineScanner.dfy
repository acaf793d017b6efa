/** Incremental splitting of a streamed body into lines, whatever the read boundaries. */
module LineScanner {

  type Bytes = seq<char>

  const NL := '\n'

  /** How a body ends: cleanly, or with a read error. */
  datatype End = Eof | ReadError

  /** Everything the consumer gets to see. */
  datatype Delivery = Delivery(lines: seq<Bytes>, tail: Bytes, failed: bool)

  /** Position of the first newline among the first n bytes, or n. */
  function IndexTo(s: Bytes, n: nat): (i: nat)
    requires n <= |s|
    ensures i <= n && (forall k | 0 <= k < i :: s[k] != NL) && (i < n ==> s[i] == NL)
  {
    if n == 0 then 0
    else
      var i := IndexTo(s, n - 1);
      if i < n - 1 || s[n - 1] == NL then i else n
  }

  /** Position of the first newline, or the length. */
  function IndexOf(s: Bytes): (i: nat)
    ensures i <= |s| && (forall k | 0 <= k < i :: s[k] != NL) && (i < |s| ==> s[i] == NL)
  {
    IndexTo(s, |s|)
  }

  lemma IndexIs(s: Bytes, i: nat)
    requires i <= |s| && (forall k | 0 <= k < i :: s[k] != NL) && (i < |s| ==> s[i] == NL)
    ensures IndexOf(s) == i
  {
    var j := IndexOf(s);
  }

  /** The complete lines of a whole body, without their newlines. */
  function Lines(s: Bytes): seq<Bytes>
    decreases |s|
  {
    var i := IndexOf(s);
    if i == |s| then [] else [s[..i]] + Lines(s[i + 1..])
  }

  /** What follows the last newline. */
  function Rest(s: Bytes): Bytes
    decreases |s|
  {
    var i := IndexOf(s);
    if i == |s| then s else Rest(s[i + 1..])
  }

  function Join(lines: seq<Bytes>): Bytes {
    if lines == [] then [] else Join(lines[..|lines| - 1]) + lines[|lines| - 1] + [NL]
  }

  function Concat(pieces: seq<Bytes>): Bytes {
    if pieces == [] then [] else Concat(pieces[..|pieces| - 1]) + pieces[|pieces| - 1]
  }

  /** Trailing newlines removed, as the consumer does to each line it receives. */
  function TrimRight(s: Bytes): Bytes {
    if s != [] && s[|s| - 1] == NL then TrimRight(s[..|s| - 1]) else s
  }

  lemma TrimOne(s: Bytes)
    requires NL !in s
    ensures TrimRight(s + [NL]) == s
  {
    assert (s + [NL])[..|s|] == s;
  }

  /** Delivers every complete line of the pending segment. */
  method Drain(before: seq<Bytes>, whole: Bytes) returns (lines: seq<Bytes>, pending: Bytes)
    ensures lines == before + Lines(whole) && pending == Rest(whole)
  {
    lines, pending := before, whole;
    while true
      invariant lines + Lines(pending) == before + Lines(whole)
      invariant Rest(pending) == Rest(whole)
      decreases |pending|
    {
      var i := IndexOf(pending);
      if i == |pending| {
        break;
      }
      DrainStep(lines, pending, i);
      lines := lines + [TrimRight(pending[..i + 1])];
      pending := pending[i + 1..];
    }
  }

  lemma TrimLine(s: Bytes, i: nat)
    requires i < |s| && s[i] == NL && forall k | 0 <= k < i :: s[k] != NL
    ensures TrimRight(s[..i + 1]) == s[..i]
  {
    assert s[..i + 1] == s[..i] + [NL];
    TrimOne(s[..i]);
  }

  lemma DrainStep(lines: seq<Bytes>, pending: Bytes, i: nat)
    requires i == IndexOf(pending) < |pending|
    ensures TrimRight(pending[..i + 1]) == pending[..i]
    ensures lines + Lines(pending) == (lines + [pending[..i]]) + Lines(pending[i + 1..])
    ensures Rest(pending) == Rest(pending[i + 1..])
  {
    TrimLine(pending, i);
    LinesAt(pending, i);
    Regroup(lines, [pending[..i]], Lines(pending[i + 1..]));
  }

  /**
   * The reader: appends each read to the pending segment and delivers every complete line in it; at a clean end
   * the non-empty rest goes to the tail, after an error it is dropped.
   */
  method ScanLines(pieces: seq<Bytes>, end: End) returns (d: Delivery)
    ensures d.lines == Lines(Concat(pieces))
    ensures d.tail == if end == Eof then Rest(Concat(pieces)) else []
    ensures d.failed <==> end == ReadError
  {
    var pending: Bytes := [];
    var lines: seq<Bytes> := [];
    for k := 0 to |pieces|
      invariant lines == Lines(Concat(pieces[..k]))
      invariant pending == Rest(Concat(pieces[..k]))
    {
      assert pieces[..k + 1][..k] == pieces[..k];
      Extend(Concat(pieces[..k]), pieces[k]);
      lines, pending := Drain(lines, pending + pieces[k]);
    }
    assert pieces[..|pieces|] == pieces;
    if end == ReadError {
      return Delivery(lines, [], true);
    }
    return Delivery(lines, pending, false);
  }

  lemma LinesAt(s: Bytes, i: nat)
    requires i == IndexOf(s) < |s|
    ensures Lines(s) == [s[..i]] + Lines(s[i + 1..]) && Rest(s) == Rest(s[i + 1..])
  {
  }

  /** What resuming gives, once the first line is off. */
  lemma ExtendLine(s: Bytes, t: Bytes, i: nat)
    requires i == IndexOf(s) < |s|
    requires var after := s[i + 1..];
             Lines(after + t) == Lines(after) + Lines(Rest(after) + t) && Rest(after + t) == Rest(Rest(after) + t)
    ensures Lines(s + t) == Lines(s) + Lines(Rest(s) + t) && Rest(s + t) == Rest(Rest(s) + t)
  {
    var after := s[i + 1..];
    FirstNewline(s, t);
    SliceConcat(s, t, i);
    LinesAt(s, i);
    LinesAt(s + t, i);
    Regroup([s[..i]], Lines(after), Lines(Rest(after) + t));
  }

  /** Splitting may stop at any point and resume from the unfinished segment. */
  lemma {:induction false} Extend(s: Bytes, t: Bytes)
    ensures Lines(s + t) == Lines(s) + Lines(Rest(s) + t)
    ensures Rest(s + t) == Rest(Rest(s) + t)
    decreases |s|
  {
    var i := IndexOf(s);
    if i < |s| {
      Extend(s[i + 1..], t);
      ExtendLine(s, t, i);
    } else {
      assert [] + Lines(s + t) == Lines(s + t);
    }
  }

  lemma SliceConcat(s: Bytes, t: Bytes, i: nat)
    requires i < |s|
    ensures (s + t)[..i] == s[..i] && (s + t)[i + 1..] == s[i + 1..] + t
  {
  }

  lemma FirstNewline(s: Bytes, t: Bytes)
    requires IndexOf(s) < |s|
    ensures IndexOf(s + t) == IndexOf(s)
  {
    IndexIs(s + t, IndexOf(s));
  }

  /** Splitting loses nothing: rejoining the lines and the rest gives the body back. */
  lemma {:induction false} Rejoin(s: Bytes)
    ensures Join(Lines(s)) + Rest(s) == s
    decreases |s|
  {
    var i := IndexOf(s);
    if i < |s| {
      var t := s[i + 1..];
      Rejoin(t);
      JoinCons(s[..i], Lines(t));
      Regroup(s[..i] + [NL], Join(Lines(t)), Rest(t));
      Cut(s, i);
    }
  }

  lemma Regroup<T>(a: seq<T>, b: seq<T>, c: seq<T>)
    ensures (a + b) + c == a + (b + c)
  {
  }

  lemma Cut(s: Bytes, i: nat)
    requires i < |s| && s[i] == NL
    ensures (s[..i] + [NL]) + s[i + 1..] == s
  {
  }

  /** No delivered line and no rest holds a newline. */
  lemma {:induction false} NoNewlineInside(s: Bytes)
    ensures forall k | 0 <= k < |Lines(s)| :: NL !in Lines(s)[k]
    ensures NL !in Rest(s)
    decreases |s|
  {
    var i := IndexOf(s);
    if i < |s| {
      NoNewlineInside(s[i + 1..]);
    }
  }

  lemma {:induction false} JoinCons(line: Bytes, lines: seq<Bytes>)
    ensures Join([line] + lines) == line + [NL] + Join(lines)
  {
    var all := [line] + lines;
    if lines == [] {
      assert all[..0] == [];
    } else {
      var n := |lines| - 1;
      assert all[..|all| - 1] == [line] + lines[..n];
      JoinCons(line, lines[..n]);
    }
  }

  /** The split of a body is the only one into newline-free lines and a newline-free rest. */
  lemma {:induction false} SplitIsUnique(lines: seq<Bytes>, rest: Bytes)
    requires (forall k | 0 <= k < |lines| :: NL !in lines[k]) && NL !in rest
    ensures Lines(Join(lines) + rest) == lines && Rest(Join(lines) + rest) == rest
    decreases |lines|
  {
    if lines == [] {
      assert Join(lines) + rest == rest;
      IndexIs(rest, |rest|);
    } else {
      var head, tail := lines[0], lines[1..];
      assert lines == [head] + tail;
      JoinCons(head, tail);
      var s := Join(lines) + rest;
      var after := Join(tail) + rest;
      assert s == (head + [NL]) + after;
      IndexAfter(head, after);
      assert s[..|head|] == head && s[|head| + 1..] == after;
      SplitIsUnique(tail, rest);
    }
  }

  lemma IndexAfter(head: Bytes, after: Bytes)
    requires NL !in head
    ensures IndexOf((head + [NL]) + after) == |head|
  {
    IndexIs((head + [NL]) + after, |head|);
  }
}
