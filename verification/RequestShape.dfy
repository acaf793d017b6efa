/** Which messages a list of items becomes, and which items one message becomes, one by one. */
module RequestShape {
  import opened Config
  import opened RequestTranslation

  // ---- texts, read from the front ----

  ghost predicate White(c: char) { c in {' ', '\t', '\n', 11 as char, 12 as char, '\r'} }

  ghost predicate Blank(s: string) { forall i | 0 <= i < |s| :: White(s[i]) }

  lemma {:induction false} TrimLeftIs(s: string) returns (a: nat)
    ensures a <= |s| && TrimLeft(s) == s[a..] && Blank(s[..a]) && (a < |s| ==> !White(s[a]))
  {
    if s != "" && IsSpace(s[0]) {
      var b := TrimLeftIs(s[1..]);
      a := b + 1;
      assert s[a..] == s[1..][b..];
      forall i | 0 <= i < a ensures White(s[..a][i]) {
        assert i > 0 ==> s[..a][i] == s[1..][..b][i - 1];
      }
    } else {
      a := 0;
      assert s[0..] == s;
    }
  }

  lemma {:induction false} TrimRightIs(s: string) returns (b: nat)
    ensures b <= |s| && TrimRight(s) == s[..b] && Blank(s[b..]) && (b > 0 ==> !White(s[b - 1]))
  {
    if s != "" && IsSpace(s[|s| - 1]) {
      var n := |s| - 1;
      b := TrimRightIs(s[..n]);
      assert s[..n][..b] == s[..b];
      forall i | 0 <= i < |s| - b ensures White(s[b..][i]) {
        assert b + i < n ==> s[b..][i] == s[..n][b..][i];
      }
    } else {
      b := |s|;
      assert s[..b] == s;
    }
  }

  /** Trimming cuts off the spaces at both ends and nothing else. */
  lemma TrimIs(s: string) returns (a: nat, b: nat)
    ensures a <= b <= |s| && Trim(s) == s[a..b] && Blank(s[..a]) && Blank(s[b..])
    ensures a < b ==> !White(s[a]) && !White(s[b - 1])
  {
    a := TrimLeftIs(s);
    var c := TrimRightIs(s[a..]);
    b := a + c;
    assert s[a..][..c] == s[a..b] && s[a..][c..] == s[b..];
  }

  lemma BlankIff(s: string)
    ensures Trim(s) == "" <==> Blank(s)
  {
    var a, b := TrimIs(s);
    if a == b {
      forall i | 0 <= i < |s| ensures White(s[i]) {
        assert i < a ==> s[i] == s[..a][i];
        assert i >= b ==> s[i] == s[b..][i - b];
      }
    }
  }

  /** An id is cut to 64 characters, and made up if there is none; a name is trimmed and cut to 128. */
  lemma NamesAre(env: Env, id: string, name: string, minted: nat)
    ensures ClampId(env, id, minted) ==
            if id == "" then env.mint(minted) else if |id| > 64 then id[..64] else id
    ensures Clip(Trim(name), MAX_NAME) == if |Trim(name)| > 128 then Trim(name)[..128] else Trim(name)
  {
  }

  ghost function Lines(xs: seq<string>): string {
    if xs == [] then "" else if |xs| == 1 then xs[0] else xs[0] + "\n" + Lines(xs[1..])
  }

  ghost predicate NoneBlank(xs: seq<string>) { forall i | 0 <= i < |xs| :: xs[i] != "" }

  lemma {:induction false} LinesSnoc(xs: seq<string>, y: string)
    ensures Lines(xs + [y]) == if xs == [] then y else Lines(xs) + "\n" + y
  {
    if |xs| > 1 {
      LinesSnoc(xs[1..], y);
      assert (xs + [y])[1..] == xs[1..] + [y];
    } else if |xs| == 1 {
      assert (xs + [y])[1..] == [y];
    }
  }

  lemma LinesBlank(xs: seq<string>)
    requires NoneBlank(xs)
    ensures Lines(xs) == "" <==> xs == []
  {
  }

  ghost function TextsUpTo(bs: seq<Block>, n: nat): (xs: seq<string>)
    requires n <= |bs|
    ensures NoneBlank(xs)
  {
    if n == 0 then []
    else TextsUpTo(bs, n - 1) + if bs[n - 1].Text? && bs[n - 1].text != "" then [bs[n - 1].text] else []
  }

  /** One more text, on a line of its own unless it is blank. */
  lemma LinesNext(xs: seq<string>, text: string)
    requires NoneBlank(xs)
    ensures Lines(xs + if text == "" then [] else [text]) ==
            if text == "" then Lines(xs) else if Lines(xs) == "" then text else Lines(xs) + "\n" + text
  {
    if text == "" {
      assert xs + [] == xs;
    } else {
      LinesSnoc(xs, text);
      LinesBlank(xs);
    }
  }

  /** Instructions are the texts of the blocks that have one, each on a line of its own. */
  lemma {:induction false} InstructionsAreLines(bs: seq<Block>, n: nat)
    requires n <= |bs|
    ensures JoinLines(bs, n) == Lines(TextsUpTo(bs, n))
    decreases n
  {
    if n > 0 {
      InstructionsAreLines(bs, n - 1);
      LinesNext(TextsUpTo(bs, n - 1), if bs[n - 1].Text? then bs[n - 1].text else "");
    }
  }

  ghost function OutputOf(env: Env, bs: seq<Block>): string {
    if bs == [] then "" else (if bs[0].Text? then bs[0].text else env.json(bs[0])) + OutputOf(env, bs[1..])
  }

  lemma {:induction false} OutputSnoc(env: Env, bs: seq<Block>, b: Block)
    ensures OutputOf(env, bs + [b]) == OutputOf(env, bs) + if b.Text? then b.text else env.json(b)
  {
    if bs == [] {
      assert bs + [b] == [b];
      assert OutputOf(env, []) == "";
    } else {
      assert (bs + [b])[1..] == bs[1..] + [b];
      OutputSnoc(env, bs[1..], b);
    }
  }

  /** A result in blocks is their texts, and the JSON of the others, one after the other. */
  lemma {:induction false} OutputIsJoined(env: Env, bs: seq<Block>, n: nat)
    requires n <= |bs|
    ensures JoinBlocks(env, bs, n) == OutputOf(env, bs[..n])
  {
    if n > 0 {
      OutputIsJoined(env, bs, n - 1);
      OutputSnoc(env, bs[..n - 1], bs[n - 1]);
      assert bs[..n] == bs[..n - 1] + [bs[n - 1]];
    }
  }

  // ---- a plain input ----

  /** A plain text is one user message, a blank one the placeholder; no input at all is passed on untranslated. */
  lemma PlainSays(t: string, instructions: string)
    ensures Back(Missing, instructions) == None
    ensures Back(Plain(t), instructions) ==
            if t == "" then None
            else
              var said := [Text(if Blank(t) then "..." else t)];
              Some(Heading(instructions) + [Message(User, Blocks(said), "", "", [], "")])
  {
    BlankIff(t);
    OneItemBack(Normalized(Plain(t)), if Blank(t) then "..." else t, instructions);
  }

  lemma OneItemBack(items: seq<Item>, t: string, instructions: string)
    requires items == [MessageItem(User, [TextPart(false, t)])]
    ensures FlushShell(BackTo(Heading(instructions), items, |items|)).out ==
            Heading(instructions) + [Message(User, Blocks([Text(t)]), "", "", [], "")]
  {
    var start, parts := Heading(instructions), items[0].parts;
    assert BlocksOf(parts, 1) == BlocksOf(parts, 0) + [BlockOf(parts[0])] == [Text(t)];
    assert BackTo(start, items, 1) == BackStep(BackTo(start, items, 0), items[0]);
  }

  // ---- which messages a list of items becomes ----

  /** An item that ends an assistant message still collecting calls. */
  ghost predicate Boundary(item: Item) { item.MessageItem? || item.FunctionOutput? }

  /** The call that opened the message still collecting calls after the first n items. */
  ghost function OpenedAt(items: seq<Item>, n: nat): (k: Option<nat>)
    requires n <= |items|
    ensures k.Some? ==> k.value < n && items[k.value].FunctionCall?
  {
    if n == 0 || Boundary(items[n - 1]) then None
    else if items[n - 1].FunctionCall? && OpenedAt(items, n - 1).None? then Some(n - 1)
    else OpenedAt(items, n - 1)
  }

  ghost predicate Opens(items: seq<Item>, k: nat)
    requires k < |items|
  {
    items[k].FunctionCall? && OpenedAt(items, k).None?
  }

  /** Up to where earlier reasoning is used up: a message uses it up, and so does a call that opens one. */
  ghost function UsedUp(items: seq<Item>, n: nat): (k: nat)
    requires n <= |items|
    ensures k <= n
  {
    if n == 0 then 0 else if items[n - 1].MessageItem? || Opens(items, n - 1) then n else UsedUp(items, n - 1)
  }

  ghost function Summaries(items: seq<Item>, from: nat, to: nat): (xs: seq<string>)
    requires from <= to <= |items|
    ensures NoneBlank(xs)
  {
    if from == to then []
    else
      var item := items[to - 1];
      Summaries(items, from, to - 1) + if item.Reasoning? && item.summary != "" then [item.summary] else []
  }

  ghost function LastSecret(items: seq<Item>, from: nat, to: nat): string
    requires from <= to <= |items|
  {
    if from == to then ""
    else
      var item := items[to - 1];
      if item.Reasoning? && item.encrypted != "" then item.encrypted else LastSecret(items, from, to - 1)
  }

  ghost function ThoughtBefore(items: seq<Item>, n: nat): string
    requires n <= |items|
  {
    Lines(Summaries(items, UsedUp(items, n), n))
  }

  ghost function SecretBefore(items: seq<Item>, n: nat): string
    requires n <= |items|
  {
    LastSecret(items, UsedUp(items, n), n)
  }

  /** The named calls among some items. */
  ghost function CallsIn(items: seq<Item>, from: nat, to: nat): seq<Call>
    requires from <= to <= |items|
  {
    if from == to then []
    else
      var item := items[to - 1];
      CallsIn(items, from, to - 1) +
      if item.FunctionCall? && !Blank(item.name)
      then [Call(item.callId, item.name, if item.args.Some? then item.args.value else "{}")] else []
  }

  /** The first boundary from k on, among the first n items, or n. */
  ghost function EndOf(items: seq<Item>, k: nat, n: nat): (e: nat)
    requires k <= n <= |items|
    ensures k <= e <= n && (e < n ==> Boundary(items[e]))
  {
    if k == n then n
    else if EndOf(items, k, n - 1) < n - 1 then EndOf(items, k, n - 1)
    else if Boundary(items[n - 1]) then n - 1
    else n
  }

  ghost function BlockBack(p: Part): Block {
    if p.TextPart? then Text(p.text) else Image(p.url, if p.detail == "" then "auto" else p.detail)
  }

  ghost function BlocksBack(parts: seq<Part>, n: nat): seq<Block>
    requires n <= |parts|
  {
    seq(n, i requires 0 <= i < n => BlockBack(parts[i]))
  }

  /** What the k-th item becomes, seeing the first n: a message, a result, or the calls up to the next boundary. */
  ghost function Made(items: seq<Item>, k: nat, n: nat): seq<Message>
    requires k < n <= |items|
  {
    match items[k]
    case MessageItem(role, parts) =>
      var mine := role == Assistant;
      [Message(role, Blocks(BlocksBack(parts, |parts|)), if mine then ThoughtBefore(items, k) else "",
               if mine then SecretBefore(items, k) else "", [], "")]
    case FunctionCall(_, _, _) => if Opens(items, k) then [ShellAt(items, k, EndOf(items, k, n))] else []
    case FunctionOutput(id, output) =>
      [Message(Tool, if output.Some? then Whole(output.value) else Absent, "", "", [], id)]
    case _ => []
  }

  ghost function ShellAt(items: seq<Item>, k: nat, e: nat): Message
    requires k <= e <= |items|
  {
    Message(Assistant, Absent, ThoughtBefore(items, k), SecretBefore(items, k), CallsIn(items, k, e), "")
  }

  ghost function MadeOf(items: seq<Item>, m: nat, n: nat): seq<Message>
    requires m <= n <= |items|
  {
    if m == 0 then [] else MadeOf(items, m - 1, n) + Made(items, m - 1, n)
  }

  // ---- one item more ----

  /** A message that no longer collects calls has a boundary behind it. */
  lemma {:induction false} ClosedHasEnd(items: seq<Item>, k: nat, n: nat)
    requires k < n <= |items| && Opens(items, k)
    ensures OpenedAt(items, n) == Some(k) ==> EndOf(items, k, n) == n
    ensures OpenedAt(items, n) != Some(k) ==> EndOf(items, k, n) < n
    decreases n
  {
    if k < n - 1 {
      ClosedHasEnd(items, k, n - 1);
    } else {
      assert EndOf(items, k, k) == k;
    }
  }

  lemma {:induction false} OpenedOpens(items: seq<Item>, n: nat)
    requires n <= |items|
    ensures OpenedAt(items, n).Some? ==> Opens(items, OpenedAt(items, n).value)
    decreases n
  {
    if n > 0 {
      OpenedOpens(items, n - 1);
    }
  }

  lemma MadeStays(items: seq<Item>, k: nat, n: nat)
    requires k < n < |items| && (OpenedAt(items, n) == Some(k) ==> Boundary(items[n]))
    ensures Made(items, k, n + 1) == Made(items, k, n)
  {
    if Opens(items, k) {
      ClosedHasEnd(items, k, n);
    }
  }

  lemma {:induction false} MadeOfStays(items: seq<Item>, m: nat, n: nat)
    requires m <= n < |items|
    requires OpenedAt(items, n).Some? ==> m <= OpenedAt(items, n).value || Boundary(items[n])
    ensures MadeOf(items, m, n + 1) == MadeOf(items, m, n)
    decreases m
  {
    if m > 0 {
      MadeOfStays(items, m - 1, n);
      MadeStays(items, m - 1, n);
    }
  }

  lemma MakesNothing(items: seq<Item>, m: nat, n: nat)
    requires m < n <= |items| && OpenedAt(items, m).Some? && OpenedAt(items, m + 1).Some?
    ensures OpenedAt(items, m + 1) == OpenedAt(items, m) && Made(items, m, n) == []
  {
  }

  lemma JustOpened(items: seq<Item>, m: nat)
    requires m < |items| && OpenedAt(items, m).None?
    ensures OpenedAt(items, m + 1).Some? ==> OpenedAt(items, m + 1) == Some(m)
  {
  }

  /** Behind the call that opened it, a message still collecting calls has nothing else made. */
  lemma {:induction false} NothingBehind(items: seq<Item>, m: nat, n: nat, k: nat)
    requires m <= n <= |items| && OpenedAt(items, m) == Some(k)
    ensures MadeOf(items, m, n) == MadeOf(items, k, n) + Made(items, k, n)
    decreases m
  {
    if OpenedAt(items, m - 1).Some? {
      MakesNothing(items, m - 1, n);
      NothingBehind(items, m - 1, n, k);
    } else {
      JustOpened(items, m - 1);
    }
  }

  lemma {:induction false} BlocksAreBack(parts: seq<Part>, n: nat)
    requires n <= |parts|
    ensures BlocksOf(parts, n) == BlocksBack(parts, n)
  {
    if n > 0 {
      BlocksAreBack(parts, n - 1);
      assert BlocksBack(parts, n) == BlocksBack(parts, n - 1) + [BlockOf(parts[n - 1])];
    }
  }

  // ---- the loop ----

  ghost predicate Pending(s: Backward, items: seq<Item>, n: nat)
    requires n <= |items|
  {
    s.thought == ThoughtBefore(items, n) && s.secret == SecretBefore(items, n)
  }

  ghost predicate Shaped(s: Backward, start: seq<Message>, items: seq<Item>, n: nat)
    requires n <= |items|
  {
    var o := OpenedAt(items, n);
    && s.out == start + MadeOf(items, if o.Some? then o.value else n, n)
    && s.shell == (if o.Some? then Some(ShellAt(items, o.value, n)) else None)
  }

  lemma FlushedShape(s: Backward, start: seq<Message>, items: seq<Item>, n: nat)
    requires n <= |items| && Shaped(s, start, items, n)
    ensures FlushShell(s).out == start + MadeOf(items, n, n)
  {
    var o := OpenedAt(items, n);
    if o.Some? {
      OpenedOpens(items, n);
      ClosedHasEnd(items, o.value, n);
      NothingBehind(items, n, n, o.value);
      assert start + (MadeOf(items, o.value, n) + [s.shell.value]) == s.out + [s.shell.value];
    }
  }

  /** Reasoning, between two that use it up, is added line by line; the last secret counts. */
  lemma PendingGrows(items: seq<Item>, n: nat)
    requires n < |items| && !items[n].MessageItem? && !Opens(items, n)
    ensures var item := items[n];
            if item.Reasoning? then
              && ThoughtBefore(items, n + 1) ==
                 (if item.summary == "" then ThoughtBefore(items, n)
                  else if ThoughtBefore(items, n) == "" then item.summary
                  else ThoughtBefore(items, n) + "\n" + item.summary)
              && SecretBefore(items, n + 1) == if item.encrypted != "" then item.encrypted else SecretBefore(items, n)
            else ThoughtBefore(items, n + 1) == ThoughtBefore(items, n)
                 && SecretBefore(items, n + 1) == SecretBefore(items, n)
  {
    var used := UsedUp(items, n);
    assert UsedUp(items, n + 1) == used;
    LinesNext(Summaries(items, used, n), if items[n].Reasoning? then items[n].summary else "");
  }

  lemma PendingUsedUp(items: seq<Item>, n: nat)
    requires n < |items| && (items[n].MessageItem? || Opens(items, n))
    ensures ThoughtBefore(items, n + 1) == "" && SecretBefore(items, n + 1) == ""
  {
    assert UsedUp(items, n + 1) == n + 1;
  }

  lemma PendingNext(s: Backward, items: seq<Item>, n: nat)
    requires n < |items| && Pending(s, items, n) && (s.shell.Some? <==> OpenedAt(items, n).Some?)
    ensures Pending(BackStep(s, items[n]), items, n + 1)
  {
    if items[n].MessageItem? || Opens(items, n) {
      PendingUsedUp(items, n);
    } else {
      PendingGrows(items, n);
    }
  }

  /** The message that a boundary becomes. */
  lemma BoundaryMakes(s: Backward, items: seq<Item>, n: nat)
    requires n < |items| && Boundary(items[n]) && Pending(s, items, n)
    ensures Made(items, n, n + 1) != []
    ensures BackStep(s, items[n]).out == FlushShell(s).out + Made(items, n, n + 1)
    ensures BackStep(s, items[n]).shell == None
  {
    if items[n].MessageItem? {
      BlocksAreBack(items[n].parts, |items[n].parts|);
    }
  }

  lemma MadeOneMore(start: seq<Message>, items: seq<Item>, n: nat)
    requires n < |items|
    ensures start + MadeOf(items, n + 1, n + 1) == start + MadeOf(items, n, n + 1) + Made(items, n, n + 1)
  {
  }

  lemma BoundaryShape(s: Backward, start: seq<Message>, items: seq<Item>, n: nat)
    requires n < |items| && Boundary(items[n]) && Shaped(s, start, items, n) && Pending(s, items, n)
    ensures Shaped(BackStep(s, items[n]), start, items, n + 1)
  {
    FlushedShape(s, start, items, n);
    BoundaryMakes(s, items, n);
    MadeOfStays(items, n, n);
    MadeOneMore(start, items, n);
  }

  lemma CallShape(s: Backward, start: seq<Message>, items: seq<Item>, n: nat)
    requires n < |items| && items[n].FunctionCall? && Shaped(s, start, items, n) && Pending(s, items, n)
    ensures Shaped(BackStep(s, items[n]), start, items, n + 1)
  {
    BlankIff(items[n].name);
    var o := OpenedAt(items, n);
    MadeOfStays(items, if o.Some? then o.value else n, n);
    if o.Some? {
      assert CallsIn(items, o.value, n) + [] == CallsIn(items, o.value, n);
    } else {
      CallsInOne(items, n);
    }
  }

  lemma CallsInOne(items: seq<Item>, n: nat)
    requires n < |items| && items[n].FunctionCall?
    ensures var c := Call(items[n].callId, items[n].name, if items[n].args.Some? then items[n].args.value else "{}");
            CallsIn(items, n, n + 1) == if Blank(items[n].name) then [] else [c]
  {
    assert CallsIn(items, n, n) == [];
  }

  /** An item that makes nothing, leaves open what is open and opens nothing. */
  lemma SilentMakes(items: seq<Item>, n: nat)
    requires n < |items| && (items[n].Reasoning? || items[n].Ignored?)
    ensures OpenedAt(items, n + 1) == OpenedAt(items, n)
    ensures MadeOf(items, n + 1, n + 1) == MadeOf(items, n, n + 1)
    ensures forall k | 0 <= k <= n :: CallsIn(items, k, n + 1) == CallsIn(items, k, n)
  {
    assert Made(items, n, n + 1) == [];
  }

  lemma SilentShape(s: Backward, start: seq<Message>, items: seq<Item>, n: nat)
    requires n < |items| && (items[n].Reasoning? || items[n].Ignored?) && Shaped(s, start, items, n)
    ensures Shaped(BackStep(s, items[n]), start, items, n + 1)
  {
    var o := OpenedAt(items, n);
    MadeOfStays(items, if o.Some? then o.value else n, n);
    SilentMakes(items, n);
  }

  lemma ShapeNext(s: Backward, start: seq<Message>, items: seq<Item>, n: nat)
    requires n < |items| && Shaped(s, start, items, n) && Pending(s, items, n)
    ensures Shaped(BackStep(s, items[n]), start, items, n + 1) && Pending(BackStep(s, items[n]), items, n + 1)
  {
    PendingNext(s, items, n);
    if Boundary(items[n]) {
      BoundaryShape(s, start, items, n);
    } else if items[n].FunctionCall? {
      CallShape(s, start, items, n);
    } else {
      SilentShape(s, start, items, n);
    }
  }

  ghost predicate ShapedUpTo(start: seq<Message>, items: seq<Item>, n: nat) {
    n <= |items| && Shaped(BackTo(start, items, n), start, items, n) && Pending(BackTo(start, items, n), items, n)
  }

  lemma ShapedStart(start: seq<Message>, items: seq<Item>)
    ensures ShapedUpTo(start, items, 0)
  {
    assert start + [] == start;
  }

  lemma ShapedNext(start: seq<Message>, items: seq<Item>, n: nat)
    requires n < |items| && ShapedUpTo(start, items, n)
    ensures ShapedUpTo(start, items, n + 1)
  {
    ShapeNext(BackTo(start, items, n), start, items, n);
  }

  lemma ShapedAll(start: seq<Message>, items: seq<Item>)
    ensures ShapedUpTo(start, items, |items|)
  {
    ShapedStart(start, items);
    for n := 0 to |items|
      invariant ShapedUpTo(start, items, n)
    {
      ShapedNext(start, items, n);
    }
  }

  /**
   * For every list of items: after the instructions, one message per message item and per result, and one assistant
   * message for the calls between two of those, in order. An assistant message carries the reasoning that came since
   * the last message, or the last message of calls, was opened; no other does.
   */
  lemma BackIs(items: seq<Item>, instructions: string)
    requires items != []
    ensures Back(Listed(items), instructions) ==
            Some((if instructions == "" then [] else [Message(System, Whole(instructions), "", "", [], "")])
                 + MadeOf(items, |items|, |items|))
  {
    var start := Heading(instructions);
    ShapedAll(start, items);
    FlushedShape(BackTo(start, items, |items|), start, items, |items|);
  }

  // ---- which items one message becomes ----

  ghost predicate Carries(p: Part, role: Role, b: Block) {
    match b
    case Text(t) => p == TextPart(role == Assistant, t)
    case Image(url, detail) => p == ImagePart(url, if detail == "" then "auto" else detail)
  }

  /** The parts of a content, one for one, output parts for the assistant and input parts for the user. */
  ghost predicate CarriesAll(parts: seq<Part>, role: Role, c: Content) {
    match c
    case Absent => parts == []
    case Whole(t) => parts == [TextPart(role == Assistant, t)]
    case Blocks(bs) => |parts| == |bs| && forall i | 0 <= i < |bs| :: Carries(parts[i], role, bs[i])
  }

  lemma {:induction false} PartsCarry(role: Role, bs: seq<Block>, n: nat)
    requires n <= |bs|
    ensures var parts := PartsOf(role, bs, n);
            |parts| == n && forall i | 0 <= i < n :: Carries(parts[i], role, bs[i])
  {
    if n > 0 {
      PartsCarry(role, bs, n - 1);
    }
  }

  ghost predicate AllCalls(items: seq<Item>) { forall i | 0 <= i < |items| :: items[i].FunctionCall? }

  lemma {:induction false} CallsAdded(env: Env, s: Forward, calls: seq<Call>, n: nat) returns (more: seq<Item>)
    requires n <= |calls|
    ensures AddCalls(env, s, calls, n).input == s.input + more && AllCalls(more) && |more| <= n
    decreases n
  {
    if n == 0 {
      more := [];
    } else {
      var before := CallsAdded(env, s, calls, n - 1);
      var t := AddCalls(env, s, calls, n - 1);
      more := before + AddCall(env, t, calls[n - 1]).input[|t.input|..];
    }
  }

  ghost function ReasoningOf(m: Message): seq<Item> {
    if m.role != Assistant || (Blank(m.reasoning) && m.encrypted == "") then []
    else [Reasoning(if Blank(m.reasoning) then "" else m.reasoning, m.encrypted)]
  }

  lemma ContentCarries(m: Message)
    ensures CarriesAll(ContentParts(m.role, m.content), m.role, m.content)
  {
    if m.content.Blocks? {
      PartsCarry(m.role, m.content.blocks, |m.content.blocks|);
    }
  }

  /** A message's reasoning, and then its content. */
  lemma SpeakerBecomes(s: Forward, m: Message)
    ensures var parts := ContentParts(m.role, m.content);
            AddContent(AddReasoning(s, m), m).input ==
            s.input + ReasoningOf(m) + if parts == [] then [] else [MessageItem(m.role, parts)]
  {
    BlankIff(m.reasoning);
    assert s.input + [] == s.input;
  }

  ghost predicate AllAddedBy(rest: seq<Item>, m: Message) {
    match m.role
    case Assistant => AllCalls(rest) && |rest| <= |m.calls|
    case Tool => |rest| == 1 && rest[0].FunctionOutput?
    case _ => rest == []
  }

  /**
   * What one message adds: its reasoning, if it is the assistant's and not blank; then one message item with its
   * parts, if it has any; then its calls. A tool's message is one result, and the others add nothing.
   */
  lemma MessageBecomes(env: Env, s: Forward, m: Message) returns (parts: seq<Part>, rest: seq<Item>)
    ensures ForthStep(env, s, m).input ==
            s.input + ReasoningOf(m) + (if parts == [] then [] else [MessageItem(m.role, parts)]) + rest
    ensures if m.role == User || m.role == Assistant then CarriesAll(parts, m.role, m.content) else parts == []
    ensures AllAddedBy(rest, m)
  {
    parts, rest := [], [];
    match m.role
    case User =>
      parts := ContentParts(m.role, m.content);
      ContentCarries(m);
    case Assistant =>
      parts := ContentParts(m.role, m.content);
      ContentCarries(m);
      SpeakerBecomes(s, m);
      rest := CallsAdded(env, AddContent(AddReasoning(s, m), m), m.calls, |m.calls|);
    case Tool =>
      rest := [FunctionOutput(ClampId(env, m.callId, s.minted), Some(CoerceOutput(env, m.content)))];
    case _ =>
  }
}
