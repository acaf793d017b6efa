/** What a conversation says survives translation to Responses and back. */
module RequestRoundTrip {
  import opened Config
  import opened RequestTranslation

  // ---- what a conversation says, whatever its grouping into messages ----

  datatype Atom =
    | Said(role: Role, text: string)
    | Shown(role: Role, url: string, detail: string)
    | Called(id: string, name: string, args: string)
    | Answered(id: string, output: string)
    | Briefing(text: string)
    | Unheard

  ghost function BlockAtom(role: Role, b: Block): Atom {
    match b
    case Text(t) => Said(role, t)
    case Image(url, detail) => Shown(role, url, detail)
  }

  ghost function BlockAtoms(role: Role, bs: seq<Block>, n: nat): seq<Atom>
    requires n <= |bs|
  {
    if n == 0 then [] else BlockAtoms(role, bs, n - 1) + [BlockAtom(role, bs[n - 1])]
  }

  ghost function ContentAtoms(role: Role, c: Content): seq<Atom> {
    match c
    case Absent => []
    case Whole(t) => [Said(role, t)]
    case Blocks(bs) => BlockAtoms(role, bs, |bs|)
  }

  ghost function CallAtoms(calls: seq<Call>, n: nat): seq<Atom>
    requires n <= |calls|
  {
    if n == 0 then []
    else CallAtoms(calls, n - 1) + [Called(calls[n - 1].id, calls[n - 1].name, calls[n - 1].args)]
  }

  ghost function Atoms(env: Env, m: Message): seq<Atom> {
    match m.role
    case User => ContentAtoms(User, m.content)
    case Assistant => ContentAtoms(Assistant, m.content) + CallAtoms(m.calls, |m.calls|)
    case Tool => [Answered(m.callId, CoerceOutput(env, m.content))]
    case System => [Briefing(InstructionText(m.content))]
    case Developer => [Briefing(InstructionText(m.content))]
    case OtherRole => [Unheard]
  }

  ghost function FlattenTo(env: Env, ms: seq<Message>, n: nat): seq<Atom>
    requires n <= |ms|
  {
    if n == 0 then [] else FlattenTo(env, ms, n - 1) + Atoms(env, ms[n - 1])
  }

  ghost function Flatten(env: Env, ms: seq<Message>): seq<Atom> { FlattenTo(env, ms, |ms|) }

  lemma {:induction false} FlattenPrefix(env: Env, ms: seq<Message>, m: Message, n: nat)
    requires n <= |ms|
    ensures FlattenTo(env, ms + [m], n) == FlattenTo(env, ms, n)
    decreases n
  {
    if n > 0 {
      FlattenPrefix(env, ms, m, n - 1);
      assert (ms + [m])[n - 1] == ms[n - 1];
    }
  }

  lemma FlattenSnoc(env: Env, ms: seq<Message>, m: Message)
    ensures Flatten(env, ms + [m]) == Flatten(env, ms) + Atoms(env, m)
  {
    FlattenPrefix(env, ms, m, |ms|);
  }

  ghost function PartAtoms(role: Role, parts: seq<Part>, n: nat): seq<Atom>
    requires n <= |parts|
  {
    if n == 0 then [] else PartAtoms(role, parts, n - 1) + [BlockAtom(role, BlockOf(parts[n - 1]))]
  }

  /** The message a message item becomes, leaving reasoning aside. */
  ghost function Plainly(role: Role, parts: seq<Part>): Message {
    Message(role, Blocks(BlocksOf(parts, |parts|)), "", "", [], "")
  }

  ghost function ItemAtoms(env: Env, item: Item): seq<Atom> {
    match item
    case MessageItem(role, parts) => Atoms(env, Plainly(role, parts))
    case FunctionCall(id, name, args) =>
      if Trim(name) == "" then [] else [Called(id, name, if args.Some? then args.value else "{}")]
    case FunctionOutput(id, output) => [Answered(id, if output.Some? then output.value else "")]
    case _ => []
  }

  ghost function ItemsTo(env: Env, items: seq<Item>, n: nat): seq<Atom>
    requires n <= |items|
  {
    if n == 0 then [] else ItemsTo(env, items, n - 1) + ItemAtoms(env, items[n - 1])
  }

  ghost function ItemsAtoms(env: Env, items: seq<Item>): seq<Atom> { ItemsTo(env, items, |items|) }

  lemma {:induction false} ItemsPrefix(env: Env, items: seq<Item>, item: Item, n: nat)
    requires n <= |items|
    ensures ItemsTo(env, items + [item], n) == ItemsTo(env, items, n)
    decreases n
  {
    if n > 0 {
      ItemsPrefix(env, items, item, n - 1);
      assert (items + [item])[n - 1] == items[n - 1];
    }
  }

  lemma ItemsSnoc(env: Env, items: seq<Item>, item: Item)
    ensures ItemsAtoms(env, items + [item]) == ItemsAtoms(env, items) + ItemAtoms(env, item)
  {
    ItemsPrefix(env, items, item, |items|);
  }

  // ---- Responses to Chat loses nothing ----

  ghost function Held(s: Backward): seq<Atom> {
    if s.shell.None? then [] else CallAtoms(s.shell.value.calls, |s.shell.value.calls|)
  }

  ghost predicate ShellIsBare(s: Backward) {
    s.shell.Some? ==> s.shell.value.role == Assistant && s.shell.value.content == Absent
  }

  lemma {:induction false} BlocksArePartAtoms(role: Role, parts: seq<Part>, n: nat)
    requires n <= |parts|
    ensures |BlocksOf(parts, n)| == n
    ensures BlockAtoms(role, BlocksOf(parts, n), n) == PartAtoms(role, parts, n)
    decreases n
  {
    if n > 0 {
      BlocksArePartAtoms(role, parts, n - 1);
      BlockAtomsPrefix(role, BlocksOf(parts, n - 1), BlockOf(parts[n - 1]), n - 1);
    }
  }

  lemma {:induction false} BlockAtomsPrefix(role: Role, bs: seq<Block>, b: Block, n: nat)
    requires n <= |bs|
    ensures BlockAtoms(role, bs + [b], n) == BlockAtoms(role, bs, n)
    decreases n
  {
    if n > 0 {
      BlockAtomsPrefix(role, bs, b, n - 1);
    }
  }

  lemma {:induction false} CallAtomsPrefix(calls: seq<Call>, c: Call, n: nat)
    requires n <= |calls|
    ensures CallAtoms(calls + [c], n) == CallAtoms(calls, n)
    decreases n
  {
    if n > 0 {
      CallAtomsPrefix(calls, c, n - 1);
    }
  }

  /** What has come out, with what the open assistant message holds, says the given atoms. */
  ghost predicate Says(env: Env, s: Backward, atoms: seq<Atom>) {
    ShellIsBare(s) && Flatten(env, s.out) + Held(s) == atoms
  }

  lemma FlushSays(env: Env, s: Backward, atoms: seq<Atom>)
    requires Says(env, s, atoms)
    ensures Flatten(env, FlushShell(s).out) == atoms && FlushShell(s).shell.None?
  {
    if s.shell.Some? {
      var m := s.shell.value;
      FlattenSnoc(env, s.out, m);
      assert Atoms(env, m) == [] + CallAtoms(m.calls, |m.calls|);
    }
  }

  lemma MessageSays(env: Env, s: Backward, role: Role, parts: seq<Part>, atoms: seq<Atom>)
    requires Says(env, s, atoms)
    ensures Says(env, BackMessage(s, role, BlocksOf(parts, |parts|)), atoms + ItemAtoms(env, MessageItem(role, parts)))
  {
    FlushSays(env, s, atoms);
    var f, t := FlushShell(s), BackMessage(s, role, BlocksOf(parts, |parts|));
    var m := t.out[|f.out|];
    assert t.out == f.out + [m] && t.shell.None?;
    FlattenSnoc(env, f.out, m);
    SameAtoms(env, m, Plainly(role, parts));
  }

  lemma SameAtoms(env: Env, m: Message, k: Message)
    requires m.role == k.role && m.content == k.content && m.calls == k.calls && m.callId == k.callId
    ensures Atoms(env, m) == Atoms(env, k)
  {
  }

  /** A message item of a speaking role says its parts. */
  lemma PartsSay(env: Env, role: Role, parts: seq<Part>)
    requires role == User || role == Assistant
    ensures ItemAtoms(env, MessageItem(role, parts)) == PartAtoms(role, parts, |parts|)
  {
    BlocksArePartAtoms(role, parts, |parts|);
    var said := BlockAtoms(role, BlocksOf(parts, |parts|), |parts|);
    assert said + [] == said;
  }

  lemma OpenSays(env: Env, s: Backward, atoms: seq<Atom>)
    requires Says(env, s, atoms)
    ensures Says(env, OpenShell(s), atoms) && OpenShell(s).shell.Some?
  {
  }

  /** One more call in the open assistant message. */
  lemma HeldSnoc(env: Env, o: Backward, t: Backward, c: Call, atoms: seq<Atom>)
    requires Says(env, o, atoms) && o.shell.Some?
    requires t == o.(shell := Some(o.shell.value.(calls := o.shell.value.calls + [c])))
    ensures Says(env, t, atoms + [Called(c.id, c.name, c.args)])
  {
    var calls := o.shell.value.calls;
    CallAtomsPrefix(calls, c, |calls|);
    assert Held(t) == Held(o) + [Called(c.id, c.name, c.args)];
    Regroup(Flatten(env, o.out), Held(o), Called(c.id, c.name, c.args));
  }

  lemma CallSays(env: Env, s: Backward, id: string, name: string, args: Option<string>, atoms: seq<Atom>)
    requires Says(env, s, atoms)
    ensures Says(env, BackCall(s, id, name, args), atoms + ItemAtoms(env, FunctionCall(id, name, args)))
  {
    OpenSays(env, s, atoms);
    if Trim(name) == "" {
      assert atoms + [] == atoms;
    } else {
      var c := Call(id, name, if args.Some? then args.value else "{}");
      HeldSnoc(env, OpenShell(s), BackCall(s, id, name, args), c, atoms);
    }
  }

  lemma OutputSays(env: Env, s: Backward, id: string, output: Option<string>, atoms: seq<Atom>)
    requires Says(env, s, atoms)
    ensures Says(env, BackOutput(s, id, output), atoms + ItemAtoms(env, FunctionOutput(id, output)))
  {
    FlushSays(env, s, atoms);
    var content := if output.Some? then Whole(output.value) else Absent;
    FlattenSnoc(env, FlushShell(s).out, Message(Tool, content, "", "", [], id));
  }

  lemma BackStepSays(env: Env, s: Backward, item: Item, atoms: seq<Atom>)
    requires Says(env, s, atoms)
    ensures Says(env, BackStep(s, item), atoms + ItemAtoms(env, item))
  {
    match item
    case MessageItem(role, parts) => MessageSays(env, s, role, parts, atoms);
    case FunctionCall(id, name, args) => CallSays(env, s, id, name, args, atoms);
    case FunctionOutput(id, output) => OutputSays(env, s, id, output, atoms);
    case Reasoning(_, _) => assert atoms + [] == atoms;
    case Ignored => assert atoms + [] == atoms;
  }

  lemma BackStartSays(env: Env, start: seq<Message>, items: seq<Item>)
    ensures Says(env, BackTo(start, items, 0), Flatten(env, start) + ItemsTo(env, items, 0))
  {
  }

  lemma BackSaysNext(env: Env, start: seq<Message>, items: seq<Item>, n: nat)
    requires 0 < n <= |items|
    requires Says(env, BackTo(start, items, n - 1), Flatten(env, start) + ItemsTo(env, items, n - 1))
    ensures Says(env, BackTo(start, items, n), Flatten(env, start) + ItemsTo(env, items, n))
  {
    var sofar := Flatten(env, start) + ItemsTo(env, items, n - 1);
    BackStepSays(env, BackTo(start, items, n - 1), items[n - 1], sofar);
    Assoc(Flatten(env, start), ItemsTo(env, items, n - 1), ItemAtoms(env, items[n - 1]));
  }

  lemma BackSays(env: Env, start: seq<Message>, items: seq<Item>, n: nat)
    requires n <= |items|
    ensures Says(env, BackTo(start, items, n), Flatten(env, start) + ItemsTo(env, items, n))
  {
    BackStartSays(env, start, items);
    for k := 0 to n
      invariant Says(env, BackTo(start, items, k), Flatten(env, start) + ItemsTo(env, items, k))
    {
      BackSaysNext(env, start, items, k + 1);
    }
  }

  ghost function Headline(text: string): seq<Atom> { if text == "" then [] else [Briefing(text)] }

  lemma HeadingSays(env: Env, instructions: string)
    ensures Flatten(env, Heading(instructions)) == Headline(instructions)
  {
    var h := Heading(instructions);
    if h != [] {
      FlattenSnoc(env, [], h[0]);
      assert [] + [h[0]] == h;
    }
  }

  /** The instructions come out first, then every text, image, call and result of the items, in order. */
  lemma BackSaysTheItems(env: Env, items: seq<Item>, instructions: string)
    requires items != []
    ensures Flatten(env, Back(Listed(items), instructions).value) == Headline(instructions) + ItemsAtoms(env, items)
  {
    var start := Heading(instructions);
    HeadingSays(env, instructions);
    BackSays(env, start, items, |items|);
    FlushSays(env, BackTo(start, items, |items|), Headline(instructions) + ItemsAtoms(env, items));
  }

  // ---- Chat to Responses normalizes ----

  datatype Tally = Tally(atoms: seq<Atom>, minted: nat)

  /**
   * What becomes of one atom on its way: names are trimmed and cut, nameless calls dropped, ids cut or made up,
   * arguments repaired, briefings set aside and messages of other roles dropped.
   */
  ghost function Normal(env: Env, t: Tally, a: Atom): Tally {
    match a
    case Said(_, _) => t.(atoms := t.atoms + [a])
    case Shown(role, url, detail) => t.(atoms := t.atoms + [Shown(role, url, if detail == "" then "auto" else detail)])
    case Called(id, name, args) =>
      if Trim(name) == "" then t
      else Tally(t.atoms + [Called(ClampId(env, id, t.minted), Clip(Trim(name), MAX_NAME), CoerceArgs(env, args))],
                 t.minted + if id == "" then 1 else 0)
    case Answered(id, output) =>
      Tally(t.atoms + [Answered(ClampId(env, id, t.minted), output)], t.minted + if id == "" then 1 else 0)
    case Briefing(_) => t
    case Unheard => t
  }

  ghost function Normals(env: Env, atoms: seq<Atom>): Tally {
    if atoms == [] then Tally([], 0) else Normal(env, Normals(env, atoms[..|atoms| - 1]), atoms[|atoms| - 1])
  }

  lemma NormalsSnoc(env: Env, atoms: seq<Atom>, a: Atom)
    ensures Normals(env, atoms + [a]) == Normal(env, Normals(env, atoms), a)
  {
    assert (atoms + [a])[..|atoms|] == atoms;
  }

  lemma Regroup<T>(a: seq<T>, b: seq<T>, x: T)
    ensures a + (b + [x]) == (a + b) + [x]
  {
  }

  ghost predicate Agrees(env: Env, s: Forward, atoms: seq<Atom>) {
    Normals(env, atoms) == Tally(ItemsAtoms(env, s.input), s.minted)
  }

  /** A block's part reads back as the block's normal form. */
  lemma BlockNormalizes(env: Env, t: Tally, role: Role, b: Block)
    ensures Normal(env, t, BlockAtom(role, b)) == Tally(t.atoms + [BlockAtom(role, BlockOf(PartOf(role, b)))], t.minted)
  {
  }

  lemma PartsSnoc(role: Role, parts: seq<Part>, p: Part)
    ensures PartAtoms(role, parts + [p], |parts| + 1) == PartAtoms(role, parts, |parts|) + [BlockAtom(role, BlockOf(p))]
  {
    PartAtomsPrefix(role, parts, p, |parts|);
  }

  lemma {:induction false} PartsOfLength(role: Role, bs: seq<Block>, n: nat)
    requires n <= |bs|
    ensures |PartsOf(role, bs, n)| == n
    decreases n
  {
    if n > 0 {
      PartsOfLength(role, bs, n - 1);
    }
  }

  lemma OneMoreBlock(env: Env, pre: seq<Atom>, role: Role, atoms: seq<Atom>, b: Block, parts: seq<Part>)
    requires Normals(env, pre + atoms) ==
             Tally(Normals(env, pre).atoms + PartAtoms(role, parts, |parts|), Normals(env, pre).minted)
    ensures var more := parts + [PartOf(role, b)];
            Normals(env, pre + (atoms + [BlockAtom(role, b)]))
            == Tally(Normals(env, pre).atoms + PartAtoms(role, more, |more|), Normals(env, pre).minted)
  {
    Regroup(pre, atoms, BlockAtom(role, b));
    NormalsSnoc(env, pre + atoms, BlockAtom(role, b));
    BlockNormalizes(env, Normals(env, pre + atoms), role, b);
    PartsSnoc(role, parts, PartOf(role, b));
    Regroup(Normals(env, pre).atoms, PartAtoms(role, parts, |parts|), BlockAtom(role, BlockOf(PartOf(role, b))));
  }

  lemma {:induction false} BlocksNormalize(env: Env, pre: seq<Atom>, role: Role, bs: seq<Block>, n: nat)
    requires n <= |bs|
    ensures var t, parts := Normals(env, pre), PartsOf(role, bs, n);
            Normals(env, pre + BlockAtoms(role, bs, n)) == Tally(t.atoms + PartAtoms(role, parts, |parts|), t.minted)
    decreases n
  {
    PartsOfLength(role, bs, n);
    if n == 0 {
      assert pre + [] == pre;
    } else {
      BlocksNormalize(env, pre, role, bs, n - 1);
      var b, parts := bs[n - 1], PartsOf(role, bs, n - 1);
      OneMoreBlock(env, pre, role, BlockAtoms(role, bs, n - 1), b, parts);
    }
  }

  lemma {:induction false} PartAtomsPrefix(role: Role, parts: seq<Part>, p: Part, n: nat)
    requires n <= |parts|
    ensures PartAtoms(role, parts + [p], n) == PartAtoms(role, parts, n)
    decreases n
  {
    if n > 0 {
      PartAtomsPrefix(role, parts, p, n - 1);
    }
  }

  lemma ContentNormalizes(env: Env, s: Forward, m: Message, pre: seq<Atom>)
    requires Agrees(env, s, pre) && (m.role == User || m.role == Assistant)
    ensures Agrees(env, AddContent(s, m), pre + ContentAtoms(m.role, m.content))
  {
    var parts := ContentParts(m.role, m.content);
    PartsSay(env, m.role, parts);
    match m.content
    case Absent => assert pre + [] == pre;
    case Whole(t) =>
      NormalsSnoc(env, pre, Said(m.role, t));
      ItemsSnoc(env, s.input, MessageItem(m.role, parts));
      assert PartAtoms(m.role, parts, 1) == PartAtoms(m.role, parts, 0) + [Said(m.role, t)];
    case Blocks(bs) =>
      BlocksNormalize(env, pre, m.role, bs, |bs|);
      ItemsSnoc(env, s.input, MessageItem(m.role, parts));
  }

  lemma {:induction false} TrimRightKeepsHead(s: string)
    requires s != "" && !IsSpace(s[0])
    ensures TrimRight(s) != "" && TrimRight(s)[0] == s[0]
  {
    if IsSpace(s[|s| - 1]) {
      TrimRightKeepsHead(s[..|s| - 1]);
    }
  }

  lemma {:induction false} TrimLeftHead(s: string)
    ensures TrimLeft(s) != "" ==> !IsSpace(TrimLeft(s)[0])
  {
    if s != "" && IsSpace(s[0]) {
      TrimLeftHead(s[1..]);
    }
  }

  /** A trimmed and cut name is still a name. */
  lemma CutNameStays(name: string)
    requires Trim(name) != ""
    ensures Trim(Clip(Trim(name), MAX_NAME)) != ""
  {
    var l := TrimLeft(name);
    TrimLeftHead(name);
    assert l != "";
    TrimRightKeepsHead(l);
    var c := Clip(Trim(name), MAX_NAME);
    assert c != "" && c[0] == l[0];
    TrimRightKeepsHead(c);
  }

  lemma CallNormalizes(env: Env, s: Forward, c: Call, pre: seq<Atom>)
    requires Agrees(env, s, pre)
    ensures Agrees(env, AddCall(env, s, c), pre + [Called(c.id, c.name, c.args)])
  {
    var a := Called(c.id, c.name, c.args);
    NormalsSnoc(env, pre, a);
    var t := Tally(ItemsAtoms(env, s.input), s.minted);
    assert Normals(env, pre + [a]) == Normal(env, t, a);
    NamedCallNormalizes(env, s, c, t);
  }

  lemma NamedCallNormalizes(env: Env, s: Forward, c: Call, t: Tally)
    requires t == Tally(ItemsAtoms(env, s.input), s.minted)
    ensures var u := AddCall(env, s, c);
            Normal(env, t, Called(c.id, c.name, c.args)) == Tally(ItemsAtoms(env, u.input), u.minted)
  {
    var name := Trim(c.name);
    if name != "" {
      CutNameStays(c.name);
      var id, cut, args := ClampId(env, c.id, s.minted), Clip(name, MAX_NAME), CoerceArgs(env, c.args);
      ItemsSnoc(env, s.input, FunctionCall(id, cut, Some(args)));
      assert ItemAtoms(env, FunctionCall(id, cut, Some(args))) == [Called(id, cut, args)];
    }
  }

  lemma NextCallNormalizes(env: Env, s: Forward, calls: seq<Call>, n: nat, pre: seq<Atom>)
    requires n < |calls| && Agrees(env, AddCalls(env, s, calls, n), pre + CallAtoms(calls, n))
    ensures Agrees(env, AddCalls(env, s, calls, n + 1), pre + CallAtoms(calls, n + 1))
  {
    var c := calls[n];
    CallNormalizes(env, AddCalls(env, s, calls, n), c, pre + CallAtoms(calls, n));
    Regroup(pre, CallAtoms(calls, n), Called(c.id, c.name, c.args));
  }

  lemma CallsNormalize(env: Env, s: Forward, calls: seq<Call>, n: nat, pre: seq<Atom>)
    requires n <= |calls| && Agrees(env, s, pre)
    ensures Agrees(env, AddCalls(env, s, calls, n), pre + CallAtoms(calls, n))
  {
    assert pre + [] == pre;
    for k := 0 to n
      invariant Agrees(env, AddCalls(env, s, calls, k), pre + CallAtoms(calls, k))
    {
      NextCallNormalizes(env, s, calls, k, pre);
    }
  }

  lemma OutputNormalizes(env: Env, s: Forward, m: Message, pre: seq<Atom>)
    requires Agrees(env, s, pre)
    ensures Agrees(env, AddOutput(env, s, m), pre + [Answered(m.callId, CoerceOutput(env, m.content))])
  {
    NormalsSnoc(env, pre, Answered(m.callId, CoerceOutput(env, m.content)));
    ItemsSnoc(env, s.input, FunctionOutput(ClampId(env, m.callId, s.minted), Some(CoerceOutput(env, m.content))));
  }

  lemma ReasoningIsSilent(env: Env, s: Forward, m: Message, pre: seq<Atom>)
    requires Agrees(env, s, pre)
    ensures Agrees(env, AddReasoning(s, m), pre)
  {
    ItemsSnoc(env, s.input, Reasoning(if Trim(m.reasoning) == "" then "" else m.reasoning, m.encrypted));
  }

  lemma AssistantNormalizes(env: Env, s: Forward, m: Message, pre: seq<Atom>)
    requires Agrees(env, s, pre) && m.role == Assistant
    ensures Agrees(env, ForthStep(env, s, m), pre + Atoms(env, m))
  {
    ReasoningIsSilent(env, s, m, pre);
    TurnNormalizes(env, AddReasoning(s, m), m, pre, ContentAtoms(Assistant, m.content), CallAtoms(m.calls, |m.calls|));
  }

  lemma TurnNormalizes(env: Env, s: Forward, m: Message, pre: seq<Atom>, said: seq<Atom>, called: seq<Atom>)
    requires Agrees(env, s, pre) && m.role == Assistant
    requires said == ContentAtoms(Assistant, m.content) && called == CallAtoms(m.calls, |m.calls|)
    ensures Agrees(env, AddCalls(env, AddContent(s, m), m.calls, |m.calls|), pre + (said + called))
  {
    ContentNormalizes(env, s, m, pre);
    CallsNormalize(env, AddContent(s, m), m.calls, |m.calls|, pre + said);
    Assoc(pre, said, called);
  }

  lemma Assoc<T>(a: seq<T>, b: seq<T>, c: seq<T>)
    ensures a + (b + c) == (a + b) + c
  {
  }

  lemma StepNormalizes(env: Env, s: Forward, m: Message, pre: seq<Atom>)
    requires Agrees(env, s, pre)
    ensures Agrees(env, ForthStep(env, s, m), pre + Atoms(env, m))
  {
    match m.role
    case User => ContentNormalizes(env, s, m, pre);
    case Assistant => AssistantNormalizes(env, s, m, pre);
    case Tool => OutputNormalizes(env, s, m, pre);
    case System => NormalsSnoc(env, pre, Briefing(InstructionText(m.content)));
    case Developer => NormalsSnoc(env, pre, Briefing(InstructionText(m.content)));
    case OtherRole => NormalsSnoc(env, pre, Unheard);
  }

  lemma NextNormalizes(env: Env, ms: seq<Message>, n: nat)
    requires n < |ms| && Agrees(env, Forth(env, ms, n), FlattenTo(env, ms, n))
    ensures Agrees(env, Forth(env, ms, n + 1), FlattenTo(env, ms, n + 1))
  {
    StepNormalizes(env, Forth(env, ms, n), ms[n], FlattenTo(env, ms, n));
  }

  lemma ForthNormalizes(env: Env, ms: seq<Message>)
    ensures Agrees(env, Forth(env, ms, |ms|), Flatten(env, ms))
  {
    for n := 0 to |ms|
      invariant Agrees(env, Forth(env, ms, n), FlattenTo(env, ms, n))
    {
      NextNormalizes(env, ms, n);
    }
  }

  ghost predicate Nameless(a: Atom) { a.Called? && Trim(a.name) == "" }

  /** How many ids have to be made up: one for each named call and each result without one. */
  ghost function Unidentified(atoms: seq<Atom>): nat {
    if atoms == [] then 0
    else
      var a := atoms[|atoms| - 1];
      Unidentified(atoms[..|atoms| - 1]) + if (a.Called? || a.Answered?) && a.id == "" && !Nameless(a) then 1 else 0
  }

  /** Made-up ids are taken one by one, in the order of what they are made up for. */
  lemma {:induction false} MintedInOrder(env: Env, atoms: seq<Atom>)
    ensures Normals(env, atoms).minted == Unidentified(atoms)
  {
    if atoms != [] {
      MintedInOrder(env, atoms[..|atoms| - 1]);
    }
  }

  // ---- when the normal form is the original ----

  /** What a strict upstream accepts unchanged. */
  ghost predicate Faithful(env: Env, a: Atom) {
    match a
    case Said(_, _) => true
    case Shown(_, _, detail) => detail != ""
    case Called(id, name, args) =>
      && 1 <= |id| <= MAX_CALL_ID
      && 1 <= |name| <= MAX_NAME && Trim(name) == name
      && (args == "{}" || (args != "" && env.valid(args)))
    case Answered(id, _) => 1 <= |id| <= MAX_CALL_ID
    case Briefing(_) => false
    case Unheard => false
  }

  /** Synthesized ids are not blank. */
  ghost predicate Minting(env: Env) { forall n :: env.mint(n) != "" }

  lemma {:induction false} TrimLeftShrinks(s: string)
    ensures |TrimLeft(s)| <= |s|
  {
    if s != "" && IsSpace(s[0]) {
      TrimLeftShrinks(s[1..]);
    }
  }

  lemma {:induction false} TrimRightShrinks(s: string)
    ensures |TrimRight(s)| <= |s|
  {
    if s != "" && IsSpace(s[|s| - 1]) {
      TrimRightShrinks(s[..|s| - 1]);
    }
  }

  lemma ClampedIff(env: Env, id: string, minted: nat)
    requires Minting(env)
    ensures ClampId(env, id, minted) == id <==> 1 <= |id| <= MAX_CALL_ID
  {
  }

  lemma CutIff(name: string)
    ensures Clip(Trim(name), MAX_NAME) == name <==> |name| <= MAX_NAME && Trim(name) == name
  {
    TrimLeftShrinks(name);
    TrimRightShrinks(TrimLeft(name));
  }

  lemma CoercedIff(env: Env, args: string)
    ensures CoerceArgs(env, args) == args <==> args == "{}" || (args != "" && env.valid(args))
  {
  }

  /** An atom is kept, replaced or dropped; it is kept exactly if it is faithful. */
  lemma NormalIff(env: Env, t: Tally, a: Atom)
    requires Minting(env)
    ensures var u := Normal(env, t, a);
            && (u.atoms == t.atoms || exists b :: u.atoms == t.atoms + [b])
            && (u.atoms == t.atoms + [a] <==> Faithful(env, a))
  {
    match a
    case Said(_, _) =>
    case Shown(role, url, detail) =>
      Swapped(t.atoms, Shown(role, url, if detail == "" then "auto" else detail), a);
    case Called(id, name, args) =>
      ClampedIff(env, id, t.minted);
      CutIff(name);
      CoercedIff(env, args);
      if Trim(name) == "" {
        assert |t.atoms + [a]| == |t.atoms| + 1;
        assert name != "" ==> Trim(name) != name;
      } else {
        Swapped(t.atoms, Called(ClampId(env, id, t.minted), Clip(Trim(name), MAX_NAME), CoerceArgs(env, args)), a);
      }
    case Answered(id, output) =>
      ClampedIff(env, id, t.minted);
      Swapped(t.atoms, Answered(ClampId(env, id, t.minted), output), a);
    case Briefing(_) => assert |t.atoms + [a]| == |t.atoms| + 1;
    case Unheard => assert |t.atoms + [a]| == |t.atoms| + 1;
  }

  lemma Swapped(xs: seq<Atom>, b: Atom, a: Atom)
    ensures xs + [b] == xs + [a] <==> b == a
  {
    assert (xs + [b])[|xs|] == b;
    assert (xs + [a])[|xs|] == a;
  }

  lemma SnocEqual(xs: seq<Atom>, ys: seq<Atom>, b: Atom, a: Atom)
    requires xs + [b] == ys + [a]
    ensures xs == ys && b == a
  {
    assert |xs| == |xs + [b]| - 1 && |ys| == |ys + [a]| - 1;
    assert xs == (xs + [b])[..|xs|];
    assert ys == (ys + [a])[..|ys|];
  }

  ghost predicate AllFaithful(env: Env, atoms: seq<Atom>) {
    forall j | 0 <= j < |atoms| :: Faithful(env, atoms[j])
  }

  lemma {:induction false} NormalsIff(env: Env, atoms: seq<Atom>)
    requires Minting(env)
    ensures |Normals(env, atoms).atoms| <= |atoms|
    ensures Normals(env, atoms).atoms == atoms <==> AllFaithful(env, atoms)
  {
    if atoms != [] {
      var pre, a := atoms[..|atoms| - 1], atoms[|atoms| - 1];
      assert atoms == pre + [a];
      NormalsIff(env, pre);
      var t := Normals(env, pre);
      NormalIff(env, t, a);
      var u := Normal(env, t, a);
      assert AllFaithful(env, atoms) <==> AllFaithful(env, pre) && Faithful(env, a);
      if u.atoms == atoms {
        assert u.atoms != t.atoms;
        var b :| u.atoms == t.atoms + [b];
        SnocEqual(t.atoms, pre, b, a);
      }
    }
  }

  // ---- the briefing ----

  /** The text of the first briefing. */
  ghost function Lead(atoms: seq<Atom>): Option<string> {
    if atoms == [] then None
    else
      var earlier, a := Lead(atoms[..|atoms| - 1]), atoms[|atoms| - 1];
      if earlier.Some? then earlier else if a.Briefing? then Some(a.text) else None
  }

  lemma LeadSnoc(atoms: seq<Atom>, a: Atom)
    ensures Lead(atoms + [a]) ==
            if Lead(atoms).Some? then Lead(atoms) else if a.Briefing? then Some(a.text) else None
  {
    assert (atoms + [a])[..|atoms|] == atoms;
  }

  ghost predicate NoBriefing(atoms: seq<Atom>) { forall j | 0 <= j < |atoms| :: !atoms[j].Briefing? }

  lemma {:induction false} LeadPast(atoms: seq<Atom>, more: seq<Atom>)
    requires NoBriefing(more)
    ensures Lead(atoms + more) == Lead(atoms)
    decreases |more|
  {
    if more == [] {
      assert atoms + more == atoms;
    } else {
      var n := |more| - 1;
      assert atoms + more == (atoms + more[..n]) + [more[n]];
      LeadSnoc(atoms + more[..n], more[n]);
      LeadPast(atoms, more[..n]);
    }
  }

  lemma {:induction false} BlocksDoNotBrief(role: Role, bs: seq<Block>, n: nat)
    requires n <= |bs|
    ensures NoBriefing(BlockAtoms(role, bs, n))
    decreases n
  {
    if n > 0 {
      BlocksDoNotBrief(role, bs, n - 1);
    }
  }

  lemma {:induction false} CallsDoNotBrief(calls: seq<Call>, n: nat)
    requires n <= |calls|
    ensures NoBriefing(CallAtoms(calls, n))
    decreases n
  {
    if n > 0 {
      CallsDoNotBrief(calls, n - 1);
    }
  }

  lemma OthersDoNotBrief(env: Env, m: Message)
    requires m.role != System && m.role != Developer
    ensures NoBriefing(Atoms(env, m))
  {
    if m.content.Blocks? {
      BlocksDoNotBrief(m.role, m.content.blocks, |m.content.blocks|);
    }
    CallsDoNotBrief(m.calls, |m.calls|);
  }

  ghost function TextOf(b: Option<string>): string { if b.Some? then b.value else "" }

  ghost predicate Briefed(s: Forward, brief: Option<string>) {
    s.briefed == brief.Some? && s.instructions == TextOf(brief)
  }

  lemma {:induction false} AddCallsFrame(env: Env, s: Forward, calls: seq<Call>, n: nat)
    requires n <= |calls|
    ensures var t := AddCalls(env, s, calls, n); t.instructions == s.instructions && t.briefed == s.briefed
    decreases n
  {
    if n > 0 {
      AddCallsFrame(env, s, calls, n - 1);
    }
  }

  lemma BriefedNext(env: Env, ms: seq<Message>, n: nat)
    requires n < |ms| && Briefed(Forth(env, ms, n), Lead(FlattenTo(env, ms, n)))
    ensures Briefed(Forth(env, ms, n + 1), Lead(FlattenTo(env, ms, n + 1)))
  {
    var s, m, pre := Forth(env, ms, n), ms[n], FlattenTo(env, ms, n);
    if m.role == System || m.role == Developer {
      LeadSnoc(pre, Briefing(InstructionText(m.content)));
    } else {
      OthersDoNotBrief(env, m);
      LeadPast(pre, Atoms(env, m));
      if m.role == Assistant {
        AddCallsFrame(env, AddContent(AddReasoning(s, m), m), m.calls, |m.calls|);
      }
    }
  }

  lemma ForthBriefs(env: Env, ms: seq<Message>)
    ensures Briefed(Forth(env, ms, |ms|), Lead(Flatten(env, ms)))
  {
    for n := 0 to |ms|
      invariant Briefed(Forth(env, ms, n), Lead(FlattenTo(env, ms, n)))
    {
      BriefedNext(env, ms, n);
    }
  }

  // ---- whether anything is sent ----

  /** An assistant message with something to say about its reasoning. */
  predicate Thinks(m: Message) { m.role == Assistant && (Trim(m.reasoning) != "" || m.encrypted != "") }

  ghost predicate AnyThinks(ms: seq<Message>, n: nat)
    requires n <= |ms|
  {
    exists j :: 0 <= j < n && Thinks(ms[j])
  }

  /** Something was sent exactly if it says something or carries reasoning. */
  ghost predicate SentIff(env: Env, s: Forward, thinks: bool) {
    s.input != [] <==> ItemsAtoms(env, s.input) != [] || thinks
  }

  lemma {:induction false} PartAtomsCount(role: Role, parts: seq<Part>, n: nat)
    requires n <= |parts|
    ensures |PartAtoms(role, parts, n)| == n
    decreases n
  {
    if n > 0 {
      PartAtomsCount(role, parts, n - 1);
    }
  }

  lemma ReasoningSent(env: Env, s: Forward, m: Message, thinks: bool)
    requires SentIff(env, s, thinks)
    ensures SentIff(env, AddReasoning(s, m), thinks || Thinks(m))
  {
    ItemsSnoc(env, s.input, Reasoning(if Trim(m.reasoning) == "" then "" else m.reasoning, m.encrypted));
  }

  lemma ContentSent(env: Env, s: Forward, m: Message, thinks: bool)
    requires SentIff(env, s, thinks) && (m.role == User || m.role == Assistant)
    ensures SentIff(env, AddContent(s, m), thinks)
  {
    var parts := ContentParts(m.role, m.content);
    if parts != [] {
      ItemsSnoc(env, s.input, MessageItem(m.role, parts));
      PartsSay(env, m.role, parts);
      PartAtomsCount(m.role, parts, |parts|);
    }
  }

  lemma CallSent(env: Env, s: Forward, c: Call, thinks: bool)
    requires SentIff(env, s, thinks)
    ensures SentIff(env, AddCall(env, s, c), thinks)
  {
    var name := Trim(c.name);
    if name != "" {
      CutNameStays(c.name);
      var id, cut, args := ClampId(env, c.id, s.minted), Clip(name, MAX_NAME), CoerceArgs(env, c.args);
      ItemsSnoc(env, s.input, FunctionCall(id, cut, Some(args)));
      assert ItemAtoms(env, FunctionCall(id, cut, Some(args))) == [Called(id, cut, args)];
    }
  }

  lemma {:induction false} CallsSent(env: Env, s: Forward, calls: seq<Call>, n: nat, thinks: bool)
    requires n <= |calls| && SentIff(env, s, thinks)
    ensures SentIff(env, AddCalls(env, s, calls, n), thinks)
    decreases n
  {
    if n > 0 {
      CallsSent(env, s, calls, n - 1, thinks);
      CallSent(env, AddCalls(env, s, calls, n - 1), calls[n - 1], thinks);
    }
  }

  lemma OutputSent(env: Env, s: Forward, m: Message, thinks: bool)
    requires SentIff(env, s, thinks)
    ensures SentIff(env, AddOutput(env, s, m), thinks)
  {
    ItemsSnoc(env, s.input, FunctionOutput(ClampId(env, m.callId, s.minted), Some(CoerceOutput(env, m.content))));
  }

  lemma StepSent(env: Env, s: Forward, m: Message, thinks: bool)
    requires SentIff(env, s, thinks)
    ensures SentIff(env, ForthStep(env, s, m), thinks || Thinks(m))
  {
    match m.role
    case User => ContentSent(env, s, m, thinks);
    case Assistant =>
      var now := thinks || Thinks(m);
      ReasoningSent(env, s, m, thinks);
      ContentSent(env, AddReasoning(s, m), m, now);
      CallsSent(env, AddContent(AddReasoning(s, m), m), m.calls, |m.calls|, now);
    case Tool => OutputSent(env, s, m, thinks);
    case _ =>
  }

  lemma SentNext(env: Env, ms: seq<Message>, n: nat)
    requires n < |ms| && SentIff(env, Forth(env, ms, n), AnyThinks(ms, n))
    ensures SentIff(env, Forth(env, ms, n + 1), AnyThinks(ms, n + 1))
  {
    StepSent(env, Forth(env, ms, n), ms[n], AnyThinks(ms, n));
    if AnyThinks(ms, n) {
      var j :| 0 <= j < n && Thinks(ms[j]);
      assert 0 <= j < n + 1 && Thinks(ms[j]);
    }
    if Thinks(ms[n]) {
      assert 0 <= n < n + 1 && Thinks(ms[n]);
    }
  }

  lemma ForthSent(env: Env, ms: seq<Message>)
    ensures SentIff(env, Forth(env, ms, |ms|), AnyThinks(ms, |ms|))
  {
    for n := 0 to |ms|
      invariant SentIff(env, Forth(env, ms, n), AnyThinks(ms, n))
    {
      SentNext(env, ms, n);
    }
  }

  // ---- the round trip ----

  /** A Chat conversation translated to Responses and back. */
  ghost function RoundTrip(env: Env, ms: seq<Message>): seq<Message> {
    var f := Forth(env, ms, |ms|);
    Back(Listed(f.input), f.instructions).value
  }

  lemma PlaceholderSays(env: Env)
    ensures ItemsAtoms(env, [PLACEHOLDER]) == [Said(User, "...")]
  {
    ItemsSnoc(env, [], PLACEHOLDER);
    assert [] + [PLACEHOLDER] == [PLACEHOLDER];
    PartsSay(env, User, PLACEHOLDER.parts);
    assert PartAtoms(User, PLACEHOLDER.parts, 1) == PartAtoms(User, PLACEHOLDER.parts, 0) + [Said(User, "...")];
  }

  /** What is left of a conversation to send, besides its briefing and its reasoning. */
  ghost function Sent(env: Env, ms: seq<Message>): seq<Atom> { Normals(env, Flatten(env, ms)).atoms }

  /**
   * For every conversation, the round trip says the first briefing, unless it is blank, and then the normal form of
   * everything else, in order; or the placeholder, when nothing is left and no reasoning is carried.
   */
  lemma RoundTripNormalizes(env: Env, ms: seq<Message>)
    ensures Flatten(env, RoundTrip(env, ms)) ==
            Headline(TextOf(Lead(Flatten(env, ms)))) +
            if Sent(env, ms) == [] && !AnyThinks(ms, |ms|) then [Said(User, "...")] else Sent(env, ms)
  {
    var f := Forth(env, ms, |ms|);
    ForthNormalizes(env, ms);
    ForthBriefs(env, ms);
    ForthSent(env, ms);
    PlaceholderSays(env);
    BackSaysTheItems(env, if f.input == [] then [PLACEHOLDER] else f.input, f.instructions);
  }

  // ---- when the round trip changes nothing ----

  /** The transcript after a leading briefing. */
  ghost function Body(atoms: seq<Atom>): seq<Atom> {
    if atoms != [] && atoms[0].Briefing? then atoms[1..] else atoms
  }

  /** At most one briefing, first and not blank; no message of another role; the rest within the limits. */
  ghost predicate Tidy(env: Env, atoms: seq<Atom>) {
    (atoms != [] && atoms[0].Briefing? ==> atoms[0].text != "") && AllFaithful(env, Body(atoms))
  }

  lemma {:induction false} BriefingSetAside(env: Env, b: Atom, rest: seq<Atom>)
    requires b.Briefing?
    ensures Normals(env, [b] + rest) == Normals(env, rest)
    decreases |rest|
  {
    if rest == [] {
      assert [b] + rest == [] + [b];
      NormalsSnoc(env, [], b);
    } else {
      var n := |rest| - 1;
      assert [b] + rest == ([b] + rest[..n]) + [rest[n]] && rest == rest[..n] + [rest[n]];
      NormalsSnoc(env, [b] + rest[..n], rest[n]);
      NormalsSnoc(env, rest[..n], rest[n]);
      BriefingSetAside(env, b, rest[..n]);
    }
  }

  lemma {:induction false} LeadIsFirst(b: Atom, rest: seq<Atom>)
    requires b.Briefing?
    ensures Lead([b] + rest) == Some(b.text)
    decreases |rest|
  {
    if rest == [] {
      assert [b] + rest == [] + [b];
      LeadSnoc([], b);
    } else {
      var n := |rest| - 1;
      assert [b] + rest == ([b] + rest[..n]) + [rest[n]];
      LeadSnoc([b] + rest[..n], rest[n]);
      LeadIsFirst(b, rest[..n]);
    }
  }

  lemma {:induction false} FaithfulHasNoLead(env: Env, atoms: seq<Atom>)
    requires AllFaithful(env, atoms)
    ensures Lead(atoms) == None
  {
    if atoms != [] {
      FaithfulHasNoLead(env, atoms[..|atoms| - 1]);
    }
  }

  /** Briefing first, normal form after it: that is the transcript itself exactly if it is tidy. */
  lemma TidyIff(env: Env, atoms: seq<Atom>)
    requires Minting(env)
    ensures Headline(TextOf(Lead(atoms))) + Normals(env, atoms).atoms == atoms <==> Tidy(env, atoms)
    ensures Tidy(env, atoms) ==> Normals(env, atoms).atoms == Body(atoms)
  {
    if atoms != [] && atoms[0].Briefing? {
      var b, rest := atoms[0], atoms[1..];
      assert atoms == [b] + rest;
      BriefingSetAside(env, b, rest);
      LeadIsFirst(b, rest);
      NormalsIff(env, rest);
      FirstIff(b, rest, Normals(env, rest).atoms);
    } else {
      NormalsIff(env, atoms);
      if AllFaithful(env, atoms) {
        FaithfulHasNoLead(env, atoms);
        assert [] + atoms == atoms;
      } else if Headline(TextOf(Lead(atoms))) == [] {
        assert [] + Normals(env, atoms).atoms == Normals(env, atoms).atoms;
      } else {
        assert (Headline(TextOf(Lead(atoms))) + Normals(env, atoms).atoms)[0].Briefing?;
      }
    }
  }

  lemma FirstIff(b: Atom, rest: seq<Atom>, normal: seq<Atom>)
    requires b.Briefing? && |normal| <= |rest|
    ensures Headline(b.text) + normal == [b] + rest <==> b.text != "" && normal == rest
  {
    if b.text == "" {
      assert |Headline(b.text) + normal| < |[b] + rest|;
    } else {
      assert ([b] + normal)[1..] == normal && ([b] + rest)[1..] == rest;
    }
  }

  /**
   * The round trip keeps the whole transcript, briefing, texts, images, calls and results in order, exactly if the
   * transcript is tidy and there is something to send besides the briefing.
   */
  lemma RoundTripIff(env: Env, ms: seq<Message>)
    requires Minting(env)
    ensures var atoms := Flatten(env, ms);
            Flatten(env, RoundTrip(env, ms)) == atoms <==>
            Tidy(env, atoms) && (Body(atoms) != [] || AnyThinks(ms, |ms|))
  {
    var atoms := Flatten(env, ms);
    RoundTripNormalizes(env, ms);
    TidyIff(env, atoms);
    var head := Headline(TextOf(Lead(atoms)));
    if Sent(env, ms) == [] && !AnyThinks(ms, |ms|) {
      PlaceholderIsNew(env, head, atoms);
    }
  }

  /** A transcript that ends in the placeholder has something to send. */
  lemma PlaceholderIsNew(env: Env, head: seq<Atom>, atoms: seq<Atom>)
    requires Normals(env, atoms).atoms == []
    ensures head + [Said(User, "...")] != atoms
  {
    NormalsSnoc(env, head, Said(User, "..."));
    assert Normals(env, head + [Said(User, "...")]).atoms != [];
  }

  function Bare(role: Role, content: Content): Message { Message(role, content, "", "", [], "") }

  /** Later briefings and messages of other roles leave no trace. */
  lemma DroppedMessages(env: Env, first: Content, second: Content, other: Content)
    ensures RoundTrip(env, [Bare(System, first), Bare(System, second), Bare(OtherRole, other)]) ==
            RoundTrip(env, [Bare(System, first)])
  {
    var one, three := [Bare(System, first)], [Bare(System, first), Bare(System, second), Bare(OtherRole, other)];
    assert Forth(env, one, 1) == ForthStep(env, Forth(env, one, 0), one[0]);
    assert Forth(env, three, 1) == ForthStep(env, Forth(env, three, 0), three[0]);
    assert Forth(env, three, 3) == Forth(env, three, 2) == Forth(env, three, 1) == Forth(env, one, 1);
  }
}
