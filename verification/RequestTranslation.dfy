/** The two request translators: Chat messages to Responses items, and back. */
module RequestTranslation {
  import opened Config

  // ---- the two request formats ----

  datatype Role = System | Developer | User | Assistant | Tool | OtherRole

  datatype Block = Text(text: string) | Image(url: string, detail: string)

  datatype Content = Absent | Whole(text: string) | Blocks(blocks: seq<Block>)

  datatype Call = Call(id: string, name: string, args: string)

  /** A Chat message; fields a role does not have are empty. */
  datatype Message = Message(
    role: Role, content: Content, reasoning: string, encrypted: string, calls: seq<Call>, callId: string)

  datatype Part = TextPart(output: bool, text: string) | ImagePart(url: string, detail: string)

  datatype Item =
    | MessageItem(role: Role, parts: seq<Part>)
    | FunctionCall(callId: string, name: string, args: Option<string>)
    | FunctionOutput(callId: string, output: Option<string>)
    | Reasoning(summary: string, encrypted: string)
    | Ignored

  datatype Input = Missing | Plain(text: string) | Listed(items: seq<Item>)

  /** JSON validity, JSON text of a block, and the supply of synthesized call ids. */
  datatype Env = Env(valid: string -> bool, json: Block -> string, mint: nat -> string)

  const MAX_NAME := 128
  const MAX_CALL_ID := 64

  // ---- strings ----

  predicate IsSpace(c: char) { c == ' ' || '\t' <= c <= '\r' }

  function TrimLeft(s: string): string { if s != "" && IsSpace(s[0]) then TrimLeft(s[1..]) else s }

  function TrimRight(s: string): string {
    if s != "" && IsSpace(s[|s| - 1]) then TrimRight(s[..|s| - 1]) else s
  }

  function Trim(s: string): string { TrimRight(TrimLeft(s)) }

  function Clip(s: string, max: nat): string { if |s| > max then s[..max] else s }

  function ClampId(env: Env, id: string, minted: nat): string {
    if id == "" then env.mint(minted) else Clip(id, MAX_CALL_ID)
  }

  function CoerceArgs(env: Env, args: string): string {
    if args != "" && env.valid(args) then args else "{}"
  }

  function BlockText(env: Env, b: Block): string { if b.Text? then b.text else env.json(b) }

  function JoinBlocks(env: Env, bs: seq<Block>, n: nat): string
    requires n <= |bs|
  {
    if n == 0 then "" else JoinBlocks(env, bs, n - 1) + BlockText(env, bs[n - 1])
  }

  function CoerceOutput(env: Env, c: Content): string {
    match c
    case Absent => ""
    case Whole(t) => t
    case Blocks(bs) => JoinBlocks(env, bs, |bs|)
  }

  /** The non-empty texts, one per line. */
  function JoinLines(bs: seq<Block>, n: nat): string
    requires n <= |bs|
  {
    if n == 0 then ""
    else
      var sofar, b := JoinLines(bs, n - 1), bs[n - 1];
      if !b.Text? || b.text == "" then sofar else if sofar == "" then b.text else sofar + "\n" + b.text
  }

  function InstructionText(c: Content): string {
    match c
    case Absent => ""
    case Whole(t) => t
    case Blocks(bs) => JoinLines(bs, |bs|)
  }

  // ---- Chat to Responses ----

  datatype Forward = Forward(input: seq<Item>, instructions: string, briefed: bool, minted: nat)

  function PartOf(role: Role, b: Block): Part {
    match b
    case Text(t) => TextPart(role == Assistant, t)
    case Image(url, detail) => ImagePart(url, if detail == "" then "auto" else detail)
  }

  function PartsOf(role: Role, bs: seq<Block>, n: nat): seq<Part>
    requires n <= |bs|
  {
    if n == 0 then [] else PartsOf(role, bs, n - 1) + [PartOf(role, bs[n - 1])]
  }

  function ContentParts(role: Role, c: Content): seq<Part> {
    match c
    case Absent => []
    case Whole(t) => [TextPart(role == Assistant, t)]
    case Blocks(bs) => PartsOf(role, bs, |bs|)
  }

  function AddReasoning(s: Forward, m: Message): Forward {
    var summary := if Trim(m.reasoning) == "" then "" else m.reasoning;
    if m.role != Assistant || (summary == "" && m.encrypted == "") then s
    else s.(input := s.input + [Reasoning(summary, m.encrypted)])
  }

  function AddContent(s: Forward, m: Message): Forward {
    var parts := ContentParts(m.role, m.content);
    if parts == [] then s else s.(input := s.input + [MessageItem(m.role, parts)])
  }

  function AddCall(env: Env, s: Forward, c: Call): Forward {
    var name := Trim(c.name);
    if name == "" then s
    else
      var id := ClampId(env, c.id, s.minted);
      s.(input := s.input + [FunctionCall(id, Clip(name, MAX_NAME), Some(CoerceArgs(env, c.args)))],
         minted := s.minted + if c.id == "" then 1 else 0)
  }

  function AddCalls(env: Env, s: Forward, calls: seq<Call>, n: nat): Forward
    requires n <= |calls|
  {
    if n == 0 then s else AddCall(env, AddCalls(env, s, calls, n - 1), calls[n - 1])
  }

  function AddOutput(env: Env, s: Forward, m: Message): Forward {
    s.(input := s.input + [FunctionOutput(ClampId(env, m.callId, s.minted), Some(CoerceOutput(env, m.content)))],
       minted := s.minted + if m.callId == "" then 1 else 0)
  }

  function ForthStep(env: Env, s: Forward, m: Message): Forward {
    match m.role
    case System => if s.briefed then s else s.(instructions := InstructionText(m.content), briefed := true)
    case Developer => if s.briefed then s else s.(instructions := InstructionText(m.content), briefed := true)
    case User => AddContent(s, m)
    case Assistant => AddCalls(env, AddContent(AddReasoning(s, m), m), m.calls, |m.calls|)
    case Tool => AddOutput(env, s, m)
    case OtherRole => s
  }

  function Forth(env: Env, ms: seq<Message>, n: nat): Forward
    requires n <= |ms|
  {
    if n == 0 then Forward([], "", false, 0) else ForthStep(env, Forth(env, ms, n - 1), ms[n - 1])
  }

  method BuildParts(role: Role, bs: seq<Block>) returns (parts: seq<Part>)
    ensures parts == PartsOf(role, bs, |bs|)
  {
    parts := [];
    for n := 0 to |bs|
      invariant parts == PartsOf(role, bs, n)
    {
      parts := parts + [PartOf(role, bs[n])];
    }
  }

  /** The Chat request's messages as Responses input and instructions. */
  method ChatToResponses(env: Env, ms: seq<Message>) returns (s: Forward)
    ensures s == Forth(env, ms, |ms|)
  {
    s := Forward([], "", false, 0);
    for n := 0 to |ms|
      invariant s == Forth(env, ms, n)
    {
      s := TranslateMessage(env, s, ms[n]);
    }
  }

  method TranslateMessage(env: Env, s0: Forward, m: Message) returns (s: Forward)
    ensures s == ForthStep(env, s0, m)
  {
    s := s0;
    if m.role == System || m.role == Developer {
      if !s.briefed {
        s := s.(instructions := InstructionText(m.content), briefed := true);
      }
      return;
    }
    if m.role == User || m.role == Assistant {
      s := AddReasoning(s, m);
      var parts := [];
      match m.content {
        case Absent =>
        case Whole(t) => parts := [TextPart(m.role == Assistant, t)];
        case Blocks(bs) => parts := BuildParts(m.role, bs);
      }
      if |parts| > 0 {
        s := s.(input := s.input + [MessageItem(m.role, parts)]);
      }
    }
    if m.role == Assistant {
      ghost var s1 := s;
      for n := 0 to |m.calls|
        invariant s == AddCalls(env, s1, m.calls, n)
      {
        s := AddCall(env, s, m.calls[n]);
      }
    }
    if m.role == Tool {
      s := AddOutput(env, s, m);
    }
  }

  // ---- Responses to Chat ----

  /** Messages built so far, the assistant message still collecting calls, and reasoning not yet attached. */
  datatype Backward = Backward(out: seq<Message>, shell: Option<Message>, thought: string, secret: string)

  function BlockOf(p: Part): Block {
    match p
    case TextPart(_, t) => Text(t)
    case ImagePart(url, detail) => Image(url, if detail == "" then "auto" else detail)
  }

  function BlocksOf(parts: seq<Part>, n: nat): seq<Block>
    requires n <= |parts|
  {
    if n == 0 then [] else BlocksOf(parts, n - 1) + [BlockOf(parts[n - 1])]
  }

  function FlushShell(s: Backward): Backward {
    if s.shell.None? then s else s.(out := s.out + [s.shell.value], shell := None)
  }

  function BackMessage(s: Backward, role: Role, blocks: seq<Block>): Backward {
    var f := FlushShell(s);
    var (thought, secret) := if role == Assistant then (f.thought, f.secret) else ("", "");
    var m := Message(role, Blocks(blocks), thought, secret, [], "");
    f.(out := f.out + [m], thought := "", secret := "")
  }

  function OpenShell(s: Backward): Backward {
    if s.shell.Some? then s
    else s.(shell := Some(Message(Assistant, Absent, s.thought, s.secret, [], "")), thought := "", secret := "")
  }

  function BackCall(s: Backward, callId: string, name: string, args: Option<string>): Backward {
    var o := OpenShell(s);
    if Trim(name) == "" then o
    else
      var c := Call(callId, name, if args.Some? then args.value else "{}");
      o.(shell := Some(o.shell.value.(calls := o.shell.value.calls + [c])))
  }

  function BackOutput(s: Backward, callId: string, output: Option<string>): Backward {
    var f := FlushShell(s);
    f.(out := f.out + [Message(Tool, if output.Some? then Whole(output.value) else Absent, "", "", [], callId)])
  }

  function BackReasoning(s: Backward, summary: string, encrypted: string): Backward {
    s.(thought := if summary == "" then s.thought else if s.thought == "" then summary else s.thought + "\n" + summary,
       secret := if encrypted == "" then s.secret else encrypted)
  }

  function BackStep(s: Backward, item: Item): Backward {
    match item
    case MessageItem(role, parts) => BackMessage(s, role, BlocksOf(parts, |parts|))
    case FunctionCall(callId, name, args) => BackCall(s, callId, name, args)
    case FunctionOutput(callId, output) => BackOutput(s, callId, output)
    case Reasoning(summary, encrypted) => BackReasoning(s, summary, encrypted)
    case Ignored => s
  }

  function BackTo(start: seq<Message>, items: seq<Item>, n: nat): Backward
    requires n <= |items|
  {
    if n == 0 then Backward(start, None, "", "") else BackStep(BackTo(start, items, n - 1), items[n - 1])
  }

  const PLACEHOLDER := MessageItem(User, [TextPart(false, "...")])

  /** The input as a list; an empty list or a blank text becomes a placeholder message. */
  function Normalized(input: Input): seq<Item> {
    match input
    case Missing => []
    case Plain(t) => [MessageItem(User, [TextPart(false, if Trim(t) == "" then "..." else t)])]
    case Listed(items) => if items == [] then [PLACEHOLDER] else items
  }

  function Heading(instructions: string): seq<Message> {
    if instructions == "" then [] else [Message(System, Whole(instructions), "", "", [], "")]
  }

  /** The messages, or None when the body has no input and is passed on untranslated. */
  function Back(input: Input, instructions: string): Option<seq<Message>> {
    if input.Missing? || input == Plain("") then None
    else
      var items := Normalized(input);
      Some(FlushShell(BackTo(Heading(instructions), items, |items|)).out)
  }

  method BuildBlocks(parts: seq<Part>) returns (blocks: seq<Block>)
    ensures blocks == BlocksOf(parts, |parts|)
  {
    blocks := [];
    for n := 0 to |parts|
      invariant blocks == BlocksOf(parts, n)
    {
      blocks := blocks + [BlockOf(parts[n])];
    }
  }

  /** The Responses request's input and instructions as Chat messages. */
  method ResponsesToChat(input: Input, instructions: string) returns (r: Option<seq<Message>>)
    ensures r == Back(input, instructions)
  {
    if input.Missing? || input == Plain("") {
      return None;
    }
    var items := Normalized(input);
    var out := Heading(instructions);
    var shell: Option<Message> := None;
    var thought, secret := "", "";
    for n := 0 to |items|
      invariant Backward(out, shell, thought, secret) == BackTo(Heading(instructions), items, n)
    {
      match items[n] {
        case MessageItem(role, parts) =>
          if shell.Some? {
            out, shell := out + [shell.value], None;
          }
          var blocks := BuildBlocks(parts);
          var m := Message(role, Blocks(blocks), "", "", [], "");
          if role == Assistant {
            m := m.(reasoning := thought, encrypted := secret);
          }
          thought, secret := "", "";
          out := out + [m];
        case FunctionCall(callId, name, args) =>
          if shell.None? {
            shell := Some(Message(Assistant, Absent, thought, secret, [], ""));
            thought, secret := "", "";
          }
          if Trim(name) != "" {
            var c := Call(callId, name, if args.Some? then args.value else "{}");
            shell := Some(shell.value.(calls := shell.value.calls + [c]));
          }
        case FunctionOutput(callId, output) =>
          if shell.Some? {
            out, shell := out + [shell.value], None;
          }
          out := out + [Message(Tool, if output.Some? then Whole(output.value) else Absent, "", "", [], callId)];
        case Reasoning(summary, encrypted) =>
          if summary != "" {
            thought := if thought == "" then summary else thought + "\n" + summary;
          }
          if encrypted != "" {
            secret := encrypted;
          }
        case Ignored =>
      }
    }
    if shell.Some? {
      out := out + [shell.value];
    }
    return Some(out);
  }
}
