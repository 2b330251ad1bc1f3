/** Building Claude messages from an OpenAI history (`buildClaudeMessages` and its converters in
    internal/translate/claude/fromopenai.go). */
module ClaudeHistory {
  import opened Basics
  import opened ChatHistory
  import EnsureIds

  datatype Block =
    | Text(text: string)
    | Image
    | ToolResult(id: string, text: string)
    | ToolUse(id: string, name: string, input: string)
    | Thinking(thinking: string, signature: string)

  datatype Side = UserSide | AssistantSide

  datatype Claude = Claude(role: Side, content: seq<Block>)

  /** Argument handling whose insides are not modelled: `splitToolArgs` (at least one part) and
      `parseToolArgs` (None for invalid JSON); `flatten` turns tool content into a string. */
  datatype Config = Config(split: string -> seq<string>, parse: string -> Option<string>, flatten: Content -> string)

  datatype Error = UnsupportedRole(name: string) | InvalidArguments

  // ----- One message to blocks -----

  function UserBlock(p: Part): seq<Block> {
    match p
    case TextPart(t) => if t == "" then [] else [Text(t)]
    case ToolResultPart(id, t) => [ToolResult(id, t)]
    case ImagePart(usable) => if usable then [Image] else []
    case ToolUsePart(_, _, _) => []
    case ThinkingPart(_, _) => []
    case OtherPart => []
  }

  function AssistantBlock(p: Part): seq<Block> {
    match p
    case TextPart(t) => if t == "" then [] else [Text(t)]
    case ToolUsePart(id, name, input) => [ToolUse(id, name, if input == "" then "{}" else input)]
    case ThinkingPart(t, s) => [Thinking(t, s)]
    case ToolResultPart(_, _) => []
    case ImagePart(_) => []
    case OtherPart => []
  }

  function UserBlocks(ps: seq<Part>): seq<Block> {
    if ps == [] then [] else UserBlocks(ps[..|ps| - 1]) + UserBlock(ps[|ps| - 1])
  }

  function AssistantBlocks(ps: seq<Part>): seq<Block> {
    if ps == [] then [] else AssistantBlocks(ps[..|ps| - 1]) + AssistantBlock(ps[|ps| - 1])
  }

  /** One call: a single argument object keeps the call's id; several become numbered tool uses. */
  function CallBlocks(g: Config, used: seq<string>, c: Call): Option<seq<Block>> {
    var parts := g.split(c.args);
    if |parts| <= 1 then
      match g.parse(c.args)
      case None => None
      case Some(input) => Some([ToolUse(c.id, c.name, input)])
    else
      match g.parse(parts[0])
      case None => None
      case Some(input) =>
        var base := EnsureIds.Count(used, c.id);
        Some([ToolUse(Numbered(c.id, base + 1), c.name, input)] +
             seq(|parts| - 1, k requires 0 <= k < |parts| - 1 =>
               ToolUse(Numbered(c.id, base + k + 2), c.name, ObjectOr(parts[k + 1]))))
  }

  function Numbered(id: string, n: nat): string {
    id + "_" + EnsureIds.Decimal(n)
  }

  function ObjectOr(part: string): string {
    if part == "" || part == "null" || part[0] != '{' then "{}" else part
  }

  /** The ids consumed by split parts so far, once per part. */
  function UsedIds(g: Config, cs: seq<Call>): seq<string> {
    if cs == [] then [] else
      var c := cs[|cs| - 1];
      var n := |g.split(c.args)|;
      UsedIds(g, cs[..|cs| - 1]) + if n <= 1 then [] else seq(n, _ => c.id)
  }

  function AllCallBlocks(g: Config, cs: seq<Call>): Option<seq<Block>> {
    if cs == [] then Some([]) else
      var front := cs[..|cs| - 1];
      match AllCallBlocks(g, front)
      case None => None
      case Some(bs) =>
        match CallBlocks(g, UsedIds(g, front), cs[|cs| - 1])
        case None => None
        case Some(more) => Some(bs + more)
  }

  function StrBlock(c: Content): seq<Block> {
    if c.Str? && c.text != "" then [Text(c.text)] else []
  }

  function Blocks(g: Config, m: Message): Result<seq<Block>, Error> {
    match m.role
    case Tool => Ok([ToolResult(m.callId, g.flatten(m.content))])
    case User => Ok(StrBlock(m.content) + UserBlocks(PartsOf(m)))
    case Assistant =>
      (match AllCallBlocks(g, m.calls)
       case None => Err(InvalidArguments)
       case Some(uses) => Ok(StrBlock(m.content) + AssistantBlocks(PartsOf(m)) + uses))
    case System => Err(UnsupportedRole("system"))
    case Unknown(name) => Err(UnsupportedRole(name))
  }

  // ----- The message walker -----

  datatype Builder = Builder(out: seq<Claude>, role: Option<Side>, blocks: seq<Block>)

  const Start: Builder := Builder([], None, [])

  function Flush(b: Builder): Builder {
    Builder(if b.role.Some? && b.blocks != [] then b.out + [Claude(b.role.value, b.blocks)] else b.out, None, [])
  }

  predicate AllResults(bs: seq<Block>) {
    forall b :: b in bs ==> b.ToolResult?
  }

  /** The blocks of one kind, in order. */
  function Results(bs: seq<Block>): (r: seq<Block>)
    ensures AllResults(r)
  {
    if bs == [] then [] else Results(bs[..|bs| - 1]) + if bs[|bs| - 1].ToolResult? then [bs[|bs| - 1]] else []
  }

  function Others(bs: seq<Block>): (r: seq<Block>)
    ensures forall b :: b in r ==> !b.ToolResult?
  {
    if bs == [] then [] else Others(bs[..|bs| - 1]) + if bs[|bs| - 1].ToolResult? then [] else [bs[|bs| - 1]]
  }

  predicate HasResult(bs: seq<Block>) {
    exists b :: b in bs && b.ToolResult?
  }

  predicate HasUse(bs: seq<Block>) {
    exists b :: b in bs && b.ToolUse?
  }

  /** `pushOrMergeToolResults`. */
  function PushResults(out: seq<Claude>, results: seq<Block>): seq<Claude> {
    if out != [] && out[|out| - 1].role == UserSide && AllResults(out[|out| - 1].content) then
      out[..|out| - 1] + [Claude(UserSide, out[|out| - 1].content + results)]
    else out + [Claude(UserSide, results)]
  }

  function SideOf(r: Role): Side {
    if r == Tool || r == User then UserSide else AssistantSide
  }

  function AddBlocks(b: Builder, side: Side, blocks: seq<Block>): Builder {
    if HasResult(blocks) then
      var out := PushResults(Flush(b).out, Results(blocks));
      if Others(blocks) == [] then Builder(out, None, []) else Builder(out, Some(side), Others(blocks))
    else
      var o := if b.role == Some(side) then b else Flush(b).(role := Some(side));
      var w := o.(blocks := o.blocks + blocks);
      if HasUse(blocks) then Flush(w) else w
  }

  function Step(g: Config, b: Builder, m: Message): Result<Builder, Error> {
    if m.role == System then Ok(b) else
      match Blocks(g, m)
      case Err(e) => Err(e)
      case Ok(blocks) => Ok(AddBlocks(b, SideOf(m.role), blocks))
  }

  function Walk(g: Config, b: Builder, ms: seq<Message>): Result<Builder, Error>
    decreases |ms|
  {
    if ms == [] then Ok(b) else
      match Step(g, b, ms[0])
      case Err(e) => Err(e)
      case Ok(next) => Walk(g, next, ms[1..])
  }

  function Build(g: Config, ms: seq<Message>): Result<seq<Claude>, Error> {
    match Walk(g, Start, ms)
    case Err(e) => Err(e)
    case Ok(b) => Ok(Flush(b).out)
  }

  method BuildClaudeMessages(g: Config, ms: seq<Message>) returns (r: Result<seq<Claude>, Error>)
    ensures r == Build(g, ms)
  {
    var out, currentRole: Option<Side>, currentBlocks: seq<Block> := [], None, [];
    for i := 0 to |ms|
      invariant Walk(g, Start, ms) == Walk(g, Builder(out, currentRole, currentBlocks), ms[i..])
    {
      var m, b := ms[i], Builder(out, currentRole, currentBlocks);
      assert ms[i..][0] == m && ms[i..][1..] == ms[i + 1..];
      if m.role != System {
        var blocks := Blocks(g, m);
        if blocks.Err? {
          return Err(blocks.error);
        }
        var next := AddBlocks(b, SideOf(m.role), blocks.value);
        out, currentRole, currentBlocks := next.out, next.role, next.blocks;
      }
    }
    assert ms[|ms|..] == [];
    return Ok(Flush(Builder(out, currentRole, currentBlocks)).out);
  }
}
