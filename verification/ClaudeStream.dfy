/** OpenAI chat chunks to Claude events (internal/translate/claude/stream.go), as a state machine on
    values. `State` holds the fields of `StreamState` plus its history: the event trace it has emitted
    and a log of what it accepted, against which conservation is stated. */
module ClaudeStream {
  import opened Basics
  import opened ClaudeEvents
  import opened ClaudeBlocks
  import OrphanInvoke
  import EnsureIds

  const HOLD_TAIL: nat := 128
  const HOLD_MAX: nat := 32 * 1024

  /** Text-level operations whose insides are not modelled, and the random ids of recovered calls. */
  datatype Codec = Codec(
    scanner: OrphanInvoke.Scanner,
    cleanText: string -> string,      // SanitizeAssistantText
    repairArgs: string -> string,     // repairToolArgs
    cleanArgs: string -> string,      // SanitizeToolArgs
    couldOpen: string -> bool,        // couldBeInvokeOpener
    hasOpener: string -> bool,        // HasInvokeOpener
    orphanId: nat -> string           // RandomID(8), for the call recovered into a given block
  )

  /** One object of a `tool_calls` delta. */
  datatype ToolDelta = ToolDelta(index: int, id: string, name: string, args: string)

  /** A decoded chunk. `Choice` is one whose first choice is an object; the other shapes carry none.
      `junk` says that the list of tool calls has entries that are no objects; they are skipped. */
  datatype Chunk =
    | NoChoice(usage: Option<Usage>)
    | MalformedChoice
    | Choice(reasoning: string, reasoningContent: string, content: string, tools: seq<ToolDelta>, junk: bool,
             finish: string, usage: Option<Usage>)

  datatype ToolInfo = ToolInfo(id: string, name: string, block: int)

  /** A stretch of raw content handed to the text handler, and whether it went through the sanitizer. */
  datatype Piece = Piece(raw: string, sanitized: bool)

  /** History: fragments accepted by the text and reasoning handlers, stretches of raw content
      forwarded, all content and all reasoning received, and every tool delta handled. */
  datatype Log = Log(accepted: seq<Fragment>, pieces: seq<Piece>, content: string, thoughts: seq<string>,
                     tools: seq<ToolDelta>)

  datatype State = State(
    board: Board,
    calls: map<int, ToolInfo>,
    bufs: map<int, string>,
    pending: seq<Fragment>,
    hold: string,
    orphanRecovered: bool,
    nativeSeen: bool,
    usage: Option<Usage>,
    finishReason: string,
    finishSent: bool,
    closed: bool,
    outputLen: nat,
    seenIds: map<string, nat>,
    log: Log)

  const BlankBoard: Board := Board(false, 0, false, 0, false, 0, [], Empty)

  const Init: State := State(BlankBoard, map[], map[], [], "", false, false, None, "", false, false, 0, map[],
                             Log([], [], "", [], []))

  const NoUsage: Usage := Usage(0, 0, 0, 0)

  function StartMessage(s: State): State {
    s.(board := Start(s.board, if s.usage.Some? then s.usage.value else NoUsage))
  }

  /** A fragment that arrives behind an open tool block waits; otherwise it streams at once. */
  function Handle(s: State, f: Fragment): State {
    if s.board.openTools != [] then s.(pending := s.pending + [f], outputLen := s.outputLen + |f.text|)
    else s.(board := Write(s.board, f), outputLen := s.outputLen + |f.text|)
  }

  /** Accepting a fragment: handle it and remember it. */
  function Accept(s: State, f: Fragment): State {
    Handle(s.(log := s.log.(accepted := s.log.accepted + [f])), f)
  }

  /** The fragment a raw stretch turns into, if any. */
  function Cleaned(c: Codec, p: Piece): seq<Fragment> {
    if !p.sanitized then [TextFragment(p.raw)]
    else if c.cleanText(p.raw) == "" then []
    else [TextFragment(c.cleanText(p.raw))]
  }

  function Forward(c: Codec, s: State, p: Piece): State {
    var noted := s.(log := s.log.(pieces := s.log.pieces + [p]));
    if Cleaned(c, p) == [] then noted else Accept(noted, Cleaned(c, p)[0])
  }

  function ForwardProse(c: Codec, s: State, prose: string): State {
    Forward(c, s, Piece(prose, true))
  }

  // ----- Tool blocks -----

  function BeginTool(s: State, key: int, id: string, name: string, args: string): State {
    s.(board := StartTool(s.board, id, name),
       calls := s.calls[key := ToolInfo(id, name, s.board.nextBlock)],
       bufs := s.bufs[key := args])
  }

  /** Registers a recovered call like a native one, under a key no upstream index uses. */
  function EmitOrphan(c: Codec, s: State, call: OrphanInvoke.Call): State {
    var key := -(s.board.nextBlock + 1);
    var id := "toolu_" + c.orphanId(s.board.nextBlock);
    var o := BeginTool(s, key, id, call.name, call.input);
    o.(orphanRecovered := true,
       outputLen := o.outputLen + |call.input|,
       finishReason := if o.finishReason == "" || o.finishReason == "stop" then "tool_calls" else o.finishReason,
       log := o.log.(tools := o.log.tools + [ToolDelta(key, id, call.name, call.input)]))
  }

  function EmitOrphans(c: Codec, s: State, calls: seq<OrphanInvoke.Call>): State
    decreases |calls|
  {
    if calls == [] then s else EmitOrphan(c, EmitOrphans(c, s, calls[..|calls| - 1]), calls[|calls| - 1])
  }

  /** An id met before gets the next number behind it. */
  function UniqueId(s: State, id: string): string {
    if id in s.seenIds then id + "_" + EnsureIds.Decimal(s.seenIds[id]) else id
  }

  function NoteId(s: State, id: string): State {
    s.(seenIds := s.seenIds[id := if id in s.seenIds then s.seenIds[id] + 1 else 1])
  }

  function RegisterTool(s: State, d: ToolDelta): State {
    if d.id == "" || d.index in s.calls then s
    else BeginTool(NoteId(s, d.id), d.index, UniqueId(s, d.id), d.name, "")
  }

  /** A new index with an id opens a block; arguments go to the buffer of their index, if it has one. */
  function HandleTool(c: Codec, s: State, d: ToolDelta): State {
    var r := RegisterTool(s, d);
    r.(bufs := if d.index in r.bufs then r.bufs[d.index := r.bufs[d.index] + d.args] else r.bufs,
       outputLen := r.outputLen + |d.args|,
       log := s.log.(tools := s.log.tools + [d]))
  }

  function HandleTools(c: Codec, s: State, ds: seq<ToolDelta>): State
    decreases |ds|
  {
    if ds == [] then s else HandleTool(c, HandleTools(c, s, ds[..|ds| - 1]), ds[|ds| - 1])
  }

  /** The call under `key` renders into `block`; at most one does. */
  predicate Renders(s: State, key: int, block: int) {
    key in s.calls && s.calls[key].block == block
  }

  /** What the client gets for a call's buffered arguments: nothing, or all of them, repaired. */
  function FinalArgs(c: Codec, buffered: string): Option<string> {
    if buffered == "" then None else Some(c.cleanArgs(c.repairArgs(buffered)))
  }

  ghost function ArgsFor(c: Codec, s: State, block: int): Option<string> {
    if key :| Renders(s, key, block) && key in s.bufs then FinalArgs(c, s.bufs[key]) else None
  }

  /** The final arguments of every open tool block, in order of opening. */
  ghost function AllArgs(c: Codec, s: State): (args: seq<Option<string>>)
    ensures |args| == |s.board.openTools|
    ensures forall n :: 0 <= n < |args| ==> args[n] == ArgsFor(c, s, s.board.openTools[n])
  {
    var open := s.board.openTools;
    seq(|open|, n requires 0 <= n < |open| => ArgsFor(c, s, open[n]))
  }

  ghost function CloseTools(c: Codec, s: State): State {
    s.(board := StopTools(s.board, AllArgs(c, s)), calls := map[], bufs := map[])
  }

  function TotalLength(fs: seq<Fragment>): nat {
    if fs == [] then 0 else TotalLength(fs[..|fs| - 1]) + |fs[|fs| - 1].text|
  }

  /** Replays pended fragments in arrival order; runs only when no tool block is open. The replayed
      text is counted a second time, as it was when it was pended. */
  function FlushPending(s: State): State {
    s.(board := WriteAll(s.board, s.pending), pending := [], outputLen := s.outputLen + TotalLength(s.pending))
  }

  // ----- The hold-back buffer -----

  /** The first '<' whose suffix could still grow into an invoke opener, or -1. */
  function FirstPlausible(c: Codec, buf: string, from: nat): (i: int)
    requires from <= |buf|
    ensures i == -1 || (from <= i < |buf| && buf[i] == '<' && c.couldOpen(buf[i..]))
    decreases |buf| - from
  {
    if from == |buf| then -1
    else if buf[from] == '<' && c.couldOpen(buf[from..]) then from
    else FirstPlausible(c, buf, from + 1)
  }

  function Recover(c: Codec, s: State, x: OrphanInvoke.Extraction): State {
    var o := if x.prose != "" && !s.orphanRecovered then ForwardProse(c, s, x.prose) else s;
    EmitOrphans(c, o, x.calls)
  }

  /** Extracts complete invoke blocks until none is left. */
  function Drain(c: Codec, s: State): State
    decreases |s.hold|
  {
    var x := OrphanInvoke.ExtractSpec(c.scanner, s.hold);
    if x.calls == [] then s else Drain(c, Recover(c, s, x).(hold := x.rest))
  }

  /** How much of the buffer leaves once nothing can be extracted. */
  function HeadLength(c: Codec, buf: string): (n: nat)
    ensures n <= |buf|
  {
    var i := FirstPlausible(c, buf, 0);
    if i < 0 then |buf|
    else if i > 0 || |buf| > HOLD_MAX then Max(i, |buf| - HOLD_TAIL)
    else 0
  }

  function Settle(c: Codec, s: State): State {
    var n := HeadLength(c, s.hold);
    var o := s.(hold := s.hold[n..]);
    if n == 0 || s.orphanRecovered then o else ForwardProse(c, o, s.hold[..n])
  }

  function HoldText(c: Codec, s: State, text: string): State {
    var o := s.(log := s.log.(content := s.log.content + text));
    if s.nativeSeen then Forward(c, o, Piece(text, false))
    else Settle(c, Drain(c, o.(hold := s.hold + text)))
  }

  function FlushHold(c: Codec, s: State, extract: bool, dropTrailing: bool): State {
    if s.hold == "" then s else
      var o := s.(hold := "");
      var x := OrphanInvoke.ExtractSpec(c.scanner, s.hold);
      if !extract then ForwardProse(c, o, s.hold)
      else if x.calls == [] then
        if dropTrailing && s.orphanRecovered && FirstPlausible(c, s.hold, 0) < 0 then o
        else ForwardProse(c, o, s.hold)
      else
        var r := Recover(c, o, x);
        if x.rest == "" then r
        else if !dropTrailing then r.(hold := x.rest)
        else if c.hasOpener(x.rest) then ForwardProse(c, r, x.rest)
        else r
  }

  // ----- Chunks and the end of the stream -----

  function Reason(c: Codec, s: State, text: string): State {
    var f := FlushHold(c, s, true, false);
    var o := f.(log := f.log.(thoughts := f.log.thoughts + [text]));
    if c.cleanText(text) == "" then o else Accept(o, ReasoningFragment(c.cleanText(text)))
  }

  /** Reasoning comes first and drains the held text; the canonical field wins over the old one. */
  function ReasonDelta(c: Codec, s: State, k: Chunk): State
    requires k.Choice?
  {
    if k.reasoning != "" then Reason(c, s, k.reasoning)
    else if k.reasoningContent != "" then Reason(c, s, k.reasoningContent)
    else s
  }

  function ContentDelta(c: Codec, s: State, text: string): State {
    if text == "" then s else HoldText(c, s, text)
  }

  /** Native tool calls win: held text leaves as plain prose and the hold-back is off from now on. */
  function ToolsDelta(c: Codec, s: State, ds: seq<ToolDelta>, junk: bool): State {
    if ds == [] && !junk then s else HandleTools(c, FlushHold(c, s, false, false).(nativeSeen := true), ds)
  }

  function Deltas(c: Codec, s: State, k: Chunk): State
    requires k.Choice?
  {
    ToolsDelta(c, ContentDelta(c, ReasonDelta(c, s, k), k.content), k.tools, k.junk)
  }

  predicate Finishes(k: Chunk) {
    k.Choice? && k.finish != "" && k.finish != "null"
  }

  function Finish(s: State, k: Chunk): State {
    if Finishes(k) && !s.finishSent then
      s.(finishReason := if s.finishReason == "tool_calls" then "tool_calls" else k.finish, finishSent := true)
    else s
  }

  function ProcessChunk(c: Codec, s: State, k: Chunk): State {
    match k
    case NoChoice(usage) =>
      if usage.None? then s
      else if s.board.startSent then s.(usage := usage)
      else StartMessage(s.(usage := usage))
    case MalformedChoice => s
    case Choice(_, _, _, _, _, _, usage) =>
      var o := if s.finishSent then s else Deltas(c, if s.board.startSent then s else StartMessage(s), k);
      Finish(if usage.Some? then o.(usage := usage) else o, k)
  }

  function ProcessChunks(c: Codec, s: State, ks: seq<Chunk>): State
    decreases |ks|
  {
    if ks == [] then s else ProcessChunk(c, ProcessChunks(c, s, ks[..|ks| - 1]), ks[|ks| - 1])
  }

  function MapFinishReason(reason: string): string {
    if reason == "length" then "max_tokens" else if reason == "tool_calls" then "tool_use" else "end_turn"
  }

  function FinalUsage(s: State): Usage {
    if s.usage.Some? then s.usage.value
    else if s.outputLen > 0 && s.outputLen / 4 == 0 then Usage(0, 1, 0, 0)
    else Usage(0, s.outputLen / 4, 0, 0)
  }

  function CloseProseOf(s: State): State {
    s.(board := CloseProse(s.board))
  }

  ghost function CloseBlocks(c: Codec, s: State): State {
    CloseProseOf(FlushPending(CloseTools(c, CloseProseOf(FlushHold(c, s, !s.nativeSeen, true)))))
  }

  function Tail(s: State): State {
    s.(board := Emit(Emit(s.board, MessageDelta(MapFinishReason(s.finishReason), FinalUsage(s))), MessageStop))
  }

  ghost function HandleFinish(c: Codec, s: State): State {
    Tail(CloseBlocks(c, s))
  }

  ghost function Finalize(c: Codec, s: State): State {
    if s.closed then s
    else if !s.finishSent then FlushHold(c, s, !s.nativeSeen, true).(closed := true)
    else HandleFinish(c, s).(closed := true)
  }

  /** A whole stream: every chunk, then the end of the upstream. */
  ghost function Stream(c: Codec, ks: seq<Chunk>): State {
    Finalize(c, ProcessChunks(c, Init, ks))
  }
}
