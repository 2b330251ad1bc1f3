/** The block ledger of the OpenAI to Claude translator: which content blocks are open, the next free
    index and the events emitted so far (the block fields of `StreamState` in
    internal/translate/claude/stream.go), with the operations that open, fill and stop blocks. */
module ClaudeBlocks {
  import opened Basics
  import opened ClaudeEvents

  datatype Fragment = TextFragment(text: string) | ReasoningFragment(text: string)

  datatype Board = Board(
    startSent: bool,
    nextBlock: nat,
    textOpen: bool, textIndex: int,
    thinkingOpen: bool, thinkingIndex: int,
    openTools: seq<int>,
    trace: Trace)

  function Emit(b: Board, e: Event): Board {
    b.(trace := Snoc(b.trace, e))
  }

  function Start(b: Board, usage: Usage): Board {
    Emit(b, MessageStart(usage)).(startSent := true)
  }

  function CloseText(b: Board): (o: Board)
    ensures o.startSent == b.startSent && o.openTools == b.openTools
  {
    if b.textOpen then Emit(b, BlockStop(b.textIndex)).(textOpen := false) else b
  }

  function CloseThinking(b: Board): (o: Board)
    ensures o.startSent == b.startSent && o.openTools == b.openTools
  {
    if b.thinkingOpen then
      Emit(Emit(b, BlockDelta(b.thinkingIndex, SignatureDelta)), BlockStop(b.thinkingIndex)).(thinkingOpen := false)
    else b
  }

  function OpenTextBlock(b: Board): (o: Board)
    ensures o.startSent == b.startSent && o.openTools == b.openTools
  {
    if b.textOpen then b else
      Emit(b, BlockStart(b.nextBlock, TextBlock)).(textOpen := true, textIndex := b.nextBlock,
                                                   nextBlock := b.nextBlock + 1)
  }

  function OpenThinkingBlock(b: Board): (o: Board)
    ensures o.startSent == b.startSent && o.openTools == b.openTools
  {
    if b.thinkingOpen then b else
      Emit(b, BlockStart(b.nextBlock, ThinkingBlock))
        .(thinkingOpen := true, thinkingIndex := b.nextBlock, nextBlock := b.nextBlock + 1)
  }

  function WriteText(b: Board, text: string): (o: Board)
    ensures o.startSent == b.startSent && o.openTools == b.openTools
  {
    var w := OpenTextBlock(CloseThinking(b));
    Emit(w, BlockDelta(w.textIndex, TextDelta(text)))
  }

  function WriteThinking(b: Board, text: string): (o: Board)
    ensures o.startSent == b.startSent && o.openTools == b.openTools
  {
    var w := OpenThinkingBlock(CloseText(b));
    Emit(w, BlockDelta(w.thinkingIndex, ThinkingDelta(text)))
  }

  function Write(b: Board, f: Fragment): (o: Board)
    ensures o.startSent == b.startSent && o.openTools == b.openTools
  {
    if f.TextFragment? then WriteText(b, f.text) else WriteThinking(b, f.text)
  }

  function CloseProse(b: Board): (o: Board)
    ensures o.startSent == b.startSent && o.openTools == b.openTools
  {
    CloseThinking(CloseText(b))
  }

  function StartTool(b: Board, id: string, name: string): Board {
    var q := CloseProse(b);
    Emit(q, BlockStart(q.nextBlock, ToolBlock(id, name)))
      .(nextBlock := q.nextBlock + 1, openTools := q.openTools + [q.nextBlock])
  }

  /** Stops the first open tool block, after its arguments if it has any. */
  function StopTool(b: Board, args: Option<string>): Board
    requires b.openTools != []
  {
    var block := b.openTools[0];
    var o := if args.Some? then Emit(b, BlockDelta(block, InputJsonDelta(args.value))) else b;
    Emit(o, BlockStop(block)).(openTools := b.openTools[1..])
  }

  /** Stops every open tool block in order of opening, each after its arguments if it has any. */
  function StopTools(b: Board, args: seq<Option<string>>): (o: Board)
    requires |args| == |b.openTools|
    ensures o.startSent == b.startSent && o.openTools == []
    decreases |args|
  {
    if args == [] then b else StopTools(StopTool(b, args[0]), args[1..])
  }

  function WriteAll(b: Board, fs: seq<Fragment>): (o: Board)
    ensures o.startSent == b.startSent && o.openTools == b.openTools
    decreases |fs|
  {
    if fs == [] then b else Write(WriteAll(b, fs[..|fs| - 1]), fs[|fs| - 1])
  }

  // ----- What a trace shows -----

  /** The monitor's phase, the prose (text and thinking deltas), the tool blocks opened and the
      argument deltas with their blocks, each in order of emission. */
  datatype View = View(phase: Phase, prose: seq<Fragment>, tools: seq<int>, inputs: seq<(int, string)>)

  function See(t: Trace): View {
    match t
    case Empty => View(Fresh, [], [], [])
    case Snoc(init, e) => Observe(See(init), e)
  }

  function Observe(v: View, e: Event): View {
    View(Step(v.phase, e), v.prose + ProseOf(e),
         v.tools + if e.BlockStart? && e.kind.ToolBlock? then [e.index] else [],
         v.inputs + if e.BlockDelta? && e.body.InputJsonDelta? then [(e.index, e.body.json)] else [])
  }

  function ProseOf(e: Event): seq<Fragment> {
    if e.BlockDelta? && e.body.TextDelta? then [TextFragment(e.body.text)]
    else if e.BlockDelta? && e.body.ThinkingDelta? then [ReasoningFragment(e.body.text)]
    else []
  }

  lemma {:induction false} SeePhase(t: Trace)
    ensures See(t).phase == Run(Events(t))
  {
    match t
    case Empty =>
    case Snoc(init, last) =>
      SeePhase(init);
      RunSnoc(Events(init), last);
  }

  // ----- The frame invariant -----

  function ToolMap(blocks: seq<int>): map<int, OpenBlock> {
    map b | b in blocks :: OpenTool
  }

  function OpenMap(b: Board): map<int, OpenBlock> {
    if b.textOpen then map[b.textIndex := OpenText]
    else if b.thinkingOpen then map[b.thinkingIndex := OpenThinking]
    else ToolMap(b.openTools)
  }

  predicate Increasing(bs: seq<int>) {
    forall i, j :: 0 <= i < j < |bs| ==> bs[i] < bs[j]
  }

  lemma ToolsSnoc(bs: seq<int>, n: nat)
    requires Increasing(bs) && forall k :: k in bs ==> 0 <= k < n
    ensures ToolMap(bs)[n := OpenTool] == ToolMap(bs + [n])
    ensures Increasing(bs + [n])
    ensures forall k :: k in bs + [n] ==> 0 <= k < n + 1
  {
    forall i, j | 0 <= i < j < |bs + [n]| ensures (bs + [n])[i] < (bs + [n])[j] {
      if j == |bs| {
        assert bs[i] in bs;
      }
    }
  }

  lemma ToolsTail(bs: seq<int>)
    requires Increasing(bs) && bs != []
    ensures ToolMap(bs) - {bs[0]} == ToolMap(bs[1..])
    ensures Increasing(bs[1..])
    ensures forall k :: k in bs[1..] ==> k in bs
  {
    assert bs == [bs[0]] + bs[1..];
  }

  /** Before the first event nothing is open; after it, the monitor's view of the open blocks is the
      ledger's own. */
  ghost predicate Framed(b: Board) {
    && !(b.textOpen && b.thinkingOpen)
    && (b.openTools != [] ==> !b.textOpen && !b.thinkingOpen)
    && Increasing(b.openTools)
    && (forall k :: k in b.openTools ==> 0 <= k < b.nextBlock)
    && (if b.startSent then See(b.trace).phase == Streaming(b.nextBlock, OpenMap(b), None)
        else b.nextBlock == 0 && !b.textOpen && !b.thinkingOpen && b.openTools == [] && b.trace == Empty)
  }

  predicate Quiet(b: Board) {
    !b.textOpen && !b.thinkingOpen
  }

  lemma FramedStart(b: Board, usage: Usage)
    requires Framed(b) && !b.startSent
    ensures Framed(Start(b, usage))
    ensures See(Start(b, usage).trace) == View(Streaming(0, map[], None), [], [], [])
  {
    assert OpenMap(Start(b, usage)) == map[];
  }

  lemma FramedCloseText(b: Board)
    requires Framed(b) && b.startSent
    ensures var o := CloseText(b);
            Framed(o) && See(o.trace) == See(b.trace).(phase := Streaming(b.nextBlock, OpenMap(o), None))
  {
    if b.textOpen {
      assert OpenMap(b) - {b.textIndex} == map[] == OpenMap(CloseText(b));
    }
  }

  lemma FramedCloseThinking(b: Board)
    requires Framed(b) && b.startSent
    ensures var o := CloseThinking(b);
            Framed(o) && See(o.trace) == See(b.trace).(phase := Streaming(b.nextBlock, OpenMap(o), None))
  {
    if b.thinkingOpen {
      assert OpenMap(b) - {b.thinkingIndex} == map[] == OpenMap(CloseThinking(b));
    }
  }

  lemma FramedOpenText(b: Board)
    requires Framed(b) && b.startSent && !b.thinkingOpen && b.openTools == []
    ensures var o := OpenTextBlock(b);
            Framed(o)
            && See(o.trace) == See(b.trace).(phase := Streaming(o.nextBlock, map[o.textIndex := OpenText], None))
  {
    if !b.textOpen {
      assert OpenMap(b) == map[];
    }
  }

  lemma FramedOpenThinking(b: Board)
    requires Framed(b) && b.startSent && !b.textOpen && b.openTools == []
    ensures var o := OpenThinkingBlock(b);
            Framed(o) && See(o.trace) ==
              See(b.trace).(phase := Streaming(o.nextBlock, map[o.thinkingIndex := OpenThinking], None))
  {
    if !b.thinkingOpen {
      assert OpenMap(b) == map[];
    }
  }

  lemma FramedWriteText(b: Board, text: string)
    requires Framed(b) && b.startSent && b.openTools == []
    ensures var o := WriteText(b, text);
            Framed(o) && See(o.trace) ==
              See(b.trace).(phase := See(o.trace).phase, prose := See(b.trace).prose + [TextFragment(text)])
  {
    var q := CloseThinking(b);
    FramedCloseThinking(b);
    FramedOpenText(q);
    var o := OpenTextBlock(q);
    var v, e := See(o.trace), BlockDelta(o.textIndex, TextDelta(text));
    assert Observe(v, e) == v.(prose := v.prose + [TextFragment(text)]);
  }

  lemma FramedWriteThinking(b: Board, text: string)
    requires Framed(b) && b.startSent && b.openTools == []
    ensures var o := WriteThinking(b, text);
            Framed(o) && See(o.trace) ==
              See(b.trace).(phase := See(o.trace).phase, prose := See(b.trace).prose + [ReasoningFragment(text)])
  {
    var q := CloseText(b);
    FramedCloseText(b);
    FramedOpenThinking(q);
    var o := OpenThinkingBlock(q);
    var v, e := See(o.trace), BlockDelta(o.thinkingIndex, ThinkingDelta(text));
    assert Observe(v, e) == v.(prose := v.prose + [ReasoningFragment(text)]);
  }

  /** Writing a fragment keeps the frame and adds exactly that fragment to the prose. */
  lemma FramedWrite(b: Board, f: Fragment)
    requires Framed(b) && b.startSent && b.openTools == []
    ensures var o := Write(b, f);
            Framed(o) && See(o.trace) == See(b.trace).(phase := See(o.trace).phase, prose := See(b.trace).prose + [f])
  {
    if f.TextFragment? {
      FramedWriteText(b, f.text);
    } else {
      FramedWriteThinking(b, f.text);
    }
  }

  lemma FramedCloseProse(b: Board)
    requires Framed(b) && b.startSent
    ensures var o := CloseProse(b);
            Framed(o) && Quiet(o)
            && See(o.trace) == See(b.trace).(phase := Streaming(b.nextBlock, ToolMap(b.openTools), None))
  {
    FramedCloseText(b);
    FramedCloseThinking(CloseText(b));
  }

  lemma FramedStartTool(b: Board, id: string, name: string)
    requires Framed(b) && b.startSent
    ensures var o := StartTool(b, id, name);
            Framed(o) &&
            See(o.trace) == See(b.trace).(phase := See(o.trace).phase, tools := See(b.trace).tools + [b.nextBlock])
  {
    FramedCloseProse(b);
    ToolsSnoc(b.openTools, b.nextBlock);
    var v, tools := See(CloseProse(b).trace), b.openTools + [b.nextBlock];
    assert MayOpen(ToolMap(b.openTools), ToolBlock(id, name));
    assert Observe(v, BlockStart(b.nextBlock, ToolBlock(id, name)))
        == v.(phase := Streaming(b.nextBlock + 1, ToolMap(tools), None), tools := v.tools + [b.nextBlock]);
  }

  /** Stopping a tool block keeps the frame and adds exactly its arguments. */
  lemma FramedStopTool(b: Board, args: Option<string>)
    requires Framed(b) && b.startSent && b.openTools != []
    ensures var o := StopTool(b, args);
            Framed(o) && See(o.trace) == See(b.trace).(phase := See(o.trace).phase,
              inputs := See(b.trace).inputs + if args.Some? then [(b.openTools[0], args.value)] else [])
  {
    var block, v := b.openTools[0], See(b.trace);
    ToolsTail(b.openTools);
    if args.Some? {
      var w := Observe(v, BlockDelta(block, InputJsonDelta(args.value)));
      assert w ==
             v.(phase := Streaming(b.nextBlock, ToolMap(b.openTools), Some(block)),
                inputs := v.inputs + [(block, args.value)]);
      assert Observe(w, BlockStop(block)) == w.(phase := Streaming(b.nextBlock, ToolMap(b.openTools[1..]), None));
    } else {
      assert Observe(v, BlockStop(block)) == v.(phase := Streaming(b.nextBlock, ToolMap(b.openTools[1..]), None));
    }
  }

  /** The arguments sent when blocks are stopped: one delta for each block that has any. */
  function SentInputs(blocks: seq<int>, args: seq<Option<string>>): seq<(int, string)>
    requires |args| == |blocks|
    decreases |args|
  {
    if args == [] then [] else
      (if args[0].Some? then [(blocks[0], args[0].value)] else []) + SentInputs(blocks[1..], args[1..])
  }

  lemma {:induction false} FramedStopTools(b: Board, args: seq<Option<string>>)
    requires Framed(b) && b.startSent && |args| == |b.openTools|
    ensures Framed(StopTools(b, args))
    ensures var v, w := See(b.trace), See(StopTools(b, args).trace);
            w.prose == v.prose && w.tools == v.tools && w.inputs == v.inputs + SentInputs(b.openTools, args)
    decreases |args|
  {
    var v := See(b.trace);
    if args == [] {
      assert v.inputs + [] == v.inputs;
    } else {
      var m := StopTool(b, args[0]);
      FramedStopTool(b, args[0]);
      FramedStopTools(m, args[1..]);
      SeqAssoc(v.inputs, if args[0].Some? then [(b.openTools[0], args[0].value)] else [],
               SentInputs(m.openTools, args[1..]));
    }
  }

  lemma {:induction false} FramedWriteAll(b: Board, fs: seq<Fragment>)
    requires Framed(b) && b.startSent && b.openTools == []
    ensures Framed(WriteAll(b, fs))
    ensures var v, w := See(b.trace), See(WriteAll(b, fs).trace);
            w.prose == v.prose + fs && w.tools == v.tools && w.inputs == v.inputs
    decreases |fs|
  {
    if fs == [] {
      assert See(b.trace).prose + [] == See(b.trace).prose;
    } else {
      var front, f := fs[..|fs| - 1], fs[|fs| - 1];
      FramedWriteAll(b, front);
      FramedWrite(WriteAll(b, front), f);
      SplitLast(fs);
      SeqAssoc(See(b.trace).prose, front, [f]);
    }
  }
}
