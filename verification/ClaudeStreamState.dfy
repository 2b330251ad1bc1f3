/** The translator object of internal/translate/claude/stream.go, updated in place. Each method is
    proved equal to its function in `ClaudeStream`, so every run property holds of the object. The
    block ledger is one field of a value type; its trace stands for the lines sent to the client. */
module ClaudeStreamState {
  import opened Basics
  import opened ClaudeEvents
  import opened ClaudeBlocks
  import Spec = ClaudeStream
  import Runs = ClaudeStreamRuns
  import OrphanInvoke
  import EnsureIds

  class StreamState {
    const c: Spec.Codec
    var board: Board  // open blocks, next index, emitted events
    var toolCalls: map<int, Spec.ToolInfo>
    var toolArgBufs: map<int, string>
    var pendingContent: seq<Fragment>
    var holdBuf: string
    var orphanRecovered: bool
    var nativeToolSeen: bool
    var usage: Option<Usage>
    var finishReason: string
    var finishSent: bool
    var closed: bool
    var outputLen: nat
    var seenIds: map<string, nat>
    ghost var log: Spec.Log

    /** The object's abstract value. */
    ghost function Now(): Spec.State
      reads this
    {
      Spec.State(board, toolCalls, toolArgBufs, pendingContent, holdBuf, orphanRecovered, nativeToolSeen, usage,
                 finishReason, finishSent, closed, outputLen, seenIds, log)
    }

    /** Between calls the object is what some run of chunks made of it. */
    ghost predicate Valid()
      reads this
    {
      exists ks :: Now() == Spec.ProcessChunks(c, Spec.Init, ks)
    }

    constructor (c: Spec.Codec)
      ensures this.c == c && Now() == Spec.Init && Valid()
    {
      this.c := c;
      board, toolCalls, toolArgBufs, pendingContent, holdBuf := Spec.BlankBoard, map[], map[], [], "";
      orphanRecovered, nativeToolSeen, usage, finishReason, finishSent, closed := false, false, None, "", false, false;
      outputLen, seenIds, log := 0, map[], Spec.Log([], [], "", [], []);
      new;
      assert Now() == Spec.ProcessChunks(c, Spec.Init, []);
    }

    method HandleReasoningContent(text: string)
      modifies this`board, this`pendingContent, this`outputLen
      ensures Now() == Spec.Handle(old(Now()), ReasoningFragment(text))
    {
      if |board.openTools| > 0 {
        pendingContent := pendingContent + [ReasoningFragment(text)];
        outputLen := outputLen + |text|;
        return;
      }
      board := CloseText(board);
      board := OpenThinkingBlock(board);
      outputLen := outputLen + |text|;
      board := Emit(board, BlockDelta(board.thinkingIndex, ThinkingDelta(text)));
    }

    method HandleTextContent(text: string)
      modifies this`board, this`pendingContent, this`outputLen
      ensures Now() == Spec.Handle(old(Now()), TextFragment(text))
    {
      if |board.openTools| > 0 {
        pendingContent := pendingContent + [TextFragment(text)];
        outputLen := outputLen + |text|;
        return;
      }
      board := CloseThinking(board);
      board := OpenTextBlock(board);
      outputLen := outputLen + |text|;
      board := Emit(board, BlockDelta(board.textIndex, TextDelta(text)));
    }

    method ForwardHeldProse(prose: string)
      modifies this
      ensures Now() == Spec.ForwardProse(c, old(Now()), prose)
    {
      log := log.(pieces := log.pieces + [Spec.Piece(prose, true)]);
      var cleaned := c.cleanText(prose);
      if cleaned != "" {
        log := log.(accepted := log.accepted + [TextFragment(cleaned)]);
        HandleTextContent(cleaned);
      }
    }

    /** Opens a tool block and registers its call under `key`. */
    method OpenToolBlock(key: int, id: string, name: string, args: string)
      modifies this`board, this`toolCalls, this`toolArgBufs
      ensures Now() == Spec.BeginTool(old(Now()), key, id, name, args)
    {
      toolCalls := toolCalls[key := Spec.ToolInfo(id, name, board.nextBlock)];
      toolArgBufs := toolArgBufs[key := args];
      board := StartTool(board, id, name);
    }

    method EmitOrphanToolUse(call: OrphanInvoke.Call)
      modifies this`board, this`toolCalls, this`toolArgBufs, this`orphanRecovered, this`outputLen
      modifies this`finishReason, this`log
      ensures Now() == Spec.EmitOrphan(c, old(Now()), call)
    {
      var id, key := "toolu_" + c.orphanId(board.nextBlock), -(board.nextBlock as int + 1);
      OpenToolBlock(key, id, call.name, call.input);
      orphanRecovered, outputLen := true, outputLen + |call.input|;
      finishReason := if finishReason == "" || finishReason == "stop" then "tool_calls" else finishReason;
      log := log.(tools := log.tools + [Spec.ToolDelta(key, id, call.name, call.input)]);
    }

    /** Streams the prose before the first recovered call, then opens the calls. */
    method RecoverCalls(x: OrphanInvoke.Extraction)
      modifies this
      ensures Now() == Spec.Recover(c, old(Now()), x)
    {
      if x.prose != "" && !orphanRecovered {
        ForwardHeldProse(x.prose);
      }
      ghost var before := Now();
      for i := 0 to |x.calls|
        invariant Now() == Spec.EmitOrphans(c, before, x.calls[..i])
      {
        EmitOrphanToolUse(x.calls[i]);
        assert x.calls[..i + 1][..i] == x.calls[..i];
      }
      assert x.calls[..|x.calls|] == x.calls;
    }

    method FirstPlausibleOpener(buf: string) returns (i: int)
      ensures i == Spec.FirstPlausible(c, buf, 0)
    {
      for k := 0 to |buf|
        invariant Spec.FirstPlausible(c, buf, 0) == Spec.FirstPlausible(c, buf, k)
      {
        if buf[k] == '<' && c.couldOpen(buf[k..]) {
          return k;
        }
      }
      return -1;
    }

    /** Extracts complete invoke blocks from the buffer until none is left. */
    method DrainCalls()
      modifies this
      ensures Now() == Spec.Drain(c, old(Now()))
    {
      while true
        invariant Spec.Drain(c, old(Now())) == Spec.Drain(c, Now())
        decreases |holdBuf|
      {
        var x := OrphanInvoke.ExtractOrphanInvokes(c.scanner, holdBuf);
        if x.calls == [] {
          break;
        }
        RecoverCalls(x);
        holdBuf := x.rest;
      }
    }

    /** How much of a buffer with no complete block is settled prose. */
    method SettledLength(buf: string) returns (n: nat)
      ensures n == Spec.HeadLength(c, buf)
    {
      var i := FirstPlausibleOpener(buf);
      if i < 0 {
        return |buf|;
      }
      if i > 0 || |buf| > Spec.HOLD_MAX {
        return Max(i, |buf| - Spec.HOLD_TAIL);
      }
      return 0;
    }

    /** Lets the settled head of the buffer go and keeps the tail that may still become an opener. */
    method SettleHold()
      modifies this
      ensures Now() == Spec.Settle(c, old(Now()))
    {
      var buf := holdBuf;
      var n := SettledLength(buf);
      holdBuf := buf[n..];
      if n > 0 && !orphanRecovered {
        ForwardHeldProse(buf[..n]);
      }
    }

    method HoldTextContent(text: string)
      modifies this
      ensures Now() == Spec.HoldText(c, old(Now()), text)
    {
      log := log.(content := log.content + text);
      if nativeToolSeen {
        log := log.(pieces := log.pieces + [Spec.Piece(text, false)], accepted := log.accepted + [TextFragment(text)]);
        HandleTextContent(text);
      } else {
        holdBuf := holdBuf + text;
        DrainCalls();
        SettleHold();
      }
    }

    method FlushHold(extract: bool, dropTrailing: bool)
      modifies this
      ensures Now() == Spec.FlushHold(c, old(Now()), extract, dropTrailing)
    {
      if holdBuf == "" {
        return;
      }
      var buf := holdBuf;
      holdBuf := "";
      if !extract {
        ForwardHeldProse(buf);
        return;
      }
      var x := OrphanInvoke.ExtractOrphanInvokes(c.scanner, buf);
      if x.calls == [] {
        var i := FirstPlausibleOpener(buf);
        if !(dropTrailing && orphanRecovered && i < 0) {
          ForwardHeldProse(buf);
        }
        return;
      }
      RecoverCalls(x);
      if x.rest != "" {
        if !dropTrailing {
          holdBuf := x.rest;
        } else if c.hasOpener(x.rest) {
          ForwardHeldProse(x.rest);
        }
      }
    }

    /** A first sight of an index with an id opens its block, under an id made unique in the stream. */
    method RegisterToolCall(d: Spec.ToolDelta)
      modifies this`board, this`toolCalls, this`toolArgBufs, this`seenIds
      ensures Now() == Spec.RegisterTool(old(Now()), d)
    {
      if d.id != "" && d.index !in toolCalls {
        var count := if d.id in seenIds then seenIds[d.id] else 0;
        var id := if d.id in seenIds then d.id + "_" + EnsureIds.Decimal(count) else d.id;
        seenIds := seenIds[d.id := count + 1];
        OpenToolBlock(d.index, id, d.name, "");
      }
    }

    method HandleToolCall(d: Spec.ToolDelta)
      modifies this
      ensures Now() == Spec.HandleTool(c, old(Now()), d)
    {
      RegisterToolCall(d);
      if d.index in toolArgBufs {
        toolArgBufs := toolArgBufs[d.index := toolArgBufs[d.index] + d.args];
      }
      outputLen := outputLen + |d.args|;
      log := log.(tools := log.tools + [d]);
    }

    method HandleToolCalls(ds: seq<Spec.ToolDelta>)
      modifies this
      ensures Now() == Spec.HandleTools(c, old(Now()).(nativeSeen := true), ds)
    {
      nativeToolSeen := true;
      for i := 0 to |ds|
        invariant Now() == Spec.HandleTools(c, old(Now()).(nativeSeen := true), ds[..i])
      {
        HandleToolCall(ds[i]);
        assert ds[..i + 1][..i] == ds[..i];
      }
      assert ds[..|ds|] == ds;
    }

    /** The repaired arguments of the call that renders into `block`, if any were buffered. */
    method BlockArgs(block: int) returns (args: Option<string>)
      requires Framed(board) && Runs.Booked(Now())
      ensures args == Spec.ArgsFor(c, Now(), block)
    {
      if k :| k in toolCalls && toolCalls[k].block == block {
        Runs.FoundCall(c, Now(), k, block);
        return if toolArgBufs[k] == "" then None else Some(c.cleanArgs(c.repairArgs(toolArgBufs[k])));
      }
      return None;
    }

    /** The ledger after the arguments of every open tool block are flushed, in order, and the blocks
        stopped. */
    method StoppedBlocks() returns (b: Board)
      requires Framed(board) && Runs.Booked(Now())
      ensures b == StopTools(board, Spec.AllArgs(c, Now()))
    {
      var open := board.openTools;
      ghost var args := Spec.AllArgs(c, Now());
      b := board;
      for i := 0 to |open|
        invariant b.openTools == open[i..] && StopTools(b, args[i..]) == StopTools(board, args)
      {
        var a := BlockArgs(open[i]);
        assert args[i..][0] == a && args[i..][1..] == args[i + 1..] && open[i..][1..] == open[i + 1..];
        b := StopTool(b, a);
      }
      assert args[|open|..] == [];
    }

    method CloseOpenToolBlocks()
      requires Framed(board) && Runs.Booked(Now())
      modifies this`board, this`toolCalls, this`toolArgBufs
      ensures Now() == Spec.CloseTools(c, old(Now()))
    {
      board := StoppedBlocks();
      toolCalls, toolArgBufs := map[], map[];
    }

    /** Replays the pended fragments; every tool block is closed by now. */
    method FlushPendingContent()
      requires board.openTools == []
      modifies this`board, this`pendingContent, this`outputLen
      ensures Now() == Spec.FlushPending(old(Now()))
    {
      ghost var s := Now();
      var pending := pendingContent;
      pendingContent := [];
      for i := 0 to |pending|
        invariant pendingContent == [] && board == WriteAll(s.board, pending[..i])
        invariant outputLen == s.outputLen + Spec.TotalLength(pending[..i])
      {
        assert pending[..i + 1][..i] == pending[..i];
        if pending[i].TextFragment? {
          HandleTextContent(pending[i].text);
        } else {
          HandleReasoningContent(pending[i].text);
        }
      }
      assert pending[..|pending|] == pending;
    }

    /** Drains the buffer, then stops every block, replaying what waited behind tool blocks. */
    method CloseAllBlocks()
      requires Valid() && finishSent
      modifies this
      ensures Now() == Spec.CloseBlocks(c, old(Now()))
    {
      ghost var ks :| Now() == Spec.ProcessChunks(c, Spec.Init, ks);
      Runs.ReadyToStop(c, ks);
      FlushHold(!nativeToolSeen, true);
      StopBlocks();
    }

    method StopBlocks()
      requires Framed(CloseProse(board)) && Runs.Booked(Spec.CloseProseOf(Now()))
      modifies this`board, this`toolCalls, this`toolArgBufs, this`pendingContent, this`outputLen
      ensures Now() == Spec.CloseProseOf(Spec.FlushPending(Spec.CloseTools(c, Spec.CloseProseOf(old(Now())))))
    {
      board := CloseProse(board);
      CloseOpenToolBlocks();
      FlushPendingContent();
      board := CloseProse(board);
    }

    method HandleFinish()
      requires Valid() && finishSent
      modifies this
      ensures Now() == Spec.HandleFinish(c, old(Now()))
    {
      CloseAllBlocks();
      var tail := MessageDelta(Spec.MapFinishReason(finishReason), ReportedUsage());
      board := Emit(Emit(board, tail), MessageStop);
    }

    /** The real usage when the upstream sent it, else an estimate of a token per four bytes. */
    function ReportedUsage(): (u: Usage)
      reads this
      ensures u == Spec.FinalUsage(Now())
    {
      if usage.Some? then usage.value
      else if outputLen / 4 == 0 && outputLen > 0 then Usage(0, 1, 0, 0)
      else Usage(0, outputLen / 4, 0, 0)
    }

    method Finalize()
      requires Valid()
      modifies this
      ensures Now() == Spec.Finalize(c, old(Now())) && closed
    {
      if closed {
        return;
      }
      if !finishSent {
        FlushHold(!nativeToolSeen, true);
      } else {
        HandleFinish();
      }
      closed := true;
    }

    method HandleReasoningDelta(text: string)
      modifies this
      ensures Now() == Spec.Reason(c, old(Now()), text)
    {
      FlushHold(true, false);
      log := log.(thoughts := log.thoughts + [text]);
      var cleaned := c.cleanText(text);
      if cleaned != "" {
        log := log.(accepted := log.accepted + [ReasoningFragment(cleaned)]);
        HandleReasoningContent(cleaned);
      }
    }

    method HandleDeltas(k: Spec.Chunk)
      requires k.Choice?
      modifies this
      ensures Now() == Spec.Deltas(c, old(Now()), k)
    {
      if k.reasoning != "" {
        HandleReasoningDelta(k.reasoning);
      } else if k.reasoningContent != "" {
        HandleReasoningDelta(k.reasoningContent);
      }
      if k.content != "" {
        HoldTextContent(k.content);
      }
      if |k.tools| > 0 || k.junk {
        FlushHold(false, false);
        HandleToolCalls(k.tools);
      }
    }

    method SendStart()
      modifies this`board
      ensures Now() == Spec.StartMessage(old(Now()))
    {
      board := Start(board, if usage.Some? then usage.value else Spec.NoUsage);
    }

    method ProcessChunk(k: Spec.Chunk)
      requires Valid()
      modifies this
      ensures Now() == Spec.ProcessChunk(c, old(Now()), k) && Valid() && !closed
    {
      ghost var s := Now();
      ghost var ks :| s == Spec.ProcessChunks(c, Spec.Init, ks);
      assert (ks + [k])[..|ks|] == ks;
      assert Spec.ProcessChunk(c, s, k) == Spec.ProcessChunks(c, Spec.Init, ks + [k]);
      Runs.ChunksKeep(c, ks + [k]);
      Process(k);
    }

    method Process(k: Spec.Chunk)
      modifies this
      ensures Now() == Spec.ProcessChunk(c, old(Now()), k)
    {
      match k
      case NoChoice(u) =>
        if u.Some? {
          usage := u;
          if !board.startSent {
            SendStart();
          }
        }
      case MalformedChoice =>
      case Choice(_, _, _, _, _, _, _) => ProcessChoice(k);
    }

    method ProcessChoice(k: Spec.Chunk)
      requires k.Choice?
      modifies this
      ensures Now() == Spec.ProcessChunk(c, old(Now()), k)
    {
      if !finishSent {
        if !board.startSent {
          SendStart();
        }
        HandleDeltas(k);
      }
      NoteUsageAndFinish(k.usage, k.finish);
    }

    method NoteUsageAndFinish(u: Option<Usage>, finish: string)
      modifies this`usage, this`finishReason, this`finishSent
      ensures usage == if u.Some? then u else old(usage)
      ensures finishSent == (old(finishSent) || (finish != "" && finish != "null"))
      ensures finishReason ==
              if finishSent == old(finishSent) || old(finishReason) == "tool_calls" then old(finishReason) else finish
    {
      if u.Some? {
        usage := u;
      }
      if finish != "" && finish != "null" && !finishSent {
        if finishReason != "tool_calls" {
          finishReason := finish;
        }
        finishSent := true;
      }
    }
  }
}
