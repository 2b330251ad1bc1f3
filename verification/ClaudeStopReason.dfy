/** The stop reason of a translated stream (internal/translate/claude/stream.go), also when a call was
    recovered from its text. */
module ClaudeStopReason {
  import opened Basics
  import opened ClaudeEvents
  import opened ClaudeBlocks
  import opened ClaudeStream
  import opened ClaudeStreamRuns
  import OrphanInvoke

  /** A reason that a recovered call replaces. */
  predicate Open(reason: string) {
    reason == "" || reason == "stop"
  }

  /** A recovered call has left its mark. */
  predicate Labelled(s: State) {
    s.orphanRecovered ==> !Open(s.finishReason)
  }

  /** What a step does to the reason: a call it recovers replaces an open one. */
  predicate Relabels(s: State, t: State) {
    && (s.orphanRecovered ==> t.orphanRecovered) && t.finishSent == s.finishSent
    && t.finishReason == if t.orphanRecovered && Open(s.finishReason) then "tool_calls" else s.finishReason
  }

  predicate SameLabel(s: State, t: State) {
    t.orphanRecovered == s.orphanRecovered && t.finishReason == s.finishReason && t.finishSent == s.finishSent
  }

  lemma Relabelled(s: State, t: State, u: State)
    requires Relabels(s, t) && Relabels(t, u)
    ensures Relabels(s, u)
  {
  }

  lemma AcceptLabel(s: State, f: Fragment)
    ensures SameLabel(s, Accept(s, f))
  {
    if s.board.openTools != [] {
    } else {
    }
  }

  lemma ForwardLabel(c: Codec, s: State, p: Piece)
    ensures SameLabel(s, Forward(c, s, p))
  {
    var noted := s.(log := s.log.(pieces := s.log.pieces + [p]));
    if Cleaned(c, p) != [] {
      AcceptLabel(noted, Cleaned(c, p)[0]);
    }
  }

  lemma {:induction false} OrphansLabel(c: Codec, s: State, calls: seq<OrphanInvoke.Call>)
    requires Labelled(s)
    ensures Relabels(s, EmitOrphans(c, s, calls)) && Labelled(EmitOrphans(c, s, calls))
    decreases |calls|
  {
    if calls != [] {
      OrphansLabel(c, s, calls[..|calls| - 1]);
    }
  }

  lemma RecoverLabel(c: Codec, s: State, x: OrphanInvoke.Extraction)
    requires Labelled(s)
    ensures Relabels(s, Recover(c, s, x)) && Labelled(Recover(c, s, x))
  {
    ForwardLabel(c, s, Piece(x.prose, true));
    OrphansLabel(c, if x.prose != "" && !s.orphanRecovered then ForwardProse(c, s, x.prose) else s, x.calls);
  }

  lemma {:induction false} DrainLabel(c: Codec, s: State)
    requires Labelled(s)
    ensures Relabels(s, Drain(c, s)) && Labelled(Drain(c, s))
    decreases |s.hold|
  {
    var x := OrphanInvoke.ExtractSpec(c.scanner, s.hold);
    if x.calls != [] {
      RecoverLabel(c, s, x);
      DrainLabel(c, Recover(c, s, x).(hold := x.rest));
    }
  }

  lemma SettleLabel(c: Codec, s: State)
    ensures SameLabel(s, Settle(c, s))
  {
    var n := HeadLength(c, s.hold);
    ForwardLabel(c, s.(hold := s.hold[n..]), Piece(s.hold[..n], true));
  }

  lemma HoldLabel(c: Codec, s: State, text: string)
    requires Labelled(s)
    ensures Relabels(s, HoldText(c, s, text)) && Labelled(HoldText(c, s, text))
  {
    var o := s.(log := s.log.(content := s.log.content + text));
    if s.nativeSeen {
      ForwardLabel(c, o, Piece(text, false));
    } else {
      DrainLabel(c, o.(hold := s.hold + text));
      SettleLabel(c, Drain(c, o.(hold := s.hold + text)));
    }
  }

  lemma FlushLabel(c: Codec, s: State, extract: bool, dropTrailing: bool)
    requires Labelled(s)
    ensures Relabels(s, FlushHold(c, s, extract, dropTrailing)) && Labelled(FlushHold(c, s, extract, dropTrailing))
  {
    var x := OrphanInvoke.ExtractSpec(c.scanner, s.hold);
    if extract && x.calls != [] {
      FlushCallsLabel(c, s, x, dropTrailing);
    } else {
      FlushProseLabel(c, s, extract, dropTrailing);
    }
  }

  lemma FlushProseLabel(c: Codec, s: State, extract: bool, dropTrailing: bool)
    requires extract ==> OrphanInvoke.ExtractSpec(c.scanner, s.hold).calls == []
    ensures SameLabel(s, FlushHold(c, s, extract, dropTrailing))
  {
    ForwardLabel(c, s.(hold := ""), Piece(s.hold, true));
  }

  lemma FlushCallsLabel(c: Codec, s: State, x: OrphanInvoke.Extraction, dropTrailing: bool)
    requires Labelled(s) && x == OrphanInvoke.ExtractSpec(c.scanner, s.hold) && x.calls != []
    ensures Relabels(s, FlushHold(c, s, true, dropTrailing)) && Labelled(FlushHold(c, s, true, dropTrailing))
  {
    RecoverLabel(c, s.(hold := ""), x);
    ForwardLabel(c, Recover(c, s.(hold := ""), x), Piece(x.rest, true));
  }

  lemma ReasonLabel(c: Codec, s: State, text: string)
    requires Labelled(s)
    ensures Relabels(s, Reason(c, s, text)) && Labelled(Reason(c, s, text))
  {
    var f := FlushHold(c, s, true, false);
    var o := f.(log := f.log.(thoughts := f.log.thoughts + [text]));
    FlushLabel(c, s, true, false);
    if c.cleanText(text) != "" {
      AcceptLabel(o, ReasoningFragment(c.cleanText(text)));
    }
  }

  lemma {:induction false} ToolsLabel(c: Codec, s: State, ds: seq<ToolDelta>)
    ensures SameLabel(s, HandleTools(c, s, ds))
    decreases |ds|
  {
    if ds != [] {
      ToolsLabel(c, s, ds[..|ds| - 1]);
    }
  }

  lemma ToolsDeltaLabel(c: Codec, s: State, ds: seq<ToolDelta>, junk: bool)
    requires Labelled(s)
    ensures Relabels(s, ToolsDelta(c, s, ds, junk))
  {
    FlushLabel(c, s, false, false);
    ToolsLabel(c, FlushHold(c, s, false, false).(nativeSeen := true), ds);
  }

  lemma DeltasLabel(c: Codec, s: State, k: Chunk)
    requires k.Choice? && Labelled(s)
    ensures Relabels(s, Deltas(c, s, k))
  {
    var r := ReasonDelta(c, s, k);
    var t := ContentDelta(c, r, k.content);
    ReasonLabel(c, s, k.reasoning);
    ReasonLabel(c, s, k.reasoningContent);
    HoldLabel(c, r, k.content);
    ToolsDeltaLabel(c, t, k.tools, k.junk);
    Relabelled(s, r, t);
    Relabelled(s, t, Deltas(c, s, k));
  }

  /** The reason noted so far: a recovered call's, or the first finish reason of the chunks. */
  predicate Noted(s: State, r: Carried) {
    && s.finishSent == r.finished && s.finishReason == (if s.orphanRecovered then "tool_calls" else r.finish)
    && (r.finished <==> r.finish != "")
  }

  lemma ChunkNotes(c: Codec, s: State, r: Carried, k: Chunk)
    requires Noted(s, r)
    ensures Noted(ProcessChunk(c, s, k), CarryOne(r, k))
  {
    match k
    case NoChoice(_) =>
    case MalformedChoice =>
    case Choice(_, _, _, _, _, _, _) =>
      if s.finishSent {
        FinishNotes(s, s, r, k);
      } else {
        DeltasNote(c, if s.board.startSent then s else StartMessage(s), r, k);
      }
  }

  lemma DeltasNote(c: Codec, s: State, r: Carried, k: Chunk)
    requires k.Choice? && !s.finishSent && Noted(s, r)
    ensures var o := Deltas(c, s, k);
            Noted(Finish(if k.usage.Some? then o.(usage := k.usage) else o, k), CarryOne(r, k))
  {
    DeltasLabel(c, s, k);
    FinishNotes(s, Deltas(c, s, k), r, k);
  }

  lemma FinishNotes(s: State, o: State, r: Carried, k: Chunk)
    requires k.Choice? && Noted(s, r) && if s.finishSent then o == s else Relabels(s, o)
    ensures Noted(Finish(if k.usage.Some? then o.(usage := k.usage) else o, k), CarryOne(r, k))
  {
  }

  lemma {:induction false} ChunksNote(c: Codec, ks: seq<Chunk>)
    ensures Noted(ProcessChunks(c, Init, ks), Carry(ks))
    decreases |ks|
  {
    if ks != [] {
      ChunksNote(c, ks[..|ks| - 1]);
      ChunkNotes(c, ProcessChunks(c, Init, ks[..|ks| - 1]), Carry(ks[..|ks| - 1]), ks[|ks| - 1]);
    }
  }

  /** The stop reason of every finished stream: tool use if a call was recovered before the finish reason
      came, or at the end of a stream that just stopped; otherwise what the finish reason maps to. */
  lemma StopReason(c: Codec, ks: seq<Chunk>)
    requires Carry(ks).finished
    ensures var s, trace, finish := Stream(c, ks), Events(Stream(c, ks).board.trace), Carry(ks).finish;
            && |trace| >= 2 && trace[|trace| - 2].MessageDelta?
            && trace[|trace| - 2].stopReason ==
               if ProcessChunks(c, Init, ks).orphanRecovered || (s.orphanRecovered && finish == "stop") then "tool_use"
               else MapFinishReason(finish)
  {
    var s := ProcessChunks(c, Init, ks);
    ChunksNote(c, ks);
    FlushLabel(c, s, !s.nativeSeen, true);
    TailReports(c, ks);
    FinishedStream(c, ks);
  }
}
