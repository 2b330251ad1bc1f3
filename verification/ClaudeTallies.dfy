/** Two counts kept along a stream (internal/translate/claude/stream.go): the ids of the tool blocks and
    the length the usage estimate is made from. */
module ClaudeTallies {
  import opened Basics
  import opened ClaudeEvents
  import opened ClaudeBlocks
  import opened ClaudeStream
  import opened ClaudeStreamRuns
  import OrphanInvoke
  import E = EnsureIds

  /** The ids of the tool blocks a trace opens, in order. */
  function ToolIds(t: Trace): seq<string> {
    match t
    case Empty => []
    case Snoc(init, e) => ToolIds(init) + if e.BlockStart? && e.kind.ToolBlock? then [e.kind.id] else []
  }

  /** The ids of the deltas that open a block, in order. */
  function NewIds(ds: seq<ToolDelta>): seq<string> {
    if ds == [] then [] else
      var front, d := ds[..|ds| - 1], ds[|ds| - 1];
      NewIds(front) + if d.id != "" && d.index !in FirstSight(front) then [d.id] else []
  }

  function TotalArgs(ds: seq<ToolDelta>): nat {
    if ds == [] then 0 else TotalArgs(ds[..|ds| - 1]) + |ds[|ds| - 1].args|
  }

  // ----- Blocks -----

  lemma CloseIds(b: Board)
    ensures ToolIds(CloseText(b).trace) == ToolIds(b.trace) && ToolIds(CloseThinking(b).trace) == ToolIds(b.trace)
  {
    assert forall e :: ToolIds(Emit(b, e).trace) ==
                       ToolIds(b.trace) + if e.BlockStart? && e.kind.ToolBlock? then [e.kind.id] else [];
  }

  lemma OpenIds(b: Board)
    ensures ToolIds(OpenTextBlock(b).trace) == ToolIds(b.trace)
            && ToolIds(OpenThinkingBlock(b).trace) == ToolIds(b.trace)
  {
  }

  lemma ProseIds(b: Board, f: Fragment)
    ensures ToolIds(Write(b, f).trace) == ToolIds(b.trace)
  {
    CloseIds(b);
    if f.TextFragment? {
      OpenIds(CloseThinking(b));
    } else {
      OpenIds(CloseText(b));
    }
  }

  lemma CloseProseIds(b: Board)
    ensures ToolIds(CloseProse(b).trace) == ToolIds(b.trace)
  {
    CloseIds(b);
    CloseIds(CloseText(b));
    CloseIds(CloseThinking(b));
  }

  lemma StartIds(b: Board, id: string, name: string)
    ensures ToolIds(StartTool(b, id, name).trace) == ToolIds(b.trace) + [id]
  {
    CloseProseIds(b);
  }

  lemma {:induction false} StopIds(b: Board, args: seq<Option<string>>)
    requires |args| == |b.openTools|
    ensures ToolIds(StopTools(b, args).trace) == ToolIds(b.trace)
    decreases |args|
  {
    if args != [] {
      assert ToolIds(StopTool(b, args[0]).trace) == ToolIds(b.trace);
      StopIds(StopTool(b, args[0]), args[1..]);
    }
  }

  lemma {:induction false} WriteAllIds(b: Board, fs: seq<Fragment>)
    ensures ToolIds(WriteAll(b, fs).trace) == ToolIds(b.trace)
    decreases |fs|
  {
    if fs != [] {
      WriteAllIds(b, fs[..|fs| - 1]);
      ProseIds(WriteAll(b, fs[..|fs| - 1]), fs[|fs| - 1]);
    }
  }

  // ----- Both counts are kept -----

  /** The length counted is that of the prose accepted and the arguments received. */
  predicate Weighed(s: State) {
    s.outputLen == TotalLength(s.log.accepted) + TotalArgs(s.log.tools)
  }

  /** The map counts how often each id was received. */
  ghost predicate Seen(seenIds: map<string, nat>, ids: seq<string>) {
    forall id :: E.At(seenIds, id, 0) == E.Count(ids, id) && (id in seenIds ==> seenIds[id] > 0)
  }

  /** Unless a call was recovered, the block ids are the ids received, numbered by occurrence. */
  ghost predicate Numbered(s: State) {
    && (forall i :: i in s.calls <==> i in FirstSight(s.log.tools))
    && (!s.orphanRecovered ==>
          && ToolIds(s.board.trace) == E.Numbered(NewIds(s.log.tools))
          && Seen(s.seenIds, NewIds(s.log.tools)))
  }

  ghost predicate Tallied(s: State) {
    Weighed(s) && Numbered(s)
  }

  /** A state that differs only in what the tallies do not see. */
  predicate AsTallied(s: State, t: State) {
    && t.calls == s.calls && t.seenIds == s.seenIds && t.orphanRecovered == s.orphanRecovered
    && ToolIds(t.board.trace) == ToolIds(s.board.trace) && t.log.tools == s.log.tools
    && t.outputLen + TotalLength(s.log.accepted) == s.outputLen + TotalLength(t.log.accepted)
  }

  lemma StaysTallied(s: State, t: State)
    requires Tallied(s) && AsTallied(s, t)
    ensures Tallied(t)
  {
  }

  lemma LengthSnoc(fs: seq<Fragment>, f: Fragment)
    ensures TotalLength(fs + [f]) == TotalLength(fs) + |f.text|
  {
    assert (fs + [f])[..|fs|] == fs;
  }

  lemma AcceptTally(s: State, f: Fragment)
    ensures AsTallied(s, Accept(s, f))
  {
    LengthSnoc(s.log.accepted, f);
    ProseIds(s.board, f);
    if s.board.openTools != [] {
    } else {
    }
  }

  lemma ForwardTally(c: Codec, s: State, p: Piece)
    ensures AsTallied(s, Forward(c, s, p))
  {
    var noted := s.(log := s.log.(pieces := s.log.pieces + [p]));
    if Cleaned(c, p) != [] {
      AcceptTally(noted, Cleaned(c, p)[0]);
    }
  }

  lemma DeltaTally(ds: seq<ToolDelta>, d: ToolDelta)
    ensures TotalArgs(ds + [d]) == TotalArgs(ds) + |d.args|
    ensures NewIds(ds + [d]) == NewIds(ds) + if d.id != "" && d.index !in FirstSight(ds) then [d.id] else []
  {
    assert (ds + [d])[..|ds|] == ds;
  }

  lemma OrphanTally(c: Codec, s: State, call: OrphanInvoke.Call)
    requires Tallied(s)
    ensures Tallied(EmitOrphan(c, s, call))
  {
    var d := ToolDelta(-(s.board.nextBlock + 1), "toolu_" + c.orphanId(s.board.nextBlock), call.name, call.input);
    OrphanSaw(s, EmitOrphan(c, s, call), d);
  }

  lemma OrphanSaw(s: State, o: State, d: ToolDelta)
    requires Tallied(s) && d.id != "" && o.orphanRecovered && o.log == s.log.(tools := s.log.tools + [d])
    requires o.outputLen == s.outputLen + |d.args| && o.calls.Keys == s.calls.Keys + {d.index}
    ensures Tallied(o)
  {
    DeltaTally(s.log.tools, d);
    DeltaSnoc(s.log.tools, d);
    assert forall i :: i in FirstSight(o.log.tools) <==> i in FirstSight(s.log.tools) || i == d.index;
  }

  lemma {:induction false} OrphansTally(c: Codec, s: State, calls: seq<OrphanInvoke.Call>)
    requires Tallied(s)
    ensures Tallied(EmitOrphans(c, s, calls))
    decreases |calls|
  {
    if calls != [] {
      OrphansTally(c, s, calls[..|calls| - 1]);
      OrphanTally(c, EmitOrphans(c, s, calls[..|calls| - 1]), calls[|calls| - 1]);
    }
  }

  lemma RecoverTally(c: Codec, s: State, x: OrphanInvoke.Extraction)
    requires Tallied(s)
    ensures Tallied(Recover(c, s, x))
  {
    var o := if x.prose != "" && !s.orphanRecovered then ForwardProse(c, s, x.prose) else s;
    ForwardTally(c, s, Piece(x.prose, true));
    assert Tallied(o) by {
      StaysTallied(s, if x.prose != "" && !s.orphanRecovered then o else s);
    }
    OrphansTally(c, o, x.calls);
  }

  lemma Rehold(s: State, hold: string)
    requires Tallied(s)
    ensures Tallied(s.(hold := hold))
  {
    StaysTallied(s, s.(hold := hold));
  }

  lemma {:induction false} DrainTally(c: Codec, s: State)
    requires Tallied(s)
    ensures Tallied(Drain(c, s))
    decreases |s.hold|
  {
    var x := OrphanInvoke.ExtractSpec(c.scanner, s.hold);
    if x.calls != [] {
      RecoverTally(c, s, x);
      Rehold(Recover(c, s, x), x.rest);
      DrainTally(c, Recover(c, s, x).(hold := x.rest));
    }
  }

  lemma ForwardHeld(c: Codec, s: State, hold: string, prose: string)
    requires Tallied(s)
    ensures Tallied(ForwardProse(c, s.(hold := hold), prose))
  {
    Rehold(s, hold);
    ForwardTally(c, s.(hold := hold), Piece(prose, true));
    StaysTallied(s.(hold := hold), ForwardProse(c, s.(hold := hold), prose));
  }

  lemma SettleTally(c: Codec, s: State)
    requires Tallied(s)
    ensures Tallied(Settle(c, s))
  {
    var n := HeadLength(c, s.hold);
    Rehold(s, s.hold[n..]);
    ForwardHeld(c, s, s.hold[n..], s.hold[..n]);
  }

  lemma HoldTally(c: Codec, s: State, text: string)
    requires Tallied(s)
    ensures Tallied(HoldText(c, s, text))
  {
    var o := s.(log := s.log.(content := s.log.content + text));
    StaysTallied(s, o);
    if s.nativeSeen {
      ForwardTally(c, o, Piece(text, false));
      StaysTallied(o, Forward(c, o, Piece(text, false)));
    } else {
      Rehold(o, s.hold + text);
      DrainTally(c, o.(hold := s.hold + text));
      SettleTally(c, Drain(c, o.(hold := s.hold + text)));
    }
  }

  lemma FlushTally(c: Codec, s: State, extract: bool, dropTrailing: bool)
    requires Tallied(s)
    ensures Tallied(FlushHold(c, s, extract, dropTrailing))
  {
    var x := OrphanInvoke.ExtractSpec(c.scanner, s.hold);
    if extract && x.calls != [] {
      FlushCalls(c, s, x, dropTrailing);
    } else {
      FlushProse(c, s, extract, dropTrailing);
    }
  }

  lemma FlushProse(c: Codec, s: State, extract: bool, dropTrailing: bool)
    requires Tallied(s) && (extract ==> OrphanInvoke.ExtractSpec(c.scanner, s.hold).calls == [])
    ensures Tallied(FlushHold(c, s, extract, dropTrailing))
  {
    Rehold(s, "");
    ForwardHeld(c, s, "", s.hold);
  }

  lemma FlushCalls(c: Codec, s: State, x: OrphanInvoke.Extraction, dropTrailing: bool)
    requires Tallied(s) && x == OrphanInvoke.ExtractSpec(c.scanner, s.hold) && x.calls != []
    ensures Tallied(FlushHold(c, s, true, dropTrailing))
  {
    Rehold(s, "");
    RecoverTally(c, s.(hold := ""), x);
    RestTally(c, Recover(c, s.(hold := ""), x), x.rest);
  }

  lemma RestTally(c: Codec, r: State, rest: string)
    requires Tallied(r)
    ensures Tallied(r.(hold := rest)) && Tallied(ForwardProse(c, r, rest))
  {
    Rehold(r, rest);
    ForwardHeld(c, r, r.hold, rest);
    assert r.(hold := r.hold) == r;
  }

  lemma ReasonTally(c: Codec, s: State, text: string)
    requires Tallied(s)
    ensures Tallied(Reason(c, s, text))
  {
    var f := FlushHold(c, s, true, false);
    var o := f.(log := f.log.(thoughts := f.log.thoughts + [text]));
    FlushTally(c, s, true, false);
    StaysTallied(f, o);
    if c.cleanText(text) != "" {
      AcceptTally(o, ReasoningFragment(c.cleanText(text)));
      StaysTallied(o, Reason(c, s, text));
    }
  }

  // ----- Tool deltas -----

  lemma KnownTally(c: Codec, s: State, d: ToolDelta)
    requires Tallied(s) && (d.id == "" || d.index in s.calls)
    ensures Tallied(HandleTool(c, s, d))
  {
    DeltaTally(s.log.tools, d);
    DeltaSnoc(s.log.tools, d);
    assert NewIds(s.log.tools) + [] == NewIds(s.log.tools);
  }

  lemma NewTally(c: Codec, s: State, d: ToolDelta)
    requires Tallied(s) && d.id != "" && d.index !in s.calls
    ensures Tallied(HandleTool(c, s, d))
  {
    var o := HandleTool(c, s, d);
    DeltaTally(s.log.tools, d);
    DeltaSnoc(s.log.tools, d);
    NewToolState(c, s, d);
    StartIds(s.board, UniqueId(s, d.id), d.name);
    assert o.outputLen == s.outputLen + |d.args| && o.orphanRecovered == s.orphanRecovered;
    if !s.orphanRecovered {
      IdsGoOn(s, NewIds(s.log.tools), d.id);
      assert o.seenIds == NoteId(s, d.id).seenIds;
    }
  }

  /** A further id takes its number and is counted. */
  lemma IdsGoOn(s: State, ids: seq<string>, id: string)
    requires Seen(s.seenIds, ids)
    ensures E.Numbered(ids + [id]) == E.Numbered(ids) + [UniqueId(s, id)]
    ensures Seen(NoteId(s, id).seenIds, ids + [id])
  {
    assert E.At(s.seenIds, id, 0) == E.Count(ids, id);
    E.NumberedSnoc(ids, id);
    var seen := NoteId(s, id).seenIds;
    forall x ensures E.At(seen, x, 0) == E.Count(ids + [id], x) && (x in seen ==> seen[x] > 0) {
      E.CountSnoc(ids, id, x);
      assert E.At(s.seenIds, x, 0) == E.Count(ids, x);
    }
  }

  lemma {:induction false} ToolsTally(c: Codec, s: State, ds: seq<ToolDelta>)
    requires Tallied(s)
    ensures Tallied(HandleTools(c, s, ds))
    decreases |ds|
  {
    if ds != [] {
      var o, d := HandleTools(c, s, ds[..|ds| - 1]), ds[|ds| - 1];
      ToolsTally(c, s, ds[..|ds| - 1]);
      if d.id == "" || d.index in o.calls {
        KnownTally(c, o, d);
      } else {
        NewTally(c, o, d);
      }
    }
  }

  lemma ToolsDeltaTally(c: Codec, s: State, ds: seq<ToolDelta>, junk: bool)
    requires Tallied(s)
    ensures Tallied(ToolsDelta(c, s, ds, junk))
  {
    if ds != [] || junk {
      var f := FlushHold(c, s, false, false);
      FlushTally(c, s, false, false);
      StaysTallied(f, f.(nativeSeen := true));
      ToolsTally(c, f.(nativeSeen := true), ds);
    }
  }

  // ----- Whole runs -----

  lemma DeltasTally(c: Codec, s: State, k: Chunk)
    requires k.Choice? && Tallied(s)
    ensures Tallied(Deltas(c, s, k))
  {
    ReasonTally(c, s, k.reasoning);
    ReasonTally(c, s, k.reasoningContent);
    var r := ReasonDelta(c, s, k);
    HoldTally(c, r, k.content);
    ToolsDeltaTally(c, ContentDelta(c, r, k.content), k.tools, k.junk);
  }

  lemma StartTally(s: State)
    requires Tallied(s)
    ensures Tallied(StartMessage(s))
  {
    StaysTallied(s, StartMessage(s));
  }

  lemma FinishSame(o: State, k: Chunk)
    ensures AsTallied(o, Finish(o, k))
  {
    if Finishes(k) && !o.finishSent {
    } else {
    }
  }

  lemma FinishTally(o: State, k: Chunk)
    requires k.Choice? && Tallied(o)
    ensures Tallied(Finish(if k.usage.Some? then o.(usage := k.usage) else o, k))
  {
    var u := if k.usage.Some? then o.(usage := k.usage) else o;
    StaysTallied(o, u);
    FinishSame(u, k);
    StaysTallied(u, Finish(u, k));
  }

  lemma ChunkTally(c: Codec, s: State, k: Chunk)
    requires Tallied(s)
    ensures Tallied(ProcessChunk(c, s, k))
  {
    match k
    case NoChoice(usage) =>
      StaysTallied(s, s.(usage := usage));
      StartTally(s.(usage := usage));
    case MalformedChoice =>
    case Choice(_, _, _, _, _, _, usage) =>
      if s.finishSent {
        FinishTally(s, k);
      } else {
        var started := if s.board.startSent then s else StartMessage(s);
        StartTally(s);
        DeltasTally(c, started, k);
        FinishTally(Deltas(c, started, k), k);
      }
  }

  lemma EmptyTally(s: State)
    requires s.outputLen == 0 && s.log.accepted == [] && s.log.tools == [] && s.calls == map[]
    requires s.board.trace == Empty && s.seenIds == map[]
    ensures Tallied(s)
  {
    assert ToolIds(s.board.trace) == [] && FirstSight(s.log.tools) == [] && NewIds(s.log.tools) == [];
  }

  lemma {:induction false} ChunksTally(c: Codec, ks: seq<Chunk>)
    ensures Tallied(ProcessChunks(c, Init, ks))
    decreases |ks|
  {
    if ks == [] {
      EmptyTally(Init);
    } else {
      ChunksTally(c, ks[..|ks| - 1]);
      ChunkTally(c, ProcessChunks(c, Init, ks[..|ks| - 1]), ks[|ks| - 1]);
    }
  }

  /** The state whose tool blocks are about to be closed. */
  function Drained(c: Codec, ks: seq<Chunk>): State {
    var s := ProcessChunks(c, Init, ks);
    FlushHold(c, s, !s.nativeSeen, true)
  }

  lemma DrainedTally(c: Codec, ks: seq<Chunk>)
    ensures Tallied(Drained(c, ks))
  {
    var s := ProcessChunks(c, Init, ks);
    ChunksTally(c, ks);
    FlushTally(c, s, !s.nativeSeen, true);
  }

  lemma ClosingIds(c: Codec, f: State)
    ensures var o := Closed(c, f);
            && ToolIds(o.board.trace) == ToolIds(f.board.trace) && o.log == f.log && o.usage == f.usage
            && o.outputLen == f.outputLen + TotalLength(f.pending)
  {
    var q := CloseProseOf(f);
    var t := CloseTools(c, q);
    CloseProseIds(f.board);
    StopIds(q.board, AllArgs(c, q));
    WriteAllIds(t.board, t.pending);
    CloseProseIds(WriteAll(t.board, t.pending));
  }

  /** What closing the blocks and ending the message leave alone. */
  predicate SameIds(f: State, s: State) {
    ToolIds(s.board.trace) == ToolIds(f.board.trace) && s.log == f.log && s.orphanRecovered == f.orphanRecovered
  }

  lemma ClosedIds(c: Codec, f: State)
    ensures SameIds(f, Tail(Closed(c, f)))
  {
    var o := Closed(c, f);
    ClosingIds(c, f);
    assert o.orphanRecovered == f.orphanRecovered;
    assert ToolIds(Tail(o).board.trace) == ToolIds(o.board.trace);
  }

  lemma StreamIds(c: Codec, ks: seq<Chunk>)
    ensures SameIds(Drained(c, ks), Stream(c, ks))
  {
    var s := ProcessChunks(c, Init, ks);
    assert !s.closed by {
      ChunksKeep(c, ks);
    }
    if s.finishSent {
      ClosedIds(c, Drained(c, ks));
    }
  }

  ghost predicate AllDistinct(ids: seq<string>) {
    forall i, j :: 0 <= i < j < |ids| ==> ids[i] != ids[j]
  }

  /** The tool blocks of a stream without recovered calls carry the ids received, numbered by occurrence;
      they are pairwise distinct if and only if no id received reads like a numbered occurrence of
      another one that is received more often. */
  lemma ToolIdsDistinct(c: Codec, ks: seq<Chunk>)
    requires !Stream(c, ks).orphanRecovered
    ensures var ids, received := ToolIds(Stream(c, ks).board.trace), NewIds(Carry(ks).tools);
            ids == E.Numbered(received) && (AllDistinct(ids) <==> !E.Clash(received))
  {
    var s := ProcessChunks(c, Init, ks);
    var received := NewIds(Drained(c, ks).log.tools);
    DrainedTally(c, ks);
    StreamIds(c, ks);
    ReceivedTools(c, ks);
    E.FinalIdsDistinct(received);
    forall i | 0 <= i < |received| ensures E.Numbered(received)[i] == E.FinalId(received, i) {
      E.NumberedAt(received, i);
    }
  }

  lemma ReceivedTools(c: Codec, ks: seq<Chunk>)
    requires !Stream(c, ks).orphanRecovered
    ensures Drained(c, ks).log.tools == Carry(ks).tools
  {
    var s := ProcessChunks(c, Init, ks);
    ChunksKeep(c, ks);
    StreamIds(c, ks);
    if s.board.startSent {
      Flushed(c, s, !s.nativeSeen, true);
    }
  }

  /** What the prose that had to wait behind tool blocks adds to a count. */
  function Waited(c: Codec, ks: seq<Chunk>): seq<Fragment> {
    Drained(c, ks).pending
  }

  function Estimate(length: nat): nat {
    if length > 0 && length / 4 == 0 then 1 else length / 4
  }

  lemma DrainedParts(c: Codec, ks: seq<Chunk>)
    requires Carry(ks).finished
    ensures var f := Drained(c, ks);
            See(f.board.trace).prose + f.pending == f.log.accepted && f.usage == Carry(ks).usage && Weighed(f)
  {
    var s := ProcessChunks(c, Init, ks);
    ChunksKeep(c, ks);
    DrainedTally(c, ks);
    Flushed(c, s, !s.nativeSeen, true);
  }

  lemma FinishedIsTail(c: Codec, ks: seq<Chunk>)
    requires Carry(ks).finished
    ensures Stream(c, ks).board == Tail(Closed(c, Drained(c, ks))).board
  {
    FinishedStream(c, ks);
  }

  ghost function Closed(c: Codec, f: State): State {
    CloseProseOf(FlushPending(CloseTools(c, CloseProseOf(f))))
  }

  lemma ReportedUsage(c: Codec, ks: seq<Chunk>, f: State)
    requires Carry(ks).finished && Carry(ks).usage.None? && f == Drained(c, ks)
    ensures Reports(Stream(c, ks).board.trace, f.outputLen + TotalLength(f.pending))
  {
    DrainedParts(c, ks);
    ClosingIds(c, f);
    FinishedIsTail(c, ks);
    TailLast(Closed(c, f));
  }

  /** The message ends by reporting the estimate of a length. */
  predicate Reports(t: Trace, length: nat) {
    var trace := Events(t);
    && |trace| >= 2 && trace[|trace| - 2].MessageDelta?
    && trace[|trace| - 2].usage == Usage(0, Estimate(length), 0, 0)
  }

  /** A finished stream without usage reports an estimate from all prose accepted and all arguments
      received, with the prose that had to wait behind tool blocks counted twice; that prose is what was
      accepted and not emitted before the blocks were closed. */
  lemma WaitingCountsTwice(c: Codec, ks: seq<Chunk>)
    requires Carry(ks).finished && Carry(ks).usage.None?
    ensures See(Drained(c, ks).board.trace).prose + Waited(c, ks) == Stream(c, ks).log.accepted
    ensures var l := Stream(c, ks).log;
            Reports(Stream(c, ks).board.trace,
                    TotalLength(l.accepted) + TotalArgs(l.tools) + TotalLength(Waited(c, ks)))
  {
    DrainedParts(c, ks);
    StreamIds(c, ks);
    ReportedUsage(c, ks, Drained(c, ks));
  }
}
