/** The two streaming stages together: upstream lines through the normaliser, its output through the
    Claude translator. */
module StreamPipeline {
  import opened Basics
  import opened ClaudeEvents
  import opened ClaudeBlocks
  import opened ClaudeStream
  import opened ClaudeStreamRuns
  import N = OpenAIStream

  /** The translator's side: chunks are processed, the end marker finalizes, nothing follows it, and
      the end of the stream finalizes too. */
  ghost function Receive(c: Codec, s: State, line: N.Downstream): State {
    if s.closed then s else
      match line
      case Passed => s
      case DoneLine => Finalize(c, s)
      case ChunkLine(k) => ProcessChunk(c, s, k)
  }

  ghost function ReceiveAll(c: Codec, lines: seq<N.Downstream>): State {
    if lines == [] then Init else Receive(c, ReceiveAll(c, lines[..|lines| - 1]), lines[|lines| - 1])
  }

  /** What the client of a whole upstream stream has received. */
  ghost function Client(c: Codec, g: N.Config, lines: seq<N.Upstream>): State {
    Finalize(c, ReceiveAll(c, N.Normalize(g, lines)))
  }

  /** The chunks that get through before the end marker. */
  datatype Delivery = Delivery(chunks: seq<Chunk>, closed: bool)

  function Deliver(lines: seq<N.Downstream>): Delivery {
    if lines == [] then Delivery([], false) else DeliverOne(Deliver(lines[..|lines| - 1]), lines[|lines| - 1])
  }

  function DeliverOne(d: Delivery, line: N.Downstream): Delivery {
    if d.closed then d else
      match line
      case Passed => d
      case DoneLine => d.(closed := true)
      case ChunkLine(k) => d.(chunks := d.chunks + [k])
  }

  lemma {:induction false} ReceivedIsDelivered(c: Codec, lines: seq<N.Downstream>)
    ensures var d, s := Deliver(lines), ReceiveAll(c, lines);
            s.closed == d.closed && s == if d.closed then Stream(c, d.chunks) else ProcessChunks(c, Init, d.chunks)
    decreases |lines|
  {
    if lines != [] {
      var front := lines[..|lines| - 1];
      ReceivedIsDelivered(c, front);
      ReceivedOne(c, Deliver(front), ReceiveAll(c, front), lines[|lines| - 1]);
    } else {
      assert Init.closed == false;
    }
  }

  lemma StaysOpen(c: Codec, ks: seq<Chunk>)
    ensures !ProcessChunks(c, Init, ks).closed
  {
    ChunksKeep(c, ks);
  }

  lemma ReceivedOne(c: Codec, d: Delivery, s: State, line: N.Downstream)
    requires s == if d.closed then Stream(c, d.chunks) else ProcessChunks(c, Init, d.chunks)
    requires s.closed == d.closed
    ensures var e, t := DeliverOne(d, line), Receive(c, s, line);
            t.closed == e.closed && t == if e.closed then Stream(c, e.chunks) else ProcessChunks(c, Init, e.chunks)
  {
    if line.ChunkLine? {
      assert (d.chunks + [line.chunk])[..|d.chunks|] == d.chunks;
      StaysOpen(c, d.chunks + [line.chunk]);
    }
  }

  // ----- What the upstream sent before its end marker -----

  datatype Survey = Survey(ended: bool, parsed: bool, anyFinish: bool, realFinish: bool)

  function Look(lines: seq<N.Upstream>): Survey {
    if lines == [] then Survey(false, false, false, false) else LookOne(Look(lines[..|lines| - 1]), lines[|lines| - 1])
  }

  function LookOne(v: Survey, line: N.Upstream): Survey {
    if v.ended then v
    else if line.Done? then v.(ended := true)
    else if !line.Parsed? then v
    else v.(parsed := true, anyFinish := v.anyFinish || N.FinishText(line.chunk) != "",
            realFinish := v.realFinish || Finishes(line.chunk))
  }

  /** A usable finish reason came, or a chunk came and none of them had any finish text at all. */
  predicate Ends(v: Survey) {
    v.realFinish || (v.parsed && !v.anyFinish)
  }

  lemma CarrySnoc(ks: seq<Chunk>, k: Chunk)
    ensures Carry(ks + [k]) == CarryOne(Carry(ks), k)
  {
    assert (ks + [k])[..|ks|] == ks;
  }

  lemma DeliverSnoc(lines: seq<N.Downstream>, line: N.Downstream)
    ensures Deliver(lines + [line]) == DeliverOne(Deliver(lines), line)
  {
    assert (lines + [line])[..|lines|] == lines;
  }

  /** Whether the chunks delivered so far include a finish reason. */
  predicate Finished(lines: seq<N.Downstream>) {
    Carry(Deliver(lines).chunks).finished
  }

  lemma FinishedSnoc(lines: seq<N.Downstream>, line: N.Downstream)
    ensures Deliver(lines + [line]).closed == (Deliver(lines).closed || line.DoneLine?)
    ensures Finished(lines + [line]) ==
            (Finished(lines) || (!Deliver(lines).closed && line.ChunkLine? && Finishes(line.chunk)))
  {
    DeliverSnoc(lines, line);
    if line.ChunkLine? {
      CarrySnoc(Deliver(lines).chunks, line.chunk);
    }
  }

  /** Repaired arguments carry no finish reason and no end marker. */
  lemma {:induction false} RepairsPass(g: N.Config, args: map<int, string>, indexes: seq<int>, out: seq<N.Downstream>)
    ensures var all := out + N.RepairedLines(g, args, indexes);
            Deliver(all).closed == Deliver(out).closed && Finished(all) == Finished(out)
    decreases |indexes|
  {
    if indexes == [] {
      assert out + [] == out;
    } else {
      var front, i := indexes[..|indexes| - 1], indexes[|indexes| - 1];
      RepairsPass(g, args, front, out);
      var some := N.RepairedLines(g, args, front);
      if N.Buffered(args, i) == "" {
        assert some + [] == some;
      } else {
        var line := N.RepairedChunk(g, i, N.Buffered(args, i));
        FinishedSnoc(out + some, line);
        SeqAssoc(out, some, [line]);
      }
    }
  }

  lemma EmitPasses(g: N.Config, n: N.Normalizer)
    ensures var r := N.EmitRepaired(g, n);
            Deliver(r.out).closed == Deliver(n.out).closed && Finished(r.out) == Finished(n.out) &&
            r.metaCaptured == n.metaCaptured && r.seenFinish == n.seenFinish
  {
    RepairsPass(g, n.toolArgs, g.order(n.toolSeen), n.out);
  }

  ghost predicate Tracks(n: N.Normalizer, v: Survey) {
    && Deliver(n.out).closed == v.ended
    && (v.realFinish ==> v.anyFinish)
    && (!v.ended ==> n.metaCaptured == v.parsed && n.seenFinish == v.anyFinish && Finished(n.out) == v.realFinish)
    && (v.ended ==> Finished(n.out) == Ends(v))
  }

  lemma TracksEnd(g: N.Config, n: N.Normalizer, v: Survey)
    requires Tracks(n, v) && !v.ended
    ensures var r := N.EmitRepaired(g, n);
            Finished(if N.NeedsTerminal(n) then N.Write(r, N.Synthesized(n.toolSeen)).out else r.out) == Ends(v)
    ensures var r := N.EmitRepaired(g, n);
            !Deliver(if N.NeedsTerminal(n) then N.Write(r, N.Synthesized(n.toolSeen)).out else r.out).closed
  {
    EmitPasses(g, n);
    FinishedSnoc(N.EmitRepaired(g, n).out, N.Synthesized(n.toolSeen));
  }

  lemma TracksDone(g: N.Config, n: N.Normalizer, v: Survey)
    requires Tracks(n, v)
    ensures Tracks(N.OnDone(g, n), LookOne(v, N.Done))
  {
    var r := N.EmitRepaired(g, n);
    var t := if N.NeedsTerminal(n) then N.Write(r, N.Synthesized(n.toolSeen)) else r;
    EmitPasses(g, n);
    FinishedSnoc(r.out, N.Synthesized(n.toolSeen));
    FinishedSnoc(t.out, N.DoneLine);
    if !v.ended {
      TracksEnd(g, n, v);
    }
  }

  /** What a chunk leaves in the normaliser before its own line is written. */
  function Noted(n: N.Normalizer, k: Chunk): N.Normalizer {
    n.(metaCaptured := true, toolArgs := N.Collect(n.toolArgs, N.ToolsOf(k)),
       toolSeen := n.toolSeen + N.Indexes(N.ToolsOf(k)), seenFinish := n.seenFinish || N.FinishText(k) != "")
  }

  lemma ChunkWritten(g: N.Config, n: N.Normalizer, k: Chunk)
    ensures var r := if N.FinishText(k) != "" then N.EmitRepaired(g, Noted(n, k)) else Noted(n, k);
            N.OnChunk(g, n, k) == N.Write(r, N.ChunkLine(N.Normalized(g, k)))
  {
  }

  lemma TracksChunk(g: N.Config, n: N.Normalizer, v: Survey, k: Chunk)
    requires Tracks(n, v)
    ensures Tracks(N.OnChunk(g, n, k), LookOne(v, N.Parsed(k)))
  {
    var noted := Noted(n, k);
    var r := if N.FinishText(k) != "" then N.EmitRepaired(g, noted) else noted;
    ChunkWritten(g, n, k);
    EmitPasses(g, noted);
    FinishedSnoc(r.out, N.ChunkLine(N.Normalized(g, k)));
    assert Finishes(N.Normalized(g, k)) == Finishes(k);
  }

  lemma TracksLine(g: N.Config, n: N.Normalizer, v: Survey, line: N.Upstream)
    requires Tracks(n, v)
    ensures Tracks(N.OnLine(g, n, line), LookOne(v, line))
  {
    match line
    case Blank =>
    case NotData => FinishedSnoc(n.out, N.Passed);
    case Unparsed => FinishedSnoc(n.out, N.Passed);
    case Done => TracksDone(g, n, v);
    case Parsed(k) => TracksChunk(g, n, v, k);
  }

  lemma {:induction false} TracksLines(g: N.Config, lines: seq<N.Upstream>)
    ensures Tracks(N.OnLines(g, lines), Look(lines))
    decreases |lines|
  {
    if lines != [] {
      TracksLines(g, lines[..|lines| - 1]);
      TracksLine(g, N.OnLines(g, lines[..|lines| - 1]), Look(lines[..|lines| - 1]), lines[|lines| - 1]);
    }
  }

  /** The client's trace is the translation of the chunks delivered, which carry a finish reason
      exactly when the upstream's end is usable. */
  lemma ClientIsStream(c: Codec, g: N.Config, lines: seq<N.Upstream>)
    ensures Client(c, g, lines) == Stream(c, Deliver(N.Normalize(g, lines)).chunks)
    ensures Finished(N.Normalize(g, lines)) == Ends(Look(lines))
  {
    var n, v := N.OnLines(g, lines), Look(lines);
    var out := N.Normalize(g, lines);
    TracksLines(g, lines);
    assert Finished(out) == Ends(v) by {
      EmitPasses(g, n);
      FinishedSnoc(N.EmitRepaired(g, n).out, N.Synthesized(n.toolSeen));
      if !v.ended {
        TracksEnd(g, n, v);
      }
    }
    ReceivedIsDelivered(c, out);
  }

  /** For every upstream stream, however it ends, the client gets one complete message exactly when
      a chunk arrived before the end marker and either one of those chunks had a usable finish reason
      or none had any finish text; otherwise it gets a well-formed beginning of one. */
  lemma ClientGetsOneMessage(c: Codec, g: N.Config, lines: seq<N.Upstream>)
    ensures var trace := Events(Client(c, g, lines).board.trace);
            !Run(trace).Broken? && (Run(trace).Ended? <==> Ends(Look(lines)))
  {
    ClientIsStream(c, g, lines);
    TraceWellFormed(c, Deliver(N.Normalize(g, lines)).chunks);
  }

  /** A finish reason spelled "null" satisfies the normaliser but not the translator, so the message
      is never ended. */
  lemma NullFinishNeverEnds(c: Codec, g: N.Config, k: Chunk)
    requires k.Choice? && k.finish == "null"
    ensures !Run(Events(Client(c, g, [N.Parsed(k), N.Done]).board.trace)).Ended?
  {
    var lines := [N.Parsed(k), N.Done];
    ClientGetsOneMessage(c, g, lines);
    assert lines[..1] == [N.Parsed(k)] && lines[..1][..0] == [];
    assert Look(lines) == LookOne(LookOne(Look([]), N.Parsed(k)), N.Done);
  }
}
