/** Tool arguments through both streaming stages: the normaliser withholds every fragment and sends
    one repaired whole before the finish chunk; what reaches the translator's buffers is that whole. */
module StreamPipelineArgs {
  import opened Basics
  import opened ClaudeEvents
  import opened ClaudeBlocks
  import opened ClaudeStream
  import opened ClaudeStreamRuns
  import opened StreamPipeline
  import N = OpenAIStream
  import R = ClaudeRecovered

  /** All fragments of an index, in arrival order. */
  function Joined(ds: seq<ToolDelta>, i: int): string {
    if ds == [] then "" else
      Joined(ds[..|ds| - 1], i) + if ds[|ds| - 1].index == i then ds[|ds| - 1].args else ""
  }

  ghost predicate Enumerates(xs: seq<int>, s: set<int>) {
    && |xs| == |s| && (forall x :: x in xs <==> x in s)
    && (forall i, j :: 0 <= i < j < |xs| ==> xs[i] != xs[j])
  }

  /** The delta that carries the repaired arguments of an index, if there are any. */
  function RepairDelta(g: N.Config, args: map<int, string>, i: int): seq<ToolDelta> {
    if N.Buffered(args, i) == "" then [] else [ToolDelta(i, "", "", g.repair(N.Buffered(args, i)))]
  }

  function RepairDeltas(g: N.Config, args: map<int, string>, indexes: seq<int>): seq<ToolDelta> {
    if indexes == [] then [] else
      RepairDeltas(g, args, indexes[..|indexes| - 1]) + RepairDelta(g, args, indexes[|indexes| - 1])
  }

  // ----- First sight and arguments of concatenated deltas -----

  lemma {:induction false} Stripped(ds: seq<ToolDelta>)
    ensures FirstSight(N.StripAll(ds)) == FirstSight(ds)
    ensures forall i :: ArgsSince(N.StripAll(ds), i) == ""
  {
    if ds != [] {
      var front, d := ds[..|ds| - 1], ds[|ds| - 1];
      Stripped(front);
      DeltaSnoc(N.StripAll(front), N.Strip(d));
    }
  }

  /** Deltas without ids add no block; stripped ones add no arguments. */
  lemma {:induction false} AppendStripped(xs: seq<ToolDelta>, ys: seq<ToolDelta>, ds: seq<ToolDelta>)
    requires FirstSight(xs) == FirstSight(ys)
    ensures FirstSight(xs + N.StripAll(ds)) == FirstSight(ys + ds)
    ensures forall i :: ArgsSince(xs + N.StripAll(ds), i) == ArgsSince(xs, i)
    decreases |ds|
  {
    if ds == [] {
      assert xs + N.StripAll(ds) == xs && ys + ds == ys;
    } else {
      var front, d := ds[..|ds| - 1], ds[|ds| - 1];
      AppendStripped(xs, ys, front);
      DeltaSnoc(xs + N.StripAll(front), N.Strip(d));
      DeltaSnoc(ys + front, d);
      SeqAssoc(xs, N.StripAll(front), [N.Strip(d)]);
      SplitLast(ds);
      SeqAssoc(ys, front, [d]);
    }
  }

  /** What repaired arguments add for an index. */
  function Repairs(g: N.Config, xs: seq<ToolDelta>, args: map<int, string>, indexes: seq<int>, i: int): string {
    if i in indexes && i in FirstSight(xs) && N.Buffered(args, i) != "" then g.repair(N.Buffered(args, i)) else ""
  }

  lemma {:induction false} AppendRepaired(g: N.Config, xs: seq<ToolDelta>, args: map<int, string>, indexes: seq<int>)
    requires forall i, j :: 0 <= i < j < |indexes| ==> indexes[i] != indexes[j]
    ensures var all := xs + RepairDeltas(g, args, indexes);
            FirstSight(all) == FirstSight(xs) && forall i ::
              ArgsSince(all, i) == ArgsSince(xs, i) + Repairs(g, xs, args, indexes, i)
    decreases |indexes|
  {
    if indexes == [] {
      assert xs + RepairDeltas(g, args, indexes) == xs;
      assert forall i :: ArgsSince(xs, i) + "" == ArgsSince(xs, i);
    } else {
      var front, k := indexes[..|indexes| - 1], indexes[|indexes| - 1];
      AppendRepaired(g, xs, args, front);
      AppendOne(g, xs, args, front, k);
      SplitLast(indexes);
    }
  }

  /** What the repaired delta of one index adds. */
  function Addition(g: N.Config, xs: seq<ToolDelta>, args: map<int, string>, k: int, i: int): string {
    if i == k && k in FirstSight(xs) && N.Buffered(args, k) != "" then g.repair(N.Buffered(args, k)) else ""
  }

  lemma AppendDelta(g: N.Config, before: seq<ToolDelta>, args: map<int, string>, k: int)
    ensures var all := before + RepairDelta(g, args, k);
            FirstSight(all) == FirstSight(before) && forall i ::
              ArgsSince(all, i) == ArgsSince(before, i) + Addition(g, before, args, k, i)
  {
    var last := RepairDelta(g, args, k);
    assert forall i :: ArgsSince(before, i) + "" == ArgsSince(before, i);
    if last == [] {
      assert before + [] == before;
    } else {
      DeltaSnoc(before, last[0]);
    }
  }

  lemma RepairsGrow(g: N.Config, xs: seq<ToolDelta>, args: map<int, string>, front: seq<int>, k: int, i: int)
    requires k !in front
    ensures Repairs(g, xs, args, front + [k], i) == Repairs(g, xs, args, front, i) + Addition(g, xs, args, k, i)
  {
    assert i in front + [k] <==> i in front || i == k;
  }

  lemma AppendOne(g: N.Config, xs: seq<ToolDelta>, args: map<int, string>, front: seq<int>, k: int)
    requires k !in front
    requires var all := xs + RepairDeltas(g, args, front);
             FirstSight(all) == FirstSight(xs) && forall i ::
               ArgsSince(all, i) == ArgsSince(xs, i) + Repairs(g, xs, args, front, i)
    ensures var all := xs + RepairDeltas(g, args, front + [k]);
            FirstSight(all) == FirstSight(xs) && forall i ::
              ArgsSince(all, i) == ArgsSince(xs, i) + Repairs(g, xs, args, front + [k], i)
  {
    var before := xs + RepairDeltas(g, args, front);
    var all := xs + RepairDeltas(g, args, front + [k]);
    assert all == before + RepairDelta(g, args, k) by {
      assert (front + [k])[..|front|] == front;
      SeqAssoc(xs, RepairDeltas(g, args, front), RepairDelta(g, args, k));
    }
    AppendDelta(g, before, args, k);
    forall i ensures ArgsSince(all, i) == ArgsSince(xs, i) + Repairs(g, xs, args, front + [k], i) {
      RepairsGrow(g, xs, args, front, k, i);
      assert Addition(g, before, args, k, i) == Addition(g, xs, args, k, i);
      SeqAssoc(ArgsSince(xs, i), Repairs(g, xs, args, front, i), Addition(g, xs, args, k, i));
    }
  }

  // ----- What the upstream sent in time -----

  /** The tool deltas of the chunks before the first one with finish text, those of that chunk, and
      those of later chunks up to the one with a usable finish reason or the end marker: there are such
      only if the first finish text is the string "null". `released` says that finish text or the end
      marker has come, `over` that the message has ended. */
  datatype Timing = Timing(before: seq<ToolDelta>, last: seq<ToolDelta>, later: seq<ToolDelta>, released: bool,
                           over: bool)

  function Time(lines: seq<N.Upstream>): Timing {
    if lines == [] then Timing([], [], [], false, false) else TimeOne(Time(lines[..|lines| - 1]), lines[|lines| - 1])
  }

  function TimeOne(t: Timing, line: N.Upstream): Timing {
    if t.over then t
    else if line.Done? then t.(released := true, over := true)
    else if !line.Parsed? then t
    else if t.released then t.(later := t.later + N.ToolsOf(line.chunk), over := Finishes(line.chunk))
    else if N.FinishText(line.chunk) != "" then
      t.(last := line.chunk.tools, released := true, over := Finishes(line.chunk))
    else t.(before := t.before + N.ToolsOf(line.chunk))
  }

  /** Every delta that names an index in time. */
  function Named(t: Timing): seq<ToolDelta> {
    t.before + (t.last + t.later)
  }

  /** What an index gets: all its string fragments up to the first finish text, joined and repaired, or
      nothing if it was not named with an id before. */
  function Delivered(g: N.Config, t: Timing, i: int): string {
    var whole := Joined(t.before + t.last, i);
    if i in FirstSight(t.before) && whole != "" then g.repair(whole) else ""
  }

  /** What the translator is given: bare deltas, then the repaired wholes, then the rest, bare. */
  function Expected(g: N.Config, t: Timing): seq<ToolDelta> {
    var all := t.before + t.last;
    N.StripAll(t.before) +
    RepairDeltas(g, N.Collect(map[], all), g.order(N.Indexes(all))) +
    N.StripAll(t.last + t.later)
  }

  /** Each index that got a block before the first finish text ends with its whole repaired arguments; an
      index first named later ends with none. */
  lemma ExpectedArgs(g: N.Config, t: Timing, i: int)
    requires Enumerates(g.order(N.Indexes(t.before + t.last)), N.Indexes(t.before + t.last))
    ensures FirstSight(Expected(g, t)) == FirstSight(Named(t)) && ArgsSince(Expected(g, t), i) == Delivered(g, t, i)
  {
    var all := t.before + t.last;
    var args, order := N.Collect(map[], all), g.order(N.Indexes(all));
    var bare := N.StripAll(t.before);
    var repaired := bare + RepairDeltas(g, args, order);
    assert ArgsSince(bare, i) == "" && FirstSight(bare) == FirstSight(t.before) by {
      Stripped(t.before);
    }
    assert N.Buffered(args, i) == Joined(all, i) by {
      Collected(map[], all, i);
      assert "" + Joined(all, i) == Joined(all, i);
    }
    assert i !in order ==> Joined(all, i) == "" by {
      if i !in order {
        JoinedAbsent(all, i);
      }
    }
    var sent := Delivered(g, t, i);
    assert ArgsSince(repaired, i) == sent && FirstSight(repaired) == FirstSight(t.before) by {
      AppendRepaired(g, bare, args, order);
      assert "" + sent == sent;
    }
    AppendStripped(repaired, t.before, t.last + t.later);
  }

  lemma {:induction false} Collected(args: map<int, string>, ds: seq<ToolDelta>, i: int)
    ensures N.Buffered(N.Collect(args, ds), i) == N.Buffered(args, i) + Joined(ds, i)
    decreases |ds|
  {
    if ds == [] {
      assert N.Buffered(args, i) + "" == N.Buffered(args, i);
    } else {
      var front, d := ds[..|ds| - 1], ds[|ds| - 1];
      Collected(args, front, i);
      SeqAssoc(N.Buffered(args, i), Joined(front, i), if d.index == i then d.args else "");
    }
  }

  lemma {:induction false} JoinedAbsent(ds: seq<ToolDelta>, i: int)
    requires i !in N.Indexes(ds)
    ensures Joined(ds, i) == ""
  {
    if ds != [] {
      assert ds[|ds| - 1] in ds;
      assert forall d :: d in ds[..|ds| - 1] ==> d in ds;
      JoinedAbsent(ds[..|ds| - 1], i);
    }
  }

  // ----- The whole pipeline -----

  function CarriedTools(out: seq<N.Downstream>): seq<ToolDelta> {
    Carry(Deliver(out).chunks).tools
  }

  /** A chunk line adds its deltas unless a finish or the end marker came first. */
  lemma ToolsSnoc(out: seq<N.Downstream>, line: N.Downstream)
    ensures CarriedTools(out + [line]) == CarriedTools(out) +
            if !Deliver(out).closed && !Finished(out) && line.ChunkLine? then N.ToolsOf(line.chunk) else []
  {
    DeliverSnoc(out, line);
    ToolsOne(Deliver(out), line);
  }

  lemma ToolsOne(d: Delivery, line: N.Downstream)
    ensures var r := Carry(d.chunks);
            Carry(DeliverOne(d, line).chunks).tools ==
            r.tools + if !d.closed && !r.finished && line.ChunkLine? then N.ToolsOf(line.chunk) else []
  {
    assert Carry(d.chunks).tools + [] == Carry(d.chunks).tools;
    if line.ChunkLine? {
      CarrySnoc(d.chunks, line.chunk);
      CarryTools(Carry(d.chunks), line.chunk);
    }
  }

  lemma CarryTools(r: Carried, k: Chunk)
    ensures CarryOne(r, k).tools == r.tools + if r.finished then [] else N.ToolsOf(k)
  {
    assert r.tools + [] == r.tools;
  }

  lemma {:induction false} ToolsRepaired(g: N.Config, args: map<int, string>, indexes: seq<int>, out: seq<N.Downstream>)
    requires !Deliver(out).closed && !Finished(out)
    ensures CarriedTools(out + N.RepairedLines(g, args, indexes)) == CarriedTools(out) + RepairDeltas(g, args, indexes)
    decreases |indexes|
  {
    if indexes == [] {
      assert out + [] == out && CarriedTools(out) + [] == CarriedTools(out);
    } else {
      var front, i := indexes[..|indexes| - 1], indexes[|indexes| - 1];
      var some := N.RepairedLines(g, args, front);
      ToolsRepaired(g, args, front, out);
      SeqAssoc(CarriedTools(out), RepairDeltas(g, args, front), RepairDelta(g, args, i));
      if N.Buffered(args, i) == "" {
        assert some + [] == some;
        assert RepairDeltas(g, args, front) + [] == RepairDeltas(g, args, front);
      } else {
        var line := N.RepairedChunk(g, i, N.Buffered(args, i));
        RepairsPass(g, args, front, out);
        ToolsSnoc(out + some, line);
        SeqAssoc(out, some, [line]);
      }
    }
  }

  /** Before the first finish text everything is withheld; from then on the expected deltas are out. */
  ghost predicate Withholds(g: N.Config, n: N.Normalizer, t: Timing) {
    if !t.released then
      && !t.over && !Deliver(n.out).closed && !Finished(n.out) && !n.finished && !n.seenFinish
      && t.last == [] && t.later == []
      && CarriedTools(n.out) == N.StripAll(t.before)
      && n.toolArgs == N.Collect(map[], t.before) && n.toolSeen == N.Indexes(t.before)
    else
      && n.finished && CarriedTools(n.out) == Expected(g, t)
      && (t.over <==> Deliver(n.out).closed || Finished(n.out)) && (!t.over ==> n.seenFinish)
  }

  lemma {:induction false} CollectAppend(args: map<int, string>, xs: seq<ToolDelta>, ys: seq<ToolDelta>)
    ensures N.Collect(args, xs + ys) == N.Collect(N.Collect(args, xs), ys)
    decreases |ys|
  {
    if ys == [] {
      assert xs + ys == xs;
    } else {
      CollectAppend(args, xs, ys[..|ys| - 1]);
      assert (xs + ys)[..|xs + ys| - 1] == xs + ys[..|ys| - 1];
    }
  }

  lemma {:induction false} StripAppend(xs: seq<ToolDelta>, ys: seq<ToolDelta>)
    ensures N.StripAll(xs + ys) == N.StripAll(xs) + N.StripAll(ys)
    decreases |ys|
  {
    if ys == [] {
      assert xs + ys == xs;
    } else {
      StripAppend(xs, ys[..|ys| - 1]);
      assert (xs + ys)[..|xs + ys| - 1] == xs + ys[..|ys| - 1];
    }
  }

  lemma IndexesAppend(xs: seq<ToolDelta>, ys: seq<ToolDelta>)
    ensures N.Indexes(xs + ys) == N.Indexes(xs) + N.Indexes(ys)
  {
  }

  /** Emitting the repaired wholes brings the carried deltas up to the finish chunk's own. */
  lemma EmitsExpected(g: N.Config, n: N.Normalizer, t: Timing)
    requires !Deliver(n.out).closed && !Finished(n.out) && !n.finished && t.later == []
    requires CarriedTools(n.out) == N.StripAll(t.before)
    requires n.toolArgs == N.Collect(map[], t.before + t.last) && n.toolSeen == N.Indexes(t.before + t.last)
    ensures CarriedTools(N.EmitRepaired(g, n).out) + N.StripAll(t.last) == Expected(g, t)
  {
    assert t.last + t.later == t.last;
    ToolsRepaired(g, n.toolArgs, g.order(n.toolSeen), n.out);
  }

  lemma ChunkAfterOver(g: N.Config, n: N.Normalizer, t: Timing, k: Chunk)
    requires Withholds(g, n, t) && t.over && t.released
    ensures Withholds(g, N.OnChunk(g, n, k), t)
  {
    var line := N.ChunkLine(N.Normalized(g, k));
    FinishedSnoc(n.out, line);
    ToolsSnoc(n.out, line);
    assert CarriedTools(n.out) + [] == CarriedTools(n.out);
  }

  /** A chunk between a finish text that is no reason and the end. */
  lemma LaterChunk(g: N.Config, n: N.Normalizer, t: Timing, k: Chunk)
    requires Withholds(g, n, t) && !t.over && t.released
    ensures Withholds(g, N.OnChunk(g, n, k), TimeOne(t, N.Parsed(k)))
  {
    var line, tools := N.ChunkLine(N.Normalized(g, k)), N.ToolsOf(k);
    FinishedSnoc(n.out, line);
    ToolsSnoc(n.out, line);
    LaterExpected(g, t, tools);
    assert CarriedTools(n.out + [line]) == CarriedTools(n.out) + N.StripAll(tools);
  }

  lemma LaterExpected(g: N.Config, t: Timing, tools: seq<ToolDelta>)
    ensures Expected(g, t.(later := t.later + tools)) == Expected(g, t) + N.StripAll(tools)
  {
    SeqAssoc(t.last, t.later, tools);
    StripAppend(t.last + t.later, tools);
    var all := t.before + t.last;
    SeqAssoc(N.StripAll(t.before) + RepairDeltas(g, N.Collect(map[], all), g.order(N.Indexes(all))),
             N.StripAll(t.last + t.later), N.StripAll(tools));
  }

  lemma PlainChunk(g: N.Config, n: N.Normalizer, t: Timing, k: Chunk)
    requires Withholds(g, n, t) && !t.released && N.FinishText(k) == ""
    ensures Withholds(g, N.OnChunk(g, n, k), TimeOne(t, N.Parsed(k)))
  {
    var line := N.ChunkLine(N.Normalized(g, k));
    CollectAppend(map[], t.before, N.ToolsOf(k));
    StripAppend(t.before, N.ToolsOf(k));
    IndexesAppend(t.before, N.ToolsOf(k));
    FinishedSnoc(n.out, line);
    ToolsSnoc(n.out, line);
  }

  lemma FinishChunk(g: N.Config, n: N.Normalizer, t: Timing, k: Chunk)
    requires Withholds(g, n, t) && !t.released && N.FinishText(k) != ""
    ensures Withholds(g, N.OnChunk(g, n, k), TimeOne(t, N.Parsed(k)))
  {
    var noted := n.(metaCaptured := true, toolArgs := N.Collect(n.toolArgs, k.tools),
                    toolSeen := n.toolSeen + N.Indexes(k.tools), seenFinish := true);
    var line := N.ChunkLine(N.Normalized(g, k));
    var r := N.EmitRepaired(g, noted);
    CollectAppend(map[], t.before, k.tools);
    IndexesAppend(t.before, k.tools);
    EmitPasses(g, noted);
    EmitsExpected(g, noted, t.(last := k.tools));
    FinishedSnoc(r.out, line);
    ToolsSnoc(r.out, line);
  }

  lemma TerminalExpected(g: N.Config, n: N.Normalizer, t: Timing)
    requires Withholds(g, n, t) && !t.released
    ensures var r := N.EmitRepaired(g, n);
            var e := if N.NeedsTerminal(n) then N.Write(r, N.Synthesized(n.toolSeen)) else r;
            CarriedTools(e.out) == Expected(g, t) && !Deliver(e.out).closed
  {
    var r := N.EmitRepaired(g, n);
    assert t.before + t.last == t.before;
    EmitPasses(g, n);
    EmitsExpected(g, n, t);
    assert CarriedTools(r.out) + [] == CarriedTools(r.out);
    FinishedSnoc(r.out, N.Synthesized(n.toolSeen));
    ToolsSnoc(r.out, N.Synthesized(n.toolSeen));
  }

  lemma WithholdsDone(g: N.Config, n: N.Normalizer, t: Timing)
    requires Withholds(g, n, t)
    ensures Withholds(g, N.OnDone(g, n), TimeOne(t, N.Done))
  {
    var r := N.EmitRepaired(g, n);
    var e := if N.NeedsTerminal(n) then N.Write(r, N.Synthesized(n.toolSeen)) else r;
    if !t.released {
      TerminalExpected(g, n, t);
    } else {
      FinishedSnoc(n.out, N.Synthesized(n.toolSeen));
      ToolsSnoc(n.out, N.Synthesized(n.toolSeen));
      assert CarriedTools(n.out) + [] == CarriedTools(n.out);
    }
    FinishedSnoc(e.out, N.DoneLine);
    ToolsSnoc(e.out, N.DoneLine);
    assert CarriedTools(e.out) + [] == CarriedTools(e.out);
  }

  lemma WithholdsPassed(g: N.Config, n: N.Normalizer, t: Timing)
    requires Withholds(g, n, t)
    ensures Withholds(g, N.Write(n, N.Passed), t)
  {
    FinishedSnoc(n.out, N.Passed);
    ToolsSnoc(n.out, N.Passed);
    assert CarriedTools(n.out) + [] == CarriedTools(n.out);
  }

  lemma {:induction false} WithholdsLines(g: N.Config, lines: seq<N.Upstream>)
    ensures Withholds(g, N.OnLines(g, lines), Time(lines))
    decreases |lines|
  {
    if lines != [] {
      var front, line := lines[..|lines| - 1], lines[|lines| - 1];
      var n, t := N.OnLines(g, front), Time(front);
      WithholdsLines(g, front);
      match line
      case Blank =>
      case NotData => WithholdsPassed(g, n, t);
      case Unparsed => WithholdsPassed(g, n, t);
      case Done => WithholdsDone(g, n, t);
      case Parsed(k) =>
        if t.over {
          ChunkAfterOver(g, n, t, k);
        } else if t.released {
          LaterChunk(g, n, t, k);
        } else if N.FinishText(k) == "" {
          PlainChunk(g, n, t, k);
        } else {
          FinishChunk(g, n, t, k);
        }
    }
  }

  /** Whatever the fragmentation, each index named with an id before the first finish text reaches the
      translator with all its string fragments up to there joined and repaired once; an index first named
      later reaches it with no arguments. */
  lemma ArgumentsSurvive(g: N.Config, lines: seq<N.Upstream>, i: int)
    requires forall s: set<int> :: Enumerates(g.order(s), s)
    ensures var t, got := Time(lines), CarriedTools(N.Normalize(g, lines));
            FirstSight(got) == FirstSight(Named(t)) && ArgsSince(got, i) == Delivered(g, t, i)
  {
    ExpectedReceived(g, lines);
    ExpectedArgs(g, Time(lines), i);
  }

  /** The deltas that reach the translator. */
  lemma ExpectedReceived(g: N.Config, lines: seq<N.Upstream>)
    requires forall s: set<int> :: Enumerates(g.order(s), s)
    ensures CarriedTools(N.Normalize(g, lines)) == Expected(g, Time(lines))
  {
    var n, t := N.OnLines(g, lines), Time(lines);
    WithholdsLines(g, lines);
    if !t.released {
      TerminalExpected(g, n, t);
      NothingWithheld(g, n, t, lines);
    } else {
      FinishedSnoc(n.out, N.Synthesized(n.toolSeen));
      ToolsSnoc(n.out, N.Synthesized(n.toolSeen));
      assert CarriedTools(n.out) + [] == CarriedTools(n.out);
    }
  }

  /** A stream that ends with no chunk at all withheld nothing. */
  lemma NothingWithheld(g: N.Config, n: N.Normalizer, t: Timing, lines: seq<N.Upstream>)
    requires forall s: set<int> :: Enumerates(g.order(s), s)
    requires n == N.OnLines(g, lines) && t == Time(lines) && Withholds(g, n, t) && !t.released
    ensures !n.metaCaptured ==> CarriedTools(n.out) == Expected(g, t)
  {
    if !n.metaCaptured {
      NoChunks(g, lines);
      var none := N.Indexes([]);
      var order := g.order(none);
      assert none == {} && Enumerates(order, none);
    }
  }

  lemma {:induction false} NoChunks(g: N.Config, lines: seq<N.Upstream>)
    requires !N.OnLines(g, lines).metaCaptured
    ensures Time(lines).before == [] && Time(lines).last == []
    decreases |lines|
  {
    if lines != [] {
      Captures(g, N.OnLines(g, lines[..|lines| - 1]), lines[|lines| - 1]);
      NoChunks(g, lines[..|lines| - 1]);
    }
  }

  lemma Captures(g: N.Config, n: N.Normalizer, line: N.Upstream)
    ensures N.OnLine(g, n, line).metaCaptured == (n.metaCaptured || line.Parsed?)
  {
  }

  /** What the client is sent for the indexes that got a block, in order of first sight. */
  function ClientArgs(c: Codec, g: N.Config, t: Timing): seq<Option<string>> {
    var keys := FirstSight(Named(t));
    seq(|keys|, n requires 0 <= n < |keys| => FinalArgs(c, Delivered(g, t, keys[n])))
  }

  /** End to end: in a stream that ends usably the client gets one tool block for every index named with
      an id, and in it, once, that index's fragments joined and repaired by both stages, or nothing if it
      had none; the blocks of calls recovered from the text come ahead of them. Where calls are recovered,
      the indexes are taken to be natural numbers, as negative ones are the keys of recovered calls. */
  lemma ClientGetsArguments(c: Codec, g: N.Config, lines: seq<N.Upstream>)
    requires forall s: set<int> :: Enumerates(g.order(s), s)
    requires Ends(Look(lines)) && (Client(c, g, lines).orphanRecovered ==> R.Natural(Named(Time(lines))))
    ensures var s, n := Client(c, g, lines), |CarriedTools(N.Normalize(g, lines))|;
            var v, recovered := See(s.board.trace), R.Ahead(s.log.tools, n);
            var args := ArgsBySight(c, recovered) + ClientArgs(c, g, Time(lines));
            && |args| == |v.tools| && v.inputs == SentInputs(v.tools, args)
            && R.Negative(recovered) && (!s.orphanRecovered ==> recovered == [])
  {
    var s, out := Client(c, g, lines), N.Normalize(g, lines);
    var got := CarriedTools(out);
    var recovered := R.Ahead(s.log.tools, |got|);
    ClientIsStream(c, g, lines);
    ContentConserved(c, Deliver(out).chunks);
    R.RecoveredComeFirst(c, Deliver(out).chunks);
    ReceivedArgs(c, g, lines);
    if s.orphanRecovered {
      ExpectedReceived(g, lines);
      ExpectedNatural(g, Time(lines));
      R.ArgsApart(c, recovered, got);
    } else {
      assert ArgsBySight(c, []) + ArgsBySight(c, got) == ArgsBySight(c, got);
    }
  }

  lemma ReceivedArgs(c: Codec, g: N.Config, lines: seq<N.Upstream>)
    requires forall s: set<int> :: Enumerates(g.order(s), s)
    ensures ArgsBySight(c, CarriedTools(N.Normalize(g, lines))) == ClientArgs(c, g, Time(lines))
  {
    var got := CarriedTools(N.Normalize(g, lines));
    ArgumentsSurvive(g, lines, 0);
    forall n | 0 <= n < |FirstSight(got)| ensures ArgsBySight(c, got)[n] == ClientArgs(c, g, Time(lines))[n] {
      ArgumentsSurvive(g, lines, FirstSight(got)[n]);
    }
  }

  lemma {:induction false} RepairNatural(g: N.Config, args: map<int, string>, indexes: seq<int>)
    requires forall i :: i in indexes ==> i >= 0
    ensures R.Natural(RepairDeltas(g, args, indexes))
  {
    if indexes != [] {
      var front := indexes[..|indexes| - 1];
      assert indexes[|indexes| - 1] in indexes && forall i :: i in front ==> i in indexes;
      RepairNatural(g, args, front);
    }
  }

  lemma {:induction false} StripNatural(ds: seq<ToolDelta>)
    requires R.Natural(ds)
    ensures R.Natural(N.StripAll(ds))
  {
    if ds != [] {
      assert ds[|ds| - 1] in ds;
      StripNatural(ds[..|ds| - 1]);
    }
  }

  lemma ExpectedNatural(g: N.Config, t: Timing)
    requires (forall s: set<int> :: Enumerates(g.order(s), s)) && R.Natural(Named(t))
    ensures R.Natural(Expected(g, t))
  {
    var all := t.before + t.last;
    assert forall d :: d in t.before || d in t.last || d in t.later ==> d in Named(t);
    StripNatural(t.before);
    StripNatural(t.last + t.later);
    assert Enumerates(g.order(N.Indexes(all)), N.Indexes(all));
    assert R.Natural(all);
    RepairNatural(g, N.Collect(map[], all), g.order(N.Indexes(all)));
  }

  /** A stream that names a call for the first time in its finish chunk. */
  function LateCall(d: ToolDelta): seq<N.Upstream> {
    [N.Parsed(Choice("", "", "", [d], false, "tool_calls", None)), N.Done]
  }

  /** The call reaches the translator, its arguments do not. */
  lemma LateCallLosesArguments(g: N.Config, d: ToolDelta)
    requires (forall s: set<int> :: Enumerates(g.order(s), s)) && d.id != "" && d.args != ""
    ensures var got := CarriedTools(N.Normalize(g, LateCall(d)));
            FirstSight(got) == [d.index] && ArgsSince(got, d.index) == "" != Joined([d], d.index)
  {
    var lines := LateCall(d);
    assert lines[..1] == [lines[0]] && lines[..1][..0] == [];
    assert Time(lines) == TimeOne(TimeOne(Time([]), lines[0]), N.Done) == Timing([], [d], [], true, true);
    assert [d] + [] == [d] && [] + [d] == [d] && [d][..0] == [];
    assert FirstSight([]) == [] && FirstSight([d]) == [d.index] && Joined([], d.index) == "";
    ArgumentsSurvive(g, lines, d.index);
  }
}
