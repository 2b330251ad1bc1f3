/** What the history translation carries over: tool uses, tool results and user prose reach the Claude
    body exactly once each and in order, whatever the builder and the finishing steps regroup. */
module RequestConservation {
  import opened Basics
  import opened ChatHistory
  import opened ClaudeHistory
  import R = RequestPipeline
  import P = PrepareClaude

  datatype Track = ToolUses | UserResults | UserProse | AssistantProse

  predicate On(t: Track, side: Side, b: Block) {
    match t
    case ToolUses => b.ToolUse?
    case UserResults => side == UserSide && b.ToolResult?
    case UserProse => side == UserSide && P.Meaningful(b) && !b.ToolResult? && !b.ToolUse?
    case AssistantProse => side == AssistantSide && b.Text? && b.text != ""
  }

  function Select(t: Track, side: Side, bs: seq<Block>): seq<Block> {
    if bs == [] then [] else
      Select(t, side, bs[..|bs| - 1]) + if On(t, side, bs[|bs| - 1]) then [bs[|bs| - 1]] else []
  }

  /** A track through a list of messages. */
  function Carried(t: Track, ms: seq<Claude>): seq<Block> {
    if ms == [] then [] else
      Carried(t, ms[..|ms| - 1]) + Select(t, ms[|ms| - 1].role, ms[|ms| - 1].content)
  }

  /** A track through the history, message by message. */
  function SentOne(g: Config, t: Track, m: Message): seq<Block> {
    if m.role != System && Blocks(g, m).Ok? then Select(t, SideOf(m.role), Blocks(g, m).value) else []
  }

  function Sent(g: Config, t: Track, ms: seq<Message>): seq<Block> {
    if ms == [] then [] else SentOne(g, t, ms[0]) + Sent(g, t, ms[1..])
  }

  // ----- Selecting and regrouping -----

  lemma {:induction false} SelectAppend(t: Track, side: Side, a: seq<Block>, b: seq<Block>)
    ensures Select(t, side, a + b) == Select(t, side, a) + Select(t, side, b)
    decreases |b|
  {
    if b == [] {
      assert a + b == a;
    } else {
      var n := |b| - 1;
      assert (a + b)[..|a + b| - 1] == a + b[..n];
      SelectAppend(t, side, a, b[..n]);
    }
  }

  lemma SelectSnoc(t: Track, side: Side, bs: seq<Block>, b: Block)
    ensures Select(t, side, bs + [b]) == Select(t, side, bs) + if On(t, side, b) then [b] else []
  {
    assert (bs + [b])[..|bs|] == bs;
  }

  lemma CarriedSnoc(t: Track, ms: seq<Claude>, m: Claude)
    ensures Carried(t, ms + [m]) == Carried(t, ms) + Select(t, m.role, m.content)
  {
    assert (ms + [m])[..|ms|] == ms;
  }

  lemma {:induction false} CarriedAppend(t: Track, a: seq<Claude>, b: seq<Claude>)
    ensures Carried(t, a + b) == Carried(t, a) + Carried(t, b)
    decreases |b|
  {
    if b == [] {
      assert a + b == a;
    } else {
      var n := |b| - 1;
      assert (a + b)[..|a + b| - 1] == a + b[..n];
      CarriedAppend(t, a, b[..n]);
    }
  }

  /** Each track lives among the results or among the rest, so the other half carries none of it. */
  lemma {:induction false} SelectParted(t: Track, side: Side, bs: seq<Block>)
    ensures t == UserResults ==>
            Select(t, side, Results(bs)) == Select(t, side, bs) && Select(t, side, Others(bs)) == []
    ensures t != UserResults ==>
            Select(t, side, Others(bs)) == Select(t, side, bs) && Select(t, side, Results(bs)) == []
  {
    if bs != [] {
      var front, last := bs[..|bs| - 1], bs[|bs| - 1];
      SelectParted(t, side, front);
      SelectSnoc(t, side, Results(front), last);
      SelectSnoc(t, side, Others(front), last);
      if last.ToolResult? {
        assert Others(bs) == Others(front);
      } else {
        assert Results(bs) == Results(front);
      }
    }
  }

  lemma JoinedCarries(t: Track, a: Claude, b: Claude)
    requires a.role == b.role
    ensures Select(t, a.role, P.Joined(a, b).content) == Select(t, a.role, a.content) + Select(t, a.role, b.content)
  {
    var side, first, rest := a.role, Results(a.content) + Results(b.content), Others(a.content) + Others(b.content);
    assert P.Joined(a, b).content == first + rest;
    SelectAppend(t, side, first, rest);
    SelectParted(t, side, a.content);
    SelectParted(t, side, b.content);
    SelectAppend(t, side, Results(a.content), Results(b.content));
    SelectAppend(t, side, Others(a.content), Others(b.content));
    if t == UserResults {
      assert Select(t, side, rest) == [];
    } else {
      assert Select(t, side, first) == [];
    }
  }

  lemma CarriedHead(t: Track, ms: seq<Claude>)
    requires ms != []
    ensures Carried(t, ms) == Select(t, ms[0].role, ms[0].content) + Carried(t, ms[1..])
  {
    assert ms == [ms[0]] + ms[1..];
    CarriedAppend(t, [ms[0]], ms[1..]);
    CarriedSnoc(t, [], ms[0]);
  }

  lemma MergedCarries(t: Track, out: seq<Claude>, m: Claude)
    requires out != [] && out[|out| - 1].role == m.role
    ensures Carried(t, out[..|out| - 1] + [P.Joined(out[|out| - 1], m)]) ==
            Carried(t, out) + Select(t, m.role, m.content)
  {
    var front, last := out[..|out| - 1], out[|out| - 1];
    CarriedSnoc(t, front, P.Joined(last, m));
    JoinedCarries(t, last, m);
    SeqAssoc(Carried(t, front), Select(t, m.role, last.content), Select(t, m.role, m.content));
  }

  lemma {:induction false} MergeCarries(t: Track, out: seq<Claude>, ms: seq<Claude>)
    ensures Carried(t, P.MergeOnto(out, ms)) == Carried(t, out) + Carried(t, ms)
    decreases |ms|
  {
    if ms == [] {
      assert Carried(t, out) + [] == Carried(t, out);
    } else {
      var m, n := ms[0], |out| - 1;
      CarriedHead(t, ms);
      SeqAssoc(Carried(t, out), Select(t, m.role, m.content), Carried(t, ms[1..]));
      if out != [] && out[n].role == m.role {
        MergedCarries(t, out, m);
        MergeCarries(t, out[..n] + [P.Joined(out[n], m)], ms[1..]);
      } else {
        CarriedSnoc(t, out, m);
        MergeCarries(t, out + [m], ms[1..]);
      }
    }
  }

  lemma {:induction false} StripCarries(t: Track, side: Side, bs: seq<Block>)
    ensures Select(t, side, P.StripBlocks(bs)) == Select(t, side, bs)
  {
    if bs != [] {
      var front, last := bs[..|bs| - 1], bs[|bs| - 1];
      StripCarries(t, side, front);
      SelectSnoc(t, side, P.StripBlocks(front), last);
      assert P.Rejectable(last) ==> P.StripBlocks(bs) == P.StripBlocks(front);
    }
  }

  lemma {:induction false} ReorderCarries(t: Track, bs: seq<Block>)
    requires t != AssistantProse
    ensures Select(t, AssistantSide, P.Reorder(bs)) == Select(t, AssistantSide, bs)
  {
    if bs != [] {
      var front, last := bs[..|bs| - 1], bs[|bs| - 1];
      ReorderCarries(t, front);
      SelectSnoc(t, AssistantSide, P.Reorder(front), last);
      assert P.Reorder(bs) == P.Reorder(front) + [last] || (P.Reorder(bs) == P.Reorder(front) && !last.ToolUse?);
    }
  }

  lemma {:induction false} MapStripCarries(t: Track, ms: seq<Claude>)
    ensures Carried(t, P.MapStrip(ms)) == Carried(t, ms)
  {
    if ms != [] {
      var n := |ms| - 1;
      MapStripCarries(t, ms[..n]);
      assert P.MapStrip(ms)[..n] == P.MapStrip(ms[..n]);
      StripCarries(t, ms[n].role, ms[n].content);
    }
  }

  lemma {:induction false} MapOrderCarries(t: Track, ms: seq<Claude>)
    requires t != AssistantProse
    ensures Carried(t, P.MapOrder(ms)) == Carried(t, ms)
  {
    if ms != [] {
      var n := |ms| - 1;
      MapOrderCarries(t, ms[..n]);
      assert P.MapOrder(ms)[..n] == P.MapOrder(ms[..n]);
      ReorderCarries(t, ms[n].content);
    }
  }

  lemma {:induction false} NothingSelected(t: Track, side: Side, bs: seq<Block>)
    requires forall b :: b in bs ==> !P.Meaningful(b)
    ensures Select(t, side, bs) == []
  {
    if bs != [] {
      assert bs[|bs| - 1] in bs;
      NothingSelected(t, side, bs[..|bs| - 1]);
    }
  }

  lemma {:induction false} DropCarries(t: Track, ms: seq<Claude>)
    ensures Carried(t, P.DropEmpty(ms)) == Carried(t, ms)
  {
    if ms != [] {
      var m, kept := ms[0], if P.Keep(ms[0], |ms| == 1) then [ms[0]] else [];
      DropCarries(t, ms[1..]);
      assert ms == [m] + ms[1..];
      CarriedAppend(t, [m], ms[1..]);
      CarriedAppend(t, kept, P.DropEmpty(ms[1..]));
      CarriedSnoc(t, [], m);
      if kept == [] {
        NothingSelected(t, m.role, m.content);
      }
    }
  }

  lemma PrepareCarries(t: Track, ms: seq<Claude>)
    requires t == AssistantProse ==> P.MapOrder(P.DropEmpty(P.MapStrip(ms))) == P.DropEmpty(P.MapStrip(ms))
    ensures Carried(t, P.Prepare(ms)) == Carried(t, ms)
  {
    var kept := P.DropEmpty(P.MapStrip(ms));
    MapStripCarries(t, ms);
    DropCarries(t, P.MapStrip(ms));
    if t != AssistantProse {
      MapOrderCarries(t, kept);
    }
    MergeCarries(t, [], P.MapOrder(kept));
  }

  // ----- The builder -----

  function InBuilder(t: Track, b: Builder): seq<Block> {
    Carried(t, b.out) + if b.role.Some? then Select(t, b.role.value, b.blocks) else []
  }

  lemma FlushCarries(t: Track, b: Builder)
    ensures InBuilder(t, Flush(b)) == InBuilder(t, b) == Carried(t, Flush(b).out)
  {
    if b.role.Some? {
      CarriedSnoc(t, b.out, Claude(b.role.value, b.blocks));
    }
  }

  lemma PushCarries(t: Track, out: seq<Claude>, results: seq<Block>)
    ensures Carried(t, PushResults(out, results)) == Carried(t, out) + Select(t, UserSide, results)
  {
    var n := |out| - 1;
    if out != [] && out[n].role == UserSide && AllResults(out[n].content) {
      CarriedSnoc(t, out[..n], Claude(UserSide, out[n].content + results));
      SelectAppend(t, UserSide, out[n].content, results);
    } else {
      CarriedSnoc(t, out, Claude(UserSide, results));
    }
  }

  lemma ResultsCarry(t: Track, out: seq<Claude>, blocks: seq<Block>)
    ensures Carried(t, PushResults(out, Results(blocks))) + Select(t, UserSide, Others(blocks)) ==
            Carried(t, out) + Select(t, UserSide, blocks)
  {
    PushCarries(t, out, Results(blocks));
    SelectParted(t, UserSide, blocks);
  }

  lemma ProseCarries(t: Track, o: Builder, side: Side, blocks: seq<Block>)
    requires o.role == Some(side)
    ensures InBuilder(t, o.(blocks := o.blocks + blocks)) == InBuilder(t, o) + Select(t, side, blocks)
  {
    SelectAppend(t, side, o.blocks, blocks);
    SeqAssoc(Carried(t, o.out), Select(t, side, o.blocks), Select(t, side, blocks));
  }

  lemma SwitchCarries(t: Track, b: Builder, side: Side)
    ensures InBuilder(t, Flush(b).(role := Some(side))) == InBuilder(t, b)
  {
    FlushCarries(t, b);
    assert Select(t, side, []) == [];
  }

  lemma AddResultsCarries(t: Track, b: Builder, blocks: seq<Block>)
    requires HasResult(blocks)
    ensures InBuilder(t, AddBlocks(b, UserSide, blocks)) == InBuilder(t, b) + Select(t, UserSide, blocks)
  {
    FlushCarries(t, b);
    ResultsCarry(t, Flush(b).out, blocks);
    assert Others(blocks) == [] ==> Select(t, UserSide, Others(blocks)) == [];
  }

  lemma AddProseCarries(t: Track, b: Builder, side: Side, blocks: seq<Block>)
    requires !HasResult(blocks)
    ensures InBuilder(t, AddBlocks(b, side, blocks)) == InBuilder(t, b) + Select(t, side, blocks)
  {
    var o := if b.role == Some(side) then b else Flush(b).(role := Some(side));
    SwitchCarries(t, b, side);
    ProseCarries(t, o, side, blocks);
    FlushCarries(t, o.(blocks := o.blocks + blocks));
  }

  lemma AddCarries(t: Track, b: Builder, side: Side, blocks: seq<Block>)
    requires side == AssistantSide ==> !HasResult(blocks)
    ensures InBuilder(t, AddBlocks(b, side, blocks)) == InBuilder(t, b) + Select(t, side, blocks)
  {
    if HasResult(blocks) {
      AddResultsCarries(t, b, blocks);
    } else {
      AddProseCarries(t, b, side, blocks);
    }
  }

  lemma {:induction false} UsesOnly(g: Config, cs: seq<Call>)
    ensures AllCallBlocks(g, cs).Some? ==> !HasResult(AllCallBlocks(g, cs).value)
  {
    if cs != [] {
      UsesOnly(g, cs[..|cs| - 1]);
    }
  }

  lemma {:induction false} NoResultParts(ps: seq<Part>)
    ensures !HasResult(AssistantBlocks(ps))
  {
    if ps != [] {
      NoResultParts(ps[..|ps| - 1]);
    }
  }

  lemma AssistantGivesNoResults(g: Config, m: Message)
    requires m.role == Assistant
    ensures Blocks(g, m).Ok? ==> !HasResult(Blocks(g, m).value)
  {
    UsesOnly(g, m.calls);
    NoResultParts(PartsOf(m));
  }

  lemma StepCarries(g: Config, t: Track, b: Builder, m: Message)
    requires Step(g, b, m).Ok?
    ensures InBuilder(t, Step(g, b, m).value) == InBuilder(t, b) + SentOne(g, t, m)
  {
    if m.role == System {
      assert InBuilder(t, b) + [] == InBuilder(t, b);
    } else {
      if m.role == Assistant {
        AssistantGivesNoResults(g, m);
      }
      assert Blocks(g, m).Ok?;
      AddCarries(t, b, SideOf(m.role), Blocks(g, m).value);
    }
  }

  lemma {:induction false} WalkCarries(g: Config, t: Track, b: Builder, ms: seq<Message>)
    requires Walk(g, b, ms).Ok?
    ensures InBuilder(t, Walk(g, b, ms).value) == InBuilder(t, b) + Sent(g, t, ms)
    decreases |ms|
  {
    if ms != [] {
      StepCarries(g, t, b, ms[0]);
      WalkCarries(g, t, Step(g, b, ms[0]).value, ms[1..]);
      SeqAssoc(InBuilder(t, b), SentOne(g, t, ms[0]), Sent(g, t, ms[1..]));
    }
  }

  /** The builder carries every track. */
  lemma BuildCarries(g: Config, t: Track, ms: seq<Message>)
    requires Build(g, ms).Ok?
    ensures Carried(t, Build(g, ms).value) == Sent(g, t, ms)
  {
    var b := Walk(g, Start, ms).value;
    assert InBuilder(t, b) == Sent(g, t, ms) by {
      WalkCarries(g, t, Start, ms);
      StartsEmpty(t);
    }
    FlushCarries(t, b);
  }

  lemma StartsEmpty(t: Track)
    ensures InBuilder(t, Start) == []
  {
  }

  /** Every tool use, every result and every piece of user prose of the repaired history appears in the
      translated body exactly once and in its order. */
  lemma TranslationCarries(g: Config, t: Track, ms: seq<Message>)
    requires R.Translate(g, ms).Ok? && t != AssistantProse
    ensures Carried(t, R.Translate(g, ms).value) == Sent(g, t, R.Prepared(ms))
  {
    BuildCarries(g, t, R.Prepared(ms));
    PrepareCarries(t, Build(g, R.Prepared(ms)).value);
  }
}
