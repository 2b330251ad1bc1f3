/** What becomes of the assistant's prose: for plain histories none is lost and none ends up behind a
    tool use of its message. */
module RequestProse {
  import opened Basics
  import opened ChatHistory
  import opened ClaudeHistory
  import opened RequestConservation
  import R = RequestPipeline
  import Q = RequestPairing
  import S = RequestStages
  import E = EnsureIds
  import P = PrepareClaude

  /** Behind a tool use come only tool uses and thinking. */
  predicate Ordered(bs: seq<Block>) {
    forall i, j :: 0 <= i < j < |bs| && bs[i].ToolUse? ==> bs[j].ToolUse? || bs[j].Thinking?
  }

  predicate Neat(m: Claude) {
    m.role == AssistantSide ==> Ordered(m.content)
  }

  predicate AllNeat(ms: seq<Claude>) {
    forall k :: 0 <= k < |ms| ==> Neat(ms[k])
  }

  /** Behind a message with tool uses comes a user message that says something. */
  predicate Relayed(ms: seq<Claude>) {
    forall k :: 0 <= k < |ms| - 1 && R.Calls(ms[k]) ==> ms[k + 1].role == UserSide && Q.Speaks(ms[k + 1].content)
  }

  // ----- Ordered contents -----

  lemma LastBehindUse(front: seq<Block>, last: Block)
    requires Ordered(front + [last]) && HasUse(front)
    ensures last.ToolUse? || last.Thinking?
  {
    var b :| b in front && b.ToolUse?;
    var i :| 0 <= i < |front| && front[i] == b;
    assert (front + [last])[i] == b && (front + [last])[|front|] == last;
  }

  lemma OrderedFront(bs: seq<Block>)
    requires Ordered(bs) && bs != []
    ensures Ordered(bs[..|bs| - 1])
  {
  }

  lemma {:induction false} OrderedStays(bs: seq<Block>)
    requires Ordered(bs)
    ensures P.Reorder(bs) == bs
  {
    if bs != [] {
      var front, last := bs[..|bs| - 1], bs[|bs| - 1];
      OrderedFront(bs);
      OrderedStays(front);
      SplitLast(bs);
      if HasUse(front) {
        LastBehindUse(front, last);
      }
      assert P.Reorder(bs) == P.Reorder(front) + [last];
    }
  }

  lemma OrderedBehind(a: seq<Block>, b: seq<Block>)
    requires !HasUse(a) && Ordered(b)
    ensures Ordered(a + b)
  {
    var ab := a + b;
    forall i, j | 0 <= i < j < |ab| && ab[i].ToolUse? ensures ab[j].ToolUse? || ab[j].Thinking? {
      assert forall k :: 0 <= k < |a| ==> a[k] in a && ab[k] == a[k];
      assert forall k :: |a| <= k < |ab| ==> ab[k] == b[k - |a|];
    }
  }

  lemma {:induction false} StripOrdered(bs: seq<Block>)
    requires Ordered(bs)
    ensures Ordered(P.StripBlocks(bs))
  {
    if bs != [] {
      var front, last := bs[..|bs| - 1], bs[|bs| - 1];
      assert Ordered(front);
      StripOrdered(front);
      if !P.Rejectable(last) {
        R.StripKeeps(front);
        OrderedSnoc(front, P.StripBlocks(front), last);
      }
    }
  }

  lemma {:induction false} OthersOrdered(bs: seq<Block>)
    requires Ordered(bs)
    ensures Ordered(Others(bs))
  {
    if bs != [] {
      var front, last := bs[..|bs| - 1], bs[|bs| - 1];
      assert Ordered(front);
      OthersOrdered(front);
      if !last.ToolResult? {
        R.OthersKeepUses(front);
        OrderedSnoc(front, Others(front), last);
      }
    }
  }

  /** A block that may stand behind some blocks may stand behind others with uses only if those have. */
  lemma OrderedSnoc(front: seq<Block>, part: seq<Block>, last: Block)
    requires Ordered(front + [last]) && Ordered(part) && HasUse(part) == HasUse(front)
    ensures Ordered(part + [last])
  {
    if HasUse(front) {
      LastBehindUse(front, last);
    } else {
      assert forall i :: 0 <= i < |part| ==> part[i] in part;
    }
  }

  lemma JoinedNeat(a: Claude, b: Claude)
    requires a.role == b.role == AssistantSide && !HasUse(a.content) && Ordered(b.content)
    ensures Neat(P.Joined(a, b))
  {
    var results, first, rest := Results(a.content) + Results(b.content), Others(a.content), Others(b.content);
    R.OthersKeepUses(a.content);
    R.UsesAppend(Results(a.content), Results(b.content));
    R.ResultsKeepIds(a.content);
    R.ResultsKeepIds(b.content);
    OthersOrdered(b.content);
    OrderedBehind(first, rest);
    OrderedBehind(results, first + rest);
  }

  // ----- The finishing steps -----

  lemma StripNeat(ms: seq<Claude>)
    requires AllNeat(ms) && Relayed(ms)
    ensures AllNeat(P.MapStrip(ms)) && Relayed(P.MapStrip(ms))
  {
    var r := P.MapStrip(ms);
    forall k | 0 <= k < |r| ensures Neat(r[k]) {
      assert Neat(ms[k]);
      if ms[k].role == AssistantSide {
        StripOrdered(ms[k].content);
      }
    }
    forall k | 0 <= k < |r| - 1 && R.Calls(r[k]) ensures r[k + 1].role == UserSide && Q.Speaks(r[k + 1].content) {
      R.StripKeeps(ms[k].content);
      assert R.Calls(ms[k]);
      Q.StripSpeaks(ms[k + 1].content);
    }
  }

  lemma {:induction false} DropNeat(ms: seq<Claude>)
    requires AllNeat(ms) && Relayed(ms)
    ensures AllNeat(P.DropEmpty(ms)) && Relayed(P.DropEmpty(ms))
    ensures ms != [] && P.Keep(ms[0], |ms| == 1) ==> P.DropEmpty(ms) != [] && P.DropEmpty(ms)[0] == ms[0]
  {
    if ms != [] {
      var more, r := P.DropEmpty(ms[1..]), P.DropEmpty(ms);
      RelayedTail(ms);
      DropNeat(ms[1..]);
      if P.Keep(ms[0], |ms| == 1) {
        assert r == [ms[0]] + more;
        assert Neat(ms[0]);
        if R.Calls(ms[0]) && more != [] {
          assert |ms| > 1;
          assert ms[1].role == UserSide && Q.Speaks(ms[1].content);
          assert more[0] == ms[1..][0];
        }
        RelayedHead(ms[0], more);
      } else {
        assert r == more;
      }
    }
  }

  lemma RelayedTail(ms: seq<Claude>)
    requires AllNeat(ms) && Relayed(ms) && ms != []
    ensures AllNeat(ms[1..]) && Relayed(ms[1..])
  {
    var rest := ms[1..];
    forall k | 0 <= k < |rest| - 1 && R.Calls(rest[k])
      ensures rest[k + 1].role == UserSide && Q.Speaks(rest[k + 1].content)
    {
      assert R.Calls(ms[k + 1]);
    }
  }

  lemma RelayedHead(m: Claude, ms: seq<Claude>)
    requires Neat(m) && AllNeat(ms) && Relayed(ms)
    requires R.Calls(m) && ms != [] ==> ms[0].role == UserSide && Q.Speaks(ms[0].content)
    ensures AllNeat([m] + ms) && Relayed([m] + ms)
  {
    var r := [m] + ms;
    forall k | 0 <= k < |r| - 1 && R.Calls(r[k]) ensures r[k + 1].role == UserSide && Q.Speaks(r[k + 1].content) {
      if k > 0 {
        assert r[k] == ms[k - 1] && r[k + 1] == ms[k];
      }
    }
  }

  lemma OrderNeat(ms: seq<Claude>)
    requires AllNeat(ms)
    ensures P.MapOrder(ms) == ms
  {
    forall k | 0 <= k < |ms| ensures P.MapOrder(ms)[k] == ms[k] {
      assert Neat(ms[k]);
      if ms[k].role == AssistantSide {
        OrderedStays(ms[k].content);
      }
    }
  }

  lemma {:induction false} MergeNeat(out: seq<Claude>, ms: seq<Claude>)
    requires AllNeat(out) && AllNeat(ms) && Relayed(ms)
    requires out != [] && ms != [] && R.Calls(out[|out| - 1]) ==> ms[0].role == UserSide
    ensures AllNeat(P.MergeOnto(out, ms))
    decreases |ms|
  {
    if ms != [] {
      var n := |out| - 1;
      RelayedTail(ms);
      assert Neat(ms[0]);
      if out != [] && out[n].role == ms[0].role {
        var joined := P.Joined(out[n], ms[0]);
        if ms[0].role == AssistantSide {
          JoinedNeat(out[n], ms[0]);
        }
        R.JoinedLead(out[n], ms[0]);
        LastNeat(out, joined);
        MergeNeat(out[..n] + [joined], ms[1..]);
      } else {
        MergeNeat(out + [ms[0]], ms[1..]);
      }
    }
  }

  lemma LastNeat(out: seq<Claude>, m: Claude)
    requires AllNeat(out) && out != [] && Neat(m)
    ensures AllNeat(out[..|out| - 1] + [m])
  {
  }

  lemma PrepareNeat(ms: seq<Claude>)
    requires AllNeat(ms) && Relayed(ms)
    ensures AllNeat(P.Prepare(ms)) && Carried(AssistantProse, P.Prepare(ms)) == Carried(AssistantProse, ms)
  {
    StripNeat(ms);
    DropNeat(P.MapStrip(ms));
    OrderNeat(P.DropEmpty(P.MapStrip(ms)));
    MergeNeat([], P.DropEmpty(P.MapStrip(ms)));
    PrepareCarries(AssistantProse, ms);
  }

  // ----- The builder -----

  /** What the builder keeps: neat messages, calls relayed, and a call just made is about to be
      answered. */
  ghost predicate Tidy(b: Builder, rest: seq<Message>) {
    && AllNeat(b.out) && Relayed(b.out)
    && (b.role == Some(AssistantSide) ==> !HasUse(b.blocks))
    && (b.blocks != [] ==> b.role.Some?)
    && (b.out != [] && R.Calls(b.out[|b.out| - 1]) ==> b.blocks == [] && S.Scan(rest) != {})
  }

  lemma AddNeat(out: seq<Claude>, m: Claude)
    requires AllNeat(out) && Relayed(out) && Neat(m)
    requires out != [] && R.Calls(out[|out| - 1]) ==> m.role == UserSide && Q.Speaks(m.content)
    ensures AllNeat(out + [m]) && Relayed(out + [m])
  {
    var r := out + [m];
    forall k | 0 <= k < |r| - 1 && R.Calls(r[k]) ensures r[k + 1].role == UserSide && Q.Speaks(r[k + 1].content) {
      assert r[k] == out[k];
      assert k < |out| - 1 ==> r[k + 1] == out[k + 1];
    }
  }

  lemma FlushTidy(b: Builder, rest: seq<Message>)
    requires Tidy(b, rest)
    ensures var out := Flush(b).out;
            && AllNeat(out) && Relayed(out)
            && (out != [] && R.Calls(out[|out| - 1]) ==> out == b.out && S.Scan(rest) != {})
  {
    if b.blocks != [] {
      AddNeat(b.out, Claude(b.role.value, b.blocks));
    }
  }

  lemma PushTidy(out: seq<Claude>, results: seq<Block>)
    requires AllNeat(out) && Relayed(out) && AllResults(results) && results != []
    ensures var r := PushResults(out, results);
            AllNeat(r) && Relayed(r) && r != [] && !R.Calls(r[|r| - 1])
  {
    var n := |out| - 1;
    assert results[0] in results;
    if out != [] && out[n].role == UserSide && AllResults(out[n].content) {
      var m := Claude(UserSide, out[n].content + results);
      assert results[0] in m.content;
      assert Relayed(out[..n]) && AllNeat(out[..n]) by {
        RelayedFront(out);
      }
      AddNeat(out[..n], m);
    } else {
      AddNeat(out, Claude(UserSide, results));
    }
  }

  lemma RelayedFront(out: seq<Claude>)
    requires AllNeat(out) && Relayed(out) && out != []
    ensures AllNeat(out[..|out| - 1]) && Relayed(out[..|out| - 1])
  {
    var front := out[..|out| - 1];
    forall k | 0 <= k < |front| - 1 && R.Calls(front[k])
      ensures front[k + 1].role == UserSide && Q.Speaks(front[k + 1].content)
    {
      assert R.Calls(out[k]);
    }
  }

  lemma {:induction false} ResultsKept(bs: seq<Block>)
    ensures Results(bs) != [] <==> HasResult(bs)
  {
    if bs != [] {
      ResultsKept(bs[..|bs| - 1]);
      SplitLast(bs);
    }
  }

  lemma ResultsTidy(b: Builder, ms: seq<Message>, blocks: seq<Block>)
    requires ms != [] && Tidy(b, ms) && HasResult(blocks)
    ensures Tidy(AddBlocks(b, UserSide, blocks), ms[1..])
  {
    FlushTidy(b, ms);
    ResultsKept(blocks);
    PushTidy(Flush(b).out, Results(blocks));
  }

  lemma ProseTidy(b: Builder, ms: seq<Message>, blocks: seq<Block>)
    requires ms != [] && Tidy(b, ms) && S.Scan(ms) == {} && !HasResult(blocks) && !HasUse(blocks)
    ensures Tidy(AddBlocks(b, UserSide, blocks), ms[1..])
  {
    FlushTidy(b, ms);
  }

  lemma UserTidy(b: Builder, ms: seq<Message>, blocks: seq<Block>)
    requires ms != [] && Tidy(b, ms) && (ms[0].role == User || ms[0].role == Tool)
    requires HasResult(blocks) || (ms[0].role == User && RespondedIds(ms[0]) == {} && !HasUse(blocks))
    ensures Tidy(AddBlocks(b, UserSide, blocks), ms[1..])
  {
    if HasResult(blocks) {
      ResultsTidy(b, ms, blocks);
    } else {
      ProseTidy(b, ms, blocks);
    }
  }

  lemma AssistantTidy(b: Builder, ms: seq<Message>, blocks: seq<Block>)
    requires ms != [] && Tidy(b, ms) && ms[0].role == Assistant
    requires Ordered(blocks) && !HasResult(blocks) && (HasUse(blocks) ==> S.Scan(ms[1..]) != {})
    ensures Tidy(AddBlocks(b, AssistantSide, blocks), ms[1..])
  {
    FlushTidy(b, ms);
    assert S.Scan(ms) == {};
    var o := if b.role == Some(AssistantSide) then b else Flush(b).(role := Some(AssistantSide));
    var w := o.(blocks := o.blocks + blocks);
    OrderedBehind(o.blocks, blocks);
    R.UsesAppend(o.blocks, blocks);
    if HasUse(blocks) {
      AddNeat(w.out, Claude(AssistantSide, w.blocks));
    }
  }

  // ----- Plain messages -----

  lemma {:induction false} CallsAreUses(g: Config, cs: seq<Call>)
    requires AllCallBlocks(g, cs).Some?
    ensures forall b :: b in AllCallBlocks(g, cs).value ==> b.ToolUse?
  {
    if cs != [] {
      CallsAreUses(g, cs[..|cs| - 1]);
    }
  }

  lemma UsesOrdered(bs: seq<Block>)
    requires forall b :: b in bs ==> b.ToolUse?
    ensures Ordered(bs)
  {
    assert forall j :: 0 <= j < |bs| ==> bs[j] in bs;
  }

  lemma PlainAssistant(g: Config, m: Message)
    requires m.role == Assistant && R.Plain(g, m) && Blocks(g, m).Ok?
    ensures var bs := Blocks(g, m).value;
            Ordered(bs) && !HasResult(bs) && (R.Named(m) && HasUse(bs) ==> S.Wanted(m) != {})
  {
    var str, parts, uses := StrBlock(m.content), AssistantBlocks(PartsOf(m)), AllCallBlocks(g, m.calls).value;
    Q.StrSpeaks(m.content);
    Q.AssistantPartsUse(PartsOf(m));
    Q.CallUses(g, m.calls);
    assert Q.UsePartIds(PartsOf(m)) == {};
    R.UsesAppend(str, parts);
    R.UseHasId(str + parts);
    CallsAreUses(g, m.calls);
    UsesOrdered(uses);
    OrderedBehind(str + parts, uses);
    R.UsesAppend(str + parts, uses);
    if R.Named(m) && HasUse(str + parts + uses) {
      assert m.calls[0] in m.calls && m.calls[0].id in S.Wanted(m);
    }
  }

  lemma PlainUser(g: Config, m: Message)
    requires m.role == User
    ensures var bs := Blocks(g, m).value;
            !HasUse(bs) && (!HasResult(bs) ==> RespondedIds(m) == {})
  {
    var str, parts := StrBlock(m.content), UserBlocks(PartsOf(m));
    Q.StrSpeaks(m.content);
    Q.UserPartsGive(PartsOf(m));
    UserHasNoUse(PartsOf(m));
    R.UseHasId(str);
    R.UsesAppend(str, parts);
    if !HasResult(str + parts) {
      assert R.ResultIds(str + parts) == {};
      assert RespondedIds(m) <= Q.ResultPartIds(PartsOf(m));
    }
  }

  lemma {:induction false} UserHasNoUse(ps: seq<Part>)
    ensures !HasUse(UserBlocks(ps))
  {
    if ps != [] {
      UserHasNoUse(ps[..|ps| - 1]);
      R.UsesAppend(UserBlocks(ps[..|ps| - 1]), UserBlock(ps[|ps| - 1]));
    }
  }

  lemma StepTidy(g: Config, b: Builder, ms: seq<Message>)
    requires ms != [] && Tidy(b, ms) && S.Covered(ms) && R.Plain(g, ms[0]) && R.Named(ms[0]) && Step(g, b, ms[0]).Ok?
    ensures Tidy(Step(g, b, ms[0]).value, ms[1..])
  {
    var m := ms[0];
    if m.role == Assistant {
      PlainAssistant(g, m);
      AssistantTidy(b, ms, Blocks(g, m).value);
    } else if m.role == User {
      PlainUser(g, m);
      UserTidy(b, ms, Blocks(g, m).value);
    } else if m.role == Tool {
      assert Blocks(g, m).value[0] in Blocks(g, m).value;
      UserTidy(b, ms, Blocks(g, m).value);
    }
  }

  lemma {:induction false} WalkTidy(g: Config, b: Builder, ms: seq<Message>)
    requires Tidy(b, ms) && S.Covered(ms) && R.AllPlain(g, ms) && R.AllNamed(ms) && Walk(g, b, ms).Ok?
    ensures Tidy(Walk(g, b, ms).value, [])
    decreases |ms|
  {
    if ms != [] {
      StepTidy(g, b, ms);
      WalkTidy(g, Step(g, b, ms[0]).value, ms[1..]);
    }
  }

  /** For every history of plain messages that translates, all prose of the assistant in the repaired
      history is in the body exactly once and in order, and none of it stands behind a tool use of its
      message. */
  lemma AssistantProseCarried(g: Config, ms: seq<Message>)
    requires R.AllPlain(g, ms) && R.Translate(g, ms).Ok?
    ensures Carried(AssistantProse, R.Translate(g, ms).value) == Sent(g, AssistantProse, R.Prepared(ms))
    ensures AllNeat(R.Translate(g, ms).value)
  {
    var all := R.Prepared(ms);
    Q.PlainPrepared(g, ms);
    WalkTidy(g, Start, all);
    FlushTidy(Walk(g, Start, all).value, []);
    BuildCarries(g, AssistantProse, all);
    PrepareNeat(Build(g, all).value);
  }
}
