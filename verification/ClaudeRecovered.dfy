/** The tool ledger of a stream with recovered calls (internal/translate/claude/stream.go): the calls
    recovered from prose come first, under negative keys; the deltas of the chunks follow, unchanged. */
module ClaudeRecovered {
  import opened Basics
  import opened ClaudeEvents
  import opened ClaudeBlocks
  import opened ClaudeStream
  import opened ClaudeStreamRuns
  import OrphanInvoke
  import T = ClaudeTallies

  /** Nothing is held back once native tool calls were seen. */
  predicate Released(s: State) {
    s.nativeSeen ==> s.hold == ""
  }

  /** A step that leaves the tool ledger alone. */
  predicate SameTools(s: State, t: State) {
    t.log.tools == s.log.tools && t.nativeSeen == s.nativeSeen && t.hold == s.hold
  }

  predicate Negative(ds: seq<ToolDelta>) {
    forall d :: d in ds ==> d.index < 0
  }

  /** What a ledger has in front of its last `n` deltas. */
  function Ahead(tools: seq<ToolDelta>, n: nat): seq<ToolDelta> {
    tools[..if n <= |tools| then |tools| - n else 0]
  }

  /** A step that adds nothing but recovered calls, and those only while text is held back. */
  predicate Recovers(s: State, t: State) {
    && t.nativeSeen == s.nativeSeen && Released(t) && s.log.tools <= t.log.tools
    && (if s.nativeSeen then t.log.tools == s.log.tools else Negative(t.log.tools[|s.log.tools|..]))
  }

  lemma RecoversTwice(s: State, t: State, u: State)
    requires Recovers(s, t) && Recovers(t, u)
    ensures Recovers(s, u)
  {
    var a, b := t.log.tools[|s.log.tools|..], u.log.tools[|t.log.tools|..];
    assert u.log.tools[|s.log.tools|..] == a + b;
  }

  lemma SameRecovers(s: State, t: State)
    requires Released(s) && SameTools(s, t)
    ensures Recovers(s, t)
  {
    assert s.log.tools[|s.log.tools|..] == [];
  }

  lemma AcceptTools(s: State, f: Fragment)
    ensures SameTools(s, Accept(s, f))
  {
    if s.board.openTools != [] {
    } else {
    }
  }

  lemma ForwardTools(c: Codec, s: State, p: Piece)
    ensures SameTools(s, Forward(c, s, p))
  {
    var noted := s.(log := s.log.(pieces := s.log.pieces + [p]));
    if Cleaned(c, p) != [] {
      AcceptTools(noted, Cleaned(c, p)[0]);
    }
  }

  lemma OrphanRecovers(c: Codec, s: State, call: OrphanInvoke.Call)
    requires !s.nativeSeen
    ensures Recovers(s, EmitOrphan(c, s, call))
  {
    var o := EmitOrphan(c, s, call);
    assert o.log.tools[|s.log.tools|..] == [o.log.tools[|s.log.tools|]];
  }

  lemma {:induction false} OrphansRecover(c: Codec, s: State, calls: seq<OrphanInvoke.Call>)
    requires !s.nativeSeen
    ensures Recovers(s, EmitOrphans(c, s, calls))
    decreases |calls|
  {
    if calls == [] {
      SameRecovers(s, s);
    } else {
      var o := EmitOrphans(c, s, calls[..|calls| - 1]);
      OrphansRecover(c, s, calls[..|calls| - 1]);
      OrphanRecovers(c, o, calls[|calls| - 1]);
      RecoversTwice(s, o, EmitOrphans(c, s, calls));
    }
  }

  lemma RecoverRecovers(c: Codec, s: State, x: OrphanInvoke.Extraction)
    requires !s.nativeSeen
    ensures Recovers(s, Recover(c, s, x))
  {
    var o := if x.prose != "" && !s.orphanRecovered then ForwardProse(c, s, x.prose) else s;
    ForwardTools(c, s, Piece(x.prose, true));
    SameRecovers(s, o);
    OrphansRecover(c, o, x.calls);
    RecoversTwice(s, o, Recover(c, s, x));
  }

  /** Changing the held text changes nothing here while text may be held. */
  lemma Rehold(s: State, t: State, hold: string)
    requires Recovers(s, t) && !s.nativeSeen
    ensures Recovers(s, t.(hold := hold)) && Recovers(s.(hold := hold), t)
  {
  }

  lemma {:induction false} DrainRecovers(c: Codec, s: State)
    requires !s.nativeSeen
    ensures Recovers(s, Drain(c, s))
    decreases |s.hold|
  {
    var x := OrphanInvoke.ExtractSpec(c.scanner, s.hold);
    if x.calls == [] {
      SameRecovers(s, s);
    } else {
      var r := Recover(c, s, x).(hold := x.rest);
      RecoverRecovers(c, s, x);
      Rehold(s, Recover(c, s, x), x.rest);
      DrainRecovers(c, r);
      RecoversTwice(s, r, Drain(c, s));
    }
  }

  lemma SettleRecovers(c: Codec, s: State)
    requires !s.nativeSeen
    ensures Recovers(s, Settle(c, s))
  {
    var n := HeadLength(c, s.hold);
    var o := s.(hold := s.hold[n..]);
    ForwardTools(c, o, Piece(s.hold[..n], true));
    assert SameTools(o, Settle(c, s));
    SameRecovers(o, Settle(c, s));
  }

  lemma HoldRecovers(c: Codec, s: State, text: string)
    requires Released(s)
    ensures Recovers(s, HoldText(c, s, text))
  {
    var o := s.(log := s.log.(content := s.log.content + text));
    if s.nativeSeen {
      ForwardTools(c, o, Piece(text, false));
      SameRecovers(s, HoldText(c, s, text));
    } else {
      var h := o.(hold := s.hold + text);
      SameRecovers(s, s);
      DrainRecovers(c, h);
      SettleRecovers(c, Drain(c, h));
      RecoversTwice(h, Drain(c, h), HoldText(c, s, text));
    }
  }

  lemma FlushProseTools(c: Codec, s: State, extract: bool, dropTrailing: bool)
    requires extract ==> OrphanInvoke.ExtractSpec(c.scanner, s.hold).calls == []
    ensures SameTools(s.(hold := ""), FlushHold(c, s, extract, dropTrailing))
  {
    ForwardTools(c, s.(hold := ""), Piece(s.hold, true));
  }

  lemma FlushCallsRecovers(c: Codec, s: State, x: OrphanInvoke.Extraction, dropTrailing: bool)
    requires !s.nativeSeen && x == OrphanInvoke.ExtractSpec(c.scanner, s.hold) && x.calls != []
    ensures Recovers(s, FlushHold(c, s, true, dropTrailing))
  {
    var o := s.(hold := "");
    var r := Recover(c, o, x);
    RecoverRecovers(c, o, x);
    ForwardTools(c, r, Piece(x.rest, true));
    Rehold(o, r, x.rest);
    SameRecovers(r, ForwardProse(c, r, x.rest));
    RecoversTwice(o, r, ForwardProse(c, r, x.rest));
  }

  lemma FlushRecovers(c: Codec, s: State, extract: bool, dropTrailing: bool)
    requires Released(s)
    ensures Recovers(s, FlushHold(c, s, extract, dropTrailing))
    ensures !extract ==> FlushHold(c, s, extract, dropTrailing).hold == ""
  {
    var x, o := OrphanInvoke.ExtractSpec(c.scanner, s.hold), FlushHold(c, s, extract, dropTrailing);
    if s.hold == "" {
      SameRecovers(s, s);
    } else if extract && x.calls != [] {
      FlushCallsRecovers(c, s, x, dropTrailing);
    } else {
      FlushProseTools(c, s, extract, dropTrailing);
      SameRecovers(s.(hold := ""), o);
    }
  }

  lemma ReasonRecovers(c: Codec, s: State, text: string)
    requires Released(s)
    ensures Recovers(s, Reason(c, s, text))
  {
    var f := FlushHold(c, s, true, false);
    var o := f.(log := f.log.(thoughts := f.log.thoughts + [text]));
    FlushRecovers(c, s, true, false);
    AcceptTools(o, ReasoningFragment(c.cleanText(text)));
    SameRecovers(f, Reason(c, s, text));
    RecoversTwice(s, f, Reason(c, s, text));
  }

  lemma {:induction false} ToolsAppend(c: Codec, s: State, ds: seq<ToolDelta>)
    ensures var o := HandleTools(c, s, ds);
            o.log.tools == s.log.tools + ds && o.nativeSeen == s.nativeSeen && o.hold == s.hold
    decreases |ds|
  {
    if ds == [] {
      assert s.log.tools + [] == s.log.tools;
    } else {
      ToolsAppend(c, s, ds[..|ds| - 1]);
      SeqAssoc(s.log.tools, ds[..|ds| - 1], [ds[|ds| - 1]]);
      SplitLast(ds);
    }
  }

  // ----- Whole runs -----

  /** Recovered calls first, then the deltas received. */
  predicate Behind(s: State, received: seq<ToolDelta>) {
    && Released(s) && (!s.nativeSeen ==> received == [])
    && received == s.log.tools[|Ahead(s.log.tools, |received|)|..] && |received| <= |s.log.tools|
    && Negative(Ahead(s.log.tools, |received|))
  }

  lemma StaysBehind(s: State, t: State, received: seq<ToolDelta>)
    requires Behind(s, received) && Recovers(s, t)
    ensures Behind(t, received)
  {
    if !s.nativeSeen {
      assert Ahead(t.log.tools, 0) == s.log.tools + t.log.tools[|s.log.tools|..];
      assert Ahead(s.log.tools, 0) == s.log.tools;
    }
  }

  lemma AppendBehind(tools: seq<ToolDelta>, received: seq<ToolDelta>, ds: seq<ToolDelta>)
    requires |received| <= |tools| && received == tools[|Ahead(tools, |received|)|..]
    ensures var all, now := tools + ds, received + ds;
            Ahead(all, |now|) == Ahead(tools, |received|) && now == all[|Ahead(all, |now|)|..]
  {
  }

  lemma ToolsBehind(c: Codec, s: State, received: seq<ToolDelta>, ds: seq<ToolDelta>, junk: bool)
    requires Behind(s, received)
    ensures Behind(ToolsDelta(c, s, ds, junk), received + ds)
  {
    if ds == [] && !junk {
      assert received + [] == received;
    } else {
      var f := FlushHold(c, s, false, false);
      FlushRecovers(c, s, false, false);
      StaysBehind(s, f, received);
      ToolsAppend(c, f.(nativeSeen := true), ds);
      AppendBehind(f.log.tools, received, ds);
    }
  }

  lemma DeltasBehind(c: Codec, s: State, received: seq<ToolDelta>, k: Chunk)
    requires k.Choice? && Behind(s, received)
    ensures Behind(Deltas(c, s, k), received + k.tools)
  {
    var r := ReasonDelta(c, s, k);
    ReasonBehind(c, s, received, k);
    ContentBehind(c, r, received, k.content);
    ToolsBehind(c, ContentDelta(c, r, k.content), received, k.tools, k.junk);
  }

  lemma ReasonBehind(c: Codec, s: State, received: seq<ToolDelta>, k: Chunk)
    requires k.Choice? && Behind(s, received)
    ensures Behind(ReasonDelta(c, s, k), received)
  {
    if k.reasoning != "" {
      ReasonRecovers(c, s, k.reasoning);
      StaysBehind(s, Reason(c, s, k.reasoning), received);
    } else if k.reasoningContent != "" {
      ReasonRecovers(c, s, k.reasoningContent);
      StaysBehind(s, Reason(c, s, k.reasoningContent), received);
    }
  }

  lemma ContentBehind(c: Codec, s: State, received: seq<ToolDelta>, text: string)
    requires Behind(s, received)
    ensures Behind(ContentDelta(c, s, text), received)
  {
    if text != "" {
      HoldRecovers(c, s, text);
      StaysBehind(s, HoldText(c, s, text), received);
    }
  }

  lemma SameBehind(s: State, t: State, received: seq<ToolDelta>)
    requires Behind(s, received) && SameTools(s, t)
    ensures Behind(t, received)
  {
  }

  lemma ChunkBehind(c: Codec, s: State, r: Carried, k: Chunk)
    requires Behind(s, r.tools) && s.finishSent == r.finished
    ensures Behind(ProcessChunk(c, s, k), CarryOne(r, k).tools)
  {
    if !k.Choice? {
      OtherChunk(c, s, k);
      SameBehind(s, ProcessChunk(c, s, k), r.tools);
    } else if s.finishSent {
      LateChunk(c, s, k);
      SameBehind(s, ProcessChunk(c, s, k), r.tools);
    } else {
      var started := if s.board.startSent then s else StartMessage(s);
      assert SameTools(s, started);
      SameBehind(s, started, r.tools);
      ChoiceBehind(c, started, r.tools, k);
    }
  }

  lemma OtherChunk(c: Codec, s: State, k: Chunk)
    requires !k.Choice?
    ensures SameTools(s, ProcessChunk(c, s, k))
  {
  }

  lemma LateChunk(c: Codec, s: State, k: Chunk)
    requires k.Choice? && s.finishSent
    ensures SameTools(s, ProcessChunk(c, s, k))
  {
  }

  lemma ChoiceBehind(c: Codec, s: State, received: seq<ToolDelta>, k: Chunk)
    requires k.Choice? && Behind(s, received)
    ensures var o := Deltas(c, s, k);
            Behind(Finish(if k.usage.Some? then o.(usage := k.usage) else o, k), received + k.tools)
  {
    var o := Deltas(c, s, k);
    DeltasBehind(c, s, received, k);
    FinishTools(if k.usage.Some? then o.(usage := k.usage) else o, k);
    SameBehind(o, Finish(if k.usage.Some? then o.(usage := k.usage) else o, k), received + k.tools);
  }

  lemma FinishTools(s: State, k: Chunk)
    ensures SameTools(s, Finish(s, k))
  {
  }

  lemma {:induction false} ChunksBehind(c: Codec, ks: seq<Chunk>)
    ensures Behind(ProcessChunks(c, Init, ks), Carry(ks).tools)
    decreases |ks|
  {
    if ks != [] {
      var front := ks[..|ks| - 1];
      ChunksBehind(c, front);
      ChunksKeep(c, front);
      ChunkBehind(c, ProcessChunks(c, Init, front), Carry(front), ks[|ks| - 1]);
    }
  }

  /** Of every stream, finished or not: the calls recovered from its prose come ahead of the deltas of its
      chunks, whole and under keys of their own, and the deltas follow exactly as they were received. */
  lemma RecoveredComeFirst(c: Codec, ks: seq<Chunk>)
    ensures var tools, received := Stream(c, ks).log.tools, Carry(ks).tools;
            tools == Ahead(tools, |received|) + received && Negative(Ahead(tools, |received|))
  {
    DrainedBehind(c, ks);
    T.StreamIds(c, ks);
    AheadAndBehind(T.Drained(c, ks).log.tools, Carry(ks).tools);
  }

  lemma DrainedBehind(c: Codec, ks: seq<Chunk>)
    ensures Behind(T.Drained(c, ks), Carry(ks).tools)
  {
    var s := ProcessChunks(c, Init, ks);
    ChunksBehind(c, ks);
    FlushRecovers(c, s, !s.nativeSeen, true);
    StaysBehind(s, T.Drained(c, ks), Carry(ks).tools);
  }

  lemma AheadAndBehind(tools: seq<ToolDelta>, received: seq<ToolDelta>)
    requires |received| <= |tools| && received == tools[|Ahead(tools, |received|)|..]
    ensures tools == Ahead(tools, |received|) + received
  {
  }

  // ----- Arguments -----

  predicate Natural(ds: seq<ToolDelta>) {
    forall d :: d in ds ==> d.index >= 0
  }

  lemma {:induction false} SightNatural(ds: seq<ToolDelta>)
    requires Natural(ds)
    ensures forall i :: i in FirstSight(ds) ==> i >= 0
  {
    if ds != [] {
      SightNatural(ds[..|ds| - 1]);
    }
  }

  lemma {:induction false} SightNegative(ds: seq<ToolDelta>)
    requires Negative(ds)
    ensures forall i :: i in FirstSight(ds) ==> i < 0
  {
    if ds != [] {
      SightNegative(ds[..|ds| - 1]);
    }
  }

  /** Deltas under other keys do not meet. */
  lemma {:induction false} SightApart(ahead: seq<ToolDelta>, ds: seq<ToolDelta>)
    requires Negative(ahead) && Natural(ds)
    ensures FirstSight(ahead + ds) == FirstSight(ahead) + FirstSight(ds)
    ensures forall i :: ArgsSince(ahead + ds, i) == if i < 0 then ArgsSince(ahead, i) else ArgsSince(ds, i)
    decreases |ds|
  {
    SightNegative(ahead);
    if ds == [] {
      assert ahead + ds == ahead && FirstSight(ahead) + [] == FirstSight(ahead);
      forall i | i >= 0 ensures ArgsSince(ahead, i) == "" {
        ArgsBeforeSight(ahead, i);
      }
    } else {
      var front, d := ds[..|ds| - 1], ds[|ds| - 1];
      SightApart(ahead, front);
      SightNatural(front);
      SplitLast(ds);
      SeqAssoc(ahead, front, [d]);
      DeltaSnoc(ahead + front, d);
      DeltaSnoc(front, d);
      SeqAssoc(FirstSight(ahead), FirstSight(front), [d.index]);
    }
  }

  /** Each call sends what it sends on its own. */
  lemma ArgsApart(c: Codec, ahead: seq<ToolDelta>, ds: seq<ToolDelta>)
    requires Negative(ahead) && Natural(ds)
    ensures ArgsBySight(c, ahead + ds) == ArgsBySight(c, ahead) + ArgsBySight(c, ds)
  {
    SightApart(ahead, ds);
    SightNegative(ahead);
    SightNatural(ds);
    var all := ahead + ds;
    forall n | 0 <= n < |FirstSight(all)|
      ensures ArgsBySight(c, all)[n] == (ArgsBySight(c, ahead) + ArgsBySight(c, ds))[n]
    {
      ArgAt(c, all, ahead, ds, n);
    }
  }

  lemma ArgAt(c: Codec, all: seq<ToolDelta>, ahead: seq<ToolDelta>, ds: seq<ToolDelta>, n: nat)
    requires FirstSight(all) == FirstSight(ahead) + FirstSight(ds) && n < |FirstSight(all)|
    requires (forall i :: i in FirstSight(ahead) ==> i < 0) && forall i :: i in FirstSight(ds) ==> i >= 0
    requires var i := FirstSight(all)[n]; ArgsSince(all, i) == if i < 0 then ArgsSince(ahead, i) else ArgsSince(ds, i)
    ensures ArgsBySight(c, all)[n] == (ArgsBySight(c, ahead) + ArgsBySight(c, ds))[n]
  {
    var first, rest := FirstSight(ahead), FirstSight(ds);
    if n < |first| {
      assert first[n] in first;
    } else {
      assert rest[n - |first|] in rest;
    }
  }
}
