/** Whole-run properties of the OpenAI to Claude translator: its trace obeys the protocol, and what
    it emits is exactly what it accepted. */
module ClaudeStreamRuns {
  import opened Basics
  import opened ClaudeEvents
  import opened ClaudeBlocks
  import opened ClaudeStream
  import OrphanInvoke

  // ----- Tool deltas, read on their own -----

  /** The indexes that got a block, in order of the first delta that named them with an id. */
  function FirstSight(ds: seq<ToolDelta>): seq<int> {
    if ds == [] then [] else
      var seen, d := FirstSight(ds[..|ds| - 1]), ds[|ds| - 1];
      if d.id != "" && d.index !in seen then seen + [d.index] else seen
  }

  /** The argument fragments of an index from its first sight on, in arrival order. */
  function ArgsSince(ds: seq<ToolDelta>, index: int): string {
    if ds == [] then "" else
      var before, d := ArgsSince(ds[..|ds| - 1], index), ds[|ds| - 1];
      if d.index == index && index in FirstSight(ds) then before + d.args else before
  }

  lemma DeltaSnoc(ds: seq<ToolDelta>, d: ToolDelta)
    ensures FirstSight(ds + [d]) ==
            if d.id != "" && d.index !in FirstSight(ds) then FirstSight(ds) + [d.index] else FirstSight(ds)
    ensures forall k :: ArgsSince(ds + [d], k) ==
                        if d.index == k && k in FirstSight(ds + [d]) then ArgsSince(ds, k) + d.args
                        else ArgsSince(ds, k)
  {
    assert (ds + [d])[..|ds|] == ds;
  }

  lemma {:induction false} ArgsBeforeSight(ds: seq<ToolDelta>, index: int)
    requires index !in FirstSight(ds)
    ensures ArgsSince(ds, index) == ""
  {
    if ds != [] {
      ArgsBeforeSight(ds[..|ds| - 1], index);
    }
  }

  // ----- Invariants -----

  /** Every registered index has its own open block, in order of first sight. */
  ghost predicate Rendered(calls: map<int, ToolInfo>, open: seq<int>, keys: seq<int>) {
    && |keys| == |open|
    && (forall n :: 0 <= n < |keys| ==> keys[n] in calls && calls[keys[n]].block == open[n])
    && (forall k :: k in calls <==> k in keys)
  }

  /** The buffer of every index with a block holds its fragments so far. */
  ghost predicate Gathered(bufs: map<int, string>, ds: seq<ToolDelta>) {
    && (forall k :: k in bufs <==> k in FirstSight(ds))
    && (forall k :: k in bufs ==> bufs[k] == ArgsSince(ds, k))
  }

  ghost predicate Ledger(calls: map<int, ToolInfo>, bufs: map<int, string>, open: seq<int>, ds: seq<ToolDelta>) {
    Rendered(calls, open, FirstSight(ds)) && Gathered(bufs, ds)
  }

  /** Keys of recovered calls are negative and derived from their blocks. */
  ghost predicate OrphanKeys(calls: map<int, ToolInfo>) {
    forall k :: k in calls ==> k == -(calls[k].block + 1)
  }

  /** The ledger is up to date, and no arguments have been sent yet. */
  ghost predicate Booked(s: State) {
    && See(s.board.trace).inputs == []
    && See(s.board.trace).tools == s.board.openTools
    && Ledger(s.calls, s.bufs, s.board.openTools, s.log.tools)
    && (!s.nativeSeen ==> OrphanKeys(s.calls))
  }

  /** Emitted prose followed by waiting prose is the prose accepted so far. */
  ghost predicate Conserved(s: State) {
    && See(s.board.trace).prose + s.pending == s.log.accepted
    && (s.pending != [] ==> s.board.openTools != [])
  }

  ghost predicate Core(s: State) {
    Framed(s.board) && Booked(s) && Conserved(s)
  }

  lemma AcceptWaits(s: State, f: Fragment)
    requires Core(s) && s.board.openTools != []
    ensures Core(Accept(s, f))
  {
    SeqAssoc(See(s.board.trace).prose, s.pending, [f]);
  }

  lemma AcceptStreams(s: State, f: Fragment)
    requires Core(s) && s.board.startSent && s.board.openTools == []
    ensures Core(Accept(s, f))
  {
    FramedWrite(s.board, f);
    CoreStreamed(s, Write(s.board, f), Accept(s, f), f);
  }

  lemma CoreStreamed(s: State, b: Board, o: State, f: Fragment)
    requires Core(s) && s.board.openTools == [] && Framed(b) && b.openTools == []
    requires See(b.trace) == See(s.board.trace).(phase := See(b.trace).phase, prose := See(s.board.trace).prose + [f])
    requires o == s.(board := b, outputLen := o.outputLen, log := s.log.(accepted := s.log.accepted + [f]))
    ensures Core(o)
  {
    ProseGrows(See(s.board.trace).prose, s.pending, s.log.accepted, f);
  }

  lemma ProseGrows(prose: seq<Fragment>, pending: seq<Fragment>, accepted: seq<Fragment>, f: Fragment)
    requires prose + pending == accepted && pending == []
    ensures prose + [f] + pending == accepted + [f]
  {
  }

  lemma CoreAccept(s: State, f: Fragment)
    requires Core(s) && s.board.startSent
    ensures Core(Accept(s, f))
  {
    if s.board.openTools != [] {
      AcceptWaits(s, f);
    } else {
      AcceptStreams(s, f);
    }
  }

  lemma CoreForward(c: Codec, s: State, p: Piece)
    requires Core(s) && s.board.startSent
    ensures Core(Forward(c, s, p))
  {
    var noted := s.(log := s.log.(pieces := s.log.pieces + [p]));
    assert Core(noted);
    if Cleaned(c, p) != [] {
      CoreAccept(noted, Cleaned(c, p)[0]);
    }
  }

  lemma LedgerBegin(calls: map<int, ToolInfo>, bufs: map<int, string>, open: seq<int>, ds: seq<ToolDelta>,
                    d: ToolDelta, info: ToolInfo)
    requires Ledger(calls, bufs, open, ds) && d.id != "" && d.index !in calls
    ensures Ledger(calls[d.index := info], bufs[d.index := d.args], open + [info.block], ds + [d])
  {
    DeltaSnoc(ds, d);
    BlocksBegin(calls, open, FirstSight(ds), d.index, info);
    ArgsBegin(bufs, ds, d);
  }

  lemma BlocksBegin(calls: map<int, ToolInfo>, open: seq<int>, keys: seq<int>, i: int, info: ToolInfo)
    requires Rendered(calls, open, keys) && i !in keys
    ensures Rendered(calls[i := info], open + [info.block], keys + [i])
  {
  }

  lemma ArgsBegin(bufs: map<int, string>, ds: seq<ToolDelta>, d: ToolDelta)
    requires Gathered(bufs, ds) && d.id != "" && d.index !in FirstSight(ds)
    ensures Gathered(bufs[d.index := d.args], ds + [d])
  {
    DeltaSnoc(ds, d);
    ArgsBeforeSight(ds, d.index);
  }

  lemma LedgerMore(calls: map<int, ToolInfo>, bufs: map<int, string>, open: seq<int>, ds: seq<ToolDelta>, d: ToolDelta)
    requires Ledger(calls, bufs, open, ds) && (d.id == "" || d.index in calls)
    ensures Ledger(calls, if d.index in bufs then bufs[d.index := bufs[d.index] + d.args] else bufs, open, ds + [d])
  {
    DeltaSnoc(ds, d);
  }

  /** A block index that is still free is not the block of any registered call. */
  lemma FreeKey(s: State)
    requires Framed(s.board) && Booked(s) && !s.nativeSeen
    ensures -(s.board.nextBlock + 1) !in s.calls
  {
    var keys := FirstSight(s.log.tools);
    forall k | k in s.calls ensures s.calls[k].block < s.board.nextBlock {
      var n :| 0 <= n < |keys| && keys[n] == k;
      assert s.board.openTools[n] in s.board.openTools;
    }
  }

  lemma CoreOrphan(c: Codec, s: State, call: OrphanInvoke.Call)
    requires Core(s) && s.board.startSent && !s.nativeSeen
    ensures Core(EmitOrphan(c, s, call))
  {
    var block: int := s.board.nextBlock;
    var d := ToolDelta(-(block + 1), "toolu_" + c.orphanId(block), call.name, call.input);
    var o := EmitOrphan(c, s, call);
    FreeKey(s);
    FramedStartTool(s.board, d.id, d.name);
    assert Ledger(o.calls, o.bufs, o.board.openTools, o.log.tools) by {
      LedgerBegin(s.calls, s.bufs, s.board.openTools, s.log.tools, d, ToolInfo(d.id, d.name, block));
    }
  }

  lemma {:induction false} CoreOrphans(c: Codec, s: State, calls: seq<OrphanInvoke.Call>)
    requires Core(s) && s.board.startSent && !s.nativeSeen
    ensures var o := EmitOrphans(c, s, calls); Core(o) && o.board.startSent && !o.nativeSeen
    ensures var o := EmitOrphans(c, s, calls); o.hold == s.hold && o.log == s.log.(tools := o.log.tools)
    ensures calls != [] ==> EmitOrphans(c, s, calls).orphanRecovered
    decreases |calls|
  {
    if calls != [] {
      CoreOrphans(c, s, calls[..|calls| - 1]);
      CoreOrphan(c, EmitOrphans(c, s, calls[..|calls| - 1]), calls[|calls| - 1]);
    }
  }

  lemma CoreKnownTool(c: Codec, s: State, d: ToolDelta)
    requires Core(s) && s.board.startSent && (d.id == "" || d.index in s.calls)
    ensures Core(HandleTool(c, s, d))
  {
    LedgerMore(s.calls, s.bufs, s.board.openTools, s.log.tools, d);
    var o := HandleTool(c, s, d);
    assert o.bufs == if d.index in s.bufs then s.bufs[d.index := s.bufs[d.index] + d.args] else s.bufs;
  }

  lemma NewToolState(c: Codec, s: State, d: ToolDelta)
    requires d.id != "" && d.index !in s.calls
    ensures var info, o := ToolInfo(UniqueId(s, d.id), d.name, s.board.nextBlock), HandleTool(c, s, d);
            && o.board == StartTool(s.board, info.id, d.name) && o.calls == s.calls[d.index := info]
            && o.bufs == s.bufs[d.index := d.args] && o.pending == s.pending && o.nativeSeen == s.nativeSeen
            && o.log == s.log.(tools := s.log.tools + [d])
  {
    assert "" + d.args == d.args;
    assert s.bufs[d.index := ""][d.index := d.args] == s.bufs[d.index := d.args];
  }

  lemma CoreNewTool(c: Codec, s: State, d: ToolDelta)
    requires Core(s) && s.board.startSent && s.nativeSeen && d.id != "" && d.index !in s.calls
    ensures Core(HandleTool(c, s, d))
  {
    var info := ToolInfo(UniqueId(s, d.id), d.name, s.board.nextBlock);
    NewToolState(c, s, d);
    FramedStartTool(s.board, info.id, d.name);
    LedgerBegin(s.calls, s.bufs, s.board.openTools, s.log.tools, d, info);
    CoreStarted(s, HandleTool(c, s, d), d, info);
  }

  /** What is left to see once the board and the ledger are known to be in order. */
  lemma CoreStarted(s: State, o: State, d: ToolDelta, info: ToolInfo)
    requires Core(s) && s.nativeSeen && o.nativeSeen && Framed(o.board)
    requires o.board.openTools == s.board.openTools + [info.block] && o.pending == s.pending
    requires o.log == s.log.(tools := s.log.tools + [d])
    requires var v, w := See(s.board.trace), See(o.board.trace);
             w.inputs == v.inputs && w.prose == v.prose && w.tools == v.tools + [info.block]
    requires Ledger(o.calls, o.bufs, o.board.openTools, o.log.tools)
    ensures Core(o)
  {
  }

  lemma {:induction false} CoreTools(c: Codec, s: State, ds: seq<ToolDelta>)
    requires Core(s) && s.board.startSent && s.nativeSeen
    ensures var o := HandleTools(c, s, ds); Core(o) && o.board.startSent && o.nativeSeen
    decreases |ds|
  {
    if ds != [] {
      CoreTools(c, s, ds[..|ds| - 1]);
      var o, d := HandleTools(c, s, ds[..|ds| - 1]), ds[|ds| - 1];
      if d.id == "" || d.index in o.calls {
        CoreKnownTool(c, o, d);
      } else {
        CoreNewTool(c, o, d);
      }
    }
  }

  lemma {:induction false} ToolsFrame(c: Codec, s: State, ds: seq<ToolDelta>)
    ensures var o := HandleTools(c, s, ds);
            o.hold == s.hold && o.orphanRecovered == s.orphanRecovered && o.log == s.log.(tools := s.log.tools + ds)
    decreases |ds|
  {
    if ds != [] {
      ToolsFrame(c, s, ds[..|ds| - 1]);
      assert s.log.tools + ds[..|ds| - 1] + [ds[|ds| - 1]] == s.log.tools + ds;
    } else {
      assert s.log.tools + ds == s.log.tools;
    }
  }

  lemma {:induction false} ToolsKeep(c: Codec, s: State, ds: seq<ToolDelta>)
    ensures var o := HandleTools(c, s, ds);
            o.usage == s.usage && o.finishSent == s.finishSent && o.closed == s.closed &&
            o.finishReason == s.finishReason && o.nativeSeen == s.nativeSeen
    decreases |ds|
  {
    if ds != [] {
      ToolsKeep(c, s, ds[..|ds| - 1]);
    }
  }

  // ----- The hold-back buffer -----

  function TextOnly(fs: seq<Fragment>): seq<Fragment> {
    if fs == [] then [] else
      TextOnly(fs[..|fs| - 1]) + if fs[|fs| - 1].TextFragment? then [fs[|fs| - 1]] else []
  }

  function ReasoningOnly(fs: seq<Fragment>): seq<Fragment> {
    if fs == [] then [] else
      ReasoningOnly(fs[..|fs| - 1]) + if fs[|fs| - 1].TextFragment? then [] else [fs[|fs| - 1]]
  }

  /** The reasoning texts that are not empty once cleaned. */
  function CleanThoughts(c: Codec, ts: seq<string>): seq<Fragment> {
    if ts == [] then [] else
      var t := c.cleanText(ts[|ts| - 1]);
      CleanThoughts(c, ts[..|ts| - 1]) + if t == "" then [] else [ReasoningFragment(t)]
  }

  function CleanAll(c: Codec, ps: seq<Piece>): seq<Fragment> {
    if ps == [] then [] else CleanAll(c, ps[..|ps| - 1]) + Cleaned(c, ps[|ps| - 1])
  }

  function Raw(ps: seq<Piece>): string {
    if ps == [] then "" else Raw(ps[..|ps| - 1]) + ps[|ps| - 1].raw
  }

  lemma LogSnoc(c: Codec, fs: seq<Fragment>, f: Fragment, ps: seq<Piece>, p: Piece)
    ensures TextOnly(fs + [f]) == TextOnly(fs) + if f.TextFragment? then [f] else []
    ensures ReasoningOnly(fs + [f]) == ReasoningOnly(fs) + if f.TextFragment? then [] else [f]
    ensures CleanAll(c, ps + [p]) == CleanAll(c, ps) + Cleaned(c, p)
    ensures Raw(ps + [p]) == Raw(ps) + p.raw
  {
    assert (fs + [f])[..|fs|] == fs;
    assert (ps + [p])[..|ps|] == ps;
  }

  lemma ThoughtSnoc(c: Codec, ts: seq<string>, t: string)
    ensures CleanThoughts(c, ts + [t]) ==
            CleanThoughts(c, ts) + if c.cleanText(t) == "" then [] else [ReasoningFragment(c.cleanText(t))]
  {
    assert (ts + [t])[..|ts|] == ts;
  }

  /** The accepted text is what the forwarded stretches of content clean to, in order, and the
      accepted reasoning is what the received reasoning cleans to. */
  ghost predicate Traced(c: Codec, l: Log) {
    TextOnly(l.accepted) == CleanAll(c, l.pieces) && ReasoningOnly(l.accepted) == CleanThoughts(c, l.thoughts)
  }

  /** Content is forwarded or held, unless a recovered call made the rest of the turn moot. */
  ghost predicate Whole(s: State) {
    !s.orphanRecovered ==> Raw(s.log.pieces) + s.hold == s.log.content
  }

  ghost predicate HoldOk(c: Codec, s: State) {
    && (s.nativeSeen ==> s.hold == "")
    && |s.hold| <= HOLD_MAX
    && Traced(c, s.log)
    && Whole(s)
  }

  /** What an internal step leaves alone: content received, usage, finish, and, unless it recovers a
      call, the tool log and the finish reason. */
  ghost predicate Quietly(s: State, t: State) {
    && t.log.content == s.log.content && t.log.thoughts == s.log.thoughts
    && t.usage == s.usage && t.finishSent == s.finishSent && t.closed == s.closed
    && t.nativeSeen == s.nativeSeen && t.board.startSent == s.board.startSent
    && (s.orphanRecovered ==> t.orphanRecovered)
    && (!t.orphanRecovered ==> t.log.tools == s.log.tools && t.finishReason == s.finishReason)
  }

  lemma Accepted(s: State, f: Fragment)
    ensures var o := Accept(s, f);
            Quietly(s, o) && o.orphanRecovered == s.orphanRecovered && o.hold == s.hold &&
            o.log == s.log.(accepted := s.log.accepted + [f])
  {
    if s.board.openTools == [] {
    } else {
    }
  }

  /** A step that received `content`, the reasoning texts `thoughts` and the tool deltas `ds`. */
  ghost predicate Received(s: State, t: State, content: string, thoughts: seq<string>, ds: seq<ToolDelta>) {
    && t.log.content == s.log.content + content && t.log.thoughts == s.log.thoughts + thoughts
    && t.usage == s.usage && t.finishSent == s.finishSent && t.closed == s.closed
    && t.board.startSent == s.board.startSent
    && (s.orphanRecovered ==> t.orphanRecovered)
    && (!t.orphanRecovered ==> t.log.tools == s.log.tools + ds && t.finishReason == s.finishReason)
  }

  /** Forwarding a stretch logs it, raw and cleaned, and touches nothing else of the hold-back. */
  lemma Forwarded(c: Codec, s: State, p: Piece)
    ensures var o := Forward(c, s, p);
            Quietly(s, o) && o.orphanRecovered == s.orphanRecovered && o.hold == s.hold
    ensures Raw(Forward(c, s, p).log.pieces) == Raw(s.log.pieces) + p.raw
    ensures Traced(c, s.log) ==> Traced(c, Forward(c, s, p).log)
  {
    var noted := s.(log := s.log.(pieces := s.log.pieces + [p]));
    if Cleaned(c, p) == [] {
      LogSnoc(c, s.log.accepted, TextFragment(""), s.log.pieces, p);
      assert CleanAll(c, s.log.pieces) + [] == CleanAll(c, s.log.pieces);
    } else {
      var f := Cleaned(c, p)[0];
      Accepted(noted, f);
      LogSnoc(c, s.log.accepted, f, s.log.pieces, p);
      assert Cleaned(c, p) == [f] && ReasoningOnly(s.log.accepted) + [] == ReasoningOnly(s.log.accepted);
    }
  }

  lemma Reasoned(c: Codec, s: State, text: string)
    requires Traced(c, s.log)
    ensures var n := s.(log := s.log.(thoughts := s.log.thoughts + [text]));
            var o := if c.cleanText(text) == "" then n else Accept(n, ReasoningFragment(c.cleanText(text)));
            Quietly(n, o) && o.orphanRecovered == s.orphanRecovered && o.hold == s.hold &&
            o.log.pieces == s.log.pieces && Traced(c, o.log)
  {
    var n, f := s.(log := s.log.(thoughts := s.log.thoughts + [text])), ReasoningFragment(c.cleanText(text));
    ThoughtSnoc(c, s.log.thoughts, text);
    if f.text == "" {
      assert CleanThoughts(c, s.log.thoughts) + [] == CleanThoughts(c, s.log.thoughts);
    } else {
      Accepted(n, f);
      LogSnoc(c, s.log.accepted, f, s.log.pieces, Piece("", true));
      assert TextOnly(s.log.accepted) + [] == TextOnly(s.log.accepted);
    }
  }

  lemma {:induction false} OrphansQuiet(c: Codec, s: State, calls: seq<OrphanInvoke.Call>)
    ensures var o := EmitOrphans(c, s, calls);
            Quietly(s, o) && o.hold == s.hold && o.log == s.log.(tools := o.log.tools) &&
            (calls != [] ==> o.orphanRecovered)
    decreases |calls|
  {
    if calls != [] {
      OrphansQuiet(c, s, calls[..|calls| - 1]);
    }
  }

  lemma Recovered(c: Codec, s: State, x: OrphanInvoke.Extraction)
    requires Core(s) && s.board.startSent && !s.nativeSeen && Traced(c, s.log) && x.calls != []
    ensures var o := Recover(c, s, x);
            Core(o) && Quietly(s, o) && o.hold == s.hold && o.orphanRecovered && Traced(c, o.log)
  {
    var p := Piece(x.prose, true);
    var o := if x.prose != "" && !s.orphanRecovered then ForwardProse(c, s, x.prose) else s;
    CoreForward(c, s, p);
    Forwarded(c, s, p);
    CoreOrphans(c, o, x.calls);
    OrphansQuiet(c, o, x.calls);
  }

  lemma {:induction false} Drained(c: Codec, s: State)
    requires Core(s) && s.board.startSent && !s.nativeSeen && Traced(c, s.log) && Whole(s)
    ensures var o := Drain(c, s); Core(o) && Quietly(s, o) && Traced(c, o.log) && Whole(o)
    decreases |s.hold|
  {
    var x := OrphanInvoke.ExtractSpec(c.scanner, s.hold);
    if x.calls != [] {
      Recovered(c, s, x);
      Drained(c, Recover(c, s, x).(hold := x.rest));
    }
  }

  lemma HeadLeaves(c: Codec, buf: string)
    ensures |buf| - HeadLength(c, buf) <= HOLD_MAX
  {
  }

  /** Forwarding the front of the unforwarded content keeps it all accounted for. */
  lemma ForwardLogged(c: Codec, s: State, p: Piece, rest: string)
    requires Traced(c, s.log)
    requires !s.orphanRecovered ==> Raw(s.log.pieces) + (p.raw + rest) == s.log.content
    ensures var o := Forward(c, s.(hold := rest), p);
            Quietly(s, o) && o.hold == rest && Traced(c, o.log) && Whole(o)
  {
    Forwarded(c, s.(hold := rest), p);
    SeqAssoc(Raw(s.log.pieces), p.raw, rest);
    QuietHold(s, rest, Forward(c, s.(hold := rest), p));
  }

  lemma QuietHold(s: State, rest: string, o: State)
    requires Quietly(s.(hold := rest), o)
    ensures Quietly(s, o)
  {
  }

  lemma ForwardPart(c: Codec, s: State, p: Piece, rest: string)
    requires Core(s) && s.board.startSent && Traced(c, s.log)
    requires !s.orphanRecovered ==> Raw(s.log.pieces) + (p.raw + rest) == s.log.content
    ensures var o := Forward(c, s.(hold := rest), p);
            Core(o) && Quietly(s, o) && o.hold == rest && Traced(c, o.log) && Whole(o)
  {
    ForwardLogged(c, s, p, rest);
    CoreForward(c, s.(hold := rest), p);
  }

  lemma ForwardAll(c: Codec, s: State, raw: string)
    requires Core(s) && s.board.startSent && Traced(c, s.log)
    requires !s.orphanRecovered ==> Raw(s.log.pieces) + raw == s.log.content
    ensures var o := ForwardProse(c, s.(hold := ""), raw);
            Core(o) && Quietly(s, o) && o.hold == "" && Traced(c, o.log) && Whole(o)
  {
    assert raw + "" == raw;
    ForwardPart(c, s, Piece(raw, true), "");
  }

  lemma Dropped(c: Codec, s: State, rest: string)
    requires Core(s) && !s.nativeSeen && Traced(c, s.log) && Whole(s) && |rest| <= HOLD_MAX
    requires rest == s.hold || s.orphanRecovered
    ensures var o := s.(hold := rest); Core(o) && Quietly(s, o) && HoldOk(c, o)
  {
  }

  lemma Settled(c: Codec, s: State)
    requires Core(s) && s.board.startSent && !s.nativeSeen && Traced(c, s.log) && Whole(s)
    ensures var o := Settle(c, s); Core(o) && Quietly(s, o) && HoldOk(c, o)
  {
    var n := HeadLength(c, s.hold);
    HeadLeaves(c, s.hold);
    if n == 0 || s.orphanRecovered {
      assert s.hold[0..] == s.hold;
      Dropped(c, s, s.hold[n..]);
    } else {
      HeadForwarded(c, s, n);
    }
  }

  lemma HeadForwarded(c: Codec, s: State, n: nat)
    requires Core(s) && s.board.startSent && !s.nativeSeen && Traced(c, s.log) && Whole(s)
    requires n <= |s.hold| <= n + HOLD_MAX
    ensures var o := ForwardProse(c, s.(hold := s.hold[n..]), s.hold[..n]); Core(o) && Quietly(s, o) && HoldOk(c, o)
  {
    assert s.hold[..n] + s.hold[n..] == s.hold;
    ForwardPart(c, s, Piece(s.hold[..n], true), s.hold[n..]);
  }

  lemma QuietlyTwice(s: State, h: State, o: State)
    requires Quietly(s, h) && Quietly(h, o)
    ensures Quietly(s, o)
  {
  }

  lemma QuietlyReceived(s: State, h: State, o: State, content: string, thoughts: seq<string>)
    requires Received(s, h, content, thoughts, []) && Quietly(h, o)
    ensures Received(s, o, content, thoughts, [])
  {
  }

  lemma NotedContent(s: State, text: string)
    ensures Received(s, s.(log := s.log.(content := s.log.content + text)), text, [], [])
  {
    assert s.log.tools + [] == s.log.tools && s.log.thoughts + [] == s.log.thoughts;
  }

  lemma NotedThought(s: State, text: string)
    ensures Received(s, s.(log := s.log.(thoughts := s.log.thoughts + [text])), "", [text], [])
  {
    assert s.log.tools + [] == s.log.tools && s.log.content + "" == s.log.content;
  }

  lemma HeldNative(c: Codec, s: State, text: string)
    requires Core(s) && s.board.startSent && HoldOk(c, s) && s.nativeSeen
    ensures var o := HoldText(c, s, text);
            Core(o) && HoldOk(c, o) && Received(s, o, text, [], [])
  {
    var o := s.(log := s.log.(content := s.log.content + text));
    assert Core(o) && text + "" == text && Raw(s.log.pieces) + "" == Raw(s.log.pieces);
    ForwardPart(c, o, Piece(text, false), "");
    assert o.(hold := "") == o;
    NotedContent(s, text);
    QuietlyReceived(s, o, HoldText(c, s, text), text, []);
  }

  lemma DrainedAndSettled(c: Codec, h: State)
    requires Core(h) && h.board.startSent && !h.nativeSeen && Traced(c, h.log) && Whole(h)
    ensures var o := Settle(c, Drain(c, h)); Core(o) && HoldOk(c, o) && Quietly(h, o)
  {
    Drained(c, h);
    Settled(c, Drain(c, h));
    QuietlyTwice(h, Drain(c, h), Settle(c, Drain(c, h)));
  }

  lemma HeldMore(c: Codec, s: State, text: string)
    requires Core(s) && HoldOk(c, s)
    ensures var h := s.(log := s.log.(content := s.log.content + text), hold := s.hold + text);
            Core(h) && Traced(c, h.log) && Whole(h) && Received(s, h, text, [], [])
  {
    SeqAssoc(Raw(s.log.pieces), s.hold, text);
    NotedContent(s, text);
  }

  lemma HeldBack(c: Codec, s: State, text: string)
    requires Core(s) && s.board.startSent && HoldOk(c, s) && !s.nativeSeen
    ensures var o := HoldText(c, s, text);
            Core(o) && HoldOk(c, o) && Received(s, o, text, [], [])
  {
    var h := s.(log := s.log.(content := s.log.content + text), hold := s.hold + text);
    HeldMore(c, s, text);
    DrainedAndSettled(c, h);
    QuietlyReceived(s, h, HoldText(c, s, text), text, []);
  }

  lemma FlushedProse(c: Codec, s: State, extract: bool, dropTrailing: bool)
    requires Core(s) && s.board.startSent && HoldOk(c, s) && s.hold != ""
    requires !extract || OrphanInvoke.ExtractSpec(c.scanner, s.hold).calls == []
    ensures var o := FlushHold(c, s, extract, dropTrailing);
            Core(o) && HoldOk(c, o) && Quietly(s, o) && o.hold == ""
  {
    ForwardAll(c, s, s.hold);
  }

  lemma FlushedCalls(c: Codec, s: State, dropTrailing: bool)
    requires Core(s) && s.board.startSent && HoldOk(c, s)
    requires OrphanInvoke.ExtractSpec(c.scanner, s.hold).calls != []
    ensures var o := FlushHold(c, s, true, dropTrailing);
            Core(o) && HoldOk(c, o) && Quietly(s, o) && (dropTrailing ==> o.hold == "")
  {
    var x := OrphanInvoke.ExtractSpec(c.scanner, s.hold);
    var o := s.(hold := "");
    Recovered(c, o, x);
    var r := Recover(c, o, x);
    if dropTrailing && x.rest != "" && c.hasOpener(x.rest) {
      ForwardAll(c, r, x.rest);
      assert r.(hold := "") == r;
    }
  }

  lemma Flushed(c: Codec, s: State, extract: bool, dropTrailing: bool)
    requires Core(s) && s.board.startSent && HoldOk(c, s)
    ensures var o := FlushHold(c, s, extract, dropTrailing);
            Core(o) && HoldOk(c, o) && Quietly(s, o) && (!extract || dropTrailing ==> o.hold == "")
  {
    if s.hold != "" {
      if !extract || OrphanInvoke.ExtractSpec(c.scanner, s.hold).calls == [] {
        FlushedProse(c, s, extract, dropTrailing);
      } else {
        FlushedCalls(c, s, dropTrailing);
      }
    }
  }

  lemma ReasonedChunk(c: Codec, s: State, text: string)
    requires Core(s) && s.board.startSent && HoldOk(c, s)
    ensures var o := Reason(c, s, text); Core(o) && HoldOk(c, o) && Received(s, o, "", [text], [])
  {
    Flushed(c, s, true, false);
    var f := FlushHold(c, s, true, false);
    Reasoned(c, f, text);
    CoreReasoned(c, f, text);
    NotedThought(s, text);
    var m := s.(log := s.log.(thoughts := s.log.thoughts + [text]));
    assert Quietly(m, f.(log := f.log.(thoughts := f.log.thoughts + [text])));
    QuietlyReceived(s, m, Reason(c, s, text), "", [text]);
  }

  lemma CoreReasoned(c: Codec, f: State, text: string)
    requires Core(f) && f.board.startSent
    ensures var n := f.(log := f.log.(thoughts := f.log.thoughts + [text]));
            Core(if c.cleanText(text) == "" then n else Accept(n, ReasoningFragment(c.cleanText(text))))
  {
    var n := f.(log := f.log.(thoughts := f.log.thoughts + [text]));
    assert Core(n);
    if c.cleanText(text) != "" {
      CoreAccept(n, ReasoningFragment(c.cleanText(text)));
    }
  }

  // ----- Whole runs -----

  /** What a run of chunks carries, read without the translator: everything counts up to and
      including the first chunk with a finish reason; usage counts wherever it comes. */
  datatype Carried = Carried(finished: bool, content: string, thoughts: seq<string>, tools: seq<ToolDelta>,
                             finish: string, usage: Option<Usage>)

  function Carry(ks: seq<Chunk>): Carried {
    if ks == [] then Carried(false, "", [], [], "", None) else CarryOne(Carry(ks[..|ks| - 1]), ks[|ks| - 1])
  }

  function CarryOne(r: Carried, k: Chunk): Carried {
    match k
    case NoChoice(usage) => if usage.Some? then r.(usage := usage) else r
    case MalformedChoice => r
    case Choice(_, _, content, tools, _, finish, usage) =>
      var u := if usage.Some? then usage else r.usage;
      if r.finished then r.(usage := u)
      else Carried(Finishes(k), r.content + content, r.thoughts + Thoughts(k), r.tools + tools,
                   if Finishes(k) then finish else r.finish, u)
  }

  /** The reasoning of a chunk: the canonical field, or else the older one. */
  function Thoughts(k: Chunk): seq<string>
    requires k.Choice?
  {
    if k.reasoning != "" then [k.reasoning] else if k.reasoningContent != "" then [k.reasoningContent] else []
  }

  /** The translator agrees with what the chunks carry; a recovered call adds a tool of its own. */
  ghost predicate Agrees(s: State, r: Carried) {
    && s.finishSent == r.finished && s.log.content == r.content && s.log.thoughts == r.thoughts && s.usage == r.usage
    && (!s.orphanRecovered ==> s.log.tools == r.tools && s.finishReason == r.finish)
    && (!r.finished ==> r.finish == "")
    && (s.finishSent ==> s.board.startSent)
    && (!s.board.startSent ==> s.hold == "")
    && !s.closed
  }

  ghost predicate Inv(c: Codec, s: State, r: Carried) {
    Core(s) && HoldOk(c, s) && Agrees(s, r)
  }

  lemma ReasonReceived(c: Codec, s: State, k: Chunk)
    requires k.Choice? && Core(s) && HoldOk(c, s) && s.board.startSent
    ensures var o := ReasonDelta(c, s, k); Core(o) && HoldOk(c, o) && Received(s, o, "", Thoughts(k), [])
  {
    assert s.log.content + "" == s.log.content && s.log.tools + [] == s.log.tools
           && s.log.thoughts + [] == s.log.thoughts;
    if k.reasoning != "" {
      ReasonedChunk(c, s, k.reasoning);
    } else if k.reasoningContent != "" {
      ReasonedChunk(c, s, k.reasoningContent);
    }
  }

  lemma ContentReceived(c: Codec, s: State, text: string)
    requires Core(s) && HoldOk(c, s) && s.board.startSent
    ensures var o := ContentDelta(c, s, text); Core(o) && HoldOk(c, o) && Received(s, o, text, [], [])
  {
    if text == "" {
      assert s.log.content + "" == s.log.content && s.log.tools + [] == s.log.tools
             && s.log.thoughts + [] == s.log.thoughts;
    } else if s.nativeSeen {
      HeldNative(c, s, text);
    } else {
      HeldBack(c, s, text);
    }
  }

  lemma ToolsReceived(c: Codec, s: State, ds: seq<ToolDelta>, junk: bool)
    requires Core(s) && HoldOk(c, s) && s.board.startSent
    ensures var o := ToolsDelta(c, s, ds, junk); Core(o) && HoldOk(c, o) && Received(s, o, "", [], ds)
  {
    assert s.log.content + "" == s.log.content && s.log.tools + [] == s.log.tools
           && s.log.thoughts + [] == s.log.thoughts;
    if ds != [] || junk {
      Flushed(c, s, false, false);
      var f := FlushHold(c, s, false, false).(nativeSeen := true);
      CoreTools(c, f, ds);
      ToolsFrame(c, f, ds);
      ToolsKeep(c, f, ds);
    }
  }

  lemma Chained(s: State, r: State, t: State, u: State, content: string, thoughts: seq<string>, ds: seq<ToolDelta>)
    requires Received(s, r, "", thoughts, []) && Received(r, t, content, [], []) && Received(t, u, "", [], ds)
    ensures Received(s, u, content, thoughts, ds)
  {
    assert s.log.content + "" + content + "" == s.log.content + content;
    assert s.log.thoughts + thoughts + [] + [] == s.log.thoughts + thoughts;
    assert s.log.tools + [] + [] + ds == s.log.tools + ds;
  }

  lemma DeltasReceived(c: Codec, s: State, k: Chunk)
    requires k.Choice? && Core(s) && HoldOk(c, s) && s.board.startSent
    ensures var o := Deltas(c, s, k); Core(o) && HoldOk(c, o) && Received(s, o, k.content, Thoughts(k), k.tools)
  {
    var r := ReasonDelta(c, s, k);
    var t := ContentDelta(c, r, k.content);
    ReasonReceived(c, s, k);
    ContentReceived(c, r, k.content);
    ToolsReceived(c, t, k.tools, k.junk);
    Chained(s, r, t, ToolsDelta(c, t, k.tools, k.junk), k.content, Thoughts(k), k.tools);
  }

  lemma CoreStart(c: Codec, s: State, r: Carried)
    requires Inv(c, s, r) && !s.board.startSent
    ensures Inv(c, StartMessage(s), r) && StartMessage(s).board.startSent
  {
    FramedStart(s.board, if s.usage.Some? then s.usage.value else NoUsage);
  }

  lemma ChoiceAgrees(s: State, o: State, r: Carried, k: Chunk)
    requires k.Choice? && Agrees(s, r) && s.board.startSent && !s.finishSent
             && Received(s, o, k.content, Thoughts(k), k.tools)
    ensures Agrees(Finish(if k.usage.Some? then o.(usage := k.usage) else o, k), CarryOne(r, k))
  {
  }

  lemma ChoiceKeeps(c: Codec, s: State, r: Carried, k: Chunk)
    requires k.Choice? && Inv(c, s, r) && s.board.startSent && !s.finishSent
    ensures Inv(c, Finish(if k.usage.Some? then Deltas(c, s, k).(usage := k.usage) else Deltas(c, s, k), k),
                CarryOne(r, k))
  {
    DeltasReceived(c, s, k);
    ChoiceAgrees(s, Deltas(c, s, k), r, k);
  }

  lemma ChunkKeeps(c: Codec, s: State, r: Carried, k: Chunk)
    requires Inv(c, s, r)
    ensures Inv(c, ProcessChunk(c, s, k), CarryOne(r, k))
  {
    match k
    case NoChoice(usage) =>
      if usage.Some? && !s.board.startSent {
        CoreStart(c, s.(usage := usage), CarryOne(r, k));
      }
    case MalformedChoice =>
    case Choice(_, _, _, _, _, _, _) =>
      if !s.finishSent {
        if s.board.startSent {
          ChoiceKeeps(c, s, r, k);
        } else {
          CoreStart(c, s, r);
          ChoiceKeeps(c, StartMessage(s), r, k);
        }
      }
  }

  /** The invariant holds after every run of chunks. */
  lemma {:induction false} ChunksKeep(c: Codec, ks: seq<Chunk>)
    ensures Inv(c, ProcessChunks(c, Init, ks), Carry(ks))
    decreases |ks|
  {
    if ks != [] {
      ChunksKeep(c, ks[..|ks| - 1]);
      ChunkKeeps(c, ProcessChunks(c, Init, ks[..|ks| - 1]), Carry(ks[..|ks| - 1]), ks[|ks| - 1]);
    }
  }

  // ----- The end of the stream -----

  /** What each index that got a block sends: its fragments from first sight on, joined and repaired. */
  function ArgsBySight(c: Codec, ds: seq<ToolDelta>): seq<Option<string>> {
    seq(|FirstSight(ds)|, n requires 0 <= n < |FirstSight(ds)| => FinalArgs(c, ArgsSince(ds, FirstSight(ds)[n])))
  }

  lemma ArgsOfBlock(c: Codec, s: State, n: nat)
    requires Framed(s.board) && Booked(s) && n < |s.board.openTools|
    ensures ArgsFor(c, s, s.board.openTools[n]) == FinalArgs(c, ArgsSince(s.log.tools, FirstSight(s.log.tools)[n]))
  {
    var keys, open := FirstSight(s.log.tools), s.board.openTools;
    assert Renders(s, keys[n], open[n]);
    forall key | Renders(s, key, open[n]) ensures key == keys[n] {
      var m :| 0 <= m < |keys| && keys[m] == key;
      assert Increasing(open);
    }
  }

  /** Whichever call is found to render into an open block, it is the block's own. */
  lemma FoundCall(c: Codec, s: State, key: int, block: int)
    requires Framed(s.board) && Booked(s) && Renders(s, key, block)
    ensures key in s.bufs && ArgsFor(c, s, block) == FinalArgs(c, s.bufs[key])
  {
    var keys, open := FirstSight(s.log.tools), s.board.openTools;
    var n :| 0 <= n < |keys| && keys[n] == key;
    ArgsOfBlock(c, s, n);
  }

  lemma ToolsClosed(c: Codec, s: State)
    requires Framed(s.board) && Booked(s) && s.board.startSent
    ensures var v, o := See(s.board.trace), CloseTools(c, s);
            Framed(o.board) && o.board.startSent && o.board.openTools == [] &&
            |ArgsBySight(c, s.log.tools)| == |v.tools| &&
            See(o.board.trace) ==
              v.(phase := See(o.board.trace).phase, inputs := SentInputs(v.tools, ArgsBySight(c, s.log.tools)))
  {
    var open := s.board.openTools;
    var args := AllArgs(c, s);
    assert args == ArgsBySight(c, s.log.tools) by {
      forall n | 0 <= n < |open| ensures args[n] == ArgsBySight(c, s.log.tools)[n] {
        ArgsOfBlock(c, s, n);
      }
    }
    FramedStopTools(s.board, args);
    assert [] + SentInputs(open, args) == SentInputs(open, args);
  }

  /** The state in which the tail is emitted: every block closed, nothing held, nothing pending, all
      accepted prose and all tool arguments emitted. */
  ghost predicate Complete(c: Codec, o: State) {
    var v := See(o.board.trace);
    && o.board.startSent && v.phase == Streaming(o.board.nextBlock, map[], None)
    && o.hold == "" && o.pending == []
    && v.prose == o.log.accepted
    && |ArgsBySight(c, o.log.tools)| == |v.tools| && v.inputs == SentInputs(v.tools, ArgsBySight(c, o.log.tools))
  }

  lemma BlocksClosed(c: Codec, f: State)
    requires Core(f) && f.board.startSent && f.hold == ""
    ensures var o := CloseProseOf(FlushPending(CloseTools(c, CloseProseOf(f))));
            Complete(c, o)
            && o == f.(board := o.board, calls := map[], bufs := map[], pending := [], outputLen := o.outputLen)
  {
    var q := CloseProseOf(f);
    FramedCloseProse(f.board);
    var t := CloseTools(c, q);
    ToolsClosed(c, q);
    FramedWriteAll(t.board, t.pending);
    FramedCloseProse(WriteAll(t.board, t.pending));
  }

  /** After the hold buffer is drained and prose is closed, the tool blocks are ready to be stopped. */
  lemma ReadyToStop(c: Codec, ks: seq<Chunk>)
    requires ProcessChunks(c, Init, ks).finishSent
    ensures var s := ProcessChunks(c, Init, ks);
            var q := CloseProseOf(FlushHold(c, s, !s.nativeSeen, true)); Framed(q.board) && Booked(q)
  {
    var s := ProcessChunks(c, Init, ks);
    ChunksKeep(c, ks);
    Flushed(c, s, !s.nativeSeen, true);
    FramedCloseProse(FlushHold(c, s, !s.nativeSeen, true).board);
  }

  /** Everything known of the state in which a finished stream emits its tail. */
  lemma FinishedStream(c: Codec, ks: seq<Chunk>)
    requires Carry(ks).finished
    ensures var o, r := CloseBlocks(c, ProcessChunks(c, Init, ks)), Carry(ks);
            Stream(c, ks) == Tail(o).(closed := true) && Complete(c, o) && Traced(c, o.log) && Whole(o) &&
            o.log.content == r.content && o.log.thoughts == r.thoughts && o.usage == r.usage &&
            (!o.orphanRecovered ==> o.log.tools == r.tools && o.finishReason == r.finish)
  {
    var s := ProcessChunks(c, Init, ks);
    ChunksKeep(c, ks);
    Flushed(c, s, !s.nativeSeen, true);
    BlocksClosed(c, FlushHold(c, s, !s.nativeSeen, true));
  }

  lemma UnfinishedStream(c: Codec, ks: seq<Chunk>)
    requires !Carry(ks).finished
    ensures var p := See(Stream(c, ks).board.trace).phase; p.Fresh? || p.Streaming?
  {
    var s := ProcessChunks(c, Init, ks);
    ChunksKeep(c, ks);
    if s.board.startSent {
      Flushed(c, s, !s.nativeSeen, true);
    }
  }

  lemma TailEnds(c: Codec, o: State)
    requires Complete(c, o)
    ensures See(Tail(o).board.trace) == See(o.board.trace).(phase := Ended)
  {
    var v := See(o.board.trace);
    var w := Observe(v, MessageDelta(MapFinishReason(o.finishReason), FinalUsage(o)));
    assert w == v.(phase := Ending);
    assert Observe(w, MessageStop) == v.(phase := Ended);
  }

  /** The trace of every run obeys the protocol as far as it goes, and it is a complete message
      exactly when some chunk carried a finish reason. */
  lemma TraceWellFormed(c: Codec, ks: seq<Chunk>)
    ensures var trace := Events(Stream(c, ks).board.trace);
            !Run(trace).Broken? && (Run(trace).Ended? <==> Carry(ks).finished)
  {
    SeePhase(Stream(c, ks).board.trace);
    if Carry(ks).finished {
      FinishedStream(c, ks);
      TailEnds(c, CloseBlocks(c, ProcessChunks(c, Init, ks)));
    } else {
      UnfinishedStream(c, ks);
    }
  }

  /** What a finished run delivers. All text and thinking deltas together are, in order, the fragments
      that were accepted, none lost behind tool blocks; the text among them is what the forwarded
      stretches of raw content clean to, the thinking is what the chunks' reasoning cleans to; every
      index that got a block sends its joined and repaired arguments once, in its own block, or nothing
      if it had none. When no call was recovered from prose, the forwarded stretches are the content of
      the chunks, cut but not changed, and the tool deltas are those of the chunks. */
  lemma ContentConserved(c: Codec, ks: seq<Chunk>)
    requires Carry(ks).finished
    ensures var s, r := Stream(c, ks), Carry(ks);
            var v := See(s.board.trace);
            && v.prose == s.log.accepted
            && TextOnly(v.prose) == CleanAll(c, s.log.pieces) && ReasoningOnly(v.prose) == CleanThoughts(c, r.thoughts)
            && s.hold == "" && s.pending == []
            && |ArgsBySight(c, s.log.tools)| == |v.tools|
               && v.inputs == SentInputs(v.tools, ArgsBySight(c, s.log.tools))
            && (!s.orphanRecovered ==> Raw(s.log.pieces) == r.content && s.log.tools == r.tools)
  {
    var o := CloseBlocks(c, ProcessChunks(c, Init, ks));
    FinishedStream(c, ks);
    TailEnds(c, o);
    assert Raw(o.log.pieces) + "" == Raw(o.log.pieces);
  }

  lemma TailLast(o: State)
    ensures var trace := Events(Tail(o).board.trace);
            && |trace| >= 2 && trace[|trace| - 1] == MessageStop
            && trace[|trace| - 2] == MessageDelta(MapFinishReason(o.finishReason), FinalUsage(o))
  {
  }

  /** The tail reports the last usage any chunk carried, also one sent after the finish reason, and,
      unless a call was recovered, the finish reason of the first chunk that had one. */
  lemma TailReports(c: Codec, ks: seq<Chunk>)
    requires Carry(ks).finished
    ensures var s, r := Stream(c, ks), Carry(ks);
            var trace := Events(s.board.trace);
            && |trace| >= 2 && trace[|trace| - 2].MessageDelta? && trace[|trace| - 1] == MessageStop
            && (r.usage.Some? ==> trace[|trace| - 2].usage == r.usage.value)
            && (!s.orphanRecovered ==> trace[|trace| - 2].stopReason == MapFinishReason(r.finish))
  {
    FinishedStream(c, ks);
    TailLast(CloseBlocks(c, ProcessChunks(c, Init, ks)));
  }

  // ----- The hold-back buffer -----

  /** After every run of chunks the buffer is bounded, and until a call is recovered the raw prose
      forwarded so far followed by the buffer is all the content received. */
  lemma HoldAccounted(c: Codec, ks: seq<Chunk>)
    ensures var s := ProcessChunks(c, Init, ks);
            && |s.hold| <= HOLD_MAX
            && (s.nativeSeen ==> s.hold == "")
            && (!s.orphanRecovered ==> Raw(s.log.pieces) + s.hold == Carry(ks).content)
  {
    ChunksKeep(c, ks);
  }

  /** A forming opener survives settling whole, from its '<' on, exactly when it fits the trailing
      window or stands alone in a buffer within the limit; otherwise its front leaves as prose. */
  lemma OpenerKept(c: Codec, s: State)
    requires FirstPlausible(c, s.hold, 0) >= 0
    ensures var i, n := FirstPlausible(c, s.hold, 0), |s.hold|;
            Settle(c, s).hold == s.hold[i..] <==> (n - i <= HOLD_TAIL || (i == 0 && n <= HOLD_MAX))
  {
    var i, n := FirstPlausible(c, s.hold, 0), |s.hold|;
    SettledHold(c, s);
    assert |s.hold[i..]| == n - i;
  }

  lemma SettledHold(c: Codec, s: State)
    ensures Settle(c, s).hold == s.hold[HeadLength(c, s.hold)..]
  {
    var n := HeadLength(c, s.hold);
    if n != 0 && !s.orphanRecovered {
      Forwarded(c, s.(hold := s.hold[n..]), Piece(s.hold[..n], true));
    }
  }

  /** One character of settled prose ahead of a long opener is enough to cut the opener. */
  lemma OpenerCut(c: Codec, s: State, opener: string)
    requires s.hold == "x" + opener && |opener| > HOLD_TAIL && opener[0] == '<' && c.couldOpen(opener)
    ensures |Settle(c, s).hold| == HOLD_TAIL < |opener|
  {
    assert s.hold[1..] == opener && s.hold[0] == 'x';
    assert FirstPlausible(c, s.hold, 0) == FirstPlausible(c, s.hold, 1) == 1;
  }
}
