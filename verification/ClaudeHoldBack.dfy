/** The purpose of the hold-back buffer in internal/translate/claude/stream.go: a tool call leaked into
    text is recovered however the text is cut into deltas, as long as no cut makes the buffer give up
    part of it. */
module ClaudeHoldBack {
  import opened Basics
  import opened ClaudeStream
  import opened ClaudeStreamRuns
  import OrphanInvoke

  predicate Opens(c: Codec, text: string, i: int, p: int)
    requires 0 <= i < p <= |text|
  {
    text[i] == '<' && c.couldOpen(text[i..p])
  }

  predicate NotYet(c: Codec, text: string, a: int, p: int)
    requires 0 <= a <= p <= |text|
  {
    OrphanInvoke.ExtractSpec(c.scanner, text[a..p]).calls == []
  }

  ghost predicate Found(c: Codec, text: string, start: nat, call: OrphanInvoke.Call, a: int)
    requires 0 <= a <= start < |text|
  {
    OrphanInvoke.ExtractSpec(c.scanner, text[a..]) == OrphanInvoke.Extraction(text[a..start], [call], "")
  }

  /** The content deltas of a stream, one after the other. */
  function HoldAll(c: Codec, s: State, ds: seq<string>): State
    decreases |ds|
  {
    if ds == [] then s else HoldText(c, HoldAll(c, s, ds[..|ds| - 1]), ds[|ds| - 1])
  }

  /** How much of the text has left as prose when `p` of it has come. */
  function Left(start: nat, p: nat): nat {
    if p <= start then p else start
  }

  /** What is asked of a text, whose leaked call begins at `start`, at the end of a delta from `p` to
      `q`. Short of the end of the text, no call is complete, no '<' of the prose looks like an opener,
      and the block, once begun, does; at the end, the call is found. */
  ghost predicate Reads(c: Codec, text: string, start: nat, call: OrphanInvoke.Call, p: nat, q: nat)
    requires start < |text| && p <= q <= |text|
  {
    var a := Left(start, p);
    if q == |text| then Found(c, text, start, call, a)
    else
      && NotYet(c, text, a, q)
      && (forall i :: a <= i < start && i < q ==> !Opens(c, text, i, q))
      && (start < q ==> Opens(c, text, start, q))
  }

  /** A text that is prose followed by one leaked call, as far as it shows at the ends of the nonempty
      deltas it is cut into. */
  ghost predicate Leak(c: Codec, text: string, start: nat, call: OrphanInvoke.Call, ds: seq<string>)
    requires start < |text|
  {
    if ds == [] then true else
      var front, d := ds[..|ds| - 1], ds[|ds| - 1];
      && Leak(c, text, start, call, front) && d != "" && Concat(ds) <= text
      && Reads(c, text, start, call, |Concat(front)|, |Concat(ds)|)
  }

  /** A delta that brings part of the block, but not its end, leaves no more of it in the buffer than the
      trailing window keeps if it brings prose as well, and no more than the buffer's limit if not. */
  predicate FitsOne(text: string, start: nat, p: nat, q: nat) {
    start < q < |text| ==> q - start <= if p < start then HOLD_TAIL else HOLD_MAX
  }

  predicate Fits(text: string, start: nat, ds: seq<string>) {
    if ds == [] then true else
      var front := ds[..|ds| - 1];
      Fits(text, start, front) && FitsOne(text, start, |Concat(front)|, |Concat(ds)|)
  }

  // ----- What the buffer finds -----

  lemma {:induction false} NonePlausible(c: Codec, buf: string, from: nat)
    requires from <= |buf| && forall i :: from <= i < |buf| && buf[i] == '<' ==> !c.couldOpen(buf[i..])
    ensures FirstPlausible(c, buf, from) == -1
    decreases |buf| - from
  {
    if from < |buf| {
      NonePlausible(c, buf, from + 1);
    }
  }

  lemma {:induction false} PlausibleAt(c: Codec, buf: string, from: nat, i: nat)
    requires from <= i < |buf| && buf[i] == '<' && c.couldOpen(buf[i..])
    requires forall k :: from <= k < i && buf[k] == '<' ==> !c.couldOpen(buf[k..])
    ensures FirstPlausible(c, buf, from) == i
    decreases i - from
  {
    if from < i {
      PlausibleAt(c, buf, from + 1, i);
    }
  }

  lemma SliceOpens(c: Codec, text: string, a: nat, q: nat, k: nat)
    requires a + k < q <= |text|
    ensures var buf := text[a..q]; buf[k] == '<' && c.couldOpen(buf[k..]) <==> Opens(c, text, a + k, q)
  {
    assert text[a..q][k..] == text[a + k..q];
  }

  lemma NoneInText(c: Codec, text: string, a: nat, q: nat)
    requires a <= q <= |text| && forall i :: a <= i < q ==> !Opens(c, text, i, q)
    ensures FirstPlausible(c, text[a..q], 0) == -1
  {
    var buf := text[a..q];
    forall k | 0 <= k < |buf| && buf[k] == '<' ensures !c.couldOpen(buf[k..]) {
      SliceOpens(c, text, a, q, k);
    }
    NonePlausible(c, buf, 0);
  }

  lemma FirstInText(c: Codec, text: string, a: nat, q: nat, i: nat)
    requires a <= i < q <= |text| && Opens(c, text, i, q) && forall k :: a <= k < i ==> !Opens(c, text, k, q)
    ensures FirstPlausible(c, text[a..q], 0) == i - a
  {
    var buf := text[a..q];
    forall k | 0 <= k < i - a && buf[k] == '<' ensures !c.couldOpen(buf[k..]) {
      SliceOpens(c, text, a, q, k);
    }
    SliceOpens(c, text, a, q, i - a);
    PlausibleAt(c, buf, 0, i - a);
  }

  lemma PlausibleInText(c: Codec, text: string, start: nat, call: OrphanInvoke.Call, p: nat, q: nat)
    requires start < |text| && p <= q < |text| && Reads(c, text, start, call, p, q)
    ensures var a := Left(start, p);
            FirstPlausible(c, text[a..q], 0) == if q <= start then -1 else start - a
  {
    if q <= start {
      NoneInText(c, text, Left(start, p), q);
    } else {
      FirstInText(c, text, Left(start, p), q, start);
    }
  }

  // ----- Up to the last delta -----

  /** The prose so far has left, the block so far is held, and no call has been recovered. */
  ghost predicate Holding(s: State, o: State, text: string, start: nat, p: nat)
    requires start <= |text| && p <= |text|
  {
    && o.hold == text[Left(start, p)..p] && Raw(o.log.pieces) == Raw(s.log.pieces) + text[..Left(start, p)]
    && o.log.tools == s.log.tools && !o.orphanRecovered && !o.nativeSeen
  }

  /** What leaves the buffer is the rest of the prose if the delta fits, and more than that if not. */
  lemma HeadOf(c: Codec, text: string, start: nat, call: OrphanInvoke.Call, p: nat, q: nat)
    requires start < |text| && p <= q < |text| && Reads(c, text, start, call, p, q)
    ensures var a, n := Left(start, p), HeadLength(c, text[Left(start, p)..q]);
            if FitsOne(text, start, p, q) then n == Left(start, q) - a else start - a < n
  {
    PlausibleInText(c, text, start, call, p, q);
  }

  /** From one state to the other the first `n` characters of the buffer leave as prose. */
  ghost predicate Leaving(o: State, r: State, buf: string, n: nat)
    requires n <= |buf|
  {
    && r.hold == buf[n..] && Raw(r.log.pieces) == Raw(o.log.pieces) + buf[..n]
    && r.log.tools == o.log.tools && !r.orphanRecovered && !r.nativeSeen
  }

  lemma SettledAs(c: Codec, s: State, n: nat)
    requires HeadLength(c, s.hold) == n && !s.orphanRecovered && !s.nativeSeen
    ensures Leaving(s, Settle(c, s), s.hold, n)
  {
    if n == 0 {
      assert Raw(s.log.pieces) + s.hold[..0] == Raw(s.log.pieces);
    } else {
      Forwarded(c, s.(hold := s.hold[n..]), Piece(s.hold[..n], true));
    }
  }

  /** A delta after which nothing can be extracted: the settled head of the buffer leaves. */
  lemma HoldsFrom(c: Codec, o: State, delta: string, buf: string, n: nat)
    requires o.hold + delta == buf && !o.orphanRecovered && !o.nativeSeen
    requires OrphanInvoke.ExtractSpec(c.scanner, buf).calls == [] && HeadLength(c, buf) == n
    ensures Leaving(o, HoldText(c, o, delta), buf, n)
  {
    var noted := o.(log := o.log.(content := o.log.content + delta), hold := buf);
    assert Drain(c, noted) == noted;
    SettledAs(c, noted, n);
  }

  lemma HoldsOn(c: Codec, s: State, o: State, text: string, start: nat, p: nat, q: nat)
    requires start < |text| && p <= q < |text| && Holding(s, o, text, start, p)
    requires NotYet(c, text, Left(start, p), q)
    requires HeadLength(c, text[Left(start, p)..q]) == Left(start, q) - Left(start, p)
    ensures Holding(s, HoldText(c, o, text[p..q]), text, start, q)
  {
    LeavesFrom(c, o, text, Left(start, p), p, q);
    HoldingNext(s, o, HoldText(c, o, text[p..q]), text, start, p, q);
  }

  lemma LeavesFrom(c: Codec, o: State, text: string, a: nat, p: nat, q: nat)
    requires a <= p <= q < |text| && o.hold == text[a..p] && !o.orphanRecovered && !o.nativeSeen
    requires NotYet(c, text, a, q)
    ensures Leaving(o, HoldText(c, o, text[p..q]), text[a..q], HeadLength(c, text[a..q]))
  {
    Rejoined(text, a, p, q);
    HoldsFrom(c, o, text[p..q], text[a..q], HeadLength(c, text[a..q]));
  }

  lemma Rejoined(text: string, a: nat, p: nat, q: nat)
    requires a <= p <= q <= |text|
    ensures text[a..p] + text[p..q] == text[a..q]
  {
  }

  lemma HoldingNext(s: State, o: State, r: State, text: string, start: nat, p: nat, q: nat)
    requires start < |text| && p <= q < |text| && Holding(s, o, text, start, p)
    requires Leaving(o, r, text[Left(start, p)..q], Left(start, q) - Left(start, p))
    ensures Holding(s, r, text, start, q)
  {
    Pieces(Raw(s.log.pieces), text, Left(start, p), Left(start, q), q);
  }

  lemma Pieces(raw: string, text: string, a: nat, b: nat, q: nat)
    requires a <= b <= q <= |text|
    ensures text[a..q][b - a..] == text[b..q] && raw + text[..a] + text[a..q][..b - a] == raw + text[..b]
  {
    assert text[..a] + text[a..q][..b - a] == text[..b];
    SeqAssoc(raw, text[..a], text[a..q][..b - a]);
  }

  lemma {:induction false} HoldsAll(c: Codec, s: State, text: string, start: nat, call: OrphanInvoke.Call,
                                    ds: seq<string>)
    requires start < |text| && Leak(c, text, start, call, ds) && Fits(text, start, ds) && |Concat(ds)| < |text|
    requires s.hold == "" && !s.orphanRecovered && !s.nativeSeen
    ensures Holding(s, HoldAll(c, s, ds), text, start, |Concat(ds)|)
    decreases |ds|
  {
    if ds == [] {
      assert text[0..0] == "" && Raw(s.log.pieces) + text[..0] == Raw(s.log.pieces);
    } else {
      var front, d := ds[..|ds| - 1], ds[|ds| - 1];
      var p, q := |Concat(front)|, |Concat(ds)|;
      LastPiece(text, ds);
      HoldsAll(c, s, text, start, call, front);
      HeadOf(c, text, start, call, p, q);
      HoldsOn(c, s, HoldAll(c, s, front), text, start, p, q);
    }
  }

  /** The last delta of a cut is the stretch of text it covers. */
  lemma LastPiece(text: string, ds: seq<string>)
    requires ds != [] && Concat(ds) <= text
    ensures var p, q := |Concat(ds[..|ds| - 1])|, |Concat(ds)|;
            p <= q <= |text| && ds[|ds| - 1] == text[p..q] && q == p + |ds[|ds| - 1]|
  {
    var front, d := Concat(ds[..|ds| - 1]), ds[|ds| - 1];
    assert Concat(ds) == front + d;
    PieceAt(text, front, d);
    assert |Concat(ds)| == |front| + |d|;
  }

  lemma PieceAt(text: string, front: string, d: string)
    requires front + d <= text
    ensures |front| + |d| <= |text| && d == text[|front|..|front| + |d|]
  {
    var both, n := front + d, |front|;
    assert text[..|both|] == both && both[n..] == d;
    assert text[..|both|][n..] == text[n..|both|];
  }

  // ----- The last delta -----

  /** The call is recovered, its prose has left and nothing is held. */
  ghost predicate Recovery(s: State, o: State, text: string, start: nat, call: OrphanInvoke.Call)
    requires start <= |text|
  {
    && o.hold == "" && o.orphanRecovered && Raw(o.log.pieces) == Raw(s.log.pieces) + text[..start]
    && |o.log.tools| == |s.log.tools| + 1 && s.log.tools <= o.log.tools
    && o.log.tools[|s.log.tools|].name == call.name && o.log.tools[|s.log.tools|].args == call.input
  }

  lemma EmptyHasNoCalls(c: Codec)
    ensures OrphanInvoke.ExtractSpec(c.scanner, "").calls == []
  {
  }

  lemma RecoversOne(c: Codec, o: State, prose: string, call: OrphanInvoke.Call)
    requires !o.orphanRecovered
    ensures var r := Recover(c, o, OrphanInvoke.Extraction(prose, [call], ""));
            && r.orphanRecovered && Raw(r.log.pieces) == Raw(o.log.pieces) + prose
            && |r.log.tools| == |o.log.tools| + 1 && o.log.tools <= r.log.tools
            && r.log.tools[|o.log.tools|].name == call.name && r.log.tools[|o.log.tools|].args == call.input
  {
    var f := if prose != "" then ForwardProse(c, o, prose) else o;
    if prose != "" {
      Forwarded(c, o, Piece(prose, true));
    } else {
      assert Raw(o.log.pieces) + "" == Raw(o.log.pieces);
    }
    assert f.log.tools == o.log.tools;
    assert [call][..0] == [];
    assert EmitOrphans(c, f, [call]) == EmitOrphan(c, f, call);
  }

  /** A delta that completes the block. */
  lemma HoldsLast(c: Codec, o: State, delta: string, buf: string, prose: string, call: OrphanInvoke.Call)
    requires o.hold + delta == buf && !o.orphanRecovered && !o.nativeSeen
    requires OrphanInvoke.ExtractSpec(c.scanner, buf) == OrphanInvoke.Extraction(prose, [call], "")
    ensures var r := HoldText(c, o, delta);
            && r.hold == "" && r.orphanRecovered && Raw(r.log.pieces) == Raw(o.log.pieces) + prose
            && |r.log.tools| == |o.log.tools| + 1 && o.log.tools <= r.log.tools
            && r.log.tools[|o.log.tools|].name == call.name && r.log.tools[|o.log.tools|].args == call.input
  {
    var noted := o.(log := o.log.(content := o.log.content + delta), hold := buf);
    var x := OrphanInvoke.Extraction(prose, [call], "");
    var r := Recover(c, noted, x).(hold := "");
    RecoversOne(c, noted, prose, call);
    DrainedOnce(c, noted, x);
    assert HeadLength(c, "") == 0 && Settle(c, r) == r;
  }

  lemma LastDelta(c: Codec, s: State, o: State, text: string, start: nat, call: OrphanInvoke.Call, p: nat)
    requires start < |text| && p < |text| && Holding(s, o, text, start, p)
             && Found(c, text, start, call, Left(start, p))
    ensures Recovery(s, HoldText(c, o, text[p..]), text, start, call)
  {
    var a := Left(start, p);
    RejoinedEnd(text, a, p);
    HoldsLast(c, o, text[p..], text[a..], text[a..start], call);
    RecoveryNext(s, o, HoldText(c, o, text[p..]), text, start, call, p);
  }

  lemma RejoinedEnd(text: string, a: nat, p: nat)
    requires a <= p <= |text|
    ensures text[a..p] + text[p..] == text[a..]
  {
  }

  lemma RecoveryNext(s: State, o: State, r: State, text: string, start: nat, call: OrphanInvoke.Call, p: nat)
    requires start < |text| && p < |text| && Holding(s, o, text, start, p)
    requires r.hold == "" && r.orphanRecovered && Raw(r.log.pieces) == Raw(o.log.pieces) + text[Left(start, p)..start]
    requires |r.log.tools| == |o.log.tools| + 1 && o.log.tools <= r.log.tools
    requires r.log.tools[|o.log.tools|].name == call.name && r.log.tools[|o.log.tools|].args == call.input
    ensures Recovery(s, r, text, start, call)
  {
    var a := Left(start, p);
    assert text[..a] + text[a..start] == text[..start];
    SeqAssoc(Raw(s.log.pieces), text[..a], text[a..start]);
  }

  lemma DrainedOnce(c: Codec, o: State, x: OrphanInvoke.Extraction)
    requires OrphanInvoke.ExtractSpec(c.scanner, o.hold) == x && x.calls != [] && x.rest == ""
    ensures Drain(c, o) == Recover(c, o, x).(hold := "")
  {
    var r := Recover(c, o, x).(hold := "");
    EmptyHasNoCalls(c);
    assert Drain(c, r) == r;
  }

  // ----- Forwarded prose never comes back -----

  lemma RecoverGrows(c: Codec, s: State, x: OrphanInvoke.Extraction)
    ensures |Raw(Recover(c, s, x).log.pieces)| >= |Raw(s.log.pieces)|
  {
    Forwarded(c, s, Piece(x.prose, true));
    OrphansQuiet(c, if x.prose != "" && !s.orphanRecovered then ForwardProse(c, s, x.prose) else s, x.calls);
  }

  lemma {:induction false} DrainGrows(c: Codec, s: State)
    ensures |Raw(Drain(c, s).log.pieces)| >= |Raw(s.log.pieces)|
    decreases |s.hold|
  {
    var x := OrphanInvoke.ExtractSpec(c.scanner, s.hold);
    if x.calls != [] {
      RecoverGrows(c, s, x);
      DrainGrows(c, Recover(c, s, x).(hold := x.rest));
    }
  }

  lemma SettleGrows(c: Codec, s: State)
    ensures |Raw(Settle(c, s).log.pieces)| >= |Raw(s.log.pieces)|
  {
    var n := HeadLength(c, s.hold);
    Forwarded(c, s.(hold := s.hold[n..]), Piece(s.hold[..n], true));
  }

  lemma HoldGrows(c: Codec, s: State, text: string)
    ensures |Raw(HoldText(c, s, text).log.pieces)| >= |Raw(s.log.pieces)|
  {
    var o := s.(log := s.log.(content := s.log.content + text));
    if s.nativeSeen {
      Forwarded(c, o, Piece(text, false));
    } else {
      DrainGrows(c, o.(hold := s.hold + text));
      SettleGrows(c, Drain(c, o.(hold := s.hold + text)));
    }
  }

  // ----- Exactly when the call is recovered -----

  /** A delta that does not fit lets the front of the block out as prose. */
  lemma OverrunLeaks(c: Codec, s: State, o: State, text: string, start: nat, call: OrphanInvoke.Call, p: nat, q: nat)
    requires start < |text| && p <= q < |text| && Holding(s, o, text, start, p)
    requires Reads(c, text, start, call, p, q) && !FitsOne(text, start, p, q)
    ensures |Raw(HoldText(c, o, text[p..q]).log.pieces)| > |Raw(s.log.pieces)| + start
  {
    HeadOf(c, text, start, call, p, q);
    LeavesFrom(c, o, text, Left(start, p), p, q);
  }

  /** Once some delta did not fit, too much has been forwarded, for good. */
  lemma {:induction false} OverrunStays(c: Codec, s: State, text: string, start: nat, call: OrphanInvoke.Call,
                                        ds: seq<string>)
    requires start < |text| && Leak(c, text, start, call, ds) && !Fits(text, start, ds)
    requires s.hold == "" && !s.orphanRecovered && !s.nativeSeen
    ensures |Raw(HoldAll(c, s, ds).log.pieces)| > |Raw(s.log.pieces)| + start
    decreases |ds|
  {
    var front, d := ds[..|ds| - 1], ds[|ds| - 1];
    LastPiece(text, ds);
    if Fits(text, start, front) {
      HoldsAll(c, s, text, start, call, front);
      OverrunLeaks(c, s, HoldAll(c, s, front), text, start, call, |Concat(front)|, |Concat(ds)|);
    } else {
      OverrunStays(c, s, text, start, call, front);
      HoldGrows(c, HoldAll(c, s, front), d);
    }
  }

  lemma FittingCutRecovers(c: Codec, s: State, text: string, start: nat, call: OrphanInvoke.Call, ds: seq<string>)
    requires start < |text| && Leak(c, text, start, call, ds) && Fits(text, start, ds) && Concat(ds) == text
    requires s.hold == "" && !s.orphanRecovered && !s.nativeSeen
    ensures Recovery(s, HoldAll(c, s, ds), text, start, call)
  {
    var front := ds[..|ds| - 1];
    LastPiece(text, ds);
    var p := |Concat(front)|;
    HoldsAll(c, s, text, start, call, front);
    assert ds[|ds| - 1] == text[p..];
    LastDelta(c, s, HoldAll(c, s, front), text, start, call, p);
  }

  /** For every cut of a text with a leaked call into nonempty deltas, the call is recovered and exactly
      the prose ahead of it forwarded if and only if every delta fits the window. */
  lemma RecoveredHoweverCut(c: Codec, s: State, text: string, start: nat, call: OrphanInvoke.Call, ds: seq<string>)
    requires start < |text| && Leak(c, text, start, call, ds) && Concat(ds) == text
    requires s.hold == "" && !s.orphanRecovered && !s.nativeSeen
    ensures Recovery(s, HoldAll(c, s, ds), text, start, call) <==> Fits(text, start, ds)
  {
    if Fits(text, start, ds) {
      FittingCutRecovers(c, s, text, start, call, ds);
    } else {
      OverrunStays(c, s, text, start, call, ds);
    }
  }

  // ----- A leak -----

  const FILL: nat := 200

  function Fill(n: nat): (r: string)
    ensures |r| == n
  {
    if n == 0 then "" else Fill(n - 1) + "x"
  }

  /** A block longer than the window, with prose ahead of it. */
  function Block(): (r: string)
    ensures |r| == 7 + FILL && r[0] == '<' && r[1..7] == "invoke"
  {
    "<invoke" + Fill(FILL)
  }

  function Leaked(): string {
    "p" + Block()
  }

  /** A scanner that knows this block. */
  function Simple(): OrphanInvoke.Scanner {
    OrphanInvoke.Scanner(
      s => if s == Block() then Some(OrphanInvoke.OpenTag(0, 1, "f")) else None,
      s => if s == Block()[1..] then Some(OrphanInvoke.CloseTag(0, 6 + FILL)) else None,
      _ => "{}")
  }

  lemma MentionsItself()
    ensures OrphanInvoke.MentionsInvoke(Block())
  {
    assert OccursAt(Block(), "invoke", 1);
    IndexOfLeast(Block(), "invoke", 1);
  }

  lemma NotYetInExample(c: Codec, a: nat, q: nat)
    requires c.scanner == Simple() && a <= q <= 150
    ensures NotYet(c, Leaked(), a, q)
  {
    var part := Leaked()[a..q];
    assert part[0..] == part && |part| != |Block()|;
    assert OrphanInvoke.FirstBlock(c.scanner, part).None?;
  }

  lemma FoundInExample(c: Codec)
    requires c.scanner == Simple()
    ensures Found(c, Leaked(), 1, OrphanInvoke.Call("f", "{}"), 1)
  {
    var block, n, call := Block(), 7 + FILL, OrphanInvoke.Call("f", "{}");
    var at := OrphanInvoke.BlocksOf(c.scanner, block);
    assert Leaked()[1..] == block && Leaked()[1..1] == "" && block[..0] == "" && block[n..] == ""
           && block[0..] == block;
    MentionsItself();
    OneBlock(c, block, n, call);
    assert OrphanInvoke.BlockAt(at, n, 0) == Some(OrphanInvoke.Block(0, n, call))
           && OrphanInvoke.BlockAt(at, n, n).None?;
    assert OrphanInvoke.Scan(at, n, n) == OrphanInvoke.Blocks([], n);
    assert OrphanInvoke.Scan(at, n, 0) == OrphanInvoke.Blocks([call] + [], n) && [call] + [] == [call];
  }

  lemma OneBlock(c: Codec, block: string, n: nat, call: OrphanInvoke.Call)
    requires c.scanner == Simple() && block == Block() && n == |block| && call == OrphanInvoke.Call("f", "{}")
    ensures OrphanInvoke.FirstBlock(c.scanner, block) == Some(OrphanInvoke.Block(0, n, call))
    ensures OrphanInvoke.FirstBlock(c.scanner, "").None?
  {
    assert |block[1..]| == n - 1;
  }

  /** There are leaks, cut so that they fit and so that they do not: for any codec with that scanner that
      takes the block for an opener where the second cut is. */
  lemma LeakExample(c: Codec)
    requires c.scanner == Simple() && Opens(c, Leaked(), 1, 150)
    ensures var text, call := Leaked(), OrphanInvoke.Call("f", "{}");
            && Leak(c, text, 1, call, ["p", Block()]) && Fits(text, 1, ["p", Block()])
            && Leak(c, text, 1, call, [text[..150], text[150..]]) && !Fits(text, 1, [text[..150], text[150..]])
  {
    FittingExample(c);
    OverrunExample(c);
  }

  lemma FittingExample(c: Codec)
    requires c.scanner == Simple()
    ensures Leak(c, Leaked(), 1, OrphanInvoke.Call("f", "{}"), ["p", Block()]) && Fits(Leaked(), 1, ["p", Block()])
  {
    var text, call := Leaked(), OrphanInvoke.Call("f", "{}");
    FoundInExample(c);
    NotYetInExample(c, 0, 1);
    assert text[0] == 'p';
    TwoDeltas(c, text, 1, call, "p", Block());
  }

  lemma OverrunExample(c: Codec)
    requires c.scanner == Simple() && Opens(c, Leaked(), 1, 150)
    ensures var text := Leaked();
            && Leak(c, text, 1, OrphanInvoke.Call("f", "{}"), [text[..150], text[150..]])
            && !Fits(text, 1, [text[..150], text[150..]])
  {
    var text, call := Leaked(), OrphanInvoke.Call("f", "{}");
    FoundInExample(c);
    NotYetInExample(c, 0, 150);
    assert text[0] == 'p' && text == text[..150] + text[150..];
    TwoDeltas(c, text, 1, call, text[..150], text[150..]);
  }

  /** A cut into two. */
  lemma TwoDeltas(c: Codec, text: string, start: nat, call: OrphanInvoke.Call, d: string, e: string)
    requires text == d + e && d != "" && e != "" && start < |text|
    ensures Leak(c, text, start, call, [d, e]) <==>
            Reads(c, text, start, call, 0, |d|) && Reads(c, text, start, call, |d|, |text|)
    ensures Fits(text, start, [d, e]) <==> FitsOne(text, start, 0, |d|) && FitsOne(text, start, |d|, |text|)
  {
    assert [d, e][..1] == [d] && [d][..0] == [];
    assert Concat([]) == "" && Concat([d]) == "" + d == d && Concat([d, e]) == d + e;
    assert Leak(c, text, start, call, []) && Fits(text, start, []);
    assert Leak(c, text, start, call, [d]) <==> Reads(c, text, start, call, 0, |d|);
    assert Fits(text, start, [d]) <==> FitsOne(text, start, 0, |d|);
  }
}
