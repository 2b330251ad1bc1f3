/** Histories outside the plain ones, for which the pairing of tool uses and results fails or not, as
    the exact condition says. */
module RequestExceptions {
  import opened Basics
  import opened ChatHistory
  import opened ClaudeHistory
  import opened RequestPairing
  import R = RequestPipeline
  import S = RequestStages
  import E = EnsureIds

  /** A history translates if every message does. */
  lemma {:induction false} WalkSucceeds(g: Config, b: Builder, ms: seq<Message>)
    requires forall k :: 0 <= k < |ms| ==> ms[k].role == System || Blocks(g, ms[k]).Ok?
    ensures Walk(g, b, ms).Ok?
    decreases |ms|
  {
    if ms != [] {
      assert ms[0].role == System || Blocks(g, ms[0]).Ok?;
      WalkSucceeds(g, Step(g, b, ms[0]).value, ms[1..]);
    }
  }

  /** A history translates, and is paired exactly in a given case. */
  ghost predicate PairedIff(g: Config, ms: seq<Message>, when: bool) {
    R.Translate(g, ms).Ok? && (R.Paired(R.Translate(g, ms).value) <==> when)
  }

  /** A history that needs no repair is paired exactly when it is answered itself. */
  lemma PairedAsIs(g: Config, ms: seq<Message>)
    requires R.Prepared(ms) == ms && forall k :: 0 <= k < |ms| ==> ms[k].role == System || Blocks(g, ms[k]).Ok?
    ensures PairedIff(g, ms, Answered(g, ms))
  {
    WalkSucceeds(g, Start, ms);
    PairedExactly(g, ms);
  }

  // ----- A call message and a tool message -----

  lemma KeepsOneExchange(m: Message, r: Message)
    requires m.role == Assistant && r.role == Tool && RespondedIds(r) != {}
    ensures S.SanitizeHistory([m, r]) == [m, r]
  {
    var ms := [m, r];
    var id :| id in RespondedIds(r);
    assert ms[1..] == [r] && r in [r] && id in S.RespondedByAll([r]);
    assert S.StripTrailing(ms, 2) == S.StripTrailing(ms, 1) == ms;
  }

  lemma FixTwo(m: Message, r: Message)
    ensures E.FixIds([m, r]) ==
            [E.FixMessage(E.Seen([], []), m, 0), E.FixMessage(E.SeenOne(E.Seen([], []), m, 0), r, 1)]
  {
    assert [m, r][..1] == [m] && [m][..0] == [];
  }

  lemma {:induction false} NothingToAdd(cs: seq<Call>, answered: set<string>)
    requires forall c :: c in cs ==> c.id in answered
    ensures S.Synthesize(cs, answered) == []
  {
    if cs != [] {
      assert cs[|cs| - 1] in cs;
      NothingToAdd(cs[..|cs| - 1], answered);
    }
  }

  lemma NothingMissing(m: Message, r: Message)
    requires m.role == Assistant && r.role == Tool && forall c :: c in m.calls ==> c.id in RespondedIds(r)
    ensures S.FixMissing([m, r]) == [m, r]
  {
    assert [m, r][1..] == [r] && [r][1..] == [];
    assert S.Scan([r]) == RespondedIds(r) + S.Scan([]);
    NothingToAdd(m.calls, S.Scan([r]));
    assert S.FixMissing([r]) == [r] + [] + [];
    assert S.FixMissing([m, r]) == [m] + [] + [r];
  }

  lemma FollowTwo(g: Config, m: Message, r: Message)
    ensures FollowAll(g, Blank, [m, r]) == Follow(g, Follow(g, Blank, m), r)
  {
    var t := Follow(g, Blank, m);
    assert [m, r][1..] == [r] && [r][1..] == [];
    assert FollowAll(g, t, [r]) == FollowAll(g, Follow(g, t, r), []);
  }

  /** The tool message responds to every call, and no id needs repair. */
  ghost predicate InOrder(m: Message, r: Message) {
    && m.role == Assistant && r.role == Tool && RespondedIds(r) != {}
    && (forall c :: c in m.calls ==> c.id in RespondedIds(r))
    && E.FixMessage(E.Seen([], []), m, 0) == m && E.FixMessage(E.SeenOne(E.Seen([], []), m, 0), r, 1) == r
  }

  /** An exchange whose ids are in order already reaches the builder as it is. */
  lemma ExchangePrepared(m: Message, r: Message)
    requires InOrder(m, r)
    ensures R.Prepared([m, r]) == [m, r]
  {
    var ms := [m, r];
    assert R.NormalizeRoles(ms) == ms;
    assert S.SanitizeHistory(ms) == ms by {
      KeepsOneExchange(m, r);
    }
    assert E.FixIds(ms) == ms by {
      FixTwo(m, r);
    }
    assert S.FixMissing(ms) == ms by {
      NothingMissing(m, r);
    }
  }

  lemma TwoPaired(g: Config, m: Message, r: Message)
    requires R.Prepared([m, r]) == [m, r] && Blocks(g, m).Ok? && Blocks(g, r).Ok?
    ensures PairedIff(g, [m, r], Answered(g, [m, r]))
  {
    PairedAsIs(g, [m, r]);
  }

  // ----- Arguments that split -----

  function Asks(cs: seq<Call>): Message {
    Message(Assistant, Absent, cs, "")
  }

  lemma OneCallFixed(c: Call)
    requires E.ValidId(c.id)
    ensures E.FixCalls([], [c], 0) == [c]
  {
    var none: seq<string>, calls: seq<Call> := [], [];
    assert [c][..0] == calls && E.SanitizedCalls(calls, 0) == none && E.FixCalls(none, calls, 0) == calls;
    assert none + none == none && E.NextId(none, c.id) == c.id;
    assert E.FixCalls(none, [c], 0) == calls + [c] == [c];
  }

  lemma OneCallKept(c: Call)
    requires E.ValidId(c.id)
    ensures E.FixMessage(E.Seen([], []), Asks([c]), 0) == Asks([c])
    ensures E.SeenOne(E.Seen([], []), Asks([c]), 0).results == []
  {
    OneCallFixed(c);
  }

  lemma AnswerKept(s: E.Seen, id: string, text: string)
    requires E.ValidId(id) && s.results == []
    ensures var r := Message(Tool, Str(text), [], id); E.FixMessage(s, r, 1) == r
  {
    var r := Message(Tool, Str(text), [], id);
    assert E.SanitizedAnswer(r, 1) == [id] && E.NextId([], id) == id;
  }

  lemma OneCallBlocks(g: Config, c: Call)
    requires CallBlocks(g, [], c).Some?
    ensures Blocks(g, Asks([c])).Ok? && CallIds(g, [c]) == OneCallIds(g, [], c)
  {
    assert [c][..0] == [] && AllCallBlocks(g, []) == Some([]) && UsedIds(g, []) == [];
    assert CallIds(g, []) == {};
  }

  lemma {:induction false} SplitIdsLonger(id: string, base: nat, n: nat)
    ensures id !in SplitIds(id, base, n) && (n > 0 ==> SplitIds(id, base, n) != {})
  {
    if n > 0 {
      SplitIdsLonger(id, base, n - 1);
      assert |Numbered(id, base + n)| > |id|;
      assert Numbered(id, base + n) in SplitIds(id, base, n);
    }
  }

  lemma SplitExchangeInOrder(c: Call, text: string)
    requires E.ValidId(c.id)
    ensures InOrder(Asks([c]), Message(Tool, Str(text), [], c.id))
  {
    var m, r := Asks([c]), Message(Tool, Str(text), [], c.id);
    assert RespondedIds(r) == {c.id};
    OneCallKept(c);
    AnswerKept(E.SeenOne(E.Seen([], []), m, 0), c.id, text);
  }

  lemma SplitExchangePrepared(c: Call, text: string)
    requires E.ValidId(c.id)
    ensures var ms := [Asks([c]), Message(Tool, Str(text), [], c.id)]; R.Prepared(ms) == ms
  {
    SplitExchangeInOrder(c, text);
    ExchangePrepared(Asks([c]), Message(Tool, Str(text), [], c.id));
  }

  lemma SplitExchangeAnswered(g: Config, c: Call, text: string)
    requires CallIds(g, [c]) == OneCallIds(g, [], c)
    ensures Answered(g, [Asks([c]), Message(Tool, Str(text), [], c.id)]) <==> |g.split(c.args)| <= 1
  {
    var m, r, ids := Asks([c]), Message(Tool, Str(text), [], c.id), OneCallIds(g, [], c);
    FollowTwo(g, m, r);
    SplitIdsLonger(c.id, E.Count([], c.id), |g.split(c.args)|);
    assert Follow(g, Blank, m) == Tally(true, {} + ids, {}, false);
    assert Follow(g, Follow(g, Blank, m), r) == Tally(true, ids, {} + {c.id}, true);
    if |g.split(c.args)| > 1 {
      var id :| id in ids;
      assert id !in {c.id};
    }
  }

  /** For one call and its answer, the translation is paired exactly when the arguments are not split. */
  lemma SplitArgumentsUnpair(g: Config, c: Call, text: string)
    requires E.ValidId(c.id) && CallBlocks(g, [], c).Some?
    ensures var ms := [Asks([c]), Message(Tool, Str(text), [], c.id)];
            R.Translate(g, ms).Ok? && (R.Paired(R.Translate(g, ms).value) <==> |g.split(c.args)| <= 1)
  {
    var m, r := Asks([c]), Message(Tool, Str(text), [], c.id);
    SplitExchangePrepared(c, text);
    OneCallBlocks(g, c);
    SplitExchangeAnswered(g, c, text);
    TwoPaired(g, m, r);
  }

  // ----- Tool uses in content parts -----

  lemma EmbeddedUnanswered(g: Config, p: Part)
    requires p.ToolUsePart?
    ensures !Answered(g, [Message(Assistant, Parts([p]), [], "")])
  {
    var m := Message(Assistant, Parts([p]), [], "");
    assert [m][1..] == [] && p in PartsOf(m) && Telling(p);
    assert UsePartIds([p]) == {p.id} && CallIds(g, []) == {};
    assert Follow(g, Blank, m) == Tally(true, {p.id}, {}, false);
    assert FollowAll(g, Blank, [m]) == FollowAll(g, Follow(g, Blank, m), []);
    assert p.id in {p.id};
  }

  /** A tool use carried in the content instead of in the calls is never answered for it. */
  lemma EmbeddedUseUnpairs(g: Config, id: string, name: string, input: string)
    requires E.ValidId(id)
    ensures var ms := [Message(Assistant, Parts([ToolUsePart(id, name, input)]), [], "")];
            R.Translate(g, ms).Ok? && !R.Paired(R.Translate(g, ms).value)
  {
    var p := ToolUsePart(id, name, input);
    EmbeddedPrepared(p);
    assert AllCallBlocks(g, []) == Some([]);
    PairedAsIs(g, [Message(Assistant, Parts([p]), [], "")]);
    EmbeddedUnanswered(g, p);
  }

  lemma EmbeddedFixed(p: Part)
    requires p.ToolUsePart? && E.ValidId(p.id)
    ensures var ms := [Message(Assistant, Parts([p]), [], "")]; E.FixIds(ms) == ms
  {
    var m := Message(Assistant, Parts([p]), [], "");
    assert [m][..0] == [] && [p][..0] == [];
    assert E.FixParts([], [], [p], 0) == [p];
    assert E.FixMessage(E.Seen([], []), m, 0) == m;
  }

  lemma EmbeddedPrepared(p: Part)
    requires p.ToolUsePart? && E.ValidId(p.id)
    ensures var ms := [Message(Assistant, Parts([p]), [], "")]; R.Prepared(ms) == ms
  {
    var m := Message(Assistant, Parts([p]), [], "");
    assert R.NormalizeRoles([m]) == [m];
    assert S.SanitizeHistory([m]) == [m];
    EmbeddedFixed(p);
    assert [m][1..] == [] && S.FixMissing([m]) == [m] + [] + [];
  }

  // ----- Results inside tool messages -----

  /** A tool message that answers one call and carries the result of another in its content. */
  function Both(id: string, other: string, text: string): Message {
    Message(Tool, Parts([ToolResultPart(other, text)]), [], id)
  }

  lemma TwoCallsFixed(c: Call, d: Call)
    requires E.ValidId(c.id) && E.ValidId(d.id) && c.id != d.id
    ensures E.FixCalls([], [c, d], 0) == [c, d]
  {
    var none: seq<string> := [];
    assert [c, d][..1] == [c] && [c][..0] == [];
    assert E.SanitizedCalls([], 0) == none && E.SanitizedCalls([c], 0) == none + [c.id] == [c.id];
    OneCallFixed(c);
    assert [c.id][..0] == none && E.Count([c.id], d.id) == 0;
    assert none + [c.id] == [c.id] && E.NextId([c.id], d.id) == d.id;
    assert E.FixCalls(none, [c, d], 0) == [c] + [d];
  }

  lemma TwoCallsKept(c: Call, d: Call)
    requires E.ValidId(c.id) && E.ValidId(d.id) && c.id != d.id
    ensures E.FixMessage(E.Seen([], []), Asks([c, d]), 0) == Asks([c, d])
    ensures E.SeenOne(E.Seen([], []), Asks([c, d]), 0).results == []
  {
    TwoCallsFixed(c, d);
  }

  lemma BothKept(s: E.Seen, id: string, other: string, text: string)
    requires E.ValidId(id) && E.ValidId(other) && id != other && s.results == []
    ensures E.FixMessage(s, Both(id, other, text), 1) == Both(id, other, text)
  {
    var r, p := Both(id, other, text), ToolResultPart(other, text);
    assert E.SanitizedAnswer(r, 1) == [id] && E.NextId([], id) == id;
    assert [p][..0] == [] && [id][..0] == [] && [] + [id] == [id] && [id] + [] == [id];
    assert E.Count([id], other) == 0 && E.NextId([id], other) == other;
    assert E.FixParts(s.calls, [id], [p], 1) == [p];
    assert s.calls + [] == s.calls;
  }

  lemma TwoCallIds(g: Config, c: Call, d: Call)
    requires |g.split(c.args)| <= 1 && |g.split(d.args)| <= 1
    ensures CallIds(g, [c, d]) == {c.id, d.id}
  {
    PlainCallIds(g, [c, d]);
    assert (set x | x in [c, d] :: x.id) == {c.id, d.id};
  }

  lemma BothInOrder(c: Call, d: Call, text: string)
    requires E.ValidId(c.id) && E.ValidId(d.id) && c.id != d.id
    ensures InOrder(Asks([c, d]), Both(c.id, d.id, text))
  {
    BothRespond(c.id, d.id, text);
    TwoCallsKept(c, d);
    BothKept(E.SeenOne(E.Seen([], []), Asks([c, d]), 0), c.id, d.id, text);
  }

  lemma BothPrepared(c: Call, d: Call, text: string)
    requires E.ValidId(c.id) && E.ValidId(d.id) && c.id != d.id
    ensures var ms := [Asks([c, d]), Both(c.id, d.id, text)]; R.Prepared(ms) == ms
  {
    BothInOrder(c, d, text);
    ExchangePrepared(Asks([c, d]), Both(c.id, d.id, text));
  }

  lemma BothRespond(id: string, other: string, text: string)
    requires id != "" && other != ""
    ensures RespondedIds(Both(id, other, text)) == {id, other}
  {
    assert ToolResultPart(other, text) in PartsOf(Both(id, other, text));
  }

  lemma BothUnanswered(g: Config, c: Call, d: Call, text: string)
    requires |g.split(c.args)| <= 1 && |g.split(d.args)| <= 1 && c.id != d.id
    ensures !Answered(g, [Asks([c, d]), Both(c.id, d.id, text)])
  {
    var m, r, ids := Asks([c, d]), Both(c.id, d.id, text), {c.id, d.id};
    FollowTwo(g, m, r);
    TwoCallIds(g, c, d);
    assert Follow(g, Blank, m) == Tally(true, {} + ids, {}, false);
    assert Follow(g, Follow(g, Blank, m), r) == Tally(true, ids, {} + {c.id}, true);
    assert d.id in ids && d.id !in {c.id};
  }

  /** The result embedded in a tool message counts as an answer when missing ones are looked for, but is
      not translated, so its call stays without one. */
  lemma EmbeddedResultUnpairs(g: Config, c: Call, d: Call, text: string)
    requires E.ValidId(c.id) && E.ValidId(d.id) && c.id != d.id
    requires |g.split(c.args)| <= 1 && |g.split(d.args)| <= 1 && Blocks(g, Asks([c, d])).Ok?
    ensures var ms := [Asks([c, d]), Both(c.id, d.id, text)];
            R.Translate(g, ms).Ok? && !R.Paired(R.Translate(g, ms).value)
  {
    var m, r := Asks([c, d]), Both(c.id, d.id, text);
    BothPrepared(c, d, text);
    BothUnanswered(g, c, d, text);
    TwoPaired(g, m, r);
  }
}
