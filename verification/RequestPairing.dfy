/** Exactly when the translated history pairs every tool use with its result: a condition on the
    repaired messages, followed through the builder and the finishing steps. */
module RequestPairing {
  import opened Basics
  import opened ChatHistory
  import opened ClaudeHistory
  import R = RequestPipeline
  import S = RequestStages
  import E = EnsureIds
  import P = PrepareClaude

  // ----- Turns always alternate -----

  lemma {:induction false} MergeAlternates(out: seq<Claude>, ms: seq<Claude>)
    requires R.Alternating(out)
    ensures R.Alternating(P.MergeOnto(out, ms))
    decreases |ms|
  {
    if ms != [] {
      var n := |out| - 1;
      if out != [] && out[n].role == ms[0].role {
        LastReplaced(out, P.Joined(out[n], ms[0]));
        MergeAlternates(out[..n] + [P.Joined(out[n], ms[0])], ms[1..]);
      } else {
        LastAdded(out, ms[0]);
        MergeAlternates(out + [ms[0]], ms[1..]);
      }
    }
  }

  lemma LastReplaced(out: seq<Claude>, m: Claude)
    requires R.Alternating(out) && out != [] && m.role == out[|out| - 1].role
    ensures R.Alternating(out[..|out| - 1] + [m])
  {
    var next := out[..|out| - 1] + [m];
    forall k | 0 < k < |next| ensures next[k - 1].role != next[k].role {
      assert out[k - 1].role != out[k].role;
    }
  }

  lemma LastAdded(out: seq<Claude>, m: Claude)
    requires R.Alternating(out) && (out == [] || m.role != out[|out| - 1].role)
    ensures R.Alternating(out + [m])
  {
    var next := out + [m];
    forall k | 0 < k < |next| ensures next[k - 1].role != next[k].role {
      assert k < |out| ==> out[k - 1].role != out[k].role;
    }
  }

  /** Whatever the history, no two adjacent messages of a translation have the same role. */
  lemma TurnsAlternate(g: Config, ms: seq<Message>)
    requires R.Translate(g, ms).Ok?
    ensures R.Alternating(R.Translate(g, ms).value)
  {
    MergeAlternates([], P.MapOrder(P.DropEmpty(P.MapStrip(Build(g, R.Prepared(ms)).value))));
  }

  // ----- Following a conversation -----

  /** Where a conversation stands: whether every assistant run before the current one was answered, the
      ids the current run asks for, those answered since, and whether the other side has spoken since. */
  datatype Tally = Tally(ok: bool, asked: set<string>, given: set<string>, replied: bool)

  const Blank: Tally := Tally(true, {}, {}, true)

  function HearUser(t: Tally, results: set<string>): Tally {
    t.(given := t.given + results, replied := true)
  }

  function HearAssistant(t: Tally, uses: set<string>): Tally {
    if t.replied then Tally(t.ok && t.asked <= t.given, uses, {}, false) else t.(asked := t.asked + uses)
  }

  predicate Settles(t: Tally) {
    t.ok && t.asked <= t.given
  }

  /** The ids that a message's tool calls are translated to: its own, or numbered ones for arguments
      that split. */
  function CallIds(g: Config, cs: seq<Call>): set<string> {
    if cs == [] then {} else
      var front, c := cs[..|cs| - 1], cs[|cs| - 1];
      CallIds(g, front) + OneCallIds(g, UsedIds(g, front), c)
  }

  function OneCallIds(g: Config, used: seq<string>, c: Call): set<string> {
    var n := |g.split(c.args)|;
    if n <= 1 then {c.id} else SplitIds(c.id, E.Count(used, c.id), n)
  }

  function SplitIds(id: string, base: nat, n: nat): set<string> {
    if n == 0 then {} else SplitIds(id, base, n - 1) + {Numbered(id, base + n)}
  }

  function UsePartIds(ps: seq<Part>): set<string> {
    set p | p in ps && p.ToolUsePart? :: p.id
  }

  function ResultPartIds(ps: seq<Part>): set<string> {
    set p | p in ps && p.ToolResultPart? :: p.id
  }

  /** A message that leaves something in the translated body. */
  predicate Talks(m: Message) {
    match m.role
    case Tool => true
    case User =>
      (m.content.Str? && m.content.text != "") || exists p :: p in PartsOf(m) && UserBlock(p) != []
    case Assistant =>
      || (m.content.Str? && m.content.text != "") || m.calls != []
      || exists p :: p in PartsOf(m) && Telling(p)
    case System => false
    case Unknown(_) => false
  }

  /** One message of the history: an assistant asks for its calls and its tool uses, a tool message
      answers its own id only, a user message its result parts. */
  function Follow(g: Config, t: Tally, m: Message): Tally {
    if !Talks(m) then t
    else if m.role == Assistant then HearAssistant(t, UsePartIds(PartsOf(m)) + CallIds(g, m.calls))
    else if m.role == Tool then HearUser(t, {m.callId})
    else HearUser(t, ResultPartIds(PartsOf(m)))
  }

  function FollowAll(g: Config, t: Tally, ms: seq<Message>): Tally
    decreases |ms|
  {
    if ms == [] then t else FollowAll(g, Follow(g, t, ms[0]), ms[1..])
  }

  /** Every run of assistant messages has all the ids it asks for answered by the user and tool messages
      up to the next run. */
  predicate Answered(g: Config, ms: seq<Message>) {
    Settles(FollowAll(g, Blank, ms))
  }

  // ----- The same on Claude messages -----

  predicate Speaks(bs: seq<Block>) {
    exists b :: b in bs && P.Meaningful(b)
  }

  function Count(t: Tally, side: Side, bs: seq<Block>): Tally {
    if side == UserSide then HearUser(t, R.ResultIds(bs)) else HearAssistant(t, R.UseIds(bs))
  }

  function Heed(t: Tally, side: Side, bs: seq<Block>): Tally {
    if Speaks(bs) then Count(t, side, bs) else t
  }

  /** All messages counted, from the front and onto a list. */
  function CountFrom(t: Tally, ms: seq<Claude>): Tally
    decreases |ms|
  {
    if ms == [] then t else CountFrom(Count(t, ms[0].role, ms[0].content), ms[1..])
  }

  function CountAll(ms: seq<Claude>): Tally {
    if ms == [] then Blank else Count(CountAll(ms[..|ms| - 1]), ms[|ms| - 1].role, ms[|ms| - 1].content)
  }

  /** Only messages that say something counted. */
  function HeedFrom(t: Tally, ms: seq<Claude>): Tally
    decreases |ms|
  {
    if ms == [] then t else HeedFrom(Heed(t, ms[0].role, ms[0].content), ms[1..])
  }

  function HeedAll(ms: seq<Claude>): Tally {
    if ms == [] then Blank else Heed(HeedAll(ms[..|ms| - 1]), ms[|ms| - 1].role, ms[|ms| - 1].content)
  }

  /** Two contents of one side, one after the other, count like a content with the ids of both. */
  lemma CountJoin(t: Tally, side: Side, a: seq<Block>, b: seq<Block>, ab: seq<Block>)
    requires R.UseIds(ab) == R.UseIds(a) + R.UseIds(b) && R.ResultIds(ab) == R.ResultIds(a) + R.ResultIds(b)
    ensures Count(Count(t, side, a), side, b) == Count(t, side, ab)
  {
    assert t.given + R.ResultIds(a) + R.ResultIds(b) == t.given + (R.ResultIds(a) + R.ResultIds(b));
    assert t.asked + R.UseIds(a) + R.UseIds(b) == t.asked + (R.UseIds(a) + R.UseIds(b));
  }

  lemma MuteHasNoIds(bs: seq<Block>)
    requires !Speaks(bs)
    ensures R.UseIds(bs) == {} && R.ResultIds(bs) == {}
  {
  }

  lemma HeedJoin(t: Tally, side: Side, a: seq<Block>, b: seq<Block>, ab: seq<Block>)
    requires R.UseIds(ab) == R.UseIds(a) + R.UseIds(b) && R.ResultIds(ab) == R.ResultIds(a) + R.ResultIds(b)
    requires Speaks(ab) <==> Speaks(a) || Speaks(b)
    ensures Heed(Heed(t, side, a), side, b) == Heed(t, side, ab)
  {
    if !Speaks(a) {
      MuteHasNoIds(a);
      assert R.UseIds(ab) == R.UseIds(b) && R.ResultIds(ab) == R.ResultIds(b);
    } else if !Speaks(b) {
      MuteHasNoIds(b);
      assert R.UseIds(ab) == R.UseIds(a) && R.ResultIds(ab) == R.ResultIds(a);
    } else {
      CountJoin(t, side, a, b, ab);
    }
  }

  lemma HeedAppend(t: Tally, side: Side, a: seq<Block>, b: seq<Block>)
    ensures Heed(Heed(t, side, a), side, b) == Heed(t, side, a + b)
  {
    R.UsesAppend(a, b);
    assert forall x :: x in a + b <==> x in a || x in b;
    HeedJoin(t, side, a, b, a + b);
  }

  lemma HeedParted(t: Tally, side: Side, bs: seq<Block>)
    ensures Heed(Heed(t, side, Results(bs)), side, Others(bs)) == Heed(t, side, bs)
  {
    R.ResultsKeepIds(bs);
    R.OthersKeepUses(bs);
    PartsSpeak(bs);
    assert R.ResultIds(Others(bs)) == {};
    HeedJoin(t, side, Results(bs), Others(bs), bs);
  }

  lemma {:induction false} PartsSpeak(bs: seq<Block>)
    ensures Speaks(bs) <==> Speaks(Results(bs)) || Speaks(Others(bs))
  {
    forall b ensures b in bs <==> b in Results(bs) || b in Others(bs) {
      Parted(bs, b);
    }
  }

  lemma {:induction false} Parted(bs: seq<Block>, b: Block)
    ensures b in bs <==> b in Results(bs) || b in Others(bs)
  {
    if bs != [] {
      Parted(bs[..|bs| - 1], b);
      SplitLast(bs);
    }
  }

  // ----- The finishing steps -----

  lemma CountSnoc(ms: seq<Claude>, m: Claude)
    ensures CountAll(ms + [m]) == Count(CountAll(ms), m.role, m.content)
  {
    assert (ms + [m])[..|ms|] == ms;
  }

  lemma CountJoined(t: Tally, a: Claude, b: Claude)
    requires a.role == b.role
    ensures Count(t, a.role, P.Joined(a, b).content) == Count(Count(t, a.role, a.content), b.role, b.content)
  {
    R.JoinedLead(a, b);
    JoinedResults(a, b);
    CountJoin(t, a.role, a.content, b.content, P.Joined(a, b).content);
  }

  lemma JoinedResults(a: Claude, b: Claude)
    ensures R.ResultIds(P.Joined(a, b).content) == R.ResultIds(a.content) + R.ResultIds(b.content)
  {
    var first, rest := Results(a.content) + Results(b.content), Others(a.content) + Others(b.content);
    R.ResultsKeepIds(a.content);
    R.ResultsKeepIds(b.content);
    R.UsesAppend(Results(a.content), Results(b.content));
    R.UsesAppend(Others(a.content), Others(b.content));
    R.UsesAppend(first, rest);
    assert R.ResultIds(Others(a.content)) == {} && R.ResultIds(Others(b.content)) == {};
  }

  lemma {:induction false} MergeCounts(out: seq<Claude>, ms: seq<Claude>)
    ensures CountAll(P.MergeOnto(out, ms)) == CountFrom(CountAll(out), ms)
    decreases |ms|
  {
    if ms != [] {
      var n := |out| - 1;
      if out != [] && out[n].role == ms[0].role {
        CountSnoc(out[..n], P.Joined(out[n], ms[0]));
        CountJoined(CountAll(out[..n]), out[n], ms[0]);
        MergeCounts(out[..n] + [P.Joined(out[n], ms[0])], ms[1..]);
      } else {
        CountSnoc(out, ms[0]);
        MergeCounts(out + [ms[0]], ms[1..]);
      }
    }
  }

  lemma {:induction false} OrderCounts(t: Tally, ms: seq<Claude>)
    ensures CountFrom(t, P.MapOrder(ms)) == CountFrom(t, ms)
    decreases |ms|
  {
    if ms != [] {
      var r := P.MapOrder(ms);
      R.ReorderKeeps(ms[0].content);
      assert r[0] == P.FixOrder(ms[0]) && r[1..] == P.MapOrder(ms[1..]);
      OrderCounts(Count(t, ms[0].role, ms[0].content), ms[1..]);
    }
  }

  /** Dropping messages that say nothing settles the same, also with a mute assistant kept at the end. */
  lemma {:induction false} DropSettles(t: Tally, ms: seq<Claude>)
    ensures Settles(CountFrom(t, P.DropEmpty(ms))) == Settles(HeedFrom(t, ms))
    decreases |ms|
  {
    if ms != [] {
      var m, rest := ms[0], P.DropEmpty(ms[1..]);
      if Speaks(m.content) {
        assert P.DropEmpty(ms) == [m] + rest && ([m] + rest)[1..] == rest;
        DropSettles(Count(t, m.role, m.content), ms[1..]);
      } else if P.Keep(m, |ms| == 1) {
        MuteHasNoIds(m.content);
        assert ms[1..] == [] && P.DropEmpty(ms) == [m] && [m][1..] == [];
        assert CountFrom(t, [m]) == Count(t, m.role, m.content);
      } else {
        assert P.DropEmpty(ms) == rest;
        DropSettles(t, ms[1..]);
      }
    }
  }

  lemma {:induction false} StripSpeaks(bs: seq<Block>)
    ensures Speaks(P.StripBlocks(bs)) == Speaks(bs) && R.ResultIds(P.StripBlocks(bs)) == R.ResultIds(bs)
  {
    if bs != [] {
      var front, last := bs[..|bs| - 1], bs[|bs| - 1];
      StripSpeaks(front);
      SplitLast(bs);
      R.UsesAppend(front, [last]);
      R.UsesAppend(P.StripBlocks(front), [last]);
      assert forall b :: b in bs <==> b in front || b == last;
      assert P.Rejectable(last) ==> P.StripBlocks(bs) == P.StripBlocks(front);
    }
  }

  lemma {:induction false} StripHeeds(t: Tally, ms: seq<Claude>)
    ensures HeedFrom(t, P.MapStrip(ms)) == HeedFrom(t, ms)
    decreases |ms|
  {
    if ms != [] {
      var r := P.MapStrip(ms);
      R.StripKeeps(ms[0].content);
      StripSpeaks(ms[0].content);
      assert r[1..] == P.MapStrip(ms[1..]);
      StripHeeds(Heed(t, ms[0].role, ms[0].content), ms[1..]);
    }
  }

  /** Stripping, dropping, ordering and merging leave the tally of every list where it was. */
  lemma PrepareSettles(ms: seq<Claude>)
    ensures Settles(CountAll(P.Prepare(ms))) == Settles(HeedFrom(Blank, ms))
  {
    var stripped := P.MapStrip(ms);
    StripHeeds(Blank, ms);
    DropSettles(Blank, stripped);
    OrderCounts(Blank, P.DropEmpty(stripped));
    MergeCounts([], P.MapOrder(P.DropEmpty(stripped)));
  }

  // ----- Results come first -----

  predicate ResultsFirst(m: Claude) {
    m.role == UserSide ==> R.Lead(m.content) == R.ResultIds(m.content)
  }

  predicate AllResultsFirst(ms: seq<Claude>) {
    forall k :: 0 <= k < |ms| ==> ResultsFirst(ms[k])
  }

  /** What the builder makes of the user side: results alone, or no results at all. */
  predicate Pure(m: Claude) {
    m.role == UserSide ==> AllResults(m.content) || !HasResult(m.content)
  }

  predicate AllPure(ms: seq<Claude>) {
    forall k :: 0 <= k < |ms| ==> Pure(ms[k])
  }

  lemma PureIsFirst(m: Claude)
    requires Pure(m)
    ensures ResultsFirst(m.(content := P.StripBlocks(m.content)))
  {
    var bs := m.content;
    if m.role == UserSide {
      StripSpeaks(bs);
      R.LeadAreResults(P.StripBlocks(bs));
      if AllResults(bs) {
        R.StripAllResults(bs);
        R.LeadOfResults(bs, []);
        assert bs + [] == bs;
      } else {
        assert R.ResultIds(bs) == {};
      }
    }
  }

  lemma {:induction false} DropFirst(ms: seq<Claude>)
    requires AllResultsFirst(ms)
    ensures AllResultsFirst(P.DropEmpty(ms))
  {
    if ms != [] {
      DropFirst(ms[1..]);
    }
  }

  lemma {:induction false} MergeFirst(out: seq<Claude>, ms: seq<Claude>)
    requires AllResultsFirst(out) && AllResultsFirst(ms)
    ensures AllResultsFirst(P.MergeOnto(out, ms))
    decreases |ms|
  {
    if ms != [] {
      var n := |out| - 1;
      if out != [] && out[n].role == ms[0].role {
        var joined := P.Joined(out[n], ms[0]);
        R.JoinedLead(out[n], ms[0]);
        JoinedResults(out[n], ms[0]);
        R.LeadAreResults(joined.content);
        MergeFirst(out[..n] + [joined], ms[1..]);
      } else {
        MergeFirst(out + [ms[0]], ms[1..]);
      }
    }
  }

  lemma PrepareFirst(ms: seq<Claude>)
    requires AllPure(ms)
    ensures AllResultsFirst(P.Prepare(ms))
  {
    var stripped := P.MapStrip(ms);
    forall k | 0 <= k < |ms| ensures ResultsFirst(stripped[k]) {
      PureIsFirst(ms[k]);
    }
    DropFirst(stripped);
    MergeFirst([], P.MapOrder(P.DropEmpty(stripped)));
  }

  // ----- A finished list settles exactly when it is paired -----

  ghost predicate PairedTo(ms: seq<Claude>, n: int) {
    forall k :: 0 <= k < n && k + 1 < |ms| && R.Calls(ms[k]) ==> R.Answers(ms[k], ms[k + 1])
  }

  /** What the tally of an alternating list knows of its end. */
  ghost predicate Knows(ms: seq<Claude>) {
    var t, n := CountAll(ms), |ms|;
    if n == 0 then t == Blank
    else if ms[n - 1].role == AssistantSide then
      !t.replied && t.given == {} && t.asked == R.UseIds(ms[n - 1].content) && (t.ok <==> PairedTo(ms, n - 1))
    else if n == 1 then t.replied && t.ok && t.asked == {}
    else
      && t.replied && t.given == R.Lead(ms[n - 1].content) && t.asked == R.UseIds(ms[n - 2].content)
      && (t.ok <==> PairedTo(ms, n - 2))
  }

  lemma {:induction false} TallyKnows(ms: seq<Claude>)
    requires R.Alternating(ms) && AllResultsFirst(ms)
    ensures Knows(ms)
  {
    if ms != [] {
      var n := |ms| - 1;
      TallyKnows(ms[..n]);
      if n > 0 {
        assert ms[n - 1].role != ms[n].role;
        TallyGoesOn(ms[..n], ms[n]);
        SplitLast(ms);
      }
    }
  }

  lemma TallyGoesOn(ms: seq<Claude>, m: Claude)
    requires ms != [] && R.Alternating(ms) && Knows(ms) && ResultsFirst(m) && ms[|ms| - 1].role != m.role
    ensures Knows(ms + [m])
  {
    var all, n := ms + [m], |ms|;
    CountSnoc(ms, m);
    if m.role == UserSide {
      assert PairedTo(all, n - 1) <==> PairedTo(ms, n - 1) by {
        assert forall k :: 0 <= k < n ==> all[k] == ms[k];
      }
    } else {
      AnswerIsPaired(ms, m);
    }
  }

  lemma AnswerIsPaired(ms: seq<Claude>, m: Claude)
    requires ms != [] && R.Alternating(ms) && Knows(ms) && ms[|ms| - 1].role == UserSide && m.role == AssistantSide
    ensures Settles(CountAll(ms)) <==> PairedTo(ms + [m], |ms|)
  {
    var all, n := ms + [m], |ms|;
    assert forall k :: 0 <= k < n ==> all[k] == ms[k];
    if n == 1 {
      assert !R.Calls(all[0]);
    } else {
      assert ms[n - 2].role != ms[n - 1].role;
      R.UseHasId(ms[n - 2].content);
      assert CountAll(ms).asked <= CountAll(ms).given <==> (R.Calls(all[n - 2]) ==> R.Answers(all[n - 2], all[n - 1]));
      assert !R.Calls(all[n - 1]);
      if PairedTo(ms, n - 2) && (R.Calls(all[n - 2]) ==> R.Answers(all[n - 2], all[n - 1])) {
        forall k | 0 <= k < n && R.Calls(all[k]) ensures R.Answers(all[k], all[k + 1]) {
          assert k < n - 2 ==> R.Answers(ms[k], ms[k + 1]);
        }
      }
    }
  }

  lemma PairedIsSettled(ms: seq<Claude>)
    requires R.Alternating(ms) && AllResultsFirst(ms)
    ensures R.Paired(ms) <==> Settles(CountAll(ms))
  {
    TallyKnows(ms);
    var n := |ms|;
    if n > 0 && ms[n - 1].role == AssistantSide {
      EndsAsking(ms);
    } else if n > 1 {
      EndsAnswering(ms);
    }
  }

  lemma EndsAsking(ms: seq<Claude>)
    requires ms != [] && ms[|ms| - 1].role == AssistantSide && Knows(ms)
    ensures R.Paired(ms) <==> Settles(CountAll(ms))
  {
    R.UseHasId(ms[|ms| - 1].content);
    PairedUpTo(ms, |ms| - 1);
  }

  lemma EndsAnswering(ms: seq<Claude>)
    requires R.Alternating(ms) && |ms| > 1 && ms[|ms| - 1].role != AssistantSide && Knows(ms)
    ensures R.Paired(ms) <==> Settles(CountAll(ms))
  {
    var n := |ms|;
    assert ms[n - 2].role != ms[n - 1].role;
    R.UseHasId(ms[n - 2].content);
    PairedUpTo(ms, n - 2);
  }

  /** Paired as a whole: paired up to a point, and from there on. */
  lemma PairedUpTo(ms: seq<Claude>, n: nat)
    requires n < |ms|
    ensures R.Paired(ms) <==>
            PairedTo(ms, n) && forall k :: n <= k < |ms| && R.Calls(ms[k]) ==>
              k + 1 < |ms| && R.Answers(ms[k], ms[k + 1])
  {
  }

  // ----- The builder -----

  lemma {:induction false} HeedSnoc(t: Tally, ms: seq<Claude>, m: Claude)
    ensures HeedFrom(t, ms + [m]) == Heed(HeedFrom(t, ms), m.role, m.content)
    decreases |ms|
  {
    if ms == [] {
      assert ms + [m] == [m] && [m][1..] == [];
    } else {
      HeedSnoc(Heed(t, ms[0].role, ms[0].content), ms[1..], m);
      assert (ms + [m])[1..] == ms[1..] + [m];
    }
  }

  lemma {:induction false} HeedBothWays(ms: seq<Claude>)
    ensures HeedFrom(Blank, ms) == HeedAll(ms)
  {
    if ms != [] {
      HeedBothWays(ms[..|ms| - 1]);
      HeedSnoc(Blank, ms[..|ms| - 1], ms[|ms| - 1]);
      SplitLast(ms);
    }
  }

  function InBuilder(b: Builder): Tally {
    if b.role.Some? then Heed(HeedAll(b.out), b.role.value, b.blocks) else HeedAll(b.out)
  }

  lemma HeedLast(out: seq<Claude>, m: Claude)
    ensures HeedAll(out + [m]) == Heed(HeedAll(out), m.role, m.content)
  {
    assert (out + [m])[..|out|] == out;
  }

  lemma FlushHeeds(b: Builder)
    ensures HeedAll(Flush(b).out) == InBuilder(b)
  {
    if b.role.Some? {
      HeedLast(b.out, Claude(b.role.value, b.blocks));
      assert !Speaks([]);
    }
  }

  lemma PushHeeds(out: seq<Claude>, results: seq<Block>)
    ensures HeedAll(PushResults(out, results)) == Heed(HeedAll(out), UserSide, results)
  {
    var n := |out| - 1;
    if out != [] && out[n].role == UserSide && AllResults(out[n].content) {
      HeedLast(out[..n], Claude(UserSide, out[n].content + results));
      HeedAppend(HeedAll(out[..n]), UserSide, out[n].content, results);
    } else {
      HeedLast(out, Claude(UserSide, results));
    }
  }

  /** Adding a message's blocks to the builder is heeding that message. */
  lemma AddHeeds(b: Builder, side: Side, blocks: seq<Block>)
    requires side == AssistantSide ==> !HasResult(blocks)
    ensures InBuilder(AddBlocks(b, side, blocks)) == Heed(InBuilder(b), side, blocks)
  {
    FlushHeeds(b);
    if HasResult(blocks) {
      PushHeeds(Flush(b).out, Results(blocks));
      HeedParted(InBuilder(b), side, blocks);
      assert Others(blocks) == [] ==> !Speaks(Others(blocks));
    } else {
      ProseHeeds(b, side, blocks);
    }
  }

  lemma ProseHeeds(b: Builder, side: Side, blocks: seq<Block>)
    requires !HasResult(blocks) && HeedAll(Flush(b).out) == InBuilder(b)
    ensures InBuilder(AddBlocks(b, side, blocks)) == Heed(InBuilder(b), side, blocks)
  {
    var o := if b.role == Some(side) then b else Flush(b).(role := Some(side));
    var w := o.(blocks := o.blocks + blocks);
    assert !Speaks([]);
    assert InBuilder(o) == InBuilder(b);
    HeedAppend(HeedAll(o.out), side, o.blocks, blocks);
    FlushHeeds(w);
  }

  /** What the builder holds: the user side pure, and no results waiting to be flushed. */
  predicate Tidy(b: Builder) {
    AllPure(b.out) && (b.role == Some(UserSide) ==> !HasResult(b.blocks))
  }

  lemma FlushTidy(b: Builder)
    requires Tidy(b)
    ensures AllPure(Flush(b).out)
  {
  }

  lemma PushPure(out: seq<Claude>, results: seq<Block>)
    requires AllPure(out) && AllResults(results)
    ensures AllPure(PushResults(out, results))
  {
    var r, n := PushResults(out, results), |out|;
    forall k | 0 <= k < |r| ensures Pure(r[k]) {
      if k < n - 1 {
        assert r[k] == out[k];
      }
    }
  }

  lemma AddTidy(b: Builder, side: Side, blocks: seq<Block>)
    requires Tidy(b)
    ensures Tidy(AddBlocks(b, side, blocks))
  {
    FlushTidy(b);
    if HasResult(blocks) {
      PushPure(Flush(b).out, Results(blocks));
      assert !HasResult(Others(blocks));
    } else {
      var o := if b.role == Some(side) then b else Flush(b).(role := Some(side));
      MoreTidy(o, blocks);
      FlushTidy(o.(blocks := o.blocks + blocks));
    }
  }

  lemma MoreTidy(o: Builder, blocks: seq<Block>)
    requires Tidy(o) && !HasResult(blocks)
    ensures Tidy(o.(blocks := o.blocks + blocks))
  {
    assert forall x :: x in o.blocks + blocks <==> x in o.blocks || x in blocks;
  }

  // ----- One message -----

  lemma SplitUses(id: string, base: nat, n: nat, name: string, inputs: seq<string>, bs: seq<Block>)
    requires |inputs| == n == |bs| && forall k :: 0 <= k < n ==>
             bs[k] == ToolUse(Numbered(id, base + k + 1), name, inputs[k])
    ensures R.UseIds(bs) == SplitIds(id, base, n)
    decreases n
  {
    if n > 0 {
      SplitUses(id, base, n - 1, name, inputs[..n - 1], bs[..n - 1]);
      SplitLast(bs);
      R.UsesAppend(bs[..n - 1], [bs[n - 1]]);
      assert R.UseIds([bs[n - 1]]) == {bs[n - 1].id};
    }
  }

  lemma OneCallUses(g: Config, used: seq<string>, c: Call)
    requires CallBlocks(g, used, c).Some?
    ensures var bs := CallBlocks(g, used, c).value;
            R.UseIds(bs) == OneCallIds(g, used, c) && !HasResult(bs) && bs != []
  {
    var parts, bs := g.split(c.args), CallBlocks(g, used, c).value;
    if |parts| <= 1 {
      assert R.UseIds(bs) == {c.id};
    } else {
      var inputs := seq(|parts|, k requires 0 <= k < |parts| => if k == 0 then bs[0].input else ObjectOr(parts[k]));
      SplitUses(c.id, E.Count(used, c.id), |parts|, c.name, inputs, bs);
    }
  }

  lemma {:induction false} CallUses(g: Config, cs: seq<Call>)
    requires AllCallBlocks(g, cs).Some?
    ensures var bs := AllCallBlocks(g, cs).value;
            R.UseIds(bs) == CallIds(g, cs) && !HasResult(bs) && (bs == [] <==> cs == []) && (cs != [] ==> Speaks(bs))
  {
    if cs != [] {
      var front, c := cs[..|cs| - 1], cs[|cs| - 1];
      CallUses(g, front);
      OneCallUses(g, UsedIds(g, front), c);
      var bs, more := AllCallBlocks(g, front).value, CallBlocks(g, UsedIds(g, front), c).value;
      R.UsesAppend(bs, more);
      assert more[0].ToolUse? && more[0] in bs + more;
    }
  }

  lemma {:induction false} AssistantPartsUse(ps: seq<Part>)
    ensures R.UseIds(AssistantBlocks(ps)) == UsePartIds(ps) && !HasResult(AssistantBlocks(ps))
  {
    if ps != [] {
      var front, p := ps[..|ps| - 1], ps[|ps| - 1];
      AssistantPartsUse(front);
      SplitLast(ps);
      R.UsesAppend(AssistantBlocks(front), AssistantBlock(p));
      OnePartUses(p);
      assert UsePartIds(front + [p]) == UsePartIds(front) + UsePartIds([p]);
    }
  }

  lemma OnePartUses(p: Part)
    ensures R.UseIds(AssistantBlock(p)) == UsePartIds([p]) && !HasResult(AssistantBlock(p))
    ensures Speaks(AssistantBlock(p)) <==> Telling(p)
  {
    var bs := AssistantBlock(p);
    assert UsePartIds([p]) == if p.ToolUsePart? then {p.id} else {};
    if bs != [] {
      assert bs == [bs[0]] && bs[0] in bs && (P.Meaningful(bs[0]) <==> Telling(p));
    }
  }

  /** A content part of an assistant that is more than thinking. */
  predicate Telling(p: Part) {
    (p.TextPart? && p.text != "") || p.ToolUsePart?
  }

  lemma {:induction false} AssistantPartsSpeak(ps: seq<Part>)
    ensures Speaks(AssistantBlocks(ps)) <==> exists p :: p in ps && Telling(p)
  {
    if ps != [] {
      var front, p := ps[..|ps| - 1], ps[|ps| - 1];
      AssistantPartsSpeak(front);
      SplitLast(ps);
      SpeaksAppend(AssistantBlocks(front), AssistantBlock(p));
      OnePartUses(p);
      assert forall q :: q in ps <==> q in front || q == p;
    }
  }

  lemma SpeaksAppend(a: seq<Block>, b: seq<Block>)
    ensures Speaks(a + b) <==> Speaks(a) || Speaks(b)
  {
    assert forall x :: x in a + b <==> x in a || x in b;
  }

  lemma {:induction false} UserPartsGive(ps: seq<Part>)
    ensures R.ResultIds(UserBlocks(ps)) == ResultPartIds(ps)
    ensures Speaks(UserBlocks(ps)) <==> exists p :: p in ps && UserBlock(p) != []
  {
    if ps != [] {
      var front, p := ps[..|ps| - 1], ps[|ps| - 1];
      var bs, more := UserBlocks(front), UserBlock(p);
      UserPartsGive(front);
      SplitLast(ps);
      R.UsesAppend(bs, more);
      SpeaksAppend(bs, more);
      assert forall q :: q in ps <==> q in front || q == p;
      assert R.ResultIds(more) == if p.ToolResultPart? then {p.id} else {};
      if more != [] {
        assert more == [more[0]] && P.Meaningful(more[0]);
      }
    }
  }

  lemma StrSpeaks(c: Content)
    ensures Speaks(StrBlock(c)) <==> c.Str? && c.text != ""
    ensures R.UseIds(StrBlock(c)) == {} && R.ResultIds(StrBlock(c)) == {} && !HasResult(StrBlock(c))
  {
    if c.Str? && c.text != "" {
      assert StrBlock(c)[0] in StrBlock(c);
    }
  }

  lemma AssistantFollows(g: Config, t: Tally, m: Message)
    requires m.role == Assistant && Blocks(g, m).Ok?
    ensures Follow(g, t, m) == Heed(t, AssistantSide, Blocks(g, m).value) && !HasResult(Blocks(g, m).value)
  {
    var str, parts, uses := StrBlock(m.content), AssistantBlocks(PartsOf(m)), AllCallBlocks(g, m.calls).value;
    StrSpeaks(m.content);
    AssistantPartsUse(PartsOf(m));
    AssistantPartsSpeak(PartsOf(m));
    CallUses(g, m.calls);
    R.UsesAppend(str, parts);
    R.UsesAppend(str + parts, uses);
    SpeaksAppend(str, parts);
    SpeaksAppend(str + parts, uses);
    assert R.UseIds(str + parts + uses) == UsePartIds(PartsOf(m)) + CallIds(g, m.calls);
    assert Talks(m) <==> Speaks(str + parts + uses);
  }

  lemma UserFollows(g: Config, t: Tally, m: Message)
    requires m.role == User
    ensures Follow(g, t, m) == Heed(t, UserSide, Blocks(g, m).value)
  {
    var str, parts := StrBlock(m.content), UserBlocks(PartsOf(m));
    StrSpeaks(m.content);
    UserPartsGive(PartsOf(m));
    R.UsesAppend(str, parts);
    SpeaksAppend(str, parts);
  }

  lemma ToolFollows(g: Config, t: Tally, m: Message)
    requires m.role == Tool
    ensures Follow(g, t, m) == Heed(t, UserSide, Blocks(g, m).value)
  {
    var bs := Blocks(g, m).value;
    assert bs[0] in bs && R.ResultIds(bs) == {m.callId};
  }

  lemma StepFollows(g: Config, b: Builder, m: Message)
    requires Step(g, b, m).Ok? && Tidy(b)
    ensures InBuilder(Step(g, b, m).value) == Follow(g, InBuilder(b), m) && Tidy(Step(g, b, m).value)
  {
    if m.role != System {
      var blocks := Blocks(g, m).value;
      if m.role == Assistant {
        AssistantFollows(g, InBuilder(b), m);
      } else if m.role == User {
        UserFollows(g, InBuilder(b), m);
      } else {
        ToolFollows(g, InBuilder(b), m);
      }
      AddHeeds(b, SideOf(m.role), blocks);
      AddTidy(b, SideOf(m.role), blocks);
    }
  }

  lemma {:induction false} WalkFollows(g: Config, b: Builder, ms: seq<Message>)
    requires Walk(g, b, ms).Ok? && Tidy(b)
    ensures InBuilder(Walk(g, b, ms).value) == FollowAll(g, InBuilder(b), ms) && Tidy(Walk(g, b, ms).value)
    decreases |ms|
  {
    if ms != [] {
      StepFollows(g, b, ms[0]);
      WalkFollows(g, Step(g, b, ms[0]).value, ms[1..]);
    }
  }

  /** The builder's list settles as the history does. */
  lemma BuildFollows(g: Config, ms: seq<Message>)
    requires Build(g, ms).Ok?
    ensures HeedFrom(Blank, Build(g, ms).value) == FollowAll(g, Blank, ms) && AllPure(Build(g, ms).value)
  {
    WalkFollows(g, Start, ms);
    FlushHeeds(Walk(g, Start, ms).value);
    FlushTidy(Walk(g, Start, ms).value);
    HeedBothWays(Build(g, ms).value);
  }

  /** For every history that translates: each assistant message with tool uses is followed at once by a
      user message that starts with results for all of them, if and only if, in the repaired history,
      the ids every run of assistant messages asks for are answered by the user and tool messages up to
      the next run. */
  lemma PairedExactly(g: Config, ms: seq<Message>)
    requires R.Translate(g, ms).Ok?
    ensures R.Paired(R.Translate(g, ms).value) <==> Answered(g, R.Prepared(ms))
  {
    var built := Build(g, R.Prepared(ms)).value;
    BuildFollows(g, R.Prepared(ms));
    PrepareSettles(built);
    PrepareFirst(built);
    TurnsAlternate(g, ms);
    PairedIsSettled(P.Prepare(built));
  }

  // ----- Plain histories are answered -----

  lemma {:induction false} PlainCallIds(g: Config, cs: seq<Call>)
    requires forall c :: c in cs ==> |g.split(c.args)| <= 1
    ensures CallIds(g, cs) == set c | c in cs :: c.id
  {
    if cs != [] {
      var front, c := cs[..|cs| - 1], cs[|cs| - 1];
      SplitLast(cs);
      assert c in cs;
      PlainCallIds(g, front);
      assert (set x | x in front + [c] :: x.id) == (set x | x in front :: x.id) + {c.id};
    }
  }

  /** What is asked for is answered already or about to be. */
  ghost predicate Covers(t: Tally, ms: seq<Message>) {
    t.ok && t.asked <= t.given + S.Scan(ms) && (!t.replied ==> t.given == {})
  }

  lemma PlainStep(g: Config, t: Tally, ms: seq<Message>)
    requires ms != [] && Covers(t, ms) && S.Covered(ms) && R.Plain(g, ms[0]) && R.Named(ms[0])
    ensures Covers(Follow(g, t, ms[0]), ms[1..])
  {
    var m := ms[0];
    if m.role == Assistant {
      PlainCallIds(g, m.calls);
      assert UsePartIds(PartsOf(m)) == {};
      assert CallIds(g, m.calls) == S.Wanted(m);
    } else if m.role == User {
      assert RespondedIds(m) <= ResultPartIds(PartsOf(m));
      if !Talks(m) {
        assert forall p :: p in PartsOf(m) ==> !p.ToolResultPart?;
        assert ResultPartIds(PartsOf(m)) == {};
      }
    } else if m.role == Tool {
      assert RespondedIds(m) <= {m.callId};
    }
  }

  lemma {:induction false} PlainAnswered(g: Config, t: Tally, ms: seq<Message>)
    requires Covers(t, ms) && S.Covered(ms) && R.AllPlain(g, ms) && R.AllNamed(ms)
    ensures Settles(FollowAll(g, t, ms))
    decreases |ms|
  {
    if ms != [] {
      PlainStep(g, t, ms);
      PlainAnswered(g, Follow(g, t, ms[0]), ms[1..]);
    }
  }

  /** Repairing a plain history leaves it plain, names every call and answers it. */
  lemma PlainPrepared(g: Config, ms: seq<Message>)
    requires R.AllPlain(g, ms)
    ensures var all := R.Prepared(ms); S.Covered(all) && R.AllPlain(g, all) && R.AllNamed(all)
  {
    var roles := R.NormalizeRoles(ms);
    assert R.AllPlain(g, roles) by {
      forall k | 0 <= k < |ms| ensures R.Plain(g, roles[k]) {
        assert R.Plain(g, ms[k]) && roles[k] == R.NormalizeRole(ms[k]);
      }
    }
    R.SanitizePlain(g, roles);
    var numbered := E.FixIds(S.SanitizeHistory(roles));
    R.FixIdsPlain(g, S.SanitizeHistory(roles));
    R.FixMissingPlain(g, numbered);
    S.FixMissingCovers(numbered);
  }

  /** In particular, for every history of plain messages that translates the result is paired. */
  lemma TranslationPairs(g: Config, ms: seq<Message>)
    requires R.AllPlain(g, ms) && R.Translate(g, ms).Ok?
    ensures R.Alternating(R.Translate(g, ms).value) && R.Paired(R.Translate(g, ms).value)
  {
    PlainPrepared(g, ms);
    PlainAnswered(g, Blank, R.Prepared(ms));
    PairedExactly(g, ms);
    TurnsAlternate(g, ms);
  }
}
