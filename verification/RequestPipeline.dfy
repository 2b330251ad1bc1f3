/** The whole OpenAI to Claude history translation (`Request` in internal/translate/request.go): its
    stages together establish the target protocol's turn and tool-pairing rules. */
module RequestPipeline {
  import opened Basics
  import opened ChatHistory
  import opened ClaudeHistory
  import S = RequestStages
  import E = EnsureIds
  import P = PrepareClaude

  function NormalizeRole(m: Message): Message {
    if m.role == Unknown("developer") then m.(role := System) else m
  }

  function NormalizeRoles(ms: seq<Message>): (r: seq<Message>)
    ensures |r| == |ms| && forall k :: 0 <= k < |ms| ==> r[k] == NormalizeRole(ms[k])
  {
    seq(|ms|, k requires 0 <= k < |ms| => NormalizeRole(ms[k]))
  }

  /** The messages as they reach the Claude builder. */
  function Prepared(ms: seq<Message>): seq<Message> {
    S.FixMissing(E.FixIds(S.SanitizeHistory(NormalizeRoles(ms))))
  }

  function Translate(g: Config, ms: seq<Message>): Result<seq<Claude>, Error> {
    match Build(g, Prepared(ms))
    case Err(e) => Err(e)
    case Ok(out) => Ok(P.Prepare(out))
  }

  // ----- The target protocol -----

  function UseIds(bs: seq<Block>): set<string> {
    set b | b in bs && b.ToolUse? :: b.id
  }

  function ResultIds(bs: seq<Block>): set<string> {
    set b | b in bs && b.ToolResult? :: b.id
  }

  /** The ids answered by the tool results a content starts with. */
  function Lead(bs: seq<Block>): set<string> {
    if bs == [] || !bs[0].ToolResult? then {} else {bs[0].id} + Lead(bs[1..])
  }

  predicate Calls(m: Claude) {
    m.role == AssistantSide && HasUse(m.content)
  }

  predicate Answers(a: Claude, b: Claude) {
    b.role == UserSide && UseIds(a.content) <= Lead(b.content)
  }

  /** Turns alternate. */
  predicate Alternating(ms: seq<Claude>) {
    forall k :: 0 < k < |ms| ==> ms[k - 1].role != ms[k].role
  }

  /** Every assistant message with tool uses is followed at once by a user message that starts with
      tool results for all of them. */
  predicate Paired(ms: seq<Claude>) {
    forall k :: 0 <= k < |ms| && Calls(ms[k]) ==> k + 1 < |ms| && Answers(ms[k], ms[k + 1])
  }

  // ----- Lead, results and merging -----

  lemma {:induction false} LeadOfResults(bs: seq<Block>, more: seq<Block>)
    requires AllResults(bs)
    ensures Lead(bs + more) == ResultIds(bs) + Lead(more)
  {
    if bs == [] {
      assert bs + more == more;
    } else {
      assert bs[0] in bs && bs == [bs[0]] + bs[1..];
      LeadOfResults(bs[1..], more);
      assert (bs + more)[1..] == bs[1..] + more;
    }
  }

  lemma {:induction false} ResultsKeepIds(bs: seq<Block>)
    ensures ResultIds(Results(bs)) == ResultIds(bs) && UseIds(Results(bs)) == {} && !HasUse(Results(bs))
  {
    if bs != [] {
      var front, last := bs[..|bs| - 1], bs[|bs| - 1];
      ResultsKeepIds(front);
      SplitLast(bs);
      UsesAppend(front, [last]);
      UsesAppend(Results(front), [last]);
      assert last.ToolResult? || Results(bs) == Results(front);
    }
  }

  lemma {:induction false} OthersKeepUses(bs: seq<Block>)
    ensures UseIds(Others(bs)) == UseIds(bs) && HasUse(Others(bs)) == HasUse(bs)
  {
    if bs != [] {
      var front, last := bs[..|bs| - 1], bs[|bs| - 1];
      OthersKeepUses(front);
      SplitLast(bs);
      UsesAppend(front, [last]);
      UsesAppend(Others(front), [last]);
      assert last.ToolResult? ==> Others(bs) == Others(front);
    }
  }

  lemma {:induction false} LeadAreResults(bs: seq<Block>)
    ensures Lead(bs) <= ResultIds(bs)
  {
    if bs != [] {
      assert bs == [bs[0]] + bs[1..];
      LeadAreResults(bs[1..]);
    }
  }

  /** Merging keeps every answered id in front and every tool use. */
  lemma JoinedLead(a: Claude, b: Claude)
    ensures ResultIds(a.content) + ResultIds(b.content) <= Lead(P.Joined(a, b).content)
    ensures UseIds(P.Joined(a, b).content) == UseIds(a.content) + UseIds(b.content)
    ensures HasUse(P.Joined(a, b).content) == (HasUse(a.content) || HasUse(b.content))
  {
    var first, rest := Results(a.content) + Results(b.content), Others(a.content) + Others(b.content);
    ResultsKeepIds(a.content);
    ResultsKeepIds(b.content);
    OthersKeepUses(a.content);
    OthersKeepUses(b.content);
    LeadOfResults(first, rest);
    UsesAppend(Results(a.content), Results(b.content));
    UsesAppend(Others(a.content), Others(b.content));
    UsesAppend(first, rest);
  }

  lemma UsesAppend(a: seq<Block>, b: seq<Block>)
    ensures UseIds(a + b) == UseIds(a) + UseIds(b) && ResultIds(a + b) == ResultIds(a) + ResultIds(b)
    ensures HasUse(a + b) == (HasUse(a) || HasUse(b))
  {
    assert forall x :: x in a + b <==> x in a || x in b;
  }

  // ----- Stripping and ordering keep the ids -----

  lemma {:induction false} StripKeeps(bs: seq<Block>)
    ensures UseIds(P.StripBlocks(bs)) == UseIds(bs) && HasUse(P.StripBlocks(bs)) == HasUse(bs)
  {
    if bs != [] {
      var front, last := bs[..|bs| - 1], bs[|bs| - 1];
      StripKeeps(front);
      SplitLast(bs);
      UsesAppend(front, [last]);
      UsesAppend(P.StripBlocks(front), [last]);
      assert P.Rejectable(last) ==> P.StripBlocks(bs) == P.StripBlocks(front);
    }
  }

  lemma {:induction false} ReorderKeeps(bs: seq<Block>)
    ensures UseIds(P.Reorder(bs)) == UseIds(bs) && HasUse(P.Reorder(bs)) == HasUse(bs)
  {
    if bs != [] {
      var front, last := bs[..|bs| - 1], bs[|bs| - 1];
      ReorderKeeps(front);
      SplitLast(bs);
      UsesAppend(front, [last]);
      UsesAppend(P.Reorder(front), [last]);
      assert P.Reorder(bs) == P.Reorder(front) + [last] || P.Reorder(bs) == P.Reorder(front);
    }
  }

  lemma {:induction false} StripAllResults(bs: seq<Block>)
    requires AllResults(bs)
    ensures P.StripBlocks(bs) == bs
  {
    if bs != [] {
      var front, last := bs[..|bs| - 1], bs[|bs| - 1];
      SplitLast(bs);
      assert last in bs && last.ToolResult?;
      StripAllResults(front);
      assert P.StripBlocks(bs) == P.StripBlocks(front) + [last];
    }
  }

  lemma UseHasId(bs: seq<Block>)
    ensures HasUse(bs) <==> UseIds(bs) != {}
  {
    if b :| b in bs && b.ToolUse? {
      assert b.id in UseIds(bs);
    }
  }

  // ----- Plain messages -----

  /** An OpenAI-shaped message: calls sit in `calls` with one argument object each, and a tool
      message's content holds no results of its own. */
  ghost predicate Plain(g: Config, m: Message) {
    && (m.role == Assistant ==> forall p :: p in PartsOf(m) ==> !p.ToolUsePart?)
    && (m.role == Tool ==> forall p :: p in PartsOf(m) ==> !p.ToolResultPart?)
    && (forall c :: c in m.calls ==> |g.split(c.args)| <= 1)
  }

  predicate Named(m: Message) {
    forall c :: c in m.calls ==> c.id != ""
  }

  ghost predicate AllPlain(g: Config, ms: seq<Message>) {
    forall k :: 0 <= k < |ms| ==> Plain(g, ms[k])
  }

  predicate AllNamed(ms: seq<Message>) {
    forall k :: 0 <= k < |ms| ==> Named(ms[k])
  }

  // ----- The stages before the builder keep messages plain -----

  lemma {:induction false} FixCallsPlain(before: seq<string>, cs: seq<Call>, msg: nat, k: nat)
    requires k < |cs|
    ensures var c := E.FixCalls(before, cs, msg)[k]; c.args == cs[k].args && c.id != ""
    decreases |cs|
  {
    var j := |cs| - 1;
    if k < j {
      FixCallsPlain(before, cs[..j], msg, k);
      assert E.FixCalls(before, cs, msg)[k] == E.FixCalls(before, cs[..j], msg)[k];
    } else {
      var d := E.EnsureId(cs[j].id, cs[j].name, msg, j);
      assert E.FixCalls(before, cs, msg)[k] == cs[j].(id := E.NextId(before + E.SanitizedCalls(cs[..j], msg), d));
    }
  }

  lemma {:induction false} FixPartsPlain(calls: seq<string>, results: seq<string>, ps: seq<Part>, msg: nat, k: nat)
    requires k < |ps|
    ensures var q := E.FixParts(calls, results, ps, msg)[k];
            q.ToolUsePart? == ps[k].ToolUsePart? && q.ToolResultPart? == ps[k].ToolResultPart?
    decreases |ps|
  {
    var j := |ps| - 1;
    if k < j {
      FixPartsPlain(calls, results, ps[..j], msg, k);
      assert E.FixParts(calls, results, ps, msg)[k] == E.FixParts(calls, results, ps[..j], msg)[k];
    } else {
      var c, r := calls + E.SanitizedUses(ps[..j], msg), results + E.SanitizedResults(ps[..j], msg);
      assert E.FixParts(calls, results, ps, msg)[k] == E.FixPart(c, r, ps[j], msg, j);
    }
  }

  lemma FixedCallsPlain(g: Config, before: seq<string>, cs: seq<Call>, msg: nat)
    requires forall c :: c in cs ==> |g.split(c.args)| <= 1
    ensures forall c :: c in E.FixCalls(before, cs, msg) ==> |g.split(c.args)| <= 1 && c.id != ""
  {
    var fixed := E.FixCalls(before, cs, msg);
    forall c | c in fixed ensures |g.split(c.args)| <= 1 && c.id != "" {
      var k :| 0 <= k < |fixed| && fixed[k] == c;
      FixCallsPlain(before, cs, msg, k);
      assert cs[k] in cs;
    }
  }

  lemma FixedPartsPlain(calls: seq<string>, results: seq<string>, ps: seq<Part>, msg: nat)
    ensures var fixed := E.FixParts(calls, results, ps, msg);
            && ((forall p :: p in ps ==> !p.ToolUsePart?) ==> forall p :: p in fixed ==> !p.ToolUsePart?)
            && ((forall p :: p in ps ==> !p.ToolResultPart?) ==> forall p :: p in fixed ==> !p.ToolResultPart?)
  {
    var fixed := E.FixParts(calls, results, ps, msg);
    forall p | p in fixed
      ensures exists q :: q in ps && p.ToolUsePart? == q.ToolUsePart? && p.ToolResultPart? == q.ToolResultPart?
    {
      var k :| 0 <= k < |fixed| && fixed[k] == p;
      FixPartsPlain(calls, results, ps, msg, k);
      assert ps[k] in ps;
    }
  }

  lemma FixMessagePlain(g: Config, s: E.Seen, m: Message, msg: nat)
    requires Plain(g, m)
    ensures Plain(g, E.FixMessage(s, m, msg)) && Named(E.FixMessage(s, m, msg))
  {
    var calls, results := s.calls + E.SanitizedCalls(m.calls, msg), s.results + E.SanitizedAnswer(m, msg);
    FixedCallsPlain(g, s.calls, m.calls, msg);
    FixedPartsPlain(calls, results, PartsOf(m), msg);
    assert PartsOf(E.FixMessage(s, m, msg)) == E.FixParts(calls, results, PartsOf(m), msg);
  }

  lemma {:induction false} FixIdsPlain(g: Config, ms: seq<Message>)
    requires AllPlain(g, ms)
    ensures AllPlain(g, E.FixIds(ms)) && AllNamed(E.FixIds(ms))
  {
    if ms != [] {
      var n := |ms| - 1;
      FixIdsPlain(g, ms[..n]);
      FixMessagePlain(g, E.SeenAll(ms[..n]), ms[n], n);
      PlainSnoc(g, E.FixIds(ms[..n]), E.FixMessage(E.SeenAll(ms[..n]), ms[n], n));
    }
  }

  lemma PlainSnoc(g: Config, ms: seq<Message>, m: Message)
    requires AllPlain(g, ms) && AllNamed(ms) && Plain(g, m) && Named(m)
    ensures AllPlain(g, ms + [m]) && AllNamed(ms + [m])
  {
  }

  lemma {:induction false} SynthesizePlain(g: Config, cs: seq<Call>, answered: set<string>)
    ensures AllPlain(g, S.Synthesize(cs, answered)) && AllNamed(S.Synthesize(cs, answered))
  {
    if cs != [] {
      SynthesizePlain(g, cs[..|cs| - 1], answered);
    }
  }

  lemma {:induction false} FixMissingPlain(g: Config, ms: seq<Message>)
    requires AllPlain(g, ms) && AllNamed(ms)
    ensures AllPlain(g, S.FixMissing(ms)) && AllNamed(S.FixMissing(ms))
  {
    if ms != [] {
      FixMissingPlain(g, ms[1..]);
      SynthesizePlain(g, ms[0].calls, S.Scan(ms[1..]));
      var fill, rest := S.Fill(ms[0], ms[1..]), S.FixMissing(ms[1..]);
      assert AllPlain(g, [ms[0]] + fill) && AllNamed([ms[0]] + fill);
      assert S.FixMissing(ms) == [ms[0]] + fill + rest;
    }
  }

  lemma {:induction false} DropToolsPlain(g: Config, ms: seq<Message>)
    requires AllPlain(g, ms)
    ensures AllPlain(g, S.DropLeadingTools(ms))
  {
    if ms != [] && ms[0].role == Tool {
      DropToolsPlain(g, ms[1..]);
    }
  }

  lemma {:induction false} DropResultsPlain(g: Config, ms: seq<Message>)
    requires AllPlain(g, ms)
    ensures AllPlain(g, S.DropLeadingResults(ms))
  {
    if ms != [] && ms[0].role == User && S.OnlyToolResults(ms[0]) {
      DropResultsPlain(g, ms[1..]);
    }
  }

  lemma {:induction false} StripTrailingPlain(g: Config, ms: seq<Message>, n: nat)
    requires n <= |ms| && AllPlain(g, ms)
    ensures AllPlain(g, S.StripTrailing(ms, n))
  {
    if n > 0 {
      StripTrailingPlain(g, ms, n - 1);
      assert Plain(g, ms[n - 1]);
    }
  }

  lemma SanitizePlain(g: Config, ms: seq<Message>)
    requires AllPlain(g, ms)
    ensures AllPlain(g, S.SanitizeHistory(ms))
  {
    DropToolsPlain(g, ms);
    DropResultsPlain(g, S.DropLeadingTools(ms));
    var kept := S.DropLeadingResults(S.DropLeadingTools(ms));
    StripTrailingPlain(g, kept, |kept|);
  }
}
