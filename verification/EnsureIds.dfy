/** Tool-call id repair (internal/translate/internal/prepost/ensure_ids.go): ids are made valid, made
    unique by numbering, and results are renumbered so that they still answer their calls. */
module EnsureIds {
  import opened Basics
  import opened ChatHistory

  predicate ValidChar(ch: char) {
    'a' <= ch <= 'z' || 'A' <= ch <= 'Z' || '0' <= ch <= '9' || ch == '_' || ch == '-'
  }

  /** The Anthropic pattern ^[a-zA-Z0-9_-]+$. */
  predicate ValidId(id: string) {
    id != "" && forall k :: 0 <= k < |id| ==> ValidChar(id[k])
  }

  /** Drops the characters the pattern does not allow. */
  function Filter(s: string): (r: string)
    ensures forall k :: 0 <= k < |r| ==> ValidChar(r[k])
    ensures (forall k :: 0 <= k < |s| ==> ValidChar(s[k])) ==> r == s
  {
    if s == "" then "" else
      var front, last := Filter(s[..|s| - 1]), s[|s| - 1];
      if ValidChar(last) then SplitLast(s); front + [last] else front
  }

  function Digit(d: nat): (c: char)
    requires d < 10
    ensures '0' <= c <= '9'
  {
    '0' + d as char
  }

  /** `%d` of a count. */
  function Decimal(n: nat): (r: string)
    ensures r != "" && forall k :: 0 <= k < |r| ==> '0' <= r[k] <= '9'
  {
    if n < 10 then [Digit(n)] else Decimal(n / 10) + [Digit(n % 10)]
  }

  lemma {:induction false} DecimalInjective(m: nat, n: nat)
    requires Decimal(m) == Decimal(n)
    ensures m == n
  {
    var a, b := Decimal(m), Decimal(n);
    assert a[|a| - 1] == b[|b| - 1];
    if m >= 10 && n >= 10 {
      assert a[..|a| - 1] == Decimal(m / 10) && b[..|b| - 1] == Decimal(n / 10);
      DecimalInjective(m / 10, n / 10);
    }
  }

  function GeneratedId(name: string, msg: nat, pos: nat): (id: string)
    ensures ValidId(id)
  {
    var safe := Filter(name);
    "call_msg" + Decimal(msg) + "_tc" + Decimal(pos) + if safe == "" then "" else "_" + safe
  }

  /** `ensureID`. */
  function EnsureId(id: string, name: string, msg: nat, pos: nat): (r: string)
    ensures ValidId(r)
    ensures ValidId(id) ==> r == id
  {
    if Filter(id) != "" then Filter(id) else GeneratedId(name, msg, pos)
  }

  /** The id of the occurrence number `k` of a sanitized id. */
  function Name(d: string, k: nat): (r: string)
    ensures ValidId(d) ==> ValidId(r)
  {
    if k == 0 then d else d + "_" + Decimal(k)
  }

  function Count(ds: seq<string>, d: string): nat {
    if ds == [] then 0 else Count(ds[..|ds| - 1], d) + if ds[|ds| - 1] == d then 1 else 0
  }

  lemma CountSnoc(ds: seq<string>, e: string, d: string)
    ensures Count(ds + [e], d) == Count(ds, d) + if e == d then 1 else 0
  {
    assert (ds + [e])[..|ds|] == ds;
  }

  // ----- Uniqueness of the final ids -----

  /** The final id of the call at position `i` in the order of all calls. */
  function FinalId(ds: seq<string>, i: nat): string
    requires i < |ds|
  {
    Name(ds[i], Count(ds[..i], ds[i]))
  }

  /** A sanitized id that reads like a numbered occurrence of another id that really occurs. */
  ghost predicate Clash(ds: seq<string>) {
    exists d, e, n: nat :: d in ds && 1 <= n < Count(ds, e) && Name(e, n) == d
  }

  function LastUnderscore(s: string): int {
    if s == "" then -1 else if s[|s| - 1] == '_' then |s| - 1 else LastUnderscore(s[..|s| - 1])
  }

  lemma {:induction false} UnderscoreAt(a: string, s: string)
    requires forall k :: 0 <= k < |s| ==> s[k] != '_'
    ensures LastUnderscore(a + "_" + s) == |a|
    decreases |s|
  {
    var x := a + "_" + s;
    if s != "" {
      UnderscoreAt(a, s[..|s| - 1]);
      assert x[..|x| - 1] == a + "_" + s[..|s| - 1];
    }
  }

  lemma SuffixUnique(a: string, s: string, b: string, t: string)
    requires a + "_" + s == b + "_" + t
    requires forall k :: 0 <= k < |s| ==> s[k] != '_'
    requires forall k :: 0 <= k < |t| ==> t[k] != '_'
    ensures a == b && s == t
  {
    var x := a + "_" + s;
    UnderscoreAt(a, s);
    UnderscoreAt(b, t);
    assert x[..|a|] == a && x[..|b|] == b && x[|a| + 1..] == s && x[|b| + 1..] == t;
  }

  lemma NameInjective(d: string, e: string, j: nat, k: nat)
    requires Name(d, j) == Name(e, k) && ((j == 0 <==> k == 0) || d == e)
    ensures d == e && j == k
  {
    if j > 0 && k > 0 {
      SuffixUnique(d, Decimal(j), e, Decimal(k));
      DecimalInjective(j, k);
    }
  }

  lemma {:induction false} CountBounds(ds: seq<string>, d: string, i: nat, j: nat)
    requires i <= j <= |ds|
    ensures Count(ds[..i], d) <= Count(ds[..j], d)
    ensures i < j && ds[i] == d ==> Count(ds[..i], d) < Count(ds[..j], d)
    decreases j
  {
    if i < j {
      assert ds[..j][..j - 1] == ds[..j - 1] && ds[..j][j - 1] == ds[j - 1];
      CountBounds(ds, d, i, j - 1);
    }
  }

  /** Every occurrence number below the count is taken by some position. */
  lemma {:induction false} Occurrence(ds: seq<string>, d: string, n: nat) returns (i: nat)
    requires n < Count(ds, d)
    ensures i < |ds| && ds[i] == d && Count(ds[..i], d) == n
    decreases |ds|
  {
    var last := |ds| - 1;
    if ds[last] == d && Count(ds[..last], d) == n {
      i := last;
    } else {
      i := Occurrence(ds[..last], d, n);
      assert ds[..last][..i] == ds[..i];
    }
  }

  /** The final call ids are pairwise distinct exactly when no sanitized id clashes with a numbered one. */
  lemma FinalIdsDistinct(ds: seq<string>)
    ensures (forall i, j :: 0 <= i < j < |ds| ==> FinalId(ds, i) != FinalId(ds, j)) <==> !Clash(ds)
  {
    assert ds[..|ds|] == ds;
    if Clash(ds) {
      var d, e, n: nat :| d in ds && 1 <= n < Count(ds, e) && Name(e, n) == d;
      var at :| 0 <= at < |ds| && ds[at] == d;
      CountBounds(ds, d, at, |ds|);
      var i := Occurrence(ds, d, 0);
      var j := Occurrence(ds, e, n);
      assert FinalId(ds, i) == d == FinalId(ds, j);
      assert |Name(e, n)| > |e|;
    } else {
      forall i, j | 0 <= i < j < |ds| ensures FinalId(ds, i) != FinalId(ds, j) {
        if FinalId(ds, i) == FinalId(ds, j) {
          SameFinalId(ds, i, j);
        }
      }
    }
  }

  lemma SameFinalId(ds: seq<string>, i: nat, j: nat)
    requires i < j < |ds| && FinalId(ds, i) == FinalId(ds, j)
    ensures Clash(ds)
  {
    var a, b := Count(ds[..i], ds[i]), Count(ds[..j], ds[j]);
    CountBounds(ds, ds[i], i, j);
    CountBounds(ds, ds[i], i, |ds|);
    CountBounds(ds, ds[j], j, |ds|);
    assert ds[..|ds|] == ds;
    if ds[i] == ds[j] || (a == 0 <==> b == 0) {
      NameInjective(ds[i], ds[j], a, b);
    } else if a == 0 {
      assert ds[i] in ds && Name(ds[j], b) == ds[i];
    } else {
      assert ds[j] in ds && Name(ds[i], a) == ds[j];
    }
  }

  // ----- Rewriting a history -----

  function NextId(ds: seq<string>, d: string): string {
    Name(d, Count(ds, d))
  }

  /** The ids given to a run of sanitized ids, in order. */
  function Numbered(ds: seq<string>): (ids: seq<string>)
    ensures |ids| == |ds|
  {
    if ds == [] then [] else Numbered(ds[..|ds| - 1]) + [NextId(ds[..|ds| - 1], ds[|ds| - 1])]
  }

  lemma NumberedSnoc(ds: seq<string>, d: string)
    ensures Numbered(ds + [d]) == Numbered(ds) + [NextId(ds, d)]
  {
    assert (ds + [d])[..|ds|] == ds;
  }

  lemma {:induction false} NumberedAt(ds: seq<string>, i: nat)
    requires i < |ds|
    ensures Numbered(ds)[i] == FinalId(ds, i)
  {
    if i < |ds| - 1 {
      NumberedAt(ds[..|ds| - 1], i);
      assert ds[..|ds| - 1][..i] == ds[..i];
    }
  }

  predicate AllValid(ids: seq<string>) {
    forall k :: 0 <= k < |ids| ==> ValidId(ids[k])
  }

  /** Sanitized ids of the calls of message `msg`, of its tool_use parts and of its tool_result parts. */
  function SanitizedCalls(cs: seq<Call>, msg: nat): (r: seq<string>)
    ensures AllValid(r)
  {
    if cs == [] then [] else
      var j := |cs| - 1;
      SanitizedCalls(cs[..j], msg) + [EnsureId(cs[j].id, cs[j].name, msg, j)]
  }

  function SanitizedUses(ps: seq<Part>, msg: nat): (r: seq<string>)
    ensures AllValid(r)
  {
    if ps == [] then [] else
      var k := |ps| - 1;
      SanitizedUses(ps[..k], msg) + if ps[k].ToolUsePart? then [EnsureId(ps[k].id, ps[k].name, msg, k)] else []
  }

  predicate Answers(p: Part) {
    p.ToolResultPart? && p.id != ""
  }

  function SanitizedResults(ps: seq<Part>, msg: nat): (r: seq<string>)
    ensures AllValid(r)
  {
    if ps == [] then [] else
      var k := |ps| - 1;
      SanitizedResults(ps[..k], msg) + if Answers(ps[k]) then [EnsureId(ps[k].id, "", msg, k)] else []
  }

  function SanitizedAnswer(m: Message, msg: nat): (r: seq<string>)
    ensures AllValid(r)
  {
    if m.role == Tool && m.callId != "" then [EnsureId(m.callId, "", msg, 0)] else []
  }

  function FixCalls(before: seq<string>, cs: seq<Call>, msg: nat): (r: seq<Call>)
    ensures |r| == |cs|
    decreases |cs|
  {
    if cs == [] then [] else
      var j := |cs| - 1;
      FixCalls(before, cs[..j], msg) +
      [cs[j].(id := NextId(before + SanitizedCalls(cs[..j], msg), EnsureId(cs[j].id, cs[j].name, msg, j)))]
  }

  function FixPart(calls: seq<string>, results: seq<string>, p: Part, msg: nat, k: nat): Part {
    if p.ToolUsePart? then ToolUsePart(NextId(calls, EnsureId(p.id, p.name, msg, k)), p.name, p.input)
    else if Answers(p) then ToolResultPart(NextId(results, EnsureId(p.id, "", msg, k)), p.text)
    else p
  }

  function FixParts(calls: seq<string>, results: seq<string>, ps: seq<Part>, msg: nat): (r: seq<Part>)
    ensures |r| == |ps|
    decreases |ps|
  {
    if ps == [] then [] else
      var k := |ps| - 1;
      FixParts(calls, results, ps[..k], msg) +
      [FixPart(calls + SanitizedUses(ps[..k], msg), results + SanitizedResults(ps[..k], msg), ps[k], msg, k)]
  }

  /** All sanitized call ids and result ids of a history, in the order they are numbered. */
  datatype Seen = Seen(calls: seq<string>, results: seq<string>)

  function SeenOne(s: Seen, m: Message, msg: nat): (r: Seen)
    ensures AllValid(s.calls) && AllValid(s.results) ==> AllValid(r.calls) && AllValid(r.results)
  {
    Seen(s.calls + SanitizedCalls(m.calls, msg) + SanitizedUses(PartsOf(m), msg),
         s.results + SanitizedAnswer(m, msg) + SanitizedResults(PartsOf(m), msg))
  }

  function SeenAll(ms: seq<Message>): (r: Seen)
    ensures AllValid(r.calls) && AllValid(r.results)
  {
    if ms == [] then Seen([], []) else SeenOne(SeenAll(ms[..|ms| - 1]), ms[|ms| - 1], |ms| - 1)
  }

  function FixMessage(s: Seen, m: Message, msg: nat): Message {
    var answer := SanitizedAnswer(m, msg);
    Message(m.role,
            if m.content.Parts? then
              Parts(FixParts(s.calls + SanitizedCalls(m.calls, msg), s.results + answer, m.content.parts, msg))
            else m.content,
            FixCalls(s.calls, m.calls, msg),
            if answer == [] then m.callId else NextId(s.results, answer[0]))
  }

  /** `EnsureToolCallIds` on a list of messages. */
  function FixIds(ms: seq<Message>): (r: seq<Message>)
    ensures |r| == |ms|
  {
    if ms == [] then [] else
      FixIds(ms[..|ms| - 1]) + [FixMessage(SeenAll(ms[..|ms| - 1]), ms[|ms| - 1], |ms| - 1)]
  }

  // ----- The ids of a history, read off its messages -----

  function IdsOfCalls(cs: seq<Call>): seq<string> {
    if cs == [] then [] else IdsOfCalls(cs[..|cs| - 1]) + [cs[|cs| - 1].id]
  }

  function IdsOfUses(ps: seq<Part>): seq<string> {
    if ps == [] then [] else
      IdsOfUses(ps[..|ps| - 1]) + if ps[|ps| - 1].ToolUsePart? then [ps[|ps| - 1].id] else []
  }

  function IdsOfResults(ps: seq<Part>): seq<string> {
    if ps == [] then [] else
      IdsOfResults(ps[..|ps| - 1]) + if Answers(ps[|ps| - 1]) then [ps[|ps| - 1].id] else []
  }

  function IdsOfAnswer(m: Message): seq<string> {
    if m.role == Tool && m.callId != "" then [m.callId] else []
  }

  function CallIds(ms: seq<Message>): seq<string> {
    if ms == [] then [] else
      var m := ms[|ms| - 1];
      CallIds(ms[..|ms| - 1]) + IdsOfCalls(m.calls) + IdsOfUses(PartsOf(m))
  }

  function AnsweredIds(ms: seq<Message>): seq<string> {
    if ms == [] then [] else
      var m := ms[|ms| - 1];
      AnsweredIds(ms[..|ms| - 1]) + IdsOfAnswer(m) + IdsOfResults(PartsOf(m))
  }

  lemma {:induction false} CallsNumbered(before: seq<string>, cs: seq<Call>, msg: nat)
    ensures Numbered(before) + IdsOfCalls(FixCalls(before, cs, msg)) == Numbered(before + SanitizedCalls(cs, msg))
    decreases |cs|
  {
    if cs == [] {
      assert before + [] == before;
    } else {
      var j := |cs| - 1;
      var d, front := EnsureId(cs[j].id, cs[j].name, msg, j), SanitizedCalls(cs[..j], msg);
      CallsNumbered(before, cs[..j], msg);
      NumberedSnoc(before + front, d);
      SeqAssoc(before, front, [d]);
      SeqAssoc(Numbered(before), IdsOfCalls(FixCalls(before, cs[..j], msg)), [NextId(before + front, d)]);
    }
  }

  lemma {:induction false} UsesNumbered(calls: seq<string>, results: seq<string>, ps: seq<Part>, msg: nat)
    ensures Numbered(calls) + IdsOfUses(FixParts(calls, results, ps, msg)) == Numbered(calls + SanitizedUses(ps, msg))
    decreases |ps|
  {
    if ps == [] {
      assert calls + [] == calls;
    } else {
      var k := |ps| - 1;
      var front, fixed := SanitizedUses(ps[..k], msg), FixParts(calls, results, ps[..k], msg);
      UsesNumbered(calls, results, ps[..k], msg);
      assert FixParts(calls, results, ps, msg)[..k] == fixed;
      if ps[k].ToolUsePart? {
        var d := EnsureId(ps[k].id, ps[k].name, msg, k);
        NumberedSnoc(calls + front, d);
        SeqAssoc(calls, front, [d]);
        SeqAssoc(Numbered(calls), IdsOfUses(fixed), [NextId(calls + front, d)]);
      } else {
        assert front + [] == front && IdsOfUses(fixed) + [] == IdsOfUses(fixed);
      }
    }
  }

  lemma {:induction false} ResultsNumbered(calls: seq<string>, results: seq<string>, ps: seq<Part>, msg: nat)
    ensures Numbered(results) + IdsOfResults(FixParts(calls, results, ps, msg)) ==
            Numbered(results + SanitizedResults(ps, msg))
    decreases |ps|
  {
    if ps == [] {
      assert results + [] == results;
    } else {
      var k := |ps| - 1;
      var front, fixed := SanitizedResults(ps[..k], msg), FixParts(calls, results, ps[..k], msg);
      ResultsNumbered(calls, results, ps[..k], msg);
      assert FixParts(calls, results, ps, msg)[..k] == fixed;
      if Answers(ps[k]) {
        var d := EnsureId(ps[k].id, "", msg, k);
        NumberedSnoc(results + front, d);
        SeqAssoc(results, front, [d]);
        SeqAssoc(Numbered(results), IdsOfResults(fixed), [NextId(results + front, d)]);
      } else {
        assert front + [] == front && IdsOfResults(fixed) + [] == IdsOfResults(fixed);
      }
    }
  }

  /** Every call, in order, carries the next number of its sanitized id, and every result the next
      number of its own. */
  lemma {:induction false} HistoryNumbered(ms: seq<Message>)
    ensures CallIds(FixIds(ms)) == Numbered(SeenAll(ms).calls)
    ensures AnsweredIds(FixIds(ms)) == Numbered(SeenAll(ms).results)
  {
    if ms != [] {
      var n := |ms| - 1;
      var m, s := ms[n], SeenAll(ms[..n]);
      HistoryNumbered(ms[..n]);
      MessageCallsNumbered(s, m, n);
      MessageResultsNumbered(s, m, n);
    }
  }

  lemma MessageCallsNumbered(s: Seen, m: Message, msg: nat)
    ensures var f := FixMessage(s, m, msg);
            Numbered(s.calls) + IdsOfCalls(f.calls) + IdsOfUses(PartsOf(f)) == Numbered(SeenOne(s, m, msg).calls)
  {
    var calls, results := s.calls + SanitizedCalls(m.calls, msg), s.results + SanitizedAnswer(m, msg);
    CallsNumbered(s.calls, m.calls, msg);
    UsesNumbered(calls, results, PartsOf(m), msg);
    assert PartsOf(FixMessage(s, m, msg)) == FixParts(calls, results, PartsOf(m), msg);
  }

  lemma MessageResultsNumbered(s: Seen, m: Message, msg: nat)
    ensures var f := FixMessage(s, m, msg);
            Numbered(s.results) + IdsOfAnswer(f) + IdsOfResults(PartsOf(f)) == Numbered(SeenOne(s, m, msg).results)
  {
    var answer := SanitizedAnswer(m, msg);
    var calls, results := s.calls + SanitizedCalls(m.calls, msg), s.results + answer;
    if answer == [] {
      assert s.results + [] == s.results && Numbered(s.results) + [] == Numbered(s.results);
    } else {
      NumberedSnoc(s.results, answer[0]);
    }
    ResultsNumbered(calls, results, PartsOf(m), msg);
    assert PartsOf(FixMessage(s, m, msg)) == FixParts(calls, results, PartsOf(m), msg);
  }

  /** The k-th result for a sanitized id gets exactly the final id of the k-th call with that
      sanitized id, wherever the two stand. */
  lemma ResultsFollowCalls(ms: seq<Message>, c: nat, r: nat)
    requires c < |SeenAll(ms).calls| && r < |SeenAll(ms).results|
    requires var s := SeenAll(ms);
             s.calls[c] == s.results[r] && Count(s.calls[..c], s.calls[c]) == Count(s.results[..r], s.results[r])
    ensures c < |CallIds(FixIds(ms))| && r < |AnsweredIds(FixIds(ms))|
    ensures CallIds(FixIds(ms))[c] == AnsweredIds(FixIds(ms))[r]
  {
    HistoryNumbered(ms);
    NumberedAt(SeenAll(ms).calls, c);
    NumberedAt(SeenAll(ms).results, r);
  }

  /** After the repair all call ids are distinct exactly when no sanitized id clashes. */
  lemma CallIdsDistinct(ms: seq<Message>)
    ensures var ids := CallIds(FixIds(ms));
            (forall i, j :: 0 <= i < j < |ids| ==> ids[i] != ids[j]) <==> !Clash(SeenAll(ms).calls)
  {
    var ds := SeenAll(ms).calls;
    HistoryNumbered(ms);
    FinalIdsDistinct(ds);
    forall i | 0 <= i < |ds| ensures Numbered(ds)[i] == FinalId(ds, i) {
      NumberedAt(ds, i);
    }
  }

  lemma {:induction false} NumberedValid(ds: seq<string>)
    requires AllValid(ds)
    ensures AllValid(Numbered(ds))
  {
    if ds != [] {
      NumberedValid(ds[..|ds| - 1]);
    }
  }

  /** Every id of a repaired history matches the pattern, except empty ids of results, left as they are. */
  lemma RepairedIdsValid(ms: seq<Message>)
    ensures AllValid(CallIds(FixIds(ms))) && AllValid(AnsweredIds(FixIds(ms)))
  {
    HistoryNumbered(ms);
    NumberedValid(SeenAll(ms).calls);
    NumberedValid(SeenAll(ms).results);
  }

  // ----- The repair as it is carried out, with counting maps -----

  function Names(d: string, n: nat): seq<string> {
    seq(n, k requires 0 <= k < n => Name(d, k))
  }

  function At<T>(m: map<string, T>, d: string, absent: T): T {
    if d in m then m[d] else absent
  }

  lemma NamesSnoc(d: string, n: nat)
    ensures Names(d, n + 1) == Names(d, n) + [Name(d, n)]
  {
  }

  lemma CountsSnoc(ds: seq<string>, e: string)
    ensures forall d :: Count(ds + [e], d) == Count(ds, d) + if e == d then 1 else 0
  {
    forall d ensures Count(ds + [e], d) == Count(ds, d) + if e == d then 1 else 0 {
      CountSnoc(ds, e, d);
    }
  }

  /** The maps hold, for every id, how often it was seen and the names it was given. */
  ghost predicate Noted(callCount: map<string, nat>, callMap: map<string, seq<string>>, calls: seq<string>) {
    && (forall d :: At(callCount, d, 0) == Count(calls, d))
    && (forall d :: At(callMap, d, []) == Names(d, Count(calls, d)))
  }

  lemma CallNoted(callCount: map<string, nat>, callMap: map<string, seq<string>>, calls: seq<string>, d: string)
    requires Noted(callCount, callMap, calls)
    ensures var n := At(callCount, d, 0);
            && Noted(callCount[d := n + 1], callMap[d := At(callMap, d, []) + [Name(d, n)]], calls + [d])
            && n == Count(calls, d)
  {
    CountsSnoc(calls, d);
    NamesSnoc(d, Count(calls, d));
  }

  class IdRepair {
    var callCount: map<string, nat>
    var callMap: map<string, seq<string>>
    var resultCount: map<string, nat>
    ghost var seen: Seen

    ghost predicate Valid()
      reads this
    {
      && Noted(callCount, callMap, seen.calls)
      && (forall d :: At(resultCount, d, 0) == Count(seen.results, d))
    }

    constructor ()
      ensures Valid() && seen == Seen([], [])
    {
      callCount, callMap, resultCount, seen := map[], map[], map[], Seen([], []);
    }

    method NameCall(d: string) returns (id: string)
      requires Valid()
      modifies this`callCount, this`callMap, this`seen
      ensures Valid() && id == NextId(old(seen).calls, d) && seen == Seen(old(seen).calls + [d], old(seen).results)
    {
      var count := At(callCount, d, 0);
      callCount := callCount[d := count + 1];
      id := if count == 0 then d else d + "_" + Decimal(count);
      callMap := callMap[d := At(callMap, d, []) + [id]];
      CallNoted(old(callCount), old(callMap), seen.calls, d);
      seen := seen.(calls := seen.calls + [d]);
    }

    /** A result takes the id of the call with its number, or that number if the call is not there. */
    method NameResult(d: string) returns (id: string)
      requires Valid()
      modifies this`resultCount, this`seen
      ensures Valid() && id == NextId(old(seen).results, d) && seen == Seen(old(seen).calls, old(seen).results + [d])
    {
      var count, mapped := At(resultCount, d, 0), At(callMap, d, []);
      resultCount := resultCount[d := count + 1];
      if count < |mapped| {
        id := mapped[count];
      } else {
        id := if count == 0 then d else d + "_" + Decimal(count);
      }
      CountsSnoc(seen.results, d);
      seen := seen.(results := seen.results + [d]);
    }

    method RewriteCalls(cs: seq<Call>, msg: nat) returns (r: seq<Call>)
      requires Valid()
      modifies this`callCount, this`callMap, this`seen
      ensures Valid() && r == FixCalls(old(seen).calls, cs, msg)
      ensures seen == Seen(old(seen).calls + SanitizedCalls(cs, msg), old(seen).results)
    {
      r := [];
      assert seen.calls + [] == seen.calls;
      for j := 0 to |cs|
        invariant Valid() && r == FixCalls(old(seen).calls, cs[..j], msg)
        invariant seen == Seen(old(seen).calls + SanitizedCalls(cs[..j], msg), old(seen).results)
      {
        assert cs[..j + 1][..j] == cs[..j];
        var d := EnsureId(cs[j].id, cs[j].name, msg, j);
        var id := NameCall(d);
        SeqAssoc(old(seen).calls, SanitizedCalls(cs[..j], msg), [d]);
        r := r + [cs[j].(id := id)];
      }
      assert cs[..|cs|] == cs;
    }

    method RewritePart(p: Part, msg: nat, k: nat) returns (q: Part)
      requires Valid()
      modifies this
      ensures Valid() && q == FixPart(old(seen).calls, old(seen).results, p, msg, k)
      ensures seen.calls == old(seen).calls + if p.ToolUsePart? then [EnsureId(p.id, p.name, msg, k)] else []
      ensures seen.results == old(seen).results + if Answers(p) then [EnsureId(p.id, "", msg, k)] else []
    {
      q := p;
      if p.ToolUsePart? {
        var id := NameCall(EnsureId(p.id, p.name, msg, k));
        q := ToolUsePart(id, p.name, p.input);
      } else if p.ToolResultPart? && p.id != "" {
        var id := NameResult(EnsureId(p.id, "", msg, k));
        q := ToolResultPart(id, p.text);
      }
    }

    method RewriteParts(ps: seq<Part>, msg: nat) returns (r: seq<Part>)
      requires Valid()
      modifies this
      ensures Valid() && r == FixParts(old(seen).calls, old(seen).results, ps, msg)
      ensures seen == Seen(old(seen).calls + SanitizedUses(ps, msg), old(seen).results + SanitizedResults(ps, msg))
    {
      r := [];
      assert seen.calls + [] == seen.calls && seen.results + [] == seen.results;
      for k := 0 to |ps|
        invariant Valid() && r == FixParts(old(seen).calls, old(seen).results, ps[..k], msg)
        invariant seen ==
                  Seen(old(seen).calls + SanitizedUses(ps[..k], msg),
                       old(seen).results + SanitizedResults(ps[..k], msg))
      {
        assert ps[..k + 1][..k] == ps[..k];
        var p := ps[k];
        var q := RewritePart(p, msg, k);
        SeqAssoc(old(seen).calls, SanitizedUses(ps[..k], msg),
                 if p.ToolUsePart? then [EnsureId(p.id, p.name, msg, k)] else []);
        SeqAssoc(old(seen).results, SanitizedResults(ps[..k], msg),
                 if Answers(p) then [EnsureId(p.id, "", msg, k)] else []);
        r := r + [q];
      }
      assert ps[..|ps|] == ps;
    }

    method RewriteMessage(m: Message, msg: nat) returns (r: Message)
      requires Valid()
      modifies this
      ensures Valid() && r == FixMessage(old(seen), m, msg) && seen == SeenOne(old(seen), m, msg)
    {
      var calls := RewriteCalls(m.calls, msg);
      var callId := m.callId;
      if m.role == Tool && m.callId != "" {
        callId := NameResult(EnsureId(m.callId, "", msg, 0));
      } else {
        assert seen.results + [] == seen.results;
      }
      var content := m.content;
      if m.content.Parts? {
        var parts := RewriteParts(m.content.parts, msg);
        content := Parts(parts);
      } else {
        assert seen.calls + [] == seen.calls && seen.results + [] == seen.results;
      }
      r := Message(m.role, content, calls, callId);
    }
  }

  method EnsureToolCallIds(ms: seq<Message>) returns (r: seq<Message>)
    ensures r == FixIds(ms)
  {
    var repair := new IdRepair();
    r := [];
    for i := 0 to |ms|
      invariant repair.Valid() && repair.seen == SeenAll(ms[..i]) && r == FixIds(ms[..i])
    {
      assert ms[..i + 1][..i] == ms[..i];
      var m := repair.RewriteMessage(ms[i], i);
      r := r + [m];
    }
    assert ms[..|ms|] == ms;
  }
}
