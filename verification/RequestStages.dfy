/** Request stages on an OpenAI-shaped history: orphan stripping
    (internal/translate/internal/prepost/sanitize_history.go) and synthetic tool responses
    (internal/translate/internal/prepost/fix_missing.go). */
module RequestStages {
  import opened Basics
  import opened ChatHistory

  const TRUNCATED := "[Previous tool invocations were truncated from context]"
  const SYNTHETIC := "[Tool result not available \U{2014} execution context was lost]"

  // ----- SanitizeToolHistory -----

  predicate OnlyToolResults(m: Message) {
    PartsOf(m) != [] && forall p :: p in PartsOf(m) ==> p.ToolResultPart?
  }

  function DropLeadingTools(ms: seq<Message>): seq<Message> {
    if ms != [] && ms[0].role == Tool then DropLeadingTools(ms[1..]) else ms
  }

  function DropLeadingResults(ms: seq<Message>): seq<Message> {
    if ms != [] && ms[0].role == User && OnlyToolResults(ms[0]) then DropLeadingResults(ms[1..]) else ms
  }

  function RespondedByAll(ms: seq<Message>): set<string> {
    set m, id | m in ms && id in RespondedIds(m) :: id
  }

  /** The calls of the last assistant go when nothing after it responds to anything. */
  function StripTrailing(ms: seq<Message>, n: nat): seq<Message>
    requires n <= |ms|
  {
    if n == 0 then ms
    else
      var m := ms[n - 1];
      if m.role != Assistant then StripTrailing(ms, n - 1)
      else if m.calls == [] || RespondedByAll(ms[n..]) != {} then ms
      else
        var bare := m.(calls := []);
        ms[n - 1 := if HasValidContent(bare) then bare else bare.(content := Str(TRUNCATED))]
  }

  function SanitizeHistory(ms: seq<Message>): seq<Message> {
    var kept := DropLeadingResults(DropLeadingTools(ms));
    StripTrailing(kept, |kept|)
  }

  method DropOrphans(ms: seq<Message>) returns (start: nat)
    ensures start <= |ms| && ms[start..] == DropLeadingResults(DropLeadingTools(ms))
  {
    start := 0;
    while start < |ms| && ms[start].role == Tool
      invariant 0 <= start <= |ms| && DropLeadingTools(ms) == DropLeadingTools(ms[start..])
    {
      assert ms[start..][1..] == ms[start + 1..];
      start := start + 1;
    }
    ghost var rest := ms[start..];
    while start < |ms| && ms[start].role == User && OnlyToolResults(ms[start])
      invariant start <= |ms| && DropLeadingResults(rest) == DropLeadingResults(ms[start..])
    {
      assert ms[start..][1..] == ms[start + 1..];
      start := start + 1;
    }
  }

  method StripTrailingCalls(ms: seq<Message>) returns (r: seq<Message>)
    ensures r == StripTrailing(ms, |ms|)
  {
    r := ms;
    var i := |ms|;
    while i > 0
      invariant 0 <= i <= |ms| && r == ms && StripTrailing(ms, |ms|) == StripTrailing(ms, i)
    {
      i := i - 1;
      if ms[i].role == Assistant {
        if ms[i].calls != [] && RespondedByAll(ms[i + 1..]) == {} {
          var bare := ms[i].(calls := []);
          r := ms[i := if HasValidContent(bare) then bare else bare.(content := Str(TRUNCATED))];
        }
        return;
      }
    }
  }

  method SanitizeToolHistory(ms: seq<Message>) returns (r: seq<Message>)
    ensures r == SanitizeHistory(ms)
  {
    var start := DropOrphans(ms);
    r := StripTrailingCalls(ms[start..]);
  }

  // ----- FixMissingToolResponses -----

  /** Ids answered right after a position: tool messages up to and including the next user message. */
  function Scan(ms: seq<Message>): set<string> {
    if ms == [] || (ms[0].role != Tool && ms[0].role != User) then {}
    else RespondedIds(ms[0]) + if ms[0].role == User then {} else Scan(ms[1..])
  }

  function Wanted(m: Message): set<string> {
    if m.role == Assistant then set c | c in m.calls && c.id != "" :: c.id else {}
  }

  function Synthesize(cs: seq<Call>, answered: set<string>): seq<Message> {
    if cs == [] then [] else
      var c := cs[|cs| - 1];
      Synthesize(cs[..|cs| - 1], answered) +
      if c.id == "" || c.id in answered then [] else [Message(Tool, Str(SYNTHETIC), [], c.id)]
  }

  function Fill(m: Message, rest: seq<Message>): seq<Message> {
    if m.role == Assistant then Synthesize(m.calls, Scan(rest)) else []
  }

  function FixMissing(ms: seq<Message>): seq<Message> {
    if ms == [] then [] else [ms[0]] + Fill(ms[0], ms[1..]) + FixMissing(ms[1..])
  }

  /** Every assistant call is answered before the next turn. */
  ghost predicate Covered(ms: seq<Message>) {
    ms == [] || (Wanted(ms[0]) <= Scan(ms[1..]) && Covered(ms[1..]))
  }

  lemma {:induction false} ScanKept(ms: seq<Message>)
    ensures Scan(FixMissing(ms)) == Scan(ms)
  {
    if ms != [] {
      ScanKept(ms[1..]);
      assert ms[0].role != Assistant ==> FixMissing(ms) == [ms[0]] + FixMissing(ms[1..]);
      assert FixMissing(ms)[0] == ms[0];
      if ms[0].role == Tool {
        assert FixMissing(ms)[1..] == FixMissing(ms[1..]);
      }
    }
  }

  /** Synthetic messages answer exactly what was missing, on top of what follows them. */
  lemma {:induction false} SynthesizeCovers(cs: seq<Call>, answered: set<string>, rest: seq<Message>)
    ensures Scan(Synthesize(cs, answered) + rest) ==
            (set c | c in cs && c.id != "" && c.id !in answered :: c.id) + Scan(rest)
    ensures Covered(rest) ==> Covered(Synthesize(cs, answered) + rest)
    decreases |cs|
  {
    if cs == [] {
      assert [] + rest == rest;
    } else {
      var c, front := cs[|cs| - 1], cs[..|cs| - 1];
      SplitLast(cs);
      if c.id == "" || c.id in answered {
        SynthesizeCovers(front, answered, rest);
        assert Synthesize(front, answered) + [] == Synthesize(front, answered);
      } else {
        var m := Message(Tool, Str(SYNTHETIC), [], c.id);
        SynthesizeCovers(front, answered, [m] + rest);
        SeqAssoc(Synthesize(front, answered), [m], rest);
        assert ([m] + rest)[1..] == rest && RespondedIds(m) == {c.id};
      }
    }
  }

  /** After the stage every call of every assistant message is answered right behind it. */
  lemma {:induction false} FixMissingCovers(ms: seq<Message>)
    ensures Covered(FixMissing(ms))
  {
    if ms != [] {
      var m, rest := ms[0], ms[1..];
      FixMissingCovers(rest);
      ScanKept(rest);
      var after := Fill(m, rest) + FixMissing(rest);
      assert FixMissing(ms) == [m] + after && FixMissing(ms)[1..] == after;
      if m.role == Assistant {
        SynthesizeCovers(m.calls, Scan(rest), FixMissing(rest));
      } else {
        assert after == FixMissing(rest);
      }
    }
  }

  /** Everything but synthetic answers. */
  function Genuine(ms: seq<Message>): seq<Message> {
    if ms == [] then [] else GenuineOne(ms[0]) + Genuine(ms[1..])
  }

  function GenuineOne(m: Message): seq<Message> {
    if m.role == Tool && m.content == Str(SYNTHETIC) then [] else [m]
  }

  lemma GenuineFirst(m: Message, ms: seq<Message>, rest: seq<Message>)
    requires ms != [] && ms[0] == m && ms[1..] == rest
    ensures Genuine(ms) == GenuineOne(m) + Genuine(rest)
  {
  }

  lemma {:induction false} GenuineAppend(a: seq<Message>, b: seq<Message>)
    ensures Genuine(a + b) == Genuine(a) + Genuine(b)
  {
    if a == [] {
      assert a + b == b;
    } else {
      var m, rest := a[0], a[1..];
      GenuineAppend(rest, b);
      GenuineFirst(m, a, rest);
      GenuineFirst(m, a + b, rest + b);
      SeqAssoc(GenuineOne(m), Genuine(rest), Genuine(b));
    }
  }

  lemma {:induction false} SynthesizeAdds(cs: seq<Call>, answered: set<string>)
    ensures Genuine(Synthesize(cs, answered)) == []
  {
    if cs != [] {
      var front, m := Synthesize(cs[..|cs| - 1], answered), Message(Tool, Str(SYNTHETIC), [], cs[|cs| - 1].id);
      SynthesizeAdds(cs[..|cs| - 1], answered);
      GenuineAppend(front, [m]);
      assert [m][1..] == [] && Genuine([m]) == [] + Genuine([]);
      assert front + [] == front;
    }
  }

  /** The stage inserts synthetic answers and touches nothing else. */
  lemma {:induction false} FixMissingOnlyInserts(ms: seq<Message>)
    ensures Genuine(FixMissing(ms)) == Genuine(ms)
  {
    if ms != [] {
      var m, fill, rest := ms[0], Fill(ms[0], ms[1..]), FixMissing(ms[1..]);
      FixMissingOnlyInserts(ms[1..]);
      SynthesizeAdds(m.calls, Scan(ms[1..]));
      SeqAssoc([m], fill, rest);
      GenuineAppend(fill, rest);
      assert ([m] + (fill + rest))[1..] == fill + rest;
    }
  }

  method CollectAnswered(ms: seq<Message>, from: nat) returns (ids: set<string>)
    requires from <= |ms|
    ensures ids == Scan(ms[from..])
  {
    ids := {};
    var j := from;
    while j < |ms|
      invariant from <= j <= |ms| && ids + Scan(ms[j..]) == Scan(ms[from..])
    {
      if ms[j].role != Tool && ms[j].role != User {
        return;
      }
      assert ms[j..][1..] == ms[j + 1..];
      ids := ids + RespondedIds(ms[j]);
      if ms[j].role == User {
        return;
      }
      j := j + 1;
    }
  }

  method SyntheticResponses(cs: seq<Call>, answered: set<string>) returns (out: seq<Message>)
    ensures out == Synthesize(cs, answered)
  {
    out := [];
    for j := 0 to |cs|
      invariant out == Synthesize(cs[..j], answered)
    {
      assert cs[..j + 1][..j] == cs[..j];
      if cs[j].id != "" && cs[j].id !in answered {
        out := out + [Message(Tool, Str(SYNTHETIC), [], cs[j].id)];
      } else {
        assert out + [] == out;
      }
    }
    assert cs[..|cs|] == cs;
  }

  method FixMissingToolResponses(ms: seq<Message>) returns (out: seq<Message>)
    ensures out == FixMissing(ms)
  {
    out := [];
    for i := 0 to |ms|
      invariant out + FixMissing(ms[i..]) == FixMissing(ms)
    {
      var m := ms[i];
      assert ms[i..][1..] == ms[i + 1..];
      var fill := [];
      if m.role == Assistant && m.calls != [] {
        var answered := CollectAnswered(ms, i + 1);
        fill := SyntheticResponses(m.calls, answered);
      }
      SeqAssoc(out, [m] + fill, FixMissing(ms[i + 1..]));
      SeqAssoc(out, [m], fill);
      out := out + [m] + fill;
    }
    assert out + FixMissing(ms[|ms|..]) == out;
  }
}
