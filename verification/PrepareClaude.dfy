/** Finishing a Claude message list (internal/translate/internal/prepost/prepare_claude.go and
    normalize_claude.go): strip rejected blocks, drop empty messages, fix block order, merge turns. */
module PrepareClaude {
  import opened Basics
  import opened ClaudeHistory

  predicate Rejectable(b: Block) {
    (b.Text? && b.text == "") || (b.Thinking? && b.thinking == "" && b.signature == "")
  }

  function StripBlocks(bs: seq<Block>): seq<Block> {
    if bs == [] then [] else StripBlocks(bs[..|bs| - 1]) + if Rejectable(bs[|bs| - 1]) then [] else [bs[|bs| - 1]]
  }

  predicate Meaningful(b: Block) {
    (b.Text? && b.text != "") || b.ToolUse? || b.ToolResult? || b.Image?
  }

  predicate Keep(m: Claude, last: bool) {
    (last && m.role == AssistantSide) || exists b :: b in m.content && Meaningful(b)
  }

  function DropEmpty(ms: seq<Claude>): seq<Claude> {
    if ms == [] then [] else
      (if Keep(ms[0], |ms| == 1) then [ms[0]] else []) + DropEmpty(ms[1..])
  }

  /** Text after the first tool use goes; tool uses and thinking stay. */
  function Reorder(bs: seq<Block>): seq<Block> {
    if bs == [] then [] else
      var front, b := bs[..|bs| - 1], bs[|bs| - 1];
      Reorder(front) + if b.ToolUse? || b.Thinking? || !HasUse(front) then [b] else []
  }

  function FixOrder(m: Claude): Claude {
    if m.role == AssistantSide && HasUse(m.content) then m.(content := Reorder(m.content)) else m
  }

  function MapStrip(ms: seq<Claude>): (r: seq<Claude>)
    ensures |r| == |ms| && forall k :: 0 <= k < |ms| ==> r[k] == ms[k].(content := StripBlocks(ms[k].content))
  {
    seq(|ms|, k requires 0 <= k < |ms| => ms[k].(content := StripBlocks(ms[k].content)))
  }

  function MapOrder(ms: seq<Claude>): (r: seq<Claude>)
    ensures |r| == |ms| && forall k :: 0 <= k < |ms| ==> r[k] == FixOrder(ms[k])
  {
    seq(|ms|, k requires 0 <= k < |ms| => FixOrder(ms[k]))
  }

  /** `mergeInto`: the tool results of both come first. */
  function Joined(a: Claude, b: Claude): Claude {
    a.(content := Results(a.content) + Results(b.content) + (Others(a.content) + Others(b.content)))
  }

  function MergeOnto(out: seq<Claude>, ms: seq<Claude>): seq<Claude>
    decreases |ms|
  {
    if ms == [] then out
    else if out != [] && out[|out| - 1].role == ms[0].role then
      MergeOnto(out[..|out| - 1] + [Joined(out[|out| - 1], ms[0])], ms[1..])
    else MergeOnto(out + [ms[0]], ms[1..])
  }

  function Prepare(ms: seq<Claude>): seq<Claude> {
    MergeOnto([], MapOrder(DropEmpty(MapStrip(ms))))
  }

  method MergeConsecutiveSameRole(ms: seq<Claude>) returns (out: seq<Claude>)
    ensures out == MergeOnto([], ms)
  {
    out := [];
    for i := 0 to |ms|
      invariant MergeOnto([], ms) == MergeOnto(out, ms[i..])
    {
      assert ms[i..][0] == ms[i] && ms[i..][1..] == ms[i + 1..];
      var last := |out| - 1;
      if last >= 0 && out[last].role == ms[i].role {
        out := out[..last] + [Joined(out[last], ms[i])];
      } else {
        out := out + [ms[i]];
      }
    }
    assert ms[|ms|..] == [];
  }

  method DropEmptyMessages(ms: seq<Claude>) returns (out: seq<Claude>)
    ensures out == DropEmpty(ms)
  {
    out := [];
    for i := 0 to |ms|
      invariant out + DropEmpty(ms[i..]) == DropEmpty(ms)
    {
      assert ms[i..][0] == ms[i] && ms[i..][1..] == ms[i + 1..];
      SeqAssoc(out, if Keep(ms[i], i == |ms| - 1) then [ms[i]] else [], DropEmpty(ms[i + 1..]));
      if Keep(ms[i], i == |ms| - 1) {
        out := out + [ms[i]];
      } else {
        assert out + [] == out;
      }
    }
    assert out + DropEmpty(ms[|ms|..]) == out;
  }
}
