/** The OpenAI stream normaliser (internal/infrastructure/proxy/normalize_openai.go): it withholds
    tool arguments until they can be repaired as a whole, and supplies a terminal chunk when the
    upstream sends none. */
module OpenAIStream {
  import opened Basics
  import opened ClaudeStream

  /** One upstream line: empty, not data, the end marker, data that is no JSON, or a chunk. A tool
      delta's `args` is its string form; inline-object arguments read as "", as the normaliser drops
      them unread. */
  datatype Upstream =
    | Blank
    | NotData
    | Done
    | Unparsed
    | Parsed(chunk: Chunk)

  datatype Downstream =
    | Passed
    | DoneLine
    | ChunkLine(chunk: Chunk)

  datatype Prose = Prose(reasoning: string, reasoningContent: string, content: string)

  /** `tidy` stands for the text clean-up of a delta, `order` for the order in which Go iterates over
      the indexes seen, and `repair` for argument repair. */
  datatype Config = Config(tidy: Prose -> Prose, order: set<int> -> seq<int>, repair: string -> string)

  datatype Normalizer = Normalizer(
    toolArgs: map<int, string>,
    toolSeen: set<int>,
    metaCaptured: bool,
    finished: bool,
    seenFinish: bool,
    out: seq<Downstream>)

  const Idle: Normalizer := Normalizer(map[], {}, false, false, false, [])

  function Strip(d: ToolDelta): ToolDelta {
    d.(args := "")
  }

  function StripAll(ds: seq<ToolDelta>): (r: seq<ToolDelta>)
    ensures |r| == |ds|
  {
    if ds == [] then [] else StripAll(ds[..|ds| - 1]) + [Strip(ds[|ds| - 1])]
  }

  function Buffered(args: map<int, string>, i: int): string {
    if i in args then args[i] else ""
  }

  /** Takes the arguments of every delta into the buffer of its index. */
  function Collect(args: map<int, string>, ds: seq<ToolDelta>): map<int, string>
    decreases |ds|
  {
    if ds == [] then args else
      var before, d := Collect(args, ds[..|ds| - 1]), ds[|ds| - 1];
      if d.args == "" then before else before[d.index := Buffered(before, d.index) + d.args]
  }

  function Indexes(ds: seq<ToolDelta>): set<int> {
    set d | d in ds :: d.index
  }

  function RepairedChunk(g: Config, i: int, raw: string): Downstream {
    ChunkLine(Choice("", "", "", [ToolDelta(i, "", "", g.repair(raw))], false, "", None))
  }

  function RepairedLines(g: Config, args: map<int, string>, indexes: seq<int>): seq<Downstream> {
    if indexes == [] then [] else
      var i := indexes[|indexes| - 1];
      RepairedLines(g, args, indexes[..|indexes| - 1]) +
      if Buffered(args, i) == "" then [] else [RepairedChunk(g, i, Buffered(args, i))]
  }

  function EmitRepaired(g: Config, n: Normalizer): Normalizer {
    if n.finished then n
    else n.(finished := true, out := n.out + RepairedLines(g, n.toolArgs, g.order(n.toolSeen)))
  }

  function Write(n: Normalizer, line: Downstream): Normalizer {
    n.(out := n.out + [line])
  }

  /** The chunk supplied when the upstream never sent a finish reason. */
  function Synthesized(toolSeen: set<int>): Downstream {
    ChunkLine(Choice("", "", "", [], false, if toolSeen != {} then "tool_calls" else "stop", None))
  }

  predicate NeedsTerminal(n: Normalizer) {
    !n.seenFinish && n.metaCaptured
  }

  function OnDone(g: Config, n: Normalizer): Normalizer {
    var r := EmitRepaired(g, n);
    Write(if NeedsTerminal(n) then Write(r, Synthesized(n.toolSeen)) else r, DoneLine)
  }

  function Normalized(g: Config, k: Chunk): Chunk {
    if !k.Choice? then k else
      var p := g.tidy(Prose(k.reasoning, k.reasoningContent, k.content));
      Choice(p.reasoning, p.reasoningContent, p.content, StripAll(k.tools), k.junk, k.finish, k.usage)
  }

  function FinishText(k: Chunk): string {
    if k.Choice? then k.finish else ""
  }

  function ToolsOf(k: Chunk): seq<ToolDelta> {
    if k.Choice? then k.tools else []
  }

  function OnChunk(g: Config, n: Normalizer, k: Chunk): Normalizer {
    var noted := n.(metaCaptured := true,
                    toolArgs := Collect(n.toolArgs, ToolsOf(k)),
                    toolSeen := n.toolSeen + Indexes(ToolsOf(k)),
                    seenFinish := n.seenFinish || FinishText(k) != "");
    Write(if FinishText(k) != "" then EmitRepaired(g, noted) else noted, ChunkLine(Normalized(g, k)))
  }

  function OnLine(g: Config, n: Normalizer, line: Upstream): Normalizer {
    match line
    case Blank => n
    case NotData => Write(n, Passed)
    case Unparsed => Write(n, Passed)
    case Done => OnDone(g, n)
    case Parsed(k) => OnChunk(g, n, k)
  }

  function OnLines(g: Config, lines: seq<Upstream>): Normalizer {
    if lines == [] then Idle else OnLine(g, OnLines(g, lines[..|lines| - 1]), lines[|lines| - 1])
  }

  function OnEnd(g: Config, n: Normalizer): Normalizer {
    if NeedsTerminal(n) then Write(EmitRepaired(g, n), Synthesized(n.toolSeen)) else n
  }

  /** Everything the normaliser writes for a whole upstream stream. */
  function Normalize(g: Config, lines: seq<Upstream>): seq<Downstream> {
    OnEnd(g, OnLines(g, lines)).out
  }

  /** One more delta. */
  lemma OneMore(args: map<int, string>, ds: seq<ToolDelta>, d: ToolDelta)
    ensures Collect(args, ds + [d]) ==
            (var before := Collect(args, ds);
             if d.args == "" then before else before[d.index := Buffered(before, d.index) + d.args])
    ensures Indexes(ds + [d]) == Indexes(ds) + {d.index} && StripAll(ds + [d]) == StripAll(ds) + [Strip(d)]
  {
    assert (ds + [d])[..|ds|] == ds;
    assert forall x :: x in ds + [d] <==> x in ds || x == d;
  }

  lemma SetsAssoc(a: set<int>, b: set<int>, c: set<int>)
    ensures a + (b + c) == a + b + c
  {
  }

  method BufferToolArgs(args: map<int, string>, seen: set<int>, ds: seq<ToolDelta>)
      returns (args': map<int, string>, seen': set<int>, stripped: seq<ToolDelta>)
    ensures args' == Collect(args, ds) && seen' == seen + Indexes(ds) && stripped == StripAll(ds)
  {
    args', seen', stripped := args, seen, [];
    for j := 0 to |ds|
      invariant args' == Collect(args, ds[..j]) && seen' == seen + Indexes(ds[..j]) && stripped == StripAll(ds[..j])
    {
      var d := ds[j];
      ghost var front := ds[..j];
      assert ds[..j + 1] == front + [d];
      OneMore(args, front, d);
      SetsAssoc(seen, Indexes(front), {d.index});
      seen' := seen' + {d.index};
      if d.args != "" {
        args' := args'[d.index := (if d.index in args' then args'[d.index] else "") + d.args];
      }
      stripped := stripped + [Strip(d)];
    }
    assert ds[..|ds|] == ds;
  }

  method RepairAll(g: Config, args: map<int, string>, seen: set<int>) returns (lines: seq<Downstream>)
    ensures lines == RepairedLines(g, args, g.order(seen))
  {
    var indexes := g.order(seen);
    lines := [];
    for j := 0 to |indexes|
      invariant lines == RepairedLines(g, args, indexes[..j])
    {
      assert indexes[..j + 1][..j] == indexes[..j];
      var i := indexes[j];
      if i in args && args[i] != "" {
        lines := lines + [RepairedChunk(g, i, args[i])];
      } else {
        assert lines + [] == lines;
      }
    }
    assert indexes[..|indexes|] == indexes;
  }

  /** `normalizeOpenAIStreamWithMeta` on a stream that is neither cancelled nor cut by I/O errors. */
  method NormalizeStream(g: Config, lines: seq<Upstream>) returns (out: seq<Downstream>)
    ensures out == Normalize(g, lines)
  {
    out := [];
    var toolArgs, toolSeen: set<int> := map[], {};
    var metaCaptured, finished, seenFinish := false, false, false;
    for i := 0 to |lines|
      invariant Normalizer(toolArgs, toolSeen, metaCaptured, finished, seenFinish, out) == OnLines(g, lines[..i])
    {
      assert lines[..i + 1][..i] == lines[..i];
      match lines[i]
      case Blank =>
      case NotData => out := out + [Passed];
      case Unparsed => out := out + [Passed];
      case Done =>
        if !finished {
          var repaired := RepairAll(g, toolArgs, toolSeen);
          finished, out := true, out + repaired;
        }
        if !seenFinish && metaCaptured {
          out := out + [Synthesized(toolSeen)];
        }
        out := out + [DoneLine];
      case Parsed(k) =>
        metaCaptured := true;
        var normalized := k;
        if k.Choice? {
          var stripped;
          toolArgs, toolSeen, stripped := BufferToolArgs(toolArgs, toolSeen, k.tools);
          var p := g.tidy(Prose(k.reasoning, k.reasoningContent, k.content));
          normalized := Choice(p.reasoning, p.reasoningContent, p.content, stripped, k.junk, k.finish, k.usage);
          if k.finish != "" {
            seenFinish := true;
            if !finished {
              var repaired := RepairAll(g, toolArgs, toolSeen);
              finished, out := true, out + repaired;
            }
          }
        }
        out := out + [ChunkLine(normalized)];
    }
    assert lines[..|lines|] == lines;
    if !seenFinish && metaCaptured {
      if !finished {
        var repaired := RepairAll(g, toolArgs, toolSeen);
        out := out + repaired;
      }
      out := out + [Synthesized(toolSeen)];
    }
  }
}
