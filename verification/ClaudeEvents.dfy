/** The Claude streaming events a client receives, and a monitor that says which event traces the
    protocol allows. The monitor is written from the protocol's side and knows nothing of the
    translator: blocks open at 0, 1, 2, ...; a text or thinking block is never open beside another
    block; every delta and stop names an open block of the right kind; a thinking block is signed
    right before its stop; a tool block gets at most one argument delta, right before its stop. */
module ClaudeEvents {
  import opened Basics

  datatype Usage = Usage(input: int, output: int, cacheRead: int, cacheCreate: int)

  datatype BlockKind = TextBlock | ThinkingBlock | ToolBlock(id: string, name: string)

  datatype DeltaBody =
    | TextDelta(text: string)
    | ThinkingDelta(text: string)
    | SignatureDelta
    | InputJsonDelta(json: string)

  datatype Event =
    | MessageStart(usage: Usage)
    | BlockStart(index: int, kind: BlockKind)
    | BlockDelta(index: int, body: DeltaBody)
    | BlockStop(index: int)
    | MessageDelta(stopReason: string, usage: Usage)
    | MessageStop

  datatype OpenBlock = OpenText | OpenThinking | OpenTool

  /** `owed` names a block that must be stopped by the very next event. */
  datatype Phase =
    | Fresh
    | Streaming(next: nat, open: map<int, OpenBlock>, owed: Option<int>)
    | Ending
    | Ended
    | Broken

  function Opened(kind: BlockKind): OpenBlock {
    match kind
    case TextBlock => OpenText
    case ThinkingBlock => OpenThinking
    case ToolBlock(_, _) => OpenTool
  }

  predicate MayOpen(open: map<int, OpenBlock>, kind: BlockKind) {
    if kind.ToolBlock? then forall i | i in open :: open[i].OpenTool? else open == map[]
  }

  predicate MayStop(block: OpenBlock, index: int, owed: Option<int>) {
    match block
    case OpenText => owed.None?
    case OpenThinking => owed == Some(index)
    case OpenTool => owed.None? || owed == Some(index)
  }

  predicate Fits(block: OpenBlock, body: DeltaBody) {
    match body
    case TextDelta(_) => block.OpenText?
    case ThinkingDelta(_) => block.OpenThinking?
    case SignatureDelta => block.OpenThinking?
    case InputJsonDelta(_) => block.OpenTool?
  }

  function Step(p: Phase, e: Event): Phase {
    match p
    case Fresh => if e.MessageStart? then Streaming(0, map[], None) else Broken
    case Streaming(next, open, owed) => StreamingStep(next, open, owed, e)
    case Ending => if e.MessageStop? then Ended else Broken
    case Ended => Broken
    case Broken => Broken
  }

  function StreamingStep(next: nat, open: map<int, OpenBlock>, owed: Option<int>, e: Event): Phase {
    match e
    case BlockStart(i, kind) =>
      if i == next && owed.None? && MayOpen(open, kind) then Streaming(next + 1, open[i := Opened(kind)], None)
        else Broken
    case BlockDelta(i, body) =>
      if owed.None? && i in open && Fits(open[i], body) then
        Streaming(next, open, if body.SignatureDelta? || body.InputJsonDelta? then Some(i) else None)
      else Broken
    case BlockStop(i) =>
      if i in open && MayStop(open[i], i, owed) then Streaming(next, open - {i}, None) else Broken
    case MessageDelta(_, _) => if open == map[] && owed.None? then Ending else Broken
    case MessageStart(_) => Broken
    case MessageStop => Broken
  }

  /** The phase after a whole trace. */
  function Run(trace: seq<Event>): Phase {
    if trace == [] then Fresh else Step(Run(trace[..|trace| - 1]), trace[|trace| - 1])
  }

  /** A trace as it grows: the events so far, last one outermost. */
  datatype Trace = Empty | Snoc(init: Trace, last: Event)

  function Events(t: Trace): seq<Event> {
    match t
    case Empty => []
    case Snoc(init, last) => Events(init) + [last]
  }

  lemma RunSnoc(trace: seq<Event>, e: Event)
    ensures Run(trace + [e]) == Step(Run(trace), e)
  {
    assert (trace + [e])[..|trace|] == trace;
  }

  // ----- What an accepted trace looks like, said without the monitor -----

  /** The indexes of the opening events of a trace, in order. */
  function Starts(trace: seq<Event>): seq<int> {
    if trace == [] then [] else
      var e := trace[|trace| - 1];
      Starts(trace[..|trace| - 1]) + if e.BlockStart? then [e.index] else []
  }

  function CountStarts(trace: seq<Event>, i: int): nat {
    if trace == [] then 0 else
      var e := trace[|trace| - 1];
      CountStarts(trace[..|trace| - 1], i) + if e.BlockStart? && e.index == i then 1 else 0
  }

  function CountStops(trace: seq<Event>, i: int): nat {
    if trace == [] then 0 else
      CountStops(trace[..|trace| - 1], i) + if trace[|trace| - 1] == BlockStop(i) then 1 else 0
  }

  /** Every prefix of a trace that is not broken is not broken. */
  lemma {:induction false} PrefixAlive(trace: seq<Event>, n: nat)
    requires n <= |trace| && !Run(trace).Broken?
    ensures !Run(trace[..n]).Broken?
    ensures n < |trace| ==> !Run(trace[..n]).Ended?
    decreases |trace|
  {
    if n == |trace| {
      assert trace[..n] == trace;
    } else {
      var front := trace[..|trace| - 1];
      PrefixAlive(front, n);
      assert front[..n] == trace[..n];
    }
  }

  /** The monitor's phase tells how much of the message frame has been seen. */
  lemma {:induction false} PhaseFrame(trace: seq<Event>)
    requires !Run(trace).Broken?
    ensures Run(trace).Fresh? <==> trace == []
    ensures trace != [] ==> trace[0].MessageStart?
    ensures forall k :: 0 < k < |trace| ==> !trace[k].MessageStart?
    ensures Run(trace).Streaming? ==> forall k :: 0 <= k < |trace| ==> !trace[k].MessageDelta? && !trace[k].MessageStop?
    ensures Run(trace).Ending? ==> |trace| >= 2 && trace[|trace| - 1].MessageDelta?
    ensures Run(trace).Ending? ==> forall k :: 0 <= k < |trace| - 1 ==>
            !trace[k].MessageDelta? && !trace[k].MessageStop?
    ensures Run(trace).Ended? ==> |trace| >= 3 && trace[|trace| - 1].MessageStop? && trace[|trace| - 2].MessageDelta?
    ensures Run(trace).Ended? ==> forall k :: 0 <= k < |trace| - 2 ==> !trace[k].MessageDelta? && !trace[k].MessageStop?
  {
    if trace != [] {
      var front := trace[..|trace| - 1];
      PhaseFrame(front);
      assert forall k :: 0 <= k < |front| ==> trace[k] == front[k];
    }
  }

  /** The blocks seen so far are 0, 1, ..., next-1, each opened once; the ones not open any more
      are exactly the ones stopped, each once. */
  ghost predicate BlocksBooked(trace: seq<Event>, next: nat, open: map<int, OpenBlock>) {
    && Starts(trace) == seq(next, i => i)
    && (forall i :: CountStarts(trace, i) == if 0 <= i < next then 1 else 0)
    && (forall i :: CountStops(trace, i) == if 0 <= i < next && i !in open then 1 else 0)
    && (forall i :: i in open ==> 0 <= i < next)
  }

  lemma {:induction false} StreamingBooked(trace: seq<Event>)
    requires Run(trace).Streaming?
    ensures BlocksBooked(trace, Run(trace).next, Run(trace).open)
  {
    assert trace != [];
    var front := trace[..|trace| - 1];
    var e := trace[|trace| - 1];
    if Run(front).Fresh? {
      PhaseFrame(front);
      assert front + [e] == trace;
      StartsBooked(front, e, 0, map[]);
      StopsBooked(front, e, 0, map[]);
    } else {
      StreamingBooked(front);
      StartsBooked(front, e, Run(front).next, Run(front).open);
      StopsBooked(front, e, Run(front).next, Run(front).open);
      assert front + [e] == trace;
    }
  }

  lemma StartsBooked(front: seq<Event>, e: Event, next: nat, open: map<int, OpenBlock>)
    requires BlocksBooked(front, next, open) && (e.BlockStart? ==> e.index == next)
    ensures var n := if e.BlockStart? then next + 1 else next;
            && Starts(front + [e]) == seq(n, i => i)
            && forall i :: CountStarts(front + [e], i) == if 0 <= i < n then 1 else 0
  {
    assert (front + [e])[..|front|] == front;
    if e.BlockStart? {
      assert seq(next, i => i) + [next] == seq(next + 1, i => i);
    }
  }

  lemma StopsBooked(front: seq<Event>, e: Event, next: nat, open: map<int, OpenBlock>)
    requires BlocksBooked(front, next, open) && (e.BlockStop? ==> e.index in open)
    ensures forall i :: CountStops(front + [e], i) ==
                        if 0 <= i < next && (i !in open || e == BlockStop(i)) then 1 else 0
  {
    assert (front + [e])[..|front|] == front;
    assert forall i :: CountStops(front + [e], i) == CountStops(front, i) + if e == BlockStop(i) then 1 else 0;
  }

  /** A trace the monitor accepts, in plain terms: one message_start, first; one message_delta and
      one message_stop, the last two events; the opened blocks are 0, 1, 2, ... and every opened block
      is stopped exactly once. */
  lemma AcceptedTrace(trace: seq<Event>)
    requires Run(trace).Ended?
    ensures |trace| >= 3
    ensures forall k :: 0 <= k < |trace| ==> (trace[k].MessageStart? <==> k == 0)
    ensures forall k :: 0 <= k < |trace| ==> (trace[k].MessageDelta? <==> k == |trace| - 2)
    ensures forall k :: 0 <= k < |trace| ==> (trace[k].MessageStop? <==> k == |trace| - 1)
    ensures Starts(trace) == seq(|Starts(trace)|, i => i)
    ensures forall i :: CountStops(trace, i) == CountStarts(trace, i) <= 1
  {
    PhaseFrame(trace);
    var body := trace[..|trace| - 1];
    var content := body[..|body| - 1];
    assert content == trace[..|trace| - 2];
    PhaseFrame(body);
    assert Run(content).Streaming? by { PhaseFrame(content); }
    StreamingBooked(content);
    assert body[|body| - 1] == trace[|trace| - 2];
    assert Starts(body) == Starts(content) && Starts(trace) == Starts(content);
    assert forall i :: CountStarts(body, i) == CountStarts(content, i);
    assert forall i :: CountStops(body, i) == CountStops(content, i);
  }

  /** In an accepted trace no block starts while a text or thinking block is open, and none starts
      beside any open block unless it is a tool block. */
  lemma {:induction false} ProseBlocksAlone(trace: seq<Event>, n: nat)
    requires Run(trace).Ended? && n < |trace| && trace[n].BlockStart?
    ensures Run(trace[..n]).Streaming?
    ensures forall i :: i in Run(trace[..n]).open ==> Run(trace[..n]).open[i].OpenTool? && trace[n].kind.ToolBlock?
  {
    PrefixAlive(trace, n);
    PrefixAlive(trace, n + 1);
    assert trace[..n + 1][..n] == trace[..n];
  }
}
