/** Chat histories and Responses input items (`FromOpenAI` and `ToOpenAI` in
    internal/translate/responses/request.go). */
module ResponsesHistory {
  import opened Basics

  datatype Part = TextPart(text: string) | ImagePart(url: string, detail: string)

  datatype Content = Nil | Str(text: string) | List(parts: seq<Part>)

  datatype Call = Call(id: string, name: string, args: string)

  /** A chat message; "" is an absent reasoning or encrypted reasoning. `Plain` has some other role. */
  datatype Message =
    | System(text: string)
    | User(content: Content)
    | Assistant(content: Content, reasoning: string, encrypted: string, calls: seq<Call>)
    | ToolReply(id: string, output: string)
    | Plain(role: string, content: Content)

  datatype Role = UserRole | AssistantRole | OtherRole(name: string)

  /** An input item; a message's content is a list of parts, or given directly. */
  datatype Item =
    | MessageItem(role: Role, parts: seq<Part>)
    | DirectItem(role: Role, content: Content)
    | CallItem(call: Call)
    | OutputItem(id: string, output: string)
    | ReasoningItem(summary: seq<string>, texts: seq<string>, encrypted: string)

  const MAX_ID: nat := 64

  /** `sanitizeArgs`, and whether a string is all white space. */
  datatype Rules = Rules(sanitize: string -> string, blank: string -> bool)

  function Clamp(id: string): (r: string)
    ensures |r| <= MAX_ID && r <= id && (|id| <= MAX_ID ==> r == id)
  {
    if |id| > MAX_ID then id[..MAX_ID] else id
  }

  // ----- Chat to Responses -----

  function OrAuto(detail: string): string {
    if detail == "" then "auto" else detail
  }

  function Outgoing(ps: seq<Part>): (r: seq<Part>)
    ensures |r| == |ps|
  {
    if ps == [] then [] else
      var p := ps[|ps| - 1];
      Outgoing(ps[..|ps| - 1]) + [if p.ImagePart? then p.(detail := OrAuto(p.detail)) else p]
  }

  function PartsOf(c: Content): seq<Part> {
    match c
    case Nil => []
    case Str(t) => if t == "" then [] else [TextPart(t)]
    case List(ps) => Outgoing(ps)
  }

  function MessageItems(role: Role, c: Content): seq<Item> {
    if PartsOf(c) == [] then [] else [MessageItem(role, PartsOf(c))]
  }

  /** `buildReasoningInput`. */
  function ReasoningItems(g: Rules, reasoning: string, encrypted: string): seq<Item> {
    var summary := if reasoning == "" || g.blank(reasoning) then [] else [reasoning];
    if summary == [] && encrypted == "" then [] else [ReasoningItem(summary, [], encrypted)]
  }

  function OutgoingCall(g: Rules, c: Call): Call {
    Call(Clamp(c.id), if c.name == "" then "_unknown" else c.name, g.sanitize(c.args))
  }

  function CallItems(g: Rules, cs: seq<Call>): seq<Item> {
    if cs == [] then [] else CallItems(g, cs[..|cs| - 1]) + [CallItem(OutgoingCall(g, cs[|cs| - 1]))]
  }

  function ItemsOf(g: Rules, m: Message): seq<Item> {
    match m
    case System(_) => []
    case User(c) => MessageItems(UserRole, c)
    case Assistant(c, r, e, cs) => ReasoningItems(g, r, e) + MessageItems(AssistantRole, c) + CallItems(g, cs)
    case ToolReply(id, output) => [OutputItem(Clamp(id), output)]
    case Plain(_, _) => []
  }

  function Input(g: Rules, ms: seq<Message>): seq<Item> {
    if ms == [] then [] else Input(g, ms[..|ms| - 1]) + ItemsOf(g, ms[|ms| - 1])
  }

  /** The first system message becomes the instructions, the others go. */
  function Instructions(ms: seq<Message>): string {
    if ms == [] then "" else if ms[0].System? then ms[0].text else Instructions(ms[1..])
  }

  // ----- Responses to chat -----

  function Incoming(ps: seq<Part>): Content {
    if |ps| == 1 && ps[0].TextPart? then Str(ps[0].text) else List(Outgoing(ps))
  }

  function Present(ts: seq<string>): seq<string> {
    if ts == [] then [] else Present(ts[..|ts| - 1]) + if ts[|ts| - 1] == "" then [] else [ts[|ts| - 1]]
  }

  function JoinLines(ts: seq<string>): string {
    if ts == [] then "" else if |ts| == 1 then ts[0] else JoinLines(ts[..|ts| - 1]) + "\n" + ts[|ts| - 1]
  }

  function Extracted(summary: seq<string>, content: seq<string>): string {
    if Present(summary) != [] then JoinLines(Present(summary)) else JoinLines(Present(content))
  }

  datatype Walk = Walk(messages: seq<Message>, current: Option<Message>, reasoning: string, encrypted: string)

  /** An open call group takes reasoning that arrived since it was opened. */
  function Flush(w: Walk): Walk {
    if w.current.None? || !w.current.value.Assistant? then w else
      var m := w.current.value;
      var r := if w.reasoning != "" then w.reasoning else m.reasoning;
      var e := if w.encrypted != "" then w.encrypted else m.encrypted;
      Walk(w.messages + [m.(reasoning := r, encrypted := e)], None, "", "")
  }

  function AddMessage(w: Walk, role: Role, c: Content): Walk {
    var f := Flush(w);
    match role
    case AssistantRole =>
      if f.reasoning != "" then Walk(f.messages + [Assistant(c, f.reasoning, f.encrypted, [])], f.current, "", "")
      else f.(messages := f.messages + [Assistant(c, "", "", [])])
    case UserRole => Walk(f.messages + [User(c)], f.current, "", "")
    case OtherRole(name) => Walk(f.messages + [Plain(name, c)], f.current, "", "")
  }

  function AddCall(g: Rules, w: Walk, c: Call): Walk {
    var o := if w.current.Some? then w
      else Walk(w.messages, Some(Assistant(Nil, w.reasoning, w.encrypted, [])), "", "");
    if c.name == "" || g.blank(c.name) || !o.current.value.Assistant? then o
    else
      var m := o.current.value;
      o.(current := Some(m.(calls := m.calls + [Call(Clamp(c.id), c.name, g.sanitize(c.args))])))
  }

  function AddReasoning(w: Walk, text: string, encrypted: string): Walk {
    var joined := if text == "" then w.reasoning else if w.reasoning != "" then w.reasoning + "\n" + text else text;
    w.(reasoning := joined, encrypted := if encrypted != "" then encrypted else w.encrypted)
  }

  function Step(g: Rules, w: Walk, it: Item): Walk {
    match it
    case MessageItem(role, ps) => AddMessage(w, role, Incoming(ps))
    case DirectItem(role, c) => AddMessage(w, role, c)
    case CallItem(c) => AddCall(g, w, c)
    case OutputItem(id, output) => var f := Flush(w); f.(messages := f.messages + [ToolReply(Clamp(id), output)])
    case ReasoningItem(summary, content, e) => AddReasoning(w, Extracted(summary, content), e)
  }

  function Steps(g: Rules, w: Walk, items: seq<Item>): Walk
    decreases |items|
  {
    if items == [] then w else Step(g, Steps(g, w, items[..|items| - 1]), items[|items| - 1])
  }

  const EmptyInput := [MessageItem(UserRole, [TextPart("...")])]

  function ToOpenAI(g: Rules, instructions: string, items: seq<Item>): seq<Message> {
    var start := if instructions == "" then [] else [System(instructions)];
    Flush(Steps(g, Walk(start, None, "", ""), if items == [] then EmptyInput else items)).messages
  }

  function RoundTrip(g: Rules, ms: seq<Message>): seq<Message> {
    ToOpenAI(g, Instructions(ms), Input(g, ms))
  }

  // ----- Canonical histories -----

  predicate CanonicalContent(c: Content) {
    match c
    case Nil => false
    case Str(t) => t != ""
    case List(ps) =>
      ps != [] && !(|ps| == 1 && ps[0].TextPart?) && forall p :: p in ps ==> (p.ImagePart? ==> p.detail != "")
  }

  predicate CanonicalCall(g: Rules, c: Call) {
    |c.id| <= MAX_ID && c.name != "" && !g.blank(c.name) && g.sanitize(c.args) == c.args
  }

  predicate TextTurn(m: Message) {
    m.Assistant? && m.calls == [] && CanonicalContent(m.content)
  }

  predicate CallTurn(g: Rules, m: Message) {
    m.Assistant? && m.calls != [] && m.content == Nil && forall c :: c in m.calls ==> CanonicalCall(g, c)
  }

  /** A turn of user, assistant or tool: text or calls, and no blank reasoning. */
  predicate Turn(g: Rules, m: Message) {
    match m
    case System(_) => false
    case User(c) => CanonicalContent(c)
    case Assistant(_, r, _, _) => (TextTurn(m) || CallTurn(g, m)) && (r != "" ==> !g.blank(r))
    case ToolReply(id, _) => |id| <= MAX_ID
    case Plain(_, _) => false
  }

  predicate Opens(before: seq<Message>) {
    before != [] && before[|before| - 1].Assistant? && before[|before| - 1].calls != []
  }

  /** A turn that does not survive where it stands: encrypted reasoning alone on a text turn, or an
      assistant turn with calls or reasoning right behind a call turn. */
  predicate Spoils(before: seq<Message>, m: Message) {
    && m.Assistant?
    && ((m.calls == [] && m.encrypted != "" && m.reasoning == "")
        || (Opens(before) && (m.calls != [] || m.reasoning != "" || m.encrypted != "")))
  }

  // ----- One turn at a time -----

  /** The walk after a history that came through unharmed. */
  function Resting(ms: seq<Message>): Walk {
    if Opens(ms) then Walk(ms[..|ms| - 1], Some(ms[|ms| - 1]), "", "") else Walk(ms, None, "", "")
  }

  lemma RestingFlush(ms: seq<Message>)
    ensures Flush(Resting(ms)) == Walk(ms, None, "", "")
  {
    if Opens(ms) {
      SplitLast(ms);
    }
  }

  lemma {:induction false} OutgoingSame(ps: seq<Part>)
    requires forall p :: p in ps ==> (p.ImagePart? ==> p.detail != "")
    ensures Outgoing(ps) == ps
  {
    if ps != [] {
      SplitLast(ps);
      OutgoingSame(ps[..|ps| - 1]);
      assert ps[|ps| - 1] in ps;
    }
  }

  lemma ContentReturns(c: Content)
    requires CanonicalContent(c)
    ensures PartsOf(c) != [] && Incoming(PartsOf(c)) == c
  {
    if c.List? {
      OutgoingSame(c.parts);
    }
  }

  lemma StepsOne(g: Rules, w: Walk, it: Item)
    ensures Steps(g, w, [it]) == Step(g, w, it)
  {
    assert [it][..0] == [];
  }

  lemma {:induction false} StepsAppend(g: Rules, w: Walk, a: seq<Item>, b: seq<Item>)
    ensures Steps(g, w, a + b) == Steps(g, Steps(g, w, a), b)
    decreases |b|
  {
    if b == [] {
      assert a + b == a;
    } else {
      assert (a + b)[..|a + b| - 1] == a + b[..|b| - 1];
      StepsAppend(g, w, a, b[..|b| - 1]);
    }
  }

  /** Canonical calls join an open group as they are. */
  lemma {:induction false} CallsJoin(g: Rules, w: Walk, cs: seq<Call>)
    requires w.current.Some? && w.current.value.Assistant? && forall c :: c in cs ==> CanonicalCall(g, c)
    ensures var m := w.current.value;
            Steps(g, w, CallItems(g, cs)) == w.(current := Some(m.(calls := m.calls + cs)))
    decreases |cs|
  {
    var m := w.current.value;
    if cs == [] {
      assert m.calls + [] == m.calls;
    } else {
      var front, c := cs[..|cs| - 1], cs[|cs| - 1];
      SplitLast(cs);
      assert c in cs;
      CallsJoin(g, w, front);
      StepsAppend(g, w, CallItems(g, front), [CallItem(OutgoingCall(g, c))]);
      StepsOne(g, Steps(g, w, CallItems(g, front)), CallItem(OutgoingCall(g, c)));
      SeqAssoc(m.calls, front, [c]);
    }
  }

  /** Canonical calls with no group open start one with the reasoning at hand. */
  lemma {:induction false} CallsOpen(g: Rules, w: Walk, cs: seq<Call>)
    requires w.current.None? && cs != [] && forall c :: c in cs ==> CanonicalCall(g, c)
    ensures Steps(g, w, CallItems(g, cs)) ==
            Walk(w.messages, Some(Assistant(Nil, w.reasoning, w.encrypted, cs)), "", "")
    decreases |cs|
  {
    var front, c := cs[..|cs| - 1], cs[|cs| - 1];
    SplitLast(cs);
    assert c in cs;
    var items := CallItems(g, front);
    StepsAppend(g, w, items, [CallItem(OutgoingCall(g, c))]);
    StepsOne(g, Steps(g, w, items), CallItem(OutgoingCall(g, c)));
    if front == [] {
      assert Steps(g, w, items) == w && [] + [c] == [c] == cs;
    } else {
      CallsOpen(g, w, front);
    }
  }

  lemma ExtractedOne(r: string)
    ensures Extracted(if r == "" then [] else [r], []) == r
  {
    var none: seq<string> := [];
    assert Present(none) == none && JoinLines(none) == "";
    if r != "" {
      assert [r][..0] == none && Present([r]) == none + [r] == [r];
    }
  }

  /** A reasoning item holds back the reasoning of its turn. */
  lemma ReasoningHeld(g: Rules, w: Walk, r: string, e: string)
    requires (r != "" ==> !g.blank(r)) && w.reasoning == "" && w.encrypted == ""
    ensures Steps(g, w, ReasoningItems(g, r, e)) == w.(reasoning := r, encrypted := e)
  {
    var items := ReasoningItems(g, r, e);
    if r == "" && e == "" {
      assert items == [];
    } else {
      var it := ReasoningItem(if r == "" then [] else [r], [], e);
      assert items == [it];
      StepsOne(g, w, it);
      ExtractedOne(r);
    }
  }

  lemma TextTurnSteps(g: Rules, w: Walk, m: Message)
    requires Turn(g, m) && TextTurn(m) && w.reasoning == "" && w.encrypted == ""
    ensures Steps(g, w, ItemsOf(g, m)) ==
            AddMessage(w.(reasoning := m.reasoning, encrypted := m.encrypted), AssistantRole, m.content)
  {
    var reasons, it := ReasoningItems(g, m.reasoning, m.encrypted), MessageItem(AssistantRole, PartsOf(m.content));
    ContentReturns(m.content);
    assert ItemsOf(g, m) == reasons + [it];
    StepsAppend(g, w, reasons, [it]);
    ReasoningHeld(g, w, m.reasoning, m.encrypted);
    StepsOne(g, Steps(g, w, reasons), it);
  }

  lemma CallTurnSteps(g: Rules, w: Walk, m: Message)
    requires Turn(g, m) && CallTurn(g, m) && w.reasoning == "" && w.encrypted == ""
    ensures Steps(g, w, ItemsOf(g, m)) ==
            Steps(g, w.(reasoning := m.reasoning, encrypted := m.encrypted), CallItems(g, m.calls))
  {
    var reasons := ReasoningItems(g, m.reasoning, m.encrypted);
    assert ItemsOf(g, m) == reasons + CallItems(g, m.calls);
    StepsAppend(g, w, reasons, CallItems(g, m.calls));
    ReasoningHeld(g, w, m.reasoning, m.encrypted);
  }

  lemma OpensSnoc(ms: seq<Message>, m: Message)
    ensures Opens(ms + [m]) <==> m.Assistant? && m.calls != []
    ensures Resting(ms + [m]) ==
            if m.Assistant? && m.calls != [] then Walk(ms, Some(m), "", "") else Walk(ms + [m], None, "", "")
  {
    assert (ms + [m])[..|ms|] == ms;
  }

  /** A turn that does not spoil anything comes through. */
  lemma TurnReturns(g: Rules, ms: seq<Message>, m: Message)
    requires Turn(g, m) && !Spoils(ms, m)
    ensures Steps(g, Resting(ms), ItemsOf(g, m)) == Resting(ms + [m])
  {
    RestingFlush(ms);
    OpensSnoc(ms, m);
    match m
    case User(c) =>
      ContentReturns(c);
      StepsOne(g, Resting(ms), MessageItem(UserRole, PartsOf(c)));
    case ToolReply(id, output) =>
      StepsOne(g, Resting(ms), OutputItem(Clamp(id), output));
    case Assistant(_, r, e, cs) =>
      if cs == [] {
        TextTurnSteps(g, Resting(ms), m);
      } else {
        CallTurnSteps(g, Resting(ms), m);
        CallsOpen(g, Resting(ms).(reasoning := r, encrypted := e), cs);
      }
  }

  // ----- Damage is final -----

  /** The walk has something else than the history at one place, or is about to. */
  ghost predicate Damaged(w: Walk, ms: seq<Message>, at: nat) {
    && at < |ms|
    && (|w.messages| > at ==> w.messages[at] != ms[at])
    && (|w.messages| <= at ==>
          && |w.messages| == at && w.current.Some? && w.current.value.Assistant?
          && ms[at].Assistant? && |w.current.value.calls| > |ms[at].calls|)
  }

  lemma StepKeepsDamage(g: Rules, w: Walk, it: Item, ms: seq<Message>, at: nat)
    requires Damaged(w, ms, at)
    ensures Damaged(Step(g, w, it), ms, at)
  {
    match it
    case MessageItem(_, _) => FlushKeepsDamage(w, ms, at);
    case DirectItem(_, _) => FlushKeepsDamage(w, ms, at);
    case OutputItem(_, _) => FlushKeepsDamage(w, ms, at);
    case CallItem(_) =>
    case ReasoningItem(_, _, _) =>
  }

  lemma FlushKeepsDamage(w: Walk, ms: seq<Message>, at: nat)
    requires Damaged(w, ms, at)
    ensures Damaged(Flush(w), ms, at) && |Flush(w).messages| > at
  {
  }

  lemma {:induction false} StepsKeepDamage(g: Rules, w: Walk, items: seq<Item>, ms: seq<Message>, at: nat)
    requires Damaged(w, ms, at)
    ensures Damaged(Steps(g, w, items), ms, at)
    decreases |items|
  {
    if items != [] {
      StepsKeepDamage(g, w, items[..|items| - 1], ms, at);
      StepKeepsDamage(g, Steps(g, w, items[..|items| - 1]), items[|items| - 1], ms, at);
    }
  }

  /** A spoiling turn damages its own place or the one before. */
  lemma TurnDamages(g: Rules, ms: seq<Message>, m: Message) returns (at: nat)
    requires Turn(g, m) && Spoils(ms, m)
    ensures Damaged(Steps(g, Resting(ms), ItemsOf(g, m)), ms + [m], at)
  {
    var w := Resting(ms);
    if m.calls == [] {
      at := |ms|;
      TextTurnSteps(g, w, m);
      TextLosesReasoning(ms, m);
    } else {
      at := |ms| - 1;
      CallTurnSteps(g, w, m);
      CallsJoin(g, w.(reasoning := m.reasoning, encrypted := m.encrypted), m.calls);
    }
  }

  lemma TextLosesReasoning(ms: seq<Message>, m: Message)
    requires Spoils(ms, m) && m.calls == []
    ensures var w := Resting(ms).(reasoning := m.reasoning, encrypted := m.encrypted);
            var r := AddMessage(w, AssistantRole, m.content);
            |r.messages| == |ms| + 1 && r.messages[|ms|] == Assistant(m.content, "", "", [])
            && m != Assistant(m.content, "", "", [])
  {
  }

  // ----- The round trip -----

  /** The walk over a whole history, turn by turn. */
  function Over(g: Rules, ms: seq<Message>): Walk {
    if ms == [] then Walk([], None, "", "")
    else if ms[|ms| - 1].System? then Walk(ms, None, "", "")
    else Steps(g, Over(g, ms[..|ms| - 1]), ItemsOf(g, ms[|ms| - 1]))
  }

  /** One optional leading system message, then turns. */
  predicate Orderly(g: Rules, ms: seq<Message>) {
    || ms == []
    || (Orderly(g, ms[..|ms| - 1]) && (Turn(g, ms[|ms| - 1]) || (|ms| == 1 && ms[0].System? && ms[0].text != "")))
  }

  /** No turn spoils where it stands. */
  predicate Clean(ms: seq<Message>) {
    ms == [] || (Clean(ms[..|ms| - 1]) && !Spoils(ms[..|ms| - 1], ms[|ms| - 1]))
  }

  lemma {:induction false} CleanWalk(g: Rules, ms: seq<Message>)
    requires Orderly(g, ms) && Clean(ms)
    ensures Over(g, ms) == Resting(ms)
  {
    if ms != [] && !ms[|ms| - 1].System? {
      CleanWalk(g, ms[..|ms| - 1]);
      TurnReturns(g, ms[..|ms| - 1], ms[|ms| - 1]);
      SplitLast(ms);
    }
  }

  /** Once a turn is spoilt, the walk stays damaged at one and the same place. */
  lemma {:induction false} SpoiltWalk(g: Rules, ms: seq<Message>) returns (at: nat)
    requires Orderly(g, ms) && !Clean(ms)
    ensures Damaged(Over(g, ms), ms, at)
  {
    var front, m := ms[..|ms| - 1], ms[|ms| - 1];
    SplitLast(ms);
    if Clean(front) {
      CleanWalk(g, front);
      at := TurnDamages(g, front, m);
    } else {
      at := SpoiltWalk(g, front);
      StepsKeepDamage(g, Over(g, front), ItemsOf(g, m), front, at);
      assert ms[at] == front[at];
    }
  }

  lemma TurnHasItems(g: Rules, m: Message)
    requires Turn(g, m)
    ensures ItemsOf(g, m) != []
  {
    if m.User? || (m.Assistant? && m.calls == []) {
      ContentReturns(m.content);
    }
  }

  /** Where the walk starts: at the leading system message, if there is one. */
  function Begin(ms: seq<Message>): Walk {
    Walk(if ms != [] && ms[0].System? then [ms[0]] else [], None, "", "")
  }

  lemma {:induction false} OverIsSteps(g: Rules, ms: seq<Message>)
    requires Orderly(g, ms) && ms != []
    ensures Over(g, ms) == Steps(g, Begin(ms), Input(g, ms))
    ensures Input(g, ms) != [] || (|ms| == 1 && ms[0].System?)
  {
    var front, m := ms[..|ms| - 1], ms[|ms| - 1];
    if m.System? {
      assert front == [] && ms == [m] && Input(g, ms) == [];
    } else {
      TurnHasItems(g, m);
      if front == [] {
        assert Input(g, ms) == ItemsOf(g, m);
      } else {
        OverIsSteps(g, front);
        StepsAppend(g, Begin(ms), Input(g, front), ItemsOf(g, m));
      }
    }
  }

  lemma {:induction false} InstructionsAre(g: Rules, ms: seq<Message>)
    requires Orderly(g, ms) && ms != []
    ensures Begin(ms).messages == if Instructions(ms) == "" then [] else [System(Instructions(ms))]
  {
    if !ms[0].System? {
      assert ms[0..] == ms;
      TurnsOnly(g, ms, 0);
    } else {
      FirstSystem(g, ms);
    }
  }

  lemma {:induction false} FirstSystem(g: Rules, ms: seq<Message>)
    requires Orderly(g, ms) && ms != [] && ms[0].System?
    ensures ms[0].text != ""
  {
    if |ms| > 1 {
      FirstSystem(g, ms[..|ms| - 1]);
    }
  }

  lemma {:induction false} LaterTurns(g: Rules, ms: seq<Message>, k: nat)
    requires Orderly(g, ms) && 0 < k < |ms|
    ensures Turn(g, ms[k])
    decreases |ms|
  {
    if k < |ms| - 1 {
      LaterTurns(g, ms[..|ms| - 1], k);
    }
  }

  lemma {:induction false} TurnsOnly(g: Rules, ms: seq<Message>, k: nat)
    requires Orderly(g, ms) && k <= |ms| && (ms != [] ==> !ms[0].System?)
    ensures Instructions(ms[k..]) == ""
    decreases |ms| - k
  {
    if k < |ms| {
      TurnsOnly(g, ms, k + 1);
      if k > 0 {
        LaterTurns(g, ms, k);
      }
      assert ms[k..][1..] == ms[k + 1..] && !ms[k].System?;
    }
  }

  /** A history of one optional system message and at least one turn. */
  predicate Canonical(g: Rules, ms: seq<Message>) {
    Orderly(g, ms) && ms != [] && (|ms| == 1 ==> !ms[0].System?)
  }

  /** A canonical history comes back as it was exactly when no text turn carries encrypted reasoning
      alone and no assistant turn with calls or reasoning stands right behind a call turn. */
  lemma RoundTripExact(g: Rules, ms: seq<Message>)
    requires Canonical(g, ms)
    ensures RoundTrip(g, ms) == ms <==> Clean(ms)
  {
    OverIsSteps(g, ms);
    InstructionsAre(g, ms);
    assert RoundTrip(g, ms) == Flush(Over(g, ms)).messages;
    if Clean(ms) {
      CleanWalk(g, ms);
      RestingFlush(ms);
    } else {
      var at := SpoiltWalk(g, ms);
      FlushKeepsDamage(Over(g, ms), ms, at);
    }
  }

  /** Every call turn is followed by a tool reply, and encrypted reasoning comes with reasoning. */
  predicate Replied(ms: seq<Message>) {
    ms == [] ||
    var front, m := ms[..|ms| - 1], ms[|ms| - 1];
    Replied(front) && (Opens(front) ==> m.ToolReply?) && (TextTurn(m) && m.encrypted != "" ==> m.reasoning != "")
  }

  lemma {:induction false} RepliedIsClean(g: Rules, ms: seq<Message>)
    requires Orderly(g, ms) && Replied(ms)
    ensures Clean(ms)
  {
    if ms != [] {
      RepliedIsClean(g, ms[..|ms| - 1]);
    }
  }

  /** In particular, histories in which call turns are replied to come back as they were. */
  lemma RepliedHistoriesReturn(g: Rules, ms: seq<Message>)
    requires Canonical(g, ms) && Replied(ms)
    ensures RoundTrip(g, ms) == ms
  {
    RepliedIsClean(g, ms);
    RoundTripExact(g, ms);
  }

  // ----- The two loops -----

  method FromOpenAI(g: Rules, ms: seq<Message>) returns (instructions: string, input: seq<Item>)
    ensures instructions == Instructions(ms) && input == Input(g, ms)
  {
    instructions, input := "", [];
    var hasSystem := false;
    for i := 0 to |ms|
      invariant input == Input(g, ms[..i])
      invariant Instructions(ms) == if hasSystem then instructions else Instructions(ms[i..])
      invariant !hasSystem ==> instructions == ""
    {
      var m := ms[i];
      assert ms[..i + 1][..i] == ms[..i] && ms[i..][0] == m && ms[i..][1..] == ms[i + 1..];
      if m.System? {
        if !hasSystem {
          instructions, hasSystem := m.text, true;
        }
        assert input + [] == input;
      } else {
        input := input + ItemsOf(g, m);
      }
    }
    assert ms[..|ms|] == ms && ms[|ms|..] == [];
  }

  lemma StepsOn(g: Rules, w: Walk, items: seq<Item>, i: nat)
    requires i < |items|
    ensures Steps(g, w, items[..i + 1]) == Step(g, Steps(g, w, items[..i]), items[i])
  {
    assert items[..i + 1][..i] == items[..i];
  }

  /** The body of the loop over input items. */
  method TakeItem(g: Rules, w: Walk, it: Item) returns (next: Walk)
    ensures next == Step(g, w, it)
  {
    match it
    case CallItem(c) =>
      next := AddCall(g, w, c);
    case ReasoningItem(summary, texts, e) =>
      var text := Extracted(summary, texts);
      next := w;
      if text != "" {
        next := next.(reasoning := if w.reasoning != "" then w.reasoning + "\n" + text else text);
      }
      if e != "" {
        next := next.(encrypted := e);
      }
    case OutputItem(id, output) =>
      next := Flush(w);
      next := next.(messages := next.messages + [ToolReply(Clamp(id), output)]);
    case MessageItem(role, ps) =>
      next := AddMessage(w, role, Incoming(ps));
    case DirectItem(role, content) =>
      next := AddMessage(w, role, content);
  }

  method ToChat(g: Rules, instructions: string, input: seq<Item>) returns (messages: seq<Message>)
    ensures messages == ToOpenAI(g, instructions, input)
  {
    var items := if input == [] then EmptyInput else input;
    messages := if instructions == "" then [] else [System(instructions)];
    var current: Option<Message>, reasoning, encrypted := None, "", "";
    ghost var start := Walk(messages, None, "", "");
    for i := 0 to |items|
      invariant Walk(messages, current, reasoning, encrypted) == Steps(g, start, items[..i])
    {
      StepsOn(g, start, items, i);
      var next := TakeItem(g, Walk(messages, current, reasoning, encrypted), items[i]);
      messages, current, reasoning, encrypted := next.messages, next.current, next.reasoning, next.encrypted;
    }
    assert items[..|items|] == items;
    messages := Flush(Walk(messages, current, reasoning, encrypted)).messages;
  }
}
