/** Parallel tool calls of a Responses stream, mapped to OpenAI tool indexes
    (`ResponsesEventToOpenAI` and `respToolIndex` in internal/translate/responses/stream.go). */
module ResponsesDemux {
  import opened Basics

  /** The keys an event carries for its call; "" and None are absent. */
  datatype Keys = Keys(item: string, output: Option<int>, call: string)

  datatype Index = Index(next: nat, byItem: map<string, nat>, byOutput: map<int, nat>, byCall: map<string, nat>)

  const NoCalls: Index := Index(0, map[], map[], map[])

  function Bind(m: Index, k: Keys, i: nat): Index {
    m.(byItem := if k.item != "" then m.byItem[k.item := i] else m.byItem,
       byOutput := if k.output.Some? then m.byOutput[k.output.value := i] else m.byOutput,
       byCall := if k.call != "" then m.byCall[k.call := i] else m.byCall)
  }

  /** The index already known for an event: by item, else by output position, else by call. */
  function Known(m: Index, k: Keys): Option<nat> {
    if k.item != "" && k.item in m.byItem then Some(m.byItem[k.item])
    else if k.output.Some? && k.output.value in m.byOutput then Some(m.byOutput[k.output.value])
    else if k.call != "" && k.call in m.byCall then Some(m.byCall[k.call])
    else None
  }

  /** `respToolIndex` with creation: the index and the mapping afterwards. */
  function Resolve(m: Index, k: Keys): (Index, nat) {
    match Known(m, k)
    case Some(i) => (if k.item != "" && k.item in m.byItem then m else Bind(m, k, i), i)
    case None => (Bind(m, k, m.next).(next := m.next + 1), m.next)
  }

  /** No item or output position is ever bound anew, for any events at all; a call id is exactly when
      its event has an unknown item and an output position that belongs to another index. */
  lemma BindingsStay(m: Index, k: Keys)
    ensures var n := Resolve(m, k).0;
            && (forall x :: x in m.byItem ==> x in n.byItem && n.byItem[x] == m.byItem[x])
            && (forall x :: x in m.byOutput ==> x in n.byOutput && n.byOutput[x] == m.byOutput[x])
            && (forall x :: x in m.byCall ==> x in n.byCall && (n.byCall[x] == m.byCall[x] <==> !Rebinds(m, k, x)))
            && n.next == m.next + if Known(m, k).None? then 1 else 0
  {
  }

  predicate Rebinds(m: Index, k: Keys, call: string)
    requires call in m.byCall
  {
    && k.call == call != "" && !(k.item != "" && k.item in m.byItem)
    && k.output.Some? && k.output.value in m.byOutput && m.byOutput[k.output.value] != m.byCall[call]
  }

  // ----- Events -----

  /** Events of the calls, each naming the call it belongs to (`of`, which the translator does not
      see), prose, and the ends of a response. */
  datatype Event =
    | Added(of: nat, keys: Keys, name: string)
    | Delta(of: nat, keys: Keys, text: string)
    | Sealed(of: nat, keys: Keys)
    | Prose(text: string, reasoning: bool)
    | Completed
    | Failed(message: string)

  datatype Chunk =
    | Start(index: nat, id: string, name: string)
    | Args(index: nat, text: string)
    | Said(text: string, reasoning: bool)
    | Finish(reason: string, content: string)

  predicate OfCall(e: Event) {
    e.Added? || e.Delta? || e.Sealed?
  }

  predicate Ends(e: Event) {
    e.Completed? || e.Failed?
  }

  /** The chunk that ends the stream; a failure is told in its content. */
  function Ending(e: Event, metCall: bool): Chunk {
    if e.Failed? then Finish("stop", "[Error] " + if e.message == "" then "upstream error" else e.message)
    else Finish(if metCall then "tool_calls" else "stop", "")
  }

  datatype State = State(index: Index, finishSent: bool)

  /** What an event of the call at index `i` is told to the client; `generated` stands for "call_%d". */
  function Emitted(e: Event, i: nat, generated: nat -> string): seq<Chunk> {
    match e
    case Added(_, k, name) => [Start(i, if k.call == "" then generated(i) else k.call, name)]
    case Delta(_, _, text) => [Args(i, text)]
    case _ => []
  }

  predicate Ignored(e: Event) {
    e.Delta? && e.text == ""
  }

  /** An event that concerns no call. */
  predicate Beside(e: Event) {
    !OfCall(e) || Ignored(e)
  }

  function Step(s: State, e: Event, generated: nat -> string): (State, seq<Chunk>) {
    if Ends(e) then
      if s.finishSent then (s, []) else (s.(finishSent := true), [Ending(e, s.index.next > 0)])
    else if e.Prose? then (s, if e.text == "" then [] else [Said(e.text, e.reasoning)])
    else if Ignored(e) then (s, [])
    else
      var (m, i) := Resolve(s.index, e.keys);
      (s.(index := m), Emitted(e, i, generated))
  }

  datatype Ran = Ran(state: State, out: seq<Chunk>)

  function Run(es: seq<Event>, generated: nat -> string): Ran {
    if es == [] then Ran(State(NoCalls, false), []) else
      var before := Run(es[..|es| - 1], generated);
      var (s, out) := Step(before.state, es[|es| - 1], generated);
      Ran(s, before.out + out)
  }

  // ----- Calls with distinct keys -----

  /** The full keys of every call. */
  type Naming = nat -> Keys

  /** Different calls share no key. */
  ghost predicate Apart(full: Naming) {
    forall x, y :: x != y ==>
      && (full(x).item != "" ==> full(x).item != full(y).item)
      && (full(x).output.Some? ==> full(x).output != full(y).output)
      && (full(x).call != "" ==> full(x).call != full(y).call)
  }

  predicate PartOf(k: Keys, full: Keys) {
    && (k.item != "" ==> k.item == full.item)
    && (k.output.Some? ==> k.output == full.output)
    && (k.call != "" ==> k.call == full.call)
    && (k.item != "" || k.output.Some? || k.call != "")
  }

  /** The calls of a run in the order of their added events. */
  function Order(es: seq<Event>): seq<nat> {
    if es == [] then [] else
      var before, e := Order(es[..|es| - 1]), es[|es| - 1];
      if e.Added? && e.of !in before then before + [e.of] else before
  }

  /** Every event carries keys of its call and no others; a call's first event is its added event,
      which carries all of them. */
  predicate Orderly(full: Naming, es: seq<Event>) {
    if es == [] then true else
      var before, e := es[..|es| - 1], es[|es| - 1];
      && Orderly(full, before)
      && (!OfCall(e) || (PartOf(e.keys, full(e.of)) && (e.of in Order(before) || (e.Added? && e.keys == full(e.of)))))
  }

  /** The mapping holds exactly the keys of the calls seen, each under its place in the order. */
  ghost predicate Indexed(m: Index, full: Naming, order: seq<nat>) {
    && m.next == |order|
    && (forall i, j :: 0 <= i < j < |order| ==> order[i] != order[j])
    && (forall i :: 0 <= i < |order| ==> Holds(m, full(order[i]), i))
    && (forall k :: k in m.byItem ==> exists x :: x in order && full(x).item == k && k != "")
    && (forall k :: k in m.byOutput ==> exists x :: x in order && full(x).output == Some(k))
    && (forall k :: k in m.byCall ==> exists x :: x in order && full(x).call == k && k != "")
  }

  predicate Holds(m: Index, k: Keys, i: nat) {
    && (k.item != "" ==> k.item in m.byItem && m.byItem[k.item] == i)
    && (k.output.Some? ==> k.output.value in m.byOutput && m.byOutput[k.output.value] == i)
    && (k.call != "" ==> k.call in m.byCall && m.byCall[k.call] == i)
  }

  function Place(order: seq<nat>, x: nat): (i: nat)
    requires x in order
    ensures i < |order| && order[i] == x
  {
    if order[0] == x then 0 else 1 + Place(order[1..], x)
  }

  /** A call seen before resolves to its place and leaves the mapping as it is. */
  lemma ResolveSeen(m: Index, full: Naming, order: seq<nat>, x: nat, k: Keys)
    requires Indexed(m, full, order) && x in order && PartOf(k, full(x))
    ensures Resolve(m, k) == (m, Place(order, x))
  {
    var i := Place(order, x);
    assert Holds(m, full(order[i]), i);
    ResolveHeld(m, k, full(x), i);
  }

  lemma ResolveHeld(m: Index, k: Keys, all: Keys, i: nat)
    requires Holds(m, all, i) && PartOf(k, all)
    ensures Resolve(m, k) == (m, i)
  {
    assert Known(m, k) == Some(i);
    assert Bind(m, k, i) == m;
  }

  /** A new call resolves to the next index and is bound under all its keys. */
  lemma ResolveNew(m: Index, full: Naming, order: seq<nat>, x: nat)
    requires Apart(full) && Indexed(m, full, order) && x !in order
    ensures Resolve(m, full(x)).1 == |order| && Indexed(Resolve(m, full(x)).0, full, order + [x])
  {
    var k, n := full(x), Resolve(m, full(x)).0;
    assert Known(m, k).None? by {
      NotBound(m, full, order, x);
    }
    var longer := order + [x];
    forall i | 0 <= i < |longer| ensures Holds(n, full(longer[i]), i) {
      if i < |order| {
        assert Holds(m, full(order[i]), i) && order[i] in order;
      }
    }
    forall y | y in n.byItem ensures exists z :: z in longer && full(z).item == y && y != "" {
      if y in m.byItem {
        var z :| z in order && full(z).item == y && y != "";
        assert z in longer;
      } else {
        assert x in longer;
      }
    }
    forall y | y in n.byOutput ensures exists z :: z in longer && full(z).output == Some(y) {
      if y in m.byOutput {
        var z :| z in order && full(z).output == Some(y);
        assert z in longer;
      } else {
        assert x in longer;
      }
    }
    forall y | y in n.byCall ensures exists z :: z in longer && full(z).call == y && y != "" {
      if y in m.byCall {
        var z :| z in order && full(z).call == y && y != "";
        assert z in longer;
      } else {
        assert x in longer;
      }
    }
  }

  lemma NotBound(m: Index, full: Naming, order: seq<nat>, x: nat)
    requires Apart(full) && Indexed(m, full, order) && x !in order
    ensures full(x).item !in m.byItem && full(x).call !in m.byCall
    ensures full(x).output.Some? ==> full(x).output.value !in m.byOutput
  {
    forall z | z in order
      ensures full(x).item != "" ==> full(z).item != full(x).item
      ensures full(x).call != "" ==> full(z).call != full(x).call
      ensures full(x).output.Some? ==> full(z).output != full(x).output
    {
      assert z != x;
    }
    if full(x).output.Some? {
      var k := full(x).output.value;
      assert forall z :: z in order ==> full(z).output != Some(k);
    }
  }

  // ----- What the client gets -----

  /** The texts a call's deltas carry, in order. */
  function TextsOf(es: seq<Event>, x: nat): seq<string> {
    if es == [] then [] else
      var e := es[|es| - 1];
      TextsOf(es[..|es| - 1], x) + if e.Delta? && e.of == x && e.text != "" then [e.text] else []
  }

  /** The texts sent under an index, in order. */
  function SentUnder(out: seq<Chunk>, i: nat): seq<string> {
    if out == [] then [] else
      var c := out[|out| - 1];
      SentUnder(out[..|out| - 1], i) + if c.Args? && c.index == i then [c.text] else []
  }

  /** The names announced for a call, and under an index. */
  function NamesOf(es: seq<Event>, x: nat): seq<string> {
    if es == [] then [] else
      var e := es[|es| - 1];
      NamesOf(es[..|es| - 1], x) + if e.Added? && e.of == x then [e.name] else []
  }

  function StartedUnder(out: seq<Chunk>, i: nat): seq<string> {
    if out == [] then [] else
      var c := out[|out| - 1];
      StartedUnder(out[..|out| - 1], i) + if c.Start? && c.index == i then [c.name] else []
  }

  function FinishesIn(out: seq<Chunk>): seq<Chunk> {
    if out == [] then [] else
      var c := out[|out| - 1];
      FinishesIn(out[..|out| - 1]) + if c.Finish? then [c] else []
  }

  lemma OutSnoc(out: seq<Chunk>, c: Chunk, i: nat)
    ensures SentUnder(out + [c], i) == SentUnder(out, i) + if c.Args? && c.index == i then [c.text] else []
    ensures StartedUnder(out + [c], i) == StartedUnder(out, i) + if c.Start? && c.index == i then [c.name] else []
    ensures FinishesIn(out + [c]) == FinishesIn(out) + if c.Finish? then [c] else []
  {
    assert (out + [c])[..|out|] == out;
  }

  /** The mapping of an event, and the order after it. */
  lemma EventIndexed(m: Index, full: Naming, es: seq<Event>)
    requires Apart(full) && es != [] && Orderly(full, es) && OfCall(es[|es| - 1])
    requires Indexed(m, full, Order(es[..|es| - 1]))
    ensures var e := es[|es| - 1];
            && Indexed(Resolve(m, e.keys).0, full, Order(es))
            && Resolve(m, e.keys).1 < |Order(es)| && Order(es)[Resolve(m, e.keys).1] == e.of
            && Order(es[..|es| - 1]) <= Order(es) && e.of in Order(es)
  {
    var e, before := es[|es| - 1], Order(es[..|es| - 1]);
    if e.of in before {
      ResolveSeen(m, full, before, e.of, e.keys);
    } else {
      ResolveNew(m, full, before, e.of);
    }
  }

  /** Under each index go the texts and the name of the call at that place in the order. */
  ghost predicate Carries(out: seq<Chunk>, es: seq<Event>) {
    var order := Order(es);
    && (forall i: nat :: i < |order| ==>
        SentUnder(out, i) == TextsOf(es, order[i]) && StartedUnder(out, i) == NamesOf(es, order[i]))
    && (forall i: nat :: i >= |order| ==> SentUnder(out, i) == [] && StartedUnder(out, i) == [])
  }

  ghost predicate Demuxed(r: Ran, full: Naming, es: seq<Event>) {
    Indexed(r.state.index, full, Order(es)) && Carries(r.out, es)
  }

  /** A call that has not been added yet has sent nothing. */
  lemma {:induction false} UnseenIsSilent(full: Naming, es: seq<Event>, x: nat)
    requires Orderly(full, es) && x !in Order(es)
    ensures TextsOf(es, x) == [] && NamesOf(es, x) == []
  {
    if es != [] {
      UnseenIsSilent(full, es[..|es| - 1], x);
    }
  }

  /** What an event adds under an index. */
  lemma EventSends(out: seq<Chunk>, e: Event, c: nat, i: nat, generated: nat -> string)
    requires !Beside(e)
    ensures var all := out + Emitted(e, c, generated);
            && SentUnder(all, i) == SentUnder(out, i) + (if i == c && e.Delta? then [e.text] else [])
            && StartedUnder(all, i) == StartedUnder(out, i) + (if i == c && e.Added? then [e.name] else [])
  {
    if e.Sealed? {
      assert out + [] == out;
    } else {
      OutSnoc(out, Emitted(e, c, generated)[0], i);
    }
  }

  /** One event more. */
  lemma RunOn(es: seq<Event>, generated: nat -> string)
    requires es != []
    ensures var r, t := Run(es[..|es| - 1], generated), Run(es, generated);
            var (s, more) := Step(r.state, es[|es| - 1], generated); t.state == s && t.out == r.out + more
  {
  }

  /** An event of no call, or an empty delta, sends nothing under any index. */
  lemma BesideSends(s: State, e: Event, generated: nat -> string, out: seq<Chunk>, i: nat)
    requires Beside(e)
    ensures var (t, more) := Step(s, e, generated);
            && t.index == s.index
            && SentUnder(out + more, i) == SentUnder(out, i) && StartedUnder(out + more, i) == StartedUnder(out, i)
  {
    var more := Step(s, e, generated).1;
    if more == [] {
      assert out + more == out;
    } else {
      assert more == [more[0]];
      OutSnoc(out, more[0], i);
    }
  }

  lemma BesideReads(es: seq<Event>)
    requires es != [] && Beside(es[|es| - 1])
    ensures Order(es) == Order(es[..|es| - 1])
    ensures forall x :: TextsOf(es, x) == TextsOf(es[..|es| - 1], x) && NamesOf(es, x) == NamesOf(es[..|es| - 1], x)
  {
    forall x ensures TextsOf(es, x) == TextsOf(es[..|es| - 1], x) && NamesOf(es, x) == NamesOf(es[..|es| - 1], x) {
    }
  }

  lemma BesideDemuxed(full: Naming, es: seq<Event>, generated: nat -> string)
    requires es != [] && Beside(es[|es| - 1]) && Demuxed(Run(es[..|es| - 1], generated), full, es[..|es| - 1])
    ensures Demuxed(Run(es, generated), full, es)
  {
    var r, t, e := Run(es[..|es| - 1], generated), Run(es, generated), es[|es| - 1];
    RunOn(es, generated);
    BesideReads(es);
    BesideSends(r.state, e, generated, r.out, 0);
    forall i: nat
      ensures SentUnder(t.out, i) == SentUnder(r.out, i) && StartedUnder(t.out, i) == StartedUnder(r.out, i)
    {
      BesideSends(r.state, e, generated, r.out, i);
    }
    CarriesOn(r.out, t.out, es);
  }

  lemma CarriesOn(was: seq<Chunk>, out: seq<Chunk>, es: seq<Event>)
    requires es != [] && Beside(es[|es| - 1]) && Carries(was, es[..|es| - 1])
    requires forall i: nat :: SentUnder(out, i) == SentUnder(was, i) && StartedUnder(out, i) == StartedUnder(was, i)
    ensures Carries(out, es)
  {
    BesideReads(es);
  }

  lemma EventDemuxed(full: Naming, es: seq<Event>, generated: nat -> string)
    requires Apart(full) && es != [] && Orderly(full, es) && !Beside(es[|es| - 1])
    requires Demuxed(Run(es[..|es| - 1], generated), full, es[..|es| - 1])
    ensures Demuxed(Run(es, generated), full, es)
  {
    var r := Run(es[..|es| - 1], generated);
    EventIndexed(r.state.index, full, es);
    IndexOn(es, generated);
    EventCarried(r, full, es, generated);
  }

  lemma IndexOn(es: seq<Event>, generated: nat -> string)
    requires es != [] && !Beside(es[|es| - 1])
    ensures Run(es, generated).state.index == Resolve(Run(es[..|es| - 1], generated).state.index, es[|es| - 1].keys).0
  {
    RunOn(es, generated);
  }

  lemma EventCarried(r: Ran, full: Naming, es: seq<Event>, generated: nat -> string)
    requires Apart(full) && es != [] && Orderly(full, es) && !Beside(es[|es| - 1])
    requires r == Run(es[..|es| - 1], generated) && Demuxed(r, full, es[..|es| - 1])
    ensures Carries(Run(es, generated).out, es)
  {
    var t, order := Run(es, generated), Order(es);
    forall i: nat
      ensures i < |order| ==>
              SentUnder(t.out, i) == TextsOf(es, order[i]) && StartedUnder(t.out, i) == NamesOf(es, order[i])
      ensures i >= |order| ==> SentUnder(t.out, i) == [] && StartedUnder(t.out, i) == []
    {
      UnderIndex(r, full, es, generated, i);
    }
  }

  lemma UnderIndex(r: Ran, full: Naming, es: seq<Event>, generated: nat -> string, i: nat)
    requires Apart(full) && es != [] && Orderly(full, es) && !Beside(es[|es| - 1])
    requires r == Run(es[..|es| - 1], generated) && Demuxed(r, full, es[..|es| - 1])
    ensures var out, order := Run(es, generated).out, Order(es);
            && (i < |order| ==>
                SentUnder(out, i) == TextsOf(es, order[i]) && StartedUnder(out, i) == NamesOf(es, order[i]))
            && (i >= |order| ==> SentUnder(out, i) == [] && StartedUnder(out, i) == [])
  {
    var front, order := es[..|es| - 1], Order(es);
    EventPlaced(r.state.index, full, es, i);
    if |Order(front)| <= i < |order| {
      UnseenIsSilent(full, front, order[i]);
    }
    UnderPlaced(r, es, generated, i);
  }

  lemma UnderPlaced(r: Ran, es: seq<Event>, generated: nat -> string, i: nat)
    requires es != [] && !Beside(es[|es| - 1]) && r == Run(es[..|es| - 1], generated)
    requires Carries(r.out, es[..|es| - 1]) && Order(es[..|es| - 1]) <= Order(es)
    requires var order := Order(es);
             && (i == Resolve(r.state.index, es[|es| - 1].keys).1 <==> i < |order| && order[i] == es[|es| - 1].of)
             && (|Order(es[..|es| - 1])| <= i < |order| ==>
                   TextsOf(es[..|es| - 1], order[i]) == [] && NamesOf(es[..|es| - 1], order[i]) == [])
    ensures var out, order := Run(es, generated).out, Order(es);
            && (i < |order| ==>
                SentUnder(out, i) == TextsOf(es, order[i]) && StartedUnder(out, i) == NamesOf(es, order[i]))
            && (i >= |order| ==> SentUnder(out, i) == [] && StartedUnder(out, i) == [])
  {
    SentOn(r, es, generated, i);
    var before, order := Order(es[..|es| - 1]), Order(es);
    if i < |before| {
      assert order[i] == before[i];
    }
  }

  /** The place of an event's call in the order. */
  lemma EventPlaced(m: Index, full: Naming, es: seq<Event>, i: nat)
    requires Apart(full) && es != [] && Orderly(full, es) && OfCall(es[|es| - 1])
    requires Indexed(m, full, Order(es[..|es| - 1]))
    ensures var e, before, order := es[|es| - 1], Order(es[..|es| - 1]), Order(es);
            && before <= order && (|before| <= i < |order| ==> order[i] !in before)
            && (i == Resolve(m, e.keys).1 <==> i < |order| && order[i] == e.of)
  {
    EventIndexed(m, full, es);
  }

  lemma SentOn(r: Ran, es: seq<Event>, generated: nat -> string, i: nat)
    requires es != [] && !Beside(es[|es| - 1]) && r == Run(es[..|es| - 1], generated)
    ensures var e, out := es[|es| - 1], Run(es, generated).out;
            var here := i == Resolve(r.state.index, e.keys).1;
            && SentUnder(out, i) == SentUnder(r.out, i) + (if here && e.Delta? then [e.text] else [])
            && StartedUnder(out, i) == StartedUnder(r.out, i) + (if here && e.Added? then [e.name] else [])
  {
    var e := es[|es| - 1];
    EventSends(r.out, e, Resolve(r.state.index, e.keys).1, i, generated);
    RunOn(es, generated);
  }

  /** For every interleaving of the events of calls with distinct keys: calls get the indexes 0, 1, 2, …
      in the order they appear, and under each index go exactly its own call's argument texts, in order. */
  lemma {:induction false} DeltasStayApart(full: Naming, es: seq<Event>, generated: nat -> string)
    requires Apart(full) && Orderly(full, es)
    ensures Demuxed(Run(es, generated), full, es)
  {
    if es != [] {
      DeltasStayApart(full, es[..|es| - 1], generated);
      if Beside(es[|es| - 1]) {
        BesideDemuxed(full, es, generated);
      } else {
        EventDemuxed(full, es, generated);
      }
    }
  }

  /** Whether the translator has met a call. */
  predicate MetCall(es: seq<Event>) {
    exists e :: e in es && OfCall(e) && !Ignored(e)
  }

  predicate HasEnd(es: seq<Event>) {
    exists e :: e in es && Ends(e)
  }

  /** What a run owes its client at its first end, and nothing before or after it. */
  function Endings(es: seq<Event>): seq<Chunk> {
    if es == [] then [] else
      var front, e := es[..|es| - 1], es[|es| - 1];
      if Ends(e) && !HasEnd(front) then [Ending(e, MetCall(front))] else Endings(front)
  }

  /** Indexes are given out from the first call on, and nothing is bound before it. */
  lemma {:induction false} CallsAreCounted(es: seq<Event>, generated: nat -> string)
    ensures var m := Run(es, generated).state.index; m.next > 0 <==> MetCall(es)
    ensures var m := Run(es, generated).state.index; m.next == 0 ==> m == NoCalls
  {
    if es != [] {
      var front, e := es[..|es| - 1], es[|es| - 1];
      CallsAreCounted(front, generated);
      SplitLast(es);
      assert MetCall(es) <==> MetCall(front) || (OfCall(e) && !Ignored(e)) by {
        assert forall x :: x in es <==> x in front || x == e;
      }
      if OfCall(e) && !Ignored(e) {
        BindingsStay(Run(front, generated).state.index, e.keys);
      }
    }
  }

  lemma StepEnds(s: State, e: Event, generated: nat -> string, out: seq<Chunk>)
    ensures var (t, more) := Step(s, e, generated);
            && t.finishSent == (s.finishSent || Ends(e))
            && FinishesIn(out + more) ==
               FinishesIn(out) + if Ends(e) && !s.finishSent then [Ending(e, s.index.next > 0)] else []
  {
    var more := Step(s, e, generated).1;
    if more == [] {
      assert out + more == out && FinishesIn(out) + [] == FinishesIn(out);
    } else {
      assert more == [more[0]];
      OutSnoc(out, more[0], 0);
    }
  }

  /** The client gets one finish chunk, at the first end of the response, however it ends; a completion
      announces tool calls exactly when some call event came before it. */
  lemma {:induction false} FinishedOnce(es: seq<Event>, generated: nat -> string)
    ensures var r := Run(es, generated);
            && (HasEnd(es) <==> r.state.finishSent) && FinishesIn(r.out) == Endings(es)
            && |Endings(es)| == (if HasEnd(es) then 1 else 0)
  {
    if es != [] {
      var front, e := es[..|es| - 1], es[|es| - 1];
      var r := Run(front, generated);
      FinishedOnce(front, generated);
      CallsAreCounted(front, generated);
      RunOn(es, generated);
      StepEnds(r.state, e, generated, r.out);
      SplitLast(es);
      assert HasEnd(es) <==> HasEnd(front) || Ends(e) by {
        assert forall x :: x in es <==> x in front || x == e;
      }
    }
  }

  // ----- Bindings over a run -----

  ghost predicate Keeps(m: Index, n: Index) {
    && (forall x :: x in m.byItem ==> x in n.byItem && n.byItem[x] == m.byItem[x])
    && (forall x :: x in m.byOutput ==> x in n.byOutput && n.byOutput[x] == m.byOutput[x])
    && (forall x :: x in m.byCall ==> x in n.byCall)
  }

  /** For any events at all, an item or output position once bound keeps its index for the rest of the
      run, and a call stays bound. */
  lemma {:induction false} BindingsPersist(es: seq<Event>, k: nat, generated: nat -> string)
    requires k <= |es|
    ensures Keeps(Run(es[..k], generated).state.index, Run(es, generated).state.index)
    decreases |es|
  {
    if k == |es| {
      assert es[..k] == es;
    } else {
      var front := es[..|es| - 1];
      BindingsPersist(front, k, generated);
      assert front[..k] == es[..k];
      if OfCall(es[|es| - 1]) {
        BindingsStay(Run(front, generated).state.index, es[|es| - 1].keys);
      }
    }
  }

  /** A run in which a call is rebound: it reappears under a new item at another call's position. */
  function Rebinding(): seq<Event> {
    [Added(0, Keys("a", None, "x"), ""), Added(1, Keys("b", Some(0), ""), ""), Added(0, Keys("c", Some(0), "x"), "")]
  }

  lemma CallRebound(generated: nat -> string)
    ensures var before, after := Run(Rebinding()[..2], generated).state.index, Run(Rebinding(), generated).state.index;
            "x" in before.byCall && before.byCall["x"] == 0 && "x" in after.byCall && after.byCall["x"] == 1
  {
    var es := Rebinding();
    assert es[..2] == [es[0], es[1]] && es[..2][..1] == [es[0]] && [es[0]][..0] == [];
    var none := Run([], generated).state.index;
    assert none == NoCalls;
    var one := Run([es[0]], generated).state.index;
    assert one == Index(1, map["a" := 0], map[], map["x" := 0]);
    var two := Run(es[..2], generated).state.index;
    assert two == Index(2, map["a" := 0, "b" := 1], map[0 := 1], map["x" := 0]);
    assert es[2].keys.item !in two.byItem;
  }

  // ----- The translator -----

  class ToolIndex {
    var toolCallIndex: nat
    var byItem: map<string, nat>
    var byOutput: map<int, nat>
    var byCall: map<string, nat>
    var finishSent: bool

    ghost function View(): State
      reads this
    {
      State(Index(toolCallIndex, byItem, byOutput, byCall), finishSent)
    }

    constructor ()
      ensures View() == State(NoCalls, false)
    {
      toolCallIndex, byItem, byOutput, byCall, finishSent := 0, map[], map[], map[], false;
    }

    method RespToolIndex(k: Keys) returns (i: nat)
      modifies this`toolCallIndex, this`byItem, this`byOutput, this`byCall
      ensures (View().index, i) == Resolve(old(View()).index, k)
    {
      if k.item != "" && k.item in byItem {
        return byItem[k.item];
      }
      if k.output.Some? && k.output.value in byOutput {
        i := byOutput[k.output.value];
        byItem := if k.item != "" then byItem[k.item := i] else byItem;
        byCall := if k.call != "" then byCall[k.call := i] else byCall;
        assert byOutput[k.output.value := i] == byOutput;
        return;
      }
      if k.call != "" && k.call in byCall {
        i := byCall[k.call];
        byItem := if k.item != "" then byItem[k.item := i] else byItem;
        byOutput := if k.output.Some? then byOutput[k.output.value := i] else byOutput;
        assert byCall[k.call := i] == byCall;
        return;
      }
      i := toolCallIndex;
      toolCallIndex := toolCallIndex + 1;
      byItem := if k.item != "" then byItem[k.item := i] else byItem;
      byOutput := if k.output.Some? then byOutput[k.output.value := i] else byOutput;
      byCall := if k.call != "" then byCall[k.call := i] else byCall;
    }

    method OnEvent(e: Event, generated: nat -> string) returns (out: seq<Chunk>)
      modifies this
      ensures (View(), out) == Step(old(View()), e, generated)
    {
      out := [];
      match e
      case Added(_, k, name) =>
        var i := RespToolIndex(k);
        out := [Start(i, if k.call == "" then generated(i) else k.call, name)];
      case Delta(_, k, text) =>
        if text != "" {
          var i := RespToolIndex(k);
          out := [Args(i, text)];
        }
      case Sealed(_, k) =>
        var i := RespToolIndex(k);
      case Prose(text, reasoning) =>
        if text != "" {
          out := [Said(text, reasoning)];
        }
      case Completed =>
        if !finishSent {
          finishSent := true;
          out := [Finish(if toolCallIndex > 0 then "tool_calls" else "stop", "")];
        }
      case Failed(message) =>
        if !finishSent {
          finishSent := true;
          out := [Finish("stop", "[Error] " + if message == "" then "upstream error" else message)];
        }
    }
  }
}
