/** Recovery of tool calls that an upstream leaked into assistant text
    (internal/translate/claude/orphan_invoke.go). The regular expressions are parameters; a
    match is a nonempty span inside the text that was searched. */
module OrphanInvoke {
  import opened Basics

  datatype OpenTag = OpenTag(start: nat, end: nat, name: string)

  datatype CloseTag = CloseTag(start: nat, end: nat)

  datatype Scanner = Scanner(
    findOpen: string -> Option<OpenTag>,
    findClose: string -> Option<CloseTag>,
    paramsToJson: string -> string)

  /** A search result; a regular expression only ever reports a nonempty span inside the text. */
  function FindOpen(sc: Scanner, s: string): (o: Option<OpenTag>)
    ensures o.Some? ==> o.value.start < o.value.end <= |s|
  {
    var o := sc.findOpen(s);
    if o.Some? && o.value.start < o.value.end <= |s| then o else None
  }

  function FindClose(sc: Scanner, s: string): (k: Option<CloseTag>)
    ensures k.Some? ==> k.value.start < k.value.end <= |s|
  {
    var k := sc.findClose(s);
    if k.Some? && k.value.start < k.value.end <= |s| then k else None
  }

  datatype Call = Call(name: string, input: string)

  datatype Extraction = Extraction(prose: string, calls: seq<Call>, rest: string)

  /** The complete invoke blocks of `text`, left to right, and how much of it they use up. */
  datatype Blocks = Blocks(calls: seq<Call>, used: nat)

  predicate MentionsInvoke(text: string) {
    Contains(text, "invoke") || Contains(text, "INVOKE") || Contains(text, "Invoke")
  }

  /** The first complete block of `text`: where it starts, where it ends, and the call it holds. */
  datatype Block = Block(start: nat, end: nat, call: Call)

  function FirstBlock(sc: Scanner, text: string): (b: Option<Block>)
    ensures b.Some? ==> b.value.start < b.value.end <= |text|
  {
    match FindOpen(sc, text)
    case None => None
    case Some(o) =>
      match FindClose(sc, text[o.end..])
      case None => None
      case Some(k) => Some(Block(o.start, o.end + k.end, Call(o.name, sc.paramsToJson(text[o.end..o.end + k.start]))))
  }

  /** Where to look for the first complete block from an offset on; its place is relative to that. */
  type Finder = nat -> Option<Block>

  function BlocksOf(sc: Scanner, text: string): Finder {
    (i: nat) => if i <= |text| then FirstBlock(sc, text[i..]) else None
  }

  function BlockAt(at: Finder, n: nat, from: nat): (b: Option<Block>)
    requires from <= n
    ensures b.Some? ==> b.value.start < b.value.end <= n - from
  {
    var b := at(from);
    if b.Some? && b.value.start < b.value.end <= n - from then b else None
  }

  /** The calls found from offset `from` on in a text of length `n`, and the offset after the last. */
  function Scan(at: Finder, n: nat, from: nat): (b: Blocks)
    requires from <= n
    ensures from <= b.used <= n
    ensures b.calls == [] <==> b.used == from
    decreases n - from
  {
    match BlockAt(at, n, from)
    case None => Blocks([], from)
    case Some(b) =>
      var more := Scan(at, n, from + b.end);
      Blocks([b.call] + more.calls, more.used)
  }

  /** Nothing complete is left behind: what follows the last recovered block has no complete block. */
  lemma {:induction false} ScanExhausts(at: Finder, n: nat, from: nat)
    requires from <= n
    ensures BlockAt(at, n, Scan(at, n, from).used).None?
    decreases n - from
  {
    match BlockAt(at, n, from)
    case None =>
    case Some(b) => ScanExhausts(at, n, from + b.end);
  }

  function ExtractSpec(sc: Scanner, text: string): (x: Extraction)
    ensures x.calls != [] ==> |x.rest| < |text|
    ensures x.calls == [] ==> x.prose == "" && x.rest == text
    ensures exists cut :: 0 <= cut <= |text| && x.rest == text[cut..]
  {
    var at := BlocksOf(sc, text);
    var b := Scan(at, |text|, 0);
    if text == "" || !MentionsInvoke(text) || b.calls == [] then
      assert text == text[0..];
      Extraction("", [], text)
    else Extraction(text[..BlockAt(at, |text|, 0).value.start], b.calls, text[b.used..])
  }

  /** Extracting again from the remainder finds nothing, so the caller's loop runs at most twice. */
  lemma ExtractOnce(sc: Scanner, text: string)
    ensures ExtractSpec(sc, ExtractSpec(sc, text).rest).calls == []
  {
    var x := ExtractSpec(sc, text);
    if x.calls != [] {
      var at := BlocksOf(sc, text);
      ScanExhausts(at, |text|, 0);
      assert at(Scan(at, |text|, 0).used) == FirstBlock(sc, x.rest);
      assert x.rest[0..] == x.rest;
      assert BlocksOf(sc, x.rest)(0) == FirstBlock(sc, x.rest);
    }
  }

  lemma ScanTurn(at: Finder, n: nat, from: nat)
    requires from <= n && BlockAt(at, n, from).Some?
    ensures var b := BlockAt(at, n, from).value;
            var more := Scan(at, n, from + b.end);
            Scan(at, n, from) == Blocks([b.call] + more.calls, more.used)
  {
  }

  /** The scanning loop: every complete block, and where the first starts. */
  method ScanBlocks(at: Finder, n: nat) returns (start: nat, calls: seq<Call>, consumedThrough: int)
    ensures calls == Scan(at, n, 0).calls
    ensures calls != [] ==> consumedThrough == Scan(at, n, 0).used
    ensures calls != [] ==> BlockAt(at, n, 0).Some? && start == BlockAt(at, n, 0).value.start
  {
    var searchFrom := 0;
    calls, start, consumedThrough := [], 0, -1;
    ghost var all := Scan(at, n, 0);
    ghost var rest := all;
    assert [] + all.calls == all.calls;
    while true
      invariant 0 <= searchFrom <= n
      invariant consumedThrough == if calls == [] then -1 else searchFrom
      invariant calls == [] ==> searchFrom == 0
      invariant calls != [] ==> BlockAt(at, n, 0).Some? && start == BlockAt(at, n, 0).value.start
      invariant rest == Scan(at, n, searchFrom)
      invariant all.used == rest.used && all.calls == calls + rest.calls
      decreases n - searchFrom
    {
      var found := BlockAt(at, n, searchFrom);
      if found.None? {
        assert calls + [] == calls;
        return;
      }
      var block := found.value;
      ScanTurn(at, n, searchFrom);
      rest := Scan(at, n, searchFrom + block.end);
      SeqAssoc(calls, [block.call], rest.calls);
      if consumedThrough < 0 {
        start := searchFrom + block.start;
      }
      calls := calls + [block.call];
      consumedThrough := searchFrom + block.end;
      searchFrom := consumedThrough;
    }
  }

  method ExtractOrphanInvokes(sc: Scanner, text: string) returns (x: Extraction)
    ensures x == ExtractSpec(sc, text)
  {
    if text == "" || !MentionsInvoke(text) {
      return Extraction("", [], text);
    }
    var start, calls, consumedThrough := ScanBlocks(BlocksOf(sc, text), |text|);
    if calls == [] {
      return Extraction("", [], text);
    }
    return Extraction(text[..start], calls, text[consumedThrough..]);
  }
}
