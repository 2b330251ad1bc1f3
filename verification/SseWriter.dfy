/** Line framing and the OpenAI to Claude response writer (`SplitSSE` in
    internal/translate/internal/helpers/helpers.go, `streamOpenAIToClaude` and `Close` in
    internal/translate/response_writer.go): how the byte stream is cut into writes does not matter. */
module SseWriter {
  import opened Basics
  import opened ClaudeEvents
  import Spec = ClaudeStream
  import Stream = ClaudeStreamState

  datatype Lines = Lines(chunks: seq<string>, rest: string)

  function Split(data: string, sep: string): Lines
    requires sep != ""
    decreases |data|
  {
    var i := IndexOf(data, sep);
    if i < 0 then Lines([], data) else Behind(data[..i], Split(data[i + |sep|..], sep))
  }

  function Behind(chunk: string, more: Lines): Lines {
    Lines([chunk] + more.chunks, more.rest)
  }

  /** Splitting resumed: the chunks of both, and the second's remainder. */
  function Then(first: Lines, second: Lines): Lines {
    Lines(first.chunks + second.chunks, second.rest)
  }

  lemma BehindThen(chunk: string, first: Lines, second: Lines)
    ensures Then(Behind(chunk, first), second) == Behind(chunk, Then(first, second))
  {
    SeqAssoc([chunk], first.chunks, second.chunks);
  }

  /** `SplitSSE`: the complete chunks and the unfinished remainder. */
  method SplitSSE(data: string, sep: string) returns (r: Lines)
    requires sep != ""
    ensures r == Split(data, sep)
  {
    var out, left := [], data;
    while true
      invariant Split(data, sep) == Lines(out + Split(left, sep).chunks, Split(left, sep).rest)
      decreases |left|
    {
      var i := IndexOf(left, sep);
      if i < 0 {
        return Lines(out, left);
      }
      ghost var more := Split(left[i + |sep|..], sep);
      SplitAt(left, sep, left[..i], left[i + |sep|..]);
      SeqAssoc(out, [left[..i]], more.chunks);
      out, left := out + [left[..i]], left[i + |sep|..];
    }
  }

  lemma IndexOfAppend(a: string, b: string, sep: string)
    requires sep != "" && IndexOf(a, sep) >= 0
    ensures IndexOf(a + b, sep) == IndexOf(a, sep)
  {
    var i := IndexOf(a, sep);
    IndexOfOccurs(a, sep);
    assert (a + b)[i..i + |sep|] == a[i..i + |sep|];
    IndexOfLeast(a + b, sep, i);
    var j := IndexOf(a + b, sep);
    IndexOfOccurs(a + b, sep);
    assert a[j..j + |sep|] == (a + b)[j..j + |sep|];
    IndexOfLeast(a, sep, j);
  }

  lemma CutAppend(a: string, b: string, i: nat, k: nat)
    requires i <= k <= |a|
    ensures (a + b)[k..] == a[k..] + b && (a + b)[..i] == a[..i]
  {
  }

  /** Splitting more data picks up where splitting the first part left off. */
  lemma {:induction false} SplitAppend(a: string, b: string, sep: string)
    requires sep != ""
    ensures Split(a + b, sep) == Then(Split(a, sep), Split(Split(a, sep).rest + b, sep))
    decreases |a|
  {
    var i := IndexOf(a, sep);
    if i < 0 {
      assert Split(a, sep) == Lines([], a);
      assert [] + Split(a + b, sep).chunks == Split(a + b, sep).chunks;
    } else {
      var head, tail := a[..i], a[i + |sep|..];
      var first := Split(tail, sep);
      SplitAppend(tail, b, sep);
      FirstChunk(a, b, sep);
      SplitAt(a, sep, head, tail);
      SplitAt(a + b, sep, head, tail + b);
      BehindThen(head, first, Split(first.rest + b, sep));
    }
  }

  /** The first chunk of the longer data is that of its front. */
  lemma FirstChunk(a: string, b: string, sep: string)
    requires sep != "" && IndexOf(a, sep) >= 0
    ensures var i, data := IndexOf(a, sep), a + b;
            IndexOf(data, sep) == i && data[..i] == a[..i] && data[i + |sep|..] == a[i + |sep|..] + b
  {
    IndexOfAppend(a, b, sep);
    CutAppend(a, b, IndexOf(a, sep), IndexOf(a, sep) + |sep|);
  }

  lemma SplitAt(data: string, sep: string, head: string, tail: string)
    requires var i := IndexOf(data, sep); sep != "" && i >= 0 && head == data[..i] && tail == data[i + |sep|..]
    ensures Split(data, sep) == Behind(head, Split(tail, sep))
  {
  }

  // ----- The writer -----

  /** A line that is no chunk is passed to the client as it is, after the events sent so far. */
  datatype Raw = Raw(after: Trace, line: string)

  datatype Writer = Writer(stream: Spec.State, buf: string, raws: seq<Raw>)

  const Blank: Writer := Writer(Spec.Init, "", [])

  /** `json.Unmarshal` of a data line into a chunk. */
  type Decode = string -> Option<Spec.Chunk>

  const PREFIX := "data: "

  function TrimRight(s: string): string {
    if s != "" && s[|s| - 1] in {'\r', '\n', ' '} then TrimRight(s[..|s| - 1]) else s
  }

  /** One line; once the stream is closed nothing is processed. */
  ghost function Line(c: Spec.Codec, decode: Decode, w: Writer, line: string): Writer {
    if w.stream.closed || !HasPrefix(line, PREFIX) then w else
      var data := TrimRight(line[|PREFIX|..]);
      if data == "[DONE]" then w.(stream := Spec.Finalize(c, w.stream))
      else match decode(data)
        case None => w.(raws := w.raws + [Raw(w.stream.board.trace, line)])
        case Some(k) => w.(stream := Spec.ProcessChunk(c, w.stream, k))
  }

  ghost function Process(c: Spec.Codec, decode: Decode, w: Writer, lines: seq<string>): Writer
    decreases |lines|
  {
    if lines == [] then w else Line(c, decode, Process(c, decode, w, lines[..|lines| - 1]), lines[|lines| - 1])
  }

  ghost function Feed(c: Spec.Codec, decode: Decode, w: Writer, p: string): Writer {
    if w.stream.closed then w else
      var fed := Split(w.buf + p, "\n");
      Process(c, decode, w.(buf := fed.rest), fed.chunks)
  }

  ghost function FeedAll(c: Spec.Codec, decode: Decode, ps: seq<string>): Writer
    decreases |ps|
  {
    if ps == [] then Blank else Feed(c, decode, FeedAll(c, decode, ps[..|ps| - 1]), ps[|ps| - 1])
  }

  ghost function Closed(c: Spec.Codec, w: Writer): Writer {
    w.(stream := Spec.Finalize(c, w.stream))
  }

  /** Same output and same state; bytes buffered after the end of the stream do not matter. */
  ghost predicate Same(v: Writer, w: Writer) {
    v.stream == w.stream && v.raws == w.raws && (v.stream.closed || v.buf == w.buf)
  }

  lemma {:induction false} ProcessAppend(c: Spec.Codec, decode: Decode, w: Writer, a: seq<string>, b: seq<string>)
    ensures Process(c, decode, w, a + b) == Process(c, decode, Process(c, decode, w, a), b)
    decreases |b|
  {
    if b == [] {
      assert a + b == a;
    } else {
      ProcessAppend(c, decode, w, a, b[..|b| - 1]);
      assert (a + b)[..|a + b| - 1] == a + b[..|b| - 1];
    }
  }

  /** Lines leave the buffer alone, and do nothing at all to a closed stream. */
  lemma {:induction false} ProcessBuf(c: Spec.Codec, decode: Decode, w: Writer, lines: seq<string>, buf: string)
    ensures Process(c, decode, w.(buf := buf), lines) == Process(c, decode, w, lines).(buf := buf)
    ensures Process(c, decode, w, lines).buf == w.buf
    ensures w.stream.closed ==> Process(c, decode, w, lines) == w
    decreases |lines|
  {
    if lines != [] {
      ProcessBuf(c, decode, w, lines[..|lines| - 1], buf);
    }
  }

  lemma ProcessOne(c: Spec.Codec, decode: Decode, w: Writer, lines: seq<string>, i: nat)
    requires i < |lines|
    ensures Process(c, decode, w, lines[..i + 1]) == Line(c, decode, Process(c, decode, w, lines[..i]), lines[i])
  {
    assert lines[..i + 1][..i] == lines[..i];
  }

  /** Lines behind the one that closes the stream change nothing. */
  lemma ProcessStops(c: Spec.Codec, decode: Decode, w: Writer, lines: seq<string>, i: nat)
    requires i <= |lines| && Process(c, decode, w, lines[..i]).stream.closed
    ensures Process(c, decode, w, lines) == Process(c, decode, w, lines[..i])
  {
    ProcessAppend(c, decode, w, lines[..i], lines[i..]);
    ProcessBuf(c, decode, Process(c, decode, w, lines[..i]), lines[i..], "");
    assert lines[..i] + lines[i..] == lines;
  }

  lemma ProcessTwice(c: Spec.Codec, decode: Decode, w: Writer, a: seq<string>, b: seq<string>, rest: string,
                     left: string)
    ensures var v := Process(c, decode, w.(buf := rest), a);
            Same(if v.stream.closed then v else Process(c, decode, v.(buf := left), b),
                 Process(c, decode, w.(buf := left), a + b))
  {
    var u := Process(c, decode, w, a);
    ProcessBuf(c, decode, w, a, rest);
    ProcessBuf(c, decode, w, a, left);
    ProcessAppend(c, decode, w.(buf := left), a, b);
    ProcessBuf(c, decode, u.(buf := left), b, left);
    assert u.(buf := rest).(buf := left) == u.(buf := left);
  }

  /** Two writes do what one write of the joined bytes does. */
  lemma WriteTwice(c: Spec.Codec, decode: Decode, w: Writer, p: string, q: string)
    ensures Same(Feed(c, decode, Feed(c, decode, w, p), q), Feed(c, decode, w, p + q))
  {
    if !w.stream.closed {
      var first := Split(w.buf + p, "\n");
      var second := Split(first.rest + q, "\n");
      SplitAppend(w.buf + p, q, "\n");
      SeqAssoc(w.buf, p, q);
      ProcessBuf(c, decode, w, first.chunks, first.rest);
      ProcessTwice(c, decode, w, first.chunks, second.chunks, first.rest, second.rest);
    }
  }

  lemma {:induction false} WritesJoin(c: Spec.Codec, decode: Decode, ps: seq<string>)
    ensures Same(FeedAll(c, decode, ps), Feed(c, decode, Blank, Concat(ps)))
    decreases |ps|
  {
    if ps == [] {
      assert "" + "" == "";
    } else {
      var front, p := ps[..|ps| - 1], ps[|ps| - 1];
      WritesJoin(c, decode, front);
      WriteTwice(c, decode, Blank, Concat(front), p);
    }
  }

  /** However the same bytes are cut into writes, the client gets the same events and the same
      passed-through lines, before and after the writer is closed. */
  lemma BoundariesDoNotMatter(c: Spec.Codec, decode: Decode, ps: seq<string>, qs: seq<string>)
    requires Concat(ps) == Concat(qs)
    ensures Same(FeedAll(c, decode, ps), FeedAll(c, decode, qs))
    ensures Same(Closed(c, FeedAll(c, decode, ps)), Closed(c, FeedAll(c, decode, qs)))
  {
    WritesJoin(c, decode, ps);
    WritesJoin(c, decode, qs);
  }

  /** The writer object: it owns a translator, a partial line and the lines it passed through. */
  class ResponseWriter {
    const decode: Decode
    const state: Stream.StreamState
    var sseBuf: string
    var raws: seq<Raw>

    ghost function Now(): Writer
      reads this, state
    {
      Writer(state.Now(), sseBuf, raws)
    }

    ghost predicate Valid()
      reads this, state
    {
      state.closed || state.Valid()
    }

    constructor (c: Spec.Codec, decode: Decode)
      ensures state.c == c && this.decode == decode && fresh(state) && Valid() && Now() == Blank
    {
      this.decode := decode;
      state := new Stream.StreamState(c);
      sseBuf, raws := "", [];
    }

    method HandleLine(line: string) returns (done: bool)
      requires !state.closed && Valid()
      modifies this`raws, state
      ensures Valid() && done == state.closed
      ensures Now() == Line(state.c, decode, old(Now()), line)
    {
      done := false;
      if !HasPrefix(line, PREFIX) {
        return;
      }
      var data := TrimRight(line[|PREFIX|..]);
      if data == "[DONE]" {
        state.Finalize();
        return true;
      }
      var chunk := decode(data);
      if chunk.None? {
        raws := raws + [Raw(state.board.trace, line)];
      } else {
        state.ProcessChunk(chunk.value);
      }
    }

    /** The complete lines of a write, up to the end marker. */
    method HandleLines(lines: seq<string>)
      requires !state.closed && Valid()
      modifies this`raws, state
      ensures Valid() && Now() == Process(state.c, decode, old(Now()), lines)
    {
      ghost var w := Now();
      for i := 0 to |lines|
        invariant Valid() && !state.closed
        invariant Now() == Process(state.c, decode, w, lines[..i])
      {
        ProcessOne(state.c, decode, w, lines, i);
        var done := HandleLine(lines[i]);
        if done {
          ProcessStops(state.c, decode, w, lines, i + 1);
          return;
        }
      }
      assert lines[..|lines|] == lines;
    }

    /** `streamOpenAIToClaude`: nothing is processed after `[DONE]`. */
    method Write(p: string)
      requires Valid()
      modifies this`sseBuf, this`raws, state
      ensures Valid() && Now() == Feed(state.c, decode, old(Now()), p)
    {
      if state.closed {
        return;
      }
      var fed := SplitSSE(sseBuf + p, "\n");
      sseBuf := fed.rest;
      HandleLines(fed.chunks);
    }

    method Close()
      requires Valid()
      modifies state
      ensures Now() == Closed(state.c, old(Now())) && state.closed
    {
      if !state.closed {
        state.Finalize();
      }
    }
  }
}
