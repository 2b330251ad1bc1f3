/** Format detection (internal/translate/detect.go): the byte-level probe of a request body against
    detection on the parsed body. A body is a concrete syntax tree; its text is what the probe scans,
    its structure is what the parser hands to detection. */
module Probe {
  import opened Basics

  /** A JSON value with its white space: `Lit` is a number, true, false or null; `raw` is the inside of
      a string as it is written, escapes included. */
  datatype Doc =
    | Lit(text: string)
    | Str(raw: string)
    | Arr(pad: string, elems: Elems)
    | Obj(pad: string, members: Members)

  datatype Elems = NoElems | Elem(pre: string, value: Doc, post: string, rest: Elems)

  datatype Members = NoMembers | Member(pre: string, key: string, mid: string, value: Doc, post: string, rest: Members)

  datatype Format = OpenAI | Responses | Gemini | Claude

  /** The value a written string denotes, and whether the decoder takes a key for a struct field. */
  datatype Rules = Rules(decode: string -> string, matches: (string, string) -> bool)

  // ----- The text of a body -----

  function Print(d: Doc): string {
    match d
    case Lit(t) => t
    case Str(raw) => "\"" + raw + "\""
    case Arr(pad, es) => "[" + (if es.NoElems? then pad else PrintElems(es)) + "]"
    case Obj(pad, ms) => "{" + (if ms.NoMembers? then pad else PrintMembers(ms)) + "}"
  }

  function PrintElems(es: Elems): string {
    match es
    case NoElems => ""
    case Elem(pre, v, post, rest) => pre + Print(v) + post + (if rest.NoElems? then "" else "," + PrintElems(rest))
  }

  /** The `mid` text is the colon with the white space around it. */
  function PrintMembers(ms: Members): string {
    match ms
    case NoMembers => ""
    case Member(pre, key, mid, v, post, rest) =>
      pre + "\"" + key + "\"" + mid + Print(v) + post + (if rest.NoMembers? then "" else "," + PrintMembers(rest))
  }

  predicate IsSpace(ch: char) {
    ch == ' ' || ch == '\t' || ch == '\n' || ch == '\r'
  }

  predicate AllSpace(s: string) {
    forall k :: 0 <= k < |s| ==> IsSpace(s[k])
  }

  predicate LitChar(ch: char) {
    'a' <= ch <= 'z' || 'A' <= ch <= 'Z' || '0' <= ch <= '9' || ch == '+' || ch == '-' || ch == '.'
  }

  predicate WellFormed(d: Doc) {
    match d
    case Lit(t) => t != "" && forall k :: 0 <= k < |t| ==> LitChar(t[k])
    case Str(_) => true
    case Arr(pad, es) => AllSpace(pad) && WellFormedElems(es)
    case Obj(pad, ms) => AllSpace(pad) && WellFormedMembers(ms)
  }

  predicate WellFormedElems(es: Elems) {
    match es
    case NoElems => true
    case Elem(_, v, _, rest) => WellFormed(v) && WellFormedElems(rest)
  }

  predicate WellFormedMembers(ms: Members) {
    match ms
    case NoMembers => true
    case Member(_, _, _, v, _, rest) => WellFormed(v) && WellFormedMembers(rest)
  }

  // ----- Detection on the parsed body -----

  /** A key's value: the last one wins. */
  function Lookup(g: Rules, ms: Members, key: string): Option<Doc> {
    match ms
    case NoMembers => None
    case Member(_, k, _, v, _, rest) =>
      var later := Lookup(g, rest, key);
      if later.Some? then later else if g.decode(k) == key then Some(v) else None
  }

  predicate IsString(g: Rules, d: Option<Doc>, text: string) {
    d.Some? && d.value.Str? && g.decode(d.value.raw) == text
  }

  predicate NonEmptyArray(d: Option<Doc>) {
    d.Some? && d.value.Arr? && d.value.elems.Elem?
  }

  predicate ClaudeBlock(g: Rules, d: Doc) {
    d.Obj? &&
    var typ := Lookup(g, d.members, "type");
    || IsString(g, typ, "tool_use") || IsString(g, typ, "tool_result")
    || (IsString(g, typ, "image") &&
        var src := Lookup(g, d.members, "source");
        src.Some? && src.value.Obj? && IsString(g, Lookup(g, src.value.members, "type"), "base64"))
  }

  predicate AnyBlock(g: Rules, es: Elems) {
    es.Elem? && (ClaudeBlock(g, es.value) || AnyBlock(g, es.rest))
  }

  predicate ClaudeMessage(g: Rules, d: Doc) {
    d.Obj? &&
    var content := Lookup(g, d.members, "content");
    content.Some? && content.value.Arr? && AnyBlock(g, content.value.elems)
  }

  /** `hasClaudeContentTypes`. */
  predicate AnyClaudeMessage(g: Rules, es: Elems) {
    es.Elem? && (ClaudeMessage(g, es.value) || AnyClaudeMessage(g, es.rest))
  }

  function Detect(g: Rules, body: Doc): Format {
    if !body.Obj? then OpenAI else
      var ms := body.members;
      var input, messages, contents := Lookup(g, ms, "input"), Lookup(g, ms, "messages"), Lookup(g, ms, "contents");
      var system := Lookup(g, ms, "system");
      if input.Some? && messages.None? && (input.value.Str? || input.value.Arr?) then Responses
      else if messages.None? && NonEmptyArray(contents) then Gemini
      else if NonEmptyArray(messages) &&
              (|| Lookup(g, ms, "anthropic_version").Some?
               || (system.Some? && (system.value.Str? || system.value.Arr?))
               || AnyClaudeMessage(g, messages.value.elems)) then Claude
      else OpenAI
  }

  function ExtractModelId(g: Rules, body: Doc): string {
    if !body.Obj? then "" else
      var m := Lookup(g, body.members, "model");
      if m.Some? && m.value.Str? then g.decode(m.value.raw) else ""
  }

  // ----- The probe on the text -----

  /** The raw text a struct field ends up with, "" if its key does not occur. */
  function Field(g: Rules, ms: Members, name: string): string {
    match ms
    case NoMembers => ""
    case Member(_, k, _, v, _, rest) =>
      var later := Field(g, rest, name);
      if later != "" then later else if g.matches(g.decode(k), name) then Print(v) else ""
  }

  /** Decoding into a string field: None is a type error; null leaves the field as it is. */
  function ModelField(g: Rules, ms: Members, before: string): Option<string> {
    match ms
    case NoMembers => Some(before)
    case Member(_, k, _, v, _, rest) =>
      if !g.matches(g.decode(k), "model") then ModelField(g, rest, before)
      else if v.Str? then ModelField(g, rest, g.decode(v.raw))
      else if v == Lit("null") then ModelField(g, rest, before)
      else None
  }

  /** 1 for an array with elements, 0 for an empty one, -1 for anything else. */
  function RawArrayNonEmpty(raw: string): int {
    var t := TrimBy(IsSpace, raw);
    if |t| < 2 || t[0] != '[' || t[|t| - 1] != ']' then -1
    else if TrimBy(IsSpace, t[1..|t| - 1]) == "" then 0
    else 1
  }

  function FirstNonSpace(raw: string): Option<char> {
    if raw == "" then None else if !IsSpace(raw[0]) then Some(raw[0]) else FirstNonSpace(raw[1..])
  }

  predicate Marked(text: string) {
    Contains(text, "\"tool_use\"") || Contains(text, "\"tool_result\"") || Contains(text, "\"base64\"")
  }

  /** The whole body is `pre`, the value and `post`. Asking a raw field whether it decodes to a string or
      an array comes down to its first character. */
  function ProbeBody(g: Rules, pre: string, body: Doc, post: string): (Format, string) {
    if !body.Obj? then (OpenAI, "") else
      var ms, text := body.members, pre + Print(body) + post;
      match ModelField(g, ms, "")
      case None => (OpenAI, "")
      case Some(model) =>
        var input, messages, contents := Field(g, ms, "input"), Field(g, ms, "messages"), Field(g, ms, "contents");
        var system := FirstNonSpace(Field(g, ms, "system"));
        if input != "" && messages == "" && FirstNonSpace(input) in {Some('"'), Some('[')} then (Responses, model)
        else if contents != "" && messages == "" && RawArrayNonEmpty(contents) > 0 then (Gemini, model)
        else if messages != "" && RawArrayNonEmpty(messages) > 0 then
          if Field(g, ms, "anthropic_version") != "" then (Claude, model)
          else if system in {Some('"'), Some('[')} then (Claude, model)
          else if !Marked(text) then (OpenAI, model)
          else (Detect(g, body), model)
        else (OpenAI, model)
  }

  // ----- Raw fields tell what the parsed values are -----

  lemma PrintEnds(d: Doc)
    requires WellFormed(d)
    ensures |Print(d)| > 0 && !IsSpace(Print(d)[0]) && !IsSpace(Print(d)[|Print(d)| - 1])
    ensures Print(d)[0] == '[' <==> d.Arr?
    ensures Print(d)[0] == '"' <==> d.Str?
    ensures d.Arr? || d.Str? || d.Obj? ==> |Print(d)| >= 2
    ensures d.Arr? ==> Print(d)[|Print(d)| - 1] == ']'
  {
  }

  lemma FirstChar(d: Doc)
    requires WellFormed(d)
    ensures FirstNonSpace(Print(d)) in {Some('"'), Some('[')} <==> d.Str? || d.Arr?
  {
    PrintEnds(d);
  }

  lemma {:induction false} ElemsShow(es: Elems) returns (i: nat)
    requires es.Elem? && WellFormedElems(es)
    ensures i < |PrintElems(es)| && !IsSpace(PrintElems(es)[i])
  {
    PrintEnds(es.value);
    i := |es.pre|;
    assert PrintElems(es)[i] == Print(es.value)[0];
  }

  lemma {:induction false} TrimAway(s: string)
    requires AllSpace(s)
    ensures TrimBy(IsSpace, s) == ""
  {
    if s != "" {
      TrimAway(s[1..]);
    }
  }

  /** Counting the elements of a raw array without decoding it. */
  lemma RawArrayExact(d: Doc)
    requires WellFormed(d)
    ensures RawArrayNonEmpty(Print(d)) > 0 <==> NonEmptyArray(Some(d))
  {
    PrintEnds(d);
    var t := Print(d);
    assert TrimBy(IsSpace, t) == t;
    if d.Arr? {
      var inside := if d.elems.NoElems? then d.pad else PrintElems(d.elems);
      assert t[1..|t| - 1] == inside;
      if d.elems.NoElems? {
        TrimAway(d.pad);
      } else {
        var i := ElemsShow(d.elems);
        TrimKeeps(IsSpace, inside, i);
      }
    }
  }

  /** Every key that the decoder would take for a field is that field's name, letter for letter. */
  predicate ExactKeys(g: Rules, ms: Members, name: string) {
    ms.NoMembers? || ((g.matches(g.decode(ms.key), name) <==> g.decode(ms.key) == name) && ExactKeys(g, ms.rest, name))
  }

  lemma {:induction false} FieldIsLookup(g: Rules, ms: Members, name: string)
    requires WellFormedMembers(ms) && ExactKeys(g, ms, name)
    ensures Field(g, ms, name) == if Lookup(g, ms, name).Some? then Print(Lookup(g, ms, name).value) else ""
    ensures Lookup(g, ms, name).Some? ==> WellFormed(Lookup(g, ms, name).value)
    ensures Field(g, ms, name) != "" <==> Lookup(g, ms, name).Some?
  {
    if ms.Member? {
      FieldIsLookup(g, ms.rest, name);
      PrintEnds(ms.value);
    }
  }

  // ----- The fast reject is sound -----

  /** One text occurs inside another. */
  ghost predicate Inside(a: string, b: string) {
    exists i :: OccursAt(b, a, i)
  }

  lemma InsideBetween(pre: string, a: string, post: string)
    ensures Inside(a, pre + a + post)
  {
    assert OccursAt(pre + a + post, a, |pre|);
  }

  lemma InsideTransitive(a: string, b: string, c: string)
    requires Inside(a, b) && Inside(b, c)
    ensures Inside(a, c)
  {
    var i :| OccursAt(b, a, i);
    var j :| OccursAt(c, b, j);
    forall k | 0 <= k < |a| ensures c[j + i + k] == a[k] {
      assert a[k] == b[i..i + |a|][k] == b[i + k];
      assert b[i + k] == c[j..j + |b|][i + k] == c[j + (i + k)];
    }
    assert c[j + i..j + i + |a|] == a;
    assert OccursAt(c, a, j + i);
  }

  lemma InsideContains(a: string, b: string)
    requires Inside(a, b)
    ensures Contains(b, a)
  {
    var i :| OccursAt(b, a, i);
    IndexOfLeast(b, a, i);
  }

  /** A key's value is printed inside its object. */
  lemma {:induction false} ValueInside(g: Rules, ms: Members, key: string)
    requires Lookup(g, ms, key).Some?
    ensures Inside(Print(Lookup(g, ms, key).value), PrintMembers(ms))
  {
    var head := ms.pre + "\"" + ms.key + "\"" + ms.mid;
    var all := PrintMembers(ms);
    if Lookup(g, ms.rest, key).Some? {
      ValueInside(g, ms.rest, key);
      var before := head + Print(ms.value) + ms.post + ",";
      assert all == before + PrintMembers(ms.rest) + "";
      InsideBetween(before, PrintMembers(ms.rest), "");
      InsideTransitive(Print(Lookup(g, ms, key).value), PrintMembers(ms.rest), all);
    } else {
      var tail := ms.post + (if ms.rest.NoMembers? then "" else "," + PrintMembers(ms.rest));
      assert all == head + Print(ms.value) + tail;
      InsideBetween(head, Print(ms.value), tail);
    }
  }

  lemma ValueInsideObject(g: Rules, d: Doc, key: string)
    requires d.Obj? && Lookup(g, d.members, key).Some?
    ensures Inside(Print(Lookup(g, d.members, key).value), Print(d))
  {
    ValueInside(g, d.members, key);
    InsideBetween("{", PrintMembers(d.members), "}");
    InsideTransitive(Print(Lookup(g, d.members, key).value), PrintMembers(d.members), Print(d));
  }

  lemma ElemParts(es: Elems)
    requires es.Elem?
    ensures Inside(Print(es.value), PrintElems(es))
    ensures es.rest.Elem? ==> Inside(PrintElems(es.rest), PrintElems(es))
  {
    var more := if es.rest.NoElems? then "" else "," + PrintElems(es.rest);
    FirstInside(es.pre, Print(es.value), es.post, more);
    if es.rest.Elem? {
      LastInside(es.pre + Print(es.value) + es.post, PrintElems(es.rest));
    }
  }

  lemma FirstInside(pre: string, a: string, post: string, more: string)
    ensures Inside(a, pre + a + post + more)
  {
    InsideBetween(pre, a, post + more);
    SeqAssoc(pre + a, post, more);
  }

  lemma LastInside(before: string, last: string)
    ensures Inside(last, before + ("," + last))
  {
    InsideBetween(before + ",", last, "");
    assert before + "," + last + "" == before + ("," + last);
  }

  lemma ElemsInsideArray(d: Doc)
    requires d.Arr? && d.elems.Elem?
    ensures Inside(PrintElems(d.elems), Print(d))
  {
    InsideBetween("[", PrintElems(d.elems), "]");
  }

  predicate IsMarker(text: string) {
    text == "tool_use" || text == "tool_result" || text == "base64"
  }

  /** Wherever a body has a string that means a marker, the marker is written without escapes. */
  predicate PlainMarkers(g: Rules, d: Doc) {
    match d
    case Lit(_) => true
    case Str(raw) => IsMarker(g.decode(raw)) ==> raw == g.decode(raw)
    case Arr(_, es) => PlainElems(g, es)
    case Obj(_, ms) => PlainMembers(g, ms)
  }

  predicate PlainElems(g: Rules, es: Elems) {
    match es
    case NoElems => true
    case Elem(_, v, _, rest) => PlainMarkers(g, v) && PlainElems(g, rest)
  }

  predicate PlainMembers(g: Rules, ms: Members) {
    match ms
    case NoMembers => true
    case Member(_, _, _, v, _, rest) => PlainMarkers(g, v) && PlainMembers(g, rest)
  }

  lemma {:induction false} PlainLookup(g: Rules, ms: Members, key: string)
    requires PlainMembers(g, ms) && Lookup(g, ms, key).Some?
    ensures PlainMarkers(g, Lookup(g, ms, key).value)
  {
    if Lookup(g, ms.rest, key).Some? {
      PlainLookup(g, ms.rest, key);
    }
  }

  ghost predicate ShowsMarker(text: string) {
    Inside("\"tool_use\"", text) || Inside("\"tool_result\"", text) || Inside("\"base64\"", text)
  }

  lemma ShownInside(a: string, b: string)
    requires ShowsMarker(a) && Inside(a, b)
    ensures ShowsMarker(b)
  {
    if Inside("\"tool_use\"", a) {
      InsideTransitive("\"tool_use\"", a, b);
    } else if Inside("\"tool_result\"", a) {
      InsideTransitive("\"tool_result\"", a, b);
    } else {
      InsideTransitive("\"base64\"", a, b);
    }
  }

  lemma StringShows(g: Rules, d: Doc, key: string, marker: string)
    requires PlainMarkers(g, d) && IsMarker(marker)
    requires d.Obj? && IsString(g, Lookup(g, d.members, key), marker)
    ensures ShowsMarker(Print(d))
  {
    var v := Lookup(g, d.members, key).value;
    PlainLookup(g, d.members, key);
    assert Print(v) == "\"" + marker + "\"";
    ValueInsideObject(g, d, key);
    assert marker == "tool_use" ==> "\"" + marker + "\"" == "\"tool_use\"";
    assert marker == "tool_result" ==> "\"" + marker + "\"" == "\"tool_result\"";
    assert marker == "base64" ==> "\"" + marker + "\"" == "\"base64\"";
  }

  lemma BlockShows(g: Rules, d: Doc)
    requires PlainMarkers(g, d) && ClaudeBlock(g, d)
    ensures ShowsMarker(Print(d))
  {
    var typ := Lookup(g, d.members, "type");
    if IsString(g, typ, "tool_use") {
      StringShows(g, d, "type", "tool_use");
    } else if IsString(g, typ, "tool_result") {
      StringShows(g, d, "type", "tool_result");
    } else {
      var src := Lookup(g, d.members, "source").value;
      PlainLookup(g, d.members, "source");
      StringShows(g, src, "type", "base64");
      ValueInsideObject(g, d, "source");
      ShownInside(Print(src), Print(d));
    }
  }

  lemma {:induction false} BlocksShow(g: Rules, es: Elems)
    requires PlainElems(g, es) && AnyBlock(g, es)
    ensures ShowsMarker(PrintElems(es))
  {
    ElemParts(es);
    if ClaudeBlock(g, es.value) {
      BlockShows(g, es.value);
      ShownInside(Print(es.value), PrintElems(es));
    } else {
      BlocksShow(g, es.rest);
      ShownInside(PrintElems(es.rest), PrintElems(es));
    }
  }

  lemma MessageShows(g: Rules, d: Doc)
    requires PlainMarkers(g, d) && ClaudeMessage(g, d)
    ensures ShowsMarker(Print(d))
  {
    var content := Lookup(g, d.members, "content").value;
    PlainLookup(g, d.members, "content");
    BlocksShow(g, content.elems);
    ElemsInsideArray(content);
    ShownInside(PrintElems(content.elems), Print(content));
    ValueInsideObject(g, d, "content");
    ShownInside(Print(content), Print(d));
  }

  lemma {:induction false} MessagesShow(g: Rules, es: Elems)
    requires PlainElems(g, es) && AnyClaudeMessage(g, es)
    ensures ShowsMarker(PrintElems(es))
  {
    ElemParts(es);
    if ClaudeMessage(g, es.value) {
      MessageShows(g, es.value);
      ShownInside(Print(es.value), PrintElems(es));
    } else {
      MessagesShow(g, es.rest);
      ShownInside(PrintElems(es.rest), PrintElems(es));
    }
  }

  /** A body with a Claude content block, however deep, shows one of the markers in its text. */
  lemma FastRejectSound(g: Rules, pre: string, body: Doc, post: string)
    requires PlainMarkers(g, body) && body.Obj?
    requires var messages := Lookup(g, body.members, "messages");
             NonEmptyArray(messages) && AnyClaudeMessage(g, messages.value.elems)
    ensures Marked(pre + Print(body) + post)
  {
    var messages, text := Lookup(g, body.members, "messages").value, pre + Print(body) + post;
    PlainLookup(g, body.members, "messages");
    MessagesShow(g, messages.elems);
    ElemsInsideArray(messages);
    ShownInside(PrintElems(messages.elems), Print(messages));
    ValueInsideObject(g, body, "messages");
    ShownInside(Print(messages), Print(body));
    InsideBetween(pre, Print(body), post);
    ShownInside(Print(body), text);
    if Inside("\"tool_use\"", text) {
      InsideContains("\"tool_use\"", text);
    } else if Inside("\"tool_result\"", text) {
      InsideContains("\"tool_result\"", text);
    } else {
      InsideContains("\"base64\"", text);
    }
  }

  // ----- The probe agrees with detection -----

  /** Every occurrence of the model key is a string. */
  predicate StringModel(g: Rules, ms: Members) {
    ms.NoMembers? || ((g.decode(ms.key) == "model" ==> ms.value.Str?) && StringModel(g, ms.rest))
  }

  lemma {:induction false} ModelAgrees(g: Rules, ms: Members, before: string)
    requires ExactKeys(g, ms, "model") && StringModel(g, ms)
    ensures var m := Lookup(g, ms, "model");
            && (m.Some? ==> m.value.Str?)
            && ModelField(g, ms, before) == Some(if m.Some? then g.decode(m.value.raw) else before)
  {
    if ms.Member? {
      ModelAgrees(g, ms.rest, if g.decode(ms.key) == "model" then g.decode(ms.value.raw) else before);
    }
  }

  ghost predicate AllExact(g: Rules, ms: Members) {
    && ExactKeys(g, ms, "model") && ExactKeys(g, ms, "input") && ExactKeys(g, ms, "messages")
    && ExactKeys(g, ms, "contents") && ExactKeys(g, ms, "system") && ExactKeys(g, ms, "anthropic_version")
  }

  /** For every reader and every body with exact keys, a string model or none, and markers written
      without escapes, the one-pass probe gives the format of detection and the model of extraction. */
  lemma ProbeAgrees(g: Rules, pre: string, body: Doc, post: string)
    requires WellFormed(body) && PlainMarkers(g, body)
    requires body.Obj? ==> AllExact(g, body.members) && StringModel(g, body.members)
    ensures ProbeBody(g, pre, body, post) == (Detect(g, body), ExtractModelId(g, body))
  {
    if body.Obj? {
      var ms := body.members;
      ModelAgrees(g, ms, "");
      FormatAgrees(g, pre, body, post, ExtractModelId(g, body));
    }
  }

  lemma FormatAgrees(g: Rules, pre: string, body: Doc, post: string, model: string)
    requires body.Obj? && WellFormed(body) && PlainMarkers(g, body) && AllExact(g, body.members)
    requires ModelField(g, body.members, "") == Some(model)
    ensures ProbeBody(g, pre, body, post) == (Detect(g, body), model)
  {
    var ms := body.members;
    FieldFacts(g, ms, "input");
    FieldFacts(g, ms, "messages");
    FieldFacts(g, ms, "contents");
    FieldFacts(g, ms, "system");
    FieldFacts(g, ms, "anthropic_version");
    var messages := Lookup(g, ms, "messages");
    if NonEmptyArray(messages) && AnyClaudeMessage(g, messages.value.elems) {
      FastRejectSound(g, pre, body, post);
    }
  }

  lemma FieldFacts(g: Rules, ms: Members, name: string)
    requires WellFormedMembers(ms) && ExactKeys(g, ms, name)
    ensures var raw, d := Field(g, ms, name), Lookup(g, ms, name);
            && (raw != "" <==> d.Some?)
            && (FirstNonSpace(raw) in {Some('"'), Some('[')} <==> d.Some? && (d.value.Str? || d.value.Arr?))
            && (RawArrayNonEmpty(raw) > 0 <==> NonEmptyArray(d))
  {
    FieldIsLookup(g, ms, name);
    var d := Lookup(g, ms, name);
    if d.Some? {
      FirstChar(d.value);
      RawArrayExact(d.value);
    } else {
      assert TrimBy(IsSpace, "") == "";
    }
  }

  /** A model that is no string makes the probe give up: it then agrees exactly when detection says
      OpenAI as well. */
  lemma BadModel(g: Rules, pre: string, body: Doc, post: string)
    requires body.Obj? && ModelField(g, body.members, "").None?
    ensures ProbeBody(g, pre, body, post).0 == Detect(g, body) <==> Detect(g, body) == OpenAI
  {
  }

  /** Where the probe falls back to the markers, it misses a Claude body exactly when the body's text
      shows none of them. */
  lemma EscapedMarkersMissed(g: Rules, pre: string, body: Doc, post: string, model: string)
    requires body.Obj? && WellFormed(body) && AllExact(g, body.members)
             && ModelField(g, body.members, "") == Some(model)
    ensures ProbeBody(g, pre, body, post) == (Detect(g, body), model) <==>
            !(var messages := Lookup(g, body.members, "messages");
              && NonEmptyArray(messages) && AnyClaudeMessage(g, messages.value.elems)
              && Lookup(g, body.members, "anthropic_version").None?
              && !(var s := Lookup(g, body.members, "system"); s.Some? && (s.value.Str? || s.value.Arr?))
              && !Marked(pre + Print(body) + post))
  {
    var ms := body.members;
    FieldFacts(g, ms, "input");
    FieldFacts(g, ms, "messages");
    FieldFacts(g, ms, "contents");
    FieldFacts(g, ms, "system");
    FieldFacts(g, ms, "anthropic_version");
  }

  // ----- An escaped marker -----

  function OneMember(key: string, v: Doc): Doc {
    Obj("", Member("", key, ":", v, "", NoMembers))
  }

  function OneElem(v: Doc): Doc {
    Arr("", Elem("", v, "", NoElems))
  }

  const ESCAPED := "too\\u006c_use"

  /** {"messages":[{"content":[{"type":"too\u006c_use"}]}]} */
  function EscapedBody(): Doc {
    OneMember("messages", OneElem(OneMember("content", OneElem(OneMember("type", Str(ESCAPED))))))
  }

  predicate Lacks(s: string, ch: char) {
    forall k :: 0 <= k < |s| ==> s[k] != ch
  }

  lemma LacksMember(key: string, v: Doc, ch: char)
    requires Lacks(key, ch) && Lacks(Print(v), ch) && ch !in {'{', '}', ':', '"'}
    ensures Lacks(Print(OneMember(key, v)), ch)
  {
    assert Print(OneMember(key, v)) == "{" + ("" + "\"" + key + "\"" + ":" + Print(v) + "" + "") + "}";
  }

  lemma LacksElem(v: Doc, ch: char)
    requires Lacks(Print(v), ch) && ch !in {'[', ']'}
    ensures Lacks(Print(OneElem(v)), ch)
  {
    assert Print(OneElem(v)) == "[" + ("" + Print(v) + "" + "") + "]";
  }

  lemma EscapedTypeLacks(ch: char)
    requires ch == 'l' || ch == 'b'
    ensures Lacks(Print(OneElem(OneMember("type", Str(ESCAPED)))), ch)
  {
    assert Lacks(Print(Str(ESCAPED)), ch);
    LacksMember("type", Str(ESCAPED), ch);
    LacksElem(OneMember("type", Str(ESCAPED)), ch);
  }

  lemma EscapedLacks(ch: char)
    requires ch == 'l' || ch == 'b'
    ensures Lacks(Print(EscapedBody()), ch)
  {
    EscapedTypeLacks(ch);
    AroundLacks(OneElem(OneMember("type", Str(ESCAPED))), ch);
  }

  lemma AroundLacks(blocks: Doc, ch: char)
    requires (ch == 'l' || ch == 'b') && Lacks(Print(blocks), ch)
    ensures Lacks(Print(OneMember("messages", OneElem(OneMember("content", blocks)))), ch)
  {
    LacksMember("content", blocks, ch);
    LacksElem(OneMember("content", blocks), ch);
    LacksMember("messages", OneElem(OneMember("content", blocks)), ch);
  }

  lemma ContainsChar(text: string, marker: string, k: nat)
    requires k < |marker| && Contains(text, marker)
    ensures !Lacks(text, marker[k])
  {
    IndexOfOccurs(text, marker);
    var i := IndexOf(text, marker);
    assert text[i..i + |marker|][k] == text[i + k];
  }

  lemma Unmarked(text: string)
    requires Lacks(text, 'l') && Lacks(text, 'b')
    ensures !Marked(text)
  {
    if Contains(text, "\"tool_use\"") {
      ContainsChar(text, "\"tool_use\"", 4);
    }
    if Contains(text, "\"tool_result\"") {
      ContainsChar(text, "\"tool_result\"", 4);
    }
    if Contains(text, "\"base64\"") {
      ContainsChar(text, "\"base64\"", 1);
    }
  }

  /** A reader that undoes the escape, reads these keys as they are written and matches keys exactly. */
  ghost predicate ReadsPlainly(g: Rules) {
    && g.decode(ESCAPED) == "tool_use" && (forall key: string, name :: g.matches(key, name) <==> key == name)
    && g.decode("messages") == "messages" && g.decode("content") == "content" && g.decode("type") == "type"
  }

  lemma EscapedIsClaude(g: Rules)
    requires ReadsPlainly(g)
    ensures Detect(g, EscapedBody()) == Claude
            && ClaudeMessage(g, OneMember("content", OneElem(OneMember("type", Str(ESCAPED)))))
    ensures Lookup(g, EscapedBody().members, "messages") ==
            Some(OneElem(OneMember("content", OneElem(OneMember("type", Str(ESCAPED))))))
  {
    var block := OneMember("type", Str(ESCAPED));
    assert Lookup(g, block.members, "type") == Some(Str(ESCAPED));
    assert ClaudeBlock(g, block);
    var msg := OneMember("content", OneElem(block));
    assert Lookup(g, msg.members, "content") == Some(OneElem(block));
    assert AnyBlock(g, OneElem(block).elems);
    assert Lookup(g, EscapedBody().members, "messages") == Some(OneElem(msg));
    assert AnyClaudeMessage(g, OneElem(msg).elems);
  }

  lemma EscapedReads(g: Rules)
    requires ReadsPlainly(g)
    ensures WellFormed(EscapedBody()) && AllExact(g, EscapedBody().members)
            && ModelField(g, EscapedBody().members, "") == Some("")
    ensures Lookup(g, EscapedBody().members, "anthropic_version").None?
            && Lookup(g, EscapedBody().members, "system").None?
  {
    var block := OneMember("type", Str(ESCAPED));
    assert WellFormed(block) && WellFormed(OneElem(block));
    assert WellFormed(OneMember("content", OneElem(block)));
    assert WellFormed(OneElem(OneMember("content", OneElem(block))));
  }

  lemma UnmarkedIsMissed(g: Rules, body: Doc)
    requires body.Obj? && WellFormed(body) && AllExact(g, body.members) && ModelField(g, body.members, "") == Some("")
    requires Lookup(g, body.members, "anthropic_version").None? && Lookup(g, body.members, "system").None?
    requires var messages := Lookup(g, body.members, "messages");
             NonEmptyArray(messages) && AnyClaudeMessage(g, messages.value.elems)
    requires Lacks(Print(body), 'l') && Lacks(Print(body), 'b')
    ensures ProbeBody(g, "", body, "") != (Detect(g, body), "")
  {
    assert "" + Print(body) + "" == Print(body);
    Unmarked(Print(body));
    EscapedMarkersMissed(g, "", body, "", "");
  }

  /** A Claude body whose only marker is escaped is not recognised by the probe. */
  lemma EscapedMarkerExample(g: Rules)
    requires ReadsPlainly(g)
    ensures Detect(g, EscapedBody()) == Claude && ProbeBody(g, "", EscapedBody(), "") != (Claude, "")
  {
    EscapedIsClaude(g);
    EscapedReads(g);
    EscapedLacks('l');
    EscapedLacks('b');
    UnmarkedIsMissed(g, EscapedBody());
  }

  /** The same body with the marker written plainly. */
  function PlainBody(): Doc {
    OneMember("messages", OneElem(OneMember("content", OneElem(OneMember("type", Str("tool_use"))))))
  }

  /** For the same reader the probe does recognise the body with the plain marker. */
  lemma PlainMarkerExample(g: Rules)
    requires ReadsPlainly(g) && g.decode("tool_use") == "tool_use"
    ensures ProbeBody(g, "", PlainBody(), "") == (Detect(g, PlainBody()), ExtractModelId(g, PlainBody()))
  {
    var block := OneMember("type", Str("tool_use"));
    PlainMember(g, "type", Str("tool_use"));
    PlainElem(g, block);
    PlainMember(g, "content", OneElem(block));
    PlainElem(g, OneMember("content", OneElem(block)));
    PlainMember(g, "messages", OneElem(OneMember("content", OneElem(block))));
    ProbeAgrees(g, "", PlainBody(), "");
  }

  lemma PlainMember(g: Rules, key: string, v: Doc)
    requires WellFormed(v) && PlainMarkers(g, v)
    ensures WellFormed(OneMember(key, v)) && PlainMarkers(g, OneMember(key, v))
  {
    assert PlainMembers(g, NoMembers) && WellFormedMembers(NoMembers);
    assert PlainMembers(g, OneMember(key, v).members) && WellFormedMembers(OneMember(key, v).members);
  }

  lemma PlainElem(g: Rules, v: Doc)
    requires WellFormed(v) && PlainMarkers(g, v)
    ensures WellFormed(OneElem(v)) && PlainMarkers(g, OneElem(v))
  {
    assert PlainElems(g, NoElems) && WellFormedElems(NoElems);
    assert PlainElems(g, OneElem(v).elems) && WellFormedElems(OneElem(v).elems);
  }
}
