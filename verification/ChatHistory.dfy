/** Chat histories in the OpenAI shape, tolerating Claude-shaped content parts, as the request stages
    under internal/translate/internal/prepost and internal/translate/claude/fromopenai.go read them. */
module ChatHistory {
  import opened Basics

  datatype Role = System | User | Assistant | Tool | Unknown(name: string)

  datatype Part =
    | TextPart(text: string)
    | ToolResultPart(id: string, text: string)
    | ToolUsePart(id: string, name: string, input: string)
    | ThinkingPart(thinking: string, signature: string)
    | ImagePart(usable: bool)
    | OtherPart

  /** A content field: absent (or of no known shape), a string, or a list of parts. */
  datatype Content = Absent | Str(text: string) | Parts(parts: seq<Part>)

  datatype Call = Call(id: string, name: string, args: string)

  datatype Message = Message(role: Role, content: Content, calls: seq<Call>, callId: string)

  function PartsOf(m: Message): seq<Part> {
    if m.content.Parts? then m.content.parts else []
  }

  /** Ids of the tool results among some parts. */
  function ResultIds(ps: seq<Part>): set<string> {
    set p | p in ps && p.ToolResultPart? && p.id != "" :: p.id
  }

  /** `collectRespondedIDs`: the tool-call ids a message responds to. */
  function RespondedIds(m: Message): set<string> {
    (if m.role == Tool && m.callId != "" then {m.callId} else {}) + ResultIds(PartsOf(m))
  }

  predicate MeaningfulPart(p: Part) {
    (p.TextPart? && p.text != "") || p.ToolUsePart? || p.ToolResultPart? || p.ImagePart?
  }

  /** `hasValidContent`. */
  predicate HasValidContent(m: Message) {
    || m.calls != []
    || (m.content.Str? && m.content.text != "")
    || (m.content.Parts? && exists p :: p in m.content.parts && MeaningfulPart(p))
  }
}
