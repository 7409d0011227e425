/** `_get_header_conversation_type_mask_role`: checks the layout against the
    instruction table, builds the system header and renders the turns after it. */
module Header {
  import opened ChatTypes
  import opened Signals

  /** The fixed speaker tag of the system segment. */
  const SystemToken := "System"

  /** The default mask role when the conversation has no `mask` key. */
  const DefaultMaskRole := "User"

  /** The instruction table: both known layouts map to an empty instruction. */
  function TypeInstruction(dataType: string): Option<string>
  {
    if dataType == TextToValue || dataType == ValueToText then Some("") else None
  }

  /** The system text after the layout check, with the layout's instruction
      appended on a new line when it is not empty. */
  function SystemSegment(system: string, dataType: Option<string>): Result<string>
  {
    match dataType
    case None => Ok(system)
    case Some(g) =>
      match TypeInstruction(g)
      case None => Err(SourceTypeAssertion(g))
      case Some(instruction) => Ok(if instruction != "" then system + "\n" + instruction else system)
  }

  /** The header: fails exactly for a layout outside the table; otherwise the
      system turn start, the word "System", the end of name, the system text
      unchanged and the end of turn. */
  function BuildHeader(system: string, dataType: Option<string>, tokens: SpecialTokens): (r: Result<string>)
    ensures r.Err? <==> dataType.Some? && !IsLabelledLayout(dataType.value)
    ensures r.Err? ==> r.error == SourceTypeAssertion(dataType.value)
    ensures r.Ok? ==> r.value == tokens.systemTurnStart + "System" + tokens.endOfName + system + tokens.endOfTurn
  {
    match SystemSegment(system, dataType)
    case Err(e) => Err(e)
    case Ok(conversation) => Ok(tokens.systemTurnStart + SystemToken + tokens.endOfName + conversation + tokens.endOfTurn)
  }

  /** The mask role: the `mask` entry, or "User" when there is none. */
  function MaskRole(mask: Option<string>): string
  {
    match mask
    case Some(m) => m
    case None => DefaultMaskRole
  }

  /** The four values the header builder hands back. */
  datatype Rendering = Rendering(header: string, conversation: string, dataType: Option<string>, maskRole: string)

  /** The header builder's outcome for a conversation with system text
      `system`, turn records `ts`, `mask` and layout `dataType`. */
  function HeaderAndConversation(system: string, ts: seq<TurnRecord>, mask: Option<string>, dataType: Option<string>, tokens: SpecialTokens): (r: Result<Rendering>)
    ensures r.Ok? ==> r.value.header <= r.value.conversation
    ensures r.Ok? ==> r.value.dataType == dataType && r.value.maskRole == MaskRole(mask)
  {
    match BuildHeader(system, dataType, tokens)
    case Err(e) => Err(e)
    case Ok(header) =>
      match RenderTurns(header, ts, MaskRole(mask), dataType, tokens)
      case Err(e) => Err(e)
      case Ok(conversation) => Ok(Rendering(header, conversation, dataType, MaskRole(mask)))
  }

  /** A layout outside the table fails the header check before any turn is
      looked at, even when the turns would render. */
  lemma UnknownLayoutFailsHeaderCheck(system: string, ts: seq<TurnRecord>, mask: Option<string>, g: string, tokens: SpecialTokens)
    requires !IsLabelledLayout(g)
    ensures HeaderAndConversation(system, ts, mask, Some(g), tokens) == Err(SourceTypeAssertion(g))
  {
  }

  /** `_get_header_conversation_type_mask_role`: on a failed layout check no
      turn is touched; otherwise the turns are rendered after the header and
      rewritten in place. */
  method GetHeaderConversationTypeMaskRole(source: Source, specialTokens: SpecialTokens) returns (r: Result<Rendering>)
    requires Distinct(source.conversations)
    modifies source.conversations
    ensures r == HeaderAndConversation(source.system, old(Records(source.conversations)), source.mask, source.dataType, specialTokens)
    ensures Records(source.conversations)
         == if BuildHeader(source.system, source.dataType, specialTokens).Ok?
            then Rewritten(old(Records(source.conversations)), source.dataType, specialTokens)
            else old(Records(source.conversations))
  {
    var dataType := source.dataType;
    if dataType.Some? && TypeInstruction(dataType.value).None? {
      return Err(SourceTypeAssertion(dataType.value));
    }
    var conversation := source.system;
    if dataType.Some? {
      var instruction := TypeInstruction(dataType.value).value;
      if instruction != "" {
        conversation := conversation + "\n" + instruction;
      }
    }
    var maskRole := MaskRole(source.mask);
    var header := specialTokens.systemTurnStart + SystemToken + specialTokens.endOfName + conversation + specialTokens.endOfTurn;
    var rendered := AddSpeakerAndSignal(header, source.conversations, maskRole, dataType, specialTokens);
    if rendered.Err? {
      return Err(rendered.error);
    }
    r := Ok(Rendering(header, rendered.value, dataType, maskRole));
  }
}
