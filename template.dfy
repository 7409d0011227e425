/** `apply_nemo_chat_template`: the top level. It optionally appends an empty
    assistant message to a copy of the messages, normalizes them, renders the
    header and the turns, and with a generation prompt cuts
    `len(end_of_turn + turn_start)` characters off the end. */
module NemoChatTemplate {
  import opened ChatTypes
  import opened Text
  import opened Convert
  import opened Signals
  import opened Header

  /** The synthetic trailing message added for a generation prompt. */
  const GenerationPromptMessage := Message("assistant", "")

  /** The message list the renderer works on: a new list when the prompt is added. */
  function WithGenerationPrompt(messages: seq<Message>, addGenerationPrompt: bool): seq<Message>
  {
    if addGenerationPrompt then messages + [GenerationPromptMessage] else messages
  }

  /** The number of characters the generation prompt cuts off the end. */
  function StripLength(tokens: SpecialTokens): nat
  {
    |tokens.endOfTurn + tokens.turnStart|
  }

  /** What `apply_nemo_chat_template(messages, tokens, addGenerationPrompt)` returns; the prompt is added unless the caller turns it off. */
  function ChatTemplate(messages: seq<Message>, tokens: SpecialTokens, addGenerationPrompt: bool := true): Result<string>
  {
    var msgs := WithGenerationPrompt(messages, addGenerationPrompt);
    Finish(HeaderAndConversation(SystemText(msgs), TurnsOf(msgs), Some(DefaultMaskRole), Some(ValueToText), tokens),
           tokens, addGenerationPrompt)
  }

  /** The conversation out of the header builder's outcome, sliced when the generation prompt was added. */
  function Finish(rendered: Result<Rendering>, tokens: SpecialTokens, addGenerationPrompt: bool): Result<string>
  {
    match rendered
    case Err(e) => Err(e)
    case Ok(rendering) =>
      Ok(if addGenerationPrompt then PySliceTo(rendering.conversation, -(StripLength(tokens) as int)) else rendering.conversation)
  }

  /** The system segment, written out. */
  function SystemHeader(system: string, tokens: SpecialTokens): string
  {
    tokens.systemTurnStart + "System" + tokens.endOfName + system + tokens.endOfTurn
  }

  /** A turn without a label block, written out. */
  function PlainTurn(t: TurnRecord, tokens: SpecialTokens): string
  {
    tokens.turnStart + t.from + tokens.endOfName + t.value + tokens.endOfTurn
  }

  /** The turns without label blocks, one after another. */
  function PlainText(ts: seq<TurnRecord>, tokens: SpecialTokens): string
  {
    if ts == [] then "" else PlainText(ts[..|ts| - 1], tokens) + PlainTurn(ts[|ts| - 1], tokens)
  }

  lemma PlainTextSnoc(ts: seq<TurnRecord>, t: TurnRecord, tokens: SpecialTokens)
    ensures PlainText(ts + [t], tokens) == PlainText(ts, tokens) + PlainTurn(t, tokens)
  {
    assert (ts + [t])[..|ts|] == ts;
  }

  /** Pieces that are the plain turns, position by position, concatenate to the plain text. */
  lemma {:induction false} ConcatOfPlainTurns(ts: seq<TurnRecord>, ds: seq<string>, tokens: SpecialTokens)
    requires |ds| == |ts| && forall k :: 0 <= k < |ts| ==> ds[k] == PlainTurn(ts[k], tokens)
    ensures Concat(ds) == PlainText(ts, tokens)
  {
    if ts != [] {
      ConcatOfPlainTurns(ts[..|ts| - 1], ds[..|ds| - 1], tokens);
    }
  }

  /** Turns whose label is None render under VALUE_TO_TEXT without label blocks. */
  lemma UnlabelledTurnsRender(header: string, ts: seq<TurnRecord>, maskRole: string, tokens: SpecialTokens)
    requires forall k :: 0 <= k < |ts| ==> ts[k].turnLabel == Some(NoneLabel)
    ensures RenderTurns(header, ts, maskRole, Some(ValueToText), tokens)
         == Ok(header + PlainText(ts, tokens) + Trailer(ts, maskRole, tokens))
  {
    forall k | 0 <= k < |ts| ensures Decorate(ts[k], Some(ValueToText), tokens) == Ok(PlainTurn(ts[k], tokens)) {
      UnlabelledDecoration(ts[k], Some(ValueToText), tokens);
    }
    var all := DecorateAll(ts, Some(ValueToText), tokens);
    assert all.Ok?;
    ConcatOfPlainTurns(ts, all.value, tokens);
  }

  /** The header builder on unlabelled turns under VALUE_TO_TEXT with mask "User" never fails. */
  lemma UnlabelledHeaderAndConversation(system: string, ts: seq<TurnRecord>, tokens: SpecialTokens)
    requires forall k :: 0 <= k < |ts| ==> ts[k].turnLabel == Some(NoneLabel)
    ensures HeaderAndConversation(system, ts, Some(DefaultMaskRole), Some(ValueToText), tokens)
         == Ok(Rendering(SystemHeader(system, tokens),
                         SystemHeader(system, tokens) + PlainText(ts, tokens) + Trailer(ts, DefaultMaskRole, tokens),
                         Some(ValueToText), DefaultMaskRole))
  {
    UnlabelledTurnsRender(SystemHeader(system, tokens), ts, DefaultMaskRole, tokens);
  }

  /** The rendering of `messages` under VALUE_TO_TEXT with mask role "User":
      the system header, every non-system message as
      `turn_start + Role + end_of_name + content + end_of_turn` in order, and
      one more turn start iff the last turn's speaker is not "User". */
  function Untrimmed(messages: seq<Message>, tokens: SpecialTokens): string
  {
    Body(messages, tokens) + Trailer(TurnsOf(messages), DefaultMaskRole, tokens)
  }

  /** The system header followed by the plain turns of the non-system messages. */
  function Body(messages: seq<Message>, tokens: SpecialTokens): string
  {
    SystemHeader(SystemText(messages), tokens) + PlainText(TurnsOf(messages), tokens)
  }

  /** No input makes the renderer fail: the result is the rendering of the
      messages, or of the extended copy sliced by the strip length when the
      generation prompt is added. */
  lemma ChatTemplateRendering(messages: seq<Message>, tokens: SpecialTokens, addGenerationPrompt: bool)
    ensures ChatTemplate(messages, tokens, addGenerationPrompt)
         == Ok(if addGenerationPrompt
               then PySliceTo(Untrimmed(messages + [GenerationPromptMessage], tokens), -(StripLength(tokens) as int))
               else Untrimmed(messages, tokens))
  {
    var msgs := WithGenerationPrompt(messages, addGenerationPrompt);
    TurnsOfUnlabelled(msgs);
    UnlabelledHeaderAndConversation(SystemText(msgs), TurnsOf(msgs), tokens);
    var rendered := HeaderAndConversation(SystemText(msgs), TurnsOf(msgs), Some(DefaultMaskRole), Some(ValueToText), tokens);
    assert rendered.value.conversation == Untrimmed(msgs, tokens);
    ChatTemplateOfRendering(messages, tokens, addGenerationPrompt, rendered);
  }

  /** `ChatTemplate` once the header builder has produced `rendered`, which it always does. */
  lemma ChatTemplateOfRendering(messages: seq<Message>, tokens: SpecialTokens, addGenerationPrompt: bool, rendered: Result<Rendering>)
    requires var msgs := WithGenerationPrompt(messages, addGenerationPrompt);
      HeaderAndConversation(SystemText(msgs), TurnsOf(msgs), Some(DefaultMaskRole), Some(ValueToText), tokens) == rendered
    ensures rendered.Ok?
    ensures ChatTemplate(messages, tokens, addGenerationPrompt)
         == Ok(if addGenerationPrompt then PySliceTo(rendered.value.conversation, -(StripLength(tokens) as int)) else rendered.value.conversation)
  {
    NormalizedRenderingSucceeds(WithGenerationPrompt(messages, addGenerationPrompt), tokens);
    assert ChatTemplate(messages, tokens, addGenerationPrompt) == Finish(rendered, tokens, addGenerationPrompt);
  }

  lemma NormalizedRenderingSucceeds(msgs: seq<Message>, tokens: SpecialTokens)
    ensures HeaderAndConversation(SystemText(msgs), TurnsOf(msgs), Some(DefaultMaskRole), Some(ValueToText), tokens).Ok?
  {
    TurnsOfUnlabelled(msgs);
    UnlabelledHeaderAndConversation(SystemText(msgs), TurnsOf(msgs), tokens);
  }

  /** The renderer never fails on the path from messages. */
  lemma ChatTemplateNeverFails(messages: seq<Message>, tokens: SpecialTokens, addGenerationPrompt: bool)
    ensures ChatTemplate(messages, tokens, addGenerationPrompt).Ok?
  {
    ChatTemplateRendering(messages, tokens, addGenerationPrompt);
  }

  lemma {:induction false} TurnsOfOnlySystem(ms: seq<Message>)
    requires forall i :: 0 <= i < |ms| ==> IsSystem(ms[i])
    ensures TurnsOf(ms) == []
  {
    if ms != [] {
      TurnsOfOnlySystem(ms[..|ms| - 1]);
    }
  }

  /** With no messages, or only system messages, and no generation prompt the result is the header alone. */
  lemma OnlyHeaderWithoutTurns(messages: seq<Message>, tokens: SpecialTokens)
    requires forall i :: 0 <= i < |messages| ==> IsSystem(messages[i])
    ensures ChatTemplate(messages, tokens, false) == Ok(SystemHeader(SystemText(messages), tokens))
  {
    TurnsOfOnlySystem(messages);
    var sh := SystemHeader(SystemText(messages), tokens);
    assert PlainText(TurnsOf(messages), tokens) == "";
    assert Trailer(TurnsOf(messages), DefaultMaskRole, tokens) == "";
    assert Body(messages, tokens) == sh;
    assert Untrimmed(messages, tokens) == sh;
    ChatTemplateRendering(messages, tokens, false);
    assert ChatTemplate(messages, tokens, false) == Ok(Untrimmed(messages, tokens));
  }

  lemma CapitalizeAssistant()
    ensures Capitalize("assistant") == "Assistant"
  {
    var c := Capitalize("assistant");
    assert c[0] == 'A' && c[1] == 's' && c[2] == 's' && c[3] == 'i' && c[4] == 's';
    assert c[5] == 't' && c[6] == 'a' && c[7] == 'n' && c[8] == 't';
  }

  lemma CapitalizeUser()
    ensures Capitalize("user") == "User"
  {
    var c := Capitalize("user");
    assert c[0] == 'U' && c[1] == 's' && c[2] == 'e' && c[3] == 'r';
  }

  /** The prompt message adds one turn, spoken by "Assistant", with an empty value. */
  lemma TurnsWithPromptMessage(messages: seq<Message>)
    ensures TurnsOf(messages + [GenerationPromptMessage]) == TurnsOf(messages) + [TurnRecord("Assistant", "", Some(NoneLabel))]
  {
    var ms := messages + [GenerationPromptMessage];
    assert ms[..|ms| - 1] == messages;
    CapitalizeAssistant();
  }

  /** Appending the empty assistant turn to any turns and rendering them. */
  lemma AssistantTurnRenders(system: string, ts: seq<TurnRecord>, tokens: SpecialTokens)
    ensures var a := TurnRecord("Assistant", "", Some(NoneLabel));
      SystemHeader(system, tokens) + PlainText(ts + [a], tokens) + Trailer(ts + [a], DefaultMaskRole, tokens)
      == SystemHeader(system, tokens) + PlainText(ts, tokens)
         + (tokens.turnStart + "Assistant" + tokens.endOfName) + (tokens.endOfTurn + tokens.turnStart)
  {
    var a := TurnRecord("Assistant", "", Some(NoneLabel));
    PlainTextSnoc(ts, a, tokens);
    assert Trailer(ts + [a], DefaultMaskRole, tokens) == tokens.turnStart;
    assert PlainTurn(a, tokens) == tokens.turnStart + "Assistant" + tokens.endOfName + tokens.endOfTurn;
  }

  /** The untrimmed rendering with the generation prompt: the body of the
      caller's messages, then the empty assistant turn, closed by `end_of_turn`
      and the trailing `turn_start` (its speaker "Assistant" is not "User"). */
  lemma UntrimmedWithPromptMessage(messages: seq<Message>, tokens: SpecialTokens)
    ensures Untrimmed(messages + [GenerationPromptMessage], tokens)
         == Body(messages, tokens) + (tokens.turnStart + "Assistant" + tokens.endOfName) + (tokens.endOfTurn + tokens.turnStart)
  {
    TurnsWithPromptMessage(messages);
    SystemTextSnocNonSystem(messages, GenerationPromptMessage);
    AssistantTurnRenders(SystemText(messages), TurnsOf(messages), tokens);
  }

  lemma StripRemovesClosingDelimiters(messages: seq<Message>, tokens: SpecialTokens)
    requires |tokens.endOfTurn| + |tokens.turnStart| > 0
    ensures Untrimmed(messages + [GenerationPromptMessage], tokens)
         == Body(messages, tokens) + (tokens.turnStart + "Assistant" + tokens.endOfName) + (tokens.endOfTurn + tokens.turnStart)
    ensures PySliceTo(Untrimmed(messages + [GenerationPromptMessage], tokens), -(StripLength(tokens) as int))
         == Body(messages, tokens) + (tokens.turnStart + "Assistant" + tokens.endOfName)
  {
    UntrimmedWithPromptMessage(messages, tokens);
    SliceDropsSuffix(Body(messages, tokens) + (tokens.turnStart + "Assistant" + tokens.endOfName), tokens.endOfTurn + tokens.turnStart);
  }

  /** With a generation prompt the result ends with
      `turn_start + "Assistant" + end_of_name`, where a completion begins,
      right after the rendering of the caller's own messages. */
  lemma GenerationPromptEndsAtAssistant(messages: seq<Message>, tokens: SpecialTokens)
    requires |tokens.endOfTurn| + |tokens.turnStart| > 0
    ensures ChatTemplate(messages, tokens, true)
         == Ok(Body(messages, tokens) + (tokens.turnStart + "Assistant" + tokens.endOfName))
  {
    StripRemovesClosingDelimiters(messages, tokens);
    ChatTemplateRendering(messages, tokens, true);
  }

  /** A caller that omits the flag gets the generation prompt. */
  lemma DefaultEndsAtAssistant(messages: seq<Message>, tokens: SpecialTokens)
    requires |tokens.endOfTurn| + |tokens.turnStart| > 0
    ensures ChatTemplate(messages, tokens)
         == Ok(Body(messages, tokens) + (tokens.turnStart + "Assistant" + tokens.endOfName))
  {
    GenerationPromptEndsAtAssistant(messages, tokens);
  }

  /** The result with a generation prompt is the rendering of the extended
      copy without it, minus its last `len(end_of_turn) + len(turn_start)`
      characters, and those characters are exactly `end_of_turn + turn_start`. */
  lemma GenerationPromptStripsClosingDelimiters(messages: seq<Message>, tokens: SpecialTokens)
    requires |tokens.endOfTurn| + |tokens.turnStart| > 0
    ensures ChatTemplate(messages, tokens, true).Ok?
    ensures ChatTemplate(messages + [GenerationPromptMessage], tokens, false)
         == Ok(ChatTemplate(messages, tokens, true).value + tokens.endOfTurn + tokens.turnStart)
  {
    var body := Body(messages, tokens) + (tokens.turnStart + "Assistant" + tokens.endOfName);
    GenerationPromptEndsAtAssistant(messages, tokens);
    ExtendedCopyRendering(messages, tokens);
    assert body + (tokens.endOfTurn + tokens.turnStart) == body + tokens.endOfTurn + tokens.turnStart;
  }

  lemma ExtendedCopyRendering(messages: seq<Message>, tokens: SpecialTokens)
    ensures ChatTemplate(messages + [GenerationPromptMessage], tokens, false)
         == Ok(Body(messages, tokens) + (tokens.turnStart + "Assistant" + tokens.endOfName) + (tokens.endOfTurn + tokens.turnStart))
  {
    UntrimmedWithPromptMessage(messages, tokens);
    ChatTemplateRendering(messages + [GenerationPromptMessage], tokens, false);
  }

  /** When `end_of_turn` and `turn_start` are both empty the slice `[:-0]`
      keeps nothing: with a generation prompt the result is the empty string. */
  lemma EmptyDelimitersGiveEmptyPrompt(messages: seq<Message>, tokens: SpecialTokens)
    requires tokens.endOfTurn == "" && tokens.turnStart == ""
    ensures ChatTemplate(messages, tokens, true) == Ok("")
  {
    ChatTemplateRendering(messages, tokens, true);
  }

  /** Only the first system message counts: the content of any later system
      message has no effect on the result. */
  lemma LaterSystemMessagesIgnored(messages: seq<Message>, i: int, j: int, c: string, tokens: SpecialTokens, addGenerationPrompt: bool)
    requires 0 <= j < i < |messages| && IsSystem(messages[j]) && IsSystem(messages[i])
    ensures ChatTemplate(messages[i := Message("system", c)], tokens, addGenerationPrompt)
         == ChatTemplate(messages, tokens, addGenerationPrompt)
  {
    var ms := WithGenerationPrompt(messages, addGenerationPrompt);
    assert WithGenerationPrompt(messages[i := Message("system", c)], addGenerationPrompt) == ms[i := Message("system", c)];
    SystemTextIgnoresLaterSystem(ms, i, j, c);
    TurnsOfIgnoresSystemContent(ms, i, c);
  }

  /** The messages of a system message followed by a user message. */
  lemma SystemThenUserTurns(sys: string, hi: string)
    ensures SystemText([Message("system", sys), Message("user", hi)]) == sys
    ensures TurnsOf([Message("system", sys), Message("user", hi)]) == [TurnRecord("User", hi, Some(NoneLabel))]
  {
    var ms := [Message("system", sys), Message("user", hi)];
    CapitalizeUser();
    TurnsOfConcat([Message("system", sys)], [Message("user", hi)]);
    TurnsOfOne(Message("system", sys));
    TurnsOfOne(Message("user", hi));
    assert [Message("system", sys)] + [Message("user", hi)] == ms;
    assert IsSystem(ms[0]) && NoSystemBefore(ms, 0);
  }

  /** A system message followed by a user message, without a generation prompt. */
  lemma SystemThenUser(sys: string, hi: string, tokens: SpecialTokens)
    ensures ChatTemplate([Message("system", sys), Message("user", hi)], tokens, false)
         == Ok(tokens.systemTurnStart + "System" + tokens.endOfName + sys + tokens.endOfTurn
               + tokens.turnStart + "User" + tokens.endOfName + hi + tokens.endOfTurn)
  {
    SystemThenUserUntrimmed(sys, hi, tokens);
    ChatTemplateRendering([Message("system", sys), Message("user", hi)], tokens, false);
  }

  lemma SystemThenUserUntrimmed(sys: string, hi: string, tokens: SpecialTokens)
    ensures Untrimmed([Message("system", sys), Message("user", hi)], tokens)
         == tokens.systemTurnStart + "System" + tokens.endOfName + sys + tokens.endOfTurn
            + tokens.turnStart + "User" + tokens.endOfName + hi + tokens.endOfTurn
  {
    var ms := [Message("system", sys), Message("user", hi)];
    var u := TurnRecord("User", hi, Some(NoneLabel));
    SystemThenUserTurns(sys, hi);
    PlainTextSnoc([], u, tokens);
    assert [] + [u] == [u];
    assert Trailer([u], DefaultMaskRole, tokens) == "";
    var sh, pt := SystemHeader(sys, tokens), PlainTurn(u, tokens);
    assert PlainText([u], tokens) == pt;
    assert Untrimmed(ms, tokens) == sh + pt;
    assert sh + pt == sh + tokens.turnStart + "User" + tokens.endOfName + hi + tokens.endOfTurn;
  }

  /** `apply_nemo_chat_template`, with the generation prompt on by default. The
      caller's list is a value here, so the generation prompt necessarily goes
      into a new list. */
  method ApplyNemoChatTemplate(messages: seq<Message>, chatPromptTokens: SpecialTokens, addGenerationPrompt: bool := true)
    returns (conversation: string)
    ensures ChatTemplate(messages, chatPromptTokens, addGenerationPrompt) == Ok(conversation)
  {
    var msgs := messages;
    if addGenerationPrompt {
      msgs := messages + [GenerationPromptMessage];
    }
    var specialTokens := chatPromptTokens;
    assert msgs == WithGenerationPrompt(messages, addGenerationPrompt);
    var nemoSource := ConvertMessages(msgs);
    var rendered := GetHeaderConversationTypeMaskRole(nemoSource, specialTokens);
    ChatTemplateOfRendering(messages, specialTokens, addGenerationPrompt, rendered);
    conversation := rendered.value.conversation;
    if addGenerationPrompt {
      var lenStrip := |specialTokens.endOfTurn + specialTokens.turnStart|;
      assert lenStrip == StripLength(specialTokens);
      conversation := PySliceTo(conversation, -lenStrip);
      assert ChatTemplate(messages, specialTokens, true) == Ok(conversation);
    } else {
      assert ChatTemplate(messages, specialTokens, false) == Ok(conversation);
    }
  }
}
