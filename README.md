# NeMo chat-template renderer in Dafny

This project models `apply_nemo_chat_template` from NeMo-Aligner's GRPO data
utilities. The function turns an ordered list of `{role, content}` chat
messages and a bundle of five special-token strings (`turn_start`,
`end_of_turn`, `label_start`, `end_of_name`, `system_turn_start`) into one
flat, delimited prompt string. It has four nested helpers, each modelled in
its own form:

- `convert_messages` (module `Convert`, imperative). It finds the first system
  message and builds one turn object per other message, with a capitalised
  speaker and a `None` label. Its two loops are the methods `ExtractSystem` and
  `BuildConversations`. Both are proved against the functions `SystemText` and
  `TurnsOf`.
- `response_value_formater` (module `Signals`, pure). It is the function
  `FormatLabel`.
- `_add_speaker_and_signal` (module `Signals`, imperative). It is the method
  `AddSpeakerAndSignal` over a sequence of `Turn` objects. It overwrites
  each turn's `value` in place and grows the conversation accumulator. It is
  proved against `RenderTurns`, for the returned string, and `Rewritten`, for
  the new turn records.
  - The same `Signals` module holds the `Decorate` function for the three
    layouts (none, `VALUE_TO_TEXT`, `TEXT_TO_VALUE`) and the trailing
    `turn_start` rule.
- `_get_header_conversation_type_mask_role` (module `Header`). It checks the
  layout and builds the system header. It is the method
  `GetHeaderConversationTypeMaskRole`, proved against `HeaderAndConversation`.
- The top level (module `NemoChatTemplate`) is the method `ApplyNemoChatTemplate`,
  proved against the function `ChatTemplate`.
  - The lemmas beside it give the rendering in closed form: header, plain
    turns, trailer.
  - They also give the generation-prompt slice and the `[:-0]` edge case.

The errors the Python code raises are values of `ChatTypes.Error` inside a
`Result`:
- `UnknownLabelType`: the label type error.
- `UnsupportedSourceType`: the layout error while decorating turns.
- `SourceTypeAssertion`: the failed layout assertion while building the header.

The shared helpers are in `Text`:
- ASCII `str.capitalize`;
- the concatenation of a list of pieces;
- Python's `s[:stop]` slice, including a negative and a zero `stop`.

Where the documentation and the code differ, the model follows the code:
- Role strings are open. Any role other than `"system"` becomes a turn, and an
  empty role gives an empty speaker.
- The closing slice is `[:-len_strip]`, so when `end_of_turn` and `turn_start`
  are both empty the result with a generation prompt is the empty string. The
  slice does not check which characters it removes.

All source cells below refer to `nemo_aligner/experimental/grpo/data/nemo_text_utils.py`.

## Model

| member | source | states |
|---|---|---|
| Text.Capitalize | nemo_aligner/experimental/grpo/data/nemo_text_utils.py:20 | `str.capitalize` over ASCII: same length, the first character upper-cased, every later character lower-cased |
| Text.PySliceTo | nemo_aligner/experimental/grpo/data/nemo_text_utils.py:127-128 | Python's `s[:stop]`: always a prefix of `s`; a non-negative stop keeps `min(stop, len(s))` characters and a negative stop keeps `max(0, len(s)+stop)`; a zero stop keeps none, so `[:-0]` is empty |
| Text.SliceDropsSuffix | nemo_aligner/experimental/grpo/data/nemo_text_utils.py:127-128 | cutting `len(t)` characters off `s + t`, with `t` non-empty, gives back exactly `s` |
| Text.Concat | nemo_aligner/experimental/grpo/data/nemo_text_utils.py:91 | defines the conversation accumulator: the pieces written one after another, in order; `ConcatAppend` splits it over concatenation |
| Text.ConcatAppend | nemo_aligner/experimental/grpo/data/nemo_text_utils.py:91 | the accumulated text of two runs of pieces is the first run's text followed by the second's |
| Convert.IsSystem | nemo_aligner/experimental/grpo/data/nemo_text_utils.py:12 | defines the test both loops apply to a message: its role is exactly `"system"` (also line 18, negated) |
| Convert.SystemText | nemo_aligner/experimental/grpo/data/nemo_text_utils.py:10-14 | `""` when no message has role `"system"`; otherwise the content of the first such message |
| Convert.ExtractSystem | nemo_aligner/experimental/grpo/data/nemo_text_utils.py:3-14 | the first loop, with its `break`, returns exactly `SystemText` of the input |
| Convert.SystemTextIgnoresLaterSystem | nemo_aligner/experimental/grpo/data/nemo_text_utils.py:11-14 | rewriting a system message that follows another system message leaves the system text unchanged |
| Convert.SystemTextSnocNonSystem | nemo_aligner/experimental/grpo/data/nemo_text_utils.py:11-14 | appending a non-system message leaves the system text unchanged |
| Convert.TurnOf | nemo_aligner/experimental/grpo/data/nemo_text_utils.py:19-23 | defines the turn record built for one non-system message: speaker `role.capitalize()`, value `content`, label None |
| Convert.TurnsOf | nemo_aligner/experimental/grpo/data/nemo_text_utils.py:17-24 | defines the turn list: `TurnOf` of every non-system message, in input order; the `TurnsOf…` lemmas below characterise it |
| Convert.TurnsOfUnlabelled | nemo_aligner/experimental/grpo/data/nemo_text_utils.py:17-24 | at most one turn per message, and every turn's label is `None` |
| Convert.TurnsOfConcat | nemo_aligner/experimental/grpo/data/nemo_text_utils.py:17-24 | the turns of a concatenation are the turns of each part in order |
| Convert.TurnsOfOne | nemo_aligner/experimental/grpo/data/nemo_text_utils.py:18-23 | one message gives no turn if it is a system message; otherwise one turn with the capitalised role, the content and a `None` label |
| Convert.TurnsOfNoSystem | nemo_aligner/experimental/grpo/data/nemo_text_utils.py:17-24 | without system messages there is one turn per message, position by position |
| Convert.TurnsOfIgnoresSystemContent | nemo_aligner/experimental/grpo/data/nemo_text_utils.py:17-18 | the content of a system message never reaches the turn list |
| Convert.TurnsOfSnoc | nemo_aligner/experimental/grpo/data/nemo_text_utils.py:17-24 | one more message adds its turn at the end exactly when it is not a system message |
| Convert.BuildConversations | nemo_aligner/experimental/grpo/data/nemo_text_utils.py:17-24 | the second loop creates distinct, fresh turn objects whose records are exactly `TurnsOf` of the input, in order |
| Convert.ConvertMessages | nemo_aligner/experimental/grpo/data/nemo_text_utils.py:2-26 | the normalised conversation: the system text, the fresh turns, mask `"User"` and layout `VALUE_TO_TEXT` |
| Signals.FormatLabel | nemo_aligner/experimental/grpo/data/nemo_text_utils.py:35-41 | fails exactly for a label that is neither a string nor None. None gives `""`. A string gives `label_start`, then the label, then `end_signal`, checked piece by piece |
| Signals.LabelBlock | nemo_aligner/experimental/grpo/data/nemo_text_utils.py:65-69 | defines the label block of a turn: `response_value_formater` of the label when the record has a `label` key, otherwise the empty string (also lines 81-85) |
| Signals.Opening | nemo_aligner/experimental/grpo/data/nemo_text_utils.py:54-64 | defines the opening every decorated turn starts with: `turn_start + from + end_of_name` |
| Signals.Decorate | nemo_aligner/experimental/grpo/data/nemo_text_utils.py:55-90 | defines the decoration of one turn under each layout: the plain form with no layout, the label block before the value for VALUE_TO_TEXT, after it for TEXT_TO_VALUE, the layout error otherwise; the lemmas below state each case |
| Signals.DecorateOutcome | nemo_aligner/experimental/grpo/data/nemo_text_utils.py:52-90 | a turn fails to decorate exactly for an unsupported layout, or for a non-string, non-None label under a labelled layout; every decorated turn starts with `turn_start + from + end_of_name` and is at least as long as that opening, the value and the end of turn together |
| Signals.ValueToTextLabelBeforeValue | nemo_aligner/experimental/grpo/data/nemo_text_utils.py:59-72 | VALUE_TO_TEXT places `label_start + label + end_of_name` between the opening and `value + end_of_turn` |
| Signals.TextToValueLabelAfterValue | nemo_aligner/experimental/grpo/data/nemo_text_utils.py:73-86 | TEXT_TO_VALUE places the label block after `value + end_of_turn` |
| Signals.UnlabelledDecoration | nemo_aligner/experimental/grpo/data/nemo_text_utils.py:55-86 | with no layout, or with a labelled layout and a None label or no label key, the turn decorates to `turn_start + from + end_of_name + value + end_of_turn` |
| Signals.DecoratedPrefix | nemo_aligner/experimental/grpo/data/nemo_text_utils.py:52-90 | the number of turns the loop rewrites before it raises: every earlier turn decorates, and the turn at that index fails |
| Signals.DecorateAll | nemo_aligner/experimental/grpo/data/nemo_text_utils.py:52-90 | succeeds iff every turn decorates, and then gives each turn's decoration in order; otherwise the error is that of some turn before which all decorate |
| Signals.Rewritten | nemo_aligner/experimental/grpo/data/nemo_text_utils.py:56-86 | the rewrite keeps the number of turns, and every turn's speaker and label |
| Signals.Trailer | nemo_aligner/experimental/grpo/data/nemo_text_utils.py:92-94 | defines the trailing `turn_start`: present iff there is a last turn and its speaker differs from the mask role, otherwise empty |
| Signals.RenderTurns | nemo_aligner/experimental/grpo/data/nemo_text_utils.py:43-95 | defines what `_add_speaker_and_signal` returns: the first failing turn's error, or the header, every decoration in order and the trailer |
| Signals.RenderedIsHeaderThenValues | nemo_aligner/experimental/grpo/data/nemo_text_utils.py:51-95 | the rendering succeeds iff every turn decorates; it is then the header, each turn's new value in order, and the trailer: one `turn_start` iff the last turn's speaker differs from the mask role |
| Signals.RenderFailsAtFirstFailingTurn | nemo_aligner/experimental/grpo/data/nemo_text_utils.py:87-90 | on a failure the error is that of the first failing turn; the turns before it are rewritten, that turn and all later ones keep their records |
| Signals.RewrittenFromParts | nemo_aligner/experimental/grpo/data/nemo_text_utils.py:56-86 | overwriting the decorated prefix with its decorations gives the rewritten records |
| Signals.RenderAllDecorated | nemo_aligner/experimental/grpo/data/nemo_text_utils.py:51-95 | when every turn decorates to the matching piece, the rendering is the header, those pieces and the trailer |
| Signals.NoTurnsRendersHeader | nemo_aligner/experimental/grpo/data/nemo_text_utils.py:51-95 | with no turns the conversation is the header, under any layout, even an unsupported one |
| Signals.DecorateSentence | nemo_aligner/experimental/grpo/data/nemo_text_utils.py:53-90 | the branch on the layout computes `Decorate` of the turn object's current record |
| Signals.RewriteTurn | nemo_aligner/experimental/grpo/data/nemo_text_utils.py:53-90 | turn `i` is overwritten with its decoration and no other turn changes; on an error nothing changes |
| Signals.AddSpeakerAndSignal | nemo_aligner/experimental/grpo/data/nemo_text_utils.py:43-95 | returns `RenderTurns` of the turns' initial records, and leaves the turns holding `Rewritten` of those records, including the partial rewrite when it raises |
| Header.TypeInstruction | nemo_aligner/experimental/grpo/data/nemo_text_utils.py:30-33 | defines the layout table: `VALUE_TO_TEXT` and `TEXT_TO_VALUE` map to the empty instruction, every other layout is absent |
| Header.SystemSegment | nemo_aligner/experimental/grpo/data/nemo_text_utils.py:101-110 | defines the system text after the layout check: unchanged with no layout, the assertion error for a layout outside the table, otherwise the text with the layout's instruction appended on a new line when the instruction is not empty |
| Header.MaskRole | nemo_aligner/experimental/grpo/data/nemo_text_utils.py:111 | defines `source.get('mask', 'User')`: the `mask` entry, or `"User"` when there is none |
| Header.BuildHeader | nemo_aligner/experimental/grpo/data/nemo_text_utils.py:101-112 | fails with the assertion exactly for a non-null layout outside {VALUE_TO_TEXT, TEXT_TO_VALUE}; otherwise `system_turn_start + "System" + end_of_name + system + end_of_turn` |
| Header.HeaderAndConversation | nemo_aligner/experimental/grpo/data/nemo_text_utils.py:97-114 | on success the header is a prefix of the conversation, and the layout and the mask role (default `"User"`) are handed back |
| Header.UnknownLayoutFailsHeaderCheck | nemo_aligner/experimental/grpo/data/nemo_text_utils.py:102-105 | an unknown layout fails the header check before any turn is looked at |
| Header.GetHeaderConversationTypeMaskRole | nemo_aligner/experimental/grpo/data/nemo_text_utils.py:97-114 | returns `HeaderAndConversation` of the initial records; the turns are rewritten only when the layout check passes |
| NemoChatTemplate.WithGenerationPrompt | nemo_aligner/experimental/grpo/data/nemo_text_utils.py:116-120 | defines the list the renderer works on: with the prompt, a new list that is the messages followed by `GenerationPromptMessage`, the empty assistant message `{role: "assistant", content: ""}`; without it, the messages themselves |
| NemoChatTemplate.StripLength | nemo_aligner/experimental/grpo/data/nemo_text_utils.py:127 | defines `len_strip`: the length of `end_of_turn + turn_start` |
| NemoChatTemplate.ChatTemplate | nemo_aligner/experimental/grpo/data/nemo_text_utils.py:1-129 | defines what `apply_nemo_chat_template` returns, with `add_generation_prompt` defaulting to true: the normalised, rendered conversation of the messages, extended by the empty assistant message and sliced when the prompt is added |
| NemoChatTemplate.Finish | nemo_aligner/experimental/grpo/data/nemo_text_utils.py:126-129 | defines the last step: the header builder's error passed on, or its conversation, cut by `len(end_of_turn + turn_start)` characters when the prompt is added |
| NemoChatTemplate.SystemHeader | nemo_aligner/experimental/grpo/data/nemo_text_utils.py:112 | the reference closed form of the header: `system_turn_start + "System" + end_of_name + system + end_of_turn` |
| NemoChatTemplate.PlainText | nemo_aligner/experimental/grpo/data/nemo_text_utils.py:59-72 | the reference closed form of unlabelled turns: each `turn_start + from + end_of_name + value + end_of_turn`, in order |
| NemoChatTemplate.Body | nemo_aligner/experimental/grpo/data/nemo_text_utils.py:107-112 | the reference closed form of a message list's header and turns: `SystemHeader` of its system text followed by `PlainText` of its turns |
| NemoChatTemplate.Untrimmed | nemo_aligner/experimental/grpo/data/nemo_text_utils.py:91-95 | the reference closed form of the unsliced rendering: `Body`, then one `turn_start` iff the last turn's speaker is not `"User"` |
| NemoChatTemplate.UnlabelledTurnsRender | nemo_aligner/experimental/grpo/data/nemo_text_utils.py:59-95 | turns with None labels render under VALUE_TO_TEXT as the header, each `turn_start + from + end_of_name + value + end_of_turn` in order, and the trailer |
| NemoChatTemplate.ConcatOfPlainTurns | nemo_aligner/experimental/grpo/data/nemo_text_utils.py:91 | accumulating the unlabelled decorations one by one gives the plain text of the turns |
| NemoChatTemplate.UnlabelledHeaderAndConversation | nemo_aligner/experimental/grpo/data/nemo_text_utils.py:97-114 | for unlabelled turns under VALUE_TO_TEXT with mask "User" the header builder always succeeds, with the closed-form header and conversation |
| NemoChatTemplate.ChatTemplateRendering | nemo_aligner/experimental/grpo/data/nemo_text_utils.py:116-129 | the result is never an error. Without the prompt it is the rendering of the messages. With the prompt it is the rendering of the extended copy, cut by `len(end_of_turn + turn_start)` |
| NemoChatTemplate.ChatTemplateOfRendering | nemo_aligner/experimental/grpo/data/nemo_text_utils.py:122-129 | the header builder always succeeds on the normalised messages, and the result is its conversation, sliced when the prompt was added |
| NemoChatTemplate.NormalizedRenderingSucceeds | nemo_aligner/experimental/grpo/data/nemo_text_utils.py:122-125 | neither error can arise on the path from messages |
| NemoChatTemplate.ChatTemplateNeverFails | nemo_aligner/experimental/grpo/data/nemo_text_utils.py:116-129 | `apply_nemo_chat_template` never raises |
| NemoChatTemplate.TurnsOfOnlySystem | nemo_aligner/experimental/grpo/data/nemo_text_utils.py:17-24 | only system messages give no turns |
| NemoChatTemplate.OnlyHeaderWithoutTurns | nemo_aligner/experimental/grpo/data/nemo_text_utils.py:116-129 | with no non-system message and no prompt the result is the header alone (no trailing turn start) |
| NemoChatTemplate.TurnsWithPromptMessage | nemo_aligner/experimental/grpo/data/nemo_text_utils.py:116-120 | the added message becomes one last turn spoken by "Assistant" with an empty value |
| NemoChatTemplate.AssistantTurnRenders | nemo_aligner/experimental/grpo/data/nemo_text_utils.py:91-94 | a last "Assistant" turn with an empty value renders as `turn_start + "Assistant" + end_of_name + end_of_turn`, followed by one `turn_start`, since "Assistant" is not "User" |
| NemoChatTemplate.UntrimmedWithPromptMessage | nemo_aligner/experimental/grpo/data/nemo_text_utils.py:116-125 | the extended copy renders as the caller's messages' body, then `turn_start + "Assistant" + end_of_name`, then `end_of_turn + turn_start` |
| NemoChatTemplate.StripRemovesClosingDelimiters | nemo_aligner/experimental/grpo/data/nemo_text_utils.py:126-128 | when the delimiters are not both empty, the slice removes exactly the closing `end_of_turn + turn_start` |
| NemoChatTemplate.GenerationPromptEndsAtAssistant | nemo_aligner/experimental/grpo/data/nemo_text_utils.py:116-128 | with the prompt, the result is the rendering of the caller's messages followed by `turn_start + "Assistant" + end_of_name` |
| NemoChatTemplate.DefaultEndsAtAssistant | nemo_aligner/experimental/grpo/data/nemo_text_utils.py:1 | a caller that omits `add_generation_prompt` gets the generation prompt: the result ends with `turn_start + "Assistant" + end_of_name` |
| NemoChatTemplate.GenerationPromptStripsClosingDelimiters | nemo_aligner/experimental/grpo/data/nemo_text_utils.py:116-128 | the rendering of the extended copy equals the result with the prompt, followed by `end_of_turn + turn_start` |
| NemoChatTemplate.ExtendedCopyRendering | nemo_aligner/experimental/grpo/data/nemo_text_utils.py:116-125 | the extended copy rendered without slicing ends with `end_of_turn + turn_start` |
| NemoChatTemplate.EmptyDelimitersGiveEmptyPrompt | nemo_aligner/experimental/grpo/data/nemo_text_utils.py:126-128 | with empty `end_of_turn` and `turn_start`, `[:-0]` makes the result `""` |
| NemoChatTemplate.LaterSystemMessagesIgnored | nemo_aligner/experimental/grpo/data/nemo_text_utils.py:11-14 | the content of any system message after the first never affects the result, with or without the prompt |
| NemoChatTemplate.CapitalizeUser | nemo_aligner/experimental/grpo/data/nemo_text_utils.py:20 | the role "user" becomes the speaker "User" |
| NemoChatTemplate.CapitalizeAssistant | nemo_aligner/experimental/grpo/data/nemo_text_utils.py:20 | the role "assistant" becomes the speaker "Assistant" |
| NemoChatTemplate.SystemThenUserTurns | nemo_aligner/experimental/grpo/data/nemo_text_utils.py:2-26 | `[system sys, user hi]` normalises to system text `sys` and the single turn `User: hi` |
| NemoChatTemplate.SystemThenUserUntrimmed | nemo_aligner/experimental/grpo/data/nemo_text_utils.py:97-114 | that conversation renders to the header followed by the user's turn and no trailing turn start |
| NemoChatTemplate.SystemThenUser | nemo_aligner/experimental/grpo/data/nemo_text_utils.py:1-129 | without the prompt, `[system sys, user hi]` gives `system_turn_start+"System"+end_of_name+sys+end_of_turn+turn_start+"User"+end_of_name+hi+end_of_turn` |
| NemoChatTemplate.ApplyNemoChatTemplate | nemo_aligner/experimental/grpo/data/nemo_text_utils.py:116-129 | the top level, with `add_generation_prompt` defaulting to true, returns exactly `ChatTemplate` of its inputs, which the lemmas above characterise |

## Left out

- `chat_prompt_tokens_to_hf_jinja_chat_template` (lines 133-156) is not part of this model. It depends on Python `repr` quoting, and its output is interpreted by an external Jinja engine.
- Missing dictionary keys (`KeyError`) cannot be represented. Messages, the token bundle and the turn records are records with required fields.
  - A `label` key that is absent is `None` in `TurnRecord.turnLabel`.
  - A `type` key that is absent or holds None is `None` in `Source.dataType`.
  - A `mask` key that holds None, rather than being absent, is not represented. `convert_messages` always sets it to "User".
- `str.capitalize` is modelled over ASCII letters only. Unicode case mapping and title-case characters are not modelled.
- Signals.AddSpeakerAndSignal and Header.GetHeaderConversationTypeMaskRole require the turn objects in the list to be distinct. The source never aliases them, because every turn is a fresh dictionary. A list holding the same dictionary twice is not modelled.
- The empty `BEGIN_SIGNAL` (line 50) is dropped from every decoration, since prepending an empty string changes nothing.
- The caller's message list is a `seq` value, so it is never modified. The model cannot show the aliasing that the copy on line 118 guards against.
- The model states no bound on how often `turn_start` occurs in the output. Message contents may themselves contain the special tokens, so only the positional rules above hold.
