/** Data model of the NeMo chat-template renderer: the messages it is given,
    the special-token bundle, the turn records it builds and rewrites, and
    the errors it can raise. */
module ChatTypes {

  datatype Option<T> = None | Some(value: T)

  /** The errors the renderer raises. */
  datatype Error =
    /** A label that is neither a string nor None (a ValueError). */
    | UnknownLabelType(typeName: string)
    /** A layout other than None, VALUE_TO_TEXT or TEXT_TO_VALUE while rendering turns (a ValueError). */
    | UnsupportedSourceType(sourceType: string)
    /** A layout missing from the instruction table while building the header (an AssertionError). */
    | SourceTypeAssertion(sourceType: string)

  datatype Result<T> = Ok(value: T) | Err(error: Error)

  /** One input message: `{role, content}`. */
  datatype Message = Message(role: string, content: string)

  /** The five special-token strings; every one of them may be empty. */
  datatype SpecialTokens = SpecialTokens(
    turnStart: string,
    endOfTurn: string,
    labelStart: string,
    endOfName: string,
    systemTurnStart: string)

  /** The value stored under a turn's `label` key: None, a string, or a value of some other type. */
  datatype LabelValue = NoneLabel | StrLabel(text: string) | OtherLabel(typeName: string)

  /** The contents of one turn record at one moment. `turnLabel` is `None` when the record has no `label` key. */
  datatype TurnRecord = TurnRecord(from: string, value: string, turnLabel: Option<LabelValue>)

  /** A turn record as the renderer holds it: a mutable object whose `value` is rewritten in place. */
  class Turn {
    var from: string
    var value: string
    var turnLabel: Option<LabelValue>

    constructor (from: string, value: string, turnLabel: Option<LabelValue>)
      ensures this.from == from && this.value == value && this.turnLabel == turnLabel
    {
      this.from := from;
      this.value := value;
      this.turnLabel := turnLabel;
    }

    function Record(): TurnRecord
      reads this
    {
      TurnRecord(from, value, turnLabel)
    }
  }

  /** The current contents of a list of turn objects. */
  function Records(ts: seq<Turn>): (r: seq<TurnRecord>)
    reads ts
    ensures |r| == |ts|
    ensures forall k :: 0 <= k < |ts| ==> r[k] == ts[k].Record()
  {
    if ts == [] then [] else Records(ts[..|ts| - 1]) + [ts[|ts| - 1].Record()]
  }

  lemma RecordsSnoc(ts: seq<Turn>, t: Turn)
    ensures Records(ts + [t]) == Records(ts) + [t.Record()]
  {
    assert (ts + [t])[..|ts|] == ts;
  }

  /** No turn object occurs twice in the list. */
  predicate Distinct(ts: seq<Turn>)
  {
    forall i, j :: 0 <= i < |ts| && 0 <= j < |ts| && i != j ==> ts[i] != ts[j]
  }

  lemma DistinctSnoc(ts: seq<Turn>, t: Turn)
    requires Distinct(ts) && t !in ts
    ensures Distinct(ts + [t])
  {
  }

  /** The normalized conversation: the dictionary with keys `system`,
      `conversations`, `mask` and `type`. `mask` and `dataType` are `None`
      when the key is absent (or, for `type`, holds None). */
  datatype Source = Source(
    system: string,
    conversations: seq<Turn>,
    mask: Option<string>,
    dataType: Option<string>)
}
