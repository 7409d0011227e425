/** `response_value_formater` and `_add_speaker_and_signal`: the label
    block, the decoration of one turn in each layout, and the loop that
    rewrites every turn's value in place while accumulating the conversation. */
module Signals {
  import opened ChatTypes
  import opened Text

  const ValueToText := "VALUE_TO_TEXT"
  const TextToValue := "TEXT_TO_VALUE"

  predicate IsLabelledLayout(g: string) { g == ValueToText || g == TextToValue }

  /** `response_value_formater`: a string label wrapped between `labelStart`
      and `endSignal`, nothing for None, an error for any other value. */
  function FormatLabel(lbl: LabelValue, labelStart: string, endSignal: string): (r: Result<string>)
    ensures r.Err? <==> lbl.OtherLabel?
    ensures r.Err? ==> r.error == UnknownLabelType(lbl.typeName)
    ensures lbl.NoneLabel? ==> r == Ok("")
    ensures lbl.StrLabel? ==> r.Ok? && |r.value| == |labelStart| + |lbl.text| + |endSignal|
    ensures lbl.StrLabel? ==> r.value[..|labelStart|] == labelStart
    ensures lbl.StrLabel? ==> r.value[|labelStart|..|r.value| - |endSignal|] == lbl.text
    ensures lbl.StrLabel? ==> r.value[|r.value| - |endSignal|..] == endSignal
  {
    match lbl
    case StrLabel(text) =>
      var s := labelStart + text + endSignal;
      assert s[..|labelStart|] == labelStart;
      assert s[|labelStart|..|s| - |endSignal|] == text;
      assert s[|s| - |endSignal|..] == endSignal;
      Ok(s)
    case NoneLabel => Ok("")
    case OtherLabel(t) => Err(UnknownLabelType(t))
  }

  /** The label block of a turn: the formatted label when the record has a `label` key, else nothing. */
  function LabelBlock(turnLabel: Option<LabelValue>, tokens: SpecialTokens): Result<string>
  {
    match turnLabel
    case Some(v) => FormatLabel(v, tokens.labelStart, tokens.endOfName)
    case None => Ok("")
  }

  /** The opening every decorated turn starts with (the source's begin signal is empty and is left out). */
  function Opening(t: TurnRecord, tokens: SpecialTokens): string
  {
    tokens.turnStart + t.from + tokens.endOfName
  }

  /** The decorated form of one turn under layout `gtype`. */
  function Decorate(t: TurnRecord, gtype: Option<string>, tokens: SpecialTokens): (r: Result<string>)
  {
    var opening := Opening(t, tokens);
    match gtype
    case None => Ok(opening + t.value + tokens.endOfTurn)
    case Some(g) =>
      if g == ValueToText then
        match LabelBlock(t.turnLabel, tokens)
        case Err(e) => Err(e)
        case Ok(block) => Ok(opening + block + t.value + tokens.endOfTurn)
      else if g == TextToValue then
        match LabelBlock(t.turnLabel, tokens)
        case Err(e) => Err(e)
        case Ok(block) => Ok(opening + t.value + tokens.endOfTurn + block)
      else
        Err(UnsupportedSourceType(g))
  }

  /** A turn fails to decorate exactly when the layout is unsupported, or the
      layout is labelled and the label is neither a string nor None; every
      decorated turn starts with the turn start, the speaker and the end of name. */
  lemma DecorateOutcome(t: TurnRecord, gtype: Option<string>, tokens: SpecialTokens)
    ensures Decorate(t, gtype, tokens).Err? <==>
      || (gtype.Some? && !IsLabelledLayout(gtype.value))
      || (gtype.Some? && IsLabelledLayout(gtype.value) && t.turnLabel.Some? && t.turnLabel.value.OtherLabel?)
    ensures Decorate(t, gtype, tokens).Ok? ==> tokens.turnStart + t.from + tokens.endOfName <= Decorate(t, gtype, tokens).value
    ensures Decorate(t, gtype, tokens).Ok? ==>
      |Decorate(t, gtype, tokens).value| >= |Opening(t, tokens)| + |t.value| + |tokens.endOfTurn|
  {
  }

  /** VALUE_TO_TEXT puts the label block between the opening and the value. */
  lemma ValueToTextLabelBeforeValue(t: TurnRecord, tokens: SpecialTokens, x: string)
    requires t.turnLabel == Some(StrLabel(x))
    ensures Decorate(t, Some(ValueToText), tokens)
         == Ok(tokens.turnStart + t.from + tokens.endOfName + (tokens.labelStart + x + tokens.endOfName) + t.value + tokens.endOfTurn)
  {
  }

  /** TEXT_TO_VALUE puts the label block after the value and the end of turn. */
  lemma TextToValueLabelAfterValue(t: TurnRecord, tokens: SpecialTokens, x: string)
    requires t.turnLabel == Some(StrLabel(x))
    ensures Decorate(t, Some(TextToValue), tokens)
         == Ok(tokens.turnStart + t.from + tokens.endOfName + t.value + tokens.endOfTurn + (tokens.labelStart + x + tokens.endOfName))
  {
  }

  /** Without a layout the label is never looked at; with a labelled layout a
      None label, or no label key, adds nothing. */
  lemma UnlabelledDecoration(t: TurnRecord, gtype: Option<string>, tokens: SpecialTokens)
    requires gtype.None? || (IsLabelledLayout(gtype.value) && (t.turnLabel.None? || t.turnLabel == Some(NoneLabel)))
    ensures Decorate(t, gtype, tokens) == Ok(tokens.turnStart + t.from + tokens.endOfName + t.value + tokens.endOfTurn)
  {
    var opening := Opening(t, tokens);
    if gtype.Some? {
      assert LabelBlock(t.turnLabel, tokens) == Ok("");
      assert opening + "" + t.value + tokens.endOfTurn == opening + t.value + tokens.endOfTurn;
      assert opening + t.value + tokens.endOfTurn + "" == opening + t.value + tokens.endOfTurn;
    }
  }

  /** The number of leading turns that decorate without error: the loop
      rewrites exactly these before it raises (or all of them). */
  function DecoratedPrefix(ts: seq<TurnRecord>, gtype: Option<string>, tokens: SpecialTokens): (n: nat)
    ensures n <= |ts|
    ensures forall k :: 0 <= k < n ==> Decorate(ts[k], gtype, tokens).Ok?
    ensures n < |ts| ==> Decorate(ts[n], gtype, tokens).Err?
  {
    if ts == [] then 0
    else if Decorate(ts[0], gtype, tokens).Err? then 0
    else 1 + DecoratedPrefix(ts[1..], gtype, tokens)
  }

  /** The decorated values of all turns, or the error of the first turn that fails. */
  function DecorateAll(ts: seq<TurnRecord>, gtype: Option<string>, tokens: SpecialTokens): (r: Result<seq<string>>)
    ensures r.Ok? <==> forall k :: 0 <= k < |ts| ==> Decorate(ts[k], gtype, tokens).Ok?
    ensures r.Ok? ==> |r.value| == |ts| && forall k :: 0 <= k < |ts| ==> Decorate(ts[k], gtype, tokens) == Ok(r.value[k])
    ensures r.Err? ==> exists k :: 0 <= k < |ts| && Decorate(ts[k], gtype, tokens) == Err(r.error)
                                   && forall j :: 0 <= j < k ==> Decorate(ts[j], gtype, tokens).Ok?
  {
    var n := DecoratedPrefix(ts, gtype, tokens);
    if n == |ts| then Ok(seq(|ts|, k requires 0 <= k < |ts| => Decorate(ts[k], gtype, tokens).value))
    else Err(Decorate(ts[n], gtype, tokens).error)
  }

  /** The turn records after rendering: the decorated prefix holds its
      decorated values, the rest is as it was; `from` and the label never change. */
  function Rewritten(ts: seq<TurnRecord>, gtype: Option<string>, tokens: SpecialTokens): (r: seq<TurnRecord>)
    ensures |r| == |ts|
    ensures forall k :: 0 <= k < |ts| ==> r[k].from == ts[k].from && r[k].turnLabel == ts[k].turnLabel
  {
    var n := DecoratedPrefix(ts, gtype, tokens);
    seq(|ts|, k requires 0 <= k < |ts| =>
      if k < n then ts[k].(value := Decorate(ts[k], gtype, tokens).value) else ts[k])
  }

  /** The trailing turn start: present iff there is a last turn and its speaker differs from the mask role. */
  function Trailer(ts: seq<TurnRecord>, maskRole: string, tokens: SpecialTokens): string
  {
    if |ts| > 0 && ts[|ts| - 1].from != maskRole then tokens.turnStart else ""
  }

  /** The conversation `_add_speaker_and_signal` returns for turn records `ts`. */
  function RenderTurns(header: string, ts: seq<TurnRecord>, maskRole: string, gtype: Option<string>, tokens: SpecialTokens): Result<string>
  {
    match DecorateAll(ts, gtype, tokens)
    case Err(e) => Err(e)
    case Ok(ds) => Ok(header + Concat(ds) + Trailer(ts, maskRole, tokens))
  }

  function Values(ts: seq<TurnRecord>): (vs: seq<string>)
    ensures |vs| == |ts| && forall k :: 0 <= k < |ts| ==> vs[k] == ts[k].value
  {
    seq(|ts|, k requires 0 <= k < |ts| => ts[k].value)
  }

  /** A rendering succeeds exactly when every turn decorates; it is then the
      header, every turn's rewritten value in order, and the trailer. */
  lemma RenderedIsHeaderThenValues(header: string, ts: seq<TurnRecord>, maskRole: string, gtype: Option<string>, tokens: SpecialTokens)
    ensures RenderTurns(header, ts, maskRole, gtype, tokens).Ok? <==> DecoratedPrefix(ts, gtype, tokens) == |ts|
    ensures RenderTurns(header, ts, maskRole, gtype, tokens).Ok? ==>
      RenderTurns(header, ts, maskRole, gtype, tokens).value
        == header + Concat(Values(Rewritten(ts, gtype, tokens))) + Trailer(ts, maskRole, tokens)
  {
    if DecoratedPrefix(ts, gtype, tokens) == |ts| {
      assert Values(Rewritten(ts, gtype, tokens)) == DecorateAll(ts, gtype, tokens).value;
    }
  }

  /** A failing rendering reports the error of the first turn that fails, and
      that turn and every later one keep their old records. */
  lemma RenderFailsAtFirstFailingTurn(header: string, ts: seq<TurnRecord>, maskRole: string, gtype: Option<string>, tokens: SpecialTokens, n: nat)
    requires n < |ts| && Decorate(ts[n], gtype, tokens).Err?
    requires forall k :: 0 <= k < n ==> Decorate(ts[k], gtype, tokens).Ok?
    ensures RenderTurns(header, ts, maskRole, gtype, tokens) == Err(Decorate(ts[n], gtype, tokens).error)
    ensures Rewritten(ts, gtype, tokens)[n..] == ts[n..]
    ensures forall k :: 0 <= k < n ==> Rewritten(ts, gtype, tokens)[k].value == Decorate(ts[k], gtype, tokens).value
  {
    var p := DecoratedPrefix(ts, gtype, tokens);
    assert p == n;
  }

  /** `ts` with its first `|ds|` values replaced by `ds`. */
  function WithValues(ts: seq<TurnRecord>, ds: seq<string>): (r: seq<TurnRecord>)
    requires |ds| <= |ts|
    ensures |r| == |ts|
  {
    seq(|ts|, k requires 0 <= k < |ts| => if k < |ds| then ts[k].(value := ds[k]) else ts[k])
  }

  /** Replacing the values of the decorated prefix by their decorations gives the rewritten records. */
  lemma RewrittenFromParts(ts: seq<TurnRecord>, ds: seq<string>, gtype: Option<string>, tokens: SpecialTokens)
    requires |ds| == DecoratedPrefix(ts, gtype, tokens)
    requires forall k :: 0 <= k < |ds| ==> Decorate(ts[k], gtype, tokens) == Ok(ds[k])
    ensures WithValues(ts, ds) == Rewritten(ts, gtype, tokens)
  {
    var cur, rw := WithValues(ts, ds), Rewritten(ts, gtype, tokens);
    forall k | 0 <= k < |ts| ensures cur[k] == rw[k] {
    }
  }

  /** When every turn decorates to the matching entry of `ds`, the rendering is the header, `ds` and the trailer. */
  lemma RenderAllDecorated(header: string, ts: seq<TurnRecord>, ds: seq<string>, maskRole: string, gtype: Option<string>, tokens: SpecialTokens)
    requires |ds| == |ts|
    requires forall k :: 0 <= k < |ts| ==> Decorate(ts[k], gtype, tokens) == Ok(ds[k])
    ensures DecoratedPrefix(ts, gtype, tokens) == |ts|
    ensures RenderTurns(header, ts, maskRole, gtype, tokens) == Ok(header + Concat(ds) + Trailer(ts, maskRole, tokens))
  {
    var all := DecorateAll(ts, gtype, tokens);
    assert all.Ok? && |all.value| == |ds|;
    assert forall k :: 0 <= k < |ds| ==> all.value[k] == ds[k];
    assert all.value == ds;
  }

  /** With no turns the conversation is the header, whatever the layout. */
  lemma NoTurnsRendersHeader(header: string, maskRole: string, gtype: Option<string>, tokens: SpecialTokens)
    ensures RenderTurns(header, [], maskRole, gtype, tokens) == Ok(header)
  {
    assert DecorateAll([], gtype, tokens) == Ok([]);
    assert header + Concat([]) + "" == header;
  }

  /** The body of the loop up to the rewrite: the decorated form of one turn
      object under layout `gtype`. It mirrors the inline `if`/`elif` chain on
      the turn object and is proved to agree with `Decorate`, which states the
      same decoration on records. */
  method DecorateSentence(sentence: Turn, gtype: Option<string>, specialTokens: SpecialTokens) returns (r: Result<string>)
    ensures r == Decorate(sentence.Record(), gtype, specialTokens)
  {
    var roleToken := specialTokens.turnStart;
    var sentenceFrom := sentence.from;
    if gtype.None? {
      r := Ok(roleToken + sentenceFrom + specialTokens.endOfName + sentence.value + specialTokens.endOfTurn);
    } else if gtype.value == ValueToText {
      var block := "";
      if sentence.turnLabel.Some? {
        var formatted := FormatLabel(sentence.turnLabel.value, specialTokens.labelStart, specialTokens.endOfName);
        if formatted.Err? {
          return Err(formatted.error);
        }
        block := formatted.value;
      }
      r := Ok(roleToken + sentenceFrom + specialTokens.endOfName + block + sentence.value + specialTokens.endOfTurn);
    } else if gtype.value == TextToValue {
      var block := "";
      if sentence.turnLabel.Some? {
        var formatted := FormatLabel(sentence.turnLabel.value, specialTokens.labelStart, specialTokens.endOfName);
        if formatted.Err? {
          return Err(formatted.error);
        }
        block := formatted.value;
      }
      r := Ok(roleToken + sentenceFrom + specialTokens.endOfName + sentence.value + specialTokens.endOfTurn + block);
    } else {
      r := Err(UnsupportedSourceType(gtype.value));
    }
  }

  lemma AccumulateStep(header: string, ds: seq<string>, d: string)
    ensures header + Concat(ds) + d == header + Concat(ds + [d])
  {
    assert (ds + [d])[..|ds|] == ds;
  }

  lemma WithValuesStep(ts: seq<TurnRecord>, ds: seq<string>, d: string)
    requires |ds| < |ts|
    ensures WithValues(ts, ds)[|ds| := ts[|ds|].(value := d)] == WithValues(ts, ds + [d])
  {
  }

  /** The body of the loop for turn `i`: computes its decorated form and
      overwrites the turn's value with it; on an error nothing is overwritten. */
  method RewriteTurn(source: seq<Turn>, i: nat, gtype: Option<string>, specialTokens: SpecialTokens) returns (r: Result<string>)
    requires i < |source| && Distinct(source)
    modifies source[i]
    ensures r == Decorate(old(Records(source))[i], gtype, specialTokens)
    ensures Records(source) == if r.Ok? then old(Records(source))[i := old(Records(source))[i].(value := r.value)] else old(Records(source))
  {
    var sentence := source[i];
    r := DecorateSentence(sentence, gtype, specialTokens);
    if r.Ok? {
      sentence.value := r.value;
    }
  }

  /** `_add_speaker_and_signal`: rewrites each turn's value into its decorated
      form, in place and in order, appending it to the accumulator that starts
      as the header; after the last turn it appends a turn start when that
      turn's speaker is not the mask role. A failing turn stops the loop with
      the turns before it already rewritten. */
  method AddSpeakerAndSignal(header: string, source: seq<Turn>, maskRole: string, gtype: Option<string>, specialTokens: SpecialTokens)
    returns (r: Result<string>)
    requires Distinct(source)
    modifies source
    ensures r == RenderTurns(header, old(Records(source)), maskRole, gtype, specialTokens)
    ensures Records(source) == Rewritten(old(Records(source)), gtype, specialTokens)
  {
    ghost var before := Records(source);
    ghost var ds: seq<string> := [];
    ghost var trail := "";
    var turnToken := specialTokens.turnStart;
    var conversation := header;
    var i := 0;
    while i < |source|
      invariant 0 <= i <= |source|
      invariant |ds| == i
      invariant forall k :: 0 <= k < i ==> Decorate(before[k], gtype, specialTokens) == Ok(ds[k])
      invariant Records(source) == WithValues(before, ds)
      invariant conversation == header + Concat(ds) + trail
      invariant trail == if i == |source| then Trailer(before, maskRole, specialTokens) else ""
    {
      var sentenceFrom := source[i].from;
      assert sentenceFrom == before[i].from;
      var decorated := RewriteTurn(source, i, gtype, specialTokens);
      if decorated.Err? {
        RenderFailsAtFirstFailingTurn(header, before, maskRole, gtype, specialTokens, i);
        RewrittenFromParts(before, ds, gtype, specialTokens);
        return Err(decorated.error);
      }
      assert source[i].value == decorated.value;
      assert conversation == header + Concat(ds);
      conversation := conversation + source[i].value;
      AccumulateStep(header, ds, decorated.value);
      WithValuesStep(before, ds, decorated.value);
      ds := ds + [decorated.value];
      assert conversation == header + Concat(ds) + "";
      if sentenceFrom != maskRole && i == |source| - 1 {
        conversation := conversation + turnToken;
        trail := turnToken;
      }
      i := i + 1;
    }
    RenderAllDecorated(header, before, ds, maskRole, gtype, specialTokens);
    RewrittenFromParts(before, ds, gtype, specialTokens);
    r := Ok(conversation);
  }
}
