/** `convert_messages`: reshapes the message list into the normalized
    conversation (system text, turn records, mask role and layout). */
module Convert {
  import opened ChatTypes
  import opened Text

  predicate IsSystem(m: Message) { m.role == "system" }

  /** The system text: the content of the first system message, or "" when there is none. */
  function SystemText(ms: seq<Message>): (r: string)
    ensures (forall i :: 0 <= i < |ms| ==> !IsSystem(ms[i])) ==> r == ""
    ensures forall i :: 0 <= i < |ms| && IsSystem(ms[i]) && NoSystemBefore(ms, i) ==> r == ms[i].content
  {
    if ms == [] then ""
    else if IsSystem(ms[0]) then ms[0].content
    else
      var r := SystemText(ms[1..]);
      assert forall i :: 1 <= i < |ms| && NoSystemBefore(ms, i) ==> NoSystemBefore(ms[1..], i - 1);
      r
  }

  predicate NoSystemBefore(ms: seq<Message>, i: int)
    requires 0 <= i <= |ms|
  {
    forall j :: 0 <= j < i ==> !IsSystem(ms[j])
  }

  /** The turn record built for a non-system message. */
  function TurnOf(m: Message): TurnRecord
  {
    TurnRecord(Capitalize(m.role), m.content, Some(NoneLabel))
  }

  /** The turn records for the non-system messages, in input order. */
  function TurnsOf(ms: seq<Message>): seq<TurnRecord>
  {
    if ms == [] then []
    else TurnsOf(ms[..|ms| - 1]) + (if IsSystem(ms[|ms| - 1]) then [] else [TurnOf(ms[|ms| - 1])])
  }

  /** There are at most as many turns as messages, and every turn's label is None. */
  lemma {:induction false} TurnsOfUnlabelled(ms: seq<Message>)
    ensures |TurnsOf(ms)| <= |ms|
    ensures forall k :: 0 <= k < |TurnsOf(ms)| ==> TurnsOf(ms)[k].turnLabel == Some(NoneLabel)
  {
    if ms != [] {
      TurnsOfUnlabelled(ms[..|ms| - 1]);
    }
  }

  /** Splitting the messages splits the turn list the same way: together with
      `TurnsOfOne`, the turns are exactly the non-system messages in order. */
  lemma {:induction false} TurnsOfConcat(a: seq<Message>, b: seq<Message>)
    ensures TurnsOf(a + b) == TurnsOf(a) + TurnsOf(b)
  {
    if b == [] {
      assert a + b == a;
    } else {
      var b' := b[..|b| - 1];
      assert (a + b)[..|a + b| - 1] == a + b';
      TurnsOfConcat(a, b');
    }
  }

  lemma TurnsOfOne(m: Message)
    ensures TurnsOf([m]) == if IsSystem(m) then [] else [TurnOf(m)]
  {
    assert [m][..0] == [];
  }

  /** Without system messages there is one turn per message, position by position. */
  lemma {:induction false} TurnsOfNoSystem(ms: seq<Message>)
    requires forall i :: 0 <= i < |ms| ==> !IsSystem(ms[i])
    ensures |TurnsOf(ms)| == |ms|
    ensures forall k :: 0 <= k < |ms| ==> TurnsOf(ms)[k] == TurnOf(ms[k])
  {
    if ms != [] {
      var init := ms[..|ms| - 1];
      TurnsOfNoSystem(init);
      assert TurnsOf(ms) == TurnsOf(init) + [TurnOf(ms[|ms| - 1])];
      forall k | 0 <= k < |ms| ensures TurnsOf(ms)[k] == TurnOf(ms[k]) {
        if k < |init| {
          assert TurnsOf(ms)[k] == TurnsOf(init)[k] && init[k] == ms[k];
        }
      }
    }
  }

  /** Rewriting the content of a system message leaves the turn list unchanged. */
  lemma {:induction false} TurnsOfIgnoresSystemContent(ms: seq<Message>, i: int, c: string)
    requires 0 <= i < |ms| && IsSystem(ms[i])
    ensures TurnsOf(ms[i := Message("system", c)]) == TurnsOf(ms)
  {
    var ms' := ms[i := Message("system", c)];
    if i < |ms| - 1 {
      assert ms'[..|ms'| - 1] == ms[..|ms| - 1][i := Message("system", c)];
      TurnsOfIgnoresSystemContent(ms[..|ms| - 1], i, c);
    } else {
      assert ms'[..|ms'| - 1] == ms[..|ms| - 1];
    }
  }

  /** Rewriting the content of a system message that follows another one leaves the system text unchanged. */
  lemma SystemTextIgnoresLaterSystem(ms: seq<Message>, i: int, j: int, c: string)
    requires 0 <= j < i < |ms| && IsSystem(ms[j]) && IsSystem(ms[i])
    ensures SystemText(ms[i := Message("system", c)]) == SystemText(ms)
  {
    FirstSystemExists(ms, j);
    var f :| 0 <= f <= j && IsSystem(ms[f]) && NoSystemBefore(ms, f);
    var ms' := ms[i := Message("system", c)];
    forall q | 0 <= q < f ensures !IsSystem(ms'[q]) {
      assert ms'[q] == ms[q] && !IsSystem(ms[q]);
    }
    assert IsSystem(ms'[f]) && NoSystemBefore(ms', f);
  }

  /** Appending a non-system message leaves the system text unchanged. */
  lemma SystemTextSnocNonSystem(ms: seq<Message>, m: Message)
    requires !IsSystem(m)
    ensures SystemText(ms + [m]) == SystemText(ms)
  {
    var ms' := ms + [m];
    if j :| 0 <= j < |ms| && IsSystem(ms[j]) {
      FirstSystemExists(ms, j);
      var f :| 0 <= f <= j && IsSystem(ms[f]) && NoSystemBefore(ms, f);
      forall q | 0 <= q < f ensures !IsSystem(ms'[q]) {
        assert ms'[q] == ms[q] && !IsSystem(ms[q]);
      }
      assert IsSystem(ms'[f]) && NoSystemBefore(ms', f);
    } else {
      assert forall q :: 0 <= q < |ms'| ==> !IsSystem(ms'[q]);
    }
  }

  lemma {:induction false} FirstSystemExists(ms: seq<Message>, j: int)
    requires 0 <= j < |ms| && IsSystem(ms[j])
    ensures exists f :: 0 <= f <= j && IsSystem(ms[f]) && NoSystemBefore(ms, f)
  {
    if !NoSystemBefore(ms, j) {
      var j' :| 0 <= j' < j && IsSystem(ms[j']);
      FirstSystemExists(ms, j');
    }
  }

  lemma TurnsOfSnoc(ms: seq<Message>, k: nat)
    requires k < |ms|
    ensures TurnsOf(ms[..k + 1]) == TurnsOf(ms[..k]) + (if IsSystem(ms[k]) then [] else [TurnOf(ms[k])])
  {
    assert ms[..k + 1][..k] == ms[..k];
  }

  /** The first loop of `convert_messages`: the content of the first system message, if any. */
  method ExtractSystem(inputList: seq<Message>) returns (system: string)
    ensures system == SystemText(inputList)
  {
    system := "";
    var i := 0;
    while i < |inputList|
      invariant 0 <= i <= |inputList|
      invariant NoSystemBefore(inputList, i)
    {
      if inputList[i].role == "system" {
        system := inputList[i].content;
        return;
      }
      i := i + 1;
    }
  }

  /** One step of the second loop: appending the turn built for a non-system message. */
  lemma AppendTurn(inputList: seq<Message>, k: nat, conversations: seq<Turn>, entry: Turn)
    requires k < |inputList| && !IsSystem(inputList[k])
    requires Distinct(conversations) && entry !in conversations
    requires Records(conversations) == TurnsOf(inputList[..k])
    requires entry.Record() == TurnOf(inputList[k])
    ensures Distinct(conversations + [entry])
    ensures Records(conversations + [entry]) == TurnsOf(inputList[..k + 1])
  {
    TurnsOfSnoc(inputList, k);
    RecordsSnoc(conversations, entry);
    DistinctSnoc(conversations, entry);
  }

  /** The second loop of `convert_messages`: one fresh turn object per non-system message, appended in order. */
  method BuildConversations(inputList: seq<Message>) returns (conversations: seq<Turn>)
    ensures Distinct(conversations)
    ensures forall k :: 0 <= k < |conversations| ==> fresh(conversations[k])
    ensures Records(conversations) == TurnsOf(inputList)
  {
    conversations := [];
    var k := 0;
    while k < |inputList|
      invariant 0 <= k <= |inputList|
      invariant Distinct(conversations)
      invariant forall t :: t in conversations ==> fresh(t)
      invariant Records(conversations) == TurnsOf(inputList[..k])
    {
      var msg := inputList[k];
      if msg.role != "system" {
        var entry := new Turn(Capitalize(msg.role), msg.content, Some(NoneLabel));
        AppendTurn(inputList, k, conversations, entry);
        conversations := conversations + [entry];
      } else {
        TurnsOfSnoc(inputList, k);
      }
      k := k + 1;
    }
    assert inputList[..|inputList|] == inputList;
    assert forall k :: 0 <= k < |conversations| ==> conversations[k] in conversations;
  }

  /** `convert_messages`: the system text of the first system message, one
      fresh turn object per other message, mask role "User" and layout VALUE_TO_TEXT. */
  method ConvertMessages(inputList: seq<Message>) returns (src: Source)
    ensures src.system == SystemText(inputList)
    ensures src.mask == Some("User") && src.dataType == Some("VALUE_TO_TEXT")
    ensures Distinct(src.conversations)
    ensures forall k :: 0 <= k < |src.conversations| ==> fresh(src.conversations[k])
    ensures Records(src.conversations) == TurnsOf(inputList)
  {
    var system := ExtractSystem(inputList);
    var conversations := BuildConversations(inputList);
    src := Source(system, conversations, Some("User"), Some("VALUE_TO_TEXT"));
  }
}
