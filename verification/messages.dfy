/** The conversation vocabulary shared by both agents: LangChain's message
    classes as one tagged datatype, the dataset-access specification, and the
    draft document the specification builder edits. */
module Messages {
  import opened Wrappers

  /** A tool invocation requested by the model: the tool's name and its
      argument text (for `update`, the JSON document). */
  datatype ToolCall = ToolCall(name: string, args: string)

  /** `ToolMessage.status`: "success" or "error". */
  datatype Status = Success | Error

  /** `HumanMessage`, `AIMessage`, `ToolMessage` and `SystemMessage`. Every kind
      carries text `content`; only AI messages carry tool calls and only tool
      messages carry a tool name and status. */
  datatype Message =
    | Human(content: string)
    | AI(content: string, calls: seq<ToolCall>)
    | Tool(name: string, status: Status, content: string)
    | System(content: string)

  /** A dataset-access specification: the public dataset, the columns to
      expose in order, optional row filters (column, value) in insertion order,
      and `permissions.allowed_users`. */
  datatype Spec = Spec(
    dataset: string,
    columns: seq<string>,
    filters: seq<(string, string)>,
    allowedUsers: seq<string>)

  /** The specification document being edited: `{}` or a parsed specification. */
  datatype Draft = Blank | Doc(spec: Spec)

  /** The robot emoji and space that both front-ends put before the
      assistant's text. */
  const Robot := "\U{1F916} "

  /** `isinstance(m, AIMessage) and m.content`. */
  predicate IsAiText(m: Message)
  {
    m.AI? && m.content != ""
  }

  /** Position of the last AI message with non-empty content, or -1. */
  function LastAiIndex(msgs: seq<Message>): (r: int)
    ensures -1 <= r < |msgs|
    ensures r == -1 <==> forall i :: 0 <= i < |msgs| ==> !IsAiText(msgs[i])
    ensures r >= 0 ==> IsAiText(msgs[r]) && forall j :: r < j < |msgs| ==> !IsAiText(msgs[j])
  {
    if |msgs| == 0 then -1
    else if IsAiText(msgs[|msgs| - 1]) then |msgs| - 1
    else
      assert forall j :: 0 <= j < |msgs| - 1 ==> msgs[j] == msgs[..|msgs| - 1][j];
      LastAiIndex(msgs[..|msgs| - 1])
  }

  /** `next((m for m in reversed(msgs) if isinstance(m, AIMessage) and m.content), None)`:
      the last AI message with non-empty content, if there is one. */
  function LastAiText(msgs: seq<Message>): (r: Option<Message>)
    ensures r.None? <==> forall i :: 0 <= i < |msgs| ==> !IsAiText(msgs[i])
    ensures r.Some? ==> exists i :: 0 <= i < |msgs| && msgs[i] == r.value && IsAiText(msgs[i])
                                   && forall j :: i < j < |msgs| ==> !IsAiText(msgs[j])
  {
    var k := LastAiIndex(msgs);
    if k == -1 then None else Some(msgs[k])
  }

  /** Appending messages without AI text does not change the selection, and
      appending one with AI text makes it the selection. */
  lemma {:induction false} LastAiTextAppend(msgs: seq<Message>, more: seq<Message>)
    ensures LastAiText(msgs + more) ==
      (if LastAiText(more).Some? then LastAiText(more) else LastAiText(msgs))
  {
    var all := msgs + more;
    var r := LastAiText(all);
    if LastAiText(more).Some? {
      var i :| 0 <= i < |more| && more[i] == LastAiText(more).value && IsAiText(more[i])
               && forall j :: i < j < |more| ==> !IsAiText(more[j]);
      assert all[|msgs| + i] == more[i];
      assert forall j :: |msgs| + i < j < |all| ==> all[j] == more[j - |msgs|];
      LastAiTextUnique(all, |msgs| + i);
    } else {
      assert forall j :: |msgs| <= j < |all| ==> all[j] == more[j - |msgs|];
      assert forall j :: 0 <= j < |msgs| ==> all[j] == msgs[j];
      if LastAiText(msgs).Some? {
        var i :| 0 <= i < |msgs| && msgs[i] == LastAiText(msgs).value && IsAiText(msgs[i])
                 && forall j :: i < j < |msgs| ==> !IsAiText(msgs[j]);
        LastAiTextUnique(all, i);
      }
    }
  }

  /** The selection is determined by the position of the last AI text. */
  lemma LastAiTextUnique(msgs: seq<Message>, i: nat)
    requires i < |msgs| && IsAiText(msgs[i])
    requires forall j :: i < j < |msgs| ==> !IsAiText(msgs[j])
    ensures LastAiText(msgs) == Some(msgs[i])
  {
    var k := LastAiIndex(msgs);
    assert k == i;
  }
}
