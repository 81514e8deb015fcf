/** The query executor's chat front-end: its session, how it draws the
    history, and what one submitted query does: record the prompt, run the
    executor, keep the final AI text, and turn each tool output into a table
    by trimming it to its outermost brackets. The executor and the
    JSON-to-table conversion are parameters. */
module ExecutorApp {
  import opened Wrappers
  import opened Messages
  import opened Text
  import DatabaseExecutor

  /** One history entry: a message, or a table appended after a tool output
      was converted. */
  datatype Entry<T> = Said(m: Message) | Frame(table: T)

  /** `st.session_state`: the user name, the history, the draft, whether the
      chat is open. */
  datatype Session<T> = Session(username: Option<string>, history: seq<Entry<T>>, draft: Draft, chatOpen: bool)

  /** `reset_chat`: clears the history and the draft and closes the chat; the
      user name is kept. */
  function ResetChat<T>(s: Session<T>): (r: Session<T>)
    ensures r.history == [] && r.draft == Blank && !r.chatOpen
    ensures r.username == s.username
  {
    s.(history := [], draft := Blank, chatOpen := false)
  }

  /** What the history loop draws for an entry. */
  datatype Shown<T> = UserLine(text: string) | AssistantLine(text: string) | Table(table: T)

  /** The history loop's dispatch: human messages as the user's (even when
      empty), AI messages as the assistant's, tables as tables; anything else
      is not drawn. */
  function ShowEntry<T>(e: Entry<T>): (r: seq<Shown<T>>)
    ensures |r| <= 1
    ensures r == [] <==> e.Said? && !e.m.Human? && !e.m.AI?
    ensures r != [] ==>
      && (r[0].UserLine? <==> e.Said? && e.m.Human?)
      && (r[0].AssistantLine? <==> e.Said? && e.m.AI?)
      && (r[0].Table? <==> e.Frame?)
    ensures r != [] && e.Said? && e.m.Human? ==> r[0].text == e.m.content
    ensures r != [] && e.Said? && e.m.AI? ==> r[0].text == Robot + e.m.content
    ensures r != [] && e.Frame? ==> r[0].table == e.table
  {
    match e
    case Frame(t) => [Table(t)]
    case Said(m) =>
      if m.Human? then [UserLine(m.content)]
      else if m.AI? then [AssistantLine(Robot + m.content)]
      else []
  }

  /** The lines drawn for the whole history, in order. */
  function Show<T>(history: seq<Entry<T>>): (r: seq<Shown<T>>)
    ensures |r| <= |history|
  {
    if |history| == 0 then [] else ShowEntry(history[0]) + Show(history[1..])
  }

  /** Drawing a history draws each part in turn: every entry is drawn on its
      own, in the order of the history. */
  lemma {:induction false} ShowConcat<T>(a: seq<Entry<T>>, b: seq<Entry<T>>)
    ensures Show(a + b) == Show(a) + Show(b)
  {
    if |a| == 0 {
      assert a + b == b;
    } else {
      assert (a + b)[1..] == a[1..] + b;
      ShowConcat(a[1..], b);
    }
  }

  /** A single entry is drawn as `ShowEntry` says. */
  lemma ShowOfOne<T>(e: Entry<T>)
    ensures Show([e]) == ShowEntry(e)
  {
    assert [e][1..] == [];
  }

  /** Every entry the executor front-end itself records is drawn, one line
      per entry and in order. */
  lemma {:induction false} RecordedEntriesAllShown<T>(history: seq<Entry<T>>)
    requires forall i :: 0 <= i < |history| ==> history[i].Frame? || history[i].m.Human? || history[i].m.AI?
    ensures |Show(history)| == |history|
  {
    if |history| > 0 {
      assert forall i :: 0 <= i < |history| - 1 ==> history[1..][i] == history[i + 1];
      RecordedEntriesAllShown(history[1..]);
    }
  }

  // ------------------------------------------------------------ tool outputs

  /** `[m.content for m in messages if isinstance(m, ToolMessage) and m.content]`. */
  function ToolOutputs(msgs: seq<Message>): (r: seq<string>)
    ensures |r| <= |msgs|
    ensures forall x :: x in r ==> x != "" && exists i :: 0 <= i < |msgs| && msgs[i].Tool? && msgs[i].content == x
  {
    if |msgs| == 0 then []
    else
      var rest := ToolOutputs(msgs[1..]);
      assert forall i :: 0 <= i < |msgs| - 1 ==> msgs[1..][i] == msgs[i + 1];
      (if msgs[0].Tool? && msgs[0].content != "" then [msgs[0].content] else []) + rest
  }

  /** Tool outputs keep the order of the messages: the outputs of a history
      are those of its first part followed by those of the rest. */
  lemma {:induction false} ToolOutputsConcat(a: seq<Message>, b: seq<Message>)
    ensures ToolOutputs(a + b) == ToolOutputs(a) + ToolOutputs(b)
  {
    if |a| == 0 {
      assert a + b == b;
    } else {
      assert (a + b)[1..] == a[1..] + b;
      ToolOutputsConcat(a[1..], b);
    }
  }

  /** Every non-empty tool message contributes its content, and nothing else
      does. */
  lemma ToolOutputOfOne(m: Message)
    ensures ToolOutputs([m]) == (if m.Tool? && m.content != "" then [m.content] else [])
  {
    assert [m][1..] == [];
  }

  // ------------------------------------------------------- bracket trimming

  /** `output[output.find('['):output.rfind(']') + 1]`, with Python's slice
      rules: a missing '[' gives start -1, which counts from the end. With a
      '[' before the last ']', the result is the text from the first '[' to
      the last ']', both included. */
  function TrimBrackets(s: string): (r: string)
    ensures ']' !in s ==> r == ""
    ensures forall i, j :: 0 <= i < j < |s| && s[i] == '[' && s[j] == ']' && '[' !in s[..i] && ']' !in s[j + 1..] ==>
              r == s[i..j + 1]
    ensures '[' in s && ']' in s && Find(s, '[') > RFind(s, ']') ==> r == ""
    ensures '[' !in s && ']' in s ==> r == (if s[|s| - 1] == ']' then "]" else "")
  {
    BracketedSpan(s);
    Slice(s, Find(s, '['), RFind(s, ']') + 1)
  }

  /** A '[' with none before it is the one `find` returns; a ']' with none
      after it is the one `rfind` returns. */
  lemma BracketedSpan(s: string)
    ensures forall i, j :: 0 <= i < j < |s| && s[i] == '[' && s[j] == ']' && '[' !in s[..i] && ']' !in s[j + 1..] ==>
              Find(s, '[') == i && RFind(s, ']') == j
  {
    forall i, j | 0 <= i < j < |s| && s[i] == '[' && s[j] == ']' && '[' !in s[..i] && ']' !in s[j + 1..]
      ensures Find(s, '[') == i && RFind(s, ']') == j
    {
      assert forall k :: 0 <= k < i ==> s[..i][k] == s[k];
      assert forall k :: j < k < |s| ==> s[j + 1..][k - j - 1] == s[k];
    }
  }

  /** The trimmed text is non-empty exactly when there is a ']' and either a
      '[' comes before the last one, or there is no '[' and the text ends in
      ']' (then the trimmed text is that one ']'). */
  lemma TrimmedNonEmptyIff(s: string)
    ensures TrimBrackets(s) != "" <==>
      ']' in s && (if '[' in s then Find(s, '[') < RFind(s, ']') else s[|s| - 1] == ']')
  {
    if '[' in s && ']' in s {
      assert Find(s, '[') != RFind(s, ']');
    }
  }

  /** Each tool output, trimmed to its brackets, that converts to a table,
      in order. */
  function Frames<T>(outputs: seq<string>, load: string -> Option<T>): (r: seq<Entry<T>>)
    ensures |r| <= |outputs|
    ensures forall e :: e in r ==> e.Frame? && exists i :: 0 <= i < |outputs| && load(TrimBrackets(outputs[i])) == Some(e.table)
  {
    if |outputs| == 0 then []
    else
      var rest := Frames(outputs[1..], load);
      assert forall i :: 0 <= i < |outputs| - 1 ==> outputs[1..][i] == outputs[i + 1];
      FrameOf(outputs[0], load) + rest
  }

  /** The table one tool output converts to, if any. */
  function FrameOf<T>(output: string, load: string -> Option<T>): seq<Entry<T>>
  {
    match load(TrimBrackets(output)) case Some(t) => [Frame(t)] case None => []
  }

  /** Tables keep the order of the outputs: the tables of a list of outputs
      are those of its first part followed by those of the rest. */
  lemma {:induction false} FramesConcat<T>(a: seq<string>, b: seq<string>, load: string -> Option<T>)
    ensures Frames(a + b, load) == Frames(a, load) + Frames(b, load)
  {
    if |a| == 0 {
      assert a + b == b;
    } else {
      assert (a + b)[1..] == a[1..] + b;
      FramesConcat(a[1..], b, load);
    }
  }

  /** One output gives exactly the table its trimmed text converts to, or
      nothing when the conversion fails. */
  lemma FrameOfOne<T>(output: string, load: string -> Option<T>)
    ensures Frames([output], load) ==
      (match load(TrimBrackets(output)) case Some(t) => [Frame(t)] case None => [])
  {
    assert [output][1..] == [];
  }

  // ------------------------------------------------------------ one query

  /** A submitted query: the prompt is recorded before the executor runs;
      the last AI message with text, if any, is recorded after it; then the
      tables of the tool outputs, each trimmed to its brackets and converted
      by `load`, in order. Nothing else in the session changes. */
  function Submit<T>(s: Session<T>, prompt: string, run: (string, string) -> seq<Message>,
                     load: string -> Option<T>): (r: Session<T>)
    requires s.username.Some? && prompt != ""
    ensures var msgs := run(prompt, s.username.value);
      var n := |s.history|;
      && |r.history| > n && r.history[..n + 1] == s.history + [Said(Human(prompt))]
      && (LastAiText(msgs).Some? ==> |r.history| > n + 1 && r.history[n + 1] == Said(LastAiText(msgs).value))
      && (LastAiText(msgs).None? ==> forall i :: n < i < |r.history| ==> r.history[i].Frame?)
      && |r.history| <= n + 2 + |ToolOutputs(msgs)|
    ensures var msgs := run(prompt, s.username.value);
      var m := |s.history| + (if LastAiText(msgs).Some? then 2 else 1);
      |r.history| >= m && r.history[m..] == Frames(ToolOutputs(msgs), load)
    ensures r.username == s.username && r.draft == s.draft && r.chatOpen == s.chatOpen
  {
    var recorded := s.history + [Said(Human(prompt))];
    var msgs := run(prompt, s.username.value);
    var final := LastAiText(msgs);
    var withReply := recorded + (if final.Some? then [Said(final.value)] else []);
    var frames := Frames(ToolOutputs(msgs), load);
    assert withReply[..|s.history| + 1] == recorded;
    assert (withReply + frames)[|withReply|..] == frames;
    s.(history := withReply + frames)
  }

  /** A user the retrieved specification does not list sees the prompt and
      the fixed denial recorded, and no table. */
  lemma DeniedQueryRecordsDenial<T>(s: Session<T>, prompt: string, specs: seq<Spec>,
                                    retrieve: (string, seq<Spec>) -> Spec,
                                    agent: seq<Message> -> seq<Message>, load: string -> Option<T>)
    requires s.username.Some? && prompt != ""
    requires !DatabaseExecutor.Authorized(s.username.value, retrieve(prompt, specs))
    ensures var run := (q: string, u: string) => DatabaseExecutor.RunDatabaseAgent(q, u, specs, retrieve, agent);
      Submit(s, prompt, run, load).history
        == s.history + [Said(Human(prompt)), Said(AI(DatabaseExecutor.DenialText, []))]
  {
    var run := (q: string, u: string) => DatabaseExecutor.RunDatabaseAgent(q, u, specs, retrieve, agent);
    var msgs := run(prompt, s.username.value);
    DatabaseExecutor.RunPassesRequest(prompt, s.username.value, specs, retrieve, agent);
    assert msgs == [AI(DatabaseExecutor.DenialText, [])];
    assert IsAiText(msgs[0]);
    LastAiTextUnique(msgs, 0);
    ToolOutputOfOne(msgs[0]);
  }
}
