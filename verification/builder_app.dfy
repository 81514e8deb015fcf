/** The specification builder's chat front-end: the session it keeps, which
    messages it shows, and what one submitted prompt does to the session. The
    compiled graph is a parameter (`invoke`); widgets and reruns are not
    modelled. */
module BuilderApp {
  import opened Wrappers
  import opened Messages
  import opened Text
  import opened SpecTools
  import SpecAgent

  /** `st.session_state`: the conversation, the draft, whether the chat is open. */
  datatype Session = Session(messages: seq<Message>, draft: Draft, chatOpen: bool)

  /** `reset_chat`. */
  function ResetChat(s: Session): (r: Session)
    ensures r.messages == [] && r.draft == Blank && !r.chatOpen
  {
    Session([], Blank, false)
  }

  /** A chat bubble: the user's text or the assistant's. */
  datatype Bubble = UserBubble(text: string) | AssistantBubble(text: string)

  /** The bubbles the history loop draws for one message: a human message with
      text, or an AI message whose text is not all whitespace. */
  function BubblesOf(m: Message): seq<Bubble>
  {
    if m.Human? && m.content != "" then [UserBubble(m.content)]
    else if m.AI? && Strip(m.content) != "" then [AssistantBubble(Robot + m.content)]
    else []
  }

  /** The bubbles drawn for the whole history, in order. */
  function Bubbles(msgs: seq<Message>): (r: seq<Bubble>)
    ensures |r| <= |msgs|
  {
    if |msgs| == 0 then [] else BubblesOf(msgs[0]) + Bubbles(msgs[1..])
  }

  /** A message is drawn exactly when it is a human message with some text or
      an AI message with some character that is not whitespace; tool and
      system messages never are. A human message is drawn as a user bubble
      with its text, an AI message as an assistant bubble with the robot
      prefix before its text. */
  lemma DrawnIff(m: Message)
    ensures Bubbles([m]) != [] <==>
      || (m.Human? && |m.content| > 0)
      || (m.AI? && exists i :: 0 <= i < |m.content| && !IsSpace(m.content[i]))
    ensures m.Human? && m.content != "" ==> Bubbles([m]) == [UserBubble(m.content)]
    ensures m.AI? && Bubbles([m]) != [] ==> Bubbles([m]) == [AssistantBubble(Robot + m.content)]
  {
    assert [m][1..] == [];
    StripEmptyIffBlank(m.content);
  }

  /** Drawing a history draws each part in turn: every message is drawn on
      its own, in the order of the history. */
  lemma {:induction false} BubblesConcat(a: seq<Message>, b: seq<Message>)
    ensures Bubbles(a + b) == Bubbles(a) + Bubbles(b)
  {
    if |a| == 0 {
      assert a + b == b;
    } else {
      assert (a + b)[1..] == a[1..] + b;
      BubblesConcat(a[1..], b);
    }
  }

  /** `any(isinstance(m, ToolMessage) and m.name == "save" and m.status != "error")`. */
  predicate SpecCompleted(msgs: seq<Message>)
  {
    exists i :: 0 <= i < |msgs| && msgs[i].Tool? && msgs[i].name == SaveTool && msgs[i].status != Error
  }

  /** Completion does not depend on where the save message sits: it survives
      any reordering of two parts and any extension of the history. */
  lemma CompletionAnywhere(a: seq<Message>, b: seq<Message>)
    ensures SpecCompleted(a + b) <==> SpecCompleted(b + a)
    ensures SpecCompleted(a) ==> SpecCompleted(a + b) && SpecCompleted(b + a)
  {
    var ab := a + b;
    var ba := b + a;
    assert forall i :: 0 <= i < |a| ==> ab[i] == a[i] && ba[|b| + i] == a[i];
    assert forall i :: 0 <= i < |b| ==> ab[|a| + i] == b[i] && ba[i] == b[i];
    if SpecCompleted(ab) {
      var i :| 0 <= i < |ab| && ab[i].Tool? && ab[i].name == SaveTool && ab[i].status != Error;
      if i < |a| { assert ba[|b| + i] == ab[i]; } else { assert ba[i - |a|] == ab[i]; }
    }
    if SpecCompleted(ba) {
      var i :| 0 <= i < |ba| && ba[i].Tool? && ba[i].name == SaveTool && ba[i].status != Error;
      if i < |b| { assert ab[|a| + i] == ba[i]; } else { assert ab[i - |b|] == ba[i]; }
    }
    if SpecCompleted(a) {
      var i :| 0 <= i < |a| && a[i].Tool? && a[i].name == SaveTool && a[i].status != Error;
      assert ab[i] == a[i];
    }
  }

  /** A loop that ended right after a save is a completed specification; one
      that ended right after an update is not, unless an earlier save is in
      the history. */
  lemma EndAfterSaveCompletes(msgs: seq<Message>)
    requires SpecAgent.ShouldContinue(msgs) == SpecAgent.End
    ensures msgs[|msgs| - 2].name == SaveTool ==> SpecCompleted(msgs)
    ensures msgs[|msgs| - 2].name == UpdateTool && SpecCompleted(msgs) ==>
              SpecCompleted(msgs[..|msgs| - 2])
  {
    var n := |msgs|;
    if msgs[n - 2].name == UpdateTool && SpecCompleted(msgs) {
      var i :| 0 <= i < n && msgs[i].Tool? && msgs[i].name == SaveTool && msgs[i].status != Error;
      assert i < n - 2;
      assert msgs[..n - 2][i] == msgs[i];
    }
  }

  const DownloadSuffix := "_document.json"

  /** What the end of a turn shows: the download of a completed
      specification, the updated draft, or the `KeyError` raised when a
      completed run leaves the draft without a dataset. */
  datatype Outcome = Completed(fileName: string) | Updated | DownloadFailed

  /** What `app.invoke` returns: its messages and its draft, either of which
      `dict.get` may find absent. */
  datatype RunResult = RunResult(messages: Option<seq<Message>>, draft: Option<Draft>)

  /** One submitted prompt: what the graph was sent, the session afterwards,
      the AI message shown, and how the turn ended. */
  datatype Turn = Turn(sent: seq<Message>, session: Session, reply: Option<Message>, outcome: Outcome)

  /** A submitted prompt: it is appended to the history, the graph runs on the
      history and the draft, the session takes the run's messages and draft
      wholesale (`[]` and `{}` when absent), the latest AI text is shown, and a
      completed specification is offered for download as
      `<dataset>_document.json` before the chat is reset. */
  function Submit(s: Session, prompt: string, invoke: (seq<Message>, Draft) -> RunResult): (t: Turn)
    requires prompt != ""
    ensures t.sent == s.messages + [Human(prompt)]
    ensures var res := invoke(t.sent, s.draft);
      var msgs := res.messages.GetOr([]);
      var draft := res.draft.GetOr(Blank);
      && t.reply == LastAiText(msgs)
      && (SpecCompleted(msgs) && draft.Doc? ==>
            t.outcome == Completed(draft.spec.dataset + DownloadSuffix) && t.session == ResetChat(s))
      && (SpecCompleted(msgs) && draft == Blank ==>
            t.outcome == DownloadFailed && t.session == Session(msgs, draft, s.chatOpen))
      && (!SpecCompleted(msgs) ==>
            t.outcome == Updated && t.session == Session(msgs, draft, s.chatOpen))
  {
    var sent := s.messages + [Human(prompt)];
    var res := invoke(sent, s.draft);
    var replaced := Session(res.messages.GetOr([]), res.draft.GetOr(Blank), s.chatOpen);
    var reply := LastAiText(replaced.messages);
    if !SpecCompleted(replaced.messages) then Turn(sent, replaced, reply, Updated)
    else match replaced.draft
      case Blank => Turn(sent, replaced, reply, DownloadFailed)
      case Doc(spec) => Turn(sent, ResetChat(replaced), reply, Completed(spec.dataset + DownloadSuffix))
  }

  /** After any turn the session either was reset or holds exactly what the
      run returned: nothing of the previous history or draft survives. */
  lemma SubmitReplacesSession(s: Session, s': Session, prompt: string,
                              invoke: (seq<Message>, Draft) -> RunResult)
    requires prompt != ""
    requires s.chatOpen == s'.chatOpen
    requires invoke(s.messages + [Human(prompt)], s.draft) == invoke(s'.messages + [Human(prompt)], s'.draft)
    ensures var t := Submit(s, prompt, invoke);
            var t' := Submit(s', prompt, invoke);
            t.session == t'.session && t.reply == t'.reply && t.outcome == t'.outcome
  {
  }

  /** `app.invoke` on the compiled graph: a run from the agent node with the
      submitted conversation and the session's draft in the state, the
      process-wide draft `draft` and the file `disk`. It returns the state's
      messages and `document_content`. */
  function GraphInvoke(env: SpecAgent.Env, draft: Draft, disk: Disk, fuel: nat): (seq<Message>, Draft) -> RunResult
  {
    (msgs: seq<Message>, d: Draft) =>
      var r := SpecAgent.Run(env, SpecAgent.Start(msgs, d, draft, disk), fuel);
      RunResult(Some(r.messages), Some(r.stateDraft))
  }

  /** A turn whose run reaches `update` and `save` in one tool batch while the
      state holds `{}`, and whose model then answers with text, stores the
      document but ends with the download failing: the run returns `{}`. */
  lemma SameBatchSaveFailsDownload(env: SpecAgent.Env, s: Session, prompt: string, draft: Draft, disk: Disk,
                                   k: nat, fuel: nat, content: string, args: string)
    requires prompt != ""
    requires SpecAgent.SameBatchAt(env, SpecAgent.Run(env, SpecAgent.Start(s.messages + [Human(prompt)], s.draft, draft, disk), k), content, args)
    requires fuel >= k + 2
    ensures Submit(s, prompt, GraphInvoke(env, draft, disk, fuel)).outcome == DownloadFailed
  {
    var start := SpecAgent.Start(s.messages + [Human(prompt)], s.draft, draft, disk);
    var l := SpecAgent.Run(env, start, k);
    var r := SpecAgent.Run(env, start, fuel);
    assert r.stateDraft == Blank && |r.messages| > |l.messages| + 1
        && r.messages[|l.messages| + 1] == Tool(SaveTool, Success, SavedText) by {
      SpecAgent.SameBatchRunEnds(env, l, content, args, fuel - k);
      SpecAgent.RunFrom(env, start, l, k, fuel);
    }
    var invoke := GraphInvoke(env, draft, disk, fuel);
    assert invoke(s.messages + [Human(prompt)], s.draft) == RunResult(Some(r.messages), Some(Blank));
    BlankAfterSaveFailsDownload(s, prompt, invoke, r.messages, |l.messages| + 1);
  }

  /** Whatever runs the graph: a run that returns a successful save in its
      conversation and `{}` as its draft makes the turn fail at the
      download. */
  lemma BlankAfterSaveFailsDownload(s: Session, prompt: string, invoke: (seq<Message>, Draft) -> RunResult,
                                    msgs: seq<Message>, i: nat)
    requires prompt != ""
    requires invoke(s.messages + [Human(prompt)], s.draft) == RunResult(Some(msgs), Some(Blank))
    requires i < |msgs| && msgs[i] == Tool(SaveTool, Success, SavedText)
    ensures Submit(s, prompt, invoke).outcome == DownloadFailed
  {
    assert msgs[i].Tool? && msgs[i].name == SaveTool && msgs[i].status != Error;
  }
}
