/** The specification builder's agent loop: a graph with an agent node, a tool
    node and END. The agent node asks the model for the next message; the
    routing predicate `ShouldContinue` then sends control to the tool node or
    to END; the tool node always returns to the agent.

    The state carries the graph's own `document_content` (`stateDraft`),
    which only the agent node writes, next to the process-wide draft
    (`draft`) that the tools edit. */
module SpecAgent {
  import opened Wrappers
  import opened Messages
  import opened SpecTools

  /** The two labels `should_continue` returns. */
  datatype Route = Continue | End

  /** The graph's nodes: "agent", "tools" and END. */
  datatype Node = AgentNode | ToolsNode | Finished

  /** The tools whose successful result, followed by AI text, ends the loop.
      The code lists both `save` and `update`. */
  predicate IsTerminalTool(name: string)
  {
    name == SaveTool || name == UpdateTool
  }

  /** `should_continue`: end exactly when the last message is AI text and the
      one before it is a terminal tool's message whose status is not error. */
  function ShouldContinue(msgs: seq<Message>): (r: Route)
    ensures |msgs| < 2 ==> r == Continue
  {
    if |msgs| == 0 then Continue
    else if && |msgs| > 1
            && IsAiText(msgs[|msgs| - 1])
            && msgs[|msgs| - 2].Tool?
            && IsTerminalTool(msgs[|msgs| - 2].name)
            && msgs[|msgs| - 2].status != Error
    then End
    else Continue
  }

  /** A terminal tool's successful message followed by AI text. */
  predicate TerminalPair(t: Message, a: Message)
  {
    t.Tool? && IsTerminalTool(t.name) && t.status == Success && IsAiText(a)
  }

  /** `msgs` is `pre` followed by `t` and then `a`. */
  predicate EndsIn(msgs: seq<Message>, pre: seq<Message>, t: Message, a: Message)
  {
    msgs == pre + [t, a]
  }

  /** The loop ends exactly on a conversation whose last two messages are a
      terminal tool's successful message and then AI text; nothing earlier in
      the conversation matters. */
  lemma EndIff(msgs: seq<Message>)
    ensures ShouldContinue(msgs) == End <==>
            exists pre, t, a :: EndsIn(msgs, pre, t, a) && TerminalPair(t, a)
  {
    if ShouldContinue(msgs) == End {
      var n := |msgs|;
      assert EndsIn(msgs, msgs[..n - 2], msgs[n - 2], msgs[n - 1]);
    }
    if exists pre, t, a :: EndsIn(msgs, pre, t, a) && TerminalPair(t, a) {
      var pre, t, a :| EndsIn(msgs, pre, t, a) && TerminalPair(t, a);
      assert msgs[|msgs| - 2] == t && msgs[|msgs| - 1] == a;
    }
  }

  /** A tool message with status error right before the final AI text never
      ends the loop, whichever tool it came from. */
  lemma ErrorNeverEnds(pre: seq<Message>, name: string, content: string, last: Message)
    ensures ShouldContinue(pre + [Tool(name, Error, content), last]) == Continue
  {
    var msgs := pre + [Tool(name, Error, content), last];
    assert msgs[|msgs| - 2] == Tool(name, Error, content);
  }

  /** A save whose file access failed still produces a message with status
      success, so AI text right after it ends the loop. */
  lemma FailedSaveStillEnds(env: ToolEnv, pre: seq<Message>, draft: Draft, disk: Disk, text: string, calls: seq<ToolCall>)
    requires !CanSave(disk) && text != ""
    ensures ShouldContinue(pre + [RunCall(env, ToolCall(SaveTool, ""), draft, disk).0, AI(text, calls)]) == End
  {
    FailedSaveLooksSuccessful(env, draft, disk);
    var msgs := pre + [Tool(SaveTool, Success, SaveErrorText + env.ioError), AI(text, calls)];
    assert msgs[|msgs| - 2] == Tool(SaveTool, Success, SaveErrorText + env.ioError);
    assert msgs[|msgs| - 1] == AI(text, calls);
  }

  /** The decision ignores the tool calls the final AI message requests: when
      it says END, those calls are never run. */
  lemma EndIgnoresRequestedCalls(pre: seq<Message>, text: string, calls: seq<ToolCall>, calls': seq<ToolCall>)
    ensures ShouldContinue(pre + [AI(text, calls)]) == ShouldContinue(pre + [AI(text, calls')])
  {
    var a := pre + [AI(text, calls)];
    var b := pre + [AI(text, calls')];
    if |pre| > 0 {
      assert a[|a| - 2] == b[|b| - 2] == pre[|pre| - 1];
    }
  }

  // ------------------------------------------------------------ the graph

  /** The model's reply: text and the tool calls it requests. */
  datatype Reply = Reply(content: string, calls: seq<ToolCall>)

  /** What the loop cannot see: the language model (given the system message
      and the conversation, the next reply), the system instruction it is
      given for a draft, and the tools' own environment. */
  datatype Env = Env(
    respond: seq<Message> -> Reply,
    instructions: Draft -> string,
    tools: ToolEnv)

  /** One point of a run of the graph. */
  datatype Loop = Loop(node: Node, messages: seq<Message>, stateDraft: Draft, draft: Draft, disk: Disk)

  /** The edges the graph declares: agent to tools or END, tools to agent. */
  predicate Edge(from: Node, to: Node)
  {
    || (from == AgentNode && (to == ToolsNode || to == Finished))
    || (from == ToolsNode && to == AgentNode)
  }

  /** The restore rule of the agent node: a non-empty draft in the graph state
      is copied into an empty process-wide draft. */
  function Restore(stateDraft: Draft, draft: Draft): (r: Draft)
    ensures draft != Blank ==> r == draft
    ensures draft == Blank ==> r == stateDraft
  {
    if stateDraft != Blank && draft == Blank then stateDraft else draft
  }

  /** What the model is sent: the system message, then the conversation. */
  function ModelInput(env: Env, draft: Draft, msgs: seq<Message>): seq<Message>
  {
    [System(env.instructions(draft))] + msgs
  }

  /** The agent node: restore the draft, ask the model, append its reply as
      exactly one AI message, store the draft in the state, then route. */
  function AgentStep(env: Env, l: Loop): (r: Loop)
    requires l.node == AgentNode
    ensures |r.messages| == |l.messages| + 1 && r.messages[..|l.messages|] == l.messages
    ensures var reply := env.respond(ModelInput(env, r.draft, l.messages));
            r.messages[|l.messages|] == AI(reply.content, reply.calls)
    ensures r.draft == Restore(l.stateDraft, l.draft) && r.stateDraft == r.draft
    ensures r.disk == l.disk
    ensures r.node == (if ShouldContinue(r.messages) == End then Finished else ToolsNode)
  {
    var g := Restore(l.stateDraft, l.draft);
    var reply := env.respond(ModelInput(env, g, l.messages));
    var msgs := l.messages + [AI(reply.content, reply.calls)];
    Loop(if ShouldContinue(msgs) == End then Finished else ToolsNode, msgs, g, g, l.disk)
  }

  /** The tool calls of the last message, when it is an AI message. */
  function PendingCalls(msgs: seq<Message>): seq<ToolCall>
  {
    if |msgs| > 0 && msgs[|msgs| - 1].AI? then msgs[|msgs| - 1].calls else []
  }

  /** The tool node: run the pending calls in order and append one tool
      message per call. The graph state's draft is not written here. */
  function ToolsStep(env: Env, l: Loop): (r: Loop)
    requires l.node == ToolsNode
    ensures r.node == AgentNode
    ensures var calls := PendingCalls(l.messages);
      && |r.messages| == |l.messages| + |calls|
      && r.messages[..|l.messages|] == l.messages
      && forall i :: 0 <= i < |calls| ==>
           r.messages[|l.messages| + i].Tool? && r.messages[|l.messages| + i].name == calls[i].name
    ensures r.stateDraft == l.stateDraft
    ensures Keeps(l.disk, r.disk)
  {
    var b := RunCalls(env.tools, PendingCalls(l.messages), l.draft, l.disk);
    Loop(AgentNode, l.messages + b.out, l.stateDraft, b.draft, b.disk)
  }

  /** One move along an edge of the graph. */
  function Step(env: Env, l: Loop): (r: Loop)
    requires l.node != Finished
    ensures Edge(l.node, r.node)
    ensures l.messages <= r.messages
    ensures Keeps(l.disk, r.disk)
  {
    if l.node == AgentNode then AgentStep(env, l) else ToolsStep(env, l)
  }

  /** `app.invoke`: start at the agent node with the given conversation, the
      caller's draft in the state and the current process-wide draft. */
  function Start(msgs: seq<Message>, stateDraft: Draft, draft: Draft, disk: Disk): Loop
  {
    Loop(AgentNode, msgs, stateDraft, draft, disk)
  }

  /** Apply `next` until `stop` holds, for at most `fuel` steps. */
  function Iterate<S>(next: S -> S, stop: S -> bool, s: S, fuel: nat): S
    decreases fuel
  {
    if stop(s) || fuel == 0 then s else Iterate(next, stop, next(s), fuel - 1)
  }

  /** Iterating `fuel` times is iterating `k` times and then the rest. */
  lemma {:induction false} IterateSplit<S>(next: S -> S, stop: S -> bool, s: S, k: nat, fuel: nat)
    requires k <= fuel
    ensures Iterate(next, stop, s, fuel) == Iterate(next, stop, Iterate(next, stop, s, k), fuel - k)
    decreases k
  {
    if !stop(s) && k > 0 {
      IterateSplit(next, stop, next(s), k - 1, fuel - 1);
    }
  }

  /** One move of the graph, standing still at END. */
  function Advance(env: Env, l: Loop): Loop
  {
    if l.node == Finished then l else Step(env, l)
  }

  /** The graph runs until END. The source has no turn limit: `fuel` only
      bounds the number of steps looked at, and a run cut short by it ends
      at a node other than `Finished`. */
  function Run(env: Env, l: Loop, fuel: nat): Loop
  {
    Iterate((x: Loop) => Advance(env, x), (x: Loop) => x.node == Finished, l, fuel)
  }

  /** A run that has not ended takes its next step along an edge. */
  lemma RunUnfolds(env: Env, l: Loop, fuel: nat)
    ensures l.node == Finished || fuel == 0 ==> Run(env, l, fuel) == l
    ensures l.node != Finished && fuel > 0 ==> Run(env, l, fuel) == Run(env, Step(env, l), fuel - 1)
  {
  }

  /** What holds at every point of a run: END is reached only on a
      conversation the routing predicate ends, and the tool node is reached
      only right after an AI message. */
  predicate Reachable(l: Loop)
  {
    && (l.node == Finished ==> ShouldContinue(l.messages) == End)
    && (l.node == ToolsNode ==> |l.messages| > 0 && l.messages[|l.messages| - 1].AI?)
  }

  lemma StepKeepsReachable(env: Env, l: Loop)
    requires l.node != Finished && Reachable(l)
    ensures Reachable(Step(env, l))
  {
  }

  /** A property every step keeps is kept by any iteration. */
  lemma {:induction false} IterateKeeps<S>(next: S -> S, stop: S -> bool, inv: S -> bool, s: S, fuel: nat)
    requires inv(s)
    requires forall x :: inv(x) && !stop(x) ==> inv(next(x))
    ensures inv(Iterate(next, stop, s, fuel))
    decreases fuel
  {
    if !stop(s) && fuel > 0 {
      IterateKeeps(next, stop, inv, next(s), fuel - 1);
    }
  }

  /** Where a run from `l` can be: a reachable point whose conversation
      extends `l`'s and whose store keeps `l`'s entries. */
  predicate Grown(l: Loop, x: Loop)
  {
    Reachable(x) && l.messages <= x.messages && Keeps(l.disk, x.disk)
  }

  lemma GrownStep(env: Env, l: Loop, x: Loop)
    requires x.node != Finished && Grown(l, x)
    ensures Grown(l, Step(env, x))
  {
    var y := Step(env, x);
    StepKeepsReachable(env, x);
    KeepsTransitive(l.disk, x.disk, y.disk);
  }

  /** Along any run: the conversation only grows at its end, the stored
      specifications are only appended to, and the run stops at END only
      when its last two messages are a terminal tool's success and AI text. */
  lemma RunInvariants(env: Env, l: Loop, fuel: nat)
    requires Reachable(l)
    ensures var r := Run(env, l, fuel);
      && Reachable(r)
      && l.messages <= r.messages
      && Keeps(l.disk, r.disk)
      && (r.node == Finished ==> ShouldContinue(r.messages) == End)
  {
    var next := (x: Loop) => Advance(env, x);
    var stop := (x: Loop) => x.node == Finished;
    var inv := (x: Loop) => Grown(l, x);
    forall x | inv(x) && !stop(x)
      ensures inv(next(x))
    {
      GrownStep(env, l, x);
    }
    IterateKeeps(next, stop, inv, l, fuel);
  }

  /** A run started by `app.invoke` that reaches END ends on a terminal tool's
      successful message followed by AI text. */
  lemma InvokeEndsOnTerminalPair(env: Env, msgs: seq<Message>, stateDraft: Draft, draft: Draft, disk: Disk, fuel: nat)
    ensures var r := Run(env, Start(msgs, stateDraft, draft, disk), fuel);
      r.node == Finished ==>
        && msgs <= r.messages
        && exists pre, t, a :: EndsIn(r.messages, pre, t, a) && TerminalPair(t, a)
  {
    var r := Run(env, Start(msgs, stateDraft, draft, disk), fuel);
    RunInvariants(env, Start(msgs, stateDraft, draft, disk), fuel);
    EndIff(r.messages);
  }

  /** `save` resets the process-wide draft, but the next agent turn copies the
      graph state's draft back: after a successful save of the draft the
      state holds, the draft is the saved document again. */
  lemma SaveResetUndoneByRestore(env: Env, l: Loop, args: string)
    requires l.node == ToolsNode
    requires PendingCalls(l.messages) == [ToolCall(SaveTool, args)]
    requires l.draft == l.stateDraft && l.draft != Blank
    requires CanSave(l.disk)
    ensures var t := ToolsStep(env, l);
      && t.draft == Blank
      && t.disk.file == Listing(Stored(l.disk.file) + [l.draft])
      && AgentStep(env, t).draft == l.draft
  {
    var calls := [ToolCall(SaveTool, args)];
    assert calls[1..] == [];
    var (m, d, k) := RunCall(env.tools, calls[0], l.draft, l.disk);
    assert RunCalls(env.tools, calls, l.draft, l.disk) == Batch([m], d, k);
  }

  /** When `update` and `save` run in the same tool batch while the graph
      state still holds `{}`, the saved document never reaches the state: the
      next agent turn has nothing to restore, and the draft stays `{}`. That
      turn is the last one exactly when the model answers with text, and the
      conversation then holds the successful save. */
  lemma SameBatchSaveLeavesStateBlank(env: Env, l: Loop, content: string, args: string)
    requires l.node == ToolsNode
    requires PendingCalls(l.messages) == [ToolCall(UpdateTool, content), ToolCall(SaveTool, args)]
    requires l.stateDraft == Blank
    requires env.tools.parse(content).Some? && CanSave(l.disk)
    ensures var t := ToolsStep(env, l);
      var a := AgentStep(env, t);
      && a.stateDraft == Blank && a.draft == Blank
      && a.disk.file == Listing(Stored(l.disk.file) + [env.tools.parse(content).value])
      && t.messages == l.messages + SameBatchOut(env, content)
      && (a.node == Finished <==> env.respond(ModelInput(env, Blank, t.messages)).content != "")
      && a.messages[|l.messages| + 1] == Tool(SaveTool, Success, SavedText)
  {
    var calls := PendingCalls(l.messages);
    UpdateThenSave(env.tools, content, args, l.draft, l.disk);
    var b := RunCalls(env.tools, calls, l.draft, l.disk);
    var t := ToolsStep(env, l);
    var a := AgentStep(env, t);
    assert t.messages == l.messages + b.out;
    assert a.messages[|l.messages| + 1] == b.out[1];
    var reply := env.respond(ModelInput(env, Blank, t.messages));
    assert a.messages == t.messages + [AI(reply.content, reply.calls)];
    assert a.messages[|a.messages| - 2] == b.out[1];
  }

  /** Running `fuel` steps is running `k` steps and then the rest. */
  lemma RunSplit(env: Env, l: Loop, k: nat, fuel: nat)
    requires k <= fuel
    ensures Run(env, l, fuel) == Run(env, Run(env, l, k), fuel - k)
  {
    IterateSplit((x: Loop) => Advance(env, x), (x: Loop) => x.node == Finished, l, k, fuel);
  }

  /** The run is at the tool node with `update` and `save` pending in one
      batch, the state holds `{}`, both calls will succeed, and the model
      answers the conversation after the batch with text. */
  predicate SameBatchAt(env: Env, l: Loop, content: string, args: string)
  {
    && l.node == ToolsNode
    && PendingCalls(l.messages) == [ToolCall(UpdateTool, content), ToolCall(SaveTool, args)]
    && l.stateDraft == Blank
    && env.tools.parse(content).Some? && CanSave(l.disk)
    && env.respond(ModelInput(env, Blank, l.messages + SameBatchOut(env, content))).content != ""
  }

  /** The two tool messages the batch yields: `update`'s confirmation with
      the printed document, then `save`'s. */
  function SameBatchOut(env: Env, content: string): seq<Message>
    requires env.tools.parse(content).Some?
  {
    [Tool(UpdateTool, Success, UpdatedText + env.tools.dump(env.tools.parse(content).value)),
     Tool(SaveTool, Success, SavedText)]
  }

  /** A run that reaches the same-batch `update` and `save` stops at the next
      agent turn when the model then answers with text: at END, with `{}` in
      the state and the successful save in the conversation. */
  lemma SameBatchRunEnds(env: Env, l: Loop, content: string, args: string, n: nat)
    requires SameBatchAt(env, l, content, args)
    requires n >= 2
    ensures var r := Run(env, l, n);
      && r.node == Finished && r.stateDraft == Blank
      && |r.messages| > |l.messages| + 1 && r.messages[|l.messages| + 1] == Tool(SaveTool, Success, SavedText)
  {
    SameBatchSaveLeavesStateBlank(env, l, content, args);
    var t := ToolsStep(env, l);
    var a := AgentStep(env, t);
    assert Step(env, l) == t;
    assert Step(env, t) == a;
    RunUnfolds(env, l, n);
    RunUnfolds(env, t, n - 1);
    RunUnfolds(env, a, n - 2);
  }

  /** A run that is at `l` after `k` steps goes on as a run from `l`. */
  lemma RunFrom(env: Env, start: Loop, l: Loop, k: nat, fuel: nat)
    requires Run(env, start, k) == l && k <= fuel
    ensures Run(env, start, fuel) == Run(env, l, fuel - k)
  {
    RunSplit(env, start, k, fuel);
  }
}
