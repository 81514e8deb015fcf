/** The specification builder's two tools, `update` and `save`, and the tool
    node that runs the calls the model requested, one after another, turning
    each outcome into a tool message.

    The draft is the process-wide `document_content`; it is passed in and
    returned explicitly. The specification file
    `data/api_data_specifications.json` is a value of type `Disk`. */
module SpecTools {
  import opened Wrappers
  import opened Messages
  import opened Text

  const UpdateTool := "update"
  const SaveTool := "save"
  const SpecPath := "data/api_data_specifications.json"
  const UpdatedText := "Document has been updated successfully! The current content is:\n"
  const SavedText := "Document has been saved successfully to '" + SpecPath + "'"
  const SaveErrorText := "Error saving document: "

  /** The specification file as `save` finds it: absent, a JSON list of
      documents, or present but unusable (unreadable, not JSON, not a list). */
  datatype SpecFile = Missing | Listing(entries: seq<Draft>) | Unreadable

  /** The file and whether writing it back would succeed. */
  datatype Disk = Disk(file: SpecFile, writable: bool)

  /** What the code cannot see: `json.loads` of a document (`None` when it
      raises), `json.dumps(..., indent=2)`, the text of the I/O exception a
      failed save reports, and the content the tool node gives the message of
      a call that raised (or named no known tool). */
  datatype ToolEnv = ToolEnv(
    parse: string -> Option<Draft>,
    dump: Draft -> string,
    ioError: string,
    failure: string -> string)

  /** What a Python tool function does: return a text (with the new draft and
      disk), or raise. */
  datatype ToolOutcome = Returned(text: string, draft: Draft, disk: Disk) | Raised

  /** The documents already stored, reading a missing file as `[]`. */
  function Stored(file: SpecFile): seq<Draft>
  {
    match file
    case Listing(es) => es
    case _ => []
  }

  /** Whether `save` gets through its read-modify-write without an exception. */
  predicate CanSave(disk: Disk)
  {
    !disk.file.Unreadable? && disk.writable
  }

  /** The store only ever grows at its end: every document stored before is
      still stored, in the same place, and a usable file stays usable. */
  predicate Keeps(before: Disk, after: Disk)
  {
    && after.writable == before.writable
    && (before.file.Unreadable? <==> after.file.Unreadable?)
    && (before.file.Listing? ==> after.file.Listing?)
    && Stored(before.file) <= Stored(after.file)
  }

  lemma KeepsTransitive(a: Disk, b: Disk, c: Disk)
    requires Keeps(a, b) && Keeps(b, c)
    ensures Keeps(a, c)
  {
  }

  /** `update(content)`: the draft becomes the parsed document, whatever it
      held before; a document that does not parse raises before the
      assignment. The file is never touched. */
  function Update(env: ToolEnv, content: string, disk: Disk): (r: ToolOutcome)
    ensures r.Raised? <==> env.parse(content).None?
    ensures r.Returned? ==> r.draft == env.parse(content).value && r.disk == disk
  {
    match env.parse(content)
    case None => Raised
    case Some(doc) => Returned(UpdatedText + env.dump(doc), doc, disk)
  }

  /** `save()`: read the stored list (a missing file reads as `[]`), append
      the draft, write the list back and reset the draft to `{}`. Any exception
      is caught inside the tool and returned as text, with the draft and the
      file as they were; so `save` never raises. */
  function Save(env: ToolEnv, draft: Draft, disk: Disk): (r: ToolOutcome)
    ensures r.Returned?
    ensures CanSave(disk) ==> r.disk.file == Listing(Stored(disk.file) + [draft]) && r.draft == Blank
    ensures !CanSave(disk) ==> r.disk == disk && r.draft == draft
    ensures Keeps(disk, r.disk)
  {
    if CanSave(disk) then
      Returned(SavedText, Blank, disk.(file := Listing(Stored(disk.file) + [draft])))
    else
      Returned(SaveErrorText + env.ioError, draft, disk)
  }

  /** Saving into a missing file stores exactly the draft; saving into a list
      keeps every earlier document in order and puts the draft last. */
  lemma SaveAppends(env: ToolEnv, draft: Draft, disk: Disk)
    requires CanSave(disk)
    ensures var r := Save(env, draft, disk);
      && (disk.file.Missing? ==> r.disk.file.entries == [draft])
      && |r.disk.file.entries| == |Stored(disk.file)| + 1
      && r.disk.file.entries[..|Stored(disk.file)|] == Stored(disk.file)
      && r.disk.file.entries[|Stored(disk.file)|] == draft
  {
  }

  /** A failed save still returns normally, so its message has status
      success although its text reports the error. */
  lemma FailedSaveLooksSuccessful(env: ToolEnv, draft: Draft, disk: Disk)
    requires !CanSave(disk)
    ensures RunCall(env, ToolCall(SaveTool, ""), draft, disk).0
            == Tool(SaveTool, Success, SaveErrorText + env.ioError)
  {
  }

  /** One call as the tool node runs it: dispatch on the tool name; a call
      that raises, or names no tool, becomes a message with status error and
      leaves the draft and the file as they were. */
  function RunCall(env: ToolEnv, call: ToolCall, draft: Draft, disk: Disk): (r: (Message, Draft, Disk))
    ensures r.0.Tool? && r.0.name == call.name
    ensures r.0.status == Error ==> r.1 == draft && r.2 == disk
    ensures call.name != SaveTool ==> r.2 == disk
    ensures call.name != SaveTool && call.name != UpdateTool ==> r.0.status == Error && r.1 == draft
    ensures Keeps(disk, r.2)
  {
    var outcome :=
      if call.name == UpdateTool then Update(env, call.args, disk)
      else if call.name == SaveTool then Save(env, draft, disk)
      else Raised;
    match outcome
    case Returned(text, d, k) => (Tool(call.name, Success, text), d, k)
    case Raised => (Tool(call.name, Error, env.failure(call.name)), draft, disk)
  }

  /** The `update` call as the tool node runs it: on success the new draft is
      the parsed document and nothing of the old draft survives; on a parse
      failure the message has status error and the old draft stays. */
  lemma UpdateReplacesWholesale(env: ToolEnv, content: string, draft: Draft, disk: Disk)
    ensures var r := RunCall(env, ToolCall(UpdateTool, content), draft, disk);
      && r.2 == disk
      && (env.parse(content).Some? ==> r.0.status == Success && r.1 == env.parse(content).value)
      && (env.parse(content).None? ==> r.0.status == Error && r.1 == draft)
  {
  }

  /** The result of running a batch of calls. */
  datatype Batch = Batch(out: seq<Message>, draft: Draft, disk: Disk)

  /** The tool node: every requested call produces exactly one tool message,
      in the order requested, named after the call. Only `save` touches the
      file, and then only by appending. */
  function RunCalls(env: ToolEnv, calls: seq<ToolCall>, draft: Draft, disk: Disk): (r: Batch)
    ensures |r.out| == |calls|
    ensures forall i :: 0 <= i < |calls| ==> r.out[i].Tool? && r.out[i].name == calls[i].name
    ensures (forall i :: 0 <= i < |calls| ==> calls[i].name != SaveTool) ==> r.disk == disk
    ensures Keeps(disk, r.disk)
    decreases |calls|
  {
    if |calls| == 0 then Batch([], draft, disk)
    else
      var (m, d, k) := RunCall(env, calls[0], draft, disk);
      var rest := RunCalls(env, calls[1..], d, k);
      assert forall i :: 1 <= i < |calls| ==> calls[i] == calls[1..][i - 1];
      KeepsTransitive(disk, k, rest.disk);
      Batch([m] + rest.out, rest.draft, rest.disk)
  }

  /** A batch of one call is that call's message, draft and file. */
  lemma RunCallsOfOne(env: ToolEnv, c: ToolCall, draft: Draft, disk: Disk)
    ensures var (m, d, k) := RunCall(env, c, draft, disk);
      RunCalls(env, [c], draft, disk) == Batch([m], d, k)
  {
    assert [c][1..] == [];
  }

  /** Running `a + b` runs `a`, then `b` on the draft and file `a` left, and
      lists the messages of both in that order. With `RunCallsOfOne` this
      makes message i the outcome of call i on the state the earlier calls
      left behind. */
  lemma RunCallsConcat(env: ToolEnv, a: seq<ToolCall>, b: seq<ToolCall>, draft: Draft, disk: Disk)
    ensures var x := RunCalls(env, a, draft, disk);
      var y := RunCalls(env, b, x.draft, x.disk);
      RunCalls(env, a + b, draft, disk) == Batch(x.out + y.out, y.draft, y.disk)
  {
    var f := CallStep(env);
    var x := RunCalls(env, a, draft, disk);
    RunCallsThread(env, a, draft, disk);
    RunCallsThread(env, b, x.draft, x.disk);
    RunCallsThread(env, a + b, draft, disk);
    ThreadConcat(f, a, b, (draft, disk));
  }

  /** One call as a step on the pair (draft, file). */
  function CallStep(env: ToolEnv): (ToolCall, (Draft, Disk)) -> (Message, (Draft, Disk))
  {
    (c: ToolCall, s: (Draft, Disk)) => var r := RunCall(env, c, s.0, s.1); (r.0, (r.1, r.2))
  }

  /** `f` applied along `cs`, each step on the state the previous one left,
      collecting the outputs in order. */
  function Thread<C, M, S>(f: (C, S) -> (M, S), cs: seq<C>, s: S): (seq<M>, S)
    decreases |cs|
  {
    if |cs| == 0 then ([], s)
    else
      var p := f(cs[0], s);
      var q := Thread(f, cs[1..], p.1);
      ([p.0] + q.0, q.1)
  }

  lemma {:induction false} ThreadConcat<C, M, S>(f: (C, S) -> (M, S), a: seq<C>, b: seq<C>, s: S)
    ensures var x := Thread(f, a, s);
      var y := Thread(f, b, x.1);
      Thread(f, a + b, s) == (x.0 + y.0, y.1)
    decreases |a|
  {
    if |a| == 0 {
      assert a + b == b;
      assert [] + Thread(f, b, s).0 == Thread(f, b, s).0;
    } else {
      assert (a + b)[0] == a[0] && (a + b)[1..] == a[1..] + b;
      var p := f(a[0], s);
      ThreadConcat(f, a[1..], b, p.1);
      var x' := Thread(f, a[1..], p.1);
      var y := Thread(f, b, x'.1);
      assert [p.0] + (x'.0 + y.0) == ([p.0] + x'.0) + y.0;
    }
  }

  /** The tool node is the calls threaded through the draft and the file. */
  lemma {:induction false} RunCallsThread(env: ToolEnv, calls: seq<ToolCall>, draft: Draft, disk: Disk)
    ensures var t := Thread(CallStep(env), calls, (draft, disk));
      RunCalls(env, calls, draft, disk) == Batch(t.0, t.1.0, t.1.1)
    decreases |calls|
  {
    if |calls| > 0 {
      var c := RunCall(env, calls[0], draft, disk);
      RunCallsThread(env, calls[1..], c.1, c.2);
    }
  }

  /** `update` followed by `save` in one batch: the file ends with the
      updated document, every earlier document is kept, the draft is `{}`
      again, and both messages report success. */
  lemma UpdateThenSave(env: ToolEnv, content: string, args: string, draft: Draft, disk: Disk)
    requires env.parse(content).Some? && CanSave(disk)
    ensures var r := RunCalls(env, [ToolCall(UpdateTool, content), ToolCall(SaveTool, args)], draft, disk);
      && r.disk.file == Listing(Stored(disk.file) + [env.parse(content).value])
      && r.draft == Blank
      && r.out[0].status == Success && r.out[1].status == Success
      && r.out == [Tool(UpdateTool, Success, UpdatedText + env.dump(env.parse(content).value)),
                   Tool(SaveTool, Success, SavedText)]
  {
    var calls := [ToolCall(UpdateTool, content), ToolCall(SaveTool, args)];
    assert calls[1..] == [ToolCall(SaveTool, args)];
    assert calls[1..][1..] == [];
    var doc := env.parse(content).value;
    var (m1, d1, k1) := RunCall(env, calls[0], draft, disk);
    assert d1 == doc && k1 == disk;
    var (m2, d2, k2) := RunCall(env, calls[1], d1, k1);
    assert d2 == Blank;
    assert RunCalls(env, calls[1..], d1, k1) == Batch([m2], d2, k2);
    assert m1 == Tool(UpdateTool, Success, UpdatedText + env.dump(doc));
  }
}
