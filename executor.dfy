/** The command executor, as its scripted stand-in `MockTaskCommandExecutor`:
    it records every argument vector and answers from its scripts. */
module Executor {
  import opened Wrappers
  import opened Failures
  import opened Json

  /** The executor's three lists: the calls made so far, the scripted outputs
      and the scripted errors, both indexed by call number. */
  datatype ExecState = ExecState(
    commands: seq<seq<string>>,
    outputs: seq<Payload>,
    errors: seq<Option<Thrown>>)

  /** A state after some calls, with what the last operation returned or threw. */
  datatype Exec<T> = Exec(after: ExecState, result: Result<T, Error>)

  /** The export listing the mock prints when no output is scripted: one
      record that carries "id" but no "uuid". */
  const CannedExportRecord: Record := map[
    "id" := JNumber(1.0),
    "description" := JString("Mock Task"),
    "status" := JString("pending"),
    "entry" := JString("20250113T000000Z"),
    "project" := JString("test"),
    "priority" := JString("M")]

  const CannedExport: Payload := Records([CannedExportRecord])

  /** The empty output text, which is not JSON. */
  const EmptyOutput: Payload := Unparseable("")

  /** What the call numbered `|st.commands|` returns or throws: a scripted error
      first, then a scripted output, then the canned listing for `export`,
      then the empty text. */
  function Reply(st: ExecState, arguments: seq<string>): Result<Payload, Error> {
    var k := |st.commands|;
    if k < |st.errors| && st.errors[k].Some? then Failure(st.errors[k].value)
    else if k < |st.outputs| then Success(st.outputs[k])
    else if |arguments| > 0 && arguments[0] == "export" then Success(CannedExport)
    else Success(EmptyOutput)
  }

  /** One `execute` call: the arguments are recorded, then answered. */
  function Step(st: ExecState, arguments: seq<string>): Exec<Payload> {
    Exec(st.(commands := st.commands + [arguments]), Reply(st, arguments))
  }

  /** A call is recorded exactly once whatever it returns, and the scripts
      are left as they were. */
  lemma StepRecords(st: ExecState, arguments: seq<string>)
    ensures Step(st, arguments).after.commands == st.commands + [arguments]
    ensures |Step(st, arguments).after.commands| == |st.commands| + 1
    ensures Step(st, arguments).after.outputs == st.outputs
    ensures Step(st, arguments).after.errors == st.errors
  {
  }

  /** A scripted error for the k-th call is thrown, even when an output is
      scripted for the same call. */
  lemma ScriptedErrorWins(st: ExecState, arguments: seq<string>)
    requires |st.commands| < |st.errors| && st.errors[|st.commands|].Some?
    ensures Step(st, arguments).result == Failure(st.errors[|st.commands|].value)
  {
  }

  /** With no error scripted for the k-th call, a scripted output is returned. */
  lemma ScriptedOutputReturned(st: ExecState, arguments: seq<string>)
    requires |st.commands| < |st.outputs|
    requires |st.commands| >= |st.errors| || st.errors[|st.commands|].None?
    ensures Step(st, arguments).result == Success(st.outputs[|st.commands|])
  {
  }

  /** Without any script for the k-th call, `export` gets the canned listing
      and any other command the empty text. */
  lemma UnscriptedReply(st: ExecState, arguments: seq<string>)
    requires |st.commands| >= |st.errors| || st.errors[|st.commands|].None?
    requires |st.commands| >= |st.outputs|
    ensures Step(st, arguments).result ==
      if |arguments| > 0 && arguments[0] == "export" then Success(CannedExport) else Success(EmptyOutput)
  {
  }

  /** Several calls in a row, each recorded and answered in turn. */
  function Run(st: ExecState, calls: seq<seq<string>>): (r: (ExecState, seq<Result<Payload, Error>>))
    ensures r.0 == st.(commands := st.commands + calls)
    ensures |r.1| == |calls|
    decreases |calls|
  {
    if calls == [] then (st, [])
    else
      var first := Step(st, calls[0]);
      var rest := Run(first.after, calls[1..]);
      assert first.after.commands + calls[1..] == st.commands + calls;
      (rest.0, [first.result] + rest.1)
  }

  /** After a run the log holds exactly the calls made, in order, the scripts
      are unchanged, and the i-th call of the run is answered with the scripts'
      entries at its overall call number. */
  lemma {:induction false} RunAnswersByCallNumber(st: ExecState, calls: seq<seq<string>>)
    ensures Run(st, calls).0 == st.(commands := st.commands + calls)
    ensures forall i | 0 <= i < |calls| ::
      Run(st, calls).1[i] == Reply(st.(commands := st.commands + calls[..i]), calls[i])
    decreases |calls|
  {
    if calls != [] {
      var first := Step(st, calls[0]);
      RunAnswersByCallNumber(first.after, calls[1..]);
      assert first.after.commands + calls[1..] == st.commands + calls;
      forall i | 0 < i < |calls|
        ensures Run(st, calls).1[i] == Reply(st.(commands := st.commands + calls[..i]), calls[i])
      {
        assert first.after.commands + calls[1..][..i - 1] == st.commands + calls[..i];
      }
    }
  }

  /** The scripted stand-in for the command executor. */
  class MockTaskCommandExecutor {
    var executedCommands: seq<seq<string>>
    var mockOutputs: seq<Payload>
    var mockErrors: seq<Option<Thrown>>

    function State(): ExecState
      reads this
    {
      ExecState(executedCommands, mockOutputs, mockErrors)
    }

    constructor ()
      ensures State() == ExecState([], [], [])
    {
      executedCommands, mockOutputs, mockErrors := [], [], [];
    }

    /** Records the call first, then answers it from the scripts; the frame
        shows that the scripts are never changed. */
    method Execute(arguments: seq<string>) returns (r: Result<Payload, Error>)
      modifies this`executedCommands
      ensures State() == Step(old(State()), arguments).after
      ensures r == Step(old(State()), arguments).result
    {
      executedCommands := executedCommands + [arguments];
      if |mockErrors| > |executedCommands| - 1 {
        var error := mockErrors[|executedCommands| - 1];
        if error.Some? {
          return Failure(error.value);
        }
      }
      if |mockOutputs| > |executedCommands| - 1 {
        return Success(mockOutputs[|executedCommands| - 1]);
      }
      if |arguments| > 0 && arguments[0] == "export" {
        return Success(CannedExport);
      }
      return Success(EmptyOutput);
    }

    method Reset()
      modifies this
      ensures State() == ExecState([], [], [])
    {
      executedCommands := [];
      mockOutputs := [];
      mockErrors := [];
    }
  }
}
