/** The request handlers of server.js: the `validateRequest` middleware, the
    `/git-push` endpoint, the `toolMap` table with its guarded `git_push`
    entry, and the `/run` handler that dispatches a model-produced plan of
    operations one at a time, stopping at the first one that throws.

    The outside world (the file system that tools/writefile.js writes, the
    repository and remote that tools/gitpush.js commits and pushes to) is a
    parameter: it answers each call according to the calls made before it.
    The list of calls made so far is threaded through every handler, so
    "this operation ran" and "nothing after it ran" are statements about
    that list. */
module Server {
  import opened JsValue

  datatype Option<T> = None | Some(value: T)

  /** One element of the plan's `operations` array: `{type, parameters}`.
      (`type` is a Dafny keyword, hence `kind`.) */
  datatype Op = Op(kind: string, parameters: Value)

  /** How the chat-completion call of `/run` ended: it threw, or it replied
      with text that `JSON.parse` rejected, or with a plan. */
  datatype Completion = CallFailed(message: string) | Unparseable | Plan(ops: seq<Op>)

  /** A call into tools/writefile.js or tools/gitpush.js. */
  datatype Call = WriteFile(params: Value) | GitPush(commitMessage: string)

  /** How an awaited call settled: with a value, or by throwing an Error. */
  datatype Reply = Returned(value: Value) | Threw(message: string)

  /** The outside world: its answer to a call, given every call made before. */
  type World = (seq<Call>, Call) -> Reply

  /** A reply together with the calls made so far, this one's included. */
  datatype Effect = Effect(reply: Reply, log: seq<Call>)

  /** The JSON answers of the two POST endpoints. The timestamp that 500
      answers carry is left out. */
  datatype Response =
    | Results(results: seq<Value>)           // 200 {success: true, results}
    | Pushed(result: Value)                  // 200 {success: true, result}
    | Rejected(error: string)                // 400 {error}
    | Failed(error: string, message: string) // 500 {error, message, timestamp}

  /** An answer together with the calls made while producing it. */
  datatype Exchange = Exchange(response: Response, log: seq<Call>)

  function StatusCode(r: Response): int {
    match r
    case Results(_) => 200
    case Pushed(_) => 200
    case Rejected(_) => 400
    case Failed(_, _) => 500
  }

  const PromptRequired := "Prompt is required"
  const CommitMessageRequired := "Commit message is required"
  const GitOperationFailed := "Git operation failed"
  const CommitMessageRequiredForGit := "Commit message is required for git operations"
  const UnsupportedToolType := "Unsupported tool type: "
  const ParseFailure := "Failed to parse AI response as JSON. Please try again."
  const ProcessingFailed := "Failed to process request"

  // ---------------------------------------------------------------------
  // validateRequest and /git-push

  /** The `validateRequest` middleware: `None` when it hands the request on
      by calling `next()` once, or the 400 answer it sends instead. */
  function ValidateRequest(prompt: Value): (r: Option<Response>)
    ensures r == None <==> Truthy(prompt)
    ensures r != None ==> r.value == Rejected(PromptRequired) && StatusCode(r.value) == 400
  {
    if !Truthy(prompt) then Some(Rejected(PromptRequired)) else None
  }

  /** The `/git-push` endpoint, given the body's `commitMessage`. A
      `String(commitMessage)` that throws is caught like a failed push. */
  function PostGitPush(commitMessage: Value, world: World, log: seq<Call>): (ex: Exchange)
    ensures ex.log == log <==> !Truthy(commitMessage) || ToStr(commitMessage).Err?
    ensures !Truthy(commitMessage) ==> ex.response == Rejected(CommitMessageRequired)
    ensures Truthy(commitMessage) && ToStr(commitMessage).Err? ==>
      ex.response == Failed(GitOperationFailed, ToStr(commitMessage).message)
    ensures Truthy(commitMessage) && ToStr(commitMessage).Ok? ==>
      ex.log == log + [GitPush(ToStr(commitMessage).value)] &&
      (ex.response.Pushed? <==> world(log, GitPush(ToStr(commitMessage).value)).Returned?)
    ensures ex.response.Pushed? ==> ex.response.result == world(log, ex.log[|log|]).value
    ensures ex.response.Failed? && ex.log != log ==>
      ex.response == Failed(GitOperationFailed, world(log, ex.log[|log|]).message)
  {
    if !Truthy(commitMessage) then
      Exchange(Rejected(CommitMessageRequired), log)
    else
      match ToStr(commitMessage)
      case Err(e) => Exchange(Failed(GitOperationFailed, e), log)
      case Ok(text) =>
        var call := GitPush(text);
        match world(log, call)
        case Returned(v) => Exchange(Pushed(v), log + [call])
        case Threw(m) => Exchange(Failed(GitOperationFailed, m), log + [call])
  }

  // ---------------------------------------------------------------------
  // toolMap

  /** The two entries of `toolMap`. */
  datatype Tool = WriteFileTool | GitPushTool

  /** `toolMap[type]`, taken as exact membership: prototype keys such as
      "constructor" are not entries. */
  function LookupTool(kind: string): (t: Option<Tool>)
    ensures t.Some? <==> kind in {"write_file", "git_push"}
    ensures t == Some(WriteFileTool) <==> kind == "write_file"
    ensures t == Some(GitPushTool) <==> kind == "git_push"
  {
    if kind == "write_file" then Some(WriteFileTool)
    else if kind == "git_push" then Some(GitPushTool)
    else None
  }

  /** The guard of the `git_push` entry: the commit message it hands to
      gitPush, or the message of what it throws. */
  function GitPushGuard(params: Value): (r: Result<string>)
    ensures r.Ok? <==>
      ReadProperty(params, "commitMessage").Ok? && Truthy(ReadProperty(params, "commitMessage").value) &&
      ToStr(ReadProperty(params, "commitMessage").value).Ok?
    ensures r.Ok? ==> r.value == ToStr(ReadProperty(params, "commitMessage").value).value
    ensures ReadProperty(params, "commitMessage").Err? ==>
      r == Err(ReadProperty(params, "commitMessage").message)
    ensures ReadProperty(params, "commitMessage").Ok? && !Truthy(ReadProperty(params, "commitMessage").value) ==>
      r == Err(CommitMessageRequiredForGit)
    ensures (ReadProperty(params, "commitMessage").Ok? && Truthy(ReadProperty(params, "commitMessage").value) &&
             ToStr(ReadProperty(params, "commitMessage").value).Err?) ==> r == Err(NoPrimitive)
  {
    match ReadProperty(params, "commitMessage")
    case Err(m) => Err(m)
    case Ok(message) =>
      if !Truthy(message) then Err(CommitMessageRequiredForGit) else ToStr(message)
  }

  /** Invoking one `toolMap` entry on `parameters`. */
  function Handler(tool: Tool, params: Value, world: World, log: seq<Call>): (r: Effect)
    ensures r.log == log ||
      (|r.log| == |log| + 1 && r.log[..|log|] == log && r.reply == world(log, r.log[|log|]))
    ensures tool == WriteFileTool ==> r.log == log + [WriteFile(params)]
    ensures tool == GitPushTool ==> (r.log == log <==> GitPushGuard(params).Err?)
    ensures tool == GitPushTool && r.log != log ==> r.log[|log|] == GitPush(GitPushGuard(params).value)
    ensures tool == GitPushTool && GitPushGuard(params).Err? ==> r == Effect(Threw(GitPushGuard(params).message), log)
    ensures r.log == log ==> r.reply.Threw?
  {
    match tool
    case WriteFileTool => Effect(world(log, WriteFile(params)), log + [WriteFile(params)])
    case GitPushTool =>
      match GitPushGuard(params)
      case Err(m) => Effect(Threw(m), log)
      case Ok(message) => Effect(world(log, GitPush(message)), log + [GitPush(message)])
  }

  /** The body of the `for...of` loop of `/run` for one operation: look the
      type up, throw if it is not there, else await its handler. */
  function Perform(op: Op, world: World, log: seq<Call>): (r: Effect)
    ensures log <= r.log && |r.log| <= |log| + 1
    ensures LookupTool(op.kind).None? ==> r == Effect(Threw(UnsupportedToolType + op.kind), log)
    ensures LookupTool(op.kind).Some? ==> r == Handler(LookupTool(op.kind).value, op.parameters, world, log)
  {
    match LookupTool(op.kind)
    case None => Effect(Threw(UnsupportedToolType + op.kind), log)
    case Some(tool) => Handler(tool, op.parameters, world, log)
  }

  // ---------------------------------------------------------------------
  // /run

  /** How far the loop of `/run` got: the results collected or the message
      of the Error that stopped it, the calls made, and how many operations
      it took from the plan. */
  datatype Outcome = Outcome(status: Result<seq<Value>>, log: seq<Call>, reached: nat)

  /** The loop of `/run` over `ops`, as a function of the plan: operations
      are taken in order, each result is appended, and the first Error ends
      the loop. */
  function Exec(ops: seq<Op>, world: World, log: seq<Call>): (r: Outcome)
    ensures log <= r.log
    ensures r.reached <= |ops| && |r.log| <= |log| + r.reached
    ensures r.status.Ok? ==> |r.status.value| == |ops| && r.reached == |ops|
    ensures r.status.Err? ==> r.reached > 0
    decreases |ops|
  {
    if ops == [] then Outcome(Ok([]), log, 0)
    else
      var before := Exec(ops[..|ops| - 1], world, log);
      if before.status.Err? then before
      else
        var e := Perform(ops[|ops| - 1], world, before.log);
        match e.reply
        case Threw(m) => Outcome(Err(m), e.log, before.reached + 1)
        case Returned(v) => Outcome(Ok(before.status.value + [v]), e.log, before.reached + 1)
  }

  /** The calls made by the first `i` operations. */
  function LogBefore(ops: seq<Op>, world: World, log: seq<Call>, i: nat): seq<Call>
    requires i <= |ops|
  {
    Exec(ops[..i], world, log).log
  }

  /** What operation `i` does once the operations before it have run. */
  function StepAt(ops: seq<Op>, world: World, log: seq<Call>, i: nat): Effect
    requires i < |ops|
  {
    Perform(ops[i], world, LogBefore(ops, world, log, i))
  }

  /** Once the loop has stopped with an Error, later operations change
      nothing: the outcome of every longer prefix is the same. */
  lemma {:induction false} FailureIsFinal(ops: seq<Op>, world: World, log: seq<Call>, j: nat, n: nat)
    requires j <= n <= |ops|
    requires Exec(ops[..j], world, log).status.Err?
    ensures Exec(ops[..n], world, log) == Exec(ops[..j], world, log)
    decreases n
  {
    if n > j {
      FailureIsFinal(ops, world, log, j, n - 1);
      assert ops[..n][..n - 1] == ops[..n - 1];
    }
  }

  /** Operation `i` does the same in any longer plan it belongs to. */
  lemma StepAtPrefix(ops: seq<Op>, world: World, log: seq<Call>, n: nat, i: nat)
    requires i < n <= |ops|
    ensures StepAt(ops[..n], world, log, i) == StepAt(ops, world, log, i)
  {
    assert ops[..n][..i] == ops[..i];
  }

  /** The `/run` loop as the method it is in server.js: a `results` array
      built by appending inside a loop that an Error leaves early. */
  method Execute(ops: seq<Op>, world: World, log0: seq<Call>) returns (outcome: Outcome)
    ensures outcome == Exec(ops, world, log0)
  {
    var results: seq<Value> := [];
    var log := log0;
    var i := 0;
    while i < |ops|
      invariant i <= |ops|
      invariant Exec(ops[..i], world, log0) == Outcome(Ok(results), log, i)
    {
      var op := ops[i];
      assert ops[..i + 1][..i] == ops[..i];
      var tool := LookupTool(op.kind);
      if tool.None? {
        outcome := Outcome(Err(UnsupportedToolType + op.kind), log, i + 1);
        FailureIsFinal(ops, world, log0, i + 1, |ops|);
        assert ops[..|ops|] == ops;
        return;
      }
      var effect := Handler(tool.value, op.parameters, world, log);
      log := effect.log;
      match effect.reply {
        case Threw(m) =>
          outcome := Outcome(Err(m), log, i + 1);
          FailureIsFinal(ops, world, log0, i + 1, |ops|);
          assert ops[..|ops|] == ops;
          return;
        case Returned(v) =>
          results := results + [v];
      }
      i := i + 1;
    }
    assert ops[..i] == ops;
    outcome := Outcome(Ok(results), log, i);
  }

  /** The answer `/run` sends once the loop has ended. On an Error the
      results collected so far are dropped. */
  function RunAnswer(o: Outcome): (ex: Exchange)
    ensures ex.log == o.log
    ensures ex.response.Results? <==> o.status.Ok?
    ensures o.status.Ok? ==> ex.response.results == o.status.value && StatusCode(ex.response) == 200
    ensures o.status.Err? ==>
      ex.response == Failed(ProcessingFailed, o.status.message) && StatusCode(ex.response) == 500
  {
    match o.status
    case Ok(results) => Exchange(Results(results), o.log)
    case Err(m) => Exchange(Failed(ProcessingFailed, m), o.log)
  }

  /** `POST /run` behind `validateRequest`. `ask` stands for the chat
      completion for the prompt, with the reply already given to
      `JSON.parse`. */
  method PostRun(prompt: Value, ask: Value -> Completion, world: World, log0: seq<Call>)
    returns (ex: Exchange)
    ensures !Truthy(prompt) ==> ex == Exchange(Rejected(PromptRequired), log0)
    ensures Truthy(prompt) && ask(prompt).CallFailed? ==>
      ex == Exchange(Failed(ProcessingFailed, ask(prompt).message), log0)
    ensures Truthy(prompt) && ask(prompt).Unparseable? ==>
      ex == Exchange(Failed(ProcessingFailed, ParseFailure), log0)
    ensures Truthy(prompt) && ask(prompt).Plan? ==>
      ex == RunAnswer(Exec(ask(prompt).ops, world, log0))
    ensures Truthy(prompt) && ask(prompt) == Plan([]) ==> ex == Exchange(Results([]), log0)
    ensures ex.response.Results? ==>
      Truthy(prompt) && ask(prompt).Plan? && |ex.response.results| == |ask(prompt).ops|
  {
    var rejected := ValidateRequest(prompt);
    if rejected.Some? {
      return Exchange(rejected.value, log0);
    }
    var completion := ask(prompt);
    match completion {
      case CallFailed(m) =>
        ex := Exchange(Failed(ProcessingFailed, m), log0);
      case Unparseable =>
        ex := Exchange(Failed(ProcessingFailed, ParseFailure), log0);
      case Plan(ops) =>
        var outcome := Execute(ops, world, log0);
        ex := RunAnswer(outcome);
    }
  }

  // ---------------------------------------------------------------------
  // Properties of the /run loop

  /** When the loop succeeds, it holds one result per operation, in plan
      order, the i-th being what operation i's handler returned. */
  lemma {:induction false} SuccessResults(ops: seq<Op>, world: World, log: seq<Call>)
    requires Exec(ops, world, log).status.Ok?
    ensures |Exec(ops, world, log).status.value| == |ops|
    ensures forall i :: 0 <= i < |ops| ==>
      StepAt(ops, world, log, i).reply == Returned(Exec(ops, world, log).status.value[i])
    decreases |ops|
  {
    if ops != [] {
      var n := |ops|;
      var p := ops[..n - 1];
      SuccessResults(p, world, log);
      forall i | 0 <= i < n - 1
        ensures StepAt(ops, world, log, i).reply == Returned(Exec(ops, world, log).status.value[i])
      {
        StepAtPrefix(ops, world, log, n - 1, i);
      }
    }
  }

  /** On success every operation's calls stay in the log: the calls made by
      the first `i + 1` operations are those operation `i` leaves after
      running on the calls of the ones before it, and the run ends with the
      last operation's calls. */
  lemma SuccessLog(ops: seq<Op>, world: World, log: seq<Call>)
    requires Exec(ops, world, log).status.Ok?
    ensures forall i :: 0 <= i < |ops| ==> LogBefore(ops, world, log, i + 1) == StepAt(ops, world, log, i).log
    ensures Exec(ops, world, log).log == if ops == [] then log else StepAt(ops, world, log, |ops| - 1).log
  {
    forall i | 0 <= i < |ops|
      ensures LogBefore(ops, world, log, i + 1) == StepAt(ops, world, log, i).log
    {
      PrefixSucceeds(ops, world, log, i + 1);
      StepLog(ops, world, log, i);
    }
    assert ops[..|ops|] == ops;
  }

  /** Every prefix of a plan that runs to the end runs to the end. */
  lemma PrefixSucceeds(ops: seq<Op>, world: World, log: seq<Call>, j: nat)
    requires j <= |ops| && Exec(ops, world, log).status.Ok?
    ensures Exec(ops[..j], world, log).status.Ok?
  {
    assert ops[..|ops|] == ops;
    if Exec(ops[..j], world, log).status.Err? {
      FailureIsFinal(ops, world, log, j, |ops|);
      assert false;
    }
  }

  /** When the first `i + 1` operations run to the end, their calls are
      those operation `i` leaves. */
  lemma StepLog(ops: seq<Op>, world: World, log: seq<Call>, i: nat)
    requires i < |ops| && Exec(ops[..i + 1], world, log).status.Ok?
    ensures LogBefore(ops, world, log, i + 1) == StepAt(ops, world, log, i).log
  {
    assert ops[..i + 1][..i] == ops[..i];
  }

  /** Conversely, when every operation's handler returns, the loop succeeds. */
  lemma {:induction false} AllReturnedSucceeds(ops: seq<Op>, world: World, log: seq<Call>)
    requires forall i :: 0 <= i < |ops| ==> StepAt(ops, world, log, i).reply.Returned?
    ensures Exec(ops, world, log).status.Ok?
    decreases |ops|
  {
    if ops != [] {
      var n := |ops|;
      var p := ops[..n - 1];
      forall i | 0 <= i < n - 1
        ensures StepAt(p, world, log, i).reply.Returned?
      {
        StepAtPrefix(ops, world, log, n - 1, i);
      }
      AllReturnedSucceeds(p, world, log);
      assert StepAt(ops, world, log, n - 1).reply.Returned?;
    }
  }

  /** When operation k is the first to throw, the loop fails with its
      message, has made no call after operation k's, and took k + 1
      operations from the plan. */
  lemma FirstFailure(ops: seq<Op>, world: World, log: seq<Call>, k: nat)
    requires k < |ops|
    requires Exec(ops[..k], world, log).status.Ok?
    requires StepAt(ops, world, log, k).reply.Threw?
    ensures Exec(ops, world, log) ==
      Outcome(Err(StepAt(ops, world, log, k).reply.message), StepAt(ops, world, log, k).log, k + 1)
  {
    assert ops[..k + 1][..k] == ops[..k];
    FailureIsFinal(ops, world, log, k + 1, |ops|);
    assert ops[..|ops|] == ops;
  }

  /** Conversely, a failed loop names where it stopped: operation
      `reached - 1`, before which everything returned, threw the message,
      and the calls end with that operation's. */
  lemma {:induction false} FailureLocated(ops: seq<Op>, world: World, log: seq<Call>)
    requires Exec(ops, world, log).status.Err?
    ensures Exec(ops, world, log).reached - 1 < |ops|
    ensures Exec(ops[..Exec(ops, world, log).reached - 1], world, log).status.Ok?
    ensures StepAt(ops, world, log, Exec(ops, world, log).reached - 1) ==
      Effect(Threw(Exec(ops, world, log).status.message), Exec(ops, world, log).log)
    decreases |ops|
  {
    assert ops != [];
    var n := |ops|;
    var p := ops[..n - 1];
    var before := Exec(p, world, log);
    if before.status.Err? {
      assert Exec(ops, world, log) == before;
      FailureLocated(p, world, log);
      var k := before.reached - 1;
      StepAtPrefix(ops, world, log, n - 1, k);
      assert p[..k] == ops[..k];
    } else {
      LastStepThrew(ops, world, log);
    }
  }

  /** The case of `FailureLocated` where the last operation is the one
      that threw. */
  lemma LastStepThrew(ops: seq<Op>, world: World, log: seq<Call>)
    requires ops != []
    requires Exec(ops[..|ops| - 1], world, log).status.Ok?
    requires Exec(ops, world, log).status.Err?
    ensures Exec(ops, world, log).reached == |ops|
    ensures StepAt(ops, world, log, |ops| - 1) ==
      Effect(Threw(Exec(ops, world, log).status.message), Exec(ops, world, log).log)
  {
    var before := Exec(ops[..|ops| - 1], world, log);
    var e := Perform(ops[|ops| - 1], world, before.log);
    assert e.reply.Threw? && Exec(ops, world, log) == Outcome(Err(e.reply.message), e.log, |ops|);
  }

  /** An operation whose type is not in `toolMap` stops the loop with
      "Unsupported tool type: <type>" after the operations before it have
      made their calls, and before any later operation runs. */
  lemma UnsupportedToolStops(ops: seq<Op>, world: World, log: seq<Call>, k: nat)
    requires k < |ops| && ops[k].kind !in {"write_file", "git_push"}
    requires Exec(ops[..k], world, log).status.Ok?
    ensures Exec(ops, world, log) ==
      Outcome(Err(UnsupportedToolType + ops[k].kind), LogBefore(ops, world, log, k), k + 1)
  {
    FirstFailure(ops, world, log, k);
  }

  // ---------------------------------------------------------------------
  // The git_push entry and the /git-push endpoint

  /** The `git_push` entry of `toolMap`, given `{commitMessage: m}`, and
      the `/git-push` endpoint, given `m`, make the same call and see the
      same reply; both refuse a falsy message without calling gitPush. */
  lemma GitPushEntryMatchesEndpoint(m: Value, world: World, log: seq<Call>)
    ensures Handler(GitPushTool, Obj(map["commitMessage" := m]), world, log).log == PostGitPush(m, world, log).log
    ensures !Truthy(m) ==>
      Handler(GitPushTool, Obj(map["commitMessage" := m]), world, log).reply == Threw(CommitMessageRequiredForGit)
    ensures Truthy(m) ==>
      match Handler(GitPushTool, Obj(map["commitMessage" := m]), world, log).reply
      case Returned(v) => PostGitPush(m, world, log).response == Pushed(v)
      case Threw(e) => PostGitPush(m, world, log).response == Failed(GitOperationFailed, e)
  {
  }
}
