/** Concrete runs of the `/run` loop on the two-operation plan the model
    is instructed to produce (write a file, then push it), against a world
    whose tools answer as tools/writefile.js and tools/gitpush.js do when
    nothing goes wrong, or whose push is rejected. */
module Scenarios {
  import opened JsValue
  import opened Server

  const ReadmeParams := Obj(map["filePath" := Str("README.md"), "content" := Str("# Project")])
  const WriteReadme := Op("write_file", ReadmeParams)
  const PushReadme := Op("git_push", Obj(map["commitMessage" := Str("add README")]))

  const Written := Obj(map["success" := Bool(true), "message" := Str("Written to README.md")])
  const PushedToGitHub := Obj(map["success" := Bool(true), "message" := Str("Code pushed to GitHub")])

  /** Every write succeeds; a push succeeds unless `pushError` is given. */
  function Stub(pushError: Option<string>): World {
    (before: seq<Call>, c: Call) =>
      match c
      case WriteFile(_) => Returned(Written)
      case GitPush(_) => if pushError.None? then Returned(PushedToGitHub) else Threw(pushError.value)
  }

  /** Write then push: two results, in plan order, after two calls. */
  lemma ReadmePublished()
    ensures Exec([WriteReadme, PushReadme], Stub(None), []) ==
      Outcome(Ok([Written, PushedToGitHub]), [WriteFile(ReadmeParams), GitPush("add README")], 2)
  {
    var ops := [WriteReadme, PushReadme];
    assert ops[..1] == [WriteReadme] && ops[..1][..0] == [];
    var first := Exec(ops[..1], Stub(None), []);
    assert [] + [Written] == [Written];
    assert first == Outcome(Ok([Written]), [WriteFile(ReadmeParams)], 1);
    assert GitPushGuard(PushReadme.parameters) == Ok("add README");
    assert [Written] + [PushedToGitHub] == [Written, PushedToGitHub];
  }

  /** The push is rejected: the message is the remote's, the write has
      already happened, and its result is not reported. */
  lemma ReadmePushRejected()
    ensures Exec([WriteReadme, PushReadme], Stub(Some("remote rejected")), []) ==
      Outcome(Err("remote rejected"), [WriteFile(ReadmeParams), GitPush("add README")], 2)
    ensures RunAnswer(Exec([WriteReadme, PushReadme], Stub(Some("remote rejected")), [])).response ==
      Failed("Failed to process request", "remote rejected")
  {
  }

  /** No validation pass precedes execution: the file is written before
      the unknown type is met, and the operation after it never runs. */
  lemma WriteHappensBeforeUnknownType()
    ensures Exec([WriteReadme, Op("deploy", Obj(map[])), PushReadme], Stub(None), []) ==
      Outcome(Err("Unsupported tool type: deploy"), [WriteFile(ReadmeParams)], 2)
  {
    var ops := [WriteReadme, Op("deploy", Obj(map[])), PushReadme];
    assert ops[..1] == [WriteReadme];
    assert ops[..2][..1] == [WriteReadme];
    UnsupportedToolStops(ops, Stub(None), [], 1);
  }

  /** A push without a commit message throws before gitPush is called;
      the write before it has happened. */
  lemma PushWithoutMessage()
    ensures Exec([WriteReadme, Op("git_push", Obj(map[]))], Stub(None), []) ==
      Outcome(Err("Commit message is required for git operations"), [WriteFile(ReadmeParams)], 2)
  {
    var ops := [WriteReadme, Op("git_push", Obj(map[]))];
    assert ops[..1] == [WriteReadme] && ops[..1][..0] == [];
    assert [] + [Written] == [Written];
    assert Exec(ops[..1], Stub(None), []) == Outcome(Ok([Written]), [WriteFile(ReadmeParams)], 1);
    assert GitPushGuard(Obj(map[])) == Err(CommitMessageRequiredForGit);
  }

  /** A push without parameters throws the TypeError of reading a property
      of `undefined`, and calls nothing. */
  lemma PushWithoutParameters()
    ensures Exec([Op("git_push", Undefined)], Stub(None), []) ==
      Outcome(Err("Cannot read properties of undefined (reading 'commitMessage')"), [], 1)
  {
    assert [Op("git_push", Undefined)][..0] == [];
  }

  /** A commit message that `String` cannot convert, an object with its own
      "toString" or an array holding one, makes both the `git_push` entry
      and the `/git-push` endpoint throw before gitPush is called. */
  lemma UnconvertibleCommitMessage()
    ensures Exec([Op("git_push", Obj(map["commitMessage" := Obj(map["toString" := Num(1)])]))], Stub(None), []) ==
      Outcome(Err("Cannot convert object to primitive value"), [], 1)
    ensures PostGitPush(Arr([Str("fix"), Obj(map["toString" := Num(1)])]), Stub(None), []) ==
      Exchange(Failed("Git operation failed", "Cannot convert object to primitive value"), [])
  {
    assert [Op("git_push", Obj(map["commitMessage" := Obj(map["toString" := Num(1)])]))][..0] == [];
    assert HasOwnToString(Arr([Str("fix"), Obj(map["toString" := Num(1)])])) by {
      assert HasOwnToString([Str("fix"), Obj(map["toString" := Num(1)])][1]);
    }
  }
}
