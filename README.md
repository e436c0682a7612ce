# Operation dispatcher of the MCP server, in Dafny

The server turns a free-text prompt into a plan of operations by asking a
language model. It then runs the plan against two registered tools. One tool
writes a file, the other commits and pushes the working tree. This project
models the part of `server.js` that makes decisions:

- the `validateRequest` middleware, which refuses a request without a prompt;
- the `/git-push` endpoint, which refuses a request without a commit message;
- the `toolMap` table with its two entries, `write_file` and `git_push`. The
  `git_push` entry throws on a missing commit message before it calls `gitPush`;
- the `/run` handler. It walks the plan in order, looks each operation's type
  up in `toolMap`, awaits the handler and appends the result. The first Error
  from an unknown type or a handler ends the loop. A failed model call or an
  unparseable reply ends the handler before the loop starts. Either way the
  Error becomes a 500 answer carrying only its message.

Modules:

- `JsValue` (`js_value.dfy`): the JavaScript values the server looks at, and
  three pieces of JavaScript meaning: truthiness (`!x`), property reads (`x.key`)
  and `String(x)`.
- `Server` (`server.dfy`): the handlers.
  - The `/run` loop is the method `Execute`. It builds a `results` sequence in
    a `while` loop that is left early on an Error. It is proved equal to the
    specification function `Exec`, and the properties of the loop are lemmas
    about `Exec`.
  - The guards (`ValidateRequest`, `GitPushGuard`, `PostGitPush`) are functions.
- `Scenarios` (`scenarios.dfy`): concrete runs of the write-then-push plan.

The outside world is a parameter of type `World`. That covers the file system
behind `tools/writefile.js` and the repository and remote behind
`tools/gitpush.js`. The world answers each call with a value or an Error, and
the answer may depend on every call made before it. The list of calls made so
far is threaded through the handlers. "Operation k ran" and "no operation
after k ran" are therefore statements about that list.

A more careful design would validate the whole plan before running any of it,
reject empty plans, and report where a failed run stopped. `server.js` does
none of that, and the model follows `server.js`:

- No validation pass runs before execution. An unknown type is found inside
  the loop, after the operations before it have made their calls
  (`UnsupportedToolStops`, `Scenarios.WriteHappensBeforeUnknownType`).
- An empty plan is not rejected. It answers 200 with no results (`PostRun`).
- A failed run answers with the message alone. It does not report the index,
  the type or the results already collected (`RunAnswer`, `FirstFailure`).
- No registry is built at run time, and no "internal invariant" error exists.
  `toolMap` is a constant with two entries (`LookupTool`).

A consequence of JavaScript semantics shows in `JsValue.ArrayTextEmpty`. A
`commitMessage` of `[]` or `[""]` is truthy, so it passes both guards. But
`String` turns it into the empty string, and that empty string is handed to
`gitPush`.

## Model

| member | source | states |
|---|---|---|
| `JsValue.Truthy` | server.js:23 | the values `!x` treats as missing are exactly undefined, null, false, 0 and ""; every array and object counts as present |
| `JsValue.ReadProperty` | server.js:55 | reading a property throws exactly on undefined and null, with the TypeError text `Cannot read properties of undefined (reading '<key>')` or its `null` form; on an object it gives the own property when the key is there; in every other case it gives undefined |
| `JsValue.ToStr` | server.js:58 | `String(x)` throws `Cannot convert object to primitive value` exactly when `x`, or an array inside it, holds an object with its own "toString"; a string converts to itself |
| `JsValue.DecimalRoundTrip` | server.js:58 | the digits written for a non-negative integer, without leading zeros, read back as that integer |
| `JsValue.ToStrNumRoundTrip` | server.js:58 | `String` never throws on an integer, and writes it, negative or not, as an optional "-" and digits that read back as that integer, with no leading zero and no "-0" |
| `JsValue.TruthyTextNonEmpty` | server.js:58 | a truthy commit message that is not an array either throws under `String`, exactly when it is an object with its own "toString", or becomes a non-empty string |
| `JsValue.ArrayTextEmpty` | server.js:55-58 | an array becomes "" under `String` exactly when it is empty or holds one element that becomes "", although every array passes the truthiness guard |
| `Server.ValidateRequest` | server.js:22-27 | hands the request on (calls `next` once) if and only if the prompt is truthy; otherwise answers 400 `Prompt is required` |
| `Server.PostGitPush` | server.js:34-50 | answers 400 `Commit message is required` with no call when the message is falsy; answers 500 `Git operation failed` with no call when `String(commitMessage)` throws; otherwise calls gitPush once with `String(commitMessage)` and answers `{success, result}` on a return, or 500 `Git operation failed` with the thrown message |
| `Server.LookupTool` | server.js:52-60 | finds an entry exactly for "write_file" and "git_push", each its own tool |
| `Server.GitPushGuard` | server.js:54-58 | lets the call through exactly when `params.commitMessage` can be read, is truthy and converts under `String`, handing on the converted text; it refuses with the TypeError of the read, with `Commit message is required for git operations` for a falsy message, or with the TypeError of `String` |
| `Server.Handler` | server.js:52-60 | an entry makes at most one call, appended to the calls so far, and returns the world's answer to it; `write_file` always calls writeFile with the parameters; `git_push` calls gitPush exactly when its guard passes, and otherwise throws the guard's message without a call |
| `Server.Perform` | server.js:119-127 | one loop step makes at most one call; an unknown type throws `Unsupported tool type: <type>` and makes none; a known type runs that `toolMap` entry on the operation's parameters |
| `Server.Exec` | server.js:116-128 | the loop only appends calls; it takes at most as many operations as the plan holds and makes at most one call per operation taken; on success it has one result per operation |
| `Server.Execute` | server.js:116-130 | the loop with its `results` array, left early on an Error, computes exactly `Exec` |
| `Server.RunAnswer` | server.js:130-137 | a finished loop answers 200 with exactly its results; a failed one answers 500 `Failed to process request` with the Error's message and drops the results collected; the calls made are kept either way |
| `Server.PostRun` | server.js:67-137 | without a prompt: 400 and no call; a failed model call or an unparseable reply: 500 with that message and no operation run; otherwise the answer of the loop over the plan, where an empty plan answers 200 with no results and a success holds one result per operation |
| `Server.FailureIsFinal` | server.js:119-128 | once an operation has thrown, longer prefixes of the plan yield the same outcome: nothing after it runs |
| `Server.SuccessResults` | server.js:116-130 | on success the results hold one entry per operation, in plan order, the i-th being what operation i's handler returned after the operations before it ran |
| `Server.SuccessLog` | server.js:116-128 | on success the calls of every operation stay in the log: after operation i the calls are exactly those operation i leaves when run on the calls of the operations before it, so each operation sees the effects of the earlier ones, and the run ends with the last operation's calls |
| `Server.PrefixSucceeds` | server.js:119-128 | when the whole plan runs to the end, so does every prefix of it |
| `Server.AllReturnedSucceeds` | server.js:116-130 | if every operation's handler returns, the loop succeeds |
| `Server.FirstFailure` | server.js:119-137 | if operation k is the first to throw, the run fails with its message, its calls end with operation k's, and k + 1 operations were taken |
| `Server.FailureLocated` | server.js:119-137 | a failed run names where it stopped: every operation before that index returned, the operation there threw the reported message, and the calls end with that operation's |
| `Server.LastStepThrew` | server.js:119-128 | when every operation but the last returned and the loop failed, the last operation is the one that threw, with the reported message and the final calls |
| `Server.UnsupportedToolStops` | server.js:119-124 | an operation whose type is not in `toolMap` ends the run with `Unsupported tool type: <type>` after the calls of the operations before it, and before any later one |
| `Server.GitPushEntryMatchesEndpoint` | server.js:36-41 | the `git_push` entry given `{commitMessage: m}` and the `/git-push` endpoint given `m` make the same call and see the same reply; both refuse a falsy `m` without calling gitPush |
| `Scenarios.ReadmePublished` | server.js:70-91 | the write-then-push plan that the prompt asks for, against working tools, yields both results in order after a write and then a push |
| `Scenarios.ReadmePushRejected` | server.js:126-137 | the same plan with the push rejected answers 500 with the remote's message; the write has already happened and its result is not reported |
| `Scenarios.WriteHappensBeforeUnknownType` | server.js:119-124 | a plan with an unknown type between a write and a push writes the file, fails on the unknown type, and never pushes |
| `Scenarios.PushWithoutMessage` | server.js:54-57 | a `git_push` without a commit message throws `Commit message is required for git operations` before gitPush is called, after the write before it has happened |
| `Scenarios.PushWithoutParameters` | server.js:54-56 | a `git_push` without parameters throws the TypeError of reading `commitMessage` of undefined and calls nothing |
| `Scenarios.UnconvertibleCommitMessage` | server.js:37-58 | a commit message with its own "toString", alone or inside an array, makes the `git_push` entry and the `/git-push` endpoint throw before gitPush is called |

## Left out

- The chat-completion call, its prompt text and `JSON.parse` (server.js:70-114) are the parameter `ask`. For a prompt, `ask` gives either the model call's Error, an unparseable reply, or a decoded plan. The prompt's instruction to "always include both write_file and git_push operations in that order" is not enforced by the code, and the model does not enforce it either.
- The shape of `modelOutput.operations` is not modelled: a missing or non-array `operations`, a `null` element, or a `type` that is not a string. Plans are sequences of `{type, parameters}` with string types.
- `toolMap[type]` is taken as exact membership in {"write_file", "git_push"}. A prototype key such as "constructor" would also pass the check at server.js:122, and the model does not reproduce that.
- `async`/`await`: every handler call is a synchronous call that returns or throws. Concurrent requests that share the working tree are not modelled.
- tools/writefile.js and tools/gitpush.js are not part of this model. Their effects and answers are the `World` parameter.
- Express routing, body parsing, rate limiting, the `/health` endpoint, the global error handler and `listen` are framework plumbing (server.js:1-19, 62-65, 141-153). So are the timestamps and `console.error` logging of the 500 answers.
- `JsValue.ToStr` models `String` for integers written in decimal only. JavaScript writes integers of magnitude 10^21 or more in exponent form ("1e+21"), so `JsValue.ToStrNumRoundTrip` matches JavaScript only below that bound. Fractions and `-0` are not modelled, and numbers are integers throughout.
- `JsValue.ReadProperty` uses V8's TypeError message for reads on undefined and null. It gives `undefined` for every property of a string, number, boolean or array, and for every key an object does not hold itself, so inherited properties such as `({}).toString` are not modelled. This holds for `commitMessage`, the only key the server reads, which no prototype defines.
