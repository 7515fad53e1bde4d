# A model of the up-project GitHub Action

This project models `src/main.ts` of the `action-up-project` GitHub Action.
The action does three things:

1. It locates the `up` command-line tool on the PATH.
2. Unless the `skip-login-check` input reads as true, it checks that the user
   is logged in to Upbound by running `up org list --format json`.
3. It runs `up project build` and, when the `push-project` input reads as
   true, `up project push`.

The build takes flags from the `project-file` and `repository` inputs; the
push also takes `tag` and `public`. Both run in the directory the `cwd` input
names when it is not empty, and in the process's own directory otherwise.

What the action cannot decide by itself is a parameter of the model (`Main.Env`):

- the result of the PATH lookup, as a string that is empty when nothing is found;
- the inputs, as strings; the two required inputs are outcomes that may throw;
- the process runner, as a function from an invocation to the chunks the
  process writes on standard output and to how the awaited `exec()` ends
  (an exit code, or a thrown value);
- `JSON.parse`, as a function from text to a parse outcome: an array of some
  length, another value, or a thrown value.

What the action does is a trace of events: subprocess invocations and calls to
`core.info`, `core.debug`, `core.warning` and `core.setFailed`.

The files:

- `js.dfy` (module `Js`): thrown values, awaited outcomes, `String.prototype.trim`
  over the ECMAScript whitespace and line-terminator set, and `toLowerCase`.
- `trace.dfy` (module `Trace`): invocations, events, and the projections of a
  trace onto its invocations, failures and warnings.
- `main.dfy` (module `Main`):
  - `getUpPath`;
  - the argument lists, as specification functions, and the methods that build
    them by successive pushes;
  - `verifyLogin`, as the function `LoginCheck` and the method `VerifyLogin`,
    which accumulates standard output chunk by chunk;
  - `run`, as the function `RunTrace` and the method `Run`, which has the
    source's early returns.
- `main_properties.dfy` (module `MainProperties`): what the argument lists,
  the login verdict and a whole run promise.

`JSON.parse` (src/main.ts:96) sits inside `verifyLogin`'s `try`, so a parse
failure gives a `false` verdict and a warning and never reaches `run`'s
handler (`MainProperties.LoginWarnings`).

## Model

| member | source | states |
|---|---|---|
| Main.GetUpPath | src/main.ts:115-121 | throws exactly when the lookup result is empty, with an Error whose message is the installation hint; otherwise returns the lookup result unchanged |
| Main.CwdOption | src/main.ts:37-39 | the working directory is set exactly when the `cwd` input is not the empty string, and then it is that input untrimmed |
| Main.BuildArgs | src/main.ts:29-35 | the list built by successive pushes equals the build command `BuildArgv` |
| Main.PushArgs | src/main.ts:48-60 | the list built by successive pushes equals the push command `PushArgv` |
| Main.VerifyLogin | src/main.ts:71-113 | the verdict and the events equal `LoginCheck`, which parses the concatenation of the stdout chunks (the loop invariant keeps the accumulated text equal to the chunks read so far) |
| Main.Run | src/main.ts:7-69 | the events of the run, with its early returns and its catch clause, equal `RunTrace` |
| Js.TrimStartStrips | src/main.ts:30 | `trim` removes a run of whitespace from the front and stops at a non-whitespace character |
| Js.TrimEndStrips | src/main.ts:30 | `trim` removes a run of whitespace from the back and stops at a non-whitespace character |
| Js.HasContentIff | src/main.ts:30 | a value has content after trimming exactly when one of its characters is not whitespace |
| Js.LowerChar | src/main.ts:13 | the model's fold of one character: an ASCII capital goes to its small letter, every other character is kept (ASCII only, see Left out) |
| Js.Lower | src/main.ts:13 | `toLowerCase` keeps the length and folds each character on its own |
| Js.IsTrueIff | src/main.ts:13 | a value reads as true exactly when it is one of the sixteen case spellings of "true" |
| MainProperties.BuildArgvShape | src/main.ts:29-35 | the build command is `project build`, then the project-file and repository pairs, each present exactly when its value has content, each with the untrimmed value; its length is 2, 4 or 6; every flag position holds one of those two names |
| MainProperties.BuildFlagNames | src/main.ts:29-35 | read flag by flag, the build command names the project file and then the repository, each exactly when its value has content, and nothing else |
| MainProperties.PushArgvShape | src/main.ts:48-60 | the push command starts with `project push` and has at most nine arguments; the tag pair comes after the shared flags exactly when the tag has content; `--public` is last exactly when `public` reads as true |
| MainProperties.PushFlagNames | src/main.ts:48-60 | read flag by flag, the push command names the project file, the repository and the tag in that order, each exactly when its value has content, then `--public` exactly when `public` reads as true |
| MainProperties.PushSharesBuildFlags | src/main.ts:29-54 | the push command after `push`, without its tag pair and `--public`, equals the build command after `build` |
| MainProperties.BuildArgvInjective | src/main.ts:29-35 | two input pairs give the same build command exactly when they agree on which values have content and on those values |
| MainProperties.PushWithAllFlags | src/main.ts:48-60 | with every optional input set and `public` true, the push command has all four flags in order |
| MainProperties.LoginVerdict | src/main.ts:93-104 | the verdict is true exactly when `exec()` completes and the collected output parses to a non-empty array |
| MainProperties.LoginEvents | src/main.ts:77-93 | the login check starts one subprocess, `org list --format json`, silently and in the default directory, and never calls `setFailed` |
| MainProperties.LoginWarnings | src/main.ts:96-112 | a true verdict logs a debug line and no warning; each false verdict logs exactly one warning, naming an Error thrown by `exec()` or the parser, any other thrown value, or output that is not a non-empty array |
| MainProperties.EmptyOutputRefused | src/main.ts:93-108 | a completed `org list` with empty output whose parse throws an Error gives a false verdict with the "Unauthorized error detected" warning |
| MainProperties.RunInvocations | src/main.ts:12-65 | the subprocesses of a run are `org list` if the login check runs, then the build if it is reached, then the push if the build completed and `push-project` reads as true |
| MainProperties.RunInvocationChoices | src/main.ts:12-65 | the subprocesses of a run are one of six sequences |
| MainProperties.RunInvocationOrder | src/main.ts:16-65 | at most three subprocesses start, always in the order org list, build, push |
| MainProperties.RunInvocationPlaces | src/main.ts:37-81 | every subprocess runs the located tool; build and push run where `cwd` says, not silently; the login check runs silently in the default directory |
| MainProperties.RunFailures | src/main.ts:7-69 | `setFailed` is called at most once and is the last event: with the not-logged-in message after a false verdict, with the message of the Error that escapes the body, and not at all for another thrown value |
| MainProperties.ToolNotFoundRun | src/main.ts:9 | without the tool, the run starts nothing and fails with the installation hint |
| MainProperties.NotLoggedInRun | src/main.ts:16-20 | a false verdict fails the run with "User is not logged in", and neither build nor push starts |
| MainProperties.SkipLoginLogged | src/main.ts:12-14 | "Skipping login check." is logged exactly when the tool is found and `skip-login-check` reads as true, and it is then the first event |
| MainProperties.SkipPushLogged | src/main.ts:42-46 | "Skipping up project push" is logged exactly when the build completed and `push-project` does not read as true, and it is then the last event |
| MainProperties.SkipLoginPushNoFlags | src/main.ts:12-65 | with the login check skipped, push enabled and no optional inputs, the run starts a flagless build and then a flagless push |
| MainProperties.UnauthorizedRun | src/main.ts:16-19 | when `org list` throws an Error, the run logs one warning, fails with "User is not logged in" and starts nothing else |

## Left out

- Process spawning and exit-code handling inside `ToolRunner.exec()` are not
  modelled. The runner is a parameter that says how each invocation ends. A
  non-zero exit code that the library reports without throwing is just a
  completed `exec()` to this code.
- The PATH search inside `io.which` is a parameter: the lookup result.
- `JSON.parse` is a parameter. The login check only looks at whether the result
  is an array and at its length, so a parsed document is reduced to that.
- Input reading through `@actions/core` is not modelled, including its own
  trimming of input values. Optional inputs are arbitrary strings. A missing
  required input is a value thrown by the reading call.
- `async`/`await` is not modelled. Each awaited call is a step in sequence.
- The `errorOutput` buffer that collects standard error is not modelled. Nothing
  ever reads it.
- Js.LowerChar: folds only `A` to `Z` and keeps every other character, where
  the full Unicode `toLowerCase` also lowers other capitals (`Ä` to `ä`).
- Js.Lower: is not the full Unicode `toLowerCase`, which also has non-ASCII
  and length-changing folds; it applies `Js.LowerChar` to each character.
  Both are exact for the one use the action makes of them, comparing with
  "true", because no other code point lowers to `t`, `r`, `u` or `e`.
- Strings are sequences of Unicode scalar values. UTF-16 lone surrogates are
  not represented.
- The bytes of each standard-output chunk are not modelled. A chunk is the
  string that `data.toString()` gives.
