/** The action's entry point (src/main.ts): locate the `up` tool, optionally
    check that the user is logged in to Upbound, run `up project build` and,
    when asked to, `up project push`.

    What the action cannot decide by itself is taken from an environment: the
    result of the PATH lookup, the inputs the workflow supplies, the process
    runner and the JSON parser. What it does is a trace of subprocess
    invocations and log calls. */
module Main {
  import opened Js
  import opened Trace

  const ToolNotFoundMessage: string := "up not found, you can install it using upbound/action-up"
  const SkipLoginMessage: string := "Skipping login check."
  const NotLoggedInMessage: string := "User is not logged in. Please log in to Upbound."
  const SkipPushMessage: string := "Skipping up project push"
  const LoggedInMessage: string := "User is logged in."
  const NoOrganizationsMessage: string := "User is not logged in. No organizations found."
  const UnauthorizedMessage: string := "User is not logged in. Unauthorized error detected."
  const SomethingWrongMessage: string := "Something went wrong."

  const OrgListArgs: seq<string> := ["org", "list", "--format", "json"]

  /** A parsed JSON document, as far as the login check looks at it. */
  datatype Json = JsonArray(length: nat) | JsonOther

  /** What the process runner does with one invocation: the chunks the process
      writes to standard output, and how the awaited `exec()` ends (with the
      exit code, or by throwing). */
  datatype Execution = Execution(stdout: seq<string>, exit: Outcome<int>)

  /** Everything a run obtains from outside:
      - `which`: what `io.which('up', false)` resolves to ("" when not found);
      - the inputs; the two required ones are read with `{ required: true }`,
        which throws when the workflow does not supply them;
      - `runner`: the process runner behind `ToolRunner.exec()`;
      - `parse`: `JSON.parse`. */
  datatype Env = Env(
    which: string,
    skipLoginCheck: Outcome<string>,
    projectFile: string,
    repository: string,
    tag: string,
    publicVisibility: string,
    cwd: string,
    pushProject: Outcome<string>,
    runner: Invocation -> Execution,
    parse: string -> Outcome<Json>)

  // ---------------------------------------------------------------------------
  // Locating the tool

  /** `getUpPath`: the path of the `up` executable, or the Error it throws. */
  function GetUpPath(which: string): (r: Outcome<string>)
    ensures r.Threw? <==> which == ""
    ensures r.Threw? ==> r.thrown == ErrorThrown(ToolNotFoundMessage)
    ensures r.Returned? ==> r.value == which
  {
    if which == "" then Threw(ErrorThrown(ToolNotFoundMessage)) else Returned(which)
  }

  // ---------------------------------------------------------------------------
  // Argument lists

  /** A flag and its value, when the value has content after trimming; the
      value itself is passed untrimmed. */
  function OptionalFlag(name: string, value: string): seq<string> {
    if HasContent(value) then [name, value] else []
  }

  /** The flags `up project build` and `up project push` share. */
  function SharedFlags(projectFile: string, repository: string): seq<string> {
    OptionalFlag("--project-file", projectFile) + OptionalFlag("--repository", repository)
  }

  function BuildArgv(projectFile: string, repository: string): seq<string> {
    ["project", "build"] + SharedFlags(projectFile, repository)
  }

  function PushArgv(projectFile: string, repository: string, tag: string, publicVisibility: string): seq<string> {
    ["project", "push"] + SharedFlags(projectFile, repository) + OptionalFlag("--tag", tag)
    + (if IsTrue(publicVisibility) then ["--public"] else [])
  }

  /** The working-directory option of build and push: the `cwd` input
      unchanged when it is not the empty string, `undefined` otherwise. */
  function CwdOption(cwd: string): (r: Option<string>)
    ensures r.Some? <==> cwd != ""
    ensures r.Some? ==> r.value == cwd
  {
    if cwd != "" then Some(cwd) else None
  }

  /** Assembles `upProjectBuildArgs` by successive pushes. */
  method BuildArgs(projectFile: string, repository: string) returns (args: seq<string>)
    ensures args == BuildArgv(projectFile, repository)
  {
    args := ["project", "build"];
    if HasContent(projectFile) {
      args := args + ["--project-file", projectFile];
    }
    assert args == ["project", "build"] + OptionalFlag("--project-file", projectFile);
    if HasContent(repository) {
      args := args + ["--repository", repository];
    }
  }

  /** Assembles `upProjectPushArgs` by successive pushes. */
  method PushArgs(projectFile: string, repository: string, tag: string, publicVisibility: string)
    returns (args: seq<string>)
    ensures args == PushArgv(projectFile, repository, tag, publicVisibility)
  {
    args := ["project", "push"];
    if HasContent(projectFile) {
      args := args + ["--project-file", projectFile];
    }
    assert args == ["project", "push"] + OptionalFlag("--project-file", projectFile);
    if HasContent(repository) {
      args := args + ["--repository", repository];
    }
    assert args == ["project", "push"] + SharedFlags(projectFile, repository);
    if HasContent(tag) {
      args := args + ["--tag", tag];
    }
    assert args == ["project", "push"] + SharedFlags(projectFile, repository) + OptionalFlag("--tag", tag);
    if IsTrue(publicVisibility) {
      args := args + ["--public"];
    }
  }

  function OrgListInvocation(upPath: string): Invocation {
    Invocation(upPath, OrgListArgs, None, true)
  }

  function BuildInvocation(env: Env, upPath: string): Invocation {
    Invocation(upPath, BuildArgv(env.projectFile, env.repository), CwdOption(env.cwd), false)
  }

  function PushInvocation(env: Env, upPath: string): Invocation {
    Invocation(upPath, PushArgv(env.projectFile, env.repository, env.tag, env.publicVisibility),
      CwdOption(env.cwd), false)
  }

  // ---------------------------------------------------------------------------
  // The login check

  /** The text the stdout listener has collected after the given chunks. */
  function Concat(chunks: seq<string>): string {
    if chunks == [] then "" else Concat(chunks[..|chunks| - 1]) + chunks[|chunks| - 1]
  }

  /** What `verifyLogin` returns, with what it logs on the way. */
  datatype Verdict = Verdict(loggedIn: bool, events: seq<Event>)

  /** The warning `verifyLogin`'s catch clause logs for a thrown value. */
  function CatchWarning(t: Thrown): string {
    if t.ErrorThrown? then UnauthorizedMessage else SomethingWrongMessage
  }

  /** `verifyLogin` as a function of the tool's path, the runner and the parser. */
  function LoginCheck(upPath: string, runner: Invocation -> Execution, parse: string -> Outcome<Json>): Verdict {
    var inv := OrgListInvocation(upPath);
    var ex := runner(inv);
    match ex.exit
    case Threw(t) => Verdict(false, [Invoke(inv), Warning(CatchWarning(t))])
    case Returned(_) =>
      match parse(Concat(ex.stdout))
      case Threw(t) => Verdict(false, [Invoke(inv), Warning(CatchWarning(t))])
      case Returned(json) =>
        if json.JsonArray? && json.length > 0 then Verdict(true, [Invoke(inv), Debug(LoggedInMessage)])
        else Verdict(false, [Invoke(inv), Warning(NoOrganizationsMessage)])
  }

  /** `verifyLogin`: runs `up org list --format json` silently, collecting its
      standard output chunk by chunk, and decides from the parsed output. */
  method VerifyLogin(upPath: string, runner: Invocation -> Execution, parse: string -> Outcome<Json>)
    returns (loggedIn: bool, events: seq<Event>)
    ensures Verdict(loggedIn, events) == LoginCheck(upPath, runner, parse)
  {
    var inv := OrgListInvocation(upPath);
    events := [Invoke(inv)];
    var ex := runner(inv);
    // the stdout listener appends every chunk the process writes
    var output := "";
    var i := 0;
    while i < |ex.stdout|
      invariant 0 <= i <= |ex.stdout|
      invariant output == Concat(ex.stdout[..i])
    {
      assert ex.stdout[..i + 1][..i] == ex.stdout[..i];
      output := output + ex.stdout[i];
      i := i + 1;
    }
    assert ex.stdout[..i] == ex.stdout;
    if ex.exit.Threw? {
      loggedIn := false;
      events := events + [Warning(CatchWarning(ex.exit.thrown))];
      return;
    }
    var orgList := parse(output);
    if orgList.Threw? {
      loggedIn := false;
      events := events + [Warning(CatchWarning(orgList.thrown))];
    } else if orgList.value.JsonArray? && orgList.value.length > 0 {
      loggedIn := true;
      events := events + [Debug(LoggedInMessage)];
    } else {
      loggedIn := false;
      events := events + [Warning(NoOrganizationsMessage)];
    }
  }

  // ---------------------------------------------------------------------------
  // The run

  /** What `run`'s catch clause does with a thrown value: an Error's message
      becomes the failure; anything else is dropped. */
  function Caught(t: Thrown): seq<Event> {
    if t.ErrorThrown? then [Failed(t.message)] else []
  }

  /** The part of `run` after the login check: build, then push if asked to. */
  function BuildAndPush(env: Env, upPath: string): seq<Event> {
    var build := BuildInvocation(env, upPath);
    [Invoke(build)] +
    match env.runner(build).exit
    case Threw(t) => Caught(t)
    case Returned(_) =>
      match env.pushProject
      case Threw(t) => Caught(t)
      case Returned(push) =>
        if !IsTrue(push) then [Info(SkipPushMessage)]
        else
          var pushInv := PushInvocation(env, upPath);
          [Invoke(pushInv)] +
          match env.runner(pushInv).exit
          case Threw(t) => Caught(t)
          case Returned(_) => []
  }

  /** Everything `run` does, in order. */
  function RunTrace(env: Env): seq<Event> {
    match GetUpPath(env.which)
    case Threw(t) => Caught(t)
    case Returned(upPath) =>
      match env.skipLoginCheck
      case Threw(t) => Caught(t)
      case Returned(skip) =>
        if IsTrue(skip) then [Info(SkipLoginMessage)] + BuildAndPush(env, upPath)
        else
          var login := LoginCheck(upPath, env.runner, env.parse);
          if login.loggedIn then login.events + BuildAndPush(env, upPath)
          else login.events + [Failed(NotLoggedInMessage)]
  }

  /** `run`: the steps in order, each early `return` and each exception
      ending the run where it happens. */
  method Run(env: Env) returns (trace: seq<Event>)
    ensures trace == RunTrace(env)
  {
    var found := GetUpPath(env.which);
    if found.Threw? {
      trace := Caught(found.thrown);
      return;
    }
    var upPath := found.value;

    if env.skipLoginCheck.Threw? {
      trace := Caught(env.skipLoginCheck.thrown);
      return;
    }
    if IsTrue(env.skipLoginCheck.value) {
      trace := [Info(SkipLoginMessage)];
    } else {
      var isLoggedIn, events := VerifyLogin(upPath, env.runner, env.parse);
      trace := events;
      if !isLoggedIn {
        trace := trace + [Failed(NotLoggedInMessage)];
        return;
      }
    }

    var buildArgs := BuildArgs(env.projectFile, env.repository);
    var build := Invocation(upPath, buildArgs, CwdOption(env.cwd), false);
    trace := trace + [Invoke(build)];
    var built := env.runner(build).exit;
    if built.Threw? {
      trace := trace + Caught(built.thrown);
      return;
    }

    if env.pushProject.Threw? {
      trace := trace + Caught(env.pushProject.thrown);
      return;
    }
    if !IsTrue(env.pushProject.value) {
      trace := trace + [Info(SkipPushMessage)];
      return;
    }

    var pushArgs := PushArgs(env.projectFile, env.repository, env.tag, env.publicVisibility);
    var push := Invocation(upPath, pushArgs, CwdOption(env.cwd), false);
    trace := trace + [Invoke(push)];
    var pushed := env.runner(push).exit;
    if pushed.Threw? {
      trace := trace + Caught(pushed.thrown);
    }
  }
}
