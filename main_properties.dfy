/** What a run of the action promises: the argument lists it hands to `up`,
    the verdict of the login check, which subprocesses start and in what
    order, and how failures are reported. */
module MainProperties {
  import opened Js
  import opened Trace
  import opened Main

  // ---------------------------------------------------------------------------
  // Argument lists

  /** The shared flags come in pairs: their length counts the values with
      content, and every even position holds a flag name. */
  lemma SharedFlagsShape(projectFile: string, repository: string)
    ensures var f := SharedFlags(projectFile, repository);
      |f| == (if HasContent(projectFile) then 2 else 0) + (if HasContent(repository) then 2 else 0) &&
      forall k :: 0 <= k < |f| && k % 2 == 0 ==> f[k] == "--project-file" || f[k] == "--repository"
  {
  }

  /** The build command is `project build` followed by the project-file and
      repository flags, each present exactly when its value has content after
      trimming, each with the untrimmed value; every flag position holds one
      of those two names, so `--tag` and `--public` never appear as flags. */
  lemma BuildArgvShape(projectFile: string, repository: string)
    ensures var b := BuildArgv(projectFile, repository);
      b[..2] == ["project", "build"] &&
      |b| == 2 + (if HasContent(projectFile) then 2 else 0) + (if HasContent(repository) then 2 else 0) &&
      (HasContent(projectFile) <==> |b| >= 4 && b[2] == "--project-file") &&
      (HasContent(projectFile) ==> b[3] == projectFile) &&
      (HasContent(repository) <==> |b| >= 4 && b[|b| - 2] == "--repository") &&
      (HasContent(repository) ==> b[|b| - 1] == repository) &&
      forall k :: 2 <= k < |b| && k % 2 == 0 ==> b[k] == "--project-file" || b[k] == "--repository"
  {
    var f := SharedFlags(projectFile, repository);
    SharedFlagsShape(projectFile, repository);
    var b := BuildArgv(projectFile, repository);
    forall k | 2 <= k < |b| && k % 2 == 0
      ensures b[k] == "--project-file" || b[k] == "--repository"
    {
      assert b[k] == f[k - 2];
    }
  }

  /** Where each part of the push command sits. */
  lemma PushArgvLayout(projectFile: string, repository: string, tag: string, publicVisibility: string)
    ensures var p := PushArgv(projectFile, repository, tag, publicVisibility);
      var f := SharedFlags(projectFile, repository);
      var t := OptionalFlag("--tag", tag);
      var flags := 2 + |f| + |t|;
      |p| == flags + (if IsTrue(publicVisibility) then 1 else 0) &&
      p[..2] == ["project", "push"] &&
      (forall k :: 2 <= k < 2 + |f| ==> p[k] == f[k - 2]) &&
      (forall k :: 2 + |f| <= k < flags ==> p[k] == t[k - 2 - |f|]) &&
      (IsTrue(publicVisibility) ==> p[|p| - 1] == "--public")
  {
    var f := SharedFlags(projectFile, repository);
    var t := OptionalFlag("--tag", tag);
    var u: seq<string> := if IsTrue(publicVisibility) then ["--public"] else [];
    assert PushArgv(projectFile, repository, tag, publicVisibility) == ["project", "push"] + f + t + u;
  }

  /** The push command is `project push`, then the optional project-file,
      repository and tag flags in that order, then `--public` last exactly
      when the `public` input reads as true: an odd length means `--public`
      was added, and there are at most nine arguments. */
  lemma PushArgvShape(projectFile: string, repository: string, tag: string, publicVisibility: string)
    ensures var p := PushArgv(projectFile, repository, tag, publicVisibility);
      var flags := |p| - (if IsTrue(publicVisibility) then 1 else 0);
      p[..2] == ["project", "push"] && |p| <= 9 &&
      flags == 2 + (if HasContent(projectFile) then 2 else 0) + (if HasContent(repository) then 2 else 0)
        + (if HasContent(tag) then 2 else 0) &&
      (|p| % 2 == 1 <==> IsTrue(publicVisibility)) &&
      (IsTrue(publicVisibility) ==> p[|p| - 1] == "--public") &&
      (HasContent(tag) <==> flags >= 4 && p[flags - 2] == "--tag") &&
      (HasContent(tag) ==> p[flags - 1] == tag)
  {
    var f := SharedFlags(projectFile, repository);
    var t := OptionalFlag("--tag", tag);
    SharedFlagsShape(projectFile, repository);
    PushArgvLayout(projectFile, repository, tag, publicVisibility);
    var p := PushArgv(projectFile, repository, tag, publicVisibility);
    var flags := 2 + |f| + |t|;
    if !HasContent(tag) && flags >= 4 {
      assert p[flags - 2] == f[|f| - 2];
    }
  }

  /** The push command after `project push`, one part after another. */
  lemma PushArgvTail(projectFile: string, repository: string, tag: string, publicVisibility: string)
    ensures PushArgv(projectFile, repository, tag, publicVisibility)[2..] ==
      OptionalFlag("--project-file", projectFile) + (OptionalFlag("--repository", repository) +
      (OptionalFlag("--tag", tag) + (if IsTrue(publicVisibility) then ["--public"] else [])))
  {
    var pf, repo, t := OptionalFlag("--project-file", projectFile), OptionalFlag("--repository", repository),
      OptionalFlag("--tag", tag);
    var u: seq<string> := if IsTrue(publicVisibility) then ["--public"] else [];
    assert PushArgv(projectFile, repository, tag, publicVisibility) == ["project", "push"] + (pf + (repo + (t + u)));
  }

  /** The names of the flags in an argument list after the subcommand,
      walking it flag by flag: `--public` stands alone, every other flag
      is followed by its value. */
  function FlagNames(args: seq<string>): seq<string>
    decreases |args|
  {
    if args == [] then []
    else if args[0] == "--public" || |args| < 2 then [args[0]] + FlagNames(args[1..])
    else [args[0]] + FlagNames(args[2..])
  }

  /** The flag name, when its value has content. */
  function Named(name: string, value: string): seq<string> {
    if HasContent(value) then [name] else []
  }

  lemma FlagNamesOptional(name: string, value: string, rest: seq<string>)
    requires name != "--public"
    ensures FlagNames(OptionalFlag(name, value) + rest) == Named(name, value) + FlagNames(rest)
  {
    if HasContent(value) {
      assert ([name, value] + rest)[2..] == rest;
    } else {
      assert OptionalFlag(name, value) + rest == rest;
    }
  }

  /** The flags of the push command are, in this order, the project file,
      the repository and the tag, each exactly when its value has content,
      then `--public` exactly when the `public` input reads as true. */
  lemma PushFlagNames(projectFile: string, repository: string, tag: string, publicVisibility: string)
    ensures FlagNames(PushArgv(projectFile, repository, tag, publicVisibility)[2..]) ==
      Named("--project-file", projectFile) + (Named("--repository", repository) + (Named("--tag", tag) +
      (if IsTrue(publicVisibility) then ["--public"] else [])))
  {
    var u: seq<string> := if IsTrue(publicVisibility) then ["--public"] else [];
    var t := OptionalFlag("--tag", tag) + u;
    var rt := OptionalFlag("--repository", repository) + t;
    PushArgvTail(projectFile, repository, tag, publicVisibility);
    assert FlagNames(u) == u by {
      if u != [] {
        assert u[1..] == [];
      }
    }
    FlagNamesOptional("--tag", tag, u);
    FlagNamesOptional("--repository", repository, t);
    FlagNamesOptional("--project-file", projectFile, rt);
  }

  /** The flags of the build command are the project file and then the
      repository, each exactly when its value has content. */
  lemma BuildFlagNames(projectFile: string, repository: string)
    ensures FlagNames(BuildArgv(projectFile, repository)[2..]) ==
      Named("--project-file", projectFile) + Named("--repository", repository)
  {
    var pf, repo := OptionalFlag("--project-file", projectFile), OptionalFlag("--repository", repository);
    assert BuildArgv(projectFile, repository)[2..] == pf + repo;
    assert FlagNames([]) == [];
    assert repo + [] == repo;
    FlagNamesOptional("--repository", repository, []);
    FlagNamesOptional("--project-file", projectFile, repo);
    assert Named("--repository", repository) + [] == Named("--repository", repository);
  }

  /** The flags after the subcommand with the push-only ones taken out: the
      `--tag` pair and `--public`. It walks flag by flag, so a value that
      happens to spell a flag name is never mistaken for one. */
  function WithoutPushOnly(flags: seq<string>): seq<string>
    decreases |flags|
  {
    if flags == [] then []
    else if flags[0] == "--public" then WithoutPushOnly(flags[1..])
    else if |flags| < 2 then flags
    else if flags[0] == "--tag" then WithoutPushOnly(flags[2..])
    else flags[..2] + WithoutPushOnly(flags[2..])
  }

  lemma WithoutPushOnlyKeeps(name: string, value: string, rest: seq<string>)
    requires name != "--public" && name != "--tag"
    ensures WithoutPushOnly([name, value] + rest) == [name, value] + WithoutPushOnly(rest)
  {
    assert ([name, value] + rest)[2..] == rest;
  }

  /** What push adds after the shared flags is dropped entirely. */
  lemma WithoutPushOnlyDropsTail(tag: string, publicVisibility: string)
    ensures WithoutPushOnly(OptionalFlag("--tag", tag) + (if IsTrue(publicVisibility) then ["--public"] else [])) == []
  {
    var u: seq<string> := if IsTrue(publicVisibility) then ["--public"] else [];
    assert WithoutPushOnly(u) == [] by {
      if u != [] {
        assert u[1..] == [];
      }
    }
    if HasContent(tag) {
      assert (["--tag", tag] + u)[2..] == u;
    }
  }

  lemma ArgvAfterSubcommand(projectFile: string, repository: string, tag: string, publicVisibility: string)
    ensures var pf := OptionalFlag("--project-file", projectFile);
      var repo := OptionalFlag("--repository", repository);
      var tail := OptionalFlag("--tag", tag) + (if IsTrue(publicVisibility) then ["--public"] else []);
      PushArgv(projectFile, repository, tag, publicVisibility)[2..] == pf + (repo + tail) &&
      BuildArgv(projectFile, repository)[2..] == pf + repo
  {
    PushArgvTail(projectFile, repository, tag, publicVisibility);
  }

  /** Build and push pass identical project-file and repository flags: what
      push has beyond build is only its tag pair and `--public`. */
  lemma PushSharesBuildFlags(projectFile: string, repository: string, tag: string, publicVisibility: string)
    ensures WithoutPushOnly(PushArgv(projectFile, repository, tag, publicVisibility)[2..])
      == BuildArgv(projectFile, repository)[2..]
  {
    var pf := OptionalFlag("--project-file", projectFile);
    var repo := OptionalFlag("--repository", repository);
    var tail := OptionalFlag("--tag", tag) + (if IsTrue(publicVisibility) then ["--public"] else []);
    ArgvAfterSubcommand(projectFile, repository, tag, publicVisibility);
    WithoutPushOnlyDropsTail(tag, publicVisibility);
    if HasContent(repository) {
      WithoutPushOnlyKeeps("--repository", repository, tail);
    } else {
      assert repo + tail == tail;
    }
    if HasContent(projectFile) {
      WithoutPushOnlyKeeps("--project-file", projectFile, repo + tail);
    } else {
      assert pf + (repo + tail) == repo + tail;
    }
  }

  /** Two pairs of inputs give the same build command exactly when they agree
      on which values have content and agree on those values: distinct
      values with content give distinct commands, and blank values add
      nothing. */
  lemma BuildArgvInjective(projectFile: string, repository: string, projectFile': string, repository': string)
    ensures BuildArgv(projectFile, repository) == BuildArgv(projectFile', repository') <==>
      HasContent(projectFile) == HasContent(projectFile') &&
      (HasContent(projectFile) ==> projectFile == projectFile') &&
      HasContent(repository) == HasContent(repository') &&
      (HasContent(repository) ==> repository == repository')
  {
    var b, b' := BuildArgv(projectFile, repository), BuildArgv(projectFile', repository');
    if b == b' {
      BuildArgvShape(projectFile, repository);
      BuildArgvShape(projectFile', repository');
    }
  }

  /** The push command when every optional input is set and push is public. */
  lemma PushWithAllFlags()
    ensures PushArgv("test/upbound.yaml", "test-repo", "test-tag", "true") ==
      ["project", "push", "--project-file", "test/upbound.yaml", "--repository", "test-repo",
       "--tag", "test-tag", "--public"]
  {
    HasContentIff("test/upbound.yaml");
    assert !IsWhitespace("test/upbound.yaml"[0]);
    HasContentIff("test-repo");
    assert !IsWhitespace("test-repo"[0]);
    HasContentIff("test-tag");
    assert !IsWhitespace("test-tag"[0]);
    IsTrueIff("true");
  }

  // ---------------------------------------------------------------------------
  // The login check

  /** `verifyLogin` returns true exactly when `up org list` completes and its
      collected output parses to a non-empty JSON array. */
  lemma LoginVerdict(upPath: string, runner: Invocation -> Execution, parse: string -> Outcome<Json>)
    ensures var ex := runner(OrgListInvocation(upPath));
      LoginCheck(upPath, runner, parse).loggedIn <==>
        ex.exit.Returned? && parse(Concat(ex.stdout)).Returned? &&
        parse(Concat(ex.stdout)).value.JsonArray? && parse(Concat(ex.stdout)).value.length > 0
  {
  }

  /** `verifyLogin` starts exactly one subprocess, `up org list --format
      json`, silently and in the default directory, and never fails the run
      or logs at info level itself. */
  lemma LoginEvents(upPath: string, runner: Invocation -> Execution, parse: string -> Outcome<Json>)
    ensures var v := LoginCheck(upPath, runner, parse);
      Invocations(v.events) == [Invocation(upPath, ["org", "list", "--format", "json"], None, true)] &&
      FailureMessages(v.events) == [] &&
      Info(SkipLoginMessage) !in v.events && Info(SkipPushMessage) !in v.events
  {
    var v := LoginCheck(upPath, runner, parse);
    assert v.events == [v.events[0]] + [v.events[1]];
    InvocationsAppend([v.events[0]], [v.events[1]]);
    FailureMessagesAppend([v.events[0]], [v.events[1]]);
  }

  /** A true verdict logs a debug line and no warning; every false verdict
      logs exactly one warning, which names its cause: "Unauthorized error
      detected" for an Error thrown by `exec()` or by the parser, "Something
      went wrong." for any other thrown value, "No organizations found" for
      output that parses to an empty array or to something else. */
  lemma LoginWarnings(upPath: string, runner: Invocation -> Execution, parse: string -> Outcome<Json>)
    ensures var v := LoginCheck(upPath, runner, parse);
      var ex := runner(OrgListInvocation(upPath));
      var parsed := parse(Concat(ex.stdout));
      (v.loggedIn ==> Warnings(v.events) == [] && v.events[1] == Debug("User is logged in.")) &&
      (!v.loggedIn ==> |Warnings(v.events)| == 1) &&
      (ex.exit.Threw? && ex.exit.thrown.ErrorThrown? ==>
        Warnings(v.events) == ["User is not logged in. Unauthorized error detected."]) &&
      (ex.exit.Threw? && ex.exit.thrown.NonErrorThrown? ==> Warnings(v.events) == ["Something went wrong."]) &&
      (ex.exit.Returned? && parsed.Threw? && parsed.thrown.ErrorThrown? ==>
        Warnings(v.events) == ["User is not logged in. Unauthorized error detected."]) &&
      (ex.exit.Returned? && parsed.Threw? && parsed.thrown.NonErrorThrown? ==>
        Warnings(v.events) == ["Something went wrong."]) &&
      (ex.exit.Returned? && parsed.Returned? && !(parsed.value.JsonArray? && parsed.value.length > 0) ==>
        Warnings(v.events) == ["User is not logged in. No organizations found."])
  {
    var v := LoginCheck(upPath, runner, parse);
    assert v.events == [v.events[0]] + [v.events[1]];
    WarningsAppend([v.events[0]], [v.events[1]]);
  }

  /** `up org list` completes with a non-zero status and writes nothing to
      standard output; parsing the empty output throws a SyntaxError: the
      verdict is false, with the "Unauthorized error detected" warning. */
  lemma EmptyOutputRefused(upPath: string, runner: Invocation -> Execution, parse: string -> Outcome<Json>,
                           status: int, message: string)
    requires runner(OrgListInvocation(upPath)) == Execution([""], Returned(status))
    requires parse("") == Threw(ErrorThrown(message))
    ensures LoginCheck(upPath, runner, parse) ==
      Verdict(false, [Invoke(Invocation(upPath, ["org", "list", "--format", "json"], None, true)),
                      Warning("User is not logged in. Unauthorized error detected.")])
  {
    assert Concat([""]) == Concat([]) + "";
  }

  // ---------------------------------------------------------------------------
  // The run: how far it gets

  /** The login check runs: the tool was found and `skip-login-check` does
      not read as true. */
  predicate LoginChecked(env: Env) {
    env.which != "" && env.skipLoginCheck.Returned? && !IsTrue(env.skipLoginCheck.value)
  }

  /** The build starts: the tool was found and the login check was skipped
      or passed. */
  predicate BuildReached(env: Env) {
    env.which != "" && env.skipLoginCheck.Returned? &&
    (IsTrue(env.skipLoginCheck.value) || LoginCheck(env.which, env.runner, env.parse).loggedIn)
  }

  /** The build starts and completes. */
  predicate BuildCompleted(env: Env) {
    BuildReached(env) && env.runner(BuildInvocation(env, env.which)).exit.Returned?
  }

  /** The push starts: the build completed and `push-project` reads as true. */
  predicate PushReached(env: Env) {
    BuildCompleted(env) && env.pushProject.Returned? && IsTrue(env.pushProject.value)
  }

  /** The value that escapes the body of `run` and reaches its catch clause,
      if any. */
  function Escaped(env: Env): Option<Thrown> {
    if env.which == "" then Some(ErrorThrown(ToolNotFoundMessage))
    else if env.skipLoginCheck.Threw? then Some(env.skipLoginCheck.thrown)
    else if !BuildReached(env) then None
    else ThrownAfterBuild(env)
  }

  lemma CaughtFacts(t: Thrown)
    ensures Invocations(Caught(t)) == []
    ensures FailureMessages(Caught(t)) == if t.ErrorThrown? then [t.message] else []
    ensures Info(SkipLoginMessage) !in Caught(t) && Info(SkipPushMessage) !in Caught(t)
  {
  }

  /** The events of build-and-push when the build throws, when reading
      `push-project` throws, when push is skipped, and when push starts. */
  lemma BuildAndPushCases(env: Env)
    requires env.which != ""
    ensures var build := BuildInvocation(env, env.which);
      var push := PushInvocation(env, env.which);
      var built := env.runner(build).exit;
      var pushed := env.runner(push).exit;
      var events := BuildAndPush(env, env.which);
      (built.Threw? ==> events == [Invoke(build)] + Caught(built.thrown)) &&
      (built.Returned? && env.pushProject.Threw? ==> events == [Invoke(build)] + Caught(env.pushProject.thrown)) &&
      (built.Returned? && env.pushProject.Returned? && !IsTrue(env.pushProject.value) ==>
        events == [Invoke(build), Info(SkipPushMessage)]) &&
      (built.Returned? && env.pushProject.Returned? && IsTrue(env.pushProject.value) ==>
        events == [Invoke(build), Invoke(push)] + (if pushed.Threw? then Caught(pushed.thrown) else []))
  {
  }

  /** The value thrown after the build starts, if any. */
  function ThrownAfterBuild(env: Env): Option<Thrown> {
    var built := env.runner(BuildInvocation(env, env.which)).exit;
    var pushed := env.runner(PushInvocation(env, env.which)).exit;
    if built.Threw? then Some(built.thrown)
    else if env.pushProject.Threw? then Some(env.pushProject.thrown)
    else if IsTrue(env.pushProject.value) && pushed.Threw? then Some(pushed.thrown)
    else None
  }

  /** Build-and-push, split into the invocations it makes and what its catch
      clause adds or the push-skipped line. */
  lemma BuildAndPushSplit(env: Env)
    requires env.which != ""
    ensures var events := BuildAndPush(env, env.which);
      var pushing := env.runner(BuildInvocation(env, env.which)).exit.Returned? &&
        env.pushProject.Returned? && IsTrue(env.pushProject.value);
      var skipped := env.runner(BuildInvocation(env, env.which)).exit.Returned? &&
        env.pushProject.Returned? && !IsTrue(env.pushProject.value);
      var invoked := [Invoke(BuildInvocation(env, env.which))] +
        (if pushing then [Invoke(PushInvocation(env, env.which))] else []);
      var thrown := ThrownAfterBuild(env);
      events == invoked + (if thrown.Some? then Caught(thrown.value) else if skipped then [Info(SkipPushMessage)] else []) &&
      Invocations(invoked) == [BuildInvocation(env, env.which)] + (if pushing then [PushInvocation(env, env.which)] else []) &&
      FailureMessages(invoked) == [] &&
      Info(SkipLoginMessage) !in invoked && Info(SkipPushMessage) !in invoked
  {
    BuildAndPushCases(env);
    var build := Invoke(BuildInvocation(env, env.which));
    var push := Invoke(PushInvocation(env, env.which));
    assert [build, push][1..] == [push];
    assert Invocations([push]) == [push.invocation];
    assert Invocations([build, push]) == [build.invocation, push.invocation];
    assert FailureMessages([push]) == [];
    assert FailureMessages([build, push]) == [];
  }

  lemma BuildAndPushFacts(env: Env)
    requires env.which != ""
    ensures var events := BuildAndPush(env, env.which);
      var pushing := env.runner(BuildInvocation(env, env.which)).exit.Returned? &&
        env.pushProject.Returned? && IsTrue(env.pushProject.value);
      var skipped := env.runner(BuildInvocation(env, env.which)).exit.Returned? &&
        env.pushProject.Returned? && !IsTrue(env.pushProject.value);
      var thrown := ThrownAfterBuild(env);
      |events| > 0 &&
      FailureMessages(events) == (if thrown.Some? && thrown.value.ErrorThrown? then [thrown.value.message] else []) &&
      Info(SkipLoginMessage) !in events &&
      (Info(SkipPushMessage) in events <==> skipped) &&
      (skipped ==> events[|events| - 1] == Info(SkipPushMessage)) &&
      (FailureMessages(events) != [] ==> events[|events| - 1] == Failed(FailureMessages(events)[0]))
  {
    BuildAndPushSplit(env);
    var events := BuildAndPush(env, env.which);
    var pushing := env.runner(BuildInvocation(env, env.which)).exit.Returned? &&
      env.pushProject.Returned? && IsTrue(env.pushProject.value);
    var skipped := env.runner(BuildInvocation(env, env.which)).exit.Returned? &&
      env.pushProject.Returned? && !IsTrue(env.pushProject.value);
    var invoked := [Invoke(BuildInvocation(env, env.which))] +
      (if pushing then [Invoke(PushInvocation(env, env.which))] else []);
    var thrown := ThrownAfterBuild(env);
    var tail := if thrown.Some? then Caught(thrown.value) else if skipped then [Info(SkipPushMessage)] else [];
    FailureMessagesAppend(invoked, tail);
    if thrown.Some? {
      CaughtFacts(thrown.value);
    }
    if tail != [] {
      assert events[|events| - 1] == tail[|tail| - 1];
    }
  }

  lemma BuildAndPushInvocations(env: Env)
    requires env.which != ""
    ensures Invocations(BuildAndPush(env, env.which)) == [BuildInvocation(env, env.which)] +
      (if env.runner(BuildInvocation(env, env.which)).exit.Returned? &&
          env.pushProject.Returned? && IsTrue(env.pushProject.value)
       then [PushInvocation(env, env.which)] else [])
  {
    BuildAndPushSplit(env);
    var pushing := env.runner(BuildInvocation(env, env.which)).exit.Returned? &&
      env.pushProject.Returned? && IsTrue(env.pushProject.value);
    var skipped := env.runner(BuildInvocation(env, env.which)).exit.Returned? &&
      env.pushProject.Returned? && !IsTrue(env.pushProject.value);
    var invoked := [Invoke(BuildInvocation(env, env.which))] +
      (if pushing then [Invoke(PushInvocation(env, env.which))] else []);
    var thrown := ThrownAfterBuild(env);
    var tail := if thrown.Some? then Caught(thrown.value) else if skipped then [Info(SkipPushMessage)] else [];
    InvocationsAppend(invoked, tail);
    if thrown.Some? {
      CaughtFacts(thrown.value);
    } else if skipped {
      assert Invocations(tail) == [];
    }
  }

  /** What a run logs before the build: the skip line, or the login
      check's events. */
  function BeforeBuild(env: Env): seq<Event>
    requires env.skipLoginCheck.Returned?
  {
    if IsTrue(env.skipLoginCheck.value) then [Info(SkipLoginMessage)]
    else LoginCheck(env.which, env.runner, env.parse).events
  }

  /** The trace of a run in each of its branches. */
  lemma RunCases(env: Env)
    ensures var t := RunTrace(env);
      var login := LoginCheck(env.which, env.runner, env.parse);
      (env.which == "" ==> t == [Failed(ToolNotFoundMessage)]) &&
      (env.which != "" && env.skipLoginCheck.Threw? ==> t == Caught(env.skipLoginCheck.thrown)) &&
      (BuildReached(env) ==> t == BeforeBuild(env) + BuildAndPush(env, env.which)) &&
      (LoginChecked(env) && !login.loggedIn ==> t == login.events + [Failed(NotLoggedInMessage)])
  {
  }

  lemma BeforeBuildFacts(env: Env)
    requires BuildReached(env)
    ensures var pre := BeforeBuild(env);
      Invocations(pre) == (if LoginChecked(env) then [OrgListInvocation(env.which)] else []) &&
      FailureMessages(pre) == [] &&
      Info(SkipPushMessage) !in pre &&
      (Info(SkipLoginMessage) in pre <==> !LoginChecked(env)) &&
      (!LoginChecked(env) ==> pre[0] == Info(SkipLoginMessage))
  {
    LoginEvents(env.which, env.runner, env.parse);
  }

  /** The subprocesses a run starts: `up org list` if the login check runs,
      then the build if it is reached, then the push if it is reached. */
  lemma RunInvocations(env: Env)
    ensures Invocations(RunTrace(env)) ==
      (if LoginChecked(env) then [OrgListInvocation(env.which)] else []) +
      (if BuildReached(env) then [BuildInvocation(env, env.which)] else []) +
      (if PushReached(env) then [PushInvocation(env, env.which)] else [])
  {
    RunCases(env);
    if env.which == "" {
      assert Invocations([Failed(ToolNotFoundMessage)]) == [];
    } else if env.skipLoginCheck.Threw? {
      CaughtFacts(env.skipLoginCheck.thrown);
    } else if BuildReached(env) {
      ReachedInvocations(env);
    } else {
      RefusedInvocations(env);
    }
  }

  lemma ReachedInvocations(env: Env)
    requires BuildReached(env)
    ensures Invocations(RunTrace(env)) ==
      (if LoginChecked(env) then [OrgListInvocation(env.which)] else []) +
      [BuildInvocation(env, env.which)] +
      (if PushReached(env) then [PushInvocation(env, env.which)] else [])
  {
    var pre, rest := BeforeBuild(env), BuildAndPush(env, env.which);
    var o: seq<Invocation> := if LoginChecked(env) then [OrgListInvocation(env.which)] else [];
    var b := [BuildInvocation(env, env.which)];
    var p: seq<Invocation> := if PushReached(env) then [PushInvocation(env, env.which)] else [];
    RunCases(env);
    assert RunTrace(env) == pre + rest;
    BeforeBuildFacts(env);
    BuildAndPushInvocations(env);
    assert Invocations(rest) == b + p;
    InvocationsAppend(pre, rest);
    AppendAssoc(o, b, p);
  }

  lemma RefusedInvocations(env: Env)
    requires LoginChecked(env) && !LoginCheck(env.which, env.runner, env.parse).loggedIn
    ensures Invocations(RunTrace(env)) == [OrgListInvocation(env.which)]
  {
    RunCases(env);
    var login := LoginCheck(env.which, env.runner, env.parse);
    LoginEvents(env.which, env.runner, env.parse);
    InvocationsAppend(login.events, [Failed(NotLoggedInMessage)]);
    assert Invocations([Failed(NotLoggedInMessage)]) == [];
  }

  /** The position of an invocation in the fixed order org list, build, push. */
  function Stage(inv: Invocation): nat {
    if inv.args == OrgListArgs then 0
    else if |inv.args| >= 2 && inv.args[1] == "build" then 1
    else 2
  }

  lemma StageFacts(env: Env)
    ensures Stage(OrgListInvocation(env.which)) == 0
    ensures Stage(BuildInvocation(env, env.which)) == 1
    ensures Stage(PushInvocation(env, env.which)) == 2
  {
    var b := BuildArgv(env.projectFile, env.repository);
    var p := PushArgv(env.projectFile, env.repository, env.tag, env.publicVisibility);
    assert b[0] == "project" && b[1] == "build";
    assert p[0] == "project" && p[1] == "push";
  }

  /** The invocations of a run are one of six sequences. */
  lemma RunInvocationChoices(env: Env)
    ensures var invs := Invocations(RunTrace(env));
      var o, b, p := OrgListInvocation(env.which), BuildInvocation(env, env.which), PushInvocation(env, env.which);
      invs == [] || invs == [o] || invs == [b] || invs == [o, b] || invs == [b, p] || invs == [o, b, p]
  {
    RunInvocations(env);
  }

  /** At most three subprocesses start, always in the order org list, build,
      push. */
  lemma RunInvocationOrder(env: Env)
    ensures var invs := Invocations(RunTrace(env));
      |invs| <= 3 && forall i, j :: 0 <= i < j < |invs| ==> Stage(invs[i]) < Stage(invs[j])
  {
    RunInvocationChoices(env);
    StageFacts(env);
  }

  /** Every subprocess runs the located tool; build and push run in the
      `cwd` input's directory when it is not empty, the login check silently
      in the default one. */
  lemma RunInvocationPlaces(env: Env)
    ensures var invs := Invocations(RunTrace(env));
      (forall i :: 0 <= i < |invs| ==> invs[i].tool == env.which) &&
      (forall i :: 0 <= i < |invs| && Stage(invs[i]) > 0 ==> invs[i].cwd == CwdOption(env.cwd) && !invs[i].silent) &&
      (forall i :: 0 <= i < |invs| && Stage(invs[i]) == 0 ==> invs[i].cwd == None && invs[i].silent)
  {
    RunInvocationChoices(env);
    StageFacts(env);
  }

  // ---------------------------------------------------------------------------
  // The run: what it logs and how it fails

  /** `setFailed` is called at most once, and nothing follows it: with "User
      is not logged in" when the login check fails, with the message of the
      Error that escapes the body otherwise, and not at all when what escapes
      is not an Error. */
  lemma RunFailures(env: Env)
    ensures var t := RunTrace(env);
      FailureMessages(t) ==
        (if LoginChecked(env) && !BuildReached(env) then [NotLoggedInMessage]
         else if Escaped(env).Some? && Escaped(env).value.ErrorThrown? then [Escaped(env).value.message]
         else []) &&
      (FailureMessages(t) != [] ==> t[|t| - 1] == Failed(FailureMessages(t)[0]))
  {
    RunCases(env);
    if env.which == "" {
      assert FailureMessages([Failed(ToolNotFoundMessage)]) == [ToolNotFoundMessage];
    } else if env.skipLoginCheck.Threw? {
      CaughtFacts(env.skipLoginCheck.thrown);
    } else if BuildReached(env) {
      ReachedFailures(env);
    } else {
      RefusedFailures(env);
    }
  }

  lemma ReachedFailures(env: Env)
    requires BuildReached(env)
    ensures var t := RunTrace(env);
      var thrown := ThrownAfterBuild(env);
      FailureMessages(t) == (if thrown.Some? && thrown.value.ErrorThrown? then [thrown.value.message] else []) &&
      (FailureMessages(t) != [] ==> t[|t| - 1] == Failed(FailureMessages(t)[0]))
  {
    RunCases(env);
    var t := RunTrace(env);
    var pre, rest := BeforeBuild(env), BuildAndPush(env, env.which);
    BeforeBuildFacts(env);
    BuildAndPushFacts(env);
    FailureMessagesAppend(pre, rest);
    if FailureMessages(t) != [] {
      assert t[|t| - 1] == rest[|rest| - 1];
    }
  }

  lemma RefusedFailures(env: Env)
    requires LoginChecked(env) && !LoginCheck(env.which, env.runner, env.parse).loggedIn
    ensures FailureMessages(RunTrace(env)) == [NotLoggedInMessage]
    ensures RunTrace(env)[|RunTrace(env)| - 1] == Failed(NotLoggedInMessage)
  {
    RunCases(env);
    var login := LoginCheck(env.which, env.runner, env.parse);
    LoginEvents(env.which, env.runner, env.parse);
    FailureMessagesAppend(login.events, [Failed(NotLoggedInMessage)]);
    assert FailureMessages([Failed(NotLoggedInMessage)]) == [NotLoggedInMessage];
  }

  /** When `up` is not found the run starts nothing and fails with the
      installation hint. */
  lemma ToolNotFoundRun(env: Env)
    requires env.which == ""
    ensures RunTrace(env) == [Failed("up not found, you can install it using upbound/action-up")]
    ensures Invocations(RunTrace(env)) == []
  {
    assert Invocations([Failed(ToolNotFoundMessage)]) == [];
  }

  /** A failed login check fails the run with "User is not logged in" and
      neither build nor push starts. */
  lemma NotLoggedInRun(env: Env)
    requires LoginChecked(env) && !LoginCheck(env.which, env.runner, env.parse).loggedIn
    ensures FailureMessages(RunTrace(env)) == ["User is not logged in. Please log in to Upbound."]
    ensures Invocations(RunTrace(env)) == [OrgListInvocation(env.which)]
  {
    RunInvocations(env);
    RunFailures(env);
  }

  /** "Skipping login check." is logged exactly when the tool is found and
      `skip-login-check` reads as true, and then it is the first event. */
  lemma SkipLoginLogged(env: Env)
    ensures Info(SkipLoginMessage) in RunTrace(env) <==>
      env.which != "" && env.skipLoginCheck.Returned? && IsTrue(env.skipLoginCheck.value)
    ensures Info(SkipLoginMessage) in RunTrace(env) ==> RunTrace(env)[0] == Info(SkipLoginMessage)
  {
    RunCases(env);
    if env.which == "" {
    } else if env.skipLoginCheck.Threw? {
      CaughtFacts(env.skipLoginCheck.thrown);
    } else if BuildReached(env) {
      BeforeBuildFacts(env);
      BuildAndPushFacts(env);
    } else {
      LoginEvents(env.which, env.runner, env.parse);
    }
  }

  /** "Skipping up project push" is logged exactly when the build completed
      and `push-project` does not read as true, and then the run ends. */
  lemma SkipPushLogged(env: Env)
    ensures Info(SkipPushMessage) in RunTrace(env) <==>
      BuildCompleted(env) && env.pushProject.Returned? && !IsTrue(env.pushProject.value)
    ensures Info(SkipPushMessage) in RunTrace(env) ==>
      RunTrace(env)[|RunTrace(env)| - 1] == Info(SkipPushMessage)
  {
    RunCases(env);
    var t := RunTrace(env);
    if env.which == "" {
    } else if env.skipLoginCheck.Threw? {
      CaughtFacts(env.skipLoginCheck.thrown);
    } else if BuildReached(env) {
      var rest := BuildAndPush(env, env.which);
      BeforeBuildFacts(env);
      BuildAndPushFacts(env);
      if Info(SkipPushMessage) in t {
        assert t[|t| - 1] == rest[|rest| - 1];
      }
    } else {
      LoginEvents(env.which, env.runner, env.parse);
    }
  }

  /** Found tool, login check skipped, push enabled, no optional inputs:
      the run starts `up project build` and then `up project push`, with no
      flags and no org list. */
  lemma SkipLoginPushNoFlags(env: Env)
    requires env.which != "" && env.skipLoginCheck == Returned("true") && env.pushProject == Returned("true")
    requires env.projectFile == "" && env.repository == "" && env.tag == "" && env.publicVisibility == "" && env.cwd == ""
    requires env.runner(Invocation(env.which, ["project", "build"], None, false)).exit.Returned?
    ensures Invocations(RunTrace(env)) ==
      [Invocation(env.which, ["project", "build"], None, false), Invocation(env.which, ["project", "push"], None, false)]
    ensures RunTrace(env)[0] == Info("Skipping login check.")
  {
    IsTrueIff("true");
    IsTrueIff("");
    assert BuildArgv("", "") == ["project", "build"];
    assert PushArgv("", "", "", "") == ["project", "push"];
    RunInvocations(env);
    SkipLoginLogged(env);
  }

  /** Found tool, login check on, and `up org list` throws an Error: one
      warning, the not-logged-in failure, and no build or push. */
  lemma UnauthorizedRun(env: Env)
    requires env.which != "" && env.skipLoginCheck == Returned("false")
    requires env.runner(Invocation(env.which, ["org", "list", "--format", "json"], None, true)).exit.Threw?
    requires env.runner(Invocation(env.which, ["org", "list", "--format", "json"], None, true)).exit.thrown.ErrorThrown?
    ensures RunTrace(env) == [
      Invoke(Invocation(env.which, ["org", "list", "--format", "json"], None, true)),
      Warning("User is not logged in. Unauthorized error detected."),
      Failed("User is not logged in. Please log in to Upbound.")]
  {
    IsTrueIff("false");
  }
}
