/** What a run of the action can be observed to do: start the `up` tool with
    some arguments, or log through the host's task-reporting facility. */
module Trace {
  import opened Js

  /** One `new ToolRunner(tool, args, options).exec()`: the executable, its
      argument list, the working directory (`undefined` keeps the process's
      own) and whether the command line and its output are kept off the log. */
  datatype Invocation = Invocation(tool: string, args: seq<string>, cwd: Option<string>, silent: bool)

  /** One observable step: a subprocess started, or a call to `core.info`,
      `core.debug`, `core.warning` or `core.setFailed`. */
  datatype Event =
    | Invoke(invocation: Invocation)
    | Info(message: string)
    | Debug(message: string)
    | Warning(message: string)
    | Failed(message: string)

  /** The subprocesses started, in order. */
  function Invocations(t: seq<Event>): seq<Invocation> {
    if t == [] then []
    else (if t[0].Invoke? then [t[0].invocation] else []) + Invocations(t[1..])
  }

  /** The messages passed to `core.setFailed`, in order. */
  function FailureMessages(t: seq<Event>): seq<string> {
    if t == [] then []
    else (if t[0].Failed? then [t[0].message] else []) + FailureMessages(t[1..])
  }

  /** The messages passed to `core.warning`, in order. */
  function Warnings(t: seq<Event>): seq<string> {
    if t == [] then []
    else (if t[0].Warning? then [t[0].message] else []) + Warnings(t[1..])
  }

  lemma AppendAssoc<T>(a: seq<T>, b: seq<T>, c: seq<T>)
    ensures a + (b + c) == a + b + c
  {
  }

  lemma {:induction false} InvocationsAppend(a: seq<Event>, b: seq<Event>)
    ensures Invocations(a + b) == Invocations(a) + Invocations(b)
  {
    if a == [] {
      assert a + b == b;
    } else {
      var head := if a[0].Invoke? then [a[0].invocation] else [];
      assert (a + b)[0] == a[0];
      assert (a + b)[1..] == a[1..] + b;
      assert Invocations(a + b) == head + Invocations(a[1..] + b);
      InvocationsAppend(a[1..], b);
      assert Invocations(a) == head + Invocations(a[1..]);
    }
  }

  lemma {:induction false} FailureMessagesAppend(a: seq<Event>, b: seq<Event>)
    ensures FailureMessages(a + b) == FailureMessages(a) + FailureMessages(b)
  {
    if a == [] {
      assert a + b == b;
    } else {
      var head := if a[0].Failed? then [a[0].message] else [];
      assert (a + b)[0] == a[0];
      assert (a + b)[1..] == a[1..] + b;
      assert FailureMessages(a + b) == head + FailureMessages(a[1..] + b);
      FailureMessagesAppend(a[1..], b);
      assert FailureMessages(a) == head + FailureMessages(a[1..]);
    }
  }

  lemma {:induction false} WarningsAppend(a: seq<Event>, b: seq<Event>)
    ensures Warnings(a + b) == Warnings(a) + Warnings(b)
  {
    if a == [] {
      assert a + b == b;
    } else {
      var head := if a[0].Warning? then [a[0].message] else [];
      assert (a + b)[0] == a[0];
      assert (a + b)[1..] == a[1..] + b;
      assert Warnings(a + b) == head + Warnings(a[1..] + b);
      WarningsAppend(a[1..], b);
      assert Warnings(a) == head + Warnings(a[1..]);
    }
  }

}
