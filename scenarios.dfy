/**
 * Concrete Taskfiles and tool calls, verified against the model's contracts:
 * each method shows what the contracts alone let a caller conclude about one
 * small example.
 */
module Scenarios {
  import opened Wrappers
  import opened TaskfileServer

  /** A Taskfile with a public task "build" and an internal task
      ":internal-helper": only "build" becomes a tool. */
  method InternalTaskIsNotRegistered()
  {
    var tf := Taskfile(Some(map["build" := Task("Build it", map[]), ":internal-helper" := Task("", map[])]), map[]);
    var server := new McpServer();
    var err := RegisterTasks(tf, server);
    assert err == None;
    assert "build"[0] != ':';
    assert IsInternal(":internal-helper") && !IsInternal("build");
    assert server.tools.Keys == set n | n in {"build", ":internal-helper"} && !IsInternal(n);
    assert server.tools.Keys == {"build"};
    assert server.tools["build"].tool.description == "Build it";
    assert server.tools["build"].tool.params == map[];
  }

  /** A Taskfile without a task collection: nothing is registered. */
  method MissingTasksAreAnError()
  {
    var server := new McpServer();
    var err := RegisterTasks(Taskfile(None, map["X" := Text("1")]), server);
    assert err == Some(NoTasksError);
    assert server.tools == map[];
  }

  /** A task without a description, declaring NAME with default "world". */
  method UndescribedTaskGetsGenericDescription()
  {
    var greet := Task("", map["NAME" := Text("world")]);
    var tool := CreateToolForTask(Taskfile(Some(map["greet" := greet]), map[]), "greet", greet);
    assert tool.description == "Execute task: greet";
    assert tool.params.Keys == {"NAME"};
    assert tool.params["NAME"] == ParamDescription("NAME", Text("world"));
    LocalDefaultWins("greet", greet, map[], "NAME");
    assert DefaultFromDescription("NAME", tool.params["NAME"]) == Some("world");
  }

  /** G is declared globally with default "g" and by the task with default "t";
      a global that is not a string shows an empty default. */
  method TaskVariableOverridesGlobal()
  {
    var task := Task("Deploy", map["G" := Text("t")]);
    var tf := Taskfile(Some(map["deploy" := task]), map["G" := Text("g"), "N" := Other]);
    var tool := CreateToolForTask(tf, "deploy", task);
    assert tool.params["G"] == ParamDescription("G", Text("t"));
    assert tool.params["N"] == ParamDescription("N", Other);
    LocalDefaultWins("deploy", task, tf.vars, "G");
    assert DefaultFromDescription("G", tool.params["G"]) == Some("t");
    DescriptionRoundTrip("N", Other);
    assert DefaultFromDescription("N", tool.params["N"]) == Some("");
    assert tool.params.Keys == {"G", "N"};
  }

  /** A call supplying X = "5" and a non-string N: only X is bound. */
  method StringArgumentsAreBound()
  {
    var engine := (c: TaskCall) => RunOutcome(None, "ok\n", "");
    var args := map["X" := Text("5"), "N" := Other];
    var result, err, executor := HandleCall("build", args, None, engine);
    assert StringArguments(args).Keys == {"X"} && StringArguments(args)["X"] == "5";
    assert StringArguments(args) == map["X" := "5"];
    assert executor.calls == [TaskCall("build", map["X" := "5"])];
    assert !result.isError;
    assert result.text == StatusLine("build", None) + OutputHeader + "ok\n" + "";
    assert err == None;
  }

  /** A run that fails with "exit status 1" is reported as an error result
      naming the task and the failure, not as a protocol error. */
  method FailedRunIsAnErrorResult()
  {
    var engine := (c: TaskCall) => RunOutcome(Some("exit status 1"), "", "warning\n");
    var result, err, executor := HandleCall("build", map[], None, engine);
    assert |executor.calls| == 1;
    assert result.isError && err == None;
    assert Section(OutputHeader, "") == "";
    assert result.text == StatusLine("build", Some("exit status 1")) + "" + ErrorsHeader + "warning\n";
    FailureTextMentions("build", "exit status 1", "", "warning\n");
    assert Contains(result.text, "build") && Contains(result.text, "exit status 1");
  }

  /** A setup failure is reported the same way, and the task is not run. */
  method SetupFailureDoesNotRun()
  {
    var engine := (c: TaskCall) => RunOutcome(None, "", "");
    var result, err, executor := HandleCall("build", map["X" := Text("5")], Some("no Taskfile found"), engine);
    assert executor.calls == [] && err == None;
    assert result == CallToolResult("Task 'build' setup failed: " + "no Taskfile found", true);
  }
}
