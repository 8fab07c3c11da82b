/**
 * The adapter of the Taskfile MCP server (main.go): it turns the tasks of a
 * parsed Taskfile into MCP tools, binds the string arguments of a tool call
 * to task variables, and renders the outcome of one task run as a tool result.
 *
 * go-task (Taskfile loading, the executor) and mcp-go (the server, its
 * transport) are outside the model: the parsed Taskfile is a value, the
 * executor runs calls through an oracle passed in by the caller, and the MCP
 * server is an abstract registry of tools.
 */
module TaskfileServer {
  import opened Wrappers

  // ---------------------------------------------------------------------------
  // Data model
  // ---------------------------------------------------------------------------

  /** The dynamically typed value of a Taskfile variable (ast.Var.Value) or of a
      tool-call argument: a string, or anything else (a number, a list, a map,
      nil for a dynamic `sh:` variable). */
  datatype Value = Text(s: string) | Other

  /** The part of an ast.Task the adapter reads: its description and its own
      variables. A nil variable collection is the empty map. */
  datatype Task = Task(desc: string, vars: map<string, Value>)

  /** The parsed Taskfile: the task collection (None when it is nil) and the
      global variables. */
  datatype Taskfile = Taskfile(tasks: Option<map<string, Task>>, vars: map<string, Value>)

  /** An MCP tool: its name, its description, and one optional string
      parameter per variable, from parameter name to parameter description. */
  datatype Tool = Tool(name: string, description: string, params: map<string, string>)

  /** The handler closure built by createTaskHandler, identified by the task
      it runs: calling TaskHandler(n) with some arguments behaves as
      HandleCall(n, arguments, ...) below. */
  datatype Handler = TaskHandler(taskName: string)

  /** One entry of the MCP server's tool registry. */
  datatype ServerTool = ServerTool(tool: Tool, handler: Handler)

  /** The request handed to the executor: the task and its variable bindings. */
  datatype TaskCall = TaskCall(task: string, vars: map<string, string>)

  /** What the executor reports for one run: the error it returned, if any,
      and what the task wrote to the captured stdout and stderr buffers. */
  datatype RunOutcome = RunOutcome(err: Option<string>, stdout: string, stderr: string)

  /** mcp.CallToolResult: one text content item and the IsError flag. */
  datatype CallToolResult = CallToolResult(text: string, isError: bool)

  // ---------------------------------------------------------------------------
  // Tool-schema derivation (createToolForTask)
  // ---------------------------------------------------------------------------

  /** The tool description: the task's own, or a generic one naming the task. */
  function ToolDescription(taskName: string, desc: string): (r: string)
    ensures r != ""
    ensures desc != "" ==> r == desc
    ensures desc == "" ==> r == "Execute task: " + taskName
  {
    if desc == "" then "Execute task: " + taskName else desc
  }

  /** A variable's default as shown to clients: the string itself, or the empty
      string for a value that is not a string. */
  function DefaultText(v: Value): (r: string)
    ensures v == Text(r) || (v == Other && r == "")
  {
    match v
    case Text(s) => s
    case Other => ""
  }

  function ParamPrefix(varName: string): string
  {
    "Variable: " + varName + " (default: "
  }

  /** The description of the parameter standing for variable `varName`. */
  function ParamDescription(varName: string, v: Value): string
  {
    ParamPrefix(varName) + DefaultText(v) + ")"
  }

  /** Reads the default back out of a parameter description for `varName`;
      None when the text does not have the shape ParamDescription gives. */
  function DefaultFromDescription(varName: string, d: string): Option<string>
  {
    var p := ParamPrefix(varName);
    if |p| < |d| && p <= d && d[|d| - 1] == ')' then Some(d[|p|..|d| - 1]) else None
  }

  /** A parameter description names its variable and gives back its default. */
  lemma DescriptionRoundTrip(varName: string, v: Value)
    ensures DefaultFromDescription(varName, ParamDescription(varName, v)) == Some(DefaultText(v))
  {
  }

  /** Global variables overlaid with the task's own: the task's win. */
  function Merge(globals: map<string, Value>, locals: map<string, Value>): (r: map<string, Value>)
    ensures r.Keys == globals.Keys + locals.Keys
    ensures forall k :: k in locals ==> r[k] == locals[k]
    ensures forall k :: k in globals && k !in locals ==> r[k] == globals[k]
  {
    globals + locals
  }

  /** One string parameter per variable. */
  function Params(vars: map<string, Value>): map<string, string>
  {
    map k | k in vars :: ParamDescription(k, vars[k])
  }

  /** The tool createToolForTask derives from a task and the global variables. */
  function ToolFor(taskName: string, task: Task, globals: map<string, Value>): (r: Tool)
    ensures r.name == taskName
    ensures task.desc != "" ==> r.description == task.desc
    ensures task.desc == "" ==> r.description == "Execute task: " + taskName
    ensures r.params.Keys == globals.Keys + task.vars.Keys
    ensures forall k :: k in task.vars ==> r.params[k] == ParamDescription(k, task.vars[k])
    ensures forall k :: k in globals && k !in task.vars ==> r.params[k] == ParamDescription(k, globals[k])
  {
    Tool(taskName, ToolDescription(taskName, task.desc), Params(Merge(globals, task.vars)))
  }

  /** A variable declared both globally and by the task is described with the
      task's default, whatever the global one is. */
  lemma LocalDefaultWins(taskName: string, task: Task, globals: map<string, Value>, k: string)
    requires k in task.vars
    ensures k in ToolFor(taskName, task, globals).params
    ensures DefaultFromDescription(k, ToolFor(taskName, task, globals).params[k]) == Some(DefaultText(task.vars[k]))
  {
    DescriptionRoundTrip(k, task.vars[k]);
  }

  /** createToolForTask: copies the global variables, then the task's own, into
      a fresh map, and adds one string parameter per entry of that map. */
  method CreateToolForTask(tf: Taskfile, taskName: string, task: Task) returns (tool: Tool)
    ensures tool == ToolFor(taskName, task, tf.vars)
  {
    var description := task.desc;
    if description == "" {
      description := "Execute task: " + taskName;
    }

    var allVars: map<string, Value> := map[];

    // Global variables first.
    var pending := tf.vars.Keys;
    while pending != {}
      invariant pending <= tf.vars.Keys
      invariant allVars.Keys == tf.vars.Keys - pending
      invariant forall k :: k in allVars ==> allVars[k] == tf.vars[k]
      decreases pending
    {
      var k :| k in pending;
      allVars := allVars[k := tf.vars[k]];
      pending := pending - {k};
    }
    assert allVars == tf.vars;

    // Then the task's own, overriding globals of the same name.
    pending := task.vars.Keys;
    while pending != {}
      invariant pending <= task.vars.Keys
      invariant allVars.Keys == tf.vars.Keys + (task.vars.Keys - pending)
      invariant forall k :: k in allVars ==>
        allVars[k] == if k in task.vars && k !in pending then task.vars[k] else tf.vars[k]
      decreases pending
    {
      var k :| k in pending;
      allVars := allVars[k := task.vars[k]];
      pending := pending - {k};
    }
    assert allVars == Merge(tf.vars, task.vars);

    // One string parameter per variable.
    var params: map<string, string> := map[];
    pending := allVars.Keys;
    while pending != {}
      invariant pending <= allVars.Keys
      invariant params.Keys == allVars.Keys - pending
      invariant forall k :: k in params ==> params[k] == ParamDescription(k, allVars[k])
      decreases pending
    {
      var k :| k in pending;
      var defaultValue := "";
      if allVars[k].Text? {
        defaultValue := allVars[k].s;
      }
      params := params[k := "Variable: " + k + " (default: " + defaultValue + ")"];
      pending := pending - {k};
    }
    assert params == Params(allVars);

    tool := Tool(taskName, description, params);
  }

  // ---------------------------------------------------------------------------
  // Task registration (registerTasks)
  // ---------------------------------------------------------------------------

  /** Tasks whose name starts with ':' are internal and never exposed. */
  predicate IsInternal(taskName: string)
    ensures IsInternal(taskName) <==> |taskName| > 0 && taskName[0] == ':'
  {
    ":" <= taskName
  }

  /** The registry entry registerTasks adds for one task. */
  function Registration(taskName: string, task: Task, globals: map<string, Value>): ServerTool
  {
    ServerTool(ToolFor(taskName, task, globals), TaskHandler(taskName))
  }

  /** The registry entries registerTasks adds for the tasks named in `names`:
      one per task that is not internal, under the task's name. */
  function RegisteredAmong(tasks: map<string, Task>, names: set<string>, globals: map<string, Value>): map<string, ServerTool>
  {
    map n | n in names && n in tasks && !IsInternal(n) :: Registration(n, tasks[n], globals)
  }

  /** Visiting one more task adds its entry unless it is internal. */
  lemma RegisteredAmongStep(tasks: map<string, Task>, names: set<string>, n: string, globals: map<string, Value>)
    requires n in tasks
    ensures RegisteredAmong(tasks, names + {n}, globals) ==
      if IsInternal(n) then RegisteredAmong(tasks, names, globals)
      else RegisteredAmong(tasks, names, globals)[n := Registration(n, tasks[n], globals)]
  {
  }

  /** Writing an entry into an overlaid map is overlaying the written map. */
  lemma UpdateOverUnion<K, V>(base: map<K, V>, top: map<K, V>, k: K, v: V)
    ensures (base + top)[k := v] == base + top[k := v]
  {
  }

  /** The registry entries registerTasks adds for a task collection: one per
      task that is not internal, under the task's name, holding a tool of
      that name and a handler that runs that task. */
  function Registrations(tasks: map<string, Task>, globals: map<string, Value>): (r: map<string, ServerTool>)
    ensures r.Keys == set n | n in tasks && !IsInternal(n)
    ensures forall n :: n in r ==>
      && r[n] == Registration(n, tasks[n], globals)
      && r[n].tool.name == n
      && r[n].handler == TaskHandler(n)
  {
    RegisteredAmong(tasks, tasks.Keys, globals)
  }

  /** The MCP server's tool registry, keyed by tool name. */
  class McpServer {
    var tools: map<string, ServerTool>

    constructor ()
      ensures tools == map[]
    {
      tools := map[];
    }

    /** Registers a tool, replacing any tool of the same name. */
    method AddTool(tool: Tool, handler: Handler)
      modifies this
      ensures tools == old(tools)[tool.name := ServerTool(tool, handler)]
    {
      tools := tools[tool.name := ServerTool(tool, handler)];
    }
  }

  const NoTasksError := "no tasks found in Taskfile"

  /** registerTasks: fails on a nil task collection, otherwise registers one
      tool per task whose name does not start with ':'. */
  method RegisterTasks(tf: Taskfile, server: McpServer) returns (err: Option<string>)
    modifies server
    ensures tf.tasks.None? ==> err == Some(NoTasksError) && server.tools == old(server.tools)
    ensures tf.tasks.Some? ==> err == None && server.tools == old(server.tools) + Registrations(tf.tasks.value, tf.vars)
  {
    if tf.tasks.None? {
      return Some(NoTasksError);
    }
    var tasks := tf.tasks.value;
    var pending := tasks.Keys;
    assert RegisteredAmong(tasks, tasks.Keys - pending, tf.vars) == map[];
    assert server.tools == old(server.tools) + map[];
    while pending != {}
      invariant pending <= tasks.Keys
      invariant server.tools == old(server.tools) + RegisteredAmong(tasks, tasks.Keys - pending, tf.vars)
      decreases pending
    {
      var taskName :| taskName in pending;
      ghost var done := RegisteredAmong(tasks, tasks.Keys - pending, tf.vars);
      RegisteredAmongStep(tasks, tasks.Keys - pending, taskName, tf.vars);
      if !IsInternal(taskName) {
        var tool := CreateToolForTask(tf, taskName, tasks[taskName]);
        server.AddTool(tool, TaskHandler(taskName));
        UpdateOverUnion(old(server.tools), done, taskName, Registration(taskName, tasks[taskName], tf.vars));
      }
      assert tasks.Keys - (pending - {taskName}) == (tasks.Keys - pending) + {taskName};
      pending := pending - {taskName};
    }
    assert tasks.Keys - pending == tasks.Keys;
    return None;
  }

  // ---------------------------------------------------------------------------
  // Argument-to-variable binding (createTaskHandler, lines 52-60)
  // ---------------------------------------------------------------------------

  /** The variable bindings of a call: the string arguments, unchanged. */
  function StringArguments(args: map<string, Value>): (vars: map<string, string>)
    ensures vars.Keys <= args.Keys
    ensures forall k :: k in args ==> (k in vars <==> args[k].Text?)
    ensures forall k :: k in vars ==> args[k] == Text(vars[k])
  {
    map k | k in args && args[k].Text? :: args[k].s
  }

  /** Copies every string argument into the binding set; drops the others. */
  method BindArguments(args: map<string, Value>) returns (vars: map<string, string>)
    ensures vars == StringArguments(args)
  {
    vars := map[];
    var pending := args.Keys;
    while pending != {}
      invariant pending <= args.Keys
      invariant vars.Keys == set k | k in args.Keys - pending && args[k].Text?
      invariant forall k :: k in vars ==> args[k] == Text(vars[k])
      decreases pending
    {
      var key :| key in pending;
      if args[key].Text? {
        vars := vars[key := args[key].s];
      }
      pending := pending - {key};
    }
  }

  // ---------------------------------------------------------------------------
  // Result assembly (createTaskHandler, lines 74-112)
  // ---------------------------------------------------------------------------

  /** The first line of a result text: whether the run failed, and why. */
  function StatusLine(taskName: string, runErr: Option<string>): string
  {
    match runErr
    case None => "Task '" + taskName + "' completed successfully.\n"
    case Some(e) => "Task '" + taskName + "' failed with error: " + e + "\n"
  }

  const OutputHeader := "\nOutput:\n"
  const ErrorsHeader := "\nErrors:\n"

  /** A section of captured output under its header, present only when the
      output is not empty. */
  function Section(header: string, body: string): string
  {
    if body == "" then "" else header + body
  }

  /** The text of a tool result after a run: the status line, then the
      captured stdout, then the captured stderr. */
  function ResultText(taskName: string, runErr: Option<string>, stdout: string, stderr: string): string
  {
    StatusLine(taskName, runErr) + Section(OutputHeader, stdout) + Section(ErrorsHeader, stderr)
  }

  /** The layout of a result text, which these four facts determine: the
      status line opens it; the stdout section follows it exactly when stdout
      is not empty; the stderr section closes it exactly when stderr is not
      empty; and nothing else is in it. */
  lemma ResultTextLayout(taskName: string, runErr: Option<string>, stdout: string, stderr: string)
    ensures var text, line := ResultText(taskName, runErr, stdout, stderr), StatusLine(taskName, runErr);
      && |text| == |line| + (if stdout == "" then 0 else |OutputHeader| + |stdout|)
                          + (if stderr == "" then 0 else |ErrorsHeader| + |stderr|)
      && line <= text
      && (stdout != "" ==> OccursAt(text, OutputHeader + stdout, |line|))
      && (stderr != "" ==> OccursAt(text, ErrorsHeader + stderr, |text| - |stderr| - |ErrorsHeader|))
  {
    ThreePartLayout(StatusLine(taskName, runErr), Section(OutputHeader, stdout), Section(ErrorsHeader, stderr));
  }

  /** Where each of three concatenated strings sits in the whole. */
  lemma ThreePartLayout(line: string, out: string, errs: string)
    ensures var text := line + out + errs;
      && |text| == |line| + |out| + |errs|
      && line <= text
      && OccursAt(text, out, |line|)
      && OccursAt(text, errs, |text| - |errs|)
  {
    var text := line + out + errs;
    assert text[..|line|] == line;
    assert text[|line|..|line| + |out|] == out;
    assert text[|line| + |out|..] == errs;
  }

  /** The text of a tool result when the executor could not be set up. */
  function SetupFailedText(taskName: string, setupErr: string): string
  {
    "Task '" + taskName + "' setup failed: " + setupErr
  }

  /** s holds sub starting at index i. */
  predicate OccursAt(s: string, sub: string, i: nat)
  {
    i + |sub| <= |s| && s[i..i + |sub|] == sub
  }

  ghost predicate Contains(s: string, sub: string)
  {
    exists i: nat :: OccursAt(s, sub, i)
  }

  /** A client can tell a successful run from a failed one by the status line
      alone, whatever the task printed. */
  lemma {:induction false} SuccessReadableFromText(taskName: string, runErr: Option<string>, stdout: string, stderr: string)
    ensures StatusLine(taskName, None) <= ResultText(taskName, runErr, stdout, stderr) <==> runErr.None?
  {
    var text := ResultText(taskName, runErr, stdout, stderr);
    var line, ok := StatusLine(taskName, runErr), StatusLine(taskName, None);
    var opening := "Task '" + taskName;
    var k := |opening| + 2;
    assert line <= text by {
      assert text == line + (Section(OutputHeader, stdout) + Section(ErrorsHeader, stderr));
    }
    if runErr.Some? {
      assert line == opening + "' failed with error: " + runErr.value + "\n";
      assert line[k] == 'f';
      assert ok == opening + "' completed successfully.\n";
      assert ok[k] == 'c';
    }
  }

  /** A failed run's result names the task and quotes the executor's error. */
  lemma {:induction false} FailureTextMentions(taskName: string, e: string, stdout: string, stderr: string)
    ensures Contains(ResultText(taskName, Some(e), stdout, stderr), taskName)
    ensures Contains(ResultText(taskName, Some(e), stdout, stderr), e)
  {
    var text := ResultText(taskName, Some(e), stdout, stderr);
    var line := StatusLine(taskName, Some(e));
    assert text == line + (Section(OutputHeader, stdout) + Section(ErrorsHeader, stderr));
    assert text[..|line|] == line;
    var opening := "Task '" + taskName;
    var infix := "' failed with error: ";
    assert line == opening + infix + e + "\n";
    assert line[6..6 + |taskName|] == taskName;
    assert OccursAt(text, taskName, 6);
    var j := |opening| + |infix|;
    assert line[j..j + |e|] == e;
    assert OccursAt(text, e, j);
  }

  /** A failed setup's result names the task and quotes the setup error. */
  lemma {:induction false} SetupFailureTextMentions(taskName: string, e: string)
    ensures Contains(SetupFailedText(taskName, e), taskName)
    ensures Contains(SetupFailedText(taskName, e), e)
  {
    var text := SetupFailedText(taskName, e);
    var opening := "Task '" + taskName;
    var infix := "' setup failed: ";
    assert text == opening + infix + e;
    assert text[6..6 + |taskName|] == taskName;
    assert OccursAt(text, taskName, 6);
    var j := |opening| + |infix|;
    assert text[j..] == e;
    assert OccursAt(text, e, j);
  }

  /** strings.Builder: text appended piece by piece. */
  class StringBuilder {
    var buf: string

    constructor ()
      ensures buf == ""
    {
      buf := "";
    }

    method WriteString(s: string)
      modifies this
      ensures buf == old(buf) + s
    {
      buf := buf + s;
    }
  }

  /** Builds the result text with a strings.Builder, as lines 91-106 do. */
  method BuildResultText(taskName: string, runErr: Option<string>, stdout: string, stderr: string)
    returns (text: string)
    ensures text == ResultText(taskName, runErr, stdout, stderr)
  {
    var result := new StringBuilder();
    if runErr.Some? {
      result.WriteString("Task '" + taskName + "' failed with error: " + runErr.value + "\n");
    } else {
      result.WriteString("Task '" + taskName + "' completed successfully.\n");
    }
    assert result.buf == StatusLine(taskName, runErr);
    if stdout != "" {
      result.WriteString(OutputHeader + stdout);
    }
    assert result.buf == StatusLine(taskName, runErr) + Section(OutputHeader, stdout);
    if stderr != "" {
      result.WriteString(ErrorsHeader + stderr);
    }
    text := result.buf;
  }

  // ---------------------------------------------------------------------------
  // The executor and the tool handler (createTaskHandler)
  // ---------------------------------------------------------------------------

  /** A go-task executor created with output capture (task.NewExecutor with
      WithStdout and WithStderr). go-task itself is an oracle: `setupErr` is
      what Setup reports, and `engine` what running a call reports. Running a
      call appends what the task printed to the capture buffers. The ghost log
      `calls` records every call the executor was asked to run. */
  class Executor {
    const setupErr: Option<string>
    const engine: TaskCall -> RunOutcome
    var stdout: string
    var stderr: string
    ghost var calls: seq<TaskCall>

    /** A new executor, with empty capture buffers, that has run nothing. */
    constructor (setupErr: Option<string>, engine: TaskCall -> RunOutcome)
      ensures this.setupErr == setupErr && this.engine == engine
      ensures stdout == "" && stderr == ""
      ensures calls == []
    {
      this.setupErr := setupErr;
      this.engine := engine;
      stdout, stderr := "", "";
      calls := [];
    }

    /** executor.Setup: loads the Taskfile; runs nothing. */
    method Setup() returns (err: Option<string>)
      ensures err == setupErr
    {
      err := setupErr;
    }

    /** executor.Run: runs one call, capturing its output. */
    method Run(call: TaskCall) returns (err: Option<string>)
      modifies this
      ensures calls == old(calls) + [call]
      ensures err == engine(call).err
      ensures stdout == old(stdout) + engine(call).stdout
      ensures stderr == old(stderr) + engine(call).stderr
    {
      var outcome := engine(call);
      stdout := stdout + outcome.stdout;
      stderr := stderr + outcome.stderr;
      calls := calls + [call];
      err := outcome.err;
    }
  }

  /** The handler bound to task `taskName`, called with arguments `args`. It
      creates its own executor from the go-task oracle (`setupErr`, `engine`)
      and hands it back, so that what the executor was asked to run can be
      stated; the handler's own error return is always nil. */
  method HandleCall(taskName: string, args: map<string, Value>, setupErr: Option<string>, engine: TaskCall -> RunOutcome)
    returns (result: CallToolResult, err: Option<string>, executor: Executor)
    ensures fresh(executor) && executor.setupErr == setupErr && executor.engine == engine
    ensures err == None
    ensures setupErr.Some? ==>
      && executor.calls == []
      && result == CallToolResult(SetupFailedText(taskName, setupErr.value), true)
    ensures setupErr.None? ==>
      && executor.calls == [TaskCall(taskName, StringArguments(args))]
      && var o := engine(executor.calls[0]);
         result == CallToolResult(ResultText(taskName, o.err, o.stdout, o.stderr), o.err.Some?)
  {
    var vars := BindArguments(args);

    executor := new Executor(setupErr, engine);
    var setupFailure := executor.Setup();
    if setupFailure.Some? {
      return CallToolResult("Task '" + taskName + "' setup failed: " + setupFailure.value, true), None, executor;
    }

    var call := TaskCall(taskName, vars);
    var runErr := executor.Run(call);
    ghost var outcome := engine(call);
    assert executor.stdout == outcome.stdout && executor.stderr == outcome.stderr;

    var text := BuildResultText(taskName, runErr, executor.stdout, executor.stderr);
    assert text == ResultText(taskName, outcome.err, outcome.stdout, outcome.stderr);
    if runErr.Some? {
      return CallToolResult(text, true), None, executor;
    }
    return CallToolResult(text, false), None, executor;
  }
}
