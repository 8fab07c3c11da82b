# Taskfile MCP server adapter, modelled in Dafny

The Taskfile MCP server exposes each task of a Taskfile (go-task) as a Model
Context Protocol tool. Loading the Taskfile and running tasks are done by
go-task. The protocol is handled by mcp-go. This project models the adapter
logic in `main.go` that sits between the two:

- **Tool-schema derivation** (`createToolForTask`). The tool description falls
  back to `"Execute task: <name>"`. Global variables are merged with the
  task's own variables, and the task's own win. Each merged variable becomes
  one string parameter described as `"Variable: N (default: D)"`.
- **Task registration** (`registerTasks`). It fails when the Taskfile has no
  task collection. Otherwise it registers one tool and one handler for every
  task whose name does not start with `:`.
- **Argument binding** (the handler, lines 52-60). Only string-valued call
  arguments become task variables.
- **Result assembly** (the handler, lines 74-112). It reports a setup failure,
  or builds the status line followed by the optional `Output` and `Errors`
  sections, and sets the result's error flag. It never returns a
  protocol-level error.

Files:

- `wrappers.dfy`: the `Option` type.
- `taskfile_server.dfy`: module `TaskfileServer`, the model of `main.go`.
- `scenarios.dfy`: module `Scenarios`. Its client methods are small concrete
  Taskfiles and calls, verified against the model's contracts.

How the model represents the source:

- A variable's value and a call argument's value are both `Value = Text(s) | Other`.
  `Other` covers numbers, lists, maps and the nil value of a dynamic `sh:` variable.
- Taskfile variable collections are `map<string, Value>`. A nil collection is
  the empty map, which is how the Go code's `!= nil && Len() > 0` guard behaves.
  A nil task collection is `None`.
- Go iterates over maps in an unspecified order. Every loop in the model picks
  its next key with `:|`, and every contract holds whatever order is picked.
  This is how the model shows that the tool schema and the set of registered
  tools do not depend on iteration order.
- The `toolOptions` slice is modelled as the parameter map it builds in the
  tool (`Tool.params`, from parameter name to description). Every parameter is
  an optional string, so the model records only its description.
- The mcp-go server is the class `McpServer`, a registry map from tool name to
  `(tool, handler)`. Its `AddTool` overwrites an entry of the same name, as
  mcp-go does. A handler closure is identified by the task it runs
  (`TaskHandler(name)`).
- `strings.Builder` is the class `StringBuilder`, with `WriteString` appending.
- The per-call executor is the class `Executor`. The handler creates a new
  one for every call, with empty stdout and stderr capture buffers. go-task
  itself is an oracle given to it: `setupErr` is what `Setup` reports, and
  `engine` maps a `TaskCall` (task name and variable bindings) to a
  `RunOutcome`, an optional error plus what the task prints to stdout and
  stderr. `Run` appends that output to the capture buffers. A ghost log
  `calls` records every call `Run` is given, so contracts can say which tasks
  were run. Go error values are opaque strings, standing for what `%v` prints.

Two details of the code that the model follows:

- The handler binds only the string-valued arguments (main.go:56-60). Merging
  them with the task's defaults happens inside go-task, outside the model.
- `registerTasks` fails only for a nil task collection (main.go:165). A non-nil
  empty collection succeeds and registers nothing.

## Model

| member | source | states |
|---|---|---|
| TaskfileServer.Merge | main.go:128-143 | The merged variable map has the union of the global and task-local keys. On a shared key the task-local value wins. Every other key keeps its global value. |
| TaskfileServer.ToolFor | main.go:117-160 | The derived tool is named after the task. Its description is the task's own when non-empty, and otherwise `"Execute task: " + name`. It has exactly one parameter per global or task-local variable, described as `"Variable: N (default: D)"` from the task-local value when there is one and from the global value otherwise. |
| TaskfileServer.DescriptionRoundTrip | main.go:146-156 | A parameter description can be parsed back: for variable N it yields the rendered default. That default is the string itself, or the empty string for a non-string value. |
| TaskfileServer.LocalDefaultWins | main.go:138-156 | When a variable is declared by the task, the tool has a parameter for it. The default read back from that parameter's description is the task's default, whatever the global one is. |
| TaskfileServer.Params | main.go:145-158 | One string parameter per merged variable, keyed by the variable's name and described by `ParamDescription`. It is a definition; `ToolFor` states its keys and descriptions. |
| TaskfileServer.CreateToolForTask | main.go:117-161 | Its three loops are proved against `ToolFor`: copy the globals, overlay the task's variables, add one parameter per merged variable. The result is the same for every map iteration order. |
| TaskfileServer.Registrations | main.go:169-184 | The registry entries have exactly the task names that do not start with `:` as keys. Each entry holds the tool derived for that task, whose name is the task name, and a handler bound to that task. |
| TaskfileServer.Registration | main.go:176-183 | The registry entry for one task: the tool derived by `ToolFor` and a handler bound to that task. It is a definition; `Registrations` and `RegisterTasks` state its properties. |
| TaskfileServer.McpServer.constructor | main.go:198-202 | A new server has an empty tool registry. |
| TaskfileServer.McpServer.AddTool | main.go:183 | Registering a tool sets the registry entry under the tool's name to that tool and handler, and leaves every other entry unchanged. |
| TaskfileServer.RegisterTasks | main.go:164-187 | It returns an error if and only if the task collection is nil, and in that case leaves the registry unchanged. Otherwise the registry gains exactly the `Registrations` of the tasks, whatever order they are visited in. |
| TaskfileServer.StringArguments | main.go:52-60 | The binding keys are a subset of the argument keys. An argument is bound if and only if its value is a string. A bound value is the argument's string, unchanged. |
| TaskfileServer.BindArguments | main.go:52-60 | Its loop over the arguments is proved to build exactly `StringArguments` of the call's arguments. |
| TaskfileServer.ResultTextLayout | main.go:91-106 | The result text starts with the status line. The `"\nOutput:\n"` section follows it if and only if stdout is non-empty. The `"\nErrors:\n"` section ends it if and only if stderr is non-empty. Its length accounts for nothing else. |
| TaskfileServer.SuccessReadableFromText | main.go:94-98 | The result text starts with the success status line if and only if the run returned no error, whatever the task printed. |
| TaskfileServer.FailureTextMentions | main.go:94-95 | After a failed run, the result text contains both the task name and the error text. |
| TaskfileServer.SetupFailureTextMentions | main.go:74-76 | The setup-failure text contains both the task name and the setup error. |
| TaskfileServer.ToolDescription | main.go:118-121 | The description is never empty. It is the task's own description when that is non-empty, and otherwise `"Execute task: " + name`. |
| TaskfileServer.DefaultText | main.go:147-150 | A variable's default is rendered as its string when the value is a string, and as the empty string otherwise. |
| TaskfileServer.ParamDescription | main.go:155 | The description of a parameter, `"Variable: N (default: D)"`. It is a definition; `DescriptionRoundTrip` states what can be read back from it. |
| TaskfileServer.IsInternal | main.go:172 | A task is internal exactly when its name is non-empty and its first character is `:` (`strings.HasPrefix(name, ":")`). |
| TaskfileServer.StatusLine | main.go:94-98 | The first line of the result text, for a failed or a successful run. It is a definition; `SuccessReadableFromText` and `FailureTextMentions` state its properties. |
| TaskfileServer.Section | main.go:100-106 | A section of captured output under its header, empty when the output is empty. It is a definition; `ResultTextLayout` states its properties. |
| TaskfileServer.ResultText | main.go:91-106 | The whole result text after a run: status line, Output section, Errors section. It is a definition; `ResultTextLayout`, `SuccessReadableFromText` and `FailureTextMentions` state its properties. |
| TaskfileServer.SetupFailedText | main.go:75 | The text `"Task '<name>' setup failed: <err>"`. It is a definition; `SetupFailureTextMentions` states its properties. |
| TaskfileServer.StringBuilder.constructor | main.go:92 | A new builder's contents are empty. |
| TaskfileServer.StringBuilder.WriteString | main.go:92-105 | Each write appends its text to the builder's contents and changes nothing else. |
| TaskfileServer.BuildResultText | main.go:91-106 | Its `strings.Builder` sequence of writes is proved to produce exactly `ResultText`: the status line, then the Output section, then the Errors section. |
| TaskfileServer.Executor.constructor | main.go:66-71 | A new executor has empty stdout and stderr buffers and has run nothing. |
| TaskfileServer.Executor.Setup | main.go:74 | Setup reports the oracle's setup error and runs no task. |
| TaskfileServer.Executor.Run | main.go:85 | Running a call adds exactly that call to the executor's log. It returns the engine's error for the call and appends the task's stdout and stderr to the capture buffers. |
| TaskfileServer.HandleCall | main.go:49-113 | The handler creates a fresh executor and never returns a protocol-level error. If setup fails, the executor runs nothing (its call log is empty) and the result is error-marked with text `"Task '<name>' setup failed: <err>"`. Otherwise the executor runs exactly one call, for the task with the string arguments as bindings. The result text is `ResultText` of that run's error and captured output, and it is error-marked if and only if the run returned an error. |

## Left out

- `NewTaskfileServer` (main.go:24-46) and the per-call `executor.Setup` (main.go:74) call `os.Getwd` and load the Taskfile through go-task, which is file I/O inside a library. The parsed Taskfile is an input of the model, and the setup error is an oracle value given to the executor.
- The go-task engine behind `executor.Run` (main.go:85) does dependency ordering, shell invocation and up-to-date checks. It is an oracle from the issued call to an optional error and the output the task prints. The executor's options `WithDir` and `WithSilent` (main.go:67-70) only affect that engine and are not modelled.
- `main` and `server.ServeStdio` (main.go:189-215) are MCP stdio transport, server lifecycle and `os.Exit`. They are not modelled. Of `server.NewMCPServer` (main.go:198-202) the model keeps only that a new server has an empty tool registry (the `McpServer` constructor); its name, version and capabilities are left out.
- Concurrent dispatch of handlers and the per-call `bytes.Buffer` isolation exist for concurrency. The model is sequential: each call gets its own outcome from the oracle.
- The request context and its cancellation are passed to `executor.Run` untouched. In the model, a cancelled run is a run outcome with an error.
- `fmt`'s `%v` rendering of Go error values is not modelled. An error is the string it prints.
- The rest of a tool's JSON schema (the `"string"` type and optionality of each parameter) is not modelled, because it is the same for every parameter. The model keeps each parameter's description.
- Go strings and the captured `bytes.Buffer` contents are byte strings and need not be valid UTF-8. The model's strings are sequences of characters. No proved property depends on the encoding.
- `request.GetArguments()` returns nil when the call's arguments are not a JSON object. The model takes the arguments as a map, so that case is the empty map.
- `mcp.NewTool` also sets default tool annotations. The model's `Tool` does not keep them.
