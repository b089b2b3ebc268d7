/** The tool use cases of the three generations: look the tool up, hand it
    a copy of the caller's arguments with `working_directory` set, and pass
    its result or its error straight back. */
module Tools {
  import opened Wrappers
  import opened Json

  /** A registered tool; what it does is its own business. */
  datatype Tool = Tool(id: nat)

  /** A tool's `execute`: the string it resolves to, or the message of the
      error it throws. */
  type Runner = (Tool, map<string, Json>) -> Result<string, string>

  const WorkingDirectoryKey: string := "working_directory"

  function NotFound(toolName: string): string {
    "Tool '" + toolName + "' not found."
  }

  /** `{ ...args }` followed by `argumentsCopy.working_directory = directory`
      (and `arguments.copy()` with the same assignment): every key of the
      caller's arguments is kept, except that `working_directory` is the
      given directory whatever the caller put there. */
  function WithWorkingDirectory(args: map<string, Json>, directory: string): (copy: map<string, Json>)
    ensures copy.Keys == args.Keys + {WorkingDirectoryKey}
    ensures copy[WorkingDirectoryKey] == JString(directory)
    ensures forall k :: k in args && k != WorkingDirectoryKey ==> copy[k] == args[k]
  {
    args[WorkingDirectoryKey := JString(directory)]
  }

  /** The caller cannot influence the directory a tool sees: two argument
      maps that differ only in `working_directory` give the tool the same copy. */
  lemma CallerDirectoryOverridden(a: map<string, Json>, b: map<string, Json>, directory: string)
    requires a.Keys - {WorkingDirectoryKey} == b.Keys - {WorkingDirectoryKey}
    requires forall k :: k in a && k in b && k != WorkingDirectoryKey ==> a[k] == b[k]
    ensures WithWorkingDirectory(a, directory) == WithWorkingDirectory(b, directory)
  {
    var x := WithWorkingDirectory(a, directory);
    var y := WithWorkingDirectory(b, directory);
    assert a.Keys + {WorkingDirectoryKey} == (a.Keys - {WorkingDirectoryKey}) + {WorkingDirectoryKey};
    assert b.Keys + {WorkingDirectoryKey} == (b.Keys - {WorkingDirectoryKey}) + {WorkingDirectoryKey};
    assert x.Keys == y.Keys;
    forall k | k in x
      ensures x[k] == y[k]
    {
      if k != WorkingDirectoryKey {
        assert k in a && k in b;
      }
    }
  }

  /** Injecting the directory is idempotent, and a later injection wins. */
  lemma InjectTwice(args: map<string, Json>, first: string, second: string)
    ensures WithWorkingDirectory(WithWorkingDirectory(args, first), second) == WithWorkingDirectory(args, second)
  {
    var x := WithWorkingDirectory(WithWorkingDirectory(args, first), second);
    var y := WithWorkingDirectory(args, second);
    assert x.Keys == y.Keys;
  }

  /** `ExecuteToolUseCase.execute` of the newer generation, with the
      manager's current directory: an unregistered name is an error, a
      registered tool runs on the injected copy, and its result or error is
      returned as it is. */
  function ExecuteTool(tools: map<string, Tool>, toolName: string, args: map<string, Json>,
                       workingDirectory: string, run: Runner): (r: Result<string, string>)
    ensures toolName !in tools ==> r == Err(NotFound(toolName))
    ensures toolName in tools ==> r == run(tools[toolName], WithWorkingDirectory(args, workingDirectory))
  {
    if toolName !in tools then Err(NotFound(toolName))
    else run(tools[toolName], WithWorkingDirectory(args, workingDirectory))
  }

  /** The older generation's use case, built with a fixed directory. */
  datatype ToolUseCase = ToolUseCase(tools: map<string, Tool>, workingDirectory: string)

  function DomainExecuteTool(u: ToolUseCase, toolName: string, args: map<string, Json>, run: Runner): (r: Result<string, string>)
    ensures toolName !in u.tools ==> r == Err(NotFound(toolName))
    ensures toolName in u.tools ==> r == run(u.tools[toolName], WithWorkingDirectory(args, u.workingDirectory))
  {
    if toolName !in u.tools then Err(NotFound(toolName))
    else run(u.tools[toolName], WithWorkingDirectory(args, u.workingDirectory))
  }

  /** The two TypeScript generations agree whenever the manager's directory
      is the one the older use case was built with. */
  lemma GenerationsAgree(u: ToolUseCase, toolName: string, args: map<string, Json>, run: Runner)
    ensures DomainExecuteTool(u, toolName, args, run) == ExecuteTool(u.tools, toolName, args, u.workingDirectory, run)
  {
  }

  /** `self._tools.get(tool_name)`, where a registered value may be `None`
      (or another falsy value), which counts as not found. */
  function PyExecuteTool(tools: map<string, Option<Tool>>, toolName: string, args: map<string, Json>,
                         workingDirectory: string, run: Runner): (r: Result<string, string>)
    ensures toolName !in tools || tools[toolName].None? ==> r == Err(NotFound(toolName))
    ensures toolName in tools && tools[toolName].Some? ==>
      r == run(tools[toolName].value, WithWorkingDirectory(args, workingDirectory))
  {
    var tool := if toolName in tools then tools[toolName] else None;
    if tool.None? then Err(NotFound(toolName))
    else run(tool.value, WithWorkingDirectory(args, workingDirectory))
  }

  /** The registered, truthy tools of a Python registry. */
  function Truthful(tools: map<string, Option<Tool>>): (m: map<string, Tool>)
    ensures forall k :: k in m <==> k in tools && tools[k].Some?
    ensures forall k :: k in m ==> m[k] == tools[k].value
  {
    map k | k in tools && tools[k].Some? :: tools[k].value
  }

  /** The Python port behaves like the TypeScript use case on its truthy
      tools, with the same not-found message. */
  lemma PythonAgrees(tools: map<string, Option<Tool>>, toolName: string, args: map<string, Json>,
                     workingDirectory: string, run: Runner)
    ensures PyExecuteTool(tools, toolName, args, workingDirectory, run) ==
      ExecuteTool(Truthful(tools), toolName, args, workingDirectory, run)
  {
  }
}
