/** The Python port's slash commands: four handlers (`/exit`, `/help`,
    `/config`, `/toggle_logging`) that receive only `llm_config` and
    `logger`, and the use case that reads the first word of the command. */
module PyCommands {
  import opened Wrappers
  import opened CommandLine
  import Commands

  /** The pydantic `CommandResult`. */
  datatype PyCommandResult = PyCommandResult(message: string, shouldExit: bool)

  /** The typed `LLMConfig` model the Python CLI loads. */
  datatype PyLLMConfig = PyLLMConfig(model: string, temperature: real, maxTokens: int, apiKeyEnv: string)

  /** `str()` of the configuration's float and int fields. */
  datatype PyHost = PyHost(showFloat: real -> string, showInt: int -> string)

  /** Exceptions that escape `execute`. */
  datatype PyError = IndexError | TypeError

  const PyHelpMessage: string :=
    "Comandos disponíveis:\n/help - Mostrar esta mensagem de ajuda\n/exit - Sair do Xabiro\n" +
    "/config - Mostra a Config atual do Xabiro\n"
  const PyLoggerRequired: string := "Dependência 'logger' é obrigatória para o comando /toggle_logging."
  const PyConfigRequired: string := "Dependência 'llm_config' é obrigatória para o comando /status."

  datatype PyHandler = PyExit | PyHelp | PyConfig | PyToggleLogging

  /** `_available_deps`: the logger's flag and the configuration, either of
      which may be `None`. */
  datatype PyServices = PyServices(logging: Option<bool>, config: Option<PyLLMConfig>)

  /** A handler's outcome: the result it returns or the message of the
      `ValueError` it raises, and the services afterwards. */
  datatype PyOutcome = PyOutcome(result: Result<PyCommandResult, string>, after: PyServices)

  function PyHandleConfig(config: Option<PyLLMConfig>, host: PyHost): (r: Result<PyCommandResult, string>)
    ensures r.Err? <==> config.None?
    ensures r.Ok? ==> !r.value.shouldExit
  {
    if config.None? then Err(PyConfigRequired)
    else
      var c := config.value;
      Ok(PyCommandResult(Commands.ConfigMessage(c.model, host.showFloat(c.temperature), host.showInt(c.maxTokens)), false))
  }

  /** `handle_toggle_logging` on the logger's flag. */
  function PyToggleLoggingOutcome(logging: Option<bool>): (o: (Result<PyCommandResult, string>, Option<bool>))
    ensures logging.None? ==> o == (Err(PyLoggerRequired), None)
    ensures logging.Some? ==> o.1 == Some(!logging.value) && o.0 == Ok(PyCommandResult(Commands.LoggingStatus(!logging.value), false))
  {
    if logging.None? then (Err(PyLoggerRequired), None)
    else (Ok(PyCommandResult(Commands.LoggingStatus(!logging.value), false)), Some(!logging.value))
  }

  function PyHandle(h: PyHandler, s: PyServices, host: PyHost): PyOutcome {
    match h
    case PyExit => PyOutcome(Ok(PyCommandResult(Commands.ExitMessage, true)), s)
    case PyHelp => PyOutcome(Ok(PyCommandResult(PyHelpMessage, false)), s)
    case PyConfig => PyOutcome(PyHandleConfig(s.config, host), s)
    case PyToggleLogging =>
      var o := PyToggleLoggingOutcome(s.logging);
      PyOutcome(o.0, s.(logging := o.1))
  }

  /** `handle_exit` is the only handler that ends the session. */
  lemma PyOnlyExitStops(h: PyHandler, s: PyServices, host: PyHost)
    ensures PyHandle(h, s, host).result.Ok? && PyHandle(h, s, host).result.value.shouldExit <==> h == PyExit
  {
  }

  /** A handler raises exactly when the dependency it needs is `None`, and
      then it has changed nothing; only `/toggle_logging` changes anything. */
  lemma PyRaisesIffDependencyMissing(h: PyHandler, s: PyServices, host: PyHost)
    ensures PyHandle(h, s, host).result.Err? <==>
      (h == PyConfig && s.config.None?) || (h == PyToggleLogging && s.logging.None?)
    ensures PyHandle(h, s, host).result.Err? || h != PyToggleLogging ==> PyHandle(h, s, host).after == s
  {
  }

  /** Toggling twice restores the logger. */
  lemma PyToggleTwiceRestores(s: PyServices, host: PyHost)
    requires s.logging.Some?
    ensures PyHandle(PyToggleLogging, PyHandle(PyToggleLogging, s, host).after, host).after == s
    ensures PyHandle(PyToggleLogging, s, host).after.logging == Some(!s.logging.value)
  {
  }

  function LoggerObject(logger: Option<Commands.Logger>): set<object> {
    if logger.Some? then {logger.value} else {}
  }

  function LoggingOf(logger: Option<Commands.Logger>): Option<bool>
    reads LoggerObject(logger)
  {
    if logger.Some? then Some(logger.value.enabled) else None
  }

  /** `handle_toggle_logging(logger=...)`, on the logger object. */
  method PyHandleToggleLogging(logger: Option<Commands.Logger>) returns (r: Result<PyCommandResult, string>)
    modifies LoggerObject(logger)
    ensures (r, LoggingOf(logger)) == PyToggleLoggingOutcome(old(LoggingOf(logger)))
  {
    if logger.None? {
      return Err(PyLoggerRequired);
    }
    logger.value.enabled := !logger.value.enabled;
    var status := Commands.LoggingStatus(logger.value.enabled);
    r := Ok(PyCommandResult(status, false));
  }

  /** What `execute` returns or raises, and the services afterwards. The
      use case is built with a logger, which it writes to and hands to the
      handlers, so its services always hold one. */
  datatype PyExecution = PyExecution(result: Result<PyCommandResult, PyError>, after: PyServices)

  /** `execute` as written: the unknown-command and error paths both build
      their reply with `CommandHandler(...)`, which is the alias
      `Callable[..., CommandResult]`; calling it raises `TypeError`, so
      neither path returns a result. */
  function ExecuteAsWritten(registry: map<string, PyHandler>, command: string, s: PyServices, host: PyHost): (e: PyExecution)
    requires s.logging.Some?
    ensures PyCommandName(command).None? ==> e == PyExecution(Err(IndexError), s)
  {
    var name := PyCommandName(command);
    if name.None? then PyExecution(Err(IndexError), s)
    else if name.value !in registry then PyExecution(Err(TypeError), s)
    else
      var o := PyHandle(registry[name.value], s, host);
      if o.result.Ok? then PyExecution(Ok(o.result.value), o.after)
      else PyExecution(Err(TypeError), o.after)
  }

  /** The as-written use case raises `TypeError` for every unknown command
      name, where a "Comando desconhecido" reply was meant. */
  lemma UnknownCommandRaises(registry: map<string, PyHandler>, command: string, s: PyServices, host: PyHost)
    requires s.logging.Some?
    requires PyCommandName(command).Some? && PyCommandName(command).value !in registry
    ensures ExecuteAsWritten(registry, command, s, host) == PyExecution(Err(TypeError), s)
  {
  }

  /** For instance `/status`, which the shipped registry does not have. */
  lemma StatusCommandRaises(s: PyServices, host: PyHost)
    requires s.logging.Some?
    ensures ExecuteAsWritten(Registry(), "/status", s, host).result == Err(TypeError)
  {
    StatusIsUnknown();
    UnknownCommandRaises(Registry(), "/status", s, host);
  }

  lemma StatusIsUnknown()
    ensures PyCommandName("/status") == Some("/status")
    ensures "/status" !in Registry()
  {
    StatusIsOneWord();
    var w := "/status";
    assert w[1] != "/config"[1];
    assert Registry().Keys == {"/exit", "/config", "/help", "/toggle_logging"};
  }

  lemma StatusIsOneWord()
    ensures PyCommandName("/status") == Some("/status")
  {
    var w := "/status";
    assert forall j :: 0 <= j < |w| ==> !IsPySpace(w[j]);
    PyNameOfWord(w, "");
    assert w + "" == w;
  }

  /** The registry of the Python CLI. */
  function Registry(): map<string, PyHandler> {
    map["/exit" := PyExit, "/config" := PyConfig, "/help" := PyHelp, "/toggle_logging" := PyToggleLogging]
  }

  /** `execute` with the replies built as the `CommandResult`s they were
      meant to be: an unknown name and a raised error both become messages
      that do not end the session; an empty command still raises `IndexError`. */
  function Execute(registry: map<string, PyHandler>, command: string, s: PyServices, host: PyHost): (e: PyExecution)
    requires s.logging.Some?
    ensures e.result.Err? <==> PyCommandName(command).None?
    ensures e.result.Err? ==> e == PyExecution(Err(IndexError), s)
    ensures PyCommandName(command).Some? && PyCommandName(command).value !in registry ==>
      e == PyExecution(Ok(PyCommandResult(Commands.UnknownCommand(PyCommandName(command).value), false)), s)
    ensures PyCommandName(command).Some? && PyCommandName(command).value in registry ==>
      var o := PyHandle(registry[PyCommandName(command).value], s, host);
      && e.after == o.after
      && (o.result.Ok? ==> e.result == Ok(o.result.value))
      && (o.result.Err? ==> e.result == Ok(PyCommandResult(Commands.CommandFailed(PyCommandName(command).value, o.result.error), false)))
  {
    var name := PyCommandName(command);
    if name.None? then PyExecution(Err(IndexError), s)
    else if name.value !in registry then PyExecution(Ok(PyCommandResult(Commands.UnknownCommand(name.value), false)), s)
    else
      var o := PyHandle(registry[name.value], s, host);
      match o.result
      case Ok(r) => PyExecution(Ok(r), o.after)
      case Err(message) => PyExecution(Ok(PyCommandResult(Commands.CommandFailed(name.value, message), false)), o.after)
  }

  /** An empty or blank command raises `IndexError` in both versions: the
      word list is indexed before the `try`. */
  lemma BlankCommandRaises(registry: map<string, PyHandler>, command: string, s: PyServices, host: PyHost)
    requires s.logging.Some?
    ensures Execute(registry, command, s, host).result == Err(IndexError) <==>
      forall j :: 0 <= j < |command| ==> IsPySpace(command[j])
    ensures ExecuteAsWritten(registry, command, s, host).result == Err(IndexError) <==>
      forall j :: 0 <= j < |command| ==> IsPySpace(command[j])
  {
    var name := PyCommandName(command);
    assert Execute(registry, command, s, host).result == Err(IndexError) <==> name.None?;
    assert ExecuteAsWritten(registry, command, s, host).result == Err(IndexError) <==> name.None?;
    PyNoNameIffBlank(command);
  }

  /** Where the as-written use case returns at all, it returns what the
      intended one does. */
  lemma AsWrittenAgreesWhenItReturns(registry: map<string, PyHandler>, command: string, s: PyServices, host: PyHost)
    requires s.logging.Some?
    requires ExecuteAsWritten(registry, command, s, host).result.Ok?
    ensures ExecuteAsWritten(registry, command, s, host) == Execute(registry, command, s, host)
  {
  }

  /** Arguments are ignored: only the first word decides the outcome. */
  lemma ArgumentsIgnored(registry: map<string, PyHandler>, c1: string, c2: string, s: PyServices, host: PyHost)
    requires s.logging.Some?
    requires PyCommandName(c1) == PyCommandName(c2)
    ensures Execute(registry, c1, s, host) == Execute(registry, c2, s, host)
  {
  }

  /** The session ends exactly on a command whose first word is registered
      to `handle_exit`. */
  lemma ExecuteStopsOnlyOnExit(registry: map<string, PyHandler>, command: string, s: PyServices, host: PyHost)
    requires s.logging.Some?
    ensures Execute(registry, command, s, host).result.Ok? && Execute(registry, command, s, host).result.value.shouldExit <==>
      PyCommandName(command).Some? && PyCommandName(command).value in registry && registry[PyCommandName(command).value] == PyExit
  {
    var name := PyCommandName(command);
    if name.Some? && name.value in registry {
      PyOnlyExitStops(registry[name.value], s, host);
    }
  }
}
