/** The CLI's slash commands in the two TypeScript generations: the five
    handlers (`/exit`, `/help`, `/config`, `/toggle_logging`, `/cd`), the
    dependencies they read and change, and the use case that parses a
    command line, looks its name up and turns failures into messages. */
module Commands {
  import opened Wrappers
  import opened Json
  import opened CommandLine
  import Config

  datatype CommandAction = CommandAction(kind: string, payload: string)

  datatype CommandResult = CommandResult(message: string, shouldExit: bool, action: Option<CommandAction>)

  /** `createCommandResult(message, shouldExit)`, without an action. */
  function Reply(message: string, shouldExit: bool): CommandResult {
    CommandResult(message, shouldExit, None)
  }

  const ExitMessage: string := "Até mais! Xabiro encerrado."
  const HelpMessage: string :=
    "Comandos disponíveis:\n/help - Mostrar esta mensagem de ajuda\n/exit - Sair do Xabiro\n" +
    "/config - Mostra a Config atual do Xabiro\n/toggle_logging - Ativar/Desativar logging\n" +
    "/cd <diretório> - Alterar o diretório de trabalho do Xabiro"
  const WorkingDirectoryRequired: string := "Dependency 'workingDirectoryManager' is required for the /cd command."
  const LoggerRequired: string := "Dependency 'logger' is required for the /toggle_logging command."
  const ConfigRequired: string := "Dependency 'llmConfig' is required for the /config command."
  const DirectoryArgumentRequired: string := "Erro: O argumento 'new_directory' é obrigatório para o comando /cd."

  function DirectoryChanged(directory: string): string {
    "Diretório de trabalho alterado para: " + directory
  }

  /** The message `setDirectory` throws for a path that is not a directory. */
  function NoSuchDirectory(directory: string): string {
    "Directory does not exist: " + directory
  }

  function LoggingStatus(enabled: bool): string {
    if enabled then "Logging ativado." else "Logging desativado."
  }

  /** The `/config` text, given the three values as the language renders them. */
  function ConfigMessage(model: string, temperature: string, maxTokens: string): string {
    "Config atual do Xabiro:\n  Modelo: " + model + "\n  Temperatura: " + temperature + "\n  Max Tokens: " + maxTokens
  }

  function UnknownCommand(name: string): string {
    "Comando desconhecido: " + name + ". Digite /help para ver os comandos disponíveis."
  }

  function CommandFailed(name: string, message: string): string {
    "Erro ao executar o comando " + name + ": " + message
  }

  /** What the process supplies: `path.resolve` and the string a template
      literal makes of a configuration value. */
  datatype Host = Host(resolve: string -> string, show: Option<Json> -> string)

  /** The working directory and the directories that exist on disk. */
  datatype Directory = Directory(current: string, directories: set<string>)

  /** The state the handlers may read or change: the logger's `enabled`
      flag, the LLM configuration and the working directory, each of which
      a caller may leave out. */
  datatype Services = Services(logging: Option<bool>, config: Option<Config.LLMConfig>, directory: Option<Directory>)

  /** A handler's outcome: the result it returns, or the message of the
      error it throws, and the services afterwards. */
  datatype Outcome = Outcome(result: Result<CommandResult, string>, after: Services)

  datatype Handler = Exit | Help | ShowConfig | ToggleLogging | ChangeDirectory

  function HandleExit(): (r: CommandResult) {
    Reply(ExitMessage, true)
  }

  function HandleHelp(): (r: CommandResult) {
    Reply(HelpMessage, false)
  }

  /** `handleConfig`: throws without a configuration, and otherwise shows
      its model, temperature and token limit. */
  function HandleConfig(config: Option<Config.LLMConfig>, show: Option<Json> -> string): (r: Result<CommandResult, string>)
    ensures r.Err? <==> config.None?
    ensures r.Ok? ==> !r.value.shouldExit && r.value.action.None?
  {
    if config.None? then Err(ConfigRequired)
    else
      var c := config.value;
      Ok(Reply(ConfigMessage(show(Some(c.model)), show(c.temperature), show(c.maxTokens)), false))
  }

  /** `handleToggleLogging` on the logger's flag: without a logger it throws
      and changes nothing; otherwise the flag flips and the message names
      the new state. */
  function ToggleLoggingOutcome(logging: Option<bool>): (o: (Result<CommandResult, string>, Option<bool>))
    ensures logging.None? ==> o == (Err(LoggerRequired), None)
    ensures logging.Some? ==> o.1 == Some(!logging.value) && o.0 == Ok(Reply(LoggingStatus(!logging.value), false))
  {
    if logging.None? then (Err(LoggerRequired), None)
    else (Ok(Reply(LoggingStatus(!logging.value), false)), Some(!logging.value))
  }

  /** `handleChangeWorkingDirectory` on the working directory: the manager
      must be there; a missing or empty argument is answered without
      touching the directory; otherwise the resolved path becomes the
      working directory if it exists, and the error from `setDirectory`
      becomes the message if it does not. */
  function ChangeDirectoryOutcome(arguments: Option<string>, directory: Option<Directory>, resolve: string -> string)
    : (o: (Result<CommandResult, string>, Option<Directory>))
    ensures directory.None? <==> o.0.Err?
    ensures directory.None? ==> o == (Err(WorkingDirectoryRequired), None)
    ensures o.0.Ok? ==> !o.0.value.shouldExit && o.0.value.action.None?
    ensures arguments.None? || arguments == Some("") ==> o.1 == directory
    ensures o.1 != directory ==>
      && arguments.Some? && arguments.value != ""
      && o.1 == Some(directory.value.(current := resolve(arguments.value)))
      && resolve(arguments.value) in directory.value.directories
      && o.0 == Ok(Reply(DirectoryChanged(resolve(arguments.value)), false))
  {
    if directory.None? then (Err(WorkingDirectoryRequired), None)
    else if arguments.None? || arguments.value == "" then (Ok(Reply(DirectoryArgumentRequired, false)), directory)
    else
      var absolute := resolve(arguments.value);
      if absolute in directory.value.directories then
        (Ok(Reply(DirectoryChanged(absolute), false)), Some(directory.value.(current := absolute)))
      else
        (Ok(Reply(NoSuchDirectory(absolute), false)), directory)
  }

  /** Calling a registered handler with the command's arguments and the services. */
  function Handle(h: Handler, arguments: Option<string>, s: Services, host: Host): Outcome {
    match h
    case Exit => Outcome(Ok(HandleExit()), s)
    case Help => Outcome(Ok(HandleHelp()), s)
    case ShowConfig => Outcome(HandleConfig(s.config, host.show), s)
    case ToggleLogging =>
      var o := ToggleLoggingOutcome(s.logging);
      Outcome(o.0, s.(logging := o.1))
    case ChangeDirectory =>
      var o := ChangeDirectoryOutcome(arguments, s.directory, host.resolve);
      Outcome(o.0, s.(directory := o.1))
  }

  /** Only `/exit` asks the CLI to stop. */
  lemma OnlyExitStops(h: Handler, arguments: Option<string>, s: Services, host: Host)
    ensures Handle(h, arguments, s, host).result.Ok? && Handle(h, arguments, s, host).result.value.shouldExit <==> h == Exit
  {
  }

  /** The dependency a handler needs. */
  predicate MissingDependency(h: Handler, s: Services) {
    || (h == ShowConfig && s.config.None?)
    || (h == ToggleLogging && s.logging.None?)
    || (h == ChangeDirectory && s.directory.None?)
  }

  /** A handler throws exactly when its dependency is missing, and then it
      has changed nothing. */
  lemma ThrowsIffDependencyMissing(h: Handler, arguments: Option<string>, s: Services, host: Host)
    ensures Handle(h, arguments, s, host).result.Err? <==> MissingDependency(h, s)
    ensures Handle(h, arguments, s, host).result.Err? ==> Handle(h, arguments, s, host).after == s
  {
  }

  /** What each handler may change: the configuration never changes, only
      `/toggle_logging` touches the logger and only `/cd` the working
      directory, which it only ever moves to a directory that exists. */
  lemma HandlerFrame(h: Handler, arguments: Option<string>, s: Services, host: Host)
    ensures Handle(h, arguments, s, host).after.config == s.config
    ensures h != ToggleLogging ==> Handle(h, arguments, s, host).after.logging == s.logging
    ensures h != ChangeDirectory ==> Handle(h, arguments, s, host).after.directory == s.directory
    ensures
      var d := Handle(h, arguments, s, host).after.directory;
      d != s.directory ==> d.Some? && s.directory.Some? && d.value.directories == s.directory.value.directories && d.value.current in d.value.directories
  {
  }

  /** Toggling twice puts the logger back as it was, and the two messages
      name opposite states. */
  lemma ToggleTwiceRestores(arguments: Option<string>, s: Services, host: Host)
    requires s.logging.Some?
    ensures
      var once := Handle(ToggleLogging, arguments, s, host);
      var twice := Handle(ToggleLogging, arguments, once.after, host);
      && twice.after == s
      && once.result == Ok(Reply(LoggingStatus(!s.logging.value), false))
      && twice.result == Ok(Reply(LoggingStatus(s.logging.value), false))
  {
  }

  /** `/cd` without an argument answers with the argument error and leaves
      the working directory alone. */
  lemma ChangeDirectoryNeedsArgument(arguments: Option<string>, s: Services, host: Host)
    requires s.directory.Some?
    requires arguments.None? || arguments == Some("")
    ensures Handle(ChangeDirectory, arguments, s, host) == Outcome(Ok(Reply(DirectoryArgumentRequired, false)), s)
  {
  }

  /** `CommandUseCase.execute` in the older generation: split, look up, call
      the handler, and turn an unknown name or a thrown error into a
      message that does not stop the CLI. The use case is built with a
      logger, which it writes to on every path and hands to the handlers. */
  datatype Execution = Execution(result: CommandResult, after: Services)

  function DomainExecute(registry: map<string, Handler>, command: string, s: Services, host: Host): (e: Execution)
    requires s.logging.Some?
    ensures SplitCommand(command).name !in registry ==>
      e == Execution(Reply(UnknownCommand(SplitCommand(command).name), false), s)
    ensures SplitCommand(command).name in registry ==>
      var o := Handle(registry[SplitCommand(command).name], Some(SplitCommand(command).arguments), s, host);
      && e.after == o.after
      && (o.result.Ok? ==> e.result == o.result.value)
      && (o.result.Err? ==> e.result == Reply(CommandFailed(SplitCommand(command).name, o.result.error), false))
  {
    var p := SplitCommand(command);
    if p.name !in registry then Execution(Reply(UnknownCommand(p.name), false), s)
    else
      var o := Handle(registry[p.name], Some(p.arguments), s, host);
      match o.result
      case Ok(r) => Execution(r, o.after)
      case Err(message) => Execution(Reply(CommandFailed(p.name, message), false), o.after)
  }

  /** A command line stops the CLI exactly when its name is registered to `/exit`'s handler. */
  lemma ExecuteStopsOnlyOnExit(registry: map<string, Handler>, command: string, s: Services, host: Host)
    requires s.logging.Some?
    ensures DomainExecute(registry, command, s, host).result.shouldExit <==>
      SplitCommand(command).name in registry && registry[SplitCommand(command).name] == Exit
  {
    var p := SplitCommand(command);
    if p.name in registry {
      OnlyExitStops(registry[p.name], Some(p.arguments), s, host);
    }
  }

  /** Whatever goes wrong, the services are changed only by a handler that
      returned normally: an unknown name or a thrown error leaves them as
      they were. */
  lemma ExecuteFailureChangesNothing(registry: map<string, Handler>, command: string, s: Services, host: Host)
    requires s.logging.Some?
    requires
      var p := SplitCommand(command);
      p.name !in registry || Handle(registry[p.name], Some(p.arguments), s, host).result.Err?
    ensures DomainExecute(registry, command, s, host).after == s
    ensures !DomainExecute(registry, command, s, host).result.shouldExit
  {
    var p := SplitCommand(command);
    if p.name in registry {
      ThrowsIffDependencyMissing(registry[p.name], Some(p.arguments), s, host);
    }
  }

  /** `/cd <dir>` reaches the handler with exactly `<dir>` as its argument. */
  lemma ExecuteChangeDirectory(registry: map<string, Handler>, directory: string, s: Services, host: Host)
    requires s.logging.Some?
    requires "/cd" in registry && registry["/cd"] == ChangeDirectory
    requires directory != [] && !JsText.IsJsSpace(directory[0]) && !JsText.IsJsSpace(directory[|directory| - 1])
    requires forall j :: 0 <= j < |directory| ==> !IsLineTerminator(directory[j])
    ensures DomainExecute(registry, "/cd " + directory, s, host).after ==
      Handle(ChangeDirectory, Some(directory), s, host).after
  {
    SplitChangeDirectory(directory);
  }

  lemma SplitChangeDirectory(directory: string)
    requires directory != [] && !JsText.IsJsSpace(directory[0]) && !JsText.IsJsSpace(directory[|directory| - 1])
    requires forall j :: 0 <= j < |directory| ==> !IsLineTerminator(directory[j])
    ensures SplitCommand("/cd " + directory) == ParsedCommand("/cd", directory)
  {
    var name := "/cd";
    assert name[0] == '/' && name[1] == 'c' && name[2] == 'd';
    SplitJoined(name, directory);
    assert "/cd " + directory == name + " " + directory;
  }

  /** The process's logger. */
  class Logger {
    var enabled: bool

    constructor(enabled: bool)
      ensures this.enabled == enabled
    {
      this.enabled := enabled;
    }
  }

  /** The working-directory manager; which directories exist on disk is
      fixed for the lifetime of the model. */
  class WorkingDirectoryManager {
    var workingDirectory: string
    const directories: set<string>

    constructor(workingDirectory: string, directories: set<string>)
      ensures this.workingDirectory == workingDirectory && this.directories == directories
    {
      this.workingDirectory := workingDirectory;
      this.directories := directories;
    }

    /** `setDirectory`: moves to an existing directory, and otherwise throws
      (the error's message is returned) and stays where it was. */
    method SetDirectory(directory: string) returns (error: Option<string>)
      modifies this
      ensures error.None? <==> directory in directories
      ensures error.Some? ==> error.value == NoSuchDirectory(directory) && workingDirectory == old(workingDirectory)
      ensures error.None? ==> workingDirectory == directory
    {
      if directory in directories {
        workingDirectory := directory;
        error := None;
      } else {
        error := Some(NoSuchDirectory(directory));
      }
    }
  }

  /** `CommandHandlerArgs`: every field may be left out. */
  datatype HandlerArgs = HandlerArgs(
    commandArguments: Option<string>,
    logger: Option<Logger>,
    llmConfig: Option<Config.LLMConfig>,
    workingDirectoryManager: Option<WorkingDirectoryManager>)

  function LoggerObject(args: HandlerArgs): set<object> {
    if args.logger.Some? then {args.logger.value} else {}
  }

  function DirectoryObject(args: HandlerArgs): set<object> {
    if args.workingDirectoryManager.Some? then {args.workingDirectoryManager.value} else {}
  }

  /** The services a handler sees through its arguments. */
  function ServicesOf(args: HandlerArgs): Services
    reads LoggerObject(args), DirectoryObject(args)
  {
    Services(
      if args.logger.Some? then Some(args.logger.value.enabled) else None,
      args.llmConfig,
      if args.workingDirectoryManager.Some? then
        var m := args.workingDirectoryManager.value;
        Some(Directory(m.workingDirectory, m.directories))
      else None)
  }

  /** `handleToggleLogging`, on the logger object. */
  method HandleToggleLogging(args: HandlerArgs) returns (r: Result<CommandResult, string>)
    modifies LoggerObject(args)
    ensures (r, ServicesOf(args).logging) == ToggleLoggingOutcome(old(ServicesOf(args)).logging)
  {
    if args.logger.None? {
      return Err(LoggerRequired);
    }
    var logger := args.logger.value;
    logger.enabled := !logger.enabled;
    r := Ok(Reply(LoggingStatus(logger.enabled), false));
  }

  /** `handleChangeWorkingDirectory`, on the manager object. */
  method HandleChangeWorkingDirectory(args: HandlerArgs, resolve: string -> string) returns (r: Result<CommandResult, string>)
    modifies DirectoryObject(args)
    ensures (r, ServicesOf(args).directory) ==
      ChangeDirectoryOutcome(args.commandArguments, old(ServicesOf(args)).directory, resolve)
  {
    if args.workingDirectoryManager.None? {
      return Err(WorkingDirectoryRequired);
    }
    var manager := args.workingDirectoryManager.value;
    if args.commandArguments.None? || args.commandArguments.value == "" {
      return Ok(Reply(DirectoryArgumentRequired, false));
    }
    var absolute := resolve(args.commandArguments.value);
    var error := manager.SetDirectory(absolute);
    if error.Some? {
      r := Ok(Reply(error.value, false));
    } else {
      r := Ok(Reply(DirectoryChanged(absolute), false));
    }
  }

  /** `handlerFunc(args)` for a registered handler. */
  method RunHandler(h: Handler, args: HandlerArgs, host: Host) returns (r: Result<CommandResult, string>)
    modifies LoggerObject(args), DirectoryObject(args)
    ensures Outcome(r, ServicesOf(args)) == Handle(h, args.commandArguments, old(ServicesOf(args)), host)
  {
    match h
    case Exit => r := Ok(HandleExit());
    case Help => r := Ok(HandleHelp());
    case ShowConfig => r := HandleConfig(args.llmConfig, host.show);
    case ToggleLogging => r := HandleToggleLogging(args);
    case ChangeDirectory => r := HandleChangeWorkingDirectory(args, host.resolve);
  }

  /** The `setModel` side of the LLM repository port: the models it has
      been asked to switch to, in order. */
  class ModelSwitch {
    var requested: seq<string>

    constructor()
      ensures requested == []
    {
      requested := [];
    }

    method SetModel(model: string)
      modifies this
      ensures requested == old(requested) + [model]
    {
      requested := requested + [model];
    }
  }

  /** The `setModel` calls an action asks for. */
  function ModelRequests(action: Option<CommandAction>): (calls: seq<string>)
    ensures |calls| <= 1
    ensures calls != [] <==> action.Some? && action.value.kind == "set_model"
    ensures calls != [] ==> calls[0] == action.value.payload
  {
    if action.Some? && action.value.kind == "set_model" then [action.value.payload] else []
  }

  /** `CommandUseCase` of the newer generation, with the dependencies it
      was built with. */
  class CommandUseCase {
    const registry: map<string, Handler>
    const llmConfig: Config.LLMConfig
    const logger: Logger
    const workingDirectoryManager: WorkingDirectoryManager
    const llmRepository: ModelSwitch
    const host: Host

    function State(): Services
      reads logger, workingDirectoryManager
    {
      Services(Some(logger.enabled), Some(llmConfig),
        Some(Directory(workingDirectoryManager.workingDirectory, workingDirectoryManager.directories)))
    }

    constructor(registry: map<string, Handler>, llmConfig: Config.LLMConfig, logger: Logger,
                workingDirectoryManager: WorkingDirectoryManager, llmRepository: ModelSwitch, host: Host)
      ensures this.registry == registry && this.llmConfig == llmConfig && this.logger == logger
      ensures this.workingDirectoryManager == workingDirectoryManager && this.llmRepository == llmRepository
      ensures this.host == host
    {
      this.registry := registry;
      this.llmConfig := llmConfig;
      this.logger := logger;
      this.workingDirectoryManager := workingDirectoryManager;
      this.llmRepository := llmRepository;
      this.host := host;
    }

    /** `execute`: the same result and service changes as the older
      generation, and in addition a returned `set_model` action is passed
      to the repository. */
    method Execute(command: string) returns (r: CommandResult)
      modifies logger, workingDirectoryManager, llmRepository
      ensures r == DomainExecute(registry, command, old(State()), host).result
      ensures State() == DomainExecute(registry, command, old(State()), host).after
      ensures llmRepository.requested == old(llmRepository.requested) + ModelRequests(r.action)
    {
      var p := SplitCommand(command);
      if p.name !in registry {
        r := Reply(UnknownCommand(p.name), false);
        return;
      }
      var args := HandlerArgs(Some(p.arguments), Some(logger), Some(llmConfig), Some(workingDirectoryManager));
      assert ServicesOf(args) == State();
      var outcome := RunHandler(registry[p.name], args, host);
      assert ServicesOf(args) == State();
      match outcome
      case Ok(result) =>
        ProcessAction(result);
        r := result;
      case Err(message) =>
        r := Reply(CommandFailed(p.name, message), false);
    }

    /** `processAction`: a `set_model` action switches the repository's
      model once; no action, or an action of another type, changes nothing. */
    method ProcessAction(result: CommandResult)
      modifies llmRepository
      ensures llmRepository.requested == old(llmRepository.requested) + ModelRequests(result.action)
    {
      if result.action.None? {
        return;
      }
      if result.action.value.kind == "set_model" {
        llmRepository.SetModel(result.action.value.payload);
      }
    }
  }
}
