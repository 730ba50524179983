/**
 The workspace path check and the command check, each written once in the API's tool
 registry and once in the runtime service.
 */
module WorkspaceGates {
  import opened Options
  import opened Splitting
  import opened PosixPaths

  // ----- paths -----

  datatype ApiError = InvalidArguments | NotASimpleName | CommandNotAllowed | OutsideWorkspace | ParentTraversal

  datatype RuntimeError =
    | PolicyDecisionRequired | EmptyCommand | RefusedByPolicy | PathOutsideWorkspace | PathTraversal

  /** `_workspace_path` of the API. */
  function WorkspacePath(value: string): Result<string, ApiError>
  {
    var path := Parse(value);
    var parts := Parts(path);
    if !IsAbsolute(path) || |parts| < 2 || parts[1] != "workspace" then Err(OutsideWorkspace)
    else if ".." in parts then Err(ParentTraversal)
    else Ok(Format(path))
  }

  /** `_validate_container_path` of the runtime. */
  function ContainerPath(value: string): Result<string, RuntimeError>
  {
    var path := Parse(value);
    var parts := Parts(path);
    if !IsAbsolute(path) || |parts| < 2 || parts[1] != "workspace" then Err(PathOutsideWorkspace)
    else if ".." in parts then Err(PathTraversal)
    else Ok(Format(path))
  }

  /** The components decide: the first is `workspace`, and none goes up. */
  predicate InsideWorkspace(path: Path)
  {
    path.root != "" && path.components != [] && path.components[0] == "workspace" && ".." !in path.components
  }

  lemma AcceptedExactlyInside(value: string)
    ensures WorkspacePath(value).Ok? <==> InsideWorkspace(Parse(value))
    ensures WorkspacePath(value).Ok? ==> WorkspacePath(value).value == Format(Parse(value))
    ensures ContainerPath(value).Ok? <==> InsideWorkspace(Parse(value))
    ensures ContainerPath(value).Ok? ==> ContainerPath(value).value == Format(Parse(value))
  {
    var path := Parse(value);
    if path.root != "" {
      assert Parts(path)[0] == path.root;
      assert ".." in Parts(path) <==> ".." in path.components;
    }
  }

  /** Normalising an accepted result returns it unchanged. */
  lemma NormalisationIsStable(value: string)
    requires WorkspacePath(value).Ok?
    ensures WorkspacePath(WorkspacePath(value).value) == WorkspacePath(value)
  {
    FormatParses(value);
    AcceptedExactlyInside(value);
    AcceptedExactlyInside(WorkspacePath(value).value);
  }

  /** The two copies accept the same strings and return the same results. */
  lemma NormalisersAgree(value: string)
    ensures WorkspacePath(value).Ok? <==> ContainerPath(value).Ok?
    ensures WorkspacePath(value).Ok? ==> ContainerPath(value) == Ok(WorkspacePath(value).value)
    ensures WorkspacePath(value) == Err(ParentTraversal) <==> ContainerPath(value) == Err(PathTraversal)
  {
    AcceptedExactlyInside(value);
  }

  /** After its root an accepted result is `workspace` and further plain components. */
  lemma AcceptedResultIsPlain(value: string)
    requires WorkspacePath(value).Ok?
    ensures var root := RootOf(WorkspacePath(value).value);
      var parts := Split(WorkspacePath(value).value[|root|..], '/');
      && root != ""
      && parts[0] == "workspace"
      && (forall i :: 0 <= i < |parts| ==> parts[i] != "" && parts[i] != "." && parts[i] != "..")
  {
    var path := Parse(value);
    AcceptedExactlyInside(value);
    ParsedIsClean(value);
    JoinStartsInComponent(path.components);
    RootRoundTrip(path.root, Join(path.components, '/'));
    SplitJoin(path.components, '/');
  }

  /**
   Walking the string as given, part by part from the root, ends where the result says and
   never leaves the workspace directory once it has entered it.
   */
  lemma WalkStaysInside(value: string, k: nat)
    requires WorkspacePath(value).Ok? && k <= |Split(value, '/')|
    ensures Walk(Split(value, '/')) == Walk(Split(WorkspacePath(value).value, '/')) == Parse(value).components
    ensures Walk(Split(value, '/')[..k]) == [] || Walk(Split(value, '/')[..k])[0] == "workspace"
    ensures Walk(Split(value, '/')[..k]) <= Walk(Split(value, '/'))
  {
    AcceptedExactlyInside(value);
    WalkOfAccepted(value);
    KeepOfSplit(value);
    FormatParses(value);
    AcceptedExactlyInside(WorkspacePath(value).value);
    WalkOfAccepted(WorkspacePath(value).value);
    WalkOnlyDescends(Split(value, '/'), k);
  }

  lemma WalkOfAccepted(value: string)
    requires InsideWorkspace(Parse(value))
    ensures Walk(Split(value, '/')) == Parse(value).components
  {
    KeepOfSplit(value);
    WalkWithoutParents(Split(value, '/'));
  }

  /** Which strings are accepted, in terms of the walk alone. */
  lemma AcceptedExactlyWhenWalkStaysInside(value: string)
    ensures WorkspacePath(value).Ok? <==>
      && value != [] && value[0] == '/'
      && ".." !in Split(value, '/')
      && Walk(Split(value, '/')) != [] && Walk(Split(value, '/'))[0] == "workspace"
  {
    AcceptedExactlyInside(value);
    KeepOfSplit(value);
    KeepMembers(Split(value, '/'), "..");
    if ".." !in Split(value, '/') {
      WalkWithoutParents(Split(value, '/'));
    }
  }

  lemma {:induction false} KeepMembers(parts: seq<string>, x: string)
    requires Significant(x)
    ensures x in Keep(parts) <==> x in parts
  {
    if parts == [] {
    } else {
      KeepMembers(parts[1..], x);
      assert parts == [parts[0]] + parts[1..];
    }
  }

  /** The first part that names a directory; a string may start with slashes and dots. */
  ghost predicate StartsIn(parts: seq<string>, name: string)
  {
    exists i :: 0 <= i < |parts| && parts[i] == name && forall k :: 0 <= k < i ==> parts[k] == "" || parts[k] == "."
  }

  lemma {:induction false} FirstKept(parts: seq<string>, name: string)
    requires name != "" && name != "."
    ensures Keep(parts) != [] && Keep(parts)[0] == name <==> StartsIn(parts, name)
  {
    if parts == [] {
    } else if Significant(parts[0]) {
      if StartsIn(parts, name) {
        var i :| 0 <= i < |parts| && parts[i] == name && forall k :: 0 <= k < i ==> parts[k] == "" || parts[k] == ".";
        assert i == 0;
      }
    } else {
      FirstKept(parts[1..], name);
      if StartsIn(parts[1..], name) {
        var i :| 0 <= i < |parts| - 1 && parts[1..][i] == name
          && forall k :: 0 <= k < i ==> parts[1..][k] == "" || parts[1..][k] == ".";
        assert forall k :: 0 < k < i + 1 ==> parts[k] == parts[1..][k - 1];
        assert parts[i + 1] == name;
      }
      if StartsIn(parts, name) {
        var i :| 0 <= i < |parts| && parts[i] == name && forall k :: 0 <= k < i ==> parts[k] == "" || parts[k] == ".";
        assert parts[1..][i - 1] == name;
        assert forall k :: 0 <= k < i - 1 ==> parts[1..][k] == parts[k + 1];
      }
    }
  }

  lemma ErrorsByComponents(value: string)
    ensures var path := Parse(value);
      && (WorkspacePath(value) == Err(OutsideWorkspace)
          <==> path.root == "" || path.components == [] || path.components[0] != "workspace")
      && (WorkspacePath(value) == Err(ParentTraversal)
          <==> path.root != "" && path.components != [] && path.components[0] == "workspace" && ".." in path.components)
  {
    var path := Parse(value);
    if path.root != "" {
      assert ".." in Parts(path) <==> ".." in path.components;
    }
  }

  lemma RootedExactly(value: string)
    ensures Parse(value).root == ""  <==> value == [] || value[0] != '/'
    ensures Parse(value).root == "//"
      <==> |value| >= 2 && value[0] == '/' && value[1] == '/' && !(|value| >= 3 && value[2] == '/')
    ensures Parse(value).root != "" && Parse(value).root != "//" ==> Parse(value).root == "/"
  {
  }

  /**
   Both refusals, in terms of the string itself: a relative path, or one whose first named
   directory is not `workspace`, is outside; then one with `..` among its parts is refused.
   */
  lemma RefusedPaths(value: string)
    ensures WorkspacePath(value) == Err(OutsideWorkspace)
      <==> value == [] || value[0] != '/' || !StartsIn(Split(value, '/'), "workspace")
    ensures WorkspacePath(value) == Err(ParentTraversal)
      <==> value != [] && value[0] == '/' && StartsIn(Split(value, '/'), "workspace") && ".." in Split(value, '/')
  {
    ErrorsByComponents(value);
    RootedExactly(value);
    KeepOfSplit(value);
    FirstKept(Split(value, '/'), "workspace");
    KeepMembers(Split(value, '/'), "..");
  }

  /** The result of any other path is its root, two slashes only for exactly two, and the walked directories. */
  lemma AcceptedPaths(value: string)
    requires WorkspacePath(value).Ok?
    ensures var twoSlashes := |value| >= 2 && value[1] == '/' && !(|value| >= 3 && value[2] == '/');
      WorkspacePath(value).value == (if twoSlashes then "//" else "/") + Join(Walk(Split(value, '/')), '/')
  {
    AcceptedExactlyInside(value);
    RootedExactly(value);
    WalkOfAccepted(value);
  }

  // ----- commands -----

  /** `{item.strip() for item in raw.split(",") if item.strip()}` */
  function AllowList(raw: string): set<string>
  {
    set item | item in Split(raw, ',') && Strip(item) != "" :: Strip(item)
  }

  /** The allow-list is the stripped pieces between commas, blank ones dropped. */
  lemma AllowListMembers(raw: string, name: string)
    ensures name in AllowList(raw)
      <==> name != "" && exists i :: 0 <= i < |Split(raw, ',')| && Strip(Split(raw, ',')[i]) == name
  {
    var pieces := Split(raw, ',');
    if name in AllowList(raw) {
      var item :| item in pieces && Strip(item) != "" && Strip(item) == name;
      var i :| 0 <= i < |pieces| && pieces[i] == item;
    }
    if name != "" && exists i :: 0 <= i < |pieces| && Strip(pieces[i]) == name {
      var i :| 0 <= i < |pieces| && Strip(pieces[i]) == name;
      var item := pieces[i];
      assert item in Split(raw, ',') && Strip(item) != "";
      assert Strip(item) in AllowList(raw);
    }
  }

  /** `_validate_command` of the API; its caller never passes an empty list. */
  function ApiCommandError(command: seq<string>, allowed: set<string>): Option<ApiError>
    requires command != []
  {
    if '/' in command[0] || '\\' in command[0] then Some(NotASimpleName)
    else if command[0] !in allowed then Some(CommandNotAllowed)
    else None
  }

  /** `_validate_command` of the runtime. */
  function RuntimeCommandError(command: seq<string>, rawAllowed: string): Option<RuntimeError>
  {
    if command == [] then Some(EmptyCommand)
    else if '/' in command[0] || '\\' in command[0] || command[0] !in AllowList(rawAllowed) then Some(RefusedByPolicy)
    else None
  }

  // ----- the argument sets -----

  datatype ApiSettings = ApiSettings(rawAllowed: string, defaultTimeout: int, maxOutput: int)

  datatype ExecuteArguments = ExecuteArguments(
    command: seq<string>, cwd: Option<string>, timeoutSeconds: Option<int>, maxOutputBytes: Option<int>)

  datatype ToolArguments = ToolArguments(
    command: seq<string>, cwd: string, timeoutSeconds: int, maxOutputBytes: int)

  predicate WithinLimits(args: ExecuteArguments)
  {
    && args.command != []
    && (args.timeoutSeconds.Some? ==> 1 <= args.timeoutSeconds.value <= 3600)
    && (args.maxOutputBytes.Some? ==> 1 <= args.maxOutputBytes.value <= 10_485_760)
  }

  /** The `terminal.execute` branch of `validate_arguments`. */
  function ValidateExecute(args: ExecuteArguments, settings: ApiSettings): Result<ToolArguments, ApiError>
  {
    if !WithinLimits(args) then Err(InvalidArguments)
    else if ApiCommandError(args.command, AllowList(settings.rawAllowed)).Some? then
      Err(ApiCommandError(args.command, AllowList(settings.rawAllowed)).value)
    else
      match WorkspacePath(args.cwd.GetOr("/workspace"))
      case Err(error) => Err(error)
      case Ok(cwd) => Ok(ToolArguments(
        args.command, cwd, args.timeoutSeconds.GetOr(settings.defaultTimeout),
        args.maxOutputBytes.GetOr(settings.maxOutput)))
  }

  /** The checks at the entry of the runtime's `execute_command`, and the directory it goes on with. */
  function ExecuteEntry(policyDecisionId: string, command: seq<string>, cwd: string, rawAllowed: string)
    : Result<string, RuntimeError>
  {
    if policyDecisionId == "" then Err(PolicyDecisionRequired)
    else if RuntimeCommandError(command, rawAllowed).Some? then Err(RuntimeCommandError(command, rawAllowed).value)
    else ContainerPath(cwd)
  }

  /** The `file.list` and `file.read` branches. */
  function ValidateFilePath(path: Option<string>): Result<string, ApiError>
  {
    WorkspacePath(path.GetOr("/workspace"))
  }

  /**
   The API gate refines the runtime gate: what the API lets through passes the runtime's
   checks with the directory unchanged, when both allow-lists parse to the same set.
   */
  lemma ApiRefinesRuntime(args: ExecuteArguments, settings: ApiSettings, rawAllowed: string, policyDecisionId: string)
    requires AllowList(settings.rawAllowed) == AllowList(rawAllowed) && policyDecisionId != ""
    requires ValidateExecute(args, settings).Ok?
    ensures var validated := ValidateExecute(args, settings).value;
      ExecuteEntry(policyDecisionId, validated.command, validated.cwd, rawAllowed) == Ok(validated.cwd)
  {
    var cwd := args.cwd.GetOr("/workspace");
    NormalisationIsStable(cwd);
    NormalisersAgree(WorkspacePath(cwd).value);
  }

  /**
   What an accepted argument set becomes: the command as given, the limits as given or the
   defaults, and a directory to which the one given, or `/workspace`, also walks.
   */
  lemma ValidatedArguments(args: ExecuteArguments, settings: ApiSettings)
    requires ValidateExecute(args, settings).Ok?
    ensures var validated, given := ValidateExecute(args, settings).value, if args.cwd.Some? then args.cwd.value else "/workspace";
      && validated.command == args.command
      && validated.timeoutSeconds
         == (match args.timeoutSeconds case Some(seconds) => seconds case None => settings.defaultTimeout)
      && validated.maxOutputBytes
         == (match args.maxOutputBytes case Some(bytes) => bytes case None => settings.maxOutput)
      && Ok(validated.cwd) == WorkspacePath(given)
      && Walk(Split(validated.cwd, '/')) == Walk(Split(given, '/'))
  {
    var given := args.cwd.GetOr("/workspace");
    WalkStaysInside(given, 0);
  }

  /** Which argument sets are refused, and as what, in the order of the checks. */
  lemma RefusedArguments(args: ExecuteArguments, settings: ApiSettings)
    ensures var r := ValidateExecute(args, settings);
      var invalid := args.command == []
        || (args.timeoutSeconds.Some? && (args.timeoutSeconds.value < 1 || args.timeoutSeconds.value > 3600))
        || (args.maxOutputBytes.Some? && (args.maxOutputBytes.value < 1 || args.maxOutputBytes.value > 10_485_760));
      && (r == Err(InvalidArguments) <==> invalid)
      && (!invalid ==>
            var separated := '/' in args.command[0] || '\\' in args.command[0];
            var listed := args.command[0] in AllowList(settings.rawAllowed);
            && (r == Err(NotASimpleName) <==> separated)
            && (r == Err(CommandNotAllowed) <==> !separated && !listed)
            && (!separated && listed ==>
                  match WorkspacePath(if args.cwd.Some? then args.cwd.value else "/workspace")
                  case Ok(cwd) => r.Ok? && r.value.cwd == cwd
                  case Err(error) => r == Err(error)))
  {
  }

  /** The runtime's entry checks: what is refused as what, in their order. */
  lemma EntryExactly(policyDecisionId: string, command: seq<string>, cwd: string, rawAllowed: string)
    ensures var r := ExecuteEntry(policyDecisionId, command, cwd, rawAllowed);
      && (r == Err(PolicyDecisionRequired) <==> policyDecisionId == "")
      && (r == Err(EmptyCommand) <==> policyDecisionId != "" && command == [])
      && (policyDecisionId != "" && command != [] ==>
            var refused := '/' in command[0] || '\\' in command[0] || command[0] !in AllowList(rawAllowed);
            && (r == Err(RefusedByPolicy) <==> refused)
            && (!refused ==>
                  match WorkspacePath(cwd)
                  case Ok(path) => r == Ok(path)
                  case Err(error) =>
                    r == Err(if error == ParentTraversal then PathTraversal else PathOutsideWorkspace)))
  {
    NormalisersAgree(cwd);
  }

  /** Nor is the API stricter: apart from its numeric limits it accepts exactly the same. */
  lemma GatesAcceptTheSame(args: ExecuteArguments, settings: ApiSettings, rawAllowed: string, policyDecisionId: string)
    requires AllowList(settings.rawAllowed) == AllowList(rawAllowed) && policyDecisionId != ""
    ensures ValidateExecute(args, settings).Ok? <==>
      WithinLimits(args) && ExecuteEntry(policyDecisionId, args.command, args.cwd.GetOr("/workspace"), rawAllowed).Ok?
  {
    NormalisersAgree(args.cwd.GetOr("/workspace"));
  }

  /** A file path the API lets through passes the runtime's check unchanged. */
  lemma FilePathsPassUnchanged(path: Option<string>)
    requires ValidateFilePath(path).Ok?
    ensures ContainerPath(ValidateFilePath(path).value) == Ok(ValidateFilePath(path).value)
    ensures ValidateFilePath(path) == WorkspacePath(match path case Some(given) => given case None => "/workspace")
  {
    NormalisationIsStable(path.GetOr("/workspace"));
    NormalisersAgree(ValidateFilePath(path).value);
  }
}
