/** The project view: lazy expansion of the Maven project tree, the cache of the project
    items it has shown, and the Maven command lines run against those items. */
module MavenProjects {
  import opened JsValues
  import opened Terminal
  import opened ProjectModel

  const PomFileName := "pom.xml"
  const EntryNewGoals := "New ..."
  const EntryOpenHist := "Edit ..."
  const EffectivePomError := "Error occurred in generating effective pom."

  datatype WorkspaceFolder = WorkspaceFolder(name: string, fsPath: string)

  /** What an expansion consults besides the node: the open workspace folders, the
      `maven.projects.maxDepthOfPom` setting, the POM scan and the POM loader, and the
      host's path functions. */
  datatype Workspace = Workspace(
    workspaceFolders: Option<seq<WorkspaceFolder>>,
    maxDepthOfPom: Option<int>,
    findAllInDir: (string, string, int) -> seq<string>,
    getProject: (string, string) -> Option<ProjectItem>,
    join: seq<string> -> string,
    dirname: string -> string)

  /** The extension context: it only resolves paths of bundled resources here. */
  datatype ExtensionContext = ExtensionContext(asAbsolutePath: string -> string)

  /** What `getChildren` resolves to: a list of children, `undefined` (no branch returned
      anything), or a rejection (a TypeError on a node without the params it reads). */
  datatype Children = Listed(items: seq<ProjectItem>) | NoResult | Rejected

  /** The cache after an expansion and the children it resolved to. */
  datatype Expansion = Expansion(cache: seq<ProjectItem>, children: Children)

  /** `get("maxDepthOfPom") || -1`: an unset or zero setting means an unbounded scan. */
  function ScanDepth(maxDepthOfPom: Option<int>): (depth: int)
    ensures depth != 0
    ensures depth == -1 <==> (maxDepthOfPom.None? || maxDepthOfPom.value in {0, -1})
    ensures maxDepthOfPom.Some? && maxDepthOfPom.value != 0 ==> depth == maxDepthOfPom.value
  {
    match maxDepthOfPom
    case Some(d) => if d != 0 then d else -1
    case None => -1
  }

  function Folders(ws: Workspace): seq<WorkspaceFolder> {
    match ws.workspaceFolders
    case Some(folders) => folders
    case None => []
  }

  function WorkspaceItem(wf: WorkspaceFolder): ProjectItem {
    ProjectItem(wf.name, wf.fsPath, WorkspaceItemKind, NoParams, None)
  }

  /** One workspace folder item per folder, in folder order. */
  predicate ListsFolders(items: seq<ProjectItem>, folders: seq<WorkspaceFolder>) {
    |items| == |folders| && forall i :: 0 <= i < |folders| ==> items[i] == WorkspaceItem(folders[i])
  }

  function RootItems(folders: seq<WorkspaceFolder>): seq<ProjectItem> {
    seq(|folders|, i requires 0 <= i < |folders| => WorkspaceItem(folders[i]))
  }

  function ResourceIcon(ctx: ExtensionContext, ws: Workspace, file: string): string {
    ctx.asAbsolutePath(ws.join(["resources", file]))
  }

  function ProjectIcon(ctx: ExtensionContext, ws: Workspace): string {
    ResourceIcon(ctx, ws, "project.svg")
  }

  function FolderIcon(ctx: ExtensionContext, ws: Workspace): string {
    ResourceIcon(ctx, ws, "folder.svg")
  }

  /** The POM files the scan finds under a workspace folder item. */
  function ScannedPoms(element: ProjectItem, ws: Workspace): seq<string> {
    ws.findAllInDir(element.absolutePath, PomFileName, ScanDepth(ws.maxDepthOfPom))
  }

  /** The loader's answer for every path, in path order (`Promise.all` keeps order). */
  function Resolved(paths: seq<string>, ws: Workspace, icon: string): seq<Option<ProjectItem>> {
    seq(|paths|, i requires 0 <= i < |paths| => ws.getProject(paths[i], icon))
  }

  /** `pom.project && pom.project.modules`. */
  function DeclaredModules(pom: PomRoot): Option<seq<PomModules>> {
    match pom.project
    case Some(project) => project.modules
    case None => None
  }

  /** The synthetic "Modules" node of a project that declares modules. */
  function ModulesNode(element: ProjectItem, modules: seq<PomModules>, icon: string): ProjectItem {
    ProjectItem(ModulesKind, element.absolutePath, ModulesKind, element.params.(modules := Some(modules)), Some(icon))
  }

  /** `join(dir, module, "pom.xml")` for each module of one `<modules>` element. */
  function GroupPomPaths(dir: string, group: PomModules, join: seq<string> -> string): seq<string> {
    match group.moduleNames
    case Some(modules) => seq(|modules|, j requires 0 <= j < |modules| => join([dir, modules[j], PomFileName]))
    case None => []
  }

  /** The candidate POM paths of all `<modules>` elements, in declaration order. */
  function ModulePomPaths(dir: string, groups: seq<PomModules>, join: seq<string> -> string): seq<string> {
    if |groups| == 0 then [] else GroupPomPaths(dir, groups[0], join) + ModulePomPaths(dir, groups[1..], join)
  }

  /** The paths of more `<modules>` elements follow those of the earlier ones. */
  lemma {:induction false} ModulePomPathsAppend(dir: string, groups: seq<PomModules>, more: seq<PomModules>, join: seq<string> -> string)
    ensures ModulePomPaths(dir, groups + more, join) == ModulePomPaths(dir, groups, join) + ModulePomPaths(dir, more, join)
  {
    if |groups| == 0 {
      assert groups + more == more;
    } else {
      assert (groups + more)[0] == groups[0];
      assert (groups + more)[1..] == groups[1..] + more;
      ModulePomPathsAppend(dir, groups[1..], more, join);
    }
  }

  /** `cache.find(v => v.abosolutePath === path)` finds something. */
  predicate Cached(cache: seq<ProjectItem>, path: string) {
    exists i :: 0 <= i < |cache| && cache[i].absolutePath == path
  }

  /** The items whose path the cache does not hold yet, in their order. */
  function NewEntries(cache: seq<ProjectItem>, items: seq<ProjectItem>): seq<ProjectItem> {
    if |items| == 0 then []
    else (if Cached(cache, items[0].absolutePath) then [] else [items[0]]) + NewEntries(cache, items[1..])
  }

  /** The specification of `getChildren`: the new cache and the children, from the old cache. */
  function Expand(cache: seq<ProjectItem>, node: Option<ProjectItem>, ctx: ExtensionContext, ws: Workspace): Expansion {
    match node
    case None => Expansion([], Listed(RootItems(Folders(ws))))
    case Some(element) =>
      if element.contextValue == WorkspaceItemKind then
        var items := Successful(Resolved(ScannedPoms(element, ws), ws, ProjectIcon(ctx, ws)));
        Expansion(cache + items, Listed(items))
      else if element.contextValue == MavenProjectKind then
        match element.params.pom
        case None => Expansion(cache, Rejected)
        case Some(pom) =>
          match DeclaredModules(pom)
          case Some(modules) => Expansion(cache, Listed([ModulesNode(element, modules, FolderIcon(ctx, ws))]))
          case None => Expansion(cache, Listed([]))
      else if element.contextValue == ModulesKind then
        match element.params.modules
        case None => Expansion(cache, Rejected)
        case Some(groups) =>
          var paths := ModulePomPaths(ws.dirname(element.absolutePath), groups, ws.join);
          var items := Successful(Resolved(paths, ws, ProjectIcon(ctx, ws)));
          Expansion(cache + NewEntries(cache, items), Listed(items))
      else
        Expansion(cache, NoResult)
  }

  /** The root query's loop over the workspace folders. */
  method CollectWorkspaceItems(folders: seq<WorkspaceFolder>) returns (ret: seq<ProjectItem>)
    ensures ListsFolders(ret, folders)
  {
    ret := [];
    for i := 0 to |folders|
      invariant |ret| == i
      invariant forall k :: 0 <= k < i ==> ret[k] == WorkspaceItem(folders[k])
    {
      ret := ret + [WorkspaceItem(folders[i])];
    }
  }

  /** Loads a project for every POM path and keeps the ones that loaded. */
  method GetProjects(paths: seq<string>, ws: Workspace, icon: string) returns (items: seq<ProjectItem>)
    ensures items == Successful(Resolved(paths, ws, icon))
  {
    var todolist: seq<Option<ProjectItem>> := [];
    for i := 0 to |paths|
      invariant |todolist| == i
      invariant forall k :: 0 <= k < i ==> todolist[k] == ws.getProject(paths[k], icon)
    {
      todolist := todolist + [ws.getProject(paths[i], icon)];
    }
    assert todolist == Resolved(paths, ws, icon);
    items := Successful(todolist);
  }

  /** The nested loops of the "Modules" expansion that build the candidate POM paths. */
  method CollectModulePomPaths(dir: string, groups: seq<PomModules>, join: seq<string> -> string)
    returns (pomXmlFilePaths: seq<string>)
    ensures pomXmlFilePaths == ModulePomPaths(dir, groups, join)
  {
    pomXmlFilePaths := [];
    for i := 0 to |groups|
      invariant pomXmlFilePaths == ModulePomPaths(dir, groups[..i], join)
    {
      var done := ModulePomPaths(dir, groups[..i], join);
      var group := GroupPomPaths(dir, groups[i], join);
      match groups[i].moduleNames {
        case Some(modules) =>
          for j := 0 to |modules|
            invariant pomXmlFilePaths == done + group[..j]
          {
            assert group[..j + 1] == group[..j] + [join([dir, modules[j], PomFileName])];
            pomXmlFilePaths := pomXmlFilePaths + [join([dir, modules[j], PomFileName])];
          }
          assert group[..|modules|] == group;
        case None =>
      }
      assert groups[..i + 1] == groups[..i] + [groups[i]];
      ModulePomPathsAppend(dir, groups[..i], [groups[i]], join);
      assert ModulePomPaths(dir, [groups[i]], join) == group;
    }
    assert groups[..|groups|] == groups;
  }

  /** `goal || item.label`. */
  function GoalOrLabel(goal: JsString, labelText: string): string {
    if goal.Truthy() then goal.s else labelText
  }

  /** `mvn <goals> -f "<pom>"` in the terminal named after the project's artifact id. */
  function MavenGoalRun(goals: string, item: ProjectItem): TerminalCommand {
    TerminalCommand("mvn " + goals + " -f " + Quoted(item.absolutePath), "Maven-" + item.params.artifactId.Template(), None)
  }

  /** `mvn help:effective-pom -f "<pom>" -Doutput="<output>"`. */
  function EffectivePomCommand(pomXmlFilePath: string, outputPath: string): string {
    "mvn help:effective-pom -f " + Quoted(pomXmlFilePath) + " -Doutput=" + Quoted(outputPath)
  }

  /** What `exec` reports: whether it failed, and its standard output and error. */
  datatype ExecResult = ExecResult(error: bool, stdout: string, stderr: string)

  /** The promise's value: the output path, or `null` on an error or any error output. */
  function EffectivePomResult(outputPath: string, result: ExecResult): (ret: JsString)
    ensures ret == Null <==> (result.error || result.stderr != "")
    ensures ret != Null ==> ret == Str(outputPath)
  {
    if result.error || result.stderr != "" then Null else Str(outputPath)
  }

  /** What `effectivePom` is handed: a file URI or a tree item. */
  datatype PomSource = UriSource(fsPath: string) | ItemSource(item: ProjectItem)

  /** The helpers `effectivePom` calls: the output location, the process runner, the file reader. */
  datatype EffectivePomHost = EffectivePomHost(
    getEffectivePomOutputPath: string -> string,
    exec: string -> ExecResult,
    readFileIfExists: JsString -> JsString)

  datatype EffectivePomOutcome = NoPom | OpenDocument(content: string) | ShowError(message: string)

  function PomPathOf(source: Option<PomSource>): JsString {
    match source
    case Some(UriSource(fsPath)) => Str(fsPath)
    case Some(ItemSource(item)) => Str(item.absolutePath)
    case None => Null
  }

  /** The helpers `customGoal` calls on the per-project command history. */
  datatype CommandHistory = CommandHistory(
    loadCmdHistory: string -> seq<string>,
    withLRUItemAhead: (seq<string>, string) -> seq<string>,
    getCommandHistoryCachePath: string -> string)

  /** What `customGoal` does: nothing, open the history file, or save the history and run. */
  datatype CustomGoalOutcome = DoNothing | OpenHistory(path: string) | SaveAndRun(saved: seq<string>, run: TerminalCommand)

  /** `inputGoals && inputGoals.trim()`. */
  function TrimmedInput(input: JsString): (r: JsString)
    ensures r.Truthy() <==> input.Str? && !AllWhitespace(input.s)
    ensures r.Truthy() ==> r.s == Trim(input.s)
  {
    if input.Truthy() then Str(Trim(input.s)) else input
  }

  /** `customGoal` once its target item is known: `selected` is the quick pick's answer
      and `input` the input box's, asked only after "New ...". */
  function CustomGoalAction(item: ProjectItem, history: CommandHistory, selected: JsString, input: JsString): CustomGoalOutcome {
    if item.absolutePath == "" then DoNothing
    else
      var cmdlist := history.loadCmdHistory(item.absolutePath);
      if selected == Str(EntryNewGoals) then
        var trimmed := TrimmedInput(input);
        if trimmed.Truthy() then SaveAndRun(history.withLRUItemAhead(cmdlist, trimmed.s), MavenGoalRun(trimmed.s, item))
        else DoNothing
      else if selected == Str(EntryOpenHist) then
        OpenHistory(history.getCommandHistoryCachePath(item.absolutePath))
      else if selected.Truthy() then
        SaveAndRun(history.withLRUItemAhead(cmdlist, selected.s), MavenGoalRun(selected.s, item))
      else
        DoNothing
  }

  /** The item a command acts on: the one it was invoked on, else the quick pick's choice. */
  function Target(item: Option<ProjectItem>, picked: Option<ProjectItem>): Option<ProjectItem> {
    if item.Some? then item else picked
  }

  class ProjectDataProvider {
    const context: ExtensionContext
    /** Every project item shown since the last root query, oldest first. */
    var cachedItems: seq<ProjectItem>

    constructor (context: ExtensionContext)
      ensures this.context == context && cachedItems == []
    {
      this.context := context;
      cachedItems := [];
    }

    method GetChildren(node: Option<ProjectItem>, ws: Workspace) returns (children: Children)
      modifies this
      ensures cachedItems == Expand(old(cachedItems), node, context, ws).cache
      ensures children == Expand(old(cachedItems), node, context, ws).children
    {
      if node.None? {
        cachedItems := [];
        var ret: seq<ProjectItem> := [];
        if ws.workspaceFolders.Some? {
          ret := CollectWorkspaceItems(ws.workspaceFolders.value);
        }
        assert ret == RootItems(Folders(ws));
        return Listed(ret);
      }
      var element := node.value;
      if element.contextValue == WorkspaceItemKind {
        var foundPomXmls := ws.findAllInDir(element.absolutePath, PomFileName, ScanDepth(ws.maxDepthOfPom));
        var items := GetProjects(foundPomXmls, ws, ProjectIcon(context, ws));
        cachedItems := cachedItems + items;
        return Listed(items);
      } else if element.contextValue == MavenProjectKind {
        if element.params.pom.None? {
          return Rejected;
        }
        var pom := element.params.pom.value;
        var items: seq<ProjectItem> := [];
        if pom.project.Some? && pom.project.value.modules.Some? {
          var item := ModulesNode(element, pom.project.value.modules.value, FolderIcon(context, ws));
          items := items + [item];
        }
        return Listed(items);
      } else if element.contextValue == ModulesKind {
        if element.params.modules.None? {
          return Rejected;
        }
        var pomXmlFilePaths := CollectModulePomPaths(ws.dirname(element.absolutePath), element.params.modules.value, ws.join);
        var items := GetProjects(pomXmlFilePaths, ws, ProjectIcon(context, ws));
        cachedItems := cachedItems + NewEntries(cachedItems, items);
        return Listed(items);
      }
      return NoResult;
    }

    /** Fires the tree's change event for the whole tree (no element); the cache is kept. */
    method RefreshTree() returns (changed: Option<ProjectItem>)
      ensures changed.None?
    {
      changed := None;
    }

    /** `executeGoal`: `picked` is the quick pick's answer over the cached items, asked only
        when no item was given. */
    method ExecuteGoal(item: Option<ProjectItem>, goal: JsString, picked: Option<ProjectItem>) returns (run: Option<TerminalCommand>)
      requires item.None? && picked.Some? ==> picked.value in cachedItems
      ensures run.Some? <==> Target(item, picked).Some?
      ensures run.Some? ==> run.value == MavenGoalRun(GoalOrLabel(goal, Target(item, picked).value.labelText), Target(item, picked).value)
    {
      var target := item;
      if target.None? {
        target := picked;
      }
      run := None;
      if target.Some? {
        run := Some(MavenGoalRun(GoalOrLabel(goal, target.value.labelText), target.value));
      }
    }

    /** `effectivePom`: returns the command it executes, if any, and what it shows. */
    method EffectivePom(item: Option<PomSource>, picked: Option<ProjectItem>, host: EffectivePomHost)
      returns (executed: Option<string>, outcome: EffectivePomOutcome)
      requires item.None? && picked.Some? ==> picked.value in cachedItems
      ensures var source := if item.Some? then item else if picked.Some? then Some(ItemSource(picked.value)) else None;
              var pom := PomPathOf(source);
              && (executed.None? <==> !pom.Truthy())
              && (!pom.Truthy() ==> outcome == NoPom)
              && (pom.Truthy() ==>
                    var out := host.getEffectivePomOutputPath(pom.s);
                    var content := host.readFileIfExists(EffectivePomResult(out, host.exec(EffectivePomCommand(pom.s, out))));
                    && executed == Some(EffectivePomCommand(pom.s, out))
                    && outcome == (if content.Truthy() then OpenDocument(content.s) else ShowError(EffectivePomError)))
    {
      var source := item;
      if source.None? && picked.Some? {
        source := Some(ItemSource(picked.value));
      }
      var pomXmlFilePath := PomPathOf(source);
      if !pomXmlFilePath.Truthy() {
        return None, NoPom;
      }
      var filepath := host.getEffectivePomOutputPath(pomXmlFilePath.s);
      var cmd := EffectivePomCommand(pomXmlFilePath.s, filepath);
      var ret := EffectivePomResult(filepath, host.exec(cmd));
      var pomxml := host.readFileIfExists(ret);
      executed := Some(cmd);
      if pomxml.Truthy() {
        outcome := OpenDocument(pomxml.s);
      } else {
        outcome := ShowError(EffectivePomError);
      }
    }

    /** `customGoal`: `picked` as for `executeGoal`. */
    method CustomGoal(item: Option<ProjectItem>, picked: Option<ProjectItem>, history: CommandHistory, selected: JsString, input: JsString)
      returns (outcome: CustomGoalOutcome)
      requires item.None? && picked.Some? ==> picked.value in cachedItems
      ensures Target(item, picked).None? ==> outcome == DoNothing
      ensures Target(item, picked).Some? ==> outcome == CustomGoalAction(Target(item, picked).value, history, selected, input)
    {
      var target := item;
      if target.None? {
        target := picked;
      }
      if target.None? {
        return DoNothing;
      }
      outcome := CustomGoalAction(target.value, history, selected, input);
    }
  }
}
