/** What the project tree's expansion and its cache guarantee, and how the command lines of
    the project view relate to each other. */
module ProjectTreeProperties {
  import opened JsValues
  import opened Terminal
  import opened ProjectModel
  import opened MavenProjects

  /** No two entries share a path. */
  predicate DistinctPaths(s: seq<ProjectItem>) {
    forall i, j :: 0 <= i < j < |s| ==> s[i].absolutePath != s[j].absolutePath
  }

  // ---- The root query -------------------------------------------------------------------

  /** The root query clears the cache and lists one workspace folder item per folder, in
      folder order; with no workspace folders it lists nothing. */
  lemma RootQueryListsFolders(cache: seq<ProjectItem>, ctx: ExtensionContext, ws: Workspace)
    ensures Expand(cache, None, ctx, ws).cache == []
    ensures Expand(cache, None, ctx, ws).children.Listed?
    ensures ListsFolders(Expand(cache, None, ctx, ws).children.items, Folders(ws))
    ensures ws.workspaceFolders.None? ==> Expand(cache, None, ctx, ws).children.items == []
  {
  }

  // ---- Workspace folder expansion --------------------------------------------------------

  /** Expanding a workspace folder lists exactly the projects that load from the scanned POM
      paths, never more than the scan found, and appends all of them to the cache. */
  lemma WorkspaceExpansion(cache: seq<ProjectItem>, element: ProjectItem, ctx: ExtensionContext, ws: Workspace)
    requires element.contextValue == WorkspaceItemKind
    ensures var e := Expand(cache, Some(element), ctx, ws);
            && e.children.Listed?
            && e.cache == cache + e.children.items
            && |e.children.items| <= |ScannedPoms(element, ws)|
            && forall x :: x in e.children.items <==>
                 exists i :: 0 <= i < |ScannedPoms(element, ws)| && ws.getProject(ScannedPoms(element, ws)[i], ProjectIcon(ctx, ws)) == Some(x)
  {
    var paths := ScannedPoms(element, ws);
    var resolved := Resolved(paths, ws, ProjectIcon(ctx, ws));
    SuccessfulLength(resolved);
    forall x ensures x in Successful(resolved) <==>
                     exists i :: 0 <= i < |paths| && ws.getProject(paths[i], ProjectIcon(ctx, ws)) == Some(x) {
      SuccessfulMembership(resolved, x);
      if Some(x) in resolved {
        var i :| 0 <= i < |resolved| && resolved[i] == Some(x);
        assert ws.getProject(paths[i], ProjectIcon(ctx, ws)) == Some(x);
      }
      if exists i :: 0 <= i < |paths| && ws.getProject(paths[i], ProjectIcon(ctx, ws)) == Some(x) {
        var i :| 0 <= i < |paths| && ws.getProject(paths[i], ProjectIcon(ctx, ws)) == Some(x);
        assert resolved[i] == Some(x);
      }
    }
  }

  /** Loading keeps scan order: the projects of two runs of paths are those of the first run
      followed by those of the second. */
  lemma LoadingKeepsScanOrder(first: seq<string>, second: seq<string>, ws: Workspace, icon: string)
    ensures Successful(Resolved(first + second, ws, icon)) == Successful(Resolved(first, ws, icon)) + Successful(Resolved(second, ws, icon))
  {
    assert Resolved(first + second, ws, icon) == Resolved(first, ws, icon) + Resolved(second, ws, icon);
    SuccessfulAppend(Resolved(first, ws, icon), Resolved(second, ws, icon));
  }

  /** Expanding the same workspace folder twice appends its projects twice: this branch does
      not de-duplicate, so any project it lists then appears twice in the cache. */
  lemma WorkspaceExpansionTwiceDuplicates(cache: seq<ProjectItem>, element: ProjectItem, ctx: ExtensionContext, ws: Workspace)
    requires element.contextValue == WorkspaceItemKind
    ensures var e1 := Expand(cache, Some(element), ctx, ws);
            var e2 := Expand(e1.cache, Some(element), ctx, ws);
            && e2.children == e1.children
            && e2.cache == cache + e1.children.items + e1.children.items
            && (e1.children.items != [] ==> !DistinctPaths(e2.cache))
  {
    var e1 := Expand(cache, Some(element), ctx, ws);
    var items := e1.children.items;
    var c2 := cache + items + items;
    if items != [] {
      assert c2[|cache|] == items[0] && c2[|cache| + |items|] == items[0];
    }
  }

  // ---- Project expansion -----------------------------------------------------------------

  /** Expanding a project never touches the cache. With a modules declaration it lists one
      "Modules" node for the same POM whose params add that declaration; without one it
      lists nothing; a project item without a parsed POM is rejected. */
  lemma MavenProjectExpansion(cache: seq<ProjectItem>, element: ProjectItem, ctx: ExtensionContext, ws: Workspace)
    requires element.contextValue == MavenProjectKind
    ensures var e := Expand(cache, Some(element), ctx, ws);
            && e.cache == cache
            && (e.children == Rejected <==> element.params.pom.None?)
            && (element.params.pom.Some? && DeclaredModules(element.params.pom.value).None? ==> e.children == Listed([]))
            && (element.params.pom.Some? && DeclaredModules(element.params.pom.value).Some? ==>
                  && e.children.Listed? && |e.children.items| == 1
                  && e.children.items[0].labelText == "Modules"
                  && e.children.items[0].contextValue == "Modules"
                  && e.children.items[0].absolutePath == element.absolutePath
                  && e.children.items[0].params == element.params.(modules := DeclaredModules(element.params.pom.value))
                  && e.children.items[0].iconPath == Some(FolderIcon(ctx, ws)))
  {
  }

  /** The "Modules" node a project lists expands to the projects loaded from the modules its
      POM declares, resolved against the project's POM directory. */
  lemma ModulesNodeExpandsDeclaredModules(cache: seq<ProjectItem>, element: ProjectItem, ctx: ExtensionContext, ws: Workspace)
    requires element.contextValue == MavenProjectKind
    requires element.params.pom.Some? && DeclaredModules(element.params.pom.value).Some?
    ensures var node := Expand(cache, Some(element), ctx, ws).children.items[0];
            var groups := DeclaredModules(element.params.pom.value).value;
            Expand(cache, Some(node), ctx, ws).children ==
              Listed(Successful(Resolved(ModulePomPaths(ws.dirname(element.absolutePath), groups, ws.join), ws, ProjectIcon(ctx, ws))))
  {
  }

  // ---- The candidate POM paths of a "Modules" node ----------------------------------------

  /** A candidate path is `join(dir, m, "pom.xml")` exactly for the modules `m` listed by some
      `<modules>` element that has a module list. */
  lemma {:induction false} ModulePomPathsMembership(dir: string, groups: seq<PomModules>, join: seq<string> -> string, p: string)
    ensures p in ModulePomPaths(dir, groups, join) <==>
            exists g, m :: 0 <= g < |groups| && groups[g].moduleNames.Some? && m in groups[g].moduleNames.value && p == join([dir, m, PomFileName])
  {
    if |groups| > 0 {
      ModulePomPathsMembership(dir, groups[1..], join, p);
      var here := GroupPomPaths(dir, groups[0], join);
      if p in here {
        var j :| 0 <= j < |here| && here[j] == p;
        assert groups[0].moduleNames.value[j] in groups[0].moduleNames.value;
      }
      if exists g, m :: 0 <= g < |groups| && groups[g].moduleNames.Some? && m in groups[g].moduleNames.value && p == join([dir, m, PomFileName]) {
        var g, m :| 0 <= g < |groups| && groups[g].moduleNames.Some? && m in groups[g].moduleNames.value && p == join([dir, m, PomFileName]);
        if g == 0 {
          var j :| 0 <= j < |groups[0].moduleNames.value| && groups[0].moduleNames.value[j] == m;
          assert here[j] == p;
        } else {
          assert groups[1..][g - 1] == groups[g];
        }
      }
    }
  }

  /** A `<modules>` element without a module list adds no candidate path. */
  lemma GroupWithoutModulesAddsNothing(dir: string, before: seq<PomModules>, after: seq<PomModules>, join: seq<string> -> string)
    ensures ModulePomPaths(dir, before + [PomModules(None)] + after, join) == ModulePomPaths(dir, before + after, join)
  {
    var none := [PomModules(None)];
    var left := before + none;
    assert none[1..] == [];
    assert ModulePomPaths(dir, none, join) == [];
    ModulePomPathsAppend(dir, before, none, join);
    assert ModulePomPaths(dir, left, join) == ModulePomPaths(dir, before, join);
    ModulePomPathsAppend(dir, left, after, join);
    ModulePomPathsAppend(dir, before, after, join);
  }

  /** A module whose POM does not load is left out: the node then lists fewer projects than
      it has candidate paths. */
  lemma DanglingModuleOmitted(cache: seq<ProjectItem>, element: ProjectItem, ctx: ExtensionContext, ws: Workspace, k: nat)
    requires element.contextValue == ModulesKind && element.params.modules.Some?
    requires k < |ModulePomPaths(ws.dirname(element.absolutePath), element.params.modules.value, ws.join)|
    requires ws.getProject(ModulePomPaths(ws.dirname(element.absolutePath), element.params.modules.value, ws.join)[k], ProjectIcon(ctx, ws)).None?
    ensures var e := Expand(cache, Some(element), ctx, ws);
            e.children.Listed? && |e.children.items| < |ModulePomPaths(ws.dirname(element.absolutePath), element.params.modules.value, ws.join)|
  {
    var paths := ModulePomPaths(ws.dirname(element.absolutePath), element.params.modules.value, ws.join);
    var resolved := Resolved(paths, ws, ProjectIcon(ctx, ws));
    assert resolved[k] == None;
    SuccessfulLength(resolved);
  }

  // ---- The cache under "Modules" expansion ----------------------------------------------

  /** An item is added exactly when it is in the batch and its path is not cached yet. */
  lemma {:induction false} NewEntriesMembership(cache: seq<ProjectItem>, items: seq<ProjectItem>, x: ProjectItem)
    ensures x in NewEntries(cache, items) <==> x in items && !Cached(cache, x.absolutePath)
  {
    if |items| > 0 {
      NewEntriesMembership(cache, items[1..], x);
      assert items == [items[0]] + items[1..];
    }
  }

  /** Nothing is added when every path of the batch is cached already. */
  lemma {:induction false} NewEntriesOfCachedBatch(cache: seq<ProjectItem>, items: seq<ProjectItem>)
    requires forall x :: x in items ==> Cached(cache, x.absolutePath)
    ensures NewEntries(cache, items) == []
  {
    if |items| > 0 {
      assert items[0] in items;
      NewEntriesOfCachedBatch(cache, items[1..]);
    }
  }

  /** Duplicates within one batch both get in: only the cache before the call is consulted. */
  lemma BatchDuplicatesBothAdded(cache: seq<ProjectItem>, x: ProjectItem)
    requires !Cached(cache, x.absolutePath)
    ensures NewEntries(cache, [x, x]) == [x, x]
  {
    assert [x, x][1..] == [x];
    assert [x][1..] == [];
    assert NewEntries(cache, [x]) == [x];
  }

  /** After expanding a "Modules" node the cache is the old cache, unchanged and in order,
      followed by the listed projects whose path it did not hold; every listed project,
      including those already cached, is returned and has its path cached afterwards. */
  lemma ModulesExpansionCache(cache: seq<ProjectItem>, element: ProjectItem, ctx: ExtensionContext, ws: Workspace)
    requires element.contextValue == ModulesKind && element.params.modules.Some?
    ensures var e := Expand(cache, Some(element), ctx, ws);
            && e.children.Listed?
            && |cache| <= |e.cache| && e.cache[..|cache|] == cache
            && (forall x :: x in e.cache[|cache|..] <==> x in e.children.items && !Cached(cache, x.absolutePath))
            && (forall x :: x in e.children.items ==> Cached(e.cache, x.absolutePath))
  {
    var e := Expand(cache, Some(element), ctx, ws);
    var items := e.children.items;
    var added := NewEntries(cache, items);
    assert e.cache == cache + added;
    assert e.cache[|cache|..] == added;
    forall x ensures x in added <==> x in items && !Cached(cache, x.absolutePath) {
      NewEntriesMembership(cache, items, x);
    }
    forall x | x in items ensures Cached(e.cache, x.absolutePath) {
      if Cached(cache, x.absolutePath) {
        var i :| 0 <= i < |cache| && cache[i].absolutePath == x.absolutePath;
        assert e.cache[i] == cache[i];
      } else {
        var j :| 0 <= j < |added| && added[j] == x;
        assert e.cache[|cache| + j] == x;
      }
    }
  }

  /** Expanding the same "Modules" node again lists the same projects and adds nothing. */
  lemma ModulesExpansionIdempotent(cache: seq<ProjectItem>, element: ProjectItem, ctx: ExtensionContext, ws: Workspace)
    requires element.contextValue == ModulesKind && element.params.modules.Some?
    ensures var e1 := Expand(cache, Some(element), ctx, ws);
            var e2 := Expand(e1.cache, Some(element), ctx, ws);
            e2.cache == e1.cache && e2.children == e1.children
  {
    var e1 := Expand(cache, Some(element), ctx, ws);
    ModulesExpansionCache(cache, element, ctx, ws);
    NewEntriesOfCachedBatch(e1.cache, e1.children.items);
  }

  /** Entries added from a batch with distinct paths have distinct paths. */
  lemma {:induction false} NewEntriesDistinct(cache: seq<ProjectItem>, items: seq<ProjectItem>)
    requires DistinctPaths(items)
    ensures DistinctPaths(NewEntries(cache, items))
  {
    if |items| > 0 {
      var tail := items[1..];
      NewEntriesDistinct(cache, tail);
      var rest := NewEntries(cache, tail);
      forall j | 0 <= j < |rest| ensures rest[j].absolutePath != items[0].absolutePath {
        NewEntriesMembership(cache, tail, rest[j]);
        var k :| 0 <= k < |tail| && tail[k] == rest[j];
        assert items[k + 1] == rest[j];
      }
      assert NewEntries(cache, items) == (if Cached(cache, items[0].absolutePath) then [] else [items[0]]) + rest;
    }
  }

  /** A "Modules" expansion whose listed projects have distinct paths keeps a cache with
      distinct paths free of duplicates. */
  lemma ModulesExpansionKeepsPathsDistinct(cache: seq<ProjectItem>, element: ProjectItem, ctx: ExtensionContext, ws: Workspace)
    requires element.contextValue == ModulesKind && element.params.modules.Some?
    requires DistinctPaths(cache)
    requires DistinctPaths(Expand(cache, Some(element), ctx, ws).children.items)
    ensures DistinctPaths(Expand(cache, Some(element), ctx, ws).cache)
  {
    var e := Expand(cache, Some(element), ctx, ws);
    var added := NewEntries(cache, e.children.items);
    NewEntriesDistinct(cache, e.children.items);
    assert e.cache == cache + added;
    forall i, j | 0 <= i < j < |e.cache| ensures e.cache[i].absolutePath != e.cache[j].absolutePath {
      if i < |cache| && j >= |cache| {
        var x := added[j - |cache|];
        assert x in added;
        NewEntriesMembership(cache, e.children.items, x);
        assert e.cache[i] == cache[i];
      } else if j >= |cache| {
        assert e.cache[i] == added[i - |cache|] && e.cache[j] == added[j - |cache|];
      }
    }
  }

  // ---- Any other node --------------------------------------------------------------------

  /** Any other kind of node gets `undefined` and leaves the cache alone. */
  lemma OtherNodesListNothing(cache: seq<ProjectItem>, element: ProjectItem, ctx: ExtensionContext, ws: Workspace)
    requires element.contextValue !in {WorkspaceItemKind, MavenProjectKind, ModulesKind}
    ensures Expand(cache, Some(element), ctx, ws) == Expansion(cache, NoResult)
  {
  }

  // ---- Command lines ---------------------------------------------------------------------

  /** The goal command names the project's POM as its last, quoted argument, and runs in the
      terminal named after the project's artifact id. */
  lemma GoalRunTargetsPom(goals: string, item: ProjectItem)
    requires '"' !in item.absolutePath
    ensures SplitLastQuoted(MavenGoalRun(goals, item).command) == Some(("mvn " + goals + " -f ", item.absolutePath))
    ensures MavenGoalRun(goals, item).name == "Maven-" + item.params.artifactId.Template()
  {
    SplitLastQuotedInverse("mvn " + goals + " -f ", item.absolutePath);
  }

  /** Both quoted arguments of the effective-POM command read back: the output file last,
      the POM before it. */
  lemma EffectivePomCommandArguments(pomXmlFilePath: string, outputPath: string)
    requires '"' !in pomXmlFilePath && '"' !in outputPath
    ensures var head := "mvn help:effective-pom -f " + Quoted(pomXmlFilePath);
            && SplitLastQuoted(EffectivePomCommand(pomXmlFilePath, outputPath)) == Some((head + " -Doutput=", outputPath))
            && SplitLastQuoted(head) == Some(("mvn help:effective-pom -f ", pomXmlFilePath))
  {
    var head := "mvn help:effective-pom -f " + Quoted(pomXmlFilePath);
    SplitLastQuotedInverse(head + " -Doutput=", outputPath);
    SplitLastQuotedInverse("mvn help:effective-pom -f ", pomXmlFilePath);
  }

  /** The goal a custom run would use: the trimmed input after "New ...", else the pick. */
  function ChosenGoal(selected: JsString, input: JsString): JsString {
    if selected == Str(EntryNewGoals) then TrimmedInput(input) else selected
  }

  /** `customGoal` saves and runs exactly when the item has a path, "Edit ..." was not picked
      and the chosen goal is not empty (after "New ...": the input is not all white space);
      it then saves the history with that goal promoted and runs the same command
      `executeGoal` runs for that goal. */
  lemma CustomGoalRunsWhatItSaves(item: ProjectItem, history: CommandHistory, selected: JsString, input: JsString)
    ensures var outcome := CustomGoalAction(item, history, selected, input);
            var goal := ChosenGoal(selected, input);
            && (outcome.SaveAndRun? <==> item.absolutePath != "" && selected != Str(EntryOpenHist) && goal.Truthy())
            && (outcome.SaveAndRun? ==>
                  && outcome.saved == history.withLRUItemAhead(history.loadCmdHistory(item.absolutePath), goal.s)
                  && outcome.run == MavenGoalRun(GoalOrLabel(goal, item.labelText), item))
            && (selected == Str(EntryNewGoals) && outcome.SaveAndRun? ==> goal.s == Trim(input.s) && !AllWhitespace(input.s))
  {
  }

  /** "Edit ..." opens the item's history file and runs nothing. */
  lemma CustomGoalEditOpensHistory(item: ProjectItem, history: CommandHistory, input: JsString)
    requires item.absolutePath != ""
    ensures CustomGoalAction(item, history, Str(EntryOpenHist), input) == OpenHistory(history.getCommandHistoryCachePath(item.absolutePath))
  {
  }

  // ---- A walk through a two-project workspace --------------------------------------------

  const RootPom := "/ws/pom.xml"
  const ChildPom := "/ws/child/pom.xml"

  function RootProject(): ProjectItem {
    ProjectItem("root", RootPom, MavenProjectKind,
      Params(Some(PomRoot(Some(PomProject(Some([PomModules(Some(["child"]))]))))), Str("root"), None), None)
  }

  function ChildProject(): ProjectItem {
    ProjectItem("child", ChildPom, MavenProjectKind, Params(Some(PomRoot(Some(PomProject(None)))), Str("child"), None), None)
  }

  /** A workspace `/ws` whose root POM declares the module `child`, with an unbounded scan. */
  function TwoProjectWorkspace(): Workspace {
    Workspace(
      Some([WorkspaceFolder("ws", "/ws")]),
      None,
      (dir: string, name: string, depth: int) => if dir == "/ws" && depth == -1 then [RootPom, ChildPom] else [],
      (path: string, icon: string) => if path == RootPom then Some(RootProject()) else if path == ChildPom then Some(ChildProject()) else None,
      (parts: seq<string>) => Join(parts, "/"),
      (path: string) => if path == RootPom then "/ws" else "")
  }

  /** The scan under the workspace folder already finds the module's POM, so the folder
      lists both projects and caches both. */
  lemma WalkthroughFolderListsBoth(ctx: ExtensionContext)
    ensures var ws := TwoProjectWorkspace();
            Expand([], Some(WorkspaceItem(WorkspaceFolder("ws", "/ws"))), ctx, ws)
              == Expansion([RootProject(), ChildProject()], Listed([RootProject(), ChildProject()]))
  {
    var ws := TwoProjectWorkspace();
    var icon := ProjectIcon(ctx, ws);
    assert ScannedPoms(WorkspaceItem(WorkspaceFolder("ws", "/ws")), ws) == [RootPom, ChildPom];
    assert Resolved([RootPom, ChildPom], ws, icon) == [Some(RootProject()), Some(ChildProject())];
    assert [Some(RootProject()), Some(ChildProject())][1..] == [Some(ChildProject())];
    assert Successful([Some(RootProject()), Some(ChildProject())]) == [RootProject(), ChildProject()];
  }

  /** The root project then lists its "Modules" node, which lists the module again without
      caching it a second time. */
  lemma WalkthroughModulesNotCachedTwice(ctx: ExtensionContext)
    ensures var ws := TwoProjectWorkspace();
            var cache := [RootProject(), ChildProject()];
            var node := ModulesNode(RootProject(), [PomModules(Some(["child"]))], FolderIcon(ctx, ws));
            && Expand(cache, Some(RootProject()), ctx, ws) == Expansion(cache, Listed([node]))
            && Expand(cache, Some(node), ctx, ws) == Expansion(cache, Listed([ChildProject()]))
  {
    var ws := TwoProjectWorkspace();
    var icon := ProjectIcon(ctx, ws);
    var groups := [PomModules(Some(["child"]))];
    assert ["/ws", "child", PomFileName][1..] == ["child", PomFileName];
    assert ["child", PomFileName][1..] == [PomFileName];
    assert Join(["child", PomFileName], "/") == "child/pom.xml";
    assert Join(["/ws", "child", PomFileName], "/") == ChildPom;
    assert GroupPomPaths("/ws", groups[0], ws.join) == [ChildPom];
    assert ModulePomPaths("/ws", groups, ws.join) == [ChildPom];
    assert Resolved([ChildPom], ws, icon) == [Some(ChildProject())];
    assert Successful([Some(ChildProject())]) == [ChildProject()];
    var cache := [RootProject(), ChildProject()];
    assert cache[1].absolutePath == ChildPom;
    assert NewEntries(cache, [ChildProject()]) == [];
  }
}
