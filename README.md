# vscode-maven: the project view, archetype generation and usage statistics, in Dafny

This project models the core of the vscode-maven extension. It covers four parts.

- **The project tree engine** (`src/ProjectDataProvider.ts`). `getChildren` lazily expands the Maven project tree:
  - the root lists the workspace folders;
  - a workspace folder lists every POM a depth-bounded scan finds;
  - a project lists one synthetic "Modules" node when its POM declares modules;
  - a "Modules" node lists the projects of the declared module directories.

  Along the way the engine keeps `cachedItems`, the project items shown since the last root query. The quick picks of `executeGoal`, `effectivePom` and `customGoal` offer those items. These three commands build `mvn` command lines for a project.
- **Archetype generation** (`src/ArchetypeModule.ts`):
  - the coordinate validator of the manual flow;
  - the manual flow, whose three input boxes remember the last values entered;
  - the catalog pick flow, with its "More" placeholder and second pick;
  - the two `archetype:generate` command lines;
  - the concatenation of the remote or bundled catalog with the local one.
- **The archetype record** (`src/Archetype.ts`): its fields and its derived label.
- **Usage statistics** (`src/UsageData.ts`). A transaction collects custom measures and properties. When it completes it becomes one telemetry event.

Layout:

| file | module | contents |
|---|---|---|
| `js_values.dfy` | `JsValues`, `Terminal` | `null`/`undefined`-able strings and their truthiness; `trim`, `join` and `filter(x => x)`; a terminal run; reading back a quoted last argument |
| `project_model.dfy` | `ProjectModel` | the tree item and the parsed-POM shapes it carries |
| `project_data_provider.dfy` | `MavenProjects` | the specification function `Expand` of `getChildren`; its loops as methods; the class `ProjectDataProvider` with the mutable `cachedItems`; the command builders |
| `project_tree_lemmas.dfy` | `ProjectTreeProperties` | what expansion does to the cache and the children; command-line lemmas; a two-project walkthrough |
| `archetype.dfy` | `Archetypes` | the class `Archetype` |
| `archetype_module.dfy` | `ArchetypeModule` | validator, commands, the class `ArchetypeDefaults` for the module-level `let`s, the pick flow, the catalog list |
| `usage_data.dfy` | `UsageData` | the class `Transaction`, the value-level measure functions and their lemmas |

Modelling choices:

- **Injected helpers.** Everything the core asks of its environment becomes a function-valued field of an input record:
  - the POM scan `Utils.findAllInDir` and the POM loader `Utils.getProject`;
  - `path.join`, `path.dirname` and `asAbsolutePath`;
  - the history helpers, `exec`, `readFileIfExists` and `readJSON`;
  - the catalog parser `listArchetypeFromXml`.

  The model assumes nothing about any of them.
- **UI answers.** Quick picks and input boxes become parameters holding the user's answer.
- **Terminal runs.** A run is returned as a `TerminalCommand`: the command line, the terminal name and the working directory.
- **Expansion results.** `getChildren` resolves to one of three results:
  - a list;
  - `undefined`, when no branch returns;
  - a rejection, when the node lacks the `params.pom` or `params.modules` it reads.
- **Timestamps.** JavaScript `Date`s are integer milliseconds.

Behaviour worth knowing, each stated by a lemma:

- **No de-duplication for workspace folders.** Expanding a workspace folder appends every loaded project to the cache without checking. So does expanding the same folder again, so the cache can hold a path twice (`WorkspaceExpansionTwiceDuplicates`). Only the "Modules" expansion de-duplicates.
- **De-duplication against the old cache only.** The "Modules" expansion checks each item against the cache as it was before the call. Two items of one batch with the same path are therefore both added (`BatchDuplicatesBothAdded`). Items already cached are still returned.
- **Submodules listed twice.** When the workspace-folder scan (within `maven.projects.maxDepthOfPom`) also finds a submodule's POM, that module appears both directly under its folder and under its parent's "Modules" node (`WalkthroughFolderListsBoth`, `WalkthroughModulesNotCachedTwice`).
- **No catalog merging.** `getArchetypeList` concatenates the two catalogs without merging by coordinates. An archetype listed in both appears twice (`CatalogListKeepsDuplicates`).

## Model

| member | source | states |
|---|---|---|
| MavenProjects.ScanDepth | src/ProjectDataProvider.ts:42 | an unset or zero `maxDepthOfPom` gives -1 (unbounded), any other setting is used as is; the depth is never 0 |
| MavenProjects.CollectWorkspaceItems | src/ProjectDataProvider.ts:32-38 | the root loop yields one workspace item per folder, in folder order |
| MavenProjects.GetProjects | src/ProjectDataProvider.ts:44-47 | the loading loop yields the projects that load, in path order (the filter over `getProject` results) |
| MavenProjects.CollectModulePomPaths | src/ProjectDataProvider.ts:67-75 | the nested loops yield `join(dirname(pom), module, "pom.xml")` for each module of each `<modules>` element with a module list, in declaration order |
| MavenProjects.EffectivePomResult | src/ProjectDataProvider.ts:129-133 | the result is `null` exactly when `exec` reports an error or any stderr output, otherwise the output path |
| MavenProjects.TrimmedInput | src/ProjectDataProvider.ts:164 | the trimmed goal is truthy exactly when the input is a string that is not all white space, and is then the trimmed input |
| MavenProjects.ProjectDataProvider.constructor | src/ProjectDataProvider.ts:17-22 | keeps the context; the cache starts empty |
| MavenProjects.ProjectDataProvider.GetChildren | src/ProjectDataProvider.ts:28-87 | the new cache and the children are those of `Expand` on the old cache, branch by branch |
| MavenProjects.ProjectDataProvider.RefreshTree | src/ProjectDataProvider.ts:89-91 | fires the change event for the whole tree (no element) and leaves the cache alone (it modifies nothing) |
| MavenProjects.ProjectDataProvider.ExecuteGoal | src/ProjectDataProvider.ts:93-106 | runs exactly when there is a target item (given, else picked from the cache): `mvn <goal or label> -f "<path>"` in terminal `Maven-<artifactId>` |
| MavenProjects.ProjectDataProvider.EffectivePom | src/ProjectDataProvider.ts:108-146 | with no POM path nothing is executed; otherwise it executes `mvn help:effective-pom -f "<pom>" -Doutput="<out>"` and opens what `readFileIfExists` returns for the result (the output path, or null after an error), or shows the error message when that is empty or missing |
| MavenProjects.ProjectDataProvider.CustomGoal | src/ProjectDataProvider.ts:148-157 | with no target item it does nothing, otherwise it acts as `CustomGoalAction` on the target |
| ProjectTreeProperties.RootQueryListsFolders | src/ProjectDataProvider.ts:30-39 | the root query empties the cache and lists one workspace item per folder (none when there are no folders) |
| ProjectTreeProperties.WorkspaceExpansion | src/ProjectDataProvider.ts:40-49 | a folder lists exactly the projects loaded from the scanned paths, never more projects than scanned paths, and appends all of them to the cache |
| ProjectTreeProperties.LoadingKeepsScanOrder | src/ProjectDataProvider.ts:44-47 | loading two runs of paths lists the first run's projects before the second's |
| ProjectTreeProperties.WorkspaceExpansionTwiceDuplicates | src/ProjectDataProvider.ts:48 | expanding the same folder twice lists the same projects and appends them twice, so the cache then holds a duplicated path |
| ProjectTreeProperties.MavenProjectExpansion | src/ProjectDataProvider.ts:50-64 | a project leaves the cache alone; it is rejected exactly when it has no parsed POM; it lists one "Modules" node (same path, params extended by the modules, folder icon) when modules are declared, else nothing |
| ProjectTreeProperties.ModulesNodeExpandsDeclaredModules | src/ProjectDataProvider.ts:54-80 | the "Modules" node a project lists expands to the projects loaded from that project's declared modules |
| ProjectTreeProperties.ModulePomPathsMembership | src/ProjectDataProvider.ts:68-75 | a path is a candidate exactly when it is `join(dir, m, "pom.xml")` for a module `m` of some `<modules>` element |
| ProjectTreeProperties.GroupWithoutModulesAddsNothing | src/ProjectDataProvider.ts:69 | a `<modules>` element without module list contributes no path |
| ProjectTreeProperties.DanglingModuleOmitted | src/ProjectDataProvider.ts:76-80 | a module whose POM does not load is skipped: fewer projects than candidate paths |
| ProjectTreeProperties.NewEntriesMembership | src/ProjectDataProvider.ts:81-83 | an item is added exactly when it is returned and its path is not in the old cache |
| ProjectTreeProperties.NewEntriesOfCachedBatch | src/ProjectDataProvider.ts:81-83 | nothing is added when every returned path is already cached |
| ProjectTreeProperties.BatchDuplicatesBothAdded | src/ProjectDataProvider.ts:81-83 | two uncached items with the same path in one batch are both added |
| ProjectTreeProperties.ModulesExpansionCache | src/ProjectDataProvider.ts:80-84 | old entries stay, in order, as a prefix; what follows is exactly the returned items with uncached paths; every returned item is cached afterwards |
| ProjectTreeProperties.ModulesExpansionIdempotent | src/ProjectDataProvider.ts:65-84 | expanding the same "Modules" node again lists the same projects and leaves the cache as it was |
| ProjectTreeProperties.NewEntriesDistinct | src/ProjectDataProvider.ts:81-83 | entries added from a batch with distinct paths have distinct paths |
| ProjectTreeProperties.ModulesExpansionKeepsPathsDistinct | src/ProjectDataProvider.ts:80-84 | a cache without duplicate paths stays so when the batch has none |
| ProjectTreeProperties.OtherNodesListNothing | src/ProjectDataProvider.ts:86-87 | any other kind of node resolves to `undefined` and leaves the cache alone |
| ProjectTreeProperties.GoalRunTargetsPom | src/ProjectDataProvider.ts:102-103 | for a POM path without `"`, the goal command's last quoted argument reads back as that path; the terminal is `Maven-<artifactId>`. The requires is needed because line 102 quotes the path without escaping, so a `"` in it ends the argument early |
| ProjectTreeProperties.EffectivePomCommandArguments | src/ProjectDataProvider.ts:128 | for a POM path and an output path without `"`, the effective-POM command reads back the output path as its last quoted argument and the POM path before it. The requires is needed because line 128 quotes both paths without escaping, so a `"` in either ends its argument early |
| ProjectTreeProperties.CustomGoalRunsWhatItSaves | src/ProjectDataProvider.ts:155-181 | it saves and runs exactly when the item has a path, "Edit ..." was not picked and the chosen goal is non-empty; the saved history promotes that goal and the run is the `executeGoal` command for it; after "New ..." the goal is the trimmed, not-all-white-space input |
| ProjectTreeProperties.CustomGoalEditOpensHistory | src/ProjectDataProvider.ts:172-174 | "Edit ..." opens the item's history file |
| ProjectTreeProperties.WalkthroughFolderListsBoth | src/ProjectDataProvider.ts:40-49 | in a workspace with a root project and its module, the folder lists and caches both projects |
| ProjectTreeProperties.WalkthroughModulesNotCachedTwice | src/ProjectDataProvider.ts:50-84 | the root project lists its "Modules" node, which lists the module again without caching it twice |
| Archetypes.CoordinateLabelIdentifies | src/Archetype.ts:14 | labels built from group ids without ':' are equal exactly when group and artifact ids render equal |
| Archetypes.Archetype.constructor | src/Archetype.ts:10-17 | first argument is the artifact id, second the group id; versions empty; label `gid:aid`; description and repository from the optional arguments, `undefined` when omitted |
| ArchetypeModule.CoordinatePatternExact | src/ArchetypeModule.ts:22-24 | the pattern `^[A-Za-z0-9_\-.]+$` matches exactly the non-empty strings of class characters |
| ArchetypeModule.ValidateCoordinate | src/ArchetypeModule.ts:82 | the validator yields `null` exactly for non-empty strings of `A-Z a-z 0-9 _ - .`, and "Invalid value." otherwise (the same check at lines 94 and 106) |
| ArchetypeModule.AcceptedValueHasNoQuote | src/ArchetypeModule.ts:22-24 | an accepted value contains no double quote |
| ArchetypeModule.ManualCommand | src/ArchetypeModule.ts:114-117 | the manual command is `mvn archetype:generate` and the artifact id, group id and version properties, in that order, single-space joined |
| ArchetypeModule.CatalogCommand | src/ArchetypeModule.ts:66-72 | the catalog command is the Maven executable, `archetype:generate`, and the artifact id and group id properties, single-space joined, with no version |
| ArchetypeModule.ManualCommandAddsVersion | src/ArchetypeModule.ts:114-117 | the manual command is the catalog command for `mvn` followed by the version property |
| ArchetypeModule.ManualCommandEndsWithVersion | src/ArchetypeModule.ts:114-117 | with an accepted version, the manual command reads back that version as its last quoted argument |
| ArchetypeModule.ManualFlowRemembersAnswers | src/ArchetypeModule.ts:77-119 | each box opens with its remembered value; a default changes only to its own step's non-empty answer; an empty or cancelled step keeps it and all later ones and runs nothing; the command runs exactly when all three steps answered |
| ArchetypeModule.ManualRunUsesRememberedValues | src/ArchetypeModule.ts:84-118 | a run uses exactly the values now remembered, all non-empty |
| ArchetypeModule.ArchetypeDefaults.constructor | src/ArchetypeModule.ts:26-28 | the remembered defaults start as `org.apache.maven.archetypes`, `maven-archetype-quickstart`, `RELEASE` |
| ArchetypeModule.ArchetypeDefaults.AddArchetypeSteps | src/ArchetypeModule.ts:77-119 | the new defaults and the run are those of `ManualFlow` on the old defaults |
| ArchetypeModule.LoadArchetypePickItems | src/ArchetypeModule.ts:141-150 | the full list is the file as read; the short list is the file plus one fresh trailing placeholder with null ids and repository, label "More ... " and the remote-catalog description |
| ArchetypeModule.PickLabel | src/ArchetypeModule.ts:47 | the label is "More ..." exactly when the group id is falsy, else `$(package) <groupId> ` with its trailing space |
| ArchetypeModule.PickDetail | src/ArchetypeModule.ts:48 | the detail is "More ... " exactly when the artifact id is falsy, else `$(kebab-vertical) <artifactId>` |
| ArchetypeModule.SelectArchetypesSteps | src/ArchetypeModule.ts:44-75 | a dismissed first pick runs nothing; a pick with an artifact id runs the catalog command for it; a pick without one, the placeholder included, defers to the second pick over the full list, which runs the command for its choice or nothing |
| ArchetypeModule.GetArchetypeList | src/ArchetypeModule.ts:121-139 | the list is the non-local catalog's entries followed by the local catalog's, nothing added or dropped |
| ArchetypeModule.UrlReplacesProvidedCatalog | src/ArchetypeModule.ts:123-130 | with a URL the bundled catalog file plays no part |
| ArchetypeModule.CatalogListKeepsDuplicates | src/ArchetypeModule.ts:137-138 | an archetype in both catalogs appears at least twice |
| UsageData.WithMeasure | src/UsageData.ts:51-55 | an existing key keeps its measure; a new key gets no observations and the given reducer; other keys are unaffected |
| UsageData.WithObservation | src/UsageData.ts:57-61 | the observation is appended to a known key's list; unknown keys and other keys are unaffected |
| UsageData.ObservationsAccumulate | src/UsageData.ts:57-61 | successive observations end up in order after the existing ones, under their own key only |
| UsageData.InitMeasureIdempotent | src/UsageData.ts:51-55 | initialising a key again keeps the first reducer |
| UsageData.InitMeasureKeepsObservations | src/UsageData.ts:51-55 | re-initialising an observed measure keeps its observations |
| UsageData.EventMeasures | src/UsageData.ts:42-46 | one entry per custom measure, its reducer applied to its observations, plus `duration = stopAt - startAt`, which wins over a custom `duration` |
| UsageData.EventProperties | src/UsageData.ts:47 | the custom properties with `startAt`, `stopAt` and `success` added, winning over same-named keys |
| UsageData.ReportedMeasureReducesObservations | src/UsageData.ts:42-61 | a measure initialised on a new key (other than `duration`) and then observed is reported as its reducer applied to exactly those observations |
| UsageData.Transaction.constructor | src/UsageData.ts:30-38 | both dictionaries start empty, every other field `undefined` |
| UsageData.Transaction.GetCustomEvent | src/UsageData.ts:40-49 | the event exists exactly when both timestamps are set, with `EventMeasures` and `EventProperties` of the current state |
| UsageData.Transaction.InitMeasure | src/UsageData.ts:51-55 | the measures become `WithMeasure` of the old ones; nothing else changes |
| UsageData.Transaction.ObserveMeasure | src/UsageData.ts:57-61 | the measures become `WithObservation` of the old ones; nothing else changes |
| UsageData.Transaction.Complete | src/UsageData.ts:63-66 | stamps `stopAt` first and then reports, so reporting fails only when `startAt` was never set; nothing else changes |
| UsageData.StartTransaction | src/UsageData.ts:12-17 | a fresh transaction with `id = null` and `startAt` set, otherwise as constructed |
| UsageData.ReportTransaction | src/UsageData.ts:19-28 | building the event fails exactly when a timestamp is missing; otherwise the event is sent exactly when statistics are enabled, as `eskibear.vscode-maven/Transection` |
| UsageData.TransactionEventName | src/UsageData.ts:5 | the transaction event is named `eskibear.vscode-maven/Transection` |
| UsageData.CompletedTransactionReportsDuration | src/UsageData.ts:12-66 | a started, observed and completed transaction sends its elapsed time and its measure reduced over the observation |
| JsValues.Trim | src/ProjectDataProvider.ts:164 | the trimmed string is a contiguous slice of the input with only white space cut from either end; it is empty exactly when the input is all white space, and otherwise neither starts nor ends with white space |
| JsValues.TrimIdempotent | src/ProjectDataProvider.ts:164 | trimming twice is trimming once |
| JsValues.SuccessfulMembership | src/ProjectDataProvider.ts:47 | the filter keeps exactly the loaded projects |
| JsValues.SuccessfulLength | src/ProjectDataProvider.ts:80 | the filter drops exactly one entry per project that fails to load, so it never adds entries and shrinks whenever a load fails |

## Left out

- **Excluded source files.** `ProjectItem.ts`, `XmlSchema.ts`, `Utils.ts`, `VSCodeUI.ts` and `extension.ts` are not part of this model. The tree item and the parsed POM keep only the fields the core reads or writes.
- **Injected helpers.** These are uninterpreted function fields:
  - the POM scan and the POM parser (`findAllInDir`, `getProject`);
  - the catalog parser (`listArchetypeFromXml`);
  - the history helpers (`loadCmdHistory`, `withLRUItemAhead`, `saveCmdHistory`, `getCommandHistoryCachePath`);
  - `getMavenExecutable`, `getEffectivePomOutputPath` and `readFileIfExists`.

  Their own behaviour, such as the history's LRU order or XML parsing, is not modelled.
- **Path functions.** `path.join` and `path.dirname` are abstract string functions, so the model does no path normalisation. Cache de-duplication is exact string equality on the item path.
- **I/O and UI.** These become parameters holding their results:
  - `exec`, the HTTP fetch, and the file reads and existence checks;
  - the quick picks, input boxes and dialogs.

  The model does not capture text documents, status bar messages, error messages beyond the returned outcome, or the terminal itself.
- **Concurrency.** `Promise.all` is modelled as an order-preserving sequential map, and asynchrony is left out.
- MavenProjects.ProjectDataProvider.CustomGoal: saving the history happens in `saveCmdHistory`. The model returns the list that would be saved rather than writing it. The history list offered in the pick is not modelled; only the user's answer is.
- **Validators.** The three validators are one regular expression, `^[A-Za-z0-9_\-.]+$`, modelled once as a character predicate. The input box is not assumed to enforce the validator.
- ArchetypeModule.SelectArchetypesSteps: a pick is an index into the offered list, which stands for the chosen object. The quick-pick label and detail functions are modelled separately as `PickLabel` and `PickDetail`.
- **`generateFromArchetype`.** `generateFromArchetype` only asks for the destination folder before calling `selectArchetypesSteps`. Its dialog is left out, and the chosen folder is the `cwd` parameter.
- **Telemetry delivery.** `isEnabled` is a boolean parameter. `TelemetryReporter.sendTelemetryEvent` is represented by the returned `Sent` event.
- **Numbers.** Reducer results and `duration` are mathematical reals, with no floating-point rounding.
- **Prototype keys.** Measure keys are looked up in a plain map. A key such as `toString` would find an inherited `Object.prototype` member in the original, and that case is not modelled.
- **Missing `params`.** A workspace folder item has no `params`. The model gives it an empty record, so running a goal on one renders `Maven-undefined` where the original would throw. Only project items are offered for goals.
- `MavenProjects.ProjectDataProvider.RefreshTree` states only that the whole tree is signalled. The event emitter is not modelled.
- ProjectTreeProperties.GoalRunTargetsPom: stated only for a POM path without `"`. The original quotes the path without escaping, so for a path containing `"` the command line does not carry the path as one argument.
- ProjectTreeProperties.EffectivePomCommandArguments: stated only for paths without `"`, for the same reason: both paths are quoted without escaping.
- MavenProjects.ProjectDataProvider.EffectivePom: `readFileIfExists` is an uninterpreted helper, so what it returns for a null result (after `exec` reports an error) is not modelled; the contract only says the error message is shown exactly when that return value is falsy.
