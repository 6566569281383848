/** The tree items the project view shows and the parts of a parsed POM they carry.
    These mirror the shapes of ProjectItem.ts and XmlSchema.ts, which are not part of this model:
    only the fields the project tree reads or writes are kept. */
module ProjectModel {
  import opened JsValues

  /** One `<modules>` element of a POM, with its `<module>` children (the field `module`) when it has any. */
  datatype PomModules = PomModules(moduleNames: Option<seq<string>>)

  /** The `<project>` element of a POM; its `<modules>` elements when it declares any. */
  datatype PomProject = PomProject(modules: Option<seq<PomModules>>)

  /** A parsed POM document. */
  datatype PomRoot = PomRoot(project: Option<PomProject>)

  /** The free-form `params` record of a tree item. A workspace folder item has none of them. */
  datatype Params = Params(pom: Option<PomRoot>, artifactId: JsString, modules: Option<seq<PomModules>>)

  const NoParams := Params(None, Undefined, None)

  /** A node of the project tree (the source names its fields `label` and `abosolutePath`). */
  datatype ProjectItem = ProjectItem(
    labelText: string,
    absolutePath: string,
    contextValue: string,
    params: Params,
    iconPath: Option<string>)

  const WorkspaceItemKind := "WorkspaceItem"
  const MavenProjectKind := "mavenProject"
  const ModulesKind := "Modules"
}
