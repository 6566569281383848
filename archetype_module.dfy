/** Generating a project from an archetype: the coordinate validator, the remembered defaults of
    the manual flow, the catalog pick flow and the archetype lists behind it. */
module ArchetypeModule {
  import opened JsValues
  import opened Terminal
  import opened Archetypes

  const InvalidValueMessage := "Invalid value."
  const ArchetypeTerminal := "Maven-Archetype"
  const PlaceholderLabel := "More ... "
  const PlaceholderDescription := "View more archetypes in remote catalog."

  const DefaultGroupId := "org.apache.maven.archetypes"
  const DefaultArtifactId := "maven-archetype-quickstart"
  const DefaultVersion := "RELEASE"

  // ---- The coordinate validator ----------------------------------------------------------

  /** The character class `[A-Za-z0-9_\-.]` shared by the groupId, artifactId and version patterns. */
  predicate InCoordinateClass(c: char) {
    ('A' <= c <= 'Z') || ('a' <= c <= 'z') || ('0' <= c <= '9') || c == '_' || c == '-' || c == '.'
  }

  /** `^[A-Za-z0-9_\-.]+$`, read left to right: one character of the class, then either the
      end or another match. */
  predicate MatchesCoordinatePattern(text: string) {
    |text| > 0 && InCoordinateClass(text[0]) && (|text| == 1 || MatchesCoordinatePattern(text[1..]))
  }

  /** The pattern matches exactly the non-empty strings of class characters. */
  lemma {:induction false} CoordinatePatternExact(text: string)
    ensures MatchesCoordinatePattern(text) <==> text != "" && forall i :: 0 <= i < |text| ==> InCoordinateClass(text[i])
  {
    if |text| > 1 {
      CoordinatePatternExact(text[1..]);
      if forall i :: 0 <= i < |text| ==> InCoordinateClass(text[i]) {
        forall i | 0 <= i < |text| - 1 ensures InCoordinateClass(text[1..][i]) {
          assert text[1..][i] == text[i + 1];
        }
      }
      if MatchesCoordinatePattern(text) {
        forall i | 0 <= i < |text| ensures InCoordinateClass(text[i]) {
          if i > 0 {
            assert text[i] == text[1..][i - 1];
          }
        }
      }
    }
  }

  /** The `validateInput` of each step: `null` to accept, the error message to refuse. */
  function ValidateCoordinate(text: string): (r: JsString)
    ensures r == Null <==> text != "" && forall i :: 0 <= i < |text| ==> InCoordinateClass(text[i])
    ensures r != Null ==> r == Str(InvalidValueMessage)
  {
    CoordinatePatternExact(text);
    if MatchesCoordinatePattern(text) then Null else Str(InvalidValueMessage)
  }

  /** An accepted value holds no double quote, so it cannot end its quoted argument early. */
  lemma AcceptedValueHasNoQuote(text: string)
    requires ValidateCoordinate(text) == Null
    ensures '"' !in text
  {
    forall i | 0 <= i < |text| ensures text[i] != '"' {
      assert InCoordinateClass(text[i]);
    }
  }

  // ---- Command lines -----------------------------------------------------------------------

  const GenerateGoal := "archetype:generate"
  const ManualPrefix := "mvn archetype:generate"

  /** The `-D<name>=` head of a property argument. */
  function PropertyKey(name: string): string {
    "-D" + name + "="
  }

  /** A `-D<name>="<value>"` property argument. */
  function Property(name: string, value: string): string {
    PropertyKey(name) + Quoted(value)
  }

  /** `["mvn archetype:generate", -DarchetypeArtifactId, -DarchetypeGroupId, -DarchetypeVersion].join(" ")`:
      the three properties in that order, one space apart. */
  function ManualCommand(artifactId: string, groupId: string, version: string): (cmd: string)
    ensures cmd == ManualPrefix + " " + Property("archetypeArtifactId", artifactId) + " " + Property("archetypeGroupId", groupId)
                   + " " + Property("archetypeVersion", version)
  {
    var parts := [ManualPrefix, Property("archetypeArtifactId", artifactId),
                  Property("archetypeGroupId", groupId), Property("archetypeVersion", version)];
    JoinFour(parts, " ");
    Join(parts, " ")
  }

  /** `[mavenExecutable, "archetype:generate", -DarchetypeArtifactId, -DarchetypeGroupId].join(" ")`,
      with the ids rendered as template literals render them; there is no version property. */
  function CatalogCommand(mavenExecutable: string, artifactId: JsString, groupId: JsString): (cmd: string)
    ensures cmd == mavenExecutable + " " + GenerateGoal + " " + Property("archetypeArtifactId", artifactId.Template())
                   + " " + Property("archetypeGroupId", groupId.Template())
  {
    var parts := [mavenExecutable, GenerateGoal, Property("archetypeArtifactId", artifactId.Template()),
                  Property("archetypeGroupId", groupId.Template())];
    JoinFour(parts, " ");
    Join(parts, " ")
  }

  /** Joining four parts puts the separator between each neighbouring pair. */
  lemma JoinFour(parts: seq<string>, sep: string)
    requires |parts| == 4
    ensures Join(parts, sep) == parts[0] + sep + parts[1] + sep + parts[2] + sep + parts[3]
  {
    var tail1, tail2 := parts[1..], parts[1..][1..];
    assert tail2[1..] == [parts[3]] && tail2[0] == parts[2] && tail1[0] == parts[1];
    assert Join(tail2, sep) == parts[2] + sep + parts[3];
    assert Join(tail1, sep) == parts[1] + sep + (parts[2] + sep + parts[3]);
    assert Join(parts, sep) == parts[0] + sep + (parts[1] + sep + (parts[2] + sep + parts[3]));
  }

  /** The manual command is the catalog command for `mvn` with the version flag added. */
  lemma ManualCommandAddsVersion(artifactId: string, groupId: string, version: string)
    ensures ManualCommand(artifactId, groupId, version) ==
            CatalogCommand("mvn", Str(artifactId), Str(groupId)) + " " + Property("archetypeVersion", version)
  {
    assert "mvn" + " " + GenerateGoal == ManualPrefix;
  }

  /** With an accepted version the manual command reads back its version as the last quoted
      argument. */
  lemma ManualCommandEndsWithVersion(artifactId: string, groupId: string, version: string)
    requires ValidateCoordinate(version) == Null
    ensures SplitLastQuoted(ManualCommand(artifactId, groupId, version)) ==
            Some((CatalogCommand("mvn", Str(artifactId), Str(groupId)) + " " + PropertyKey("archetypeVersion"), version))
  {
    AcceptedValueHasNoQuote(version);
    ManualCommandAddsVersion(artifactId, groupId, version);
    var head := CatalogCommand("mvn", Str(artifactId), Str(groupId)) + " " + PropertyKey("archetypeVersion");
    assert ManualCommand(artifactId, groupId, version) == head + Quoted(version);
    SplitLastQuotedInverse(head, version);
  }

  // ---- The manual flow ---------------------------------------------------------------------

  /** The three input boxes of the manual flow. */
  datatype InputStep = GroupIdStep | ArtifactIdStep | VersionStep

  /** What an input box is opened with: its placeholder, its prompt and its initial value. */
  datatype InputBoxOptions = InputBoxOptions(placeHolder: string, prompt: string, value: string)

  function StepOptions(step: InputStep, value: string): InputBoxOptions {
    match step
    case GroupIdStep => InputBoxOptions("e.g. org.apache.maven.archetypes", "Please specify <GroupId> of the archetype.", value)
    case ArtifactIdStep => InputBoxOptions("e.g. maven-archetype-quickstart", "Please specify <ArtifactId> of the archetype.", value)
    case VersionStep => InputBoxOptions("e.g. RELEASE", "Please specify <Version> of the archetype.", value)
  }

  /** The remembered values the next manual flow starts its input boxes with. */
  datatype Defaults = Defaults(groupId: string, artifactId: string, version: string)

  /** The outcome of the manual flow: the new defaults and the command it runs, if any. */
  datatype ManualOutcome = ManualOutcome(defaults: Defaults, run: Option<TerminalCommand>)

  /** The specification of `addArcheTypeSteps`, given what the user answers in each input box. */
  function ManualFlow(d: Defaults, cwd: string, inputBox: InputBoxOptions -> JsString): ManualOutcome {
    var g := inputBox(StepOptions(GroupIdStep, d.groupId));
    if !g.Truthy() then ManualOutcome(d, None)
    else
      var a := inputBox(StepOptions(ArtifactIdStep, d.artifactId));
      if !a.Truthy() then ManualOutcome(d.(groupId := g.s), None)
      else
        var v := inputBox(StepOptions(VersionStep, d.version));
        if !v.Truthy() then ManualOutcome(d.(groupId := g.s, artifactId := a.s), None)
        else ManualOutcome(Defaults(g.s, a.s, v.s), Some(TerminalCommand(ManualCommand(a.s, g.s, v.s), ArchetypeTerminal, Some(cwd))))
  }

  /** Each box is opened with the value last entered in it. A default changes only to the
      non-empty answer of its own step; a step left empty or cancelled keeps its default and
      every later one and stops the flow; the command runs exactly when all three steps give a
      value, and it is the manual command for those values in the chosen folder. */
  lemma ManualFlowRemembersAnswers(d: Defaults, cwd: string, inputBox: InputBoxOptions -> JsString)
    ensures var o := ManualFlow(d, cwd, inputBox);
            var g := inputBox(StepOptions(GroupIdStep, d.groupId));
            var a := inputBox(StepOptions(ArtifactIdStep, d.artifactId));
            var v := inputBox(StepOptions(VersionStep, d.version));
            && (o.defaults.groupId == if g.Truthy() then g.s else d.groupId)
            && (o.defaults.artifactId == if g.Truthy() && a.Truthy() then a.s else d.artifactId)
            && (o.defaults.version == if g.Truthy() && a.Truthy() && v.Truthy() then v.s else d.version)
            && (o.run.Some? <==> g.Truthy() && a.Truthy() && v.Truthy())
            && (o.run.Some? ==> o.run.value == TerminalCommand(ManualCommand(a.s, g.s, v.s), ArchetypeTerminal, Some(cwd)))
  {
  }

  /** A command runs only once every remembered default holds a non-empty answer. */
  lemma ManualRunUsesRememberedValues(d: Defaults, cwd: string, inputBox: InputBoxOptions -> JsString)
    ensures var o := ManualFlow(d, cwd, inputBox);
            o.run.Some? ==> && o.defaults.groupId != "" && o.defaults.artifactId != "" && o.defaults.version != ""
                            && o.run.value.command == ManualCommand(o.defaults.artifactId, o.defaults.groupId, o.defaults.version)
  {
  }

  /** The module-level `let` variables `groupIdValue`, `artifactIdValue` and `versionValue`. */
  class ArchetypeDefaults {
    var groupIdValue: string
    var artifactIdValue: string
    var versionValue: string

    constructor ()
      ensures groupIdValue == DefaultGroupId && artifactIdValue == DefaultArtifactId && versionValue == DefaultVersion
    {
      groupIdValue := DefaultGroupId;
      artifactIdValue := DefaultArtifactId;
      versionValue := DefaultVersion;
    }

    function Current(): Defaults
      reads this
    {
      Defaults(groupIdValue, artifactIdValue, versionValue)
    }

    /** `addArcheTypeSteps(cwd)`: asks for the three coordinates in turn, remembering each answer. */
    method AddArchetypeSteps(cwd: string, inputBox: InputBoxOptions -> JsString) returns (run: Option<TerminalCommand>)
      modifies this
      ensures Current() == ManualFlow(old(Current()), cwd, inputBox).defaults
      ensures run == ManualFlow(old(Current()), cwd, inputBox).run
    {
      var groupId := inputBox(StepOptions(GroupIdStep, groupIdValue));
      if groupId.Truthy() {
        groupIdValue := groupId.s;
      } else {
        return None;
      }
      var artifactId := inputBox(StepOptions(ArtifactIdStep, artifactIdValue));
      if artifactId.Truthy() {
        artifactIdValue := artifactId.s;
      } else {
        return None;
      }
      var version := inputBox(StepOptions(VersionStep, versionValue));
      if version.Truthy() {
        versionValue := version.s;
      } else {
        return None;
      }
      var cmd := ManualCommand(artifactId.s, groupId.s, version.s);
      run := Some(TerminalCommand(cmd, ArchetypeTerminal, Some(cwd)));
    }
  }

  // ---- The pick items ----------------------------------------------------------------------

  /** The bundled list a pick reads: the short list for the first pick, the full one after. */
  function PickItemsFile(min: bool): string {
    if min then "archetypes.min.json" else "archetypes.json"
  }

  /** `loadArchetypePickItems(min)`: the bundled list, with a trailing "More" placeholder on the
      short list. `readJson` stands for reading and parsing the file at the path built by `join`. */
  method LoadArchetypePickItems(min: bool, extensionRoot: string, join: seq<string> -> string, readJson: string -> seq<Archetype>)
    returns (items: seq<Archetype>)
    ensures var read := readJson(join([extensionRoot, "resources", PickItemsFile(min)]));
            && (!min ==> items == read)
            && (min ==> |items| == |read| + 1 && items[..|read|] == read)
    ensures min ==> var more := items[|items| - 1];
                    && fresh(more)
                    && more.labelText == PlaceholderLabel && more.description == Str(PlaceholderDescription)
                    && more.artifactId == Null && more.groupId == Null && more.repository == Null
                    && more.versions == []
  {
    var contentPath := join([extensionRoot, "resources", PickItemsFile(min)]);
    items := readJson(contentPath);
    if min {
      var fakeArchetype := new Archetype(Null, Null, Null, Str(PlaceholderDescription));
      fakeArchetype.labelText := PlaceholderLabel;
      items := items + [fakeArchetype];
    }
  }

  /** The label of a first-pick entry. */
  function PickLabel(item: Archetype): (r: string)
    reads item
    ensures r == "More ..." <==> !item.groupId.Truthy()
    ensures item.groupId.Truthy() ==> |r| == |item.groupId.s| + 12 && r[..11] == "$(package) " && r[11..|r| - 1] == item.groupId.s && r[|r| - 1] == ' '
  {
    if item.groupId.Truthy() then "$(package) " + item.groupId.s + " " else "More ..."
  }

  /** The detail line of a first-pick entry. */
  function PickDetail(item: Archetype): (r: string)
    reads item
    ensures r == "More ... " <==> !item.artifactId.Truthy()
    ensures item.artifactId.Truthy() ==> |r| == |item.artifactId.s| + 18 && r[..18] == "$(kebab-vertical) " && r[18..] == item.artifactId.s
  {
    if item.artifactId.Truthy() then "$(kebab-vertical) " + item.artifactId.s else "More ... "
  }

  // ---- The pick flow -----------------------------------------------------------------------

  /** The command a picked archetype runs in the chosen folder. */
  function CatalogRun(mavenExecutable: string, cwd: string, picked: Archetype): TerminalCommand
    reads picked
  {
    TerminalCommand(CatalogCommand(mavenExecutable, picked.artifactId, picked.groupId), ArchetypeTerminal, Some(cwd))
  }

  /** `selectArchetypesSteps(cwd)`. The user's choice in each pick is an index into the list
      offered, or `None` for a dismissed pick; the second pick is consulted only when the first
      choice has no artifact id. */
  method SelectArchetypesSteps(cwd: string, mavenExecutable: string, extensionRoot: string,
                               join: seq<string> -> string, readJson: string -> seq<Archetype>,
                               firstChoice: Option<nat>, secondChoice: Option<nat>)
    returns (run: Option<TerminalCommand>)
    requires firstChoice.Some? ==> firstChoice.value <= |readJson(join([extensionRoot, "resources", PickItemsFile(true)]))|
    requires secondChoice.Some? ==> secondChoice.value < |readJson(join([extensionRoot, "resources", PickItemsFile(false)]))|
    ensures var short := readJson(join([extensionRoot, "resources", PickItemsFile(true)]));
            var full := readJson(join([extensionRoot, "resources", PickItemsFile(false)]));
            var second := if secondChoice.Some? then Some(CatalogRun(mavenExecutable, cwd, full[secondChoice.value])) else None;
            && (firstChoice.None? ==> run.None?)
            && (firstChoice.Some? && firstChoice.value == |short| ==> run == second)
            && (firstChoice.Some? && firstChoice.value < |short| ==>
                  run == if short[firstChoice.value].artifactId.Truthy()
                         then Some(CatalogRun(mavenExecutable, cwd, short[firstChoice.value]))
                         else second)
  {
    var items := LoadArchetypePickItems(true, extensionRoot, join, readJson);
    var selected: Option<Archetype> := None;
    if firstChoice.Some? {
      selected := Some(items[firstChoice.value]);
    }
    if selected.None? {
      return None;
    } else if !selected.value.artifactId.Truthy() {
      var fullItems := LoadArchetypePickItems(false, extensionRoot, join, readJson);
      selected := None;
      if secondChoice.Some? {
        selected := Some(fullItems[secondChoice.value]);
      }
    }
    if selected.Some? {
      var cmd := CatalogCommand(mavenExecutable, selected.value.artifactId, selected.value.groupId);
      run := Some(TerminalCommand(cmd, ArchetypeTerminal, Some(cwd)));
    } else {
      run := None;
    }
  }

  // ---- The catalog list --------------------------------------------------------------------

  /** What `getArchetypeList` reads: the remote catalog for a URL, the bundled catalog file and
      the local catalog file (`null` when the file does not exist), and the catalog parser. */
  datatype CatalogSources = CatalogSources(
    httpGetContent: string -> JsString,
    providedXml: JsString,
    localXml: JsString,
    listArchetypeFromXml: JsString -> seq<Archetype>)

  /** The non-local catalog: the given URL, otherwise the bundled file. */
  function NonLocalXml(url: JsString, sources: CatalogSources): JsString {
    if url.Truthy() then sources.httpGetContent(url.s) else sources.providedXml
  }

  /** `getArchetypeList(url?)`: the non-local entries followed by the local ones, as
      `[].concat.apply([], lists)` flattens them. */
  function GetArchetypeList(url: JsString, sources: CatalogSources): (r: seq<Archetype>)
    ensures var nonLocal := sources.listArchetypeFromXml(NonLocalXml(url, sources));
            var local := sources.listArchetypeFromXml(sources.localXml);
            && |r| == |nonLocal| + |local|
            && r[..|nonLocal|] == nonLocal && r[|nonLocal|..] == local
  {
    var lists := [sources.listArchetypeFromXml(NonLocalXml(url, sources)), sources.listArchetypeFromXml(sources.localXml)];
    var rest := lists[1..];
    assert rest[0] == lists[1] && rest[1..] == [];
    assert Flatten(rest) == lists[1] + Flatten(rest[1..]);
    assert Flatten(lists) == lists[0] + lists[1];
    Flatten(lists)
  }

  /** Given a URL, the bundled catalog file plays no part in the list. */
  lemma UrlReplacesProvidedCatalog(url: JsString, sources: CatalogSources, providedXml: JsString)
    requires url.Truthy()
    ensures GetArchetypeList(url, sources) == GetArchetypeList(url, sources.(providedXml := providedXml))
  {
    var other := sources.(providedXml := providedXml);
    var r1, r2 := GetArchetypeList(url, sources), GetArchetypeList(url, other);
    assert r1 == r1[..|sources.listArchetypeFromXml(NonLocalXml(url, sources))|] + r1[|sources.listArchetypeFromXml(NonLocalXml(url, sources))|..];
    assert r2 == r2[..|other.listArchetypeFromXml(NonLocalXml(url, other))|] + r2[|other.listArchetypeFromXml(NonLocalXml(url, other))|..];
  }

  /** Entries that both catalogs list appear twice: nothing is merged. */
  lemma CatalogListKeepsDuplicates(url: JsString, sources: CatalogSources, a: Archetype)
    requires a in sources.listArchetypeFromXml(NonLocalXml(url, sources))
    requires a in sources.listArchetypeFromXml(sources.localXml)
    ensures multiset(GetArchetypeList(url, sources))[a] >= 2
  {
    var nonLocal := sources.listArchetypeFromXml(NonLocalXml(url, sources));
    var local := sources.listArchetypeFromXml(sources.localXml);
    var r := GetArchetypeList(url, sources);
    assert r == nonLocal + local;
    assert multiset(r) == multiset(nonLocal) + multiset(local);
  }
}
