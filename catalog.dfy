/** The catalog queries of `TeamCityWebClient`: project names, qualified project names
    (ancestors joined with " :: ", the root project left out), build-type names of a
    project, the build-type list, and the build numbers offered for a configuration
    (always headed by the three reserved tokens). Each query works on the already-parsed
    elements of the XML document the server returned. */
module Catalog {
  import opened Common
  import opened Text

  const ProjectsUrl: string := "app/rest/projects"
  const BuildTypesUrl: string := "app/rest/buildTypes"
  const QualifiedSeparator: string := " :: "

  /** The reserved build-number tokens, in the order the build-number list shows them. */
  const LastSuccessful: string := "lastSuccessful"
  const LastPinned: string := "lastPinned"
  const LastFinished: string := "lastFinished"
  const ReservedBuildNumbers: seq<string> := [LastSuccessful, LastPinned, LastFinished]

  /** A `<project id name parentProjectId/>` element; absent attributes are null. */
  datatype ProjectElement = ProjectElement(id: Option<string>, name: Option<string>, parentProjectId: Option<string>)

  /** A `<buildType id name projectName/>` element; absent attributes are null. */
  datatype BuildTypeElement = BuildTypeElement(id: Option<string>, name: Option<string>, projectName: Option<string>)

  /** `TeamCityBuildConfiguration`, as `GetBuildTypesAsync` builds it. */
  datatype TeamCityBuildConfiguration = TeamCityBuildConfiguration(id: Option<string>, project: Option<string>, name: Option<string>)

  // ---------------------------------------------------------------- projects

  /** `GetProjectNamesAsync`: one name per project element, in document order, null for a
      project without a name. */
  function GetProjectNames(projects: seq<ProjectElement>): (names: seq<Option<string>>)
    ensures |names| == |projects|
    ensures forall i :: 0 <= i < |projects| ==> names[i] == projects[i].name
  {
    if projects == [] then [] else [projects[0].name] + GetProjectNames(projects[1..])
  }

  /** Index of the first project whose `id` attribute equals `id`, at or after `from`. */
  function FindProject(projects: seq<ProjectElement>, id: string, from: nat): (r: Option<nat>)
    requires from <= |projects|
    ensures r.Some? ==> from <= r.value < |projects| && projects[r.value].id == Some(id)
    ensures r.Some? ==> forall j :: from <= j < r.value ==> projects[j].id != Some(id)
    ensures r.None? ==> forall j :: from <= j < |projects| ==> projects[j].id != Some(id)
    decreases |projects| - from
  {
    if from == |projects| then None
    else if projects[from].id == Some(id) then Some(from)
    else FindProject(projects, id, from + 1)
  }

  /** `GetQualifiedProjectName(projects, parentId, name)`. Below a non-root parent the
      parent's name is read with `.Value`, which throws when the parent has none; a null
      own name joins as empty. The source recursion does not end on a cyclic parent chain;
      `fuel` bounds the number of parent lookups and `StackOverflow` stands for a chain
      longer than the bound. */
  function GetQualifiedProjectName(projects: seq<ProjectElement>, parentId: Option<string>, name: Option<string>, fuel: nat): Result<Option<string>>
    decreases fuel
  {
    if parentId.None? then Ok(name)
    else match FindProject(projects, parentId.value, 0)
      case None => Ok(name)
      case Some(k) =>
        var parent := projects[k];
        if parent.parentProjectId.None? then Ok(name)   // the root project is not shown
        else if parent.name.None? then Err(NullReference)
        else if fuel == 0 then Err(StackOverflow)
        else GetQualifiedProjectName(projects, parent.parentProjectId, Some(parent.name.value + QualifiedSeparator + OrEmpty(name)), fuel - 1)
  }

  /** Reference definition: the names of the ancestors below the root, outermost first,
      failing at the first of them, from the project outwards, that has no name or lies
      beyond the bound. */
  function AncestorNames(projects: seq<ProjectElement>, parentId: Option<string>, fuel: nat): Result<seq<string>>
    decreases fuel
  {
    if parentId.None? then Ok([])
    else match FindProject(projects, parentId.value, 0)
      case None => Ok([])
      case Some(k) =>
        var parent := projects[k];
        if parent.parentProjectId.None? then Ok([])
        else if parent.name.None? then Err(NullReference)
        else if fuel == 0 then Err(StackOverflow)
        else match AncestorNames(projects, parent.parentProjectId, fuel - 1)
          case Err(f) => Err(f)
          case Ok(outer) => Ok(outer + [parent.name.value])
  }

  lemma JoinAppendJoined(xs: seq<string>, a: string, b: string, sep: string)
    ensures Join(xs + [a + sep + b], sep) == Join(xs + [a, b], sep)
  {
    JoinSnoc(xs, a + sep + b, sep);
    JoinSnoc(xs + [a], b, sep);
    JoinSnoc(xs, a, sep);
    assert xs + [a, b] == (xs + [a]) + [b];
    if xs != [] {
      var j := Join(xs, sep) + sep;
      AppendAssoc(j, a + sep, b);
      AppendAssoc(j, a, sep);
    }
  }

  /** The qualified name is the non-root ancestors' names and the project's own name,
      joined with " :: " (the own name as it is when there are no such ancestors), and the
      walk fails exactly as the ancestry does. */
  lemma {:induction false} QualifiedNameIsJoinedAncestry(projects: seq<ProjectElement>, parentId: Option<string>, name: Option<string>, fuel: nat)
    ensures var q := GetQualifiedProjectName(projects, parentId, name, fuel);
      var xs := AncestorNames(projects, parentId, fuel);
      && (q.Err? <==> xs.Err?)
      && (q.Err? ==> q.fault == xs.fault)
      && (xs.Ok? && xs.value == [] ==> q == Ok(name))
      && (xs.Ok? && xs.value != [] ==> q == Ok(Some(Join(xs.value + [OrEmpty(name)], QualifiedSeparator))))
    decreases fuel
  {
    if parentId.Some? {
      match FindProject(projects, parentId.value, 0)
      case None =>
      case Some(k) =>
        var parent := projects[k];
        if parent.parentProjectId.Some? && parent.name.Some? && fuel > 0 {
          var next := parent.parentProjectId;
          var pn := parent.name.value;
          var joined := pn + QualifiedSeparator + OrEmpty(name);
          QualifiedNameIsJoinedAncestry(projects, next, Some(joined), fuel - 1);
          var outer := AncestorNames(projects, next, fuel - 1);
          if outer.Ok? {
            JoinAppendJoined(outer.value, pn, OrEmpty(name), QualifiedSeparator);
            assert outer.value + [pn] + [OrEmpty(name)] == outer.value + [pn, OrEmpty(name)];
            if outer.value == [] {
              assert [pn] + [OrEmpty(name)] == [pn, OrEmpty(name)];
              JoinSnoc([pn], OrEmpty(name), QualifiedSeparator);
              assert Join([pn], QualifiedSeparator) == pn;
            }
          }
        }
    }
  }

  /** The plain name is returned when there is no parent, the parent is unknown, or the
      parent is the root project. */
  lemma PlainNameCases(projects: seq<ProjectElement>, parentId: Option<string>, name: Option<string>, fuel: nat)
    requires || parentId.None?
             || FindProject(projects, parentId.value, 0).None?
             || projects[FindProject(projects, parentId.value, 0).value].parentProjectId.None?
    ensures GetQualifiedProjectName(projects, parentId, name, fuel) == Ok(name)
  {
  }

  /** A non-root parent without a name fails the walk with a null reference, whatever the
      bound. */
  lemma UnnamedParentFails(projects: seq<ProjectElement>, parentId: Option<string>, name: Option<string>, fuel: nat)
    requires parentId.Some? && FindProject(projects, parentId.value, 0).Some?
    requires var parent := projects[FindProject(projects, parentId.value, 0).value];
      parent.parentProjectId.Some? && parent.name.None?
    ensures GetQualifiedProjectName(projects, parentId, name, fuel) == Err(NullReference)
  {
  }

  /** A qualified name below a non-root parent ends with " :: " and the project's own name;
      otherwise it is the own name. */
  lemma {:induction false} QualifiedNameEndsWithOwnName(projects: seq<ProjectElement>, parentId: Option<string>, name: Option<string>, fuel: nat)
    requires GetQualifiedProjectName(projects, parentId, name, fuel).Ok?
    ensures var q := GetQualifiedProjectName(projects, parentId, name, fuel).value;
      && AncestorNames(projects, parentId, fuel).Ok?
      && (AncestorNames(projects, parentId, fuel).value == [] ==> q == name)
      && (AncestorNames(projects, parentId, fuel).value != [] ==> q.Some? && EndsWith(q.value, QualifiedSeparator + OrEmpty(name)))
  {
    QualifiedNameIsJoinedAncestry(projects, parentId, name, fuel);
    var xs := AncestorNames(projects, parentId, fuel).value;
    if xs != [] {
      JoinSnoc(xs, OrEmpty(name), QualifiedSeparator);
      var q := GetQualifiedProjectName(projects, parentId, name, fuel).value.value;
      var tail := QualifiedSeparator + OrEmpty(name);
      assert q == Join(xs, QualifiedSeparator) + tail;
      assert q[|q| - |tail|..] == tail;
    }
  }

  /** The qualified name of project `i`, allowed as many parent lookups as there are
      projects. */
  function QualifiedNameOf(projects: seq<ProjectElement>, i: nat): Result<Option<string>>
    requires i < |projects|
  {
    GetQualifiedProjectName(projects, projects[i].parentProjectId, projects[i].name, |projects|)
  }

  function QualifiedNamesFrom(projects: seq<ProjectElement>, from: nat): (r: Result<seq<Option<string>>>)
    requires from <= |projects|
    ensures r.Ok? <==> forall i :: from <= i < |projects| ==> QualifiedNameOf(projects, i).Ok?
    ensures r.Ok? ==> |r.value| == |projects| - from
    ensures r.Ok? ==> forall i :: from <= i < |projects| ==> Ok(r.value[i - from]) == QualifiedNameOf(projects, i)
    ensures r.Err? ==> exists i :: from <= i < |projects| && QualifiedNameOf(projects, i) == Err(r.fault)
                         && forall j :: from <= j < i ==> QualifiedNameOf(projects, j).Ok?
    decreases |projects| - from
  {
    if from == |projects| then Ok([])
    else match QualifiedNameOf(projects, from)
      case Err(f) => Err(f)
      case Ok(q) =>
        match QualifiedNamesFrom(projects, from + 1)
        case Err(f) => Err(f)
        case Ok(rest) => Ok([q] + rest)
  }

  /** `GetQualifiedProjectNamesAsync`: one qualified name per project, in document order;
      the first project, in that order, whose walk throws fails the whole list. */
  function GetQualifiedProjectNames(projects: seq<ProjectElement>): (r: Result<seq<Option<string>>>)
    ensures r.Ok? <==> forall i :: 0 <= i < |projects| ==> QualifiedNameOf(projects, i).Ok?
    ensures r.Ok? ==> |r.value| == |projects|
    ensures r.Ok? ==> forall i :: 0 <= i < |projects| ==> Ok(r.value[i]) == QualifiedNameOf(projects, i)
    ensures r.Err? ==> exists i :: 0 <= i < |projects| && QualifiedNameOf(projects, i) == Err(r.fault)
                         && forall j :: 0 <= j < i ==> QualifiedNameOf(projects, j).Ok?
  {
    QualifiedNamesFrom(projects, 0)
  }

  /** The nesting example: below the root, `Widgets` contains `Tools`, which contains `Cli`. */
  function ExampleProjects(): seq<ProjectElement> {
    [ProjectElement(Some("_Root"), Some("<Root project>"), None),
     ProjectElement(Some("w"), Some("Widgets"), Some("_Root")),
     ProjectElement(Some("t"), Some("Tools"), Some("w")),
     ProjectElement(Some("c"), Some("Cli"), Some("t"))]
  }

  lemma ExampleLookups()
    ensures FindProject(ExampleProjects(), "_Root", 0) == Some(0)
    ensures FindProject(ExampleProjects(), "w", 0) == Some(1)
    ensures FindProject(ExampleProjects(), "t", 0) == Some(2)
  {
  }

  lemma ExampleTools()
    ensures GetQualifiedProjectName(ExampleProjects(), Some("w"), Some("Tools"), 4) == Ok(Some("Widgets :: Tools"))
  {
    ExampleLookups();
    assert "Widgets" + QualifiedSeparator + "Tools" == "Widgets :: Tools";
  }

  lemma ExampleCli()
    ensures GetQualifiedProjectName(ExampleProjects(), Some("t"), Some("Cli"), 4) == Ok(Some("Widgets :: Tools :: Cli"))
  {
    var projects := ExampleProjects();
    ExampleLookups();
    assert "Tools" + QualifiedSeparator + "Cli" == "Tools :: Cli";
    assert "Widgets" + QualifiedSeparator + "Tools :: Cli" == "Widgets :: Tools :: Cli";
    assert GetQualifiedProjectName(projects, Some("t"), Some("Cli"), 4)
        == GetQualifiedProjectName(projects, Some("w"), Some("Tools :: Cli"), 3);
    assert GetQualifiedProjectName(projects, Some("w"), Some("Tools :: Cli"), 3)
        == GetQualifiedProjectName(projects, Some("_Root"), Some("Widgets :: Tools :: Cli"), 2);
  }

  /** Each project of the example gets its qualified name; the root keeps its own. */
  lemma QualifiedNameExample()
    ensures GetQualifiedProjectNames(ExampleProjects())
         == Ok([Some("<Root project>"), Some("Widgets"), Some("Widgets :: Tools"), Some("Widgets :: Tools :: Cli")])
  {
    var projects := ExampleProjects();
    ExampleLookups();
    ExampleTools();
    ExampleCli();
    assert QualifiedNameOf(projects, 0) == Ok(Some("<Root project>"));
    assert QualifiedNameOf(projects, 1) == Ok(Some("Widgets"));
    var r := GetQualifiedProjectNames(projects);
    assert r.value == [Some("<Root project>"), Some("Widgets"), Some("Widgets :: Tools"), Some("Widgets :: Tools :: Cli")];
  }

  /** With `Widgets` unnamed, `Tools` and `Cli` below it fail, and so does the list. */
  lemma UnnamedParentExample()
    ensures GetQualifiedProjectNames(ExampleProjects()[1 := ProjectElement(Some("w"), None, Some("_Root"))]) == Err(NullReference)
  {
    var projects := ExampleProjects()[1 := ProjectElement(Some("w"), None, Some("_Root"))];
    assert FindProject(projects, "_Root", 0) == Some(0);
    assert FindProject(projects, "w", 0) == Some(1);
    assert QualifiedNameOf(projects, 0).Ok? && QualifiedNameOf(projects, 1).Ok?;
    assert QualifiedNameOf(projects, 2) == Err(NullReference);
  }

  // ---------------------------------------------------------------- build types

  /** The filter of `GetBuildTypeNamesAsync`. */
  predicate InProject(bt: BuildTypeElement, projectName: Option<string>) {
    EqualsIgnoreCase(projectName, bt.projectName)
  }

  /** `GetBuildTypeNamesAsync`: the names of the build types of `projectName`, compared
      ignoring case, in document order. */
  function GetBuildTypeNames(buildTypes: seq<BuildTypeElement>, projectName: Option<string>): seq<Option<string>>
  {
    if buildTypes == [] then []
    else (if InProject(buildTypes[0], projectName) then [buildTypes[0].name] else [])
         + GetBuildTypeNames(buildTypes[1..], projectName)
  }

  /** The filter keeps document order: the names of a concatenation are the
      concatenation of the names. */
  lemma {:induction false} BuildTypeNamesAppend(a: seq<BuildTypeElement>, b: seq<BuildTypeElement>, projectName: Option<string>)
    ensures GetBuildTypeNames(a + b, projectName) == GetBuildTypeNames(a, projectName) + GetBuildTypeNames(b, projectName)
  {
    if a != [] {
      assert (a + b)[1..] == a[1..] + b;
      BuildTypeNamesAppend(a[1..], b, projectName);
    } else {
      assert a + b == b;
    }
  }

  /** Exactly the names of the matching build types are listed. */
  lemma {:induction false} BuildTypeNamesMembership(buildTypes: seq<BuildTypeElement>, projectName: Option<string>, n: Option<string>)
    ensures n in GetBuildTypeNames(buildTypes, projectName)
        <==> exists i :: 0 <= i < |buildTypes| && InProject(buildTypes[i], projectName) && buildTypes[i].name == n
  {
    if buildTypes != [] {
      BuildTypeNamesMembership(buildTypes[1..], projectName, n);
      if n in GetBuildTypeNames(buildTypes[1..], projectName) {
        var i :| 0 <= i < |buildTypes[1..]| && InProject(buildTypes[1..][i], projectName) && buildTypes[1..][i].name == n;
        assert buildTypes[i + 1] == buildTypes[1..][i];
      }
      if exists i :: 0 <= i < |buildTypes| && InProject(buildTypes[i], projectName) && buildTypes[i].name == n {
        var i :| 0 <= i < |buildTypes| && InProject(buildTypes[i], projectName) && buildTypes[i].name == n;
        if i > 0 {
          assert buildTypes[1..][i - 1] == buildTypes[i];
        }
      }
    }
  }

  /** The project argument is compared ignoring case. */
  lemma {:induction false} BuildTypeNamesIgnoreCase(buildTypes: seq<BuildTypeElement>, p: string, q: string)
    requires SameIgnoringCase(p, q)
    ensures GetBuildTypeNames(buildTypes, Some(p)) == GetBuildTypeNames(buildTypes, Some(q))
  {
    if buildTypes != [] {
      if buildTypes[0].projectName.Some? {
        SameIgnoringCaseSymmetric(p, q);
        SameIgnoringCaseTransitive(q, p, buildTypes[0].projectName.value);
      }
      BuildTypeNamesIgnoreCase(buildTypes[1..], p, q);
    }
  }

  /** `GetBuildTypesAsync`: one configuration record per element, in document order. */
  function GetBuildTypes(buildTypes: seq<BuildTypeElement>): (r: seq<TeamCityBuildConfiguration>)
    ensures |r| == |buildTypes|
    ensures forall i :: 0 <= i < |r| ==>
      r[i].id == buildTypes[i].id && r[i].project == buildTypes[i].projectName && r[i].name == buildTypes[i].name
  {
    if buildTypes == [] then []
    else [TeamCityBuildConfiguration(buildTypes[0].id, buildTypes[0].projectName, buildTypes[0].name)]
         + GetBuildTypes(buildTypes[1..])
  }

  /** The build type is the one named `name` in project `projectName`, both ignoring case. */
  predicate IsConfiguration(c: TeamCityBuildConfiguration, projectName: Option<string>, name: Option<string>) {
    EqualsIgnoreCase(projectName, c.project) && EqualsIgnoreCase(name, c.name)
  }

  /** Index of the first configuration matching project and name, at or after `from`. */
  function FirstConfiguration(configs: seq<TeamCityBuildConfiguration>, projectName: Option<string>, name: Option<string>, from: nat): (r: Option<nat>)
    requires from <= |configs|
    ensures r.Some? ==> from <= r.value < |configs| && IsConfiguration(configs[r.value], projectName, name)
    ensures r.Some? ==> forall j :: from <= j < r.value ==> !IsConfiguration(configs[j], projectName, name)
    ensures r.None? ==> forall j :: from <= j < |configs| ==> !IsConfiguration(configs[j], projectName, name)
    decreases |configs| - from
  {
    if from == |configs| then None
    else if IsConfiguration(configs[from], projectName, name) then Some(from)
    else FirstConfiguration(configs, projectName, name, from + 1)
  }

  /** The builds listing of one build configuration. */
  function BuildsUrl(buildTypeId: string): string {
    "app/rest/buildTypes/id:" + EscapeDataString(buildTypeId) + "/builds"
  }

  /** The reserved tokens as entries of the build-number list. */
  function ReservedEntries(): seq<Option<string>> {
    [Some(LastSuccessful), Some(LastPinned), Some(LastFinished)]
  }

  /** `GetBuildNumbersAsync`. `builds` is the server: its answer to the builds listing at a
      URL, one `number` attribute per build, null where a build has none. A failed download
      lets its `WebException` escape. */
  function GetBuildNumbers(buildTypes: seq<BuildTypeElement>, projectName: Option<string>, name: Option<string>,
                           builds: string -> Reply<seq<Option<string>>>): (r: Result<seq<Option<string>>>)
    ensures r.Ok? ==> |r.value| >= 3 && r.value[..3] == ReservedEntries()
    ensures r.Err? ==> r.fault.Web?
  {
    var configs := GetBuildTypes(buildTypes);
    match FirstConfiguration(configs, projectName, name, 0)
    case None => Ok(ReservedEntries())
    case Some(k) =>
      var id := configs[k].id;
      if IsNullOrEmpty(id) then Ok(ReservedEntries())
      else match Await(builds(BuildsUrl(id.value)))
        case Err(f) => Err(f)
        case Ok(numbers) => Ok(ReservedEntries() + numbers)
  }

  /** Without a matching build type the list is exactly the three reserved tokens, and the
      builds listing is not downloaded. */
  lemma BuildNumbersWithoutMatch(buildTypes: seq<BuildTypeElement>, projectName: Option<string>, name: Option<string>,
                                 builds: string -> Reply<seq<Option<string>>>)
    requires forall i :: 0 <= i < |buildTypes| ==>
               !(EqualsIgnoreCase(projectName, buildTypes[i].projectName) && EqualsIgnoreCase(name, buildTypes[i].name))
    ensures GetBuildNumbers(buildTypes, projectName, name, builds) == Ok(ReservedEntries())
  {
    var configs := GetBuildTypes(buildTypes);
    assert forall j :: 0 <= j < |configs| ==> !IsConfiguration(configs[j], projectName, name);
  }

  /** The first build type matching project and name (ignoring case) decides: without an ID
      the list is the three reserved tokens; with one, they are followed by that
      configuration's build numbers in order, or the download's failure escapes. */
  lemma BuildNumbersOfFirstMatch(buildTypes: seq<BuildTypeElement>, projectName: Option<string>, name: Option<string>,
                                 builds: string -> Reply<seq<Option<string>>>, i: nat)
    requires i < |buildTypes|
    requires EqualsIgnoreCase(projectName, buildTypes[i].projectName) && EqualsIgnoreCase(name, buildTypes[i].name)
    requires forall j :: 0 <= j < i ==>
               !(EqualsIgnoreCase(projectName, buildTypes[j].projectName) && EqualsIgnoreCase(name, buildTypes[j].name))
    ensures var r := GetBuildNumbers(buildTypes, projectName, name, builds);
      && (IsNullOrEmpty(buildTypes[i].id) ==> r == Ok(ReservedEntries()))
      && (!IsNullOrEmpty(buildTypes[i].id) ==>
            match builds(BuildsUrl(buildTypes[i].id.value))
            case Received(numbers) => r == Ok(ReservedEntries() + numbers)
            case HttpFailure(status) => r == Err(Web(status)))
  {
    var configs := GetBuildTypes(buildTypes);
    var k := FirstConfiguration(configs, projectName, name, 0);
    assert IsConfiguration(configs[i], projectName, name);
    assert forall j :: 0 <= j < i ==> !IsConfiguration(configs[j], projectName, name);
    assert k == Some(i);
  }
}
