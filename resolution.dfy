/** Turning a project name and a build-configuration name into a build-configuration ID.
    The artifact importer asks for an exact match of both names; the build queuer also
    accepts a project appearing anywhere in a build type's qualified project name
    ("Outer :: Inner") and prefers the match closest to the top of the hierarchy. */
module Resolution {
  import opened Common
  import opened Text
  import opened Catalog

  // ---------------------------------------------------------------- exact (artifact importer)

  /** The ID of the first build type whose project and name both equal the requested ones
      ignoring case; `ExecutionFailure` when there is none or that first one has no ID. */
  function ResolveExact(buildTypes: seq<BuildTypeElement>, projectName: string, name: string): (r: Result<string>)
    ensures r.Err? ==> r.fault == ExecutionFailure
  {
    var configs := GetBuildTypes(buildTypes);
    match FirstConfiguration(configs, Some(projectName), Some(name), 0)
    case None => Err(ExecutionFailure)
    case Some(k) => if configs[k].id.Some? then Ok(configs[k].id.value) else Err(ExecutionFailure)
  }

  /** The element the exact resolver looks for. */
  predicate ExactlyNamed(e: BuildTypeElement, projectName: string, name: string) {
    EqualsIgnoreCase(e.projectName, Some(projectName)) && EqualsIgnoreCase(e.name, Some(name))
  }

  lemma EqualsIgnoreCaseSymmetric(a: Option<string>, b: Option<string>)
    ensures EqualsIgnoreCase(a, b) == EqualsIgnoreCase(b, a)
  {
    if a.Some? && b.Some? {
      SameIgnoringCaseSymmetric(a.value, b.value);
    }
  }

  /** The exact resolver succeeds exactly when some build type is named as requested and
      the first such one has an ID, and then it yields that ID. */
  lemma ExactResolution(buildTypes: seq<BuildTypeElement>, projectName: string, name: string)
    ensures ResolveExact(buildTypes, projectName, name).Ok? <==>
      exists i :: 0 <= i < |buildTypes| && ExactlyNamed(buildTypes[i], projectName, name)
        && (forall j :: 0 <= j < i ==> !ExactlyNamed(buildTypes[j], projectName, name))
        && buildTypes[i].id.Some?
    ensures forall i ::
              (&& 0 <= i < |buildTypes| && ExactlyNamed(buildTypes[i], projectName, name)
               && (forall j :: 0 <= j < i ==> !ExactlyNamed(buildTypes[j], projectName, name))
               && buildTypes[i].id.Some?)
              ==> ResolveExact(buildTypes, projectName, name) == Ok(buildTypes[i].id.value)
  {
    var configs := GetBuildTypes(buildTypes);
    forall i | 0 <= i < |buildTypes|
      ensures IsConfiguration(configs[i], Some(projectName), Some(name)) == ExactlyNamed(buildTypes[i], projectName, name)
    {
      EqualsIgnoreCaseSymmetric(Some(projectName), buildTypes[i].projectName);
      EqualsIgnoreCaseSymmetric(Some(name), buildTypes[i].name);
    }
    var k := FirstConfiguration(configs, Some(projectName), Some(name), 0);
    if k.Some? {
      assert ExactlyNamed(buildTypes[k.value], projectName, name);
    }
  }

  // ---------------------------------------------------------------- nested (build queuer)

  /** `BuildType`: an element with its project name split at " :: ". */
  datatype BuildType = BuildType(buildConfigurationId: Option<string>, buildConfigurationName: Option<string>,
                                 projectName: string, projectNameParts: seq<string>)

  /** The `BuildType` constructor: splitting a missing project name is a null dereference. */
  function ParseBuildType(e: BuildTypeElement): (r: Result<BuildType>)
    ensures r.Ok? <==> e.projectName.Some?
    ensures r.Ok? ==> && r.value.buildConfigurationId == e.id && r.value.buildConfigurationName == e.name
                      && r.value.projectName == e.projectName.value
                      && Join(r.value.projectNameParts, QualifiedSeparator) == r.value.projectName
                      && |r.value.projectNameParts| >= 1
    ensures r.Err? ==> r.fault == NullReference
  {
    match e.projectName
    case None => Err(NullReference)
    case Some(p) =>
      JoinSplit(p, QualifiedSeparator);
      Ok(BuildType(e.id, e.name, p, Split(p, QualifiedSeparator)))
  }

  lemma TailShifts(es: seq<BuildTypeElement>)
    requires es != []
    ensures forall i :: 1 <= i < |es| ==> es[i] == es[1..][i - 1]
  {
  }

  /** Every element is turned into a `BuildType` before any is chosen (the ordering step
      consumes the whole query), so one element without a project name fails the lookup. */
  function ParseBuildTypes(es: seq<BuildTypeElement>): (r: Result<seq<BuildType>>)
    ensures r.Ok? <==> forall i :: 0 <= i < |es| ==> es[i].projectName.Some?
    ensures r.Ok? ==> |r.value| == |es| && forall i :: 0 <= i < |es| ==> Ok(r.value[i]) == ParseBuildType(es[i])
    ensures r.Err? ==> r.fault == NullReference
  {
    if es == [] then Ok([])
    else
      var head := ParseBuildType(es[0]);
      var rest := ParseBuildTypes(es[1..]);
      if head.Err? then Err(head.fault)
      else if rest.Err? then
        TailShifts(es);
        Err(rest.fault)
      else
        TailShifts(es);
        Ok([head.value] + rest.value)
  }

  /** `Array.FindIndex` of the requested project among the parts, or -1. */
  function FindIndex(parts: seq<string>, projectName: Option<string>): (r: int)
    ensures -1 <= r < |parts|
    ensures r >= 0 ==> EqualsIgnoreCase(Some(parts[r]), projectName)
    ensures r >= 0 ==> forall j :: 0 <= j < r ==> !EqualsIgnoreCase(Some(parts[j]), projectName)
    ensures r == -1 <==> forall j :: 0 <= j < |parts| ==> !EqualsIgnoreCase(Some(parts[j]), projectName)
  {
    if parts == [] then -1
    else if EqualsIgnoreCase(Some(parts[0]), projectName) then 0
    else
      var k := FindIndex(parts[1..], projectName);
      assert forall j :: 1 <= j < |parts| ==> parts[j] == parts[1..][j - 1];
      if k == -1 then -1 else k + 1
  }

  /** A build type kept by the query, with the position of the requested project in its
      qualified project name. */
  datatype Match = Match(buildType: BuildType, index: int)

  /** The two `where` clauses of the query. */
  predicate Accepts(bt: BuildType, projectName: Option<string>, name: Option<string>) {
    && EqualsIgnoreCase(bt.buildConfigurationName, name)
    && (FindIndex(bt.projectNameParts, projectName) > -1 || EqualsIgnoreCase(Some(bt.projectName), projectName))
  }

  /** The matches in document order. */
  function Candidates(bts: seq<BuildType>, projectName: Option<string>, name: Option<string>): (ms: seq<Match>)
    ensures forall k :: 0 <= k < |ms| ==>
      ms[k].buildType in bts && Accepts(ms[k].buildType, projectName, name)
      && ms[k].index == FindIndex(ms[k].buildType.projectNameParts, projectName)
    ensures forall i :: 0 <= i < |bts| && Accepts(bts[i], projectName, name) ==>
      Match(bts[i], FindIndex(bts[i].projectNameParts, projectName)) in ms
  {
    if bts == [] then []
    else
      var rest := Candidates(bts[1..], projectName, name);
      assert forall i :: 1 <= i < |bts| ==> bts[i] == bts[1..][i - 1];
      if Accepts(bts[0], projectName, name) then [Match(bts[0], FindIndex(bts[0].projectNameParts, projectName))] + rest
      else rest
  }

  /** `orderby Index` (a stable sort) followed by `FirstOrDefault`: the first match among
      those with the smallest index. */
  function Best(ms: seq<Match>): (r: Option<nat>)
    ensures r.Some? <==> ms != []
    ensures r.Some? ==> r.value < |ms|
  {
    if ms == [] then None
    else match Best(ms[1..])
      case None => Some(0)
      case Some(k) => if ms[1..][k].index < ms[0].index then Some(k + 1) else Some(0)
  }

  /** The chosen match has the smallest index, and every earlier match has a larger one:
      exactly the first element of the stably sorted sequence. */
  lemma {:induction false} BestIsFirstOfSorted(ms: seq<Match>)
    requires ms != []
    ensures var b := Best(ms).value;
      && (forall j :: 0 <= j < |ms| ==> ms[b].index <= ms[j].index)
      && (forall j :: 0 <= j < b ==> ms[j].index > ms[b].index)
  {
    if |ms| > 1 {
      BestIsFirstOfSorted(ms[1..]);
      assert forall j :: 1 <= j < |ms| ==> ms[j] == ms[1..][j - 1];
    }
  }

  /** The nested lookup over the parsed build types. */
  function ChooseNested(bts: seq<BuildType>, projectName: Option<string>, name: Option<string>): (r: Result<string>)
    ensures r.Err? ==> r.fault == ExecutionFailure
  {
    var ms := Candidates(bts, projectName, name);
    match Best(ms)
    case None => Err(ExecutionFailure)
    case Some(k) =>
      var id := ms[k].buildType.buildConfigurationId;
      if id.Some? then Ok(id.value) else Err(ExecutionFailure)
  }

  /** `SetBuildConfigurationIdFromName` of the queuer over the build-type elements. */
  function ResolveNested(es: seq<BuildTypeElement>, projectName: Option<string>, name: Option<string>): (r: Result<string>)
    ensures r.Err? ==> r.fault == NullReference || r.fault == ExecutionFailure
    ensures (exists i :: 0 <= i < |es| && es[i].projectName.None?) ==> r == Err(NullReference)
  {
    var parsed := ParseBuildTypes(es);
    if parsed.Err? then Err(parsed.fault) else ChooseNested(parsed.value, projectName, name)
  }

  /** The query keeps document order: the matches of a concatenation are the matches of
      its parts, in turn. */
  lemma {:induction false} CandidatesAppend(a: seq<BuildType>, b: seq<BuildType>, projectName: Option<string>, name: Option<string>)
    ensures Candidates(a + b, projectName, name) == Candidates(a, projectName, name) + Candidates(b, projectName, name)
  {
    if a != [] {
      assert (a + b)[1..] == a[1..] + b;
      CandidatesAppend(a[1..], b, projectName, name);
    } else {
      assert a + b == b;
    }
  }

  /** Build type `i` is the one the queuer picks: it is accepted, no accepted build type has
      the project nearer the top of its hierarchy, and every accepted one before it in
      document order has the project strictly lower (ties keep document order). */
  predicate ChosenAt(bts: seq<BuildType>, projectName: Option<string>, name: Option<string>, i: int) {
    && 0 <= i < |bts| && Accepts(bts[i], projectName, name)
    && (forall j :: 0 <= j < |bts| && Accepts(bts[j], projectName, name) ==>
          FindIndex(bts[i].projectNameParts, projectName) <= FindIndex(bts[j].projectNameParts, projectName))
    && (forall j :: 0 <= j < i && Accepts(bts[j], projectName, name) ==>
          FindIndex(bts[j].projectNameParts, projectName) > FindIndex(bts[i].projectNameParts, projectName))
  }

  /** At most one build type is the one picked. */
  lemma ChosenAtUnique(bts: seq<BuildType>, projectName: Option<string>, name: Option<string>, i: int, k: int)
    requires ChosenAt(bts, projectName, name, i) && ChosenAt(bts, projectName, name, k)
    ensures i == k
  {
  }

  /** The pick among the tail stays the pick when the head is not accepted or has the
      project strictly lower. */
  lemma ChosenInTail(bts: seq<BuildType>, projectName: Option<string>, name: Option<string>, t: int)
    requires bts != [] && ChosenAt(bts[1..], projectName, name, t)
    requires Accepts(bts[0], projectName, name) ==>
               FindIndex(bts[0].projectNameParts, projectName) > FindIndex(bts[1..][t].projectNameParts, projectName)
    ensures ChosenAt(bts, projectName, name, t + 1)
  {
    assert bts[t + 1] == bts[1..][t];
    forall j | 0 < j < |bts| && Accepts(bts[j], projectName, name)
      ensures FindIndex(bts[t + 1].projectNameParts, projectName) <= FindIndex(bts[j].projectNameParts, projectName)
    {
      assert bts[j] == bts[1..][j - 1];
    }
    forall j | 0 < j < t + 1 && Accepts(bts[j], projectName, name)
      ensures FindIndex(bts[j].projectNameParts, projectName) > FindIndex(bts[t + 1].projectNameParts, projectName)
    {
      assert bts[j] == bts[1..][j - 1];
    }
  }

  /** An accepted head is the pick when no accepted build type after it has the project
      strictly higher. */
  lemma ChosenAtHead(bts: seq<BuildType>, projectName: Option<string>, name: Option<string>)
    requires bts != [] && Accepts(bts[0], projectName, name)
    requires forall j :: 0 < j < |bts| && Accepts(bts[j], projectName, name) ==>
               FindIndex(bts[0].projectNameParts, projectName) <= FindIndex(bts[j].projectNameParts, projectName)
    ensures ChosenAt(bts, projectName, name, 0)
  {
  }

  /** An accepted head with no candidate after it is the pick. */
  lemma OnlyHeadCandidate(bts: seq<BuildType>, projectName: Option<string>, name: Option<string>)
    requires bts != [] && Accepts(bts[0], projectName, name) && Candidates(bts[1..], projectName, name) == []
    ensures ChosenAt(bts, projectName, name, 0)
    ensures Best(Candidates(bts, projectName, name)) == Some(0)
  {
    var head := FindIndex(bts[0].projectNameParts, projectName);
    assert Candidates(bts, projectName, name) == [Match(bts[0], head)];
    forall j | 0 < j < |bts|
      ensures !Accepts(bts[j], projectName, name)
    {
      assert bts[j] == bts[1..][j - 1];
    }
    ChosenAtHead(bts, projectName, name);
  }

  /** An accepted head against the pick `t` of the tail: the tail's pick wins only with
      the project strictly higher. */
  lemma HeadAgainstTail(bts: seq<BuildType>, projectName: Option<string>, name: Option<string>, t: int)
    requires bts != [] && Accepts(bts[0], projectName, name) && ChosenAt(bts[1..], projectName, name, t)
    ensures var tailWins := FindIndex(bts[1..][t].projectNameParts, projectName) < FindIndex(bts[0].projectNameParts, projectName);
      ChosenAt(bts, projectName, name, if tailWins then t + 1 else 0)
  {
    var head := FindIndex(bts[0].projectNameParts, projectName);
    if FindIndex(bts[1..][t].projectNameParts, projectName) < head {
      ChosenInTail(bts, projectName, name, t);
    } else {
      forall j | 0 < j < |bts| && Accepts(bts[j], projectName, name)
        ensures head <= FindIndex(bts[j].projectNameParts, projectName)
      {
        assert bts[j] == bts[1..][j - 1];
      }
      ChosenAtHead(bts, projectName, name);
    }
  }

  /** With an accepted head, `Best` keeps the head unless the tail's best match has a
      strictly smaller index. */
  lemma BestWithHead(bts: seq<BuildType>, projectName: Option<string>, name: Option<string>)
    requires bts != [] && Accepts(bts[0], projectName, name) && Candidates(bts[1..], projectName, name) != []
    ensures var ms := Candidates(bts, projectName, name);
      var rest := Candidates(bts[1..], projectName, name);
      var k := Best(rest).value;
      && ms == [Match(bts[0], FindIndex(bts[0].projectNameParts, projectName))] + rest
      && Best(ms) == if rest[k].index < FindIndex(bts[0].projectNameParts, projectName) then Some(k + 1) else Some(0)
  {
    var ms := Candidates(bts, projectName, name);
    var rest := Candidates(bts[1..], projectName, name);
    assert ms[1..] == rest;
  }

  /** The match `Best` picks among the candidates is the build type picked in document
      order. */
  lemma {:induction false} BestCandidate(bts: seq<BuildType>, projectName: Option<string>, name: Option<string>) returns (i: nat)
    requires Candidates(bts, projectName, name) != []
    ensures ChosenAt(bts, projectName, name, i)
    ensures Candidates(bts, projectName, name)[Best(Candidates(bts, projectName, name)).value].buildType == bts[i]
  {
    var rest := Candidates(bts[1..], projectName, name);
    if !Accepts(bts[0], projectName, name) {
      assert Candidates(bts, projectName, name) == rest;
      var t := BestCandidate(bts[1..], projectName, name);
      ChosenInTail(bts, projectName, name, t);
      i := t + 1;
    } else if rest == [] {
      OnlyHeadCandidate(bts, projectName, name);
      i := 0;
    } else {
      var t := BestCandidate(bts[1..], projectName, name);
      BestWithHead(bts, projectName, name);
      HeadAgainstTail(bts, projectName, name, t);
      i := if FindIndex(bts[1..][t].projectNameParts, projectName) < FindIndex(bts[0].projectNameParts, projectName) then t + 1 else 0;
    }
  }

  /** A resolved ID is that of the build type picked in document order. */
  lemma NestedResolution(bts: seq<BuildType>, projectName: Option<string>, name: Option<string>)
    requires ChooseNested(bts, projectName, name).Ok?
    ensures exists i :: ChosenAt(bts, projectName, name, i)
              && bts[i].buildConfigurationId == Some(ChooseNested(bts, projectName, name).value)
  {
    var i := BestCandidate(bts, projectName, name);
  }

  /** Conversely, the lookup yields the ID of the build type picked in document order, and
      fails when that one has no ID or when no build type is accepted. */
  lemma NestedResolutionComplete(bts: seq<BuildType>, projectName: Option<string>, name: Option<string>, i: int)
    requires ChosenAt(bts, projectName, name, i)
    ensures ChooseNested(bts, projectName, name)
         == if bts[i].buildConfigurationId.Some? then Ok(bts[i].buildConfigurationId.value) else Err(ExecutionFailure)
  {
    var ms := Candidates(bts, projectName, name);
    assert Match(bts[i], FindIndex(bts[i].projectNameParts, projectName)) in ms;
    var k := BestCandidate(bts, projectName, name);
    ChosenAtUnique(bts, projectName, name, i, k);
  }

  /** With no build type accepted the lookup fails. */
  lemma NestedResolutionFails(bts: seq<BuildType>, projectName: Option<string>, name: Option<string>)
    requires forall j :: 0 <= j < |bts| ==> !Accepts(bts[j], projectName, name)
    ensures ChooseNested(bts, projectName, name) == Err(ExecutionFailure)
  {
  }

  /** Over the elements: when all have a project name, the lookup yields the ID of the
      build type picked in document order. */
  lemma ResolveNestedFinds(es: seq<BuildTypeElement>, projectName: Option<string>, name: Option<string>, i: int)
    requires ParseBuildTypes(es).Ok? && ChosenAt(ParseBuildTypes(es).value, projectName, name, i)
    ensures es[i].id.Some? ==> ResolveNested(es, projectName, name) == Ok(es[i].id.value)
    ensures es[i].id.None? ==> ResolveNested(es, projectName, name) == Err(ExecutionFailure)
  {
    var bts := ParseBuildTypes(es).value;
    assert Ok(bts[i]) == ParseBuildType(es[i]);
    NestedResolutionComplete(bts, projectName, name, i);
  }

  /** A build type whose whole project name matches but none of its parts does (a
      qualified name such as "A :: B" requested as such) has index -1 and is preferred to
      every part match. */
  lemma WholeNameMatchPreferred(bts: seq<BuildType>, projectName: Option<string>, name: Option<string>, i: nat)
    requires i < |bts| && Accepts(bts[i], projectName, name)
    requires FindIndex(bts[i].projectNameParts, projectName) == -1
    ensures ChooseNested(bts, projectName, name).Ok? ==>
              exists bt ::
                && bt in bts && Accepts(bt, projectName, name)
                && FindIndex(bt.projectNameParts, projectName) == -1
                && bt.buildConfigurationId == Some(ChooseNested(bts, projectName, name).value)
  {
    if ChooseNested(bts, projectName, name).Ok? {
      NestedResolution(bts, projectName, name);
    }
  }

  lemma ToolsLacksSeparator()
    ensures IndexOf("Tools", QualifiedSeparator, 0).None?
  {
    forall j | 0 <= j
      ensures !OccursAt("Tools", QualifiedSeparator, j)
    {
      if j <= 1 {
        assert "Tools"[j..j + 4][0] == "Tools"[j] != ' ';
      }
    }
  }

  lemma QualifiedSeparatorAt7()
    ensures IndexOf("Widgets :: Tools", QualifiedSeparator, 0) == Some(7)
  {
    var s := "Widgets :: Tools";
    assert OccursAt(s, QualifiedSeparator, 7);
    forall j | 0 <= j < 7
      ensures !OccursAt(s, QualifiedSeparator, j)
    {
      assert s[j..j + 4][0] == s[j] != ' ';
    }
  }

  lemma SplitExample()
    ensures Split("Widgets :: Tools", QualifiedSeparator) == ["Widgets", "Tools"]
    ensures Split("Tools", QualifiedSeparator) == ["Tools"]
  {
    QualifiedSeparatorAt7();
    ToolsLacksSeparator();
    assert "Widgets :: Tools"[..7] == "Widgets";
    assert "Widgets :: Tools"[11..] == "Tools";
  }

  lemma CandidatesExample()
    ensures var bt1 := BuildType(Some("bt1"), Some("Build"), "Widgets :: Tools", ["Widgets", "Tools"]);
      var bt2 := BuildType(Some("bt2"), Some("Build"), "Tools", ["Tools"]);
      Candidates([bt1, bt2], Some("tools"), Some("build")) == [Match(bt1, 1), Match(bt2, 0)]
  {
    var bt1 := BuildType(Some("bt1"), Some("Build"), "Widgets :: Tools", ["Widgets", "Tools"]);
    var bt2 := BuildType(Some("bt2"), Some("Build"), "Tools", ["Tools"]);
    assert ["Widgets", "Tools"][1..] == ["Tools"];
    assert FindIndex(["Tools"], Some("tools")) == 0;
    assert FindIndex(["Widgets", "Tools"], Some("tools")) == 1;
    assert [bt1, bt2][1..] == [bt2];
    assert Candidates([bt2], Some("tools"), Some("build")) == [Match(bt2, 0)];
  }

  /** A concrete case: asked for project "tools", the build type under "Tools" itself
      (index 0) wins over the earlier one under "Widgets :: Tools" (index 1). */
  lemma NestedExample()
    ensures ChooseNested([BuildType(Some("bt1"), Some("Build"), "Widgets :: Tools", Split("Widgets :: Tools", QualifiedSeparator)),
                          BuildType(Some("bt2"), Some("Build"), "Tools", Split("Tools", QualifiedSeparator))],
                         Some("tools"), Some("build")) == Ok("bt2")
  {
    SplitExample();
    CandidatesExample();
    var bt1 := BuildType(Some("bt1"), Some("Build"), "Widgets :: Tools", ["Widgets", "Tools"]);
    var bt2 := BuildType(Some("bt2"), Some("Build"), "Tools", ["Tools"]);
    var ms := [Match(bt1, 1), Match(bt2, 0)];
    assert ms[1..] == [Match(bt2, 0)];
    assert Best([Match(bt2, 0)]) == Some(0);
    assert Best(ms) == Some(1);
  }
}
