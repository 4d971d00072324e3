/**
 * The `warp connect` command's local rules: the build-script key and its
 * commands, the update of the project's package.json (scripts and
 * dependencies), the indentation the file is written back with, and the
 * checks made before the warp is contacted.
 */
module Connect {
  import opened Wrappers
  import opened ToolText
  import Validators

  /** The package every connected project depends on. */
  const ClientLibName := "warp-client"
  const BuildKeyPrefix := "connect-"
  const NpmRun := "npm run "
  const Then := " && "
  const FilePrefix := "file:./"
  const Latest := "latest"

  /** The key of the project script that regenerates the client: "connect-" and the lower-cased warp name. */
  function BuildKey(warpName: string): (k: string)
    ensures |k| == |BuildKeyPrefix| + |warpName| && k[..|BuildKeyPrefix|] == BuildKeyPrefix
    ensures k != "build"
  {
    BuildKeyPrefix + Lower(warpName)
  }

  /** The command that runs the build key's script. */
  function RunCommand(warpName: string): string
  {
    NpmRun + BuildKey(warpName)
  }

  /** The names that differ only in the case of ASCII letters share their build key and run command. */
  lemma BuildKeyIgnoresCase(a: string, b: string)
    requires Lower(a) == Lower(b)
    ensures BuildKey(a) == BuildKey(b) && RunCommand(a) == RunCommand(b)
  {
  }

  /** The script stored under the build key: a non-interactive `warp connect` of the lower-cased name. */
  function ConnectCommand(warpName: string): string
  {
    "warp connect " + Lower(warpName) + " --ci"
  }

  /**
   * The command the generated client names as the way to regenerate it:
   * the plain connect command with the name as given when the build
   * script is left alone, otherwise the build key's run command.
   */
  function RegenCommand(warpName: string, updateBuild: bool): (c: string)
    ensures updateBuild ==> c == RunCommand(warpName)
    ensures !updateBuild ==> c == "warp connect " + warpName
  {
    if !updateBuild then "warp connect " + warpName else RunCommand(warpName)
  }

  /** `build.includes(run)`: a substring test on a string, an element test on an array. */
  predicate Includes(build: Json, run: string)
  {
    (build.JStr? && Contains(build.s, run)) || (build.JArr? && JStr(run) in build.items)
  }

  /**
   * The build script after the merge: a missing one becomes the run
   * command, one that already includes the run command is kept, and any
   * other string or array gets the run command and " && " in front of its
   * text. Any other value has no `includes` and throws.
   */
  function WithBuild(scripts: map<string, Json>, run: string): (r: Result<map<string, Json>>)
    ensures r.Ok? <==> "build" !in scripts || scripts["build"].JStr? || scripts["build"].JArr?
    ensures r.Err? ==> r.error == TypeError("build")
    ensures r.Ok? ==> r.value.Keys == scripts.Keys + {"build"} && Includes(r.value["build"], run)
    ensures r.Ok? ==> forall k :: k in scripts && k != "build" ==> r.value[k] == scripts[k]
    ensures "build" in scripts && Includes(scripts["build"], run) ==> r == Ok(scripts)
  {
    if "build" !in scripts then
      ContainsPrefix(run, run);
      Ok(scripts["build" := JStr(run)])
    else
      var build := scripts["build"];
      if !build.JStr? && !build.JArr? then Err(TypeError("build"))
      else if Includes(build, run) then Ok(scripts)
      else
        ContainsPrefix(run + Then + Text(build), run);
        Ok(scripts["build" := JStr(run + Then + Text(build))])
  }

  /** A present build script that does not yet include the run command gets it prepended. */
  lemma BuildPrepended(scripts: map<string, Json>, run: string)
    requires "build" in scripts && (scripts["build"].JStr? || scripts["build"].JArr?)
    requires !Includes(scripts["build"], run)
    ensures WithBuild(scripts, run) == Ok(scripts["build" := JStr(run + Then + Text(scripts["build"]))])
  {
  }

  /** Merging the build script twice is merging it once. */
  lemma WithBuildIdempotent(scripts: map<string, Json>, run: string)
    requires WithBuild(scripts, run).Ok?
    ensures WithBuild(WithBuild(scripts, run).value, run) == WithBuild(scripts, run)
  {
  }

  /** The scripts object after the update: the build key holds the connect command, then the build merge. */
  function UpdatedScripts(fields: map<string, Json>, warpName: string): (r: Result<map<string, Json>>)
    ensures r.Ok? <==> ("scripts" !in fields || fields["scripts"].JObj?)
                       && WithBuild(ScriptsOf(fields)[BuildKey(warpName) := JStr(ConnectCommand(warpName))],
                                    RunCommand(warpName)).Ok?
    ensures r.Ok? ==> BuildKey(warpName) in r.value && r.value[BuildKey(warpName)] == JStr(ConnectCommand(warpName))
  {
    var scripts := if "scripts" in fields then fields["scripts"] else JObj(map[]);
    if !scripts.JObj? then Err(TypeError("scripts"))
    else WithBuild(scripts.fields[BuildKey(warpName) := JStr(ConnectCommand(warpName))], RunCommand(warpName))
  }

  /** The scripts object as found, an absent one being empty. */
  function ScriptsOf(fields: map<string, Json>): map<string, Json>
  {
    if "scripts" in fields && fields["scripts"].JObj? then fields["scripts"].fields else map[]
  }

  /** The dependencies after the update: the client library at "latest" and the generated package by path. */
  function UpdatedDependencies(fields: map<string, Json>, packageName: string, relRootPath: string)
    : (r: Result<map<string, Json>>)
    ensures r.Ok? <==> "dependencies" !in fields || fields["dependencies"].JObj?
    ensures r.Ok? ==> packageName in r.value && r.value[packageName] == JStr(FilePrefix + relRootPath)
    ensures r.Ok? && packageName != ClientLibName ==> ClientLibName in r.value && r.value[ClientLibName] == JStr(Latest)
    ensures r.Ok? ==> forall k :: (k in DependenciesOf(fields) && k != ClientLibName && k != packageName)
                                   ==> k in r.value && r.value[k] == DependenciesOf(fields)[k]
  {
    var deps := if "dependencies" in fields then fields["dependencies"] else JObj(map[]);
    if !deps.JObj? then Err(TypeError("dependencies"))
    else Ok(deps.fields[ClientLibName := JStr(Latest)][packageName := JStr(FilePrefix + relRootPath)])
  }

  /** The dependencies object as found, an absent one being empty. */
  function DependenciesOf(fields: map<string, Json>): map<string, Json>
  {
    if "dependencies" in fields && fields["dependencies"].JObj? then fields["dependencies"].fields else map[]
  }

  /**
   * The parsed package.json after updatePackageJson: with `updateBuild`
   * the scripts are merged, then the dependencies are set. A value that is
   * not an object cannot take the new properties and throws.
   */
  function UpdatedPackage(pkg: Json, warpName: string, updateBuild: bool, packageName: string,
                          relRootPath: string): (r: Result<Json>)
  {
    if !pkg.JObj? then Err(TypeError("package"))
    else
      var scripted := if !updateBuild then Ok(pkg.fields)
                      else match UpdatedScripts(pkg.fields, warpName)
                           case Err(e) => Err(e)
                           case Ok(s) => Ok(pkg.fields["scripts" := JObj(s)]);
      if scripted.Err? then Err(scripted.error)
      else
        match UpdatedDependencies(scripted.value, packageName, relRootPath)
        case Err(e) => Err(e)
        case Ok(d) => Ok(JObj(scripted.value["dependencies" := JObj(d)]))
  }

  /** The update succeeds exactly when every value it writes into is an object and a present build script has `includes`. */
  lemma UpdatedPackageOk(pkg: Json, warpName: string, updateBuild: bool, packageName: string, relRootPath: string)
    ensures UpdatedPackage(pkg, warpName, updateBuild, packageName, relRootPath).Ok?
            <==> pkg.JObj? && (!HasOwn(pkg, "dependencies") || pkg.fields["dependencies"].JObj?)
                 && (updateBuild ==> (!HasOwn(pkg, "scripts") || pkg.fields["scripts"].JObj?)
                                     && var s := ScriptsOf(pkg.fields);
                                        ("build" !in s || s["build"].JStr? || s["build"].JArr?))
  {
  }

  /**
   * What the update leaves behind: the build key holds the connect
   * command, the build script includes the run command, both dependencies
   * are set, and every other property of the package is kept.
   */
  lemma UpdatedPackageEffect(pkg: Json, warpName: string, updateBuild: bool, packageName: string,
                             relRootPath: string)
    requires UpdatedPackage(pkg, warpName, updateBuild, packageName, relRootPath).Ok?
    ensures var q := UpdatedPackage(pkg, warpName, updateBuild, packageName, relRootPath).value;
            q.JObj? && HasOwn(q, "dependencies") && q.fields["dependencies"].JObj?
            && q.fields["dependencies"].fields[packageName] == JStr(FilePrefix + relRootPath)
            && (packageName != ClientLibName ==> q.fields["dependencies"].fields[ClientLibName] == JStr(Latest))
            && (forall k :: k in pkg.fields && k != "scripts" && k != "dependencies" ==> k in q.fields && q.fields[k] == pkg.fields[k])
            && (updateBuild ==> HasOwn(q, "scripts") && q.fields["scripts"].JObj?
                                && BuildKey(warpName) in q.fields["scripts"].fields
                                && q.fields["scripts"].fields[BuildKey(warpName)] == JStr(ConnectCommand(warpName))
                                && "build" in q.fields["scripts"].fields
                                && Includes(q.fields["scripts"].fields["build"], RunCommand(warpName)))
  {
  }

  /** Running the update on its own result changes nothing. */
  lemma UpdatedPackageIdempotent(pkg: Json, warpName: string, updateBuild: bool, packageName: string,
                                 relRootPath: string)
    requires UpdatedPackage(pkg, warpName, updateBuild, packageName, relRootPath).Ok?
    ensures var q := UpdatedPackage(pkg, warpName, updateBuild, packageName, relRootPath).value;
            UpdatedPackage(q, warpName, updateBuild, packageName, relRootPath) == Ok(q)
  {
    var q := UpdatedPackage(pkg, warpName, updateBuild, packageName, relRootPath).value;
    UpdatedPackageEffect(pkg, warpName, updateBuild, packageName, relRootPath);
    var f := q.fields;
    if updateBuild {
      var s := f["scripts"].fields;
      assert s[BuildKey(warpName) := JStr(ConnectCommand(warpName))] == s;
      assert UpdatedScripts(f, warpName) == Ok(s);
      assert f["scripts" := JObj(s)] == f;
    }
    var d := f["dependencies"].fields;
    assert d[ClientLibName := JStr(Latest)][packageName := JStr(FilePrefix + relRootPath)] == d;
    assert UpdatedDependencies(f, packageName, relRootPath) == Ok(d);
    assert f["dependencies" := JObj(d)] == f;
  }

  /** A JSON.stringify indentation: a number of spaces or a tab. */
  datatype Indent = Spaces(count: nat) | Tab

  /** npm's default indentation. */
  const DefaultIndent := Spaces(2)

  /** Position `i` is where `^` matches in multi-line mode: the start, or just after a line terminator. */
  predicate LineStart(s: string, i: int)
  {
    i == 0 || (0 < i <= |s| && LineTerminator(s[i - 1]))
  }

  /** The end of the run of `\s` characters starting at `i`. */
  function SpaceRunEnd(s: string, i: nat): (j: nat)
    requires i <= |s|
    ensures i <= j <= |s|
    ensures forall k :: i <= k < j ==> JsSpace(s[k])
    ensures j == |s| || !JsSpace(s[j])
    decreases |s| - i
  {
    if i < |s| && JsSpace(s[i]) then SpaceRunEnd(s, i + 1) else i
  }

  /** The quoted key the indentation is read from. */
  const NameKey := "\"name\""

  /**
   * `/^(\s*)"name"/m` matches at `i`. Since `"` is not white space, the
   * greedy group is the whole white-space run and no shorter run can match.
   */
  predicate MatchAt(s: string, i: nat)
    requires i <= |s|
  {
    LineStart(s, i) && OccursAt(s, NameKey, SpaceRunEnd(s, i))
  }

  /** The leftmost match at or after `i`. */
  function FirstMatch(s: string, i: nat): (r: Option<nat>)
    requires i <= |s|
    ensures r.Some? ==> i <= r.value <= |s| && MatchAt(s, r.value)
                        && forall k :: i <= k < r.value ==> !MatchAt(s, k)
    ensures r.None? ==> forall k :: i <= k <= |s| ==> !MatchAt(s, k)
    decreases |s| - i
  {
    if MatchAt(s, i) then Some(i)
    else if i == |s| then None
    else FirstMatch(s, i + 1)
  }

  /** The captured white space of the match at `i`. */
  function Captured(s: string, i: nat): string
    requires i <= |s|
  {
    s[i..SpaceRunEnd(s, i)]
  }

  /**
   * getPackageJsonIndentionRule: the white space before the first `"name"`
   * at a line start decides; spaces only give their number, tabs only give
   * a tab, and no match, a mix or no spaces and tabs at all give the default.
   */
  function IndentRule(text: string): (r: Indent)
    ensures r.Spaces? ==> r.count > 0
    ensures FirstMatch(text, 0).None? ==> r == DefaultIndent
    ensures FirstMatch(text, 0).Some? ==>
              var g := Captured(text, FirstMatch(text, 0).value);
              (r == Tab <==> multiset(g)['\t'] > 0 && multiset(g)[' '] == 0)
              && (multiset(g)[' '] > 0 && multiset(g)['\t'] == 0 ==> r == Spaces(multiset(g)[' ']))
              && ((multiset(g)[' '] > 0) == (multiset(g)['\t'] > 0) ==> r == DefaultIndent)
  {
    match FirstMatch(text, 0)
    case None => DefaultIndent
    case Some(i) =>
      var g := Captured(text, i);
      var spaces, tabs := multiset(g)[' '], multiset(g)['\t'];
      if spaces > 0 && tabs > 0 then DefaultIndent
      else if spaces == 0 && tabs == 0 then DefaultIndent
      else if spaces > 0 then Spaces(spaces)
      else Tab
  }

  /** A string made only of `c` holds `c` once per character. */
  lemma {:induction false} CountAll(s: string, c: char)
    requires forall k :: 0 <= k < |s| ==> s[k] == c
    ensures multiset(s)[c] == |s|
  {
    if |s| > 0 {
      assert s == s[..|s| - 1] + [c];
      CountAll(s[..|s| - 1], c);
    }
  }

  /** The white-space run at the start of `ws + NameKey + rest` is `ws` when `ws` is made of `c`. */
  lemma RunOfIndent(s: string, ws: string, rest: string, c: char)
    requires c == ' ' || c == '\t'
    requires forall k :: 0 <= k < |ws| ==> ws[k] == c
    requires s == "{\n" + ws + NameKey + rest
    ensures SpaceRunEnd(s, 2) == 2 + |ws| && Captured(s, 2) == ws
    ensures MatchAt(s, 2) && !MatchAt(s, 0) && !MatchAt(s, 1)
  {
    forall k | 2 <= k < 2 + |ws| ensures JsSpace(s[k]) {
      assert s[k] == ws[k - 2];
    }
    assert s[2 + |ws|] == '"';
    assert s[2 + |ws|..2 + |ws| + |NameKey|] == NameKey;
    assert s[0] == '{' && s[1] == '\n';
  }

  /**
   * A package.json whose first property line is indented by spaces only or
   * by tabs only is written back with that indentation.
   */
  lemma IndentOfFirstLine(ws: string, rest: string, c: char)
    requires |ws| > 0 && (c == ' ' || c == '\t')
    requires forall k :: 0 <= k < |ws| ==> ws[k] == c
    ensures IndentRule("{\n" + ws + NameKey + rest) == if c == ' ' then Spaces(|ws|) else Tab
  {
    var s := "{\n" + ws + NameKey + rest;
    RunOfIndent(s, ws, rest, c);
    assert FirstMatch(s, 0) == Some(2) by {
      assert FirstMatch(s, 1) == FirstMatch(s, 2);
    }
    CountAll(ws, c);
    var other := if c == ' ' then '\t' else ' ';
    assert other !in ws;
  }

  /** The indent argument JSON.stringify receives: at most ten spaces, or a tab. */
  function StringifyIndent(r: Indent): (s: string)
    ensures r.Spaces? ==> |s| == (if r.count < 10 then r.count else 10) && forall k :: 0 <= k < |s| ==> s[k] == ' '
    ensures r.Tab? ==> s == "\t"
  {
    if r.Tab? then "\t" else Repeat(' ', if r.count < 10 then r.count else 10)
  }

  function Repeat(c: char, n: nat): (s: string)
    ensures |s| == n && forall k :: 0 <= k < n ==> s[k] == c
  {
    if n == 0 then "" else [c] + Repeat(c, n - 1)
  }

  /** What updatePackageJson writes: the updated package object and the indentation it is printed with. */
  function UpdatedFile(text: string, parse: string -> Option<Json>, warpName: string, updateBuild: bool,
                       packageName: string, relRootPath: string): Result<(Json, string)>
  {
    match parse(text)
    case None => Err(InvalidJson)
    case Some(pkg) =>
      match UpdatedPackage(pkg, warpName, updateBuild, packageName, relRootPath)
      case Err(e) => Err(e)
      case Ok(q) => Ok((q, StringifyIndent(IndentRule(text))))
  }

  /**
   * updatePackageJson, step by step on the parsed object: the indentation
   * is read from the text, the scripts are merged when the build is to be
   * updated, and the two dependencies are set.
   */
  method UpdatePackageJson(text: string, parse: string -> Option<Json>, warpName: string, updateBuild: bool,
                           packageName: string, relRootPath: string) returns (r: Result<(Json, string)>)
    ensures r == UpdatedFile(text, parse, warpName, updateBuild, packageName, relRootPath)
  {
    var command := ConnectCommand(warpName);
    var rule := IndentRule(text);
    var parsed := parse(text);
    if parsed.None? {
      return Err(InvalidJson);
    }
    var pkg := parsed.value;
    if !pkg.JObj? {
      return Err(TypeError("package"));
    }
    var obj := pkg.fields;
    if updateBuild {
      var buildKey, npmRunCommand := BuildKey(warpName), RunCommand(warpName);
      if "scripts" !in obj {
        obj := obj["scripts" := JObj(map[])];
      }
      var scripts := obj["scripts"];
      if !scripts.JObj? {
        return Err(TypeError("scripts"));
      }
      var entries := scripts.fields[buildKey := JStr(command)];
      if "build" !in entries {
        entries := entries["build" := JStr(NpmRun + buildKey)];
      } else {
        var build := entries["build"];
        if !build.JStr? && !build.JArr? {
          return Err(TypeError("build"));
        }
        if !Includes(build, npmRunCommand) {
          entries := entries["build" := JStr(npmRunCommand + Then + Text(build))];
        }
      }
      assert Ok(entries) == UpdatedScripts(pkg.fields, warpName);
      obj := obj["scripts" := JObj(entries)];
      assert obj == pkg.fields["scripts" := JObj(entries)];
    }
    ghost var scripted := obj;
    assert UpdatedPackage(pkg, warpName, updateBuild, packageName, relRootPath)
           == match UpdatedDependencies(scripted, packageName, relRootPath)
              case Err(e) => Err(e)
              case Ok(d) => Ok(JObj(scripted["dependencies" := JObj(d)]));
    if "dependencies" !in obj {
      obj := obj["dependencies" := JObj(map[])];
    }
    var deps := obj["dependencies"];
    if !deps.JObj? {
      return Err(TypeError("dependencies"));
    }
    var entries := deps.fields[ClientLibName := JStr(Latest)];
    entries := entries[packageName := JStr(FilePrefix + relRootPath)];
    assert UpdatedDependencies(scripted, packageName, relRootPath) == Ok(entries);
    obj := obj["dependencies" := JObj(entries)];
    assert obj == scripted["dependencies" := JObj(entries)];
    assert UpdatedPackage(pkg, warpName, updateBuild, packageName, relRootPath) == Ok(JObj(obj));
    r := Ok((JObj(obj), StringifyIndent(rule)));
  }

  /**
   * executeConnectAsync up to the warp name check, as written: after the
   * login the project directory must exist, and the check meant for its
   * package.json looks at the directory again.
   */
  function PreflightAsWritten(loggedIn: bool, existing: set<string>, projectDir: string, warpName: string)
    : (r: Result<string>)
    ensures r.Ok? <==> loggedIn && projectDir in existing && Validators.ValidateWarpNameOrError(warpName)
    ensures r.Ok? ==> r.value == Join(projectDir, "package.json")
  {
    if !loggedIn then Err(Refused("login"))
    else if projectDir !in existing then Err(Refused("project directory"))
    else
      var packageJson := Join(projectDir, "package.json");
      if projectDir !in existing then Err(Refused("package.json"))
      else if !Validators.ValidateWarpNameOrError(warpName) then Err(Refused("warp name"))
      else Ok(packageJson)
  }

  /** A project directory without a package.json passes the checks as written. */
  lemma PreflightMissesPackageJson()
    ensures var r := PreflightAsWritten(true, {"/p"}, "/p", "abc");
            r == Ok("/p/package.json") && r.value !in {"/p"}
  {
    assert Validators.ValidateWarpNameOrError("abc") by {
      assert Validators.NameChar('a') && Validators.NameChar('b') && Validators.NameChar('c');
    }
    assert Join("/p", "package.json") == "/p/package.json";
  }

  /** The checks as intended: the second test is on the package.json file. */
  function Preflight(loggedIn: bool, existing: set<string>, projectDir: string, warpName: string)
    : (r: Result<string>)
    ensures r.Ok? <==> loggedIn && projectDir in existing && Join(projectDir, "package.json") in existing
                       && Validators.ValidateWarpNameOrError(warpName)
    ensures r.Ok? ==> r.value == Join(projectDir, "package.json") && r.value in existing
    ensures r.Err? ==> r.error.Refused?
  {
    if !loggedIn then Err(Refused("login"))
    else if projectDir !in existing then Err(Refused("project directory"))
    else
      var packageJson := Join(projectDir, "package.json");
      if packageJson !in existing then Err(Refused("package.json"))
      else if !Validators.ValidateWarpNameOrError(warpName) then Err(Refused("warp name"))
      else Ok(packageJson)
  }
}
