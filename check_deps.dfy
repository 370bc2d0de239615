/** `scripts/check_dependencies.py`: reading package specifications from
    `requirements.txt` and `environment.yml`, and sorting the requirement
    packages into consistent, mismatched and missing ones. The files reach
    the model as their lines (for `requirements.txt`) and as the loaded
    `dependencies` list (for `environment.yml`). */
module DependencyCheck {
  import opened Options
  import opened Text
  import opened Dicts

  /** A `Dict[str, str]` from package to version constraint, in insertion
      order. */
  type Deps = Dict<string>

  // ---------------------------------------------------------------------------
  // One specification line

  /** The characters that end a package name: `>`, `=`, `<`, `!` and
      whitespace. */
  predicate IsSpecial(c: char)
  {
    c == '>' || c == '=' || c == '<' || c == '!' || IsSpace(c)
  }

  /** Length of the longest prefix of `s` without a special character. */
  function NameLength(s: string): (k: nat)
    ensures k <= |s|
    ensures forall j :: 0 <= j < k ==> !IsSpecial(s[j])
    ensures k < |s| ==> IsSpecial(s[k])
  {
    if s == [] || IsSpecial(s[0]) then 0 else 1 + NameLength(s[1..])
  }

  function DropFinalNewline(s: string): string
  {
    if s != [] && s[|s| - 1] == '\n' then s[..|s| - 1] else s
  }

  /** `re.match(r'^([^>=<!\s]+)([>=<!\s].*)?$', s)` giving `(group(1),
      (group(2) or "").strip())`. The name group is greedy; the version
      group starts with a special character (possibly a newline) and `.`
      matches anything but a newline, while `$` also matches before a
      final newline. */
  function MatchSpec(s: string): (r: Option<(string, string)>)
    ensures r.Some? ==> r.value.0 != [] && r.value.0 == s[..NameLength(s)]
    ensures r.Some? ==> r.value.1 == Strip(s[NameLength(s)..])
    ensures s != [] && IsSpecial(s[0]) ==> r.None?
    ensures '\n' !in s ==> (r.Some? <==> s != [] && !IsSpecial(s[0]))
  {
    var k := NameLength(s);
    var body := DropFinalNewline(s[k..]);
    if k == 0 || (|body| > 1 && '\n' in body[1..]) then None
    else
      assert '\n' !in s ==> '\n' !in body by {
        if '\n' in body {
          var j :| 0 <= j < |body| && body[j] == '\n';
          assert s[k + j] == '\n';
        }
      }
      Some((s[..k], Strip(s[k..])))
  }

  /** A package name is never empty and holds no special character. */
  lemma NameHasNoSpecial(s: string)
    requires MatchSpec(s).Some?
    ensures forall j :: 0 <= j < |MatchSpec(s).value.0| ==> !IsSpecial(MatchSpec(s).value.0[j])
  {
  }

  // ---------------------------------------------------------------------------
  // parse_requirements_txt

  /** The body of the loop of `parse_requirements_txt` for one line. */
  function AddLine(d: Deps, line: string): Deps
  {
    var t := Strip(line);
    if t != "" && !StartsWith(t, "#") then
      match MatchSpec(t)
      case Some(spec) => Assign(d, spec.0, spec.1)
      case None => d
    else d
  }

  /** The dictionary `parse_requirements_txt` returns for the given lines. */
  function Requirements(lines: seq<string>): Deps
  {
    if lines == [] then []
    else AddLine(Requirements(lines[..|lines| - 1]), lines[|lines| - 1])
  }

  /** The package and version a requirements line contributes, if any. */
  function LineSpec(line: string): Option<(string, string)>
  {
    var t := Strip(line);
    if t != "" && !StartsWith(t, "#") then MatchSpec(t) else None
  }

  /** The version of the last line that names `p`. */
  function LastVersion(lines: seq<string>, p: string): Option<string>
  {
    if lines == [] then None
    else
      var spec := LineSpec(lines[|lines| - 1]);
      if spec.Some? && spec.value.0 == p then Some(spec.value.1)
      else LastVersion(lines[..|lines| - 1], p)
  }

  /** Each package maps to the version on the last line that names it; the
      package names are distinct. */
  lemma {:induction false} RequirementsLastWins(lines: seq<string>, p: string)
    ensures Get(Requirements(lines), p) == LastVersion(lines, p)
    ensures UniqueNames(Requirements(lines))
  {
    if lines != [] {
      RequirementsLastWins(lines[..|lines| - 1], p);
    }
  }

  /** A blank or comment line adds nothing. */
  lemma SkippedLine(d: Deps, line: string)
    requires Strip(line) == "" || StartsWith(Strip(line), "#")
    ensures AddLine(d, line) == d
  {
  }

  /** `parse_requirements_txt(file_path)` over the file's lines. */
  method ParseRequirementsTxt(lines: seq<string>) returns (dependencies: Deps)
    ensures dependencies == Requirements(lines)
  {
    dependencies := [];
    for i := 0 to |lines|
      invariant dependencies == Requirements(lines[..i])
    {
      assert lines[..i + 1][..i] == lines[..i];
      assert Requirements(lines[..i + 1]) == AddLine(dependencies, lines[i]);
      var line := Strip(lines[i]);
      if line != "" && !StartsWith(line, "#") {
        var spec := MatchSpec(line);
        if spec.Some? {
          dependencies := Assign(dependencies, spec.value.0, spec.value.1);
        }
      }
    }
    assert lines[..|lines|] == lines;
  }

  // ---------------------------------------------------------------------------
  // parse_environment_yml

  /** One entry of the `dependencies` list of the environment file: a conda
      specification string, a dictionary with a `pip` list, or anything
      else (ignored). */
  datatype EnvDep = Conda(spec: string) | Pip(specs: seq<string>) | Ignored

  /** `deps[package] = version` for a specification that matches. */
  function AddSpec(d: Deps, s: string): Deps
  {
    match MatchSpec(s)
    case Some(spec) => Assign(d, spec.0, spec.1)
    case None => d
  }

  function AddSpecs(d: Deps, specs: seq<string>): Deps
  {
    if specs == [] then d else AddSpec(AddSpecs(d, specs[..|specs| - 1]), specs[|specs| - 1])
  }

  /** The conda dictionary `parse_environment_yml` builds. */
  function CondaDeps(deps: seq<EnvDep>): Deps
  {
    if deps == [] then []
    else
      var d := CondaDeps(deps[..|deps| - 1]);
      match deps[|deps| - 1]
      case Conda(s) => AddSpec(d, s)
      case _ => d
  }

  /** The pip dictionary `parse_environment_yml` builds. */
  function PipDeps(deps: seq<EnvDep>): Deps
  {
    if deps == [] then []
    else
      var d := PipDeps(deps[..|deps| - 1]);
      match deps[|deps| - 1]
      case Pip(specs) => AddSpecs(d, specs)
      case _ => d
  }

  /** Conda and pip entries never mix: pip lists do not change the conda
      dictionary and conda strings do not change the pip one. */
  lemma {:induction false} EnvSplit(deps: seq<EnvDep>, extra: EnvDep)
    ensures extra.Pip? ==> CondaDeps(deps + [extra]) == CondaDeps(deps)
    ensures extra.Conda? ==> PipDeps(deps + [extra]) == PipDeps(deps)
  {
    assert (deps + [extra])[..|deps|] == deps;
  }

  /** `parse_environment_yml(file_path)` over the loaded `dependencies`
      list. */
  method ParseEnvironmentYml(deps: seq<EnvDep>) returns (conda: Deps, pip: Deps)
    ensures conda == CondaDeps(deps) && pip == PipDeps(deps)
  {
    conda, pip := [], [];
    for i := 0 to |deps|
      invariant conda == CondaDeps(deps[..i]) && pip == PipDeps(deps[..i])
    {
      assert deps[..i + 1][..i] == deps[..i];
      match deps[i] {
        case Conda(s) =>
          var spec := MatchSpec(s);
          if spec.Some? {
            conda := Assign(conda, spec.value.0, spec.value.1);
          }
        case Pip(specs) =>
          for j := 0 to |specs|
            invariant pip == AddSpecs(PipDeps(deps[..i]), specs[..j])
          {
            assert specs[..j + 1][..j] == specs[..j];
            var spec := MatchSpec(specs[j]);
            if spec.Some? {
              pip := Assign(pip, spec.value.0, spec.value.1);
            }
          }
          assert specs[..|specs|] == specs;
        case Ignored =>
      }
    }
    assert deps[..|deps|] == deps;
  }

  // ---------------------------------------------------------------------------
  // compare_dependencies

  datatype Kind = Mismatch | Consistent | MissingInEnv

  /** Where one requirement lands, with the line reported for it. */
  datatype Finding = Finding(kind: Kind, text: string)

  /** The loop body of `compare_dependencies` for requirement `p` at
      version `v`: the pip entry is consulted first, then the conda one. */
  function Verdict(p: string, v: string, pip: Deps, conda: Deps): (f: Finding)
    ensures f.kind == Mismatch <==> Get(pip, p).Some? && Get(pip, p).value != v
    ensures f.kind == MissingInEnv <==> Get(pip, p).None? && Get(conda, p).None?
    ensures Get(pip, p).None? && Get(conda, p).Some? ==> f.kind == Consistent
  {
    match Get(pip, p)
    case Some(ev) =>
      if v != ev then Finding(Mismatch, p + ": req.txt(" + v + ") vs env.yml(" + ev + ")")
      else Finding(Consistent, p + v)
    case None =>
      match Get(conda, p)
      case Some(cv) => Finding(Consistent, p + ": req.txt(" + v + ") -> conda(" + cv + ")")
      case None => Finding(MissingInEnv, p + v)
  }

  /** A package pip lists is judged by pip alone, whatever conda says. */
  lemma PipBeforeConda(p: string, v: string, pip: Deps, conda: Deps)
    requires Get(pip, p).Some?
    ensures Verdict(p, v, pip, conda) == Verdict(p, v, pip, [])
  {
  }

  /** The findings for the requirements, in order. */
  function Findings(req: Deps, pip: Deps, conda: Deps): (fs: seq<Finding>)
    ensures |fs| == |req|
    ensures forall i :: 0 <= i < |req| ==> fs[i] == Verdict(req[i].0, req[i].1, pip, conda)
  {
    if req == [] then []
    else Findings(req[..|req| - 1], pip, conda) + [Verdict(req[|req| - 1].0, req[|req| - 1].1, pip, conda)]
  }

  /** The texts of the findings of kind `k`, in order. */
  function Only(fs: seq<Finding>, k: Kind): seq<string>
  {
    if fs == [] then []
    else Only(fs[..|fs| - 1], k) + (if fs[|fs| - 1].kind == k then [fs[|fs| - 1].text] else [])
  }

  lemma OnlySnoc(fs: seq<Finding>, f: Finding, k: Kind)
    ensures Only(fs + [f], k) == Only(fs, k) + (if f.kind == k then [f.text] else [])
  {
    assert (fs + [f])[..|fs|] == fs;
  }

  /** Every finding goes to exactly one of the three lists. */
  lemma {:induction false} Partition(fs: seq<Finding>)
    ensures |Only(fs, Mismatch)| + |Only(fs, Consistent)| + |Only(fs, MissingInEnv)| == |fs|
  {
    if fs != [] {
      Partition(fs[..|fs| - 1]);
    }
  }

  /** `missing_in_req`: the env pip packages that are not requirements, in
      env order. */
  function MissingInReq(pip: Deps, req: Deps): seq<string>
  {
    if pip == [] then []
    else
      var last := pip[|pip| - 1];
      MissingInReq(pip[..|pip| - 1], req) + (if Get(req, last.0).None? then [last.0 + last.1] else [])
  }

  /** A pip package that is also a requirement is never reported missing;
      the report has at most one line per pip package. */
  lemma {:induction false} MissingInReqBound(pip: Deps, req: Deps)
    ensures |MissingInReq(pip, req)| <= |pip|
    ensures (forall i :: 0 <= i < |pip| ==> Get(req, pip[i].0).Some?) ==> MissingInReq(pip, req) == []
  {
    if pip != [] {
      MissingInReqBound(pip[..|pip| - 1], req);
    }
  }

  datatype Issues = Issues(missingInEnv: seq<string>, missingInReq: seq<string>,
                           versionMismatch: seq<string>, ok: seq<string>)

  /** `compare_dependencies(req_deps, env_pip_deps, env_conda_deps)` */
  method CompareDependencies(req: Deps, pip: Deps, conda: Deps) returns (issues: Issues)
    ensures issues.versionMismatch == Only(Findings(req, pip, conda), Mismatch)
    ensures issues.ok == Only(Findings(req, pip, conda), Consistent)
    ensures issues.missingInEnv == Only(Findings(req, pip, conda), MissingInEnv)
    ensures issues.missingInReq == MissingInReq(pip, req)
  {
    var missingInEnv, versionMismatch, ok := [], [], [];
    for i := 0 to |req|
      invariant versionMismatch == Only(Findings(req[..i], pip, conda), Mismatch)
      invariant ok == Only(Findings(req[..i], pip, conda), Consistent)
      invariant missingInEnv == Only(Findings(req[..i], pip, conda), MissingInEnv)
    {
      var package, reqVersion := req[i].0, req[i].1;
      assert req[..i + 1][..i] == req[..i] && req[..i + 1][i] == req[i];
      ghost var before := Findings(req[..i], pip, conda);
      ghost var f := Verdict(package, reqVersion, pip, conda);
      assert Findings(req[..i + 1], pip, conda) == before + [f];
      OnlySnoc(before, f, Mismatch);
      OnlySnoc(before, f, Consistent);
      OnlySnoc(before, f, MissingInEnv);
      var envPip := Get(pip, package);
      if envPip.Some? {
        if reqVersion != envPip.value {
          versionMismatch := versionMismatch + [package + ": req.txt(" + reqVersion + ") vs env.yml(" + envPip.value + ")"];
        } else {
          ok := ok + [package + reqVersion];
        }
      } else {
        var envConda := Get(conda, package);
        if envConda.Some? {
          ok := ok + [package + ": req.txt(" + reqVersion + ") -> conda(" + envConda.value + ")"];
        } else {
          missingInEnv := missingInEnv + [package + reqVersion];
        }
      }
    }
    assert req[..|req|] == req;
    var missingInReq := CollectMissingInReq(pip, req);
    issues := Issues(missingInEnv, missingInReq, versionMismatch, ok);
  }

  /** The second loop of `compare_dependencies`. */
  method CollectMissingInReq(pip: Deps, req: Deps) returns (missingInReq: seq<string>)
    ensures missingInReq == MissingInReq(pip, req)
  {
    missingInReq := [];
    for i := 0 to |pip|
      invariant missingInReq == MissingInReq(pip[..i], req)
    {
      assert pip[..i + 1][..i] == pip[..i] && pip[..i + 1][i] == pip[i];
      if Get(req, pip[i].0).None? {
        missingInReq := missingInReq + [pip[i].0 + pip[i].1];
      }
    }
    assert pip[..|pip|] == pip;
  }
}
