/**
 * The `buildout2nix` command: for every package of a buildout egg list, in
 * ascending order of its Nix attribute name, look the release up on the
 * package index and print one Nix derivation block for it, between a fixed
 * header and footer.
 *
 * The index crawler and `suggest_normalized_version` are parameters of the
 * run (`Config.getRelease`, `Config.normalise`); the configuration tables are
 * parameters too. What is printed is modelled as a sequence of `Printed`
 * items (the header, one `Entry` per block, the footer); the template texts
 * themselves are not part of this model.
 */
module Buildout {
  import opened Outcomes
  import opened PyStrings
  import opened LexOrder

  /** One package of the egg list: its name as written, its version and its extras. */
  datatype Egg = Egg(name: string, version: string, extras: seq<string>)

  /** The `url` record of a source distribution: download URL and hash. */
  datatype Dist = Dist(url: string, hashname: string, hashval: string)

  /** A release found on the index: distributions by kind, and the text `nix_metadata` renders for it. */
  datatype Release = Release(dists: map<string, Dist>, metadata: string)

  /** What `Crawler.get_release` does: return a release or raise one of the two caught exceptions. */
  datatype Lookup = Found(release: Release) | ProjectNotFound | IrrationalVersion

  /** The configuration tables and the two foreign functions the run depends on. */
  datatype Config = Config(
    systemPackages: set<string>,
    ignorePackages: set<string>,
    hardRequirements: map<string, string>,
    installCommand: string,
    normalise: string -> Option<string>,
    getRelease: string -> Lookup)

  /** The fields substituted into the per-package template. */
  datatype Entry = Entry(
    nixname: string,
    name: string,
    url: string,
    hashname: string,
    hashval: string,
    buildInputs: string,
    propagatedBuildInputs: string,
    installCommand: string,
    metadata: string)

  datatype Printed = PreTmpl | Block(entry: Entry) | PostTmpl

  /** The exceptions that end a run. */
  datatype Fault =
    | NotImplemented            // `--buildout-path` given
    | NoneVersion(key: string)  // `suggest_normalized_version` gave None: `str + None` raises TypeError
    | UnboundRelease(key: string) // the first looked-up package failed: `egg_release` is unbound
    | NoSdist(key: string)      // the release has no 'sdist' distribution: KeyError

  /**
   * What happens after a caught lookup failure: `AsWritten` goes on to read
   * `egg_release` as the source does; `SkipFailed` moves to the next package.
   */
  datatype FailurePolicy = AsWritten | SkipFailed

  /** The state of a run: what has been printed, the two failure lists, the index queries made so far, the `egg_release` variable and the exception, if any. */
  datatype Run = Run(
    printed: seq<Printed>,
    notFound: seq<string>,
    versionError: seq<string>,
    queries: seq<string>,
    release: Option<Release>,
    fault: Option<Fault>)

  const MirrorHost := "http://a.pypi"
  const CanonicalHost := "http://pypi"
  const NamePlaceholder := "${name}"
  const UnzipBuildInputs := "\n    buildInputs = [ pkgs.unzip ];\n"
  const PropagatedTemplate := "\n    propagatedBuildInputs = [ {0} ];\n"

  /**
   * The derivation name: the egg name, its extras joined by '-' with no
   * separator before them, then '-' and the version as written (not the
   * normalised one).
   */
  function DisplayName(egg: Egg): (name: string)
    ensures name == egg.name + Join("-", egg.extras) + "-" + egg.version
  {
    var base := if egg.extras != [] then egg.name + Join("-", egg.extras) else egg.name;
    base + "-" + egg.version
  }

  lemma DisplayNameExample()
    ensures DisplayName(Egg("foo", "1.0", ["a", "b"])) == "fooa-b-1.0"
  {
  }

  /** The query sent to the index: the egg name pinned to the normalised version. */
  function LookupSpec(egg: Egg, version: string): (spec: string)
    ensures |spec| == |egg.name| + 2 + |version|
    ensures spec[..|egg.name|] == egg.name && spec[|egg.name|..|egg.name| + 2] == "=="
    ensures spec[|egg.name| + 2..] == version
  {
    egg.name + "==" + version
  }

  /** The mirror host is rewritten first, then the display name becomes `${name}`. */
  function RewriteUrl(url: string, name: string): (u: string)
    ensures name != [] ==> u == Join(NamePlaceholder, Split(Join(CanonicalHost, Split(url, MirrorHost)), name))
    ensures name != [] && Absent(url, MirrorHost) && Absent(url, name) ==> u == url
  {
    var moved := ReplaceAll(url, MirrorHost, CanonicalHost);
    ReplaceAllIsJoinOfSplit(url, MirrorHost, CanonicalHost);
    if name == [] then ReplaceAll(moved, name, NamePlaceholder)
    else
      ReplaceAllIsJoinOfSplit(moved, name, NamePlaceholder);
      if Absent(url, MirrorHost) && Absent(url, name) then
        ReplaceAllAbsent(url, MirrorHost, CanonicalHost);
        ReplaceAllAbsent(url, name, NamePlaceholder);
        ReplaceAll(moved, name, NamePlaceholder)
      else ReplaceAll(moved, name, NamePlaceholder)
  }

  /** A URL on the mirror host is moved to the public host when the mirror host does not occur again. */
  lemma MirrorRewrite(rest: string)
    requires Absent(rest, MirrorHost)
    ensures ReplaceAll(MirrorHost + rest, MirrorHost, CanonicalHost) == CanonicalHost + rest
  {
    assert MirrorHost + rest == [] + MirrorHost + rest;
    ReplaceAllFirstMatch([], MirrorHost, rest, CanonicalHost);
    ReplaceAllAbsent(rest, MirrorHost, CanonicalHost);
  }

  /**
   * The display name, first occurring right after `head` and not again in
   * `tail`, becomes the placeholder.
   */
  lemma NameRewrite(head: string, name: string, tail: string)
    requires name != [] && NotBefore(head + name + tail, name, |head|) && Absent(tail, name)
    ensures ReplaceAll(head + name + tail, name, NamePlaceholder) == head + NamePlaceholder + tail
  {
    ReplaceAllFirstMatch(head, name, tail, NamePlaceholder);
    ReplaceAllAbsent(tail, name, NamePlaceholder);
  }

  /**
   * A URL on the mirror host whose file name is the display name comes out
   * on the public host with the name parametrised, for example
   * `http://a.pypi.python.org/packages/source/f/foo/foo-1.0.tar.gz` with
   * `foo-1.0`: the mirror host occurs only at the start, and the name occurs
   * only as the file name, after a directory part that may hold its initial.
   */
  lemma RewriteUrlOfMirroredArchive(dir: string, name: string, suffix: string)
    requires name != [] && Absent(dir + name + suffix, MirrorHost)
    requires NotBefore(CanonicalHost + dir + name + suffix, name, |CanonicalHost + dir|) && Absent(suffix, name)
    ensures RewriteUrl(MirrorHost + dir + name + suffix, name) == CanonicalHost + dir + NamePlaceholder + suffix
  {
    var rest := dir + name + suffix;
    calc {
      RewriteUrl(MirrorHost + dir + name + suffix, name);
      { assert MirrorHost + dir + name + suffix == MirrorHost + rest; }
      ReplaceAll(ReplaceAll(MirrorHost + rest, MirrorHost, CanonicalHost), name, NamePlaceholder);
      { MirrorRewrite(rest); }
      ReplaceAll(CanonicalHost + rest, name, NamePlaceholder);
      { assert CanonicalHost + rest == CanonicalHost + dir + name + suffix; }
      ReplaceAll(CanonicalHost + dir + name + suffix, name, NamePlaceholder);
      { NameRewrite(CanonicalHost + dir, name, suffix); }
      CanonicalHost + dir + NamePlaceholder + suffix;
    }
  }

  /** `"\n    propagatedBuildInputs = [ {0} ];\n".format(requirements)` */
  function PropagatedBuildInputs(requirements: string): (text: string)
    ensures text == "\n    propagatedBuildInputs = [ " + requirements + " ];\n"
  {
    var head := "\n    propagatedBuildInputs = [ ";
    var tail := " ];\n";
    assert PropagatedTemplate == head + ("{0}" + tail);
    FormatPlain(head, "{0}" + tail, requirements, Unset);
    FormatIndexField(tail, requirements);
    FormatPlain(tail, [], requirements, Manual);
    assert tail + [] == tail;
    Format(PropagatedTemplate, requirements).value
  }

  /**
   * The fields of one derivation block (scripts.py, the loop body after the
   * lookup): name, rewritten URL, hash, the unzip input for `.zip` archives
   * and the hard requirements of the package.
   */
  function MakeEntry(nixname: string, egg: Egg, dist: Dist, metadata: string, cfg: Config): (e: Entry)
    ensures e.nixname == nixname && e.name == DisplayName(egg)
    ensures e.url == RewriteUrl(dist.url, DisplayName(egg))
    ensures e.hashname == dist.hashname && e.hashval == dist.hashval
    ensures e.buildInputs != [] <==> EndsWith(e.url, ".zip")
    ensures e.buildInputs != [] ==> e.buildInputs == "\n    buildInputs = [ pkgs.unzip ];\n"
    ensures e.propagatedBuildInputs != [] <==> nixname in cfg.hardRequirements
    ensures nixname in cfg.hardRequirements ==>
      e.propagatedBuildInputs == "\n    propagatedBuildInputs = [ " + cfg.hardRequirements[nixname] + " ];\n"
    ensures e.installCommand == cfg.installCommand && e.metadata == metadata
  {
    var name := DisplayName(egg);
    var url := RewriteUrl(dist.url, name);
    var buildInputs := if EndsWith(url, ".zip") then UnzipBuildInputs else "";
    var propagated :=
      if nixname in cfg.hardRequirements then PropagatedBuildInputs(cfg.hardRequirements[nixname]) else "";
    Entry(nixname, name, url, dist.hashname, dist.hashval, buildInputs, propagated, cfg.installCommand, metadata)
  }

  predicate Skipped(cfg: Config, nixname: string) {
    nixname in cfg.systemPackages || nixname in cfg.ignorePackages
  }

  /** Print the block for the release held in `egg_release` (lines 78-100). */
  function Emit(cfg: Config, st: Run, nixname: string, egg: Egg): (r: Run)
    requires st.fault.None?
    ensures r.notFound == st.notFound && r.versionError == st.versionError
    ensures r.queries == st.queries && r.release == st.release
    ensures st.release.None? ==> r.fault == Some(UnboundRelease(nixname))
    ensures r.fault.Some? <==> st.release.None? || "sdist" !in st.release.value.dists
    ensures r.fault.Some? ==> r.printed == st.printed
    ensures r.fault.None? ==>
      r.printed == st.printed + [Block(MakeEntry(nixname, egg, st.release.value.dists["sdist"],
                                                 st.release.value.metadata, cfg))]
  {
    match st.release
    case None => st.(fault := Some(UnboundRelease(nixname)))
    case Some(rel) =>
      if "sdist" !in rel.dists then st.(fault := Some(NoSdist(nixname)))
      else st.(printed := st.printed + [Block(MakeEntry(nixname, egg, rel.dists["sdist"], rel.metadata, cfg))])
  }

  /** One pass of the loop body for the package `nixname`. */
  function Step(policy: FailurePolicy, cfg: Config, eggs: map<string, Egg>, st: Run, nixname: string): (r: Run)
    requires nixname in eggs && st.fault.None?
    ensures Skipped(cfg, nixname) ==> r == st
    ensures st.printed <= r.printed && |r.printed| <= |st.printed| + 1
    ensures |r.printed| > |st.printed| ==>
      r.printed[|st.printed|].Block? && r.printed[|st.printed|].entry.nixname == nixname
    ensures r.notFound == st.notFound || r.notFound == st.notFound + [eggs[nixname].name]
    ensures r.versionError == st.versionError || r.versionError == st.versionError + [eggs[nixname].name]
    ensures st.queries <= r.queries && |r.queries| <= |st.queries| + 1
    ensures r.fault != Some(NotImplemented) && (r.fault.Some? ==> r.printed == st.printed)
  {
    if Skipped(cfg, nixname) then st
    else
      var egg := eggs[nixname];
      match cfg.normalise(egg.version)
      case None => st.(fault := Some(NoneVersion(nixname)))
      case Some(version) =>
        var spec := LookupSpec(egg, version);
        var queried := st.(queries := st.queries + [spec]);
        match cfg.getRelease(spec)
        case Found(rel) => Emit(cfg, queried.(release := Some(rel)), nixname, egg)
        case ProjectNotFound =>
          var failed := queried.(notFound := queried.notFound + [egg.name]);
          if policy == SkipFailed then failed else Emit(cfg, failed, nixname, egg)
        case IrrationalVersion =>
          var failed := queried.(versionError := queried.versionError + [egg.name]);
          if policy == SkipFailed then failed else Emit(cfg, failed, nixname, egg)
  }

  /** A version `suggest_normalized_version` rejects raises before the index is queried. */
  lemma StepNoneVersion(policy: FailurePolicy, cfg: Config, eggs: map<string, Egg>, st: Run, nixname: string)
    requires nixname in eggs && !Skipped(cfg, nixname) && st.fault.None?
    requires cfg.normalise(eggs[nixname].version).None?
    ensures Step(policy, cfg, eggs, st, nixname) == st.(fault := Some(NoneVersion(nixname)))
  {
  }

  /**
   * `ProjectNotFound` for the query of the normalised version: the query is
   * made, the egg name goes into `not_found` and nowhere else; as written the
   * body then goes on with whatever `egg_release` held before.
   */
  lemma StepNotFound(policy: FailurePolicy, cfg: Config, eggs: map<string, Egg>, st: Run, nixname: string,
                     version: string)
    requires nixname in eggs && !Skipped(cfg, nixname) && st.fault.None?
    requires cfg.normalise(eggs[nixname].version) == Some(version)
    requires cfg.getRelease(LookupSpec(eggs[nixname], version)) == ProjectNotFound
    ensures var r, egg := Step(policy, cfg, eggs, st, nixname), eggs[nixname];
      && r.queries == st.queries + [LookupSpec(egg, version)]
      && r.notFound == st.notFound + [egg.name] && r.versionError == st.versionError
      && r.release == st.release
      && (policy == SkipFailed ==> r.printed == st.printed && r.fault.None?)
      && (policy == AsWritten ==> (r.printed == st.printed <==> r.fault.Some?))
  {
  }

  /** The same for `IrrationalVersionError`, which goes into `version_error` only. */
  lemma StepIrrationalVersion(policy: FailurePolicy, cfg: Config, eggs: map<string, Egg>, st: Run, nixname: string,
                              version: string)
    requires nixname in eggs && !Skipped(cfg, nixname) && st.fault.None?
    requires cfg.normalise(eggs[nixname].version) == Some(version)
    requires cfg.getRelease(LookupSpec(eggs[nixname], version)) == IrrationalVersion
    ensures var r, egg := Step(policy, cfg, eggs, st, nixname), eggs[nixname];
      && r.queries == st.queries + [LookupSpec(egg, version)]
      && r.versionError == st.versionError + [egg.name] && r.notFound == st.notFound
      && r.release == st.release
      && (policy == SkipFailed ==> r.printed == st.printed && r.fault.None?)
      && (policy == AsWritten ==> (r.printed == st.printed <==> r.fault.Some?))
  {
  }

  /**
   * A release found for the query of the normalised version becomes
   * `egg_release`; with an `sdist` its block is printed, without one the
   * body raises `KeyError`. Both failure lists stay as they were.
   */
  lemma StepFound(policy: FailurePolicy, cfg: Config, eggs: map<string, Egg>, st: Run, nixname: string,
                  version: string, rel: Release)
    requires nixname in eggs && !Skipped(cfg, nixname) && st.fault.None?
    requires cfg.normalise(eggs[nixname].version) == Some(version)
    requires cfg.getRelease(LookupSpec(eggs[nixname], version)) == Found(rel)
    ensures var r, egg := Step(policy, cfg, eggs, st, nixname), eggs[nixname];
      var queried := st.(queries := st.queries + [LookupSpec(egg, version)], release := Some(rel));
      && ("sdist" in rel.dists ==>
            r == queried.(printed := st.printed + [Block(MakeEntry(nixname, egg, rel.dists["sdist"], rel.metadata, cfg))]))
      && ("sdist" !in rel.dists ==> r == queried.(fault := Some(NoSdist(nixname))))
  {
  }

  /** The loop over `keys`, stopping at the first exception. */
  function RunKeys(policy: FailurePolicy, cfg: Config, eggs: map<string, Egg>, keys: seq<string>, st: Run): (r: Run)
    requires forall k :: k in keys ==> k in eggs
    ensures |r.queries| <= |st.queries| + |keys| && |r.printed| <= |st.printed| + |keys|
    ensures st.fault.None? ==> r.fault != Some(NotImplemented)
  {
    if keys == [] || st.fault.Some? then st
    else RunKeys(policy, cfg, eggs, keys[1..], Step(policy, cfg, eggs, st, keys[0]))
  }

  lemma RunKeysUnfold(policy: FailurePolicy, cfg: Config, eggs: map<string, Egg>, keys: seq<string>, st: Run)
    requires forall k :: k in keys ==> k in eggs
    requires keys != [] && st.fault.None?
    ensures RunKeys(policy, cfg, eggs, keys, st)
         == RunKeys(policy, cfg, eggs, keys[1..], Step(policy, cfg, eggs, st, keys[0]))
  {
  }

  const Start := Run([PreTmpl], [], [], [], None, None)

  /** The footer is printed only when the loop ends without an exception. */
  function Finish(st: Run): (r: Run)
    ensures r.(printed := st.printed) == st
    ensures r.printed == st.printed + [PostTmpl] <==> st.fault.None?
    ensures st.fault.Some? ==> r == st
  {
    if st.fault.None? then st.(printed := st.printed + [PostTmpl]) else st
  }

  /** The whole command, for a given failure policy. */
  ghost function Buildout2NixSpec(policy: FailurePolicy, cfg: Config, buildoutPath: Option<string>,
                                  eggs: map<string, Egg>): (r: Run)
    ensures r.fault == Some(NotImplemented) <==> buildoutPath.Some?
    ensures buildoutPath.Some? ==> r.printed == [] && r.queries == []
    ensures buildoutPath.None? ==> |r.queries| <= |eggs| && |r.printed| <= |eggs| + 2
  {
    if buildoutPath.Some? then Run([], [], [], [], None, Some(NotImplemented))
    else
      var keys := Sorted(eggs.Keys);
      assert forall k :: k in keys ==> k in Elements(keys);
      Finish(RunKeys(policy, cfg, eggs, keys, Start))
  }

  /** One more turn of the loop at position `i` of `keys`. */
  lemma RunKeysAt(policy: FailurePolicy, cfg: Config, eggs: map<string, Egg>, keys: seq<string>, i: nat, st: Run)
    requires forall k :: k in keys ==> k in eggs
    requires i < |keys| && st.fault.None?
    ensures RunKeys(policy, cfg, eggs, keys[i..], st)
         == RunKeys(policy, cfg, eggs, keys[i + 1..], Step(policy, cfg, eggs, st, keys[i]))
  {
    RunKeysUnfold(policy, cfg, eggs, keys[i..], st);
    assert keys[i..][0] == keys[i] && keys[i..][1..] == keys[i + 1..];
  }

  /**
   * The loop body for one package that is neither a system nor an ignored
   * package (scripts.py:66-100); under `SkipFailed` a failed lookup ends the
   * body right after the failure is recorded.
   */
  method ProcessPackage(policy: FailurePolicy, cfg: Config, eggs: map<string, Egg>, nixname: string,
                        printed0: seq<Printed>, notFound0: seq<string>, versionError0: seq<string>,
                        queries0: seq<string>, eggRelease0: Option<Release>)
    returns (printed: seq<Printed>, notFound: seq<string>, versionError: seq<string>,
             queries: seq<string>, eggRelease: Option<Release>, fault: Option<Fault>)
    requires nixname in eggs && !Skipped(cfg, nixname)
    ensures Run(printed, notFound, versionError, queries, eggRelease, fault)
         == Step(policy, cfg, eggs, Run(printed0, notFound0, versionError0, queries0, eggRelease0, None), nixname)
  {
    printed, notFound, versionError, queries, eggRelease, fault :=
      printed0, notFound0, versionError0, queries0, eggRelease0, None;
    var egg := eggs[nixname];
    var version := cfg.normalise(egg.version);
    if version.None? {
      fault := Some(NoneVersion(nixname));
      return;
    }
    var spec := LookupSpec(egg, version.value);
    queries := queries + [spec];
    match cfg.getRelease(spec) {
      case Found(rel) => eggRelease := Some(rel);
      case ProjectNotFound =>
        notFound := notFound + [egg.name];
        if policy == SkipFailed { return; }
      case IrrationalVersion =>
        versionError := versionError + [egg.name];
        if policy == SkipFailed { return; }
    }
    if eggRelease.None? {
      fault := Some(UnboundRelease(nixname));
    } else if "sdist" !in eggRelease.value.dists {
      fault := Some(NoSdist(nixname));
    } else {
      var eggDist := eggRelease.value.dists["sdist"];
      var entry := MakeEntry(nixname, egg, eggDist, eggRelease.value.metadata, cfg);
      printed := printed + [Block(entry)];
    }
  }

  /** The `for` loop of scripts.py:63-100 over the sorted attribute names, stopping at the first exception. */
  method RunLoop(policy: FailurePolicy, cfg: Config, eggs: map<string, Egg>, keys: seq<string>)
    returns (printed: seq<Printed>, notFound: seq<string>, versionError: seq<string>,
             queries: seq<string>, eggRelease: Option<Release>, fault: Option<Fault>)
    requires forall k :: k in keys ==> k in eggs
    ensures Run(printed, notFound, versionError, queries, eggRelease, fault) == RunKeys(policy, cfg, eggs, keys, Start)
  {
    printed := [PreTmpl];
    notFound, versionError, queries := [], [], [];
    eggRelease := None;
    fault := None;
    var i := 0;
    while i < |keys| && fault.None?
      invariant 0 <= i <= |keys|
      invariant RunKeys(policy, cfg, eggs, keys, Start)
             == RunKeys(policy, cfg, eggs, keys[i..], Run(printed, notFound, versionError, queries, eggRelease, fault))
    {
      RunKeysAt(policy, cfg, eggs, keys, i, Run(printed, notFound, versionError, queries, eggRelease, fault));
      var nixname := keys[i];
      i := i + 1;
      if nixname in cfg.systemPackages { continue; }
      if nixname in cfg.ignorePackages { continue; }
      printed, notFound, versionError, queries, eggRelease, fault :=
        ProcessPackage(policy, cfg, eggs, nixname, printed, notFound, versionError, queries, eggRelease);
    }
  }

  /**
   * `buildout2nix` after argument parsing and `to_dict` (scripts.py:51-101);
   * `AsWritten` is the command as the source has it.
   */
  method Buildout2Nix(policy: FailurePolicy, cfg: Config, buildoutPath: Option<string>, eggs: map<string, Egg>)
    returns (out: Run)
    ensures out == Buildout2NixSpec(policy, cfg, buildoutPath, eggs)
  {
    if buildoutPath.Some? {
      return Run([], [], [], [], None, Some(NotImplemented));
    }
    var keys := SortedKeys(eggs.Keys);
    assert forall k :: k in keys ==> k in Elements(keys);
    var printed, notFound, versionError, queries, eggRelease, fault := RunLoop(policy, cfg, eggs, keys);
    if fault.None? {
      printed := printed + [PostTmpl];
    }
    out := Run(printed, notFound, versionError, queries, eggRelease, fault);
  }

  // ---------------------------------------------------------------------
  // Properties of a run

  /** The attribute names of the printed blocks, in printing order. */
  function BlockNames(p: seq<Printed>): seq<string>
  {
    if p == [] then []
    else BlockNames(p[..|p| - 1]) + (if p[|p| - 1].Block? then [p[|p| - 1].entry.nixname] else [])
  }

  lemma BlockNamesAppend(p: seq<Printed>, x: Printed)
    ensures BlockNames(p + [x]) == BlockNames(p) + (if x.Block? then [x.entry.nixname] else [])
  {
    assert (p + [x])[..|p|] == p;
  }

  /**
   * A run only appends: what was printed, both failure lists and the queries
   * keep their earlier contents, everything printed by the loop is a block,
   * and once an exception is raised nothing changes any more.
   */
  lemma {:induction false} RunKeysGrows(policy: FailurePolicy, cfg: Config, eggs: map<string, Egg>,
                                        keys: seq<string>, st: Run)
    requires forall k :: k in keys ==> k in eggs
    ensures var r := RunKeys(policy, cfg, eggs, keys, st);
      st.printed <= r.printed && st.notFound <= r.notFound && st.versionError <= r.versionError
      && st.queries <= r.queries
      && (forall i :: |st.printed| <= i < |r.printed| ==> r.printed[i].Block?)
      && (st.fault.Some? ==> r == st)
    decreases |keys|
  {
    if keys != [] && st.fault.None? {
      var next := Step(policy, cfg, eggs, st, keys[0]);
      RunKeysGrows(policy, cfg, eggs, keys[1..], next);
      var r := RunKeys(policy, cfg, eggs, keys, st);
      assert r == RunKeys(policy, cfg, eggs, keys[1..], next);
      forall i | |st.printed| <= i < |r.printed| ensures r.printed[i].Block? {
        if i < |next.printed| {
          assert r.printed[i] == next.printed[i];
        }
      }
    }
  }

  /** One step prints at most one block, named after the package, and none for a skipped package. */
  lemma StepBlockNames(policy: FailurePolicy, cfg: Config, eggs: map<string, Egg>, st: Run, nixname: string)
    requires nixname in eggs && st.fault.None?
    ensures var next := Step(policy, cfg, eggs, st, nixname);
      BlockNames(next.printed) == BlockNames(st.printed)
      || (BlockNames(next.printed) == BlockNames(st.printed) + [nixname] && !Skipped(cfg, nixname))
  {
    var next := Step(policy, cfg, eggs, st, nixname);
    if |next.printed| != |st.printed| {
      assert next.printed == st.printed + [next.printed[|st.printed|]];
      BlockNamesAppend(st.printed, next.printed[|st.printed|]);
    } else {
      assert next.printed == st.printed;
    }
  }

  /** Every name printed is a name printed before or one of the active keys walked. */
  lemma {:induction false} RunKeysNames(policy: FailurePolicy, cfg: Config, eggs: map<string, Egg>,
                                        keys: seq<string>, st: Run)
    requires forall k :: k in keys ==> k in eggs
    ensures var r := RunKeys(policy, cfg, eggs, keys, st);
      forall n :: n in BlockNames(r.printed) ==> n in BlockNames(st.printed) || (n in keys && !Skipped(cfg, n))
    decreases |keys|
  {
    if keys != [] && st.fault.None? {
      var next := Step(policy, cfg, eggs, st, keys[0]);
      StepBlockNames(policy, cfg, eggs, st, keys[0]);
      RunKeysNames(policy, cfg, eggs, keys[1..], next);
      assert forall n :: n in keys[1..] ==> n in keys;
    }
  }

  /**
   * Blocks come out in strictly ascending order of their attribute name when
   * the keys are walked in ascending order.
   */
  lemma {:induction false} RunKeysAscending(policy: FailurePolicy, cfg: Config, eggs: map<string, Egg>,
                                            keys: seq<string>, st: Run)
    requires forall k :: k in keys ==> k in eggs
    requires Ascending(keys) && Ascending(BlockNames(st.printed))
    requires forall i, j :: 0 <= i < |BlockNames(st.printed)| && 0 <= j < |keys| ==>
               Below(BlockNames(st.printed)[i], keys[j])
    ensures Ascending(BlockNames(RunKeys(policy, cfg, eggs, keys, st).printed))
    decreases |keys|
  {
    if keys != [] && st.fault.None? {
      var next := Step(policy, cfg, eggs, st, keys[0]);
      StepBlockNames(policy, cfg, eggs, st, keys[0]);
      var names, later := BlockNames(st.printed), BlockNames(next.printed);
      assert Ascending(later) by {
        if later != names {
          forall i | 0 <= i < |names| ensures Below(names[i], keys[0]) { }
        }
      }
      forall i, j | 0 <= i < |later| && 0 <= j < |keys[1..]| ensures Below(later[i], keys[1..][j]) {
        assert keys[1..][j] == keys[j + 1];
        if i == |names| {
          assert later[i] == keys[0];
        } else {
          assert later[i] == names[i];
        }
      }
      RunKeysAscending(policy, cfg, eggs, keys[1..], next);
    }
  }

  /** The printed blocks of a whole run are in ascending order of attribute name, whatever the policy. */
  lemma BlocksAscending(policy: FailurePolicy, cfg: Config, buildoutPath: Option<string>, eggs: map<string, Egg>)
    ensures var r := Buildout2NixSpec(policy, cfg, buildoutPath, eggs);
      Ascending(BlockNames(r.printed))
      && forall n :: n in BlockNames(r.printed) ==> n in eggs && !Skipped(cfg, n)
  {
    if buildoutPath.None? {
      var keys := Sorted(eggs.Keys);
      assert forall k :: k in keys ==> k in Elements(keys);
      StartHasNoBlocks();
      RunKeysAscending(policy, cfg, eggs, keys, Start);
      RunKeysNames(policy, cfg, eggs, keys, Start);
      FinishBlockNames(RunKeys(policy, cfg, eggs, keys, Start));
    }
  }

  lemma StartHasNoBlocks()
    ensures BlockNames(Start.printed) == []
  {
    assert Start.printed == [] + [PreTmpl];
    BlockNamesAppend([], PreTmpl);
  }

  /** The footer adds no block. */
  lemma FinishBlockNames(st: Run)
    ensures BlockNames(Finish(st).printed) == BlockNames(st.printed)
  {
    if st.fault.None? {
      BlockNamesAppend(st.printed, PostTmpl);
    }
  }

  /** The key sequence without `k`. */
  function Without(keys: seq<string>, k: string): (r: seq<string>)
    ensures Elements(r) == Elements(keys) - {k}
  {
    if keys == [] then []
    else
      var rest := Without(keys[1..], k);
      var head := if keys[0] == k then [] else [keys[0]];
      assert Elements(keys) == {keys[0]} + Elements(keys[1..]);
      assert Elements(head + rest) == Elements(head) + Elements(rest);
      head + rest
  }

  lemma {:induction false} WithoutAscending(keys: seq<string>, k: string)
    requires Ascending(keys)
    ensures Ascending(Without(keys, k))
  {
    if keys != [] {
      var rest := Without(keys[1..], k);
      WithoutAscending(keys[1..], k);
      if keys[0] != k {
        forall j | 0 <= j < |rest| ensures Below(keys[0], rest[j]) {
          assert rest[j] in Elements(rest);
          var m :| 0 <= m < |keys[1..]| && keys[1..][m] == rest[j];
          assert keys[m + 1] == rest[j];
        }
        var r := [keys[0]] + rest;
        forall i, j | 0 <= i < j < |r| ensures Below(r[i], r[j]) {
          if i > 0 { assert r[i] == rest[i - 1] && r[j] == rest[j - 1]; }
        }
      }
    }
  }

  /** A skipped key can be dropped from the walk, and the egg table only matters at the keys walked. */
  lemma {:induction false} RunKeysWithout(policy: FailurePolicy, cfg: Config, eggs: map<string, Egg>,
                                          eggs2: map<string, Egg>, keys: seq<string>, st: Run, k: string)
    requires Skipped(cfg, k)
    requires forall x :: x in keys ==> x in eggs
    requires forall x :: x in keys && x != k ==> x in eggs2 && eggs2[x] == eggs[x]
    ensures forall x :: x in Without(keys, k) ==> x in eggs2
    ensures RunKeys(policy, cfg, eggs, keys, st) == RunKeys(policy, cfg, eggs2, Without(keys, k), st)
    decreases |keys|
  {
    assert forall x :: x in Without(keys, k) ==> x in Elements(Without(keys, k));
    assert forall x :: x in keys ==> x in Elements(keys);
    if keys != [] {
      var rest := Without(keys[1..], k);
      RunKeysWithout(policy, cfg, eggs, eggs2, keys[1..], st, k);
      if st.fault.None? {
        var next := Step(policy, cfg, eggs, st, keys[0]);
        RunKeysWithout(policy, cfg, eggs, eggs2, keys[1..], next, k);
        if keys[0] != k {
          var w := [keys[0]] + rest;
          assert w == Without(keys, k);
          assert w[0] == keys[0] && w[1..] == rest;
          assert Step(policy, cfg, eggs2, st, keys[0]) == next;
          RunKeysUnfold(policy, cfg, eggs2, w, st);
        } else {
          assert Without(keys, k) == rest;
        }
      }
    }
  }

  /**
   * A package listed as a system or an ignored package leaves no trace: the
   * run over the egg table without it is the same run (no query, no failure
   * entry, no block).
   */
  lemma SkippedPackageIgnored(policy: FailurePolicy, cfg: Config, buildoutPath: Option<string>,
                              eggs: map<string, Egg>, k: string)
    requires k in eggs && Skipped(cfg, k)
    ensures Buildout2NixSpec(policy, cfg, buildoutPath, eggs)
         == Buildout2NixSpec(policy, cfg, buildoutPath, eggs - {k})
  {
    if buildoutPath.None? {
      var keys := Sorted(eggs.Keys);
      var eggs2 := eggs - {k};
      assert eggs2.Keys == eggs.Keys - {k};
      assert forall x :: x in keys ==> x in Elements(keys);
      WithoutAscending(keys, k);
      AscendingUnique(Without(keys, k), Sorted(eggs2.Keys));
      RunKeysWithout(policy, cfg, eggs, eggs2, keys, Start, k);
    }
  }

  /**
   * The header is printed first and once; the footer is printed once, last,
   * and exactly when no exception ended the loop; `--buildout-path` raises
   * before anything is printed or looked up.
   */
  lemma Framing(policy: FailurePolicy, cfg: Config, buildoutPath: Option<string>, eggs: map<string, Egg>)
    ensures var r := Buildout2NixSpec(policy, cfg, buildoutPath, eggs);
      && (buildoutPath.Some? ==> r.printed == [] && r.queries == [] && r.fault == Some(NotImplemented))
      && (buildoutPath.None? ==>
            && |r.printed| >= 1 && r.printed[0] == PreTmpl
            && (forall i :: 0 < i < |r.printed| ==> r.printed[i] != PreTmpl)
            && (forall i :: 0 <= i < |r.printed| - 1 ==> r.printed[i] != PostTmpl)
            && (r.printed[|r.printed| - 1] == PostTmpl <==> r.fault.None?))
  {
    if buildoutPath.None? {
      var keys := Sorted(eggs.Keys);
      assert forall k :: k in keys ==> k in Elements(keys);
      RunKeysGrows(policy, cfg, eggs, keys, Start);
      var r := RunKeys(policy, cfg, eggs, keys, Start);
      assert r.printed[0] == PreTmpl by { assert Start.printed <= r.printed; }
    }
  }

  /** The number of keys that are neither system nor ignored packages. */
  function ActiveCount(cfg: Config, keys: seq<string>): nat
  {
    if keys == [] then 0 else (if Skipped(cfg, keys[0]) then 0 else 1) + ActiveCount(cfg, keys[1..])
  }

  /**
   * With the corrected policy, a run that raises nothing accounts for every
   * package that is neither a system nor an ignored package exactly once: as
   * a block, a not-found entry or a version-error entry.
   */
  lemma {:induction false} SkipFailedAccountsForEveryPackage(cfg: Config, eggs: map<string, Egg>,
                                                             keys: seq<string>, st: Run)
    requires forall k :: k in keys ==> k in eggs
    requires st.fault.None?
    ensures var r := RunKeys(SkipFailed, cfg, eggs, keys, st);
      r.fault.None? ==>
        (|r.printed| - |st.printed|) + (|r.notFound| - |st.notFound|) + (|r.versionError| - |st.versionError|)
        == ActiveCount(cfg, keys)
    decreases |keys|
  {
    if keys != [] {
      var next := Step(SkipFailed, cfg, eggs, st, keys[0]);
      var r := RunKeys(SkipFailed, cfg, eggs, keys[1..], next);
      RunKeysGrows(SkipFailed, cfg, eggs, keys[1..], next);
      if r.fault.None? {
        assert next.fault.None?;
        SkipFailedAccountsForEveryPackage(cfg, eggs, keys[1..], next);
        StepSkipFailedAccounts(cfg, eggs, st, keys[0]);
      }
    }
  }

  /** One step of the corrected policy that raises nothing adds exactly one record for an active package. */
  lemma StepSkipFailedAccounts(cfg: Config, eggs: map<string, Egg>, st: Run, nixname: string)
    requires nixname in eggs && st.fault.None?
    ensures var r := Step(SkipFailed, cfg, eggs, st, nixname);
      r.fault.None? ==>
        (|r.printed| - |st.printed|) + (|r.notFound| - |st.notFound|) + (|r.versionError| - |st.versionError|)
        == (if Skipped(cfg, nixname) then 0 else 1)
  {
  }

  /**
   * As written, a failed lookup after an earlier successful one records the
   * failure and still prints a block, built from the previous package's
   * release under this package's name.
   */
  lemma StaleReleaseReused(cfg: Config, eggs: map<string, Egg>, st: Run, nixname: string, version: string)
    requires nixname in eggs && !Skipped(cfg, nixname) && st.fault.None?
    requires st.release.Some? && "sdist" in st.release.value.dists
    requires cfg.normalise(eggs[nixname].version) == Some(version)
    requires cfg.getRelease(LookupSpec(eggs[nixname], version)) == ProjectNotFound
    ensures var egg, prev := eggs[nixname], st.release.value;
      Step(AsWritten, cfg, eggs, st, nixname)
      == st.(queries := st.queries + [LookupSpec(egg, version)],
             notFound := st.notFound + [egg.name],
             printed := st.printed + [Block(MakeEntry(nixname, egg, prev.dists["sdist"], prev.metadata, cfg))])
  {
  }

  /** As written, a failed lookup before any successful one ends the run: `egg_release` is unbound. */
  lemma UnboundReleaseAborts(cfg: Config, eggs: map<string, Egg>, st: Run, nixname: string, version: string)
    requires nixname in eggs && !Skipped(cfg, nixname) && st.fault.None? && st.release.None?
    requires cfg.normalise(eggs[nixname].version) == Some(version)
    requires !cfg.getRelease(LookupSpec(eggs[nixname], version)).Found?
    ensures var r := Step(AsWritten, cfg, eggs, st, nixname);
      r.fault == Some(UnboundRelease(nixname)) && r.printed == st.printed
      && |r.notFound| + |r.versionError| == |st.notFound| + |st.versionError| + 1
  {
  }

  // ---------------------------------------------------------------------
  // A two-package run: `foo 1.0` resolves to a source archive on the mirror
  // host, the lookup of `bar 2.0beta` raises IrrationalVersionError.

  const ScenarioDist := Dist("http://a.pypi/packages/foo-1.0.tar.gz", "sha256", "abc")

  function ScenarioConfig(): Config
  {
    Config({}, {}, map[], "", v => Some(v),
           spec => if spec == "foo==1.0" then Found(Release(map["sdist" := ScenarioDist], "")) else IrrationalVersion)
  }

  const ScenarioEggs := map["foo" := Egg("foo", "1.0", []), "bar" := Egg("bar", "2.0beta", [])]

  lemma ScenarioKeys()
    ensures Sorted(ScenarioEggs.Keys) == ["bar", "foo"]
  {
    var keys := ["bar", "foo"];
    assert Below("bar", "foo");
    assert Elements(keys) == ScenarioEggs.Keys;
    AscendingUnique(keys, Sorted(ScenarioEggs.Keys));
  }

  /** As written, `bar` sorts first, its failure leaves `egg_release` unbound and the run ends before `foo`. */
  lemma ScenarioAsWrittenAborts()
    ensures Buildout2NixSpec(AsWritten, ScenarioConfig(), None, ScenarioEggs)
         == Run([PreTmpl], [], ["bar"], ["bar==2.0beta"], None, Some(UnboundRelease("bar")))
  {
    ScenarioKeys();
    var cfg, keys := ScenarioConfig(), ["bar", "foo"];
    BarLookup();
    RunKeysUnfold(AsWritten, cfg, ScenarioEggs, keys, Start);
    var afterBar := Step(AsWritten, cfg, ScenarioEggs, Start, "bar");
    assert afterBar == Start.(queries := ["bar==2.0beta"], versionError := ["bar"], fault := Some(UnboundRelease("bar")));
  }

  lemma BarLookup()
    ensures ScenarioEggs["bar"] == Egg("bar", "2.0beta", [])
    ensures LookupSpec(ScenarioEggs["bar"], "2.0beta") == "bar==2.0beta"
    ensures ScenarioConfig().normalise("2.0beta") == Some("2.0beta")
    ensures ScenarioConfig().getRelease("bar==2.0beta") == IrrationalVersion
  {
    assert "bar==2.0beta"[0] != "foo==1.0"[0];
  }

  lemma FooLookup()
    ensures ScenarioEggs["foo"] == Egg("foo", "1.0", [])
    ensures LookupSpec(ScenarioEggs["foo"], "1.0") == "foo==1.0"
    ensures ScenarioConfig().normalise("1.0") == Some("1.0")
    ensures ScenarioConfig().getRelease("foo==1.0") == Found(Release(map["sdist" := ScenarioDist], ""))
  {
  }

  lemma ScenarioName(egg: Egg)
    requires egg == Egg("foo", "1.0", [])
    ensures DisplayName(egg) == "foo-1.0"
  {
  }

  lemma ScenarioDistUrl(dist: Dist, name: string)
    requires dist == ScenarioDist && name == "foo-1.0"
    ensures dist.url == MirrorHost + "/packages/" + name + ".tar.gz"
  {
  }

  lemma ScenarioRewrite(name: string)
    requires name == "foo-1.0"
    ensures RewriteUrl(MirrorHost + "/packages/" + name + ".tar.gz", name) == "http://pypi/packages/${name}.tar.gz"
  {
    FirstCharMissing("/packages/" + name + ".tar.gz", MirrorHost);
    FirstCharMissingBefore(CanonicalHost + "/packages/", name, ".tar.gz");
    FirstCharMissing(".tar.gz", name);
    RewriteUrlOfMirroredArchive("/packages/", name, ".tar.gz");
    ScenarioPublicUrl();
  }

  lemma ScenarioPublicUrl()
    ensures CanonicalHost + "/packages/" + NamePlaceholder + ".tar.gz" == "http://pypi/packages/${name}.tar.gz"
  {
  }

  lemma ScenarioUrl(egg: Egg, dist: Dist, cfg: Config)
    requires egg == Egg("foo", "1.0", []) && dist == ScenarioDist
    ensures MakeEntry("foo", egg, dist, "", cfg).url == "http://pypi/packages/${name}.tar.gz"
  {
    var name := DisplayName(egg);
    ScenarioName(egg);
    ScenarioDistUrl(dist, name);
    ScenarioRewrite(name);
  }

  /** The block printed for `foo`: the mirror host is rewritten and `foo-1.0` parametrised. */
  lemma ScenarioFooEntry(egg: Egg, dist: Dist, cfg: Config)
    requires egg == Egg("foo", "1.0", []) && dist == ScenarioDist
    ensures var e := MakeEntry("foo", egg, dist, "", cfg);
      e.nixname == "foo" && e.name == "foo-1.0" && e.url == "http://pypi/packages/${name}.tar.gz"
      && e.hashname == "sha256" && e.hashval == "abc" && e.buildInputs == ""
  {
    ScenarioName(egg);
    ScenarioUrl(egg, dist, cfg);
    ScenarioNotZip();
  }

  lemma ScenarioNotZip()
    ensures !EndsWith("http://pypi/packages/${name}.tar.gz", ".zip")
  {
    var u := "http://pypi/packages/${name}.tar.gz";
    assert |u| == 35 && u[34] == 'z';
    assert u[|u| - 4..][3] == u[34];
  }

  /** With failed packages skipped, `bar` is only a version error and `foo` gets its one block. */
  lemma ScenarioSkipFailedPrintsFoo(egg: Egg, dist: Dist, cfg: Config)
    requires egg == Egg("foo", "1.0", []) && dist == ScenarioDist && cfg == ScenarioConfig()
    ensures var r := Buildout2NixSpec(SkipFailed, cfg, None, ScenarioEggs);
      && r.fault.None? && r.notFound == [] && r.versionError == ["bar"]
      && r.printed == [PreTmpl, Block(MakeEntry("foo", egg, dist, "", cfg)), PostTmpl]
  {
    var block := Block(MakeEntry("foo", egg, dist, "", cfg));
    var run := Run([PreTmpl, block], [], ["bar"], ["bar==2.0beta", "foo==1.0"],
                   Some(Release(map["sdist" := dist], "")), None);
    calc {
      Buildout2NixSpec(SkipFailed, cfg, None, ScenarioEggs);
      { ScenarioRun(SkipFailed, cfg); }
      Finish(RunKeys(SkipFailed, cfg, ScenarioEggs, ["bar", "foo"], Start));
      { ScenarioSkipFailedLoop(Start, egg, dist, cfg); }
      Finish(run);
      { assert [PreTmpl, block] + [PostTmpl] == [PreTmpl, block, PostTmpl]; }
      run.(printed := [PreTmpl, block, PostTmpl]);
    }
  }

  /** The loop of the corrected run over the scenario, step by step. */
  lemma ScenarioSkipFailedLoop(st: Run, egg: Egg, dist: Dist, cfg: Config)
    requires st == Start && egg == Egg("foo", "1.0", []) && dist == ScenarioDist && cfg == ScenarioConfig()
    ensures RunKeys(SkipFailed, cfg, ScenarioEggs, ["bar", "foo"], st)
         == Run([PreTmpl, Block(MakeEntry("foo", egg, dist, "", cfg))], [], ["bar"], ["bar==2.0beta", "foo==1.0"],
                Some(Release(map["sdist" := dist], "")), None)
  {
    var afterBar := st.(queries := ["bar==2.0beta"], versionError := ["bar"]);
    calc {
      RunKeys(SkipFailed, cfg, ScenarioEggs, ["bar", "foo"], st);
      { ScenarioSkipBar(afterBar, cfg); }
      RunKeys(SkipFailed, cfg, ScenarioEggs, ["foo"], afterBar);
      { ScenarioLastKey(SkipFailed, afterBar, cfg); }
      Step(SkipFailed, cfg, ScenarioEggs, afterBar, "foo");
      { ScenarioFooPrinted(afterBar, egg, dist, cfg); }
      afterBar.(queries := afterBar.queries + ["foo==1.0"], release := Some(Release(map["sdist" := dist], "")),
                printed := afterBar.printed + [Block(MakeEntry("foo", egg, dist, "", cfg))]);
    }
  }

  /** The scenario's run is the loop over `bar` then `foo`, then the footer. */
  lemma ScenarioRun(policy: FailurePolicy, cfg: Config)
    ensures forall k :: k in ["bar", "foo"] ==> k in ScenarioEggs
    ensures Buildout2NixSpec(policy, cfg, None, ScenarioEggs)
         == Finish(RunKeys(policy, cfg, ScenarioEggs, ["bar", "foo"], Start))
  {
    ScenarioKeys();
  }

  lemma ScenarioSkipBar(afterBar: Run, cfg: Config)
    requires afterBar == Start.(queries := ["bar==2.0beta"], versionError := ["bar"]) && cfg == ScenarioConfig()
    ensures RunKeys(SkipFailed, cfg, ScenarioEggs, ["bar", "foo"], Start)
         == RunKeys(SkipFailed, cfg, ScenarioEggs, ["foo"], afterBar)
  {
    var keys := ["bar", "foo"];
    RunKeysUnfold(SkipFailed, cfg, ScenarioEggs, keys, Start);
    ScenarioBarSkipped(afterBar);
    assert keys[1..] == ["foo"];
  }

  lemma ScenarioLastKey(policy: FailurePolicy, st: Run, cfg: Config)
    requires st.fault.None?
    ensures RunKeys(policy, cfg, ScenarioEggs, ["foo"], st) == Step(policy, cfg, ScenarioEggs, st, "foo")
  {
    RunKeysUnfold(policy, cfg, ScenarioEggs, ["foo"], st);
    assert ["foo"][1..] == [];
  }

  lemma ScenarioBarSkipped(afterBar: Run)
    requires afterBar == Start.(queries := ["bar==2.0beta"], versionError := ["bar"])
    ensures Step(SkipFailed, ScenarioConfig(), ScenarioEggs, Start, "bar") == afterBar
  {
    BarLookup();
  }

  lemma ScenarioFooPrinted(st: Run, egg: Egg, dist: Dist, cfg: Config)
    requires st.fault.None?
    requires egg == Egg("foo", "1.0", []) && dist == ScenarioDist && cfg == ScenarioConfig()
    ensures Step(SkipFailed, cfg, ScenarioEggs, st, "foo")
         == st.(queries := st.queries + ["foo==1.0"], release := Some(Release(map["sdist" := dist], "")),
                printed := st.printed + [Block(MakeEntry("foo", egg, dist, "", cfg))])
  {
    FooLookup();
  }
}
