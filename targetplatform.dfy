/**
 * Detection of the Python version a Nix environment provides, and the
 * mapping from version specifiers to nixpkgs derivation names.
 *
 * The `PYTHON_VERSIONS` table is a parameter; the `nix-shell` call is a
 * function from the command and the text of the environment file it is
 * given to what the call printed (or that it raised); the host's
 * `platform.python_version()` is a parameter of `CurrentPlatform`. Temporary
 * files live in a `FileSystem` object whose `files` map holds the paths that
 * exist and their contents.
 */
module TargetPlatform {
  import opened Outcomes
  import opened PyStrings

  datatype TargetPlatform = TargetPlatform(version: string, nixpkgsDerivationName: string)

  /** The exceptions these operations let through. */
  datatype PlatformError =
    | KeyError(key: string)  // a specifier missing from PYTHON_VERSIONS
    | ShellFailed            // `Nix.shell` raised
    | IndexError             // the shell printed nothing: `splitlines()[0]`

  /** What `Nix.shell` did: print some text, or raise. */
  datatype ShellResult = Stdout(text: string) | Raised

  const PythonVersionCommand := "python -c \"from platform import python_version; print(python_version())\""

  /** `PYTHON_VERSIONS[version]`: the table value, or KeyError for a missing specifier (never a default). */
  function DerivationFromVersionSpecifier(versions: map<string, string>, version: string): (r: Result<string, PlatformError>)
    ensures r.Ok? <==> version in versions
    ensures r.Ok? ==> r.value == versions[version]
    ensures r.Err? ==> r.error == KeyError(version)
  {
    if version in versions then Ok(versions[version]) else Err(KeyError(version))
  }

  /** The lookup of `version[:3]`: only the first three characters of the version count. */
  function DerivationNameFromPythonVersion(versions: map<string, string>, version: string): (r: Result<string, PlatformError>)
    ensures 3 <= |version| ==> r == DerivationFromVersionSpecifier(versions, version[..3])
    ensures |version| < 3 ==> r == DerivationFromVersionSpecifier(versions, version)
  {
    DerivationFromVersionSpecifier(versions, Prefix(version, 3))
  }

  /** Versions that agree in their first three characters map to the same derivation. */
  lemma SameShortVersionSameDerivation(versions: map<string, string>, v: string, w: string)
    requires 3 <= |v| && 3 <= |w| && v[..3] == w[..3]
    ensures DerivationNameFromPythonVersion(versions, v) == DerivationNameFromPythonVersion(versions, w)
  {
  }

  /** "3.10.1" is looked up as "3.1". */
  lemma ShortVersionExample(versions: map<string, string>)
    ensures DerivationNameFromPythonVersion(versions, "3.10.1") == DerivationFromVersionSpecifier(versions, "3.1")
  {
    assert "3.10.1"[..3] == "3.1";
  }

  /** The host's version, unchanged, paired with the derivation of its first three characters. */
  function CurrentPlatform(versions: map<string, string>, hostVersion: string): (r: Result<TargetPlatform, PlatformError>)
    ensures r.Ok? <==> Prefix(hostVersion, 3) in versions
    ensures r.Ok? ==> (r.value.version == hostVersion
                       && r.value.nixpkgsDerivationName == versions[Prefix(hostVersion, 3)])
    ensures r.Err? ==> r.error == KeyError(Prefix(hostVersion, 3))
  {
    match DerivationNameFromPythonVersion(versions, hostVersion)
    case Ok(name) => Ok(TargetPlatform(hostVersion, name))
    case Err(e) => Err(e)
  }

  /** The two template pieces joined by a space, then formatted with the derivation name. */
  const EnvironmentTemplateParts := [
    "with import <nixpkgs> {{}};",
    "stdenv.mkDerivation {{ name = \"python3-env\"; buildInputs = [{}]; }}"
  ]

  /*
   * The template cut at its braces. The lemmas from here to `EnvironmentText`
   * prove one small fact each on purpose: the verifier cannot equate a long
   * string literal with a nested concatenation in one step, and a merged
   * lemma (for example one stating all four `NoBraces` facts) runs out of
   * resources. So each regrouping is stated once over string parameters
   * (`JoinShape`, `SecondPartShape`, `TextShape`), and each literal is
   * compared with its pieces in a lemma of its own.
   */
  const Piece1 := "with import <nixpkgs> "
  const Piece2 := "; stdenv.mkDerivation "
  const NameAttr := " name = \"python3-env\"; "
  const InputsAttr := "buildInputs = ["
  const Piece3 := NameAttr + InputsAttr
  const Piece4 := "]; "

  /** Gluing the two parts with a space, for parts of the template's shape. */
  lemma JoinShape(p1: string, p2: string, p3: string, p4: string, first: string, second: string)
    requires first == p1 + ("{{" + ("}}" + ";"))
    requires second == p2 + ("{{" + (p3 + ("{}" + (p4 + "}}"))))
    ensures first + " " + second
         == p1 + ("{{" + ("}}" + ((";" + " " + p2) + ("{{" + (p3 + ("{}" + (p4 + "}}")))))))
  {
  }

  lemma FirstPartPieces()
    ensures EnvironmentTemplateParts[0] == Piece1 + ("{{" + ("}}" + ";"))
  {
    assert EnvironmentTemplateParts[0] == Piece1 + "{{}};";
    assert "{{}};" == "{{" + ("}}" + ";");
  }

  /** Regrouping the second part: `(a + b + n) + (i + w)` is `a + (b + ((n + i) + w))`. */
  lemma SecondPartShape(x: string, a: string, b: string, n: string, i: string, w: string, s1: string, s2: string)
    requires x == s1 + s2 && s1 == (a + b) + n && s2 == i + w
    ensures x == a + (b + ((n + i) + w))
  {
  }

  lemma SecondPartHalves()
    ensures EnvironmentTemplateParts[1]
         == "stdenv.mkDerivation {{ name = \"python3-env\"; " + "buildInputs = [{}]; }}"
  {
  }

  lemma SecondPartHead()
    ensures "stdenv.mkDerivation {{ name = \"python3-env\"; " == ("stdenv.mkDerivation " + "{{") + NameAttr
  {
    assert "stdenv.mkDerivation {{ name = \"python3-env\"; " == "stdenv.mkDerivation {{" + NameAttr;
  }

  lemma SecondPartTail()
    ensures "buildInputs = [{}]; }}" == InputsAttr + ("{}" + (Piece4 + "}}"))
  {
  }

  lemma SecondPartPieces()
    ensures EnvironmentTemplateParts[1] == "stdenv.mkDerivation " + ("{{" + (Piece3 + ("{}" + (Piece4 + "}}"))))
  {
    SecondPartHalves();
    SecondPartHead();
    SecondPartTail();
    SecondPartShape(EnvironmentTemplateParts[1], "stdenv.mkDerivation ", "{{", NameAttr, InputsAttr,
                    "{}" + (Piece4 + "}}"),
                    "stdenv.mkDerivation {{ name = \"python3-env\"; ", "buildInputs = [{}]; }}");
  }

  /** The joined template, cut at its braces. */
  lemma JoinedTemplatePieces()
    ensures Join(" ", EnvironmentTemplateParts)
         == Piece1 + ("{{" + ("}}" + (Piece2 + ("{{" + (Piece3 + ("{}" + (Piece4 + "}}")))))))
  {
    var parts := EnvironmentTemplateParts;
    assert parts[1..][1..] == [];
    assert Join(" ", parts) == parts[0] + " " + parts[1];
    FirstPartPieces();
    SecondPartPieces();
    assert ";" + " " + "stdenv.mkDerivation " == Piece2;
    JoinShape(Piece1, "stdenv.mkDerivation ", Piece3, Piece4, parts[0], parts[1]);
  }

  /* Formatting a template of that shape, for any brace-free pieces, one field at a time from the end. */

  lemma FormatClosingTail(d: string)
    ensures FormatFrom("}}", d, Auto) == Some("}")
  {
    FormatEscapedClose([], d, Auto);
    assert "}}" + [] == "}}";
    assert FormatFrom([], d, Auto) == Some([]);
    assert "}" + [] == "}";
  }

  lemma FormatLastPiece(p4: string, d: string)
    requires NoBraces(p4)
    ensures FormatFrom(p4 + "}}", d, Auto) == Some(p4 + "}")
  {
    FormatPlain(p4, "}}", d, Auto);
    FormatClosingTail(d);
  }

  lemma FormatFieldPiece(p3: string, p4: string, d: string)
    requires NoBraces(p3) && NoBraces(p4)
    ensures FormatFrom(p3 + ("{}" + (p4 + "}}")), d, Unset) == Some(p3 + (d + (p4 + "}")))
  {
    FormatLastPiece(p4, d);
    FormatAutoField(p4 + "}}", d);
    FormatPlain(p3, "{}" + (p4 + "}}"), d, Unset);
  }

  lemma FormatOpenPiece(p2: string, t: string, d: string, r: string)
    requires NoBraces(p2)
    requires FormatFrom(t, d, Unset) == Some(r)
    ensures FormatFrom(p2 + ("{{" + t), d, Unset) == Some(p2 + ("{" + r))
  {
    FormatEscapedOpen(t, d, Unset);
    FormatPlain(p2, "{{" + t, d, Unset);
  }

  lemma FormatEmptyBracesPiece(p1: string, t: string, d: string, r: string)
    requires NoBraces(p1)
    requires FormatFrom(t, d, Unset) == Some(r)
    ensures FormatFrom(p1 + ("{{" + ("}}" + t)), d, Unset) == Some(p1 + ("{" + ("}" + r)))
  {
    FormatEscapedClose(t, d, Unset);
    FormatEscapedOpen("}}" + t, d, Unset);
    FormatPlain(p1, "{{" + ("}}" + t), d, Unset);
  }

  lemma Piece1HasNoBraces() ensures NoBraces(Piece1) { }
  lemma Piece2HasNoBraces() ensures NoBraces(Piece2) { }
  lemma Piece3HasNoBraces() ensures NoBraces(Piece3) { }
  lemma Piece4HasNoBraces() ensures NoBraces(Piece4) { }

  lemma EnvironmentFormatted(d: string)
    ensures Format(Join(" ", EnvironmentTemplateParts), d)
         == Some(Piece1 + ("{" + ("}" + (Piece2 + ("{" + (Piece3 + (d + (Piece4 + "}"))))))))
  {
    JoinedTemplatePieces();
    Piece1HasNoBraces();
    Piece2HasNoBraces();
    Piece3HasNoBraces();
    Piece4HasNoBraces();
    FormatFieldPiece(Piece3, Piece4, d);
    var t3 := Piece3 + ("{}" + (Piece4 + "}}"));
    var r3 := Piece3 + (d + (Piece4 + "}"));
    FormatOpenPiece(Piece2, t3, d, r3);
    FormatEmptyBracesPiece(Piece1, Piece2 + ("{{" + t3), d, Piece2 + ("{" + r3));
  }

  /** Regrouping the formatted pieces into the left-to-right reading of the text. */
  lemma TextShape(p1: string, p2: string, n: string, i: string, d: string, p4: string)
    ensures p1 + ("{" + ("}" + (p2 + ("{" + ((n + i) + (d + (p4 + "}")))))))
         == ((((p1 + ("{" + "}")) + p2) + ("{" + n)) + i) + d + (p4 + "}")
  {
  }

  lemma TextHeadFirst()
    ensures "with import <nixpkgs> {}; stdenv.mkDerivation " == (Piece1 + ("{" + "}")) + Piece2
  {
    assert "with import <nixpkgs> {}" == Piece1 + "{}";
  }

  lemma TextHeadName()
    ensures "with import <nixpkgs> {}; stdenv.mkDerivation { name = \"python3-env\"; "
         == "with import <nixpkgs> {}; stdenv.mkDerivation " + ("{" + NameAttr)
  {
    assert "{ name = \"python3-env\"; " == "{" + NameAttr;
  }

  lemma TextHead()
    ensures "with import <nixpkgs> {}; stdenv.mkDerivation { name = \"python3-env\"; buildInputs = ["
         == "with import <nixpkgs> {}; stdenv.mkDerivation { name = \"python3-env\"; " + InputsAttr
  {
  }

  lemma EnvironmentTextPieces(d: string)
    ensures Piece1 + ("{" + ("}" + (Piece2 + ("{" + (Piece3 + (d + (Piece4 + "}")))))))
         == "with import <nixpkgs> {}; stdenv.mkDerivation { name = \"python3-env\"; buildInputs = [" + d + "]; }"
  {
    TextShape(Piece1, Piece2, NameAttr, InputsAttr, d, Piece4);
    TextHeadFirst();
    TextHeadName();
    TextHead();
    assert Piece4 + "}" == "]; }";
  }

  /**
   * The environment file text: the doubled braces of the template become
   * single braces and the derivation name stands alone in `buildInputs`.
   */
  function EnvironmentText(derivation: string): (text: string)
    ensures text == "with import <nixpkgs> {}; stdenv.mkDerivation { name = \"python3-env\"; buildInputs = ["
                    + derivation + "]; }"
  {
    EnvironmentFormatted(derivation);
    EnvironmentTextPieces(derivation);
    Format(Join(" ", EnvironmentTemplateParts), derivation).value
  }

  /** The files that exist, by path, with their contents. */
  class FileSystem {
    var files: map<string, string>

    constructor (initial: map<string, string>)
      ensures files == initial
    {
      files := initial;
    }

    /** `tempfile.mkstemp()`: a new, empty file at a path no file has yet. */
    method MakeTemp(path: string)
      requires path !in files
      modifies this
      ensures files == old(files)[path := ""]
    {
      files := files[path := ""];
    }

    /** Opening an existing file for writing and writing `text` replaces its contents. */
    method Write(path: string, text: string)
      requires path in files
      modifies this
      ensures files == old(files)[path := text]
    {
      files := files[path := text];
    }

    /** `os.remove(path)`. */
    method Remove(path: string)
      requires path in files
      modifies this
      ensures files == old(files) - {path}
    {
      files := files - {path};
    }
  }

  /**
   * Entering `python_environment_nix(version)`: the temporary file is created
   * before the table lookup, so a missing specifier leaves it behind, empty;
   * otherwise it holds the environment text and its path is yielded.
   */
  method EnterPythonEnvironment(fs: FileSystem, versions: map<string, string>, version: string, tmpPath: string)
    returns (r: Result<string, PlatformError>)
    requires tmpPath !in fs.files
    modifies fs
    ensures r.Ok? <==> version in versions
    ensures r.Ok? ==> r.value == tmpPath && fs.files == old(fs.files)[tmpPath := EnvironmentText(versions[version])]
    ensures r.Err? ==> r.error == KeyError(version) && fs.files == old(fs.files)[tmpPath := ""]
  {
    fs.MakeTemp(tmpPath);
    var derivation := DerivationFromVersionSpecifier(versions, version);
    if derivation.Err? {
      return Err(derivation.error);
    }
    fs.Write(tmpPath, EnvironmentText(derivation.value));
    return Ok(tmpPath);
  }

  /** Leaving the `with` block normally removes the file; nothing removes it when the block raised. */
  method ExitPythonEnvironment(fs: FileSystem, path: string)
    requires path in fs.files
    modifies fs
    ensures fs.files == old(fs.files) - {path}
  {
    fs.Remove(path);
  }

  /**
   * `from_python_version(version)`: run the version command in the
   * environment and take the first line of what it printed. The shell sees
   * the environment text of the version's derivation. The file is removed
   * only on success; a missing specifier, a raising shell and empty output
   * each leave it in place.
   */
  method FromPythonVersion(fs: FileSystem, versions: map<string, string>, shell: (string, string) -> ShellResult,
                           version: string, tmpPath: string)
    returns (r: Result<TargetPlatform, PlatformError>)
    requires tmpPath !in fs.files
    modifies fs
    ensures version !in versions ==> r == Err(KeyError(version)) && fs.files == old(fs.files)[tmpPath := ""]
    ensures version in versions ==>
      var text := EnvironmentText(versions[version]);
      match shell(PythonVersionCommand, text)
      case Raised => r == Err(ShellFailed) && fs.files == old(fs.files)[tmpPath := text]
      case Stdout(out) =>
        match FirstLine(out)
        case None => r == Err(IndexError) && fs.files == old(fs.files)[tmpPath := text]
        case Some(line) => r == Ok(TargetPlatform(line, versions[version])) && fs.files == old(fs.files)
  {
    var path := EnterPythonEnvironment(fs, versions, version, tmpPath);
    if path.Err? {
      return Err(path.error);
    }
    var printed := shell(PythonVersionCommand, fs.files[path.value]);
    if printed.Raised? {
      return Err(ShellFailed);
    }
    var detected := FirstLine(printed.text);
    if detected.None? {
      return Err(IndexError);
    }
    ExitPythonEnvironment(fs, path.value);
    var derivation := DerivationFromVersionSpecifier(versions, version);
    return Ok(TargetPlatform(detected.value, derivation.value));
  }
}
