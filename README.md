# pypi2nix: the buildout manifest loop and the target-platform lookup

This project models, in Dafny, the two small computational cores of pypi2nix
and proves properties about them.

- **`buildout2nix`** (`python2nix/scripts.py`) walks the egg table of a buildout in
  ascending order of Nix attribute name. It skips system and ignored packages. For
  every other package it queries the package index for `name==normalised-version`
  and builds one Nix derivation block: display name, rewritten source URL, hash,
  an `unzip` build input for `.zip` archives, and the package's hard requirements.
  The blocks sit between a fixed header and footer. Lookup failures go into the
  `not_found` and `version_error` lists.
- **The target platform** (`src/pypi2nix/target_platform.py`) maps a Python version
  specifier to a nixpkgs derivation name through the `PYTHON_VERSIONS` table. It
  writes a temporary `nix` environment file for that derivation, asks `nix-shell`
  which Python version the environment runs, and removes the file again.

Modules:

- `Outcomes` (`outcomes.dfy`): `Option` and `Result`.
- `PyStrings` (`pystrings.dfy`): the Python string operations both files use, over
  `seq<char>`. These are `str.replace` (`ReplaceAll`), `split`/`join`, `endswith`,
  the slice `s[:n]`, single-argument `str.format` (`Format`, which gives `None`
  where Python raises) and `splitlines()[0]` (`FirstLine`).
- `LexOrder` (`lexorder.dfy`): Python's string order and `sorted` over the keys of
  a dictionary. `SortedKeys` is a selection loop proved against the ghost
  specification `Sorted`.
- `Buildout` (`buildout.dfy`): the loop as a state machine over `Run`.
  - `Run` holds the printed items, both failure lists, the index queries, the
    `egg_release` variable and the exception that ended the run, if any.
  - `Step` is one loop body, `RunKeys` the loop and `Buildout2NixSpec` the whole
    command.
  - The methods `ProcessPackage`, `RunLoop` and `Buildout2Nix` are the imperative
    code. Each is proved equal to those functions.
- `TargetPlatform` (`targetplatform.dfy`): the table lookups, `current_platform`,
  the environment-file text and the temporary-file life cycle.
  - Files live in a `FileSystem` class whose `files` map the methods update.
  - `EnterPythonEnvironment` and `ExitPythonEnvironment` are the two halves of the
    `python_environment_nix` context manager.
  - `FromPythonVersion` drives both halves and the shell call.

The crawler (`Crawler.get_release`), `suggest_normalized_version` and the
configuration tables are fields of `Buildout.Config`. `Nix.shell` is a function
from the command and the environment-file text to what it printed, or to the
fact that it raised. The path `tempfile.mkstemp` picks is an input that no
existing file has. `platform.python_version()` is a parameter of
`CurrentPlatform`.

The loop's lookup failure is handled by a `FailurePolicy`:

- `AsWritten` is the code. After a caught `ProjectNotFound` or
  `IrrationalVersionError`, line 78 still reads `egg_release`. On the first
  package this raises, because the variable is unbound. Later it reuses the
  previous package's release.
- `SkipFailed` is the evidently intended behaviour: record the failure and go on
  to the next package.

Every run property (order, skipping, framing) is proved for both policies.

In three places the code does less than one would expect of the tool. The
model follows the code:

- A version that `suggest_normalized_version` cannot normalise might be expected
  to count as a version error, like `IrrationalVersionError`. In the code it
  returns `None`, `egg['name'] + '==' + None` raises `TypeError`, and nothing
  catches it. The model ends the run with the fault `NoneVersion`.
- The temporary environment file might be expected to be removed even when the
  shell call fails, as with a `finally`. The code removes it only after the
  `with` body completes normally. `FromPythonVersion` states that the file is
  left behind after a `KeyError`, a raising shell or empty output.
- For an egg list with `foo 1.0`, which resolves, and `bar 2.0beta`, whose
  lookup fails, one would expect a block for `foo` and `bar` listed as a
  version error. As written, `bar` sorts first and the run raises before `foo`
  is reached. See "## Findings".

## Model

| member | source | states |
|---|---|---|
| PyStrings.Prefix | src/pypi2nix/target_platform.py:48 | `s[:n]` is the whole string when it is shorter than `n`, otherwise exactly the first `n` characters |
| PyStrings.ReplaceAll | python2nix/scripts.py:80-82 | a string shorter than a non-empty pattern comes back unchanged; its reference is `ReplaceAllIsJoinOfSplit` |
| PyStrings.Split | python2nix/scripts.py:80-82 | `s.split(sep)` always has at least one piece, the reference `str.replace` is checked against |
| PyStrings.JoinSplit | python2nix/scripts.py:70 | joining the pieces of `s.split(sep)` with `sep` gives `s` back |
| PyStrings.ReplaceAllIsJoinOfSplit | python2nix/scripts.py:80-82 | `s.replace(pat, rep)` equals `rep.join(s.split(pat))` for a non-empty pattern |
| PyStrings.ReplaceBySelf | python2nix/scripts.py:80-82 | replacing a pattern by itself leaves the string unchanged |
| PyStrings.ReplaceAllAbsent | python2nix/scripts.py:80-82 | a string in which the pattern starts nowhere is returned unchanged |
| PyStrings.ReplaceAllFirstMatch | python2nix/scripts.py:80-82 | when `pat` starts nowhere inside `a`, the occurrence after `a` is the first: it is replaced and scanning resumes after it, with no overlap |
| PyStrings.FirstCharMissingBefore | python2nix/scripts.py:80-82 | a pattern whose first character is not in `a` starts nowhere inside `a` |
| PyStrings.EndsWithSuffix | python2nix/scripts.py:84 | `s.endswith(p)` holds exactly when `s` is some text followed by `p` |
| PyStrings.FormatPlain | src/pypi2nix/target_platform.py:33-39 | brace-free text passes through `format` unchanged |
| PyStrings.FormatEscapedOpen | src/pypi2nix/target_platform.py:36-39 | `{{` becomes one `{` |
| PyStrings.FormatEscapedClose | src/pypi2nix/target_platform.py:36-39 | `}}` becomes one `}` |
| PyStrings.FormatAutoField | src/pypi2nix/target_platform.py:37-39 | the first `{}` is replaced by the argument and switches to automatic numbering |
| PyStrings.FormatIndexField | python2nix/scripts.py:88-90 | `{0}` is replaced by the argument and switches to manual numbering |
| PyStrings.LineHead | src/pypi2nix/target_platform.py:23 | the longest prefix without a line boundary: it ends at a boundary or at the end of the string |
| PyStrings.FirstLine | src/pypi2nix/target_platform.py:23 | `splitlines()[0]` fails exactly on empty output; otherwise it is the longest boundary-free prefix, ending at a line boundary or at the end |
| LexOrder.BelowIrreflexive | python2nix/scripts.py:63 | no key sorts before itself |
| LexOrder.BelowAsymmetric | python2nix/scripts.py:63 | two keys are never each below the other |
| LexOrder.BelowTransitive | python2nix/scripts.py:63 | the string order is transitive |
| LexOrder.BelowTotal | python2nix/scripts.py:63 | any two different keys are ordered one way or the other |
| LexOrder.LeastExists | python2nix/scripts.py:63 | every non-empty key set has a least key |
| LexOrder.AscendingUnique | python2nix/scripts.py:63 | two strictly ascending sequences with the same elements are equal, so `sorted` has exactly one result |
| LexOrder.Sorted | python2nix/scripts.py:63 | `sorted` of a key set: strictly ascending, exactly the keys, one entry per key |
| LexOrder.SortedKeys | python2nix/scripts.py:63 | `sorted(eggs.keys())`: strictly ascending, holding exactly the keys, and equal to the specification `Sorted` |
| Buildout.DisplayName | python2nix/scripts.py:68-71 | egg name, then the extras joined by `-` with no separator before them, then `-` and the original, unnormalised version |
| Buildout.DisplayNameExample | python2nix/scripts.py:68-71 | `foo` with extras `[a, b]` and version `1.0` is `fooa-b-1.0` |
| Buildout.LookupSpec | python2nix/scripts.py:73 | the query is the egg name, then `==`, then the given version, and nothing else; `StepNotFound`, `StepIrrationalVersion` and `StepFound` state that the version given is the normalised one |
| Buildout.RewriteUrl | python2nix/scripts.py:79-82 | the URL with `http://a.pypi` replaced by `http://pypi` and then the display name by `${name}`, equal to the split-and-join reference; a URL holding neither comes back unchanged |
| Buildout.MirrorRewrite | python2nix/scripts.py:80 | a URL starting with `http://a.pypi`, with no further occurrence of it, moves to `http://pypi` with the rest unchanged |
| Buildout.NameRewrite | python2nix/scripts.py:82 | when the display name first occurs right after `head` and not again in `tail`, exactly that occurrence becomes `${name}` |
| Buildout.RewriteUrlOfMirroredArchive | python2nix/scripts.py:79-82 | a mirrored archive whose rest holds no second mirror host, and whose name first occurs as the file name, comes out on `http://pypi` with its file name as `${name}`; the mirror rewrite is applied first |
| Buildout.PropagatedBuildInputs | python2nix/scripts.py:88-90 | the fragment is exactly `\n    propagatedBuildInputs = [ ` + requirements + ` ];\n` |
| Buildout.MakeEntry | python2nix/scripts.py:78-100 | every block field. `buildInputs` is non-empty iff the rewritten URL ends in `.zip`, and then it is exactly the `unzip` fragment. `propagatedBuildInputs` is non-empty iff the name is in the hard-requirements table, and then it is the formatted fragment. Hash, install command and metadata are passed through |
| Buildout.Emit | python2nix/scripts.py:78-100 | with `egg_release` unbound the body raises; a release without `sdist` raises `KeyError`; otherwise exactly the block built from that release is appended. Failure lists, queries and `egg_release` are unchanged, and nothing is printed when it raises |
| Buildout.Step | python2nix/scripts.py:64-100 | a skipped package changes nothing. Otherwise a step appends at most one block, named after the package; each failure list grows by at most the egg name; at most one query is made; a step never raises the `--buildout-path` error and prints nothing when it raises |
| Buildout.StepNoneVersion | python2nix/scripts.py:67-73 | a version that cannot be normalised raises before any query; nothing else changes |
| Buildout.StepNotFound | python2nix/scripts.py:72-78 | `ProjectNotFound` for `name==normalised-version`: that query is recorded, the egg name goes to `not_found` only, `egg_release` keeps its value; skipping prints nothing, as written the step prints or raises |
| Buildout.StepIrrationalVersion | python2nix/scripts.py:72-78 | the same for `IrrationalVersionError`, which goes to `version_error` only |
| Buildout.StepFound | python2nix/scripts.py:72-100 | a release found for `name==normalised-version` becomes `egg_release`; with an `sdist` exactly its block is appended, without one the step raises `KeyError`; both failure lists are unchanged |
| Buildout.RunKeys | python2nix/scripts.py:63-100 | the loop makes at most one query and prints at most one block per key, and never raises the `--buildout-path` error |
| Buildout.Finish | python2nix/scripts.py:101 | the footer is appended exactly when no exception ended the loop; nothing else changes |
| Buildout.Buildout2NixSpec | python2nix/scripts.py:51-101 | the `--buildout-path` error is raised exactly when a path is given, and then nothing is printed or queried; otherwise at most one query per egg and at most one block per egg between header and footer |
| Buildout.ProcessPackage | python2nix/scripts.py:66-100 | the imperative loop body yields exactly the state `Step` specifies |
| Buildout.RunLoop | python2nix/scripts.py:63-100 | the loop over the sorted keys, with `continue` for system and ignored packages, yields exactly `RunKeys` from the header-only state |
| Buildout.Buildout2Nix | python2nix/scripts.py:51-101 | the whole command yields exactly `Buildout2NixSpec`, for either policy |
| Buildout.RunKeysGrows | python2nix/scripts.py:58-100 | output, both failure lists and queries only grow; everything the loop prints is a block; after an exception nothing changes |
| Buildout.StepBlockNames | python2nix/scripts.py:91-100 | one step adds no block name, or exactly its own name when the package is not skipped |
| Buildout.RunKeysNames | python2nix/scripts.py:63-100 | every printed name was printed before or is one of the walked keys that is not skipped |
| Buildout.RunKeysAscending | python2nix/scripts.py:63 | walking ascending keys prints blocks in strictly ascending name order |
| Buildout.BlocksAscending | python2nix/scripts.py:63-65 | in any run, the blocks are in strictly ascending name order and each name is a key that is neither a system nor an ignored package |
| Buildout.RunKeysWithout | python2nix/scripts.py:64-65 | dropping a skipped key from the walked keys changes nothing in the run |
| Buildout.SkippedPackageIgnored | python2nix/scripts.py:64-65 | a system or ignored package causes no query, no failure entry and no block: the run equals the run without it |
| Buildout.Framing | python2nix/scripts.py:51-101 | `--buildout-path` raises before anything is printed or queried. Otherwise the header comes first and appears once, and the footer appears only last, exactly when no exception ended the loop |
| Buildout.StepSkipFailedAccounts | python2nix/scripts.py:72-77 | under `SkipFailed`, a step without an exception adds exactly one record (block or failure entry) for an active package and none for a skipped one |
| Buildout.SkipFailedAccountsForEveryPackage | python2nix/scripts.py:72-77 | under `SkipFailed`, a run without an exception accounts for every active package exactly once |
| Buildout.StaleReleaseReused | python2nix/scripts.py:72-78 | as written, a not-found package after a successful one is recorded as not found and still gets a block built from the previous release |
| Buildout.UnboundReleaseAborts | python2nix/scripts.py:72-78 | as written, a failed lookup before any success records the failure and ends the run on the unbound `egg_release`, printing nothing |
| Buildout.ScenarioKeys | python2nix/scripts.py:63 | the keys `foo` and `bar` are walked as `bar`, `foo` |
| Buildout.ScenarioAsWrittenAborts | python2nix/scripts.py:63-78 | as written, with `bar 2.0beta` irrational and `foo 1.0` found, the run prints only the header, lists `bar` as a version error and raises |
| Buildout.ScenarioRewrite | python2nix/scripts.py:80-82 | `http://a.pypi/packages/foo-1.0.tar.gz` with name `foo-1.0` becomes `http://pypi/packages/${name}.tar.gz` |
| Buildout.ScenarioFooEntry | python2nix/scripts.py:78-100 | the block for `foo 1.0` has name `foo-1.0`, URL `http://pypi/packages/${name}.tar.gz`, hash `sha256`/`abc` and no `unzip` build input |
| Buildout.ScenarioSkipFailedPrintsFoo | python2nix/scripts.py:58-101 | corrected, the same input prints the header, exactly one block for `foo` and the footer, with `bar` only in the version-error list |
| TargetPlatform.DerivationFromVersionSpecifier | src/pypi2nix/target_platform.py:44-45 | the table value when the specifier is a key; `KeyError` for exactly the missing specifiers, never a default |
| TargetPlatform.DerivationNameFromPythonVersion | src/pypi2nix/target_platform.py:47-48 | the lookup of the first three characters of the version, or of the whole version when it is shorter |
| TargetPlatform.SameShortVersionSameDerivation | src/pypi2nix/target_platform.py:47-48 | versions agreeing in their first three characters get the same derivation |
| TargetPlatform.ShortVersionExample | src/pypi2nix/target_platform.py:47-48 | `3.10.1` is looked up as `3.1` |
| TargetPlatform.CurrentPlatform | src/pypi2nix/target_platform.py:50-57 | the host version unchanged, paired with the lookup of its first three characters; `KeyError` exactly when that prefix is missing |
| TargetPlatform.JoinedTemplatePieces | src/pypi2nix/target_platform.py:34-38 | the two template parts joined by a space, cut at their braces |
| TargetPlatform.EnvironmentFormatted | src/pypi2nix/target_platform.py:33-39 | formatting the joined template never raises, and it undoubles the braces and puts the derivation into `buildInputs` |
| TargetPlatform.EnvironmentText | src/pypi2nix/target_platform.py:33-40 | the file text is exactly `with import <nixpkgs> {}; stdenv.mkDerivation { name = "python3-env"; buildInputs = [D]; }` |
| TargetPlatform.FileSystem.MakeTemp | src/pypi2nix/target_platform.py:31 | a new empty file appears at a fresh path; no other file changes |
| TargetPlatform.FileSystem.Write | src/pypi2nix/target_platform.py:32-40 | the file's contents become the text; no other file changes |
| TargetPlatform.FileSystem.Remove | src/pypi2nix/target_platform.py:42 | the path no longer exists; no other file changes |
| TargetPlatform.EnterPythonEnvironment | src/pypi2nix/target_platform.py:29-41 | yields the temporary path holding the environment text of the table value. A missing specifier raises `KeyError` and leaves the empty file behind |
| TargetPlatform.ExitPythonEnvironment | src/pypi2nix/target_platform.py:41-42 | after a normal exit from the `with` body, the file is removed |
| TargetPlatform.FromPythonVersion | src/pypi2nix/target_platform.py:18-27 | the shell sees the environment text of the table value. On success the result is the first output line and the same table value, and the files are as before. `KeyError`, a raising shell and empty output (`IndexError`) each leave the temporary file behind |

## Left out

- Argument parsing, `sys.stdin`, `sys.stdout` and `print`. Printed output is a sequence of `Printed` items (header, one `Entry` per block, footer), not text on a stream.
- The text of `TMPL`, `PRE_TMPL` and `POST_TMPL`, and the `%` substitution into `TMPL`. Their module is not part of this model; a block is the record of its substituted fields.
- `to_dict`, the parser of the egg list. Its source is not part of this model; the egg table is an input.
- `nix_metadata`. Its source is not part of this model; a release carries the metadata text it renders.
- `Crawler.get_release` and `suggest_normalized_version`. These are a network client and a foreign library, so they are functions in `Config`. A release is looked up by query only, and the index is assumed not to change during a run.
- `HARD_REQUIREMENTS`, `SYSTEM_PACKAGES`, `IGNORE_PACKAGES`, `INSTALL_COMMAND` and `PYTHON_VERSIONS`. These live in modules that are not part of this model, so they are parameters.
- The `-o/--output` option, which the code never uses.
- The commented-out failure summary after the footer. It is not executed.
- `Nix.shell`. It is a subprocess, so it is a function from command and environment text to output. The model does not capture that the shell receives a path and reads the file itself.
- `tempfile.mkstemp`. The fresh path is an input; the file descriptor and the other file attributes are not modelled.
- `platform.python_version()`. It is a parameter of `CurrentPlatform`.
- The `PlatformGenerator` object. Its only field, `nix`, is never updated, so it is the `shell` parameter of `FromPythonVersion`.
- PyStrings.FormatFrom: only the field forms the two templates use are modelled: `{{`, `}}`, `{}` and `{0}`. Any other field, including a format spec or a conversion, yields `None`.
- LexOrder.Below: compares characters by code point. This is Python 3's `str` order, and it agrees with Python 2 byte-string order on ASCII keys only.

## Findings

| source | as written | input that shows it | evidently intended | confidence | as-written member | corrected member |
|---|---|---|---|---|---|---|
| python2nix/scripts.py:72-78 | after a caught lookup failure, line 78 reads `egg_release` although nothing assigned it | egg list `foo 1.0`, `bar 2.0beta`, where the lookup of `bar==2.0beta` raises `IrrationalVersionError`: `bar` sorts first, so the run raises on the unbound name after the header and prints nothing for `foo` | record the failure, skip the package, go on with the next one | not executed | Buildout.ScenarioAsWrittenAborts | Buildout.ScenarioSkipFailedPrintsFoo |
| python2nix/scripts.py:72-78 | after a successful lookup, a later caught failure reuses the previous package's release | any package found on the index followed in sort order by one whose lookup raises `ProjectNotFound`: the second gets a block with the first one's URL and hash under its own name, and is also listed as not found | no block for a failed package; every package is a block or a failure entry, exactly once | not executed | Buildout.StaleReleaseReused | Buildout.SkipFailedAccountsForEveryPackage |
