/**
 * The Python string operations the two core files rely on, over `seq<char>`:
 * `str.replace`, `str.split`, `str.join`, `str.endswith`, slicing `s[:n]`,
 * `str.format` with one argument, and `str.splitlines()[0]`.
 */
module PyStrings {
  import opened Outcomes

  predicate StartsWith(s: string, p: string) {
    |p| <= |s| && s[..|p|] == p
  }

  /** `s.endswith(p)` */
  predicate EndsWith(s: string, p: string) {
    |p| <= |s| && s[|s| - |p|..] == p
  }

  /** `s.endswith(p)` holds exactly when `s` is some text followed by `p`. */
  lemma EndsWithSuffix(s: string, p: string)
    ensures EndsWith(s, p) ==> s == s[..|s| - |p|] + p
    ensures forall t :: EndsWith(t + p, p)
  {
    forall t ensures EndsWith(t + p, p) {
      assert (t + p)[|t + p| - |p|..] == p;
    }
  }

  /** True when `p` starts at no position of `s`. */
  predicate Absent(s: string, p: string) {
    forall i {:trigger StartsWith(s[i..], p)} :: 0 <= i <= |s| ==> !StartsWith(s[i..], p)
  }

  /** `s[:n]` for a non-negative `n`: the whole string when it is shorter than `n`. */
  function Prefix(s: string, n: nat): (r: string)
    ensures |s| <= n ==> r == s
    ensures n <= |s| ==> |r| == n && r == s[..n]
  {
    if |s| <= n then s else s[..n]
  }

  /** `s.replace("", rep)`: `rep` before every character and at the end. */
  function InterleaveEmpty(s: string, rep: string): string
  {
    if s == [] then rep else rep + [s[0]] + InterleaveEmpty(s[1..], rep)
  }

  /**
   * `s.replace(pat, rep)`: every occurrence of `pat`, found left to right
   * without overlap, is replaced by `rep`.
   */
  function ReplaceAll(s: string, pat: string, rep: string): (r: string)
    ensures pat != [] && |s| < |pat| ==> r == s
    decreases |s|
  {
    if pat == [] then InterleaveEmpty(s, rep)
    else if s == [] then []
    else if StartsWith(s, pat) then rep + ReplaceAll(s[|pat|..], pat, rep)
    else [s[0]] + ReplaceAll(s[1..], pat, rep)
  }

  /** `s.split(sep)` for a non-empty separator: never an empty list. */
  function Split(s: string, sep: string): (parts: seq<string>)
    requires sep != []
    ensures |parts| >= 1
    decreases |s|
  {
    if s == [] then [[]]
    else if StartsWith(s, sep) then [[]] + Split(s[|sep|..], sep)
    else
      var rest := Split(s[1..], sep);
      [[s[0]] + rest[0]] + rest[1..]
  }

  /** `sep.join(parts)` */
  function Join(sep: string, parts: seq<string>): (r: string)
  {
    if |parts| == 0 then []
    else if |parts| == 1 then parts[0]
    else parts[0] + sep + Join(sep, parts[1..])
  }

  lemma JoinConsFirst(sep: string, c: char, first: string, rest: seq<string>)
    ensures Join(sep, [[c] + first] + rest) == [c] + Join(sep, [first] + rest)
  {
    if |rest| > 0 {
      assert ([first] + rest)[1..] == rest;
      assert ([[c] + first] + rest)[1..] == rest;
    }
  }

  /** Joining the pieces of a split with the separator gives the string back. */
  lemma {:induction false} JoinSplit(s: string, sep: string)
    requires sep != []
    ensures Join(sep, Split(s, sep)) == s
    decreases |s|
  {
    if s == [] {
    } else if StartsWith(s, sep) {
      var tail := Split(s[|sep|..], sep);
      JoinSplit(s[|sep|..], sep);
      calc {
        Join(sep, Split(s, sep));
        Join(sep, [[]] + tail);
        { assert ([[]] + tail)[1..] == tail; }
        sep + Join(sep, tail);
        s[..|sep|] + s[|sep|..];
        { assert s == s[..|sep|] + s[|sep|..]; }
        s;
      }
    } else {
      var rest := Split(s[1..], sep);
      JoinSplit(s[1..], sep);
      calc {
        Join(sep, Split(s, sep));
        Join(sep, [[s[0]] + rest[0]] + rest[1..]);
        { JoinConsFirst(sep, s[0], rest[0], rest[1..]); }
        [s[0]] + Join(sep, [rest[0]] + rest[1..]);
        { assert [rest[0]] + rest[1..] == rest; }
        [s[0]] + s[1..];
        { assert s == [s[0]] + s[1..]; }
        s;
      }
    }
  }

  /**
   * Python's identity `s.replace(pat, rep) == rep.join(s.split(pat))`:
   * the scanning replacement agrees with the split-and-join reference.
   */
  lemma {:induction false} ReplaceAllIsJoinOfSplit(s: string, pat: string, rep: string)
    requires pat != []
    ensures ReplaceAll(s, pat, rep) == Join(rep, Split(s, pat))
    decreases |s|
  {
    if s == [] {
    } else if StartsWith(s, pat) {
      var tail := Split(s[|pat|..], pat);
      ReplaceAllIsJoinOfSplit(s[|pat|..], pat, rep);
      var parts: seq<string> := [[]] + tail;
      assert Split(s, pat) == parts;
      assert |parts| >= 2 && parts[0] == [] && parts[1..] == tail;
      calc {
        ReplaceAll(s, pat, rep);
        rep + ReplaceAll(s[|pat|..], pat, rep);
        rep + Join(rep, tail);
        { assert [] + rep == rep; }
        parts[0] + rep + Join(rep, parts[1..]);
        Join(rep, parts);
      }
    } else {
      var rest := Split(s[1..], pat);
      ReplaceAllIsJoinOfSplit(s[1..], pat, rep);
      assert [rest[0]] + rest[1..] == rest;
      JoinConsFirst(rep, s[0], rest[0], rest[1..]);
      calc {
        ReplaceAll(s, pat, rep);
        [s[0]] + ReplaceAll(s[1..], pat, rep);
        [s[0]] + Join(rep, rest);
        Join(rep, [[s[0]] + rest[0]] + rest[1..]);
        Join(rep, Split(s, pat));
      }
    }
  }

  /** Replacing a non-empty pattern by itself changes nothing. */
  lemma ReplaceBySelf(s: string, p: string)
    requires p != []
    ensures ReplaceAll(s, p, p) == s
  {
    ReplaceAllIsJoinOfSplit(s, p, p);
    JoinSplit(s, p);
  }

  /** A string in which the pattern never starts is left unchanged. */
  lemma {:induction false} ReplaceAllAbsent(s: string, pat: string, rep: string)
    requires pat != [] && Absent(s, pat)
    ensures ReplaceAll(s, pat, rep) == s
    decreases |s|
  {
    if s != [] {
      assert s[0..] == s;
      assert Absent(s[1..], pat) by {
        forall i | 0 <= i <= |s[1..]| ensures !StartsWith(s[1..][i..], pat) {
          assert s[1..][i..] == s[i + 1..];
        }
      }
      ReplaceAllAbsent(s[1..], pat, rep);
    }
  }

  /** A pattern whose first character does not occur in `s` is absent from it. */
  lemma FirstCharMissing(s: string, p: string)
    requires p != [] && p[0] !in s
    ensures Absent(s, p)
  {
    forall i | 0 <= i <= |s| ensures !StartsWith(s[i..], p) {
      if i < |s| {
        assert s[i..][0] == s[i];
      }
    }
  }

  /** Where `pat` does not start, the first character is copied. */
  lemma ReplaceAllCopies(s: string, pat: string, rep: string)
    requires pat != [] && s != [] && !StartsWith(s, pat)
    ensures ReplaceAll(s, pat, rep) == [s[0]] + ReplaceAll(s[1..], pat, rep)
  {
  }

  /** True when `pat` starts at none of the first `n` positions of `s`. */
  predicate NotBefore(s: string, pat: string, n: nat) {
    forall i {:trigger StartsWith(s[i..], pat)} :: 0 <= i < n && i <= |s| ==> !StartsWith(s[i..], pat)
  }

  /** A pattern whose first character does not occur in `a` starts nowhere inside `a`. */
  lemma FirstCharMissingBefore(a: string, pat: string, b: string)
    requires pat != [] && pat[0] !in a
    ensures NotBefore(a + pat + b, pat, |a|)
  {
    var s := a + pat + b;
    forall i | 0 <= i < |a| && i <= |s| ensures !StartsWith(s[i..], pat) {
      assert s[i..][0] == a[i];
    }
  }

  /** Dropping the first character of `a` keeps the hypothesis of `ReplaceAllFirstMatch`. */
  lemma NotBeforeTail(a: string, pat: string, b: string)
    requires pat != [] && a != [] && NotBefore(a + pat + b, pat, |a|)
    ensures !StartsWith(a + pat + b, pat)
    ensures (a + pat + b)[1..] == a[1..] + pat + b
    ensures NotBefore(a[1..] + pat + b, pat, |a[1..]|)
  {
    var s := a + pat + b;
    assert !StartsWith(s[0..], pat);
    assert s[0..] == s;
    var t := a[1..] + pat + b;
    assert s[1..] == t;
    forall i | 0 <= i < |a| - 1 && i <= |t| ensures !StartsWith(t[i..], pat) {
      assert t[i..] == s[i + 1..];
    }
  }

  /** A pattern at the very start is replaced. */
  lemma ReplaceAllAtStart(pat: string, b: string, rep: string)
    requires pat != []
    ensures ReplaceAll(pat + b, pat, rep) == rep + ReplaceAll(b, pat, rep)
  {
    var s := pat + b;
    assert s[..|pat|] == pat;
    assert s[|pat|..] == b;
  }

  /** The first character of `a + x` and what follows it. */
  lemma HeadOfConcat(a: string, x: string)
    requires a != []
    ensures (a + x)[0] == a[0] && (a + x)[1..] == a[1..] + x && [a[0]] + a[1..] == a
  {
  }

  lemma Regroup(c: char, x: string, y: string, z: string)
    ensures [c] + (x + y + z) == ([c] + x) + y + z
  {
  }

  /** One step of `ReplaceAllFirstMatch`: the first character of `a` is copied. */
  lemma ReplaceAllFirstMatchStep(a: string, pat: string, b: string, rep: string)
    requires pat != [] && a != [] && !StartsWith(a + pat + b, pat)
    requires ReplaceAll(a[1..] + pat + b, pat, rep) == a[1..] + rep + ReplaceAll(b, pat, rep)
    ensures ReplaceAll(a + pat + b, pat, rep) == a + rep + ReplaceAll(b, pat, rep)
  {
    var s := a + pat + b;
    var r := ReplaceAll(b, pat, rep);
    HeadOfConcat(a, pat + b);
    calc {
      ReplaceAll(s, pat, rep);
      { ReplaceAllCopies(s, pat, rep); }
      [s[0]] + ReplaceAll(s[1..], pat, rep);
      { assert s[1..] == a[1..] + pat + b; }
      [a[0]] + ReplaceAll(a[1..] + pat + b, pat, rep);
      [a[0]] + (a[1..] + rep + r);
      { Regroup(a[0], a[1..], rep, r); }
      a + rep + r;
    }
  }

  /**
   * When the first occurrence of `pat` in `a + pat + b` is the one right
   * after `a`, that occurrence is replaced and the scan goes on in `b`.
   */
  lemma {:induction false} ReplaceAllFirstMatch(a: string, pat: string, b: string, rep: string)
    requires pat != [] && NotBefore(a + pat + b, pat, |a|)
    ensures ReplaceAll(a + pat + b, pat, rep) == a + rep + ReplaceAll(b, pat, rep)
    decreases |a|
  {
    if a == [] {
      calc {
        ReplaceAll(a + pat + b, pat, rep);
        { assert a + pat + b == pat + b; }
        ReplaceAll(pat + b, pat, rep);
        { ReplaceAllAtStart(pat, b, rep); }
        rep + ReplaceAll(b, pat, rep);
        { assert a + rep == rep; }
        a + rep + ReplaceAll(b, pat, rep);
      }
    } else {
      NotBeforeTail(a, pat, b);
      ReplaceAllFirstMatch(a[1..], pat, b, rep);
      ReplaceAllFirstMatchStep(a, pat, b, rep);
    }
  }

  /** Which replacement-field numbering a `str.format` template has used so far. */
  datatype Numbering = Unset | Auto | Manual

  function Prepend(p: string, o: Option<string>): Option<string>
  {
    match o
    case None => None
    case Some(t) => Some(p + t)
  }

  lemma PrependTwice(a: string, b: string, o: Option<string>)
    ensures Prepend(a, Prepend(b, o)) == Prepend(a + b, o)
  {
    if o.Some? {
      assert a + (b + o.value) == (a + b) + o.value;
    }
  }

  predicate NoBraces(p: string) {
    '{' !in p && '}' !in p
  }

  /**
   * `template.format(arg)` with a single positional argument: `{{` and `}}`
   * stand for one brace, `{}` (at most once) and `{0}` for `arg`. Mixing the
   * two numberings, a second `{}`, any other field or a lone brace raises,
   * which is `None` here.
   */
  function FormatFrom(s: string, arg: string, mode: Numbering): Option<string>
    decreases |s|
  {
    if s == [] then Some([])
    else if StartsWith(s, "{{") then Prepend("{", FormatFrom(s[2..], arg, mode))
    else if StartsWith(s, "}}") then Prepend("}", FormatFrom(s[2..], arg, mode))
    else if StartsWith(s, "{}") then
      if mode == Unset then Prepend(arg, FormatFrom(s[2..], arg, Auto)) else None
    else if StartsWith(s, "{0}") then
      if mode != Auto then Prepend(arg, FormatFrom(s[3..], arg, Manual)) else None
    else if s[0] == '{' || s[0] == '}' then None
    else Prepend([s[0]], FormatFrom(s[1..], arg, mode))
  }

  function Format(template: string, arg: string): Option<string>
  {
    FormatFrom(template, arg, Unset)
  }

  /** Text without braces is copied through unchanged. */
  lemma {:induction false} FormatPlain(p: string, rest: string, arg: string, mode: Numbering)
    requires NoBraces(p)
    ensures FormatFrom(p + rest, arg, mode) == Prepend(p, FormatFrom(rest, arg, mode))
    decreases |p|
  {
    if p != [] {
      var s := p + rest;
      assert s[0] == p[0];
      assert |s| >= 2 ==> s[..2][0] == p[0];
      assert |s| >= 3 ==> s[..3][0] == p[0];
      assert s[1..] == p[1..] + rest;
      assert p[0] != '{' && p[0] != '}';
      calc {
        FormatFrom(s, arg, mode);
        Prepend([p[0]], FormatFrom(p[1..] + rest, arg, mode));
        { FormatPlain(p[1..], rest, arg, mode); }
        Prepend([p[0]], Prepend(p[1..], FormatFrom(rest, arg, mode)));
        { PrependTwice([p[0]], p[1..], FormatFrom(rest, arg, mode)); }
        Prepend([p[0]] + p[1..], FormatFrom(rest, arg, mode));
        { assert [p[0]] + p[1..] == p; }
        Prepend(p, FormatFrom(rest, arg, mode));
      }
    } else {
      assert p + rest == rest;
      var o := FormatFrom(rest, arg, mode);
      assert o.Some? ==> [] + o.value == o.value;
    }
  }

  /** The four two- and three-character tokens of a template. */
  lemma FormatEscapedOpen(rest: string, arg: string, mode: Numbering)
    ensures FormatFrom("{{" + rest, arg, mode) == Prepend("{", FormatFrom(rest, arg, mode))
  {
    assert ("{{" + rest)[2..] == rest;
  }

  lemma FormatEscapedClose(rest: string, arg: string, mode: Numbering)
    ensures FormatFrom("}}" + rest, arg, mode) == Prepend("}", FormatFrom(rest, arg, mode))
  {
    assert ("}}" + rest)[2..] == rest;
  }

  lemma FormatAutoField(rest: string, arg: string)
    ensures FormatFrom("{}" + rest, arg, Unset) == Prepend(arg, FormatFrom(rest, arg, Auto))
  {
    assert ("{}" + rest)[2..] == rest;
  }

  lemma FormatIndexField(rest: string, arg: string)
    ensures FormatFrom("{0}" + rest, arg, Unset) == Prepend(arg, FormatFrom(rest, arg, Manual))
  {
    var s := "{0}" + rest;
    assert s[..2][1] == '0';
    assert s[..3] == "{0}";
    assert s[3..] == rest;
  }

  /** The characters at which `str.splitlines` ends a line. */
  predicate IsLineBoundary(c: char) {
    c == '\n' || c == '\r' || c == '\U{000B}' || c == '\U{000C}' || c == '\U{001C}' || c == '\U{001D}'
    || c == '\U{001E}' || c == '\U{0085}' || c == '\U{2028}' || c == '\U{2029}'
  }

  /** The text before the first line boundary (all of `s` when there is none). */
  function LineHead(s: string): (r: string)
    ensures |r| <= |s| && r == s[..|r|]
    ensures forall i :: 0 <= i < |r| ==> !IsLineBoundary(r[i])
    ensures |r| == |s| || IsLineBoundary(s[|r|])
  {
    if s == [] || IsLineBoundary(s[0]) then [] else [s[0]] + LineHead(s[1..])
  }

  /**
   * `s.splitlines()[0]`: the first line without its terminator; an empty
   * string has no lines and the index raises (`None`).
   */
  function FirstLine(s: string): (r: Option<string>)
    ensures r.None? <==> s == []
    ensures r.Some? ==> |r.value| <= |s| && r.value == s[..|r.value|]
    ensures r.Some? ==> forall i :: 0 <= i < |r.value| ==> !IsLineBoundary(r.value[i])
    ensures r.Some? ==> |r.value| == |s| || IsLineBoundary(s[|r.value|])
  {
    if s == [] then None else Some(LineHead(s))
  }
}
