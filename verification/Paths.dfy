/** The part of `pathlib.PurePosixPath` the GIF maker uses: building a path
    from a string, turning it back into a string, its final component
    (`name`), that component's `suffix`, and `with_suffix`. The rules are
    those of CPython 3.12's pathlib on POSIX. */
module Paths {
  import opened Builtins

  /** A path after pathlib's normalisation: a root ("" for a relative path,
      "/" or the POSIX-special "//") and the remaining components. */
  datatype PurePath = PurePath(root: string, tail: seq<string>)

  /** A component pathlib keeps: not empty, not ".", and free of "/". */
  predicate ValidPart(x: string) {
    x != "" && x != "." && '/' !in x
  }

  /** What every parsed path looks like. */
  predicate Valid(p: PurePath) {
    && (p.root == "" || p.root == "/" || p.root == "//")
    && forall i :: 0 <= i < |p.tail| ==> ValidPart(p.tail[i])
  }

  /** `posixpath.splitroot` without a drive: exactly two leading slashes are
      kept as the root "//", one or three and more become "/". */
  function SplitRoot(s: string): (string, string) {
    if |s| == 0 || s[0] != '/' then ("", s)
    else if |s| == 1 || s[1] != '/' || (|s| >= 3 && s[2] == '/') then ("/", s[1..])
    else ("//", s[2..])
  }

  /** Drops the components pathlib ignores: empty ones (from "a//b") and ".". */
  function DropEmpty(xs: seq<string>): (r: seq<string>)
    requires forall i :: 0 <= i < |xs| ==> '/' !in xs[i]
    ensures |r| <= |xs|
    ensures forall i :: 0 <= i < |r| ==> ValidPart(r[i])
  {
    if |xs| == 0 then []
    else if xs[0] == "" || xs[0] == "." then DropEmpty(xs[1..])
    else [xs[0]] + DropEmpty(xs[1..])
  }

  /** `Path(s)`. */
  function Parse(s: string): (p: PurePath)
    ensures Valid(p)
  {
    var (root, rel) := SplitRoot(s);
    PurePath(root, DropEmpty(Split(rel, '/')))
  }

  /** `str(path)`; the empty relative path prints as ".". */
  function ToString(p: PurePath): string {
    var s := p.root + Join(p.tail, '/');
    if s == "" then "." else s
  }

  /** `path.name`: the final component, or "" when there is none. */
  function Name(p: PurePath): string {
    if |p.tail| == 0 then "" else p.tail[|p.tail| - 1]
  }

  /** The path without its final component. */
  function Parent(p: PurePath): PurePath {
    if |p.tail| == 0 then p else PurePath(p.root, p.tail[..|p.tail| - 1])
  }

  /** `str.rfind(c)`: the last index holding `c`, or -1. */
  function LastIndexOf(s: string, c: char): (r: int)
    ensures -1 <= r < |s|
    ensures r >= 0 ==> s[r] == c
    ensures forall j :: r < j < |s| ==> s[j] != c
  {
    if |s| == 0 then -1
    else if s[|s| - 1] == c then |s| - 1
    else LastIndexOf(s[..|s| - 1], c)
  }

  /** `path.suffix` of a name: from its last dot, unless that dot is the
      first or the last character. */
  function Suffix(name: string): string {
    var i := LastIndexOf(name, '.');
    if 0 < i < |name| - 1 then name[i..] else ""
  }

  /** `path.stem`: the name without its suffix. */
  function Stem(name: string): string {
    name[..|name| - |Suffix(name)|]
  }

  /** The suffixes `with_suffix` accepts and that are read back as a suffix:
      a dot, at least one more character, no further dot and no slash. */
  predicate GoodSuffix(suffix: string) {
    |suffix| >= 2 && suffix[0] == '.' && '.' !in suffix[1..] && '/' !in suffix
  }

  /** `path.with_suffix(suffix)`; `None` where pathlib raises ValueError
      (a suffix with a slash, one not starting with a dot, ".", or a path
      with an empty name). */
  function WithSuffix(p: PurePath, suffix: string): Option<PurePath> {
    if '/' in suffix || (suffix != "" && suffix[0] != '.') || suffix == "." then None
    else
      var name := Name(p);
      if name == "" then None
      else
        var oldSuffix := Suffix(name);
        var newName := if oldSuffix == "" then name + suffix else name[..|name| - |oldSuffix|] + suffix;
        Some(PurePath(p.root, p.tail[..|p.tail| - 1] + [newName]))
  }

  // ---------------------------------------------------------------------
  // Properties
  // ---------------------------------------------------------------------

  lemma {:induction false} DropEmptyKeepsValid(xs: seq<string>)
    requires forall i :: 0 <= i < |xs| ==> '/' !in xs[i]
    requires forall i :: 0 <= i < |xs| ==> ValidPart(xs[i])
    ensures DropEmpty(xs) == xs
  {
    if |xs| > 0 {
      DropEmptyKeepsValid(xs[1..]);
      assert [xs[0]] + xs[1..] == xs;
    }
  }

  lemma ParseDot()
    ensures Parse(".") == PurePath("", [])
  {
    var s := ".";
    assert s[1..] == "";
    var rest := Split(s[1..], '/');
    assert rest == [""];
    assert [s[0]] + rest[0] == s && rest[1..] == [];
    assert Split(s, '/') == [s];
  }

  /** A normalised path survives printing and re-parsing unchanged. */
  lemma ParseToString(p: PurePath)
    requires Valid(p)
    ensures Parse(ToString(p)) == p
  {
    var j := Join(p.tail, '/');
    var s := p.root + j;
    if |p.tail| == 0 {
      assert j == "";
      assert Split("", '/') == [""];
      if p.root == "" { ParseDot(); }
    } else {
      JoinPrefix(p.tail, '/');
      assert j[0] == p.tail[0][0];
      assert |j| >= 1 && j[0] != '/';
      SplitJoin(p.tail, '/');
      DropEmptyKeepsValid(p.tail);
      assert ToString(p) == s;
      if p.root == "/" {
        assert s[1..] == j;
      } else if p.root == "//" {
        assert |s| >= 3 && s[0] == '/' && s[1] == '/' && s[2] == j[0];
        assert s[2..] == j;
        assert SplitRoot(s) == ("//", j);
      } else {
        assert s == j && SplitRoot(s) == ("", j);
      }
    }
  }

  /** Parsing is idempotent: the printed form of a parsed path parses to it. */
  lemma ParseIdempotent(s: string)
    ensures Parse(ToString(Parse(s))) == Parse(s)
  {
    ParseToString(Parse(s));
  }

  /** A non-empty name keeps a non-empty stem. */
  lemma StemNotEmpty(name: string)
    requires name != ""
    ensures Stem(name) != ""
  {
    var i := LastIndexOf(name, '.');
    if 0 < i < |name| - 1 {
      assert |name[i..]| == |name| - i;
      forall k | 1 <= k < |name[i..]| ensures name[i..][k] != '.' {
        assert name[i..][k] == name[i + k];
      }
    }
  }

  /** A good suffix appended to a non-empty stem is read back as the suffix. */
  lemma SuffixOfAppended(stem: string, suffix: string)
    requires stem != "" && GoodSuffix(suffix)
    ensures Suffix(stem + suffix) == suffix && Stem(stem + suffix) == stem
  {
    var s := stem + suffix;
    var i := LastIndexOf(s, '.');
    assert s[|stem|] == '.';
    forall j | |stem| < j < |s| ensures s[j] != '.' {
      assert s[j] == suffix[1..][j - |stem| - 1];
    }
    assert i == |stem|;
    assert s[i..] == suffix;
    assert s[..|s| - |suffix|] == stem;
  }

  /** `with_suffix` with a good suffix on a path with a name: it succeeds,
      keeps the root, the parent and the stem, and the new name's suffix is
      exactly the one asked for. */
  lemma WithSuffixSpec(p: PurePath, suffix: string)
    requires Valid(p) && Name(p) != "" && GoodSuffix(suffix)
    ensures WithSuffix(p, suffix).Some?
    ensures var q := WithSuffix(p, suffix).value;
      && Valid(q)
      && q.root == p.root
      && Parent(q) == Parent(p)
      && Name(q) == Stem(Name(p)) + suffix
      && Suffix(Name(q)) == suffix
      && Stem(Name(q)) == Stem(Name(p))
  {
    var name := Name(p);
    StemNotEmpty(name);
    var stem := Stem(name);
    var q := WithSuffix(p, suffix).value;
    var newName := stem + suffix;
    if Suffix(name) == "" { assert stem == name; }
    assert q.tail == p.tail[..|p.tail| - 1] + [newName];
    assert q.tail[..|q.tail| - 1] == p.tail[..|p.tail| - 1];
    assert '/' !in stem by {
      assert '/' !in name;
      forall k | 0 <= k < |stem| ensures stem[k] != '/' { assert stem[k] == name[k]; }
    }
    assert ValidPart(newName) by {
      assert |newName| >= 3;
      forall k | 0 <= k < |newName| ensures newName[k] != '/' {
        if k < |stem| { assert newName[k] == stem[k]; } else { assert newName[k] == suffix[k - |stem|]; }
      }
    }
    assert Valid(q) by {
      forall i | 0 <= i < |q.tail| ensures ValidPart(q.tail[i]) {
        if i < |q.tail| - 1 { assert q.tail[i] == p.tail[i]; }
      }
    }
    SuffixOfAppended(stem, suffix);
  }

  /** A path whose name already ends in the suffix is left as it is. */
  lemma WithSuffixKeepsOwnSuffix(p: PurePath, suffix: string)
    requires Name(p) != "" && GoodSuffix(suffix) && Suffix(Name(p)) == suffix
    ensures WithSuffix(p, suffix) == Some(p)
  {
    var name := Name(p);
    var i := |name| - |suffix|;
    assert name == name[..i] + name[i..];
    assert p.tail == p.tail[..|p.tail| - 1] + [name];
  }
}
