/**
 * Choosing which file to read: `get_latest_version` takes the greatest `.json` name in
 * the versions directory, and backup recovery takes the greatest
 * `<basename>.<...>.bak` name in the working directory.  Both order names the way
 * Python's `sorted` does.  The directory listings are passed in.
 */
module FileSelection {
  import opened Wrappers

  const VersionsDir: string := "versions"

  /** Python's `a < b` on str: code point by code point, a proper prefix first. */
  predicate StrLess(a: string, b: string)
    decreases |a|
  {
    if |b| == 0 then false
    else if |a| == 0 then true
    else if a[0] != b[0] then a[0] < b[0]
    else StrLess(a[1..], b[1..])
  }

  lemma {:induction false} StrLessIrreflexive(a: string)
    ensures !StrLess(a, a)
  {
    if |a| > 0 {
      StrLessIrreflexive(a[1..]);
    }
  }

  lemma {:induction false} StrLessTransitive(a: string, b: string, c: string)
    requires StrLess(a, b) && StrLess(b, c)
    ensures StrLess(a, c)
    decreases |a|
  {
    if |a| > 0 && a[0] == b[0] && b[0] == c[0] {
      StrLessTransitive(a[1..], b[1..], c[1..]);
    }
  }

  lemma {:induction false} StrLessTotal(a: string, b: string)
    ensures a == b || StrLess(a, b) || StrLess(b, a)
    decreases |a|
  {
    if |a| > 0 && |b| > 0 && a[0] == b[0] {
      StrLessTotal(a[1..], b[1..]);
      if a[1..] == b[1..] {
        assert a == [a[0]] + a[1..] && b == [b[0]] + b[1..];
      }
    }
  }

  /** `m` is in `names` and no name sorts after it. */
  predicate IsGreatest(m: string, names: seq<string>) {
    m in names && forall n :: n in names ==> !StrLess(m, n)
  }

  /** `sorted(names)[-1]`, or None for an empty list. */
  function Greatest(names: seq<string>): (r: Option<string>)
    ensures r.None? <==> |names| == 0
    ensures r.Some? ==> IsGreatest(r.value, names)
  {
    if |names| == 0 then None
    else
      var init, last := names[..|names| - 1], names[|names| - 1];
      assert names == init + [last];
      match Greatest(init)
      case None => StrLessIrreflexive(last); Some(last)
      case Some(m) =>
        if StrLess(m, last) then
          GreatestExtends(m, last, init);
          Some(last)
        else
          StrLessIrreflexive(m);
          Some(m)
  }

  lemma GreatestExtends(m: string, last: string, init: seq<string>)
    requires IsGreatest(m, init) && StrLess(m, last)
    ensures forall n :: n in init + [last] ==> !StrLess(last, n)
  {
    forall n | n in init + [last] ensures !StrLess(last, n) {
      if n == last {
        StrLessIrreflexive(last);
      } else if StrLess(last, n) {
        StrLessTransitive(m, last, n);
      }
    }
  }

  /** Names are ordered totally, so the greatest one is unique: it is what `sorted(...)[-1]` picks. */
  lemma GreatestIsUnique(names: seq<string>, m: string)
    requires IsGreatest(m, names)
    ensures Greatest(names) == Some(m)
  {
    var g := Greatest(names).value;
    StrLessTotal(m, g);
  }

  predicate EndsWith(s: string, suffix: string) {
    |suffix| <= |s| && s[|s| - |suffix|..] == suffix
  }

  predicate StartsWith(s: string, prefix: string) {
    prefix <= s
  }

  /** `[f for f in listing if f.endswith('.json')]`. */
  function JsonFiles(listing: seq<string>): (r: seq<string>)
    ensures forall n :: n in r <==> n in listing && EndsWith(n, ".json")
  {
    if |listing| == 0 then []
    else (if EndsWith(listing[0], ".json") then [listing[0]] else []) + JsonFiles(listing[1..])
  }

  /**
   * `get_latest_version()`: None when the versions directory did not exist (it is then
   * created) or holds no `.json` file; otherwise the path of the greatest such name.
   */
  function LatestVersion(dirExists: bool, listing: seq<string>): (r: Option<string>)
    ensures r.Some? <==> dirExists && exists n :: n in listing && EndsWith(n, ".json")
    ensures r.Some? ==>
      |r.value| > |VersionsDir| + 1 && r.value[..|VersionsDir| + 1] == VersionsDir + "/" &&
      IsGreatest(r.value[|VersionsDir| + 1..], JsonFiles(listing))
  {
    if !dirExists then None
    else
      match Greatest(JsonFiles(listing))
      case None => None
      case Some(name) =>
        assert EndsWith(name, ".json");
        var path := VersionsDir + "/" + name;
        assert path[|VersionsDir| + 1..] == name;
        Some(path)
  }

  /** `os.path.basename(path)`: what follows the last `/`. */
  function Basename(path: string): (r: string)
    ensures '/' !in r
    ensures EndsWith(path, r)
    ensures |r| < |path| ==> path[|path| - |r| - 1] == '/'
  {
    if |path| == 0 then ""
    else if path[|path| - 1] == '/' then ""
    else
      var b := Basename(path[..|path| - 1]);
      assert path[..|path| - 1][|path| - 1 - |b|..] == b;
      b + [path[|path| - 1]]
  }

  /** The backups of `basename`: names starting with `basename.` and ending with `.bak`. */
  function BackupFiles(basename: string, listing: seq<string>): (r: seq<string>)
    ensures forall n :: n in r <==> n in listing && StartsWith(n, basename + ".") && EndsWith(n, ".bak")
  {
    if |listing| == 0 then []
    else
      var n := listing[0];
      (if StartsWith(n, basename + ".") && EndsWith(n, ".bak") then [n] else []) +
      BackupFiles(basename, listing[1..])
  }

  /** The backup `load_json_file` falls back on when `filepath` does not parse. */
  function LatestBackup(filepath: string, listing: seq<string>): (r: Option<string>)
    ensures r.None? <==> forall n :: n in listing ==>
      !(StartsWith(n, Basename(filepath) + ".") && EndsWith(n, ".bak"))
    ensures r.Some? ==> IsGreatest(r.value, BackupFiles(Basename(filepath), listing))
  {
    var candidates := BackupFiles(Basename(filepath), listing);
    assert |candidates| > 0 ==> candidates[0] in candidates;
    Greatest(candidates)
  }
}
