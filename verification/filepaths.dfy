/** Slash-separated path handling from Go's `path/filepath` as the client uses
    it: `Join`, `Clean`, `Abs`, and the `~` expansion both `config.ResolvePath`
    and the Vertex AI provider's `expandPath` perform. Only separators are
    normalised: `.` and `..` elements are kept as they are. */
module FilePaths {
  import GoStrings
  import opened Wrappers

  datatype PathError = HomeUnavailable | WorkingDirUnavailable

  /** No two adjacent separators. */
  predicate NoDoubleSlash(s: string) {
    forall i :: 0 <= i < |s| - 1 ==> !(s[i] == '/' && s[i + 1] == '/')
  }

  /** The separator-level invariant `Clean` establishes. */
  predicate SlashClean(s: string) {
    NoDoubleSlash(s) && (|s| <= 1 || s[|s| - 1] != '/')
  }

  /** Replaces every run of separators by a single one. */
  function CollapseSlashes(s: string): (r: string)
    ensures NoDoubleSlash(r)
    ensures |r| <= |s|
    ensures |s| > 0 ==> |r| > 0 && r[0] == s[0] && r[|r| - 1] == s[|s| - 1]
  {
    if |s| < 2 then s
    else if s[0] == '/' && s[1] == '/' then CollapseSlashes(s[1..])
    else
      var tail := CollapseSlashes(s[1..]);
      assert tail[0] == s[1];
      [s[0]] + tail
  }

  function DropTrailingSlash(s: string): (r: string)
    requires NoDoubleSlash(s)
    ensures SlashClean(r)
  {
    if |s| > 1 && s[|s| - 1] == '/' then s[..|s| - 1] else s
  }

  /** `filepath.Clean`, restricted to separators: runs collapse, a trailing
      separator goes (except on the root), and the empty path becomes ".". */
  function Clean(s: string): (r: string)
    ensures SlashClean(r)
    ensures r != ""
  {
    if s == "" then "." else DropTrailingSlash(CollapseSlashes(s))
  }

  /** `filepath.Join`: the elements from the first non-empty one on, joined by
      single separators and cleaned; "" when every element is empty. */
  function Join(elems: seq<string>): (r: string)
    ensures (forall i :: 0 <= i < |elems| ==> elems[i] == "") <==> r == ""
  {
    if |elems| == 0 then ""
    else if elems[0] == "" then Join(elems[1..])
    else Clean(GoStrings.Join(elems, '/'))
  }

  /** `filepath.Abs`: an absolute path is cleaned, a relative one is joined to
      the working directory (whose lookup may fail). */
  function Abs(p: string, workingDir: Option<string>): (r: Result<string, PathError>)
    ensures GoStrings.HasPrefix(p, "/") ==> r == Ok(Clean(p))
    ensures !GoStrings.HasPrefix(p, "/") && workingDir.None? ==> r == Err(WorkingDirUnavailable)
  {
    if GoStrings.HasPrefix(p, "/") then Ok(Clean(p))
    else if workingDir.None? then Err(WorkingDirUnavailable)
    else Ok(Join([workingDir.value, p]))
  }

  /** The home-directory expansion of `config.ResolvePath` and of the Vertex AI
      `expandPath`: a leading `~` becomes the home directory joined to the rest;
      any other path is returned as it is and the home directory is not looked up. */
  function ExpandHome(p: string, home: Option<string>): (r: Result<string, PathError>)
    ensures !GoStrings.HasPrefix(p, "~") ==> r == Ok(p)
    ensures GoStrings.HasPrefix(p, "~") && home.None? ==> r == Err(HomeUnavailable)
    ensures GoStrings.HasPrefix(p, "~") && home.Some? && home.value != "" ==> r.Ok? && r.value != ""
  {
    if GoStrings.HasPrefix(p, "~") then
      if home.None? then Err(HomeUnavailable) else Ok(Join([home.value, p[1..]]))
    else Ok(p)
  }

  // ---------------------------------------------------------------------
  // Facts about Clean used by the configuration and provider lemmas.

  lemma {:induction false} CollapseNoop(s: string)
    requires NoDoubleSlash(s)
    ensures CollapseSlashes(s) == s
    decreases |s|
  {
    if |s| >= 2 {
      assert NoDoubleSlash(s[1..]) by {
        forall i | 0 <= i < |s[1..]| - 1
          ensures !(s[1..][i] == '/' && s[1..][i + 1] == '/')
        {
          assert s[1..][i] == s[i + 1] && s[1..][i + 1] == s[i + 2];
        }
      }
      CollapseNoop(s[1..]);
      assert [s[0]] + s[1..] == s;
    }
  }

  /** Cleaning a path that is already slash-clean changes nothing. */
  lemma CleanNoop(s: string)
    requires s != "" && SlashClean(s)
    ensures Clean(s) == s
  {
    CollapseNoop(s);
  }

  /** A doubled separator anywhere collapses to a single one. */
  lemma {:induction false} CollapseDouble(x: string, y: string)
    ensures CollapseSlashes(x + "//" + y) == CollapseSlashes(x + "/" + y)
    decreases |x|
  {
    var s := x + "//" + y;
    var t := x + "/" + y;
    if |x| == 0 {
      assert s[1..] == t;
    } else {
      assert s[1..] == x[1..] + "//" + y;
      assert t[1..] == x[1..] + "/" + y;
      assert s[0] == t[0] && s[1] == t[1];
      CollapseDouble(x[1..], y);
    }
  }

  lemma NoDoubleSlashConcat(a: string, b: string)
    requires NoDoubleSlash(a) && NoDoubleSlash(b)
    requires |a| == 0 || |b| == 0 || a[|a| - 1] != '/' || b[0] != '/'
    ensures NoDoubleSlash(a + b)
  {
    var s := a + b;
    forall i | 0 <= i < |s| - 1
      ensures !(s[i] == '/' && s[i + 1] == '/')
    {
      if i + 1 < |a| {
        assert s[i] == a[i] && s[i + 1] == a[i + 1];
      } else if i >= |a| {
        assert s[i] == b[i - |a|] && s[i + 1] == b[i + 1 - |a|];
      }
    }
  }

  /** `~/rest` expands to `home/rest` for a clean home directory and a clean,
      relative, non-empty `rest`. */
  lemma ExpandHomeSlash(home: string, rest: string)
    requires home != "" && SlashClean(home) && home[|home| - 1] != '/'
    requires rest != "" && SlashClean(rest) && rest[0] != '/'
    ensures ExpandHome("~/" + rest, Some(home)) == Ok(home + "/" + rest)
  {
    ExpandTildeSlash(home, rest);
    CleanDoubled(home, rest);
  }

  lemma ExpandTildeSlash(home: string, rest: string)
    requires home != ""
    ensures ExpandHome("~/" + rest, Some(home)) == Ok(Clean(home + "//" + rest))
  {
    var p := "~/" + rest;
    assert GoStrings.HasPrefix(p, "~");
    assert p[1..] == "/" + rest;
    assert [home, p[1..]][1..] == [p[1..]];
    assert GoStrings.Join([home, p[1..]], '/') == home + "/" + ("/" + rest);
    assert home + "/" + ("/" + rest) == home + "//" + rest;
  }

  lemma CleanDoubled(home: string, rest: string)
    requires home != "" && SlashClean(home) && home[|home| - 1] != '/'
    requires rest != "" && SlashClean(rest) && rest[0] != '/'
    ensures Clean(home + "//" + rest) == home + "/" + rest
  {
    var t := home + "/" + rest;
    CollapseDouble(home, rest);
    SlashJoinClean(home, rest);
    CollapseNoop(t);
    assert DropTrailingSlash(t) == t;
  }

  lemma SlashJoinClean(home: string, rest: string)
    requires home != "" && SlashClean(home) && home[|home| - 1] != '/'
    requires rest != "" && SlashClean(rest) && rest[0] != '/'
    ensures SlashClean(home + "/" + rest)
  {
    NoDoubleSlashConcat(home, "/");
    NoDoubleSlashConcat(home + "/", rest);
    var t := home + "/" + rest;
    assert t[|t| - 1] == rest[|rest| - 1];
  }
}
