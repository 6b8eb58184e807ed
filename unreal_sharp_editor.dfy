/**
 * The editor module's hot-reload trigger: a change batch from the directory
 * watcher starts a reload at its first C# source file (skipping build output),
 * either at once or, when the settings require focus, at the next tick at
 * which the editor has focus.
 */
module UnrealSharpEditor {

  /** ASCII case folding, as the engine's default case-insensitive comparisons use. */
  function ToLower(c: char): char
  {
    if 'A' <= c <= 'Z' then (c as int - 'A' as int + 'a' as int) as char else c
  }

  predicate EqualsIgnoreCase(a: string, b: string)
  {
    |a| == |b| && forall i | 0 <= i < |a| :: ToLower(a[i]) == ToLower(b[i])
  }

  /** Whether sub occurs in s at position i, ignoring case. */
  predicate MatchesAt(s: string, sub: string, i: int)
  {
    0 <= i && i + |sub| <= |s| && EqualsIgnoreCase(s[i..i + |sub|], sub)
  }

  /** Substring search, ignoring case. */
  predicate ContainsIgnoreCase(s: string, sub: string)
  {
    exists i | 0 <= i <= |s| :: MatchesAt(s, sub, i)
  }

  const PathSeparators: set<char> := {'/', '\\'}

  /** The last position in s holding one of chars, or -1 when there is none. */
  function LastIndexOfAny(s: string, chars: set<char>): (k: int)
    ensures -1 <= k < |s|
    ensures k >= 0 ==> s[k] in chars
    ensures forall j | k < j < |s| :: s[j] !in chars
  {
    if s == [] then -1
    else if s[|s| - 1] in chars then |s| - 1
    else LastIndexOfAny(s[..|s| - 1], chars)
  }

  /**
   * The extension of a path without its dot: what follows the last '.' of the
   * file name (the part after the last separator), or empty when the file name
   * has no '.'.
   */
  function GetExtension(path: string): (e: string)
    ensures forall i | 0 <= i < |e| :: e[i] != '.' && e[i] !in PathSeparators
    ensures e == [] || (|e| < |path| && path[|path| - |e| - 1] == '.' && e == path[|path| - |e|..])
  {
    var fileNameStart := LastIndexOfAny(path, PathSeparators) + 1;
    var dot := LastIndexOfAny(path, {'.'});
    if dot < fileNameStart then "" else path[dot + 1..]
  }

  /** Files under the project's build output folders. */
  predicate IsBuildOutput(filename: string)
  {
    ContainsIgnoreCase(filename, "Script/bin") || ContainsIgnoreCase(filename, "Script/obj")
  }

  /** A changed file that triggers a hot reload: a C# source outside the build output. */
  predicate Qualifies(filename: string): (b: bool)
    ensures IsBuildOutput(filename) ==> !b
    ensures b ==> |filename| >= 3 && filename[|filename| - 3] == '.' && EqualsIgnoreCase(filename[|filename| - 2..], "cs")
  {
    !IsBuildOutput(filename) && EqualsIgnoreCase(GetExtension(filename), "cs")
  }

  predicate AnyQualifies(changedFiles: seq<string>)
  {
    exists j | 0 <= j < |changedFiles| :: Qualifies(changedFiles[j])
  }

  /** A file name ending in '.' and an extension free of dots and separators has exactly that extension. */
  lemma {:induction false} ExtensionOfNamedFile(stem: string, ext: string)
    requires forall i | 0 <= i < |ext| :: ext[i] != '.' && ext[i] !in PathSeparators
    ensures GetExtension(stem + "." + ext) == ext
  {
    var path := stem + "." + ext;
    var at := |stem|;
    assert path[at] == '.';
    forall j | at < j < |path| ensures path[j] != '.' && path[j] !in PathSeparators {
      assert path[j] == ext[j - at - 1];
    }
    var dot := LastIndexOfAny(path, {'.'});
    assert dot == at;
    var fileNameStart := LastIndexOfAny(path, PathSeparators) + 1;
    assert fileNameStart <= at;
    assert path[dot + 1..] == ext;
  }

  /**
   * The file filter is a suffix test: a file triggers a reload exactly when it is
   * outside the build output and its name ends in ".cs", in any letter case.
   */
  lemma QualifiesIffCsSuffix(filename: string)
    ensures Qualifies(filename) <==>
      && !IsBuildOutput(filename)
      && |filename| >= 3
      && filename[|filename| - 3] == '.'
      && EqualsIgnoreCase(filename[|filename| - 2..], "cs")
  {
    var n := |filename|;
    if n >= 3 && filename[n - 3] == '.' && EqualsIgnoreCase(filename[n - 2..], "cs") {
      var ext := filename[n - 2..];
      assert ToLower(ext[0]) == 'c' && ToLower(ext[1]) == 's';
      assert filename == filename[..n - 3] + "." + ext;
      ExtensionOfNamedFile(filename[..n - 3], ext);
    }
  }

  /** The editor module's reload state, with started hot reloads counted. */
  class EditorModule {
    var bIsReloading: bool
    var hotReloadsStarted: nat

    constructor ()
      ensures !bIsReloading && hotReloadsStarted == 0
    {
      bIsReloading := false;
      hotReloadsStarted := 0;
    }

    /** Build, weave and reload the user assembly, observed only as one more reload started. */
    method StartHotReload()
      modifies this
      ensures hotReloadsStarted == old(hotReloadsStarted) + 1
      ensures bIsReloading == old(bIsReloading)
    {
      hotReloadsStarted := hotReloadsStarted + 1;
    }

    /**
     * Handles one batch of changed files. A batch arriving while a reload is
     * pending, or holding no qualifying file, changes nothing. Otherwise the first
     * qualifying file ends the batch: with focus required it only marks a reload
     * as pending; without, it starts exactly one reload and clears the mark.
     */
    method OnCSharpCodeModified(changedFiles: seq<string>, requireFocusForHotReload: bool)
      modifies this
      ensures hotReloadsStarted <= old(hotReloadsStarted) + 1
      ensures old(bIsReloading) ==> unchanged(this)
      ensures !old(bIsReloading) && !AnyQualifies(changedFiles) ==> unchanged(this)
      ensures !old(bIsReloading) && AnyQualifies(changedFiles) && requireFocusForHotReload ==>
                bIsReloading && hotReloadsStarted == old(hotReloadsStarted)
      ensures !old(bIsReloading) && AnyQualifies(changedFiles) && !requireFocusForHotReload ==>
                !bIsReloading && hotReloadsStarted == old(hotReloadsStarted) + 1
    {
      if bIsReloading {
        return;
      }
      for i := 0 to |changedFiles|
        invariant forall j | 0 <= j < i :: !Qualifies(changedFiles[j])
        invariant unchanged(this)
      {
        var changedFile := changedFiles[i];
        if IsBuildOutput(changedFile) {
          continue;
        }
        var extension := GetExtension(changedFile);
        if !EqualsIgnoreCase(extension, "cs") {
          continue;
        }
        assert Qualifies(changedFiles[i]);

        bIsReloading := true;
        if requireFocusForHotReload {
          return;
        }
        StartHotReload();
        bIsReloading := false;
        return;
      }
    }

    /**
     * The per-frame tick: starts the pending reload only when focus is required,
     * a reload is pending and the editor has focus, then clears the mark. It
     * always asks to keep ticking.
     */
    method Tick(requireFocusForHotReload: bool, hasFocus: bool) returns (keepTicking: bool)
      modifies this
      ensures keepTicking
      ensures var fire := requireFocusForHotReload && old(bIsReloading) && hasFocus;
              && hotReloadsStarted == old(hotReloadsStarted) + (if fire then 1 else 0)
              && bIsReloading == (old(bIsReloading) && !fire)
    {
      if !requireFocusForHotReload || !bIsReloading || !hasFocus {
        return true;
      }
      StartHotReload();
      bIsReloading := false;
      return true;
    }
  }
}
