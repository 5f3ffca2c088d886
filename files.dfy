/**
 * The part of the operating system the bot touches: the process's working
 * directory and the file system, seen as a set of directory paths and a
 * set of file paths, plus `tempfile`'s allocation of fresh names under the
 * system temporary directory.
 */
module Files {
  import opened Text

  type Path = string

  /** `tempfile.gettempdir()`. */
  const TempRoot: Path := "/tmp"

  /** `tempfile.gettempprefix()`: every name `tempfile` makes starts with it. */
  const TempPrefix := "tmp"

  /** `os.path.join(dir, name)` for a relative `name`. */
  function Join(dir: Path, name: string): (p: Path)
    ensures Under(p, dir)
  {
    dir + "/" + name
  }

  /** `p` lies somewhere below directory `d`. */
  predicate Under(p: Path, d: Path) {
    StartsWith(p, d + "/")
  }

  /** a name directly in the temporary directory that `tempfile` could have made */
  predicate TempName(n: string) {
    StartsWith(n, TempPrefix) && '/' !in n
  }

  /** `p` is a file or directory that `tempfile` made directly in the temporary directory. */
  predicate TempEntry(p: Path) {
    StartsWith(p, TempRoot + "/") && TempName(p[|TempRoot| + 1..])
  }

  /** The index of the last `/` in `p`, if any. */
  function LastSlash(p: Path): (r: Wrappers.Option<nat>)
    ensures r.Some? ==> r.value < |p| && p[r.value] == '/' && '/' !in p[r.value + 1..]
    ensures r.None? ==> '/' !in p
  {
    if p == "" then Wrappers.None
    else if p[|p| - 1] == '/' then Wrappers.Some(|p| - 1)
    else
      var r := LastSlash(p[..|p| - 1]);
      assert r.Some? ==> p[r.value + 1..] == p[..|p| - 1][r.value + 1..] + [p[|p| - 1]];
      assert r.None? ==> p == p[..|p| - 1] + [p[|p| - 1]];
      r
  }

  /**
   * `os.path.dirname(p)`: everything before the last `/` (for the paths of
   * this model, whose directory part never ends in `/`).
   */
  function Dirname(p: Path): Path {
    match LastSlash(p)
    case None => ""
    case Some(i) => p[..i]
  }

  lemma DirnameOfJoin(d: Path, n: string)
    requires '/' !in n
    ensures Dirname(Join(d, n)) == d
  {
    var p := Join(d, n);
    assert p[|d| + 1..] == n;
    assert p[|d|] == '/';
    assert forall j :: |d| < j < |p| ==> p[j] == n[j - |d| - 1];
  }

  /** Two different entries of the temporary directory do not lie below each other. */
  lemma TempEntriesAreSiblings(p: Path, d: Path)
    requires TempEntry(p) && TempEntry(d)
    ensures !Under(p, d)
  {
    var k := |TempRoot| + 1;
    if |d| < |p| {
      assert p[|d|] == p[k..][|d| - k];
      assert p[|d|] != '/';
      assert (d + "/")[|d|] == '/';
    }
  }

  /** A temporary-directory entry made by `tempfile` never has a name without its prefix (such as `graph_output.png`). */
  lemma TempEntryIsNot(p: Path, n: string)
    requires TempEntry(p) && !StartsWith(n, TempPrefix)
    ensures p != Join(TempRoot, n)
  {
  }

  /** A string of `k` copies of `c`. */
  function Repeat(c: char, k: nat): (s: string)
    ensures |s| == k && forall i :: 0 <= i < k ==> s[i] == c
  {
    if k == 0 then "" else Repeat(c, k - 1) + [c]
  }

  /** A length at least that of every path in `s`. */
  method MaxLength(s: set<Path>) returns (k: nat)
    ensures forall p :: p in s ==> |p| <= k
  {
    k := 0;
    var rest := s;
    while rest != {}
      invariant rest <= s
      invariant forall p :: p in s - rest ==> |p| <= k
      decreases rest
    {
      var p :| p in rest;
      if |p| > k {
        k := |p|;
      }
      rest := rest - {p};
    }
  }

  /**
   * The state a process sees: its working directory, the directories and
   * the files that exist.
   */
  class Host {
    var cwd: Path
    var dirs: set<Path>
    var files: set<Path>

    constructor (cwd: Path, dirs: set<Path>, files: set<Path>)
      ensures this.cwd == cwd && this.dirs == dirs && this.files == files
    {
      this.cwd := cwd;
      this.dirs := dirs;
      this.files := files;
    }

    /**
     * `tempfile.NamedTemporaryFile(suffix='.png', delete=False)`: creates
     * an empty file with a fresh name directly in the temporary directory.
     * (`tempfile` draws the name at random; here it is built longer than
     * every existing path, which makes it fresh.)
     */
    method NewPngTempFile() returns (p: Path)
      modifies this
      ensures p !in old(files) && files == old(files) + {p}
      ensures TempEntry(p) && EndsWith(p, ".png")
      ensures p !in old(dirs)
      ensures dirs == old(dirs) && cwd == old(cwd)
    {
      var k := MaxLength(files + dirs);
      var n := TempPrefix + Repeat('x', k) + ".png";
      p := Join(TempRoot, n);
      assert p[|TempRoot| + 1..] == n;
      assert n[..3] == TempPrefix;
      assert '/' !in n by {
        forall i | 0 <= i < |n| ensures n[i] != '/' {
          if 3 <= i < 3 + k { assert n[i] == Repeat('x', k)[i - 3]; }
        }
      }
      assert p[|p| - 4..] == ".png";
      files := files + {p};
    }

    /**
     * `tempfile.TemporaryDirectory()` on entry: creates a fresh, empty
     * directory directly in the temporary directory.
     */
    method NewTempDir() returns (d: Path)
      modifies this
      ensures d !in old(dirs) && dirs == old(dirs) + {d}
      ensures TempEntry(d)
      ensures forall f :: f in files ==> !Under(f, d) && f != d
      ensures forall e :: e in old(dirs) ==> !Under(e, d)
      ensures files == old(files) && cwd == old(cwd)
    {
      var k := MaxLength(files + dirs);
      var n := TempPrefix + Repeat('x', k);
      d := Join(TempRoot, n);
      assert d[|TempRoot| + 1..] == n;
      assert n[..3] == TempPrefix;
      assert '/' !in n by {
        forall i | 0 <= i < |n| ensures n[i] != '/' {
          if 3 <= i { assert n[i] == Repeat('x', k)[i - 3]; }
        }
      }
      dirs := dirs + {d};
    }

    /** `shutil.rmtree(d)`, as `TemporaryDirectory` does on exit: `d` and everything below it disappear. */
    method RemoveTree(d: Path)
      modifies this
      ensures dirs == set e | e in old(dirs) && e != d && !Under(e, d)
      ensures files == set f | f in old(files) && !Under(f, d)
      ensures cwd == old(cwd)
    {
      dirs := set e | e in dirs && e != d && !Under(e, d);
      files := set f | f in files && !Under(f, d);
    }

    /** `os.chdir(d)`. */
    method Chdir(d: Path)
      modifies this
      ensures cwd == d && dirs == old(dirs) && files == old(files)
    {
      cwd := d;
    }

    /** Files appear (written by code this model does not look into). */
    method AddFiles(ps: set<Path>)
      modifies this
      ensures files == old(files) + ps && dirs == old(dirs) && cwd == old(cwd)
    {
      files := files + ps;
    }

    /** `os.remove(p)`, called only after `os.path.exists(p)`. */
    method Remove(p: Path)
      requires p in files
      modifies this
      ensures files == old(files) - {p} && dirs == old(dirs) && cwd == old(cwd)
    {
      files := files - {p};
    }

    /** `os.rename(src, dst)`, called only after `os.path.exists(src)`; an existing `dst` is replaced. */
    method Rename(src: Path, dst: Path)
      requires src in files
      modifies this
      ensures files == old(files) - {src} + {dst} && dirs == old(dirs) && cwd == old(cwd)
    {
      files := files - {src} + {dst};
    }
  }

  /** The paths that names created in directory `d` get. */
  function Below(d: Path, names: set<string>): (ps: set<Path>)
    ensures forall p :: p in ps ==> Under(p, d)
  {
    set n | n in names :: Join(d, n)
  }
}
