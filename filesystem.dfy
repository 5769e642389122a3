/** The part of the filesystem the organizer touches: which paths are files and
    which are directories, and the three operations that change that. File
    contents are not modelled. */
module FileSystem {
  import opened Paths

  datatype Store = Store(files: set<Path>, dirs: set<Path>)

  /** What the organizer only observes: `Path.resolve()`, the places where
      writing is refused, and the order in which `iterdir()` lists a directory. */
  datatype Env = Env(canon: Path -> Path, denied: set<Path>, listing: Path -> seq<string>)

  /** A tree: the root is a directory, nothing is both a file and a
      directory, and every entry below the root sits in a directory. */
  ghost predicate Valid(s: Store)
  {
    && [] in s.dirs
    && s.files !! s.dirs
    && (forall p :: p in s.files ==> p != [] && Parent(p) in s.dirs)
    && (forall p :: p in s.dirs && p != [] ==> Parent(p) in s.dirs)
  }

  /** `Path.exists()`. */
  predicate Exists(s: Store, p: Path)
  {
    p in s.files || p in s.dirs
  }

  /** Writing at `p` is refused: `p` or a directory above it is in `denied`. */
  predicate Denied(env: Env, p: Path)
  {
    exists k :: 0 <= k <= |p| && p[..k] in env.denied
  }

  /** Some ancestor of `p`, or `p` itself, is a file. */
  predicate BlockedByFile(s: Store, p: Path)
  {
    exists k :: 0 <= k <= |p| && p[..k] in s.files
  }

  /** What an operation leaves behind, and whether it returned normally
      (`ok` is false where it raised). */
  datatype Effect = Effect(store: Store, ok: bool)

  /** `p` and every directory above it: exactly the leading pieces of `p`. */
  function Prefixes(p: Path): (r: set<Path>)
    ensures forall q :: q in r <==> |q| <= |p| && q == p[..|q|]
  {
    var r := set k | 0 <= k <= |p| :: p[..k];
    assert forall q :: |q| <= |p| && q == p[..|q|] ==> q in r;
    r
  }

  /** The directories on the way to `d`, `d` included, that writing is not refused at. */
  function Creatable(env: Env, d: Path): set<Path>
  {
    set k | 0 <= k <= |d| && !Denied(env, d[..k]) :: d[..k]
  }

  /** `Path.mkdir(parents=True, exist_ok=True)`. An existing directory is
      accepted. A file at `d` or above it makes the call raise before it
      creates anything. Otherwise the missing directories are created from the
      top down; the call raises at the first one where writing is refused and
      keeps those it made before. */
  function Mkdir(s: Store, env: Env, d: Path): Effect
  {
    if d in s.dirs then Effect(s, true)
    else if BlockedByFile(s, d) then Effect(s, false)
    else Effect(Store(s.files, s.dirs + Creatable(env, d)), !Denied(env, d))
  }

  /** `shutil.move(src, dst)` onto a path that is not a directory. `os.rename`
      is tried first. Where it is refused at the source, `shutil.move` falls
      back to `copy2` and then raises when it cannot unlink the source, so
      the copy is left at `dst` and the source stays. */
  function Move(s: Store, env: Env, src: Path, dst: Path): Effect
  {
    if src !in s.files || dst == [] || dst in s.dirs || Parent(dst) !in s.dirs || Denied(env, dst) then Effect(s, false)
    else if Denied(env, src) then Effect(Store(s.files + {dst}, s.dirs), false)
    else Effect(Store(s.files - {src} + {dst}, s.dirs), true)
  }

  /** `shutil.copy2(src, dst)` onto a path that is not a directory; copying a
      file onto itself raises. */
  function Copy2(s: Store, env: Env, src: Path, dst: Path): Effect
  {
    if src !in s.files || src == dst || dst == [] || dst in s.dirs || Parent(dst) !in s.dirs || Denied(env, dst) then Effect(s, false)
    else Effect(Store(s.files + {dst}, s.dirs), true)
  }

  // ---------------------------------------------------------------------
  // Properties
  // ---------------------------------------------------------------------

  lemma ParentOfPrefix(p: Path, k: nat)
    requires 0 < k <= |p|
    ensures Parent(p[..k]) == p[..k - 1]
  {
  }

  /** Writing refused at a directory is refused below it too. */
  lemma DeniedBelow(env: Env, d: Path, j: nat, k: nat)
    requires j <= k <= |d| && Denied(env, d[..j])
    ensures Denied(env, d[..k])
  {
    var i :| 0 <= i <= j && d[..j][..i] in env.denied;
    assert d[..k][..i] == d[..j][..i];
  }

  /** `mkdir` succeeds exactly when the directory exists, or nothing is in the
      way and writing is not refused at it. It never touches a file, and the
      only directories it creates are on the way to `d`, none of them refused.
      With a file in the way it changes nothing; otherwise every level up to
      the first refused one exists afterwards, so success leaves `d` a directory. */
  lemma MkdirResult(s: Store, env: Env, d: Path)
    ensures var e := Mkdir(s, env, d);
      && (e.ok <==> d in s.dirs || (!BlockedByFile(s, d) && !Denied(env, d)))
      && e.store.files == s.files
      && s.dirs <= e.store.dirs <= s.dirs + Prefixes(d)
      && (forall q :: q in e.store.dirs && q !in s.dirs ==> !Denied(env, q))
      && (d in s.dirs || BlockedByFile(s, d) ==> e.store == s)
      && (d !in s.dirs && !BlockedByFile(s, d) ==>
            forall k :: 0 <= k <= |d| && !Denied(env, d[..k]) ==> d[..k] in e.store.dirs)
      && (e.ok ==> d in e.store.dirs)
  {
    var e := Mkdir(s, env, d);
    if d !in s.dirs && !BlockedByFile(s, d) {
      assert d[..|d|] == d;
      forall q | q in e.store.dirs && q !in s.dirs ensures !Denied(env, q) {
        var k :| 0 <= k <= |d| && !Denied(env, d[..k]) && q == d[..k];
      }
    }
  }

  /** `mkdir` keeps the store a tree, whether it succeeds or not. */
  lemma MkdirKeepsValid(s: Store, env: Env, d: Path)
    requires Valid(s)
    ensures Valid(Mkdir(s, env, d).store)
  {
    if d !in s.dirs && !BlockedByFile(s, d) {
      var t := Mkdir(s, env, d).store;
      forall p | p in t.dirs && p != [] ensures Parent(p) in t.dirs {
        if p !in s.dirs {
          var k :| 0 <= k <= |d| && !Denied(env, d[..k]) && p == d[..k];
          ParentOfPrefix(d, k);
          if Denied(env, d[..k - 1]) {
            DeniedBelow(env, d, k - 1, k);
          }
        }
      }
    }
  }

  /** A move succeeds exactly when the source is a file, the target can be
      written in an existing directory, and the source can be unlinked. On
      success the target is a file, the source is gone and every other path is
      unchanged. On failure nothing is lost and the source is still there; the
      only file that can appear is the target, and only when the source could
      not be unlinked. */
  lemma MoveResult(s: Store, env: Env, src: Path, dst: Path)
    ensures var e := Move(s, env, src, dst);
      && (e.ok <==>
            src in s.files && dst != [] && dst !in s.dirs && Parent(dst) in s.dirs &&
            !Denied(env, dst) && !Denied(env, src))
      && e.store.dirs == s.dirs
      && (e.ok ==>
            && dst in e.store.files && (src != dst ==> src !in e.store.files)
            && (forall p :: p != src && p != dst ==> (p in e.store.files <==> p in s.files)))
      && (!e.ok ==>
            && s.files <= e.store.files <= s.files + {dst}
            && (dst in e.store.files && dst !in s.files ==> Denied(env, src)))
  {
  }

  /** A move keeps the store a tree, whether it succeeds or not. */
  lemma MoveKeepsValid(s: Store, env: Env, src: Path, dst: Path)
    requires Valid(s)
    ensures Valid(Move(s, env, src, dst).store)
  {
  }

  /** A copy succeeds exactly when the source is a file other than the target
      and the target can be written in an existing directory. A successful
      copy adds the target as a file and changes nothing else; a failed one
      changes nothing. */
  lemma Copy2Result(s: Store, env: Env, src: Path, dst: Path)
    ensures var e := Copy2(s, env, src, dst);
      && (e.ok <==>
            src in s.files && src != dst && dst != [] && dst !in s.dirs && Parent(dst) in s.dirs && !Denied(env, dst))
      && (e.ok ==> e.store == Store(s.files + {dst}, s.dirs))
      && (!e.ok ==> e.store == s)
  {
  }

  /** A copy keeps the store a tree, whether it succeeds or not. */
  lemma Copy2KeepsValid(s: Store, env: Env, src: Path, dst: Path)
    requires Valid(s)
    ensures Valid(Copy2(s, env, src, dst).store)
  {
  }

  /** The filesystem as a mutable object: the organizer's calls change it in place. */
  class Disk {
    var files: set<Path>
    var dirs: set<Path>
    const env: Env

    constructor(s: Store, env: Env)
      ensures State() == s && this.env == env
    {
      files := s.files;
      dirs := s.dirs;
      this.env := env;
    }

    function State(): Store
      reads this
    {
      Store(files, dirs)
    }

    /** `Path.exists()` on the current state. */
    function PathExists(p: Path): bool
      reads this
    {
      p in files || p in dirs
    }

    /** `Path.is_dir()` on the current state. */
    function IsDir(p: Path): bool
      reads this
    {
      p in dirs
    }

    /** `d.mkdir(parents=True, exist_ok=True)`; `ok` is false where it raises. */
    method MakeDirs(d: Path) returns (ok: bool)
      modifies this
      ensures State() == Mkdir(old(State()), env, d).store
      ensures ok == Mkdir(old(State()), env, d).ok
    {
      var e := Mkdir(State(), env, d);
      files, dirs := e.store.files, e.store.dirs;
      ok := e.ok;
    }

    /** `shutil.move(src, dst)`; `ok` is false where it raises. */
    method MoveFile(src: Path, dst: Path) returns (ok: bool)
      modifies this
      ensures State() == Move(old(State()), env, src, dst).store
      ensures ok == Move(old(State()), env, src, dst).ok
    {
      var e := Move(State(), env, src, dst);
      files, dirs := e.store.files, e.store.dirs;
      ok := e.ok;
    }

    /** `shutil.copy2(src, dst)`; `ok` is false where it raises. */
    method CopyFile(src: Path, dst: Path) returns (ok: bool)
      modifies this
      ensures State() == Copy2(old(State()), env, src, dst).store
      ensures ok == Copy2(old(State()), env, src, dst).ok
    {
      var e := Copy2(State(), env, src, dst);
      files, dirs := e.store.files, e.store.dirs;
      ok := e.ok;
    }
  }
}
