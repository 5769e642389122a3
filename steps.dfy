/** What each of `MusicOrganizer`'s stateful operations does, as functions from
    the state before to the state after: album art, one file, the directory
    walk and the whole run. The class in module Organizer is proved to follow
    these, and the properties the organizer promises are proved about them. */
module Steps {
  import opened Wrappers
  import opened Paths
  import opened Tags
  import opened AcoustId
  import opened Destination
  import opened FileSystem

  const AudioExtensions: set<string> := {".mp3", ".flac", ".m4a", ".mp4", ".ogg", ".opus", ".wma", ".wav", ".aac"}
  const ImageExtensions: set<string> := {".jpg", ".jpeg", ".png"}

  /** The existing covers looked for, in this order. */
  const CoverExtensions: seq<string> := [".jpg", ".jpeg", ".png"]
  const CoverStem: string := "cover"

  /** The counters of `self.stats`. */
  datatype Stats = Stats(totalFiles: nat, organized: nat, unorganized: nat, metadataFound: nat,
                         errors: nat, skipped: nat, albumArtCopied: nat)
  {
    /** Files that were skipped, organized or sent to "unorganized". */
    function Handled(): nat
    {
      skipped + organized + unorganized
    }
  }

  const ZeroStats: Stats := Stats(0, 0, 0, 0, 0, 0, 0)

  /** The constructor's arguments, paths already resolved. */
  datatype Config = Config(sourceDir: Path, destDir: Path, dryRun: bool, apiKey: Option<string>, moveFiles: bool)

  /** What the libraries answer: mutagen for a file, `acoustid.match` for a
      file and MusicBrainz for a recording id. */
  datatype Services = Services(audio: Path -> Option<AudioFile>, matches: Path -> Option<seq<Candidate>>,
                               recording: string -> Recording)

  /** Everything an operation may change: the counters, the set of source
      directories whose album art was handled, and the filesystem. */
  datatype State = State(stats: Stats, artDirs: set<Path>, store: Store)

  // ---------------------------------------------------------------------
  // copy_album_art
  // ---------------------------------------------------------------------

  /** The position of the first `cover<ext>` that exists in `dir`, or `|exts|`. */
  function FirstCover(s: Store, dir: Path, exts: seq<string>): (i: nat)
    decreases |exts|
    ensures i <= |exts|
    ensures i < |exts| ==> Exists(s, Join(dir, CoverStem + exts[i]))
    ensures forall j :: 0 <= j < i ==> !Exists(s, Join(dir, CoverStem + exts[j]))
  {
    if exts == [] then 0
    else if Exists(s, Join(dir, CoverStem + exts[0])) then 0
    else 1 + FirstCover(s, dir, exts[1..])
  }

  /** `item.is_file() and item.suffix.lower() in IMAGE_EXTENSIONS`. */
  predicate IsImage(s: Store, dir: Path, name: string)
  {
    Join(dir, name) in s.files && LowerAscii(Suffix(name)) in ImageExtensions
  }

  /** The images among the listed names, in listing order. */
  function Images(s: Store, dir: Path, names: seq<string>): seq<Path>
  {
    if names == [] then []
    else
      var last := names[|names| - 1];
      Images(s, dir, names[..|names| - 1]) + (if IsImage(s, dir, last) then [Join(dir, last)] else [])
  }

  /** `cover` with the image's lowercased suffix, `.jpeg` written `.jpg`. */
  function CoverName(image: Path): string
  {
    var ext := LowerAscii(Suffix(Name(image)));
    CoverStem + (if ext == ".jpeg" then ".jpg" else ext)
  }

  /** `copy_album_art(srcDir, albumDir)`. */
  function ArtStep(cfg: Config, env: Env, st: State, srcDir: Path, albumDir: Path): State
  {
    var key := env.canon(srcDir);
    if key in st.artDirs then st
    else
      var marked := st.(artDirs := st.artDirs + {key});
      if FirstCover(st.store, albumDir, CoverExtensions) < |CoverExtensions| then marked
      else if srcDir !in st.store.dirs then marked
      else
        var images := Images(st.store, srcDir, env.listing(srcDir));
        if images == [] || cfg.dryRun then marked
        else
          var copied := Copy2(st.store, env, images[0], Join(albumDir, CoverName(images[0])));
          if !copied.ok then marked
          else marked.(store := copied.store, stats := marked.stats.(albumArtCopied := st.stats.albumArtCopied + 1))
  }

  // ---------------------------------------------------------------------
  // organize_file
  // ---------------------------------------------------------------------

  /** Lines 349-353: the counter a file that is not skipped goes to. */
  function Classify(s: Stats, dest: Path): Stats
  {
    if InUnorganized(dest) then s.(unorganized := s.unorganized + 1) else s.(organized := s.organized + 1)
  }

  /** Album art follows a file only into an organized album folder. */
  function ArtHook(cfg: Config, env: Env, st: State, file: Path, dest: Path): State
  {
    if InUnorganized(dest) then st else ArtStep(cfg, env, st, Parent(file), Parent(dest))
  }

  function AddError(st: State): State
  {
    st.(stats := st.stats.(errors := st.stats.errors + 1))
  }

  function AddSkip(st: State): State
  {
    st.(stats := st.stats.(skipped := st.stats.skipped + 1))
  }

  /** From line 334 on: skip, classify, then act on `dest`. Nothing can raise
      before the directory is created, so errors come from `mkdir`, `move` and
      `copy2`, and what they did before raising stays done. */
  function Place(cfg: Config, env: Env, st: State, file: Path, dest: Path): (State, bool)
  {
    if env.canon(file) == env.canon(dest) then (AddSkip(st), true)
    else if !cfg.moveFiles && Exists(st.store, dest) then (AddSkip(st), true)
    else
      var counted := st.(stats := Classify(st.stats, dest));
      if cfg.dryRun then (ArtHook(cfg, env, counted, file, dest), true)
      else
        var made := Mkdir(counted.store, env, Parent(dest));
        if !made.ok then (AddError(counted.(store := made.store)), false)
        else
          var moved := if cfg.moveFiles then Move(made.store, env, file, dest) else Copy2(made.store, env, file, dest);
          if !moved.ok then (AddError(counted.(store := moved.store)), false)
          else (ArtHook(cfg, env, counted.(store := moved.store), file, dest), true)
  }

  /** The metadata a file is placed by, and whether 'metadata_found' went up. */
  function MetadataFor(cfg: Config, svc: Services, file: Path): (Metadata, bool)
  {
    Gather(MetadataOf(svc.audio(file)), cfg.apiKey, svc.matches(file), svc.recording)
  }

  /** 'metadata_found' goes up when the MusicBrainz lookup answered. */
  function AddFound(st: State, found: bool): State
  {
    if found then st.(stats := st.stats.(metadataFound := st.stats.metadataFound + 1)) else st
  }

  /** `organize_file(file)`: the new state and the value it returns. */
  function OrganizeStep(cfg: Config, env: Env, svc: Services, st: State, file: Path): (State, bool)
  {
    var mf := MetadataFor(cfg, svc, file);
    Place(cfg, env, AddFound(st, mf.1), file, DestinationPath(cfg.destDir, file, mf.0))
  }

  // ---------------------------------------------------------------------
  // find_audio_files and organize
  // ---------------------------------------------------------------------

  /** One `(root, dirs, files)` triple of `os.walk`, without `dirs`. */
  datatype WalkEntry = WalkEntry(root: Path, files: seq<string>)

  predicate IsAudio(name: string)
  {
    LowerAscii(Suffix(name)) in AudioExtensions
  }

  /** The audio files of one directory, in listing order. */
  function AudioIn(root: Path, names: seq<string>): seq<Path>
  {
    if names == [] then []
    else
      var last := names[|names| - 1];
      AudioIn(root, names[..|names| - 1]) + (if IsAudio(last) then [Join(root, last)] else [])
  }

  /** `find_audio_files()` over the walk, in walk order. */
  function AudioFiles(walk: seq<WalkEntry>): seq<Path>
  {
    if walk == [] then []
    else
      var last := walk[|walk| - 1];
      AudioFiles(walk[..|walk| - 1]) + AudioIn(last.root, last.files)
  }

  /** The loop of `organize`: the files one after the other. */
  function OrganizeAll(cfg: Config, env: Env, svc: Services, st: State, files: seq<Path>): State
  {
    if files == [] then st
    else OrganizeStep(cfg, env, svc, OrganizeAll(cfg, env, svc, st, files[..|files| - 1]), files[|files| - 1]).0
  }

  /** How `organize()` ends: the source is missing, creating the destination
      raised (the exception leaves `organize`, keeping the directories it had
      made), or every file was processed. */
  datatype Outcome = SourceMissing | DestinationFailed | Completed

  /** `organize()`, given the listing `os.walk` produces of the source. */
  function RunAll(cfg: Config, env: Env, svc: Services, st: State, walk: seq<WalkEntry>): (Outcome, State)
  {
    if !Exists(st.store, cfg.sourceDir) then (SourceMissing, st)
    else
      var made := if cfg.dryRun then Effect(st.store, true) else Mkdir(st.store, env, cfg.destDir);
      if !made.ok then (DestinationFailed, st.(store := made.store))
      else
        var files := AudioFiles(walk);
        var st1 := st.(store := made.store, stats := st.stats.(totalFiles := |files|));
        (Completed, OrganizeAll(cfg, env, svc, st1, files))
  }

  // ---------------------------------------------------------------------
  // Properties of copy_album_art
  // ---------------------------------------------------------------------

  /** A component added by `Join` is the name, and the path it was added to the parent. */
  lemma NameOfJoin(dir: Path, n: string)
    requires n != ""
    ensures Name(Join(dir, n)) == n && Parent(Join(dir, n)) == dir
  {
  }

  /** Every image found comes from one of the listed names, and each listed
      name that is an image file is found: the scan neither invents nor drops
      an image. */
  lemma {:induction false} ImagesAreListedImages(s: Store, dir: Path, names: seq<string>)
    ensures forall p :: p in Images(s, dir, names) ==>
      exists k :: 0 <= k < |names| && IsImage(s, dir, names[k]) && p == Join(dir, names[k])
    ensures forall k :: 0 <= k < |names| && IsImage(s, dir, names[k]) ==> Join(dir, names[k]) in Images(s, dir, names)
  {
    if names != [] {
      var init := names[..|names| - 1];
      var last := names[|names| - 1];
      ImagesAreListedImages(s, dir, init);
      forall p | p in Images(s, dir, names)
        ensures exists k :: 0 <= k < |names| && IsImage(s, dir, names[k]) && p == Join(dir, names[k])
      {
        if p in Images(s, dir, init) {
          var k :| 0 <= k < |init| && IsImage(s, dir, init[k]) && p == Join(dir, init[k]);
          assert names[k] == init[k];
        } else {
          assert IsImage(s, dir, last) && p == Join(dir, last);
        }
      }
      forall k | 0 <= k < |names| && IsImage(s, dir, names[k])
        ensures Join(dir, names[k]) in Images(s, dir, names)
      {
        if k < |names| - 1 {
          assert names[k] == init[k];
        }
      }
    }
  }

  /** What every image found is: an existing file directly in the scanned
      directory whose lower-cased suffix is an image extension. */
  lemma ImagesAreImageFiles(s: Store, dir: Path, names: seq<string>)
    ensures forall p :: p in Images(s, dir, names) ==>
      p in s.files && Parent(p) == dir && LowerAscii(Suffix(Name(p))) in ImageExtensions
  {
    ImagesAreListedImages(s, dir, names);
    forall p | p in Images(s, dir, names)
      ensures p in s.files && Parent(p) == dir && LowerAscii(Suffix(Name(p))) in ImageExtensions
    {
      var k :| 0 <= k < |names| && IsImage(s, dir, names[k]) && p == Join(dir, names[k]);
      assert names[k] != "" by {
        assert LowerAscii(Suffix("")) == "";
      }
      NameOfJoin(dir, names[k]);
    }
  }

  /** The cover is always written as `cover.jpg` or `cover.png`. */
  lemma CoverNameIsKnown(image: Path)
    requires LowerAscii(Suffix(Name(image))) in ImageExtensions
    ensures CoverName(image) == CoverStem + CoverExtensions[0] || CoverName(image) == CoverStem + CoverExtensions[2]
  {
  }

  /** The source directory is marked whatever happens; a directory already
      marked changes nothing; only the album-art counter can move, by one; and
      files are only ever added. */
  lemma ArtBookkeeping(cfg: Config, env: Env, st: State, srcDir: Path, albumDir: Path)
    ensures var r := ArtStep(cfg, env, st, srcDir, albumDir);
      && r.artDirs == st.artDirs + {env.canon(srcDir)}
      && (env.canon(srcDir) in st.artDirs ==> r == st)
      && (r.stats == st.stats || r.stats == st.stats.(albumArtCopied := st.stats.albumArtCopied + 1))
      && r.store.dirs == st.store.dirs && st.store.files <= r.store.files
  {
  }

  /** Album art is handled once per resolved source directory: a second call
      for the same directory, whatever the album folder, changes nothing. */
  lemma ArtOncePerDirectory(cfg: Config, env: Env, st: State, src1: Path, album1: Path, src2: Path, album2: Path)
    requires env.canon(src1) == env.canon(src2)
    ensures var r := ArtStep(cfg, env, st, src1, album1);
      ArtStep(cfg, env, r, src2, album2) == r
  {
    ArtBookkeeping(cfg, env, st, src1, album1);
  }

  /** When the counter goes up, it is not a dry run, no cover of any of the
      three kinds was in the album folder, and exactly one new file appeared
      there: the cover named after the first image the scan found, which is
      `cover.jpg` or `cover.png`. Otherwise the filesystem is as it was. */
  lemma ArtCopiesNewCover(cfg: Config, env: Env, st: State, srcDir: Path, albumDir: Path)
    ensures var r := ArtStep(cfg, env, st, srcDir, albumDir);
      var images := Images(st.store, srcDir, env.listing(srcDir));
      && (r.stats == st.stats ==> r.store == st.store)
      && (r.stats != st.stats ==>
            && !cfg.dryRun
            && (forall j :: 0 <= j < |CoverExtensions| ==> !Exists(st.store, Join(albumDir, CoverStem + CoverExtensions[j])))
            && images != []
            && r.store == Store(st.store.files + {Join(albumDir, CoverName(images[0]))}, st.store.dirs)
            && (CoverName(images[0]) == CoverStem + CoverExtensions[0] || CoverName(images[0]) == CoverStem + CoverExtensions[2]))
  {
    var r := ArtStep(cfg, env, st, srcDir, albumDir);
    if r.stats != st.stats {
      var images := Images(st.store, srcDir, env.listing(srcDir));
      ImagesAreImageFiles(st.store, srcDir, env.listing(srcDir));
      assert images[0] in images;
      CoverNameIsKnown(images[0]);
    }
  }

  /** A dry run copies no album art and counts none. */
  lemma ArtDryRun(cfg: Config, env: Env, st: State, srcDir: Path, albumDir: Path)
    requires cfg.dryRun
    ensures var r := ArtStep(cfg, env, st, srcDir, albumDir);
      r.store == st.store && r.stats == st.stats
  {
  }

  /** Listing a source that is not a directory fails, and nothing is copied or counted. */
  lemma ArtNeedsSourceDir(cfg: Config, env: Env, st: State, srcDir: Path, albumDir: Path)
    requires srcDir !in st.store.dirs
    ensures var r := ArtStep(cfg, env, st, srcDir, albumDir);
      r.store == st.store && r.stats == st.stats
  {
  }

  /** An album folder that already has a cover is left alone. */
  lemma ArtKeepsExistingCover(cfg: Config, env: Env, st: State, srcDir: Path, albumDir: Path, j: nat)
    requires j < |CoverExtensions| && Exists(st.store, Join(albumDir, CoverStem + CoverExtensions[j]))
    ensures var r := ArtStep(cfg, env, st, srcDir, albumDir);
      r.store == st.store && r.stats == st.stats
  {
    var i := FirstCover(st.store, albumDir, CoverExtensions);
    if i == |CoverExtensions| {
      assert false;
    }
  }

  /** Copying album art keeps the filesystem a tree. */
  lemma ArtKeepsValid(cfg: Config, env: Env, st: State, srcDir: Path, albumDir: Path)
    requires Valid(st.store)
    ensures Valid(ArtStep(cfg, env, st, srcDir, albumDir).store)
  {
    var r := ArtStep(cfg, env, st, srcDir, albumDir);
    if r.store != st.store {
      var images := Images(st.store, srcDir, env.listing(srcDir));
      Copy2KeepsValid(st.store, env, images[0], Join(albumDir, CoverName(images[0])));
    }
  }

  // ---------------------------------------------------------------------
  // Properties of organize_file
  // ---------------------------------------------------------------------

  /** A file already at its destination, or (when copying) a destination that
      exists, is counted as skipped, reported as success, and nothing else changes. */
  lemma PlaceSkips(cfg: Config, env: Env, st: State, file: Path, dest: Path)
    requires env.canon(file) == env.canon(dest) || (!cfg.moveFiles && Exists(st.store, dest))
    ensures Place(cfg, env, st, file, dest) == (AddSkip(st), true)
  {
  }

  /** Every call is counted once, as skipped, organized or unorganized; the
      error counter goes up exactly when the call returns false. */
  lemma PlaceAccounting(cfg: Config, env: Env, st: State, file: Path, dest: Path)
    ensures var (r, ok) := Place(cfg, env, st, file, dest);
      && r.stats.Handled() == st.stats.Handled() + 1
      && r.stats.errors == st.stats.errors + (if ok then 0 else 1)
      && r.stats.totalFiles == st.stats.totalFiles
      && r.stats.metadataFound == st.stats.metadataFound
      && st.stats.albumArtCopied <= r.stats.albumArtCopied <= st.stats.albumArtCopied + 1
      && st.artDirs <= r.artDirs
  {
    var (r, ok) := Place(cfg, env, st, file, dest);
    if env.canon(file) != env.canon(dest) && (cfg.moveFiles || !Exists(st.store, dest)) {
      var counted := st.(stats := Classify(st.stats, dest));
      var made := Mkdir(counted.store, env, Parent(dest));
      if cfg.dryRun {
        ArtBookkeeping(cfg, env, counted, Parent(file), Parent(dest));
      } else if made.ok && ok {
        var moved := if cfg.moveFiles then Move(made.store, env, file, dest) else Copy2(made.store, env, file, dest);
        ArtBookkeeping(cfg, env, counted.(store := moved.store), Parent(file), Parent(dest));
      }
    }
  }

  /** A file that is not skipped is counted as organized or unorganized by
      whether "unorganized" is a component of its destination, before anything
      is moved, so a failed move or copy still leaves that count raised. */
  lemma PlaceClassifies(cfg: Config, env: Env, st: State, file: Path, dest: Path)
    requires env.canon(file) != env.canon(dest) && (cfg.moveFiles || !Exists(st.store, dest))
    ensures var (r, ok) := Place(cfg, env, st, file, dest);
      && r.stats.skipped == st.stats.skipped
      && r.stats.organized == st.stats.organized + (if InUnorganized(dest) then 0 else 1)
      && r.stats.unorganized == st.stats.unorganized + (if InUnorganized(dest) then 1 else 0)
  {
    var (r, ok) := Place(cfg, env, st, file, dest);
    var counted := st.(stats := Classify(st.stats, dest));
    var made := Mkdir(counted.store, env, Parent(dest));
    if cfg.dryRun {
      ArtBookkeeping(cfg, env, counted, Parent(file), Parent(dest));
    } else if made.ok && ok {
      var moved := if cfg.moveFiles then Move(made.store, env, file, dest) else Copy2(made.store, env, file, dest);
      ArtBookkeeping(cfg, env, counted.(store := moved.store), Parent(file), Parent(dest));
    }
  }

  /** A dry run changes no file or directory, records no error and copies no art. */
  lemma PlaceDryRun(cfg: Config, env: Env, st: State, file: Path, dest: Path)
    requires cfg.dryRun
    ensures var (r, ok) := Place(cfg, env, st, file, dest);
      && ok && r.store == st.store
      && r.stats.errors == st.stats.errors && r.stats.albumArtCopied == st.stats.albumArtCopied
  {
    if env.canon(file) != env.canon(dest) && (cfg.moveFiles || !Exists(st.store, dest)) {
      var counted := st.(stats := Classify(st.stats, dest));
      ArtBookkeeping(cfg, env, counted, Parent(file), Parent(dest));
      ArtDryRun(cfg, env, counted, Parent(file), Parent(dest));
    }
  }

  /** A real run that succeeds without skipping leaves a file at the destination
      and, when moving, none at the source (unless the source was itself named
      like a cover, which album art may then write again). */
  lemma PlaceDelivers(cfg: Config, env: Env, st: State, file: Path, dest: Path)
    requires !cfg.dryRun && env.canon(file) != env.canon(dest) && (cfg.moveFiles || !Exists(st.store, dest))
    requires Place(cfg, env, st, file, dest).1
    ensures var r := Place(cfg, env, st, file, dest).0;
      && dest in r.store.files
      && ((cfg.moveFiles && Name(file) != CoverStem + CoverExtensions[0] && Name(file) != CoverStem + CoverExtensions[2])
            ==> file !in r.store.files)
  {
    var counted := st.(stats := Classify(st.stats, dest));
    var made := Mkdir(counted.store, env, Parent(dest)).store;
    var moved := (if cfg.moveFiles then Move(made, env, file, dest) else Copy2(made, env, file, dest)).store;
    var placed := counted.(store := moved);
    assert dest in moved.files;
    assert cfg.moveFiles ==> file !in moved.files;
    if !InUnorganized(dest) {
      ArtBookkeeping(cfg, env, placed, Parent(file), Parent(dest));
      ArtCopiesNewCover(cfg, env, placed, Parent(file), Parent(dest));
      var r := ArtStep(cfg, env, placed, Parent(file), Parent(dest));
      if cfg.moveFiles && file in r.store.files {
        var c := CoverName(Images(moved, Parent(file), env.listing(Parent(file)))[0]);
        assert file == Join(Parent(dest), c);
        NameOfJoin(Parent(dest), c);
      }
    }
  }

  /** A call that returns false never loses the file it was given: `mkdir`
      raising changes no file, a copy that raises changes nothing, and a move
      that raises at the source leaves a copy at the destination beside it.
      No album art is handled in that case. */
  lemma PlaceFailureKeepsSource(cfg: Config, env: Env, st: State, file: Path, dest: Path)
    requires file in st.store.files
    ensures var (r, ok) := Place(cfg, env, st, file, dest);
      !ok ==>
        && file in r.store.files
        && st.store.files <= r.store.files <= st.store.files + {dest}
        && r.artDirs == st.artDirs
  {
    var (r, ok) := Place(cfg, env, st, file, dest);
    if !ok {
      var counted := st.(stats := Classify(st.stats, dest));
      var made := Mkdir(counted.store, env, Parent(dest));
      MkdirResult(counted.store, env, Parent(dest));
      if made.ok {
        if cfg.moveFiles {
          MoveResult(made.store, env, file, dest);
        } else {
          Copy2Result(made.store, env, file, dest);
        }
      }
    }
  }

  /** Organizing a file keeps the filesystem a tree. */
  lemma PlaceKeepsValid(cfg: Config, env: Env, st: State, file: Path, dest: Path)
    requires Valid(st.store)
    ensures Valid(Place(cfg, env, st, file, dest).0.store)
  {
    if env.canon(file) != env.canon(dest) && (cfg.moveFiles || !Exists(st.store, dest)) {
      var counted := st.(stats := Classify(st.stats, dest));
      if cfg.dryRun {
        ArtKeepsValid(cfg, env, counted, Parent(file), Parent(dest));
      } else {
        var made := Mkdir(counted.store, env, Parent(dest)).store;
        MkdirKeepsValid(counted.store, env, Parent(dest));
        var moved := if cfg.moveFiles then Move(made, env, file, dest) else Copy2(made, env, file, dest);
        if cfg.moveFiles {
          MoveKeepsValid(made, env, file, dest);
        } else {
          Copy2KeepsValid(made, env, file, dest);
        }
        if moved.ok {
          ArtKeepsValid(cfg, env, counted.(store := moved.store), Parent(file), Parent(dest));
        }
      }
    }
  }

  /** One file is counted once; its error, if any, is counted once; and
      'metadata_found' goes up exactly when AcoustID and MusicBrainz identified it. */
  lemma StepAccounting(cfg: Config, env: Env, svc: Services, st: State, file: Path)
    ensures var (r, ok) := OrganizeStep(cfg, env, svc, st, file);
      && r.stats.Handled() == st.stats.Handled() + 1
      && r.stats.errors == st.stats.errors + (if ok then 0 else 1)
      && r.stats.totalFiles == st.stats.totalFiles
      && r.stats.metadataFound == st.stats.metadataFound + (if MetadataFor(cfg, svc, file).1 then 1 else 0)
      && st.artDirs <= r.artDirs
  {
    var mf := MetadataFor(cfg, svc, file);
    PlaceAccounting(cfg, env, AddFound(st, mf.1), file, DestinationPath(cfg.destDir, file, mf.0));
  }

  /** Organizing one file keeps the filesystem a tree. */
  lemma StepKeepsValid(cfg: Config, env: Env, svc: Services, st: State, file: Path)
    requires Valid(st.store)
    ensures Valid(OrganizeStep(cfg, env, svc, st, file).0.store)
  {
    var mf := MetadataFor(cfg, svc, file);
    assert AddFound(st, mf.1).store == st.store;
    PlaceKeepsValid(cfg, env, AddFound(st, mf.1), file, DestinationPath(cfg.destDir, file, mf.0));
  }

  // ---------------------------------------------------------------------
  // Properties of find_audio_files and organize
  // ---------------------------------------------------------------------

  /** The audio files of a directory are exactly its listed names with an audio
      suffix, in that directory. */
  lemma {:induction false} AudioInMembership(root: Path, names: seq<string>)
    ensures forall p :: p in AudioIn(root, names) ==>
      exists k :: 0 <= k < |names| && IsAudio(names[k]) && p == Join(root, names[k])
    ensures forall k :: 0 <= k < |names| && IsAudio(names[k]) ==> Join(root, names[k]) in AudioIn(root, names)
  {
    if names != [] {
      var init := names[..|names| - 1];
      var last := names[|names| - 1];
      AudioInMembership(root, init);
      forall p | p in AudioIn(root, names)
        ensures exists k :: 0 <= k < |names| && IsAudio(names[k]) && p == Join(root, names[k])
      {
        if p in AudioIn(root, init) {
          var k :| 0 <= k < |init| && IsAudio(init[k]) && p == Join(root, init[k]);
          assert names[k] == init[k];
        } else {
          assert IsAudio(names[|names| - 1]) && p == Join(root, names[|names| - 1]);
        }
      }
      forall k | 0 <= k < |names| && IsAudio(names[k])
        ensures Join(root, names[k]) in AudioIn(root, names)
      {
        if k < |names| - 1 {
          assert names[k] == init[k];
        }
      }
    }
  }

  /** A path is found exactly when the walk lists it under some directory and
      its suffix, lowercased, is an audio extension. */
  lemma {:induction false} AudioFilesMembership(walk: seq<WalkEntry>)
    ensures forall p :: p in AudioFiles(walk) ==>
      exists i, k :: 0 <= i < |walk| && 0 <= k < |walk[i].files| && IsAudio(walk[i].files[k]) && p == Join(walk[i].root, walk[i].files[k])
    ensures forall i, k :: 0 <= i < |walk| && 0 <= k < |walk[i].files| && IsAudio(walk[i].files[k]) ==>
      Join(walk[i].root, walk[i].files[k]) in AudioFiles(walk)
  {
    if walk != [] {
      var init := walk[..|walk| - 1];
      var last := walk[|walk| - 1];
      AudioFilesMembership(init);
      AudioInMembership(last.root, last.files);
      forall p | p in AudioFiles(walk)
        ensures exists i, k :: 0 <= i < |walk| && 0 <= k < |walk[i].files| && IsAudio(walk[i].files[k]) && p == Join(walk[i].root, walk[i].files[k])
      {
        if p in AudioFiles(init) {
          var i, k :| 0 <= i < |init| && 0 <= k < |init[i].files| && IsAudio(init[i].files[k]) && p == Join(init[i].root, init[i].files[k]);
          assert walk[i] == init[i];
        } else {
          var k :| 0 <= k < |last.files| && IsAudio(last.files[k]) && p == Join(last.root, last.files[k]);
          assert walk[|walk| - 1] == last;
        }
      }
      forall i, k | 0 <= i < |walk| && 0 <= k < |walk[i].files| && IsAudio(walk[i].files[k])
        ensures Join(walk[i].root, walk[i].files[k]) in AudioFiles(walk)
      {
        if i < |walk| - 1 {
          assert walk[i] == init[i];
        }
      }
    }
  }

  /** Over a list of files: each is counted once, errors and identifications
      at most once each, and a dry run leaves the filesystem and the error
      counter as they were. */
  lemma {:induction false} OrganizeAllAccounting(cfg: Config, env: Env, svc: Services, st: State, files: seq<Path>)
    ensures var r := OrganizeAll(cfg, env, svc, st, files);
      && r.stats.Handled() == st.stats.Handled() + |files|
      && st.stats.errors <= r.stats.errors <= st.stats.errors + |files|
      && st.stats.metadataFound <= r.stats.metadataFound <= st.stats.metadataFound + |files|
      && r.stats.totalFiles == st.stats.totalFiles
      && (cfg.dryRun ==> r.store == st.store && r.stats.errors == st.stats.errors)
  {
    if files != [] {
      var init := files[..|files| - 1];
      var mid := OrganizeAll(cfg, env, svc, st, init);
      OrganizeAllAccounting(cfg, env, svc, st, init);
      StepAccounting(cfg, env, svc, mid, files[|files| - 1]);
      if cfg.dryRun {
        var mf := MetadataFor(cfg, svc, files[|files| - 1]);
        PlaceDryRun(cfg, env, AddFound(mid, mf.1), files[|files| - 1], DestinationPath(cfg.destDir, files[|files| - 1], mf.0));
      }
    }
  }

  /** Organizing any list of files keeps the filesystem a tree. */
  lemma {:induction false} OrganizeAllKeepsValid(cfg: Config, env: Env, svc: Services, st: State, files: seq<Path>)
    requires Valid(st.store)
    ensures Valid(OrganizeAll(cfg, env, svc, st, files).store)
  {
    if files != [] {
      var init := files[..|files| - 1];
      var mid := OrganizeAll(cfg, env, svc, st, init);
      OrganizeAllKeepsValid(cfg, env, svc, st, init);
      StepKeepsValid(cfg, env, svc, mid, files[|files| - 1]);
    }
  }

  /** A completed run from fresh counters has counted every audio file it
      found exactly once as skipped, organized or unorganized, with at most
      one error and one identification per file. */
  lemma RunAccounting(cfg: Config, env: Env, svc: Services, st: State, walk: seq<WalkEntry>)
    requires st.stats == ZeroStats
    ensures var (o, r) := RunAll(cfg, env, svc, st, walk);
      o == Completed ==>
        && r.stats.totalFiles == |AudioFiles(walk)|
        && r.stats.Handled() == r.stats.totalFiles
        && r.stats.errors <= r.stats.totalFiles
        && r.stats.metadataFound <= r.stats.totalFiles
  {
    var (o, r) := RunAll(cfg, env, svc, st, walk);
    if o == Completed {
      var made := if cfg.dryRun then Effect(st.store, true) else Mkdir(st.store, env, cfg.destDir);
      var files := AudioFiles(walk);
      OrganizeAllAccounting(cfg, env, svc, st.(store := made.store, stats := st.stats.(totalFiles := |files|)), files);
    }
  }

  /** A missing source ends the run at once and changes nothing. A destination
      that cannot be created ends it before any file: no counter and no file
      changes, and the only new directories are those above the destination
      that `mkdir` made before raising. A dry run never touches the filesystem. */
  lemma RunOutcome(cfg: Config, env: Env, svc: Services, st: State, walk: seq<WalkEntry>)
    ensures var (o, r) := RunAll(cfg, env, svc, st, walk);
      && (o == SourceMissing <==> !Exists(st.store, cfg.sourceDir))
      && (o == SourceMissing ==> r == st)
      && (o == DestinationFailed ==>
            && !cfg.dryRun
            && r.stats == st.stats && r.artDirs == st.artDirs
            && r.store.files == st.store.files
            && st.store.dirs <= r.store.dirs <= st.store.dirs + Prefixes(cfg.destDir))
      && (cfg.dryRun ==> r.store == st.store)
  {
    var (o, r) := RunAll(cfg, env, svc, st, walk);
    if o == DestinationFailed {
      MkdirResult(st.store, env, cfg.destDir);
    }
    if o == Completed && cfg.dryRun {
      var files := AudioFiles(walk);
      OrganizeAllAccounting(cfg, env, svc, st.(stats := st.stats.(totalFiles := |files|)), files);
    }
  }

  /** A run keeps the filesystem a tree. */
  lemma RunKeepsValid(cfg: Config, env: Env, svc: Services, st: State, walk: seq<WalkEntry>)
    requires Valid(st.store)
    ensures Valid(RunAll(cfg, env, svc, st, walk).1.store)
  {
    var (o, r) := RunAll(cfg, env, svc, st, walk);
    var made := if cfg.dryRun then Effect(st.store, true) else Mkdir(st.store, env, cfg.destDir);
    if !cfg.dryRun {
      MkdirKeepsValid(st.store, env, cfg.destDir);
    }
    if o == Completed {
      var files := AudioFiles(walk);
      OrganizeAllKeepsValid(cfg, env, svc, st.(store := made.store, stats := st.stats.(totalFiles := |files|)), files);
    }
  }
}
