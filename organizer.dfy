/** The class `MusicOrganizer`: its counters and its set of handled album-art
    directories change in place, and so does the filesystem (a `Disk`). Every
    method is proved to do what the matching function of module Steps says. */
module Organizer {
  import opened Wrappers
  import opened Paths
  import opened Tags
  import opened AcoustId
  import opened Destination
  import opened FileSystem
  import opened Steps

  class MusicOrganizer {
    const sourceDir: Path
    const destDir: Path
    const dryRun: bool
    const apiKey: Option<string>
    const moveFiles: bool
    /** The filesystem the organizer works on. */
    const disk: Disk
    /** mutagen, AcoustID and MusicBrainz. */
    const services: Services
    var processedArtDirs: set<Path>
    var stats: Stats

    /** `__init__`: both directories are resolved, counters start at zero. */
    constructor(sourceDir: Path, destDir: Path, dryRun: bool, apiKey: Option<string>, moveFiles: bool,
                disk: Disk, services: Services)
      ensures this.sourceDir == disk.env.canon(sourceDir) && this.destDir == disk.env.canon(destDir)
      ensures this.dryRun == dryRun && this.apiKey == apiKey && this.moveFiles == moveFiles
      ensures this.disk == disk && this.services == services
      ensures processedArtDirs == {} && stats == ZeroStats
    {
      this.sourceDir := disk.env.canon(sourceDir);
      this.destDir := disk.env.canon(destDir);
      this.dryRun := dryRun;
      this.apiKey := apiKey;
      this.moveFiles := moveFiles;
      this.disk := disk;
      this.services := services;
      processedArtDirs := {};
      stats := ZeroStats;
    }

    function Cfg(): Config
    {
      Config(sourceDir, destDir, dryRun, apiKey, moveFiles)
    }

    /** Everything the methods may change. */
    function Snapshot(): State
      reads this, disk
    {
      State(stats, processedArtDirs, disk.State())
    }

    /** `copy_album_art(source_dir, dest_album_dir)`. */
    method CopyAlbumArt(srcDir: Path, albumDir: Path)
      modifies this, disk
      ensures Snapshot() == ArtStep(Cfg(), disk.env, old(Snapshot()), srcDir, albumDir)
    {
      var key := disk.env.canon(srcDir);
      if key in processedArtDirs {
        return;
      }
      processedArtDirs := processedArtDirs + {key};
      var store := disk.State();

      var i := 0;
      var existing := false;
      while i < |CoverExtensions|
        invariant 0 <= i <= |CoverExtensions|
        invariant forall j :: 0 <= j < i ==> !Exists(store, Join(albumDir, CoverStem + CoverExtensions[j]))
      {
        if disk.PathExists(Join(albumDir, CoverStem + CoverExtensions[i])) {
          existing := true;
          break;
        }
        i := i + 1;
      }
      if existing {
        assert i < |CoverExtensions| && Exists(store, Join(albumDir, CoverStem + CoverExtensions[i]));
        return;
      }
      assert FirstCover(store, albumDir, CoverExtensions) == |CoverExtensions|;

      if !disk.IsDir(srcDir) {
        return;
      }
      var images := ListImages(srcDir);
      if images == [] {
        return;
      }

      var image := images[0];
      var ext := LowerAscii(Suffix(Name(image)));
      if ext == ".jpeg" {
        ext := ".jpg";
      }
      var target := Join(albumDir, CoverStem + ext);
      if dryRun {
        return;
      }
      // Both modes copy the image.
      var copied := disk.CopyFile(image, target);
      if copied {
        stats := stats.(albumArtCopied := stats.albumArtCopied + 1);
      }
    }

    /** The scan of `copy_album_art`: the image files directly in `srcDir`, in
        the order `iterdir()` lists them. */
    method ListImages(srcDir: Path) returns (images: seq<Path>)
      ensures images == Images(disk.State(), srcDir, disk.env.listing(srcDir))
    {
      var names := disk.env.listing(srcDir);
      images := [];
      var k := 0;
      while k < |names|
        invariant 0 <= k <= |names|
        invariant images == Images(disk.State(), srcDir, names[..k])
      {
        assert names[..k + 1][..k] == names[..k];
        if Join(srcDir, names[k]) in disk.files && LowerAscii(Suffix(names[k])) in ImageExtensions {
          images := images + [Join(srcDir, names[k])];
        }
        k := k + 1;
      }
      assert names[..k] == names;
    }

    /** `get_metadata_from_acoustid(file_path)`. */
    method GetMetadataFromAcoustId(file: Path) returns (meta: Option<Metadata>)
      modifies this`stats
      ensures var id := Identify(apiKey, services.matches(file), services.recording);
        && meta == id.meta
        && stats == old(stats).(metadataFound := old(stats).metadataFound + (if id.counted then 1 else 0))
    {
      if !HasKey(apiKey) {
        return None;
      }
      var results := services.matches(file);
      if results.None? {
        return None;
      }
      var cs := results.value;
      var i := 0;
      while i < |cs|
        invariant 0 <= i <= |cs|
        invariant forall j :: 0 <= j < i ==> cs[j].score <= Threshold
        invariant stats == old(stats)
      {
        var c := cs[i];
        if c.score > Threshold {
          FirstConfidentIsUnique(cs, i);
          var rec := services.recording(c.recordingId);
          if rec.LookupFailed? {
            return Some(map["title" := c.title, "artist" := c.artist]);
          }
          var metadata := map["title" := c.title, "artist" := c.artist];
          if rec.releases.Some? && rec.releases.value != [] {
            metadata := metadata["album" := rec.releases.value[0]];
          }
          stats := stats.(metadataFound := stats.metadataFound + 1);
          return Some(metadata);
        }
        i := i + 1;
      }
      FirstConfidentIsUnique(cs, |cs|);
      return None;
    }

    /** `organize_file(file_path)`. */
    method OrganizeFile(file: Path) returns (ok: bool)
      modifies this, disk
      ensures (Snapshot(), ok) == OrganizeStep(Cfg(), disk.env, services, old(Snapshot()), file)
    {
      ghost var st0 := Snapshot();
      var meta := GetMetadata(services.audio(file));
      if !HasCore(meta) {
        var found := GetMetadataFromAcoustId(file);
        if found.Some? && found.value != map[] {
          meta := meta + found.value;
        }
      }
      ghost var found := MetadataFor(Cfg(), services, file).1;
      assert meta == MetadataFor(Cfg(), services, file).0;
      ghost var st1 := Snapshot();
      assert st1 == AddFound(st0, found);
      var dest := DestinationPath(destDir, file, meta);
      ghost var expected := Place(Cfg(), disk.env, st1, file, dest);
      assert OrganizeStep(Cfg(), disk.env, services, st0, file) == expected;
      ok := PlaceFile(file, dest);
      assert (Snapshot(), ok) == expected;
    }

    /** Lines 334-387 of `organize_file`, once the destination is known. */
    method PlaceFile(file: Path, dest: Path) returns (ok: bool)
      modifies this, disk
      ensures (Snapshot(), ok) == Place(Cfg(), disk.env, old(Snapshot()), file, dest)
    {
      if disk.env.canon(file) == disk.env.canon(dest) {
        stats := stats.(skipped := stats.skipped + 1);
        return true;
      }
      if !moveFiles && disk.PathExists(dest) {
        stats := stats.(skipped := stats.skipped + 1);
        return true;
      }
      if InUnorganized(dest) {
        stats := stats.(unorganized := stats.unorganized + 1);
      } else {
        stats := stats.(organized := stats.organized + 1);
      }
      if dryRun {
        if !InUnorganized(dest) {
          CopyAlbumArt(Parent(file), Parent(dest));
        }
        return true;
      }
      var made := disk.MakeDirs(Parent(dest));
      if !made {
        stats := stats.(errors := stats.errors + 1);
        return false;
      }
      var moved;
      if moveFiles {
        moved := disk.MoveFile(file, dest);
      } else {
        moved := disk.CopyFile(file, dest);
      }
      if !moved {
        stats := stats.(errors := stats.errors + 1);
        return false;
      }
      if !InUnorganized(dest) {
        CopyAlbumArt(Parent(file), Parent(dest));
      }
      return true;
    }

    /** The inner loop of `find_audio_files()`: the audio files among the
        names listed in one directory, in listing order. */
    method AudioFilesIn(root: Path, names: seq<string>) returns (found: seq<Path>)
      ensures found == AudioIn(root, names)
    {
      found := [];
      var j := 0;
      while j < |names|
        invariant 0 <= j <= |names|
        invariant found == AudioIn(root, names[..j])
      {
        assert names[..j + 1][..j] == names[..j];
        if IsAudio(names[j]) {
          found := found + [Join(root, names[j])];
        }
        j := j + 1;
      }
      assert names[..j] == names;
    }

    /** `find_audio_files()`, given what `os.walk(self.source_dir)` yields. */
    method FindAudioFiles(walk: seq<WalkEntry>) returns (files: seq<Path>)
      ensures files == AudioFiles(walk)
    {
      files := [];
      var i := 0;
      while i < |walk|
        invariant 0 <= i <= |walk|
        invariant files == AudioFiles(walk[..i])
      {
        var found := AudioFilesIn(walk[i].root, walk[i].files);
        assert walk[..i + 1][..i] == walk[..i];
        files := files + found;
        i := i + 1;
      }
      assert walk[..i] == walk;
    }

    /** `organize()`, given what `os.walk(self.source_dir)` yields. */
    method Organize(walk: seq<WalkEntry>) returns (outcome: Outcome)
      modifies this, disk
      ensures (outcome, Snapshot()) == RunAll(Cfg(), disk.env, services, old(Snapshot()), walk)
    {
      if !disk.PathExists(sourceDir) {
        return SourceMissing;
      }
      if !dryRun {
        var made := disk.MakeDirs(destDir);
        if !made {
          return DestinationFailed;
        }
      }
      var files := FindAudioFiles(walk);
      stats := stats.(totalFiles := |files|);
      ghost var start := Snapshot();
      var i := 0;
      while i < |files|
        invariant 0 <= i <= |files|
        invariant Snapshot() == OrganizeAll(Cfg(), disk.env, services, start, files[..i])
      {
        var _ := OrganizeFile(files[i]);
        assert files[..i + 1][..i] == files[..i];
        i := i + 1;
      }
      assert files[..i] == files;
      return Completed;
    }
  }
}
