/** `MusicOrganizer.get_destination_path`: where a file goes, from its metadata. */
module Destination {
  import opened Paths
  import opened Sanitize
  import opened Tags

  /** The folder for files without enough metadata. */
  const Unorganized: string := "unorganized"

  /** What stands between the track number and the title. */
  const Separator: string := " - "

  /** The file name of an organized file: optional "NN - ", the sanitized
      title and the original suffix. */
  function TrackFileName(file: Path, m: Metadata): (r: string)
    requires "title" in m
    ensures |r| > 0
  {
    var lead := if "track" in m then m["track"] + Separator else "";
    lead + SanitizeFilename(m["title"]) + Suffix(Name(file))
  }

  /** `get_destination_path(file_path, metadata)` under `destDir`. */
  function DestinationPath(destDir: Path, file: Path, m: Metadata): Path
  {
    if HasCore(m) then
      Join(Join(Join(destDir, SanitizeFilename(m["artist"])), SanitizeFilename(m["album"])), TrackFileName(file, m))
    else
      Join(Join(destDir, Unorganized), Name(file))
  }

  /** `'unorganized' in dest_path.parts`. */
  predicate InUnorganized(p: Path)
  {
    Unorganized in p
  }

  // ---------------------------------------------------------------------
  // Properties
  // ---------------------------------------------------------------------

  /** With artist, album and title the file goes three levels below the
      destination: sanitized artist, sanitized album, then the file name. */
  lemma OrganizedLayout(destDir: Path, file: Path, m: Metadata)
    requires HasCore(m)
    ensures DestinationPath(destDir, file, m) ==
      destDir + [SanitizeFilename(m["artist"]), SanitizeFilename(m["album"]), TrackFileName(file, m)]
  {
    var artist, album, name := SanitizeFilename(m["artist"]), SanitizeFilename(m["album"]), TrackFileName(file, m);
    JoinThree(destDir, artist, album, name);
  }

  /** Three non-empty components joined one after the other. */
  lemma JoinThree(p: Path, a: string, b: string, c: string)
    requires a != "" && b != "" && c != ""
    ensures Join(Join(Join(p, a), b), c) == p + [a, b, c]
  {
  }

  /** Otherwise it goes, under its own name, into "unorganized" right below the destination. */
  lemma UnorganizedLayout(destDir: Path, file: Path, m: Metadata)
    requires !HasCore(m) && Name(file) != ""
    ensures DestinationPath(destDir, file, m) == destDir + [Unorganized, Name(file)]
    ensures InUnorganized(DestinationPath(destDir, file, m))
  {
    assert (destDir + [Unorganized, Name(file)])[|destDir|] == Unorganized;
  }

  /** The destination always lies strictly below the destination directory. */
  lemma DestinationInside(destDir: Path, file: Path, m: Metadata)
    ensures var d := DestinationPath(destDir, file, m);
      |d| > |destDir| && d[..|destDir|] == destDir
  {
    if HasCore(m) {
      OrganizedLayout(destDir, file, m);
    } else {
      assert Unorganized != "";
    }
  }

  /** A track number leads the file name, followed by `Separator`. */
  lemma TrackLeadsFileName(file: Path, m: Metadata)
    requires "title" in m && "track" in m
    ensures var f := TrackFileName(file, m);
      var lead := m["track"] + Separator;
      |lead| <= |f| && f[..|lead|] == lead
  {
    LeadOfThree(m["track"] + Separator, SanitizeFilename(m["title"]), Suffix(Name(file)));
  }

  /** The first of three concatenated strings is a prefix of the whole. */
  lemma LeadOfThree(a: string, b: string, c: string)
    ensures |a| <= |a + b + c| && (a + b + c)[..|a|] == a
  {
    assert a + b + c == a + (b + c);
  }

  /** A name ending in a dot followed by dot-free text has its last dot there. */
  lemma LastDotOfSuffixed(p: string, x: string)
    requires x != [] && x[0] == '.' && forall k :: 0 < k < |x| ==> x[k] != '.'
    ensures LastDot(p + x) == |p|
  {
    var f := p + x;
    assert f[|p|] == '.';
    assert forall k :: |p| < k < |f| ==> f[k] == x[k - |p|];
  }

  /** An organized file keeps the original file's extension. */
  lemma KeepsExtension(destDir: Path, file: Path, m: Metadata)
    requires HasCore(m) && Suffix(Name(file)) != ""
    ensures Suffix(Name(DestinationPath(destDir, file, m))) == Suffix(Name(file))
  {
    OrganizedLayout(destDir, file, m);
    var x := Suffix(Name(file));
    SuffixShape(Name(file));
    var lead := if "track" in m then m["track"] + Separator else "";
    var p := lead + SanitizeFilename(m["title"]);
    var f := TrackFileName(file, m);
    assert f == p + x;
    LastDotOfSuffixed(p, x);
    assert f[|p|..] == x;
  }

  /** An unorganized file keeps its whole name. */
  lemma UnorganizedKeepsName(destDir: Path, file: Path, m: Metadata)
    requires !HasCore(m) && Name(file) != ""
    ensures Name(DestinationPath(destDir, file, m)) == Name(file)
  {
    UnorganizedLayout(destDir, file, m);
  }

  /** Only the suffix of the source name matters for an organized file, so two
      files with the same metadata and extension share one destination. */
  lemma SameMetadataSameDestination(destDir: Path, f1: Path, f2: Path, m: Metadata)
    requires HasCore(m) && Suffix(Name(f1)) == Suffix(Name(f2))
    ensures DestinationPath(destDir, f1, m) == DestinationPath(destDir, f2, m)
  {
  }

  /** An organized file is counted as unorganized exactly when "unorganized" is
      a component of the destination directory, or the artist folder, album
      folder or file name came out as "unorganized". */
  lemma OrganizedMarking(destDir: Path, file: Path, m: Metadata)
    requires HasCore(m)
    ensures InUnorganized(DestinationPath(destDir, file, m)) <==>
      || InUnorganized(destDir)
      || SanitizeFilename(m["artist"]) == Unorganized
      || SanitizeFilename(m["album"]) == Unorganized
      || TrackFileName(file, m) == Unorganized
  {
    OrganizedLayout(destDir, file, m);
    InThreeMore(destDir, SanitizeFilename(m["artist"]), SanitizeFilename(m["album"]), TrackFileName(file, m), Unorganized);
  }

  /** A component of a path extended by three components is one of the path's or one of the three. */
  lemma InThreeMore(p: Path, a: string, b: string, c: string, x: string)
    ensures x in p + [a, b, c] <==> x in p || x == a || x == b || x == c
  {
    var d := p + [a, b, c];
    assert d[|p|] == a && d[|p| + 1] == b && d[|p| + 2] == c;
    if x in d {
      var i :| 0 <= i < |d| && d[i] == x;
      if i < |p| {
        assert p[i] == d[i];
      }
    }
  }
}
