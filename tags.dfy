/** `MusicOrganizer.get_metadata`: reads artist, album, title and track number
    out of the tags mutagen exposes for an audio file. */
module Tags {
  import opened Wrappers

  /** A tag as mutagen's easy interface hands it over: a list of values
      (the usual case) or a single value. Values are already rendered with `str`. */
  datatype TagValue = Text(text: string) | Values(items: seq<string>)

  type Tags = map<string, TagValue>

  /** What `MutagenFile(path, easy=True)` returns for a recognised audio file. */
  datatype AudioFile = AudioFile(tags: Option<Tags>)

  /** The metadata dictionary: keys among "artist", "album", "title", "track". */
  type Metadata = map<string, string>

  /** The three keys both the AcoustID fallback and the destination test for. */
  predicate HasCore(m: Metadata)
  {
    "artist" in m && "album" in m && "title" in m
  }

  /** What one run of a key-lookup loop produces: no key present, the text
      of the first key present, or an error reading that key's value. */
  datatype Field = Absent | Present(text: string) | Unreadable

  const ArtistKeys: seq<string> := ["artist", "albumartist", "TPE1", "TPE2", "©ART", "ARTIST"]
  const AlbumKeys: seq<string> := ["album", "TALB", "©alb", "ALBUM"]
  const TitleKeys: seq<string> := ["title", "TIT2", "©nam", "TITLE"]
  const TrackKeys: seq<string> := ["tracknumber", "TRCK", "trkn", "TRACKNUMBER"]

  /** Width the track number is padded to. */
  const TrackWidth: nat := 2

  /** The position of the first key of `keys` present in `tags`, or `|keys|`. */
  function FirstKeyIndex(tags: Tags, keys: seq<string>): (i: nat)
    decreases |keys|
    ensures i <= |keys|
    ensures i < |keys| ==> keys[i] in tags
    ensures forall j :: 0 <= j < i ==> keys[j] !in tags
  {
    if keys == [] then 0
    else if keys[0] in tags then 0
    else 1 + FirstKeyIndex(tags, keys[1..])
  }

  /** `str(v[0])` for a list, `str(v)` otherwise; `None` where `v[0]` raises
      IndexError on an empty list. */
  function Render(v: TagValue): Option<string>
  {
    match v
    case Text(s) => Some(s)
    case Values(items) => if items == [] then None else Some(items[0])
  }

  /** The outcome of the lookup loop over `keys`. */
  function FieldOf(tags: Tags, keys: seq<string>): Field
  {
    var i := FirstKeyIndex(tags, keys);
    if i == |keys| then Absent
    else match Render(tags[keys[i]])
      case None => Unreadable
      case Some(s) => Present(s)
  }

  /** `n` zeros. */
  function Zeros(n: nat): string
  {
    seq(n, _ => '0')
  }

  predicate IsSign(c: char)
  {
    c == '+' || c == '-'
  }

  /** The leading sign of `s`, if it has one. */
  function SignOf(s: string): string
  {
    if s != [] && IsSign(s[0]) then s[..1] else ""
  }

  /** `s` without its leading sign. */
  function Unsigned(s: string): string
  {
    if s != [] && IsSign(s[0]) then s[1..] else s
  }

  /** `str.zfill(width)`: pads with '0' to `width`, after a leading sign. */
  function ZFill(s: string, width: nat): string
  {
    if |s| >= width then s
    else SignOf(s) + Zeros(width - |s|) + Unsigned(s)
  }

  /** `s.split('/')[0]`: everything before the first slash. */
  function BeforeSlash(s: string): (r: string)
    ensures |r| <= |s| && r == s[..|r|]
    ensures forall i :: 0 <= i < |r| ==> r[i] != '/'
    ensures |r| < |s| ==> s[|r|] == '/'
  {
    if s == [] || s[0] == '/' then ""
    else [s[0]] + BeforeSlash(s[1..])
  }

  /** The track value stored under "track". */
  function TrackNumber(s: string): string
  {
    ZFill(BeforeSlash(s), TrackWidth)
  }

  /** The track lookup: the first present key, normalised. */
  function TrackFieldOf(tags: Tags): Field
  {
    match FieldOf(tags, TrackKeys)
    case Present(s) => Present(TrackNumber(s))
    case other => other
  }

  /** Adds `key` to `m` when the field is present. */
  function Put(m: Metadata, key: string, f: Field): Metadata
  {
    if f.Present? then m[key := f.text] else m
  }

  /** The outcomes of the four lookups, in the order they run. */
  datatype Lookups = Lookups(artist: Field, album: Field, title: Field, track: Field)
  {
    /** One of the lookups raised. */
    predicate Failed()
    {
      artist == Unreadable || album == Unreadable || title == Unreadable || track == Unreadable
    }
  }

  /** The four lookups of a file whose tags are worth reading. */
  function LookupsOf(tags: Tags): Lookups
  {
    Lookups(FieldOf(tags, ArtistKeys), FieldOf(tags, AlbumKeys), FieldOf(tags, TitleKeys), TrackFieldOf(tags))
  }

  /** The dictionary `get_metadata` returns. `None` covers both a file mutagen
      does not recognise and one it fails to open; both give `{}`. Tags that
      are missing or empty give `{}`; so does an error in any lookup, since the
      exception discards what the earlier lookups found. */
  function MetadataOf(audio: Option<AudioFile>): Metadata
  {
    if audio.None? || audio.value.tags.None? || audio.value.tags.value == map[] then map[]
    else
      var l := LookupsOf(audio.value.tags.value);
      if l.Failed() then map[] else Assemble(l)
  }

  /** The dictionary holding the fields that are present, in lookup order. */
  function Assemble(l: Lookups): Metadata
  {
    Put(Put(Put(Put(map[], "artist", l.artist), "album", l.album), "title", l.title), "track", l.track)
  }

  /** Checks the keys in order and stops at the first one present. */
  method PickField(tags: Tags, keys: seq<string>) returns (f: Field)
    ensures f == FieldOf(tags, keys)
  {
    var i := 0;
    while i < |keys|
      invariant 0 <= i <= |keys|
      invariant forall j :: 0 <= j < i ==> keys[j] !in tags
    {
      if keys[i] in tags {
        FirstKeyIsUnique(tags, keys, i);
        match Render(tags[keys[i]])
        case None => return Unreadable;
        case Some(s) => return Present(s);
      }
      i := i + 1;
    }
    FirstKeyIsUnique(tags, keys, |keys|);
    return Absent;
  }

  /** `get_metadata(file_path)`, with the file's contents as `audio`. */
  method GetMetadata(audio: Option<AudioFile>) returns (m: Metadata)
    ensures m == MetadataOf(audio)
  {
    if audio.None? || audio.value.tags.None? || audio.value.tags.value == map[] {
      return map[];
    }
    var tags := audio.value.tags.value;
    ghost var l := LookupsOf(tags);
    assert MetadataOf(audio) == if l.Failed() then map[] else Assemble(l);
    var artist := PickField(tags, ArtistKeys);
    assert artist == l.artist;
    if artist == Unreadable { return map[]; }
    var album := PickField(tags, AlbumKeys);
    assert album == l.album;
    if album == Unreadable { return map[]; }
    var title := PickField(tags, TitleKeys);
    assert title == l.title;
    if title == Unreadable { return map[]; }
    var track := PickField(tags, TrackKeys);
    assert track == FieldOf(tags, TrackKeys);
    if track == Unreadable { return map[]; }
    if track.Present? {
      track := Present(TrackNumber(track.text));
    }
    assert track == l.track;
    m := Assemble(Lookups(artist, album, title, track));
  }

  // ---------------------------------------------------------------------
  // Properties of the lookups
  // ---------------------------------------------------------------------

  /** The first present key is the only index the three facts about it allow. */
  lemma {:induction false} FirstKeyIsUnique(tags: Tags, keys: seq<string>, i: nat)
    requires i <= |keys|
    requires i < |keys| ==> keys[i] in tags
    requires forall j :: 0 <= j < i ==> keys[j] !in tags
    ensures FirstKeyIndex(tags, keys) == i
  {
    if keys != [] && i > 0 {
      FirstKeyIsUnique(tags, keys[1..], i - 1);
    }
  }

  /** The key chosen is the first one of the priority list that the file has. */
  lemma FieldUsesFirstPresentKey(tags: Tags, keys: seq<string>, i: nat)
    requires i < |keys| && keys[i] in tags
    requires forall j :: 0 <= j < i ==> keys[j] !in tags
    ensures FieldOf(tags, keys) == (match Render(tags[keys[i]]) case None => Unreadable case Some(s) => Present(s))
  {
    FirstKeyIsUnique(tags, keys, i);
  }

  /** A field is absent exactly when none of its keys is there. */
  lemma FieldAbsent(tags: Tags, keys: seq<string>)
    ensures FieldOf(tags, keys) == Absent <==> forall j :: 0 <= j < |keys| ==> keys[j] !in tags
  {
    var i := FirstKeyIndex(tags, keys);
    if i < |keys| {
      assert keys[i] in tags;
    }
  }

  /** An "artist" tag wins over "albumartist" and every other artist key. */
  lemma ArtistBeatsAlbumArtist(tags: Tags)
    requires "artist" in tags
    ensures FieldOf(tags, ArtistKeys) == FieldOf(tags, ["artist"])
  {
    FieldUsesFirstPresentKey(tags, ArtistKeys, 0);
    FieldUsesFirstPresentKey(tags, ["artist"], 0);
  }

  /** With no "artist" tag, "albumartist" decides the artist, whatever it holds. */
  lemma AlbumArtistIsFallback(tags: Tags)
    requires "artist" !in tags && "albumartist" in tags
    ensures FieldOf(tags, ArtistKeys) == FieldOf(tags, ["albumartist"])
  {
    FieldUsesFirstPresentKey(tags, ArtistKeys, 1);
    FieldUsesFirstPresentKey(tags, ["albumartist"], 0);
  }

  /** The keys of the result are the fields the file has, and each maps to its lookup's text. */
  lemma MetadataKeys(audio: AudioFile)
    requires audio.tags.Some? && audio.tags.value != map[]
    requires !LookupsOf(audio.tags.value).Failed()
    ensures var m := MetadataOf(Some(audio));
      var l := LookupsOf(audio.tags.value);
      && m.Keys <= {"artist", "album", "title", "track"}
      && ("artist" in m <==> l.artist.Present?) && ("artist" in m ==> m["artist"] == l.artist.text)
      && ("album" in m <==> l.album.Present?) && ("album" in m ==> m["album"] == l.album.text)
      && ("title" in m <==> l.title.Present?) && ("title" in m ==> m["title"] == l.title.text)
      && ("track" in m <==> l.track.Present?) && ("track" in m ==> m["track"] == l.track.text)
  {
    AssembleKeys(LookupsOf(audio.tags.value));
  }

  /** The dictionary built from four lookups holds exactly the present ones. */
  lemma AssembleKeys(l: Lookups)
    ensures var m := Assemble(l);
      && m.Keys <= {"artist", "album", "title", "track"}
      && ("artist" in m <==> l.artist.Present?) && ("artist" in m ==> m["artist"] == l.artist.text)
      && ("album" in m <==> l.album.Present?) && ("album" in m ==> m["album"] == l.album.text)
      && ("title" in m <==> l.title.Present?) && ("title" in m ==> m["title"] == l.title.text)
      && ("track" in m <==> l.track.Present?) && ("track" in m ==> m["track"] == l.track.text)
  {
  }

  /** One value that cannot be read empties the whole result. */
  lemma UnreadableDiscardsAll(audio: AudioFile)
    requires audio.tags.Some? && LookupsOf(audio.tags.value).Failed()
    ensures MetadataOf(Some(audio)) == map[]
  {
  }

  /** A file without tags, or with an empty tag set, gives no metadata. */
  lemma NoTagsNoMetadata(audio: AudioFile)
    requires audio.tags.None? || audio.tags.value == map[]
    ensures MetadataOf(Some(audio)) == map[]
  {
  }

  // ---------------------------------------------------------------------
  // Properties of the track number
  // ---------------------------------------------------------------------

  /** `zfill` keeps the sign in front, puts only zeros between it and the
      digits, and never shortens the string. */
  lemma ZFillShape(s: string, width: nat)
    ensures var r := ZFill(s, width);
      && |r| == (if |s| >= width then |s| else width)
      && SignOf(r) == SignOf(s)
      && Unsigned(r) == Zeros(|r| - |s|) + Unsigned(s)
  {
    var r := ZFill(s, width);
    if |s| < width {
      var z := Zeros(width - |s|);
      if SignOf(s) == "" {
        assert r == z + s;
        assert r[0] == '0';
      } else {
        assert r == s[..1] + (z + s[1..]);
        assert r[0] == s[0] && r[1..] == z + s[1..];
      }
    } else {
      assert Zeros(0) + Unsigned(s) == Unsigned(s);
    }
  }

  /** The padding adds only zeros, so no slash can appear in the track. */
  lemma {:induction false} TrackHasNoSlash(s: string)
    ensures forall i :: 0 <= i < |TrackNumber(s)| ==> TrackNumber(s)[i] != '/'
    ensures |TrackNumber(s)| >= TrackWidth
  {
    var b := BeforeSlash(s);
    var r := TrackNumber(s);
    if |b| < TrackWidth {
      var z := Zeros(TrackWidth - |b|);
      forall i | 0 <= i < |r| ensures r[i] != '/' {
        if SignOf(b) == "" {
          assert r == z + b;
          if i >= |z| { assert r[i] == b[i - |z|]; }
        } else {
          assert r == b[..1] + z + b[1..];
          if i == 0 {
            assert r[i] == b[0];
          }
        }
      }
    }
  }

  /** `"1/10"` becomes `"01"`. */
  lemma TrackOfTotal()
    ensures TrackNumber("1/10") == "01"
  {
    assert BeforeSlash("1/10") == "1" by {
      assert BeforeSlash("/10") == "";
    }
  }

  /** Two digits and more are kept as they are. */
  lemma TrackLongEnough(s: string)
    requires |s| >= TrackWidth && forall i :: 0 <= i < |s| ==> s[i] != '/'
    ensures TrackNumber(s) == s
  {
    var b := BeforeSlash(s);
    if |b| < |s| {
      assert false;
    }
  }
}
