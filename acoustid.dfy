/** `MusicOrganizer.get_metadata_from_acoustid` and the fallback in
    `organize_file` that uses it when the tags lack artist, album or title.
    The AcoustID lookup and the MusicBrainz query are inputs. */
module AcoustId {
  import opened Wrappers
  import opened Tags

  /** Scores at or below this are not trusted. */
  const Threshold: real := 0.5

  /** One result of `acoustid.match`: score, recording id, title and artist. */
  datatype Candidate = Candidate(score: real, recordingId: string, title: string, artist: string)

  /** What `musicbrainzngs.get_recording_by_id` gives: an error, or the recording
      with its release titles when it has a 'release-list'. */
  datatype Recording = LookupFailed | Found(releases: Option<seq<string>>)

  /** The dictionary returned (or `None`) and whether 'metadata_found' went up. */
  datatype Identified = Identified(meta: Option<Metadata>, counted: bool)

  /** An API key that is neither `None` nor the empty string. */
  predicate HasKey(key: Option<string>)
  {
    key.Some? && key.value != ""
  }

  /** The position of the first candidate scored above the threshold, or `|cs|`. */
  function FirstConfident(cs: seq<Candidate>): (i: nat)
    decreases |cs|
    ensures i <= |cs|
    ensures i < |cs| ==> cs[i].score > Threshold
    ensures forall j :: 0 <= j < i ==> cs[j].score <= Threshold
  {
    if cs == [] then 0
    else if cs[0].score > Threshold then 0
    else 1 + FirstConfident(cs[1..])
  }

  /** What one confident candidate yields: title and artist from AcoustID and,
      when MusicBrainz knows releases, the first release title as album. */
  function FromCandidate(c: Candidate, rec: Recording): Identified
  {
    var base := map["title" := c.title, "artist" := c.artist];
    match rec
    case LookupFailed => Identified(Some(base), false)
    case Found(releases) =>
      if releases.Some? && releases.value != [] then Identified(Some(base["album" := releases.value[0]]), true)
      else Identified(Some(base), true)
  }

  /** `get_metadata_from_acoustid`; `matches` is `None` when `acoustid.match`
      raised, and `recording` answers the MusicBrainz query for a recording id. */
  function Identify(key: Option<string>, matches: Option<seq<Candidate>>, recording: string -> Recording): Identified
  {
    if !HasKey(key) || matches.None? then Identified(None, false)
    else
      var cs := matches.value;
      var i := FirstConfident(cs);
      if i == |cs| then Identified(None, false)
      else FromCandidate(cs[i], recording(cs[i].recordingId))
  }

  /** Lines 326-331 of organize_file: the tags alone when they have artist, album
      and title; otherwise the AcoustID dictionary, when there is one, laid over
      them (`dict.update`). The flag says whether 'metadata_found' went up. */
  function Gather(tagMeta: Metadata, key: Option<string>, matches: Option<seq<Candidate>>,
                  recording: string -> Recording): (Metadata, bool)
  {
    if HasCore(tagMeta) then (tagMeta, false)
    else
      var id := Identify(key, matches, recording);
      if id.meta.Some? && id.meta.value != map[] then (tagMeta + id.meta.value, id.counted)
      else (tagMeta, id.counted)
  }

  // ---------------------------------------------------------------------
  // Properties
  // ---------------------------------------------------------------------

  /** The first candidate above the threshold decides; those before it are ignored. */
  lemma {:induction false} FirstConfidentIsUnique(cs: seq<Candidate>, i: nat)
    requires i <= |cs|
    requires i < |cs| ==> cs[i].score > Threshold
    requires forall j :: 0 <= j < i ==> cs[j].score <= Threshold
    ensures FirstConfident(cs) == i
  {
    if cs != [] && i > 0 {
      FirstConfidentIsUnique(cs[1..], i - 1);
    }
  }

  /** There is a result exactly when a key is set, matching worked and some
      candidate scored above 0.5; it then always has title and artist from the
      first such candidate. */
  lemma IdentifyResult(key: Option<string>, matches: Option<seq<Candidate>>, recording: string -> Recording)
    ensures var id := Identify(key, matches, recording);
      && (id.meta.Some? <==>
            HasKey(key) && matches.Some? && exists j :: 0 <= j < |matches.value| && matches.value[j].score > Threshold)
      && (id.meta.Some? ==>
            var c := matches.value[FirstConfident(matches.value)];
            && id.meta.value.Keys <= {"title", "artist", "album"}
            && "title" in id.meta.value && id.meta.value["title"] == c.title
            && "artist" in id.meta.value && id.meta.value["artist"] == c.artist)
  {
    if HasKey(key) && matches.Some? {
      var cs := matches.value;
      var i := FirstConfident(cs);
      if i < |cs| {
        assert cs[i].score > Threshold;
      }
    }
  }

  /** 'metadata_found' goes up exactly when MusicBrainz answered for the chosen candidate. */
  lemma CountedOnlyOnLookup(key: Option<string>, matches: Option<seq<Candidate>>, recording: string -> Recording)
    ensures var id := Identify(key, matches, recording);
      id.counted <==>
        id.meta.Some? && recording(matches.value[FirstConfident(matches.value)].recordingId).Found?
  {
  }

  /** Without an API key nothing is looked up and nothing is counted. */
  lemma NoKeyNoLookup(key: Option<string>, matches: Option<seq<Candidate>>, recording: string -> Recording)
    requires key.None? || key == Some("")
    ensures Identify(key, matches, recording) == Identified(None, false)
  {
  }

  /** The album is the first release title when MusicBrainz lists releases;
      a failed query gives exactly title and artist. */
  lemma AlbumFromFirstRelease(c: Candidate, rec: Recording)
    ensures var id := FromCandidate(c, rec);
      && ("album" in id.meta.value <==> rec.Found? && rec.releases.Some? && rec.releases.value != [])
      && ("album" in id.meta.value ==> id.meta.value["album"] == rec.releases.value[0])
      && (rec.LookupFailed? ==> id.meta.value == map["title" := c.title, "artist" := c.artist])
  {
  }

  /** Tags with artist, album and title are taken as they are and AcoustID is not asked. */
  lemma CompleteTagsAreKept(tagMeta: Metadata, key: Option<string>, matches: Option<seq<Candidate>>,
                            recording: string -> Recording)
    requires HasCore(tagMeta)
    ensures Gather(tagMeta, key, matches, recording) == (tagMeta, false)
  {
  }

  /** When AcoustID answers, its title and artist replace the tags' and the
      tags' other keys (album without a release, track) survive. */
  lemma FallbackOverridesTags(tagMeta: Metadata, key: Option<string>, matches: Option<seq<Candidate>>,
                              recording: string -> Recording)
    requires !HasCore(tagMeta)
    requires Identify(key, matches, recording).meta.Some?
    ensures var (m, _) := Gather(tagMeta, key, matches, recording);
      var id := Identify(key, matches, recording).meta.value;
      && m.Keys == tagMeta.Keys + id.Keys
      && (forall k :: k in id ==> m[k] == id[k])
      && (forall k :: k in tagMeta && k !in id ==> m[k] == tagMeta[k])
  {
    IdentifyResult(key, matches, recording);
  }

  /** A file whose tags held no artist, album or title and that AcoustID identified
      with a release ends up with artist, album and title. */
  lemma FallbackCompletes(tagMeta: Metadata, key: Option<string>, matches: Option<seq<Candidate>>,
                          recording: string -> Recording)
    requires !HasCore(tagMeta)
    requires Identify(key, matches, recording).counted
    requires var c := matches.value[FirstConfident(matches.value)];
      var rec := recording(c.recordingId);
      rec.Found? && rec.releases.Some? && rec.releases.value != []
    ensures HasCore(Gather(tagMeta, key, matches, recording).0)
  {
    IdentifyResult(key, matches, recording);
  }
}
