# Music organizer, modelled in Dafny

The music organizer copies (or moves) audio files from a source tree into an
`Artist/Album/Track` layout below a destination directory. For each audio file it:

- reads artist, album, title and track number from the file's tags;
- falls back to AcoustID fingerprinting and MusicBrainz when the tags lack
  artist, album or title;
- sanitizes every path component;
- sends files without enough metadata to an `unorganized` folder;
- copies one image per source directory as the album's cover.

It keeps counters of what happened. This project models the class
`MusicOrganizer` of `music_organizer.py`: every method from its constructor to
`organize`, with the state it changes.

Layout, one module per file:

- `wrappers.dfy`: `Option`.
- `paths.dfy`: absolute paths as component sequences, `Path.name`,
  `Path.parent`, `Path.suffix` and `str.lower()` on ASCII.
- `sanitize.dfy`: `sanitize_filename`, stage by stage, with its safety, shape,
  fallback and idempotence properties.
- `tags.dfy`: `get_metadata`. The four priority lists of tag keys, `split('/')`
  and `zfill(2)` of the track number, and the `except` that empties the result.
- `acoustid.dfy`: `get_metadata_from_acoustid` and the fallback inside
  `organize_file` that merges its answer over the tags.
- `destination.dfy`: `get_destination_path`.
- `filesystem.dfy`: the part of the filesystem the organizer touches. A tree of
  files and directories, `mkdir(parents=True, exist_ok=True)`, `shutil.move` and
  `shutil.copy2` as functions, and a mutable `Disk` whose methods apply them.
- `steps.dfy`: the state of a run (counters, handled album-art directories,
  filesystem), one pure step function per stateful method, and the properties
  of those steps.
- `organizer.dfy`: the class `MusicOrganizer`. Its fields change in place, and
  every method is proved equal to its step function.

What the outside world answers is passed in as values:

- what mutagen reads from a file;
- what `acoustid.match` returns;
- what MusicBrainz returns for a recording id;
- what `Path.resolve()` gives;
- where writing is refused;
- the order of `iterdir()`;
- what `os.walk` yields.

Three behaviours of the code are worth knowing before reading the lemmas:

- `sanitize_filename` deletes the characters `<>:"/\|?*` and puts nothing in
  their place, so `My/Album:Name*` becomes `MyAlbumName`
  (`Sanitize.ForbiddenLeavesNoGap`).
- Two files with the same metadata and suffix get the same destination. There
  is no collision handling: in copy mode the second one is skipped, and in move
  mode it replaces the first (`Destination.SameMetadataSameDestination`).
- Album art is handled once per resolved source directory, whatever album folder
  the later files of that directory go to. Only the first listed image is
  considered, with no preference among names (`Steps.ArtOncePerDirectory`,
  `Steps.ArtCopiesNewCover`).

## Model

| member | source | states |
|---|---|---|
| Paths.LastDot | music_organizer.py:232 | The index found is -1 or a dot, with no dot after it. |
| Paths.SuffixShape | music_organizer.py:232 | `Path.suffix` is empty or a proper trailing piece of the name: its first character is its only dot, and it is at least two characters long. |
| Paths.SuffixOfLastDot | music_organizer.py:232 | Conversely, a dot that is neither the first nor the last character, with no dot after it, starts `Path.suffix`. |
| Paths.LowerAscii | music_organizer.py:277 | Definition of `str.lower()` on ASCII letters, character by character; what it guarantees is stated by `Paths.LowerAsciiLowers`. |
| Paths.LowerAsciiLowers | music_organizer.py:277 | Lowercasing keeps the length, leaves no ASCII capital, keeps every character that is not an ASCII capital, and turns each capital into the letter 32 code points above it. |
| Paths.LowerAsciiIdempotent | music_organizer.py:277 | Lowercasing an already lowercased name changes nothing. |
| Paths.Suffix | music_organizer.py:232 | Definition of `Path.suffix`: the text from the last dot of the name, or empty when that dot is the first character, is missing, or ends the name. Its shape is stated by `Paths.SuffixShape`. |
| Sanitize.DropWhitespace | music_organizer.py:97 | The leading run of whitespace is removed, and only it: the result is a suffix of the input, everything removed is whitespace, and the result does not start with whitespace. |
| Sanitize.CollapseWhitespace | music_organizer.py:97 | Afterwards all whitespace is single spaces, never two in a row, the non-whitespace characters are the input's in the same order, and a leading run becomes one leading space. That each run becomes exactly one space is stated by `Sanitize.CollapseOfWhitespace` and `Sanitize.CollapseAppend`. |
| Sanitize.CollapseOfWhitespace | music_organizer.py:97 | A non-empty run made only of whitespace becomes a single space. |
| Sanitize.CollapseAppend | music_organizer.py:97 | Where the seam between two strings does not fall inside a run of whitespace, collapsing the whole is collapsing each part and joining them; with `Sanitize.CollapseOfWhitespace` this pins the substitution down run by run. |
| Sanitize.DropWhitespaceAppend | music_organizer.py:97 | Skipping a leading whitespace run of a concatenation skips into the second part only when the first part is all whitespace; otherwise the second part is kept whole. |
| Sanitize.LeadingStripped | music_organizer.py:99 | The count of leading dots and spaces: all characters before it are dots or spaces, and the one at it (if any) is not. |
| Sanitize.TrailingKept | music_organizer.py:99 | The length without the trailing dots and spaces: all characters from it on are dots or spaces, and the one before it (if any) is not. |
| Sanitize.StripStart | music_organizer.py:99 | `lstrip('. ')`: a suffix of the input, everything removed is a dot or a space, and the result does not start with one. |
| Sanitize.StripEnd | music_organizer.py:99 | `rstrip('. ')`: a prefix of the input, everything removed is a dot or a space, and the result does not end with one. |
| Sanitize.SanitizeFilename | music_organizer.py:84-103 | The result is never empty and has at most 200 characters. |
| Sanitize.RemoveForbidden | music_organizer.py:95 | Definition of the first substitution: the input without its characters from `<>:"/\|?*`. Its properties are `RemoveForbiddenShape`, `RemoveForbiddenAppend` and `RemoveForbiddenKeepsText`. |
| Sanitize.Clean | music_organizer.py:95-99 | Definition of the name before the length limit: both substitutions, then `strip('. ')`. Its properties are `CleanShape` and `CleanKeepsText`. |
| Sanitize.Truncate | music_organizer.py:101-102 | Definition of the length limit: the first 200 characters when the name is longer, otherwise the name. |
| Sanitize.DropJunk | music_organizer.py:95-99 | The leading run of forbidden, whitespace, dot and space characters is removed, and only it: the result is a suffix, everything removed is such a character, and the first character left is not. |
| Sanitize.RemoveForbiddenShape | music_organizer.py:95 | No character of `<>:"/\|?*` is left after the first substitution. |
| Sanitize.CollapseKeepsNoForbidden | music_organizer.py:95-97 | Collapsing whitespace does not bring back a forbidden character. |
| Sanitize.SliceKeepsShape | music_organizer.py:99-102 | Stripping and truncating take a slice, and a slice keeps the three shape facts. |
| Sanitize.RemoveForbiddenKeepsClean | music_organizer.py:95 | A name without forbidden characters passes the first substitution unchanged. |
| Sanitize.CollapseKeepsSingleSpaces | music_organizer.py:97 | A name whose whitespace is already single spaces passes the second substitution unchanged. |
| Sanitize.StripCollapseDropWhitespace | music_organizer.py:97-99 | Stripping after collapsing gives the same result with or without a leading run of whitespace. |
| Sanitize.StripDropsStripped | music_organizer.py:99 | A leading dot or space is removed by the strip. |
| Sanitize.FrontSkipsDot | music_organizer.py:95-99 | A leading dot leaves no trace in the stripped result. |
| Sanitize.FrontSkipsWhitespace | music_organizer.py:97-99 | A leading whitespace character leaves no trace in the stripped result. |
| Sanitize.FrontSkipsJunk | music_organizer.py:95-99 | A leading forbidden, whitespace or dot character leaves no trace in the stripped result. |
| Sanitize.FrontKeepsFirst | music_organizer.py:95-99 | A leading character that is none of those starts the stripped result. |
| Sanitize.StrippedFront | music_organizer.py:95-99 | The stripped front is empty exactly when the name is all junk; otherwise it starts with the name's first non-junk character. |
| Sanitize.CollapsedShape | music_organizer.py:95-97 | After both substitutions: no forbidden character, only single spaces as whitespace, never two in a row. |
| Sanitize.StripKeepsShape | music_organizer.py:99 | Both sides of the strip keep those shape facts. |
| Sanitize.CleanShape | music_organizer.py:95-99 | The name before the length limit has the shape facts and neither starts nor ends with a dot or a space. |
| Sanitize.StripEndKeepsUnstrippedFront | music_organizer.py:99 | The trailing strip keeps a first character that is not a dot or a space. |
| Sanitize.SanitizeIsSafe | music_organizer.py:84-103 | The result is 1 to 200 characters long, contains none of `<>:"/\|?*`, and does not start with a dot or a space. |
| Sanitize.SanitizeWhitespace | music_organizer.py:97-103 | All whitespace in the result is single spaces, never two in a row. |
| Sanitize.SanitizeFallback | music_organizer.py:99-103 | A name made only of forbidden characters, whitespace and dots becomes exactly `Unknown`. Any other name's first character that is none of those starts the result. |
| Sanitize.CleanFront | music_organizer.py:95-99 | The name before the length limit is empty exactly when the name is all forbidden characters, whitespace, dots and spaces; otherwise it starts with the first character that is none of those. |
| Sanitize.CleanKeepsShaped | music_organizer.py:95-99 | A shaped name with clean ends comes out of the substitutions and the strip unchanged. |
| Sanitize.SanitizeKeepsCleanName | music_organizer.py:84-103 | A name that is already a clean component of at most 200 characters is returned unchanged. |
| Sanitize.SanitizeIdempotent | music_organizer.py:84-103 | Sanitizing twice equals sanitizing once whenever the length limit did not cut the name. |
| Sanitize.FallbackIsClean | music_organizer.py:103 | `Unknown` is itself a clean component. |
| Sanitize.LongNameShaped | music_organizer.py:95-97 | The witness has no forbidden character and its only whitespace is one space, at position 199 between letters. |
| Sanitize.LongNameIsClean | music_organizer.py:95-99 | The witness passes the substitutions and the strip unchanged. |
| Sanitize.LongNameSanitized | music_organizer.py:101-102 | Cutting the witness at 200 characters leaves a trailing space. |
| Sanitize.SanitizeCuts | music_organizer.py:101-103 | A name longer than 200 characters that the substitutions and the strip leave alone is cut to its first 200 characters. |
| Sanitize.LongNameResanitized | music_organizer.py:99-102 | Sanitizing the cut witness again strips that space, leaving 199 characters. |
| Sanitize.ResanitizeDropsLast | music_organizer.py:95-103 | A name of at most 200 characters with the collapse shape, that starts with neither a dot nor a space and ends in a single one, loses exactly its last character. |
| Sanitize.CleanOfShaped | music_organizer.py:95-99 | On a name with the collapse shape both substitutions change nothing, so only the strip acts. |
| Sanitize.StripEndDropsLast | music_organizer.py:99 | A single trailing dot or space after a character that is neither is all `rstrip` removes. |
| Sanitize.TruncationCanLeaveTrailingSpace | music_organizer.py:99-103 | The length limit applies after the strip, so a result can end in a space, and sanitizing it again changes it. |
| Sanitize.StripKeepsCleanEnds | music_organizer.py:99 | A name that neither starts nor ends with a dot or a space is not stripped. |
| Sanitize.RemoveForbiddenAppend | music_organizer.py:95 | Removing forbidden characters distributes over concatenation. |
| Sanitize.ForbiddenLeavesNoGap | music_organizer.py:95 | Inserting a forbidden character anywhere does not change the sanitized name: no space takes its place. |
| Sanitize.FilterAppend | music_organizer.py:95-99 | Selecting characters distributes over concatenation. |
| Sanitize.FilterNone | music_organizer.py:95-99 | A string with no selected character selects nothing. |
| Sanitize.FilterOfFilter | music_organizer.py:95-99 | Selecting with a narrower test after a wider one is the same as selecting with the narrower test alone. |
| Sanitize.ConsShape | music_organizer.py:97 | Putting a single space in front of text that does not start with whitespace, or any non-whitespace character in front of any single-spaced text, keeps it single-spaced. |
| Sanitize.RemoveForbiddenKeepsText | music_organizer.py:95 | The first substitution keeps every character that is not forbidden, in order. |
| Sanitize.DropWhitespaceKeepsText | music_organizer.py:97 | Dropping leading whitespace keeps every non-whitespace character, in order. |
| Sanitize.StripKeepsText | music_organizer.py:99 | Both sides of the strip keep every character that is not a dot or a space, in order. |
| Sanitize.SplitKeepsText | music_organizer.py:99 | Cutting off a leading or trailing piece that holds no selected character keeps the selection. |
| Sanitize.CleanKeepsText | music_organizer.py:95-99 | Before the length limit, the name keeps exactly the input's characters that are not forbidden, whitespace, dots or spaces, in order. |
| Sanitize.SanitizeKeepsText | music_organizer.py:84-103 | For a name that is not all junk, those characters of the result are a prefix of the input's, and all of them when the length limit did not cut. |
| Tags.FirstKeyIndex | music_organizer.py:125-128 | The index chosen is a present key with no present key before it, or the end of the list when none is present. |
| Tags.Render | music_organizer.py:127 | Definition of `str(audio[key][0])` for a list and `str(audio[key])` otherwise; an empty list has no `[0]`, and that raises. |
| Tags.FieldOf | music_organizer.py:125-148 | Definition of one lookup loop: the rendering of the first present key's value, absent when no key is present, or an error when that rendering raises. |
| Tags.ZFill | music_organizer.py:147 | Definition of `str.zfill`: zeros inserted after a leading sign up to the width. Its shape is stated by `Tags.ZFillShape`. |
| Tags.TrackNumber | music_organizer.py:147 | Definition of `track.split('/')[0].zfill(2)`. Its properties are `TrackHasNoSlash`, `TrackOfTotal` and `TrackLongEnough`. |
| Tags.MetadataOf | music_organizer.py:105-154 | Definition of the whole of `get_metadata`: `{}` for an unreadable file, no tags, empty tags or a lookup that raised; otherwise one key per field found. Its properties are `MetadataKeys`, `UnreadableDiscardsAll` and `NoTagsNoMetadata`. |
| Tags.Zeros | music_organizer.py:147 | Definition of the zero padding `str.zfill` puts in front; its effect is stated by `Tags.ZFillShape`. |
| Tags.BeforeSlash | music_organizer.py:147 | `split('/')[0]` is a prefix of the value without a slash, and stops at the first slash. |
| Tags.PickField | music_organizer.py:125-128 | The loop over a key list yields the first present key's value, or absent, or an error where `audio[key][0]` raises. |
| Tags.GetMetadata | music_organizer.py:105-154 | It returns exactly the dictionary `MetadataOf` describes: empty for an unreadable file, for no tags or empty tags, or when a lookup raised; otherwise the four lookups. |
| Tags.FirstKeyIsUnique | music_organizer.py:125-128 | The first present key is the only index meeting the three facts. |
| Tags.FieldUsesFirstPresentKey | music_organizer.py:125-148 | Each field is read from the first key of its priority list that the file has. |
| Tags.FieldAbsent | music_organizer.py:125-148 | A field is absent exactly when none of its keys is there. |
| Tags.ArtistBeatsAlbumArtist | music_organizer.py:125-128 | Whenever an `artist` tag is present, whatever it holds, the artist field is what `artist` alone gives. `albumartist` and the other keys are not looked at. |
| Tags.AlbumArtistIsFallback | music_organizer.py:125-128 | Without `artist`, a present `albumartist` tag decides the artist field, whatever it holds. |
| Tags.MetadataKeys | music_organizer.py:120-150 | The result's keys are among artist, album, title and track. Each is present exactly when its lookup found a key, and it maps to that lookup's text. |
| Tags.AssembleKeys | music_organizer.py:120-150 | The dictionary built from four lookups holds exactly the keys of the lookups that found a value, each mapped to its text. |
| Tags.UnreadableDiscardsAll | music_organizer.py:127-154 | A value that cannot be read (an empty list) empties the whole result, through the `except`. |
| Tags.NoTagsNoMetadata | music_organizer.py:117-123 | A file without tags or with an empty tag set gives an empty dictionary. |
| Tags.ZFillShape | music_organizer.py:147 | `zfill` pads to the width, keeps a leading sign first, and inserts only zeros after it. |
| Tags.TrackHasNoSlash | music_organizer.py:143-148 | The stored track holds no slash and has at least two characters. |
| Tags.TrackOfTotal | music_organizer.py:146-147 | `1/10` is stored as `01`. |
| Tags.TrackLongEnough | music_organizer.py:147 | A slash-free track of two or more characters is kept as it is. |
| AcoustId.FirstConfident | music_organizer.py:176-177 | The candidate chosen is the first one scored above 0.5, or none when no candidate is. |
| AcoustId.FirstConfidentIsUnique | music_organizer.py:176-177 | That first candidate is the only index meeting those facts. |
| AcoustId.FromCandidate | music_organizer.py:181-204 | Definition of the MusicBrainz part: title and artist of the candidate, plus the first release's title when there is one, counted only when the query answered. |
| AcoustId.Identify | music_organizer.py:156-211 | Definition of `get_metadata_from_acoustid`: `None` without a key, when matching raised or with no candidate above 0.5; otherwise what the first such candidate gives. Its properties are `IdentifyResult`, `CountedOnlyOnLookup`, `NoKeyNoLookup` and `AlbumFromFirstRelease`. |
| AcoustId.Gather | music_organizer.py:323-331 | Definition of the metadata cascade: the tags, with the AcoustID answer laid over them when artist, album or title is missing and the answer is not empty. Its properties are `CompleteTagsAreKept`, `FallbackOverridesTags` and `FallbackCompletes`. |
| AcoustId.IdentifyResult | music_organizer.py:166-207 | A dictionary comes back exactly when a non-empty key is set, matching did not raise, and some candidate scored above 0.5. Its keys are among title, artist and album, and title and artist come from the first such candidate. |
| AcoustId.CountedOnlyOnLookup | music_organizer.py:182-204 | `metadata_found` goes up exactly when MusicBrainz answered for the chosen candidate. |
| AcoustId.NoKeyNoLookup | music_organizer.py:166-168 | A missing or empty API key gives `None` and counts nothing. |
| AcoustId.AlbumFromFirstRelease | music_organizer.py:187-204 | The album is set exactly when MusicBrainz lists at least one release, and it is the first release's title. A failed query gives exactly title and artist. |
| AcoustId.CompleteTagsAreKept | music_organizer.py:326 | Tags with artist, album and title are used as they are, and AcoustID is not asked. |
| AcoustId.FallbackOverridesTags | music_organizer.py:326-331 | The AcoustID answer is laid over the tags. Its keys win, and the tags' other keys survive. |
| AcoustId.FallbackCompletes | music_organizer.py:326-331 | An identification with a release completes artist, album and title. |
| Destination.TrackFileName | music_organizer.py:230-234 | The file name of an organized file is never empty. |
| Destination.DestinationPath | music_organizer.py:213-243 | Definition of `get_destination_path`. Its properties are the other `Destination` lemmas. |
| Destination.OrganizedLayout | music_organizer.py:225-237 | With artist, album and title, the destination is the destination directory plus the sanitized artist, the sanitized album and the file name. |
| Destination.UnorganizedLayout | music_organizer.py:239-241 | Otherwise it is the destination directory plus `unorganized` plus the file's name, and it is marked unorganized. |
| Destination.DestinationInside | music_organizer.py:213-243 | Every destination lies strictly below the destination directory. |
| Destination.TrackLeadsFileName | music_organizer.py:231-232 | With a track number, the file name starts with the track and ` - `. |
| Destination.LastDotOfSuffixed | music_organizer.py:232 | A name ending in a suffix has its last dot where the suffix starts. |
| Destination.KeepsExtension | music_organizer.py:232 | An organized file keeps the original's suffix. |
| Destination.UnorganizedKeepsName | music_organizer.py:241 | An unorganized file keeps its whole name. |
| Destination.SameMetadataSameDestination | music_organizer.py:225-237 | Two files with the same metadata and the same suffix get the same destination; the code has no collision handling. |
| Destination.OrganizedMarking | music_organizer.py:349 | An organized destination counts as unorganized exactly when `unorganized` is a component of the destination directory, or the artist folder, the album folder or the file name came out as `unorganized`. |
| Destination.InThreeMore | music_organizer.py:349 | A component of a path extended by three components is one of the path's components or one of the three. |
| FileSystem.Prefixes | music_organizer.py:366 | The directories from the root down to `d`: exactly the leading pieces of `d`, and nothing else. |
| FileSystem.Mkdir | music_organizer.py:366 | Definition of `mkdir(parents=True, exist_ok=True)`: an existing directory is accepted; a file at or above it raises at once; otherwise the levels are created from the top and the call raises at the first refused one, keeping those already made. |
| FileSystem.Move | music_organizer.py:370 | Definition of `shutil.move` onto a path that is not a directory, including the copy left at the target when the source cannot be removed. |
| FileSystem.Copy2 | music_organizer.py:373 | Definition of `shutil.copy2` onto a path that is not a directory; copying a file onto itself raises. |
| FileSystem.DeniedBelow | music_organizer.py:366 | Writing refused at a directory is refused everywhere below it. |
| FileSystem.MkdirResult | music_organizer.py:366 | `mkdir(parents=True, exist_ok=True)` succeeds exactly when the directory exists, or no file is in the way and writing is not refused at it. It never changes a file and only creates directories on the way to `d`, none of them refused. With a file in the way it changes nothing. Otherwise every level above the first refused one exists afterwards, and those stay when it raises. |
| FileSystem.MkdirKeepsValid | music_organizer.py:366 | `mkdir` keeps the store a tree, whether it succeeds or raises. |
| FileSystem.MoveResult | music_organizer.py:370 | A move succeeds exactly when the source is a file, the target can be written in an existing directory, and the source can be removed. On success the target is a file, the source is gone, and every other path is unchanged. On failure no file is lost and the directories are unchanged. The target appears only when the source could not be removed after the copy. |
| FileSystem.MoveKeepsValid | music_organizer.py:370 | A move keeps the store a tree, whether it succeeds or raises. |
| FileSystem.Copy2Result | music_organizer.py:373 | A copy succeeds exactly when the source is a file other than the target and the target can be written in an existing directory. Success adds exactly the target, and failure changes nothing. |
| FileSystem.Copy2KeepsValid | music_organizer.py:373 | A copy keeps the store a tree, whether it succeeds or raises. |
| FileSystem.Disk.PathExists | music_organizer.py:343 | Definition of `Path.exists()` on the disk's current state: the path is a file or a directory. |
| FileSystem.Disk.IsDir | music_organizer.py:276 | Definition of `Path.is_dir()` on the disk's current state; what happens to a source that is not a directory is stated by `Steps.ArtNeedsSourceDir`. |
| FileSystem.Disk.MakeDirs | music_organizer.py:366 | The disk becomes what `Mkdir` leaves, including the directories made before it raised, and `ok` tells whether it raised. |
| FileSystem.Disk.MoveFile | music_organizer.py:370 | The disk becomes what `Move` leaves, including a copy left behind when it raised, and `ok` tells whether it raised. |
| FileSystem.Disk.CopyFile | music_organizer.py:373 | The disk becomes what `Copy2` leaves, and `ok` tells whether it raised. |
| Steps.FirstCover | music_organizer.py:262-267 | The first of `cover.jpg`, `cover.jpeg` and `cover.png` that exists in the album folder, or none. |
| Steps.Images | music_organizer.py:274-278 | Definition of the `iterdir` scan: the listed names that are files with an image suffix, in listing order. |
| Steps.CoverName | music_organizer.py:288-292 | Definition of the target name: `cover` plus the image's lowercased suffix, with `.jpeg` written `.jpg`. |
| Steps.ArtStep | music_organizer.py:245-307 | Definition of `copy_album_art` on the state of a run. Its properties are the `Art` lemmas. |
| Steps.Place | music_organizer.py:334-387 | Definition of `organize_file` from the destination on, with what a raising `mkdir`, `move` or `copy2` leaves behind. Its properties are the `Place` lemmas. |
| Steps.MetadataFor | music_organizer.py:323-331 | Definition of the metadata `organize_file` uses, and whether AcoustID counted an identification. |
| Steps.OrganizeStep | music_organizer.py:309-387 | Definition of `organize_file` on the state of a run. Its properties are `StepAccounting` and `StepKeepsValid`. |
| Steps.AudioIn | music_organizer.py:398-401 | Definition of the inner loop of `find_audio_files`: one directory's names with an audio suffix, joined to it, in listing order. |
| Steps.AudioFiles | music_organizer.py:396-402 | Definition of `find_audio_files` over the walk, in walk order. |
| Steps.OrganizeAll | music_organizer.py:429-430 | Definition of the loop of `organize` over the files found. |
| Steps.RunAll | music_organizer.py:404-430 | Definition of `organize`. Its properties are `RunAccounting`, `RunOutcome` and `RunKeepsValid`. |
| Steps.NameOfJoin | music_organizer.py:237 | A joined component is the path's name, and the directory it was joined to is its parent. |
| Steps.ImagesAreListedImages | music_organizer.py:274-278 | Every image found is a listed name that is a file with an image suffix, joined to the scanned directory, and every such listed name is found. |
| Steps.ImagesAreImageFiles | music_organizer.py:277 | Every image found is an existing file directly in the scanned directory whose lowercased suffix is an image extension. |
| Steps.CoverNameIsKnown | music_organizer.py:288-292 | The cover is always written as `cover.jpg` or `cover.png`. |
| Steps.ArtBookkeeping | music_organizer.py:253-259 | The resolved source directory is marked in every case, and an already-marked directory changes nothing. Only the album-art counter can move, by one, and files are only added. |
| Steps.ArtOncePerDirectory | music_organizer.py:253-259 | A second call for the same resolved source directory, whatever the album folder, changes nothing. |
| Steps.ArtCopiesNewCover | music_organizer.py:261-307 | When the counter goes up: it is not a dry run, none of the three covers existed, an image was found, and exactly one file appeared, the cover named after the first image found, which is `cover.jpg` or `cover.png`. Otherwise the filesystem is unchanged. |
| Steps.ArtDryRun | music_organizer.py:295-296 | A dry run copies and counts no album art. |
| Steps.ArtNeedsSourceDir | music_organizer.py:274-281 | Listing a source folder that is not a directory fails, and then no album art is copied and no counter changes. |
| Steps.ArtKeepsExistingCover | music_organizer.py:261-271 | An album folder that has a cover is left alone. |
| Steps.ArtKeepsValid | music_organizer.py:245-307 | Album art keeps the filesystem a tree. |
| Steps.PlaceSkips | music_organizer.py:336-346 | A file already at its destination, or a copy whose destination exists, is counted as skipped and reported as success, with nothing else changed. |
| Steps.PlaceAccounting | music_organizer.py:334-387 | Each call counts once, as skipped, organized or unorganized. Errors go up exactly when it returns false, and album art by at most one. |
| Steps.PlaceClassifies | music_organizer.py:348-353 | A file that is not skipped counts as organized or unorganized by its destination, before anything is moved, so a failed move still counts. |
| Steps.PlaceDryRun | music_organizer.py:355-363 | A dry run succeeds, changes no file or directory, records no error and copies no art. |
| Steps.PlaceDelivers | music_organizer.py:364-380 | A real run that succeeds without skipping leaves a file at the destination. When moving, it leaves none at the source, unless the source is named like a cover. |
| Steps.PlaceFailureKeepsSource | music_organizer.py:364-387 | A call that returns false keeps the file it was given and loses no file. The only file it can add is the destination, left by a move that raised after copying. No album art is handled. |
| Steps.PlaceKeepsValid | music_organizer.py:364-380 | Placing a file keeps the filesystem a tree. |
| Steps.StepAccounting | music_organizer.py:309-387 | One file counts once; an error counts once when it returns false; `metadata_found` goes up exactly when MusicBrainz identified the file. |
| Steps.StepKeepsValid | music_organizer.py:309-387 | Organizing one file keeps the filesystem a tree. |
| Steps.AudioInMembership | music_organizer.py:398-401 | A directory's audio files are exactly its listed names with an audio suffix, in that directory. |
| Steps.AudioFilesMembership | music_organizer.py:396-402 | A path is found exactly when the walk lists it and its lowercased suffix is an audio extension. |
| Steps.OrganizeAllAccounting | music_organizer.py:429-430 | Over a list of files: each counts once, with errors and identifications at most once each. A dry run leaves the filesystem and the error counter unchanged. |
| Steps.OrganizeAllKeepsValid | music_organizer.py:429-430 | Organizing a list of files keeps the filesystem a tree. |
| Steps.RunAccounting | music_organizer.py:423-430 | A completed run from fresh counters has `total_files` equal to the number of audio files found, and handled equal to `total_files`. It has at most one error and one identification per file. |
| Steps.RunOutcome | music_organizer.py:414-419 | A missing source ends the run at once and changes nothing. A destination that cannot be created ends it before any file: no counter and no file changes, and the only new directories are those above the destination made before `mkdir` raised. A dry run never touches the filesystem. |
| Steps.RunKeepsValid | music_organizer.py:404-430 | A whole run keeps the filesystem a tree. |
| Organizer.MusicOrganizer.constructor | music_organizer.py:56-82 | Both directories are resolved, the options are stored, no album-art directory is marked, and all counters are zero. |
| Organizer.MusicOrganizer.CopyAlbumArt | music_organizer.py:245-307 | The counters, marked directories and filesystem become what `ArtStep` gives. |
| Organizer.MusicOrganizer.ListImages | music_organizer.py:274-278 | The scan returns the image files of the directory in listing order. |
| Organizer.MusicOrganizer.GetMetadataFromAcoustId | music_organizer.py:156-211 | It returns the dictionary `Identify` describes and bumps `metadata_found` exactly when that counts. |
| Organizer.MusicOrganizer.OrganizeFile | music_organizer.py:309-387 | The state becomes what `OrganizeStep` gives, and it returns the same flag. |
| Organizer.MusicOrganizer.PlaceFile | music_organizer.py:334-387 | From the destination on, the state and result are what `Place` gives. |
| Organizer.MusicOrganizer.AudioFilesIn | music_organizer.py:398-401 | The inner loop returns one directory's audio files in listing order. |
| Organizer.MusicOrganizer.FindAudioFiles | music_organizer.py:389-402 | The result is the walk's audio files in walk order. |
| Organizer.MusicOrganizer.Organize | music_organizer.py:404-430 | The outcome and the new state are what `RunAll` gives. |

## Left out

- Reading tags with mutagen is an input. `None` stands both for a file mutagen cannot open and for one where opening raises. Tag values arrive already converted with `str`.
- AcoustID fingerprinting and the MusicBrainz query are inputs as well. `matches` is `None` when `acoustid.match` raises, and `LookupFailed` stands for a raised query. Title and artist are taken to be strings.
- Why `mkdir`, `move` or `copy2` is refused (permissions, a full disk, a name too long) is not modelled. A fixed set of paths where writing is refused stands for it, and refusal at a directory extends to everything below it. What a refused call leaves behind is modelled: `mkdir` keeps the levels it made before the refused one, and a move refused at the source leaves its copy at the target.
- `time.sleep(0.33)`, logging, `print_summary`, argument parsing and `main` produce no state the organizer reads back.
- File contents are not modelled: copying and moving change which paths are files, not what they hold.
- `shutil.move` and `shutil.copy2` onto an existing directory, which would place the file inside it, are modelled as failures.
- The order of `os.walk` and `iterdir()` is an input, and symbolic links are not modelled.
- `str.lower()` is modelled on ASCII letters only. This is enough for comparing against the ASCII extension sets.
- Path components are taken to be free of `/`, and `Path.resolve()` is an arbitrary function given as input.
- Exceptions outside `mkdir`, `move`, `copy2`, `get_metadata`, `get_metadata_from_acoustid` and `iterdir` are not modelled, for example an exception raised by `Path.resolve()` or `Path.exists()`.
