# StashVideohasherNode in Dafny

StashVideohasherNode is a batch worker for a Stash media library. Each round it takes a page of
scenes that have no perceptual hash and claims them by adding the hashing tag. It then runs a
worker per scene. The worker translates the scene's file path to the local mount and picks the
naming key: the last `oshash`, or a random 12-character token. It computes the perceptual hash
with the `videohashes` tool and replaces a placeholder (SVG) cover with a frame grabbed by ffmpeg.
It builds a sprite mosaic with its WebVTT cue sheet and a preview video made of short clips.
Finally it removes the hashing tag, or on failure tags the scene with an error tag.
`phash_videohasher.py` is the older single-process version of the same work.

This project models that core. How it is modelled:

- **Remote service.** The Stash service is a class holding, per scene, a tag set, the fingerprint
  lists and the covers. The wrappers of `helpers/stash_utils.py` are functions from a call to the
  requests they send, plus methods that send them. Each wrapper has its dry-run branch.
- **Error log.** `error_log.txt` is a class holding its text.
- **Local disk.** The local disk is a class holding two maps: the working directory's files and
  its directories, each directory a map from name to content.
- **Outside world.** What a run learns from outside is an input, never computed. That covers
  whether a file exists, what the hash tool printed, what a screenshot URL returned, whether an
  ffmpeg or ffprobe run succeeded, and what the generators did.
- **Spec function and method.** Each step is a pure function saying what that step does, and a
  method performing it on the classes. The method is proved to do exactly what the function says.
  The properties are proved about the functions.
- **Arithmetic.** Times are exact `real`s. Tile geometry is integer arithmetic. Python's
  `int(x / y)`, `divmod` and `%` are written out for the operands the source can produce.

Modules, in dependency order:

| module | file | models |
|---|---|---|
| Wrappers | wrappers.dfy | `Option`, the `Result` of a call that may raise |
| Strings | strings.dfy | `str.lower`, `find`, `replace(…, 1)`, `rfind`, `strip`, `os.path.basename`, decimal and zero-padded formatting, string order, `sorted` |
| Disk | disk.dfy | the working directory and `os`/`shutil` calls on it |
| StashApi | stash_api.dfy | the service's tags, fingerprints and covers, and its requests |
| StashUtils | stash_utils.dfy | helpers/stash_utils.py |
| SceneProcessor | scene_processor.dfy | helpers/scene_processor.py |
| SpriteGeometry | sprite_geometry.dfy | the arithmetic shared by both sprite generators: schedule, tiles, `format_time`, frame names, cue sheet |
| SpriteGenerator | sprite_generator.dfy | helpers/video_sprite_generator.py |
| LegacySpriteGenerator | legacy_sprite_generator.dfy | video_sprite_generator.py |
| PreviewGenerator | preview_generator.dfy | preview_video_generator.py |
| BatchMain | batch_main.dfy | phash_videohasher_main.py, with the constants of config.py |
| LegacyHasher | legacy_hasher.dfy | phash_videohasher.py |

Four behaviours of the code that a reader might not expect:

- **Unreadable duration.** helpers/video_sprite_generator.py does not raise when the duration
  cannot be read or is zero (lines 32-35, 47-49, 121-124). `take_screenshots` returns `False`,
  `generate_sprite` skips `create_sprite`, and the scene is released as if the sprite had been
  built.
- **Scratch cleanup.** The sprite generators' scratch directory is not removed when
  `create_sprite` raises. `clean_up` is not in a `finally` (helpers/video_sprite_generator.py:120-124,
  video_sprite_generator.py:126-129).
- **Ctrl+C.** It does not abandon submitted work. The `KeyboardInterrupt` is caught outside the
  `with ThreadPoolExecutor` block (phash_videohasher_main.py:72-86), so leaving the block waits for
  every scene already submitted. The model lets those scenes run to the end.
- **Legacy duration.** The legacy sprite generator does raise on an unreadable duration (line 24),
  but only after it has removed the old files and made the empty frame directory.

## Model

| member | source | states |
|---|---|---|
| `Strings.Lower` | helpers/scene_processor.py:48 | `str.lower` on ASCII: same length, each capital letter replaced by its small letter, every other character kept |
| `Strings.FindFrom` | helpers/scene_processor.py:44 | `find` returns the least position at or after the start where the pattern occurs, or none exactly when it occurs nowhere from there |
| `Strings.ContainsIff` | helpers/scene_processor.py:51 | `sub in s` holds exactly when `sub` occurs at some position of `s` |
| `Strings.ContainsChar` | helpers/scene_processor.py:51 | a one-character pattern is contained exactly when the character occurs in the string |
| `Strings.ReplaceFirstSpec` | helpers/scene_processor.py:44 | `replace(orig, local, 1)` leaves a string without `orig` unchanged, and otherwise substitutes the first occurrence only, keeping the rest verbatim |
| `Strings.LastIndexOfAny` | helpers/scene_processor.py:35 | the position found holds one of the characters and no later position does; none only when no position does |
| `Strings.Basename` | helpers/video_sprite_generator.py:84 | `os.path.basename` is a suffix of the path containing no `/` |
| `Strings.BasenameOfName` | helpers/video_sprite_generator.py:84 | the basename of `dir/` + a name without `/` is that name |
| `Strings.Strip` | helpers/video_sprite_generator.py:13 | `strip(c)` is a slice `s[i..j]` of its input whose cut-away ends `s[..i]` and `s[j..]` are all `c`, and a non-empty result neither starts nor ends with `c` |
| `Strings.StripBounds` | video_sprite_generator.py:9 | trimming both ends leaves a slice of the input with only the stripped character cut away on either side, and a non-empty result neither starts nor ends with it |
| `Strings.Decimal` | helpers/video_sprite_generator.py:93 | `str(n)` of a natural number is a non-empty string of digits |
| `Strings.DecimalRoundTrip` | helpers/video_sprite_generator.py:93 | reading back the decimal digits of `n` gives `n` |
| `Strings.ZeroPad` | helpers/video_sprite_generator.py:93 | `{n:0w}` is all digits and exactly `w` long unless `n` needs more digits |
| `Strings.ZeroPad2` | helpers/video_sprite_generator.py:93 | below 100, `{n:02d}` is the tens digit then the units digit of `n` |
| `Strings.ZeroPadRoundTrip` | helpers/video_sprite_generator.py:55 | the padded digits still denote `n` |
| `Strings.ZeroPad3` | preview_video_generator.py:36 | below 1000, `{i:03d}` is the hundreds, tens and units digit of `i` |
| `Strings.PaddedNameOrder` | helpers/video_sprite_generator.py:98 | for `i < j < 1000`, `prefix{i:03d}suffix` sorts strictly before `prefix{j:03d}suffix` |
| `Strings.PaddedNameInjective` | preview_video_generator.py:36 | two equal padded names have the same index |
| `Strings.SortIsSorted` | helpers/video_sprite_generator.py:98 | `sorted` of distinct names is strictly ascending and a permutation of its input |
| `Strings.SortedUnique` | helpers/video_sprite_generator.py:98 | two strictly sorted lists with the same members are equal |
| `Strings.SortOfSortedListing` | helpers/video_sprite_generator.py:98 | sorting any listing of a name set yields the one strictly sorted list of those names |
| `Strings.SortMembers` | helpers/video_sprite_generator.py:98 | sorting keeps the multiset of names |
| `Strings.SortListingIndependent` | helpers/video_sprite_generator.py:98 | whatever order `os.listdir` returns, `sorted` gives the same list |
| `Strings.EndingWith` | helpers/video_sprite_generator.py:99 | the filter keeps exactly the names ending with the suffix, and no more entries than the list has |
| `Strings.EndingWithAppend` | helpers/video_sprite_generator.py:99 | filtering a concatenation is filtering each part and concatenating, so the kept names stay in list order |
| `Strings.EndingWithAll` | video_sprite_generator.py:99 | filtering names that all end with the suffix keeps the list unchanged |
| `Strings.Members` | preview_video_generator.py:95-96 | the set of a list's names is exactly its elements |
| `Strings.ConcatPrefix` | preview_video_generator.py:72-73 | writing lines one at a time builds prefixes of the whole text, each extending the last |
| `Disk.WithoutDir` | helpers/video_sprite_generator.py:38-39 | `shutil.rmtree(d)` removes `d`; every other directory keeps its contents and the files are unchanged |
| `Disk.WithoutFile` | helpers/video_sprite_generator.py:40-41 | `os.remove(p)` removes `p`; every other file keeps its content and the directories are unchanged |
| `Disk.WithDir` | helpers/video_sprite_generator.py:45 | `os.makedirs(d, exist_ok=True)` leaves an existing directory alone and otherwise adds an empty one; every other directory keeps its contents and the files are unchanged |
| `Disk.WithFile` | helpers/video_sprite_generator.py:71-72 | writing a file stores the content under its path; every other file keeps its content and no directory changes |
| `Disk.WithFileIn` | helpers/video_sprite_generator.py:65-68 | writing into a directory stores the content under the name there; the directory's other names keep their contents, every other directory is unchanged and so are the files |
| `Disk.WithoutFileIn` | video_sprite_generator.py:118-119 | removing a file inside a directory removes that name; the directory's other names keep their contents, every other directory is unchanged and so are the files |
| `Disk.Cwd` | phash_videohasher_main.py:29 | the working directory's entries are exactly the files and directories whose name has no `/` |
| `Disk.ContentsOf` | video_sprite_generator.py:99 | opening the listed names gives their contents in listing order |
| `Disk.FileSystem.constructor` | helpers/video_sprite_generator.py:37-45 | the disk starts in the given state |
| `Disk.FileSystem.RemoveTree` | helpers/video_sprite_generator.py:38-39 | the new state is `WithoutDir` of the old |
| `Disk.FileSystem.Remove` | helpers/video_sprite_generator.py:40-41 | the new state is `WithoutFile` of the old |
| `Disk.FileSystem.MakeDirs` | helpers/video_sprite_generator.py:45 | the new state is `WithDir` of the old |
| `Disk.FileSystem.Write` | helpers/video_sprite_generator.py:71-72 | the new state is `WithFile` of the old |
| `Disk.FileSystem.ListDir` | helpers/video_sprite_generator.py:98 | the listing names every entry of the directory exactly once, in some order |
| `Disk.FileSystem.ListCwd` | phash_videohasher_main.py:29 | the listing names every working-directory entry exactly once |
| `Disk.FileSystem.RemoveIn` | video_sprite_generator.py:118-119 | the new state is `WithoutFileIn` of the old |
| `Disk.FileSystem.WriteIn` | helpers/video_sprite_generator.py:65-68 | the new state is `WithFileIn` of the old |
| `StashApi.Apply` | helpers/stash_utils.py:33-34 | ADD and REMOVE change only the addressed scene's tag set, by adding or removing the tag; a fingerprint request replaces only that file's list; an accepted cover replaces that scene's cover, and a cover request leaves every other scene's cover as it was |
| `StashApi.ApplyAllOne` | helpers/stash_utils.py:43 | sending one request is applying it |
| `StashApi.ApplyAllTwo` | helpers/stash_utils.py:33-34 | two requests in a row apply in the order sent |
| `StashApi.ApplyAllAppend` | helpers/stash_utils.py:33-34 | sending `a` then `b` is sending `a + b` |
| `StashApi.ApplyAllOtherScene` | phash_videohasher.py:112-113 | requests that tag no scene `s` leave `s`'s tags as they were |
| `StashApi.StashService.constructor` | helpers/stash_utils.py:7 | the service starts with the given library |
| `StashApi.StashService.AddTag` | helpers/stash_utils.py:43 | the library afterwards is the ADD request applied to the one before |
| `StashApi.StashService.RemoveTag` | helpers/stash_utils.py:49 | the library afterwards is the REMOVE request applied to the one before |
| `StashApi.StashService.SetFingerprints` | helpers/stash_utils.py:55 | the library afterwards is the fingerprint request applied to the one before |
| `StashApi.StashService.UpdateScene` | helpers/stash_utils.py:61 | returns the service's answer; the cover changes only when it was accepted |
| `StashUtils.Requests` | helpers/stash_utils.py:29-61 | under dry run a wrapper sends nothing; otherwise at least one request |
| `StashUtils.PerformAllAppend` | helpers/stash_utils.py:29-61 | calls take effect in order: performing `a + b` is performing `a`, then `b` |
| `StashUtils.ErrorTagsMembers` | helpers/stash_utils.py:29-37 | a tag is among the error tags of a call list exactly when some `tag_scene_error` call in it carries it |
| `StashUtils.TagsModuloHashing` | helpers/stash_utils.py:29-49 | apart from the hashing tag, a scene's calls leave exactly its old tags plus every error tag attached |
| `StashUtils.FinalTags` | helpers/stash_utils.py:29-49 | a run of calls for one scene ending in a release or an error tag leaves the old tags plus the error tags, without the hashing tag |
| `StashUtils.ClaimEffect` | helpers/stash_utils.py:39-43 | `claim_scene` adds the hashing tag to that scene and changes no other scene, fingerprint, cover or log line |
| `StashUtils.ClaimTwiceIsClaimOnce` | helpers/stash_utils.py:39-43 | claiming twice is claiming once, with or without dry run |
| `StashUtils.ReleaseEffect` | helpers/stash_utils.py:45-49 | `release_scene` removes the hashing tag from that scene and changes nothing else |
| `StashUtils.TagErrorEffect` | helpers/stash_utils.py:29-37 | `tag_scene_error` adds the error tag and removes the hashing tag on that scene only, and appends `Scene {id}: {msg}\n` to the log exactly when the message is non-empty |
| `StashUtils.UpdatePhashEffect` | helpers/stash_utils.py:51-55 | `update_phash` sends one request setting the file's fingerprints to the single `phash` fingerprint, and leaves tags and log alone |
| `StashUtils.DryRunChangesNothing` | helpers/stash_utils.py:30-32 | under dry run any sequence of wrapper calls leaves the library and the log as they were |
| `StashUtils.ErrorLog.constructor` | helpers/stash_utils.py:36 | the log starts with the given text |
| `StashUtils.ErrorLog.Append` | helpers/stash_utils.py:36-37 | appending adds the line at the end of the log |
| `StashUtils.TagSceneError` | helpers/stash_utils.py:29-37 | service and log afterwards are the `tag_scene_error` call performed on them |
| `StashUtils.ClaimScene` | helpers/stash_utils.py:39-43 | the service afterwards has received exactly the claim's requests (none under dry run) |
| `StashUtils.ReleaseScene` | helpers/stash_utils.py:45-49 | the service afterwards has received exactly the release's requests (none under dry run) |
| `StashUtils.UpdatePhashOf` | helpers/stash_utils.py:51-55 | the service afterwards has received exactly the phash request (none under dry run) |
| `StashUtils.UpdateCoverOf` | helpers/stash_utils.py:57-61 | returns true under dry run and sends nothing; otherwise sends the cover and returns the service's answer |
| `SceneProcessor.TranslatePath` | helpers/scene_processor.py:43-44 | the loop over the translation table yields `Translate`, the rules applied in list order |
| `SceneProcessor.TranslateSnoc` | helpers/scene_processor.py:43-44 | a rule later in the table works on the path the earlier rules produced, replacing its first occurrence only |
| `SceneProcessor.TranslateUntouched` | helpers/scene_processor.py:43-44 | a path containing none of the `orig` prefixes is returned unchanged |
| `SceneProcessor.TranslateIdempotent` | helpers/scene_processor.py:43-44 | translating a translated path that no longer contains any `orig` changes nothing |
| `SceneProcessor.LinuxTranslationExample` | config.py:55-58 | with the Linux table, `/data/v/a.mp4` becomes `/mnt/datadrive/v/a.mp4` |
| `SceneProcessor.FirstRuleExample` | config.py:56 | the first rule alone moves `/data/` to `/mnt/datadrive/` |
| `SceneProcessor.LaterRulesExample` | config.py:57-58 | the `/data2/` and `/data3/` rules leave a path under `/mnt/datadrive/` alone |
| `SceneProcessor.DisplayName` | helpers/scene_processor.py:35 | the regex fails exactly when no `/` or `\` is followed by newline-free text up to the end, leaving one final newline aside (`.` skips newlines, `$` matches before a final one) |
| `SceneProcessor.DisplayNameParts` | helpers/scene_processor.py:35 | a matched name is the text right after a separator, up to the end without the final newline, and holds no separator and no newline |
| `SceneProcessor.DisplayNameNewlines` | helpers/scene_processor.py:35 | on `/v/a.mp4` followed by a newline the name is `a.mp4`; with a newline inside the last component (`/v/a` newline `b.mp4`) the regex does not match |
| `SceneProcessor.LastOshash` | helpers/scene_processor.py:46-49 | the key is the value of the last fingerprint whose type lowers to `oshash`, or the empty string when there is none |
| `SceneProcessor.SelectOshash` | helpers/scene_processor.py:46-49 | the loop over the fingerprints ends holding `LastOshash` |
| `SceneProcessor.NamingKey` | helpers/scene_processor.py:51-52 | the key is never empty and never holds `:`, `/` or `\`; it is the oshash when that is safe and the random token otherwise |
| `SceneProcessor.PathJoin` | helpers/scene_processor.py:115 | a joined path ends with the joined name |
| `SceneProcessor.PathJoinParts` | helpers/scene_processor.py:115-116 | a name starting with `/` is the whole result; otherwise the result starts with the directory and adds at most one `/`, which sits right before the name when the directory is non-empty |
| `SceneProcessor.JoinedBasename` | helpers/scene_processor.py:115 | the basename of a joined path is the name joined |
| `SceneProcessor.ArtifactNames` | helpers/scene_processor.py:115-130 | the artifact files are named exactly `{key}_sprite.jpg`, `{key}_thumbs.vtt` and `{key}.mp4` |
| `SceneProcessor.CoverCommand` | helpers/scene_processor.py:86-90 | the grab command has its `-ss` at position 6, the time after it, and the image as its output |
| `SceneProcessor.IndexOf` | helpers/scene_processor.py:98 | `list.index` is the first position holding the value |
| `SceneProcessor.RetryMovesGrab` | helpers/scene_processor.py:98 | changing the element after `-ss` in place turns the 30 s grab into the 5 s grab of the same video and image |
| `SceneProcessor.MoveGrab` | helpers/scene_processor.py:98 | the array afterwards is the command with its time replaced after the first `-ss` |
| `SceneProcessor.HashStage` | helpers/scene_processor.py:68-78 | the stage fails exactly when not in dry run and the tool raised, printed JSON without `phash`, or the phash request raised; it then error-tags with the hashing error tag and that exception's text, and otherwise stores the phash; the tool runs only outside dry run |
| `SceneProcessor.CoverExtraction` | helpers/scene_processor.py:95-104 | the retry at 5 s runs only when the 30 s grab exited normally without producing the image; the cover is uploaded when either produced it, otherwise the cover error tag is set |
| `SceneProcessor.CoverStage` | helpers/scene_processor.py:80-112 | the cover step never fails the run; it attaches the cover error tag exactly when the placeholder check, the fetch, or the extraction went wrong, and uploads a cover only when it produced one |
| `SceneProcessor.PlaceholderStage` | helpers/scene_processor.py:83-109 | for a placeholder, the scratch directory is made first and removed last; the cover is uploaded exactly when produced, else the cover error tag is attached |
| `SceneProcessor.SpriteStage` | helpers/scene_processor.py:114-127 | the generator runs exactly when sprites are on, the sprite file is absent and not in dry run; the stage fails exactly when it then raised, with the hashing error tag |
| `SceneProcessor.PreviewStage` | helpers/scene_processor.py:129-145 | the preview generator runs exactly when previews are on, the preview file is absent and not in dry run; it fails exactly when it raised, with the hashing error tag |
| `SceneProcessor.PipelineStages` | helpers/scene_processor.py:31-147 | a scene with a named, existing file runs as the four stages in order |
| `SceneProcessor.PipelineEarly` | helpers/scene_processor.py:33-64 | a scene without files, whose path the name regex does not match, or whose file is missing runs no tool and ends before the claim |
| `SceneProcessor.AssembleCalls` | helpers/scene_processor.py:61-147 | every call of an assembled run is about its scene and the last one is a release or an error tag |
| `SceneProcessor.AssembleActions` | helpers/scene_processor.py:71-145 | an action happens exactly when its stage was reached: cover and sprite after a good hash, the preview only after a good sprite |
| `SceneProcessor.AssembleErrorTags` | helpers/scene_processor.py:71-145 | the error tags of a run are those of the stages reached |
| `SceneProcessor.PipelineEnding` | helpers/scene_processor.py:31-147 | how a run ends agrees with `ExpectedEnding`, an independent case list: crash, missing file, hash failure, sprite failure, preview failure, release |
| `SceneProcessor.FileMissingStops` | helpers/scene_processor.py:61-64 | a missing file gives exactly one error tag (hashing error, message "File not found after translation"), no claim and no action |
| `SceneProcessor.HashFailureStops` | helpers/scene_processor.py:71-78 | a hash failure gives exactly the claim, one hashing error tag and the one tool run: no cover, sprite, preview or release |
| `SceneProcessor.AssembleClaims` | helpers/scene_processor.py:66-147 | an assembled run claims its scene, and releases it exactly when it ends released, as its last call |
| `SceneProcessor.ClaimAndRelease` | helpers/scene_processor.py:66-147 | `claim_scene` is called exactly when the run neither crashed nor found the file missing, and `release_scene` exactly when the run ends released, as its last call |
| `SceneProcessor.CoverNeverEndsRun` | helpers/scene_processor.py:80-112 | changing the screenshot or any cover outcome never changes how the run ends |
| `SceneProcessor.PipelineFinalTags` | helpers/scene_processor.py:61-147 | outside dry run, a scene ends with its old tags plus the hashing error tag on a terminal failure and the cover error tag on a cover failure, without the hashing tag |
| `SceneProcessor.PipelineErrorTags` | helpers/scene_processor.py:61-145 | the error tags a run attaches are exactly those `ExpectedErrorTags` lists for its ending |
| `SceneProcessor.AssembledErrorTags` | helpers/scene_processor.py:71-145 | stages that fail with one tag and a cover stage with its own tags assemble into the failure tag on a terminal ending plus the cover tags when the cover was reached |
| `SceneProcessor.PipelineCalls` | helpers/scene_processor.py:61-147 | every run that does not crash ends with a release or an error tag, all about its own scene |
| `SceneProcessor.StagesSpriteGating` | helpers/scene_processor.py:114-127 | on assembled stages the sprite generator runs exactly when the cover was reached, sprites are on, the file is absent and not in dry run, and only for this key's file names |
| `SceneProcessor.SpriteGating` | helpers/scene_processor.py:114-127 | the sprite generator runs exactly when the hash succeeded, generation is on, the sprite is absent and not in dry run, with the key's file names |
| `SceneProcessor.StagesPreviewGating` | helpers/scene_processor.py:129-145 | on assembled stages the preview generator runs exactly when the sprite step did not fail, previews are on, the file is absent and not in dry run |
| `SceneProcessor.PreviewGating` | helpers/scene_processor.py:129-145 | the preview generator runs exactly when the sprite step did not fail, generation is on, the preview is absent and not in dry run, with the key's file name |
| `SceneProcessor.DryRunTouchesNothing` | helpers/scene_processor.py:31-147 | under dry run a scene's run leaves library and log as they were, only makes directories, and ends released unless it crashed or the file is missing |
| `SceneProcessor.HashStep` | helpers/scene_processor.py:68-78 | performs on service and log exactly the hash stage's calls and returns its tool runs and whether it failed |
| `SceneProcessor.GrabCover` | helpers/scene_processor.py:95-101 | returns exactly the extraction's ffmpeg runs and its one call |
| `SceneProcessor.ExtractCover` | helpers/scene_processor.py:95-109 | performs exactly the extraction's calls and returns its actions |
| `SceneProcessor.CoverStep` | helpers/scene_processor.py:80-112 | performs exactly the cover stage's calls and returns its actions |
| `SceneProcessor.SpriteStep` | helpers/scene_processor.py:114-127 | performs exactly the sprite stage's calls and returns its actions and whether it failed |
| `SceneProcessor.PreviewStep` | helpers/scene_processor.py:129-145 | performs exactly the preview stage's calls and returns its actions and whether it failed |
| `SceneProcessor.AssembleAfterHash` | helpers/scene_processor.py:80-147 | a run past a good hash is the claim, the hash stage, then cover, sprite, preview and release |
| `SceneProcessor.LaterStages` | helpers/scene_processor.py:80-147 | performs the calls after the hash stage and returns that part's ending and actions |
| `SceneProcessor.RunStages` | helpers/scene_processor.py:66-147 | performs the calls of the assembled stages and returns their ending and actions |
| `SceneProcessor.ProcessScene` | helpers/scene_processor.py:31-147 | `process_scene` performs on the service and the log exactly `Pipeline`'s calls, and returns its ending and actions |
| `SpriteGeometry.CellInside` | helpers/video_sprite_generator.py:104-112 | a column below `columns` and a row below `rows` give a cell inside the sprite |
| `SpriteGeometry.TileInside` | helpers/video_sprite_generator.py:81-82 | tile `i < columns*rows` lies wholly inside the `max_width*columns × max_height*rows` sprite |
| `SpriteGeometry.TilesDisjoint` | helpers/video_sprite_generator.py:110-111 | distinct indices give non-overlapping tiles |
| `SpriteGeometry.FrameTimeIs` | helpers/video_sprite_generator.py:51-54 | `i * interval` with `interval = duration/total_shots` is frame `i`'s time, and `time + interval` its cue end |
| `SpriteGeometry.CuesContiguous` | helpers/video_sprite_generator.py:77-78 | each cue ends where the next one starts |
| `SpriteGeometry.CuesCoverDuration` | helpers/video_sprite_generator.py:51-54 | the first cue starts at 0 and the last ends at the duration |
| `SpriteGeometry.FrameTimesIncrease` | video_sprite_generator.py:44-53 | frame times strictly increase from 0 and stay below the duration |
| `SpriteGeometry.ClockFields` | helpers/video_sprite_generator.py:88-92 | minutes and seconds are below 60, milliseconds below 1000, the fields add up to the truncated seconds, and the milliseconds are the truncated fraction |
| `SpriteGeometry.FormatClockShape` | helpers/video_sprite_generator.py:93 | the text is `HH:MM:SS.mmm` with separators in place, every field digits, and reading it back gives the fields |
| `SpriteGeometry.FormatTimeShape` | helpers/video_sprite_generator.py:88-93 | `format_time` of a non-negative time is `HH:MM:SS.mmm` and reads back to that time's clock fields |
| `SpriteGeometry.FrameNameOrder` | helpers/video_sprite_generator.py:55 | below 1000, `frame_{i:03d}.jpg` names sort in index order |
| `SpriteGeometry.FrameNameOrderBreaks` | video_sprite_generator.py:54 | at 1000 the order breaks: `frame_1000.jpg` sorts before `frame_999.jpg` |
| `SpriteGeometry.FrameNameInjective` | video_sprite_generator.py:54 | distinct frames have distinct names |
| `SpriteGeometry.FrameNameIsJpg` | video_sprite_generator.py:99 | every frame name passes the `.jpg` filter |
| `SpriteGeometry.FrameNamesSorted` | video_sprite_generator.py:99 | up to 1000 frames, their names in index order are strictly sorted |
| `SpriteGeometry.FramesContents` | helpers/video_sprite_generator.py:53-69 | the first `k` frames' directory holds exactly their names, each holding the still taken at that frame's time |
| `SpriteGeometry.FramesListing` | helpers/video_sprite_generator.py:98 | the frame names in index order are a listing of that directory |
| `SpriteGeometry.Stills` | helpers/video_sprite_generator.py:66-68 | one resized still per scheduled shot |
| `SpriteGeometry.FramePictures` | helpers/video_sprite_generator.py:96-100 | whatever listing the directory gives, sorting and filtering `.jpg` yields the frame names in index order, and their contents are the stills in schedule order |
| `SpriteGeometry.Paste` | helpers/video_sprite_generator.py:109-112 | picture `i` is pasted at `((i mod columns)*w, (i div columns)*h)` |
| `SpriteGeometry.PasteSnoc` | helpers/video_sprite_generator.py:109-112 | each loop step pastes one more picture at its tile |
| `SpriteGeometry.PasteAll` | helpers/video_sprite_generator.py:109-112 | the paste loop places every picture at its tile, in order |
| `SpriteGeometry.CueList` | helpers/video_sprite_generator.py:76-84 | `k` cues, cue `i` taken for index `i` |
| `SpriteGeometry.CueListPrefix` | helpers/video_sprite_generator.py:76-84 | the first `i` of `k` cues are the cue list of `i` |
| `SpriteGeometry.CueTextPrefix` | helpers/video_sprite_generator.py:83-84 | each cue's text is written after all earlier ones |
| `SpriteGeometry.CueSheetSnoc` | helpers/video_sprite_generator.py:83-84 | writing cue `i` after the sheet of `i` cues gives the sheet of `i + 1` |
| `SpriteGeometry.CueSheetOrder` | video_sprite_generator.py:48-88 | the sheet begins with `WEBVTT\n\n`, and cue `i` follows all cues before it |
| `SpriteGeometry.CueMatchesTile` | helpers/video_sprite_generator.py:81-84 | cue `i`'s `#xywh=` fragment is the tile picture `i` is pasted at, and it ends where cue `i + 1` starts |
| `SpriteGenerator.GrabbedRun` | helpers/video_sprite_generator.py:74-77 | futures are read in submission order, so the cues written are those before the first grab that raised |
| `SpriteGenerator.GrabbedRunIs` | helpers/video_sprite_generator.py:74-77 | that count is the first failing index, or all shots when none fails |
| `SpriteGenerator.AllGrabbed` | helpers/video_sprite_generator.py:53-74 | when every grab succeeds, the scratch directory holds exactly the scheduled frames |
| `SpriteGenerator.GrabbedListing` | helpers/video_sprite_generator.py:98 | the frame names are a listing of the grabbed frames |
| `SpriteGenerator.VideoSpriteGenerator.constructor` | helpers/video_sprite_generator.py:12-23 | the video path loses its surrounding quotes and the scratch directory is `screenshots_{filehash}` |
| `SpriteGenerator.VideoSpriteGenerator.Cleaned` | helpers/video_sprite_generator.py:37-41 | a regular file at the scratch name raises NotADirectoryError and changes nothing; otherwise a directory at the cue path raises IsADirectoryError after the scratch directory is removed; otherwise the scratch directory and the cue file are removed and nothing else changes |
| `SpriteGenerator.VideoSpriteGenerator.SpriteOfFrames` | helpers/video_sprite_generator.py:95-114 | with the whole schedule's frames present, the sprite is the stills pasted at their tiles on a sprite of the full size |
| `SpriteGenerator.VideoSpriteGenerator.ScreenshotsRun` | helpers/video_sprite_generator.py:43-86 | with nothing of the wrong kind in the clean step's way and a duration, the cue file holds the header and the cues of the frames before the first failing grab; the call raises that grab's error, or returns true |
| `SpriteGenerator.VideoSpriteGenerator.ScreenshotsAllGrabbed` | helpers/video_sprite_generator.py:43-86 | with nothing in the clean step's way, when every grab succeeds the cue file holds the full sheet and the scratch directory every frame |
| `SpriteGenerator.VideoSpriteGenerator.GeneratedSprite` | helpers/video_sprite_generator.py:120-124 | with nothing in the clean step's way, a full run writes the full cue sheet and the sprite of all stills, and removes the scratch directory |
| `SpriteGenerator.VideoSpriteGenerator.GeneratedNoDuration` | helpers/video_sprite_generator.py:32-35 | with nothing in the clean step's way, an unreadable or zero duration raises nothing: the run ends with no cue file, no scratch directory and no sprite written |
| `SpriteGenerator.VideoSpriteGenerator.GeneratedObstructed` | helpers/video_sprite_generator.py:37-44 | a file at the scratch name or a directory at the cue path makes the whole run raise what the clean step raised, with the disk it left |
| `SpriteGenerator.VideoSpriteGenerator.GeneratedGrabFailed` | helpers/video_sprite_generator.py:65-77 | with nothing in the clean step's way, a failing grab raises its error after the cues before it are written, and leaves the scratch directory |
| `SpriteGenerator.VideoSpriteGenerator.ScreenshotsKeepsFiles` | helpers/video_sprite_generator.py:43-86 | taking screenshots changes no file but the cue file |
| `SpriteGenerator.VideoSpriteGenerator.SpriteOfKeepsFiles` | helpers/video_sprite_generator.py:95-114 | building the sprite changes no file but the sprite and no directory |
| `SpriteGenerator.VideoSpriteGenerator.GeneratedKeepsFiles` | helpers/video_sprite_generator.py:120-124 | the whole run changes no file but the cue file and the sprite |
| `SpriteGenerator.VideoSpriteGenerator.GeneratedRaises` | helpers/video_sprite_generator.py:120-124 | the run raises exactly when the clean step meets an entry of the wrong kind, or a duration was read and a grab failed (or the geometry is empty), and a run that does not raise leaves no scratch directory |
| `SpriteGenerator.VideoSpriteGenerator.ListingOrderIrrelevant` | helpers/video_sprite_generator.py:98 | the sprite does not depend on the order `os.listdir` returns |
| `SpriteGenerator.VideoSpriteGenerator.CleanPreviousFiles` | helpers/video_sprite_generator.py:37-41 | the disk and result afterwards are `Cleaned` of the disk before |
| `SpriteGenerator.VideoSpriteGenerator.GrabFrames` | helpers/video_sprite_generator.py:73-74 | the scratch directory afterwards holds the frame of every grab that succeeded |
| `SpriteGenerator.VideoSpriteGenerator.WriteCues` | helpers/video_sprite_generator.py:76-84 | the loop over the futures yields the cue text and result of `CueOutcome` |
| `SpriteGenerator.VideoSpriteGenerator.TakeScreenshots` | helpers/video_sprite_generator.py:43-86 | the disk and result afterwards are what `Screenshots` says |
| `SpriteGenerator.VideoSpriteGenerator.CreateSprite` | helpers/video_sprite_generator.py:95-114 | the disk and result afterwards are what `SpriteOf` says |
| `SpriteGenerator.VideoSpriteGenerator.CleanUp` | helpers/video_sprite_generator.py:116-118 | only the scratch directory is removed |
| `SpriteGenerator.VideoSpriteGenerator.GenerateSprite` | helpers/video_sprite_generator.py:120-124 | the disk and result afterwards are what `Generated` says |
| `LegacySpriteGenerator.LegacySpriteGenerator.constructor` | video_sprite_generator.py:8-19 | the video path loses its surrounding quotes and frames go to `screenshots` |
| `LegacySpriteGenerator.LegacySpriteGenerator.Cleaned` | video_sprite_generator.py:26-33 | a regular file named `screenshots` raises NotADirectoryError and changes nothing; otherwise a directory at the cue path raises IsADirectoryError after the frame directory is removed; otherwise the frame directory and the cue file are removed and nothing else changes |
| `LegacySpriteGenerator.LegacySpriteGenerator.ScreenshotsNoDuration` | video_sprite_generator.py:21-43 | with nothing of the wrong kind in the clean step's way, an unreadable duration raises, after the old frame directory and cue file are removed and an empty frame directory is made |
| `LegacySpriteGenerator.LegacySpriteGenerator.ScreenshotsRun` | video_sprite_generator.py:35-88 | with nothing in the clean step's way, the cue file holds the header and the cues of the frames before the first failing grab; the frame directory holds exactly those frames |
| `LegacySpriteGenerator.LegacySpriteGenerator.SpriteOfNoFrames` | video_sprite_generator.py:100-101 | an empty frame directory, or one without `.jpg` names, makes `create_sprite` raise and change nothing |
| `LegacySpriteGenerator.LegacySpriteGenerator.SpriteOfFrames` | video_sprite_generator.py:97-119 | with every frame present, the sprite is the stills at their tiles, and the frames are removed afterwards |
| `LegacySpriteGenerator.LegacySpriteGenerator.ScreenshotsAllGrabbed` | video_sprite_generator.py:35-88 | with nothing in the clean step's way, when every grab succeeds the cue file holds the full sheet and the directory every frame |
| `LegacySpriteGenerator.LegacySpriteGenerator.GeneratedSprite` | video_sprite_generator.py:126-129 | with nothing in the clean step's way, a full run writes the full cue sheet and the sprite, and removes the frame directory |
| `LegacySpriteGenerator.LegacySpriteGenerator.ScreenshotsRaises` | video_sprite_generator.py:35-88 | taking screenshots raises exactly when the clean step meets an entry of the wrong kind, the duration is unreadable or a grab fails (or the geometry is empty) |
| `LegacySpriteGenerator.LegacySpriteGenerator.GeneratedObstructed` | video_sprite_generator.py:26-37 | a file named `screenshots` or a directory at the cue path makes both calls raise what the clean step raised, with the disk it left |
| `LegacySpriteGenerator.LegacySpriteGenerator.GeneratedRaises` | video_sprite_generator.py:126-129 | the whole run raises under the same conditions, and one that does not raise leaves no frame directory |
| `LegacySpriteGenerator.LegacySpriteGenerator.ScreenshotsKeepsFiles` | video_sprite_generator.py:35-88 | no file but the cue file changes |
| `LegacySpriteGenerator.LegacySpriteGenerator.SpriteOfKeepsFiles` | video_sprite_generator.py:97-119 | no file but the sprite changes |
| `LegacySpriteGenerator.LegacySpriteGenerator.GeneratedKeepsFiles` | video_sprite_generator.py:126-129 | no file but the cue file and the sprite changes |
| `LegacySpriteGenerator.LegacySpriteGenerator.CleanPreviousFiles` | video_sprite_generator.py:26-33 | the disk and result afterwards are `Cleaned` of the disk before |
| `LegacySpriteGenerator.LegacySpriteGenerator.TakeScreenshots` | video_sprite_generator.py:35-45 | the disk and result afterwards are what `Screenshots` says |
| `LegacySpriteGenerator.LegacySpriteGenerator.Shoot` | video_sprite_generator.py:47-88 | the shot loop leaves the frames and cue text of `ShotOutcome`, and its result |
| `LegacySpriteGenerator.LegacySpriteGenerator.ShootFrame` | video_sprite_generator.py:53-88 | a failing grab raises its error and changes nothing; a good one stores the still at frame `i`'s time under `frame_{i:03d}.jpg`, then with zero columns raises the modulo-by-zero error, and otherwise appends cue `i` to the cue file |
| `LegacySpriteGenerator.LegacySpriteGenerator.CreateSprite` | video_sprite_generator.py:97-119 | the disk and result afterwards are what `SpriteOf` says |
| `LegacySpriteGenerator.LegacySpriteGenerator.RemoveFrames` | video_sprite_generator.py:118-119 | exactly the listed frames leave the frame directory |
| `LegacySpriteGenerator.LegacySpriteGenerator.CleanUp` | video_sprite_generator.py:121-124 | only the frame directory is removed |
| `LegacySpriteGenerator.LegacySpriteGenerator.GenerateSprite` | video_sprite_generator.py:126-129 | the disk and result afterwards are what `Generated` says |
| `LegacySpriteGenerator.LegacySpriteGenerator.ListingOrderIrrelevant` | video_sprite_generator.py:99 | the sprite does not depend on the order `os.listdir` returns |
| `PreviewGenerator.ClipNames` | preview_video_generator.py:35-36 | clip `i` is named `clip_{i:03d}.mp4` |
| `PreviewGenerator.ClipEntries` | preview_video_generator.py:25-26 | exactly the working-directory entries (files or directories) that start with `clip_` and end with `.mp4` |
| `PreviewGenerator.ClipNameIsClipFile` | preview_video_generator.py:26-36 | every clip name passes the cleaning filter and is not the manifest |
| `PreviewGenerator.ClipNamesDistinct` | preview_video_generator.py:36 | the clip names are distinct |
| `PreviewGenerator.ClipNamesSorted` | preview_video_generator.py:72 | up to 1000 clips, sorting the clip list leaves it in index order |
| `PreviewGenerator.FirstFailure` | preview_video_generator.py:35-54 | the clips cut are those before the first ffmpeg run that fails |
| `PreviewGenerator.RemovedAll` | preview_video_generator.py:95-96 | removing distinct present files removes exactly them and succeeds |
| `PreviewGenerator.PreviewVideoGenerator.constructor` | preview_video_generator.py:6-14 | the input path loses its surrounding quotes; the other settings are kept as given |
| `PreviewGenerator.PreviewVideoGenerator.GetStartTimes` | preview_video_generator.py:59-68 | the loop yields exactly `StartTimes` |
| `PreviewGenerator.PreviewVideoGenerator.StartTimesRefused` | preview_video_generator.py:60-61 | `get_start_times` raises "Total clip length exceeds video duration after skip" exactly when `num_clips*clip_length > duration - skip_seconds` |
| `PreviewGenerator.PreviewVideoGenerator.StartTimesEvenlySpaced` | preview_video_generator.py:64-66 | otherwise it returns `num_clips` times, time `i` being `skip + (i+1)*(duration - skip - clip_length)/(num_clips + 1)` |
| `PreviewGenerator.PreviewVideoGenerator.StartTimeAt` | preview_video_generator.py:64-66 | the same formula for any one start time `i < num_clips` |
| `PreviewGenerator.PreviewVideoGenerator.StartTimesSpread` | preview_video_generator.py:64-66 | with a positive interval the times strictly increase, each exceeds `skip_seconds`, and each clip ends before the duration |
| `PreviewGenerator.PreviewVideoGenerator.StartTimeFits` | preview_video_generator.py:64-66 | any one clip starts after the skip and ends before the duration |
| `PreviewGenerator.PreviewVideoGenerator.ClipCommandShape` | preview_video_generator.py:37-53 | a clip command starts with ffmpeg, `-ss start -i file`, ends with the clip name, and holds `-an` exactly when audio is excluded, else the aac arguments |
| `PreviewGenerator.PreviewVideoGenerator.ConcatCommandShape` | preview_video_generator.py:75-90 | the concat command reads `clips.txt`, ends with the output path, and holds `-an` exactly when audio is excluded |
| `PreviewGenerator.PreviewVideoGenerator.ClipCommands` | preview_video_generator.py:35-53 | one command per start time, command `i` for clip `i` |
| `PreviewGenerator.PreviewVideoGenerator.WithClipsKeys` | preview_video_generator.py:35-55 | after `k` clips the files are the old ones plus the first `k` clip names |
| `PreviewGenerator.PreviewVideoGenerator.WithClipsContents` | preview_video_generator.py:35-55 | clip `i` holds the cut at start time `i`, and every other file is unchanged |
| `PreviewGenerator.PreviewVideoGenerator.WithClipsClips` | preview_video_generator.py:35-55 | each clip written holds the cut at its start time |
| `PreviewGenerator.PreviewVideoGenerator.WithClipsOthers` | preview_video_generator.py:35-55 | files that are not clips are untouched |
| `PreviewGenerator.PreviewVideoGenerator.Cut` | preview_video_generator.py:30-57 | when the clips are all cut, the result is the clip names in index order, one per start time, all present |
| `PreviewGenerator.PreviewVideoGenerator.GenerateClips` | preview_video_generator.py:30-57 | an unreadable duration raises and writes nothing; otherwise the files and result are what `Cut` says; directories are untouched |
| `PreviewGenerator.PreviewVideoGenerator.CutClips` | preview_video_generator.py:33-57 | the clips before the first failing run are written; the result is all clip names or that run's error |
| `PreviewGenerator.PreviewVideoGenerator.CutClip` | preview_video_generator.py:36-55 | one clip: its command is run, and the clip file is written exactly when the run succeeded |
| `PreviewGenerator.PreviewVideoGenerator.ManifestLines` | preview_video_generator.py:72-73 | one `file '<clip>'` line per clip, in the order given |
| `PreviewGenerator.PreviewVideoGenerator.ManifestInCutOrder` | preview_video_generator.py:71-73 | up to 1000 clips, the sorted manifest lists the clips in the order they were cut |
| `PreviewGenerator.PreviewVideoGenerator.Joined` | preview_video_generator.py:70-96 | joining changes no directory |
| `PreviewGenerator.PreviewVideoGenerator.WriteManifest` | preview_video_generator.py:71-73 | writes `clips.txt` with the manifest, or raises when a directory stands there |
| `PreviewGenerator.PreviewVideoGenerator.RemoveClips` | preview_video_generator.py:95-96 | the files and result afterwards are what `Removed` says for the clip list |
| `PreviewGenerator.PreviewVideoGenerator.ConcatenateClips` | preview_video_generator.py:70-96 | the disk and result afterwards are what `Joined` says |
| `PreviewGenerator.PreviewVideoGenerator.CleanPreviousClips` | preview_video_generator.py:23-27 | succeeds exactly when no directory has a clip name, and then removes exactly the files starting with `clip_` and ending with `.mp4` |
| `PreviewGenerator.PreviewVideoGenerator.RemoveIfClip` | preview_video_generator.py:26-27 | one entry: removed when it is a clip file, kept otherwise; raises when it is a clip-named directory |
| `PreviewGenerator.PreviewVideoGenerator.Made` | preview_video_generator.py:102-104 | cutting and joining changes no directory |
| `PreviewGenerator.PreviewVideoGenerator.MakePreview` | preview_video_generator.py:102-104 | the disk and result afterwards are what `Made` says |
| `PreviewGenerator.PreviewVideoGenerator.Previewed` | preview_video_generator.py:98-108 | the whole run changes no directory |
| `PreviewGenerator.PreviewVideoGenerator.JoinedOk` | preview_video_generator.py:70-96 | joining present clips succeeds exactly when no directory stands on `clips.txt` and the concat run succeeds |
| `PreviewGenerator.PreviewVideoGenerator.JoinedClips` | preview_video_generator.py:70-96 | a good join writes the output as the clips' contents in index order and removes the manifest and every clip |
| `PreviewGenerator.PreviewVideoGenerator.PreviewRaises` | preview_video_generator.py:98-108 | the run raises exactly when the duration is unreadable, a clip cannot be cut, `clips.txt` is a directory, or the concat fails |
| `PreviewGenerator.PreviewVideoGenerator.CutClipFiles` | preview_video_generator.py:35-55 | after cutting `k` clips into a directory without clips, the clip files are exactly those `k` |
| `PreviewGenerator.PreviewVideoGenerator.PreviewLeavesClips` | preview_video_generator.py:54-57 | when a clip run fails, its error is raised and the clips cut before it stay on disk |
| `PreviewGenerator.PreviewVideoGenerator.Produced` | preview_video_generator.py:90-91 | the preview holds one part per start time |
| `PreviewGenerator.PreviewVideoGenerator.ListedClips` | preview_video_generator.py:71-73 | the manifest's clips are all present and hold the cuts in start-time order |
| `PreviewGenerator.PreviewVideoGenerator.JoinedCutClips` | preview_video_generator.py:70-96 | joining freshly cut clips leaves only the preview and what was there before |
| `PreviewGenerator.PreviewVideoGenerator.PreviewMade` | preview_video_generator.py:98-108 | a good run leaves exactly the old files, without old clips and manifest, plus the preview of all start times |
| `PreviewGenerator.PreviewVideoGenerator.GeneratePreview` | preview_video_generator.py:98-108 | the disk and result afterwards are what `Previewed` says; a clip-named directory makes it raise first |
| `BatchMain.Defaults` | config.py:10-47 | as imported, sprites and previews are on, dry run, verbose and once are off, 25 scenes per page and 4 workers |
| `BatchMain.AppliedSettings` | phash_videohasher_main.py:16-26 | every switch is overwritten by the command line; batch size and worker count change only when given and non-zero |
| `BatchMain.AppliedIdempotent` | phash_videohasher_main.py:16-26 | applying the arguments twice is applying them once, and the old switches do not matter |
| `BatchMain.GeneratorsOffUnlessAsked` | phash_videohasher_main.py:18-19 | without `--generate-sprite` and `--generate-preview` both generators are turned off, although config.py ships them on |
| `BatchMain.Globals.constructor` | config.py:10-47 | the configuration module starts with its defaults |
| `BatchMain.Globals.ApplyCliArgs` | phash_videohasher_main.py:16-26 | the configuration afterwards is `Applied` to the one before |
| `BatchMain.WorkerConfig` | helpers/scene_processor.py:18-24 | dry run, tags and the generator switches a worker uses are the configuration's |
| `BatchMain.DryRunFlagIgnored` | helpers/stash_utils.py:4 | as written, under `--dry-run` the claim still sends its ADD request |
| `BatchMain.GeneratorFlagsIgnored` | helpers/scene_processor.py:20 | as written, the generators stay on without `--generate-sprite` and `--generate-preview` |
| `BatchMain.TempEntries` | phash_videohasher_main.py:29-30 | the working-directory entries starting with `preview_temp_`, `screenshots_` or `cover_temp_` |
| `BatchMain.CleanedExactly` | phash_videohasher_main.py:28-37 | cleaning removes exactly the scratch-named directories, keeping other directories with their contents and every file |
| `BatchMain.CleanedIdempotent` | phash_videohasher_main.py:28-37 | cleaning twice is cleaning once |
| `BatchMain.LeftoversCleaned` | phash_videohasher_main.py:28-37 | the cover, screenshot and preview scratch directories of any scene are removed |
| `BatchMain.CleanTempDirs` | phash_videohasher_main.py:28-37 | the disk afterwards is `Cleaned` of the disk before |
| `BatchMain.FirstUnnamed` | phash_videohasher_main.py:75-77 | the first scene from `i` on for which submission raises |
| `BatchMain.Submitted` | phash_videohasher_main.py:72-80 | no more scenes are submitted than the round has |
| `BatchMain.RoundCoverage` | phash_videohasher_main.py:53-91 | a round that goes on ran every scene; one stopped by an unnamed scene ran exactly those before it; a Ctrl+C runs those already submitted; no scenes ends the loop |
| `BatchMain.SubmittedRunsDoNotCrash` | phash_videohasher_main.py:79-80 | a submitted scene's run never raises out of `future.result()` |
| `BatchMain.DoubleClaim` | phash_videohasher_main.py:66-70 | the batch claim followed by the run's own claim acts as one claim |
| `BatchMain.RunRound` | phash_videohasher_main.py:54-91 | one round performs exactly every claim and then the submitted scenes' calls, runs their actions, and ends as `RoundEnd` says |
| `BatchMain.RoundEndBySubmitted` | phash_videohasher_main.py:72-91 | how a round ends is fixed by how many scenes were submitted, an interrupt, and `--once` |
| `BatchMain.RunSubmitted` | phash_videohasher_main.py:72-80 | submits scenes in order until Ctrl+C or a scene without a name, and runs each submitted one |
| `BatchMain.ClaimAll` | phash_videohasher_main.py:66-70 | every scene of the round is claimed, in order, before any is submitted |
| `BatchMain.ClaimStep` | phash_videohasher_main.py:67-70 | the claims of the first `i + 1` scenes are those of the first `i` followed by scene `i`'s claim |
| `BatchMain.ClaimOne` | phash_videohasher_main.py:67-70 | performs exactly that scene's claim step |
| `BatchMain.OnceRunsOneRound` | phash_videohasher_main.py:88-91 | under `--once` the loop stops after its first round, and its actions are that round's |
| `BatchMain.DryRunLoop` | phash_videohasher_main.py:53-94 | when the workers are in dry run, the loop leaves library and log as they were |
| `BatchMain.DryRunActions` | phash_videohasher_main.py:72-80 | under dry run the submitted runs of a round only make cover scratch directories |
| `BatchMain.DryRunLoopActions` | phash_videohasher_main.py:53-94 | under dry run every local action of every round is the making of a cover scratch directory: no tool or generator runs |
| `BatchMain.LoopDisk` | phash_videohasher_main.py:53-94 | the loop's own cleaning touches no file and removes only scratch directories, keeping every other directory with its contents; the workers' writes are the rounds' actions (`LoopActions`) |
| `BatchMain.RunBatches` | phash_videohasher_main.py:53-94 | service, log and disk afterwards, and the reason the loop ended, are what `Loop` says |
| `BatchMain.MainLoop` | phash_videohasher_main.py:39-94 | `main()`, with workers reading the configuration the command line left, performs `Loop` |
| `BatchMain.DryRunFlagHonoured` | phash_videohasher_main.py:20 | with that reading `--dry-run` keeps the whole loop away from the library and the log, and runs no tool |
| `LegacyHasher.PageChoiceCases` | phash_videohasher.py:93-109 | above 50 scenes there are at least two pages to draw from and the drawn page is fetched; 1 to 50 scenes are fetched all at once; with none nothing is fetched |
| `LegacyHasher.HashlessScenesShareArtifacts` | phash_videohasher.py:123-127 | without an oshash the key is empty, so the files are `…/_sprite.jpg`, `…/_thumbs.vtt` and `…/.mp4` for every such scene |
| `LegacyHasher.AfterHashEnd` | phash_videohasher.py:158-228 | after the hash, a raising screenshot fetch, sprite or preview ends the pass; otherwise the scene finishes |
| `LegacyHasher.SceneWorkEnd` | phash_videohasher.py:115-230 | how a scene ends agrees with `ExpectedEnd`, an independent case list |
| `LegacyHasher.NotJsonSkips` | phash_videohasher.py:136-143 | non-JSON output adds the hashing error tag, removes the hashing tag, and moves to the next scene after only the tool run |
| `LegacyHasher.NoFingerprintsAfterHash` | phash_videohasher.py:149-228 | nothing after the hash touches fingerprints |
| `LegacyHasher.PhashStored` | phash_videohasher.py:145-147 | the phash is stored exactly when the JSON has a non-empty `phash`, as the scene's first request |
| `LegacyHasher.CoverFailureContinues` | phash_videohasher.py:184-187 | a cover failure (no frame produced, or the upload request raised) adds the cover error tag and removes the hashing tag, the grabbed image is removed when it exists, and the sprite, preview and release still follow |
| `LegacyHasher.CoverFailureAfterHash` | phash_videohasher.py:158-228 | the same, stated on the part after the hash |
| `LegacyHasher.ArtifactsGating` | phash_videohasher.py:196-228 | the sprite is built exactly when absent, the preview exactly when absent and the sprite did not raise, and the scene finishes exactly when neither raised |
| `LegacyHasher.EarlyEffects` | phash_videohasher.py:135-190 | the hash part only runs the tool; the cover part only grabs and removes the image |
| `LegacyHasher.ArtifactGating` | phash_videohasher.py:196-225 | a generator runs in the scene's effects exactly when the hash parsed and the fetch did not raise, and the artifact step runs it |
| `LegacyHasher.SceneTags` | phash_videohasher.py:136-228 | a finished scene ends with its old tags, plus the cover error tag after a cover failure, without the hashing tag; a non-JSON scene with the hashing error tag, without the hashing tag |
| `LegacyHasher.FinishedTags` | phash_videohasher.py:145-228 | the finished case of `SceneTags`, stated on the parts |
| `LegacyHasher.HashPartTags` | phash_videohasher.py:135-147 | a hash part that goes on leaves the scene's tags alone |
| `LegacyHasher.CoverPartTags` | phash_videohasher.py:158-190 | a cover part that goes on changes the tags only on a cover failure, that is no frame produced or an upload request that raised: cover error added, hashing removed |
| `LegacyHasher.ReleaseTags` | phash_videohasher.py:228 | the final REMOVE takes the hashing tag off whatever came before |
| `LegacyHasher.Claims` | phash_videohasher.py:112-113 | one ADD of the hashing tag per fetched scene, in order |
| `LegacyHasher.ClaimsTagAll` | phash_videohasher.py:112-113 | after the claim loop every fetched scene has the hashing tag, other scenes are unchanged, and no tag is lost |
| `LegacyHasher.Works` | phash_videohasher.py:115-230 | one part per scene, the scene's own run |
| `LegacyHasher.FirstCrashOf` | phash_videohasher.py:115-230 | the first scene whose run raised |
| `LegacyHasher.JoinedCrash` | phash_videohasher.py:115-230 | the pass raises exactly when some scene raised, and then it is the pass up to and including that scene |
| `LegacyHasher.FirstCrash` | phash_videohasher.py:115-230 | the first scene that `ExpectedEnd` says raises |
| `LegacyHasher.FirstCrashAgrees` | phash_videohasher.py:115-230 | the first raising run and the first scene expected to raise are the same |
| `LegacyHasher.PassWorkCrash` | phash_videohasher.py:115-230 | the pass stops with an exception exactly when some scene is expected to raise, at the first one |
| `LegacyHasher.StagesAddressScene` | phash_videohasher.py:116-228 | a scene's run tags no other scene |
| `LegacyHasher.JoinedAvoids` | phash_videohasher.py:115-230 | runs that tag no scene `s` join into a pass that tags no scene `s` |
| `LegacyHasher.CrashStrandsLaterClaims` | phash_videohasher.py:112-135 | when a scene raises, every scene after it keeps the hashing tag the claim loop gave it |
| `LegacyHasher.HashScene` | phash_videohasher.py:116-230 | one scene's loop body sends exactly `SceneWork`'s requests and returns its effects and ending |
| `LegacyHasher.HashStep` | phash_videohasher.py:135-147 | sends exactly the hash part's requests |
| `LegacyHasher.LaterSteps` | phash_videohasher.py:149-230 | sends exactly the requests after the hash |
| `LegacyHasher.ArtifactsStep` | phash_videohasher.py:196-230 | sends exactly the artifact part's requests |
| `LegacyHasher.CoverStep` | phash_videohasher.py:158-190 | sends exactly the cover part's requests |
| `LegacyHasher.HashPass` | phash_videohasher.py:89-230 | the pass raises exactly when some scene is expected to raise, and sends exactly the claims then the scenes' requests up to that point |
| `LegacyHasher.ClaimEvery` | phash_videohasher.py:112-113 | sends exactly one ADD of the hashing tag per scene |

## Left out

- The Stash client itself is not modelled: connection, GraphQL, authentication and `find_scenes`. Each round's scenes, the scene count (`get_total_scene_count`) and the eligible-scene query (`get_scenes_to_process`) are inputs. The second query of the legacy pass is also an input.
- Rather than queries, a round is given as its scenes. Discovery is not modelled: helpers/scene_discovery.py is not part of this model. A round with no scenes ends the loop.
- helpers/preview_video_generator.py is not part of this model. The preview step of `process_scene` is an outcome. The only preview generator modelled is preview_video_generator.py, which the legacy hasher uses.
- The external tools (videohashes, ffmpeg, ffprobe) are not modelled. Each run is an outcome: raised, or finished with or without producing its file. Their output is text given as input.
- PIL's open, resize, paste and save are not modelled. A sprite is its size and the list of placed stills, a still is the video and time it was taken from, and a preview is the list of its clips.
- `float(result.stdout)` is an `Option<real>`, and `str(float)` is a function parameter `repr`. Times are exact reals, so IEEE rounding is not modelled. For example, the last cue ends exactly at the duration.
- requests.get, `decode('latin_1')` and base64 are not modelled. The fetched body and the encoded cover are inputs. The cover content is `data:image/jpg;base64,` followed by the encoded input.
- os.path.abspath, `os.path.normpath` and `os.path.exists` are not modelled. What exists is an input, and paths are used as given.
- The disk is two levels deep: working-directory files, and directories holding files. That is all the generators use.
- Concurrency is not modelled. The worker pool of phash_videohasher_main.py runs the submitted scenes one after another, in submission order. The pool inside helpers/video_sprite_generator.py is modelled by reading futures in submission order, which is what the loop at lines 76-77 does. Interleavings of different scenes sharing the service or the disk are not modelled.
- KeyboardInterrupt is not modelled as a moment in time. It is the index at which submission stops. Ctrl+C during the claim loop, during cleaning, or during `time.sleep` is left out.
- Printing, `tqdm`, timestamps, `reset_terminal`, `log_scene_failure`, `verbose` and the `--windows` platform switch are not modelled. `--windows` is kept as a field, but the model does not follow what it changes in the worker's configuration.
- A scene's local effects (the cover scratch directory, the generator calls) are a list of actions. They are not applied to the disk model. Each generator is modelled and proved on its own.
- BatchMain.RunBatches: states the service calls, the log, the disk and how the loop ended. Each round's actions are returned by `RunRound` but are not collected across rounds by the method. They are stated by the function `LoopActions`, with `OnceRunsOneRound` and `DryRunLoopActions` about it.
- BatchMain.ClaimStep: a claim that raises is modelled as sending nothing. Whether the service applied it before raising is not modelled.
- A phash request (helpers/scene_processor.py:74) or a cover upload (phash_videohasher.py:180) that raises inside its `try` is modelled as sending nothing and then failing that stage. Whether the service applied it before raising is not modelled.
- The hash tool's JSON is modelled as a map from names to strings. Other JSON values are not modelled: a `phash` of 0, null or false fails the truthiness test at phash_videohasher.py:145 and is skipped; for a JSON list or string, `"phash" in results` tests for an element or a substring; and helpers/scene_processor.py:74 passes whatever value `phash` holds on to the service.
- SceneProcessor.CoverStage: an exception from `update_cover` inside the inner `try` is modelled through the service's answer only. A network exception there would be caught by line 105 and tag a cover error; that case is not modelled.
- Shell quoting in phash_videohasher.py (lines 150-155) is not modelled, because it matters only to `os.system`. The grab command is not built as text: the cover grab is an effect naming the video and the image.
- The recursion of the legacy `main()` at line 232 is not modelled. One pass is, and so is the `exit()` when nothing is eligible.
- LegacyHasher.PageChoiceCases: `random.randrange` and `random.choices` are not modelled. Their results are parameters, constrained to what they can return.
- Strings.PaddedNameOrder, SpriteGeometry.FrameNamesSorted, PreviewGenerator.ClipNamesSorted: index order and name order are proved equal only below 1000. `SpriteGeometry.FrameNameOrderBreaks` shows that they part at 1000.
- BatchMain.SubmittedRunsDoNotCrash: holds because no service request in the model raises. In the code, `claim_scene` (helpers/scene_processor.py:66), `release_scene` (line 147) and the `tag_scene_error` calls at lines 63, 77, 112, 126 and 144 sit outside any `try`, as do the writes to error_log.txt inside `tag_scene_error`. A Stash or disk error there would leave through `future.result()` (phash_videohasher_main.py:80) and end `main`; that failure is not modelled.
- LegacyHasher.SceneWorkEnd: a failing service request is not among the crash causes. The claim loop (phash_videohasher.py:113), the tag requests at lines 140-141 and 186-187, `file_set_fingerprints` at line 147 and the release at line 228 are not guarded either, and each would end the pass if it raised.
- Strings.Lower: lowers ASCII letters only. Every comparison after lowering is with an ASCII word, so this limit changes no outcome.

## Findings

| source | as written | input that shows it | evidently intended | confidence | as-written member | corrected member |
|---|---|---|---|---|---|---|
| helpers/scene_processor.py:18-24, helpers/stash_utils.py:4 | the workers import `dry_run`, `generate_sprite` and `generate_preview` by value when the module loads. That happens before `apply_cli_args` runs (phash_videohasher_main.py:16-26), so the command line never reaches them | `--dry-run`: the batch claim and every wrapper still send their requests. No `--generate-sprite`: sprites are built anyway, since config.py ships `True` | the workers read the values the command line left in the configuration module | not executed | `BatchMain.SeenByWorkers`, `BatchMain.DryRunFlagIgnored`, `BatchMain.GeneratorFlagsIgnored` | `BatchMain.WorkerConfig`, `BatchMain.MainLoop`, `BatchMain.DryRunFlagHonoured` |
