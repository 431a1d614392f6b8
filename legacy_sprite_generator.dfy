/** `video_sprite_generator.py`: the older sprite generator. It grabs the frames one after
    the other into the fixed directory `screenshots`, writes each frame's cue as soon as the
    frame is taken, and stops at the first exception, which propagates to its caller. */
module LegacySpriteGenerator {
  import opened Wrappers
  import opened Strings
  import opened Disk
  import opened SpriteGeometry
  import opened SpriteGenerator

  class LegacySpriteGenerator {
    const video: string
    const outputDir: string
    const spritePath: string
    const vttPath: string
    const geometry: Geometry

    /** Lines 8-19: the video path loses surrounding quotes; frames go to `screenshots`. */
    constructor (videoPath: string, spritePath: string, vttPath: string, geometry: Geometry)
      ensures video == Strip(Strip(videoPath, '"'), '\'') && outputDir == "screenshots"
      ensures this.spritePath == spritePath && this.vttPath == vttPath && this.geometry == geometry
    {
      video := Strip(Strip(videoPath, '"'), '\'');
      outputDir := "screenshots";
      this.spritePath := spritePath;
      this.vttPath := vttPath;
      this.geometry := geometry;
    }

    /** An entry of the wrong kind stands where `clean_previous_files` removes one: a
        regular file named `screenshots`, or a directory other than it at the cue path. */
    predicate Obstructed(s: Store) {
      (outputDir in s.files && outputDir !in s.dirs) || (vttPath in s.dirs && vttPath != outputDir && vttPath !in s.files)
    }

    /** `clean_previous_files`: an existing frame directory and cue sheet are removed, and
        nothing else changes. `rmtree` on a regular file raises NotADirectoryError before
        anything is removed; `os.remove` on a directory raises IsADirectoryError once the
        frame directory is gone. */
    function Cleaned(s: Store): (r: (Store, Result<()>))
      ensures r.1.Ok? <==> !Obstructed(s)
      ensures r.1.Ok? ==> r.0.dirs == s.dirs - {outputDir} && r.0.files == s.files - {vttPath}
      ensures outputDir in s.files && outputDir !in s.dirs ==> r == (s, Raised(NOT_A_DIRECTORY))
      ensures !(outputDir in s.files && outputDir !in s.dirs) && Obstructed(s) ==>
        r.1 == Raised(IS_A_DIRECTORY) && r.0.dirs == s.dirs - {outputDir} && r.0.files == s.files
    {
      if outputDir in s.files && outputDir !in s.dirs then (s, Raised(NOT_A_DIRECTORY))
      else
        var s1 := if outputDir in s.dirs then WithoutDir(s, outputDir) else s;
        if vttPath in s1.files then (WithoutFile(s1, vttPath), Ok(()))
        else if vttPath in s1.dirs then (s1, Raised(IS_A_DIRECTORY))
        else (s1, Ok(()))
    }

    /** The frame directory, the cue sheet text and the result the frame loop of
        `take_screenshots` ends with: frames up to the first failed grab, each followed by
        its cue. With no columns the first frame is written and its cue then fails on
        `i % 0`. */
    function ShotOutcome(duration: real, grab: nat -> Grab): (map<string, Content>, string, Result<()>)
      requires geometry.totalShots > 0
    {
      var n := geometry.totalShots;
      var k := GrabbedRun(grab, n, 0);
      if geometry.columns == 0 then
        (Frames(geometry, video, duration, if k == 0 then 0 else 1), VTT_HEADER,
         Raised(if k == 0 then grab(0).message else MODULO_BY_ZERO))
      else
        (Frames(geometry, video, duration, k), CueSheet(geometry, duration, Basename(spritePath), k),
         if k == n then Ok(()) else Raised(grab(k).message))
    }

    /** `take_screenshots` on the file system `s`, for the ffprobe result `probe` (None when
        its output is not a number) and the grab outcomes. */
    function Screenshots(s: Store, probe: Option<real>, grab: nat -> Grab): (Store, Result<()>) {
      var (c, e) := Cleaned(s);
      var ready := WithDir(c, outputDir);
      if e.Raised? then (c, e)
      else if probe.None? then (ready, Raised(NOT_A_NUMBER))
      else if geometry.totalShots == 0 then (ready, Raised(FLOAT_DIVISION_BY_ZERO))
      else
        var (frames, text, r) := ShotOutcome(probe.value, grab);
        (WithFile(ready.(dirs := ready.dirs[outputDir := frames]), vttPath, Text(text)), r)
    }

    /** `create_sprite`, with `listing` the order `os.listdir` returned: the `.jpg` frames
        in name order are pasted, the sprite is saved and then each pasted frame is
        removed. */
    function SpriteOf(s: Store, listing: seq<string>): (Store, Result<()>)
      requires outputDir in s.dirs ==> IsListing(listing, s.dirs[outputDir].Keys)
    {
      if outputDir !in s.dirs then (s, Raised(NO_SUCH_FILE))
      else
        var names := EndingWith(Sort(listing), ".jpg");
        SortMembers(listing);
        if names == [] then (s, Raised(NO_IMAGES))
        else if geometry.columns == 0 then (s, Raised(MODULO_BY_ZERO))
        else
          var tiles := Paste(geometry, ContentsOf(s.dirs[outputDir], names));
          var saved := WithFile(s, spritePath, Mosaic(SpriteWidth(geometry), SpriteHeight(geometry), tiles));
          (saved.(dirs := saved.dirs[outputDir := s.dirs[outputDir] - Members(names)]), Ok(()))
    }

    /** `generate_sprite`: screenshots, sprite, clean-up, each skipped once an exception
        has been raised. */
    function Generated(s: Store, probe: Option<real>, grab: nat -> Grab): (Store, Result<()>) {
      var (s1, r1) := Screenshots(s, probe, grab);
      if r1.Raised? then (s1, r1)
      else
        var n := geometry.totalShots;
        FramesListing(geometry, video, probe.value, n);
        var (s2, r2) := SpriteOf(s1, FrameNames(n));
        if r2.Raised? then (s2, r2) else (WithoutDir(s2, outputDir), Ok(()))
    }

    /** Lines 26-41 and 43: whatever else was there before, once the clean step succeeds an
        unreadable duration leaves an empty frame directory and no cue sheet, and raises. */
    lemma ScreenshotsNoDuration(s: Store, grab: nat -> Grab)
      ensures var (s', r) := Screenshots(s, None, grab);
        !Obstructed(s) ==>
          r == Raised(NOT_A_NUMBER)
          && s'.files == s.files - {vttPath} && s'.dirs == (s.dirs - {outputDir})[outputDir := map[]]
    {
    }

    /** With a frame count and columns, the frame directory holds exactly the frames before
        the first failed grab, the cue sheet their cues in index order, and `take_screenshots`
        raises that grab's exception if there is one. */
    lemma ScreenshotsRun(s: Store, duration: real, grab: nat -> Grab)
      requires !Obstructed(s) && geometry.totalShots > 0 && geometry.columns > 0
      ensures var (s', r) := Screenshots(s, Some(duration), grab);
        var n := geometry.totalShots;
        var k := GrabbedRun(grab, n, 0);
        r == (if k == n then Ok(()) else Raised(grab(k).message))
        && s'.files == s.files[vttPath := Text(CueSheet(geometry, duration, Basename(spritePath), k))]
        && s'.dirs == s.dirs[outputDir := Frames(geometry, video, duration, k)]
    {
      var n := geometry.totalShots;
      var k := GrabbedRun(grab, n, 0);
      var sheet := CueSheet(geometry, duration, Basename(spritePath), k);
      var frames := Frames(geometry, video, duration, k);
      var ready := WithDir(Cleaned(s).0, outputDir);
      assert ready == Store(s.files - {vttPath}, (s.dirs - {outputDir})[outputDir := map[]]);
      var shot := ready.(dirs := ready.dirs[outputDir := frames]);
      assert Screenshots(s, Some(duration), grab).0 == WithFile(shot, vttPath, Text(sheet));
      assert WithFile(shot, vttPath, Text(sheet)).files == s.files[vttPath := Text(sheet)] by {
        Overwritten(s.files, vttPath, Text(sheet), Text(sheet));
      }
      assert shot.dirs == s.dirs[outputDir := frames] by {
        Overwritten(s.dirs, outputDir, map[], frames);
        Overwritten(s.dirs, outputDir, frames, map[]);
      }
    }

    /** Lines 100-101: a frame directory without `.jpg` files makes `create_sprite` raise
        and change nothing. */
    lemma SpriteOfNoFrames(s: Store, listing: seq<string>)
      requires outputDir in s.dirs && IsListing(listing, s.dirs[outputDir].Keys)
      requires forall name :: name in s.dirs[outputDir] ==> !EndsWith(name, ".jpg")
      ensures SpriteOf(s, listing) == (s, Raised(NO_IMAGES))
    {
      var names := EndingWith(Sort(listing), ".jpg");
      SortMembers(listing);
      assert |names| == 0 by {
        if |names| > 0 {
          FirstMember(names);
        }
      }
    }

    /** With the frames of the whole schedule in the frame directory, `create_sprite`
        pastes them in index order and leaves the directory empty. */
    lemma SpriteOfFrames(s: Store, duration: real)
      requires 0 < geometry.totalShots <= 1000 && geometry.columns > 0
      requires outputDir in s.dirs && s.dirs[outputDir] == Frames(geometry, video, duration, geometry.totalShots)
      ensures IsListing(FrameNames(geometry.totalShots), s.dirs[outputDir].Keys)
      ensures var (s', r) := SpriteOf(s, FrameNames(geometry.totalShots));
        r == Ok(()) && s'.dirs == s.dirs[outputDir := map[]]
        && s'.files == s.files[spritePath := Mosaic(SpriteWidth(geometry), SpriteHeight(geometry), Paste(geometry, Stills(geometry, video, duration)))]
    {
      var n := geometry.totalShots;
      var frames := Frames(geometry, video, duration, n);
      var names := EndingWith(Sort(FrameNames(n)), ".jpg");
      assert IsListing(FrameNames(n), frames.Keys) && names == FrameNames(n)
          && ContentsOf(frames, names) == Stills(geometry, video, duration) by {
        FramesListing(geometry, video, duration, n);
        FramePictures(geometry, video, duration, FrameNames(n));
      }
      assert names != [] by {
        assert |FrameNames(n)| == n;
      }
      assert frames - Members(names) == map[] by {
        FramesContents(geometry, video, duration, n);
      }
    }

    /** When every grab succeeds, `take_screenshots` leaves the frames of the schedule and
        the full cue sheet. */
    lemma ScreenshotsAllGrabbed(s: Store, duration: real, grab: nat -> Grab)
      requires !Obstructed(s) && geometry.totalShots > 0 && geometry.columns > 0
      requires forall j :: 0 <= j < geometry.totalShots ==> grab(j).Grabbed?
      ensures var (s', r) := Screenshots(s, Some(duration), grab);
        r == Ok(())
        && s'.files == s.files[vttPath := Text(CueSheet(geometry, duration, Basename(spritePath), geometry.totalShots))]
        && s'.dirs == s.dirs[outputDir := Frames(geometry, video, duration, geometry.totalShots)]
    {
      var n := geometry.totalShots;
      assert GrabbedRun(grab, n, 0) == n by {
        GrabbedRunIs(grab, n, 0, n);
      }
      ScreenshotsRun(s, duration, grab);
    }

    /** A run in which every grab succeeds leaves the cue sheet of all frames, a sprite of
        the frames pasted in index order, and no frame directory; nothing else changes. */
    lemma GeneratedSprite(s: Store, duration: real, grab: nat -> Grab)
      requires !Obstructed(s) && 0 < geometry.totalShots <= 1000 && geometry.columns > 0
      requires forall j :: 0 <= j < geometry.totalShots ==> grab(j).Grabbed?
      ensures var (s', r) := Generated(s, Some(duration), grab);
        r == Ok(()) && s'.dirs == s.dirs - {outputDir}
        && s'.files == s.files[vttPath := Text(CueSheet(geometry, duration, Basename(spritePath), geometry.totalShots))]
                              [spritePath := Mosaic(SpriteWidth(geometry), SpriteHeight(geometry), Paste(geometry, Stills(geometry, video, duration)))]
    {
      var n := geometry.totalShots;
      var frames := Frames(geometry, video, duration, n);
      var s1 := Store(s.files[vttPath := Text(CueSheet(geometry, duration, Basename(spritePath), n))],
                      s.dirs[outputDir := frames]);
      assert Screenshots(s, Some(duration), grab) == (s1, Ok(())) by {
        ScreenshotsAllGrabbed(s, duration, grab);
      }
      var sprite := Mosaic(SpriteWidth(geometry), SpriteHeight(geometry), Paste(geometry, Stills(geometry, video, duration)));
      var s2 := Store(s1.files[spritePath := sprite], s1.dirs[outputDir := map[]]);
      assert SpriteOf(s1, FrameNames(n)) == (s2, Ok(())) by {
        SpriteOfFrames(s1, duration);
      }
      assert Generated(s, Some(duration), grab) == (WithoutDir(s2, outputDir), Ok(()));
      assert s2.dirs - {outputDir} == s.dirs - {outputDir} by {
        UpdateOutside(s1.dirs, outputDir, map[], {outputDir});
        UpdateOutside(s.dirs, outputDir, frames, {outputDir});
      }
    }

    /** `take_screenshots` raises exactly when the clean step does, the duration is
        unreadable, there are no frames or no columns, or some grab fails. */
    lemma ScreenshotsRaises(s: Store, probe: Option<real>, grab: nat -> Grab)
      ensures var n := geometry.totalShots;
        Screenshots(s, probe, grab).1.Raised? <==>
          Obstructed(s) || probe.None? || n == 0 || geometry.columns == 0 || GrabbedRun(grab, n, 0) < n
    {
    }

    /** Lines 26-33 and 37: an entry of the wrong kind at `screenshots` or the cue path
        makes `take_screenshots`, and so `generate_sprite`, raise what the clean step
        raised, with the disk as that step left it. */
    lemma GeneratedObstructed(s: Store, probe: Option<real>, grab: nat -> Grab)
      requires Obstructed(s)
      ensures Screenshots(s, probe, grab) == Cleaned(s) && Generated(s, probe, grab) == Cleaned(s)
    {
    }

    /** `generate_sprite` raises exactly when `take_screenshots` does; after a return no
        frame directory is left. */
    lemma GeneratedRaises(s: Store, probe: Option<real>, grab: nat -> Grab)
      ensures var (s', r) := Generated(s, probe, grab);
        var n := geometry.totalShots;
        (r.Raised? <==> Obstructed(s) || probe.None? || n == 0 || geometry.columns == 0 || GrabbedRun(grab, n, 0) < n)
        && (r.Ok? ==> outputDir !in s'.dirs)
    {
      var n := geometry.totalShots;
      var (s1, r1) := Screenshots(s, probe, grab);
      ScreenshotsRaises(s, probe, grab);
      if r1.Ok? {
        var d := probe.value;
        assert outputDir in s1.dirs && s1.dirs[outputDir] == Frames(geometry, video, d, n) by {
          ScreenshotsRun(s, d, grab);
        }
        FramesListing(geometry, video, d, n);
        assert SpriteOf(s1, FrameNames(n)).1 == Ok(()) by {
          var names := EndingWith(Sort(FrameNames(n)), ".jpg");
          assert FrameName(0) in names by {
            SortMembers(FrameNames(n));
            FrameNameIsJpg(0);
            assert FrameNames(n)[0] == FrameName(0);
          }
        }
      }
    }

    /** `take_screenshots` writes no file other than the cue sheet. */
    lemma ScreenshotsKeepsFiles(s: Store, probe: Option<real>, grab: nat -> Grab)
      ensures Screenshots(s, probe, grab).0.files - {vttPath} == s.files - {vttPath}
    {
      var (c, e) := Cleaned(s);
      var ready := WithDir(c, outputDir);
      assert e.Ok? ==> ready.files - {vttPath} == s.files - {vttPath};
      if e.Ok? && probe.Some? && geometry.totalShots > 0 {
        var text := ShotOutcome(probe.value, grab).1;
        UpdateOutside(ready.files, vttPath, Text(text), {vttPath});
      }
    }

    /** `create_sprite` writes no file other than the sprite. */
    lemma SpriteOfKeepsFiles(s: Store, listing: seq<string>)
      requires outputDir in s.dirs ==> IsListing(listing, s.dirs[outputDir].Keys)
      ensures SpriteOf(s, listing).0.files - {spritePath} == s.files - {spritePath}
    {
      if outputDir in s.dirs && geometry.columns > 0 {
        var names := EndingWith(Sort(listing), ".jpg");
        SortMembers(listing);
        var tiles := Paste(geometry, ContentsOf(s.dirs[outputDir], names));
        UpdateOutside(s.files, spritePath, Mosaic(SpriteWidth(geometry), SpriteHeight(geometry), tiles), {spritePath});
      }
    }

    /** Only the sprite and the cue sheet may differ after `generate_sprite`. */
    lemma GeneratedKeepsFiles(s: Store, probe: Option<real>, grab: nat -> Grab)
      ensures Generated(s, probe, grab).0.files - {vttPath, spritePath} == s.files - {vttPath, spritePath}
    {
      var ks := {vttPath, spritePath};
      var (s1, r1) := Screenshots(s, probe, grab);
      assert s1.files - ks == s.files - ks by {
        ScreenshotsKeepsFiles(s, probe, grab);
        SameOutside(s1.files, s.files, vttPath, ks);
      }
      if r1.Ok? {
        var n := geometry.totalShots;
        FramesListing(geometry, video, probe.value, n);
        var s2 := SpriteOf(s1, FrameNames(n)).0;
        assert s2.files - ks == s1.files - ks by {
          SpriteOfKeepsFiles(s1, FrameNames(n));
          SameOutside(s2.files, s1.files, spritePath, ks);
        }
      }
    }

    method CleanPreviousFiles(fs: FileSystem) returns (r: Result<()>)
      modifies fs
      ensures (fs.State(), r) == Cleaned(old(fs.State()))
    {
      if Exists(fs.State(), outputDir) {
        if outputDir !in fs.dirs {
          return Raised(NOT_A_DIRECTORY);
        }
        fs.RemoveTree(outputDir);
      }
      if Exists(fs.State(), vttPath) {
        if vttPath !in fs.files {
          return Raised(IS_A_DIRECTORY);
        }
        fs.Remove(vttPath);
      }
      return Ok(());
    }

    /** Lines 35-45: the clean-up, the frame directory and the duration. */
    method TakeScreenshots(fs: FileSystem, probe: Option<real>, grab: nat -> Grab) returns (r: Result<()>)
      modifies fs
      ensures fs.State() == Screenshots(old(fs.State()), probe, grab).0
      ensures r == Screenshots(old(fs.State()), probe, grab).1
    {
      r := CleanPreviousFiles(fs);
      if r.Raised? {
        return;
      }
      fs.MakeDirs(outputDir);
      if probe.None? {
        return Raised(NOT_A_NUMBER);
      }
      if geometry.totalShots == 0 {
        return Raised(FLOAT_DIVISION_BY_ZERO);
      }
      r := Shoot(fs, probe.value, grab);
    }

    /** Lines 47-88: one frame and then its cue per index, until a grab raises. */
    method Shoot(fs: FileSystem, duration: real, grab: nat -> Grab) returns (r: Result<()>)
      requires geometry.totalShots > 0 && outputDir in fs.dirs && fs.dirs[outputDir] == map[]
      modifies fs
      ensures var (frames, text, res) := ShotOutcome(duration, grab);
        fs.dirs == old(fs.dirs)[outputDir := frames] && fs.files == old(fs.files)[vttPath := Text(text)] && r == res
    {
      var n := geometry.totalShots;
      var interval := duration / n as real;
      var spriteName := Basename(spritePath);
      var text := VTT_HEADER;
      fs.Write(vttPath, Text(text));
      ghost var k := GrabbedRun(grab, n, 0);
      var i := 0;
      while i < n
        invariant 0 <= i <= k && outputDir in fs.dirs
        invariant i > 0 ==> geometry.columns > 0
        invariant fs.dirs == old(fs.dirs)[outputDir := Frames(geometry, video, duration, i)]
        invariant fs.files == old(fs.files)[vttPath := Text(text)]
        invariant geometry.columns > 0 ==> text == CueSheet(geometry, duration, spriteName, i)
        invariant geometry.columns == 0 ==> text == VTT_HEADER
      {
        var step := ShootFrame(fs, duration, i, interval, text, grab(i));
        if step.Raised? {
          assert grab(i).GrabFailed? ==> i == k;
          return Raised(step.message);
        }
        Overwritten(old(fs.dirs), outputDir, Frames(geometry, video, duration, i + 1), Frames(geometry, video, duration, i));
        Overwritten(old(fs.files), vttPath, Text(step.value), Text(text));
        CueSheetSnoc(geometry, duration, spriteName, i);
        text := step.value;
        i := i + 1;
      }
      return Ok(());
    }

    /** One pass of the loop at lines 53-88, after the interval is known: the grab, the
        frame `i`, then its cue. A failed grab, and with no columns the cue's tile, raise. */
    method ShootFrame(fs: FileSystem, duration: real, i: nat, interval: real, text: string, grab: Grab)
      returns (r: Result<string>)
      requires geometry.totalShots > 0 && interval == duration / geometry.totalShots as real
      requires outputDir in fs.dirs
      modifies fs
      ensures grab.GrabFailed? ==> r == Raised(grab.message) && fs.dirs == old(fs.dirs) && fs.files == old(fs.files)
      ensures grab.Grabbed? ==> fs.dirs == old(fs.dirs)[outputDir := old(fs.dirs)[outputDir][FrameName(i) :=
        Still(video, FrameTime(duration, geometry.totalShots, i), geometry.tileWidth, geometry.tileHeight)]]
      ensures grab.Grabbed? && geometry.columns == 0 ==> r == Raised(MODULO_BY_ZERO) && fs.files == old(fs.files)
      ensures grab.Grabbed? && geometry.columns > 0 ==>
        r == Ok(text + RenderCue(Basename(spritePath), CueOf(geometry, duration, i)))
        && fs.files == old(fs.files)[vttPath := Text(r.value)]
    {
      var time := 0.0 + i as real * interval;
      FrameTimeIs(duration, geometry.totalShots, i, interval);
      if grab.GrabFailed? {
        return Raised(grab.message);
      }
      fs.WriteIn(outputDir, FrameName(i), Still(video, time, geometry.tileWidth, geometry.tileHeight));
      var endTime := time + interval;
      if geometry.columns == 0 {
        return Raised(MODULO_BY_ZERO);
      }
      var x := (i % geometry.columns) * geometry.tileWidth;
      var y := (i / geometry.columns) * geometry.tileHeight;
      var cue := Cue(time, endTime, x, y, geometry.tileWidth, geometry.tileHeight);
      var next := text + RenderCue(Basename(spritePath), cue);
      fs.Write(vttPath, Text(next));
      return Ok(next);
    }

    /** Lines 97-119. */
    method CreateSprite(fs: FileSystem, listing: seq<string>) returns (r: Result<()>)
      requires outputDir in fs.dirs ==> IsListing(listing, fs.dirs[outputDir].Keys)
      modifies fs
      ensures fs.State() == SpriteOf(old(fs.State()), listing).0
      ensures r == SpriteOf(old(fs.State()), listing).1
    {
      if outputDir !in fs.dirs {
        return Raised(NO_SUCH_FILE);
      }
      SortMembers(listing);
      var names := EndingWith(Sort(listing), ".jpg");
      var images := ContentsOf(fs.dirs[outputDir], names);
      if images == [] {
        return Raised(NO_IMAGES);
      }
      if geometry.columns == 0 {
        return Raised(MODULO_BY_ZERO);
      }
      var tiles := PasteAll(geometry, images);
      fs.Write(spritePath, Mosaic(SpriteWidth(geometry), SpriteHeight(geometry), tiles));
      RemoveFrames(fs, names);
      return Ok(());
    }

    /** Lines 118-119: each pasted frame is removed from the frame directory. */
    method RemoveFrames(fs: FileSystem, names: seq<string>)
      requires outputDir in fs.dirs
      modifies fs
      ensures fs.files == old(fs.files)
      ensures fs.dirs == old(fs.dirs)[outputDir := old(fs.dirs)[outputDir] - Members(names)]
    {
      ghost var frames := fs.dirs[outputDir];
      assert fs.dirs[outputDir := frames - Members(names[..0])] == fs.dirs by {
        assert Members(names[..0]) == {} && frames - {} == frames;
      }
      var i := 0;
      while i < |names|
        invariant 0 <= i <= |names| && outputDir in fs.dirs
        invariant fs.files == old(fs.files)
        invariant fs.dirs == old(fs.dirs)[outputDir := frames - Members(names[..i])]
      {
        ghost var before := frames - Members(names[..i]);
        fs.RemoveIn(outputDir, names[i]);
        assert before - {names[i]} == frames - Members(names[..i + 1]) by {
          assert names[..i + 1] == names[..i] + [names[i]];
          MembersSnoc(names[..i], names[i]);
        }
        Overwritten(old(fs.dirs), outputDir, before - {names[i]}, before);
        i := i + 1;
      }
      assert names[..i] == names;
    }

    method CleanUp(fs: FileSystem)
      modifies fs
      ensures fs.State() == WithoutDir(old(fs.State()), outputDir)
    {
      if outputDir in fs.dirs {
        fs.RemoveTree(outputDir);
      }
    }

    /** Lines 126-129. */
    method GenerateSprite(fs: FileSystem, probe: Option<real>, grab: nat -> Grab) returns (r: Result<()>)
      modifies fs
      ensures fs.State() == Generated(old(fs.State()), probe, grab).0
      ensures r == Generated(old(fs.State()), probe, grab).1
    {
      r := TakeScreenshots(fs, probe, grab);
      if r.Raised? {
        return;
      }
      ghost var n := geometry.totalShots;
      FramesListing(geometry, video, probe.value, n);
      var listing := fs.ListDir(outputDir);
      ListingOrderIrrelevant(fs.State(), listing, FrameNames(n));
      r := CreateSprite(fs, listing);
      if r.Raised? {
        return;
      }
      CleanUp(fs);
    }

    /** `create_sprite` sorts what `os.listdir` returned, so the order of the listing does
        not matter. */
    lemma ListingOrderIrrelevant(s: Store, listing: seq<string>, other: seq<string>)
      requires outputDir in s.dirs && IsListing(listing, s.dirs[outputDir].Keys) && IsListing(other, s.dirs[outputDir].Keys)
      ensures SpriteOf(s, listing) == SpriteOf(s, other)
    {
      SortListingIndependent(listing, other);
    }
  }
}
