/** `helpers/video_sprite_generator.py`: the per-scene sprite and cue sheet. Frames are
    grabbed by a pool of workers into `screenshots_<key>`; every submitted grab runs to its
    end before the pool is left, and the cue loop takes the results in submission order.
    Each grab is an outcome given to the model. */
module SpriteGenerator {
  import opened Wrappers
  import opened Strings
  import opened Disk
  import opened SpriteGeometry

  /** What the worker for one frame ends with: ffmpeg (run with `check=True`) and the resize
      either wrote the frame or raised. */
  datatype Grab = Grabbed | GrabFailed(message: string)

  const NO_IMAGES: string := "Something went wrong, no images found to create sprite"

  /** The index of the first frame, from `i` on, whose grab failed, or `n` when none did. */
  function GrabbedRun(grab: nat -> Grab, n: nat, i: nat): (k: nat)
    requires i <= n
    ensures i <= k <= n
    ensures forall j :: i <= j < k ==> grab(j).Grabbed?
    ensures k < n ==> grab(k).GrabFailed?
    decreases n - i
  {
    if i == n || grab(i).GrabFailed? then i else GrabbedRun(grab, n, i + 1)
  }

  /** The run ends at the first failed grab. */
  lemma {:induction false} GrabbedRunIs(grab: nat -> Grab, n: nat, i: nat, k: nat)
    requires i <= k <= n
    requires forall j :: i <= j < k ==> grab(j).Grabbed?
    requires k == n || grab(k).GrabFailed?
    ensures GrabbedRun(grab, n, i) == k
    decreases k - i
  {
    if i < k {
      GrabbedRunIs(grab, n, i + 1, k);
    }
  }

  /** The scratch directory once the pool is done: every frame below `k` whose grab
      succeeded. */
  function GrabbedFrames(g: Geometry, video: string, duration: real, grab: nat -> Grab, k: nat): map<string, Content>
    requires g.totalShots > 0
  {
    if k == 0 then map[]
    else
      var rest := GrabbedFrames(g, video, duration, grab, k - 1);
      if grab(k - 1).Grabbed?
      then rest[FrameName(k - 1) := Still(video, FrameTime(duration, g.totalShots, k - 1), g.tileWidth, g.tileHeight)]
      else rest
  }

  /** When every grab succeeds the directory holds exactly the frames of the schedule. */
  lemma {:induction false} AllGrabbed(g: Geometry, video: string, duration: real, grab: nat -> Grab, k: nat)
    requires g.totalShots > 0
    requires forall j :: 0 <= j < k ==> grab(j).Grabbed?
    ensures GrabbedFrames(g, video, duration, grab, k) == Frames(g, video, duration, k)
  {
    if k > 0 {
      AllGrabbed(g, video, duration, grab, k - 1);
    }
  }

  /** When every grab succeeds the frame names in index order list the directory. */
  lemma GrabbedListing(g: Geometry, video: string, duration: real, grab: nat -> Grab, k: nat)
    requires g.totalShots > 0
    requires forall j :: 0 <= j < k ==> grab(j).Grabbed?
    ensures IsListing(FrameNames(k), GrabbedFrames(g, video, duration, grab, k).Keys)
  {
    AllGrabbed(g, video, duration, grab, k);
    FramesListing(g, video, duration, k);
  }

  class VideoSpriteGenerator {
    const video: string
    const tempDir: string
    const spritePath: string
    const vttPath: string
    const geometry: Geometry

    /** Lines 12-23: the video path loses surrounding quotes; the scratch directory is named
        after the scene's key. */
    constructor (videoPath: string, spritePath: string, vttPath: string, filehash: string, geometry: Geometry)
      ensures video == Strip(Strip(videoPath, '"'), '\'') && tempDir == "screenshots_" + filehash
      ensures this.spritePath == spritePath && this.vttPath == vttPath && this.geometry == geometry
    {
      video := Strip(Strip(videoPath, '"'), '\'');
      tempDir := "screenshots_" + filehash;
      this.spritePath := spritePath;
      this.vttPath := vttPath;
      this.geometry := geometry;
    }

    /** An entry of the wrong kind stands where `clean_previous_files` removes one: a
        regular file at the scratch name, or a directory other than it at the cue path. */
    predicate Obstructed(s: Store) {
      (tempDir in s.files && tempDir !in s.dirs) || (vttPath in s.dirs && vttPath != tempDir && vttPath !in s.files)
    }

    /** `clean_previous_files`: an existing scratch directory and cue sheet are removed, and
        nothing else changes. `rmtree` on a regular file raises NotADirectoryError before
        anything is removed; `os.remove` on a directory raises IsADirectoryError once the
        scratch directory is gone. */
    function Cleaned(s: Store): (r: (Store, Result<()>))
      ensures r.1.Ok? <==> !Obstructed(s)
      ensures r.1.Ok? ==> r.0.dirs == s.dirs - {tempDir} && r.0.files == s.files - {vttPath}
      ensures tempDir in s.files && tempDir !in s.dirs ==> r == (s, Raised(NOT_A_DIRECTORY))
      ensures !(tempDir in s.files && tempDir !in s.dirs) && Obstructed(s) ==>
        r.1 == Raised(IS_A_DIRECTORY) && r.0.dirs == s.dirs - {tempDir} && r.0.files == s.files
    {
      if tempDir in s.files && tempDir !in s.dirs then (s, Raised(NOT_A_DIRECTORY))
      else
        var s1 := if tempDir in s.dirs then WithoutDir(s, tempDir) else s;
        if vttPath in s1.files then (WithoutFile(s1, vttPath), Ok(()))
        else if vttPath in s1.dirs then (s1, Raised(IS_A_DIRECTORY))
        else (s1, Ok(()))
    }

    /** The cue sheet text and the result `take_screenshots` ends with, once the pool's grabs
        are done: cues in index order up to the first failed grab, whose exception then
        propagates. */
    function CueOutcome(duration: real, grab: nat -> Grab): (string, Result<bool>)
      requires geometry.totalShots > 0
    {
      var n := geometry.totalShots;
      var k := GrabbedRun(grab, n, 0);
      if geometry.columns == 0 then (VTT_HEADER, Raised(if k == 0 then grab(0).message else MODULO_BY_ZERO))
      else (CueSheet(geometry, duration, Basename(spritePath), k), if k == n then Ok(true) else Raised(grab(k).message))
    }

    /** `take_screenshots` on the file system `s`, for the ffprobe result `probe` (None when
        its output is not a number) and the grab outcomes. */
    function Screenshots(s: Store, probe: Option<real>, grab: nat -> Grab): (Store, Result<bool>) {
      var (c, e) := Cleaned(s);
      var ready := WithDir(c, tempDir);
      var n := geometry.totalShots;
      if e.Raised? then (c, Raised(e.message))
      else if probe.None? || probe.value == 0.0 then (ready, Ok(false))
      else if n == 0 then (ready, Raised(FLOAT_DIVISION_BY_ZERO))
      else
        var d := probe.value;
        var shot := ready.(dirs := ready.dirs[tempDir := GrabbedFrames(geometry, video, d, grab, n)]);
        var (text, r) := CueOutcome(d, grab);
        (WithFile(shot, vttPath, Text(text)), r)
    }

    /** `create_sprite`, with `listing` the order `os.listdir` returned. */
    function SpriteOf(s: Store, listing: seq<string>): (Store, Result<()>)
      requires tempDir in s.dirs ==> IsListing(listing, s.dirs[tempDir].Keys)
    {
      if tempDir !in s.dirs then (s, Raised(NO_SUCH_FILE))
      else
        var names := EndingWith(Sort(listing), ".jpg");
        SortMembers(listing);
        if names == [] then (s, Raised(NO_IMAGES))
        else if geometry.columns == 0 then (s, Raised(MODULO_BY_ZERO))
        else
          var tiles := Paste(geometry, ContentsOf(s.dirs[tempDir], names));
          (WithFile(s, spritePath, Mosaic(SpriteWidth(geometry), SpriteHeight(geometry), tiles)), Ok(()))
    }

    /** `generate_sprite`: screenshots, the sprite when they succeeded, then the scratch
        directory is removed; an exception skips what follows it. */
    function Generated(s: Store, probe: Option<real>, grab: nat -> Grab): (Store, Result<()>) {
      var (s1, r1) := Screenshots(s, probe, grab);
      if r1.Raised? then (s1, Raised(r1.message))
      else if !r1.value then (WithoutDir(s1, tempDir), Ok(()))
      else
        var k := geometry.totalShots;
        GrabbedListing(geometry, video, probe.value, grab, k);
        var (s2, r2) := SpriteOf(s1, FrameNames(k));
        if r2.Raised? then (s2, r2) else (WithoutDir(s2, tempDir), Ok(()))
    }

    /** With the frames of the whole schedule in the scratch directory, `create_sprite`
        pastes them in index order (the names sort as the indices below 1000). */
    lemma SpriteOfFrames(s: Store, duration: real)
      requires 0 < geometry.totalShots <= 1000 && geometry.columns > 0
      requires tempDir in s.dirs && s.dirs[tempDir] == Frames(geometry, video, duration, geometry.totalShots)
      ensures IsListing(FrameNames(geometry.totalShots), s.dirs[tempDir].Keys)
      ensures SpriteOf(s, FrameNames(geometry.totalShots))
        == (WithFile(s, spritePath, Mosaic(SpriteWidth(geometry), SpriteHeight(geometry), Paste(geometry, Stills(geometry, video, duration)))), Ok(()))
    {
      var n := geometry.totalShots;
      FramesListing(geometry, video, duration, n);
      FramePictures(geometry, video, duration, FrameNames(n));
    }

    /** With a duration, frames and columns, `take_screenshots` leaves every successful grab's
        frame in the scratch directory and the cues up to the first failed grab in the cue
        sheet, and returns True exactly when no grab failed. */
    lemma ScreenshotsRun(s: Store, duration: real, grab: nat -> Grab)
      requires !Obstructed(s) && geometry.totalShots > 0 && geometry.columns > 0 && duration != 0.0
      ensures var (s', r) := Screenshots(s, Some(duration), grab);
        var n := geometry.totalShots;
        var k := GrabbedRun(grab, n, 0);
        r == (if k == n then Ok(true) else Raised(grab(k).message))
        && s'.files == s.files[vttPath := Text(CueSheet(geometry, duration, Basename(spritePath), k))]
        && s'.dirs == s.dirs[tempDir := GrabbedFrames(geometry, video, duration, grab, n)]
    {
      var n := geometry.totalShots;
      var k := GrabbedRun(grab, n, 0);
      var sheet := CueSheet(geometry, duration, Basename(spritePath), k);
      var frames := GrabbedFrames(geometry, video, duration, grab, n);
      var ready := WithDir(Cleaned(s).0, tempDir);
      assert ready == Store(s.files - {vttPath}, (s.dirs - {tempDir})[tempDir := map[]]);
      var shot := ready.(dirs := ready.dirs[tempDir := frames]);
      assert Screenshots(s, Some(duration), grab).0 == WithFile(shot, vttPath, Text(sheet));
      assert WithFile(shot, vttPath, Text(sheet)).files == s.files[vttPath := Text(sheet)] by {
        Overwritten(s.files, vttPath, Text(sheet), Text(sheet));
      }
      assert shot.dirs == s.dirs[tempDir := frames] by {
        Overwritten(s.dirs, tempDir, map[], frames);
        Overwritten(s.dirs, tempDir, frames, map[]);
      }
    }

    /** When every grab succeeds, `take_screenshots` leaves the frames of the schedule and
        the full cue sheet. */
    lemma ScreenshotsAllGrabbed(s: Store, duration: real, grab: nat -> Grab)
      requires !Obstructed(s) && geometry.totalShots > 0 && geometry.columns > 0 && duration != 0.0
      requires forall j :: 0 <= j < geometry.totalShots ==> grab(j).Grabbed?
      ensures var (s', r) := Screenshots(s, Some(duration), grab);
        r == Ok(true)
        && s'.files == s.files[vttPath := Text(CueSheet(geometry, duration, Basename(spritePath), geometry.totalShots))]
        && s'.dirs == s.dirs[tempDir := Frames(geometry, video, duration, geometry.totalShots)]
    {
      var n := geometry.totalShots;
      assert GrabbedRun(grab, n, 0) == n by {
        GrabbedRunIs(grab, n, 0, n);
      }
      assert GrabbedFrames(geometry, video, duration, grab, n) == Frames(geometry, video, duration, n) by {
        AllGrabbed(geometry, video, duration, grab, n);
      }
      ScreenshotsRun(s, duration, grab);
    }

    /** A run in which every grab succeeds leaves the cue sheet of all frames, a sprite of
        the frames pasted in index order, and no scratch directory; nothing else changes. */
    lemma GeneratedSprite(s: Store, duration: real, grab: nat -> Grab)
      requires !Obstructed(s) && 0 < geometry.totalShots <= 1000 && geometry.columns > 0 && duration != 0.0
      requires forall j :: 0 <= j < geometry.totalShots ==> grab(j).Grabbed?
      ensures var (s', r) := Generated(s, Some(duration), grab);
        r == Ok(()) && s'.dirs == s.dirs - {tempDir}
        && s'.files == s.files[vttPath := Text(CueSheet(geometry, duration, Basename(spritePath), geometry.totalShots))]
                              [spritePath := Mosaic(SpriteWidth(geometry), SpriteHeight(geometry), Paste(geometry, Stills(geometry, video, duration)))]
    {
      var n := geometry.totalShots;
      var s1 := Screenshots(s, Some(duration), grab).0;
      var sprite := Mosaic(SpriteWidth(geometry), SpriteHeight(geometry), Paste(geometry, Stills(geometry, video, duration)));
      SpriteAfterAllGrabbed(s, duration, grab);
      assert Generated(s, Some(duration), grab) == (WithoutDir(WithFile(s1, spritePath, sprite), tempDir), Ok(()));
      UpdateOutside(s.dirs, tempDir, Frames(geometry, video, duration, n), {tempDir});
    }

    /** When every grab succeeds, `create_sprite` pastes the frames `take_screenshots` left. */
    lemma SpriteAfterAllGrabbed(s: Store, duration: real, grab: nat -> Grab)
      requires !Obstructed(s) && 0 < geometry.totalShots <= 1000 && geometry.columns > 0 && duration != 0.0
      requires forall j :: 0 <= j < geometry.totalShots ==> grab(j).Grabbed?
      ensures var (s1, r1) := Screenshots(s, Some(duration), grab);
        var n := geometry.totalShots;
        var sprite := Mosaic(SpriteWidth(geometry), SpriteHeight(geometry), Paste(geometry, Stills(geometry, video, duration)));
        r1 == Ok(true)
        && s1.files == s.files[vttPath := Text(CueSheet(geometry, duration, Basename(spritePath), n))]
        && s1.dirs == s.dirs[tempDir := Frames(geometry, video, duration, n)]
        && IsListing(FrameNames(n), s1.dirs[tempDir].Keys)
        && SpriteOf(s1, FrameNames(n)) == (WithFile(s1, spritePath, sprite), Ok(()))
    {
      var s1 := Screenshots(s, Some(duration), grab).0;
      ScreenshotsAllGrabbed(s, duration, grab);
      SpriteOfFrames(s1, duration);
    }

    /** Without a usable duration no frame is grabbed: once the clean step succeeds the
        previous cue sheet and scratch directory are gone, nothing else changes and nothing
        is raised. */
    lemma GeneratedNoDuration(s: Store, probe: Option<real>, grab: nat -> Grab)
      requires probe.None? || probe.value == 0.0
      ensures var (s', r) := Generated(s, probe, grab);
        !Obstructed(s) ==> r == Ok(()) && s'.dirs == s.dirs - {tempDir} && s'.files == s.files - {vttPath}
    {
    }

    /** Lines 37-41 and 43-44: an entry of the wrong kind at the scratch name or the cue path
        makes `generate_sprite` raise what the clean step raised, with the disk as that step
        left it. */
    lemma GeneratedObstructed(s: Store, probe: Option<real>, grab: nat -> Grab)
      requires Obstructed(s)
      ensures Generated(s, probe, grab) == Cleaned(s)
    {
    }

    /** A failed grab surfaces when the cue loop reaches it: the cue sheet stops before its
        cue, every grab still wrote its frame, no sprite is made and the scratch directory
        stays. */
    lemma GeneratedGrabFailed(s: Store, duration: real, grab: nat -> Grab, k: nat)
      requires !Obstructed(s) && 0 < geometry.totalShots && geometry.columns > 0 && duration != 0.0
      requires k < geometry.totalShots && grab(k).GrabFailed?
      requires forall j :: 0 <= j < k ==> grab(j).Grabbed?
      ensures var (s', r) := Generated(s, Some(duration), grab);
        r == Raised(grab(k).message)
        && s'.files == s.files[vttPath := Text(CueSheet(geometry, duration, Basename(spritePath), k))]
        && s'.dirs == s.dirs[tempDir := GrabbedFrames(geometry, video, duration, grab, geometry.totalShots)]
    {
      assert GrabbedRun(grab, geometry.totalShots, 0) == k by {
        GrabbedRunIs(grab, geometry.totalShots, 0, k);
      }
      ScreenshotsRun(s, duration, grab);
    }

    /** `take_screenshots` changes no file but the cue sheet. */
    lemma ScreenshotsKeepsFiles(s: Store, probe: Option<real>, grab: nat -> Grab)
      ensures Screenshots(s, probe, grab).0.files - {vttPath} == s.files - {vttPath}
    {
      var (c, e) := Cleaned(s);
      var ready := WithDir(c, tempDir);
      assert e.Ok? ==> ready.files == s.files - {vttPath};
      assert e.Ok? ==> ready.files - {vttPath} == s.files - {vttPath};
      if e.Ok? && probe.Some? && probe.value != 0.0 && geometry.totalShots > 0 {
        var text := CueOutcome(probe.value, grab).0;
        var shot := ready.(dirs := ready.dirs[tempDir := GrabbedFrames(geometry, video, probe.value, grab, geometry.totalShots)]);
        assert Screenshots(s, probe, grab).0.files == ready.files[vttPath := Text(text)];
        UpdateOutside(ready.files, vttPath, Text(text), {vttPath});
      }
    }

    /** `create_sprite` changes no file but the sprite, and no scratch directory. */
    lemma SpriteOfKeepsFiles(s: Store, listing: seq<string>)
      requires tempDir in s.dirs ==> IsListing(listing, s.dirs[tempDir].Keys)
      ensures SpriteOf(s, listing).0.files - {spritePath} == s.files - {spritePath}
      ensures SpriteOf(s, listing).0.dirs == s.dirs
    {
      var s' := SpriteOf(s, listing).0;
      if s' != s {
        assert s' == WithFile(s, spritePath, s'.files[spritePath]);
        UpdateOutside(s.files, spritePath, s'.files[spritePath], {spritePath});
      }
    }

    /** After a `take_screenshots` that returns true, the scratch directory holds exactly the
        frames of the whole schedule. */
    lemma ScreenshotsListing(s: Store, probe: Option<real>, grab: nat -> Grab)
      ensures var (s1, r1) := Screenshots(s, probe, grab);
        r1.Ok? && r1.value ==> tempDir in s1.dirs && IsListing(FrameNames(geometry.totalShots), s1.dirs[tempDir].Keys)
    {
      var (s1, r1) := Screenshots(s, probe, grab);
      if r1.Ok? && r1.value {
        var n := geometry.totalShots;
        var k := GrabbedRun(grab, n, 0);
        assert k == n && s1.dirs[tempDir] == GrabbedFrames(geometry, video, probe.value, grab, n);
        GrabbedListing(geometry, video, probe.value, grab, n);
      }
    }

    /** Only the sprite and the cue sheet may differ after `generate_sprite`. */
    lemma GeneratedKeepsFiles(s: Store, probe: Option<real>, grab: nat -> Grab)
      ensures Generated(s, probe, grab).0.files - {vttPath, spritePath} == s.files - {vttPath, spritePath}
    {
      var ks := {vttPath, spritePath};
      var (s1, r1) := Screenshots(s, probe, grab);
      ScreenshotsKeepsFiles(s, probe, grab);
      SameOutside(s1.files, s.files, vttPath, ks);
      ScreenshotsListing(s, probe, grab);
      if r1.Ok? && r1.value {
        var listing := FrameNames(geometry.totalShots);
        SpriteOfKeepsFiles(s1, listing);
        SameOutside(SpriteOf(s1, listing).0.files, s1.files, spritePath, ks);
      }
    }

    /** `generate_sprite` raises exactly when the clean step does, or there is a duration
        and the frame count is zero, the column count is zero or some grab fails; it
        returns with no scratch directory left. */
    lemma GeneratedRaises(s: Store, probe: Option<real>, grab: nat -> Grab)
      ensures var (s', r) := Generated(s, probe, grab);
        var n := geometry.totalShots;
        (r.Raised? <==> Obstructed(s) || (probe.Some? && probe.value != 0.0
                        && (n == 0 || geometry.columns == 0 || GrabbedRun(grab, n, 0) < n)))
        && (r.Ok? ==> tempDir !in s'.dirs)
    {
      var n := geometry.totalShots;
      if Obstructed(s) {
        GeneratedObstructed(s, probe, grab);
      } else if probe.None? || probe.value == 0.0 {
        GeneratedNoDuration(s, probe, grab);
      } else if n == 0 || geometry.columns == 0 {
        assert Screenshots(s, probe, grab).1.Raised?;
      } else {
        var d := probe.value;
        var k := GrabbedRun(grab, n, 0);
        ScreenshotsRun(s, d, grab);
        var (s1, r1) := Screenshots(s, probe, grab);
        if k == n {
          assert s1.dirs[tempDir] == Frames(geometry, video, d, n) by {
            AllGrabbed(geometry, video, d, grab, n);
          }
          assert IsListing(FrameNames(n), s1.dirs[tempDir].Keys) by {
            FramesListing(geometry, video, d, n);
          }
          assert FrameName(0) in EndingWith(Sort(FrameNames(n)), ".jpg") by {
            SortMembers(FrameNames(n));
            FrameNameIsJpg(0);
            assert FrameNames(n)[0] == FrameName(0);
          }
          assert SpriteOf(s1, FrameNames(n)).1 == Ok(());
        }
      }
    }

    /** `create_sprite` sorts what `os.listdir` returned, so the order of the listing does
        not matter. */
    lemma ListingOrderIrrelevant(s: Store, listing: seq<string>, other: seq<string>)
      requires tempDir in s.dirs && IsListing(listing, s.dirs[tempDir].Keys) && IsListing(other, s.dirs[tempDir].Keys)
      ensures SpriteOf(s, listing) == SpriteOf(s, other)
    {
      SortListingIndependent(listing, other);
    }

    method CleanPreviousFiles(fs: FileSystem) returns (r: Result<()>)
      modifies fs
      ensures (fs.State(), r) == Cleaned(old(fs.State()))
    {
      if Exists(fs.State(), tempDir) {
        if tempDir !in fs.dirs {
          return Raised(NOT_A_DIRECTORY);
        }
        fs.RemoveTree(tempDir);
      }
      if Exists(fs.State(), vttPath) {
        if vttPath !in fs.files {
          return Raised(IS_A_DIRECTORY);
        }
        fs.Remove(vttPath);
      }
      return Ok(());
    }

    /** The pool of lines 73-74: each grab that succeeds writes its frame. */
    method GrabFrames(fs: FileSystem, duration: real, grab: nat -> Grab)
      requires geometry.totalShots > 0 && tempDir in fs.dirs && fs.dirs[tempDir] == map[]
      modifies fs
      ensures fs.State() == old(fs.State()).(dirs := old(fs.dirs)[tempDir := GrabbedFrames(geometry, video, duration, grab, geometry.totalShots)])
    {
      ghost var ready := fs.State();
      var i := 0;
      while i < geometry.totalShots
        invariant 0 <= i <= geometry.totalShots && tempDir in fs.dirs
        invariant fs.State() == ready.(dirs := ready.dirs[tempDir := GrabbedFrames(geometry, video, duration, grab, i)])
      {
        if grab(i).Grabbed? {
          fs.WriteIn(tempDir, FrameName(i), Still(video, FrameTime(duration, geometry.totalShots, i), geometry.tileWidth, geometry.tileHeight));
        }
        i := i + 1;
      }
    }

    /** Lines 76-84: the results are taken in submission order and a cue is written for
        each, until a grab's exception surfaces. */
    method WriteCues(duration: real, grab: nat -> Grab) returns (text: string, r: Result<bool>)
      requires geometry.totalShots > 0
      ensures (text, r) == CueOutcome(duration, grab)
    {
      var n := geometry.totalShots;
      text := VTT_HEADER;
      if geometry.columns == 0 {
        return text, Raised(if grab(0).GrabFailed? then grab(0).message else MODULO_BY_ZERO);
      }
      var spriteName := Basename(spritePath);
      var cues := CueList(geometry, duration, n);
      // the first result that re-raises its grab's exception ends the loop
      var k := GrabbedRun(grab, n, 0);
      var i := 0;
      while i < k
        invariant 0 <= i <= k
        invariant text == CueText(spriteName, cues[..i])
      {
        CueTextSnoc(spriteName, cues, i);
        text := text + RenderCue(spriteName, cues[i]);
        i := i + 1;
      }
      CueListPrefix(geometry, duration, k, n);
      if k < n {
        return text, Raised(grab(k).message);
      }
      return text, Ok(true);
    }

    /** Lines 43-86. */
    method TakeScreenshots(fs: FileSystem, probe: Option<real>, grab: nat -> Grab) returns (r: Result<bool>)
      modifies fs
      ensures (fs.State(), r) == Screenshots(old(fs.State()), probe, grab)
    {
      var cleaned := CleanPreviousFiles(fs);
      if cleaned.Raised? {
        return Raised(cleaned.message);
      }
      fs.MakeDirs(tempDir);
      if probe.None? || probe.value == 0.0 {
        return Ok(false);
      }
      if geometry.totalShots == 0 {
        return Raised(FLOAT_DIVISION_BY_ZERO);
      }
      GrabFrames(fs, probe.value, grab);
      var text;
      text, r := WriteCues(probe.value, grab);
      fs.Write(vttPath, Text(text));
    }

    method CreateSprite(fs: FileSystem, listing: seq<string>) returns (r: Result<()>)
      requires tempDir in fs.dirs ==> IsListing(listing, fs.dirs[tempDir].Keys)
      modifies fs
      ensures (fs.State(), r) == SpriteOf(old(fs.State()), listing)
    {
      if tempDir !in fs.dirs {
        return Raised(NO_SUCH_FILE);
      }
      SortMembers(listing);
      var names := EndingWith(Sort(listing), ".jpg");
      var images := ContentsOf(fs.dirs[tempDir], names);
      if images == [] {
        return Raised(NO_IMAGES);
      }
      if geometry.columns == 0 {
        return Raised(MODULO_BY_ZERO);
      }
      ghost var s0 := fs.State();
      var tiles := PasteAll(geometry, images);
      var sprite := Mosaic(SpriteWidth(geometry), SpriteHeight(geometry), tiles);
      assert SpriteOf(s0, listing) == (WithFile(s0, spritePath, sprite), Ok(()));
      fs.Write(spritePath, sprite);
      return Ok(());
    }

    method CleanUp(fs: FileSystem)
      modifies fs
      ensures fs.State() == WithoutDir(old(fs.State()), tempDir)
    {
      if tempDir in fs.dirs {
        fs.RemoveTree(tempDir);
      }
    }

    /** Lines 120-124. */
    method GenerateSprite(fs: FileSystem, probe: Option<real>, grab: nat -> Grab) returns (r: Result<()>)
      modifies fs
      ensures (fs.State(), r) == Generated(old(fs.State()), probe, grab)
    {
      ghost var s0 := fs.State();
      var shots := TakeScreenshots(fs, probe, grab);
      if shots.Raised? {
        return Raised(shots.message);
      }
      if shots.value {
        ghost var k := geometry.totalShots;
        GrabbedListing(geometry, video, probe.value, grab, k);
        var listing := fs.ListDir(tempDir);
        ListingOrderIrrelevant(fs.State(), listing, FrameNames(k));
        var made := CreateSprite(fs, listing);
        if made.Raised? {
          return made;
        }
      }
      CleanUp(fs);
      return Ok(());
    }
  }
}
