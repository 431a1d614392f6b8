/** `preview_video_generator.py`: the preview video of a scene. Clips of a fixed length are
    cut at evenly spaced start times into files `clip_000.mp4`, `clip_001.mp4`, ... of the
    working directory, listed in the manifest `clips.txt`, joined by ffmpeg into the output
    video and removed again. Each ffmpeg and ffprobe run is a function of its command line
    given to the model: `run` says how an ffmpeg command ends, `probe` what `float()` makes of
    ffprobe's output (None when it is not a number), and `repr` is Python's `str` of a float. */
module PreviewGenerator {
  import opened Wrappers
  import opened Strings
  import opened Disk

  const CLIP_TOO_LONG: string := "Total clip length exceeds video duration after skip"
  /** The list of clips ffmpeg's concat demuxer reads. */
  const MANIFEST: string := "clips.txt"
  /** The H.264 encoding options both ffmpeg commands share. */
  const X264: seq<string> := ["-c:v", "libx264", "-crf", "18", "-preset", "slow", "-loglevel", "quiet"]

  /** How one `subprocess.run(command, check=True)` of ffmpeg ends. */
  datatype Exit = Succeeded | Failed(message: string)

  // ---------------------------------------------------------------- clip names

  /** `f"clip_{i:03d}.mp4"` */
  function ClipName(i: nat): string {
    "clip_" + ZeroPad(i, 3) + ".mp4"
  }

  /** The names of the first k clips, in index order. */
  function ClipNames(k: nat): (r: seq<string>)
    ensures |r| == k && forall i :: 0 <= i < k ==> r[i] == ClipName(i)
  {
    seq(k, i requires 0 <= i < k => ClipName(i))
  }

  /** The names `clean_previous_clips` removes. */
  predicate IsClipFile(name: string) {
    StartsWith(name, "clip_") && EndsWith(name, ".mp4")
  }

  /** The working-directory entries among `names` that `clean_previous_clips` picks out,
      whether they turn out to be files or directories. */
  function ClipEntries(names: set<string>): (r: set<string>)
    ensures forall n :: n in r <==> n in names && '/' !in n && IsClipFile(n)
  {
    set n | n in names && '/' !in n && IsClipFile(n)
  }

  /** Every clip the generator writes is one `clean_previous_clips` removes, and none of
      them is the manifest. */
  lemma ClipNameIsClipFile(i: nat)
    ensures IsClipFile(ClipName(i)) && '/' !in ClipName(i) && ClipName(i) != MANIFEST
  {
    var a, p := ClipName(i), ZeroPad(i, 3);
    assert a[..5] == "clip_";
    assert a[|a| - 4..] == ".mp4";
    assert a[|a| - 1] != MANIFEST[|MANIFEST| - 1];
    forall k | 0 <= k < |a| ensures a[k] != '/' {
      if k < 5 {
        assert a[k] == "clip_"[k];
      } else if k < |a| - 4 {
        assert a[k] == p[k - 5];
      } else {
        assert a[k] == ".mp4"[k - (|a| - 4)];
      }
    }
  }

  lemma ClipNamesAppend(k: nat)
    ensures ClipNames(k) + [ClipName(k)] == ClipNames(k + 1)
  {
  }

  /** A name that is not clip-named in the working directory names no clip. */
  lemma NotAClip(x: string, n: nat)
    requires !('/' !in x && IsClipFile(x))
    ensures x !in ClipNames(n)
  {
    if x in ClipNames(n) {
      var i :| 0 <= i < n && ClipNames(n)[i] == x;
      ClipNameIsClipFile(i);
    }
  }

  /** Distinct indexes name distinct clips. */
  lemma ClipNamesDistinct(k: nat)
    ensures NoDuplicates(ClipNames(k))
  {
    var s := ClipNames(k);
    forall i, j | 0 <= i < j < k ensures s[i] != s[j] {
      if s[i] == s[j] {
        PaddedNameInjective("clip_", ".mp4", i, j);
      }
    }
  }

  /** Below 1000 clips, `sorted(clips)` is index order. */
  lemma ClipNamesSorted(k: nat)
    requires k <= 1000
    ensures Sort(ClipNames(k)) == ClipNames(k)
  {
    var s := ClipNames(k);
    forall i, j | 0 <= i < j < k ensures LexLess(s[i], s[j]) {
      PaddedNameOrder("clip_", ".mp4", i, j);
    }
    PairwiseSorted(s);
    ClipNamesDistinct(k);
    SortOfSortedListing(s, s);
  }

  // ---------------------------------------------------------------- run outcomes

  /** The first command from `i` on whose run fails, or |cmds| when none does. */
  function FirstFailure(run: seq<string> -> Exit, cmds: seq<seq<string>>, i: nat): (k: nat)
    requires i <= |cmds|
    ensures i <= k <= |cmds|
    ensures forall j :: i <= j < k ==> run(cmds[j]).Succeeded?
    ensures k < |cmds| ==> run(cmds[k]).Failed?
    decreases |cmds| - i
  {
    if i == |cmds| || run(cmds[i]).Failed? then i else FirstFailure(run, cmds, i + 1)
  }

  /** `os.remove` of each name in turn; the first name that is gone raises. */
  function Removed(files: map<string, Content>, names: seq<string>): (r: (map<string, Content>, Result<()>))
    decreases |names|
  {
    if names == [] then (files, Ok(()))
    else if names[0] !in files then (files, Raised(NO_SUCH_FILE))
    else Removed(files - {names[0]}, names[1..])
  }

  /** Removing distinct names that are all present succeeds and removes exactly them. */
  lemma {:induction false} RemovedAll(files: map<string, Content>, names: seq<string>)
    requires NoDuplicates(names) && forall n :: n in names ==> n in files
    ensures Removed(files, names) == (files - Members(names), Ok(()))
    decreases |names|
  {
    if names != [] {
      var rest := names[1..];
      assert forall n :: n in rest ==> n in names && n != names[0];
      assert NoDuplicates(rest) by {
        forall i, j | 0 <= i < j < |rest| ensures rest[i] != rest[j] {
          assert rest[i] == names[i + 1] && rest[j] == names[j + 1];
        }
      }
      assert Removed(files, names) == Removed(files - {names[0]}, rest);
      RemovedAll(files - {names[0]}, rest);
      assert Members(names) == Members(rest) + {names[0]};
      assert files - {names[0]} - Members(rest) == files - Members(names);
    } else {
      assert files - Members(names) == files;
    }
  }

  /** Files added under `names` to `base` and then dropped again, around a file `m` written
      and removed and a file `out` written, leave `base` without `m` and with `out`. */
  lemma DropAdded<V>(base: map<string, V>, f1: map<string, V>, names: set<string>,
                     m: string, mv: V, out: string, v: V)
    requires forall x :: x in f1 <==> x in base || x in names
    requires forall x :: x in base ==> x !in names && f1[x] == base[x]
    requires out !in names && out != m
    ensures f1[m := mv][out := v] - {m} - names == (base - {m})[out := v]
  {
    var left, want := f1[m := mv][out := v] - {m} - names, (base - {m})[out := v];
    forall x ensures x in left <==> x in want {
      if x in left && x != out {
        assert x in f1 && x !in names;
      }
    }
    forall x | x in left ensures left[x] == want[x] {
      if x != out {
        assert x in base;
      }
    }
  }

  class PreviewVideoGenerator {
    const filename: string
    const outputPath: string
    const ffmpeg: string
    const ffprobe: string
    const numClips: int
    const clipLength: int
    const skipSeconds: int
    const includeAudio: bool

    /** Lines 6-14; the video path loses the quotes around it. */
    constructor (filename: string, outputPath: string, ffmpeg: string, ffprobe: string,
                 numClips: int, clipLength: int, skipSeconds: int, includeAudio: bool)
      ensures this.filename == Strip(Strip(filename, '"'), '\'')
      ensures this.outputPath == outputPath && this.ffmpeg == ffmpeg && this.ffprobe == ffprobe
      ensures this.numClips == numClips && this.clipLength == clipLength
      ensures this.skipSeconds == skipSeconds && this.includeAudio == includeAudio
    {
      this.filename := Strip(Strip(filename, '"'), '\'');
      this.outputPath := outputPath;
      this.numClips := numClips;
      this.clipLength := clipLength;
      this.skipSeconds := skipSeconds;
      this.includeAudio := includeAudio;
      this.ffmpeg := ffmpeg;
      this.ffprobe := ffprobe;
    }

    // -------------------------------------------------------------- start times

    /** The clips together are longer than what is left after the skipped seconds. */
    predicate TooLong(duration: real) {
      (numClips * clipLength) as real > duration - skipSeconds as real
    }

    /** The gap between start times: what is left after the skipped seconds and one clip,
        in numClips + 1 equal parts. */
    function Interval(duration: real): real
      requires numClips != -1
    {
      (duration - skipSeconds as real - clipLength as real) / (numClips + 1) as real
    }

    /** `get_start_times` (lines 59-68). */
    function StartTimes(duration: real): Result<seq<real>> {
      if TooLong(duration) then Raised(CLIP_TOO_LONG)
      else if numClips == -1 then Raised(FLOAT_DIVISION_BY_ZERO)
      else
        var n := if numClips > 0 then numClips else 0;
        Ok(seq(n, i requires 0 <= i < n => skipSeconds as real + Interval(duration) * (i + 1) as real))
    }

    method GetStartTimes(duration: real) returns (r: Result<seq<real>>)
      ensures r == StartTimes(duration)
    {
      if (numClips * clipLength) as real > duration - skipSeconds as real {
        return Raised(CLIP_TOO_LONG);
      }
      if numClips + 1 == 0 {
        return Raised(FLOAT_DIVISION_BY_ZERO);
      }
      var starts: seq<real> := [];
      var interval := (duration - skipSeconds as real - clipLength as real) / (numClips + 1) as real;
      var i := 1;
      while i < numClips + 1
        invariant 1 <= i <= if numClips > 0 then numClips + 1 else 1
        invariant |starts| == i - 1
        invariant forall j :: 0 <= j < i - 1 ==> starts[j] == skipSeconds as real + interval * (j + 1) as real
      {
        starts := starts + [skipSeconds as real + interval * i as real];
        i := i + 1;
      }
      assert interval == Interval(duration);
      ghost var want := StartTimes(duration).value;
      assert |starts| == |want|;
      assert forall j :: 0 <= j < |starts| ==> starts[j] == want[j];
      assert starts == want;
      assert StartTimes(duration) == Ok(want);
      return Ok(starts);
    }

    /** Line 60-61: the start times are refused exactly when the clips do not fit. */
    lemma StartTimesRefused(duration: real)
      ensures StartTimes(duration) == Raised(CLIP_TOO_LONG) <==> TooLong(duration)
    {
      assert |CLIP_TOO_LONG| != |FLOAT_DIVISION_BY_ZERO|;
    }

    lemma DivTimes(s: real, g: real, x: real, m: real, y: real)
      requires m != 0.0 && g == x / m
      ensures s + g * y == s + y * x / m
    {
    }

    /** When the clips fit, clip i (counted from 1) starts i/(numClips + 1) of the way
        through what is left after the skipped seconds and one clip. */
    lemma StartTimesEvenlySpaced(duration: real)
      requires numClips >= 0 && !TooLong(duration)
      ensures StartTimes(duration).Ok? && |StartTimes(duration).value| == numClips
      ensures forall i :: 0 <= i < numClips ==>
        StartTimes(duration).value[i] == skipSeconds as real + (i + 1) as real * (duration - skipSeconds as real - clipLength as real) / (numClips + 1) as real
    {
      forall i | 0 <= i < numClips
        ensures StartTimes(duration).value[i] == skipSeconds as real + (i + 1) as real * (duration - skipSeconds as real - clipLength as real) / (numClips + 1) as real
      {
        StartTimeAt(duration, i);
      }
    }

    lemma StartTimeAt(duration: real, i: nat)
      requires 0 <= i < numClips && !TooLong(duration)
      ensures StartTimes(duration).Ok? && |StartTimes(duration).value| == numClips
      ensures StartTimes(duration).value[i] == skipSeconds as real + (i + 1) as real * (duration - skipSeconds as real - clipLength as real) / (numClips + 1) as real
    {
      var d := duration - skipSeconds as real - clipLength as real;
      var m := (numClips + 1) as real;
      var g, y := Interval(duration), (i + 1) as real;
      assert StartTimes(duration).value[i] == skipSeconds as real + g * y;
      DivTimes(skipSeconds as real, g, d, m, y);
    }

    /** When the clips fit and leave room between them, the start times increase, none falls
        in the skipped seconds, and every clip ends before the video does. */
    lemma StartTimesSpread(duration: real)
      requires numClips >= 0 && !TooLong(duration) && Interval(duration) > 0.0
      ensures StartTimes(duration).Ok?
      ensures var st := StartTimes(duration).value;
        (forall i, j :: 0 <= i < j < |st| ==> st[i] < st[j])
        && (forall i :: 0 <= i < |st| ==>
              skipSeconds as real < st[i] && st[i] + clipLength as real < duration)
    {
      var st := StartTimes(duration).value;
      forall i, j | 0 <= i < j < |st| ensures st[i] < st[j] {
        var s, g := skipSeconds as real, Interval(duration);
        assert st[i] == s + g * (i + 1) as real && st[j] == s + g * (j + 1) as real;
        GapsGrow(s, g, (i + 1) as real, (j + 1) as real);
      }
      forall i | 0 <= i < |st|
        ensures skipSeconds as real < st[i] && st[i] + clipLength as real < duration
      {
        StartTimeFits(duration, i);
      }
    }

    lemma StartTimeFits(duration: real, i: nat)
      requires numClips >= 0 && !TooLong(duration) && Interval(duration) > 0.0 && i < numClips
      ensures StartTimes(duration).Ok? && |StartTimes(duration).value| == numClips
      ensures var st := StartTimes(duration).value;
        skipSeconds as real < st[i] && st[i] + clipLength as real < duration
    {
      var s, g := skipSeconds as real, Interval(duration);
      var m := (numClips + 1) as real;
      assert StartTimes(duration).value[i] == s + g * (i + 1) as real;
      DivTimes(0.0, g, duration - s - clipLength as real, m, m);
      GapsFit(s, g, m, (i + 1) as real, clipLength as real, duration);
    }

    lemma GapsGrow(s: real, g: real, a: real, b: real)
      requires g > 0.0 && a < b
      ensures s + g * a < s + g * b
    {
      assert g * b - g * a == g * (b - a);
    }

    lemma GapsFit(s: real, g: real, m: real, y: real, l: real, d: real)
      requires g > 0.0 && 0.0 < y < m && m * g == d - s - l
      ensures s < s + g * y && s + g * y + l < d
    {
      assert m * g - g * y == g * (m - y);
    }

    // -------------------------------------------------------------- commands

    /** The audio options: AAC at 192k followed by `extra`, or `-an` to drop the audio. */
    function AudioArgs(extra: seq<string>): seq<string> {
      if includeAudio then ["-c:a", "aac", "-b:a", "192k"] + extra else ["-an"]
    }

    /** Line 18: the ffprobe run that prints the duration. */
    function ProbeCommand(): seq<string> {
      [ffprobe, "-v", "error", "-show_entries", "format=duration",
       "-of", "default=noprint_wrappers=1:nokey=1", filename]
    }

    /** Lines 37-53: the ffmpeg run that cuts one clip; `start` is `str(start_time)`. */
    function ClipCommand(start: string, clip: string): seq<string> {
      [ffmpeg, "-ss", start, "-i", filename, "-t", IntToString(clipLength), "-s", "640x360"]
      + X264 + AudioArgs(["-strict", "experimental"]) + [clip]
    }

    /** Lines 75-90: the ffmpeg run that joins the clips the manifest lists. */
    function ConcatCommand(): seq<string> {
      [ffmpeg, "-f", "concat", "-safe", "0", "-i", MANIFEST] + X264 + AudioArgs([]) + [outputPath]
    }

    /** A clip command seeks to the start before its input, writes the clip last, and its
        options drop the audio exactly when the audio is excluded. */
    lemma ClipCommandShape(start: string, clip: string)
      ensures var cmd := ClipCommand(start, clip);
        cmd[0] == ffmpeg && cmd[1..5] == ["-ss", start, "-i", filename] && cmd[|cmd| - 1] == clip
        && ("-an" in cmd[17..|cmd| - 1] <==> !includeAudio)
        && (includeAudio ==> cmd[17..|cmd| - 1] == ["-c:a", "aac", "-b:a", "192k", "-strict", "experimental"])
    {
      var cmd := ClipCommand(start, clip);
      assert cmd[17..|cmd| - 1] == AudioArgs(["-strict", "experimental"]);
    }

    /** The join command reads the manifest, writes the output last, and its options drop the
        audio exactly when the audio is excluded. */
    lemma ConcatCommandShape()
      ensures var cmd := ConcatCommand();
        cmd[0] == ffmpeg && cmd[5..7] == ["-i", MANIFEST] && cmd[|cmd| - 1] == outputPath
        && ("-an" in cmd[15..|cmd| - 1] <==> !includeAudio)
    {
      var cmd := ConcatCommand();
      assert cmd[15..|cmd| - 1] == AudioArgs([]);
    }

    // -------------------------------------------------------------- cutting the clips

    /** The commands that cut one clip per start time. */
    function ClipCommands(starts: seq<real>, repr: real -> string): (r: seq<seq<string>>)
      ensures |r| == |starts|
      ensures forall i :: 0 <= i < |r| ==> r[i] == ClipCommand(repr(starts[i]), ClipName(i))
    {
      seq(|starts|, i requires 0 <= i < |starts| => ClipCommand(repr(starts[i]), ClipName(i)))
    }

    /** The clip cut at the given start time. */
    function ClipAt(start: real): Content {
      Clip(filename, start, clipLength, includeAudio)
    }

    /** The working directory after the first k clips are cut. */
    function WithClips(files: map<string, Content>, starts: seq<real>, k: nat): map<string, Content>
      requires k <= |starts|
    {
      if k == 0 then files
      else WithClips(files, starts, k - 1)[ClipName(k - 1) := ClipAt(starts[k - 1])]
    }

    /** Cutting the first k clips adds exactly their names to the working directory. */
    lemma {:induction false} WithClipsKeys(files: map<string, Content>, starts: seq<real>, k: nat)
      requires k <= |starts|
      ensures forall n :: n in WithClips(files, starts, k) <==> n in files || n in ClipNames(k)
    {
      if k > 0 {
        WithClipsKeys(files, starts, k - 1);
        ClipNamesSnoc(k);
      }
    }

    lemma ClipNamesSnoc(k: nat)
      requires k > 0
      ensures forall n :: n in ClipNames(k) <==> n in ClipNames(k - 1) || n == ClipName(k - 1)
    {
      forall n ensures n in ClipNames(k) <==> n in ClipNames(k - 1) || n == ClipName(k - 1) {
        if n in ClipNames(k) {
          var i :| 0 <= i < k && ClipNames(k)[i] == n;
          if i < k - 1 {
            assert ClipNames(k - 1)[i] == n;
          }
        }
        if n in ClipNames(k - 1) {
          var i :| 0 <= i < k - 1 && ClipNames(k - 1)[i] == n;
          assert ClipNames(k)[i] == n;
        }
        if n == ClipName(k - 1) {
          assert ClipNames(k)[k - 1] == n;
        }
      }
    }

    /** Clip i holds the video from the i-th start time, and every other file is as it was. */
    lemma {:induction false} WithClipsContents(files: map<string, Content>, starts: seq<real>, k: nat)
      requires k <= |starts|
      ensures forall i :: 0 <= i < k ==>
        ClipName(i) in WithClips(files, starts, k) && WithClips(files, starts, k)[ClipName(i)] == ClipAt(starts[i])
      ensures forall n :: n in files && n !in ClipNames(k) ==>
        n in WithClips(files, starts, k) && WithClips(files, starts, k)[n] == files[n]
    {
      WithClipsClips(files, starts, k);
      WithClipsOthers(files, starts, k);
    }

    lemma {:induction false} WithClipsClips(files: map<string, Content>, starts: seq<real>, k: nat)
      requires k <= |starts|
      ensures forall i :: 0 <= i < k ==>
        ClipName(i) in WithClips(files, starts, k) && WithClips(files, starts, k)[ClipName(i)] == ClipAt(starts[i])
    {
      if k > 0 {
        var prev, last := WithClips(files, starts, k - 1), ClipName(k - 1);
        assert WithClips(files, starts, k) == prev[last := ClipAt(starts[k - 1])];
        WithClipsClips(files, starts, k - 1);
        ClipNamesDistinct(k);
        assert forall i :: 0 <= i < k - 1 ==> ClipNames(k)[i] != ClipNames(k)[k - 1];
      }
    }

    lemma {:induction false} WithClipsOthers(files: map<string, Content>, starts: seq<real>, k: nat)
      requires k <= |starts|
      ensures forall n :: n in files && n !in ClipNames(k) ==>
        n in WithClips(files, starts, k) && WithClips(files, starts, k)[n] == files[n]
    {
      if k > 0 {
        WithClipsOthers(files, starts, k - 1);
        ClipNamesSnoc(k);
      }
    }

    /** `generate_clips` once the duration is known: the working directory and the clip names,
        or the exception of the start times or of the first ffmpeg run that fails. */
    function Cut(files: map<string, Content>, duration: real, run: seq<string> -> Exit,
                 repr: real -> string): (r: (map<string, Content>, Result<seq<string>>))
      ensures r.1.Ok? ==> StartTimes(duration).Ok? && r.1.value == ClipNames(|StartTimes(duration).value|)
      ensures r.1.Ok? ==> forall n :: n in r.1.value ==> n in r.0
    {
      var st := StartTimes(duration);
      if st.Raised? then (files, Raised(st.message))
      else
        var cmds := ClipCommands(st.value, repr);
        var k := FirstFailure(run, cmds, 0);
        WithClipsKeys(files, st.value, k);
        (WithClips(files, st.value, k), if k == |cmds| then Ok(ClipNames(k)) else Raised(run(cmds[k]).message))
    }

    /** Lines 30-57: ffprobe is asked for the duration, then one clip is cut per start time,
        in order, until an ffmpeg run fails. */
    method GenerateClips(fs: FileSystem, probe: seq<string> -> Option<real>, run: seq<string> -> Exit,
                         repr: real -> string) returns (r: Result<seq<string>>)
      modifies fs
      ensures fs.dirs == old(fs.dirs)
      ensures probe(ProbeCommand()).None? ==> r == Raised(NOT_A_NUMBER) && fs.files == old(fs.files)
      ensures probe(ProbeCommand()).Some? ==> (fs.files, r) == Cut(old(fs.files), probe(ProbeCommand()).value, run, repr)
    {
      var duration := probe(ProbeCommand());
      if duration.None? {
        return Raised(NOT_A_NUMBER);
      }
      var st := GetStartTimes(duration.value);
      if st.Raised? {
        return Raised(st.message);
      }
      r := CutClips(fs, st.value, run, repr);
    }

    /** Lines 33-57: one clip per start time, in order, until an ffmpeg run fails. */
    method CutClips(fs: FileSystem, starts: seq<real>, run: seq<string> -> Exit, repr: real -> string)
      returns (r: Result<seq<string>>)
      modifies fs
      ensures fs.dirs == old(fs.dirs)
      ensures fs.files == WithClips(old(fs.files), starts, FirstFailure(run, ClipCommands(starts, repr), 0))
      ensures var cmds := ClipCommands(starts, repr); var k := FirstFailure(run, cmds, 0);
        r == if k == |cmds| then Ok(ClipNames(k)) else Raised(run(cmds[k]).message)
    {
      ghost var cmds := ClipCommands(starts, repr);
      ghost var k := FirstFailure(run, cmds, 0);
      var clips: seq<string> := [];
      var i := 0;
      while i < |starts|
        invariant 0 <= i <= k
        invariant fs.files == WithClips(old(fs.files), starts, i) && fs.dirs == old(fs.dirs)
        invariant clips == ClipNames(i)
      {
        var exit := CutClip(fs, starts, i, run, repr);
        if exit.Failed? {
          assert i == k;
          return Raised(exit.message);
        }
        ClipNamesAppend(i);
        clips := clips + [ClipName(i)];
        i := i + 1;
      }
      assert i == k == |cmds|;
      return Ok(clips);
    }

    /** Lines 36-55: clip i is cut from `start` on, unless ffmpeg fails. */
    method CutClip(fs: FileSystem, starts: seq<real>, i: nat, run: seq<string> -> Exit, repr: real -> string)
      returns (exit: Exit)
      requires i < |starts|
      modifies fs
      ensures exit == run(ClipCommands(starts, repr)[i]) && fs.dirs == old(fs.dirs)
      ensures fs.files == if exit.Failed? then old(fs.files) else old(fs.files)[ClipName(i) := ClipAt(starts[i])]
    {
      var clip := "clip_" + ZeroPad(i, 3) + ".mp4";
      exit := run(ClipCommand(repr(starts[i]), clip));
      if exit.Succeeded? {
        fs.Write(clip, ClipAt(starts[i]));
      }
    }

    // -------------------------------------------------------------- joining the clips

    /** The manifest: a line `file '<clip>'` per clip, in sorted order. */
    function Manifest(clips: seq<string>): string {
      Concat(ManifestLines(Sort(clips)))
    }

    function ManifestLines(names: seq<string>): (r: seq<string>)
      ensures |r| == |names| && forall i :: 0 <= i < |r| ==> r[i] == "file '" + names[i] + "'\n"
    {
      seq(|names|, i requires 0 <= i < |names| => "file '" + names[i] + "'\n")
    }

    /** The clips `generate_clips` makes are listed in the order they were cut. */
    lemma ManifestInCutOrder(k: nat)
      requires k <= 1000
      ensures Manifest(ClipNames(k)) == Concat(seq(k, i requires 0 <= i < k => "file '" + ClipName(i) + "'\n"))
    {
      ClipNamesSorted(k);
      assert ManifestLines(ClipNames(k)) == seq(k, i requires 0 <= i < k => "file '" + ClipName(i) + "'\n");
    }

    /** `concatenate_clips`: the manifest is written, ffmpeg joins the clips it lists into the
        output, and the manifest and the clips are removed. */
    function Joined(s: Store, clips: seq<string>, run: seq<string> -> Exit): (r: (Store, Result<()>))
      requires forall c :: c in clips ==> c in s.files
      ensures r.0.dirs == s.dirs
    {
      if MANIFEST in s.dirs then (s, Raised(IS_A_DIRECTORY))
      else
        var listed := s.files[MANIFEST := Text(Manifest(clips))];
        var exit := run(ConcatCommand());
        if exit.Failed? then (s.(files := listed), Raised(exit.message))
        else
          SortMembers(clips);
          var joined := listed[outputPath := Movie(ContentsOf(listed, Sort(clips)), includeAudio)];
          var removed := Removed(joined - {MANIFEST}, clips);
          (s.(files := removed.0), removed.1)
    }

    /** Lines 71-73. */
    method WriteManifest(fs: FileSystem, clips: seq<string>) returns (r: Result<()>)
      modifies fs
      ensures fs.dirs == old(fs.dirs)
      ensures MANIFEST in old(fs.dirs) ==> r == Raised(IS_A_DIRECTORY) && fs.files == old(fs.files)
      ensures MANIFEST !in old(fs.dirs) ==> r == Ok(()) && fs.files == old(fs.files)[MANIFEST := Text(Manifest(clips))]
    {
      if MANIFEST in fs.dirs {
        return Raised(IS_A_DIRECTORY);
      }
      var names := Sort(clips);
      ghost var lines := ManifestLines(names);
      ghost var before, dirs := fs.files, fs.dirs;
      var text := "";
      fs.Write(MANIFEST, Text(text));
      var i := 0;
      while i < |names|
        invariant 0 <= i <= |names|
        invariant text == Concat(lines[..i])
        invariant fs.files == before[MANIFEST := Text(text)] && fs.dirs == dirs
      {
        ConcatPrefix(lines, i);
        text := text + "file '" + names[i] + "'\n";
        fs.Write(MANIFEST, Text(text));
        Overwritten(before, MANIFEST, Text(Concat(lines[..i])), Text(text));
        i := i + 1;
      }
      assert lines[..|names|] == lines;
      return Ok(());
    }

    /** Lines 95-96. */
    method RemoveClips(fs: FileSystem, clips: seq<string>) returns (r: Result<()>)
      modifies fs
      ensures fs.dirs == old(fs.dirs)
      ensures (fs.files, r) == Removed(old(fs.files), clips)
    {
      var i := 0;
      while i < |clips|
        invariant 0 <= i <= |clips| && fs.dirs == old(fs.dirs)
        invariant Removed(old(fs.files), clips) == Removed(fs.files, clips[i..])
      {
        assert clips[i..][1..] == clips[i + 1..];
        if clips[i] !in fs.files {
          return Raised(NO_SUCH_FILE);
        }
        fs.Remove(clips[i]);
        i := i + 1;
      }
      return Ok(());
    }

    /** Lines 70-96. */
    method ConcatenateClips(fs: FileSystem, clips: seq<string>, run: seq<string> -> Exit) returns (r: Result<()>)
      requires forall c :: c in clips ==> c in fs.files
      modifies fs
      ensures (fs.State(), r) == Joined(old(fs.State()), clips, run)
    {
      var listed := WriteManifest(fs, clips);
      if listed.Raised? {
        return listed;
      }
      var exit := run(ConcatCommand());
      if exit.Failed? {
        return Raised(exit.message);
      }
      SortMembers(clips);
      fs.Write(outputPath, Movie(ContentsOf(fs.files, Sort(clips)), includeAudio));
      fs.Remove(MANIFEST);
      r := RemoveClips(fs, clips);
    }

    // -------------------------------------------------------------- the whole preview

    /** Lines 23-27: every clip-named entry of the working directory is removed, in listing
        order; a clip-named directory raises and stops the removal there. */
    method CleanPreviousClips(fs: FileSystem) returns (r: Result<()>)
      modifies fs
      ensures fs.dirs == old(fs.dirs)
      ensures r.Ok? <==> ClipEntries(old(fs.dirs).Keys) == {}
      ensures r.Ok? ==> fs.files == old(fs.files) - ClipEntries(old(fs.files).Keys)
      ensures r.Raised? ==> r.message == IS_A_DIRECTORY
      ensures r.Raised? ==> forall n :: n in fs.files ==> n in old(fs.files) && fs.files[n] == old(fs.files)[n]
      ensures r.Raised? ==> forall n :: n in old(fs.files) && n !in ClipEntries(old(fs.files).Keys) ==> n in fs.files
    {
      var listing := fs.ListCwd();
      ghost var clipFiles := ClipEntries(fs.files.Keys);
      ghost var gone: set<string> := {};
      var i := 0;
      while i < |listing|
        invariant 0 <= i <= |listing| && fs.dirs == old(fs.dirs)
        invariant gone <= clipFiles && fs.files == old(fs.files) - gone
        invariant forall n :: n in clipFiles && n in listing[..i] ==> n in gone
        invariant forall j :: 0 <= j < i ==> listing[j] !in ClipEntries(old(fs.dirs).Keys)
      {
        var name := listing[i];
        r := RemoveIfClip(fs, name);
        if r.Raised? {
          return;
        }
        if IsClipFile(name) {
          gone := gone + {name};
        }
        assert listing[..i + 1] == listing[..i] + [name];
        i := i + 1;
      }
      assert listing[..|listing|] == listing;
      assert gone == clipFiles;
      return Ok(());
    }

    /** Lines 26-27 for one entry of the working directory. */
    method RemoveIfClip(fs: FileSystem, name: string) returns (r: Result<()>)
      modifies fs
      ensures fs.dirs == old(fs.dirs)
      ensures r.Raised? <==> IsClipFile(name) && name in old(fs.dirs)
      ensures r.Raised? ==> r == Raised(IS_A_DIRECTORY) && fs.files == old(fs.files)
      ensures r.Ok? ==> fs.files == if IsClipFile(name) then old(fs.files) - {name} else old(fs.files)
    {
      if StartsWith(name, "clip_") && EndsWith(name, ".mp4") {
        if name in fs.dirs {
          return Raised(IS_A_DIRECTORY);
        }
        fs.Remove(name);
      }
      return Ok(());
    }

    /** Lines 102-104: the clips are cut and joined. */
    function Made(s: Store, probe: seq<string> -> Option<real>, run: seq<string> -> Exit,
                  repr: real -> string): (r: (Store, Result<()>))
      ensures r.0.dirs == s.dirs
    {
      var duration := probe(ProbeCommand());
      if duration.None? then (s, Raised(NOT_A_NUMBER))
      else
        var cut := Cut(s.files, duration.value, run, repr);
        if cut.1.Raised? then (s.(files := cut.0), Raised(cut.1.message))
        else Joined(s.(files := cut.0), cut.1.value, run)
    }

    method MakePreview(fs: FileSystem, probe: seq<string> -> Option<real>, run: seq<string> -> Exit,
                       repr: real -> string) returns (r: Result<()>)
      modifies fs
      ensures (fs.State(), r) == Made(old(fs.State()), probe, run, repr)
    {
      var clips := GenerateClips(fs, probe, run, repr);
      if clips.Raised? {
        return Raised(clips.message);
      }
      r := ConcatenateClips(fs, clips.value, run);
    }

    /** `generate_preview` (lines 98-108) from a working directory without clip-named
        directories, in which the first clean cannot raise. */
    function Previewed(s: Store, probe: seq<string> -> Option<real>, run: seq<string> -> Exit,
                       repr: real -> string): (r: (Store, Result<()>))
      requires ClipEntries(s.dirs.Keys) == {}
      ensures r.0.dirs == s.dirs
    {
      var made := Made(s.(files := s.files - ClipEntries(s.files.Keys)), probe, run, repr);
      if made.1.Raised? then made
      else (made.0.(files := made.0.files - ClipEntries(made.0.files.Keys)), Ok(()))
    }

    /** Every start time is found and every clip is cut. */
    predicate CutsAll(duration: real, run: seq<string> -> Exit, repr: real -> string) {
      var st := StartTimes(duration);
      st.Ok? && FirstFailure(run, ClipCommands(st.value, repr), 0) == |st.value|
    }

    /** Joining clips that are all present ends as ffmpeg's join does, unless a directory
        stands where the manifest goes. */
    lemma JoinedOk(s: Store, clips: seq<string>, run: seq<string> -> Exit)
      requires NoDuplicates(clips) && forall c :: c in clips ==> c in s.files && c != MANIFEST
      ensures Joined(s, clips, run).1.Ok? <==> MANIFEST !in s.dirs && run(ConcatCommand()).Succeeded?
    {
      if MANIFEST !in s.dirs && run(ConcatCommand()).Succeeded? {
        var listed := s.files[MANIFEST := Text(Manifest(clips))];
        SortMembers(clips);
        var joined := listed[outputPath := Movie(ContentsOf(listed, Sort(clips)), includeAudio)];
        RemovedAll(joined - {MANIFEST}, clips);
      }
    }

    /** What joining the generated clips leaves, below 1000 clips: the output holds the clips in
        index order, and the manifest and the clips are gone. */
    lemma JoinedClips(s: Store, n: nat, run: seq<string> -> Exit)
      requires n <= 1000 && forall c :: c in ClipNames(n) ==> c in s.files
      requires MANIFEST !in s.dirs && run(ConcatCommand()).Succeeded?
      ensures var listed := s.files[MANIFEST := Text(Manifest(ClipNames(n)))];
        Joined(s, ClipNames(n), run) ==
          (s.(files := listed[outputPath := Movie(ContentsOf(listed, ClipNames(n)), includeAudio)]
                       - {MANIFEST} - Members(ClipNames(n))), Ok(()))
    {
      var clips := ClipNames(n);
      ClipNamesSorted(n);
      ClipNamesDistinct(n);
      forall i | 0 <= i < n ensures ClipName(i) != MANIFEST {
        ClipNameIsClipFile(i);
      }
      var listed := s.files[MANIFEST := Text(Manifest(clips))];
      var joined := listed[outputPath := Movie(ContentsOf(listed, clips), includeAudio)];
      RemovedAll(joined - {MANIFEST}, clips);
    }

    /** `generate_preview` raises exactly when ffprobe's output is not a number, the start
        times are refused, a clip is not cut, or the join fails. */
    lemma PreviewRaises(s: Store, probe: seq<string> -> Option<real>, run: seq<string> -> Exit,
                        repr: real -> string)
      requires ClipEntries(s.dirs.Keys) == {}
      ensures Previewed(s, probe, run, repr).1.Raised? <==>
        probe(ProbeCommand()).None? || !CutsAll(probe(ProbeCommand()).value, run, repr)
        || MANIFEST in s.dirs || run(ConcatCommand()).Failed?
    {
      var cleaned := s.(files := s.files - ClipEntries(s.files.Keys));
      var duration := probe(ProbeCommand());
      if duration.Some? && CutsAll(duration.value, run, repr) {
        var cut := Cut(cleaned.files, duration.value, run, repr);
        CutClipsReady(cleaned.files, duration.value, run, repr);
        JoinedOk(cleaned.(files := cut.0), cut.1.value, run);
      }
    }

    /** When every clip is cut, the clips are distinct files of the working directory, none
        of them the manifest. */
    lemma CutClipsReady(files: map<string, Content>, duration: real, run: seq<string> -> Exit,
                        repr: real -> string)
      requires CutsAll(duration, run, repr)
      ensures var cut := Cut(files, duration, run, repr);
        cut.1.Ok? && NoDuplicates(cut.1.value) && forall c :: c in cut.1.value ==> c in cut.0 && c != MANIFEST
    {
      var cut := Cut(files, duration, run, repr);
      var n := |cut.1.value|;
      forall i | 0 <= i < n ensures ClipName(i) != MANIFEST {
        ClipNameIsClipFile(i);
      }
      ClipNamesDistinct(n);
    }

    /** The clip-named files of the working directory once the clips are cut: exactly the
        clips, when none were there before. */
    lemma CutClipFiles(files: map<string, Content>, starts: seq<real>, k: nat)
      requires k <= |starts| && ClipEntries(files.Keys) == {}
      ensures ClipEntries(WithClips(files, starts, k).Keys) == Members(ClipNames(k))
    {
      WithClipsKeys(files, starts, k);
      forall i | 0 <= i < k ensures ClipName(i) in ClipEntries(WithClips(files, starts, k).Keys) {
        ClipNameIsClipFile(i);
      }
    }

    /** When the clip at index k is not cut, the preview raises ffmpeg's error and leaves
        exactly the clips before it behind, every other file as the first clean left it. */
    lemma PreviewLeavesClips(s: Store, probe: seq<string> -> Option<real>, run: seq<string> -> Exit,
                             repr: real -> string)
      requires ClipEntries(s.dirs.Keys) == {} && probe(ProbeCommand()).Some?
      requires StartTimes(probe(ProbeCommand()).value).Ok?
      requires !CutsAll(probe(ProbeCommand()).value, run, repr)
      ensures var cmds := ClipCommands(StartTimes(probe(ProbeCommand()).value).value, repr);
        var k := FirstFailure(run, cmds, 0); var r := Previewed(s, probe, run, repr);
        k < |cmds| && r.1 == Raised(run(cmds[k]).message)
        && ClipEntries(r.0.files.Keys) == Members(ClipNames(k))
        && forall n :: n in s.files && n !in ClipEntries(s.files.Keys) ==> n in r.0.files && r.0.files[n] == s.files[n]
    {
      var starts := StartTimes(probe(ProbeCommand()).value).value;
      var k := FirstFailure(run, ClipCommands(starts, repr), 0);
      var files := s.files - ClipEntries(s.files.Keys);
      assert ClipEntries(files.Keys) == {};
      CutClipFiles(files, starts, k);
      WithClipsContents(files, starts, k);
    }

    /** The preview video made from clips cut at the given start times, in order. */
    function Produced(starts: seq<real>): (c: Content)
      ensures c.Movie? && |c.parts| == |starts|
    {
      Movie(seq(|starts|, i requires 0 <= i < |starts| => ClipAt(starts[i])), includeAudio)
    }

    /** With the manifest written beside them, the clips hold the video from their start
        times, in index order. */
    lemma ListedClips(files: map<string, Content>, starts: seq<real>, manifest: Content)
      ensures var listed := WithClips(files, starts, |starts|)[MANIFEST := manifest];
        (forall c :: c in ClipNames(|starts|) ==> c in listed)
        && ContentsOf(listed, ClipNames(|starts|)) == Produced(starts).parts
    {
      var n := |starts|;
      var listed := WithClips(files, starts, n)[MANIFEST := manifest];
      WithClipsKeys(files, starts, n);
      WithClipsContents(files, starts, n);
      forall i | 0 <= i < n ensures listed[ClipName(i)] == ClipAt(starts[i]) {
        ClipNameIsClipFile(i);
      }
    }

    /** Cutting every clip into a working directory without clip-named files and joining them
        replaces the manifest by nothing and writes the output. */
    lemma JoinedCutClips(s: Store, starts: seq<real>, run: seq<string> -> Exit)
      requires |starts| <= 1000 && ClipEntries(s.files.Keys) == {}
      requires MANIFEST !in s.dirs && run(ConcatCommand()).Succeeded?
      requires !('/' !in outputPath && IsClipFile(outputPath)) && outputPath != MANIFEST
      ensures (forall c :: c in ClipNames(|starts|) ==> c in WithClips(s.files, starts, |starts|))
        && Joined(s.(files := WithClips(s.files, starts, |starts|)), ClipNames(|starts|), run)
           == (s.(files := (s.files - {MANIFEST})[outputPath := Produced(starts)]), Ok(()))
    {
      var n := |starts|;
      var clips := ClipNames(n);
      var f1 := WithClips(s.files, starts, n);
      var listed := f1[MANIFEST := Text(Manifest(clips))];
      assert forall x :: x in f1 <==> x in s.files || x in Members(clips) by {
        WithClipsKeys(s.files, starts, n);
      }
      assert Movie(ContentsOf(listed, clips), includeAudio) == Produced(starts) by {
        ListedClips(s.files, starts, Text(Manifest(clips)));
      }
      assert Joined(s.(files := f1), clips, run)
          == (s.(files := listed[outputPath := Produced(starts)] - {MANIFEST} - Members(clips)), Ok(())) by {
        JoinedClips(s.(files := f1), n, run);
      }
      assert forall x :: x in s.files ==> x !in Members(clips) by {
        forall x | x in s.files ensures x !in clips {
          assert x !in ClipEntries(s.files.Keys);
          NotAClip(x, n);
        }
      }
      assert forall x :: x in s.files ==> f1[x] == s.files[x] by {
        WithClipsContents(s.files, starts, n);
      }
      assert outputPath !in Members(clips) by {
        NotAClip(outputPath, n);
      }
      DropAdded(s.files, f1, Members(clips), MANIFEST, Text(Manifest(clips)), outputPath, Produced(starts));
    }

    /** A clean run of `generate_preview` (below 1000 clips, with an output path that is no
        clip and not the manifest) leaves the output, holding the clips at the start times in
        order, and otherwise the working directory as the first clean left it. */
    lemma PreviewMade(s: Store, probe: seq<string> -> Option<real>, run: seq<string> -> Exit,
                      repr: real -> string)
      requires ClipEntries(s.dirs.Keys) == {} && MANIFEST !in s.dirs
      requires probe(ProbeCommand()).Some? && CutsAll(probe(ProbeCommand()).value, run, repr)
      requires run(ConcatCommand()).Succeeded? && numClips <= 1000
      requires !('/' !in outputPath && IsClipFile(outputPath)) && outputPath != MANIFEST
      ensures var r := Previewed(s, probe, run, repr);
        r.1 == Ok(()) && r.0.dirs == s.dirs
        && r.0.files == (s.files - ClipEntries(s.files.Keys) - {MANIFEST})
                        [outputPath := Produced(StartTimes(probe(ProbeCommand()).value).value)]
    {
      var st := StartTimes(probe(ProbeCommand()).value).value;
      var cleaned := s.(files := s.files - ClipEntries(s.files.Keys));
      assert ClipEntries(cleaned.files.Keys) == {};
      assert Cut(cleaned.files, probe(ProbeCommand()).value, run, repr) == (WithClips(cleaned.files, st, |st|), Ok(ClipNames(|st|)));
      JoinedCutClips(cleaned, st, run);
      var left := (cleaned.files - {MANIFEST})[outputPath := Produced(st)];
      assert Made(cleaned, probe, run, repr) == (cleaned.(files := left), Ok(()));
      assert ClipEntries(left.Keys) == {};
    }

    /** Lines 98-108. */
    method GeneratePreview(fs: FileSystem, probe: seq<string> -> Option<real>, run: seq<string> -> Exit,
                           repr: real -> string) returns (r: Result<()>)
      modifies fs
      ensures ClipEntries(old(fs.dirs).Keys) == {} ==> (fs.State(), r) == Previewed(old(fs.State()), probe, run, repr)
      ensures ClipEntries(old(fs.dirs).Keys) != {} ==> r == Raised(IS_A_DIRECTORY) && fs.dirs == old(fs.dirs)
    {
      ghost var s := fs.State();
      r := CleanPreviousClips(fs);
      if r.Raised? {
        return;
      }
      assert fs.State() == s.(files := s.files - ClipEntries(s.files.Keys));
      r := MakePreview(fs, probe, run, repr);
      if r.Raised? {
        return;
      }
      ghost var made := fs.State();
      OkUnit(r);
      r := CleanPreviousClips(fs);
      OkUnit(r);
    }
  }
}
