/** What both sprite generators compute without touching a file: where frame `i` is
    grabbed, where its tile goes in the mosaic, how a time is written in a cue, the cue text
    in WebVTT with `#xywh=` fragments (section 4.2.2 of W3C Media Fragments URI 1.0), and
    the frame file names. Times are exact reals instead of floats. */
module SpriteGeometry {
  import opened Strings
  import opened Disk

  /** The constructor's shot count and tile layout. */
  datatype Geometry = Geometry(totalShots: nat, tileWidth: nat, tileHeight: nat, columns: nat, rows: nat)

  /** The constructor defaults: 81 shots of 160x90 in a 9x9 grid. */
  function DefaultGeometry(): Geometry {
    Geometry(81, 160, 90, 9, 9)
  }

  // ---------------------------------------------------------------- tiles

  function TileX(g: Geometry, i: nat): int
    requires g.columns > 0
  {
    (i % g.columns) * g.tileWidth
  }

  function TileY(g: Geometry, i: nat): int
    requires g.columns > 0
  {
    (i / g.columns) * g.tileHeight
  }

  function SpriteWidth(g: Geometry): int {
    g.tileWidth * g.columns
  }

  function SpriteHeight(g: Geometry): int {
    g.tileHeight * g.rows
  }

  lemma MulStep(a: int, b: int, w: nat)
    requires a < b
    ensures a * w + w <= b * w
  {
    assert b * w - a * w == (b - a) * w;
    assert (b - a) * w == (b - a - 1) * w + w;
    assert (b - a - 1) * w >= 0;
  }

  lemma MulMonotone(a: int, b: int, w: nat)
    ensures a <= b ==> a * w <= b * w
  {
    assert b * w - a * w == (b - a) * w;
  }

  lemma QuotientBelow(i: nat, c: nat, rows: nat)
    requires c > 0 && i < c * rows
    ensures i / c < rows
  {
    MulMonotone(rows, i / c, c);
    assert rows * c == c * rows && (i / c) * c <= i;
  }

  /** A cell in column r < columns and row q < rows of a grid of w x h cells lies inside the
      grid. */
  lemma CellInside(r: nat, q: nat, columns: nat, rows: nat, w: nat, h: nat)
    requires r < columns && q < rows
    ensures 0 <= r * w && r * w + w <= w * columns
    ensures 0 <= q * h && q * h + h <= h * rows
  {
    MulStep(r, columns, w);
    MulStep(q, rows, h);
    assert columns * w == w * columns && rows * h == h * rows;
  }

  /** Every one of the columns*rows tiles lies inside the sprite. */
  lemma TileInside(g: Geometry, i: nat)
    requires g.columns > 0 && i < g.columns * g.rows
    ensures 0 <= TileX(g, i) && TileX(g, i) + g.tileWidth <= SpriteWidth(g)
    ensures 0 <= TileY(g, i) && TileY(g, i) + g.tileHeight <= SpriteHeight(g)
  {
    QuotientBelow(i, g.columns, g.rows);
    CellInside(i % g.columns, i / g.columns, g.columns, g.rows, g.tileWidth, g.tileHeight);
  }

  /** Different frames get tiles that do not overlap. */
  lemma TilesDisjoint(g: Geometry, i: nat, j: nat)
    requires g.columns > 0 && g.tileWidth > 0 && g.tileHeight > 0 && i != j
    ensures TileX(g, i) + g.tileWidth <= TileX(g, j) || TileX(g, j) + g.tileWidth <= TileX(g, i)
         || TileY(g, i) + g.tileHeight <= TileY(g, j) || TileY(g, j) + g.tileHeight <= TileY(g, i)
  {
    var c := g.columns;
    assert i == (i / c) * c + i % c && j == (j / c) * c + j % c;
    assert i % c != j % c || i / c != j / c;
    if i % c < j % c {
      MulStep(i % c, j % c, g.tileWidth);
    } else if j % c < i % c {
      MulStep(j % c, i % c, g.tileWidth);
    } else if i / c < j / c {
      MulStep(i / c, j / c, g.tileHeight);
    } else {
      MulStep(j / c, i / c, g.tileHeight);
    }
  }

  // ---------------------------------------------------------------- frame times

  function Interval(duration: real, shots: nat): real
    requires shots > 0
  {
    duration / shots as real
  }

  /** Frame `i` is grabbed at `i * interval`. */
  function FrameTime(duration: real, shots: nat, i: nat): real
    requires shots > 0
  {
    i as real * Interval(duration, shots)
  }

  /** The grab time as the loops compute it, from the interval they hold. */
  lemma FrameTimeIs(duration: real, shots: nat, i: nat, interval: real)
    requires shots > 0 && interval == duration / shots as real
    ensures 0.0 + i as real * interval == FrameTime(duration, shots, i)
    ensures 0.0 + i as real * interval + interval == CueEnd(duration, shots, i)
  {
  }

  /** The cue for frame `i` ends one interval after it starts. */
  function CueEnd(duration: real, shots: nat, i: nat): real
    requires shots > 0
  {
    FrameTime(duration, shots, i) + Interval(duration, shots)
  }

  /** Consecutive cues meet: each ends where the next one starts. */
  lemma CuesContiguous(duration: real, shots: nat, i: nat)
    requires shots > 0
    ensures CueEnd(duration, shots, i) == FrameTime(duration, shots, i + 1)
  {
  }

  /** The cues cover [0, duration] exactly. */
  lemma CuesCoverDuration(duration: real, shots: nat)
    requires shots > 0
    ensures FrameTime(duration, shots, 0) == 0.0
    ensures CueEnd(duration, shots, shots - 1) == duration
  {
    assert CueEnd(duration, shots, shots - 1) == (shots - 1) as real * (duration / shots as real) + duration / shots as real;
    assert (shots - 1) as real * (duration / shots as real) + duration / shots as real == shots as real * (duration / shots as real);
  }

  /** For a positive duration, frames are grabbed at increasing times inside the video. */
  lemma FrameTimesIncrease(duration: real, shots: nat, i: nat, j: nat)
    requires shots > 0 && duration > 0.0 && i < j < shots
    ensures 0.0 <= FrameTime(duration, shots, i) < FrameTime(duration, shots, j) < duration
  {
    var iv := Interval(duration, shots);
    assert iv > 0.0;
    assert FrameTime(duration, shots, j) - FrameTime(duration, shots, i) == (j - i) as real * iv;
    assert (j - i) as real * iv > 0.0;
    assert duration - FrameTime(duration, shots, j) == (shots - j) as real * iv;
    assert (shots - j) as real * iv > 0.0;
  }

  // ---------------------------------------------------------------- HH:MM:SS.mmm

  /** `int(x)`: towards zero. */
  function Trunc(x: real): int {
    if x >= 0.0 then x.Floor else -((-x).Floor)
  }

  /** The four fields `format_time` prints. */
  datatype Clock = Clock(hours: int, minutes: int, seconds: int, millis: int)

  /** `format_time`'s arithmetic: `seconds % 1` floors, `int` truncates, `divmod` floors. */
  function ClockOf(t: real): Clock {
    var ms := ((t - t.Floor as real) * 1000.0).Floor;
    var whole := Trunc(t);
    Clock(whole / 60 / 60, whole / 60 % 60, whole % 60, ms)
  }

  /** The fields are in range and together denote the time: whole seconds towards zero, and
      the milliseconds of the fraction (taken upwards from the floor) rounded down. */
  lemma ClockFields(t: real)
    ensures var c := ClockOf(t);
      0 <= c.minutes < 60 && 0 <= c.seconds < 60 && 0 <= c.millis < 1000
      && c.hours * 3600 + c.minutes * 60 + c.seconds == Trunc(t)
      && c.millis as real <= (t - t.Floor as real) * 1000.0 < c.millis as real + 1.0
      && (t >= 0.0 ==> c.hours >= 0)
  {
  }

  /** `f"{hours:02}:{minutes:02}:{seconds:02}.{millisec:03}"` */
  function FormatClock(c: Clock): string {
    FormatInt(c.hours, 2) + ":" + FormatInt(c.minutes, 2) + ":" + FormatInt(c.seconds, 2) + "." + FormatInt(c.millis, 3)
  }

  function FormatTime(t: real): string {
    FormatClock(ClockOf(t))
  }

  /** Reads the four fields back from the end of an `H...H:MM:SS.mmm` string. */
  function ParseClock(s: string): Clock
    requires |s| >= 10 && AllDigits(s[..|s| - 10]) && AllDigits(s[|s| - 9..|s| - 7])
    requires AllDigits(s[|s| - 6..|s| - 4]) && AllDigits(s[|s| - 3..])
  {
    Clock(DigitsValue(s[..|s| - 10]), DigitsValue(s[|s| - 9..|s| - 7]),
          DigitsValue(s[|s| - 6..|s| - 4]), DigitsValue(s[|s| - 3..]))
  }

  /** Where the separators and fields of `h:m:s.ms` sit, counted from the end. */
  lemma ClockLayout(h: string, m: string, sec: string, ms: string)
    requires |h| >= 2 && |m| == 2 && |sec| == 2 && |ms| == 3
    ensures var s := h + ":" + m + ":" + sec + "." + ms;
      |s| == |h| + 10 && s[|s| - 10] == ':' && s[|s| - 7] == ':' && s[|s| - 4] == '.'
      && s[..|s| - 10] == h && s[|s| - 9..|s| - 7] == m && s[|s| - 6..|s| - 4] == sec && s[|s| - 3..] == ms
  {
  }

  /** A clock with non-negative hours and in-range fields is written as two-digit (or wider)
      hours, two-digit minutes and seconds and three-digit milliseconds, separated by ':',
      ':' and '.', and the fields can be read back. */
  lemma FormatClockShape(c: Clock)
    requires c.hours >= 0 && 0 <= c.minutes < 100 && 0 <= c.seconds < 100 && 0 <= c.millis < 1000
    ensures var s := FormatClock(c);
      |s| >= 12 && s[|s| - 10] == ':' && s[|s| - 7] == ':' && s[|s| - 4] == '.'
      && AllDigits(s[..|s| - 10]) && AllDigits(s[|s| - 9..|s| - 7])
      && AllDigits(s[|s| - 6..|s| - 4]) && AllDigits(s[|s| - 3..])
      && ParseClock(s) == c
  {
    var h, m, sec, ms := ZeroPad(c.hours, 2), ZeroPad(c.minutes, 2), ZeroPad(c.seconds, 2), ZeroPad(c.millis, 3);
    assert |m| == 2 && |sec| == 2 && |ms| == 3 by {
      ZeroPad2(c.minutes);
      ZeroPad2(c.seconds);
      ZeroPad3(c.millis);
    }
    assert FormatClock(c) == h + ":" + m + ":" + sec + "." + ms;
    ClockLayout(h, m, sec, ms);
    ZeroPadRoundTrip(c.hours, 2);
    ZeroPadRoundTrip(c.minutes, 2);
    ZeroPadRoundTrip(c.seconds, 2);
    ZeroPadRoundTrip(c.millis, 3);
  }

  /** A non-negative time is written in that shape, and its fields read back as the clock of
      the time. */
  lemma FormatTimeShape(t: real)
    requires t >= 0.0
    ensures var s := FormatTime(t);
      |s| >= 12 && s[|s| - 10] == ':' && s[|s| - 7] == ':' && s[|s| - 4] == '.'
      && AllDigits(s[..|s| - 10]) && AllDigits(s[|s| - 9..|s| - 7])
      && AllDigits(s[|s| - 6..|s| - 4]) && AllDigits(s[|s| - 3..])
      && ParseClock(s) == ClockOf(t)
  {
    var c := ClockOf(t);
    assert c.hours >= 0 && 0 <= c.minutes < 100 && 0 <= c.seconds < 100 && 0 <= c.millis < 1000 by {
      ClockFields(t);
    }
    FormatClockShape(c);
  }

  // ---------------------------------------------------------------- frame file names

  /** `f'frame_{i:03d}.jpg'` */
  function FrameName(i: nat): string {
    "frame_" + ZeroPad(i, 3) + ".jpg"
  }

  /** Below 1000, name order is index order, so `sorted(os.listdir(...))` pastes frames in
      the order they were grabbed. */
  lemma FrameNameOrder(i: nat, j: nat)
    requires i < j < 1000
    ensures LexLess(FrameName(i), FrameName(j))
  {
    PaddedNameOrder("frame_", ".jpg", i, j);
  }

  /** The bound is tight: frame 1000 sorts before frame 999. */
  lemma FrameNameOrderBreaks()
    ensures LexLess(FrameName(1000), FrameName(999))
  {
    assert Decimal(1000) == Decimal(100) + [DigitChar(0)];
    assert Decimal(100) == Decimal(10) + [DigitChar(0)];
    assert Decimal(10) == Decimal(1) + [DigitChar(0)];
    assert Decimal(1000)[0] == '1' && |Decimal(1000)| == 4;
    assert ZeroPad(1000, 3) == Decimal(1000);
    ZeroPad3(999);
    var x, y := ZeroPad(1000, 3) + ".jpg", ZeroPad(999, 3) + ".jpg";
    assert x[0] == '1' && y[0] == '9';
    LexCommonPrefix("frame_", x, y);
    assert FrameName(1000) == "frame_" + x && FrameName(999) == "frame_" + y;
  }

  /** Different frames get different names. */
  lemma FrameNameInjective(i: nat, j: nat)
    requires FrameName(i) == FrameName(j)
    ensures i == j
  {
    PaddedNameInjective("frame_", ".jpg", i, j);
  }

  lemma FrameNamesDiffer(i: nat, j: nat)
    ensures i != j ==> FrameName(i) != FrameName(j)
  {
    if FrameName(i) == FrameName(j) {
      FrameNameInjective(i, j);
    }
  }

  lemma FrameNameIsJpg(i: nat)
    ensures EndsWith(FrameName(i), ".jpg")
  {
    var a := FrameName(i);
    assert a[|a| - 4..] == ".jpg";
  }

  /** The names of frames 0 .. k-1, in index order. */
  function FrameNames(k: nat): seq<string> {
    seq(k, i requires 0 <= i < k => FrameName(i))
  }

  /** Up to 1000 frames, their names in index order are sorted. */
  lemma FrameNamesSorted(k: nat)
    requires k <= 1000
    ensures StrictlySorted(FrameNames(k))
  {
    var s := FrameNames(k);
    forall i, j | 0 <= i < j < |s| ensures LexLess(s[i], s[j]) {
      FrameNameOrder(i, j);
    }
    PairwiseSorted(s);
  }

  /** The scratch directory after frames 0 .. k-1 were written into it. */
  function Frames(g: Geometry, video: string, duration: real, k: nat): map<string, Content>
    requires g.totalShots > 0
  {
    if k == 0 then map[]
    else Frames(g, video, duration, k - 1)[FrameName(k - 1) := Still(video, FrameTime(duration, g.totalShots, k - 1), g.tileWidth, g.tileHeight)]
  }

  /** The directory holds exactly the k frame names, and the frame named for `i` is the
      picture grabbed at `FrameTime(i)`. */
  lemma FramesContents(g: Geometry, video: string, duration: real, k: nat)
    requires g.totalShots > 0
    ensures forall n :: n in Frames(g, video, duration, k) <==> n in FrameNames(k)
    ensures forall i :: 0 <= i < k ==>
      (FrameName(i) in Frames(g, video, duration, k) &&
       Frames(g, video, duration, k)[FrameName(i)] == Still(video, FrameTime(duration, g.totalShots, i), g.tileWidth, g.tileHeight))
  {
    FramesKeys(g, video, duration, k);
    FramesValues(g, video, duration, k);
  }

  lemma {:induction false} FramesKeys(g: Geometry, video: string, duration: real, k: nat)
    requires g.totalShots > 0
    ensures forall n :: n in Frames(g, video, duration, k) <==> n in FrameNames(k)
  {
    if k > 0 {
      FramesKeys(g, video, duration, k - 1);
      forall n
        ensures n in Frames(g, video, duration, k) <==> n in FrameNames(k)
      {
        FrameNamesSnoc(k, n);
      }
    }
  }

  lemma {:induction false} FramesValues(g: Geometry, video: string, duration: real, k: nat)
    requires g.totalShots > 0
    ensures forall i :: 0 <= i < k ==>
      (FrameName(i) in Frames(g, video, duration, k) &&
       Frames(g, video, duration, k)[FrameName(i)] == Still(video, FrameTime(duration, g.totalShots, i), g.tileWidth, g.tileHeight))
  {
    if k > 0 {
      var before := Frames(g, video, duration, k - 1);
      var now := Frames(g, video, duration, k);
      FramesValues(g, video, duration, k - 1);
      forall i | 0 <= i < k - 1
        ensures FrameName(i) in now && now[FrameName(i)] == before[FrameName(i)]
      {
        FrameNamesDiffer(i, k - 1);
      }
    }
  }

  /** The first k frame names are the first k-1 and frame k-1. */
  lemma FrameNamesSnoc(k: nat, n: string)
    requires k > 0
    ensures n in FrameNames(k) <==> n in FrameNames(k - 1) || n == FrameName(k - 1)
  {
    if n in FrameNames(k) {
      var i :| 0 <= i < k && FrameNames(k)[i] == n;
      if i < k - 1 {
        assert FrameNames(k - 1)[i] == n;
      }
    }
    if n in FrameNames(k - 1) {
      var i :| 0 <= i < k - 1 && FrameNames(k - 1)[i] == n;
      assert FrameNames(k)[i] == n;
    }
    if n == FrameName(k - 1) {
      assert FrameNames(k)[k - 1] == n;
    }
  }

  lemma FrameNamesDistinct(k: nat)
    ensures NoDuplicates(FrameNames(k))
  {
    forall i, j | 0 <= i < j < k ensures FrameNames(k)[i] != FrameNames(k)[j] {
      if FrameName(i) == FrameName(j) {
        FrameNameInjective(i, j);
      }
    }
  }

  /** The frame names listed in index order are a listing of the full frame directory. */
  lemma FramesListing(g: Geometry, video: string, duration: real, k: nat)
    requires g.totalShots > 0
    ensures IsListing(FrameNames(k), Frames(g, video, duration, k).Keys)
  {
    FrameNamesDistinct(k);
    FramesContents(g, video, duration, k);
  }

  /** The frames of the schedule, grabbed in index order and scaled to a tile. */
  function Stills(g: Geometry, video: string, duration: real): (r: seq<Content>)
    requires g.totalShots > 0
    ensures |r| == g.totalShots
  {
    seq(g.totalShots, i requires 0 <= i < g.totalShots =>
      Still(video, FrameTime(duration, g.totalShots, i), g.tileWidth, g.tileHeight))
  }

  /** Whatever order a directory of all the schedule's frames is listed in, its `.jpg`
      names sorted are the frame names in index order (below 1000 frames), and the pictures
      they name are the frames of the schedule. */
  lemma FramePictures(g: Geometry, video: string, duration: real, listing: seq<string>)
    requires 0 < g.totalShots <= 1000
    requires IsListing(listing, Frames(g, video, duration, g.totalShots).Keys)
    ensures IsListing(FrameNames(g.totalShots), Frames(g, video, duration, g.totalShots).Keys)
    ensures EndingWith(Sort(listing), ".jpg") == FrameNames(g.totalShots)
    ensures ContentsOf(Frames(g, video, duration, g.totalShots), FrameNames(g.totalShots)) == Stills(g, video, duration)
  {
    var n := g.totalShots;
    FramesListing(g, video, duration, n);
    assert Sort(listing) == FrameNames(n) by {
      FrameNamesSorted(n);
      SortOfSortedListing(listing, FrameNames(n));
    }
    assert EndingWith(FrameNames(n), ".jpg") == FrameNames(n) by {
      forall i | 0 <= i < n ensures EndsWith(FrameNames(n)[i], ".jpg") {
        FrameNameIsJpg(i);
      }
      EndingWithAll(FrameNames(n), ".jpg");
    }
    assert ContentsOf(Frames(g, video, duration, n), FrameNames(n)) == Stills(g, video, duration) by {
      FramesValues(g, video, duration, n);
      var p := ContentsOf(Frames(g, video, duration, n), FrameNames(n));
      forall i | 0 <= i < n ensures p[i] == Stills(g, video, duration)[i] {
      }
    }
  }

  // ---------------------------------------------------------------- the mosaic

  /** Picture `idx` of `pictures` pasted at tile `idx`. */
  function Paste(g: Geometry, pictures: seq<Content>): (r: seq<Placed>)
    requires g.columns > 0
    ensures |r| == |pictures|
    ensures forall i :: 0 <= i < |r| ==> r[i] == Placed(TileX(g, i), TileY(g, i), pictures[i])
  {
    seq(|pictures|, i requires 0 <= i < |pictures| => Placed(TileX(g, i), TileY(g, i), pictures[i]))
  }

  /** Pasting one more picture appends its placement at the next tile. */
  lemma PasteSnoc(g: Geometry, pictures: seq<Content>, i: nat)
    requires g.columns > 0 && i < |pictures|
    ensures Paste(g, pictures[..i + 1]) == Paste(g, pictures[..i]) + [Placed(TileX(g, i), TileY(g, i), pictures[i])]
  {
  }

  /** The paste loop of both generators: picture idx goes to tile idx. */
  method PasteAll(g: Geometry, images: seq<Content>) returns (tiles: seq<Placed>)
    requires g.columns > 0
    ensures tiles == Paste(g, images)
  {
    tiles := [];
    var idx := 0;
    while idx < |images|
      invariant 0 <= idx <= |images|
      invariant tiles == Paste(g, images[..idx])
    {
      var x := (idx % g.columns) * g.tileWidth;
      var y := (idx / g.columns) * g.tileHeight;
      PasteSnoc(g, images, idx);
      tiles := tiles + [Placed(x, y, images[idx])];
      idx := idx + 1;
    }
    assert images[..idx] == images;
  }

  // ---------------------------------------------------------------- the cue sheet

  datatype Cue = Cue(start: real, end: real, x: int, y: int, width: int, height: int)

  /** The cue written for frame `i`: its time range and its tile. */
  function CueOf(g: Geometry, duration: real, i: nat): Cue
    requires g.totalShots > 0 && g.columns > 0
  {
    Cue(FrameTime(duration, g.totalShots, i), CueEnd(duration, g.totalShots, i),
        TileX(g, i), TileY(g, i), g.tileWidth, g.tileHeight)
  }

  /** `<sprite>#xywh=x,y,w,h` */
  function Fragment(spriteName: string, c: Cue): string {
    spriteName + "#xywh=" + IntToString(c.x) + "," + IntToString(c.y) + "," + IntToString(c.width) + "," + IntToString(c.height)
  }

  /** The two lines, and the blank line, written per frame. */
  function RenderCue(spriteName: string, c: Cue): string {
    FormatTime(c.start) + " --> " + FormatTime(c.end) + "\n" + Fragment(spriteName, c) + "\n\n"
  }

  const VTT_HEADER: string := "WEBVTT\n\n"

  /** The cues of frames 0 .. k-1, in index order. */
  function CueList(g: Geometry, duration: real, k: nat): (r: seq<Cue>)
    requires g.totalShots > 0 && g.columns > 0
    ensures |r| == k && forall i :: 0 <= i < k ==> r[i] == CueOf(g, duration, i)
  {
    seq(k, i requires 0 <= i < k => CueOf(g, duration, i))
  }

  /** The cues of a shorter run are a prefix of those of a longer one. */
  lemma CueListPrefix(g: Geometry, duration: real, i: nat, k: nat)
    requires g.totalShots > 0 && g.columns > 0 && i <= k
    ensures CueList(g, duration, k)[..i] == CueList(g, duration, i)
  {
  }

  /** The text of a cue sheet holding `cues`: the header, then each cue, in order. */
  function CueText(spriteName: string, cues: seq<Cue>): string
    decreases |cues|
  {
    if cues == [] then VTT_HEADER
    else CueText(spriteName, cues[..|cues| - 1]) + RenderCue(spriteName, cues[|cues| - 1])
  }

  /** Writing cue i after the cues before it gives the text of the first i+1 cues. */
  lemma CueTextSnoc(spriteName: string, cues: seq<Cue>, i: nat)
    requires i < |cues|
    ensures CueText(spriteName, cues[..i]) + RenderCue(spriteName, cues[i]) == CueText(spriteName, cues[..i + 1])
  {
    assert cues[..i + 1][..i] == cues[..i];
  }

  /** The text of the first j cues is a prefix of the text of all of them. */
  lemma {:induction false} CueTextPrefix(spriteName: string, cues: seq<Cue>, j: nat)
    requires j <= |cues|
    ensures IsPrefix(CueText(spriteName, cues[..j]), CueText(spriteName, cues))
    decreases |cues| - j
  {
    var before := CueText(spriteName, cues[..j]);
    if j == |cues| {
      assert cues[..j] == cues;
      assert IsPrefix(before, before);
    } else {
      var next := CueText(spriteName, cues[..j + 1]);
      assert IsPrefix(before, next) by {
        CueTextSnoc(spriteName, cues, j);
        PrefixOfAppend(before, RenderCue(spriteName, cues[j]));
      }
      CueTextPrefix(spriteName, cues, j + 1);
      PrefixTransitive(before, next, CueText(spriteName, cues));
    }
  }

  /** The whole cue sheet for the first k frames. */
  function CueSheet(g: Geometry, duration: real, spriteName: string, k: nat): string
    requires g.totalShots > 0 && g.columns > 0
  {
    CueText(spriteName, CueList(g, duration, k))
  }

  /** Writing cue i after the sheet of the first i frames gives the sheet of i+1 frames. */
  lemma CueSheetSnoc(g: Geometry, duration: real, spriteName: string, i: nat)
    requires g.totalShots > 0 && g.columns > 0
    ensures CueSheet(g, duration, spriteName, i) + RenderCue(spriteName, CueOf(g, duration, i))
         == CueSheet(g, duration, spriteName, i + 1)
  {
    var cues := CueList(g, duration, i + 1);
    CueListPrefix(g, duration, i, i + 1);
    CueTextSnoc(spriteName, cues, i);
    assert cues[..i + 1] == cues;
  }

  /** The sheet of the first i frames is the header alone when i is 0; for i < k, the sheet of
      k frames begins with it and continues with cue i. */
  lemma CueSheetOrder(g: Geometry, duration: real, spriteName: string, i: nat, k: nat)
    requires g.totalShots > 0 && g.columns > 0 && i < k
    ensures CueSheet(g, duration, spriteName, 0) == VTT_HEADER
    ensures IsPrefix(CueSheet(g, duration, spriteName, i) + RenderCue(spriteName, CueOf(g, duration, i)),
                     CueSheet(g, duration, spriteName, k))
  {
    var cues := CueList(g, duration, k);
    assert cues[..i] == CueList(g, duration, i) by {
      CueListPrefix(g, duration, i, k);
    }
    assert cues[i] == CueOf(g, duration, i);
    CueTextSnoc(spriteName, cues, i);
    CueTextPrefix(spriteName, cues, i + 1);
  }

  /** Cue i and the tile of frame i agree: the cue's fragment names the rectangle where the
      frame grabbed at the cue's start is pasted, and consecutive cues meet. */
  lemma CueMatchesTile(g: Geometry, duration: real, pictures: seq<Content>, i: nat)
    requires g.totalShots > 0 && g.columns > 0 && i < |pictures|
    ensures var c := CueOf(g, duration, i);
      var p := Paste(g, pictures)[i];
      c.x == p.x && c.y == p.y && c.width == g.tileWidth && c.height == g.tileHeight
      && c.end == CueOf(g, duration, i + 1).start
  {
  }
}
