/** `process_scene` (helpers/scene_processor.py): one scene's run through path translation,
    naming-key selection, the existence check, claiming, perceptual hashing, the cover
    check, sprite and preview generation, and the final release or error tag.

    Everything the run learns from outside (whether the file exists, what the hash tool
    printed, what the screenshot URL returned, whether each ffmpeg run produced a file,
    whether the sprite and preview generators raised) is an input, `Outcomes`. The pure
    function `Pipeline` says which wrapper calls and which tool runs one combination of
    outcomes leads to; the method `ProcessScene` performs them on the service and the error
    log and is proved to do exactly that. */
module SceneProcessor {
  import opened Wrappers
  import opened Strings
  import opened StashApi
  import opened StashUtils

  // ---------------------------------------------------------------- path translation

  /** One entry of the `translations` table: the prefix the library reports, and the
      prefix under which this machine sees the same file. */
  datatype Translation = Translation(orig: string, local: string)

  /** The rules applied in list order, each replacing at most the first occurrence of its
      `orig` in the path as the earlier rules left it. */
  function Translate(path: string, rules: seq<Translation>): string
    decreases |rules|
  {
    if rules == [] then path
    else Translate(ReplaceFirst(path, rules[0].orig, rules[0].local), rules[1..])
  }

  method TranslatePath(path: string, rules: seq<Translation>) returns (filename: string)
    ensures filename == Translate(path, rules)
  {
    filename := path;
    var i := 0;
    while i < |rules|
      invariant 0 <= i <= |rules|
      invariant Translate(filename, rules[i..]) == Translate(path, rules)
    {
      assert rules[i..][1..] == rules[i + 1..];
      filename := ReplaceFirst(filename, rules[i].orig, rules[i].local);
      i := i + 1;
    }
  }

  /** A rule added at the end works on what the earlier rules produced. */
  lemma {:induction false} TranslateSnoc(path: string, rules: seq<Translation>, r: Translation)
    ensures Translate(path, rules + [r]) == ReplaceFirst(Translate(path, rules), r.orig, r.local)
    decreases |rules|
  {
    if rules == [] {
      assert [] + [r] == [r];
      assert [r][1..] == [];
    } else {
      assert (rules + [r])[0] == rules[0];
      assert (rules + [r])[1..] == rules[1..] + [r];
      TranslateSnoc(ReplaceFirst(path, rules[0].orig, rules[0].local), rules[1..], r);
    }
  }

  /** A path in which no rule's `orig` occurs passes through unchanged. */
  lemma {:induction false} TranslateUntouched(path: string, rules: seq<Translation>)
    requires forall k :: 0 <= k < |rules| ==> !Contains(path, rules[k].orig)
    ensures Translate(path, rules) == path
    decreases |rules|
  {
    if rules != [] {
      assert ReplaceFirst(path, rules[0].orig, rules[0].local) == path;
      assert forall k :: 0 <= k < |rules[1..]| ==> rules[1..][k] == rules[k + 1];
      TranslateUntouched(path, rules[1..]);
    }
  }

  /** Hence translating twice is translating once whenever no rule's `orig` occurs in the
      translated path: no rule fires a second time. */
  lemma TranslateIdempotent(path: string, rules: seq<Translation>)
    requires forall k :: 0 <= k < |rules| ==> !Contains(Translate(path, rules), rules[k].orig)
    ensures Translate(Translate(path, rules), rules) == Translate(path, rules)
  {
    TranslateUntouched(Translate(path, rules), rules);
  }

  /** A pattern holding a character the text lacks does not occur in it. */
  lemma AbsentCharNotContained(s: string, sub: string, c: char)
    requires c in sub && c !in s
    ensures !Contains(s, sub)
  {
    var k :| 0 <= k < |sub| && sub[k] == c;
    forall i: nat ensures !OccursAt(s, sub, i) {
      if i + |sub| <= |s| {
        assert s[i..i + |sub|][k] == s[i + k];
      }
    }
    ContainsIff(s, sub);
  }

  /** The table shipped for Linux hosts. */
  function LinuxTranslations(): seq<Translation> {
    [Translation("/data/", "/mnt/datadrive/"),
     Translation("/data2/", "/mnt/datadrive2/"),
     Translation("/data3/", "/mnt/datadrive3/")]
  }

  /** With that table a path under `/data/` moves under `/mnt/datadrive/`, and the other two
      rules (whose prefixes carry a digit the new path lacks) leave it alone. */
  lemma LinuxTranslationExample()
    ensures Translate("/data/v/a.mp4", LinuxTranslations()) == "/mnt/datadrive/v/a.mp4"
  {
    var rules := LinuxTranslations();
    assert rules[0] == Translation("/data/", "/mnt/datadrive/");
    assert rules[1..] == LaterRules();
    FirstRuleExample();
    LaterRulesExample();
  }

  function LaterRules(): seq<Translation> {
    [Translation("/data2/", "/mnt/datadrive2/"), Translation("/data3/", "/mnt/datadrive3/")]
  }

  lemma LaterRulesExample()
    ensures Translate("/mnt/datadrive/v/a.mp4", LaterRules()) == "/mnt/datadrive/v/a.mp4"
  {
    var q := "/mnt/datadrive/v/a.mp4";
    assert '2' !in q && '3' !in q by {
      forall j | 0 <= j < |q| ensures q[j] != '2' && q[j] != '3' { }
    }
    AbsentCharNotContained(q, "/data2/", '2');
    AbsentCharNotContained(q, "/data3/", '3');
    TranslateUntouched(q, LaterRules());
  }

  lemma FirstRuleExample()
    ensures ReplaceFirst("/data/v/a.mp4", "/data/", "/mnt/datadrive/") == "/mnt/datadrive/v/a.mp4"
  {
    var p := "/data/v/a.mp4";
    assert OccursAt(p, "/data/", 0);
    assert Find(p, "/data/") == Some(0);
    assert p[6..] == "v/a.mp4";
  }

  // ---------------------------------------------------------------- names

  /** The text `$` anchors on: a path with its one final '\n', if any, dropped. */
  function Unterminated(path: string): string {
    if |path| > 0 && path[|path| - 1] == '\n' then path[..|path| - 1] else path
  }

  /** The pattern `.*[/\\](.*?)$` finds a match: some '/' or '\' is followed, up to the
      anchor, by no '\n' (`.` matches anything but a newline). */
  predicate Named(path: string) {
    exists k :: 0 < k <= |Unterminated(path)| && Unterminated(path)[k - 1] in {'/', '\\'} &&
                '\n' !in Unterminated(path)[k..]
  }

  /** `re.search(r'.*[/\\](.*?)$', path).group(1)`: the text after the last '/' or '\', with
      a final newline dropped. There is no match when no separator is followed by a
      newline-free rest, and the source's `.group` call then fails; that is `None` here. */
  function DisplayName(path: string): (r: Option<string>)
    ensures r.None? <==> !Named(path)
  {
    var t := Unterminated(path);
    match LastIndexOfAny(t, {'/', '\\'})
    case None => None
    case Some(i) =>
      var tail := t[i + 1..];
      if '\n' in tail then
        assert !Named(path) by {
          var m :| 0 <= m < |tail| && tail[m] == '\n';
          forall k | 0 < k <= |t| && t[k - 1] in {'/', '\\'} ensures '\n' in t[k..] {
            assert t[k..][i + 1 + m - k] == '\n';
          }
        }
        None
      else
        assert '\n' !in t[i + 1..];
        Some(tail)
  }

  /** A matched name is what follows a separator, up to the anchor, and holds no
      separator and no newline. */
  lemma DisplayNameParts(path: string)
    requires DisplayName(path).Some?
    ensures var name := DisplayName(path).value;
      '/' !in name && '\\' !in name && '\n' !in name &&
      exists k :: 0 < k <= |Unterminated(path)| && Unterminated(path)[k - 1] in {'/', '\\'} && name == Unterminated(path)[k..]
  {
    var t := Unterminated(path);
    var i := LastIndexOfAny(t, {'/', '\\'}).value;
    var tail := t[i + 1..];
    assert forall j :: 0 <= j < |tail| ==> tail[j] == t[i + 1 + j];
  }

  /** The pattern's newline cases: a final newline is left out of the name, and a newline
      after the last separator leaves no match. */
  lemma DisplayNameNewlines()
    ensures DisplayName("/v/a.mp4\n") == Some("a.mp4")
    ensures DisplayName("/v/a\nb.mp4") == None
    ensures DisplayName("/v/a.mp4") == Some("a.mp4")
  {
    var p := "/v/a.mp4\n";
    assert Unterminated(p) == "/v/a.mp4";
    LastSeparatorAt("/v/a.mp4", 2);
    var q := "/v/a\nb.mp4";
    assert Unterminated(q) == q;
    LastSeparatorAt(q, 2);
    assert q[3..][1] == '\n';
  }

  /** A separator with none after it is the one `LastIndexOfAny` finds. */
  lemma LastSeparatorAt(t: string, i: nat)
    requires i < |t| && t[i] in {'/', '\\'} && forall j :: i < j < |t| ==> t[j] !in {'/', '\\'}
    ensures LastIndexOfAny(t, {'/', '\\'}) == Some(i)
  {
  }

  /** A fingerprint whose type is "oshash", compared case-insensitively. */
  predicate IsOshash(fp: Fingerprint) {
    Lower(fp.kind) == "oshash"
  }

  /** The value of the last oshash fingerprint, or "" when there is none. */
  function LastOshash(fps: seq<Fingerprint>): (r: string)
    ensures (exists i :: 0 <= i < |fps| && IsOshash(fps[i]) && r == fps[i].value
                && forall j :: i < j < |fps| ==> !IsOshash(fps[j]))
         || ((forall i :: 0 <= i < |fps| ==> !IsOshash(fps[i])) && r == "")
    decreases |fps|
  {
    if fps == [] then ""
    else if IsOshash(fps[|fps| - 1]) then fps[|fps| - 1].value
    else
      var r := LastOshash(fps[..|fps| - 1]);
      assert forall j :: 0 <= j < |fps| - 1 ==> fps[..|fps| - 1][j] == fps[j];
      r
  }

  /** The loop at lines 46-49: every oshash fingerprint overwrites the key, so the last wins. */
  method SelectOshash(fps: seq<Fingerprint>) returns (filehash: string)
    ensures filehash == LastOshash(fps)
  {
    filehash := "";
    var i := 0;
    while i < |fps|
      invariant 0 <= i <= |fps|
      invariant filehash == LastOshash(fps[..i])
    {
      assert fps[..i + 1][..i] == fps[..i];
      if Lower(fps[i].kind) == "oshash" {
        filehash := fps[i].value;
      }
      i := i + 1;
    }
    assert fps[..|fps|] == fps;
  }

  predicate TokenChar(c: char) {
    'a' <= c <= 'z' || '0' <= c <= '9'
  }

  /** What `random.choices(ascii_lowercase + digits, k=12)` can return. */
  predicate IsToken(t: string) {
    |t| == 12 && forall i :: 0 <= i < |t| ==> TokenChar(t[i])
  }

  /** A key the run accepts as a file-name part: non-empty, without ':', '\' or '/'. */
  predicate SafeKey(k: string) {
    k != "" && ':' !in k && '\\' !in k && '/' !in k
  }

  /** The naming key: the last oshash value when it is safe, else the random token. */
  function NamingKey(fps: seq<Fingerprint>, token: string): (key: string)
    requires IsToken(token)
    ensures SafeKey(key)
    ensures SafeKey(LastOshash(fps)) ==> key == LastOshash(fps)
    ensures !SafeKey(LastOshash(fps)) ==> key == token
  {
    var h := LastOshash(fps);
    if !SafeKey(h) then
      assert forall c :: c in token ==> TokenChar(c);
      token
    else h
  }

  /** `os.path.join(dir, name)` with POSIX rules. */
  function PathJoin(dir: string, name: string): (r: string)
    ensures EndsWith(r, name)
  {
    if StartsWith(name, "/") then name
    else if dir == "" || dir[|dir| - 1] == '/' then dir + name
    else dir + "/" + name
  }

  /** How a joined path is made: a name starting with '/' replaces the directory; any
      other name follows the directory, joined by at most one added '/', and a non-empty
      directory always puts a '/' right before the name. */
  lemma PathJoinParts(dir: string, name: string)
    ensures StartsWith(name, "/") ==> PathJoin(dir, name) == name
    ensures !StartsWith(name, "/") ==>
      StartsWith(PathJoin(dir, name), dir) && |dir| + |name| <= |PathJoin(dir, name)| <= |dir| + |name| + 1
    ensures !StartsWith(name, "/") && dir != "" ==> PathJoin(dir, name)[|PathJoin(dir, name)| - |name| - 1] == '/'
  {
  }

  /** A joined name without '/' is the basename of the joined path. */
  lemma JoinedBasename(dir: string, name: string)
    requires '/' !in name
    ensures Basename(PathJoin(dir, name)) == name
  {
    assert !StartsWith(name, "/") by {
      if name != [] {
        assert name[0] in name;
      }
    }
    if dir == "" || dir[|dir| - 1] == '/' {
      assert PathJoin(dir, name) == dir + name;
      BasenameOfName(dir, name);
    } else {
      var x := dir + "/";
      assert x[|x| - 1] == '/';
      assert PathJoin(dir, name) == x + name;
      BasenameOfName(x, name);
    }
  }

  function SpriteFile(spritePath: string, key: string): string { PathJoin(spritePath, key + "_sprite.jpg") }
  function VttFile(spritePath: string, key: string): string { PathJoin(spritePath, key + "_thumbs.vtt") }
  function PreviewFile(previewPath: string, key: string): string { PathJoin(previewPath, key + ".mp4") }
  function CoverDir(key: string): string { "cover_temp_" + key }
  function CoverImage(key: string): string { PathJoin(CoverDir(key), key + "_cover.jpg") }

  /** The sprite, cue-sheet and preview files are named after the key, and each one's
      basename is exactly `{key}_sprite.jpg`, `{key}_thumbs.vtt`, `{key}.mp4`. */
  lemma ArtifactNames(spritePath: string, previewPath: string, key: string)
    requires SafeKey(key)
    ensures Basename(SpriteFile(spritePath, key)) == key + "_sprite.jpg"
    ensures Basename(VttFile(spritePath, key)) == key + "_thumbs.vtt"
    ensures Basename(PreviewFile(previewPath, key)) == key + ".mp4"
  {
    assert '/' !in "_sprite.jpg" && '/' !in "_thumbs.vtt" && '/' !in ".mp4";
    JoinedBasename(spritePath, key + "_sprite.jpg");
    JoinedBasename(spritePath, key + "_thumbs.vtt");
    JoinedBasename(previewPath, key + ".mp4");
  }

  // ---------------------------------------------------------------- commands

  function HashCommand(binary: string, video: string): seq<string> {
    [binary, "-json", video]
  }

  /** The ffmpeg call that grabs one frame at `at` into `image`. */
  function CoverCommand(ffmpeg: string, video: string, at: string, image: string): (cmd: seq<string>)
    ensures |cmd| == 12 && cmd[6] == "-ss" && cmd[7] == at && cmd[10] == image
  {
    [ffmpeg, "-hide_banner", "-loglevel", "error", "-i", video, "-ss", at, "-vframes", "1", image, "-nostdin"]
  }

  /** `xs.index(x)`: the first position holding `x`. */
  function IndexOf(xs: seq<string>, x: string): (r: nat)
    requires x in xs
    ensures r < |xs| && xs[r] == x
    ensures forall j :: 0 <= j < r ==> xs[j] != x
  {
    if xs[0] == x then 0
    else
      assert x in xs[1..];
      1 + IndexOf(xs[1..], x)
  }

  const FIRST_COVER_TIME := "00:00:30"
  const RETRY_COVER_TIME := "00:00:05"

  /** Line 98: the element after the first "-ss" is overwritten with the retry time. */
  function RetryCommand(cmd: seq<string>): seq<string>
    requires "-ss" in cmd && IndexOf(cmd, "-ss") + 1 < |cmd|
  {
    cmd[IndexOf(cmd, "-ss") + 1 := RETRY_COVER_TIME]
  }

  /** Unless the ffmpeg path or the video path is itself "-ss", the retry is the same command
      with the grab moved from 30 s to 5 s. */
  lemma RetryMovesGrab(ffmpeg: string, video: string, image: string)
    requires ffmpeg != "-ss" && video != "-ss"
    ensures RetryCommand(CoverCommand(ffmpeg, video, FIRST_COVER_TIME, image))
         == CoverCommand(ffmpeg, video, RETRY_COVER_TIME, image)
  {
    var cmd := CoverCommand(ffmpeg, video, FIRST_COVER_TIME, image);
    assert forall j :: 0 <= j < 6 ==> cmd[j] != "-ss";
    assert IndexOf(cmd, "-ss") == 6;
  }

  // ---------------------------------------------------------------- one scene's inputs

  /** The first file record of a scene as the discovery query returns it; a missing
      `fingerprints` list is the empty list. */
  datatype SceneFile = SceneFile(id: string, path: string, fingerprints: seq<Fingerprint>)

  /** A scene: its ID, its file records, and `paths.screenshot` (`None` when null). */
  datatype Scene = Scene(id: string, files: seq<SceneFile>, screenshot: Option<string>)

  /** The configuration `process_scene` reads. */
  datatype Config = Config(
    settings: Settings,
    binary: string,
    ffmpeg: string,
    generateSprite: bool,
    generatePreview: bool,
    spritePath: string,
    previewPath: string,
    translations: seq<Translation>)

  /** What the hashing `try` meets: an exception from the tool run (non-zero exit, output
      that is not JSON), with its text; the parsed JSON object; or an object with a "phash"
      entry whose `update_phash` request raised, with the exception's text. */
  datatype HashOutput =
    | HashRaised(message: string)
    | HashParsed(fields: map<string, string>)
    | StoreRaised(message: string)

  /** The screenshot request: an exception, or the body decoded as latin-1. */
  datatype Fetch = FetchRaised(message: string) | Fetched(body: string)

  /** One `subprocess.run(..., check=True)` of ffmpeg: an exception, or a normal exit after
      which the target file does or does not exist. */
  datatype ToolRun = RunRaised(message: string) | RunFinished(produced: bool)

  /** A sprite or preview generator: finished, or raised. */
  datatype GenOutcome = Completed | GenRaised(message: string)

  datatype Outcomes = Outcomes(
    fileExists: bool,
    hash: HashOutput,
    fetch: Fetch,
    firstCover: ToolRun,
    secondCover: ToolRun,
    encoded: string,
    accepted: bool,
    spriteExists: bool,
    sprite: GenOutcome,
    previewExists: bool,
    preview: GenOutcome)

  // ---------------------------------------------------------------- one scene's effects

  /** A local effect of the run (remote ones are `Call`s). */
  datatype Action =
    | RunHasher(args: seq<string>)
    | RunCoverTool(args: seq<string>)
    | MakeDir(dir: string)
    | RemoveDir(dir: string)
    | GenerateSprite(video: string, sprite: string, vtt: string, key: string)
    | GeneratePreview(video: string, output: string, key: string)

  /** How `process_scene` ends: an uncaught exception before any effect (no file record, or
      a path the name pattern does not match), one of the four early returns, or the release. */
  datatype Ending = Crashed | FileMissing | HashFailed | SpriteFailed | PreviewFailed | Released

  predicate Terminal(e: Ending) {
    e.FileMissing? || e.HashFailed? || e.SpriteFailed? || e.PreviewFailed?
  }

  /** The run reached the cover step. */
  predicate CoverReached(e: Ending) {
    e.SpriteFailed? || e.PreviewFailed? || e.Released?
  }

  datatype Stage = Stage(calls: seq<Call>, actions: seq<Action>, failed: bool)
  datatype Run = Run(calls: seq<Call>, actions: seq<Action>, ending: Ending)

  const FILE_NOT_FOUND := "File not found after translation"
  /** `str(KeyError('phash'))`. */
  const MISSING_PHASH := "'phash'"
  const COVER_PREFIX := "data:image/jpg;base64,"

  /** The hashing `try` fails: an exception from the tool or from the phash request, or
      JSON without a "phash" entry. */
  predicate HashFails(h: HashOutput) {
    !h.HashParsed? || "phash" !in h.fields
  }

  function HashMessage(h: HashOutput): string {
    if h.HashParsed? then MISSING_PHASH else h.message
  }

  /** The calls claim, release or error-tag no scene but `scene`. */
  predicate About(cs: seq<Call>, scene: string) {
    forall c :: c in cs && (c.Claim? || c.Release? || c.TagError?) ==> c.scene == scene
  }

  /** The calls neither claim nor release. */
  predicate NoLifecycle(cs: seq<Call>) {
    forall c :: c in cs ==> !c.Claim? && !c.Release?
  }

  lemma ErrorTagsOne(c: Call)
    ensures ErrorTags([c]) == if c.TagError? then {c.tag} else {}
  {
    assert [c][..0] == [];
  }

  /** Lines 68-78: skipped under dry run; otherwise the hasher runs once, and an exception
      from the tool, JSON without "phash" (a `KeyError` whose text is `'phash'`) or an
      exception from the phash request error-tags the scene with the hashing error tag and
      stops the run, while a hash the service takes is stored as the file's phash. */
  function HashStage(cfg: Config, scene: string, file: string, video: string, out: HashOutput): (s: Stage)
    ensures s.failed <==> !cfg.settings.dryRun && HashFails(out)
    ensures ErrorTags(s.calls) == if s.failed then {cfg.settings.hashingErrorTag} else {}
    ensures s.failed ==> s.calls == [TagError(scene, cfg.settings.hashingErrorTag, HashMessage(out))]
    ensures !cfg.settings.dryRun && !HashFails(out) ==> s.calls == [UpdatePhash(file, out.fields["phash"])]
    ensures s.actions == if cfg.settings.dryRun then [] else [RunHasher(HashCommand(cfg.binary, video))]
    ensures About(s.calls, scene) && NoLifecycle(s.calls)
  {
    if cfg.settings.dryRun then Stage([], [], false)
    else
      var runs := [RunHasher(HashCommand(cfg.binary, video))];
      if HashFails(out) then
        var c := TagError(scene, cfg.settings.hashingErrorTag, HashMessage(out));
        ErrorTagsOne(c);
        Stage([c], runs, true)
      else
        var c := UpdatePhash(file, out.fields["phash"]);
        ErrorTagsOne(c);
        Stage([c], runs, false)
  }

  /** A successful grab: the first run produced the image, or the retry did. */
  predicate CoverProduced(env: Outcomes) {
    env.firstCover == RunFinished(true)
      || (env.firstCover == RunFinished(false) && env.secondCover == RunFinished(true))
  }

  /** Lines 95-104, outside dry run: the grab at 30 s; the retry at 5 s exactly when the
      first run exited normally without producing the image; the upload of the image when
      one of them produced it; otherwise a cover error tag. */
  function CoverExtraction(cfg: Config, scene: string, video: string, key: string, env: Outcomes): (s: Stage)
    ensures var first := CoverCommand(cfg.ffmpeg, video, FIRST_COVER_TIME, CoverImage(key));
      s.actions == if env.firstCover == RunFinished(false)
        then [RunCoverTool(first), RunCoverTool(RetryCommand(first))]
        else [RunCoverTool(first)]
    ensures CoverProduced(env) ==> s.calls == [UpdateCover(scene, COVER_PREFIX + env.encoded, env.accepted)]
    ensures !CoverProduced(env) ==>
      (|s.calls| == 1 && s.calls[0].TagError? && s.calls[0].scene == scene && s.calls[0].tag == cfg.settings.coverErrorTag)
    ensures !s.failed
  {
    var first := CoverCommand(cfg.ffmpeg, video, FIRST_COVER_TIME, CoverImage(key));
    var upload := UpdateCover(scene, COVER_PREFIX + env.encoded, env.accepted);
    var tag := cfg.settings.coverErrorTag;
    match env.firstCover
    case RunRaised(m) => Stage([TagError(scene, tag, m)], [RunCoverTool(first)], false)
    case RunFinished(p) =>
      if p then Stage([upload], [RunCoverTool(first)], false)
      else
        var runs := [RunCoverTool(first), RunCoverTool(RetryCommand(first))];
        match env.secondCover
        case RunRaised(m) => Stage([TagError(scene, tag, m)], runs, false)
        case RunFinished(q) =>
          if q then Stage([upload], runs, false)
          else Stage([TagError(scene, tag, "Cover image not created: " + CoverImage(key))], runs, false)
  }

  /** The screenshot the library holds is only its placeholder. */
  predicate IsPlaceholder(body: string) {
    Contains(Lower(body), "<svg")
  }

  /** An independent statement of when the cover step tags a cover error: the screenshot
      URL is set, and fetching it raised, or it is the placeholder and (outside dry run)
      no grab produced an image. */
  predicate CoverFails(cfg: Config, screenshot: Option<string>, env: Outcomes) {
    screenshot.Some? && screenshot.value != ""
      && (env.fetch.FetchRaised?
          || (IsPlaceholder(env.fetch.body) && !cfg.settings.dryRun && !CoverProduced(env)))
  }

  /** The cover is replaced when the URL is set, the screenshot is the placeholder, and
      (outside dry run) a grab produced an image. */
  predicate CoverUploads(cfg: Config, screenshot: Option<string>, env: Outcomes) {
    screenshot.Some? && screenshot.value != "" && env.fetch.Fetched?
      && IsPlaceholder(env.fetch.body) && !cfg.settings.dryRun && CoverProduced(env)
  }

  /** Lines 80-112. No outcome of this step stops the run; the scratch directory is made
      for a placeholder and, outside dry run, removed again as the step's last action. */
  function CoverStage(cfg: Config, scene: string, screenshot: Option<string>, video: string, key: string, env: Outcomes): (s: Stage)
    ensures !s.failed
    ensures ErrorTags(s.calls) == if CoverFails(cfg, screenshot, env) then {cfg.settings.coverErrorTag} else {}
    ensures (exists c :: c in s.calls && c.UpdateCover?) <==> CoverUploads(cfg, screenshot, env)
    ensures forall c :: c in s.calls && c.UpdateCover? ==> c == UpdateCover(scene, COVER_PREFIX + env.encoded, env.accepted)
    ensures About(s.calls, scene) && NoLifecycle(s.calls)
    ensures forall a :: a in s.actions ==> a.MakeDir? || a.RemoveDir? || a.RunCoverTool?
    ensures cfg.settings.dryRun ==> s.actions == [] || s.actions == [MakeDir(CoverDir(key))]
    ensures !cfg.settings.dryRun && s.actions != [] ==>
      |s.actions| >= 3 && s.actions[0] == MakeDir(CoverDir(key)) && s.actions[|s.actions| - 1] == RemoveDir(CoverDir(key))
  {
    if screenshot.None? || screenshot.value == "" then Stage([], [], false)
    else
      match env.fetch
      case FetchRaised(m) =>
        var c := TagError(scene, cfg.settings.coverErrorTag, m);
        ErrorTagsOne(c);
        Stage([c], [], false)
      case Fetched(body) =>
        if !IsPlaceholder(body) then Stage([], [], false)
        else if cfg.settings.dryRun then Stage([], [MakeDir(CoverDir(key))], false)
        else PlaceholderStage(cfg, scene, video, key, env)
  }

  /** Lines 94-112 outside dry run: the scratch directory, the grabs within it and its removal. */
  function PlaceholderStage(cfg: Config, scene: string, video: string, key: string, env: Outcomes): (s: Stage)
    ensures !s.failed
    ensures ErrorTags(s.calls) == if CoverProduced(env) then {} else {cfg.settings.coverErrorTag}
    ensures (exists c :: c in s.calls && c.UpdateCover?) <==> CoverProduced(env)
    ensures forall c :: c in s.calls && c.UpdateCover? ==> c == UpdateCover(scene, COVER_PREFIX + env.encoded, env.accepted)
    ensures About(s.calls, scene) && NoLifecycle(s.calls)
    ensures forall a :: a in s.actions ==> a.MakeDir? || a.RemoveDir? || a.RunCoverTool?
    ensures |s.actions| >= 3 && s.actions[0] == MakeDir(CoverDir(key)) && s.actions[|s.actions| - 1] == RemoveDir(CoverDir(key))
  {
    var x := CoverExtraction(cfg, scene, video, key, env);
    ErrorTagsOne(x.calls[0]);
    assert x.calls == [x.calls[0]];
    Stage(x.calls, [MakeDir(CoverDir(key))] + x.actions + [RemoveDir(CoverDir(key))], false)
  }

  /** Lines 114-127: the sprite and its cue sheet are built only when enabled, outside dry
      run, and when the sprite file is absent; a generator exception error-tags the scene
      with the hashing error tag and stops the run. */
  function SpriteStage(cfg: Config, scene: string, video: string, key: string, env: Outcomes): (s: Stage)
    ensures var runs := cfg.generateSprite && !env.spriteExists && !cfg.settings.dryRun;
      s.actions == if runs then [GenerateSprite(video, SpriteFile(cfg.spritePath, key), VttFile(cfg.spritePath, key), key)] else []
    ensures s.failed <==> cfg.generateSprite && !env.spriteExists && !cfg.settings.dryRun && env.sprite.GenRaised?
    ensures ErrorTags(s.calls) == if s.failed then {cfg.settings.hashingErrorTag} else {}
    ensures s.failed ==> s.calls == [TagError(scene, cfg.settings.hashingErrorTag, env.sprite.message)]
    ensures !s.failed ==> s.calls == []
    ensures About(s.calls, scene) && NoLifecycle(s.calls)
  {
    if !cfg.generateSprite || env.spriteExists || cfg.settings.dryRun then Stage([], [], false)
    else
      var gen := [GenerateSprite(video, SpriteFile(cfg.spritePath, key), VttFile(cfg.spritePath, key), key)];
      match env.sprite
      case Completed => Stage([], gen, false)
      case GenRaised(m) =>
        var c := TagError(scene, cfg.settings.hashingErrorTag, m);
        ErrorTagsOne(c);
        Stage([c], gen, true)
  }

  /** Lines 129-145, the same gating for the preview file. */
  function PreviewStage(cfg: Config, scene: string, video: string, key: string, env: Outcomes): (s: Stage)
    ensures var runs := cfg.generatePreview && !env.previewExists && !cfg.settings.dryRun;
      s.actions == if runs then [GeneratePreview(video, PreviewFile(cfg.previewPath, key), key)] else []
    ensures s.failed <==> cfg.generatePreview && !env.previewExists && !cfg.settings.dryRun && env.preview.GenRaised?
    ensures ErrorTags(s.calls) == if s.failed then {cfg.settings.hashingErrorTag} else {}
    ensures s.failed ==> s.calls == [TagError(scene, cfg.settings.hashingErrorTag, env.preview.message)]
    ensures !s.failed ==> s.calls == []
    ensures About(s.calls, scene) && NoLifecycle(s.calls)
  {
    if !cfg.generatePreview || env.previewExists || cfg.settings.dryRun then Stage([], [], false)
    else
      var gen := [GeneratePreview(video, PreviewFile(cfg.previewPath, key), key)];
      match env.preview
      case Completed => Stage([], gen, false)
      case GenRaised(m) =>
        var c := TagError(scene, cfg.settings.hashingErrorTag, m);
        ErrorTagsOne(c);
        Stage([c], gen, true)
  }

  /** Lines 66-147 once the file is known to exist: the claim, then the stages in order,
      stopping after a failed hash, sprite or preview stage, and the release at the end. */
  function Assemble(scene: string, h: Stage, c: Stage, s: Stage, p: Stage): Run {
    if h.failed then Run([Claim(scene)] + h.calls, h.actions, HashFailed)
    else
      var calls := [Claim(scene)] + h.calls + c.calls + s.calls;
      var actions := h.actions + c.actions + s.actions;
      if s.failed then Run(calls, actions, SpriteFailed)
      else if p.failed then Run(calls + p.calls, actions + p.actions, PreviewFailed)
      else Run(calls + p.calls + [Release(scene)], actions + p.actions, Released)
  }

  /** The whole of `process_scene` for one combination of outcomes. */
  function Pipeline(cfg: Config, scene: Scene, token: string, env: Outcomes): Run
    requires IsToken(token)
  {
    if |scene.files| == 0 || DisplayName(scene.files[0].path).None? then Run([], [], Crashed)
    else
      var file := scene.files[0];
      var video := Translate(file.path, cfg.translations);
      var key := NamingKey(file.fingerprints, token);
      if !env.fileExists then
        Run([TagError(scene.id, cfg.settings.hashingErrorTag, FILE_NOT_FOUND)], [], FileMissing)
      else
        Assemble(scene.id,
          HashStage(cfg, scene.id, file.id, video, env.hash),
          CoverStage(cfg, scene.id, scene.screenshot, video, key, env),
          SpriteStage(cfg, scene.id, video, key, env),
          PreviewStage(cfg, scene.id, video, key, env))
  }

  /** A run that gets past the existence check is its four stages assembled. */
  lemma PipelineStages(cfg: Config, scene: Scene, token: string, env: Outcomes)
    requires IsToken(token) && |scene.files| > 0 && DisplayName(scene.files[0].path).Some? && env.fileExists
    ensures var file := scene.files[0];
      var video := Translate(file.path, cfg.translations);
      var key := NamingKey(file.fingerprints, token);
      Pipeline(cfg, scene, token, env) == Assemble(scene.id,
          HashStage(cfg, scene.id, file.id, video, env.hash),
          CoverStage(cfg, scene.id, scene.screenshot, video, key, env),
          SpriteStage(cfg, scene.id, video, key, env),
          PreviewStage(cfg, scene.id, video, key, env))
  {
  }

  /** A run that stops at its first line or at the existence check runs nothing. */
  lemma PipelineEarly(cfg: Config, scene: Scene, token: string, env: Outcomes)
    requires IsToken(token)
    requires |scene.files| == 0 || DisplayName(scene.files[0].path).None? || !env.fileExists
    ensures Pipeline(cfg, scene, token, env).actions == []
    ensures Pipeline(cfg, scene, token, env).ending.Crashed? || Pipeline(cfg, scene, token, env).ending.FileMissing?
  {
  }

  /** An assembled run's calls address only `scene` when its stages' calls do, and its last
      call is the release or the stopping stage's error tag. */
  lemma AssembleCalls(scene: string, h: Stage, c: Stage, s: Stage, p: Stage)
    requires About(h.calls, scene) && About(c.calls, scene) && About(s.calls, scene) && About(p.calls, scene)
    requires h.failed ==> |h.calls| == 1 && h.calls[0].TagError?
    requires s.failed ==> |s.calls| == 1 && s.calls[0].TagError?
    requires p.failed ==> |p.calls| == 1 && p.calls[0].TagError?
    ensures var r := Assemble(scene, h, c, s, p);
      AllAbout(r.calls, scene) && |r.calls| > 0
      && (r.calls[|r.calls| - 1].Release? || r.calls[|r.calls| - 1].TagError?)
  {
    var r := Assemble(scene, h, c, s, p);
    forall i | 0 <= i < |r.calls| && (r.calls[i].Claim? || r.calls[i].Release? || r.calls[i].TagError?)
      ensures r.calls[i].scene == scene
    {
      assert r.calls[i] in r.calls;
    }
  }

  /** The actions of an assembled run are those of the stages it reached. */
  lemma AssembleActions(scene: string, h: Stage, c: Stage, s: Stage, p: Stage)
    ensures forall a :: a in Assemble(scene, h, c, s, p).actions <==>
      a in h.actions || (!h.failed && (a in c.actions || a in s.actions || (!s.failed && a in p.actions)))
  {
  }

  /** The error tags of an assembled run are those of the stages it reached. */
  lemma AssembleErrorTags(scene: string, h: Stage, c: Stage, s: Stage, p: Stage)
    ensures var r := Assemble(scene, h, c, s, p);
      ErrorTags(r.calls) == if h.failed then ErrorTags(h.calls)
        else ErrorTags(h.calls) + ErrorTags(c.calls) + ErrorTags(s.calls) + (if s.failed then {} else ErrorTags(p.calls))
  {
    var claim := [Claim(scene)];
    ErrorTagsOne(Claim(scene));
    ErrorTagsAppend(claim, h.calls);
    if !h.failed {
      ErrorTagsAppend(claim + h.calls, c.calls);
      ErrorTagsAppend(claim + h.calls + c.calls, s.calls);
      if !s.failed {
        var pre := claim + h.calls + c.calls + s.calls;
        ErrorTagsAppend(pre, p.calls);
        if !p.failed {
          ErrorTagsOne(Release(scene));
          ErrorTagsAppend(pre + p.calls, [Release(scene)]);
        }
      }
    }
  }

  // ---------------------------------------------------------------- what a run does

  /** An independent statement of how `process_scene` ends. It does not mention the
      screenshot or any cover outcome: a cover failure never ends a run. */
  function ExpectedEnding(cfg: Config, scene: Scene, env: Outcomes): Ending {
    if |scene.files| == 0 || !Named(scene.files[0].path) then Crashed
    else if !env.fileExists then FileMissing
    else if !cfg.settings.dryRun && HashFails(env.hash) then HashFailed
    else if cfg.generateSprite && !env.spriteExists && !cfg.settings.dryRun && env.sprite.GenRaised? then SpriteFailed
    else if cfg.generatePreview && !env.previewExists && !cfg.settings.dryRun && env.preview.GenRaised? then PreviewFailed
    else Released
  }

  lemma PipelineEnding(cfg: Config, scene: Scene, token: string, env: Outcomes)
    requires IsToken(token)
    ensures Pipeline(cfg, scene, token, env).ending == ExpectedEnding(cfg, scene, env)
  {
  }

  /** Lines 61-64: a missing file is error-tagged with the hashing error tag (which also
      removes the hashing tag), the scene is never claimed and nothing else happens. */
  lemma FileMissingStops(cfg: Config, scene: Scene, token: string, env: Outcomes)
    requires IsToken(token) && |scene.files| > 0 && DisplayName(scene.files[0].path).Some?
    requires !env.fileExists
    ensures Pipeline(cfg, scene, token, env)
         == Run([TagError(scene.id, cfg.settings.hashingErrorTag, FILE_NOT_FOUND)], [], FileMissing)
  {
  }

  /** Lines 71-78: a failing hash run tags the hashing error after the claim, and neither
      the cover, the sprite, the preview nor the release follows. */
  lemma HashFailureStops(cfg: Config, scene: Scene, token: string, env: Outcomes)
    requires IsToken(token) && |scene.files| > 0 && DisplayName(scene.files[0].path).Some?
    requires env.fileExists && !cfg.settings.dryRun && HashFails(env.hash)
    ensures var video := Translate(scene.files[0].path, cfg.translations);
      Pipeline(cfg, scene, token, env)
        == Run([Claim(scene.id), TagError(scene.id, cfg.settings.hashingErrorTag, HashMessage(env.hash))],
               [RunHasher(HashCommand(cfg.binary, video))], HashFailed)
  {
  }

  /** An assembled run whose stages neither claim nor release claims its scene, and releases
      it, as its last call, exactly when it ends released. */
  lemma AssembleClaims(scene: string, h: Stage, c: Stage, s: Stage, p: Stage)
    requires NoLifecycle(h.calls) && NoLifecycle(c.calls) && NoLifecycle(s.calls) && NoLifecycle(p.calls)
    ensures var r := Assemble(scene, h, c, s, p);
      Claim(scene) in r.calls
      && (Release(scene) in r.calls <==> r.ending == Released)
      && (r.ending == Released ==> r.calls[|r.calls| - 1] == Release(scene))
  {
    var r := Assemble(scene, h, c, s, p);
    assert r.calls[0] == Claim(scene);
    assert Release(scene) !in h.calls + c.calls + s.calls + p.calls;
    if !h.failed {
      assert [Claim(scene)] + h.calls + c.calls + s.calls + p.calls == [Claim(scene)] + (h.calls + c.calls + s.calls + p.calls);
    }
  }

  /** Only a run that gets past the existence check claims the scene (line 66), and a run
      releases it (line 147) exactly when it ended without a terminal failure. */
  lemma ClaimAndRelease(cfg: Config, scene: Scene, token: string, env: Outcomes)
    requires IsToken(token)
    ensures var r := Pipeline(cfg, scene, token, env);
      (Claim(scene.id) in r.calls <==> !r.ending.Crashed? && !r.ending.FileMissing?)
      && (Release(scene.id) in r.calls <==> r.ending == Released)
      && (r.ending == Released ==> r.calls[|r.calls| - 1] == Release(scene.id))
  {
    if |scene.files| > 0 && DisplayName(scene.files[0].path).Some? && env.fileExists {
      var file := scene.files[0];
      var video := Translate(file.path, cfg.translations);
      var key := NamingKey(file.fingerprints, token);
      PipelineStages(cfg, scene, token, env);
      AssembleClaims(scene.id,
        HashStage(cfg, scene.id, file.id, video, env.hash),
        CoverStage(cfg, scene.id, scene.screenshot, video, key, env),
        SpriteStage(cfg, scene.id, video, key, env),
        PreviewStage(cfg, scene.id, video, key, env));
    }
  }

  /** Whatever happens to the cover, the run ends the same way: lines 80-112 end in no
      return and no exception escapes them. */
  lemma CoverNeverEndsRun(cfg: Config, scene: Scene, token: string, env: Outcomes, shot: Option<string>, other: Outcomes)
    requires IsToken(token)
    requires other == env.(fetch := other.fetch, firstCover := other.firstCover, secondCover := other.secondCover,
                           encoded := other.encoded, accepted := other.accepted)
    ensures Pipeline(cfg, scene.(screenshot := shot), token, other).ending == Pipeline(cfg, scene, token, env).ending
  {
    PipelineEnding(cfg, scene, token, env);
    PipelineEnding(cfg, scene.(screenshot := shot), token, other);
  }

  /** Outside dry run, a run that gets past its first line leaves the scene with its old
      tags plus the error tags it attached, and without the hashing tag. */
  lemma PipelineFinalTags(cfg: Config, scene: Scene, token: string, env: Outcomes, w: World)
    requires IsToken(token) && !cfg.settings.dryRun
    requires !Pipeline(cfg, scene, token, env).ending.Crashed?
    ensures var r := Pipeline(cfg, scene, token, env);
      TagsOf(PerformAll(cfg.settings, w, r.calls).library, scene.id)
        == (TagsOf(w.library, scene.id) + ExpectedErrorTags(cfg, scene, env, r.ending)) - {cfg.settings.hashingTag}
  {
    var r := Pipeline(cfg, scene, token, env);
    PipelineErrorTags(cfg, scene, token, env);
    PipelineCalls(cfg, scene, token, env);
    FinalTags(cfg.settings, w, r.calls, scene.id);
  }

  /** The error tags a run attaches: the hashing error tag after a terminal failure, the
      cover error tag after a failed cover step. */
  function ExpectedErrorTags(cfg: Config, scene: Scene, env: Outcomes, e: Ending): set<nat> {
    (if Terminal(e) then {cfg.settings.hashingErrorTag} else {})
      + (if CoverReached(e) && CoverFails(cfg, scene.screenshot, env) then {cfg.settings.coverErrorTag} else {})
  }

  lemma PipelineErrorTags(cfg: Config, scene: Scene, token: string, env: Outcomes)
    requires IsToken(token)
    requires !Pipeline(cfg, scene, token, env).ending.Crashed?
    ensures var r := Pipeline(cfg, scene, token, env);
      ErrorTags(r.calls) == ExpectedErrorTags(cfg, scene, env, r.ending)
  {
    var file := scene.files[0];
    if !env.fileExists {
      ErrorTagsOne(TagError(scene.id, cfg.settings.hashingErrorTag, FILE_NOT_FOUND));
    } else {
      var video := Translate(file.path, cfg.translations);
      var key := NamingKey(file.fingerprints, token);
      var h := HashStage(cfg, scene.id, file.id, video, env.hash);
      var c := CoverStage(cfg, scene.id, scene.screenshot, video, key, env);
      var s := SpriteStage(cfg, scene.id, video, key, env);
      var p := PreviewStage(cfg, scene.id, video, key, env);
      AssembledErrorTags(scene.id, h, c, s, p, cfg.settings.hashingErrorTag, ErrorTags(c.calls));
      PipelineStages(cfg, scene, token, env);
    }
  }

  /** The error tags of an assembled run whose failing stages each tag `failure`: `failure`
      exactly when the run ended in a stage failure, and the cover stage's tags when the
      run got past the hash. */
  lemma AssembledErrorTags(scene: string, h: Stage, c: Stage, s: Stage, p: Stage, failure: nat, cover: set<nat>)
    requires ErrorTags(h.calls) == if h.failed then {failure} else {}
    requires ErrorTags(c.calls) == cover
    requires ErrorTags(s.calls) == if s.failed then {failure} else {}
    requires ErrorTags(p.calls) == if p.failed then {failure} else {}
    ensures var r := Assemble(scene, h, c, s, p);
      ErrorTags(r.calls) == (if Terminal(r.ending) then {failure} else {}) + (if CoverReached(r.ending) then cover else {})
  {
    AssembleErrorTags(scene, h, c, s, p);
  }

  /** Every call of a run addresses its scene, and the last is the release or an error tag. */
  lemma PipelineCalls(cfg: Config, scene: Scene, token: string, env: Outcomes)
    requires IsToken(token)
    requires !Pipeline(cfg, scene, token, env).ending.Crashed?
    ensures var r := Pipeline(cfg, scene, token, env);
      AllAbout(r.calls, scene.id) && |r.calls| > 0
      && (r.calls[|r.calls| - 1].Release? || r.calls[|r.calls| - 1].TagError?)
  {
    var file := scene.files[0];
    var video := Translate(file.path, cfg.translations);
    var key := NamingKey(file.fingerprints, token);
    if env.fileExists {
      var h := HashStage(cfg, scene.id, file.id, video, env.hash);
      var c := CoverStage(cfg, scene.id, scene.screenshot, video, key, env);
      var s := SpriteStage(cfg, scene.id, video, key, env);
      var p := PreviewStage(cfg, scene.id, video, key, env);
      PipelineStages(cfg, scene, token, env);
      AssembleCalls(scene.id, h, c, s, p);
    }
  }

  /** An action no earlier stage performs is in an assembled run exactly when the run got
      past the hash stage and the sprite stage performs it, or the run got past the sprite
      stage too and the preview stage performs it. */
  lemma AssembleReaches(scene: string, h: Stage, c: Stage, s: Stage, p: Stage, a: Action)
    requires a !in h.actions && a !in c.actions
    ensures var r := Assemble(scene, h, c, s, p);
      (a in r.actions <==> !h.failed && (a in s.actions || (!s.failed && a in p.actions)))
      && (CoverReached(r.ending) <==> !h.failed)
      && (r.ending.PreviewFailed? || r.ending.Released? <==> !h.failed && !s.failed)
  {
    AssembleActions(scene, h, c, s, p);
  }

  /** The sprite gating for a run assembled from its four stages. */
  lemma StagesSpriteGating(cfg: Config, scene: string, file: string, screenshot: Option<string>,
                           video: string, key: string, env: Outcomes)
    ensures var r := Assemble(scene,
          HashStage(cfg, scene, file, video, env.hash),
          CoverStage(cfg, scene, screenshot, video, key, env),
          SpriteStage(cfg, scene, video, key, env),
          PreviewStage(cfg, scene, video, key, env));
      var sprite := GenerateSprite(video, SpriteFile(cfg.spritePath, key), VttFile(cfg.spritePath, key), key);
      (sprite in r.actions <==> CoverReached(r.ending) && cfg.generateSprite && !env.spriteExists && !cfg.settings.dryRun)
      && (forall a :: a in r.actions && a.GenerateSprite? ==> a == sprite)
  {
    var h := HashStage(cfg, scene, file, video, env.hash);
    var c := CoverStage(cfg, scene, screenshot, video, key, env);
    var s := SpriteStage(cfg, scene, video, key, env);
    var p := PreviewStage(cfg, scene, video, key, env);
    var sprite := GenerateSprite(video, SpriteFile(cfg.spritePath, key), VttFile(cfg.spritePath, key), key);
    assert sprite !in h.actions && sprite !in c.actions && sprite !in p.actions;
    AssembleReaches(scene, h, c, s, p, sprite);
    AssembleActions(scene, h, c, s, p);
  }

  /** Lines 114-127: the sprite (with its cue sheet) is generated exactly when the run gets
      past the cover step, sprites are enabled, the run is not a dry run and the sprite file
      is absent, and it is named after the key. */
  lemma SpriteGating(cfg: Config, scene: Scene, token: string, env: Outcomes)
    requires IsToken(token) && |scene.files| > 0
    ensures var r := Pipeline(cfg, scene, token, env);
      var video := Translate(scene.files[0].path, cfg.translations);
      var key := NamingKey(scene.files[0].fingerprints, token);
      var sprite := GenerateSprite(video, SpriteFile(cfg.spritePath, key), VttFile(cfg.spritePath, key), key);
      (sprite in r.actions <==> CoverReached(r.ending) && cfg.generateSprite && !env.spriteExists && !cfg.settings.dryRun)
      && (forall a :: a in r.actions && a.GenerateSprite? ==> a == sprite)
  {
    var file := scene.files[0];
    if DisplayName(file.path).Some? && env.fileExists {
      var video := Translate(file.path, cfg.translations);
      var key := NamingKey(file.fingerprints, token);
      PipelineStages(cfg, scene, token, env);
      StagesSpriteGating(cfg, scene.id, file.id, scene.screenshot, video, key, env);
    } else {
      PipelineEarly(cfg, scene, token, env);
    }
  }

  /** The preview gating for a run assembled from its four stages. */
  lemma StagesPreviewGating(cfg: Config, scene: string, file: string, screenshot: Option<string>,
                            video: string, key: string, env: Outcomes)
    ensures var r := Assemble(scene,
          HashStage(cfg, scene, file, video, env.hash),
          CoverStage(cfg, scene, screenshot, video, key, env),
          SpriteStage(cfg, scene, video, key, env),
          PreviewStage(cfg, scene, video, key, env));
      var preview := GeneratePreview(video, PreviewFile(cfg.previewPath, key), key);
      (preview in r.actions <==>
         (r.ending.PreviewFailed? || r.ending.Released?) && cfg.generatePreview && !env.previewExists && !cfg.settings.dryRun)
      && (forall a :: a in r.actions && a.GeneratePreview? ==> a == preview)
  {
    var h := HashStage(cfg, scene, file, video, env.hash);
    var c := CoverStage(cfg, scene, screenshot, video, key, env);
    var s := SpriteStage(cfg, scene, video, key, env);
    var p := PreviewStage(cfg, scene, video, key, env);
    var preview := GeneratePreview(video, PreviewFile(cfg.previewPath, key), key);
    assert preview !in h.actions && preview !in c.actions && preview !in s.actions;
    AssembleReaches(scene, h, c, s, p, preview);
    AssembleActions(scene, h, c, s, p);
  }

  /** Lines 129-145: the preview is generated exactly when the run gets past the sprite step
      without a sprite failure, previews are enabled, the run is not a dry run and the
      preview file is absent, and it is named after the key. */
  lemma PreviewGating(cfg: Config, scene: Scene, token: string, env: Outcomes)
    requires IsToken(token) && |scene.files| > 0
    ensures var r := Pipeline(cfg, scene, token, env);
      var video := Translate(scene.files[0].path, cfg.translations);
      var key := NamingKey(scene.files[0].fingerprints, token);
      var preview := GeneratePreview(video, PreviewFile(cfg.previewPath, key), key);
      (preview in r.actions <==>
         (r.ending.PreviewFailed? || r.ending.Released?) && cfg.generatePreview && !env.previewExists && !cfg.settings.dryRun)
      && (forall a :: a in r.actions && a.GeneratePreview? ==> a == preview)
  {
    var file := scene.files[0];
    if DisplayName(file.path).Some? && env.fileExists {
      var video := Translate(file.path, cfg.translations);
      var key := NamingKey(file.fingerprints, token);
      PipelineStages(cfg, scene, token, env);
      StagesPreviewGating(cfg, scene.id, file.id, scene.screenshot, video, key, env);
    } else {
      PipelineEarly(cfg, scene, token, env);
    }
  }

  /** Under dry run nothing changes remotely or in the error log, no tool runs, and the only
      local effect is the cover scratch directory, which is left behind. */
  lemma DryRunTouchesNothing(cfg: Config, scene: Scene, token: string, env: Outcomes, w: World)
    requires IsToken(token) && cfg.settings.dryRun
    ensures var r := Pipeline(cfg, scene, token, env);
      PerformAll(cfg.settings, w, r.calls) == w
      && (forall a :: a in r.actions ==> a.MakeDir?)
      && (r.ending.Crashed? || r.ending.FileMissing? || r.ending.Released?)
  {
    DryRunChangesNothing(cfg.settings, w, Pipeline(cfg, scene, token, env).calls);
  }

  // ---------------------------------------------------------------- the run, performed

  function WorldOf(stash: StashService, log: ErrorLog): World
    reads stash, log
  {
    World(stash.State(), log.text)
  }

  /** Lines 68-78 on the service. */
  method HashStep(cfg: Config, stash: StashService, log: ErrorLog, scene: string, file: string, video: string, out: HashOutput)
    returns (actions: seq<Action>, failed: bool)
    modifies stash, log
    ensures var s := HashStage(cfg, scene, file, video, out);
      actions == s.actions && failed == s.failed
      && WorldOf(stash, log) == PerformAll(cfg.settings, old(WorldOf(stash, log)), s.calls)
  {
    ghost var w0 := WorldOf(stash, log);
    if cfg.settings.dryRun {
      return [], false;
    }
    actions := [RunHasher(HashCommand(cfg.binary, video))];
    failed := false;
    match out
    case HashRaised(msg) =>
      TagSceneError(cfg.settings, stash, log, scene, cfg.settings.hashingErrorTag, msg);
      PerformAllOne(cfg.settings, w0, TagError(scene, cfg.settings.hashingErrorTag, msg));
      failed := true;
    case HashParsed(fields) =>
      if "phash" in fields {
        UpdatePhashOf(cfg.settings, stash, file, fields["phash"]);
        PerformAllOne(cfg.settings, w0, UpdatePhash(file, fields["phash"]));
      } else {
        TagSceneError(cfg.settings, stash, log, scene, cfg.settings.hashingErrorTag, MISSING_PHASH);
        PerformAllOne(cfg.settings, w0, TagError(scene, cfg.settings.hashingErrorTag, MISSING_PHASH));
        failed := true;
      }
    case StoreRaised(msg) =>
      TagSceneError(cfg.settings, stash, log, scene, cfg.settings.hashingErrorTag, msg);
      PerformAllOne(cfg.settings, w0, TagError(scene, cfg.settings.hashingErrorTag, msg));
      failed := true;
  }

  /** Line 98: the value after "-ss" in the command array becomes the retry time. */
  method MoveGrab(cmd: array<string>)
    requires "-ss" in cmd[..] && IndexOf(cmd[..], "-ss") + 1 < cmd.Length
    modifies cmd
    ensures cmd[..] == RetryCommand(old(cmd[..]))
  {
    var k := IndexOf(cmd[..], "-ss");
    cmd[k + 1] := RETRY_COVER_TIME;
  }

  /** Lines 95-104 up to the outcome: the ffmpeg command is an array whose grab time is
      overwritten in place before the retry; the result is the tools run and the one
      service call the outcome then asks for. */
  method GrabCover(cfg: Config, scene: string, video: string, key: string, env: Outcomes)
    returns (actions: seq<Action>, call: Call)
    ensures var x := CoverExtraction(cfg, scene, video, key, env);
      actions == x.actions && x.calls == [call]
  {
    var image := CoverImage(key);
    var first := CoverCommand(cfg.ffmpeg, video, FIRST_COVER_TIME, image);
    var cmd := new string[|first|](i requires 0 <= i < |first| => first[i]);
    assert cmd[..] == first;
    actions := [RunCoverTool(cmd[..])];
    var tag := cfg.settings.coverErrorTag;
    var produced := false;
    match env.firstCover
    case RunRaised(m) =>
      return actions, TagError(scene, tag, m);
    case RunFinished(p) =>
      produced := p;
    if !produced {
      MoveGrab(cmd);
      actions := actions + [RunCoverTool(cmd[..])];
      match env.secondCover
      case RunRaised(m) =>
        return actions, TagError(scene, tag, m);
      case RunFinished(q) =>
        produced := q;
    }
    if !produced {
      return actions, TagError(scene, tag, "Cover image not created: " + image);
    }
    call := UpdateCover(scene, COVER_PREFIX + env.encoded, env.accepted);
  }

  /** Lines 95-104 on the service: the grabs, then the upload or the cover error tag. */
  method ExtractCover(cfg: Config, stash: StashService, log: ErrorLog, scene: string, video: string, key: string, env: Outcomes)
    returns (actions: seq<Action>)
    requires !cfg.settings.dryRun
    modifies stash, log
    ensures var x := CoverExtraction(cfg, scene, video, key, env);
      actions == x.actions && WorldOf(stash, log) == PerformAll(cfg.settings, old(WorldOf(stash, log)), x.calls)
  {
    ghost var w0 := WorldOf(stash, log);
    var call;
    actions, call := GrabCover(cfg, scene, video, key, env);
    PerformAllOne(cfg.settings, w0, call);
    match call
    case TagError(_, tag, msg) =>
      TagSceneError(cfg.settings, stash, log, scene, tag, msg);
    case UpdateCover(_, image, accepted) =>
      var _ := UpdateCoverOf(cfg.settings, stash, scene, image, accepted);
    case _ =>
      assert false;
  }

  /** Lines 80-112 on the service and the working directory. */
  method CoverStep(cfg: Config, stash: StashService, log: ErrorLog, scene: string, screenshot: Option<string>,
                   video: string, key: string, env: Outcomes)
    returns (actions: seq<Action>)
    modifies stash, log
    ensures var c := CoverStage(cfg, scene, screenshot, video, key, env);
      actions == c.actions && WorldOf(stash, log) == PerformAll(cfg.settings, old(WorldOf(stash, log)), c.calls)
  {
    ghost var w0 := WorldOf(stash, log);
    actions := [];
    if screenshot.None? || screenshot.value == "" {
      return;
    }
    match env.fetch
    case FetchRaised(m) =>
      TagSceneError(cfg.settings, stash, log, scene, cfg.settings.coverErrorTag, m);
      PerformAllOne(cfg.settings, w0, TagError(scene, cfg.settings.coverErrorTag, m));
    case Fetched(body) =>
      if Contains(Lower(body), "<svg") {
        var tempDir := CoverDir(key);
        actions := [MakeDir(tempDir)];
        if !cfg.settings.dryRun {
          var grabs := ExtractCover(cfg, stash, log, scene, video, key, env);
          actions := actions + grabs + [RemoveDir(tempDir)];
        }
      }
  }

  /** Lines 114-127 on the service. */
  method SpriteStep(cfg: Config, stash: StashService, log: ErrorLog, scene: string, video: string, key: string, env: Outcomes)
    returns (actions: seq<Action>, failed: bool)
    modifies stash, log
    ensures var s := SpriteStage(cfg, scene, video, key, env);
      actions == s.actions && failed == s.failed
      && WorldOf(stash, log) == PerformAll(cfg.settings, old(WorldOf(stash, log)), s.calls)
  {
    ghost var w0 := WorldOf(stash, log);
    actions, failed := [], false;
    if cfg.generateSprite {
      var spriteFile := SpriteFile(cfg.spritePath, key);
      var vttFile := VttFile(cfg.spritePath, key);
      if !env.spriteExists && !cfg.settings.dryRun {
        actions := [GenerateSprite(video, spriteFile, vttFile, key)];
        match env.sprite
        case Completed =>
        case GenRaised(m) =>
          TagSceneError(cfg.settings, stash, log, scene, cfg.settings.hashingErrorTag, m);
          PerformAllOne(cfg.settings, w0, TagError(scene, cfg.settings.hashingErrorTag, m));
          failed := true;
      }
    }
  }

  /** Lines 129-145 on the service. */
  method PreviewStep(cfg: Config, stash: StashService, log: ErrorLog, scene: string, video: string, key: string, env: Outcomes)
    returns (actions: seq<Action>, failed: bool)
    modifies stash, log
    ensures var p := PreviewStage(cfg, scene, video, key, env);
      actions == p.actions && failed == p.failed
      && WorldOf(stash, log) == PerformAll(cfg.settings, old(WorldOf(stash, log)), p.calls)
  {
    ghost var w0 := WorldOf(stash, log);
    actions, failed := [], false;
    if cfg.generatePreview {
      var previewFile := PreviewFile(cfg.previewPath, key);
      if !env.previewExists && !cfg.settings.dryRun {
        actions := [GeneratePreview(video, previewFile, key)];
        match env.preview
        case Completed =>
        case GenRaised(m) =>
          TagSceneError(cfg.settings, stash, log, scene, cfg.settings.hashingErrorTag, m);
          PerformAllOne(cfg.settings, w0, TagError(scene, cfg.settings.hashingErrorTag, m));
          failed := true;
      }
    }
  }

  /** What an assembled run does after a hash stage that did not fail. */
  function AfterHash(scene: string, c: Stage, s: Stage, p: Stage): Run {
    var calls := c.calls + s.calls;
    var actions := c.actions + s.actions;
    if s.failed then Run(calls, actions, SpriteFailed)
    else if p.failed then Run(calls + p.calls, actions + p.actions, PreviewFailed)
    else Run(calls + p.calls + [Release(scene)], actions + p.actions, Released)
  }

  /** A run whose hash stage succeeded is the claim and the hash stage followed by the rest. */
  lemma AssembleAfterHash(scene: string, h: Stage, c: Stage, s: Stage, p: Stage)
    requires !h.failed
    ensures var r := Assemble(scene, h, c, s, p);
      var t := AfterHash(scene, c, s, p);
      r.calls == [Claim(scene)] + h.calls + t.calls && r.actions == h.actions + t.actions && r.ending == t.ending
  {
    var pre := [Claim(scene)] + h.calls;
    assert pre + c.calls + s.calls == pre + (c.calls + s.calls);
    assert pre + c.calls + s.calls + p.calls == pre + (c.calls + s.calls + p.calls);
    assert pre + c.calls + s.calls + p.calls + [Release(scene)] == pre + (c.calls + s.calls + p.calls + [Release(scene)]);
    assert h.actions + c.actions + s.actions == h.actions + (c.actions + s.actions);
    assert h.actions + c.actions + s.actions + p.actions == h.actions + (c.actions + s.actions + p.actions);
  }

  /** Lines 80-147: the cover, sprite and preview steps, then the release. */
  method LaterStages(cfg: Config, scene: string, screenshot: Option<string>, video: string, key: string,
                     env: Outcomes, stash: StashService, log: ErrorLog, ghost c: Stage, ghost s: Stage, ghost p: Stage)
    returns (ending: Ending, actions: seq<Action>)
    requires c == CoverStage(cfg, scene, screenshot, video, key, env)
    requires s == SpriteStage(cfg, scene, video, key, env)
    requires p == PreviewStage(cfg, scene, video, key, env)
    modifies stash, log
    ensures var t := AfterHash(scene, c, s, p);
      ending == t.ending && actions == t.actions
      && WorldOf(stash, log) == PerformAll(cfg.settings, old(WorldOf(stash, log)), t.calls)
  {
    ghost var w0 := WorldOf(stash, log);

    actions := CoverStep(cfg, stash, log, scene, screenshot, video, key, env);
    ghost var calls := c.calls;

    var spriteActions, spriteFailed := SpriteStep(cfg, stash, log, scene, video, key, env);
    PerformAllAppend(cfg.settings, w0, calls, s.calls);
    calls := calls + s.calls;
    actions := actions + spriteActions;
    if spriteFailed {
      return SpriteFailed, actions;
    }

    var previewActions, previewFailed := PreviewStep(cfg, stash, log, scene, video, key, env);
    PerformAllAppend(cfg.settings, w0, calls, p.calls);
    calls := calls + p.calls;
    actions := actions + previewActions;
    if previewFailed {
      return PreviewFailed, actions;
    }

    ghost var w1 := WorldOf(stash, log);
    ReleaseScene(cfg.settings, stash, scene);
    PerformQuiet(cfg.settings, w1, Release(scene));
    PerformAllSnoc(cfg.settings, w0, calls, Release(scene));
    return Released, actions;
  }

  /** Lines 66-147 once the file is known to exist: claim, the four steps, release. */
  method RunStages(cfg: Config, scene: string, file: string, screenshot: Option<string>, video: string, key: string,
                   env: Outcomes, stash: StashService, log: ErrorLog, ghost h: Stage, ghost c: Stage, ghost s: Stage, ghost p: Stage)
    returns (ending: Ending, actions: seq<Action>)
    requires h == HashStage(cfg, scene, file, video, env.hash)
    requires c == CoverStage(cfg, scene, screenshot, video, key, env)
    requires s == SpriteStage(cfg, scene, video, key, env)
    requires p == PreviewStage(cfg, scene, video, key, env)
    modifies stash, log
    ensures var r := Assemble(scene, h, c, s, p);
      ending == r.ending && actions == r.actions
      && WorldOf(stash, log) == PerformAll(cfg.settings, old(WorldOf(stash, log)), r.calls)
  {
    ghost var w0 := WorldOf(stash, log);

    ClaimScene(cfg.settings, stash, scene);
    PerformQuiet(cfg.settings, w0, Claim(scene));
    PerformAllOne(cfg.settings, w0, Claim(scene));
    ghost var calls := [Claim(scene)];

    var hashActions, hashFailed := HashStep(cfg, stash, log, scene, file, video, env.hash);
    PerformAllAppend(cfg.settings, w0, calls, h.calls);
    calls := calls + h.calls;
    if hashFailed {
      return HashFailed, hashActions;
    }

    var laterActions;
    ending, laterActions := LaterStages(cfg, scene, screenshot, video, key, env, stash, log, c, s, p);
    PerformAllAppend(cfg.settings, w0, calls, AfterHash(scene, c, s, p).calls);
    AssembleAfterHash(scene, h, c, s, p);
    actions := hashActions + laterActions;
  }

  /** `process_scene`: performs on the service and the error log exactly the calls `Pipeline`
      lists, runs exactly its actions, and ends as it says. */
  method ProcessScene(cfg: Config, scene: Scene, token: string, env: Outcomes, stash: StashService, log: ErrorLog)
    returns (ending: Ending, actions: seq<Action>)
    requires IsToken(token)
    modifies stash, log
    ensures var r := Pipeline(cfg, scene, token, env);
      ending == r.ending && actions == r.actions
      && WorldOf(stash, log) == PerformAll(cfg.settings, old(WorldOf(stash, log)), r.calls)
  {
    ghost var w0 := WorldOf(stash, log);
    if |scene.files| == 0 {
      return Crashed, [];
    }
    var file := scene.files[0];
    var pretty := DisplayName(file.path);
    if pretty.None? {
      return Crashed, [];
    }
    var filename := TranslatePath(file.path, cfg.translations);
    var filehash := SelectOshash(file.fingerprints);
    if filehash == "" || ':' in filehash || '\\' in filehash || '/' in filehash {
      filehash := token;
    }
    assert filehash == NamingKey(file.fingerprints, token);
    if !env.fileExists {
      TagSceneError(cfg.settings, stash, log, scene.id, cfg.settings.hashingErrorTag, FILE_NOT_FOUND);
      PerformAllOne(cfg.settings, w0, TagError(scene.id, cfg.settings.hashingErrorTag, FILE_NOT_FOUND));
      return FileMissing, [];
    }
    PipelineStages(cfg, scene, token, env);
    ending, actions := RunStages(cfg, scene.id, file.id, scene.screenshot, filename, filehash, env, stash, log,
      HashStage(cfg, scene.id, file.id, filename, env.hash),
      CoverStage(cfg, scene.id, scene.screenshot, filename, filehash, env),
      SpriteStage(cfg, scene.id, filename, filehash, env),
      PreviewStage(cfg, scene.id, filename, filehash, env));
  }
}
