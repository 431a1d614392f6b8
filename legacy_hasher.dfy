/** `phash_videohasher.py`: the earlier single-process hasher. One pass picks a page of
    scenes without a perceptual hash, claims them all with the hashing tag, and then for
    each scene runs the hash tool, stores the hash, replaces a placeholder cover, builds the
    sprite and the preview when they are missing, and removes the hashing tag again. It
    talks to the service directly, so its effects are the service's own mutation requests.

    What the tools, the screenshot URL and the generators do is an input per scene. */
module LegacyHasher {
  import opened Wrappers
  import opened Strings
  import opened StashApi
  import opened StashUtils
  import opened SceneProcessor

  // ---------------------------------------------------------------- configuration (lines 47-86)

  function LegacyTranslations(): seq<Translation> {
    [Translation("/data/", "/Volumes/data/"), Translation("/media/", "/Volumes/media/")]
  }

  /** `windows` is False in this file, so the hash tool is the macOS build. */
  const BINARY := "./videohashes-darwin-amd64"
  const SPRITE_PATH := "/opt/stash/generated/vtt"
  const PREVIEW_PATH := "/opt/stash/generated/screenshots"

  // ---------------------------------------------------------------- the page (lines 92-109)

  /** The second query: every eligible scene, or one page of 25. */
  datatype Query = Everything | PageOf(page: nat)

  /** What `random.randrange(1, int(count / 25))` can return. */
  predicate IsPagePick(count: nat, pick: nat) {
    1 <= pick < count / 25
  }

  /** Lines 93-109: no query when nothing is eligible (the program exits), one random page
      of 25 when more than 50 scenes are eligible, and all of them otherwise. */
  function PageChoice(count: nat, pick: nat): Option<Query>
    requires count > 50 ==> IsPagePick(count, pick)
  {
    if count == 0 then None
    else if count > 50 then Some(PageOf(pick))
    else Some(Everything)
  }

  /** Above 50 scenes the range handed to `randrange` is never empty, and the page drawn
      from it lies in it; at 1 to 50 scenes everything is fetched; at 0 nothing is. */
  lemma PageChoiceCases(count: nat, pick: nat)
    requires count > 50 ==> IsPagePick(count, pick)
    ensures count > 50 ==> count / 25 >= 2 && PageChoice(count, pick) == Some(PageOf(pick)) && pick >= 1
    ensures 0 < count <= 50 ==> PageChoice(count, pick) == Some(Everything)
    ensures PageChoice(count, pick).None? <==> count == 0
  {
  }

  // ---------------------------------------------------------------- one scene

  /** How the hash tool run ends: an exception nothing catches (a non-zero exit, since
      `check=True`, or output that is not UTF-8, whose UnicodeDecodeError the `except
      JSONDecodeError` lets through), output that is not JSON, or the parsed JSON object
      with its string entries. */
  datatype HashRun = ExitFailed | NotJson | Parsed(fields: map<string, string>)

  /** What one scene's run meets outside. */
  datatype Encounters = Encounters(
    hash: HashRun,
    fetch: Fetch,
    coverProduced: bool,
    encoded: string,
    accepted: bool,
    updateRaised: bool,
    spriteExists: bool,
    sprite: GenOutcome,
    previewExists: bool,
    preview: GenOutcome)

  /** A local effect of the run. */
  datatype Effect =
    | CallHashTool(args: seq<string>)
      /** the `os.system` ffmpeg run grabbing a frame of `video` into `image` */
    | GrabFrame(video: string, image: string)
    | RemoveImage(image: string)
    | MakeSprite(video: string, sprite: string, vtt: string)
    | MakePreview(video: string, output: string)

  /** How a scene's run ends: an uncaught exception (which ends the whole pass), the
      `continue` after output that is not JSON, or the release at line 228. */
  datatype End = Crash | NotHashed | Finished

  /** A stretch of the run: its requests, its effects, and how it ended the run if it did. */
  datatype Part = Part(requests: seq<Mutation>, effects: seq<Effect>, end: Option<End>)

  /** Running `a` and then, unless `a` ended the run, `b`. */
  function Then(a: Part, b: Part): Part {
    if a.end.Some? then a else Part(a.requests + b.requests, a.effects + b.effects, b.end)
  }

  /** Lines 135-147. */
  function HashPart(scene: string, file: string, video: string, h: HashRun): Part {
    var run := [CallHashTool([BINARY, "-json", video])];
    match h
    case ExitFailed => Part([], run, Some(Crash))
    case NotJson => Part([AddTag(scene, HASHING_ERROR_TAG), RemoveTag(scene, HASHING_TAG)], run, Some(NotHashed))
    case Parsed(fields) =>
      if "phash" in fields && fields["phash"] != "" then
        Part([SetFingerprints(file, [Fingerprint("phash", fields["phash"])])], run, None)
      else Part([], run, None)
  }

  /** The cover `try` fails: the frame grab did not produce the image, so `open` raises,
      or it did and the `update_scene` request raised. */
  predicate CoverFailsFor(screenshot: Option<string>, env: Encounters) {
    screenshot.Some? && screenshot.value != "" && env.fetch.Fetched?
      && IsPlaceholder(env.fetch.body) && (!env.coverProduced || env.updateRaised)
  }

  /** Lines 158-190: only a placeholder screenshot is replaced, by a frame grabbed into
      `<token>.jpg`; a frame that was not produced, or an upload request that raised, tags
      a cover error and drops the hashing tag, and the image file is removed when it
      exists. A failing request for the screenshot itself is not caught. */
  function CoverPart(scene: string, screenshot: Option<string>, video: string, image: string, env: Encounters): Part {
    if screenshot.None? || screenshot.value == "" then Part([], [], None)
    else
      match env.fetch
      case FetchRaised(_) => Part([], [], Some(Crash))
      case Fetched(body) =>
        if !IsPlaceholder(body) then Part([], [], None)
        else if env.coverProduced && !env.updateRaised then
          Part([SetCover(scene, COVER_PREFIX + env.encoded, env.accepted)], [GrabFrame(video, image), RemoveImage(image)], None)
        else
          Part([AddTag(scene, COVER_ERROR_TAG), RemoveTag(scene, HASHING_TAG)], GrabEffects(video, image, env), None)
  }

  /** The frame grab, and the removal of the image when the grab produced it. */
  function GrabEffects(video: string, image: string, env: Encounters): seq<Effect> {
    if env.coverProduced then [GrabFrame(video, image), RemoveImage(image)] else [GrabFrame(video, image)]
  }

  function LegacySpriteFile(key: string): string { SPRITE_PATH + "/" + key + "_sprite.jpg" }
  function LegacyVttFile(key: string): string { SPRITE_PATH + "/" + key + "_thumbs.vtt" }
  function LegacyPreviewFile(key: string): string { PREVIEW_PATH + "/" + key + ".mp4" }

  /** `f'"{filename}"'`: the path handed to the generators, in double quotes. */
  function Quoted(video: string): string { "\"" + video + "\"" }

  /** Lines 196-210: the sprite is built only when its file is absent. */
  function SpritePart(video: string, key: string, env: Encounters): Part {
    if env.spriteExists then Part([], [], None)
    else
      var gen := [MakeSprite(Quoted(video), LegacySpriteFile(key), LegacyVttFile(key))];
      Part([], gen, if env.sprite.GenRaised? then Some(Crash) else None)
  }

  /** Lines 212-225: the preview is built only when its file is absent. */
  function PreviewPart(video: string, key: string, env: Encounters): Part {
    if env.previewExists then Part([], [], None)
    else
      var gen := [MakePreview(Quoted(video), LegacyPreviewFile(key))];
      Part([], gen, if env.preview.GenRaised? then Some(Crash) else None)
  }

  /** Line 228. */
  function ReleasePart(scene: string): Part {
    Part([RemoveTag(scene, HASHING_TAG)], [], Some(Finished))
  }

  /** Lines 196-228: the generators and the release. */
  function Artifacts(scene: string, video: string, key: string, env: Encounters): Part {
    Then(SpritePart(video, key, env), Then(PreviewPart(video, key, env), ReleasePart(scene)))
  }

  /** Lines 149-228: everything after the hash is stored. */
  function AfterHash(scene: string, screenshot: Option<string>, video: string, key: string, image: string, env: Encounters): Part {
    Then(CoverPart(scene, screenshot, video, image, env), Artifacts(scene, video, key, env))
  }

  /** The path the hash tool and the generators are given: the first file's, translated. */
  function VideoOf(scene: Scene): string
    requires |scene.files| > 0
  {
    Translate(scene.files[0].path, LegacyTranslations())
  }

  /** The name the artifacts are stored under: the first file's last oshash. */
  function KeyOf(scene: Scene): string
    requires |scene.files| > 0
  {
    LastOshash(scene.files[0].fingerprints)
  }

  /** Lines 123-127 have no fallback: a file without an oshash fingerprint gets the empty key,
      so every such scene's sprite, cue sheet and preview share one name. */
  lemma HashlessScenesShareArtifacts(scene: Scene)
    requires |scene.files| > 0
    requires forall i :: 0 <= i < |scene.files[0].fingerprints| ==> !IsOshash(scene.files[0].fingerprints[i])
    ensures KeyOf(scene) == ""
    ensures LegacySpriteFile(KeyOf(scene)) == SPRITE_PATH + "/_sprite.jpg"
    ensures LegacyVttFile(KeyOf(scene)) == SPRITE_PATH + "/_thumbs.vtt"
    ensures LegacyPreviewFile(KeyOf(scene)) == PREVIEW_PATH + "/.mp4"
  {
  }

  /** Lines 116-230 for one scene; `image` is the random name of the cover grab. A scene
      without files, or whose path the name pattern does not match, fails before anything is sent. */
  function SceneWork(scene: Scene, image: string, env: Encounters): Part {
    if |scene.files| == 0 || DisplayName(scene.files[0].path).None? then Part([], [], Some(Crash))
    else
      Then(HashPart(scene.id, scene.files[0].id, VideoOf(scene), env.hash),
        AfterHash(scene.id, scene.screenshot, VideoOf(scene), KeyOf(scene), image, env))
  }

  /** An independent statement of how a scene's run ends. */
  function ExpectedEnd(scene: Scene, env: Encounters): End {
    if |scene.files| == 0 || !Named(scene.files[0].path) then Crash
    else if env.hash.ExitFailed? then Crash
    else if env.hash.NotJson? then NotHashed
    else if scene.screenshot.Some? && scene.screenshot.value != "" && env.fetch.FetchRaised? then Crash
    else if !env.spriteExists && env.sprite.GenRaised? then Crash
    else if !env.previewExists && env.preview.GenRaised? then Crash
    else Finished
  }

  /** How the stages after the hash end. */
  lemma AfterHashEnd(scene: string, screenshot: Option<string>, video: string, key: string, image: string, env: Encounters)
    ensures AfterHash(scene, screenshot, video, key, image, env).end
      == Some(if screenshot.Some? && screenshot.value != "" && env.fetch.FetchRaised? then Crash
              else if !env.spriteExists && env.sprite.GenRaised? then Crash
              else if !env.previewExists && env.preview.GenRaised? then Crash
              else Finished)
  {
  }

  /** Every scene's run ends in one of the three ways, as `ExpectedEnd` says. */
  lemma SceneWorkEnd(scene: Scene, image: string, env: Encounters)
    ensures SceneWork(scene, image, env).end == Some(ExpectedEnd(scene, env))
  {
    if |scene.files| > 0 && DisplayName(scene.files[0].path).Some? {
      var h := HashPart(scene.id, scene.files[0].id, VideoOf(scene), env.hash);
      var rest := AfterHash(scene.id, scene.screenshot, VideoOf(scene), KeyOf(scene), image, env);
      assert SceneWork(scene, image, env) == Then(h, rest);
      HashPartEnd(scene.id, scene.files[0].id, VideoOf(scene), env.hash);
      AfterHashEnd(scene.id, scene.screenshot, VideoOf(scene), KeyOf(scene), image, env);
    }
  }

  /** How the hash stage ends. */
  lemma HashPartEnd(scene: string, file: string, video: string, h: HashRun)
    ensures HashPart(scene, file, video, h).end
      == if h.ExitFailed? then Some(Crash) else if h.NotJson? then Some(NotHashed) else None
  {
  }

  /** Lines 138-143: output that is not JSON tags a hashing error, drops the hashing tag, and
      nothing else happens to the scene. */
  lemma NotJsonSkips(scene: Scene, image: string, env: Encounters)
    requires |scene.files| > 0 && DisplayName(scene.files[0].path).Some? && env.hash.NotJson?
    ensures SceneWork(scene, image, env).requests
         == [AddTag(scene.id, HASHING_ERROR_TAG), RemoveTag(scene.id, HASHING_TAG)]
    ensures SceneWork(scene, image, env).end == Some(NotHashed)
    ensures SceneWork(scene, image, env).effects == [CallHashTool([BINARY, "-json", VideoOf(scene)])]
  {
  }

  /** The stages after the hash send no fingerprints. */
  lemma NoFingerprintsAfterHash(scene: string, screenshot: Option<string>, video: string, key: string, image: string, env: Encounters)
    ensures forall m :: m in AfterHash(scene, screenshot, video, key, image, env).requests ==> !m.SetFingerprints?
  {
  }

  /** The condition of line 145. */
  predicate HasPhash(h: HashRun) {
    h.Parsed? && "phash" in h.fields && h.fields["phash"] != ""
  }

  /** Lines 145-147: the phash is stored exactly when the JSON carries a non-empty "phash",
      as the file's only fingerprint, and it is the first request of the scene. */
  lemma PhashStored(scene: Scene, image: string, env: Encounters)
    requires |scene.files| > 0 && DisplayName(scene.files[0].path).Some?
    ensures (exists m :: m in SceneWork(scene, image, env).requests && m.SetFingerprints?) <==> HasPhash(env.hash)
    ensures HasPhash(env.hash) ==>
      SceneWork(scene, image, env).requests[0] == SetFingerprints(scene.files[0].id, [Fingerprint("phash", env.hash.fields["phash"])])
  {
    var h := HashPart(scene.id, scene.files[0].id, VideoOf(scene), env.hash);
    var rest := AfterHash(scene.id, scene.screenshot, VideoOf(scene), KeyOf(scene), image, env);
    NoFingerprintsAfterHash(scene.id, scene.screenshot, VideoOf(scene), KeyOf(scene), image, env);
    if env.hash.Parsed? {
      assert SceneWork(scene, image, env).requests == h.requests + rest.requests;
      if HasPhash(env.hash) {
        assert SceneWork(scene, image, env).requests[0] in SceneWork(scene, image, env).requests;
      }
    }
  }

  /** Lines 184-187 and 196-228: a frame grab that produced nothing tags a cover error and
      drops the hashing tag, and the sprite, the preview and the release still follow. */
  lemma CoverFailureContinues(scene: Scene, image: string, env: Encounters)
    requires |scene.files| > 0 && DisplayName(scene.files[0].path).Some? && env.hash.Parsed?
    requires CoverFailsFor(scene.screenshot, env)
    ensures var h := HashPart(scene.id, scene.files[0].id, VideoOf(scene), env.hash);
      var rest := Artifacts(scene.id, VideoOf(scene), KeyOf(scene), env);
      var p := SceneWork(scene, image, env);
      p.requests == h.requests + ([AddTag(scene.id, COVER_ERROR_TAG), RemoveTag(scene.id, HASHING_TAG)] + rest.requests)
      && p.effects == h.effects + (GrabEffects(VideoOf(scene), image, env) + rest.effects)
      && p.end == rest.end
  {
    var h := HashPart(scene.id, scene.files[0].id, VideoOf(scene), env.hash);
    var after := AfterHash(scene.id, scene.screenshot, VideoOf(scene), KeyOf(scene), image, env);
    assert SceneWork(scene, image, env) == Then(h, after);
    HashPartEnd(scene.id, scene.files[0].id, VideoOf(scene), env.hash);
    CoverFailureAfterHash(scene.id, scene.screenshot, VideoOf(scene), KeyOf(scene), image, env);
  }

  /** `CoverFailureContinues` for the stages after the hash. */
  lemma CoverFailureAfterHash(id: string, screenshot: Option<string>, video: string, key: string, image: string, env: Encounters)
    requires CoverFailsFor(screenshot, env)
    ensures var rest := Artifacts(id, video, key, env);
      AfterHash(id, screenshot, video, key, image, env)
      == Part([AddTag(id, COVER_ERROR_TAG), RemoveTag(id, HASHING_TAG)] + rest.requests, GrabEffects(video, image, env) + rest.effects, rest.end)
  {
  }

  /** The generators and the release: the sprite runs exactly when its file is absent, the
      preview exactly when the sprite did not fail and the preview file is absent, and the
      release exactly when neither failed. */
  lemma ArtifactsGating(scene: string, video: string, key: string, env: Encounters)
    ensures var p := Artifacts(scene, video, key, env);
      var spriteFails := !env.spriteExists && env.sprite.GenRaised?;
      (MakeSprite(Quoted(video), LegacySpriteFile(key), LegacyVttFile(key)) in p.effects <==> !env.spriteExists)
      && ((exists e :: e in p.effects && e.MakeSprite?) <==> !env.spriteExists)
      && (MakePreview(Quoted(video), LegacyPreviewFile(key)) in p.effects <==> !spriteFails && !env.previewExists)
      && ((exists e :: e in p.effects && e.MakePreview?) <==> !spriteFails && !env.previewExists)
      && (p.end == Some(Finished) <==> !spriteFails && !(!env.previewExists && env.preview.GenRaised?))
      && (p.end == Some(Finished) ==> p.requests == [RemoveTag(scene, HASHING_TAG)])
      && (p.end != Some(Finished) ==> p.requests == [] && p.end == Some(Crash))
  {
    var sprite := MakeSprite(Quoted(video), LegacySpriteFile(key), LegacyVttFile(key));
    var preview := MakePreview(Quoted(video), LegacyPreviewFile(key));
    var spriteFails := !env.spriteExists && env.sprite.GenRaised?;
    var p := Artifacts(scene, video, key, env);
    if env.spriteExists {
      assert p.effects == if env.previewExists then [] else [preview];
    } else if spriteFails {
      assert p.effects == [sprite];
    } else {
      assert p.effects == if env.previewExists then [sprite] else [sprite, preview];
    }
  }

  /** The effects of the stages before the generators. */
  lemma EarlyEffects(scene: string, file: string, screenshot: Option<string>, video: string, image: string, env: Encounters)
    ensures forall e :: e in HashPart(scene, file, video, env.hash).effects ==> e.CallHashTool?
    ensures forall e :: e in CoverPart(scene, screenshot, video, image, env).effects ==> e.GrabFrame? || e.RemoveImage?
  {
  }

  /** The generators run exactly when the scene's run gets past the hash tool and the
      screenshot request (lines 136-137, 160-161), gated as `ArtifactsGating` says. */
  lemma ArtifactGating(scene: Scene, image: string, env: Encounters)
    requires |scene.files| > 0 && DisplayName(scene.files[0].path).Some?
    ensures var rest := Artifacts(scene.id, VideoOf(scene), KeyOf(scene), env);
      var pastCover := env.hash.Parsed? && !(scene.screenshot.Some? && scene.screenshot.value != "" && env.fetch.FetchRaised?);
      forall e: Effect :: e.MakeSprite? || e.MakePreview? ==>
        (e in SceneWork(scene, image, env).effects <==> pastCover && e in rest.effects)
  {
    var video := VideoOf(scene);
    var h := HashPart(scene.id, scene.files[0].id, video, env.hash);
    var c := CoverPart(scene.id, scene.screenshot, video, image, env);
    EarlyEffects(scene.id, scene.files[0].id, scene.screenshot, video, image, env);
    var rest := Artifacts(scene.id, video, KeyOf(scene), env);
    assert SceneWork(scene, image, env) == Then(h, Then(c, rest));
    assert h.end.None? <==> env.hash.Parsed?;
    assert c.end.None? <==> !(scene.screenshot.Some? && scene.screenshot.value != "" && env.fetch.FetchRaised?);
    GatedEffects(h, c, rest);
  }

  /** A generator effect is in a run of three parts, the first two of which run no
      generator, exactly when neither of the first two ended the run and the third has it. */
  lemma GatedEffects(h: Part, c: Part, rest: Part)
    requires forall e :: e in h.effects ==> !(e.MakeSprite? || e.MakePreview?)
    requires forall e :: e in c.effects ==> !(e.MakeSprite? || e.MakePreview?)
    ensures forall e: Effect :: e.MakeSprite? || e.MakePreview? ==>
      (e in Then(h, Then(c, rest)).effects <==> h.end.None? && c.end.None? && e in rest.effects)
  {
  }

  /** The tags a finished scene ends with: the hashing tag gone, and the cover error tag
      added exactly when the frame grab failed. After output that is not JSON the scene has
      the hashing error tag instead. */
  lemma SceneTags(lib: Library, scene: Scene, image: string, env: Encounters)
    requires |scene.files| > 0 && DisplayName(scene.files[0].path).Some?
    ensures var p := SceneWork(scene, image, env);
      var added := if CoverFailsFor(scene.screenshot, env) then {COVER_ERROR_TAG} else {};
      p.end == Some(Finished) ==>
        TagsOf(ApplyAll(lib, p.requests), scene.id) == (TagsOf(lib, scene.id) + added) - {HASHING_TAG}
    ensures var p := SceneWork(scene, image, env);
      p.end == Some(NotHashed) ==>
        TagsOf(ApplyAll(lib, p.requests), scene.id) == (TagsOf(lib, scene.id) + {HASHING_ERROR_TAG}) - {HASHING_TAG}
  {
    var p := SceneWork(scene, image, env);
    if p.end == Some(NotHashed) {
      ApplyAllTwo(lib, AddTag(scene.id, HASHING_ERROR_TAG), RemoveTag(scene.id, HASHING_TAG));
    } else if p.end == Some(Finished) {
      FinishedTags(lib, scene.id, scene.files[0].id, scene.screenshot, VideoOf(scene), KeyOf(scene), image, env);
    }
  }

  /** `SceneTags` for the stages of a named scene that finishes. */
  lemma FinishedTags(lib: Library, id: string, file: string, screenshot: Option<string>, video: string, key: string,
                     image: string, env: Encounters)
    requires Then(HashPart(id, file, video, env.hash), AfterHash(id, screenshot, video, key, image, env)).end == Some(Finished)
    ensures var p := Then(HashPart(id, file, video, env.hash), AfterHash(id, screenshot, video, key, image, env));
      var added := if CoverFailsFor(screenshot, env) then {COVER_ERROR_TAG} else {};
      TagsOf(ApplyAll(lib, p.requests), id) == (TagsOf(lib, id) + added) - {HASHING_TAG}
  {
    var h := HashPart(id, file, video, env.hash);
    var c := CoverPart(id, screenshot, video, image, env);
    ArtifactsGating(id, video, key, env);
    assert Then(h, AfterHash(id, screenshot, video, key, image, env)).requests == h.requests + c.requests + [RemoveTag(id, HASHING_TAG)];
    ReleaseTags(lib, h.requests, c.requests, id);
    HashPartTags(lib, id, file, video, env.hash);
    CoverPartTags(ApplyAll(lib, h.requests), id, screenshot, video, image, env);
  }

  /** A stored hash leaves the scene's tags alone. */
  lemma HashPartTags(lib: Library, id: string, file: string, video: string, h: HashRun)
    ensures HashPart(id, file, video, h).end.None? ==>
      TagsOf(ApplyAll(lib, HashPart(id, file, video, h).requests), id) == TagsOf(lib, id)
  {
    var p := HashPart(id, file, video, h);
    if p.end.None? && p.requests != [] {
      assert p.requests == [p.requests[0]];
      ApplyAllOne(lib, p.requests[0]);
    }
  }

  /** The cover stage changes the scene's tags only when the frame grab failed. */
  lemma CoverPartTags(lib: Library, id: string, screenshot: Option<string>, video: string, image: string, env: Encounters)
    ensures CoverPart(id, screenshot, video, image, env).end.None? ==>
      TagsOf(ApplyAll(lib, CoverPart(id, screenshot, video, image, env).requests), id)
      == if CoverFailsFor(screenshot, env) then (TagsOf(lib, id) + {COVER_ERROR_TAG}) - {HASHING_TAG} else TagsOf(lib, id)
  {
    var c := CoverPart(id, screenshot, video, image, env);
    if CoverFailsFor(screenshot, env) {
      ApplyAllTwo(lib, AddTag(id, COVER_ERROR_TAG), RemoveTag(id, HASHING_TAG));
    } else if c.end.None? && c.requests != [] {
      assert c.requests == [c.requests[0]];
      ApplyAllOne(lib, c.requests[0]);
    }
  }

  /** Two batches of requests followed by the release of the hashing tag. */
  lemma ReleaseTags(lib: Library, a: seq<Mutation>, b: seq<Mutation>, id: string)
    ensures TagsOf(ApplyAll(lib, a + b + [RemoveTag(id, HASHING_TAG)]), id)
         == TagsOf(ApplyAll(ApplyAll(lib, a), b), id) - {HASHING_TAG}
  {
    ApplyAllAppend(lib, a + b, [RemoveTag(id, HASHING_TAG)]);
    ApplyAllAppend(lib, a, b);
    ApplyAllOne(ApplyAll(lib, a + b), RemoveTag(id, HASHING_TAG));
  }

  // ---------------------------------------------------------------- the pass

  /** Lines 112-113: the claim of every fetched scene, in order. */
  function Claims(scenes: seq<Scene>): (ms: seq<Mutation>)
    ensures |ms| == |scenes| && forall i :: 0 <= i < |ms| ==> ms[i] == AddTag(scenes[i].id, HASHING_TAG)
  {
    seq(|scenes|, i requires 0 <= i < |scenes| => AddTag(scenes[i].id, HASHING_TAG))
  }

  /** After the claims every fetched scene carries the hashing tag, and no other scene's tags
      changed. */
  lemma {:induction false} ClaimsTagAll(lib: Library, scenes: seq<Scene>)
    ensures forall i :: 0 <= i < |scenes| ==> HASHING_TAG in TagsOf(ApplyAll(lib, Claims(scenes)), scenes[i].id)
    ensures forall s :: (forall i :: 0 <= i < |scenes| ==> scenes[i].id != s) ==>
      TagsOf(ApplyAll(lib, Claims(scenes)), s) == TagsOf(lib, s)
    ensures forall s :: TagsOf(lib, s) <= TagsOf(ApplyAll(lib, Claims(scenes)), s)
    decreases |scenes|
  {
    if scenes != [] {
      var init := scenes[..|scenes| - 1];
      ClaimsTagAll(lib, init);
      assert Claims(scenes)[..|scenes| - 1] == Claims(init);
      var last := AddTag(scenes[|scenes| - 1].id, HASHING_TAG);
      var before := ApplyAll(lib, Claims(init));
      assert ApplyAll(lib, Claims(scenes)) == Apply(before, last);
      forall i | 0 <= i < |scenes| ensures HASHING_TAG in TagsOf(ApplyAll(lib, Claims(scenes)), scenes[i].id) {
        if i < |scenes| - 1 {
          assert init[i] == scenes[i];
        }
      }
      forall s | forall i :: 0 <= i < |scenes| ==> scenes[i].id != s
        ensures TagsOf(ApplyAll(lib, Claims(scenes)), s) == TagsOf(lib, s)
      {
        assert forall i :: 0 <= i < |init| ==> init[i].id != s by {
          forall i | 0 <= i < |init| ensures init[i].id != s {
            assert init[i] == scenes[i];
          }
        }
      }
    }
  }

  /** Every fetched scene's run, each taken on its own. */
  function Works(scenes: seq<Scene>, images: seq<string>, envs: seq<Encounters>): (ws: seq<Part>)
    requires |images| == |scenes| && |envs| == |scenes|
    ensures |ws| == |scenes| && forall i :: 0 <= i < |scenes| ==> ws[i] == SceneWork(scenes[i], images[i], envs[i])
  {
    seq(|scenes|, i requires 0 <= i < |scenes| => SceneWork(scenes[i], images[i], envs[i]))
  }

  /** The first k runs in order, up to and including the first that crashes. */
  function Joined(ws: seq<Part>, k: nat): Part
    requires k <= |ws|
  {
    if k == 0 then Part([], [], None)
    else
      var prev := Joined(ws, k - 1);
      if prev.end == Some(Crash) then prev
      else Part(prev.requests + ws[k - 1].requests, prev.effects + ws[k - 1].effects, ws[k - 1].end)
  }

  /** The index of the first run from i on that crashes, or |ws|. */
  function FirstCrashOf(ws: seq<Part>, i: nat): (k: nat)
    requires i <= |ws|
    ensures i <= k <= |ws|
    ensures forall j :: i <= j < k ==> ws[j].end != Some(Crash)
    ensures k < |ws| ==> ws[k].end == Some(Crash)
    decreases |ws| - i
  {
    if i == |ws| || ws[i].end == Some(Crash) then i else FirstCrashOf(ws, i + 1)
  }

  /** The runs joined crash exactly when one of them does, and then nothing after the first
      crash is part of them. */
  lemma {:induction false} JoinedCrash(ws: seq<Part>, k: nat)
    requires k <= |ws|
    ensures var c := FirstCrashOf(ws, 0);
      (Joined(ws, k).end == Some(Crash) <==> c < k) && (c < k ==> Joined(ws, k) == Joined(ws, c + 1))
    decreases k
  {
    if k > 0 {
      JoinedCrash(ws, k - 1);
    }
  }

  /** The first scene whose run crashes, by `ExpectedEnd`, or |scenes|. */
  function FirstCrash(scenes: seq<Scene>, envs: seq<Encounters>, i: nat): (k: nat)
    requires |envs| == |scenes| && i <= |scenes|
    ensures i <= k <= |scenes|
    ensures forall j :: i <= j < k ==> ExpectedEnd(scenes[j], envs[j]) != Crash
    ensures k < |scenes| ==> ExpectedEnd(scenes[k], envs[k]) == Crash
    decreases |scenes| - i
  {
    if i == |scenes| || ExpectedEnd(scenes[i], envs[i]) == Crash then i else FirstCrash(scenes, envs, i + 1)
  }

  /** The first run that crashes is the first scene `ExpectedEnd` says crashes. */
  lemma {:induction false} FirstCrashAgrees(scenes: seq<Scene>, images: seq<string>, envs: seq<Encounters>, i: nat)
    requires |images| == |scenes| && |envs| == |scenes| && i <= |scenes|
    ensures FirstCrashOf(Works(scenes, images, envs), i) == FirstCrash(scenes, envs, i)
    decreases |scenes| - i
  {
    if i < |scenes| {
      SceneWorkEnd(scenes[i], images[i], envs[i]);
      FirstCrashAgrees(scenes, images, envs, i + 1);
    }
  }

  /** The work of the first k scenes. */
  function PassWork(scenes: seq<Scene>, images: seq<string>, envs: seq<Encounters>, k: nat): Part
    requires |images| == |scenes| && |envs| == |scenes| && k <= |scenes|
  {
    Joined(Works(scenes, images, envs), k)
  }

  /** The pass crashes exactly when some scene's run would, and then no scene after the first
      such one runs. */
  lemma PassWorkCrash(scenes: seq<Scene>, images: seq<string>, envs: seq<Encounters>)
    requires |images| == |scenes| && |envs| == |scenes|
    ensures var c := FirstCrash(scenes, envs, 0);
      (PassWork(scenes, images, envs, |scenes|).end == Some(Crash) <==> c < |scenes|)
      && (c < |scenes| ==> PassWork(scenes, images, envs, |scenes|) == PassWork(scenes, images, envs, c + 1))
  {
    JoinedCrash(Works(scenes, images, envs), |scenes|);
    FirstCrashAgrees(scenes, images, envs, 0);
  }

  /** The requests of the whole pass: all the claims, then the scenes' runs. */
  function PassRequests(scenes: seq<Scene>, images: seq<string>, envs: seq<Encounters>): seq<Mutation>
    requires |images| == |scenes| && |envs| == |scenes|
  {
    Claims(scenes) + PassWork(scenes, images, envs, |scenes|).requests
  }

  /** A tag request addressed to `id`. */
  predicate TagsScene(m: Mutation, id: string) {
    (m.AddTag? || m.RemoveTag?) && m.scene == id
  }

  /** A named scene's run sends tag requests only for that scene. */
  lemma StagesAddressScene(id: string, file: string, screenshot: Option<string>, video: string, key: string,
                           image: string, env: Encounters, other: string)
    requires other != id
    ensures var p := Then(HashPart(id, file, video, env.hash), AfterHash(id, screenshot, video, key, image, env));
      forall m :: m in p.requests ==> !TagsScene(m, other)
  {
    ArtifactsGating(id, video, key, env);
  }

  /** Joined runs that each leave `other` alone leave it alone together. */
  lemma {:induction false} JoinedAvoids(ws: seq<Part>, k: nat, other: string)
    requires k <= |ws|
    requires forall i :: 0 <= i < k ==> forall m :: m in ws[i].requests ==> !TagsScene(m, other)
    ensures forall m :: m in Joined(ws, k).requests ==> !TagsScene(m, other)
    decreases k
  {
    if k > 0 {
      JoinedAvoids(ws, k - 1, other);
    }
  }

  /** The IDs of the fetched scenes are distinct. */
  predicate DistinctIds(scenes: seq<Scene>) {
    forall a, b :: 0 <= a < b < |scenes| ==> scenes[a].id != scenes[b].id
  }

  /** Lines 112-113 and 135, 160, 208, 223: when a scene's run raises, the pass ends, and
      every scene after it keeps the hashing tag the claim loop gave it. */
  lemma CrashStrandsLaterClaims(lib: Library, scenes: seq<Scene>, images: seq<string>, envs: seq<Encounters>, j: nat)
    requires |images| == |scenes| && |envs| == |scenes| && DistinctIds(scenes)
    requires FirstCrash(scenes, envs, 0) < j < |scenes|
    ensures HASHING_TAG in TagsOf(ApplyAll(lib, PassRequests(scenes, images, envs)), scenes[j].id)
  {
    var c := FirstCrash(scenes, envs, 0);
    var ws := Works(scenes, images, envs);
    var other := scenes[j].id;
    PassWorkCrash(scenes, images, envs);
    forall i | 0 <= i < c + 1 ensures forall m :: m in ws[i].requests ==> !TagsScene(m, other) {
      var sc := scenes[i];
      if |sc.files| > 0 && DisplayName(sc.files[0].path).Some? {
        StagesAddressScene(sc.id, sc.files[0].id, sc.screenshot, VideoOf(sc), KeyOf(sc), images[i], envs[i], other);
      }
    }
    JoinedAvoids(ws, c + 1, other);
    var rs := Joined(ws, c + 1).requests;
    assert forall i :: 0 <= i < |rs| ==> !((rs[i].AddTag? || rs[i].RemoveTag?) && rs[i].scene == other) by {
      forall i | 0 <= i < |rs| ensures !TagsScene(rs[i], other) {
        assert rs[i] in rs;
      }
    }
    ApplyAllAppend(lib, Claims(scenes), rs);
    ClaimsTagAll(lib, scenes);
    ApplyAllOtherScene(ApplyAll(lib, Claims(scenes)), rs, other);
  }

  /** Lines 115-230 for one scene, on the service. */
  method HashScene(stash: StashService, scene: Scene, image: string, env: Encounters)
    returns (end: End, effects: seq<Effect>)
    modifies stash
    ensures var p := SceneWork(scene, image, env);
      p.end == Some(end) && effects == p.effects && stash.State() == ApplyAll(old(stash.State()), p.requests)
  {
    if |scene.files| == 0 {
      return Crash, [];
    }
    var file := scene.files[0];
    var pretty := DisplayName(file.path);
    if pretty.None? {
      return Crash, [];
    }
    var filename := TranslatePath(file.path, LegacyTranslations());
    var filehash := SelectOshash(file.fingerprints);
    var h;
    h, effects := HashStep(stash, scene.id, file.id, filename, env.hash);
    if h.Some? {
      return h.value, effects;
    }
    var rest;
    end, rest := LaterSteps(stash, scene.id, scene.screenshot, filename, filehash, image, env);
    effects := effects + rest;
    ApplyAllAppend(old(stash.State()), HashPart(scene.id, file.id, filename, env.hash).requests,
      AfterHash(scene.id, scene.screenshot, filename, filehash, image, env).requests);
  }

  /** Lines 135-147 on the service. */
  method HashStep(stash: StashService, scene: string, file: string, video: string, h: HashRun)
    returns (end: Option<End>, effects: seq<Effect>)
    modifies stash
    ensures var p := HashPart(scene, file, video, h);
      end == p.end && effects == p.effects && stash.State() == ApplyAll(old(stash.State()), p.requests)
  {
    effects := [CallHashTool([BINARY, "-json", video])];
    ghost var l0 := stash.State();
    match h
    case ExitFailed =>
      return Some(Crash), effects;
    case NotJson =>
      stash.AddTag(scene, HASHING_ERROR_TAG);
      stash.RemoveTag(scene, HASHING_TAG);
      ApplyAllTwo(l0, AddTag(scene, HASHING_ERROR_TAG), RemoveTag(scene, HASHING_TAG));
      return Some(NotHashed), effects;
    case Parsed(fields) =>
      if "phash" in fields && fields["phash"] != "" {
        stash.SetFingerprints(file, [Fingerprint("phash", fields["phash"])]);
        ApplyAllOne(l0, SetFingerprints(file, [Fingerprint("phash", fields["phash"])]));
      }
      return None, effects;
  }

  /** Lines 149-230 on the service, once the hash is stored. */
  method LaterSteps(stash: StashService, scene: string, screenshot: Option<string>, video: string, key: string,
                    image: string, env: Encounters)
    returns (end: End, effects: seq<Effect>)
    modifies stash
    ensures var p := AfterHash(scene, screenshot, video, key, image, env);
      p.end == Some(end) && effects == p.effects && stash.State() == ApplyAll(old(stash.State()), p.requests)
  {
    var c;
    c, effects := CoverStep(stash, scene, screenshot, video, image, env);
    if c.Some? {
      return c.value, effects;
    }
    end, effects := ArtifactsStep(stash, scene, video, key, env, effects);
    ApplyAllAppend(old(stash.State()), CoverPart(scene, screenshot, video, image, env).requests,
      Artifacts(scene, video, key, env).requests);
  }

  /** Lines 196-228 on the service; `done` are the effects so far. */
  method ArtifactsStep(stash: StashService, scene: string, video: string, key: string, env: Encounters, done: seq<Effect>)
    returns (end: End, effects: seq<Effect>)
    modifies stash
    ensures var p := Artifacts(scene, video, key, env);
      p.end == Some(end) && effects == done + p.effects && stash.State() == ApplyAll(old(stash.State()), p.requests)
  {
    effects := done;
    if !env.spriteExists {
      effects := effects + [MakeSprite(Quoted(video), LegacySpriteFile(key), LegacyVttFile(key))];
      if env.sprite.GenRaised? {
        return Crash, effects;
      }
    }
    if !env.previewExists {
      effects := effects + [MakePreview(Quoted(video), LegacyPreviewFile(key))];
      if env.preview.GenRaised? {
        return Crash, effects;
      }
    }
    stash.RemoveTag(scene, HASHING_TAG);
    ApplyAllOne(old(stash.State()), RemoveTag(scene, HASHING_TAG));
    return Finished, effects;
  }

  /** Lines 158-190 on the service. */
  method CoverStep(stash: StashService, scene: string, screenshot: Option<string>, video: string, image: string, env: Encounters)
    returns (end: Option<End>, effects: seq<Effect>)
    modifies stash
    ensures var p := CoverPart(scene, screenshot, video, image, env);
      end == p.end && effects == p.effects && stash.State() == ApplyAll(old(stash.State()), p.requests)
  {
    ghost var l0 := stash.State();
    if screenshot.None? || screenshot.value == "" {
      return None, [];
    }
    match env.fetch
    case FetchRaised(_) =>
      return Some(Crash), [];
    case Fetched(body) =>
      if !Contains(Lower(body), "<svg") {
        return None, [];
      }
      effects := [GrabFrame(video, image)];
      if env.coverProduced && !env.updateRaised {
        var data := COVER_PREFIX + env.encoded;
        var _ := stash.UpdateScene(scene, data, env.accepted);
        ApplyAllOne(l0, SetCover(scene, data, env.accepted));
        effects := effects + [RemoveImage(image)];
      } else {
        stash.AddTag(scene, COVER_ERROR_TAG);
        stash.RemoveTag(scene, HASHING_TAG);
        ApplyAllTwo(l0, AddTag(scene, COVER_ERROR_TAG), RemoveTag(scene, HASHING_TAG));
        if env.coverProduced {
          effects := effects + [RemoveImage(image)];
        }
      }
      return None, effects;
  }

  /** Lines 112-230: one pass over the fetched scenes, with the random cover-image names. */
  method HashPass(stash: StashService, scenes: seq<Scene>, images: seq<string>, envs: seq<Encounters>)
    returns (crashed: bool, effects: seq<Effect>)
    requires |images| == |scenes| && |envs| == |scenes|
    modifies stash
    ensures crashed <==> FirstCrash(scenes, envs, 0) < |scenes|
    ensures effects == PassWork(scenes, images, envs, |scenes|).effects
    ensures stash.State() == ApplyAll(old(stash.State()), PassRequests(scenes, images, envs))
  {
    ghost var l0 := stash.State();
    ClaimEvery(stash, scenes);
    ghost var l1 := stash.State();
    ghost var ws := Works(scenes, images, envs);
    effects := [];
    crashed := false;
    var i := 0;
    while i < |scenes|
      invariant 0 <= i <= |scenes|
      invariant Joined(ws, i).end != Some(Crash)
      invariant effects == Joined(ws, i).effects
      invariant stash.State() == ApplyAll(l1, Joined(ws, i).requests)
    {
      var end, acts := HashScene(stash, scenes[i], images[i], envs[i]);
      ApplyAllAppend(l1, Joined(ws, i).requests, ws[i].requests);
      effects := effects + acts;
      i := i + 1;
      if end == Crash {
        crashed := true;
        break;
      }
    }
    JoinedCrash(ws, i);
    JoinedCrash(ws, |scenes|);
    FirstCrashAgrees(scenes, images, envs, 0);
    ApplyAllAppend(l0, Claims(scenes), Joined(ws, i).requests);
  }

  /** Lines 112-113 on the service. */
  method ClaimEvery(stash: StashService, scenes: seq<Scene>)
    modifies stash
    ensures stash.State() == ApplyAll(old(stash.State()), Claims(scenes))
  {
    ghost var l0 := stash.State();
    var i := 0;
    while i < |scenes|
      invariant 0 <= i <= |scenes|
      invariant stash.State() == ApplyAll(l0, Claims(scenes[..i]))
    {
      ghost var before := stash.State();
      stash.AddTag(scenes[i].id, HASHING_TAG);
      assert Claims(scenes[..i + 1])[..i] == Claims(scenes[..i]);
      i := i + 1;
    }
    assert scenes[..i] == scenes;
  }
}
