/** `phash_videohasher_main.py`: the batch loop. Each round removes leftover scratch
    directories, takes the scenes the discovery query returns, claims them all, runs
    `process_scene` on each, and stops when there is nothing to do, on Ctrl+C, on a scene
    whose path the name pattern does not match, or after one round under `--once`.

    The discovery query, the random naming tokens and what each scene's run meets outside
    are inputs: one `Round` per pass of the loop. The worker pool is modelled as running the
    submitted scenes one after another, in submission order. */
module BatchMain {
  import opened Wrappers
  import opened Strings
  import opened Disk
  import opened StashApi
  import opened StashUtils
  import opened SceneProcessor

  // ---------------------------------------------------------------- the configuration module

  /** The on/off settings of config.py that the command line sets, which are also the
      command line's `store_true` switches: each is false unless given. */
  datatype Switches = Switches(
    windows: bool,
    generateSprite: bool,
    generatePreview: bool,
    dryRun: bool,
    verbose: bool,
    once: bool)

  /** The values of config.py that the command line may change. */
  datatype Flags = Flags(switches: Switches, perPage: int, maxWorkers: int)

  /** config.py as imported (lines 10, 29-47); `windows` is whether the platform is Windows. */
  function Defaults(windows: bool): (f: Flags)
    ensures f.switches.windows == windows && f.switches.generateSprite && f.switches.generatePreview
    ensures !f.switches.dryRun && !f.switches.verbose && !f.switches.once
    ensures f.perPage == 25 && f.maxWorkers == 4
  {
    Flags(Switches(windows, true, true, false, false, false), 25, 4)
  }

  /** The parsed command line: the switches, and the two integer options, `None` unless
      given. */
  datatype Args = Args(switches: Switches, batchSize: Option<int>, maxWorkers: Option<int>)

  /** `if args.batch_size:` and `if args.max_workers:` take an option that is given and is
      not 0. */
  predicate Truthy(v: Option<int>) {
    v.Some? && v.value != 0
  }

  /** `apply_cli_args` (lines 16-26) on the values `f`. */
  function Applied(f: Flags, a: Args): Flags {
    Flags(a.switches,
      if Truthy(a.batchSize) then a.batchSize.value else f.perPage,
      if Truthy(a.maxWorkers) then a.maxWorkers.value else f.maxWorkers)
  }

  /** The six switches are always overwritten, so a switch left off the command line turns
      its setting off whatever config.py says; the batch size and the pool size change only
      when the option is given and is not 0. */
  lemma AppliedSettings(f: Flags, a: Args)
    ensures var r := Applied(f, a);
      r.switches == a.switches
      && (!Truthy(a.batchSize) ==> r.perPage == f.perPage)
      && (Truthy(a.batchSize) ==> r.perPage == a.batchSize.value)
      && (!Truthy(a.maxWorkers) ==> r.maxWorkers == f.maxWorkers)
      && (Truthy(a.maxWorkers) ==> r.maxWorkers == a.maxWorkers.value)
  {
  }

  /** Applying the same command line twice is applying it once, and the result does not
      depend on the earlier switches. */
  lemma AppliedIdempotent(f: Flags, g: Flags, a: Args)
    requires f.perPage == g.perPage && f.maxWorkers == g.maxWorkers
    ensures Applied(Applied(f, a), a) == Applied(f, a)
    ensures Applied(f, a) == Applied(g, a)
  {
  }

  /** Without `--generate-sprite` and `--generate-preview` the configuration module ends up
      with both generators off, although config.py ships them on. */
  lemma GeneratorsOffUnlessAsked(windows: bool, a: Args)
    requires !a.switches.generateSprite && !a.switches.generatePreview
    ensures Defaults(windows).switches.generateSprite && Defaults(windows).switches.generatePreview
    ensures !Applied(Defaults(windows), a).switches.generateSprite
    ensures !Applied(Defaults(windows), a).switches.generatePreview
  {
  }

  /** The module-level variables of config.py. */
  class Globals {
    var windows: bool
    var generateSprite: bool
    var generatePreview: bool
    var dryRun: bool
    var verbose: bool
    var once: bool
    var perPage: int
    var maxWorkers: int

    function Values(): Flags
      reads this
    {
      Flags(Switches(windows, generateSprite, generatePreview, dryRun, verbose, once), perPage, maxWorkers)
    }

    constructor (platformIsWindows: bool)
      ensures Values() == Defaults(platformIsWindows)
    {
      windows := platformIsWindows;
      generateSprite, generatePreview := true, true;
      dryRun, verbose, once := false, false, false;
      perPage, maxWorkers := 25, 4;
    }

    method ApplyCliArgs(args: Args)
      modifies this
      ensures Values() == Applied(old(Values()), args)
    {
      var s := args.switches;
      windows, generateSprite, generatePreview := s.windows, s.generateSprite, s.generatePreview;
      dryRun, verbose, once := s.dryRun, s.verbose, s.once;
      if Truthy(args.batchSize) {
        perPage := args.batchSize.value;
      }
      if Truthy(args.maxWorkers) {
        maxWorkers := args.maxWorkers.value;
      }
    }
  }

  // ---------------------------------------------------------------- what the workers read

  /** The Windows translation table of config.py (lines 50-54). */
  function WindowsTranslations(): seq<Translation> {
    [Translation("/data/", "S:/"), Translation("/data2/", "P:/"), Translation("/data3/", "R:/")]
  }

  /** The configuration `process_scene` would read from the values `f`. The binary, the
      ffmpeg path, the output directories and the translation table follow the platform,
      since config.py computes them once at import (lines 13-21). */
  function WorkerConfig(platformIsWindows: bool, f: Flags): (cfg: Config)
    ensures cfg.settings == Settings(f.switches.dryRun, HASHING_TAG, HASHING_ERROR_TAG, COVER_ERROR_TAG)
    ensures cfg.generateSprite == f.switches.generateSprite && cfg.generatePreview == f.switches.generatePreview
  {
    var w := platformIsWindows;
    Config(
      Settings(f.switches.dryRun, HASHING_TAG, HASHING_ERROR_TAG, COVER_ERROR_TAG),
      if w then ".\\bin\\videohashes-windows.exe" else "./bin/videohashes-linux",
      if w then "c:\\mediatools\\ffmpeg.exe" else "/usr/bin/ffmpeg",
      f.switches.generateSprite, f.switches.generatePreview,
      if w then "Y:/stash/generated/vtt" else "/mnt/stash/stash/generated/vtt",
      if w then "Y:/stash/generated/screenshots" else "/mnt/stash/stash/generated/screenshots",
      if w then WindowsTranslations() else LinuxTranslations())
  }

  /** What the workers read as the code is written: helpers/scene_processor.py and
      helpers/stash_utils.py copy `dry_run`, `generate_sprite` and `generate_preview` out of
      config.py when they are imported, before `apply_cli_args` runs, so the values `f` the
      command line produced never reach them. */
  function SeenByWorkers(platformIsWindows: bool, f: Flags): Config {
    WorkerConfig(platformIsWindows, Defaults(platformIsWindows))
  }

  /** As written, `--dry-run` changes the configuration module but not the workers: the
      batch claim and every other wrapper still send their requests. */
  lemma DryRunFlagIgnored(windows: bool, a: Args, scene: string)
    requires a.switches.dryRun
    ensures Applied(Defaults(windows), a).switches.dryRun
    ensures !SeenByWorkers(windows, Applied(Defaults(windows), a)).settings.dryRun
    ensures Requests(SeenByWorkers(windows, Applied(Defaults(windows), a)).settings, Claim(scene))
         == [AddTag(scene, HASHING_TAG)]
  {
  }

  /** As written, the generators run without `--generate-sprite` and `--generate-preview`. */
  lemma GeneratorFlagsIgnored(windows: bool, a: Args)
    requires !a.switches.generateSprite && !a.switches.generatePreview
    ensures SeenByWorkers(windows, Applied(Defaults(windows), a)).generateSprite
    ensures SeenByWorkers(windows, Applied(Defaults(windows), a)).generatePreview
  {
  }

  // ---------------------------------------------------------------- leftover scratch directories

  /** The prefixes of the scratch directories (line 30). */
  predicate IsTempName(n: string) {
    StartsWith(n, "preview_temp_") || StartsWith(n, "screenshots_") || StartsWith(n, "cover_temp_")
  }

  /** The working-directory entries `clean_temp_dirs` tries to remove. */
  function TempEntries(s: Store): (r: set<string>)
    ensures forall n :: n in r <==> n in Cwd(s) && IsTempName(n)
  {
    set n | n in Cwd(s) && IsTempName(n)
  }

  /** `clean_temp_dirs` (lines 28-37): every scratch directory of the working directory goes;
      `shutil.rmtree` of a file by such a name raises and the exception is swallowed. */
  function Cleaned(s: Store): Store {
    s.(dirs := s.dirs - TempEntries(s))
  }

  /** Cleaning removes exactly the scratch directories of the working directory, keeps the
      other directories with their files, and leaves every file alone. */
  lemma CleanedExactly(s: Store)
    ensures Cleaned(s).files == s.files
    ensures forall d :: d in Cleaned(s).dirs <==> d in s.dirs && !(IsTempName(d) && '/' !in d)
    ensures forall d :: d in Cleaned(s).dirs ==> Cleaned(s).dirs[d] == s.dirs[d]
  {
  }

  /** Cleaning twice is cleaning once. */
  lemma CleanedIdempotent(s: Store)
    ensures Cleaned(Cleaned(s)) == Cleaned(s)
  {
    var c := Cleaned(s);
    forall n | n in TempEntries(c) ensures n !in c.dirs {
      assert n in Cwd(s) by {
        assert n in c.files || n in c.dirs;
      }
    }
    assert c.dirs - TempEntries(c) == c.dirs;
  }

  /** The cover and screenshot directories a scene run leaves behind are removed at the start
      of the next round. */
  lemma LeftoversCleaned(s: Store, key: string)
    requires SafeKey(key)
    ensures CoverDir(key) !in Cleaned(s).dirs && "screenshots_" + key !in Cleaned(s).dirs
    ensures "preview_temp_" + key !in Cleaned(s).dirs
  {
    var names := ["cover_temp_", "screenshots_", "preview_temp_"];
    forall p | p in names ensures (p + key) !in Cleaned(s).dirs {
      var n := p + key;
      assert n[..|p|] == p;
      assert '/' !in p;
      assert '/' !in n by {
        forall j | 0 <= j < |n| ensures n[j] != '/' {
          if j >= |p| {
            assert n[j] == key[j - |p|];
          }
        }
      }
    }
    assert CoverDir(key) == names[0] + key;
  }

  method CleanTempDirs(fs: FileSystem)
    modifies fs
    ensures fs.State() == Cleaned(old(fs.State()))
  {
    ghost var s := fs.State();
    var listing := fs.ListCwd();
    ghost var gone: set<string> := {};
    var i := 0;
    while i < |listing|
      invariant 0 <= i <= |listing|
      invariant fs.files == s.files && fs.dirs == s.dirs - gone
      invariant forall n :: n in gone <==> n in listing[..i] && IsTempName(n)
    {
      var folder := listing[i];
      assert listing[..i + 1] == listing[..i] + [folder];
      if IsTempName(folder) {
        if folder in fs.dirs {
          fs.RemoveTree(folder);
        }
        DropOneMore(s.dirs, gone, folder);
        gone := gone + {folder};
      }
      i := i + 1;
    }
    assert listing[..i] == listing;
    assert gone == TempEntries(s);
  }

  lemma DropOneMore<V>(m: map<string, V>, gone: set<string>, x: string)
    ensures (if x in m - gone then (m - gone) - {x} else m - gone) == m - (gone + {x})
  {
  }

  // ---------------------------------------------------------------- one round

  /** One pass of the loop: the scenes the discovery query returned, for each whether its
      claim request raised, the token `random.choices` gives its run and what its run meets,
      and, when the user presses Ctrl+C while the scenes are submitted, how many were
      submitted by then (`|scenes|` for a Ctrl+C while the results are awaited). */
  datatype Round = Round(
    scenes: seq<Scene>,
    claimRaises: seq<bool>,
    tokens: seq<string>,
    outcomes: seq<Outcomes>,
    interrupt: Option<nat>)

  predicate Fits(r: Round) {
    |r.claimRaises| == |r.scenes| && |r.tokens| == |r.scenes| && |r.outcomes| == |r.scenes|
    && (forall i :: 0 <= i < |r.tokens| ==> IsToken(r.tokens[i]))
    && (r.interrupt.Some? ==> r.interrupt.value <= |r.scenes|)
  }

  /** A scene for which line 76 raises: it has no file record, or the name pattern does not match its path. */
  predicate Unnamed(scene: Scene) {
    |scene.files| == 0 || DisplayName(scene.files[0].path).None?
  }

  /** The first scene from `i` on for which line 76 raises, or |scenes|. */
  function FirstUnnamed(scenes: seq<Scene>, i: nat): (k: nat)
    requires i <= |scenes|
    ensures i <= k <= |scenes|
    ensures forall j :: i <= j < k ==> !Unnamed(scenes[j])
    ensures k < |scenes| ==> Unnamed(scenes[k])
    decreases |scenes| - i
  {
    if i == |scenes| || Unnamed(scenes[i]) then i else FirstUnnamed(scenes, i + 1)
  }

  /** How far the submission goes without an exception from line 76. */
  function Reach(r: Round): nat {
    if r.interrupt.Some? then r.interrupt.value else |r.scenes|
  }

  /** How many scenes are submitted to the pool, and so run all the way. */
  function Submitted(r: Round): (n: nat)
    requires Fits(r)
    ensures n <= |r.scenes|
  {
    var k := FirstUnnamed(r.scenes, 0);
    if k < Reach(r) then k else Reach(r)
  }

  /** Scene i's run. */
  function SceneRun(cfg: Config, r: Round, i: nat): Run
    requires Fits(r) && i < |r.scenes|
  {
    Pipeline(cfg, r.scenes[i], r.tokens[i], r.outcomes[i])
  }

  /** The claims of lines 66-70 for the first k scenes; a claim that raises is reported and
      skipped. */
  function Claims(r: Round, k: nat): seq<Call>
    requires Fits(r) && k <= |r.scenes|
  {
    if k == 0 then []
    else Claims(r, k - 1) + if r.claimRaises[k - 1] then [] else [Claim(r.scenes[k - 1].id)]
  }

  /** The calls of the runs of the first k scenes. */
  function RunCalls(cfg: Config, r: Round, k: nat): seq<Call>
    requires Fits(r) && k <= |r.scenes|
  {
    if k == 0 then [] else RunCalls(cfg, r, k - 1) + SceneRun(cfg, r, k - 1).calls
  }

  /** The actions of the runs of the first k scenes. */
  function RunActions(cfg: Config, r: Round, k: nat): seq<Action>
    requires Fits(r) && k <= |r.scenes|
  {
    if k == 0 then [] else RunActions(cfg, r, k - 1) + SceneRun(cfg, r, k - 1).actions
  }

  /** Every call a round makes: all the claims, then the submitted scenes' runs. */
  function RoundCalls(cfg: Config, r: Round): seq<Call>
    requires Fits(r)
  {
    Claims(r, |r.scenes|) + RunCalls(cfg, r, Submitted(r))
  }

  /** How a round ends the loop, or lets it go on. */
  datatype BatchEnd =
    | NoScenes            // lines 57-60
    | Interrupted         // lines 82-86
    | StoppedAt(index: nat) // line 76 raised for that scene and the exception ends the program
    | SingleBatch         // lines 88-91
    | NextBatch           // lines 93-94

  function RoundEnd(once: bool, r: Round): (e: BatchEnd)
    requires Fits(r)
  {
    if |r.scenes| == 0 then NoScenes
    else if FirstUnnamed(r.scenes, 0) < Reach(r) then StoppedAt(FirstUnnamed(r.scenes, 0))
    else if r.interrupt.Some? then Interrupted
    else if once then SingleBatch
    else NextBatch
  }

  /** A round that goes on to the next one ran every scene it found; one that crashed ran
      exactly the scenes before the crashing one, and a Ctrl+C lets the scenes already
      submitted finish, because leaving the pool's `with` block waits for them before the
      handler's `shutdown(cancel_futures=True)` runs. */
  lemma RoundCoverage(once: bool, r: Round)
    requires Fits(r)
    ensures RoundEnd(once, r).NextBatch? || RoundEnd(once, r).SingleBatch? ==> Submitted(r) == |r.scenes|
    ensures RoundEnd(once, r).StoppedAt? ==> var k := RoundEnd(once, r).index;
      Submitted(r) == k && k < |r.scenes| && Unnamed(r.scenes[k])
    ensures RoundEnd(once, r).Interrupted? ==> Submitted(r) == r.interrupt.value
    ensures RoundEnd(once, r).NoScenes? <==> r.scenes == []
  {
  }

  /** `future.result()` never re-raises in this model: every submitted scene has a name, so
      its run never takes the crashing path. */
  lemma SubmittedRunsDoNotCrash(cfg: Config, r: Round, i: nat)
    requires Fits(r) && i < Submitted(r)
    ensures !SceneRun(cfg, r, i).ending.Crashed?
  {
    var k := FirstUnnamed(r.scenes, 0);
    assert !Unnamed(r.scenes[i]);
    PipelineEnding(cfg, r.scenes[i], r.tokens[i], r.outcomes[i]);
  }

  /** The batch claim before the run's own claim is harmless: two claims in a row act as one. */
  lemma DoubleClaim(st: Settings, w: World, scene: string)
    ensures PerformAll(st, w, [Claim(scene), Claim(scene)]) == PerformAll(st, w, [Claim(scene)])
  {
    PerformAllOne(st, w, Claim(scene));
    PerformAllSnoc(st, w, [Claim(scene)], Claim(scene));
    assert [Claim(scene)] + [Claim(scene)] == [Claim(scene), Claim(scene)];
    ClaimTwiceIsClaimOnce(st, w, scene);
  }

  /** Lines 54-91 for one round: performs on the service and the error log exactly the
      round's calls, runs exactly the submitted scenes' actions, and ends as `RoundEnd` says. */
  method RunRound(cfg: Config, once: bool, r: Round, stash: StashService, log: ErrorLog)
    returns (end: BatchEnd, actions: seq<Action>)
    requires Fits(r)
    modifies stash, log
    ensures end == RoundEnd(once, r) && actions == RunActions(cfg, r, Submitted(r))
    ensures WorldOf(stash, log) == PerformAll(cfg.settings, old(WorldOf(stash, log)), RoundCalls(cfg, r))
  {
    if |r.scenes| == 0 {
      return NoScenes, [];
    }
    ghost var w0 := WorldOf(stash, log);
    ClaimAll(cfg, r, stash, log);
    var n;
    n, actions := RunSubmitted(cfg, r, stash, log);
    PerformAllAppend(cfg.settings, w0, Claims(r, |r.scenes|), RunCalls(cfg, r, n));
    RoundEndBySubmitted(once, r);
    if n < |r.scenes| && r.interrupt != Some(n) {
      end := StoppedAt(n);
    } else if r.interrupt.Some? {
      end := Interrupted;
    } else if once {
      end := SingleBatch;
    } else {
      end := NextBatch;
    }
  }

  /** How a round with scenes ends, read off how many of its scenes were submitted. */
  lemma RoundEndBySubmitted(once: bool, r: Round)
    requires Fits(r) && |r.scenes| > 0
    ensures var n := Submitted(r);
      RoundEnd(once, r) == if n < |r.scenes| && r.interrupt != Some(n) then StoppedAt(n)
        else if r.interrupt.Some? then Interrupted
        else if once then SingleBatch
        else NextBatch
  {
  }

  /** Lines 72-80: submits the scenes in order until Ctrl+C or a scene without a name, and
      runs each submitted scene. */
  method RunSubmitted(cfg: Config, r: Round, stash: StashService, log: ErrorLog)
    returns (n: nat, actions: seq<Action>)
    requires Fits(r)
    modifies stash, log
    ensures n == Submitted(r) && actions == RunActions(cfg, r, n)
    ensures WorldOf(stash, log) == PerformAll(cfg.settings, old(WorldOf(stash, log)), RunCalls(cfg, r, n))
  {
    ghost var w0 := WorldOf(stash, log);
    actions := [];
    n := 0;
    while n < |r.scenes|
      invariant n <= Submitted(r)
      invariant actions == RunActions(cfg, r, n)
      invariant WorldOf(stash, log) == PerformAll(cfg.settings, w0, RunCalls(cfg, r, n))
    {
      if r.interrupt == Some(n) {
        break;
      }
      var scene := r.scenes[n];
      if |scene.files| == 0 || DisplayName(scene.files[0].path).None? {
        break;
      }
      SubmittedStep(r, n);
      var ending, acts := ProcessScene(cfg, scene, r.tokens[n], r.outcomes[n], stash, log);
      PerformAllAppend(cfg.settings, w0, RunCalls(cfg, r, n), SceneRun(cfg, r, n).calls);
      actions := actions + acts;
      n := n + 1;
    }
    SubmittedStop(r, n);
  }

  lemma SubmittedStep(r: Round, i: nat)
    requires Fits(r) && i < |r.scenes| && r.interrupt != Some(i) && i <= Submitted(r) && !Unnamed(r.scenes[i])
    ensures i + 1 <= Submitted(r)
  {
  }

  lemma SubmittedStop(r: Round, i: nat)
    requires Fits(r) && i <= |r.scenes| && i <= Submitted(r)
    requires i == |r.scenes| || r.interrupt == Some(i) || Unnamed(r.scenes[i])
    ensures i == Submitted(r)
  {
  }

  /** Lines 66-70. */
  method ClaimAll(cfg: Config, r: Round, stash: StashService, log: ErrorLog)
    requires Fits(r)
    modifies stash
    ensures WorldOf(stash, log) == PerformAll(cfg.settings, old(WorldOf(stash, log)), Claims(r, |r.scenes|))
  {
    ghost var w0 := WorldOf(stash, log);
    var i := 0;
    while i < |r.scenes|
      invariant 0 <= i <= |r.scenes|
      invariant WorldOf(stash, log) == PerformAll(cfg.settings, w0, Claims(r, i))
    {
      ClaimOne(cfg, r, i, stash, log);
      PerformAllAppend(cfg.settings, w0, Claims(r, i), ClaimStep(r, i));
      i := i + 1;
    }
  }

  /** The claim of scene i, or nothing when its request raised. */
  function ClaimStep(r: Round, i: nat): (cs: seq<Call>)
    requires Fits(r) && i < |r.scenes|
    ensures Claims(r, i + 1) == Claims(r, i) + cs
  {
    if r.claimRaises[i] then [] else [Claim(r.scenes[i].id)]
  }

  method ClaimOne(cfg: Config, r: Round, i: nat, stash: StashService, log: ErrorLog)
    requires Fits(r) && i < |r.scenes|
    modifies stash
    ensures WorldOf(stash, log) == PerformAll(cfg.settings, old(WorldOf(stash, log)), ClaimStep(r, i))
  {
    ghost var before := WorldOf(stash, log);
    if !r.claimRaises[i] {
      var c := Claim(r.scenes[i].id);
      ClaimScene(cfg.settings, stash, r.scenes[i].id);
      PerformQuiet(cfg.settings, before, c);
      PerformAllOne(cfg.settings, before, c);
    }
  }

  // ---------------------------------------------------------------- the loop

  /** The loop of lines 53-94 over the rounds the model is given: the world, the local disk
      and how the loop ended (`NextBatch` when the given rounds ran out). */
  function Loop(cfg: Config, once: bool, w: World, s: Store, rounds: seq<Round>): (World, Store, BatchEnd)
    requires forall i :: 0 <= i < |rounds| ==> Fits(rounds[i])
    decreases |rounds|
  {
    if rounds == [] then (w, s, NextBatch)
    else
      var next := PerformAll(cfg.settings, w, RoundCalls(cfg, rounds[0]));
      var e := RoundEnd(once, rounds[0]);
      if e.NextBatch? then Loop(cfg, once, next, Cleaned(s), rounds[1..])
      else (next, Cleaned(s), e)
  }

  /** The local actions of the submitted scenes' runs, round after round, up to and
      including the round that ends the loop. */
  function LoopActions(cfg: Config, once: bool, rounds: seq<Round>): seq<Action>
    requires forall i :: 0 <= i < |rounds| ==> Fits(rounds[i])
    decreases |rounds|
  {
    if rounds == [] then []
    else
      var acts := RunActions(cfg, rounds[0], Submitted(rounds[0]));
      if RoundEnd(once, rounds[0]).NextBatch? then acts + LoopActions(cfg, once, rounds[1..]) else acts
  }

  /** Under `--once` the loop stops after its first round. */
  lemma OnceRunsOneRound(cfg: Config, w: World, s: Store, rounds: seq<Round>)
    requires |rounds| > 0 && forall i :: 0 <= i < |rounds| ==> Fits(rounds[i])
    ensures Loop(cfg, true, w, s, rounds)
         == (PerformAll(cfg.settings, w, RoundCalls(cfg, rounds[0])), Cleaned(s), RoundEnd(true, rounds[0]))
    ensures LoopActions(cfg, true, rounds) == RunActions(cfg, rounds[0], Submitted(rounds[0]))
  {
  }

  /** Under dry run the loop leaves the library and the error log as they were. */
  lemma {:induction false} DryRunLoop(cfg: Config, once: bool, w: World, s: Store, rounds: seq<Round>)
    requires cfg.settings.dryRun && forall i :: 0 <= i < |rounds| ==> Fits(rounds[i])
    ensures Loop(cfg, once, w, s, rounds).0 == w
    decreases |rounds|
  {
    if rounds != [] {
      DryRunChangesNothing(cfg.settings, w, RoundCalls(cfg, rounds[0]));
      DryRunLoop(cfg, once, w, Cleaned(s), rounds[1..]);
    }
  }

  /** The loop's own cleaning touches no file and removes only scratch directories; what
      the workers write is in the rounds' actions (`LoopActions`). */
  lemma {:induction false} LoopDisk(cfg: Config, once: bool, w: World, s: Store, rounds: seq<Round>)
    requires forall i :: 0 <= i < |rounds| ==> Fits(rounds[i])
    ensures Loop(cfg, once, w, s, rounds).1.files == s.files
    ensures forall d :: d in s.dirs && !(IsTempName(d) && '/' !in d) ==>
      d in Loop(cfg, once, w, s, rounds).1.dirs && Loop(cfg, once, w, s, rounds).1.dirs[d] == s.dirs[d]
    ensures forall d :: d in Loop(cfg, once, w, s, rounds).1.dirs ==> d in s.dirs
    decreases |rounds|
  {
    if rounds != [] {
      CleanedExactly(s);
      var next := PerformAll(cfg.settings, w, RoundCalls(cfg, rounds[0]));
      LoopDisk(cfg, once, next, Cleaned(s), rounds[1..]);
    }
  }

  /** Under dry run a scene's run only makes the cover scratch directory. */
  lemma DryRunSceneRun(cfg: Config, r: Round, i: nat)
    requires cfg.settings.dryRun && Fits(r) && i < |r.scenes|
    ensures forall j :: 0 <= j < |SceneRun(cfg, r, i).actions| ==> SceneRun(cfg, r, i).actions[j].MakeDir?
  {
    DryRunTouchesNothing(cfg, r.scenes[i], r.tokens[i], r.outcomes[i], World(Library(map[], map[], map[]), ""));
  }

  /** Under dry run the runs of a round only make cover scratch directories. */
  lemma {:induction false} DryRunActions(cfg: Config, r: Round, k: nat)
    requires cfg.settings.dryRun && Fits(r) && k <= |r.scenes|
    ensures forall j :: 0 <= j < |RunActions(cfg, r, k)| ==> RunActions(cfg, r, k)[j].MakeDir?
  {
    if k > 0 {
      DryRunActions(cfg, r, k - 1);
      DryRunSceneRun(cfg, r, k - 1);
    }
  }

  /** Under dry run no tool runs and no generator is called in any round of the loop: the
      only local actions are the cover scratch directories. */
  lemma {:induction false} DryRunLoopActions(cfg: Config, once: bool, rounds: seq<Round>)
    requires cfg.settings.dryRun && forall i :: 0 <= i < |rounds| ==> Fits(rounds[i])
    ensures forall a :: a in LoopActions(cfg, once, rounds) ==> a.MakeDir?
    decreases |rounds|
  {
    if rounds != [] {
      DryRunActions(cfg, rounds[0], Submitted(rounds[0]));
      DryRunLoopActions(cfg, once, rounds[1..]);
    }
  }

  method RunBatches(cfg: Config, once: bool, rounds: seq<Round>, stash: StashService, log: ErrorLog, fs: FileSystem)
    returns (end: BatchEnd)
    requires forall i :: 0 <= i < |rounds| ==> Fits(rounds[i])
    modifies stash, log, fs
    ensures (WorldOf(stash, log), fs.State(), end)
         == Loop(cfg, once, old(WorldOf(stash, log)), old(fs.State()), rounds)
  {
    ghost var goal := Loop(cfg, once, WorldOf(stash, log), fs.State(), rounds);
    var b := 0;
    while b < |rounds|
      invariant 0 <= b <= |rounds|
      invariant goal == Loop(cfg, once, WorldOf(stash, log), fs.State(), rounds[b..])
    {
      assert rounds[b..][1..] == rounds[b + 1..];
      CleanTempDirs(fs);
      var e, _ := RunRound(cfg, once, rounds[b], stash, log);
      if !e.NextBatch? {
        return e;
      }
      b := b + 1;
    }
    return NextBatch;
  }

  /** `main()`, with the corrected reading of the configuration: the workers see the values
      the command line left in the configuration module. */
  method MainLoop(platformIsWindows: bool, args: Args, rounds: seq<Round>,
                  stash: StashService, log: ErrorLog, fs: FileSystem)
    returns (end: BatchEnd)
    requires forall i :: 0 <= i < |rounds| ==> Fits(rounds[i])
    modifies stash, log, fs
    ensures var f := Applied(Defaults(platformIsWindows), args);
      (WorldOf(stash, log), fs.State(), end)
      == Loop(WorkerConfig(platformIsWindows, f), args.switches.once, old(WorldOf(stash, log)), old(fs.State()), rounds)
  {
    var config := new Globals(platformIsWindows);
    config.ApplyCliArgs(args);
    var cfg := WorkerConfig(platformIsWindows, config.Values());
    var once := config.once;
    end := RunBatches(cfg, once, rounds, stash, log, fs);
  }

  /** With the corrected reading, `--dry-run` keeps the whole loop away from the library and
      the error log. */
  lemma DryRunFlagHonoured(windows: bool, a: Args, w: World, s: Store, rounds: seq<Round>)
    requires a.switches.dryRun && forall i :: 0 <= i < |rounds| ==> Fits(rounds[i])
    ensures Loop(WorkerConfig(windows, Applied(Defaults(windows), a)), a.switches.once, w, s, rounds).0 == w
    ensures forall x :: x in LoopActions(WorkerConfig(windows, Applied(Defaults(windows), a)), a.switches.once, rounds) ==> x.MakeDir?
  {
    DryRunLoop(WorkerConfig(windows, Applied(Defaults(windows), a)), a.switches.once, w, s, rounds);
    DryRunLoopActions(WorkerConfig(windows, Applied(Defaults(windows), a)), a.switches.once, rounds);
  }
}
