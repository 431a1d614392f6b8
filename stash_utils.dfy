/** The worker's wrappers around the service (helpers/stash_utils.py): claiming, releasing
    and error-tagging a scene, storing a perceptual hash and a cover. Each honours the
    dry-run flag by doing nothing, and error tagging also appends to the local error log. */
module StashUtils {
  import opened StashApi

  /** The configuration the wrappers read: the dry-run flag and the three workflow tags. */
  datatype Settings = Settings(dryRun: bool, hashingTag: nat, hashingErrorTag: nat, coverErrorTag: nat)

  /** The tag IDs of the shipped configuration. */
  const HASHING_TAG: nat := 15015
  const HASHING_ERROR_TAG: nat := 15018
  const COVER_ERROR_TAG: nat := 15019

  /** One call of a wrapper. */
  datatype Call =
    | Claim(scene: string)
    | Release(scene: string)
    | TagError(scene: string, tag: nat, message: string)
    | UpdatePhash(file: string, phash: string)
    | UpdateCover(scene: string, image: string, accepted: bool)

  /** The requests a wrapper call sends: none at all under dry run. */
  function Requests(st: Settings, c: Call): (ms: seq<Mutation>)
    ensures st.dryRun ==> ms == []
    ensures !st.dryRun ==> |ms| >= 1
  {
    if st.dryRun then []
    else
      match c
      case Claim(s) => [AddTag(s, st.hashingTag)]
      case Release(s) => [RemoveTag(s, st.hashingTag)]
      case TagError(s, t, _) => [AddTag(s, t), RemoveTag(s, st.hashingTag)]
      case UpdatePhash(f, p) => [SetFingerprints(f, [Fingerprint("phash", p)])]
      case UpdateCover(s, image, accepted) => [SetCover(s, image, accepted)]
  }

  /** The line `tag_scene_error` appends to `error_log.txt`. */
  function LogLine(scene: string, message: string): string {
    "Scene " + scene + ": " + message + "\n"
  }

  /** What a call appends to the error log: a line for an error tag with a non-empty message,
      outside dry run, and nothing otherwise. */
  function LogAppend(st: Settings, c: Call): string {
    if !st.dryRun && c.TagError? && c.message != "" then LogLine(c.scene, c.message) else ""
  }

  /** The library together with the contents of the local error log. */
  datatype World = World(library: Library, log: string)

  function Perform(st: Settings, w: World, c: Call): World {
    World(ApplyAll(w.library, Requests(st, c)), w.log + LogAppend(st, c))
  }

  function PerformAll(st: Settings, w: World, cs: seq<Call>): World
    decreases |cs|
  {
    if cs == [] then w else Perform(st, PerformAll(st, w, cs[..|cs| - 1]), cs[|cs| - 1])
  }

  lemma {:induction false} PerformAllAppend(st: Settings, w: World, a: seq<Call>, b: seq<Call>)
    ensures PerformAll(st, w, a + b) == PerformAll(st, PerformAll(st, w, a), b)
    decreases |b|
  {
    if b == [] {
      assert a + b == a;
    } else {
      assert (a + b)[..|a + b| - 1] == a + b[..|b| - 1];
      PerformAllAppend(st, w, a, b[..|b| - 1]);
    }
  }

  lemma PerformAllOne(st: Settings, w: World, c: Call)
    ensures PerformAll(st, w, [c]) == Perform(st, w, c)
  {
    assert [c][..0] == [];
  }

  lemma PerformAllSnoc(st: Settings, w: World, cs: seq<Call>, c: Call)
    ensures PerformAll(st, w, cs + [c]) == Perform(st, PerformAll(st, w, cs), c)
  {
    assert (cs + [c])[..|cs + [c]| - 1] == cs;
  }

  /** Only an error tag writes to the log. */
  lemma PerformQuiet(st: Settings, w: World, c: Call)
    requires !c.TagError?
    ensures Perform(st, w, c) == World(ApplyAll(w.library, Requests(st, c)), w.log)
  {
    assert w.log + LogAppend(st, c) == w.log;
  }

  /** The error tags a sequence of calls attaches. */
  function ErrorTags(cs: seq<Call>): set<nat>
    decreases |cs|
  {
    if cs == [] then {}
    else
      var last := cs[|cs| - 1];
      var rest := ErrorTags(cs[..|cs| - 1]);
      if last.TagError? then rest + {last.tag} else rest
  }

  /** They are exactly the tags of the error-tag calls among them. */
  lemma {:induction false} ErrorTagsMembers(cs: seq<Call>)
    ensures forall t :: t in ErrorTags(cs) <==> exists i :: 0 <= i < |cs| && cs[i].TagError? && cs[i].tag == t
    decreases |cs|
  {
    if cs != [] {
      var init := cs[..|cs| - 1];
      ErrorTagsMembers(init);
      assert forall i :: 0 <= i < |init| ==> init[i] == cs[i];
    }
  }

  lemma {:induction false} ErrorTagsAppend(a: seq<Call>, b: seq<Call>)
    ensures ErrorTags(a + b) == ErrorTags(a) + ErrorTags(b)
    decreases |b|
  {
    if b == [] {
      assert a + b == a;
    } else {
      assert (a + b)[..|a + b| - 1] == a + b[..|b| - 1];
      assert (a + b)[|a + b| - 1] == b[|b| - 1];
      ErrorTagsAppend(a, b[..|b| - 1]);
    }
  }

  /** Every claim, release and error tag in `cs` addresses `scene`. */
  predicate AllAbout(cs: seq<Call>, scene: string) {
    forall i :: 0 <= i < |cs| && (cs[i].Claim? || cs[i].Release? || cs[i].TagError?) ==> cs[i].scene == scene
  }

  /** Only the hashing tag is ever removed, so whatever a sequence of calls does, once the
      hashing tag is discounted the scene holds its old tags plus the error tags attached. */
  lemma {:induction false} TagsModuloHashing(st: Settings, w: World, cs: seq<Call>, scene: string)
    requires !st.dryRun && AllAbout(cs, scene)
    ensures TagsOf(PerformAll(st, w, cs).library, scene) - {st.hashingTag}
         == (TagsOf(w.library, scene) + ErrorTags(cs)) - {st.hashingTag}
    decreases |cs|
  {
    if cs != [] {
      var init := cs[..|cs| - 1];
      var c := cs[|cs| - 1];
      assert AllAbout(init, scene) by {
        forall i | 0 <= i < |init| ensures init[i] == cs[i] { }
      }
      TagsModuloHashing(st, w, init, scene);
      var mid := PerformAll(st, w, init);
      match c
      case Claim(_) => ClaimEffect(st, mid, scene);
      case Release(_) => ReleaseEffect(st, mid, scene);
      case TagError(s, t, m) =>
        assert s == scene;
        TagErrorEffect(st, mid, scene, t, m);
        assert PerformAll(st, w, cs) == Perform(st, mid, c);
        var before := TagsOf(mid.library, scene);
        var h := st.hashingTag;
        assert TagsOf(PerformAll(st, w, cs).library, scene) == before + {t} - {h};
        assert ErrorTags(cs) == ErrorTags(init) + {t};
        assert (before + {t} - {h}) - {h} == (before - {h}) + {t} - {h};
      case UpdatePhash(f, p) => UpdatePhashEffect(st, mid, f, p);
      case UpdateCover(s, image, accepted) =>
        ApplyAllOne(mid.library, SetCover(s, image, accepted));
    }
  }

  /** When the last call removes the hashing tag (a release or an error tag, the two ways a
      scene run ends), the scene ends with exactly its old tags plus the error tags attached,
      minus the hashing tag. */
  lemma FinalTags(st: Settings, w: World, cs: seq<Call>, scene: string)
    requires !st.dryRun && AllAbout(cs, scene) && |cs| > 0
    requires cs[|cs| - 1].Release? || cs[|cs| - 1].TagError?
    ensures TagsOf(PerformAll(st, w, cs).library, scene)
         == (TagsOf(w.library, scene) + ErrorTags(cs)) - {st.hashingTag}
  {
    TagsModuloHashing(st, w, cs, scene);
    var init := cs[..|cs| - 1];
    var c := cs[|cs| - 1];
    var mid := PerformAll(st, w, init);
    assert c.scene == scene;
    if c.Release? {
      ReleaseEffect(st, mid, scene);
    } else {
      TagErrorEffect(st, mid, scene, c.tag, c.message);
    }
  }

  // ------------------------------------------------------------------ what each call does

  /** `claim_scene` adds the hashing tag to that scene and changes nothing else. */
  lemma ClaimEffect(st: Settings, w: World, s: string)
    requires !st.dryRun
    ensures TagsOf(Perform(st, w, Claim(s)).library, s) == TagsOf(w.library, s) + {st.hashingTag}
    ensures forall t :: t != s ==> TagsOf(Perform(st, w, Claim(s)).library, t) == TagsOf(w.library, t)
    ensures Perform(st, w, Claim(s)).library.fingerprints == w.library.fingerprints
    ensures Perform(st, w, Claim(s)).library.covers == w.library.covers
    ensures Perform(st, w, Claim(s)).log == w.log
  {
    ApplyAllOne(w.library, AddTag(s, st.hashingTag));
  }

  /** Claiming is ADD mode, so claiming a second time (the batch loop claims, and then the
      per-scene pipeline claims again) is the same as claiming once. */
  lemma ClaimTwiceIsClaimOnce(st: Settings, w: World, s: string)
    ensures Perform(st, Perform(st, w, Claim(s)), Claim(s)) == Perform(st, w, Claim(s))
  {
    if !st.dryRun {
      ClaimEffect(st, w, s);
      var once := Perform(st, w, Claim(s));
      ClaimEffect(st, once, s);
      var twice := Perform(st, once, Claim(s));
      ApplyAllOne(once.library, AddTag(s, st.hashingTag));
      assert twice.library.tags == once.library.tags[s := TagsOf(once.library, s) + {st.hashingTag}];
      assert s in once.library.tags && once.library.tags[s] == TagsOf(once.library, s) + {st.hashingTag};
    }
  }

  /** `release_scene` removes the hashing tag from that scene and nothing else. */
  lemma ReleaseEffect(st: Settings, w: World, s: string)
    requires !st.dryRun
    ensures TagsOf(Perform(st, w, Release(s)).library, s) == TagsOf(w.library, s) - {st.hashingTag}
    ensures forall t :: t != s ==> TagsOf(Perform(st, w, Release(s)).library, t) == TagsOf(w.library, t)
    ensures Perform(st, w, Release(s)).library.fingerprints == w.library.fingerprints
    ensures Perform(st, w, Release(s)).library.covers == w.library.covers
    ensures Perform(st, w, Release(s)).log == w.log
  {
    ApplyAllOne(w.library, RemoveTag(s, st.hashingTag));
  }

  /** `tag_scene_error` adds the error tag, then removes the hashing tag (so the hashing tag
      is gone even when the two IDs coincide), and logs `Scene {id}: {msg}` only for a
      non-empty message. */
  lemma TagErrorEffect(st: Settings, w: World, s: string, tag: nat, msg: string)
    requires !st.dryRun
    ensures TagsOf(Perform(st, w, TagError(s, tag, msg)).library, s) == TagsOf(w.library, s) + {tag} - {st.hashingTag}
    ensures forall t :: t != s ==> TagsOf(Perform(st, w, TagError(s, tag, msg)).library, t) == TagsOf(w.library, t)
    ensures Perform(st, w, TagError(s, tag, msg)).library.fingerprints == w.library.fingerprints
    ensures Perform(st, w, TagError(s, tag, msg)).library.covers == w.library.covers
    ensures Perform(st, w, TagError(s, tag, msg)).log == if msg == "" then w.log else w.log + LogLine(s, msg)
  {
    ApplyAllTwo(w.library, AddTag(s, tag), RemoveTag(s, st.hashingTag));
  }

  /** `update_phash` submits exactly one fingerprint, of type "phash", holding the value. */
  lemma UpdatePhashEffect(st: Settings, w: World, f: string, p: string)
    requires !st.dryRun
    ensures Requests(st, UpdatePhash(f, p)) == [SetFingerprints(f, [Fingerprint("phash", p)])]
    ensures f in Perform(st, w, UpdatePhash(f, p)).library.fingerprints
    ensures Perform(st, w, UpdatePhash(f, p)).library.fingerprints[f] == [Fingerprint("phash", p)]
    ensures Perform(st, w, UpdatePhash(f, p)).library.tags == w.library.tags
    ensures Perform(st, w, UpdatePhash(f, p)).log == w.log
  {
    ApplyAllOne(w.library, SetFingerprints(f, [Fingerprint("phash", p)]));
  }

  /** Under dry run no wrapper changes the library or the log. */
  lemma {:induction false} DryRunChangesNothing(st: Settings, w: World, cs: seq<Call>)
    requires st.dryRun
    ensures PerformAll(st, w, cs) == w
    decreases |cs|
  {
    if cs != [] {
      DryRunChangesNothing(st, w, cs[..|cs| - 1]);
    }
  }

  // ------------------------------------------------------------------ the wrappers

  /** The local append-only error log `error_log.txt`. */
  class ErrorLog {
    var text: string

    constructor (initial: string)
      ensures text == initial
    {
      text := initial;
    }

    method Append(line: string)
      modifies this
      ensures text == old(text) + line
    {
      text := text + line;
    }
  }

  method TagSceneError(st: Settings, stash: StashService, log: ErrorLog, scene: string, tag: nat, msg: string)
    modifies stash, log
    ensures World(stash.State(), log.text) == Perform(st, old(World(stash.State(), log.text)), TagError(scene, tag, msg))
  {
    if st.dryRun {
      assert LogAppend(st, TagError(scene, tag, msg)) == "";
      return;
    }
    stash.AddTag(scene, tag);
    stash.RemoveTag(scene, st.hashingTag);
    if msg != "" {
      log.Append(LogLine(scene, msg));
    }
    ApplyAllTwo(old(stash.State()), AddTag(scene, tag), RemoveTag(scene, st.hashingTag));
  }

  method ClaimScene(st: Settings, stash: StashService, scene: string)
    modifies stash
    ensures stash.State() == ApplyAll(old(stash.State()), Requests(st, Claim(scene)))
  {
    if st.dryRun {
      return;
    }
    stash.AddTag(scene, st.hashingTag);
    ApplyAllOne(old(stash.State()), AddTag(scene, st.hashingTag));
  }

  method ReleaseScene(st: Settings, stash: StashService, scene: string)
    modifies stash
    ensures stash.State() == ApplyAll(old(stash.State()), Requests(st, Release(scene)))
  {
    if st.dryRun {
      return;
    }
    stash.RemoveTag(scene, st.hashingTag);
    ApplyAllOne(old(stash.State()), RemoveTag(scene, st.hashingTag));
  }

  method UpdatePhashOf(st: Settings, stash: StashService, file: string, phash: string)
    modifies stash
    ensures stash.State() == ApplyAll(old(stash.State()), Requests(st, UpdatePhash(file, phash)))
  {
    if st.dryRun {
      return;
    }
    stash.SetFingerprints(file, [Fingerprint("phash", phash)]);
    ApplyAllOne(old(stash.State()), SetFingerprints(file, [Fingerprint("phash", phash)]));
  }

  /** `update_cover` reports success under dry run without contacting the service, and
      otherwise passes on the service's answer. */
  method UpdateCoverOf(st: Settings, stash: StashService, scene: string, image: string, accepted: bool)
    returns (ok: bool)
    modifies stash
    ensures ok == (st.dryRun || accepted)
    ensures st.dryRun ==> stash.State() == old(stash.State())
    ensures stash.State() == ApplyAll(old(stash.State()), Requests(st, UpdateCover(scene, image, accepted)))
  {
    if st.dryRun {
      return true;
    }
    ok := stash.UpdateScene(scene, image, accepted);
    ApplyAllOne(old(stash.State()), SetCover(scene, image, accepted));
  }
}
