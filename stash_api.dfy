/** The remote media library ("Stash") as the worker sees it: per-scene tag sets, per-file
    fingerprint lists and per-scene cover images, changed only through the four mutation
    requests the worker sends. The GraphQL client itself is not modelled. */
module StashApi {

  /** A typed content identifier on a file record (`{type, value}`). */
  datatype Fingerprint = Fingerprint(kind: string, value: string)

  /** The library state the worker reads and writes, keyed by scene and file IDs. */
  datatype Library = Library(
    tags: map<string, set<nat>>,
    fingerprints: map<string, seq<Fingerprint>>,
    covers: map<string, string>)

  /** A scene that has never been tagged has no tags. */
  function TagsOf(lib: Library, scene: string): set<nat> {
    if scene in lib.tags then lib.tags[scene] else {}
  }

  /** One request sent to the service. */
  datatype Mutation =
      /** `update_scenes` with `tag_ids` in mode ADD */
    | AddTag(scene: string, tag: nat)
      /** `update_scenes` with `tag_ids` in mode REMOVE */
    | RemoveTag(scene: string, tag: nat)
      /** `file_set_fingerprints`: the file's fingerprint list is replaced */
    | SetFingerprints(file: string, fingerprints: seq<Fingerprint>)
      /** `update_scene` with a `cover_image`; `accepted` is the service's (truthy) answer */
    | SetCover(scene: string, image: string, accepted: bool)

  /** The effect of one request: only the addressed scene's tags, file's fingerprints or
      scene's cover change. ADD and REMOVE are set operations, so repeating them is harmless. */
  function Apply(lib: Library, m: Mutation): (r: Library)
    ensures m.AddTag? ==> TagsOf(r, m.scene) == TagsOf(lib, m.scene) + {m.tag}
    ensures m.RemoveTag? ==> TagsOf(r, m.scene) == TagsOf(lib, m.scene) - {m.tag}
    ensures forall s :: (m.AddTag? || m.RemoveTag?) && s != m.scene ==> TagsOf(r, s) == TagsOf(lib, s)
    ensures !(m.AddTag? || m.RemoveTag?) ==> r.tags == lib.tags
    ensures m.SetFingerprints? ==> m.file in r.fingerprints && r.fingerprints[m.file] == m.fingerprints
    ensures m.SetFingerprints? ==> forall f :: f != m.file ==>
      (f in r.fingerprints <==> f in lib.fingerprints) && (f in lib.fingerprints ==> r.fingerprints[f] == lib.fingerprints[f])
    ensures !m.SetFingerprints? ==> r.fingerprints == lib.fingerprints
    ensures m.SetCover? && m.accepted ==> m.scene in r.covers && r.covers[m.scene] == m.image
    ensures m.SetCover? ==> forall t :: t != m.scene ==>
      (t in r.covers <==> t in lib.covers) && (t in lib.covers ==> r.covers[t] == lib.covers[t])
    ensures !(m.SetCover? && m.accepted) ==> r.covers == lib.covers
  {
    match m
    case AddTag(s, t) => lib.(tags := lib.tags[s := TagsOf(lib, s) + {t}])
    case RemoveTag(s, t) => lib.(tags := lib.tags[s := TagsOf(lib, s) - {t}])
    case SetFingerprints(f, fps) => lib.(fingerprints := lib.fingerprints[f := fps])
    case SetCover(s, image, accepted) => if accepted then lib.(covers := lib.covers[s := image]) else lib
  }

  /** Requests applied in the order they were sent. */
  function ApplyAll(lib: Library, ms: seq<Mutation>): Library
    decreases |ms|
  {
    if ms == [] then lib else Apply(ApplyAll(lib, ms[..|ms| - 1]), ms[|ms| - 1])
  }

  lemma ApplyAllOne(lib: Library, m: Mutation)
    ensures ApplyAll(lib, [m]) == Apply(lib, m)
  {
    assert [m][..0] == [];
  }

  lemma ApplyAllTwo(lib: Library, m: Mutation, n: Mutation)
    ensures ApplyAll(lib, [m, n]) == Apply(Apply(lib, m), n)
  {
    assert [m, n][..1] == [m];
    ApplyAllOne(lib, m);
  }

  lemma {:induction false} ApplyAllAppend(lib: Library, a: seq<Mutation>, b: seq<Mutation>)
    ensures ApplyAll(lib, a + b) == ApplyAll(ApplyAll(lib, a), b)
    decreases |b|
  {
    if b == [] {
      assert a + b == a;
    } else {
      assert (a + b)[..|a + b| - 1] == a + b[..|b| - 1];
      ApplyAllAppend(lib, a, b[..|b| - 1]);
    }
  }

  /** A batch of requests that never addresses `scene` leaves its tags alone. */
  lemma {:induction false} ApplyAllOtherScene(lib: Library, ms: seq<Mutation>, scene: string)
    requires forall i :: 0 <= i < |ms| ==> !((ms[i].AddTag? || ms[i].RemoveTag?) && ms[i].scene == scene)
    ensures TagsOf(ApplyAll(lib, ms), scene) == TagsOf(lib, scene)
    decreases |ms|
  {
    if ms != [] {
      ApplyAllOtherScene(lib, ms[..|ms| - 1], scene);
    }
  }

  /** The service, holding the library state that the requests change. */
  class StashService {
    var tags: map<string, set<nat>>
    var fingerprints: map<string, seq<Fingerprint>>
    var covers: map<string, string>

    function State(): Library
      reads this
    {
      Library(tags, fingerprints, covers)
    }

    constructor (initial: Library)
      ensures State() == initial
    {
      tags, fingerprints, covers := initial.tags, initial.fingerprints, initial.covers;
    }

    method AddTag(scene: string, tag: nat)
      modifies this
      ensures State() == Apply(old(State()), Mutation.AddTag(scene, tag))
    {
      tags := tags[scene := TagsOf(State(), scene) + {tag}];
    }

    method RemoveTag(scene: string, tag: nat)
      modifies this
      ensures State() == Apply(old(State()), Mutation.RemoveTag(scene, tag))
    {
      tags := tags[scene := TagsOf(State(), scene) - {tag}];
    }

    method SetFingerprints(file: string, fps: seq<Fingerprint>)
      modifies this
      ensures State() == Apply(old(State()), Mutation.SetFingerprints(file, fps))
    {
      fingerprints := fingerprints[file := fps];
    }

    /** `update_scene({"id": scene, "cover_image": image})`; what the service answers is
        not visible to the model, so it is an input. */
    method UpdateScene(scene: string, image: string, accepted: bool) returns (result: bool)
      modifies this
      ensures result == accepted
      ensures State() == Apply(old(State()), SetCover(scene, image, accepted))
    {
      if accepted {
        covers := covers[scene := image];
      }
      result := accepted;
    }
  }
}
