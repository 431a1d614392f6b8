/** The local files the generators and the batch loop create and delete. Scratch
    directories (`screenshots_<key>`, `cover_temp_<key>`, ...) are kept by path with their
    files by name; every other file is kept by its full path. What a file holds is described
    by what produced it, since the images and videos themselves are not modelled. */
module Disk {
  import opened Strings

  /** A picture placed in a mosaic with its top-left corner at (x, y). */
  datatype Placed = Placed(x: int, y: int, picture: Content)

  datatype Content =
      /** a text file */
    | Text(text: string)
      /** one frame of `video` grabbed at second `at`, scaled to width x height */
    | Still(video: string, at: real, width: int, height: int)
      /** a width x height image with pictures pasted into it, in paste order */
    | Mosaic(width: int, height: int, tiles: seq<Placed>)
      /** `length` seconds of `video` from second `start`, with or without its audio */
    | Clip(video: string, start: real, length: int, audio: bool)
      /** clips joined end to end, with or without audio */
    | Movie(parts: seq<Content>, audio: bool)

  datatype Store = Store(files: map<string, Content>, dirs: map<string, map<string, Content>>)

  predicate Exists(s: Store, path: string) {
    path in s.files || path in s.dirs
  }

  /** `shutil.rmtree`: the directory and everything in it. */
  function WithoutDir(s: Store, dir: string): (r: Store)
    ensures dir !in r.dirs && r.files == s.files
    ensures forall d :: d != dir ==> (d in r.dirs <==> d in s.dirs)
    ensures forall d :: d != dir && d in s.dirs ==> r.dirs[d] == s.dirs[d]
  {
    s.(dirs := s.dirs - {dir})
  }

  /** `os.remove` of a file. */
  function WithoutFile(s: Store, path: string): (r: Store)
    ensures path !in r.files && r.dirs == s.dirs
    ensures forall p :: p != path ==> (p in r.files <==> p in s.files)
    ensures forall p :: p != path && p in s.files ==> r.files[p] == s.files[p]
  {
    s.(files := s.files - {path})
  }

  /** `os.makedirs(dir, exist_ok=True)`: an existing directory keeps its files. */
  function WithDir(s: Store, dir: string): (r: Store)
    ensures dir in r.dirs && r.files == s.files
    ensures dir in s.dirs ==> r == s
    ensures dir !in s.dirs ==> r.dirs[dir] == map[]
    ensures forall d :: d != dir ==> (d in r.dirs <==> d in s.dirs)
    ensures forall d :: d != dir && d in s.dirs ==> r.dirs[d] == s.dirs[d]
  {
    if dir in s.dirs then s else s.(dirs := s.dirs[dir := map[]])
  }

  /** Creating or overwriting a file outside the scratch directories. */
  function WithFile(s: Store, path: string, c: Content): (r: Store)
    ensures path in r.files && r.files[path] == c && r.dirs == s.dirs
    ensures forall p :: p != path ==> (p in r.files <==> p in s.files)
    ensures forall p :: p != path && p in s.files ==> r.files[p] == s.files[p]
  {
    s.(files := s.files[path := c])
  }

  /** Creating or overwriting the file `name` inside the scratch directory `dir`. */
  function WithFileIn(s: Store, dir: string, name: string, c: Content): (r: Store)
    requires dir in s.dirs
    ensures dir in r.dirs && name in r.dirs[dir] && r.dirs[dir][name] == c && r.files == s.files
    ensures forall n :: n != name ==> (n in r.dirs[dir] <==> n in s.dirs[dir])
    ensures forall n :: n != name && n in s.dirs[dir] ==> r.dirs[dir][n] == s.dirs[dir][n]
    ensures forall d :: d != dir ==> (d in r.dirs <==> d in s.dirs)
    ensures forall d :: d != dir && d in s.dirs ==> r.dirs[d] == s.dirs[d]
  {
    s.(dirs := s.dirs[dir := s.dirs[dir][name := c]])
  }

  /** `os.remove` of the file `name` inside the scratch directory `dir`. */
  function WithoutFileIn(s: Store, dir: string, name: string): (r: Store)
    requires dir in s.dirs
    ensures dir in r.dirs && name !in r.dirs[dir] && r.files == s.files
    ensures forall n :: n != name ==> (n in r.dirs[dir] <==> n in s.dirs[dir])
    ensures forall n :: n != name && n in s.dirs[dir] ==> r.dirs[dir][n] == s.dirs[dir][n]
    ensures forall d :: d != dir ==> (d in r.dirs <==> d in s.dirs)
    ensures forall d :: d != dir && d in s.dirs ==> r.dirs[d] == s.dirs[d]
  {
    s.(dirs := s.dirs[dir := s.dirs[dir] - {name}])
  }

  /** Writing a key that is then dropped leaves what dropping it alone would have left. */
  lemma UpdateOutside<V>(m: map<string, V>, k: string, v: V, ks: set<string>)
    requires k in ks
    ensures m[k := v] - ks == m - ks
  {
  }

  /** Writing a key overrides whatever it held, or its absence. */
  lemma Overwritten<V>(m: map<string, V>, k: string, v: V, w: V)
    ensures (m - {k})[k := v] == m[k := v] && m[k := w][k := v] == m[k := v]
  {
  }

  /** Two maps that agree away from `x` agree away from any set of keys holding `x`. */
  lemma SameOutside<V>(a: map<string, V>, b: map<string, V>, x: string, ks: set<string>)
    requires x in ks && a - {x} == b - {x}
    ensures a - ks == b - ks
  {
    forall p | p !in ks
      ensures (p in a <==> p in b) && (p in a ==> a[p] == b[p])
    {
      assert p in a <==> p in a - {x};
      assert p in b <==> p in b - {x};
      if p in a {
        assert (a - {x})[p] == a[p];
        assert (b - {x})[p] == b[p];
      }
    }
  }

  /** `listing` is what `os.listdir` may return for a directory holding `names`: each name
      once, in some order. */
  predicate IsListing(listing: seq<string>, names: set<string>) {
    NoDuplicates(listing)
    && (forall n :: n in listing ==> n in names) && (forall n :: n in names ==> n in listing)
  }

  /** The entries of the working directory: the files and directories whose path names no
      other directory. */
  function Cwd(s: Store): (r: set<string>)
    ensures forall n :: n in r <==> (n in s.files || n in s.dirs) && '/' !in n
  {
    set n | n in s.files.Keys + s.dirs.Keys && '/' !in n
  }

  /** What the named files hold, in the order of the names. */
  function ContentsOf(dir: map<string, Content>, names: seq<string>): (r: seq<Content>)
    requires forall n :: n in names ==> n in dir
    ensures |r| == |names| && forall i :: 0 <= i < |r| ==> r[i] == dir[names[i]]
  {
    seq(|names|, i requires 0 <= i < |names| => dir[names[i]])
  }

  /** The file system, changed in place by the generators. */
  class FileSystem {
    var files: map<string, Content>
    var dirs: map<string, map<string, Content>>

    function State(): Store
      reads this
    {
      Store(files, dirs)
    }

    constructor (initial: Store)
      ensures State() == initial
    {
      files, dirs := initial.files, initial.dirs;
    }

    method RemoveTree(dir: string)
      modifies this
      ensures State() == WithoutDir(old(State()), dir)
    {
      dirs := dirs - {dir};
    }

    method Remove(path: string)
      modifies this
      ensures State() == WithoutFile(old(State()), path)
    {
      files := files - {path};
    }

    method MakeDirs(dir: string)
      modifies this
      ensures State() == WithDir(old(State()), dir)
    {
      if dir !in dirs {
        dirs := dirs[dir := map[]];
      }
    }

    method Write(path: string, c: Content)
      modifies this
      ensures State() == WithFile(old(State()), path, c)
    {
      files := files[path := c];
    }

    /** `os.listdir(dir)`: each name once, in an order the model leaves open. */
    method ListDir(dir: string) returns (listing: seq<string>)
      requires dir in dirs
      ensures IsListing(listing, dirs[dir].Keys)
    {
      var rest := dirs[dir].Keys;
      listing := [];
      while rest != {}
        invariant rest <= dirs[dir].Keys
        invariant NoDuplicates(listing)
        invariant forall n :: n in listing ==> n in dirs[dir].Keys && n !in rest
        invariant forall n :: n in dirs[dir].Keys ==> n in listing || n in rest
        decreases |rest|
      {
        var n :| n in rest;
        listing := listing + [n];
        rest := rest - {n};
      }
    }

    /** `os.listdir()` of the working directory. */
    method ListCwd() returns (listing: seq<string>)
      ensures IsListing(listing, Cwd(State()))
    {
      var rest := Cwd(State());
      listing := [];
      while rest != {}
        invariant rest <= Cwd(State())
        invariant NoDuplicates(listing)
        invariant forall n :: n in listing ==> n in Cwd(State()) && n !in rest
        invariant forall n :: n in Cwd(State()) ==> n in listing || n in rest
        decreases |rest|
      {
        var n :| n in rest;
        listing := listing + [n];
        rest := rest - {n};
      }
    }

    method RemoveIn(dir: string, name: string)
      requires dir in dirs
      modifies this
      ensures State() == WithoutFileIn(old(State()), dir, name)
    {
      dirs := dirs[dir := dirs[dir] - {name}];
    }

    method WriteIn(dir: string, name: string, c: Content)
      requires dir in dirs
      modifies this
      ensures State() == WithFileIn(old(State()), dir, name, c)
    {
      dirs := dirs[dir := dirs[dir][name := c]];
    }
  }
}
