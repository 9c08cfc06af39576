/**
 * The part of the file system the pipeline touches: folders, named by their
 * path, each holding files by name. A file's content is abstracted to what
 * the pipeline put there.
 */
module Files {
  import opened Wrappers

  /** One clip of the final video: the scene it shows and how long it lasts (its narration's duration). */
  datatype Clip = Clip(scene: int, duration: real)

  /** What a file holds. */
  datatype Blob =
    | Picture(prompt: string)              // an image generated from this prompt
    | Narration(text: string, voice: string) // speech synthesised from this text in this language
    | BrokenNarration                     // a narration file left behind by a request that failed while writing it
    | Movie(clips: seq<Clip>)             // the concatenated video of these clips
    | Other(tag: nat)                     // anything else already in a folder

  /** The files of one folder, by name. */
  type Folder = map<string, Blob>

  /** The folders once `mkdir(exist_ok=True)` has run on `path`: an existing folder is left as it is. */
  function Made(dirs: map<string, Folder>, path: string): (r: map<string, Folder>)
    ensures path in r && r.Keys == dirs.Keys + {path}
    ensures forall p :: p in dirs ==> r[p] == dirs[p]
    ensures path !in dirs ==> r[path] == map[]
  {
    if path in dirs then dirs else dirs[path := map[]]
  }

  /** `l` lists every name of `names` exactly once, in some order: what `iterdir` yields. */
  ghost predicate IsListing(l: seq<string>, names: set<string>) {
    (forall i, j :: 0 <= i < j < |l| ==> l[i] != l[j]) && (forall x :: x in l <==> x in names)
  }

  /** The folders the pipeline reads and writes. */
  class FileSystem {
    var dirs: map<string, Folder>

    constructor(dirs: map<string, Folder>)
      ensures this.dirs == dirs
    {
      this.dirs := dirs;
    }

    /** `Path(path).exists()` for a file inside folder `path`. */
    predicate Exists(folder: string, name: string)
      reads this
    {
      folder in dirs && name in dirs[folder]
    }

    /** `mkdir(exist_ok=True)`: an existing folder is left as it is. */
    method Mkdir(path: string)
      modifies this
      ensures dirs == Made(old(dirs), path)
    {
      if path !in dirs {
        dirs := dirs[path := map[]];
      }
    }

    /** Saving a file: it fails, changing nothing, when the folder does not exist; otherwise it creates or replaces the file. */
    method Write(folder: string, name: string, content: Blob) returns (ok: bool)
      modifies this
      ensures ok <==> folder in old(dirs)
      ensures dirs == if ok then old(dirs)[folder := old(dirs)[folder][name := content]] else old(dirs)
    {
      ok := folder in dirs;
      if ok {
        dirs := dirs[folder := dirs[folder][name := content]];
      }
    }

    /** `iterdir()`: the names in the folder, each once, in an order the file system chooses; `None` when the folder does not exist. */
    method List(folder: string) returns (r: Option<seq<string>>)
      ensures r.None? <==> folder !in dirs
      ensures r.Some? ==> IsListing(r.value, dirs[folder].Keys)
    {
      if folder !in dirs {
        return None;
      }
      var rest := dirs[folder].Keys;
      var l: seq<string> := [];
      while rest != {}
        invariant forall i, j :: 0 <= i < j < |l| ==> l[i] != l[j]
        invariant forall x :: x in l ==> x !in rest
        invariant forall x :: x in dirs[folder].Keys <==> x in l || x in rest
        decreases rest
      {
        var x :| x in rest;
        l := l + [x];
        rest := rest - {x};
      }
      return Some(l);
    }
  }
}
