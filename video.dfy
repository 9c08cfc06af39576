/**
 * What `create_video_for_project` computes from a project folder: the scene
 * numbers read off the `scene_*.png` names the folder lists, in ascending
 * order, and for each of them with a narration a clip as long as that
 * narration. Opening a narration to learn its duration is an oracle,
 * `audio`, that fails (`None`) on a file the audio library cannot read.
 */
module Video {
  import opened Wrappers
  import opened Text
  import opened Filenames
  import opened Files
  import opened Sorting
  import opened Lists

  /** Why the video step raises. */
  datatype VideoError =
    | NoFolder                     // `iterdir` on a folder that does not exist
    | BadSceneName(name: string)   // `split("_")[1]` or `int(...)` fails on this image name
    | BadAudio(name: string)       // the narration cannot be opened
    | NoImage(name: string)        // the narration exists but `scene_<n>.png` does not
    | CannotWrite                  // the output video's folder does not exist

  // ---------------------------------------------------------------------
  // Discovering the scene numbers
  // ---------------------------------------------------------------------

  /** An image name the discovery filter keeps but whose number cannot be read. */
  predicate BadName(name: string) {
    IsScenePng(name) && ExtractSceneNumber(name).None?
  }

  /** What one listed name contributes to the comprehension: nothing, its number, or an exception. */
  function ReadName(name: string): Result<seq<int>, VideoError> {
    if !IsScenePng(name) then Ok([])
    else match ExtractSceneNumber(name)
      case None => Err(BadSceneName(name))
      case Some(v) => Ok([v])
  }

  /** The number a listed name contributes when it is readable. */
  function Found(name: string): seq<int> {
    if IsScenePng(name) && ExtractSceneNumber(name).Some? then [ExtractSceneNumber(name).value] else []
  }

  /** The numbers of the readable image names, in listing order. */
  function Numbers(names: seq<string>): seq<int> {
    FlatMap(Found, names)
  }

  /** The generator consumed by `sorted`: it raises on the first unreadable image name. */
  function Discover(names: seq<string>): Result<seq<int>, VideoError> {
    Collect(ReadName, names)
  }

  lemma ReadNameSpec(name: string)
    ensures ReadName(name).Err? <==> BadName(name)
    ensures ReadName(name).Err? ==> ReadName(name).error == BadSceneName(name)
    ensures ReadName(name).Ok? ==> ReadName(name).value == Found(name)
  {
  }

  /**
   * Discovery fails exactly when some listed name passes the filter without
   * a readable number, and then it names the first such name; otherwise it
   * yields every readable number in listing order.
   */
  lemma DiscoverSpec(names: seq<string>)
    ensures Discover(names).Err? <==> exists i :: 0 <= i < |names| && BadName(names[i])
    ensures Discover(names).Err? ==>
              exists i :: 0 <= i < |names| && Discover(names).error == BadSceneName(names[i]) && BadName(names[i])
                          && forall j :: 0 <= j < i ==> !BadName(names[j])
    ensures Discover(names).Ok? ==> Discover(names).value == Numbers(names)
  {
    forall name {
      ReadNameSpec(name);
    }
    CollectFails(ReadName, names);
    CollectValues(ReadName, Found, names);
  }

  /** A number is discovered exactly when some listed image name reads as it. */
  lemma NumbersMembers(names: seq<string>, x: int)
    ensures x in Numbers(names) <==> exists i :: 0 <= i < |names| && IsScenePng(names[i]) && ExtractSceneNumber(names[i]) == Some(x)
  {
    FlatMapMembers(Found, names, x);
  }

  /** Every scene image the media step writes is discovered under its own number. */
  lemma DiscoversSceneImage(names: seq<string>, n: int)
    requires PngName(n) in names
    ensures n in Numbers(names)
  {
    var i :| 0 <= i < |names| && names[i] == PngName(n);
    PngNameIsScenePng(n);
    ExtractPngNameRoundTrip(n);
    NumbersMembers(names, n);
  }

  /** A name occurs once in a listing when it is in the folder, and not at all otherwise. */
  lemma {:induction false} ListingCount(l: seq<string>, x: string)
    requires forall i, j :: 0 <= i < j < |l| ==> l[i] != l[j]
    ensures multiset(l)[x] == if x in l then 1 else 0
    decreases |l|
  {
    if l != [] {
      assert l == [l[0]] + l[1..];
      forall i, j | 0 <= i < j < |l[1..]| ensures l[1..][i] != l[1..][j] {
        assert l[1..][i] == l[i + 1] && l[1..][j] == l[j + 1];
      }
      ListingCount(l[1..], x);
      if x == l[0] {
        assert x !in l[1..] by {
          forall k | 0 <= k < |l[1..]| ensures l[1..][k] != x {
            assert l[1..][k] == l[k + 1];
          }
        }
      }
    }
  }

  /** Two listings of the same folder hold the same names, each once. */
  lemma ListingsAgree(l1: seq<string>, l2: seq<string>, names: set<string>)
    requires IsListing(l1, names) && IsListing(l2, names)
    ensures multiset(l1) == multiset(l2)
  {
    forall x ensures multiset(l1)[x] == multiset(l2)[x] {
      ListingCount(l1, x);
      ListingCount(l2, x);
    }
  }

  // ---------------------------------------------------------------------
  // Planning the clips
  // ---------------------------------------------------------------------

  /**
   * One pass of the clip loop: a number without a narration is skipped; one
   * whose narration cannot be opened, or whose `scene_<n>.png` is missing,
   * raises; otherwise it gives a clip as long as the narration.
   */
  function ClipOf(folder: Folder, audio: Blob -> Option<real>, x: int): Result<seq<Clip>, VideoError> {
    if Mp3Name(x) !in folder then Ok([])
    else match audio(folder[Mp3Name(x)])
      case None => Err(BadAudio(Mp3Name(x)))
      case Some(d) => if PngName(x) !in folder then Err(NoImage(PngName(x))) else Ok([Clip(x, d)])
  }

  function PlanStep(folder: Folder, audio: Blob -> Option<real>): int -> Result<seq<Clip>, VideoError> {
    x => ClipOf(folder, audio, x)
  }

  /** The clips for the sorted numbers, or the exception of the first number that raises. */
  function PlanClips(nums: seq<int>, folder: Folder, audio: Blob -> Option<real>): Result<seq<Clip>, VideoError> {
    Collect(PlanStep(folder, audio), nums)
  }

  /** A scene with a narration that cannot become a clip. */
  predicate Unplayable(folder: Folder, audio: Blob -> Option<real>, x: int) {
    Mp3Name(x) in folder && (audio(folder[Mp3Name(x)]).None? || PngName(x) !in folder)
  }

  function Audible(folder: Folder): int -> seq<int> {
    x => if Mp3Name(x) in folder then [x] else []
  }

  /** The numbers of `nums` that have a narration in the folder, in order. */
  function WithAudio(nums: seq<int>, folder: Folder): seq<int> {
    FlatMap(Audible(folder), nums)
  }

  function ClipValue(folder: Folder, audio: Blob -> Option<real>): int -> seq<Clip> {
    x => if Mp3Name(x) in folder && audio(folder[Mp3Name(x)]).Some? then [Clip(x, audio(folder[Mp3Name(x)]).value)] else []
  }

  function SceneOf(c: Clip): int {
    c.scene
  }

  lemma ClipOfSpec(folder: Folder, audio: Blob -> Option<real>, x: int)
    ensures PlanStep(folder, audio)(x).Err? <==> Unplayable(folder, audio, x)
    ensures PlanStep(folder, audio)(x).Ok? ==> PlanStep(folder, audio)(x).value == ClipValue(folder, audio)(x)
    ensures !Unplayable(folder, audio, x) ==> Map(SceneOf, ClipValue(folder, audio)(x)) == Audible(folder)(x)
  {
  }

  /**
   * Planning fails exactly when some number is unplayable; otherwise there
   * is one clip per number with a narration, in the same order, each lasting
   * as long as its narration.
   */
  lemma PlanClipsSpec(nums: seq<int>, folder: Folder, audio: Blob -> Option<real>)
    ensures PlanClips(nums, folder, audio).Err? <==> exists i :: 0 <= i < |nums| && Unplayable(folder, audio, nums[i])
    ensures PlanClips(nums, folder, audio).Ok? ==>
              var clips := PlanClips(nums, folder, audio).value;
              && Map(SceneOf, clips) == WithAudio(nums, folder)
              && forall c :: c in clips ==> Mp3Name(c.scene) in folder && audio(folder[Mp3Name(c.scene)]) == Some(c.duration)
  {
    var f := PlanStep(folder, audio);
    var g := ClipValue(folder, audio);
    forall x ensures (f(x).Err? <==> Unplayable(folder, audio, x)) && (f(x).Ok? ==> f(x).value == g(x)) {
      ClipOfSpec(folder, audio, x);
    }
    CollectFails(f, nums);
    CollectValues(f, g, nums);
    if PlanClips(nums, folder, audio).Ok? {
      var clips := PlanClips(nums, folder, audio).value;
      forall i | 0 <= i < |nums| ensures Map(SceneOf, g(nums[i])) == Audible(folder)(nums[i]) {
        ClipOfSpec(folder, audio, nums[i]);
      }
      FlatMapProject(g, Audible(folder), SceneOf, nums);
      forall c | c in clips ensures Mp3Name(c.scene) in folder && audio(folder[Mp3Name(c.scene)]) == Some(c.duration) {
        FlatMapMembers(g, nums, c);
      }
    }
  }

  /** The numbers with a narration are exactly those of `nums` whose `scene_<n>.mp3` exists. */
  lemma WithAudioMembers(nums: seq<int>, folder: Folder, x: int)
    ensures x in WithAudio(nums, folder) <==> x in nums && Mp3Name(x) in folder
  {
    FlatMapMembers(Audible(folder), nums, x);
  }

  /** Skipping scenes keeps the ascending order. */
  lemma WithAudioAscending(nums: seq<int>, folder: Folder)
    requires Ascending(nums)
    ensures Ascending(WithAudio(nums, folder))
  {
    FilterAscending(Audible(folder), nums);
  }

  // ---------------------------------------------------------------------
  // The video step as a whole
  // ---------------------------------------------------------------------

  /**
   * The clips of the video, from the folder's listing: discovery, `sorted`,
   * then the plan over every sorted number. An empty plan means no video.
   */
  function VideoClips(listing: seq<string>, folder: Folder, audio: Blob -> Option<real>): Result<seq<Clip>, VideoError> {
    match Discover(listing)
    case Err(e) => Err(e)
    case Ok(nums) => PlanClips(Sort(nums), folder, audio)
  }

  /**
   * When every image name is readable, the video shows, in ascending order,
   * exactly the discovered scenes that have a narration, each for its
   * narration's duration, unless some such scene is unplayable; it is empty
   * exactly when no discovered scene has a narration.
   */
  lemma VideoClipsSpec(listing: seq<string>, folder: Folder, audio: Blob -> Option<real>)
    requires forall i :: 0 <= i < |listing| ==> !BadName(listing[i])
    ensures var nums := Sort(Numbers(listing));
            && (VideoClips(listing, folder, audio).Err? <==> exists i :: 0 <= i < |nums| && Unplayable(folder, audio, nums[i]))
            && (VideoClips(listing, folder, audio).Ok? ==>
                  var clips := VideoClips(listing, folder, audio).value;
                  && Map(SceneOf, clips) == WithAudio(nums, folder)
                  && Ascending(WithAudio(nums, folder))
                  && (forall x :: x in WithAudio(nums, folder) <==> x in Numbers(listing) && Mp3Name(x) in folder)
                  && (forall c :: c in clips ==> Mp3Name(c.scene) in folder && audio(folder[Mp3Name(c.scene)]) == Some(c.duration))
                  && (clips == [] <==> forall x :: x in Numbers(listing) ==> Mp3Name(x) !in folder))
  {
    DiscoverSpec(listing);
    var found := Numbers(listing);
    var nums := Sort(found);
    SortSpec(found);
    PlanClipsSpec(nums, folder, audio);
    WithAudioAscending(nums, folder);
    var w := WithAudio(nums, folder);
    forall x ensures x in w <==> x in found && Mp3Name(x) in folder {
      WithAudioMembers(nums, folder, x);
      assert x in nums <==> x in multiset(nums);
      assert x in found <==> x in multiset(found);
    }
    if VideoClips(listing, folder, audio).Ok? {
      var clips := VideoClips(listing, folder, audio).value;
      assert |clips| == |Map(SceneOf, clips)| == |w|;
      if w != [] {
        assert w[0] in w;
      }
    }
  }

  /**
   * The order in which `iterdir` lists the folder does not matter: discovery
   * fails for both listings or for neither, and when it succeeds the video
   * is the same.
   */
  lemma VideoIgnoresListingOrder(l1: seq<string>, l2: seq<string>, folder: Folder, audio: Blob -> Option<real>)
    requires IsListing(l1, folder.Keys) && IsListing(l2, folder.Keys)
    ensures Discover(l1).Err? <==> Discover(l2).Err?
    ensures Discover(l1).Ok? ==> VideoClips(l1, folder, audio) == VideoClips(l2, folder, audio)
  {
    DiscoverSpec(l1);
    DiscoverSpec(l2);
    if exists i :: 0 <= i < |l1| && BadName(l1[i]) {
      var i :| 0 <= i < |l1| && BadName(l1[i]);
      assert l1[i] in l2;
    }
    if exists i :: 0 <= i < |l2| && BadName(l2[i]) {
      var i :| 0 <= i < |l2| && BadName(l2[i]);
      assert l2[i] in l1;
    }
    if Discover(l1).Ok? {
      ListingsAgree(l1, l2, folder.Keys);
      FlatMapPermutation(Found, l1, l2);
      SortIgnoresOrder(Numbers(l1), Numbers(l2));
    }
  }
}
