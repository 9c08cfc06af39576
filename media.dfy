/**
 * What `generate_images_and_audio` does to the project folder, scene by
 * scene. The image pipeline and the text-to-speech service are oracles:
 * `paint(k, prompt)` says whether the call made for the `k`-th scene of the
 * list succeeds (returns and saves) or raises, and `speak(k, text, voice)`
 * says how that scene's `gTTS(...).save(...)` ends.
 */
module Media {
  import opened Wrappers
  import opened Text
  import opened Filenames
  import opened Files
  import opened SceneParser

  /** `image_prompts.get(n)`. */
  function PromptFor(prompts: map<nat, string>, n: nat): Option<string> {
    if n in prompts then Some(prompts[n]) else None
  }

  /**
   * The image of the `k`-th scene is saved when it has a prompt and the
   * pipeline succeeds on it; the pipeline raises on a missing prompt.
   */
  predicate ImageSaved(prompts: map<nat, string>, paint: (nat, string) -> bool, k: nat, sc: Scene) {
    PromptFor(prompts, sc.scene).Some? && paint(k, PromptFor(prompts, sc.scene).value)
  }

  /**
   * How a text-to-speech call ends. `save` opens the target file before it
   * requests the speech, so a request that fails leaves a file behind.
   */
  datatype Speech =
    | Spoken       // the speech is saved
    | Refused      // `gTTS(...)` raises before any file is opened
    | Interrupted  // `save` raises after it has created the file

  /** The narration file of the `k`-th scene would be created: its stripped description is not empty and synthesis gets as far as opening the file. */
  predicate NarrationSaved(speak: (nat, string, string) -> Speech, voice: string, k: nat, sc: Scene) {
    Trim(sc.description) != [] && speak(k, Trim(sc.description), voice) != Refused
  }

  /** What that file then holds: the narration, or whatever a failed request left in it. */
  function NarrationBlob(speak: (nat, string, string) -> Speech, voice: string, k: nat, sc: Scene): (b: Blob)
    ensures b.Narration? <==> speak(k, Trim(sc.description), voice) == Spoken
    ensures b.Narration? ==> b == Narration(Trim(sc.description), voice)
  {
    if speak(k, Trim(sc.description), voice) == Spoken then Narration(Trim(sc.description), voice) else BrokenNarration
  }

  /** The image half of one pass: the picture of the scene's prompt, when it is saved. */
  function WithImage(files: Folder, prompts: map<nat, string>, paint: (nat, string) -> bool, k: nat, sc: Scene): Folder {
    if ImageSaved(prompts, paint, k, sc) then files[PngName(sc.scene) := Picture(prompts[sc.scene])] else files
  }

  /** The narration half of one pass: the narration file, unless it exists already or is never created. */
  function WithNarration(files: Folder, speak: (nat, string, string) -> Speech, voice: string, k: nat, sc: Scene): Folder {
    if Mp3Name(sc.scene) !in files && NarrationSaved(speak, voice, k, sc) then
      files[Mp3Name(sc.scene) := NarrationBlob(speak, voice, k, sc)]
    else files
  }

  /** One pass of the loop body, for the `k`-th scene, on the folder's files. */
  function SceneStep(files: Folder, prompts: map<nat, string>, paint: (nat, string) -> bool,
                     speak: (nat, string, string) -> Speech, voice: string, k: nat, sc: Scene): Folder
  {
    WithNarration(WithImage(files, prompts, paint, k, sc), speak, voice, k, sc)
  }

  /** The folder's files after the loop has handled the first `n` scenes. */
  function Synthesize(files: Folder, prompts: map<nat, string>, paint: (nat, string) -> bool,
                      speak: (nat, string, string) -> Speech, voice: string, scenes: seq<Scene>, n: nat): Folder
    requires n <= |scenes|
    decreases n
  {
    if n == 0 then files
    else SceneStep(Synthesize(files, prompts, paint, speak, voice, scenes, n - 1), prompts, paint, speak, voice, n - 1, scenes[n - 1])
  }

  /**
   * One pass writes at most the scene's image and its narration, deletes
   * nothing, and rewrites no file other than the image.
   */
  lemma SceneStepFrame(files: Folder, prompts: map<nat, string>, paint: (nat, string) -> bool,
                       speak: (nat, string, string) -> Speech, voice: string, k: nat, sc: Scene)
    ensures var r := SceneStep(files, prompts, paint, speak, voice, k, sc);
            && (forall name :: name in r ==> name in files || name == PngName(sc.scene) || name == Mp3Name(sc.scene))
            && (forall name :: name in files ==> name in r)
            && (forall name :: name in files && name != PngName(sc.scene) ==> r[name] == files[name])
  {
    SceneNamesDistinct(sc.scene, sc.scene);
  }

  /** One pass leaves scene `x`'s image as it was, unless it handles a scene numbered `x` whose image is saved. */
  lemma SceneStepImage(files: Folder, prompts: map<nat, string>, paint: (nat, string) -> bool,
                       speak: (nat, string, string) -> Speech, voice: string, k: nat, sc: Scene, x: nat)
    ensures var r := SceneStep(files, prompts, paint, speak, voice, k, sc);
            && (sc.scene == x && ImageSaved(prompts, paint, k, sc) ==> x in prompts && PngName(x) in r && r[PngName(x)] == Picture(prompts[x]))
            && (!(sc.scene == x && ImageSaved(prompts, paint, k, sc)) ==>
                  (PngName(x) in r <==> PngName(x) in files) && (PngName(x) in files ==> r[PngName(x)] == files[PngName(x)]))
  {
    SceneNamesDistinct(sc.scene, x);
    SceneNamesDistinct(x, sc.scene);
  }

  /** One pass never rewrites scene `x`'s narration, and creates it only for a scene numbered `x` whose narration is saved. */
  lemma SceneStepNarration(files: Folder, prompts: map<nat, string>, paint: (nat, string) -> bool,
                           speak: (nat, string, string) -> Speech, voice: string, k: nat, sc: Scene, x: nat)
    ensures var r := SceneStep(files, prompts, paint, speak, voice, k, sc);
            && (Mp3Name(x) in files ==> Mp3Name(x) in r && r[Mp3Name(x)] == files[Mp3Name(x)])
            && (Mp3Name(x) !in files ==>
                  (Mp3Name(x) in r <==> sc.scene == x && NarrationSaved(speak, voice, k, sc))
                  && (Mp3Name(x) in r ==> r[Mp3Name(x)] == NarrationBlob(speak, voice, k, sc)))
  {
    SceneNamesDistinct(sc.scene, x);
    SceneNamesDistinct(x, sc.scene);
  }

  /** The images and narrations of the first `n` scenes. */
  function SceneFiles(scenes: seq<Scene>, n: nat): set<string>
    requires n <= |scenes|
  {
    if n == 0 then {} else SceneFiles(scenes, n - 1) + {PngName(scenes[n - 1].scene), Mp3Name(scenes[n - 1].scene)}
  }

  /** The images of the first `n` scenes. */
  function SceneImages(scenes: seq<Scene>, n: nat): set<string>
    requires n <= |scenes|
  {
    if n == 0 then {} else SceneImages(scenes, n - 1) + {PngName(scenes[n - 1].scene)}
  }

  /** No narration is among the scene images. */
  lemma {:induction false} NarrationIsNoImage(scenes: seq<Scene>, n: nat, x: int)
    requires n <= |scenes|
    ensures Mp3Name(x) !in SceneImages(scenes, n)
    decreases n
  {
    if n > 0 {
      var y := scenes[n - 1].scene;
      NarrationIsNoImage(scenes, n - 1, x);
      SceneNamesDistinct(y, x);
    }
  }

  /**
   * Only scene images and narrations are written: every file afterwards was
   * there before or is `scene_N.png` or `scene_N.mp3` of a handled scene,
   * nothing is deleted, and a file that is no handled scene's image keeps
   * its content.
   */
  lemma {:induction false} SynthesizeWritesOnlySceneFiles(files: Folder, prompts: map<nat, string>, paint: (nat, string) -> bool,
                                                         speak: (nat, string, string) -> Speech, voice: string, scenes: seq<Scene>, n: nat)
    requires n <= |scenes|
    ensures var r := Synthesize(files, prompts, paint, speak, voice, scenes, n);
            && (forall name :: name in r ==> name in files || name in SceneFiles(scenes, n))
            && (forall name :: name in files ==> name in r)
            && (forall name :: name in files && name !in SceneImages(scenes, n) ==> r[name] == files[name])
    decreases n
  {
    if n > 0 {
      SynthesizeWritesOnlySceneFiles(files, prompts, paint, speak, voice, scenes, n - 1);
      var before := Synthesize(files, prompts, paint, speak, voice, scenes, n - 1);
      SceneStepFrame(before, prompts, paint, speak, voice, n - 1, scenes[n - 1]);
    }
  }

  /** A narration that already exists is never rewritten. */
  lemma SynthesizeKeepsNarration(files: Folder, prompts: map<nat, string>, paint: (nat, string) -> bool,
                                 speak: (nat, string, string) -> Speech, voice: string, scenes: seq<Scene>, x: int)
    requires Mp3Name(x) in files
    ensures var r := Synthesize(files, prompts, paint, speak, voice, scenes, |scenes|);
            Mp3Name(x) in r && r[Mp3Name(x)] == files[Mp3Name(x)]
  {
    SynthesizeWritesOnlySceneFiles(files, prompts, paint, speak, voice, scenes, |scenes|);
    NarrationIsNoImage(scenes, |scenes|, x);
  }

  /** Some scene numbered `x` among the first `n` had its image saved. */
  predicate ImageHit(prompts: map<nat, string>, paint: (nat, string) -> bool, scenes: seq<Scene>, n: nat, x: nat)
    requires n <= |scenes|
  {
    n > 0 && (ImageHit(prompts, paint, scenes, n - 1, x) || (scenes[n - 1].scene == x && ImageSaved(prompts, paint, n - 1, scenes[n - 1])))
  }

  lemma {:induction false} ImageHitMeans(prompts: map<nat, string>, paint: (nat, string) -> bool, scenes: seq<Scene>, n: nat, x: nat)
    requires n <= |scenes|
    ensures ImageHit(prompts, paint, scenes, n, x) <==> exists k :: 0 <= k < n && scenes[k].scene == x && ImageSaved(prompts, paint, k, scenes[k])
    decreases n
  {
    if n > 0 {
      ImageHitMeans(prompts, paint, scenes, n - 1, x);
    }
  }

  /**
   * Scene `x`'s image holds the picture of its prompt as soon as any scene
   * numbered `x` had its image saved, whatever happened to the other
   * scenes; when none did, the image file is as it was.
   */
  lemma {:induction false} SynthesizeImage(files: Folder, prompts: map<nat, string>, paint: (nat, string) -> bool,
                                           speak: (nat, string, string) -> Speech, voice: string, scenes: seq<Scene>, n: nat, x: nat)
    requires n <= |scenes|
    ensures var r := Synthesize(files, prompts, paint, speak, voice, scenes, n);
            && (ImageHit(prompts, paint, scenes, n, x) ==> x in prompts && PngName(x) in r && r[PngName(x)] == Picture(prompts[x]))
            && (!ImageHit(prompts, paint, scenes, n, x) ==>
                  (PngName(x) in r <==> PngName(x) in files) && (PngName(x) in files ==> r[PngName(x)] == files[PngName(x)]))
    decreases n
  {
    if n > 0 {
      SynthesizeImage(files, prompts, paint, speak, voice, scenes, n - 1, x);
      var before := Synthesize(files, prompts, paint, speak, voice, scenes, n - 1);
      SceneStepImage(before, prompts, paint, speak, voice, n - 1, scenes[n - 1], x);
      var hit := scenes[n - 1].scene == x && ImageSaved(prompts, paint, n - 1, scenes[n - 1]);
      assert ImageHit(prompts, paint, scenes, n, x) == (ImageHit(prompts, paint, scenes, n - 1, x) || hit);
    }
  }

  /** The first scene among the first `n` that is numbered `x` and would have its narration saved. */
  function FirstNarration(speak: (nat, string, string) -> Speech, voice: string, scenes: seq<Scene>, n: nat, x: nat): (k: Option<nat>)
    requires n <= |scenes|
    ensures k.Some? ==> k.value < n && scenes[k.value].scene == x && NarrationSaved(speak, voice, k.value, scenes[k.value])
    ensures k.Some? ==> forall j :: 0 <= j < k.value && scenes[j].scene == x ==> !NarrationSaved(speak, voice, j, scenes[j])
    ensures k.None? <==> forall j :: 0 <= j < n && scenes[j].scene == x ==> !NarrationSaved(speak, voice, j, scenes[j])
    decreases n
  {
    if n == 0 then None
    else match FirstNarration(speak, voice, scenes, n - 1, x)
      case Some(k) => Some(k)
      case None => if scenes[n - 1].scene == x && NarrationSaved(speak, voice, n - 1, scenes[n - 1]) then Some(n - 1) else None
  }

  /**
   * A narration missing at the start exists at the end exactly when some
   * scene numbered `x` would have its narration file created; it then holds
   * what synthesis left for the first such scene: its stripped description
   * read in the given voice when that request succeeded.
   */
  lemma {:induction false} SynthesizeNarration(files: Folder, prompts: map<nat, string>, paint: (nat, string) -> bool,
                                               speak: (nat, string, string) -> Speech, voice: string, scenes: seq<Scene>, n: nat, x: nat)
    requires n <= |scenes| && Mp3Name(x) !in files
    ensures var r := Synthesize(files, prompts, paint, speak, voice, scenes, n);
            var first := FirstNarration(speak, voice, scenes, n, x);
            && (Mp3Name(x) in r <==> first.Some?)
            && (first.Some? ==> r[Mp3Name(x)] == NarrationBlob(speak, voice, first.value, scenes[first.value]))
    decreases n
  {
    if n > 0 {
      SynthesizeNarration(files, prompts, paint, speak, voice, scenes, n - 1, x);
      var before := Synthesize(files, prompts, paint, speak, voice, scenes, n - 1);
      SceneStepNarration(before, prompts, paint, speak, voice, n - 1, scenes[n - 1], x);
      var prev := FirstNarration(speak, voice, scenes, n - 1, x);
      var hit := scenes[n - 1].scene == x && NarrationSaved(speak, voice, n - 1, scenes[n - 1]);
      assert FirstNarration(speak, voice, scenes, n, x) == if prev.Some? then prev else if hit then Some(n - 1) else None;
    }
  }
}
