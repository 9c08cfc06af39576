/**
 * The story record `save_story_to_mongo` builds: the `Story` document with
 * its embedded `Scene` documents, and the database it is saved into, kept
 * as the list of documents saved so far.
 */
module Records {
  import opened Wrappers
  import opened Text
  import opened SceneParser

  /** An embedded `Scene` document. */
  datatype SceneDoc = SceneDoc(scene: int, summary: string, description: string)

  /** A `Story` document (its `created_at` timestamp is not modelled). */
  datatype StoryDoc = StoryDoc(
    storyId: string,
    title: string,
    genre: string,
    storyIdea: string,
    rawScenesText: string,
    scenes: seq<SceneDoc>,
    imagePrompts: map<string, string>,
    rawImagePrompts: string,
    folder: string)

  /** Distinct numbers have distinct decimal forms. */
  lemma IntToStringInjective(keys: set<nat>)
    ensures forall a, b :: a in keys && b in keys && IntToString(a) == IntToString(b) ==> a == b
  {
    forall a, b | a in keys && b in keys && IntToString(a) == IntToString(b) ensures a == b {
      ParseIntRoundTrip(a);
      ParseIntRoundTrip(b);
    }
  }

  /** `{str(k): v for k, v in image_prompts.items()}`. */
  function StrKeys(prompts: map<nat, string>): map<string, string> {
    IntToStringInjective(prompts.Keys);
    map k | k in prompts :: IntToString(k) := prompts[k]
  }

  /**
   * Every key `k` is stored as `str(k)` with its value unchanged, nothing
   * else is stored, and `int` reads each stored key back as the number it
   * came from: the conversion loses nothing.
   */
  lemma StrKeysSpec(prompts: map<nat, string>)
    ensures forall k :: k in prompts ==> IntToString(k) in StrKeys(prompts) && StrKeys(prompts)[IntToString(k)] == prompts[k]
    ensures forall s :: s in StrKeys(prompts) ==>
              && ParseInt(s).Some? && 0 <= ParseInt(s).value
              && ParseInt(s).value in prompts && s == IntToString(ParseInt(s).value)
              && StrKeys(prompts)[s] == prompts[ParseInt(s).value]
    ensures |StrKeys(prompts)| == |prompts|
  {
    var r := StrKeys(prompts);
    forall s | s in r
      ensures ParseInt(s).Some? && 0 <= ParseInt(s).value && ParseInt(s).value in prompts && s == IntToString(ParseInt(s).value)
    {
      var k :| k in prompts && s == IntToString(k);
      ParseIntRoundTrip(k);
    }
    IntToStringInjective(prompts.Keys);
    assert r.Keys == set k | k in prompts.Keys :: IntToString(k);
    SizeOfInjectiveImage(prompts.Keys);
  }

  /** The decimal forms of a set of numbers are as many as the numbers. */
  lemma {:induction false} SizeOfInjectiveImage(keys: set<nat>)
    ensures |set k | k in keys :: IntToString(k)| == |keys|
    decreases |keys|
  {
    if keys != {} {
      var x :| x in keys;
      var rest := keys - {x};
      SizeOfInjectiveImage(rest);
      IntToStringInjective(keys);
      assert (set k | k in keys :: IntToString(k)) == (set k | k in rest :: IntToString(k)) + {IntToString(x)};
      assert IntToString(x) !in (set k | k in rest :: IntToString(k));
    }
  }

  /** The embedded scene documents, one per parsed scene, in the same order. */
  function ToSceneDocs(scenes: seq<Scene>): (docs: seq<SceneDoc>)
    ensures |docs| == |scenes|
  {
    seq(|scenes|, i requires 0 <= i < |scenes| => SceneDoc(scenes[i].scene, scenes[i].summary, scenes[i].description))
  }

  /** A scene document read back as a parsed scene. */
  function FromSceneDoc(d: SceneDoc): Option<Scene> {
    if d.scene < 0 then None else Some(Scene(d.scene, d.summary, d.description))
  }

  /** Each document holds exactly the scene at its position: reading the documents back gives the scenes. */
  lemma SceneDocsRoundTrip(scenes: seq<Scene>)
    ensures forall i :: 0 <= i < |scenes| ==> FromSceneDoc(ToSceneDocs(scenes)[i]) == Some(scenes[i])
  {
  }

  /** `str(uuid.uuid4())[:8]`: the canonical text of a UUID is 36 characters long; the id is its first 8. */
  function StoryId(uuidText: string): (id: string)
    requires |uuidText| == 36
    ensures |id| == 8 && uuidText == id + uuidText[8..]
  {
    uuidText[..8]
  }

  /** The database: the documents saved so far, oldest first. */
  class StoryStore {
    var saved: seq<StoryDoc>

    constructor()
      ensures saved == []
    {
      saved := [];
    }

    /** `story_doc.save()`: the document is added; uniqueness of `story_id` is not enforced here. */
    method Save(doc: StoryDoc)
      modifies this
      ensures saved == old(saved) + [doc]
    {
      saved := saved + [doc];
    }
  }
}
