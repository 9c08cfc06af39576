/**
 * The `StoryMaker` pipeline: a story idea, its validation, a title and a
 * scene list from the text backend, image prompts for the scenes, then the
 * record in the database, one image and one narration per scene in the
 * project folder, and the video assembled from them.
 *
 * The outside world is passed in: the text backend (`Ollama`), the file
 * system, the database, speech synthesis (`speak`) and the audio library's
 * reading of a narration's duration (`audio`). The image pipeline is the
 * `pipe` attribute of `StoryMaker`.
 */
module Pipeline {
  import opened Wrappers
  import opened Text
  import opened SceneParser
  import opened Filenames
  import opened Files
  import opened Llm
  import opened Media
  import opened Video
  import opened Records
  import opened Sorting
  import opened Lists

  const OllamaFailure: string := "Failed to get response from Ollama after retries."

  /** The exceptions `create_story` lets through. */
  datatype StoryError =
    | OllamaGaveUp(message: string)   // `query_llama2` ran out of attempts
    | VideoFailed(reason: VideoError) // `create_video_for_project` raised

  /** The dictionary `create_story` returns. */
  datatype StoryReport = StoryReport(
    storyId: string,
    storyFolder: string,
    videoFile: string,
    title: string,
    storyIdea: string,
    validation: string,
    scenes: seq<Scene>,
    imagePrompts: map<nat, string>)

  /** The replies of the five text stages of `create_story`, with the scenes and image prompts parsed from them. */
  datatype Draft = Draft(
    idea: string,
    validation: string,
    title: string,
    rawScenes: string,
    scenes: seq<Scene>,
    imagePrompts: map<nat, string>,
    rawImagePrompts: string)

  /** What `query_llama2` returns, or raises, when the server holds `script`. */
  function Ask(script: seq<Reply>, budget: nat): Result<string, StoryError> {
    match Query(script, budget)
    case Answered(text, _) => Ok(text)
    case GaveUp(_) => Err(OllamaGaveUp(OllamaFailure))
  }

  /** How many requests `query_llama2` sends when the server holds `script`. */
  function Attempts(script: seq<Reply>, budget: nat): nat {
    Query(script, budget).attempts
  }

  /** What a run of text stages did: the requests the server received, the replies it still holds, and the outcome. */
  datatype Run<T> = Run(sent: seq<Prompt>, rest: seq<Reply>, result: Result<T, StoryError>)

  /** One `query_llama2` call for `p` when the server holds `script`. */
  function AskRun(script: seq<Reply>, budget: nat, p: Prompt): Run<string> {
    Run(Repeat(p, Attempts(script, budget)), Drop(script, Attempts(script, budget)), Ask(script, budget))
  }

  /** The validation of `idea`, then its title, asked for only once the validation was answered. */
  function ReviewRun(script: seq<Reply>, budget: nat, genre: string, idea: string): Run<(string, string)> {
    var b := AskRun(script, budget, ValidationPrompt(genre, idea));
    if b.result.Err? then Run(b.sent, b.rest, Err(b.result.error))
    else
      var c := AskRun(b.rest, budget, TitlePrompt(genre, idea));
      if c.result.Err? then Run(b.sent + c.sent, c.rest, Err(c.result.error))
      else Run(b.sent + c.sent, c.rest, Ok((b.result.value, c.result.value)))
  }

  /** The idea, then its validation and the title, each asked for only once the one before was answered. */
  function OutlineRun(script: seq<Reply>, budget: nat, genre: string): Run<(string, string, string)> {
    var a := AskRun(script, budget, IdeaPrompt(genre));
    if a.result.Err? then Run(a.sent, a.rest, Err(a.result.error))
    else
      var v := ReviewRun(a.rest, budget, genre, a.result.value);
      if v.result.Err? then Run(a.sent + v.sent, v.rest, Err(v.result.error))
      else Run(a.sent + v.sent, v.rest, Ok((a.result.value, v.result.value.0, v.result.value.1)))
  }

  /** The image prompts for `scenes`: the reply parsed, kept with the raw reply. */
  function ImagePromptsRun(script: seq<Reply>, budget: nat, genre: string, scenes: seq<Scene>): Run<(map<nat, string>, string)> {
    var a := AskRun(script, budget, ImagePromptsPrompt(genre, DescriptionsText(scenes)));
    if a.result.Err? then Run(a.sent, a.rest, Err(a.result.error))
    else Run(a.sent, a.rest, Ok((ParseImagePrompts(a.result.value), a.result.value)))
  }

  /** The scenes of `idea`, parsed, then the image prompts for them. */
  function BreakdownRun(script: seq<Reply>, budget: nat, genre: string, numScenes: int, idea: string)
    : Run<(string, seq<Scene>, map<nat, string>, string)>
  {
    var a := AskRun(script, budget, ScenesPrompt(genre, numScenes, idea));
    if a.result.Err? then Run(a.sent, a.rest, Err(a.result.error))
    else
      var scenes := ParseScenes(a.result.value);
      var b := ImagePromptsRun(a.rest, budget, genre, scenes);
      if b.result.Err? then Run(a.sent + b.sent, b.rest, Err(b.result.error))
      else Run(a.sent + b.sent, b.rest, Ok((a.result.value, scenes, b.result.value.0, b.result.value.1)))
  }

  /** The five text stages of `create_story`, against the replies the server holds. */
  function TextRun(script: seq<Reply>, budget: nat, genre: string, numScenes: int): Run<Draft> {
    var o := OutlineRun(script, budget, genre);
    if o.result.Err? then Run(o.sent, o.rest, Err(o.result.error))
    else
      var b := BreakdownRun(o.rest, budget, genre, numScenes, o.result.value.0);
      if b.result.Err? then Run(o.sent + b.sent, b.rest, Err(b.result.error))
      else
        var t := b.result.value;
        Run(o.sent + b.sent, b.rest, Ok(Draft(o.result.value.0, o.result.value.1, o.result.value.2, t.0, t.1, t.2, t.3)))
  }

  /**
   * One query sends its request once per attempt and takes one reply per
   * request: at least once and at most `budget` times when answered;
   * exactly `budget` times when it gives up.
   */
  lemma AskRunBounds(script: seq<Reply>, budget: nat, p: Prompt)
    ensures var a := AskRun(script, budget, p);
            && a.sent == Repeat(p, |a.sent|) && a.rest == Drop(script, |a.sent|)
            && (a.result.Ok? ==> 1 <= |a.sent| <= budget)
            && (a.result.Err? ==> |a.sent| == budget && a.result.error == OllamaGaveUp(OllamaFailure))
  {
    QuerySpec(script, budget);
  }

  /** An answered query's text is the answer in the last reply it took, the earlier ones having none. */
  lemma AskRunAnswer(script: seq<Reply>, budget: nat, p: Prompt)
    ensures var a := AskRun(script, budget, p);
            a.result.Ok? ==> && 1 <= |a.sent|
                             && Answer(ReplyAt(script, |a.sent| - 1)) == Some(a.result.value)
                             && forall j :: 0 <= j < |a.sent| - 1 ==> Answer(ReplyAt(script, j)).None?
  {
    QuerySpec(script, budget);
  }

  /** The review requests go out in stage order after the idea requests. */
  lemma ReviewRunOrder(script: seq<Reply>, budget: nat, genre: string, idea: string, before: seq<Prompt>)
    requires StagesUpTo(before, 0)
    ensures StagesUpTo(before + ReviewRun(script, budget, genre, idea).sent, 2)
  {
    var b := AskRun(script, budget, ValidationPrompt(genre, idea));
    AskRunBounds(script, budget, ValidationPrompt(genre, idea));
    StagesInOrderAppend(before, 0, ValidationPrompt(genre, idea), |b.sent|);
    if b.result.Ok? {
      var c := AskRun(b.rest, budget, TitlePrompt(genre, idea));
      AskRunBounds(b.rest, budget, TitlePrompt(genre, idea));
      StagesInOrderAppend(before + b.sent, 1, TitlePrompt(genre, idea), |c.sent|);
      AppendAssoc(before, b.sent, c.sent);
    }
  }

  /** The review takes one reply per request, and a failure is the backend giving up after all attempts of its stage. */
  lemma ReviewRunCount(script: seq<Reply>, budget: nat, genre: string, idea: string)
    ensures var v := ReviewRun(script, budget, genre, idea);
            && |v.sent| <= 2 * budget && v.rest == Drop(script, |v.sent|)
            && (v.result.Err? ==> v.result.error == OllamaGaveUp(OllamaFailure) && budget <= |v.sent|)
  {
    var b := AskRun(script, budget, ValidationPrompt(genre, idea));
    AskRunBounds(script, budget, ValidationPrompt(genre, idea));
    if b.result.Ok? {
      var c := AskRun(b.rest, budget, TitlePrompt(genre, idea));
      AskRunBounds(b.rest, budget, TitlePrompt(genre, idea));
      DropDrop(script, |b.sent|, |c.sent|);
    }
  }

  /** An answered review: both requests were sent and nothing else. */
  lemma ReviewRunSent(script: seq<Reply>, budget: nat, genre: string, idea: string)
    ensures var v := ReviewRun(script, budget, genre, idea);
            v.result.Ok? ==> forall p :: p in v.sent <==> p in [ValidationPrompt(genre, idea), TitlePrompt(genre, idea)]
  {
    var b := AskRun(script, budget, ValidationPrompt(genre, idea));
    if b.result.Ok? {
      var c := AskRun(b.rest, budget, TitlePrompt(genre, idea));
      if c.result.Ok? {
        AskRunBounds(script, budget, ValidationPrompt(genre, idea));
        AskRunBounds(b.rest, budget, TitlePrompt(genre, idea));
        forall p ensures p in b.sent + c.sent <==> p in [ValidationPrompt(genre, idea), TitlePrompt(genre, idea)] {
          InRepeat(p, ValidationPrompt(genre, idea), |b.sent|);
          InRepeat(p, TitlePrompt(genre, idea), |c.sent|);
        }
      }
    }
  }

  /** The three outline requests go out in stage order. */
  lemma OutlineRunOrder(script: seq<Reply>, budget: nat, genre: string)
    ensures StagesUpTo(OutlineRun(script, budget, genre).sent, 2)
  {
    var a := AskRun(script, budget, IdeaPrompt(genre));
    RepeatInOrder(IdeaPrompt(genre), Attempts(script, budget));
    if a.result.Ok? {
      ReviewRunOrder(a.rest, budget, genre, a.result.value, a.sent);
    }
  }

  /** The outline takes one reply per request, and a failure is the backend giving up after all attempts of its stage. */
  lemma OutlineRunCount(script: seq<Reply>, budget: nat, genre: string)
    ensures var o := OutlineRun(script, budget, genre);
            && |o.sent| <= 3 * budget && o.rest == Drop(script, |o.sent|)
            && (o.result.Err? ==> o.result.error == OllamaGaveUp(OllamaFailure) && budget <= |o.sent|)
  {
    var a := AskRun(script, budget, IdeaPrompt(genre));
    AskRunBounds(script, budget, IdeaPrompt(genre));
    if a.result.Ok? {
      var v := ReviewRun(a.rest, budget, genre, a.result.value);
      ReviewRunCount(a.rest, budget, genre, a.result.value);
      DropDrop(script, |a.sent|, |v.sent|);
    }
  }

  /** An answered outline: the idea is the first query's answer, and each of the three requests was sent and nothing else. */
  lemma OutlineRunSent(script: seq<Reply>, budget: nat, genre: string)
    ensures var o := OutlineRun(script, budget, genre);
            o.result.Ok? ==> && Ask(script, budget) == Ok(o.result.value.0)
                             && forall p :: p in o.sent <==> p in [IdeaPrompt(genre), ValidationPrompt(genre, o.result.value.0),
                                                               TitlePrompt(genre, o.result.value.0)]
  {
    var a := AskRun(script, budget, IdeaPrompt(genre));
    if a.result.Ok? {
      var idea := a.result.value;
      var v := ReviewRun(a.rest, budget, genre, idea);
      if v.result.Ok? {
        AskRunBounds(script, budget, IdeaPrompt(genre));
        ReviewRunSent(a.rest, budget, genre, idea);
        forall p ensures p in a.sent + v.sent <==> p in [IdeaPrompt(genre), ValidationPrompt(genre, idea), TitlePrompt(genre, idea)] {
          InRepeat(p, IdeaPrompt(genre), |a.sent|);
        }
      }
    }
  }

  /** The two breakdown requests go out in stage order after any outline. */
  lemma BreakdownRunOrder(script: seq<Reply>, budget: nat, genre: string, numScenes: int, idea: string, before: seq<Prompt>)
    requires StagesUpTo(before, 2)
    ensures StagesUpTo(before + BreakdownRun(script, budget, genre, numScenes, idea).sent, 4)
  {
    var a := AskRun(script, budget, ScenesPrompt(genre, numScenes, idea));
    AskRunBounds(script, budget, ScenesPrompt(genre, numScenes, idea));
    StagesInOrderAppend(before, 2, ScenesPrompt(genre, numScenes, idea), |a.sent|);
    if a.result.Ok? {
      var p := ImagePromptsPrompt(genre, DescriptionsText(ParseScenes(a.result.value)));
      var b := AskRun(a.rest, budget, p);
      AskRunBounds(a.rest, budget, p);
      StagesInOrderAppend(before + a.sent, 3, p, |b.sent|);
      AppendAssoc(before, a.sent, b.sent);
    }
  }

  /** The breakdown takes one reply per request, and a failure is the backend giving up after all attempts of its stage. */
  lemma BreakdownRunCount(script: seq<Reply>, budget: nat, genre: string, numScenes: int, idea: string)
    ensures var b := BreakdownRun(script, budget, genre, numScenes, idea);
            && |b.sent| <= 2 * budget && b.rest == Drop(script, |b.sent|)
            && (b.result.Err? ==> b.result.error == OllamaGaveUp(OllamaFailure) && budget <= |b.sent|)
  {
    var a := AskRun(script, budget, ScenesPrompt(genre, numScenes, idea));
    AskRunBounds(script, budget, ScenesPrompt(genre, numScenes, idea));
    if a.result.Ok? {
      var p := ImagePromptsPrompt(genre, DescriptionsText(ParseScenes(a.result.value)));
      var b := AskRun(a.rest, budget, p);
      AskRunBounds(a.rest, budget, p);
      DropDrop(script, |a.sent|, |b.sent|);
    }
  }

  /** An answered breakdown: both requests were sent and nothing else, and the parses are those of the raw replies. */
  lemma BreakdownRunSent(script: seq<Reply>, budget: nat, genre: string, numScenes: int, idea: string)
    ensures var b := BreakdownRun(script, budget, genre, numScenes, idea);
            b.result.Ok? ==> var t := b.result.value;
                             && t.1 == ParseScenes(t.0) && t.2 == ParseImagePrompts(t.3)
                             && forall p :: p in b.sent <==> p in [ScenesPrompt(genre, numScenes, idea),
                                                               ImagePromptsPrompt(genre, DescriptionsText(t.1))]
  {
    var a := AskRun(script, budget, ScenesPrompt(genre, numScenes, idea));
    if a.result.Ok? {
      var p := ImagePromptsPrompt(genre, DescriptionsText(ParseScenes(a.result.value)));
      var b := AskRun(a.rest, budget, p);
      if b.result.Ok? {
        AskRunBounds(script, budget, ScenesPrompt(genre, numScenes, idea));
        AskRunBounds(a.rest, budget, p);
        forall q ensures q in a.sent + b.sent <==> q in [ScenesPrompt(genre, numScenes, idea), p] {
          InRepeat(q, ScenesPrompt(genre, numScenes, idea), |a.sent|);
          InRepeat(q, p, |b.sent|);
        }
      }
    }
  }

  /**
   * The text stages of `create_story`: the requests go out in stage order
   * and one reply is taken per request. The story idea is the answer to
   * the first query; on success each of the five requests was sent, with
   * the idea and the parsed scenes in them, and nothing else, and the
   * parses in the draft are those of the raw replies kept beside them. A
   * failure is the text backend giving up, after all attempts of the stage.
   */
  lemma TextRunSpec(script: seq<Reply>, budget: nat, genre: string, numScenes: int)
    ensures var run := TextRun(script, budget, genre, numScenes);
            && StagesInOrder(run.sent) && |run.sent| <= 5 * budget && run.rest == Drop(script, |run.sent|)
            && (run.result.Err? ==> run.result.error == OllamaGaveUp(OllamaFailure) && budget <= |run.sent|)
            && (run.result.Ok? ==>
                  var d := run.result.value;
                  && Ask(script, budget) == Ok(d.idea)
                  && d.scenes == ParseScenes(d.rawScenes) && d.imagePrompts == ParseImagePrompts(d.rawImagePrompts)
                  && forall p :: p in run.sent <==> p in [IdeaPrompt(genre), ValidationPrompt(genre, d.idea), TitlePrompt(genre, d.idea),
                                                          ScenesPrompt(genre, numScenes, d.idea),
                                                          ImagePromptsPrompt(genre, DescriptionsText(d.scenes))])
  {
    var o := OutlineRun(script, budget, genre);
    OutlineRunOrder(script, budget, genre);
    OutlineRunCount(script, budget, genre);
    OutlineRunSent(script, budget, genre);
    if o.result.Ok? {
      var idea := o.result.value.0;
      var b := BreakdownRun(o.rest, budget, genre, numScenes, idea);
      BreakdownRunOrder(o.rest, budget, genre, numScenes, idea, o.sent);
      BreakdownRunCount(o.rest, budget, genre, numScenes, idea);
      BreakdownRunSent(o.rest, budget, genre, numScenes, idea);
      DropDrop(script, |o.sent|, |b.sent|);
      if b.result.Ok? {
        var d := TextRun(script, budget, genre, numScenes).result.value;
        assert d.idea == idea && d.scenes == b.result.value.1;
      }
    }
  }

  /**
   * The effect of `create_video_for_project` on the folders, given the
   * planned clips: nothing changes when planning raises or the plan is
   * empty; otherwise the video is written, which raises when its folder is
   * missing.
   */
  ghost predicate VideoWritten(before: map<string, Folder>, after: map<string, Folder>, r: Result<Option<string>, VideoError>,
                               plan: Result<seq<Clip>, VideoError>, outFolder: string, outName: string)
  {
    match plan
    case Err(e) => r == Err(e) && after == before
    case Ok(clips) =>
      if clips == [] then r == Ok(None) && after == before
      else if outFolder !in before then r == Err(CannotWrite) && after == before
      else r == Ok(Some(outFolder + "/" + outName)) && after == before[outFolder := before[outFolder][outName := Movie(clips)]]
  }

  /** Planning raised: the error is returned and nothing is written. */
  lemma PlanFailed(fsDirs: map<string, Folder>, r: Result<Option<string>, VideoError>, plan: Result<seq<Clip>, VideoError>,
                   outFolder: string, outName: string)
    requires plan.Err? && r == Err(plan.error)
    ensures VideoWritten(fsDirs, fsDirs, r, plan, outFolder, outName)
  {
  }

  /**
   * What `generate_images_and_audio` followed by `create_video_for_project`
   * do to the folders `made`: the project folder gets its images and
   * narrations, then the video is made from that folder's listing, in
   * whatever order the listing comes.
   */
  ghost predicate Rendered(made: map<string, Folder>, after: map<string, Folder>, video: Result<Option<string>, VideoError>,
                           folder: string, videoName: string, prompts: map<nat, string>, scenes: seq<Scene>,
                           paint: (nat, string) -> bool, speak: (nat, string, string) -> Speech, voice: string,
                           audio: Blob -> Option<real>)
    requires folder in made
  {
    var mid := made[folder := Synthesize(made[folder], prompts, paint, speak, voice, scenes, |scenes|)];
    exists listing :: IsListing(listing, mid[folder].Keys)
                      && VideoWritten(mid, after, video, VideoClips(listing, mid[folder], audio), folder, videoName)
  }

  /** One more pass of the media loop over the folder `folder` of `dirs`. */
  lemma SynthesizeInFolder(dirs: map<string, Folder>, folder: string, prompts: map<nat, string>, paint: (nat, string) -> bool,
                           speak: (nat, string, string) -> Speech, voice: string, scenes: seq<Scene>, i: nat)
    requires folder in dirs && i < |scenes|
    ensures var done := dirs[folder := Synthesize(dirs[folder], prompts, paint, speak, voice, scenes, i)];
            done[folder := SceneStep(done[folder], prompts, paint, speak, voice, i, scenes[i])]
            == dirs[folder := Synthesize(dirs[folder], prompts, paint, speak, voice, scenes, i + 1)]
  {
  }

  /** Rendering changes the project folder only: no folder appears or disappears, and every other folder is as it was. */
  lemma RenderedFrame(made: map<string, Folder>, after: map<string, Folder>, video: Result<Option<string>, VideoError>,
                      folder: string, videoName: string, prompts: map<nat, string>, scenes: seq<Scene>,
                      paint: (nat, string) -> bool, speak: (nat, string, string) -> Speech, voice: string,
                      audio: Blob -> Option<real>)
    requires folder in made
    requires Rendered(made, after, video, folder, videoName, prompts, scenes, paint, speak, voice, audio)
    ensures after.Keys == made.Keys
    ensures forall p :: p in made && p != folder ==> after[p] == made[p]
  {
    var mid := made[folder := Synthesize(made[folder], prompts, paint, speak, voice, scenes, |scenes|)];
    var listing :| IsListing(listing, mid[folder].Keys)
                   && VideoWritten(mid, after, video, VideoClips(listing, mid[folder], audio), folder, videoName);
    VideoWrittenFrame(mid, after, video, VideoClips(listing, mid[folder], audio), folder, videoName);
    assert mid.Keys == made.Keys;
  }

  /** Writing the video touches the output folder only. */
  lemma VideoWrittenFrame(before: map<string, Folder>, after: map<string, Folder>, r: Result<Option<string>, VideoError>,
                          plan: Result<seq<Clip>, VideoError>, outFolder: string, outName: string)
    requires VideoWritten(before, after, r, plan, outFolder, outName)
    ensures after.Keys == before.Keys
    ensures forall p :: p in before && p != outFolder ==> after[p] == before[p]
  {
  }

  /** The record `save_story_to_mongo` builds for a draft, in the project folder named after its sanitised title. */
  function Record(d: Draft, genre: string, uuidText: string): StoryDoc
    requires |uuidText| == 36
  {
    StoryDoc(StoryId(uuidText), d.title, genre, d.idea, d.rawScenes, ToSceneDocs(d.scenes), StrKeys(d.imagePrompts),
             d.rawImagePrompts, ProjectFolder(SanitizeFilename(d.title)))
  }

  /** What `create_story` returns, or raises, once the video step ended with `video`. */
  function Returned(d: Draft, uuidText: string, video: Result<Option<string>, VideoError>): Result<StoryReport, StoryError>
    requires |uuidText| == 36
  {
    var name := SanitizeFilename(d.title);
    if video.Err? then Err(VideoFailed(video.error))
    else Ok(StoryReport(StoryId(uuidText), ProjectFolder(name), VideoPath(name), d.title, d.idea, d.validation,
                        d.scenes, d.imagePrompts))
  }

  /**
   * What the second half of `create_story` leaves behind once the text
   * stages have produced `d`: the output root and the project folder named
   * after the sanitised title exist, the record is saved, then the folder
   * is rendered, the video step ending with `video`; a video failure is
   * raised after the record was saved.
   */
  ghost predicate Published(d: Draft, genre: string, paint: (nat, string) -> bool, speak: (nat, string, string) -> Speech,
                            audio: Blob -> Option<real>, voice: string, uuidText: string,
                            fs0: map<string, Folder>, fs1: map<string, Folder>, db0: seq<StoryDoc>, db1: seq<StoryDoc>,
                            video: Result<Option<string>, VideoError>, r: Result<StoryReport, StoryError>)
    requires |uuidText| == 36
  {
    var name := SanitizeFilename(d.title);
    && db1 == db0 + [Record(d, genre, uuidText)]
    && Rendered(Made(Made(fs0, OutputRoot), ProjectFolder(name)), fs1, video, ProjectFolder(name), VideoName(name),
                d.imagePrompts, d.scenes, paint, speak, voice, audio)
    && r == Returned(d, uuidText, video)
  }

  /**
   * Once the record is saved and the video step ended with `video`:
   * exactly one record was appended, with an eight-character id, and a
   * failure is a video failure. A report names the project folder and its
   * `<sanitised title>.mp4`, carries the draft's texts, scenes and prompts,
   * and agrees with the saved record, whose raw texts parse to the
   * report's scenes and prompts when the draft's did.
   */
  lemma PublishedRecord(d: Draft, genre: string, uuidText: string, db0: seq<StoryDoc>, db1: seq<StoryDoc>,
                        video: Result<Option<string>, VideoError>, r: Result<StoryReport, StoryError>)
    requires |uuidText| == 36
    requires db1 == db0 + [Record(d, genre, uuidText)] && r == Returned(d, uuidText, video)
    ensures && |db1| == |db0| + 1 && db1[..|db0|] == db0 && |db1[|db0|].storyId| == 8
            && (r.Err? ==> r.error.VideoFailed?)
            && (r.Ok? ==>
                  var report, doc, name := r.value, db1[|db0|], SanitizeFilename(d.title);
                  && report.storyFolder == ProjectFolder(name) && report.videoFile == VideoPath(name)
                  && report.title == d.title && report.storyIdea == d.idea && report.validation == d.validation
                  && report.scenes == d.scenes && report.imagePrompts == d.imagePrompts
                  && doc.storyId == report.storyId && doc.title == report.title && doc.genre == genre
                  && doc.storyIdea == report.storyIdea && doc.folder == report.storyFolder
                  && doc.scenes == ToSceneDocs(report.scenes) && doc.imagePrompts == StrKeys(report.imagePrompts)
                  && (d.scenes == ParseScenes(d.rawScenes) ==> report.scenes == ParseScenes(doc.rawScenesText))
                  && (d.imagePrompts == ParseImagePrompts(d.rawImagePrompts) ==>
                        report.imagePrompts == ParseImagePrompts(doc.rawImagePrompts)))
  {
    assert db1[..|db0|] == db0;
  }

  /**
   * Making the output root and the project folder, then rendering the
   * project folder: no folder but those two appears, and every folder
   * other than the project folder is as it was.
   */
  lemma PublishedFolders(fs0: map<string, Folder>, fs1: map<string, Folder>, video: Result<Option<string>, VideoError>,
                         folder: string, videoName: string, prompts: map<nat, string>, scenes: seq<Scene>,
                         paint: (nat, string) -> bool, speak: (nat, string, string) -> Speech, voice: string,
                         audio: Blob -> Option<real>)
    requires Rendered(Made(Made(fs0, OutputRoot), folder), fs1, video, folder, videoName, prompts, scenes, paint, speak, voice, audio)
    ensures fs1.Keys == fs0.Keys + {OutputRoot, folder}
    ensures forall p :: p in fs0 && p != folder ==> fs1[p] == fs0[p]
  {
    var rooted := Made(fs0, OutputRoot);
    var made := Made(rooted, folder);
    RenderedFrame(made, fs1, video, folder, videoName, prompts, scenes, paint, speak, voice, audio);
  }

  class StoryMaker {
    var genre: string
    var numScenes: int
    var maxRetries: int
    var outputDir: string
    var pipe: (nat, string) -> bool   // the image pipeline: whether it succeeds on the k-th scene's prompt

    /** The genre is stripped and lower-cased, and the output folder is created if missing. */
    constructor(fs: FileSystem, pipe: (nat, string) -> bool, genre: string, numScenes: int, maxRetries: int, outputDir: string)
      modifies fs
      ensures this.genre == AsciiLower(Trim(genre)) && this.numScenes == numScenes && this.maxRetries == maxRetries
      ensures this.outputDir == outputDir && this.pipe == pipe
      ensures fs.dirs == Made(old(fs.dirs), outputDir)
    {
      this.genre := AsciiLower(Trim(genre));
      this.numScenes := numScenes;
      this.maxRetries := maxRetries;
      this.outputDir := outputDir;
      this.pipe := pipe;
      new;
      fs.Mkdir(outputDir);
    }

    /**
     * `query_llama2`: up to `max_retries` attempts, returning the stripped
     * text of the first 200 reply; the server receives the prompt once per
     * attempt and hands out one reply per attempt.
     */
    method QueryLlama2(server: Ollama, prompt: Prompt) returns (r: Result<string, StoryError>)
      modifies server
      ensures var o := Query(old(server.pending), Budget(maxRetries));
              && (o.Answered? ==> r == Ok(o.text))
              && (o.GaveUp? ==> r == Err(OllamaGaveUp(OllamaFailure)))
              && server.received == old(server.received) + Repeat(prompt, o.attempts)
              && server.pending == Drop(old(server.pending), o.attempts)
    {
      var budget := Budget(maxRetries);
      ghost var script := server.pending;
      var attempt := 0;
      while attempt < budget
        invariant attempt <= budget
        invariant QueryFrom(script, budget, attempt) == Query(script, budget)
        invariant server.received == old(server.received) + Repeat(prompt, attempt)
        invariant server.pending == Drop(script, attempt)
        decreases budget - attempt
      {
        DropAdvance(script, attempt);
        var reply := server.Post(prompt);
        assert Repeat(prompt, attempt) + [prompt] == Repeat(prompt, attempt + 1);
        attempt := attempt + 1;
        var answer := Answer(reply);
        if answer.Some? {
          return Ok(answer.value);
        }
      }
      return Err(OllamaGaveUp(OllamaFailure));
    }

    method GenerateStoryIdea(server: Ollama) returns (r: Result<string, StoryError>)
      modifies server
      ensures r == Ask(old(server.pending), Budget(maxRetries))
      ensures server.received == old(server.received) + Repeat(IdeaPrompt(genre), Attempts(old(server.pending), Budget(maxRetries)))
      ensures server.pending == Drop(old(server.pending), Attempts(old(server.pending), Budget(maxRetries)))
    {
      r := QueryLlama2(server, IdeaPrompt(genre));
    }

    method ValidateStory(server: Ollama, idea: string) returns (r: Result<string, StoryError>)
      modifies server
      ensures r == Ask(old(server.pending), Budget(maxRetries))
      ensures server.received == old(server.received) + Repeat(ValidationPrompt(genre, idea), Attempts(old(server.pending), Budget(maxRetries)))
      ensures server.pending == Drop(old(server.pending), Attempts(old(server.pending), Budget(maxRetries)))
    {
      r := QueryLlama2(server, ValidationPrompt(genre, idea));
    }

    method GenerateTitle(server: Ollama, idea: string) returns (r: Result<string, StoryError>)
      modifies server
      ensures r == Ask(old(server.pending), Budget(maxRetries))
      ensures server.received == old(server.received) + Repeat(TitlePrompt(genre, idea), Attempts(old(server.pending), Budget(maxRetries)))
      ensures server.pending == Drop(old(server.pending), Attempts(old(server.pending), Budget(maxRetries)))
    {
      r := QueryLlama2(server, TitlePrompt(genre, idea));
    }

    method GenerateScenes(server: Ollama, idea: string) returns (r: Result<string, StoryError>)
      modifies server
      ensures r == Ask(old(server.pending), Budget(maxRetries))
      ensures server.received == old(server.received) + Repeat(ScenesPrompt(genre, numScenes, idea), Attempts(old(server.pending), Budget(maxRetries)))
      ensures server.pending == Drop(old(server.pending), Attempts(old(server.pending), Budget(maxRetries)))
    {
      r := QueryLlama2(server, ScenesPrompt(genre, numScenes, idea));
    }

    /**
     * `generate_image_prompts`: the scene descriptions, one `Scene n: ...`
     * line each, go out with the request; the reply is parsed into the
     * prompt map and returned with the raw reply.
     */
    method GenerateImagePrompts(server: Ollama, scenes: seq<Scene>) returns (r: Result<(map<nat, string>, string), StoryError>)
      modifies server
      ensures var a := Ask(old(server.pending), Budget(maxRetries));
              && (a.Ok? ==> r == Ok((ParseImagePrompts(a.value), a.value)))
              && (a.Err? ==> r == Err(a.error))
      ensures server.received == old(server.received)
                                 + Repeat(ImagePromptsPrompt(genre, DescriptionsText(scenes)), Attempts(old(server.pending), Budget(maxRetries)))
      ensures server.pending == Drop(old(server.pending), Attempts(old(server.pending), Budget(maxRetries)))
    {
      var descriptions := DescriptionsText(scenes);
      var raw := QueryLlama2(server, ImagePromptsPrompt(genre, descriptions));
      if raw.Err? {
        return Err(raw.error);
      }
      r := Ok((ParseImagePrompts(raw.value), raw.value));
    }

    /**
     * `generate_images_and_audio`: scene by scene, the image is saved when
     * the pipeline succeeds on the scene's prompt, and the narration of the
     * stripped description is saved when that is not empty, the narration
     * does not exist yet and speech synthesis succeeds. Failures are
     * swallowed; writes into a missing folder fail and change nothing.
     */
    method GenerateImagesAndAudio(fs: FileSystem, prompts: map<nat, string>, scenes: seq<Scene>, folder: string, voice: string,
                                  speak: (nat, string, string) -> Speech)
      modifies fs
      ensures fs.dirs == if folder in old(fs.dirs)
                         then old(fs.dirs)[folder := Synthesize(old(fs.dirs)[folder], prompts, pipe, speak, voice, scenes, |scenes|)]
                         else old(fs.dirs)
    {
      ghost var start := fs.dirs;
      for i := 0 to |scenes|
        invariant folder !in start ==> fs.dirs == start
        invariant folder in start ==> fs.dirs == start[folder := Synthesize(start[folder], prompts, pipe, speak, voice, scenes, i)]
      {
        MakeSceneMedia(fs, prompts, i, scenes[i], folder, voice, speak);
        if folder in start {
          SynthesizeInFolder(start, folder, prompts, pipe, speak, voice, scenes, i);
        }
      }
    }

    /**
     * One pass of the loop in `generate_images_and_audio`, for the `k`-th
     * scene: the image when the pipeline succeeds on its prompt, then the
     * narration file when the stripped description is not empty and the
     * file does not exist yet, unless synthesis raises before opening it.
     */
    method MakeSceneMedia(fs: FileSystem, prompts: map<nat, string>, k: nat, sc: Scene, folder: string, voice: string,
                          speak: (nat, string, string) -> Speech)
      modifies fs
      ensures fs.dirs == if folder in old(fs.dirs)
                         then old(fs.dirs)[folder := SceneStep(old(fs.dirs)[folder], prompts, pipe, speak, voice, k, sc)]
                         else old(fs.dirs)
    {
      SaveImage(fs, prompts, k, sc, folder);
      SaveNarration(fs, k, sc, folder, voice, speak);
    }

    /** The image of the `k`-th scene, when the pipeline succeeds on its prompt. */
    method SaveImage(fs: FileSystem, prompts: map<nat, string>, k: nat, sc: Scene, folder: string)
      modifies fs
      ensures fs.dirs == if folder in old(fs.dirs)
                         then old(fs.dirs)[folder := WithImage(old(fs.dirs)[folder], prompts, pipe, k, sc)]
                         else old(fs.dirs)
    {
      var prompt := PromptFor(prompts, sc.scene);
      if prompt.Some? && pipe(k, prompt.value) {
        var saved := fs.Write(folder, PngName(sc.scene), Picture(prompt.value));
      }
    }

    /**
     * The narration of the `k`-th scene, when its stripped description is
     * not empty and the file does not exist yet: `save` creates the file,
     * then fills it with the speech or leaves what a failed request wrote.
     */
    method SaveNarration(fs: FileSystem, k: nat, sc: Scene, folder: string, voice: string,
                         speak: (nat, string, string) -> Speech)
      modifies fs
      ensures fs.dirs == if folder in old(fs.dirs)
                         then old(fs.dirs)[folder := WithNarration(old(fs.dirs)[folder], speak, voice, k, sc)]
                         else old(fs.dirs)
    {
      var description := Trim(sc.description);
      if description != [] {
        var present := fs.Exists(folder, Mp3Name(sc.scene));
        if !present {
          match speak(k, description, voice)
          case Spoken =>
            var saved := fs.Write(folder, Mp3Name(sc.scene), Narration(description, voice));
          case Interrupted =>
            var saved := fs.Write(folder, Mp3Name(sc.scene), BrokenNarration);
          case Refused =>
        }
      }
    }

    /**
     * `create_video_for_project`: for the folder's listing, in whatever
     * order it comes, the planned clips decide the outcome; the video, when
     * there is one, is the only file written.
     */
    method CreateVideoForProject(fs: FileSystem, folder: string, outFolder: string, outName: string, audio: Blob -> Option<real>)
      returns (r: Result<Option<string>, VideoError>)
      modifies fs
      ensures folder !in old(fs.dirs) ==> r == Err(NoFolder) && fs.dirs == old(fs.dirs)
      ensures folder in old(fs.dirs) ==>
                exists listing :: IsListing(listing, old(fs.dirs)[folder].Keys)
                                  && VideoWritten(old(fs.dirs), fs.dirs, r, VideoClips(listing, old(fs.dirs)[folder], audio), outFolder, outName)
      ensures fs.dirs.Keys == old(fs.dirs).Keys
    {
      var listing := fs.List(folder);
      if listing.None? {
        return Err(NoFolder);
      }
      var names := listing.value;
      var dir := fs.dirs[folder];
      ghost var plan := VideoClips(names, dir, audio);
      assert IsListing(names, old(fs.dirs)[folder].Keys) && dir == old(fs.dirs)[folder];
      var found := Discover(names);
      if found.Err? {
        r := Err(found.error);
        assert plan == Err(found.error);
        PlanFailed(fs.dirs, r, plan, outFolder, outName);
        return;
      }
      var nums := Sort(found.value);
      var step := PlanStep(dir, audio);
      assert plan == Collect(step, nums);
      var clips: seq<Clip> := [];
      for i := 0 to |nums|
        invariant Collect(step, nums[..i]) == Ok(clips)
        invariant fs.dirs == old(fs.dirs)
      {
        CollectPrefix(step, nums, i);
        var x := nums[i];
        assert step(x) == ClipOf(dir, audio, x);
        if Mp3Name(x) in dir {
          var duration := audio(dir[Mp3Name(x)]);
          if duration.None? {
            assert step(x) == Err(BadAudio(Mp3Name(x)));
            CollectErrStays(step, nums, i + 1);
            r := Err(BadAudio(Mp3Name(x)));
            assert plan == Err(BadAudio(Mp3Name(x)));
            PlanFailed(fs.dirs, r, plan, outFolder, outName);
            return;
          }
          if PngName(x) !in dir {
            assert step(x) == Err(NoImage(PngName(x)));
            CollectErrStays(step, nums, i + 1);
            r := Err(NoImage(PngName(x)));
            assert plan == Err(NoImage(PngName(x)));
            PlanFailed(fs.dirs, r, plan, outFolder, outName);
            return;
          }
          assert step(x) == Ok([Clip(x, duration.value)]);
          clips := clips + [Clip(x, duration.value)];
        } else {
          assert step(x) == Ok([]);
          assert clips + [] == clips;
        }
      }
      assert nums[..|nums|] == nums;
      assert plan == Ok(clips);
      if clips == [] {
        r := Ok(None);
        assert VideoWritten(old(fs.dirs), fs.dirs, r, plan, outFolder, outName);
        return;
      }
      var written := fs.Write(outFolder, outName, Movie(clips));
      if !written {
        r := Err(CannotWrite);
      } else {
        r := Ok(Some(outFolder + "/" + outName));
      }
      assert VideoWritten(old(fs.dirs), fs.dirs, r, plan, outFolder, outName);
    }

    /** `save_story_to_mongo`: the record is built from the story's parts and saved. */
    method SaveStoryToMongo(db: StoryStore, title: string, idea: string, scenes: seq<Scene>, rawScenesText: string,
                            imagePrompts: map<nat, string>, rawImagePrompts: string, folder: string, uuidText: string)
      returns (doc: StoryDoc)
      requires |uuidText| == 36
      modifies db
      ensures doc == StoryDoc(StoryId(uuidText), title, genre, idea, rawScenesText, ToSceneDocs(scenes),
                              StrKeys(imagePrompts), rawImagePrompts, folder)
      ensures db.saved == old(db.saved) + [doc]
    {
      var storyId := StoryId(uuidText);
      var promptsStrKeys := StrKeys(imagePrompts);
      var sceneDocs := ToSceneDocs(scenes);
      doc := StoryDoc(storyId, title, genre, idea, rawScenesText, sceneDocs, promptsStrKeys, rawImagePrompts, folder);
      db.Save(doc);
    }

    /**
     * The first three text stages of `create_story`: the idea, its
     * validation and the title.
     */
    method Outline(server: Ollama) returns (r: Result<(string, string, string), StoryError>)
      modifies server
      ensures var o := OutlineRun(old(server.pending), Budget(maxRetries), genre);
              server.received == old(server.received) + o.sent && server.pending == o.rest && r == o.result
    {
      ghost var a := AskRun(old(server.pending), Budget(maxRetries), IdeaPrompt(genre));
      var idea := GenerateStoryIdea(server);
      if idea.Err? {
        return Err(idea.error);
      }
      ghost var b := AskRun(a.rest, Budget(maxRetries), ValidationPrompt(genre, idea.value));
      var validation := ValidateStory(server, idea.value);
      AppendAssoc(old(server.received), a.sent, b.sent);
      if validation.Err? {
        return Err(validation.error);
      }
      ghost var c := AskRun(b.rest, Budget(maxRetries), TitlePrompt(genre, idea.value));
      var title := GenerateTitle(server, idea.value);
      AppendAssoc(old(server.received) + a.sent, b.sent, c.sent);
      AppendAssoc(old(server.received), a.sent, b.sent + c.sent);
      if title.Err? {
        return Err(title.error);
      }
      r := Ok((idea.value, validation.value, title.value));
    }

    /**
     * The last two text stages of `create_story`: the scenes, parsed, then
     * the image prompts for them, each kept with its raw reply.
     */
    method Breakdown(server: Ollama, idea: string) returns (r: Result<(string, seq<Scene>, map<nat, string>, string), StoryError>)
      modifies server
      ensures var b := BreakdownRun(old(server.pending), Budget(maxRetries), genre, numScenes, idea);
              server.received == old(server.received) + b.sent && server.pending == b.rest && r == b.result
    {
      ghost var a := AskRun(old(server.pending), Budget(maxRetries), ScenesPrompt(genre, numScenes, idea));
      var rawScenes := GenerateScenes(server, idea);
      if rawScenes.Err? {
        return Err(rawScenes.error);
      }
      var scenes := ParseScenes(rawScenes.value);
      ghost var b := ImagePromptsRun(a.rest, Budget(maxRetries), genre, scenes);
      var prompts := GenerateImagePrompts(server, scenes);
      AppendAssoc(old(server.received), a.sent, b.sent);
      if prompts.Err? {
        return Err(prompts.error);
      }
      r := Ok((rawScenes.value, scenes, prompts.value.0, prompts.value.1));
    }

    /** The text half of `create_story`: the five stages, the first failure being the only way out. */
    method GatherStory(server: Ollama) returns (r: Result<Draft, StoryError>)
      modifies server
      ensures var run := TextRun(old(server.pending), Budget(maxRetries), genre, numScenes);
              server.received == old(server.received) + run.sent && server.pending == run.rest && r == run.result
    {
      ghost var o := OutlineRun(old(server.pending), Budget(maxRetries), genre);
      var outline := Outline(server);
      if outline.Err? {
        return Err(outline.error);
      }
      var idea := outline.value.0;
      ghost var b := BreakdownRun(o.rest, Budget(maxRetries), genre, numScenes, idea);
      var rest := Breakdown(server, idea);
      AppendAssoc(old(server.received), o.sent, b.sent);
      if rest.Err? {
        return Err(rest.error);
      }
      var t := rest.value;
      r := Ok(Draft(idea, outline.value.1, outline.value.2, t.0, t.1, t.2, t.3));
    }

    /**
     * `create_story`: the text stages; when the text backend gives up,
     * nothing is written or saved. Otherwise the project folder named
     * after the sanitised title, the record saved before any media is made,
     * the media, and the video, as `Published` states.
     */
    method CreateStory(server: Ollama, fs: FileSystem, db: StoryStore, speak: (nat, string, string) -> Speech,
                       audio: Blob -> Option<real>, voice: string, uuidText: string)
      returns (r: Result<StoryReport, StoryError>, ghost video: Result<Option<string>, VideoError>)
      requires |uuidText| == 36
      modifies server, fs, db
      ensures var run := TextRun(old(server.pending), Budget(maxRetries), genre, numScenes);
              && server.received == old(server.received) + run.sent && server.pending == run.rest
              && (run.result.Err? ==> r == Err(run.result.error) && fs.dirs == old(fs.dirs) && db.saved == old(db.saved))
              && (run.result.Ok? ==> Published(run.result.value, genre, pipe, speak, audio, voice, uuidText,
                                               old(fs.dirs), fs.dirs, old(db.saved), db.saved, video, r))
    {
      var draft := GatherStory(server);
      if draft.Err? {
        return Err(draft.error), Err(NoFolder);
      }
      var d := draft.value;
      var doc := SaveDraft(fs, db, d, uuidText);
      r, video := Render(fs, Made(Made(old(fs.dirs), OutputRoot), ProjectFolder(SanitizeFilename(d.title))),
                         d, speak, audio, voice, uuidText);
    }

    /**
     * The media and the video of the draft, in its project folder, and the
     * report `create_story` returns for them; `made` is the folders as
     * they are when rendering starts, passed in so that the caller's
     * `Rendered` fact names the same folders term for term.
     */
    method Render(fs: FileSystem, ghost made: map<string, Folder>, d: Draft, speak: (nat, string, string) -> Speech,
                  audio: Blob -> Option<real>, voice: string, uuidText: string)
      returns (r: Result<StoryReport, StoryError>, ghost video: Result<Option<string>, VideoError>)
      requires |uuidText| == 36
      requires fs.dirs == made && ProjectFolder(SanitizeFilename(d.title)) in made
      modifies fs
      ensures Rendered(made, fs.dirs, video, ProjectFolder(SanitizeFilename(d.title)), VideoName(SanitizeFilename(d.title)),
                       d.imagePrompts, d.scenes, pipe, speak, voice, audio)
      ensures r == Returned(d, uuidText, video)
    {
      var outputFolder := ProjectFolder(SanitizeFilename(d.title));
      var videoName := VideoName(SanitizeFilename(d.title));
      var written := RenderMedia(fs, d.imagePrompts, d.scenes, outputFolder, videoName, voice, speak, audio);
      video := written;
      if written.Err? {
        r := Err(VideoFailed(written.error));
      } else {
        r := Ok(StoryReport(StoryId(uuidText), outputFolder, outputFolder + "/" + videoName, d.title, d.idea,
                            d.validation, d.scenes, d.imagePrompts));
      }
    }

    /**
     * The project folder named after the sanitised title is created, then
     * the story record is built from the draft and saved.
     */
    method SaveDraft(fs: FileSystem, db: StoryStore, d: Draft, uuidText: string) returns (doc: StoryDoc)
      requires |uuidText| == 36
      modifies fs, db
      ensures fs.dirs == Made(Made(old(fs.dirs), OutputRoot), ProjectFolder(SanitizeFilename(d.title)))
      ensures doc == Record(d, genre, uuidText)
      ensures db.saved == old(db.saved) + [Record(d, genre, uuidText)]
    {
      var outputFolder := ProjectFolder(SanitizeFilename(d.title));
      fs.Mkdir(OutputRoot);
      fs.Mkdir(outputFolder);
      doc := SaveStoryToMongo(db, d.title, d.idea, d.scenes, d.rawScenes, d.imagePrompts, d.rawImagePrompts,
                              outputFolder, uuidText);
    }

    /**
     * The media and the video of `create_story`, in the project folder: the
     * folder first gets the images and narrations, then the video is made
     * from what the folder then holds. No folder appears or disappears.
     */
    method RenderMedia(fs: FileSystem, prompts: map<nat, string>, scenes: seq<Scene>, folder: string, videoName: string,
                       voice: string, speak: (nat, string, string) -> Speech, audio: Blob -> Option<real>)
      returns (r: Result<Option<string>, VideoError>)
      requires folder in fs.dirs
      modifies fs
      ensures Rendered(old(fs.dirs), fs.dirs, r, folder, videoName, prompts, scenes, pipe, speak, voice, audio)
    {
      GenerateImagesAndAudio(fs, prompts, scenes, folder, voice, speak);
      r := CreateVideoForProject(fs, folder, folder, videoName, audio);
    }
  }
}
