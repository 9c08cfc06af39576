# StoryMaker in Dafny

A model of the `StoryMaker` class of Storymaker-AI-App
(`backend/pipeline/story_maker.py`). The class writes a short illustrated, narrated story.
It asks a LLaMA2 server (Ollama) for a story idea in a genre, then for a
rating of that idea, a title, a scene breakdown and one image prompt per
scene. It parses the scene breakdown and the prompts with two regular
expressions and saves the story as a MongoDB document. It then renders one
image per scene with a diffusion pipeline and one narration per scene with
text-to-speech, in a project folder named after the sanitised title.
Finally it assembles a video from the scenes that have both an image and a narration.

The model has the same form as the source:

- `StoryMaker` is a class with the same fields (`genre`, `numScenes`, `maxRetries`, `outputDir`,
  `pipe`). Its methods are methods that change the server, the file system and the database.
  The retry loop, the media loop and the clip loop are `while`/`for` loops with invariants.
  Each is proved against a specification function.
- The parsers are pure functions, as in the source.
  - `SceneParser` writes out both DOTALL patterns exactly: the greedy `\s*`, the lazy groups,
    the `\nScene\s*\d+:|\Z` lookahead and the one-character backtrack of the summary's `\s*`.
  - `Scanning.FindAll` gives `re.findall`'s left-to-right, non-overlapping scan for any matcher.
- The outside world is passed in, never simulated:
  - The text server (`Llm.Ollama`) holds the script of replies it will hand out and records every request.
  - The file system (`Files.FileSystem`) is a map from folder paths to folders.
  - The database (`Records.StoryStore`) is the list of saved documents.
  - The image pipeline (`pipe`) and speech synthesis (`speak`) are oracles saying whether the call
    for the k-th scene succeeds.
  - `audio` gives a narration's duration, or fails on an unreadable file.
  - The uuid text is a parameter.

Modules, by file:

| file | module | covers |
|---|---|---|
| wrappers.dfy | Wrappers | `Option`, `Result` |
| text.dfy | Text | `str.strip`, `\s`, `\d`, `str(int)`, `int(str)`, `lower` |
| scanning.dfy | Scanning | `re.findall`'s scan |
| scene_parser.dfy | SceneParser | `parse_scenes`, the prompt parsing in `generate_image_prompts` |
| filenames.dfy | Filenames | `sanitize_filename`, scene file names, path suffix, the number extraction, title paths |
| files.dfy | Files | folders, files, `mkdir`, `save`, `exists`, `iterdir` |
| sorting.dfy | Sorting | `sorted` on integers |
| lists.dfy | Lists | comprehension and first-error loop shapes |
| llm.dfy | Llm | the Ollama server, the retry loop as a function, stage order |
| media.dfy | Media | `generate_images_and_audio` as a function of the folder |
| video.dfy | Video | scene discovery and clip planning in `create_video_for_project` |
| records.dfy | Records | the `Story`/`Scene` documents and the database |
| story_maker.dfy | Pipeline | the `StoryMaker` class and `create_story` |

Two facts about `create_story` that the model keeps:

- It makes five text requests: idea, validation, title, scenes and image prompts.
- It names the project folder `story_outputs/<sanitised title>`, whatever `output_dir` the constructor got.
  The folder's path text therefore always starts with `story_outputs`.

## Model

| member | source | states |
|---|---|---|
| Text.Trim | backend/pipeline/story_maker.py:91 | `strip()` leaves no whitespace at either end and never lengthens the text |
| Text.TrimRemovesOnlySpace | backend/pipeline/story_maker.py:91 | `strip()` keeps one contiguous slice of the text, and everything cut off on either side is whitespace |
| Text.TrimTrimmed | backend/pipeline/story_maker.py:106 | text with no whitespace at its ends is left unchanged by `strip()` |
| Text.TrimIdempotent | backend/pipeline/story_maker.py:114 | stripping twice is stripping once |
| Text.IntToString | backend/pipeline/story_maker.py:175 | `str(k)` is never empty and has no whitespace at its ends |
| Text.NatToStringRoundTrip | backend/pipeline/story_maker.py:175 | reading back the digits of `str(n)` gives `n` |
| Text.NatToStringInjective | backend/pipeline/story_maker.py:175 | distinct naturals have distinct decimal forms |
| Text.ParseIntRoundTrip | backend/pipeline/story_maker.py:140 | `int(str(i)) == i` for every integer |
| Text.ParseIntRejectsEmpty | backend/pipeline/story_maker.py:140 | `int()` of blank text raises |
| Text.AsciiLower | backend/pipeline/story_maker.py:31 | same length; every ASCII capital becomes its lower-case letter and every other character is kept |
| Text.SpacesEndSpec | backend/pipeline/story_maker.py:88 | a greedy `\s*` consumes only whitespace and stops at the first non-space |
| Text.DigitsEndSpec | backend/pipeline/story_maker.py:88 | a greedy `\d+` consumes only digits and stops at the first non-digit |
| Scanning.FindAllAreMatches | backend/pipeline/story_maker.py:89 | `findall` reports, in order, the value of the match at each of its spans; the spans are inside the text and do not overlap |
| Scanning.FindAllMissesNoMatch | backend/pipeline/story_maker.py:89 | every position where the pattern matches lies inside some reported span |
| Scanning.FindAllSkips | backend/pipeline/story_maker.py:89 | positions where the pattern does not match contribute nothing |
| Scanning.FindAllNone | backend/pipeline/story_maker.py:89 | a pattern that matches nowhere gives no results |
| SceneParser.HeaderAt | backend/pipeline/story_maker.py:88 | a `Scene\s*(\d+):` header is read exactly when the digits and colon are there, and it ends inside the text |
| SceneParser.HeaderOfRendered | backend/pipeline/story_maker.py:88 | `Scene <n>:` is read back as number `n` in base 10, ending after its colon |
| SceneParser.BlockEndSpec | backend/pipeline/story_maker.py:88 | the lazy group stops at the first `\nScene\s*\d+:` marker or at the end of the text |
| SceneParser.FindKeySpec | backend/pipeline/story_maker.py:88 | the lazy summary reaches the first `\nDescription:` key, or there is no match |
| SceneParser.SummarySpanEndsAtKey | backend/pipeline/story_maker.py:88 | a matched summary always ends at a `\nDescription:` key |
| SceneParser.SummaryField | backend/pipeline/story_maker.py:88-91 | the summary is stripped and the description starts past its key |
| SceneParser.LazyBlock | backend/pipeline/story_maker.py:88-91 | the description block ends inside the text and its text is stripped |
| SceneParser.SceneMatch | backend/pipeline/story_maker.py:88-91 | a match ends after it starts, both fields are stripped, and the number is the header's number |
| SceneParser.ParseScenes | backend/pipeline/story_maker.py:87-94 | every parsed scene has a stripped summary and description |
| SceneParser.ParseScenesWithoutKey | backend/pipeline/story_maker.py:87-94 | text without `\nDescription:` (the empty text included) gives no scenes and raises nothing |
| SceneParser.ParseRenderedScenes | backend/pipeline/story_maker.py:76-94 | scenes written in the layout the scene request asks for are parsed back unchanged and in order |
| SceneParser.PromptMatch | backend/pipeline/story_maker.py:104 | a prompt match ends after it starts, its text is stripped, and its number is the header's number |
| SceneParser.ScanPrompts | backend/pipeline/story_maker.py:104-105 | every prompt found is stripped |
| SceneParser.PromptMap | backend/pipeline/story_maker.py:106 | the dictionary's keys are exactly the numbers the matches carry |
| SceneParser.PromptMapLastWins | backend/pipeline/story_maker.py:106 | a number maps to the text of its last match |
| SceneParser.LastWith | backend/pipeline/story_maker.py:106 | finds the last match carrying a given number |
| SceneParser.ParseImagePrompts | backend/pipeline/story_maker.py:104-106 | every prompt in the map is stripped |
| SceneParser.ParseImagePromptsKeysAndValues | backend/pipeline/story_maker.py:104-106 | a number is a key exactly when some match carries it, and its value is that of its last match |
| SceneParser.NumberedDescriptions | backend/pipeline/story_maker.py:97 | one `(scene, description)` pair per scene, in order |
| SceneParser.ScanDescriptionsText | backend/pipeline/story_maker.py:97-105 | a reply laid out like the `Scene n: description` lines sent with the request is read back as the same pairs, in order |
| SceneParser.MatchersSkipBreaks | backend/pipeline/story_maker.py:88 | neither pattern matches at a line break |
| Filenames.SanitizeFilenameSpec | backend/pipeline/story_maker.py:167-168 | same length; each of the nine reserved characters becomes `_` and every other character is kept in place |
| Filenames.SanitizedHasNoReserved | backend/pipeline/story_maker.py:167-168 | no reserved character survives |
| Filenames.SanitizeKeepsCleanTitle | backend/pipeline/story_maker.py:167-168 | a title without reserved characters is unchanged |
| Filenames.SanitizeIdempotent | backend/pipeline/story_maker.py:167-168 | sanitising twice is sanitising once |
| Filenames.FindChar | backend/pipeline/story_maker.py:140 | the first occurrence of the separator at or after a position, or the end |
| Filenames.FindLastChar | backend/pipeline/story_maker.py:142 | the last occurrence of `.` before a bound, or none |
| Filenames.PathSuffix | backend/pipeline/story_maker.py:142 | a non-empty suffix is a proper tail of the name that starts with its only `.`; the suffix is empty exactly when the name has no `.`, ends with `.`, or has its only `.` in front |
| Filenames.PngNameIsScenePng | backend/pipeline/story_maker.py:120-142 | every `scene_<n>.png` the media step writes passes the discovery filter |
| Filenames.Mp3NameIsNotScenePng | backend/pipeline/story_maker.py:127-142 | no narration file passes the discovery filter |
| Filenames.ExtractPngNameRoundTrip | backend/pipeline/story_maker.py:120-140 | the number read off `scene_<n>.png` is `n` |
| Filenames.SceneNamesDistinct | backend/pipeline/story_maker.py:120-127 | distinct numbers give distinct image and narration names, and no image name is a narration name |
| Filenames.ProjectFolder | backend/pipeline/story_maker.py:218 | the path text of the project folder starts with `story_outputs` |
| Filenames.TitlePaths | backend/pipeline/story_maker.py:217-230 | a sanitised title has no `/`, so it is one path component; the video sits directly in the project folder and is never taken for a scene image |
| Files.Made | backend/pipeline/story_maker.py:219 | `mkdir(exist_ok=True)`: the folder exists afterwards, no other folder appears, every existing folder keeps its files, and a new folder is empty |
| Files.FileSystem.Mkdir | backend/pipeline/story_maker.py:219 | the folders afterwards are those of `Made`: the folder exists, an existing folder is untouched |
| Files.FileSystem.Write | backend/pipeline/story_maker.py:121 | fails, changing nothing, exactly when the folder is missing; otherwise only that file is created or replaced |
| Files.FileSystem.List | backend/pipeline/story_maker.py:141 | `iterdir` fails exactly when the folder is missing; otherwise every name appears exactly once, in some order |
| Sorting.InsertSpec | backend/pipeline/story_maker.py:139 | insertion keeps a sequence ascending and adds exactly the one element |
| Sorting.SortSpec | backend/pipeline/story_maker.py:139 | `sorted` returns a permutation of its argument, in ascending order |
| Sorting.AscendingUnique | backend/pipeline/story_maker.py:139 | two ascending sequences with the same elements are equal |
| Sorting.SortIgnoresOrder | backend/pipeline/story_maker.py:139-143 | `sorted` depends only on the multiset of its argument |
| Lists.FlatMapAppend | backend/pipeline/story_maker.py:139-143 | a comprehension over a concatenation is the concatenation of the comprehensions |
| Lists.FlatMapMembers | backend/pipeline/story_maker.py:139-143 | a result appears exactly when some element produces it |
| Lists.FlatMapPermutation | backend/pipeline/story_maker.py:139-143 | rearranging the input rearranges the results |
| Lists.FlatMapProject | backend/pipeline/story_maker.py:145-157 | mapping a projection over the results equals the comprehension of the projected function |
| Lists.FilterAscending | backend/pipeline/story_maker.py:145-150 | skipping elements of an ascending sequence keeps it ascending |
| Lists.CollectFails | backend/pipeline/story_maker.py:145-157 | the loop raises exactly when some element raises, and then with the first such element's error |
| Lists.CollectValues | backend/pipeline/story_maker.py:145-157 | a loop that does not raise yields every element's results, in order |
| Lists.CollectErrStays | backend/pipeline/story_maker.py:145-157 | once the loop has raised, later elements do not matter |
| Llm.Ollama.Post | backend/pipeline/story_maker.py:42-45 | the server records the request and hands out its next reply; with none left, the connection fails |
| Llm.QueryFromGivesUp | backend/pipeline/story_maker.py:40-53 | from any attempt on, the loop raises exactly when no remaining attempt succeeds, having used the whole budget |
| Llm.QueryFromAnswers | backend/pipeline/story_maker.py:40-53 | an answer is the first successful reply, and the attempts stop there |
| Llm.QuerySpec | backend/pipeline/story_maker.py:39-53 | at most `max_retries` attempts; returns the first 200 reply's stripped text; raises only after all attempts failed, at once when the budget is zero |
| Llm.QueryIgnoresLaterReplies | backend/pipeline/story_maker.py:39-53 | the outcome depends only on the replies within the budget |
| Llm.StagesInOrderAppend | backend/pipeline/story_maker.py:199-215 | repeating a request of a stage no earlier than the last one keeps the requests in stage order |
| Media.NarrationBlob | backend/pipeline/story_maker.py:130-132 | the file `save` creates holds the narration exactly when synthesis succeeds, and the narration is then the stripped description in the given voice |
| Media.SceneStepFrame | backend/pipeline/story_maker.py:111-134 | one scene's pass writes at most its image and narration, deletes nothing, and rewrites nothing but the image |
| Media.SceneStepImage | backend/pipeline/story_maker.py:113-123 | the image is written with its prompt's picture exactly when the scene has a prompt and the pipeline succeeds; otherwise it is untouched |
| Media.SceneStepNarration | backend/pipeline/story_maker.py:114-134 | an existing narration is never rewritten; a missing one is created exactly when the stripped description is not empty and synthesis gets as far as opening the file, and it then holds what that request left |
| Media.NarrationIsNoImage | backend/pipeline/story_maker.py:120-127 | no narration name is among the images written |
| Media.SynthesizeWritesOnlySceneFiles | backend/pipeline/story_maker.py:110-134 | the whole loop writes only the scenes' images and narrations, deletes nothing, and leaves every other file's content alone |
| Media.SynthesizeKeepsNarration | backend/pipeline/story_maker.py:126-128 | a narration present before the loop is never rewritten |
| Media.ImageHitMeans | backend/pipeline/story_maker.py:118-121 | an image is hit exactly when some scene with that number had its image saved |
| Media.SynthesizeImage | backend/pipeline/story_maker.py:110-123 | after the loop, scene `x`'s image is the picture of its prompt if any scene numbered `x` succeeded; otherwise it is as before |
| Media.FirstNarration | backend/pipeline/story_maker.py:126-132 | the first scene numbered `x` whose narration would be saved, or none exactly when there is no such scene |
| Media.SynthesizeNarration | backend/pipeline/story_maker.py:110-134 | a narration missing at the start exists at the end exactly when some scene numbered `x` would be narrated, and it holds the first such scene's stripped description in the given voice |
| Video.ReadNameSpec | backend/pipeline/story_maker.py:140-142 | a listed name raises exactly when it passes the filter but its number cannot be read; otherwise it contributes its number or nothing |
| Video.DiscoverSpec | backend/pipeline/story_maker.py:139-143 | discovery raises exactly when some image name is unreadable, naming the first such name; otherwise it yields every readable number in listing order |
| Video.NumbersMembers | backend/pipeline/story_maker.py:139-143 | a number is discovered exactly when some listed image name reads as it |
| Video.DiscoversSceneImage | backend/pipeline/story_maker.py:139-143 | every scene image the media step writes is discovered under its own number |
| Video.ListingCount | backend/pipeline/story_maker.py:141 | a listing holds each name of the folder once and nothing else |
| Video.ListingsAgree | backend/pipeline/story_maker.py:141 | two listings of one folder are permutations of each other |
| Video.ClipOfSpec | backend/pipeline/story_maker.py:146-156 | a number raises exactly when its narration exists but cannot be opened or its image is missing; otherwise it gives a clip exactly when it has a narration |
| Video.PlanClipsSpec | backend/pipeline/story_maker.py:145-157 | planning raises exactly when some number is unplayable; otherwise there is one clip per narrated number, in order, each lasting as long as its narration |
| Video.WithAudioMembers | backend/pipeline/story_maker.py:145-150 | the narrated numbers are exactly those whose `scene_<n>.mp3` exists |
| Video.WithAudioAscending | backend/pipeline/story_maker.py:139-150 | skipping scenes keeps the ascending order |
| Video.VideoClipsSpec | backend/pipeline/story_maker.py:138-160 | with readable names, the video shows exactly the discovered narrated scenes in ascending order, each for its narration's duration; it is empty exactly when no discovered scene has a narration |
| Video.VideoIgnoresListingOrder | backend/pipeline/story_maker.py:139-143 | the order `iterdir` lists the folder in changes neither whether discovery raises nor the video |
| Records.IntToStringInjective | backend/pipeline/story_maker.py:175 | `str` never maps two keys to the same string |
| Records.StrKeysSpec | backend/pipeline/story_maker.py:175 | every key is stored as `str(k)` with its value; nothing else is stored; `int` reads each stored key back; no entry is lost |
| Records.SizeOfInjectiveImage | backend/pipeline/story_maker.py:175 | as many string keys as number keys |
| Records.ToSceneDocs | backend/pipeline/story_maker.py:178-181 | one scene document per scene |
| Records.SceneDocsRoundTrip | backend/pipeline/story_maker.py:178-181 | each document reads back as the scene at its position |
| Records.StoryId | backend/pipeline/story_maker.py:172 | the id is the first 8 characters of the uuid text |
| Records.StoryStore.Save | backend/pipeline/story_maker.py:195 | the document is appended to the saved ones |
| Pipeline.AskRunBounds | backend/pipeline/story_maker.py:39-53 | one query sends its prompt once per attempt and consumes one reply per attempt: between one and `max_retries` times when answered; exactly `max_retries` times when it raises, and then with the Ollama failure |
| Pipeline.AskRunAnswer | backend/pipeline/story_maker.py:39-53 | an answered query returns the response of the last reply it consumed; none of the earlier ones had a response |
| Pipeline.ReviewRunOrder | backend/pipeline/story_maker.py:203-208 | validation requests, then title requests, sent after idea requests, keep the requests in stage order |
| Pipeline.ReviewRunCount | backend/pipeline/story_maker.py:203-208 | validation and title send at most two budgets of requests, one reply consumed per request; a failure is the Ollama failure after a whole budget |
| Pipeline.ReviewRunSent | backend/pipeline/story_maker.py:203-208 | an answered validation and title sent exactly the validation and title prompts for the idea |
| Pipeline.OutlineRunOrder | backend/pipeline/story_maker.py:200-208 | idea, validation and title requests go out in stage order |
| Pipeline.OutlineRunCount | backend/pipeline/story_maker.py:200-208 | at most three budgets of requests, one reply consumed per request; a failure is the Ollama failure after a whole budget |
| Pipeline.OutlineRunSent | backend/pipeline/story_maker.py:200-208 | an answered outline's idea is the answer to the first query, and exactly the idea prompt and the validation and title prompts for that idea were sent |
| Pipeline.BreakdownRunOrder | backend/pipeline/story_maker.py:210-215 | scene requests, then image-prompt requests, sent after the outline, keep the requests in stage order |
| Pipeline.BreakdownRunCount | backend/pipeline/story_maker.py:210-215 | at most two budgets of requests, one reply consumed per request; a failure is the Ollama failure after a whole budget |
| Pipeline.BreakdownRunSent | backend/pipeline/story_maker.py:210-215 | the scenes and prompts are the parses of the raw replies kept with them, and exactly the scenes prompt and the image-prompt request listing the parsed scenes were sent |
| Pipeline.TextRunSpec | backend/pipeline/story_maker.py:199-215 | the five stages' requests go out in stage order, at most five budgets of them, one reply consumed each; the only failure is the Ollama failure after a whole budget; a draft's idea is the first answer, its scenes and prompts parse its raw texts, and exactly the five prompts built from them were sent |
| Pipeline.VideoWrittenFrame | backend/pipeline/story_maker.py:137-164 | the video step adds or removes no folder and changes no folder but its output folder |
| Pipeline.RenderedFrame | backend/pipeline/story_maker.py:226-231 | media and video together add or remove no folder and change no folder but the project folder |
| Pipeline.PublishedRecord | backend/pipeline/story_maker.py:217-244 | after the record is saved and the video step ended: exactly one record was appended, with an 8-character id; a failure is a video failure; a report names the project folder and its `<sanitised title>.mp4`, carries the draft's texts, scenes and prompts, agrees with the record, and the record's raw texts parse to the report's scenes and prompts when the draft's did |
| Pipeline.PublishedFolders | backend/pipeline/story_maker.py:217-231 | after the second half of `create_story` the folders are the old ones plus `story_outputs` and the project folder, and every folder but the project folder is as it was |
| Pipeline.StoryMaker.constructor | backend/pipeline/story_maker.py:21-36 | the genre is stripped and lower-cased, the other settings are kept, and the output folder is created if missing |
| Pipeline.StoryMaker.QueryLlama2 | backend/pipeline/story_maker.py:39-53 | the loop's result is the retry function's outcome; the server gets the prompt once per attempt and loses one reply per attempt |
| Pipeline.StoryMaker.GenerateStoryIdea | backend/pipeline/story_maker.py:56-61 | asks with the idea prompt for the genre; result and server state as in `query_llama2` |
| Pipeline.StoryMaker.ValidateStory | backend/pipeline/story_maker.py:63-67 | asks with the validation prompt for the genre and idea |
| Pipeline.StoryMaker.GenerateTitle | backend/pipeline/story_maker.py:69-74 | asks with the title prompt for the genre and idea |
| Pipeline.StoryMaker.GenerateScenes | backend/pipeline/story_maker.py:76-85 | asks with the scenes prompt for the genre, scene count and idea |
| Pipeline.StoryMaker.GenerateImagePrompts | backend/pipeline/story_maker.py:96-107 | sends the joined `Scene n: description` lines; on an answer it returns the parsed prompts with the raw reply, otherwise it raises the query's error |
| Pipeline.StoryMaker.GenerateImagesAndAudio | backend/pipeline/story_maker.py:110-134 | the project folder ends as the media function of it and the scenes; a missing folder is left missing and nothing changes |
| Pipeline.StoryMaker.MakeSceneMedia | backend/pipeline/story_maker.py:111-134 | one loop pass changes only the project folder, as one scene's step |
| Pipeline.StoryMaker.SaveImage | backend/pipeline/story_maker.py:116-123 | the scene's image is written with its prompt's picture exactly when the scene has a prompt and the pipeline succeeds; nothing else changes |
| Pipeline.StoryMaker.SaveNarration | backend/pipeline/story_maker.py:125-134 | a narration file is created only when the stripped description is not empty, the file is missing and synthesis opens it; it holds the speech or what the failed request left; nothing else changes |
| Pipeline.StoryMaker.CreateVideoForProject | backend/pipeline/story_maker.py:137-164 | raises on a missing folder; otherwise, for the order `iterdir` chose, the outcome follows the planned clips: errors and empty plans write nothing, else only the video is written; no folder appears or disappears |
| Pipeline.StoryMaker.SaveStoryToMongo | backend/pipeline/story_maker.py:171-196 | the document holds the 8-character id, the title, the genre, the idea, the scene documents, the string-keyed prompts and the raw texts; it is appended to the database |
| Pipeline.StoryMaker.Outline | backend/pipeline/story_maker.py:200-208 | the requests the server receives, the replies it keeps and the result are those of the outline run, whose order, counts and contents the outline lemmas state |
| Pipeline.StoryMaker.Breakdown | backend/pipeline/story_maker.py:210-215 | the requests the server receives, the replies it keeps and the result are those of the breakdown run for the idea |
| Pipeline.StoryMaker.GatherStory | backend/pipeline/story_maker.py:199-215 | the requests the server receives, the replies it keeps and the draft or error are those of the text run of `TextRunSpec` |
| Pipeline.StoryMaker.SaveDraft | backend/pipeline/story_maker.py:217-224 | the folders become the old ones with `story_outputs` and `story_outputs/<sanitised title>` made; the returned record is the one built from the draft, and it is the only record appended |
| Pipeline.StoryMaker.RenderMedia | backend/pipeline/story_maker.py:226-231 | the folder gets its images and narrations, then the video is planned from the folder as the media step left it, for the order `iterdir` chose |
| Pipeline.StoryMaker.Render | backend/pipeline/story_maker.py:226-244 | the project folder is rendered as `RenderMedia` states; the result is the video failure, or the report for the draft with the project folder and its `.mp4` |
| Pipeline.StoryMaker.CreateStory | backend/pipeline/story_maker.py:199-244 | the server gets the text run's requests; when the text backend gives up, that error is the result and no folder or record is written; otherwise the folders are made, the draft's record is the one record appended, the folder is rendered, and the result is the report or the video failure, as `PublishedRecord` and `PublishedFolders` spell out |

## Left out

- The text server, the diffusion pipeline, gTTS and moviepy are not modelled. They appear as a script of replies and as success oracles (`pipe`, `speak`, `audio`). The request URL, the model name and the prompt template texts are not modelled either. A request is reduced to its stage and the values its template is filled with.
- `time.sleep(2)` between attempts and every `print` are left out: they do not change any result.
- Python's `\d` and `int()` also accept non-ASCII decimal digits. Only ASCII digits are modelled. `str.lower()` is modelled on ASCII letters only.
- `\s` and `str.strip()` use the explicit list of characters `str.isspace` accepts. The model does no Unicode database lookup.
- A missing image prompt (`image_prompts.get` gives `None`) is modelled as a pipeline failure. Calling the diffusion pipeline with `None` raises, and the loop swallows the error.
- Files.FileSystem.Mkdir: failures of the operating system are not modelled, for `mkdir` or for writes. A stripped title longer than 255 bytes makes `mkdir` raise `OSError` (name too long). A title holding a NUL character, which `sanitize_filename` keeps, makes it raise `ValueError`. In both cases the error leaves `create_story` after the five text requests and before any record is saved, whereas the model's `Mkdir` always succeeds and `CreateStory` then saves the record.
- The file system is flat: a folder is named by its path string. `mkdir(parents=True)` of `story_outputs/<name>` is two `Mkdir` calls. There is no `Path` normalisation beyond dropping an empty or `.` last component.
- Pipeline.StoryMaker.CreateVideoForProject: only a missing `scene_<n>.png` or an unreadable narration makes clip building raise. A corrupt image and video-encoding failures are not modelled, and neither are the real durations, fps and the encoding of the final video.
- MongoDB persistence, `created_at` and any uniqueness of `story_id` are not modelled. The database is the list of saved documents.
- Records.StoryId: requires the 36-character canonical text of a UUID, which `str(uuid.uuid4())` always is. The randomness of the UUID is a parameter.
- Media.NarrationBlob: what a failed request leaves in the narration file is one abstract content; whether moviepy can open that file is decided by the `audio` oracle.
- Filenames.ProjectFolder: paths are not normalised. A title `..` gives the path text `story_outputs/..`, which starts with `story_outputs` but names the folder above it.
- `backend/api.py`, which calls the pipeline over HTTP, is not part of this model.
- Pipeline.StoryMaker.CreateStory: the model follows the code and creates the project folder under `story_outputs`. It ignores the `output_dir` the constructor created.
