/**
 * File and folder names: `sanitize_filename`, the `scene_<n>.png` and
 * `scene_<n>.mp3` names the media loop writes, the test and the number
 * extraction the video step applies to them, and the paths `create_story`
 * derives from the title.
 */
module Filenames {
  import opened Wrappers
  import opened Text

  // ---------------------------------------------------------------------
  // sanitize_filename
  // ---------------------------------------------------------------------

  // The nine characters of the class `[\\/*?:"<>|]`.
  predicate IsReserved(c: char) {
    c == '\\' || c == '/' || c == '*' || c == '?' || c == ':' || c == '"' || c == '<' || c == '>' || c == '|'
  }

  // `re.sub(r'[\\/*?:"<>|]', "_", title)`: every reserved character becomes `_`.
  function SanitizeFilename(title: string): (r: string)
    decreases |title|
  {
    if title == [] then []
    else [if IsReserved(title[0]) then '_' else title[0]] + SanitizeFilename(title[1..])
  }

  /** Character by character: same length, reserved characters replaced by `_`, all others kept in place. */
  lemma {:induction false} SanitizeFilenameSpec(title: string)
    ensures |SanitizeFilename(title)| == |title|
    ensures forall i :: 0 <= i < |title| && IsReserved(title[i]) ==> SanitizeFilename(title)[i] == '_'
    ensures forall i :: 0 <= i < |title| && !IsReserved(title[i]) ==> SanitizeFilename(title)[i] == title[i]
    decreases |title|
  {
    if title != [] {
      SanitizeFilenameSpec(title[1..]);
      forall i | 1 <= i < |title| ensures SanitizeFilename(title)[i] == SanitizeFilename(title[1..])[i - 1] {
      }
    }
  }

  /** No reserved character survives. */
  lemma SanitizedHasNoReserved(title: string)
    ensures forall i :: 0 <= i < |SanitizeFilename(title)| ==> !IsReserved(SanitizeFilename(title)[i])
  {
    SanitizeFilenameSpec(title);
  }

  /** A title without reserved characters is left as it is. */
  lemma SanitizeKeepsCleanTitle(title: string)
    requires forall i :: 0 <= i < |title| ==> !IsReserved(title[i])
    ensures SanitizeFilename(title) == title
  {
    SanitizeFilenameSpec(title);
  }

  /** Sanitising twice is sanitising once. */
  lemma SanitizeIdempotent(title: string)
    ensures SanitizeFilename(SanitizeFilename(title)) == SanitizeFilename(title)
  {
    SanitizedHasNoReserved(title);
    SanitizeKeepsCleanTitle(SanitizeFilename(title));
  }

  // ---------------------------------------------------------------------
  // Scene file names
  // ---------------------------------------------------------------------

  function PngName(n: int): string {
    "scene_" + IntToString(n) + ".png"
  }

  function Mp3Name(n: int): string {
    "scene_" + IntToString(n) + ".mp3"
  }

  predicate StartsWith(s: string, p: string) {
    |p| <= |s| && s[..|p|] == p
  }

  /** The first position at or after `i` holding `c`, or `|s|` when there is none. */
  function FindChar(s: string, c: char, i: nat): (k: nat)
    requires i <= |s|
    ensures i <= k <= |s|
    ensures forall j :: i <= j < k ==> s[j] != c
    ensures k < |s| ==> s[k] == c
    decreases |s| - i
  {
    if i == |s| || s[i] == c then i else FindChar(s, c, i + 1)
  }

  /** The last position before `hi` holding `c`, if any. */
  function FindLastChar(s: string, c: char, hi: nat): (k: Option<nat>)
    requires hi <= |s|
    ensures k.Some? ==> k.value < hi && s[k.value] == c && forall j :: k.value < j < hi ==> s[j] != c
    ensures k.None? ==> forall j :: 0 <= j < hi ==> s[j] != c
    decreases hi
  {
    if hi == 0 then None else if s[hi - 1] == c then Some(hi - 1) else FindLastChar(s, c, hi - 1)
  }

  /** `PurePath.suffix` of a bare name: from its last `.`, unless that dot is first or last. */
  function PathSuffix(name: string): (r: string)
    ensures r != [] ==> |r| < |name| && r == name[|name| - |r|..] && r[0] == '.' && forall j :: 1 <= j < |r| ==> r[j] != '.'
    ensures r == [] <==> || (forall i :: 0 <= i < |name| ==> name[i] != '.')
                         || (|name| > 0 && name[|name| - 1] == '.')
                         || (|name| > 0 && name[0] == '.' && forall j :: 0 < j < |name| ==> name[j] != '.')
  {
    match FindLastChar(name, '.', |name|)
    case Some(i) => if 0 < i < |name| - 1 then name[i..] else ""
    case None => ""
  }

  /** The discovery filter: `f.name.startswith("scene_") and f.suffix == ".png"`. */
  predicate IsScenePng(name: string) {
    StartsWith(name, "scene_") && PathSuffix(name) == ".png"
  }

  /** `s.split(c)[0]`: the text before the first `c`. */
  function FirstField(s: string, c: char): string {
    s[..FindChar(s, c, 0)]
  }

  /** `s.split(c)[1:]` joined back: the text after the first `c`, or `None` when `split` gives one field only. */
  function AfterFirst(s: string, c: char): Option<string> {
    var k := FindChar(s, c, 0);
    if k < |s| then Some(s[k + 1..]) else None
  }

  /**
   * `int(name.split("_")[1].split(".")[0])`: `None` when indexing `[1]`
   * fails or `int` raises `ValueError`.
   */
  function ExtractSceneNumber(name: string): Option<int> {
    match AfterFirst(name, '_')
    case None => None
    case Some(rest) => ParseInt(FirstField(FirstField(rest, '_'), '.'))
  }

  /** The decimal form of an integer holds neither `_` nor `.`. */
  lemma IntToStringPlain(n: int)
    ensures forall j :: 0 <= j < |IntToString(n)| ==> IntToString(n)[j] != '_' && IntToString(n)[j] != '.'
  {
    var s := IntToString(n);
    var ds := NatToString(if n < 0 then -n else n);
    assert forall j :: 0 <= j < |ds| ==> IsDigit(ds[j]);
    if n < 0 {
      assert s == "-" + ds;
      forall j | 0 <= j < |s| ensures s[j] != '_' && s[j] != '.' {
        if j > 0 {
          assert s[j] == ds[j - 1];
        }
      }
    }
  }

  /** The first `c` in `a + b`, when `a` has none, is the first `c` in `b`, shifted. */
  lemma FindCharAppend(a: string, b: string, c: char)
    requires forall j :: 0 <= j < |a| ==> a[j] != c
    ensures FindChar(a + b, c, 0) == |a| + FindChar(b, c, 0)
  {
    var k := FindChar(b, c, 0);
    FindCharExact(a + b, c, 0, |a| + k);
  }

  lemma {:induction false} FindCharExact(s: string, c: char, i: nat, k: nat)
    requires i <= k <= |s|
    requires forall j :: i <= j < k ==> s[j] != c
    requires k < |s| ==> s[k] == c
    ensures FindChar(s, c, i) == k
    decreases k - i
  {
    if i < k {
      FindCharExact(s, c, i + 1, k);
    }
  }

  /** Every scene image the media loop writes passes the discovery filter. */
  lemma PngNameIsScenePng(n: int)
    ensures IsScenePng(PngName(n))
  {
    var name := PngName(n);
    var d := IntToString(n);
    assert name[..6] == "scene_";
    assert name[|name| - 4] == '.';
    assert FindLastChar(name, '.', |name|) == Some(|name| - 4);
  }

  /** Narration files never pass the discovery filter. */
  lemma Mp3NameIsNotScenePng(n: int)
    ensures !IsScenePng(Mp3Name(n))
  {
    var name := Mp3Name(n);
    assert name[|name| - 1] == '3';
  }

  /** The extraction reads back the number written into `scene_{n}.png`. */
  lemma ExtractPngNameRoundTrip(n: int)
    ensures ExtractSceneNumber(PngName(n)) == Some(n)
  {
    var d := IntToString(n);
    IntToStringPlain(n);
    var name := PngName(n);
    assert name == "scene" + ("_" + (d + ".png"));
    FindCharAppend("scene", "_" + (d + ".png"), '_');
    assert FindChar(name, '_', 0) == 5;
    assert name[6..] == d + ".png";
    assert AfterFirst(name, '_') == Some(d + ".png");
    FindCharAppend(d, ".png", '_');
    assert FirstField(d + ".png", '_') == d + ".png";
    FindCharAppend(d, ".png", '.');
    assert FirstField(d + ".png", '.') == d;
    ParseIntRoundTrip(n);
  }

  /** Distinct scene numbers give distinct image names, and no image name is a narration name. */
  lemma SceneNamesDistinct(n: int, m: int)
    ensures PngName(n) == PngName(m) ==> n == m
    ensures Mp3Name(n) == Mp3Name(m) ==> n == m
    ensures PngName(n) != Mp3Name(m)
  {
    ExtractPngNameRoundTrip(n);
    ExtractPngNameRoundTrip(m);
    if Mp3Name(n) == Mp3Name(m) {
      assert IntToString(n) == Mp3Name(n)[6..|Mp3Name(n)| - 4];
      assert IntToString(m) == Mp3Name(m)[6..|Mp3Name(m)| - 4];
      assert PngName(n) == PngName(m);
    }
    var a, b := PngName(n), Mp3Name(m);
    if |a| == |b| {
      assert a[|a| - 1] != b[|b| - 1];
    }
  }

  // ---------------------------------------------------------------------
  // Paths derived from the title
  // ---------------------------------------------------------------------

  const OutputRoot: string := "story_outputs"

  /**
   * `str(Path("story_outputs") / name)`: pathlib drops an empty or `.`
   * component, so those two names leave the root itself.
   */
  function ProjectFolder(name: string): (r: string)
    ensures StartsWith(r, OutputRoot)
  {
    if name == "" || name == "." then OutputRoot else OutputRoot + "/" + name
  }

  /** The video file name: the folder name with `.mp4` appended. */
  function VideoName(name: string): string {
    name + ".mp4"
  }

  /** `str(output_folder / f"{name}.mp4")`. */
  function VideoPath(name: string): string {
    ProjectFolder(name) + "/" + VideoName(name)
  }

  /**
   * A sanitised name holds no `/`, so it is a single path component: the
   * last component of the project folder, unless it is empty or `.`, and
   * the base name of the video file, which sits directly inside that folder
   * and is never taken for a scene image.
   */
  lemma TitlePaths(title: string)
    ensures var name := SanitizeFilename(title);
            && (forall j :: 0 <= j < |name| ==> name[j] != '/')
            && (name != "" && name != "." ==> ProjectFolder(name) == OutputRoot + "/" + name)
            && VideoPath(name) == ProjectFolder(name) + "/" + name + ".mp4"
            && !IsScenePng(VideoName(name))
  {
    var name := SanitizeFilename(title);
    SanitizedHasNoReserved(title);
    var v := VideoName(name);
    assert v[|v| - 1] == '4';
  }
}
