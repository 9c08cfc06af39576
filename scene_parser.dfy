/**
 * The two parsers of the pipeline, written out for the exact block shapes
 * of its two DOTALL patterns:
 *
 *   scenes:  Scene\s*(\d+):\s*(.*?)\nDescription:\s*(.*?)(?=\nScene\s*\d+:|\Z)
 *   prompts: Scene\s*(\d+):\s*(.*?)(?=\nScene\s*\d+:|\Z)
 *
 * Each pattern becomes a matcher that reads the whole text `t` from a
 * position `i`; `Scanning.FindAll` then tries it as `re.findall` does.
 */
module SceneParser {
  import opened Wrappers
  import opened Text
  import opened Scanning

  /** One parsed scene: the `{scene, summary, description}` record. */
  datatype Scene = Scene(scene: nat, summary: string, description: string)

  const SceneWord: string := "Scene"
  const DescriptionKey: string := "\nDescription:"

  /** `w` occurs in `t` at position `i`. */
  predicate WordAt(t: string, i: nat, w: string) {
    i + |w| <= |t| && forall k :: 0 <= k < |w| ==> t[i + k] == w[k]
  }

  /** An occurrence of `a + b` is an occurrence of `a` followed by one of `b`. */
  lemma WordAtAppend(t: string, i: nat, a: string, b: string)
    ensures WordAt(t, i, a + b) <==> WordAt(t, i, a) && WordAt(t, i + |a|, b)
  {
    if WordAt(t, i, a) && WordAt(t, i + |a|, b) {
      forall k | 0 <= k < |a + b| ensures t[i + k] == (a + b)[k] {
        if k >= |a| {
          assert t[i + |a| + (k - |a|)] == b[k - |a|];
        }
      }
    }
    if WordAt(t, i, a + b) {
      forall k | 0 <= k < |a| ensures t[i + k] == a[k] {
        assert (a + b)[k] == a[k];
      }
      forall k | 0 <= k < |b| ensures t[i + |a| + k] == b[k] {
        assert t[i + (|a| + k)] == (a + b)[|a| + k];
      }
    }
  }

  /** The character at offset `k` of an occurrence. */
  lemma WordAtChar(t: string, i: nat, w: string, k: nat)
    requires WordAt(t, i, w) && k < |w|
    ensures i + k < |t| && t[i + k] == w[k]
  {
  }

  lemma WordAtSlice(t: string, i: nat, w: string)
    requires WordAt(t, i, w)
    ensures t[i..i + |w|] == w
  {
  }

  /** A `Scene\s*(\d+):` header: the number it names and the position just past its `:`. */
  datatype Header = Header(number: nat, end: nat)

  /** Where the digits of a `Scene\s*\d+:` header that starts at `i` sit, if one does. */
  function HeaderDigits(t: string, i: nat): (r: Option<(nat, nat)>)
    requires i <= |t|
    ensures r.Some? ==> i + |SceneWord| <= r.value.0 < r.value.1 < |t|
  {
    if !WordAt(t, i, SceneWord) then None
    else
      var a := SpacesEnd(t, i + |SceneWord|);
      var b := DigitsEnd(t, a);
      if a < b < |t| && t[b] == ':' then Some((a, b)) else None
  }

  /** The header that starts at `i`, if one does; its number is the base-10 value of its digits. */
  function HeaderAt(t: string, i: nat): (h: Option<Header>)
    requires i <= |t|
    ensures h.Some? <==> HeaderDigits(t, i).Some?
    ensures h.Some? ==> i + |SceneWord| + 2 <= h.value.end <= |t|
  {
    match HeaderDigits(t, i)
    case None => None
    case Some((a, b)) =>
      DigitsEndSpec(t, a);
      assert AllDigits(t[a..b]) by {
        forall j | 0 <= j < b - a ensures IsDigit(t[a..b][j]) {
          assert t[a..b][j] == t[a + j];
        }
      }
      Some(Header(DigitsValue(t[a..b]), b + 1))
  }

  /** The header layout the pipeline asks for: `Scene <n>:`. */
  function HeaderText(n: nat): string {
    SceneWord + " " + NatToString(n) + ":"
  }

  /** A header written as `Scene <n>:` is read back as `n`, in base 10, and ends after its `:`. */
  lemma HeaderOfRendered(t: string, i: nat, n: nat)
    requires WordAt(t, i, HeaderText(n))
    ensures HeaderAt(t, i) == Some(Header(n, i + |HeaderText(n)|))
  {
    var ds := NatToString(n);
    WordAtAppend(t, i, SceneWord + " " + ds, ":");
    WordAtAppend(t, i, SceneWord + " ", ds);
    WordAtAppend(t, i, SceneWord, " ");
    var a := i + |SceneWord| + 1;
    var b := a + |ds|;
    WordAtChar(t, a, ds, 0);
    WordAtChar(t, i + |SceneWord|, " ", 0);
    SpacesEndExact(t, i + |SceneWord|, a);
    forall j | a <= j < b ensures IsDigit(t[j]) {
      WordAtChar(t, a, ds, j - a);
    }
    WordAtChar(t, b, ":", 0);
    DigitsEndExact(t, a, b);
    WordAtSlice(t, a, ds);
    NatToStringRoundTrip(n);
  }

  /** A `\nScene\s*\d+:` marker starts at position `q`: the lookahead that ends a block. */
  predicate MarkerAt(t: string, q: nat) {
    q < |t| && t[q] == '\n' && HeaderDigits(t, q + 1).Some?
  }

  /**
   * Where a lazy `(.*?)` that starts at `e` stops: the first position at or
   * after `e` where a marker starts or the text ends (`\Z`).
   */
  function BlockEnd(t: string, e: nat): (q: nat)
    requires e <= |t|
    ensures e <= q <= |t|
    decreases |t| - e
  {
    if e == |t| || MarkerAt(t, e) then e else BlockEnd(t, e + 1)
  }

  lemma {:induction false} BlockEndSpec(t: string, e: nat)
    requires e <= |t|
    ensures BlockEnd(t, e) == |t| || MarkerAt(t, BlockEnd(t, e))
    ensures forall k :: e <= k < BlockEnd(t, e) ==> !MarkerAt(t, k)
    decreases |t| - e
  {
    if e < |t| && !MarkerAt(t, e) {
      BlockEndSpec(t, e + 1);
    }
  }

  /** A block with no line break in it ends at the first marker or at the end of the text. */
  lemma {:induction false} BlockEndExact(t: string, e: nat, q: nat)
    requires e <= q <= |t| && (q == |t| || MarkerAt(t, q))
    requires forall k :: e <= k < q ==> t[k] != '\n'
    ensures BlockEnd(t, e) == q
    decreases q - e
  {
    if e < q {
      BlockEndExact(t, e + 1, q);
    }
  }

  /** `\nDescription:` starts at position `j`. */
  predicate KeyAt(t: string, j: nat) {
    WordAt(t, j, DescriptionKey)
  }

  /** The first `\nDescription:` at or after `i`: how far the lazy summary reaches. */
  function FindKey(t: string, i: nat): (j: Option<nat>)
    requires i <= |t|
    ensures j.Some? ==> i <= j.value && j.value + |DescriptionKey| <= |t|
    decreases |t| - i
  {
    if KeyAt(t, i) then Some(i) else if i == |t| then None else FindKey(t, i + 1)
  }

  lemma {:induction false} FindKeySpec(t: string, i: nat)
    requires i <= |t|
    ensures FindKey(t, i).Some? ==> KeyAt(t, FindKey(t, i).value)
    ensures FindKey(t, i).Some? ==> forall k :: i <= k < FindKey(t, i).value ==> !KeyAt(t, k)
    ensures FindKey(t, i).None? ==> forall k :: i <= k <= |t| ==> !KeyAt(t, k)
    decreases |t| - i
  {
    if !KeyAt(t, i) && i < |t| {
      FindKeySpec(t, i + 1);
    }
  }

  /** The key is found at `j` when it sits there and no line break comes before it. */
  lemma {:induction false} FindKeyExact(t: string, i: nat, j: nat)
    requires i <= j <= |t| && KeyAt(t, j)
    requires forall k :: i <= k < j ==> t[k] != '\n'
    ensures FindKey(t, i) == Some(j)
    decreases j - i
  {
    if i < j {
      if KeyAt(t, i) {
        WordAtChar(t, i, DescriptionKey, 0);
        assert false;
      }
      FindKeyExact(t, i + 1, j);
    }
  }

  /**
   * Where the summary starts and where its `\nDescription:` key sits, given
   * the end `h` of the header. The greedy `\s*` first takes the whole
   * whitespace run; only when no key follows the run does it give back its
   * last character, which then matches the key's `\n` with an empty summary.
   */
  function SummarySpan(t: string, h: nat): (r: Option<(nat, nat)>)
    requires h <= |t|
    ensures r.Some? ==> h <= r.value.0 <= r.value.1 && r.value.1 + |DescriptionKey| <= |t|
  {
    var s := SpacesEnd(t, h);
    match FindKey(t, s)
    case Some(j) => Some((s, j))
    case None => if s > h && KeyAt(t, s - 1) then Some((s - 1, s - 1)) else None
  }

  /** The summary span always ends at a `\nDescription:` key. */
  lemma SummarySpanEndsAtKey(t: string, h: nat)
    requires h <= |t| && SummarySpan(t, h).Some?
    ensures KeyAt(t, SummarySpan(t, h).value.1)
  {
    FindKeySpec(t, SpacesEnd(t, h));
  }

  /** The stripped summary and the position just past its `\nDescription:` key, given the end `h` of the header. */
  function SummaryField(t: string, h: nat): (r: Option<(string, nat)>)
    requires h <= |t|
    ensures r.Some? ==> h < r.value.1 <= |t| && IsTrimmed(r.value.0)
  {
    match SummarySpan(t, h)
    case None => None
    case Some((s, j)) => Some((Trim(t[s..j]), j + |DescriptionKey|))
  }

  /**
   * `\s*(.*?)(?=\nScene\s*\d+:|\Z)` read from position `d`: the stripped text
   * of the block and the position where the block ends.
   */
  function LazyBlock(t: string, d: nat): (r: (string, nat))
    requires d <= |t|
    ensures d <= r.1 <= |t| && IsTrimmed(r.0)
  {
    var e := SpacesEnd(t, d);
    var q := BlockEnd(t, e);
    (Trim(t[e..q]), q)
  }

  /** The scene pattern matched at position `i`: the record it yields and where the match ends. */
  function SceneMatch(t: string, i: nat): (m: Option<(Scene, nat)>)
    requires i <= |t|
    ensures m.Some? ==> i < m.value.1 <= |t|
    ensures m.Some? ==> IsTrimmed(m.value.0.summary) && IsTrimmed(m.value.0.description)
    ensures m.Some? ==> HeaderAt(t, i).Some? && m.value.0.scene == HeaderAt(t, i).value.number
  {
    match HeaderAt(t, i)
    case None => None
    case Some(h) =>
      match SummaryField(t, h.end)
      case None => None
      case Some((summary, d)) =>
        var (description, q) := LazyBlock(t, d);
        Some((Scene(h.number, summary, description), q))
  }

  /** The scene pattern as a matcher over `t`. */
  function SceneMatcher(t: string): (m: nat -> Option<(Scene, nat)>)
    ensures Advancing(m, |t|)
  {
    (j: nat) => if j <= |t| then SceneMatch(t, j) else None
  }

  /** `parse_scenes`: every scene-pattern match of `t`, in order, with trimmed fields. */
  function ParseScenes(t: string): (r: seq<Scene>)
    ensures forall k :: 0 <= k < |r| ==> IsTrimmed(r[k].summary) && IsTrimmed(r[k].description)
  {
    var m := SceneMatcher(t);
    FindAllAreMatches(m, |t|, 0);
    FindAll(m, |t|, 0)
  }

  /** No `\nDescription:` in the text (the empty text among such): no scenes, and no error. */
  lemma ParseScenesWithoutKey(t: string)
    requires forall k :: 0 <= k <= |t| ==> !KeyAt(t, k)
    ensures ParseScenes(t) == []
  {
    var m := SceneMatcher(t);
    forall p | 0 <= p <= |t| ensures m(p).None? {
      if SceneMatch(t, p).Some? {
        SummarySpanEndsAtKey(t, HeaderAt(t, p).value.end);
      }
    }
    FindAllNone(m, |t|, 0);
  }

  // ---------------------------------------------------------------------
  // Image prompts
  // ---------------------------------------------------------------------

  /** The prompt pattern matched at position `i`: `(number, trimmed text)` and where the match ends. */
  function PromptMatch(t: string, i: nat): (m: Option<((nat, string), nat)>)
    requires i <= |t|
    ensures m.Some? ==> i < m.value.1 <= |t| && IsTrimmed(m.value.0.1)
    ensures m.Some? ==> HeaderAt(t, i).Some? && m.value.0.0 == HeaderAt(t, i).value.number
  {
    match HeaderAt(t, i)
    case None => None
    case Some(h) =>
      var (text, q) := LazyBlock(t, h.end);
      Some(((h.number, text), q))
  }

  /** The prompt pattern as a matcher over `t`. */
  function PromptMatcher(t: string): (m: nat -> Option<((nat, string), nat)>)
    ensures Advancing(m, |t|)
  {
    (j: nat) => if j <= |t| then PromptMatch(t, j) else None
  }

  /** Every prompt-pattern match of `t`, in order, with trimmed text. */
  function ScanPrompts(t: string): (r: seq<(nat, string)>)
    ensures forall k :: 0 <= k < |r| ==> IsTrimmed(r[k].1)
  {
    var m := PromptMatcher(t);
    FindAllAreMatches(m, |t|, 0);
    FindAll(m, |t|, 0)
  }

  /** The dict comprehension over the matches: a later pair overwrites an earlier one with the same number. */
  function PromptMap(ms: seq<(nat, string)>): (m: map<nat, string>)
    ensures m.Keys == set i | 0 <= i < |ms| :: ms[i].0
  {
    if ms == [] then map[]
    else
      var last := ms[|ms| - 1];
      var init := ms[..|ms| - 1];
      assert (set i | 0 <= i < |ms| :: ms[i].0) == (set i | 0 <= i < |init| :: init[i].0) + {last.0} by {
        forall i | 0 <= i < |init| ensures init[i].0 in (set j | 0 <= j < |ms| :: ms[j].0) {
          assert init[i] == ms[i];
        }
        forall i | 0 <= i < |ms| ensures ms[i].0 in (set j | 0 <= j < |init| :: init[j].0) + {last.0} {
          if i < |init| {
            assert init[i] == ms[i];
          }
        }
      }
      PromptMap(init)[last.0 := last.1]
  }

  /** The value kept for a number is the text of its last occurrence. */
  lemma {:induction false} PromptMapLastWins(ms: seq<(nat, string)>, i: nat)
    requires i < |ms|
    requires forall j :: i < j < |ms| ==> ms[j].0 != ms[i].0
    ensures ms[i].0 in PromptMap(ms) && PromptMap(ms)[ms[i].0] == ms[i].1
  {
    if i < |ms| - 1 {
      var init := ms[..|ms| - 1];
      PromptMapLastWins(init, i);
      assert init[i] == ms[i];
    }
  }

  /** The index of the last pair whose number is `k`, given that pair `i` has it. */
  function LastWith(ms: seq<(nat, string)>, k: nat, i: nat): (j: nat)
    requires i < |ms| && ms[i].0 == k
    ensures i <= j < |ms| && ms[j].0 == k
    ensures forall l :: j < l < |ms| ==> ms[l].0 != k
    decreases |ms| - i
  {
    if exists l :: i < l < |ms| && ms[l].0 == k then
      var l :| i < l < |ms| && ms[l].0 == k;
      LastWith(ms, k, l)
    else i
  }

  /** The prompt-parsing half of `generate_image_prompts`: scene number to trimmed prompt. */
  function ParseImagePrompts(t: string): (m: map<nat, string>)
    ensures forall k :: k in m ==> IsTrimmed(m[k])
  {
    var ms := ScanPrompts(t);
    forall k | k in PromptMap(ms) ensures IsTrimmed(PromptMap(ms)[k]) {
      var i :| 0 <= i < |ms| && ms[i].0 == k;
      PromptMapLastWins(ms, LastWith(ms, k, i));
    }
    PromptMap(ms)
  }

  /**
   * The map's keys are exactly the numbers the matches carry, and each
   * number maps to the text of its last match.
   */
  lemma ParseImagePromptsKeysAndValues(t: string, k: nat)
    ensures k in ParseImagePrompts(t) <==> exists i :: 0 <= i < |ScanPrompts(t)| && ScanPrompts(t)[i].0 == k
    ensures k in ParseImagePrompts(t) ==>
              exists i :: 0 <= i < |ScanPrompts(t)| && ScanPrompts(t)[i] == (k, ParseImagePrompts(t)[k])
                          && forall l :: i < l < |ScanPrompts(t)| ==> ScanPrompts(t)[l].0 != k
  {
    var ms := ScanPrompts(t);
    if k in ParseImagePrompts(t) {
      var i :| 0 <= i < |ms| && ms[i].0 == k;
      PromptMapLastWins(ms, LastWith(ms, k, i));
    }
  }

  // ---------------------------------------------------------------------
  // The layouts the pipeline asks its text backend for
  // ---------------------------------------------------------------------

  /** A one-line text: not empty, no whitespace at its ends and no line break. */
  predicate IsLine(s: string) {
    s != [] && IsTrimmed(s) && forall k :: 0 <= k < |s| ==> s[k] != '\n'
  }

  /** One scene in the layout the scene request asks for: `Scene n: <summary>` then `Description: <description>`. */
  function SceneBlock(sc: Scene): string {
    HeaderText(sc.scene) + " " + sc.summary + DescriptionKey + " " + sc.description
  }

  /** Scene blocks joined by line breaks. */
  function RenderScenes(scs: seq<Scene>): string
    decreases |scs|
  {
    if scs == [] then ""
    else if |scs| == 1 then SceneBlock(scs[0])
    else SceneBlock(scs[0]) + "\n" + RenderScenes(scs[1..])
  }

  /** One line `Scene n: <text>` of the scene list sent with the image-prompt request. */
  function PromptLine(n: nat, text: string): string {
    HeaderText(n) + " " + text
  }

  /** `"\n".join(f"Scene {s['scene']}: {s['description']}" for s in scenes)`. */
  function DescriptionsText(scs: seq<Scene>): string
    decreases |scs|
  {
    if scs == [] then ""
    else if |scs| == 1 then PromptLine(scs[0].scene, scs[0].description)
    else PromptLine(scs[0].scene, scs[0].description) + "\n" + DescriptionsText(scs[1..])
  }

  /** An occurrence of two texts joined by a line break is an occurrence of each, around that line break. */
  lemma WordAtJoin(t: string, i: nat, a: string, b: string)
    requires WordAt(t, i, a + "\n" + b)
    ensures WordAt(t, i, a) && i + |a| < |t| && t[i + |a|] == '\n'
    ensures WordAt(t, i + |a| + 1, b) && i + |a + "\n" + b| == i + |a| + 1 + |b|
  {
    WordAtAppend(t, i, a + "\n", b);
    WordAtAppend(t, i, a, "\n");
    WordAtChar(t, i + |a|, "\n", 0);
  }

  /** A one-line text written at `i` holds no line break. */
  lemma LineHasNoBreak(t: string, i: nat, w: string)
    requires WordAt(t, i, w) && IsLine(w)
    ensures forall k :: i <= k < i + |w| ==> t[k] != '\n'
  {
    forall k | i <= k < i + |w| ensures t[k] != '\n' {
      WordAtChar(t, i, w, k - i);
    }
  }

  /** Neither pattern matches at a line break. */
  lemma NoMatchAtBreak(t: string, i: nat)
    requires i < |t| && t[i] == '\n'
    ensures SceneMatcher(t)(i).None? && PromptMatcher(t)(i).None?
  {
    if WordAt(t, i, SceneWord) {
      WordAtChar(t, i, SceneWord, 0);
      assert false;
    }
    assert HeaderAt(t, i).None?;
  }

  /** The pieces of a scene block written at `i`, and its length. */
  lemma SceneBlockPieces(t: string, i: nat, sc: Scene)
    requires WordAt(t, i, SceneBlock(sc))
    ensures var h := i + |HeaderText(sc.scene)|;
            var j := h + 1 + |sc.summary|;
            var d := j + |DescriptionKey|;
            && WordAt(t, i, HeaderText(sc.scene)) && h < |t| && t[h] == ' '
            && WordAt(t, h + 1, sc.summary) && KeyAt(t, j) && d < |t| && t[d] == ' '
            && WordAt(t, d + 1, sc.description) && i + |SceneBlock(sc)| == d + 1 + |sc.description|
  {
    assert SceneBlock(sc) == HeaderText(sc.scene) + " " + sc.summary + DescriptionKey + " " + sc.description;
    BlockPieces(t, i, HeaderText(sc.scene), sc.summary, DescriptionKey, sc.description);
  }

  /** The pieces of any text laid out as `head summary<key> description`. */
  lemma BlockPieces(t: string, i: nat, head: string, sum: string, key: string, desc: string)
    requires WordAt(t, i, head + " " + sum + key + " " + desc)
    ensures var h := i + |head|;
            var j := h + 1 + |sum|;
            var d := j + |key|;
            && WordAt(t, i, head) && h < |t| && t[h] == ' '
            && WordAt(t, h + 1, sum) && WordAt(t, j, key) && d < |t| && t[d] == ' '
            && WordAt(t, d + 1, desc) && i + |head + " " + sum + key + " " + desc| == d + 1 + |desc|
  {
    WordAtAppend(t, i, head + " " + sum + key + " ", desc);
    WordAtAppend(t, i, head + " " + sum + key, " ");
    WordAtAppend(t, i, head + " " + sum, key);
    WordAtAppend(t, i, head + " ", sum);
    WordAtAppend(t, i, head, " ");
    WordAtChar(t, i + |head|, " ", 0);
    WordAtChar(t, i + |head + " " + sum + key|, " ", 0);
  }

  /** A one-line text written at `s` reads back, once stripped, as itself. */
  lemma LineAt(t: string, s: nat, w: string)
    requires IsLine(w) && WordAt(t, s, w)
    ensures SpacesEnd(t, s) == s
    ensures forall k :: s <= k < s + |w| ==> t[k] != '\n'
    ensures Trim(t[s..s + |w|]) == w
  {
    WordAtChar(t, s, w, 0);
    SpacesEndExact(t, s, s);
    LineHasNoBreak(t, s, w);
    WordAtSlice(t, s, w);
    TrimTrimmed(w);
  }

  /** After one space, a summary line directly followed by the key: the summary is that line. */
  lemma SummaryFieldOfLine(t: string, h: nat, sum: string)
    requires h < |t| && t[h] == ' ' && IsLine(sum) && WordAt(t, h + 1, sum) && KeyAt(t, h + 1 + |sum|)
    ensures SummaryField(t, h) == Some((sum, h + 1 + |sum| + |DescriptionKey|))
  {
    LineAt(t, h + 1, sum);
    SpacesEndExact(t, h, h + 1);
    FindKeyExact(t, h + 1, h + 1 + |sum|);
    assert SummarySpan(t, h) == Some((h + 1, h + 1 + |sum|));
  }

  /** After one space, a one-line text up to the end of the text or a marker: the lazy block is that line. */
  lemma LazyBlockOfLine(t: string, d: nat, w: string, q: nat)
    requires d < |t| && t[d] == ' ' && IsLine(w) && WordAt(t, d + 1, w) && q == d + 1 + |w|
    requires q == |t| || MarkerAt(t, q)
    ensures LazyBlock(t, d) == (w, q)
  {
    LineAt(t, d + 1, w);
    SpacesEndExact(t, d, d + 1);
    BlockEndExact(t, d + 1, q);
  }

  /** The scene pattern assembles its record from the header, the summary field and the description block. */
  lemma SceneMatchFromPieces(t: string, i: nat, sc: Scene, q: nat)
    requires i <= |t| && HeaderAt(t, i) == Some(Header(sc.scene, i + |HeaderText(sc.scene)|))
    requires var h := i + |HeaderText(sc.scene)|;
             h <= |t| && SummaryField(t, h) == Some((sc.summary, h + 1 + |sc.summary| + |DescriptionKey|))
    requires var d := i + |HeaderText(sc.scene)| + 1 + |sc.summary| + |DescriptionKey|;
             d <= |t| && LazyBlock(t, d) == (sc.description, q)
    ensures SceneMatch(t, i) == Some((sc, q))
  {
  }

  /** The header of a scene block written at `i` reads back as the scene's number. */
  lemma HeaderOfBlock(t: string, i: nat, sc: Scene)
    requires WordAt(t, i, SceneBlock(sc))
    ensures i <= |t| && HeaderAt(t, i) == Some(Header(sc.scene, i + |HeaderText(sc.scene)|))
  {
    SceneBlockPieces(t, i, sc);
    HeaderOfRendered(t, i, sc.scene);
  }

  /** The summary field of a scene block written at `i` reads back as the scene's summary. */
  lemma SummaryOfBlock(t: string, i: nat, sc: Scene)
    requires IsLine(sc.summary) && WordAt(t, i, SceneBlock(sc))
    ensures var h := i + |HeaderText(sc.scene)|;
            h <= |t| && SummaryField(t, h) == Some((sc.summary, h + 1 + |sc.summary| + |DescriptionKey|))
  {
    SceneBlockPieces(t, i, sc);
    SummaryFieldOfLine(t, i + |HeaderText(sc.scene)|, sc.summary);
  }

  /** The description block of a scene block written at `i`, followed by the end or a marker, reads back as the scene's description. */
  lemma DescriptionOfBlock(t: string, i: nat, sc: Scene)
    requires IsLine(sc.description) && WordAt(t, i, SceneBlock(sc))
    requires i + |SceneBlock(sc)| == |t| || MarkerAt(t, i + |SceneBlock(sc)|)
    ensures var d := i + |HeaderText(sc.scene)| + 1 + |sc.summary| + |DescriptionKey|;
            d <= |t| && LazyBlock(t, d) == (sc.description, i + |SceneBlock(sc)|)
  {
    SceneBlockPieces(t, i, sc);
    LazyBlockOfLine(t, i + |HeaderText(sc.scene)| + 1 + |sc.summary| + |DescriptionKey|, sc.description, i + |SceneBlock(sc)|);
  }

  /** A scene block written at `i` and followed by the end of the text or a marker is matched as exactly that scene. */
  lemma SceneMatchOfBlock(t: string, i: nat, sc: Scene)
    requires IsLine(sc.summary) && IsLine(sc.description)
    requires WordAt(t, i, SceneBlock(sc))
    requires i + |SceneBlock(sc)| == |t| || MarkerAt(t, i + |SceneBlock(sc)|)
    ensures SceneMatch(t, i) == Some((sc, i + |SceneBlock(sc)|))
  {
    HeaderOfBlock(t, i, sc);
    SummaryOfBlock(t, i, sc);
    DescriptionOfBlock(t, i, sc);
    SceneMatchFromPieces(t, i, sc, i + |SceneBlock(sc)|);
  }

  /** A rendered, non-empty list of scene blocks opens with a header. */
  lemma RenderedScenesStartWithHeader(t: string, i: nat, scs: seq<Scene>)
    requires scs != [] && WordAt(t, i, RenderScenes(scs))
    ensures HeaderAt(t, i).Some?
  {
    if |scs| > 1 {
      RenderedScenesSplit(t, i, scs);
    }
    SceneBlockPieces(t, i, scs[0]);
    HeaderOfRendered(t, i, scs[0].scene);
  }

  /** Rendered scenes are the first block, a line break, and the rendering of the rest. */
  lemma RenderedScenesSplit(t: string, i: nat, scs: seq<Scene>)
    requires |scs| > 1 && WordAt(t, i, RenderScenes(scs))
    ensures var q := i + |SceneBlock(scs[0])|;
            && WordAt(t, i, SceneBlock(scs[0])) && q < |t| && t[q] == '\n'
            && WordAt(t, q + 1, RenderScenes(scs[1..]))
            && i + |RenderScenes(scs)| == q + 1 + |RenderScenes(scs[1..])|
  {
    assert RenderScenes(scs) == SceneBlock(scs[0]) + "\n" + RenderScenes(scs[1..]);
    WordAtJoin(t, i, SceneBlock(scs[0]), RenderScenes(scs[1..]));
  }

  /**
   * Scenes rendered at `i`, up to the end of the text, are scanned back
   * unchanged and in order by any matcher that reads a rendered block as its
   * scene and matches nothing at a line break.
   */
  lemma {:induction false} ScanRenderedScenes(m: nat -> Option<(Scene, nat)>, t: string, i: nat, scs: seq<Scene>)
    requires Advancing(m, |t|)
    requires forall k :: 0 <= k < |scs| ==> IsLine(scs[k].summary) && IsLine(scs[k].description)
    requires WordAt(t, i, RenderScenes(scs)) && i + |RenderScenes(scs)| == |t|
    requires forall p: nat :: p < |t| && t[p] == '\n' ==> m(p).None?
    requires forall p: nat, sc: Scene {:trigger WordAt(t, p, SceneBlock(sc))} ::
               IsLine(sc.summary) && IsLine(sc.description) && WordAt(t, p, SceneBlock(sc))
               && (p + |SceneBlock(sc)| == |t| || MarkerAt(t, p + |SceneBlock(sc)|))
               ==> m(p) == Some((sc, p + |SceneBlock(sc)|))
    ensures FindAll(m, |t|, i) == scs
    decreases |scs|
  {
    if scs == [] {
      assert m(i).None?;
    } else if |scs| == 1 {
      assert RenderScenes(scs) == SceneBlock(scs[0]);
      FindAllStep(m, |t|, i, scs[0], |t|);
      assert m(|t|).None?;
    } else {
      ScanFirstBlock(m, t, i, scs);
      ScanRenderedScenes(m, t, i + |SceneBlock(scs[0])| + 1, scs[1..]);
      assert scs == [scs[0]] + scs[1..];
    }
  }

  /** The first of several rendered blocks is scanned as its scene; the scan resumes after the line break that ends it. */
  lemma ScanFirstBlock(m: nat -> Option<(Scene, nat)>, t: string, i: nat, scs: seq<Scene>)
    requires Advancing(m, |t|) && |scs| > 1
    requires IsLine(scs[0].summary) && IsLine(scs[0].description)
    requires WordAt(t, i, RenderScenes(scs)) && i + |RenderScenes(scs)| == |t|
    requires forall p: nat :: p < |t| && t[p] == '\n' ==> m(p).None?
    requires forall p: nat, sc: Scene {:trigger WordAt(t, p, SceneBlock(sc))} ::
               IsLine(sc.summary) && IsLine(sc.description) && WordAt(t, p, SceneBlock(sc))
               && (p + |SceneBlock(sc)| == |t| || MarkerAt(t, p + |SceneBlock(sc)|))
               ==> m(p) == Some((sc, p + |SceneBlock(sc)|))
    ensures var r := i + |SceneBlock(scs[0])| + 1;
            && r <= |t| && FindAll(m, |t|, i) == [scs[0]] + FindAll(m, |t|, r)
            && WordAt(t, r, RenderScenes(scs[1..])) && r + |RenderScenes(scs[1..])| == |t|
  {
    RenderedScenesSplit(t, i, scs);
    var q := i + |SceneBlock(scs[0])|;
    RenderedScenesStartWithHeader(t, q + 1, scs[1..]);
    assert MarkerAt(t, q);
    FindAllStep(m, |t|, i, scs[0], q);
    FindAllNext(m, |t|, q);
  }

  /** Applying a matcher within the text is applying its pattern. */
  lemma SceneMatcherAt(t: string, p: nat)
    requires p <= |t|
    ensures SceneMatcher(t)(p) == SceneMatch(t, p)
  {
  }

  lemma PromptMatcherAt(t: string, p: nat)
    requires p <= |t|
    ensures PromptMatcher(t)(p) == PromptMatch(t, p)
  {
  }

  /** Neither matcher matches anything at a line break. */
  lemma MatchersSkipBreaks(t: string)
    ensures forall p: nat :: p < |t| && t[p] == '\n' ==> SceneMatcher(t)(p).None?
    ensures forall p: nat :: p < |t| && t[p] == '\n' ==> PromptMatcher(t)(p).None?
  {
    forall p: nat | p < |t| && t[p] == '\n'
      ensures SceneMatcher(t)(p).None? && PromptMatcher(t)(p).None?
    {
      NoMatchAtBreak(t, p);
    }
  }

  /** The scene matcher reads a well-formed block as its scene. */
  lemma SceneMatcherReadsBlocks(t: string)
    ensures forall p: nat, sc: Scene {:trigger WordAt(t, p, SceneBlock(sc))} ::
              IsLine(sc.summary) && IsLine(sc.description) && WordAt(t, p, SceneBlock(sc))
              && (p + |SceneBlock(sc)| == |t| || MarkerAt(t, p + |SceneBlock(sc)|))
              ==> SceneMatcher(t)(p) == Some((sc, p + |SceneBlock(sc)|))
  {
    forall p: nat, sc: Scene |
      IsLine(sc.summary) && IsLine(sc.description) && WordAt(t, p, SceneBlock(sc))
      && (p + |SceneBlock(sc)| == |t| || MarkerAt(t, p + |SceneBlock(sc)|))
      ensures SceneMatcher(t)(p) == Some((sc, p + |SceneBlock(sc)|))
    {
      SceneMatchOfBlock(t, p, sc);
      SceneMatcherAt(t, p);
    }
  }

  /** Scenes written in the requested layout are parsed back unchanged, in order. */
  lemma ParseRenderedScenes(scs: seq<Scene>)
    requires forall sc :: sc in scs ==> IsLine(sc.summary) && IsLine(sc.description)
    ensures ParseScenes(RenderScenes(scs)) == scs
  {
    var t := RenderScenes(scs);
    MatchersSkipBreaks(t);
    SceneMatcherReadsBlocks(t);
    ScanRenderedScenes(SceneMatcher(t), t, 0, scs);
  }

  /** The prompt pattern reads a line from its pieces: the header, one space and the text. */
  lemma PromptMatchAt(t: string, i: nat, n: nat, text: string, q: nat)
    requires IsLine(text) && WordAt(t, i, HeaderText(n))
    requires i + |HeaderText(n)| < |t| && t[i + |HeaderText(n)|] == ' '
    requires WordAt(t, i + |HeaderText(n)| + 1, text) && q == i + |HeaderText(n)| + 1 + |text|
    requires q == |t| || MarkerAt(t, q)
    ensures PromptMatch(t, i) == Some(((n, text), q))
  {
    HeaderOfRendered(t, i, n);
    LazyBlockOfLine(t, i + |HeaderText(n)|, text, q);
  }

  /** A prompt line written at `i` and followed by the end of the text or a marker is matched as exactly that line. */
  lemma PromptMatchOfLine(t: string, i: nat, n: nat, text: string)
    requires IsLine(text) && WordAt(t, i, PromptLine(n, text))
    requires i + |PromptLine(n, text)| == |t| || MarkerAt(t, i + |PromptLine(n, text)|)
    ensures PromptMatch(t, i) == Some(((n, text), i + |PromptLine(n, text)|))
  {
    var head := HeaderText(n);
    WordAtAppend(t, i, head + " ", text);
    WordAtAppend(t, i, head, " ");
    WordAtChar(t, i + |head|, " ", 0);
    PromptMatchAt(t, i, n, text, i + |PromptLine(n, text)|);
  }

  /** A rendered scene list is its first line, a line break, and the rendering of the rest. */
  lemma DescriptionsTextSplit(t: string, i: nat, scs: seq<Scene>)
    requires |scs| > 1 && WordAt(t, i, DescriptionsText(scs))
    ensures var q := i + |PromptLine(scs[0].scene, scs[0].description)|;
            && WordAt(t, i, PromptLine(scs[0].scene, scs[0].description)) && q < |t| && t[q] == '\n'
            && WordAt(t, q + 1, DescriptionsText(scs[1..]))
            && i + |DescriptionsText(scs)| == q + 1 + |DescriptionsText(scs[1..])|
  {
    assert DescriptionsText(scs) == PromptLine(scs[0].scene, scs[0].description) + "\n" + DescriptionsText(scs[1..]);
    WordAtJoin(t, i, PromptLine(scs[0].scene, scs[0].description), DescriptionsText(scs[1..]));
  }

  /** A rendered, non-empty scene list opens with a header. */
  lemma DescriptionsTextStartsWithHeader(t: string, i: nat, scs: seq<Scene>)
    requires scs != [] && WordAt(t, i, DescriptionsText(scs))
    ensures HeaderAt(t, i).Some?
  {
    if |scs| > 1 {
      DescriptionsTextSplit(t, i, scs);
    }
    WordAtAppend(t, i, HeaderText(scs[0].scene) + " ", scs[0].description);
    WordAtAppend(t, i, HeaderText(scs[0].scene), " ");
    HeaderOfRendered(t, i, scs[0].scene);
  }

  /** The pairs `(scene, description)` of a list of scenes. */
  function NumberedDescriptions(scs: seq<Scene>): (r: seq<(nat, string)>)
    ensures |r| == |scs|
    ensures forall k :: 0 <= k < |scs| ==> r[k] == (scs[k].scene, scs[k].description)
    decreases |scs|
  {
    if scs == [] then [] else [(scs[0].scene, scs[0].description)] + NumberedDescriptions(scs[1..])
  }

  /**
   * Prompt lines rendered at `i`, up to the end of the text, are scanned
   * back as the same numbered texts by any matcher that reads a rendered
   * line as its pair and matches nothing at a line break.
   */
  lemma {:induction false} ScanRenderedLines(m: nat -> Option<((nat, string), nat)>, t: string, i: nat, scs: seq<Scene>)
    requires Advancing(m, |t|)
    requires forall sc :: sc in scs ==> IsLine(sc.description)
    requires WordAt(t, i, DescriptionsText(scs)) && i + |DescriptionsText(scs)| == |t|
    requires forall p: nat :: p < |t| && t[p] == '\n' ==> m(p).None?
    requires forall p: nat, n: nat, text: string {:trigger WordAt(t, p, PromptLine(n, text))} ::
               IsLine(text) && WordAt(t, p, PromptLine(n, text))
               && (p + |PromptLine(n, text)| == |t| || MarkerAt(t, p + |PromptLine(n, text)|))
               ==> m(p) == Some(((n, text), p + |PromptLine(n, text)|))
    ensures FindAll(m, |t|, i) == NumberedDescriptions(scs)
    decreases |scs|
  {
    if scs == [] {
      assert m(i).None?;
    } else {
      var line := PromptLine(scs[0].scene, scs[0].description);
      if |scs| == 1 {
        assert DescriptionsText(scs) == line;
        FindAllStep(m, |t|, i, (scs[0].scene, scs[0].description), |t|);
        assert m(|t|).None?;
      } else {
        DescriptionsTextSplit(t, i, scs);
        var q := i + |line|;
        DescriptionsTextStartsWithHeader(t, q + 1, scs[1..]);
        assert MarkerAt(t, q) && scs[0] in scs;
        FindAllStep(m, |t|, i, (scs[0].scene, scs[0].description), q);
        FindAllNext(m, |t|, q);
        assert forall sc :: sc in scs[1..] ==> sc in scs;
        ScanRenderedLines(m, t, q + 1, scs[1..]);
      }
    }
  }

  /** The prompt matcher reads a well-formed line as its pair. */
  lemma PromptMatcherReadsLines(t: string)
    ensures forall p: nat, n: nat, text: string {:trigger WordAt(t, p, PromptLine(n, text))} ::
              IsLine(text) && WordAt(t, p, PromptLine(n, text))
              && (p + |PromptLine(n, text)| == |t| || MarkerAt(t, p + |PromptLine(n, text)|))
              ==> PromptMatcher(t)(p) == Some(((n, text), p + |PromptLine(n, text)|))
  {
    forall p: nat, n: nat, text: string |
      IsLine(text) && WordAt(t, p, PromptLine(n, text))
      && (p + |PromptLine(n, text)| == |t| || MarkerAt(t, p + |PromptLine(n, text)|))
      ensures PromptMatcher(t)(p) == Some(((n, text), p + |PromptLine(n, text)|))
    {
      PromptMatchOfLine(t, p, n, text);
      PromptMatcherAt(t, p);
    }
  }

  /**
   * A reply laid out like the scene list the image-prompt request sends is
   * read back as the same numbered texts, in order.
   */
  lemma ScanDescriptionsText(scs: seq<Scene>)
    requires forall sc :: sc in scs ==> IsLine(sc.description)
    ensures ScanPrompts(DescriptionsText(scs)) == NumberedDescriptions(scs)
  {
    var t := DescriptionsText(scs);
    MatchersSkipBreaks(t);
    PromptMatcherReadsLines(t);
    ScanRenderedLines(PromptMatcher(t), t, 0, scs);
  }
}
