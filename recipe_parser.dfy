/**
 * `RecipeParser` (package `recipes`): reading the search and details
 * responses, the HTML-tag cleanup of the instructions, and the chunked
 * translation of long texts. The translation service, the recipe service
 * and Jackson's tree parser are outside the model: a translation is a
 * function argument, and a response arrives already parsed.
 */
module RecipeParsing {
  import opened JavaLang

  /**
   * One call to the translation service: the translated text, `null` (a
   * reply without `responseData`), or an unchecked exception (a reply that
   * is not JSON).
   */
  datatype Translation = Text(text: string) | NullText | Crash

  /** The translation as string concatenation prints it. */
  function Shown(t: Translation): string
    requires !t.Crash?
  {
    if t.Text? then t.text else "null"
  }

  /** An element of `results`: `path("id").asInt()` and `path("title").asText()`. */
  datatype RecipeNode = RecipeNode(id: int, title: string)

  /** A search response: not JSON, or the elements of its `results` (none when absent). */
  datatype SearchJson = MalformedSearch | Results(nodes: seq<RecipeNode>)

  /** A details response: not JSON, or its `title` and `instructions` read with `asText()`. */
  datatype DetailsJson = MalformedDetails | Details(title: string, instructions: string)

  // ---------------------------------------------------------------- ids and titles

  /** The ids of the search results, in order; none for a malformed response. */
  function RecipeIds(json: SearchJson): (ids: seq<int>)
    ensures json.MalformedSearch? ==> ids == []
    ensures json.Results? ==> |ids| == |json.nodes| && forall i :: 0 <= i < |ids| ==> ids[i] == json.nodes[i].id
  {
    if json.MalformedSearch? then [] else seq(|json.nodes|, i requires 0 <= i < |json.nodes| => json.nodes[i].id)
  }

  /** The titles of the search results, in order; none for a malformed response. */
  function RecipeTitles(json: SearchJson): (titles: seq<string>)
    ensures json.MalformedSearch? ==> titles == []
    ensures json.Results? ==> |titles| == |json.nodes| && forall i :: 0 <= i < |titles| ==> titles[i] == json.nodes[i].title
  {
    if json.MalformedSearch? then [] else seq(|json.nodes|, i requires 0 <= i < |json.nodes| => json.nodes[i].title)
  }

  /** Both lists come from the same `results`, so there are as many ids as titles. */
  lemma IdsMatchTitles(json: SearchJson)
    ensures |RecipeIds(json)| == |RecipeTitles(json)|
  {
  }

  method ParseRecipeIds(json: SearchJson) returns (ids: seq<int>)
    ensures ids == RecipeIds(json)
  {
    ids := [];
    if json.MalformedSearch? {
      return;
    }
    for i := 0 to |json.nodes|
      invariant ids == RecipeIds(Results(json.nodes[..i]))
    {
      ids := ids + [json.nodes[i].id];
    }
    assert json.nodes[..|json.nodes|] == json.nodes;
  }

  method ParseRecipeTitles(json: SearchJson) returns (titles: seq<string>)
    ensures titles == RecipeTitles(json)
  {
    titles := [];
    if json.MalformedSearch? {
      return;
    }
    for i := 0 to |json.nodes|
      invariant titles == RecipeTitles(Results(json.nodes[..i]))
    {
      titles := titles + [json.nodes[i].title];
    }
    assert json.nodes[..|json.nodes|] == json.nodes;
  }

  // ---------------------------------------------------------------- tag cleanup

  const NoInstructions: string := "Инструкции отсутствуют."

  /** The eight literal replacements, applied in this order. */
  function CleanTags(s: string): (r: string)
    ensures forall c :: c in r ==> c in s || c in "\n- "
  {
    var s1 := ReplaceAll(s, "<ol>", "\n");
    var s2 := ReplaceAll(s1, "</ol>", "");
    var s3 := ReplaceAll(s2, "<li>", "- ");
    var s4 := ReplaceAll(s3, "</li>", "\n");
    var s5 := ReplaceAll(s4, "<b>", "");
    var s6 := ReplaceAll(s5, "</b>", "");
    var s7 := ReplaceAll(s6, "<i>", "");
    ReplaceAll(s7, "</i>", "")
  }

  /** The cleaned instructions, or the fixed notice when nothing is left. */
  function Instructions(raw: string): (r: string)
    ensures r != []
    ensures CleanTags(raw) == [] ==> r == NoInstructions
    ensures CleanTags(raw) != [] ==> r == CleanTags(raw)
  {
    var cleaned := CleanTags(raw);
    if cleaned == [] then NoInstructions else cleaned
  }

  /** Text without a `<` has no tag to remove and passes through unchanged. */
  lemma CleanTagsKeepsPlainText(s: string)
    requires '<' !in s
    ensures CleanTags(s) == s
  {
    ReplaceAllAbsent(s, "<ol>", "\n");
    ReplaceAllAbsent(s, "</ol>", "");
    ReplaceAllAbsent(s, "<li>", "- ");
    ReplaceAllAbsent(s, "</li>", "\n");
    ReplaceAllAbsent(s, "<b>", "");
    ReplaceAllAbsent(s, "</b>", "");
    ReplaceAllAbsent(s, "<i>", "");
    ReplaceAllAbsent(s, "</i>", "");
  }

  /** Non-empty instructions without tags are shown as they are; empty ones get the notice. */
  lemma InstructionsOfPlainText(s: string)
    requires '<' !in s
    ensures Instructions(s) == if s == [] then NoInstructions else s
  {
    CleanTagsKeepsPlainText(s);
  }

  // ---------------------------------------------------------------- sentence split

  predicate IsTerminator(c: char) {
    c == '.' || c == '!' || c == '?'
  }

  /** `\s` of `java.util.regex`: space, tab, newline, vertical tab, form feed, carriage return. */
  predicate IsRegexSpace(c: char) {
    c == ' ' || c == '\t' || c == '\n' || c == '\U{0B}' || c == '\U{0C}' || c == '\r'
  }

  function SkipSpaces(s: string): (r: string)
    ensures |r| <= |s|
    ensures r == [] || !IsRegexSpace(r[0])
  {
    if s == [] || !IsRegexSpace(s[0]) then s else SkipSpaces(s[1..])
  }

  /** Index of the first terminator, or `|s|` when there is none. */
  function FirstTerminator(s: string): (i: nat)
    ensures i <= |s|
    ensures i < |s| ==> IsTerminator(s[i])
    ensures forall k :: 0 <= k < i ==> !IsTerminator(s[k])
  {
    if s == [] then 0 else if IsTerminator(s[0]) then 0 else 1 + FirstTerminator(s[1..])
  }

  /**
   * `s.split("(?<=[.!?])\\s*")` for a non-empty `s`: a cut after every
   * terminator, the whitespace right after it dropped, and the trailing
   * empty piece removed.
   */
  function SplitSentences(s: string): (r: seq<string>)
    ensures forall k :: 0 <= k < |r| ==> |r[k]| > 0
    decreases |s|
  {
    if s == [] then []
    else
      var i := FirstTerminator(s);
      if i == |s| then [s]
      else [s[..i + 1]] + SplitSentences(SkipSpaces(s[i + 1..]))
  }

  /** Every piece but the last ends with its only terminator; the last may have none. */
  predicate SentenceShape(piece: string, isLast: bool) {
    |piece| > 0 &&
    (forall i :: 0 <= i < |piece| - 1 ==> !IsTerminator(piece[i])) &&
    (!isLast ==> IsTerminator(piece[|piece| - 1]))
  }

  lemma {:induction false} SplitSentencesShape(s: string)
    ensures var r := SplitSentences(s);
            forall k :: 0 <= k < |r| ==> SentenceShape(r[k], k == |r| - 1)
    decreases |s|
  {
    if s != [] {
      var i := FirstTerminator(s);
      if i < |s| {
        var rest := SkipSpaces(s[i + 1..]);
        SplitSentencesShape(rest);
        var r := SplitSentences(s);
        assert r == [s[..i + 1]] + SplitSentences(rest);
        assert SentenceShape(s[..i + 1], false);
        forall k | 1 <= k < |r|
          ensures SentenceShape(r[k], k == |r| - 1)
        {
          assert r[k] == SplitSentences(rest)[k - 1];
        }
      }
    }
  }

  /** The text with every run of whitespace that follows a terminator removed. */
  function DropSpacesAfterTerminators(s: string): string
    decreases |s|
  {
    if s == [] then []
    else if IsTerminator(s[0]) then [s[0]] + DropSpacesAfterTerminators(SkipSpaces(s[1..]))
    else [s[0]] + DropSpacesAfterTerminators(s[1..])
  }

  /** Concatenation, as `StringBuilder.append` in a loop. */
  function Concat(xs: seq<string>): string {
    if xs == [] then "" else xs[0] + Concat(xs[1..])
  }

  lemma {:induction false} ConcatAppend(xs: seq<string>, ys: seq<string>)
    ensures Concat(xs + ys) == Concat(xs) + Concat(ys)
  {
    if xs == [] {
      assert xs + ys == ys;
    } else {
      assert (xs + ys)[1..] == xs[1..] + ys;
      ConcatAppend(xs[1..], ys);
    }
  }

  /** Up to the first terminator the text has no terminator and is kept as it is. */
  lemma {:induction false} DropSpacesBeforeTerminator(s: string, i: nat)
    requires i <= |s| && forall k :: 0 <= k < i ==> !IsTerminator(s[k])
    ensures DropSpacesAfterTerminators(s) == s[..i] + DropSpacesAfterTerminators(s[i..])
  {
    if i > 0 {
      DropSpacesBeforeTerminator(s[1..], i - 1);
      assert s[1..][i - 1..] == s[i..];
      assert s[..i] == [s[0]] + s[1..][..i - 1];
    }
  }

  /** Up to and including the first terminator the text is kept; the whitespace after it is dropped. */
  lemma {:induction false} DropSpacesThroughTerminator(s: string, i: nat)
    requires i < |s| && IsTerminator(s[i]) && forall k :: 0 <= k < i ==> !IsTerminator(s[k])
    ensures DropSpacesAfterTerminators(s) == s[..i + 1] + DropSpacesAfterTerminators(SkipSpaces(s[i + 1..]))
  {
    if i > 0 {
      DropSpacesThroughTerminator(s[1..], i - 1);
      assert s[1..][i..] == s[i + 1..];
      assert s[..i + 1] == [s[0]] + s[1..][..i];
    }
  }

  lemma {:induction false} SplitSentencesCovers(s: string)
    ensures Concat(SplitSentences(s)) == DropSpacesAfterTerminators(s)
    decreases |s|
  {
    if s != [] {
      var i := FirstTerminator(s);
      if i == |s| {
        DropSpacesBeforeTerminator(s, i);
        assert s[i..] == [];
        assert s[..i] == s;
      } else {
        SplitSentencesCovers(SkipSpaces(s[i + 1..]));
        DropSpacesThroughTerminator(s, i);
      }
    }
  }

  // ---------------------------------------------------------------- greedy packing

  /** Flush limit of the packing loop. */
  const PartLimit: int := 499

  /** State of the packing loop: the parts flushed so far (untrimmed) and the part being built. */
  datatype Packing = Packing(parts: seq<string>, current: string)

  /** One iteration: flush when the sentence would push the part past the limit, then append it and a space. */
  function PackStep(p: Packing, sentence: string): Packing {
    if |p.current| + |sentence| > PartLimit then Packing(p.parts + [p.current], sentence + " ")
    else Packing(p.parts, p.current + sentence + " ")
  }

  function PackAll(sentences: seq<string>): Packing {
    if sentences == [] then Packing([], "")
    else PackStep(PackAll(sentences[..|sentences| - 1]), sentences[|sentences| - 1])
  }

  /** The parts before trimming: the flushed ones, then the last one if not empty. */
  function RawParts(sentences: seq<string>): seq<string> {
    var p := PackAll(sentences);
    if p.current != [] then p.parts + [p.current] else p.parts
  }

  /** The parts as the loop stores them, each trimmed. */
  function TrimAll(parts: seq<string>): (r: seq<string>)
    ensures |r| == |parts| && forall i :: 0 <= i < |r| ==> r[i] == Trim(parts[i])
  {
    seq(|parts|, i requires 0 <= i < |parts| => Trim(parts[i]))
  }

  lemma TrimAllAppend(parts: seq<string>, part: string)
    ensures TrimAll(parts + [part]) == TrimAll(parts) + [Trim(part)]
  {
  }

  function Parts(sentences: seq<string>): seq<string> {
    TrimAll(RawParts(sentences))
  }

  /** Every sentence followed by one space, in order. */
  function Spaced(sentences: seq<string>): string {
    if sentences == [] then "" else Spaced(sentences[..|sentences| - 1]) + sentences[|sentences| - 1] + " "
  }

  lemma {:induction false} PackAllCovers(sentences: seq<string>)
    ensures Concat(PackAll(sentences).parts) + PackAll(sentences).current == Spaced(sentences)
  {
    if sentences != [] {
      var init := sentences[..|sentences| - 1];
      PackAllCovers(init);
      var p := PackAll(init);
      if |p.current| + |sentences[|sentences| - 1]| > PartLimit {
        ConcatAppend(p.parts, [p.current]);
      }
    }
  }

  /** The parts, before trimming, hold every sentence exactly once, in order, each followed by a space. */
  lemma RawPartsCover(sentences: seq<string>)
    ensures Concat(RawParts(sentences)) == Spaced(sentences)
  {
    PackAllCovers(sentences);
    var p := PackAll(sentences);
    if p.current != [] {
      ConcatAppend(p.parts, [p.current]);
    }
  }

  /** A part may exceed the limit plus the space only when it is one sentence and its space. */
  predicate FitsOrSingle(part: string, sentences: seq<string>) {
    |part| <= PartLimit + 1 || (|part| > 0 && part[|part| - 1] == ' ' && part[..|part| - 1] in sentences)
  }

  lemma {:induction false} PackAllBounded(sentences: seq<string>)
    ensures var p := PackAll(sentences);
            FitsOrSingle(p.current, sentences) && forall k :: 0 <= k < |p.parts| ==> FitsOrSingle(p.parts[k], sentences)
  {
    if sentences != [] {
      var init := sentences[..|sentences| - 1];
      var last := sentences[|sentences| - 1];
      PackAllBounded(init);
      var p := PackAll(init);
      assert forall x :: x in init ==> x in sentences;
      assert (last + " ")[..|last|] == last;
    }
  }

  /** Every part is at most 500 characters before trimming, or holds a single sentence. */
  lemma RawPartsBounded(sentences: seq<string>)
    ensures forall k :: 0 <= k < |RawParts(sentences)| ==> FitsOrSingle(RawParts(sentences)[k], sentences)
  {
    PackAllBounded(sentences);
  }

  /** Flushed parts are never taken back: the parts after a prefix start the final parts. */
  lemma {:induction false} PackAllGrows(sentences: seq<string>, n: nat)
    requires n <= |sentences|
    ensures PackAll(sentences[..n]).parts <= PackAll(sentences).parts
    decreases |sentences|
  {
    if n < |sentences| {
      var init := sentences[..|sentences| - 1];
      assert init[..n] == sentences[..n];
      PackAllGrows(init, n);
    } else {
      assert sentences[..n] == sentences;
    }
  }

  /** A first sentence longer than the limit flushes the empty part first. */
  lemma LongFirstSentenceGivesEmptyPart(sentences: seq<string>)
    requires |sentences| > 0 && |sentences[0]| > PartLimit
    ensures |RawParts(sentences)| > 1 && RawParts(sentences)[0] == ""
  {
    PackAllGrows(sentences, 1);
    assert sentences[..1][..0] == [];
    assert PackAll(sentences[..1]).parts == [""];
    assert PackAll(sentences).current != [] by {
      var init := sentences[..|sentences| - 1];
      assert PackAll(sentences).current == PackStep(PackAll(init), sentences[|sentences| - 1]).current;
    }
  }

  /** After at least one sentence the part being built is never empty, so it always ends the list. */
  lemma LastPartIsLeftover(sentences: seq<string>)
    requires |sentences| > 0
    ensures RawParts(sentences) == PackAll(sentences).parts + [PackAll(sentences).current]
  {
  }

  // ---------------------------------------------------------------- chunked translation

  /** The parts' translations, each followed by a space; `None` when one call throws. */
  function TranslateParts(parts: seq<string>, fromEnglish: string -> Translation): Option<string> {
    if parts == [] then Some("")
    else
      match TranslateParts(parts[..|parts| - 1], fromEnglish)
      case None => None
      case Some(acc) =>
        var t := fromEnglish(parts[|parts| - 1]);
        if t.Crash? then None else Some(acc + Shown(t) + " ")
  }

  /** The parts' translation fails exactly when the translation of some part throws. */
  lemma {:induction false} TranslatePartsFails(parts: seq<string>, fromEnglish: string -> Translation)
    ensures TranslateParts(parts, fromEnglish).None? <==> exists k :: 0 <= k < |parts| && fromEnglish(parts[k]).Crash?
  {
    if parts != [] {
      var init := parts[..|parts| - 1];
      TranslatePartsFails(init, fromEnglish);
      if exists k :: 0 <= k < |init| && fromEnglish(init[k]).Crash? {
        var k :| 0 <= k < |init| && fromEnglish(init[k]).Crash?;
        assert parts[k] == init[k];
      }
      if exists k :: 0 <= k < |parts| && fromEnglish(parts[k]).Crash? {
        var k :| 0 <= k < |parts| && fromEnglish(parts[k]).Crash?;
        if k < |init| {
          assert init[k] == parts[k];
        }
      }
    }
  }

  /** What `divAndTranslate` returns. */
  function DivAndTranslateSpec(s: string, fromEnglish: string -> Translation): Translation {
    if |s| > PartLimit then
      match TranslateParts(Parts(SplitSentences(s)), fromEnglish)
      case None => Crash
      case Some(text) => Text(Trim(text))
    else fromEnglish(s)
  }

  /** A long text is translated part by part; it fails only when a part's translation throws, and never yields null. */
  lemma LongTextTranslation(s: string, fromEnglish: string -> Translation)
    requires |s| > PartLimit
    ensures DivAndTranslateSpec(s, fromEnglish).NullText? == false
    ensures DivAndTranslateSpec(s, fromEnglish).Crash? <==>
              exists k :: 0 <= k < |Parts(SplitSentences(s))| && fromEnglish(Parts(SplitSentences(s))[k]).Crash?
  {
    var parts := Parts(SplitSentences(s));
    TranslatePartsFails(parts, fromEnglish);
  }

  /** The packing loop of `divAndTranslate`: flushes are stored trimmed. */
  method DivideIntoParts(sentences: seq<string>) returns (parts: seq<string>)
    ensures parts == Parts(sentences)
  {
    parts := [];
    var current := "";
    for i := 0 to |sentences|
      invariant parts == TrimAll(PackAll(sentences[..i]).parts)
      invariant current == PackAll(sentences[..i]).current
    {
      assert sentences[..i + 1][..i] == sentences[..i];
      var sentence := sentences[i];
      assert PackAll(sentences[..i + 1]) == PackStep(PackAll(sentences[..i]), sentence);
      if |current| + |sentence| > PartLimit {
        TrimAllAppend(PackAll(sentences[..i]).parts, current);
        parts := parts + [Trim(current)];
        current := "";
      }
      current := current + sentence + " ";
    }
    assert sentences[..|sentences|] == sentences;
    if current != [] {
      TrimAllAppend(PackAll(sentences).parts, current);
      parts := parts + [Trim(current)];
    }
  }

  /**
   * `divAndTranslate`: a text of at most 499 characters is translated by one
   * call on the whole text; a longer one is split into sentences, packed into
   * parts and translated part by part.
   */
  method DivAndTranslate(s: string, fromEnglish: string -> Translation) returns (r: Translation)
    ensures r == DivAndTranslateSpec(s, fromEnglish)
    ensures |s| <= PartLimit ==> r == fromEnglish(s)
  {
    if |s| > PartLimit {
      var sentences := SplitSentences(s);
      var parts := DivideIntoParts(sentences);
      var result := TranslateAll(parts, fromEnglish);
      if result.None? {
        return Crash;
      }
      return Text(Trim(result.value));
    } else {
      return fromEnglish(s);
    }
  }

  /** The translation loop of `divAndTranslate`: each part's translation and a space. */
  method TranslateAll(parts: seq<string>, fromEnglish: string -> Translation) returns (r: Option<string>)
    ensures r == TranslateParts(parts, fromEnglish)
  {
    var result := "";
    for i := 0 to |parts|
      invariant TranslateParts(parts[..i], fromEnglish) == Some(result)
    {
      assert parts[..i + 1][..i] == parts[..i];
      var t := fromEnglish(parts[i]);
      if t.Crash? {
        assert TranslateParts(parts[..i + 1], fromEnglish) == None;
        TranslateStopsAtCrash(parts, i + 1, fromEnglish);
        return None;
      }
      result := result + Shown(t) + " ";
    }
    assert parts[..|parts|] == parts;
    return Some(result);
  }

  /** Once a prefix of the parts fails, the whole list fails. */
  lemma {:induction false} TranslateStopsAtCrash(parts: seq<string>, n: nat, fromEnglish: string -> Translation)
    requires n <= |parts| && TranslateParts(parts[..n], fromEnglish).None?
    ensures TranslateParts(parts, fromEnglish).None?
    decreases |parts|
  {
    if n < |parts| {
      var init := parts[..|parts| - 1];
      assert init[..n] == parts[..n];
      TranslateStopsAtCrash(init, n, fromEnglish);
    } else {
      assert parts[..n] == parts;
    }
  }

  // ---------------------------------------------------------------- details text

  const DetailsError: string := "Произошла ошибка при обработке данных рецепта."
  const ChosenPrefix: string := "Вы выбрали рецепт: "
  const GuideHeading: string := "\n\nРуководство к действию:\n"

  /** The details message: title and instructions translated, or the error text. */
  function DetailsText(json: DetailsJson, fromEnglish: string -> Translation): string {
    if json.MalformedDetails? then DetailsError
    else
      var title := fromEnglish(json.title);
      var body := DivAndTranslateSpec(Instructions(json.instructions), fromEnglish);
      if title.Crash? || body.Crash? then DetailsError
      else ChosenPrefix + Shown(title) + GuideHeading + Shown(body)
  }

  /**
   * The details text is the error text when the response is not JSON or a
   * translation throws; otherwise it is the chosen-recipe line followed by
   * the translated title.
   */
  lemma DetailsTextCases(json: DetailsJson, fromEnglish: string -> Translation)
    ensures var failed := json.MalformedDetails? || fromEnglish(json.title).Crash? ||
                          DivAndTranslateSpec(Instructions(json.instructions), fromEnglish).Crash?;
            (failed ==> DetailsText(json, fromEnglish) == DetailsError) &&
            (!failed ==> StartsWith(DetailsText(json, fromEnglish), ChosenPrefix + Shown(fromEnglish(json.title))))
  {
    if json.Details? {
      var title := fromEnglish(json.title);
      var body := DivAndTranslateSpec(Instructions(json.instructions), fromEnglish);
      if !title.Crash? && !body.Crash? {
        var r := DetailsText(json, fromEnglish);
        var head := ChosenPrefix + Shown(title);
        assert r == head + (GuideHeading + Shown(body));
        assert r[..|head|] == head;
      }
    }
  }

  /** `getRecipeDetails(jsonResponse)`. */
  method GetRecipeDetails(json: DetailsJson, fromEnglish: string -> Translation) returns (r: string)
    ensures r == DetailsText(json, fromEnglish)
  {
    if json.MalformedDetails? {
      return DetailsError;
    }
    var title := fromEnglish(json.title);
    if title.Crash? {
      return DetailsError;
    }
    var instructions := CleanTags(json.instructions);
    if instructions == [] {
      instructions := NoInstructions;
    }
    var body := DivAndTranslate(instructions, fromEnglish);
    if body.Crash? {
      return DetailsError;
    }
    r := ChosenPrefix + Shown(title) + GuideHeading + Shown(body);
  }
}
