/**
 * The older `RecipesCommand` (package `bot`): the same ingredients query
 * without any translation. The search sees the input as typed, the titles
 * are listed as found, and the details text is built in place from the
 * response with the same tag cleanup as `RecipeParser`.
 */
module LegacyRecipes {
  import opened JavaLang
  import opened RecipeParsing
  import opened InlineKeyboards
  import opened Messaging
  import opened Recipes

  /** A translation service that returns its input. */
  function Untranslated(t: string): Translation {
    Text(t)
  }

  /** The untranslated keyboard: one row per title, the title itself on the button. */
  function TitleKeyboard(titles: seq<string>, ids: seq<int>): InlineKeyboard
    requires |titles| <= |ids|
  {
    InlineKeyboard(seq(|titles|, i requires 0 <= i < |titles| => [InlineButton(titles[i], CallbackData(PickRecipe(ids[i])))]))
  }

  /** `createRecipeSelectionKeyboard`: one single-button row per title, in order, with callback `recipe_<id>`. */
  method CreateRecipeSelectionKeyboard(titles: seq<string>, ids: seq<int>) returns (k: InlineKeyboard)
    requires |titles| <= |ids|
    ensures |k.rows| == |titles|
    ensures forall i :: 0 <= i < |titles| ==> k.rows[i] == [InlineButton(titles[i], CallbackData(PickRecipe(ids[i])))]
    ensures k == TitleKeyboard(titles, ids)
  {
    var rows: seq<seq<InlineButton>> := [];
    for i := 0 to |titles|
      invariant |rows| == i
      invariant forall j :: 0 <= j < i ==> rows[j] == [InlineButton(titles[j], CallbackData(PickRecipe(ids[j])))]
    {
      rows := rows + [[InlineButton(titles[i], CallbackData(PickRecipe(ids[i])))]];
    }
    return InlineKeyboard(rows);
  }

  /** With a translation that returns its input, the newer keyboard is this one. */
  lemma {:induction false} IdentityTranslationKeyboard(titles: seq<string>, ids: seq<int>)
    requires |titles| <= |ids|
    ensures RecipeKeyboard(titles, ids, Untranslated) == Some(TitleKeyboard(titles, ids))
  {
    if titles != [] {
      var n := |titles| - 1;
      IdentityTranslationKeyboard(titles[..n], ids);
      var before := TitleKeyboard(titles[..n], ids).rows;
      var rows := TitleKeyboard(titles, ids).rows;
      assert Shown(Untranslated(titles[n])) == titles[n];
      assert rows == before + [[InlineButton(titles[n], CallbackData(PickRecipe(ids[n])))]];
      assert RecipeKeyboard(titles, ids, Untranslated) == Some(InlineKeyboard(rows));
    } else {
      assert TitleKeyboard(titles, ids).rows == [];
    }
  }

  /** `findRecipes` of the older variant: the search fails, finds nothing, or finds a list. */
  function FindRecipes(input: string, chatId: int, svc: RecipeServices): (m: SendMessage)
    ensures m.chatId == chatId
    ensures m.markup.InlineMarkup? ==> StartsWith(m.text, Header)
  {
    match svc.search(input, "", "")
    case None => SendMessage(chatId, SearchError, NoMarkup)
    case Some(response) =>
      var json := svc.readSearch(response);
      var titles := RecipeTitles(json);
      var ids := RecipeIds(json);
      if titles == [] then SendMessage(chatId, NotFound, NoMarkup)
      else
        var text := Header + Join(titles, "\n");
        assert text[..|Header|] == Header;
        SendMessage(chatId, text, InlineMarkup(TitleKeyboard(titles, ids)))
  }

  /** `getContent` of the older variant. */
  function GetContent(chatId: int, input: Option<string>, svc: RecipeServices): (m: SendMessage)
    ensures m.chatId == chatId && !m.markup.ReplyMarkup?
  {
    if input.None? || input.value == "" then SendMessage(chatId, CannotProcess, NoMarkup)
    else FindRecipes(input.value, chatId, svc)
  }

  /** A null or empty input is answered without any service: replacing all of them changes nothing. */
  lemma EmptyInputCallsNoService(chatId: int, input: Option<string>, svc: RecipeServices, other: RecipeServices)
    requires input.None? || input.value == ""
    ensures GetContent(chatId, input, svc) == GetContent(chatId, input, other)
    ensures GetContent(chatId, input, svc).text == CannotProcess && GetContent(chatId, input, svc).markup.NoMarkup?
  {
  }

  /**
   * A search with results is answered with the titles joined by newlines
   * and a keyboard with one `recipe_<id>` button per title; the query is the
   * input itself.
   */
  lemma FindRecipesFound(input: string, chatId: int, svc: RecipeServices, response: string)
    requires svc.search(input, "", "") == Some(response)
    requires RecipeTitles(svc.readSearch(response)) != []
    ensures var m := FindRecipes(input, chatId, svc);
            var titles := RecipeTitles(svc.readSearch(response));
            var ids := RecipeIds(svc.readSearch(response));
            m.text == Header + Join(titles, "\n") && m.markup.InlineMarkup? &&
            |m.markup.inline.rows| == |titles| &&
            forall i :: 0 <= i < |titles| ==>
              m.markup.inline.rows[i] == [InlineButton(titles[i], CallbackData(PickRecipe(ids[i])))]
  {
  }

  /** No results, or a failed search: a fixed text and no keyboard. */
  lemma FindRecipesWithoutList(input: string, chatId: int, svc: RecipeServices)
    requires svc.search(input, "", "").None? || RecipeTitles(svc.readSearch(svc.search(input, "", "").value)) == []
    ensures var m := FindRecipes(input, chatId, svc);
            m.markup.NoMarkup? &&
            m.text == if svc.search(input, "", "").None? then SearchError else NotFound
  {
  }

  /** The details text, or the fixed error when fetching fails or the response is not JSON. */
  function LegacyDetailsText(recipeId: int, svc: RecipeServices): (r: string)
    ensures svc.information(recipeId).None? ==> r == DetailsFailure
    ensures svc.information(recipeId).Some? && svc.readDetails(svc.information(recipeId).value).MalformedDetails? ==>
              r == DetailsFailure
  {
    match svc.information(recipeId)
    case None => DetailsFailure
    case Some(response) =>
      match svc.readDetails(response)
      case MalformedDetails => DetailsFailure
      case Details(title, instructions) => ChosenPrefix + title + GuideHeading + Instructions(instructions)
  }

  /** `getRecipeDetails(recipeId)` of the older variant. */
  method GetRecipeDetails(recipeId: int, svc: RecipeServices) returns (r: string)
    ensures r == LegacyDetailsText(recipeId, svc)
  {
    var response := svc.information(recipeId);
    if response.None? {
      return DetailsFailure;
    }
    var json := svc.readDetails(response.value);
    if json.MalformedDetails? {
      return DetailsFailure;
    }
    var instructions := CleanTags(json.instructions);
    if instructions == [] {
      instructions := NoInstructions;
    }
    return ChosenPrefix + json.title + GuideHeading + instructions;
  }

  /**
   * The details of a readable response name the recipe and end with the
   * cleaned instructions; plain non-empty instructions are shown as they came.
   */
  lemma LegacyDetailsShape(recipeId: int, svc: RecipeServices, response: string, title: string, raw: string)
    requires svc.information(recipeId) == Some(response)
    requires svc.readDetails(response) == Details(title, raw)
    ensures var r := LegacyDetailsText(recipeId, svc);
            StartsWith(r, ChosenPrefix + title) &&
            r[|r| - |Instructions(raw)|..] == Instructions(raw)
    ensures '<' !in raw && raw != [] ==> LegacyDetailsText(recipeId, svc) == ChosenPrefix + title + GuideHeading + raw
  {
    var r := LegacyDetailsText(recipeId, svc);
    var head := ChosenPrefix + title;
    assert r == head + (GuideHeading + Instructions(raw));
    assert r[..|head|] == head;
    assert r == (head + GuideHeading) + Instructions(raw);
    if '<' !in raw {
      InstructionsOfPlainText(raw);
    }
  }

  /**
   * With a translation that returns its input, the newer parser produces
   * the same details text as this variant, as long as the cleaned
   * instructions fit in one translated part.
   */
  lemma SameDetailsWithoutTranslation(json: DetailsJson)
    requires json.Details? && |Instructions(json.instructions)| <= PartLimit
    ensures DetailsText(json, Untranslated) ==
              ChosenPrefix + json.title + GuideHeading + Instructions(json.instructions)
  {
  }
}
