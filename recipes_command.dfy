/**
 * `RecipesCommand` (package `recipes`): the ingredients query. The input is
 * translated to English, sent to the recipe search, and the titles found are
 * listed (translated back) with one button per recipe. The recipe service,
 * the translation service and the JSON reader are the functions of a
 * `RecipeServices` value.
 */
module Recipes {
  import opened JavaLang
  import opened RecipeParsing
  import opened InlineKeyboards
  import opened Messaging

  /**
   * The outside services. `search` and `information` are `searchRecipes`
   * and `getRecipeInformation` (`None` when they throw); `readSearch` and
   * `readDetails` are Jackson's view of a response.
   */
  datatype RecipeServices = RecipeServices(
    toEnglish: string -> Translation,
    fromEnglish: string -> Translation,
    search: (string, string, string) -> Option<string>,
    information: int -> Option<string>,
    readSearch: string -> SearchJson,
    readDetails: string -> DetailsJson)

  const CannotProcess: string := "Не удалось обработать ваш запрос. Попробуйте снова."
  const NotFound: string := "К сожалению, рецепты не найдены. Попробуйте уточнить ингредиенты."
  const Header: string := "Рецепты, которые могут вам подойти:\n"
  const SearchError: string := "Произошла ошибка. Проверьте данные и попробуйте снова."
  const DetailsFailure: string := "Произошла ошибка при получении деталей рецепта. Попробуйте позже."

  /** The translated keyboard: `None` when translating a title throws. */
  function RecipeKeyboard(titles: seq<string>, ids: seq<int>, fromEnglish: string -> Translation): (r: Option<InlineKeyboard>)
    requires |titles| <= |ids|
    ensures r.Some? ==> |r.value.rows| == |titles|
  {
    if titles == [] then Some(InlineKeyboard([]))
    else
      var n := |titles| - 1;
      match RecipeKeyboard(titles[..n], ids, fromEnglish)
      case None => None
      case Some(k) =>
        var t := fromEnglish(titles[n]);
        if t.Crash? then None
        else Some(InlineKeyboard(k.rows + [[InlineButton(Shown(t), CallbackData(PickRecipe(ids[n])))]]))
  }

  /** The button of the recipe at index `i`: its translated title and `recipe_<id>`. */
  predicate RecipeRow(row: seq<InlineButton>, title: string, id: int, fromEnglish: string -> Translation)
    requires !fromEnglish(title).Crash?
  {
    row == [InlineButton(Shown(fromEnglish(title)), CallbackData(PickRecipe(id)))]
  }

  /**
   * The keyboard fails exactly when some title's translation throws;
   * otherwise it has one single-button row per title, in order.
   */
  lemma {:induction false} RecipeKeyboardRows(titles: seq<string>, ids: seq<int>, fromEnglish: string -> Translation)
    requires |titles| <= |ids|
    ensures RecipeKeyboard(titles, ids, fromEnglish).None? <==>
              exists k :: 0 <= k < |titles| && fromEnglish(titles[k]).Crash?
    ensures RecipeKeyboard(titles, ids, fromEnglish).Some? ==>
              var rows := RecipeKeyboard(titles, ids, fromEnglish).value.rows;
              |rows| == |titles| &&
              forall i :: 0 <= i < |titles| ==> !fromEnglish(titles[i]).Crash? && RecipeRow(rows[i], titles[i], ids[i], fromEnglish)
  {
    if titles != [] {
      var n := |titles| - 1;
      var init := titles[..n];
      RecipeKeyboardRows(init, ids, fromEnglish);
      if exists k :: 0 <= k < |init| && fromEnglish(init[k]).Crash? {
        var k :| 0 <= k < |init| && fromEnglish(init[k]).Crash?;
        assert titles[k] == init[k];
      }
      if exists k :: 0 <= k < |titles| && fromEnglish(titles[k]).Crash? {
        var k :| 0 <= k < |titles| && fromEnglish(titles[k]).Crash?;
        if k < n {
          assert init[k] == titles[k];
        }
      }
      if RecipeKeyboard(titles, ids, fromEnglish).Some? {
        var rows := RecipeKeyboard(titles, ids, fromEnglish).value.rows;
        var before := RecipeKeyboard(init, ids, fromEnglish).value.rows;
        forall i | 0 <= i < |titles|
          ensures !fromEnglish(titles[i]).Crash? && RecipeRow(rows[i], titles[i], ids[i], fromEnglish)
        {
          if i < n {
            assert titles[i] == init[i] && rows[i] == before[i];
          }
        }
      }
    }
  }

  /** `createRecipeSelectionKeyboard`: `None` stands for the exception a failed translation raises. */
  method CreateRecipeSelectionKeyboard(titles: seq<string>, ids: seq<int>, fromEnglish: string -> Translation)
    returns (r: Option<InlineKeyboard>)
    requires |titles| <= |ids|
    ensures r == RecipeKeyboard(titles, ids, fromEnglish)
  {
    var rows: seq<seq<InlineButton>> := [];
    for i := 0 to |titles|
      invariant RecipeKeyboard(titles[..i], ids, fromEnglish) == Some(InlineKeyboard(rows))
    {
      assert titles[..i + 1][..i] == titles[..i];
      var t := fromEnglish(titles[i]);
      if t.Crash? {
        RecipeKeyboardRows(titles, ids, fromEnglish);
        return None;
      }
      rows := rows + [[InlineButton(Shown(t), CallbackData(PickRecipe(ids[i])))]];
    }
    assert titles[..|titles|] == titles;
    return Some(InlineKeyboard(rows));
  }

  /** `findRecipes`: every exception inside it becomes the generic error reply. */
  function FindRecipes(input: string, chatId: int, svc: RecipeServices): (m: SendMessage)
    ensures m.chatId == chatId && !m.markup.ReplyMarkup?
  {
    var query := svc.toEnglish(input);
    // a null query makes URL encoding throw before the request is sent
    if !query.Text? then SendMessage(chatId, SearchError, NoMarkup)
    else
      match svc.search(query.text, "", "")
      case None => SendMessage(chatId, SearchError, NoMarkup)
      case Some(response) =>
        var json := svc.readSearch(response);
        var titles := RecipeTitles(json);
        var ids := RecipeIds(json);
        if titles == [] then SendMessage(chatId, NotFound, NoMarkup)
        else
          var listed := svc.fromEnglish(Join(titles, "\n "));
          if listed.Crash? then SendMessage(chatId, SearchError, NoMarkup)
          else
            match RecipeKeyboard(titles, ids, svc.fromEnglish)
            case None => SendMessage(chatId, SearchError, NoMarkup)
            case Some(k) => SendMessage(chatId, Header + Shown(listed), InlineMarkup(k))
  }

  /** `getContent`: a null (`None`) or empty input is refused before any service is called. */
  function GetContent(chatId: int, input: Option<string>, svc: RecipeServices): (m: SendMessage)
    ensures m.chatId == chatId && !m.markup.ReplyMarkup?
  {
    if input.None? || input.value == "" then SendMessage(chatId, CannotProcess, NoMarkup)
    else FindRecipes(input.value, chatId, svc)
  }

  /** The reply to a search with results: the translated list and a keyboard that matches it row for row. */
  lemma FindRecipesFound(input: string, chatId: int, svc: RecipeServices, response: string)
    requires svc.toEnglish(input).Text?
    requires svc.search(svc.toEnglish(input).text, "", "") == Some(response)
    requires RecipeTitles(svc.readSearch(response)) != []
    requires !svc.fromEnglish(Join(RecipeTitles(svc.readSearch(response)), "\n ")).Crash?
    requires forall t | t in RecipeTitles(svc.readSearch(response)) :: !svc.fromEnglish(t).Crash?
    ensures var m := FindRecipes(input, chatId, svc);
            var titles := RecipeTitles(svc.readSearch(response));
            var ids := RecipeIds(svc.readSearch(response));
            m.chatId == chatId &&
            m.text == Header + Shown(svc.fromEnglish(Join(titles, "\n "))) &&
            m.markup.InlineMarkup? && |m.markup.inline.rows| == |titles| &&
            forall i :: 0 <= i < |titles| ==> RecipeRow(m.markup.inline.rows[i], titles[i], ids[i], svc.fromEnglish)
  {
    var titles := RecipeTitles(svc.readSearch(response));
    var ids := RecipeIds(svc.readSearch(response));
    RecipeKeyboardRows(titles, ids, svc.fromEnglish);
    forall k | 0 <= k < |titles|
      ensures !svc.fromEnglish(titles[k]).Crash?
    {
      assert titles[k] in titles;
    }
  }

  /** A search without results gets the not-found text and no keyboard. */
  lemma FindRecipesNone(input: string, chatId: int, svc: RecipeServices, response: string)
    requires svc.toEnglish(input).Text?
    requires svc.search(svc.toEnglish(input).text, "", "") == Some(response)
    requires RecipeTitles(svc.readSearch(response)) == []
    ensures FindRecipes(input, chatId, svc) == SendMessage(chatId, NotFound, NoMarkup)
  {
  }

  /**
   * A failing translation of the query, a failing search, or a failing
   * translation of the list or of any one title gives the generic error
   * text, with no keyboard.
   */
  lemma FindRecipesFailure(input: string, chatId: int, svc: RecipeServices)
    requires var query := svc.toEnglish(input);
             !query.Text? || svc.search(query.text, "", "").None? ||
             var titles := RecipeTitles(svc.readSearch(svc.search(query.text, "", "").value));
             titles != [] &&
             (svc.fromEnglish(Join(titles, "\n ")).Crash? || exists t | t in titles :: svc.fromEnglish(t).Crash?)
    ensures FindRecipes(input, chatId, svc) == SendMessage(chatId, SearchError, NoMarkup)
  {
    var query := svc.toEnglish(input);
    if query.Text? && svc.search(query.text, "", "").Some? {
      var json := svc.readSearch(svc.search(query.text, "", "").value);
      var titles := RecipeTitles(json);
      RecipeKeyboardRows(titles, RecipeIds(json), svc.fromEnglish);
      if exists t | t in titles :: svc.fromEnglish(t).Crash? {
        var t :| t in titles && svc.fromEnglish(t).Crash?;
        var k :| 0 <= k < |titles| && titles[k] == t;
      }
    }
  }

  /** The search sees exactly `(translateToEnglish(input), "", "")`: two services that agree there give the same reply. */
  lemma SearchUsesTranslatedInput(input: string, chatId: int, svc: RecipeServices,
                                  search: (string, string, string) -> Option<string>)
    requires svc.toEnglish(input).Text?
    requires search(svc.toEnglish(input).text, "", "") == svc.search(svc.toEnglish(input).text, "", "")
    ensures FindRecipes(input, chatId, svc.(search := search)) == FindRecipes(input, chatId, svc)
  {
  }

  /** A null or empty input is answered without any service: replacing all of them changes nothing. */
  lemma EmptyInputCallsNoService(chatId: int, input: Option<string>, svc: RecipeServices, other: RecipeServices)
    requires input.None? || input.value == ""
    ensures GetContent(chatId, input, svc) == GetContent(chatId, input, other)
    ensures GetContent(chatId, input, svc).text == CannotProcess && GetContent(chatId, input, svc).markup.NoMarkup?
  {
  }

  /** `getRecipeDetails(recipeId)`: the parser's text, or the fixed error when fetching fails. */
  method GetRecipeDetails(recipeId: int, svc: RecipeServices) returns (r: string)
    ensures svc.information(recipeId).None? ==> r == DetailsFailure
    ensures svc.information(recipeId).Some? ==>
              r == DetailsText(svc.readDetails(svc.information(recipeId).value), svc.fromEnglish)
  {
    var response := svc.information(recipeId);
    if response.None? {
      return DetailsFailure;
    }
    r := RecipeParsing.GetRecipeDetails(svc.readDetails(response.value), svc.fromEnglish);
  }
}
