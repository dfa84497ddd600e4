/**
 * `KeyboardMarkup`: the reply keyboards shown under the input field and the
 * lookup that turns the text of a pressed button into a command token.
 */
module Keyboards {
  import opened Tables

  /** A `ReplyKeyboardMarkup`: rows of button labels and its two flags. */
  datatype ReplyKeyboard = ReplyKeyboard(rows: seq<seq<string>>, resize: bool, oneTime: bool)

  const Unknown: string := "/unknown"

  /** The tokens registered in the static button-text table, in registration order. */
  const Tokens: seq<string> := [
    "/start", "/authors", "/help", "/info", "/createprofile", "/viewprofile",
    "/deleteprofile", "/viewcourses", "/selectcourse", "/viewworkouts",
    "/viewexercises", "/login", "/logout", "/editprofile", "/recipes",
    "/addreminder", "/deletereminder", "/viewreminders"]

  /** The static table: every registered token maps to itself. */
  const ButtonTextToCommand: map<string, string> := map[
    "/start" := "/start", "/authors" := "/authors", "/help" := "/help", "/info" := "/info",
    "/createprofile" := "/createprofile", "/viewprofile" := "/viewprofile",
    "/deleteprofile" := "/deleteprofile", "/viewcourses" := "/viewcourses",
    "/selectcourse" := "/selectcourse", "/viewworkouts" := "/viewworkouts",
    "/viewexercises" := "/viewexercises", "/login" := "/login", "/logout" := "/logout",
    "/editprofile" := "/editprofile", "/recipes" := "/recipes",
    "/addreminder" := "/addreminder", "/deletereminder" := "/deletereminder",
    "/viewreminders" := "/viewreminders"]

  /** `getOrDefault(text, "/unknown")` on the table. */
  function MapButtonTextToCommand(text: string): (command: string)
    ensures command == text || command == Unknown
    ensures command in Tokens || command == Unknown
  {
    if text in ButtonTextToCommand then ButtonTextToCommand[text] else Unknown
  }

  /** The table's keys are exactly the 18 tokens, and `/unknown` is not one of them. */
  lemma TableKeysAreTokens()
    ensures forall t :: t in ButtonTextToCommand <==> t in Tokens
    ensures |Tokens| == 18 && Unknown !in Tokens
  {
  }

  /** A registered token is its own command. */
  lemma MapIsIdentityOnTokens(text: string)
    requires text in Tokens
    ensures MapButtonTextToCommand(text) == text
  {
    TableKeysAreTokens();
  }

  /** Every other text (free input, names of courses) becomes `/unknown`. */
  lemma MapSendsOtherTextToUnknown(text: string)
    requires text !in Tokens
    ensures MapButtonTextToCommand(text) == Unknown
  {
    TableKeysAreTokens();
  }

  /** Mapping a mapped text again changes nothing. */
  lemma MapIsIdempotent(text: string)
    ensures MapButtonTextToCommand(MapButtonTextToCommand(text)) == MapButtonTextToCommand(text)
  {
    TableKeysAreTokens();
  }

  /** The main menu's labels, row by row. */
  const MainMenuRows: seq<seq<string>> := [
    ["/start", "/authors"],
    ["/help", "/info"],
    ["/createprofile", "/login"],
    ["/viewprofile", "/deleteprofile"],
    ["/viewcourses", "/selectcourse"],
    ["/viewworkouts", "/viewexercises"],
    ["/editprofile", "/logout"]]

  /** The main menu: seven rows of two buttons, resized, hidden after one use. */
  function GetMainMenuKeyboard(): (k: ReplyKeyboard)
    ensures k.resize && k.oneTime
    ensures |k.rows| == 7 && forall i :: 0 <= i < 7 ==> |k.rows[i]| == 2
  {
    ReplyKeyboard(MainMenuRows, true, true)
  }

  /** `text` is on the main menu. */
  predicate OnMainMenu(text: string) {
    exists i, j :: 0 <= i < |MainMenuRows| && 0 <= j < |MainMenuRows[i]| && MainMenuRows[i][j] == text
  }

  /**
   * Pressing any main-menu button sends a registered token that maps to
   * itself; the four tokens left off the menu are the recipe and reminder ones.
   */
  lemma MainMenuLabelsAreCommands(text: string)
    ensures OnMainMenu(text) ==> text in Tokens && MapButtonTextToCommand(text) == text
    ensures text in Tokens ==>
              (OnMainMenu(text) <==> text !in ["/recipes", "/addreminder", "/deletereminder", "/viewreminders"])
  {
    TableKeysAreTokens();
    if text in Tokens && text !in ["/recipes", "/addreminder", "/deletereminder", "/viewreminders"] {
      if text == "/start" { assert MainMenuRows[0][0] == text; }
      else if text == "/authors" { assert MainMenuRows[0][1] == text; }
      else if text == "/help" { assert MainMenuRows[1][0] == text; }
      else if text == "/info" { assert MainMenuRows[1][1] == text; }
      else if text == "/createprofile" { assert MainMenuRows[2][0] == text; }
      else if text == "/login" { assert MainMenuRows[2][1] == text; }
      else if text == "/viewprofile" { assert MainMenuRows[3][0] == text; }
      else if text == "/deleteprofile" { assert MainMenuRows[3][1] == text; }
      else if text == "/viewcourses" { assert MainMenuRows[4][0] == text; }
      else if text == "/selectcourse" { assert MainMenuRows[4][1] == text; }
      else if text == "/viewworkouts" { assert MainMenuRows[5][0] == text; }
      else if text == "/viewexercises" { assert MainMenuRows[5][1] == text; }
      else if text == "/editprofile" { assert MainMenuRows[6][0] == text; }
      else { assert MainMenuRows[6][1] == text; }
    }
  }

  /** One single-button row per course, labelled with its name, in list order. */
  method GetCourseSelectionKeyboard(courses: seq<Course>) returns (k: ReplyKeyboard)
    ensures k.resize && k.oneTime
    ensures |k.rows| == |courses|
    ensures forall i :: 0 <= i < |courses| ==> k.rows[i] == [courses[i].name]
  {
    var rows: seq<seq<string>> := [];
    for i := 0 to |courses|
      invariant |rows| == i
      invariant forall j :: 0 <= j < i ==> rows[j] == [courses[j].name]
    {
      rows := rows + [[courses[i].name]];
    }
    k := ReplyKeyboard(rows, true, true);
  }
}
