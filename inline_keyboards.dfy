/**
 * `InlineKeyboardManager`: the keyboards attached to a message, whose
 * buttons send a callback string back to the bot. `createButton` is the
 * `InlineButton` constructor. The callback strings are described by the
 * `Callback` datatype. The bot's code reads none of them back;
 * `DecodeCallback` is a reference reader showing that they can be read
 * back, and no two callbacks share a string.
 */
module InlineKeyboards {
  import opened JavaLang
  import opened Profiles
  import opened Tables
  import opened Courses

  datatype InlineButton = InlineButton(text: string, callbackData: string)

  datatype InlineKeyboard = InlineKeyboard(rows: seq<seq<InlineButton>>)

  /** What a button press asks for. */
  datatype Callback =
    | PickCourse(courseId: int)
    | PickWorkout(workoutId: int)
    | CompleteWorkout(workoutId: int)
    | EditField(field: Field)
    | PickRecipe(recipeId: int)

  function FieldName(f: Field): string {
    match f
    case Login => "login"
    case Password => "password"
    case Nickname => "nickname"
    case Age => "age"
    case Height => "height"
    case Weight => "weight"
  }

  /** The callback strings the keyboards put on their buttons. */
  function CallbackData(c: Callback): (s: string)
    ensures |s| > 0
  {
    match c
    case PickCourse(id) => IntToString(id)
    case PickWorkout(id) => "workout_" + IntToString(id)
    case CompleteWorkout(id) => "complete_" + IntToString(id)
    case EditField(f) => "edit_" + FieldName(f)
    case PickRecipe(id) => "recipe_" + IntToString(id)
  }

  function FieldOfName(name: string): Option<Field> {
    if name == "login" then Some(Login)
    else if name == "password" then Some(Password)
    else if name == "nickname" then Some(Nickname)
    else if name == "age" then Some(Age)
    else if name == "height" then Some(Height)
    else if name == "weight" then Some(Weight)
    else None
  }

  function MapId(r: Option<int>, k: int -> Callback): Option<Callback> {
    match r
    case None => None
    case Some(id) => Some(k(id))
  }

  /**
   * A reference reader of callback strings (not a member of the bot): a
   * prefix names the kind, a bare number is a course.
   */
  function DecodeCallback(s: string): (r: Option<Callback>)
    ensures r.Some? && r.value.EditField? ==> StartsWith(s, "edit_")
  {
    if StartsWith(s, "workout_") then MapId(ParseInt(s[8..]), id => PickWorkout(id))
    else if StartsWith(s, "complete_") then MapId(ParseInt(s[9..]), id => CompleteWorkout(id))
    else if StartsWith(s, "recipe_") then MapId(ParseInt(s[7..]), id => PickRecipe(id))
    else if StartsWith(s, "edit_") then
      (match FieldOfName(s[5..])
       case None => None
       case Some(f) => Some(EditField(f)))
    else MapId(ParseInt(s), id => PickCourse(id))
  }

  /** A callback with a Java `int` id. */
  predicate HasIntId(c: Callback) {
    c.EditField? || IsInt(if c.PickCourse? then c.courseId else if c.PickRecipe? then c.recipeId else c.workoutId)
  }

  /** Every callback string the keyboards produce reads back as the callback it encodes. */
  lemma DecodeCallbackData(c: Callback)
    requires HasIntId(c)
    ensures DecodeCallback(CallbackData(c)) == Some(c)
  {
    var s := CallbackData(c);
    match c
    case PickCourse(id) =>
      ParseIntOfIntToString(id);
      var d := IntToString(id);
      assert d[0] == '-' || IsDigit(d[0]);
      assert !StartsWith(s, "workout_") && !StartsWith(s, "complete_");
      assert !StartsWith(s, "recipe_") && !StartsWith(s, "edit_");
    case PickWorkout(id) =>
      ParseIntOfIntToString(id);
      assert s[8..] == IntToString(id);
    case CompleteWorkout(id) =>
      ParseIntOfIntToString(id);
      assert s[9..] == IntToString(id);
      assert !StartsWith(s, "workout_");
    case PickRecipe(id) =>
      ParseIntOfIntToString(id);
      assert s[7..] == IntToString(id);
      assert !StartsWith(s, "workout_") && !StartsWith(s, "complete_");
    case EditField(f) =>
      assert s[5..] == FieldName(f);
      assert !StartsWith(s, "workout_") && !StartsWith(s, "complete_") && !StartsWith(s, "recipe_");
  }

  /** Distinct callbacks have distinct strings, for every id and not only Java `int`s. */
  lemma CallbackDataInjective(a: Callback, b: Callback)
    requires CallbackData(a) == CallbackData(b)
    ensures a == b
  {
    var s := CallbackData(a);
    if a.PickCourse? || b.PickCourse? {
      var d := IntToString(if a.PickCourse? then a.courseId else b.courseId);
      assert d[0] == '-' || IsDigit(d[0]);
      assert a.PickCourse? && b.PickCourse?;
      IntToStringInjective(a.courseId, b.courseId);
    } else {
      assert s[0] == CallbackData(b)[0];
      match a
      case PickWorkout(x) =>
        assert s[8..] == IntToString(x) && CallbackData(b)[8..] == IntToString(b.workoutId);
        IntToStringInjective(x, b.workoutId);
      case CompleteWorkout(x) =>
        assert s[9..] == IntToString(x) && CallbackData(b)[9..] == IntToString(b.workoutId);
        IntToStringInjective(x, b.workoutId);
      case PickRecipe(x) =>
        assert s[7..] == IntToString(x) && CallbackData(b)[7..] == IntToString(b.recipeId);
        IntToStringInjective(x, b.recipeId);
      case EditField(f) =>
        assert s[5..] == FieldName(f) && CallbackData(b)[5..] == FieldName(b.field);
    }
  }

  /** One single-button row per course: the name, and the course id in decimal. */
  method GetCourseSelectionKeyboard(courses: seq<Course>) returns (k: InlineKeyboard)
    ensures |k.rows| == |courses|
    ensures forall i :: 0 <= i < |courses| ==>
              k.rows[i] == [InlineButton(courses[i].name, CallbackData(PickCourse(courses[i].id)))]
  {
    var rows: seq<seq<InlineButton>> := [];
    for i := 0 to |courses|
      invariant |rows| == i
      invariant forall j :: 0 <= j < i ==> rows[j] == [InlineButton(courses[j].name, CallbackData(PickCourse(courses[j].id)))]
    {
      rows := rows + [[InlineButton(courses[i].name, IntToString(courses[i].id))]];
    }
    k := InlineKeyboard(rows);
  }

  /** The label of a workout button: the name, then the check icon and a space when completed. */
  function WorkoutLabel(w: Workout, check: string): (s: string)
    ensures StartsWith(s, w.name)
    ensures !w.completed ==> s == w.name
    ensures w.completed ==> s == w.name + check + " "
  {
    w.name + (if w.completed then check + " " else "")
  }

  /** One single-button row per workout, with the `workout_` callback of its id. */
  method GetWorkoutSelectionKeyboard(workouts: seq<Workout>, check: string) returns (k: InlineKeyboard)
    ensures |k.rows| == |workouts|
    ensures forall i :: 0 <= i < |workouts| ==>
              k.rows[i] == [InlineButton(WorkoutLabel(workouts[i], check), CallbackData(PickWorkout(workouts[i].id)))]
  {
    var rows: seq<seq<InlineButton>> := [];
    for i := 0 to |workouts|
      invariant |rows| == i
      invariant forall j :: 0 <= j < i ==>
                  rows[j] == [InlineButton(WorkoutLabel(workouts[j], check), CallbackData(PickWorkout(workouts[j].id)))]
    {
      var w := workouts[i];
      var text := w.name + (if w.completed then check + " " else "");
      rows := rows + [[InlineButton(text, "workout_" + IntToString(w.id))]];
    }
    k := InlineKeyboard(rows);
  }

  /** One row holding one check-icon button that completes the workout. */
  function GetCompleteWorkoutKeyboard(workoutId: int, check: string): (k: InlineKeyboard)
    ensures |k.rows| == 1 && |k.rows[0]| == 1 && k.rows[0][0].text == check
    ensures IsInt(workoutId) ==> DecodeCallback(k.rows[0][0].callbackData) == Some(CompleteWorkout(workoutId))
  {
    var k := InlineKeyboard([[InlineButton(check, "complete_" + IntToString(workoutId))]]);
    assert IsInt(workoutId) ==> DecodeCallback(k.rows[0][0].callbackData) == Some(CompleteWorkout(workoutId)) by {
      if IsInt(workoutId) {
        DecodeCallbackData(CompleteWorkout(workoutId));
      }
    }
    k
  }

  /** The six profile fields, two per row, as an edit menu. */
  function GetEditProfileKeyboard(): (k: InlineKeyboard)
    ensures |k.rows| == 3 && forall i :: 0 <= i < 3 ==> |k.rows[i]| == 2
  {
    InlineKeyboard([
      [InlineButton("Логин", "edit_login"), InlineButton("Пароль", "edit_password")],
      [InlineButton("Никнейм", "edit_nickname"), InlineButton("Возраст", "edit_age")],
      [InlineButton("Рост", "edit_height"), InlineButton("Вес", "edit_weight")]])
  }

  /** The field each edit button asks to change, in menu order. */
  const EditOrder: seq<Field> := [Login, Password, Nickname, Age, Height, Weight]

  /**
   * Button `j` of row `i` of the edit menu carries the callback of the
   * `2 * i + j`-th field of the menu order, so every field has its button
   * and the callback reads back as that field.
   */
  lemma EditKeyboardCoversEveryField(i: int, j: int)
    requires 0 <= i < 3 && 0 <= j < 2
    ensures GetEditProfileKeyboard().rows[i][j].callbackData == CallbackData(EditField(EditOrder[2 * i + j]))
    ensures DecodeCallback(GetEditProfileKeyboard().rows[i][j].callbackData) == Some(EditField(EditOrder[2 * i + j]))
  {
    var data := GetEditProfileKeyboard().rows[i][j].callbackData;
    var f := EditOrder[2 * i + j];
    if i == 0 && j == 0 { assert f == Login && data == "edit_" + "login"; }
    else if i == 0 { assert f == Password && data == "edit_" + "password"; }
    else if i == 1 && j == 0 { assert f == Nickname && data == "edit_" + "nickname"; }
    else if i == 1 { assert f == Age && data == "edit_" + "age"; }
    else if j == 0 { assert f == Height && data == "edit_" + "height"; }
    else { assert f == Weight && data == "edit_" + "weight"; }
    DecodeCallbackData(EditField(f));
  }
}
