/**
 * `StateHandler`: the per-chat dialogue. A map from chat id to `UserState`
 * says which question the chat is answering; each input goes to the
 * handler of that state, which parses it, writes a field of the chat's
 * draft profile or a table, replies, and moves the chat to its next state.
 * The outcome of every handler is a `Step`, and the state it leaves is
 * `After(state, step)`.
 */
module Dialogue {
  import opened JavaLang
  import opened Profiles
  import opened Tables
  import opened ProfileStore
  import opened Sessions
  import opened Courses
  import opened Messaging
  import opened UserStates
  import Recipes

  /** The reply a handler sends, by state and outcome (the exercise list and the recipes reply are computed instead). */
  function Reply(s: UserState, step: Step): string
    requires Possible(s, step) && !(s.ViewExercises? && step.Done?) && !s.EnterIngredients?
  {
    match s
    case LoginLogin =>
      if step.Done? then "Введите ваш пароль:" else "Ошибка при входе. Попробуйте позже."
    case LoginPassword =>
      if step.Done? then "Вы успешно вошли в аккаунт!"
      else if step.Rejected? then "Ошибка логина или пароля. Попробуйте снова."
      else "Ошибка при входе. Попробуйте позже."
    case CreateProfileLogin =>
      if step.Done? then "Введите ваш пароль:" else "Ошибка при создании профиля. Попробуйте позже."
    case CreateProfilePassword =>
      if step.Done? then "Введите ваш никнейм:" else "Ошибка при создании профиля. Попробуйте позже."
    case EnterNickname =>
      if step.Done? then "Введите ваш возраст:" else "Ошибка при сохранении никнейма. Попробуйте позже."
    case EnterAge =>
      if step.Done? then "Введите ваш рост (в см):"
      else if step.BadNumber? then "Пожалуйста, введите корректный возраст."
      else "Ошибка при сохранении возраста. Попробуйте позже."
    case EnterHeight =>
      if step.Done? then "Введите ваш вес (в кг):"
      else if step.BadNumber? then "Пожалуйста, введите корректный рост."
      else "Ошибка при сохранении роста. Попробуйте позже."
    case EnterWeight =>
      if step.Done? then "Ваш профиль успешно создан!"
      else if step.BadNumber? then "Пожалуйста, введите корректный вес."
      else "Ошибка при сохранении веса. Попробуйте позже."
    case SelectCourse =>
      if step.Done? then "Программа тренировок успешно выбрана!"
      else if step.BadNumber? then "Пожалуйста, введите корректный ID программы тренировок."
      else "Ошибка при выборе программы тренировок. Попробуйте позже."
    case ViewExercises =>
      if step.BadNumber? then "Пожалуйста, введите корректный ID тренировки."
      else "Ошибка при получении упражнений. Попробуйте позже."
    case EditProfileLogin =>
      if step.Done? then "Логин обновлен." else "Ошибка при обновлении логина. Попробуйте позже."
    case EditProfilePassword =>
      if step.Done? then "Пароль обновлен." else "Ошибка при обновлении пароля. Попробуйте позже."
    case EditProfileNickname =>
      if step.Done? then "Никнейм обновлен." else "Ошибка при обновлении никнейма. Попробуйте позже."
    case EditProfileAge =>
      if step.Done? then "Возраст обновлен."
      else if step.BadNumber? then "Пожалуйста, введите корректный возраст."
      else "Ошибка при обновлении возраста. Попробуйте позже."
    case EditProfileHeight =>
      if step.Done? then "Рост обновлен."
      else if step.BadNumber? then "Пожалуйста, введите корректный рост."
      else "Ошибка при обновлении роста. Попробуйте позже."
    case EditProfileWeight =>
      if step.Done? then "Вес обновлен."
      else if step.BadNumber? then "Пожалуйста, введите корректный вес."
      else "Ошибка при обновлении веса. Попробуйте позже."
  }

  const SaveFailed: string := "Ошибка при сохранении профиля. Попробуйте позже."

  /** The states whose handler writes one profile field. */
  predicate WritesField(s: UserState) {
    s.LoginLogin? || s.CreateProfileLogin? || s.CreateProfilePassword? || s.EnterNickname? ||
    s.EnterAge? || s.EnterHeight? || s.EnterWeight? || IsEditState(s)
  }

  function FieldOf(s: UserState): Field
    requires WritesField(s)
  {
    if s.LoginLogin? || s.CreateProfileLogin? || s.EditProfileLogin? then Login
    else if s.CreateProfilePassword? || s.EditProfilePassword? then Password
    else if s.EnterNickname? || s.EditProfileNickname? then Nickname
    else if s.EnterAge? || s.EditProfileAge? then Age
    else if s.EnterHeight? || s.EditProfileHeight? then Height
    else Weight
  }

  /** What a text field receives: a password is stored as its hash, anything else as typed. */
  function StoredText(s: UserState, input: string, encode: string -> string): (r: string)
    requires WritesField(s)
    ensures FieldOf(s) == Password ==> r == encode(input)
    ensures FieldOf(s) != Password ==> r == input
  {
    if FieldOf(s) == Password then encode(input) else input
  }

  /** The chat's draft, or the default one `getOrCreateUserProfile` would create. */
  ghost function DraftOf(drafts: map<int, ProfileValue>, chatId: int): ProfileValue {
    if chatId in drafts then drafts[chatId] else DefaultProfile
  }

  /** The row `createUserProfile` inserts for a finished signup: user id and chat id are both the chat id. */
  function DraftRow(d: ProfileValue, chatId: int): ProfileRow {
    ProfileRow(chatId, d.login, d.password, d.nickname, d.age, d.height, d.weight, chatId, None)
  }

  /**
   * `validateLogin`: the first row whose login equals the given one (SQL
   * `= NULL` matches nothing) gives its `user_id` when the password matches
   * its stored hash; anything else gives -1.
   */
  function ValidatedUser(rows: seq<ProfileRow>, login: Option<string>, password: string,
                         matches: (string, string) -> bool): int
  {
    if login.None? then -1
    else
      var found := Where(rows, (r: ProfileRow) => r.login == login);
      if found == [] then -1
      else if found[0].password.Some? && matches(password, found[0].password.value) then found[0].userId
      else -1
  }

  /** A validated id belongs to a row with that login whose stored hash matches the password. */
  lemma ValidatedUserSound(rows: seq<ProfileRow>, login: Option<string>, password: string,
                           matches: (string, string) -> bool)
    requires ValidatedUser(rows, login, password, matches) != -1
    ensures exists row :: row in rows && row.login == login && login.Some? && row.password.Some? &&
              row.userId == ValidatedUser(rows, login, password, matches) && matches(password, row.password.value)
  {
    var found := Where(rows, (r: ProfileRow) => r.login == login);
    assert found[0] in found;
  }

  /**
   * Only the first row with the login is consulted: when its hash matches,
   * its id is the answer; when it does not, the login fails even if a later
   * row with the same login would match.
   */
  lemma ValidatedUserFirstRow(rows: seq<ProfileRow>, i: int, password: string, matches: (string, string) -> bool)
    requires 0 <= i < |rows| && rows[i].login.Some?
    requires forall j :: 0 <= j < i ==> rows[j].login != rows[i].login
    ensures ValidatedUser(rows, rows[i].login, password, matches) ==
              if rows[i].password.Some? && matches(password, rows[i].password.value) then rows[i].userId else -1
  {
    WhereFirst(rows, i, (r: ProfileRow) => r.login == rows[i].login);
  }

  /** A login that no row has is refused. */
  lemma UnknownLoginRefused(rows: seq<ProfileRow>, login: string, password: string, matches: (string, string) -> bool)
    requires forall j :: 0 <= j < |rows| ==> rows[j].login != Some(login)
    ensures ValidatedUser(rows, Some(login), password, matches) == -1
  {
    var found := Where(rows, (r: ProfileRow) => r.login == Some(login));
    if found != [] {
      assert found[0] in rows;
    }
  }

  /**
   * What a signup handler did to the drafts and the tables: the chat's
   * draft became `d`; on `Done` its six columns were written to the rows of
   * user id 0 and nothing else changed; otherwise no table changed.
   */
  ghost predicate DraftWritten(before: map<int, ProfileValue>, after: map<int, ProfileValue>,
                               t0: Snapshot, t1: Snapshot, chatId: int, d: ProfileValue, step: Step)
  {
    after == before[chatId := d] &&
    (step.Done? ==> t1 == t0.(profiles := UpdateWhere(t0.profiles, 0, ProfileColumns(d)))) &&
    (!step.Done? ==> t1 == t0)
  }

  /**
   * What a password check did to the tables: with `id` the user the stored
   * login and the typed password validate to, a success opened the session
   * (`id`, chat id) and a refusal means `id` is -1; nothing else changed.
   */
  ghost predicate LoginAttempted(t0: Snapshot, t1: Snapshot, chatId: int, id: int, step: Step) {
    (step.Done? ==> id != -1 && t1 == t0.(sessions := t0.sessions + [SessionRow(id, chatId)])) &&
    (step.Rejected? ==> id == -1 && t1 == t0) &&
    (!step.Done? ==> t1 == t0)
  }

  /** The draft after a number handler: the parsed value in field `f`, or the draft unchanged. */
  function NumberDraft(d: ProfileValue, f: Field, input: string): ProfileValue
    requires f.IsNumeric()
  {
    if ParseInt(input).Some? then d.WithNumber(f, ParseInt(input).value) else d
  }

  /** The states whose handler writes the chat's draft profile. */
  predicate WritesDraft(s: UserState) {
    s.LoginLogin? || s.LoginPassword? || s.CreateProfileLogin? || s.CreateProfilePassword? ||
    s.EnterNickname? || s.EnterAge? || s.EnterHeight? || s.EnterWeight?
  }

  /**
   * The column a course or edit handler writes to the chat's own row when
   * it succeeds; the other handlers write no row of their own.
   */
  function RowEdit(s: UserState, input: string, encode: string -> string): Option<ProfileEdit> {
    if s.SelectCourse? then Some(SetCourse(ParseInt(input).GetOr(0)))
    else if s.EditProfileLogin? || s.EditProfilePassword? || s.EditProfileNickname? then
      Some(SetText(FieldOf(s), Some(StoredText(s, input, encode))))
    else if s.EditProfileAge? || s.EditProfileHeight? || s.EditProfileWeight? then
      Some(SetNumber(FieldOf(s), ParseInt(input).GetOr(0)))
    else None
  }

  /** The weight handler writes the parsed weight into the chat's draft. */
  lemma WeightActed(chatId: int, input: string, encode: string -> string, matches: (string, string) -> bool,
                    d0: map<int, ProfileValue>, d1: map<int, ProfileValue>, t0: Snapshot, t1: Snapshot, step: Step)
    requires Acted(EnterWeight, chatId, input, encode, matches, d0, d1, t0, t1, step)
    ensures d1 == d0[chatId := NumberDraft(DraftOf(d0, chatId), Weight, input)]
  {
    assert FieldOf(EnterWeight) == Weight;
  }

  /**
   * What the handler of `s` did to the drafts (`d0` to `d1`) and to the
   * tables (`t0` to `t1`) when it ended with `step`: the signup and login
   * handlers write the chat's draft (and, on success, copy it to the rows
   * of user id 0 or open a session); the other handlers leave the drafts
   * alone and write at most their own column of the chat's row. A handler
   * that parses a number reports `BadNumber` exactly when it does not parse.
   */
  ghost predicate Acted(s: UserState, chatId: int, input: string, encode: string -> string,
                        matches: (string, string) -> bool, d0: map<int, ProfileValue>, d1: map<int, ProfileValue>,
                        t0: Snapshot, t1: Snapshot, step: Step)
  {
    (ParsesNumber(s) ==> (step.BadNumber? <==> ParseInt(input).None?)) &&
    if s.LoginLogin? || s.CreateProfileLogin? || s.CreateProfilePassword? || s.EnterNickname? then
      DraftWritten(d0, d1, t0, t1, chatId, DraftOf(d0, chatId).WithText(FieldOf(s), Some(StoredText(s, input, encode))), step)
    else if s.LoginPassword? then
      var d := DraftOf(d0, chatId).WithText(Password, Some(encode(input)));
      d1 == d0[chatId := d] && LoginAttempted(t0, t1, chatId, ValidatedUser(t0.profiles, d.login, input, matches), step)
    else if s.EnterAge? || s.EnterHeight? || s.EnterWeight? then
      DraftWritten(d0, d1, t0, t1, chatId, NumberDraft(DraftOf(d0, chatId), FieldOf(s), input), step)
    else
      var e := RowEdit(s, input, encode);
      d1 == d0 &&
      (step.Done? && e.Some? ==> t1 == t0.(profiles := UpdateWhere(t0.profiles, chatId, e.value))) &&
      (!(step.Done? && e.Some?) ==> t1 == t0)
  }

  /**
   * The one message the handler of `s` sends when it ends with `step`: the
   * recipes reply, the exercise list, or the fixed reply.
   */
  function Answer(s: UserState, step: Step, chatId: int, input: string, exercises: seq<ExerciseRow>,
                  recipes: Recipes.RecipeServices): (m: SendMessage)
    requires Possible(s, step)
    ensures m.chatId == chatId
    ensures !s.EnterIngredients? ==> m.markup.NoMarkup?
  {
    if s.EnterIngredients? then Recipes.GetContent(chatId, Some(input), recipes)
    else if s.ViewExercises? && step.Done? then
      // a finished `VIEW_EXERCISES` handler has parsed its input
      SendMessage(chatId, Render(ExercisesOfWorkout(exercises, ParseInt(input).GetOr(0)), ExerciseBlock), NoMarkup)
    else SendMessage(chatId, Reply(s, step), NoMarkup)
  }

  /** How `handleProfileCreationOrLogin` went. */
  datatype Report =
    | NoHandler                             // no state, or a state without a handler
    | Handled(step: Step)                   // the state's handler ran
    | Signup(step: Step, saved: Outcome)    // the weight handler ran, then the profile was saved

  /** The chat's state entry after `handleProfileCreationOrLogin`. */
  function NextEntry(prior: Option<UserState>, report: Report): Option<UserState> {
    match report
    case NoHandler => None
    case Handled(step) => if prior.Some? then After(prior.value, step) else None
    case Signup(step, saved) => if saved.Success? then None else After(EnterWeight, step)
  }

  /**
   * Once the weight question was open, a saved profile ends the dialogue
   * whatever the weight handler did, even when the weight did not parse.
   */
  lemma SavedSignupEnds(step: Step)
    requires Possible(EnterWeight, step)
    ensures NextEntry(Some(EnterWeight), Signup(step, Success)) == None
    ensures NextEntry(Some(EnterWeight), Signup(step, SqlFailure)) == After(EnterWeight, step)
  {
  }

  /**
   * What `handleProfileCreationOrLogin` did with `input` from a chat whose
   * states, draft values, tables and sent messages went from `s0`, `d0`,
   * `t0`, `sent0` to `s1`, `d1`, `t1`, `sent1`: with no handler the entry
   * is dropped and nothing else changes; otherwise the handler of the prior
   * state acted and sent its one answer, and the weight handler is followed
   * by the save of the finished profile (and its failure message).
   */
  ghost predicate Dispatched(chatId: int, input: string, encode: string -> string, matches: (string, string) -> bool,
                             recipes: Recipes.RecipeServices, s0: map<int, UserState>, s1: map<int, UserState>,
                             d0: map<int, ProfileValue>, d1: map<int, ProfileValue>, t0: Snapshot, t1: Snapshot,
                             sent0: seq<SendMessage>, sent1: seq<SendMessage>, report: Report)
  {
    var prior := if chatId in s0 then Some(s0[chatId]) else None;
    (report.NoHandler? <==> prior.None? || !HasHandler(prior.value)) &&
    (report.Signup? <==> prior == Some(EnterWeight)) &&
    s1 == SetEntry(s0, chatId, NextEntry(prior, report)) &&
    (report.NoHandler? ==> t1 == t0 && sent1 == sent0 && d1 == d0) &&
    (report.Handled? ==>
       prior.Some? && Acted(prior.value, chatId, input, encode, matches, d0, d1, t0, t1, report.step) &&
       Possible(prior.value, report.step) &&
       sent1 == sent0 + [Answer(prior.value, report.step, chatId, input, t0.exercises, recipes)]) &&
    (report.Signup? ==>
       Possible(EnterWeight, report.step) &&
       sent1 == sent0 + [Answer(EnterWeight, report.step, chatId, input, t0.exercises, recipes)] +
                (if report.saved.Success? then [] else [SendMessage(chatId, SaveFailed, NoMarkup)]) &&
       d1 == d0[chatId := NumberDraft(DraftOf(d0, chatId), Weight, input)] &&
       (report.saved.Success? ==>
          chatId in d1 && |t1.profiles| > 0 && |t1.sessions| > 0 &&
          t1.profiles[|t1.profiles| - 1] == DraftRow(d1[chatId], chatId) &&
          t1.sessions[|t1.sessions| - 1] == SessionRow(chatId, chatId)))
  }

  /** A handler other than the weight one ran: the dispatch was `Handled`. */
  lemma HandledDispatched(chatId: int, input: string, encode: string -> string, matches: (string, string) -> bool,
                          recipes: Recipes.RecipeServices, s0: map<int, UserState>, s1: map<int, UserState>,
                          d0: map<int, ProfileValue>, d1: map<int, ProfileValue>, t0: Snapshot, t1: Snapshot,
                          sent0: seq<SendMessage>, sent1: seq<SendMessage>, s: UserState, step: Step)
    requires chatId in s0 && s0[chatId] == s && HasHandler(s) && !s.EnterWeight?
    requires Acted(s, chatId, input, encode, matches, d0, d1, t0, t1, step) && Possible(s, step)
    requires s1 == SetEntry(s0, chatId, After(s, step))
    requires sent1 == sent0 + [Answer(s, step, chatId, input, t0.exercises, recipes)]
    ensures Dispatched(chatId, input, encode, matches, recipes, s0, s1, d0, d1, t0, t1, sent0, sent1, Handled(step))
  {
  }

  /** The weight handler ran and the save followed: the dispatch was `Signup`. */
  lemma SignupDispatched(chatId: int, input: string, encode: string -> string, matches: (string, string) -> bool,
                         recipes: Recipes.RecipeServices, s0: map<int, UserState>, s1: map<int, UserState>,
                         d0: map<int, ProfileValue>, d1: map<int, ProfileValue>, t0: Snapshot, t1: Snapshot,
                         sent0: seq<SendMessage>, sent1: seq<SendMessage>, step: Step, saved: Outcome)
    requires chatId in s0 && s0[chatId] == EnterWeight && Possible(EnterWeight, step)
    requires saved.Success? ==> s1 == s0 - {chatId}
    requires saved.SqlFailure? ==> s1 == SetEntry(s0, chatId, After(EnterWeight, step))
    requires sent1 == sent0 + [Answer(EnterWeight, step, chatId, input, t0.exercises, recipes)] +
                      (if saved.Success? then [] else [SendMessage(chatId, SaveFailed, NoMarkup)])
    requires d1 == d0[chatId := NumberDraft(DraftOf(d0, chatId), Weight, input)]
    requires saved.Success? ==>
               |t1.profiles| > 0 && |t1.sessions| > 0 &&
               t1.profiles[|t1.profiles| - 1] == DraftRow(d1[chatId], chatId) &&
               t1.sessions[|t1.sessions| - 1] == SessionRow(chatId, chatId)
    ensures Dispatched(chatId, input, encode, matches, recipes, s0, s1, d0, d1, t0, t1, sent0, sent1, Signup(step, saved))
  {
    SavedSignupEnds(step);
  }

  class StateHandler {
    const pm: UserProfileManager
    const sm: SessionManager
    const cm: CourseManager
    const db: Database
    const out: Outbox
    /** BCrypt's `encode` and `matches`; the salt is not modelled. */
    const encode: string -> string
    const matches: (string, string) -> bool
    const recipes: Recipes.RecipeServices
    var userStates: map<int, UserState>

    /** The stores share one database, and every draft still has the default user id 0. */
    ghost predicate Valid()
      reads this, pm, pm.drafts.Values
    {
      pm.db == db && sm.db == db && cm.db == db && pm.Valid() &&
      forall k :: k in pm.drafts ==> pm.drafts[k].userId == 0
    }

    constructor (pm: UserProfileManager, sm: SessionManager, cm: CourseManager, db: Database, out: Outbox,
                 encode: string -> string, matches: (string, string) -> bool, recipes: Recipes.RecipeServices)
      requires pm.db == db && sm.db == db && cm.db == db && pm.Valid()
      requires forall k :: k in pm.drafts ==> pm.drafts[k].userId == 0
      ensures Valid() && userStates == map[]
      ensures this.pm == pm && this.sm == sm && this.cm == cm && this.db == db && this.out == out
      ensures this.encode == encode && this.matches == matches && this.recipes == recipes
    {
      this.pm, this.sm, this.cm, this.db, this.out := pm, sm, cm, db, out;
      this.encode, this.matches, this.recipes := encode, matches, recipes;
      userStates := map[];
    }

    /** `setUserState`. */
    method SetUserState(chatId: int, state: UserState)
      modifies this
      ensures userStates == old(userStates)[chatId := state]
    {
      userStates := userStates[chatId := state];
    }

    /** `removeUserState`. */
    method RemoveUserState(chatId: int)
      modifies this
      ensures userStates == old(userStates) - {chatId}
    {
      userStates := userStates - {chatId};
    }

    /** `getUserState`: `None` for `null`. */
    function GetUserState(chatId: int): (r: Option<UserState>)
      reads this
      ensures r.Some? <==> chatId in userStates
      ensures r.Some? ==> r.value == userStates[chatId]
    {
      if chatId in userStates then Some(userStates[chatId]) else None
    }

    /** `getOrCreateUserProfile`, seen through the draft values: the chat's draft exists afterwards. */
    method Draft(chatId: int) returns (p: UserProfile)
      requires Valid()
      modifies pm
      ensures Valid() && chatId in pm.drafts && p == pm.drafts[chatId]
      ensures fresh(p) || p in old(pm.drafts).Values
      ensures pm.Drafts() == old(pm.Drafts())[chatId := DraftOf(old(pm.Drafts()), chatId)]
    {
      p := pm.GetOrCreateUserProfile(chatId);
      assert p.Value() == DraftOf(old(pm.Drafts()), chatId);
    }

    /** One setter of the chat's draft object; no other draft is touched, since no two chats share one. */
    method WriteDraft(p: UserProfile, chatId: int, f: Field, text: Option<string>, n: int)
      requires Valid() && chatId in pm.drafts && p == pm.drafts[chatId]
      modifies p
      ensures Valid() && p == pm.drafts[chatId]
      ensures pm.Drafts() == old(pm.Drafts())[chatId :=
                if f.IsNumeric() then old(p.Value()).WithNumber(f, n) else old(p.Value()).WithText(f, text)]
    {
      assert forall k :: k in pm.drafts && k != chatId ==> pm.drafts[k] != p;
      match f
      case Login => p.SetLogin(text);
      case Password => p.SetPassword(text);
      case Nickname => p.SetNickname(text);
      case Age => p.SetAge(n);
      case Height => p.SetHeight(n);
      case Weight => p.SetWeight(n);
    }

    /** `getOrCreateUserProfile` followed by one text setter of the draft. */
    method SetDraftText(chatId: int, f: Field, text: Option<string>) returns (p: UserProfile)
      requires Valid() && !f.IsNumeric()
      modifies pm, pm.drafts.Values
      ensures Valid() && chatId in pm.drafts && p == pm.drafts[chatId] && p.userId == 0
      ensures p.Value() == DraftOf(old(pm.Drafts()), chatId).WithText(f, text)
      ensures pm.Drafts() == old(pm.Drafts())[chatId := p.Value()]
    {
      ghost var before := pm.Drafts();
      p := Draft(chatId);
      assert p.Value() == pm.Drafts()[chatId] == DraftOf(before, chatId);
      ghost var d := DraftOf(before, chatId).WithText(f, text);
      WriteDraft(p, chatId, f, text, 0);
      assert before[chatId := DraftOf(before, chatId)][chatId := d] == before[chatId := d];
      assert p.Value() == d;
    }

    /**
     * `handleLogin`, `handlePassword`, `handleNickname`: set one text field
     * of the chat's draft (created if missing), then write the draft's six
     * columns to the rows of its user id, which is 0.
     */
    method SaveDraftText(chatId: int, f: Field, s: string) returns (step: Step)
      requires Valid() && !f.IsNumeric()
      modifies pm, pm.drafts.Values, db
      ensures Valid() && (step.Done? || step.StoreError?)
      ensures DraftWritten(old(pm.Drafts()), pm.Drafts(), old(db.Tables()), db.Tables(), chatId,
                           DraftOf(old(pm.Drafts()), chatId).WithText(f, Some(s)), step)
    {
      var profile := SetDraftText(chatId, f, Some(s));
      var o := pm.UpdateUserProfile(profile);
      step := if o.Success? then Done else StoreError;
    }

    /**
     * `handleAge`, `handleHeight`, `handleWeight`: the draft is created
     * before the input is parsed, so a bad number still leaves a draft.
     */
    method SaveDraftNumber(chatId: int, f: Field, input: string) returns (step: Step)
      requires Valid() && f.IsNumeric()
      modifies pm, pm.drafts.Values, db
      ensures Valid() && !step.Rejected? && chatId in pm.drafts
      ensures step.BadNumber? <==> ParseInt(input).None?
      ensures DraftWritten(old(pm.Drafts()), pm.Drafts(), old(db.Tables()), db.Tables(), chatId,
                           NumberDraft(DraftOf(old(pm.Drafts()), chatId), f, input), step)
    {
      ghost var before := pm.Drafts();
      var profile := Draft(chatId);
      assert profile.Value() == pm.Drafts()[chatId] == DraftOf(before, chatId);
      var n := ParseInt(input);
      if n.None? {
        assert NumberDraft(DraftOf(before, chatId), f, input) == DraftOf(before, chatId);
        return BadNumber;
      }
      ghost var d := NumberDraft(DraftOf(before, chatId), f, input);
      WriteDraft(profile, chatId, f, None, n.value);
      assert before[chatId := DraftOf(before, chatId)][chatId := d] == before[chatId := d];
      assert profile.Value() == d && profile.userId == 0;
      var o := pm.UpdateUserProfile(profile);
      step := if o.Success? then Done else StoreError;
    }

    /** `validateLogin`. */
    method ValidateLogin(login: Option<string>, password: string) returns (r: Result<int>)
      ensures r.Ok? ==> r.value == ValidatedUser(db.profiles, login, password, matches)
    {
      var failed: bool :| true;
      if failed {
        return Err;
      }
      if login.None? {
        return Ok(-1);
      }
      var found := Where(db.profiles, (row: ProfileRow) => row.login == login);
      if found != [] && found[0].password.Some? && matches(password, found[0].password.value) {
        return Ok(found[0].userId);
      }
      return Ok(-1);
    }

    /**
     * The rest of `handleLoginPassword`: a login and password that validate
     * to a user id open the session (that id, chat id).
     */
    method AttemptLogin(login: Option<string>, password: string, chatId: int) returns (step: Step)
      requires sm.db == db
      modifies db
      ensures step.Done? || step.Rejected? || step.StoreError?
      ensures LoginAttempted(old(db.Tables()), db.Tables(), chatId, ValidatedUser(old(db.profiles), login, password, matches), step)
    {
      var userId := ValidateLogin(login, password);
      if userId.Err? {
        return StoreError;
      }
      if userId.value == -1 {
        return Rejected;
      }
      var o := sm.CreateSession(userId.value, chatId);
      step := if o.Success? then Done else StoreError;
    }

    /**
     * `handleLoginPassword`, up to its reply: the hash of the input goes
     * into the draft (not to the table); the draft's login and the typed
     * password are checked against the table; a match opens a session for
     * the stored user id. The reply and the state change are `Finish`'s.
     */
    method CheckLoginPassword(chatId: int, input: string) returns (step: Step)
      requires Valid()
      modifies pm, pm.drafts.Values, db
      ensures Valid() && (step.Done? || step.Rejected? || step.StoreError?)
      ensures var d := DraftOf(old(pm.Drafts()), chatId).WithText(Password, Some(encode(input)));
              pm.Drafts() == old(pm.Drafts())[chatId := d] &&
              LoginAttempted(old(db.Tables()), db.Tables(), chatId, ValidatedUser(old(db.profiles), d.login, input, matches), step)
    {
      var profile := SetDraftText(chatId, Password, Some(encode(input)));
      step := AttemptLogin(profile.GetLogin(), input, chatId);
    }

    /** The work of the `SELECT_COURSE` handler: the number typed becomes the course of the chat's own row. */
    method SelectTypedCourse(chatId: int, input: string) returns (step: Step)
      requires Valid()
      modifies db
      ensures !step.Rejected? && (step.BadNumber? <==> ParseInt(input).None?)
      ensures step.Done? ==>
                db.Tables() == old(db.Tables()).(profiles := UpdateWhere(old(db.profiles), chatId, SetCourse(ParseInt(input).value)))
      ensures !step.Done? ==> db.Tables() == old(db.Tables())
    {
      var courseId := ParseInt(input);
      if courseId.None? {
        return BadNumber;
      }
      var o := cm.UpdateUserCourse(chatId, courseId.value);
      step := if o.Success? then Done else StoreError;
    }

    /** The work of the `VIEW_EXERCISES` handler: the exercise list of the workout whose id is typed. */
    method TypedWorkoutExercises(input: string) returns (step: Step, text: string)
      requires Valid()
      ensures !step.Rejected? && (step.BadNumber? <==> ParseInt(input).None?)
      ensures step.Done? ==> text == Render(ExercisesOfWorkout(db.exercises, ParseInt(input).value), ExerciseBlock)
    {
      var workoutId := ParseInt(input);
      if workoutId.None? {
        return BadNumber, "";
      }
      var exercises := cm.GetExercisesAsString(workoutId.value);
      if exercises.Err? {
        return StoreError, "";
      }
      return Done, exercises.value;
    }

    /** The work of the `EDIT_PROFILE_LOGIN`, `_PASSWORD` and `_NICKNAME` handlers: one column of the chat's own row. */
    method EditText(state: UserState, chatId: int, input: string) returns (step: Step)
      requires Valid() && (state.EditProfileLogin? || state.EditProfilePassword? || state.EditProfileNickname?)
      modifies db
      ensures step.Done? || step.StoreError?
      ensures step.Done? ==>
                db.Tables() == old(db.Tables()).(profiles :=
                  UpdateWhere(old(db.profiles), chatId, SetText(FieldOf(state), Some(StoredText(state, input, encode)))))
      ensures step.StoreError? ==> db.Tables() == old(db.Tables())
    {
      var o: Outcome;
      if state.EditProfileLogin? {
        assert FieldOf(state) == Login;
        o := pm.UpdateUserLogin(chatId, Some(input));
      } else if state.EditProfilePassword? {
        assert FieldOf(state) == Password;
        o := pm.UpdateUserPassword(chatId, Some(encode(input)));
      } else {
        assert FieldOf(state) == Nickname;
        o := pm.UpdateUserNickname(chatId, Some(input));
      }
      step := if o.Success? then Done else StoreError;
    }

    /** The work of the `EDIT_PROFILE_AGE`, `_HEIGHT` and `_WEIGHT` handlers. */
    method EditNumber(state: UserState, chatId: int, input: string) returns (step: Step)
      requires Valid() && (state.EditProfileAge? || state.EditProfileHeight? || state.EditProfileWeight?)
      modifies db
      ensures !step.Rejected? && (step.BadNumber? <==> ParseInt(input).None?)
      ensures step.Done? ==>
                db.Tables() == old(db.Tables()).(profiles :=
                  UpdateWhere(old(db.profiles), chatId, SetNumber(FieldOf(state), ParseInt(input).value)))
      ensures !step.Done? ==> db.Tables() == old(db.Tables())
    {
      var n := ParseInt(input);
      if n.None? {
        return BadNumber;
      }
      var o: Outcome;
      if state.EditProfileAge? {
        assert FieldOf(state) == Age;
        o := pm.UpdateUserAge(chatId, n.value);
      } else if state.EditProfileHeight? {
        assert FieldOf(state) == Height;
        o := pm.UpdateUserHeight(chatId, n.value);
      } else {
        assert FieldOf(state) == Weight;
        o := pm.UpdateUserWeight(chatId, n.value);
      }
      step := if o.Success? then Done else StoreError;
    }

    /**
     * The common tail of the handlers with a fixed reply: send the reply for
     * the outcome, then `put` the next state or `remove` the entry.
     */
    method Finish(state: UserState, chatId: int, step: Step)
      requires Possible(state, step) && !(state.ViewExercises? && step.Done?) && !state.EnterIngredients?
      modifies this, out
      ensures userStates == SetEntry(old(userStates), chatId, After(state, step))
      ensures out.sent == old(out.sent) + [SendMessage(chatId, Reply(state, step), NoMarkup)]
    {
      out.SendMsg(chatId, Reply(state, step));
      userStates := SetEntry(userStates, chatId, After(state, step));
    }

    /** The work of the signup and login handlers, which write the chat's draft. */
    method ActOnDraft(s: UserState, chatId: int, input: string) returns (step: Step)
      requires Valid() && WritesDraft(s)
      modifies pm, pm.drafts.Values, db
      ensures Valid() && Possible(s, step)
      ensures Acted(s, chatId, input, encode, matches, old(pm.Drafts()), pm.Drafts(), old(db.Tables()), db.Tables(), step)
      ensures s.EnterWeight? ==> chatId in pm.drafts
    {
      if s.LoginPassword? {
        step := CheckLoginPassword(chatId, input);
      } else if s.EnterAge? || s.EnterHeight? || s.EnterWeight? {
        step := SaveDraftNumber(chatId, FieldOf(s), input);
      } else {
        step := SaveDraftText(chatId, FieldOf(s), StoredText(s, input, encode));
      }
    }

    /**
     * The work of the other handlers, which leave the drafts alone: `text`
     * is the exercise list when the state is `VIEW_EXERCISES`.
     */
    method ActOnRow(s: UserState, chatId: int, input: string) returns (step: Step, text: string)
      requires Valid() && HasHandler(s) && !WritesDraft(s)
      modifies db
      ensures Possible(s, step)
      ensures Acted(s, chatId, input, encode, matches, old(pm.Drafts()), pm.Drafts(), old(db.Tables()), db.Tables(), step)
      ensures db.exercises == old(db.exercises)
      ensures s.ViewExercises? && step.Done? ==>
                text == Render(ExercisesOfWorkout(db.exercises, ParseInt(input).GetOr(0)), ExerciseBlock)
    {
      text := "";
      if s.SelectCourse? {
        step := SelectTypedCourse(chatId, input);
      } else if s.ViewExercises? {
        step, text := TypedWorkoutExercises(input);
      } else if s.EditProfileLogin? || s.EditProfilePassword? || s.EditProfileNickname? {
        step := EditText(s, chatId, input);
      } else if s.EditProfileAge? || s.EditProfileHeight? || s.EditProfileWeight? {
        step := EditNumber(s, chatId, input);
      } else {
        step := Done;
      }
    }

    /**
     * The work of the handler of state `s`, before its message: `text` is
     * the exercise list when the state is `VIEW_EXERCISES`.
     */
    method Act(s: UserState, chatId: int, input: string) returns (step: Step, text: string)
      requires Valid() && HasHandler(s)
      modifies pm, pm.drafts.Values, db
      ensures Valid() && Possible(s, step)
      ensures Acted(s, chatId, input, encode, matches, old(pm.Drafts()), pm.Drafts(), old(db.Tables()), db.Tables(), step)
      ensures s.EnterWeight? ==> chatId in pm.drafts
      ensures db.exercises == old(db.exercises)
      ensures s.ViewExercises? && step.Done? ==>
                text == Render(ExercisesOfWorkout(db.exercises, ParseInt(input).GetOr(0)), ExerciseBlock)
    {
      if WritesDraft(s) {
        step := ActOnDraft(s, chatId, input);
        text := "";
      } else {
        step, text := ActOnRow(s, chatId, input);
      }
    }

    /** The message of the handler of `s` and the chat's next state. */
    method Respond(s: UserState, chatId: int, input: string, step: Step, text: string)
      requires Possible(s, step) && GetUserState(chatId) == Some(s)
      requires s.ViewExercises? && step.Done? ==>
                 text == Render(ExercisesOfWorkout(db.exercises, ParseInt(input).GetOr(0)), ExerciseBlock)
      modifies this, out
      ensures userStates == SetEntry(old(userStates), chatId, After(s, step))
      ensures out.sent == old(out.sent) + [Answer(s, step, chatId, input, db.exercises, recipes)]
    {
      if s.EnterIngredients? {
        var message := Recipes.GetContent(chatId, Some(input), recipes);
        out.SendMsgWithInlineKeyboard(chatId, message.text, message.markup);
        assert SetEntry(userStates, chatId, Some(EnterIngredients)) == userStates;
      } else if s.ViewExercises? && step.Done? {
        out.SendMsg(chatId, text);
        userStates := userStates - {chatId};
      } else {
        Finish(s, chatId, step);
      }
    }

    /** The handler of the chat's state `s`: its work, its one message, and the chat's next state. */
    method RunHandler(s: UserState, chatId: int, input: string) returns (step: Step)
      requires Valid() && HasHandler(s) && GetUserState(chatId) == Some(s)
      modifies this, pm, pm.drafts.Values, db, out
      ensures Valid() && Possible(s, step)
      ensures Acted(s, chatId, input, encode, matches, old(pm.Drafts()), pm.Drafts(), old(db.Tables()), db.Tables(), step)
      ensures s.EnterWeight? ==> chatId in pm.drafts
      ensures userStates == SetEntry(old(userStates), chatId, After(s, step))
      ensures out.sent == old(out.sent) + [Answer(s, step, chatId, input, old(db.exercises), recipes)]
    {
      var text;
      step, text := Act(s, chatId, input);
      Respond(s, chatId, input, step, text);
    }

    /**
     * The tail of `handleProfileCreationOrLogin` after `ENTER_WEIGHT`: the
     * draft becomes a profile row keyed by the chat id, and a session
     * (chat id, chat id) is opened.
     */
    method CompleteSignup(chatId: int) returns (saved: Outcome)
      requires Valid() && chatId in pm.drafts
      modifies this, db, out
      ensures Valid()
      ensures var row := DraftRow(pm.Drafts()[chatId], chatId);
              (saved.Success? ==>
                 userStates == old(userStates) - {chatId} && out.sent == old(out.sent) &&
                 db.Tables() == old(db.Tables()).(profiles := old(db.profiles) + [row],
                                                  sessions := old(db.sessions) + [SessionRow(chatId, chatId)])) &&
              (saved.SqlFailure? ==>
                 userStates == old(userStates) &&
                 out.sent == old(out.sent) + [SendMessage(chatId, SaveFailed, NoMarkup)] &&
                 (db.Tables() == old(db.Tables()) || db.Tables() == old(db.Tables()).(profiles := old(db.profiles) + [row])))
    {
      var profile := pm.GetUserProfile(chatId);
      var o := pm.CreateUserProfile(chatId, profile.GetLogin(), profile.GetPassword(), profile.GetNickname(),
                                    profile.GetAge(), profile.GetHeight(), profile.GetWeight(), chatId);
      if o.Success? {
        o := sm.CreateSession(chatId, chatId);
      }
      if o.SqlFailure? {
        out.SendMsg(chatId, SaveFailed);
        return SqlFailure;
      }
      userStates := userStates - {chatId};
      saved := Success;
    }

    /** The `ENTER_WEIGHT` handler, then the profile save that follows it in `handleProfileCreationOrLogin`. */
    method SignupLastStep(chatId: int, input: string) returns (step: Step, saved: Outcome)
      requires Valid() && GetUserState(chatId) == Some(EnterWeight)
      modifies this, pm, pm.drafts.Values, db, out
      ensures Valid() && Possible(EnterWeight, step)
      ensures saved.Success? ==> userStates == old(userStates) - {chatId}
      ensures saved.SqlFailure? ==> userStates == SetEntry(old(userStates), chatId, After(EnterWeight, step))
      ensures out.sent == old(out.sent) + [Answer(EnterWeight, step, chatId, input, old(db.exercises), recipes)] +
                          (if saved.Success? then [] else [SendMessage(chatId, SaveFailed, NoMarkup)])
      ensures pm.Drafts() == old(pm.Drafts())[chatId := NumberDraft(DraftOf(old(pm.Drafts()), chatId), Weight, input)]
      ensures saved.Success? ==>
                chatId in pm.drafts && |db.profiles| > 0 && |db.sessions| > 0 &&
                db.profiles[|db.profiles| - 1] == DraftRow(pm.Drafts()[chatId], chatId) &&
                db.sessions[|db.sessions| - 1] == SessionRow(chatId, chatId)
    {
      ghost var d0 := pm.Drafts();
      ghost var t0 := db.Tables();
      ghost var u0 := userStates;
      step := RunHandler(EnterWeight, chatId, input);
      WeightActed(chatId, input, encode, matches, d0, pm.Drafts(), t0, db.Tables(), step);
      ghost var d1 := pm.Drafts();
      saved := CompleteSignup(chatId);
      assert pm.Drafts() == d1;
      if saved.Success? {
        SetThenRemove(u0, chatId, After(EnterWeight, step));
      }
    }

    /**
     * `handleProfileCreationOrLogin`: the input goes to the handler of the
     * chat's state; without a state or a handler the entry is removed.
     * Whenever the state was `ENTER_WEIGHT`, the profile is then saved.
     */
    method HandleProfileCreationOrLogin(chatId: int, input: string) returns (report: Report)
      requires Valid()
      modifies this, pm, pm.drafts.Values, db, out
      ensures Valid()
      ensures report.NoHandler? ==> pm.drafts == old(pm.drafts)
      ensures Dispatched(chatId, input, encode, matches, recipes, old(userStates), userStates,
                         old(pm.Drafts()), pm.Drafts(), old(db.Tables()), db.Tables(), old(out.sent), out.sent, report)
    {
      var state := GetUserState(chatId);
      if state.None? || !HasHandler(state.value) {
        RemoveUserState(chatId);
        return NoHandler;
      }
      var s := state.value;
      ghost var s0, d0, t0, sent0 := userStates, pm.Drafts(), db.Tables(), out.sent;
      if s.EnterWeight? {
        var step, saved := SignupLastStep(chatId, input);
        SignupDispatched(chatId, input, encode, matches, recipes, s0, userStates, d0, pm.Drafts(),
                         t0, db.Tables(), sent0, out.sent, step, saved);
        report := Signup(step, saved);
      } else {
        var step := RunHandler(s, chatId, input);
        HandledDispatched(chatId, input, encode, matches, recipes, s0, userStates, d0, pm.Drafts(),
                          t0, db.Tables(), sent0, out.sent, s, step);
        report := Handled(step);
      }
    }
  }
}
