/**
 * The dialogue states of a chat and the state each handler leaves behind.
 * `UserState` lists the states the handler table knows plus the two
 * reminder states, which have no handler. `Step` is how a handler ended;
 * `After` is the state entry it leaves for the chat (`None`: removed).
 */
module UserStates {
  import opened JavaLang

  datatype UserState =
    | LoginLogin | LoginPassword
    | CreateProfileLogin | CreateProfilePassword
    | EnterNickname | EnterAge | EnterHeight | EnterWeight
    | SelectCourse | ViewExercises
    | EditProfileLogin | EditProfilePassword | EditProfileNickname
    | EditProfileAge | EditProfileHeight | EditProfileWeight
    | EnterIngredients
    | AddReminder | DeleteReminder

  /** How one handler call ended. */
  datatype Step =
    | Done        // the input was accepted and every store call returned
    | BadNumber   // `Integer.parseInt` threw
    | StoreError  // a store call threw `SQLException`
    | Rejected    // the login and password did not match

  /** The states with an entry in the handler table. */
  predicate HasHandler(s: UserState) {
    !s.AddReminder? && !s.DeleteReminder?
  }

  /** The states whose handler parses its input as an `int`. */
  predicate ParsesNumber(s: UserState) {
    s.EnterAge? || s.EnterHeight? || s.EnterWeight? || s.SelectCourse? || s.ViewExercises? ||
    s.EditProfileAge? || s.EditProfileHeight? || s.EditProfileWeight?
  }

  predicate IsEditState(s: UserState) {
    s.EditProfileLogin? || s.EditProfilePassword? || s.EditProfileNickname? ||
    s.EditProfileAge? || s.EditProfileHeight? || s.EditProfileWeight?
  }

  /** The handlers whose store error also ends the dialogue. */
  predicate ClearsOnStoreError(s: UserState) {
    s.LoginLogin? || s.LoginPassword? || s.CreateProfileLogin?
  }

  /** The ways the handler of `s` can end. */
  predicate Possible(s: UserState, step: Step) {
    HasHandler(s) &&
    (step.Rejected? ==> s.LoginPassword?) &&
    (step.BadNumber? ==> ParsesNumber(s)) &&
    (s.EnterIngredients? ==> step.Done?)
  }

  /** The signup chain, in order. */
  const SignupOrder: seq<UserState> :=
    [CreateProfileLogin, CreateProfilePassword, EnterNickname, EnterAge, EnterHeight, EnterWeight]

  /** The entry after an accepted input: the next state of a chain, or none. */
  function Advance(s: UserState): (r: Option<UserState>)
    ensures r.Some? ==> HasHandler(r.value)
    ensures r == Some(s) <==> s.EnterIngredients?
  {
    match s
    case LoginLogin => Some(LoginPassword)
    case CreateProfileLogin => Some(CreateProfilePassword)
    case CreateProfilePassword => Some(EnterNickname)
    case EnterNickname => Some(EnterAge)
    case EnterAge => Some(EnterHeight)
    case EnterHeight => Some(EnterWeight)
    case EnterIngredients => Some(EnterIngredients)
    case _ => None
  }

  /** The chat's state entry after the handler of `s` ended with `step`. */
  function After(s: UserState, step: Step): (r: Option<UserState>)
    ensures HasHandler(s) && r.Some? ==> HasHandler(r.value)
    ensures r.Some? && r.value != s ==> step.Done? || step.Rejected?
  {
    match step
    case Done => Advance(s)
    case Rejected => Some(LoginLogin)
    case BadNumber => Some(s)
    case StoreError => if ClearsOnStoreError(s) then None else Some(s)
  }

  /** `put` for `Some`, `remove` for `None`. */
  function SetEntry(states: map<int, UserState>, chatId: int, entry: Option<UserState>): (r: map<int, UserState>)
    ensures entry.None? ==> chatId !in r
    ensures entry.Some? ==> chatId in r && r[chatId] == entry.value
    ensures forall k :: k != chatId ==> (k in r <==> k in states) && (k in r ==> r[k] == states[k])
  {
    if entry.None? then states - {chatId} else states[chatId := entry.value]
  }

  /** Removing an entry after setting it leaves the map as removing it at once would. */
  lemma SetThenRemove(states: map<int, UserState>, chatId: int, entry: Option<UserState>)
    ensures SetEntry(states, chatId, entry) - {chatId} == SetEntry(states, chatId, None)
  {
  }

  /**
   * Signup moves one state along the chain on each accepted input, and the
   * last accepted input ends the dialogue.
   */
  lemma SignupChain(i: int)
    requires 0 <= i < |SignupOrder|
    ensures After(SignupOrder[i], Done) == if i + 1 < |SignupOrder| then Some(SignupOrder[i + 1]) else None
  {
  }

  /**
   * A signup step that was not accepted never moves the chat forward: it
   * stays where it is, except that a store error at the first step ends
   * the dialogue.
   */
  lemma SignupWaitsForSuccess(i: int, step: Step)
    requires 0 <= i < |SignupOrder| && Possible(SignupOrder[i], step) && !step.Done?
    ensures After(SignupOrder[i], step) == if i == 0 && step.StoreError? then None else Some(SignupOrder[i])
  {
  }

  /** Input that does not parse as a number keeps the state, so the same question is asked again. */
  lemma BadNumberKeepsState(s: UserState)
    requires ParsesNumber(s)
    ensures Possible(s, BadNumber) && After(s, BadNumber) == Some(s)
  {
  }

  /** A store error ends the dialogue in the two login states and the first signup state, and only there. */
  lemma StoreErrorEndsOnlyLogin(s: UserState)
    requires Possible(s, StoreError)
    ensures After(s, StoreError).None? <==> s in {LoginLogin, LoginPassword, CreateProfileLogin}
    ensures After(s, StoreError).Some? ==> After(s, StoreError) == Some(s)
  {
  }

  /** A successful login ends the dialogue; a rejected one starts it over at the login prompt. */
  lemma LoginOutcomes()
    ensures After(LoginLogin, Done) == Some(LoginPassword)
    ensures After(LoginPassword, Done) == None
    ensures After(LoginPassword, Rejected) == Some(LoginLogin)
  {
  }

  /** An accepted edit, course choice or exercise request ends the dialogue. */
  lemma SingleStepDialoguesEnd(s: UserState)
    requires IsEditState(s) || s.SelectCourse? || s.ViewExercises?
    ensures After(s, Done) == None
  {
  }

  /** The ingredients state is never left by its own handler. */
  lemma IngredientsStateStays(step: Step)
    requires Possible(EnterIngredients, step)
    ensures After(EnterIngredients, step) == Some(EnterIngredients)
  {
  }
}
