# SportX bot — a Dafny model of its dialogue core

SportX is a Telegram fitness bot. A chat types commands or presses menu
buttons. The router in `TelegramBot` maps button text to a command token.
If the chat is in the middle of a dialogue, the raw text goes to that
dialogue. Otherwise the router runs the token's action from its command
table and sends one reply. The dialogues live in `StateHandler`. It keeps
a map from chat id to `UserState` and one handler per state. The handlers
cover signup, login, single-field profile edits, course selection,
exercise listing and the ingredients prompt. They write a per-chat draft
profile and, through the stores, the SQL tables: profiles, sessions,
courses, workouts, exercises and completion marks. Around these sit the
reply and inline keyboards with their callback strings, and the recipe
text processing: parsing of search results, HTML tag cleanup, and
sentence chunking before translation.

The model has one module per Java class, plus `JavaLang` for the Java
library behaviour the bot relies on, `Tables` for the SQL tables, and
`Messaging` for the outgoing messages:

| module | file | models |
|---|---|---|
| `JavaLang` | java_lang.dfy | `Integer.parseInt`, `String.valueOf(int)`, `String.trim`, `String.join`, literal `replaceAll` |
| `Tables` | tables.dfy | the tables as sequences of rows, the `WHERE` filters and `UPDATE`s, and the shared `Database` object |
| `Profiles` | user_profile.dfy | `UserProfile` as a class with its setters, and its value as a datatype |
| `ProfileStore` | user_profile_manager.dfy | `UserProfileManager`: the draft map and the profile-table statements |
| `DatabaseAccess` | database_manager.dfy | `DatabaseManager`'s profile lookup, used by `/viewprofile` |
| `Sessions` | session_manager.dfy | `SessionManager` |
| `Courses` | course_manager.dfy | `CourseManager`: listings, formatting, course choice and completion marks |
| `Keyboards` | keyboard_markup.dfy | `KeyboardMarkup` |
| `InlineKeyboards` | inline_keyboards.dfy | `InlineKeyboardManager` and the callback-string encoding |
| `Messaging` | messaging.dfy | `sendMsg`, `sendMsgWithKeyboard` and `sendMsgWithInlineKeyboard`, as appends to an outbox |
| `RecipeParsing` | recipe_parser.dfy | `recipes/RecipeParser` |
| `Recipes` | recipes_command.dfy | `recipes/RecipesCommand` |
| `LegacyRecipes` | legacy_recipes_command.dfy | the older `bot/RecipesCommand` |
| `UserStates` | user_state.dfy | the `UserState` values and the state each handler moves to |
| `Dialogue` | state_handler.dfy | `StateHandler` |
| `Router` | telegram_bot.dfy | `TelegramBot` |

Design choices:
- A store call that can throw `SQLException` chooses its outcome
  nondeterministically (`var failed: bool :| true;`). A failed statement
  leaves the tables as they were.
- BCrypt `encode`/`matches`, the translation service, the recipe search,
  the recipe-information call and JSON parsing are function-valued
  parameters. Parsed JSON arrives as a datatype.
- Query results come back in table order.
- The completion table is a map keyed by (user id, workout id).
  `ON DUPLICATE KEY UPDATE` implies that key is unique.
- `TelegramBot` calls `databaseManager.getUserState`, `setUserState`,
  `handleProfileCreation` and `addUserProfile`. `DatabaseManager` defines
  none of these, so the router calls the `StateHandler` and
  `UserProfileManager` members of the same names instead. The router has
  no session or login check before running a command, and neither does the
  model.
- `/viewprofile` calls `DatabaseManager.getUserProfileAsString`: it looks
  the chat id up as a user id and formats four plain fields
  (`DatabaseAccess`). `/deleteprofile` calls
  `DatabaseManager.deleteUserProfileAsString`, whose statements and texts
  are those of `UserProfileManager.deleteUserProfileAsString`, so the
  router runs the latter. The bot builds its `DatabaseManager` with
  `new DatabaseManager(this)`, which matches no constructor; the model's
  manager works on the bot's one database.

Where the design notes and the code differ, the model follows the code:
- `/createprofile` starts at `ENTER_NICKNAME`, not at a login state.
- Choosing a course does not reset the completion marks.
- During signup, each step's `UPDATE` goes to the rows of user id 0,
  because the draft's user id is never set. `Dialogue.StateHandler.Valid`
  keeps "every draft has user id 0" as an invariant.
- Once the state was `ENTER_WEIGHT`, the profile is saved even when the
  weight did not parse (`Dialogue.SavedSignupEnds`).
- `/start` sends its greeting twice: once with the main menu, then once
  more as the router's plain reply.
- Seven main-menu buttons (`/login`, `/logout`, `/viewcourses`, and
  others) map to tokens that the default command table does not register,
  so they get the unknown-command reply (`Router.UnregisteredMenuCommands`).

## Model

Each source cell names a Java file of the repository and the lines the member models.

| member | source | states |
|---|---|---|
| JavaLang.ParseInt | SportX_Bot/src/main/java/org/example/bot/StateHandler.java:316-332 | a parsed value is always within the 32-bit `int` range, and parsing succeeds only on text that starts with a digit or a sign |
| JavaLang.LeadingZerosValue | SportX_Bot/src/main/java/org/example/bot/StateHandler.java:316-332 | leading zeros do not change the value of a digit string |
| JavaLang.ParseIntValue | SportX_Bot/src/main/java/org/example/bot/StateHandler.java:316-332 | a sign (none, `+` or `-`) followed by ASCII digits parses to the signed value of the digits when it fits in an `int`, and fails otherwise |
| JavaLang.ParseIntPadded | SportX_Bot/src/main/java/org/example/bot/StateHandler.java:316-332 | non-canonical forms parse: any `int` from 0 up with leading zeros, with or without a `+`, gives that number (so `"007"` and `"+5"` parse) |
| JavaLang.ParseIntOverflow | SportX_Bot/src/main/java/org/example/bot/StateHandler.java:316-332 | the decimal text of a number outside the `int` range does not parse |
| JavaLang.ParseIntOfIntToString | SportX_Bot/src/main/java/org/example/bot/StateHandler.java:134-137 | every `int` rendered in decimal parses back to itself |
| JavaLang.ParseIntRejectsNonDigit | SportX_Bot/src/main/java/org/example/bot/StateHandler.java:95-106 | a character that is not a digit (other than a leading sign) makes the parse fail, which is the `NumberFormatException` path |
| JavaLang.IntToString | SportX_Bot/src/main/java/org/example/bot/CourseManager.java:101-116 | the decimal rendering is non-empty, and starts with `-` exactly for negative numbers |
| JavaLang.IntToStringInjective | SportX_Bot/src/main/java/org/example/bot/InlineKeyboardManager.java:15-22 | distinct integers render to distinct strings |
| JavaLang.DigitsRoundTrip | SportX_Bot/src/main/java/org/example/bot/CourseManager.java:101-116 | reading back the digits of a natural number gives that number |
| JavaLang.Trim | SportX_Bot/src/main/java/org/example/recipes/RecipeParser.java:81-94 | the trimmed text is no longer than the input, and is empty or starts and ends with a character above U+0020 |
| JavaLang.TrimIsSlice | SportX_Bot/src/main/java/org/example/recipes/RecipeParser.java:81-94 | the trimmed text is the slice `s[i..j]` of the input, and every character before `i` and from `j` on is at most U+0020 |
| JavaLang.TrimIdempotent | SportX_Bot/src/main/java/org/example/recipes/RecipeParser.java:87-94 | trimming twice equals trimming once |
| JavaLang.TrimOfTrimmed | SportX_Bot/src/main/java/org/example/recipes/RecipeParser.java:87-94 | a text with visible first and last characters is its own trim |
| JavaLang.Join | SportX_Bot/src/main/java/org/example/recipes/RecipesCommand.java:69 | joining no parts gives the empty text, and joining one part gives that part |
| JavaLang.JoinAppend | SportX_Bot/src/main/java/org/example/recipes/RecipesCommand.java:69 | joining one more part appends the separator and that part to the joined text |
| JavaLang.JoinLength | SportX_Bot/src/main/java/org/example/recipes/RecipesCommand.java:69 | the joined text is as long as all parts together plus one separator between each two neighbouring parts |
| JavaLang.ReplaceAllAbsent | SportX_Bot/src/main/java/org/example/recipes/RecipeParser.java:55-60 | a pattern whose first character does not occur leaves the text unchanged |
| JavaLang.ReplaceAll | SportX_Bot/src/main/java/org/example/recipes/RecipeParser.java:56-59 | every character of the result comes from the input or from the replacement |
| JavaLang.ReplaceAllAtStart | SportX_Bot/src/main/java/org/example/recipes/RecipeParser.java:56-59 | an occurrence of the pattern at the start is replaced, and the pass continues right after it |
| Tables.Apply | SportX_Bot/src/main/java/org/example/bot/UserProfileManager.java:41-56 | an `UPDATE` never changes the user id or the chat id, and only a course update changes the course |
| Tables.UpdateWhere | SportX_Bot/src/main/java/org/example/bot/UserProfileManager.java:139-209 | `UPDATE … WHERE user_id = ?` rewrites exactly the rows with that user id, keeps every other row, and keeps the row count |
| Tables.Where | SportX_Bot/src/main/java/org/example/bot/SessionManager.java:41-50 | a `WHERE` filter keeps exactly the matching rows, each with its multiplicity |
| Tables.FirstProfile | SportX_Bot/src/main/java/org/example/bot/CourseManager.java:221-233 | a row is found exactly when some row has the user id, and the found row is one of them |
| Tables.CourseIdOf | SportX_Bot/src/main/java/org/example/bot/CourseManager.java:221-233 | without a profile row the course id is 0 |
| Tables.JoinedProfile | SportX_Bot/src/main/java/org/example/bot/UserProfileManager.java:99-121 | the sessions-to-profiles join finds a row exactly when some session of the chat names the user id of some profile row |
| Tables.WithoutUser | SportX_Bot/src/main/java/org/example/bot/CourseManager.java:165-170 | deleting a user's completion marks keeps exactly the keys of the other users |
| Profiles.UserProfile.constructor | SportX_Bot/src/main/java/org/example/bot/UserProfile.java:15-17 | the default profile has user id 0, zero numbers, null strings and is not logged in |
| Profiles.UserProfile.Full | SportX_Bot/src/main/java/org/example/bot/UserProfile.java:19-28 | each argument is stored in its own field |
| Profiles.UserProfile.SetUserId | SportX_Bot/src/main/java/org/example/bot/UserProfile.java:34-36 | the getter returns the value set, and no other field changes |
| Profiles.UserProfile.SetLogin | SportX_Bot/src/main/java/org/example/bot/UserProfile.java:42-44 | the getter returns the value set, and no other field changes |
| Profiles.UserProfile.SetPassword | SportX_Bot/src/main/java/org/example/bot/UserProfile.java:50-52 | the getter returns the value set, and no other field changes |
| Profiles.UserProfile.SetNickname | SportX_Bot/src/main/java/org/example/bot/UserProfile.java:58-60 | the getter returns the value set, and no other field changes |
| Profiles.UserProfile.SetAge | SportX_Bot/src/main/java/org/example/bot/UserProfile.java:66-68 | the getter returns the value set, and no other field changes |
| Profiles.UserProfile.SetHeight | SportX_Bot/src/main/java/org/example/bot/UserProfile.java:74-76 | the getter returns the value set, and no other field changes |
| Profiles.UserProfile.SetWeight | SportX_Bot/src/main/java/org/example/bot/UserProfile.java:82-84 | the getter returns the value set, and no other field changes |
| Profiles.UserProfile.SetLoggedIn | SportX_Bot/src/main/java/org/example/bot/UserProfile.java:90-92 | the getter returns the value set, and no other field changes |
| ProfileStore.ProfileText | SportX_Bot/src/main/java/org/example/bot/UserProfileManager.java:99-121 | a rendered profile is never the "profile not found" text |
| ProfileStore.UserProfileManager.constructor | SportX_Bot/src/main/java/org/example/bot/UserProfileManager.java:14-16 | a new manager has no drafts |
| ProfileStore.UserProfileManager.IsProfileExists | SportX_Bot/src/main/java/org/example/bot/UserProfileManager.java:18-31 | on success, true exactly when some profile row has the user id |
| ProfileStore.UserProfileManager.AddUserProfile | SportX_Bot/src/main/java/org/example/bot/UserProfileManager.java:33-35 | the draft for the id is replaced by the given object, and the other drafts stay |
| ProfileStore.UserProfileManager.GetUserProfile | SportX_Bot/src/main/java/org/example/bot/UserProfileManager.java:37-39 | returns the chat's draft, or null when there is none |
| ProfileStore.UserProfileManager.GetOrCreateUserProfile | SportX_Bot/src/main/java/org/example/bot/UserProfileManager.java:123-125 | an existing draft is returned and the map is unchanged; otherwise a fresh default draft is inserted and returned |
| ProfileStore.UserProfileManager.ExecuteUpdate | SportX_Bot/src/main/java/org/example/bot/UserProfileManager.java:127-209 | on success the profile rows with the user id are rewritten by the edit; on failure nothing changes |
| ProfileStore.UserProfileManager.UpdateUserProfile | SportX_Bot/src/main/java/org/example/bot/UserProfileManager.java:41-56 | on success the six profile columns of the rows with the draft's user id become the draft's values |
| ProfileStore.UserProfileManager.CreateUserProfile | SportX_Bot/src/main/java/org/example/bot/UserProfileManager.java:58-74 | on success exactly one row holding all eight values is appended |
| ProfileStore.UserProfileManager.DeleteUserProfile | SportX_Bot/src/main/java/org/example/bot/UserProfileManager.java:76-79 | on success every row of the user is removed |
| ProfileStore.UserProfileManager.DeleteUserProfileAsString | SportX_Bot/src/main/java/org/example/bot/UserProfileManager.java:81-97 | an existing profile is removed with the success text; a missing one gives "profile not found" and nothing changes |
| ProfileStore.UserProfileManager.GetUserProfileAsString | SportX_Bot/src/main/java/org/example/bot/UserProfileManager.java:99-121 | "profile not found" exactly when no session of the chat joins a profile row; otherwise the joined row rendered |
| ProfileStore.UserProfileManager.UpdateUserCourse | SportX_Bot/src/main/java/org/example/bot/UserProfileManager.java:127-137 | on success only the course id of the user's rows changes |
| ProfileStore.UserProfileManager.UpdateUserLogin | SportX_Bot/src/main/java/org/example/bot/UserProfileManager.java:139-149 | on success only the login column of the user's rows changes |
| ProfileStore.UserProfileManager.UpdateUserPassword | SportX_Bot/src/main/java/org/example/bot/UserProfileManager.java:151-161 | on success only the password column of the user's rows changes |
| ProfileStore.UserProfileManager.UpdateUserNickname | SportX_Bot/src/main/java/org/example/bot/UserProfileManager.java:163-173 | on success only the nickname column of the user's rows changes |
| ProfileStore.UserProfileManager.UpdateUserAge | SportX_Bot/src/main/java/org/example/bot/UserProfileManager.java:175-185 | on success only the age column of the user's rows changes |
| ProfileStore.UserProfileManager.UpdateUserHeight | SportX_Bot/src/main/java/org/example/bot/UserProfileManager.java:187-197 | on success only the height column of the user's rows changes |
| ProfileStore.UserProfileManager.UpdateUserWeight | SportX_Bot/src/main/java/org/example/bot/UserProfileManager.java:199-209 | on success only the weight column of the user's rows changes |
| ProfileStore.UpdateWithoutMatchIsNoOp | SportX_Bot/src/main/java/org/example/bot/UserProfileManager.java:139-209 | an update for a user id with no row changes nothing |
| ProfileStore.UpdateChangesOnlyThatColumn | SportX_Bot/src/main/java/org/example/bot/UserProfileManager.java:139-209 | a one-column update changes that column in the user's rows, keeps ids and course, and leaves other users' rows alone |
| ProfileStore.DeleteRemovesOnlyThatUser | SportX_Bot/src/main/java/org/example/bot/UserProfileManager.java:76-97 | after the delete the user has no row, and every other user's rows keep their multiplicity |
| DatabaseAccess.PlainProfileText | SportX_Bot/src/main/java/org/example/bot/DatabaseManager.java:126-131 | the text of a found row starts with the profile header and is never the not-found text |
| DatabaseAccess.ProfileLookupText | SportX_Bot/src/main/java/org/example/bot/DatabaseManager.java:120-138 | the lookup gives the not-found text exactly when the user has no row, and the profile header exactly when it has one |
| DatabaseAccess.LookupShowsFirstRow | SportX_Bot/src/main/java/org/example/bot/DatabaseManager.java:120-138 | the lookup shows the user's earliest row, whatever rows follow it |
| DatabaseAccess.LookupIgnoresOtherUsers | SportX_Bot/src/main/java/org/example/bot/DatabaseManager.java:114-118 | rows of other users do not change what the lookup shows |
| DatabaseAccess.FirstSurvivesDelete | SportX_Bot/src/main/java/org/example/bot/DatabaseManager.java:140-144 | deleting one user's rows leaves every other user's first row as it was |
| DatabaseAccess.LookupAfterDelete | SportX_Bot/src/main/java/org/example/bot/DatabaseManager.java:114-144 | after a user's rows are deleted, the lookup finds no profile |
| DatabaseAccess.DatabaseManager.constructor | SportX_Bot/src/main/java/org/example/bot/DatabaseManager.java:21-23 | the manager works on the given database |
| DatabaseAccess.DatabaseManager.GetUserProfileAsString | SportX_Bot/src/main/java/org/example/bot/DatabaseManager.java:120-138 | when no statement throws, the reply is the lookup text of the user id over `user_profiles` |
| Sessions.SessionManager.constructor | SportX_Bot/src/main/java/org/example/bot/SessionManager.java:11-13 | the manager uses the given database |
| Sessions.SessionManager.IsSessionActive | SportX_Bot/src/main/java/org/example/bot/SessionManager.java:15-27 | on success, true exactly when some session row has the chat id |
| Sessions.SessionManager.CreateSession | SportX_Bot/src/main/java/org/example/bot/SessionManager.java:29-39 | on success the row (user id, chat id) is appended, with no existence check |
| Sessions.SessionManager.LogoutUser | SportX_Bot/src/main/java/org/example/bot/SessionManager.java:41-50 | on success every row of the chat is deleted |
| Sessions.CreatedSessionIsActive | SportX_Bot/src/main/java/org/example/bot/SessionManager.java:15-39 | after a session is created the chat is active, and chats active before stay active |
| Sessions.LogoutEndsOnlyThatChat | SportX_Bot/src/main/java/org/example/bot/SessionManager.java:15-50 | after logout the chat is inactive, other chats keep their activity, and their rows keep their multiplicity |
| Courses.RenderAppend | SportX_Bot/src/main/java/org/example/bot/CourseManager.java:101-116 | rendering a concatenation of rows is the concatenation of the renderings |
| Courses.WorkoutsWithStatus | SportX_Bot/src/main/java/org/example/bot/CourseManager.java:137-163 | one entry per workout of the user's course, in order, whose flag equals the user's completion mark |
| Courses.CourseManager.constructor | SportX_Bot/src/main/java/org/example/bot/CourseManager.java:13-15 | the manager uses the given database |
| Courses.CourseManager.GetCoursesAsString | SportX_Bot/src/main/java/org/example/bot/CourseManager.java:17-31 | on success, one formatted block per course, in table order |
| Courses.CourseManager.GetCourses | SportX_Bot/src/main/java/org/example/bot/CourseManager.java:33-49 | on success, the courses table in order |
| Courses.CourseManager.GetCourseIdForUser | SportX_Bot/src/main/java/org/example/bot/CourseManager.java:221-233 | on success the user's course id, and 0 without a profile row |
| Courses.CourseManager.GetWorkoutsAsString | SportX_Bot/src/main/java/org/example/bot/CourseManager.java:51-73 | on success, one block per workout of the user's course, in order |
| Courses.CourseManager.GetWorkouts | SportX_Bot/src/main/java/org/example/bot/CourseManager.java:75-99 | on success, the workouts of the user's course, in order, none marked completed |
| Courses.CourseManager.GetExercisesAsString | SportX_Bot/src/main/java/org/example/bot/CourseManager.java:101-116 | on success, one fixed-format block per exercise of the workout, in order; empty when there are none |
| Courses.CourseManager.MarkWorkoutAsCompleted | SportX_Bot/src/main/java/org/example/bot/CourseManager.java:118-123 | on success the (user, workout) mark is set to true and nothing else changes |
| Courses.CourseManager.IsWorkoutCompleted | SportX_Bot/src/main/java/org/example/bot/CourseManager.java:125-135 | on success, true exactly when a mark exists and is true |
| Courses.CourseManager.GetWorkoutsWithCompletionStatus | SportX_Bot/src/main/java/org/example/bot/CourseManager.java:137-163 | on success, the workouts of the user's course with their completion flags |
| Courses.CourseManager.ResetCompletedWorkouts | SportX_Bot/src/main/java/org/example/bot/CourseManager.java:165-170 | on success every mark of the user is deleted |
| Courses.CourseManager.GetCoursesList | SportX_Bot/src/main/java/org/example/bot/CourseManager.java:172-184 | on success, the course names in table order |
| Courses.CourseManager.SelectCourse | SportX_Bot/src/main/java/org/example/bot/CourseManager.java:186-191 | on success only the course id of the user's rows changes |
| Courses.CourseManager.GetWorkoutsList | SportX_Bot/src/main/java/org/example/bot/CourseManager.java:193-205 | on success, the names of the course's workouts, in order |
| Courses.CourseManager.GetExercisesList | SportX_Bot/src/main/java/org/example/bot/CourseManager.java:207-219 | on success, the names of the workout's exercises, in order |
| Courses.CourseManager.UpdateUserCourse | SportX_Bot/src/main/java/org/example/bot/CourseManager.java:235-245 | on success only the course id of the user's rows changes |
| Courses.SelectedCourseReadsBack | SportX_Bot/src/main/java/org/example/bot/CourseManager.java:221-245 | after a course is chosen for a user with a profile, reading the user's course gives it back |
| Courses.UpdateKeepsOtherCourses | SportX_Bot/src/main/java/org/example/bot/CourseManager.java:221-245 | an update for one user leaves every other user's course id alone |
| Courses.ProfileEditKeepsCourse | SportX_Bot/src/main/java/org/example/bot/UserProfileManager.java:139-209 | a profile-column edit never changes anyone's course id |
| Courses.MarkThenRead | SportX_Bot/src/main/java/org/example/bot/CourseManager.java:118-135 | after a mark the workout reads as completed, and every other mark reads as before |
| Courses.MarkIdempotent | SportX_Bot/src/main/java/org/example/bot/CourseManager.java:118-123 | marking twice equals marking once |
| Courses.ResetClearsOnlyThatUser | SportX_Bot/src/main/java/org/example/bot/CourseManager.java:125-170 | after a reset no workout of the user reads as completed, and other users' marks read as before |
| Courses.WorkoutsTextSplits | SportX_Bot/src/main/java/org/example/bot/CourseManager.java:51-73 | the workout listing of a split row sequence is the listing of each part, concatenated |
| Courses.NamedBlock | SportX_Bot/src/main/java/org/example/bot/CourseManager.java:24-25 | a course or workout block opens with its name in bold on a line of its own and ends with a blank line |
| Courses.CourseBlock | SportX_Bot/src/main/java/org/example/bot/CourseManager.java:24-25 | a course block opens with the course name in bold on its own line and ends with a blank line |
| Courses.WorkoutBlock | SportX_Bot/src/main/java/org/example/bot/CourseManager.java:66-67 | a workout block opens with the workout name in bold on its own line and ends with a blank line |
| Courses.ExerciseBlock | SportX_Bot/src/main/java/org/example/bot/CourseManager.java:108-109 | an exercise block opens with the exercise name in bold on its own line and ends with a blank line |
| Courses.BlockShape | SportX_Bot/src/main/java/org/example/bot/CourseManager.java:24-25 | any text framed by the bold-name line and a closing blank line has the block layout |
| Keyboards.MapButtonTextToCommand | SportX_Bot/src/main/java/org/example/bot/KeyboardMarkup.java:100-102 | the result is the text itself or `/unknown`, and always a registered token or `/unknown` |
| Keyboards.TableKeysAreTokens | SportX_Bot/src/main/java/org/example/bot/KeyboardMarkup.java:16-35 | the table's keys are exactly the 18 tokens, and `/unknown` is not one of them |
| Keyboards.MapIsIdentityOnTokens | SportX_Bot/src/main/java/org/example/bot/KeyboardMarkup.java:17-34 | a registered token maps to itself |
| Keyboards.MapSendsOtherTextToUnknown | SportX_Bot/src/main/java/org/example/bot/KeyboardMarkup.java:100-102 | any other text maps to `/unknown` |
| Keyboards.MapIsIdempotent | SportX_Bot/src/main/java/org/example/bot/KeyboardMarkup.java:100-102 | mapping twice equals mapping once |
| Keyboards.GetMainMenuKeyboard | SportX_Bot/src/main/java/org/example/bot/KeyboardMarkup.java:37-81 | the menu is resized and one-time, with 7 rows of exactly 2 buttons |
| Keyboards.MainMenuLabelsAreCommands | SportX_Bot/src/main/java/org/example/bot/KeyboardMarkup.java:43-77 | every menu label is a token that maps to itself; the only tokens missing from the menu are the recipe and reminder commands |
| Keyboards.GetCourseSelectionKeyboard | SportX_Bot/src/main/java/org/example/bot/KeyboardMarkup.java:83-98 | one row per course, in order, labelled with the course name |
| InlineKeyboards.CallbackData | SportX_Bot/src/main/java/org/example/bot/InlineKeyboardManager.java:18 | a callback string is never empty |
| InlineKeyboards.DecodeCallbackData | SportX_Bot/src/main/java/org/example/bot/InlineKeyboardManager.java:11-58 | the callback strings can be read back: a reference decoder (the bot has none of its own) gives back every callback whose id is an `int`, so the strings identify what was pressed |
| InlineKeyboards.CallbackDataInjective | SportX_Bot/src/main/java/org/example/bot/InlineKeyboardManager.java:18-51 | distinct callbacks have distinct callback strings |
| InlineKeyboards.GetCourseSelectionKeyboard | SportX_Bot/src/main/java/org/example/bot/InlineKeyboardManager.java:11-26 | one single-button row per course, in order, whose callback is the decimal course id |
| InlineKeyboards.WorkoutLabel | SportX_Bot/src/main/java/org/example/bot/InlineKeyboardManager.java:32-39 | the label starts with the name; it is the name alone for a workout that is not completed, and the name, the check icon and a space for a completed one |
| InlineKeyboards.GetWorkoutSelectionKeyboard | SportX_Bot/src/main/java/org/example/bot/InlineKeyboardManager.java:28-43 | one single-button row per workout, in order, with callback `workout_<id>` |
| InlineKeyboards.GetCompleteWorkoutKeyboard | SportX_Bot/src/main/java/org/example/bot/InlineKeyboardManager.java:45-58 | exactly one row holding one icon button, whose callback decodes to "complete" with the workout id |
| InlineKeyboards.GetEditProfileKeyboard | SportX_Bot/src/main/java/org/example/bot/InlineKeyboardManager.java:61-83 | 3 rows of 2 buttons |
| InlineKeyboards.EditKeyboardCoversEveryField | SportX_Bot/src/main/java/org/example/bot/InlineKeyboardManager.java:61-90 | the buttons carry `edit_login` … `edit_weight` in order, and each decodes back to its field |
| Messaging.Outbox.constructor | SportX_Bot/src/main/java/org/example/bot/TelegramBot.java:138-161 | nothing has been sent |
| Messaging.Outbox.SendMsg | SportX_Bot/src/main/java/org/example/bot/TelegramBot.java:139-148 | exactly one plain message is appended |
| Messaging.Outbox.SendMsgWithKeyboard | SportX_Bot/src/main/java/org/example/bot/TelegramBot.java:151-161 | exactly one message with the reply keyboard is appended |
| Messaging.Outbox.SendMsgWithInlineKeyboard | SportX_Bot/src/main/java/org/example/bot/StateHandler.java:239 | exactly one message with the given inline markup is appended |
| RecipeParsing.RecipeIds | SportX_Bot/src/main/java/org/example/recipes/RecipeParser.java:17-30 | one id per element of `results`, in order; empty on a parse error |
| RecipeParsing.RecipeTitles | SportX_Bot/src/main/java/org/example/recipes/RecipeParser.java:32-45 | one title per element of `results`, in order; empty on a parse error |
| RecipeParsing.IdsMatchTitles | SportX_Bot/src/main/java/org/example/recipes/RecipeParser.java:17-45 | there are as many ids as titles |
| RecipeParsing.ParseRecipeIds | SportX_Bot/src/main/java/org/example/recipes/RecipeParser.java:17-30 | the loop collects exactly `RecipeIds` |
| RecipeParsing.ParseRecipeTitles | SportX_Bot/src/main/java/org/example/recipes/RecipeParser.java:32-45 | the loop collects exactly `RecipeTitles` |
| RecipeParsing.Instructions | SportX_Bot/src/main/java/org/example/recipes/RecipeParser.java:55-64 | the instructions are never empty: the cleaned text, or "Инструкции отсутствуют." when cleanup leaves nothing |
| RecipeParsing.CleanTags | SportX_Bot/src/main/java/org/example/recipes/RecipeParser.java:55-60 | the cleanup adds no character except line breaks, dashes and spaces; every other character of the result was in the input |
| RecipeParsing.CleanTagsKeepsPlainText | SportX_Bot/src/main/java/org/example/recipes/RecipeParser.java:55-60 | text without `<` passes the cleanup unchanged |
| RecipeParsing.InstructionsOfPlainText | SportX_Bot/src/main/java/org/example/recipes/RecipeParser.java:55-64 | plain text is its own instructions, and empty text gets the fallback |
| RecipeParsing.FirstTerminator | SportX_Bot/src/main/java/org/example/recipes/RecipeParser.java:76 | the first `.`, `!` or `?`, with none before it |
| RecipeParsing.SplitSentences | SportX_Bot/src/main/java/org/example/recipes/RecipeParser.java:76 | the split yields no empty piece |
| RecipeParsing.SplitSentencesShape | SportX_Bot/src/main/java/org/example/recipes/RecipeParser.java:76 | each piece ends at its only terminator, except that the last piece may have none |
| RecipeParsing.SplitSentencesCovers | SportX_Bot/src/main/java/org/example/recipes/RecipeParser.java:76 | the pieces concatenate to the input with the whitespace after each terminator removed |
| RecipeParsing.TrimAll | SportX_Bot/src/main/java/org/example/recipes/RecipeParser.java:81-87 | every part is trimmed, one for one |
| RecipeParsing.PackAllCovers | SportX_Bot/src/main/java/org/example/recipes/RecipeParser.java:78-85 | the flushed parts and the current part hold every sentence exactly once, in order, each followed by a space |
| RecipeParsing.RawPartsCover | SportX_Bot/src/main/java/org/example/recipes/RecipeParser.java:78-88 | the parts before trimming hold every sentence once, in order, each followed by a space |
| RecipeParsing.PackAllBounded | SportX_Bot/src/main/java/org/example/recipes/RecipeParser.java:78-85 | every part, with its trailing space, is at most 500 characters, or is a single sentence and its space |
| RecipeParsing.RawPartsBounded | SportX_Bot/src/main/java/org/example/recipes/RecipeParser.java:78-88 | every emitted part, before trimming, is at most 500 characters, or is a single sentence and its space |
| RecipeParsing.PackAllGrows | SportX_Bot/src/main/java/org/example/recipes/RecipeParser.java:79-83 | parts once flushed are never changed by later sentences |
| RecipeParsing.LongFirstSentenceGivesEmptyPart | SportX_Bot/src/main/java/org/example/recipes/RecipeParser.java:79-82 | a first sentence over 499 characters makes the first emitted part empty |
| RecipeParsing.LastPartIsLeftover | SportX_Bot/src/main/java/org/example/recipes/RecipeParser.java:86-88 | for at least one sentence, the non-empty leftover is always appended as the last part |
| RecipeParsing.TranslatePartsFails | SportX_Bot/src/main/java/org/example/recipes/RecipeParser.java:90-93 | translating the parts fails exactly when some part's translation throws |
| RecipeParsing.TranslateStopsAtCrash | SportX_Bot/src/main/java/org/example/recipes/RecipeParser.java:90-93 | once a part has failed, the whole translation fails |
| RecipeParsing.LongTextTranslation | SportX_Bot/src/main/java/org/example/recipes/RecipeParser.java:73-94 | a text over 499 characters never yields a null translation, and fails exactly when some part fails |
| RecipeParsing.DivideIntoParts | SportX_Bot/src/main/java/org/example/recipes/RecipeParser.java:75-88 | the loop produces the packed, trimmed parts |
| RecipeParsing.DivAndTranslate | SportX_Bot/src/main/java/org/example/recipes/RecipeParser.java:73-98 | a text of 499 characters or fewer is translated by one call on the whole text; longer text is chunked, translated part by part, joined and trimmed |
| RecipeParsing.TranslateAll | SportX_Bot/src/main/java/org/example/recipes/RecipeParser.java:90-94 | the loop appends each translated part and a space, and stops at a failure |
| RecipeParsing.DetailsTextCases | SportX_Bot/src/main/java/org/example/recipes/RecipeParser.java:47-71 | a parse or translation failure gives the error text; otherwise the text starts with "Вы выбрали рецепт: " and the translated title |
| RecipeParsing.GetRecipeDetails | SportX_Bot/src/main/java/org/example/recipes/RecipeParser.java:47-71 | the result is the details text of the parsed response |
| Recipes.RecipeKeyboardRows | SportX_Bot/src/main/java/org/example/recipes/RecipesCommand.java:79-91 | the keyboard fails exactly when some title's translation fails; otherwise one row per title with the translated label and `recipe_<id>` |
| Recipes.RecipeKeyboard | SportX_Bot/src/main/java/org/example/recipes/RecipesCommand.java:79-91 | a keyboard that was built has one row per title |
| Recipes.CreateRecipeSelectionKeyboard | SportX_Bot/src/main/java/org/example/recipes/RecipesCommand.java:79-91 | the index loop builds exactly `RecipeKeyboard` |
| Recipes.FindRecipes | SportX_Bot/src/main/java/org/example/recipes/RecipesCommand.java:57-77 | the reply goes to the chat and never carries a reply keyboard |
| Recipes.GetContent | SportX_Bot/src/main/java/org/example/recipes/RecipesCommand.java:31-48 | the reply goes to the chat and never carries a reply keyboard |
| Recipes.FindRecipesFound | SportX_Bot/src/main/java/org/example/recipes/RecipesCommand.java:61-70 | a non-empty result gives the header followed by the translation of the titles joined by "\n ", and one keyboard row per title |
| Recipes.FindRecipesNone | SportX_Bot/src/main/java/org/example/recipes/RecipesCommand.java:66-67 | an empty result gives the not-found text and no keyboard |
| Recipes.FindRecipesFailure | SportX_Bot/src/main/java/org/example/recipes/RecipesCommand.java:72-75 | any failing call gives the generic error text |
| Recipes.SearchUsesTranslatedInput | SportX_Bot/src/main/java/org/example/recipes/RecipesCommand.java:61 | the reply depends on the search only through its answer for (English input, "", "") |
| Recipes.EmptyInputCallsNoService | SportX_Bot/src/main/java/org/example/recipes/RecipesCommand.java:35-38 | null or empty input gives the fixed text without any service call |
| Recipes.GetRecipeDetails | SportX_Bot/src/main/java/org/example/recipes/RecipesCommand.java:93-101 | a failed fetch gives the fixed error text; otherwise the parser's details text |
| LegacyRecipes.CreateRecipeSelectionKeyboard | SportX_Bot/src/main/java/org/example/bot/RecipesCommand.java:106-118 | one single-button row per title, in order, with callback `recipe_<id>` |
| LegacyRecipes.IdentityTranslationKeyboard | SportX_Bot/src/main/java/org/example/bot/RecipesCommand.java:106-118 | the older keyboard is the newer one with an identity translation |
| LegacyRecipes.FindRecipes | SportX_Bot/src/main/java/org/example/bot/RecipesCommand.java:53-73 | the reply goes to the chat, and a reply with a keyboard starts with the header |
| LegacyRecipes.FindRecipesFound | SportX_Bot/src/main/java/org/example/bot/RecipesCommand.java:57-67 | a non-empty result gives the header, the titles joined by "\n", and one keyboard row per title |
| LegacyRecipes.FindRecipesWithoutList | SportX_Bot/src/main/java/org/example/bot/RecipesCommand.java:62-71 | a failed search gives the error text, and an empty result the not-found text, both without a keyboard |
| LegacyRecipes.GetContent | SportX_Bot/src/main/java/org/example/bot/RecipesCommand.java:27-43 | the reply goes to the chat and never carries a reply keyboard |
| LegacyRecipes.EmptyInputCallsNoService | SportX_Bot/src/main/java/org/example/bot/RecipesCommand.java:31-34 | a null or empty input gets the fixed cannot-process reply without calling any service |
| LegacyRecipes.LegacyDetailsText | SportX_Bot/src/main/java/org/example/bot/RecipesCommand.java:120-149 | a failed fetch or parse gives the fixed error text |
| LegacyRecipes.GetRecipeDetails | SportX_Bot/src/main/java/org/example/bot/RecipesCommand.java:120-149 | the result is the details text of the fetched recipe |
| LegacyRecipes.LegacyDetailsShape | SportX_Bot/src/main/java/org/example/bot/RecipesCommand.java:129-144 | the text starts with the prefix and the title, and ends with the cleaned instructions; plain instructions appear verbatim |
| LegacyRecipes.SameDetailsWithoutTranslation | SportX_Bot/src/main/java/org/example/bot/RecipesCommand.java:144 | with no translation and cleaned instructions of at most 499 characters, the newer details text has the older layout: prefix, title, heading, instructions |
| UserStates.SetEntry | SportX_Bot/src/main/java/org/example/bot/StateHandler.java:270-277 | a put or remove changes only the chat's entry |
| UserStates.Advance | SportX_Bot/src/main/java/org/example/bot/StateHandler.java:39-244 | the state after an accepted input always has a handler, and only the ingredients state stays where it is |
| UserStates.After | SportX_Bot/src/main/java/org/example/bot/StateHandler.java:39-244 | a handled state never leads to a state without a handler, and a chat moves to another state only on an accepted input or a rejected login |
| UserStates.SignupChain | SportX_Bot/src/main/java/org/example/bot/StateHandler.java:61-132 | on success each signup step moves to the next one, and the last step clears the state |
| UserStates.SignupWaitsForSuccess | SportX_Bot/src/main/java/org/example/bot/StateHandler.java:61-132 | a signup step that did not succeed keeps its state, except a store error at the first step, which clears it |
| UserStates.BadNumberKeepsState | SportX_Bot/src/main/java/org/example/bot/StateHandler.java:95-161 | a number that does not parse leaves the state unchanged |
| UserStates.StoreErrorEndsOnlyLogin | SportX_Bot/src/main/java/org/example/bot/StateHandler.java:39-233 | a store error clears the state exactly in `LOGIN_LOGIN`, `LOGIN_PASSWORD` and `CREATE_PROFILE_LOGIN`, and keeps it everywhere else |
| UserStates.LoginOutcomes | SportX_Bot/src/main/java/org/example/bot/StateHandler.java:39-59 | the login chain: login then password; success clears the state, and a refusal goes back to `LOGIN_LOGIN` |
| UserStates.SingleStepDialoguesEnd | SportX_Bot/src/main/java/org/example/bot/StateHandler.java:134-233 | a successful edit, course choice or exercise listing clears the state |
| UserStates.IngredientsStateStays | SportX_Bot/src/main/java/org/example/bot/StateHandler.java:235-244 | the ingredients handler never changes the state |
| Dialogue.StoredText | SportX_Bot/src/main/java/org/example/bot/StateHandler.java:174-187 | a password is stored as `encode(input)`, never raw; every other text field stores the input |
| Dialogue.ValidatedUserSound | SportX_Bot/src/main/java/org/example/bot/StateHandler.java:334-351 | an accepted login names a row with that login whose stored hash matches the typed password |
| Dialogue.ValidatedUserFirstRow | SportX_Bot/src/main/java/org/example/bot/StateHandler.java:334-351 | only the first row with the login counts: its user id if the password matches, otherwise -1 |
| Dialogue.UnknownLoginRefused | SportX_Bot/src/main/java/org/example/bot/StateHandler.java:334-351 | a login with no row gives -1 |
| Dialogue.WeightActed | SportX_Bot/src/main/java/org/example/bot/StateHandler.java:328-332 | the weight handler's only draft change is the chat's draft with the parsed weight, or the draft as it was when the weight does not parse |
| Dialogue.Answer | SportX_Bot/src/main/java/org/example/bot/StateHandler.java:39-244 | each handler's message goes to the chat, plain unless it is the recipes reply |
| Dialogue.SavedSignupEnds | SportX_Bot/src/main/java/org/example/bot/StateHandler.java:257-267 | after `ENTER_WEIGHT` a saved profile clears the state whatever the weight handler did; a failed save keeps the handler's next state |
| Dialogue.StateHandler.constructor | SportX_Bot/src/main/java/org/example/bot/StateHandler.java:27-35 | the handler starts with no states and the given stores |
| Dialogue.StateHandler.SetUserState | SportX_Bot/src/main/java/org/example/bot/StateHandler.java:270-273 | the chat's entry becomes the given state, and other chats keep theirs |
| Dialogue.StateHandler.RemoveUserState | SportX_Bot/src/main/java/org/example/bot/StateHandler.java:275-277 | the chat has no state afterwards, and other chats keep theirs |
| Dialogue.StateHandler.GetUserState | SportX_Bot/src/main/java/org/example/bot/StateHandler.java:279-281 | absent exactly when the chat has no state, otherwise the chat's state |
| Dialogue.StateHandler.Draft | SportX_Bot/src/main/java/org/example/bot/StateHandler.java:284 | `getOrCreateUserProfile`: the chat's draft object, fresh or already its own, and the drafts now hold a value for the chat (the default profile if it had none) |
| Dialogue.StateHandler.WriteDraft | SportX_Bot/src/main/java/org/example/bot/StateHandler.java:285 | one setter call: only the chat's draft changes, in only the field the setter writes |
| Dialogue.StateHandler.SetDraftText | SportX_Bot/src/main/java/org/example/bot/StateHandler.java:283-285 | the chat's draft, created if missing, gets the text in one field and no other draft changes |
| Dialogue.StateHandler.SaveDraftText | SportX_Bot/src/main/java/org/example/bot/StateHandler.java:283-293 | the field is set in the chat's draft; on success the draft's six columns go to the rows of user id 0, and on failure no table changes |
| Dialogue.StateHandler.SaveDraftNumber | SportX_Bot/src/main/java/org/example/bot/StateHandler.java:316-332 | `BadNumber` exactly when the input does not parse, and then the draft keeps its value and no table changes; otherwise as for a text field |
| Dialogue.StateHandler.ValidateLogin | SportX_Bot/src/main/java/org/example/bot/StateHandler.java:334-351 | on success, the user id of the first row with the login if the password matches, otherwise -1 |
| Dialogue.StateHandler.AttemptLogin | SportX_Bot/src/main/java/org/example/bot/StateHandler.java:299-307 | a validated user gets the session (user id, chat id); a refusal means -1 and changes nothing |
| Dialogue.StateHandler.CheckLoginPassword | SportX_Bot/src/main/java/org/example/bot/StateHandler.java:295-308 | the password hash goes into the draft only; then the stored login and the typed password are validated as above |
| Dialogue.StateHandler.SelectTypedCourse | SportX_Bot/src/main/java/org/example/bot/StateHandler.java:134-146 | a bad number is reported exactly when the input does not parse; on success only the chat's course id changes |
| Dialogue.StateHandler.TypedWorkoutExercises | SportX_Bot/src/main/java/org/example/bot/StateHandler.java:148-161 | a bad number is reported exactly when the input does not parse; otherwise the text is the workout's exercise list |
| Dialogue.StateHandler.EditText | SportX_Bot/src/main/java/org/example/bot/StateHandler.java:163-194 | on success exactly one text column of the chat's rows changes, and a password is stored hashed |
| Dialogue.StateHandler.EditNumber | SportX_Bot/src/main/java/org/example/bot/StateHandler.java:196-233 | a bad number changes nothing; on success exactly one number column of the chat's rows changes |
| Dialogue.StateHandler.Finish | SportX_Bot/src/main/java/org/example/bot/StateHandler.java:39-233 | the fixed reply for the outcome is sent, and the chat moves to the outcome's next state |
| Dialogue.StateHandler.ActOnDraft | SportX_Bot/src/main/java/org/example/bot/StateHandler.java:39-132 | the signup and login handlers write the chat's draft and, on success, the rows of user id 0 or a session |
| Dialogue.StateHandler.ActOnRow | SportX_Bot/src/main/java/org/example/bot/StateHandler.java:134-244 | the other handlers leave the drafts alone and write at most their own column of the chat's rows |
| Dialogue.StateHandler.Act | SportX_Bot/src/main/java/org/example/bot/StateHandler.java:39-244 | the work of the state's handler, as `Acted` describes it |
| Dialogue.StateHandler.Respond | SportX_Bot/src/main/java/org/example/bot/StateHandler.java:39-244 | the handler's one message is sent, and the state moves as the outcome says |
| Dialogue.StateHandler.RunHandler | SportX_Bot/src/main/java/org/example/bot/StateHandler.java:39-244 | one handler run: its work, its one message, and the chat's next state |
| Dialogue.StateHandler.CompleteSignup | SportX_Bot/src/main/java/org/example/bot/StateHandler.java:257-267 | a saved draft appends the profile row keyed by the chat id and the session (chat id, chat id), then clears the state; a failure sends the save-error text and keeps the state |
| Dialogue.StateHandler.SignupLastStep | SportX_Bot/src/main/java/org/example/bot/StateHandler.java:121-132 | the weight handler, then the save: the last profile row is the draft and the last session is (chat id, chat id) |
| Dialogue.StateHandler.HandleProfileCreationOrLogin | SportX_Bot/src/main/java/org/example/bot/StateHandler.java:247-268 | `Dispatched`: without a state or a handler the entry is removed and nothing else changes; otherwise the prior state's handler writes its draft or column, sends its one answer and sets the entry by `After`, and after `ENTER_WEIGHT` the finished profile and session rows are appended (or the save-failed message is sent) |
| Router.SevenRegistrations | SportX_Bot/src/main/java/org/example/bot/TelegramBot.java:53-101 | seven registrations give seven map updates and seven help lines, in order |
| Router.TableHasToken | SportX_Bot/src/main/java/org/example/bot/TelegramBot.java:48-49 | a token is in the table exactly when it was there before or some registration used it |
| Router.TableLastWins | SportX_Bot/src/main/java/org/example/bot/TelegramBot.java:48-49 | a later registration of a token overwrites the earlier action |
| Router.TableKeepsUnused | SportX_Bot/src/main/java/org/example/bot/TelegramBot.java:48-49 | a token no registration uses keeps its action |
| Router.OneHelpLinePerRegistration | SportX_Bot/src/main/java/org/example/bot/TelegramBot.java:50 | each registration adds exactly one line to the help text |
| Router.DefaultTable | SportX_Bot/src/main/java/org/example/bot/TelegramBot.java:53-101 | each default token maps to its own action |
| Router.UnregisteredMenuCommands | SportX_Bot/src/main/java/org/example/bot/TelegramBot.java:120-128 | seven main-menu tokens pass the button mapping unchanged but are missing from the default table |
| Router.PerformedIsolatesChats | SportX_Bot/src/main/java/org/example/bot/TelegramBot.java:54-100 | a command from one chat leaves every other chat's dialogue state, draft and profile text as they were |
| Router.TelegramBot.constructor | SportX_Bot/src/main/java/org/example/bot/TelegramBot.java:31-34 | the table and the help text are exactly the seven default registrations |
| Router.TelegramBot.RegisterDefaultCommands | SportX_Bot/src/main/java/org/example/bot/TelegramBot.java:53-101 | registers `/start`, `/authors`, `/help`, `/info`, `/createprofile`, `/viewprofile`, `/deleteprofile`, in that order |
| Router.TelegramBot.RegisterCommand | SportX_Bot/src/main/java/org/example/bot/TelegramBot.java:48-51 | the token's action is overwritten and exactly one help line is appended |
| Router.TelegramBot.Perform | SportX_Bot/src/main/java/org/example/bot/TelegramBot.java:54-100 | `Performed`: each action's reply and effect (the greeting sent with the main menu, the fixed texts, the help listing, a fresh draft at `ENTER_NICKNAME`, the profile lookup by chat id as user id, the delete with its three outcomes); no other action writes a state, a draft or a table |
| Router.TelegramBot.StartProfile | SportX_Bot/src/main/java/org/example/bot/TelegramBot.java:75-80 | `/createprofile` sets `ENTER_NICKNAME` and installs a fresh empty draft |
| Router.TelegramBot.ShowProfile | SportX_Bot/src/main/java/org/example/bot/TelegramBot.java:82-90 | the reply is `DatabaseManager`'s profile text for the chat id as user id, or the failure text |
| Router.TelegramBot.RemoveProfile | SportX_Bot/src/main/java/org/example/bot/TelegramBot.java:92-100 | the chat's rows are deleted if there are any; on failure nothing changes |
| Router.TelegramBot.OnUpdateReceived | SportX_Bot/src/main/java/org/example/bot/TelegramBot.java:114-136 | non-text updates change nothing; a chat with a state has its raw text handled by the dialogue, with all of `Dispatched`; otherwise the mapped token's action (with all of `Performed`) or the unknown-command reply, then exactly one plain message with the reply after whatever the action sent |

## Left out

- The network, Telegram delivery, JDBC connections and JSON parsing are not modelled. Their results come in as parameters or as a nondeterministic store outcome.
- BCrypt is a pair of functions: `encode` is deterministic, because the salt is not modelled.
- Logging (`LoggerUtil`), concurrency (the state map is an unsynchronised `HashMap`; the model processes one input at a time), `ReminderManager`, the rest of `DatabaseManager` (connection handling, `createUserProfile`, `isProfileExists`, and `deleteUserProfileAsString`, which repeats `UserProfileManager`'s), config loading (`loadConfig`), `getBotUsername`/`getBotToken` and `Main` are not part of this model.
- `ADD_REMINDER` and `DELETE_REMINDER` have no handler in `StateHandler`, so they take the no-handler path.
- `askForIngredients` in both recipe commands is a fixed message and is not modelled.
- `Icon.java` is not part of this model: the check icon is a parameter `check`.
- `sendMsgWithInlineKeyboard` is not defined in `TelegramBot`; `Messaging.Outbox.SendMsgWithInlineKeyboard` stands for it.
- A `null` translation shown in a string is written "null" (`RecipeParsing.Shown`); the model does not otherwise distinguish Java `null` strings from text.
- Recipes.RecipeKeyboardRows: a title whose translation is `null` gets a button with a `null` text in Java (`button.setText(null)`); the model's label is the text "null". The same holds for Recipes.CreateRecipeSelectionKeyboard.
- RecipeParsing.DivAndTranslate: lengths count Unicode scalar values, while Java's `length()` counts UTF-16 code units; for text with characters outside the Basic Multilingual Plane the 499-character limit and the part sizes fall at different places.
- JavaLang.ParseInt: only ASCII digits are digits; Java's `Integer.parseInt` also accepts the other Unicode decimal digits, which the model rejects.
- The `catch (Exception e)` of the `ENTER_INGREDIENTS` handler is not modelled: the modelled `getContent` has no failure path of its own.
- `Long.parseLong(String.valueOf(chatId))` is the identity on chat ids.
- The parse methods of `bot/RecipesCommand` are the same as `RecipeParser`'s and are modelled by `RecipeParsing.RecipeIds` and `RecipeParsing.RecipeTitles`.
- ProfileStore.UserProfileManager.AddUserProfile: requires that the object is not already the draft of another chat; the model does not capture one profile object shared between two chats.
- Dialogue.StateHandler.Finish: the handlers send their reply before or after the state write; the model sends it first. No observable effect depends on that order.
- Router.OneHelpLinePerRegistration: the line count of the default help text is not stated for the default registrations themselves; only the general fact for registrations without line breaks is proved.
- Dialogue.StateHandler.HandleProfileCreationOrLogin: for `ENTER_WEIGHT` the contract states the draft, the messages and the rows appended by a successful save, not the intermediate `UPDATE` of the rows of user id 0.
- Dialogue.StateHandler.CompleteSignup: a failure after the profile row was inserted but before the session was created leaves that row; the contract allows either table state on failure.
