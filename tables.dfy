/**
 * The relational store as the SQL in the manager classes sees it: the
 * tables `user_profiles`, `user_sessions`, `completed_workouts`, `courses`,
 * `workouts` and `exercises`. A table is a sequence of rows in the order a
 * query returns them; `completed_workouts` has a unique key on
 * (user_id, workout_id) (its INSERT uses ON DUPLICATE KEY), so it is a map.
 */
module Tables {
  import opened JavaLang
  import opened Profiles

  datatype ProfileRow = ProfileRow(
    userId: int,
    login: Option<string>,
    password: Option<string>,
    nickname: Option<string>,
    age: int,
    height: int,
    weight: int,
    chatId: int,
    courseId: Option<int>)

  datatype SessionRow = SessionRow(userId: int, chatId: int)

  /** A row of `courses`; also the `Course` objects built from it. */
  datatype Course = Course(id: int, name: string, description: string)

  datatype WorkoutRow = WorkoutRow(id: int, courseId: int, name: string, description: string)

  datatype ExerciseRow = ExerciseRow(id: int, workoutId: int, name: string, repetitions: int, sets: int)

  /** The SET part of the UPDATE statements on `user_profiles`. */
  datatype ProfileEdit =
    | SetText(field: Field, text: Option<string>)
    | SetNumber(field: Field, number: int)
    | SetCourse(courseId: int)
    | SetProfile(login: Option<string>, password: Option<string>, nickname: Option<string>,
                 age: int, height: int, weight: int)
  {
    predicate Valid() {
      (SetText? ==> !field.IsNumeric()) && (SetNumber? ==> field.IsNumeric())
    }
  }

  function Apply(row: ProfileRow, e: ProfileEdit): (r: ProfileRow)
    requires e.Valid()
    ensures r.userId == row.userId && r.chatId == row.chatId
    ensures !e.SetCourse? ==> r.courseId == row.courseId
  {
    match e
    case SetText(f, s) =>
      (match f
       case Login => row.(login := s)
       case Password => row.(password := s)
       case Nickname => row.(nickname := s))
    case SetNumber(f, n) =>
      (match f
       case Age => row.(age := n)
       case Height => row.(height := n)
       case Weight => row.(weight := n))
    case SetCourse(c) => row.(courseId := Some(c))
    case SetProfile(l, p, n, a, h, w) =>
      row.(login := l, password := p, nickname := n, age := a, height := h, weight := w)
  }

  /** `UPDATE user_profiles SET … WHERE user_id = ?`. */
  function UpdateWhere(rows: seq<ProfileRow>, userId: int, e: ProfileEdit): (r: seq<ProfileRow>)
    requires e.Valid()
    ensures |r| == |rows|
    ensures forall i :: 0 <= i < |rows| ==>
              r[i] == if rows[i].userId == userId then Apply(rows[i], e) else rows[i]
  {
    if rows == [] then []
    else [if rows[0].userId == userId then Apply(rows[0], e) else rows[0]] + UpdateWhere(rows[1..], userId, e)
  }

  /** `SELECT … WHERE`: the rows that satisfy `keep`, in table order. */
  function Where<T(!new)>(rows: seq<T>, keep: T -> bool): (r: seq<T>)
    ensures |r| <= |rows|
    ensures forall x :: x in r <==> x in rows && keep(x)
    ensures forall x {:trigger multiset(r)[x]} :: multiset(r)[x] == if keep(x) then multiset(rows)[x] else 0
  {
    if rows == [] then []
    else
      assert rows == [rows[0]] + rows[1..];
      (if keep(rows[0]) then [rows[0]] else []) + Where(rows[1..], keep)
  }

  /** The first row that satisfies `keep` heads the selection. */
  lemma {:induction false} WhereFirst<T(!new)>(rows: seq<T>, i: int, keep: T -> bool)
    requires 0 <= i < |rows| && keep(rows[i])
    requires forall j :: 0 <= j < i ==> !keep(rows[j])
    ensures Where(rows, keep) != [] && Where(rows, keep)[0] == rows[i]
  {
    var head: seq<T> := if keep(rows[0]) then [rows[0]] else [];
    assert Where(rows, keep) == head + Where(rows[1..], keep);
    if i > 0 {
      WhereFirst(rows[1..], i - 1, keep);
      assert head == [];
    }
  }

  predicate HasProfile(rows: seq<ProfileRow>, userId: int) {
    exists i :: 0 <= i < |rows| && rows[i].userId == userId
  }

  /** The first row that `SELECT … FROM user_profiles WHERE user_id = ?` returns. */
  function FirstProfile(rows: seq<ProfileRow>, userId: int): (r: Option<ProfileRow>)
    ensures r.Some? <==> HasProfile(rows, userId)
    ensures r.Some? ==> r.value in rows && r.value.userId == userId
  {
    if rows == [] then None
    else if rows[0].userId == userId then Some(rows[0])
    else
      var r := FirstProfile(rows[1..], userId);
      assert HasProfile(rows, userId) ==> HasProfile(rows[1..], userId) by {
        if HasProfile(rows, userId) {
          var i :| 0 <= i < |rows| && rows[i].userId == userId;
          assert rows[1..][i - 1].userId == userId;
        }
      }
      r
  }

  /**
   * The `course_id` column of the user's first profile row, read with
   * `getInt`: 0 when there is no row and when the column is NULL.
   */
  function CourseIdOf(rows: seq<ProfileRow>, userId: int): (c: int)
    ensures !HasProfile(rows, userId) ==> c == 0
  {
    match FirstProfile(rows, userId)
    case None => 0
    case Some(row) => row.courseId.GetOr(0)
  }

  predicate HasSession(sessions: seq<SessionRow>, chatId: int) {
    exists i :: 0 <= i < |sessions| && sessions[i].chatId == chatId
  }

  /** `DELETE FROM user_sessions WHERE telegram_chat_id = ?`. */
  function SessionsWithoutChat(sessions: seq<SessionRow>, chatId: int): seq<SessionRow> {
    Where(sessions, (s: SessionRow) => s.chatId != chatId)
  }

  /** `DELETE FROM user_profiles WHERE user_id = ?`. */
  function ProfilesWithoutUser(rows: seq<ProfileRow>, userId: int): seq<ProfileRow> {
    Where(rows, (r: ProfileRow) => r.userId != userId)
  }

  /**
   * The first row of `user_profiles JOIN user_sessions ON user_id WHERE
   * telegram_chat_id = ?`, taking sessions in table order.
   */
  function JoinedProfile(profiles: seq<ProfileRow>, sessions: seq<SessionRow>, chatId: int): (r: Option<ProfileRow>)
    ensures r.Some? <==> exists i, j :: 0 <= i < |sessions| && 0 <= j < |profiles| &&
                           sessions[i].chatId == chatId && profiles[j].userId == sessions[i].userId
    ensures r.Some? ==> r.value in profiles
  {
    if sessions == [] then None
    else if sessions[0].chatId == chatId && HasProfile(profiles, sessions[0].userId) then
      FirstProfile(profiles, sessions[0].userId)
    else
      var r := JoinedProfile(profiles, sessions[1..], chatId);
      assert r.Some? ==> exists i, j :: 0 <= i < |sessions| && 0 <= j < |profiles| &&
                           sessions[i].chatId == chatId && profiles[j].userId == sessions[i].userId by {
        if r.Some? {
          var i, j :| 0 <= i < |sessions[1..]| && 0 <= j < |profiles| &&
                      sessions[1..][i].chatId == chatId && profiles[j].userId == sessions[1..][i].userId;
          assert sessions[i + 1] == sessions[1..][i];
        }
      }
      r
  }

  /** `SELECT completed FROM completed_workouts WHERE user_id = ? AND workout_id = ?`, false when absent. */
  function CompletedFlag(completed: map<(int, int), bool>, userId: int, workoutId: int): bool {
    (userId, workoutId) in completed && completed[(userId, workoutId)]
  }

  /** `DELETE FROM completed_workouts WHERE user_id = ?`. */
  function WithoutUser(completed: map<(int, int), bool>, userId: int): (r: map<(int, int), bool>)
    ensures forall k :: k in r <==> k in completed && k.0 != userId
  {
    map k | k in completed && k.0 != userId :: completed[k]
  }

  /** Value of every table at one moment. */
  datatype Snapshot = Snapshot(
    profiles: seq<ProfileRow>,
    sessions: seq<SessionRow>,
    completed: map<(int, int), bool>,
    courses: seq<Course>,
    workouts: seq<WorkoutRow>,
    exercises: seq<ExerciseRow>)

  /** Outcome of a statement that returns nothing: it ran, or threw `SQLException`. */
  datatype Outcome = Success | SqlFailure

  /** Outcome of a query: its value, or `SQLException`. */
  datatype Result<+T> = Ok(value: T) | Err

  /** The database behind the shared connection. */
  class Database {
    var profiles: seq<ProfileRow>
    var sessions: seq<SessionRow>
    var completed: map<(int, int), bool>
    var courses: seq<Course>
    var workouts: seq<WorkoutRow>
    var exercises: seq<ExerciseRow>

    function Tables(): Snapshot
      reads this
    {
      Snapshot(profiles, sessions, completed, courses, workouts, exercises)
    }

    constructor (t: Snapshot)
      ensures Tables() == t
    {
      profiles, sessions, completed := t.profiles, t.sessions, t.completed;
      courses, workouts, exercises := t.courses, t.workouts, t.exercises;
    }
  }
}
