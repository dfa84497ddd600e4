/**
 * `CourseManager`: the course catalogue, the workouts of a user's course,
 * their exercises, and the per-user completion marks. Every query reads the
 * shared `Database`; a query's rows are visited in table order, as the
 * `while (resultSet.next())` loops do.
 */
module Courses {
  import opened JavaLang
  import opened Tables

  /** The `Workout` objects the queries build; `completed` starts false. */
  datatype Workout = Workout(id: int, name: string, description: string, completed: bool)

  /** Concatenation of one block per row, in row order (a `StringBuilder` filled in a loop). */
  function Render<T>(rows: seq<T>, block: T -> string): string {
    if rows == [] then "" else Render(rows[..|rows| - 1], block) + block(rows[|rows| - 1])
  }

  /** Rendering distributes over concatenation of row sequences. */
  lemma {:induction false} RenderAppend<T>(xs: seq<T>, ys: seq<T>, block: T -> string)
    ensures Render(xs + ys, block) == Render(xs, block) + Render(ys, block)
  {
    if ys != [] {
      var zs := xs + ys;
      assert zs[..|zs| - 1] == xs + ys[..|ys| - 1];
      RenderAppend(xs, ys[..|ys| - 1], block);
    } else {
      assert xs + ys == xs;
    }
  }

  /** A listing block: it opens with the item's name in bold on a line of its own and ends with a blank line. */
  predicate IsBlock(s: string, name: string) {
    StartsWith(s, "<b>" + name + "</b>\n") && |s| >= 2 && s[|s| - 2..] == "\n\n"
  }

  /** The block `head + body + "\n\n"` satisfies `IsBlock` whenever `head` is the bold-name line. */
  lemma BlockShape(name: string, body: string)
    ensures IsBlock("<b>" + name + "</b>\n" + body + "\n\n", name)
  {
    var head := "<b>" + name + "</b>\n";
    var s := head + body + "\n\n";
    assert s[..|head|] == head;
    assert s[|s| - 2..] == "\n\n";
  }

  /** One course or workout in a listing: name in bold, description in italics. */
  function NamedBlock(name: string, description: string): (s: string)
    ensures IsBlock(s, name)
  {
    BlockShape(name, "<b>Описание:</b> <i>" + description + "</i>");
    "<b>" + name + "</b>\n<b>Описание:</b> <i>" + description + "</i>\n\n"
  }

  function CourseBlock(c: Course): (s: string)
    ensures IsBlock(s, c.name)
  {
    NamedBlock(c.name, c.description)
  }

  function WorkoutBlock(w: WorkoutRow): (s: string)
    ensures IsBlock(s, w.name)
  {
    NamedBlock(w.name, w.description)
  }

  function ExerciseBlock(e: ExerciseRow): (s: string)
    ensures IsBlock(s, e.name)
  {
    BlockShape(e.name, "<b>Повторения:</b> " + IntToString(e.repetitions) + ", <b>Подходы:</b> " + IntToString(e.sets));
    "<b>" + e.name + "</b>\n<b>Повторения:</b> " + IntToString(e.repetitions) +
    ", <b>Подходы:</b> " + IntToString(e.sets) + "\n\n"
  }

  /** `SELECT … FROM workouts WHERE course_id = ?`. */
  function WorkoutsOfCourse(workouts: seq<WorkoutRow>, courseId: int): seq<WorkoutRow> {
    Where(workouts, (w: WorkoutRow) => w.courseId == courseId)
  }

  /** `SELECT … FROM exercises WHERE workout_id = ?`. */
  function ExercisesOfWorkout(exercises: seq<ExerciseRow>, workoutId: int): seq<ExerciseRow> {
    Where(exercises, (e: ExerciseRow) => e.workoutId == workoutId)
  }

  /** The workouts of the user's course, each with the user's completion mark. */
  function WorkoutsWithStatus(t: Snapshot, userId: int): (r: seq<Workout>)
    ensures var rows := WorkoutsOfCourse(t.workouts, CourseIdOf(t.profiles, userId));
            |r| == |rows| &&
            forall i :: 0 <= i < |r| ==>
              r[i].id == rows[i].id && r[i].name == rows[i].name && r[i].description == rows[i].description &&
              (r[i].completed <==> CompletedFlag(t.completed, userId, rows[i].id))
  {
    var rows := WorkoutsOfCourse(t.workouts, CourseIdOf(t.profiles, userId));
    seq(|rows|, i requires 0 <= i < |rows| => Workout(rows[i].id, rows[i].name, rows[i].description,
                                                      CompletedFlag(t.completed, userId, rows[i].id)))
  }

  class CourseManager {
    const db: Database

    constructor (db: Database)
      ensures this.db == db
    {
      this.db := db;
    }

    /** Every course as a name-and-description block, in table order. */
    method GetCoursesAsString() returns (r: Result<string>)
      ensures r.Ok? ==> r.value == Render(db.courses, CourseBlock)
    {
      var failed: bool :| true;
      if failed {
        return Err;
      }
      var rows := db.courses;
      var text := "";
      var i := 0;
      while i < |rows|
        invariant 0 <= i <= |rows|
        invariant text == Render(rows[..i], CourseBlock)
      {
        assert rows[..i + 1][..i] == rows[..i];
        text := text + CourseBlock(rows[i]);
        i := i + 1;
      }
      assert rows[..i] == rows;
      return Ok(text);
    }

    /** Every course as a `Course` object, in table order. */
    method GetCourses() returns (r: Result<seq<Course>>)
      ensures r.Ok? ==> r.value == db.courses
    {
      var failed: bool :| true;
      if failed {
        return Err;
      }
      var rows := db.courses;
      var courses: seq<Course> := [];
      var i := 0;
      while i < |rows|
        invariant 0 <= i <= |rows|
        invariant courses == rows[..i]
      {
        courses := courses + [Course(rows[i].id, rows[i].name, rows[i].description)];
        i := i + 1;
      }
      assert rows[..i] == rows;
      return Ok(courses);
    }

    /** `course_id` of the user's first profile row: 0 without a row or with NULL. */
    method GetCourseIdForUser(userId: int) returns (r: Result<int>)
      ensures r.Ok? ==> r.value == CourseIdOf(db.profiles, userId)
      ensures r.Ok? && !HasProfile(db.profiles, userId) ==> r.value == 0
    {
      var failed: bool :| true;
      if failed {
        return Err;
      }
      var first := FirstProfile(db.profiles, userId);
      var courseId := 0;
      if first.Some? {
        courseId := first.value.courseId.GetOr(0);
      }
      return Ok(courseId);
    }

    /** The workouts of the user's course as blocks; course 0 when the user has none. */
    method GetWorkoutsAsString(userId: int) returns (r: Result<string>)
      ensures r.Ok? ==> r.value == Render(WorkoutsOfCourse(db.workouts, CourseIdOf(db.profiles, userId)), WorkoutBlock)
    {
      var courseId := GetCourseIdForUser(userId);
      if courseId.Err? {
        return Err;
      }
      var failed: bool :| true;
      if failed {
        return Err;
      }
      var rows := WorkoutsOfCourse(db.workouts, courseId.value);
      var text := "";
      var i := 0;
      while i < |rows|
        invariant 0 <= i <= |rows|
        invariant text == Render(rows[..i], WorkoutBlock)
      {
        assert rows[..i + 1][..i] == rows[..i];
        text := text + WorkoutBlock(rows[i]);
        i := i + 1;
      }
      assert rows[..i] == rows;
      return Ok(text);
    }

    /** The workouts of the user's course, none of them marked completed. */
    method GetWorkouts(userId: int) returns (r: Result<seq<Workout>>)
      ensures r.Ok? ==>
                var rows := WorkoutsOfCourse(db.workouts, CourseIdOf(db.profiles, userId));
                |r.value| == |rows| &&
                forall i :: 0 <= i < |rows| ==> r.value[i] == Workout(rows[i].id, rows[i].name, rows[i].description, false)
    {
      var courseId := GetCourseIdForUser(userId);
      if courseId.Err? {
        return Err;
      }
      var failed: bool :| true;
      if failed {
        return Err;
      }
      var rows := WorkoutsOfCourse(db.workouts, courseId.value);
      var workouts: seq<Workout> := [];
      var i := 0;
      while i < |rows|
        invariant 0 <= i <= |rows| && |workouts| == i
        invariant forall k :: 0 <= k < i ==> workouts[k] == Workout(rows[k].id, rows[k].name, rows[k].description, false)
      {
        workouts := workouts + [Workout(rows[i].id, rows[i].name, rows[i].description, false)];
        i := i + 1;
      }
      return Ok(workouts);
    }

    /** The exercises of a workout as blocks with repetitions and sets. */
    method GetExercisesAsString(workoutId: int) returns (r: Result<string>)
      ensures r.Ok? ==> r.value == Render(ExercisesOfWorkout(db.exercises, workoutId), ExerciseBlock)
    {
      var failed: bool :| true;
      if failed {
        return Err;
      }
      var rows := ExercisesOfWorkout(db.exercises, workoutId);
      var text := "";
      var i := 0;
      while i < |rows|
        invariant 0 <= i <= |rows|
        invariant text == Render(rows[..i], ExerciseBlock)
      {
        assert rows[..i + 1][..i] == rows[..i];
        text := text + ExerciseBlock(rows[i]);
        i := i + 1;
      }
      assert rows[..i] == rows;
      return Ok(text);
    }

    /** Sets the completion mark of (user, workout), inserting the row if missing. */
    method MarkWorkoutAsCompleted(userId: int, workoutId: int) returns (o: Outcome)
      modifies db
      ensures o.Success? ==> db.Tables() == old(db.Tables()).(completed := old(db.completed)[(userId, workoutId) := true])
      ensures o.SqlFailure? ==> db.Tables() == old(db.Tables())
    {
      var failed: bool :| true;
      if failed {
        return SqlFailure;
      }
      db.completed := db.completed[(userId, workoutId) := true];
      return Success;
    }

    /** The completion mark of (user, workout); false when there is no row. */
    method IsWorkoutCompleted(userId: int, workoutId: int) returns (r: Result<bool>)
      ensures r.Ok? ==> (r.value <==> CompletedFlag(db.completed, userId, workoutId))
    {
      var failed: bool :| true;
      if failed {
        return Err;
      }
      var completed := false;
      if (userId, workoutId) in db.completed {
        completed := db.completed[(userId, workoutId)];
      }
      return Ok(completed);
    }

    /** The workouts of the user's course, each marked with `IsWorkoutCompleted`. */
    method GetWorkoutsWithCompletionStatus(userId: int) returns (r: Result<seq<Workout>>)
      ensures r.Ok? ==> r.value == WorkoutsWithStatus(db.Tables(), userId)
    {
      var courseId := GetCourseIdForUser(userId);
      if courseId.Err? {
        return Err;
      }
      var failed: bool :| true;
      if failed {
        return Err;
      }
      var rows := WorkoutsOfCourse(db.workouts, courseId.value);
      var workouts: seq<Workout> := [];
      var i := 0;
      while i < |rows|
        invariant 0 <= i <= |rows| && |workouts| == i
        invariant forall k :: 0 <= k < i ==>
                    workouts[k] == Workout(rows[k].id, rows[k].name, rows[k].description,
                                           CompletedFlag(db.completed, userId, rows[k].id))
      {
        var done := IsWorkoutCompleted(userId, rows[i].id);
        if done.Err? {
          return Err;
        }
        workouts := workouts + [Workout(rows[i].id, rows[i].name, rows[i].description, done.value)];
        i := i + 1;
      }
      return Ok(workouts);
    }

    /** Deletes every completion mark of the user. */
    method ResetCompletedWorkouts(userId: int) returns (o: Outcome)
      modifies db
      ensures o.Success? ==> db.Tables() == old(db.Tables()).(completed := WithoutUser(old(db.completed), userId))
      ensures o.SqlFailure? ==> db.Tables() == old(db.Tables())
    {
      var failed: bool :| true;
      if failed {
        return SqlFailure;
      }
      db.completed := WithoutUser(db.completed, userId);
      return Success;
    }

    /** The course names, in table order. */
    method GetCoursesList() returns (r: Result<seq<string>>)
      ensures r.Ok? ==> |r.value| == |db.courses| && forall i :: 0 <= i < |r.value| ==> r.value[i] == db.courses[i].name
    {
      var failed: bool :| true;
      if failed {
        return Err;
      }
      var rows := db.courses;
      var names: seq<string> := [];
      var i := 0;
      while i < |rows|
        invariant 0 <= i <= |rows| && |names| == i
        invariant forall k :: 0 <= k < i ==> names[k] == rows[k].name
      {
        names := names + [rows[i].name];
        i := i + 1;
      }
      return Ok(names);
    }

    /** `UPDATE user_profiles SET course_id = ? WHERE user_id = ?`. */
    method SelectCourse(userId: int, courseId: int) returns (o: Outcome)
      modifies db
      ensures o.Success? ==> db.Tables() == old(db.Tables()).(profiles := UpdateWhere(old(db.profiles), userId, SetCourse(courseId)))
      ensures o.SqlFailure? ==> db.Tables() == old(db.Tables())
    {
      var failed: bool :| true;
      if failed {
        return SqlFailure;
      }
      db.profiles := UpdateWhere(db.profiles, userId, SetCourse(courseId));
      return Success;
    }

    /** The names of the workouts of a course, in table order. */
    method GetWorkoutsList(courseId: int) returns (r: Result<seq<string>>)
      ensures r.Ok? ==>
                var rows := WorkoutsOfCourse(db.workouts, courseId);
                |r.value| == |rows| && forall i :: 0 <= i < |rows| ==> r.value[i] == rows[i].name
    {
      var failed: bool :| true;
      if failed {
        return Err;
      }
      var rows := WorkoutsOfCourse(db.workouts, courseId);
      var names: seq<string> := [];
      var i := 0;
      while i < |rows|
        invariant 0 <= i <= |rows| && |names| == i
        invariant forall k :: 0 <= k < i ==> names[k] == rows[k].name
      {
        names := names + [rows[i].name];
        i := i + 1;
      }
      return Ok(names);
    }

    /** The names of the exercises of a workout, in table order. */
    method GetExercisesList(workoutId: int) returns (r: Result<seq<string>>)
      ensures r.Ok? ==>
                var rows := ExercisesOfWorkout(db.exercises, workoutId);
                |r.value| == |rows| && forall i :: 0 <= i < |rows| ==> r.value[i] == rows[i].name
    {
      var failed: bool :| true;
      if failed {
        return Err;
      }
      var rows := ExercisesOfWorkout(db.exercises, workoutId);
      var names: seq<string> := [];
      var i := 0;
      while i < |rows|
        invariant 0 <= i <= |rows| && |names| == i
        invariant forall k :: 0 <= k < i ==> names[k] == rows[k].name
      {
        names := names + [rows[i].name];
        i := i + 1;
      }
      return Ok(names);
    }

    /** The same statement as `SelectCourse`, through a prepared statement. */
    method UpdateUserCourse(userId: int, courseId: int) returns (o: Outcome)
      modifies db
      ensures o.Success? ==> db.Tables() == old(db.Tables()).(profiles := UpdateWhere(old(db.profiles), userId, SetCourse(courseId)))
      ensures o.SqlFailure? ==> db.Tables() == old(db.Tables())
    {
      o := SelectCourse(userId, courseId);
    }
  }

  /** After the course of a user with a profile is set, reading it back gives that course. */
  lemma {:induction false} SelectedCourseReadsBack(rows: seq<ProfileRow>, userId: int, courseId: int)
    requires HasProfile(rows, userId)
    ensures CourseIdOf(UpdateWhere(rows, userId, SetCourse(courseId)), userId) == courseId
  {
    var r := UpdateWhere(rows, userId, SetCourse(courseId));
    if rows[0].userId != userId {
      var i :| 0 <= i < |rows| && rows[i].userId == userId;
      assert rows[1..][i - 1].userId == userId;
      SelectedCourseReadsBack(rows[1..], userId, courseId);
      assert r[1..] == UpdateWhere(rows[1..], userId, SetCourse(courseId));
    }
  }

  /** Updating one user's rows never changes the course another user reads. */
  lemma {:induction false} UpdateKeepsOtherCourses(rows: seq<ProfileRow>, userId: int, e: ProfileEdit, other: int)
    requires e.Valid() && other != userId
    ensures CourseIdOf(UpdateWhere(rows, userId, e), other) == CourseIdOf(rows, other)
  {
    if rows != [] {
      var r := UpdateWhere(rows, userId, e);
      UpdateKeepsOtherCourses(rows[1..], userId, e, other);
      assert r[1..] == UpdateWhere(rows[1..], userId, e);
    }
  }

  /**
   * Only a course selection changes the course a user reads: the profile
   * edits of the dialogues leave it alone.
   */
  lemma {:induction false} ProfileEditKeepsCourse(rows: seq<ProfileRow>, userId: int, e: ProfileEdit, who: int)
    requires e.Valid() && !e.SetCourse?
    ensures CourseIdOf(UpdateWhere(rows, userId, e), who) == CourseIdOf(rows, who)
  {
    if rows != [] {
      var r := UpdateWhere(rows, userId, e);
      ProfileEditKeepsCourse(rows[1..], userId, e, who);
      assert r[1..] == UpdateWhere(rows[1..], userId, e);
    }
  }

  /** A marked workout reads as completed; the marks of other pairs are unchanged. */
  lemma MarkThenRead(completed: map<(int, int), bool>, userId: int, workoutId: int, u: int, w: int)
    ensures CompletedFlag(completed[(userId, workoutId) := true], userId, workoutId)
    ensures (u, w) != (userId, workoutId) ==>
              CompletedFlag(completed[(userId, workoutId) := true], u, w) == CompletedFlag(completed, u, w)
  {
  }

  /** Marking a workout a second time leaves the table as the first mark left it. */
  lemma MarkIdempotent(completed: map<(int, int), bool>, userId: int, workoutId: int)
    ensures completed[(userId, workoutId) := true][(userId, workoutId) := true] == completed[(userId, workoutId) := true]
  {
  }

  /** After a reset the user has no completed workout; other users keep their marks. */
  lemma ResetClearsOnlyThatUser(completed: map<(int, int), bool>, userId: int, u: int, w: int)
    ensures !CompletedFlag(WithoutUser(completed, userId), userId, w)
    ensures u != userId ==> CompletedFlag(WithoutUser(completed, userId), u, w) == CompletedFlag(completed, u, w)
  {
  }

  /**
   * The listing text of a workout selection is the concatenation of the
   * listing of its first part and of its rest (the text grows block by block).
   */
  lemma WorkoutsTextSplits(rows: seq<WorkoutRow>, k: int)
    requires 0 <= k <= |rows|
    ensures Render(rows, WorkoutBlock) == Render(rows[..k], WorkoutBlock) + Render(rows[k..], WorkoutBlock)
  {
    assert rows == rows[..k] + rows[k..];
    RenderAppend(rows[..k], rows[k..], WorkoutBlock);
  }
}
