/**
 * `UserProfileManager`: the in-memory map of draft profiles (one
 * `UserProfile` object per chat) and the statements on `user_profiles`.
 * Every statement may throw `SQLException`; which one does is not
 * determined by the model, and a failed statement changes no table.
 */
module ProfileStore {
  import opened JavaLang
  import opened Profiles
  import opened Tables

  const ProfileDeleted: string := "Ваш профиль успешно удален."
  const ProfileNotFound: string := "Профиль не найден."

  /** `String.format`'s `%s` of a possibly-null string. */
  function FormatString(s: Option<string>): string {
    match s
    case Some(t) => t
    case None => "null"
  }

  /** The text `getUserProfileAsString` formats from a profile row. */
  function ProfileText(row: ProfileRow): (s: string)
    ensures s != ProfileNotFound
  {
    assert ("<b>Ваш профиль:</b>\n<b>Логин:</b> <i>" + FormatString(row.login))[0] == '<';
    "<b>Ваш профиль:</b>\n<b>Логин:</b> <i>" + FormatString(row.login) +
    "</i>\n<b>Никнейм:</b> <i>" + FormatString(row.nickname) +
    "</i>\n<b>Возраст:</b> <i>" + IntToString(row.age) +
    "</i>\n<b>Рост:</b> <i>" + IntToString(row.height) +
    "</i>\n<b>Вес:</b> <i>" + IntToString(row.weight) + "</i>"
  }

  /** The SET list `updateUserProfile` writes from a draft. */
  function ProfileColumns(p: ProfileValue): ProfileEdit {
    SetProfile(p.login, p.password, p.nickname, p.age, p.height, p.weight)
  }

  class UserProfileManager {
    const db: Database
    var drafts: map<int, UserProfile>

    /** No draft object is shared by two chats. */
    ghost predicate Valid()
      reads this
    {
      forall a, b :: a in drafts && b in drafts && a != b ==> drafts[a] != drafts[b]
    }

    /** The values of the draft objects, by chat id. */
    ghost function Drafts(): map<int, ProfileValue>
      reads this, drafts.Values
    {
      map k | k in drafts :: drafts[k].Value()
    }

    constructor (db: Database)
      ensures this.db == db && drafts == map[] && Valid()
    {
      this.db := db;
      drafts := map[];
    }

    /** `SELECT COUNT(*) FROM user_profiles WHERE user_id = ?`, then `> 0`. */
    method IsProfileExists(userId: int) returns (r: Result<bool>)
      ensures r.Ok? ==> (r.value <==> HasProfile(db.profiles, userId))
    {
      var failed: bool :| true;
      if failed {
        return Err;
      }
      var selected := Where(db.profiles, (row: ProfileRow) => row.userId == userId);
      if HasProfile(db.profiles, userId) {
        var i :| 0 <= i < |db.profiles| && db.profiles[i].userId == userId;
        assert db.profiles[i] in selected;
      }
      if |selected| > 0 {
        assert selected[0] in db.profiles;
      }
      var count := |selected|;
      return Ok(count > 0);
    }

    /** `userProfiles.put(userId, profile)`. */
    method AddUserProfile(userId: int, profile: UserProfile)
      requires Valid()
      requires forall k :: k in drafts && k != userId ==> drafts[k] != profile
      modifies this
      ensures Valid() && drafts == old(drafts)[userId := profile]
    {
      drafts := drafts[userId := profile];
    }

    /** `userProfiles.get(userId)`: the draft, or null. */
    method GetUserProfile(userId: int) returns (p: UserProfile?)
      ensures userId in drafts ==> p == drafts[userId]
      ensures userId !in drafts ==> p == null
    {
      p := if userId in drafts then drafts[userId] else null;
    }

    /** `userProfiles.computeIfAbsent(userId, k -> new UserProfile())`. */
    method GetOrCreateUserProfile(userId: int) returns (p: UserProfile)
      requires Valid()
      modifies this
      ensures Valid() && userId in drafts && p == drafts[userId]
      ensures userId in old(drafts) ==> drafts == old(drafts)
      ensures userId !in old(drafts) ==> fresh(p) && p.Value() == DefaultProfile && drafts == old(drafts)[userId := p]
      ensures forall k :: k in old(drafts) ==> k in drafts && drafts[k] == old(drafts)[k]
    {
      if userId in drafts {
        p := drafts[userId];
      } else {
        p := new UserProfile();
        drafts := drafts[userId := p];
      }
    }

    /** Runs one UPDATE on `user_profiles`. */
    method ExecuteUpdate(userId: int, e: ProfileEdit) returns (o: Outcome)
      requires e.Valid()
      modifies db
      ensures o.Success? ==> db.Tables() == old(db.Tables()).(profiles := UpdateWhere(old(db.profiles), userId, e))
      ensures o.SqlFailure? ==> db.Tables() == old(db.Tables())
    {
      var failed: bool :| true;
      if failed {
        return SqlFailure;
      }
      db.profiles := UpdateWhere(db.profiles, userId, e);
      return Success;
    }

    /** Overwrites the six profile columns of the rows whose id is `profile.getUserId()`. */
    method UpdateUserProfile(profile: UserProfile) returns (o: Outcome)
      modifies db
      ensures o.Success? ==>
                db.Tables() == old(db.Tables()).(profiles := UpdateWhere(old(db.profiles), profile.userId, ProfileColumns(profile.Value())))
      ensures o.SqlFailure? ==> db.Tables() == old(db.Tables())
    {
      o := ExecuteUpdate(profile.GetUserId(), ProfileColumns(profile.Value()));
    }

    /** `INSERT INTO user_profiles (…) VALUES (…)`; `course_id` is left NULL. */
    method CreateUserProfile(userId: int, login: Option<string>, password: Option<string>, nickname: Option<string>,
                             age: int, height: int, weight: int, chatId: int) returns (o: Outcome)
      modifies db
      ensures o.Success? ==> db.Tables() == old(db.Tables()).(profiles := old(db.profiles) +
                [ProfileRow(userId, login, password, nickname, age, height, weight, chatId, None)])
      ensures o.SqlFailure? ==> db.Tables() == old(db.Tables())
    {
      var failed: bool :| true;
      if failed {
        return SqlFailure;
      }
      db.profiles := db.profiles + [ProfileRow(userId, login, password, nickname, age, height, weight, chatId, None)];
      return Success;
    }

    /** `DELETE FROM user_profiles WHERE user_id = ?`. */
    method DeleteUserProfile(userId: int) returns (o: Outcome)
      modifies db
      ensures o.Success? ==> db.Tables() == old(db.Tables()).(profiles := ProfilesWithoutUser(old(db.profiles), userId))
      ensures o.SqlFailure? ==> db.Tables() == old(db.Tables())
    {
      var failed: bool :| true;
      if failed {
        return SqlFailure;
      }
      db.profiles := ProfilesWithoutUser(db.profiles, userId);
      return Success;
    }

    /** Deletes the user's profile rows if there are any, and says which happened. */
    method DeleteUserProfileAsString(userId: int) returns (r: Result<string>)
      modifies db
      ensures r.Ok? && old(HasProfile(db.profiles, userId)) ==>
                r.value == ProfileDeleted &&
                db.Tables() == old(db.Tables()).(profiles := ProfilesWithoutUser(old(db.profiles), userId))
      ensures r.Ok? && !old(HasProfile(db.profiles, userId)) ==>
                r.value == ProfileNotFound && db.Tables() == old(db.Tables())
      ensures r.Err? ==> db.Tables() == old(db.Tables())
    {
      var found := IsProfileExists(userId);
      if found.Err? {
        return Err;
      }
      if found.value {
        var o := DeleteUserProfile(userId);
        if o.SqlFailure? {
          return Err;
        }
        r := Ok(ProfileDeleted);
      } else {
        r := Ok(ProfileNotFound);
      }
    }

    /** The profile of the account logged in on this chat, or the not-found text. */
    method GetUserProfileAsString(chatId: int) returns (r: Result<string>)
      ensures r.Ok? ==> (r.value == ProfileNotFound <==> JoinedProfile(db.profiles, db.sessions, chatId).None?)
      ensures r.Ok? && JoinedProfile(db.profiles, db.sessions, chatId).Some? ==>
                r.value == ProfileText(JoinedProfile(db.profiles, db.sessions, chatId).value)
    {
      var failed: bool :| true;
      if failed {
        return Err;
      }
      var row := JoinedProfile(db.profiles, db.sessions, chatId);
      if row.Some? {
        r := Ok(ProfileText(row.value));
      } else {
        r := Ok(ProfileNotFound);
      }
    }

    /** `UPDATE user_profiles SET course_id = ? WHERE user_id = ?`. */
    method UpdateUserCourse(userId: int, courseId: int) returns (o: Outcome)
      modifies db
      ensures o.Success? ==> db.Tables() == old(db.Tables()).(profiles := UpdateWhere(old(db.profiles), userId, SetCourse(courseId)))
      ensures o.SqlFailure? ==> db.Tables() == old(db.Tables())
    {
      o := ExecuteUpdate(userId, SetCourse(courseId));
    }

    method UpdateUserLogin(userId: int, login: Option<string>) returns (o: Outcome)
      modifies db
      ensures o.Success? ==> db.Tables() == old(db.Tables()).(profiles := UpdateWhere(old(db.profiles), userId, SetText(Login, login)))
      ensures o.SqlFailure? ==> db.Tables() == old(db.Tables())
    {
      o := ExecuteUpdate(userId, SetText(Login, login));
    }

    method UpdateUserPassword(userId: int, password: Option<string>) returns (o: Outcome)
      modifies db
      ensures o.Success? ==> db.Tables() == old(db.Tables()).(profiles := UpdateWhere(old(db.profiles), userId, SetText(Password, password)))
      ensures o.SqlFailure? ==> db.Tables() == old(db.Tables())
    {
      o := ExecuteUpdate(userId, SetText(Password, password));
    }

    method UpdateUserNickname(userId: int, nickname: Option<string>) returns (o: Outcome)
      modifies db
      ensures o.Success? ==> db.Tables() == old(db.Tables()).(profiles := UpdateWhere(old(db.profiles), userId, SetText(Nickname, nickname)))
      ensures o.SqlFailure? ==> db.Tables() == old(db.Tables())
    {
      o := ExecuteUpdate(userId, SetText(Nickname, nickname));
    }

    method UpdateUserAge(userId: int, age: int) returns (o: Outcome)
      modifies db
      ensures o.Success? ==> db.Tables() == old(db.Tables()).(profiles := UpdateWhere(old(db.profiles), userId, SetNumber(Age, age)))
      ensures o.SqlFailure? ==> db.Tables() == old(db.Tables())
    {
      o := ExecuteUpdate(userId, SetNumber(Age, age));
    }

    method UpdateUserHeight(userId: int, height: int) returns (o: Outcome)
      modifies db
      ensures o.Success? ==> db.Tables() == old(db.Tables()).(profiles := UpdateWhere(old(db.profiles), userId, SetNumber(Height, height)))
      ensures o.SqlFailure? ==> db.Tables() == old(db.Tables())
    {
      o := ExecuteUpdate(userId, SetNumber(Height, height));
    }

    method UpdateUserWeight(userId: int, weight: int) returns (o: Outcome)
      modifies db
      ensures o.Success? ==> db.Tables() == old(db.Tables()).(profiles := UpdateWhere(old(db.profiles), userId, SetNumber(Weight, weight)))
      ensures o.SqlFailure? ==> db.Tables() == old(db.Tables())
    {
      o := ExecuteUpdate(userId, SetNumber(Weight, weight));
    }
  }

  /** An UPDATE keyed on a user id that no row has changes nothing. */
  lemma UpdateWithoutMatchIsNoOp(rows: seq<ProfileRow>, userId: int, e: ProfileEdit)
    requires e.Valid() && !HasProfile(rows, userId)
    ensures UpdateWhere(rows, userId, e) == rows
  {
    var r := UpdateWhere(rows, userId, e);
    assert forall i :: 0 <= i < |rows| ==> r[i] == rows[i];
  }

  /**
   * A single-column UPDATE changes that column, in the matching rows only:
   * user ids, chat ids and course ids are kept everywhere, and the other
   * profile columns too.
   */
  lemma UpdateChangesOnlyThatColumn(rows: seq<ProfileRow>, userId: int, f: Field, s: Option<string>, n: int, i: int)
    requires 0 <= i < |rows|
    ensures var e := if f.IsNumeric() then SetNumber(f, n) else SetText(f, s);
            var r := UpdateWhere(rows, userId, e);
            r[i].userId == rows[i].userId && r[i].chatId == rows[i].chatId && r[i].courseId == rows[i].courseId &&
            (rows[i].userId != userId ==> r[i] == rows[i]) &&
            (rows[i].userId == userId ==> OnlyColumnChanged(rows[i], r[i], f, s, n))
  {
  }

  /** `after` differs from `before` in column `f` alone, which now holds `s` or `n`. */
  predicate OnlyColumnChanged(before: ProfileRow, after: ProfileRow, f: Field, s: Option<string>, n: int) {
    after.login == (if f == Login then s else before.login) &&
    after.password == (if f == Password then s else before.password) &&
    after.nickname == (if f == Nickname then s else before.nickname) &&
    after.age == (if f == Age then n else before.age) &&
    after.height == (if f == Height then n else before.height) &&
    after.weight == (if f == Weight then n else before.weight)
  }

  /** After deleting a user's rows the user has no profile, and every other row is kept. */
  lemma DeleteRemovesOnlyThatUser(rows: seq<ProfileRow>, userId: int)
    ensures !HasProfile(ProfilesWithoutUser(rows, userId), userId)
    ensures forall row: ProfileRow :: row.userId != userId ==>
              multiset(ProfilesWithoutUser(rows, userId))[row] == multiset(rows)[row]
  {
    var r := ProfilesWithoutUser(rows, userId);
    forall i | 0 <= i < |r|
      ensures r[i].userId != userId
    {
      assert r[i] in r;
    }
  }
}
