/**
 * `DatabaseManager`'s profile lookup: `SELECT nickname, age, height, weight
 * FROM user_profiles WHERE user_id = ?`, where the first row found is
 * formatted as plain text and no row gives the not-found text. The router's
 * `/viewprofile` action calls this lookup with the chat id as the user id.
 */
module DatabaseAccess {
  import opened JavaLang
  import opened Tables
  import opened ProfileStore

  const PlainHeader: string := "Ваш профиль:\nНикнейм: "

  /** The plain text of one row: nickname (`%s`, so `null` when NULL), then age, height and weight. */
  function PlainProfileText(row: ProfileRow): (s: string)
    ensures StartsWith(s, PlainHeader) && s != ProfileNotFound
  {
    assert (PlainHeader + FormatString(row.nickname))[0] == PlainHeader[0];
    PlainHeader + FormatString(row.nickname) +
    "\nВозраст: " + IntToString(row.age) +
    "\nРост: " + IntToString(row.height) +
    "\nВес: " + IntToString(row.weight)
  }

  /** What `getUserProfileAsString` builds from the table when no statement fails. */
  function ProfileLookupText(rows: seq<ProfileRow>, userId: int): (s: string)
    ensures s == ProfileNotFound <==> !HasProfile(rows, userId)
    ensures StartsWith(s, PlainHeader) <==> HasProfile(rows, userId)
  {
    match FirstProfile(rows, userId)
    case None => ProfileNotFound
    case Some(row) => PlainProfileText(row)
  }

  /** The lookup shows the earliest row of the user, whatever rows follow it. */
  lemma {:induction false} LookupShowsFirstRow(rows: seq<ProfileRow>, userId: int, i: int)
    requires 0 <= i < |rows| && rows[i].userId == userId
    requires forall j :: 0 <= j < i ==> rows[j].userId != userId
    ensures ProfileLookupText(rows, userId) == PlainProfileText(rows[i])
  {
    if i > 0 {
      LookupShowsFirstRow(rows[1..], userId, i - 1);
    }
  }

  /** Rows of other users do not change what a user sees. */
  lemma LookupIgnoresOtherUsers(rows: seq<ProfileRow>, others: seq<ProfileRow>, userId: int)
    requires forall j :: 0 <= j < |others| ==> others[j].userId != userId
    ensures ProfileLookupText(others + rows, userId) == ProfileLookupText(rows, userId)
  {
    FirstSkipsOthers(rows, others, userId);
  }

  lemma {:induction false} FirstSkipsOthers(rows: seq<ProfileRow>, others: seq<ProfileRow>, userId: int)
    requires forall j :: 0 <= j < |others| ==> others[j].userId != userId
    ensures FirstProfile(others + rows, userId) == FirstProfile(rows, userId)
  {
    if others != [] {
      var all := others + rows;
      assert all[0] == others[0];
      assert all[1..] == others[1..] + rows;
      FirstSkipsOthers(rows, others[1..], userId);
      assert all != [] && all[0].userId != userId;
      assert FirstProfile(all, userId) == FirstProfile(all[1..], userId);
    } else {
      assert others + rows == rows;
    }
  }

  /** After the user's rows are deleted, the lookup finds no profile. */
  lemma LookupAfterDelete(rows: seq<ProfileRow>, userId: int)
    ensures ProfileLookupText(ProfilesWithoutUser(rows, userId), userId) == ProfileNotFound
  {
  }

  /** Deleting one user's rows leaves every other user's first row where the lookup finds it. */
  lemma {:induction false} FirstSurvivesDelete(rows: seq<ProfileRow>, userId: int, other: int)
    requires other != userId
    ensures FirstProfile(ProfilesWithoutUser(rows, userId), other) == FirstProfile(rows, other)
  {
    if rows != [] {
      var rest := ProfilesWithoutUser(rows[1..], userId);
      FirstSurvivesDelete(rows[1..], userId, other);
      if rows[0].userId == userId {
        assert ProfilesWithoutUser(rows, userId) == rest;
      } else {
        var kept := [rows[0]] + rest;
        assert ProfilesWithoutUser(rows, userId) == kept;
        assert kept[0] == rows[0] && kept[1..] == rest;
      }
    }
  }

  class DatabaseManager {
    const db: Database

    constructor (db: Database)
      ensures this.db == db
    {
      this.db := db;
    }

    /** `getUserProfileAsString`: the lookup text, or `SQLException`. */
    method GetUserProfileAsString(userId: int) returns (r: Result<string>)
      ensures r.Ok? ==> r.value == ProfileLookupText(db.profiles, userId)
    {
      var failed: bool :| true;
      if failed {
        return Err;
      }
      var row := FirstProfile(db.profiles, userId);
      if row.Some? {
        r := Ok(PlainProfileText(row.value));
      } else {
        r := Ok(ProfileNotFound);
      }
    }
  }
}
