/**
 * The mutable profile record used as the per-chat draft during signup and
 * login. `null` strings are `None`.
 */
module Profiles {
  import opened JavaLang

  /** The profile columns that a dialogue step or an edit can write. */
  datatype Field = Login | Password | Nickname | Age | Height | Weight {
    predicate IsNumeric() {
      Age? || Height? || Weight?
    }
  }

  /** The abstract value of a `UserProfile` object. */
  datatype ProfileValue = ProfileValue(
    userId: int,
    login: Option<string>,
    password: Option<string>,
    nickname: Option<string>,
    age: int,
    height: int,
    weight: int,
    isLoggedIn: bool)
  {
    /** This value with one text field replaced (the text setters). */
    function WithText(f: Field, s: Option<string>): ProfileValue
      requires !f.IsNumeric()
    {
      match f
      case Login => this.(login := s)
      case Password => this.(password := s)
      case Nickname => this.(nickname := s)
    }

    /** This value with one numeric field replaced (the int setters). */
    function WithNumber(f: Field, n: int): ProfileValue
      requires f.IsNumeric()
    {
      match f
      case Age => this.(age := n)
      case Height => this.(height := n)
      case Weight => this.(weight := n)
    }
  }

  /** What the no-argument constructor leaves: Java's field defaults. */
  const DefaultProfile: ProfileValue := ProfileValue(0, None, None, None, 0, 0, 0, false)

  class UserProfile {
    var userId: int
    var login: Option<string>
    var password: Option<string>
    var nickname: Option<string>
    var age: int
    var height: int
    var weight: int
    var isLoggedIn: bool

    function Value(): ProfileValue
      reads this
    {
      ProfileValue(userId, login, password, nickname, age, height, weight, isLoggedIn)
    }

    /** `new UserProfile()`. */
    constructor ()
      ensures Value() == DefaultProfile
    {
      userId, login, password, nickname := 0, None, None, None;
      age, height, weight, isLoggedIn := 0, 0, 0, false;
    }

    /** The eight-argument constructor. */
    constructor Full(userId: int, login: Option<string>, password: Option<string>, nickname: Option<string>,
                     age: int, height: int, weight: int, isLoggedIn: bool)
      ensures Value() == ProfileValue(userId, login, password, nickname, age, height, weight, isLoggedIn)
    {
      this.userId, this.login, this.password, this.nickname := userId, login, password, nickname;
      this.age, this.height, this.weight, this.isLoggedIn := age, height, weight, isLoggedIn;
    }

    function GetUserId(): int reads this { userId }
    function GetLogin(): Option<string> reads this { login }
    function GetPassword(): Option<string> reads this { password }
    function GetNickname(): Option<string> reads this { nickname }
    function GetAge(): int reads this { age }
    function GetHeight(): int reads this { height }
    function GetWeight(): int reads this { weight }
    function IsLoggedIn(): bool reads this { isLoggedIn }

    method SetUserId(x: int)
      modifies this
      ensures GetUserId() == x && Value() == old(Value()).(userId := x)
    {
      userId := x;
    }

    method SetLogin(x: Option<string>)
      modifies this
      ensures GetLogin() == x && Value() == old(Value()).(login := x)
    {
      login := x;
    }

    method SetPassword(x: Option<string>)
      modifies this
      ensures GetPassword() == x && Value() == old(Value()).(password := x)
    {
      password := x;
    }

    method SetNickname(x: Option<string>)
      modifies this
      ensures GetNickname() == x && Value() == old(Value()).(nickname := x)
    {
      nickname := x;
    }

    method SetAge(x: int)
      modifies this
      ensures GetAge() == x && Value() == old(Value()).(age := x)
    {
      age := x;
    }

    method SetHeight(x: int)
      modifies this
      ensures GetHeight() == x && Value() == old(Value()).(height := x)
    {
      height := x;
    }

    method SetWeight(x: int)
      modifies this
      ensures GetWeight() == x && Value() == old(Value()).(weight := x)
    {
      weight := x;
    }

    method SetLoggedIn(x: bool)
      modifies this
      ensures IsLoggedIn() == x && Value() == old(Value()).(isLoggedIn := x)
    {
      isLoggedIn := x;
    }
  }
}
