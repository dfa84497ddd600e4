/**
 * `TelegramBot`: the command table and the router of incoming updates. A
 * chat with an open dialogue has its raw text forwarded to the dialogue;
 * any other text is mapped to a command token, and the registered action
 * (or the unknown-command reply) fills the response that is then sent.
 */
module Router {
  import opened JavaLang
  import opened Tables
  import opened Profiles
  import opened ProfileStore
  import opened Keyboards
  import opened Messaging
  import opened UserStates
  import opened Dialogue
  import opened DatabaseAccess

  /** The actions of the default table, one per registered lambda. */
  datatype Action = Start | Authors | Help | Info | CreateProfile | ViewProfile | DeleteProfile

  /** One `registerCommand` call: token, help description, action. */
  datatype Registration = Registration(token: string, description: string, action: Action)

  /** `registerDefaultCommands`, in call order. */
  const DefaultCommands: seq<Registration> := [
    Registration("/start", "Начало работы с ботом", Start),
    Registration("/authors", "Информация об авторах", Authors),
    Registration("/help", "Список команд", Help),
    Registration("/info", "Информация о боте", Info),
    Registration("/createprofile", "Создать профиль", CreateProfile),
    Registration("/viewprofile", "Посмотреть данные профиля", ViewProfile),
    Registration("/deleteprofile", "Удалить профиль", DeleteProfile)]

  const Greeting: string := "Доброго времени суток! Используйте /help для списка команд."
  const AuthorsText: string := "Бот был разработан командой гениев: Богдан Богатырев и Максим Наторин"
  const HelpHeader: string := "Доступные команды:\n"
  const InfoText: string :=
    "Бот для фитнеса и здоровья: \nЭтот бот поможет пользователям следить за своим здоровьем, предлагать тренировки, рецепты и советы по питанию."
  const AskNickname: string := "Пожалуйста, введите ваш никнейм:"
  const ViewFailed: string := "Ошибка при получении профиля. Попробуйте позже."
  const DeleteFailed: string := "Ошибка при удалении профиля. Попробуйте позже."
  const UnknownCommand: string := "Неизвестная команда. Используйте /help для списка команд."

  /** The help line one registration appends. */
  function HelpLine(r: Registration): string {
    r.token + " - " + r.description + "\n"
  }

  /** The help text `h` after the registrations `rs`, in order. */
  function HelpListing(h: string, rs: seq<Registration>): string {
    if rs == [] then h else HelpListing(h, rs[..|rs| - 1]) + HelpLine(rs[|rs| - 1])
  }

  /** The command table `m` after the registrations `rs`. */
  function CommandTable(m: map<string, Action>, rs: seq<Registration>): map<string, Action> {
    if rs == [] then m else CommandTable(m, rs[..|rs| - 1])[rs[|rs| - 1].token := rs[|rs| - 1].action]
  }

  /** Seven registrations, one after the other. */
  lemma SevenRegistrations(m: map<string, Action>, h: string, rs: seq<Registration>)
    requires |rs| == 7
    ensures CommandTable(m, rs) ==
            m[rs[0].token := rs[0].action][rs[1].token := rs[1].action][rs[2].token := rs[2].action]
             [rs[3].token := rs[3].action][rs[4].token := rs[4].action][rs[5].token := rs[5].action]
             [rs[6].token := rs[6].action]
    ensures HelpListing(h, rs) ==
            h + HelpLine(rs[0]) + HelpLine(rs[1]) + HelpLine(rs[2]) + HelpLine(rs[3]) + HelpLine(rs[4])
              + HelpLine(rs[5]) + HelpLine(rs[6])
  {
    assert rs[..1][..0] == [];
    assert CommandTable(m, rs[..1]) == m[rs[0].token := rs[0].action];
    assert HelpListing(h, rs[..1]) == h + HelpLine(rs[0]);
    assert rs[..2][..1] == rs[..1];
    assert CommandTable(m, rs[..2]) == CommandTable(m, rs[..1])[rs[1].token := rs[1].action];
    assert HelpListing(h, rs[..2]) == HelpListing(h, rs[..1]) + HelpLine(rs[1]);
    assert rs[..3][..2] == rs[..2];
    assert CommandTable(m, rs[..3]) == CommandTable(m, rs[..2])[rs[2].token := rs[2].action];
    assert HelpListing(h, rs[..3]) == HelpListing(h, rs[..2]) + HelpLine(rs[2]);
    assert rs[..4][..3] == rs[..3];
    assert CommandTable(m, rs[..4]) == CommandTable(m, rs[..3])[rs[3].token := rs[3].action];
    assert HelpListing(h, rs[..4]) == HelpListing(h, rs[..3]) + HelpLine(rs[3]);
    assert rs[..5][..4] == rs[..4];
    assert CommandTable(m, rs[..5]) == CommandTable(m, rs[..4])[rs[4].token := rs[4].action];
    assert HelpListing(h, rs[..5]) == HelpListing(h, rs[..4]) + HelpLine(rs[4]);
    assert rs[..6][..5] == rs[..5];
    assert CommandTable(m, rs[..6]) == CommandTable(m, rs[..5])[rs[5].token := rs[5].action];
    assert HelpListing(h, rs[..6]) == HelpListing(h, rs[..5]) + HelpLine(rs[5]);
    assert rs[..|rs| - 1] == rs[..6];
    assert CommandTable(m, rs) == CommandTable(m, rs[..6])[rs[6].token := rs[6].action];
    assert HelpListing(h, rs) == HelpListing(h, rs[..6]) + HelpLine(rs[6]);
  }

  /** Number of line breaks in a text. */
  function LineCount(s: string): nat {
    multiset(s)['\n']
  }

  /** A token is in the table exactly when it was there before or some registration used it. */
  lemma {:induction false} TableHasToken(m: map<string, Action>, rs: seq<Registration>, t: string)
    ensures t in CommandTable(m, rs) <==> t in m || exists i :: 0 <= i < |rs| && rs[i].token == t
  {
    if rs != [] {
      var init := rs[..|rs| - 1];
      TableHasToken(m, init, t);
      if rs[|rs| - 1].token != t && exists i :: 0 <= i < |rs| && rs[i].token == t {
        var i :| 0 <= i < |rs| && rs[i].token == t;
        assert init[i].token == t;
      }
    }
  }

  /** A token maps to the action of the last registration that used it. */
  lemma {:induction false} TableLastWins(m: map<string, Action>, rs: seq<Registration>, i: int)
    requires 0 <= i < |rs|
    requires forall j :: i < j < |rs| ==> rs[j].token != rs[i].token
    ensures rs[i].token in CommandTable(m, rs) && CommandTable(m, rs)[rs[i].token] == rs[i].action
  {
    if i < |rs| - 1 {
      var init := rs[..|rs| - 1];
      assert init[i] == rs[i];
      TableLastWins(m, init, i);
    }
  }

  /** A token no registration used keeps its old action. */
  lemma {:induction false} TableKeepsUnused(m: map<string, Action>, rs: seq<Registration>, t: string)
    requires t in m && forall i :: 0 <= i < |rs| ==> rs[i].token != t
    ensures t in CommandTable(m, rs) && CommandTable(m, rs)[t] == m[t]
  {
    if rs != [] {
      var init := rs[..|rs| - 1];
      assert forall i :: 0 <= i < |init| ==> init[i].token == rs[i].token;
      TableKeepsUnused(m, init, t);
    }
  }

  /**
   * Each registration appends exactly one help line, so when no token or
   * description holds a line break the listing has one line per call.
   */
  lemma {:induction false} OneHelpLinePerRegistration(h: string, rs: seq<Registration>)
    requires forall i :: 0 <= i < |rs| ==> '\n' !in rs[i].token && '\n' !in rs[i].description
    ensures LineCount(HelpListing(h, rs)) == LineCount(h) + |rs|
  {
    if rs != [] {
      var r := rs[|rs| - 1];
      OneHelpLinePerRegistration(h, rs[..|rs| - 1]);
      assert multiset(HelpLine(r))['\n'] == 1 by {
        assert multiset(HelpLine(r)) == multiset(r.token) + multiset(" - ") + multiset(r.description) + multiset("\n");
      }
      assert multiset(HelpListing(h, rs)) == multiset(HelpListing(h, rs[..|rs| - 1])) + multiset(HelpLine(r));
    }
  }

  /** Each of the seven default tokens is bound to its own action (no token is registered twice). */
  lemma DefaultTable(i: int)
    requires 0 <= i < |DefaultCommands|
    ensures DefaultCommands[i].token in CommandTable(map[], DefaultCommands)
    ensures CommandTable(map[], DefaultCommands)[DefaultCommands[i].token] == DefaultCommands[i].action
  {
    SevenRegistrations(map[], "", DefaultCommands);
  }

  /**
   * Seven of the main menu's buttons name commands that this router does not
   * register; pressing them gets the unknown-command reply.
   */
  lemma UnregisteredMenuCommands(t: string)
    requires t in ["/login", "/logout", "/viewcourses", "/selectcourse", "/viewworkouts", "/viewexercises", "/editprofile"]
    ensures t !in CommandTable(map[], DefaultCommands)
    ensures MapButtonTextToCommand(t) == t
  {
    TableHasToken(map[], DefaultCommands, t);
    MapIsIdentityOnTokens(t);
  }

  /**
   * What action `a` did for a chat: its reply (`help` is the help text) and
   * the dialogue states, draft values and tables after it (`s1`, `d1`, `t1`)
   * from those before it (`s0`, `d0`, `t0`). Only `/createprofile` opens a
   * dialogue and a draft, and only `/deleteprofile` writes a table.
   */
  ghost predicate Performed(a: Action, chatId: int, reply: string, help: string,
                            s0: map<int, UserState>, s1: map<int, UserState>,
                            d0: map<int, ProfileValue>, d1: map<int, ProfileValue>, t0: Snapshot, t1: Snapshot)
  {
    match a
    case Start => reply == Greeting && s1 == s0 && d1 == d0 && t1 == t0
    case Authors => reply == AuthorsText && s1 == s0 && d1 == d0 && t1 == t0
    case Help => reply == HelpHeader + help && s1 == s0 && d1 == d0 && t1 == t0
    case Info => reply == InfoText && s1 == s0 && d1 == d0 && t1 == t0
    case CreateProfile =>
      reply == AskNickname && s1 == s0[chatId := EnterNickname] && d1 == d0[chatId := DefaultProfile] && t1 == t0
    case ViewProfile =>
      (reply == ViewFailed || reply == ProfileLookupText(t0.profiles, chatId)) && s1 == s0 && d1 == d0 && t1 == t0
    case DeleteProfile =>
      s1 == s0 && d1 == d0 &&
      ((reply == DeleteFailed && t1 == t0) ||
       (reply == ProfileDeleted && HasProfile(t0.profiles, chatId) &&
        t1 == t0.(profiles := ProfilesWithoutUser(t0.profiles, chatId))) ||
       (reply == ProfileNotFound && !HasProfile(t0.profiles, chatId) && t1 == t0))
  }

  /**
   * A command from one chat leaves every other chat's dialogue state, draft
   * and profile text as they were.
   */
  lemma PerformedIsolatesChats(a: Action, chatId: int, reply: string, help: string,
                               s0: map<int, UserState>, s1: map<int, UserState>,
                               d0: map<int, ProfileValue>, d1: map<int, ProfileValue>, t0: Snapshot, t1: Snapshot,
                               other: int)
    requires Performed(a, chatId, reply, help, s0, s1, d0, d1, t0, t1)
    requires other != chatId
    ensures (other in s1 <==> other in s0) && (other in s1 ==> s1[other] == s0[other])
    ensures (other in d1 <==> other in d0) && (other in d1 ==> d1[other] == d0[other])
    ensures ProfileLookupText(t1.profiles, other) == ProfileLookupText(t0.profiles, other)
  {
    if a.DeleteProfile? && t1 != t0 {
      FirstSurvivesDelete(t0.profiles, chatId, other);
    }
  }

  /** The messages an action sends itself, before the router's reply: only `/start` sends one, with the main menu. */
  function ActionSends(a: Action, chatId: int): seq<SendMessage> {
    if a.Start? then [SendMessage(chatId, Greeting, ReplyMarkup(GetMainMenuKeyboard()))] else []
  }

  /** An incoming update: a text message from a chat, or anything else. */
  datatype Update = TextMessage(chatId: int, text: string) | OtherUpdate

  /** Where `onUpdateReceived` sent an update. */
  datatype Route =
    | Ignored
    | ToDialogue(report: Report)
    | Command(token: string, action: Option<Action>, reply: string)

  class TelegramBot {
    var commandMap: map<string, Action>
    var helpText: string
    const handler: StateHandler
    const out: Outbox
    const databaseManager: DatabaseManager

    ghost predicate Valid()
      reads this, handler, handler.pm, handler.pm.drafts.Values
    {
      handler.Valid() && handler.out == out && databaseManager.db == handler.db
    }

    /** The constructor: an empty table and help text, then the seven default commands. */
    constructor (handler: StateHandler)
      requires handler.Valid()
      ensures Valid() && this.handler == handler
      ensures commandMap == CommandTable(map[], DefaultCommands) && helpText == HelpListing("", DefaultCommands)
    {
      this.handler := handler;
      out := handler.out;
      databaseManager := new DatabaseManager(handler.db);
      commandMap := map[];
      helpText := "";
      new;
      RegisterDefaultCommands();
    }

    /** `registerDefaultCommands`: the seven registrations of `DefaultCommands`, in order. */
    method RegisterDefaultCommands()
      modifies this
      ensures commandMap == CommandTable(old(commandMap), DefaultCommands)
      ensures helpText == HelpListing(old(helpText), DefaultCommands)
    {
      RegisterCommand("/start", "Начало работы с ботом", Start);
      RegisterCommand("/authors", "Информация об авторах", Authors);
      RegisterCommand("/help", "Список команд", Help);
      RegisterCommand("/info", "Информация о боте", Info);
      RegisterCommand("/createprofile", "Создать профиль", CreateProfile);
      RegisterCommand("/viewprofile", "Посмотреть данные профиля", ViewProfile);
      RegisterCommand("/deleteprofile", "Удалить профиль", DeleteProfile);
      SevenRegistrations(old(commandMap), old(helpText), DefaultCommands);
    }

    /** `registerCommand`: a later registration of a token replaces its action, and every call adds a help line. */
    method RegisterCommand(token: string, description: string, action: Action)
      modifies this
      ensures commandMap == old(commandMap)[token := action]
      ensures helpText == old(helpText) + HelpLine(Registration(token, description, action))
    {
      commandMap := commandMap[token := action];
      helpText := helpText + token + " - " + description + "\n";
    }

    /** Runs one registered action for a chat; `reply` is what it appended to the response. */
    method Perform(a: Action, chatId: int) returns (reply: string)
      requires Valid()
      modifies handler, handler.pm, handler.db, out
      ensures Valid()
      ensures Performed(a, chatId, reply, helpText, old(handler.userStates), handler.userStates,
                        old(handler.pm.Drafts()), handler.pm.Drafts(), old(handler.db.Tables()), handler.db.Tables())
      ensures out.sent == old(out.sent) + ActionSends(a, chatId)
      ensures !a.CreateProfile? ==> handler.pm.drafts == old(handler.pm.drafts)
    {
      match a
      case Start =>
        reply := Greeting;
        out.SendMsgWithKeyboard(chatId, reply, GetMainMenuKeyboard());
      case Authors =>
        reply := AuthorsText;
      case Help =>
        reply := HelpHeader + helpText;
      case Info =>
        reply := InfoText;
      case CreateProfile =>
        reply := StartProfile(chatId);
      case ViewProfile =>
        reply := ShowProfile(chatId);
      case DeleteProfile =>
        reply := RemoveProfile(chatId);
    }

    /** The `/createprofile` action: the chat gets a fresh draft and is asked for a nickname. */
    method StartProfile(chatId: int) returns (reply: string)
      requires Valid()
      modifies handler, handler.pm
      ensures Valid() && reply == AskNickname
      ensures handler.userStates == old(handler.userStates)[chatId := EnterNickname]
      ensures chatId in handler.pm.drafts && handler.pm.Drafts() == old(handler.pm.Drafts())[chatId := DefaultProfile]
      ensures handler.db.Tables() == old(handler.db.Tables())
    {
      reply := AskNickname;
      handler.SetUserState(chatId, EnterNickname);
      var draft := new UserProfile();
      handler.pm.AddUserProfile(chatId, draft);
    }

    /** The `/viewprofile` action: `DatabaseManager`'s profile text for the chat id as user id, or the failure reply. */
    method ShowProfile(chatId: int) returns (reply: string)
      requires Valid()
      ensures reply == ViewFailed || reply == ProfileLookupText(handler.db.profiles, chatId)
    {
      var r := databaseManager.GetUserProfileAsString(chatId);
      reply := if r.Ok? then r.value else ViewFailed;
    }

    /** The `/deleteprofile` action: the chat's rows go, if it has any. */
    method RemoveProfile(chatId: int) returns (reply: string)
      requires Valid()
      modifies handler.db
      ensures (reply == DeleteFailed && handler.db.Tables() == old(handler.db.Tables())) ||
              (reply == ProfileDeleted && old(HasProfile(handler.db.profiles, chatId)) &&
               handler.db.Tables() == old(handler.db.Tables()).(profiles := ProfilesWithoutUser(old(handler.db.profiles), chatId))) ||
              (reply == ProfileNotFound && !old(HasProfile(handler.db.profiles, chatId)) &&
               handler.db.Tables() == old(handler.db.Tables()))
    {
      var r := handler.pm.DeleteUserProfileAsString(chatId);
      reply := if r.Ok? then r.value else DeleteFailed;
    }

    /**
     * `onUpdateReceived`: non-text updates are ignored; a chat with a state
     * has its raw text handled by the dialogue; otherwise the mapped token's
     * action, or the unknown-command reply, fills a response that is sent
     * as one plain message.
     */
    method OnUpdateReceived(u: Update) returns (route: Route)
      requires Valid()
      modifies handler, handler.pm, handler.pm.drafts.Values, handler.db, out
      ensures Valid()
      ensures u.OtherUpdate? <==> route.Ignored?
      ensures route.Ignored? ==>
                out.sent == old(out.sent) && handler.userStates == old(handler.userStates) &&
                handler.pm.Drafts() == old(handler.pm.Drafts()) && handler.db.Tables() == old(handler.db.Tables())
      ensures u.TextMessage? ==> (route.ToDialogue? <==> u.chatId in old(handler.userStates))
      ensures route.ToDialogue? ==>
                u.TextMessage? &&
                Dispatched(u.chatId, u.text, handler.encode, handler.matches, handler.recipes,
                           old(handler.userStates), handler.userStates, old(handler.pm.Drafts()), handler.pm.Drafts(),
                           old(handler.db.Tables()), handler.db.Tables(), old(out.sent), out.sent, route.report)
      ensures route.Command? ==>
                u.TextMessage? && route.token == MapButtonTextToCommand(u.text) &&
                route.action == (if route.token in commandMap then Some(commandMap[route.token]) else None) &&
                out.sent == old(out.sent) + (if route.action.Some? then ActionSends(route.action.value, u.chatId) else []) +
                            [SendMessage(u.chatId, route.reply, NoMarkup)]
      ensures route.Command? && route.action.Some? ==>
                Performed(route.action.value, u.chatId, route.reply, helpText, old(handler.userStates), handler.userStates,
                          old(handler.pm.Drafts()), handler.pm.Drafts(), old(handler.db.Tables()), handler.db.Tables())
      ensures route.Command? && route.action.None? ==>
                route.reply == UnknownCommand && handler.userStates == old(handler.userStates) &&
                handler.pm.Drafts() == old(handler.pm.Drafts()) && handler.db.Tables() == old(handler.db.Tables())
    {
      if u.OtherUpdate? {
        return Ignored;
      }
      var chatId := u.chatId;
      var command := MapButtonTextToCommand(u.text);
      if handler.GetUserState(chatId).Some? {
        var report := handler.HandleProfileCreationOrLogin(chatId, u.text);
        return ToDialogue(report);
      }
      var reply: string;
      var action: Option<Action>;
      if command in commandMap {
        action := Some(commandMap[command]);
        reply := Perform(commandMap[command], chatId);
      } else {
        action := None;
        reply := UnknownCommand;
      }
      out.SendMsg(chatId, reply);
      route := Command(command, action, reply);
    }
  }
}
