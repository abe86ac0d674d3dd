/** The registration and settings conversation of the telegram bot: each
    handler takes the incoming message and returns the next conversation
    state, the reply it sends and the team update it asks the database for. */
module BotFather {
  import opened Wrappers
  import Strings

  /** The conversation states; End is the conversation handler's END. */
  datatype State = TeamId | Setting1 | Setting2 | Setting3 | Setting4 | End

  /** The integer each state stands for: TEAM_ID..SETTING4 are range(5) and
      ConversationHandler.END is -1. */
  function Code(s: State): (c: int)
    ensures c == -1 <==> s == End
    ensures -1 <= c <= 4
  {
    match s
    case TeamId => 0
    case Setting1 => 1
    case Setting2 => 2
    case Setting3 => 3
    case Setting4 => 4
    case End => -1
  }

  /** One entry of SETTINGS: the team setting it writes, its question and
      the answer keyboard offered with it (rows of buttons). */
  datatype SettingQuestion = SettingQuestion(name: string, text: string, keyboard: seq<seq<string>>)

  /** The four questions of SETTINGS, in the order they are asked. */
  type SettingsTable = s: seq<SettingQuestion> | |s| == 4
    witness [SettingQuestion("", "", []), SettingQuestion("", "", []),
             SettingQuestion("", "", []), SettingQuestion("", "", [])]

  /** The bot's fixed texts. */
  datatype Texts = Texts(
    startGroup: string, startChat: string, help: string, finish: string,
    issue: string, feedback: string, startSettings: string,
    teamExisting: string, cancel: string, settings: SettingsTable)

  datatype Markup = NoMarkup | ReplyKeyboard(rows: seq<seq<string>>) | RemoveKeyboard

  datatype Reply = Reply(text: string, markup: Markup)

  /** update_team(chat_id, settings=...). */
  datatype TeamUpdate = TeamUpdate(chatId: int, settings: map<string, bool>)

  /** What a handler does: the state it returns, the reply it sends and the
      update it writes, if any. */
  datatype Outcome = Outcome(next: State, reply: Reply, update: Option<TeamUpdate>)

  const TeamsMarker := "/teams/"

  /** list(chain(*keyboard)): the buttons of all rows, row by row. */
  function Flatten(rows: seq<seq<string>>): (buttons: seq<string>)
    ensures forall b :: b in buttons <==> exists row :: row in rows && b in row
  {
    if rows == [] then []
    else
      assert forall row :: row in rows ==> row == rows[0] || row in rows[1..];
      rows[0] + Flatten(rows[1..])
  }

  /** `start`: a group chat starts the registration, any other chat ends. */
  function Start(texts: Texts, chatType: string): (o: Outcome)
    ensures o.next == (if chatType == "group" then TeamId else End)
    ensures o.update.None?
  {
    if chatType == "group" then Outcome(TeamId, Reply(texts.startGroup, NoMarkup), None)
    else Outcome(End, Reply(texts.startChat, NoMarkup), None)
  }

  /** link.split("/teams/")[-1].split("-")[0]. */
  function ExtractTeamId(link: string): (id: string)
    ensures !Strings.Contains(id, "-") && !Strings.Contains(id, TeamsMarker)
  {
    var pieces := Strings.Split(link, TeamsMarker);
    var last := pieces[|pieces| - 1];
    var id := Strings.Split(last, "-")[0];
    PieceIsPrefix(last, "-");
    Strings.PrefixHasNoOccurrence(last, TeamsMarker, |id|);
    id
  }

  /** The first piece of a split is a prefix of the string. */
  lemma PieceIsPrefix(s: string, sep: string)
    requires |sep| > 0
    ensures var first := Strings.Split(s, sep)[0]; |first| <= |s| && s[..|first|] == first
  {
    match Strings.FindFrom(s, sep, 0)
    case None =>
    case Some(i) =>
  }

  /** `get_team_id`: register the team under the id found in the pasted link;
      `register` is register_team, true when it returns a team. */
  function GetTeamId(texts: Texts, link: string, chatId: int, register: (string, int) -> bool): (o: Outcome)
    ensures o.update.None?
    ensures o.next == (if register(ExtractTeamId(link), chatId) then Setting1 else TeamId)
    ensures o.next == Setting1 ==>
      var prefix := "Erkannte TeamID: " + ExtractTeamId(link);
      |prefix| <= |o.reply.text| && o.reply.text[..|prefix|] == prefix
  {
    var teamId := ExtractTeamId(link);
    if !register(teamId, chatId) then Outcome(TeamId, Reply(texts.teamExisting, NoMarkup), None)
    else
      var text := "Erkannte TeamID: " + teamId + "\n" + texts.settings[0].text;
      assert text == ("Erkannte TeamID: " + teamId) + ("\n" + texts.settings[0].text);
      Outcome(Setting1, Reply(text, ReplyKeyboard(texts.settings[0].keyboard)), None)
  }

  /** The state that asks question k of SETTINGS. */
  function Asking(k: nat): State
    requires k < 4
  {
    if k == 0 then Setting1 else if k == 1 then Setting2 else if k == 2 then Setting3 else Setting4
  }

  /** The handler of question k: an answer that is not a button of its
      keyboard asks again; a button stores `answer == "Ja"` under the
      question's setting and asks the next question, or finishes. */
  function AnswerSetting(texts: Texts, k: nat, answer: string, chatId: int): (o: Outcome)
    requires k < 4
    ensures answer !in Flatten(texts.settings[k].keyboard) ==> o.next == Asking(k) && o.update.None?
    ensures answer in Flatten(texts.settings[k].keyboard) ==>
      && o.next == (if k == 3 then End else Asking(k + 1))
      && o.update == Some(TeamUpdate(chatId, map[texts.settings[k].name := answer == "Ja"]))
  {
    var question := texts.settings[k];
    if answer !in Flatten(question.keyboard) then
      Outcome(Asking(k), Reply(question.text, ReplyKeyboard(question.keyboard)), None)
    else
      var update := Some(TeamUpdate(chatId, map[question.name := answer == "Ja"]));
      if k == 3 then Outcome(End, Reply(texts.finish, RemoveKeyboard), update)
      else
        var nextQuestion := texts.settings[k + 1];
        Outcome(Asking(k + 1), Reply(nextQuestion.text, ReplyKeyboard(nextQuestion.keyboard)), update)
  }

  /** `weekly_op_link`, the first question. */
  function WeeklyOpLink(texts: Texts, answer: string, chatId: int): (o: Outcome)
    ensures o.next == Setting1 || o.next == Setting2
  {
    AnswerSetting(texts, 0, answer, chatId)
  }

  /** `lineup_op_link`, the second question. */
  function LineupOpLink(texts: Texts, answer: string, chatId: int): (o: Outcome)
    ensures o.next == Setting2 || o.next == Setting3
  {
    AnswerSetting(texts, 1, answer, chatId)
  }

  /** `scheduling_suggestion`, the third question. */
  function SchedulingSuggestion(texts: Texts, answer: string, chatId: int): (o: Outcome)
    ensures o.next == Setting3 || o.next == Setting4
  {
    AnswerSetting(texts, 2, answer, chatId)
  }

  /** `scheduling_confirmation`, the last question. */
  function SchedulingConfirmation(texts: Texts, answer: string, chatId: int): (o: Outcome)
    ensures o.next == Setting4 || o.next == End
  {
    AnswerSetting(texts, 3, answer, chatId)
  }

  /** `cancel`. */
  function Cancel(texts: Texts): (o: Outcome)
    ensures o.next == End && o.update.None? && o.reply.markup == RemoveKeyboard
  {
    Outcome(End, Reply(texts.cancel, RemoveKeyboard), None)
  }

  /** `helpcommand`. */
  function HelpCommand(texts: Texts): (o: Outcome)
    ensures o.next == End && o.update.None? && o.reply.markup == RemoveKeyboard
  {
    Outcome(End, Reply(texts.help, RemoveKeyboard), None)
  }

  /** `issue`. */
  function Issue(texts: Texts): (o: Outcome)
    ensures o.next == End && o.update.None? && o.reply.markup == RemoveKeyboard
  {
    Outcome(End, Reply(texts.issue, RemoveKeyboard), None)
  }

  /** `feedback`. */
  function Feedback(texts: Texts): (o: Outcome)
    ensures o.next == End && o.update.None? && o.reply.markup == RemoveKeyboard
  {
    Outcome(End, Reply(texts.feedback, RemoveKeyboard), None)
  }

  /** `start_settings`: ask the first question again. */
  function StartSettings(texts: Texts): (o: Outcome)
    ensures o.next == Setting1 && o.update.None?
    ensures o.reply == Reply(texts.startSettings + "\n" + texts.settings[Code(TeamId)].text,
                             ReplyKeyboard(texts.settings[0].keyboard))
  {
    Outcome(Setting1, Reply(texts.startSettings + "\n" + texts.settings[0].text,
                            ReplyKeyboard(texts.settings[0].keyboard)), None)
  }

  /** The states table of the conversation: the handler each state hands a
      text message to. End has none. */
  function OnText(texts: Texts, state: State, text: string, chatId: int, register: (string, int) -> bool): (o: Option<Outcome>)
    ensures o.None? <==> state == End
  {
    match state
    case TeamId => Some(GetTeamId(texts, text, chatId, register))
    case Setting1 => Some(WeeklyOpLink(texts, text, chatId))
    case Setting2 => Some(LineupOpLink(texts, text, chatId))
    case Setting3 => Some(SchedulingSuggestion(texts, text, chatId))
    case Setting4 => Some(SchedulingConfirmation(texts, text, chatId))
    case End => None
  }

  /** Feed a conversation a run of text messages; returns the state reached
      and the updates written, in order. */
  function Converse(texts: Texts, state: State, messages: seq<string>, chatId: int, register: (string, int) -> bool)
    : (r: (State, seq<TeamUpdate>))
    ensures state == End ==> r == (End, [])
    ensures r.0 == End || Code(state) <= Code(r.0)
    ensures |r.1| <= |messages|
    ensures forall u :: u in r.1 ==> u.chatId == chatId
    decreases |messages|
  {
    if messages == [] then (state, [])
    else match OnText(texts, state, messages[0], chatId, register)
      case None => (state, [])
      case Some(o) =>
        HandlersMoveForward(texts, state, messages[0], chatId, register);
        var (last, updates) := Converse(texts, o.next, messages[1..], chatId, register);
        (last, (if o.update.Some? then [o.update.value] else []) + updates)
  }

  /** The five state constants are 0..4 and distinct, and END is none of them. */
  lemma StateCodes(a: State, b: State)
    ensures a != End ==> 0 <= Code(a) <= 4
    ensures Code(a) == Code(b) ==> a == b
  {
  }

  /** No handler moves the conversation backwards: each either keeps its
      state or moves to the next one (END after the last question). */
  lemma HandlersMoveForward(texts: Texts, state: State, text: string, chatId: int, register: (string, int) -> bool)
    requires state != End
    ensures var o := OnText(texts, state, text, chatId, register).value;
      o.next == state || (if state == Setting4 then o.next == End else Code(o.next) == Code(state) + 1)
  {
  }

  /** The settings conversation: from the first question, four answers that
      are all buttons of their keyboards end the conversation after writing
      each setting once, in question order, as `answer == "Ja"`. */
  lemma {:induction false} SettingsConversation(texts: Texts, answers: seq<string>, chatId: int, register: (string, int) -> bool)
    requires |answers| == 4
    requires forall k :: 0 <= k < 4 ==> answers[k] in Flatten(texts.settings[k].keyboard)
    ensures Converse(texts, Setting1, answers, chatId, register)
      == (End, seq(4, k requires 0 <= k < 4 =>
                   TeamUpdate(chatId, map[texts.settings[k].name := answers[k] == "Ja"])))
  {
    var u := seq(4, k requires 0 <= k < 4 => TeamUpdate(chatId, map[texts.settings[k].name := answers[k] == "Ja"]));
    var states := [Setting1, Setting2, Setting3, Setting4, End];
    var k := 4;
    assert answers[4..] == [] && u[4..] == [];
    while k > 0
      invariant 0 <= k <= 4
      invariant Converse(texts, states[k], answers[k..], chatId, register) == (End, u[k..])
    {
      k := k - 1;
      assert answers[k] in Flatten(texts.settings[k].keyboard);
      var o := AnswerSetting(texts, k, answers[k], chatId);
      assert OnText(texts, states[k], answers[k], chatId, register) == Some(o);
      assert o.next == states[k + 1] && o.update == Some(u[k]);
      assert answers[k..][0] == answers[k] && answers[k..][1..] == answers[k + 1..];
      assert u[k..] == [u[k]] + u[k + 1..];
    }
  }

  /** A link holding "/teams/" once, followed by the team id and then
      nothing or a "-" and the team's slug, gives back that id. */
  lemma ExtractTeamIdFromLink(prefix: string, id: string, tail: string)
    requires !Strings.Contains(id, "-")
    requires tail == [] || tail[0] == '-'
    requires forall j: nat :: Strings.OccursAt(prefix + TeamsMarker + id + tail, TeamsMarker, j) ==> j == |prefix|
    ensures ExtractTeamId(prefix + TeamsMarker + id + tail) == id
  {
    var link := prefix + TeamsMarker + id + tail;
    var rest := id + tail;
    var k := |prefix| + |TeamsMarker|;
    assert link[|prefix|..k] == TeamsMarker;
    Strings.FindFirst(link, TeamsMarker, |prefix|);
    assert link[k..] == rest;
    forall j: nat | Strings.OccursAt(rest, TeamsMarker, j)
      ensures false
    {
      Strings.OccursInSuffix(link, TeamsMarker, k, j);
    }
    assert !Strings.Contains(rest, TeamsMarker);
    assert Strings.Split(rest, TeamsMarker) == [rest];
    assert Strings.Split(link, TeamsMarker) == [link[..|prefix|]] + [rest];
    if tail == [] {
      assert rest == id;
      match Strings.FindFrom(id, "-", 0)
      case None =>
      case Some(i) => assert false;
    } else {
      Strings.OccursChar(rest, '-', |id|);
      forall j: nat | j < |id|
        ensures !Strings.OccursAt(rest, "-", j)
      {
        Strings.OccursChar(rest, '-', j);
        Strings.OccursChar(id, '-', j);
        assert rest[j] == id[j];
      }
      Strings.FindFirst(rest, "-", |id|);
      assert rest[..|id|] == id;
    }
  }
}
