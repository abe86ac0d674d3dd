/** The notification messages: one kind per message class, each deciding
    which team setting switches it on, whether it may be pinned, whether it
    mentions the group, its title and its text. */
module Messages {
  import opened Wrappers
  import opened Models
  import Strings

  /** Entries of the German language table used by the messages. */
  datatype LangKey =
    | TitleNewGameDay | TitleNewGame | TitleNewLineup | TitleNewOwnSuggestion
    | TitleNewSuggestion | TitleGameConfirmation
    | WeeklyUpdateText | NextGameInCalibration | NewLineupText | NewLineupInCalibrationText
    | OwnNewTimeSuggestionText | NewTimeSuggestionPrefix | NewTimeSuggestionsPrefix
    | SchedulingAutoConfirmationText | SchedulingConfirmationText | GameBeginChangeText
    | GeneralMatchLink

  /** What the messages take from outside: the language table, str.format
      applied with named arguments and the game's attributes, the date
      formatter, and the emoji constants. */
  datatype Env = Env(
    lang: LangKey -> string,
    format: (string, map<string, string>, Game) -> string,
    formatDateTime: Timestamp -> string,
    emojiNumbers: seq<string>,
    emojiFight: string,
    emojiArrowRight: string)

  /** The kind of the latest confirmation log handed to the confirmation
      message; Other is any log class that is none of the three. */
  datatype ConfirmationLog = AutoConfirmation | Confirmation | ChangeTime | Other

  /** One constructor per message class, holding its constructor arguments
      besides the team. */
  datatype Kind =
    | Base
    | WeeklyNotification(game: Game)
    | NewGame(game: Game)
    | NewLineup(game: Game)
    | NewLineupInCalibration(game: Game)
    | OwnNewTimeSuggestions(game: Game)
    | EnemyNewTimeSuggestions(game: Game)
    | ScheduleConfirmation(game: Game, latestConfirmationLog: ConfirmationLog)
    | GamesOverview

  /** Why a constructor raises. */
  datatype BuildError =
    | MissingOpLink          // `raise Exception()` when the link getter gave None
    | EmojiIndexOutOfRange   // emoji_numbers[i] for more suggestions than emojis
    | UnexpectedLog          // the isinstance assertion on the confirmation log

  /** A constructed message; text is None for the base class, which never
      generates one. */
  datatype Message = Message(kind: Kind, team: Team, text: Option<string>, attachable: bool)

  const NoOpenGamesText := "Ihr habt aktuell keine offenen Spiele."
  const OverviewHeader := "**Eine Übersicht eurer offenen Spiele:**\n\n"

  /** The class attribute `_key`: the team setting that switches the kind on.
      NewLineupInCalibrationMessage does not override it, like the base class. */
  function Key(kind: Kind): (key: Option<string>)
    ensures key.None? <==> kind.Base? || kind.NewLineupInCalibration?
    ensures kind.OwnNewTimeSuggestions? || kind.EnemyNewTimeSuggestions? ==> key == Some(SchedulingSuggestionKey)
  {
    match kind
    case Base => None
    case WeeklyNotification(_) => Some(WeeklyOpLinkKey)
    case NewGame(_) => Some(NewGameKey)
    case NewLineup(_) => Some(LineupOpLinkKey)
    case NewLineupInCalibration(_) => None
    case OwnNewTimeSuggestions(_) => Some(SchedulingSuggestionKey)
    case EnemyNewTimeSuggestions(_) => Some(SchedulingSuggestionKey)
    case ScheduleConfirmation(_, _) => Some(SchedulingConfirmationKey)
    case GamesOverview => Some(OverviewKey)
  }

  /** The class attribute `mentionable`. */
  function Mentionable(kind: Kind): (m: bool)
    ensures m <==> !(kind.Base? || kind.GamesOverview?)
  {
    match kind
    case Base => false
    case GamesOverview => false
    case _ => true
  }

  /** generate_title: the class attribute `title`. */
  function GenerateTitle(kind: Kind): (title: Option<LangKey>)
    ensures title.None? <==> kind.Base? || kind.GamesOverview?
    ensures kind.NewLineup? || kind.NewLineupInCalibration? ==> title == Some(TitleNewLineup)
  {
    match kind
    case Base => None
    case WeeklyNotification(_) => Some(TitleNewGameDay)
    case NewGame(_) => Some(TitleNewGame)
    case NewLineup(_) => Some(TitleNewLineup)
    case NewLineupInCalibration(_) => Some(TitleNewLineup)
    case OwnNewTimeSuggestions(_) => Some(TitleNewOwnSuggestion)
    case EnemyNewTimeSuggestions(_) => Some(TitleNewSuggestion)
    case ScheduleConfirmation(_, _) => Some(TitleGameConfirmation)
    case GamesOverview => None
  }

  /** team_wants_notification: the team's value of the kind's setting. */
  function TeamWantsNotification(m: Message): (wants: bool)
    ensures wants <==> Key(m.kind).Some? && Key(m.kind).value in m.team.settings
                       && m.team.settings[Key(m.kind).value]
  {
    ValueOfSetting(m.team, Key(m.kind))
  }

  /** can_be_pinned. */
  function CanBePinned(m: Message): bool
  {
    m.attachable
  }

  /** The kinds whose text needs an op or scouting link of the enemies. */
  predicate NeedsLink(kind: Kind)
  {
    kind.WeeklyNotification? || kind.NewGame? || kind.NewLineup? || kind.NewLineupInCalibration?
  }

  /** The link getter each of those kinds calls. */
  function LinkOf(kind: Kind): Option<string>
    requires NeedsLink(kind)
  {
    match kind
    case WeeklyNotification(g) => g.scoutingLink
    case NewGame(g) => g.opLink
    case NewLineup(g) => g.scoutingLinkLineup
    case NewLineupInCalibration(g) => g.opLinkLineup
  }

  function Render(env: Env, key: LangKey, args: map<string, string>, game: Game): string
  {
    env.format(env.lang(key), args, game)
  }

  /** The prefix of the enemy suggestion message for a number of suggestions. */
  function SuggestionPrefix(count: nat): (key: LangKey)
    ensures key == NewTimeSuggestionPrefix <==> count == 1
    ensures key == NewTimeSuggestionsPrefix <==> count != 1
  {
    if count == 1 then NewTimeSuggestionPrefix else NewTimeSuggestionsPrefix
  }

  /** The rendered prefix of the enemy suggestion message. */
  function SuggestionPrefixText(env: Env, g: Game): string
  {
    Render(env, SuggestionPrefix(|g.suggestions|), map["enemy_team_tag" := g.enemyTeam.teamTag], g)
  }

  /** One line per suggestion: its emoji number, then its formatted time. */
  function SuggestionLines(env: Env, suggestions: seq<Timestamp>): (lines: seq<string>)
    requires |suggestions| <= |env.emojiNumbers|
  {
    seq(|suggestions|, i requires 0 <= i < |suggestions| =>
      env.emojiNumbers[i] + env.formatDateTime(suggestions[i]))
  }

  /** The text template chosen by the kind of the latest confirmation log;
      the auto-confirmation test comes first. */
  function ConfirmationTemplate(log: ConfirmationLog): (key: Option<LangKey>)
    ensures key == Some(SchedulingAutoConfirmationText) <==> log == AutoConfirmation
    ensures key == Some(SchedulingConfirmationText) <==> log == Confirmation
    ensures key == Some(GameBeginChangeText) <==> log == ChangeTime
    ensures key.None? <==> log == Other
  {
    match log
    case AutoConfirmation => Some(SchedulingAutoConfirmationText)
    case Confirmation => Some(SchedulingConfirmationText)
    case ChangeTime => Some(GameBeginChangeText)
    case Other => None
  }

  /** game.get_op_link_of_enemies(...) as an f-string prints it. */
  function ShowLink(link: Option<string>): string
  {
    match link
    case Some(l) => l
    case None => "None"
  }

  function DigitChar(d: nat): (c: char)
    requires d < 10
    ensures '0' <= c <= '9' && (c as int) - ('0' as int) == d
  {
    "0123456789"[d]
  }

  predicate IsDigits(s: string)
  {
    forall k :: 0 <= k < |s| ==> '0' <= s[k] <= '9'
  }

  /** The number a string of decimal digits denotes. */
  function DigitsValue(s: string): nat
    requires IsDigits(s)
  {
    if s == [] then 0 else DigitsValue(s[..|s| - 1]) * 10 + ((s[|s| - 1] as int) - ('0' as int))
  }

  /** str(n) for a non-negative n: its decimal digits, without leading zeros. */
  function NatToString(n: nat): (s: string)
    ensures |s| >= 1 && IsDigits(s) && DigitsValue(s) == n
    ensures |s| > 1 ==> s[0] != '0'
  {
    if n < 10 then [DigitChar(n)]
    else
      var init := NatToString(n / 10);
      var s := init + [DigitChar(n % 10)];
      assert s[..|s| - 1] == init;
      s
  }

  /** str(n) for an int: a minus sign before the digits of a negative n. */
  function IntToString(n: int): (s: string)
    ensures |s| >= 1
    ensures n >= 0 ==> IsDigits(s) && DigitsValue(s) == n
    ensures n < 0 ==> s[0] == '-' && IsDigits(s[1..]) && DigitsValue(s[1..]) == -n
  {
    if n < 0 then
      var s := "-" + NatToString(-n);
      assert s[1..] == NatToString(-n);
      s
    else NatToString(n)
  }

  /** The open games of a team: games_against.filter(game_closed=False). */
  function OpenGames(games: seq<Game>): (open: seq<Game>)
    ensures forall g :: g in open <==> g in games && !g.gameClosed
    ensures forall g :: multiset(open)[g] == (if g.gameClosed then 0 else multiset(games)[g])
    ensures |open| <= |games|
  {
    if games == [] then []
    else
      assert games == [games[0]] + games[1..];
      if games[0].gameClosed then OpenGames(games[1..])
      else [games[0]] + OpenGames(games[1..])
  }

  predicate SortedByGameDay(games: seq<Game>)
  {
    forall i, j :: 0 <= i < j < |games| ==> games[i].gameDay <= games[j].gameDay
  }

  /** Insert a game into a list ordered by game day, after the games of
      the same day. */
  function InsertByGameDay(g: Game, sorted: seq<Game>): (r: seq<Game>)
    requires SortedByGameDay(sorted)
    ensures SortedByGameDay(r)
    ensures multiset(r) == multiset(sorted) + multiset{g}
    ensures forall x :: x in r ==> x == g || x in sorted
  {
    if sorted == [] then [g]
    else if g.gameDay < sorted[0].gameDay then [g] + sorted
    else
      var tail := InsertByGameDay(g, sorted[1..]);
      assert sorted == [sorted[0]] + sorted[1..];
      HeadBelowAll(sorted[0], g, sorted[1..], tail);
      [sorted[0]] + tail
  }

  /** Putting a game in front of a sorted list keeps it sorted when the game
      is no later than all of the list. */
  lemma HeadBelowAll(h: Game, g: Game, rest: seq<Game>, tail: seq<Game>)
    requires SortedByGameDay([h] + rest) && SortedByGameDay(tail)
    requires h.gameDay <= g.gameDay
    requires forall x :: x in tail ==> x == g || x in rest
    ensures SortedByGameDay([h] + tail)
  {
    forall j | 0 <= j < |tail|
      ensures h.gameDay <= tail[j].gameDay
    {
      assert tail[j] in tail;
      if tail[j] != g {
        assert tail[j] in rest;
        var k :| 0 <= k < |rest| && rest[k] == tail[j];
        assert ([h] + rest)[0] == h && ([h] + rest)[k + 1] == rest[k];
      }
    }
  }

  /** order_by("game_day"), with games of one day kept in stored order. */
  function SortByGameDay(games: seq<Game>): (r: seq<Game>)
    ensures SortedByGameDay(r)
    ensures multiset(r) == multiset(games)
  {
    if games == [] then []
    else
      assert games == games[..|games| - 1] + [games[|games| - 1]];
      InsertByGameDay(games[|games| - 1], SortByGameDay(games[..|games| - 1]))
  }

  /** The games the overview lists, in the order it lists them. */
  function GamesToPlay(team: Team): (games: seq<Game>)
    ensures SortedByGameDay(games)
    ensures multiset(games) == multiset(OpenGames(team.gamesAgainst))
    ensures forall g :: g in games <==> g in team.gamesAgainst && !g.gameClosed
  {
    var r := SortByGameDay(OpenGames(team.gamesAgainst));
    assert forall g :: g in r <==> g in multiset(OpenGames(team.gamesAgainst));
    r
  }

  /** One overview entry: game day and match link, enemy name, op.gg link. */
  function OverviewEntry(env: Env, game: Game): (entry: string)
    ensures var head := "[Spieltag " + IntToString(game.gameDay) + "](";
      |head| <= |entry| && entry[..|head|] == head
    ensures |entry| >= 2 && entry[|entry| - 2..] == ")\n"
  {
    "[Spieltag " + IntToString(game.gameDay) + "](" + env.lang(GeneralMatchLink) + IntToString(game.gameId) + ") "
    + env.emojiFight + " " + game.enemyTeam.name + " " + env.emojiArrowRight
    + " [OP.gg](" + ShowLink(game.opLink) + ")\n"
  }

  /** The overview text: the fixed text exactly when no game is open,
      otherwise the header and the entries of the open games. */
  function Overview(env: Env, team: Team): (text: string)
    ensures text == NoOpenGamesText <==> forall g :: g in team.gamesAgainst ==> g.gameClosed
    ensures |OverviewHeader| <= |text| && text[..|OverviewHeader|] == OverviewHeader
        <==> exists g :: g in team.gamesAgainst && !g.gameClosed
  {
    var games := GamesToPlay(team);
    if |games| == 0 then NoOpenGamesText
    else
      var text := OverviewHeader + Strings.Join(seq(|games|, i requires 0 <= i < |games| => OverviewEntry(env, games[i])), "\n");
      assert games[0] in games;
      assert text[0] == '*' != NoOpenGamesText[0];
      assert text[..|OverviewHeader|] == OverviewHeader;
      text
  }

  /** _generate_message of each class; None for the base class, an error
      where the constructor raises. */
  function GenerateMessage(env: Env, team: Team, kind: Kind): (r: Result<Option<string>, BuildError>)
    ensures r.Success? ==> (r.value.None? <==> kind.Base?)
    ensures NeedsLink(kind) ==> (r.Failure? <==> LinkOf(kind).None?)
    ensures r.Failure? ==> (r.error == MissingOpLink <==> NeedsLink(kind))
    ensures r.Failure? ==> (r.error == EmojiIndexOutOfRange <==> kind.EnemyNewTimeSuggestions?)
    ensures r.Failure? ==> (r.error == UnexpectedLog <==> kind.ScheduleConfirmation?)
    ensures kind.EnemyNewTimeSuggestions? ==> (r.Failure? <==> |kind.game.suggestions| > |env.emojiNumbers|)
    ensures kind.ScheduleConfirmation? ==> (r.Failure? <==> kind.latestConfirmationLog == Other)
    ensures kind.Base? || kind.OwnNewTimeSuggestions? || kind.GamesOverview? ==> r.Success?
  {
    match kind
    case Base => Success(None)
    case WeeklyNotification(g) =>
      if g.scoutingLink.None? then Failure(MissingOpLink)
      else Success(Some(Render(env, WeeklyUpdateText,
        map["op_link" := g.scoutingLink.value, "enemy_team_tag" := g.enemyTeam.teamTag], g)))
    case NewGame(g) =>
      if g.opLink.None? then Failure(MissingOpLink)
      else Success(Some(Render(env, NextGameInCalibration,
        map["op_link" := g.opLink.value, "enemy_team_tag" := g.enemyTeam.teamTag], g)))
    case NewLineup(g) =>
      if g.scoutingLinkLineup.None? then Failure(MissingOpLink)
      else Success(Some(Render(env, NewLineupText,
        map["op_link" := g.scoutingLinkLineup.value, "enemy_team_tag" := g.enemyTeam.teamTag], g)))
    case NewLineupInCalibration(g) =>
      if g.opLinkLineup.None? then Failure(MissingOpLink)
      else Success(Some(Render(env, NewLineupInCalibrationText,
        map["op_link" := g.opLinkLineup.value, "enemy_team_name" := g.enemyTeam.name], g)))
    case OwnNewTimeSuggestions(g) =>
      Success(Some(Render(env, OwnNewTimeSuggestionText, map[], g)))
    case EnemyNewTimeSuggestions(g) =>
      if |g.suggestions| > |env.emojiNumbers| then Failure(EmojiIndexOutOfRange)
      else
        Success(Some(SuggestionPrefixText(env, g) + Strings.Join(SuggestionLines(env, g.suggestions), "\n")))
    case ScheduleConfirmation(g, log) =>
      (match ConfirmationTemplate(log)
       case None => Failure(UnexpectedLog)
       case Some(key) =>
         Success(Some(Render(env, key,
           map["time" := env.formatDateTime(g.gameBegin), "enemy_team_tag" := g.enemyTeam.teamTag], g))))
    case GamesOverview => Success(Some(Overview(env, team)))
  }

  /** The constructor of each message class: it records the team, reads the
      pin setting (weekly notification only) and generates the text. */
  function Construct(env: Env, team: Team, kind: Kind): (r: Result<Message, BuildError>)
    ensures r.Success? ==> r.value.kind == kind && r.value.team == team
    ensures r.Success? ==> (r.value.text.None? <==> kind.Base?)
    ensures r.Success? ==> (CanBePinned(r.value) <==> kind.WeeklyNotification? && ValueOfSetting(team, Some(PinWeeklyOpLinkKey)))
    ensures NeedsLink(kind) ==> (r.Failure? <==> LinkOf(kind).None?)
    ensures r.Failure? && NeedsLink(kind) ==> r.error == MissingOpLink
    ensures kind.EnemyNewTimeSuggestions? ==> (r.Failure? <==> |kind.game.suggestions| > |env.emojiNumbers|)
    ensures kind.ScheduleConfirmation? ==> (r.Failure? <==> kind.latestConfirmationLog == Other)
    ensures kind.Base? || kind.OwnNewTimeSuggestions? || kind.GamesOverview? ==> r.Success?
  {
    match GenerateMessage(env, team, kind)
    case Failure(e) => Failure(e)
    case Success(text) =>
      var attachable := kind.WeeklyNotification? && ValueOfSetting(team, Some(PinWeeklyOpLinkKey));
      Success(Message(kind, team, text, attachable))
  }

  /** Own and enemy suggestion messages are switched on by the same setting. */
  lemma SuggestionKindsShareSetting(own: Message, enemy: Message)
    requires own.kind.OwnNewTimeSuggestions? && enemy.kind.EnemyNewTimeSuggestions?
    requires own.team == enemy.team
    ensures TeamWantsNotification(own) == TeamWantsNotification(enemy)
    ensures TeamWantsNotification(own) == ValueOfSetting(own.team, Some(SchedulingSuggestionKey))
  {
  }

  /** The enemy suggestion message is its prefix (singular exactly for one
      suggestion) followed by the suggestion lines: split at line breaks,
      the body gives back one line per suggestion, in stored order, each
      starting with its emoji number. */
  lemma EnemySuggestionLines(env: Env, team: Team, g: Game)
    requires 0 < |g.suggestions| <= |env.emojiNumbers|
    requires forall i :: 0 <= i < |g.suggestions| ==>
      '\n' !in env.emojiNumbers[i] && '\n' !in env.formatDateTime(g.suggestions[i])
    ensures Construct(env, team, EnemyNewTimeSuggestions(g)).Success?
    ensures
      var text := Construct(env, team, EnemyNewTimeSuggestions(g)).value.text.value;
      var prefix := SuggestionPrefixText(env, g);
      && |prefix| <= |text| && text[..|prefix|] == prefix
      && var lines := Strings.Split(text[|prefix|..], "\n");
      && |lines| == |g.suggestions|
      && forall i :: 0 <= i < |lines| ==> lines[i] == env.emojiNumbers[i] + env.formatDateTime(g.suggestions[i])
  {
    var lines := SuggestionLines(env, g.suggestions);
    LinesWithoutBreaks(env, g.suggestions);
    Strings.SplitJoinChar(lines, '\n');
    var prefix := SuggestionPrefixText(env, g);
    var body := Strings.Join(lines, "\n");
    EnemySuggestionText(env, team, g);
    assert (prefix + body)[..|prefix|] == prefix && (prefix + body)[|prefix|..] == body;
  }

  /** The enemy suggestion message, when it is built. */
  lemma EnemySuggestionText(env: Env, team: Team, g: Game)
    requires |g.suggestions| <= |env.emojiNumbers|
    ensures Construct(env, team, EnemyNewTimeSuggestions(g))
         == Success(Message(EnemyNewTimeSuggestions(g), team,
              Some(SuggestionPrefixText(env, g) + Strings.Join(SuggestionLines(env, g.suggestions), "\n")), false))
  {
  }

  lemma LinesWithoutBreaks(env: Env, suggestions: seq<Timestamp>)
    requires |suggestions| <= |env.emojiNumbers|
    requires forall i :: 0 <= i < |suggestions| ==>
      '\n' !in env.emojiNumbers[i] && '\n' !in env.formatDateTime(suggestions[i])
    ensures forall k :: 0 <= k < |suggestions| ==> '\n' !in SuggestionLines(env, suggestions)[k]
  {
    var lines := SuggestionLines(env, suggestions);
    forall k | 0 <= k < |lines|
      ensures '\n' !in lines[k]
    {
      assert lines[k] == env.emojiNumbers[k] + env.formatDateTime(suggestions[k]);
    }
  }

  /** Without suggestions the message is the plural prefix alone. */
  lemma EnemyNoSuggestions(env: Env, team: Team, g: Game)
    requires |g.suggestions| == 0
    ensures Construct(env, team, EnemyNewTimeSuggestions(g)).Success?
    ensures Construct(env, team, EnemyNewTimeSuggestions(g)).value.text
         == Some(Render(env, NewTimeSuggestionsPrefix, map["enemy_team_tag" := g.enemyTeam.teamTag], g))
  {
    var prefix := SuggestionPrefixText(env, g);
    assert SuggestionLines(env, g.suggestions) == [];
    assert prefix + Strings.Join([], "\n") == prefix;
  }

  /** The overview message, which is always built. */
  lemma OverviewBuilt(env: Env, team: Team)
    ensures Construct(env, team, GamesOverview) == Success(Message(GamesOverview, team, Some(Overview(env, team)), false))
  {
  }

  /** The overview is the fixed "no open games" text exactly when the team
      has no game that is not closed; otherwise it is the header followed by
      the entries of the open games in game-day order. */
  lemma OverviewText(env: Env, team: Team)
    ensures Construct(env, team, GamesOverview).Success?
    ensures Construct(env, team, GamesOverview).value.text == Some(NoOpenGamesText)
        <==> forall g :: g in team.gamesAgainst ==> g.gameClosed
    ensures (exists g :: g in team.gamesAgainst && !g.gameClosed) ==>
      var games := GamesToPlay(team);
      Construct(env, team, GamesOverview).value.text
        == Some(OverviewHeader + Strings.Join(seq(|games|, i requires 0 <= i < |games| => OverviewEntry(env, games[i])), "\n"))
  {
    OverviewBuilt(env, team);
    var games := GamesToPlay(team);
    if exists g :: g in team.gamesAgainst && !g.gameClosed {
      var g :| g in team.gamesAgainst && !g.gameClosed;
      assert g in games;
    }
  }
}
