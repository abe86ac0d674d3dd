# Prime League bot notifications and settings conversation, modelled in Dafny

This project models three deterministic parts of the Prime League team bot:

- **Notification messages** (`communication_interfaces/messages.py`), in `messages.dfy`.
  Each message class becomes one constructor of the tagged union `Messages.Kind`.
  Building a message (`Messages.Construct`) records the team, reads the pin setting and generates the text.
  It fails with `MissingOpLink` where the source raises on a missing enemy link.
  It also decides the setting key, the title, the mentionable flag and pinnability.
  The suggestion list, the confirmation text and the games overview follow the source line by line.
- **Registration and settings conversation** (`telegram_interface/botfather.py`), in `botfather.dfy`.
  Each handler is a function from the incoming message to an `Outcome`.
  An outcome holds the next state, the reply, and the `update_team` call it makes, if any.
  The states table feeds text messages to the handlers (`BotFather.OnText`), and `BotFather.Converse` runs a conversation.
  The team-id parser `link.split("/teams/")[-1].split("-")[0]` is modelled on a faithful model of Python's `str.split` (`strings.dfy`).
- **Weekly game-day notification run** (`scripts/weekly_notification.py`), in `weekly_notification.dfy`.
  A method loops over the watched teams.
  For each team whose weekly setting is on and which has a game on the current game day, it records one `send_new_game_day(game, pin)` call.

Shared records (`Team`, `Game`, `EnemyTeam`) and the setting lookup are in `models.dfy`; `Option`/`Result` are in `wrappers.dfy`.

Outside inputs are parameters of the model:
- `Messages.Env` holds the German language table, `str.format` with the game's attributes, the babel date formatter and the emoji constants.
- `BotFather.Texts` holds the bot's fixed texts and the `SETTINGS` table.
- `register_team` is a function parameter.
- The current game day and the team list from the database are method arguments.

In the bot:
- A message can be pinned only when it is the weekly notification and the team's `pin_weekly_op_link` setting is on.
- Whether a message mentions the group is a per-class constant.
- The confirmation message receives the latest confirmation log from the log classes in `parsing/parser.py`, which are not modelled. Here that log is a tag.

## Model

| member | source | states |
|---|---|---|
| `Messages.Key` | communication_interfaces/messages.py:18-191 | The setting key of a kind is absent exactly for the base class and for NewLineupInCalibrationMessage, which does not override `_key`; own and enemy suggestions both use `scheduling_suggestion` |
| `Messages.Mentionable` | communication_interfaces/messages.py:18-191 | Every message kind is mentionable except the base class and the games overview |
| `Messages.GenerateTitle` | communication_interfaces/messages.py:32-33 | The title is absent exactly for the base class and the overview; both lineup kinds share the new-lineup title |
| `Messages.TeamWantsNotification` | communication_interfaces/messages.py:35-36 | A message is wanted exactly when its kind has a key and the team's setting under that key is on |
| `Messages.SuggestionPrefix` | communication_interfaces/messages.py:152-155 | The singular prefix is chosen exactly for one suggestion, the plural one for any other count including zero |
| `Messages.ConfirmationTemplate` | communication_interfaces/messages.py:177-183 | Auto-confirmation gives the auto text, confirmation the confirmation text, a time change the game-begin-change text; any other log fails the assertion |
| `Messages.OpenGames` | communication_interfaces/messages.py:198 | The filtered games are exactly the team's games that are not closed, each open game kept as often as it occurs and every closed game dropped (multiset equality) |
| `Messages.InsertByGameDay` | communication_interfaces/messages.py:198 | Inserting into a game-day-ordered list keeps it ordered and adds exactly that game |
| `Messages.SortByGameDay` | communication_interfaces/messages.py:198 | Ordering by game day yields an ordered permutation of its input |
| `Messages.GamesToPlay` | communication_interfaces/messages.py:198 | The overview's games are a permutation of the open games, ordered ascending by game day |
| `Messages.Construct` | communication_interfaces/messages.py:23-207 | A built message keeps its kind and team and has text unless it is the base class. `can_be_pinned` (`CanBePinned`, which reads the `_attachable` flag the constructor sets) is true exactly for the weekly notification with the pin setting on. Each link kind fails, with MissingOpLink, exactly when its link getter gives None. Enemy suggestions fail exactly when there are more suggestions than emoji numbers. A confirmation fails exactly for an unknown log. Base, own-suggestion and overview messages always build |
| `Messages.GenerateMessage` | communication_interfaces/messages.py:56-207 | `_generate_message` yields no text only for the base class. It raises MissingOpLink exactly for a link kind whose getter gives None, EmojiIndexOutOfRange exactly for more suggestions than emoji numbers, and UnexpectedLog exactly for a confirmation with an unknown log. Base, own-suggestion and overview texts never fail |
| `Messages.IntToString` | communication_interfaces/messages.py:203 | `str(n)`: a non-negative number gives decimal digits whose value is n; a negative one gives "-" then the digits of -n |
| `Messages.NatToString` | communication_interfaces/messages.py:203 | The digits of a non-negative number denote that number and have no leading zero |
| `Messages.OverviewEntry` | communication_interfaces/messages.py:203-204 | An entry starts with "[Spieltag " and the game day followed by "](" and ends with ")" and a newline |
| `Messages.Overview` | communication_interfaces/messages.py:198-207 | The text is the fixed "no open games" text exactly when every game of the team is closed, and starts with the overview header exactly when some game is open |
| `Messages.SuggestionKindsShareSetting` | communication_interfaces/messages.py:122-141 | Own and enemy suggestion messages for one team are wanted or unwanted together, by the `scheduling_suggestion` setting |
| `Messages.EnemySuggestionLines` | communication_interfaces/messages.py:148-158 | The text starts with the prefix; split at newlines, the rest gives one line per suggestion, in stored order, line i being emoji number i followed by the formatted time |
| `Messages.EnemyNoSuggestions` | communication_interfaces/messages.py:152-158 | With no suggestions the text is the plural prefix alone |
| `Messages.OverviewText` | communication_interfaces/messages.py:197-207 | The overview text is "Ihr habt aktuell keine offenen Spiele." exactly when no game of the team is open. Otherwise it is the header followed by the newline-joined entries of the open games in game-day order |
| `Strings.FindFrom` | telegram_interface/botfather.py:37 | The index found is the first occurrence of the separator at or after the start; none is found only when there is none |
| `Strings.Split` | telegram_interface/botfather.py:37 | Splitting gives at least one piece; neither the first nor the last piece contains the separator |
| `Strings.JoinSplit` | telegram_interface/botfather.py:37 | Joining the pieces of a split with the separator gives back the original string |
| `Strings.JoinEnds` | communication_interfaces/messages.py:158 | `sep.join` of nothing is empty; otherwise the result starts with the first part and ends with the last |
| `Strings.SplitJoinChar` | communication_interfaces/messages.py:158 | Joining lines free of a character with it, and splitting again at it, gives back the lines |
| `BotFather.Code` | telegram_interface/botfather.py:14 | Every state stands for an integer in -1..4, and -1 (ConversationHandler.END) exactly for END |
| `BotFather.Converse` | telegram_interface/botfather.py:184-195 | A run of text messages from END does nothing. Otherwise it ends at END or at a state no earlier than the start. It writes at most one update per message, each for the conversation's own chat |
| `BotFather.StateCodes` | telegram_interface/botfather.py:14 | The five states stand for distinct integers 0..4, distinct from END |
| `BotFather.Start` | telegram_interface/botfather.py:17-24 | A group chat moves to TEAM_ID, any other chat type ends the conversation; no team update |
| `BotFather.ExtractTeamId` | telegram_interface/botfather.py:37 | The extracted id contains neither "-" nor "/teams/" |
| `BotFather.ExtractTeamIdFromLink` | telegram_interface/botfather.py:35-37 | A link with a single "/teams/", followed by an id without "-" and then nothing or "-" and a slug, yields exactly that id |
| `BotFather.GetTeamId` | telegram_interface/botfather.py:35-49 | The state stays TEAM_ID when register_team returns None for the extracted id and moves to SETTING1 otherwise; then the reply starts with "Erkannte TeamID: " and the id |
| `BotFather.Flatten` | telegram_interface/botfather.py:54 | A button is in the flattened keyboard exactly when it is in one of its rows |
| `BotFather.AnswerSetting` | telegram_interface/botfather.py:52-139 | An answer that is not on question k's keyboard keeps the state and updates nothing. A keyboard answer writes exactly one setting, question k's name, as answer == "Ja", and moves to the next question, or to END after the last |
| `BotFather.WeeklyOpLink` | telegram_interface/botfather.py:52-72 | The first question stays at SETTING1 or moves to SETTING2 |
| `BotFather.LineupOpLink` | telegram_interface/botfather.py:75-95 | The second question stays at SETTING2 or moves to SETTING3 |
| `BotFather.SchedulingSuggestion` | telegram_interface/botfather.py:98-117 | The third question stays at SETTING3 or moves to SETTING4 |
| `BotFather.SchedulingConfirmation` | telegram_interface/botfather.py:120-139 | The last question stays at SETTING4 or ends the conversation |
| `BotFather.Cancel` | telegram_interface/botfather.py:142-145 | Always ends the conversation, removes the keyboard, updates nothing |
| `BotFather.HelpCommand` | telegram_interface/botfather.py:148-150 | Always ends the conversation, removes the keyboard, updates nothing |
| `BotFather.Issue` | telegram_interface/botfather.py:153-155 | Always ends the conversation, removes the keyboard, updates nothing |
| `BotFather.Feedback` | telegram_interface/botfather.py:158-160 | Always ends the conversation, removes the keyboard, updates nothing |
| `BotFather.StartSettings` | telegram_interface/botfather.py:163-169 | Always moves to SETTING1, asking the first question (SETTINGS[TEAM_ID]) after the settings intro; updates nothing |
| `BotFather.OnText` | telegram_interface/botfather.py:184-195 | Every state but END has a text handler |
| `BotFather.HandlersMoveForward` | telegram_interface/botfather.py:184-195 | Each handler keeps its state or moves to the next one, and the last question moves to END |
| `BotFather.SettingsConversation` | telegram_interface/botfather.py:52-139 | From SETTING1, four keyboard answers end the conversation after writing the four settings once each, in question order |
| `WeeklyNotification.Watched` | scripts/weekly_notification.py:16 | Exactly the teams whose telegram id is -500818835 or -537735976 remain |
| `WeeklyNotification.FirstGameOn` | scripts/weekly_notification.py:19 | Nothing is found exactly when no game is on the day; otherwise the first game of that day in stored order |
| `WeeklyNotification.DeliveryFor` | scripts/weekly_notification.py:18-22 | One loop iteration sends at most one message. It sends one exactly when the team's weekly setting is on and it has a game that day, and that message is for the team, for its first game of the day, with its pin setting |
| `WeeklyNotification.Plan` | scripts/weekly_notification.py:17-22 | The loop sends at most one message per team of the list, each to a listed team that is entitled to it |
| `WeeklyNotification.SendWeeklyNotifications` | scripts/weekly_notification.py:10-22 | The sends equal the plan over the watched teams. A send for a team happens exactly when the team is watched, its weekly setting is on and it has a game that day. That send is for its first game of the day, with the pin flag equal to its pin setting. Each team of a list without repeats gets at most one send |
| `WeeklyNotification.WatchedPlan` | scripts/weekly_notification.py:16-22 | Over the watched teams, a send is planned exactly for a watched team of the list that is entitled to it, and a list without repeated teams gives at most one send per team |
| `WeeklyNotification.PlanMembers` | scripts/weekly_notification.py:17-22 | A send is in the plan exactly when its team is in the list and entitled to it |
| `WeeklyNotification.PlanOnePerTeam` | scripts/weekly_notification.py:17-22 | A list of distinct teams yields at most one send per team |
| `WeeklyNotification.WatchedDistinct` | scripts/weekly_notification.py:16 | Filtering the teams keeps them distinct |

## Left out

- `Models.ValueOfSetting` models `Team.value_of_setting`, which is defined in `app_prime_league/models.py`; that file is not part of this model. A setting that was never stored, and a lookup under no key, read as off here. This matters for NewLineupInCalibrationMessage, which looks up no key.
- `parsing/parser.py` (the log classes and the log diff) is not part of this model. The latest confirmation log arrives as the tag `ConfirmationLog`.
- The German language table, `str.format(**vars(game))` and babel's `format_datetime` are opaque functions in `Messages.Env`. Python's `TypeError` when a game attribute clashes with a named format argument is not modelled.
- `Messages.SortByGameDay`: the database's `order_by("game_day")` leaves games of the same day in no stated order; the model keeps them in stored order.
- The ORM queries are inputs: `Team.gamesAgainst` stands for `games_against`, `Game.suggestions` for `suggestion_set.all()`, and the team list for `get_watched_team_of_current_split()`. `current_game_day()` is the `day` argument.
- The `Game.gameId` and `Game.gameDay` fields are integers; a missing database value (None) is not modelled.
- `reply_text` is kept only as the `Reply` value of an outcome. `markdown=True` and the one-time-keyboard flag are dropped. `register_team` and `update_team` are a function parameter and a recorded `TeamUpdate`. Their database effects are not modelled.
- `telegram_interface/messages.py` (START_GROUP, SETTINGS and the other texts) is not part of this model; its contents are the `Texts` parameter.
- `bop`, `BotFather.run` beyond its states table, the fallback and command routing of python-telegram-bot, and the polling loop are library wiring and HTTP; they are not modelled.
- `TelegramMessagesWrapper.send_new_game_day` and logging are I/O. A send is recorded as a `Delivery` of team, game and pin flag.
- `WeeklyNotification.PlanOnePerTeam` and the last ensures of `SendWeeklyNotifications` assume the team list has no repeats, as a database query result has none.
