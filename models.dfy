/** The database records the notification code reads: teams, their games and
    the enemy team of a game. Only the attributes the core reads are kept. */
module Models {
  import opened Wrappers

  /** A point in time (a game begin or a suggested begin). */
  type Timestamp = int

  datatype EnemyTeam = EnemyTeam(name: string, teamTag: string)

  /** One game of a watched team against an enemy team. The four op-link
      getters of the game are inputs: each may come back empty. */
  datatype Game = Game(
    gameId: int,
    gameDay: int,
    gameClosed: bool,
    gameBegin: Timestamp,
    enemyTeam: EnemyTeam,
    // get_scouting_link_of_enemies(only_lineup=False / True)
    scoutingLink: Option<string>,
    scoutingLinkLineup: Option<string>,
    // get_op_link_of_enemies(only_lineup=False / True)
    opLink: Option<string>,
    opLinkLineup: Option<string>,
    // the game_begin values of game.suggestion_set, in stored order
    suggestions: seq<Timestamp>)

  /** A registered team: its telegram group, its boolean settings by name and
      the games it plays (games_against), in primary-key order. */
  datatype Team = Team(telegramId: int, settings: map<string, bool>, gamesAgainst: seq<Game>)

  const WeeklyOpLinkKey := "weekly_op_link"
  const PinWeeklyOpLinkKey := "pin_weekly_op_link"
  const NewGameKey := "new_game_notification"
  const LineupOpLinkKey := "lineup_op_link"
  const SchedulingSuggestionKey := "scheduling_suggestion"
  const SchedulingConfirmationKey := "scheduling_confirmation"
  const OverviewKey := "overview"

  /** Team.value_of_setting: the stored value of a setting; a setting that
      was never stored, or a lookup without a key, reads as off. */
  function ValueOfSetting(team: Team, key: Option<string>): bool
  {
    match key
    case None => false
    case Some(k) => k in team.settings && team.settings[k]
  }
}
