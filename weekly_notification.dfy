/** The weekly game-day notification run: for each watched team that wants
    the weekly notification and plays on the current game day, send one
    game-day message for its first game of that day. */
module WeeklyNotification {
  import opened Wrappers
  import opened Models

  /** The telegram groups the run is restricted to. */
  const WatchedTelegramIds: seq<int> := [-500818835, -537735976]

  /** One send_new_game_day call: the game and the pin flag, for the team
      whose loop iteration sent it. */
  datatype Delivery = Delivery(team: Team, game: Game, pin: bool)

  /** teams.filter(telegram_id__in=WatchedTelegramIds), order kept. */
  function Watched(teams: seq<Team>): (watched: seq<Team>)
    ensures forall t :: t in watched <==> t in teams && t.telegramId in WatchedTelegramIds
  {
    if teams == [] then []
    else if teams[0].telegramId in WatchedTelegramIds then [teams[0]] + Watched(teams[1..])
    else Watched(teams[1..])
  }

  /** games.filter(game_day=day).first(): the first game of that day in
      stored order. */
  function FirstGameOn(games: seq<Game>, day: int): (first: Option<Game>)
    ensures first.None? <==> forall g :: g in games ==> g.gameDay != day
    ensures first.Some? ==> exists i :: 0 <= i < |games| && games[i] == first.value && first.value.gameDay == day
                                        && forall j :: 0 <= j < i ==> games[j].gameDay != day
  {
    if games == [] then None
    else if games[0].gameDay == day then Some(games[0])
    else
      var rest := FirstGameOn(games[1..], day);
      assert forall g :: g in games ==> g == games[0] || g in games[1..];
      assert rest.Some? ==> (exists i :: 1 <= i < |games| && games[i] == rest.value && forall j :: 0 <= j < i ==> games[j].gameDay != day);
      rest
  }

  /** The message one team gets from the run, if any. */
  function DeliveryFor(team: Team, day: int): (sent: seq<Delivery>)
    ensures |sent| <= 1
    ensures |sent| == 1 <==> ValueOfSetting(team, Some(WeeklyOpLinkKey)) && exists g :: g in team.gamesAgainst && g.gameDay == day
    ensures forall d :: d in sent ==> d.team == team && Entitled(d, day)
  {
    if !ValueOfSetting(team, Some(WeeklyOpLinkKey)) then []
    else match FirstGameOn(team.gamesAgainst, day)
      case None => []
      case Some(game) => [Delivery(team, game, ValueOfSetting(team, Some(PinWeeklyOpLinkKey)))]
  }

  /** What the loop sends for a list of teams, in loop order. */
  function Plan(teams: seq<Team>, day: int): (sent: seq<Delivery>)
    ensures |sent| <= |teams|
    ensures forall d :: d in sent ==> d.team in teams && Entitled(d, day)
  {
    if teams == [] then []
    else Plan(teams[..|teams| - 1], day) + DeliveryFor(teams[|teams| - 1], day)
  }

  /** The delivery a team qualifies for. */
  predicate Entitled(d: Delivery, day: int)
  {
    && ValueOfSetting(d.team, Some(WeeklyOpLinkKey))
    && FirstGameOn(d.team.gamesAgainst, day) == Some(d.game)
    && d.pin == ValueOfSetting(d.team, Some(PinWeeklyOpLinkKey))
  }

  predicate DistinctTeams(teams: seq<Team>)
  {
    forall i, j :: 0 <= i < j < |teams| ==> teams[i] != teams[j]
  }

  predicate OnePerTeam(sent: seq<Delivery>)
  {
    forall i, j :: 0 <= i < j < |sent| ==> sent[i].team != sent[j].team
  }

  /** `main`: loop over the watched teams and send each qualifying one its
      game-day message; the result lists the sends in order. */
  method SendWeeklyNotifications(teams: seq<Team>, day: int) returns (sent: seq<Delivery>)
    ensures sent == Plan(Watched(teams), day)
    ensures forall d :: d in sent <==> d.team in teams && d.team.telegramId in WatchedTelegramIds && Entitled(d, day)
    ensures DistinctTeams(teams) ==> OnePerTeam(sent)
  {
    var watched := Watched(teams);
    sent := [];
    for i := 0 to |watched|
      invariant sent == Plan(watched[..i], day)
    {
      var team := watched[i];
      assert watched[..i + 1][..i] == watched[..i];
      assert Plan(watched[..i + 1], day) == Plan(watched[..i], day) + DeliveryFor(team, day);
      if ValueOfSetting(team, Some(WeeklyOpLinkKey)) {
        var nextMatch := FirstGameOn(team.gamesAgainst, day);
        if nextMatch.Some? {
          sent := sent + [Delivery(team, nextMatch.value, ValueOfSetting(team, Some(PinWeeklyOpLinkKey)))];
        }
      }
    }
    assert watched[..|watched|] == watched;
    WatchedPlan(teams, day);
  }

  /** What the run sends, over the watched teams: entitled sends to watched
      teams, at most one per team. */
  lemma WatchedPlan(teams: seq<Team>, day: int)
    ensures forall d :: d in Plan(Watched(teams), day) <==>
      d.team in teams && d.team.telegramId in WatchedTelegramIds && Entitled(d, day)
    ensures DistinctTeams(teams) ==> OnePerTeam(Plan(Watched(teams), day))
  {
    forall d
      ensures d in Plan(Watched(teams), day) <==>
        d.team in teams && d.team.telegramId in WatchedTelegramIds && Entitled(d, day)
    {
      PlanMembers(Watched(teams), day, d);
    }
    if DistinctTeams(teams) {
      WatchedDistinct(teams);
      PlanOnePerTeam(Watched(teams), day);
    }
  }

  /** A team gets a message exactly when it is in the list and entitled to
      it, and then for its first game of the day with its pin setting. */
  lemma {:induction false} PlanMembers(teams: seq<Team>, day: int, d: Delivery)
    ensures d in Plan(teams, day) <==> d.team in teams && Entitled(d, day)
    decreases |teams|
  {
    if teams != [] {
      var init, last := teams[..|teams| - 1], teams[|teams| - 1];
      PlanMembers(init, day, d);
      assert teams == init + [last];
      assert d in DeliveryFor(last, day) <==> d.team == last && Entitled(d, day);
    }
  }

  /** Every message of the run goes to a team of the list. */
  lemma PlanTeamsIn(teams: seq<Team>, day: int)
    ensures forall d :: d in Plan(teams, day) ==> d.team in teams
  {
    forall d | d in Plan(teams, day) {
      PlanMembers(teams, day, d);
    }
  }

  /** No team gets two messages from one run when it appears once. */
  lemma {:induction false} PlanOnePerTeam(teams: seq<Team>, day: int)
    requires DistinctTeams(teams)
    ensures OnePerTeam(Plan(teams, day))
    decreases |teams|
  {
    if teams != [] {
      var init, last := teams[..|teams| - 1], teams[|teams| - 1];
      PlanOnePerTeam(init, day);
      PlanTeamsIn(init, day);
      assert last !in init by {
        forall k | 0 <= k < |init| ensures init[k] != last {
          assert init[k] == teams[k];
        }
      }
      var p: seq<Delivery> := Plan(init, day);
      var ds: seq<Delivery> := DeliveryFor(last, day);
      assert |ds| <= 1;
      forall i, j | 0 <= i < j < |p + ds|
        ensures (p + ds)[i].team != (p + ds)[j].team
      {
        if j >= |p| {
          assert (p + ds)[i] == p[i] && p[i] in p;
          assert (p + ds)[j] in ds;
        }
      }
    }
  }

  /** Filtering keeps a list without repeated teams free of them. */
  lemma {:induction false} WatchedDistinct(teams: seq<Team>)
    requires DistinctTeams(teams)
    ensures DistinctTeams(Watched(teams))
    decreases |teams|
  {
    if teams != [] {
      var rest := teams[1..];
      assert DistinctTeams(rest) by {
        forall i, j | 0 <= i < j < |rest| ensures rest[i] != rest[j] {
          assert rest[i] == teams[i + 1] && rest[j] == teams[j + 1];
        }
      }
      WatchedDistinct(rest);
      assert teams[0] !in rest by {
        forall k | 0 <= k < |rest| ensures rest[k] != teams[0] {
          assert rest[k] == teams[k + 1];
        }
      }
      var w := Watched(rest);
      assert teams[0] !in w;
      if teams[0].telegramId in WatchedTelegramIds {
        forall i, j | 0 <= i < j < |[teams[0]] + w|
          ensures ([teams[0]] + w)[i] != ([teams[0]] + w)[j]
        {
          if i == 0 {
            assert ([teams[0]] + w)[j] == w[j - 1] && w[j - 1] in w;
          }
        }
      }
    }
  }
}
