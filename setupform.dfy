/**
 * The single-page setup form of src/screens/TeamSetupScreen/index.tsx: a per-side
 * config and the away-team switch, whose toggle decides the team selection.
 */
module SetupForm {
  import opened Basics
  import opened BoardTypes
  import opened Formations
  import opened FormationHooks

  /** The team selection agrees with the away-team switch. */
  predicate SelectionMatchesSwitch(config: SetupConfig, awayEnabled: bool) {
    config.teamSelection == BothTeams <==> awayEnabled
  }

  /** The initial config as the screen writes it: both teams, while the away switch starts off. */
  function WrittenInitialConfig(): SetupConfig {
    SetupConfig(BothTeams, 11, 11, Free, Free, None, None)
  }

  /**
   * As written, the initial config disagrees with the switch being off: it selects both
   * teams, and the synchronous lineup built from it has eleven away tokens.
   */
  lemma WrittenInitialShowsAway(dims: Dims)
    ensures !SelectionMatchesSwitch(WrittenInitialConfig(), false)
    ensures |CreatePlayersFromConfigSync(WrittenInitialConfig(), dims).away| == 11
  {
    var c := WrittenInitialConfig();
    SyncLineupShape(c, SideTable(Home, 11, Free), SideTable(Away, 11, Free), dims);
  }

  /** The initial config that agrees with the switch being off: home team only. */
  function InitialConfig(): SetupConfig {
    SetupConfig(HomeOnly, 11, 11, Free, Free, None, None)
  }

  /** The corrected config agrees with the switch, and its synchronous lineup has no away tokens. */
  lemma InitialConfigShowsNoAway(dims: Dims)
    ensures SelectionMatchesSwitch(InitialConfig(), false)
    ensures |CreatePlayersFromConfigSync(InitialConfig(), dims).away| == 0
    ensures |CreatePlayersFromConfigSync(InitialConfig(), dims).home| == 11
  {
    var c := InitialConfig();
    SyncLineupShape(c, SideTable(Home, 11, Free), SideTable(Away, 11, Free), dims);
  }

  class Form {
    var config: SetupConfig
    var awayEnabled: bool

    ghost predicate Valid()
      reads this
    {
      SelectionMatchesSwitch(config, awayEnabled)
    }

    /**
     * The screen's initial state as written: both teams selected while the away switch
     * starts off, so the selection and the switch disagree until the switch is toggled.
     */
    constructor()
      ensures !Valid()
      ensures config == WrittenInitialConfig() && !awayEnabled
    {
      config := WrittenInitialConfig();
      awayEnabled := false;
    }

    /**
     * `handleAwayTeamToggle`: switching off clears the away team and selects the home
     * team only; switching on selects both teams and keeps the away team id.
     */
    method ToggleAway(enabled: bool)
      modifies this
      ensures Valid()
      ensures awayEnabled == enabled
      ensures !enabled ==> config == old(config).(awayTeamId := None, teamSelection := HomeOnly)
      ensures enabled ==> config == old(config).(teamSelection := BothTeams)
    {
      awayEnabled := enabled;
      if !enabled {
        config := config.(awayTeamId := None, teamSelection := HomeOnly);
      } else {
        config := config.(teamSelection := BothTeams);
      }
    }

    /** `handleHomeTeamSelection`. */
    method SelectHomeTeam(teamId: string)
      modifies this
      ensures Valid() == old(Valid()) && awayEnabled == old(awayEnabled)
      ensures config == old(config).(homeTeamId := Some(teamId))
    {
      config := config.(homeTeamId := Some(teamId));
    }

    /** `handleAwayTeamSelection`. */
    method SelectAwayTeam(teamId: string)
      modifies this
      ensures Valid() == old(Valid()) && awayEnabled == old(awayEnabled)
      ensures config == old(config).(awayTeamId := Some(teamId))
    {
      config := config.(awayTeamId := Some(teamId));
    }

    /** `handleHomePlayerCountSelection`. */
    method SetHomeCount(count: nat)
      modifies this
      ensures Valid() == old(Valid()) && awayEnabled == old(awayEnabled)
      ensures config == old(config).(homePlayerCount := count)
    {
      config := config.(homePlayerCount := count);
    }

    /** `handleAwayPlayerCountSelection`. */
    method SetAwayCount(count: nat)
      modifies this
      ensures Valid() == old(Valid()) && awayEnabled == old(awayEnabled)
      ensures config == old(config).(awayPlayerCount := count)
    {
      config := config.(awayPlayerCount := count);
    }

    /** The home side's tactic setter. */
    method SetHomeTactic(t: Tactic)
      modifies this
      ensures Valid() == old(Valid()) && awayEnabled == old(awayEnabled)
      ensures config == old(config).(homeTacticalType := t)
    {
      config := config.(homeTacticalType := t);
    }

    /** The away side's tactic setter. */
    method SetAwayTactic(t: Tactic)
      modifies this
      ensures Valid() == old(Valid()) && awayEnabled == old(awayEnabled)
      ensures config == old(config).(awayTacticalType := t)
    {
      config := config.(awayTacticalType := t);
    }
  }

  /** A board built from an agreeing config has away tokens only when the away switch is on. */
  lemma AwayTokensFollowSwitch(config: SetupConfig, awayEnabled: bool, dims: Dims)
    requires SelectionMatchesSwitch(config, awayEnabled)
    ensures |CreatePlayersFromConfigSync(config, dims).away| == (if awayEnabled then config.awayPlayerCount else 0)
  {
    SyncLineupShape(config, SideTable(Home, config.homePlayerCount, config.homeTacticalType),
                    SideTable(Away, config.awayPlayerCount, config.awayTacticalType), dims);
  }
}
