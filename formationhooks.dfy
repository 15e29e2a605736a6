/**
 * The second iteration of the formation helpers, src/hooks/useFormationHelpers.ts:
 * per-side head counts and tactics, roster-derived labels, and a strict-minimum
 * nearest-token fold. The board size and the selection radius come from the
 * board context and are parameters here.
 */
module FormationHooks {
  import opened Basics
  import opened BoardTypes
  import opened Formations
  import opened Proximity
  import opened TeamTypes
  import Helpers

  /** TeamSetupConfig of src/types/navigation.ts. */
  datatype SetupConfig = SetupConfig(
    teamSelection: TeamSelection,
    homePlayerCount: nat,
    awayPlayerCount: nat,
    homeTacticalType: Tactic,
    awayTacticalType: Tactic,
    homeTeamId: Option<string>,
    awayTeamId: Option<string>)

  datatype Lineup = Lineup(home: seq<Token>, away: seq<Token>, ball: Token)

  /** The table one side is laid out on: its tactic's for eleven players, else the dynamic one. */
  function SideTable(side: TeamSide, count: nat, t: Tactic): (positions: seq<Pos>)
    ensures |positions| > 0
  {
    if count == 11 && HookFormation(t).Some? then
      TacticalTableShape(t);
      if side == Home then HookFormation(t).value.home else HookFormation(t).value.away
    else
      DynamicFormationShape(count);
      if side == Home then DynamicFormation(count).home else DynamicFormation(count).away
  }

  /**
   * Each side's table depends only on its own count and tactic: the named table
   * exactly when the count is eleven and the tactic is one this hook knows.
   */
  lemma SideTableChoice(side: TeamSide, count: nat, t: Tactic)
    ensures count == 11 && (t.Free? || t.F442? || t.F433? || t.F352? || t.F4231?) ==>
      SideTable(side, count, t) == (if side == Home then HelpersFormation(t).value.home else HelpersFormation(t).value.away)
    ensures !(count == 11 && (t.Free? || t.F442? || t.F433? || t.F352? || t.F4231?)) ==>
      SideTable(side, count, t) == (if side == Home then DynamicFormation(count).home else DynamicFormation(count).away)
  {
  }

  /** The synchronous lineup once each side's table is chosen. */
  function SyncLineupOn(config: SetupConfig, homeTable: seq<Pos>, awayTable: seq<Pos>, dims: Dims): Lineup
    requires |homeTable| > 0 && |awayTable| > 0
  {
    var home := PositionalPlayers(Home, config.homePlayerCount, homeTable, dims);
    var away := if config.teamSelection == BothTeams
                then PositionalPlayers(Away, config.awayPlayerCount, awayTable, dims) else [];
    Lineup(home, away, InitialBall(dims))
  }

  /** `createPlayersFromConfigSync(config)`: both sides laid out independently, the ball at the centre. */
  function CreatePlayersFromConfigSync(config: SetupConfig, dims: Dims): Lineup {
    SyncLineupOn(config, SideTable(Home, config.homePlayerCount, config.homeTacticalType),
                 SideTable(Away, config.awayPlayerCount, config.awayTacticalType), dims)
  }

  /**
   * On any tables, each side yields exactly its own count of tokens `side-(i+1)`
   * labelled `i+1` on its own table (last entry reused), away only for both teams,
   * and the ball is "ball" at the board centre.
   */
  lemma SyncLineupShape(config: SetupConfig, homeTable: seq<Pos>, awayTable: seq<Pos>, dims: Dims)
    requires |homeTable| > 0 && |awayTable| > 0
    ensures var r := SyncLineupOn(config, homeTable, awayTable, dims);
      |r.home| == config.homePlayerCount &&
      |r.away| == (if config.teamSelection == BothTeams then config.awayPlayerCount else 0) &&
      (forall i :: 0 <= i < |r.home| ==>
        r.home[i].id == TokenId(Home, i) && r.home[i].labelText == DefaultLabel(i) &&
        r.home[i].x == BoardX(PositionAt(homeTable, i), dims) &&
        r.home[i].y == BoardY(PositionAt(homeTable, i), dims)) &&
      (forall i :: 0 <= i < |r.away| ==>
        r.away[i].id == TokenId(Away, i) && r.away[i].labelText == DefaultLabel(i) &&
        r.away[i].x == BoardX(PositionAt(awayTable, i), dims) &&
        r.away[i].y == BoardY(PositionAt(awayTable, i), dims)) &&
      r.ball.id == BALL_ID && r.ball.side == Ball &&
      r.ball.x == dims.width * 0.5 && r.ball.y == dims.height * 0.5
  {
    PositionalPlayersShape(Home, config.homePlayerCount, homeTable, dims);
    PositionalPlayersShape(Away, config.awayPlayerCount, awayTable, dims);
  }

  /** JavaScript truthiness of an optional string: present and not empty. */
  predicate Truthy(s: Option<string>) {
    s.Some? && s.value != ""
  }

  /** The label of token i: the i-th roster player's display name, else name, else `i+1`. */
  function RosterLabel(team: Option<Team>, i: nat): string {
    if team.Some? && i < |team.value.players| then
      var p := team.value.players[i];
      if Truthy(p.displayName) then p.displayName.value
      else if p.name != "" then p.name
      else DefaultLabel(i)
    else DefaultLabel(i)
  }

  /** The async `createPositionalPlayers` with the roster (already looked up) attached. */
  function TeamPlayers(side: TeamSide, count: nat, positions: seq<Pos>, team: Option<Team>, dims: Dims): seq<Token>
    requires |positions| > 0
  {
    seq(count, i requires 0 <= i < count =>
      var p := PositionAt(positions, i);
      Token(TokenId(side, i), BoardX(p, dims), BoardY(p, dims), side, RosterLabel(team, i), None,
            if team.Some? then Some(team.value.id) else None,
            if team.Some? && i < |team.value.players| then Some(team.value.players[i].id) else None))
  }

  /** The async lineup once each side's table is chosen and its roster looked up. */
  function TeamLineupOn(config: SetupConfig, homeTable: seq<Pos>, awayTable: seq<Pos>,
                        homeTeam: Option<Team>, awayTeam: Option<Team>, dims: Dims): Lineup
    requires |homeTable| > 0 && |awayTable| > 0
  {
    var home := TeamPlayers(Home, config.homePlayerCount, homeTable, homeTeam, dims);
    var away := if config.teamSelection == BothTeams
                then TeamPlayers(Away, config.awayPlayerCount, awayTable, awayTeam, dims) else [];
    Lineup(home, away, InitialBall(dims))
  }

  /**
   * `createPlayersFromConfig(config)`: the synchronous layout, labelled from the
   * rosters of the teams the config's ids resolve to (passed in already resolved).
   */
  function CreatePlayersFromConfig(config: SetupConfig, homeTeam: Option<Team>, awayTeam: Option<Team>, dims: Dims): Lineup {
    TeamLineupOn(config, SideTable(Home, config.homePlayerCount, config.homeTacticalType),
                 SideTable(Away, config.awayPlayerCount, config.awayTacticalType), homeTeam, awayTeam, dims)
  }

  /**
   * With a roster, token i of a side is labelled with player i's display name,
   * else name, else `i+1`, and carries the team's id and player i's id; past the
   * roster only the team id is set.
   */
  lemma TeamPlayersLabels(side: TeamSide, count: nat, positions: seq<Pos>, team: Team, dims: Dims, i: nat)
    requires |positions| > 0 && i < count
    ensures var t := TeamPlayers(side, count, positions, Some(team), dims)[i];
      t.teamId == Some(team.id) &&
      (i < |team.players| ==>
        t.playerId == Some(team.players[i].id) &&
        (Truthy(team.players[i].displayName) ==> t.labelText == team.players[i].displayName.value) &&
        (!Truthy(team.players[i].displayName) && team.players[i].name != "" ==> t.labelText == team.players[i].name) &&
        (!Truthy(team.players[i].displayName) && team.players[i].name == "" ==> t.labelText == DefaultLabel(i))) &&
      (i >= |team.players| ==> t.playerId.None? && t.labelText == DefaultLabel(i))
  {
  }

  /** Without rosters the async version builds exactly the synchronous lineup, on any tables. */
  lemma TeamLineupWithoutTeams(config: SetupConfig, homeTable: seq<Pos>, awayTable: seq<Pos>, dims: Dims)
    requires |homeTable| > 0 && |awayTable| > 0
    ensures TeamLineupOn(config, homeTable, awayTable, None, None, dims) == SyncLineupOn(config, homeTable, awayTable, dims)
  {
    assert TeamPlayers(Home, config.homePlayerCount, homeTable, None, dims)
        == PositionalPlayers(Home, config.homePlayerCount, homeTable, dims);
    assert TeamPlayers(Away, config.awayPlayerCount, awayTable, None, dims)
        == PositionalPlayers(Away, config.awayPlayerCount, awayTable, dims);
  }

  /** Hence createPlayersFromConfig with no team found agrees with createPlayersFromConfigSync. */
  lemma CreatePlayersWithoutTeams(config: SetupConfig, dims: Dims)
    ensures CreatePlayersFromConfig(config, None, None, dims) == CreatePlayersFromConfigSync(config, dims)
  {
    TeamLineupWithoutTeams(config, SideTable(Home, config.homePlayerCount, config.homeTacticalType),
                           SideTable(Away, config.awayPlayerCount, config.awayTacticalType), dims);
  }

  /** `applyTacticalFormation(players, tacticalType)` of the hook, over its five tactics. */
  function ApplyTacticalFormation(players: seq<Token>, t: Tactic, dims: Dims): (r: seq<Token>)
    ensures HookFormation(t).None? ==> r == players
    ensures |r| == |players|
    ensures forall i :: 0 <= i < |players| ==> r[i] == players[i].(x := r[i].x, y := r[i].y)
    ensures forall i :: 0 <= i < |players| && players[i].side == Ball ==> r[i] == players[i]
  {
    ApplyFormationFrame(players, HookFormation(t), dims);
    ApplyFormation(players, HookFormation(t), dims)
  }

  /** The fold's accumulator: nothing yet (distance Infinity), or a token with its squared distance. */
  datatype Best = NoneYet | Found(player: Token, dist: real)

  /** One step of the reduce: take the token if it is inside the circle and strictly nearer. */
  function Step(best: Best, cur: Token, px: real, py: real, r2: real): Best {
    var d := SquaredDistance(cur, px, py);
    if d < r2 && (best.NoneYet? || d < best.dist) then Found(cur, d) else best
  }

  /** `players.reduce(step, {player: null, dist: Infinity})`. */
  function Fold(best: Best, tokens: seq<Token>, px: real, py: real, r2: real): Best
    decreases |tokens|
  {
    if tokens == [] then best
    else Fold(Step(best, tokens[0], px, py, r2), tokens[1..], px, py, r2)
  }

  function Chosen(best: Best): Option<Token> {
    if best.Found? then Some(best.player) else None
  }

  /** `findNearestPlayer(x, y, players)` of the hook, with the context's radius as a parameter. */
  function FindNearestPlayer(x: JsNumber, y: JsNumber, players: seq<Token>, radius: real): Option<Token> {
    if |players| == 0 then None
    else if x.NonFinite? || y.NonFinite? then None
    else Chosen(Fold(NoneYet, players, x.value, y.value, radius * radius))
  }

  /** Combines an accumulator with a later candidate the way the fold would. */
  function Merge(best: Best, n: Option<Token>, px: real, py: real): Best {
    if n.None? then best
    else
      var d := SquaredDistance(n.value, px, py);
      if best.NoneYet? || d < best.dist then Found(n.value, d) else best
  }

  predicate Consistent(best: Best, px: real, py: real) {
    best.Found? ==> best.dist == SquaredDistance(best.player, px, py)
  }

  /** Folding a list equals merging the accumulator with the list's earliest nearest token. */
  lemma {:induction false} FoldIsMerge(best: Best, tokens: seq<Token>, px: real, py: real, r2: real)
    requires Consistent(best, px, py)
    ensures Fold(best, tokens, px, py, r2) == Merge(best, Nearest(tokens, px, py, r2), px, py)
    decreases |tokens|
  {
    if tokens != [] {
      var t := tokens[0];
      var rest := tokens[1..];
      var step := Step(best, t, px, py, r2);
      FoldIsMerge(step, rest, px, py, r2);
      NearestSpec(rest, px, py, r2);
      var n := Nearest(rest, px, py, r2);
      if n.Some? {
        var i :| IsEarliestNearest(rest, i, px, py, r2) && n.value == rest[i];
        assert SquaredDistance(n.value, px, py) < r2;
      }
    }
  }

  /**
   * The hook's findNearestPlayer finds nothing for an empty list, a non-finite
   * point, or no token within the radius; otherwise it finds the token of least
   * squared distance, the earliest on ties.
   */
  lemma FindNearestPlayerSpec(x: JsNumber, y: JsNumber, players: seq<Token>, radius: real)
    ensures var r := FindNearestPlayer(x, y, players, radius);
      (|players| == 0 || x.NonFinite? || y.NonFinite? ==> r.None?) &&
      (x.Finite? && y.Finite? ==>
        r == Nearest(players, x.value, y.value, radius * radius) &&
        (r.None? <==> forall k :: 0 <= k < |players| ==>
                        SquaredDistance(players[k], x.value, y.value) >= radius * radius) &&
        (r.Some? ==> exists i :: IsEarliestNearest(players, i, x.value, y.value, radius * radius) &&
                                 r.value == players[i]))
  {
    if x.Finite? && y.Finite? {
      FoldIsMerge(NoneYet, players, x.value, y.value, radius * radius);
      NearestSpec(players, x.value, y.value, radius * radius);
    }
  }

  /**
   * Given helpers.ts's radius of 16, the hook's strict-minimum fold and the
   * sort-based findNearestPlayer of helpers.ts pick the same token.
   */
  lemma NearestPlayerVersionsAgree(x: JsNumber, y: JsNumber, players: seq<Token>)
    ensures FindNearestPlayer(x, y, players, Helpers.SELECTION_RADIUS) == Helpers.FindNearestPlayer(x, y, players)
  {
    FindNearestPlayerSpec(x, y, players, Helpers.SELECTION_RADIUS);
    Helpers.FindNearestPlayerSpec(x, y, players);
  }
}
