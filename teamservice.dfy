/**
 * The roster transforms of src/services/teamService.ts. The stored team list is a
 * field of TeamStore; every operation is one load, change and save of that list.
 * The clock (`Date.now()`) is the parameter `now`.
 */
module TeamService {
  import opened Basics
  import opened Strings
  import opened TeamTypes

  /** Stored roster data: the legacy list of names, or the current list of players. */
  datatype LegacyPlayers = Names(names: seq<string>) | Records(players: seq<Player>)

  /** A player as entered: everything but the id. */
  datatype PlayerInput = PlayerInput(name: string, displayName: Option<string>,
                                     position: Option<FieldPosition>, number: Option<int>)

  datatype CreateTeamInput = CreateTeamInput(name: string, players: seq<PlayerInput>)

  /** Only the id is required; an absent name or player list keeps the stored one. */
  datatype UpdateTeamInput = UpdateTeamInput(id: string, name: Option<string>, players: Option<seq<PlayerInput>>)

  datatype TeamError = TeamNotFound

  /** `player-${now}-${index}`. */
  function FreshPlayerId(now: nat, index: nat): string {
    "player-" + NatToString(now) + "-" + NatToString(index)
  }

  /** Ids minted at the same instant differ for different indices. */
  lemma FreshPlayerIdInjective(now: nat, i: nat, j: nat)
    requires FreshPlayerId(now, i) == FreshPlayerId(now, j)
    ensures i == j
  {
    SamePrefixCancels("player-" + NatToString(now) + "-", NatToString(i), NatToString(j));
    NatToStringInjective(i, j);
  }

  /**
   * `migratePlayerData`: nothing from an empty list, a player list as it is, and a
   * name list as players with trimmed names and fresh ids.
   */
  function MigratePlayerData(data: LegacyPlayers, now: nat): (r: seq<Player>)
  {
    match data
    case Records(players) => players
    case Names(names) =>
      seq(|names|, i requires 0 <= i < |names| => Player(FreshPlayerId(now, i), Trim(names[i]), None, None, None))
  }

  /**
   * Migration keeps the number of entries and their order; names become trimmed
   * players with pairwise distinct ids, and stored players come back untouched.
   */
  lemma MigratePlayerDataSpec(data: LegacyPlayers, now: nat)
    ensures var r := MigratePlayerData(data, now);
      (data.Records? ==> r == data.players) &&
      (data.Names? ==>
        |r| == |data.names| &&
        (forall i :: 0 <= i < |r| ==> r[i].name == Trim(data.names[i]) && r[i].displayName.None? &&
                                      r[i].position.None? && r[i].number.None?) &&
        (forall i, j :: 0 <= i < j < |r| ==> r[i].id != r[j].id))
  {
    if data.Names? {
      var r := MigratePlayerData(data, now);
      forall i, j | 0 <= i < j < |r| ensures r[i].id != r[j].id {
        if r[i].id == r[j].id {
          FreshPlayerIdInjective(now, i, j);
        }
      }
    }
  }

  /** Migrating migrated data changes nothing, whatever the clock says the second time. */
  lemma MigrateIdempotent(data: LegacyPlayers, now: nat, later: nat)
    ensures MigratePlayerData(Records(MigratePlayerData(data, now)), later) == MigratePlayerData(data, now)
  {
  }

  /** The player built from an input with the given id: trimmed name, other fields copied. */
  function FromInput(p: PlayerInput, id: string): Player {
    Player(id, Trim(p.name), p.displayName, p.position, p.number)
  }

  /** The team built by `createTeam`. */
  function NewTeam(input: CreateTeamInput, now: nat): Team {
    Team("team-" + NatToString(now), Trim(input.name),
         seq(|input.players|, i requires 0 <= i < |input.players| => FromInput(input.players[i], FreshPlayerId(now, i))),
         now, now)
  }

  /** A new team has the trimmed name and one player per input, in order, with distinct ids. */
  lemma NewTeamSpec(input: CreateTeamInput, now: nat)
    ensures var t := NewTeam(input, now);
      t.name == Trim(input.name) && t.createdAt == now && t.updatedAt == now &&
      |t.players| == |input.players| &&
      (forall i :: 0 <= i < |t.players| ==>
         t.players[i].name == Trim(input.players[i].name) &&
         t.players[i].displayName == input.players[i].displayName &&
         t.players[i].position == input.players[i].position &&
         t.players[i].number == input.players[i].number) &&
      (forall i, j :: 0 <= i < j < |t.players| ==> t.players[i].id != t.players[j].id)
  {
    var t := NewTeam(input, now);
    forall i, j | 0 <= i < j < |t.players| ensures t.players[i].id != t.players[j].id {
      if t.players[i].id == t.players[j].id {
        FreshPlayerIdInjective(now, i, j);
      }
    }
  }

  /**
   * The id of updated player `index`: the stored id of the player at the same index
   * when the entered (untrimmed) name equals its name and that id is not empty,
   * else a fresh one.
   */
  function KeptOrFreshId(existing: seq<Player>, p: PlayerInput, index: nat, now: nat): string {
    if index < |existing| && p.name == existing[index].name && existing[index].id != "" then existing[index].id
    else FreshPlayerId(now, index)
  }

  /** The players written back by `updateTeam`: the stored ones when none are given. */
  function UpdatedPlayers(existing: seq<Player>, input: Option<seq<PlayerInput>>, now: nat): seq<Player> {
    match input
    case None => existing
    case Some(ps) => seq(|ps|, i requires 0 <= i < |ps| => FromInput(ps[i], KeptOrFreshId(existing, ps[i], i, now)))
  }

  /** The team written back by `updateTeam`. */
  function UpdatedTeam(existing: Team, input: UpdateTeamInput, now: nat): Team {
    var name := if input.name.Some? && Trim(input.name.value) != "" then Trim(input.name.value) else existing.name;
    existing.(name := name, players := UpdatedPlayers(existing.players, input.players, now), updatedAt := now)
  }

  /**
   * An update keeps the id and creation date, stamps the update time, takes the
   * trimmed new name unless it is blank or absent, and rebuilds the players as
   * UpdatedPlayers does.
   */
  lemma UpdatedTeamSpec(existing: Team, input: UpdateTeamInput, now: nat)
    ensures var t := UpdatedTeam(existing, input, now);
      t.players == UpdatedPlayers(existing.players, input.players, now) &&
      t.id == existing.id && t.createdAt == existing.createdAt && t.updatedAt == now &&
      (input.name.Some? && Trim(input.name.value) != "" ==> t.name == Trim(input.name.value)) &&
      (input.name.None? || Trim(input.name.value) == "" ==> t.name == existing.name)
  {
  }

  /**
   * An update keeps the players when none are given, and otherwise rebuilds them in
   * order from the input, each keeping its stored id when its entered name equals the
   * stored name at that index (and the stored id is not empty), else getting a fresh one.
   */
  lemma UpdatedPlayersSpec(existing: seq<Player>, input: Option<seq<PlayerInput>>, now: nat)
    ensures var r := UpdatedPlayers(existing, input, now);
      (input.None? ==> r == existing) &&
      (input.Some? ==>
        |r| == |input.value| &&
        forall i :: 0 <= i < |r| ==>
          r[i] == FromInput(input.value[i], r[i].id) &&
          (if i < |existing| && input.value[i].name == existing[i].name && existing[i].id != ""
           then r[i].id == existing[i].id
           else r[i].id == FreshPlayerId(now, i)))
  {
  }

  /**
   * `teams.findIndex(team => team.id === id)`: the first index holding `id`, or -1.
   * The same search as BoardTypes.IndexOfId, over teams instead of tokens.
   */
  function TeamIndex(teams: seq<Team>, id: string): (k: int)
    ensures -1 <= k < |teams|
    ensures k == -1 <==> forall j :: 0 <= j < |teams| ==> teams[j].id != id
    ensures k >= 0 ==> teams[k].id == id && forall j :: 0 <= j < k ==> teams[j].id != id
  {
    if teams == [] then -1
    else if teams[0].id == id then 0
    else
      var k := TeamIndex(teams[1..], id);
      if k == -1 then -1 else k + 1
  }

  /** `teams.find(team => team.id === id) || null`: the first team with the id. */
  function FindTeam(teams: seq<Team>, id: string): (r: Option<Team>)
    ensures r.None? <==> forall j :: 0 <= j < |teams| ==> teams[j].id != id
    ensures r.Some? ==> r.value in teams && r.value.id == id
    ensures r.Some? ==> exists k :: 0 <= k < |teams| && teams[k] == r.value &&
                                    forall j :: 0 <= j < k ==> teams[j].id != id
  {
    var k := TeamIndex(teams, id);
    if k == -1 then None else Some(teams[k])
  }

  /** `teams.filter(team => team.id !== id)`. */
  function WithoutTeam(teams: seq<Team>, id: string): seq<Team> {
    if teams == [] then []
    else (if teams[0].id == id then [] else [teams[0]]) + WithoutTeam(teams[1..], id)
  }

  /**
   * Deleting removes exactly the teams with that id: what remains has other ids,
   * every other team remains, and nothing changes when no team has the id.
   */
  lemma {:induction false} WithoutTeamSpec(teams: seq<Team>, id: string)
    ensures var r := WithoutTeam(teams, id);
      |r| <= |teams| &&
      (forall t :: t in r <==> t in teams && t.id != id) &&
      ((forall k :: 0 <= k < |teams| ==> teams[k].id != id) ==> r == teams)
  {
    if teams != [] {
      WithoutTeamSpec(teams[1..], id);
      assert teams == [teams[0]] + teams[1..];
      if forall k :: 0 <= k < |teams| ==> teams[k].id != id {
        assert forall k :: 0 <= k < |teams[1..]| ==> teams[1..][k].id != id by {
          forall k | 0 <= k < |teams[1..]| ensures teams[1..][k].id != id {
            assert teams[1..][k] == teams[k + 1];
          }
        }
      }
    }
  }

  /** Deleting keeps order: the filter of a concatenation concatenates the filtered parts. */
  lemma {:induction false} WithoutTeamAppend(a: seq<Team>, b: seq<Team>, id: string)
    ensures WithoutTeam(a + b, id) == WithoutTeam(a, id) + WithoutTeam(b, id)
  {
    if a != [] {
      WithoutTeamAppend(a[1..], b, id);
      assert (a + b)[1..] == a[1..] + b;
    } else {
      assert a + b == b;
    }
  }

  /** The stored team list, read and rewritten whole by each operation. */
  class TeamStore {
    var teams: seq<Team>

    constructor(stored: seq<Team>)
      ensures teams == stored
    {
      teams := stored;
    }

    /** `createTeam`: append the new team at the end and return it. */
    method CreateTeam(input: CreateTeamInput, now: nat) returns (t: Team)
      modifies this
      ensures t == NewTeam(input, now)
      ensures teams == old(teams) + [t]
    {
      t := NewTeam(input, now);
      teams := teams + [t];
    }

    /**
     * `updateTeam`: an unknown id is an error and writes nothing; otherwise the first
     * team with the id is replaced by its update, in place, and returned.
     */
    method UpdateTeam(input: UpdateTeamInput, now: nat) returns (r: Result<Team, TeamError>)
      modifies this
      ensures TeamIndex(old(teams), input.id) == -1 ==> r == Err(TeamNotFound) && teams == old(teams)
      ensures TeamIndex(old(teams), input.id) >= 0 ==>
        var k := TeamIndex(old(teams), input.id);
        r == Ok(UpdatedTeam(old(teams)[k], input, now)) &&
        |teams| == |old(teams)| && teams[k] == r.value &&
        forall j :: 0 <= j < |teams| && j != k ==> teams[j] == old(teams)[j]
    {
      var k := TeamIndex(teams, input.id);
      if k == -1 {
        return Err(TeamNotFound);
      }
      var updated := UpdatedTeam(teams[k], input, now);
      teams := teams[k := updated];
      r := Ok(updated);
    }

    /** `deleteTeam`: keep the teams with other ids, in order. */
    method DeleteTeam(id: string)
      modifies this
      ensures teams == WithoutTeam(old(teams), id)
    {
      teams := WithoutTeam(teams, id);
    }
  }
}
