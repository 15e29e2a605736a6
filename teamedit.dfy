/**
 * The roster editor of src/screens/TeamEditScreen.tsx: the team name, the players
 * being edited (without ids) and the new-player input field, with the add, update
 * and remove handlers, the jersey-number check and the checks run before saving.
 */
module TeamEdit {
  import opened Basics
  import opened Strings
  import opened TeamTypes
  import opened TeamService

  /** What the add handler did: refused a blank name, refused a duplicate, or added. */
  datatype AddOutcome = EmptyName | Duplicate | Added

  /** One field of a player being edited, with its new value. */
  datatype FieldUpdate =
    | SetName(name: string)
    | SetDisplayName(displayName: Option<string>)
    | SetPosition(position: Option<FieldPosition>)
    | SetNumber(number: Option<int>)

  function WithField(p: PlayerInput, f: FieldUpdate): PlayerInput {
    match f
    case SetName(n) => p.(name := n)
    case SetDisplayName(d) => p.(displayName := d)
    case SetPosition(q) => p.(position := q)
    case SetNumber(n) => p.(number := n)
  }

  /** A jersey number counts when it is present and not 0, as `filter(Boolean)` keeps it. */
  predicate HasNumber(p: PlayerInput) {
    p.number.Some? && p.number.value != 0
  }

  /** `players.map(p => p.number).filter(Boolean)`. */
  function NumbersOf(players: seq<PlayerInput>): (r: seq<int>)
    ensures |r| <= |players|
  {
    if players == [] then []
    else (if HasNumber(players[0]) then [players[0].number.value] else []) + NumbersOf(players[1..])
  }

  /** `validatePlayerNumbers`: as many numbers as distinct numbers. */
  predicate ValidNumbers(players: seq<PlayerInput>) {
    var nums := NumbersOf(players);
    |nums| == |set n | n in nums|
  }

  predicate Distinct(s: seq<int>) {
    forall i, j :: 0 <= i < j < |s| ==> s[i] != s[j]
  }

  /** A sequence has at most as many distinct elements as entries, and as many exactly when they are distinct. */
  lemma {:induction false} SetSizeDistinct(s: seq<int>)
    ensures |set n | n in s| <= |s|
    ensures |set n | n in s| == |s| <==> Distinct(s)
  {
    if s != [] {
      var t := s[1..];
      SetSizeDistinct(t);
      DistinctCons(s);
      var a := set n | n in s;
      var b := set n | n in t;
      assert a == b + {s[0]} by {
        forall n ensures n in a <==> n in b + {s[0]} {
          if n in s && n != s[0] {
            var k :| 0 <= k < |s| && s[k] == n;
            assert t[k - 1] == n;
          }
          if n in t { var k :| 0 <= k < |t| && t[k] == n; assert s[k + 1] == n; }
        }
      }
      if s[0] in t {
        assert a == b;
      } else {
        assert |a| == |b| + 1;
      }
    }
  }

  /** A non-empty sequence is distinct when its head is not in its tail and its tail is distinct. */
  lemma DistinctCons(s: seq<int>)
    requires s != []
    ensures Distinct(s) <==> s[0] !in s[1..] && Distinct(s[1..])
  {
    var t := s[1..];
    if s[0] in t {
      var k :| 0 <= k < |t| && t[k] == s[0];
      assert s[k + 1] == s[0];
    }
    if s[0] !in t && Distinct(t) {
      forall i, j | 0 <= i < j < |s| ensures s[i] != s[j] {
        assert s[j] == t[j - 1];
        if i > 0 { assert s[i] == t[i - 1]; }
      }
    }
    if Distinct(s) {
      forall i, j | 0 <= i < j < |t| ensures t[i] != t[j] {
        assert t[i] == s[i + 1] && t[j] == s[j + 1];
      }
    }
  }

  /** No two players carry the same counted number. */
  predicate NoSharedNumber(players: seq<PlayerInput>) {
    forall i, j :: 0 <= i < j < |players| && HasNumber(players[i]) && HasNumber(players[j]) ==>
      players[i].number != players[j].number
  }

  /** A roster without shared numbers keeps that property without its first player. */
  lemma NoSharedNumberTail(players: seq<PlayerInput>)
    requires players != [] && NoSharedNumber(players)
    ensures NoSharedNumber(players[1..])
  {
    var t := players[1..];
    forall i, j | 0 <= i < j < |t| && HasNumber(t[i]) && HasNumber(t[j]) ensures t[i].number != t[j].number {
      assert t[i] == players[i + 1] && t[j] == players[j + 1];
    }
  }

  /** A shared number in the tail is shared in the whole roster. */
  lemma SharedInTail(players: seq<PlayerInput>)
    requires players != [] && !NoSharedNumber(players[1..])
    ensures !NoSharedNumber(players)
  {
    var t := players[1..];
    var i, j :| 0 <= i < j < |t| && HasNumber(t[i]) && HasNumber(t[j]) && t[i].number == t[j].number;
    assert players[i + 1] == t[i] && players[j + 1] == t[j];
  }

  /** The inductive step when the first player's number counts. */
  lemma NumbersCountedHead(players: seq<PlayerInput>)
    requires players != [] && HasNumber(players[0])
    requires Distinct(NumbersOf(players[1..])) <==> NoSharedNumber(players[1..])
    ensures Distinct(NumbersOf(players)) <==> NoSharedNumber(players)
  {
    var t := players[1..];
    var nt := NumbersOf(t);
    var ns := NumbersOf(players);
    var v := players[0].number.value;
    assert ns == [v] + nt;
    DistinctCons(ns);
    assert ns[1..] == nt;
    NumbersOfMembers(t);
    if Distinct(ns) {
      forall j | 0 < j < |players| && HasNumber(players[j]) ensures players[j].number.value != v {
        assert players[j] == t[j - 1];
      }
    } else if v in nt {
      var j :| 0 <= j < |t| && HasNumber(t[j]) && t[j].number.value == v;
      assert players[j + 1] == t[j];
    } else {
      SharedInTail(players);
    }
    if NoSharedNumber(players) {
      NoSharedNumberTail(players);
      forall j | 0 <= j < |t| && HasNumber(t[j]) ensures t[j].number.value != v {
        assert players[j + 1] == t[j];
      }
    }
  }

  /** The inductive step when the first player's number does not count. */
  lemma NumbersUncountedHead(players: seq<PlayerInput>)
    requires players != [] && !HasNumber(players[0])
    requires Distinct(NumbersOf(players[1..])) <==> NoSharedNumber(players[1..])
    ensures Distinct(NumbersOf(players)) <==> NoSharedNumber(players)
  {
    var t := players[1..];
    assert NumbersOf(players) == NumbersOf(t);
    if NoSharedNumber(players) {
      NoSharedNumberTail(players);
    }
    if NoSharedNumber(t) {
      forall i, j | 0 <= i < j < |players| && HasNumber(players[i]) && HasNumber(players[j])
        ensures players[i].number != players[j].number
      {
        assert players[i] == t[i - 1] && players[j] == t[j - 1];
      }
    } else {
      SharedInTail(players);
    }
  }

  /** The collected numbers have no repeat exactly when no two players share a counted number. */
  lemma {:induction false} NumbersOfSpec(players: seq<PlayerInput>)
    ensures Distinct(NumbersOf(players)) <==> NoSharedNumber(players)
  {
    if players != [] {
      NumbersOfSpec(players[1..]);
      if HasNumber(players[0]) {
        NumbersCountedHead(players);
      } else {
        NumbersUncountedHead(players);
      }
    }
  }

  /** Every collected number belongs to a player that counts, and every such player's number is collected. */
  lemma {:induction false} NumbersOfMembers(players: seq<PlayerInput>)
    ensures forall v :: v in NumbersOf(players) <==>
      exists j :: 0 <= j < |players| && HasNumber(players[j]) && players[j].number.value == v
  {
    if players != [] {
      var t := players[1..];
      NumbersOfMembers(t);
      forall v ensures v in NumbersOf(players) <==>
        exists j :: 0 <= j < |players| && HasNumber(players[j]) && players[j].number.value == v
      {
        if v in NumbersOf(t) {
          var j :| 0 <= j < |t| && HasNumber(t[j]) && t[j].number.value == v;
          assert players[j + 1] == t[j];
        }
        if exists j :: 0 <= j < |players| && HasNumber(players[j]) && players[j].number.value == v {
          var j :| 0 <= j < |players| && HasNumber(players[j]) && players[j].number.value == v;
          if j > 0 { assert t[j - 1] == players[j]; }
        }
      }
    }
  }

  /**
   * `validatePlayerNumbers` holds exactly when no two players carry the same counted
   * number; a missing number and 0 are never compared.
   */
  lemma ValidNumbersSpec(players: seq<PlayerInput>)
    ensures ValidNumbers(players) <==>
      forall i, j :: 0 <= i < j < |players| && HasNumber(players[i]) && HasNumber(players[j]) ==>
        players[i].number != players[j].number
  {
    SetSizeDistinct(NumbersOf(players));
    NumbersOfSpec(players);
  }

  /** Why saving was refused, in the order the checks run. */
  datatype SaveBlock = BlankTeamName | NoPlayers | DuplicateNumbers

  /** What saving sends to the team service: a new team, or an update of the edited one. */
  datatype SaveRequest = Create(create: CreateTeamInput) | Update(update: UpdateTeamInput)

  /** The screen edits an existing team when its route carries a non-empty team id. */
  predicate IsEditing(teamId: Option<string>) {
    teamId.Some? && teamId.value != ""
  }

  /**
   * `handleSave` up to the service call: refuse a blank team name, then an empty
   * roster, then duplicate numbers; otherwise the request with the trimmed name.
   */
  function SaveCheck(teamId: Option<string>, teamName: string, players: seq<PlayerInput>): Result<SaveRequest, SaveBlock> {
    if Trim(teamName) == "" then Err(BlankTeamName)
    else if players == [] then Err(NoPlayers)
    else if !ValidNumbers(players) then Err(DuplicateNumbers)
    else if IsEditing(teamId) then Ok(Update(UpdateTeamInput(teamId.value, Some(Trim(teamName)), Some(players))))
    else Ok(Create(CreateTeamInput(Trim(teamName), players)))
  }

  /**
   * The checks block in order: a whitespace-only name first, then an empty roster,
   * then a repeated counted number; a request is sent exactly when none applies, and
   * carries the trimmed name and the roster as edited.
   */
  lemma SaveCheckSpec(teamId: Option<string>, teamName: string, players: seq<PlayerInput>)
    ensures var r := SaveCheck(teamId, teamName, players);
      (r == Err(BlankTeamName) <==> AllWhitespace(teamName)) &&
      (r == Err(NoPlayers) <==> !AllWhitespace(teamName) && players == []) &&
      (r == Err(DuplicateNumbers) <==>
        !AllWhitespace(teamName) && players != [] &&
        exists i, j :: 0 <= i < j < |players| && HasNumber(players[i]) && HasNumber(players[j]) &&
                       players[i].number == players[j].number) &&
      (r.Ok? ==> (r.value.Update? <==> IsEditing(teamId))) &&
      (r.Ok? && r.value.Update? ==> r.value.update == UpdateTeamInput(teamId.value, Some(Trim(teamName)), Some(players))) &&
      (r.Ok? && r.value.Create? ==> r.value.create == CreateTeamInput(Trim(teamName), players))
  {
    ValidNumbersSpec(players);
  }

  /** The players of a stored team as the editor holds them, without ids. */
  function AsInputs(team: Team): (r: seq<PlayerInput>)
    ensures |r| == |team.players|
    ensures forall i :: 0 <= i < |r| ==> FromInput(r[i], team.players[i].id) == team.players[i].(name := Trim(team.players[i].name))
  {
    seq(|team.players|, i requires 0 <= i < |team.players| =>
      PlayerInput(team.players[i].name, team.players[i].displayName, team.players[i].position, team.players[i].number))
  }

  class TeamEditor {
    var teamName: string
    var players: seq<PlayerInput>
    var newPlayerName: string

    constructor()
      ensures teamName == "" && players == [] && newPlayerName == ""
    {
      teamName := "";
      players := [];
      newPlayerName := "";
    }

    /** The edit-mode load: a found team's name and players; nothing when the team is missing. */
    method LoadTeam(team: Option<Team>)
      modifies this
      ensures team.Some? ==> teamName == team.value.name && players == AsInputs(team.value)
      ensures team.None? ==> teamName == old(teamName) && players == old(players)
      ensures newPlayerName == old(newPlayerName)
    {
      if team.Some? {
        teamName := team.value.name;
        players := AsInputs(team.value);
      }
    }

    /**
     * `handleAddPlayer`: refuse a blank name, then a trimmed name already on the
     * roster; otherwise append one player with the trimmed name and an empty
     * display name, and clear the input field.
     */
    method AddPlayer() returns (outcome: AddOutcome)
      modifies this
      ensures outcome == EmptyName <==> AllWhitespace(old(newPlayerName))
      ensures outcome == Duplicate <==>
        !AllWhitespace(old(newPlayerName)) && exists p :: p in old(players) && p.name == Trim(old(newPlayerName))
      ensures outcome != Added ==> players == old(players) && newPlayerName == old(newPlayerName)
      ensures outcome == Added ==>
        players == old(players) + [PlayerInput(Trim(old(newPlayerName)), Some(""), None, None)] && newPlayerName == ""
      ensures teamName == old(teamName)
    {
      var trimmed := Trim(newPlayerName);
      if trimmed == "" {
        return EmptyName;
      }
      if exists p :: p in players && p.name == trimmed {
        return Duplicate;
      }
      players := players + [PlayerInput(trimmed, Some(""), None, None)];
      newPlayerName := "";
      outcome := Added;
    }

    /** `handleUpdatePlayer`: only the given field of the player at the index changes. */
    method UpdatePlayer(index: nat, f: FieldUpdate)
      requires index < |players|
      modifies this
      ensures players == old(players)[index := WithField(old(players)[index], f)]
      ensures teamName == old(teamName) && newPlayerName == old(newPlayerName)
    {
      players := players[index := WithField(players[index], f)];
    }

    /**
     * The confirmed branch of `handleRemovePlayer`: the player at the index goes, the
     * rest keep their order; an index past the end removes nothing.
     */
    method RemovePlayer(index: nat)
      modifies this
      ensures index < |old(players)| ==> players == old(players[..index]) + old(players[index + 1..])
      ensures index >= |old(players)| ==> players == old(players)
      ensures teamName == old(teamName) && newPlayerName == old(newPlayerName)
    {
      if index < |players| {
        players := players[..index] + players[index + 1..];
      }
    }
  }

  /** Adding a player never produces a repeated name: a roster with distinct names keeps them distinct. */
  lemma AddKeepsNamesDistinct(players: seq<PlayerInput>, name: string)
    requires forall i, j :: 0 <= i < j < |players| ==> players[i].name != players[j].name
    requires forall p :: p in players ==> p.name != name
    ensures var r := players + [PlayerInput(name, Some(""), None, None)];
      forall i, j :: 0 <= i < j < |r| ==> r[i].name != r[j].name
  {
    var r := players + [PlayerInput(name, Some(""), None, None)];
    forall i, j | 0 <= i < j < |r| ensures r[i].name != r[j].name {
      if j == |players| { assert r[i] in players; }
    }
  }
}
