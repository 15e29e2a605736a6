/** The roster records of src/types/team.ts. */
module TeamTypes {
  import opened Basics

  datatype FieldPosition = GK | DEF | MID | FWD

  /** A roster entry; `displayName` is the short label shown on a token. */
  datatype Player = Player(id: string, name: string, displayName: Option<string>,
                           position: Option<FieldPosition>, number: Option<int>)

  /** A team; dates are milliseconds since the epoch. */
  datatype Team = Team(id: string, name: string, players: seq<Player>, createdAt: int, updatedAt: int)
}
