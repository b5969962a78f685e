/**
 * The records the league-hosting service returns, once decoded.
 *
 * A roster is a mutable record: the league page writes `team_name`, `username`
 * and `rank` into the very objects it fetched, and a caller that still holds
 * them sees the new values. Its fetched fields never change and are `const`;
 * the derived ones start absent (`None`).
 */
module Records {
  import opened Common

  /** A league member; `teamName` is the optional `metadata.team_name`. */
  datatype User = User(userId: string, displayName: string, teamName: Option<string>)

  /** One roster's row of a week's matchups; `points` may be absent (it reads as 0). */
  datatype MatchupEntry = MatchupEntry(rosterId: int, matchupId: Option<int>, points: Option<int>)

  /** A row of the local player table. */
  datatype PlayerRow = PlayerRow(firstName: string, lastName: string, position: string, team: string)

  class Roster {
    const rosterId: int
    const ownerId: Option<string>
    /** `settings.wins` and `settings.fpts`, the standings keys. */
    const wins: int
    const fpts: int
    /** Player-id lists; `None` when the key is absent from the record. */
    const players: Option<seq<string>>
    const starters: Option<seq<string>>
    const taxi: Option<seq<string>>
    const draftPicks: Option<seq<string>>

    var teamName: Option<string>
    var username: Option<string>
    var rank: Option<nat>

    constructor (rosterId: int, ownerId: Option<string>, wins: int, fpts: int,
                 players: Option<seq<string>>, starters: Option<seq<string>>,
                 taxi: Option<seq<string>>, draftPicks: Option<seq<string>>)
      ensures this.rosterId == rosterId && this.ownerId == ownerId
      ensures this.wins == wins && this.fpts == fpts
      ensures this.players == players && this.starters == starters
      ensures this.taxi == taxi && this.draftPicks == draftPicks
      ensures teamName == None && username == None && rank == None
    {
      this.rosterId := rosterId;
      this.ownerId := ownerId;
      this.wins := wins;
      this.fpts := fpts;
      this.players := players;
      this.starters := starters;
      this.taxi := taxi;
      this.draftPicks := draftPicks;
      teamName := None;
      username := None;
      rank := None;
    }
  }

  /** No roster object occurs twice (decoded JSON never shares a record between two list slots). */
  predicate NoAlias(rosters: seq<Roster>) {
    forall i, j :: 0 <= i < j < |rosters| ==> rosters[i] != rosters[j]
  }

  // The search predicates of the source's `next(...)` lookups. They are named
  // functions so that every use denotes the same predicate.

  function HasRosterId(id: int): Roster -> bool {
    (r: Roster) => r.rosterId == id
  }

  function OwnedBy(ownerId: Option<string>): User -> bool {
    (u: User) => ownerId == Some(u.userId)
  }

  /** Another roster's entry in the same matchup as m. */
  function OpponentOf(m: MatchupEntry): MatchupEntry -> bool {
    (e: MatchupEntry) => e.matchupId == m.matchupId && e.rosterId != m.rosterId
  }

  function FindRoster(rosters: seq<Roster>, id: int): (r: Option<nat>)
    ensures r.Some? ==> IsFirst(rosters, HasRosterId(id), r.value)
    ensures r.None? <==> forall j :: 0 <= j < |rosters| ==> rosters[j].rosterId != id
  {
    FirstIndex(rosters, HasRosterId(id))
  }

  function FindOwner(users: seq<User>, ownerId: Option<string>): (r: Option<nat>)
    ensures r.Some? ==> IsFirst(users, OwnedBy(ownerId), r.value)
    ensures r.None? <==> forall j :: 0 <= j < |users| ==> ownerId != Some(users[j].userId)
  {
    FirstIndex(users, OwnedBy(ownerId))
  }

  function FindOpponent(data: seq<MatchupEntry>, m: MatchupEntry): (r: Option<nat>)
    ensures r.Some? ==> IsFirst(data, OpponentOf(m), r.value)
    ensures r.Some? ==> data[r.value].matchupId == m.matchupId && data[r.value].rosterId != m.rosterId
    ensures r.None? <==> forall j :: 0 <= j < |data| && data[j].matchupId == m.matchupId ==> data[j].rosterId == m.rosterId
  {
    FirstIndex(data, OpponentOf(m))
  }
}
