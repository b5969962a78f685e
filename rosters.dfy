/**
 * routes/rosters.py: the roster page finds one roster by id, names its owner
 * and splits its players into starters, bench and taxi squad, each shown
 * through the player table. Fetches are parameters: a failed fetch of rosters
 * or users is the empty sequence, as the page tests `not rosters`.
 */
module Rosters {
  import opened Common
  import opened Records
  import opened Helpers

  // ---------------------------------------------------------------------------
  // The bench: players that are not starters
  // ---------------------------------------------------------------------------

  /** The players not among the starters, in roster order, duplicates kept. */
  function Bench(players: seq<string>, starters: seq<string>): (bench: seq<string>)
    ensures forall i :: 0 <= i < |bench| ==> bench[i] in players && bench[i] !in starters
    ensures forall i :: 0 <= i < |players| ==> players[i] in starters || players[i] in bench
  {
    if players == [] then []
    else if players[0] in starters then Bench(players[1..], starters)
    else [players[0]] + Bench(players[1..], starters)
  }

  /** Filtering distributes over concatenation, so the bench keeps the order of the players. */
  lemma {:induction false} BenchConcat(p1: seq<string>, p2: seq<string>, starters: seq<string>)
    ensures Bench(p1 + p2, starters) == Bench(p1, starters) + Bench(p2, starters)
  {
    if p1 == [] {
      assert p1 + p2 == p2;
    } else {
      assert (p1 + p2)[0] == p1[0];
      assert (p1 + p2)[1..] == p1[1..] + p2;
      BenchConcat(p1[1..], p2, starters);
    }
  }

  /** A starter never reaches the bench; any other player is there as often as in the roster. */
  lemma {:induction false} BenchMultiplicity(players: seq<string>, starters: seq<string>, x: string)
    ensures multiset(Bench(players, starters))[x] == if x in starters then 0 else multiset(players)[x]
  {
    if players != [] {
      assert players == [players[0]] + players[1..];
      BenchMultiplicity(players[1..], starters, x);
    }
  }

  // ---------------------------------------------------------------------------
  // The roster page
  // ---------------------------------------------------------------------------

  const RosterOrUserDataNotFound := "Roster or user data not found."
  const RosterNotFound := "Roster not found."
  const UnknownUser := "Unknown User"

  datatype RosterView = RosterView(
    teamName: string,
    username: string,
    starters: seq<string>,
    bench: seq<string>,
    taxi: seq<string>,
    draftPicks: seq<string>)

  /** Owner's team name (else "Roster {roster_id}") and display name (else "Unknown User"). */
  function OwnerNames(users: seq<User>, r: Roster): (string, string) {
    match FindOwner(users, r.ownerId)
    case Some(k) => (OrElse(users[k].teamName, "Roster " + IntToDecimal(r.rosterId)), users[k].displayName)
    case None => ("Roster " + IntToDecimal(r.rosterId), UnknownUser)
  }

  /** The page for a roster that was found. */
  function ViewOf(users: seq<User>, r: Roster, table: Option<map<string, PlayerRow>>): RosterView {
    var (teamName, username) := OwnerNames(users, r);
    RosterView(
      teamName,
      username,
      MapPlayers(OrEmpty(r.starters), table),
      MapPlayers(Bench(OrEmpty(r.players), OrEmpty(r.starters)), table),
      MapPlayers(OrEmpty(r.taxi), table),
      OrEmpty(r.draftPicks))
  }

  /**
   * `roster_details` for the requested id, given the fetched rosters and users
   * and the player table (None when the player query fails).
   */
  function RosterDetails(rosters: seq<Roster>, users: seq<User>, rosterId: int,
                         table: Option<map<string, PlayerRow>>): (page: Result<RosterView>)
    ensures rosters == [] || users == [] ==> page == Err(RosterOrUserDataNotFound)
    ensures rosters != [] && users != [] && (forall j :: 0 <= j < |rosters| ==> rosters[j].rosterId != rosterId)
      ==> page == Err(RosterNotFound)
    ensures page.Ok? ==> exists i :: IsFirst(rosters, HasRosterId(rosterId), i)
    ensures forall i :: rosters != [] && users != [] && IsFirst(rosters, HasRosterId(rosterId), i) ==>
      page == Ok(ViewOf(users, rosters[i], table))
  {
    if rosters == [] || users == [] then Err(RosterOrUserDataNotFound)
    else match FindRoster(rosters, rosterId)
      case None => Err(RosterNotFound)
      case Some(i) => Ok(ViewOf(users, rosters[i], table))
  }

  /** The owner is the first user whose id is the roster's owner id; the team name falls back to the roster id. */
  lemma OwnerNamesSpec(users: seq<User>, r: Roster)
    ensures forall k :: IsFirst(users, OwnedBy(r.ownerId), k) ==>
      OwnerNames(users, r) == (OrElse(users[k].teamName, "Roster " + IntToDecimal(r.rosterId)), users[k].displayName)
    ensures (forall k :: 0 <= k < |users| ==> r.ownerId != Some(users[k].userId)) ==>
      OwnerNames(users, r) == ("Roster " + IntToDecimal(r.rosterId), UnknownUser)
  {
    forall k | IsFirst(users, OwnedBy(r.ownerId), k)
      ensures FindOwner(users, r.ownerId) == Some(k)
    {
      FirstIsUnique(users, OwnedBy(r.ownerId), k);
    }
  }

  /**
   * The roster page's lists: starters, bench and taxi squad have one entry per id,
   * missing lists read as empty, a failed player query shows the ids themselves,
   * and draft picks pass through unchanged.
   */
  lemma ViewLists(users: seq<User>, r: Roster, table: Option<map<string, PlayerRow>>)
    ensures var v := ViewOf(users, r, table);
      && |v.starters| == |OrEmpty(r.starters)|
      && |v.taxi| == |OrEmpty(r.taxi)|
      && |v.bench| == |Bench(OrEmpty(r.players), OrEmpty(r.starters))|
      && (r.starters.None? ==> v.starters == [])
      && (r.taxi.None? ==> v.taxi == [])
      && (r.players.None? ==> v.bench == [])
      && (table.None? ==>
            && v.starters == OrEmpty(r.starters)
            && v.bench == Bench(OrEmpty(r.players), OrEmpty(r.starters))
            && v.taxi == OrEmpty(r.taxi))
      && v.draftPicks == OrEmpty(r.draftPicks)
  {
  }
}
