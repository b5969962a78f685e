/**
 * routes/leagues.py: the league page joins rosters with their owners, ranks
 * them into standings and pairs the week's matchup entries; the history page
 * ranks the previous season's rosters. Fetches are parameters: a failed fetch
 * of rosters or users is the empty sequence, as the page tests `not rosters`.
 */
module Leagues {
  import opened Common
  import opened Records
  import opened Helpers

  // ---------------------------------------------------------------------------
  // Roster enrichment
  // ---------------------------------------------------------------------------

  datatype OwnerInfo = OwnerInfo(teamName: string, username: string)

  /** A user's entry in the user map: the metadata team name, else "Roster {user_id}". */
  function UserInfo(u: User): OwnerInfo {
    OwnerInfo(OrElse(u.teamName, "Roster " + u.userId), u.displayName)
  }

  /** The placeholder for a roster whose owner is not among the users. */
  function FallbackInfo(r: Roster): OwnerInfo {
    OwnerInfo("Roster " + IntToDecimal(r.rosterId), "Unknown User")
  }

  /** The `user_map` dict comprehension: a later user with the same id replaces an earlier one. */
  function UserMap(users: seq<User>): map<string, OwnerInfo> {
    if users == [] then map[]
    else
      var last := users[|users| - 1];
      UserMap(users[..|users| - 1])[last.userId := UserInfo(last)]
  }

  /** users[i] is the last user with its id. */
  predicate IsLastUser(users: seq<User>, i: int) {
    0 <= i < |users| && forall j :: i < j < |users| ==> users[j].userId != users[i].userId
  }

  lemma {:induction false} UserMapKeys(users: seq<User>)
    ensures forall i :: 0 <= i < |users| ==> users[i].userId in UserMap(users)
    ensures forall k :: k in UserMap(users) ==> exists i :: 0 <= i < |users| && users[i].userId == k
  {
    if users != [] {
      var n := |users| - 1;
      UserMapKeys(users[..n]);
      forall k | k in UserMap(users)
        ensures exists i :: 0 <= i < |users| && users[i].userId == k
      {
        if k != users[n].userId {
          var i :| 0 <= i < n && users[..n][i].userId == k;
          assert users[i].userId == k;
        }
      }
    }
  }

  lemma {:induction false} UserMapLastWins(users: seq<User>, i: int)
    requires IsLastUser(users, i)
    ensures users[i].userId in UserMap(users) && UserMap(users)[users[i].userId] == UserInfo(users[i])
  {
    var n := |users| - 1;
    if i < n {
      assert IsLastUser(users[..n], i);
      UserMapLastWins(users[..n], i);
    }
  }

  /** The `user_map.get(owner_id, fallback)` of one roster. */
  function OwnerInfoOf(users: seq<User>, r: Roster): OwnerInfo {
    var userMap := UserMap(users);
    if r.ownerId.Some? && r.ownerId.value in userMap then userMap[r.ownerId.value] else FallbackInfo(r)
  }

  /** Owner matched: the (last such) user's team name and display name; no owner matched: the placeholders. */
  lemma EnrichmentJoin(users: seq<User>, r: Roster)
    ensures forall i :: IsLastUser(users, i) && r.ownerId == Some(users[i].userId) ==>
      OwnerInfoOf(users, r) == UserInfo(users[i])
    ensures (forall i :: 0 <= i < |users| ==> r.ownerId != Some(users[i].userId)) ==>
      OwnerInfoOf(users, r) == FallbackInfo(r)
  {
    UserMapKeys(users);
    forall i | IsLastUser(users, i) {
      UserMapLastWins(users, i);
    }
  }

  /** Writes `team_name` and `username` into every roster record. */
  method Enrich(rosters: seq<Roster>, users: seq<User>)
    modifies rosters
    ensures forall i :: 0 <= i < |rosters| ==>
      && rosters[i].teamName == Some(OwnerInfoOf(users, rosters[i]).teamName)
      && rosters[i].username == Some(OwnerInfoOf(users, rosters[i]).username)
    ensures forall r :: r in rosters ==> r.rank == old(r.rank)
  {
    var userMap := UserMap(users);
    for i := 0 to |rosters|
      invariant forall j :: 0 <= j < i ==>
        && rosters[j].teamName == Some(OwnerInfoOf(users, rosters[j]).teamName)
        && rosters[j].username == Some(OwnerInfoOf(users, rosters[j]).username)
      invariant forall r :: r in rosters ==> r.rank == old(r.rank)
    {
      var roster := rosters[i];
      var ownerInfo := if roster.ownerId.Some? && roster.ownerId.value in userMap
        then userMap[roster.ownerId.value] else FallbackInfo(roster);
      roster.teamName := Some(ownerInfo.teamName);
      roster.username := Some(ownerInfo.username);
    }
  }

  // ---------------------------------------------------------------------------
  // Matchup pairing
  // ---------------------------------------------------------------------------

  const UnknownTeam := "Unknown Team"

  datatype Side = Side(name: string, points: int)
  datatype Pair = Pair(team1: Side, team2: Side)

  /** Every roster record carries a team name (enrichment has run). */
  predicate Enriched(rosters: seq<Roster>)
    reads rosters
  {
    forall i :: 0 <= i < |rosters| ==> rosters[i].teamName.Some?
  }

  /** `matchup.get("points", 0)` */
  function Points(m: MatchupEntry): int {
    OrElse(m.points, 0)
  }

  /** The team name of the first roster with this id, or "Unknown Team". */
  function TeamName(rosters: seq<Roster>, id: int): (name: string)
    reads rosters
    requires Enriched(rosters)
    ensures forall i :: IsFirst(rosters, HasRosterId(id), i) ==> rosters[i].teamName == Some(name)
    ensures (forall j :: 0 <= j < |rosters| ==> rosters[j].rosterId != id) ==> name == UnknownTeam
  {
    NameOf(rosters, FindRoster(rosters, id))
  }

  /** `team["team_name"] if team else "Unknown Team"` for a looked-up roster position. */
  function NameOf(rosters: seq<Roster>, found: Option<nat>): string
    reads rosters
    requires Enriched(rosters) && (found.Some? ==> found.value < |rosters|)
  {
    if found.Some? then rosters[found.value].teamName.value else UnknownTeam
  }

  /** The pair emitted for the first entry m of its matchup: m's side, then its opponent's or a placeholder. */
  function MakePair(rosters: seq<Roster>, data: seq<MatchupEntry>, m: MatchupEntry): Pair
    reads rosters
    requires Enriched(rosters)
  {
    var team1 := Side(TeamName(rosters, m.rosterId), Points(m));
    match FindOpponent(data, m)
    case Some(j) => Pair(team1, Side(TeamName(rosters, data[j].rosterId), Points(data[j])))
    case None => Pair(team1, Side(UnknownTeam, 0))
  }

  /**
   * The first side is m's roster and points; the second is the first entry of
   * another roster in m's matchup, or "Unknown Team" with 0 points when there is none.
   */
  lemma MakePairSides(rosters: seq<Roster>, data: seq<MatchupEntry>, m: MatchupEntry)
    requires Enriched(rosters)
    ensures MakePair(rosters, data, m).team1 == Side(TeamName(rosters, m.rosterId), Points(m))
    ensures forall j :: IsFirst(data, OpponentOf(m), j) ==>
      MakePair(rosters, data, m).team2 == Side(TeamName(rosters, data[j].rosterId), Points(data[j]))
    ensures (forall j :: 0 <= j < |data| && data[j].matchupId == m.matchupId ==> data[j].rosterId == m.rosterId)
      ==> MakePair(rosters, data, m).team2 == Side(UnknownTeam, 0)
  {
    forall j | IsFirst(data, OpponentOf(m), j)
      ensures FindOpponent(data, m) == Some(j)
    {
      FirstIsUnique(data, OpponentOf(m), j);
    }
  }

  function MatchupIds(data: seq<MatchupEntry>): (ids: seq<Option<int>>)
    ensures |ids| == |data| && forall i :: 0 <= i < |data| ==> ids[i] == data[i].matchupId
  {
    seq(|data|, i requires 0 <= i < |data| => data[i].matchupId)
  }

  /** The pair of the matchup with id x, built from x's first entry. */
  function PairFor(rosters: seq<Roster>, data: seq<MatchupEntry>, x: Option<int>): Pair
    reads rosters
    requires Enriched(rosters) && x in MatchupIds(data)
  {
    MakePair(rosters, data, data[IndexOf(MatchupIds(data), x)])
  }

  function PairsFor(rosters: seq<Roster>, data: seq<MatchupEntry>, xs: seq<Option<int>>): seq<Pair>
    reads rosters
    requires Enriched(rosters) && forall k :: 0 <= k < |xs| ==> xs[k] in MatchupIds(data)
  {
    if xs == [] then []
    else PairsFor(rosters, data, xs[..|xs| - 1]) + [PairFor(rosters, data, xs[|xs| - 1])]
  }

  /** The matchups list of the league page: one pair per distinct matchup id. */
  function Pairing(rosters: seq<Roster>, data: seq<MatchupEntry>): seq<Pair>
    reads rosters
    requires Enriched(rosters)
  {
    PairsFor(rosters, data, Distinct(MatchupIds(data)))
  }

  lemma {:induction false} PairsForAt(rosters: seq<Roster>, data: seq<MatchupEntry>, xs: seq<Option<int>>)
    requires Enriched(rosters) && forall k :: 0 <= k < |xs| ==> xs[k] in MatchupIds(data)
    ensures |PairsFor(rosters, data, xs)| == |xs|
    ensures forall k :: 0 <= k < |xs| ==> PairsFor(rosters, data, xs)[k] == PairFor(rosters, data, xs[k])
  {
    if xs != [] {
      var init := xs[..|xs| - 1];
      PairsForAt(rosters, data, init);
      forall k | 0 <= k < |xs|
        ensures PairsFor(rosters, data, xs)[k] == PairFor(rosters, data, xs[k])
      {
        if k < |init| {
          assert xs[k] == init[k];
        }
      }
    }
  }

  /**
   * Exactly one pair per distinct matchup id, in order of first occurrence,
   * each built from that id's first entry; later entries of a processed id add nothing.
   */
  lemma PairingPerMatchup(rosters: seq<Roster>, data: seq<MatchupEntry>)
    requires Enriched(rosters)
    ensures var firsts := Distinct(MatchupIds(data));
      |Pairing(rosters, data)| == |firsts|
    ensures var ids := MatchupIds(data); var firsts := Distinct(ids);
      forall k :: 0 <= k < |firsts| ==> Pairing(rosters, data)[k] == MakePair(rosters, data, data[IndexOf(ids, firsts[k])])
    ensures var ids := MatchupIds(data); var firsts := Distinct(ids);
      forall a, b :: 0 <= a < b < |firsts| ==> firsts[a] != firsts[b] && IndexOf(ids, firsts[a]) < IndexOf(ids, firsts[b])
    ensures forall i :: 0 <= i < |data| ==> data[i].matchupId in Distinct(MatchupIds(data))
  {
    var ids := MatchupIds(data);
    var firsts := Distinct(ids);
    assert Pairing(rosters, data) == PairsFor(rosters, data, firsts);
    PairsForAt(rosters, data, firsts);
    DistinctHasNoDuplicates(ids);
    DistinctInFirstOccurrenceOrder(ids);
    forall i | 0 <= i < |data| ensures data[i].matchupId in firsts {
      assert ids[i] == data[i].matchupId;
    }
  }

  /** Every first occurrence among the first i entries is a matchup id of data. */
  predicate FirstsKnown(data: seq<MatchupEntry>, i: nat)
    requires i <= |data|
  {
    var ids := MatchupIds(data);
    forall k :: 0 <= k < |Distinct(ids[..i])| ==> Distinct(ids[..i])[k] in ids
  }

  /** The first i + 1 matchup ids are the first i and the id of entry i. */
  lemma IdsStep(data: seq<MatchupEntry>, i: nat)
    requires i < |data|
    ensures MatchupIds(data)[..i + 1] == MatchupIds(data)[..i] + [data[i].matchupId]
  {
  }

  /** The loop step: entry i adds its matchup's pair when its id is new, and nothing otherwise. */
  lemma PairsForStep(rosters: seq<Roster>, data: seq<MatchupEntry>, i: nat)
    requires Enriched(rosters) && i < |data| && FirstsKnown(data, i)
    ensures FirstsKnown(data, i + 1)
    ensures var ids := MatchupIds(data);
      PairsFor(rosters, data, Distinct(ids[..i + 1]))
      == if ids[i] in ids[..i] then PairsFor(rosters, data, Distinct(ids[..i]))
         else PairsFor(rosters, data, Distinct(ids[..i])) + [MakePair(rosters, data, data[i])]
  {
    var ids := MatchupIds(data);
    IdsStep(data, i);
    assert ids[..i + 1][..i] == ids[..i];
    if ids[i] !in ids[..i] {
      IndexOfFirstOccurrence(ids, i);
      var firsts := Distinct(ids[..i]);
      assert (firsts + [ids[i]])[..|firsts|] == firsts;
    }
  }

  /** The body of the pairing loop for an entry whose matchup id is new: its side and its opponent's. */
  method BuildPair(rosters: seq<Roster>, data: seq<MatchupEntry>, matchup: MatchupEntry) returns (pair: Pair)
    requires Enriched(rosters)
    ensures pair.team1 == Side(TeamName(rosters, matchup.rosterId), Points(matchup))
    ensures forall j :: IsFirst(data, OpponentOf(matchup), j) ==>
      pair.team2 == Side(TeamName(rosters, data[j].rosterId), Points(data[j]))
    ensures (forall j :: 0 <= j < |data| && data[j].matchupId == matchup.matchupId ==> data[j].rosterId == matchup.rosterId)
      ==> pair.team2 == Side(UnknownTeam, 0)
    ensures pair == MakePair(rosters, data, matchup)
  {
    var team1 := FindRoster(rosters, matchup.rosterId);
    var team2Matchup := FindOpponent(data, matchup);
    var team2 := if team2Matchup.Some? then FindRoster(rosters, data[team2Matchup.value].rosterId) else None;
    var points2 := if team2Matchup.Some? then Points(data[team2Matchup.value]) else 0;
    pair := Pair(Side(NameOf(rosters, team1), Points(matchup)), Side(NameOf(rosters, team2), points2));
    MakePairSides(rosters, data, matchup);
  }

  /** The state of the pairing loop after the first i entries. */
  ghost predicate PairedUpTo(rosters: seq<Roster>, data: seq<MatchupEntry>, i: nat,
                       processed: set<Option<int>>, matchups: seq<Pair>)
    reads rosters
    requires Enriched(rosters)
  {
    var ids := MatchupIds(data);
    && i <= |data|
    && (forall x :: x in processed <==> x in ids[..i])
    && FirstsKnown(data, i)
    && matchups == PairsFor(rosters, data, Distinct(ids[..i]))
  }

  /** An entry whose matchup id was already processed leaves the loop state as it was. */
  lemma SkipStep(rosters: seq<Roster>, data: seq<MatchupEntry>, i: nat,
                 processed: set<Option<int>>, matchups: seq<Pair>)
    requires Enriched(rosters) && i < |data|
    requires PairedUpTo(rosters, data, i, processed, matchups)
    requires data[i].matchupId in processed
    ensures PairedUpTo(rosters, data, i + 1, processed, matchups)
  {
    IdsStep(data, i);
    PairsForStep(rosters, data, i);
  }

  /** An entry with a new matchup id marks the id processed and appends its pair. */
  lemma AddStep(rosters: seq<Roster>, data: seq<MatchupEntry>, i: nat,
                processed: set<Option<int>>, matchups: seq<Pair>)
    requires Enriched(rosters) && i < |data|
    requires PairedUpTo(rosters, data, i, processed, matchups)
    requires data[i].matchupId !in processed
    ensures PairedUpTo(rosters, data, i + 1, processed + {data[i].matchupId},
                       matchups + [MakePair(rosters, data, data[i])])
  {
    IdsStep(data, i);
    PairsForStep(rosters, data, i);
  }

  /** The pairing loop: skips entries whose matchup id was already processed. */
  method PairMatchups(rosters: seq<Roster>, data: seq<MatchupEntry>) returns (matchups: seq<Pair>)
    requires Enriched(rosters)
    ensures matchups == Pairing(rosters, data)
  {
    matchups := [];
    var processed: set<Option<int>> := {};
    for i := 0 to |data|
      invariant PairedUpTo(rosters, data, i, processed, matchups)
    {
      var matchup := data[i];
      var matchupId := matchup.matchupId;
      if matchupId !in processed {
        AddStep(rosters, data, i, processed, matchups);
        processed := processed + {matchupId};
        var pair := BuildPair(rosters, data, matchup);
        matchups := matchups + [pair];
      } else {
        SkipStep(rosters, data, i, processed, matchups);
      }
    }
    assert MatchupIds(data)[..|data|] == MatchupIds(data);
  }

  /** A well-formed fixture (exactly two entries, two rosters) pairs the first entry with the other. */
  lemma FixturePair(rosters: seq<Roster>, data: seq<MatchupEntry>, i: nat, j: nat)
    requires Enriched(rosters)
    requires i < |data| && j < |data|
    requires data[j].matchupId == data[i].matchupId && data[j].rosterId != data[i].rosterId
    requires forall k :: 0 <= k < |data| && k != i && k != j ==> data[k].matchupId != data[i].matchupId
    ensures MakePair(rosters, data, data[i])
         == Pair(Side(TeamName(rosters, data[i].rosterId), Points(data[i])),
                 Side(TeamName(rosters, data[j].rosterId), Points(data[j])))
  {
    FirstIsUnique(data, OpponentOf(data[i]), j);
  }

  /** An entry with no other roster in its matchup faces "Unknown Team" with 0 points; it is not dropped. */
  lemma ByePair(rosters: seq<Roster>, data: seq<MatchupEntry>, i: nat)
    requires Enriched(rosters)
    requires i < |data|
    requires forall k :: 0 <= k < |data| && data[k].matchupId == data[i].matchupId ==> data[k].rosterId == data[i].rosterId
    ensures MakePair(rosters, data, data[i]).team1 == Side(TeamName(rosters, data[i].rosterId), Points(data[i]))
    ensures MakePair(rosters, data, data[i]).team2 == Side(UnknownTeam, 0)
  {
  }

  // ---------------------------------------------------------------------------
  // The two pages
  // ---------------------------------------------------------------------------

  const DetailsNotFound := "League details, rosters, or users not found."
  const NoHistory := "No history available for this league."
  const NoHistoricalData := "No historical data found."

  datatype LeaguePage = LeagueError(message: string) | LeagueView(standings: seq<Roster>, matchups: seq<Pair>)

  datatype HistoryPage = HistoryError(message: string) | HistoryView(standings: seq<Roster>)

  /** `league_details`, with the fetched league, rosters, users and the week's matchup entries as inputs. */
  method LeagueDetails(leagueFound: bool, rosters: seq<Roster>, users: seq<User>, matchupsData: seq<MatchupEntry>)
    returns (page: LeaguePage)
    requires NoAlias(rosters)
    modifies rosters
    ensures !leagueFound || rosters == [] || users == [] ==>
      page == LeagueError(DetailsNotFound) && unchanged(rosters)
    ensures leagueFound && rosters != [] && users != [] ==>
      && page.LeagueView?
      && page.standings == Standings(rosters)
      && (forall i :: 0 <= i < |page.standings| ==> page.standings[i].rank == Some(i + 1))
      && (forall r :: r in rosters ==>
            r.teamName == Some(OwnerInfoOf(users, r).teamName) && r.username == Some(OwnerInfoOf(users, r).username))
      && Enriched(page.standings)
      && page.matchups == Pairing(page.standings, matchupsData)
  {
    if !leagueFound || rosters == [] || users == [] {
      return LeagueError(DetailsNotFound);
    }
    Enrich(rosters, users);
    var standings := FormatRosters(rosters);
    StandingsPermutation(rosters);
    forall i | 0 <= i < |standings|
      ensures standings[i].teamName.Some?
    {
      assert standings[i] in multiset(rosters);
    }
    var matchups := PairMatchups(standings, matchupsData);
    page := LeagueView(standings, matchups);
  }

  /** `league_history`: the previous season's rosters ranked like the current standings. */
  method LeagueHistory(previousLeagueId: Option<string>, previousRosters: Option<seq<Roster>>)
    returns (page: HistoryPage)
    requires NoAlias(OrEmpty(previousRosters))
    modifies OrEmpty(previousRosters)
    ensures previousLeagueId.None? || previousLeagueId == Some("") ==> page == HistoryError(NoHistory)
    ensures previousLeagueId.Some? && previousLeagueId != Some("") && previousRosters.None? ==>
      page == HistoryError(NoHistoricalData)
    ensures page.HistoryError? ==> unchanged(OrEmpty(previousRosters))
    ensures previousLeagueId.Some? && previousLeagueId != Some("") && previousRosters.Some? ==>
      && page == HistoryView(Standings(previousRosters.value))
      && (forall i :: 0 <= i < |page.standings| ==> page.standings[i].rank == Some(i + 1))
      && (forall r :: r in previousRosters.value ==> r.teamName == old(r.teamName) && r.username == old(r.username))
  {
    if previousLeagueId.None? || previousLeagueId == Some("") {
      return HistoryError(NoHistory);
    }
    if previousRosters.None? {
      return HistoryError(NoHistoricalData);
    }
    var standings := FormatRosters(previousRosters.value);
    page := HistoryView(standings);
  }
}
