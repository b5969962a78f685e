# Varsity Clues league core, in Dafny

A model of the in-memory logic of the Varsity Clues fantasy-football web
application: the league page, the league history page and the roster page,
with everything they fetch from the league-hosting service and the local
player database given as inputs.

- **Roster enrichment.** Each roster of the league is joined with its owner
  through a `user_id` map. The owner's team name and display name are written
  into the roster record. Placeholders fill in for a roster without a known
  owner.
- **Standings.** The rosters are sorted by wins, then by points for, both
  descending, with a stable sort. Rank `i + 1` is then written into the record
  at position `i`. The history page does the same with the previous season's
  rosters.
- **Matchup pairing.** The week's matchup entries are walked in order. An entry
  whose `matchup_id` was already processed is skipped. Otherwise the entry is
  paired with the first other roster's entry of the same matchup, or with
  `"Unknown Team"` and 0 points when there is none.
- **Roster page.** It finds a roster by id and names its owner. Its starters,
  bench (players that are not starters) and taxi squad are shown through the
  player table, and its draft picks are passed through.

Roster records are mutated in place by the source, so `Records.Roster` is a
class. Its fetched fields are constants and its derived fields (`teamName`,
`username`, `rank`) are variables that start absent. Users, matchup entries
and player rows are datatypes. A failed fetch of rosters or users is the
empty sequence, because the pages test `not rosters`. The result of the
player query is `Option<map<string, PlayerRow>>`, where `None` stands for a
failed query.

Python's `sorted` is modelled as the stable insertion sort
`Helpers.Standings`. `Helpers.StandingsIsTheStableSort` shows that any
sequence that is ordered by the key and keeps the input order among equal
keys equals it, so the choice of sorting algorithm does not matter.

Modules: `Common` (option and result types, first-match search, first
occurrences), `Records` (users, matchup entries, player rows, the roster
class and the `next(...)` lookups), `Helpers` (utils/helpers.py), `Leagues`
(routes/leagues.py) and `Rosters` (routes/rosters.py).

Behaviours of the code that the model keeps, though a reader might expect
otherwise:

- A matchup id with one entry (a bye) is not dropped. It yields a pair
  against `"Unknown Team"` with 0 points.
- A matchup id with more than two entries yields one pair. That pair is
  built from the id's first entry and the first other roster's entry.
- A missing matchup list is not read as empty; iterating it fails.
- The league page's fallback team name for a user without one is
  `"Roster {user_id}"`. The roster page's fallback is `"Roster {roster_id}"`.
- When two users share an id, the league page's map keeps the last one,
  while the roster page's search finds the first one.

## Model

| member | source | states |
|---|---|---|
| Common.NatToDecimalRoundTrip | routes/leagues.py:53 | the decimal rendering used in "Roster {roster_id}" reads back as the number it renders |
| Common.NatToDecimal | routes/rosters.py:29 | the rendering of a number is a non-empty string of decimal digits with no leading zero, as `str` gives it |
| Common.FirstIndex | routes/leagues.py:74 | the result is the position of the first element satisfying the predicate; it is absent exactly when no element satisfies it |
| Common.FirstIsUnique | routes/rosters.py:21 | any position whose element is the first to satisfy the predicate is the one the search returns |
| Common.Distinct | routes/leagues.py:71-83 | every element of the result occurs in the input, and every element of the input occurs in the result |
| Common.DistinctHasNoDuplicates | routes/leagues.py:77-78 | no value occurs twice among the processed matchup ids |
| Common.DistinctInFirstOccurrenceOrder | routes/leagues.py:73-83 | the distinct values come in increasing order of their first occurrence in the input |
| Records.FindRoster | routes/leagues.py:74 | the position of the first roster whose `roster_id` is the given id; absent exactly when no roster has that id |
| Records.FindOwner | routes/rosters.py:28 | the position of the first user whose `user_id` equals the roster's `owner_id`; absent exactly when there is none |
| Records.FindOpponent | routes/leagues.py:80 | the first entry with the same `matchup_id` and a different `roster_id`; absent exactly when every entry of that matchup has the same roster |
| Helpers.Standings | utils/helpers.py:48 | the standings order, defined as a stable insertion by the key (-wins, -fpts); what it promises is stated by the four Standings lemmas below |
| Helpers.StandingsPermutation | utils/helpers.py:48 | the standings hold exactly the input rosters, each as often as in the input |
| Helpers.StandingsOrdered | utils/helpers.py:48 | no roster in the standings is ahead of an earlier one: wins never increase, and among equal wins points for never increase |
| Helpers.StandingsStable | utils/helpers.py:48 | for every key `(wins, fpts)`, the rosters with that key appear in the standings in their input order |
| Helpers.StandingsIsTheStableSort | routes/leagues.py:59 | any sequence that is ordered and keeps every key's rosters in input order is exactly the standings |
| Helpers.StandingsIdempotent | utils/helpers.py:48 | sorting standings a second time changes nothing |
| Helpers.FormatRosters | utils/helpers.py:44-51 | returns the standings of its input; the record at position `i` gets rank `i + 1` in place; team names and usernames are untouched |
| Helpers.RanksAreDense | utils/helpers.py:49-50 | after ranking, the ranks are exactly 1..n, and every input roster holds a rank `k` with the standings' `k`-th roster being that roster |
| Helpers.PlayerLabel | utils/helpers.py:33 | the display string of a player row: first name, space, last name, space, position in parentheses |
| Helpers.MapPlayers | utils/helpers.py:17-39 | the names have the input's length; an empty id list gives an empty list; a failed query returns the ids unchanged; otherwise each id becomes "first last (position)" when the table has it and stays itself when not |
| Helpers.MapPlayersConcat | utils/helpers.py:32-36 | mapping works entry by entry, so order and duplicates carry over |
| Leagues.UserInfo | routes/leagues.py:42-45 | a user's map entry: the metadata team name, else "Roster {user_id}", and the display name |
| Leagues.UserMap | routes/leagues.py:41-47 | the user map, built in user order so that a later user with the same id replaces an earlier one; its keys and entries are stated by UserMapKeys and UserMapLastWins |
| Leagues.FallbackInfo | routes/leagues.py:53 | the placeholder entry of a roster without a known owner: "Roster {roster_id}" and "Unknown User" |
| Leagues.OwnerInfoOf | routes/leagues.py:51-54 | the map entry of the roster's `owner_id`, or the placeholder when the id is null or not a key; EnrichmentJoin states it in terms of the users |
| Leagues.UserMapKeys | routes/leagues.py:41-47 | the keys of the user map are exactly the users' ids |
| Leagues.UserMapLastWins | routes/leagues.py:41-47 | the last user with an id decides that id's entry: its metadata team name, else "Roster {user_id}", and its display name |
| Leagues.EnrichmentJoin | routes/leagues.py:50-54 | a roster whose `owner_id` matches a user gets that (last such) user's entry; a roster with no matching user gets "Roster {roster_id}" and "Unknown User" |
| Leagues.Enrich | routes/leagues.py:50-56 | every roster record receives its owner's team name and username in place; ranks are untouched |
| Leagues.TeamName | routes/leagues.py:87-88 | the team name of the first roster with the id, or "Unknown Team" when no roster has it |
| Leagues.Points | routes/leagues.py:87-88 | an entry's points, 0 when absent |
| Leagues.MakePair | routes/leagues.py:74-90 | the pair of an entry, the reference for the loop body; MakePairSides states its two sides |
| Leagues.MakePairSides | routes/leagues.py:80-88 | the first side is the entry's team name and points; the second is the first other roster's entry of the same matchup, with its team name and points, or "Unknown Team" with 0 points when the matchup has no other roster |
| Leagues.BuildPair | routes/leagues.py:74-90 | the pair built for an entry: its roster's team name and points (default 0), then the first other roster's entry of the same matchup with its team name and points, or "Unknown Team" with 0 points when there is none; it equals MakePair |
| Leagues.SkipStep | routes/leagues.py:77-78 | an entry whose matchup id was already processed leaves the processed set and the pairs unchanged |
| Leagues.AddStep | routes/leagues.py:80-90 | an entry with a new matchup id adds the id to the processed set and appends its pair |
| Leagues.Pairing | routes/leagues.py:70-90 | the reference definition of the pairing: the pair of each distinct matchup id's first entry, in order of first occurrence; PairingPerMatchup states it in terms of the entries |
| Leagues.PairMatchups | routes/leagues.py:70-90 | the loop's pairs are exactly one pair per distinct matchup id, in order of first occurrence |
| Leagues.PairingPerMatchup | routes/leagues.py:71-83 | one pair per distinct matchup id, no id twice, ids in order of first occurrence, each pair built from its id's first entry, and every entry's id is covered |
| Leagues.FixturePair | routes/leagues.py:80-88 | in a well-formed fixture (one matchup id, two rosters) the first entry is paired with the other one |
| Leagues.ByePair | routes/leagues.py:80-88 | an entry with no other roster in its matchup faces "Unknown Team" with 0 points; it is not dropped |
| Leagues.LeagueDetails | routes/leagues.py:26-98 | a missing league, roster list or user list gives the not-found error and changes no record; otherwise the page holds the enriched rosters as standings with ranks 1..n, and the pairing of the week's entries against those standings |
| Leagues.LeagueHistory | routes/leagues.py:101-145 | no previous league gives the no-history error; no previous season data gives the no-data error; an error changes no record; otherwise the previous rosters are ranked like the current standings, in place, with team names and usernames untouched |
| Rosters.Bench | routes/rosters.py:34-36 | every bench id is a player and not a starter; every player is a starter or on the bench |
| Rosters.BenchConcat | routes/rosters.py:35 | the bench filter distributes over concatenation, so it keeps the players' order |
| Rosters.BenchMultiplicity | routes/rosters.py:35 | a starter occurs on the bench zero times; any other player occurs as often as in the roster |
| Rosters.RosterDetails | routes/rosters.py:11-38 | an empty roster or user list gives "Roster or user data not found."; no roster with the id gives "Roster not found."; otherwise the page is built from the first roster with the id |
| Rosters.OwnerNames | routes/rosters.py:28-30 | the owner's names of a roster page, with their fallbacks; OwnerNamesSpec states them in terms of the users |
| Rosters.ViewOf | routes/rosters.py:33-38 | the page of a found roster: owner names, starters, bench and taxi through the player table, draft picks as they are; ViewLists states its lists' properties |
| Rosters.OwnerNamesSpec | routes/rosters.py:28-30 | the owner is the first user whose id is the roster's `owner_id`; the team name falls back to "Roster {roster_id}" and the username to "Unknown User" |
| Rosters.ViewLists | routes/rosters.py:33-38 | starters, bench and taxi keep one entry per id; missing lists read as empty; a failed query shows the ids of all three lists themselves; draft picks pass through, defaulting to empty |

## Left out

- Requests to the league-hosting service (utils/sleeper_api.py) and `get_current_week`: their results are parameters of the pages.
- `get_previous_league_id` and `get_previous_year_data` are imported by routes/leagues.py but are not defined in utils/sleeper_api.py; their results are parameters of `Leagues.LeagueHistory`.
- The database connection and query text of `map_players` (utils/helpers.py:24-29, 40-42) and utils/db.py: the query result is the `table` parameter.
- Rosters.RosterDetails: the source queries the database once per list, so one query can fail while another succeeds; the model uses one table, or one failure, for all three lists.
- Page rendering, the `league` record, the week number and the winners' and losers' brackets (routes/leagues.py:136-137), which are only passed to templates; `error_response`; the leagues-list route (routes/leagues.py:18-23); routes/home.py and app.py.
- Floating-point points: matchup points and `fpts` are integers; points are only copied and `fpts` is only a sort key.
- Crash paths on malformed input: a missing matchup list or a missing `settings` key. Well-formed records are assumed. An entry without a `matchup_id` key is treated like one whose id is null, although the opponent search at routes/leagues.py:80 would fail on it.
- A user without `metadata` or without `display_name`: the league page fails on either (routes/leagues.py:43-44), while the roster page falls back (routes/rosters.py:29-30). A missing `metadata` gives the same result as metadata without a team name, which the model has. Every modelled user has a display name.
- Rosters.OwnerNames: does not produce the "Unknown User" fallback for a matched user without `display_name` (routes/rosters.py:30), because the model has no such user.
- The error message `map_players` prints when the query fails (utils/helpers.py:38); only its return value is modelled.
- Records shared between two slots of a roster list: the ranking and page methods require the records to be distinct, as decoded JSON never shares them.
- Python's Timsort is replaced by an insertion sort; `Helpers.StandingsIsTheStableSort` shows both give the same standings.
