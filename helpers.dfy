/**
 * utils/helpers.py: the standings order and ranking (`format_rosters`) and the
 * id-to-display-name stage of `map_players`.
 */
module Helpers {
  import opened Common
  import opened Records

  // ---------------------------------------------------------------------------
  // Standings order. The sort key is (-wins, -fpts): more wins first, then
  // more points; rosters with equal keys keep their input order.
  // ---------------------------------------------------------------------------

  /** a sorts strictly before b: its key (-wins, -fpts) is smaller. */
  predicate Ahead(a: Roster, b: Roster) {
    a.wins > b.wins || (a.wins == b.wins && a.fpts > b.fpts)
  }

  predicate HasKey(r: Roster, wins: int, fpts: int) {
    r.wins == wins && r.fpts == fpts
  }

  /** Wins never increase along s, and among equal wins points never increase. */
  predicate Ordered(s: seq<Roster>) {
    forall i, j :: 0 <= i < j < |s| ==> !Ahead(s[j], s[i])
  }

  /** The rosters of s whose key is (wins, fpts), in their order in s. */
  function KeyFilter(s: seq<Roster>, wins: int, fpts: int): (r: seq<Roster>)
  {
    if s == [] then []
    else (if HasKey(s[0], wins, fpts) then [s[0]] else []) + KeyFilter(s[1..], wins, fpts)
  }

  /** Places x after every roster of t that it does not sort strictly before. */
  function Insert(x: Roster, t: seq<Roster>): seq<Roster> {
    if t == [] then [x]
    else if Ahead(x, t[0]) then [x] + t
    else [t[0]] + Insert(x, t[1..])
  }

  /** `sorted(rosters, key=lambda r: (-r.wins, -r.fpts))`, as a stable insertion sort. */
  function Standings(s: seq<Roster>): seq<Roster> {
    if s == [] then [] else Insert(s[|s| - 1], Standings(s[..|s| - 1]))
  }

  lemma {:induction false} KeyFilterAppend(a: seq<Roster>, b: seq<Roster>, wins: int, fpts: int)
    ensures KeyFilter(a + b, wins, fpts) == KeyFilter(a, wins, fpts) + KeyFilter(b, wins, fpts)
  {
    if a == [] {
      assert a + b == b;
    } else {
      assert (a + b)[1..] == a[1..] + b;
      KeyFilterAppend(a[1..], b, wins, fpts);
    }
  }

  lemma {:induction false} InsertPermutation(x: Roster, t: seq<Roster>)
    ensures multiset(Insert(x, t)) == multiset(t) + multiset{x}
  {
    if t != [] && !Ahead(x, t[0]) {
      InsertPermutation(x, t[1..]);
      assert t == [t[0]] + t[1..];
    }
  }

  /** No roster of Insert(x, t) sorts strictly before y when none of t does and x does not. */
  lemma {:induction false} InsertBehind(x: Roster, t: seq<Roster>, y: Roster)
    requires forall i :: 0 <= i < |t| ==> !Ahead(t[i], y)
    requires !Ahead(x, y)
    ensures forall i :: 0 <= i < |Insert(x, t)| ==> !Ahead(Insert(x, t)[i], y)
  {
    if t != [] && !Ahead(x, t[0]) {
      InsertBehind(x, t[1..], y);
    }
  }

  lemma {:induction false} InsertOrdered(x: Roster, t: seq<Roster>)
    requires Ordered(t)
    ensures Ordered(Insert(x, t))
  {
    if t != [] && !Ahead(x, t[0]) {
      InsertOrdered(x, t[1..]);
      InsertBehind(x, t[1..], t[0]);
      var r := Insert(x, t);
      forall i, j | 0 <= i < j < |r|
        ensures !Ahead(r[j], r[i])
      {
        if i > 0 {
          assert r[i] == Insert(x, t[1..])[i - 1] && r[j] == Insert(x, t[1..])[j - 1];
        }
      }
    }
  }

  /** A roster that sorts strictly before an ordered t shares its key with no roster of t. */
  lemma NoneWithKeyBehind(x: Roster, t: seq<Roster>)
    requires Ordered(t) && t != [] && Ahead(x, t[0])
    ensures KeyFilter(t, x.wins, x.fpts) == []
  {
    forall i | 0 <= i < |t| ensures !HasKey(t[i], x.wins, x.fpts) {
      if i > 0 { assert !Ahead(t[i], t[0]); }
    }
  }

  lemma {:induction false} InsertKeyFilter(x: Roster, t: seq<Roster>, wins: int, fpts: int)
    requires Ordered(t)
    ensures KeyFilter(Insert(x, t), wins, fpts)
         == KeyFilter(t, wins, fpts) + (if HasKey(x, wins, fpts) then [x] else [])
  {
    if t != [] {
      var head, tail := [t[0]], t[1..];
      assert t == head + tail;
      KeyFilterAppend(head, tail, wins, fpts);
      if Ahead(x, t[0]) {
        assert Insert(x, t) == [x] + t;
        KeyFilterAppend([x], t, wins, fpts);
        if HasKey(x, wins, fpts) {
          NoneWithKeyBehind(x, t);
        }
      } else {
        assert Ordered(tail);
        InsertKeyFilter(x, tail, wins, fpts);
        assert Insert(x, t) == head + Insert(x, tail);
        KeyFilterAppend(head, Insert(x, tail), wins, fpts);
      }
    }
  }

  /** The standings hold exactly the input rosters, each as often as in the input. */
  lemma {:induction false} StandingsPermutation(s: seq<Roster>)
    ensures multiset(Standings(s)) == multiset(s)
  {
    if s != [] {
      var init, last := s[..|s| - 1], s[|s| - 1];
      StandingsPermutation(init);
      InsertPermutation(last, Standings(init));
      assert Standings(s) == Insert(last, Standings(init));
      assert s == init + [last];
      assert multiset(s) == multiset(init) + multiset{last};
    }
  }

  /** More wins first; among equal wins, more points first. */
  lemma {:induction false} StandingsOrdered(s: seq<Roster>)
    ensures Ordered(Standings(s))
  {
    if s != [] {
      StandingsOrdered(s[..|s| - 1]);
      InsertOrdered(s[|s| - 1], Standings(s[..|s| - 1]));
    }
  }

  /** Stability: the rosters sharing any one key appear in the standings in their input order. */
  lemma {:induction false} StandingsStable(s: seq<Roster>, wins: int, fpts: int)
    ensures KeyFilter(Standings(s), wins, fpts) == KeyFilter(s, wins, fpts)
  {
    if s != [] {
      var init, last := s[..|s| - 1], s[|s| - 1];
      var tail := if HasKey(last, wins, fpts) then [last] else [];
      StandingsStable(init, wins, fpts);
      StandingsOrdered(init);
      InsertKeyFilter(last, Standings(init), wins, fpts);
      assert KeyFilter(Standings(s), wins, fpts) == KeyFilter(init, wins, fpts) + tail;
      assert s == init + [last];
      KeyFilterAppend(init, [last], wins, fpts);
      assert KeyFilter([last], wins, fpts) == tail;
    }
  }

  /** The first roster of a non-empty key filter is a roster of s with that key. */
  lemma {:induction false} KeyFilterFirst(s: seq<Roster>, wins: int, fpts: int) returns (k: nat)
    requires KeyFilter(s, wins, fpts) != []
    ensures k < |s| && s[k] == KeyFilter(s, wins, fpts)[0] && HasKey(s[k], wins, fpts)
  {
    if HasKey(s[0], wins, fpts) {
      k := 0;
    } else {
      k := KeyFilterFirst(s[1..], wins, fpts);
      k := k + 1;
    }
  }

  lemma KeyFilterHead(s: seq<Roster>)
    ensures s != [] ==> KeyFilter(s, s[0].wins, s[0].fpts) != []
  {
  }

  /** Two non-empty ordered sequences that agree on every key's sub-sequence start with the same roster. */
  lemma OrderedHeadsAgree(a: seq<Roster>, b: seq<Roster>)
    requires a != [] && b != [] && Ordered(a) && Ordered(b)
    requires forall w, f :: KeyFilter(a, w, f) == KeyFilter(b, w, f)
    ensures a[0] == b[0]
  {
    var x, y := a[0], b[0];
    KeyFilterHead(a);
    KeyFilterHead(b);
    // y's key occurs in a, so y does not sort before a's head; and symmetrically
    assert KeyFilter(b, y.wins, y.fpts) != [];
    var k := KeyFilterFirst(a, y.wins, y.fpts);
    assert !Ahead(a[k], x);
    assert KeyFilter(a, x.wins, x.fpts) != [];
    var m := KeyFilterFirst(b, x.wins, x.fpts);
    assert !Ahead(b[m], y);
    assert HasKey(y, x.wins, x.fpts);
    assert KeyFilter(a, x.wins, x.fpts)[0] == x;
    assert KeyFilter(b, x.wins, x.fpts)[0] == y;
  }

  /** Dropping a common first roster keeps every key's sub-sequences equal. */
  lemma KeyFiltersOfTails(a: seq<Roster>, b: seq<Roster>)
    requires a != [] && b != [] && a[0] == b[0]
    requires forall w, f :: KeyFilter(a, w, f) == KeyFilter(b, w, f)
    ensures forall w, f :: KeyFilter(a[1..], w, f) == KeyFilter(b[1..], w, f)
  {
    forall w, f
      ensures KeyFilter(a[1..], w, f) == KeyFilter(b[1..], w, f)
    {
      var head := if HasKey(a[0], w, f) then [a[0]] else [];
      assert KeyFilter(a, w, f) == head + KeyFilter(a[1..], w, f);
      assert KeyFilter(b, w, f) == head + KeyFilter(b[1..], w, f);
      assert (head + KeyFilter(a[1..], w, f))[|head|..] == KeyFilter(a[1..], w, f);
      assert (head + KeyFilter(b[1..], w, f))[|head|..] == KeyFilter(b[1..], w, f);
    }
  }

  /** Two ordered sequences that agree on every key's sub-sequence are equal. */
  lemma {:induction false} OrderedByKeysUnique(a: seq<Roster>, b: seq<Roster>)
    requires Ordered(a) && Ordered(b)
    requires forall w, f :: KeyFilter(a, w, f) == KeyFilter(b, w, f)
    ensures a == b
    decreases |a| + |b|
  {
    KeyFilterHead(a);
    KeyFilterHead(b);
    if a != [] && b != [] {
      OrderedHeadsAgree(a, b);
      KeyFiltersOfTails(a, b);
      assert Ordered(a[1..]) && Ordered(b[1..]);
      OrderedByKeysUnique(a[1..], b[1..]);
      assert a == [a[0]] + a[1..] && b == [b[0]] + b[1..];
    }
    // a non-empty side would have its head's key in its filter, the other side not
  }

  /** Any stable sort by (-wins, -fpts) yields exactly Standings(s), whatever algorithm produced it. */
  lemma StandingsIsTheStableSort(s: seq<Roster>, t: seq<Roster>)
    requires Ordered(t)
    requires forall w, f :: KeyFilter(t, w, f) == KeyFilter(s, w, f)
    ensures t == Standings(s)
  {
    StandingsOrdered(s);
    forall w, f ensures KeyFilter(Standings(s), w, f) == KeyFilter(s, w, f) {
      StandingsStable(s, w, f);
    }
    OrderedByKeysUnique(t, Standings(s));
  }

  /** Ranking standings that are already ranked changes nothing. */
  lemma StandingsIdempotent(s: seq<Roster>)
    ensures Standings(Standings(s)) == Standings(s)
  {
    var t := Standings(s);
    StandingsOrdered(s);
    StandingsIsTheStableSort(t, t);
  }

  lemma {:induction false} NoAliasCount(s: seq<Roster>, x: Roster)
    requires NoAlias(s)
    ensures multiset(s)[x] <= 1
  {
    if s != [] {
      NoAliasCount(s[1..], x);
      assert s == [s[0]] + s[1..];
      assert s[0] !in s[1..];
    }
  }

  /** A permutation of rosters without aliases has none either. */
  lemma NoAliasPermutation(s: seq<Roster>, t: seq<Roster>)
    requires NoAlias(s) && multiset(s) == multiset(t)
    ensures NoAlias(t)
  {
    forall i, j | 0 <= i < j < |t|
      ensures t[i] != t[j]
    {
      if t[i] == t[j] {
        assert t == t[..j] + t[j..];
        assert t[i] in multiset(t[..j]);
        assert t[j] in multiset(t[j..]);
        NoAliasCount(s, t[i]);
        assert false;
      }
    }
  }

  /**
   * `format_rosters`: returns the standings and writes `rank = position + 1`
   * into each roster object, so the caller's records carry their rank too.
   */
  method FormatRosters(rosters: seq<Roster>) returns (standings: seq<Roster>)
    requires NoAlias(rosters)
    modifies rosters
    ensures standings == Standings(rosters)
    ensures forall i :: 0 <= i < |standings| ==> standings[i].rank == Some(i + 1)
    ensures forall r :: r in rosters ==> r.teamName == old(r.teamName) && r.username == old(r.username)
  {
    standings := Standings(rosters);
    StandingsPermutation(rosters);
    NoAliasPermutation(rosters, standings);
    for i := 0 to |standings|
      invariant forall j :: 0 <= j < i ==> standings[j].rank == Some(j + 1)
      invariant forall r :: r in rosters ==> r.teamName == old(r.teamName) && r.username == old(r.username)
    {
      assert standings[i] in multiset(rosters);
      assert forall j :: 0 <= j < i ==> standings[j] != standings[i];
      standings[i].rank := Some(i + 1);
    }
  }

  /** Ranks are exactly 1..n, without gaps or repeats, and every input roster holds one. */
  lemma RanksAreDense(rosters: seq<Roster>, standings: seq<Roster>)
    requires multiset(standings) == multiset(rosters)
    requires forall i :: 0 <= i < |standings| ==> standings[i].rank == Some(i + 1)
    ensures (set i | 0 <= i < |standings| :: standings[i].rank) == (set k | 1 <= k <= |standings| :: Some(k))
    ensures forall r :: r in rosters ==> r.rank.Some? && 1 <= r.rank.value <= |standings| && standings[r.rank.value - 1] == r
  {
    var n := |standings|;
    forall k | 1 <= k <= n
      ensures Some(k) in (set i | 0 <= i < n :: standings[i].rank)
    {
      assert standings[k - 1].rank == Some(k);
    }
    assert |multiset(standings)| == |multiset(rosters)|;
    forall r | r in rosters
      ensures r.rank.Some? && 1 <= r.rank.value <= |standings| && standings[r.rank.value - 1] == r
    {
      assert r in multiset(standings);
      var i :| 0 <= i < n && standings[i] == r;
    }
  }

  // ---------------------------------------------------------------------------
  // map_players: every id is shown as "first last (pos)" when the player table
  // has it, and as itself otherwise. `table` is the query result keyed by
  // player id; None stands for a failed lookup (the source's except branch).
  // ---------------------------------------------------------------------------

  function PlayerLabel(row: PlayerRow): string {
    row.firstName + " " + row.lastName + " (" + row.position + ")"
  }

  function MapPlayers(ids: seq<string>, table: Option<map<string, PlayerRow>>): (names: seq<string>)
    ensures |names| == |ids|
    ensures ids == [] ==> names == []
    ensures table.None? ==> names == ids
    ensures table.Some? ==> forall i :: 0 <= i < |ids| ==>
      names[i] == if ids[i] in table.value then PlayerLabel(table.value[ids[i]]) else ids[i]
  {
    if ids == [] then []
    else match table
      case None => ids
      case Some(rows) =>
        var name := if ids[0] in rows then PlayerLabel(rows[ids[0]]) else ids[0];
        [name] + MapPlayers(ids[1..], table)
  }

  /** The player table is applied entry by entry: order and duplicates carry over. */
  lemma {:induction false} MapPlayersConcat(a: seq<string>, b: seq<string>, table: Option<map<string, PlayerRow>>)
    ensures MapPlayers(a + b, table) == MapPlayers(a, table) + MapPlayers(b, table)
  {
    if table.Some? {
      if a == [] {
        assert a + b == b;
      } else {
        assert (a + b)[0] == a[0];
        assert (a + b)[1..] == a[1..] + b;
        MapPlayersConcat(a[1..], b, table);
      }
    }
  }
}
