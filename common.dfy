/** Small value types and sequence helpers shared by the league and roster modules. */
module Common {

  datatype Option<+T> = None | Some(value: T)

  /** A page-level outcome: a value, or the error message the page would show. */
  datatype Result<+T> = Ok(value: T) | Err(message: string)

  /** `d.get(key, default)` once the key's presence is an Option. */
  function OrElse<T>(o: Option<T>, default: T): T {
    match o
    case Some(v) => v
    case None => default
  }

  /** `d.get(key, [])` for a list-valued key. */
  function OrEmpty<T>(o: Option<seq<T>>): seq<T> {
    OrElse(o, [])
  }

  /** Decimal rendering of an integer, as an f-string renders it. */
  function NatToDecimal(n: nat): (s: string)
    ensures |s| > 0
    ensures forall i :: 0 <= i < |s| ==> '0' <= s[i] <= '9'
    ensures n > 0 ==> s[0] != '0'
  {
    if n < 10 then ["0123456789"[n]]
    else NatToDecimal(n / 10) + ["0123456789"[n % 10]]
  }

  /** The number a string of decimal digits spells. */
  function DecimalValue(s: string): nat
    requires forall i :: 0 <= i < |s| ==> '0' <= s[i] <= '9'
  {
    if s == [] then 0
    else 10 * DecimalValue(s[..|s| - 1]) + ((s[|s| - 1] as int) - ('0' as int))
  }

  /** The rendering reads back as the number it renders. */
  lemma {:induction false} NatToDecimalRoundTrip(n: nat)
    ensures DecimalValue(NatToDecimal(n)) == n
  {
    var s := NatToDecimal(n);
    if n >= 10 {
      NatToDecimalRoundTrip(n / 10);
      assert s[..|s| - 1] == NatToDecimal(n / 10);
    }
  }

  function IntToDecimal(n: int): string {
    if n < 0 then "-" + NatToDecimal(-n) else NatToDecimal(n)
  }

  // ---------------------------------------------------------------------------
  // `next((x for x in s if p(x)), None)`: the first element satisfying p.
  // ---------------------------------------------------------------------------

  /** i is the position of the first element of s satisfying p. */
  predicate IsFirst<T>(s: seq<T>, p: T -> bool, i: int) {
    0 <= i < |s| && p(s[i]) && forall j :: 0 <= j < i ==> !p(s[j])
  }

  function FirstIndex<T>(s: seq<T>, p: T -> bool): (r: Option<nat>)
    ensures r.Some? ==> IsFirst(s, p, r.value)
    ensures r.None? <==> forall j :: 0 <= j < |s| ==> !p(s[j])
  {
    if s == [] then None
    else if p(s[0]) then Some(0)
    else match FirstIndex(s[1..], p)
      case None => None
      case Some(i) => Some(i + 1)
  }

  /** The first element is unique: any position claiming to be first is the one FirstIndex finds. */
  lemma FirstIsUnique<T>(s: seq<T>, p: T -> bool, i: int)
    requires IsFirst(s, p, i)
    ensures FirstIndex(s, p) == Some(i)
  {
  }

  // ---------------------------------------------------------------------------
  // First occurrences: the distinct elements of a sequence in order of first
  // appearance, as a loop that skips already-seen keys produces them.
  // ---------------------------------------------------------------------------

  /** Position of the first occurrence of x in s. */
  function IndexOf<T(==)>(s: seq<T>, x: T): (i: nat)
    requires x in s
    ensures i < |s| && s[i] == x && x !in s[..i]
  {
    if s[0] == x then 0
    else
      var i := 1 + IndexOf(s[1..], x);
      assert s[..i] == [s[0]] + s[1..][..i - 1];
      i
  }

  /** The element at position i is the first occurrence of its value exactly when it is not in s[..i]. */
  lemma IndexOfFirstOccurrence<T>(s: seq<T>, i: nat)
    requires i < |s| && s[i] !in s[..i]
    ensures IndexOf(s, s[i]) == i
  {
  }

  /** Adding elements at the end does not move a first occurrence. */
  lemma {:induction false} IndexOfPrefix<T>(s: seq<T>, n: nat, x: T)
    requires n <= |s| && x in s[..n]
    ensures IndexOf(s, x) == IndexOf(s[..n], x)
  {
    if s[0] != x {
      assert s[..n][1..] == s[1..][..n - 1];
      IndexOfPrefix(s[1..], n - 1, x);
    }
  }

  /** Each element of s once, in order of first appearance. */
  function Distinct<T(==)>(s: seq<T>): (d: seq<T>)
    ensures forall i :: 0 <= i < |d| ==> d[i] in s
    ensures forall i :: 0 <= i < |s| ==> s[i] in d
  {
    if s == [] then []
    else
      var init, last := s[..|s| - 1], s[|s| - 1];
      assert s == init + [last];
      if last in init then Distinct(init) else Distinct(init) + [last]
  }

  lemma {:induction false} DistinctHasNoDuplicates<T>(s: seq<T>)
    ensures forall a, b :: 0 <= a < b < |Distinct(s)| ==> Distinct(s)[a] != Distinct(s)[b]
  {
    if s != [] {
      DistinctHasNoDuplicates(s[..|s| - 1]);
    }
  }

  /** Distinct lists values by increasing position of their first occurrence in s. */
  lemma {:induction false} DistinctInFirstOccurrenceOrder<T>(s: seq<T>)
    ensures forall a, b :: 0 <= a < b < |Distinct(s)| ==> IndexOf(s, Distinct(s)[a]) < IndexOf(s, Distinct(s)[b])
  {
    if s != [] {
      var n := |s| - 1;
      var init, last := s[..n], s[n];
      var d := Distinct(s);
      DistinctInFirstOccurrenceOrder(init);
      forall x | x in init
        ensures IndexOf(s, x) == IndexOf(init, x)
      {
        IndexOfPrefix(s, n, x);
      }
      if last !in init {
        IndexOfFirstOccurrence(s, n);
        forall a | 0 <= a < |d| - 1
          ensures IndexOf(s, d[a]) < IndexOf(s, last)
        {
          assert d[a] in init;
        }
      }
    }
  }
}
