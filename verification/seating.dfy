/**
 * Cyclic walks around the table. Every hook that looks for "the next seat"
 * steps `index := (index + 1) % n` until it reaches a seat that qualifies;
 * this module gives those walks a specification: `Scan` counts the steps to
 * the first qualifying seat, and `FirstEligible` / `NextEligibleAfter` name the
 * seat a walk stops at.
 */
module Seating {
  import opened PokerTypes

  /** Which seats a walk stops at. */
  datatype Eligibility =
    | NotFolded        // `isActive`
    | HasChips         // `isActive` and a stack that is not 0

  predicate Eligible(p: Player, e: Eligibility)
  {
    match e
    case NotFolded => p.isActive
    case HasChips => p.isActive && p.stack != 0
  }

  predicate AnyEligible(ps: seq<Player>, e: Eligibility)
  {
    exists j :: 0 <= j < |ps| && Eligible(ps[j], e)
  }

  /** The seat reached after `k` steps clockwise from seat `start` at a table of `n` seats. */
  function Seat(start: nat, k: nat, n: nat): (j: nat)
    requires n > 0
    ensures j < n
  {
    (start + k) % n
  }

  /** Without wrapping twice, a seat is the plain sum or the sum less one lap. */
  lemma SeatFormula(start: nat, k: nat, n: nat)
    requires n > 0 && start + k < 2 * n
    ensures Seat(start, k, n) == if start + k < n then start + k else start + k - n
  {
    if start + k < n {
      ModBetween(start + k, n, 0);
    } else {
      ModBetween(start + k, n, 1);
    }
  }

  /** The quotient and remainder of `x` by `n` when `x` lies in the `q`-th lap. */
  lemma ModBetween(x: int, n: nat, q: int)
    requires n > 0 && q * n <= x < q * n + n
    ensures x / n == q && x % n == x - q * n
  {
    var d, m := x / n, x % n;
    assert x == d * n + m && 0 <= m < n;
    assert (d - q) * n == x - q * n - m;
    if d - q >= 1 {
      MulGrows(d - q, n);
    } else if d - q <= -1 {
      MulGrows(q - d, n);
    }
  }

  /** One more step moves the walk to the next seat, wrapping from n - 1 to 0. */
  lemma SeatNext(start: nat, k: nat, n: nat)
    requires n > 0 && start < n && k < n
    ensures (Seat(start, k, n) + 1) % n == Seat(start, k + 1, n)
  {
    SeatFormula(start, k, n);
    SeatFormula(start, k + 1, n);
    SeatFormula(Seat(start, k, n), 1, n);
  }

  /** The seat just after `cur`. */
  function After(cur: nat, n: nat): (j: nat)
    requires n > 0
    ensures j < n
  {
    (cur + 1) % n
  }

  /** A full lap returns to the same seat. */
  lemma FullLap(y: nat, n: nat)
    requires n > 0
    ensures (y + n) % n == y % n
  {
    var q := y / n;
    ModBetween(y, n, q);
    assert (q + 1) * n == q * n + n;
    ModBetween(y + n, n, q + 1);
  }

  lemma {:induction false} MulGrows(a: nat, n: nat)
    requires a >= 1
    ensures a * n >= n
  {
    if a > 1 {
      MulGrows(a - 1, n);
      assert a * n == (a - 1) * n + n;
    }
  }

  /** Stepping once from the seat reached after `k` steps is taking `k + 1` steps, for any `k`. */
  lemma {:induction false} SeatAfter(start: nat, k: nat, n: nat)
    requires n > 0
    ensures After(Seat(start, k, n), n) == Seat(start, k + 1, n)
    decreases start + k
  {
    var x := start + k;
    if x < n {
      SeatFormula(start, k, n);
      SeatFormula(start, k + 1, n);
      SeatFormula(Seat(start, k, n), 1, n);
    } else {
      FullLap(x - n, n);
      FullLap(x - n + 1, n);
      SeatAfter(x - n, 0, n);
    }
  }

  /** Every seat is reached within one lap from any starting seat. */
  lemma {:induction false} SeatCovers(start: nat, j: nat, n: nat) returns (k: nat)
    requires start < n && j < n
    ensures k < n && Seat(start, k, n) == j
    ensures j != start ==> k > 0
  {
    k := if start <= j then j - start else j + n - start;
    SeatFormula(start, k, n);
  }

  /**
   * The number of steps, from `d` on and below `limit`, after which a walk from
   * `start` first meets an eligible seat; None when there is none in that range.
   */
  function Scan(ps: seq<Player>, e: Eligibility, start: nat, d: nat, limit: nat): (r: Option<nat>)
    requires |ps| > 0
    ensures r.Some? ==> d <= r.value < limit && Eligible(ps[Seat(start, r.value, |ps|)], e)
    ensures r.Some? ==> forall k :: d <= k < r.value ==> !Eligible(ps[Seat(start, k, |ps|)], e)
    ensures r.None? ==> forall k :: d <= k < limit ==> !Eligible(ps[Seat(start, k, |ps|)], e)
    decreases limit - d
  {
    if d >= limit then None
    else if Eligible(ps[Seat(start, d, |ps|)], e) then Some(d)
    else Scan(ps, e, start, d + 1, limit)
  }

  /** A walk of a full lap finds an eligible seat exactly when the table has one. */
  lemma ScanFullLap(ps: seq<Player>, e: Eligibility, start: nat)
    requires start < |ps|
    ensures Scan(ps, e, start, 0, |ps|).Some? <==> AnyEligible(ps, e)
  {
    if AnyEligible(ps, e) {
      var j :| 0 <= j < |ps| && Eligible(ps[j], e);
      var k := SeatCovers(start, j, |ps|);
    }
  }

  /**
   * The first eligible seat reached by walking clockwise from `start`, `start`
   * itself included: the seat a `while (!eligible(ps[i])) i = (i + 1) % n` loop
   * stops at.
   */
  function FirstEligible(ps: seq<Player>, e: Eligibility, start: nat): (r: nat)
    requires start < |ps| && AnyEligible(ps, e)
    ensures r < |ps| && Eligible(ps[r], e)
    ensures exists g :: 0 <= g < |ps| && r == Seat(start, g, |ps|) &&
              forall k :: 0 <= k < g ==> !Eligible(ps[Seat(start, k, |ps|)], e)
    ensures Eligible(ps[start], e) ==> r == start
  {
    ScanFullLap(ps, e, start);
    SeatFormula(start, 0, |ps|);
    Seat(start, Scan(ps, e, start, 0, |ps|).value, |ps|)
  }

  /**
   * The first eligible seat strictly after `cur` going clockwise, or `cur`
   * itself when no other seat is eligible: the seat the walk
   * `i = (cur + 1) % n; while (i != cur && !eligible(ps[i])) i = (i + 1) % n` stops at.
   */
  function NextEligibleAfter(ps: seq<Player>, e: Eligibility, cur: nat): (r: nat)
    requires cur < |ps|
    ensures r < |ps|
    ensures r == cur <==> forall j :: 0 <= j < |ps| && j != cur ==> !Eligible(ps[j], e)
    ensures r != cur ==> Eligible(ps[r], e)
    ensures r != cur ==>
              exists g :: 0 <= g < |ps| - 1 && r == Seat(After(cur, |ps|), g, |ps|) &&
                forall k :: 0 <= k < g ==> !Eligible(ps[Seat(After(cur, |ps|), k, |ps|)], e)
  {
    var n := |ps|;
    var start := After(cur, n);
    LastSeatOfLap(cur, n);
    match Scan(ps, e, start, 0, n - 1)
    case Some(g) =>
      SeatBeforeLapEnd(cur, g, n);
      Seat(start, g, n)
    case None =>
      forall j | 0 <= j < n && j != cur
        ensures !Eligible(ps[j], e)
      {
        var k := SeatCovers(start, j, n);
        assert k != n - 1;
      }
      cur
  }

  /** A lap that starts just after `cur` ends on `cur`. */
  lemma LastSeatOfLap(cur: nat, n: nat)
    requires cur < n
    ensures Seat(After(cur, n), n - 1, n) == cur
  {
    SeatFormula(cur + 1, 0, n);
    SeatFormula(After(cur, n), n - 1, n);
  }

  /** Before the last step of a lap that starts just after `cur`, the walk is never on `cur`. */
  lemma SeatBeforeLapEnd(cur: nat, g: nat, n: nat)
    requires cur < n && g < n - 1
    ensures Seat(After(cur, n), g, n) != cur
  {
    SeatFormula(cur + 1, 0, n);
    SeatFormula(After(cur, n), g, n);
  }

  /** The three seat roles a hand assigns. */
  datatype Role = Dealer | SmallBlind | BigBlind

  predicate HasRole(p: Player, role: Role)
  {
    match role
    case Dealer => p.isDealer
    case SmallBlind => p.isSmallBlind
    case BigBlind => p.isBigBlind
  }

  /** The index of the first seat with the given role flag, or -1 (JavaScript `findIndex`). */
  function IndexOfRole(ps: seq<Player>, role: Role): (r: int)
    ensures -1 <= r < |ps|
    ensures r >= 0 ==> HasRole(ps[r], role) && forall k :: 0 <= k < r ==> !HasRole(ps[k], role)
    ensures r == -1 <==> forall k :: 0 <= k < |ps| ==> !HasRole(ps[k], role)
  {
    if ps == [] then -1
    else if HasRole(ps[0], role) then 0
    else
      var r := IndexOfRole(ps[1..], role);
      if r == -1 then -1 else r + 1
  }
}
