/** The nine seats of a table, poker_simulations/constants.py: `POSITIONS`
    numbers them from the button, `POSITIONS_INVERTED` is its inverse and
    `BETTING_ORDER` lists them from the small blind round to the button.
    `Position.next_position` of poker_simulations/player.py walks them.
    The source names seats by strings; `Seat` is the set of valid names, and
    a dict lookup that would raise KeyError is `None` here. */
module Positions {
  import opened Wrappers

  datatype Seat = Btn | Sb | Bb | Utg1 | Utg2 | Mp1 | Mp2 | Mp3 | Co

  /** The position name of a seat. */
  function Name(s: Seat): string {
    match s
    case Btn => "btn"
    case Sb => "sb"
    case Bb => "bb"
    case Utg1 => "utg1"
    case Utg2 => "utg2"
    case Mp1 => "mp1"
    case Mp2 => "mp2"
    case Mp3 => "mp3"
    case Co => "co"
  }

  /** The seat a string names, if any. */
  function SeatNamed(n: string): (r: Option<Seat>)
    ensures r.Some? ==> Name(r.value) == n
  {
    if n == "btn" then Some(Btn)
    else if n == "sb" then Some(Sb)
    else if n == "bb" then Some(Bb)
    else if n == "utg1" then Some(Utg1)
    else if n == "utg2" then Some(Utg2)
    else if n == "mp1" then Some(Mp1)
    else if n == "mp2" then Some(Mp2)
    else if n == "mp3" then Some(Mp3)
    else if n == "co" then Some(Co)
    else None
  }

  lemma NameRoundTrip(s: Seat)
    ensures SeatNamed(Name(s)) == Some(s)
  {
  }

  /** The keys of `POSITIONS` in order, as seats. */
  const Seats: seq<Seat> := [Btn, Sb, Bb, Utg1, Utg2, Mp1, Mp2, Mp3, Co]

  /** `BETTING_ORDER`. */
  const BettingOrder: seq<string> :=
    ["sb", "bb", "utg1", "utg2", "mp1", "mp2", "mp3", "co", "btn"]

  /** `POSITIONS[i]`. */
  function PositionOf(i: int): (r: Option<string>)
    ensures r.Some? <==> 0 <= i < 9
  {
    if 0 <= i < 9 then Some(Name(Seats[i])) else None
  }

  /** The number `POSITIONS` gives a seat. */
  function Index(s: Seat): (i: nat)
    ensures i < 9 && Seats[i] == s
  {
    match s
    case Btn => 0
    case Sb => 1
    case Bb => 2
    case Utg1 => 3
    case Utg2 => 4
    case Mp1 => 5
    case Mp2 => 6
    case Mp3 => 7
    case Co => 8
  }

  /** `POSITIONS_INVERTED[n]`, the dict `{v: k for k, v in POSITIONS.items()}`. */
  function IndexOf(n: string): Option<nat> {
    match SeatNamed(n)
    case None => None
    case Some(s) => Some(Index(s))
  }

  predicate IsPosition(n: string) {
    SeatNamed(n).Some?
  }

  /** `POSITIONS` gives the nine seats nine different names. */
  lemma NamesDistinct(i: nat, j: nat)
    requires i < j < 9
    ensures Name(Seats[i]) != Name(Seats[j])
  {
    NameRoundTrip(Seats[i]);
    NameRoundTrip(Seats[j]);
  }

  /** `POSITIONS_INVERTED[POSITIONS[i]] == i` for every seat number. */
  lemma InvertedAfterPositions(i: int)
    requires 0 <= i < 9
    ensures IndexOf(PositionOf(i).value) == Some(i)
  {
    NameRoundTrip(Seats[i]);
    assert Index(Seats[i]) == i;
  }

  /** `POSITIONS[POSITIONS_INVERTED[n]] == n` for every position name, and
      the keys of `POSITIONS_INVERTED` are exactly the position names. */
  lemma PositionsAfterInverted(n: string)
    ensures IndexOf(n).Some? <==> exists i :: 0 <= i < 9 && PositionOf(i) == Some(n)
    ensures IndexOf(n).Some? ==> PositionOf(IndexOf(n).value) == Some(n)
  {
    if m :| 0 <= m < 9 && PositionOf(m) == Some(n) {
      InvertedAfterPositions(m);
    }
    if IndexOf(n).Some? {
      var s := SeatNamed(n).value;
      assert PositionOf(Index(s)) == Some(n);
    }
  }

  /** `BETTING_ORDER` is `POSITIONS` rotated left by one: it starts at the
      small blind, ends at the button, and holds each position once. */
  lemma BettingOrderRotates()
    ensures |BettingOrder| == 9
    ensures forall i :: 0 <= i < 9 ==> Some(BettingOrder[i]) == PositionOf((i + 1) % 9)
    ensures BettingOrder[0] == "sb" && BettingOrder[8] == "btn"
    ensures forall n :: n in BettingOrder <==> IsPosition(n)
  {
    forall n | IsPosition(n)
      ensures n in BettingOrder
    {
      var s := SeatNamed(n).value;
      assert BettingOrder[(Index(s) + 8) % 9] == Name(s);
    }
  }

  /** The seat after `s`, going round the table in the order of `POSITIONS`. */
  function Following(s: Seat): Seat {
    Seats[(Index(s) + 1) % 9]
  }

  /** `Position(p).next_position()`: the seat after `p`, and `None` for a
      string that names no seat. */
  function NextPosition(p: string): (r: Option<string>)
    ensures r == match SeatNamed(p)
      case None => None
      case Some(s) => Some(Name(Following(s)))
  {
    if p == "btn" then Some("sb")
    else if p == "sb" then Some("bb")
    else if p == "bb" then Some("utg1")
    else if p == "utg1" then Some("utg2")
    else if p == "utg2" then Some("mp1")
    else if p == "mp1" then Some("mp2")
    else if p == "mp2" then Some("mp3")
    else if p == "mp3" then Some("co")
    else if p == "co" then Some("btn")
    else None
  }

  /** `n` steps of `next_position` from `p`. */
  function Walk(p: string, n: nat): Option<string>
    decreases n
  {
    if n == 0 then Some(p)
    else match NextPosition(p)
      case None => None
      case Some(q) => Walk(q, n - 1)
  }

  /** `n` seats further round the table from `s`. */
  function Advance(s: Seat, n: nat): Seat
    decreases n
  {
    if n == 0 then s else Advance(Following(s), n - 1)
  }

  /** One call of `next_position` on a seat name gives the next seat's name. */
  lemma NextOfSeat(s: Seat)
    ensures NextPosition(Name(s)) == Some(Name(Following(s)))
  {
    NameRoundTrip(s);
  }

  lemma WalkOne(s: Seat, n: nat)
    requires n > 0
    ensures Walk(Name(s), n) == Walk(Name(Following(s)), n - 1)
  {
    NextOfSeat(s);
  }

  /** `n` calls of `next_position` from a seat name never leave the seat
      names and lead `n` seats further round. */
  lemma {:induction false} WalkAdvances(s: Seat, n: nat)
    ensures Walk(Name(s), n) == Some(Name(Advance(s, n)))
    decreases n
  {
    if n > 0 {
      WalkOne(s, n);
      WalkAdvances(Following(s), n - 1);
    }
  }

  lemma FollowingIndex(s: Seat)
    ensures Index(Following(s)) == (Index(s) + 1) % 9
  {
  }

  lemma ModStep(a: nat, n: nat)
    requires a < 9 && n > 0
    ensures ((a + 1) % 9 + (n - 1)) % 9 == (a + n) % 9
  {
    if a == 8 {
      assert (a + n) % 9 == ((n - 1) + 9) % 9;
    }
  }

  /** Going `n` seats round the table adds `n` to the seat number, modulo nine. */
  lemma {:induction false} AdvanceIndex(s: Seat, n: nat)
    ensures Index(Advance(s, n)) == (Index(s) + n) % 9
    decreases n
  {
    if n > 0 {
      AdvanceIndex(Following(s), n - 1);
      FollowingIndex(s);
      ModStep(Index(s), n);
    }
  }

  /** Any multiple of nine seats round the table leads back to the start. */
  lemma AdvanceRound(s: Seat, n: nat)
    requires n % 9 == 0
    ensures Advance(s, n) == s
  {
    AdvanceIndex(s, n);
    ModRound(Index(s), n);
    IndexInjective(Advance(s, n), s);
  }

  lemma {:induction false} ModRound(a: nat, n: nat)
    requires a < 9 && n % 9 == 0
    ensures (a + n) % 9 == a
    decreases n
  {
    if n >= 9 {
      ModRound(a, n - 9);
    }
  }

  /** Fewer than nine seats round the table never lead back to the start. */
  lemma AdvanceShort(s: Seat, n: nat)
    requires 0 < n < 9
    ensures Advance(s, n) != s
  {
    AdvanceIndex(s, n);
  }

  lemma IndexInjective(s: Seat, t: Seat)
    requires Index(s) == Index(t)
    ensures s == t
  {
  }

  lemma NameInjective(s: Seat, t: Seat)
    requires Name(s) == Name(t)
    ensures s == t
  {
    NameRoundTrip(s);
    NameRoundTrip(t);
  }

  /** `next_position` is a nine-cycle: nine calls from any seat return to it
      and fewer never do. */
  lemma NineCycle(s: Seat, n: nat)
    requires 0 < n < 9
    ensures Walk(Name(s), 9) == Some(Name(s))
    ensures Walk(Name(s), n) != Some(Name(s))
  {
    WalkAdvances(s, 9);
    WalkAdvances(s, n);
    AdvanceRound(s, 9);
    AdvanceShort(s, n);
    if Name(Advance(s, n)) == Name(s) {
      NameInjective(Advance(s, n), s);
    }
  }
}
