/** Players and the ring of seats, poker_simulations/player.py. A `Player`
    is an object whose stack and cards change in place; `Players` holds the
    dict from position names to the players sitting there. Stacks are whole
    chips. */
module Seating {
  import opened Wrappers
  import opened Cards
  import opened Positions

  /** `Player.valid_status`. */
  const ValidStatus: seq<string> := ["playing", "not-playing", "folded", "Empty"]

  /** The dict that `call` and `raise_` return. */
  datatype Action = Action(name: string, position: string, action: string, amount: int, status: string)

  /** The six rich comparisons of a player. */
  datatype Comparison = Lt | Le | Gt | Ge | Eq | Ne

  /** The integer comparison an operator applies to two position numbers. */
  function Holds(op: Comparison, i: int, j: int): bool {
    match op
    case Lt => i < j
    case Le => i <= j
    case Gt => i > j
    case Ge => i >= j
    case Eq => i == j
    case Ne => i != j
  }

  /** What `call(amount)` pays from a stack: the amount, or the whole stack
      when the amount is more than the stack. */
  function CallAmount(stack: int, amount: int): (paid: int)
    ensures paid <= amount && stack - paid >= 0
    ensures paid == amount <==> amount <= stack
    ensures paid != amount ==> paid == stack
  {
    if stack - amount < 0 then stack else amount
  }

  /** What `raise_(amount)` pays and the action it reports: all in for the
      whole stack when the amount reaches the stack, a raise otherwise. */
  function RaiseAmount(stack: int, amount: int): (r: (int, string))
    ensures r.1 == "all-in" <==> amount >= stack
    ensures r.1 == "all-in" ==> r.0 == stack
    ensures r.1 != "all-in" ==> r.1 == "raise" && r.0 == amount && stack - r.0 > 0
  {
    if amount >= stack then (stack, "all-in") else (amount, "raise")
  }

  /** The key a `Players` is indexed with: an int seat number, a position
      name (a `Position` object reads as its name), or a value of another type. */
  datatype Key = SeatNumber(i: int) | PositionName(s: string) | OtherKey

  /** The nine position names, the values of `POSITIONS`. */
  const PositionNames: set<string> := set i | 0 <= i < 9 :: Name(Seats[i])

  lemma PositionNamesAreNames(n: string)
    ensures n in PositionNames <==> IsPosition(n)
  {
    if IsPosition(n) {
      var s := SeatNamed(n).value;
      assert Name(Seats[Index(s)]) == n;
    }
    if n in PositionNames {
      var i :| 0 <= i < 9 && Name(Seats[i]) == n;
      NameRoundTrip(Seats[i]);
    }
  }

  class Player {
    var name: string
    var stack: int
    var position: string
    var status: string
    var cards: seq<Card>
    var holeCardsHidden: bool

    /** `Player(name, stack, position, cards, status)` for a valid status;
        `cards` is copied, so the player never shares it with the caller. */
    constructor (name: string, stack: int, position: string, cards: seq<Card>, status: string)
      requires status in ValidStatus
      ensures this.name == name && this.stack == stack && this.position == position
      ensures this.cards == cards && this.status == status && holeCardsHidden
    {
      this.name := name;
      this.stack := stack;
      this.position := position;
      this.status := status;
      this.cards := cards;
      holeCardsHidden := true;
    }

    /** The constructor as the caller sees it: ValueError for a status that
        is not one of `valid_status`. */
    static method New(name: string, stack: int, position: string, cards: seq<Card>, status: string)
      returns (r: Result<Player>)
      ensures r.Failure? <==> status !in ValidStatus
      ensures r.Failure? ==> r.error == ValueError
      ensures r.Success? ==> fresh(r.value) && r.value.name == name && r.value.stack == stack
      ensures r.Success? ==> r.value.position == position && r.value.cards == cards
      ensures r.Success? ==> r.value.status == status && r.value.holeCardsHidden
    {
      if status !in ValidStatus {
        return Failure(ValueError);
      }
      var p := new Player(name, stack, position, cards, status);
      return Success(p);
    }

    /** `EmptySeat(position)`: a player named 'Empty' with no chips, no cards
        and status 'Empty'. */
    static method EmptySeat(position: string) returns (p: Player)
      ensures fresh(p) && p.EmptyAt(position) && p.IsEmpty()
    {
      p := new Player("Empty", 0, position, [], "Empty");
    }

    predicate EmptyAt(pos: string)
      reads this
    {
      name == "Empty" && stack == 0 && position == pos && status == "Empty" && cards == []
    }

    /** `isempty()`. */
    predicate IsEmpty()
      reads this
    {
      status == "Empty"
    }

    /** `bet(amount)`: take the amount from the stack. */
    method Bet(amount: int) returns (r: int)
      modifies this`stack
      ensures r == amount && stack == old(stack) - amount
    {
      stack := stack - amount;
      r := amount;
    }

    /** `give_card(card)`: ValueError once more than two cards are held,
        otherwise the card is appended (so a third card is accepted). */
    method GiveCard(card: Card) returns (r: Result<()>)
      modifies this`cards
      ensures r.Failure? <==> |old(cards)| > 2
      ensures r.Failure? ==> r.error == ValueError && cards == old(cards)
      ensures r.Success? ==> cards == old(cards) + [card]
    {
      if |cards| > 2 {
        return Failure(ValueError);
      }
      cards := cards + [card];
      return Success(());
    }

    /** `remove_cards()`. */
    method RemoveCards()
      modifies this`cards
      ensures cards == []
    {
      cards := [];
    }

    /** `call(amount)`: ValueError for `None`; otherwise the stack pays
        `CallAmount` and the action reports what was paid. */
    method Call(amount: Option<int>) returns (r: Result<Action>)
      modifies this`stack
      ensures amount.None? ==> r == Failure(ValueError) && stack == old(stack)
      ensures amount.Some? ==> (r.Success? && r.value ==
        Action(name, position, "call", CallAmount(old(stack), amount.value), "playing"))
      ensures r.Success? ==> stack == old(stack) - r.value.amount && stack >= 0
    {
      if amount.None? {
        return Failure(ValueError);
      }
      var paid := amount.value;
      if stack - paid < 0 {
        paid := stack;
      }
      stack := stack - paid;
      return Success(Action(name, position, "call", paid, "playing"));
    }

    /** `raise_(amount)`: the stack pays `RaiseAmount`; an all-in leaves it empty. */
    method Raise(amount: int) returns (r: Action)
      modifies this`stack
      ensures r == Action(name, position, RaiseAmount(old(stack), amount).1,
                          RaiseAmount(old(stack), amount).0, "playing")
      ensures stack == old(stack) - r.amount
      ensures r.action == "all-in" ==> stack == 0
      ensures r.action == "raise" ==> stack > 0
    {
      var action := "raise";
      var paid := amount;
      if amount >= stack {
        paid := stack;
        action := "all-in";
      }
      stack := stack - paid;
      r := Action(name, position, action, paid, "playing");
    }

    /** `__lt__`, `__le__`, `__gt__`, `__ge__`, `__eq__`, `__ne__`: TypeError
        against a non-player, KeyError when either position is not a
        position name, otherwise the comparison of the position numbers. */
    function Compare(op: Comparison, other: Operand<Player>): (r: Result<bool>)
      reads this, if other.Instance? then {other.value} else {}
      ensures other.Foreign? ==> r == Failure(TypeError)
      ensures other.Instance? ==> (r.Failure? <==> !IsPosition(position) || !IsPosition(other.value.position))
      ensures r.Failure? && other.Instance? ==> r.error == KeyError
    {
      match other
      case Foreign => Failure(TypeError)
      case Instance(p) =>
        match (IndexOf(position), IndexOf(p.position))
        case (Some(i), Some(j)) => Success(Holds(op, i, j))
        case _ => Failure(KeyError)
    }
  }

  /** Between two seated players the six operators agree with one order:
      players are equal exactly when they sit at the same position, exactly
      one of `<`, `==`, `>` holds, `<=` and `>=` are `<` or `==` and `>` or
      `==`, `>` is the converse of `<`, and `!=` negates `==`. */
  lemma {:induction false} OrderedBySeat(a: Player, b: Player)
    requires IsPosition(a.position) && IsPosition(b.position)
    ensures a.Compare(Eq, Instance(b)) == Success(a.position == b.position)
    ensures a.Compare(Lt, Instance(b)).Success? && a.Compare(Gt, Instance(b)).Success?
    ensures a.Compare(Lt, Instance(b)).value || a.Compare(Eq, Instance(b)).value || a.Compare(Gt, Instance(b)).value
    ensures !(a.Compare(Lt, Instance(b)).value && a.Compare(Gt, Instance(b)).value)
    ensures a.Compare(Le, Instance(b)) == Success(a.Compare(Lt, Instance(b)).value || a.Compare(Eq, Instance(b)).value)
    ensures a.Compare(Ge, Instance(b)) == Success(a.Compare(Gt, Instance(b)).value || a.Compare(Eq, Instance(b)).value)
    ensures a.Compare(Gt, Instance(b)) == b.Compare(Lt, Instance(a))
    ensures a.Compare(Ne, Instance(b)) == Success(!a.Compare(Eq, Instance(b)).value)
  {
    var s, t := SeatNamed(a.position).value, SeatNamed(b.position).value;
    if Index(s) == Index(t) {
      IndexInjective(s, t);
    }
  }

  /** `{position: player for position, player in zip(POSITIONS.values()[:n], players)}`:
      the first nine players, each at the position of its index. */
  function Zipped(ps: seq<Player>, i: nat): (m: map<string, Player>)
    requires i <= 9
    decreases 9 - i
  {
    if i == 9 || i >= |ps| then map[] else Zipped(ps, i + 1)[Name(Seats[i]) := ps[i]]
  }

  /** The i-th player sits at `POSITIONS[i]`, and a zipped list has no other keys. */
  lemma {:induction false} ZippedSpec(ps: seq<Player>, i: nat)
    requires i <= 9
    ensures forall j :: i <= j < 9 && j < |ps| ==> Name(Seats[j]) in Zipped(ps, i) && Zipped(ps, i)[Name(Seats[j])] == ps[j]
    ensures forall k :: k in Zipped(ps, i) ==> exists j :: i <= j < 9 && j < |ps| && k == Name(Seats[j])
    decreases 9 - i
  {
    if i < 9 && i < |ps| {
      ZippedSpec(ps, i + 1);
      forall j | i < j < 9 && j < |ps|
        ensures Name(Seats[j]) != Name(Seats[i])
      {
        NamesDistinct(i, j);
      }
    }
  }

  /** The argument of `Players(iterable)`: a list of players, or a dict from
      keys to players. */
  datatype Iterable = List(players: seq<Player>) | Dict(entries: map<string, Player>)

  /** `len(iterable)`. */
  function Size(it: Iterable): nat {
    match it
    case List(ps) => |ps|
    case Dict(d) => |d|
  }

  /** The dict the constructor starts from. */
  function Given(it: Iterable): map<string, Player> {
    match it
    case List(ps) => Zipped(ps, 0)
    case Dict(d) => d
  }

  class Players {
    var seats: map<string, Player>
    var numPlayers: nat

    /** Every position has a seat and there are no other keys. */
    predicate Valid()
      reads this
    {
      seats.Keys == PositionNames
    }

    constructor Init(seats: map<string, Player>, numPlayers: nat)
      ensures this.seats == seats && this.numPlayers == numPlayers
    {
      this.seats := seats;
      this.numPlayers := numPlayers;
    }

    /** `Players(iterable)`: ValueError when a dict key is not a position
        name; otherwise every given player keeps its position and each
        position left free gets a new `EmptySeat`. */
    static method New(it: Iterable) returns (r: Result<Players>)
      ensures r.Failure? <==> !(Given(it).Keys <= PositionNames)
      ensures r.Failure? ==> r.error == ValueError
      ensures r.Success? ==> fresh(r.value) && r.value.Valid() && r.value.numPlayers == Size(it)
      ensures r.Success? ==> forall k :: k in Given(it) ==> r.value.seats[k] == Given(it)[k]
      ensures r.Success? ==> forall k :: k in r.value.seats && k !in Given(it) ==>
        fresh(r.value.seats[k]) && r.value.seats[k].EmptyAt(k)
    {
      var given := Given(it);
      if !(given.Keys <= PositionNames) {
        return Failure(ValueError);
      }
      var p := new Players.Init(given, Size(it));
      p.FillEmptySeats();
      return Success(p);
    }

    /** The loop `for pos in POSITIONS`: each position without a player gets
        a new `EmptySeat`. */
    method FillEmptySeats()
      requires seats.Keys <= PositionNames
      modifies this`seats
      ensures Valid()
      ensures forall k :: k in old(seats) ==> seats[k] == old(seats)[k]
      ensures forall k :: k in seats && k !in old(seats) ==> fresh(seats[k]) && seats[k].EmptyAt(k)
    {
      for i := 0 to 9
        invariant seats.Keys <= PositionNames
        invariant forall j :: 0 <= j < i ==> Name(Seats[j]) in seats
        invariant forall k :: k in old(seats) ==> k in seats && seats[k] == old(seats)[k]
        invariant forall k :: k in seats && k !in old(seats) ==> fresh(seats[k]) && seats[k].EmptyAt(k)
      {
        var pos := Name(Seats[i]);
        if pos !in seats {
          var e := Player.EmptySeat(pos);
          seats := seats[pos := e];
        }
      }
      forall k | k in PositionNames
        ensures k in seats
      {
        var j :| 0 <= j < 9 && Name(Seats[j]) == k;
      }
    }

    /** `players[item]`: an int is first turned into `POSITIONS[item]`
        (KeyError outside 0..8), a key of another type fails the assertion,
        and a missing name is a KeyError. */
    function Get(item: Key): (r: Result<Player>)
      reads this
      ensures item.OtherKey? ==> r == Failure(AssertionError)
      ensures item.SeatNumber? ==> (r.Success? <==> 0 <= item.i < 9 && Name(Seats[item.i]) in seats)
      ensures item.PositionName? ==> (r.Success? <==> item.s in seats)
      ensures r.Failure? && !item.OtherKey? ==> r.error == KeyError
      ensures item.SeatNumber? && r.Success? ==> r.value == seats[Name(Seats[item.i])]
      ensures item.PositionName? && r.Success? ==> r.value == seats[item.s]
    {
      var name := match item
        case SeatNumber(i) => PositionOf(i)
        case PositionName(s) => Some(s)
        case OtherKey => None;
      if item.OtherKey? then Failure(AssertionError)
      else if name.None? || name.value !in seats then Failure(KeyError)
      else Success(seats[name.value])
    }

    /** `players[key] = value`: ValueError unless the key is a position name. */
    method Set(key: string, value: Player) returns (r: Result<()>)
      modifies this`seats
      ensures r.Failure? <==> !IsPosition(key)
      ensures r.Failure? ==> r.error == ValueError && seats == old(seats)
      ensures r.Success? ==> seats == old(seats)[key := value]
      ensures old(Valid()) ==> Valid()
    {
      PositionNamesAreNames(key);
      if key !in PositionNames {
        return Failure(ValueError);
      }
      seats := seats[key := value];
      return Success(());
    }
  }

  /** After `Players(list)`, `players[i]` is the i-th player of the list for
      each of the first nine, and every seat can be looked up by number. */
  lemma ListedBySeatNumber(p: Players, ps: seq<Player>, i: int)
    requires p.Valid()
    requires forall k :: k in Zipped(ps, 0) ==> k in p.seats && p.seats[k] == Zipped(ps, 0)[k]
    requires 0 <= i < 9
    ensures p.Get(SeatNumber(i)).Success?
    ensures i < |ps| ==> p.Get(SeatNumber(i)) == Success(ps[i])
  {
    var k := Name(Seats[i]);
    assert k in PositionNames;
    if i < |ps| {
      ZippedSpec(ps, 0);
      assert k in Zipped(ps, 0) && Zipped(ps, 0)[k] == ps[i];
    }
  }
}
