/** Two routines of `Table` in poker_simulations/engine.py: `next_street`,
    which moves the game's street on, and `deal_preflop`, which walks the
    seats twice from the button and hands each occupied seat a card from the
    top of the deck at each visit. */
module Tables {
  import opened Wrappers
  import opened Cards
  import opened Positions
  import opened Seating
  import opened Decks

  /** The street `next_street` moves to from `s`: preflop, flop, turn,
      river, and `None` (ValueError) from any other street. */
  function StreetAfter(s: string): (r: Option<string>)
    ensures r.Some? <==> s in ["preflop", "flop", "turn"]
  {
    if s == "preflop" then Some("flop")
    else if s == "flop" then Some("turn")
    else if s == "turn" then Some("river")
    else None
  }

  /** `next_street` applied `n` times. */
  function Streets(s: string, n: nat): Option<string>
    decreases n
  {
    if n == 0 then Some(s)
    else match StreetAfter(s)
      case None => None
      case Some(t) => Streets(t, n - 1)
  }

  /** From preflop the street machine reaches flop, turn and river in
      three calls, and a fourth call fails. */
  lemma StreetsFromPreflop()
    ensures Streets("preflop", 1) == Some("flop")
    ensures Streets("preflop", 2) == Some("turn")
    ensures Streets("preflop", 3) == Some("river")
    ensures Streets("preflop", 4) == None
  {
  }

  /** The seat number `deal_preflop` visits at step `t`: the walk starts at
      the button and moves on before each visit. */
  function VisitAt(t: nat): (i: nat)
    ensures i < 9
  {
    (t + 1) % 9
  }

  /** The progress of `deal_preflop`: what is left of the deck, the cards
      each of the nine seats has been dealt, and whether `pop` has failed. */
  datatype Dealing = Dealing(deck: seq<Card>, got: seq<seq<Card>>, failed: bool)

  const NoCards: seq<seq<Card>> := [[], [], [], [], [], [], [], [], []]

  /** One step of the loop: an empty seat is skipped; an occupied seat gets
      the card `pop` returns, or the deal stops with IndexError. */
  function Step(occ: seq<bool>, st: Dealing, t: nat): (r: Dealing)
    requires |occ| == 9 && |st.got| == 9
    ensures |r.got| == 9
  {
    var i := VisitAt(t);
    if st.failed || !occ[i] then st
    else if st.deck == [] then st.(failed := true)
    else
      var n := |st.deck|;
      Dealing(st.deck[..n - 1], st.got[i := st.got[i] + [st.deck[n - 1]]], false)
  }

  /** The state after the first `t` steps, starting from `deck`. */
  function DealUpTo(occ: seq<bool>, deck: seq<Card>, t: nat): (r: Dealing)
    requires |occ| == 9
    ensures |r.got| == 9
  {
    if t == 0 then Dealing(deck, NoCards, false) else Step(occ, DealUpTo(occ, deck, t - 1), t - 1)
  }

  /** All the cards dealt to the seats. */
  function Total(got: seq<seq<Card>>): multiset<Card> {
    if got == [] then multiset{} else multiset(got[0]) + Total(got[1..])
  }

  lemma {:induction false} TotalUpdate(got: seq<seq<Card>>, i: nat, c: Card)
    requires i < |got|
    ensures Total(got[i := got[i] + [c]]) == Total(got) + multiset{c}
  {
    var g := got[i := got[i] + [c]];
    if i == 0 {
      assert g[1..] == got[1..];
    } else {
      assert g[1..] == got[1..][i - 1 := got[i] + [c]];
      TotalUpdate(got[1..], i - 1, c);
    }
  }

  /** The step that visits an occupied seat while cards are left moves the
      last card of the deck to that seat. */
  lemma StepDeals(occ: seq<bool>, deck: seq<Card>, t: nat)
    requires |occ| == 9
    requires var st := DealUpTo(occ, deck, t); !st.failed && occ[VisitAt(t)] && st.deck != []
    ensures var st, n := DealUpTo(occ, deck, t), |DealUpTo(occ, deck, t).deck|;
      DealUpTo(occ, deck, t + 1) ==
        Dealing(st.deck[..n - 1], st.got[VisitAt(t) := st.got[VisitAt(t)] + [st.deck[n - 1]]], false)
  {
  }

  lemma StepSkips(occ: seq<bool>, deck: seq<Card>, t: nat)
    requires |occ| == 9 && !occ[VisitAt(t)]
    ensures DealUpTo(occ, deck, t + 1) == DealUpTo(occ, deck, t)
  {
  }

  lemma StepFails(occ: seq<bool>, deck: seq<Card>, t: nat)
    requires |occ| == 9
    requires var st := DealUpTo(occ, deck, t); !st.failed && occ[VisitAt(t)] && st.deck == []
    ensures DealUpTo(occ, deck, t + 1).failed
  {
  }

  /** No card is lost or made: at every step the cards dealt and the cards
      left make up the starting deck. */
  lemma {:induction false} DealConserves(occ: seq<bool>, deck: seq<Card>, t: nat)
    requires |occ| == 9
    ensures Total(DealUpTo(occ, deck, t).got) + multiset(DealUpTo(occ, deck, t).deck) == multiset(deck)
  {
    if t == 0 {
      NothingDealt();
    } else {
      DealConserves(occ, deck, t - 1);
      var st := DealUpTo(occ, deck, t - 1);
      var i := VisitAt(t - 1);
      if !st.failed && occ[i] && st.deck != [] {
        StepDeals(occ, deck, t - 1);
        MoveConserves(st.got, st.deck, i);
      } else if !st.failed && occ[i] {
        StepFails(occ, deck, t - 1);
        assert DealUpTo(occ, deck, t) == st.(failed := true);
      } else {
        assert DealUpTo(occ, deck, t) == st;
      }
    }
  }

  lemma NothingDealt()
    ensures Total(NoCards) == multiset{}
  {
    var g := NoCards;
    assert g[1..][1..][1..][1..][1..][1..][1..][1..][1..] == [];
  }

  /** Moving the last card of the deck to seat `i` keeps the cards together. */
  lemma MoveConserves(got: seq<seq<Card>>, deck: seq<Card>, i: nat)
    requires i < |got| && deck != []
    ensures var n := |deck|;
      Total(got[i := got[i] + [deck[n - 1]]]) + multiset(deck[..n - 1]) == Total(got) + multiset(deck)
  {
    var n := |deck|;
    TotalUpdate(got, i, deck[n - 1]);
    assert deck == deck[..n - 1] + [deck[n - 1]];
  }

  /** The number of visits among the first `t` steps that find the seat occupied. */
  function Pops(occ: seq<bool>, t: nat): nat
    requires |occ| == 9
  {
    if t == 0 then 0 else Pops(occ, t - 1) + (if occ[VisitAt(t - 1)] then 1 else 0)
  }

  /** The number of the first `t` steps that visit seat `i`. */
  function Visits(i: nat, t: nat): nat {
    if t == 0 then 0 else Visits(i, t - 1) + (if VisitAt(t - 1) == i then 1 else 0)
  }

  /** The number of occupied seats among the first `n`. */
  function Occupied(occ: seq<bool>, n: nat): nat
    requires n <= |occ|
  {
    if n == 0 then 0 else Occupied(occ, n - 1) + (if occ[n - 1] then 1 else 0)
  }

  /** After `t` steps (no failure) the deck has lost its last `Pops` cards
      and each occupied seat has one card per visit; the deal fails exactly
      when more cards are wanted than the deck held. */
  lemma {:induction false} DealProgress(occ: seq<bool>, deck: seq<Card>, t: nat)
    requires |occ| == 9
    ensures DealUpTo(occ, deck, t).failed <==> |deck| < Pops(occ, t)
    ensures !DealUpTo(occ, deck, t).failed ==>
      (DealUpTo(occ, deck, t).deck == deck[..|deck| - Pops(occ, t)] &&
       forall i :: 0 <= i < 9 ==> |DealUpTo(occ, deck, t).got[i]| == (if occ[i] then Visits(i, t) else 0))
  {
    if t > 0 {
      DealProgress(occ, deck, t - 1);
      var st := DealUpTo(occ, deck, t - 1);
      if !st.failed && occ[VisitAt(t - 1)] && st.deck != [] {
        var n := |st.deck|;
        assert st.deck[..n - 1] == deck[..|deck| - Pops(occ, t)];
      }
    }
  }

  lemma VisitAtValue(t: nat)
    requires t < 18
    ensures VisitAt(t) == (if t < 8 then t + 1 else if t == 8 then 0 else if t < 17 then t - 8 else 0)
  {
  }

  /** Eighteen steps visit every seat exactly twice. */
  lemma {:induction false} VisitsClosed(i: nat, t: nat)
    requires i < 9 && t <= 18
    ensures Visits(i, t) ==
      if i == 0 then (if t >= 18 then 2 else if t >= 9 then 1 else 0)
      else (if t >= i + 9 then 2 else if t >= i then 1 else 0)
  {
    if t > 0 {
      VisitsClosed(i, t - 1);
      VisitAtValue(t - 1);
    }
  }

  /** The occupied visits of the first `t` steps, counted seat by seat over
      the first `n` seats. */
  function Weighted(occ: seq<bool>, t: nat, n: nat): nat
    requires |occ| == 9 && n <= 9
  {
    if n == 0 then 0 else Weighted(occ, t, n - 1) + (if occ[n - 1] then Visits(n - 1, t) else 0)
  }

  lemma {:induction false} WeightedStep(occ: seq<bool>, t: nat, n: nat)
    requires |occ| == 9 && n <= 9
    ensures Weighted(occ, t + 1, n) == Weighted(occ, t, n) + (if VisitAt(t) < n && occ[VisitAt(t)] then 1 else 0)
  {
    if n > 0 {
      WeightedStep(occ, t, n - 1);
    }
  }

  lemma {:induction false} PopsWeighted(occ: seq<bool>, t: nat)
    requires |occ| == 9
    ensures Pops(occ, t) == Weighted(occ, t, 9)
  {
    if t == 0 {
      WeightedZero(occ, 9);
    } else {
      PopsWeighted(occ, t - 1);
      WeightedStep(occ, t - 1, 9);
    }
  }

  lemma {:induction false} WeightedZero(occ: seq<bool>, n: nat)
    requires |occ| == 9 && n <= 9
    ensures Weighted(occ, 0, n) == 0
  {
    if n > 0 {
      WeightedZero(occ, n - 1);
    }
  }

  lemma {:induction false} WeightedFull(occ: seq<bool>, n: nat)
    requires |occ| == 9 && n <= 9
    ensures Weighted(occ, 18, n) == 2 * Occupied(occ, n)
  {
    if n > 0 {
      WeightedFull(occ, n - 1);
      VisitsClosed(n - 1, 18);
    }
  }

  /** What `deal_preflop` does, stated on its result: it fails exactly when
      the deck holds fewer than two cards per occupied seat; otherwise every
      occupied seat gets two cards, every empty seat none, and the deck loses
      exactly its last two cards per occupied seat. Either way the cards
      dealt are cards taken from the deck and nothing else. */
  lemma PreflopDeal(occ: seq<bool>, deck: seq<Card>)
    requires |occ| == 9
    ensures var st := DealUpTo(occ, deck, 18);
      (st.failed <==> |deck| < 2 * Occupied(occ, 9)) &&
      Total(st.got) + multiset(st.deck) == multiset(deck)
    ensures var st := DealUpTo(occ, deck, 18);
      !st.failed ==> (st.deck == deck[..|deck| - 2 * Occupied(occ, 9)] &&
        forall i :: 0 <= i < 9 ==> |st.got[i]| == (if occ[i] then 2 else 0))
  {
    DealProgress(occ, deck, 18);
    DealConserves(occ, deck, 18);
    PopsWeighted(occ, 18);
    WeightedFull(occ, 9);
    forall i | 0 <= i < 9
      ensures Visits(i, 18) == 2
    {
      VisitsClosed(i, 18);
    }
  }

  /** Once `pop` has failed nothing changes any more. */
  lemma {:induction false} FailedStays(occ: seq<bool>, deck: seq<Card>, t: nat, u: nat)
    requires |occ| == 9 && t <= u && DealUpTo(occ, deck, t).failed
    ensures DealUpTo(occ, deck, u) == DealUpTo(occ, deck, t)
    decreases u - t
  {
    if t < u {
      FailedStays(occ, deck, t, u - 1);
    }
  }

  lemma SeatsIndex(a: nat)
    requires a < 9
    ensures Index(Seats[a]) == a
  {
  }

  lemma ModNext(n: nat)
    ensures (n % 9 + 1) % 9 == (n + 1) % 9
  {
  }

  /** The seat after the one `count` steps see is the one step `count` visits. */
  lemma NextVisit(count: nat)
    ensures Following(Seats[count % 9]) == Seats[VisitAt(count)]
  {
    SeatsIndex(count % 9);
    ModNext(count);
  }

  /** Every seat number names a key of a players' dict. */
  predicate Full(m: map<string, Player>) {
    forall i :: 0 <= i < 9 ==> Name(Seats[i]) in m
  }

  /** The players of a dict in seat order, from the button. */
  function SeatList(m: map<string, Player>): (ps: seq<Player>)
    requires Full(m)
    ensures |ps| == 9 && forall i :: 0 <= i < 9 ==> ps[i] == m[Name(Seats[i])]
  {
    seq(9, i requires 0 <= i < 9 => m[Name(Seats[i])])
  }

  lemma SeatListValues(m: map<string, Player>)
    requires Full(m)
    ensures forall p :: p in SeatList(m) ==> p in m.Values
  {
  }

  /** No player object sits in two seats. */
  predicate Distinct(ps: seq<Player>) {
    forall i, j :: 0 <= i < j < |ps| ==> ps[i] != ps[j]
  }

  /** Which seats are occupied. */
  function Occupancy(ps: seq<Player>): (occ: seq<bool>)
    reads ps
    ensures |occ| == |ps| && forall i :: 0 <= i < |ps| ==> occ[i] == (ps[i].status != "Empty")
  {
    seq(|ps|, i reads ps requires 0 <= i < |ps| => ps[i].status != "Empty")
  }

  /** The cards each seat holds. */
  function Holdings(ps: seq<Player>): (h: seq<seq<Card>>)
    reads ps
    ensures |h| == |ps| && forall i :: 0 <= i < |ps| ==> h[i] == ps[i].cards
  {
    seq(|ps|, i reads ps requires 0 <= i < |ps| => ps[i].cards)
  }

  /** The hands `h` with card `c` added to seat `v`. */
  function Appended(h: seq<seq<Card>>, v: nat, c: Card): (r: seq<seq<Card>>)
    requires v < |h|
    ensures |r| == |h| && forall i :: 0 <= i < |h| ==> r[i] == if i == v then h[i] + [c] else h[i]
  {
    h[v := h[v] + [c]]
  }

  class Table {
    var players: Players
    var deck: Deck
    /** `game.game_info.current_street`. */
    var street: string

    constructor (players: Players, deck: Deck, street: string)
      ensures this.players == players && this.deck == deck && this.street == street
    {
      this.players := players;
      this.deck := deck;
      this.street := street;
    }

    /** `next_street()`: ValueError from any street but preflop, flop and
        turn, which then stays as it was. */
    method NextStreet() returns (r: Result<()>)
      modifies this`street
      ensures r.Failure? <==> StreetAfter(old(street)).None?
      ensures r.Failure? ==> r.error == ValueError && street == old(street)
      ensures r.Success? ==> street == StreetAfter(old(street)).value
    {
      if street == "preflop" {
        street := "flop";
      } else if street == "flop" {
        street := "turn";
      } else if street == "turn" {
        street := "river";
      } else {
        return Failure(ValueError);
      }
      return Success(());
    }

    /** The nine seats are keys of the players' dict and hold nine
        different player objects. */
    predicate Seated()
      reads this, players
    {
      Full(players.seats) && Distinct(SeatList(players.seats))
    }

    /** `deal_preflop()`: eighteen steps round the table from the button;
        each step moves to the next position, skips a seat whose status is
        'Empty' and otherwise appends `deck.pop()` to that player's cards;
        the IndexError of an empty deck ends the deal. The new state is the
        one `DealUpTo` gives for those eighteen steps, whether or not `pop`
        failed, and `PreflopDeal` says what that state is. */
    method DealPreflop() returns (r: Result<()>)
      requires Seated()
      modifies deck, players.seats.Values`cards
      ensures var ps := SeatList(players.seats);
        var st := DealUpTo(old(Occupancy(ps)), old(deck.cards), 18);
        (r.Failure? <==> st.failed) && (r.Failure? ==> r.error == IndexError) &&
        deck.cards == st.deck && forall i :: 0 <= i < 9 ==> ps[i].cards == old(ps[i].cards) + st.got[i]
    {
      ghost var m := players.seats;
      ghost var ps := SeatList(m);
      SeatListValues(m);
      r := Deal(m, ps, Occupancy(ps), deck.cards, Holdings(ps));
    }

    /** The loop of `deal_preflop`, for the seats `ps` of `m`. */
    method Deal(ghost m: map<string, Player>, ghost ps: seq<Player>,
                ghost occ: seq<bool>, ghost cards0: seq<Card>, ghost start: seq<seq<Card>>)
      returns (r: Result<()>)
      requires players.seats == m && Full(m) && ps == SeatList(m)
      requires Layout(ps, occ, start) && Statuses(ps, occ) && DealtSoFar(ps, occ, cards0, start, 0)
      modifies deck, ps`cards
      ensures (r.Failure? <==> DealUpTo(occ, cards0, 18).failed) && (r.Failure? ==> r.error == IndexError)
      ensures DealtSoFar(ps, occ, cards0, start, 18)
    {
      var count := 0;
      var current := "btn";
      var ok := true;
      while count < 9 * 2 && ok
        invariant 0 <= count <= 18
        invariant current == Name(Seats[count % 9])
        invariant players.seats == m && Statuses(ps, occ)
        invariant DealtSoFar(ps, occ, cards0, start, count)
        invariant ok <==> !DealUpTo(occ, cards0, count).failed
      {
        var player;
        current, player := NextSeat(count, current, m, ps);
        ok := Serve(count, player, ps, occ, cards0, start);
        count := count + 1;
      }
      StopsDealing(ps, occ, cards0, start, count);
      r := if ok then Success(()) else Failure(IndexError);
    }

    /** Once `pop` has failed, the state stays the one of the final step. */
    lemma StopsDealing(ps: seq<Player>, occ: seq<bool>, cards0: seq<Card>, start: seq<seq<Card>>, count: nat)
      requires Layout(ps, occ, start) && count <= 18 && DealtSoFar(ps, occ, cards0, start, count)
      requires count == 18 || DealUpTo(occ, cards0, count).failed
      ensures DealtSoFar(ps, occ, cards0, start, 18)
      ensures DealUpTo(occ, cards0, 18).failed == DealUpTo(occ, cards0, count).failed
    {
      if count < 18 {
        FailedStays(occ, cards0, count, 18);
      }
    }

    /** The seats, their occupancy and their starting hands fit together,
        and no player object sits in two seats. */
    static predicate Layout(ps: seq<Player>, occ: seq<bool>, start: seq<seq<Card>>) {
      |ps| == 9 && Distinct(ps) && |occ| == 9 && |start| == 9
    }

    /** `occ` says which seats are not 'Empty'. */
    static predicate Statuses(ps: seq<Player>, occ: seq<bool>)
      reads ps`status
    {
      |ps| == |occ| && forall i :: 0 <= i < |ps| ==> occ[i] == (ps[i].status != "Empty")
    }

    /** The deck and the hands after `count` steps of `deal_preflop` for
        the seats `ps`, starting from the deck `cards0` and the hands `start`. */
    predicate DealtSoFar(ps: seq<Player>, occ: seq<bool>, cards0: seq<Card>, start: seq<seq<Card>>, count: nat)
      requires Layout(ps, occ, start)
      reads this, deck, ps`cards
    {
      deck.cards == DealUpTo(occ, cards0, count).deck &&
      forall i :: 0 <= i < 9 ==> ps[i].cards == start[i] + DealUpTo(occ, cards0, count).got[i]
    }

    /** The start of a pass of the loop of `deal_preflop`, at step `count`:
        the next position and the player sitting there. */
    method NextSeat(count: nat, current: string, ghost m: map<string, Player>, ghost ps: seq<Player>)
      returns (next: string, player: Player)
      requires players.seats == m && Full(m) && ps == SeatList(m)
      requires current == Name(Seats[count % 9])
      ensures next == Name(Seats[VisitAt(count)]) && player == ps[VisitAt(count)]
    {
      var v := VisitAt(count);
      NextOfSeat(Seats[count % 9]);
      NextVisit(count);
      next := NextPosition(current).value;
      assert next == Name(Seats[v]);
      assert next in m && m[next] == ps[v];
      player := players.Get(PositionName(next)).value;
    }

    /** The rest of the pass: skip an empty seat, otherwise pop a card for
        `player`; `ok` is false when `pop` failed. */
    method Serve(count: nat, player: Player, ghost ps: seq<Player>,
                 ghost occ: seq<bool>, ghost cards0: seq<Card>, ghost start: seq<seq<Card>>)
      returns (ok: bool)
      requires Layout(ps, occ, start) && Statuses(ps, occ)
      requires count < 18 && DealtSoFar(ps, occ, cards0, start, count) && player == ps[VisitAt(count)]
      requires !DealUpTo(occ, cards0, count).failed
      modifies deck, player`cards
      ensures Statuses(ps, occ) && DealtSoFar(ps, occ, cards0, start, count + 1)
      ensures ok <==> !DealUpTo(occ, cards0, count + 1).failed
    {
      var v := VisitAt(count);
      if player.status == "Empty" {
        StepSkips(occ, cards0, count);
        return true;
      }
      var card := deck.Pop();
      if card.Failure? {
        StepFails(occ, cards0, count);
        return false;
      }
      StepDeals(occ, cards0, count);
      ghost var before := Holdings(ps);
      player.cards := player.cards + [card.value];
      assert forall i :: 0 <= i < 9 ==> ps[i].cards == Appended(before, v, card.value)[i];
      ok := true;
    }
  }
}
