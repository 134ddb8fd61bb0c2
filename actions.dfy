/** The rules of a turn's actions: the action budget of `Turn.player_action`
    and the checks of the `ShareKnowledge`, `DiscoverCure`, `ShuttleFlight`
    and `CharterFlight` commands, over the player data those checks read. */
module Actions {
  import opened Errors
  import opened Cards
  import Decks

  // ---------------------------------------------------------------------
  // The action budget
  // ---------------------------------------------------------------------

  /** `player_actions` at the start of a turn. */
  const ActionsPerTurn: int := 4

  /** `player_action` performs an action only while budget is left, and
      only the 'Move' action exists. */
  predicate Performs(budget: int, action: string) {
    budget > 0 && action == "Move"
  }

  /** The budget left after a turn's calls of `player_action`, each spending
      one action when it performs one. */
  function BudgetAfter(budget: int, actions: seq<string>): (r: int)
    ensures r <= budget
    decreases |actions|
  {
    if |actions| == 0 then budget
    else BudgetAfter(if Performs(budget, actions[0]) then budget - 1 else budget, actions[1..])
  }

  /** How many of the calls perform their action. */
  function Performed(budget: int, actions: seq<string>): (r: nat)
    ensures r <= |actions|
    decreases |actions|
  {
    if |actions| == 0 then 0
    else if Performs(budget, actions[0]) then 1 + Performed(budget - 1, actions[1..])
    else Performed(budget, actions[1..])
  }

  /** How many of the calls ask for 'Move'. */
  function Moves(actions: seq<string>): nat {
    if |actions| == 0 then 0 else (if actions[0] == "Move" then 1 else 0) + Moves(actions[1..])
  }

  function Min(a: int, b: int): int {
    if a <= b then a else b
  }

  /** Starting from a non-negative budget, every performed action costs
      exactly one, the budget never goes below zero, and the calls perform
      the first `budget` moves and no more. */
  lemma {:induction false} BudgetAccounting(budget: int, actions: seq<string>)
    requires budget >= 0
    ensures BudgetAfter(budget, actions) == budget - Performed(budget, actions)
    ensures Performed(budget, actions) == Min(budget, Moves(actions))
    ensures 0 <= BudgetAfter(budget, actions) <= budget
    decreases |actions|
  {
    if |actions| > 0 {
      if Performs(budget, actions[0]) {
        BudgetAccounting(budget - 1, actions[1..]);
      } else {
        BudgetAccounting(budget, actions[1..]);
      }
    }
  }

  /** A turn performs at most four actions. */
  lemma TurnPerformsAtMostFour(actions: seq<string>)
    ensures Performed(ActionsPerTurn, actions) <= 4
    ensures Performed(ActionsPerTurn, actions) == 4 <==> Moves(actions) >= 4
  {
    BudgetAccounting(ActionsPerTurn, actions);
  }

  // ---------------------------------------------------------------------
  // Player data the commands check
  // ---------------------------------------------------------------------

  /** A player's location: a city name and whether the city has a research
      station (the `player_location` of the commands). */
  datatype Place = Place(name: string, research: bool)

  /** What the commands read about a player: role, location and the cards
      in hand (the `player_cards` of the commands). */
  datatype PlayerView = PlayerView(role: Role, location: Place, hand: seq<Card>)

  /** The city card of `name` is in the hand. */
  predicate HoldsCityCard(hand: seq<Card>, name: string) {
    exists i :: 0 <= i < |hand| && hand[i].CityCard? && hand[i].name == name
  }

  // ---------------------------------------------------------------------
  // Flights
  // ---------------------------------------------------------------------

  /** `ShuttleFlight.execute`: the move happens only between two cities with
      research stations. */
  function ShuttleFlight(p: PlayerView, target: Place): (r: PlayerView)
    ensures r.role == p.role && r.hand == p.hand
    ensures p.location.research && target.research ==> r.location == target
    ensures !(p.location.research && target.research) ==> r.location == p.location
  {
    if p.location.research && target.research then p.(location := target) else p
  }

  /** `CharterFlight.execute`: the move happens only when the target city's
      card is in hand; the card stays in hand. */
  function CharterFlight(p: PlayerView, target: Place): (r: PlayerView)
    ensures r.role == p.role && r.hand == p.hand
    ensures HoldsCityCard(p.hand, target.name) ==> r.location == target
    ensures !HoldsCityCard(p.hand, target.name) ==> r.location == p.location
  {
    if HoldsCityCard(p.hand, target.name) then p.(location := target) else p
  }

  // ---------------------------------------------------------------------
  // Share knowledge
  // ---------------------------------------------------------------------

  /** The card is the card of the city the player stands in. */
  predicate NamesPlace(card: Card, place: Place) {
    card.CityCard? && card.name == place.name
  }

  /** The checks of `ShareKnowledge.execute`: both players stand in the same
      place, and one of them is a Researcher or the card is that place's. */
  predicate MayShare(giver: PlayerView, receiver: PlayerView, card: Card) {
    && giver.location == receiver.location
    && (giver.role == Researcher || receiver.role == Researcher || NamesPlace(card, giver.location))
  }

  datatype Pair = Pair(giver: PlayerView, receiver: PlayerView)

  /** `ShareKnowledge.execute`: when the checks pass, `remove_card` takes the
      card out of the giver's hand (`list.remove`, a ValueError when the giver
      does not hold it) and `add_card` appends it to the receiver's; when they
      fail, both players are left as they were. */
  function ShareKnowledge(giver: PlayerView, receiver: PlayerView, card: Card): (r: Result<Pair>)
    ensures !MayShare(giver, receiver, card) ==> r == Ok(Pair(giver, receiver))
    ensures MayShare(giver, receiver, card) && card !in giver.hand ==> r == Err(ValueError)
    ensures MayShare(giver, receiver, card) && card in giver.hand ==>
              && r.Ok?
              && r.value.receiver.hand == receiver.hand + [card]
              && multiset(r.value.giver.hand) == multiset(giver.hand) - multiset{card}
              && |r.value.giver.hand| + 1 == |giver.hand|
    ensures r.Ok? ==>
              && r.value.giver.role == giver.role && r.value.giver.location == giver.location
              && r.value.receiver.role == receiver.role && r.value.receiver.location == receiver.location
  {
    if !MayShare(giver, receiver, card) then Ok(Pair(giver, receiver))
    else
      match Decks.Remove(giver.hand, card)
      case Err(e) => Err(e)
      case Ok(rest) => Ok(Pair(giver.(hand := rest), receiver.(hand := receiver.hand + [card])))
  }

  /** Sharing never creates or loses a card, and it changes the hands exactly
      when it is allowed and the giver holds the card. */
  lemma ShareKnowledgeConserves(giver: PlayerView, receiver: PlayerView, card: Card)
    ensures var r := ShareKnowledge(giver, receiver, card);
            r.Ok? ==> multiset(r.value.giver.hand) + multiset(r.value.receiver.hand)
                      == multiset(giver.hand) + multiset(receiver.hand)
    ensures var r := ShareKnowledge(giver, receiver, card);
            (r.Ok? && r.value != Pair(giver, receiver)) <==> MayShare(giver, receiver, card) && card in giver.hand
  {
    var r := ShareKnowledge(giver, receiver, card);
    if MayShare(giver, receiver, card) && card in giver.hand {
      assert |r.value.receiver.hand| != |receiver.hand|;
      assert multiset(giver.hand) == multiset(giver.hand) - multiset{card} + multiset{card};
    }
  }

  // ---------------------------------------------------------------------
  // Discover a cure
  // ---------------------------------------------------------------------

  /** Cards of one colour a cure needs: four for a Scientist, five for
      anyone else. */
  function CardsNeeded(role: Role): (n: nat)
    ensures n == 4 <==> role == Scientist
    ensures n == 4 || n == 5
  {
    if role == Scientist then 4 else 5
  }

  predicate OfColor(card: Card, color: Color) {
    card.CityCard? && card.color == color
  }

  /** The city cards of `color` in a hand. */
  function CountColor(hand: seq<Card>, color: Color): (n: nat)
    ensures n <= |hand|
  {
    if |hand| == 0 then 0 else (if OfColor(hand[0], color) then 1 else 0) + CountColor(hand[1..], color)
  }

  lemma {:induction false} CountColorConcat(a: seq<Card>, b: seq<Card>, color: Color)
    ensures CountColor(a + b, color) == CountColor(a, color) + CountColor(b, color)
  {
    if |a| == 0 {
      assert a + b == b;
    } else {
      assert (a + b)[1..] == a[1..] + b;
      CountColorConcat(a[1..], b, color);
    }
  }

  /** The position of the first city card of `color`. */
  function FirstOfColor(hand: seq<Card>, color: Color): (r: Option<nat>)
    ensures r.None? <==> CountColor(hand, color) == 0
    ensures r.Some? ==> r.value < |hand| && OfColor(hand[r.value], color)
    ensures r.Some? ==> forall j :: 0 <= j < r.value ==> !OfColor(hand[j], color)
  {
    if |hand| == 0 then None
    else if OfColor(hand[0], color) then Some(0)
    else match FirstOfColor(hand[1..], color)
      case None => None
      case Some(i) => Some(i + 1)
  }

  /** The checks of `DiscoverCure.execute`: a research station where the
      player stands, and enough cards of the colour. */
  predicate MayDiscoverCure(p: PlayerView, color: Color) {
    p.location.research && CountColor(p.hand, color) >= CardsNeeded(p.role)
  }

  /** `DiscoverCure.execute`: when the checks pass, one card of the colour is
      removed from the hand and the player is returned; otherwise nothing
      happens. */
  function DiscoverCure(p: PlayerView, color: Color): (r: Option<PlayerView>)
    ensures r.Some? <==> MayDiscoverCure(p, color)
    ensures r.Some? ==>
              && r.value.role == p.role && r.value.location == p.location
              && |r.value.hand| + 1 == |p.hand|
              && CountColor(r.value.hand, color) + 1 == CountColor(p.hand, color)
              && exists i :: 0 <= i < |p.hand| && OfColor(p.hand[i], color)
                             && (forall j :: 0 <= j < i ==> !OfColor(p.hand[j], color))
                             && r.value.hand == p.hand[..i] + p.hand[i + 1..]
  {
    if !MayDiscoverCure(p, color) then None
    else
      var i := FirstOfColor(p.hand, color).value;
      var rest := p.hand[..i] + p.hand[i + 1..];
      assert p.hand == p.hand[..i] + [p.hand[i]] + p.hand[i + 1..];
      CountColorConcat(p.hand[..i] + [p.hand[i]], p.hand[i + 1..], color);
      CountColorConcat(p.hand[..i], [p.hand[i]], color);
      CountColorConcat(p.hand[..i], p.hand[i + 1..], color);
      Some(p.(hand := rest))
  }
}
